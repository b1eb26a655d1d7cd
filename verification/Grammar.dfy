/** Rust's tokens as a grammar, written out and read back by the lexer: a reference
    that says what is code, what is a literal's contents and what is a comment
    without scanning for it. */
module Grammar {
  import opened Lexical
  import opened CommentRemoval
  import Cuts
  import opened Options

  /** What a block comment holds: characters, and comments within it. */
  datatype Part = Ch(c: char) | Inner(parts: seq<Part>)

  /** What an ordinary literal holds. */
  datatype Piece = Bare(c: char) | Escape(c: char)

  datatype Item =
    | Plain(c: char)
    | Slash
    | Name(word: string)
    | Label(word: string)
    | CharLit(c: char)
    | EscapedChar(c: char, more: string)
    | StringLit(pieces: seq<Piece>)
    | RawString(prefix: string, hashes: nat, body: string)
    | Note(parts: seq<Part>)
    | LineNote(text: string)

  ghost predicate Letters(alnum: Alphabet) {
    && Sane(alnum) && alnum('r') && alnum('b') && alnum('c')
    && !alnum('"') && !alnum('\'') && !alnum('\\') && !alnum('#')
  }

  // -------------------------------------------------------------- the writing

  function Hashes(n: nat): (r: string)
    ensures |r| == n && forall k :: 0 <= k < n ==> r[k] == '#'
  {
    seq(n, _ => '#')
  }

  function PartText(part: Part): string {
    match part
    case Ch(c) => [c]
    case Inner(inner) => "/*" + PartsText(inner) + "*/"
  }

  function PartsText(parts: seq<Part>): string {
    if parts == [] then "" else PartText(parts[0]) + PartsText(parts[1..])
  }

  function PiecesText(pieces: seq<Piece>): string {
    if pieces == [] then ""
    else (match pieces[0] case Bare(c) => [c] case Escape(c) => ['\\', c]) + PiecesText(pieces[1..])
  }

  function Text(item: Item): string {
    match item
    case Plain(c) => [c]
    case Slash => "/"
    case Name(word) => word
    case Label(word) => "'" + word
    case CharLit(c) => ['\'', c, '\'']
    case EscapedChar(c, more) => ['\'', '\\', c] + more + "'"
    case StringLit(pieces) => "\"" + PiecesText(pieces) + "\""
    case RawString(prefix, hashes, body) => prefix + ("r" + Hashes(hashes) + "\"") + body + ("\"" + Hashes(hashes))
    case Note(parts) => "/*" + PartsText(parts) + "*/"
    case LineNote(text) => "//" + text
  }

  function Flattened<T, X>(f: T -> seq<X>, items: seq<T>): seq<X> {
    if items == [] then [] else f(items[0]) + Flattened(f, items[1..])
  }

  function TextOf(items: seq<Item>): string {
    Flattened(Text, items)
  }

  /** What each character is. A line comment is cut, not kept. */
  function Kinds(item: Item): seq<Class> {
    match item
    case CharLit(_) => [Structure, Literal, Structure]
    case EscapedChar(_, more) => [Structure] + Run(Literal, 2 + |more|) + [Structure]
    case StringLit(pieces) => [Structure] + Run(Literal, |PiecesText(pieces)|) + [Structure]
    case RawString(prefix, hashes, body) => Run(Structure, |prefix| + 2 + hashes) + Run(Literal, |body|) + Run(Structure, 1 + hashes)
    case Note(parts) => Run(Comment, |PartsText(parts)| + 4)
    case LineNote(_) => []
    case _ => Run(Structure, |Text(item)|)
  }

  function KindsOf(items: seq<Item>): seq<Class> {
    Flattened(Kinds, items)
  }

  // ------------------------------------------------------------- well formed

  predicate Starts(s: string, c: char) {
    s != [] && s[0] == c
  }

  /** `s` goes on as a raw literal would after its `r`. */
  predicate OpensRaw(s: string) {
    At(s, CountHashes(s, 0), '"')
  }

  predicate AllIdent(alnum: Alphabet, word: string) {
    |word| > 0 && forall k :: 0 <= k < |word| ==> Ident(alnum, word[k])
  }

  /** A word the text after it does not carry on, nor turn into a raw literal's start. */
  predicate WordEnds(alnum: Alphabet, word: string, after: string) {
    && (after == [] || !Ident(alnum, after[0]))
    && (word == "r" || word == "br" || word == "cr" ==> !OpensRaw(after))
  }

  /** No two characters side by side open or close a comment but those that do. */
  predicate PartsOk(parts: seq<Part>, after: string) {
    parts != [] ==>
      PartOk(parts[0], PartsText(parts[1..]) + after) && PartsOk(parts[1..], after)
  }

  predicate PartOk(part: Part, rest: string) {
    match part
    case Ch(c) => !(c == '*' && Starts(rest, '/')) && !(c == '/' && Starts(rest, '*'))
    case Inner(inner) => PartsOk(inner, "*/")
  }

  predicate PieceOk(p: Piece) {
    p.Bare? ==> p.c != '"' && p.c != '\\'
  }

  predicate ItemOk(alnum: Alphabet, item: Item, afterWord: bool, after: string) {
    match item
    case Plain(c) => !Ident(alnum, c) && c != '/' && c != '"' && c != '\''
    case Slash => !Starts(after, '/') && !Starts(after, '*')
    case Name(word) => !afterWord && AllIdent(alnum, word) && WordEnds(alnum, word, after)
    case Label(word) => AllIdent(alnum, word) && WordEnds(alnum, word, after) && !Starts(after, '\'')
    case CharLit(c) => c != '\'' && c != '\\'
    case EscapedChar(_, more) => |more| <= 10 && forall k :: 0 <= k < |more| ==> more[k] != '\''
    case StringLit(pieces) => forall p :: p in pieces ==> PieceOk(p)
    case RawString(prefix, hashes, body) =>
      && !afterWord && (prefix == "" || prefix == "b" || prefix == "c")
      && ClosesOnlyAtEnd(body, hashes)
    case Note(parts) => PartsOk(parts, "*/")
    case LineNote(_) => after == []
  }

  /** The text before `i` ends no word. */
  predicate Fresh(alnum: Alphabet, s: string, i: nat) {
    i <= |s| && (i > 0 ==> !Ident(alnum, s[i - 1]))
  }

  /** Whether an item may stand at `i` of `s`, before `after`. */
  type Fit = (Item, nat, string) -> bool

  function FitIn(alnum: Alphabet, s: string): Fit {
    (item: Item, i: nat, after: string) =>
      ItemOk(alnum, item, !Fresh(alnum, s, i), after) && (item.LineNote? ==> after == [])
  }

  /** Items laid end to end from `i`, each where it may stand. */
  predicate Laid<T>(text: T -> string, fit: (T, nat, string) -> bool, i: nat, items: seq<T>)
    decreases |items|
  {
    items != [] ==>
      && fit(items[0], i, Flattened(text, items[1..]))
      && Laid(text, fit, i + |text(items[0])|, items[1..])
  }

  predicate ItemsOk(alnum: Alphabet, items: seq<Item>) {
    Laid(Text, FitIn(alnum, TextOf(items)), 0, items)
  }

  // ------------------------------------------------------------- being read

  /** `s` reads `t` at `i`. */
  ghost predicate Reads(s: string, i: nat, t: string) {
    i + |t| <= |s| && forall k :: 0 <= k < |t| ==> s[i + k] == t[k]
  }

  lemma ReadsJoin(s: string, i: nat, a: string, b: string)
    requires Reads(s, i, a + b)
    ensures Reads(s, i, a) && Reads(s, i + |a|, b)
  {
    assert forall k :: 0 <= k < |a| ==> (a + b)[k] == a[k];
    assert forall k :: 0 <= k < |b| ==> (a + b)[|a| + k] == b[k];
  }

  lemma ReadsBoth(s: string, i: nat, a: string, b: string)
    requires Reads(s, i, a) && Reads(s, i + |a|, b)
    ensures Reads(s, i, a + b)
  {
    forall k | 0 <= k < |a + b|
      ensures s[i + k] == (a + b)[k]
    {
      if k >= |a| {
        assert s[i + |a| + (k - |a|)] == b[k - |a|];
      }
    }
  }

  /** A line, and how the lexer marks it from its start. */
  datatype Line = Line(alnum: Alphabet, s: string, kinds: seq<Class>, last: Mode)

  /** The lexer comes to `i` in mode `m`. */
  ghost predicate Comes(l: Line, i: nat, m: Mode) {
    ToCome(l.alnum, l.s, i, m, l.kinds, l.last)
  }

  /** Having come to `i` in mode `m`, it comes to `j` in mode `n`, all of `kind` between. */
  ghost predicate Passes(l: Line, i: nat, m: Mode, kind: Class, j: nat, n: Mode) {
    Comes(l, i, m) ==> i <= j <= |l.s| && Comes(l, j, n) && AllOf(l.kinds, i, j, kind)
  }

  lemma Passed(l: Line, i: nat, m: Mode)
    requires i < |l.s| && StepAt(l.alnum, l.s, i, m).Take?
    requires i + StepAt(l.alnum, l.s, i, m).width <= |l.s|
    ensures var step := StepAt(l.alnum, l.s, i, m); Passes(l, i, m, step.kind, i + step.width, step.mode)
  {
    if Comes(l, i, m) {
      StepMarks(l.alnum, l.s, i, m, l.kinds, l.last);
    }
  }

  lemma PassedBoth(l: Line, i: nat, m: Mode, kind: Class, j: nat, n: Mode, k: nat, o: Mode)
    requires Passes(l, i, m, kind, j, n) && Passes(l, j, n, kind, k, o)
    ensures Passes(l, i, m, kind, k, o)
  {}

  // ------------------------------------------------------------- block comments

  /** A way of telling that from `i` at depth `d` all is comment up to `j` at depth `e`; depth 0 is code. */
  type Commented = (nat, nat, nat, nat) -> bool

  ghost predicate Chains(c: Commented, s: string) {
    && (forall i: nat, d: nat :: i <= |s| ==> c(i, d, i, d))
    && (forall i: nat, d: nat, j: nat, e: nat, k: nat, f: nat :: c(i, d, j, e) && c(j, e, k, f) ==> c(i, d, k, f))
  }

  /** What a reader of nested comments does with two characters. */
  ghost predicate ReadsNotes(c: Commented, s: string) {
    && (forall i: nat, d: nat, j: nat :: j == i + 1 && d >= 1 && j < |s| && !(s[i] == '*' && s[j] == '/') && !(s[i] == '/' && s[j] == '*') ==> c(i, d, j, d))
    && (forall i: nat, d: nat, j: nat, e: nat :: j == i + 2 && d >= 1 && e == d + 1 && Reads(s, i, "/*") ==> c(i, d, j, e))
    && (forall i: nat, d: nat, j: nat, e: nat :: j == i + 2 && d >= 1 && e == d - 1 && Reads(s, i, "*/") ==> c(i, d, j, e))
  }

  lemma {:induction false} PartsRun(c: Commented, s: string, i: nat, d: nat, parts: seq<Part>, after: string)
    requires Chains(c, s) && ReadsNotes(c, s) && d >= 1 && |after| > 0
    requires Reads(s, i, PartsText(parts) + after) && PartsOk(parts, after)
    ensures c(i, d, i + |PartsText(parts)|, d)
    decreases parts, 0
  {
    if parts != [] {
      var first, rest := PartText(parts[0]), PartsText(parts[1..]);
      Cuts.JoinAssociates(first, rest, after);
      ReadsJoin(s, i, first, rest + after);
      PartRun(c, s, i, d, parts[0], rest + after);
      PartsRun(c, s, i + |first|, d, parts[1..], after);
    }
  }

  lemma {:induction false} PartRun(c: Commented, s: string, i: nat, d: nat, part: Part, rest: string)
    requires Chains(c, s) && ReadsNotes(c, s) && d >= 1 && |rest| > 0
    requires Reads(s, i, PartText(part)) && Reads(s, i + |PartText(part)|, rest) && PartOk(part, rest)
    ensures c(i, d, i + |PartText(part)|, d)
    decreases part, 0
  {
    match part
    case Ch(x) =>
      assert s[i + 0] == [x][0] && s[i + 1 + 0] == rest[0];
    case Inner(inner) =>
      ReadsJoin(s, i, "/*" + PartsText(inner), "*/");
      ReadsJoin(s, i, "/*", PartsText(inner));
      NoteRun(c, s, i + 2, d + 1, inner);
  }

  /** A comment's contents and its close. */
  lemma {:induction false} NoteRun(c: Commented, s: string, i: nat, d: nat, parts: seq<Part>)
    requires Chains(c, s) && ReadsNotes(c, s) && d >= 1 && PartsOk(parts, "*/")
    requires Reads(s, i, PartsText(parts)) && Reads(s, i + |PartsText(parts)|, "*/")
    ensures c(i, d, i + |PartsText(parts)| + 2, d - 1)
    decreases parts, 1
  {
    var n := |PartsText(parts)|;
    ReadsBoth(s, i, PartsText(parts), "*/");
    PartsRun(c, s, i, d, parts, "*/");
    assert c(i + n, d, i + n + 2, d - 1);
  }

  function AtDepth(d: nat): Mode {
    if d == 0 then Code else Block(d)
  }

  /** The lexer's own marks, as such a reader. */
  ghost function Lexer(l: Line): Commented {
    (i: nat, d: nat, j: nat, e: nat) => i <= j <= |l.s| && Passes(l, i, AtDepth(d), Comment, j, AtDepth(e))
  }

  lemma LexerChains(l: Line)
    ensures Chains(Lexer(l), l.s)
  {
    var c := Lexer(l);
    forall i: nat, d: nat, j: nat, e: nat, k: nat, f: nat | c(i, d, j, e) && c(j, e, k, f)
      ensures c(i, d, k, f)
    {
      PassedBoth(l, i, AtDepth(d), Comment, j, AtDepth(e), k, AtDepth(f));
    }
  }

  lemma OtherPassed(l: Line, i: nat, d: nat)
    requires d >= 1 && i + 1 < |l.s|
    requires !(l.s[i] == '*' && l.s[i + 1] == '/') && !(l.s[i] == '/' && l.s[i + 1] == '*')
    ensures Passes(l, i, AtDepth(d), Comment, i + 1, AtDepth(d))
  {
    Passed(l, i, Block(d));
  }

  lemma OpenPassed(l: Line, i: nat, d: nat)
    requires Reads(l.s, i, "/*")
    ensures Passes(l, i, AtDepth(d), Comment, i + 2, AtDepth(d + 1))
  {
    assert l.s[i + 0] == "/*"[0] && l.s[i + 1] == "/*"[1];
    Passed(l, i, AtDepth(d));
  }

  lemma ClosePassed(l: Line, i: nat, d: nat)
    requires Reads(l.s, i, "*/") && d >= 1
    ensures Passes(l, i, AtDepth(d), Comment, i + 2, AtDepth(d - 1))
  {
    assert l.s[i + 0] == "*/"[0] && l.s[i + 1] == "*/"[1];
    Passed(l, i, AtDepth(d));
  }

  lemma LexerReadsNotes(l: Line)
    ensures ReadsNotes(Lexer(l), l.s)
  {
    var c, s := Lexer(l), l.s;
    forall i: nat, d: nat, j: nat | j == i + 1 && d >= 1 && j < |s| && !(s[i] == '*' && s[j] == '/') && !(s[i] == '/' && s[j] == '*')
      ensures c(i, d, j, d)
    {
      OtherPassed(l, i, d);
    }
    forall i: nat, d: nat, j: nat, e: nat | j == i + 2 && d >= 1 && e == d + 1 && Reads(s, i, "/*")
      ensures c(i, d, j, e)
    {
      OpenPassed(l, i, d);
    }
    forall i: nat, d: nat, j: nat, e: nat | j == i + 2 && d >= 1 && e == d - 1 && Reads(s, i, "*/")
      ensures c(i, d, j, e)
    {
      ClosePassed(l, i, d);
    }
  }

  /** A whole block comment, read in code. */
  lemma NoteItem(l: Line, i: nat, parts: seq<Part>, n: nat)
    requires Reads(l.s, i, "/*") && Reads(l.s, i + 2, PartsText(parts)) && Reads(l.s, i + 2 + n, "*/")
    requires PartsOk(parts, "*/") && n == |PartsText(parts)|
    ensures Passes(l, i, Code, Comment, i + n + 4, Code)
  {
    LexerChains(l);
    LexerReadsNotes(l);
    NoteRun(Lexer(l), l.s, i + 2, 1, parts);
    assert Lexer(l)(i + 2, 1, i + 2 + n + 2, 0);
    OpenPassed(l, i, 0);
    PassedBoth(l, i, Code, Comment, i + 2, Block(1), i + n + 4, Code);
  }

  // -------------------------------------------------------------- one by one

  /** Characters taken one by one in one mode. */
  lemma {:induction false} OneByOne(l: Line, i: nat, m: Mode, kind: Class, j: nat)
    requires i <= j <= |l.s|
    requires forall k :: i <= k < j ==> StepAt(l.alnum, l.s, k, m) == Take(1, kind, m)
    ensures Passes(l, i, m, kind, j, m)
    decreases j - i
  {
    if i < j {
      Passed(l, i, m);
      OneByOne(l, i + 1, m, kind, j);
    }
  }

  lemma NoRawHere(alnum: Alphabet, s: string, i: nat)
    requires i < |s| && s[i] == 'r'
    requires !At(s, i + 1 + CountHashes(s, i + 1), '"')
    ensures RawLiteralStart(alnum, s, i).None?
  {}

  /** A raw literal's opening, told from the text after its `r`. */
  lemma {:induction false} HashesShift(s: string, i: nat, t: string, k: nat)
    requires Reads(s, i, t) && i + |t| == |s| && k <= |t|
    ensures CountHashes(s, i + k) == CountHashes(t, k)
    decreases |t| - k
  {
    if k < |t| {
      assert s[i + k] == t[k];
      HashesShift(s, i, t, k + 1);
    }
  }

  lemma NotOpening(s: string, i: nat, after: string)
    requires Reads(s, i, after) && i + |after| == |s| && !OpensRaw(after)
    ensures !At(s, i + CountHashes(s, i), '"')
  {
    HashesShift(s, i, after, 0);
  }

  /** Each character of a word is taken as code. */
  lemma WordStep(alnum: Alphabet, s: string, i: nat, word: string, after: string, k: nat)
    requires Letters(alnum) && Fresh(alnum, s, i) && AllIdent(alnum, word) && WordEnds(alnum, word, after)
    requires Reads(s, i, word) && Reads(s, i + |word|, after) && i + |word| + |after| == |s|
    requires k < |word|
    ensures StepAt(alnum, s, i + k, Code) == Take(1, Structure, Code)
  {
    var at := i + k;
    assert s[at] == word[k];
    assert !Ident(alnum, '/') && !Ident(alnum, '"') && !Ident(alnum, '\'');
    if s[at] == 'r' {
      if k + 1 < |word| {
        assert s[i + (k + 1)] == word[k + 1];
        assert !Ident(alnum, '#');
        NoRawHere(alnum, s, at);
      } else if k >= 2 || (k == 1 && word[0] != 'b' && word[0] != 'c') {
        assert s[i + (k - 1)] == word[k - 1];
        assert k >= 2 ==> s[i + (k - 2)] == word[k - 2];
      } else {
        assert word == "r" || word == "br" || word == "cr";
        NotOpening(s, i + |word|, after);
        NoRawHere(alnum, s, at);
      }
    }
  }

  lemma WordItem(l: Line, i: nat, word: string, after: string)
    requires Letters(l.alnum) && Fresh(l.alnum, l.s, i) && AllIdent(l.alnum, word) && WordEnds(l.alnum, word, after)
    requires Reads(l.s, i, word) && Reads(l.s, i + |word|, after) && i + |word| + |after| == |l.s|
    ensures Passes(l, i, Code, Structure, i + |word|, Code)
  {
    forall k | i <= k < i + |word|
      ensures StepAt(l.alnum, l.s, k, Code) == Take(1, Structure, Code)
    {
      WordStep(l.alnum, l.s, i, word, after, k - i);
    }
    OneByOne(l, i, Code, Structure, i + |word|);
  }

  lemma LabelItem(l: Line, i: nat, word: string, after: string)
    requires Letters(l.alnum) && AllIdent(l.alnum, word) && WordEnds(l.alnum, word, after) && !Starts(after, '\'')
    requires Reads(l.s, i, "'") && Reads(l.s, i + 1, word) && Reads(l.s, i + 1 + |word|, after) && i + 1 + |word| + |after| == |l.s|
    ensures Passes(l, i, Code, Structure, i + 1 + |word|, Code)
  {
    var s := l.s;
    assert s[i + 0] == "'"[0] && s[i + 1 + 0] == word[0];
    assert !Ident(l.alnum, '\\') && !Ident(l.alnum, '\'');
    if |word| > 1 {
      assert s[i + 1 + 1] == word[1];
    } else if after != [] {
      assert s[i + 1 + |word| + 0] == after[0];
    }
    assert CharLiteralEnd(s, i).None?;
    Passed(l, i, Code);
    WordItem(l, i + 1, word, after);
  }

  // ------------------------------------------------------------------ literals

  /** A literal: structure, its contents, structure again. */
  ghost predicate PassesLiteral(l: Line, i: nat, open: nat, close: nat, end: nat) {
    Comes(l, i, Code) ==>
      && i <= open <= close <= end <= |l.s| && Comes(l, end, Code)
      && AllOf(l.kinds, i, open, Structure) && AllOf(l.kinds, open, close, Literal) && AllOf(l.kinds, close, end, Structure)
  }

  lemma QuotedPassed(l: Line, i: nat, close: nat)
    requires i + 2 <= close < |l.s| && StepAt(l.alnum, l.s, i, Code) == Quoted(close)
    ensures PassesLiteral(l, i, i + 1, close, close + 1)
  {
    if Comes(l, i, Code) {
      StepMarks(l.alnum, l.s, i, Code, l.kinds, l.last);
    }
  }

  lemma CharLitItem(l: Line, i: nat, c: char)
    requires Letters(l.alnum) && c != '\'' && c != '\\' && Reads(l.s, i, ['\'', c, '\''])
    ensures PassesLiteral(l, i, i + 1, i + 2, i + 3)
  {
    var t := ['\'', c, '\''];
    assert l.s[i + 0] == t[0] && l.s[i + 1] == t[1] && l.s[i + 2] == t[2];
    QuotedPassed(l, i, i + 2);
  }

  lemma EscapedItem(l: Line, i: nat, c: char, more: string)
    requires Letters(l.alnum) && |more| <= 10 && (forall k :: 0 <= k < |more| ==> more[k] != '\'')
    requires Reads(l.s, i, ['\'', '\\', c]) && Reads(l.s, i + 3, more) && Reads(l.s, i + 3 + |more|, "'")
    ensures PassesLiteral(l, i, i + 1, i + 3 + |more|, i + 4 + |more|)
  {
    var s, t := l.s, ['\'', '\\', c];
    assert s[i + 0] == t[0] && s[i + 1] == t[1] && s[i + 3 + |more| + 0] == "'"[0];
    forall k | i + 3 <= k < i + 3 + |more|
      ensures s[k] != '\''
    {
      assert s[i + 3 + (k - i - 3)] == more[k - i - 3];
    }
    assert CharLiteralEnd(s, i) == Some(i + 3 + |more|);
    QuotedPassed(l, i, i + 3 + |more|);
  }

  lemma {:induction false} PiecesPassed(l: Line, i: nat, pieces: seq<Piece>, j: nat)
    requires (forall p :: p in pieces ==> PieceOk(p)) && Reads(l.s, i, PiecesText(pieces)) && j == i + |PiecesText(pieces)|
    ensures Passes(l, i, Str, Literal, j, Str)
    decreases |pieces|
  {
    if pieces != [] {
      var first := match pieces[0] case Bare(c) => [c] case Escape(c) => ['\\', c];
      ReadsJoin(l.s, i, first, PiecesText(pieces[1..]));
      assert l.s[i + 0] == first[0];
      assert PieceOk(pieces[0]);
      Passed(l, i, Str);
      PiecesPassed(l, i + |first|, pieces[1..], j);
    }
  }

  lemma StringItem(l: Line, i: nat, pieces: seq<Piece>, n: nat)
    requires Letters(l.alnum) && (forall p :: p in pieces ==> PieceOk(p)) && n == |PiecesText(pieces)|
    requires Reads(l.s, i, "\"") && Reads(l.s, i + 1, PiecesText(pieces)) && Reads(l.s, i + 1 + n, "\"")
    ensures PassesLiteral(l, i, i + 1, i + 1 + n, i + n + 2)
  {
    assert l.s[i + 0] == "\""[0] && l.s[i + 1 + n + 0] == "\""[0];
    Passed(l, i, Code);
    PiecesPassed(l, i + 1, pieces, i + 1 + n);
    Passed(l, i + 1 + n, Str);
    LiteralPassed(l, i, i + 1, Str, i + 1 + n, i + n + 2);
  }

  // -------------------------------------------------------------- raw literals

  /** Hashes within a raw literal's body, counted before its closing quote. */
  lemma {:induction false} HashesWithin(s: string, i: nat, body: string, k: nat)
    requires Reads(s, i, body) && At(s, i + |body|, '"') && k <= |body|
    ensures CountHashes(s, i + k) == CountHashes(body, k)
    decreases |body| - k
  {
    if k < |body| {
      assert s[i + k] == body[k];
      HashesWithin(s, i, body, k + 1);
    }
  }

  lemma ReadHashes(s: string, i: nat, n: nat)
    requires Reads(s, i, Hashes(n))
    ensures CountHashes(s, i) >= n
    ensures !At(s, i + n, '#') ==> CountHashes(s, i) == n
  {
    forall k | i <= k < i + n
      ensures At(s, k, '#')
    {
      assert s[i + (k - i)] == Hashes(n)[k - i];
    }
    HashesAtLeast(s, i, n);
  }

  lemma RawStarts(alnum: Alphabet, s: string, i: nat, prefix: string, hashes: nat)
    requires Letters(alnum) && Fresh(alnum, s, i) && (prefix == "" || prefix == "b" || prefix == "c")
    requires Reads(s, i, prefix) && At(s, i + |prefix|, 'r')
    requires Reads(s, i + |prefix| + 1, Hashes(hashes)) && At(s, i + |prefix| + 1 + hashes, '"')
    ensures RawLiteralStart(alnum, s, i + |prefix|) == Some(hashes)
  {
    ReadHashes(s, i + |prefix| + 1, hashes);
    if prefix != "" {
      assert s[i + 0] == prefix[0];
    }
  }

  lemma PrefixPassed(l: Line, i: nat, prefix: string)
    requires Letters(l.alnum) && (prefix == "" || prefix == "b" || prefix == "c")
    requires Reads(l.s, i, prefix)
    ensures Passes(l, i, Code, Structure, i + |prefix|, Code)
  {
    if prefix != "" {
      assert l.s[i + 0] == prefix[0];
      Passed(l, i, Code);
    }
  }

  /** The opening: the `r`, its hashes and its quote. */
  lemma RawOpens(l: Line, i: nat, prefix: string, hashes: nat, open: nat)
    requires Letters(l.alnum) && Fresh(l.alnum, l.s, i) && (prefix == "" || prefix == "b" || prefix == "c")
    requires Reads(l.s, i, prefix) && At(l.s, i + |prefix|, 'r')
    requires Reads(l.s, i + |prefix| + 1, Hashes(hashes)) && At(l.s, i + |prefix| + 1 + hashes, '"')
    requires open == i + |prefix| + 2 + hashes
    ensures Passes(l, i, Code, Structure, open, Raw(hashes))
  {
    var at := i + |prefix|;
    PrefixPassed(l, i, prefix);
    RawStarts(l.alnum, l.s, i, prefix, hashes);
    assert StepAt(l.alnum, l.s, at, Code) == Take(2 + hashes, Structure, Raw(hashes));
    Passed(l, at, Code);
    PassedBoth(l, i, Code, Structure, at, Code, open, Raw(hashes));
  }

  lemma RawBodyStep(alnum: Alphabet, s: string, i: nat, hashes: nat, body: string, k: nat)
    requires Reads(s, i, body) && At(s, i + |body|, '"') && k < |body|
    requires body[k] == '"' ==> CountHashes(body, k + 1) < hashes
    ensures StepAt(alnum, s, i + k, Raw(hashes)) == Take(1, Literal, Raw(hashes))
  {
    assert s[i + k] == body[k];
    HashesWithin(s, i, body, k + 1);
  }

  lemma {:induction false} RawBody(l: Line, i: nat, hashes: nat, body: string, k: nat)
    requires Reads(l.s, i, body) && At(l.s, i + |body|, '"') && k <= |body| && ClosesOnlyAtEnd(body, hashes)
    ensures Passes(l, i + k, Raw(hashes), Literal, i + |body|, Raw(hashes))
    decreases |body| - k
  {
    if k < |body| {
      RawBodyStep(l.alnum, l.s, i, hashes, body, k);
      Passed(l, i + k, Raw(hashes));
      RawBody(l, i, hashes, body, k + 1);
    }
  }

  lemma RawCloses(l: Line, i: nat, hashes: nat)
    requires At(l.s, i, '"') && Reads(l.s, i + 1, Hashes(hashes))
    ensures Passes(l, i, Raw(hashes), Structure, i + 1 + hashes, Code)
  {
    ReadHashes(l.s, i + 1, hashes);
    Passed(l, i, Raw(hashes));
  }

  /** A raw literal's parts, each read at its own place. */
  ghost predicate ReadsRaw(s: string, i: nat, prefix: string, hashes: nat, body: string, open: nat, close: nat) {
    && open == i + |prefix| + 2 + hashes && close == open + |body|
    && Reads(s, i, prefix) && At(s, i + |prefix|, 'r')
    && Reads(s, i + |prefix| + 1, Hashes(hashes)) && At(s, i + |prefix| + 1 + hashes, '"')
    && Reads(s, open, body) && At(s, close, '"') && Reads(s, close + 1, Hashes(hashes))
  }

  predicate ClosesOnlyAtEnd(body: string, hashes: nat) {
    forall k :: 0 <= k < |body| && body[k] == '"' ==> CountHashes(body, k + 1) < hashes
  }

  lemma RawItem(l: Line, i: nat, prefix: string, hashes: nat, body: string, open: nat, close: nat)
    requires Letters(l.alnum) && Fresh(l.alnum, l.s, i) && (prefix == "" || prefix == "b" || prefix == "c")
    requires ClosesOnlyAtEnd(body, hashes) && ReadsRaw(l.s, i, prefix, hashes, body, open, close)
    ensures PassesLiteral(l, i, open, close, close + 1 + hashes)
  {
    RawOpens(l, i, prefix, hashes, open);
    RawBody(l, open, hashes, body, 0);
    RawCloses(l, close, hashes);
    LiteralPassed(l, i, open, Raw(hashes), close, close + 1 + hashes);
  }

  lemma LiteralPassed(l: Line, i: nat, open: nat, m: Mode, close: nat, end: nat)
    requires Passes(l, i, Code, Structure, open, m) && Passes(l, open, m, Literal, close, m) && Passes(l, close, m, Structure, end, Code)
    ensures PassesLiteral(l, i, open, close, end)
  {}

  // --------------------------------------------------------------- whole lines

  /** The lexer passes the item at `i`, marking it as the grammar says. */
  ghost predicate PassesItem(l: Line, i: nat, item: Item) {
    Comes(l, i, Code) ==>
      var j := i + |Kinds(item)|;
      && j <= |l.kinds| && l.kinds[i..j] == Kinds(item)
      && (if item.LineNote? then |l.kinds| == i && l.last == Code else Comes(l, j, Code))
  }

  lemma OneKindItem(l: Line, i: nat, item: Item, kind: Class)
    requires Passes(l, i, Code, kind, i + |Text(item)|, Code) && Kinds(item) == Run(kind, |Text(item)|) && !item.LineNote?
    ensures PassesItem(l, i, item)
  {}

  lemma LiteralItem(l: Line, i: nat, item: Item, open: nat, close: nat, end: nat)
    requires i <= open <= close <= end && PassesLiteral(l, i, open, close, end) && !item.LineNote?
    requires Kinds(item) == Run(Structure, open - i) + Run(Literal, close - open) + Run(Structure, end - close)
    ensures PassesItem(l, i, item)
  {}

  lemma ReadsThree(s: string, i: nat, a: string, b: string, c: string)
    requires Reads(s, i, a + b + c)
    ensures Reads(s, i, a) && Reads(s, i + |a|, b) && Reads(s, i + |a| + |b|, c)
  {
    ReadsJoin(s, i, a + b, c);
    ReadsJoin(s, i, a, b);
  }

  lemma PlainPassed(l: Line, i: nat, c: char)
    requires Letters(l.alnum) && At(l.s, i, c) && !Ident(l.alnum, c) && c != '/' && c != '"' && c != '\''
    ensures PassesItem(l, i, Plain(c))
  {
    Passed(l, i, Code);
    OneKindItem(l, i, Plain(c), Structure);
  }

  lemma SlashPassed(l: Line, i: nat)
    requires Letters(l.alnum) && At(l.s, i, '/') && !At(l.s, i + 1, '/') && !At(l.s, i + 1, '*')
    ensures PassesItem(l, i, Slash)
  {
    Passed(l, i, Code);
    OneKindItem(l, i, Slash, Structure);
  }

  lemma EscapedPassed(l: Line, i: nat, c: char, more: string)
    requires Letters(l.alnum) && |more| <= 10 && (forall k :: 0 <= k < |more| ==> more[k] != '\'')
    requires Reads(l.s, i, ['\'', '\\', c] + more + "'")
    ensures PassesItem(l, i, EscapedChar(c, more))
  {
    ReadsJoin(l.s, i, ['\'', '\\', c] + more, "'");
    ReadsJoin(l.s, i, ['\'', '\\', c], more);
    EscapedItem(l, i, c, more);
    LiteralItem(l, i, EscapedChar(c, more), i + 1, i + 3 + |more|, i + 4 + |more|);
  }

  lemma StringPassed(l: Line, i: nat, pieces: seq<Piece>)
    requires Letters(l.alnum) && (forall p :: p in pieces ==> PieceOk(p))
    requires Reads(l.s, i, "\"" + PiecesText(pieces) + "\"")
    ensures PassesItem(l, i, StringLit(pieces))
  {
    var n := |PiecesText(pieces)|;
    ReadsThree(l.s, i, "\"", PiecesText(pieces), "\"");
    StringItem(l, i, pieces, n);
    LiteralItem(l, i, StringLit(pieces), i + 1, i + 1 + n, i + n + 2);
  }

  lemma NoteKinds(l: Line, i: nat, parts: seq<Part>, n: nat)
    requires n == |PartsText(parts)| && Passes(l, i, Code, Comment, i + n + 4, Code)
    ensures PassesItem(l, i, Note(parts))
  {
    OneKindItem(l, i, Note(parts), Comment);
  }

  lemma NotePassed(l: Line, i: nat, parts: seq<Part>)
    requires Reads(l.s, i, "/*" + PartsText(parts) + "*/") && PartsOk(parts, "*/")
    ensures PassesItem(l, i, Note(parts))
  {
    ReadsThree(l.s, i, "/*", PartsText(parts), "*/");
    NoteItem(l, i, parts, |PartsText(parts)|);
    NoteKinds(l, i, parts, |PartsText(parts)|);
  }

  lemma LineNotePassed(l: Line, i: nat, text: string)
    requires Reads(l.s, i, "//" + text)
    ensures PassesItem(l, i, LineNote(text))
  {
    ReadsJoin(l.s, i, "//", text);
    assert l.s[i + 0] == "//"[0] && l.s[i + 1] == "//"[1];
    assert StepAt(l.alnum, l.s, i, Code) == Stop;
    if Comes(l, i, Code) {
      StepMarks(l.alnum, l.s, i, Code, l.kinds, l.last);
    }
  }

  lemma RawIsRead(s: string, i: nat, prefix: string, hashes: nat, body: string, open: nat, close: nat)
    requires Reads(s, i, Text(RawString(prefix, hashes, body)))
    requires open == i + |prefix| + 2 + hashes && close == open + |body|
    ensures ReadsRaw(s, i, prefix, hashes, body, open, close)
  {
    var at := i + |prefix|;
    var opening, closing := "r" + Hashes(hashes) + "\"", "\"" + Hashes(hashes);
    ReadsJoin(s, i, prefix + opening + body, closing);
    ReadsJoin(s, i, prefix + opening, body);
    ReadsJoin(s, i, prefix, opening);
    ReadsJoin(s, at, "r" + Hashes(hashes), "\"");
    ReadsJoin(s, at, "r", Hashes(hashes));
    ReadsJoin(s, close, "\"", Hashes(hashes));
    assert s[at + 0] == "r"[0] && s[at + 1 + hashes + 0] == "\""[0] && s[close + 0] == "\""[0];
  }

  lemma RawPassed(l: Line, i: nat, prefix: string, hashes: nat, body: string)
    requires Letters(l.alnum) && Fresh(l.alnum, l.s, i) && (prefix == "" || prefix == "b" || prefix == "c")
    requires ClosesOnlyAtEnd(body, hashes) && Reads(l.s, i, Text(RawString(prefix, hashes, body)))
    ensures PassesItem(l, i, RawString(prefix, hashes, body))
  {
    var open := i + |prefix| + 2 + hashes;
    var close := open + |body|;
    RawIsRead(l.s, i, prefix, hashes, body, open, close);
    RawItem(l, i, prefix, hashes, body, open, close);
    LiteralItem(l, i, RawString(prefix, hashes, body), open, close, close + 1 + hashes);
  }

  lemma WordsPassed(l: Line, i: nat, item: Item, after: string)
    requires Letters(l.alnum) && i + |Text(item)| + |after| == |l.s| && (item.Name? || item.Label?)
    requires Reads(l.s, i, Text(item)) && Reads(l.s, i + |Text(item)|, after)
    requires ItemOk(l.alnum, item, !Fresh(l.alnum, l.s, i), after)
    ensures PassesItem(l, i, item)
  {
    match item
    case Name(word) =>
      WordItem(l, i, word, after);
      OneKindItem(l, i, item, Structure);
    case Label(word) =>
      ReadsJoin(l.s, i, "'", word);
      LabelItem(l, i, word, after);
      OneKindItem(l, i, item, Structure);
  }

  /** An item, read at `i` with `after` to the line's end, is passed as the grammar says. */
  lemma ItemPassed(l: Line, i: nat, item: Item, after: string)
    requires Letters(l.alnum) && i + |Text(item)| + |after| == |l.s|
    requires Reads(l.s, i, Text(item)) && Reads(l.s, i + |Text(item)|, after)
    requires ItemOk(l.alnum, item, !Fresh(l.alnum, l.s, i), after)
    ensures PassesItem(l, i, item)
  {
    match item
    case Plain(c) =>
      assert l.s[i + 0] == Text(item)[0];
      PlainPassed(l, i, c);
    case Slash =>
      assert l.s[i + 0] == Text(item)[0];
      assert after != [] ==> l.s[i + 1 + 0] == after[0];
      SlashPassed(l, i);
    case Name(_) => WordsPassed(l, i, item, after);
    case Label(_) => WordsPassed(l, i, item, after);
    case CharLit(c) =>
      CharLitItem(l, i, c);
      LiteralItem(l, i, item, i + 1, i + 2, i + 3);
    case EscapedChar(c, more) => EscapedPassed(l, i, c, more);
    case StringLit(pieces) => StringPassed(l, i, pieces);
    case RawString(prefix, hashes, body) => RawPassed(l, i, prefix, hashes, body);
    case Note(parts) => NotePassed(l, i, parts);
    case LineNote(text) => LineNotePassed(l, i, text);
  }

  lemma KindsLength(item: Item)
    requires !item.LineNote?
    ensures |Kinds(item)| == |Text(item)|
  {}

  /** One item's classes, and the lexer at the next item; or the line cut there. */
  ghost predicate Goes(here: nat -> bool, all: seq<Class>, i: nat, n: nat, kinds: seq<Class>, after: string, done: bool) {
    || (i + n <= |all| && here(i + n) && all[i..] == kinds + all[i + n..])
    || (i == |all| && kinds == [] && after == "" && done)
  }

  /** What an item is and does wherever it fits: it has a text, and the reader goes on past it. */
  ghost predicate Itemwise<T(!new)>(text: T -> string, kinds: T -> seq<Class>, fit: (T, nat, string) -> bool,
                                    here: nat -> bool, s: string, all: seq<Class>, done: bool) {
    forall x, i: nat, after :: fit(x, i, after) ==>
      && |text(x)| > 0
      && (here(i) && i + |text(x)| + |after| == |s| && Reads(s, i, text(x)) && Reads(s, i + |text(x)|, after) ==>
            Goes(here, all, i, |text(x)|, kinds(x), after, done))
  }

  /** What holds item by item holds of the line. */
  lemma {:induction false} Along<T(!new)>(text: T -> string, kinds: T -> seq<Class>, fit: (T, nat, string) -> bool,
                                          here: nat -> bool, s: string, all: seq<Class>, done: bool, i: nat, items: seq<T>)
    requires Itemwise(text, kinds, fit, here, s, all, done)
    requires here(|s|) ==> |all| == |s| && done
    requires Laid(text, fit, i, items) && here(i)
    requires Reads(s, i, Flattened(text, items)) && i + |Flattened(text, items)| == |s|
    ensures i <= |all| && all[i..] == Flattened(kinds, items) && done
    decreases |items|
  {
    if items != [] {
      var x, rest := items[0], items[1..];
      var t, after := text(x), Flattened(text, rest);
      ReadsJoin(s, i, t, after);
      assert Goes(here, all, i, |t|, kinds(x), after, done);
      if i + |t| <= |all| && here(i + |t|) && all[i..] == kinds(x) + all[i + |t|..] {
        Along(text, kinds, fit, here, s, all, done, i + |t|, rest);
      } else {
        NothingLaid(text, kinds, fit, here, s, all, done, i + |t|, rest);
        Cuts.Nothing(kinds(x));
      }
    }
  }

  lemma NothingLaid<T(!new)>(text: T -> string, kinds: T -> seq<Class>, fit: (T, nat, string) -> bool,
                             here: nat -> bool, s: string, all: seq<Class>, done: bool, i: nat, items: seq<T>)
    requires Itemwise(text, kinds, fit, here, s, all, done)
    requires Laid(text, fit, i, items) && Flattened(text, items) == ""
    ensures items == []
  {
  }

  lemma FirstPassed(l: Line, i: nat, item: Item, after: string, here: nat -> bool)
    requires Letters(l.alnum) && i + |Text(item)| + |after| == |l.s|
    requires Reads(l.s, i, Text(item)) && Reads(l.s, i + |Text(item)|, after)
    requires FitIn(l.alnum, l.s)(item, i, after) && Comes(l, i, Code)
    requires forall j :: here(j) <==> Comes(l, j, Code)
    ensures Goes(here, l.kinds, i, |Text(item)|, Kinds(item), after, l.last == Code)
  {
    ItemPassed(l, i, item, after);
    if !item.LineNote? {
      KindsLength(item);
      Cuts.MiddleAndRest(l.kinds, i, i + |Text(item)|);
    }
  }

  lemma FitIsSomething(alnum: Alphabet, s: string, item: Item, i: nat, after: string)
    requires FitIn(alnum, s)(item, i, after)
    ensures |Text(item)| > 0
  {
    assert ItemOk(alnum, item, !Fresh(alnum, s, i), after);
    match item
    case Plain(_) =>
    case Slash =>
    case Name(word) => assert AllIdent(alnum, word);
    case Label(_) =>
    case CharLit(_) =>
    case EscapedChar(c, more) => assert |Text(item)| == 3 + |more| + 1;
    case StringLit(pieces) => assert |Text(item)| == 1 + |PiecesText(pieces)| + 1;
    case RawString(prefix, hashes, body) => assert |Text(item)| == |prefix| + (1 + hashes + 1) + |body| + (1 + hashes);
    case Note(parts) => assert |Text(item)| == 2 + |PartsText(parts)| + 2;
    case LineNote(text) => assert |Text(item)| == 2 + |text|;
  }

  lemma LexerGoesItemwise(l: Line, here: nat -> bool)
    requires Letters(l.alnum) && forall j :: here(j) <==> Comes(l, j, Code)
    ensures Itemwise(Text, Kinds, FitIn(l.alnum, l.s), here, l.s, l.kinds, l.last == Code)
  {
    forall item, i: nat, after | FitIn(l.alnum, l.s)(item, i, after)
      ensures |Text(item)| > 0
      ensures here(i) && i + |Text(item)| + |after| == |l.s| && Reads(l.s, i, Text(item)) && Reads(l.s, i + |Text(item)|, after) ==>
              Goes(here, l.kinds, i, |Text(item)|, Kinds(item), after, l.last == Code)
    {
      FitIsSomething(l.alnum, l.s, item, i, after);
      if here(i) && i + |Text(item)| + |after| == |l.s| && Reads(l.s, i, Text(item)) && Reads(l.s, i + |Text(item)|, after) {
        FirstPassed(l, i, item, after, here);
      }
    }
  }

  lemma LineIsReadBack(l: Line, items: seq<Item>)
    requires Letters(l.alnum) && l.s == TextOf(items) && ItemsOk(l.alnum, items) && Comes(l, 0, Code)
    ensures l.kinds == KindsOf(items) && l.last == Code
  {
    var here := (j: nat) => Comes(l, j, Code);
    LexerGoesItemwise(l, here);
    Along(Text, Kinds, FitIn(l.alnum, l.s), here, l.s, l.kinds, l.last == Code, 0, items);
    Cuts.Whole(l.kinds);
  }

  /** Any line written from well-formed tokens is read back as those tokens: its code
      is its words, marks and literals, its skeleton blanks exactly what stands inside
      literals, and what is inside comments, however nested, is in neither. */
  lemma WrittenIsReadBack(alnum: Alphabet, items: seq<Item>)
    requires Letters(alnum) && ItemsOk(alnum, items)
    ensures Mark(alnum, TextOf(items), Code) == Marked(KindsOf(items), Code)
  {
    var m := Mark(alnum, TextOf(items), Code);
    LineIsReadBack(Line(alnum, TextOf(items), m.kinds, m.mode), items);
  }
}
