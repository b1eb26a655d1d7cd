/** Rust source read line by line: which characters are code, which lie in a literal and
    which in a comment. */
module Lexical {
  import Cuts
  import opened Options

  /** Between characters, and between lines: every mode but `Code` may span a newline. */
  datatype Mode = Code | Block(depth: nat) | Str | Raw(hashes: nat)

  datatype Class =
    | Structure  // copied to both outputs
    | Literal    // copied to the code, blanked in the skeleton
    | Comment    // blanked in both

  /** What each character of a line is, up to a line comment, and the mode its end leaves. */
  datatype Marked = Marked(kinds: seq<Class>, mode: Mode)

  /** What the lexer does at one place: stop at a line comment, take a run, or take a
      char literal up to its closing quote. */
  datatype Step = Stop | Take(width: nat, kind: Class, mode: Mode) | Quoted(close: nat)

  type Alphabet = char -> bool

  function CodeChar(c: char, kind: Class): char {
    if kind == Comment then ' ' else c
  }

  function SkelChar(c: char, kind: Class): char {
    if kind == Structure then c else ' '
  }

  /** A line as its classes show it: comments blanked. */
  function CodeOf(line: string, kinds: seq<Class>): (r: string)
    requires |kinds| <= |line|
    ensures |r| == |kinds|
  {
    seq(|kinds|, k requires 0 <= k < |kinds| => CodeChar(line[k], kinds[k]))
  }

  /** Literal contents blanked too. */
  function SkelOf(line: string, kinds: seq<Class>): (r: string)
    requires |kinds| <= |line|
    ensures |r| == |kinds|
  {
    seq(|kinds|, k requires 0 <= k < |kinds| => SkelChar(line[k], kinds[k]))
  }

  predicate Ident(alnum: Alphabet, c: char) {
    alnum(c) || c == '_'
  }

  predicate At(chars: string, i: int, c: char) {
    0 <= i < |chars| && chars[i] == c
  }

  /** The length of the run of `#` at `from`. */
  function CountHashes(chars: string, from: nat): (n: nat)
    ensures from + n <= |chars| || n == 0
    decreases |chars| - from
  {
    if from >= |chars| || chars[from] != '#' then 0 else 1 + CountHashes(chars, from + 1)
  }

  /** The hashes of the raw string opened by an `r` at `at`, if it opens one: what comes before it
      is no identifier but a lone `b` or `c`. */
  function RawLiteralStart(alnum: Alphabet, chars: string, at: nat): Option<nat> {
    if !At(chars, at, 'r') then None
    else if at >= 1 && Ident(alnum, chars[at - 1]) &&
            (!(chars[at - 1] == 'b' || chars[at - 1] == 'c') || (at >= 2 && Ident(alnum, chars[at - 2]))) then None
    else
      var hashes := CountHashes(chars, at + 1);
      if At(chars, at + 1 + hashes, '"') then Some(hashes) else None
  }

  /** The first quote in `[from, bound)`. */
  function FindQuote(chars: string, from: nat, bound: nat): (r: Option<nat>)
    requires bound <= |chars|
    ensures r.Some? ==> from <= r.value < bound && chars[r.value] == '\'' && forall j :: from <= j < r.value ==> chars[j] != '\''
    ensures r.None? ==> forall j :: from <= j < bound ==> chars[j] != '\''
    decreases bound - from
  {
    if from >= bound then None
    else if chars[from] == '\'' then Some(from)
    else FindQuote(chars, from + 1, bound)
  }

  /** The closing quote of a char literal starting at `at`; none for a lifetime or a label. */
  function CharLiteralEnd(chars: string, at: nat): (r: Option<nat>)
    ensures r.Some? ==> at + 2 <= r.value < |chars|
  {
    if at + 1 >= |chars| then None
    else if chars[at + 1] == '\\' then FindQuote(chars, at + 3, if at + 14 < |chars| then at + 14 else |chars|)
    else if chars[at + 1] != '\'' && At(chars, at + 2, '\'') then Some(at + 2)
    else None
  }

  function StepAt(alnum: Alphabet, chars: string, i: nat, mode: Mode): (s: Step)
    requires i < |chars|
    ensures s.Take? ==> s.width >= 1
    ensures s.Quoted? ==> i + 2 <= s.close < |chars|
  {
    var c := chars[i];
    match mode
    case Block(depth) =>
      if c == '*' && At(chars, i + 1, '/') then Take(2, Comment, if depth <= 1 then Code else Block(depth - 1))
      else if c == '/' && At(chars, i + 1, '*') then Take(2, Comment, Block(depth + 1))
      else Take(1, Comment, mode)
    case Raw(hashes) =>
      if c == '"' && CountHashes(chars, i + 1) >= hashes then Take(1 + hashes, Structure, Code)
      else Take(1, Literal, mode)
    case Str =>
      if c == '\\' then Take(if i + 1 < |chars| then 2 else 1, Literal, Str)
      else if c == '"' then Take(1, Structure, Code)
      else Take(1, Literal, Str)
    case Code =>
      if c == '/' && At(chars, i + 1, '*') then Take(2, Comment, Block(1))
      else if c == '/' && At(chars, i + 1, '/') then Stop
      else
        match RawLiteralStart(alnum, chars, i)
        case Some(hashes) => Take(2 + hashes, Structure, Raw(hashes))
        case None =>
          if c == '"' then Take(1, Structure, Str)
          else if c == '\'' && CharLiteralEnd(chars, i).Some? then Quoted(CharLiteralEnd(chars, i).value)
          else Take(1, Structure, Code)
  }

  function Least(a: nat, b: nat): nat {
    if a < b then a else b
  }

  function Run(kind: Class, n: nat): (r: seq<Class>)
    ensures |r| == n
    ensures forall k :: 0 <= k < n ==> r[k] == kind
  {
    seq(n, _ => kind)
  }

  /** The rest of a line, from `i`. */
  function MarkFrom(alnum: Alphabet, chars: string, i: nat, mode: Mode): (r: Marked)
    requires i <= |chars|
    ensures i + |r.kinds| <= |chars|
    decreases |chars| - i
  {
    if i == |chars| then Marked([], mode)
    else
      match StepAt(alnum, chars, i, mode)
      case Stop => Marked([], mode)
      case Take(width, kind, next) =>
        var end := Least(i + width, |chars|);
        var rest := MarkFrom(alnum, chars, end, next);
        Marked(Run(kind, end - i) + rest.kinds, rest.mode)
      case Quoted(close) =>
        var rest := MarkFrom(alnum, chars, close + 1, Code);
        Marked([Structure] + Run(Literal, close - i - 1) + [Structure] + rest.kinds, rest.mode)
  }

  function Mark(alnum: Alphabet, line: string, mode: Mode): (r: Marked)
    ensures |r.kinds| <= |line|
  {
    MarkFrom(alnum, line, 0, mode)
  }

  /** Each line's code and skeleton, the mode carried from line to line. */
  function LexAll(alnum: Alphabet, lines: seq<string>, mode: Mode): seq<(string, string)>
    decreases |lines|
  {
    if lines == [] then []
    else
      var l := Mark(alnum, lines[0], mode);
      [(CodeOf(lines[0], l.kinds), SkelOf(lines[0], l.kinds))] + LexAll(alnum, lines[1..], l.mode)
  }

  function ModeAfter(alnum: Alphabet, lines: seq<string>, mode: Mode): Mode
    decreases |lines|
  {
    if lines == [] then mode else ModeAfter(alnum, lines[1..], Mark(alnum, lines[0], mode).mode)
  }

  lemma {:induction false} ModeJoins(alnum: Alphabet, a: seq<string>, b: seq<string>, mode: Mode)
    ensures ModeAfter(alnum, a + b, mode) == ModeAfter(alnum, b, ModeAfter(alnum, a, mode))
    decreases |a|
  {
    if a == [] {
      Cuts.Nothing(b);
    } else {
      Cuts.TailOfJoin(a, b);
      ModeJoins(alnum, a[1..], b, Mark(alnum, a[0], mode).mode);
    }
  }

  lemma {:induction false} LexAllJoins(alnum: Alphabet, a: seq<string>, b: seq<string>, mode: Mode)
    ensures LexAll(alnum, a + b, mode) == LexAll(alnum, a, mode) + LexAll(alnum, b, ModeAfter(alnum, a, mode))
    ensures ModeAfter(alnum, a + b, mode) == ModeAfter(alnum, b, ModeAfter(alnum, a, mode))
    decreases |a|
  {
    ModeJoins(alnum, a, b, mode);
    if a == [] {
      Cuts.Nothing(b);
      Cuts.Nothing(LexAll(alnum, b, mode));
    } else {
      var l := Mark(alnum, a[0], mode);
      Cuts.TailOfJoin(a, b);
      LexAllJoins(alnum, a[1..], b, l.mode);
      Cuts.JoinAssociates([(CodeOf(a[0], l.kinds), SkelOf(a[0], l.kinds))], LexAll(alnum, a[1..], l.mode),
                          LexAll(alnum, b, ModeAfter(alnum, a, mode)));
    }
  }

  // ------------------------------------------------------------ what is cut off

  /** The lexer, from `i`, meets a line comment: one that no literal and no block holds. */
  ghost predicate MeetsLineComment(alnum: Alphabet, chars: string, i: nat, mode: Mode)
    requires i <= |chars|
    decreases |chars| - i
  {
    i < |chars| &&
    match StepAt(alnum, chars, i, mode)
    case Stop => true
    case Take(width, _, next) => MeetsLineComment(alnum, chars, Least(i + width, |chars|), next)
    case Quoted(close) => MeetsLineComment(alnum, chars, close + 1, Code)
  }

  lemma StopsAtComment(alnum: Alphabet, chars: string, i: nat, mode: Mode)
    requires i < |chars| && StepAt(alnum, chars, i, mode).Stop?
    ensures mode == Code && At(chars, i, '/') && At(chars, i + 1, '/')
  {
  }

  /** What is marked ends with the line, or where a line comment begins. */
  ghost predicate CutRight(chars: string, from: nat, m: Marked, meets: bool) {
    var n := from + |m.kinds|;
    && (n == |chars| <==> !meets)
    && (meets ==> n < |chars| && At(chars, n, '/') && At(chars, n + 1, '/') && m.mode == Code)
  }

  lemma CutHere(alnum: Alphabet, chars: string, i: nat, mode: Mode)
    requires i < |chars| && StepAt(alnum, chars, i, mode).Stop?
    ensures CutRight(chars, i, MarkFrom(alnum, chars, i, mode), MeetsLineComment(alnum, chars, i, mode))
  {
    StopsAtComment(alnum, chars, i, mode);
  }

  lemma CutAtEnd(alnum: Alphabet, chars: string, mode: Mode)
    ensures CutRight(chars, |chars|, MarkFrom(alnum, chars, |chars|, mode), MeetsLineComment(alnum, chars, |chars|, mode))
  {
  }

  lemma CutAfterTake(alnum: Alphabet, chars: string, i: nat, mode: Mode)
    requires i < |chars| && StepAt(alnum, chars, i, mode).Take?
    requires var Take(width, _, next) := StepAt(alnum, chars, i, mode);
             var end := Least(i + width, |chars|);
             CutRight(chars, end, MarkFrom(alnum, chars, end, next), MeetsLineComment(alnum, chars, end, next))
    ensures CutRight(chars, i, MarkFrom(alnum, chars, i, mode), MeetsLineComment(alnum, chars, i, mode))
  {
  }

  lemma CutAfterQuoted(alnum: Alphabet, chars: string, i: nat, mode: Mode)
    requires i < |chars| && StepAt(alnum, chars, i, mode).Quoted?
    requires var end := StepAt(alnum, chars, i, mode).close + 1;
             CutRight(chars, end, MarkFrom(alnum, chars, end, Code), MeetsLineComment(alnum, chars, end, Code))
    ensures CutRight(chars, i, MarkFrom(alnum, chars, i, mode), MeetsLineComment(alnum, chars, i, mode))
  {
  }

  lemma {:induction false} CutFrom(alnum: Alphabet, chars: string, i: nat, mode: Mode)
    requires i <= |chars|
    ensures CutRight(chars, i, MarkFrom(alnum, chars, i, mode), MeetsLineComment(alnum, chars, i, mode))
    decreases |chars| - i
  {
    if i == |chars| {
      CutAtEnd(alnum, chars, mode);
      return;
    }
    match StepAt(alnum, chars, i, mode)
    case Stop =>
      CutHere(alnum, chars, i, mode);
    case Take(width, _, next) =>
      CutFrom(alnum, chars, Least(i + width, |chars|), next);
      CutAfterTake(alnum, chars, i, mode);
    case Quoted(close) =>
      CutFrom(alnum, chars, close + 1, Code);
      CutAfterQuoted(alnum, chars, i, mode);
  }

  /** A line's code is as long as the line exactly when the lexer meets no line comment in it;
      else it ends where the comment begins, and code goes on in the next line. */
  lemma CodeIsCutWhen(alnum: Alphabet, line: string, mode: Mode)
    ensures var m := Mark(alnum, line, mode);
            var n := |CodeOf(line, m.kinds)|;
            && (n == |line| <==> !MeetsLineComment(alnum, line, 0, mode))
            && (n < |line| ==> At(line, n, '/') && At(line, n + 1, '/') && m.mode == Code)
  {
    CutFrom(alnum, line, 0, mode);
  }

  /** So a line that is all comment has no code at all, not as much white space. */
  lemma CommentIsCut(alnum: Alphabet, line: string)
    requires At(line, 0, '/') && At(line, 1, '/')
    ensures MeetsLineComment(alnum, line, 0, Code) && CodeOf(line, Mark(alnum, line, Code).kinds) == ""
  {
  }

  // ------------------------------------------------------------- the loops

  /** The output so far is the line as its classes show it, up to `i`. */
  ghost predicate Shows(code: string, skel: string, line: string, kinds: seq<Class>, i: nat) {
    && i <= |kinds| <= |line| && |code| == |skel| == i
    && forall k :: 0 <= k < i ==> code[k] == CodeChar(line[k], kinds[k]) && skel[k] == SkelChar(line[k], kinds[k])
  }

  ghost predicate AllOf(kinds: seq<Class>, from: nat, to: nat, kind: Class) {
    from <= to <= |kinds| && forall k :: from <= k < to ==> kinds[k] == kind
  }

  /** Emit `line[i..end]`, all of one class. */
  method Emit(line: string, ghost kinds: seq<Class>, i: nat, end: nat, kind: Class, code0: string, skel0: string)
    returns (code: string, skel: string)
    requires Shows(code0, skel0, line, kinds, i) && AllOf(kinds, i, end, kind)
    ensures Shows(code, skel, line, kinds, end)
  {
    code, skel := code0, skel0;
    for k := i to end
      invariant Shows(code, skel, line, kinds, k)
    {
      code := code + [if kind == Comment then ' ' else line[k]];
      skel := skel + [if kind == Structure then line[k] else ' '];
    }
  }

  /** What one step says of the classes from here on. */
  ghost predicate StepOf(alnum: Alphabet, line: string, i: nat, step: Step, kinds: seq<Class>, last: Mode) {
    match step
    case Stop => |kinds| == i
    case Take(width, kind, next) =>
      var end := Least(i + width, |line|);
      && AllOf(kinds, i, end, kind)
      && ToCome(alnum, line, end, next, kinds, last)
    case Quoted(close) =>
      && i < close < |line|
      && AllOf(kinds, i, i + 1, Structure) && AllOf(kinds, i + 1, close, Literal) && AllOf(kinds, close, close + 1, Structure)
      && ToCome(alnum, line, close + 1, Code, kinds, last)
  }

  /** From `i`, in `mode`, the line's classes are the rest of `kinds`, ending in `last`. */
  ghost predicate ToCome(alnum: Alphabet, line: string, i: nat, mode: Mode, kinds: seq<Class>, last: Mode) {
    && i <= |line| && i <= |kinds|
    && kinds[i..] == MarkFrom(alnum, line, i, mode).kinds && last == MarkFrom(alnum, line, i, mode).mode
  }

  lemma TakeMarks(alnum: Alphabet, line: string, i: nat, mode: Mode, kinds: seq<Class>, last: Mode)
    requires i < |line| && ToCome(alnum, line, i, mode, kinds, last) && StepAt(alnum, line, i, mode).Take?
    ensures StepOf(alnum, line, i, StepAt(alnum, line, i, mode), kinds, last)
  {
    var Take(width, kind, next) := StepAt(alnum, line, i, mode);
    var end := Least(i + width, |line|);
    Cuts.FrontOfRest(kinds, i, Run(kind, end - i), MarkFrom(alnum, line, end, next).kinds);
  }

  lemma QuotedMarks(alnum: Alphabet, line: string, i: nat, mode: Mode, kinds: seq<Class>, last: Mode)
    requires i < |line| && ToCome(alnum, line, i, mode, kinds, last) && StepAt(alnum, line, i, mode).Quoted?
    ensures StepOf(alnum, line, i, StepAt(alnum, line, i, mode), kinds, last)
  {
    var close := StepAt(alnum, line, i, mode).close;
    Cuts.FrontOfRest(kinds, i, [Structure] + Run(Literal, close - i - 1) + [Structure], MarkFrom(alnum, line, close + 1, Code).kinds);
  }

  /** What the next step says of the line is what the line is. */
  lemma StepMarks(alnum: Alphabet, line: string, i: nat, mode: Mode, kinds: seq<Class>, last: Mode)
    requires i < |line| && ToCome(alnum, line, i, mode, kinds, last)
    ensures StepOf(alnum, line, i, StepAt(alnum, line, i, mode), kinds, last)
    ensures StepAt(alnum, line, i, mode).Stop? ==> last == mode
  {
    match StepAt(alnum, line, i, mode)
    case Stop =>
    case Take(_, _, _) => TakeMarks(alnum, line, i, mode, kinds, last);
    case Quoted(_) => QuotedMarks(alnum, line, i, mode, kinds, last);
  }

  lemma ShowsAll(code: string, skel: string, line: string, kinds: seq<Class>)
    requires Shows(code, skel, line, kinds, |kinds|)
    ensures code == CodeOf(line, kinds) && skel == SkelOf(line, kinds)
  {}

  /** Emit what a step takes; a char literal's quotes are structure, its body a literal. */
  method EmitStep(alnum: Alphabet, line: string, ghost kinds: seq<Class>, ghost last: Mode, i: nat, step: Step, code0: string, skel0: string)
    returns (code: string, skel: string, end: nat, mode: Mode)
    requires i < |line| && StepOf(alnum, line, i, step, kinds, last) && Shows(code0, skel0, line, kinds, i)
    requires !step.Stop? && (step.Take? ==> step.width >= 1)
    ensures i < end <= |line| && Shows(code, skel, line, kinds, end)
    ensures ToCome(alnum, line, end, mode, kinds, last)
  {
    if step.Take? {
      end, mode := Least(i + step.width, |line|), step.mode;
      code, skel := Emit(line, kinds, i, end, step.kind, code0, skel0);
    } else {
      code, skel := Emit(line, kinds, i, i + 1, Structure, code0, skel0);
      code, skel := Emit(line, kinds, i + 1, step.close, Literal, code, skel);
      code, skel := Emit(line, kinds, step.close, step.close + 1, Structure, code, skel);
      end, mode := step.close + 1, Code;
    }
  }

  method LexLine(alnum: Alphabet, chars: string, start: Mode) returns (code: string, skel: string, mode: Mode)
    ensures var m := Mark(alnum, chars, start);
            code == CodeOf(chars, m.kinds) && skel == SkelOf(chars, m.kinds) && mode == m.mode
  {
    code, skel, mode := "", "", start;
    ghost var kinds, last := Mark(alnum, chars, start).kinds, Mark(alnum, chars, start).mode;
    var i := 0;
    while i < |chars|
      invariant Shows(code, skel, chars, kinds, i)
      invariant ToCome(alnum, chars, i, mode, kinds, last)
      decreases |chars| - i
    {
      var step := StepAt(alnum, chars, i, mode);
      StepMarks(alnum, chars, i, mode, kinds, last);
      if step.Stop? {
        break;
      }
      code, skel, i, mode := EmitStep(alnum, chars, kinds, last, i, step, code, skel);
    }
    ShowsAll(code, skel, chars, kinds);
  }

  /** Lexes the lines one after the other. */
  method LexLines(alnum: Alphabet, lines: seq<string>) returns (out: seq<(string, string)>)
    ensures out == LexAll(alnum, lines, Code)
  {
    out := [];
    var mode := Code;
    for n := 0 to |lines|
      invariant out == LexAll(alnum, lines[..n], Code)
      invariant mode == ModeAfter(alnum, lines[..n], Code)
    {
      var code, skel, next := LexLine(alnum, lines[n], mode);
      assert lines[..n + 1] == lines[..n] + [lines[n]];
      LexAllJoins(alnum, lines[..n], [lines[n]], Code);
      out := out + [(code, skel)];
      mode := next;
    }
    assert lines[..|lines|] == lines;
  }
}
