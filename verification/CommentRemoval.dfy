/** Removing comments is a fixpoint: lexing a text's code lines gives the same code
    and the same skeleton as lexing the text. */
module CommentRemoval {
  import opened Lexical
  import Cuts

  /** Letters and digits, as the lexer is given them, are not spaces, slashes or stars. */
  ghost predicate Sane(alnum: Alphabet) {
    !alnum(' ') && !alnum('/') && !alnum('*')
  }

  /** A mode with comments gone. */
  function Without(m: Mode): Mode {
    if m.Block? then Code else m
  }

  function Erased(kinds: seq<Class>): (r: seq<Class>)
    ensures |r| == |kinds|
  {
    seq(|kinds|, k requires 0 <= k < |kinds| => if kinds[k] == Comment then Structure else kinds[k])
  }

  // ------------------------------------------------------------ looking ahead

  /** `c` is `l` but for blanks, and may end sooner. */
  ghost predicate Copy(l: string, c: string) {
    |c| <= |l| && forall j :: 0 <= j < |c| ==> c[j] == l[j] || c[j] == ' '
  }

  ghost predicate Verbatim(l: string, c: string, from: nat, to: nat) {
    from <= to <= |c| && to <= |l| && forall j :: from <= j < to ==> c[j] == l[j]
  }

  lemma {:induction false} HashesAre(chars: string, from: nat)
    ensures var n := CountHashes(chars, from);
            (forall k :: from <= k < from + n ==> At(chars, k, '#')) && !At(chars, from + n, '#')
    decreases |chars| - from
  {
    if from < |chars| && chars[from] == '#' {
      HashesAre(chars, from + 1);
    }
  }

  lemma {:induction false} HashesAtLeast(chars: string, from: nat, n: nat)
    requires forall k :: from <= k < from + n ==> At(chars, k, '#')
    ensures CountHashes(chars, from) >= n
    ensures !At(chars, from + n, '#') ==> CountHashes(chars, from) == n
    decreases n
  {
    if n > 0 {
      assert At(chars, from, '#');
      HashesAtLeast(chars, from + 1, n - 1);
    }
  }

  lemma FewerHashes(l: string, c: string, from: nat)
    requires Copy(l, c)
    ensures CountHashes(c, from) <= CountHashes(l, from)
  {
    HashesAre(c, from);
    forall k | from <= k < from + CountHashes(c, from)
      ensures At(l, k, '#')
    {
      assert At(c, k, '#');
    }
    HashesAtLeast(l, from, CountHashes(c, from));
  }

  /** The same in both, as far as telling identifiers goes: the end of a comment is blanked. */
  ghost predicate Alike(x: char, y: char) {
    x == y || (y == ' ' && (x == '*' || x == '/'))
  }

  ghost predicate Behind(l: string, c: string, i: nat)
    requires i <= |l| && i <= |c|
  {
    (i >= 1 ==> Alike(l[i - 1], c[i - 1])) && (i >= 2 ==> Alike(l[i - 2], c[i - 2]))
  }

  lemma RawStartKept(alnum: Alphabet, l: string, c: string, i: nat)
    requires Sane(alnum) && Copy(l, c) && i < |c| && c[i] == l[i] && Behind(l, c, i)
    requires RawLiteralStart(alnum, l, i).Some? ==> Verbatim(l, c, i, i + 2 + RawLiteralStart(alnum, l, i).value)
    ensures RawLiteralStart(alnum, c, i) == RawLiteralStart(alnum, l, i)
  {
    if RawLiteralStart(alnum, l, i).Some? {
      var h := RawLiteralStart(alnum, l, i).value;
      HashesAre(l, i + 1);
      forall k | i + 1 <= k < i + 1 + h
        ensures At(c, k, '#')
      {
        assert At(l, k, '#');
      }
      HashesAtLeast(c, i + 1, h);
    } else if RawLiteralStart(alnum, c, i).Some? {
      var h := RawLiteralStart(alnum, c, i).value;
      HashesAre(c, i + 1);
      forall k | i + 1 <= k < i + 1 + h
        ensures At(l, k, '#')
      {
        assert At(c, k, '#');
      }
      HashesAtLeast(l, i + 1, h);
    }
  }

  lemma CharEndKept(l: string, c: string, i: nat)
    requires Copy(l, c) && i < |c| && c[i] == l[i]
    requires CharLiteralEnd(l, i).Some? ==> Verbatim(l, c, i, CharLiteralEnd(l, i).value + 1)
    requires i + 1 < |c| && c[i + 1] != l[i + 1] ==> l[i + 1] == '/' && At(l, i + 2, '*')
    ensures CharLiteralEnd(c, i) == CharLiteralEnd(l, i)
  {
    if CharLiteralEnd(l, i).Some? {
      var close := CharLiteralEnd(l, i).value;
      assert c[i + 1] == l[i + 1] && c[close] == l[close];
    } else if i + 1 < |c| {
      assert i + 2 < |c| && c[i + 2] == '\'' ==> l[i + 2] == '\'';
    }
  }

  lemma BlankIsCode(alnum: Alphabet, c: string, i: nat)
    requires i < |c| && c[i] == ' '
    ensures MarkFrom(alnum, c, i, Code) ==
            Marked([Structure] + MarkFrom(alnum, c, i + 1, Code).kinds, MarkFrom(alnum, c, i + 1, Code).mode)
  {
    assert StepAt(alnum, c, i, Code) == Take(1, Structure, Code);
    RunOfOne(Structure);
  }

  // --------------------------------------------------------- one step, kept

  /** A line being lexed at `i`, and its code. */
  ghost predicate Lexing(alnum: Alphabet, l: string, i: nat, m: Mode, kinds: seq<Class>, last: Mode, c: string) {
    && Sane(alnum) && ToCome(alnum, l, i, m, kinds, last)
    && |kinds| <= |l| && c == CodeOf(l, kinds)
  }

  lemma CodeIsCopy(l: string, kinds: seq<Class>)
    requires |kinds| <= |l|
    ensures Copy(l, CodeOf(l, kinds))
  {}

  lemma TakenIsVerbatim(l: string, kinds: seq<Class>, from: nat, to: nat, kind: Class)
    requires |kinds| <= |l| && AllOf(kinds, from, to, kind) && kind != Comment
    ensures Verbatim(l, CodeOf(l, kinds), from, to)
  {}

  /** In code, only the start of a block comment is blanked. */
  lemma FirstComment(alnum: Alphabet, l: string, i: nat, kinds: seq<Class>, last: Mode)
    requires ToCome(alnum, l, i, Code, kinds, last)
    requires i < |kinds| && kinds[i] == Comment
    ensures i < |l| && l[i] == '/' && At(l, i + 1, '*')
  {
    assert kinds[i..][0] == Comment;
  }

  lemma StepKeptInRaw(alnum: Alphabet, l: string, i: nat, m: Mode, kinds: seq<Class>, last: Mode, c: string)
    requires Lexing(alnum, l, i, m, kinds, last, c) && i < |l| && m.Raw?
    ensures i < |c| && StepAt(alnum, c, i, m) == StepAt(alnum, l, i, m)
  {
    var step := StepAt(alnum, l, i, m);
    StepMarks(alnum, l, i, m, kinds, last);
    CodeIsCopy(l, kinds);
    TakenIsVerbatim(l, kinds, i, Least(i + step.width, |l|), step.kind);
    FewerHashes(l, c, i + 1);
    if step.mode.Code? {
      HashesAre(l, i + 1);
      forall k | i + 1 <= k < i + 1 + m.hashes
        ensures At(c, k, '#')
      {
        assert At(l, k, '#');
      }
      HashesAtLeast(c, i + 1, m.hashes);
    }
  }

  lemma StepKeptInStr(alnum: Alphabet, l: string, i: nat, kinds: seq<Class>, last: Mode, c: string)
    requires Lexing(alnum, l, i, Str, kinds, last, c) && i < |l|
    ensures i < |c| && StepAt(alnum, c, i, Str) == StepAt(alnum, l, i, Str)
  {
    var step := StepAt(alnum, l, i, Str);
    StepMarks(alnum, l, i, Str, kinds, last);
    TakenIsVerbatim(l, kinds, i, Least(i + step.width, |l|), step.kind);
  }

  function StepEnd(l: string, i: nat, step: Step): nat {
    match step
    case Stop => i
    case Take(width, _, _) => Least(i + width, |l|)
    case Quoted(close) => close + 1
  }

  lemma StepIsVerbatim(alnum: Alphabet, l: string, i: nat, m: Mode, kinds: seq<Class>, last: Mode, c: string)
    requires Lexing(alnum, l, i, m, kinds, last, c) && i < |l|
    requires var step := StepAt(alnum, l, i, m); !step.Stop? && (step.Take? ==> step.kind != Comment)
    ensures i < StepEnd(l, i, StepAt(alnum, l, i, m))
    ensures Verbatim(l, c, i, StepEnd(l, i, StepAt(alnum, l, i, m)))
  {
    var step := StepAt(alnum, l, i, m);
    StepMarks(alnum, l, i, m, kinds, last);
    if step.Take? {
      TakenIsVerbatim(l, kinds, i, Least(i + step.width, |l|), step.kind);
    } else {
      TakenIsVerbatim(l, kinds, i, i + 1, Structure);
      TakenIsVerbatim(l, kinds, i + 1, step.close, Literal);
      TakenIsVerbatim(l, kinds, step.close, step.close + 1, Structure);
    }
  }

  /** Equal answers to what the code mode asks give equal steps. */
  lemma SameAnswers(alnum: Alphabet, l: string, c: string, i: nat)
    requires Copy(l, c) && i < |c| && c[i] == l[i]
    requires !(l[i] == '/' && (At(l, i + 1, '*') || At(l, i + 1, '/')))
    requires RawLiteralStart(alnum, c, i) == RawLiteralStart(alnum, l, i)
    requires RawLiteralStart(alnum, l, i).None? && l[i] == '\'' ==> CharLiteralEnd(c, i) == CharLiteralEnd(l, i)
    ensures StepAt(alnum, c, i, Code) == StepAt(alnum, l, i, Code)
  {}

  lemma StepKeptInCode(alnum: Alphabet, l: string, i: nat, kinds: seq<Class>, last: Mode, c: string)
    requires Lexing(alnum, l, i, Code, kinds, last, c) && i < |l|
    requires i <= |c| && Behind(l, c, i)
    requires !(l[i] == '/' && (At(l, i + 1, '*') || At(l, i + 1, '/')))
    ensures i < |c| && StepAt(alnum, c, i, Code) == StepAt(alnum, l, i, Code)
  {
    StepIsVerbatim(alnum, l, i, Code, kinds, last, c);
    CodeIsCopy(l, kinds);
    RawStartKept(alnum, l, c, i);
    if RawLiteralStart(alnum, l, i).None? && l[i] == '\'' {
      CharEndKeptInCode(alnum, l, i, kinds, last, c);
    }
    SameAnswers(alnum, l, c, i);
  }

  lemma CharEndKeptInCode(alnum: Alphabet, l: string, i: nat, kinds: seq<Class>, last: Mode, c: string)
    requires Lexing(alnum, l, i, Code, kinds, last, c) && i < |l| && l[i] == '\''
    requires Copy(l, c) && i < |c|
    requires Verbatim(l, c, i, StepEnd(l, i, StepAt(alnum, l, i, Code)))
    ensures CharLiteralEnd(c, i) == CharLiteralEnd(l, i)
  {
    StepMarks(alnum, l, i, Code, kinds, last);
    if CharLiteralEnd(l, i).None? && i + 1 < |c| && c[i + 1] != l[i + 1] {
      FirstComment(alnum, l, i + 1, kinds, last);
    }
    assert c[i] == l[i];
    CharEndKept(l, c, i);
  }

  // ------------------------------------------------------- the whole line, kept

  function ErasedKind(kind: Class): Class {
    if kind == Comment then Structure else kind
  }

  lemma ErasedFront(kinds: seq<Class>, from: nat, to: nat, kind: Class)
    requires AllOf(kinds, from, to, kind)
    ensures Erased(kinds)[from..] == Run(ErasedKind(kind), to - from) + Erased(kinds)[to..]
  {}

  lemma BlanksAreCode(alnum: Alphabet, l: string, kinds: seq<Class>, c: string, i: nat, end: nat)
    requires |kinds| <= |l| && c == CodeOf(l, kinds) && AllOf(kinds, i, end, Comment)
    ensures MarkFrom(alnum, c, i, Code) ==
            Marked(Run(Structure, end - i) + MarkFrom(alnum, c, end, Code).kinds, MarkFrom(alnum, c, end, Code).mode)
    decreases end - i
  {
    var rest := MarkFrom(alnum, c, end, Code);
    if i == end {
      Cuts.Nothing(rest.kinds);
    } else {
      BlankIsCode(alnum, c, i);
      BlanksAreCode(alnum, l, kinds, c, i + 1, end);
      Cuts.JoinAssociates([Structure], Run(Structure, end - i - 1), rest.kinds);
      assert [Structure] + Run(Structure, end - i - 1) == Run(Structure, end - i);
    }
  }

  /** The same steps are taken at the same places, in the mode without comments. */
  ghost predicate Kept(alnum: Alphabet, i: nat, m: Mode, kinds: seq<Class>, last: Mode, c: string) {
    && i <= |kinds| == |c|
    && MarkFrom(alnum, c, i, Without(m)) == Marked(Erased(kinds)[i..], Without(last))
  }

  lemma KeptOverComment(alnum: Alphabet, l: string, i: nat, m: Mode, end: nat, next: Mode, kinds: seq<Class>, last: Mode, c: string)
    requires |kinds| <= |l| && c == CodeOf(l, kinds) && AllOf(kinds, i, end, Comment)
    requires Without(m) == Without(next) == Code
    requires Kept(alnum, end, next, kinds, last, c)
    ensures Kept(alnum, i, m, kinds, last, c)
  {
    BlanksAreCode(alnum, l, kinds, c, i, end);
    ErasedFront(kinds, i, end, Comment);
  }

  lemma KeptOverTake(alnum: Alphabet, l: string, i: nat, m: Mode, kinds: seq<Class>, last: Mode, c: string)
    requires i < |c| && |c| == |kinds| <= |l| && !m.Block?
    requires StepAt(alnum, c, i, m) == StepAt(alnum, l, i, m) && StepAt(alnum, l, i, m).Take?
    requires StepOf(alnum, l, i, StepAt(alnum, l, i, m), kinds, last)
    requires StepAt(alnum, l, i, m).kind != Comment && !StepAt(alnum, l, i, m).mode.Block?
    requires Kept(alnum, StepEnd(l, i, StepAt(alnum, l, i, m)), StepAt(alnum, l, i, m).mode, kinds, last, c)
    ensures Kept(alnum, i, m, kinds, last, c)
  {
    var step := StepAt(alnum, l, i, m);
    var end := StepEnd(l, i, step);
    ErasedFront(kinds, i, end, step.kind);
    assert end == Least(i + step.width, |c|);
  }

  lemma KeptOverQuoted(alnum: Alphabet, l: string, i: nat, kinds: seq<Class>, last: Mode, c: string)
    requires i < |c| && |c| == |kinds| <= |l|
    requires StepAt(alnum, c, i, Code) == StepAt(alnum, l, i, Code) && StepAt(alnum, l, i, Code).Quoted?
    requires StepOf(alnum, l, i, StepAt(alnum, l, i, Code), kinds, last)
    requires Kept(alnum, StepEnd(l, i, StepAt(alnum, l, i, Code)), Code, kinds, last, c)
    ensures Kept(alnum, i, Code, kinds, last, c)
  {
    ErasedQuoted(kinds, i, StepAt(alnum, l, i, Code).close);
  }

  lemma ErasedQuoted(kinds: seq<Class>, i: nat, close: nat)
    requires i < close
    requires AllOf(kinds, i, i + 1, Structure) && AllOf(kinds, i + 1, close, Literal) && AllOf(kinds, close, close + 1, Structure)
    ensures Erased(kinds)[i..] == [Structure] + Run(Literal, close - i - 1) + [Structure] + Erased(kinds)[close + 1..]
  {
    ErasedFront(kinds, i, i + 1, Structure);
    ErasedFront(kinds, i + 1, close, Literal);
    ErasedFront(kinds, close, close + 1, Structure);
    RunOfOne(Structure);
    Cuts.FourJoined([Structure], Run(Literal, close - i - 1), [Structure], Erased(kinds)[close + 1..]);
  }

  lemma RunOfOne(kind: Class)
    ensures Run(kind, 1) == [kind]
  {}

  lemma BehindStep(l: string, c: string, i: nat, end: nat)
    requires i < end && Verbatim(l, c, i, end) && Behind(l, c, i)
    ensures Behind(l, c, end)
  {}

  lemma CommentStep(alnum: Alphabet, l: string, i: nat, m: Mode)
    requires i < |l| && (m.Block? || (m.Code? && l[i] == '/' && At(l, i + 1, '*')))
    ensures var step := StepAt(alnum, l, i, m);
            && step.Take? && step.kind == Comment && Least(i + step.width, |l|) == i + step.width && step.width >= 1
            && Without(step.mode) == Code
            && (!step.mode.Block? ==> step.width == 2 && l[i] == '*' && l[i + 1] == '/')
  {}

  /** Lexing a line's code takes the line's own steps, its comments read as spaces. */
  lemma {:induction false} LineKept(alnum: Alphabet, l: string, i: nat, m: Mode, kinds: seq<Class>, last: Mode, c: string)
    requires Lexing(alnum, l, i, m, kinds, last, c) && (!m.Block? ==> Behind(l, c, i))
    ensures Kept(alnum, i, m, kinds, last, c)
    decreases |l| - i, 1
  {
    if i == |l| || StepAt(alnum, l, i, m).Stop? {
      assert kinds[i..] == [] && Erased(kinds)[i..] == [];
    } else if m.Block? || (m.Code? && l[i] == '/' && At(l, i + 1, '*')) {
      LineKeptOverComment(alnum, l, i, m, kinds, last, c);
    } else {
      LineKeptOverCode(alnum, l, i, m, kinds, last, c);
    }
  }

  lemma {:induction false} LineKeptOverComment(alnum: Alphabet, l: string, i: nat, m: Mode, kinds: seq<Class>, last: Mode, c: string)
    requires Lexing(alnum, l, i, m, kinds, last, c) && i < |l|
    requires m.Block? || (m.Code? && l[i] == '/' && At(l, i + 1, '*'))
    ensures Kept(alnum, i, m, kinds, last, c)
    decreases |l| - i, 0
  {
    var step := StepAt(alnum, l, i, m);
    StepMarks(alnum, l, i, m, kinds, last);
    CommentStep(alnum, l, i, m);
    LineKept(alnum, l, i + step.width, step.mode, kinds, last, c);
    KeptOverComment(alnum, l, i, m, i + step.width, step.mode, kinds, last, c);
  }

  lemma {:induction false} LineKeptOverCode(alnum: Alphabet, l: string, i: nat, m: Mode, kinds: seq<Class>, last: Mode, c: string)
    requires Lexing(alnum, l, i, m, kinds, last, c) && i < |l| && Behind(l, c, i)
    requires !m.Block? && !(m.Code? && l[i] == '/' && At(l, i + 1, '*')) && !StepAt(alnum, l, i, m).Stop?
    ensures Kept(alnum, i, m, kinds, last, c)
    decreases |l| - i, 0
  {
    var step := StepAt(alnum, l, i, m);
    StepMarks(alnum, l, i, m, kinds, last);
    VerbatimStepKept(alnum, l, i, m, kinds, last, c);
    LineKept(alnum, l, StepEnd(l, i, step), if step.Take? then step.mode else Code, kinds, last, c);
    if step.Take? {
      KeptOverTake(alnum, l, i, m, kinds, last, c);
    } else {
      KeptOverQuoted(alnum, l, i, kinds, last, c);
    }
  }

  lemma VerbatimStepKept(alnum: Alphabet, l: string, i: nat, m: Mode, kinds: seq<Class>, last: Mode, c: string)
    requires Lexing(alnum, l, i, m, kinds, last, c) && i < |l| && Behind(l, c, i)
    requires !m.Block? && !(m.Code? && l[i] == '/' && At(l, i + 1, '*'))
    requires !StepAt(alnum, l, i, m).Stop?
    ensures var step := StepAt(alnum, l, i, m);
            && i < |c| && StepAt(alnum, c, i, m) == step
            && i < StepEnd(l, i, step) <= |c| && Behind(l, c, StepEnd(l, i, step))
            && (step.Take? ==> step.kind != Comment && !step.mode.Block?)
            && (step.Quoted? ==> m.Code?)
            && Lexing(alnum, l, StepEnd(l, i, step), if step.Take? then step.mode else Code, kinds, last, c)
  {
    VerbatimKind(alnum, l, i, m);
    StepIsVerbatim(alnum, l, i, m, kinds, last, c);
    BehindStep(l, c, i, StepEnd(l, i, StepAt(alnum, l, i, m)));
    StillLexing(alnum, l, i, m, kinds, last, c);
    SameStep(alnum, l, i, m, kinds, last, c);
  }

  lemma VerbatimKind(alnum: Alphabet, l: string, i: nat, m: Mode)
    requires i < |l| && !m.Block? && !(m.Code? && l[i] == '/' && At(l, i + 1, '*'))
    ensures var step := StepAt(alnum, l, i, m);
            (step.Take? ==> step.kind != Comment && !step.mode.Block?) && (step.Quoted? ==> m.Code?)
  {}

  lemma StillLexing(alnum: Alphabet, l: string, i: nat, m: Mode, kinds: seq<Class>, last: Mode, c: string)
    requires Lexing(alnum, l, i, m, kinds, last, c) && i < |l| && !StepAt(alnum, l, i, m).Stop?
    ensures var step := StepAt(alnum, l, i, m);
            Lexing(alnum, l, StepEnd(l, i, step), if step.Take? then step.mode else Code, kinds, last, c)
  {
    StepMarks(alnum, l, i, m, kinds, last);
  }

  lemma SameStep(alnum: Alphabet, l: string, i: nat, m: Mode, kinds: seq<Class>, last: Mode, c: string)
    requires Lexing(alnum, l, i, m, kinds, last, c) && i < |l| && i <= |c| && Behind(l, c, i)
    requires !m.Block? && !(m.Code? && l[i] == '/' && At(l, i + 1, '*')) && !StepAt(alnum, l, i, m).Stop?
    ensures i < |c| && StepAt(alnum, c, i, m) == StepAt(alnum, l, i, m)
  {
    match m
    case Raw(_) => StepKeptInRaw(alnum, l, i, m, kinds, last, c);
    case Str => StepKeptInStr(alnum, l, i, kinds, last, c);
    case Code => StepKeptInCode(alnum, l, i, kinds, last, c);
  }

  // ----------------------------------------------------------------- the text

  function CodeLines(pairs: seq<(string, string)>): seq<string> {
    seq(|pairs|, n requires 0 <= n < |pairs| => pairs[n].0)
  }

  lemma LineIsKept(alnum: Alphabet, line: string, mode: Mode)
    requires Sane(alnum)
    ensures var m := Mark(alnum, line, mode);
            Mark(alnum, CodeOf(line, m.kinds), Without(mode)) == Marked(Erased(m.kinds), Without(m.mode))
  {
    var m := Mark(alnum, line, mode);
    LineKept(alnum, line, 0, mode, m.kinds, m.mode, CodeOf(line, m.kinds));
  }

  lemma ErasedShowsTheSame(line: string, kinds: seq<Class>)
    requires |kinds| <= |line|
    ensures var c := CodeOf(line, kinds);
            CodeOf(c, Erased(kinds)) == c && SkelOf(c, Erased(kinds)) == SkelOf(line, kinds)
  {}

  /** Lexing the code lines of any text, from any mode, gives the same code lines and
      the same skeleton lines as lexing the text. */
  lemma {:induction false} RemovalIsAFixpoint(alnum: Alphabet, lines: seq<string>, mode: Mode)
    requires Sane(alnum)
    ensures LexAll(alnum, CodeLines(LexAll(alnum, lines, mode)), Without(mode)) == LexAll(alnum, lines, mode)
    decreases |lines|
  {
    if lines != [] {
      var m := Mark(alnum, lines[0], mode);
      var c := CodeOf(lines[0], m.kinds);
      LineIsKept(alnum, lines[0], mode);
      ErasedShowsTheSame(lines[0], m.kinds);
      RemovalIsAFixpoint(alnum, lines[1..], m.mode);
      var code := CodeLines(LexAll(alnum, lines, mode));
      assert code[1..] == CodeLines(LexAll(alnum, lines[1..], m.mode));
    }
  }

  // ------------------------------------------------------- the skeleton is code

  /** No slash kept as structure starts a comment. */
  ghost predicate NoOpener(line: string, kinds: seq<Class>, from: nat, to: nat)
    requires to <= |kinds| <= |line|
  {
    forall j :: from <= j < to && kinds[j] == Structure && line[j] == '/' ==> !At(line, j + 1, '*') && !At(line, j + 1, '/')
  }

  /** Structure taken after a step's first character is a raw literal's hashes and quote. */
  lemma TakenAfterFirst(alnum: Alphabet, l: string, i: nat, m: Mode, j: nat)
    requires i < j < |l| && StepAt(alnum, l, i, m).Take? && StepAt(alnum, l, i, m).kind == Structure
    requires j < StepEnd(l, i, StepAt(alnum, l, i, m))
    ensures l[j] == '#' || l[j] == '"'
  {
    HashesAre(l, i + 1);
    assert l[j] == '"' || At(l, j, '#');
  }

  /** What one step takes has no comment opener in its structure. */
  lemma StepHasNoOpener(alnum: Alphabet, l: string, i: nat, m: Mode, kinds: seq<Class>, last: Mode)
    requires i < |l| && |kinds| <= |l| && ToCome(alnum, l, i, m, kinds, last)
    ensures StepEnd(l, i, StepAt(alnum, l, i, m)) <= |kinds|
    ensures NoOpener(l, kinds, i, StepEnd(l, i, StepAt(alnum, l, i, m)))
  {
    var step := StepAt(alnum, l, i, m);
    StepMarks(alnum, l, i, m, kinds, last);
    forall j | i < j < StepEnd(l, i, step) && kinds[j] == Structure
      ensures l[j] != '/'
    {
      if step.Take? {
        TakenAfterFirst(alnum, l, i, m, j);
      } else {
        assert j == step.close && l[j] == '\'';
      }
    }
  }

  lemma {:induction false} LineHasNoOpener(alnum: Alphabet, l: string, i: nat, m: Mode, kinds: seq<Class>, last: Mode)
    requires |kinds| <= |l| && ToCome(alnum, l, i, m, kinds, last)
    ensures NoOpener(l, kinds, i, |kinds|)
    decreases |l| - i
  {
    if i < |l| {
      var step := StepAt(alnum, l, i, m);
      StepMarks(alnum, l, i, m, kinds, last);
      StepHasNoOpener(alnum, l, i, m, kinds, last);
      match step
      case Stop =>
      case Take(_, _, next) => LineHasNoOpener(alnum, l, StepEnd(l, i, step), next, kinds, last);
      case Quoted(_) => LineHasNoOpener(alnum, l, StepEnd(l, i, step), Code, kinds, last);
    }
  }

  /** A skeleton line never holds a comment opener, whatever the text says in its
      comments and literals. */
  lemma SkeletonHasNoComments(alnum: Alphabet, line: string, mode: Mode)
    ensures var skel := SkelOf(line, Mark(alnum, line, mode).kinds);
            forall j :: 0 <= j < |skel| - 1 ==> !(skel[j] == '/' && (skel[j + 1] == '*' || skel[j + 1] == '/'))
  {
    var m := Mark(alnum, line, mode);
    LineHasNoOpener(alnum, line, 0, mode, m.kinds, m.mode);
  }
}
