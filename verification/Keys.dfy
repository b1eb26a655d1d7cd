/** Dotted keys, and the numbers in them. */
module Keys {
  import opened Options
  import Words

  const USIZE_MAX := 0xFFFF_FFFF_FFFF_FFFF

  // ------------------------------------------------------------ dots

  predicate DotFree(s: string) {
    '.' !in s
  }

  /** The parts between the dots. */
  function Split(s: string): (parts: seq<string>)
    ensures parts != []
  {
    if s == "" then [""]
    else
      var rest := Split(s[1..]);
      if s[0] == '.' then [""] + rest else [[s[0]] + rest[0]] + rest[1..]
  }

  function Dotted(parts: seq<string>): (s: string)
    requires parts != []
  {
    if |parts| == 1 then parts[0] else parts[0] + "." + Dotted(parts[1..])
  }

  lemma {:induction false} SplitOfPart(p: string, s: string)
    requires DotFree(p)
    ensures Split(p + "." + s) == [p] + Split(s)
  {
    var t := p + "." + s;
    if p != "" {
      assert t[1..] == p[1..] + "." + s;
      SplitOfPart(p[1..], s);
      assert p == [p[0]] + p[1..];
    } else {
      assert t[1..] == s;
    }
  }

  lemma {:induction false} SplitOfWord(p: string)
    requires DotFree(p)
    ensures Split(p) == [p]
  {
    if p != "" {
      SplitOfWord(p[1..]);
      assert p == [p[0]] + p[1..];
    }
  }

  predicate AllDotFree(parts: seq<string>) {
    forall i :: 0 <= i < |parts| ==> DotFree(parts[i])
  }

  /** Splitting undoes joining. */
  lemma {:induction false} SplitDotted(parts: seq<string>)
    requires parts != [] && AllDotFree(parts)
    ensures Split(Dotted(parts)) == parts
  {
    if |parts| == 1 {
      SplitOfWord(parts[0]);
    } else {
      SplitDotted(parts[1..]);
      SplitOfPart(parts[0], Dotted(parts[1..]));
    }
  }

  /** Joining undoes splitting, and the parts of a split hold no dot. */
  lemma {:induction false} DottedSplit(s: string)
    ensures Dotted(Split(s)) == s && AllDotFree(Split(s))
  {
    if s != "" {
      DottedSplit(s[1..]);
      var rest, parts := Split(s[1..]), Split(s);
      assert s == [s[0]] + s[1..];
      if s[0] == '.' {
        assert parts[1..] == rest;
      } else if |rest| > 1 {
        assert parts[1..] == rest[1..];
      }
    }
  }

  lemma {:induction false} DottedMore(parts: seq<string>, last: string)
    requires parts != []
    ensures Dotted(parts + [last]) == Dotted(parts) + "." + last
  {
    if |parts| > 1 {
      DottedMore(parts[1..], last);
      assert (parts + [last])[1..] == parts[1..] + [last];
    } else {
      assert (parts + [last])[1..] == [last];
    }
  }

  // ------------------------------------------------------------ numbers

  predicate IsDigit(c: char) {
    '0' <= c <= '9'
  }

  predicate Digits(s: string) {
    forall i :: 0 <= i < |s| ==> IsDigit(s[i])
  }

  function DigitOf(c: char): (d: nat)
    requires IsDigit(c)
  {
    c as int - '0' as int
  }

  function Number(s: string): (n: nat)
    requires Digits(s)
  {
    if s == "" then 0 else Number(s[..|s| - 1]) * 10 + DigitOf(s[|s| - 1])
  }

  /** A number as a word: digits, perhaps after a plus, and not too big for the machine. */
  function Parse(s: string): (n: Option<nat>) {
    var digits := if s != "" && s[0] == '+' then s[1..] else s;
    if digits != "" && Digits(digits) && Number(digits) <= USIZE_MAX then Some(Number(digits)) else None
  }

  function Digit(d: nat): (c: char)
    requires d < 10
  {
    ('0' as int + d) as char
  }

  function Decimal(n: nat): (s: string)
    ensures s != ""
  {
    if n < 10 then [Digit(n)] else Decimal(n / 10) + [Digit(n % 10)]
  }

  lemma {:induction false} DecimalIsDigits(n: nat)
    ensures Digits(Decimal(n)) && Number(Decimal(n)) == n
  {
    if n < 10 {
      assert Decimal(n)[..0] == "";
      assert Number([Digit(n)]) == Number([Digit(n)][..0]) * 10 + DigitOf(Digit(n));
    } else {
      DecimalIsDigits(n / 10);
      var s := Decimal(n);
      assert s[..|s| - 1] == Decimal(n / 10);
    }
  }

  /** A written number is read back, and holds no dot. */
  lemma DecimalParses(n: nat)
    requires n <= USIZE_MAX
    ensures Parse(Decimal(n)) == Some(n) && DotFree(Decimal(n))
  {
    DecimalIsDigits(n);
    assert IsDigit(Decimal(n)[0]);
  }

  // ------------------------------------------------------------ a setting's name

  /** What a typed key names: a path to a table, and a key in it. */
  datatype Path = Path(parents: seq<string>, last: string) | NotAName

  function PathOf(key: string): (p: Path) {
    var parts := Split(Words.Trimmed(key));
    if forall i :: 0 <= i < |parts| ==> parts[i] != "" then Path(parts[..|parts| - 1], parts[|parts| - 1])
    else NotAName
  }

  // ------------------------------------------------------------ keys that are read back

  /** A part of a dotted key. */
  predicate Part(s: string) {
    s != "" && DotFree(s)
  }

  /** It does not end in white space, which the end of a line's key would lose. */
  predicate EndsDark(s: string) {
    s != "" && !Words.White(s[|s| - 1])
  }

  /** It does not begin with white space, which the start of a line's key would lose. */
  predicate StartsDark(s: string) {
    s != "" && !Words.White(s[0])
  }

  ghost predicate NeatPath(path: seq<string>) {
    && path != [] && EndsDark(path[|path| - 1])
    && forall i :: 0 <= i < |path| ==> Part(path[i])
  }

  lemma {:induction false} TrimmedDark(s: string)
    requires StartsDark(s) && EndsDark(s)
    ensures Words.Trimmed(s) == s
  {
  }

  lemma {:induction false} DottedNeat(path: seq<string>)
    requires NeatPath(path)
    ensures var s := Dotted(path); EndsDark(s) && s[0] == path[0][0]
  {
    if |path| > 1 {
      DottedNeat(path[1..]);
    }
  }

  /** A neat path, written with dots, is read back as that path. */
  lemma NeatPathIsRead(path: seq<string>)
    requires NeatPath(path) && StartsDark(path[0])
    ensures PathOf(Dotted(path)) == Path(path[..|path| - 1], path[|path| - 1])
  {
    DottedNeat(path);
    TrimmedDark(Dotted(path));
    SplitDotted(path);
  }
}
