/** Text as the program compares it. */
module Words {
  /** Unicode's white space, which trimming takes off. */
  predicate White(c: char) {
    c == ' ' || '\t' <= c <= '\r' || c == '\U{0085}' || c == '\U{00A0}' || c == '\U{1680}' ||
    '\U{2000}' <= c <= '\U{200A}' || c == '\U{2028}' || c == '\U{2029}' || c == '\U{202F}' ||
    c == '\U{205F}' || c == '\U{3000}'
  }

  function TrimmedStart(s: string): (r: string)
    ensures r == [] || !White(r[0])
  {
    if s != [] && White(s[0]) then TrimmedStart(s[1..]) else s
  }

  function TrimmedEnd(s: string): (r: string)
    ensures r == [] || !White(r[|r| - 1])
    ensures r <= s
  {
    if s != [] && White(s[|s| - 1]) then TrimmedEnd(s[..|s| - 1]) else s
  }

  function Trimmed(s: string): string {
    TrimmedEnd(TrimmedStart(s))
  }

  function LowerChar(c: char): char {
    if 'A' <= c <= 'Z' then (c as int + 32) as char else c
  }

  function Lower(s: string): string {
    seq(|s|, i requires 0 <= i < |s| => LowerChar(s[i]))
  }

  /** Equal but for the case of ASCII letters. */
  predicate SameIgnoringCase(a: string, b: string) {
    Lower(a) == Lower(b)
  }
}
