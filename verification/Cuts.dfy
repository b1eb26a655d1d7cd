/** Cutting and joining sequences, whatever they hold. */
module Cuts {
  lemma JoinAssociates<T>(a: seq<T>, b: seq<T>, c: seq<T>)
    ensures (a + b) + c == a + (b + c)
  {}

  lemma ThreeOf<T>(a: T, b: T, c: T)
    ensures [a] + [b] + [c] == [a, b, c]
  {}

  lemma FourOf<T>(a: T, b: T, c: T, d: T)
    ensures [a] + [b] + [c] + [d] == [a, b, c, d]
  {}

  lemma HeadAndTail<T>(s: seq<T>)
    requires s != []
    ensures [s[0]] + s[1..] == s
  {}

  lemma Nothing<T>(s: seq<T>)
    ensures s + [] == s && [] + s == s
  {}

  lemma InitOfAppend<T>(s: seq<T>, x: T)
    ensures (s + [x])[..|s|] == s && (s + [x])[|s|] == x
  {}

  lemma InitAndLast<T>(s: seq<T>)
    requires s != []
    ensures s[..|s| - 1] + [s[|s| - 1]] == s
  {}

  lemma FrontOfRest<T>(s: seq<T>, i: nat, front: seq<T>, rest: seq<T>)
    requires i <= |s| && s[i..] == front + rest
    ensures |s| == i + |front| + |rest|
    ensures forall k :: 0 <= k < |front| ==> s[i + k] == front[k]
    ensures forall k :: i <= k < i + |front| ==> s[k] == front[k - i]
    ensures s[i + |front|..] == rest
  {
    assert forall k :: 0 <= k < |s| - i ==> s[i..][k] == s[i + k];
  }

  lemma MiddleAndRest<T>(s: seq<T>, i: nat, j: nat)
    requires i <= j <= |s|
    ensures s[i..] == s[i..j] + s[j..]
  {}

  lemma TailOfJoin<T>(a: seq<T>, b: seq<T>)
    requires a != []
    ensures (a + b)[1..] == a[1..] + b && (a + b)[0] == a[0]
  {}

  lemma TailOfOne<T>(x: T)
    ensures [x][1..] == []
  {}

  lemma Whole<T>(s: seq<T>)
    ensures s[..|s|] == s
  {}

  lemma TwoParts<T>(s: seq<T>, n: nat)
    requires n <= |s|
    ensures s[..n] + s[n..] == s
  {}

  lemma FiveParts<T>(s: seq<T>, len: nat)
    requires 12 + len <= |s|
    ensures s == s[..4] + s[4..8] + s[8..8 + len] + s[8 + len..12 + len] + s[12 + len..]
  {}

  lemma SameEnd<T>(front: seq<T>, a: seq<T>, rest: seq<T>, b: seq<T>, other: seq<T>)
    requires |a| == |b|
    ensures front + b + other == front + a + rest <==> a == b && rest == other
  {
    var x, y := front + a + rest, front + b + other;
    assert x[|front|..|front| + |a|] == a && x[|front| + |a|..] == rest;
    assert y[|front|..|front| + |a|] == b && y[|front| + |a|..] == other;
  }

  lemma OneLonger<T>(s: seq<T>, i: nat)
    requires i < |s|
    ensures s[..i + 1] == s[..i] + [s[i]]
  {}

  lemma AppendFour<T>(out: seq<T>, a: seq<T>, b: seq<T>, c: seq<T>, d: seq<T>)
    ensures out + a + b + c + d == out + (a + b + c + d)
  {}

  lemma FourJoined<T>(a: seq<T>, b: seq<T>, c: seq<T>, rest: seq<T>)
    ensures a + (b + (c + rest)) == a + b + c + rest
  {}

  lemma FourParts<T>(a: seq<T>, b: seq<T>, c: seq<T>, d: seq<T>, rest: seq<T>)
    requires |a| == |b| == |d| == 4
    ensures var s := a + b + c + d + rest;
            && s[..4] == a && s[4..8] == b && s[8..8 + |c|] == c
            && s[8 + |c|..12 + |c|] == d && s[12 + |c|..] == rest
  {}

  lemma FromHere<T>(s: seq<T>, at: nat, len: nat)
    requires at + 12 + len <= |s|
    ensures var t := s[at..];
            && t[..4] == s[at..at + 4] && t[4..8] == s[at + 4..at + 8]
            && t[8..8 + len] == s[at + 8..at + 8 + len] && t[12 + len..] == s[at + 12 + len..]
  {}

  lemma CutApart<T>(a: seq<T>, b: seq<T>)
    ensures (a + b)[..|a|] == a && (a + b)[|a|..] == b
  {}

  lemma CutOfFront<T>(s: seq<T>, n: nat, i: nat, j: nat)
    requires i <= j <= n <= |s|
    ensures s[..n][i..j] == s[i..j]
  {}
}
