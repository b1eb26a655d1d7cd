/** Repeating a step, over any type, so that proofs about repetition never
    look inside the step. */
module Iteration {
  function Times<T>(f: T -> T, n: nat, c: T): T {
    if n == 0 then c else f(Times(f, n - 1, c))
  }

  function Fold<T, B>(step: (T, B) -> T, c: T, items: seq<B>): T {
    if items == [] then c
    else step(Fold(step, c, items[..|items| - 1]), items[|items| - 1])
  }

  function Joined<B>(parts: seq<seq<B>>): seq<B> {
    if parts == [] then [] else Joined(parts[..|parts| - 1]) + parts[|parts| - 1]
  }

  lemma {:induction false} TimesDistributes<T(!new)>(op: (T, T) -> T, f: T -> T, n: nat, a: T, b: T)
    requires forall x, y :: f(op(x, y)) == op(f(x), f(y))
    ensures Times(f, n, op(a, b)) == op(Times(f, n, a), Times(f, n, b))
  {
    if n > 0 {
      TimesDistributes(op, f, n - 1, a, b);
    }
  }

  lemma EightTimes<T>(f: T -> T, c: T)
    ensures Times(f, 8, c) == f(f(f(f(f(f(f(f(c))))))))
  {}

  /** Feeding two stretches in order is feeding them joined. */
  lemma {:induction false} FoldJoins<T, B>(step: (T, B) -> T, c: T, a: seq<B>, b: seq<B>)
    ensures Fold(step, c, a + b) == Fold(step, Fold(step, c, a), b)
    decreases |b|
  {
    if b == [] {
      assert a + b == a;
    } else {
      var init := b[..|b| - 1];
      assert (a + b)[..|a + b| - 1] == a + init;
      FoldJoins(step, c, a, init);
    }
  }

  lemma FoldNext<T, B>(step: (T, B) -> T, c: T, items: seq<B>, i: nat)
    requires i < |items|
    ensures Fold(step, c, items[..i + 1]) == step(Fold(step, c, items[..i]), items[i])
  {
    assert items[..i + 1][..i] == items[..i];
  }

  lemma JoinedPair<B>(a: seq<B>, b: seq<B>)
    ensures Joined([a, b]) == a + b
  {
    assert [a, b][..1] == [a] && [a][..0] == [];
    assert Joined([a]) == [] + a == a;
  }

  lemma JoinedNext<B>(parts: seq<seq<B>>, p: nat)
    requires p < |parts|
    ensures Joined(parts[..p + 1]) == Joined(parts[..p]) + parts[p]
  {
    assert parts[..p + 1][..p] == parts[..p];
  }
}
