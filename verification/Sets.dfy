/** Finite sets: their sizes, and the least of some numbers. */
module Sets {
  predicate Least(ys: set<nat>, y: nat) {
    y in ys && forall z :: z in ys ==> y <= z
  }

  lemma {:induction false} LeastExists(ys: set<nat>)
    requires ys != {}
    ensures exists y :: Least(ys, y)
  {
    var z :| z in ys;
    var rest := ys - {z};
    assert forall w :: w in ys ==> w == z || w in rest;
    if rest == {} {
      assert Least(ys, z);
    } else {
      LeastExists(rest);
      var y :| Least(rest, y);
      assert Least(ys, if y <= z then y else z);
    }
  }

  lemma Fewer<T>(part: set<T>, all: set<T>)
    requires part <= all
    ensures |part| <= |all|
  {
    if part != all {
      assert all == part + (all - part);
    }
  }
}
