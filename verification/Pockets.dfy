/** What lies on one side of a move: the rooms that depend on it. */
module Pockets {
  import opened Levels
  import opened Routes
  import opened Sets
  import opened Options

  /** The moves that are not `gone`. */
  function Without(moves: seq<Move>, gone: set<Move>): (left: seq<Move>) {
    if moves == [] then []
    else
      var rest, m := Without(moves[..|moves| - 1], gone), moves[|moves| - 1];
      if m in gone then rest else rest + [m]
  }

  lemma {:induction false} WithoutIs(moves: seq<Move>, gone: set<Move>, m: Move)
    ensures m in Without(moves, gone) <==> m in moves && m !in gone
  {
    if moves != [] {
      WithoutIs(moves[..|moves| - 1], gone, m);
      assert moves == moves[..|moves| - 1] + [moves[|moves| - 1]];
    }
  }

  function BothWays(s: Room, t: Room): (pair: set<Move>) {
    {(s, t), (t, s)}
  }

  function Aside(moves: seq<Move>, s: Room, t: Room): (left: seq<Move>) {
    Without(moves, BothWays(s, t))
  }

  lemma JoinedAside(moves: seq<Move>, s: Room, t: Room, x: Room, y: Room)
    ensures Joined(Aside(moves, s, t), x, y) <==> Joined(moves, x, y) && (x, y) !in BothWays(s, t)
  {
    WithoutIs(moves, BothWays(s, t), (x, y));
    WithoutIs(moves, BothWays(s, t), (y, x));
  }

  /** A walk of at least one move leads from `s` to `t`. */
  ghost predicate Returns(moves: seq<Move>, s: Room, t: Room) {
    exists x :: Linked(moves, s, x) && Joined(moves, x, t)
  }

  /** Between two different rooms that is the same as being linked. */
  lemma ReturnsIsLinked(moves: seq<Move>, s: Room, t: Room)
    requires s != t
    ensures Returns(moves, s, t) <==> Linked(moves, s, t)
  {
    if Returns(moves, s, t) {
      var x :| Linked(moves, s, x) && Joined(moves, x, t);
      LinkedStep(moves, x, t);
      LinkedThrough(moves, s, x, t);
    }
    if Linked(moves, s, t) {
      var p :| Joins(moves, s, t, p);
      var x := p[|p| - 2];
      assert Joins(moves, s, x, p[..|p| - 1]);
      assert Joined(moves, p[|p| - 2], p[|p| - 2 + 1]);
    }
  }

  /** Every move from `x` except the one set aside stays in `seen` and is not to `t`. */
  ghost predicate Spilt(near: Near, s: Room, t: Room, seen: set<Room>, x: Room) {
    forall y :: y in Next(near, x) && (x, y) !in BothWays(s, t) ==> y in seen && y != t
  }

  ghost predicate AllLinked(moves: seq<Move>, s: Room, seen: set<Room>) {
    forall r :: r in seen ==> Linked(moves, s, r)
  }

  /** The rooms next to `x`, by any move but the one set aside. */
  method Spill(near: Near, s: Room, t: Room, x: Room, seen0: set<Room>, q0: seq<Room>, ghost moves: seq<Move>)
    returns (back: bool, seen: set<Room>, q: seq<Room>)
    requires Shows(near, moves) && x in seen0
    requires AllLinked(Aside(moves, s, t), s, seen0)
    ensures AllLinked(Aside(moves, s, t), s, seen)
    ensures back ==> Returns(Aside(moves, s, t), s, t)
    ensures !back ==> Spilt(near, s, t, seen, x)
    ensures seen0 <= seen <= seen0 + Next(near, x)
    ensures |q| + |seen0| == |q0| + |seen|
    ensures forall r :: r in q <==> r in q0 || (r in seen && r !in seen0)
  {
    back, seen, q := false, seen0, q0;
    var todo := Next(near, x);
    while todo != {}
      invariant todo <= Next(near, x)
      invariant AllLinked(Aside(moves, s, t), s, seen)
      invariant forall y :: y in Next(near, x) && (x, y) !in BothWays(s, t) ==> (y in seen && y != t) || y in todo
      invariant seen0 <= seen <= seen0 + Next(near, x)
      invariant |q| + |seen0| == |q0| + |seen|
      invariant forall r :: r in q <==> r in q0 || (r in seen && r !in seen0)
    {
      var y :| y in todo;
      todo := todo - {y};
      if {x, y} != {s, t} {
        JoinedAside(moves, s, t, x, y);
        assert (x, y) !in BothWays(s, t);
        if y == t {
          back := true;
          return;
        }
        if y !in seen {
          LinkedStep(Aside(moves, s, t), x, y);
          LinkedThrough(Aside(moves, s, t), s, x, y);
          seen := seen + {y};
          q := q + [y];
        }
      } else {
        assert x in {s, t} && y in {s, t} && s in {x, y} && t in {x, y};
        assert (x, y) in BothWays(s, t);
      }
    }
  }

  lemma StillSpilt(near: Near, s: Room, t: Room, was: set<Room>, seen: set<Room>, had: seq<Room>, q: seq<Room>)
    requires had != [] && was <= seen && Spilt(near, s, t, seen, had[0])
    requires forall r :: r in was ==> Spilt(near, s, t, was, r) || r in had
    requires forall r :: r in q <==> r in had[1..] || (r in seen && r !in was)
    ensures forall r :: r in seen ==> Spilt(near, s, t, seen, r) || r in q
  {
    assert had == [had[0]] + had[1..];
    forall r | r in seen
      ensures Spilt(near, s, t, seen, r) || r in q
    {
      assert r in was ==> Spilt(near, s, t, was, r) || r in had;
    }
  }

  lemma {:induction false} StaysInside(near: Near, moves: seq<Move>, s: Room, t: Room, seen: set<Room>, path: seq<Room>, i: nat)
    requires Shows(near, moves) && s in seen
    requires forall r :: r in seen ==> Spilt(near, s, t, seen, r)
    requires Chain(Aside(moves, s, t), path) && path[0] == s && i < |path|
    ensures path[i] in seen
  {
    if i > 0 {
      StaysInside(near, moves, s, t, seen, path, i - 1);
      assert Joined(Aside(moves, s, t), path[i - 1], path[i - 1 + 1]);
      JoinedAside(moves, s, t, path[i - 1], path[i]);
      assert path[i] in Next(near, path[i - 1]);
    }
  }

  /** The rooms on `s`'s side of the move between `s` and `t`, or none when some other
      way leads from `s` to `t`. */
  method Pocket(near: Near, s: Room, t: Room, ghost moves: seq<Move>) returns (side: Option<set<Room>>)
    requires Shows(near, moves)
    ensures side.None? <==> Returns(Aside(moves, s, t), s, t)
    ensures side.Some? ==> forall r :: r in side.value <==> Linked(Aside(moves, s, t), s, r)
  {
    ghost var left, all := Aside(moves, s, t), Touched(moves) + {s};
    var seen, q := {s}, [s];
    LinkedSelf(left, s);
    while q != []
      invariant s in seen && seen <= all && |seen| <= |all|
      invariant forall i :: 0 <= i < |q| ==> q[i] in seen
      invariant AllLinked(left, s, seen)
      invariant forall r :: r in seen ==> Spilt(near, s, t, seen, r) || r in q
      decreases 2 * (|all| - |seen|) + |q|
    {
      var x := q[0];
      ghost var was, had := seen, q;
      var back;
      back, seen, q := Spill(near, s, t, x, seen, q[1..], moves);
      if back {
        return None;
      }
      StillSpilt(near, s, t, was, seen, had, q);
      Fewer(was, seen);
      Fewer(seen, all);
    }
    side := Some(seen);
    forall r | Linked(left, s, r)
      ensures r in seen
    {
      var p :| Joins(left, s, r, p);
      StaysInside(near, moves, s, t, seen, p, |p| - 1);
    }
    if Returns(left, s, t) {
      var x :| Linked(left, s, x) && Joined(left, x, t);
      JoinedAside(moves, s, t, x, t);
      assert false;
    }
  }

  // ------------------------------------------------------------ dead ends

  lemma ReturnsBack(moves: seq<Move>, s: Room, t: Room)
    requires Returns(moves, s, t)
    ensures Returns(moves, t, s)
  {
    var x :| Linked(moves, s, x) && Joined(moves, x, t);
    LinkedStep(moves, t, x);
    if x == s {
      LinkedSelf(moves, t);
    } else {
      LinkedBack(moves, s, x);
      ReturnsIsLinked(moves, x, s);
      var w :| Linked(moves, x, w) && Joined(moves, w, s);
      LinkedThrough(moves, t, x, w);
    }
  }

  ghost predicate IsSide(left: seq<Move>, s: Room, side: set<Room>) {
    forall r :: r in side <==> Linked(left, s, r)
  }

  /** `side` is the smaller of the two sides of a move between `a` and `b`. */
  ghost predicate IsSmaller(left: seq<Move>, a: Room, b: Room, side: set<Room>) {
    exists one, other :: IsSide(left, a, one) && IsSide(left, b, other)
      && (side == one || side == other) && |side| <= |one| && |side| <= |other|
  }

  /** What is known of a climb: no dead end exactly when another way joins its rooms, else
      the smaller side. */
  ghost predicate Judged(moves: seq<Move>, a: Room, b: Room, dead: DeadEnd) {
    && (dead.None? <==> Returns(Aside(moves, a, b), a, b))
    && (dead.Some? ==> IsSmaller(Aside(moves, a, b), a, b, dead.value))
  }

  method SmallerSide(near: Near, a: Room, b: Room, ghost moves: seq<Move>) returns (dead: DeadEnd)
    requires Shows(near, moves)
    ensures Judged(moves, a, b, dead) && Judged(moves, b, a, dead)
  {
    assert BothWays(a, b) == BothWays(b, a);
    var left := Pocket(near, b, a, moves);
    var right := Pocket(near, a, b, moves);
    ghost var rest := Aside(moves, a, b);
    if left.None? || right.None? {
      if left.None? {
        ReturnsBack(rest, b, a);
      } else {
        ReturnsBack(rest, a, b);
      }
      return None;
    }
    assert IsSide(rest, b, left.value) && IsSide(rest, a, right.value);
    dead := if |left.value| <= |right.value| then left else right;
    assert IsSmaller(rest, a, b, dead.value) && IsSmaller(rest, b, a, dead.value);
    if Returns(rest, a, b) || Returns(rest, b, a) {
      assert false;
    }
  }

  type DeadEnd = Option<set<Room>>

  ghost predicate BothIn(dead: map<Move, DeadEnd>, a: Room, b: Room) {
    (a, b) in dead && (b, a) in dead
  }

  ghost predicate Covers(out: Room -> bool, c: Climb, dead: map<Move, DeadEnd>) {
    out(c.a) && out(c.b) ==> BothIn(dead, c.a, c.b)
  }

  ghost predicate AllJudged(moves: seq<Move>, dead: map<Move, DeadEnd>) {
    && (forall a, b {:trigger BothIn(dead, a, b)} :: (a, b) in dead ==> BothIn(dead, a, b))
    && (forall a, b :: (a, b) in dead ==> Judged(moves, a, b, dead[(a, b)]))
  }

  lemma JudgesOne(moves: seq<Move>, dead: map<Move, DeadEnd>, a: Room, b: Room, side: DeadEnd)
    requires AllJudged(moves, dead) && Judged(moves, a, b, side) && Judged(moves, b, a, side)
    ensures AllJudged(moves, dead[(a, b) := side][(b, a) := side])
    ensures BothIn(dead[(a, b) := side][(b, a) := side], a, b)
  {
    var dead' := dead[(a, b) := side][(b, a) := side];
    forall x, y | (x, y) in dead'
      ensures BothIn(dead', x, y)
    {
      assert (x, y) in dead ==> BothIn(dead, x, y);
    }
  }

  /** The dead ends of the outdoor climbs, under both directions of each. */
  method DeadEnds(near: Near, out: Room -> bool, vertical: seq<Climb>, ghost moves: seq<Move>)
    returns (dead: map<Move, DeadEnd>)
    requires Shows(near, moves)
    ensures AllJudged(moves, dead)
    ensures forall i :: 0 <= i < |vertical| ==> Covers(out, vertical[i], dead)
  {
    dead := map[];
    var i := 0;
    while i < |vertical|
      invariant 0 <= i <= |vertical| && AllJudged(moves, dead)
      invariant forall j :: 0 <= j < i ==> Covers(out, vertical[j], dead)
    {
      var a, b := vertical[i].a, vertical[i].b;
      assert (b, a) in dead ==> BothIn(dead, b, a);
      if out(a) && out(b) && (b, a) !in dead {
        var side := SmallerSide(near, a, b, moves);
        JudgesOne(moves, dead, a, b, side);
        ghost var was := dead;
        dead := dead[(a, b) := side][(b, a) := side];
        assert forall j :: 0 <= j < i ==> Covers(out, vertical[j], was);
      }
      i := i + 1;
    }
  }
}
