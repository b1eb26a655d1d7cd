/** Breadth-first search over undirected moves: shortest routes, and the rooms on one
    side of a move. */
module Routes {
  import opened Levels
  import opened Sets
  import opened Options

  /** Each room's neighbours; a room not listed has none. */
  type Near = map<Room, set<Room>>

  function Next(near: Near, x: Room): (ys: set<Room>) {
    if x in near then near[x] else {}
  }

  /** `near` lists exactly the rooms that `moves` join. */
  ghost predicate Shows(near: Near, moves: seq<Move>) {
    forall x, y :: y in Next(near, x) <==> Joined(moves, x, y)
  }

  ghost predicate Walk(near: Near, path: seq<Room>) {
    |path| > 0 && forall i :: 0 <= i < |path| - 1 ==> path[i + 1] in Next(near, path[i])
  }

  lemma WalkIsChain(near: Near, moves: seq<Move>, path: seq<Room>)
    requires Shows(near, moves)
    ensures Walk(near, path) <==> Chain(moves, path)
  {
    if Walk(near, path) {
      forall i | 0 <= i < |path| - 1
        ensures Joined(moves, path[i], path[i + 1])
      {
        assert path[i + 1] in Next(near, path[i]);
      }
    }
    if Chain(moves, path) {
      forall i | 0 <= i < |path| - 1
        ensures path[i + 1] in Next(near, path[i])
      {
        assert Joined(moves, path[i], path[i + 1]);
      }
    }
  }

  /** The rooms that `moves` touch. */
  function Touched(moves: seq<Move>): (rooms: set<Room>) {
    (set m <- moves :: m.0) + (set m <- moves :: m.1)
  }

  /** Adds both directions of every move. */
  method Neighbours(moves: seq<Move>) returns (near: Near)
    ensures Shows(near, moves)
  {
    near := map[];
    var i := 0;
    while i < |moves|
      invariant 0 <= i <= |moves| && Shows(near, moves[..i])
    {
      var (a, b) := moves[i];
      ghost var was := near;
      near := near[a := Next(near, a) + {b}];
      near := near[b := Next(near, b) + {a}];
      assert moves[..i + 1] == moves[..i] + [(a, b)];
      forall x, y
        ensures y in Next(near, x) <==> Joined(moves[..i + 1], x, y)
      {
        assert y in Next(was, x) <==> Joined(moves[..i], x, y);
      }
      i := i + 1;
    }
    assert moves[..i] == moves;
  }

  // --------------------------------------------------- the search's layers

  /** How a room was first reached. */
  datatype Back = Start | From(room: Room)

  type Backs = map<Room, Back>
  type Depths = map<Room, nat>

  ghost predicate Tracked(near: Near, a: Room, prev: Backs, depth: Depths, y: Room) {
    && y in prev && y in depth
    && (prev[y] == Start ==> y == a && depth[y] == 0)
    && (prev[y] != Start ==>
          && prev[y].room in prev && prev[y].room in depth
          && y in Next(near, prev[y].room) && depth[y] == depth[prev[y].room] + 1)
  }

  /** Every neighbour of `x` has been reached, at most one step further out. */
  ghost predicate Expanded(near: Near, depth: Depths, x: Room) {
    x in depth && forall y :: y in Next(near, x) ==> y in depth && depth[y] <= depth[x] + 1
  }

  ghost predicate Waiting(depth: Depths, q: seq<Room>) {
    && (forall i :: 0 <= i < |q| ==> q[i] in depth)
    && (forall i, j :: 0 <= i <= j < |q| ==> depth[q[i]] <= depth[q[j]])
  }

  /** The state of the search: what was reached, how, and which rooms still wait. */
  ghost predicate Layered(near: Near, a: Room, prev: Backs, depth: Depths, q: seq<Room>) {
    && prev.Keys == depth.Keys
    && a in depth && depth[a] == 0
    && (forall y {:trigger Tracked(near, a, prev, depth, y)} :: y in prev ==> Tracked(near, a, prev, depth, y))
    && Waiting(depth, q)
  }

  ghost predicate Searched(near: Near, depth: Depths, q: seq<Room>) {
    && (forall y :: y in depth ==> Expanded(near, depth, y) || y in q)
    && (|q| > 0 ==> q[0] in depth && forall y :: y in depth ==> depth[y] <= depth[q[0]] + 1)
  }

  /** Along any walk from the start, each room is within its number of steps, or beyond
      everything that waits. */
  lemma {:induction false} Along(near: Near, a: Room, prev: Backs, depth: Depths, q: seq<Room>, path: seq<Room>, i: nat)
    requires Layered(near, a, prev, depth, q) && Searched(near, depth, q)
    requires Walk(near, path) && path[0] == a && i < |path|
    ensures (path[i] in depth && depth[path[i]] <= i) || (|q| > 0 && depth[q[0]] < i)
  {
    if i > 0 {
      Along(near, a, prev, depth, q, path, i - 1);
      var x := path[i - 1];
      assert path[i - 1 + 1] in Next(near, x);
      if x in depth && depth[x] <= i - 1 {
        if Expanded(near, depth, x) {
          assert path[i] in Next(near, x);
        } else {
          assert x in q;
          var j :| 0 <= j < |q| && q[j] == x;
          assert depth[q[0]] <= depth[q[j]];
        }
      }
    }
  }

  /** The search while the room `x` it took off the queue is being expanded. */
  ghost predicate Expanding(near: Near, a: Room, x: Room, prev: Backs, depth: Depths, q: seq<Room>) {
    && Layered(near, a, prev, depth, q) && x in depth
    && (forall y :: y in depth ==> Expanded(near, depth, y) || y == x || y in q)
    && (forall y :: y in depth ==> depth[y] <= depth[x] + 1)
    && (forall i :: 0 <= i < |q| ==> depth[x] <= depth[q[i]])
  }

  lemma ReachesOne(near: Near, a: Room, x: Room, prev: Backs, depth: Depths, q: seq<Room>, y: Room)
    requires Expanding(near, a, x, prev, depth, q)
    requires y in Next(near, x) && y !in prev
    ensures Expanding(near, a, x, prev[y := From(x)], depth[y := depth[x] + 1], q + [y])
  {
    StillTracked(near, a, x, prev, depth, y);
    OthersStay(near, x, depth, q, y, depth[x] + 1);
    StillWaiting(depth, q, y, depth[x] + 1);
  }

  lemma StillTracked(near: Near, a: Room, x: Room, prev: Backs, depth: Depths, y: Room)
    requires forall z {:trigger Tracked(near, a, prev, depth, z)} :: z in prev ==> Tracked(near, a, prev, depth, z)
    requires prev.Keys == depth.Keys && x in prev && y !in prev && y in Next(near, x)
    ensures var prev', depth' := prev[y := From(x)], depth[y := depth[x] + 1];
            forall z {:trigger Tracked(near, a, prev', depth', z)} :: z in prev' ==> Tracked(near, a, prev', depth', z)
  {
    var prev', depth' := prev[y := From(x)], depth[y := depth[x] + 1];
    forall z | z in prev'
      ensures Tracked(near, a, prev', depth', z)
    {
      assert z == y || Tracked(near, a, prev, depth, z);
    }
  }

  lemma StillWaiting(depth: Depths, q: seq<Room>, y: Room, d: nat)
    requires Waiting(depth, q) && y !in depth
    requires forall i :: 0 <= i < |q| ==> depth[q[i]] <= d
    ensures Waiting(depth[y := d], q + [y])
  {
    forall i, j | 0 <= i <= j < |q + [y]|
      ensures depth[y := d][(q + [y])[i]] <= depth[y := d][(q + [y])[j]]
    {
      if j < |q| {
        assert depth[q[i]] <= depth[q[j]];
      }
    }
  }

  lemma OthersStay(near: Near, x: Room, depth: Depths, q: seq<Room>, y: Room, d: nat)
    requires forall z :: z in depth ==> Expanded(near, depth, z) || z == x || z in q
    requires y !in depth
    ensures forall z :: z in depth[y := d] ==> Expanded(near, depth[y := d], z) || z == x || z in q + [y]
  {
    forall z | z in depth[y := d]
      ensures Expanded(near, depth[y := d], z) || z == x || z in q + [y]
    {
      if z == y {
        assert (q + [y])[|q|] == y;
      } else {
        assert Expanded(near, depth, z) || z == x || z in q;
      }
    }
  }

  lemma WaitingTail(depth: Depths, had: seq<Room>)
    requires Waiting(depth, had) && had != []
    ensures Waiting(depth, had[1..])
    ensures forall i :: 0 <= i < |had[1..]| ==> depth[had[0]] <= depth[had[1..][i]]
  {
    forall i, j | 0 <= i <= j < |had[1..]|
      ensures depth[had[1..][i]] <= depth[had[1..][j]]
    {
      assert depth[had[i + 1]] <= depth[had[j + 1]];
    }
    forall i | 0 <= i < |had[1..]|
      ensures depth[had[0]] <= depth[had[1..][i]]
    {
      assert depth[had[0]] <= depth[had[i + 1]];
    }
  }

  lemma StartsExpanding(near: Near, a: Room, prev: Backs, depth: Depths, had: seq<Room>)
    requires Layered(near, a, prev, depth, had) && Searched(near, depth, had) && had != []
    ensures Expanding(near, a, had[0], prev, depth, had[1..])
  {
    WaitingTail(depth, had);
    forall y | y in depth
      ensures Expanded(near, depth, y) || y == had[0] || y in had[1..]
    {
      assert had == [had[0]] + had[1..];
    }
  }

  lemma EndsExpanding(near: Near, a: Room, x: Room, prev: Backs, depth: Depths, q: seq<Room>)
    requires Expanding(near, a, x, prev, depth, q)
    requires forall y :: y in Next(near, x) ==> y in prev
    ensures Searched(near, depth, q)
  {
    assert Expanded(near, depth, x);
  }

  /** Takes the first room off the queue: reaches its neighbours, in ascending order. */
  method Expand(near: Near, a: Room, prev0: Backs, ghost depth0: Depths, had: seq<Room>)
    returns (prev: Backs, ghost depth: Depths, q: seq<Room>)
    requires Layered(near, a, prev0, depth0, had) && Searched(near, depth0, had) && had != []
    ensures Layered(near, a, prev, depth, q) && Searched(near, depth, q)
    ensures forall y :: y in prev <==> y in prev0 || y in Next(near, had[0])
    ensures |q| + |prev0| == |had| - 1 + |prev|
  {
    var x := had[0];
    prev, depth, q := prev0, depth0, had[1..];
    StartsExpanding(near, a, prev, depth, had);
    var todo := Next(near, x);
    while todo != {}
      invariant todo <= Next(near, x) && Expanding(near, a, x, prev, depth, q)
      invariant forall y :: y in prev <==> y in prev0 || (y in Next(near, x) && y !in todo)
      invariant |q| + |prev0| == |had| - 1 + |prev|
    {
      LeastExists(todo);
      var y :| Least(todo, y);
      todo := todo - {y};
      if y !in prev {
        ReachesOne(near, a, x, prev, depth, q, y);
        prev, depth, q := prev[y := From(x)], depth[y := depth[x] + 1], q + [y];
      }
    }
    EndsExpanding(near, a, x, prev, depth, q);
  }

  /** Every room reachable from `a` by steps in `near` lies in `all`. */
  ghost predicate Bounded(near: Near, a: Room, all: set<Room>) {
    a in all && forall x, y :: y in Next(near, x) ==> y in all
  }

  /** Searches outward from `a` until `b` is reached or nothing waits. */
  method Search(near: Near, a: Room, b: Room, ghost all: set<Room>)
    returns (prev: Backs, ghost depth: Depths, ghost q: seq<Room>)
    requires Bounded(near, a, all)
    ensures Layered(near, a, prev, depth, q) && Searched(near, depth, q)
    ensures b in prev || q == []
  {
    var queue := [a];
    prev, depth := map[a := Start], map[a := 0];
    assert Tracked(near, a, prev, depth, a);
    while queue != [] && b !in prev
      invariant Layered(near, a, prev, depth, queue) && Searched(near, depth, queue)
      invariant prev.Keys <= all && |prev| <= |all|
      decreases 2 * (|all| - |prev|) + |queue|
    {
      ghost var before := prev;
      prev, depth, queue := Expand(near, a, prev, depth, queue);
      assert before.Keys <= prev.Keys && prev.Keys <= all;
      Fewer(before.Keys, prev.Keys);
      Fewer(prev.Keys, all);
    }
    q := queue;
  }

  /** Follows the way back from `b` to the start. The original appends to a list and
      reverses it. */
  method Backtrack(near: Near, a: Room, b: Room, prev: Backs, ghost depth: Depths, ghost q: seq<Room>)
    returns (path: seq<Room>)
    requires Layered(near, a, prev, depth, q) && b in prev
    ensures Walk(near, path) && path[0] == a && path[|path| - 1] == b
    ensures |path| == depth[b] + 1
  {
    path := [b];
    while true
      invariant Walk(near, path) && path[|path| - 1] == b
      invariant path[0] in prev && |path| + depth[path[0]] == depth[b] + 1
      decreases depth[path[0]]
    {
      assert Tracked(near, a, prev, depth, path[0]);
      match prev[path[0]] {
        case Start => return;
        case From(x) =>
          path := [x] + path;
      }
    }
  }

  /** A route from `a` to `b` with the fewest moves. */
  ghost predicate ShortestRoute(moves: seq<Move>, a: Room, b: Room, path: seq<Room>) {
    Joins(moves, a, b, path) && forall p :: Joins(moves, a, b, p) ==> |path| <= |p|
  }

  /** A shortest route from `a` to `b`, or none exactly when they are not linked. */
  method Route(near: Near, a: Room, b: Room, ghost moves: seq<Move>) returns (route: Option<seq<Room>>)
    requires Shows(near, moves)
    ensures route.None? <==> !Linked(moves, a, b)
    ensures route.Some? ==> ShortestRoute(moves, a, b, route.value)
  {
    var prev, depth, q := Search(near, a, b, Touched(moves) + {a});
    forall p | Joins(moves, a, b, p)
      ensures b in prev && depth[b] < |p|
    {
      WalkIsChain(near, moves, p);
      Along(near, a, prev, depth, q, p, |p| - 1);
    }
    if b !in prev {
      return None;
    }
    var path := Backtrack(near, a, b, prev, depth, q);
    WalkIsChain(near, moves, path);
    assert Joins(moves, a, b, path);
    return Some(path);
  }
}
