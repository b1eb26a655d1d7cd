/** The answer key for the pathfinder: least travel times from one room, by
    Dijkstra's algorithm over a heap that keeps superseded entries. */
module RouteKey {
  type Room = int

  /** Where an exit leads, which need not be a room of the map, and its seconds. */
  datatype Exit = Exit(to: Room, cost: real)

  type Graph = map<Room, seq<Exit>>

  /** One exit taken: the room left, and which of its exits. */
  datatype Leg = Leg(from: Room, exit: nat)

  ghost predicate NonNegative(g: Graph) {
    forall r, i :: r in g && 0 <= i < |g[r]| ==> g[r][i].cost >= 0.0
  }

  ghost predicate IsLeg(g: Graph, l: Leg, to: Room) {
    l.from in g && l.exit < |g[l.from]| && g[l.from][l.exit].to == to && to in g
  }

  /** `legs` leads from `src` to `to`, every room entered being in the graph. */
  ghost predicate IsRoute(g: Graph, src: Room, legs: seq<Leg>, to: Room) {
    if legs == [] then src == to
    else
      var last := legs[|legs| - 1];
      IsLeg(g, last, to) && IsRoute(g, src, legs[..|legs| - 1], last.from)
  }

  ghost function Seconds(g: Graph, src: Room, legs: seq<Leg>, to: Room): real
    requires IsRoute(g, src, legs, to)
  {
    if legs == [] then 0.0
    else
      var last := legs[|legs| - 1];
      Seconds(g, src, legs[..|legs| - 1], last.from) + g[last.from][last.exit].cost
  }

  ghost predicate Reachable(g: Graph, src: Room, r: Room) {
    exists legs :: IsRoute(g, src, legs, r)
  }

  ghost predicate Attained(g: Graph, src: Room, r: Room, c: real) {
    exists legs :: IsRoute(g, src, legs, r) && Seconds(g, src, legs, r) == c
  }

  /** `c` is the least cost of any route from `src` to `r`. */
  ghost predicate IsLeast(g: Graph, src: Room, r: Room, c: real) {
    && Attained(g, src, r, c)
    && forall legs :: IsRoute(g, src, legs, r) ==> c <= Seconds(g, src, legs, r)
  }

  // ---------------------------------------------------------------- the heap

  type Item = (real, Room)

  /** Python's order on tuples. */
  predicate Before(a: Item, b: Item) {
    a.0 < b.0 || (a.0 == b.0 && a.1 <= b.1)
  }

  ghost predicate IsTop(heap: multiset<Item>, top: Item) {
    top in heap && forall b :: b in heap ==> Before(top, b)
  }

  lemma HeapHasTop(heap: multiset<Item>) returns (top: Item)
    requires heap != multiset{}
    ensures IsTop(heap, top)
    decreases |heap|
  {
    var x :| x in heap;
    var rest := heap - multiset{x};
    top := x;
    if rest != multiset{} {
      var y := HeapHasTop(rest);
      top := if Before(x, y) then x else y;
    }
    forall b | b in heap
      ensures Before(top, b)
    {
      assert b == x || b in rest;
    }
  }

  method HeapPop(heap: multiset<Item>) returns (top: Item, rest: multiset<Item>)
    requires heap != multiset{}
    ensures IsTop(heap, top) && rest == heap - multiset{top}
  {
    ghost var _ := HeapHasTop(heap);
    top :| top in heap && forall b :: b in heap ==> Before(top, b);
    rest := heap - multiset{top};
  }

  // ---------------------------------------------------------------- the search

  ghost predicate ExitRelaxed(g: Graph, dist: map<Room, real>, at: Room, i: nat)
    requires at in g && i < |g[at]| && at in dist
  {
    var Exit(to, cost) := g[at][i];
    to in g ==> to in dist && dist[to] <= dist[at] + cost
  }

  ghost predicate Relaxed(g: Graph, dist: map<Room, real>, at: Room, upTo: nat)
    requires at in g && upTo <= |g[at]|
  {
    at in dist && forall i: nat :: i < upTo ==> ExitRelaxed(g, dist, at, i)
  }

  ghost predicate Lowered(dist0: map<Room, real>, dist: map<Room, real>) {
    forall r :: r in dist0 ==> r in dist && dist[r] <= dist0[r]
  }

  ghost predicate AllAttained(g: Graph, src: Room, dist: map<Room, real>) {
    forall r :: r in dist ==> Attained(g, src, r, dist[r])
  }

  /** What the heap holds for the rooms found: every entry is at or above the
      room's present distance, and a room not done has an entry at it. */
  ghost predicate HeapCovers(dist: map<Room, real>, heap: multiset<Item>, done: set<Room>) {
    && (forall it :: it in heap ==> it.1 in dist && dist[it.1] <= it.0)
    && (forall r :: r in dist && r !in done ==> (dist[r], r) in heap)
  }

  /** Every finished room is at or below `d`. */
  ghost predicate DoneBelow(dist: map<Room, real>, done: set<Room>, d: real) {
    forall r :: r in done ==> r in dist && dist[r] <= d
  }

  ghost predicate HeapAbove(heap: multiset<Item>, d: real) {
    forall it :: it in heap ==> d <= it.0
  }

  ghost predicate DoneRelaxed(g: Graph, dist: map<Room, real>, done: set<Room>) {
    forall r :: r in done && r in g ==> Relaxed(g, dist, r, |g[r]|)
  }

  lemma ExtendAttained(g: Graph, src: Room, at: Room, i: nat, d: real)
    requires at in g && i < |g[at]| && g[at][i].to in g
    requires Attained(g, src, at, d)
    ensures Attained(g, src, g[at][i].to, d + g[at][i].cost)
  {
    var legs :| IsRoute(g, src, legs, at) && Seconds(g, src, legs, at) == d;
    var more := legs + [Leg(at, i)];
    assert more[..|more| - 1] == legs;
    assert IsRoute(g, src, more, g[at][i].to);
  }

  lemma ImproveKeeps(g: Graph, src: Room, dist: map<Room, real>, heap: multiset<Item>, done: set<Room>, d: real, to: Room, c: real)
    requires AllAttained(g, src, dist) && HeapCovers(dist, heap, done)
    requires Attained(g, src, to, c) && to !in done && HeapAbove(heap, d) && d <= c && (to !in dist || c < dist[to])
    ensures AllAttained(g, src, dist[to := c]) && HeapCovers(dist[to := c], heap + multiset{(c, to)}, done)
    ensures HeapAbove(heap + multiset{(c, to)}, d)
    ensures Lowered(dist, dist[to := c])
  {
    assert forall it :: it in heap + multiset{(c, to)} ==> it in heap || it == (c, to);
  }

  lemma LoweringKeepsRelaxed(g: Graph, dist0: map<Room, real>, dist: map<Room, real>, at: Room, upTo: nat)
    requires at in g && upTo <= |g[at]| && Relaxed(g, dist0, at, upTo)
    requires Lowered(dist0, dist) && dist[at] == dist0[at]
    ensures Relaxed(g, dist, at, upTo)
  {
    forall i: nat | i < upTo
      ensures ExitRelaxed(g, dist, at, i)
    {
      assert ExitRelaxed(g, dist0, at, i);
    }
  }

  lemma RelaxedKeepsOthers(g: Graph, dist0: map<Room, real>, dist: map<Room, real>, done: set<Room>, at: Room)
    requires at in g && Relaxed(g, dist, at, |g[at]|)
    requires DoneRelaxed(g, dist0, done - {at})
    requires forall r :: r in done ==> r in dist0 && r in dist && dist[r] == dist0[r]
    requires Lowered(dist0, dist)
    ensures DoneRelaxed(g, dist, done)
  {
    forall r | r in done && r in g && r != at
      ensures Relaxed(g, dist, r, |g[r]|)
    {
      LoweringKeepsRelaxed(g, dist0, dist, r, |g[r]|);
    }
  }

  /** Relax every exit of `at`, whose distance `d` is final. */
  method Relax(g: Graph, src: Room, at: Room, d: real, dist0: map<Room, real>, heap0: multiset<Item>, done: set<Room>)
    returns (dist: map<Room, real>, heap: multiset<Item>)
    requires NonNegative(g)
    requires at in done && at in dist0 && dist0[at] == d
    requires AllAttained(g, src, dist0) && HeapCovers(dist0, heap0, done)
    requires DoneBelow(dist0, done, d) && HeapAbove(heap0, d)
    requires dist0.Keys <= g.Keys + {src}
    requires DoneRelaxed(g, dist0, done - {at})
    ensures AllAttained(g, src, dist) && HeapCovers(dist, heap, done)
    ensures DoneBelow(dist, done, d) && HeapAbove(heap, d)
    ensures dist0.Keys <= dist.Keys <= g.Keys + {src}
    ensures DoneRelaxed(g, dist, done)
    ensures Lowered(dist0, dist)
  {
    dist, heap := dist0, heap0;
    if at !in g { return; }
    var i := 0;
    while i < |g[at]|
      invariant 0 <= i <= |g[at]|
      invariant AllAttained(g, src, dist) && HeapCovers(dist, heap, done)
      invariant HeapAbove(heap, d)
      invariant dist0.Keys <= dist.Keys <= g.Keys + {src}
      invariant forall r :: r in done ==> r in dist && dist[r] == dist0[r]
      invariant Lowered(dist0, dist)
      invariant Relaxed(g, dist, at, i)
    {
      var Exit(to, cost) := g[at][i];
      if to in g && to !in done && (to !in dist || d + cost < dist[to]) {
        ExtendAttained(g, src, at, i, d);
        ImproveKeeps(g, src, dist, heap, done, d, to, d + cost);
        LoweringKeepsRelaxed(g, dist, dist[to := d + cost], at, i);
        dist := dist[to := d + cost];
        heap := heap + multiset{(d + cost, to)};
      }
      assert ExitRelaxed(g, dist, at, i);
      i := i + 1;
    }
    RelaxedKeepsOthers(g, dist0, dist, done, at);
  }

  lemma LowerBound(g: Graph, src: Room, dist: map<Room, real>, legs: seq<Leg>, r: Room)
    requires src in dist && dist[src] <= 0.0
    requires DoneRelaxed(g, dist, dist.Keys)
    requires IsRoute(g, src, legs, r)
    ensures r in dist && dist[r] <= Seconds(g, src, legs, r)
    decreases |legs|
  {
    if legs != [] {
      var last := legs[|legs| - 1];
      LowerBound(g, src, dist, legs[..|legs| - 1], last.from);
      assert Relaxed(g, dist, last.from, |g[last.from]|);
      assert ExitRelaxed(g, dist, last.from, last.exit);
    }
  }

  /** What holds between two turns of the search. */
  ghost predicate Searching(g: Graph, src: Room, dist: map<Room, real>, heap: multiset<Item>, done: set<Room>) {
    && AllAttained(g, src, dist) && HeapCovers(dist, heap, done)
    && src in dist && dist[src] <= 0.0
    && done <= dist.Keys <= g.Keys + {src}
    && (forall r, it :: r in done && it in heap ==> dist[r] <= it.0)
    && DoneRelaxed(g, dist, done)
  }

  lemma PoppedIsFinal(g: Graph, src: Room, dist: map<Room, real>, heap: multiset<Item>, done: set<Room>, top: Item)
    requires Searching(g, src, dist, heap, done) && IsTop(heap, top)
    ensures top.1 in done ==> Searching(g, src, dist, heap - multiset{top}, done)
    ensures top.1 !in done ==>
      && top.1 in dist && dist[top.1] == top.0
      && HeapCovers(dist, heap - multiset{top}, done + {top.1})
      && HeapAbove(heap - multiset{top}, top.0)
      && DoneBelow(dist, done + {top.1}, top.0)
  {
    if top.1 !in done {
      assert (dist[top.1], top.1) in heap;
      assert Before(top, (dist[top.1], top.1));
    }
  }

  /** A route ends in a finished room no nearer than found, or costs the top's distance or more. */
  lemma {:induction false} RouteAboveTop(g: Graph, src: Room, dist: map<Room, real>, heap: multiset<Item>, done: set<Room>,
                                         top: Item, legs: seq<Leg>, r: Room)
    requires NonNegative(g) && Searching(g, src, dist, heap, done) && IsTop(heap, top) && IsRoute(g, src, legs, r)
    ensures (r in done && dist[r] <= Seconds(g, src, legs, r)) || top.0 <= Seconds(g, src, legs, r)
    decreases |legs|
  {
    if legs != [] {
      var last := legs[|legs| - 1];
      RouteAboveTop(g, src, dist, heap, done, top, legs[..|legs| - 1], last.from);
      if last.from in done {
        assert Relaxed(g, dist, last.from, |g[last.from]|);
        assert ExitRelaxed(g, dist, last.from, last.exit);
      }
    }
    if r in dist && r !in done {
      assert Before(top, (dist[r], r));
    }
  }

  /** A room taken off the heap for the first time is at its least cost already. */
  lemma FirstPopIsLeast(g: Graph, src: Room, dist: map<Room, real>, heap: multiset<Item>, done: set<Room>, top: Item)
    requires NonNegative(g) && Searching(g, src, dist, heap, done) && IsTop(heap, top) && top.1 !in done
    ensures IsLeast(g, src, top.1, top.0)
  {
    PoppedIsFinal(g, src, dist, heap, done, top);
    forall legs | IsRoute(g, src, legs, top.1)
      ensures top.0 <= Seconds(g, src, legs, top.1)
    {
      RouteAboveTop(g, src, dist, heap, done, top, legs, top.1);
    }
  }

  lemma SearchedIsExact(g: Graph, src: Room, dist: map<Room, real>, done: set<Room>)
    requires Searching(g, src, dist, multiset{}, done)
    ensures forall r :: r in dist <==> Reachable(g, src, r)
    ensures forall r :: r in dist ==> IsLeast(g, src, r, dist[r])
  {
    assert done == dist.Keys by {
      forall r | r in dist ensures r in done { }
    }
    forall r, legs | IsRoute(g, src, legs, r)
      ensures r in dist && dist[r] <= Seconds(g, src, legs, r)
    {
      LowerBound(g, src, dist, legs, r);
    }
  }

  /** One room taken off the heap for the first time, and its exits relaxed. */
  method Settle(g: Graph, src: Room, top: Item, dist0: map<Room, real>, ghost heap0: multiset<Item>,
                rest: multiset<Item>, done: set<Room>)
    returns (dist: map<Room, real>, heap: multiset<Item>)
    requires NonNegative(g)
    requires Searching(g, src, dist0, heap0, done) && IsTop(heap0, top)
    requires rest == heap0 - multiset{top} && top.1 !in done
    ensures Searching(g, src, dist, heap, done + {top.1})
    ensures top.1 in g.Keys + {src}
  {
    PoppedIsFinal(g, src, dist0, heap0, done, top);
    assert done + {top.1} - {top.1} == done;
    dist, heap := Relax(g, src, top.1, top.0, dist0, rest, done + {top.1});
    assert dist[src] <= 0.0;
  }

  method Distances(g: Graph, src: Room) returns (dist: map<Room, real>)
    requires NonNegative(g)
    ensures forall r :: r in dist <==> Reachable(g, src, r)
    ensures forall r :: r in dist ==> IsLeast(g, src, r, dist[r])
  {
    dist := map[src := 0.0];
    var heap := multiset{(0.0, src)};
    var done: set<Room> := {};
    assert IsRoute(g, src, [], src) && Seconds(g, src, [], src) == 0.0;
    while heap != multiset{}
      invariant Searching(g, src, dist, heap, done)
      decreases g.Keys + {src} - done, |heap|
    {
      ghost var was := heap;
      var top, rest := HeapPop(heap);
      if top.1 in done {
        PoppedIsFinal(g, src, dist, heap, done, top);
        heap := rest;
      } else {
        dist, heap := Settle(g, src, top, dist, was, rest, done);
        done := done + {top.1};
      }
    }
    SearchedIsExact(g, src, dist, done);
  }
}
