/** Which unported shapes hold the map together: gated reachability, and the greedy order
    in which to port them. */
module Chokepoints {
  import opened Sets

  type Room = nat

  /** A shape still to be ported, numbered in the order of the shapes' names. */
  type Shape = nat

  /** An exit opens when every one of its blockers is ported. */
  datatype Exit = Exit(to: Room, blockers: set<Shape>)

  type Graph = map<Room, seq<Exit>>

  function Exits(g: Graph, at: Room): (es: seq<Exit>) {
    if at in g then g[at] else []
  }

  // ------------------------------------------------------------ what is open

  /** The exit leads to a room on the map over no blocker that is not ported. */
  ghost predicate Open(g: Graph, ported: set<Shape>, e: Exit) {
    e.to in g && e.blockers <= ported
  }

  ghost predicate Opens(g: Graph, ported: set<Shape>, a: Room, b: Room) {
    exists i :: 0 <= i < |Exits(g, a)| && Open(g, ported, Exits(g, a)[i]) && Exits(g, a)[i].to == b
  }

  ghost predicate Walk(g: Graph, ported: set<Shape>, path: seq<Room>) {
    |path| > 0 && forall i :: 0 <= i < |path| - 1 ==> Opens(g, ported, path[i], path[i + 1])
  }

  ghost predicate Leads(g: Graph, start: Room, ported: set<Shape>, r: Room, path: seq<Room>) {
    Walk(g, ported, path) && path[0] == start && path[|path| - 1] == r
  }

  ghost predicate Reachable(g: Graph, start: Room, ported: set<Shape>, r: Room) {
    exists path :: Leads(g, start, ported, r, path)
  }

  /** `seen` is exactly what can be walked to with these shapes ported. */
  ghost predicate Sees(g: Graph, start: Room, ported: set<Shape>, seen: set<Room>) {
    forall r :: r in seen <==> Reachable(g, start, ported, r)
  }

  lemma StartIsReachable(g: Graph, start: Room, ported: set<Shape>)
    ensures Reachable(g, start, ported, start)
  {
    assert Leads(g, start, ported, start, [start]);
  }

  lemma OneFurther(g: Graph, start: Room, ported: set<Shape>, a: Room, b: Room)
    requires Reachable(g, start, ported, a) && Opens(g, ported, a, b)
    ensures Reachable(g, start, ported, b)
  {
    var p :| Leads(g, start, ported, a, p);
    var q := p + [b];
    forall i | 0 <= i < |q| - 1
      ensures Opens(g, ported, q[i], q[i + 1])
    {
      assert i < |p| - 1 ==> Opens(g, ported, p[i], p[i + 1]);
    }
    assert Leads(g, start, ported, b, q);
  }

  /** Porting more never closes an exit. */
  lemma OpensMore(g: Graph, ported: set<Shape>, more: set<Shape>, a: Room, b: Room)
    requires ported <= more && Opens(g, ported, a, b)
    ensures Opens(g, more, a, b)
  {
    var i :| 0 <= i < |Exits(g, a)| && Open(g, ported, Exits(g, a)[i]) && Exits(g, a)[i].to == b;
    assert Open(g, more, Exits(g, a)[i]);
  }

  /** Porting more never loses a room. */
  lemma ReachableMore(g: Graph, start: Room, ported: set<Shape>, more: set<Shape>, r: Room)
    requires ported <= more && Reachable(g, start, ported, r)
    ensures Reachable(g, start, more, r)
  {
    var p :| Leads(g, start, ported, r, p);
    forall i | 0 <= i < |p| - 1
      ensures Opens(g, more, p[i], p[i + 1])
    {
      OpensMore(g, ported, more, p[i], p[i + 1]);
    }
    assert Leads(g, start, more, r, p);
  }

  // ------------------------------------------------------------ the border

  /** What the search makes of an exit of a reached room: passed, or its one missing shape
      is on the border, or more than one is missing. */
  ghost predicate Weighed(g: Graph, ported: set<Shape>, seen: set<Room>, border: set<Shape>, e: Exit) {
    || e.to !in g || e.to in seen
    || (e.blockers - ported != {} && (|e.blockers - ported| == 1 ==> e.blockers - ported <= border))
  }

  /** The first `n` exits of the room have been weighed. */
  ghost predicate SearchedUpTo(g: Graph, ported: set<Shape>, seen: set<Room>, border: set<Shape>, r: Room, n: nat) {
    n <= |Exits(g, r)| && forall i {:trigger Weighed(g, ported, seen, border, Exits(g, r)[i])} ::
      0 <= i < n ==> Weighed(g, ported, seen, border, Exits(g, r)[i])
  }

  /** Every shape on the border is all that is missing at an exit of a reached room. */
  ghost predicate OnBorder(g: Graph, ported: set<Shape>, seen: set<Room>, b: Shape) {
    exists r, i :: r in seen && 0 <= i < |Exits(g, r)| && Exits(g, r)[i].to in g && Exits(g, r)[i].blockers - ported == {b}
  }

  /** No walk with one more shape leaves `seen`, unless the shape is on the border. */
  lemma {:induction false} StaysSeen(g: Graph, start: Room, ported: set<Shape>, more: set<Shape>, seen: set<Room>, border: set<Shape>, path: seq<Room>, i: nat)
    requires start in seen && Pending(g, ported, seen, border, [])
    requires |more - ported| <= 1 && more * border <= ported
    requires Walk(g, more, path) && path[0] == start && i < |path|
    ensures path[i] in seen
  {
    if i > 0 {
      StaysSeen(g, start, ported, more, seen, border, path, i - 1);
      var r := path[i - 1];
      assert Opens(g, more, path[i - 1], path[i - 1 + 1]);
      var k :| 0 <= k < |Exits(g, r)| && Open(g, more, Exits(g, r)[k]) && Exits(g, r)[k].to == path[i];
      var e := Exits(g, r)[k];
      assert SearchedUpTo(g, ported, seen, border, r, |Exits(g, r)|);
      assert Weighed(g, ported, seen, border, e);
      if e.to !in seen {
        MissingIsOnBorder(e.blockers, ported, more, border);
      }
    }
  }

  lemma MissingIsOnBorder(blockers: set<Shape>, ported: set<Shape>, more: set<Shape>, border: set<Shape>)
    requires blockers <= more && |more - ported| <= 1 && blockers - ported != {}
    ensures |blockers - ported| == 1 && exists b :: b in blockers - ported && b in more
  {
    Fewer(blockers - ported, more - ported);
    var b :| b in blockers - ported;
    assert b in more;
    assert {b} <= blockers - ported;
    Fewer({b}, blockers - ported);
  }

  // ------------------------------------------------------------ the search

  ghost predicate Finding(g: Graph, start: Room, ported: set<Shape>, seen: set<Room>, border: set<Shape>) {
    && start in seen && seen <= g.Keys + {start}
    && (forall r :: r in seen ==> Reachable(g, start, ported, r))
    && (forall b :: b in border ==> OnBorder(g, ported, seen, b))
  }

  /** Looks at one exit of a reached room. */
  method LookOne(g: Graph, start: Room, ported: set<Shape>, ghost at: Room, ghost i: nat, e: Exit, seen0: set<Room>, border0: set<Shape>)
    returns (found: bool, seen: set<Room>, border: set<Shape>)
    requires Finding(g, start, ported, seen0, border0) && at in seen0
    requires i < |Exits(g, at)| && e == Exits(g, at)[i]
    ensures Finding(g, start, ported, seen, border) && border0 <= border
    ensures found ==> e.to !in seen0 && seen == seen0 + {e.to}
    ensures !found ==> seen == seen0
    ensures Weighed(g, ported, seen, border, e)
  {
    found, seen, border := false, seen0, border0;
    if e.to in seen || e.to !in g {
      return;
    }
    var missing := e.blockers - ported;
    if missing != {} {
      if |missing| == 1 {
        border := border + missing;
        BorderGrows(g, ported, seen, border0, missing, at, i);
      }
      return;
    }
    assert forall b :: b in e.blockers && b !in ported ==> b in missing;
    assert Open(g, ported, e);
    OneFurther(g, start, ported, at, e.to);
    BorderKeeps(g, ported, seen, seen + {e.to}, border);
    found, seen := true, seen + {e.to};
  }

  lemma BorderGrows(g: Graph, ported: set<Shape>, seen: set<Room>, border: set<Shape>, missing: set<Shape>, at: Room, i: nat)
    requires at in seen && i < |Exits(g, at)| && Exits(g, at)[i].to in g
    requires missing == Exits(g, at)[i].blockers - ported && |missing| == 1
    requires forall b :: b in border ==> OnBorder(g, ported, seen, b)
    ensures forall b :: b in border + missing ==> OnBorder(g, ported, seen, b)
  {
    forall b | b in missing
      ensures OnBorder(g, ported, seen, b)
    {
      assert |missing - {b}| == 0;
      assert missing == {b};
    }
  }

  lemma BorderKeeps(g: Graph, ported: set<Shape>, was: set<Room>, now: set<Room>, border: set<Shape>)
    requires was <= now && forall b :: b in border ==> OnBorder(g, ported, was, b)
    ensures forall b :: b in border ==> OnBorder(g, ported, now, b)
  {
    forall b | b in border
      ensures OnBorder(g, ported, now, b)
    {
      var r, i :| r in was && 0 <= i < |Exits(g, r)| && Exits(g, r)[i].to in g && Exits(g, r)[i].blockers - ported == {b};
      assert r in now;
    }
  }

  lemma SearchedStays(g: Graph, ported: set<Shape>, seen: set<Room>, border: set<Shape>, more: set<Room>, wider: set<Shape>, r: Room, n: nat)
    requires seen <= more && border <= wider && SearchedUpTo(g, ported, seen, border, r, n)
    ensures SearchedUpTo(g, ported, more, wider, r, n)
  {
    forall i | 0 <= i < n
      ensures Weighed(g, ported, more, wider, Exits(g, r)[i])
    {
      assert Weighed(g, ported, seen, border, Exits(g, r)[i]);
    }
  }

  /** Looks at every exit of the room `at`. */
  method Look(g: Graph, start: Room, ported: set<Shape>, at: Room, seen0: set<Room>, stack0: seq<Room>, border0: set<Shape>)
    returns (seen: set<Room>, stack: seq<Room>, border: set<Shape>)
    requires Finding(g, start, ported, seen0, border0) && at in seen0
    ensures Finding(g, start, ported, seen, border) && seen0 <= seen && border0 <= border
    ensures SearchedUpTo(g, ported, seen, border, at, |Exits(g, at)|)
    ensures |stack| + |seen0| == |stack0| + |seen|
    ensures forall r :: r in stack <==> r in stack0 || (r in seen && r !in seen0)
  {
    seen, stack, border := seen0, stack0, border0;
    var es := Exits(g, at);
    for i := 0 to |es|
      invariant Finding(g, start, ported, seen, border) && seen0 <= seen && border0 <= border
      invariant SearchedUpTo(g, ported, seen, border, at, i)
      invariant |stack| + |seen0| == |stack0| + |seen|
      invariant forall r :: r in stack <==> r in stack0 || (r in seen && r !in seen0)
    {
      ghost var was, wasBorder := seen, border;
      var found;
      found, seen, border := LookOne(g, start, ported, at, i, es[i], seen, border);
      SearchedStays(g, ported, was, wasBorder, seen, border, at, i);
      if found {
        stack := stack + [es[i].to];
      }
    }
  }

  ghost predicate Pending(g: Graph, ported: set<Shape>, seen: set<Room>, border: set<Shape>, stack: seq<Room>) {
    forall r :: r in seen ==> SearchedUpTo(g, ported, seen, border, r, |Exits(g, r)|) || r in stack
  }

  lemma PendingAfter(g: Graph, ported: set<Shape>, was: set<Room>, wasBorder: set<Shape>, seen: set<Room>, border: set<Shape>,
                     had: seq<Room>, stack: seq<Room>, at: Room)
    requires Pending(g, ported, was, wasBorder, had + [at]) && was <= seen && wasBorder <= border
    requires SearchedUpTo(g, ported, seen, border, at, |Exits(g, at)|)
    requires forall r :: r in stack <==> r in had || (r in seen && r !in was)
    ensures Pending(g, ported, seen, border, stack)
  {
    forall r | r in seen
      ensures SearchedUpTo(g, ported, seen, border, r, |Exits(g, r)|) || r in stack
    {
      if r in was && SearchedUpTo(g, ported, was, wasBorder, r, |Exits(g, r)|) {
        SearchedStays(g, ported, was, wasBorder, seen, border, r, |Exits(g, r)|);
      }
    }
  }

  /** Every room reached has been searched: what `Reach` leaves behind. */
  ghost predicate Complete(g: Graph, start: Room, ported: set<Shape>, seen: set<Room>, border: set<Shape>) {
    Finding(g, start, ported, seen, border) && Pending(g, ported, seen, border, [])
  }

  /** The rooms that can be walked to, and the shapes that are all that is missing at some
      exit out of them. */
  method Reach(g: Graph, start: Room, ported: set<Shape>) returns (seen: set<Room>, border: set<Shape>)
    ensures Complete(g, start, ported, seen, border)
    ensures Sees(g, start, ported, seen)
  {
    seen, border := {start}, {};
    var stack := [start];
    StartIsReachable(g, start, ported);
    Fewer(seen, g.Keys + {start});
    while stack != []
      invariant Finding(g, start, ported, seen, border) && Pending(g, ported, seen, border, stack)
      invariant forall i :: 0 <= i < |stack| ==> stack[i] in seen
      invariant |seen| <= |g.Keys + {start}|
      decreases 2 * (|g.Keys + {start}| - |seen|) + |stack|
    {
      var at := stack[|stack| - 1];
      ghost var was, wasBorder, had := seen, border, stack[..|stack| - 1];
      assert stack == had + [at];
      seen, stack, border := Look(g, start, ported, at, seen, stack[..|stack| - 1], border);
      PendingAfter(g, ported, was, wasBorder, seen, border, had, stack, at);
      Fewer(was, seen);
      Fewer(seen, g.Keys + {start});
    }
    SeesAll(g, start, ported, seen, border);
  }

  lemma SeesAll(g: Graph, start: Room, ported: set<Shape>, seen: set<Room>, border: set<Shape>)
    requires Complete(g, start, ported, seen, border)
    ensures Sees(g, start, ported, seen)
  {
    forall r | Reachable(g, start, ported, r)
      ensures r in seen
    {
      var p :| Leads(g, start, ported, r, p);
      StaysSeen(g, start, ported, ported, seen, border, p, |p| - 1);
    }
  }

  // ------------------------------------------------------------ what a shape gains

  /** A shape off the border gains no room. */
  lemma OffBorderGainsNothing(g: Graph, start: Room, ported: set<Shape>, seen: set<Room>, border: set<Shape>, b: Shape, more: set<Room>)
    requires Complete(g, start, ported, seen, border) && b !in border
    requires Sees(g, start, ported + {b}, more)
    ensures more == seen
  {
    SeesAll(g, start, ported, seen, border);
    assert ported + {b} - ported <= {b};
    Fewer(ported + {b} - ported, {b});
    forall r | r in more
      ensures r in seen
    {
      var p :| Leads(g, start, ported + {b}, r, p);
      StaysSeen(g, start, ported, ported + {b}, seen, border, p, |p| - 1);
    }
    forall r | r in seen
      ensures r in more
    {
      ReachableMore(g, start, ported, ported + {b}, r);
    }
  }

  /** Porting one shape more makes this many rooms walkable. */
  ghost predicate Gains(g: Graph, start: Room, ported: set<Shape>, b: Shape, n: nat) {
    exists more :: Sees(g, start, ported + {b}, more) && |more| == n
  }

  /** No shape whatever, on the border or off it, opens more than `n` rooms. */
  ghost predicate NoneBeats(g: Graph, start: Room, ported: set<Shape>, n: nat) {
    forall b, m: nat :: Gains(g, start, ported, b, m) ==> m <= n
  }

  lemma SeesOne(g: Graph, start: Room, ported: set<Shape>, a: set<Room>, b: set<Room>)
    requires Sees(g, start, ported, a) && Sees(g, start, ported, b)
    ensures a == b
  {
    forall r
      ensures r in a <==> r in b
    {
      assert r in a <==> Reachable(g, start, ported, r);
    }
  }

  /** The best of some shapes: the most rooms, and the last by name among equals. */
  ghost predicate BestOf(g: Graph, start: Room, ported: set<Shape>, among: set<Shape>, b: Shape, n: nat) {
    && b in among && Gains(g, start, ported, b, n)
    && forall c, m: nat :: c in among && Gains(g, start, ported, c, m) ==> m < n || (m == n && c <= b)
  }

  datatype Best = Nothing | Best(rooms: nat, shape: Shape)

  /** The shape on the border that opens most rooms. */
  method Choose(g: Graph, start: Room, ported: set<Shape>, border: set<Shape>) returns (best: Best)
    ensures best.Nothing? <==> border == {}
    ensures best.Best? ==> BestOf(g, start, ported, border, best.shape, best.rooms)
  {
    best := Nothing;
    var todo := border;
    while todo != {}
      invariant todo <= border
      invariant best.Nothing? <==> todo == border
      invariant best.Best? ==> BestOf(g, start, ported, border - todo, best.shape, best.rooms)
    {
      var b :| b in todo;
      var seen, _ := Reach(g, start, ported + {b});
      assert Gains(g, start, ported, b, |seen|);
      OneGain(g, start, ported, b, seen);
      var take := best.Nothing? || best.rooms < |seen| || (best.rooms == |seen| && best.shape < b);
      ghost var was := border - todo;
      todo := todo - {b};
      assert border - todo == was + {b};
      if take {
        best := Best(|seen|, b);
      }
    }
    assert border - todo == border;
  }

  lemma OneGain(g: Graph, start: Room, ported: set<Shape>, b: Shape, seen: set<Room>)
    requires Sees(g, start, ported + {b}, seen)
    ensures forall m: nat :: Gains(g, start, ported, b, m) ==> m == |seen|
  {
    forall m: nat | Gains(g, start, ported, b, m)
      ensures m == |seen|
    {
      var more :| Sees(g, start, ported + {b}, more) && |more| == m;
      SeesOne(g, start, ported + {b}, seen, more);
    }
  }

  /** A shape that opens new rooms, and no fewer than any other shape does. */
  ghost predicate Bridge(g: Graph, start: Room, ported: set<Shape>, b: Shape) {
    exists n: nat, seen :: Gains(g, start, ported, b, n) && NoneBeats(g, start, ported, n)
      && Sees(g, start, ported, seen) && |seen| < n
  }

  /** The best on the border is the best of all shapes. */
  lemma BestOnBorderIsBest(g: Graph, start: Room, ported: set<Shape>, seen: set<Room>, border: set<Shape>, b: Shape, n: nat)
    requires Complete(g, start, ported, seen, border) && BestOf(g, start, ported, border, b, n)
    ensures |seen| <= n && NoneBeats(g, start, ported, n)
  {
    GainsAtLeast(g, start, ported, seen, border, b, n);
    forall c, m: nat | Gains(g, start, ported, c, m)
      ensures m <= n
    {
      if c !in border {
        OffBorderGains(g, start, ported, seen, border, c, m);
      }
    }
  }

  lemma GainsAtLeast(g: Graph, start: Room, ported: set<Shape>, seen: set<Room>, border: set<Shape>, b: Shape, n: nat)
    requires Complete(g, start, ported, seen, border) && Gains(g, start, ported, b, n)
    ensures |seen| <= n
  {
    SeesAll(g, start, ported, seen, border);
    var more :| Sees(g, start, ported + {b}, more) && |more| == n;
    forall r | r in seen
      ensures r in more
    {
      ReachableMore(g, start, ported, ported + {b}, r);
    }
    Fewer(seen, more);
  }

  lemma OffBorderGains(g: Graph, start: Room, ported: set<Shape>, seen: set<Room>, border: set<Shape>, c: Shape, m: nat)
    requires Complete(g, start, ported, seen, border) && c !in border && Gains(g, start, ported, c, m)
    ensures m == |seen|
  {
    var more :| Sees(g, start, ported + {c}, more) && |more| == m;
    OffBorderGainsNothing(g, start, ported, seen, border, c, more);
  }

  lemma NoBorderNoGain(g: Graph, start: Room, ported: set<Shape>, seen: set<Room>, border: set<Shape>)
    requires Complete(g, start, ported, seen, border) && border == {}
    ensures NoneBeats(g, start, ported, |seen|)
  {
    forall c, m: nat | Gains(g, start, ported, c, m)
      ensures m <= |seen|
    {
      OffBorderGains(g, start, ported, seen, border, c, m);
    }
  }

  // ------------------------------------------------------------ the greedy order

  function Picked(picks: seq<Shape>): (ported: set<Shape>) {
    set b | b in picks
  }

  ghost predicate BridgeAt(g: Graph, start: Room, picks: seq<Shape>, i: nat) {
    i < |picks| && Bridge(g, start, Picked(picks[..i]), picks[i])
  }

  /** Each pick opens new rooms, and no fewer than any other shape would have. */
  ghost predicate Greedy(g: Graph, start: Room, picks: seq<Shape>) {
    forall i: nat {:trigger BridgeAt(g, start, picks, i)} :: i < |picks| ==> BridgeAt(g, start, picks, i)
  }

  lemma GreedyWith(g: Graph, start: Room, picks: seq<Shape>, b: Shape)
    requires Greedy(g, start, picks) && Bridge(g, start, Picked(picks), b)
    ensures Greedy(g, start, picks + [b]) && Picked(picks + [b]) == Picked(picks) + {b}
  {
    var more := picks + [b];
    assert more[..|picks|] == picks;
    forall i: nat | i < |more|
      ensures BridgeAt(g, start, more, i)
    {
      assert i < |picks| ==> BridgeAt(g, start, picks, i);
      assert more[..i] == picks[..i];
    }
  }

  /** Ports the best shape, then the next, until nothing gains or the rounds are used. */
  method Rank(g: Graph, start: Room, rounds: nat) returns (picks: seq<Shape>, seen: set<Room>)
    ensures Greedy(g, start, picks) && Sees(g, start, Picked(picks), seen)
    ensures |picks| <= rounds
    ensures |picks| < rounds ==> NoneBeats(g, start, Picked(picks), |seen|)
  {
    picks := [];
    var ported: set<Shape> := {};
    var border;
    seen, border := Reach(g, start, ported);
    for n := 0 to rounds
      invariant |picks| == n && ported == Picked(picks) && Greedy(g, start, picks)
      invariant Complete(g, start, ported, seen, border) && Sees(g, start, ported, seen)
    {
      var best := Choose(g, start, ported, border);
      if best.Nothing? {
        NoBorderNoGain(g, start, ported, seen, border);
        return;
      }
      BestOnBorderIsBest(g, start, ported, seen, border, best.shape, best.rooms);
      if best.rooms == |seen| {
        return;
      }
      assert Bridge(g, start, ported, best.shape);
      GreedyWith(g, start, picks, best.shape);
      picks, ported := picks + [best.shape], ported + {best.shape};
      seen, border := Reach(g, start, ported);
    }
  }
}
