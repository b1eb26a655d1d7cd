/** The placing itself: walks over ledges, doors, and what is left. */
module Floors {
  import opened Levels
  import opened Heights
  import opened Sets
  import opened Cuts

  predicate Allowed(k: Ledge, only: Level -> bool, readers: bool) {
    (readers || k.source == Rule) && only(k.to)
  }

  /** What the ledge leads to has a floor, if the ledge is allowed and its end wanted. */
  ghost predicate Followed(spots: Spots, k: Ledge, only: Level -> bool, readers: bool) {
    Allowed(k, only, readers) ==> k.to in spots
  }

  ghost predicate AllFollowed(spots: Spots, ks: seq<Ledge>, only: Level -> bool, readers: bool) {
    forall i {:trigger Followed(spots, ks[i], only, readers)} :: 0 <= i < |ks| ==> Followed(spots, ks[i], only, readers)
  }

  /** The wanted levels a ledge leads to from `x` all have floors. */
  ghost predicate Walked(w: World, spots: Spots, x: Level, only: Level -> bool, readers: bool) {
    AllFollowed(spots, w.At(x), only, readers)
  }

  lemma FollowedMore(was: Spots, now: Spots, ks: seq<Ledge>, k: Ledge, only: Level -> bool, readers: bool)
    requires Grown(was, now) && AllFollowed(was, ks, only, readers) && Followed(now, k, only, readers)
    ensures AllFollowed(now, ks + [k], only, readers)
  {
    forall i | 0 <= i < |ks + [k]|
      ensures Followed(now, (ks + [k])[i], only, readers)
    {
      assert i < |ks| ==> Followed(was, ks[i], only, readers);
    }
  }

  ghost predicate AllWalked(w: World, spots: Spots, only: Level -> bool) {
    forall x :: x in spots ==> Walked(w, spots, x, only, true)
  }

  /** Nothing placed is moved. */
  ghost predicate Grown(was: Spots, now: Spots) {
    forall l :: l in was ==> l in now && now[l] == was[l]
  }

  lemma WalkedMore(w: World, was: Spots, now: Spots, x: Level, only: Level -> bool, readers: bool)
    requires Grown(was, now) && Walked(w, was, x, only, readers)
    ensures Walked(w, now, x, only, readers)
  {
    forall i | 0 <= i < |w.At(x)|
      ensures Followed(now, w.At(x)[i], only, readers)
    {
      assert Followed(was, w.At(x)[i], only, readers);
    }
  }

  ghost predicate Listed(keys: seq<Level>, l: Level) {
    l in keys
  }

  /** The keys of `spots`, in the order they were placed. */
  ghost predicate Lists(keys: seq<Level>, spots: Spots) {
    && (forall i :: 0 <= i < |keys| ==> keys[i] in spots)
    && (forall l {:trigger Listed(keys, l)} :: l in spots ==> Listed(keys, l))
  }

  lemma KeysWith(keys: seq<Level>, spots: Spots, l: Level, spot: Spot)
    requires Lists(keys, spots) && l !in spots
    ensures Lists(keys + [l], spots[l := spot])
  {
    forall x | x in spots[l := spot]
      ensures Listed(keys + [l], x)
    {
      assert x == l || Listed(keys, x);
    }
  }

  lemma WalkedAll(w: World, was: Spots, now: Spots, work: seq<Level>, n: nat, only: Level -> bool, readers: bool)
    requires Grown(was, now) && n <= |work|
    requires forall j :: 0 <= j < n ==> Walked(w, was, work[j], only, readers)
    ensures forall j :: 0 <= j < n ==> Walked(w, now, work[j], only, readers)
  {
    forall j | 0 <= j < n
      ensures Walked(w, now, work[j], only, readers)
    {
      WalkedMore(w, was, now, work[j], only, readers);
    }
  }

  lemma WorkGrows(starts: seq<Level>, keys0: seq<Level>, keys: seq<Level>, work: seq<Level>, n: nat, had: seq<Level>, added: seq<Level>)
    requires n < |work| && had == work[n..] && keys0 <= keys && work == starts + keys[|keys0|..]
    ensures had[0] == work[n] && had[1..] + added == (work + added)[n + 1..]
    ensures keys0 <= keys + added && work + added == starts + (keys + added)[|keys0|..]
    ensures |work + added| == |work| + |added| && forall j :: 0 <= j < |work| ==> (work + added)[j] == work[j]
  {
  }

  /** Every level of the work is placed, and the first `n` are walked. */
  ghost predicate Working(w: World, spots: Spots, work: seq<Level>, n: nat, only: Level -> bool, readers: bool) {
    && n <= |work|
    && (forall j :: 0 <= j < |work| ==> work[j] in spots)
    && (forall j :: 0 <= j < n ==> Walked(w, spots, work[j], only, readers))
  }

  lemma WorkingMore(w: World, was: Spots, now: Spots, keys: seq<Level>, added: seq<Level>, work: seq<Level>, n: nat, only: Level -> bool, readers: bool)
    requires Grown(was, now) && Working(w, was, work, n, only, readers) && Lists(keys + added, now)
    requires n < |work| && Walked(w, now, work[n], only, readers)
    ensures Working(w, now, work + added, n + 1, only, readers)
  {
    forall j | 0 <= j < |work + added|
      ensures (work + added)[j] in now
    {
      assert j >= |work| ==> (work + added)[j] == (keys + added)[|keys| + j - |work|];
    }
    WalkedAll(w, was, now, work, n, only, readers);
  }

  lemma AllWork(w: World, spots: Spots, keys: seq<Level>, keys0: seq<Level>, only: Level -> bool)
    requires keys0 <= keys && Lists(keys, spots)
    requires var work := keys0 + keys[|keys0|..];
             forall j :: 0 <= j < |work| ==> Walked(w, spots, work[j], only, true)
    ensures AllWalked(w, spots, only)
  {
    forall x | x in spots
      ensures Walked(w, spots, x, only, true)
    {
      assert Listed(keys, x);
      var j :| 0 <= j < |keys| && keys[j] == x;
      assert (keys0 + keys[|keys0|..])[j] == x;
    }
  }

  lemma SameKeys(keys: seq<Level>, was: Spots, now: Spots)
    requires Lists(keys, was) && Lists(keys, now)
    ensures forall l :: l in was <==> l in now
  {
    forall l
      ensures l in was <==> l in now
    {
      assert l in was ==> Listed(keys, l);
      assert l in now ==> Listed(keys, l);
    }
  }

  // ------------------------------------------------------ what is left: stacks

  ghost predicate Steps(w: World, x: Level, y: Level) {
    exists i :: 0 <= i < |w.At(x)| && w.At(x)[i].to == y
  }

  ghost predicate Led(w: World, trail: seq<Level>, j: nat) {
    j == 0 || exists i :: 0 <= i < j < |trail| && Steps(w, trail[i], trail[j])
  }

  /** Levels without floors, each but the first a ledge away from one before it. */
  ghost predicate Trail(w: World, spots: Spots, trail: seq<Level>) {
    && (forall j :: 0 <= j < |trail| ==> trail[j] in w.levels && trail[j] !in spots)
    && (forall j: nat {:trigger Led(w, trail, j)} :: j < |trail| ==> Led(w, trail, j))
  }

  /** Every ledge of `x` leads to the stack or to a placed level. */
  ghost predicate Stacked(w: World, spots: Spots, stack: set<Level>, x: Level) {
    forall y :: Steps(w, x, y) ==> y in stack || y in spots
  }

  lemma TrailMore(w: World, spots: Spots, trail: seq<Level>, i: nat, y: Level)
    requires Trail(w, spots, trail) && i < |trail|
    requires Steps(w, trail[i], y) && y in w.levels && y !in spots
    ensures Trail(w, spots, trail + [y])
  {
    var more := trail + [y];
    forall j: nat | j < |more|
      ensures Led(w, more, j)
    {
      if j == |trail| {
        assert more[i] == trail[i] && more[j] == y;
        assert Steps(w, more[i], more[j]);
      } else {
        assert Led(w, trail, j);
        if j > 0 {
          var k :| 0 <= k < j && Steps(w, trail[k], trail[j]);
          assert Steps(w, more[k], more[j]);
        }
      }
    }
  }

  /** `comp` holds the levels of the trail, which are all different. */
  ghost predicate Holds(comp: set<Level>, trail: seq<Level>) {
    |comp| == |trail| && forall y :: y in comp <==> y in trail
  }

  lemma HoldsMore(comp: set<Level>, trail: seq<Level>, y: Level)
    requires Holds(comp, trail) && y !in comp
    ensures Holds(comp + {y}, trail + [y])
  {
  }

  /** `comp` holds the levels of the trail; the first `n` of them lead nowhere else. */
  ghost predicate Gathered(w: World, spots: Spots, comp: set<Level>, trail: seq<Level>, n: nat) {
    && Holds(comp, trail) && n <= |trail|
    && (forall j :: 0 <= j < n ==> Stacked(w, spots, comp, trail[j]))
  }

  lemma GatheredMore(w: World, spots: Spots, was: set<Level>, now: set<Level>, trail: seq<Level>, added: seq<Level>, n: nat)
    requires Gathered(w, spots, was, trail, n) && n < |trail| && was <= now
    requires Holds(now, trail + added)
    requires Stacked(w, spots, now, trail[n])
    ensures Gathered(w, spots, now, trail + added, n + 1)
  {
    var more := trail + added;
    forall j | 0 <= j < n + 1
      ensures Stacked(w, spots, now, more[j])
    {
      assert more[j] == trail[j];
      assert j < n ==> Stacked(w, spots, was, trail[j]);
    }
  }

  /** Once any level of a stack is placed and walked from, so is the level it grew from. */
  lemma {:induction false} PlacedBack(w: World, first: Spots, now: Spots, trail: seq<Level>, j: nat)
    requires w.Valid() && Trail(w, first, trail) && AllWalked(w, now, Any)
    requires j < |trail| && trail[j] in now
    ensures trail[0] in now
  {
    if j > 0 {
      assert Led(w, trail, j);
      var i :| 0 <= i < j && Steps(w, trail[i], trail[j]);
      var x, y := trail[i], trail[j];
      var k :| 0 <= k < |w.At(x)| && w.At(x)[k].to == y;
      assert w.Back(x, w.At(x)[k]);
      var b :| 0 <= b < |w.At(y)| && w.At(y)[b] == Ledge(x, -w.At(x)[k].step, w.At(x)[k].source);
      assert Walked(w, now, y, Any, true) && Followed(now, w.At(y)[b], Any, true);
      PlacedBack(w, first, now, trail, i);
    }
  }

  /** The trace went on from `was` to `now` by ledges only, and without a reader's unless
      `readers`. */
  ghost predicate ByLedges(was: seq<Placement>, now: seq<Placement>, readers: bool) {
    && was <= now
    && forall i {:trigger now[i]} :: |was| <= i < |now| ==> now[i].why.Over? && (readers || now[i].why.source == Rule)
  }

  lemma ByLedgesThrough(a: seq<Placement>, b: seq<Placement>, c: seq<Placement>, readers: bool)
    requires ByLedges(a, b, readers) && ByLedges(b, c, readers)
    ensures ByLedges(a, c, readers)
  {
    forall i | |a| <= i < |c|
      ensures c[i].why.Over? && (readers || c[i].why.source == Rule)
    {
      if i < |b| {
        assert c[i] == b[i];
      }
    }
  }

  lemma OneLedge(was: seq<Placement>, p: Placement, readers: bool)
    requires p.why.Over? && (readers || p.why.source == Rule)
    ensures ByLedges(was, was + [p], readers)
  {
  }

  /** The trace went on without putting any level on 0, or placing through a door any level
      that waits. */
  ghost predicate NoneWaiting(was: seq<Placement>, now: seq<Placement>, waiting: set<Level>) {
    && was <= now
    && forall i {:trigger now[i]} :: |was| <= i < |now| ==> !now[i].why.Zero? && !(now[i].why.Inward? && now[i].level in waiting)
  }

  lemma NoneWaitingThrough(a: seq<Placement>, b: seq<Placement>, c: seq<Placement>, waiting: set<Level>)
    requires NoneWaiting(a, b, waiting) && NoneWaiting(b, c, waiting)
    ensures NoneWaiting(a, c, waiting)
  {
    forall i | |a| <= i < |c|
      ensures !c[i].why.Zero? && !(c[i].why.Inward? && c[i].level in waiting)
    {
      if i < |b| {
        assert c[i] == b[i];
      }
    }
  }

  lemma NoneWaitingLess(was: seq<Placement>, now: seq<Placement>, waiting: set<Level>)
    requires NoneWaiting(was, now, waiting)
    ensures NoneWaiting(was, now, {})
  {
  }

  /** No door joins a level with a floor to one without, but for indoor levels that wait. */
  ghost predicate QuietAt(w: World, spots: Spots, waiting: set<Level>) {
    forall i :: 0 <= i < |w.doors| ==>
      && (w.doors[i].outer in spots ==> w.doors[i].inner in spots || w.doors[i].inner in waiting)
      && (w.doors[i].inner in spots ==> w.doors[i].outer in spots)
  }

  /** A level whose name says off the ground took a door's floor only after a moment when
      nothing was left to walk, and no other door to take a floor from. */
  ghost predicate DoorsLast(w: World, was: seq<Placement>, now: seq<Placement>, offGround: set<Level>) {
    exists n: nat ::
      |was| <= n <= |now| && NoneWaiting(was, now[..n], offGround)
      && AllWalked(w, SpotsOf(now[..n]), Any) && QuietAt(w, SpotsOf(now[..n]), offGround)
  }

  /** The walk first took the map's own climbs as far as they go from its starts. */
  ghost predicate RulesFirst(w: World, starts: seq<Level>, was: seq<Placement>, now: seq<Placement>, only: Level -> bool) {
    exists n: nat ::
      |was| <= n <= |now| && ByLedges(was, now[..n], false)
      && forall i :: 0 <= i < |starts| ==> Walked(w, SpotsOf(now[..n]), starts[i], only, false)
  }

  function Any(l: Level): (yes: bool) {
    true
  }

  /** The ledge leads to the stack or to a placed level. */
  ghost predicate Taken(spots: Spots, comp: set<Level>, k: Ledge) {
    k.to in comp || k.to in spots
  }

  ghost predicate AllTaken(spots: Spots, comp: set<Level>, ks: seq<Ledge>) {
    forall i {:trigger Taken(spots, comp, ks[i])} :: 0 <= i < |ks| ==> Taken(spots, comp, ks[i])
  }

  lemma TakenMore(spots: Spots, was: set<Level>, now: set<Level>, ks: seq<Ledge>, k: Ledge)
    requires AllTaken(spots, was, ks) && was <= now && Taken(spots, now, k)
    ensures AllTaken(spots, now, ks + [k])
  {
    forall i | 0 <= i < |ks + [k]|
      ensures Taken(spots, now, (ks + [k])[i])
    {
      assert i < |ks| ==> Taken(spots, was, ks[i]);
    }
  }

  lemma AllTakenIsStacked(w: World, spots: Spots, comp: set<Level>, x: Level)
    requires AllTaken(spots, comp, w.At(x))
    ensures Stacked(w, spots, comp, x)
  {
    forall y | Steps(w, x, y)
      ensures y in comp || y in spots
    {
      var i :| 0 <= i < |w.At(x)| && w.At(x)[i].to == y;
      assert Taken(spots, comp, w.At(x)[i]);
    }
  }

  /** The level `y`, next to `trail0[n]`, joins the stack if it has no floor and is not in it. */
  method GatherOne(w: World, spots: Spots, ghost n: nat, comp0: set<Level>, ghost trail0: seq<Level>, ghost added: seq<Level>, x: Level, y: Level)
    returns (joins: bool, comp: set<Level>)
    requires Trail(w, spots, trail0 + added) && n < |trail0| && trail0[n] == x && Holds(comp0, trail0 + added)
    requires Steps(w, x, y) && y in w.levels
    ensures comp0 <= comp && (y in comp || y in spots)
    ensures joins ==> Trail(w, spots, trail0 + (added + [y])) && Holds(comp, trail0 + (added + [y]))
    ensures !joins ==> comp == comp0
  {
    joins, comp := y !in comp0 && y !in spots, comp0;
    if joins {
      TrailOnce(w, spots, trail0, added, n, x, y);
      HoldsMore(comp0, trail0 + added, y);
      JoinAssociates(trail0, added, [y]);
      comp := comp0 + {y};
    }
  }

  /** Adds the levels next to `trail0[n]` that have no floor. */
  method Gather(w: World, spots: Spots, ghost n: nat, comp0: set<Level>, q0: seq<Level>, ghost trail0: seq<Level>, x: Level)
    returns (comp: set<Level>, q: seq<Level>, ghost added: seq<Level>)
    requires w.Valid() && Trail(w, spots, trail0) && n < |trail0| && trail0[n] == x
    requires Holds(comp0, trail0)
    ensures Trail(w, spots, trail0 + added) && q == q0 + added && comp0 <= comp
    ensures Holds(comp, trail0 + added)
    ensures Stacked(w, spots, comp, x)
  {
    comp, q, added := comp0, q0, [];
    Nothing(trail0);
    Nothing(q0);
    var ks := w.At(x);
    for i := 0 to |ks|
      invariant Trail(w, spots, trail0 + added) && q == q0 + added && comp0 <= comp
      invariant Holds(comp, trail0 + added) && AllTaken(spots, comp, ks[..i])
    {
      ghost var was := comp;
      var joins;
      joins, comp := GatherOne(w, spots, n, comp, trail0, added, x, ks[i].to);
      TakenMore(spots, was, comp, ks[..i], ks[i]);
      OneLonger(ks, i);
      if joins {
        JoinAssociates(q0, added, [ks[i].to]);
        q, added := q + [ks[i].to], added + [ks[i].to];
      }
    }
    Whole(ks);
    AllTakenIsStacked(w, spots, comp, x);
  }

  lemma TrailOnce(w: World, spots: Spots, trail0: seq<Level>, added: seq<Level>, n: nat, x: Level, y: Level)
    requires Trail(w, spots, trail0 + added) && n < |trail0| && trail0[n] == x && y in w.levels && y !in spots && Steps(w, x, y)
    ensures Trail(w, spots, trail0 + added + [y])
  {
    assert (trail0 + added)[n] == x;
    TrailMore(w, spots, trail0 + added, n, y);
  }

  /** What the placing takes as given of the levels. */
  datatype Names = Names(
    mainDeck: set<Level>,
    ground: Level -> bool,
    inPocket: Level -> bool,
    waits: Level -> bool,
    offGround: set<Level>,
    size: Level -> nat)

  /** The base a stack is anchored at: its biggest level, the last by number among equals. */
  ghost predicate IsBiggest(comp: set<Level>, size: Level -> nat, base: Level) {
    base in comp && forall y :: y in comp ==> size(y) < size(base) || (size(y) == size(base) && y <= base)
  }

  /** A whole stack: levels without floors that hang together by ledges, and lead nowhere
      else but to placed levels. */
  ghost predicate IsStack(w: World, spots: Spots, comp: set<Level>) {
    && (exists trail :: Trail(w, spots, trail) && trail != [] && forall y :: y in comp <==> y in trail)
    && (forall y :: y in comp ==> Stacked(w, spots, comp, y))
  }

  ghost predicate BaseOf(w: World, spots: Spots, size: Level -> nat, base: Level, comp: set<Level>) {
    IsStack(w, spots, comp) && IsBiggest(comp, size, base)
  }

  /** Why a level may be put on floor 0: it is a main deck; or outdoor ground outside the
      pockets; or an outdoor cluster that does not wait, once the outdoors is walked; or the
      biggest level of a whole stack, once everything is walked. */
  ghost predicate Decree(w: World, names: Names, spots: Spots, p: Placement) {
    match p.spot.anchor
    case MainDeck => p.level in names.mainDeck
    case OutdoorGround =>
      && w.isOut(p.level)
      && ((names.ground(p.level) && !names.inPocket(p.level)) || (!names.waits(p.level) && AllWalked(w, spots, w.isOut)))
    case Default => AllWalked(w, spots, Any) && exists comp :: BaseOf(w, spots, names.size, p.level, comp)
    case _ => false
  }

  ghost predicate DecreedAt(w: World, names: Names, trace: seq<Placement>, i: nat) {
    i < |trace| && (trace[i].why.Zero? ==> Decree(w, names, SpotsOf(trace[..i]), trace[i]))
  }

  /** Every level put on floor 0 was put there for a reason. */
  ghost predicate Decreed(w: World, names: Names, trace: seq<Placement>) {
    forall i: nat {:trigger DecreedAt(w, names, trace, i)} :: i < |trace| ==> DecreedAt(w, names, trace, i)
  }

  lemma DecreedWith(w: World, names: Names, trace: seq<Placement>, p: Placement)
    requires Decreed(w, names, trace) && (p.why.Zero? ==> Decree(w, names, SpotsOf(trace), p))
    ensures Decreed(w, names, trace + [p])
  {
    var more := trace + [p];
    assert more[..|trace|] == trace;
    forall i: nat | i < |more|
      ensures DecreedAt(w, names, more, i)
    {
      assert i < |trace| ==> DecreedAt(w, names, trace, i);
      assert more[..i] == trace[..i];
    }
  }

  /** Every ledge of the map's own rule from a placed level to a wanted one was followed. */
  ghost predicate RulesWalked(w: World, spots: Spots, only: Level -> bool) {
    forall x {:trigger Walked(w, spots, x, only, false)} :: x in spots ==> Walked(w, spots, x, only, false)
  }

  /** The levels a walk may want: those outdoors, or any. */
  ghost predicate Wants(w: World, only: Level -> bool) {
    only == w.isOut || only == Any
  }

  /** From `n` placed on, a reader's ledges are followed too: by then the map's own had been
      followed as far as they go. */
  ghost predicate ReadersFrom(w: World, trace: seq<Placement>, now: seq<Placement>, n: nat, only: Level -> bool) {
    n <= |trace| && Wants(w, only) && RulesWalked(w, SpotsOf(trace[..n]), only) && ByLedges(trace[..n], now, true)
  }

  lemma ReadersGoOn(w: World, was: seq<Placement>, now: seq<Placement>, n: nat, only: Level -> bool, readers: bool)
    requires ByLedges(was, now, readers)
    ensures readers && ReadersFrom(w, was, was, n, only) ==> ReadersFrom(w, now, now, n, only)
  {
    if readers && ReadersFrom(w, was, was, n, only) {
      assert now[..n] == was[..n];
      ByLedgesThrough(was[..n], was, now, true);
    }
  }

  /** A level placed over a reader's ledge was so placed after the map's own ledges, from all
      levels placed before, had been followed as far as they go. */
  ghost predicate ReaderLate(w: World, trace: seq<Placement>, i: nat) {
    i < |trace| && (trace[i].why.Over? && trace[i].why.source == Reader ==>
      exists n: nat, only: Level -> bool ::
        n <= i && only(trace[i].level) && ReadersFrom(w, trace[..i], trace[..i], n, only))
  }

  ghost predicate ReadersLate(w: World, trace: seq<Placement>) {
    forall i: nat {:trigger ReaderLate(w, trace, i)} :: i < |trace| ==> ReaderLate(w, trace, i)
  }

  lemma ReaderIsLate(w: World, trace: seq<Placement>, p: Placement, n: nat, only: Level -> bool, readers: bool)
    requires p.why.Over? && only(p.level) && (readers || p.why.source == Rule)
    requires readers ==> ReadersFrom(w, trace, trace, n, only)
    ensures ReaderLate(w, trace + [p], |trace|)
  {
    assert (trace + [p])[..|trace|] == trace;
  }

  lemma ReadersLateWith(w: World, trace: seq<Placement>, p: Placement)
    requires ReadersLate(w, trace) && ReaderLate(w, trace + [p], |trace|)
    ensures ReadersLate(w, trace + [p])
  {
    var more := trace + [p];
    forall i: nat | i < |more|
      ensures ReaderLate(w, more, i)
    {
      if i < |trace| {
        assert ReaderLate(w, trace, i);
        assert more[..i] == trace[..i];
      }
    }
  }

  /** The trace went on by ledges, and levels put on 0: by default, or else outdoors. */
  ghost predicate ByDecree(was: seq<Placement>, now: seq<Placement>, default: bool) {
    && was <= now
    && forall i {:trigger now[i]} :: |was| <= i < |now| ==>
         now[i].why.Over? || (now[i].why.Zero? && (now[i].spot.anchor == Default <==> default))
  }

  lemma ByDecreeThrough(a: seq<Placement>, b: seq<Placement>, c: seq<Placement>, default: bool)
    requires ByDecree(a, b, default) && ByDecree(b, c, default)
    ensures ByDecree(a, c, default)
  {
    forall i | |a| <= i < |c|
      ensures c[i].why.Over? || (c[i].why.Zero? && (c[i].spot.anchor == Default <==> default))
    {
      if i < |b| {
        assert c[i] == b[i];
      }
    }
  }

  lemma LedgesByDecree(was: seq<Placement>, now: seq<Placement>, default: bool)
    requires ByLedges(was, now, true)
    ensures ByDecree(was, now, default)
  {
  }

  /** The three stages of a placing: outdoors, to where its ledges are walked; through the
      doors, to where nothing moves; and the stacks that are left. */
  ghost predicate Staged(w: World, names: Names, trace: seq<Placement>, a: nat, b: nat) {
    && a <= b <= |trace|
    && ByDecree([], trace[..a], false) && AllWalked(w, SpotsOf(trace[..a]), w.isOut)
    && NoneWaiting(trace[..a], trace[..b], {}) && DoorsLast(w, trace[..a], trace[..b], names.offGround)
    && AllWalked(w, SpotsOf(trace[..b]), Any) && QuietAt(w, SpotsOf(trace[..b]), {})
    && ByDecree(trace[..b], trace, true)
  }

  class Tower {
    const w: World
    const names: Names
    var spots: Spots
    var keys: seq<Level>
    ghost var trace: seq<Placement>

    ghost predicate Valid()
      reads this
    {
      && w.Valid() && Sound(w, trace) && Decreed(w, names, trace) && ReadersLate(w, trace) && spots == SpotsOf(trace)
      && Lists(keys, spots) && |keys| == |trace|
    }

    constructor (w: World, names: Names)
      requires w.Valid()
      ensures Valid() && this.w == w && this.names == names && spots == map[] && trace == []
    {
      this.w, this.names := w, names;
      spots, keys, trace := map[], [], [];
    }

    lemma Bounded()
      requires Valid()
      ensures spots.Keys <= w.levels && |keys| <= |w.levels|
    {
      SpotsWithin(w, trace);
      Fewer(spots.Keys, w.levels);
    }

    /** Gives one level its floor. */
    method Place(l: Level, spot: Spot, ghost why: Why)
      requires Valid() && Fits(w, spots, Placement(l, why, spot))
      requires why.Zero? ==> Decree(w, names, spots, Placement(l, why, spot))
      requires ReaderLate(w, trace + [Placement(l, why, spot)], |trace|)
      modifies this
      ensures Valid() && spots == old(spots)[l := spot]
      ensures keys == old(keys) + [l] && trace == old(trace) + [Placement(l, why, spot)]
    {
      SoundWith(w, trace, Placement(l, why, spot));
      DecreedWith(w, names, trace, Placement(l, why, spot));
      ReadersLateWith(w, trace, Placement(l, why, spot));
      KeysWith(keys, spots, l, spot);
      trace := trace + [Placement(l, why, spot)];
      spots := spots[l := spot];
      keys := keys + [l];
    }

    /** Follows the `i`th ledge of `x`, if it is allowed and its end wanted and not placed. */
    method Follow(x: Level, i: nat, anchor: Anchor, only: Level -> bool, readers: bool, ghost n: nat) returns (placed: bool)
      requires Valid() && x in spots && i < |w.At(x)|
      requires readers ==> ReadersFrom(w, trace, trace, n, only)
      modifies this
      ensures Valid() && Grown(old(spots), spots)
      ensures Followed(spots, w.At(x)[i], only, readers)
      ensures keys == old(keys) + if placed then [w.At(x)[i].to] else []
      ensures ByLedges(old(trace), trace, readers)
    {
      var k := w.At(x)[i];
      placed := Allowed(k, only, readers) && k.to !in spots;
      if placed {
        var spot := Spot(spots[x].floor + k.step, anchor, Worse(k.source, spots[x].source));
        ReaderIsLate(w, trace, Placement(k.to, Over(x, k.step, k.source), spot), n, only, readers);
        OneLedge(trace, Placement(k.to, Over(x, k.step, k.source), spot), readers);
        Place(k.to, spot, Over(x, k.step, k.source));
      }
    }

    /** Places the wanted levels next to `x` that have no floor yet, and queues them. */
    method Spread(x: Level, anchor: Anchor, only: Level -> bool, readers: bool, q0: seq<Level>, ghost n: nat)
      returns (q: seq<Level>, ghost added: seq<Level>)
      requires Valid() && x in spots
      requires readers ==> ReadersFrom(w, trace, trace, n, only)
      modifies this
      ensures Valid() && Grown(old(spots), spots)
      ensures Walked(w, spots, x, only, readers)
      ensures keys == old(keys) + added && q == q0 + added
      ensures ByLedges(old(trace), trace, readers)
    {
      q, added := q0, [];
      var i := 0;
      while i < |w.At(x)|
        invariant 0 <= i <= |w.At(x)| && Valid() && Grown(old(spots), spots)
        invariant AllFollowed(spots, w.At(x)[..i], only, readers)
        invariant readers ==> ReadersFrom(w, trace, trace, n, only)
        invariant keys == old(keys) + added && q == q0 + added
        invariant ByLedges(old(trace), trace, readers)
      {
        ghost var was, traced := spots, trace;
        var placed := Follow(x, i, anchor, only, readers, n);
        ReadersGoOn(w, traced, trace, n, only, readers);
        FollowedMore(was, spots, w.At(x)[..i], w.At(x)[i], only, readers);
        ByLedgesThrough(old(trace), traced, trace, readers);
        OneLonger(w.At(x), i);
        if placed {
          JoinAssociates(old(keys), added, [w.At(x)[i].to]);
          JoinAssociates(q0, added, [w.At(x)[i].to]);
          q, added := q + [w.At(x)[i].to], added + [w.At(x)[i].to];
        }
        i := i + 1;
      }
      Whole(w.At(x));
    }

    /** One round of a walk: from `starts` over the ledges allowed, breadth first. */
    method Round(starts: seq<Level>, anchor: Anchor, only: Level -> bool, readers: bool, ghost from: nat)
      requires Valid() && forall i :: 0 <= i < |starts| ==> starts[i] in spots
      requires readers ==> ReadersFrom(w, trace, trace, from, only)
      modifies this
      ensures Valid() && Grown(old(spots), spots) && old(keys) <= keys
      ensures var work := starts + keys[|old(keys)|..];
              forall j :: 0 <= j < |work| ==> Walked(w, spots, work[j], only, readers)
      ensures ByLedges(old(trace), trace, readers)
    {
      var q := starts;
      Bounded();
      ghost var work, n := starts, 0;
      while q != []
        invariant Valid() && Grown(old(spots), spots) && old(keys) <= keys
        invariant work == starts + keys[|old(keys)|..] && n <= |work| && q == work[n..]
        invariant Working(w, spots, work, n, only, readers)
        invariant |keys| <= |w.levels| && ByLedges(old(trace), trace, readers)
        invariant readers ==> ReadersFrom(w, trace, trace, from, only)
        decreases |w.levels| - |keys|, |q|
      {
        ghost var was, kept, traced, had, added := spots, keys, trace, q, [];
        assert q[0] == work[n];
        q, added := Spread(q[0], anchor, only, readers, q[1..], from);
        ReadersGoOn(w, traced, trace, from, only, readers);
        Bounded();
        ByLedgesThrough(old(trace), traced, trace, readers);
        WorkGrows(starts, old(keys), kept, work, n, had, added);
        WorkingMore(w, was, spots, kept, added, work, n, only, readers);
        work, n := work + added, n + 1;
      }
    }

    /** A walk: the map's own climbs first, then a reader's too, from every level placed.
        Afterwards no wanted level next to a placed one is left without a floor. */
    method Walk(starts: seq<Level>, anchor: Anchor, only: Level -> bool)
      requires Valid() && Wants(w, only) && forall l :: l in starts ==> l in spots
      requires forall x {:trigger Listed(starts, x)} :: x in spots && !Listed(starts, x) ==> Walked(w, spots, x, only, false)
      modifies this
      ensures Valid() && Grown(old(spots), spots) && old(keys) <= keys
      ensures AllWalked(w, spots, only) && ByLedges(old(trace), trace, true)
      ensures RulesFirst(w, starts, old(trace), trace, only)
    {
      Round(starts, anchor, only, false, 0);
      ghost var mid, traced := keys, trace;
      RulesFollowed(starts, keys[|old(keys)|..], only);
      AllRulesFollowed(starts, old(keys), old(spots), only);
      Whole(trace);
      Round(keys, anchor, only, true, |trace|);
      AllWork(w, spots, keys, mid, only);
      FirstRules(starts, only, old(trace), traced);
    }

    lemma RulesFollowed(starts: seq<Level>, rest: seq<Level>, only: Level -> bool)
      requires Valid() && forall j :: 0 <= j < |starts + rest| ==> Walked(w, spots, (starts + rest)[j], only, false)
      ensures forall i :: 0 <= i < |starts| ==> Walked(w, SpotsOf(trace), starts[i], only, false)
    {
      forall i | 0 <= i < |starts|
        ensures Walked(w, spots, starts[i], only, false)
      {
        assert (starts + rest)[i] == starts[i];
      }
    }

    lemma AllRulesFollowed(starts: seq<Level>, keys0: seq<Level>, spots0: Spots, only: Level -> bool)
      requires Valid() && keys0 <= keys && Lists(keys0, spots0) && Grown(spots0, spots)
      requires forall x {:trigger Listed(starts, x)} :: x in spots0 && !Listed(starts, x) ==> Walked(w, spots0, x, only, false)
      requires var work := starts + keys[|keys0|..];
               forall j :: 0 <= j < |work| ==> Walked(w, spots, work[j], only, false)
      ensures RulesWalked(w, SpotsOf(trace), only)
    {
      var work := starts + keys[|keys0|..];
      forall x | x in spots
        ensures Walked(w, spots, x, only, false)
      {
        assert Listed(keys, x);
        var k :| 0 <= k < |keys| && keys[k] == x;
        if Listed(starts, x) {
          var j :| 0 <= j < |starts| && starts[j] == x;
          assert work[j] == x;
        } else if k >= |keys0| {
          assert work[|starts| + k - |keys0|] == x;
        } else {
          assert keys0[k] == x;
          WalkedMore(w, spots0, spots, x, only, false);
        }
      }
    }

    lemma FirstRules(starts: seq<Level>, only: Level -> bool, was: seq<Placement>, mid: seq<Placement>)
      requires ByLedges(was, mid, false) && ByLedges(mid, trace, true)
      requires forall i :: 0 <= i < |starts| ==> Walked(w, SpotsOf(mid), starts[i], only, false)
      ensures ByLedges(was, trace, true) && RulesFirst(w, starts, was, trace, only)
    {
      assert trace[..|mid|] == mid;
      assert ByLedges(was, mid, true);
      ByLedgesThrough(was, mid, trace, true);
    }

    /** After one more level was placed, all but it are walked. */
    lemma OneMoreToWalk(was: Spots, l: Level, only: Level -> bool)
      requires AllWalked(w, was, only) && l !in was && Grown(was, spots) && forall x :: x in spots ==> x in was || x == l
      ensures forall x {:trigger Listed([l], x)} :: x in spots && !Listed([l], x) ==> Walked(w, spots, x, only, false)
    {
      assert [l][0] == l;
      forall x | x in spots && !Listed([l], x)
        ensures Walked(w, spots, x, only, false)
      {
        assert Walked(w, was, x, only, true);
        FewerFollowed(w, was, x, only);
        WalkedMore(w, was, spots, x, only, false);
      }
    }

    lemma FewerFollowed(w: World, spots: Spots, x: Level, only: Level -> bool)
      requires Walked(w, spots, x, only, true)
      ensures Walked(w, spots, x, only, false)
    {
      forall i | 0 <= i < |w.At(x)|
        ensures Followed(spots, w.At(x)[i], only, false)
      {
        assert Followed(spots, w.At(x)[i], only, true);
      }
    }

    // ---------------------------------------------------------------- outdoors

    /** Puts a level on floor 0, and climbs nothing yet. */
    method PlaceZero(l: Level, anchor: Anchor)
      requires Valid() && l in w.levels && l !in spots
      requires Decree(w, names, spots, Placement(l, Zero, Spot(0, anchor, Rule)))
      modifies this
      ensures Valid() && spots == old(spots)[l := Spot(0, anchor, Rule)] && keys == old(keys) + [l]
      ensures ByDecree(old(trace), trace, anchor == Default)
    {
      Place(l, Spot(0, anchor, Rule), Zero);
    }

    method PlaceMainDecks()
      requires Valid() && names.mainDeck <= w.levels && spots == map[]
      modifies this
      ensures Valid() && spots.Keys == names.mainDeck && ByDecree(old(trace), trace, false)
      ensures forall l :: l in names.mainDeck ==> l in spots && spots[l] == Spot(0, MainDeck, Rule)
    {
      var todo := names.mainDeck;
      while todo != {}
        invariant Valid() && todo <= names.mainDeck && spots.Keys == names.mainDeck - todo && ByDecree(old(trace), trace, false)
        invariant forall l :: l in spots ==> spots[l] == Spot(0, MainDeck, Rule)
      {
        var l :| l in todo;
        todo := todo - {l};
        ghost var traced := trace;
        PlaceZero(l, MainDeck);
        ByDecreeThrough(old(trace), traced, trace, false);
      }
    }

    /** Outdoor ground, outside the pockets. */
    predicate IsGround(l: Level)
      reads this
    {
      w.isOut(l) && names.ground(l) && !names.inPocket(l)
    }

    /** Outdoor ground outside the pockets is floor 0, unless it has a floor. */
    method PlaceGround(order: seq<Level>)
      requires Valid() && forall i :: 0 <= i < |order| ==> order[i] in w.levels
      modifies this
      ensures Valid() && Grown(old(spots), spots) && ByDecree(old(trace), trace, false)
      ensures forall i :: 0 <= i < |order| && IsGround(order[i]) ==> order[i] in spots
      ensures forall l :: l in spots && l !in old(spots) ==> spots[l] == Spot(0, OutdoorGround, Rule)
    {
      for n := 0 to |order|
        invariant Valid() && Grown(old(spots), spots) && ByDecree(old(trace), trace, false)
        invariant forall i :: 0 <= i < n && IsGround(order[i]) ==> order[i] in spots
        invariant forall l :: l in spots && l !in old(spots) ==> spots[l] == Spot(0, OutdoorGround, Rule)
      {
        var l := order[n];
        if l !in spots && IsGround(l) {
          ghost var traced := trace;
          PlaceZero(l, OutdoorGround);
          ByDecreeThrough(old(trace), traced, trace, false);
        }
      }
    }

    /** One outdoor cluster is ground of its own, and what is above it outdoors is climbed to. */
    method PlaceCluster(l: Level)
      requires Valid() && l in w.levels && l !in spots && w.isOut(l) && !names.waits(l)
      requires AllWalked(w, spots, w.isOut)
      modifies this
      ensures Valid() && Grown(old(spots), spots) && AllWalked(w, spots, w.isOut) && l in spots
      ensures ByDecree(old(trace), trace, false)
    {
      PlaceZero(l, OutdoorGround);
      ghost var placed, traced := spots, trace;
      OneMoreToWalk(old(spots), l, w.isOut);
      Walk([l], OutdoorClimb, w.isOut);
      LedgesByDecree(traced, trace, false);
      ByDecreeThrough(old(trace), traced, trace, false);
      assert Grown(placed, spots);
    }

    /** Outdoor clusters that nothing placed are ground of their own, biggest first, unless
        they wait for the building under them. */
    method PlaceClusters(order: seq<Level>)
      requires Valid() && forall i :: 0 <= i < |order| ==> order[i] in w.levels
      requires AllWalked(w, spots, w.isOut)
      modifies this
      ensures Valid() && Grown(old(spots), spots) && AllWalked(w, spots, w.isOut) && ByDecree(old(trace), trace, false)
      ensures forall i :: 0 <= i < |order| && w.isOut(order[i]) && !names.waits(order[i]) ==> order[i] in spots
    {
      for n := 0 to |order|
        invariant Valid() && Grown(old(spots), spots) && AllWalked(w, spots, w.isOut) && ByDecree(old(trace), trace, false)
        invariant forall i :: 0 <= i < n && w.isOut(order[i]) && !names.waits(order[i]) ==> order[i] in spots
      {
        var l := order[n];
        if w.isOut(l) && l !in spots && !names.waits(l) {
          ghost var was, traced := spots, trace;
          PlaceCluster(l);
          ByDecreeThrough(old(trace), traced, trace, false);
          assert Grown(was, spots);
        }
      }
    }

    // ------------------------------------------------- indoors, from the doors

    /** Gathers, for each indoor level without a floor that is not to wait, the floors its
        doors open on. */
    method Touches(waiting: set<Level>) returns (touch: map<Level, seq<int>>)
      requires Valid()
      ensures forall l :: l in touch <==> l !in spots && l !in waiting && Touching(w.doors, spots, l) != []
      ensures forall l :: l in touch ==> touch[l] == Touching(w.doors, spots, l)
    {
      touch := map[];
      for i := 0 to |w.doors|
        invariant forall l :: l in touch <==> l !in spots && l !in waiting && Touching(w.doors[..i], spots, l) != []
        invariant forall l :: l in touch ==> touch[l] == Touching(w.doors[..i], spots, l)
      {
        var d := w.doors[i];
        assert w.doors[..i + 1][..i] == w.doors[..i];
        if d.outer in spots && d.inner !in spots && d.inner !in waiting {
          var had := if d.inner in touch then touch[d.inner] else [];
          touch := touch[d.inner := had + [spots[d.outer].floor]];
        }
      }
      assert w.doors[..|w.doors|] == w.doors;
    }

    /** Gives one indoor level the floor most of its doors open on. */
    method PlaceInward(l: Level, fs: seq<int>)
      requires Valid() && l !in spots && fs != [] && fs == Touching(w.doors, spots, l)
      modifies this
      ensures Valid() && Grown(old(spots), spots) && spots.Keys == old(spots.Keys) + {l}
      ensures keys == old(keys) + [l] && !w.isOut(l)
      ensures forall waiting :: l !in waiting ==> NoneWaiting(old(trace), trace, waiting)
    {
      var v := Commonest(fs);
      TouchingHas(w.doors, spots, l, v);
      ghost var o :| o in spots && Door(l, o) in w.doors && spots[o].floor == v;
      Place(l, Spot(v, Doorway, Rule), Inward(o));
    }

    /** Places every touched level, in ascending order. */
    method PlaceTouched(touch: map<Level, seq<int>>, ghost waiting: set<Level>)
      requires Valid() && forall l :: l in touch ==> l !in waiting
      requires forall l :: l in touch ==> l !in spots && touch[l] != [] && touch[l] == Touching(w.doors, spots, l)
      modifies this
      ensures Valid() && Grown(old(spots), spots) && old(keys) <= keys
      ensures spots.Keys == old(spots.Keys) + touch.Keys
      ensures NoneWaiting(old(trace), trace, waiting)
    {
      var todo := touch.Keys;
      while todo != {}
        invariant Valid() && Grown(old(spots), spots) && old(keys) <= keys && todo <= touch.Keys
        invariant spots.Keys == old(spots.Keys) + (touch.Keys - todo)
        invariant forall l :: l in spots && l !in old(spots) ==> !w.isOut(l)
        invariant NoneWaiting(old(trace), trace, waiting)
      {
        LeastExists(todo);
        var l :| Least(todo, l);
        TouchingSame(w.doors, old(spots), spots, l);
        ghost var traced := trace;
        PlaceInward(l, touch[l]);
        NoneWaitingThrough(old(trace), traced, trace, waiting);
        todo := todo - {l};
      }
    }

    /** A balcony waiting outside takes the floor of the room it opens on. */
    method PlaceOutward(ghost waiting: set<Level>)
      requires Valid()
      modifies this
      ensures Valid() && Grown(old(spots), spots) && old(keys) <= keys
      ensures forall i :: 0 <= i < |w.doors| && w.doors[i].inner in old(spots) ==> w.doors[i].outer in spots
      ensures NoneWaiting(old(trace), trace, waiting)
    {
      for n := 0 to |w.doors|
        invariant Valid() && Grown(old(spots), spots) && old(keys) <= keys
        invariant forall i :: 0 <= i < n && w.doors[i].inner in old(spots) ==> w.doors[i].outer in spots
        invariant NoneWaiting(old(trace), trace, waiting)
      {
        var d := w.doors[n];
        if d.outer !in spots && d.inner in spots {
          assert d == Door(d.inner, d.outer);
          ghost var traced := trace;
          Place(d.outer, Spot(spots[d.inner].floor, Doorway, spots[d.inner].source), Outward(d.inner));
          NoneWaitingThrough(old(trace), traced, trace, waiting);
        }
      }
    }

    lemma TouchesAll(touch: map<Level, seq<int>>, was: Spots, waiting: set<Level>)
      requires forall l :: l in touch <==> l !in was && l !in waiting && Touching(w.doors, was, l) != []
      requires spots.Keys == was.Keys + touch.Keys
      ensures forall i :: 0 <= i < |w.doors| && w.doors[i].outer in was ==>
                w.doors[i].inner in spots || w.doors[i].inner in waiting
    {
      forall i | 0 <= i < |w.doors| && w.doors[i].outer in was
        ensures w.doors[i].inner in spots || w.doors[i].inner in waiting
      {
        TouchingSome(w.doors, was, i);
      }
    }

    /** One pass over the doors, each way, with a walk after each. A pass that places
        nothing leaves the doors quiet. */
    method Pass(waiting: set<Level>)
      requires Valid()
      modifies this
      ensures Valid() && Grown(old(spots), spots) && old(keys) <= keys
      ensures AllWalked(w, spots, Any) && NoneWaiting(old(trace), trace, waiting)
      ensures keys == old(keys) ==> QuietAt(w, spots, waiting)
    {
      var touch := Touches(waiting);
      PlaceTouched(touch, waiting);
      TouchesAll(touch, old(spots), waiting);
      WalkOn(waiting);
      ghost var traced := trace;
      OutwardOn(waiting);
      NoneWaitingThrough(old(trace), traced, trace, waiting);
      if keys == old(keys) {
        SameKeys(keys, old(spots), spots);
      }
    }

    /** A walk over all ledges from everywhere. */
    method WalkOn(ghost waiting: set<Level>)
      requires Valid()
      modifies this
      ensures Valid() && Grown(old(spots), spots) && old(keys) <= keys && AllWalked(w, spots, Any)
      ensures NoneWaiting(old(trace), trace, waiting)
      ensures RulesFirst(w, old(keys), old(trace), trace, Any)
    {
      Walk(keys, Stack, Any);
    }

    /** The balconies, and a walk from them. */
    method OutwardOn(ghost waiting: set<Level>)
      requires Valid()
      modifies this
      ensures Valid() && Grown(old(spots), spots) && old(keys) <= keys && AllWalked(w, spots, Any)
      ensures NoneWaiting(old(trace), trace, waiting)
      ensures forall i :: 0 <= i < |w.doors| && w.doors[i].inner in old(spots) ==> w.doors[i].outer in spots
    {
      PlaceOutward(waiting);
      ghost var placed, traced := spots, trace;
      WalkOn(waiting);
      NoneWaitingThrough(old(trace), traced, trace, waiting);
      assert Grown(placed, spots);
    }

    /** Repeats the passes until nothing moves: first with the levels whose names say off
        the ground waiting, then with none. The original does both in one loop. */
    method PlaceIndoors(offGround: set<Level>)
      requires Valid()
      modifies this
      ensures Valid() && Grown(old(spots), spots)
      ensures AllWalked(w, spots, Any) && QuietAt(w, spots, {})
      ensures DoorsLast(w, old(trace), trace, offGround) && NoneWaiting(old(trace), trace, {})
    {
      PassUntilQuiet(offGround);
      ghost var kept, turned := spots, trace;
      NoneWaitingLess(old(trace), turned, offGround);
      if offGround != {} {
        PassUntilQuiet({});
        NoneWaitingThrough(old(trace), turned, trace, {});
      }
      assert trace[..|turned|] == turned;
      assert Grown(kept, spots);
    }

    /** Passes until one places nothing. */
    method PassUntilQuiet(waiting: set<Level>)
      requires Valid()
      modifies this
      ensures Valid() && Grown(old(spots), spots)
      ensures AllWalked(w, spots, Any) && QuietAt(w, spots, waiting)
      ensures NoneWaiting(old(trace), trace, waiting)
    {
      Bounded();
      while true
        invariant Valid() && Grown(old(spots), spots) && |keys| <= |w.levels|
        invariant NoneWaiting(old(trace), trace, waiting)
        decreases |w.levels| - |keys|
      {
        ghost var was, traced, before := spots, trace, keys;
        var many := |keys|;
        Pass(waiting);
        Bounded();
        NoneWaitingThrough(old(trace), traced, trace, waiting);
        assert Grown(was, spots);
        if |keys| == many {
          assert keys == before;
          return;
        }
      }
    }

    // ---------------------------------------------------------- what is left

    /** The stack of levels without floors that `start` belongs to. */
    method StackOf(start: Level) returns (comp: set<Level>, ghost trail: seq<Level>)
      requires Valid() && start in w.levels && start !in spots
      ensures Trail(w, spots, trail) && trail != [] && trail[0] == start
      ensures forall y :: y in comp <==> y in trail
      ensures forall y :: y in comp ==> Stacked(w, spots, comp, y)
    {
      comp, trail := {start}, [start];
      var q := [start];
      ghost var n := 0;
      StackWithin(trail, comp);
      while q != []
        invariant Trail(w, spots, trail) && trail != [] && trail[0] == start
        invariant Gathered(w, spots, comp, trail, n) && q == trail[n..] && |comp| <= |w.levels|
        decreases |w.levels| - |comp|, |q|
      {
        ghost var had, was, added := q, comp, [];
        assert q[0] == trail[n];
        comp, q, added := Gather(w, spots, n, comp, q[1..], trail, q[0]);
        GatheredMore(w, spots, was, comp, trail, added, n);
        WorkGrows([], [], trail, trail, n, had, added);
        trail, n := trail + added, n + 1;
        StackWithin(trail, comp);
      }
      forall y | y in comp
        ensures Stacked(w, spots, comp, y)
      {
        var j :| 0 <= j < |trail| && trail[j] == y;
        assert Stacked(w, spots, comp, trail[j]);
      }
    }

    lemma StackWithin(trail: seq<Level>, comp: set<Level>)
      requires Trail(w, spots, trail) && forall y :: y in comp <==> y in trail
      ensures |comp| <= |w.levels|
    {
      Fewer(comp, w.levels);
    }

    /** Anchors the stack `l` belongs to at its biggest level, and climbs from there. */
    method PlaceStack(l: Level)
      requires Valid() && l in w.levels && l !in spots && AllWalked(w, spots, Any)
      modifies this
      ensures Valid() && Grown(old(spots), spots) && AllWalked(w, spots, Any) && l in spots
      ensures ByDecree(old(trace), trace, true)
    {
      var comp, trail := StackOf(l);
      assert trail[0] in comp;
      var base := Biggest(comp, names.size);
      ghost var j :| 0 <= j < |trail| && trail[j] == base;
      assert IsStack(w, spots, comp) && BaseOf(w, spots, names.size, base, comp);
      ClimbFrom(base, trail, j);
    }

    /** Puts the base of a stack on 0 and climbs to the rest of it. */
    method ClimbFrom(base: Level, ghost trail: seq<Level>, ghost j: nat)
      requires Valid() && Trail(w, spots, trail) && j < |trail| && trail[j] == base && AllWalked(w, spots, Any)
      requires Decree(w, names, spots, Placement(base, Zero, Spot(0, Default, Rule)))
      modifies this
      ensures Valid() && Grown(old(spots), spots) && AllWalked(w, spots, Any) && trail[0] in spots
      ensures ByDecree(old(trace), trace, true)
    {
      PlaceZero(base, Default);
      ghost var placed, traced := spots, trace;
      OneMoreToWalk(old(spots), base, Any);
      Walk([base], Default, Any);
      PlacedBack(w, old(spots), spots, trail, j);
      LedgesByDecree(traced, trace, true);
      ByDecreeThrough(old(trace), traced, trace, true);
      assert Grown(placed, spots);
    }

    /** Gives every level left a floor. */
    method PlaceRest(order: seq<Level>)
      requires Valid() && forall l :: l in w.levels ==> l in order
      requires forall i :: 0 <= i < |order| ==> order[i] in w.levels
      requires AllWalked(w, spots, Any)
      modifies this
      ensures Valid() && Grown(old(spots), spots) && AllWalked(w, spots, Any) && ByDecree(old(trace), trace, true)
      ensures spots.Keys == w.levels
    {
      for n := 0 to |order|
        invariant Valid() && Grown(old(spots), spots) && AllWalked(w, spots, Any) && ByDecree(old(trace), trace, true)
        invariant forall i :: 0 <= i < n ==> order[i] in spots
      {
        if order[n] !in spots {
          ghost var was, traced := spots, trace;
          PlaceStack(order[n]);
          ByDecreeThrough(old(trace), traced, trace, true);
          assert Grown(was, spots);
        }
      }
      Bounded();
    }

    /** The first stage: everything outdoors. */
    method PlaceOutdoors(order: seq<Level>, clusters: seq<Level>)
      requires Valid() && names.mainDeck <= w.levels && spots == map[] && trace == []
      requires forall i :: 0 <= i < |order| ==> order[i] in w.levels
      requires forall i :: 0 <= i < |clusters| ==> clusters[i] in w.levels
      modifies this
      ensures Valid() && AllWalked(w, spots, w.isOut) && ByDecree([], trace, false)
      ensures forall l :: l in names.mainDeck ==> l in spots && spots[l] == Spot(0, MainDeck, Rule)
      ensures forall i :: 0 <= i < |order| && IsGround(order[i]) ==> order[i] in spots && spots[order[i]].floor == 0
      ensures forall i :: 0 <= i < |clusters| && w.isOut(clusters[i]) && !names.waits(clusters[i]) ==> clusters[i] in spots
    {
      PlaceMainDecks();
      ghost var decks, traced := spots, trace;
      PlaceGround(order);
      ByDecreeThrough([], traced, trace, false);
      ghost var grounds := spots;
      traced := trace;
      Walk(keys, OutdoorClimb, w.isOut);
      LedgesByDecree(traced, trace, false);
      ByDecreeThrough([], traced, trace, false);
      ghost var walked := spots;
      traced := trace;
      PlaceClusters(clusters);
      ByDecreeThrough([], traced, trace, false);
      assert Grown(decks, grounds) && Grown(grounds, walked) && Grown(walked, spots);
    }
  }

  method Biggest(comp: set<Level>, size: Level -> nat) returns (base: Level)
    requires comp != {}
    ensures IsBiggest(comp, size, base)
  {
    var first :| first in comp;
    base := first;
    var todo := comp;
    while todo != {}
      invariant todo <= comp && base in comp
      invariant forall y :: y in comp && y !in todo ==> size(y) < size(base) || (size(y) == size(base) && y <= base)
    {
      var y :| y in todo;
      todo := todo - {y};
      if size(base) < size(y) || (size(base) == size(y) && base < y) {
        base := y;
      }
    }
  }

  /** Floors for all levels, in three stages, each placement resting on the ones before it
      and each level put on floor 0 for its reason. `order`, `clusters` and `rest` list the
      levels in the orders the three steps take them. */
  method FloorsOf(w: World, names: Names, order: seq<Level>, clusters: seq<Level>, rest: seq<Level>)
    returns (spots: Spots, ghost trace: seq<Placement>, ghost a: nat, ghost b: nat)
    requires w.Valid() && names.mainDeck <= w.levels
    requires forall l :: l in w.levels ==> l in rest
    requires forall i :: 0 <= i < |order| ==> order[i] in w.levels
    requires forall i :: 0 <= i < |clusters| ==> clusters[i] in w.levels
    requires forall i :: 0 <= i < |rest| ==> rest[i] in w.levels
    ensures Sound(w, trace) && Decreed(w, names, trace) && Staged(w, names, trace, a, b) && ReadersLate(w, trace)
    ensures spots == SpotsOf(trace) && spots.Keys == w.levels && AllWalked(w, spots, Any)
    ensures forall l :: l in names.mainDeck ==> spots[l] == Spot(0, MainDeck, Rule)
    ensures forall i :: 0 <= i < |order| && w.isOut(order[i]) && names.ground(order[i]) && !names.inPocket(order[i]) ==>
              spots[order[i]].floor == 0
    ensures forall i :: 0 <= i < |clusters| && w.isOut(clusters[i]) && !names.waits(clusters[i]) ==>
              clusters[i] in SpotsOf(trace[..a])
  {
    var tower := new Tower(w, names);
    tower.PlaceOutdoors(order, clusters);
    ghost var outdoors, first := tower.spots, tower.trace;
    tower.PlaceIndoors(names.offGround);
    ghost var indoors, second := tower.spots, tower.trace;
    tower.PlaceRest(rest);
    spots, trace, a, b := tower.spots, tower.trace, |first|, |second|;
    assert trace[..a] == first && trace[..b] == second;
    assert Grown(outdoors, indoors) && Grown(indoors, spots);
  }
}
