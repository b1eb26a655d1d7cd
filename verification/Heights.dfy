/** Placing levels on floors: what each floor rests on, and what the floors add up to. */
module Heights {
  import opened Levels

  type Level = Room

  /** A climb from a level to the level `to`. */
  datatype Ledge = Ledge(to: Level, step: int, source: Source)

  /** A level move between an indoor and an outdoor level. */
  datatype Door = Door(inner: Level, outer: Level)

  datatype Anchor = MainDeck | OutdoorGround | OutdoorClimb | Stack | Doorway | Default

  /** A level's floor, what anchors it, and whether a reader is on the chain. */
  datatype Spot = Spot(floor: int, anchor: Anchor, source: Source)

  type Spots = map<Level, Spot>

  /** A level's ledges; one not listed has none. */
  function LedgesAt(ledges: map<Level, seq<Ledge>>, x: Level): (ks: seq<Ledge>) {
    if x in ledges then ledges[x] else []
  }

  datatype World = World(levels: set<Level>, isOut: Level -> bool, ledges: map<Level, seq<Ledge>>, doors: seq<Door>)
  {
    function At(x: Level): (ks: seq<Ledge>) {
      LedgesAt(ledges, x)
    }

    /** The same climb seen from its other end. */
    ghost predicate Back(x: Level, k: Ledge) {
      Ledge(x, -k.step, k.source) in At(k.to)
    }

    ghost predicate Valid() {
      && (forall x, i :: 0 <= i < |At(x)| ==> At(x)[i].to in levels)
      && (forall x, i {:trigger Back(x, At(x)[i])} :: 0 <= i < |At(x)| ==> Back(x, At(x)[i]))
      && (forall i :: 0 <= i < |doors| ==>
            doors[i].inner in levels && doors[i].outer in levels && !isOut(doors[i].inner) && isOut(doors[i].outer))
    }
  }

  /** Why a level got its floor: by decree 0, over a ledge, or through a door. */
  datatype Why = Zero | Over(from: Level, step: int, source: Source) | Inward(from: Level) | Outward(from: Level)

  datatype Placement = Placement(level: Level, why: Why, spot: Spot)

  // --------------------------------------------------- the floor most doors open on

  function Count(fs: seq<int>, v: int): (n: nat) {
    if fs == [] then 0 else Count(fs[..|fs| - 1], v) + if fs[|fs| - 1] == v then 1 else 0
  }

  /** `v`, first met at `k`, occurs more often than anything before it, and nothing
      occurs more often. */
  ghost predicate CommonAt(fs: seq<int>, v: int, k: nat) {
    && k < |fs| && fs[k] == v
    && (forall u :: Count(fs, u) <= Count(fs, v))
    && (forall j :: 0 <= j < k ==> Count(fs, fs[j]) < Count(fs, v))
  }

  ghost predicate MostCommon(fs: seq<int>, v: int) {
    exists k :: CommonAt(fs, v, k)
  }

  /** The floors of the placed outdoor levels that open onto `l`, door by door. */
  function Touching(doors: seq<Door>, spots: Spots, l: Level): (fs: seq<int>) {
    if doors == [] then []
    else
      var rest, d := Touching(doors[..|doors| - 1], spots, l), doors[|doors| - 1];
      if d.inner == l && d.outer in spots then rest + [spots[d.outer].floor] else rest
  }

  lemma {:induction false} CountedIsThere(fs: seq<int>, v: int)
    ensures Count(fs, v) > 0 <==> v in fs
  {
    if fs != [] {
      CountedIsThere(fs[..|fs| - 1], v);
      assert fs == fs[..|fs| - 1] + [fs[|fs| - 1]];
    }
  }

  /** The commonest of the floors, the first met among equals. */
  method Commonest(fs: seq<int>) returns (v: int)
    requires fs != []
    ensures MostCommon(fs, v)
  {
    v := fs[0];
    ghost var at := 0;
    for i := 1 to |fs|
      invariant 0 <= at < i && fs[at] == v
      invariant forall j :: 0 <= j < i ==> Count(fs, fs[j]) <= Count(fs, v)
      invariant forall j :: 0 <= j < at ==> Count(fs, fs[j]) < Count(fs, v)
    {
      if Count(fs, fs[i]) > Count(fs, v) {
        v, at := fs[i], i;
      }
    }
    forall u
      ensures Count(fs, u) <= Count(fs, v)
    {
      CountedIsThere(fs, u);
    }
    assert CommonAt(fs, v, at);
  }

  lemma {:induction false} TouchingHas(doors: seq<Door>, spots: Spots, l: Level, v: int)
    requires v in Touching(doors, spots, l)
    ensures exists o :: o in spots && Door(l, o) in doors && spots[o].floor == v
  {
    var front, d := doors[..|doors| - 1], doors[|doors| - 1];
    if v in Touching(front, spots, l) {
      TouchingHas(front, spots, l, v);
      var o :| o in spots && Door(l, o) in front && spots[o].floor == v;
      assert Door(l, o) in doors;
    } else {
      assert d == Door(l, d.outer);
    }
  }

  /** Only the placed outdoor levels matter to what touches a level. */
  lemma {:induction false} TouchingSame(doors: seq<Door>, was: Spots, now: Spots, l: Level)
    requires forall i :: 0 <= i < |doors| ==> (doors[i].outer in was <==> doors[i].outer in now)
    requires forall i :: 0 <= i < |doors| && doors[i].outer in was ==> now[doors[i].outer] == was[doors[i].outer]
    ensures Touching(doors, was, l) == Touching(doors, now, l)
  {
    if doors != [] {
      TouchingSame(doors[..|doors| - 1], was, now, l);
    }
  }

  lemma {:induction false} TouchingSome(doors: seq<Door>, spots: Spots, i: nat)
    requires i < |doors| && doors[i].outer in spots
    ensures Touching(doors, spots, doors[i].inner) != []
  {
    if i < |doors| - 1 {
      TouchingSome(doors[..|doors| - 1], spots, i);
    }
  }

  // ----------------------------------------------------- sound placements

  function Worse(a: Source, b: Source): (s: Source) {
    if a == Reader || b == Reader then Reader else Rule
  }

  /** The placement rests on what was placed before it, and moves nothing. */
  ghost predicate Fits(w: World, spots: Spots, p: Placement) {
    && p.level in w.levels && p.level !in spots
    && match p.why
       case Zero => p.spot.floor == 0 && p.spot.source == Rule
       case Over(x, s, src) =>
         && x in spots && Ledge(p.level, s, src) in w.At(x)
         && p.spot.floor == spots[x].floor + s && p.spot.source == Worse(src, spots[x].source)
       case Inward(o) =>
         && o in spots && Door(p.level, o) in w.doors && p.spot == Spot(spots[o].floor, Doorway, Rule)
         && MostCommon(Touching(w.doors, spots, p.level), p.spot.floor)
       case Outward(i) =>
         && i in spots && Door(i, p.level) in w.doors && p.spot == Spot(spots[i].floor, Doorway, spots[i].source)
  }

  function SpotsOf(trace: seq<Placement>): (spots: Spots) {
    if trace == [] then map[]
    else
      var p := trace[|trace| - 1];
      SpotsOf(trace[..|trace| - 1])[p.level := p.spot]
  }

  /** The `i`th placement fits what the ones before it placed. */
  ghost predicate PlacedAt(w: World, trace: seq<Placement>, i: nat) {
    i < |trace| && Fits(w, SpotsOf(trace[..i]), trace[i])
  }

  ghost predicate Sound(w: World, trace: seq<Placement>) {
    forall i: nat {:trigger PlacedAt(w, trace, i)} :: i < |trace| ==> PlacedAt(w, trace, i)
  }

  lemma SoundFront(w: World, trace: seq<Placement>)
    requires Sound(w, trace) && trace != []
    ensures Sound(w, trace[..|trace| - 1]) && Fits(w, SpotsOf(trace[..|trace| - 1]), trace[|trace| - 1])
  {
    var front := trace[..|trace| - 1];
    assert PlacedAt(w, trace, |trace| - 1);
    forall i: nat | i < |front|
      ensures PlacedAt(w, front, i)
    {
      assert PlacedAt(w, trace, i);
      assert front[..i] == trace[..i];
    }
  }

  lemma SoundWith(w: World, trace: seq<Placement>, p: Placement)
    requires Sound(w, trace) && Fits(w, SpotsOf(trace), p)
    ensures Sound(w, trace + [p]) && SpotsOf(trace + [p]) == SpotsOf(trace)[p.level := p.spot]
  {
    var more := trace + [p];
    assert more[..|trace|] == trace;
    forall i: nat | i < |more|
      ensures PlacedAt(w, more, i)
    {
      assert i < |trace| ==> PlacedAt(w, trace, i);
      assert more[..i] == trace[..i];
    }
  }

  lemma {:induction false} SpotsWithin(w: World, trace: seq<Placement>)
    requires Sound(w, trace)
    ensures SpotsOf(trace).Keys <= w.levels && |SpotsOf(trace)| == |trace|
  {
    if trace != [] {
      SoundFront(w, trace);
      SpotsWithin(w, trace[..|trace| - 1]);
    }
  }

  // -------------------------------------------------- the floors add up

  /** A height for every level such that each ledge rises by its step. */
  ghost predicate FitsLedges(w: World, height: Level -> int) {
    forall x, i :: 0 <= i < |w.At(x)| ==> height(w.At(x)[i].to) == height(x) + w.At(x)[i].step
  }

  /** The heights agree with every placement that no ledge explains. */
  ghost predicate FitsAnchors(trace: seq<Placement>, height: Level -> int) {
    forall i :: 0 <= i < |trace| && !trace[i].why.Over? ==> trace[i].spot.floor == height(trace[i].level)
  }

  ghost predicate AllAt(spots: Spots, height: Level -> int) {
    forall l :: l in spots ==> spots[l].floor == height(l)
  }

  /** Heights that fit the ledges are the floors exactly when they fit the anchors. */
  lemma {:induction false} FloorsAreTheHeights(w: World, trace: seq<Placement>, height: Level -> int)
    requires Sound(w, trace) && FitsLedges(w, height)
    ensures AllAt(SpotsOf(trace), height) <==> FitsAnchors(trace, height)
  {
    if trace != [] {
      var front, p := trace[..|trace| - 1], trace[|trace| - 1];
      SoundFront(w, trace);
      FloorsAreTheHeights(w, front, height);
      var before, after := SpotsOf(front), SpotsOf(trace);
      if AllAt(after, height) {
        assert AllAt(before, height) by {
          forall l | l in before
            ensures before[l].floor == height(l)
          {
            assert after[l] == before[l];
          }
        }
        assert after[p.level].floor == height(p.level);
        assert FitsAnchors(front, height);
      }
      if FitsAnchors(trace, height) {
        forall i | 0 <= i < |front| && !front[i].why.Over?
          ensures front[i].spot.floor == height(front[i].level)
        {
          assert trace[i] == front[i];
        }
        if p.why.Over? {
          var i :| 0 <= i < |w.At(p.why.from)| && w.At(p.why.from)[i] == Ledge(p.level, p.why.step, p.why.source);
          assert height(w.At(p.why.from)[i].to) == height(p.why.from) + p.why.step;
        }
      }
    }
  }

  /** Doors that open on the level, and zeros at height 0, are anchors that fit. */
  lemma {:induction false} AnchorsFit(w: World, trace: seq<Placement>, height: Level -> int)
    requires Sound(w, trace) && FitsLedges(w, height)
    requires forall i :: 0 <= i < |w.doors| ==> height(w.doors[i].inner) == height(w.doors[i].outer)
    requires forall i :: 0 <= i < |trace| && trace[i].why.Zero? ==> height(trace[i].level) == 0
    ensures FitsAnchors(trace, height)
  {
    if trace != [] {
      var front, p := trace[..|trace| - 1], trace[|trace| - 1];
      SoundFront(w, trace);
      forall i | 0 <= i < |front| && front[i].why.Zero?
        ensures height(front[i].level) == 0
      {
        assert trace[i] == front[i];
      }
      AnchorsFit(w, front, height);
      FloorsAreTheHeights(w, front, height);
      assert p.spot.floor == height(p.level) || p.why.Over? by {
        assert Fits(w, SpotsOf(front), p);
        match p.why
        case Inward(o) => assert exists i :: 0 <= i < |w.doors| && w.doors[i] == Door(p.level, o);
        case Outward(x) => assert exists i :: 0 <= i < |w.doors| && w.doors[i] == Door(x, p.level);
        case Zero => assert trace[|trace| - 1].why.Zero?;
        case Over(_, _, _) =>
      }
      forall i | 0 <= i < |trace| && !trace[i].why.Over?
        ensures trace[i].spot.floor == height(trace[i].level)
      {
        if i < |front| {
          assert trace[i] == front[i];
        }
      }
    }
  }
}
