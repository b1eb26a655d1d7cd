/** Floors and heights that fit: they agree up to one shift for each stack that is put on 0. */
module Shifts {
  import opened Levels
  import opened Heights
  import opened Floors
  import opened Conflicts
  import opened Cuts

  type ShiftMap = map<Level, int>

  /** How far below its height each level was placed: what a level put on 0 has of height,
      handed on by ledges and doors. */
  ghost function ShiftOf(trace: seq<Placement>, height: Level -> int): (shift: ShiftMap)
    ensures shift.Keys == SpotsOf(trace).Keys
  {
    if trace == [] then map[]
    else
      var shift, p := ShiftOf(trace[..|trace| - 1], height), trace[|trace| - 1];
      shift[p.level := Handed(shift, p, height)]
  }

  function Handed(shift: ShiftMap, p: Placement, height: Level -> int): (s: int) {
    match p.why
    case Zero => height(p.level)
    case Over(x, _, _) => At(shift, x)
    case Inward(o) => At(shift, o)
    case Outward(i) => At(shift, i)
  }

  function At(shift: ShiftMap, l: Level): (s: int) {
    if l in shift then shift[l] else 0
  }

  lemma OneMorePlaced(trace: seq<Placement>, p: Placement, height: Level -> int)
    ensures SpotsOf(trace + [p]) == SpotsOf(trace)[p.level := p.spot]
    ensures ShiftOf(trace + [p], height).Keys == SpotsOf(trace).Keys + {p.level}
    ensures forall l :: l in SpotsOf(trace) && l != p.level ==> ShiftOf(trace + [p], height)[l] == ShiftOf(trace, height)[l]
    ensures ShiftOf(trace + [p], height)[p.level] == Handed(ShiftOf(trace, height), p, height)
  {
    InitOfAppend(trace, p);
  }

  ghost predicate EvenDoors(w: World, height: Level -> int) {
    forall i :: 0 <= i < |w.doors| ==> height(w.doors[i].inner) == height(w.doors[i].outer)
  }

  ghost predicate FloorsShifted(trace: seq<Placement>, height: Level -> int) {
    forall l :: l in SpotsOf(trace) ==> SpotsOf(trace)[l].floor == height(l) - ShiftOf(trace, height)[l]
  }

  /** Heights that fit the ledges and the doors are the floors, each but for its shift. */
  lemma {:induction false} FloorsAreShifted(w: World, trace: seq<Placement>, height: Level -> int)
    requires Sound(w, trace) && FitsLedges(w, height) && EvenDoors(w, height)
    ensures FloorsShifted(trace, height)
  {
    if trace != [] {
      var front, p := trace[..|trace| - 1], trace[|trace| - 1];
      SoundFront(w, trace);
      FloorsAreShifted(w, front, height);
      InitAndLast(trace);
      OneMorePlaced(front, p, height);
      match p.why {
        case Zero =>
        case Over(x, s, src) =>
          var i :| 0 <= i < |w.At(x)| && w.At(x)[i] == Ledge(p.level, s, src);
          assert height(w.At(x)[i].to) == height(x) + w.At(x)[i].step;
        case Inward(o) =>
          var i :| 0 <= i < |w.doors| && w.doors[i] == Door(p.level, o);
          assert height(w.doors[i].inner) == height(w.doors[i].outer);
        case Outward(x) =>
          var i :| 0 <= i < |w.doors| && w.doors[i] == Door(x, p.level);
          assert height(w.doors[i].inner) == height(w.doors[i].outer);
      }
    }
  }

  // ------------------------------------------------ one shift for each stack

  lemma {:induction false} SoundTo(w: World, trace: seq<Placement>, n: nat)
    requires Sound(w, trace) && n <= |trace|
    ensures Sound(w, trace[..n]) && SpotsOf(trace[..n]).Keys <= SpotsOf(trace).Keys
    decreases |trace| - n
  {
    if n == |trace| {
      Whole(trace);
    } else {
      SoundTo(w, trace, n + 1);
      var front := trace[..n + 1];
      assert front[..|front| - 1] == trace[..n];
      SoundFront(w, front);
    }
  }

  /** Levels put on 0, but those of the stacks that are left, have height 0. */
  ghost predicate GroundIsZero(trace: seq<Placement>, height: Level -> int) {
    forall i :: 0 <= i < |trace| && trace[i].why.Zero? && trace[i].spot.anchor != Default ==> height(trace[i].level) == 0
  }

  ghost predicate NoShift(trace: seq<Placement>, height: Level -> int) {
    forall l :: l in SpotsOf(trace) ==> ShiftOf(trace, height)[l] == 0
  }

  lemma {:induction false} NotShifted(trace: seq<Placement>, height: Level -> int)
    requires GroundIsZero(trace, height) && forall i :: 0 <= i < |trace| && trace[i].why.Zero? ==> trace[i].spot.anchor != Default
    ensures NoShift(trace, height)
  {
    if trace != [] {
      var front, p := trace[..|trace| - 1], trace[|trace| - 1];
      NotShifted(front, height);
      InitAndLast(trace);
      OneMorePlaced(front, p, height);
    }
  }

  ghost predicate Alike(w: World, trace: seq<Placement>, height: Level -> int, x: Level, y: Level) {
    Steps(w, x, y) && x in SpotsOf(trace) && y in SpotsOf(trace) ==> ShiftOf(trace, height)[x] == ShiftOf(trace, height)[y]
  }

  /** Both ends of a ledge have one shift. */
  ghost predicate AllAlike(w: World, trace: seq<Placement>, height: Level -> int) {
    forall x, y :: Alike(w, trace, height, x, y)
  }

  /** Nothing leads out of what was placed by `s`, and what was placed since has shift `c`. */
  ghost predicate Stretch(w: World, trace: seq<Placement>, height: Level -> int, s: nat, c: int) {
    && s <= |trace| && AllAlike(w, trace, height)
    && (s > 0 ==> AllWalked(w, SpotsOf(trace[..s]), Any))
    && (forall l :: l in SpotsOf(trace) && l !in SpotsOf(trace[..s]) ==> ShiftOf(trace, height)[l] == c)
  }

  lemma NoWayOut(w: World, spots: Spots, x: Level, y: Level)
    requires AllWalked(w, spots, Any) && x in spots && Steps(w, x, y)
    ensures y in spots
  {
    var i :| 0 <= i < |w.At(x)| && w.At(x)[i].to == y;
    assert Walked(w, spots, x, Any, true) && Followed(spots, w.At(x)[i], Any, true);
  }

  lemma BackAgain(w: World, x: Level, y: Level)
    requires w.Valid() && Steps(w, x, y)
    ensures Steps(w, y, x)
  {
    var i :| 0 <= i < |w.At(x)| && w.At(x)[i].to == y;
    assert w.Back(x, w.At(x)[i]);
    var j :| 0 <= j < |w.At(y)| && w.At(y)[j] == Ledge(x, -w.At(x)[i].step, w.At(x)[i].source);
    assert w.At(y)[j].to == x;
  }

  /** One more level over a ledge: it has the stretch's shift, and so has all it leads to. */
  lemma StretchOver(w: World, trace: seq<Placement>, p: Placement, height: Level -> int, s: nat, c: int)
    requires w.Valid() && Sound(w, trace + [p]) && Stretch(w, trace, height, s, c) && p.why.Over?
    ensures Stretch(w, trace + [p], height, s, c)
  {
    var more, from := trace + [p], p.why.from;
    InitOfAppend(trace, p);
    SoundFront(w, more);
    SoundTo(w, trace, s);
    OneMorePlaced(trace, p, height);
    assert more[..s] == trace[..s];
    var before := SpotsOf(trace[..s]);
    assert Steps(w, from, p.level) by {
      var i :| 0 <= i < |w.At(from)| && w.At(from)[i] == Ledge(p.level, p.why.step, p.why.source);
    }
    if s > 0 && from in before {
      NoWayOut(w, before, from, p.level);
    }
    assert ShiftOf(more, height)[p.level] == c;
    forall x, y
      ensures Alike(w, more, height, x, y)
    {
      NewLedge(w, trace, p, height, s, c, x, y);
    }
  }

  lemma NewLedge(w: World, trace: seq<Placement>, p: Placement, height: Level -> int, s: nat, c: int, x: Level, y: Level)
    requires w.Valid() && Stretch(w, trace, height, s, c) && p.level !in SpotsOf(trace) && SpotsOf(trace[..s]).Keys <= SpotsOf(trace).Keys
    requires ShiftOf(trace + [p], height)[p.level] == c
    ensures Alike(w, trace + [p], height, x, y)
  {
    OneMorePlaced(trace, p, height);
    var before := SpotsOf(trace[..s]);
    assert Alike(w, trace, height, x, y);
    if Steps(w, x, y) {
      BackAgain(w, x, y);
      if y == p.level && s > 0 && x in before {
        NoWayOut(w, before, x, y);
      }
      if x == p.level && s > 0 && y in before {
        NoWayOut(w, before, y, x);
      }
    }
  }

  /** A stack is put on 0: nothing leads to it from before, and a new stretch begins. */
  lemma StretchNew(w: World, trace: seq<Placement>, p: Placement, height: Level -> int, s: nat, c: int)
    requires w.Valid() && Stretch(w, trace, height, s, c) && p.why.Zero? && p.level !in SpotsOf(trace)
    requires AllWalked(w, SpotsOf(trace), Any)
    ensures Stretch(w, trace + [p], height, |trace|, height(p.level))
  {
    var more := trace + [p];
    InitOfAppend(trace, p);
    OneMorePlaced(trace, p, height);
    forall x, y
      ensures Alike(w, more, height, x, y)
    {
      assert Alike(w, trace, height, x, y);
      if Steps(w, x, y) {
        BackAgain(w, x, y);
        if y == p.level && x in SpotsOf(trace) {
          NoWayOut(w, SpotsOf(trace), x, y);
        }
        if x == p.level && y in SpotsOf(trace) {
          NoWayOut(w, SpotsOf(trace), y, x);
        }
      }
    }
  }

  lemma {:induction false} StretchTo(w: World, names: Names, trace: seq<Placement>, a: nat, b: nat, height: Level -> int, n: nat)
    returns (s: nat, c: int)
    requires w.Valid() && Sound(w, trace) && Decreed(w, names, trace) && Staged(w, names, trace, a, b)
    requires GroundIsZero(trace, height) && b <= n <= |trace|
    ensures Stretch(w, trace[..n], height, s, c)
    decreases n
  {
    if n == b {
      s, c := 0, 0;
      GroundFront(w, names, trace, a, b, height);
      var front := trace[..b];
      forall x, y
        ensures Alike(w, front, height, x, y)
      {
      }
    } else {
      var front, p := trace[..n - 1], trace[n - 1];
      s, c := StretchTo(w, names, trace, a, b, height, n - 1);
      assert trace[..n] == front + [p];
      SoundTo(w, trace, n);
      SoundFront(w, trace[..n]);
      assert p.why.Over? || (p.why.Zero? && p.spot.anchor == Default);
      if p.why.Over? {
        StretchOver(w, front, p, height, s, c);
      } else {
        assert DecreedAt(w, names, trace, n - 1);
        StretchNew(w, front, p, height, s, c);
        s, c := n - 1, height(p.level);
      }
    }
  }

  /** Nothing placed before the stacks that are left is shifted. */
  lemma GroundFront(w: World, names: Names, trace: seq<Placement>, a: nat, b: nat, height: Level -> int)
    requires Staged(w, names, trace, a, b) && GroundIsZero(trace, height)
    ensures NoShift(trace[..b], height)
  {
    var front := trace[..b];
    forall i | 0 <= i < |front| && front[i].why.Zero?
      ensures front[i].spot.anchor != Default
    {
      assert i < a ==> front[i] == trace[..a][i];
    }
    assert GroundIsZero(front, height);
    NotShifted(front, height);
  }

  /** So both ends of every ledge have one shift. */
  lemma ShiftsAreAlike(w: World, names: Names, trace: seq<Placement>, a: nat, b: nat, height: Level -> int)
    requires w.Valid() && Sound(w, trace) && Decreed(w, names, trace) && Staged(w, names, trace, a, b)
    requires GroundIsZero(trace, height)
    ensures AllAlike(w, trace, height)
  {
    var s, c := StretchTo(w, names, trace, a, b, height, |trace|);
    Whole(trace);
  }

  lemma {:induction false} ShiftKept(w: World, trace: seq<Placement>, height: Level -> int, n: nat, l: Level)
    requires Sound(w, trace) && n <= |trace| && l in SpotsOf(trace[..n])
    ensures l in SpotsOf(trace) && ShiftOf(trace, height)[l] == ShiftOf(trace[..n], height)[l]
    decreases |trace|
  {
    if n < |trace| {
      var front, p := trace[..|trace| - 1], trace[|trace| - 1];
      SoundFront(w, trace);
      assert front[..n] == trace[..n];
      ShiftKept(w, front, height, n, l);
      InitAndLast(trace);
      OneMorePlaced(front, p, height);
    } else {
      Whole(trace);
    }
  }

  // ------------------------------------------------ what is reported then

  /** Where some heights of the rooms fit every merge, doorway and climb between levels, and
      are 0 at the main decks and the outdoor ground: the floors are those heights, shifted by
      one height for each stack that was left; no climb between two levels is reported; and
      no doorway between levels that had floors before the stacks. */
  lemma {:induction false} FloorsFitUpToShifts(rooms: set<Room>, w: World, names: Names, out: Room -> bool, level: Of, merges: seq<Move>,
                                               climbs: seq<Climb>, doorways: seq<Move>, trace: seq<Placement>, a: nat, b: nat,
                                               height: Room -> int, floor: Floor)
    requires Tells(rooms, level, merges)
    requires forall k :: k in level ==> level[k] in level && level[level[k]] == level[k]
    requires WorldFrom(w, out, level, climbs, doorways) && SpotsOf(trace).Keys == w.levels
    requires Sound(w, trace) && Decreed(w, names, trace) && Staged(w, names, trace, a, b)
    requires Even(height, merges) && Even(height, doorways) && GroundIsZero(trace, height)
    requires forall i :: 0 <= i < |climbs| && Between(level, climbs[i]) ==> Rises(height, climbs[i])
    requires floor.Keys == level.Keys && forall k :: k in floor ==> floor[k] == SpotsOf(trace)[level[k]].floor
    ensures forall k :: k in floor ==> floor[k] == height(k) - ShiftOf(trace, height)[level[k]]
    ensures forall k :: k in floor && level[k] in SpotsOf(trace[..b]) ==> floor[k] == height(k)
    ensures forall i :: 0 <= i < |climbs| && Between(level, climbs[i]) ==> floor[climbs[i].b] - floor[climbs[i].a] == climbs[i].step
  {
    WorldFits(rooms, w, out, level, merges, climbs, doorways, height);
    WorldIsValid(w, out, level, climbs, doorways);
    FloorsAreShifted(w, trace, height);
    ShiftsAreAlike(w, names, trace, a, b, height);
    GroundFront(w, names, trace, a, b, height);
    forall l | l in SpotsOf(trace[..b])
      ensures l in SpotsOf(trace) && ShiftOf(trace, height)[l] == 0
    {
      ShiftKept(w, trace, height, b, l);
    }
    ClimbsRise(w, level, climbs, trace, height, floor);
  }

  /** Floors shifted alike at both ends of a climb rise as the heights do. */
  lemma ClimbsRise(w: World, level: Of, climbs: seq<Climb>, trace: seq<Placement>, height: Room -> int, floor: Floor)
    requires Known(climbs, level) && Conflicts.Shows(climbs, level, w.ledges) && AllAlike(w, trace, height)
    requires floor.Keys == level.Keys && forall k :: k in level ==> level[k] in SpotsOf(trace)
    requires forall k :: k in floor ==> floor[k] == height(k) - ShiftOf(trace, height)[level[k]]
    requires forall i :: 0 <= i < |climbs| && Between(level, climbs[i]) ==> Rises(height, climbs[i])
    ensures forall i :: 0 <= i < |climbs| && Between(level, climbs[i]) ==> floor[climbs[i].b] - floor[climbs[i].a] == climbs[i].step
  {
    forall i | 0 <= i < |climbs| && Between(level, climbs[i])
      ensures floor[climbs[i].b] - floor[climbs[i].a] == climbs[i].step
    {
      ClimbSteps(w, level, climbs, i);
      assert Alike(w, trace, height, level[climbs[i].a], level[climbs[i].b]);
      assert Rises(height, climbs[i]);
    }
  }

  lemma WorldFits(rooms: set<Room>, w: World, out: Room -> bool, level: Of, merges: seq<Move>, climbs: seq<Climb>, doorways: seq<Move>,
                  height: Room -> int)
    requires Tells(rooms, level, merges) && WorldFrom(w, out, level, climbs, doorways)
    requires forall k :: k in level ==> level[k] in level && level[level[k]] == level[k]
    requires Even(height, merges) && Even(height, doorways)
    requires forall i :: 0 <= i < |climbs| && Between(level, climbs[i]) ==> Rises(height, climbs[i])
    ensures (forall k :: k in level ==> height(level[k]) == height(k)) && FitsLedges(w, height) && EvenDoors(w, height)
  {
    forall k | k in level
      ensures height(level[k]) == height(k)
    {
      LevelIsEven(rooms, level, merges, height, k);
    }
    LedgesFit(w, out, level, climbs, doorways, height);
    DoorsAreEven(w, out, level, climbs, doorways, height);
  }

  lemma DoorsAreEven(w: World, out: Room -> bool, level: Of, climbs: seq<Climb>, doorways: seq<Move>, height: Room -> int)
    requires WorldFrom(w, out, level, climbs, doorways) && Even(height, doorways)
    requires forall k :: k in level ==> height(level[k]) == height(k)
    ensures EvenDoors(w, height)
  {
    forall i | 0 <= i < |w.doors|
      ensures height(w.doors[i].inner) == height(w.doors[i].outer)
    {
      assert height(doorways[i].0) == height(doorways[i].1);
    }
  }

  lemma ClimbSteps(w: World, level: Of, climbs: seq<Climb>, i: nat)
    requires Known(climbs, level) && Conflicts.Shows(climbs, level, w.ledges) && i < |climbs| && Between(level, climbs[i])
    ensures Steps(w, level[climbs[i].a], level[climbs[i].b])
  {
    var c := climbs[i];
    var k := Ledge(level[c.b], c.step, c.source);
    assert Makes(c, level, level[c.a], k);
    assert k in LedgesAt(w.ledges, level[c.a]);
    var j :| 0 <= j < |w.At(level[c.a])| && w.At(level[c.a])[j] == k;
    assert w.At(level[c.a])[j].to == level[c.b];
  }

  /** What is reported of such floors: climbs within one level, and doorways to a stack that
      was left. */
  lemma {:induction false} OnlyThoseReported(level: Of, floor: Floor, height: Room -> int, climbs: seq<Climb>, doorways: seq<Move>,
                                             at: seq<nat>, conflicts: seq<Conflict>, met: set<Move>, doorAt: seq<nat>,
                                             doorConflicts: seq<Conflict>, even: set<Level>)
    requires AllWithin(level, floor, climbs) && ReportsAt(level, floor, climbs, |climbs|, at, conflicts)
    requires forall i :: 0 <= i < |doorways| ==> doorways[i].0 in floor && doorways[i].1 in floor
    requires floor.Keys == level.Keys && DoorsAt(floor, doorways, met, |doorways|, doorAt, doorConflicts) && Even(height, doorways)
    requires forall k :: k in floor && level[k] in even ==> floor[k] == height(k)
    requires forall i :: 0 <= i < |climbs| && Between(level, climbs[i]) ==> floor[climbs[i].b] - floor[climbs[i].a] == climbs[i].step
    ensures forall j :: 0 <= j < |conflicts| ==> conflicts[j].kind == SameLevel
    ensures forall j :: 0 <= j < |doorConflicts| ==>
              && doorConflicts[j].from in level && doorConflicts[j].to in level
              && !(level[doorConflicts[j].from] in even && level[doorConflicts[j].to] in even)
  {
    forall j | 0 <= j < |conflicts|
      ensures conflicts[j].kind == SameLevel
    {
      assert Reports(level, floor, climbs, at[j], conflicts[j]);
    }
    forall j | 0 <= j < |doorConflicts|
      ensures doorConflicts[j].from in level && doorConflicts[j].to in level
      ensures !(level[doorConflicts[j].from] in even && level[doorConflicts[j].to] in even)
    {
      assert Across(floor, doorways, met, doorAt[j]) && doorConflicts[j] == DoorConflict(floor, doorways[doorAt[j]]);
      assert height(doorways[doorAt[j]].0) == height(doorways[doorAt[j]].1);
    }
  }
}
