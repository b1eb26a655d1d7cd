/** Ledges out of climbs, and the climbs and doorways the floors disagree with. */
module Conflicts {
  import opened Levels
  import opened Heights

  type Of = map<Room, Level>

  // ------------------------------------------------------------ the ledges

  /** The climb is the ledge `k` of level `x`, seen from one of its ends. */
  ghost predicate Makes(c: Climb, level: Of, x: Level, k: Ledge)
    requires c.a in level && c.b in level
  {
    && level[c.a] != level[c.b]
    && ((x == level[c.a] && k == Ledge(level[c.b], c.step, c.source))
        || (x == level[c.b] && k == Ledge(level[c.a], -c.step, c.source)))
  }

  ghost predicate Known(climbs: seq<Climb>, level: Of) {
    forall i :: 0 <= i < |climbs| ==> climbs[i].a in level && climbs[i].b in level
  }

  /** `ledges` holds the climbs between levels, from both ends, and nothing else. */
  ghost predicate Shows(climbs: seq<Climb>, level: Of, ledges: map<Level, seq<Ledge>>)
    requires Known(climbs, level)
  {
    forall x, k :: k in LedgesAt(ledges, x) <==> MadeBy(climbs, |climbs|, level, x, k)
  }

  method LedgesOf(climbs: seq<Climb>, level: Of) returns (ledges: map<Level, seq<Ledge>>)
    requires Known(climbs, level)
    ensures Shows(climbs, level, ledges)
  {
    ledges := map[];
    for n := 0 to |climbs|
      invariant forall x, k :: k in LedgesAt(ledges, x) <==> MadeBy(climbs, n, level, x, k)
    {
      var c := climbs[n];
      var x, y := level[c.a], level[c.b];
      ghost var was := ledges;
      if x != y {
        ledges := ledges[x := LedgesAt(ledges, x) + [Ledge(y, c.step, c.source)]];
        ledges := ledges[y := LedgesAt(ledges, y) + [Ledge(x, -c.step, c.source)]];
      }
      forall z, k
        ensures k in LedgesAt(ledges, z) <==> MadeBy(climbs, n + 1, level, z, k)
      {
        assert k in LedgesAt(was, z) <==> MadeBy(climbs, n, level, z, k);
        assert k in LedgesAt(ledges, z) <==> k in LedgesAt(was, z) || Makes(c, level, z, k);
      }
    }
  }

  /** Some climb up to the `n`th makes the ledge. */
  ghost predicate MadeBy(climbs: seq<Climb>, n: nat, level: Of, x: Level, k: Ledge)
    requires n <= |climbs| && Known(climbs, level)
  {
    exists i :: 0 <= i < n && Makes(climbs[i], level, x, k)
  }

  /** A door, from a level move between indoors and outdoors. */
  function DoorOf(out: Room -> bool, level: Of, m: Move): (d: Door)
    requires m.0 in level && m.1 in level
  {
    if out(m.0) then Door(level[m.1], level[m.0]) else Door(level[m.0], level[m.1])
  }

  /** The world the climbs and doorways make of the levels. */
  ghost predicate WorldFrom(w: World, out: Room -> bool, level: Of, climbs: seq<Climb>, doorways: seq<Move>) {
    && Known(climbs, level) && Shows(climbs, level, w.ledges)
    && w.levels == level.Values
    && (forall k :: k in level ==> w.isOut(level[k]) == out(k))
    && |w.doors| == |doorways|
    && forall i :: 0 <= i < |doorways| ==>
         doorways[i].0 in level && doorways[i].1 in level && out(doorways[i].0) != out(doorways[i].1)
         && w.doors[i] == DoorOf(out, level, doorways[i])
  }

  lemma WorldIsValid(w: World, out: Room -> bool, level: Of, climbs: seq<Climb>, doorways: seq<Move>)
    requires WorldFrom(w, out, level, climbs, doorways)
    ensures w.Valid()
  {
    forall x, i | 0 <= i < |w.At(x)|
      ensures w.At(x)[i].to in w.levels && w.Back(x, w.At(x)[i])
    {
      var k := w.At(x)[i];
      assert k in LedgesAt(w.ledges, x);
      var n :| 0 <= n < |climbs| && Makes(climbs[n], level, x, k);
      assert Makes(climbs[n], level, k.to, Ledge(x, -k.step, k.source));
      assert Ledge(x, -k.step, k.source) in LedgesAt(w.ledges, k.to);
    }
    forall i | 0 <= i < |w.doors|
      ensures w.doors[i].inner in w.levels && w.doors[i].outer in w.levels
              && !w.isOut(w.doors[i].inner) && w.isOut(w.doors[i].outer)
    {
      assert doorways[i].0 in level;
    }
  }

  // ------------------------------------------------- heights room by room

  /** The climb rises by its step. */
  predicate Rises(height: Room -> int, c: Climb) {
    height(c.b) == height(c.a) + c.step
  }

  ghost predicate Even(height: Room -> int, moves: seq<Move>) {
    forall i :: 0 <= i < |moves| ==> height(moves[i].0) == height(moves[i].1)
  }

  lemma {:induction false} EvenAlong(height: Room -> int, moves: seq<Move>, path: seq<Room>, i: nat)
    requires Even(height, moves) && Chain(moves, path) && i < |path|
    ensures height(path[i]) == height(path[0])
  {
    if i > 0 {
      EvenAlong(height, moves, path, i - 1);
      assert Joined(moves, path[i - 1], path[i - 1 + 1]);
    }
  }

  /** Rooms merged into one level have one height. */
  lemma LevelIsEven(rooms: set<Room>, level: Of, merges: seq<Move>, height: Room -> int, k: Room)
    requires Tells(rooms, level, merges) && Even(height, merges) && k in level
    requires level[k] in level && level[level[k]] == level[k]
    ensures height(level[k]) == height(k)
  {
    assert Linked(merges, k, level[k]);
    var path :| Joins(merges, k, level[k], path);
    EvenAlong(height, merges, path, |path| - 1);
  }

  /** The climb joins two levels. */
  predicate Between(level: Of, c: Climb)
    requires c.a in level && c.b in level
  {
    level[c.a] != level[c.b]
  }

  /** Heights of rooms that are even over every merge and doorway, rise by the step over
      every climb between levels, and are 0 wherever a level was put on floor 0: the floors
      are they. */
  lemma {:induction false} FloorsAreRight(rooms: set<Room>, w: World, out: Room -> bool, level: Of, merges: seq<Move>, climbs: seq<Climb>,
                       doorways: seq<Move>, trace: seq<Placement>, height: Room -> int)
    requires Tells(rooms, level, merges)
    requires forall k :: k in level ==> level[k] in level && level[level[k]] == level[k]
    requires WorldFrom(w, out, level, climbs, doorways) && Sound(w, trace) && SpotsOf(trace).Keys == w.levels
    requires Even(height, merges) && Even(height, doorways)
    requires forall i :: 0 <= i < |climbs| && Between(level, climbs[i]) ==> Rises(height, climbs[i])
    requires forall i :: 0 <= i < |trace| && trace[i].why.Zero? ==> height(trace[i].level) == 0
    ensures forall k :: k in level ==> SpotsOf(trace)[level[k]].floor == height(k)
  {
    forall k | k in level
      ensures height(level[k]) == height(k)
    {
      LevelIsEven(rooms, level, merges, height, k);
    }
    LedgesFit(w, out, level, climbs, doorways, height);
    forall i | 0 <= i < |w.doors|
      ensures height(w.doors[i].inner) == height(w.doors[i].outer)
    {
      assert height(doorways[i].0) == height(doorways[i].1);
    }
    AnchorsFit(w, trace, height);
    FloorsAreTheHeights(w, trace, height);
    assert AllAt(SpotsOf(trace), height);
  }

  lemma LedgesFit(w: World, out: Room -> bool, level: Of, climbs: seq<Climb>, doorways: seq<Move>, height: Room -> int)
    requires WorldFrom(w, out, level, climbs, doorways)
    requires forall k :: k in level ==> height(level[k]) == height(k)
    requires forall i :: 0 <= i < |climbs| && Between(level, climbs[i]) ==> Rises(height, climbs[i])
    ensures FitsLedges(w, height)
  {
    forall x, i | 0 <= i < |w.At(x)|
      ensures height(w.At(x)[i].to) == height(x) + w.At(x)[i].step
    {
      var k := w.At(x)[i];
      assert k in LedgesAt(w.ledges, x);
      var n :| 0 <= n < |climbs| && Makes(climbs[n], level, x, k);
      assert Rises(height, climbs[n]);
    }
  }

  // ------------------------------------------------------------ conflicts

  datatype Kind = SameLevel | SameFloor | Opposite | AtDoorway

  datatype Conflict = Conflict(kind: Kind, from: Room, to: Room, step: int, floorFrom: int, floorTo: int)

  type Floor = map<Room, int>

  /** The pairs looked at, each in the direction it was first met. */
  function Met(climbs: seq<Climb>): (pairs: set<Move>) {
    if climbs == [] then {}
    else
      var rest, c := Met(climbs[..|climbs| - 1]), climbs[|climbs| - 1];
      if (c.b, c.a) in rest then rest else rest + {(c.a, c.b)}
  }

  /** The climb is looked at: its pair was not met in the other direction. */
  predicate Heard(climbs: seq<Climb>, i: nat)
    requires i < |climbs|
  {
    (climbs[i].b, climbs[i].a) !in Met(climbs[..i])
  }

  predicate Within(level: Of, floor: Floor, a: Room, b: Room) {
    a in level && b in level && a in floor && b in floor
  }

  /** The floors rise the climb's way, but not by its step. */
  predicate Spans(floor: Floor, c: Climb)
    requires c.a in floor && c.b in floor
  {
    floor[c.b] - floor[c.a] != c.step && (floor[c.b] - floor[c.a]) * c.step > 0
  }

  predicate Clashes(floor: Floor, c: Climb)
    requires c.a in floor && c.b in floor
  {
    floor[c.b] - floor[c.a] != c.step && !Spans(floor, c)
  }

  function ConflictOf(level: Of, floor: Floor, c: Climb): (k: Conflict)
    requires Within(level, floor, c.a, c.b)
  {
    var kind := if level[c.a] == level[c.b] then SameLevel
                else if floor[c.b] == floor[c.a] then SameFloor else Opposite;
    Conflict(kind, c.a, c.b, c.step, floor[c.a], floor[c.b])
  }

  ghost predicate AllWithin(level: Of, floor: Floor, climbs: seq<Climb>) {
    forall i :: 0 <= i < |climbs| ==> Within(level, floor, climbs[i].a, climbs[i].b)
  }

  /** `k` reports the climb `climbs[i]`. */
  ghost predicate Reports(level: Of, floor: Floor, climbs: seq<Climb>, i: nat, k: Conflict)
    requires AllWithin(level, floor, climbs)
  {
    i < |climbs| && Heard(climbs, i) && Clashes(floor, climbs[i]) && k == ConflictOf(level, floor, climbs[i])
  }

  ghost predicate SpansAt(level: Of, floor: Floor, climbs: seq<Climb>, i: nat)
    requires AllWithin(level, floor, climbs)
  {
    i < |climbs| && Heard(climbs, i) && Spans(floor, climbs[i])
  }

  /** How many of the first `n` climbs span floors. */
  ghost function SpanCount(level: Of, floor: Floor, climbs: seq<Climb>, n: nat): (spans: nat)
    requires AllWithin(level, floor, climbs)
  {
    if n == 0 then 0 else SpanCount(level, floor, climbs, n - 1) + if SpansAt(level, floor, climbs, n - 1) then 1 else 0
  }

  ghost predicate Increasing(at: seq<nat>) {
    forall i, j :: 0 <= i < j < |at| ==> at[i] < at[j]
  }

  /** The conflicts report the climbs at these places among the first `n`, in order, each once. */
  ghost predicate ReportsAt(level: Of, floor: Floor, climbs: seq<Climb>, n: nat, at: seq<nat>, conflicts: seq<Conflict>)
    requires AllWithin(level, floor, climbs)
  {
    && |at| == |conflicts| && Increasing(at)
    && (forall j :: 0 <= j < |at| ==> at[j] < n && Reports(level, floor, climbs, at[j], conflicts[j]))
    && (forall i: nat :: i < n && i < |climbs| && Heard(climbs, i) && Clashes(floor, climbs[i]) ==> i in at)
  }

  lemma ReportsOneMore(level: Of, floor: Floor, climbs: seq<Climb>, n: nat, at: seq<nat>, conflicts: seq<Conflict>)
    requires AllWithin(level, floor, climbs) && n < |climbs| && ReportsAt(level, floor, climbs, n, at, conflicts)
    ensures if Heard(climbs, n) && Clashes(floor, climbs[n])
            then ReportsAt(level, floor, climbs, n + 1, at + [n], conflicts + [ConflictOf(level, floor, climbs[n])])
            else ReportsAt(level, floor, climbs, n + 1, at, conflicts)
  {
    if Heard(climbs, n) && Clashes(floor, climbs[n]) {
      var more := at + [n];
      forall i: nat | i < n + 1 && Heard(climbs, i) && Clashes(floor, climbs[i])
        ensures i in more
      {
        if i == n {
          assert more[|at|] == n;
        }
      }
    }
  }

  datatype Verdict = Fine | Spanning | Clashing

  /** How the floors stand to a climb. */
  method Judge(floor: Floor, c: Climb) returns (v: Verdict)
    requires c.a in floor && c.b in floor
    ensures v.Spanning? <==> Spans(floor, c)
    ensures v.Clashing? <==> Clashes(floor, c)
  {
    var diff := floor[c.b] - floor[c.a];
    if diff == c.step {
      return Fine;
    }
    return if diff * c.step > 0 then Spanning else Clashing;
  }

  /** The conflicts of the climbs, in order: each climb looked at that neither rises by its
      step nor spans floors is reported, once, and nothing else; the spans are counted. */
  method ClimbConflicts(level: Of, floor: Floor, climbs: seq<Climb>)
    returns (conflicts: seq<Conflict>, spans: nat, met: set<Move>, ghost at: seq<nat>)
    requires AllWithin(level, floor, climbs)
    ensures met == Met(climbs)
    ensures ReportsAt(level, floor, climbs, |climbs|, at, conflicts)
    ensures spans == SpanCount(level, floor, climbs, |climbs|)
  {
    conflicts, spans, met, at := [], 0, {}, [];
    for n := 0 to |climbs|
      invariant met == Met(climbs[..n])
      invariant ReportsAt(level, floor, climbs, n, at, conflicts)
      invariant spans == SpanCount(level, floor, climbs, n)
    {
      var c := climbs[n];
      assert climbs[..n + 1][..n] == climbs[..n];
      ReportsOneMore(level, floor, climbs, n, at, conflicts);
      if (c.b, c.a) !in met {
        met := met + {(c.a, c.b)};
        var verdict := Judge(floor, c);
        match verdict {
          case Fine =>
          case Spanning =>
            spans := spans + 1;
          case Clashing =>
            conflicts, at := conflicts + [ConflictOf(level, floor, c)], at + [n];
        }
      }
    }
    assert climbs[..|climbs|] == climbs;
  }

  /** Nothing is reported, and nothing spans, exactly when every climb looked at rises by
      its step. */
  lemma QuietWhenAllRise(level: Of, floor: Floor, climbs: seq<Climb>, at: seq<nat>, conflicts: seq<Conflict>)
    requires AllWithin(level, floor, climbs) && ReportsAt(level, floor, climbs, |climbs|, at, conflicts)
    ensures conflicts == [] && SpanCount(level, floor, climbs, |climbs|) == 0 <==>
            forall i: nat :: i < |climbs| && Heard(climbs, i) ==> floor[climbs[i].b] - floor[climbs[i].a] == climbs[i].step
  {
    SpansWhen(level, floor, climbs, |climbs|);
    if conflicts == [] && SpanCount(level, floor, climbs, |climbs|) == 0 {
      forall i: nat | i < |climbs| && Heard(climbs, i)
        ensures floor[climbs[i].b] - floor[climbs[i].a] == climbs[i].step
      {
        assert !SpansAt(level, floor, climbs, i);
        assert i !in at;
      }
    } else if conflicts != [] {
      assert Reports(level, floor, climbs, at[0], conflicts[0]);
    }
  }

  lemma {:induction false} SpansWhen(level: Of, floor: Floor, climbs: seq<Climb>, n: nat)
    requires AllWithin(level, floor, climbs)
    ensures SpanCount(level, floor, climbs, n) > 0 <==> exists i: nat :: i < n && SpansAt(level, floor, climbs, i)
  {
    if n > 0 {
      SpansWhen(level, floor, climbs, n - 1);
    }
  }

  /** Where the floors are heights that fit, no climb between two levels is reported. */
  lemma NoneBetweenLevels(level: Of, floor: Floor, climbs: seq<Climb>, at: seq<nat>, conflicts: seq<Conflict>, height: Room -> int)
    requires AllWithin(level, floor, climbs) && ReportsAt(level, floor, climbs, |climbs|, at, conflicts)
    requires forall k :: k in floor ==> floor[k] == height(k)
    requires forall i :: 0 <= i < |climbs| && Between(level, climbs[i]) ==> Rises(height, climbs[i])
    ensures forall i :: 0 <= i < |conflicts| ==> conflicts[i].kind == SameLevel
  {
    forall j | 0 <= j < |conflicts|
      ensures conflicts[j].kind == SameLevel
    {
      assert Reports(level, floor, climbs, at[j], conflicts[j]);
    }
  }

  // ------------------------------------------------------------ doorways

  /** The pairs met after some doorways across floors, each in its first direction. */
  function MetAt(floor: Floor, doorways: seq<Move>, met: set<Move>): (pairs: set<Move>)
    requires forall i :: 0 <= i < |doorways| ==> doorways[i].0 in floor && doorways[i].1 in floor
  {
    if doorways == [] then met
    else
      var rest, (a, b) := MetAt(floor, doorways[..|doorways| - 1], met), doorways[|doorways| - 1];
      if floor[a] != floor[b] && (b, a) !in rest then rest + {(a, b)} else rest
  }

  /** The doorway is across floors, and its pair was not met the other way. */
  predicate Across(floor: Floor, doorways: seq<Move>, met: set<Move>, i: nat)
    requires forall i :: 0 <= i < |doorways| ==> doorways[i].0 in floor && doorways[i].1 in floor
    requires i < |doorways|
  {
    floor[doorways[i].0] != floor[doorways[i].1] && (doorways[i].1, doorways[i].0) !in MetAt(floor, doorways[..i], met)
  }

  function DoorConflict(floor: Floor, m: Move): (k: Conflict)
    requires m.0 in floor && m.1 in floor
  {
    Conflict(AtDoorway, m.0, m.1, 0, floor[m.0], floor[m.1])
  }

  /** The conflicts report the doorways at these places among the first `n`, in order, each once. */
  ghost predicate DoorsAt(floor: Floor, doorways: seq<Move>, met: set<Move>, n: nat, at: seq<nat>, conflicts: seq<Conflict>)
    requires forall i :: 0 <= i < |doorways| ==> doorways[i].0 in floor && doorways[i].1 in floor
    requires n <= |doorways|
  {
    && |at| == |conflicts| && Increasing(at)
    && (forall j :: 0 <= j < |at| ==> at[j] < n && Across(floor, doorways, met, at[j]) && conflicts[j] == DoorConflict(floor, doorways[at[j]]))
    && (forall i: nat :: i < n && Across(floor, doorways, met, i) ==> i in at)
  }

  lemma DoorsOneMore(floor: Floor, doorways: seq<Move>, met: set<Move>, n: nat, at: seq<nat>, conflicts: seq<Conflict>)
    requires forall i :: 0 <= i < |doorways| ==> doorways[i].0 in floor && doorways[i].1 in floor
    requires n < |doorways| && DoorsAt(floor, doorways, met, n, at, conflicts)
    ensures if Across(floor, doorways, met, n)
            then DoorsAt(floor, doorways, met, n + 1, at + [n], conflicts + [DoorConflict(floor, doorways[n])])
            else DoorsAt(floor, doorways, met, n + 1, at, conflicts)
  {
    var more := at + [n];
    forall i: nat | i < n + 1 && Across(floor, doorways, met, i) && Across(floor, doorways, met, n)
      ensures i in more
    {
      if i == n {
        assert more[|at|] == n;
      }
    }
  }

  /** The doorway is reported. */
  ghost predicate Told(floor: Floor, m: Move, conflicts: seq<Conflict>)
    requires m.0 in floor && m.1 in floor
  {
    DoorConflict(floor, m) in conflicts
  }

  /** Exactly the doorways across floors are reported. */
  ghost predicate DoorsTold(floor: Floor, doorways: seq<Move>, met: set<Move>, conflicts: seq<Conflict>)
    requires forall i :: 0 <= i < |doorways| ==> doorways[i].0 in floor && doorways[i].1 in floor
  {
    && (forall i: nat :: i < |doorways| && Across(floor, doorways, met, i) ==> Told(floor, doorways[i], conflicts))
    && (forall c :: c in conflicts ==>
          exists i: nat :: i < |doorways| && Across(floor, doorways, met, i) && c == DoorConflict(floor, doorways[i]))
  }

  lemma AllDoorsTold(floor: Floor, doorways: seq<Move>, met: set<Move>, at: seq<nat>, conflicts: seq<Conflict>)
    requires forall i :: 0 <= i < |doorways| ==> doorways[i].0 in floor && doorways[i].1 in floor
    requires DoorsAt(floor, doorways, met, |doorways|, at, conflicts)
    ensures DoorsTold(floor, doorways, met, conflicts)
  {
    forall i: nat | i < |doorways| && Across(floor, doorways, met, i)
      ensures Told(floor, doorways[i], conflicts)
    {
      var j :| 0 <= j < |at| && at[j] == i;
      assert conflicts[j] == DoorConflict(floor, doorways[i]);
    }
  }

  /** The doorways whose two sides are on different floors, in order, each once, but those
      whose pair was met the other way. */
  method DoorwayConflicts(floor: Floor, doorways: seq<Move>, met0: set<Move>) returns (conflicts: seq<Conflict>, ghost at: seq<nat>)
    requires forall i :: 0 <= i < |doorways| ==> doorways[i].0 in floor && doorways[i].1 in floor
    ensures DoorsAt(floor, doorways, met0, |doorways|, at, conflicts)
    ensures DoorsTold(floor, doorways, met0, conflicts)
  {
    conflicts, at := [], [];
    var met := met0;
    for n := 0 to |doorways|
      invariant met == MetAt(floor, doorways[..n], met0)
      invariant DoorsAt(floor, doorways, met0, n, at, conflicts)
    {
      var (a, b) := doorways[n];
      assert doorways[..n + 1][..n] == doorways[..n];
      DoorsOneMore(floor, doorways, met0, n, at, conflicts);
      if floor[a] != floor[b] && (b, a) !in met {
        met := met + {(a, b)};
        conflicts, at := conflicts + [DoorConflict(floor, doorways[n])], at + [n];
      }
    }
    AllDoorsTold(floor, doorways, met0, at, conflicts);
  }

  lemma {:induction false} MetIs(floor: Floor, doorways: seq<Move>, met: set<Move>, i: nat)
    requires forall i :: 0 <= i < |doorways| ==> doorways[i].0 in floor && doorways[i].1 in floor
    requires i < |doorways| && Across(floor, doorways, met, i)
    ensures doorways[i] in MetAt(floor, doorways, met)
  {
    var front := doorways[..|doorways| - 1];
    if i < |front| {
      assert front[..i] == doorways[..i];
      MetIs(floor, front, met, i);
    }
  }

  /** A pair of rooms is reported once: never in both directions, and in one as often as the
      doorways list that very move. */
  lemma DoorwayOnce(floor: Floor, doorways: seq<Move>, met: set<Move>, at: seq<nat>, conflicts: seq<Conflict>, i: nat, j: nat)
    requires forall i :: 0 <= i < |doorways| ==> doorways[i].0 in floor && doorways[i].1 in floor
    requires DoorsAt(floor, doorways, met, |doorways|, at, conflicts) && i < j < |conflicts|
    ensures !(conflicts[i].from == conflicts[j].to && conflicts[i].to == conflicts[j].from)
    ensures conflicts[i].from == conflicts[j].from && conflicts[i].to == conflicts[j].to ==>
              at[i] < at[j] && doorways[at[i]] == doorways[at[j]]
  {
    var before := doorways[..at[j]];
    assert Across(floor, doorways, met, at[i]) && Across(floor, doorways, met, at[j]);
    assert before[..at[i]] == doorways[..at[i]];
    MetIs(floor, before, met, at[i]);
  }

  // ------------------------------------------------------------ all together

  /** Where some heights of the rooms fit every merge, doorway and climb between levels, and
      every level put on floor 0, the floors are those heights; then no climb between two
      levels is reported, and no doorway. */
  lemma {:induction false} FittingFloorsAgree(rooms: set<Room>, w: World, out: Room -> bool, level: Of, merges: seq<Move>, climbs: seq<Climb>,
                           doorways: seq<Move>, trace: seq<Placement>, height: Room -> int, floor: Floor,
                           at: seq<nat>, conflicts: seq<Conflict>, met: set<Move>, doorAt: seq<nat>, doorConflicts: seq<Conflict>)
    requires Tells(rooms, level, merges)
    requires forall k :: k in level ==> level[k] in level && level[level[k]] == level[k]
    requires WorldFrom(w, out, level, climbs, doorways) && Sound(w, trace) && SpotsOf(trace).Keys == w.levels
    requires Even(height, merges) && Even(height, doorways)
    requires forall i :: 0 <= i < |climbs| && Between(level, climbs[i]) ==> Rises(height, climbs[i])
    requires forall i :: 0 <= i < |trace| && trace[i].why.Zero? ==> height(trace[i].level) == 0
    requires floor.Keys == level.Keys && forall k :: k in floor ==> floor[k] == SpotsOf(trace)[level[k]].floor
    requires ReportsAt(level, floor, climbs, |climbs|, at, conflicts)
    requires DoorsAt(floor, doorways, met, |doorways|, doorAt, doorConflicts)
    ensures forall k :: k in floor ==> floor[k] == height(k)
    ensures forall i :: 0 <= i < |conflicts| ==> conflicts[i].kind == SameLevel
    ensures doorConflicts == []
  {
    FloorsAreRight(rooms, w, out, level, merges, climbs, doorways, trace, height);
    NoneBetweenLevels(level, floor, climbs, at, conflicts, height);
    NoDoorsAcross(floor, doorways, met, doorAt, doorConflicts, height);
  }

  lemma SomeAcross(floor: Floor, doorways: seq<Move>, met: set<Move>, at: seq<nat>, conflicts: seq<Conflict>)
    requires forall i :: 0 <= i < |doorways| ==> doorways[i].0 in floor && doorways[i].1 in floor
    requires DoorsAt(floor, doorways, met, |doorways|, at, conflicts)
    ensures conflicts != [] ==> exists i: nat :: i < |doorways| && Across(floor, doorways, met, i)
  {
    if conflicts != [] {
      assert at[0] < |doorways| && Across(floor, doorways, met, at[0]);
    }
  }

  lemma NoDoorsAcross(floor: Floor, doorways: seq<Move>, met: set<Move>, at: seq<nat>, conflicts: seq<Conflict>, height: Room -> int)
    requires forall i :: 0 <= i < |doorways| ==> doorways[i].0 in floor && doorways[i].1 in floor
    requires DoorsAt(floor, doorways, met, |doorways|, at, conflicts)
    requires Even(height, doorways) && forall k :: k in floor ==> floor[k] == height(k)
    ensures conflicts == []
  {
    SomeAcross(floor, doorways, met, at, conflicts);
    forall i: nat | i < |doorways|
      ensures !Across(floor, doorways, met, i)
    {
      assert height(doorways[i].0) == height(doorways[i].1);
    }
  }
}
