/** The whole tool: slopes cut, levels merged, floors placed, and what they disagree with. */
module FloorMap {
  import opened Levels
  import opened Heights
  import opened Floors
  import opened Conflicts
  import opened Shifts
  import Slopes
  import Pockets
  import opened Cuts

  /** Everything the tool makes of a map. */
  datatype Made = Made(
    left: seq<Move>,
    notes: seq<Slopes.Note>,
    level: Of,
    doorways: seq<Move>,
    climbs: seq<Climb>,
    w: World,
    spots: Spots,
    floor: Floor,
    conflicts: seq<Conflict>,
    spans: nat,
    doorConflicts: seq<Conflict>)

  /** How the floors came about, and which climbs and doorways the conflicts report. */
  datatype Course = Course(trace: seq<Placement>, a: nat, b: nat, at: seq<nat>, doorAt: seq<nat>)

  /** What each step made, out of what the step before made. */
  ghost predicate MadeBy(rs: Slopes.Rooms, g: Ground, names: Names, rooms: set<Room>, flat: seq<Move>, vertical: seq<Climb>,
                         m: Made, c: Course) {
    SlopesCut(rs, flat, vertical, m) && Leveled(g, rooms, vertical, m) && Placed(g, names, m, c) && Reported(m, c)
  }

  ghost predicate SlopesCut(rs: Slopes.Rooms, flat: seq<Move>, vertical: seq<Climb>, m: Made) {
    && m.left == Pockets.Without(flat, Slopes.GoneBy(m.notes)) && Slopes.Justified(rs, flat, m.notes)
    && Slopes.Earned(rs, vertical, m.notes)
    && forall i :: 0 <= i < |vertical| ==> Slopes.SettledClimb(rs, flat, m.notes, vertical[i])
  }

  ghost predicate Leveled(g: Ground, rooms: set<Room>, vertical: seq<Climb>, m: Made) {
    && LevelsMade(g, rooms, m)
    && m.climbs == Climbs(g, vertical) && m.doorways == Doorways(g.out, m.left)
    && Tells(rooms, m.level, Merges(g, m.left, vertical))
  }

  ghost predicate LevelsMade(g: Ground, rooms: set<Room>, m: Made) {
    && m.level.Keys == rooms
    && (forall k :: k in m.level ==> m.level[k] in m.level && m.level[m.level[k]] == m.level[k])
    && WorldFrom(m.w, g.out, m.level, m.climbs, m.doorways)
  }

  ghost predicate Placed(g: Ground, names: Names, m: Made, c: Course) {
    && Sound(m.w, c.trace) && Decreed(m.w, names, c.trace) && Staged(m.w, names, c.trace, c.a, c.b) && ReadersLate(m.w, c.trace)
    && m.spots == SpotsOf(c.trace) && m.spots.Keys == m.w.levels
    && m.floor.Keys == m.level.Keys && forall k :: k in m.floor ==> m.level[k] in m.spots && m.floor[k] == m.spots[m.level[k]].floor
  }

  ghost predicate Reported(m: Made, c: Course) {
    && AllWithin(m.level, m.floor, m.climbs)
    && (forall i :: 0 <= i < |m.doorways| ==> m.doorways[i].0 in m.floor && m.doorways[i].1 in m.floor)
    && ReportsAt(m.level, m.floor, m.climbs, |m.climbs|, c.at, m.conflicts)
    && m.spans == SpanCount(m.level, m.floor, m.climbs, |m.climbs|)
    && DoorsAt(m.floor, m.doorways, Met(m.climbs), |m.doorways|, c.doorAt, m.doorConflicts)
  }

  // ------------------------------------------------------------ the levels' world

  lemma MergesWithinSetting(g: Ground, flat: seq<Move>, vertical: seq<Climb>, m: Move)
    requires m in Merges(g, flat, vertical)
    ensures g.out(m.0) == g.out(m.1)
  {
    SameSettingIs(g.out, flat, m);
    HillsidesIs(g, vertical, m, Climb(m.0, m.1, 0, Rule));
  }

  /** A level lies all outdoors or all indoors. */
  lemma LevelOfOneSetting(rooms: set<Room>, g: Ground, flat: seq<Move>, vertical: seq<Climb>, level: Of, k: Room)
    requires Tells(rooms, level, Merges(g, flat, vertical)) && k in level
    requires level[k] in level && level[level[k]] == level[k]
    ensures g.out(level[k]) == g.out(k)
  {
    var merges := Merges(g, flat, vertical);
    var height := (r: Room) => if g.out(r) then 1 else 0;
    forall i | 0 <= i < |merges|
      ensures height(merges[i].0) == height(merges[i].1)
    {
      MergesWithinSetting(g, flat, vertical, merges[i]);
    }
    LevelIsEven(rooms, level, merges, height, k);
  }

  /** The levels' world: what leads from one to another, up or down or through a door. */
  method WorldOf(rooms: seq<Room>, g: Ground, level: Of, climbs: seq<Climb>, doorways: seq<Move>, ghost flat: seq<Move>, ghost vertical: seq<Climb>)
    returns (w: World)
    requires Tells((set k | k in rooms), level, Merges(g, flat, vertical))
    requires forall k :: k in level ==> level[k] in level && level[level[k]] == level[k]
    requires Known(climbs, level) && forall i :: 0 <= i < |doorways| ==>
               doorways[i].0 in level && doorways[i].1 in level && g.out(doorways[i].0) != g.out(doorways[i].1)
    ensures WorldFrom(w, g.out, level, climbs, doorways)
  {
    var ledges := LedgesOf(climbs, level);
    var doors := seq(|doorways|, i requires 0 <= i < |doorways| => DoorOf(g.out, level, doorways[i]));
    w := World(level.Values, g.out, ledges, doors);
    forall k | k in level
      ensures g.out(level[k]) == g.out(k)
    {
      LevelOfOneSetting((set k | k in rooms), g, flat, vertical, level, k);
    }
  }

  lemma StillWithin(rooms: seq<Room>, g: Ground, flat: seq<Move>, gone: set<Move>, vertical: seq<Climb>, level: Of)
    requires forall m :: m in flat ==> m.0 in rooms && m.1 in rooms
    requires forall c :: c in vertical ==> c.a in rooms && c.b in rooms
    requires level.Keys == set k | k in rooms
    ensures forall m :: m in Pockets.Without(flat, gone) ==> m.0 in rooms && m.1 in rooms
    ensures Known(Climbs(g, vertical), level)
    ensures var doorways := Doorways(g.out, Pockets.Without(flat, gone));
            forall i :: 0 <= i < |doorways| ==>
              doorways[i].0 in level && doorways[i].1 in level && g.out(doorways[i].0) != g.out(doorways[i].1)
  {
    var left := Pockets.Without(flat, gone);
    forall m | m in left
      ensures m.0 in rooms && m.1 in rooms
    {
      Pockets.WithoutIs(flat, gone, m);
    }
    var climbs, doorways := Climbs(g, vertical), Doorways(g.out, left);
    forall i | 0 <= i < |climbs|
      ensures climbs[i].a in level && climbs[i].b in level
    {
      HillsidesIs(g, vertical, (climbs[i].a, climbs[i].b), climbs[i]);
    }
    forall i | 0 <= i < |doorways|
      ensures doorways[i].0 in level && doorways[i].1 in level && g.out(doorways[i].0) != g.out(doorways[i].1)
    {
      SameSettingIs(g.out, left, doorways[i]);
    }
  }

  /** The floor of every room is its level's. */
  method FloorOfRooms(level: Of, spots: Spots) returns (floor: Floor)
    requires forall k :: k in level ==> level[k] in spots
    ensures floor.Keys == level.Keys && forall k :: k in floor ==> floor[k] == spots[level[k]].floor
  {
    floor := map k | k in level :: spots[level[k]].floor;
  }

  /** From the map to the floors of its rooms and what they disagree with. The levels are
      taken in the order of the rooms in `order`, `clusters` and `rest`. */
  method MapFloors(rs: Slopes.Rooms, g: Ground, namesOf: Of -> Names, rooms: seq<Room>, flat: seq<Move>, vertical: seq<Climb>,
                   order: seq<Room>, clusters: seq<Room>, rest: seq<Room>) returns (m: Made, ghost c: Course)
    requires forall e :: e in flat ==> e.0 in rooms && e.1 in rooms
    requires forall e :: e in vertical ==> e.a in rooms && e.b in rooms
    requires forall k :: k in order ==> k in rooms
    requires forall k :: k in clusters ==> k in rooms
    requires forall k :: k in rest <==> k in rooms
    requires forall level: Of :: namesOf(level).mainDeck <= level.Values
    ensures MadeBy(rs, g, namesOf(m.level), (set k | k in rooms), flat, vertical, m, c)
    ensures SlopesCut(rs, flat, vertical, m) && Leveled(g, (set k | k in rooms), vertical, m)
  {
    var left, notes := Slopes.CutSlopes(rs, flat, vertical);
    var made := LevelMap(g, rooms, flat, vertical, left, notes);
    ghost var all := set k | k in rooms;
    assert SlopesCut(rs, flat, vertical, made);
    AllLevels(made.level, rest);
    LevelsAmong(made.level, order);
    LevelsAmong(made.level, clusters);
    LevelsAmong(made.level, rest);
    m, c := FloorsAndConflicts(g, namesOf(made.level), all, made,
                               LevelsIn(made.level, order), LevelsIn(made.level, clusters), LevelsIn(made.level, rest));
    StillMade(rs, g, all, flat, vertical, made, m);
  }

  /** Nothing that was made before the floors is touched by them. */
  lemma StillMade(rs: Slopes.Rooms, g: Ground, rooms: set<Room>, flat: seq<Move>, vertical: seq<Climb>, made: Made, m: Made)
    requires SlopesCut(rs, flat, vertical, made) && Leveled(g, rooms, vertical, made)
    requires m == made.(spots := m.spots, floor := m.floor, conflicts := m.conflicts, spans := m.spans, doorConflicts := m.doorConflicts)
    ensures SlopesCut(rs, flat, vertical, m) && Leveled(g, rooms, vertical, m)
  {
  }

  lemma LevelsAmong(level: Of, rooms: seq<Room>)
    requires forall k :: k in rooms ==> k in level
    ensures forall i :: 0 <= i < |LevelsIn(level, rooms)| ==> LevelsIn(level, rooms)[i] in level.Values
  {
    forall i | 0 <= i < |rooms|
      ensures LevelsIn(level, rooms)[i] in level.Values
    {
      assert rooms[i] in level;
    }
  }

  lemma AllLevels(level: Of, rooms: seq<Room>)
    requires forall k :: k in rooms <==> k in level
    ensures forall l :: l in level.Values ==> l in LevelsIn(level, rooms)
  {
    forall l | l in level.Values
      ensures l in LevelsIn(level, rooms)
    {
      var k :| k in level && level[k] == l;
      var i :| 0 <= i < |rooms| && rooms[i] == k;
      assert LevelsIn(level, rooms)[i] == l;
    }
  }

  /** The levels of the rooms, and the world they make. */
  method LevelMap(g: Ground, rooms: seq<Room>, flat: seq<Move>, vertical: seq<Climb>, left: seq<Move>, notes: seq<Slopes.Note>)
    returns (m: Made)
    requires forall e :: e in flat ==> e.0 in rooms && e.1 in rooms
    requires forall e :: e in vertical ==> e.a in rooms && e.b in rooms
    requires left == Pockets.Without(flat, Slopes.GoneBy(notes))
    ensures m.left == left && m.notes == notes && Leveled(g, (set k | k in rooms), vertical, m)
  {
    StillLeft(rooms, flat, Slopes.GoneBy(notes));
    var level, doorways, climbs := LevelsOf(rooms, g, left, vertical);
    StillWithin(rooms, g, flat, Slopes.GoneBy(notes), vertical, level);
    var w := WorldOf(rooms, g, level, climbs, doorways, left, vertical);
    m := Made(left, notes, level, doorways, climbs, w, map[], map[], [], 0, []);
  }

  /** Floors for the levels, and what they disagree with. */
  method FloorsAndConflicts(g: Ground, names: Names, ghost rooms: set<Room>, made: Made,
                            order: seq<Level>, clusters: seq<Level>, rest: seq<Level>) returns (m: Made, ghost c: Course)
    requires LevelsMade(g, rooms, made) && names.mainDeck <= made.w.levels
    requires forall l :: l in made.w.levels ==> l in rest
    requires forall i :: 0 <= i < |order| ==> order[i] in made.w.levels
    requires forall i :: 0 <= i < |clusters| ==> clusters[i] in made.w.levels
    requires forall i :: 0 <= i < |rest| ==> rest[i] in made.w.levels
    ensures m == made.(spots := m.spots, floor := m.floor, conflicts := m.conflicts, spans := m.spans, doorConflicts := m.doorConflicts)
    ensures Placed(g, names, m, c) && Reported(m, c)
  {
    var level := made.level;
    WorldIsValid(made.w, g.out, level, made.climbs, made.doorways);
    var spots;
    ghost var trace, a, b;
    spots, trace, a, b := FloorsOf(made.w, names, order, clusters, rest);
    var floor := FloorOfRooms(level, spots);
    var conflicts, spans, met, doorConflicts;
    ghost var at, doorAt;
    conflicts, spans, met, at := ClimbConflicts(level, floor, made.climbs);
    doorConflicts, doorAt := DoorwayConflicts(floor, made.doorways, met);
    m := made.(spots := spots, floor := floor, conflicts := conflicts, spans := spans, doorConflicts := doorConflicts);
    c := Course(trace, a, b, at, doorAt);
  }

  lemma StillLeft(rooms: seq<Room>, flat: seq<Move>, gone: set<Move>)
    requires forall m :: m in flat ==> m.0 in rooms && m.1 in rooms
    ensures forall m :: m in Pockets.Without(flat, gone) ==> m.0 in rooms && m.1 in rooms
  {
    forall m | m in Pockets.Without(flat, gone)
      ensures m.0 in rooms && m.1 in rooms
    {
      Pockets.WithoutIs(flat, gone, m);
    }
  }

  /** The levels of some rooms, in their order. */
  function LevelsIn(level: Of, rooms: seq<Room>): (levels: seq<Level>)
    requires forall k :: k in rooms ==> k in level
    ensures |levels| == |rooms| && forall i :: 0 <= i < |levels| ==> levels[i] == level[rooms[i]]
  {
    seq(|rooms|, i requires 0 <= i < |rooms| => level[rooms[i]])
  }

  // ------------------------------------------------------------ end to end

  /** A map that has heights: the level moves left, the hillsides and the doorways are even,
      every climb between levels rises by its step, and the ground is at 0. */
  ghost predicate HasHeights(g: Ground, vertical: seq<Climb>, m: Made, c: Course, height: Room -> int)
    requires Known(m.climbs, m.level)
  {
    && Even(height, Merges(g, m.left, vertical)) && Even(height, m.doorways) && GroundIsZero(c.trace, height)
    && forall i :: 0 <= i < |m.climbs| && Between(m.level, m.climbs[i]) ==> Rises(height, m.climbs[i])
  }

  lemma FloorsFit(g: Ground, names: Names, rooms: set<Room>, vertical: seq<Climb>, m: Made, c: Course, height: Room -> int)
    requires LevelsMade(g, rooms, m) && Tells(rooms, m.level, Merges(g, m.left, vertical)) && Placed(g, names, m, c)
    requires HasHeights(g, vertical, m, c, height)
    ensures forall k :: k in m.floor ==> m.floor[k] == height(k) - At(ShiftOf(c.trace, height), m.level[k])
    ensures forall k :: k in m.floor && m.level[k] in SpotsOf(c.trace[..c.b]) ==> m.floor[k] == height(k)
    ensures forall i :: 0 <= i < |m.climbs| && Between(m.level, m.climbs[i]) ==>
              m.floor[m.climbs[i].b] - m.floor[m.climbs[i].a] == m.climbs[i].step
  {
    FloorsFitUpToShifts(rooms, m.w, names, g.out, m.level, Merges(g, m.left, vertical), m.climbs, m.doorways, c.trace, c.a, c.b, height, m.floor);
  }

  /** For a map that has heights the floors are the heights, but for one shift a stack that
      was left; of climbs only those within a level are reported; and of doorways none whose
      two levels both had floors before the stacks. And whatever is cut, no doorway is. */
  lemma {:induction false} HeightsAreTheFloors(rs: Slopes.Rooms, g: Ground, names: Names, rooms: set<Room>, flat: seq<Move>, vertical: seq<Climb>,
                                               m: Made, c: Course, height: Room -> int)
    requires rs.out == g.out && MadeBy(rs, g, names, rooms, flat, vertical, m, c) && HasHeights(g, vertical, m, c, height)
    ensures forall k :: k in m.floor ==> m.floor[k] == height(k) - At(ShiftOf(c.trace, height), m.level[k])
    ensures var even := SpotsOf(c.trace[..c.b]).Keys;
            && (forall k :: k in m.floor && m.level[k] in even ==> m.floor[k] == height(k))
            && (forall j :: 0 <= j < |m.conflicts| ==> m.conflicts[j].kind == SameLevel)
            && (forall j :: 0 <= j < |m.doorConflicts| ==>
                  && m.doorConflicts[j].from in m.level && m.doorConflicts[j].to in m.level
                  && !(m.level[m.doorConflicts[j].from] in even && m.level[m.doorConflicts[j].to] in even))
    ensures m.doorways == Doorways(g.out, flat)
  {
    FloorsFit(g, names, rooms, vertical, m, c, height);
    OnlyThoseReported(m.level, m.floor, height, m.climbs, m.doorways, c.at, m.conflicts, Met(m.climbs), c.doorAt, m.doorConflicts,
                      SpotsOf(c.trace[..c.b]).Keys);
    Slopes.DoorwaysStay(rs, flat, m.notes, flat);
  }
}
