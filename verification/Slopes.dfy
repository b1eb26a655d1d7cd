/** Cutting slopes: the compass moves that undo an indoor climb, one move a route. */
module Slopes {
  import opened Levels
  import opened Routes
  import opened Pockets
  import opened Options

  /** What the cutting leaves on record. */
  datatype Note =
    | Maze(from: Room, to: Room, step: int)
    | Cut(from: Room, to: Room, worded: bool, because: Move, step: int)

  /** What is known of the rooms: outdoors or not, their descriptions, and which
      descriptions speak of a slope. */
  datatype Rooms = Rooms(out: Room -> bool, desc: Room -> string, slopes: string -> bool)

  const MOST := 12

  // ------------------------------------------------------------ what is left

  function GoneBy(notes: seq<Note>): (gone: set<Move>) {
    if notes == [] then {}
    else
      var rest, n := GoneBy(notes[..|notes| - 1]), notes[|notes| - 1];
      if n.Cut? then rest + BothWays(n.from, n.to) else rest
  }

  /** The level moves between rooms of one setting that no note cut. */
  function Left(rs: Rooms, flat: seq<Move>, notes: seq<Note>): (left: seq<Move>) {
    SameSetting(rs.out, Without(flat, GoneBy(notes)))
  }

  lemma {:induction false} GoneBothWays(notes: seq<Note>, x: Room, y: Room)
    ensures (x, y) in GoneBy(notes) <==> (y, x) in GoneBy(notes)
  {
    if notes != [] {
      GoneBothWays(notes[..|notes| - 1], x, y);
    }
  }

  lemma GoneWith(notes: seq<Note>, n: Note)
    ensures GoneBy(notes + [n]) == GoneBy(notes) + (if n.Cut? then BothWays(n.from, n.to) else {})
  {
    assert (notes + [n])[..|notes|] == notes;
  }

  lemma JoinedLeft(rs: Rooms, flat: seq<Move>, notes: seq<Note>, x: Room, y: Room)
    ensures Joined(Left(rs, flat, notes), x, y) <==>
            Joined(flat, x, y) && rs.out(x) == rs.out(y) && (x, y) !in GoneBy(notes)
  {
    var left := Without(flat, GoneBy(notes));
    SameSettingIs(rs.out, left, (x, y));
    SameSettingIs(rs.out, left, (y, x));
    WithoutIs(flat, GoneBy(notes), (x, y));
    WithoutIs(flat, GoneBy(notes), (y, x));
    GoneBothWays(notes, x, y);
  }

  // -------------------------------------------------------- why a cut was made

  predicate WordedAt(rs: Rooms, path: seq<Room>, k: nat)
    requires k < |path| - 1
  {
    rs.slopes(rs.desc(path[k])) || rs.slopes(rs.desc(path[k + 1]))
  }

  ghost predicate OneDescription(rs: Rooms, path: seq<Room>) {
    forall i, j :: 0 <= i < j < |path| ==> rs.desc(path[i]) == rs.desc(path[j])
  }

  /** Move `k` of the route is the one to cut: its last worded move, else its last. */
  ghost predicate ToCut(rs: Rooms, path: seq<Room>, k: nat, worded: bool) {
    && k < |path| - 1
    && (worded ==> WordedAt(rs, path, k))
    && (!worded ==> k == |path| - 2 && !WordedAt(rs, path, k))
    && (forall j :: (if worded then k + 1 else 0) <= j < |path| - 1 ==> !WordedAt(rs, path, j))
  }

  /** The route that was there when the note was made. */
  ghost predicate Explains(rs: Rooms, left: seq<Move>, n: Note, path: seq<Room>) {
    match n
    case Maze(a, b, _) => ShortestRoute(left, a, b, path) && OneDescription(rs, path)
    case Cut(x, y, worded, (a, b), _) =>
      && ShortestRoute(left, a, b, path) && !OneDescription(rs, path)
      && exists k: nat :: ToCut(rs, path, k, worded) && path[k] == x && path[k + 1] == y
  }

  ghost predicate Explained(rs: Rooms, left: seq<Move>, n: Note) {
    exists path :: Explains(rs, left, n, path)
  }

  /** Every note tells of a shortest route over the moves left by the notes before it. */
  ghost predicate Justified(rs: Rooms, flat: seq<Move>, notes: seq<Note>) {
    forall i :: 0 <= i < |notes| ==> Explained(rs, Left(rs, flat, notes[..i]), notes[i])
  }

  lemma JustifiedWith(rs: Rooms, flat: seq<Move>, notes: seq<Note>, n: Note)
    requires Justified(rs, flat, notes) && Explained(rs, Left(rs, flat, notes), n)
    ensures Justified(rs, flat, notes + [n])
  {
    var more := notes + [n];
    forall i | 0 <= i < |more|
      ensures Explained(rs, Left(rs, flat, more[..i]), more[i])
    {
      assert more[..i] == notes[..i];
      if i == |notes| {
        assert more[..i] == notes;
      } else {
        assert Explained(rs, Left(rs, flat, notes[..i]), notes[i]);
      }
    }
  }

  // ------------------------------------------------------------ what is settled

  function CutsFor(notes: seq<Note>, m: Move): (n: nat) {
    if notes == [] then 0
    else
      var last := notes[|notes| - 1];
      CutsFor(notes[..|notes| - 1], m) + if last.Cut? && last.because == m then 1 else 0
  }

  ghost predicate MazeAt(notes: seq<Note>, m: Move) {
    exists i :: 0 <= i < |notes| && notes[i].Maze? && notes[i].from == m.0 && notes[i].to == m.1
  }

  /** No level route is left between the two rooms, or they lie in a maze, or the most
      cuts were made for them. */
  ghost predicate Settled(rs: Rooms, flat: seq<Move>, notes: seq<Note>, m: Move) {
    !Linked(Left(rs, flat, notes), m.0, m.1) || MazeAt(notes, m) || CutsFor(notes, m) >= MOST
  }

  /** Later notes unsettle nothing: cutting only takes moves away. */
  lemma SettledStays(rs: Rooms, flat: seq<Move>, notes: seq<Note>, n: Note, m: Move)
    requires Settled(rs, flat, notes, m)
    ensures Settled(rs, flat, notes + [n], m)
  {
    var more := notes + [n];
    assert more[..|notes|] == notes;
    if MazeAt(notes, m) {
      var i :| 0 <= i < |notes| && notes[i].Maze? && notes[i].from == m.0 && notes[i].to == m.1;
      assert more[i] == notes[i];
    } else if Linked(Left(rs, flat, more), m.0, m.1) {
      GoneWith(notes, n);
      forall e | e in Left(rs, flat, more)
        ensures e in Left(rs, flat, notes)
      {
        SameSettingIs(rs.out, Without(flat, GoneBy(more)), e);
        SameSettingIs(rs.out, Without(flat, GoneBy(notes)), e);
        WithoutIs(flat, GoneBy(more), e);
        WithoutIs(flat, GoneBy(notes), e);
      }
      LinkedMore(Left(rs, flat, more), Left(rs, flat, notes), m.0, m.1);
    }
  }

  // -------------------------------------------------------------- the cutting

  /** Whether every room of the route has one description. */
  method IsMaze(rs: Rooms, path: seq<Room>) returns (maze: bool)
    requires |path| > 0
    ensures maze <==> OneDescription(rs, path)
  {
    var i := 1;
    while i < |path|
      invariant 1 <= i <= |path|
      invariant forall j :: 0 <= j < i ==> rs.desc(path[j]) == rs.desc(path[0])
    {
      if rs.desc(path[i]) != rs.desc(path[0]) {
        return false;
      }
      i := i + 1;
    }
    return true;
  }

  /** The move of a route to cut. */
  method Choose(rs: Rooms, path: seq<Room>) returns (k: nat, worded: bool)
    requires |path| > 1
    ensures ToCut(rs, path, k, worded)
  {
    k, worded := |path| - 2, false;
    var i := 0;
    while i < |path| - 1
      invariant 0 <= i <= |path| - 1
      invariant worded ==> k < i && WordedAt(rs, path, k)
      invariant !worded ==> k == |path| - 2
      invariant forall j :: (if worded then k + 1 else 0) <= j < i ==> !WordedAt(rs, path, j)
    {
      if WordedAt(rs, path, i) {
        k, worded := i, true;
      }
      i := i + 1;
    }
  }

  /** Takes a move out of the neighbours, both ways. */
  method Discard(rs: Rooms, near0: Near, n: Note, ghost flat: seq<Move>, ghost notes: seq<Note>) returns (near: Near)
    requires n.Cut? && Shows(near0, Left(rs, flat, notes))
    ensures Shows(near, Left(rs, flat, notes + [n]))
  {
    var x, y := n.from, n.to;
    near := near0[x := Next(near0, x) - {y}];
    near := near[y := Next(near, y) - {x}];
    GoneWith(notes, n);
    forall u, v
      ensures v in Next(near, u) <==> Joined(Left(rs, flat, notes + [n]), u, v)
    {
      JoinedLeft(rs, flat, notes, u, v);
      JoinedLeft(rs, flat, notes + [n], u, v);
      assert v in Next(near0, u) <==> Joined(Left(rs, flat, notes), u, v);
    }
  }

  lemma OneRoomIsAMaze(rs: Rooms, path: seq<Room>)
    requires |path| == 1
    ensures OneDescription(rs, path)
  {
  }

  /** The note was made for the climb. */
  predicate MadeFor(n: Note, c: Climb) {
    match n
    case Maze(a, b, step) => a == c.a && b == c.b && step == c.step
    case Cut(_, _, _, because, step) => because == (c.a, c.b) && step == c.step
  }

  /** `notes` adds to `notes0` notes made for the climb, at most `MOST` of them cuts. */
  ghost predicate CutFor(notes0: seq<Note>, notes: seq<Note>, c: Climb) {
    && notes0 <= notes
    && (forall i :: |notes0| <= i < |notes| ==> MadeFor(notes[i], c))
    && CutsFor(notes, (c.a, c.b)) <= CutsFor(notes0, (c.a, c.b)) + MOST
    && (forall m :: m != (c.a, c.b) ==> CutsFor(notes, m) == CutsFor(notes0, m))
  }

  /** Cuts routes between the ends of a climb until none is left, a maze is met, or the
      most cuts were made. */
  method CutBetween(rs: Rooms, c: Climb, near0: Near, notes0: seq<Note>, ghost flat: seq<Move>)
    returns (near: Near, notes: seq<Note>)
    requires Shows(near0, Left(rs, flat, notes0)) && Justified(rs, flat, notes0)
    ensures Shows(near, Left(rs, flat, notes)) && Justified(rs, flat, notes)
    ensures Settled(rs, flat, notes, (c.a, c.b))
    ensures forall m :: Settled(rs, flat, notes0, m) ==> Settled(rs, flat, notes, m)
    ensures CutFor(notes0, notes, c)
  {
    near, notes := near0, notes0;
    var i := 0;
    while i < MOST
      invariant 0 <= i <= MOST && CutsFor(notes, (c.a, c.b)) == CutsFor(notes0, (c.a, c.b)) + i
      invariant CutFor(notes0, notes, c)
      invariant Shows(near, Left(rs, flat, notes)) && Justified(rs, flat, notes)
      invariant forall m :: Settled(rs, flat, notes0, m) ==> Settled(rs, flat, notes, m)
    {
      var n := NextNote(rs, c, near, notes, flat);
      if n.None? {
        return;
      }
      forall m | Settled(rs, flat, notes, m)
        ensures Settled(rs, flat, notes + [n.value], m)
      {
        SettledStays(rs, flat, notes, n.value, m);
      }
      JustifiedWith(rs, flat, notes, n.value);
      MadeForIt(notes0, notes, n.value, c);
      if n.value.Maze? {
        assert MazeAt(notes + [n.value], (c.a, c.b)) by {
          assert (notes + [n.value])[|notes|] == n.value;
        }
        LeftByMaze(rs, flat, notes, n.value);
        notes := notes + [n.value];
        return;
      }
      near := Discard(rs, near, n.value, flat, notes);
      notes := notes + [n.value];
      i := i + 1;
    }
  }

  lemma Counted(notes: seq<Note>, n: Note, m: Move)
    ensures CutsFor(notes + [n], m) == CutsFor(notes, m) + if n.Cut? && n.because == m then 1 else 0
  {
    assert (notes + [n])[..|notes|] == notes;
  }

  /** One more note made for the climb, while fewer than `MOST` of them are cuts. */
  lemma MadeForIt(notes0: seq<Note>, notes: seq<Note>, n: Note, c: Climb)
    requires CutFor(notes0, notes, c) && MadeFor(n, c)
    requires CutsFor(notes, (c.a, c.b)) < CutsFor(notes0, (c.a, c.b)) + MOST
    ensures CutFor(notes0, notes + [n], c)
    ensures CutsFor(notes + [n], (c.a, c.b)) == CutsFor(notes, (c.a, c.b)) + if n.Cut? then 1 else 0
  {
    forall m
      ensures CutsFor(notes + [n], m) == CutsFor(notes, m) + if n.Cut? && n.because == m then 1 else 0
    {
      Counted(notes, n, m);
    }
    forall i | |notes0| <= i < |notes + [n]|
      ensures MadeFor((notes + [n])[i], c)
    {
      if i < |notes| {
        assert MadeFor(notes[i], c);
      }
    }
  }

  lemma LeftByMaze(rs: Rooms, flat: seq<Move>, notes: seq<Note>, n: Note)
    requires n.Maze?
    ensures Left(rs, flat, notes + [n]) == Left(rs, flat, notes)
  {
    GoneWith(notes, n);
  }

  /** The note to make for a climb as the moves now stand; none exactly when no route is left. */
  method NextNote(rs: Rooms, c: Climb, near: Near, ghost notes: seq<Note>, ghost flat: seq<Move>) returns (n: Option<Note>)
    requires Shows(near, Left(rs, flat, notes))
    ensures n.None? <==> !Linked(Left(rs, flat, notes), c.a, c.b)
    ensures n.Some? ==> Explained(rs, Left(rs, flat, notes), n.value)
    ensures n.Some? ==> MadeFor(n.value, c)
  {
    ghost var left := Left(rs, flat, notes);
    var route := Route(near, c.a, c.b, left);
    if route.None? {
      return None;
    }
    var path := route.value;
    var maze := IsMaze(rs, path);
    if maze {
      var note := Maze(c.a, c.b, c.step);
      assert Explains(rs, left, note, path);
      return Some(note);
    }
    if |path| == 1 {
      OneRoomIsAMaze(rs, path);
    }
    var k, worded := Choose(rs, path);
    var note := Cut(path[k], path[k + 1], worded, (c.a, c.b), c.step);
    assert Explains(rs, left, note, path);
    return Some(note);
  }

  predicate IndoorRule(rs: Rooms, c: Climb) {
    c.source == Rule && !rs.out(c.a) && !rs.out(c.b)
  }

  ghost predicate SettledClimb(rs: Rooms, flat: seq<Move>, notes: seq<Note>, c: Climb) {
    IndoorRule(rs, c) ==> Settled(rs, flat, notes, (c.a, c.b)) || Settled(rs, flat, notes, (c.b, c.a))
  }

  /** How many of the climbs of the map's own rule indoors go from `m.0` to `m.1`. */
  function Listed(rs: Rooms, vertical: seq<Climb>, m: Move): (n: nat) {
    if vertical == [] then 0
    else
      var c := vertical[|vertical| - 1];
      Listed(rs, vertical[..|vertical| - 1], m) + if IndoorRule(rs, c) && (c.a, c.b) == m then 1 else 0
  }

  ghost predicate MadeForOne(rs: Rooms, vertical: seq<Climb>, n: Note) {
    exists j :: 0 <= j < |vertical| && IndoorRule(rs, vertical[j]) && MadeFor(n, vertical[j])
  }

  /** Every note was made for an indoor climb of the map's own rule, at most `MOST` of them
      cuts for each, and no climb is cut for both ways. */
  ghost predicate Earned(rs: Rooms, vertical: seq<Climb>, notes: seq<Note>) {
    && (forall i :: 0 <= i < |notes| ==> MadeForOne(rs, vertical, notes[i]))
    && (forall m :: CutsFor(notes, m) <= MOST * Listed(rs, vertical, m))
    && (forall m :: CutsFor(notes, m) > 0 && CutsFor(notes, Back(m)) > 0 ==> m.0 == m.1)
  }

  function Back(m: Move): (b: Move) {
    (m.1, m.0)
  }

  /** Only pairs dealt with were cut for, none of them both ways. */
  ghost predicate OneWay(notes: seq<Note>, done: set<Move>) {
    && (forall m :: CutsFor(notes, m) > 0 ==> m in done)
    && (forall m :: m in done && Back(m) in done ==> m.0 == m.1)
  }

  lemma EarnedMore(rs: Rooms, vertical: seq<Climb>, c: Climb, notes0: seq<Note>, notes: seq<Note>, done: set<Move>)
    requires Earned(rs, vertical, notes0) && OneWay(notes0, done)
    requires if IndoorRule(rs, c) && (c.b, c.a) !in done then CutFor(notes0, notes, c) else notes == notes0
    ensures Earned(rs, vertical + [c], notes)
    ensures IndoorRule(rs, c) && (c.b, c.a) !in done ==> OneWay(notes, done + {(c.a, c.b)})
  {
    var more := vertical + [c];
    assert more[..|vertical|] == vertical;
    forall i | 0 <= i < |notes|
      ensures MadeForOne(rs, more, notes[i])
    {
      if i < |notes0| {
        assert MadeForOne(rs, vertical, notes0[i]);
        var j :| 0 <= j < |vertical| && IndoorRule(rs, vertical[j]) && MadeFor(notes0[i], vertical[j]);
        assert more[j] == vertical[j];
      } else {
        assert more[|vertical|] == c;
      }
    }
    forall m
      ensures CutsFor(notes, m) <= MOST * Listed(rs, more, m)
    {
      assert CutsFor(notes0, m) <= MOST * Listed(rs, vertical, m);
    }
    if IndoorRule(rs, c) && (c.b, c.a) !in done {
      var now := done + {(c.a, c.b)};
      forall m | m in now && Back(m) in now
        ensures m.0 == m.1
      {
        assert Back(Back(m)) == m;
      }
    }
  }

  /** What holds once the climbs in `vertical` were looked at. */
  ghost predicate CutSoFar(rs: Rooms, flat: seq<Move>, vertical: seq<Climb>, notes: seq<Note>, done: set<Move>) {
    && Justified(rs, flat, notes)
    && Earned(rs, vertical, notes)
    && OneWay(notes, done)
    && (forall m :: m in done ==> Settled(rs, flat, notes, m))
    && (forall j :: 0 <= j < |vertical| ==> SettledClimb(rs, flat, notes, vertical[j]))
  }

  /** Looks at one more climb. */
  method CutBeside(rs: Rooms, c: Climb, near0: Near, notes0: seq<Note>, done0: set<Move>,
                   ghost flat: seq<Move>, ghost vertical: seq<Climb>)
    returns (near: Near, notes: seq<Note>, done: set<Move>)
    requires Shows(near0, Left(rs, flat, notes0)) && CutSoFar(rs, flat, vertical, notes0, done0)
    ensures Shows(near, Left(rs, flat, notes)) && CutSoFar(rs, flat, vertical + [c], notes, done)
    ensures IndoorRule(rs, c) && (c.b, c.a) !in done0 ==> CutFor(notes0, notes, c) && done == done0 + {(c.a, c.b)}
    ensures !IndoorRule(rs, c) || (c.b, c.a) in done0 ==> notes == notes0 && done == done0
  {
    near, notes, done := near0, notes0, done0;
    if IndoorRule(rs, c) && (c.b, c.a) !in done {
      near, notes := CutBetween(rs, c, near, notes, flat);
      done := done + {(c.a, c.b)};
    }
    EarnedMore(rs, vertical, c, notes0, notes, done0);
    forall j | 0 <= j < |vertical + [c]|
      ensures SettledClimb(rs, flat, notes, (vertical + [c])[j])
    {
      if j < |vertical| {
        assert SettledClimb(rs, flat, notes0, vertical[j]);
      }
    }
  }

  /** Cuts the slopes beside every indoor climb of the map's own rule, and for no other. Of
      the level moves only the cut ones go. */
  method CutSlopes(rs: Rooms, flat: seq<Move>, vertical: seq<Climb>) returns (left: seq<Move>, notes: seq<Note>)
    ensures left == Without(flat, GoneBy(notes)) && Justified(rs, flat, notes)
    ensures forall i :: 0 <= i < |vertical| ==> SettledClimb(rs, flat, notes, vertical[i])
    ensures Earned(rs, vertical, notes)
  {
    notes := [];
    var near := Neighbours(SameSetting(rs.out, flat));
    var done: set<Move> := {};
    NoneGone(flat);
    var i := 0;
    while i < |vertical|
      invariant 0 <= i <= |vertical|
      invariant Shows(near, Left(rs, flat, notes)) && CutSoFar(rs, flat, vertical[..i], notes, done)
    {
      near, notes, done := CutBeside(rs, vertical[i], near, notes, done, flat, vertical[..i]);
      assert vertical[..i + 1] == vertical[..i] + [vertical[i]];
      i := i + 1;
    }
    assert vertical[..i] == vertical;
    left := Without(flat, GoneBy(notes));
  }

  lemma {:induction false} NoneGone(flat: seq<Move>)
    ensures Without(flat, GoneBy([])) == flat
  {
    if flat != [] {
      NoneGone(flat[..|flat| - 1]);
    }
  }

  // ----------------------------------------------------- doorways stay whole

  lemma JustifiedFront(rs: Rooms, flat: seq<Move>, notes: seq<Note>)
    requires Justified(rs, flat, notes) && notes != []
    ensures Justified(rs, flat, notes[..|notes| - 1])
    ensures Explained(rs, Left(rs, flat, notes[..|notes| - 1]), notes[|notes| - 1])
  {
    var front := notes[..|notes| - 1];
    forall i | 0 <= i < |front|
      ensures Explained(rs, Left(rs, flat, front[..i]), front[i])
    {
      assert front[..i] == notes[..i];
      assert Explained(rs, Left(rs, flat, notes[..i]), notes[i]);
    }
  }

  lemma CutIsJoined(rs: Rooms, left: seq<Move>, n: Note)
    requires Explained(rs, left, n) && n.Cut?
    ensures Joined(left, n.from, n.to)
  {
    var path :| Explains(rs, left, n, path);
    var k: nat :| ToCut(rs, path, k, n.worded) && path[k] == n.from && path[k + 1] == n.to;
    assert Joined(left, path[k], path[k + 1]);
  }

  lemma {:induction false} CutsAreOfOneSetting(rs: Rooms, flat: seq<Move>, notes: seq<Note>, x: Room, y: Room)
    requires Justified(rs, flat, notes) && (x, y) in GoneBy(notes)
    ensures rs.out(x) == rs.out(y) && Joined(flat, x, y)
  {
    var front, n := notes[..|notes| - 1], notes[|notes| - 1];
    JustifiedFront(rs, flat, notes);
    if (x, y) in GoneBy(front) {
      CutsAreOfOneSetting(rs, flat, front, x, y);
    } else {
      CutIsJoined(rs, Left(rs, flat, front), n);
      JoinedLeft(rs, flat, front, n.from, n.to);
    }
  }

  /** No doorway is ever cut: what joins indoors and outdoors stays as it was. */
  lemma {:induction false} DoorwaysStay(rs: Rooms, flat: seq<Move>, notes: seq<Note>, part: seq<Move>)
    requires Justified(rs, flat, notes)
    ensures Doorways(rs.out, Without(part, GoneBy(notes))) == Doorways(rs.out, part)
  {
    if part != [] {
      var front, m := part[..|part| - 1], part[|part| - 1];
      DoorwaysStay(rs, flat, notes, front);
      if m in GoneBy(notes) {
        CutsAreOfOneSetting(rs, flat, notes, m.0, m.1);
      } else {
        var rest := Without(front, GoneBy(notes));
        assert (rest + [m])[..|rest|] == rest;
      }
    }
  }
}
