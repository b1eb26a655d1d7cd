/** Joining rooms into levels: a union-find with path halving, and what it means. */
module Levels {
  type Room = nat

  /** One move that joins two rooms. */
  type Move = (Room, Room)

  /** Who says a climb changes floor: the map's own rule, or a reader. */
  datatype Source = Rule | Reader

  /** A move from `a` to `b` that goes up (or, negative, down) by `step`. */
  datatype Climb = Climb(a: Room, b: Room, step: int, source: Source)

  /** What is known of the ground: which rooms are outdoors, which pairs share a plate,
      stand on something built, or are joined by a slope's command, and which
      climbs lead into a small dead end. */
  datatype Ground = Ground(
    out: Room -> bool,
    onePlate: (Room, Room) -> bool,
    built: (Room, Room) -> bool,
    slope: (Room, Room) -> bool,
    smallPocket: (Room, Room) -> bool)
  {
    /** A climb that is really a hillside, so that its two ends are on one level. */
    predicate Flattened(c: Climb) {
      && out(c.a) && out(c.b) && !built(c.a, c.b)
      && (onePlate(c.a, c.b)
          || ((c.source == Rule || slope(c.a, c.b)) && !smallPocket(c.a, c.b)))
    }
  }

  predicate MoveWithin(rooms: set<Room>, m: Move) {
    m.0 in rooms && m.1 in rooms
  }

  predicate ClimbWithin(rooms: set<Room>, c: Climb) {
    c.a in rooms && c.b in rooms
  }

  // --------------------------------------------------- what joining means

  ghost predicate Joined(moves: seq<Move>, a: Room, b: Room) {
    (a, b) in moves || (b, a) in moves
  }

  /** A chain of joined rooms, from its first to its last. */
  ghost predicate Chain(moves: seq<Move>, path: seq<Room>) {
    |path| > 0 && forall i :: 0 <= i < |path| - 1 ==> Joined(moves, path[i], path[i + 1])
  }

  ghost predicate Joins(moves: seq<Move>, a: Room, b: Room, path: seq<Room>) {
    Chain(moves, path) && path[0] == a && path[|path| - 1] == b
  }

  ghost predicate Linked(moves: seq<Move>, a: Room, b: Room) {
    exists path :: Joins(moves, a, b, path)
  }

  lemma LinkedSelf(moves: seq<Move>, a: Room)
    ensures Linked(moves, a, a)
  {
    assert Joins(moves, a, a, [a]);
  }

  lemma LinkedStep(moves: seq<Move>, a: Room, b: Room)
    requires Joined(moves, a, b)
    ensures Linked(moves, a, b)
  {
    assert Joins(moves, a, b, [a, b]);
  }

  lemma LinkedThrough(moves: seq<Move>, a: Room, b: Room, c: Room)
    requires Linked(moves, a, b) && Linked(moves, b, c)
    ensures Linked(moves, a, c)
  {
    var p :| Joins(moves, a, b, p);
    var q :| Joins(moves, b, c, q);
    var r := p + q[1..];
    forall i | 0 <= i < |r| - 1
      ensures Joined(moves, r[i], r[i + 1])
    {
      if i >= |p| - 1 {
        assert r[i] == q[i - |p| + 1] && r[i + 1] == q[i - |p| + 2];
      }
    }
    assert Joins(moves, a, c, r);
  }

  lemma LinkedBack(moves: seq<Move>, a: Room, b: Room)
    requires Linked(moves, a, b)
    ensures Linked(moves, b, a)
  {
    var p :| Joins(moves, a, b, p);
    var r := seq(|p|, i requires 0 <= i < |p| => p[|p| - 1 - i]);
    forall i | 0 <= i < |r| - 1
      ensures Joined(moves, r[i], r[i + 1])
    {
      assert Joined(moves, p[|p| - 2 - i], p[|p| - 2 - i + 1]);
    }
    assert Joins(moves, b, a, r);
  }

  lemma LinkedMore(moves: seq<Move>, more: seq<Move>, a: Room, b: Room)
    requires Linked(moves, a, b) && forall m :: m in moves ==> m in more
    ensures Linked(more, a, b)
  {
    var p :| Joins(moves, a, b, p);
    assert Joins(more, a, b, p);
  }

  // ------------------------------------------------------------ the forest

  /** Whether `of` says the same of two rooms exactly when `moves` link them. */
  ghost predicate Tells(rooms: set<Room>, of: map<Room, Room>, moves: seq<Move>) {
    of.Keys == rooms && forall a, b :: a in rooms && b in rooms ==> (of[a] == of[b] <==> Linked(moves, a, b))
  }

  type Parents = map<Room, Room>

  /** One room's place in a forest: its parent, its root, and a height that grows
      along `parent` and stays below `top`. */
  ghost predicate Placed(parent: Parents, root: Parents, height: map<Room, nat>, top: nat, x: Room) {
    && x in parent && x in root && x in height && height[x] <= top
    && parent[x] in parent && root[x] in parent
    && parent[x] in root && root[parent[x]] == root[x]
    && parent[root[x]] == root[x]
    && (parent[x] == x ==> root[x] == x)
    && (parent[x] != x ==> parent[x] in height && height[x] < height[parent[x]])
  }

  ghost predicate Rooted(parent: Parents, root: Parents, height: map<Room, nat>, top: nat) {
    && parent.Keys == root.Keys == height.Keys
    && forall x {:trigger Placed(parent, root, height, top, x)} :: x in parent ==> Placed(parent, root, height, top, x)
  }

  lemma HalvingKeeps(parent: Parents, root: Parents, height: map<Room, nat>, top: nat, x: Room)
    requires Rooted(parent, root, height, top) && x in parent
    ensures parent[x] in parent
    ensures Rooted(parent[x := parent[parent[x]]], root, height, top)
  {
    assert Placed(parent, root, height, top, x);
    assert Placed(parent, root, height, top, parent[x]);
    var next := parent[x := parent[parent[x]]];
    forall y | y in next
      ensures Placed(next, root, height, top, y)
    {
      assert Placed(parent, root, height, top, y);
      assert Placed(parent, root, height, top, root[y]);
    }
  }

  /** What joining the root `ra` under the root `rb` makes of the roots. */
  function Rerooted(root: Parents, ra: Room, rb: Room): Parents {
    map k | k in root :: if root[k] == ra then rb else root[k]
  }

  /** One room's place after `ra` goes under `rb`, raised to height `h`. */
  lemma JoiningPlaces(parent: Parents, root: Parents, height: map<Room, nat>, top: nat, ra: Room, rb: Room, h: nat, y: Room)
    requires Placed(parent, root, height, top, y)
    requires parent.Keys == root.Keys == height.Keys
    requires ra in parent && rb in parent && ra != rb && parent[ra] == ra && parent[rb] == rb
    requires root[ra] == ra && root[rb] == rb && top < h && height[ra] < h
    ensures Placed(parent[ra := rb], Rerooted(root, ra, rb), height[rb := h], h, y)
  {
    assert root[y] == ra || (parent[ra := rb])[root[y]] == root[y];
  }

  lemma JoiningKeeps(parent: Parents, root: Parents, height: map<Room, nat>, top: nat, ra: Room, rb: Room)
    requires Rooted(parent, root, height, top) && ra in parent && rb in parent && ra != rb
    requires parent[ra] == ra && parent[rb] == rb
    ensures Rooted(parent[ra := rb], Rerooted(root, ra, rb), height[rb := top + 1], top + 1)
  {
    assert Placed(parent, root, height, top, ra) && Placed(parent, root, height, top, rb);
    var parent', root', height' := parent[ra := rb], Rerooted(root, ra, rb), height[rb := top + 1];
    assert parent'.Keys == root'.Keys == height'.Keys;
    forall y | y in parent
      ensures Placed(parent', root', height', top + 1, y)
    {
      assert Placed(parent, root, height, top, y);
      JoiningPlaces(parent, root, height, top, ra, rb, top + 1, y);
    }
  }

  class Forest {
    var parent: Parents
    ghost var root: Parents
    ghost var height: map<Room, nat>
    ghost var top: nat

    ghost predicate Valid()
      reads this
    {
      Rooted(parent, root, height, top)
    }

    constructor (rooms: set<Room>)
      ensures Valid() && parent.Keys == rooms
      ensures root == map k | k in rooms :: k
    {
      parent := map k | k in rooms :: k;
      root := map k | k in rooms :: k;
      height := map k | k in rooms :: 0;
      top := 0;
    }

    /** The root of `x`, halving the path to it. No root changes. */
    method Find(x: Room) returns (r: Room)
      requires Valid() && x in parent
      modifies `parent
      ensures Valid() && parent.Keys == old(parent.Keys)
      ensures r in parent && r == root[x] && parent[r] == r
    {
      var at := x;
      assert Placed(parent, root, height, top, at);
      while parent[at] != at
        invariant Valid() && parent.Keys == old(parent.Keys)
        invariant at in parent && root[at] == root[x] && Placed(parent, root, height, top, at)
        decreases top - height[at]
      {
        assert Placed(parent, root, height, top, parent[at]);
        HalvingKeeps(parent, root, height, top, at);
        parent := parent[at := parent[parent[at]]];
        at := parent[at];
        assert Placed(parent, root, height, top, at);
      }
      r := at;
    }

    /** `parent[find(a)] = find(b)`: every room with `a`'s root now has `b`'s. */
    method Join(a: Room, b: Room)
      requires Valid() && a in parent && b in parent
      modifies this
      ensures Valid() && parent.Keys == old(parent.Keys)
      ensures root == old(Rerooted(root, root[a], root[b]))
    {
      var rb := Find(b);
      var ra := Find(a);
      assert Placed(parent, root, height, top, b);
      if ra != rb {
        JoiningKeeps(parent, root, height, top, ra, rb);
        height, top := height[rb := top + 1], top + 1;
      } else {
        assert Rerooted(root, ra, rb) == root;
        assert parent[ra := rb] == parent;
      }
      root := Rerooted(root, ra, rb);
      parent := parent[ra := rb];
    }
  }

  // ------------------------------------------- the roots tell who is linked

  lemma {:induction false} ChainKeeps(rooms: set<Room>, of: Parents, moves: seq<Move>, path: seq<Room>, i: nat)
    requires Chain(moves, path) && i < |path| && path[0] in rooms && of.Keys == rooms
    requires forall m :: m in moves ==> MoveWithin(rooms, m) && of[m.0] == of[m.1]
    ensures path[i] in rooms && of[path[i]] == of[path[0]]
  {
    if i > 0 {
      ChainKeeps(rooms, of, moves, path, i - 1);
      assert Joined(moves, path[i - 1], path[i - 1 + 1]);
      var x, y := path[i - 1], path[i];
      if (x, y) in moves {
        assert of[(x, y).0] == of[(x, y).1];
      } else {
        assert of[(y, x).0] == of[(y, x).1];
      }
    }
  }

  lemma LinkedKeeps(rooms: set<Room>, of: Parents, moves: seq<Move>, a: Room, b: Room)
    requires Linked(moves, a, b) && a in rooms && of.Keys == rooms
    requires forall m :: m in moves ==> MoveWithin(rooms, m) && of[m.0] == of[m.1]
    ensures b in rooms && of[a] == of[b]
  {
    var p :| Joins(moves, a, b, p);
    ChainKeeps(rooms, of, moves, p, |p| - 1);
  }

  lemma NoneTells(rooms: set<Room>)
    ensures Tells(rooms, map k | k in rooms :: k, [])
  {
    var of: Parents := map k | k in rooms :: k;
    forall a, b | a in rooms && b in rooms
      ensures of[a] == of[b] <==> Linked([], a, b)
    {
      if Linked([], a, b) {
        LinkedKeeps(rooms, of, [], a, b);
      }
      LinkedSelf([], a);
    }
  }

  lemma JoinedAreTold(rooms: set<Room>, root: Parents, moves: seq<Move>, a: Room, b: Room, x: Room, y: Room)
    requires Tells(rooms, root, moves) && a in rooms && b in rooms && x in rooms && y in rooms
    requires Rerooted(root, root[a], root[b])[x] == Rerooted(root, root[a], root[b])[y]
    ensures Linked(moves + [(a, b)], x, y)
  {
    var more := moves + [(a, b)];
    LinkedStep(more, a, b);
    LinkedBack(more, a, b);
    if root[x] == root[y] {
      LinkedMore(moves, more, x, y);
    } else if root[x] == root[a] {
      LinkedMore(moves, more, x, a);
      LinkedMore(moves, more, b, y);
      LinkedThrough(more, x, a, b);
      LinkedThrough(more, x, b, y);
    } else {
      LinkedMore(moves, more, x, b);
      LinkedMore(moves, more, a, y);
      LinkedThrough(more, x, b, a);
      LinkedThrough(more, x, a, y);
    }
  }

  lemma JoinTells(rooms: set<Room>, root: Parents, moves: seq<Move>, a: Room, b: Room)
    requires Tells(rooms, root, moves) && a in rooms && b in rooms
    requires forall m :: m in moves ==> MoveWithin(rooms, m)
    ensures Tells(rooms, Rerooted(root, root[a], root[b]), moves + [(a, b)])
  {
    var more, of := moves + [(a, b)], Rerooted(root, root[a], root[b]);
    forall m | m in more
      ensures MoveWithin(rooms, m) && of[m.0] == of[m.1]
    {
      if m in moves {
        LinkedStep(moves, m.0, m.1);
      }
    }
    forall x, y | x in rooms && y in rooms
      ensures of[x] == of[y] <==> Linked(more, x, y)
    {
      if of[x] == of[y] {
        JoinedAreTold(rooms, root, moves, a, b, x, y);
      } else if Linked(more, x, y) {
        LinkedKeeps(rooms, of, more, x, y);
      }
    }
  }

  // ------------------------------------------------------------ the levels

  /** The level moves between rooms of one setting. */
  function SameSetting(out: Room -> bool, flat: seq<Move>): (joined: seq<Move>) {
    if flat == [] then []
    else
      var rest, m := SameSetting(out, flat[..|flat| - 1]), flat[|flat| - 1];
      if out(m.0) == out(m.1) then rest + [m] else rest
  }

  /** The climbs that are hillsides, as moves. */
  function Hillsides(g: Ground, vertical: seq<Climb>): (joined: seq<Move>) {
    if vertical == [] then []
    else
      var rest, c := Hillsides(g, vertical[..|vertical| - 1]), vertical[|vertical| - 1];
      if g.Flattened(c) then rest + [(c.a, c.b)] else rest
  }

  /** The doorways: level moves between indoors and outdoors. */
  function Doorways(out: Room -> bool, flat: seq<Move>): (doors: seq<Move>) {
    if flat == [] then []
    else
      var rest, m := Doorways(out, flat[..|flat| - 1]), flat[|flat| - 1];
      if out(m.0) == out(m.1) then rest else rest + [m]
  }

  /** The climbs that stay climbs. */
  function Climbs(g: Ground, vertical: seq<Climb>): (climbs: seq<Climb>) {
    if vertical == [] then []
    else
      var rest, c := Climbs(g, vertical[..|vertical| - 1]), vertical[|vertical| - 1];
      if g.Flattened(c) then rest else rest + [c]
  }

  lemma {:induction false} SameSettingIs(out: Room -> bool, flat: seq<Move>, m: Move)
    ensures m in SameSetting(out, flat) <==> m in flat && out(m.0) == out(m.1)
    ensures m in Doorways(out, flat) <==> m in flat && out(m.0) != out(m.1)
  {
    if flat != [] {
      SameSettingIs(out, flat[..|flat| - 1], m);
      assert flat == flat[..|flat| - 1] + [flat[|flat| - 1]];
    }
  }

  lemma {:induction false} HillsidesIs(g: Ground, vertical: seq<Climb>, m: Move, c: Climb)
    ensures m in Hillsides(g, vertical) <==> exists k :: k in vertical && g.Flattened(k) && m == (k.a, k.b)
    ensures c in Climbs(g, vertical) <==> c in vertical && !g.Flattened(c)
  {
    if vertical != [] {
      HillsidesIs(g, vertical[..|vertical| - 1], m, c);
      assert vertical == vertical[..|vertical| - 1] + [vertical[|vertical| - 1]];
    }
  }

  lemma {:induction false} HillsidesWithin(g: Ground, vertical: seq<Climb>, rooms: set<Room>)
    requires forall c :: c in vertical ==> ClimbWithin(rooms, c)
    ensures forall m :: m in Hillsides(g, vertical) ==> MoveWithin(rooms, m)
  {
    if vertical != [] {
      HillsidesWithin(g, vertical[..|vertical| - 1], rooms);
      assert ClimbWithin(rooms, vertical[|vertical| - 1]);
    }
  }

  /** Every merge the levels are made of, in order. */
  function Merges(g: Ground, flat: seq<Move>, vertical: seq<Climb>): (merges: seq<Move>) {
    SameSetting(g.out, flat) + Hillsides(g, vertical)
  }

  /** Joins the level moves of one setting; the others are doorways. */
  method JoinFlat(forest: Forest, g: Ground, flat: seq<Move>) returns (doorways: seq<Move>)
    requires forest.Valid() && Tells(forest.parent.Keys, forest.root, [])
    requires forall m :: m in flat ==> MoveWithin(forest.parent.Keys, m)
    modifies forest
    ensures forest.Valid() && forest.parent.Keys == old(forest.parent.Keys)
    ensures Tells(forest.parent.Keys, forest.root, SameSetting(g.out, flat))
    ensures doorways == Doorways(g.out, flat)
  {
    doorways := [];
    var i := 0;
    while i < |flat|
      invariant 0 <= i <= |flat| && forest.Valid() && forest.parent.Keys == old(forest.parent.Keys)
      invariant Tells(forest.parent.Keys, forest.root, SameSetting(g.out, flat[..i]))
      invariant doorways == Doorways(g.out, flat[..i])
    {
      var m := flat[i];
      assert flat[..i + 1][..i] == flat[..i] && MoveWithin(forest.parent.Keys, m);
      if g.out(m.0) == g.out(m.1) {
        forall n | n in SameSetting(g.out, flat[..i])
          ensures MoveWithin(forest.parent.Keys, n)
        {
          SameSettingIs(g.out, flat[..i], n);
        }
        JoinTells(forest.parent.Keys, forest.root, SameSetting(g.out, flat[..i]), m.0, m.1);
        forest.Join(m.0, m.1);
      } else {
        doorways := doorways + [m];
      }
      i := i + 1;
    }
    assert flat[..i] == flat;
  }

  /** Joins the climbs that are hillsides; the others stay climbs. */
  method JoinHillsides(forest: Forest, g: Ground, vertical: seq<Climb>, ghost joined: seq<Move>) returns (climbs: seq<Climb>)
    requires forest.Valid() && Tells(forest.parent.Keys, forest.root, joined)
    requires forall m :: m in joined ==> MoveWithin(forest.parent.Keys, m)
    requires forall c :: c in vertical ==> ClimbWithin(forest.parent.Keys, c)
    modifies forest
    ensures forest.Valid() && forest.parent.Keys == old(forest.parent.Keys)
    ensures Tells(forest.parent.Keys, forest.root, joined + Hillsides(g, vertical))
    ensures climbs == Climbs(g, vertical)
  {
    climbs := [];
    assert joined + [] == joined;
    var i := 0;
    while i < |vertical|
      invariant 0 <= i <= |vertical| && forest.Valid() && forest.parent.Keys == old(forest.parent.Keys)
      invariant Tells(forest.parent.Keys, forest.root, joined + Hillsides(g, vertical[..i]))
      invariant climbs == Climbs(g, vertical[..i])
    {
      var c := vertical[i];
      assert vertical[..i + 1][..i] == vertical[..i] && ClimbWithin(forest.parent.Keys, c);
      if g.Flattened(c) {
        HillsidesWithin(g, vertical[..i], forest.parent.Keys);
        ghost var before := joined + Hillsides(g, vertical[..i]);
        JoinTells(forest.parent.Keys, forest.root, before, c.a, c.b);
        assert before + [(c.a, c.b)] == joined + Hillsides(g, vertical[..i + 1]);
        forest.Join(c.a, c.b);
      } else {
        climbs := climbs + [c];
      }
      i := i + 1;
    }
    assert vertical[..i] == vertical;
  }

  /** The level of every room: two rooms are on one level exactly when a chain of
      merged moves joins them. The moves and climbs not merged are handed on. */
  method LevelsOf(rooms: seq<Room>, g: Ground, flat: seq<Move>, vertical: seq<Climb>)
    returns (level: map<Room, Room>, doorways: seq<Move>, climbs: seq<Climb>)
    requires forall m :: m in flat ==> m.0 in rooms && m.1 in rooms
    requires forall c :: c in vertical ==> c.a in rooms && c.b in rooms
    ensures Tells((set k | k in rooms), level, Merges(g, flat, vertical))
    ensures forall k :: k in level ==> level[k] in level && level[level[k]] == level[k]
    ensures doorways == Doorways(g.out, flat) && climbs == Climbs(g, vertical)
  {
    ghost var all := set k | k in rooms;
    var forest := new Forest((set k | k in rooms));
    NoneTells(all);
    doorways := JoinFlat(forest, g, flat);
    forall m | m in SameSetting(g.out, flat)
      ensures MoveWithin(all, m)
    {
      SameSettingIs(g.out, flat, m);
    }
    climbs := JoinHillsides(forest, g, vertical, SameSetting(g.out, flat));
    level := RootsOf(forest, rooms);
  }

  /** `{k: find(k) for k in rooms}`. */
  method RootsOf(forest: Forest, rooms: seq<Room>) returns (level: map<Room, Room>)
    requires forest.Valid() && forest.parent.Keys == (set k | k in rooms)
    modifies forest
    ensures forest.Valid() && level.Keys == old(forest.root.Keys)
    ensures forall k :: k in level ==> level[k] == old(forest.root[k])
    ensures forall k :: k in level ==> level[k] in level && level[level[k]] == level[k]
  {
    level := map[];
    var i := 0;
    while i < |rooms|
      invariant 0 <= i <= |rooms| && forest.Valid() && forest.parent.Keys == old(forest.parent.Keys)
      invariant forest.root == old(forest.root)
      invariant level.Keys == set k | k in rooms[..i]
      invariant forall k :: k in level ==> k in forest.root && level[k] == forest.root[k]
    {
      var r := forest.Find(rooms[i]);
      level := level[rooms[i] := r];
      assert rooms[..i + 1] == rooms[..i] + [rooms[i]];
      i := i + 1;
    }
    assert rooms[..i] == rooms;
    assert level.Keys == forest.root.Keys;
    forall k | k in level
      ensures level[k] in level && level[level[k]] == level[k]
    {
      assert Placed(forest.parent, forest.root, forest.height, forest.top, k);
      assert Placed(forest.parent, forest.root, forest.height, forest.top, level[k]);
    }
  }
}
