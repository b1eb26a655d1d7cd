/** Rooms, exits, and what a trip's own pricing lets it cross. */
module Roads {
  import opened Options

  type RoomId = nat

  type Pair = (RoomId, RoomId)

  datatype Step = Move(command: string) | Act(what: nat)

  datatype Crossing =
    | Command(command: string)
    | Steps(steps: seq<Step>)
    | Routine(routine: nat)
    | PassThrough
    | Unported

  datatype Exit = Exit(to: RoomId, crossing: Crossing)

  datatype Posture = Unknown | Standing | Down

  /** What the walker is this tick: its posture, whether it is stunned, and how many moves
      its settings let it type ahead. */
  datatype Walker = Walker(posture: Posture, stunned: bool, typeahead: nat)

  /** The map, the walker's own prices, and the pathfinder, which is asked for a way over
      the exits that are not banned. */
  datatype World = World(
    rooms: map<RoomId, seq<Exit>>,
    price: (RoomId, Exit) -> Option<real>,
    path: (RoomId, RoomId, set<Pair>) -> Option<seq<RoomId>>,
    walker: Walker)

  predicate CanCross(c: Crossing) {
    !c.Unported?
  }

  /** What an exit costs this trip: the walker's price, unless it cannot be crossed or the
      trip has banned it. */
  function Price(w: World, banned: set<Pair>, from: RoomId, e: Exit): (p: Option<real>) {
    if CanCross(e.crossing) && (from, e.to) !in banned then w.price(from, e) else None
  }

  predicate Priced(w: World, banned: set<Pair>, from: RoomId, to: RoomId, e: Exit) {
    e.to == to && Price(w, banned, from, e).Some?
  }

  /** The exit is one the pricing admits, and no other admitted one to the same room is cheaper. */
  ghost predicate Cheapest(w: World, banned: set<Pair>, from: RoomId, to: RoomId, es: seq<Exit>, e: Exit) {
    && e in es && Priced(w, banned, from, to, e)
    && forall i :: 0 <= i < |es| && Priced(w, banned, from, to, es[i]) ==>
         Price(w, banned, from, e).value <= Price(w, banned, from, es[i]).value
  }

  /** The first cheapest admitted exit between two rooms. */
  function Pick(w: World, banned: set<Pair>, from: RoomId, to: RoomId, es: seq<Exit>): (e: Option<Exit>) {
    if es == [] then None
    else
      var rest, last := Pick(w, banned, from, to, es[..|es| - 1]), es[|es| - 1];
      if !Priced(w, banned, from, to, last) then rest
      else if rest.Some? && Price(w, banned, from, rest.value) != None
              && Price(w, banned, from, rest.value).value <= Price(w, banned, from, last).value then rest
      else Some(last)
  }

  lemma {:induction false} PickIsCheapest(w: World, banned: set<Pair>, from: RoomId, to: RoomId, es: seq<Exit>)
    ensures var e := Pick(w, banned, from, to, es);
            && (e.Some? ==> Cheapest(w, banned, from, to, es, e.value))
            && (e.None? ==> forall i :: 0 <= i < |es| ==> !Priced(w, banned, from, to, es[i]))
  {
    if es != [] {
      var front := es[..|es| - 1];
      PickIsCheapest(w, banned, from, to, front);
      assert forall i :: 0 <= i < |front| ==> es[i] == front[i];
      assert es == front + [es[|es| - 1]];
    }
  }

  /** The exit the plan means between two rooms. */
  function ExitBetween(w: World, banned: set<Pair>, from: RoomId, to: RoomId): (e: Option<Exit>) {
    if from in w.rooms then Pick(w, banned, from, to, w.rooms[from]) else None
  }

  /** A crossing that was begun: the world it was begun in, what was banned, and the exit. */
  datatype Begun = Begun(w: World, banned: set<Pair>, from: RoomId, exit: Exit)

  /** It was begun over an exit of the map that the pricing admits, the cheapest of those
      between its two rooms, and not one that was banned. */
  ghost predicate Admitted(b: Begun) {
    && b.from in b.w.rooms && CanCross(b.exit.crossing) && (b.from, b.exit.to) !in b.banned
    && Cheapest(b.w, b.banned, b.from, b.exit.to, b.w.rooms[b.from], b.exit)
  }

  lemma ExitIsAdmitted(w: World, banned: set<Pair>, from: RoomId, to: RoomId)
    ensures var e := ExitBetween(w, banned, from, to);
            e.Some? ==> e.value.to == to && Admitted(Begun(w, banned, from, e.value))
  {
    if from in w.rooms {
      PickIsCheapest(w, banned, from, to, w.rooms[from]);
    }
  }

  // ------------------------------------------------------ a trip's crossings

  /** The `i`th crossing was admitted, with every earlier ban in force. */
  ghost predicate LawfulAt(history: seq<Begun>, banned: set<Pair>, i: nat) {
    && i < |history| && Admitted(history[i]) && history[i].banned <= banned
    && forall j :: 0 <= j < i ==> history[j].banned <= history[i].banned
  }

  ghost predicate Lawful(history: seq<Begun>, banned: set<Pair>) {
    forall i: nat {:trigger LawfulAt(history, banned, i)} :: i < |history| ==> LawfulAt(history, banned, i)
  }

  lemma LawfulWith(history: seq<Begun>, w: World, banned: set<Pair>, from: RoomId, to: RoomId)
    requires Lawful(history, banned) && ExitBetween(w, banned, from, to).Some?
    ensures Lawful(history + [Begun(w, banned, from, ExitBetween(w, banned, from, to).value)], banned)
  {
    ExitIsAdmitted(w, banned, from, to);
    var more := history + [Begun(w, banned, from, ExitBetween(w, banned, from, to).value)];
    forall i: nat | i < |more|
      ensures LawfulAt(more, banned, i)
    {
      forall j | 0 <= j < i
        ensures more[j].banned <= more[i].banned
      {
        assert LawfulAt(history, banned, j);
        assert i < |history| ==> LawfulAt(history, banned, i);
      }
      assert i < |history| ==> LawfulAt(history, banned, i);
    }
  }

  lemma LawfulMore(history: seq<Begun>, banned: set<Pair>, more: set<Pair>)
    requires Lawful(history, banned) && banned <= more
    ensures Lawful(history, more)
  {
    forall i: nat | i < |history|
      ensures LawfulAt(history, more, i)
    {
      assert LawfulAt(history, banned, i);
    }
  }

  /** What was banned when a crossing was begun is not crossed then or later. */
  lemma BannedIsNeverCrossed(history: seq<Begun>, banned: set<Pair>, i: nat, j: nat)
    requires Lawful(history, banned) && i <= j < |history|
    ensures (history[j].from, history[j].exit.to) !in history[i].banned
  {
    assert LawfulAt(history, banned, j);
  }

  // ------------------------------------------------------ on record

  /** A crossing from the one room to the other is on record. */
  ghost predicate PairBegun(history: seq<Begun>, from: RoomId, to: RoomId) {
    exists i :: 0 <= i < |history| && history[i].from == from && history[i].exit.to == to
  }

  ghost predicate RoomBegun(history: seq<Begun>, room: RoomId) {
    exists i :: 0 <= i < |history| && history[i].exit.to == room
  }

  /** A crossing into each of the rooms is on record. */
  ghost predicate AllBegun(history: seq<Begun>, rooms: seq<RoomId>) {
    forall k :: 0 <= k < |rooms| ==> RoomBegun(history, rooms[k])
  }

  lemma RoomsBegunMore(history: seq<Begun>, moves: seq<Begun>, rooms: seq<RoomId>)
    requires AllBegun(history, rooms)
    ensures AllBegun(history + moves, rooms)
  {
    forall k | 0 <= k < |rooms|
      ensures RoomBegun(history + moves, rooms[k])
    {
      var i :| 0 <= i < |history| && history[i].exit.to == rooms[k];
      assert (history + moves)[i] == history[i];
    }
  }

  lemma RoomsBegun(history: seq<Begun>, moves: seq<Begun>, rooms: seq<RoomId>)
    requires |moves| == |rooms| && forall k :: 0 <= k < |moves| ==> moves[k].exit.to == rooms[k]
    ensures AllBegun(history + moves, rooms)
  {
    forall k | 0 <= k < |rooms|
      ensures RoomBegun(history + moves, rooms[k])
    {
      assert (history + moves)[|history| + k] == moves[k];
    }
  }

  lemma RoomsJoin(history: seq<Begun>, a: seq<RoomId>, b: seq<RoomId>)
    requires AllBegun(history, a) && AllBegun(history, b)
    ensures AllBegun(history, a + b)
  {
  }
}
