/** Batches of moves: how many go out at once, how far apart, and how they land. */
module Paces {
  import opened Options
  import opened Roads

  const GAP_MS := 150
  const GAP_STEP_MS := 50
  const SETTLE_MS := 1000
  const STEP_TIMEOUT_MS := 8000

  datatype Pace = Pace(typeahead: nat, gapMs: nat, learned: Option<nat>) {
    /** How many moves may be out with no answer yet. */
    function Depth(): (n: nat) {
      1 + typeahead
    }

    /** The pace after a refusal: the typeahead it named, else one less, else a longer gap. */
    function Refused(named: Option<nat>, outstanding: nat): (p: Pace) {
      if named.Some? && named.value < typeahead then this.(typeahead := named.value, learned := named)
      else if named.None? && outstanding > 1 && typeahead > 0 then
        this.(typeahead := typeahead - 1, learned := Some(typeahead - 1))
      else this.(gapMs := gapMs + GAP_STEP_MS)
    }
  }

  /** A refusal never lets more moves go ahead, and always slows: fewer at once, or wider apart. */
  lemma RefusedSlows(p: Pace, named: Option<nat>, outstanding: nat)
    ensures var q := p.Refused(named, outstanding);
            || (q.Depth() < p.Depth() && q.gapMs == p.gapMs && q.learned == Some(q.typeahead))
            || (q.Depth() == p.Depth() && q.gapMs > p.gapMs && q.learned == p.learned)
  {
  }

  /** Moves that are out: the rooms they lead to, and where and when the walker last moved. */
  datatype Batch = Batch(expected: seq<RoomId>, at: RoomId, movedAt: nat)

  datatype Ahead = Landing | Landed | Stop

  /** Where `room` first stands in the list. */
  function Position(rooms: seq<RoomId>, room: RoomId): (i: Option<nat>)
    ensures i.Some? ==> i.value < |rooms| && rooms[i.value] == room && room !in rooms[..i.value]
    ensures i.None? <==> room !in rooms
  {
    if rooms == [] then None
    else if rooms[0] == room then Some(0)
    else match Position(rooms[1..], room)
         case None => None
         case Some(i) => Some(i + 1)
  }

  /** What a batch comes to with the walker `here`: rooms passed are dropped, whatever
      arrivals were missed; a room off the way stops it. */
  function LandedAt(b: Batch, here: RoomId, ms: nat): (r: (Batch, Ahead)) {
    var i := Position(b.expected, here);
    if here != b.at && i.None? then (b, Stop)
    else
      var now := if here != b.at then Batch(b.expected[i.value + 1..], here, ms) else b;
      (now, if now.expected == [] then Landed
            else if ms >= now.movedAt + STEP_TIMEOUT_MS then Stop else Landing)
  }

  /** A batch has landed exactly when the walker is in the last room it was sent to, and is
      met there first. */
  lemma LandedWhen(b: Batch, here: RoomId, ms: nat)
    ensures LandedAt(b, here, ms).1 == Landed <==>
            if here == b.at then b.expected == []
            else b.expected != [] && b.expected[|b.expected| - 1] == here && here !in b.expected[..|b.expected| - 1]
  {
    var i := Position(b.expected, here);
    if here != b.at && i.Some? && i.value < |b.expected| - 1 {
      assert b.expected[..|b.expected| - 1][i.value] == here;
    }
    if here != b.at && i.Some? {
      assert b.expected[i.value + 1..] == [] <==> i.value == |b.expected| - 1;
    }
  }
}
