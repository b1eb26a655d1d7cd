/** The watcher behind a character's log: what it hears of the session's stream, what a lagging
    receiver loses, and what the log holds for it. */
module Watcher {
  import opened Happenings
  import opened History
  import opened Characters
  import opened Options
  import Cuts

  // ------------------------------------------------------------ the session's stream

  /** One of the session's events: its cursor, and what of it the keeper is fed. */
  datatype Event = Event(cursor: nat, said: Option<Said>)

  datatype Said = AHappening(happening: Happening) | ALine(words: Happenings.Words)

  /** An event in a receiver: read from it, or lost because the receiver lagged. */
  datatype Slot = Slot(event: Event, heard: bool)

  /** One turn of the watcher. Nothing looked at again: one event. Otherwise: the event
      received, or a loss; what else the old receiver held, read or lost; whether anything
      was lost; and the new snapshot's cursor, with what changed up to it. What the old
      receiver loses beyond the snapshot, the new one has. */
  datatype Turn =
    | Heard(event: Event)
    | Looked(received: Option<Event>, waiting: seq<Slot>, gap: bool, snapshot: nat, changes: seq<Happening>)

  /** A thing at its place in the session's stream, and whether the watcher heard it. */
  datatype Mark = Mark(item: Item, heard: bool)

  function MarksOf(e: Event, heard: bool): (ms: seq<Mark>) {
    match e.said
    case None => []
    case Some(AHappening(h)) => [Mark(Happened(e.cursor, h), heard)]
    case Some(ALine(words)) => [Mark(Spoke(e.cursor, words), heard)]
  }

  /** What is drained of a receiver: its events that the new snapshot covers. */
  function Drained(waiting: seq<Slot>, fence: nat): (ms: seq<Mark>) {
    if waiting == [] || waiting[0].event.cursor > fence then []
    else MarksOf(waiting[0].event, waiting[0].heard) + Drained(waiting[1..], fence)
  }

  function AtSnapshot(cursor: nat, changes: seq<Happening>): (ms: seq<Mark>) {
    seq(|changes|, i requires 0 <= i < |changes| => Mark(Happened(cursor, changes[i]), true))
  }

  function FirstOf(received: Option<Event>): (ms: seq<Mark>) {
    match received case Some(e) => MarksOf(e, true) case None => []
  }

  /** What comes after the event received: the drained receiver, the loss, the changes. */
  function RestOf(turn: Turn): (ms: seq<Mark>)
    requires turn.Looked?
  {
    Drained(turn.waiting, turn.snapshot) +
    (if turn.gap then [Mark(Happened(turn.snapshot, Gap), true)] else []) +
    AtSnapshot(turn.snapshot, turn.changes)
  }

  function MarksIn(turn: Turn): (ms: seq<Mark>) {
    match turn
    case Heard(event) => MarksOf(event, true)
    case Looked(received, _, _, _, _) => FirstOf(received) + RestOf(turn)
  }

  /** The session's stream over some turns, heard or not. */
  function StreamOf(turns: seq<Turn>): (ms: seq<Mark>) {
    if turns == [] then [] else MarksIn(turns[0]) + StreamOf(turns[1..])
  }

  function HeardOf(ms: seq<Mark>): (items: seq<Item>) {
    if ms == [] then []
    else HeardOf(ms[..|ms| - 1]) + (if ms[|ms| - 1].heard then [ms[|ms| - 1].item] else [])
  }

  /** What the keeper is fed over some turns. */
  function FedAll(turns: seq<Turn>): (items: seq<Item>) {
    HeardOf(StreamOf(turns))
  }

  // -------------------------------------------------- the order it comes in

  function Floor(before: nat, turn: Turn): nat {
    match turn
    case Heard(event) => event.cursor
    case Looked(_, _, _, snapshot, _) => snapshot
  }

  function FromOf(floor: nat, turn: Turn): nat
    requires turn.Looked?
  {
    match turn.received case Some(e) => e.cursor case None => floor
  }

  /** What the session promises: every event's cursor is above all before it, a receiver's
      from above the snapshot it was opened with, and a snapshot is no older than what was
      already received. A loss is noticed. What changed between two snapshots is never the
      level. */
  ghost predicate Promised(floor: nat, turn: Turn) {
    match turn
    case Heard(event) => floor < event.cursor
    case Looked(received, waiting, gap, snapshot, changes) =>
      var from := FromOf(floor, turn);
      && (received.Some? ==> floor < from)
      && floor <= from <= snapshot
      && (received.None? ==> gap)
      && (forall i :: 0 <= i < |changes| ==> !changes[i].Level?)
      && (forall i :: 0 <= i < |waiting| ==> from < waiting[i].event.cursor)
      && (forall i, j :: 0 <= i < j < |waiting| ==> waiting[i].event.cursor < waiting[j].event.cursor)
      && (forall i :: 0 <= i < |waiting| && !waiting[i].heard && waiting[i].event.cursor <= snapshot ==> gap)
  }

  ghost predicate AllPromised(floor: nat, turns: seq<Turn>)
    decreases |turns|
  {
    turns != [] ==> Promised(floor, turns[0]) && AllPromised(Floor(floor, turns[0]), turns[1..])
  }

  function LastFloor(floor: nat, turns: seq<Turn>): nat
    decreases |turns|
  {
    if turns == [] then floor else LastFloor(Floor(floor, turns[0]), turns[1..])
  }

  ghost predicate Follow(m: Mark, next: Mark) {
    m.item.cursor <= next.item.cursor && (OfEvents(next.item) ==> m.item.cursor < next.item.cursor)
  }

  ghost predicate Lies(m: Mark, lo: nat, hi: nat) {
    lo <= m.item.cursor <= hi && (OfEvents(m.item) ==> lo < m.item.cursor)
  }

  /** In order between two cursors, lines and level changes rising from above the first. */
  ghost predicate OrderedWithin(ms: seq<Mark>, lo: nat, hi: nat) {
    && (forall i, j :: 0 <= i < j < |ms| ==> Follow(ms[i], ms[j]))
    && (forall i :: 0 <= i < |ms| ==> Lies(ms[i], lo, hi))
  }

  lemma OrderedJoin(a: seq<Mark>, b: seq<Mark>, lo: nat, mid: nat, hi: nat)
    requires OrderedWithin(a, lo, mid) && OrderedWithin(b, mid, hi) && lo <= mid <= hi
    ensures OrderedWithin(a + b, lo, hi)
  {
    forall i, j | 0 <= i < j < |a + b|
      ensures Follow((a + b)[i], (a + b)[j])
    {
      if i < |a| <= j {
        assert Lies(a[i], lo, mid) && Lies(b[j - |a|], mid, hi);
      }
    }
    forall i | 0 <= i < |a + b|
      ensures Lies((a + b)[i], lo, hi)
    {
      assert if i < |a| then Lies(a[i], lo, mid) else Lies(b[i - |a|], mid, hi);
    }
  }

  lemma EventInOrder(e: Event, heard: bool, lo: nat)
    requires lo < e.cursor
    ensures OrderedWithin(MarksOf(e, heard), lo, e.cursor)
  {}

  lemma ChangesInOrder(cursor: nat, changes: seq<Happening>)
    requires forall i :: 0 <= i < |changes| ==> !changes[i].Level?
    ensures OrderedWithin(AtSnapshot(cursor, changes), cursor, cursor)
  {
    var ms := AtSnapshot(cursor, changes);
    forall i | 0 <= i < |ms|
      ensures Lies(ms[i], cursor, cursor) && !OfEvents(ms[i].item)
    {
      assert ms[i].item == Happened(cursor, changes[i]);
    }
  }

  lemma {:induction false} DrainedInOrder(waiting: seq<Slot>, from: nat, fence: nat)
    requires from <= fence
    requires forall i :: 0 <= i < |waiting| ==> from < waiting[i].event.cursor
    requires forall i, j :: 0 <= i < j < |waiting| ==> waiting[i].event.cursor < waiting[j].event.cursor
    ensures OrderedWithin(Drained(waiting, fence), from, fence)
    decreases |waiting|
  {
    if waiting != [] && waiting[0].event.cursor <= fence {
      var Slot(event, heard) := waiting[0];
      DrainedInOrder(waiting[1..], event.cursor, fence);
      EventInOrder(event, heard, from);
      OrderedJoin(MarksOf(event, heard), Drained(waiting[1..], fence), from, event.cursor, fence);
    }
  }

  lemma RestInOrder(floor: nat, turn: Turn)
    requires Promised(floor, turn) && turn.Looked?
    ensures OrderedWithin(RestOf(turn), FromOf(floor, turn), turn.snapshot)
  {
    var from, fence := FromOf(floor, turn), turn.snapshot;
    var drained := Drained(turn.waiting, fence);
    var gap := if turn.gap then [Mark(Happened(fence, Gap), true)] else [];
    DrainedInOrder(turn.waiting, from, fence);
    ChangesInOrder(fence, turn.changes);
    OrderedJoin(drained, gap, from, fence, fence);
    OrderedJoin(drained + gap, AtSnapshot(fence, turn.changes), from, fence, fence);
  }

  lemma FirstInOrder(floor: nat, turn: Turn)
    requires Promised(floor, turn) && turn.Looked?
    ensures floor <= FromOf(floor, turn) <= turn.snapshot
    ensures OrderedWithin(FirstOf(turn.received), floor, FromOf(floor, turn))
  {
    if turn.received.Some? {
      EventInOrder(turn.received.value, true, floor);
    }
  }

  lemma TurnInOrder(floor: nat, turn: Turn)
    requires Promised(floor, turn)
    ensures floor <= Floor(floor, turn)
    ensures OrderedWithin(MarksIn(turn), floor, Floor(floor, turn))
  {
    if turn.Looked? {
      FirstInOrder(floor, turn);
      RestInOrder(floor, turn);
      OrderedJoin(FirstOf(turn.received), RestOf(turn), floor, FromOf(floor, turn), turn.snapshot);
    } else {
      EventInOrder(turn.event, true, floor);
    }
  }

  /** The session's stream is in order, over any number of turns. */
  lemma {:induction false} StreamInTurns(floor: nat, turns: seq<Turn>)
    requires AllPromised(floor, turns)
    ensures floor <= LastFloor(floor, turns)
    ensures OrderedWithin(StreamOf(turns), floor, LastFloor(floor, turns))
    decreases |turns|
  {
    if turns != [] {
      var mid := Floor(floor, turns[0]);
      TurnInOrder(floor, turns[0]);
      StreamInTurns(mid, turns[1..]);
      OrderedJoin(MarksIn(turns[0]), StreamOf(turns[1..]), floor, mid, LastFloor(mid, turns[1..]));
    }
  }

  lemma {:induction false} HeardInOrder(ms: seq<Mark>, lo: nat, hi: nat)
    requires OrderedWithin(ms, lo, hi)
    ensures StreamInOrder(HeardOf(ms)) && Rising(HeardOf(ms))
    ensures forall k :: 0 <= k < |HeardOf(ms)| ==> lo <= HeardOf(ms)[k].cursor <= hi
  {
    if ms != [] {
      var init, last := ms[..|ms| - 1], ms[|ms| - 1];
      var c := last.item.cursor;
      var top := if OfEvents(last.item) then c - 1 else c;
      assert OrderedWithin(init, lo, top);
      HeardInOrder(init, lo, top);
    }
  }

  /** The watcher feeds its keeper in order, over any number of turns. */
  lemma WatcherInOrder(floor: nat, turns: seq<Turn>)
    requires AllPromised(floor, turns)
    ensures StreamInOrder(FedAll(turns)) && Rising(FedAll(turns))
    ensures forall k :: 0 <= k < |FedAll(turns)| ==> floor <= FedAll(turns)[k].cursor <= LastFloor(floor, turns)
  {
    StreamInTurns(floor, turns);
    HeardInOrder(StreamOf(turns), floor, LastFloor(floor, turns));
  }

  // ------------------------------------------------ two ways to follow the level

  /** The keeper follows the level changes it receives; the session made them all. */
  datatype Follows = Received | Everything

  /** The level after a stream. */
  function LevelBy(who: Follows, from: AgentLevel, ms: seq<Mark>): (level: AgentLevel) {
    if ms == [] then from
    else
      var before, last := LevelBy(who, from, ms[..|ms| - 1]), ms[|ms| - 1];
      if who == Everything || last.heard then LevelAt(before, last.item) else before
  }

  function LevelThere(who: Follows, from: AgentLevel, ms: seq<Mark>, i: nat): (level: AgentLevel)
    requires i < |ms|
  {
    LevelBy(who, from, ms[..i + 1])
  }

  /** What is heard, each at the level followed so. */
  function PlacedBy(who: Follows, from: AgentLevel, ms: seq<Mark>): (stream: seq<Placed>) {
    if ms == [] then []
    else
      var last := ms[|ms| - 1];
      PlacedBy(who, from, ms[..|ms| - 1]) + (if last.heard then [Placed(last.item, LevelBy(who, from, ms))] else [])
  }

  lemma {:induction false} ReceivedIsFed(door: AgentLevel, ms: seq<Mark>)
    ensures PlacedBy(Received, door, ms) == Places(door, HeardOf(ms))
    ensures LevelBy(Received, door, ms) == LevelAfter(door, HeardOf(ms))
  {
    if ms != [] {
      var init, last := ms[..|ms| - 1], ms[|ms| - 1];
      ReceivedIsFed(door, init);
      if last.heard {
        Cuts.InitOfAppend(HeardOf(init), last.item);
      } else {
        Cuts.Nothing(HeardOf(init));
        Cuts.Nothing(PlacedBy(Received, door, init));
      }
    }
  }

  predicate IsLevel(item: Item) {
    item.Happened? && item.happening.Level?
  }

  /** The last level change at or before place `i` is at `j`. */
  ghost predicate LastLevel(ms: seq<Mark>, i: nat, j: nat) {
    && j <= i < |ms| && IsLevel(ms[j].item)
    && forall k :: j < k <= i ==> !IsLevel(ms[k].item)
  }

  ghost predicate NoLevelYet(ms: seq<Mark>, i: nat) {
    i < |ms| && forall k :: 0 <= k <= i ==> !IsLevel(ms[k].item)
  }

  lemma FindLastLevel(ms: seq<Mark>, i: nat) returns (j: Option<nat>)
    requires i < |ms|
    ensures j.Some? ==> LastLevel(ms, i, j.value)
    ensures j.None? ==> NoLevelYet(ms, i)
  {
    var k := i + 1;
    while k > 0
      invariant 0 <= k <= i + 1
      invariant forall m :: k <= m <= i ==> !IsLevel(ms[m].item)
    {
      k := k - 1;
      if IsLevel(ms[k].item) {
        return Some(k);
      }
    }
    return None;
  }

  /** The level a change names. */
  function NamedIn(item: Item): (level: AgentLevel)
    requires IsLevel(item)
  {
    LevelAt(Off, item)
  }

  lemma StepLevel(who: Follows, from: AgentLevel, ms: seq<Mark>, i: nat)
    requires i < |ms|
    ensures var before := if i == 0 then from else LevelThere(who, from, ms, i - 1);
            LevelThere(who, from, ms, i) == if who == Everything || ms[i].heard then LevelAt(before, ms[i].item) else before
  {
    var front := ms[..i + 1];
    assert front[..|front| - 1] == ms[..i] && front[|front| - 1] == ms[i];
    assert LevelBy(who, from, ms[..0]) == from;
    assert i > 0 ==> ms[..i - 1 + 1] == ms[..i];
  }

  /** Without a level change between, the level is the same. */
  lemma {:induction false} LevelStays(who: Follows, from: AgentLevel, ms: seq<Mark>, j: nat, i: nat)
    requires j <= i < |ms| && forall k :: j < k <= i ==> !IsLevel(ms[k].item)
    ensures LevelThere(who, from, ms, i) == LevelThere(who, from, ms, j)
    decreases i
  {
    if j < i {
      StepLevel(who, from, ms, i);
      LevelStays(who, from, ms, j, i - 1);
    }
  }

  lemma LevelNotYet(who: Follows, from: AgentLevel, ms: seq<Mark>, i: nat)
    requires NoLevelYet(ms, i)
    ensures LevelThere(who, from, ms, i) == from
  {
    LevelStays(who, from, ms, 0, i);
    StepLevel(who, from, ms, 0);
  }

  lemma LevelFromLast(who: Follows, from: AgentLevel, ms: seq<Mark>, i: nat, j: nat)
    requires LastLevel(ms, i, j) && (who == Everything || ms[j].heard)
    ensures LevelThere(who, from, ms, i) == NamedIn(ms[j].item)
  {
    LevelStays(who, from, ms, j, i);
    StepLevel(who, from, ms, j);
  }

  /** The level in force at place `i` is one the watcher knows: it heard its last change, or
      read it from the door when it began. */
  ghost predicate Known(start: AgentLevel, door: AgentLevel, ms: seq<Mark>, i: nat) {
    && (forall j: nat :: LastLevel(ms, i, j) ==> ms[j].heard)
    && (NoLevelYet(ms, i) ==> start == door)
  }

  lemma KnownAgrees(start: AgentLevel, door: AgentLevel, ms: seq<Mark>, i: nat)
    requires i < |ms| && Known(start, door, ms, i)
    ensures LevelThere(Received, door, ms, i) == LevelThere(Everything, start, ms, i)
  {
    var j := FindLastLevel(ms, i);
    if j.Some? {
      LevelFromLast(Received, door, ms, i, j.value);
      LevelFromLast(Everything, start, ms, i, j.value);
    } else {
      LevelNotYet(Received, door, ms, i);
      LevelNotYet(Everything, start, ms, i);
    }
  }

  // ------------------------------------------------ what the log holds for it

  /** The last change of the level before place `i` was lost, or made before the watcher read
      the door, and it let an agent read, or not. */
  ghost predicate UnheardChange(start: AgentLevel, ms: seq<Mark>, i: nat, lets: bool) {
    || (NoLevelYet(ms, i) && start.MayRead() == lets)
    || exists j: nat :: LastLevel(ms, i, j) && !ms[j].heard && NamedIn(ms[j].item).MayRead() == lets
  }

  /** What is heard at place `i` is kept by a level that lets an agent read, after an unheard
      change to one that does not; or the other way about. */
  ghost predicate Misjudged(start: AgentLevel, door: AgentLevel, ms: seq<Mark>, i: nat, kept: bool) {
    && i < |ms| && ms[i].heard && !IsLevel(ms[i].item)
    && LevelThere(Received, door, ms, i).MayRead() == kept
    && UnheardChange(start, ms, i, !kept)
  }

  lemma MisjudgedWhen(start: AgentLevel, door: AgentLevel, ms: seq<Mark>, i: nat, kept: bool)
    requires i < |ms| && ms[i].heard && !IsLevel(ms[i].item) && LevelThere(Received, door, ms, i).MayRead() == kept
    ensures Misjudged(start, door, ms, i, kept) <==> LevelThere(Everything, start, ms, i).MayRead() != kept
  {
    var j := FindLastLevel(ms, i);
    if j.Some? {
      LevelFromLast(Everything, start, ms, i, j.value);
      if ms[j.value].heard {
        LevelFromLast(Received, door, ms, i, j.value);
      }
      assert forall k: nat :: LastLevel(ms, i, k) ==> k == j.value;
    } else {
      LevelNotYet(Everything, start, ms, i);
    }
  }

  /** The log was told the item. */
  ghost predicate WasTold(t: Told, item: Item) {
    match item
    case Happened(cursor, happening) => At(cursor, happening) in t.said
    case Spoke(cursor, words) => At(cursor, words) in t.spoken
  }

  /** The item is among what the levels of a stream let an agent have. */
  ghost predicate MayHave(stream: seq<Placed>, item: Item) {
    match item
    case Happened(cursor, happening) => At(cursor, happening) in ShownHappenings(stream)
    case Spoke(cursor, words) => At(cursor, words) in ShownLines(stream)
  }

  ghost predicate ShownThere(who: Follows, from: AgentLevel, ms: seq<Mark>, i: nat) {
    i < |ms| && ms[i].heard && Shown(Placed(ms[i].item, LevelThere(who, from, ms, i)))
  }

  lemma ShownInFront(who: Follows, from: AgentLevel, ms: seq<Mark>, i: nat)
    requires i < |ms| - 1
    ensures ShownThere(who, from, ms[..|ms| - 1], i) <==> ShownThere(who, from, ms, i)
  {
    assert ms[..|ms| - 1][..i + 1] == ms[..i + 1];
  }

  lemma ShownLast(who: Follows, from: AgentLevel, ms: seq<Mark>, item: Item)
    requires ms != []
    ensures var n := |ms| - 1;
            MayHave(PlacedBy(who, from, ms), item) <==>
            MayHave(PlacedBy(who, from, ms[..n]), item) || (ShownThere(who, from, ms, n) && ms[n].item == item)
  {
    var n := |ms| - 1;
    var stream := PlacedBy(who, from, ms[..n]);
    Cuts.Whole(ms);
    if ms[n].heard {
      ShownOneMore(stream, Placed(ms[n].item, LevelBy(who, from, ms)));
    } else {
      Cuts.Nothing(stream);
    }
  }

  lemma {:induction false} ShownSomewhere(who: Follows, from: AgentLevel, ms: seq<Mark>, item: Item)
    ensures MayHave(PlacedBy(who, from, ms), item) <==> exists i: nat :: ShownThere(who, from, ms, i) && ms[i].item == item
  {
    if ms != [] {
      var n := |ms| - 1;
      ShownSomewhere(who, from, ms[..n], item);
      ShownLast(who, from, ms, item);
      forall i: nat | i < n
        ensures ShownThere(who, from, ms[..n], i) <==> ShownThere(who, from, ms, i)
      {
        ShownInFront(who, from, ms, i);
      }
      if MayHave(PlacedBy(who, from, ms[..n]), item) {
        var i: nat :| ShownThere(who, from, ms[..n], i) && ms[..n][i].item == item;
        assert ShownThere(who, from, ms, i) && ms[i].item == item;
      }
      if i: nat :| ShownThere(who, from, ms, i) && ms[i].item == item && i < n {
        assert ShownThere(who, from, ms[..n], i) && ms[..n][i].item == item;
      }
    }
  }

  /** A level change comes at a cursor above everything before it. */
  lemma NoLevelWithin(ms: seq<Mark>, lo: nat, hi: nat, a: nat, k: nat, b: nat)
    requires OrderedWithin(ms, lo, hi) && a < k <= b < |ms| && ms[a].item.cursor == ms[b].item.cursor
    ensures !IsLevel(ms[k].item)
  {
  }

  /** One thing heard twice is at one level. */
  lemma SameThingSameLevel(who: Follows, from: AgentLevel, ms: seq<Mark>, lo: nat, hi: nat, a: nat, b: nat)
    requires OrderedWithin(ms, lo, hi) && a <= b < |ms| && ms[a].item.cursor == ms[b].item.cursor
    ensures LevelThere(who, from, ms, a) == LevelThere(who, from, ms, b)
  {
    forall k | a < k <= b
      ensures !IsLevel(ms[k].item)
    {
      NoLevelWithin(ms, lo, hi, a, k, b);
    }
    LevelStays(who, from, ms, a, b);
  }

  /** The log was told nothing but what the levels of the stream let an agent have. */
  ghost predicate OnlyAllowed(t: Told, stream: seq<Placed>) {
    forall item: Item :: WasTold(t, item) ==> MayHave(stream, item)
  }

  /** The log was told exactly what the levels of the stream let an agent have of it. */
  ghost predicate ExactlyAllowed(t: Told, stream: seq<Placed>) {
    t.said == ShownHappenings(stream) && t.spoken == ShownLines(stream)
  }

  /** The log is told exactly what the levels received let an agent have. */
  lemma WatcherIsGuarded(door: AgentLevel, floor: nat, turns: seq<Turn>)
    requires AllPromised(floor, turns)
    ensures var items := FedAll(turns);
            && Guarded(door, Places(door, items), WatchAll(door, items)) && Rising(items)
            && ExactlyAllowed(WatchAll(door, items).told, PlacedBy(Received, door, StreamOf(turns)))
  {
    WatcherInOrder(floor, turns);
    EveryRunIsGuarded(door, FedAll(turns));
    ReceivedIsFed(door, StreamOf(turns));
  }

  /** What is kept at a place where it may not be is had at no place where it may. */
  lemma NotElsewhere(who: Follows, from: AgentLevel, ms: seq<Mark>, lo: nat, hi: nat, i: nat)
    requires OrderedWithin(ms, lo, hi) && i < |ms| && !IsLevel(ms[i].item) && !LevelThere(who, from, ms, i).MayRead()
    ensures !MayHave(PlacedBy(who, from, ms), ms[i].item)
  {
    ShownSomewhere(who, from, ms, ms[i].item);
    forall j: nat | j < |ms| && ms[j].item == ms[i].item
      ensures !ShownThere(who, from, ms, j)
    {
      SameThingSameLevel(who, from, ms, lo, hi, if i < j then i else j, if i < j then j else i);
    }
  }

  lemma LeakIsTold(start: AgentLevel, door: AgentLevel, floor: nat, turns: seq<Turn>, i: nat)
    requires AllPromised(floor, turns) && Misjudged(start, door, StreamOf(turns), i, true)
    ensures !OnlyAllowed(WatchAll(door, FedAll(turns)).told, PlacedBy(Everything, start, StreamOf(turns)))
  {
    var ms := StreamOf(turns);
    StreamInTurns(floor, turns);
    WatcherIsGuarded(door, floor, turns);
    MisjudgedWhen(start, door, ms, i, true);
    NotElsewhere(Everything, start, ms, floor, LastFloor(floor, turns), i);
    ShownSomewhere(Received, door, ms, ms[i].item);
    assert ShownThere(Received, door, ms, i);
    assert WasTold(WatchAll(door, FedAll(turns)).told, ms[i].item);
  }

  lemma ToldIsAllowed(start: AgentLevel, door: AgentLevel, floor: nat, turns: seq<Turn>, item: Item)
    requires AllPromised(floor, turns) && forall i: nat :: !Misjudged(start, door, StreamOf(turns), i, true)
    requires WasTold(WatchAll(door, FedAll(turns)).told, item)
    ensures MayHave(PlacedBy(Everything, start, StreamOf(turns)), item)
  {
    var ms := StreamOf(turns);
    WatcherIsGuarded(door, floor, turns);
    ShownSomewhere(Received, door, ms, item);
    var i: nat :| ShownThere(Received, door, ms, i) && ms[i].item == item;
    if !IsLevel(item) {
      MisjudgedWhen(start, door, ms, i, true);
    }
    assert ShownThere(Everything, start, ms, i);
    ShownSomewhere(Everything, start, ms, item);
  }

  /** Nothing leaks exactly when nothing is kept between a lost lowering of the level and the
      next change of it that is heard: then everything the log was ever told, the session's
      own levels allow. */
  lemma NothingLeaksWhen(start: AgentLevel, door: AgentLevel, floor: nat, turns: seq<Turn>)
    requires AllPromised(floor, turns)
    ensures var ms := StreamOf(turns);
            OnlyAllowed(WatchAll(door, FedAll(turns)).told, PlacedBy(Everything, start, ms)) <==>
            forall i: nat :: !Misjudged(start, door, ms, i, true)
  {
    var ms := StreamOf(turns);
    if i: nat :| Misjudged(start, door, ms, i, true) {
      LeakIsTold(start, door, floor, turns, i);
    } else {
      forall item: Item | WasTold(WatchAll(door, FedAll(turns)).told, item)
        ensures MayHave(PlacedBy(Everything, start, ms), item)
      {
        ToldIsAllowed(start, door, floor, turns, item);
      }
    }
  }

  lemma {:induction false} JudgedAlike(start: AgentLevel, door: AgentLevel, ms: seq<Mark>, n: nat)
    requires n <= |ms| && forall i: nat :: i < n ==> (ShownThere(Received, door, ms, i) <==> ShownThere(Everything, start, ms, i))
    ensures var a, b := PlacedBy(Received, door, ms[..n]), PlacedBy(Everything, start, ms[..n]);
            ShownHappenings(a) == ShownHappenings(b) && ShownLines(a) == ShownLines(b)
  {
    if n > 0 {
      var front, i := ms[..n], n - 1;
      JudgedAlike(start, door, ms, i);
      assert front[..i] == ms[..i];
      assert ShownThere(Received, door, ms, i) <==> ShownThere(Everything, start, ms, i);
      if ms[i].heard {
        ShownOneMore(PlacedBy(Received, door, ms[..i]), Placed(ms[i].item, LevelThere(Received, door, ms, i)));
        ShownOneMore(PlacedBy(Everything, start, ms[..i]), Placed(ms[i].item, LevelThere(Everything, start, ms, i)));
      } else {
        Cuts.Nothing(PlacedBy(Received, door, ms[..i]));
        Cuts.Nothing(PlacedBy(Everything, start, ms[..i]));
      }
    }
  }

  lemma MisjudgedIsTold(start: AgentLevel, door: AgentLevel, floor: nat, turns: seq<Turn>, i: nat, kept: bool)
    requires AllPromised(floor, turns) && Misjudged(start, door, StreamOf(turns), i, kept)
    ensures !ExactlyAllowed(WatchAll(door, FedAll(turns)).told, PlacedBy(Everything, start, StreamOf(turns)))
  {
    var ms := StreamOf(turns);
    var hi := LastFloor(floor, turns);
    StreamInTurns(floor, turns);
    WatcherIsGuarded(door, floor, turns);
    MisjudgedWhen(start, door, ms, i, kept);
    ShownSomewhere(Received, door, ms, ms[i].item);
    ShownSomewhere(Everything, start, ms, ms[i].item);
    if kept {
      NotElsewhere(Everything, start, ms, floor, hi, i);
      assert ShownThere(Received, door, ms, i);
    } else {
      NotElsewhere(Received, door, ms, floor, hi, i);
      assert ShownThere(Everything, start, ms, i);
    }
  }

  lemma WellJudgedIsExact(start: AgentLevel, door: AgentLevel, floor: nat, turns: seq<Turn>)
    requires AllPromised(floor, turns) && forall i: nat, kept: bool :: !Misjudged(start, door, StreamOf(turns), i, kept)
    ensures ExactlyAllowed(WatchAll(door, FedAll(turns)).told, PlacedBy(Everything, start, StreamOf(turns)))
  {
    var ms := StreamOf(turns);
    WatcherIsGuarded(door, floor, turns);
    forall i: nat | i < |ms|
      ensures ShownThere(Received, door, ms, i) <==> ShownThere(Everything, start, ms, i)
    {
      if ms[i].heard && !IsLevel(ms[i].item) {
        MisjudgedWhen(start, door, ms, i, LevelThere(Received, door, ms, i).MayRead());
      }
    }
    JudgedAlike(start, door, ms, |ms|);
    Cuts.Whole(ms);
  }

  /** The log is told exactly what the session's own levels let an agent have of what is
      heard, exactly when nothing is heard between an unheard change of what the level
      allows, either way, and the next change that is heard. */
  lemma ToldExactlyWhen(start: AgentLevel, door: AgentLevel, floor: nat, turns: seq<Turn>)
    requires AllPromised(floor, turns)
    ensures var ms := StreamOf(turns);
            ExactlyAllowed(WatchAll(door, FedAll(turns)).told, PlacedBy(Everything, start, ms)) <==>
            forall i: nat, kept: bool :: !Misjudged(start, door, ms, i, kept)
  {
    if i: nat, kept: bool :| Misjudged(start, door, StreamOf(turns), i, kept) {
      MisjudgedIsTold(start, door, floor, turns, i, kept);
    } else {
      WellJudgedIsExact(start, door, floor, turns);
    }
  }

  /** No change of the level is among what was lost. */
  ghost predicate NoLevelLost(ms: seq<Mark>) {
    forall i :: 0 <= i < |ms| && IsLevel(ms[i].item) ==> ms[i].heard
  }

  /** Where no change of the level is lost, nor made before the door is read, the log is told
      exactly what the session's levels let an agent have. */
  lemma NoLevelLostIsExact(start: AgentLevel, floor: nat, turns: seq<Turn>)
    requires AllPromised(floor, turns) && NoLevelLost(StreamOf(turns))
    ensures ExactlyAllowed(WatchAll(start, FedAll(turns)).told, PlacedBy(Everything, start, StreamOf(turns)))
  {
    var ms := StreamOf(turns);
    ToldExactlyWhen(start, start, floor, turns);
    forall i: nat, kept: bool
      ensures !Misjudged(start, start, ms, i, kept)
    {
      if i < |ms| && ms[i].heard && !IsLevel(ms[i].item) && LevelThere(Received, start, ms, i).MayRead() == kept {
        KnownAgrees(start, start, ms, i);
        MisjudgedWhen(start, start, ms, i, kept);
      }
    }
  }

  lemma {:induction false} NoGapNoLoss(waiting: seq<Slot>, fence: nat)
    requires forall i, j :: 0 <= i < j < |waiting| ==> waiting[i].event.cursor < waiting[j].event.cursor
    requires forall i :: 0 <= i < |waiting| && waiting[i].event.cursor <= fence ==> waiting[i].heard
    ensures forall i :: 0 <= i < |Drained(waiting, fence)| ==> Drained(waiting, fence)[i].heard
    decreases |waiting|
  {
    if waiting != [] && waiting[0].event.cursor <= fence {
      NoGapNoLoss(waiting[1..], fence);
    }
  }

  /** A run in which the watcher noticed no loss lost nothing. */
  lemma {:induction false} NoGapsNoLoss(floor: nat, turns: seq<Turn>)
    requires AllPromised(floor, turns) && forall i :: 0 <= i < |turns| ==> turns[i].Looked? ==> !turns[i].gap
    ensures NoLevelLost(StreamOf(turns))
    decreases |turns|
  {
    if turns != [] {
      var turn := turns[0];
      if turn.Looked? {
        NoGapNoLoss(turn.waiting, turn.snapshot);
      }
      NoGapsNoLoss(Floor(floor, turn), turns[1..]);
      assert forall i :: 0 <= i < |MarksIn(turn)| ==> MarksIn(turn)[i].heard;
    }
  }

  // ------------------------------------------------ what is hidden is told

  lemma {:induction false} HeardFront(ms: seq<Mark>, n: nat)
    requires n <= |ms|
    ensures HeardOf(ms[..n]) <= HeardOf(ms)
  {
    if n < |ms| {
      HeardFront(ms[..|ms| - 1], n);
      assert ms[..|ms| - 1][..n] == ms[..n];
    } else {
      Cuts.Whole(ms);
    }
  }

  /** The keeper's level goes from hiding to reading at a change that it hears. */
  lemma RaisedBetween(door: AgentLevel, ms: seq<Mark>, j: nat, k: nat) returns (b: nat)
    requires j < k < |ms|
    requires !LevelThere(Received, door, ms, j).MayRead() && LevelThere(Received, door, ms, k).MayRead()
    ensures j < b <= k && ms[b].heard && IsLevel(ms[b].item)
    ensures !LevelThere(Received, door, ms, b - 1).MayRead() && LevelThere(Received, door, ms, b).MayRead()
  {
    b := k;
    while LevelThere(Received, door, ms, b - 1).MayRead()
      invariant j < b <= k && LevelThere(Received, door, ms, b).MayRead()
      decreases b
    {
      b := b - 1;
    }
    StepLevel(Received, door, ms, b);
  }

  /** Where in what is heard the thing at place `b` stands. */
  lemma HeardAt(ms: seq<Mark>, b: nat)
    requires b < |ms| && ms[b].heard
    ensures var items, at := HeardOf(ms), |HeardOf(ms[..b])|;
            at < |items| && items[at] == ms[b].item && items[..at] == HeardOf(ms[..b]) && items[..at + 1] == HeardOf(ms[..b + 1])
  {
    HeardFront(ms, b);
    HeardFront(ms, b + 1);
    assert ms[..b + 1][..b] == ms[..b];
  }

  /** A change that is heard, from a level that hides to one that reads, is a break. */
  lemma RaiseIsABreak(door: AgentLevel, ms: seq<Mark>, b: nat)
    requires 0 < b < |ms| && ms[b].heard
    requires !LevelThere(Received, door, ms, b - 1).MayRead() && LevelThere(Received, door, ms, b).MayRead()
    ensures var items, at := HeardOf(ms), |HeardOf(ms[..b])|;
            at < |items| && items[at] == ms[b].item && BreakAt(door, Places(door, items), at)
  {
    var items, at := HeardOf(ms), |HeardOf(ms[..b])|;
    HeardAt(ms, b);
    assert ms[..b - 1 + 1] == ms[..b];
    ReceivedIsFed(door, ms[..b]);
    ReceivedIsFed(door, ms[..b + 1]);
    PlacesAt(door, items, at);
    if at > 0 {
      PlacesAt(door, items, at - 1);
    }
  }

  /** A break at a heard change drops everything below it. */
  lemma BreakIsDropped(door: AgentLevel, ms: seq<Mark>, b: nat)
    requires 0 < b < |ms| && ms[b].heard && StreamInOrder(HeardOf(ms))
    requires !LevelThere(Received, door, ms, b - 1).MayRead() && LevelThere(Received, door, ms, b).MayRead()
    ensures var inner := WatchAll(door, HeardOf(ms)).keeping.inner;
            ms[b].item.cursor <= inner.entries.droppedThrough + 1 && ms[b].item.cursor <= inner.lines.droppedThrough + 1
  {
    EveryRunIsGuarded(door, HeardOf(ms));
    RaiseIsABreak(door, ms, b);
  }

  /** In every run of the watcher, heard or lost, a reader from before anything the session
      hid is told `lagged`, by both reads, once anything later is readable: so long as the
      watcher knows the levels of those two places. */
  lemma WatcherHides(start: AgentLevel, door: AgentLevel, floor: nat, turns: seq<Turn>, j: nat, k: nat,
                     since: nat, kinds: Kinds, until: Option<nat>, most: nat)
    requires AllPromised(floor, turns)
    requires var ms := StreamOf(turns);
             && j < k < |ms| && Known(start, door, ms, j) && Known(start, door, ms, k)
             && !LevelThere(Everything, start, ms, j).MayRead() && LevelThere(Everything, start, ms, k).MayRead()
             && since < ms[j].item.cursor
    ensures WatchAll(door, FedAll(turns)).keeping.inner.Read(since, kinds).lagged
    ensures LinesOf(WatchAll(door, FedAll(turns)).keeping.inner, Some(since), until, most).lagged
  {
    var ms := StreamOf(turns);
    StreamInTurns(floor, turns);
    WatcherInOrder(floor, turns);
    KnownAgrees(start, door, ms, j);
    KnownAgrees(start, door, ms, k);
    var b := RaisedBetween(door, ms, j, k);
    BreakIsDropped(door, ms, b);
    assert OfEvents(ms[b].item) && ms[j].item.cursor < ms[b].item.cursor;
  }

  // ------------------------------------------------ the failing inputs

  lemma OneMoreFed(ms: seq<Mark>, m: Mark)
    ensures HeardOf(ms + [m]) == HeardOf(ms) + (if m.heard then [m.item] else [])
  {
    Cuts.InitOfAppend(ms, m);
  }

  lemma OneMoreWatched(level: AgentLevel, items: seq<Item>, item: Item)
    ensures WatchAll(level, items + [item]) == Watched(WatchAll(level, items), item)
  {
    Cuts.InitOfAppend(items, item);
  }

  /** The level is lowered in a stretch that the receiver loses, a line is spoken, and the
      level is raised again. */
  function LossyTurns(words: Happenings.Words): (turns: seq<Turn>) {
    [Looked(None, [Slot(Event(1, Some(AHappening(Level(Off.Word())))), false)], true, 1, []),
     Heard(Event(2, Some(ALine(words)))),
     Heard(Event(3, Some(AHappening(Level(Observe.Word())))))]
  }

  lemma LossyStream(words: Happenings.Words)
    ensures AllPromised(0, LossyTurns(words))
    ensures StreamOf(LossyTurns(words)) ==
            [Mark(Happened(1, Level(Off.Word())), false), Mark(Happened(1, Gap), true), Mark(Spoke(2, words), true),
             Mark(Happened(3, Level(Observe.Word())), true)]
  {
    var turns := LossyTurns(words);
    var waiting := turns[0].waiting;
    assert waiting[1..] == [];
    assert Drained(waiting, 1) == [Mark(Happened(1, Level(Off.Word())), false)];
    assert turns[1..][1..][1..] == [];
    assert turns[1..][0] == turns[1] && turns[1..][1..][0] == turns[2];
    assert StreamOf(turns[1..][1..]) == MarksIn(turns[2]);
    assert StreamOf(turns[1..]) == MarksIn(turns[1]) + MarksIn(turns[2]);
    assert AllPromised(2, turns[1..][1..]);
    assert AllPromised(1, turns[1..]);
  }

  lemma LossyIsFed(words: Happenings.Words)
    ensures FedAll(LossyTurns(words)) == [Happened(1, Gap), Spoke(2, words), Happened(3, Level(Observe.Word()))]
  {
    var a, b, c, d := Mark(Happened(1, Level(Off.Word())), false), Mark(Happened(1, Gap), true), Mark(Spoke(2, words), true),
                      Mark(Happened(3, Level(Observe.Word())), true);
    LossyStream(words);
    Cuts.FourOf(a, b, c, d);
    OneMoreFed([a] + [b] + [c], d);
    OneMoreFed([a] + [b], c);
    OneMoreFed([a], b);
    OneMoreFed([], a);
    Cuts.Nothing([a]);
    Cuts.Nothing([b.item]);
    Cuts.ThreeOf(b.item, c.item, d.item);
  }

  /** A keeper that may read, and held nothing back, goes on so. */
  lemma KeptWhileReading(w: Watch, item: Item)
    requires w.keeping.level == Observe && !w.keeping.hidden && (IsLevel(item) ==> item.happening.level == Observe.Word())
    ensures var k := Watched(w, item).keeping;
            && k.level == Observe && !k.hidden
            && k.inner.lines == (if item.Spoke? then w.keeping.inner.lines.Add(KEPT_LINES, At(item.cursor, item.words)) else w.keeping.inner.lines)
  {
    WordNamesLevel(Observe);
  }

  lemma LossyIsKept(words: Happenings.Words)
    ensures WatchAll(Observe, FedAll(LossyTurns(words))).keeping.inner.lines == Stretch([At(2, words)], 0)
  {
    var a, b, c := Happened(1, Gap), Spoke(2, words), Happened(3, Level(Observe.Word()));
    LossyIsFed(words);
    Cuts.ThreeOf(a, b, c);
    Cuts.Nothing([a]);
    OneMoreWatched(Observe, [], a);
    OneMoreWatched(Observe, [a], b);
    OneMoreWatched(Observe, [a] + [b], c);
    KeptWhileReading(WatchAll(Observe, []), a);
    KeptWhileReading(WatchAll(Observe, [a]), b);
    KeptWhileReading(WatchAll(Observe, [a] + [b]), c);
  }

  lemma LossyLevels(words: Happenings.Words)
    ensures var ms := StreamOf(LossyTurns(words));
            && |ms| == 4 && ms[2] == Mark(Spoke(2, words), true)
            && !LevelThere(Everything, Observe, ms, 2).MayRead() && LevelThere(Received, Observe, ms, 2).MayRead()
  {
    var ms := StreamOf(LossyTurns(words));
    LossyStream(words);
    WordNamesLevel(Off);
    assert LastLevel(ms, 2, 0);
    LevelFromLast(Everything, Observe, ms, 2, 0);
    StepLevel(Received, Observe, ms, 0);
    LevelStays(Received, Observe, ms, 0, 2);
  }

  /** So a line from below reading is kept, and a reader from before it is given it and told
      of no loss. */
  lemma LostLoweringLeaks(words: Happenings.Words)
    ensures var turns := LossyTurns(words);
            && AllPromised(0, turns) && Misjudged(Observe, Observe, StreamOf(turns), 2, true)
            && StreamOf(turns)[2].item == Spoke(2, words) && !LevelThere(Everything, Observe, StreamOf(turns), 2).MayRead()
            && LinesOf(WatchAll(Observe, FedAll(turns)).keeping.inner, Some(1), None, 1) == Lines([At(2, words)], false, false)
  {
    LossyStream(words);
    LossyLevels(words);
    LossyIsKept(words);
    MisjudgedWhen(Observe, Observe, StreamOf(LossyTurns(words)), 2, true);
    OneLineWithin(At(2, words), 1);
  }

  lemma OneLineWithin(line: GameLine, since: nat)
    requires since < line.cursor
    ensures LinesWithin([line], Some(since), None) == [line]
  {
    assert [line][..0] == [];
    assert LinesWithin([line][..0], Some(since), None) == [];
  }
}
