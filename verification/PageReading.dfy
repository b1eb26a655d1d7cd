/** A reader of happenings that goes on from the cursor it was answered, while the watcher
    writes: what it loses, and when. */
module PageReading {
  import opened Happenings
  import opened History
  import opened Characters
  import opened Watcher
  import opened Paging
  import opened Options
  import LineReading
  import Cuts

  // ------------------------------------------------ a writer that only goes on

  /** The log is told of no cursor below one it has seen. */
  ghost predicate Onward(t: Told, op: Op) {
    op.Push? || op.Line? || op.Reached? ==> t.inner.latest <= op.cursor && t.clock <= op.cursor
  }

  ghost predicate AllOnward(t: Told, ops: seq<Op>) {
    ops != [] ==> AllOnward(t, ops[..|ops| - 1]) && Onward(TellAll(t, ops[..|ops| - 1]), ops[|ops| - 1])
  }

  lemma OneMoreOnward(t: Told, ops: seq<Op>, op: Op)
    ensures TellAll(t, ops + [op]) == Tell(TellAll(t, ops), op)
    ensures AllOnward(t, ops + [op]) <==> AllOnward(t, ops) && Onward(TellAll(t, ops), op)
  {
    Cuts.InitOfAppend(ops, op);
  }

  lemma {:induction false} OnwardJoins(t: Told, a: seq<Op>, b: seq<Op>)
    ensures TellAll(t, a + b) == TellAll(TellAll(t, a), b)
    ensures AllOnward(t, a + b) <==> AllOnward(t, a) && AllOnward(TellAll(t, a), b)
    decreases |b|
  {
    if b == [] {
      Cuts.Nothing(a);
    } else {
      var init, op := b[..|b| - 1], b[|b| - 1];
      OnwardJoins(t, a, init);
      Cuts.InitAndLast(b);
      Cuts.JoinAssociates(a, init, [op]);
      OneMoreOnward(t, a + init, op);
    }
  }

  lemma {:induction false} OnwardFront(t: Told, ops: seq<Op>, n: nat)
    requires AllOnward(t, ops) && n <= |ops|
    ensures AllOnward(t, ops[..n])
  {
    Cuts.TwoParts(ops, n);
    OnwardJoins(t, ops[..n], ops[n..]);
  }

  /** The log has seen nothing above `hi`. */
  ghost predicate SeenTo(t: Told, hi: nat) {
    t.inner.latest <= hi && t.clock <= hi
  }

  // ------------------------------------------------ the watcher's writes

  /** What is told by the event received, and then its cursor reached. */
  function FirstOps(level: AgentLevel, received: Option<Event>): (ops: seq<Op>) {
    LineReading.OpsOf(level, HeardOf(FirstOf(received))) + (if received.Some? then [Op.Reached(received.value.cursor)] else [])
  }

  function TurnOps(level: AgentLevel, turn: Turn): (ops: seq<Op>) {
    match turn
    case Heard(event) => FirstOps(level, Some(event))
    case Looked(received, _, _, _, _) =>
      FirstOps(level, received) + LineReading.OpsOf(LevelAfter(level, HeardOf(FirstOf(received))), HeardOf(RestOf(turn)))
  }

  function TurnsOps(level: AgentLevel, turns: seq<Turn>): (ops: seq<Op>)
    decreases |turns|
  {
    if turns == [] then []
    else TurnOps(level, turns[0]) + TurnsOps(LevelAfter(level, HeardOf(MarksIn(turns[0]))), turns[1..])
  }

  /** Everything the watcher tells the log, the cursors reached with it, from the first snapshot's. */
  function WatchOps(level: AgentLevel, floor: nat, turns: seq<Turn>): (ops: seq<Op>) {
    [Op.Reached(floor)] + TurnsOps(level, turns)
  }

  /** What is kept comes to the log at its own cursor, after everything before it. */
  lemma {:induction false} ItemsGoOn(level: AgentLevel, items: seq<Item>, t: Told, lo: nat, hi: nat)
    requires lo <= hi && SeenTo(t, lo) && StreamInOrder(items)
    requires forall k :: 0 <= k < |items| ==> lo <= items[k].cursor <= hi
    ensures AllOnward(t, LineReading.OpsOf(level, items)) && SeenTo(TellAll(t, LineReading.OpsOf(level, items)), hi)
  {
    if items != [] {
      var init, item := items[..|items| - 1], items[|items| - 1];
      var before, now := LevelAfter(level, init), LevelAfter(level, items);
      ItemsGoOn(level, init, t, lo, item.cursor);
      ItemGoesOn(LineReading.OpsOf(level, init), before, now, item, t);
    }
  }

  lemma BreakGoesOn(ops: seq<Op>, before: AgentLevel, now: AgentLevel, cursor: nat, t: Told)
    requires AllOnward(t, ops) && SeenTo(TellAll(t, ops), cursor)
    ensures var more := ops + LineReading.BreakOps(before, now, cursor);
            AllOnward(t, more) && SeenTo(TellAll(t, more), cursor)
  {
    var breaks := LineReading.BreakOps(before, now, cursor);
    if breaks != [] {
      OneMoreOnward(t, ops, breaks[0]);
    } else {
      Cuts.Nothing(ops);
    }
  }

  lemma ShownGoesOn(ops: seq<Op>, p: Placed, t: Told)
    requires AllOnward(t, ops) && SeenTo(TellAll(t, ops), p.item.cursor)
    ensures var more := ops + LineReading.ShownOps(p);
            AllOnward(t, more) && SeenTo(TellAll(t, more), p.item.cursor)
  {
    var shown := LineReading.ShownOps(p);
    if shown != [] {
      OneMoreOnward(t, ops, shown[0]);
    } else {
      Cuts.Nothing(ops);
    }
  }

  lemma ItemGoesOn(ops: seq<Op>, before: AgentLevel, now: AgentLevel, item: Item, t: Told)
    requires AllOnward(t, ops) && SeenTo(TellAll(t, ops), item.cursor)
    ensures var more := ops + LineReading.OpsFor(before, now, item);
            AllOnward(t, more) && SeenTo(TellAll(t, more), item.cursor)
  {
    var breaks, shown := LineReading.BreakOps(before, now, item.cursor), LineReading.ShownOps(Placed(item, now));
    BreakGoesOn(ops, before, now, item.cursor, t);
    ShownGoesOn(ops + breaks, Placed(item, now), t);
    Cuts.JoinAssociates(ops, breaks, shown);
  }

  lemma ReachedGoesOn(t: Told, ops: seq<Op>, cursor: nat)
    requires AllOnward(t, ops) && SeenTo(TellAll(t, ops), cursor)
    ensures AllOnward(t, ops + [Op.Reached(cursor)]) && SeenTo(TellAll(t, ops + [Op.Reached(cursor)]), cursor)
  {
    OneMoreOnward(t, ops, Op.Reached(cursor));
  }

  lemma MarksGoOn(level: AgentLevel, ms: seq<Mark>, t: Told, lo: nat, hi: nat)
    requires lo <= hi && SeenTo(t, lo) && OrderedWithin(ms, lo, hi)
    ensures AllOnward(t, LineReading.OpsOf(level, HeardOf(ms))) && SeenTo(TellAll(t, LineReading.OpsOf(level, HeardOf(ms))), hi)
  {
    HeardInOrder(ms, lo, hi);
    ItemsGoOn(level, HeardOf(ms), t, lo, hi);
  }

  lemma FirstGoesOn(level: AgentLevel, floor: nat, received: Option<Event>, t: Told)
    requires SeenTo(t, floor) && (received.Some? ==> floor < received.value.cursor)
    ensures var from := if received.Some? then received.value.cursor else floor;
            AllOnward(t, FirstOps(level, received)) && SeenTo(TellAll(t, FirstOps(level, received)), from)
  {
    var ops := LineReading.OpsOf(level, HeardOf(FirstOf(received)));
    if received.Some? {
      EventInOrder(received.value, true, floor);
      MarksGoOn(level, FirstOf(received), t, floor, received.value.cursor);
      ReachedGoesOn(t, ops, received.value.cursor);
    } else {
      MarksGoOn(level, FirstOf(received), t, floor, floor);
      Cuts.Nothing(ops);
    }
  }

  lemma TurnGoesOn(level: AgentLevel, floor: nat, turn: Turn, t: Told)
    requires Promised(floor, turn) && SeenTo(t, floor)
    ensures AllOnward(t, TurnOps(level, turn)) && SeenTo(TellAll(t, TurnOps(level, turn)), Floor(floor, turn))
  {
    match turn {
      case Heard(event) =>
        FirstGoesOn(level, floor, Some(event), t);
      case Looked(received, _, _, snapshot, _) =>
        var ops, after := FirstOps(level, received), LevelAfter(level, HeardOf(FirstOf(received)));
        FirstGoesOn(level, floor, received, t);
        FirstInOrder(floor, turn);
        RestInOrder(floor, turn);
        MarksGoOn(after, RestOf(turn), TellAll(t, ops), FromOf(floor, turn), snapshot);
        OnwardJoins(t, ops, LineReading.OpsOf(after, HeardOf(RestOf(turn))));
    }
  }

  lemma {:induction false} TurnsGoOn(level: AgentLevel, floor: nat, turns: seq<Turn>, t: Told)
    requires AllPromised(floor, turns) && SeenTo(t, floor)
    ensures AllOnward(t, TurnsOps(level, turns))
    decreases |turns|
  {
    if turns != [] {
      var ops, after := TurnOps(level, turns[0]), LevelAfter(level, HeardOf(MarksIn(turns[0])));
      TurnGoesOn(level, floor, turns[0], t);
      TurnsGoOn(after, Floor(floor, turns[0]), turns[1..], TellAll(t, ops));
      OnwardJoins(t, ops, TurnsOps(after, turns[1..]));
    }
  }

  /** The watcher never tells its log of a cursor below one it has seen. */
  lemma WatcherGoesOn(level: AgentLevel, floor: nat, turns: seq<Turn>)
    requires AllPromised(floor, turns)
    ensures AllOnward(NOTHING_TOLD, WatchOps(level, floor, turns))
  {
    ReachedGoesOn(NOTHING_TOLD, [], floor);
    Cuts.Nothing([Op.Reached(floor)]);
    TurnsGoOn(level, floor, turns, TellAll(NOTHING_TOLD, [Op.Reached(floor)]));
    OnwardJoins(NOTHING_TOLD, [Op.Reached(floor)], TurnsOps(level, turns));
  }

  // ------------------------------------------------ a read at a cursor still written at

  function Wrote(steps: seq<Step>): (ops: seq<Op>) {
    if steps == [] then []
    else
      var last := steps[|steps| - 1];
      Wrote(steps[..|steps| - 1]) + (if last.Write? then [last.op] else [])
  }

  function BeforeStep(since: nat, steps: seq<Step>, kinds: Kinds, i: nat): (s: Session)
    requires i <= |steps|
  {
    TakeAll(Start(NOTHING_TOLD, since), steps[..i], kinds)
  }

  ghost predicate IsPush(steps: seq<Step>, j: nat) {
    j < |steps| && steps[j].Write? && steps[j].op.Push?
  }

  /** Step `i` is a read when the log had already seen the cursor of the later push `j`, and
      its answer takes the reader there: it was not cut short, or ends with that cursor. */
  ghost predicate Straddles(since: nat, steps: seq<Step>, kinds: Kinds, i: nat, j: nat) {
    IsPush(steps, j) && i < j && ReadsTo(since, steps, kinds, i, steps[j].op.cursor)
  }

  /** The reader began at or past a cursor pushed later: `state` had it already. */
  ghost predicate BeganPast(since: nat, steps: seq<Step>, j: nat) {
    IsPush(steps, j) && steps[j].op.cursor <= since
  }

  lemma StepOn(since: nat, steps: seq<Step>, kinds: Kinds, i: nat)
    requires i < |steps|
    ensures BeforeStep(since, steps, kinds, i + 1) == Take(BeforeStep(since, steps, kinds, i), steps[i], kinds)
  {
    var front := steps[..i + 1];
    assert front[..|front| - 1] == steps[..i] && front[|front| - 1] == steps[i];
  }

  lemma {:induction false} StepsAreTold(since: nat, steps: seq<Step>, kinds: Kinds)
    ensures TakeAll(Start(NOTHING_TOLD, since), steps, kinds).told == TellAll(NOTHING_TOLD, Wrote(steps))
  {
    if steps != [] {
      var init, last := steps[..|steps| - 1], steps[|steps| - 1];
      StepsAreTold(since, init, kinds);
      if last.Write? {
        Cuts.InitOfAppend(Wrote(init), last.op);
      } else {
        Cuts.Nothing(Wrote(init));
      }
    }
  }

  lemma {:induction false} WroteFront(steps: seq<Step>, i: nat)
    requires i <= |steps|
    ensures Wrote(steps[..i]) <= Wrote(steps)
  {
    if i < |steps| {
      WroteFront(steps[..|steps| - 1], i);
      assert steps[..|steps| - 1][..i] == steps[..i];
    } else {
      Cuts.Whole(steps);
    }
  }

  lemma WrittenOnward(steps: seq<Step>, i: nat)
    requires AllOnward(NOTHING_TOLD, Wrote(steps)) && i <= |steps|
    ensures AllOnward(NOTHING_TOLD, Wrote(steps[..i]))
  {
    WroteFront(steps, i);
    OnwardFront(NOTHING_TOLD, Wrote(steps), |Wrote(steps[..i])|);
    assert Wrote(steps)[..|Wrote(steps[..i])|] == Wrote(steps[..i]);
  }

  lemma WroteOneMore(steps: seq<Step>, j: nat)
    requires j < |steps|
    ensures Wrote(steps[..j + 1]) == Wrote(steps[..j]) + (if steps[j].Write? then [steps[j].op] else [])
  {
    var front := steps[..j + 1];
    assert front[..|front| - 1] == steps[..j] && front[|front| - 1] == steps[j];
  }

  /** Each write goes on from all before it. */
  lemma WriteGoesOn(since: nat, steps: seq<Step>, kinds: Kinds, j: nat)
    requires AllOnward(NOTHING_TOLD, Wrote(steps)) && j < |steps| && steps[j].Write?
    ensures Onward(BeforeStep(since, steps, kinds, j).told, steps[j].op)
  {
    WrittenOnward(steps, j + 1);
    WroteOneMore(steps, j);
    OneMoreOnward(NOTHING_TOLD, Wrote(steps[..j]), steps[j].op);
    StepsAreTold(since, steps[..j], kinds);
  }

  lemma {:induction false} OnwardIsOrderly(since: nat, steps: seq<Step>, kinds: Kinds)
    requires AllOnward(NOTHING_TOLD, Wrote(steps))
    ensures Orderly(Start(NOTHING_TOLD, since), steps, kinds)
  {
    if steps != [] {
      var n := |steps| - 1;
      WrittenOnward(steps, n);
      OnwardIsOrderly(since, steps[..n], kinds);
      if steps[n].Write? {
        WriteGoesOn(since, steps, kinds, n);
      }
    }
  }

  lemma SeenGrows(t: Told, op: Op)
    ensures t.inner.latest <= Tell(t, op).inner.latest
  {}

  lemma AdvancesOnce(since: nat, steps: seq<Step>, kinds: Kinds, i: nat)
    requires i < |steps| && Faithful(BeforeStep(since, steps, kinds, i).told)
    ensures BeforeStep(since, steps, kinds, i).told.inner.latest <= BeforeStep(since, steps, kinds, i + 1).told.inner.latest
    ensures BeforeStep(since, steps, kinds, i).since <= BeforeStep(since, steps, kinds, i + 1).since
  {
    var s := BeforeStep(since, steps, kinds, i);
    StepOn(since, steps, kinds, i);
    match steps[i]
    case Write(op) => SeenGrows(s.told, op);
    case Read => AnswerLies(s.told, s.since, kinds);
  }

  /** What the log has seen never falls, and a reader never goes back. */
  lemma {:induction false} Advances(since: nat, steps: seq<Step>, kinds: Kinds, i: nat, j: nat)
    requires AllOnward(NOTHING_TOLD, Wrote(steps)) && i <= j <= |steps|
    ensures BeforeStep(since, steps, kinds, i).told.inner.latest <= BeforeStep(since, steps, kinds, j).told.inner.latest
    ensures BeforeStep(since, steps, kinds, i).since <= BeforeStep(since, steps, kinds, j).since
    decreases j
  {
    if i < j {
      Advances(since, steps, kinds, i, j - 1);
      FaithfulAt(since, steps, kinds, j - 1);
      AdvancesOnce(since, steps, kinds, j - 1);
    }
  }

  lemma FaithfulAt(since: nat, steps: seq<Step>, kinds: Kinds, i: nat)
    requires AllOnward(NOTHING_TOLD, Wrote(steps)) && i <= |steps|
    ensures Faithful(BeforeStep(since, steps, kinds, i).told)
  {
    var front := steps[..i];
    WrittenOnward(steps, i);
    OnwardIsOrderly(since, front, kinds);
    ExactlyOnce(NOTHING_TOLD, since, front, kinds);
  }

  /** The answer takes the reader to the cursor the log stands at: it was not cut short, or
      ends with that cursor. */
  ghost predicate Reaches(t: Told, since: nat, kinds: Kinds, c: nat) {
    var a := t.inner.Read(since, kinds);
    t.inner.latest == c && (|a.happenings| < RETURNED || a.happenings[|a.happenings| - 1].cursor == c)
  }

  /** Where an answer takes the reader: to the log's latest, or, cut short, to a cursor it holds. */
  lemma AnswerLies(t: Told, since: nat, kinds: Kinds)
    requires Faithful(t)
    ensures var a := t.inner.Read(since, kinds);
            if |a.happenings| < RETURNED then a.cursor == Max(t.inner.latest, since)
            else a.cursor == a.happenings[|a.happenings| - 1].cursor && since < a.cursor <= t.inner.latest
  {
    var kept := t.inner.entries.kept;
    NewestIsSorted(kept, t.said, t.inner.entries.droppedThrough);
    assert AllTo(kept, t.inner.latest);
    WantedWithin(kept, since, kinds, t.inner.latest);
    var w, page := Wanted(kept, since, kinds), Page(Wanted(kept, since, kinds));
    assert page != [] ==> page[|page| - 1] == w[|page| - 1];
  }

  lemma AnswerReaches(t: Told, since: nat, kinds: Kinds, c: nat)
    requires Faithful(t) && t.inner.latest <= c
    ensures c <= t.inner.Read(since, kinds).cursor <==> c <= since || Reaches(t, since, kinds, c)
    ensures since <= t.inner.Read(since, kinds).cursor
  {
    AnswerLies(t, since, kinds);
  }

  ghost predicate ReadsTo(since: nat, steps: seq<Step>, kinds: Kinds, i: nat, c: nat) {
    && i < |steps| && steps[i].Read?
    && var s := BeforeStep(since, steps, kinds, i); Reaches(s.told, s.since, kinds, c)
  }

  lemma StepReaches(since: nat, steps: seq<Step>, kinds: Kinds, i: nat, c: nat)
    requires AllOnward(NOTHING_TOLD, Wrote(steps)) && i < |steps|
    requires BeforeStep(since, steps, kinds, i).told.inner.latest <= c
    ensures c <= BeforeStep(since, steps, kinds, i + 1).since <==>
            c <= BeforeStep(since, steps, kinds, i).since || ReadsTo(since, steps, kinds, i, c)
  {
    var s := BeforeStep(since, steps, kinds, i);
    StepOn(since, steps, kinds, i);
    if steps[i].Read? {
      FaithfulAt(since, steps, kinds, i);
      AnswerReaches(s.told, s.since, kinds, c);
    }
  }

  ghost predicate SomeReadsTo(since: nat, steps: seq<Step>, kinds: Kinds, j: nat, c: nat) {
    exists i: nat :: i < j && ReadsTo(since, steps, kinds, i, c)
  }

  lemma SomeReadsOneMore(since: nat, steps: seq<Step>, kinds: Kinds, j: nat, c: nat)
    ensures SomeReadsTo(since, steps, kinds, j + 1, c) <==>
            SomeReadsTo(since, steps, kinds, j, c) || ReadsTo(since, steps, kinds, j, c)
  {
    if i: nat :| i < j + 1 && ReadsTo(since, steps, kinds, i, c) && i != j {
      assert i < j;
    }
  }

  /** A reader at or past `c` began there, or read its way there while the log stood at `c`. */
  lemma {:induction false} HowReached(since: nat, steps: seq<Step>, kinds: Kinds, j: nat, c: nat)
    requires AllOnward(NOTHING_TOLD, Wrote(steps)) && j <= |steps| && BeforeStep(since, steps, kinds, j).told.inner.latest <= c
    ensures c <= BeforeStep(since, steps, kinds, j).since <==> c <= since || SomeReadsTo(since, steps, kinds, j, c)
  {
    if j == 0 {
      assert steps[..0] == [];
    } else {
      Advances(since, steps, kinds, j - 1, j);
      HowReached(since, steps, kinds, j - 1, c);
      StepReaches(since, steps, kinds, j - 1, c);
      SomeReadsOneMore(since, steps, kinds, j - 1, c);
    }
  }

  ghost predicate PushAhead(since: nat, steps: seq<Step>, kinds: Kinds, j: nat) {
    IsPush(steps, j) ==> BeforeStep(since, steps, kinds, j).since < steps[j].op.cursor
  }

  lemma AheadOneMore(since: nat, steps: seq<Step>, kinds: Kinds, j: nat)
    requires j < |steps|
    ensures WritesAhead(Start(NOTHING_TOLD, since), steps[..j + 1], kinds) <==>
            WritesAhead(Start(NOTHING_TOLD, since), steps[..j], kinds) && PushAhead(since, steps, kinds, j)
  {
    var front := steps[..j + 1];
    assert front[..|front| - 1] == steps[..j] && front[|front| - 1] == steps[j];
  }

  ghost predicate AheadTo(since: nat, steps: seq<Step>, kinds: Kinds, n: nat) {
    forall j: nat :: j < n ==> PushAhead(since, steps, kinds, j)
  }

  lemma AheadToNext(since: nat, steps: seq<Step>, kinds: Kinds, n: nat)
    ensures AheadTo(since, steps, kinds, n + 1) <==> AheadTo(since, steps, kinds, n) && PushAhead(since, steps, kinds, n)
  {
  }

  lemma {:induction false} AheadAtEach(since: nat, steps: seq<Step>, kinds: Kinds, n: nat)
    requires n <= |steps|
    ensures WritesAhead(Start(NOTHING_TOLD, since), steps[..n], kinds) <==> AheadTo(since, steps, kinds, n)
  {
    if n > 0 {
      AheadAtEach(since, steps, kinds, n - 1);
      AheadOneMore(since, steps, kinds, n - 1);
      AheadToNext(since, steps, kinds, n - 1);
    }
  }

  /** The reader misses push `j`: it began past it, or reads the log at the push's cursor
      before the push. */
  ghost predicate Misses(since: nat, steps: seq<Step>, kinds: Kinds, j: nat) {
    BeganPast(since, steps, j) || exists i: nat :: Straddles(since, steps, kinds, i, j)
  }

  lemma MissesWhen(since: nat, steps: seq<Step>, kinds: Kinds, j: nat)
    requires AllOnward(NOTHING_TOLD, Wrote(steps))
    ensures PushAhead(since, steps, kinds, j) <==> !Misses(since, steps, kinds, j)
  {
    if IsPush(steps, j) {
      var c := steps[j].op.cursor;
      WriteGoesOn(since, steps, kinds, j);
      HowReached(since, steps, kinds, j, c);
      if i: nat :| i < j && ReadsTo(since, steps, kinds, i, c) {
        assert Straddles(since, steps, kinds, i, j);
      }
    }
  }

  /** Every push is ahead of the reader when it is made, exactly when the reader misses none. */
  lemma AheadWhen(since: nat, steps: seq<Step>, kinds: Kinds)
    requires AllOnward(NOTHING_TOLD, Wrote(steps))
    ensures WritesAhead(Start(NOTHING_TOLD, since), steps, kinds) <==> forall j: nat :: !Misses(since, steps, kinds, j)
  {
    AheadAtEach(since, steps, kinds, |steps|);
    Cuts.Whole(steps);
    forall j: nat
      ensures PushAhead(since, steps, kinds, j) <==> !Misses(since, steps, kinds, j)
    {
      MissesWhen(since, steps, kinds, j);
    }
    assert forall j: nat :: j >= |steps| ==> PushAhead(since, steps, kinds, j);
  }

  /** Under any run of the watcher: what the reader got is exactly the happenings that were
      ahead of it when pushed; and all of them were, exactly when it began before them and no
      read that is not cut short fell between two things told at one cursor, the later a push. */
  lemma WatchersPagesAreRead(level: AgentLevel, floor: nat, turns: seq<Turn>, since: nat, steps: seq<Step>, kinds: Kinds)
    requires AllPromised(floor, turns) && Wrote(steps) <= WatchOps(level, floor, turns)
    ensures Exact(TakeAll(Start(NOTHING_TOLD, since), steps, kinds), kinds)
    ensures WritesAhead(Start(NOTHING_TOLD, since), steps, kinds) <==> forall j: nat :: !Misses(since, steps, kinds, j)
  {
    WatcherGoesOn(level, floor, turns);
    OnwardFront(NOTHING_TOLD, WatchOps(level, floor, turns), |Wrote(steps)|);
    assert WatchOps(level, floor, turns)[..|Wrote(steps)|] == Wrote(steps);
    OnwardIsOrderly(since, steps, kinds);
    ExactlyOnce(NOTHING_TOLD, since, steps, kinds);
    AheadWhen(since, steps, kinds);
  }

  // ------------------------------------------------ the watcher's writes are its keeper's

  function NotReached(ops: seq<Op>): (r: seq<Op>) {
    if ops == [] then []
    else NotReached(ops[..|ops| - 1]) + (if ops[|ops| - 1].Reached? then [] else [ops[|ops| - 1]])
  }

  lemma {:induction false} NotReachedJoins(a: seq<Op>, b: seq<Op>)
    ensures NotReached(a + b) == NotReached(a) + NotReached(b)
    decreases |b|
  {
    if b == [] {
      Cuts.Nothing(a);
      Cuts.Nothing(NotReached(a));
    } else {
      var init, op := b[..|b| - 1], b[|b| - 1];
      NotReachedJoins(a, init);
      assert (a + b)[..|a + b| - 1] == a + init;
      Cuts.JoinAssociates(NotReached(a), NotReached(init), if op.Reached? then [] else [op]);
    }
  }

  lemma {:induction false} OpsAreNotReached(level: AgentLevel, items: seq<Item>)
    ensures NotReached(LineReading.OpsOf(level, items)) == LineReading.OpsOf(level, items)
  {
    if items != [] {
      var init := items[..|items| - 1];
      var ops := LineReading.OpsFor(LevelAfter(level, init), LevelAfter(level, items), items[|items| - 1]);
      OpsAreNotReached(level, init);
      NotReachedJoins(LineReading.OpsOf(level, init), ops);
      OpsOfOneAreNotReached(LevelAfter(level, init), LevelAfter(level, items), items[|items| - 1]);
    }
  }

  lemma OpsOfOneAreNotReached(before: AgentLevel, now: AgentLevel, item: Item)
    ensures NotReached(LineReading.OpsFor(before, now, item)) == LineReading.OpsFor(before, now, item)
  {
    var a, b := LineReading.BreakOps(before, now, item.cursor), LineReading.ShownOps(Placed(item, now));
    NotReachedJoins(a, b);
    assert a == [] || (|a| == 1 && a[..0] == [] && NotReached(a) == a);
    assert b == [] || (|b| == 1 && b[..0] == [] && NotReached(b) == b);
  }

  lemma {:induction false} OpsJoin(level: AgentLevel, a: seq<Item>, b: seq<Item>)
    ensures LevelAfter(level, a + b) == LevelAfter(LevelAfter(level, a), b)
    ensures LineReading.OpsOf(level, a + b) == LineReading.OpsOf(level, a) + LineReading.OpsOf(LevelAfter(level, a), b)
    decreases |b|
  {
    if b == [] {
      Cuts.Nothing(a);
      Cuts.Nothing(LineReading.OpsOf(level, a));
    } else {
      var init := b[..|b| - 1];
      OpsJoin(level, a, init);
      assert (a + b)[..|a + b| - 1] == a + init;
      Cuts.JoinAssociates(LineReading.OpsOf(level, a), LineReading.OpsOf(LevelAfter(level, a), init),
        LineReading.OpsFor(LevelAfter(LevelAfter(level, a), init), LevelAfter(LevelAfter(level, a), b), b[|b| - 1]));
    }
  }

  lemma {:induction false} HeardJoins(a: seq<Mark>, b: seq<Mark>)
    ensures HeardOf(a + b) == HeardOf(a) + HeardOf(b)
    decreases |b|
  {
    if b == [] {
      Cuts.Nothing(a);
      Cuts.Nothing(HeardOf(a));
    } else {
      var init, last := b[..|b| - 1], b[|b| - 1];
      HeardJoins(a, init);
      assert (a + b)[..|a + b| - 1] == a + init;
      Cuts.JoinAssociates(HeardOf(a), HeardOf(init), if last.heard then [last.item] else []);
    }
  }

  lemma ReachedIsNone(ops: seq<Op>, cursor: nat)
    ensures NotReached(ops + [Op.Reached(cursor)]) == NotReached(ops)
  {
    Cuts.InitOfAppend(ops, Op.Reached(cursor));
    Cuts.Nothing(NotReached(ops));
  }

  lemma FirstIsKept(level: AgentLevel, received: Option<Event>)
    ensures NotReached(FirstOps(level, received)) == LineReading.OpsOf(level, HeardOf(FirstOf(received)))
  {
    var ops := LineReading.OpsOf(level, HeardOf(FirstOf(received)));
    OpsAreNotReached(level, HeardOf(FirstOf(received)));
    Cuts.Nothing(ops);
    if received.Some? {
      ReachedIsNone(ops, received.value.cursor);
    }
  }

  lemma TurnIsKept(level: AgentLevel, turn: Turn)
    ensures NotReached(TurnOps(level, turn)) == LineReading.OpsOf(level, HeardOf(MarksIn(turn)))
  {
    match turn {
      case Heard(event) =>
        FirstIsKept(level, Some(event));
      case Looked(received, _, _, _, _) =>
        var first, rest := HeardOf(FirstOf(received)), HeardOf(RestOf(turn));
        FirstIsKept(level, received);
        OpsAreNotReached(LevelAfter(level, first), rest);
        NotReachedJoins(FirstOps(level, received), LineReading.OpsOf(LevelAfter(level, first), rest));
        HeardJoins(FirstOf(received), RestOf(turn));
        OpsJoin(level, first, rest);
    }
  }

  lemma {:induction false} TurnsAreKept(level: AgentLevel, turns: seq<Turn>)
    ensures NotReached(TurnsOps(level, turns)) == LineReading.OpsOf(level, FedAll(turns))
    decreases |turns|
  {
    if turns != [] {
      var ms, after := MarksIn(turns[0]), LevelAfter(level, HeardOf(MarksIn(turns[0])));
      TurnIsKept(level, turns[0]);
      TurnsAreKept(after, turns[1..]);
      NotReachedJoins(TurnOps(level, turns[0]), TurnsOps(after, turns[1..]));
      HeardJoins(ms, StreamOf(turns[1..]));
      OpsJoin(level, HeardOf(ms), FedAll(turns[1..]));
    }
  }

  /** But for the cursors reached, these are the writes of the keeper the watcher feeds. */
  lemma WatchOpsAreKept(level: AgentLevel, floor: nat, turns: seq<Turn>)
    ensures NotReached(WatchOps(level, floor, turns)) == LineReading.OpsOf(level, FedAll(turns))
  {
    TurnsAreKept(level, turns);
    NotReachedJoins([Op.Reached(floor)], TurnsOps(level, turns));
    ReachedIsNone([], floor);
    Cuts.Nothing([Op.Reached(floor)]);
    Cuts.Nothing(LineReading.OpsOf(level, FedAll(turns)));
  }

  // ------------------------------------------------ the failing input

  /** A prompt closes a chunk, the reader reads, and then what changed is pushed. */
  function Prompted(h: Happening): (turns: seq<Turn>) {
    [Looked(Some(Event(5, None)), [], false, 5, [h])]
  }

  function ReadAtPrompt(h: Happening): (steps: seq<Step>) {
    [Write(Op.Reached(0)), Write(Op.Reached(5)), Read, Write(Op.Push(5, h)), Read]
  }

  lemma PromptedRest(h: Happening)
    ensures HeardOf(RestOf(Prompted(h)[0])) == [Happened(5, h)]
  {
    var rest, m := RestOf(Prompted(h)[0]), Mark(Happened(5, h), true);
    assert rest == [m];
    assert [m][..0] == [] && HeardOf([m][..0]) == [];
  }

  lemma OneItemOps(h: Happening)
    requires !h.Level?
    ensures LineReading.OpsOf(Observe, [Happened(5, h)]) == [Op.Push(5, h)]
  {
    var items := [Happened(5, h)];
    assert items[..0] == [] && LineReading.OpsOf(Observe, items[..0]) == [];
    assert LevelAfter(Observe, items[..0]) == Observe && LevelAfter(Observe, items) == Observe;
  }

  lemma PromptedOps(h: Happening)
    requires !h.Level?
    ensures AllPromised(0, Prompted(h))
    ensures WatchOps(Observe, 0, Prompted(h)) == [Op.Reached(0), Op.Reached(5), Op.Push(5, h)]
  {
    PromptedRest(h);
    OneItemOps(h);
    assert Prompted(h)[1..] == [];
    assert AllPromised(5, Prompted(h)[1..]);
    assert MarksIn(Prompted(h)[0]) == [] + RestOf(Prompted(h)[0]);
    assert TurnOps(Observe, Prompted(h)[0]) == [] + [Op.Reached(5)] + [Op.Push(5, h)];
    assert TurnsOps(LevelAfter(Observe, HeardOf(MarksIn(Prompted(h)[0]))), Prompted(h)[1..]) == [];
    assert [Op.Reached(0)] + ([] + [Op.Reached(5)] + [Op.Push(5, h)] + []) == [Op.Reached(0), Op.Reached(5), Op.Push(5, h)];
  }

  lemma PromptedWrites(h: Happening)
    ensures Wrote(ReadAtPrompt(h)) == [Op.Reached(0), Op.Reached(5), Op.Push(5, h)]
  {
    var steps := ReadAtPrompt(h);
    assert steps[..0] == [] && Wrote(steps[..0]) == [];
    WroteOneMore(steps, 0);
    assert Wrote(steps[..1]) == [Op.Reached(0)];
    WroteOneMore(steps, 1);
    WroteOneMore(steps, 2);
    assert Wrote(steps[..3]) == [Op.Reached(0), Op.Reached(5)];
    WroteOneMore(steps, 3);
    WroteOneMore(steps, 4);
    assert Wrote(steps[..5]) == [Op.Reached(0), Op.Reached(5), Op.Push(5, h)];
    Cuts.Whole(steps);
  }

  /** A read with nothing kept above the reader's cursor. */
  lemma NothingAbove(t: Told, since: nat)
    requires AllTo(t.inner.entries.kept, since)
    ensures t.inner.Read(since, None) ==
            Waited([], Max(t.inner.latest, since), since < t.inner.entries.droppedThrough, t.inner.closed)
  {
    WantedNone(t.inner.entries.kept, since, None);
  }

  lemma PromptedSteps(h: Happening)
    ensures var before, now := BeforeStep(0, ReadAtPrompt(h), None, 2), BeforeStep(0, ReadAtPrompt(h), None, 3);
            && before.told == Told(EMPTY.(latest := 5), [], [], 0) && before.since == 0 && before.got == [] && !before.lagged
            && now == before.(since := 5)
  {
    var steps := ReadAtPrompt(h);
    var s := Start(NOTHING_TOLD, 0);
    assert steps[..0] == [] && BeforeStep(0, steps, None, 0) == s;
    StepOn(0, steps, None, 0);
    StepOn(0, steps, None, 1);
    StepOn(0, steps, None, 2);
    NothingAbove(BeforeStep(0, steps, None, 2).told, 0);
  }

  lemma PushedAtItsCursor(h: Happening)
    ensures var t := Tell(Told(EMPTY.(latest := 5), [], [], 0), Op.Push(5, h));
            t.said == [At(5, h)] && t.inner.Read(5, None) == Waited([], 5, false, false)
  {
    var t := Tell(Told(EMPTY.(latest := 5), [], [], 0), Op.Push(5, h));
    assert t.inner.entries.kept == [At(5, h)];
    NothingAbove(t, 5);
  }

  lemma PromptedEnd(h: Happening)
    ensures var s := TakeAll(Start(NOTHING_TOLD, 0), ReadAtPrompt(h), None);
            s.got == [] && s.since == 5 && !s.lagged && s.told.said == [At(5, h)]
  {
    var steps := ReadAtPrompt(h);
    PromptedSteps(h);
    PushedAtItsCursor(h);
    StepOn(0, steps, None, 3);
    StepOn(0, steps, None, 4);
    Cuts.Whole(steps);
  }

  /** What is pushed at a cursor the reader was answered already is never delivered, and
      nothing says it was lost. */
  lemma ReadAtPromptLoses(h: Happening)
    requires !h.Level?
    ensures AllPromised(0, Prompted(h)) && Wrote(ReadAtPrompt(h)) == WatchOps(Observe, 0, Prompted(h))
    ensures Straddles(0, ReadAtPrompt(h), None, 2, 3)
    ensures var s := TakeAll(Start(NOTHING_TOLD, 0), ReadAtPrompt(h), None);
            s.got == [] && s.since == 5 && !s.lagged && s.told.said == [At(5, h)]
  {
    var steps := ReadAtPrompt(h);
    PromptedOps(h);
    PromptedWrites(h);
    PromptedSteps(h);
    NothingAbove(BeforeStep(0, steps, None, 2).told, 0);
    PromptedEnd(h);
  }
}
