/** A reader that follows the game's lines, reading on from the last line it was given, while
    the watcher writes. */
module LineReading {
  import opened Happenings
  import opened History
  import opened Characters
  import opened Watcher
  import opened Options
  import Cuts

  // ------------------------------------------------------------ lines that rise

  ghost predicate RisingLines(s: seq<GameLine>) {
    forall i, j :: 0 <= i < j < |s| ==> s[i].cursor < s[j].cursor
  }

  ghost predicate AllBelow(s: seq<GameLine>, hi: nat) {
    forall i :: 0 <= i < |s| ==> s[i].cursor < hi
  }

  /** The writer's cursors do not go back, and every line is above all lines before it. */
  ghost predicate RisesAt(t: Told, op: Op) {
    InOrder(t, op) && (op.Line? ==> AllBelow(t.spoken, op.cursor))
  }

  lemma {:induction false} WithinRises(s: seq<GameLine>, since: Option<nat>, until: Option<nat>, hi: nat)
    requires RisingLines(s) && AllBelow(s, hi)
    ensures RisingLines(LinesWithin(s, since, until)) && AllBelow(LinesWithin(s, since, until), hi)
  {
    if s != [] {
      var init, last := s[..|s| - 1], s[|s| - 1];
      assert AllBelow(init, last.cursor);
      WithinRises(init, since, until, last.cursor);
      var w := LinesWithin(init, since, until);
      var r := LinesWithin(s, since, until);
      forall i, j | 0 <= i < j < |r|
        ensures r[i].cursor < r[j].cursor
      {
        assert r[i] == w[i];
      }
    }
  }

  /** Where lines rise, reading on from the last line returned skips none. */
  lemma LinesResume(t: Told, since: nat, until: Option<nat>, n: nat)
    requires Faithful(t) && RisingLines(t.spoken)
    requires 0 < n <= |LinesWithin(t.spoken, Some(since), until)|
    ensures var all := LinesWithin(t.spoken, Some(since), until);
            LinesWithin(t.spoken, Some(all[n - 1].cursor), until) == all[n..]
  {
    LinesResumeWhen(t, since, until, n);
    WithinRises(t.spoken, Some(since), until, if t.spoken == [] then 0 else t.spoken[|t.spoken| - 1].cursor + 1);
  }

  // ------------------------------------------------------------ the reader

  datatype Step = Write(op: Op) | Read(most: nat)

  /** A log, and a reader of its lines: where it reads from, what it got, whether an answer
      said `lagged`, and whether the last said there is more. */
  datatype Session = Session(told: Told, since: nat, got: seq<GameLine>, lagged: bool, more: bool)

  function Take(s: Session, step: Step, until: Option<nat>): Session {
    match step
    case Write(op) => s.(told := Tell(s.told, op))
    case Read(most) =>
      var a := LinesOf(s.told.inner, Some(s.since), until, most);
      s.(since := if a.lines == [] then s.since else a.lines[|a.lines| - 1].cursor,
         got := s.got + a.lines, lagged := s.lagged || a.lagged, more := a.more)
  }

  function TakeAll(s: Session, steps: seq<Step>, until: Option<nat>): Session {
    if steps == [] then s else Take(TakeAll(s, steps[..|steps| - 1], until), steps[|steps| - 1], until)
  }

  function Begin(since: nat): Session {
    Session(NOTHING_TOLD, since, [], false, true)
  }

  ghost predicate Orderly(s: Session, steps: seq<Step>, until: Option<nat>) {
    steps != [] ==>
      && Orderly(s, steps[..|steps| - 1], until)
      && (steps[|steps| - 1].Write? ==> RisesAt(TakeAll(s, steps[..|steps| - 1], until).told, steps[|steps| - 1].op))
  }

  /** The lines rise, and the reader is no further than they go. */
  ghost predicate Keeps(spoken: seq<GameLine>, since: nat, now: nat) {
    RisingLines(spoken) && since <= now && (now == since || (spoken != [] && now <= spoken[|spoken| - 1].cursor))
  }

  /** What was got and what is left to read are together all there is to read. */
  ghost predicate Sum(spoken: seq<GameLine>, got: seq<GameLine>, since: nat, now: nat, until: Option<nat>) {
    got + LinesWithin(spoken, Some(now), until) == LinesWithin(spoken, Some(since), until)
  }

  ghost predicate Whole(s: Session, since: nat, until: Option<nat>) {
    && Faithful(s.told) && Keeps(s.told.spoken, since, s.since)
    && (!s.lagged ==> Sum(s.told.spoken, s.got, since, s.since, until))
  }

  lemma OneMoreLine(spoken: seq<GameLine>, line: GameLine, got: seq<GameLine>, since: nat, now: nat, until: Option<nat>)
    requires Keeps(spoken, since, now) && AllBelow(spoken, line.cursor)
    ensures Keeps(spoken + [line], since, now)
    ensures Sum(spoken, got, since, now, until) ==> Sum(spoken + [line], got, since, now, until)
  {
    Cuts.InitOfAppend(spoken, line);
    var left, all := LinesWithin(spoken, Some(now), until), LinesWithin(spoken, Some(since), until);
    Cuts.Nothing(left);
    Cuts.Nothing(all);
    Cuts.JoinAssociates(got, left, [line]);
    assert now < line.cursor <==> since < line.cursor;
  }

  lemma WriteStaysWhole(s: Session, op: Op, since: nat, until: Option<nat>)
    requires Whole(s, since, until) && RisesAt(s.told, op)
    ensures Whole(Take(s, Write(op), until), since, until)
  {
    TellKeeps(s.told, op);
    if op.Line? {
      OneMoreLine(s.told.spoken, At(op.cursor, op.words), s.got, since, s.since, until);
    }
  }

  /** What an answer moves the reader by, and where to. */
  lemma AnswerSums(t: Told, since: nat, until: Option<nat>, most: nat)
    requires Faithful(t) && RisingLines(t.spoken)
    ensures var a := LinesOf(t.inner, Some(since), until, most);
            var now := if a.lines == [] then since else a.lines[|a.lines| - 1].cursor;
            && Keeps(t.spoken, since, now)
            && (!a.lagged ==> Sum(t.spoken, a.lines, since, now, until))
            && (!a.lagged && !a.more ==> LinesWithin(t.spoken, Some(now), until) == [])
  {
    var a := LinesOf(t.inner, Some(since), until, most);
    if a.lines != [] {
      ReadIsAmong(t, since, until, most);
    }
    if !a.lagged {
      LinesNotLagged(t, since, until, most);
      var left, n := LinesWithin(t.spoken, Some(since), until), |a.lines|;
      Cuts.Nothing(left);
      if n > 0 {
        assert a.lines == left[..n];
        LinesResume(t, since, until, n);
        Cuts.TwoParts(left, n);
      }
    }
  }

  /** Two moves, one after the other. */
  lemma SumsJoin(spoken: seq<GameLine>, got: seq<GameLine>, more: seq<GameLine>, since: nat, mid: nat, now: nat, until: Option<nat>)
    requires Sum(spoken, got, since, mid, until) && Sum(spoken, more, mid, now, until)
    ensures Sum(spoken, got + more, since, now, until)
  {
    Cuts.JoinAssociates(got, more, LinesWithin(spoken, Some(now), until));
  }

  lemma ReadStaysWhole(s: Session, most: nat, since: nat, until: Option<nat>)
    requires Whole(s, since, until)
    ensures Whole(Take(s, Read(most), until), since, until)
    ensures var r := Take(s, Read(most), until); !r.lagged && !r.more ==> LinesWithin(s.told.spoken, Some(r.since), until) == []
  {
    var r := Take(s, Read(most), until);
    AnswerSums(s.told, s.since, until, most);
    if !r.lagged {
      SumsJoin(s.told.spoken, s.got, LinesOf(s.told.inner, Some(s.since), until, most).lines, since, s.since, r.since, until);
    }
  }

  /** A line within is one of the lines, above `since` and no later than the last. */
  lemma {:induction false} LastWithin(s: seq<GameLine>, since: Option<nat>, until: Option<nat>, i: nat)
    requires RisingLines(s) && i < |LinesWithin(s, since, until)|
    ensures s != [] && LinesWithin(s, since, until)[i].cursor <= s[|s| - 1].cursor
    ensures since.Some? ==> since.value < LinesWithin(s, since, until)[i].cursor
  {
    var init := s[..|s| - 1];
    if i < |LinesWithin(init, since, until)| {
      LastWithin(init, since, until, i);
      assert LinesWithin(s, since, until)[i] == LinesWithin(init, since, until)[i];
    }
  }

  /** Even an answer that lagged moves the reader no further than the lines go. */
  lemma ReadIsAmong(t: Told, since: nat, until: Option<nat>, most: nat)
    requires Faithful(t) && RisingLines(t.spoken)
    requires LinesOf(t.inner, Some(since), until, most).lines != []
    ensures var a := LinesOf(t.inner, Some(since), until, most);
            t.spoken != [] && since < a.lines[|a.lines| - 1].cursor <= t.spoken[|t.spoken| - 1].cursor
  {
    var a := LinesOf(t.inner, Some(since), until, most);
    var kept := t.inner.lines.kept;
    assert forall i :: 0 <= i < |kept| ==> kept[i] == t.spoken[|t.spoken| - |kept| + i];
    LastWithin(kept, Some(since), until, |a.lines| - 1);
  }

  /** Over every run of writes and reads of lines that rise: while no answer says `lagged`,
      the lines got and the lines still to read are, in order and each once, all the lines
      ever spoken after where the reader began; and when the last step was a read that says
      there is no more, the reader has them all. */
  lemma {:induction false} LinesLoseNothing(since: nat, steps: seq<Step>, until: Option<nat>)
    requires Orderly(Begin(since), steps, until)
    ensures Whole(TakeAll(Begin(since), steps, until), since, until)
    ensures var s := TakeAll(Begin(since), steps, until);
            steps != [] && steps[|steps| - 1].Read? && !s.lagged && !s.more ==>
              s.got == LinesWithin(s.told.spoken, Some(since), until)
  {
    if steps != [] {
      var before := TakeAll(Begin(since), steps[..|steps| - 1], until);
      LinesLoseNothing(since, steps[..|steps| - 1], until);
      match steps[|steps| - 1]
      case Write(op) => WriteStaysWhole(before, op, since, until);
      case Read(most) =>
        ReadStaysWhole(before, most, since, until);
        Cuts.Nothing(TakeAll(Begin(since), steps, until).got);
    }
  }

  // ------------------------------------------------------------ under the watcher

  function BreakOps(before: AgentLevel, now: AgentLevel, cursor: nat): (ops: seq<Op>) {
    if now.MayRead() && !before.MayRead() then [Forget(if cursor == 0 then 0 else cursor - 1)] else []
  }

  function ShownOps(p: Placed): (ops: seq<Op>) {
    if !Shown(p) then []
    else match p.item
      case Happened(cursor, happening) => [Op.Push(cursor, happening)]
      case Spoke(cursor, words) => [Op.Line(cursor, words)]
  }

  /** What the watcher's log is told for one item. */
  function OpsFor(before: AgentLevel, now: AgentLevel, item: Item): (ops: seq<Op>) {
    BreakOps(before, now, item.cursor) + ShownOps(Placed(item, now))
  }

  /** Everything the watcher's log is told of a stream, but for the cursors reached. */
  function OpsOf(level: AgentLevel, items: seq<Item>): (ops: seq<Op>) {
    if items == [] then []
    else
      var init := items[..|items| - 1];
      OpsOf(level, init) + OpsFor(LevelAfter(level, init), LevelAfter(level, items), items[|items| - 1])
  }

  ghost predicate AllRising(t: Told, ops: seq<Op>) {
    ops != [] ==> AllRising(t, ops[..|ops| - 1]) && RisesAt(TellAll(t, ops[..|ops| - 1]), ops[|ops| - 1])
  }

  lemma OneMoreOp(t: Told, ops: seq<Op>, op: Op)
    ensures TellAll(t, ops + [op]) == Tell(TellAll(t, ops), op)
    ensures AllRising(t, ops + [op]) <==> AllRising(t, ops) && RisesAt(TellAll(t, ops), op)
  {
    Cuts.InitOfAppend(ops, op);
  }

  lemma LinesAreBelow(level: AgentLevel, items: seq<Item>, spoken: seq<GameLine>)
    requires items != [] && Rising(items) && items[|items| - 1].Spoke?
    requires spoken == ShownLines(Places(level, items[..|items| - 1]))
    ensures AllBelow(spoken, items[|items| - 1].cursor)
  {
    var init := items[..|items| - 1];
    var stream := Places(level, init);
    forall i | 0 <= i < |spoken|
      ensures spoken[i].cursor < items[|items| - 1].cursor
    {
      ShownLineComesFrom(stream, spoken[i]);
      var p :| p in stream && p.item == Spoke(spoken[i].cursor, spoken[i].what);
      var j :| 0 <= j < |stream| && stream[j] == p;
      assert items[j] == init[j] == p.item && OfEvents(items[|items| - 1]);
    }
  }

  /** `ops` rise, and tell `t`. */
  ghost predicate Tells(ops: seq<Op>, t: Told) {
    AllRising(NOTHING_TOLD, ops) && TellAll(NOTHING_TOLD, ops) == t
  }

  lemma BreakRises(ops: seq<Op>, t: Told, before: AgentLevel, now: AgentLevel, cursor: nat)
    requires Tells(ops, t)
    ensures Tells(ops + BreakOps(before, now, cursor), ToldBreak(t, before, now, cursor))
  {
    if now.MayRead() && !before.MayRead() {
      OneMoreOp(NOTHING_TOLD, ops, Forget(if cursor == 0 then 0 else cursor - 1));
    } else {
      Cuts.Nothing(ops);
    }
  }

  lemma ShownRises(ops: seq<Op>, t: Told, p: Placed)
    requires Tells(ops, t) && t.clock <= p.item.cursor && (p.item.Spoke? ==> AllBelow(t.spoken, p.item.cursor))
    ensures Tells(ops + ShownOps(p), ToldItem(t, p))
  {
    if Shown(p) {
      OneMoreOp(NOTHING_TOLD, ops, ShownOps(p)[0]);
    } else {
      Cuts.Nothing(ops);
    }
  }

  /** The ops of one item, told one after the other. */
  lemma ItemRises(ops: seq<Op>, t: Told, before: AgentLevel, now: AgentLevel, item: Item)
    requires Tells(ops, t) && Faithful(t) && t.clock <= item.cursor && (item.Spoke? ==> AllBelow(t.spoken, item.cursor))
    ensures Tells(ops + OpsFor(before, now, item), ToldItem(ToldBreak(t, before, now, item.cursor), Placed(item, now)))
  {
    BreakKeeps(t, before, now, item.cursor);
    BreakRises(ops, t, before, now, item.cursor);
    ShownRises(ops + BreakOps(before, now, item.cursor), ToldBreak(t, before, now, item.cursor), Placed(item, now));
    Cuts.JoinAssociates(ops, BreakOps(before, now, item.cursor), ShownOps(Placed(item, now)));
  }

  /** The watch goes on with one item told. */
  lemma WatchedOne(level: AgentLevel, items: seq<Item>)
    requires items != [] && StreamInOrder(items)
    ensures var init, item := items[..|items| - 1], items[|items| - 1];
            && Faithful(WatchAll(level, init).told) && WatchAll(level, init).told.clock <= item.cursor
            && WatchAll(level, init).told.spoken == ShownLines(Places(level, init))
            && WatchAll(level, items).told ==
               ToldItem(ToldBreak(WatchAll(level, init).told, LevelAfter(level, init), LevelAfter(level, items), item.cursor),
                        Placed(item, LevelAfter(level, items)))
  {
    EveryRunIsGuarded(level, items[..|items| - 1]);
    LevelsAgree(level, items[..|items| - 1]);
    LevelsAgree(level, items);
  }

  lemma LevelsAgree(level: AgentLevel, items: seq<Item>)
    requires StreamInOrder(items)
    ensures WatchAll(level, items).keeping.level == LevelAfter(level, items)
  {
    EveryRunIsGuarded(level, items);
  }

  /** The watcher's log is told just that, and its lines rise. */
  lemma {:induction false} WatchRises(level: AgentLevel, items: seq<Item>)
    requires StreamInOrder(items) && Rising(items)
    ensures Tells(OpsOf(level, items), WatchAll(level, items).told)
  {
    if items != [] {
      var init, item := items[..|items| - 1], items[|items| - 1];
      assert StreamInOrder(init) && Rising(init);
      WatchRises(level, init);
      WatchedOne(level, items);
      if item.Spoke? {
        LinesAreBelow(level, items, WatchAll(level, init).told.spoken);
      }
      ItemRises(OpsOf(level, init), WatchAll(level, init).told, LevelAfter(level, init), LevelAfter(level, items), item);
    }
  }

  /** What the steps write, but for the cursors reached, which change no line. */
  function Wrote(steps: seq<Step>): (ops: seq<Op>) {
    if steps == [] then []
    else
      var last := steps[|steps| - 1];
      Wrote(steps[..|steps| - 1]) + (if last.Write? && !last.op.Reached? then [last.op] else [])
  }

  lemma {:induction false} RisingFront(t: Told, ops: seq<Op>, n: nat)
    requires AllRising(t, ops) && n <= |ops|
    ensures AllRising(t, ops[..n])
  {
    if n < |ops| {
      RisingFront(t, ops[..|ops| - 1], n);
      assert ops[..|ops| - 1][..n] == ops[..n];
    } else {
      Cuts.Whole(ops);
    }
  }

  lemma {:induction false} StepsAreOrderly(ops: seq<Op>, since: nat, steps: seq<Step>, until: Option<nat>)
    requires AllRising(NOTHING_TOLD, ops) && Wrote(steps) <= ops
    ensures Orderly(Begin(since), steps, until)
    ensures var t, u := TakeAll(Begin(since), steps, until).told, TellAll(NOTHING_TOLD, Wrote(steps));
            t.spoken == u.spoken && t.clock == u.clock
  {
    if steps != [] {
      var init, last := steps[..|steps| - 1], steps[|steps| - 1];
      StepsAreOrderly(ops, since, init, until);
      if last.Write? && !last.op.Reached? {
        RisingFront(NOTHING_TOLD, ops, |Wrote(steps)|);
        assert ops[..|Wrote(steps)|] == Wrote(init) + [last.op];
        OneMoreOp(NOTHING_TOLD, Wrote(init), last.op);
      } else {
        Cuts.Nothing(Wrote(init));
      }
    }
  }

  /** A reader of lines under any run of the watcher, reading when it will: while no answer
      says `lagged` it gets every line the watcher's log was told after where it began, once
      and in order, and has them all when a read says there is no more. */
  lemma WatchersLinesAreRead(level: AgentLevel, floor: nat, turns: seq<Turn>, since: nat, steps: seq<Step>, until: Option<nat>)
    requires AllPromised(floor, turns) && Wrote(steps) <= OpsOf(level, FedAll(turns))
    ensures var s := TakeAll(Begin(since), steps, until);
            && Whole(s, since, until)
            && (steps != [] && steps[|steps| - 1].Read? && !s.lagged && !s.more ==>
                  s.got == LinesWithin(TellAll(NOTHING_TOLD, Wrote(steps)).spoken, Some(since), until))
  {
    WatcherInOrder(floor, turns);
    WatchRises(level, FedAll(turns));
    StepsAreOrderly(OpsOf(level, FedAll(turns)), since, steps, until);
    LinesLoseNothing(since, steps, until);
  }
}
