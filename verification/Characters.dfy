/** The keeper in front of a character's log: it follows the level, and keeps of a stream what
    an agent may have at that level. */
module Characters {
  import opened Happenings
  import opened History
  import Cuts
  import opened Options
  import Words

  datatype AgentLevel = Off | Observe | Advise | Behaviors | Commands | Takeover {
    function Rank(): nat {
      match this
      case Off => 0 case Observe => 1 case Advise => 2
      case Behaviors => 3 case Commands => 4 case Takeover => 5
    }

    function Word(): string {
      match this
      case Off => "off" case Observe => "observe" case Advise => "advise"
      case Behaviors => "behaviors" case Commands => "commands" case Takeover => "takeover"
    }

    predicate MayRead() {
      Rank() >= Observe.Rank()
    }
  }

  const ALL_LEVELS: seq<AgentLevel> := [Off, Observe, Advise, Behaviors, Commands, Takeover]

  /** The level a word names, ignoring case. */
  function Named(word: string): Option<AgentLevel> {
    FirstNamed(Words.Trimmed(word), ALL_LEVELS)
  }

  function FirstNamed(word: string, levels: seq<AgentLevel>): Option<AgentLevel> {
    if levels == [] then None
    else if Words.SameIgnoringCase(levels[0].Word(), word) then Some(levels[0])
    else FirstNamed(word, levels[1..])
  }

  /** One thing in the session's stream: an event that is a happening as it is, or a line of text. */
  datatype Item = Happened(cursor: nat, happening: Happening) | Spoke(cursor: nat, words: Happenings.Words)

  /** A keeper, with the log behind it. */
  datatype Keeping = Keeping(inner: Inner, level: AgentLevel, hidden: bool) {
    /** The level after a happening. */
    function Follow(happening: Happening): Keeping {
      if happening.Level? then
        this.(level := match Named(happening.level) case Some(l) => l case None => Off)
      else this
    }

    /** The keeper after it looked at the level for something at `cursor`: hiding is noted, and
        the first look that may read after it forgets all below that cursor. */
    function Look(cursor: nat): Keeping {
      if !level.MayRead() then this.(hidden := true)
      else if hidden then this.(hidden := false, inner := inner.Forget(if cursor == 0 then 0 else cursor - 1))
      else this
    }

    function Keep(item: Item): Keeping {
      match item
      case Happened(cursor, happening) =>
        var k := Follow(happening).Look(cursor);
        if k.level.MayRead() || happening.Level? then k.(inner := k.inner.Push(cursor, happening)) else k
      case Spoke(cursor, words) =>
        var k := Look(cursor);
        if k.level.MayRead() then k.(inner := k.inner.Line(cursor, words)) else k
    }
  }

  class Keeper {
    const log: Log
    var level: AgentLevel
    /** The last look hid something, and none has read since. */
    var hidden: bool

    function Now(): Keeping
      reads this, log
    {
      Keeping(log.Now(), level, hidden)
    }

    constructor (log: Log, level: AgentLevel)
      ensures this.log == log && Now() == Keeping(log.Now(), level, !level.MayRead())
    {
      this.log, this.level, hidden := log, level, !level.MayRead();
    }

    method Visible(cursor: nat) returns (r: bool)
      modifies this, log
      ensures Now() == old(Now()).Look(cursor) && r == level.MayRead()
    {
      if !level.MayRead() {
        hidden := true;
        return false;
      }
      var held := hidden;
      hidden := false;
      if held {
        log.Forget(if cursor == 0 then 0 else cursor - 1);
      }
      return true;
    }

    method Keep(cursor: nat, happening: Happening)
      modifies this, log
      ensures Now() == old(Now()).Keep(Happened(cursor, happening))
    {
      if happening.Level? {
        var named := Named(happening.level);
        level := if named.Some? then named.value else Off;
      }
      var visible := Visible(cursor);
      if visible || happening.Level? {
        log.Push(cursor, happening);
      }
    }

    /** Lines go by the level as happenings do. */
    method KeepLine(cursor: nat, stream: string, text: string)
      modifies this, log
      ensures Now() == old(Now()).Keep(Spoke(cursor, Happenings.Words(stream, text)))
    {
      var visible := Visible(cursor);
      if visible {
        log.Line(cursor, stream, text);
      }
    }
  }

  // ------------------------------------------------------------ runs of a keeper

  /** An item, and the level at its own place in the stream. */
  datatype Placed = Placed(item: Item, level: AgentLevel)

  predicate Shown(p: Placed) {
    p.level.MayRead() || (p.item.Happened? && p.item.happening.Level?)
  }

  /** A keeper's run: the keeper, and all its log was told. */
  datatype Watch = Watch(keeping: Keeping, told: Told)

  function Begin(level: AgentLevel): Watch {
    Watch(Keeping(EMPTY, level, !level.MayRead()), NOTHING_TOLD)
  }

  /** The level in force at an item's own place. */
  function LevelAt(before: AgentLevel, item: Item): AgentLevel {
    if item.Happened? && item.happening.Level? then
      match Named(item.happening.level) case Some(l) => l case None => Off
    else before
  }

  /** The level after a stream, by its own level changes alone. */
  function LevelAfter(start: AgentLevel, items: seq<Item>): AgentLevel {
    if items == [] then start else LevelAt(LevelAfter(start, items[..|items| - 1]), items[|items| - 1])
  }

  /** A stream, each item with the level at its own place. */
  function Places(start: AgentLevel, items: seq<Item>): (r: seq<Placed>)
    ensures |r| == |items|
    ensures forall i :: 0 <= i < |items| ==> r[i].item == items[i]
    ensures items != [] ==> r[|r| - 1].level == LevelAfter(start, items)
  {
    if items == [] then []
    else Places(start, items[..|items| - 1]) + [Placed(items[|items| - 1], LevelAfter(start, items))]
  }

  /** The break before the first thing shown after a hidden stretch. */
  function ToldBreak(t: Told, before: AgentLevel, now: AgentLevel, cursor: nat): Told {
    if now.MayRead() && !before.MayRead() then Tell(t, Forget(if cursor == 0 then 0 else cursor - 1)) else t
  }

  function ToldItem(t: Told, p: Placed): Told {
    if !Shown(p) then t
    else
      match p.item
      case Happened(cursor, happening) => Tell(t, Push(cursor, happening))
      case Spoke(cursor, words) => Tell(t, Line(cursor, words))
  }

  function Watched(w: Watch, item: Item): Watch {
    var k := w.keeping.Keep(item);
    var p := Placed(item, k.level);
    Watch(k, ToldItem(ToldBreak(w.told, w.keeping.level, k.level, item.cursor), p))
  }

  function WatchAll(level: AgentLevel, items: seq<Item>): Watch {
    if items == [] then Begin(level) else Watched(WatchAll(level, items[..|items| - 1]), items[|items| - 1])
  }

  /** The stream's cursors do not go back. */
  ghost predicate StreamInOrder(items: seq<Item>) {
    forall i, j :: 0 <= i < j < |items| ==> items[i].cursor <= items[j].cursor
  }

  /** The happenings of a stream an agent may have. */
  function ShownHappenings(stream: seq<Placed>): seq<Entry> {
    if stream == [] then []
    else
      var p := stream[|stream| - 1];
      ShownHappenings(stream[..|stream| - 1]) +
      (if p.item.Happened? && Shown(p) then [At(p.item.cursor, p.item.happening)] else [])
  }

  function ShownLines(stream: seq<Placed>): seq<GameLine> {
    if stream == [] then []
    else
      var p := stream[|stream| - 1];
      ShownLines(stream[..|stream| - 1]) +
      (if p.item.Spoke? && Shown(p) then [At(p.item.cursor, p.item.words)] else [])
  }

  /** The agent could not read at place `k - 1`, or before the stream, and can at place `k`. */
  ghost predicate BreakAt(start: AgentLevel, stream: seq<Placed>, k: nat)
    requires k < |stream|
  {
    !(if k == 0 then start else stream[k - 1].level).MayRead() && stream[k].level.MayRead()
  }

  /** Everything below the cursor of each break is dropped. */
  ghost predicate BreaksDropped(start: AgentLevel, stream: seq<Placed>, dropped: nat) {
    forall k :: 0 <= k < |stream| && BreakAt(start, stream, k) ==> stream[k].item.cursor <= dropped + 1
  }

  /** What every run keeps. */
  ghost predicate Guarded(start: AgentLevel, stream: seq<Placed>, w: Watch) {
    && w.keeping.inner == w.told.inner
    && Faithful(w.told)
    && w.told.said == ShownHappenings(stream)
    && w.told.spoken == ShownLines(stream)
    && w.told.clock <= (if stream == [] then 0 else stream[|stream| - 1].item.cursor)
    && w.keeping.level == (if stream == [] then start else stream[|stream| - 1].level)
    && (w.keeping.hidden <==> !w.keeping.level.MayRead())
    && BreaksDropped(start, stream, w.told.inner.entries.droppedThrough)
    && BreaksDropped(start, stream, w.told.inner.lines.droppedThrough)
  }

  /** The log behind the keeper is told exactly the break and the item. */
  lemma KeptIsTold(k: Keeping, item: Item, t: Told)
    requires k.inner == t.inner && (k.hidden <==> !k.level.MayRead())
    ensures var now := LevelAt(k.level, item);
            k.Keep(item) ==
            Keeping(ToldItem(ToldBreak(t, k.level, now, item.cursor), Placed(item, now)).inner, now, !now.MayRead())
  {
    LookIsBreak(k.(level := LevelAt(k.level, item)), k.level, item.cursor, t);
  }

  lemma LookIsBreak(k: Keeping, before: AgentLevel, cursor: nat, t: Told)
    requires k.inner == t.inner && (k.hidden <==> !before.MayRead())
    ensures k.Look(cursor) == Keeping(ToldBreak(t, before, k.level, cursor).inner, k.level, !k.level.MayRead())
  {}

  lemma BreakKeeps(t: Told, before: AgentLevel, now: AgentLevel, cursor: nat)
    requires Faithful(t) && t.clock <= cursor
    ensures var t' := ToldBreak(t, before, now, cursor);
            && Faithful(t') && t'.clock <= cursor && t'.said == t.said && t'.spoken == t.spoken
            && t.inner.entries.droppedThrough <= t'.inner.entries.droppedThrough
            && t.inner.lines.droppedThrough <= t'.inner.lines.droppedThrough
            && (now.MayRead() && !before.MayRead() ==>
                 && cursor <= t'.inner.entries.droppedThrough + 1
                 && cursor <= t'.inner.lines.droppedThrough + 1)
  {
    if now.MayRead() && !before.MayRead() {
      TellKeeps(t, Forget(if cursor == 0 then 0 else cursor - 1));
    }
  }

  lemma ItemKeeps(t: Told, p: Placed)
    requires Faithful(t) && t.clock <= p.item.cursor
    ensures var t' := ToldItem(t, p);
            && Faithful(t') && t'.clock <= p.item.cursor
            && t'.said == t.said + (if p.item.Happened? && Shown(p) then [At(p.item.cursor, p.item.happening)] else [])
            && t'.spoken == t.spoken + (if p.item.Spoke? && Shown(p) then [At(p.item.cursor, p.item.words)] else [])
            && t.inner.entries.droppedThrough <= t'.inner.entries.droppedThrough
            && t.inner.lines.droppedThrough <= t'.inner.lines.droppedThrough
  {
    match p.item
    case Happened(cursor, happening) => TellKeeps(t, Push(cursor, happening));
    case Spoke(cursor, words) => TellKeeps(t, Line(cursor, words));
  }

  lemma ShownOneMore(stream: seq<Placed>, p: Placed)
    ensures ShownHappenings(stream + [p]) ==
            ShownHappenings(stream) + (if p.item.Happened? && Shown(p) then [At(p.item.cursor, p.item.happening)] else [])
    ensures ShownLines(stream + [p]) ==
            ShownLines(stream) + (if p.item.Spoke? && Shown(p) then [At(p.item.cursor, p.item.words)] else [])
  {
    Cuts.InitOfAppend(stream, p);
  }

  lemma BreaksOneMore(start: AgentLevel, stream: seq<Placed>, p: Placed, before: nat, after: nat)
    requires BreaksDropped(start, stream, before) && before <= after
    requires p.level.MayRead() && !(if stream == [] then start else stream[|stream| - 1].level).MayRead() ==>
             p.item.cursor <= after + 1
    ensures BreaksDropped(start, stream + [p], after)
  {
    var more := stream + [p];
    forall k | 0 <= k < |more| && BreakAt(start, more, k)
      ensures more[k].item.cursor <= after + 1
    {
      assert k < |stream| ==> BreakAt(start, stream, k);
    }
  }

  /** What `t'` is told beyond `t`, for the item at `p`. */
  ghost predicate ToldOneMore(t: Told, t': Told, p: Placed) {
    && Faithful(t') && t'.clock <= p.item.cursor
    && t'.said == t.said + (if p.item.Happened? && Shown(p) then [At(p.item.cursor, p.item.happening)] else [])
    && t'.spoken == t.spoken + (if p.item.Spoke? && Shown(p) then [At(p.item.cursor, p.item.words)] else [])
    && t.inner.entries.droppedThrough <= t'.inner.entries.droppedThrough
    && t.inner.lines.droppedThrough <= t'.inner.lines.droppedThrough
  }

  ghost predicate BreakMade(before: AgentLevel, p: Placed, t': Told) {
    p.level.MayRead() && !before.MayRead() ==>
      && p.item.cursor <= t'.inner.entries.droppedThrough + 1
      && p.item.cursor <= t'.inner.lines.droppedThrough + 1
  }

  lemma ItemIsTold(k: Keeping, t: Told, item: Item)
    requires k.inner == t.inner && (k.hidden <==> !k.level.MayRead())
    requires Faithful(t) && t.clock <= item.cursor
    ensures var p := Placed(item, LevelAt(k.level, item));
            var t' := ToldItem(ToldBreak(t, k.level, p.level, item.cursor), p);
            && ToldOneMore(t, t', p) && BreakMade(k.level, p, t')
            && k.Keep(item) == Keeping(t'.inner, p.level, !p.level.MayRead())
  {
    var p := Placed(item, LevelAt(k.level, item));
    KeptIsTold(k, item, t);
    BreakKeeps(t, k.level, p.level, item.cursor);
    ItemKeeps(ToldBreak(t, k.level, p.level, item.cursor), p);
  }

  lemma GuardedOneMore(start: AgentLevel, stream: seq<Placed>, w: Watch, p: Placed, t': Told)
    requires Guarded(start, stream, w) && ToldOneMore(w.told, t', p) && BreakMade(w.keeping.level, p, t')
    ensures Guarded(start, stream + [p], Watch(Keeping(t'.inner, p.level, !p.level.MayRead()), t'))
  {
    Cuts.InitOfAppend(stream, p);
    ShownOneMore(stream, p);
    BreaksOneMore(start, stream, p, w.told.inner.entries.droppedThrough, t'.inner.entries.droppedThrough);
    BreaksOneMore(start, stream, p, w.told.inner.lines.droppedThrough, t'.inner.lines.droppedThrough);
  }

  /** Every run over an in-order stream: what the log was told is exactly what the
      levels, each at its own place, let an agent have. */
  lemma {:induction false} EveryRunIsGuarded(level: AgentLevel, items: seq<Item>)
    requires StreamInOrder(items)
    ensures Guarded(level, Places(level, items), WatchAll(level, items))
  {
    if items != [] {
      var init, item := items[..|items| - 1], items[|items| - 1];
      EveryRunIsGuarded(level, init);
      var w := WatchAll(level, init);
      var p := Placed(item, LevelAt(w.keeping.level, item));
      assert w.keeping.level == LevelAfter(level, init);
      assert Places(level, items) == Places(level, init) + [p];
      ItemIsTold(w.keeping, w.told, item);
      GuardedOneMore(level, Places(level, init), w, p, ToldItem(ToldBreak(w.told, w.keeping.level, p.level, item.cursor), p));
    }
  }

  // ------------------------------------------------------------ what it means

  lemma {:induction false} ShownComesFrom(stream: seq<Placed>, e: Entry)
    requires e in ShownHappenings(stream)
    ensures exists p :: p in stream && Shown(p) && p.item == Happened(e.cursor, e.what)
  {
    var p := stream[|stream| - 1];
    if !(p.item == Happened(e.cursor, e.what) && Shown(p)) {
      ShownComesFrom(stream[..|stream| - 1], e);
    }
  }

  lemma {:induction false} ShownLineComesFrom(stream: seq<Placed>, l: GameLine)
    requires l in ShownLines(stream)
    ensures exists p :: p in stream && Shown(p) && p.item == Spoke(l.cursor, l.what)
  {
    var p := stream[|stream| - 1];
    if !(p.item == Spoke(l.cursor, l.what) && Shown(p)) {
      ShownLineComesFrom(stream[..|stream| - 1], l);
    }
  }

  /** The log never holds a line, or a happening other than a level change, from a
      place where the level was below reading. */
  lemma NothingLeaks(level: AgentLevel, items: seq<Item>)
    requires StreamInOrder(items)
    ensures var w, stream := WatchAll(level, items), Places(level, items);
            && (forall e :: e in w.keeping.inner.entries.kept ==>
                 exists p :: p in stream && p.item == Happened(e.cursor, e.what) && (p.level.MayRead() || e.what.Level?))
            && (forall l :: l in w.keeping.inner.lines.kept ==>
                 exists p :: p in stream && p.item == Spoke(l.cursor, l.what) && p.level.MayRead())
  {
    var w, stream := WatchAll(level, items), Places(level, items);
    EveryRunIsGuarded(level, items);
    forall e | e in w.keeping.inner.entries.kept
      ensures exists p :: p in stream && p.item == Happened(e.cursor, e.what) && (p.level.MayRead() || e.what.Level?)
    {
      assert e in w.told.said;
      ShownComesFrom(stream, e);
    }
    forall l | l in w.keeping.inner.lines.kept
      ensures exists p :: p in stream && p.item == Spoke(l.cursor, l.what) && p.level.MayRead()
    {
      assert l in w.told.spoken;
      ShownLineComesFrom(stream, l);
    }
  }

  lemma BreakBetween(start: AgentLevel, stream: seq<Placed>, j: nat, k: nat) returns (b: nat)
    requires j < k < |stream|
    requires !stream[j].level.MayRead() && stream[k].level.MayRead()
    ensures j < b <= k && BreakAt(start, stream, b)
  {
    b := k;
    while !BreakAt(start, stream, b)
      invariant j < b <= k && stream[b].level.MayRead()
      decreases b
    {
      b := b - 1;
    }
  }

  /** What only the session's own events carry: lines, and changes of level. */
  predicate OfEvents(item: Item) {
    item.Spoke? || item.happening.Level?
  }

  /** Lines and level changes come at cursors above everything before them. */
  ghost predicate Rising(items: seq<Item>) {
    forall i, j :: 0 <= i < j < |items| && OfEvents(items[j]) ==> items[i].cursor < items[j].cursor
  }

  /** A level is only raised by its own event. */
  lemma BreakIsALevel(level: AgentLevel, items: seq<Item>, b: nat)
    requires b < |items| && BreakAt(level, Places(level, items), b)
    ensures items[b].Happened? && items[b].happening.Level?
  {
    PlacesAt(level, items, b);
    if b > 0 {
      PlacesAt(level, items, b - 1);
      assert items[..b + 1][..b] == items[..b];
    }
  }

  lemma {:induction false} PlacesAt(level: AgentLevel, items: seq<Item>, i: nat)
    requires i < |items|
    ensures Places(level, items)[i] == Placed(items[i], LevelAfter(level, items[..i + 1]))
    ensures LevelAfter(level, items[..i + 1]) == LevelAt(LevelAfter(level, items[..i]), items[i])
  {
    assert items[..i + 1][..i] == items[..i];
    if i == |items| - 1 {
      assert items[..i + 1] == items;
    } else {
      var init := items[..|items| - 1];
      PlacesAt(level, init, i);
      assert init[..i + 1] == items[..i + 1] && init[..i] == items[..i];
    }
  }

  /** Once anything is readable after something hidden, a reader from before the hidden is
      told `lagged`, by both reads. */
  lemma HiddenIsLagged(level: AgentLevel, items: seq<Item>, j: nat, k: nat, since: nat, kinds: Kinds, until: Option<nat>, most: nat)
    requires StreamInOrder(items) && Rising(items) && j < k < |items|
    requires !Places(level, items)[j].level.MayRead() && Places(level, items)[k].level.MayRead()
    requires since < items[j].cursor
    ensures WatchAll(level, items).keeping.inner.Read(since, kinds).lagged
    ensures LinesOf(WatchAll(level, items).keeping.inner, Some(since), until, most).lagged
  {
    var w, stream := WatchAll(level, items), Places(level, items);
    EveryRunIsGuarded(level, items);
    var b := BreakBetween(level, stream, j, k);
    BreakIsALevel(level, items, b);
    assert OfEvents(items[b]);
    assert stream[b].item.cursor <= w.told.inner.entries.droppedThrough + 1;
    assert stream[b].item.cursor <= w.told.inner.lines.droppedThrough + 1;
  }

  lemma {:induction false} FirstNamedAt(word: string, levels: seq<AgentLevel>, i: nat)
    requires i < |levels| && Words.SameIgnoringCase(levels[i].Word(), word)
    requires forall j :: 0 <= j < i ==> !Words.SameIgnoringCase(levels[j].Word(), word)
    ensures FirstNamed(word, levels) == Some(levels[i])
    decreases i
  {
    if i > 0 {
      FirstNamedAt(word, levels[1..], i - 1);
    }
  }

  lemma WordsDiffer(a: AgentLevel, b: AgentLevel)
    requires a != b
    ensures !Words.SameIgnoringCase(a.Word(), b.Word())
  {
    var x, y := Words.Lower(a.Word()), Words.Lower(b.Word());
    assert |x| == |y| ==> x[0] != y[0];
  }

  /** The word a level change carries names that level. */
  lemma WordNamesLevel(level: AgentLevel)
    ensures Named(level.Word()) == Some(level)
  {
    assert Words.Trimmed(level.Word()) == level.Word();
    assert ALL_LEVELS[level.Rank()] == level;
    forall j | 0 <= j < level.Rank()
      ensures !Words.SameIgnoringCase(ALL_LEVELS[j].Word(), level.Word())
    {
      assert ALL_LEVELS[j].Rank() == j;
      WordsDiffer(ALL_LEVELS[j], level);
    }
    FirstNamedAt(level.Word(), ALL_LEVELS, level.Rank());
  }
}
