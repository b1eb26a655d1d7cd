/** One character's happenings: a bounded log read after a cursor. */
module Happenings {
  import Json
  import opened Options

  datatype Happening =
    | Status(id: string, now: Option<bool>)
    | Moved(from: Option<string>, to: Option<string>, title: Option<string>)
    | Arrived(id: string, name: string)
    | Left(id: string, name: string)
    | CreatureDied(id: string, name: string)
    | Sent(line: string, origin: string)
    | Notice(text: string)
    | Lifecycle(state: string)
    | Gap
    | Changed(fields: map<string, Json.Value>)
    | Level(level: string)
    | Approval(number: nat, approved: bool)
    | Operation(operation: Json.Value)
  {
    /** Its kind, as a reader filters on it. */
    function Kind(): string {
      match this
      case Status(_, _) => "status"
      case Moved(_, _, _) => "moved"
      case Arrived(_, _) => "arrived"
      case Left(_, _) => "left"
      case CreatureDied(_, _) => "creature_died"
      case Sent(_, _) => "sent"
      case Notice(_) => "notice"
      case Lifecycle(_) => "lifecycle"
      case Gap => "gap"
      case Changed(_) => "changed"
      case Level(_) => "level"
      case Approval(_, _) => "approval"
      case Operation(_) => "operation"
    }
  }

  /** Something at the session's cursor. */
  datatype At<+T> = At(cursor: nat, what: T)

  type Entry = At<Happening>

  /** The text of a line, and the name of its stream. */
  datatype Words = Words(stream: string, text: string)

  type GameLine = At<Words>

  datatype Waited = Waited(happenings: seq<Entry>, cursor: nat, lagged: bool, closed: bool)

  datatype Lines = Lines(lines: seq<GameLine>, lagged: bool, more: bool)

  const KEPT: nat := 1_000
  const KEPT_LINES: nat := 500
  const LINES_RETURNED: nat := 200
  const RETURNED: nat := 200

  /** Which kinds a reader asked for: every kind when none are named. */
  type Kinds = Option<set<string>>

  predicate Asked(kinds: Kinds, e: Entry) {
    kinds.None? || e.what.Kind() in kinds.value
  }

  function Max(a: nat, b: nat): nat {
    if a < b then b else a
  }

  // ------------------------------------------------------------ what is kept

  /** The newest of what was added, and the cursor up to which older things are missing; 0 for none missing. */
  datatype Stretch<+T> = Stretch(kept: seq<At<T>>, droppedThrough: nat) {
    /** The newest `bound` stay. */
    function Add(bound: nat, it: At<T>): Stretch<T> {
      var all := kept + [it];
      var over := if |all| > bound then |all| - bound else 0;
      Stretch(all[over..], if over > 0 then all[over - 1].cursor else droppedThrough)
    }

    /** Everything up to `through` dropped, as if to the bound. */
    function Forget(through: nat): Stretch<T> {
      Stretch(After(kept, through), Max(droppedThrough, through))
    }
  }

  function After<T>(s: seq<At<T>>, through: nat): seq<At<T>> {
    if s == [] then []
    else After(s[..|s| - 1], through) + (if s[|s| - 1].cursor > through then [s[|s| - 1]] else [])
  }

  datatype Inner = Inner(entries: Stretch<Happening>, lines: Stretch<Words>, latest: nat, closed: bool) {
    function Push(cursor: nat, happening: Happening): Inner {
      this.(entries := entries.Add(KEPT, At(cursor, happening)), latest := Max(latest, cursor))
    }

    function Line(cursor: nat, words: Words): Inner {
      this.(lines := lines.Add(KEPT_LINES, At(cursor, words)), latest := Max(latest, cursor))
    }

    function Reached(cursor: nat): Inner {
      this.(latest := Max(latest, cursor))
    }

    function Forget(through: nat): Inner {
      this.(entries := entries.Forget(through), lines := lines.Forget(through))
    }

    function Read(since: nat, kinds: Kinds): Waited {
      var page := Page(Wanted(entries.kept, since, kinds));
      Waited(page,
             if |page| >= RETURNED then page[|page| - 1].cursor else Max(latest, since),
             since < entries.droppedThrough,
             closed)
    }
  }

  const EMPTY := Inner(Stretch([], 0), Stretch([], 0), 0, false)

  /** The entries a reader at `since` wants. */
  function Wanted(s: seq<Entry>, since: nat, kinds: Kinds): seq<Entry> {
    if s == [] then []
    else
      var e := s[|s| - 1];
      Wanted(s[..|s| - 1], since, kinds) + (if e.cursor > since && Asked(kinds, e) then [e] else [])
  }

  /** How much of `w` one answer takes, `n` of it being taken: to `RETURNED`, and on to
      the end of that cursor's happenings. */
  function PageEnd(w: seq<Entry>, n: nat): (r: nat)
    requires n <= |w|
    ensures n <= r <= |w|
    decreases |w| - n
  {
    if n == |w| || (n >= RETURNED && w[n - 1].cursor != w[n].cursor) then n
    else PageEnd(w, n + 1)
  }

  function Page(w: seq<Entry>): seq<Entry> {
    w[..PageEnd(w, 0)]
  }

  function LinesWithin(s: seq<GameLine>, since: Option<nat>, until: Option<nat>): seq<GameLine> {
    if s == [] then []
    else
      var l := s[|s| - 1];
      LinesWithin(s[..|s| - 1], since, until) +
      (if (since.None? || l.cursor > since.value) && (until.None? || l.cursor <= until.value) then [l] else [])
  }

  // ------------------------------------------------------------- the log itself

  class Log {
    var entries: seq<Entry>
    /** The cursor up to which entries are missing; 0 for none missing. */
    var droppedThrough: nat
    var lines: seq<GameLine>
    var linesDroppedThrough: nat
    /** No cursor the log was told of is above this one. */
    var latest: nat
    var closed: bool

    function Now(): Inner
      reads this
    {
      Inner(Stretch(entries, droppedThrough), Stretch(lines, linesDroppedThrough), latest, closed)
    }

    constructor ()
      ensures Now() == EMPTY
    {
      entries, droppedThrough, lines, linesDroppedThrough, latest, closed := [], 0, [], 0, 0, false;
    }

    method Push(cursor: nat, happening: Happening)
      modifies this
      ensures Now() == old(Now()).Push(cursor, happening)
    {
      entries := entries + [At(cursor, happening)];
      ghost var all := entries;
      ghost var over := 0;
      while |entries| > KEPT
        invariant over <= |all| && entries == all[over..]
        invariant over == 0 || |all| - over >= KEPT
        invariant droppedThrough == if over > 0 then all[over - 1].cursor else old(droppedThrough)
        invariant unchanged(`lines) && unchanged(`linesDroppedThrough) && unchanged(`latest) && unchanged(`closed)
        decreases |entries|
      {
        droppedThrough := entries[0].cursor;
        entries := entries[1..];
        over := over + 1;
      }
      latest := Max(latest, cursor);
    }

    method Reached(cursor: nat)
      modifies `latest
      ensures Now() == old(Now()).Reached(cursor)
    {
      latest := Max(latest, cursor);
    }

    method Forget(through: nat)
      modifies this
      ensures Now() == old(Now()).Forget(through)
    {
      entries := After(entries, through);
      droppedThrough := Max(droppedThrough, through);
      lines := After(lines, through);
      linesDroppedThrough := Max(linesDroppedThrough, through);
    }

    method Line(cursor: nat, stream: string, text: string)
      modifies this
      ensures Now() == old(Now()).Line(cursor, Words(stream, text))
    {
      lines := lines + [At(cursor, Words(stream, text))];
      ghost var all := lines;
      ghost var over := 0;
      while |lines| > KEPT_LINES
        invariant over <= |all| && lines == all[over..]
        invariant over == 0 || |all| - over >= KEPT_LINES
        invariant linesDroppedThrough == if over > 0 then all[over - 1].cursor else old(linesDroppedThrough)
        invariant unchanged(`entries) && unchanged(`droppedThrough) && unchanged(`latest) && unchanged(`closed)
        decreases |lines|
      {
        linesDroppedThrough := lines[0].cursor;
        lines := lines[1..];
        over := over + 1;
      }
      latest := Max(latest, cursor);
    }

    method Close()
      modifies `closed
      ensures Now() == old(Now()).(closed := true)
    {
      closed := true;
    }

    /** One page of what a reader at `since` wants, and where it goes on. */
    method Read(since: nat, kinds: Kinds) returns (r: Waited)
      ensures r == Now().Read(since, kinds)
    {
      var happenings := TakePage(entries, since, kinds);
      var truncated := |happenings| >= RETURNED;
      var cursor := if truncated then happenings[|happenings| - 1].cursor else Max(latest, since);
      r := Waited(happenings, cursor, since < droppedThrough, closed);
    }

    /** Takes wanted entries until the page is full and the cursor changes. */
    static method TakePage(entries: seq<Entry>, since: nat, kinds: Kinds) returns (happenings: seq<Entry>)
      ensures happenings == Page(Wanted(entries, since, kinds))
    {
      happenings := [];
      ghost var w := Wanted(entries, since, kinds);
      for i := 0 to |entries|
        invariant happenings == Wanted(entries[..i], since, kinds) <= w
        invariant PageEnd(w, |happenings|) == PageEnd(w, 0)
      {
        var entry := entries[i];
        WantedNext(entries, since, kinds, i);
        if entry.cursor > since && Asked(kinds, entry) {
          var full := |happenings| >= RETURNED && happenings[|happenings| - 1].cursor != entry.cursor;
          if full {
            return;
          }
          happenings := happenings + [entry];
        }
      }
      assert entries[..|entries|] == entries;
    }

    /** The first lines above `since`, or with none the newest. */
    method ReadLines(since: Option<nat>, until: Option<nat>, most: nat) returns (r: Lines)
      ensures r == LinesOf(Now(), since, until, most)
    {
      var most' := Clamped(most);
      var kept := LinesWithin(lines, since, until);
      var chosen :=
        if since.Some? then kept[..if most' < |kept| then most' else |kept|]
        else kept[if most' < |kept| then |kept| - most' else 0..];
      r := Lines(chosen, since.Some? && since.value < linesDroppedThrough, since.Some? && |kept| > |chosen|);
    }
  }

  function Clamped(most: nat): nat {
    if most < 1 then 1 else if most > LINES_RETURNED then LINES_RETURNED else most
  }

  function LinesOf(i: Inner, since: Option<nat>, until: Option<nat>, most: nat): Lines {
    var kept := LinesWithin(i.lines.kept, since, until);
    var n := if Clamped(most) < |kept| then Clamped(most) else |kept|;
    Lines(if since.Some? then kept[..n] else kept[|kept| - n..],
          since.Some? && since.value < i.lines.droppedThrough,
          since.Some? && |kept| > n)
  }

  lemma {:induction false} WantedJoins(a: seq<Entry>, b: seq<Entry>, since: nat, kinds: Kinds)
    ensures Wanted(a + b, since, kinds) == Wanted(a, since, kinds) + Wanted(b, since, kinds)
    decreases |b|
  {
    if b == [] {
      assert a + b == a;
    } else {
      assert (a + b)[..|a + b| - 1] == a + b[..|b| - 1];
      WantedJoins(a, b[..|b| - 1], since, kinds);
    }
  }

  lemma WantedNext(s: seq<Entry>, since: nat, kinds: Kinds, i: nat)
    requires i < |s|
    ensures Wanted(s[..i + 1], since, kinds) ==
            Wanted(s[..i], since, kinds) + (if s[i].cursor > since && Asked(kinds, s[i]) then [s[i]] else [])
    ensures Wanted(s[..i + 1], since, kinds) <= Wanted(s, since, kinds)
  {
    assert s[..i + 1][..i] == s[..i];
    assert s == s[..i + 1] + s[i + 1..];
    WantedJoins(s[..i + 1], s[i + 1..], since, kinds);
  }
}
