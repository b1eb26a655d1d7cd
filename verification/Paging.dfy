/** A reader that pages through the log, each read from the cursor the last one
    returned, while the writer goes on writing. */
module Paging {
  import opened Happenings
  import opened History
  import Cuts

  datatype Step = Write(op: Op) | Read

  /** `ahead` says of each thing ever pushed whether its cursor was above the reader's when it was pushed. */
  datatype Session = Session(told: Told, ahead: seq<bool>, since: nat, got: seq<Entry>, lagged: bool)

  function Start(t: Told, since: nat): Session {
    Session(t, seq(|t.said|, j requires 0 <= j < |t.said| => t.said[j].cursor > since), since, [], false)
  }

  function Take(s: Session, step: Step, kinds: Kinds): Session {
    match step
    case Write(op) =>
      s.(told := Tell(s.told, op), ahead := if op.Push? then s.ahead + [op.cursor > s.since] else s.ahead)
    case Read =>
      var a := s.told.inner.Read(s.since, kinds);
      s.(since := a.cursor, got := s.got + a.happenings, lagged := s.lagged || a.lagged)
  }

  function TakeAll(s: Session, steps: seq<Step>, kinds: Kinds): Session {
    if steps == [] then s else Take(TakeAll(s, steps[..|steps| - 1], kinds), steps[|steps| - 1], kinds)
  }

  /** The writer's cursors do not go back, at any step. */
  ghost predicate Orderly(s: Session, steps: seq<Step>, kinds: Kinds) {
    steps != [] ==>
      && Orderly(s, steps[..|steps| - 1], kinds)
      && (steps[|steps| - 1].Write? ==> InOrder(TakeAll(s, steps[..|steps| - 1], kinds).told, steps[|steps| - 1].op))
  }

  /** Everything ahead when pushed, of the kinds asked for, up to `since`. */
  function Delivered(said: seq<Entry>, ahead: seq<bool>, since: nat, kinds: Kinds): seq<Entry>
    requires |said| == |ahead|
  {
    if said == [] then []
    else
      var n := |said| - 1;
      Delivered(said[..n], ahead[..n], since, kinds) +
      (if ahead[n] && said[n].cursor <= since && Asked(kinds, said[n]) then [said[n]] else [])
  }

  ghost predicate StaleBelow(said: seq<Entry>, ahead: seq<bool>, since: nat) {
    |said| == |ahead| && forall j :: 0 <= j < |said| && !ahead[j] ==> said[j].cursor <= since
  }

  /** What holds at every step: nothing lost and nothing repeated of what was pushed ahead. */
  ghost predicate Exact(s: Session, kinds: Kinds) {
    && Faithful(s.told)
    && StaleBelow(s.told.said, s.ahead, s.since)
    && (!s.lagged ==> s.got == Delivered(s.told.said, s.ahead, s.since, kinds))
  }

  lemma {:induction false} DeliveredNone(said: seq<Entry>, ahead: seq<bool>, since: nat, kinds: Kinds)
    requires |said| == |ahead|
    requires forall j :: 0 <= j < |said| && ahead[j] ==> said[j].cursor > since
    ensures Delivered(said, ahead, since, kinds) == []
  {
    if said != [] {
      DeliveredNone(said[..|said| - 1], ahead[..|said| - 1], since, kinds);
    }
  }

  lemma SortedInit(s: seq<Entry>)
    requires Sorted(s) && s != []
    ensures Sorted(s[..|s| - 1]) && AllTo(s[..|s| - 1], s[|s| - 1].cursor)
  {}

  lemma BetweenLast(s: seq<Entry>, lo: nat, hi: nat, kinds: Kinds)
    requires s != []
    ensures var e := s[|s| - 1];
            Between(s, lo, hi, kinds) ==
            Between(s[..|s| - 1], lo, hi, kinds) + (if lo < e.cursor <= hi && Asked(kinds, e) then [e] else [])
  {
    var e, w := s[|s| - 1], Wanted(s[..|s| - 1], lo, kinds);
    if lo < e.cursor && Asked(kinds, e) {
      assert (w + [e])[..|w|] == w;
    } else {
      assert w + [] == w;
    }
  }

  /** Moving the reader's cursor delivers exactly what lies between. */
  lemma {:induction false} DeliveredMoves(said: seq<Entry>, ahead: seq<bool>, since: nat, next: nat, kinds: Kinds)
    requires Sorted(said) && StaleBelow(said, ahead, since) && since <= next
    ensures Delivered(said, ahead, next, kinds) == Delivered(said, ahead, since, kinds) + Between(said, since, next, kinds)
  {
    if said != [] {
      var n := |said| - 1;
      SortedInit(said);
      DeliveredMoves(said[..n], ahead[..n], since, next, kinds);
      var before, between := Delivered(said[..n], ahead[..n], since, kinds), Between(said[..n], since, next, kinds);
      BetweenLast(said, since, next, kinds);
      Cuts.Nothing(before);
      if said[n].cursor <= since {
        WantedNone(said[..n], since, kinds);
        assert between == [];
        Cuts.Nothing(Delivered(said, ahead, since, kinds));
      } else if said[n].cursor <= next && Asked(kinds, said[n]) {
        Cuts.JoinAssociates(before, between, [said[n]]);
      } else {
        Cuts.JoinAssociates(before, between, []);
      }
    }
  }

  lemma StartIsExact(t: Told, since: nat, kinds: Kinds)
    requires Faithful(t)
    ensures Exact(Start(t, since), kinds)
  {
    DeliveredNone(t.said, Start(t, since).ahead, since, kinds);
  }

  /** What is pushed now is delivered by no answer so far. */
  lemma NotYetDelivered(said: seq<Entry>, ahead: seq<bool>, since: nat, e: Entry, kinds: Kinds)
    requires StaleBelow(said, ahead, since)
    ensures StaleBelow(said + [e], ahead + [e.cursor > since], since)
    ensures Delivered(said + [e], ahead + [e.cursor > since], since, kinds) == Delivered(said, ahead, since, kinds)
  {
    Cuts.InitOfAppend(said, e);
    Cuts.InitOfAppend(ahead, e.cursor > since);
    Cuts.Nothing(Delivered(said, ahead, since, kinds));
  }

  lemma WriteStaysExact(s: Session, op: Op, kinds: Kinds)
    requires Exact(s, kinds) && InOrder(s.told, op)
    ensures Exact(Take(s, Write(op), kinds), kinds)
  {
    TellKeeps(s.told, op);
    if op.Push? {
      NotYetDelivered(s.told.said, s.ahead, s.since, At(op.cursor, op.happening), kinds);
    }
  }

  lemma ReadStaysExact(s: Session, kinds: Kinds)
    requires Exact(s, kinds)
    ensures Exact(Take(s, Read, kinds), kinds)
    ensures s.since <= Take(s, Read, kinds).since
  {
    var t := s.told;
    var a := t.inner.Read(s.since, kinds);
    ReadIsAStretch(t, s.since, kinds);
    if !a.lagged {
      NotLaggedNothingLost(t, s.since, kinds);
    }
    DeliveredMoves(t.said, s.ahead, s.since, a.cursor, kinds);
  }

  /** Over every run of writes and reads, while no answer says `lagged`: what the
      reader got is, in order and each once, exactly the happenings of its kinds whose
      cursor was above the reader's when they were pushed, up to the reader's cursor
      now. One pushed at or below the reader's cursor is never delivered. */
  lemma {:induction false} ExactlyOnce(t: Told, since: nat, steps: seq<Step>, kinds: Kinds)
    requires Faithful(t) && Orderly(Start(t, since), steps, kinds)
    ensures Exact(TakeAll(Start(t, since), steps, kinds), kinds)
    ensures since <= TakeAll(Start(t, since), steps, kinds).since
  {
    if steps == [] {
      StartIsExact(t, since, kinds);
    } else {
      ExactlyOnce(t, since, steps[..|steps| - 1], kinds);
      var before := TakeAll(Start(t, since), steps[..|steps| - 1], kinds);
      match steps[|steps| - 1]
      case Write(op) => WriteStaysExact(before, op, kinds);
      case Read => ReadStaysExact(before, kinds);
    }
  }

  /** Every push's cursor is above the reader's at that moment. */
  ghost predicate WritesAhead(s: Session, steps: seq<Step>, kinds: Kinds) {
    steps != [] ==>
      var before := TakeAll(s, steps[..|steps| - 1], kinds);
      var last := steps[|steps| - 1];
      && WritesAhead(s, steps[..|steps| - 1], kinds)
      && (last.Write? && last.op.Push? ==> before.since < last.op.cursor)
  }

  ghost predicate FreshAbove(said: seq<Entry>, ahead: seq<bool>, since: nat) {
    |said| == |ahead| && forall j :: 0 <= j < |said| ==> ahead[j] == (said[j].cursor > since)
  }

  lemma {:induction false} DeliveredIsBetween(said: seq<Entry>, ahead: seq<bool>, start: nat, since: nat, kinds: Kinds)
    requires FreshAbove(said, ahead, start)
    ensures Delivered(said, ahead, since, kinds) == Between(said, start, since, kinds)
  {
    if said != [] {
      var n := |said| - 1;
      DeliveredIsBetween(said[..n], ahead[..n], start, since, kinds);
      BetweenLast(said, start, since, kinds);
    }
  }

  lemma {:induction false} AheadIsFresh(t: Told, since: nat, steps: seq<Step>, kinds: Kinds)
    requires Faithful(t) && Orderly(Start(t, since), steps, kinds)
    requires WritesAhead(Start(t, since), steps, kinds)
    ensures FreshAbove(TakeAll(Start(t, since), steps, kinds).told.said, TakeAll(Start(t, since), steps, kinds).ahead, since)
  {
    if steps != [] {
      AheadIsFresh(t, since, steps[..|steps| - 1], kinds);
      ExactlyOnce(t, since, steps[..|steps| - 1], kinds);
    }
  }

  /** A writer that always writes above the reader's cursor is read whole: every
      happening of the kinds asked for, after the first `since` and up to the reader's
      cursor, once and in order; all of them after an answer that was not full. */
  lemma PagingLosesNothing(t: Told, since: nat, steps: seq<Step>, kinds: Kinds)
    requires Faithful(t) && Orderly(Start(t, since), steps, kinds)
    requires WritesAhead(Start(t, since), steps, kinds)
    requires !TakeAll(Start(t, since), steps, kinds).lagged
    ensures var s := TakeAll(Start(t, since), steps, kinds);
            && s.got == Between(s.told.said, since, s.since, kinds)
            && (s.told.inner.latest <= s.since ==> s.got == Wanted(s.told.said, since, kinds))
  {
    var s := TakeAll(Start(t, since), steps, kinds);
    ExactlyOnce(t, since, steps, kinds);
    AheadIsFresh(t, since, steps, kinds);
    DeliveredIsBetween(s.told.said, s.ahead, since, s.since, kinds);
    if s.told.inner.latest <= s.since {
      WantedWithin(s.told.said, since, kinds, s.told.inner.latest);
      UpToAll(Wanted(s.told.said, since, kinds), s.since);
    }
  }

  // ----------------------------------------------------------- a quiet log ends

  lemma {:induction false} WantedSplits(s: seq<Entry>, lo: nat, hi: nat, kinds: Kinds)
    requires Sorted(s) && lo <= hi
    ensures Wanted(s, lo, kinds) == Between(s, lo, hi, kinds) + Wanted(s, hi, kinds)
  {
    if s != [] {
      var n := |s| - 1;
      SortedInit(s);
      WantedSplits(s[..n], lo, hi, kinds);
      var between, rest := Between(s[..n], lo, hi, kinds), Wanted(s[..n], hi, kinds);
      BetweenLast(s, lo, hi, kinds);
      Cuts.Nothing(between);
      Cuts.Nothing(rest);
      if s[n].cursor <= hi {
        WantedNone(s[..n], hi, kinds);
        Cuts.Nothing(Between(s, lo, hi, kinds));
      } else {
        Cuts.JoinAssociates(between, rest, if Asked(kinds, s[n]) then [s[n]] else []);
      }
    }
  }

  lemma PageLeavesTheRest(t: Told, since: nat, kinds: Kinds)
    requires Faithful(t)
    ensures var a := t.inner.Read(since, kinds);
            Wanted(t.inner.entries.kept, since, kinds) == a.happenings + Wanted(t.inner.entries.kept, a.cursor, kinds)
  {
    ReadIsAStretch(t, since, kinds);
    NewestIsSorted(t.inner.entries.kept, t.said, t.inner.entries.droppedThrough);
    WantedSplits(t.inner.entries.kept, since, t.inner.Read(since, kinds).cursor, kinds);
  }

  /** Every page of a log nobody writes to, joined. Each full one leaves at least `RETURNED` fewer. */
  function Drained(t: Told, since: nat, kinds: Kinds): (r: seq<Entry>)
    requires Faithful(t)
    ensures r == Wanted(t.inner.entries.kept, since, kinds)
    decreases |Wanted(t.inner.entries.kept, since, kinds)|
  {
    var a := t.inner.Read(since, kinds);
    PageLeavesTheRest(t, since, kinds);
    ReadIsAStretch(t, since, kinds);
    if |a.happenings| < RETURNED then a.happenings else a.happenings + Drained(t, a.cursor, kinds)
  }
}
