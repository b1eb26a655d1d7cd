/** Runs of the happenings log: what it still answers of everything it was ever told,
    and what a reader paging through it while it is written gets. */
module History {
  import opened Happenings
  import Cuts
  import opened Options

  // ------------------------------------------------------------ a writer's run

  datatype Op =
    | Push(cursor: nat, happening: Happening)
    | Line(cursor: nat, words: Words)
    | Reached(cursor: nat)
    | Forget(through: nat)
    | Close

  function Apply(i: Inner, op: Op): Inner {
    match op
    case Push(cursor, happening) => i.Push(cursor, happening)
    case Line(cursor, words) => i.Line(cursor, words)
    case Reached(cursor) => i.Reached(cursor)
    case Forget(through) => i.Forget(through)
    case Close => i.(closed := true)
  }

  /** A log, with all it was ever told and the writer's clock: the highest cursor it wrote at or forgot to. */
  datatype Told = Told(inner: Inner, said: seq<Entry>, spoken: seq<GameLine>, clock: nat)

  const NOTHING_TOLD := Told(EMPTY, [], [], 0)

  /** The writer's cursors do not go back. */
  ghost predicate InOrder(t: Told, op: Op) {
    op.Push? || op.Line? ==> t.clock <= op.cursor
  }

  function Tell(t: Told, op: Op): Told {
    Told(Apply(t.inner, op),
         if op.Push? then t.said + [At(op.cursor, op.happening)] else t.said,
         if op.Line? then t.spoken + [At(op.cursor, op.words)] else t.spoken,
         match op
         case Push(cursor, _) => cursor
         case Line(cursor, _) => cursor
         case Forget(through) => Max(t.clock, through)
         case _ => t.clock)
  }

  function TellAll(t: Told, ops: seq<Op>): Told {
    if ops == [] then t else Tell(TellAll(t, ops[..|ops| - 1]), ops[|ops| - 1])
  }

  ghost predicate AllInOrder(t: Told, ops: seq<Op>) {
    ops != [] ==>
      && AllInOrder(t, ops[..|ops| - 1])
      && InOrder(TellAll(t, ops[..|ops| - 1]), ops[|ops| - 1])
  }

  ghost predicate Sorted<T>(s: seq<At<T>>) {
    forall i, j :: 0 <= i < j < |s| ==> s[i].cursor <= s[j].cursor
  }

  /** `kept` are the newest of `all`, and every one missing is at or below `dropped`. */
  ghost predicate NewestOf<T>(kept: seq<At<T>>, all: seq<At<T>>, dropped: nat) {
    && |kept| <= |all|
    && kept == all[|all| - |kept|..]
    && forall j :: 0 <= j < |all| - |kept| ==> all[j].cursor <= dropped
  }

  ghost predicate AllFrom<T>(s: seq<At<T>>, lo: nat) {
    forall i :: 0 <= i < |s| ==> lo <= s[i].cursor
  }

  ghost predicate AllTo<T>(s: seq<At<T>>, hi: nat) {
    forall i :: 0 <= i < |s| ==> s[i].cursor <= hi
  }

  /** What a stretch keeps of all that was ever added to it. */
  ghost predicate Remembers<T>(s: Stretch<T>, all: seq<At<T>>, bound: nat, clock: nat) {
    && Sorted(all) && |s.kept| <= bound
    && NewestOf(s.kept, all, s.droppedThrough)
    && AllFrom(s.kept, s.droppedThrough)
    && AllTo(all, clock)
    && s.droppedThrough <= clock
  }

  /** What every run of an in-order writer keeps. */
  ghost predicate Faithful(t: Told) {
    && Remembers(t.inner.entries, t.said, KEPT, t.clock)
    && Remembers(t.inner.lines, t.spoken, KEPT_LINES, t.clock)
    && AllTo(t.said, t.inner.latest) && AllTo(t.spoken, t.inner.latest)
  }

  lemma {:induction false} AfterNone<T>(s: seq<At<T>>, through: nat)
    requires AllTo(s, through)
    ensures After(s, through) == []
  {
    if s != [] {
      AfterNone(s[..|s| - 1], through);
    }
  }

  lemma NewestGrows<T>(kept: seq<At<T>>, all: seq<At<T>>, dropped: nat)
    requires all != [] && NewestOf(kept, all[..|all| - 1], dropped)
    ensures NewestOf(kept + [all[|all| - 1]], all, dropped)
  {
    var init := all[..|all| - 1];
    assert forall j :: 0 <= j < |init| ==> init[j] == all[j];
  }

  lemma NoneIsNewest<T>(s: seq<At<T>>, through: nat)
    requires AllTo(s, through)
    ensures NewestOf([], s, through) && After(s, through) == []
  {
    AfterNone(s, through);
    assert s[|s|..] == [];
  }

  lemma LastAfter<T>(init: seq<At<T>>, last: At<T>, through: nat)
    requires last.cursor > through
    ensures After(init + [last], through) == After(init, through) + [last]
  {
    assert (init + [last])[..|init|] == init;
  }

  lemma {:induction false} AfterIsNewest<T>(s: seq<At<T>>, through: nat)
    requires Sorted(s)
    ensures NewestOf(After(s, through), s, through)
    ensures AllFrom(After(s, through), through + 1)
  {
    if s != [] && s[|s| - 1].cursor > through {
      var init, last := s[..|s| - 1], s[|s| - 1];
      AfterIsNewest(init, through);
      NewestGrows(After(init, through), s, through);
      assert init + [last] == s;
      LastAfter(init, last, through);
    } else {
      NoneIsNewest(s, through);
    }
  }

  lemma AddStaysNewest<T>(s: Stretch<T>, all: seq<At<T>>, bound: nat, it: At<T>)
    requires Sorted(all + [it]) && |s.kept| <= bound
    requires NewestOf(s.kept, all, s.droppedThrough)
    ensures NewestOf(s.Add(bound, it).kept, all + [it], s.Add(bound, it).droppedThrough)
  {
    var next, more := s.kept + [it], all + [it];
    assert next == more[|more| - |next|..];
    if |next| > bound {
      assert next[0] == more[|more| - |next|];
      assert s.Add(bound, it).kept == next[1..];
    }
  }

  lemma AddStaysFrom<T>(s: Stretch<T>, bound: nat, it: At<T>)
    requires |s.kept| <= bound && Sorted(s.kept) && AllFrom(s.kept, s.droppedThrough)
    requires AllTo(s.kept, it.cursor) && s.droppedThrough <= it.cursor
    ensures var r := s.Add(bound, it);
            |r.kept| <= bound && AllFrom(r.kept, r.droppedThrough) && s.droppedThrough <= r.droppedThrough <= it.cursor
  {
    var next := s.kept + [it];
    if |next| > bound {
      assert s.Add(bound, it) == Stretch(next[1..], next[0].cursor);
    } else {
      assert s.Add(bound, it) == Stretch(next, s.droppedThrough);
    }
  }

  lemma AddRemembers<T>(s: Stretch<T>, all: seq<At<T>>, bound: nat, clock: nat, it: At<T>)
    requires Remembers(s, all, bound, clock) && clock <= it.cursor
    ensures Remembers(s.Add(bound, it), all + [it], bound, it.cursor)
    ensures s.droppedThrough <= s.Add(bound, it).droppedThrough
  {
    assert Sorted(all + [it]);
    AddStaysNewest(s, all, bound, it);
    NewestIsSorted(s.kept, all, s.droppedThrough);
    assert AllTo(s.kept, clock);
    AddStaysFrom(s, bound, it);
  }

  lemma NewestOfNewest<T>(a: seq<At<T>>, b: seq<At<T>>, c: seq<At<T>>, d: nat, e: nat)
    requires NewestOf(a, b, d) && NewestOf(b, c, e)
    ensures NewestOf(a, c, Max(d, e))
  {
    var cut := |c| - |b|;
    assert forall i :: 0 <= i < |b| ==> b[i] == c[cut + i];
    forall j | 0 <= j < |c| - |a|
      ensures c[j].cursor <= Max(d, e)
    {
      if j >= cut {
        assert c[j] == b[j - cut];
      }
    }
  }

  lemma NewestIsSorted<T>(kept: seq<At<T>>, all: seq<At<T>>, dropped: nat)
    requires NewestOf(kept, all, dropped) && Sorted(all)
    ensures Sorted(kept)
    ensures forall hi :: AllTo(all, hi) ==> AllTo(kept, hi)
    ensures forall lo :: AllFrom(all, lo) ==> AllFrom(kept, lo)
  {
    var cut := |all| - |kept|;
    assert forall i :: 0 <= i < |kept| ==> kept[i] == all[cut + i];
  }

  lemma ForgetRemembers<T>(s: Stretch<T>, all: seq<At<T>>, bound: nat, clock: nat, through: nat)
    requires Remembers(s, all, bound, clock)
    ensures Remembers(s.Forget(through), all, bound, Max(clock, through))
    ensures s.droppedThrough <= s.Forget(through).droppedThrough
  {
    var left := After(s.kept, through);
    NewestIsSorted(s.kept, all, s.droppedThrough);
    AfterIsNewest(s.kept, through);
    NewestIsSorted(left, s.kept, through);
    NewestOfNewest(left, s.kept, all, through, s.droppedThrough);
  }

  /** One operation keeps the log faithful, and what it has dropped through never falls. */
  lemma TellKeeps(t: Told, op: Op)
    requires Faithful(t) && InOrder(t, op)
    ensures Faithful(Tell(t, op))
    ensures t.inner.entries.droppedThrough <= Tell(t, op).inner.entries.droppedThrough
    ensures t.inner.lines.droppedThrough <= Tell(t, op).inner.lines.droppedThrough
  {
    match op
    case Push(cursor, happening) =>
      AddRemembers(t.inner.entries, t.said, KEPT, t.clock, At(cursor, happening));
    case Line(cursor, words) =>
      AddRemembers(t.inner.lines, t.spoken, KEPT_LINES, t.clock, At(cursor, words));
    case Forget(through) =>
      ForgetRemembers(t.inner.entries, t.said, KEPT, t.clock, through);
      ForgetRemembers(t.inner.lines, t.spoken, KEPT_LINES, t.clock, through);
    case Reached(_) =>
    case Close =>
  }

  /** Every log an in-order writer can make, from an empty one. */
  lemma {:induction false} RunKeeps(ops: seq<Op>)
    requires AllInOrder(NOTHING_TOLD, ops)
    ensures Faithful(TellAll(NOTHING_TOLD, ops))
  {
    if ops != [] {
      RunKeeps(ops[..|ops| - 1]);
      TellKeeps(TellAll(NOTHING_TOLD, ops[..|ops| - 1]), ops[|ops| - 1]);
    }
  }

  /** A push that drops lets what was dropped through fall exactly when what it drops
      is below it: a writer that goes back behind its own `Forget`. */
  lemma DroppedFallsWhen(i: Inner, cursor: nat, happening: Happening)
    requires |i.entries.kept| <= KEPT
    ensures i.Push(cursor, happening).entries.droppedThrough < i.entries.droppedThrough <==>
            |i.entries.kept| == KEPT && i.entries.kept[0].cursor < i.entries.droppedThrough
  {
    var all := i.entries.kept + [At(cursor, happening)];
    assert |all| > KEPT ==> all[0] == i.entries.kept[0];
  }

  // --------------------------------------------------- what a reader is answered

  lemma {:induction false} WantedNone(s: seq<Entry>, since: nat, kinds: Kinds)
    requires AllTo(s, since)
    ensures Wanted(s, since, kinds) == []
  {
    if s != [] {
      WantedNone(s[..|s| - 1], since, kinds);
    }
  }

  /** Not `lagged` means nothing was lost: the log answers for all it was ever told. */
  lemma NotLaggedNothingLost(t: Told, since: nat, kinds: Kinds)
    requires Faithful(t) && !t.inner.Read(since, kinds).lagged
    ensures Wanted(t.inner.entries.kept, since, kinds) == Wanted(t.said, since, kinds)
  {
    var cut := |t.said| - |t.inner.entries.kept|;
    assert t.said == t.said[..cut] + t.said[cut..];
    WantedJoins(t.said[..cut], t.said[cut..], since, kinds);
    WantedNone(t.said[..cut], since, kinds);
  }

  function UpTo(s: seq<Entry>, hi: nat): seq<Entry> {
    if s == [] then []
    else UpTo(s[..|s| - 1], hi) + (if s[|s| - 1].cursor <= hi then [s[|s| - 1]] else [])
  }

  /** Those of `s` after `lo` and up to `hi`, of the kinds asked for. */
  function Between(s: seq<Entry>, lo: nat, hi: nat, kinds: Kinds): seq<Entry> {
    UpTo(Wanted(s, lo, kinds), hi)
  }

  lemma {:induction false} UpToAll(s: seq<Entry>, hi: nat)
    requires AllTo(s, hi)
    ensures UpTo(s, hi) == s
  {
    if s != [] {
      UpToAll(s[..|s| - 1], hi);
      Cuts.InitAndLast(s);
    }
  }

  lemma {:induction false} UpToFirst(s: seq<Entry>, hi: nat, n: nat)
    requires n <= |s|
    requires forall i :: 0 <= i < n ==> s[i].cursor <= hi
    requires forall i :: n <= i < |s| ==> s[i].cursor > hi
    ensures UpTo(s, hi) == s[..n]
  {
    if n == |s| {
      assert s[..n] == s;
      UpToAll(s, hi);
    } else {
      UpToFirst(s[..|s| - 1], hi, n);
      assert s[..|s| - 1][..n] == s[..n];
    }
  }

  lemma {:induction false} WantedWithin(s: seq<Entry>, since: nat, kinds: Kinds, hi: nat)
    requires Sorted(s) && AllTo(s, hi)
    ensures Sorted(Wanted(s, since, kinds))
    ensures AllFrom(Wanted(s, since, kinds), since + 1)
    ensures AllTo(Wanted(s, since, kinds), hi)
  {
    if s != [] {
      WantedWithin(s[..|s| - 1], since, kinds, s[|s| - 1].cursor);
    }
  }

  /** A page that was cut short ends where a cursor's happenings end. */
  lemma {:induction false} PageEndIsACut(w: seq<Entry>, n: nat)
    requires n <= |w|
    ensures var r := PageEnd(w, n);
            r < |w| ==> r >= RETURNED && w[r - 1].cursor != w[r].cursor
    decreases |w| - n
  {
    if !(n == |w| || (n >= RETURNED && w[n - 1].cursor != w[n].cursor)) {
      PageEndIsACut(w, n + 1);
    }
  }

  lemma PageIsUpToItsEnd(w: seq<Entry>, since: nat, latest: nat)
    requires Sorted(w) && AllFrom(w, since + 1) && AllTo(w, latest)
    ensures |Page(w)| >= RETURNED ==> Page(w) == UpTo(w, Page(w)[|Page(w)| - 1].cursor) && since < Page(w)[|Page(w)| - 1].cursor
    ensures |Page(w)| < RETURNED ==> Page(w) == w == UpTo(w, Max(latest, since))
  {
    var n := PageEnd(w, 0);
    PageEndIsACut(w, 0);
    if n >= RETURNED {
      UpToFirst(w, w[n - 1].cursor, n);
    } else {
      UpToAll(w, Max(latest, since));
    }
  }

  /** One answer is exactly what is wanted after `since` and up to the cursor it
      returns; a full one moves on, a short one holds all there is. */
  lemma ReadIsAStretch(t: Told, since: nat, kinds: Kinds)
    requires Faithful(t)
    ensures var a := t.inner.Read(since, kinds);
            && a.happenings == Between(t.inner.entries.kept, since, a.cursor, kinds)
            && since <= a.cursor
            && (|a.happenings| >= RETURNED ==> since < a.cursor)
            && (|a.happenings| < RETURNED ==> a.happenings == Wanted(t.inner.entries.kept, since, kinds) && t.inner.latest <= a.cursor)
  {
    var s := t.inner.entries.kept;
    NewestIsSorted(s, t.said, t.inner.entries.droppedThrough);
    WantedWithin(s, since, kinds, t.inner.latest);
    PageIsUpToItsEnd(Wanted(s, since, kinds), since, t.inner.latest);
  }

  // ------------------------------------------------------------ the game's lines

  lemma {:induction false} LinesWithinJoins(a: seq<GameLine>, b: seq<GameLine>, since: Option<nat>, until: Option<nat>)
    ensures LinesWithin(a + b, since, until) == LinesWithin(a, since, until) + LinesWithin(b, since, until)
    decreases |b|
  {
    if b == [] {
      assert a + b == a;
    } else {
      assert (a + b)[..|a + b| - 1] == a + b[..|b| - 1];
      LinesWithinJoins(a, b[..|b| - 1], since, until);
    }
  }

  lemma {:induction false} LinesWithinNone(s: seq<GameLine>, since: nat, until: Option<nat>)
    requires AllTo(s, since)
    ensures LinesWithin(s, Some(since), until) == []
  {
    if s != [] {
      LinesWithinNone(s[..|s| - 1], since, until);
    }
  }

  /** Not `lagged` means no line was lost: the answer is the first lines of all ever
      spoken in the window, and `more` says whether any are left. */
  lemma LinesNotLagged(t: Told, since: nat, until: Option<nat>, most: nat)
    requires Faithful(t) && !LinesOf(t.inner, Some(since), until, most).lagged
    ensures var a := LinesOf(t.inner, Some(since), until, most);
            var all := LinesWithin(t.spoken, Some(since), until);
            && a.lines <= all
            && (a.more <==> |a.lines| < |all|)
            && (|a.lines| == Clamped(most) || a.lines == all)
  {
    var cut := |t.spoken| - |t.inner.lines.kept|;
    assert t.spoken == t.spoken[..cut] + t.spoken[cut..];
    LinesWithinJoins(t.spoken[..cut], t.spoken[cut..], Some(since), until);
    LinesWithinNone(t.spoken[..cut], since, until);
  }

  /** With no cursor to read from, the answer is the last lines ever spoken in the window: as
      many as asked for, or all that are kept; and it promises nothing about more. */
  lemma LinesNewest(t: Told, until: Option<nat>, most: nat)
    requires Faithful(t)
    ensures var a := LinesOf(t.inner, None, until, most);
            var all := LinesWithin(t.spoken, None, until);
            && !a.lagged && !a.more
            && |a.lines| <= |all| && a.lines == all[|all| - |a.lines|..]
            && (|a.lines| == Clamped(most) || a.lines == LinesWithin(t.inner.lines.kept, None, until))
  {
    var cut := |t.spoken| - |t.inner.lines.kept|;
    Cuts.TwoParts(t.spoken, cut);
    LinesWithinJoins(t.spoken[..cut], t.spoken[cut..], None, until);
    var front, kept := LinesWithin(t.spoken[..cut], None, until), LinesWithin(t.inner.lines.kept, None, until);
    var n := |LinesOf(t.inner, None, until, most).lines|;
    assert (front + kept)[|front + kept| - n..] == kept[|kept| - n..];
  }

  lemma {:induction false} LinesWithinLater(s: seq<GameLine>, lo: nat, hi: nat, until: Option<nat>)
    requires lo <= hi
    ensures LinesWithin(s, Some(hi), until) == After(LinesWithin(s, Some(lo), until), hi)
  {
    if s != [] {
      LinesWithinLater(s[..|s| - 1], lo, hi, until);
      var w := LinesWithin(s[..|s| - 1], Some(lo), until);
      if s[|s| - 1].cursor > lo && (until.None? || s[|s| - 1].cursor <= until.value) {
        Cuts.InitOfAppend(w, s[|s| - 1]);
      } else {
        Cuts.Nothing(w);
      }
    }
  }

  lemma {:induction false} LinesWithinSorted(s: seq<GameLine>, since: Option<nat>, until: Option<nat>, hi: nat)
    requires Sorted(s) && AllTo(s, hi)
    ensures Sorted(LinesWithin(s, since, until)) && AllTo(LinesWithin(s, since, until), hi)
    ensures since.Some? ==> AllFrom(LinesWithin(s, since, until), since.value + 1)
  {
    if s != [] {
      var init, last := s[..|s| - 1], s[|s| - 1];
      assert Sorted(init) && AllTo(init, last.cursor);
      LinesWithinSorted(init, since, until, last.cursor);
      var w := LinesWithin(init, since, until);
      assert LinesWithin(s, since, until) == w || LinesWithin(s, since, until) == w + [last];
    }
  }

  lemma {:induction false} AfterThem<T>(s: seq<At<T>>, n: nat, through: nat)
    requires Sorted(s) && n < |s| && AllTo(s[..n], through) && s[n].cursor > through
    ensures After(s, through) == s[n..]
  {
    var init, last := s[..|s| - 1], s[|s| - 1];
    if n == |init| {
      AfterNone(init, through);
    } else {
      assert init[..n] == s[..n];
      AfterThem(init, n, through);
      assert s[n..] == init[n..] + [last];
    }
  }

  lemma AfterFirst<T>(s: seq<At<T>>, n: nat, through: nat)
    requires Sorted(s) && n <= |s|
    requires AllTo(s[..n], through)
    ensures After(s, through) == s[n..] <==> n == |s| || s[n].cursor > through
  {
    if n == |s| {
      assert s[..n] == s;
      AfterNone(s, through);
    } else if s[n].cursor > through {
      AfterThem(s, n, through);
    } else {
      AfterIsNewest(s, through);
      assert s[n..][0] == s[n];
    }
  }

  /** Reading on from the last line returned, as `more` asks, skips nothing exactly
      when the next line has another cursor: unlike happenings, a page of lines may
      stop inside one cursor. */
  lemma LinesResumeWhen(t: Told, since: nat, until: Option<nat>, n: nat)
    requires Faithful(t)
    requires 0 < n <= |LinesWithin(t.spoken, Some(since), until)|
    ensures var all := LinesWithin(t.spoken, Some(since), until);
            LinesWithin(t.spoken, Some(all[n - 1].cursor), until) == all[n..] <==>
            n == |all| || all[n].cursor != all[n - 1].cursor
  {
    var all := LinesWithin(t.spoken, Some(since), until);
    var last := all[n - 1].cursor;
    LinesWithinSorted(t.spoken, Some(since), until, t.clock);
    LinesWithinLater(t.spoken, since, last, until);
    AfterFirst(all, n, last);
  }
}
