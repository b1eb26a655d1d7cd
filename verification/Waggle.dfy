/** Spelling up several people: which spell is cast next on whom, how often, and who is done. */
module Waggle {
  import opened Options
  import opened Cuts

  type Spell = nat

  datatype Span = Stackable | Refreshable

  datatype Pass = Stacking | Refreshing | Solid {
    /** Passes left for the target, this one included. */
    function Left(): (n: nat) {
      match this case Stacking => 3 case Refreshing => 2 case Solid => 1
    }
  }

  const SHORT: real := 3.0
  const MOST_MINUTES: real := 250.0

  /** What is known at a moment of spells and of the caster; `me` tells which names are the
      caster's. */
  datatype Lore = Lore(
    listed: Spell -> bool,
    known: Spell -> bool,
    forAll: Spell -> bool,
    minutes: (Spell, bool) -> Option<real>,
    span: (Spell, bool) -> Option<Span>,
    multicastable: (Spell, bool) -> bool,
    control: nat -> nat,
    powerless: Spell -> bool,
    me: string -> bool)
  {
    /** The multicast ceiling for a circle: its mana control over 25, plus one. */
    function Ceiling(circle: nat): (n: nat)
      ensures n >= 1
    {
      control(circle) / 25 + 1
    }
  }

  datatype Profile = Profile(
    castList: seq<Spell>,
    startAt: real,
    stopAt: real,
    refreshableMin: real,
    multicast: bool,
    reserveMana: nat,
    bail: bool,
    skipNotSharing: bool)

  type Minutes = map<Spell, real>

  /** One of the people: the minutes of each spell on them, and whether they show them. */
  datatype Target = Target(name: string, have: Minutes, sharing: bool)

  function LeftOf(have: Minutes, spell: Spell): (m: real) {
    if spell in have then have[spell] else 0.0
  }

  // ------------------------------------------------------ how many to cast

  function Ceil(x: real): (n: int)
    ensures n as real - 1.0 < x <= n as real
  {
    -((-x).Floor)
  }

  /** The least count up to `most` that is no less than `need`, as the source searches for it. */
  function Search(need: int, most: nat, n: nat): (count: nat)
    requires 1 <= n <= most + 1
    decreases most + 1 - n
  {
    if n == most + 1 then 1
    else if n >= need then n
    else Search(need, most, n + 1)
  }

  function Count(need: int, most: nat): (count: nat)
    requires most >= 1
  {
    if need >= most then most else Search(need, most, 1)
  }

  lemma {:induction false} SearchFinds(need: int, most: nat, n: nat)
    requires 1 <= n <= most && n <= need <= most
    ensures Search(need, most, n) == need
    decreases most + 1 - n
  {
    if n < need {
      SearchFinds(need, most, n + 1);
    }
  }

  /** The count is the lesser of the ceiling and the casts needed. */
  lemma CountIsTheLesser(need: int, most: nat)
    requires most >= 1 && need >= 1
    ensures Count(need, most) == if need <= most then need else most
  {
    if need < most {
      SearchFinds(need, most, 1);
    }
  }

  /** The spell may be put on this target at all. */
  predicate MayCast(lore: Lore, skip: set<Spell>, t: Target, spell: Spell) {
    var mine := lore.me(t.name);
    && spell !in skip && lore.listed(spell) && lore.known(spell)
    && (mine || lore.forAll(spell))
    && lore.minutes(spell, mine).Some? && lore.minutes(spell, mine).value > SHORT
    && !(mine && spell / 100 == 10 && spell in t.have)
  }

  /** How far short of the stop the spell is, in casts. */
  function Needed(lore: Lore, p: Profile, t: Target, spell: Spell): (n: int)
    requires lore.minutes(spell, lore.me(t.name)).Some? && lore.minutes(spell, lore.me(t.name)).value > 0.0
  {
    Ceil((p.stopAt - LeftOf(t.have, spell)) / lore.minutes(spell, lore.me(t.name)).value)
  }

  /** The most that may be cast at once on this target. */
  function Most(lore: Lore, p: Profile, t: Target, spell: Spell): (n: nat)
    ensures n >= 1
  {
    var mine := lore.me(t.name);
    if p.multicast && lore.multicastable(spell, mine) && (t.sharing || mine) then lore.Ceiling(spell / 100) else 1
  }

  /** How many of a spell this pass casts on the target; none for none. */
  function Wants(lore: Lore, p: Profile, pass: Pass, skip: set<Spell>, t: Target, spell: Spell): (n: Option<nat>) {
    if !MayCast(lore, skip, t, spell) then None
    else
      var span, left := lore.span(spell, lore.me(t.name)), LeftOf(t.have, spell);
      match pass
      case Stacking =>
        if span != Some(Stackable) || left > p.startAt || left >= p.stopAt then None
        else
          var count := Count(Needed(lore, p, t, spell), Most(lore, p, t, spell));
          if count > 0 && (t.sharing || left == 0.0) then Some(count) else None
      case Refreshing =>
        if span == Some(Refreshable) && left <= p.refreshableMin then Some(1) else None
      case Solid =>
        if span.None? && left == 0.0 then Some(1) else None
  }

  lemma Scaled(a: real, b: real, c: real)
    requires a < b && c > 0.0
    ensures a * c < b * c
  {
    assert (b - a) * c > 0.0;
  }

  /** No more casts than are needed overshoot the stop by less than one cast. */
  lemma NoOvershoot(gap: real, minutes: real, n: int)
    requires gap > 0.0 && minutes > 0.0 && n <= Ceil(gap / minutes)
    ensures Ceil(gap / minutes) >= 1 && n as real * minutes < gap + minutes
  {
    var q := gap / minutes;
    assert q * minutes == gap;
    Scaled(n as real, q + 1.0, minutes);
  }

  /** Stacking: as many as are needed to reach the stop or as may be cast at once, whichever
      is less, and never so many that one fewer would have reached it. */
  lemma StackingCount(lore: Lore, p: Profile, skip: set<Spell>, t: Target, spell: Spell)
    requires Wants(lore, p, Stacking, skip, t, spell).Some?
    ensures var n, need, most := Wants(lore, p, Stacking, skip, t, spell).value, Needed(lore, p, t, spell), Most(lore, p, t, spell);
            n == (if need <= most then need else most) && n >= 1
    ensures var n, m := Wants(lore, p, Stacking, skip, t, spell).value, lore.minutes(spell, lore.me(t.name)).value;
            LeftOf(t.have, spell) + n as real * m < p.stopAt + m
  {
    var m := lore.minutes(spell, lore.me(t.name)).value;
    var gap, need := p.stopAt - LeftOf(t.have, spell), Needed(lore, p, t, spell);
    NoOvershoot(gap, m, need);
    CountIsTheLesser(need, Most(lore, p, t, spell));
    NoOvershoot(gap, m, Wants(lore, p, Stacking, skip, t, spell).value);
  }

  // ------------------------------------------------------ how far a cast may go

  /** What a cast was chosen by: its pass, and the minutes one cast of it was known to give. */
  datatype Choice = Choice(pass: Pass, minutes: real)

  /** How many minutes a spell may have after a cast so chosen. */
  predicate Within(p: Profile, c: Choice, left: real) {
    match c.pass
    case Stacking => left < p.stopAt + c.minutes
    case Refreshing => left <= p.refreshableMin + c.minutes
    case Solid => left <= c.minutes
  }

  /** A spell has what the target first had of it, or what the last choice of it allows. */
  ghost predicate NotOver(p: Profile, first: Minutes, chosen: map<Spell, Choice>, t: Target, spell: Spell)
    requires spell in t.have
  {
    || (spell in first && t.have[spell] == first[spell])
    || (spell in chosen && Within(p, chosen[spell], t.have[spell]))
  }

  ghost predicate NoneOver(p: Profile, first: Minutes, chosen: map<Spell, Choice>, t: Target) {
    forall spell {:trigger NotOver(p, first, chosen, t, spell)} :: spell in t.have ==> NotOver(p, first, chosen, t, spell)
  }

  /** The minutes one cast is known to give; none counts for nothing. */
  function MinutesOf(lore: Lore, t: Target, spell: Spell): (m: real) {
    match lore.minutes(spell, lore.me(t.name)) case None => 0.0 case Some(m) => m
  }

  /** The minutes of so many casts. */
  function Times(n: nat, m: real): (minutes: real) {
    n as real * m
  }

  /** The target after a cast, its minutes counted in. */
  function AfterCast(lore: Lore, t: Target, spell: Spell, count: nat): (r: Target) {
    t.(have := t.have[spell := LeftOf(t.have, spell) + Times(count, MinutesOf(lore, t, spell))])
  }

  lemma NoMore(n: nat, a: real, b: real)
    requires a <= b
    ensures Times(n, a) <= Times(n, b)
  {
    assert n as real * (b - a) >= 0.0;
  }

  lemma StackingStays(lore: Lore, p: Profile, skip: set<Spell>, t: Target, spell: Spell)
    requires Wants(lore, p, Stacking, skip, t, spell).Some?
    ensures var n, m := Wants(lore, p, Stacking, skip, t, spell).value, MinutesOf(lore, t, spell);
            n >= 1 && LeftOf(t.have, spell) + Times(n, m) < p.stopAt + m
  {
    StackingCount(lore, p, skip, t, spell);
    var m := MinutesOf(lore, t, spell);
    assert Times(Wants(lore, p, Stacking, skip, t, spell).value, m) == Wants(lore, p, Stacking, skip, t, spell).value as real * m;
  }

  lemma StillUnder(left: real, less: real, more: real, bound: real)
    requires less <= more && left + more < bound
    ensures left + less < bound
  {}

  lemma OneCast(lore: Lore, t: Target, spell: Spell)
    ensures LeftOf(AfterCast(lore, t, spell, 1).have, spell) == LeftOf(t.have, spell) + MinutesOf(lore, t, spell)
  {}

  /** A cast that a pass wanted stays within its choice, so long as a cast gives no more
      minutes when it is counted in than when it was chosen. */
  lemma CastIsWithin(earlier: Lore, now: Lore, p: Profile, pass: Pass, skip: set<Spell>, t: Target, spell: Spell)
    requires Wants(earlier, p, pass, skip, t, spell).Some? && MinutesOf(now, t, spell) <= MinutesOf(earlier, t, spell)
    ensures var n := Wants(earlier, p, pass, skip, t, spell).value;
            Within(p, Choice(pass, MinutesOf(earlier, t, spell)), LeftOf(AfterCast(now, t, spell, n).have, spell))
  {
    var n := Wants(earlier, p, pass, skip, t, spell).value;
    if pass.Stacking? {
      var m, m' := MinutesOf(earlier, t, spell), MinutesOf(now, t, spell);
      StackingStays(earlier, p, skip, t, spell);
      NoMore(n, m', m);
      StillUnder(LeftOf(t.have, spell), Times(n, m'), Times(n, m), p.stopAt + m);
    } else {
      OneCast(now, t, spell);
    }
  }

  lemma CastKeepsNoneOver(earlier: Lore, now: Lore, p: Profile, pass: Pass, skip: set<Spell>, first: Minutes, chosen: map<Spell, Choice>,
                          t: Target, spell: Spell)
    requires NoneOver(p, first, chosen, t) && Wants(earlier, p, pass, skip, t, spell).Some?
    requires MinutesOf(now, t, spell) <= MinutesOf(earlier, t, spell)
    ensures NoneOver(p, first, chosen[spell := Choice(pass, MinutesOf(earlier, t, spell))],
                     AfterCast(now, t, spell, Wants(earlier, p, pass, skip, t, spell).value))
  {
    var t' := AfterCast(now, t, spell, Wants(earlier, p, pass, skip, t, spell).value);
    CastIsWithin(earlier, now, p, pass, skip, t, spell);
    forall s | s in t'.have
      ensures NotOver(p, first, chosen[spell := Choice(pass, MinutesOf(earlier, t, spell))], t', s)
    {
      assert s == spell || NotOver(p, first, chosen, t, s);
    }
  }

  /** With more minutes at the count than at the choice the bound can fail: for every choice
      that stacks there are minutes that reach it. */
  lemma MoreMinutesGoOver(lore: Lore, p: Profile, skip: set<Spell>, t: Target, spell: Spell) returns (more: real)
    requires Wants(lore, p, Stacking, skip, t, spell).Some?
    ensures var n, m := Wants(lore, p, Stacking, skip, t, spell).value, MinutesOf(lore, t, spell);
            more > m && !Within(p, Choice(Stacking, m), LeftOf(t.have, spell) + Times(n, more))
  {
    var n, m, left := Wants(lore, p, Stacking, skip, t, spell).value, MinutesOf(lore, t, spell), LeftOf(t.have, spell);
    StackingStays(lore, p, skip, t, spell);
    more := (p.stopAt + m - left) / n as real;
    assert Times(n, more) == p.stopAt + m - left;
    if more <= m {
      NoMore(n, more, m);
    }
  }

  /** The bounds of the other passes are met: a refreshable at the least that is refreshed, and
      a spell of neither kind, come to just that. */
  lemma BoundsAreMet(lore: Lore, p: Profile, pass: Pass, skip: set<Spell>, t: Target, spell: Spell)
    requires !pass.Stacking? && Wants(lore, p, pass, skip, t, spell).Some?
    ensures var m, left := MinutesOf(lore, t, spell), LeftOf(AfterCast(lore, t, spell, 1).have, spell);
            && Wants(lore, p, pass, skip, t, spell) == Some(1)
            && (pass.Refreshing? && LeftOf(t.have, spell) == p.refreshableMin ==> left == p.refreshableMin + m)
            && (pass.Solid? ==> left == m)
  {
  }

  /** The one bound, less than a cast past the stop, holds of every choice exactly when the
      stop is above the least minutes refreshed and above none. */
  lemma OneBoundWhen(p: Profile)
    ensures (forall c: Choice, left: real :: Within(p, c, left) ==> left < p.stopAt + c.minutes) <==>
            p.refreshableMin < p.stopAt && 0.0 < p.stopAt
  {
    assert Within(p, Choice(Refreshing, 1.0), p.refreshableMin + 1.0);
    assert Within(p, Choice(Solid, 1.0), 1.0);
  }

  // ------------------------------------------------------ the order of a pass

  /** 625 and 1612 come first, then the rest, each by number. */
  predicate Before(a: Spell, b: Spell) {
    var firstA, firstB := a == 625 || a == 1612, b == 625 || b == 1612;
    (firstA && !firstB) || (firstA == firstB && a <= b)
  }

  function Inserted(spell: Spell, list: seq<Spell>): (r: seq<Spell>) {
    if list == [] || Before(spell, list[0]) then [spell] + list else [list[0]] + Inserted(spell, list[1..])
  }

  function Sorted(list: seq<Spell>): (r: seq<Spell>) {
    if list == [] then [] else Inserted(list[0], Sorted(list[1..]))
  }

  ghost predicate InOrder(list: seq<Spell>) {
    forall i, j :: 0 <= i < j < |list| ==> Before(list[i], list[j])
  }

  lemma {:induction false} InsertedHas(spell: Spell, list: seq<Spell>, j: nat)
    requires j < |Inserted(spell, list)|
    ensures Inserted(spell, list)[j] == spell || exists k :: 0 <= k < |list| && list[k] == Inserted(spell, list)[j]
  {
    if list != [] && !Before(spell, list[0]) && j > 0 {
      InsertedHas(spell, list[1..], j - 1);
    }
  }

  lemma {:induction false} InsertedInOrder(spell: Spell, list: seq<Spell>)
    requires InOrder(list)
    ensures InOrder(Inserted(spell, list))
  {
    if list != [] && !Before(spell, list[0]) {
      InsertedInOrder(spell, list[1..]);
      var rest := Inserted(spell, list[1..]);
      forall j | 0 <= j < |rest|
        ensures Before(list[0], rest[j])
      {
        InsertedHas(spell, list[1..], j);
      }
    }
  }

  lemma {:induction false} InsertedAdds(spell: Spell, list: seq<Spell>)
    ensures multiset(Inserted(spell, list)) == multiset(list) + multiset{spell}
  {
    if list != [] {
      HeadAndTail(list);
      if !Before(spell, list[0]) {
        InsertedAdds(spell, list[1..]);
      }
    }
  }

  lemma {:induction false} SortedInOrder(list: seq<Spell>)
    ensures InOrder(Sorted(list)) && multiset(Sorted(list)) == multiset(list)
  {
    if list != [] {
      SortedInOrder(list[1..]);
      InsertedInOrder(list[0], Sorted(list[1..]));
      InsertedAdds(list[0], Sorted(list[1..]));
      HeadAndTail(list);
    }
  }

  /** The cast list in the order of the pass. */
  function Ordered(p: Profile, pass: Pass): (list: seq<Spell>) {
    if pass.Stacking? then Sorted(p.castList) else p.castList
  }

  lemma OrderedIsTheList(p: Profile, pass: Pass)
    ensures multiset(Ordered(p, pass)) == multiset(p.castList)
    ensures pass.Stacking? ==> InOrder(Ordered(p, pass))
  {
    SortedInOrder(p.castList);
  }

  // ------------------------------------------------------------ who was served

  /** Which spell was sent on which target, by its place in the run, and moved on from. */
  type Sent = set<(nat, Spell)>

  /** Which place of which pass was looked at for which target, and found unwanted. */
  type Judged = set<(nat, Pass, nat)>

  /** What the run has to show for the targets it left. */
  datatype Ledger = Ledger(p: Profile, skipTargets: set<string>, sent: Sent, judged: Judged)

  /** Nothing is left to cast at place `k` of the pass on the `i`th target: that spell was sent
      on it already, or was found unwanted there. */
  ghost predicate Unwanted(b: Ledger, i: nat, pass: Pass, k: nat)
    requires k < |Ordered(b.p, pass)|
  {
    (i, Ordered(b.p, pass)[k]) in b.sent || (i, pass, k) in b.judged
  }

  /** Nothing is left to cast before place `at` of the pass, nor in any earlier pass. */
  ghost predicate PassedOver(b: Ledger, i: nat, pass: Pass, at: nat) {
    forall q: Pass, k: nat {:trigger Unwanted(b, i, q, k)} ::
      k < |Ordered(b.p, q)| && (q.Left() > pass.Left() || (q == pass && k < at)) ==> Unwanted(b, i, q, k)
  }

  /** The `i`th target may be left: it was given up, or does not share and is skipped for it,
      or no pass has anything left to cast on it. */
  ghost predicate Served(b: Ledger, i: nat, t: Target) {
    || t.name in b.skipTargets
    || (!t.sharing && b.p.skipNotSharing)
    || PassedOver(b, i, Solid, |b.p.castList|)
  }

  ghost predicate AllServed(b: Ledger, visits: seq<Target>) {
    forall i: nat {:trigger Served(b, i, visits[i])} :: i < |visits| ==> Served(b, i, visits[i])
  }

  function NamesOf(targets: seq<Target>): (names: seq<string>)
    ensures |names| == |targets|
  {
    if targets == [] then [] else NamesOf(targets[..|targets| - 1]) + [targets[|targets| - 1].name]
  }

  lemma NamesWith(targets: seq<Target>, t: Target)
    ensures NamesOf(targets + [t]) == NamesOf(targets) + [t.name]
  {
    assert (targets + [t])[..|targets|] == targets;
  }

  lemma ServedWith(b: Ledger, visits: seq<Target>, t: Target)
    requires AllServed(b, visits) && Served(b, |visits|, t)
    ensures AllServed(b, visits + [t])
  {
    forall i: nat | i < |visits + [t]|
      ensures Served(b, i, (visits + [t])[i])
    {
      if i < |visits| {
        assert Served(b, i, visits[i]);
      }
    }
  }

  /** What was given up, sent or found unwanted stays so. */
  ghost predicate Grows(b: Ledger, c: Ledger) {
    b.p == c.p && b.skipTargets <= c.skipTargets && b.sent <= c.sent && b.judged <= c.judged
  }

  lemma StaysPassedOver(b: Ledger, c: Ledger, i: nat, pass: Pass, at: nat)
    requires Grows(b, c) && PassedOver(b, i, pass, at)
    ensures PassedOver(c, i, pass, at)
  {
    forall q: Pass, k: nat | k < |Ordered(c.p, q)| && (q.Left() > pass.Left() || (q == pass && k < at))
      ensures Unwanted(c, i, q, k)
    {
      assert Unwanted(b, i, q, k);
    }
  }

  /** A target served stays served, whatever comes later. */
  lemma StaysServed(b: Ledger, c: Ledger, visits: seq<Target>)
    requires Grows(b, c) && AllServed(b, visits)
    ensures AllServed(c, visits)
  {
    forall i: nat | i < |visits|
      ensures Served(c, i, visits[i])
    {
      assert Served(b, i, visits[i]);
      if PassedOver(b, i, Solid, |b.p.castList|) {
        StaysPassedOver(b, c, i, Solid, |b.p.castList|);
      }
    }
  }

  /** Moving on from a spell that was sent, or found unwanted. */
  lemma MovedOn(b: Ledger, c: Ledger, i: nat, pass: Pass, at: nat)
    requires Grows(b, c) && PassedOver(b, i, pass, at) && at < |Ordered(b.p, pass)|
    requires Unwanted(c, i, pass, at)
    ensures PassedOver(c, i, pass, at + 1)
  {
    StaysPassedOver(b, c, i, pass, at);
    forall q: Pass, k: nat | k < |Ordered(c.p, q)| && (q.Left() > pass.Left() || (q == pass && k < at + 1))
      ensures Unwanted(c, i, q, k)
    {
      assert Unwanted(c, i, q, k);
    }
  }

  /** A target just taken in hand. */
  lemma NothingYet(b: Ledger, i: nat, t: Target)
    ensures PassedOver(b, i, Stacking, 0) && NoneOver(b.p, t.have, map[], t)
  {
  }

  /** A pass gone through to its end is passed over whole. */
  lemma PassIsOver(b: Ledger, i: nat, pass: Pass, at: nat)
    requires PassedOver(b, i, pass, at) && at >= |Ordered(b.p, pass)|
    ensures pass.Stacking? ==> PassedOver(b, i, Refreshing, 0)
    ensures pass.Refreshing? ==> PassedOver(b, i, Solid, 0)
    ensures pass.Solid? ==> PassedOver(b, i, Solid, |b.p.castList|)
  {
  }

  /** Giving up more spells makes none wanted. */
  lemma SkippingMore(lore: Lore, p: Profile, pass: Pass, skip: set<Spell>, more: set<Spell>, t: Target, spell: Spell)
    requires skip <= more && Wants(lore, p, pass, skip, t, spell).None?
    ensures Wants(lore, p, pass, more, t, spell).None?
  {
  }

  // ------------------------------------------------------------ the run

  datatype NotReady = Mana | Spirit | Stamina | NotKnown | CastRoundtime(secs: nat)

  /** What is known at a step: of spells and the caster, whether a spell can be cast so many
      times now with this much mana kept back, and the caster's own minutes. */
  datatype Moment = Moment(lore: Lore, ready: (Spell, nat, nat) -> Option<NotReady>, own: Minutes)

  /** The first spell that the pass wants from place `k` on, if it can be sent. */
  function DueFrom(now: Moment, p: Profile, pass: Pass, skip: set<Spell>, t: Target, k: nat): (spell: Option<Spell>)
    decreases |Ordered(p, pass)| - k
  {
    var list := Ordered(p, pass);
    if k >= |list| then None
    else
      var n := Wants(now.lore, p, pass, skip, t, list[k]);
      if n.None? then DueFrom(now, p, pass, skip, t, k + 1)
      else if now.ready(list[k], n.value, p.reserveMana).None? && !now.lore.powerless(list[k]) then Some(list[k])
      else None
  }

  datatype Step =
    | Ask(name: string)
    | Cast(spell: Spell, target: Option<string>, count: nat)
    | Wait(secs: nat)
    | Done(casts: nat)
    | OutOfMana

  datatype Answer = Landed | NotHere | Unclear | NoTarget | Hindered

  /** The answer to asking after someone's spells. */
  datatype Active = Active(sharing: bool, have: Minutes)

  /** The target in hand, those left before it, what it first had, and what its casts were chosen by. */
  datatype Hold = Hold(target: Option<Target>, visits: seq<Target>, first: Minutes, chosen: map<Spell, Choice>)

  /** The target in hand is the one that was, with what it first had and its casts; or it was
      left, and another may be in hand, from what it has now. */
  ghost predicate Goes(h: Hold, now: Hold) {
    && h.visits <= now.visits
    && (h.target.Some? && now.visits == h.visits ==> now == h)
    && (h.target.Some? && |now.visits| > |h.visits| ==> now.visits[|h.visits|] == h.target.value)
    && (h.target.None? || |now.visits| > |h.visits| ==> FromTheFirst(now))
  }

  ghost predicate FromTheFirst(h: Hold) {
    h.target.Some? ==> h.first == h.target.value.have && h.chosen == map[]
  }

  lemma GoesOn(a: Hold, b: Hold, c: Hold)
    requires Goes(a, b) && Goes(b, c)
    ensures Goes(a, c)
  {
    if a.target.Some? && |c.visits| > |a.visits| && |b.visits| > |a.visits| {
      assert c.visits[|a.visits|] == b.visits[|a.visits|];
    }
  }

  class Waggler {
    const profile: Profile
    var targets: seq<string>
    var target: Option<Target>
    var asked: bool
    var pass: Pass
    var at: nat
    var skipSpells: set<Spell>
    var skipTargets: set<string>
    var casts: nat
    var last: Option<(Spell, nat)>
    /** What was known when the last cast was chosen. */
    ghost var chosenBy: Option<Lore>
    /** The minutes the target in hand was first known to have, and what its casts were chosen by. */
    ghost var first: Minutes
    ghost var chosen: map<Spell, Choice>
    /** Everyone the run is for, those it has left, and what it has to show for them. */
    ghost const everyone: seq<string>
    ghost var visits: seq<Target>
    ghost var sent: Sent
    ghost var judged: Judged

    ghost function Book(): (b: Ledger)
      reads this
    {
      Ledger(profile, skipTargets, sent, judged)
    }

    /** Everyone is served, in hand, or still to come, in order. */
    ghost predicate InTurn()
      reads this
    {
      everyone == NamesOf(visits) + (if target.Some? then [target.value.name] else []) + targets
    }

    /** Those left are served, and of the one in hand what came before is passed over. */
    ghost predicate Serving()
      reads this
    {
      && InTurn()
      && (asked ==> target.Some?)
      && AllServed(Book(), visits)
      && (target.Some? && !asked ==> PassedOver(Book(), |visits|, pass, at))
    }

    /** A cast under way is the spell the pass stands at, and was wanted when it was chosen. */
    ghost predicate Chosen()
      reads this
    {
      last.Some? && !asked ==>
        && target.Some? && at < |Ordered(profile, pass)| && Ordered(profile, pass)[at] == last.value.0
        && chosenBy.Some? && Wants(chosenBy.value, profile, pass, skipSpells, target.value, last.value.0) == Some(last.value.1)
    }

    ghost predicate Valid()
      reads this
    {
      Serving() && Chosen()
    }

    /** No spell of the target in hand is over what it first had or what its cast was chosen for. */
    ghost predicate Bounded()
      reads this
    {
      target.Some? ==> NoneOver(profile, first, chosen, target.value)
    }

    /** The `i`th target as it was left, or as it is in hand. */
    ghost function InHand(i: nat): (t: Option<Target>)
      reads this
    {
      if i < |visits| then Some(visits[i]) else if i == |visits| then target else None
    }

    /** The place is one of the pass's, and at this moment its spell is not wanted on that target. */
    ghost predicate UnwantedNow(now: Moment, j: (nat, Pass, nat))
      reads this
    {
      && InHand(j.0).Some? && j.2 < |Ordered(profile, j.1)|
      && Wants(now.lore, profile, j.1, skipSpells, InHand(j.0).value, Ordered(profile, j.1)[j.2]).None?
    }

    /** What was found unwanted since is unwanted at this moment. */
    ghost predicate FairlyJudged(now: Moment, was: Judged)
      reads this
    {
      was <= judged && forall j :: j in judged && j !in was ==> UnwantedNow(now, j)
    }

    constructor (profile: Profile, targets: seq<string>)
      ensures Valid() && Bounded() && last.None? && !asked && target.None?
      ensures this.profile == profile.(stopAt := if profile.stopAt <= MOST_MINUTES then profile.stopAt else MOST_MINUTES)
      ensures this.targets == if targets == [] then ["self"] else targets
      ensures everyone == this.targets && visits == [] && sent == {} && judged == {}
      ensures skipSpells == {} && skipTargets == {} && casts == 0
    {
      this.profile := profile.(stopAt := if profile.stopAt <= MOST_MINUTES then profile.stopAt else MOST_MINUTES);
      this.targets := if targets == [] then ["self"] else targets;
      target, asked, pass, at := None, false, Stacking, 0;
      skipSpells, skipTargets, casts, last, chosenBy, first, chosen := {}, {}, 0, None, None, map[], map[];
      everyone, visits, sent, judged := if targets == [] then ["self"] else targets, [], {}, {};
    }

    /** What this pass casts on the target next, past everything it does not. */
    method Candidate(now: Moment) returns (found: Option<(Spell, nat)>)
      requires Valid() && target.Some? && last.None? && !asked
      modifies `at, `judged
      ensures Valid() && old(at) <= at && FairlyJudged(now, old(judged))
      ensures var list := Ordered(profile, pass);
              forall i :: old(at) <= i < at && i < |list| ==> Wants(now.lore, profile, pass, skipSpells, target.value, list[i]).None?
      ensures var list := Ordered(profile, pass);
              found.Some? ==>
                at < |list| && list[at] == found.value.0
                && Wants(now.lore, profile, pass, skipSpells, target.value, found.value.0) == Some(found.value.1)
      ensures found.None? ==> at >= |Ordered(profile, pass)|
      ensures NextDue(now) == old(NextDue(now))
    {
      var list := Ordered(profile, pass);
      while at < |list|
        invariant Valid() && !asked && target.Some? && last.None? && old(at) <= at && FairlyJudged(now, old(judged))
        invariant NextDue(now) == old(NextDue(now))
        invariant forall i :: old(at) <= i < at && i < |list| ==> Wants(now.lore, profile, pass, skipSpells, target.value, list[i]).None?
        decreases |list| - at
      {
        var n := Wants(now.lore, profile, pass, skipSpells, target.value, list[at]);
        if n.Some? {
          return Some((list[at], n.value));
        }
        PassBy(now);
      }
      return None;
    }

    /** Moves on from a spell that is not wanted. */
    method PassBy(now: Moment)
      requires Valid() && target.Some? && last.None? && !asked && UnwantedNow(now, (|visits|, pass, at))
      modifies `at, `judged
      ensures Valid() && at == old(at) + 1 && judged == old(judged) + {(|visits|, pass, old(at))}
    {
      ghost var book := Book();
      judged := judged + {(|visits|, pass, at)};
      StaysServed(book, Book(), visits);
      MovedOn(book, Book(), |visits|, pass, at);
      at := at + 1;
    }

    /** Targets still to do, the one in hand last. */
    ghost function Ahead(): (n: nat)
      reads this
    {
      2 * |targets| + if target.Some? then 1 else 0
    }

    ghost function Unskipped(): (spells: set<Spell>)
      reads this
    {
      (set s | s in profile.castList && s !in skipSpells)
    }

    /** Takes the next target in hand; someone else is asked about first. */
    method Adopt(now: Moment) returns (ask: bool)
      requires Valid() && last.None? && !asked && target.None? && targets != []
      modifies `targets, `target, `asked, `pass, `at, `first, `chosen
      ensures Valid() && targets == old(targets)[1..] && target.Some? && target.value.name == old(targets)[0]
      ensures ask == asked == !now.lore.me(old(targets)[0]) && target.value.sharing
      ensures target.value.have == if ask then map[] else now.own
      ensures !ask ==> pass.Stacking? && at == 0
      ensures first == target.value.have && chosen == map[] && Bounded()
    {
      HeadAndTail(targets);
      JoinAssociates(NamesOf(visits), [targets[0]], targets[1..]);
      Nothing(NamesOf(visits));
      ask := !now.lore.me(targets[0]);
      var t := Target(targets[0], if ask then map[] else now.own, true);
      ghost var book := Book();
      NothingYet(book, |visits|, t);
      targets, target, first, chosen, asked := targets[1..], Some(t), t.have, map[], ask;
      if !ask {
        pass, at := Stacking, 0;
      }
      assert Book() == book;
    }

    /** The spell is not cast again this run. */
    method Skip(now: Moment, spell: Spell, ghost was: Judged)
      requires Valid() && last.None? && !asked && spell in Unskipped() && FairlyJudged(now, was)
      modifies `skipSpells
      ensures Valid() && skipSpells == old(skipSpells) + {spell} && |Unskipped()| < |old(Unskipped())|
      ensures FairlyJudged(now, was)
    {
      ghost var unskipped, skip := Unskipped(), skipSpells;
      skipSpells := skipSpells + {spell};
      assert Unskipped() == unskipped - {spell};
      forall j | j in judged && j !in was
        ensures UnwantedNow(now, j)
      {
        SkippingMore(now.lore, profile, j.1, skip, skipSpells, InHand(j.0).value, Ordered(profile, j.1)[j.2]);
      }
    }

    /** The target in hand is done with. */
    method Leave(ghost now: Moment, ghost was: Judged)
      requires Valid() && last.None? && !asked && target.Some? && Served(Book(), |visits|, target.value) && FairlyJudged(now, was)
      modifies `target, `visits
      ensures Valid() && target.None? && visits == old(visits) + [old(target).value] && FairlyJudged(now, was)
    {
      ghost var book := Book();
      ServedWith(book, visits, target.value);
      NamesWith(visits, target.value);
      Nothing(NamesOf(visits + [target.value]));
      target, visits := None, visits + [target.value];
      assert Book() == book;
    }

    /** What to do about a spell that cannot be cast just now; none: it is not known after all. */
    function Delay(why: NotReady): (step: Option<Step>)
      reads this
    {
      match why
      case NotKnown => None
      case CastRoundtime(secs) => Some(Wait(if secs >= 1 then secs else 1))
      case _ => Some(if profile.bail then OutOfMana else Wait(5))
    }

    /** The cast is due: the pass wants it, it can be sent, and the target can be found. */
    ghost predicate Due(now: Moment, spell: Spell, count: nat)
      reads this
    {
      && target.Some? && target.value.name !in skipTargets && spell in profile.castList
      && Wants(now.lore, profile, pass, skipSpells, target.value, spell) == Some(count)
      && now.ready(spell, count, profile.reserveMana).None? && !now.lore.powerless(spell)
    }

    /** The spell due in this pass for the target in hand, if the first it wants can be sent. */
    ghost function NextDue(now: Moment): (spell: Option<Spell>)
      reads this
    {
      if target.Some? && target.value.name !in skipTargets then DueFrom(now, profile, pass, skipSpells, target.value, at) else None
    }

    /** A cast that is due, as it is sent. */
    ghost predicate Sends(now: Moment, step: Step)
      requires step.Cast?
      reads this
    {
      && last == Some((step.spell, step.count)) && chosenBy == Some(now.lore) && Due(now, step.spell, step.count)
      && step.target == (if now.lore.me(target.value.name) then None else Some(target.value.name))
    }

    /** What a command says of the run. */
    ghost predicate Answers(now: Moment, step: Step)
      reads this
    {
      && (last.Some? == step.Cast? && asked == step.Ask?)
      && (step.Cast? ==> Sends(now, step))
      && (step.Ask? ==> target == Some(Target(step.name, map[], true)) && !now.lore.me(step.name))
      && (step.Done? ==>
            && targets == [] && target.None? && step.casts == casts
            && NamesOf(visits) == everyone && AllServed(Book(), visits))
      && (step.OutOfMana? ==> profile.bail)
    }

    ghost function Holding(): (h: Hold)
      reads this
    {
      Hold(target, visits, first, chosen)
    }

    /** The next command. It always comes: targets, spells and passes run out. A target is
        left, and the end told, only when it was given up or no pass has anything left for it:
        each place was sent from, or found unwanted at some step's own moment. */
    method Next(now: Moment) returns (step: Step)
      requires Valid() && last.None? && !asked
      modifies this
      ensures Valid() && Answers(now, step) && (old(Bounded()) ==> Bounded())
      ensures casts == old(casts) && old(skipSpells) <= skipSpells && skipTargets == old(skipTargets)
      ensures Goes(old(Holding()), Holding())
      ensures sent == old(sent) && Unsendable(now, skipSpells - old(skipSpells)) && FairlyJudged(now, old(judged))
      ensures old(NextDue(now)).Some? ==> step.Cast? && step.spell == old(NextDue(now)).value
      ensures old(target).None? && old(targets) != [] && !now.lore.me(old(targets)[0]) ==> step == Ask(old(targets)[0])
      ensures old(target).None? && old(targets) == [] ==> step == Done(casts)
    {
      var said := Turn(now, judged);
      while said.None?
        invariant Valid() && (if said.None? then last.None? && !asked else Answers(now, said.value))
        invariant old(Bounded()) ==> Bounded()
        invariant casts == old(casts) && old(skipSpells) <= skipSpells && skipTargets == old(skipTargets)
        invariant Goes(old(Holding()), Holding())
        invariant sent == old(sent) && Unsendable(now, skipSpells - old(skipSpells)) && FairlyJudged(now, old(judged))
        invariant old(NextDue(now)).Some? ==> said.Some? && said.value.Cast? && said.value.spell == old(NextDue(now)).value
        invariant old(target).None? && old(targets) != [] && !now.lore.me(old(targets)[0]) ==> said == Some(Ask(old(targets)[0]))
        invariant old(target).None? && old(targets) == [] ==> said == Some(Done(casts))
        decreases said.None?, Ahead(), |Unskipped()|, pass.Left()
      {
        ghost var held := Holding();
        said := Turn(now, old(judged));
        GoesOn(old(Holding()), held, Holding());
      }
      return said.value;
    }

    /** One turn of choosing: the next target in hand, or this one left, or what this pass does for it. */
    method Turn(now: Moment, ghost was: Judged) returns (said: Option<Step>)
      requires Valid() && last.None? && !asked && FairlyJudged(now, was)
      modifies this
      ensures Valid() && (old(Bounded()) ==> Bounded())
      ensures if said.None? then last.None? && !asked else Answers(now, said.value)
      ensures casts == old(casts) && old(skipSpells) <= skipSpells && skipTargets == old(skipTargets)
      ensures Goes(old(Holding()), Holding())
      ensures sent == old(sent) && Unsendable(now, skipSpells - old(skipSpells)) && FairlyJudged(now, was)
      ensures old(NextDue(now)).Some? ==> said.Some? && said.value.Cast? && said.value.spell == old(NextDue(now)).value
      ensures old(target).None? && old(targets) != [] && !now.lore.me(old(targets)[0]) ==> said == Some(Ask(old(targets)[0]))
      ensures old(target).None? && old(targets) == [] ==> said == Some(Done(casts))
      ensures said.None? ==>
                || Ahead() < old(Ahead())
                || (Ahead() == old(Ahead()) && |Unskipped()| < |old(Unskipped())|)
                || (Ahead() == old(Ahead()) && skipSpells == old(skipSpells) && pass.Left() < old(pass).Left())
    {
      if target.None? {
        said := TakeNext(now, was);
      } else {
        said := Handle(now, was);
      }
    }

    /** The target in hand is left if it was given up; else the pass is asked what to do for it. */
    method Handle(now: Moment, ghost was: Judged) returns (said: Option<Step>)
      requires Valid() && last.None? && !asked && target.Some? && FairlyJudged(now, was)
      modifies `at, `pass, `target, `skipSpells, `last, `chosenBy, `visits, `judged
      ensures Valid() && old(skipSpells) <= skipSpells && Unsendable(now, skipSpells - old(skipSpells)) && FairlyJudged(now, was)
      ensures Goes(old(Holding()), Holding()) && (old(Bounded()) ==> Bounded())
      ensures old(NextDue(now)).Some? ==> said.Some? && said.value.Cast? && said.value.spell == old(NextDue(now)).value
      ensures said.Some? ==> Answers(now, said.value)
      ensures said.None? ==> last.None?
      ensures said.None? ==>
                || Ahead() < old(Ahead())
                || (Ahead() == old(Ahead()) && |Unskipped()| < |old(Unskipped())|)
                || (Ahead() == old(Ahead()) && skipSpells == old(skipSpells) && pass.Left() < old(pass).Left())
    {
      if target.value.name in skipTargets {
        Leave(now, was);
        said := None;
      } else {
        said := Offer(now, was);
      }
    }

    /** With nobody in hand, the next one is taken, or the run is over. */
    method TakeNext(now: Moment, ghost was: Judged) returns (said: Option<Step>)
      requires Valid() && last.None? && !asked && target.None? && FairlyJudged(now, was)
      modifies `targets, `target, `asked, `pass, `at, `first, `chosen
      ensures Valid() && Bounded() && FairlyJudged(now, was) && (said.None? ==> !asked) && (said.Some? ==> Answers(now, said.value))
      ensures Goes(old(Holding()), Holding())
      ensures said.None? ==> Ahead() < old(Ahead())
      ensures old(targets) != [] && !now.lore.me(old(targets)[0]) ==> said == Some(Ask(old(targets)[0]))
      ensures old(targets) == [] ==> said == Some(Done(casts))
    {
      if targets == [] {
        Nothing(NamesOf(visits));
        return Some(Done(casts));
      }
      var ask := Adopt(now);
      said := if ask then Some(Ask(target.value.name)) else None;
    }

    /** What this pass does for the target in hand: a step to take, or a spell skipped, or
        the pass over. */
    method Offer(now: Moment, ghost was: Judged) returns (step: Option<Step>)
      requires Valid() && last.None? && !asked && target.Some? && target.value.name !in skipTargets && FairlyJudged(now, was)
      modifies `at, `pass, `target, `skipSpells, `last, `chosenBy, `visits, `judged
      ensures Valid() && old(skipSpells) <= skipSpells && Unsendable(now, skipSpells - old(skipSpells)) && FairlyJudged(now, was)
      ensures (visits == old(visits) && target == old(target)) || (visits == old(visits) + [old(target).value] && target.None?)
      ensures old(NextDue(now)).Some? ==> step.Some? && step.value.Cast? && step.value.spell == old(NextDue(now)).value
      ensures step.Some? ==> target == old(target) && Said(now, step.value)
      ensures step.None? ==> last.None?
      ensures step.None? ==>
                || Ahead() < old(Ahead())
                || (Ahead() == old(Ahead()) && |Unskipped()| < |old(Unskipped())|)
                || (Ahead() == old(Ahead()) && skipSpells == old(skipSpells) && pass.Left() < old(pass).Left())
    {
      var found := Candidate(now);
      if found.Some? {
        step := Consider(now, found.value.0, found.value.1, was);
      } else {
        PassOver(now, was);
        step := None;
      }
    }

    /** Spells with nothing to send, or not known after all. */
    ghost predicate Unsendable(now: Moment, spells: set<Spell>)
      reads this
    {
      forall spell :: spell in spells ==>
        now.lore.powerless(spell) || exists count: nat :: now.ready(spell, count, profile.reserveMana) == Some(NotKnown)
    }

    /** A step for the target in hand: a cast that is due, or a wait, or the end for want of mana. */
    ghost predicate Said(now: Moment, step: Step)
      reads this
    {
      && (step.Cast? || step.Wait? || (step.OutOfMana? && profile.bail))
      && (last.Some? == step.Cast?)
      && (step.Cast? ==> Sends(now, step))
    }

    /** Sends the spell found, or says to wait, or skips it. */
    method Consider(now: Moment, spell: Spell, count: nat, ghost was: Judged) returns (step: Option<Step>)
      requires Valid() && last.None? && !asked && target.Some? && target.value.name !in skipTargets && FairlyJudged(now, was)
      requires at < |Ordered(profile, pass)| && Ordered(profile, pass)[at] == spell
      requires Wants(now.lore, profile, pass, skipSpells, target.value, spell) == Some(count)
      modifies `skipSpells, `last, `chosenBy
      ensures Valid() && old(skipSpells) <= skipSpells && Unsendable(now, skipSpells - old(skipSpells)) && FairlyJudged(now, was)
      ensures step.None? ==> last.None? && |Unskipped()| < |old(Unskipped())|
      ensures step.Some? ==> Said(now, step.value)
      ensures now.ready(spell, count, profile.reserveMana).None? && !now.lore.powerless(spell) ==>
                step.Some? && step.value.Cast? && step.value.spell == spell
    {
      InTheList(spell);
      if now.lore.powerless(spell) {
        Skip(now, spell, was);
        return None;
      }
      var why := now.ready(spell, count, profile.reserveMana);
      if why.Some? {
        step := Delay(why.value);
        if step.None? {
          assert now.ready(spell, count, profile.reserveMana) == Some(NotKnown);
          Skip(now, spell, was);
        }
        return;
      }
      last, chosenBy := Some((spell, count)), Some(now.lore);
      return Some(Cast(spell, if now.lore.me(target.value.name) then None else Some(target.value.name), count));
    }

    lemma InTheList(spell: Spell)
      requires at < |Ordered(profile, pass)| && Ordered(profile, pass)[at] == spell
      ensures spell in profile.castList
    {
      OrderedIsTheList(profile, pass);
      assert spell in multiset(Ordered(profile, pass));
    }

    /** Nothing more in this pass: the target's next pass comes, or after the last the target goes. */
    method PassOver(ghost now: Moment, ghost was: Judged)
      requires Valid() && last.None? && !asked && target.Some? && at >= |Ordered(profile, pass)| && FairlyJudged(now, was)
      modifies `at, `pass, `target, `visits
      ensures Valid() && at == 0 && FairlyJudged(now, was)
      ensures old(pass).Solid? ==> target.None? && pass.Stacking? && visits == old(visits) + [old(target).value]
      ensures !old(pass).Solid? ==> target == old(target) && visits == old(visits) && pass.Left() == old(pass).Left() - 1
    {
      PassIsOver(Book(), |visits|, pass, at);
      match pass {
        case Stacking =>
          at, pass := 0, Refreshing;
        case Refreshing =>
          at, pass := 0, Solid;
        case Solid =>
          Leave(now, was);
          at, pass := 0, Stacking;
      }
    }

    // ------------------------------------------------------------ what came of it

    /** What a cast's answers make of the run: a spell or a target given up, a cast counted in,
        the same cast again when it was hindered, or else on to the next. */
    ghost predicate Settled(cast: (Spell, nat), earlier: Lore, now: Lore, answers: set<Answer>, t: Option<Target>, at0: nat, pass0: Pass,
                            casts0: nat, spells0: set<Spell>, targets0: set<string>, chosen0: map<Spell, Choice>)
      requires t.Some?
      reads this
    {
      var refused := NotHere in answers || Unclear in answers;
      var lost := !refused && NoTarget in answers;
      var again := !refused && !lost && Hindered in answers;
      var landed := Lands(answers);
      && pass == pass0
      && skipSpells == (if refused then spells0 + {cast.0} else spells0)
      && skipTargets == (if lost then targets0 + {t.value.name} else targets0)
      && casts == (if landed then casts0 + 1 else casts0)
      && target == (if landed then Some(AfterCast(now, t.value, cast.0, cast.1)) else t)
      && chosen == (if landed then chosen0[cast.0 := Choice(pass, MinutesOf(earlier, t.value, cast.0))] else chosen0)
      && at == (if lost || again || (landed && pass.Stacking? && t.value.sharing) then at0 else at0 + 1)
    }

    static predicate Lands(answers: set<Answer>) {
      NotHere !in answers && Unclear !in answers && NoTarget !in answers && Hindered !in answers && Landed in answers
    }

    /** The spell was sent on the target in hand, and its answer is heard. */
    ghost predicate Heard(spell: Spell, count: nat)
      reads this
    {
      && Valid() && last.None? && !asked && target.Some? && at < |Ordered(profile, pass)| && chosenBy.Some?
      && Ordered(profile, pass)[at] == spell
      && Wants(chosenBy.value, profile, pass, skipSpells, target.value, spell) == Some(count)
    }

    /** The spell is given up, and moved on from. */
    method GiveUpSpell(spell: Spell, ghost count: nat)
      requires Heard(spell, count)
      modifies `skipSpells, `at, `sent
      ensures Valid() && skipSpells == old(skipSpells) + {spell} && at == old(at) + 1 && sent == old(sent) + {(|visits|, spell)}
    {
      skipSpells := skipSpells + {spell};
      GoOn(spell);
    }

    /** The target is given up. */
    method GiveUpTarget()
      requires Valid() && last.None? && !asked && target.Some?
      modifies `skipTargets
      ensures Valid() && skipTargets == old(skipTargets) + {target.value.name}
    {
      ghost var book := Book();
      skipTargets := skipTargets + {target.value.name};
      StaysServed(book, Book(), visits);
      StaysPassedOver(book, Book(), |visits|, pass, at);
    }

    /** The cast is counted in, and moved on from but for a stacking spell of one who shares. */
    method CountIn(spell: Spell, count: nat, now: Lore)
      requires Heard(spell, count)
      modifies `casts, `target, `at, `sent, `chosen
      ensures Valid() && casts == old(casts) + 1 && target == Some(AfterCast(now, old(target).value, spell, count))
      ensures chosen == old(chosen)[spell := Choice(pass, MinutesOf(chosenBy.value, old(target).value, spell))]
      ensures old(Bounded()) && NoMoreMinutes(chosenBy.value, now, old(target).value, spell) ==> Bounded()
      ensures var stays := pass.Stacking? && old(target).value.sharing;
              at == (if stays then old(at) else old(at) + 1)
              && sent == (if stays then old(sent) else old(sent) + {(|visits|, spell)})
    {
      Add(spell, count, now);
      if !pass.Stacking? || !target.value.sharing {
        GoOn(spell);
      }
    }

    /** The cast's minutes are added to what the target has. */
    method Add(spell: Spell, count: nat, now: Lore)
      requires Heard(spell, count)
      modifies `casts, `target, `chosen
      ensures Valid() && casts == old(casts) + 1 && target == Some(AfterCast(now, old(target).value, spell, count))
      ensures chosen == old(chosen)[spell := Choice(pass, MinutesOf(chosenBy.value, old(target).value, spell))]
      ensures old(Bounded()) && NoMoreMinutes(chosenBy.value, now, old(target).value, spell) ==> Bounded()
    {
      ghost var earlier, t := chosenBy.value, target.value;
      if NoneOver(profile, first, chosen, t) && NoMoreMinutes(earlier, now, t, spell) {
        CastKeepsNoneOver(earlier, now, profile, pass, skipSpells, first, chosen, t, spell);
      }
      ghost var book := Book();
      casts := casts + 1;
      target, chosen := Some(AfterCast(now, target.value, spell, count)), chosen[spell := Choice(pass, MinutesOf(earlier, t, spell))];
      assert Book() == book;
    }

    /** Moves on from a spell that was sent. */
    method GoOn(ghost spell: Spell)
      requires Valid() && last.None? && !asked && target.Some? && at < |Ordered(profile, pass)| && Ordered(profile, pass)[at] == spell
      modifies `at, `sent
      ensures Valid() && at == old(at) + 1 && sent == old(sent) + {(|visits|, spell)}
    {
      ghost var book := Book();
      sent := sent + {(|visits|, spell)};
      StaysServed(book, Book(), visits);
      MovedOn(book, Book(), |visits|, pass, at);
      at := at + 1;
    }

    /** What the game said: who has what up, or what became of a cast. What is bounded stays
        so, if a cast counted in gives no more minutes now than when it was chosen. */
    method Outcome(active: Active, answers: set<Answer>, now: Lore)
      requires Valid()
      modifies this
      ensures Valid() && last.None? && !asked && old(skipSpells) <= skipSpells && old(skipTargets) <= skipTargets
      ensures targets == old(targets) && judged == old(judged)
      ensures old(asked) ==> Asked(active, old(target).value.name, old(visits)) && sent == old(sent) && Bounded()
      ensures !old(asked) ==> visits == old(visits) && first == old(first) && old(sent) <= sent
      ensures !old(asked) && old(last).None? ==> sent == old(sent) && chosen == old(chosen) && target == old(target)
      ensures !old(asked) && old(last).Some? ==>
                && sent <= old(sent) + {(|visits|, old(last).value.0)}
                && Settled(old(last).value, old(chosenBy).value, now, answers, old(target), old(at), old(pass), old(casts),
                           old(skipSpells), old(skipTargets), old(chosen))
                && (old(Bounded()) && (Lands(answers) ==> NoMoreMinutes(old(chosenBy).value, now, old(target).value, old(last).value.0)) ==>
                      Bounded())
    {
      if asked {
        Told(active);
      } else if last.Some? {
        Hear(answers, now);
      }
    }

    /** The answers to the cast under way are heard. */
    method Hear(answers: set<Answer>, now: Lore)
      requires Valid() && !asked && last.Some?
      modifies `last, `skipSpells, `skipTargets, `casts, `target, `at, `sent, `chosen
      ensures Valid() && last.None? && old(skipSpells) <= skipSpells && old(skipTargets) <= skipTargets
      ensures old(sent) <= sent <= old(sent) + {(|visits|, old(last).value.0)}
      ensures Settled(old(last).value, chosenBy.value, now, answers, old(target), old(at), old(pass), old(casts),
                      old(skipSpells), old(skipTargets), old(chosen))
      ensures old(Bounded()) && (Lands(answers) ==> NoMoreMinutes(chosenBy.value, now, old(target).value, old(last).value.0)) ==> Bounded()
    {
      var (spell, count) := last.value;
      last := None;
      Answered(spell, count, answers, now);
    }

    static ghost predicate NoMoreMinutes(earlier: Lore, now: Lore, t: Target, spell: Spell) {
      MinutesOf(now, t, spell) <= MinutesOf(earlier, t, spell)
    }

    /** What became of the cast. */
    method Answered(spell: Spell, count: nat, answers: set<Answer>, now: Lore)
      requires Heard(spell, count)
      modifies `skipSpells, `skipTargets, `casts, `target, `at, `sent, `chosen
      ensures Valid() && old(skipSpells) <= skipSpells && old(skipTargets) <= skipTargets
      ensures old(sent) <= sent <= old(sent) + {(|visits|, spell)}
      ensures Settled((spell, count), chosenBy.value, now, answers, old(target), old(at), old(pass), old(casts),
                      old(skipSpells), old(skipTargets), old(chosen))
      ensures old(Bounded()) && (Lands(answers) ==> NoMoreMinutes(chosenBy.value, now, old(target).value, spell)) ==> Bounded()
    {
      if NotHere in answers || Unclear in answers {
        GiveUpSpell(spell, count);
      } else if NoTarget in answers {
        GiveUpTarget();
      } else if Hindered in answers {
      } else if Landed in answers {
        CountIn(spell, count, now);
      } else {
        GoOn(spell);
      }
    }

    /** The target in hand after it was asked about: turned away for not sharing, or begun. */
    ghost predicate Asked(active: Active, name: string, visits0: seq<Target>)
      reads this
    {
      var t := Target(name, active.have, active.sharing);
      if !active.sharing && profile.skipNotSharing then target.None? && visits == visits0 + [t]
      else target == Some(t) && visits == visits0 && pass.Stacking? && at == 0 && first == active.have && chosen == map[]
    }

    /** What the target has up. */
    method Told(active: Active)
      requires Valid() && asked
      modifies `asked, `last, `target, `first, `chosen, `pass, `at, `visits
      ensures Valid() && !asked && last.None? && Bounded() && Asked(active, old(target).value.name, old(visits))
    {
      if !active.sharing && profile.skipNotSharing {
        TurnAway(Target(target.value.name, active.have, false));
        return;
      }
      var t := Target(target.value.name, active.have, active.sharing);
      ghost var book := Book();
      NothingYet(book, |visits|, t);
      asked, last, target, first, chosen, pass, at := false, None, Some(t), t.have, map[], Stacking, 0;
      assert Book() == book;
    }

    /** The target does not share, and is left for it. */
    method TurnAway(ghost t: Target)
      requires Valid() && asked && profile.skipNotSharing && t.name == target.value.name && !t.sharing
      modifies `asked, `last, `target, `visits
      ensures Valid() && !asked && last.None? && target.None? && visits == old(visits) + [t]
    {
      ghost var book, now := Book(), visits + [t];
      ServedWith(book, visits, t);
      NamesWith(visits, t);
      assert everyone == NamesOf(now) + [] + targets;
      asked, last, target, visits := false, None, None, now;
      assert Book() == book;
    }
  }
}
