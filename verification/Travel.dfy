/** One journey to one room, tick by tick. */
module Travel {
  import opened Options
  import opened Roads
  import opened Paces
  import opened Cuts

  const MAX_REPLANS := 20
  const ORPHAN_MS := 1500
  const MAX_STANDS := 5
  const STAND_TIMEOUT_MS := 2500
  const NOWHERE: RoomId := 0xFFFF_FFFF

  /** What a crossing changed and has not put back. */
  datatype Debt = Taken | Speech | Stance | Hands

  datatype Deed =
    | PutBack
    | RestoreSpeech
    | RestoreStance
    | FillHands
    | EmptyHands
    | TakeStance(stance: string)
    | Speak(language: string)
    | TakeOut(thing: string)
    | Other(what: nat)

  datatype Why = NoRoute | OffTheMap | TooManyReplans

  datatype Said =
    | Send(command: string)
    | SendAll(commands: seq<string>, gapMs: nat)
    | Do(deed: Deed)
    | Solve(routine: nat)
    | Beside(worked: bool)
    | Hold
    | Arrived
    | Failed(why: Why)

  predicate Terminal(said: Said) {
    said.Arrived? || said.Failed?
  }

  /** A crossing under way; `at` is how far its steps have come. */
  datatype Run = Run(from: RoomId, leaving: RoomId, expected: RoomId, steps: seq<Step>, at: nat, owes: set<Debt>)

  datatype Out =
    | Sends(command: string)
    | Does(deed: Deed)
    | Holds
    | Done
    | Replans
    | GiveUp(ban: bool, wrong: bool)
    | Believes(landed: RoomId)

  /** An answer of the crossing: what it asks for, how far it is, and what it owes then. */
  datatype Answer = Answer(out: Out, at: nat, owes: set<Debt>)

  /** How crossings answer, for each draw of the trip's random numbers and each crossing. */
  type Answers = (nat, Run) -> Answer

  /** What was owed is owed still, but for a debt whose payment is being handed over. */
  ghost predicate Accounted(owed: set<Debt>, owes: set<Debt>, said: Said) {
    owed <= owes || exists d :: said == Do(Payment(d)) && owed <= owes + {d}
  }

  /** What an answer asks the driver for, as far as debts go. */
  function Asked(out: Out): (said: Said) {
    if out.Does? then Do(out.deed) else Hold
  }

  /** No answer drops a debt but the one it hands over the payment of. */
  ghost predicate Careful(answers: Answers) {
    forall n: nat, run: Run :: Accounted(run.owes, answers(n, run).owes, Asked(answers(n, run).out))
  }

  /** The actions of a crossing's steps that are deeds for the driver. */
  datatype Action =
    | EmptyingHands
    | FillingHands
    | TakingStance(stance: string)
    | RestoringStance
    | Speaking(language: string)
    | RestoringSpeech
    | TakingOut(thing: string)
    | PuttingBack
    | OtherDeed(what: nat)

  /** The deed a crossing asks for, and what it owes from then on. */
  function DeedFor(a: Action, owes: set<Debt>): (r: (Deed, set<Debt>)) {
    match a
    case EmptyingHands => (EmptyHands, owes + {Hands})
    case FillingHands => (FillHands, owes - {Hands})
    case TakingStance(stance) => (TakeStance(stance), owes + {Stance})
    case RestoringStance => (RestoreStance, owes - {Stance})
    case Speaking(language) => (Speak(language), owes + {Speech})
    case RestoringSpeech => (RestoreSpeech, owes - {Speech})
    case TakingOut(thing) => (TakeOut(thing), owes + {Taken})
    case PuttingBack => (PutBack, owes - {Taken})
    case OtherDeed(what) => (Other(what), owes)
  }

  /** Every deed of a crossing's steps is careful: a debt goes only as it is paid. */
  lemma DeedsAreCareful(a: Action, owes: set<Debt>)
    ensures var (deed, now) := DeedFor(a, owes); Accounted(owes, now, Do(deed))
  {
    var (deed, now) := DeedFor(a, owes);
    match a
    case FillingHands => assert deed == Payment(Hands) && owes <= now + {Hands};
    case RestoringStance => assert deed == Payment(Stance) && owes <= now + {Stance};
    case RestoringSpeech => assert deed == Payment(Speech) && owes <= now + {Speech};
    case PuttingBack => assert deed == Payment(Taken) && owes <= now + {Taken};
    case _ =>
  }

  datatype Feedback = Wait(seconds: nat) | TypeAhead | Otherwise

  /** A line of the game, as far as a trip looks at it: whether it says that one cannot stand,
      and the typeahead a refusal gives. */
  datatype Line = Line(cannotStand: bool, typeahead: Option<nat>)

  datatype Now = Now(here: Option<RoomId>, ms: nat)

  // ------------------------------------------------------------ debts

  /** The debts in the order they are paid. */
  function Bill(owes: set<Debt>): (deeds: seq<Deed>) {
    (if Taken in owes then [PutBack] else [])
    + (if Speech in owes then [RestoreSpeech] else [])
    + (if Stance in owes then [RestoreStance] else [])
    + (if Hands in owes then [FillHands] else [])
  }

  function First(owes: set<Debt>): (d: Option<Debt>)
    ensures d.None? <==> owes == {}
    ensures d.Some? ==> d.value in owes
  {
    if Taken in owes then Some(Taken)
    else if Speech in owes then Some(Speech)
    else if Stance in owes then Some(Stance)
    else if Hands in owes then Some(Hands)
    else
      (assert forall d :: d in owes ==> d.Taken? || d.Speech? || d.Stance? || d.Hands?;
       None)
  }

  function Payment(d: Debt): (deed: Deed) {
    match d
    case Taken => PutBack
    case Speech => RestoreSpeech
    case Stance => RestoreStance
    case Hands => FillHands
  }

  /** Paying the first debt takes the first deed off the bill, and no other. */
  lemma BillShrinks(owes: set<Debt>)
    ensures owes == {} ==> Bill(owes) == []
    ensures owes != {} ==> Bill(owes) == [Payment(First(owes).value)] + Bill(owes - {First(owes).value})
    ensures |Bill(owes)| <= 4
  {
  }

  lemma PaidOff(deeds: seq<Deed>, owes: set<Debt>, deed: Deed)
    requires owes != {} && deed == Payment(First(owes).value)
    ensures deeds + [deed] + Bill(owes - {First(owes).value}) == deeds + Bill(owes)
  {
    BillShrinks(owes);
    JoinAssociates(deeds, [deed], Bill(owes - {First(owes).value}));
  }

  // ------------------------------------------------------------ standing up

  function WaitMs(seconds: nat): (ms: nat) {
    if seconds > 1 then seconds * 1000 - 200 else 300
  }

  /** When a `stand` may next be sent, after the waits the game asked for. */
  function RoundtimeUntil(until: nat, feedback: seq<Feedback>, ms: nat): (t: nat) {
    if feedback == [] then until
    else
      var t := RoundtimeUntil(until, feedback[..|feedback| - 1], ms);
      match feedback[|feedback| - 1]
      case Wait(seconds) => ms + WaitMs(seconds)
      case _ => t
  }

  predicate Contains(s: string, part: string) {
    part <= s || (s != "" && Contains(s[1..], part))
  }

  predicate Afloat(steps: seq<Step>) {
    exists i :: 0 <= i < |steps| && steps[i].Move? && (Contains(steps[i].command, "swim") || Contains(steps[i].command, "pedal"))
  }

  /** Of what was owed, one debt is handed over and nothing else is let go. */
  ghost predicate PaysOne(owed: set<Debt>, owes: set<Debt>, said: Said) {
    exists d :: said == Do(Payment(d)) && d !in owes && owed <= owes + {d}
  }

  /** A tick of a trip that is over: the first debt is paid, or none is left and the answer
      ends the trip. */
  ghost predicate Settles(owed: set<Debt>, owes: set<Debt>, said: Said) {
    if owed == {} then Terminal(said) && owes == {}
    else said == Do(Payment(First(owed).value)) && owes == owed - {First(owed).value}
  }

  // ------------------------------------------------------------ what is on record

  /** How a planned exit is crossed: a plain command is a list of one step. */
  function StepsOf(c: Crossing): (steps: seq<Step>) {
    match c
    case Command(command) => [Move(command)]
    case Steps(steps) => steps
    case _ => []
  }

  /** A planned crossing was begun over the exit on record. */
  ghost predicate RunBegun(history: seq<Begun>, run: Run) {
    exists i :: 0 <= i < |history|
      && history[i].from == run.leaving && history[i].exit.to == run.expected && StepsOf(history[i].exit.crossing) == run.steps
  }

  /** The moves are the ones these commands and rooms are of. */
  ghost predicate Recorded(moves: seq<Begun>, commands: seq<string>, rooms: seq<RoomId>) {
    && |moves| == |commands| == |rooms|
    && forall k :: 0 <= k < |moves| ==> moves[k].exit.crossing == Command(commands[k]) && moves[k].exit.to == rooms[k]
  }

  /** Every crossing begun since `was` was begun with these bans in force. */
  ghost predicate InForce(banned: set<Pair>, was: seq<Begun>, history: seq<Begun>) {
    was <= history && forall i {:trigger history[i]} :: |was| <= i < |history| ==> banned <= history[i].banned
  }

  lemma AllInForce(banned: set<Pair>, was: seq<Begun>, moves: seq<Begun>)
    requires forall k :: 0 <= k < |moves| ==> moves[k].banned == banned
    ensures InForce(banned, was, was + moves)
  {
  }

  /** What a tick sends ahead is crossed over admitted exits, none banned when the tick
      began or at any crossing before. */
  lemma SentIsLawful(banned0: set<Pair>, was: seq<Begun>, history: seq<Begun>, banned: set<Pair>, said: Said, k: nat)
    requires Lawful(history, banned) && Backed(was, history, said) && InForce(banned0, was, history)
    requires said.SendAll? && k < |said.commands|
    ensures var at := |history| - |said.commands| + k;
            && Admitted(history[at]) && history[at].exit.crossing == Command(said.commands[k])
            && (history[at].from, history[at].exit.to) !in banned0
            && forall i :: 0 <= i <= at ==> (history[at].from, history[at].exit.to) !in history[i].banned
  {
    var at := |history| - |said.commands| + k;
    var sent := history[|history| - |said.commands|..];
    assert sent[k] == history[at];
    assert LawfulAt(history, banned, at);
    forall i | 0 <= i <= at
      ensures (history[at].from, history[at].exit.to) !in history[i].banned
    {
      BannedIsNeverCrossed(history, banned, i, at);
    }
  }

  /** The commands are those of these moves, one each. */
  ghost predicate SendsOver(moves: seq<Begun>, commands: seq<string>) {
    |moves| == |commands| && forall k :: 0 <= k < |moves| ==> moves[k].exit.crossing == Command(commands[k])
  }

  /** Every plain move and routine handed over is on record, put there since `was`. */
  ghost predicate Backed(was: seq<Begun>, history: seq<Begun>, said: Said) {
    match said
    case SendAll(commands, _) =>
      |was| + |commands| <= |history| && SendsOver(history[|history| - |commands|..], commands)
    case Solve(routine) => |was| < |history| && history[|history| - 1].exit.crossing == Routine(routine)
    case _ => true
  }

  lemma RecordsMore(history: seq<Begun>, moves: seq<Begun>)
    ensures forall from, to :: PairBegun(history, from, to) ==> PairBegun(history + moves, from, to)
    ensures forall rooms :: AllBegun(history, rooms) ==> AllBegun(history + moves, rooms)
    ensures forall run :: RunBegun(history, run) ==> RunBegun(history + moves, run)
  {
    var more := history + moves;
    forall from, to | PairBegun(history, from, to)
      ensures PairBegun(more, from, to)
    {
      var i :| 0 <= i < |history| && history[i].from == from && history[i].exit.to == to;
      assert more[i] == history[i];
    }
    forall rooms | AllBegun(history, rooms)
      ensures AllBegun(more, rooms)
    {
      RoomsBegunMore(history, moves, rooms);
    }
    forall run | RunBegun(history, run)
      ensures RunBegun(more, run)
    {
      var i :| 0 <= i < |history|
        && history[i].from == run.leaving && history[i].exit.to == run.expected && StepsOf(history[i].exit.crossing) == run.steps;
      assert more[i] == history[i];
    }
  }

  lemma SameRunBegun(history: seq<Begun>, a: Run, b: Run)
    requires a.leaving == b.leaving && a.expected == b.expected && a.steps == b.steps
    ensures RunBegun(history, a) <==> RunBegun(history, b)
  {
  }

  lemma SentIsBacked(history: seq<Begun>, moves: seq<Begun>, said: Said)
    requires said.SendAll? && SendsOver(moves, said.commands)
    ensures Backed(history, history + moves, said)
  {
    CutApart(history, moves);
  }

  /** The rooms still expected of a batch are ones it was sent to. */
  lemma LandedBegun(history: seq<Begun>, b: Batch, here: RoomId, ms: nat)
    requires AllBegun(history, b.expected)
    ensures AllBegun(history, LandedAt(b, here, ms).0.expected)
  {
  }

  /** The crossing under way is not over yet. */
  predicate GoesOn(out: Out) {
    out.Sends? || out.Does? || out.Holds?
  }

  /** The steps asked for beside the plan, begun from a room. */
  function AsideRun(here: RoomId, steps: seq<Step>, to: Option<RoomId>, owes: set<Debt>): (r: Run) {
    Run(here, here, if to.Some? then to.value else NOWHERE, steps, 0, owes)
  }

  /** On its feet, and its own. */
  predicate Upright(w: World) {
    !w.walker.stunned && !w.walker.posture.Down?
  }

  /** What an aside is told to have come to, by its steps' answer. */
  function AsideTells(out: Out): (said: Said) {
    match out
    case Sends(command) => Send(command)
    case Does(deed) => Do(deed)
    case Holds => Hold
    case Done => Beside(true)
    case Believes(_) => Beside(true)
    case _ => Beside(false)
  }

  /** The crossing of the plan's next exit, as it would begin from `here`. */
  function NextRun(w: World, banned: set<Pair>, owes: set<Debt>, here: RoomId, way: seq<RoomId>): (r: Option<Run>) {
    if way == [] then None
    else match ExitBetween(w, banned, here, way[0])
      case None => None
      case Some(e) =>
        if e.crossing.Command? || e.crossing.Steps? then Some(Run(here, here, way[0], StepsOf(e.crossing), 0, owes)) else None
  }

  /** What a plan made from here would first cross. */
  function PlannedRun(w: World, banned: set<Pair>, owes: set<Debt>, here: RoomId, goal: RoomId): (r: Option<Run>) {
    match w.path(here, goal, banned)
    case None => None
    case Some(way) => NextRun(w, banned, owes, here, way)
  }

  /** What a step of a tick must account for. */
  datatype Before = Before(history: seq<Begun>, banned: set<Pair>, owes: set<Debt>, plans: nat, inStep: bool, asideRuns: bool, beside: bool,
                           run: Option<Run>)

  /** Crossing `run` was begun since the record was `from` long. */
  ghost predicate BegunSince(from: nat, history: seq<Begun>, run: Run) {
    exists i :: from <= i < |history| && IsOf(history[i], run)
  }

  ghost predicate IsOf(begun: Begun, run: Run) {
    begun.from == run.leaving && begun.exit.to == run.expected && StepsOf(begun.exit.crossing) == run.steps
  }

  /** The same crossing, further on perhaps. */
  ghost predicate SameCrossing(a: Run, b: Run) {
    a.leaving == b.leaving && a.expected == b.expected && a.steps == b.steps
  }

  /** A planned crossing under way was begun in this tick, or was under way before it and no
      other plan was made. */
  ghost predicate OwnCrossing(b: Before, history: seq<Begun>, plans: nat, run: Option<Run>) {
    run.Some? ==>
      || BegunSince(|b.history|, history, run.value)
      || (b.run.Some? && b.plans == plans && SameCrossing(b.run.value, run.value))
  }

  lemma BegunLater(from: nat, later: nat, history: seq<Begun>, more: seq<Begun>, run: Run, now: Run)
    requires history <= more && from <= later && SameCrossing(run, now)
    ensures BegunSince(from, history, run) ==> BegunSince(from, more, now)
    ensures BegunSince(later, more, now) ==> BegunSince(from, more, now)
  {
    if BegunSince(from, history, run) {
      var i :| from <= i < |history| && IsOf(history[i], run);
      assert IsOf(more[i], now);
    }
  }

  /** What every step of a tick keeps: the laws, the bans and the books; no debt goes but with
      the deed that pays it, what is sent ahead or handed over is on record, an aside's answer
      is only told of an aside, and a planned crossing under way is the step's own. */
  ghost predicate KeptBy(b: Before, now: Before, answers: Answers, said: Said) {
    && b.plans <= now.plans && b.history <= now.history && b.banned <= now.banned
    && (b.inStep ==> now.inStep) && (b.asideRuns ==> now.asideRuns)
    && (b.inStep && Careful(answers) ==> Accounted(b.owes, now.owes, said))
    && Backed(b.history, now.history, said) && InForce(b.banned, b.history, now.history)
    && (b.asideRuns && said.Beside? ==> b.beside)
    && OwnCrossing(b, now.history, now.plans, now.run)
  }

  /** What comes before a step of a tick: the record and the bans only grow, nothing owed is
      touched, and a planned crossing under way is the step's own. */
  ghost predicate LeadsTo(b: Before, mid: Before) {
    && b.plans <= mid.plans && b.history <= mid.history && b.banned <= mid.banned && b.owes == mid.owes
    && (b.inStep ==> mid.inStep) && (b.asideRuns ==> mid.asideRuns) && (b.asideRuns && mid.beside ==> b.beside)
    && InForce(b.banned, b.history, mid.history)
    && OwnCrossing(b, mid.history, mid.plans, mid.run)
  }

  lemma KeptStill(b: Before, answers: Answers, said: Said)
    requires !said.SendAll? && !said.Solve? && !said.Beside?
    ensures KeptBy(b, b, answers, said) && LeadsTo(b, b)
  {}

  lemma KeptFrom(b: Before, mid: Before, now: Before, answers: Answers, said: Said)
    requires LeadsTo(b, mid) && KeptBy(mid, now, answers, said)
    ensures KeptBy(b, now, answers, said)
  {
    assert InForce(b.banned, b.history, now.history) by {
      InForceThrough(b.banned, b.history, mid.banned, mid.history, now.history);
    }
    if now.run.Some? {
      if BegunSince(|mid.history|, now.history, now.run.value) {
        BegunLater(|b.history|, |mid.history|, mid.history, now.history, now.run.value, now.run.value);
      } else if BegunSince(|b.history|, mid.history, mid.run.value) {
        BegunLater(|b.history|, |mid.history|, mid.history, now.history, mid.run.value, now.run.value);
      }
    }
  }

  /** What is sent ahead keeps what every step keeps. */
  lemma KeptAhead(b: Before, moves: seq<Begun>, answers: Answers, said: Said)
    requires InForce(b.banned, b.history, b.history + moves)
    requires said == Hold || (said.SendAll? && SendsOver(moves, said.commands))
    ensures KeptBy(b, b.(history := b.history + moves), answers, said)
  {
    if said.SendAll? {
      SentIsBacked(b.history, moves, said);
    }
  }

  lemma InForceThrough(banned: set<Pair>, was: seq<Begun>, more: set<Pair>, mid: seq<Begun>, history: seq<Begun>)
    requires InForce(banned, was, mid) && InForce(more, mid, history) && banned <= more
    ensures InForce(banned, was, history)
  {
    forall i {:trigger history[i]} | |was| <= i < |history|
      ensures banned <= history[i].banned
    {
      assert i < |mid| ==> history[i] == mid[i];
    }
  }

  /** A crossing begun in a step is over no exit that was banned when the step began. */
  lemma NotBanned(b: Before, now: Before, answers: Answers, said: Said, pair: Pair)
    requires KeptBy(b, now, answers, said) && Lawful(now.history, now.banned) && b.run.None? && pair in b.banned
    ensures now.run.Some? ==> (now.run.value.leaving, now.run.value.expected) != pair
  {
    if now.run.Some? {
      var i :| |b.history| <= i < |now.history| && IsOf(now.history[i], now.run.value);
      BannedIsNeverCrossed(now.history, now.banned, i, i);
      assert b.banned <= now.history[i].banned;
    }
  }

  /** The number the first typeahead refusal among the lines names. */
  function Named(read: seq<Line>): (n: Option<nat>) {
    if read == [] then None
    else if read[0].typeahead.Some? then read[0].typeahead
    else Named(read[1..])
  }

  /** What was heard since the last tick. */
  datatype Ears = Ears(feedback: seq<Feedback>, lines: seq<Line>, couldNot: bool)

  /** Getting up before a crossing: how often it was tried and when last, until when the
      roundtime lasts, and whether it is no use. */
  datatype Feet = Feet(stands: nat, sent: Option<nat>, rtUntil: nat, waived: bool) {
    /** After lines heard while a `stand` is unanswered. */
    function Heard(said: seq<Feedback>, read: seq<Line>, ms: nat): (f: Feet) {
      if sent.None? then this
      else this.(rtUntil := RoundtimeUntil(rtUntil, said, ms),
                 waived := waived || exists i :: 0 <= i < |read| && read[i].cannotStand)
    }

    predicate Waiting(ms: nat) {
      sent.Some? && (ms < sent.value + STAND_TIMEOUT_MS || ms < rtUntil)
    }

    predicate MayStand(ms: nat) {
      !Waiting(ms) && stands < MAX_STANDS
    }
  }

  class Trip {
    const goal: RoomId
    var ahead: seq<RoomId>
    var run: Option<Run>
    var banned: set<Pair>
    var wrong: seq<Pair>
    var plans: nat
    var ended: Option<Why>
    var ears: Ears
    var deafUntil: nat
    var believed: Option<Pair>
    var firstRoom: Option<RoomId>
    var leftFirstRoom: bool
    var feet: Feet
    var owes: set<Debt>
    var routine: Option<(RoomId, RoomId, RoomId)>
    var aside: Option<(seq<Step>, Option<RoomId>)>
    var inAside: bool
    var draws: nat
    var pace: Option<Pace>
    var batch: Option<Batch>
    var settleUntil: nat
    var settledAt: RoomId
    /** Every planned crossing, routine and batched move begun so far. */
    ghost var history: seq<Begun>
    /** The time of the last tick. */
    ghost var clock: nat

    ghost predicate Valid()
      reads this
    {
      && plans <= MAX_REPLANS + 1 && Lawful(history, banned)
      && (run.Some? && !inAside ==> RunBegun(history, run.value))
      && (routine.Some? ==> PairBegun(history, routine.value.0, routine.value.1))
      && (batch.Some? ==> AllBegun(history, batch.value.expected))
      && (routine.Some? ==> batch.None? && settleUntil <= clock)
      && (ended.Some? ==> batch.None? && settleUntil <= clock && (inAside || routine.None?))
    }

    /** The crossing under way owes what the trip owes. */
    ghost predicate InStep()
      reads this
    {
      run.Some? && ended.None? ==> run.value.owes == owes
    }

    /** Beside the plan means that something is under way. */
    ghost predicate AsideRuns()
      reads this
    {
      inAside ==> run.Some?
    }

    static ghost function MarkOf(history: seq<Begun>, banned: set<Pair>, owes: set<Debt>, plans: nat, run: Option<Run>, going: bool,
                                 inAside: bool, asked: bool): (b: Before)
    {
      Before(history, banned, owes, plans, run.Some? && going ==> run.value.owes == owes, inAside ==> run.Some?,
             inAside || asked, if inAside then None else run)
    }

    ghost function Mark(): (b: Before)
      reads this
    {
      MarkOf(history, banned, owes, plans, run, ended.None?, inAside, aside.Some?)
    }

    /** The planned crossing under way. */
    ghost function Planned(): (r: Option<Run>)
      reads this
    {
      if inAside then None else run
    }

    /** How many more times the trip may plan. */
    function Left(): (n: int)
      reads this
    {
      MAX_REPLANS + 1 - plans
    }

    constructor (goal: RoomId)
      ensures Valid() && InStep() && AsideRuns() && this.goal == goal && ended.None? && owes == {} && plans == 0 && history == []
      ensures run.None? && !inAside && aside.None? && banned == {} && believed.None? && batch.None? && settleUntil == clock == 0 && draws == 0
    {
      this.goal := goal;
      ahead, run, banned, wrong, plans, ended := [], None, {}, [], 0, None;
      ears, deafUntil, believed := Ears([], [], false), 0, None;
      firstRoom, leftFirstRoom, feet := None, false, Feet(0, None, 0, false);
      owes, routine, aside, inAside, draws := {}, None, None, false, 0;
      pace, batch, settleUntil, settledAt := None, None, 0, 0;
      history, clock := [], 0;
    }

    /** Where the walker is taken to be. */
    function Where(seen: RoomId): (here: RoomId)
      reads this
    {
      if believed.Some? && believed.value.0 == seen then believed.value.1 else seen
    }

    /** The trip is over for a walker seen in this room: it is at the goal with nothing under
        way, or has ended short, and nothing waits to be looked at first. */
    ghost predicate Over(seen: RoomId)
      reads this
    {
      && aside.None? && batch.None? && settleUntil <= clock && (inAside || routine.None?)
      && (ended.Some? || (Where(seen) == goal && run.None?))
    }

    /** An answer that ends the trip is true: arrived, at the goal with nothing under way,
        or failed for the reason kept; and the trip is over. */
    ghost predicate Ends(said: Said, seen: RoomId)
      reads this
    {
      && (said.Arrived? ==> Where(seen) == goal && run.None?)
      && (said.Failed? ==> ended == Some(said.why))
      && (Terminal(said) ==> Over(seen))
    }

    // ---------------------------------------------------------- from outside

    method Ban(from: RoomId, to: RoomId)
      requires Valid()
      modifies `banned, `ahead
      ensures Valid() && banned == old(banned) + {(from, to)} && ahead == []
    {
      LawfulMore(history, banned, banned + {(from, to)});
      banned := banned + {(from, to)};
      ahead := [];
    }

    /** The driver could not send the last command. Its crossing is banned, its debts are the
        trip's, and the plan is dropped; `inAside` stays as it was, so that it is left set with
        no crossing exactly when it was set. */
    method CannotSend()
      requires Valid()
      modifies `banned, `ahead, `run, `owes
      ensures Valid() && InStep() && ahead == [] && run.None?
      ensures old(run).Some? ==> banned == old(banned) + {(old(run).value.leaving, old(run).value.expected)} && owes == old(run).value.owes
      ensures old(run).None? ==> banned == old(banned) && owes == old(owes)
      ensures AsideRuns() <==> !old(inAside)
    {
      if run.Some? {
        var pair := (run.value.leaving, run.value.expected);
        LawfulMore(history, banned, banned + {pair});
        banned, owes, run := banned + {pair}, run.value.owes, None;
      }
      ahead := [];
    }

    method Heard(line: Line, said: seq<Feedback>)
      requires Valid()
      modifies `ears
      ensures Valid() && ears == old(ears).(feedback := old(ears).feedback + said, lines := old(ears).lines + [line])
    {
      ears := ears.(feedback := ears.feedback + said, lines := ears.lines + [line]);
    }

    method CouldNot()
      requires Valid()
      modifies `ears
      ensures Valid() && ears == old(ears).(couldNot := true)
    {
      ears := ears.(couldNot := true);
    }

    method Aside(steps: seq<Step>, to: Option<RoomId>)
      requires Valid()
      modifies `aside
      ensures Valid() && aside == Some((steps, to))
    {
      aside := Some((steps, to));
    }

    // ---------------------------------------------------------- debts

    /** Takes the first debt off, and answers with the deed that pays it. */
    method NextOwed() returns (deed: Option<Deed>)
      requires Valid()
      modifies `owes
      ensures Valid()
      ensures old(owes) == {} ==> deed.None? && owes == {}
      ensures old(owes) != {} ==> deed == Some(Payment(First(old(owes)).value)) && owes == old(owes) - {First(old(owes)).value}
    {
      var first := First(owes);
      if first.None? {
        return None;
      }
      owes := owes - {first.value};
      return Some(Payment(first.value));
    }

    /** Everything owed, in order; taking it clears it. A crossing under way that owes
        anything keeps its own account, and its next tick makes that the trip's again. */
    method Owed() returns (deeds: seq<Deed>)
      requires Valid()
      modifies `owes
      ensures Valid() && deeds == Bill(old(owes)) && owes == {}
      ensures InStep() <==> (run.Some? && ended.None? ==> run.value.owes == {})
    {
      deeds := [];
      Nothing(Bill(owes));
      while owes != {}
        invariant Valid()
        invariant deeds + Bill(owes) == Bill(old(owes))
        decreases |owes|
      {
        ghost var had := owes;
        var deed := NextOwed();
        PaidOff(deeds, had, deed.value);
        deeds := deeds + [deed.value];
      }
      assert Bill(owes) == [];
      Nothing(deeds);
    }

    // ---------------------------------------------------------- standing up

    /** Stands before a move, one `stand` at a time and only so many; none: go on and cross. */
    method StandFirst(walker: Walker, steps: seq<Step>, ms: nat) returns (said: Option<Said>)
      requires Valid()
      modifies `feet
      ensures Valid()
      ensures said.Some? ==> said.value == Hold || said.value == Send("stand")
      ensures said.Some? ==> walker.posture.Down? && !Afloat(steps) && !old(feet).waived
      ensures said == Some(Send("stand")) ==> old(feet).MayStand(ms) && feet == old(feet).(stands := old(feet).stands + 1, sent := Some(ms))
      ensures said != Some(Send("stand")) ==> feet.stands == old(feet).stands
    {
      if !walker.posture.Down? {
        feet := feet.(sent := None, waived := false);
        return None;
      }
      if Afloat(steps) || feet.waived {
        return None;
      }
      if feet.Waiting(ms) {
        return Some(Hold);
      }
      if feet.stands >= MAX_STANDS {
        return None;
      }
      feet := feet.(stands := feet.stands + 1, sent := Some(ms));
      return Some(Send("stand"));
    }

    // ---------------------------------------------------------- planning

    method Fail(why: Why) returns (said: Said)
      requires Valid() && batch.None? && settleUntil <= clock && (inAside || routine.None?)
      modifies `ended, `run, `ahead
      ensures Valid() && said == Failed(why) && ended == Some(why) && run.None? && ahead == []
    {
      ended, run, ahead := Some(why), None, [];
      return Failed(why);
    }

    /** Plans from `here`, over what the trip's own pricing admits. */
    method Plan(w: World, here: RoomId) returns (why: Option<Why>)
      requires Valid()
      modifies `plans, `ahead
      ensures Valid()
      ensures old(plans) > MAX_REPLANS ==> why == Some(TooManyReplans) && plans == old(plans) && ahead == old(ahead)
      ensures old(plans) <= MAX_REPLANS ==> plans == old(plans) + 1
      ensures why.None? <==> old(plans) <= MAX_REPLANS && w.path(here, goal, banned).Some?
      ensures why.None? ==> Some(ahead) == w.path(here, goal, banned)
    {
      if plans > MAX_REPLANS {
        return Some(TooManyReplans);
      }
      plans := plans + 1;
      var path := w.path(here, goal, banned);
      if path.None? {
        return Some(NoRoute);
      }
      ahead := path.value;
      return None;
    }

    // ---------------------------------------------------------- sending ahead

    /** Nothing goes ahead on the trip's first move, beside a routine, or off its feet. */
    predicate MaySend(w: World)
      reads this
    {
      leftFirstRoom && !inAside && run.None? && w.walker.posture.Standing? && !w.walker.stunned
    }

    /** The exit is crossed by a single command that holds no placeholder. */
    predicate Plain(e: Exit) {
      e.crossing.Command? && '{' !in e.crossing.command
    }

    /** The moves from `from` that may go ahead, at most `room` of them. */
    method Gather(w: World, from: RoomId, room: nat) returns (commands: seq<string>, rooms: seq<RoomId>, ghost moves: seq<Begun>)
      requires Valid()
      ensures Recorded(moves, commands, rooms) && |rooms| <= room && rooms <= ahead
      ensures Lawful(history + moves, banned) && forall k :: 0 <= k < |moves| ==> moves[k].banned == banned
    {
      commands, rooms, moves := [], [], [];
      Nothing(history);
      var leaving := from;
      while |rooms| < room && |rooms| < |ahead|
        invariant Recorded(moves, commands, rooms) && |rooms| <= room && rooms <= ahead
        invariant Lawful(history + moves, banned) && forall k :: 0 <= k < |moves| ==> moves[k].banned == banned
        decreases room - |rooms|
      {
        var next := ahead[|rooms|];
        var exit := ExitBetween(w, banned, leaving, next);
        if exit.None? || !Plain(exit.value) {
          return;
        }
        ExitIsAdmitted(w, banned, leaving, next);
        LawfulWith(history + moves, w, banned, leaving, next);
        JoinAssociates(history, moves, [Begun(w, banned, leaving, exit.value)]);
        moves := moves + [Begun(w, banned, leaving, exit.value)];
        commands, rooms := commands + [exit.value.crossing.command], rooms + [next];
        leaving := next;
      }
    }

    /** Moves sent and not yet landed. */
    function Outstanding(): (n: nat)
      reads this
    {
      if batch.Some? then |batch.value.expected| else 0
    }

    /** The moves are on record, and the batch expects their rooms. */
    method PutAhead(rooms: seq<RoomId>, here: RoomId, ms: nat, ghost moves: seq<Begun>)
      requires Valid() && ended.None? && (batch.Some? || routine.None?)
      requires rooms <= ahead && |moves| == |rooms| && forall k :: 0 <= k < |moves| ==> moves[k].exit.to == rooms[k]
      requires Lawful(history + moves, banned)
      modifies `ahead, `batch, `history
      ensures Valid() && history == old(history) + moves && ahead == old(ahead)[|rooms|..]
      ensures batch == Some(if old(batch).Some? then old(batch).value.(expected := old(batch).value.expected + rooms) else Batch(rooms, here, ms))
    {
      RecordsMore(history, moves);
      RoomsBegun(history, moves, rooms);
      RoomsJoin(history + moves, if batch.Some? then batch.value.expected else [], rooms);
      ahead := ahead[|rooms|..];
      batch := Some(if batch.Some? then batch.value.(expected := batch.value.expected + rooms) else Batch(rooms, here, ms));
      history := history + moves;
    }

    /** Sends a batch along the plan, as long as the pace has room for; none when there is
        nothing to send so. */
    method SendAhead(w: World, here: RoomId, ms: nat) returns (said: Option<Said>, ghost moves: seq<Begun>)
      requires Valid() && ended.None? && (batch.Some? || inAside || routine.None?)
      modifies `pace, `ahead, `batch, `history
      ensures Valid() && history == old(history) + moves && InForce(banned, old(history), history)
      ensures said.None? ==> ahead == old(ahead) && batch == old(batch) && moves == []
      ensures said.Some? ==> said.value.SendAll? && batch.Some? && old(MaySend(w)) && pace.Some?
      ensures said.Some? ==> var n := |said.value.commands|; 0 < n <= |old(ahead)| && ahead == old(ahead)[n..]
      ensures said.Some? ==> Recorded(moves, said.value.commands, old(ahead)[..|said.value.commands|])
      ensures said.Some? ==> Outstanding() == old(Outstanding()) + |said.value.commands|
      ensures said.Some? ==> Outstanding() <= pace.value.Depth() && said.value.gapMs == pace.value.gapMs
    {
      Nothing(history);
      if !MaySend(w) {
        return None, [];
      }
      if pace.None? {
        pace := Some(Pace(w.walker.typeahead, GAP_MS, None));
      }
      var room := if pace.value.Depth() >= Outstanding() then pace.value.Depth() - Outstanding() else 0;
      var commands;
      commands, moves := SendUpTo(w, here, room, ms);
      said := if commands == [] then None else Some(SendAll(commands, pace.value.gapMs));
    }

    /** Sends up to `room` moves of the plan; a single one only into a batch that is out. */
    method SendUpTo(w: World, here: RoomId, room: nat, ms: nat) returns (commands: seq<string>, ghost moves: seq<Begun>)
      requires Valid() && ended.None? && (batch.Some? || routine.None?)
      modifies `ahead, `batch, `history
      ensures Valid() && history == old(history) + moves && InForce(banned, old(history), history)
      ensures commands == [] ==> ahead == old(ahead) && batch == old(batch) && moves == []
      ensures commands != [] ==> batch.Some? && |commands| <= room && |commands| <= |old(ahead)| && ahead == old(ahead)[|commands|..]
      ensures commands != [] ==> Recorded(moves, commands, old(ahead)[..|commands|])
      ensures commands != [] ==> Outstanding() == old(Outstanding()) + |commands|
      ensures |commands| == 1 ==> old(batch).Some?
    {
      Nothing(history);
      var leaving := if Outstanding() > 0 then batch.value.expected[Outstanding() - 1] else here;
      var rooms;
      commands, rooms, moves := Gather(w, leaving, room);
      if commands == [] || (batch.None? && |commands| < 2) {
        return [], [];
      }
      AllInForce(banned, history, moves);
      PutAhead(rooms, here, ms, moves);
      assert rooms == old(ahead)[..|commands|];
    }

    /** How a batch under way stands: stopped by anything the game says of a move, else as
        its rooms have landed. */
    function Standing(here: RoomId, heard: seq<Feedback>, ms: nat): (r: (Batch, Ahead))
      requires batch.Some?
      reads this
    {
      if heard == [] then LandedAt(batch.value, here, ms) else (batch.value, Stop)
    }

    /** One tick of the batch that is out, or of the stillness after one was stopped; none when
        the trip may go on. */
    method BatchTick(w: World, here: RoomId, heard: seq<Feedback>, read: seq<Line>, ms: nat)
      returns (said: Option<Said>, ghost moves: seq<Begun>)
      requires Valid() && clock == ms
      modifies `pace, `ahead, `batch, `history, `settleUntil, `settledAt
      ensures Valid() && history == old(history) + moves && |ahead| <= |old(ahead)| && InForce(banned, old(history), history)
      ensures said.Some? ==> said.value.SendAll? || said.value == Hold
      ensures said.Some? && said.value.SendAll? ==>
                var n := |said.value.commands|; n <= |old(ahead)| && Recorded(moves, said.value.commands, old(ahead)[..n])
      ensures said.None? ==> batch.None? && settleUntil <= clock && ahead == old(ahead)
      ensures !(said.Some? && said.value.SendAll?) ==> moves == []
      ensures ms < old(settleUntil) ==>
                said == Some(Hold) && batch == old(batch) && ahead == old(ahead) && pace == old(pace) && settledAt == here
                && settleUntil == if here == old(settledAt) then old(settleUntil) else ms + SETTLE_MS
      ensures old(settleUntil) <= ms && old(batch).None? ==>
                said.None? && settleUntil == old(settleUntil) && settledAt == old(settledAt) && pace == old(pace)
      ensures old(settleUntil) <= ms && old(batch).Some? ==>
                match old(Standing(here, heard, ms)).1
                case Landed => said.None? && settleUntil == old(settleUntil) && pace == old(pace)
                case Landing => said.Some? && batch.Some? && settleUntil == old(settleUntil)
                case Stop =>
                  && said == Some(Hold) && batch.None? && ahead == [] && settledAt == here && settleUntil == ms + SETTLE_MS
                  && pace == (if TypeAhead in heard && old(pace).Some?
                              then Some(old(pace).value.Refused(Named(read), |old(batch).value.expected|)) else old(pace))
    {
      moves := [];
      Nothing(history);
      if ms < settleUntil {
        if here != settledAt {
          settledAt, settleUntil := here, ms + SETTLE_MS;
        }
        return Some(Hold), [];
      }
      if batch.None? {
        return None, [];
      }
      var (now, how) := Standing(here, heard, ms);
      LandedBegun(history, batch.value, here, ms);
      match how
      case Landing =>
        batch := Some(now);
        said, moves := SendAhead(w, here, ms);
        if said.None? {
          said := Some(Hold);
        }
      case Landed =>
        batch := None;
        said := None;
      case Stop =>
        StopBatch(here, heard, read, ms);
        said := Some(Hold);
    }

    /** Stops the batch and begins to wait for stillness; a refusal slows the pace. */
    method StopBatch(here: RoomId, heard: seq<Feedback>, read: seq<Line>, ms: nat)
      requires Valid() && batch.Some?
      modifies `pace, `ahead, `batch, `settleUntil, `settledAt
      ensures Valid() && batch.None? && ahead == [] && settledAt == here && settleUntil == ms + SETTLE_MS
      ensures pace == if TypeAhead in heard && old(pace).Some?
                      then Some(old(pace).value.Refused(Named(read), |old(batch).value.expected|)) else old(pace)
    {
      if TypeAhead in heard && pace.Some? {
        pace := Some(pace.value.Refused(Named(read), |batch.value.expected|));
      }
      batch, ahead := None, [];
      settledAt, settleUntil := here, ms + SETTLE_MS;
    }

    /** A tick of the batch, with what it says on record. */
    method BatchSays(w: World, answers: Answers, here: RoomId, heard: seq<Feedback>, read: seq<Line>, ms: nat)
      returns (said: Option<Said>)
      requires Valid() && clock == ms
      modifies `pace, `ahead, `batch, `history, `settleUntil, `settledAt
      ensures Valid() && InForce(banned, old(history), history) && |ahead| <= |old(ahead)|
      ensures said.Some? ==> (said.value.SendAll? || said.value == Hold) && Kept(old(Mark()), answers, said.value)
      ensures said.None? ==> batch.None? && settleUntil <= clock && ahead == old(ahead) && Mark() == old(Mark())
      ensures old(batch).None? && old(settleUntil) <= ms ==> said.None?
      ensures old(batch).None? ==> history == old(history)
    {
      ghost var moves, b := [], Mark();
      said, moves := BatchTick(w, here, heard, read, ms);
      Nothing(b.history);
      assert Mark() == b.(history := b.history + moves);
      if said.Some? {
        KeptAhead(b, moves, answers, said.value);
      }
    }

    // ---------------------------------------------------------- beside the plan

    /** The steps asked for beside the plan, begun from `here`; what is owed is theirs too. */
    method BeginAside(here: RoomId)
      requires Valid()
      modifies `aside, `run, `inAside
      ensures Valid() && aside.None?
      ensures old(aside).None? ==> run == old(run) && inAside == old(inAside)
      ensures old(aside).Some? ==> inAside && run == old(AsideNext(here))
      ensures old(InStep()) ==> InStep()
      ensures old(AsideRuns()) ==> AsideRuns()
    {
      if aside.Some? {
        var (steps, to) := aside.value;
        run := Some(AsideRun(here, steps, to, owes));
        aside, inAside := None, true;
      }
    }

    /** The crossing beside the plan that the next tick is one of. */
    ghost function AsideNext(here: RoomId): (r: Option<Run>)
      reads this
    {
      if aside.Some? then Some(AsideRun(here, aside.value.0, aside.value.1, owes)) else if inAside then run else None
    }

    /** Nothing comes before what is under way. */
    ghost predicate Free(ms: nat)
      reads this
    {
      ended.None? && batch.None? && settleUntil <= ms
    }

    /** A tick was one of this crossing beside the plan: its answer is told, and it goes on, or
        is over; the plan is not touched. */
    ghost predicate AsideWent(answers: Answers, n: nat, r: Run, seen: RoomId, here: RoomId, ms: nat, banned0: set<Pair>, plans0: nat, said: Said)
      reads this
    {
      var a := answers(n, r);
      && said == AsideTells(a.out) && draws == n && banned == banned0 && plans == plans0 && Where(seen) == here
      && aside.None? && Free(ms)
      && (if GoesOn(a.out) then inAside && run == Some(r.(at := a.at, owes := a.owes)) else !inAside && run.None?)
    }

    /** Tells the answer of a crossing beside the plan, which goes on or is over. */
    method AsideSaid(r: Run, out: Out, ms: nat) returns (said: Said)
      requires Valid() && run.None? && inAside && ended.None?
      modifies `run, `inAside, `deafUntil
      ensures Valid() && said == AsideTells(out)
      ensures if GoesOn(out) then run == Some(r) && inAside else !inAside && run.None?
    {
      match out
      case Sends(command) =>
        run := Some(r);
        return Send(command);
      case Does(deed) =>
        run := Some(r);
        return Do(deed);
      case Holds =>
        run := Some(r);
        return Hold;
      case Done =>
        inAside := false;
        return Beside(true);
      case Believes(_) =>
        inAside := false;
        return Beside(true);
      case _ =>
        inAside, deafUntil := false, ms + ORPHAN_MS;
        return Beside(false);
    }

    // ---------------------------------------------------------- one tick

    ghost predicate NotUnderWay(pair: Pair)
      reads this
    {
      Planned().Some? ==> (Planned().value.leaving, Planned().value.expected) != pair
    }

    /** What a tick makes of its crossing's answer: a command, a deed or a wait is passed on
        and the crossing goes on; a move believed at the goal ends the trip there; after a
        crossing that led elsewhere there is another plan, and if its exit was banned, it is
        not what is crossed next. */
    ghost predicate Heeds(a: Answer, r: Run, here: RoomId, said: Said, plans0: nat)
      reads this
    {
      && (a.out.Sends? ==> said == Send(a.out.command) && run == Some(r) && plans == plans0)
      && (a.out.Does? ==> said == Do(a.out.deed) && run == Some(r) && plans == plans0)
      && (a.out.Holds? ==> said == Hold && run == Some(r) && plans == plans0)
      && (a.out.Believes? && a.out.landed == goal ==> said == Arrived && plans == plans0)
      && (a.out.Replans? || a.out.GiveUp? || (a.out.Done? && here != r.expected) ==>
            plans > plans0 || said == Failed(TooManyReplans))
      && ((a.out.GiveUp? && a.out.ban) || (a.out.Done? && here != r.expected && here == r.from) ==>
            (r.leaving, r.expected) in banned && NotUnderWay((r.leaving, r.expected)))
    }

    /** What every step of a tick keeps. */
    ghost predicate Kept(b: Before, answers: Answers, said: Said)
      reads this
    {
      Valid() && KeptBy(b, Mark(), answers, said)
    }

    /** The trip is told to be beside its plan with nothing under way, and can plan and cross. */
    ghost predicate Stranded(w: World, here: RoomId)
      reads this
    {
      && inAside && run.None? && aside.None? && ended.None? && batch.None? && settleUntil <= clock
      && here != goal && here in w.rooms && ahead == [] && plans <= MAX_REPLANS && Upright(w)
      && PlannedRun(w, banned, owes, here, goal).Some?
    }

    /** The trip may set out: nothing is under way, and the walker is where it is taken to be. */
    ghost predicate Ready(here: RoomId, seen: RoomId, ms: nat)
      reads this
    {
      && clock == ms && ended.None? && aside.None? && batch.None? && settleUntil <= ms
      && (inAside || routine.None?) && Where(seen) == here && (believed.Some? ==> believed.value.0 == seen)
    }

    /** Throws the plan away and makes another from `here`. */
    method Replan(w: World, answers: Answers, here: RoomId, seen: RoomId, ms: nat) returns (said: Said)
      requires Valid() && Ready(here, seen, ms) && (run.None? || !inAside)
      modifies this
      decreases Left(), |ahead|, 0
      ensures Kept(old(Mark()), answers, said) && clock == ms
      ensures Ends(said, seen)
      ensures plans > old(plans) || said == Failed(TooManyReplans)
    {
      ghost var b := Mark();
      ahead, run := [], None;
      var why := Plan(w, here);
      ghost var mid := Mark();
      assert LeadsTo(b, mid);
      if why.Some? {
        said := Fail(why.value);
        KeptStill(mid, answers, said);
      } else {
        said := StepFrom(w, answers, here, seen, ms);
      }
      KeptFrom(b, mid, Mark(), answers, said);
    }

    /** Sets out from `here`: plans if nothing is planned, and begins the next crossing. */
    method StepFrom(w: World, answers: Answers, here: RoomId, seen: RoomId, ms: nat) returns (said: Said)
      requires Valid() && Ready(here, seen, ms) && run.None?
      modifies this
      decreases Left(), |ahead|, 5
      ensures Kept(old(Mark()), answers, said) && clock == ms
      ensures Ends(said, seen)
      ensures here == goal ==> said == Arrived && plans == old(plans)
      ensures here != goal && here !in w.rooms ==> said == Failed(OffTheMap) && plans == old(plans)
      ensures here != goal && here in w.rooms && old(ahead) == [] ==> plans > old(plans) || said == Failed(TooManyReplans)
      ensures old(Stranded(w, here)) ==> said == AsideTells(answers(old(draws) + 1, old(PlannedRun(w, banned, owes, here, goal)).value).out)
    {
      ghost var b := Mark();
      if here == goal {
        ahead := [];
        assert Mark() == b;
        KeptStill(b, answers, Arrived);
        return Arrived;
      }
      if here !in w.rooms {
        said := Fail(OffTheMap);
        KeptStill(b, answers, said);
        return;
      }
      if ahead == [] {
        said := PlanAlong(w, answers, here, seen, ms);
      } else {
        said := GoAlong(w, answers, here, seen, ms);
      }
    }

    /** Plans, and goes along the plan. */
    method PlanAlong(w: World, answers: Answers, here: RoomId, seen: RoomId, ms: nat) returns (said: Said)
      requires Valid() && Ready(here, seen, ms) && run.None?
      modifies this
      decreases Left(), |ahead|, 4, 1
      ensures Kept(old(Mark()), answers, said) && clock == ms
      ensures Ends(said, seen)
      ensures plans > old(plans) || said == Failed(TooManyReplans)
      ensures old(Stranded(w, here)) ==> said == AsideTells(answers(old(draws) + 1, old(PlannedRun(w, banned, owes, here, goal)).value).out)
    {
      ghost var b := Mark();
      var why := Plan(w, here);
      ghost var mid := Mark();
      assert LeadsTo(b, mid);
      if why.Some? {
        said := Fail(why.value);
        KeptStill(mid, answers, said);
      } else {
        said := GoAlong(w, answers, here, seen, ms);
      }
      KeptFrom(b, mid, Mark(), answers, said);
    }

    /** Goes along the plan: moves sent ahead, or the next crossing. */
    method GoAlong(w: World, answers: Answers, here: RoomId, seen: RoomId, ms: nat) returns (said: Said)
      requires Valid() && Ready(here, seen, ms) && run.None?
      modifies this
      decreases Left(), |ahead|, 4
      ensures Kept(old(Mark()), answers, said) && clock == ms
      ensures Ends(said, seen)
      ensures old(inAside) && Upright(w) && old(NextRun(w, banned, owes, here, ahead)).Some? ==>
                said == AsideTells(answers(old(draws) + 1, old(NextRun(w, banned, owes, here, ahead)).value).out)
    {
      var sent := SendFirst(w, answers, here, ms);
      if sent.Some? {
        return sent.value;
      }
      said := BeginNext(w, answers, here, seen, ms);
    }

    /** Moves sent ahead, if there are any to send; else nothing is touched. */
    method SendFirst(w: World, answers: Answers, here: RoomId, ms: nat) returns (sent: Option<Said>)
      requires Valid() && ended.None? && batch.None? && (inAside || routine.None?) && run.None?
      modifies `pace, `ahead, `batch, `history
      ensures Valid() && (sent.None? ==> Mark() == old(Mark()) && ahead == old(ahead) && batch == old(batch))
      ensures sent.Some? ==> Kept(old(Mark()), answers, sent.value) && sent.value.SendAll? && batch.Some? && old(MaySend(w))
    {
      ghost var moves;
      ghost var b := Mark();
      sent, moves := SendAhead(w, here, ms);
      Nothing(b.history);
      assert Mark() == b.(history := b.history + moves);
      if sent.Some? {
        KeptAhead(b, moves, answers, sent.value);
      }
    }

    /** The exit the plan takes next is one to pass through. */
    ghost predicate Passes(w: World, here: RoomId)
      reads this
    {
      ahead != [] && ExitBetween(w, banned, here, ahead[0]).Some? && ExitBetween(w, banned, here, ahead[0]).value.crossing.PassThrough?
    }

    /** The plan names an exit that is not there to take. */
    ghost predicate Blocked(w: World, here: RoomId)
      reads this
    {
      ahead != [] && ExitBetween(w, banned, here, ahead[0]).None?
    }

    /** Begins the crossing of the next exit of the plan. The room the exit leaves is `here`,
        unless the plan passes through rooms only the map has. */
    method BeginNext(w: World, answers: Answers, here: RoomId, seen: RoomId, ms: nat) returns (said: Said)
      requires Valid() && Ready(here, seen, ms) && run.None?
      modifies this
      decreases Left(), |ahead|, 3
      ensures Kept(old(Mark()), answers, said) && clock == ms
      ensures Ends(said, seen)
      ensures old(ahead) == [] ==> said == Failed(NoRoute)
      ensures old(ahead) != [] && old(Blocked(w, here)) ==> plans > old(plans) || said == Failed(TooManyReplans)
      ensures old(ahead) != [] && ExitBetween(w, old(banned), here, old(ahead)[0]).Some? ==>
                var crossing := ExitBetween(w, old(banned), here, old(ahead)[0]).value.crossing;
                crossing.Routine? ==> said == Solve(crossing.routine) && routine == Some((here, old(ahead)[0], here))
      ensures old(inAside) && Upright(w) && old(NextRun(w, banned, owes, here, ahead)).Some? ==>
                said == AsideTells(answers(old(draws) + 1, old(NextRun(w, banned, owes, here, ahead)).value).out)
    {
      var leaving := here;
      while true
        invariant Valid() && Ready(here, seen, ms) && run.None?
        invariant history == old(history) && banned == old(banned) && owes == old(owes)
        invariant inAside == old(inAside) && draws == old(draws)
        invariant plans == old(plans) && |ahead| <= |old(ahead)|
        invariant (leaving == here && ahead == old(ahead)) || old(Passes(w, here))
        decreases |ahead|
      {
        if ahead == [] {
          said := Fail(NoRoute);
          return;
        }
        var exit := ExitBetween(w, banned, leaving, ahead[0]);
        if exit.None? || !exit.value.crossing.PassThrough? {
          said := Take(w, answers, here, seen, leaving, ms);
          return;
        }
        leaving, ahead := ahead[0], ahead[1..];
      }
    }

    /** Takes the exit from `leaving` that the plan names next: a plan that names none that
        can be taken is made again. */
    method Take(w: World, answers: Answers, here: RoomId, seen: RoomId, leaving: RoomId, ms: nat) returns (said: Said)
      requires Valid() && Ready(here, seen, ms) && run.None? && ahead != []
      requires var exit := ExitBetween(w, banned, leaving, ahead[0]); exit.None? || !exit.value.crossing.PassThrough?
      modifies this
      decreases Left(), |ahead|, 2
      ensures Kept(old(Mark()), answers, said) && clock == ms
      ensures Ends(said, seen)
      ensures var exit := ExitBetween(w, old(banned), leaving, old(ahead)[0]);
              && (exit.None? ==> plans > old(plans) || said == Failed(TooManyReplans))
              && (exit.Some? && exit.value.crossing.Routine? ==>
                    said == Solve(exit.value.crossing.routine) && routine == Some((leaving, old(ahead)[0], here)))
              && (exit.Some? && old(inAside) && Upright(w) && (exit.value.crossing.Command? || exit.value.crossing.Steps?) ==>
                    said == AsideTells(answers(old(draws) + 1, Run(here, leaving, old(ahead)[0], StepsOf(exit.value.crossing), 0, old(owes))).out))
    {
      var exit := ExitBetween(w, banned, leaving, ahead[0]);
      if exit.None? || exit.value.crossing.Unported? {
        said := Replan(w, answers, here, seen, ms);
      } else if exit.value.crossing.Routine? {
        BeginRoutine(w, here, leaving);
        said := Solve(exit.value.crossing.routine);
      } else {
        said := Cross(w, answers, here, seen, leaving, StepsOf(exit.value.crossing), ms);
      }
    }

    /** The plan's next exit is handed over as a routine. */
    method BeginRoutine(w: World, here: RoomId, leaving: RoomId)
      requires Valid() && batch.None? && settleUntil <= clock && ended.None?
      requires ahead != [] && ExitBetween(w, banned, leaving, ahead[0]).Some?
      modifies `history, `ahead, `routine
      ensures Valid() && ahead == old(ahead)[1..] && routine == Some((leaving, old(ahead)[0], here))
      ensures history == old(history) + [Begun(w, banned, leaving, ExitBetween(w, banned, leaving, old(ahead)[0]).value)]
    {
      var next := ahead[0];
      ghost var begun := Begun(w, banned, leaving, ExitBetween(w, banned, leaving, next).value);
      ExitIsAdmitted(w, banned, leaving, next);
      LawfulWith(history, w, banned, leaving, next);
      RecordsMore(history, [begun]);
      history := history + [begun];
      assert history[|history| - 1] == begun;
      ahead, routine := ahead[1..], Some((leaving, next, here));
    }

    /** Stands up if need be, and begins a crossing, whose first step happens on this tick. */
    method Cross(w: World, answers: Answers, here: RoomId, seen: RoomId, leaving: RoomId, steps: seq<Step>, ms: nat) returns (said: Said)
      requires Valid() && Ready(here, seen, ms) && run.None?
      requires ahead != [] && ExitBetween(w, banned, leaving, ahead[0]).Some?
      requires StepsOf(ExitBetween(w, banned, leaving, ahead[0]).value.crossing) == steps
      modifies this
      decreases Left(), |ahead|, 1
      ensures Kept(old(Mark()), answers, said) && clock == ms
      ensures Ends(said, seen)
      ensures old(inAside) && Upright(w) ==>
                said == AsideTells(answers(old(draws) + 1, Run(here, leaving, old(ahead)[0], steps, 0, old(owes))).out)
    {
      if w.walker.stunned {
        return Hold;
      }
      var stand := StandFirst(w.walker, steps, ms);
      if stand.Some? {
        return stand.value;
      }
      said := CrossNow(w, answers, here, seen, leaving, steps, ms);
    }

    /** Begins a crossing, and ticks it. */
    method CrossNow(w: World, answers: Answers, here: RoomId, seen: RoomId, leaving: RoomId, steps: seq<Step>, ms: nat) returns (said: Said)
      requires Valid() && Ready(here, seen, ms) && run.None?
      requires ahead != [] && ExitBetween(w, banned, leaving, ahead[0]).Some?
      requires StepsOf(ExitBetween(w, banned, leaving, ahead[0]).value.crossing) == steps
      modifies this
      decreases Left(), |ahead|, 0
      ensures Kept(old(Mark()), answers, said) && clock == ms
      ensures Ends(said, seen)
      ensures old(inAside) ==>
                said == AsideTells(answers(old(draws) + 1, Run(here, leaving, old(ahead)[0], steps, 0, old(owes))).out)
    {
      BeginRun(w, here, leaving, steps);
      ghost var mid := Mark();
      said := TickInner(w, answers, if believed.Some? then believed.value.0 else here, ms);
      KeptFrom(old(Mark()), mid, Mark(), answers, said);
    }

    /** The crossing of the plan's next exit is under way. What earlier ones owe is its too. */
    method BeginRun(w: World, here: RoomId, leaving: RoomId, steps: seq<Step>)
      requires Valid() && run.None? && ahead != [] && ExitBetween(w, banned, leaving, ahead[0]).Some?
      requires StepsOf(ExitBetween(w, banned, leaving, ahead[0]).value.crossing) == steps
      modifies `history, `ahead, `feet, `run
      ensures Valid() && ahead == old(ahead)[1..] && feet == old(feet).(stands := 0, sent := None)
      ensures run == Some(Run(here, leaving, old(ahead)[0], steps, 0, owes))
      ensures history == old(history) + [Begun(w, banned, leaving, ExitBetween(w, banned, leaving, old(ahead)[0]).value)]
      ensures LeadsTo(old(Mark()), Mark())
    {
      var next := ahead[0];
      ghost var begun := Begun(w, banned, leaving, ExitBetween(w, banned, leaving, next).value);
      ExitIsAdmitted(w, banned, leaving, next);
      LawfulWith(history, w, banned, leaving, next);
      RecordsMore(history, [begun]);
      history := history + [begun];
      assert IsOf(history[|history| - 1], Run(here, leaving, next, steps, 0, owes));
      ahead, feet := ahead[1..], feet.(stands := 0, sent := None);
      run := Some(Run(here, leaving, next, steps, 0, owes));
    }

    /** Takes in what was heard since the last tick. */
    method Listen(seen: RoomId, ms: nat) returns (here: RoomId, heard: Ears)
      requires Valid()
      modifies `believed, `ears, `feet
      ensures Valid() && heard == old(ears) && ears == Ears([], [], false)
      ensures here == old(Where(seen)) == Where(seen) && (believed.Some? ==> believed.value.0 == seen)
      ensures feet == old(feet).Heard(heard.feedback, heard.lines, ms)
    {
      if !(believed.Some? && believed.value.0 == seen) {
        believed := None;
      }
      here, heard := Where(seen), ears;
      ears := Ears([], [], false);
      feet := feet.Heard(heard.feedback, heard.lines, ms);
    }

    /** A routine is over when nothing runs beside the plan; off its exit, the trip plans
        again, and one that failed or never moved is not tried again. */
    method RoutineOver(here: RoomId, failed: bool) returns (again: bool)
      requires Valid()
      modifies `routine, `banned
      ensures Valid() && old(banned) <= banned && (inAside || routine.None?)
      ensures routine == old(routine) || routine.None?
      ensures again ==> old(routine).Some? && old(routine).value.1 != here
      ensures old(routine).None? || inAside ==> !again && banned == old(banned)
      ensures again && (failed || here == old(routine).value.2) ==> (old(routine).value.0, old(routine).value.1) in banned
    {
      again := false;
      if !inAside && routine.Some? {
        var (leaving, expected, from) := routine.value;
        routine := None;
        again := here != expected;
        if again && (failed || here == from) {
          AddBan((leaving, expected));
        }
      }
    }

    method NoteRoom(here: RoomId)
      requires Valid()
      modifies `firstRoom, `leftFirstRoom
      ensures Valid() && firstRoom.Some? && (firstRoom.value != here ==> leftFirstRoom)
      ensures old(firstRoom).Some? ==> firstRoom == old(firstRoom)
    {
      if firstRoom.None? {
        firstRoom := Some(here);
      }
      if firstRoom.value != here {
        leftFirstRoom := true;
      }
    }

    /** What a tick does first: it takes in what was heard, begins what was asked for beside
        the plan, and sees whether a routine is over. */
    method Open(seen: RoomId, ms: nat) returns (here: RoomId, heard: Ears, again: bool)
      requires Valid() && clock == ms
      modifies `believed, `ears, `feet, `aside, `run, `inAside, `routine, `banned
      ensures Valid() && old(banned) <= banned && aside.None? && (inAside || routine.None?)
      ensures here == old(Where(seen)) == Where(seen) && (believed.Some? ==> believed.value.0 == seen)
      ensures heard == old(ears)
      ensures again ==> ended.None? && batch.None? && settleUntil <= ms
      ensures old(Over(seen)) ==> !again && Over(seen)
      ensures old(InStep()) ==> InStep()
      ensures old(AsideRuns()) ==> AsideRuns()
      ensures inAside == (old(inAside) || old(aside).Some?)
      ensures inAside ==> banned == old(banned)
      ensures again ==> !inAside
      ensures old(aside).None? ==> run == old(run) && inAside == old(inAside)
      ensures old(AsideNext(Where(seen))).Some? ==> inAside && run == old(AsideNext(Where(seen)))
      ensures LeadsTo(old(Mark()), Mark())
    {
      here, heard := Listen(seen, ms);
      BeginAside(here);
      again := RoutineOver(here, heard.couldNot);
    }

    /** One tick for a walker whose room is known. */
    method TickInner(w: World, answers: Answers, seen: RoomId, ms: nat) returns (said: Said)
      requires Valid() && clock == ms
      modifies this
      decreases Left(), |ahead|, 10
      ensures Kept(old(Mark()), answers, said) && clock == ms
      ensures Ends(said, seen)
      ensures old(Over(seen)) ==> Terminal(said) && owes == old(owes) && history == old(history) && plans == old(plans)
      ensures old(AsideNext(Where(seen))).Some? && old(Free(ms)) ==>
                AsideWent(answers, old(draws) + 1, old(AsideNext(Where(seen))).value, seen, old(Where(seen)), ms, old(banned), old(plans), said)
      ensures old(Stranded(w, Where(seen))) ==> said == AsideTells(answers(old(draws) + 1, old(PlannedRun(w, banned, owes, Where(seen), goal)).value).out)
    {
      ghost var b := Mark();
      ghost var beside, free := AsideNext(Where(seen)), Free(ms);
      var here, heard, again := Open(seen, ms);
      ghost var mid := Mark();
      assert beside.Some? ==> run == beside && inAside && banned == b.banned && !again;
      assert free ==> Free(ms);
      if again {
        said := Replan(w, answers, here, seen, ms);
      } else {
        said := Onward(w, answers, here, heard, seen, ms);
      }
      KeptFrom(b, mid, Mark(), answers, said);
    }

    /** The rest of a tick: the batch under way, the goal, and the crossing under way or next. */
    method Onward(w: World, answers: Answers, here: RoomId, heard: Ears, seen: RoomId, ms: nat) returns (said: Said)
      requires Valid() && clock == ms && aside.None? && (inAside || routine.None?)
      requires Where(seen) == here && (believed.Some? ==> believed.value.0 == seen)
      modifies this
      decreases Left(), |ahead|, 9
      ensures Kept(old(Mark()), answers, said) && clock == ms
      ensures Ends(said, seen)
      ensures old(Over(seen)) ==> Terminal(said) && owes == old(owes) && history == old(history) && plans == old(plans)
      ensures old(inAside) && old(run).Some? && old(Free(ms)) ==>
                AsideWent(answers, old(draws) + 1, old(run).value, seen, here, ms, old(banned), old(plans), said)
      ensures old(Stranded(w, here)) ==> said == AsideTells(answers(old(draws) + 1, old(PlannedRun(w, banned, owes, here, goal)).value).out)
    {
      var batched := BatchSays(w, answers, here, heard.feedback, heard.lines, ms);
      if batched.Some? {
        return batched.value;
      }
      said := Proceed(w, answers, here, seen, ms);
    }

    /** At the goal, or ended short, or on with the crossing under way or the next. */
    method Proceed(w: World, answers: Answers, here: RoomId, seen: RoomId, ms: nat) returns (said: Said)
      requires Valid() && clock == ms && aside.None? && (inAside || routine.None?) && batch.None? && settleUntil <= ms
      requires Where(seen) == here && (believed.Some? ==> believed.value.0 == seen)
      modifies this
      decreases Left(), |ahead|, 8
      ensures Kept(old(Mark()), answers, said) && clock == ms
      ensures Ends(said, seen)
      ensures old(Over(seen)) ==> Terminal(said) && owes == old(owes) && history == old(history) && plans == old(plans)
      ensures old(inAside) && old(run).Some? && old(ended).None? ==>
                AsideWent(answers, old(draws) + 1, old(run).value, seen, here, ms, old(banned), old(plans), said)
      ensures old(Stranded(w, here)) ==> said == AsideTells(answers(old(draws) + 1, old(PlannedRun(w, banned, owes, here, goal)).value).out)
    {
      ghost var b := Mark();
      if here == goal && run.None? {
        ahead := [];
        assert Mark() == b;
        KeptStill(b, answers, Arrived);
        return Arrived;
      }
      if ended.Some? {
        KeptStill(b, answers, Failed(ended.value));
        return Failed(ended.value);
      }
      NoteRoom(here);
      assert Mark() == b;
      if run.None? {
        said := StepFrom(w, answers, here, seen, ms);
      } else {
        said := Crossing(w, answers, here, seen, ms);
      }
    }

    /** The crossing's own tick. What it then owes is what the trip owes. */
    method TickRun(answers: Answers) returns (r: Run, out: Out)
      requires Valid() && run.Some? && ended.None?
      modifies `draws, `run, `owes
      ensures Valid() && run.None? && r.owes == owes && draws == old(draws) + 1
      ensures !inAside ==> RunBegun(history, r)
      ensures var answer := answers(draws, old(run).value);
              r == old(run).value.(at := answer.at, owes := answer.owes) && out == answer.out
      ensures Careful(answers) && old(InStep()) ==> Accounted(old(owes), owes, Asked(out))
    {
      draws := draws + 1;
      var answer := answers(draws, run.value);
      r, out := run.value.(at := answer.at, owes := answer.owes), answer.out;
      assert !inAside ==> RunBegun(history, run.value);
      run, owes := None, answer.owes;
      assert !inAside ==> RunBegun(history, r) by {
        SameRunBegun(history, old(run).value, r);
      }
    }

    /** The crossing goes on. */
    method GoOn(r: Run, out: Out) returns (said: Said)
      requires Valid() && run.None? && !inAside && RunBegun(history, r) && GoesOn(out)
      modifies `run
      ensures Valid() && run == Some(r)
      ensures said == match out case Sends(command) => Send(command) case Does(deed) => Do(deed) case _ => Hold
    {
      run := Some(r);
      match out
      case Sends(command) => return Send(command);
      case Does(deed) => return Do(deed);
      case _ => return Hold;
    }

    /** One tick of the crossing under way. */
    method Crossing(w: World, answers: Answers, here: RoomId, seen: RoomId, ms: nat) returns (said: Said)
      requires Valid() && Ready(here, seen, ms) && run.Some?
      modifies this
      decreases Left(), |ahead|, 7
      ensures Kept(old(Mark()), answers, said) && clock == ms
      ensures Ends(said, seen)
      ensures var a := answers(old(draws) + 1, old(run).value);
              var r := old(run).value.(at := a.at, owes := a.owes);
              if old(inAside) then AsideWent(answers, old(draws) + 1, old(run).value, seen, here, ms, old(banned), old(plans), said)
              else Heeds(a, r, here, said, old(plans))
    {
      if inAside {
        said := AsideTick(answers, ms);
      } else {
        var r, out := TickRun(answers);
        if GoesOn(out) {
          said := GoOn(r, out);
        } else {
          said := Leave(w, answers, r, out, here, seen, ms);
        }
      }
    }

    /** One tick of the steps beside the plan. */
    method AsideTick(answers: Answers, ms: nat) returns (said: Said)
      requires Valid() && run.Some? && inAside && ended.None?
      modifies `draws, `run, `owes, `inAside, `deafUntil
      ensures Kept(old(Mark()), answers, said) && draws == old(draws) + 1
      ensures var a := answers(draws, old(run).value);
              && said == AsideTells(a.out)
              && (if GoesOn(a.out) then inAside && run == Some(old(run).value.(at := a.at, owes := a.owes)) else !inAside && run.None?)
    {
      var r, out := TickRun(answers);
      said := AsideSaid(r, out, ms);
    }

    /** The crossing is over, one way or another: on from where it led, or a new plan. */
    method Leave(w: World, answers: Answers, r: Run, out: Out, here: RoomId, seen: RoomId, ms: nat) returns (said: Said)
      requires Valid() && Ready(here, seen, ms) && run.None? && !inAside && !GoesOn(out)
      modifies this
      decreases Left(), |ahead|, 6
      ensures Kept(old(Mark()), answers, said) && clock == ms
      ensures Ends(said, seen)
      ensures out.Believes? && out.landed == goal ==> said == Arrived && plans == old(plans)
      ensures out.Replans? || out.GiveUp? || (out.Done? && here != r.expected) ==>
                plans > old(plans) || said == Failed(TooManyReplans)
      ensures (out.GiveUp? && out.ban) || (out.Done? && here != r.expected && here == r.from) ==>
                (r.leaving, r.expected) in banned && NotUnderWay((r.leaving, r.expected))
    {
      if out.Believes? {
        believed := Some((seen, out.landed));
        if out.landed == goal {
          return Arrived;
        }
        said := StepFrom(w, answers, out.landed, seen, ms);
      } else if out.Done? && here == r.expected {
        said := StepFrom(w, answers, here, seen, ms);
      } else {
        GiveUpOn(r, out, here, ms);
        ghost var mid := Mark();
        said := Replan(w, answers, here, seen, ms);
        if (r.leaving, r.expected) in mid.banned {
          NotBanned(mid, Mark(), answers, said, (r.leaving, r.expected));
        }
      }
    }

    /** Bans the exit if the answer asks for it, or if all was done and the walker is where it
        began; holds the map wrong if the answer says so. */
    method GiveUpOn(r: Run, out: Out, here: RoomId, ms: nat)
      requires Valid()
      modifies `banned, `wrong, `deafUntil
      ensures Valid() && old(banned) <= banned
      ensures (out.GiveUp? && out.ban) || (out.Done? && here == r.from) ==> (r.leaving, r.expected) in banned
      ensures !(out.GiveUp? && out.ban) && !(out.Done? && here == r.from) ==> banned == old(banned)
      ensures wrong == old(wrong) + (if out.GiveUp? && out.wrong then [(r.leaving, r.expected)] else [])
    {
      if out.GiveUp? {
        deafUntil := ms + ORPHAN_MS;
        if out.ban {
          AddBan((r.leaving, r.expected));
        }
        if out.wrong {
          wrong := wrong + [(r.leaving, r.expected)];
        }
      } else if out.Done? && here == r.from {
        AddBan((r.leaving, r.expected));
      }
    }

    method AddBan(pair: Pair)
      requires Valid()
      modifies `banned
      ensures Valid() && banned == old(banned) + {pair}
    {
      LawfulMore(history, banned, banned + {pair});
      banned := banned + {pair};
    }

    /** Turns an ending into the payment of the first debt, if there is one. */
    method PayFirst(inner: Said) returns (said: Said)
      requires Valid() && Terminal(inner)
      modifies `owes
      ensures Valid() && Settles(old(owes), owes, said) && (old(owes) == {} ==> said == inner)
      ensures forall owed :: owed <= old(owes) ==> Accounted(owed, owes, said)
      ensures forall owed :: owed <= old(owes) && !Terminal(said) ==> PaysOne(owed, owes, said)
    {
      said := inner;
      var deed := NextOwed();
      if deed.Some? {
        said := Do(deed.value);
        assert old(owes) <= owes + {First(old(owes)).value};
      }
    }

    /** A tick for a walker whose room is known, and the debts of an ending. */
    method TickAt(w: World, answers: Answers, seen: RoomId, ms: nat) returns (said: Said, ghost over: bool)
      requires Valid() && clock == ms
      modifies this
      ensures Kept(old(Mark()), answers, said) && clock == ms
      ensures over ==> Over(seen)
      ensures Terminal(said) ==> over && owes == {} && Ends(said, seen)
      ensures over && !Terminal(said) ==> said.Do?
      ensures Careful(answers) && old(InStep()) && over && !Terminal(said) ==> PaysOne(old(owes), owes, said)
      ensures old(Over(seen)) ==> over && Settles(old(owes), owes, said) && history == old(history) && plans == old(plans)
      ensures old(Stranded(w, Where(seen))) ==>
                said == AsideTells(answers(old(draws) + 1, old(PlannedRun(w, banned, owes, Where(seen), goal)).value).out)
      ensures old(AsideNext(Where(seen))).Some? && old(Free(ms)) ==>
                AsideWent(answers, old(draws) + 1, old(AsideNext(Where(seen))).value, seen, old(Where(seen)), ms, old(banned), old(plans), said)
    {
      said := TickInner(w, answers, seen, ms);
      over := Terminal(said);
      if Terminal(said) {
        said := PayFirst(said);
      }
    }

    /** One tick: the trip's own answer, or for an ending the payment of a debt. `over` tells
        whether the answer was an ending. */
    method Tick(w: World, answers: Answers, now: Now) returns (said: Said, ghost over: bool)
      requires Valid() && clock <= now.ms
      modifies this
      ensures Kept(old(Mark()), answers, said) && clock == now.ms
      ensures now.here.None? ==> said == Hold && !over
      ensures over ==> now.here.Some? && Over(now.here.value)
      ensures Terminal(said) ==> over && owes == {} && Ends(said, now.here.value)
      ensures over && !Terminal(said) ==> said.Do?
      ensures Careful(answers) && old(InStep()) && over && !Terminal(said) ==> PaysOne(old(owes), owes, said)
      ensures now.here.Some? && old(Over(now.here.value)) ==>
                over && Settles(old(owes), owes, said) && history == old(history) && plans == old(plans)
      ensures now.here.Some? && old(Stranded(w, Where(now.here.value))) ==>
                said == AsideTells(answers(old(draws) + 1, old(PlannedRun(w, banned, owes, Where(now.here.value), goal)).value).out)
      ensures now.here.Some? && old(AsideNext(Where(now.here.value))).Some? && old(Free(now.ms)) ==>
                AsideWent(answers, old(draws) + 1, old(AsideNext(Where(now.here.value))).value, now.here.value, old(Where(now.here.value)),
                          now.ms, old(banned), old(plans), said)
    {
      clock := now.ms;
      over := false;
      assert Mark() == old(Mark());
      if now.here.None? {
        KeptStill(Mark(), answers, Hold);
        return Hold, false;
      }
      said, over := TickAt(w, answers, now.here.value, now.ms);
    }

    /** The failing case: an aside under way that cannot be sent, and a way to plan. The next
        tick begins a planned crossing, and its answer is told as the aside's. */
    method GiveUpAside(w: World, answers: Answers, seen: RoomId, ms: nat) returns (said: Said, ghost planned: Run)
      requires Valid() && inAside && run.Some? && aside.None? && ended.None? && batch.None? && settleUntil <= clock <= ms
      requires Where(seen) != goal && Where(seen) in w.rooms && plans <= MAX_REPLANS && Upright(w)
      requires PlannedRun(w, banned + {(run.value.leaving, run.value.expected)}, run.value.owes, Where(seen), goal).Some?
      modifies this
      ensures Some(planned) == old(PlannedRun(w, banned + {(run.value.leaving, run.value.expected)}, run.value.owes, Where(seen), goal))
      ensures said == AsideTells(answers(old(draws) + 1, planned).out)
      ensures answers(old(draws) + 1, planned).out.Done? ==> said == Beside(true)
    {
      CannotSend();
      planned := PlannedRun(w, banned, owes, Where(seen), goal).value;
      ghost var over;
      said, over := Tick(w, answers, Now(Some(seen), ms));
    }

    /** A trip that is over, ticked where it ended until it says so: every debt is paid, once
        and in order, and the next answer ends the trip, on the fifth tick at the latest. */
    method WindUp(w: World, answers: Answers, seen: RoomId, ms: nat) returns (deeds: seq<Deed>, last: Said)
      requires Valid() && Over(seen) && clock <= ms
      modifies this
      ensures Valid() && deeds == Bill(old(owes)) && |deeds| <= 4
      ensures Terminal(last) && owes == {} && Ends(last, seen)
      ensures history == old(history) && plans == old(plans)
    {
      deeds := [];
      ghost var over;
      last, over := Tick(w, answers, Now(Some(seen), ms));
      BillShrinks(old(owes));
      while !Terminal(last)
        invariant Valid() && Over(seen) && clock <= ms && (Terminal(last) ==> Ends(last, seen))
        invariant history == old(history) && plans == old(plans)
        invariant Terminal(last) ==> owes == {} && deeds == Bill(old(owes))
        invariant last.Do? ==> deeds + [last.deed] + Bill(owes) == Bill(old(owes))
        invariant Terminal(last) || last.Do?
        decreases if Terminal(last) then 0 else |owes| + 1
      {
        deeds := deeds + [last.deed];
        if owes != {} {
          PaidOff(deeds, owes, Payment(First(owes).value));
        }
        BillShrinks(owes);
        Nothing(deeds);
        last, over := Tick(w, answers, Now(Some(seen), ms));
      }
    }
  }

  /** The failing input, from the start: a new trip is asked for steps beside its plan, ticks
      them once while they go on, and cannot send what they ask. With another way to the goal
      the next tick begins it, and tells its answer as the aside's. */
  method AsideGivenUp(w: World, answers: Answers, goal: RoomId, seen: RoomId, steps: seq<Step>, to: Option<RoomId>, ms: nat)
    returns (said: Said)
    requires seen != goal && seen in w.rooms && Upright(w) && GoesOn(answers(1, AsideRun(seen, steps, to, {})).out)
    requires var r := AsideRun(seen, steps, to, {});
             PlannedRun(w, {(r.leaving, r.expected)}, answers(1, r).owes, seen, goal).Some?
    ensures var r := AsideRun(seen, steps, to, {});
            var planned := PlannedRun(w, {(r.leaving, r.expected)}, answers(1, r).owes, seen, goal).value;
            said == AsideTells(answers(2, planned).out) && (answers(2, planned).out.Done? ==> said == Beside(true))
  {
    var trip := new Trip(goal);
    trip.Aside(steps, to);
    ghost var over;
    said, over := trip.Tick(w, answers, Now(Some(seen), ms));
    assert trip.banned + {(trip.run.value.leaving, trip.run.value.expected)} == {(trip.run.value.leaving, trip.run.value.expected)};
    ghost var planned;
    said, planned := trip.GiveUpAside(w, answers, seen, ms);
  }
}
