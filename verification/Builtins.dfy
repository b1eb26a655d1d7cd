/** Built-ins run for scripts: a script that goes leaves no run going. Every lock is one
    step, and the steps of the scripts and of the errand thread interleave as they will. */
module Builtins {
  import opened Options
  import opened Cuts

  type RunNumber = nat

  /** What Hydra answers to a built-in asked for: a run, or a refusal. */
  datatype Answer = Run(number: RunNumber) | Refused

  /** Where a script's own thread is. */
  datatype Phase =
    | Asking
    | Waiting
    | Running(run: RunNumber)
    | Heard(run: RunNumber)
    | Finished
    | Stopping(run: RunNumber)
    | Gone
  {
    /** Not yet ended: an answer can reach the script, and so can the end of its run. */
    predicate Here() {
      !Stopping? && !Gone?
    }
  }

  datatype Script = Script(phase: Phase, asked: bool, answer: Option<Answer>, abandoned: bool)

  datatype Job = Ask(script: nat) | Stop(run: RunNumber)

  /** Where the errand thread is: between jobs, asking for a script, or about to queue a stop. */
  datatype Errand = Idle | Calling(script: nat) | Owing(run: RunNumber)

  /** `stops` lists every stop ever queued; `owner` the script each run was started for. */
  datatype State = State(
    scripts: seq<Script>,
    queue: seq<Job>,
    errand: Errand,
    ended: set<RunNumber>,
    stops: seq<RunNumber>,
    owner: map<RunNumber, nat>)

  datatype Event =
    | Start
    | Push(script: nat)
    | TakeAnswer(script: nat)
    | HearEnd(script: nat)
    | Finish(script: nat)
    | Kill(script: nat)
    | QueueStop(script: nat)
    | Take
    | Answered(answer: Answer)
    | ErrandStop
    | Ends(run: RunNumber)

  const START := State([], [], Idle, {}, [], map[])

  function With(s: State, i: nat, script: Script): (r: State)
    requires i < |s.scripts|
  {
    s.(scripts := s.scripts[i := script])
  }

  /** One step of a script's own thread, or its end. */
  function ScriptStep(s: State, e: Event, i: nat): (r: State)
    requires i < |s.scripts|
  {
    var me := s.scripts[i];
    match e
    case Push(_) =>
      if me.phase.Asking? then With(s, i, me.(phase := Waiting, asked := true)).(queue := s.queue + [Ask(i)]) else s
    case TakeAnswer(_) =>
      if me.phase.Waiting? && me.answer.Some? then
        With(s, i, me.(phase := if me.answer.value.Run? then Running(me.answer.value.number) else Finished))
      else s
    case HearEnd(_) =>
      if me.phase.Running? && me.phase.run in s.ended then
        With(s, i, me.(phase := Heard(me.phase.run))).(ended := s.ended - {me.phase.run})
      else s
    case Finish(_) =>
      if me.phase.Heard? then With(s, i, me.(phase := Finished)) else s
    case Kill(_) =>
      if me.phase.Here() && !me.phase.Finished? then
        With(s, i, me.(abandoned := true,
                       phase := if me.answer.Some? && me.answer.value.Run? then Stopping(me.answer.value.number) else Gone))
      else s
    case QueueStop(_) =>
      if me.phase.Stopping? then
        With(s, i, me.(phase := Gone)).(queue := s.queue + [Stop(me.phase.run)], stops := s.stops + [me.phase.run])
      else s
    case _ => s
  }

  /** One step of the errand thread. A run's number is one no run had before. */
  function ErrandStep(s: State, e: Event): (r: State) {
    match e
    case Take =>
      if s.errand.Idle? && s.queue != [] then
        s.(queue := s.queue[1..], errand := if s.queue[0].Ask? then Calling(s.queue[0].script) else Idle)
      else s
    case Answered(a) =>
      if s.errand.Calling? && s.errand.script < |s.scripts| && !(a.Run? && a.number in s.owner) then
        var i := s.errand.script;
        var me := s.scripts[i];
        With(s, i, me.(answer := Some(a))).(
          errand := if me.abandoned && a.Run? then Owing(a.number) else Idle,
          owner := if a.Run? then s.owner[a.number := i] else s.owner)
      else s
    case ErrandStop =>
      if s.errand.Owing? then
        s.(errand := Idle, queue := s.queue + [Stop(s.errand.run)], stops := s.stops + [s.errand.run])
      else s
    case _ => s
  }

  function Step(s: State, e: Event): (r: State) {
    match e
    case Start => s.(scripts := s.scripts + [Script(Asking, false, None, false)])
    case Ends(n) => s.(ended := s.ended + {n})
    case Take => ErrandStep(s, e)
    case Answered(_) => ErrandStep(s, e)
    case ErrandStop => ErrandStep(s, e)
    case _ => if e.script < |s.scripts| then ScriptStep(s, e, e.script) else s
  }

  function StepAll(s: State, es: seq<Event>): (r: State)
    decreases |es|
  {
    if es == [] then s else StepAll(Step(s, es[0]), es[1..])
  }

  // ------------------------------------------------------------ the invariant

  function Times(ns: seq<RunNumber>, n: RunNumber): (k: nat) {
    if ns == [] then 0 else Times(ns[..|ns| - 1], n) + if ns[|ns| - 1] == n then 1 else 0
  }

  function Asks(queue: seq<Job>, i: nat): (k: nat) {
    if queue == [] then 0 else (if queue[0] == Ask(i) then 1 else 0) + Asks(queue[1..], i)
  }

  function One(b: bool): (k: nat) {
    if b then 1 else 0
  }

  lemma TimesMore(ns: seq<RunNumber>, m: RunNumber, n: RunNumber)
    ensures Times(ns + [m], n) == Times(ns, n) + One(m == n)
  {
    InitOfAppend(ns, m);
  }

  lemma {:induction false} AsksMore(queue: seq<Job>, job: Job, i: nat)
    ensures Asks(queue + [job], i) == Asks(queue, i) + One(job == Ask(i))
  {
    if queue == [] {
      assert (queue + [job])[1..] == [];
    } else {
      TailOfJoin(queue, [job]);
      AsksMore(queue[1..], job, i);
    }
  }

  /** A script's own state hangs together, and it is asked for once. */
  ghost predicate ScriptOk(s: State, i: nat)
    requires i < |s.scripts|
  {
    var me := s.scripts[i];
    && (me.abandoned <==> !me.phase.Here())
    && ((me.phase.Running? || me.phase.Heard? || me.phase.Stopping?) ==> me.answer == Some(Run(me.phase.run)))
    && (me.phase.Asking? ==> !me.asked)
    && (me.answer.Some? && me.answer.value.Run? ==>
          me.answer.value.number in s.owner && s.owner[me.answer.value.number] == i)
    && Asks(s.queue, i) + One(s.errand == Calling(i)) + One(me.answer.Some?) + One(!me.asked) == 1
  }

  /** Stops still to be queued for the run. */
  function Pending(s: State, n: RunNumber): (k: nat)
    requires n in s.owner && s.owner[n] < |s.scripts|
  {
    One(s.errand == Owing(n)) + One(s.scripts[s.owner[n]].phase == Stopping(n))
  }

  /** A run is stopped once, now or soon, when its script was abandoned, and else never. */
  ghost predicate RunOk(s: State, n: RunNumber)
    requires n in s.owner
  {
    && s.owner[n] < |s.scripts| && s.scripts[s.owner[n]].answer == Some(Run(n))
    && Times(s.stops, n) + Pending(s, n) == One(s.scripts[s.owner[n]].abandoned)
  }

  ghost predicate Inv(s: State) {
    && (forall i: nat {:trigger ScriptOk(s, i)} :: i < |s.scripts| ==> ScriptOk(s, i))
    && (forall n {:trigger RunOk(s, n)} :: n in s.owner ==> RunOk(s, n))
    && (forall n :: n !in s.owner ==> Times(s.stops, n) == 0)
    && (s.errand.Owing? ==> s.errand.run in s.owner)
    && (s.errand.Calling? ==> s.errand.script < |s.scripts|)
    && (forall i: nat :: i >= |s.scripts| ==> Asks(s.queue, i) == 0)
  }

  // ------------------------------------------------------- every step keeps it

  lemma StartKeeps(s: State)
    requires Inv(s)
    ensures Inv(Step(s, Start))
  {
    var r := Step(s, Start);
    assert Asks(s.queue, |s.scripts|) == 0;
    forall i: nat | i < |r.scripts|
      ensures ScriptOk(r, i)
    {
      assert i < |s.scripts| ==> ScriptOk(s, i);
    }
    forall n | n in r.owner
      ensures RunOk(r, n)
    {
      assert RunOk(s, n);
    }
  }

  lemma EndsKeeps(s: State, n: RunNumber)
    requires Inv(s)
    ensures Inv(Step(s, Ends(n)))
  {
    SameButFor(s, Step(s, Ends(n)));
  }

  /** The invariant says nothing of which ends were heard. */
  lemma SameButFor(s: State, r: State)
    requires Inv(s) && r == s.(ended := r.ended)
    ensures Inv(r)
  {
    forall i: nat | i < |r.scripts|
      ensures ScriptOk(r, i)
    {
      assert ScriptOk(s, i);
    }
    forall n | n in r.owner
      ensures RunOk(r, n)
    {
      assert RunOk(s, n);
    }
  }

  lemma PushKeeps(s: State, i: nat)
    requires Inv(s) && i < |s.scripts| && s.scripts[i].phase.Asking?
    ensures Inv(Step(s, Push(i)))
  {
    var r := Step(s, Push(i));
    assert ScriptOk(s, i);
    forall k: nat
      ensures Asks(r.queue, k) == Asks(s.queue, k) + One(k == i)
    {
      AsksMore(s.queue, Ask(i), k);
    }
    forall k: nat | k < |r.scripts|
      ensures ScriptOk(r, k)
    {
      assert ScriptOk(s, k);
    }
    forall n | n in r.owner
      ensures RunOk(r, n)
    {
      assert RunOk(s, n);
    }
  }

  /** The script goes on, its answer and its job untouched. */
  lemma GoesOnKeeps(s: State, i: nat, phase: Phase)
    requires Inv(s) && i < |s.scripts| && s.scripts[i].phase.Here() && !s.scripts[i].phase.Asking?
    requires phase.Here() && !phase.Asking?
    requires phase.Running? || phase.Heard? ==> s.scripts[i].answer == Some(Run(phase.run))
    ensures Inv(With(s, i, s.scripts[i].(phase := phase)))
  {
    var r := With(s, i, s.scripts[i].(phase := phase));
    forall k: nat | k < |r.scripts|
      ensures ScriptOk(r, k)
    {
      assert ScriptOk(s, k);
    }
    forall n | n in r.owner
      ensures RunOk(r, n)
    {
      assert RunOk(s, n);
    }
  }

  lemma KillKeeps(s: State, i: nat)
    requires Inv(s) && i < |s.scripts| && s.scripts[i].phase.Here() && !s.scripts[i].phase.Finished?
    ensures Inv(Step(s, Kill(i)))
  {
    var r := Step(s, Kill(i));
    assert ScriptOk(s, i);
    forall k: nat | k < |r.scripts|
      ensures ScriptOk(r, k)
    {
      assert ScriptOk(s, k);
    }
    forall n | n in r.owner
      ensures RunOk(r, n)
    {
      assert RunOk(s, n);
    }
  }

  /** Queueing a stop asks for nothing. */
  lemma StopQueued(s: State, n: RunNumber)
    ensures forall k: nat :: Asks(s.queue + [Stop(n)], k) == Asks(s.queue, k)
    ensures forall m: RunNumber :: Times(s.stops + [n], m) == Times(s.stops, m) + One(n == m)
  {
    forall k: nat
      ensures Asks(s.queue + [Stop(n)], k) == Asks(s.queue, k)
    {
      AsksMore(s.queue, Stop(n), k);
    }
    forall m: RunNumber
      ensures Times(s.stops + [n], m) == Times(s.stops, m) + One(n == m)
    {
      TimesMore(s.stops, n, m);
    }
  }

  lemma QueueStopKeeps(s: State, i: nat)
    requires Inv(s) && i < |s.scripts| && s.scripts[i].phase.Stopping?
    ensures Inv(Step(s, QueueStop(i)))
  {
    var r, n := Step(s, QueueStop(i)), s.scripts[i].phase.run;
    assert ScriptOk(s, i);
    StopQueued(s, n);
    forall k: nat | k < |r.scripts|
      ensures ScriptOk(r, k)
    {
      assert ScriptOk(s, k);
    }
    forall m | m in r.owner
      ensures RunOk(r, m)
    {
      assert RunOk(s, m);
    }
  }

  lemma ErrandStopKeeps(s: State)
    requires Inv(s) && s.errand.Owing?
    ensures Inv(Step(s, ErrandStop))
  {
    var r, n := Step(s, ErrandStop), s.errand.run;
    StopQueued(s, n);
    forall k: nat | k < |r.scripts|
      ensures ScriptOk(r, k)
    {
      assert ScriptOk(s, k);
    }
    forall m | m in r.owner
      ensures RunOk(r, m)
    {
      assert RunOk(s, m);
    }
  }

  lemma TakeKeeps(s: State)
    requires Inv(s) && s.errand.Idle? && s.queue != []
    ensures Inv(Step(s, Take))
  {
    var r := Step(s, Take);
    forall k: nat
      ensures Asks(s.queue, k) == Asks(r.queue, k) + One(s.queue[0] == Ask(k))
    {
    }
    if s.queue[0].Ask? {
      assert Asks(s.queue, s.queue[0].script) > 0;
    }
    forall k: nat | k < |r.scripts|
      ensures ScriptOk(r, k)
    {
      assert ScriptOk(s, k);
    }
    forall m | m in r.owner
      ensures RunOk(r, m)
    {
      assert RunOk(s, m);
    }
  }

  lemma AnsweredKeeps(s: State, a: Answer)
    requires Inv(s) && s.errand.Calling? && !(a.Run? && a.number in s.owner)
    ensures Inv(Step(s, Answered(a)))
  {
    var r, i := Step(s, Answered(a)), s.errand.script;
    assert ScriptOk(s, i);
    forall k: nat | k < |r.scripts|
      ensures ScriptOk(r, k)
    {
      assert ScriptOk(s, k);
    }
    forall m | m in r.owner
      ensures RunOk(r, m)
    {
      assert m in s.owner ==> RunOk(s, m);
    }
  }

  lemma StepKeeps(s: State, e: Event)
    requires Inv(s)
    ensures Inv(Step(s, e))
  {
    var r := Step(s, e);
    if r != s {
      match e
      case Start => StartKeeps(s);
      case Ends(n) => EndsKeeps(s, n);
      case Take => TakeKeeps(s);
      case Answered(a) => AnsweredKeeps(s, a);
      case ErrandStop => ErrandStopKeeps(s);
      case Push(i) => PushKeeps(s, i);
      case Kill(i) => KillKeeps(s, i);
      case QueueStop(i) => QueueStopKeeps(s, i);
      case TakeAnswer(i) =>
        assert ScriptOk(s, i);
        GoesOnKeeps(s, i, r.scripts[i].phase);
      case Finish(i) =>
        assert ScriptOk(s, i);
        GoesOnKeeps(s, i, Finished);
      case HearEnd(i) =>
        assert ScriptOk(s, i);
        GoesOnKeeps(s, i, r.scripts[i].phase);
        SameButFor(With(s, i, r.scripts[i]), r);
    }
  }

  lemma {:induction false} RunKeeps(s: State, es: seq<Event>)
    requires Inv(s)
    ensures Inv(StepAll(s, es))
    decreases |es|
  {
    if es != [] {
      StepKeeps(s, es[0]);
      RunKeeps(Step(s, es[0]), es[1..]);
    }
  }

  // ------------------------------------------------------------ what it means

  /** In every run, whatever the interleaving: a script's run is queued to stop at most
      once; never while the script is there or has finished; and exactly once when it was
      killed, unless the stop is just about to be queued. */
  lemma StoppedExactlyOnce(es: seq<Event>, n: RunNumber)
    requires var s := StepAll(START, es); n in s.owner
    ensures var s := StepAll(START, es);
            && s.owner[n] < |s.scripts|
            && var me := s.scripts[s.owner[n]];
               && me.answer == Some(Run(n))
               && Times(s.stops, n) <= 1
               && (me.phase.Here() ==> Times(s.stops, n) == 0)
               && (me.phase.Gone? && s.errand != Owing(n) ==> Times(s.stops, n) == 1)
  {
    RunKeeps(START, es);
    var s := StepAll(START, es);
    assert RunOk(s, n);
    assert ScriptOk(s, s.owner[n]);
  }

  /** A stop is only ever queued for a run some script was started for. */
  lemma OnlyRunsAreStopped(es: seq<Event>, n: RunNumber)
    requires Times(StepAll(START, es).stops, n) > 0
    ensures n in StepAll(START, es).owner
  {
    RunKeeps(START, es);
  }
}
