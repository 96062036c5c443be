// Effects that are recorded as never run. The effect store lets a failure be written over an
// effect that is already running, and a denial may be based on an older reading of the row.
module OutboxDenials {
  import opened Prelude
  import opened Outbox
  import opened OutboxProtocol
  import opened OutboxSafety
  import opened OutboxChanges
  import opened OutboxResults

  /** A dispatcher that read the effect while it was pending, and was then denied, writes the
      denial although another dispatcher has started the effect meanwhile. */
  predicate DeniesStarted(s: Sys, event: Event) {
    event.FailsEffect? && event.t in s.tasks && s.tasks[event.t].pc.EffectDenied?
    && s.tasks[event.t].pc.e in s.db.effects && s.db.effects[s.tasks[event.t].pc.e].state == Executing
  }

  ghost predicate AboutTo(task: Task, e: EffectId) {
    task.pc == EffectRunning(e) || task.pc == EffectRan(e) || task.pc == EffectInDoubt(e)
  }

  /** A failed effect did not run and is not about to. */
  ghost predicate FailureTrue(s: Sys, e: EffectId) {
    e in s.db.effects && s.db.effects[e].state == FailedTerminal ==>
      Count(s.runs, e) == 0 && forall t | t in s.tasks :: !AboutTo(s.tasks[t], e)
  }

  // ---- What a step can do to the record of effect e --------------------------------------

  ghost predicate RunsFrame(s: Sys, s': Sys, e: EffectId) {
    Count(s'.runs, e) == Count(s.runs, e) || exists t :: t in s.tasks && s.tasks[t].pc == EffectRunning(e)
  }

  ghost predicate TasksFrame(s: Sys, s': Sys, e: EffectId) {
    forall t | t in s'.tasks && AboutTo(s'.tasks[t], e) ::
      (t in s.tasks && AboutTo(s.tasks[t], e)) || (e in s.db.effects && s.db.effects[e].state == Pending)
  }

  /** Only a denial or a refusal makes an effect a failed one. */
  ghost predicate StateFrame(s: Sys, event: Event, s': Sys, e: EffectId) {
    e in s'.db.effects && s'.db.effects[e].state == FailedTerminal ==>
      || (e in s.db.effects && s.db.effects[e].state == FailedTerminal)
      || Fails(s, event, e)
  }

  /** The event records a denial or a refusal of e, which had no outcome yet. */
  ghost predicate Fails(s: Sys, event: Event, e: EffectId) {
    && event.FailsEffect? && event.t in s.tasks && (s.tasks[event.t].pc == EffectDenied(e) || s.tasks[event.t].pc == EffectRefused(e))
    && e in s.db.effects && !Final(s.db.effects[e].state)
  }

  ghost predicate EffectFrame(s: Sys, event: Event, s': Sys, e: EffectId) {
    RunsFrame(s, s', e) && TasksFrame(s, s', e) && StateFrame(s, event, s', e)
  }

  lemma TurnFrame(s: Sys, event: Event, e: EffectId)
    requires IsTurnEvent(event) && TurnEnabled(s, event)
    ensures EffectFrame(s, event, TurnStep(s, event), e)
  {
    hide TurnEnabled, TurnStep, OnlyAdds, EffectFrame;
    AddingFrame(s, event, TurnStep(s, event), e);
  }

  /** A step that only adds effects, and moves no call to one. */
  lemma AddingFrame(s: Sys, event: Event, s': Sys, e: EffectId)
    requires s'.runs == s.runs && OnlyAdds(s.db, s'.db)
    requires forall u | u in s'.tasks && Current(s'.tasks[u].pc).Some? :: u in s.tasks && s.tasks[u] == s'.tasks[u]
    ensures EffectFrame(s, event, s', e)
  {
  }

  /** A step that leaves every effect alone, and no call at one. */
  lemma UnmovedFrame(s: Sys, event: Event, s': Sys, t: nat, e: EffectId)
    requires s'.runs == s.runs && s'.db.effects == s.db.effects && OnlyTask(s.tasks, s'.tasks, t) && EffectFree(s'.tasks, t)
    ensures EffectFrame(s, event, s', e)
  {
  }

  lemma ReplyLeavesEffects(s: Sys, event: Event)
    requires IsReplyEvent(event) && ReplyEnabled(s, event)
    ensures var s' := ReplyStep(s, event);
            s'.runs == s.runs && s'.db.effects == s.db.effects && OnlyTask(s.tasks, s'.tasks, event.t) && EffectFree(s'.tasks, event.t)
  {
    hide ReplyEnabled, ReplyStep, OnlyTask, EffectFree;
  }

  lemma ReplyFrame(s: Sys, event: Event, e: EffectId)
    requires IsReplyEvent(event) && ReplyEnabled(s, event)
    ensures EffectFrame(s, event, ReplyStep(s, event), e)
  {
    hide ReplyEnabled, ReplyStep, OnlyTask, EffectFree, EffectFrame;
    ReplyLeavesEffects(s, event);
    UnmovedFrame(s, event, ReplyStep(s, event), event.t, e);
  }

  lemma RunCounts(s: Sys, t: nat, ok: bool, e: EffectId)
    requires t in s.tasks && s.tasks[t].pc.EffectRunning?
    ensures RunsFrame(s, RunStep(s, t, ok), e)
  {
    hide OnlyTask;
  }

  lemma EffectEventRuns(s: Sys, event: Event, e: EffectId)
    requires IsEffectEvent(event) && EffectEnabled(s, event)
    ensures RunsFrame(s, EffectStep(s, event), e)
  {
    if event.Runs? {
      RunCounts(s, event.t, event.ok, e);
      hide RunStep, OnlyTask, RunsFrame;
    } else {
      hide EffectEnabled, EffectStep, OnlyTask;
    }
  }

  /** Call t itself may only get closer to running e by starting it. */
  ghost predicate OwnFrame(s: Sys, s': Sys, t: nat, e: EffectId) {
    t in s'.tasks && AboutTo(s'.tasks[t], e) ==>
      (t in s.tasks && AboutTo(s.tasks[t], e)) || (e in s.db.effects && s.db.effects[e].state == Pending)
  }

  lemma CompleteFrame(s: Sys, t: nat, reported: bool, e: EffectId)
    requires t in s.tasks && s.tasks[t].pc.EffectRan? && s.tasks[t].todo != []
    ensures OwnFrame(s, CompleteEffectStep(s, t, reported), t, e)
  {
    hide FinishEffect;
  }

  lemma GoesFrame(s: Sys, t: nat, pc: Pc, e: EffectId)
    requires t in s.tasks && (AboutTo(s.tasks[t].(pc := pc), e) ==> AboutTo(s.tasks[t], e))
    ensures OwnFrame(s, Goes(s, t, pc), t, e)
  {
  }

  lemma EndedFrame(s: Sys, s': Sys, t: nat, e: EffectId)
    requires t !in s'.tasks
    ensures OwnFrame(s, s', t, e)
  {
  }

  lemma StartFrame(s: Sys, t: nat, e: EffectId)
    requires t in s.tasks && s.tasks[t].pc.EffectLoaded?
    ensures OwnFrame(s, StartEffectStep(s, t), t, e)
  {
    var f := s.tasks[t].pc.e;
    if MayStart(s.db, f) {
      StartedFrame(s, StartEffectStep(s, t), t, f, e);
    } else {
      hide MayStart, OnlyTask, EffectFree;
      EndedFrame(s, StartEffectStep(s, t), t, e);
    }
  }

  lemma StartedFrame(s: Sys, s': Sys, t: nat, f: EffectId, e: EffectId)
    requires t in s.tasks && s'.tasks == Goes(s, t, EffectRunning(f)).tasks && f in s.db.effects && s.db.effects[f].state == Pending
    ensures OwnFrame(s, s', t, e)
  {
  }

  lemma LoadFrame(s: Sys, t: nat, e: EffectId)
    requires t in s.tasks && s.tasks[t].todo != [] && s.tasks[t].todo[0] in s.db.effects
    ensures OwnFrame(s, LoadEffectStep(s, t), t, e)
  {
    hide OwnFrame, OnlyTask, EffectFree, Goes, Becomes, AboutTo;
    var f := s.tasks[t].todo[0];
    if s.db.effects[f].state == Succeeded {
      DoneFrame(s, t, s.tasks[t].(todo := s.tasks[t].todo[1..], done := s.tasks[t].done + [f]), e);
    } else if s.db.effects[f].state == Pending {
      LoadedFrame(s, t, f, e);
    } else {
      EndedFrame(s, LoadEffectStep(s, t), t, e);
    }
  }

  lemma LoadedFrame(s: Sys, t: nat, f: EffectId, e: EffectId)
    requires t in s.tasks
    ensures OwnFrame(s, Goes(s, t, EffectLoaded(f)), t, e)
  {
  }

  lemma DoneFrame(s: Sys, t: nat, task: Task, e: EffectId)
    requires t in s.tasks && task.pc == s.tasks[t].pc
    ensures OwnFrame(s, Becomes(s, t, task), t, e)
  {
  }

  lemma RunFrame(s: Sys, t: nat, ok: bool, e: EffectId)
    requires t in s.tasks && s.tasks[t].pc.EffectRunning?
    ensures OwnFrame(s, RunStep(s, t, ok), t, e)
  {
    hide OnlyTask;
  }

  lemma NewFrame(s: Sys, t: nat, task: Task, e: EffectId)
    requires Current(task.pc) == None
    ensures OwnFrame(s, s.(tasks := s.tasks[t := task]), t, e)
  {
  }

  lemma BeginEventFrame(s: Sys, event: Event, e: EffectId)
    requires BeginsEffect(event) && EffectEnabled(s, event)
    ensures OwnFrame(s, EffectStep(s, event), event.t, e)
  {
    hide Answered, FinishEffect, SetEffect, LoadEffectStep, StartEffectStep, CompleteEffectStep, RunStep, OnlyTask, EffectFree, OwnFrame;
    match event
    case SweepEffect(t, f) => NewFrame(s, t, Task(None, None, RunningEffects, [f], []), e);
    case LoadsEffect(t) => LoadFrame(s, t, e);
    case DeniesEffect(t) => GoesFrame(s, t, EffectDenied(s.tasks[t].pc.e), e);
    case StartsEffect(t) => StartFrame(s, t, e);
  }

  lemma EndEventFrame(s: Sys, event: Event, e: EffectId)
    requires IsEffectEvent(event) && !BeginsEffect(event) && !Settles(event) && EffectEnabled(s, event)
    ensures OwnFrame(s, EffectStep(s, event), event.t, e)
  {
    hide Answered, FinishEffect, SetEffect, LoadEffectStep, StartEffectStep, CompleteEffectStep, RunStep, OnlyTask, EffectFree, OwnFrame;
    match event
    case Runs(t, ok) => RunFrame(s, t, ok, e);
    case Refuses(t) => GoesFrame(s, t, EffectRefused(s.tasks[t].pc.e), e);
    case CompletesEffect(t, reported) => CompleteFrame(s, t, reported, e);
    case EffectCompletionFails(t) => GoesFrame(s, t, EffectInDoubt(s.tasks[t].pc.e), e);
  }

  lemma OwnEventFrame(s: Sys, event: Event, e: EffectId)
    requires IsEffectEvent(event) && EffectEnabled(s, event)
    ensures OwnFrame(s, EffectStep(s, event), event.t, e)
  {
    hide EffectEnabled, EffectStep, OwnFrame;
    if Settles(event) {
      SettledEffect(s, event);
      EndedFrame(s, EffectStep(s, event), event.t, e);
    } else if BeginsEffect(event) {
      BeginEventFrame(s, event, e);
    } else {
      EndEventFrame(s, event, e);
    }
  }

  lemma OthersFrame(s: Sys, s': Sys, t: nat, e: EffectId)
    requires OnlyTask(s.tasks, s'.tasks, t) && OwnFrame(s, s', t, e)
    ensures TasksFrame(s, s', e)
  {
  }

  lemma EffectEventTask(s: Sys, event: Event)
    requires IsEffectEvent(event) && EffectEnabled(s, event)
    ensures OnlyTask(s.tasks, EffectStep(s, event).tasks, event.t)
  {
    hide EffectEnabled, EffectStep, OnlyTask;
  }

  lemma EffectEventTasks(s: Sys, event: Event, e: EffectId)
    requires IsEffectEvent(event) && EffectEnabled(s, event)
    ensures TasksFrame(s, EffectStep(s, event), e)
  {
    hide EffectEnabled, EffectStep, OwnFrame, OnlyTask, TasksFrame;
    EffectEventTask(s, event);
    OwnEventFrame(s, event, e);
    OthersFrame(s, EffectStep(s, event), event.t, e);
  }

  lemma EffectEventStates(s: Sys, event: Event, e: EffectId)
    requires IsEffectEvent(event) && EffectEnabled(s, event)
    ensures StateFrame(s, event, EffectStep(s, event), e)
  {
    if Writes(event) {
      WriterIsAtEffect(s, event);
      FailureIsDenied(s, event);
      hide EffectEnabled, EffectStep, OnlyTask;
      var change := EffectEventChanges(s, event);
      ChangedStates(s.db, EffectStep(s, event).db, change, e);
      hide Changes;
    } else {
      hide EffectEnabled, EffectStep, OnlyTask;
    }
  }

  lemma ChangedStates(db: Db, db': Db, change: Change, e: EffectId)
    requires (change == Apart && db' == db) || (change.EffectTo? && Changes(db, db', change))
    ensures e in db'.effects && db'.effects[e].state == FailedTerminal ==>
              || (e in db.effects && db.effects[e].state == FailedTerminal)
              || (change == EffectTo(e, FailedTerminal) && e in db.effects && !Final(db.effects[e].state))
  {
  }

  lemma FailureIsDenied(s: Sys, event: Event)
    requires IsEffectEvent(event) && EffectEnabled(s, event)
    ensures event.FailsEffect? ==> event.t in s.tasks && (s.tasks[event.t].pc.EffectDenied? || s.tasks[event.t].pc.EffectRefused?)
  {
  }

  lemma EffectEventFrame(s: Sys, event: Event, e: EffectId)
    requires IsEffectEvent(event) && EffectEnabled(s, event)
    ensures EffectFrame(s, event, EffectStep(s, event), e)
  {
    hide RunsFrame, TasksFrame, StateFrame;
    EffectEventRuns(s, event, e);
    EffectEventTasks(s, event, e);
    EffectEventStates(s, event, e);
  }

  lemma SystemFrame(s: Sys, event: Event, e: EffectId)
    requires Enabled(s, event) && !IsTurnEvent(event) && !IsReplyEvent(event) && !IsEffectEvent(event)
    ensures EffectFrame(s, event, Step(s, event), e)
  {
  }

  lemma StepFrame(s: Sys, event: Event, e: EffectId)
    requires Enabled(s, event)
    ensures EffectFrame(s, event, Step(s, event), e)
  {
    hide EffectFrame, TurnEnabled, ReplyEnabled, EffectEnabled, TurnStep, ReplyStep, EffectStep, OnlyAdds, OnlyTask, EffectFree;
    if IsTurnEvent(event) {
      TurnKind(s, event);
      TurnFrame(s, event, e);
    } else if IsReplyEvent(event) {
      ReplyKind(s, event);
      ReplyFrame(s, event, e);
    } else if IsEffectEvent(event) {
      EffectKind(s, event);
      EffectEventFrame(s, event, e);
    } else {
      SystemFrame(s, event, e);
    }
  }

  /** Who is about to run an effect claimed it, so it is not pending. */
  lemma AboutToOwns(s: Sys, t: nat, e: EffectId)
    requires Inv(s) && t in s.tasks && (AboutTo(s.tasks[t], e) || s.tasks[t].pc == EffectRefused(e))
    ensures e in s.db.effects && s.db.effects[e].state != Pending && e in s.runner && s.runner[e] == t
    ensures s.tasks[t].pc == EffectRefused(e) ==> Count(s.runs, e) == 0
  {
    hide Inv;
    TaskIsOk(s, t);
  }

  lemma StepKeepsFailureTrue(s: Sys, event: Event, e: EffectId)
    requires Inv(s) && Enabled(s, event) && FailureTrue(s, e) && !DeniesStarted(s, event)
    ensures FailureTrue(Step(s, event), e)
  {
    StepFrame(s, event, e);
    assert Fails(s, event, e) ==> event.FailsEffect?;
    hide Inv, Enabled, Step, FailureTrue, EffectFrame, Fails, DeniesStarted, UnrunYet;
    if Fails(s, event, e) {
      FailsUnstarted(s, event, e);
      FailureEnds(s, event);
      FewerTasks(s, Step(s, event), e);
    }
    FrameKeepsFailureTrue(s, event, Step(s, event), e);
  }

  ghost predicate UnrunYet(s: Sys, e: EffectId) {
    Count(s.runs, e) == 0 && forall t | t in s.tasks :: !AboutTo(s.tasks[t], e)
  }

  lemma FailureEnds(s: Sys, event: Event)
    requires Enabled(s, event) && event.FailsEffect?
    ensures Step(s, event).tasks == s.tasks - {event.t} && Step(s, event).runs == s.runs
  {
    hide OnlyTask, EffectFree, FinishEffect;
  }

  lemma FewerTasks(s: Sys, s': Sys, e: EffectId)
    requires UnrunYet(s, e) && s'.runs == s.runs && exists t :: s'.tasks == s.tasks - {t}
    ensures UnrunYet(s', e)
  {
  }

  /** The failure is written over a pending effect, or by the call that was refused. */
  lemma FailsUnstarted(s: Sys, event: Event, e: EffectId)
    requires Inv(s) && Fails(s, event, e) && !DeniesStarted(s, event)
    ensures UnrunYet(s, e)
  {
    EffectIsOk(s, e);
    hide Inv;
    forall t | t in s.tasks && (AboutTo(s.tasks[t], e) || s.tasks[t].pc == EffectRefused(e))
      ensures s.db.effects[e].state != Pending && e in s.runner && s.runner[e] == t
      ensures s.tasks[t].pc == EffectRefused(e) ==> Count(s.runs, e) == 0
    {
      AboutToOwns(s, t, e);
    }
  }

  lemma FrameKeepsFailureTrue(s: Sys, event: Event, s': Sys, e: EffectId)
    requires FailureTrue(s, e) && EffectFrame(s, event, s', e) && (Fails(s, event, e) ==> UnrunYet(s', e))
    ensures FailureTrue(s', e)
  {
  }

  /** As long as no stale denial lands on a started effect, an effect recorded as failed never
      ran, and no call is about to run it. */
  lemma {:induction false} FailedEffectsNeverRan(events: seq<Event>, states: seq<Sys>, k: nat, e: EffectId)
    requires Run(events, states) && k < |states|
    requires forall j | 0 <= j < k :: !DeniesStarted(states[j], events[j])
    ensures FailureTrue(states[k], e)
  {
    hide Inv, Enabled, Step, FailureTrue, DeniesStarted;
    if k == 0 {
      NothingFailedYet(e);
    } else {
      FailedEffectsNeverRan(events, states, k - 1, e);
      RunKeepsInv(events, states, k - 1);
      StepKeepsFailureTrue(states[k - 1], events[k - 1], e);
    }
  }

  lemma NothingFailedYet(e: EffectId)
    ensures FailureTrue(INITIAL, e)
  {
  }

  /** Such a denial falsifies the record exactly when the effect ran or is being run; the one
      harmless case is an effect whose runner was refused as well. */
  lemma StaleDenialIsFalse(events: seq<Event>, states: seq<Sys>, k: nat, t: nat)
    requires Run(events, states) && k < |events| && events[k] == FailsEffect(t) && DeniesStarted(states[k], events[k])
    ensures var s, e := states[k], states[k].tasks[t].pc.e;
            FailureTrue(states[k + 1], e) <==> Count(s.runs, e) == 0 && forall u | u in s.tasks :: s.tasks[u].pc != EffectRunning(e)
  {
    hide Inv, Enabled, Run, Step, FailureTrue, AboutTo, Recorded;
    StepOfRun(events, states, k);
    RunKeepsInv(events, states, k);
    var s, e := states[k], states[k].tasks[t].pc.e;
    DenialLands(s, t, e);
    forall u | u in s.tasks ensures AboutTo(s.tasks[u], e) && Count(s.runs, e) == 0 ==> s.tasks[u].pc == EffectRunning(e) {
      if AboutTo(s.tasks[u], e) && Count(s.runs, e) == 0 {
        UnrunIsRunning(s, u, e);
      }
    }
    FailureRecorded(s, states[k + 1], t, e);
  }

  lemma DenialLands(s: Sys, t: nat, e: EffectId)
    requires DeniesStarted(s, FailsEffect(t)) && s.tasks[t].pc.e == e && Enabled(s, FailsEffect(t))
    ensures s.tasks[t].pc == EffectDenied(e) && Recorded(s, Step(s, FailsEffect(t)), t, e)
  {
    hide OnlyTask, EffectFree;
  }

  ghost predicate Recorded(s: Sys, s': Sys, t: nat, e: EffectId) {
    s'.tasks == s.tasks - {t} && s'.runs == s.runs && e in s'.db.effects && s'.db.effects[e].state == FailedTerminal
  }

  lemma UnrunIsRunning(s: Sys, u: nat, e: EffectId)
    requires Inv(s) && u in s.tasks && AboutTo(s.tasks[u], e) && Count(s.runs, e) == 0
    ensures s.tasks[u].pc == EffectRunning(e)
  {
    TaskIsOk(s, u);
    hide Inv;
  }

  lemma FailureRecorded(s: Sys, s': Sys, t: nat, e: EffectId)
    requires Recorded(s, s', t, e) && t in s.tasks && s.tasks[t].pc == EffectDenied(e)
    requires forall u | u in s.tasks :: AboutTo(s.tasks[u], e) && Count(s.runs, e) == 0 ==> s.tasks[u].pc == EffectRunning(e)
    ensures FailureTrue(s', e) <==> Count(s.runs, e) == 0 && forall u | u in s.tasks :: s.tasks[u].pc != EffectRunning(e)
  {
    forall u | u in s.tasks && s.tasks[u].pc == EffectRunning(e) ensures u in s'.tasks && AboutTo(s'.tasks[u], e) {
    }
  }

  // ---- A run in which a failed effect has run -------------------------------------------------

  const TURN := InvocationId(0, 0)
  const EMPTY := Db(map[], map[], map[], map[])
  const DB0 := EMPTY.(turns := map[TURN := Turn(false, Unstarted, 0)])
  const DB1 := DB0.(effects := map[0 := Effect(TURN, false, Pending)])
  const DB2 := DB0.(effects := map[0 := Effect(TURN, false, Executing)])
  const DB3 := DB0.(effects := map[0 := Effect(TURN, false, FailedTerminal)])

  function Call(pc: Pc): Task {
    Task(None, None, pc, [0], [])
  }

  const S0 := INITIAL.(up := true)
  const S1 := S0.(db := DB0)
  const S2 := S0.(db := DB1)
  const S3 := S2.(tasks := map[1 := Call(RunningEffects)])
  const S4 := S2.(tasks := map[1 := Call(EffectLoaded(0))])
  const S5 := S2.(tasks := map[1 := Call(EffectLoaded(0)), 2 := Call(RunningEffects)])
  const S6 := S2.(tasks := map[1 := Call(EffectLoaded(0)), 2 := Call(EffectLoaded(0))])
  const S7 := S2.(tasks := map[1 := Call(EffectLoaded(0)), 2 := Call(EffectDenied(0))])
  const S8 := S2.(db := DB2, runner := map[0 := 1], tasks := map[1 := Call(EffectRunning(0)), 2 := Call(EffectDenied(0))])
  const S9 := S8.(runs := map[0 := 1], tasks := map[1 := Call(EffectRan(0)), 2 := Call(EffectDenied(0))])
  const S10 := S9.(db := DB3, tasks := map[1 := Call(EffectRan(0))])

  ghost predicate StepsTo(s: Sys, event: Event, s': Sys) {
    Enabled(s, event) && s' == Step(s, event)
  }

  ghost predicate Reaches(events: seq<Event>, states: seq<Sys>, s: Sys) {
    Run(events, states) && states[|events|] == s
  }

  /** Some run ends in this state. */
  ghost predicate Reachable(s: Sys) {
    exists events, states :: Reaches(events, states, s)
  }

  lemma Extends(s: Sys, event: Event, s': Sys)
    requires Reachable(s) && StepsTo(s, event, s')
    ensures Reachable(s')
  {
    var events, states :| Reaches(events, states, s);
    hide Enabled, Step;
    var events', states' := events + [event], states + [s'];
    forall k | 0 <= k < |events'| ensures StepsTo(states'[k], events'[k], states'[k + 1]) {
      if k < |events| {
        assert StepsTo(states[k], events[k], states[k + 1]);
      }
    }
    assert Reaches(events', states', s');
  }

  lemma ByTurn(s: Sys, event: Event, s': Sys)
    requires IsTurnEvent(event) && TurnEnabled(s, event) && s' == TurnStep(s, event)
    ensures StepsTo(s, event, s')
  {
    hide TurnEnabled, TurnStep, OnlyAdds;
  }

  lemma ByReply(s: Sys, event: Event, s': Sys)
    requires IsReplyEvent(event) && ReplyEnabled(s, event) && s' == ReplyStep(s, event)
    ensures StepsTo(s, event, s')
  {
    hide ReplyEnabled, ReplyStep, OnlyTask, EffectFree;
    KindsDiffer(event);
  }

  lemma ByEffect(s: Sys, event: Event, s': Sys)
    requires IsEffectEvent(event) && EffectEnabled(s, event) && s' == EffectStep(s, event)
    ensures StepsTo(s, event, s')
  {
    hide EffectEnabled, EffectStep, OnlyTask, EffectFree;
    KindsDiffer(event);
  }

  lemma StartsReachable()
    ensures Reachable(INITIAL)
  {
    assert Reaches([], [INITIAL], INITIAL);
  }

  lemma Begins()
    ensures StepsTo(INITIAL, Restart(EMPTY), S0)
  {
    assert ResolveEffects(map[]) == map[];
    hide OnlyAdds, OnlyTask, EffectFree;
  }

  lemma TurnArrives()
    ensures StepsTo(S0, Arrive(TURN), S1) && StepsTo(S1, PlanEffect(0, TURN), S2)
  {
    hide Enabled, Step, OnlyAdds;
    ByTurn(S0, Arrive(TURN), S1);
    ByTurn(S1, PlanEffect(0, TURN), S2);
  }

  lemma OneLoads()
    ensures StepsTo(S2, SweepEffect(1, 0), S3) && StepsTo(S3, LoadsEffect(1), S4)
  {
    hide Enabled, Step, StepsTo, OnlyTask, EffectFree;
    assert S4.tasks == S3.tasks[1 := Call(EffectLoaded(0))];
    ByEffect(S2, SweepEffect(1, 0), S3);
    ByEffect(S3, LoadsEffect(1), S4);
  }

  lemma AnotherLoads()
    ensures StepsTo(S4, SweepEffect(2, 0), S5) && StepsTo(S5, LoadsEffect(2), S6)
  {
    hide Enabled, Step, StepsTo, OnlyTask, EffectFree;
    assert S6.tasks == S5.tasks[2 := Call(EffectLoaded(0))];
    ByEffect(S4, SweepEffect(2, 0), S5);
    ByEffect(S5, LoadsEffect(2), S6);
  }

  lemma OneIsRefused()
    ensures StepsTo(S6, DeniesEffect(2), S7)
  {
    hide Enabled, Step, StepsTo, OnlyTask, EffectFree;
    assert S7.tasks == S6.tasks[2 := Call(EffectDenied(0))];
    ByEffect(S6, DeniesEffect(2), S7);
  }

  lemma OneStarts()
    ensures StepsTo(S7, StartsEffect(1), S8)
  {
    hide Enabled, Step, StepsTo, OnlyTask, EffectFree;
    assert S8.tasks == S7.tasks[1 := Call(EffectRunning(0))];
    assert DB2.effects == DB1.effects[0 := Effect(TURN, false, Executing)];
    ByEffect(S7, StartsEffect(1), S8);
  }

  lemma OneRuns()
    ensures StepsTo(S8, Runs(1, true), S9)
  {
    hide Enabled, Step, StepsTo, OnlyTask, EffectFree;
    assert S9.tasks == S8.tasks[1 := Call(EffectRan(0))];
    ByEffect(S8, Runs(1, true), S9);
  }

  lemma OneIsDenied()
    ensures StepsTo(S9, FailsEffect(2), S10)
  {
    hide Enabled, Step, StepsTo, OnlyTask, EffectFree;
    assert S10.tasks == S9.tasks - {2};
    assert DB3.effects == DB2.effects[0 := Effect(TURN, false, FailedTerminal)];
    ByEffect(S9, FailsEffect(2), S10);
  }

  /** Two dispatchers read a pending effect; one is denied, the other starts and runs it, and
      then the denial is recorded: an effect marked as never run was run. */
  lemma FailedEffectMayHaveRun()
    ensures Reachable(S10)
    ensures S10.db.effects[0].state == FailedTerminal && Count(S10.runs, 0) == 1 && !FailureTrue(S10, 0)
  {
    StartsReachable();
    Begins();
    TurnArrives();
    OneLoads();
    AnotherLoads();
    OneIsRefused();
    OneStarts();
    OneRuns();
    OneIsDenied();
    hide StepsTo, Reachable;
    Extends(INITIAL, Restart(EMPTY), S0);
    Extends(S0, Arrive(TURN), S1);
    Extends(S1, PlanEffect(0, TURN), S2);
    Extends(S2, SweepEffect(1, 0), S3);
    Extends(S3, LoadsEffect(1), S4);
    Extends(S4, SweepEffect(2, 0), S5);
    Extends(S5, LoadsEffect(2), S6);
    Extends(S6, DeniesEffect(2), S7);
    Extends(S7, StartsEffect(1), S8);
    Extends(S8, Runs(1, true), S9);
    Extends(S9, FailsEffect(2), S10);
  }
}
