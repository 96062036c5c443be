// Every interleaving of starting, applying, stopping and closing the bot with the chat actions
// of the user interface (internal/control/agent_runtime.go, internal/control/chat_actions.go).
// Operations hold the operations mutex; actions hold the actions lock shared; stopping takes it
// once, exclusively, before it closes the runtime.
module RuntimeProtocol {
  import opened Prelude
  import opened AgentRuntime

  datatype RunInfo = RunInfo(revision: nat, done: bool, actionsCancelled: bool, closing: bool)

  datatype Task =
    | Deciding(kind: Kind)
    | Detaching(next: Option<nat>)             // stopCurrent comes next; `next` is a revision to launch after it
    | Draining(r: RunId, next: Option<nat>)    // the run is marked stopping
    | Locking(r: RunId, next: Option<nat>)     // actions are cancelled; the exclusive lock is taken next
    | ClosingRun(r: RunId, next: Option<nat>)  // the runtime is being closed
    | Opening(revision: nat)
    | Waiting(r: RunId, revision: nat)
    | Aborting(r: RunId)                       // a start that did not come up is being closed
    | ActionLocked                             // holds the actions lock, has not looked yet
    | ActionAdmitted(r: RunId)
    | InAction(r: RunId)
  {
    predicate IsOperation() { !IsAction() }
    predicate IsAction() { ActionLocked? || ActionAdmitted? || InAction? }
    predicate UsesRun() { ActionAdmitted? || InAction? }
  }

  datatype Kind = StartOp | ApplyOp(enabled: bool) | StopOp | CloseOp

  /** `ops` is who holds the operations mutex. `everRan` and `detached` only remember which
      runs were once running and which were marked stopping. */
  datatype Sys = Sys(f: Fields, ops: Option<nat>, tasks: map<nat, Task>, runs: map<RunId, RunInfo>,
                     everRan: set<RunId>, detached: set<RunId>)

  const INITIAL := Sys(CREATED, None, map[], map[], {}, {})

  datatype Event =
    | Operate(t: nat, kind: Kind)
    | Decide(t: nat, revision: nat)
    | Detach(t: nat)
    | CancelActions(t: nat)
    | DrainActions(t: nat)
    | CloseReturns(t: nat, ok: bool)
    | Open(t: nat, r: RunId)
    | OpenFails(t: nat)
    | SeesStarted(t: nat)
    | SeesDone(t: nat)
    | GivesUp(t: nat)
    | AbortReturns(t: nat)
    | RunEnds(r: RunId, clean: bool, cancelled: bool)
    | ActionLocks(t: nat)
    | ActionLooks(t: nat)
    | ActionEnters(t: nat)
    | ActionLeaves(t: nat)

  ghost predicate NoActions(s: Sys) {
    forall u | u in s.tasks :: !s.tasks[u].IsAction()
  }

  ghost predicate Enabled(s: Sys, event: Event) {
    match event
    case Operate(t, _) => t !in s.tasks && s.ops == None
    case Decide(t, _) => t in s.tasks && s.tasks[t].Deciding?
    case Detach(t) => t in s.tasks && s.tasks[t].Detaching?
    case CancelActions(t) => t in s.tasks && s.tasks[t].Draining? && s.tasks[t].r in s.runs
    case DrainActions(t) => t in s.tasks && s.tasks[t].Locking? && s.tasks[t].r in s.runs && NoActions(s)
    case CloseReturns(t, ok) => t in s.tasks && s.tasks[t].ClosingRun? && s.tasks[t].r in s.runs && (ok ==> s.runs[s.tasks[t].r].done)
    case Open(t, r) => t in s.tasks && s.tasks[t].Opening? && r !in s.runs
    case OpenFails(t) => t in s.tasks && s.tasks[t].Opening?
    case SeesStarted(t) => t in s.tasks && s.tasks[t].Waiting?
    case SeesDone(t) => t in s.tasks && s.tasks[t].Waiting? && s.tasks[t].r in s.runs && s.runs[s.tasks[t].r].done
    case GivesUp(t) => t in s.tasks && s.tasks[t].Waiting? && s.tasks[t].r in s.runs
    case AbortReturns(t) => t in s.tasks && s.tasks[t].Aborting?
    case RunEnds(r, _, _) => r in s.runs && !s.runs[r].done
    case ActionLocks(t) => t !in s.tasks
    case ActionLooks(t) => t in s.tasks && s.tasks[t].ActionLocked?
    case ActionEnters(t) => t in s.tasks && s.tasks[t].ActionAdmitted?
    case ActionLeaves(t) => t in s.tasks && s.tasks[t].UsesRun()
  }

  function Becomes(s: Sys, t: nat, task: Task): Sys {
    s.(tasks := s.tasks[t := task])
  }

  function Leaves(s: Sys, t: nat): Sys {
    s.(tasks := s.tasks - {t}, ops := if s.ops == Some(t) then None else s.ops)
  }

  /** stopRun begins, or has nothing to stop; then a launch may follow. */
  function AfterDetach(s: Sys, t: nat, run: Option<RunId>, next: Option<nat>): Sys {
    match run
    case Some(r) => Becomes(s, t, Draining(r, next)).(detached := s.detached + {r})
    case None => if next.Some? then Becomes(s, t, Opening(next.value)) else Leaves(s, t)
  }

  function DecideStep(s: Sys, t: nat, kind: Kind, revision: nat): Sys {
    match kind
    case StartOp => if s.f.closed || s.f.run.Some? then Leaves(s, t) else Becomes(s, t, Opening(revision))
    case ApplyOp(enabled) =>
      if s.f.closed || s.f.run == None || s.f.state != Running then Leaves(s, t)
      else Becomes(s, t, Detaching(if enabled then Some(revision) else None))
    case StopOp => Becomes(s, t, Detaching(None))
    case CloseOp => AfterDetach(s.(f := Detached(s.f.(closed := true))), t, s.f.run, None)
  }

  function OpenStep(s: Sys, t: nat, r: RunId, revision: nat): Sys {
    if s.f.closed then Leaves(s, t)
    else Becomes(s.(f := Installed(s.f, r), runs := s.runs[r := RunInfo(revision, false, false, false)]), t, Waiting(r, revision))
  }

  function StartedStep(s: Sys, t: nat, r: RunId, revision: nat): Sys {
    Leaves(s.(f := Started(s.f, r, revision), everRan := if s.f.run == Some(r) && s.f.state == Starting then s.everRan + {r} else s.everRan), t)
  }

  function CloseStep(s: Sys, t: nat, r: RunId, next: Option<nat>, ok: bool): Sys {
    if ok && next.Some? then Becomes(s, t, Opening(next.value)) else Leaves(s, t)
  }

  function Step(s: Sys, event: Event): Sys
    requires Enabled(s, event)
  {
    match event
    case Operate(t, kind) => Becomes(s, t, Deciding(kind)).(ops := Some(t))
    case Decide(t, revision) => DecideStep(s, t, s.tasks[t].kind, revision)
    case Detach(t) => AfterDetach(s.(f := Detached(s.f)), t, s.f.run, s.tasks[t].next)
    case CancelActions(t) =>
      var task := s.tasks[t];
      Becomes(s, t, Locking(task.r, task.next)).(runs := s.runs[task.r := s.runs[task.r].(actionsCancelled := true)])
    case DrainActions(t) =>
      var task := s.tasks[t];
      Becomes(s, t, ClosingRun(task.r, task.next)).(runs := s.runs[task.r := s.runs[task.r].(closing := true)])
    case CloseReturns(t, ok) => CloseStep(s, t, s.tasks[t].r, s.tasks[t].next, ok)
    case Open(t, r) => OpenStep(s, t, r, s.tasks[t].revision)
    case OpenFails(t) => Leaves(s, t)
    case SeesStarted(t) => StartedStep(s, t, s.tasks[t].r, s.tasks[t].revision)
    case SeesDone(t) => Leaves(s, t)
    case GivesUp(t) =>
      var r := s.tasks[t].r;
      Becomes(s, t, Aborting(r)).(runs := s.runs[r := s.runs[r].(actionsCancelled := true, closing := true)])
    case AbortReturns(t) => Leaves(s, t)
    case RunEnds(r, clean, cancelled) => s.(f := Ended(s.f, r, clean, cancelled), runs := s.runs[r := s.runs[r].(done := true)])
    case ActionLocks(t) => Becomes(s, t, ActionLocked)
    case ActionLooks(t) => if Admitted(s.f).Some? then Becomes(s, t, ActionAdmitted(Admitted(s.f).value)) else Leaves(s, t)
    case ActionEnters(t) => Becomes(s, t, InAction(s.tasks[t].r))
    case ActionLeaves(t) => Leaves(s, t)
  }

  ghost predicate Run(events: seq<Event>, states: seq<Sys>) {
    && |states| == |events| + 1 && states[0] == INITIAL
    && forall k | 0 <= k < |events| :: Enabled(states[k], events[k]) && states[k + 1] == Step(states[k], events[k])
  }

  // ---- The invariant ---------------------------------------------------------------

  ghost predicate FieldsOk(s: Sys) {
    && (s.f.run.Some? ==> s.f.run.value in s.runs && !s.runs[s.f.run.value].done)
    && (s.f.state == Running ==> s.f.run.Some? && s.f.run.value in s.everRan && s.f.run.value !in s.detached
                                 && s.f.activeRev == s.runs[s.f.run.value].revision)
    && (s.f.state == Starting ==> s.f.run.Some? && s.f.run.value !in s.detached && s.f.run.value !in s.everRan)
    && (s.f.state != Running ==> s.f.activeRev == 0)
    && (forall r | r in s.runs && !s.runs[r].done :: s.f.run == Some(r))
    && (forall r | r in s.everRan || r in s.detached :: r in s.runs)
  }

  ghost predicate TaskOk(s: Sys, t: nat, task: Task) {
    && (task.IsOperation() ==> s.ops == Some(t))
    && (task.Draining? || task.Locking? || task.ClosingRun? ==>
          && s.f.state != Running && s.f.state != Starting && task.r in s.runs && task.r in s.detached
          && (s.f.run.Some? ==> s.f.run == Some(task.r)))
    && (task.ClosingRun? ==> forall u | u in s.tasks :: !s.tasks[u].UsesRun())
    && (task.Opening? ==> s.f.run == None)
    && (task.Waiting? || task.Aborting? ==>
          && task.r in s.runs && task.r !in s.everRan && task.r !in s.detached
          && s.f.state != Running && (!s.runs[task.r].done ==> s.f.run == Some(task.r)))
    && (task.Waiting? ==> s.runs[task.r].revision == task.revision)
    && (task.UsesRun() ==> task.r in s.everRan && task.r in s.runs)
  }

  ghost predicate Inv(s: Sys) {
    && FieldsOk(s)
    && (s.ops.Some? ==> s.ops.value in s.tasks && s.tasks[s.ops.value].IsOperation())
    && forall t | t in s.tasks :: TaskOk(s, t, s.tasks[t])
  }

  ghost predicate IsActionEvent(event: Event) {
    event.ActionLocks? || event.ActionLooks? || event.ActionEnters? || event.ActionLeaves? || event.RunEnds?
  }

  ghost predicate IsStopEvent(event: Event) {
    event.Operate? || event.Detach? || event.CancelActions? || event.DrainActions? || event.CloseReturns?
  }

  lemma ActionKeepsInv(s: Sys, event: Event)
    requires Inv(s) && Enabled(s, event) && IsActionEvent(event)
    ensures Inv(Step(s, event))
  {
    var s' := Step(s, event);
    forall t | t in s'.tasks ensures TaskOk(s', t, s'.tasks[t]) {
      if t in s.tasks {
        assert TaskOk(s, t, s.tasks[t]);
      }
    }
  }

  lemma StopKeepsFields(s: Sys, event: Event)
    requires Inv(s) && Enabled(s, event) && IsStopEvent(event)
    ensures FieldsOk(Step(s, event))
  {
  }

  lemma StopKeepsInv(s: Sys, event: Event)
    requires Inv(s) && Enabled(s, event) && IsStopEvent(event)
    ensures Inv(Step(s, event))
  {
    var s' := Step(s, event);
    StopKeepsFields(s, event);
    hide FieldsOk;
    forall t | t in s'.tasks ensures TaskOk(s', t, s'.tasks[t]) {
      if t in s.tasks {
        assert TaskOk(s, t, s.tasks[t]);
      }
    }
  }

  lemma DecidedToLeave(s: Sys, t: nat)
    requires Inv(s) && t in s.tasks && s.tasks[t].Deciding?
    ensures Inv(Leaves(s, t))
  {
    hide FieldsOk;
    assert FieldsOk(Leaves(s, t)) by {
      FieldsDecide(s, Leaves(s, t));
    }
    forall u | u in s.tasks && u != t ensures TaskOk(Leaves(s, t), u, s.tasks[u]) {
      assert TaskOk(s, u, s.tasks[u]) && TaskOk(s, t, s.tasks[t]);
    }
  }

  lemma DecidedToGoOn(s: Sys, t: nat, task: Task)
    requires Inv(s) && t in s.tasks && s.tasks[t].Deciding?
    requires task.Detaching? || (task.Opening? && s.f.run == None)
    ensures Inv(Becomes(s, t, task))
  {
    var s' := Becomes(s, t, task);
    hide FieldsOk;
    FieldsDecide(s, s');
    forall u | u in s.tasks ensures TaskOk(s', u, s'.tasks[u]) {
      assert TaskOk(s, u, s.tasks[u]);
    }
  }

  lemma DecidedToClose(s: Sys, t: nat)
    requires Inv(s) && t in s.tasks && s.tasks[t].Deciding?
    ensures Inv(AfterDetach(s.(f := Detached(s.f.(closed := true))), t, s.f.run, None))
  {
    var s' := AfterDetach(s.(f := Detached(s.f.(closed := true))), t, s.f.run, None);
    assert FieldsOk(s');
    forall u | u in s'.tasks ensures TaskOk(s', u, s'.tasks[u]) {
      assert TaskOk(s, u, s.tasks[u]);
    }
  }

  /** The fields are all that matters to FieldsOk. */
  lemma FieldsDecide(s: Sys, s': Sys)
    requires FieldsOk(s) && s'.f == s.f && s'.runs == s.runs && s'.everRan == s.everRan && s'.detached == s.detached
    ensures FieldsOk(s')
  {
  }

  lemma DecideKeepsInv(s: Sys, event: Event)
    requires Inv(s) && Enabled(s, event) && event.Decide?
    ensures Inv(Step(s, event))
  {
    var t := event.t;
    hide Inv, Leaves, Becomes, AfterDetach;
    match s.tasks[t].kind
    case StartOp => if s.f.closed || s.f.run.Some? { DecidedToLeave(s, t); } else { DecidedToGoOn(s, t, Opening(event.revision)); }
    case ApplyOp(enabled) =>
      if s.f.closed || s.f.run == None || s.f.state != Running {
        DecidedToLeave(s, t);
      } else {
        DecidedToGoOn(s, t, Detaching(if enabled then Some(event.revision) else None));
      }
    case StopOp => DecidedToGoOn(s, t, Detaching(None));
    case CloseOp => DecidedToClose(s, t);
  }

  lemma LaunchKeepsInv(s: Sys, event: Event)
    requires Inv(s) && Enabled(s, event) && !IsStopEvent(event) && !IsActionEvent(event) && !event.Decide?
    ensures Inv(Step(s, event))
  {
    var s' := Step(s, event);
    assert FieldsOk(s');
    forall t | t in s'.tasks ensures TaskOk(s', t, s'.tasks[t]) {
      if t in s.tasks {
        assert TaskOk(s, t, s.tasks[t]);
      }
    }
  }

  lemma StepKeepsInv(s: Sys, event: Event)
    requires Inv(s) && Enabled(s, event)
    ensures Inv(Step(s, event))
  {
    hide Inv, Enabled, Step;
    if IsActionEvent(event) {
      ActionKeepsInv(s, event);
    } else if IsStopEvent(event) {
      StopKeepsInv(s, event);
    } else if event.Decide? {
      DecideKeepsInv(s, event);
    } else {
      LaunchKeepsInv(s, event);
    }
  }

  lemma {:induction false} RunKeepsInv(events: seq<Event>, states: seq<Sys>, k: nat)
    requires Run(events, states) && k < |states|
    ensures Inv(states[k])
  {
    if k > 0 {
      RunKeepsInv(events, states, k - 1);
      hide Inv, Enabled, Step;
      StepKeepsInv(states[k - 1], events[k - 1]);
    }
  }

  // ---- What it promises ---------------------------------------------------------------

  /** While a stop closes a runtime, no chat action is admitted or inside its callback, with
      whatever run; while a failed start is closed, none uses that run. */
  lemma NoActionWhileClosing(events: seq<Event>, states: seq<Sys>, k: nat, t: nat, u: nat)
    requires Run(events, states) && k < |states| && t in states[k].tasks && u in states[k].tasks
    ensures states[k].tasks[t].ClosingRun? ==> !states[k].tasks[u].UsesRun()
    ensures states[k].tasks[t].Aborting? && states[k].tasks[u].UsesRun() ==> states[k].tasks[u].r != states[k].tasks[t].r
  {
    RunKeepsInv(events, states, k);
    assert TaskOk(states[k], t, states[k].tasks[t]) && TaskOk(states[k], u, states[k].tasks[u]);
  }

  /** An action is only ever admitted to the run that is running, which nobody has begun to stop. */
  lemma AdmittedToLiveRunOnly(events: seq<Event>, states: seq<Sys>, k: nat, t: nat)
    requires Run(events, states) && k < |events| && events[k] == ActionLooks(t)
    ensures var s := states[k];
            t in states[k + 1].tasks ==>
              && states[k + 1].tasks[t] == ActionAdmitted(states[k + 1].tasks[t].r)
              && s.f.state == Running && s.f.run == Some(states[k + 1].tasks[t].r)
              && states[k + 1].tasks[t].r !in s.detached && !s.f.closed
              && states[k + 1].tasks[t].r in s.runs && !s.runs[states[k + 1].tasks[t].r].done
  {
    RunKeepsInv(events, states, k);
  }

  /** A revision is reported active exactly for a run that is running with that revision. */
  lemma ActiveRevisionIsTheRunningOne(events: seq<Event>, states: seq<Sys>, k: nat)
    requires Run(events, states) && k < |states|
    ensures var s := states[k];
            s.f.activeRev != 0 ==>
              && s.f.state == Running && s.f.run.Some? && s.f.run.value in s.runs
              && s.runs[s.f.run.value].revision == s.f.activeRev && !s.runs[s.f.run.value].done && s.f.run.value !in s.detached
  {
    RunKeepsInv(events, states, k);
  }

  /** The controller never has two runtimes running at once, and one operation at a time. */
  lemma OneRunAtATime(events: seq<Event>, states: seq<Sys>, k: nat, q: RunId, r: RunId, t: nat, u: nat)
    requires Run(events, states) && k < |states|
    requires q in states[k].runs && r in states[k].runs && t in states[k].tasks && u in states[k].tasks
    ensures !states[k].runs[q].done && !states[k].runs[r].done ==> q == r
    ensures states[k].tasks[t].IsOperation() && states[k].tasks[u].IsOperation() ==> t == u
  {
    RunKeepsInv(events, states, k);
    assert TaskOk(states[k], t, states[k].tasks[t]) && TaskOk(states[k], u, states[k].tasks[u]);
  }

  /** A run that was marked stopping is never running again. */
  lemma {:induction false} DetachedRunsStayDown(events: seq<Event>, states: seq<Sys>, j: nat, k: nat, r: RunId)
    requires Run(events, states) && j <= k < |states| && r in states[j].detached
    ensures r in states[k].detached && (states[k].f.run == Some(r) ==> states[k].f.state != Running)
  {
    hide Inv, Enabled, Step;
    RunKeepsInv(events, states, k);
    if j < k {
      DetachedRunsStayDown(events, states, j, k - 1, r);
      DetachedGrows(states[k - 1], events[k - 1]);
    }
    DetachedIsDown(states[k], r);
  }

  lemma DetachedIsDown(s: Sys, r: RunId)
    requires Inv(s) && r in s.detached
    ensures s.f.run == Some(r) ==> s.f.state != Running
  {
    hide TaskOk;
  }

  lemma DetachedGrows(s: Sys, event: Event)
    requires Enabled(s, event)
    ensures s.detached <= Step(s, event).detached
  {
  }
}
