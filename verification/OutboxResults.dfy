// What every run of the outbox promises: nothing is sent or run twice, outcomes are final, a
// turn gets few model calls and none once it has its plan, and effects are run in order.
module OutboxResults {
  import opened Prelude
  import opened Outbox
  import opened OutboxProtocol
  import opened OutboxSafety
  import opened OutboxChanges

  lemma RunLength(events: seq<Event>, states: seq<Sys>)
    requires Run(events, states)
    ensures |states| == |events| + 1
  {
    hide Enabled, Step;
  }

  lemma StepOfRun(events: seq<Event>, states: seq<Sys>, k: nat)
    requires Run(events, states) && k < |events|
    ensures k + 1 < |states| && Enabled(states[k], events[k]) && states[k + 1] == Step(states[k], events[k])
  {
    hide Enabled, Step;
  }

  /** Over every interleaving of dispatchers, sweeps, crashes and restarts a reply is handed to
      the sender at most once, and its stored state says how often: never while pending or
      failed, exactly once when succeeded. */
  lemma RepliesAreSentAtMostOnce(events: seq<Event>, states: seq<Sys>, k: nat, a: ActionId)
    requires Run(events, states) && k < |states|
    ensures var s := states[k];
            var sends := Count(s.sends, a);
            && sends <= 1
            && (a !in s.db.actions ==> sends == 0)
            && (a in s.db.actions && (s.db.actions[a].state == Pending || s.db.actions[a].state == FailedTerminal) ==> sends == 0)
            && (a in s.db.actions && s.db.actions[a].state == Succeeded ==> sends == 1)
  {
    RunKeepsInv(events, states, k);
    var s := states[k];
    if a in s.db.actions {
      ReplyIsOk(s, a);
    }
  }

  /** Effects run at most once, and a model's effect only after the reply it follows was sent,
      or its turn was answered by effects alone. */
  lemma EffectsRunAtMostOnce(events: seq<Event>, states: seq<Sys>, k: nat, e: EffectId)
    requires Run(events, states) && k < |states|
    ensures var s := states[k];
            var runs := Count(s.runs, e);
            && runs <= 1
            && (runs > 0 ==> e in s.db.effects && s.db.effects[e].state != Pending)
            && (e in s.db.effects && s.db.effects[e].state == Succeeded ==> runs == 1)
            && (runs > 0 && s.db.effects[e].model ==> Answered(s.db, s.db.effects[e].invocation))
  {
    RunKeepsInv(events, states, k);
    if e in states[k].db.effects {
      EffectIsOk(states[k], e);
    }
  }

  // ---- Outcomes are final ---------------------------------------------------------

  /** What later states may not take back. */
  ghost predicate Lasts(db: Db, db': Db) {
    && (forall a | a in db.actions ::
          && a in db'.actions && db'.actions[a].invocation == db.actions[a].invocation && db'.actions[a].response == db.actions[a].response
          && (Final(db.actions[a].state) ==> db'.actions[a].state == db.actions[a].state))
    && (forall e | e in db.effects ::
          e in db'.effects && (Final(db.effects[e].state) ==> db'.effects[e].state == db.effects[e].state))
    && (forall i | i in db.turns && HasPlan(db, i) && db.turns[i].claimed ::
          i in db'.turns && db'.turns[i].claimed && HasPlan(db', i) && (HasReply(db', i) ==> HasReply(db, i)))
  }

  lemma SamePlans(db: Db, db': Db, i: InvocationId)
    requires db'.actions.Keys == db.actions.Keys && forall a | a in db.actions :: db'.actions[a].invocation == db.actions[a].invocation
    ensures HasReply(db', i) <==> HasReply(db, i)
  {
    assert forall a :: a in db'.actions <==> a in db.actions;
    assert forall a :: ReplyRow(db', i, a) <==> ReplyRow(db, i, a);
    if a :| a in db.actions && ReplyRow(db, i, a) {
      assert a in db'.actions && ReplyRow(db', i, a);
    }
  }

  lemma MovedLasts(db: Db, db': Db, a: ActionId, to: RowState)
    requires DbOk(db) && ReplyMoves(db, db', a, to)
    ensures Lasts(db, db')
  {
    forall i | i in db.turns && HasPlan(db, i) && db.turns[i].claimed
      ensures i in db'.turns && db'.turns[i].claimed && HasPlan(db', i) && (HasReply(db', i) ==> HasReply(db, i))
    {
      MovedReplies(db, db', a, to, i);
      if !HasReply(db, i) {
        assert !ReplyRow(db, i, a);
      }
    }
  }

  lemma EffectLasts(db: Db, e: EffectId, state: RowState)
    requires e in db.effects && !Final(db.effects[e].state)
    ensures Lasts(db, SetEffect(db, e, state))
  {
    var db' := SetEffect(db, e, state);
    forall i | i in db.turns && HasPlan(db, i) && db.turns[i].claimed ensures HasPlan(db', i) && (HasReply(db', i) ==> HasReply(db, i)) {
      SamePlans(db, db', i);
    }
  }

  lemma TurnLasts(db: Db, db': Db, i: InvocationId, turn: Turn)
    requires TurnMoves(db, db', i, turn)
    ensures Lasts(db, db')
  {
    forall j | j in db.turns && HasPlan(db, j) && db.turns[j].claimed
      ensures j in db'.turns && db'.turns[j].claimed && HasPlan(db', j) && (HasReply(db', j) ==> HasReply(db, j))
    {
      SamePlans(db, db', j);
    }
  }

  lemma PublishLasts(db: Db, db': Db, i: InvocationId, reply: Option<Reply>, effects: seq<EffectId>)
    requires Publishes(db, db', i, reply, effects)
    ensures Lasts(db, db')
  {
    PublishShape(db, db', i, reply, effects);
    assert forall e | e in db.effects :: e !in PlannedEffects(i, effects);
    forall j | j in db.turns && HasPlan(db, j) && db.turns[j].claimed
      ensures j in db'.turns && db'.turns[j].claimed && HasPlan(db', j) && (HasReply(db', j) ==> HasReply(db, j))
    {
      PublishedReplies(db, db', i, reply, effects, j);
    }
  }

  lemma HistoryLasts(db: Db, db': Db)
    requires db' == db.(history := db'.history) || db' == db.(history := db'.history, effects := db'.effects)
    requires forall e | e in db.effects :: e in db'.effects && db'.effects[e] == db.effects[e]
    ensures Lasts(db, db')
  {
    forall i | i in db.turns && HasPlan(db, i) && db.turns[i].claimed ensures HasPlan(db', i) && (HasReply(db', i) ==> HasReply(db, i)) {
      SamePlans(db, db', i);
    }
  }

  lemma ResolvedLasts(db: Db, db': Db)
    requires DbOk(db) && Resolves(db, db')
    ensures Lasts(db, db')
  {
    hide DbOk, Linked, HasPlan, HasReply, ViewsOk, Resolves;
    RowsLinked(db);
    ResolvedKeys(db, db');
    ResolvedEffects(db, db');
    forall a | a in db.actions ensures db'.actions[a] == db.actions[a].(state := Resolved(db.actions[a].state)) {
      RowIsOk(db, a);
      ResolvedRow(db, db', a);
    }
    forall i | i in db.turns && HasPlan(db, i) && db.turns[i].claimed
      ensures i in db'.turns && db'.turns[i].claimed && HasPlan(db', i) && (HasReply(db', i) ==> HasReply(db, i))
    {
      ResolvedReplies(db, db', i);
      ResolvedPlan(db, db', i);
    }
  }

  lemma ResolvedEffects(db: Db, db': Db)
    requires Resolves(db, db')
    ensures forall e | e in db.effects :: e in db'.effects && (Final(db.effects[e].state) ==> db'.effects[e].state == db.effects[e].state)
  {
    hide ResolvesReplies;
  }

  lemma ResolvedPlan(db: Db, db': Db, i: InvocationId)
    requires DbOk(db) && Resolves(db, db') && i in db.turns && db.turns[i].claimed && HasPlan(db, i)
    ensures i in db'.turns && db'.turns[i].claimed && HasPlan(db', i)
  {
    ResolvedReplies(db, db', i);
    if !HasReply(db, i) {
      assert !TurnCut(db, db.actions.Keys, i);
    }
  }

  /** A turn with a visible plan is claimed. */
  lemma PlanIsClaimed(db: Db, i: InvocationId)
    requires DbOk(db) && i in db.turns && HasPlan(db, i)
    ensures db.turns[i].claimed
  {
    TurnIsOk(db, i);
  }

  lemma ChangeLasts(db: Db, db': Db, change: Change)
    requires DbOk(db) && Changes(db, db', change)
    ensures Lasts(db, db')
  {
    hide DbOk, Lasts, ReplyMoves, TurnMoves, Publishes, Resolves;
    match change
    case ReplyTo(a, to) => MovedLasts(db, db', a, to);
    case EffectTo(e, state) => EffectLasts(db, e, state);
    case TurnTo(i, turn) => TurnLasts(db, db', i, turn);
    case PlanOf(i, plan) => PublishLasts(db, db', i, plan.reply, plan.effects);
    case EntryOf(_) => HistoryLasts(db, db');
    case Apart => HistoryLasts(db, db');
    case Startup => ResolvedLasts(db, db');
  }

  /** No step takes back an outcome, a plan, or what a reply belongs to. */
  lemma StepLasts(s: Sys, event: Event)
    requires Inv(s) && Enabled(s, event)
    ensures Lasts(s.db, Step(s, event).db)
  {
    hide Inv, Enabled, Step, Lasts, Changes;
    var change := StepChanges(s, event);
    TablesOk(s);
    ChangeLasts(s.db, Step(s, event).db, change);
  }

  lemma LastsOn(db: Db, mid: Db, db': Db)
    requires Lasts(db, mid) && Lasts(mid, db')
    ensures Lasts(db, db')
  {
  }

  lemma {:induction false} RunLasts(events: seq<Event>, states: seq<Sys>, j: nat, k: nat)
    requires Run(events, states) && j <= k < |states|
    ensures Lasts(states[j].db, states[k].db)
  {
    hide Lasts, Inv, Enabled, Step;
    if j == k {
      HistoryLasts(states[j].db, states[k].db);
    } else {
      RunLasts(events, states, j, k - 1);
      RunKeepsInv(events, states, k - 1);
      StepLasts(states[k - 1], events[k - 1]);
      LastsOn(states[j].db, states[k - 1].db, states[k].db);
    }
  }

  /** A reply or effect whose outcome is recorded keeps it for good, whatever crashes or runs again. */
  lemma OutcomesAreFinal(events: seq<Event>, states: seq<Sys>, j: nat, k: nat, a: ActionId, e: EffectId)
    requires Run(events, states) && j <= k < |states|
    ensures a in states[j].db.actions && Final(states[j].db.actions[a].state) ==>
              a in states[k].db.actions && states[k].db.actions[a].state == states[j].db.actions[a].state
    ensures e in states[j].db.effects && Final(states[j].db.effects[e].state) ==>
              e in states[k].db.effects && states[k].db.effects[e].state == states[j].db.effects[e].state
  {
    RunLasts(events, states, j, k);
  }

  /** A turn that has its plan keeps it. */
  lemma PlanStays(events: seq<Event>, states: seq<Sys>, j: nat, k: nat, i: InvocationId)
    requires Run(events, states) && j <= k < |states| && i in states[j].db.turns && HasPlan(states[j].db, i)
    ensures i in states[k].db.turns && HasPlan(states[k].db, i)
  {
    hide HasPlan, DbOk, Enabled, Step;
    RunKeepsInv(events, states, j);
    TablesOk(states[j]);
    PlanIsClaimed(states[j].db, i);
    RunLasts(events, states, j, k);
  }

  // ---- Calls to the model ------------------------------------------------------------

  /** A turn is generated at most three times, whatever fails or crashes in between. */
  lemma ModelIsCalledAtMostThreeTimes(events: seq<Event>, states: seq<Sys>, k: nat, i: InvocationId)
    requires Run(events, states) && k < |states|
    ensures Count(states[k].calls, i) <= MAX_GENERATION_ATTEMPTS
  {
    RunKeepsInv(events, states, k);
    TablesOk(states[k]);
    CallsWithin(states[k], i);
    TurnIsOk(states[k].db, i);
  }

  lemma StepCalls(s: Sys, event: Event, i: InvocationId)
    requires Inv(s) && Enabled(s, event) && Count(Step(s, event).calls, i) != Count(s.calls, i)
    ensures i in s.db.turns && !HasPlan(s.db, i)
  {
    hide Inv;
    assert event.CallsModel?;
    TaskIsOk(s, event.t);
  }

  lemma NoCallAt(events: seq<Event>, states: seq<Sys>, k: nat, i: InvocationId)
    requires Run(events, states) && k < |events| && i in states[k].db.turns && HasPlan(states[k].db, i)
    ensures Count(states[k + 1].calls, i) == Count(states[k].calls, i)
  {
    hide Inv, HasPlan, Enabled, Step;
    RunKeepsInv(events, states, k);
    if Count(states[k + 1].calls, i) != Count(states[k].calls, i) {
      StepCalls(states[k], events[k], i);
    }
  }

  /** The model is never asked again once a turn has its plan: not by a replay, not by another
      dispatcher, not after a crash. */
  lemma {:induction false} ModelIsNotCalledAfterPlan(events: seq<Event>, states: seq<Sys>, j: nat, k: nat, i: InvocationId)
    requires Run(events, states) && j <= k < |states|
    requires i in states[j].db.turns && HasPlan(states[j].db, i)
    ensures Count(states[k].calls, i) == Count(states[j].calls, i)
  {
    hide Run, HasPlan, HasReply, ReplyRow;
    if j < k {
      ModelIsNotCalledAfterPlan(events, states, j, k - 1, i);
      PlanStays(events, states, j, k - 1, i);
      RunLength(events, states);
      NoCallAt(events, states, k - 1, i);
    }
  }

  // ---- Order within one plan -------------------------------------------------------------

  /** A call dispatches its effects one by one, in order. */
  ghost predicate InOrder(task: Task) {
    Current(task.pc).Some? ==> task.todo != [] && task.todo[0] == Current(task.pc).value
  }

  /** A call that goes on answers the same turn, and keeps its list once it has one: what it did,
      then what it has yet to do. */
  ghost predicate KeepsList(task: Task, task': Task) {
    && task'.of == task.of
    && (!task.pc.Called? && !task.pc.Claiming? ==> task'.done + task'.todo == task.done + task.todo && task.done <= task'.done)
  }

  /** Call u is in order after the step, and kept its list. */
  ghost predicate OrderKept(s: Sys, s': Sys, u: nat) {
    u in s'.tasks ==> InOrder(s'.tasks[u]) && (u in s.tasks ==> KeepsList(s.tasks[u], s'.tasks[u]))
  }

  lemma Unmoved(s: Sys, s': Sys, t: nat, u: nat)
    requires OnlyTask(s.tasks, s'.tasks, t) && u != t && (u in s.tasks ==> InOrder(s.tasks[u]))
    ensures OrderKept(s, s', u)
  {
  }

  lemma NextDone(task: Task, e: EffectId)
    requires task.todo != [] && task.todo[0] == e
    ensures (task.done + [e]) + task.todo[1..] == task.done + task.todo
  {
  }

  lemma GoesOrder(s: Sys, t: nat, pc: Pc)
    requires t in s.tasks && InOrder(s.tasks[t]) && (Current(pc) == None || Current(pc) == Current(s.tasks[t].pc))
    ensures OrderKept(s, Goes(s, t, pc), t)
  {
  }

  /** Only the calls count. */
  lemma SameOrder(s: Sys, s1: Sys, s2: Sys, t: nat)
    requires s1.tasks == s2.tasks && OrderKept(s, s1, t)
    ensures OrderKept(s, s2, t)
  {
  }

  lemma EndedOrder(s: Sys, s': Sys, t: nat)
    requires t !in s'.tasks
    ensures OrderKept(s, s', t)
  {
  }

  lemma EndsOrder(s: Sys, t: nat)
    ensures OrderKept(s, Ends(s, t), t)
  {
  }

  lemma AdvanceOrder(s: Sys, t: nat, e: EffectId)
    requires t in s.tasks && s.tasks[t].todo != [] && s.tasks[t].todo[0] == e
    ensures OrderKept(s, s.(tasks := s.tasks[t := Task(s.tasks[t].gate, s.tasks[t].of, RunningEffects, s.tasks[t].todo[1..], s.tasks[t].done + [e])]), t)
  {
    NextDone(s.tasks[t], e);
  }

  lemma LoadEffectOrder(s: Sys, t: nat)
    requires t in s.tasks && InOrder(s.tasks[t]) && s.tasks[t].pc.RunningEffects? && s.tasks[t].todo != [] && s.tasks[t].todo[0] in s.db.effects
    ensures OrderKept(s, LoadEffectStep(s, t), t)
  {
    hide OrderKept, InOrder;
    var e := s.tasks[t].todo[0];
    match s.db.effects[e].state
    case Succeeded => AdvanceOrder(s, t, e);
    case Pending => LoadedOrder(s, t, e);
    case _ => EndsOrder(s, t);
  }

  lemma LoadedOrder(s: Sys, t: nat, e: EffectId)
    requires t in s.tasks && s.tasks[t].todo != [] && s.tasks[t].todo[0] == e
    ensures OrderKept(s, Goes(s, t, EffectLoaded(e)), t)
  {
  }

  lemma CompleteEffectOrder(s: Sys, t: nat, reported: bool)
    requires t in s.tasks && InOrder(s.tasks[t]) && s.tasks[t].pc.EffectRan? && s.tasks[t].todo != []
    ensures OrderKept(s, CompleteEffectStep(s, t, reported), t)
  {
    NextDone(s.tasks[t], s.tasks[t].todo[0]);
    hide FinishEffect;
  }

  lemma StartEffectOrder(s: Sys, t: nat)
    requires t in s.tasks && InOrder(s.tasks[t]) && s.tasks[t].pc.EffectLoaded?
    ensures OrderKept(s, StartEffectStep(s, t), t)
  {
    hide Goes, Ends, MayStart, SetEffect, OnlyTask, EffectFree, OrderKept, InOrder;
    var e := s.tasks[t].pc.e;
    if MayStart(s.db, e) {
      GoesOrder(s, t, EffectRunning(e));
      SameOrder(s, Goes(s, t, EffectRunning(e)), StartEffectStep(s, t), t);
    } else {
      EndsOrder(s, t);
    }
  }

  lemma RunOrder(s: Sys, t: nat, ok: bool)
    requires t in s.tasks && InOrder(s.tasks[t]) && s.tasks[t].pc.EffectRunning?
    ensures OrderKept(s, RunStep(s, t, ok), t)
  {
    hide OnlyTask, EffectFree;
  }

  lemma BeginEffectOrder(s: Sys, event: Event)
    requires BeginsEffect(event) && EffectEnabled(s, event) && (event.t in s.tasks ==> InOrder(s.tasks[event.t]))
    ensures OrderKept(s, EffectStep(s, event), event.t)
  {
    hide OrderKept, InOrder, LoadEffectStep, StartEffectStep, CompleteEffectStep, RunStep, OnlyTask, EffectFree, FinishEffect;
    match event
    case SweepEffect(t, e) => NewOrder(s, t, Task(None, None, RunningEffects, [e], []));
    case LoadsEffect(t) => LoadEffectOrder(s, t);
    case DeniesEffect(t) => GoesOrder(s, t, EffectDenied(s.tasks[t].pc.e));
    case StartsEffect(t) => StartEffectOrder(s, t);
  }

  lemma EndEffectOrder(s: Sys, event: Event)
    requires IsEffectEvent(event) && !BeginsEffect(event) && !Settles(event) && EffectEnabled(s, event) && (event.t in s.tasks ==> InOrder(s.tasks[event.t]))
    ensures OrderKept(s, EffectStep(s, event), event.t)
  {
    hide OrderKept, InOrder, LoadEffectStep, StartEffectStep, CompleteEffectStep, RunStep, OnlyTask, EffectFree, FinishEffect;
    match event
    case Runs(t, ok) => RunOrder(s, t, ok);
    case Refuses(t) => GoesOrder(s, t, EffectRefused(s.tasks[t].pc.e));
    case CompletesEffect(t, reported) => CompleteEffectOrder(s, t, reported);
    case EffectCompletionFails(t) => GoesOrder(s, t, EffectInDoubt(s.tasks[t].pc.e));
  }

  lemma OwnEffectOrder(s: Sys, event: Event)
    requires IsEffectEvent(event) && EffectEnabled(s, event) && (event.t in s.tasks ==> InOrder(s.tasks[event.t]))
    ensures OrderKept(s, EffectStep(s, event), event.t)
  {
    hide EffectEnabled, EffectStep, OrderKept, InOrder;
    if Settles(event) {
      SettledEffect(s, event);
      EndedOrder(s, EffectStep(s, event), event.t);
    } else if BeginsEffect(event) {
      BeginEffectOrder(s, event);
    } else {
      EndEffectOrder(s, event);
    }
  }

  lemma OthersUnmoved(s: Sys, event: Event, u: nat)
    requires IsEffectEvent(event) && EffectEnabled(s, event) && (u in s.tasks ==> InOrder(s.tasks[u])) && u != event.t
    ensures OrderKept(s, EffectStep(s, event), u)
  {
    hide EffectEnabled, EffectStep, OrderKept, InOrder, OnlyTask;
    Unmoved(s, EffectStep(s, event), event.t, u);
  }

  lemma EffectOrder(s: Sys, event: Event, u: nat)
    requires IsEffectEvent(event) && EffectEnabled(s, event) && (u in s.tasks ==> InOrder(s.tasks[u]))
    ensures OrderKept(s, EffectStep(s, event), u)
  {
    hide EffectEnabled, EffectStep, OrderKept, InOrder;
    if u == event.t {
      OwnEffectOrder(s, event);
    } else {
      OthersUnmoved(s, event, u);
    }
  }

  lemma NewOrder(s: Sys, t: nat, task: Task)
    requires t !in s.tasks && Current(task.pc) == None
    ensures OrderKept(s, s.(tasks := s.tasks[t := task]), t)
  {
  }

  lemma SendOrder(s: Sys, t: nat, ok: bool)
    requires t in s.tasks && s.tasks[t].pc.ReplySending?
    ensures OrderKept(s, SendStep(s, t, ok), t)
  {
    hide OnlyTask, EffectFree;
  }

  lemma BeginReplyOrder(s: Sys, event: Event)
    requires BeginsReply(event) && ReplyEnabled(s, event) && (event.t in s.tasks ==> InOrder(s.tasks[event.t]))
    ensures OrderKept(s, ReplyStep(s, event), event.t)
  {
    hide OrderKept, InOrder, OnlyTask, EffectFree, FinishReply, StartReply, LoadReplyStep, StartReplyStep, CompleteReplyStep, SendStep;
    match event
    case SweepReply(t, a) => NewOrder(s, t, Task(None, None, Replying(a), [], []));
    case LoadsReply(t) => LoadReplyOrder(s, t);
    case DeniesReply(t) => GoesOrder(s, t, ReplyDenied(s.tasks[t].pc.a));
    case StartsReply(t) => StartReplyOrder(s, t);
  }

  lemma EndReplyOrder(s: Sys, event: Event)
    requires IsReplyEvent(event) && !BeginsReply(event) && !Settles(event) && ReplyEnabled(s, event) && (event.t in s.tasks ==> InOrder(s.tasks[event.t]))
    ensures OrderKept(s, ReplyStep(s, event), event.t)
  {
    hide OrderKept, InOrder, OnlyTask, EffectFree, FinishReply, StartReply, LoadReplyStep, StartReplyStep, CompleteReplyStep, SendStep;
    match event
    case Sends(t, ok) => SendOrder(s, t, ok);
    case CompletesReply(t, reported) => CompleteReplyOrder(s, t, reported);
    case CompletionFails(t) => GoesOrder(s, t, ReplyInDoubt(s.tasks[t].pc.a));
  }

  lemma ReplyOrder(s: Sys, event: Event, u: nat)
    requires IsReplyEvent(event) && ReplyEnabled(s, event) && (u in s.tasks ==> InOrder(s.tasks[u]))
    ensures OrderKept(s, ReplyStep(s, event), u)
  {
    hide ReplyEnabled, ReplyStep, OrderKept, InOrder, OnlyTask;
    if u != event.t {
      Unmoved(s, ReplyStep(s, event), event.t, u);
    } else {
      if Settles(event) {
        SettledReply(s, event);
        EndedOrder(s, ReplyStep(s, event), event.t);
      } else if BeginsReply(event) {
        BeginReplyOrder(s, event);
      } else {
        EndReplyOrder(s, event);
      }
    }
  }

  lemma LoadReplyOrder(s: Sys, t: nat)
    requires t in s.tasks && InOrder(s.tasks[t]) && s.tasks[t].pc.Replying? && s.tasks[t].pc.a in s.db.actions
    ensures OrderKept(s, LoadReplyStep(s, t), t)
  {
    hide OrderKept, InOrder;
    match s.db.actions[s.tasks[t].pc.a].state
    case Succeeded => GoesOrder(s, t, RunningEffects);
    case Pending => GoesOrder(s, t, ReplyLoaded(s.tasks[t].pc.a));
    case _ => EndsOrder(s, t);
  }

  lemma StartReplyOrder(s: Sys, t: nat)
    requires t in s.tasks && InOrder(s.tasks[t]) && s.tasks[t].pc.ReplyLoaded?
    ensures OrderKept(s, StartReplyStep(s, t), t)
  {
    hide Goes, Ends, StartReply, OnlyTask, EffectFree, OrderKept, InOrder;
    var a := s.tasks[t].pc.a;
    if StartReply(s.db, a).Some? {
      GoesOrder(s, t, ReplySending(a));
      SameOrder(s, Goes(s, t, ReplySending(a)), StartReplyStep(s, t), t);
    } else {
      EndsOrder(s, t);
    }
  }

  lemma CompleteReplyOrder(s: Sys, t: nat, reported: bool)
    requires t in s.tasks && s.tasks[t].pc.ReplySent?
    ensures OrderKept(s, CompleteReplyStep(s, t, reported), t)
  {
    hide FinishReply;
  }

  lemma ClaimedCall(s: Sys, t: nat, matches: bool, a: ActionId, effects: seq<EffectId>, next: Option<Task>)
    requires t in s.tasks && s.tasks[t].pc.Claiming?
    requires var (db, claim) := ClaimTurn(s.db, s.tasks[t].pc.i, matches); next == AfterClaim(db, s.tasks[t], s.tasks[t].pc.i, claim, a, effects)
    ensures ClaimStep(s, t, matches, a, effects).tasks == if next.Some? then s.tasks[t := next.value] else s.tasks - {t}
  {
    hide ClaimTurn, AfterClaim, OnlyTask, EffectFree;
  }

  lemma ClaimOrder(s: Sys, t: nat, matches: bool, a: ActionId, effects: seq<EffectId>)
    requires t in s.tasks && s.tasks[t].pc.Claiming?
    ensures OrderKept(s, ClaimStep(s, t, matches, a, effects), t)
  {
    hide ClaimStep, ClaimTurn, AfterClaim, OnlyTask, EffectFree, OrderKept, KeepsList;
    var i := s.tasks[t].pc.i;
    var (db, claim) := ClaimTurn(s.db, i, matches);
    var next := AfterClaim(db, s.tasks[t], i, claim, a, effects);
    ClaimedCall(s, t, matches, a, effects, next);
    if next.Some? {
      AfterClaimKeepsList(db, s.tasks[t], i, claim, a, effects);
      BecomesOrder(s, ClaimStep(s, t, matches, a, effects), t, next.value);
    } else {
      EndedOrder(s, ClaimStep(s, t, matches, a, effects), t);
    }
  }

  lemma BecomesOrder(s: Sys, s': Sys, t: nat, task: Task)
    requires t in s.tasks && s'.tasks == s.tasks[t := task] && Current(task.pc) == None && KeepsList(s.tasks[t], task)
    ensures OrderKept(s, s', t)
  {
  }

  lemma AfterClaimKeepsList(db: Db, task: Task, i: InvocationId, claim: Claim, a: ActionId, effects: seq<EffectId>)
    requires task.pc.Claiming? && AfterClaim(db, task, i, claim, a, effects).Some?
    ensures KeepsList(task, AfterClaim(db, task, i, claim, a, effects).value)
  {
    hide HasReply;
  }

  lemma CommitOrder(s: Sys, t: nat, reply: Option<Reply>, effects: seq<EffectId>)
    requires t in s.tasks && s.tasks[t].pc.Called?
    ensures OrderKept(s, CommitStep(s, t, reply, effects), t)
  {
    hide CommitPlan, OnlyTask, OnlyAdds;
  }

  lemma RestoreOrder(s: Sys, t: nat)
    requires TurnEnabled(s, Restore(t))
    ensures OrderKept(s, RestoreStep(s, t), t)
  {
    hide OnlyTask;
  }

  lemma CallOrder(s: Sys, event: Event)
    requires IsCallEvent(event) && TurnEnabled(s, event)
    ensures OrderKept(s, TurnStep(s, event), event.t) && OnlyTask(s.tasks, TurnStep(s, event).tasks, event.t)
  {
    hide OrderKept, InOrder, OnlyTask, OnlyAdds, EffectFree, FailGeneration, RestoreStep, ClaimStep, CommitStep;
    match event
    case Restore(t) => RestoreOrder(s, t);
    case ClaimsTurn(t, matches, a, effects) => ClaimOrder(s, t, matches, a, effects);
    case GenerationFails(t, _) => EndedOrder(s, TurnStep(s, event), t);
    case CallsModel(t) => CalledOrder(s, t); SameOrder(s, Goes(s, t, Called(s.tasks[t].pc.i)), TurnStep(s, event), t);
    case CommitsPlan(t, reply, effects) => CommitOrder(s, t, reply, effects);
  }

  lemma CalledOrder(s: Sys, t: nat)
    requires t in s.tasks && s.tasks[t].pc.Preparing?
    ensures OrderKept(s, Goes(s, t, Called(s.tasks[t].pc.i)), t)
  {
  }

  lemma OutsideOrder(s: Sys, event: Event, u: nat)
    requires IsTurnEvent(event) && !IsCallEvent(event) && TurnEnabled(s, event) && (u in s.tasks ==> InOrder(s.tasks[u]))
    ensures OrderKept(s, TurnStep(s, event), u)
  {
    hide HasReply, Lists, OnlyAdds;
  }

  lemma TurnOrder(s: Sys, event: Event, u: nat)
    requires IsTurnEvent(event) && TurnEnabled(s, event) && (u in s.tasks ==> InOrder(s.tasks[u]))
    ensures OrderKept(s, TurnStep(s, event), u)
  {
    hide TurnEnabled, TurnStep, OrderKept, InOrder, OnlyTask;
    if !IsCallEvent(event) {
      OutsideOrder(s, event, u);
    } else {
      CallOrder(s, event);
      if u != event.t {
        Unmoved(s, TurnStep(s, event), event.t, u);
      }
    }
  }

  /** No step disturbs the order in which a call works off its effects. */
  lemma StepOrder(s: Sys, event: Event, u: nat)
    requires Enabled(s, event) && (u in s.tasks ==> InOrder(s.tasks[u]))
    ensures OrderKept(s, Step(s, event), u)
  {
    hide OrderKept, InOrder, TurnEnabled, ReplyEnabled, EffectEnabled, TurnStep, ReplyStep, EffectStep, OnlyAdds, OnlyTask, EffectFree;
    if IsTurnEvent(event) {
      TurnKind(s, event);
      TurnOrder(s, event, u);
    } else if IsReplyEvent(event) {
      ReplyKind(s, event);
      ReplyOrder(s, event, u);
    } else if IsEffectEvent(event) {
      EffectKind(s, event);
      EffectOrder(s, event, u);
    } else {
      SystemOrder(s, event, u);
    }
  }

  lemma SystemOrder(s: Sys, event: Event, u: nat)
    requires Enabled(s, event) && !IsTurnEvent(event) && !IsReplyEvent(event) && !IsEffectEvent(event) && (u in s.tasks ==> InOrder(s.tasks[u]))
    ensures OrderKept(s, Step(s, event), u)
  {
  }

  lemma {:induction false} RunInOrder(events: seq<Event>, states: seq<Sys>, k: nat, u: nat)
    requires Run(events, states) && k < |states|
    ensures u in states[k].tasks ==> InOrder(states[k].tasks[u])
  {
    if k > 0 {
      RunInOrder(events, states, k - 1, u);
      hide Enabled, Step, InOrder;
      StepOrder(states[k - 1], events[k - 1], u);
    }
  }

  /** Within one plan an effect is begun only when every effect before it in the plan has
      succeeded, and a call never reorders, skips or adds to what it has to do. */
  lemma EffectsFollowInOrder(events: seq<Event>, states: seq<Sys>, k: nat, t: nat)
    requires Run(events, states) && k < |events| && t in states[k].tasks
    ensures var task := states[k].tasks[t];
            && (forall d | d in task.done :: d in states[k].db.effects && states[k].db.effects[d].state == Succeeded)
            && (Current(task.pc).Some? ==> task.todo != [] && task.todo[0] == Current(task.pc).value)
            && (t in states[k + 1].tasks ==> KeepsList(task, states[k + 1].tasks[t]))
  {
    RunKeepsInv(events, states, k);
    TaskIsOk(states[k], t);
    RunInOrder(events, states, k, t);
    StepOrder(states[k], events[k], t);
  }
}
