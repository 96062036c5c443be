// What one step can make of the tables. There are seven kinds of change, and everything that
// holds of the tables over a whole run is proved kind by kind.
module OutboxChanges {
  import opened Prelude
  import opened Outbox
  import opened OutboxProtocol
  import opened OutboxSafety

  datatype Change =
    | ReplyTo(a: ActionId, to: RowState)
    | EffectTo(e: EffectId, state: RowState)
    | TurnTo(i: InvocationId, turn: Turn)
    | PlanOf(i: InvocationId, plan: Plan)
    | EntryOf(m: EntryId)
    | Apart                                    // at most a new effect that follows no reply
    | Startup

  ghost predicate Changes(db: Db, db': Db, change: Change) {
    match change
    case ReplyTo(a, to) => ReplyMoves(db, db', a, to)
    case EffectTo(e, state) => e in db.effects && !Final(db.effects[e].state) && db' == SetEffect(db, e, state)
    case TurnTo(i, turn) => TurnMoves(db, db', i, turn)
    case PlanOf(i, plan) => Publishes(db, db', i, plan.reply, plan.effects)
    case EntryOf(m) => EntryChanges(db, db', m)
    case Apart => AddsApart(db, db')
    case Startup => Resolves(db, db')
  }

  ghost predicate AddsApart(db: Db, db': Db) {
    && db' == db.(effects := db'.effects)
    && (forall e | e in db.effects :: e in db'.effects && db'.effects[e] == db.effects[e])
    && (forall e | e in db'.effects && e !in db.effects :: !db'.effects[e].model)
  }

  /** The change of a step, and the events and records that go with it. */
  ghost predicate Explains(s: Sys, event: Event, s': Sys, change: Change) {
    && Changes(s.db, s'.db, change)
    && (change.EntryOf? ==> event.Restore? || event.TrimEntry?)
    && if change.PlanOf? then
         event.CommitsPlan? && event.t in s.tasks && s.tasks[event.t].pc == Called(change.i) && s'.plans == s.plans[change.i := change.plan]
       else s'.plans == s.plans
  }

  lemma NothingChanges(db: Db)
    ensures Changes(db, db, Apart)
  {
  }

  /** A write to a reply, a turn, an effect, or nothing. */
  predicate Plain(change: Change) {
    change.ReplyTo? || change.EffectTo? || change.TurnTo? || change.Apart?
  }

  lemma FinishChanges(s: Sys, a: ActionId, from: RowState, to: RowState) returns (change: Change)
    requires LegalMove(from, to)
    ensures Plain(change) && Changes(s.db, After(s.db, FinishReply(s.db, a, from, to)), change)
  {
    FinishMoves(s.db, a, from, to);
    NothingChanges(s.db);
    hide FinishReply, ReplyMoves;
    change := if FinishReply(s.db, a, from, to).Some? then ReplyTo(a, to) else Apart;
  }

  lemma StartChanges(s: Sys, t: nat) returns (change: Change)
    requires Inv(s) && At(s, t) && s.tasks[t].pc.ReplyLoaded?
    ensures Plain(change) && Changes(s.db, StartReplyStep(s, t).db, change)
  {
    hide Inv, StartReply, ReplyMoves, OnlyTask;
    var a := s.tasks[t].pc.a;
    NothingChanges(s.db);
    if StartReply(s.db, a).Some? {
      Startable(s, a);
      change := ReplyTo(a, Executing);
    } else {
      change := Apart;
    }
  }

  lemma FinishEffectChanges(db: Db, e: EffectId, from: set<RowState>, to: RowState) returns (change: Change)
    requires from <= {Pending, Executing}
    ensures Plain(change) && Changes(db, After(db, FinishEffect(db, e, from, to)), change)
    ensures change == EffectTo(e, to) || (change == Apart && After(db, FinishEffect(db, e, from, to)) == db)
  {
    NothingChanges(db);
    change := if FinishEffect(db, e, from, to).Some? then EffectTo(e, to) else Apart;
  }

  lemma StartEffectChanges(s: Sys, t: nat) returns (change: Change)
    requires t in s.tasks && s.tasks[t].pc.EffectLoaded?
    ensures Plain(change) && Changes(s.db, StartEffectStep(s, t).db, change)
    ensures change == EffectTo(s.tasks[t].pc.e, Executing) || (change == Apart && StartEffectStep(s, t).db == s.db)
  {
    hide Answered, OnlyTask;
    NothingChanges(s.db);
    change := if MayStart(s.db, s.tasks[t].pc.e) then EffectTo(s.tasks[t].pc.e, Executing) else Apart;
  }

  lemma ClaimChanges(s: Sys, t: nat, matches: bool, a: ActionId, effects: seq<EffectId>) returns (change: Change)
    requires Inv(s) && At(s, t) && s.tasks[t].pc.Claiming?
    ensures Plain(change) && Changes(s.db, ClaimStep(s, t, matches, a, effects).db, change)
  {
    hide Inv, DbOk, ClaimTurn, TurnMoves, HasPlan;
    var i := s.tasks[t].pc.i;
    TaskIsOk(s, t);
    TablesOk(s);
    ClaimMoves(s.db, i, matches);
    NothingChanges(s.db);
    var db' := ClaimStep(s, t, matches, a, effects).db;
    change := if db' != s.db then TurnTo(i, db'.turns[i]) else Apart;
  }

  lemma FailGenerationChanges(s: Sys, t: nat, retryable: bool) returns (change: Change)
    requires Inv(s) && At(s, t) && (s.tasks[t].pc.Preparing? || s.tasks[t].pc.Called?)
    ensures Plain(change) && Changes(s.db, After(s.db, FailGeneration(s.db, s.tasks[t].pc.i, retryable)), change)
  {
    hide Inv, DbOk, CountsOk;
    var i := s.tasks[t].pc.i;
    TaskIsOk(s, t);
    TablesOk(s);
    TurnIsOk(s.db, i);
    NothingChanges(s.db);
    change := if s.db.turns[i].state == Generating
              then TurnTo(i, s.db.turns[i].(state := if retryable then FailedRetryable else TurnFailedTerminal)) else Apart;
  }

  lemma ArriveChanges(s: Sys, i: InvocationId)
    requires Inv(s) && i !in s.db.turns
    ensures var turn := Turn(false, Unstarted, 0); TurnMoves(s.db, s.db.(turns := s.db.turns[i := turn]), i, turn)
  {
    hide Inv, CountsOk;
    TablesOk(s);
    TurnIsOk(s.db, i);
  }

  lemma SetAsideChanges(s: Sys, i: InvocationId)
    requires Inv(s) && i in s.db.turns && (!s.db.turns[i].claimed || (!HasReply(s.db, i) && s.db.turns[i].state != TurnSucceeded))
    ensures TurnMoves(s.db, SetTurn(s.db, i, Ignored), i, s.db.turns[i].(state := Ignored))
  {
    hide Inv, CountsOk;
    TablesOk(s);
    TurnIsOk(s.db, i);
  }

  lemma CommitChanges(s: Sys, t: nat, reply: Option<Reply>, effects: seq<EffectId>) returns (change: Change)
    requires t in s.tasks && s.tasks[t].pc.Called?
    ensures var s', i := CommitStep(s, t, reply, effects), s.tasks[t].pc.i;
            && Changes(s.db, s'.db, change)
            && ((change == PlanOf(i, Plan(reply, effects)) && s'.plans == s.plans[i := Plan(reply, effects)])
                || (change == Apart && s'.plans == s.plans))
  {
    hide CommitPlan, OnlyTask;
    NothingChanges(s.db);
    change := if CommitPlan(s.db, s.tasks[t].pc.i, reply, effects, false).1 == Published then PlanOf(s.tasks[t].pc.i, Plan(reply, effects)) else Apart;
  }

  lemma RestoreChanges(s: Sys, t: nat) returns (change: Change)
    requires TurnEnabled(s, Restore(t))
    ensures change.EntryOf? && Changes(s.db, RestoreStep(s, t).db, change)
  {
    var m := s.db.actions[s.tasks[t].pc.a].response;
    change := EntryOf(m);
    assert RestoreStep(s, t).db.history - {m} == s.db.history - {m};
  }

  lemma TrimChanges(db: Db, m: EntryId)
    ensures EntryChanges(db, db.(history := db.history - {m}), m)
  {
  }

  /** Steps of a call on the way to its plan. */
  predicate IsCallEvent(event: Event) {
    event.Restore? || event.ClaimsTurn? || event.GenerationFails? || event.CallsModel? || event.CommitsPlan?
  }

  lemma OutsideEventChanges(s: Sys, event: Event) returns (change: Change)
    requires IsTurnEvent(event) && !IsCallEvent(event) && Inv(s) && TurnEnabled(s, event)
    ensures Explains(s, event, TurnStep(s, event), change)
  {
    hide Inv, EntryChanges, TurnMoves, OnlyTask, OnlyAdds, InvokeStep;
    NothingChanges(s.db);
    match event
    case Arrive(i) => ArriveChanges(s, i); change := TurnTo(i, Turn(false, Unstarted, 0));
    case SetAside(i) => SetAsideChanges(s, i); change := TurnTo(i, s.db.turns[i].(state := Ignored));
    case ResetTurn(i) => SetAsideChanges(s, i); change := TurnTo(i, s.db.turns[i].(state := Ignored));
    case PlanEffect(_, _) => change := Apart;
    case TrimEntry(m) => TrimChanges(s.db, m); change := EntryOf(m);
    case Invoke(_, _, _, _) => change := Apart;
  }

  lemma CallEventChanges(s: Sys, event: Event) returns (change: Change)
    requires IsCallEvent(event) && Inv(s) && TurnEnabled(s, event)
    ensures Explains(s, event, TurnStep(s, event), change)
  {
    hide Inv, CommitPlan, FailGeneration, Changes, OnlyTask, OnlyAdds, RestoreStep, ClaimStep, CommitStep;
    NothingChanges(s.db);
    match event
    case Restore(t) => change := RestoreChanges(s, t);
    case ClaimsTurn(t, matches, a, effects) => change := ClaimChanges(s, t, matches, a, effects);
    case GenerationFails(t, retryable) => change := FailGenerationChanges(s, t, retryable);
    case CallsModel(_) => change := Apart;
    case CommitsPlan(t, reply, effects) => change := CommitChanges(s, t, reply, effects);
  }

  lemma ReplyEventChanges(s: Sys, event: Event) returns (change: Change)
    requires IsReplyEvent(event) && Writes(event) && Inv(s) && ReplyEnabled(s, event)
    ensures Plain(change) && Changes(s.db, ReplyStep(s, event).db, change)
  {
    hide Inv, FinishReply, StartReplyStep, CompleteReplyStep, Changes, OnlyTask, EffectFree;
    match event
    case FailsReply(t) => change := FinishChanges(s, s.tasks[t].pc.a, Pending, FailedTerminal);
    case StartsReply(t) => change := StartChanges(s, t);
    case CompletesReply(t, reported) => change := FinishChanges(s, s.tasks[t].pc.a, Executing, Succeeded); CompletionWrites(s, t, reported);
    case MarksReply(t) => change := FinishChanges(s, s.tasks[t].pc.a, Executing, UnknownOutcome);
  }

  lemma CompletionWrites(s: Sys, t: nat, reported: bool)
    requires t in s.tasks && s.tasks[t].pc.ReplySent?
    ensures CompleteReplyStep(s, t, reported).db == After(s.db, FinishReply(s.db, s.tasks[t].pc.a, Executing, Succeeded))
  {
    hide FinishReply;
  }

  lemma EffectOutcomeChanges(s: Sys, event: Event) returns (change: Change)
    requires (event.FailsEffect? || event.MarksEffect?) && event.t in s.tasks && Current(s.tasks[event.t].pc).Some? && EffectEnabled(s, event)
    ensures Plain(change) && Changes(s.db, EffectStep(s, event).db, change)
    ensures (change == Apart && EffectStep(s, event).db == s.db)
            || (change.EffectTo? && change.e == s.tasks[event.t].pc.e && (change.state == FailedTerminal <==> event.FailsEffect?))
  {
    hide FinishEffect, Changes, OnlyTask, EffectFree;
    match event
    case FailsEffect(t) => change := FinishEffectChanges(s.db, s.tasks[t].pc.e, {Pending, Executing}, FailedTerminal);
    case MarksEffect(t) => change := FinishEffectChanges(s.db, s.tasks[t].pc.e, {Executing}, UnknownOutcome);
  }

  lemma EffectRunChanges(s: Sys, event: Event) returns (change: Change)
    requires (event.StartsEffect? || event.CompletesEffect?) && event.t in s.tasks && Current(s.tasks[event.t].pc).Some? && EffectEnabled(s, event)
    ensures Plain(change) && Changes(s.db, EffectStep(s, event).db, change)
    ensures (change == Apart && EffectStep(s, event).db == s.db)
            || (change.EffectTo? && change.e == s.tasks[event.t].pc.e && change.state != FailedTerminal)
  {
    hide FinishEffect, StartEffectStep, CompleteEffectStep, Changes, OnlyTask, EffectFree;
    match event
    case StartsEffect(t) => change := StartEffectChanges(s, t);
    case CompletesEffect(t, reported) => change := FinishEffectChanges(s.db, s.tasks[t].pc.e, {Executing}, Succeeded); RunWrites(s, t, reported);
  }

  lemma EffectEventChanges(s: Sys, event: Event) returns (change: Change)
    requires IsEffectEvent(event) && Writes(event) && event.t in s.tasks && Current(s.tasks[event.t].pc).Some? && EffectEnabled(s, event)
    ensures Plain(change) && Changes(s.db, EffectStep(s, event).db, change)
    ensures (change == Apart && EffectStep(s, event).db == s.db)
            || (change.EffectTo? && change.e == s.tasks[event.t].pc.e && (change.state == FailedTerminal <==> event.FailsEffect?))
  {
    hide EffectEnabled, EffectStep, Changes, OnlyTask, EffectFree;
    if event.FailsEffect? || event.MarksEffect? {
      change := EffectOutcomeChanges(s, event);
    } else {
      change := EffectRunChanges(s, event);
    }
  }

  lemma RunWrites(s: Sys, t: nat, reported: bool)
    requires t in s.tasks && s.tasks[t].pc.EffectRan? && s.tasks[t].todo != []
    ensures CompleteEffectStep(s, t, reported).db == After(s.db, FinishEffect(s.db, s.tasks[t].pc.e, {Executing}, Succeeded))
  {
    hide FinishEffect;
  }

  lemma WriterIsAtEffect(s: Sys, event: Event)
    requires IsEffectEvent(event) && Writes(event) && EffectEnabled(s, event)
    ensures event.t in s.tasks && Current(s.tasks[event.t].pc).Some?
  {
  }

  /** Every step is explained by one change. */
  lemma StepChanges(s: Sys, event: Event) returns (change: Change)
    requires Inv(s) && Enabled(s, event)
    ensures Explains(s, event, Step(s, event), change)
  {
    hide Inv, Enabled, Changes, Step, TurnEnabled, ReplyEnabled, EffectEnabled, TurnStep, ReplyStep, EffectStep, OnlyAdds, OnlyTask, EffectFree;
    NothingChanges(s.db);
    if IsTurnEvent(event) {
      TurnKind(s, event);
      if IsCallEvent(event) {
        change := CallEventChanges(s, event);
      } else {
        change := OutsideEventChanges(s, event);
      }
    } else if !Writes(event) {
      change := Apart;
    } else if IsReplyEvent(event) {
      ReplyKind(s, event);
      change := ReplyEventChanges(s, event);
    } else if IsEffectEvent(event) {
      EffectKind(s, event);
      WriterIsAtEffect(s, event);
      change := EffectEventChanges(s, event);
    } else {
      RestartChanges(s, event);
      change := Startup;
    }
  }

  lemma RestartChanges(s: Sys, event: Event)
    requires event.Restart? && Enabled(s, event)
    ensures Changes(s.db, Step(s, event).db, Startup)
  {
    hide Resolves;
  }

  // ---- What a step makes of a call ------------------------------------------------------------

  /** The reply a call is dispatching, if it is at one. */
  function AtReply(pc: Pc): Option<ActionId> {
    match pc
    case Restoring(_, a, _) => Some(a)
    case Replying(a) => Some(a)
    case ReplyLoaded(a) => Some(a)
    case ReplyDenied(a) => Some(a)
    case ReplySending(a) => Some(a)
    case ReplySent(a) => Some(a)
    case ReplyInDoubt(a) => Some(a)
    case _ => None
  }

  /** Before the plan is dispatched. */
  predicate Early(pc: Pc) {
    pc.Claiming? || pc.Preparing? || pc.Called? || pc.Restoring?
  }

  predicate Delivered(db: Db, a: ActionId) {
    a in db.actions && db.actions[a].state == Succeeded
  }

  /** A call stays with its reply until the reply has succeeded, and never turns back. */
  ghost predicate Advances(db': Db, pc: Pc, pc': Pc) {
    && !Early(pc')
    && (AtReply(pc') == AtReply(pc) || (AtReply(pc') == None && Delivered(db', AtReply(pc).value)))
  }

  /** Call t, if it was there and goes on, advances. */
  ghost predicate OwnAdvances(s: Sys, s': Sys, t: nat) {
    t in s.tasks && t in s'.tasks ==> Advances(s'.db, s.tasks[t].pc, s'.tasks[t].pc)
  }

  lemma GoesAdvances(s: Sys, s': Sys, t: nat, pc: Pc)
    requires t in s.tasks && s'.tasks == Goes(s, t, pc).tasks && Advances(s'.db, s.tasks[t].pc, pc)
    ensures OwnAdvances(s, s', t)
  {
    hide Advances;
  }

  lemma EndsAdvances(s: Sys, s': Sys, t: nat)
    requires s'.tasks == Ends(s, t).tasks
    ensures OwnAdvances(s, s', t)
  {
  }

  predicate BeginsReply(event: Event) {
    event.SweepReply? || event.LoadsReply? || event.DeniesReply? || event.StartsReply?
  }

  /** Steps that write an outcome and end the call. */
  predicate Settles(event: Event) {
    event.FailsReply? || event.MarksReply? || event.FailsEffect? || event.MarksEffect?
  }

  lemma SettledReply(s: Sys, event: Event)
    requires IsReplyEvent(event) && Settles(event) && ReplyEnabled(s, event)
    ensures ReplyStep(s, event).tasks == s.tasks - {event.t}
  {
    hide FinishReply, OnlyTask, EffectFree;
  }

  lemma SettledEffect(s: Sys, event: Event)
    requires IsEffectEvent(event) && Settles(event) && EffectEnabled(s, event)
    ensures EffectStep(s, event).tasks == s.tasks - {event.t}
  {
    hide FinishEffect, OnlyTask, EffectFree;
  }

  lemma SettlesEnd(s: Sys, event: Event)
    requires Settles(event) && Enabled(s, event)
    ensures Step(s, event).tasks == s.tasks - {event.t}
  {
    hide Enabled, Step, ReplyStep, EffectStep, ReplyEnabled, EffectEnabled, OnlyTask, EffectFree;
    if IsReplyEvent(event) {
      ReplyKind(s, event);
      SettledReply(s, event);
    } else {
      EffectKind(s, event);
      SettledEffect(s, event);
    }
  }

  lemma LoadReplyAdvances(s: Sys, t: nat)
    requires t in s.tasks && s.tasks[t].pc.Replying? && s.tasks[t].pc.a in s.db.actions
    ensures OwnAdvances(s, LoadReplyStep(s, t), t)
  {
    hide Goes, Ends, OnlyTask, EffectFree, OwnAdvances;
    match s.db.actions[s.tasks[t].pc.a].state
    case Succeeded => GoesAdvances(s, LoadReplyStep(s, t), t, RunningEffects);
    case Pending => GoesAdvances(s, LoadReplyStep(s, t), t, ReplyLoaded(s.tasks[t].pc.a));
    case _ => EndsAdvances(s, LoadReplyStep(s, t), t);
  }

  lemma StartReplyAdvances(s: Sys, t: nat)
    requires t in s.tasks && s.tasks[t].pc.ReplyLoaded?
    ensures OwnAdvances(s, StartReplyStep(s, t), t)
  {
    hide Goes, Ends, OnlyTask, EffectFree, OwnAdvances, StartReply;
    if StartReply(s.db, s.tasks[t].pc.a).Some? {
      GoesAdvances(s, StartReplyStep(s, t), t, ReplySending(s.tasks[t].pc.a));
    } else {
      EndsAdvances(s, StartReplyStep(s, t), t);
    }
  }

  lemma SendAdvances(s: Sys, t: nat, ok: bool)
    requires t in s.tasks && s.tasks[t].pc.ReplySending?
    ensures OwnAdvances(s, SendStep(s, t, ok), t)
  {
    hide Goes, OnlyTask, EffectFree, OwnAdvances;
    GoesAdvances(s, SendStep(s, t, ok), t, if ok then ReplySent(s.tasks[t].pc.a) else ReplyInDoubt(s.tasks[t].pc.a));
  }

  lemma CompleteReplyAdvances(s: Sys, t: nat, reported: bool)
    requires t in s.tasks && s.tasks[t].pc.ReplySent?
    ensures OwnAdvances(s, CompleteReplyStep(s, t, reported), t)
  {
    hide Goes, OnlyTask, EffectFree, OwnAdvances;
    var a := s.tasks[t].pc.a;
    var s' := CompleteReplyStep(s, t, reported);
    if FinishReply(s.db, a, Executing, Succeeded).Some? && reported {
      FinishReplyShape(s.db, a, Executing, Succeeded);
      GoesAdvances(s, s', t, RunningEffects);
    } else {
      GoesAdvances(s, s', t, ReplyInDoubt(a));
    }
  }

  lemma BeginReplyAdvances(s: Sys, event: Event)
    requires BeginsReply(event) && ReplyEnabled(s, event)
    ensures OwnAdvances(s, ReplyStep(s, event), event.t)
  {
    hide Goes, Ends, Becomes, OnlyTask, EffectFree, OwnAdvances, LoadReplyStep, StartReplyStep;
    match event
    case SweepReply(t, a) => NewAdvances(s, ReplyStep(s, event), t);
    case LoadsReply(t) => LoadReplyAdvances(s, t);
    case DeniesReply(t) => GoesAdvances(s, ReplyStep(s, event), t, ReplyDenied(s.tasks[t].pc.a));
    case StartsReply(t) => StartReplyAdvances(s, t);
  }

  lemma EndReplyAdvances(s: Sys, event: Event)
    requires IsReplyEvent(event) && !BeginsReply(event) && !Settles(event) && ReplyEnabled(s, event)
    ensures OwnAdvances(s, ReplyStep(s, event), event.t)
  {
    hide Goes, Ends, OnlyTask, EffectFree, OwnAdvances, SendStep, CompleteReplyStep;
    match event
    case Sends(t, ok) => SendAdvances(s, t, ok);
    case CompletesReply(t, reported) => CompleteReplyAdvances(s, t, reported);
    case CompletionFails(t) => GoesAdvances(s, ReplyStep(s, event), t, ReplyInDoubt(s.tasks[t].pc.a));
  }

  lemma NewAdvances(s: Sys, s': Sys, t: nat)
    requires t !in s.tasks
    ensures OwnAdvances(s, s', t)
  {
  }

  /** Between effects a call is at none of its earlier points. */
  lemma EffectPoints(s: Sys, s': Sys, t: nat)
    requires t in s.tasks && t in s'.tasks ==>
               !Early(s'.tasks[t].pc) && AtReply(s'.tasks[t].pc) == None && AtReply(s.tasks[t].pc) == None
    ensures OwnAdvances(s, s', t)
  {
  }

  lemma LoadEffectAdvances(s: Sys, t: nat)
    requires t in s.tasks && s.tasks[t].pc.RunningEffects? && s.tasks[t].todo != [] && s.tasks[t].todo[0] in s.db.effects
    ensures OwnAdvances(s, LoadEffectStep(s, t), t)
  {
    hide Goes, Ends, OnlyTask, EffectFree, OwnAdvances;
    match s.db.effects[s.tasks[t].todo[0]].state
    case Succeeded => EffectPoints(s, LoadEffectStep(s, t), t);
    case Pending => GoesAdvances(s, LoadEffectStep(s, t), t, EffectLoaded(s.tasks[t].todo[0]));
    case _ => EndsAdvances(s, LoadEffectStep(s, t), t);
  }

  lemma StartEffectAdvances(s: Sys, t: nat)
    requires t in s.tasks && s.tasks[t].pc.EffectLoaded?
    ensures OwnAdvances(s, StartEffectStep(s, t), t)
  {
    hide Goes, Ends, OnlyTask, EffectFree, OwnAdvances, MayStart, SetEffect;
    if MayStart(s.db, s.tasks[t].pc.e) {
      GoesAdvances(s, StartEffectStep(s, t), t, EffectRunning(s.tasks[t].pc.e));
    } else {
      EndsAdvances(s, StartEffectStep(s, t), t);
    }
  }

  lemma RunAdvances(s: Sys, t: nat, ok: bool)
    requires t in s.tasks && s.tasks[t].pc.EffectRunning?
    ensures OwnAdvances(s, RunStep(s, t, ok), t)
  {
    hide Goes, OnlyTask, EffectFree, OwnAdvances;
    GoesAdvances(s, RunStep(s, t, ok), t, if ok then EffectRan(s.tasks[t].pc.e) else EffectInDoubt(s.tasks[t].pc.e));
  }

  lemma CompleteEffectAdvances(s: Sys, t: nat, reported: bool)
    requires t in s.tasks && s.tasks[t].pc.EffectRan? && s.tasks[t].todo != []
    ensures OwnAdvances(s, CompleteEffectStep(s, t, reported), t)
  {
    hide OnlyTask, EffectFree, OwnAdvances, FinishEffect;
    EffectPoints(s, CompleteEffectStep(s, t, reported), t);
  }

  lemma BeginEffectAdvances(s: Sys, event: Event)
    requires BeginsEffect(event) && EffectEnabled(s, event)
    ensures OwnAdvances(s, EffectStep(s, event), event.t)
  {
    hide Goes, Ends, OnlyTask, EffectFree, OwnAdvances, LoadEffectStep, StartEffectStep;
    match event
    case SweepEffect(t, _) => NewAdvances(s, EffectStep(s, event), t);
    case LoadsEffect(t) => LoadEffectAdvances(s, t);
    case DeniesEffect(t) => GoesAdvances(s, EffectStep(s, event), t, EffectDenied(s.tasks[t].pc.e));
    case StartsEffect(t) => StartEffectAdvances(s, t);
  }

  lemma EndEffectAdvances(s: Sys, event: Event)
    requires IsEffectEvent(event) && !BeginsEffect(event) && !Settles(event) && EffectEnabled(s, event)
    ensures OwnAdvances(s, EffectStep(s, event), event.t)
  {
    hide Goes, Ends, OnlyTask, EffectFree, OwnAdvances, RunStep, CompleteEffectStep;
    match event
    case Runs(t, ok) => RunAdvances(s, t, ok);
    case Refuses(t) => GoesAdvances(s, EffectStep(s, event), t, EffectRefused(s.tasks[t].pc.e));
    case CompletesEffect(t, reported) => CompleteEffectAdvances(s, t, reported);
    case EffectCompletionFails(t) => GoesAdvances(s, EffectStep(s, event), t, EffectInDoubt(s.tasks[t].pc.e));
  }

  predicate IsDispatch(event: Event) {
    IsReplyEvent(event) || IsEffectEvent(event)
  }

  /** Sending and running move a call along its plan. */
  lemma DispatchAdvances(s: Sys, event: Event)
    requires IsDispatch(event) && Enabled(s, event)
    ensures OwnAdvances(s, Step(s, event), event.t)
  {
    hide Enabled, Step, ReplyStep, EffectStep, ReplyEnabled, EffectEnabled, OwnAdvances, OnlyTask, EffectFree;
    if Settles(event) {
      SettlesEnd(s, event);
      EndsAdvances(s, Step(s, event), event.t);
    } else if IsReplyEvent(event) {
      ReplyKind(s, event);
      if BeginsReply(event) {
        BeginReplyAdvances(s, event);
      } else {
        EndReplyAdvances(s, event);
      }
    } else {
      EffectKind(s, event);
      if BeginsEffect(event) {
        BeginEffectAdvances(s, event);
      } else {
        EndEffectAdvances(s, event);
      }
    }
  }

  /** They touch no other call; a call they begin is a sweep. */
  lemma DispatchMoves(s: Sys, event: Event)
    requires IsDispatch(event) && Enabled(s, event)
    ensures var s' := Step(s, event);
            && OnlyTask(s.tasks, s'.tasks, event.t)
            && (event.t !in s.tasks && event.t in s'.tasks ==> s'.tasks[event.t].of == None && !Early(s'.tasks[event.t].pc))
  {
    hide Enabled, Step, ReplyStep, EffectStep, ReplyEnabled, EffectEnabled, OnlyTask, EffectFree, Early;
    if IsReplyEvent(event) {
      ReplyKind(s, event);
      if event.t !in s.tasks { SweptReply(s, event); }
    } else {
      EffectKind(s, event);
      if event.t !in s.tasks { SweptEffect(s, event); }
    }
  }

  lemma SweptReply(s: Sys, event: Event)
    requires IsReplyEvent(event) && event.t !in s.tasks && ReplyEnabled(s, event)
    ensures var s' := ReplyStep(s, event); event.t in s'.tasks ==> s'.tasks[event.t].of == None && !Early(s'.tasks[event.t].pc)
  {
    hide OnlyTask, EffectFree;
  }

  lemma SweptEffect(s: Sys, event: Event)
    requires IsEffectEvent(event) && event.t !in s.tasks && EffectEnabled(s, event)
    ensures var s' := EffectStep(s, event); event.t in s'.tasks ==> s'.tasks[event.t].of == None && !Early(s'.tasks[event.t].pc)
  {
    assert event.SweepEffect?;
    hide EffectEnabled, OnlyTask, EffectFree;
  }
}
