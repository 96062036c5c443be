// The invariant of the outbox: who may still send or run what, what each stored state says
// about the past, and how the turn, the reply row and the history entry agree.
module OutboxSafety {
  import opened Prelude
  import opened Outbox
  import opened OutboxProtocol

  // ---- Tables ------------------------------------------------------------------

  /** The turn and the history entry of reply a say what its row says. */
  ghost predicate ViewsOk(db: Db, a: ActionId)
    requires a in db.actions
  {
    var row := db.actions[a];
    && row.invocation in db.turns && db.turns[row.invocation].claimed
    && db.turns[row.invocation].state == TurnOf(row.state)
    && (!Final(row.state) ==> row.response in db.history)
    && (row.response in db.history ==> DeliveryOk(row.state, db.history[row.response].delivery) && db.history[row.response].chat == row.invocation.chat)
  }

  /** The delivery the reply's state stands for, or the one it had before it was settled. */
  ghost predicate DeliveryOk(state: RowState, delivery: DeliveryStatus) {
    delivery == DeliveryOf(state) || delivery == NotSent
  }

  ghost predicate TurnOk(turn: Turn) {
    && turn.attempts <= MAX_GENERATION_ATTEMPTS
    && (!turn.claimed ==> turn.attempts == 0 && (turn.state == Unstarted || turn.state == Ignored))
  }

  ghost predicate Begun(state: RowState) {
    state == Executing || state == Succeeded || state == UnknownOutcome
  }

  ghost predicate EffectOk(db: Db, e: EffectId)
    requires e in db.effects
  {
    db.effects[e].model && Begun(db.effects[e].state) ==> Answered(db, db.effects[e].invocation)
  }

  ghost predicate DbOk(db: Db) {
    && Linked(db)
    && (forall a | a in db.actions :: ViewsOk(db, a))
    && (forall i | i in db.turns :: TurnOk(db.turns[i]))
    && (forall e | e in db.effects :: EffectOk(db, e))
  }

  // ---- What was done -------------------------------------------------------------

  /** How often the outside may have seen a reply or an effect, given its stored state. */
  ghost predicate SeenOk(state: RowState, times: nat) {
    match state
    case Pending => times == 0
    case Executing => times <= 1
    case Succeeded => times == 1
    case FailedTerminal => times == 0
    case UnknownOutcome => times <= 1
  }

  ghost predicate RunsOk(effect: Effect, times: nat, db: Db) {
    && (effect.state != FailedTerminal ==> SeenOk(effect.state, times))
    && times <= 1
    && (effect.model && times > 0 ==> Answered(db, effect.invocation))
  }

  ghost predicate CountsOk(s: Sys) {
    && (forall a :: Count(s.sends, a) > 0 ==> a in s.db.actions)
    && (forall a | a in s.db.actions :: SeenOk(s.db.actions[a].state, Count(s.sends, a)))
    && (forall e :: Count(s.runs, e) > 0 ==> e in s.db.effects)
    && (forall e | e in s.db.effects :: RunsOk(s.db.effects[e], Count(s.runs, e), s.db))
    && (forall i :: Count(s.calls, i) > 0 ==> i in s.db.turns)
    && (forall i | i in s.db.turns :: Count(s.calls, i) <= s.db.turns[i].attempts)
  }

  // ---- Calls in progress -----------------------------------------------------------

  /** A claimed turn that has its plan. */
  ghost predicate PlanVisible(db: Db, i: InvocationId) {
    i in db.turns && db.turns[i].claimed && HasPlan(db, i)
  }

  /** Turn i of the gate's chat is being answered and has no plan yet. */
  ghost predicate Unplanned(db: Db, gate: Option<ChatId>, i: InvocationId) {
    i in db.turns && gate == Some(i.chat) && db.turns[i].claimed && !HasPlan(db, i)
  }

  ghost predicate SendingOk(s: Sys, t: nat, a: ActionId, times: nat) {
    && a in s.db.actions && a in s.sender && s.sender[a] == t && Count(s.sends, a) == times
  }

  ghost predicate RunningOk(s: Sys, t: nat, e: EffectId, times: nat) {
    && e in s.db.effects && e in s.runner && s.runner[e] == t && Count(s.runs, e) == times
    && s.db.effects[e].state != Pending && s.db.effects[e].state != UnknownOutcome
    && (s.db.effects[e].model ==> Answered(s.db, s.db.effects[e].invocation))
  }

  ghost predicate PcOk(s: Sys, t: nat, gate: Option<ChatId>, pc: Pc) {
    match pc
    case Claiming(i) => gate == Some(i.chat) && !PlanVisible(s.db, i)
    case Preparing(i) => Unplanned(s.db, gate, i) && Count(s.calls, i) < s.db.turns[i].attempts
    case Called(i) => Unplanned(s.db, gate, i)
    case Restoring(i, a, delivery) =>
      && a in s.db.actions && s.db.actions[a].invocation == i && i in s.db.turns && gate == Some(i.chat)
      && DeliveryOk(s.db.actions[a].state, delivery)
    case Replying(a) => a in s.db.actions
    case ReplyLoaded(a) => a in s.db.actions
    case ReplyDenied(a) => a in s.db.actions
    case ReplySending(a) => SendingOk(s, t, a, 0) && s.db.actions[a].state == Executing
    case ReplySent(a) => SendingOk(s, t, a, 1) && s.db.actions[a].state == Executing
    case ReplyInDoubt(a) => SendingOk(s, t, a, 1) && (s.db.actions[a].state == Executing || s.db.actions[a].state == Succeeded)
    case RunningEffects => true
    case EffectLoaded(e) => true
    case EffectDenied(e) => true
    case EffectRunning(e) => RunningOk(s, t, e, 0) && s.db.effects[e].state != Succeeded
    case EffectRan(e) => RunningOk(s, t, e, 1) && s.db.effects[e].state != Succeeded
    case EffectRefused(e) => RunningOk(s, t, e, 0) && s.db.effects[e].state != Succeeded
    case EffectInDoubt(e) => RunningOk(s, t, e, 1)
  }

  ghost predicate TaskOk(s: Sys, t: nat, task: Task) {
    && (task.gate.Some? ==> task.gate.value in s.holder && s.holder[task.gate.value] == t)
    && PcOk(s, t, task.gate, task.pc)
    && (forall e | e in task.done :: e in s.db.effects && s.db.effects[e].state == Succeeded)
  }

  ghost predicate Inv(s: Sys) {
    && DbOk(s.db) && CountsOk(s)
    && (!s.up ==> s.tasks == map[])
    && forall t | t in s.tasks :: TaskOk(s, t, s.tasks[t])
  }

  // ---- Framing ----------------------------------------------------------------------

  /** It is enough to check the task that moved, and that the others are not disturbed. */
  lemma Rebuild(s: Sys, s': Sys, t: nat)
    requires Inv(s) && DbOk(s'.db) && CountsOk(s') && (s'.up || s'.tasks == map[]) && OnlyTask(s.tasks, s'.tasks, t)
    requires t in s'.tasks ==> TaskOk(s', t, s'.tasks[t])
    requires forall u | u in s.tasks && u != t && TaskOk(s, u, s.tasks[u]) :: TaskOk(s', u, s.tasks[u])
    ensures Inv(s')
  {
  }

  // ---- A reply moves on ----------------------------------------------------------------

  ghost predicate LegalMove(from: RowState, to: RowState) {
    || (from == Pending && (to == Executing || to == FailedTerminal))
    || (from == Executing && (to == Succeeded || to == UnknownOutcome))
  }

  /** Reply a moves to state `to`, and its turn and entry with it. */
  ghost predicate ReplyMoves(db: Db, db': Db, a: ActionId, to: RowState) {
    && a in db.actions && LegalMove(db.actions[a].state, to) && db.actions[a].invocation in db.turns
    && var i := db.actions[a].invocation;
    && db'.actions == db.actions[a := db.actions[a].(state := to)]
    && db'.turns == db.turns[i := db.turns[i].(state := TurnOf(to))]
    && db'.history == SetDelivery(db, db.actions[a].response, DeliveryOf(to)).history
    && db'.effects == db.effects
  }

  lemma StartMoves(db: Db, a: ActionId)
    requires a in db.actions && db.actions[a].state == Pending && ViewsOk(db, a)
    ensures StartReply(db, a).Some? && ReplyMoves(db, StartReply(db, a).value, a, Executing)
  {
    var i := db.actions[a].invocation;
    var db' := StartReply(db, a).value;
    assert db'.turns == db.turns[i := db.turns[i].(state := DeliveryPending)];
    assert db.history[db.actions[a].response].(delivery := NotSent) == db.history[db.actions[a].response];
    assert db'.history == SetDelivery(db, db.actions[a].response, NotSent).history;
  }

  lemma FinishMoves(db: Db, a: ActionId, from: RowState, to: RowState)
    requires LegalMove(from, to)
    ensures var r := FinishReply(db, a, from, to); r.Some? ==> ReplyMoves(db, r.value, a, to)
  {
    if FinishReply(db, a, from, to).Some? {
      FinishReplyShape(db, a, from, to);
    }
  }

  lemma MovedReplies(db: Db, db': Db, a: ActionId, to: RowState, i: InvocationId)
    requires ReplyMoves(db, db', a, to)
    ensures HasReply(db', i) <==> HasReply(db, i)
    ensures forall b :: ReplyRow(db', i, b) <==> ReplyRow(db, i, b)
  {
    assert forall b :: b in db'.actions <==> b in db.actions;
    if HasReply(db, i) {
      var b :| b in db.actions && ReplyRow(db, i, b);
      assert b in db'.actions && ReplyRow(db', i, b);
    }
  }

  lemma MovedAnswered(db: Db, db': Db, a: ActionId, to: RowState, i: InvocationId)
    requires ReplyMoves(db, db', a, to) && Answered(db, i)
    ensures Answered(db', i)
  {
    MovedReplies(db, db', a, to, i);
    if b :| b in db.actions && ReplyRow(db, i, b) && db.actions[b].state == Succeeded {
      assert ReplyRow(db', i, b) && db'.actions[b].state == Succeeded;
    } else {
      assert !ReplyRow(db, i, a);
    }
  }

  lemma MovedViews(db: Db, db': Db, a: ActionId, to: RowState, b: ActionId)
    requires Linked(db) && ReplyMoves(db, db', a, to) && b in db.actions && ViewsOk(db, b) && ViewsOk(db, a)
    ensures ViewsOk(db', b)
  {
    if b != a {
      assert db.actions[b].invocation != db.actions[a].invocation && db.actions[b].response != db.actions[a].response;
    }
  }

  lemma MovedDb(db: Db, db': Db, a: ActionId, to: RowState)
    requires DbOk(db) && ReplyMoves(db, db', a, to)
    ensures DbOk(db')
  {
    forall b | b in db'.actions ensures ViewsOk(db', b) {
      MovedViews(db, db', a, to, b);
    }
    forall e | e in db'.effects ensures EffectOk(db', e) {
      assert EffectOk(db, e);
      if db.effects[e].model && Begun(db.effects[e].state) {
        MovedAnswered(db, db', a, to, db.effects[e].invocation);
      }
    }
    assert ViewsOk(db, a);
  }

  lemma MovedPlan(db: Db, db': Db, a: ActionId, to: RowState, i: InvocationId)
    requires ReplyMoves(db, db', a, to) && !HasPlan(db, i)
    ensures !HasPlan(db', i) && (i in db.turns ==> db'.turns[i] == db.turns[i])
  {
    MovedReplies(db, db', a, to, i);
    assert !ReplyRow(db, i, a);
  }

  /** The calls of others rely on nothing that changed: whoever sends reply a is t. */
  ghost predicate OwnMove(s: Sys, s': Sys, t: nat, a: ActionId)
    requires a in s.db.actions
  {
    && s'.sends == s.sends && s'.calls == s.calls && s'.runs == s.runs && s'.runner == s.runner && s'.holder == s.holder
    && (s.db.actions[a].state == Executing ==> a in s.sender && s.sender[a] == t && s'.sender == s.sender)
    && (s.db.actions[a].state == Pending ==> s'.sender == s.sender || s'.sender == s.sender[a := t])
  }

  lemma MovedRunner(s: Sys, s': Sys, t: nat, a: ActionId, to: RowState, u: nat, e: EffectId, times: nat)
    requires ReplyMoves(s.db, s'.db, a, to) && OwnMove(s, s', t, a) && RunningOk(s, u, e, times)
    ensures RunningOk(s', u, e, times) && e in s.db.effects && s'.db.effects == s.db.effects
  {
    if s.db.effects[e].model {
      MovedAnswered(s.db, s'.db, a, to, s.db.effects[e].invocation);
    }
    hide Answered;
  }

  lemma MovedPc(s: Sys, s': Sys, t: nat, a: ActionId, to: RowState, u: nat, task: Task)
    requires DbOk(s.db) && ReplyMoves(s.db, s'.db, a, to) && OwnMove(s, s', t, a) && u != t
    requires PcOk(s, u, task.gate, task.pc)
    ensures PcOk(s', u, task.gate, task.pc)
  {
    hide DbOk, RunningOk, HasPlan;
    RowIsOk(s.db, a);
    match task.pc
    case Claiming(i) => MovedReplies(s.db, s'.db, a, to, i);
      if i in s.db.turns && s.db.turns[i].claimed { MovedPlan(s.db, s'.db, a, to, i); }
    case Preparing(i) => MovedPlan(s.db, s'.db, a, to, i);
    case Called(i) => MovedPlan(s.db, s'.db, a, to, i);
    case EffectRunning(e) => MovedRunner(s, s', t, a, to, u, e, 0);
    case EffectRan(e) => MovedRunner(s, s', t, a, to, u, e, 1);
    case EffectRefused(e) => MovedRunner(s, s', t, a, to, u, e, 0);
    case EffectInDoubt(e) => MovedRunner(s, s', t, a, to, u, e, 1);
    case _ =>
  }

  lemma MovedTask(s: Sys, s': Sys, t: nat, a: ActionId, to: RowState, u: nat, task: Task)
    requires DbOk(s.db) && ReplyMoves(s.db, s'.db, a, to) && OwnMove(s, s', t, a) && u != t && TaskOk(s, u, task)
    ensures TaskOk(s', u, task)
  {
    MovedPc(s, s', t, a, to, u, task);
  }

  lemma MovedCounts(s: Sys, s': Sys, t: nat, a: ActionId, to: RowState)
    requires CountsOk(s) && ReplyMoves(s.db, s'.db, a, to) && OwnMove(s, s', t, a) && SeenOk(to, Count(s.sends, a))
    ensures CountsOk(s')
  {
    forall e | e in s'.db.effects ensures RunsOk(s'.db.effects[e], Count(s'.runs, e), s'.db) {
      assert RunsOk(s.db.effects[e], Count(s.runs, e), s.db);
      if s.db.effects[e].model && Count(s.runs, e) > 0 {
        MovedAnswered(s.db, s'.db, a, to, s.db.effects[e].invocation);
      }
    }
  }

  /** The step of call t moved reply a. */
  lemma ReplyMoveKeeps(s: Sys, s': Sys, t: nat, a: ActionId, to: RowState)
    requires Inv(s) && t in s.tasks && s'.up && OnlyTask(s.tasks, s'.tasks, t)
    requires ReplyMoves(s.db, s'.db, a, to) && OwnMove(s, s', t, a) && SeenOk(to, Count(s.sends, a))
    requires t in s'.tasks ==> TaskOk(s', t, s'.tasks[t])
    ensures Inv(s')
  {
    hide Inv, DbOk, CountsOk, TaskOk, OwnMove, ReplyMoves, SeenOk;
    TablesOk(s);
    MovedDb(s.db, s'.db, a, to);
    MovedCounts(s, s', t, a, to);
    forall u | u in s.tasks && u != t && TaskOk(s, u, s.tasks[u]) ensures TaskOk(s', u, s.tasks[u]) {
      MovedTask(s, s', t, a, to, u, s.tasks[u]);
    }
    Rebuild(s, s', t);
  }

  // ---- Steps that leave the tables alone ----------------------------------------------------

  /** Call t moves on without writing a row. */
  ghost predicate Quiet(s: Sys, s': Sys, t: nat) {
    && s'.up && s'.db == s.db && s'.runs == s.runs && s'.calls == s.calls && s'.sends == s.sends
    && s'.sender == s.sender && s'.runner == s.runner && s'.holder == s.holder && OnlyTask(s.tasks, s'.tasks, t)
  }

  lemma QuietKeeps(s: Sys, s': Sys, t: nat)
    requires Inv(s) && Quiet(s, s', t) && (t in s'.tasks ==> TaskOk(s', t, s'.tasks[t]))
    ensures Inv(s')
  {
    TablesOk(s);
    hide Inv, DbOk;
    forall u | u in s.tasks && u != t && TaskOk(s, u, s.tasks[u]) ensures TaskOk(s', u, s.tasks[u]) {
      SameFacts(s, s', u, s.tasks[u]);
    }
    Rebuild(s, s', t);
  }

  lemma SameFacts(s: Sys, s': Sys, u: nat, task: Task)
    requires TaskOk(s, u, task) && s'.db == s.db && s'.sends == s.sends && s'.calls == s.calls && s'.runs == s.runs
    requires s'.sender == s.sender && s'.runner == s.runner && s'.holder == s.holder
    ensures TaskOk(s', u, task)
  {
  }

  lemma TablesOk(s: Sys)
    requires Inv(s)
    ensures DbOk(s.db) && CountsOk(s)
  {
  }

  lemma TaskIsOk(s: Sys, t: nat)
    requires Inv(s) && t in s.tasks
    ensures TaskOk(s, t, s.tasks[t])
  {
  }

  lemma ReplyIsOk(s: Sys, a: ActionId)
    requires Inv(s) && a in s.db.actions
    ensures ViewsOk(s.db, a) && SeenOk(s.db.actions[a].state, Count(s.sends, a))
  {
  }

  // ---- Sending -------------------------------------------------------------------------------

  /** A reply that may be started is pending, and was never sent. */
  lemma Startable(s: Sys, a: ActionId)
    requires Inv(s) && StartReply(s.db, a).Some?
    ensures a in s.db.actions && s.db.actions[a].state == Pending && Count(s.sends, a) == 0
    ensures ReplyMoves(s.db, StartReply(s.db, a).value, a, Executing)
  {
    ReplyIsOk(s, a);
    StartMoves(s.db, a);
  }

  lemma StartReplyKeeps(s: Sys, t: nat)
    requires Inv(s) && At(s, t) && s.tasks[t].pc.ReplyLoaded?
    ensures Inv(StartReplyStep(s, t))
  {
    hide Inv, DbOk, StartReply, TaskOk, PcOk, ReplyMoves;
    var a := s.tasks[t].pc.a;
    var written := StartReply(s.db, a);
    if written.Some? {
      var s' := Goes(s, t, ReplySending(a)).(db := written.value, sender := s.sender[a := t]);
      TaskIsOk(s, t);
      Startable(s, a);
      StartedTask(s, s', t, a);
      assert OwnMove(s, s', t, a) && SeenOk(Executing, 0);
      hide OwnMove, SeenOk;
      ReplyMoveKeeps(s, s', t, a, Executing);
    } else {
      EndsKeeps(s, t);
    }
  }

  lemma StartedTask(s: Sys, s': Sys, t: nat, a: ActionId)
    requires t in s.tasks && TaskOk(s, t, s.tasks[t]) && ReplyMoves(s.db, s'.db, a, Executing) && Count(s.sends, a) == 0
    requires s' == Goes(s, t, ReplySending(a)).(db := s'.db, sender := s.sender[a := t])
    ensures TaskOk(s', t, s'.tasks[t])
  {
  }

  lemma CompleteReplyKeeps(s: Sys, t: nat, reported: bool)
    requires Inv(s) && At(s, t) && s.tasks[t].pc.ReplySent?
    ensures Inv(CompleteReplyStep(s, t, reported))
  {
    hide Inv, DbOk;
    var a := s.tasks[t].pc.a;
    var s' := CompleteReplyStep(s, t, reported);
    TaskIsOk(s, t);
    ReplyIsOk(s, a);
    FinishMoves(s.db, a, Executing, Succeeded);
    FinishReplyShape(s.db, a, Executing, Succeeded);
    hide FinishReply, ViewsOk;
    CompletedTask(s, s', t, a, reported);
    assert SeenOk(Succeeded, Count(s.sends, a));
    hide TaskOk, PcOk, ReplyMoves, SeenOk;
    ReplyMoveKeeps(s, s', t, a, Succeeded);
  }

  lemma CompletedTask(s: Sys, s': Sys, t: nat, a: ActionId, reported: bool)
    requires t in s.tasks && TaskOk(s, t, s.tasks[t]) && s.tasks[t].pc == ReplySent(a) && ReplyMoves(s.db, s'.db, a, Succeeded)
    requires s' == Goes(s, t, if reported then RunningEffects else ReplyInDoubt(a)).(db := s'.db)
    ensures TaskOk(s', t, s'.tasks[t])
  {
  }

  lemma FailReplyKeeps(s: Sys, t: nat)
    requires Inv(s) && At(s, t) && s.tasks[t].pc.ReplyDenied?
    ensures Inv(Ends(s, t).(db := After(s.db, FinishReply(s.db, s.tasks[t].pc.a, Pending, FailedTerminal))))
  {
    hide Inv, DbOk;
    var a := s.tasks[t].pc.a;
    var s' := Ends(s, t).(db := After(s.db, FinishReply(s.db, a, Pending, FailedTerminal)));
    TaskIsOk(s, t);
    ReplyIsOk(s, a);
    FinishMoves(s.db, a, Pending, FailedTerminal);
    var moved := FinishReply(s.db, a, Pending, FailedTerminal).Some?;
    assert moved ==> SeenOk(FailedTerminal, Count(s.sends, a)) && OwnMove(s, s', t, a);
    hide FinishReply, TaskOk, PcOk, ViewsOk, ReplyMoves, SeenOk, OwnMove;
    if moved {
      ReplyMoveKeeps(s, s', t, a, FailedTerminal);
    } else {
      QuietKeeps(s, s', t);
    }
  }

  lemma MarkReplyKeeps(s: Sys, t: nat)
    requires Inv(s) && At(s, t) && s.tasks[t].pc.ReplyInDoubt?
    ensures Inv(Ends(s, t).(db := After(s.db, FinishReply(s.db, s.tasks[t].pc.a, Executing, UnknownOutcome))))
  {
    hide Inv, DbOk;
    var a := s.tasks[t].pc.a;
    var s' := Ends(s, t).(db := After(s.db, FinishReply(s.db, a, Executing, UnknownOutcome)));
    TaskIsOk(s, t);
    ReplyIsOk(s, a);
    FinishMoves(s.db, a, Executing, UnknownOutcome);
    var moved := FinishReply(s.db, a, Executing, UnknownOutcome).Some?;
    assert moved ==> SeenOk(UnknownOutcome, Count(s.sends, a)) && OwnMove(s, s', t, a);
    hide FinishReply, TaskOk, PcOk, ViewsOk, ReplyMoves, SeenOk, OwnMove;
    if moved {
      ReplyMoveKeeps(s, s', t, a, UnknownOutcome);
    } else {
      QuietKeeps(s, s', t);
    }
  }

  lemma SendKeeps(s: Sys, t: nat, ok: bool)
    requires Inv(s) && At(s, t) && s.tasks[t].pc.ReplySending?
    ensures Inv(SendStep(s, t, ok))
  {
    hide Inv, DbOk;
    var a := s.tasks[t].pc.a;
    var s' := SendStep(s, t, ok);
    TaskIsOk(s, t);
    TablesOk(s);
    SendCounts(s, s', t, a);
    assert TaskOk(s', t, s'.tasks[t]);
    assert SendingOk(s, t, a, 0);
    hide CountsOk, TaskOk, PcOk, SendingOk;
    forall u | u in s.tasks && u != t && TaskOk(s, u, s.tasks[u]) ensures TaskOk(s', u, s.tasks[u]) {
      SendOthers(s, s', t, a, u, s.tasks[u]);
    }
    Rebuild(s, s', t);
  }

  lemma SendCounts(s: Sys, s': Sys, t: nat, a: ActionId)
    requires CountsOk(s) && a in s.db.actions && s.db.actions[a].state == Executing && Count(s.sends, a) == 0
    requires s'.db == s.db && s'.sends == s.sends[a := 1] && s'.calls == s.calls && s'.runs == s.runs
    ensures CountsOk(s')
  {
  }

  lemma SendOthers(s: Sys, s': Sys, t: nat, a: ActionId, u: nat, task: Task)
    requires TaskOk(s, u, task) && SendingOk(s, t, a, 0) && u != t
    requires s'.db == s.db && s'.sends == s.sends[a := 1] && s'.calls == s.calls && s'.runs == s.runs
    requires s'.sender == s.sender && s'.runner == s.runner && s'.holder == s.holder
    ensures TaskOk(s', u, task)
  {
  }

  // ---- Effects --------------------------------------------------------------------------------

  lemma EffectAnswered(db: Db, e: EffectId, state: RowState, i: InvocationId)
    requires e in db.effects
    ensures Answered(SetEffect(db, e, state), i) <==> Answered(db, i)
    ensures HasPlan(SetEffect(db, e, state), i) <==> HasPlan(db, i)
  {
    var db' := SetEffect(db, e, state);
    assert db'.actions == db.actions && db'.turns == db.turns;
    assert forall a :: ReplyRow(db', i, a) <==> ReplyRow(db, i, a);
  }

  lemma EffectMovesDb(db: Db, e: EffectId, state: RowState)
    requires DbOk(db) && e in db.effects
    requires db.effects[e].model && Begun(state) ==> Answered(db, db.effects[e].invocation)
    ensures DbOk(SetEffect(db, e, state))
  {
    var db' := SetEffect(db, e, state);
    forall x | x in db'.effects ensures EffectOk(db', x) {
      assert EffectOk(db, x);
      EffectAnswered(db, e, state, db.effects[x].invocation);
    }
    forall a | a in db'.actions ensures ViewsOk(db', a) {
      assert ViewsOk(db, a);
    }
  }

  /** The effect's own runner is the only call that relies on its state. */
  ghost predicate OwnEffect(s: Sys, s': Sys, t: nat, e: EffectId, state: RowState)
    requires e in s.db.effects
  {
    && s'.db == SetEffect(s.db, e, state) && s'.sends == s.sends && s'.calls == s.calls && s'.runs == s.runs
    && s'.sender == s.sender && s'.holder == s.holder
    && (s.db.effects[e].state == Pending || s.db.effects[e].state == Executing)
    && (s'.runner == s.runner || (s.db.effects[e].state == Pending && s'.runner == s.runner[e := t]))
    && (state == FailedTerminal || s.db.effects[e].state == Pending || (e in s.runner && s.runner[e] == t))
    && state != Pending
  }

  lemma EffectMovesPc(s: Sys, s': Sys, t: nat, e: EffectId, state: RowState, u: nat, task: Task)
    requires e in s.db.effects && OwnEffect(s, s', t, e, state) && u != t
    requires PcOk(s, u, task.gate, task.pc)
    ensures PcOk(s', u, task.gate, task.pc)
  {
    match task.pc
    case Claiming(i) => EffectAnswered(s.db, e, state, i);
    case Preparing(i) => EffectAnswered(s.db, e, state, i);
    case Called(i) => EffectAnswered(s.db, e, state, i);
    case EffectRunning(x) => EffectAnswered(s.db, e, state, s.db.effects[x].invocation);
    case EffectRan(x) => EffectAnswered(s.db, e, state, s.db.effects[x].invocation);
    case EffectRefused(x) => EffectAnswered(s.db, e, state, s.db.effects[x].invocation);
    case EffectInDoubt(x) => EffectAnswered(s.db, e, state, s.db.effects[x].invocation);
    case _ =>
  }

  lemma EffectMovesCounts(s: Sys, s': Sys, t: nat, e: EffectId, state: RowState)
    requires CountsOk(s) && e in s.db.effects && OwnEffect(s, s', t, e, state)
    requires state != FailedTerminal ==> SeenOk(state, Count(s.runs, e))
    ensures CountsOk(s')
  {
    forall x | x in s'.db.effects ensures RunsOk(s'.db.effects[x], Count(s'.runs, x), s'.db) {
      assert RunsOk(s.db.effects[x], Count(s.runs, x), s.db);
      EffectAnswered(s.db, e, state, s.db.effects[x].invocation);
    }
  }

  lemma EffectMoveKeeps(s: Sys, s': Sys, t: nat, e: EffectId, state: RowState)
    requires Inv(s) && t in s.tasks && s'.up && OnlyTask(s.tasks, s'.tasks, t)
    requires e in s.db.effects && OwnEffect(s, s', t, e, state)
    requires s.db.effects[e].model && Begun(state) ==> Answered(s.db, s.db.effects[e].invocation)
    requires state != FailedTerminal ==> SeenOk(state, Count(s.runs, e))
    requires t in s'.tasks ==> TaskOk(s', t, s'.tasks[t])
    ensures Inv(s')
  {
    hide Inv, DbOk, CountsOk, PcOk, SeenOk;
    TablesOk(s);
    EffectMovesDb(s.db, e, state);
    EffectMovesCounts(s, s', t, e, state);
    forall u | u in s.tasks && u != t && TaskOk(s, u, s.tasks[u]) ensures TaskOk(s', u, s.tasks[u]) {
      EffectMovesPc(s, s', t, e, state, u, s.tasks[u]);
    }
    hide TaskOk, OwnEffect;
    Rebuild(s, s', t);
  }

  lemma EffectIsOk(s: Sys, e: EffectId)
    requires Inv(s) && e in s.db.effects
    ensures RunsOk(s.db.effects[e], Count(s.runs, e), s.db) && EffectOk(s.db, e)
  {
  }

  lemma StartedEffect(s: Sys, s': Sys, t: nat, e: EffectId)
    requires t in s.tasks && TaskOk(s, t, s.tasks[t]) && s.tasks[t].pc == EffectLoaded(e) && MayStart(s.db, e) && Count(s.runs, e) == 0
    requires s' == StartEffectStep(s, t)
    ensures TaskOk(s', t, s'.tasks[t])
  {
    EffectAnswered(s.db, e, Executing, s.db.effects[e].invocation);
    hide Answered;
  }

  lemma StartEffectKeeps(s: Sys, t: nat)
    requires Inv(s) && At(s, t) && s.tasks[t].pc.EffectLoaded?
    ensures Inv(StartEffectStep(s, t))
  {
    hide Inv, DbOk, Answered, TaskOk, PcOk;
    var e := s.tasks[t].pc.e;
    if MayStart(s.db, e) {
      var s' := StartEffectStep(s, t);
      TaskIsOk(s, t);
      EffectIsOk(s, e);
      StartedEffect(s, s', t, e);
      EffectMoveKeeps(s, s', t, e, Executing);
    } else {
      EndsKeeps(s, t);
    }
  }

  lemma FailEffectKeeps(s: Sys, t: nat)
    requires Inv(s) && At(s, t) && (s.tasks[t].pc.EffectDenied? || s.tasks[t].pc.EffectRefused?)
    ensures Inv(Ends(s, t).(db := After(s.db, FinishEffect(s.db, s.tasks[t].pc.e, {Pending, Executing}, FailedTerminal))))
  {
    hide Inv, DbOk, Answered, TaskOk, PcOk;
    var e := s.tasks[t].pc.e;
    var s' := Ends(s, t).(db := After(s.db, FinishEffect(s.db, e, {Pending, Executing}, FailedTerminal)));
    if FinishEffect(s.db, e, {Pending, Executing}, FailedTerminal).Some? {
      EffectMoveKeeps(s, s', t, e, FailedTerminal);
    } else {
      QuietKeeps(s, s', t);
    }
  }

  lemma MarkEffectKeeps(s: Sys, t: nat)
    requires Inv(s) && At(s, t) && s.tasks[t].pc.EffectInDoubt?
    ensures Inv(Ends(s, t).(db := After(s.db, FinishEffect(s.db, s.tasks[t].pc.e, {Executing}, UnknownOutcome))))
  {
    hide Inv, DbOk, Answered;
    var e := s.tasks[t].pc.e;
    var s' := Ends(s, t).(db := After(s.db, FinishEffect(s.db, e, {Executing}, UnknownOutcome)));
    TaskIsOk(s, t);
    if FinishEffect(s.db, e, {Executing}, UnknownOutcome).Some? {
      hide TaskOk;
      EffectMoveKeeps(s, s', t, e, UnknownOutcome);
    } else {
      hide TaskOk;
      QuietKeeps(s, s', t);
    }
  }

  lemma InDoubtOk(s: Sys, db: Db, t: nat, gate: Option<ChatId>, e: EffectId)
    requires PcOk(s, t, gate, EffectRan(e))
    requires db == s.db || db == SetEffect(s.db, e, Succeeded)
    ensures PcOk(s.(db := db), t, gate, EffectInDoubt(e))
  {
    EffectAnswered(s.db, e, Succeeded, s.db.effects[e].invocation);
    hide Answered;
  }

  /** The call whose effect ran goes on, with the effect recorded or in doubt. */
  lemma CompletedEffect(s: Sys, t: nat, task: Task, e: EffectId, db: Db, todo: seq<EffectId>)
    requires TaskOk(s, t, task) && task.pc == EffectRan(e)
    requires db == s.db || (e in s.db.effects && s.db.effects[e].state == Executing && db == SetEffect(s.db, e, Succeeded))
    ensures TaskOk(s.(db := db), t, task.(pc := EffectInDoubt(e))) && PcOk(s.(db := db), t, task.gate, EffectInDoubt(e))
    ensures db != s.db ==> TaskOk(s.(db := db), t, Task(task.gate, task.of, RunningEffects, todo, task.done + [e]))
  {
    InDoubtOk(s, db, t, task.gate, e);
    hide Answered, RunningOk;
  }

  lemma EffectRanOk(s: Sys, t: nat, task: Task)
    requires TaskOk(s, t, task) && task.pc.EffectRan?
    ensures var e := task.pc.e;
            && e in s.db.effects && e in s.runner && s.runner[e] == t && Count(s.runs, e) == 1
            && (s.db.effects[e].model ==> Answered(s.db, s.db.effects[e].invocation))
  {
  }

  lemma CompleteEffectKeeps(s: Sys, t: nat, reported: bool)
    requires Inv(s) && At(s, t) && s.tasks[t].pc.EffectRan? && s.tasks[t].todo != []
    ensures Inv(CompleteEffectStep(s, t, reported))
  {
    hide Inv, DbOk, Answered, TaskOk, PcOk;
    var task := s.tasks[t];
    var e := task.pc.e;
    TaskIsOk(s, t);
    EffectRanOk(s, t, task);
    if s.db.effects[e].state == Executing {
      var db := SetEffect(s.db, e, Succeeded);
      CompletedEffect(s, t, task, e, db, task.todo[1..]);
      var task' := if reported then Task(task.gate, task.of, RunningEffects, task.todo[1..], task.done + [e]) else task.(pc := EffectInDoubt(e));
      var s' := s.(db := db, tasks := s.tasks[t := task']);
      SameTask(s.(db := db), s', t, task');
      EffectMoveKeeps(s, s', t, e, Succeeded);
    } else {
      CompletedEffect(s, t, task, e, s.db, []);
      assert s.(db := s.db) == s;
      GoesKeeps(s, t, EffectInDoubt(e));
    }
  }

  lemma SameTask(s: Sys, s': Sys, t: nat, task: Task)
    requires TaskOk(s, t, task) && s'.db == s.db && SameRecords(s, s')
    ensures TaskOk(s', t, task)
  {
    SameFacts(s, s', t, task);
  }

  lemma RunKeeps(s: Sys, t: nat, ok: bool)
    requires Inv(s) && At(s, t) && s.tasks[t].pc.EffectRunning?
    ensures Inv(RunStep(s, t, ok))
  {
    hide Inv, DbOk, Answered;
    var e := s.tasks[t].pc.e;
    var s' := RunStep(s, t, ok);
    TaskIsOk(s, t);
    TablesOk(s);
    EffectIsOk(s, e);
    RunCounts(s, s', t, e);
    assert TaskOk(s', t, s'.tasks[t]);
    assert RunningOk(s, t, e, 0);
    hide CountsOk, TaskOk, PcOk, RunningOk;
    forall u | u in s.tasks && u != t && TaskOk(s, u, s.tasks[u]) ensures TaskOk(s', u, s.tasks[u]) {
      RunOthers(s, s', t, e, u, s.tasks[u]);
    }
    Rebuild(s, s', t);
  }

  lemma RunCounts(s: Sys, s': Sys, t: nat, e: EffectId)
    requires CountsOk(s) && RunningOk(s, t, e, 0) && s.db.effects[e].state != Succeeded
    requires s'.db == s.db && s'.runs == s.runs[e := 1] && s'.calls == s.calls && s'.sends == s.sends
    ensures CountsOk(s')
  {
    hide Answered;
    forall x | x in s'.db.effects ensures RunsOk(s'.db.effects[x], Count(s'.runs, x), s'.db) {
      assert RunsOk(s.db.effects[x], Count(s.runs, x), s.db);
    }
  }

  lemma RunOthers(s: Sys, s': Sys, t: nat, e: EffectId, u: nat, task: Task)
    requires TaskOk(s, u, task) && RunningOk(s, t, e, 0) && u != t
    requires s'.db == s.db && s'.runs == s.runs[e := 1] && s'.calls == s.calls && s'.sends == s.sends
    requires s'.sender == s.sender && s'.runner == s.runner && s'.holder == s.holder
    ensures TaskOk(s', u, task)
  {
  }

  // ---- Turns without a plan ----------------------------------------------------------------------

  /** Turn i, which has no reply, becomes `turn`. */
  ghost predicate TurnMoves(db: Db, db': Db, i: InvocationId, turn: Turn) {
    && db' == db.(turns := db.turns[i := turn]) && TurnOk(turn) && turn.state != TurnSucceeded
    && !HasReply(db, i)
    && (i in db.turns && db.turns[i].claimed ==>
          db.turns[i].state != TurnSucceeded && turn.claimed && db.turns[i].attempts <= turn.attempts)
    && (i in db.turns ==> db.turns[i].attempts <= turn.attempts)
  }

  lemma TurnReplies(db: Db, db': Db, j: InvocationId)
    requires db'.actions == db.actions
    ensures HasReply(db', j) <==> HasReply(db, j)
    ensures forall b :: ReplyRow(db', j, b) <==> ReplyRow(db, j, b)
  {
    assert forall b :: ReplyRow(db', j, b) <==> ReplyRow(db, j, b);
  }

  lemma TurnAnswered(db: Db, db': Db, i: InvocationId, turn: Turn, j: InvocationId)
    requires TurnMoves(db, db', i, turn) && Answered(db, j)
    ensures Answered(db', j)
  {
    TurnReplies(db, db', j);
  }

  lemma TurnMovesDb(db: Db, db': Db, i: InvocationId, turn: Turn)
    requires DbOk(db) && TurnMoves(db, db', i, turn)
    ensures DbOk(db')
  {
    forall b | b in db'.actions ensures ViewsOk(db', b) {
      assert ViewsOk(db, b);
      assert ReplyRow(db, db.actions[b].invocation, b);
    }
    forall e | e in db'.effects ensures EffectOk(db', e) {
      assert EffectOk(db, e);
      if db.effects[e].model && Begun(db.effects[e].state) {
        TurnAnswered(db, db', i, turn, db.effects[e].invocation);
      }
    }
  }

  ghost predicate SameRecords(s: Sys, s': Sys) {
    s'.sends == s.sends && s'.calls == s.calls && s'.runs == s.runs && s'.sender == s.sender && s'.runner == s.runner && s'.holder == s.holder
  }

  lemma TurnMovesCounts(s: Sys, s': Sys, i: InvocationId, turn: Turn)
    requires CountsOk(s) && TurnMoves(s.db, s'.db, i, turn) && SameRecords(s, s')
    ensures CountsOk(s')
  {
    forall e | e in s'.db.effects ensures RunsOk(s'.db.effects[e], Count(s'.runs, e), s'.db) {
      assert RunsOk(s.db.effects[e], Count(s.runs, e), s.db);
      if s.db.effects[e].model && Count(s.runs, e) > 0 {
        TurnAnswered(s.db, s'.db, i, turn, s.db.effects[e].invocation);
      }
    }
  }

  lemma TurnMovesPc(s: Sys, s': Sys, i: InvocationId, turn: Turn, u: nat, task: Task)
    requires TurnMoves(s.db, s'.db, i, turn) && SameRecords(s, s') && PcOk(s, u, task.gate, task.pc)
    ensures PcOk(s', u, task.gate, task.pc)
  {
    match task.pc
    case Claiming(j) => TurnReplies(s.db, s'.db, j);
    case Preparing(j) => TurnReplies(s.db, s'.db, j);
    case Called(j) => TurnReplies(s.db, s'.db, j);
    case EffectRunning(e) => if s.db.effects[e].model { TurnAnswered(s.db, s'.db, i, turn, s.db.effects[e].invocation); }
    case EffectRan(e) => if s.db.effects[e].model { TurnAnswered(s.db, s'.db, i, turn, s.db.effects[e].invocation); }
    case EffectRefused(e) => if s.db.effects[e].model { TurnAnswered(s.db, s'.db, i, turn, s.db.effects[e].invocation); }
    case EffectInDoubt(e) => if s.db.effects[e].model { TurnAnswered(s.db, s'.db, i, turn, s.db.effects[e].invocation); }
    case _ =>
  }

  lemma TurnMoveKeeps(s: Sys, s': Sys, t: nat, i: InvocationId, turn: Turn)
    requires Inv(s) && OnlyTask(s.tasks, s'.tasks, t) && (s'.up || s'.tasks == map[])
    requires TurnMoves(s.db, s'.db, i, turn) && SameRecords(s, s')
    requires t in s'.tasks ==> TaskOk(s', t, s'.tasks[t])
    ensures Inv(s')
  {
    hide Inv, DbOk, CountsOk, PcOk;
    TablesOk(s);
    TurnMovesDb(s.db, s'.db, i, turn);
    TurnMovesCounts(s, s', i, turn);
    forall u | u in s.tasks && u != t && TaskOk(s, u, s.tasks[u]) ensures TaskOk(s', u, s.tasks[u]) {
      TurnMovesPc(s, s', i, turn, u, s.tasks[u]);
    }
    hide TaskOk, TurnMoves;
    Rebuild(s, s', t);
  }

  lemma TurnIsOk(db: Db, i: InvocationId)
    requires DbOk(db)
    ensures i in db.turns ==> TurnOk(db.turns[i])
    ensures HasReply(db, i) ==> i in db.turns && db.turns[i].claimed
  {
    if HasReply(db, i) {
      var a :| a in db.actions && ReplyRow(db, i, a);
      assert ViewsOk(db, a);
    }
  }

  lemma ArriveKeeps(s: Sys, i: InvocationId)
    requires Inv(s) && i !in s.db.turns
    ensures Inv(s.(db := s.db.(turns := s.db.turns[i := Turn(false, Unstarted, 0)])))
  {
    OutsideTurnKeeps(s, i, Turn(false, Unstarted, 0));
  }

  /** A turn that no call is answering, or whose generation is cancelled, changes. */
  lemma OutsideTurnKeeps(s: Sys, i: InvocationId, turn: Turn)
    requires Inv(s) && TurnOk(turn) && turn.state != TurnSucceeded
    requires i in s.db.turns ==> !HasReply(s.db, i) && turn.attempts == s.db.turns[i].attempts && turn.claimed == s.db.turns[i].claimed
                                 && (turn.claimed ==> s.db.turns[i].state != TurnSucceeded)
    ensures Inv(s.(db := s.db.(turns := s.db.turns[i := turn])))
  {
    hide Inv, CountsOk, DbOk, HasReply, TurnMoves;
    TablesOk(s);
    OutsideMoves(s.db, i, turn);
    var t := FreeTask(s.tasks);
    NotUpNoTasks(s);
    TurnMoveKeeps(s, s.(db := s.db.(turns := s.db.turns[i := turn])), t, i, turn);
  }

  lemma OutsideMoves(db: Db, i: InvocationId, turn: Turn)
    requires DbOk(db) && TurnOk(turn) && turn.state != TurnSucceeded
    requires i in db.turns ==> !HasReply(db, i) && turn.attempts == db.turns[i].attempts && turn.claimed == db.turns[i].claimed
                               && (turn.claimed ==> db.turns[i].state != TurnSucceeded)
    ensures TurnMoves(db, db.(turns := db.turns[i := turn]), i, turn)
  {
    hide DbOk, HasReply;
    TurnIsOk(db, i);
  }

  lemma FreeTask(tasks: map<nat, Task>) returns (t: nat)
    ensures t !in tasks
  {
    t := 0;
    var below := tasks.Keys;
    while below != {}
      invariant forall u | u in tasks && u !in below :: u < t
      decreases |below|
    {
      var u :| u in below;
      below := below - {u};
      t := if u < t then t else u + 1;
    }
  }

  lemma NotUpNoTasks(s: Sys)
    requires Inv(s)
    ensures s.up || s.tasks == map[]
  {
  }

  lemma SetAsideKeeps(s: Sys, i: InvocationId)
    requires Inv(s) && i in s.db.turns && (!s.db.turns[i].claimed || (!HasReply(s.db, i) && s.db.turns[i].state != TurnSucceeded))
    ensures Inv(s.(db := SetTurn(s.db, i, Ignored)))
  {
    TablesOk(s);
    hide Inv, CountsOk;
    TurnIsOk(s.db, i);
    OutsideTurnKeeps(s, i, s.db.turns[i].(state := Ignored));
  }

  lemma FailGenerationKeeps(s: Sys, t: nat, retryable: bool)
    requires Inv(s) && At(s, t) && (s.tasks[t].pc.Preparing? || s.tasks[t].pc.Called?)
    ensures Inv(Ends(s, t).(db := After(s.db, FailGeneration(s.db, s.tasks[t].pc.i, retryable))))
  {
    hide Inv, DbOk, CountsOk;
    var i := s.tasks[t].pc.i;
    var s' := Ends(s, t).(db := After(s.db, FailGeneration(s.db, i, retryable)));
    TaskIsOk(s, t);
    TablesOk(s);
    TurnIsOk(s.db, i);
    if s.db.turns[i].state == Generating {
      hide TaskOk;
      TurnMoveKeeps(s, s', t, i, s.db.turns[i].(state := if retryable then FailedRetryable else TurnFailedTerminal));
    } else {
      hide TaskOk, PcOk;
      QuietKeeps(s, s', t);
    }
  }

  /** What a claim does to a turn without a visible plan. */
  lemma ClaimMoves(db: Db, i: InvocationId, matches: bool)
    requires DbOk(db) && !PlanVisible(db, i)
    ensures var (db', claim) := ClaimTurn(db, i, matches);
            && claim != Planned && db'.effects == db.effects
            && (db' != db ==> i in db'.turns && TurnMoves(db, db', i, db'.turns[i]))
            && (claim == Claimed ==>
                  && db' != db && i in db'.turns && Unplanned(db', Some(i.chat), i)
                  && (i in db.turns ==> db.turns[i].attempts < db'.turns[i].attempts)
                  && (i !in db.turns ==> db'.turns[i].attempts > 0))
  {
    TurnIsOk(db, i);
    hide DbOk;
    TurnReplies(db, ClaimTurn(db, i, matches).0, i);
  }

  lemma ClaimedTask(s: Sys, t: nat, matches: bool, a: ActionId, effects: seq<EffectId>)
    requires t in s.tasks && TaskOk(s, t, s.tasks[t]) && s.tasks[t].pc.Claiming?
    requires var (db', claim) := ClaimTurn(s.db, s.tasks[t].pc.i, matches);
             var i := s.tasks[t].pc.i;
             claim != Planned && db'.effects == s.db.effects
             && (claim == Claimed ==> db' != s.db && i in db'.turns && Unplanned(db', Some(i.chat), i) && Count(s.calls, i) < db'.turns[i].attempts)
    ensures var s' := ClaimStep(s, t, matches, a, effects); t in s'.tasks ==> TaskOk(s', t, s'.tasks[t]) && s'.db != s.db
  {
    hide ClaimTurn, HasPlan, OnlyTask, EffectFree;
  }

  lemma ClaimKeeps(s: Sys, t: nat, matches: bool, a: ActionId, effects: seq<EffectId>)
    requires Inv(s) && At(s, t) && s.tasks[t].pc.Claiming?
    ensures Inv(ClaimStep(s, t, matches, a, effects))
  {
    hide Inv, DbOk, CountsOk, ClaimTurn, TurnMoves, PlanVisible, Unplanned, OnlyTask, EffectFree;
    var i := s.tasks[t].pc.i;
    TaskIsOk(s, t);
    TablesOk(s);
    ClaimMoves(s.db, i, matches);
    CallsWithin(s, i);
    ClaimedTask(s, t, matches, a, effects);
    ClaimStays(s, t, matches, a, effects);
  }

  lemma ClaimRecords(s: Sys, t: nat, matches: bool, a: ActionId, effects: seq<EffectId>)
    requires t in s.tasks && s.tasks[t].pc.Claiming?
    ensures var s' := ClaimStep(s, t, matches, a, effects);
            && s'.up == s.up && SameRecords(s, s') && OnlyTask(s.tasks, s'.tasks, t)
            && s'.db == ClaimTurn(s.db, s.tasks[t].pc.i, matches).0
  {
    hide ClaimStep, ClaimTurn, OnlyTask, EffectFree;
  }

  lemma ClaimStays(s: Sys, t: nat, matches: bool, a: ActionId, effects: seq<EffectId>)
    requires Inv(s) && At(s, t) && s.tasks[t].pc.Claiming?
    requires var (db', claim) := ClaimTurn(s.db, s.tasks[t].pc.i, matches);
             db' != s.db ==> s.tasks[t].pc.i in db'.turns && TurnMoves(s.db, db', s.tasks[t].pc.i, db'.turns[s.tasks[t].pc.i])
    requires var s' := ClaimStep(s, t, matches, a, effects); t in s'.tasks ==> TaskOk(s', t, s'.tasks[t]) && s'.db != s.db
    ensures Inv(ClaimStep(s, t, matches, a, effects))
  {
    hide Inv, ClaimTurn, ClaimStep, TurnMoves, TaskOk, OnlyTask, EffectFree;
    var s' := ClaimStep(s, t, matches, a, effects);
    ClaimRecords(s, t, matches, a, effects);
    if s'.db == s.db {
      QuietKeeps(s, s', t);
    } else {
      hide SameRecords;
      TurnMoveKeeps(s, s', t, s.tasks[t].pc.i, s'.db.turns[s.tasks[t].pc.i]);
    }
  }

  lemma CallsWithin(s: Sys, i: InvocationId)
    requires CountsOk(s)
    ensures i in s.db.turns ==> Count(s.calls, i) <= s.db.turns[i].attempts
    ensures i !in s.db.turns ==> Count(s.calls, i) == 0
  {
  }

  lemma CallCounts(s: Sys, i: InvocationId)
    requires CountsOk(s) && i in s.db.turns && Count(s.calls, i) < s.db.turns[i].attempts
    ensures CountsOk(s.(calls := s.calls[i := Count(s.calls, i) + 1]))
  {
    hide RunsOk, SeenOk;
  }

  lemma CallOwn(s: Sys, t: nat, i: InvocationId)
    requires t in s.tasks && TaskOk(s, t, s.tasks[t]) && s.tasks[t].pc == Preparing(i)
    ensures var s' := Goes(s, t, Called(i)).(calls := s.calls[i := Count(s.calls, i) + 1]); TaskOk(s', t, s'.tasks[t])
    ensures i in s.db.turns && Count(s.calls, i) < s.db.turns[i].attempts
  {
    hide HasPlan;
  }

  lemma CallModelKeeps(s: Sys, t: nat)
    requires Inv(s) && At(s, t) && s.tasks[t].pc.Preparing?
    ensures var i := s.tasks[t].pc.i; Inv(Goes(s, t, Called(i)).(calls := s.calls[i := Count(s.calls, i) + 1]))
  {
    hide Inv, DbOk, CountsOk, TaskOk;
    var i := s.tasks[t].pc.i;
    var s' := Goes(s, t, Called(i)).(calls := s.calls[i := Count(s.calls, i) + 1]);
    TaskIsOk(s, t);
    TablesOk(s);
    CallOwn(s, t, i);
    CallCounts(s, i);
    SameCounts(s.(calls := s'.calls), s');
    forall u | u in s.tasks && u != t && TaskOk(s, u, s.tasks[u]) ensures TaskOk(s', u, s.tasks[u]) {
      CallOthers(s, s', t, i, u, s.tasks[u]);
    }
    Rebuild(s, s', t);
  }

  lemma CallOthers(s: Sys, s': Sys, t: nat, i: InvocationId, u: nat, task: Task)
    requires TaskOk(s, u, task) && t in s.tasks && TaskOk(s, t, s.tasks[t]) && s.tasks[t].pc == Preparing(i) && u != t
    requires s' == Goes(s, t, Called(i)).(calls := s.calls[i := Count(s.calls, i) + 1])
    ensures TaskOk(s', u, task)
  {
  }

  // ---- Publishing a plan ---------------------------------------------------------------------------

  /** The plan of turn i is published: new effects, and a new reply with its entry if it has text. */
  ghost predicate Publishes(db: Db, db': Db, i: InvocationId, reply: Option<Reply>, effects: seq<EffectId>) {
    && CommitPlan(db, i, reply, effects, false) == (db', Published)
  }

  lemma PublishShape(db: Db, db': Db, i: InvocationId, reply: Option<Reply>, effects: seq<EffectId>)
    requires Publishes(db, db', i, reply, effects)
    ensures i in db.turns && !HasPlan(db, i) && Unused(db, reply, effects)
    ensures db'.effects == db.effects + PlannedEffects(i, effects)
    ensures db'.turns == db.turns[i := db.turns[i].(state := if reply.Some? then ResponsePlanned else TurnSucceeded)]
    ensures db'.actions == if reply.Some? then db.actions[reply.value.action := Action(i, reply.value.response, Pending)] else db.actions
    ensures db'.history == if reply.Some? then db.history[reply.value.response := Entry(i.chat, NotSent)] else db.history
  {
  }

  lemma PublishedReplies(db: Db, db': Db, i: InvocationId, reply: Option<Reply>, effects: seq<EffectId>, j: InvocationId)
    requires Publishes(db, db', i, reply, effects) && j != i
    ensures HasReply(db', j) <==> HasReply(db, j)
    ensures Answered(db, j) ==> Answered(db', j)
    ensures HasPlan(db', j) <==> HasPlan(db, j)
  {
    PublishShape(db, db', i, reply, effects);
    hide CommitPlan;
    if a :| a in db.actions && ReplyRow(db, j, a) {
      assert a in db'.actions && ReplyRow(db', j, a);
    }
    if a :| a in db'.actions && ReplyRow(db', j, a) {
      assert a in db.actions && ReplyRow(db, j, a);
    }
    if a :| a in db.actions && ReplyRow(db, j, a) && db.actions[a].state == Succeeded {
      assert a in db'.actions && ReplyRow(db', j, a) && db'.actions[a].state == Succeeded;
    }
  }

  /** Before its plan a turn is not answered, so nothing that follows from an answer is lost. */
  lemma PublishedAnswered(db: Db, db': Db, i: InvocationId, reply: Option<Reply>, effects: seq<EffectId>, j: InvocationId)
    requires Publishes(db, db', i, reply, effects) && Answered(db, j)
    ensures Answered(db', j)
  {
    PublishShape(db, db', i, reply, effects);
    if j != i {
      PublishedReplies(db, db', i, reply, effects, j);
    }
  }

  lemma PublishedLinks(db: Db, db': Db, i: InvocationId, reply: Option<Reply>, effects: seq<EffectId>)
    requires Linked(db) && Publishes(db, db', i, reply, effects)
    ensures Linked(db')
  {
    PublishShape(db, db', i, reply, effects);
    hide CommitPlan;
    forall a, b | a in db'.actions && b in db'.actions && a != b
      ensures db'.actions[a].invocation != db'.actions[b].invocation && db'.actions[a].response != db'.actions[b].response
    {
      assert a in db.actions ==> !ReplyRow(db, i, a);
      assert b in db.actions ==> !ReplyRow(db, i, b);
    }
  }

  lemma PublishedViews(db: Db, db': Db, i: InvocationId, reply: Option<Reply>, effects: seq<EffectId>, b: ActionId)
    requires Publishes(db, db', i, reply, effects) && b in db'.actions && db.turns[i].claimed
    requires b in db.actions ==> ViewsOk(db, b)
    ensures ViewsOk(db', b)
  {
    PublishShape(db, db', i, reply, effects);
    hide CommitPlan;
    assert b in db.actions ==> !ReplyRow(db, i, b);
  }

  lemma PublishedDb(db: Db, db': Db, i: InvocationId, reply: Option<Reply>, effects: seq<EffectId>)
    requires DbOk(db) && Publishes(db, db', i, reply, effects) && db.turns[i].claimed
    ensures DbOk(db')
  {
    PublishShape(db, db', i, reply, effects);
    PublishedLinks(db, db', i, reply, effects);
    hide CommitPlan, Linked, Publishes;
    forall b | b in db'.actions ensures ViewsOk(db', b) {
      assert b in db.actions ==> ViewsOk(db, b);
      PublishedViews(db, db', i, reply, effects, b);
    }
    forall e | e in db'.effects ensures EffectOk(db', e) {
      if e in db.effects {
        assert EffectOk(db, e) && e !in PlannedEffects(i, effects);
        if db.effects[e].model && Begun(db.effects[e].state) {
          PublishedAnswered(db, db', i, reply, effects, db.effects[e].invocation);
        }
      }
    }
  }

  lemma PublishedRuns(s: Sys, s': Sys, i: InvocationId, reply: Option<Reply>, effects: seq<EffectId>, e: EffectId)
    requires Publishes(s.db, s'.db, i, reply, effects) && e in s.db.effects && RunsOk(s.db.effects[e], Count(s.runs, e), s.db)
    ensures e in s'.db.effects && RunsOk(s'.db.effects[e], Count(s.runs, e), s'.db)
  {
    PublishedEffect(s, s', i, reply, effects, e);
    hide CommitPlan, Publishes, Answered;
  }

  lemma PublishedAllRuns(s: Sys, s': Sys, i: InvocationId, reply: Option<Reply>, effects: seq<EffectId>)
    requires CountsOk(s) && Publishes(s.db, s'.db, i, reply, effects) && SameRecords(s, s')
    ensures forall e | e in s'.db.effects :: RunsOk(s'.db.effects[e], Count(s'.runs, e), s'.db)
  {
    assert OnlyAdds(s.db, s'.db);
    hide CommitPlan, Publishes, Answered, RunsOk;
    forall e | e in s'.db.effects ensures RunsOk(s'.db.effects[e], Count(s'.runs, e), s'.db) {
      if e in s.db.effects {
        PublishedRuns(s, s', i, reply, effects, e);
      } else {
        NewEffectRuns(s'.db.effects[e], s'.db);
      }
    }
  }

  lemma NewEffectRuns(effect: Effect, db: Db)
    requires effect.state == Pending
    ensures RunsOk(effect, 0, db)
  {
  }

  lemma PublishedCounts(s: Sys, s': Sys, i: InvocationId, reply: Option<Reply>, effects: seq<EffectId>)
    requires CountsOk(s) && Publishes(s.db, s'.db, i, reply, effects) && SameRecords(s, s')
    ensures CountsOk(s')
  {
    PublishedAllRuns(s, s', i, reply, effects);
    PublishShape(s.db, s'.db, i, reply, effects);
    hide CommitPlan, Publishes, HasPlan, Unused, PlannedEffects, RunsOk;
  }

  lemma PublishedEffect(s: Sys, s': Sys, i: InvocationId, reply: Option<Reply>, effects: seq<EffectId>, e: EffectId)
    requires Publishes(s.db, s'.db, i, reply, effects) && e in s.db.effects
    ensures e in s'.db.effects && s'.db.effects[e] == s.db.effects[e]
    ensures Answered(s.db, s.db.effects[e].invocation) ==> Answered(s'.db, s.db.effects[e].invocation)
  {
    PublishShape(s.db, s'.db, i, reply, effects);
    if Answered(s.db, s.db.effects[e].invocation) {
      PublishedAnswered(s.db, s'.db, i, reply, effects, s.db.effects[e].invocation);
    }
  }

  lemma PublishedRunner(s: Sys, s': Sys, i: InvocationId, reply: Option<Reply>, effects: seq<EffectId>, u: nat, e: EffectId, times: nat)
    requires Publishes(s.db, s'.db, i, reply, effects) && SameRecords(s, s') && RunningOk(s, u, e, times)
    ensures RunningOk(s', u, e, times) && e in s.db.effects && s'.db.effects[e] == s.db.effects[e]
  {
    hide Publishes, Answered;
    PublishedEffect(s, s', i, reply, effects, e);
  }

  /** The gate keeps every other call away from turn i. */
  lemma PublishedPc(s: Sys, s': Sys, t: nat, i: InvocationId, reply: Option<Reply>, effects: seq<EffectId>, u: nat, task: Task)
    requires Publishes(s.db, s'.db, i, reply, effects) && SameRecords(s, s') && u != t
    requires i.chat in s.holder && s.holder[i.chat] == t && TaskOk(s, u, task)
    ensures PcOk(s', u, task.gate, task.pc)
  {
    hide Publishes, HasPlan, RunningOk;
    PublishShape(s.db, s'.db, i, reply, effects);
    match task.pc
    case Claiming(j) => PublishedReplies(s.db, s'.db, i, reply, effects, j);
    case Preparing(j) => PublishedReplies(s.db, s'.db, i, reply, effects, j);
    case Called(j) => PublishedReplies(s.db, s'.db, i, reply, effects, j);
    case EffectRunning(e) => PublishedRunner(s, s', i, reply, effects, u, e, 0);
    case EffectRan(e) => PublishedRunner(s, s', i, reply, effects, u, e, 1);
    case EffectRefused(e) => PublishedRunner(s, s', i, reply, effects, u, e, 0);
    case EffectInDoubt(e) => PublishedRunner(s, s', i, reply, effects, u, e, 1);
    case _ =>
  }

  lemma PublishedTask(s: Sys, s': Sys, t: nat, i: InvocationId, reply: Option<Reply>, effects: seq<EffectId>, u: nat, task: Task)
    requires Publishes(s.db, s'.db, i, reply, effects) && SameRecords(s, s') && u != t
    requires i.chat in s.holder && s.holder[i.chat] == t && TaskOk(s, u, task)
    ensures TaskOk(s', u, task)
  {
    PublishedPc(s, s', t, i, reply, effects, u, task);
    hide PcOk;
    forall e | e in task.done ensures e in s'.db.effects && s'.db.effects[e].state == Succeeded {
      PublishedEffect(s, s', i, reply, effects, e);
    }
  }

  lemma PublishedOwn(s: Sys, s': Sys, t: nat, reply: Option<Reply>, effects: seq<EffectId>)
    requires t in s.tasks && TaskOk(s, t, s.tasks[t]) && s.tasks[t].pc.Called? && s' == CommitStep(s, t, reply, effects)
    requires Publishes(s.db, s'.db, s.tasks[t].pc.i, reply, effects)
    ensures t in s'.tasks && TaskOk(s', t, s'.tasks[t])
  {
    PublishShape(s.db, s'.db, s.tasks[t].pc.i, reply, effects);
    hide CommitPlan;
  }

  lemma CommitKeeps(s: Sys, t: nat, reply: Option<Reply>, effects: seq<EffectId>)
    requires Inv(s) && At(s, t) && s.tasks[t].pc.Called?
    ensures Inv(CommitStep(s, t, reply, effects))
  {
    hide Inv, DbOk, CountsOk, CommitPlan;
    var i := s.tasks[t].pc.i;
    var s' := CommitStep(s, t, reply, effects);
    TaskIsOk(s, t);
    TablesOk(s);
    if CommitPlan(s.db, i, reply, effects, false).1 == Published {
      assert Publishes(s.db, s'.db, i, reply, effects);
      PublishShape(s.db, s'.db, i, reply, effects);
      assert i.chat in s.holder && s.holder[i.chat] == t && s.db.turns[i].claimed;
      PublishedOwn(s, s', t, reply, effects);
      hide TaskOk, PcOk, Publishes, Unused, HasPlan;
      PublishedDb(s.db, s'.db, i, reply, effects);
      PublishedCounts(s, s', i, reply, effects);
      forall u | u in s.tasks && u != t && TaskOk(s, u, s.tasks[u]) ensures TaskOk(s', u, s.tasks[u]) {
        PublishedTask(s, s', t, i, reply, effects, u, s.tasks[u]);
      }
      Rebuild(s, s', t);
    } else {
      hide TaskOk, PcOk;
      QuietKeeps(s, s', t);
    }
  }

  // ---- The history view ------------------------------------------------------------------------------

  /** Only entry m is added or removed. */
  ghost predicate EntryChanges(db: Db, db': Db, m: EntryId) {
    db' == db.(history := db'.history) && db'.history - {m} == db.history - {m}
  }

  lemma EntryElsewhere(db: Db, db': Db, m: EntryId, x: EntryId)
    requires EntryChanges(db, db', m) && x != m
    ensures x in db'.history <==> x in db.history
    ensures x in db.history ==> db'.history[x] == db.history[x]
  {
    assert x in db'.history <==> x in db'.history - {m};
    assert x in db.history <==> x in db.history - {m};
    if x in db.history {
      assert db.history[x] == (db.history - {m})[x] == (db'.history - {m})[x];
    }
  }

  lemma EntryAnswered(db: Db, db': Db, m: EntryId, i: InvocationId)
    requires EntryChanges(db, db', m)
    ensures Answered(db', i) <==> Answered(db, i)
    ensures HasPlan(db', i) <==> HasPlan(db, i)
    ensures HasReply(db', i) <==> HasReply(db, i)
  {
    assert forall a :: ReplyRow(db', i, a) <==> ReplyRow(db, i, a);
  }

  lemma EntryChangesDb(db: Db, db': Db, m: EntryId)
    requires DbOk(db) && EntryChanges(db, db', m)
    requires forall a | a in db.actions && db.actions[a].response == m :: ViewsOk(db', a)
    ensures DbOk(db')
  {
    forall b | b in db'.actions ensures ViewsOk(db', b) {
      assert ViewsOk(db, b);
      if db.actions[b].response != m {
        EntryElsewhere(db, db', m, db.actions[b].response);
      }
    }
    forall e | e in db'.effects ensures EffectOk(db', e) {
      assert EffectOk(db, e);
      EntryAnswered(db, db', m, db.effects[e].invocation);
    }
  }

  lemma EntryChangesCounts(s: Sys, s': Sys, m: EntryId)
    requires CountsOk(s) && EntryChanges(s.db, s'.db, m) && SameRecords(s, s')
    ensures CountsOk(s')
  {
    forall e | e in s'.db.effects ensures RunsOk(s'.db.effects[e], Count(s'.runs, e), s'.db) {
      assert RunsOk(s.db.effects[e], Count(s.runs, e), s.db);
      EntryAnswered(s.db, s'.db, m, s.db.effects[e].invocation);
    }
  }

  lemma EntryChangesPc(s: Sys, s': Sys, m: EntryId, u: nat, task: Task)
    requires EntryChanges(s.db, s'.db, m) && SameRecords(s, s') && PcOk(s, u, task.gate, task.pc)
    ensures PcOk(s', u, task.gate, task.pc)
  {
    match task.pc
    case Claiming(i) => EntryAnswered(s.db, s'.db, m, i);
    case Preparing(i) => EntryAnswered(s.db, s'.db, m, i);
    case Called(i) => EntryAnswered(s.db, s'.db, m, i);
    case EffectRunning(e) => EntryAnswered(s.db, s'.db, m, s.db.effects[e].invocation);
    case EffectRan(e) => EntryAnswered(s.db, s'.db, m, s.db.effects[e].invocation);
    case EffectRefused(e) => EntryAnswered(s.db, s'.db, m, s.db.effects[e].invocation);
    case EffectInDoubt(e) => EntryAnswered(s.db, s'.db, m, s.db.effects[e].invocation);
    case _ =>
  }

  lemma EntryChangeKeeps(s: Sys, s': Sys, t: nat, m: EntryId)
    requires Inv(s) && s'.up && OnlyTask(s.tasks, s'.tasks, t) && EntryChanges(s.db, s'.db, m) && SameRecords(s, s')
    requires forall a | a in s.db.actions && s.db.actions[a].response == m :: ViewsOk(s'.db, a)
    requires t in s'.tasks ==> TaskOk(s', t, s'.tasks[t])
    ensures Inv(s')
  {
    hide Inv, DbOk, CountsOk, PcOk, ViewsOk;
    TablesOk(s);
    EntryChangesDb(s.db, s'.db, m);
    EntryChangesCounts(s, s', m);
    forall u | u in s.tasks && u != t && TaskOk(s, u, s.tasks[u]) ensures TaskOk(s', u, s.tasks[u]) {
      EntryChangesPc(s, s', m, u, s.tasks[u]);
    }
    hide TaskOk, EntryChanges;
    Rebuild(s, s', t);
  }

  lemma RestoredViews(s: Sys, s': Sys, t: nat, a: ActionId, b: ActionId)
    requires t in s.tasks && TaskOk(s, t, s.tasks[t]) && s.tasks[t].pc.Restoring? && s.tasks[t].pc.a == a && Linked(s.db)
    requires s' == RestoreStep(s, t) && b in s.db.actions && s.db.actions[b].response == s.db.actions[a].response
    requires ViewsOk(s.db, b)
    ensures ViewsOk(s'.db, b)
  {
    assert b == a;
  }

  lemma RestoredTask(s: Sys, t: nat)
    requires At(s, t) && TaskOk(s, t, s.tasks[t]) && s.tasks[t].pc.Restoring? && s.tasks[t].pc.i in s.db.turns && s.tasks[t].pc.a in s.db.actions
    ensures var s' := RestoreStep(s, t); TaskOk(s', t, s'.tasks[t])
  {
  }

  lemma RestoreKeeps(s: Sys, t: nat)
    requires Inv(s) && At(s, t) && s.tasks[t].pc.Restoring? && s.tasks[t].pc.i in s.db.turns && s.tasks[t].pc.a in s.db.actions
    ensures Inv(RestoreStep(s, t))
  {
    hide Inv, CountsOk, TaskOk, ViewsOk, SeenOk;
    var a := s.tasks[t].pc.a;
    var m := s.db.actions[a].response;
    var s' := RestoreStep(s, t);
    TaskIsOk(s, t);
    TablesOk(s);
    RestoredTask(s, t);
    assert Linked(s.db);
    hide DbOk, Linked, PcOk, DeliveryOf;
    forall b | b in s.db.actions && s.db.actions[b].response == m ensures ViewsOk(s'.db, b) {
      ReplyIsOk(s, b);
      RestoredViews(s, s', t, a, b);
    }
    assert s'.db.history - {m} == s.db.history - {m};
    EntryChangeKeeps(s, s', t, m);
  }

  /** Trimming spares entries still to be settled. */
  lemma TrimKeeps(s: Sys, m: EntryId)
    requires Inv(s) && s.up && m in s.db.history && s.db.history[m].delivery != NotSent
    ensures Inv(s.(db := s.db.(history := s.db.history - {m})))
  {
    hide Inv, CountsOk;
    var s' := s.(db := s.db.(history := s.db.history - {m}));
    TablesOk(s);
    forall b | b in s.db.actions && s.db.actions[b].response == m ensures ViewsOk(s'.db, b) {
      assert ViewsOk(s.db, b);
    }
    hide DbOk, ViewsOk, TaskOk, PcOk;
    assert s'.db.history - {m} == s.db.history - {m};
    var t := FreeTask(s.tasks);
    EntryChangeKeeps(s, s', t, m);
  }

  // ---- Effects of other origins, crashes and restarts --------------------------------------------------

  lemma NewEffectDb(db: Db, e: EffectId, i: InvocationId)
    requires DbOk(db) && e !in db.effects
    ensures DbOk(db.(effects := db.effects[e := Effect(i, false, Pending)]))
  {
    var db' := db.(effects := db.effects[e := Effect(i, false, Pending)]);
    forall a | a in db'.actions ensures ViewsOk(db', a) {
      assert ViewsOk(db, a);
    }
    forall x | x in db'.effects ensures EffectOk(db', x) {
      if x != e {
        assert EffectOk(db, x);
        NewEffectAnswered(db, db', db.effects[x].invocation);
      }
    }
  }

  lemma NewEffectAnswered(db: Db, db': Db, j: InvocationId)
    requires db'.actions == db.actions && db'.turns == db.turns
    ensures Answered(db', j) <==> Answered(db, j)
    ensures HasPlan(db', j) <==> HasPlan(db, j)
  {
    TurnReplies(db, db', j);
  }

  lemma NewEffectCounts(s: Sys, e: EffectId, i: InvocationId)
    requires CountsOk(s) && e !in s.db.effects
    ensures CountsOk(s.(db := s.db.(effects := s.db.effects[e := Effect(i, false, Pending)])))
  {
    var s' := s.(db := s.db.(effects := s.db.effects[e := Effect(i, false, Pending)]));
    forall x | x in s'.db.effects ensures RunsOk(s'.db.effects[x], Count(s'.runs, x), s'.db) {
      if x != e {
        assert RunsOk(s.db.effects[x], Count(s.runs, x), s.db);
        NewEffectAnswered(s.db, s'.db, s.db.effects[x].invocation);
      }
    }
  }

  lemma NewEffectTask(s: Sys, e: EffectId, i: InvocationId, u: nat, task: Task)
    requires TaskOk(s, u, task) && e !in s.db.effects
    ensures TaskOk(s.(db := s.db.(effects := s.db.effects[e := Effect(i, false, Pending)])), u, task)
  {
    var db' := s.db.(effects := s.db.effects[e := Effect(i, false, Pending)]);
    match task.pc
    case Claiming(j) => NewEffectAnswered(s.db, db', j);
    case Preparing(j) => NewEffectAnswered(s.db, db', j);
    case Called(j) => NewEffectAnswered(s.db, db', j);
    case EffectRunning(x) => NewEffectAnswered(s.db, db', s.db.effects[x].invocation);
    case EffectRan(x) => NewEffectAnswered(s.db, db', s.db.effects[x].invocation);
    case EffectRefused(x) => NewEffectAnswered(s.db, db', s.db.effects[x].invocation);
    case EffectInDoubt(x) => NewEffectAnswered(s.db, db', s.db.effects[x].invocation);
    case _ =>
  }

  lemma PlanEffectKeeps(s: Sys, e: EffectId, i: InvocationId)
    requires Inv(s) && e !in s.db.effects && s.up
    ensures Inv(s.(db := s.db.(effects := s.db.effects[e := Effect(i, false, Pending)])))
  {
    hide Inv, DbOk, CountsOk, TaskOk;
    var s' := s.(db := s.db.(effects := s.db.effects[e := Effect(i, false, Pending)]));
    TablesOk(s);
    NewEffectDb(s.db, e, i);
    NewEffectCounts(s, e, i);
    var t := FreeTask(s.tasks);
    forall u | u in s.tasks && u != t && TaskOk(s, u, s.tasks[u]) ensures TaskOk(s', u, s.tasks[u]) {
      NewEffectTask(s, e, i, u, s.tasks[u]);
    }
    Rebuild(s, s', t);
  }

  lemma ResolvedRow(db: Db, db': Db, a: ActionId)
    requires Linked(db) && Resolves(db, db') && a in db.actions && ViewsOk(db, a)
    ensures db'.actions[a] == db.actions[a].(state := Resolved(db.actions[a].state)) && ViewsOk(db', a)
  {
    var i, m := db.actions[a].invocation, db.actions[a].response;
    if Interrupted(db, a) {
      assert a in db.actions.Keys && Interrupted(db, a) && ReplyRow(db, i, a);
      assert TurnCut(db, db.actions.Keys, i) && EntryCut(db, db.actions.Keys, m);
    } else {
      assert !TurnCut(db, db.actions.Keys, i) && !EntryCut(db, db.actions.Keys, m);
    }
  }

  lemma ResolvedReplies(db: Db, db': Db, i: InvocationId)
    requires Linked(db) && Resolves(db, db')
    ensures HasReply(db', i) <==> HasReply(db, i)
    ensures Answered(db, i) ==> Answered(db', i)
  {
    assert forall a :: a in db'.actions <==> a in db.actions;
    assert forall a | a in db.actions :: db'.actions[a].invocation == db.actions[a].invocation;
    assert forall a :: ReplyRow(db', i, a) <==> ReplyRow(db, i, a);
    if a :| a in db.actions && ReplyRow(db, i, a) {
      assert a in db'.actions && ReplyRow(db', i, a);
    }
    if Answered(db, i) && !HasReply(db, i) {
      assert !TurnCut(db, db.actions.Keys, i);
    }
    if a :| a in db.actions && ReplyRow(db, i, a) && db.actions[a].state == Succeeded {
      assert a in db'.actions && ReplyRow(db', i, a) && db'.actions[a].state == Succeeded;
    }
  }

  lemma ResolvedTurn(db: Db, db': Db, i: InvocationId)
    requires DbOk(db) && Resolves(db, db') && i in db.turns
    ensures i in db'.turns && TurnOk(db'.turns[i]) && db'.turns[i].attempts == db.turns[i].attempts
  {
    if TurnCut(db, db.actions.Keys, i) {
      var a :| a in db.actions.Keys && Interrupted(db, a) && ReplyRow(db, i, a);
      assert ViewsOk(db, a);
    }
  }

  lemma RowIsOk(db: Db, a: ActionId)
    requires DbOk(db) && a in db.actions
    ensures ViewsOk(db, a)
  {
  }

  lemma RowsLinked(db: Db)
    requires DbOk(db)
    ensures Linked(db)
  {
  }

  /** Startup leaves every reply with its turn and its entry. */
  ghost predicate SameOwners(db: Db, db': Db) {
    && db'.actions.Keys == db.actions.Keys
    && forall a | a in db.actions :: db'.actions[a].invocation == db.actions[a].invocation && db'.actions[a].response == db.actions[a].response
  }

  lemma SameOwnersLinked(db: Db, db': Db)
    requires Linked(db) && SameOwners(db, db') && db'.turns.Keys == db.turns.Keys
    ensures Linked(db')
  {
    assert forall a :: a in db'.actions <==> a in db.actions;
    assert forall i :: i in db'.turns <==> i in db.turns;
  }

  lemma ResolvedLinks(db: Db, db': Db)
    requires DbOk(db) && Resolves(db, db')
    ensures Linked(db') && forall a | a in db'.actions :: ViewsOk(db', a)
  {
    hide DbOk, Linked, Resolves, ViewsOk;
    RowsLinked(db);
    ResolvedKeys(db, db');
    forall a | a in db.actions ensures ViewsOk(db', a) && db'.actions[a].invocation == db.actions[a].invocation && db'.actions[a].response == db.actions[a].response {
      RowIsOk(db, a);
      ResolvedRow(db, db', a);
    }
    SameOwnersLinked(db, db');
  }

  lemma ResolvedEffectsOk(db: Db, db': Db)
    requires DbOk(db) && Resolves(db, db')
    ensures forall e | e in db'.effects :: EffectOk(db', e)
  {
    assert db'.effects == ResolveEffects(db.effects);
    ResolvedKeys(db, db');
    hide Resolves, ViewsOk, TurnOk, Answered, Linked;
    forall e | e in db'.effects ensures EffectOk(db', e) {
      assert EffectOk(db, e);
      ResolvedReplies(db, db', db.effects[e].invocation);
    }
  }

  lemma ResolvedDb(db: Db, db': Db)
    requires DbOk(db) && Resolves(db, db')
    ensures DbOk(db')
  {
    ResolvedKeys(db, db');
    ResolvedLinks(db, db');
    ResolvedEffectsOk(db, db');
    hide Resolves, ViewsOk, EffectOk, TurnOk, Linked;
    forall i | i in db'.turns ensures TurnOk(db'.turns[i]) {
      ResolvedTurn(db, db', i);
    }
  }

  lemma ResolvedKeys(db: Db, db': Db)
    requires Resolves(db, db')
    ensures db'.actions.Keys == db.actions.Keys && db'.effects.Keys == db.effects.Keys && db'.turns.Keys == db.turns.Keys
  {
    hide HistoryResolved;
  }

  lemma ResolvedSends(s: Sys, db: Db)
    requires DbOk(s.db) && CountsOk(s) && Resolves(s.db, db)
    ensures forall a | a in db.actions :: SeenOk(db.actions[a].state, Count(s.sends, a))
  {
    hide DbOk, Linked, Resolves, ViewsOk, CountsOk, SeenOk;
    RowsLinked(s.db);
    ResolvedKeys(s.db, db);
    forall a | a in db.actions ensures SeenOk(db.actions[a].state, Count(s.sends, a)) {
      RowIsOk(s.db, a);
      ResolvedRow(s.db, db, a);
      SendIsSeen(s, a);
      ResolvedSeen(s.db.actions[a].state, Count(s.sends, a));
    }
  }

  lemma ResolvedSeen(state: RowState, times: nat)
    requires SeenOk(state, times)
    ensures SeenOk(Resolved(state), times)
  {
  }

  lemma SendIsSeen(s: Sys, a: ActionId)
    requires CountsOk(s) && a in s.db.actions
    ensures SeenOk(s.db.actions[a].state, Count(s.sends, a))
  {
  }

  lemma ResolvedRuns(s: Sys, db: Db)
    requires Linked(s.db) && CountsOk(s) && Resolves(s.db, db)
    ensures forall e | e in db.effects :: RunsOk(db.effects[e], Count(s.runs, e), db)
  {
    hide Answered, ResolvesReplies, Linked;
    forall e | e in db.effects ensures RunsOk(db.effects[e], Count(s.runs, e), db) {
      assert RunsOk(s.db.effects[e], Count(s.runs, e), s.db);
      ResolvedReplies(s.db, db, s.db.effects[e].invocation);
    }
  }

  lemma ResolvedCalls(s: Sys, db: Db)
    requires DbOk(s.db) && CountsOk(s) && Resolves(s.db, db)
    ensures forall i | i in db.turns :: Count(s.calls, i) <= db.turns[i].attempts
  {
    ResolvedKeys(s.db, db);
    hide DbOk, Resolves;
    forall i | i in db.turns ensures Count(s.calls, i) <= db.turns[i].attempts {
      ResolvedTurn(s.db, db, i);
    }
  }

  /** Counts stay right when no row comes or goes and every row still agrees with its count. */
  lemma Recounted(s: Sys, db: Db)
    requires CountsOk(s) && db.actions.Keys == s.db.actions.Keys && db.effects.Keys == s.db.effects.Keys && db.turns.Keys == s.db.turns.Keys
    requires forall a | a in db.actions :: SeenOk(db.actions[a].state, Count(s.sends, a))
    requires forall e | e in db.effects :: RunsOk(db.effects[e], Count(s.runs, e), db)
    requires forall i | i in db.turns :: Count(s.calls, i) <= db.turns[i].attempts
    ensures CountsOk(s.(up := true, db := db))
  {
    hide SeenOk, RunsOk;
  }

  lemma ResolvedCounts(s: Sys, db: Db)
    requires DbOk(s.db) && CountsOk(s) && Resolves(s.db, db)
    ensures CountsOk(s.(up := true, db := db))
  {
    assert Linked(s.db);
    hide SeenOk, RunsOk, Resolves, DbOk, CountsOk, Linked;
    ResolvedSends(s, db);
    ResolvedRuns(s, db);
    ResolvedCalls(s, db);
    ResolvedKeys(s.db, db);
    Recounted(s, db);
  }

  lemma RestartKeeps(s: Sys, db: Db)
    requires Inv(s) && !s.up && Resolves(s.db, db)
    ensures Inv(s.(up := true, db := db))
  {
    TablesOk(s);
    NotUpNoTasks(s);
    hide DbOk, CountsOk, Resolves;
    ResolvedDb(s.db, db);
    ResolvedCounts(s, db);
  }

  lemma CrashKeeps(s: Sys)
    requires Inv(s)
    ensures Inv(s.(up := false, tasks := map[]))
  {
    hide DbOk;
  }

  // ---- Steps of one call ------------------------------------------------------------------------------

  lemma LookedOk(s: Sys, t: nat, i: InvocationId, a: ActionId, effects: seq<EffectId>)
    requires DbOk(s.db) && (HasReply(s.db, i) ==> ReplyRow(s.db, i, a)) && Looked(s.db, i, a, effects).Some?
    requires i.chat in s.holder && s.holder[i.chat] == t
    ensures var task := Looked(s.db, i, a, effects).value; TaskOk(s, t, task)
  {
    TurnIsOk(s.db, i);
    assert HasReply(s.db, i) ==> a in s.db.actions;
    hide DbOk, Answered, HasReply;
  }

  lemma InvokeKeeps(s: Sys, t: nat, i: InvocationId, a: ActionId, effects: seq<EffectId>)
    requires Inv(s) && New(s, t) && GateFree(s, i.chat) && (HasReply(s.db, i) ==> ReplyRow(s.db, i, a))
    ensures Inv(InvokeStep(s, t, i, a, effects))
  {
    hide Inv, DbOk, CountsOk, TaskOk, HasReply, Looked;
    var s' := InvokeStep(s, t, i, a, effects);
    if Looked(s.db, i, a, effects).Some? {
      TablesOk(s);
      LookedOk(s', t, i, a, effects);
      SameCounts(s, s');
      forall u | u in s.tasks && u != t && TaskOk(s, u, s.tasks[u]) ensures TaskOk(s', u, s.tasks[u]) {
        OtherGate(s, s', t, i, u, s.tasks[u]);
      }
      Rebuild(s, s', t);
    }
  }

  lemma SameCounts(s: Sys, s': Sys)
    requires CountsOk(s) && s'.db == s.db && s'.sends == s.sends && s'.calls == s.calls && s'.runs == s.runs
    ensures CountsOk(s')
  {
    hide Answered;
  }

  lemma OtherGate(s: Sys, s': Sys, t: nat, i: InvocationId, u: nat, task: Task)
    requires TaskOk(s, u, task) && task.gate != Some(i.chat) && s'.holder == s.holder[i.chat := t]
    requires s'.db == s.db && s'.sends == s.sends && s'.calls == s.calls && s'.runs == s.runs && s'.sender == s.sender && s'.runner == s.runner
    ensures TaskOk(s', u, task)
  {
    hide Answered, HasPlan;
  }

  lemma SweepKeeps(s: Sys, t: nat, a: ActionId, e: EffectId)
    requires Inv(s) && New(s, t)
    ensures a in s.db.actions ==> Inv(s.(tasks := s.tasks[t := Task(None, None, Replying(a), [], [])]))
    ensures Inv(s.(tasks := s.tasks[t := Task(None, None, RunningEffects, [e], [])]))
  {
    hide Inv;
    if a in s.db.actions {
      QuietKeeps(s, s.(tasks := s.tasks[t := Task(None, None, Replying(a), [], [])]), t);
    }
    QuietKeeps(s, s.(tasks := s.tasks[t := Task(None, None, RunningEffects, [e], [])]), t);
  }

  /** A call moves on to a point that relies on no more than it knows. */
  lemma GoesKeeps(s: Sys, t: nat, pc: Pc)
    requires Inv(s) && At(s, t) && PcOk(s, t, s.tasks[t].gate, pc)
    ensures Inv(Goes(s, t, pc))
  {
    hide Inv;
    TaskIsOk(s, t);
    SameFacts(s, Goes(s, t, pc), t, Task(s.tasks[t].gate, s.tasks[t].of, pc, s.tasks[t].todo, s.tasks[t].done));
    hide PcOk, TaskOk;
    QuietKeeps(s, Goes(s, t, pc), t);
  }

  lemma EndsKeeps(s: Sys, t: nat)
    requires Inv(s) && At(s, t)
    ensures Inv(Ends(s, t))
  {
    hide Inv;
    QuietKeeps(s, Ends(s, t), t);
  }

  lemma LoadReplyKeeps(s: Sys, t: nat)
    requires Inv(s) && At(s, t) && s.tasks[t].pc.Replying? && s.tasks[t].pc.a in s.db.actions
    ensures Inv(LoadReplyStep(s, t))
  {
    hide Inv;
    match s.db.actions[s.tasks[t].pc.a].state
    case Succeeded => GoesKeeps(s, t, RunningEffects);
    case Pending => GoesKeeps(s, t, ReplyLoaded(s.tasks[t].pc.a));
    case _ => EndsKeeps(s, t);
  }

  lemma LoadEffectKeeps(s: Sys, t: nat)
    requires Inv(s) && At(s, t) && s.tasks[t].pc.RunningEffects? && s.tasks[t].todo != [] && s.tasks[t].todo[0] in s.db.effects
    ensures Inv(LoadEffectStep(s, t))
  {
    hide Inv;
    TaskIsOk(s, t);
    match s.db.effects[s.tasks[t].todo[0]].state
    case Succeeded => QuietKeeps(s, LoadEffectStep(s, t), t);
    case Pending => GoesKeeps(s, t, EffectLoaded(s.tasks[t].todo[0]));
    case _ => EndsKeeps(s, t);
  }

  /** Calls that change their minds: a denial, a failed write, a refusal. */
  lemma AsideKeeps(s: Sys, t: nat)
    requires Inv(s) && At(s, t)
    ensures var pc := s.tasks[t].pc;
            && (pc.ReplyLoaded? ==> Inv(Goes(s, t, ReplyDenied(pc.a))))
            && (pc.ReplySent? ==> Inv(Goes(s, t, ReplyInDoubt(pc.a))))
            && (pc.EffectLoaded? ==> Inv(Goes(s, t, EffectDenied(pc.e))))
            && (pc.EffectRunning? ==> Inv(Goes(s, t, EffectRefused(pc.e))))
            && (pc.EffectRan? ==> Inv(Goes(s, t, EffectInDoubt(pc.e))))
  {
    hide Inv;
    TaskIsOk(s, t);
    match s.tasks[t].pc
    case ReplyLoaded(a) => GoesKeeps(s, t, ReplyDenied(a));
    case ReplySent(a) => GoesKeeps(s, t, ReplyInDoubt(a));
    case EffectLoaded(e) => GoesKeeps(s, t, EffectDenied(e));
    case EffectRunning(e) => GoesKeeps(s, t, EffectRefused(e));
    case EffectRan(e) => GoesKeeps(s, t, EffectInDoubt(e));
    case _ =>
  }

  // ---- Every step, every run ---------------------------------------------------------------------------

  lemma TurnStepKeeps(s: Sys, event: Event)
    requires IsTurnEvent(event) && Inv(s) && TurnEnabled(s, event)
    ensures Inv(TurnStep(s, event))
  {
    hide Inv, HasReply, Lists, OnlyAdds, OnlyTask, EffectFree, FailGeneration, InvokeStep, RestoreStep, ClaimStep, CommitStep;
    match event
    case Arrive(i) => ArriveKeeps(s, i);
    case PlanEffect(e, i) => PlanEffectKeeps(s, e, i);
    case SetAside(i) => SetAsideKeeps(s, i);
    case ResetTurn(i) => SetAsideKeeps(s, i);
    case TrimEntry(m) => TrimKeeps(s, m);
    case Invoke(t, i, a, effects) => InvokeKeeps(s, t, i, a, effects);
    case Restore(t) => RestoreKeeps(s, t);
    case ClaimsTurn(t, matches, a, effects) => ClaimKeeps(s, t, matches, a, effects);
    case GenerationFails(t, retryable) => FailGenerationKeeps(s, t, retryable);
    case CallsModel(t) => CallModelKeeps(s, t);
    case CommitsPlan(t, reply, effects) => CommitKeeps(s, t, reply, effects);
  }

  lemma ReplyStepKeeps(s: Sys, event: Event)
    requires IsReplyEvent(event) && Inv(s) && ReplyEnabled(s, event)
    ensures Inv(ReplyStep(s, event))
  {
    hide Inv, OnlyTask, EffectFree, FinishReply, LoadReplyStep, StartReplyStep, SendStep, CompleteReplyStep;
    match event
    case SweepReply(t, a) => SweepKeeps(s, t, a, 0);
    case LoadsReply(t) => LoadReplyKeeps(s, t);
    case DeniesReply(t) => AsideKeeps(s, t);
    case FailsReply(t) => FailReplyKeeps(s, t);
    case StartsReply(t) => StartReplyKeeps(s, t);
    case Sends(t, ok) => SendKeeps(s, t, ok);
    case CompletesReply(t, reported) => CompleteReplyKeeps(s, t, reported);
    case CompletionFails(t) => AsideKeeps(s, t);
    case MarksReply(t) => MarkReplyKeeps(s, t);
  }

  lemma EffectBeginKeeps(s: Sys, event: Event)
    requires BeginsEffect(event) && Inv(s) && EffectEnabled(s, event)
    ensures Inv(EffectStep(s, event))
  {
    hide Inv, OnlyTask, EffectFree, FinishEffect, LoadEffectStep, StartEffectStep, RunStep, CompleteEffectStep;
    match event
    case SweepEffect(t, e) => SweepKeeps(s, t, 0, e);
    case LoadsEffect(t) => LoadEffectKeeps(s, t);
    case DeniesEffect(t) => AsideKeeps(s, t);
    case StartsEffect(t) => StartEffectKeeps(s, t);
  }

  lemma EffectEndKeeps(s: Sys, event: Event)
    requires IsEffectEvent(event) && !BeginsEffect(event) && Inv(s) && EffectEnabled(s, event)
    ensures Inv(EffectStep(s, event))
  {
    hide Inv, OnlyTask, EffectFree, FinishEffect, LoadEffectStep, StartEffectStep, RunStep, CompleteEffectStep;
    match event
    case Runs(t, ok) => RunKeeps(s, t, ok);
    case Refuses(t) => AsideKeeps(s, t);
    case CompletesEffect(t, reported) => CompleteEffectKeeps(s, t, reported);
    case EffectCompletionFails(t) => AsideKeeps(s, t);
    case FailsEffect(t) => FailEffectKeeps(s, t);
    case MarksEffect(t) => MarkEffectKeeps(s, t);
  }

  lemma SystemStepKeeps(s: Sys, event: Event)
    requires !IsTurnEvent(event) && !IsReplyEvent(event) && !IsEffectEvent(event) && Inv(s) && Enabled(s, event)
    ensures Inv(Step(s, event))
  {
    hide Inv, Resolves;
    match event
    case Returns(t) => EndsKeeps(s, t);
    case Crash => CrashKeeps(s);
    case Restart(db) => RestartKeeps(s, db);
  }

  /** The invariant of the outbox survives every step, in whatever order they come. */
  lemma StepKeepsInv(s: Sys, event: Event)
    requires Inv(s) && Enabled(s, event)
    ensures Inv(Step(s, event))
  {
    hide Inv, TurnEnabled, ReplyEnabled, EffectEnabled, TurnStep, ReplyStep, EffectStep, OnlyAdds, OnlyTask, EffectFree;
    if IsTurnEvent(event) {
      TurnKind(s, event);
      TurnStepKeeps(s, event);
    } else if IsReplyEvent(event) {
      ReplyKind(s, event);
      ReplyStepKeeps(s, event);
    } else if IsEffectEvent(event) {
      EffectKind(s, event);
      if BeginsEffect(event) {
        EffectBeginKeeps(s, event);
      } else {
        EffectEndKeeps(s, event);
      }
    } else {
      SystemStepKeeps(s, event);
    }
  }

  lemma NothingYet()
    ensures Inv(INITIAL)
  {
  }

  lemma {:induction false} RunKeepsInv(events: seq<Event>, states: seq<Sys>, k: nat)
    requires Run(events, states) && k < |states|
    ensures Inv(states[k])
  {
    hide Inv, Enabled, Step;
    if k == 0 {
      NothingYet();
    } else {
      RunKeepsInv(events, states, k - 1);
      StepKeepsInv(states[k - 1], events[k - 1]);
    }
  }
}
