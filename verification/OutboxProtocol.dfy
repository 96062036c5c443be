// Every interleaving of the code that answers a turn: agents generating and replaying plans
// behind their chat's gate, dispatchers sending replies and running effects on behalf of a
// turn or of the redelivery sweep, resets of history, retention that removes settled history
// entries at any time, and crashes followed by a restart (internal/agent/agent.go,
// internal/action/action.go, internal/effect/effect.go, internal/app/runtime.go,
// internal/app/compose.go, internal/adapters/sqlite/maintenance.go). A step is one transaction
// or one call to the outside.
module OutboxProtocol {
  import opened Prelude
  import opened Outbox

  /** Where a call stands. */
  datatype Pc =
    | Claiming(i: InvocationId)                // no plan was found; the turn is claimed next
    | Preparing(i: InvocationId)               // claimed; the model is called next
    | Called(i: InvocationId)                  // the model answered; the plan is committed next
    | Restoring(i: InvocationId, a: ActionId, delivery: DeliveryStatus)
    | Replying(a: ActionId)
    | ReplyLoaded(a: ActionId)                 // it was pending when read
    | ReplyDenied(a: ActionId)
    | ReplySending(a: ActionId)
    | ReplySent(a: ActionId)
    | ReplyInDoubt(a: ActionId)
    | RunningEffects                           // the next of `todo` is loaded next
    | EffectLoaded(e: EffectId)
    | EffectDenied(e: EffectId)
    | EffectRunning(e: EffectId)
    | EffectRan(e: EffectId)
    | EffectRefused(e: EffectId)
    | EffectInDoubt(e: EffectId)

  /** The effect a call is dispatching, if it is at one. */
  function Current(pc: Pc): Option<EffectId> {
    match pc
    case EffectLoaded(e) => Some(e)
    case EffectDenied(e) => Some(e)
    case EffectRunning(e) => Some(e)
    case EffectRan(e) => Some(e)
    case EffectRefused(e) => Some(e)
    case EffectInDoubt(e) => Some(e)
    case _ => None
  }

  /** A call in progress. `gate` is the chat whose operation gate it holds and `of` the turn it
      answers, if any; `todo` are the effects it has yet to dispatch and `done` those it
      dispatched without an error. */
  datatype Task = Task(gate: Option<ChatId>, of: Option<InvocationId>, pc: Pc, todo: seq<EffectId>, done: seq<EffectId>)

  /** The process and its database. The maps from `sends` on only record what happened: how
      often a reply was handed to the sender, the model called and an effect run, who last
      claimed a reply, an effect or a gate, and which plans were committed. No step reads them. */
  datatype Sys = Sys(
    up: bool, db: Db, tasks: map<nat, Task>,
    sends: map<ActionId, nat>, calls: map<InvocationId, nat>, runs: map<EffectId, nat>,
    sender: map<ActionId, nat>, runner: map<EffectId, nat>, holder: map<ChatId, nat>,
    plans: map<InvocationId, Plan>)

  const INITIAL: Sys := Sys(false, Db(map[], map[], map[], map[]), map[], map[], map[], map[], map[], map[], map[], map[])

  function Count<K>(m: map<K, nat>, k: K): nat {
    if k in m then m[k] else 0
  }

  datatype Event =
    | Arrive(i: InvocationId)
    | PlanEffect(e: EffectId, i: InvocationId)              // an effect that follows no reply
    | SetAside(i: InvocationId)                             // ignored, batched or reset before it was claimed
    | ResetTurn(i: InvocationId)                            // a history reset cancels a generation
    | TrimEntry(m: EntryId)
    | Invoke(t: nat, i: InvocationId, a: ActionId, effects: seq<EffectId>)
    | Restore(t: nat)
    | ClaimsTurn(t: nat, matches: bool, a: ActionId, effects: seq<EffectId>)
    | GenerationFails(t: nat, retryable: bool)
    | CallsModel(t: nat)
    | CommitsPlan(t: nat, reply: Option<Reply>, effects: seq<EffectId>)
    | SweepReply(t: nat, a: ActionId)
    | SweepEffect(t: nat, e: EffectId)
    | LoadsReply(t: nat)
    | DeniesReply(t: nat)
    | FailsReply(t: nat)
    | StartsReply(t: nat)
    | Sends(t: nat, ok: bool)
    | CompletesReply(t: nat, reported: bool)                // a commit may succeed and still report an error
    | CompletionFails(t: nat)
    | MarksReply(t: nat)
    | LoadsEffect(t: nat)
    | DeniesEffect(t: nat)
    | FailsEffect(t: nat)
    | StartsEffect(t: nat)
    | Runs(t: nat, ok: bool)
    | Refuses(t: nat)
    | CompletesEffect(t: nat, reported: bool)
    | EffectCompletionFails(t: nat)
    | MarksEffect(t: nat)
    | Returns(t: nat)                                       // an error, or nothing left to do
    | Crash
    | Restart(db: Db)

  predicate GateFree(s: Sys, chat: ChatId) {
    forall t | t in s.tasks :: s.tasks[t].gate != Some(chat)
  }

  /** A call may return wherever it is not in the middle of sending or running. */
  predicate MayReturn(pc: Pc) {
    !pc.ReplySending? && !pc.ReplySent? && !pc.EffectRunning? && !pc.EffectRan?
  }

  predicate At(s: Sys, t: nat) {
    s.up && t in s.tasks
  }

  predicate New(s: Sys, t: nat) {
    s.up && t !in s.tasks
  }

  predicate IsTurnEvent(event: Event) {
    event.Arrive? || event.PlanEffect? || event.SetAside? || event.ResetTurn? || event.TrimEntry? || event.Invoke?
    || event.Restore? || event.ClaimsTurn? || event.GenerationFails? || event.CallsModel? || event.CommitsPlan?
  }

  predicate IsReplyEvent(event: Event) {
    event.SweepReply? || event.LoadsReply? || event.DeniesReply? || event.FailsReply? || event.StartsReply? || event.Sends?
    || event.CompletesReply? || event.CompletionFails? || event.MarksReply?
  }

  predicate IsEffectEvent(event: Event) {
    event.SweepEffect? || event.LoadsEffect? || event.DeniesEffect? || event.FailsEffect? || event.StartsEffect? || event.Runs?
    || event.Refuses? || event.CompletesEffect? || event.EffectCompletionFails? || event.MarksEffect?
  }

  ghost predicate TurnEnabled(s: Sys, event: Event)
    requires IsTurnEvent(event)
  {
    match event
    case Arrive(i) => i !in s.db.turns
    case PlanEffect(e, i) => s.up && e !in s.db.effects && i in s.db.turns
    case SetAside(i) => i in s.db.turns && !s.db.turns[i].claimed
    case ResetTurn(i) =>
      && i in s.db.turns && !HasReply(s.db, i)
      && (s.db.turns[i].state == Generating || s.db.turns[i].state == FailedRetryable)
    case TrimEntry(m) =>
      s.up && m in s.db.history && s.db.history[m].delivery != NotSent
    case Invoke(t, i, a, effects) =>
      && New(s, t) && GateFree(s, i.chat)
      && Lists(s.db, i, effects) && (HasReply(s.db, i) ==> ReplyRow(s.db, i, a))
    case Restore(t) => At(s, t) && s.tasks[t].pc.Restoring? && s.tasks[t].pc.i in s.db.turns && s.tasks[t].pc.a in s.db.actions
    case ClaimsTurn(t, _, a, effects) =>
      && At(s, t) && s.tasks[t].pc.Claiming?
      && Lists(s.db, s.tasks[t].pc.i, effects) && (HasReply(s.db, s.tasks[t].pc.i) ==> ReplyRow(s.db, s.tasks[t].pc.i, a))
    case GenerationFails(t, _) => At(s, t) && (s.tasks[t].pc.Preparing? || s.tasks[t].pc.Called?)
    case CallsModel(t) => At(s, t) && s.tasks[t].pc.Preparing?
    case CommitsPlan(t, _, _) => At(s, t) && s.tasks[t].pc.Called?
  }

  ghost predicate ReplyEnabled(s: Sys, event: Event)
    requires IsReplyEvent(event)
  {
    match event
    case SweepReply(t, a) => New(s, t) && a in s.db.actions
    case LoadsReply(t) => At(s, t) && s.tasks[t].pc.Replying? && s.tasks[t].pc.a in s.db.actions
    case DeniesReply(t) => At(s, t) && s.tasks[t].pc.ReplyLoaded?
    case FailsReply(t) => At(s, t) && s.tasks[t].pc.ReplyDenied?
    case StartsReply(t) => At(s, t) && s.tasks[t].pc.ReplyLoaded?
    case Sends(t, _) => At(s, t) && s.tasks[t].pc.ReplySending?
    case CompletesReply(t, _) => At(s, t) && s.tasks[t].pc.ReplySent?
    case CompletionFails(t) => At(s, t) && s.tasks[t].pc.ReplySent?
    case MarksReply(t) => At(s, t) && s.tasks[t].pc.ReplyInDoubt?
  }

  ghost predicate EffectEnabled(s: Sys, event: Event)
    requires IsEffectEvent(event)
  {
    match event
    case SweepEffect(t, e) => New(s, t) && e in s.db.effects
    case LoadsEffect(t) => At(s, t) && s.tasks[t].pc.RunningEffects? && s.tasks[t].todo != [] && s.tasks[t].todo[0] in s.db.effects
    case DeniesEffect(t) => At(s, t) && s.tasks[t].pc.EffectLoaded?
    case FailsEffect(t) => At(s, t) && (s.tasks[t].pc.EffectDenied? || s.tasks[t].pc.EffectRefused?)
    case StartsEffect(t) => At(s, t) && s.tasks[t].pc.EffectLoaded?
    case Runs(t, _) => At(s, t) && s.tasks[t].pc.EffectRunning?
    case Refuses(t) => At(s, t) && s.tasks[t].pc.EffectRunning?
    case CompletesEffect(t, _) => At(s, t) && s.tasks[t].pc.EffectRan? && s.tasks[t].todo != []
    case EffectCompletionFails(t) => At(s, t) && s.tasks[t].pc.EffectRan?
    case MarksEffect(t) => At(s, t) && s.tasks[t].pc.EffectInDoubt?
  }

  ghost predicate Enabled(s: Sys, event: Event) {
    if IsTurnEvent(event) then TurnEnabled(s, event)
    else if IsReplyEvent(event) then ReplyEnabled(s, event)
    else if IsEffectEvent(event) then EffectEnabled(s, event)
    else
      match event
      case Returns(t) => At(s, t) && MayReturn(s.tasks[t].pc)
      case Crash => true
      case Restart(db) => !s.up && Resolves(s.db, db)
  }

  /** Only call t may appear, change or end. */
  ghost predicate OnlyTask(tasks: map<nat, Task>, tasks': map<nat, Task>, t: nat) {
    && (forall u | u != t :: u in tasks <==> u in tasks')
    && (forall u | u != t && u in tasks :: tasks'[u] == tasks[u])
  }

  /** Call t, if it goes on, is not at an effect. */
  ghost predicate EffectFree(tasks: map<nat, Task>, t: nat) {
    t in tasks ==> Current(tasks[t].pc) == None
  }

  // ---- Steps -----------------------------------------------------------------

  function Goes(s: Sys, t: nat, pc: Pc): (s': Sys)
    requires t in s.tasks
    ensures OnlyTask(s.tasks, s'.tasks, t) && (Current(pc) == None ==> EffectFree(s'.tasks, t))
    ensures s'.up == s.up && s'.db == s.db && s'.sends == s.sends && s'.calls == s.calls && s'.runs == s.runs
    ensures s'.sender == s.sender && s'.runner == s.runner && s'.holder == s.holder && s'.plans == s.plans
  {
    s.(tasks := s.tasks[t := s.tasks[t].(pc := pc)])
  }

  function Becomes(s: Sys, t: nat, task: Task): (s': Sys)
    ensures OnlyTask(s.tasks, s'.tasks, t) && (Current(task.pc) == None ==> EffectFree(s'.tasks, t))
    ensures s'.up == s.up && s'.db == s.db && s'.sends == s.sends && s'.calls == s.calls && s'.runs == s.runs
    ensures s'.sender == s.sender && s'.runner == s.runner && s'.holder == s.holder && s'.plans == s.plans
  {
    s.(tasks := s.tasks[t := task])
  }

  function Ends(s: Sys, t: nat): (s': Sys)
    ensures OnlyTask(s.tasks, s'.tasks, t) && EffectFree(s'.tasks, t)
    ensures s'.up == s.up && s'.db == s.db && s'.sends == s.sends && s'.calls == s.calls && s'.runs == s.runs
    ensures s'.sender == s.sender && s'.runner == s.runner && s'.holder == s.holder && s'.plans == s.plans
  {
    s.(tasks := s.tasks - {t})
  }

  /** The tables after a conditional write: unchanged when its condition does not hold. */
  function After(db: Db, result: Option<Db>): Db {
    if result.Some? then result.value else db
  }

  /** What a call does once it holds the gate and has looked the turn up; a turn whose
      generation failed for good ends it at once. */
  function Looked(db: Db, i: InvocationId, a: ActionId, effects: seq<EffectId>): Option<Task> {
    var loaded := i in db.turns && db.turns[i].claimed;
    if loaded && HasReply(db, i) && a in db.actions then
      Some(Task(Some(i.chat), Some(i), Restoring(i, a, DeliveryOf(db.actions[a].state)), effects, []))
    else if loaded && db.turns[i].state == TurnSucceeded then Some(Task(Some(i.chat), Some(i), RunningEffects, effects, []))
    else if loaded && db.turns[i].state == TurnFailedTerminal then None
    else Some(Task(Some(i.chat), Some(i), Claiming(i), [], []))
  }

  function InvokeStep(s: Sys, t: nat, i: InvocationId, a: ActionId, effects: seq<EffectId>): (s': Sys)
    requires t !in s.tasks
    ensures s'.calls == s.calls && s'.plans == s.plans && OnlyTask(s.tasks, s'.tasks, t) && s'.db == s.db
    ensures s'.runs == s.runs && s'.db.effects == s.db.effects && EffectFree(s'.tasks, t)
  {
    match Looked(s.db, i, a, effects)
    case Some(task) => s.(holder := s.holder[i.chat := t], tasks := s.tasks[t := task])
    case None => s
  }

  function RestoreStep(s: Sys, t: nat): (s': Sys)
    requires t in s.tasks && s.tasks[t].pc.Restoring? && s.tasks[t].pc.i in s.db.turns && s.tasks[t].pc.a in s.db.actions
    ensures s'.calls == s.calls && s'.plans == s.plans && OnlyTask(s.tasks, s'.tasks, t)
    ensures s'.runs == s.runs && s'.db.effects == s.db.effects && EffectFree(s'.tasks, t)
  {
    var pc := s.tasks[t].pc;
    Goes(s, t, Replying(pc.a)).(db := AppendEntry(s.db, s.db.actions[pc.a].response, pc.i.chat, pc.delivery))
  }

  /** Where a claim leaves the call that made it; a refused one ends. */
  function AfterClaim(db: Db, task: Task, i: InvocationId, claim: Claim, a: ActionId, effects: seq<EffectId>): (next: Option<Task>)
    ensures next.Some? ==> Current(next.value.pc) == None
  {
    match claim
    case Claimed => Some(task.(pc := Preparing(i)))
    case Denied(_) => None
    case Planned =>
      Some(task.(pc := if HasReply(db, i) && a in db.actions && i in db.turns then Restoring(i, a, DeliveryForTurn(db.turns[i].state)) else RunningEffects,
                 todo := effects))
  }

  function ClaimStep(s: Sys, t: nat, matches: bool, a: ActionId, effects: seq<EffectId>): (s': Sys)
    requires t in s.tasks && s.tasks[t].pc.Claiming?
    ensures s'.up == s.up && s'.sends == s.sends && s'.calls == s.calls && s'.runs == s.runs
    ensures s'.sender == s.sender && s'.runner == s.runner && s'.holder == s.holder && s'.plans == s.plans
    ensures s'.db == ClaimTurn(s.db, s.tasks[t].pc.i, matches).0
    ensures OnlyTask(s.tasks, s'.tasks, t) && EffectFree(s'.tasks, t)
  {
    hide OnlyTask, EffectFree, Becomes, Ends, ClaimTurn, AfterClaim;
    var i := s.tasks[t].pc.i;
    var (db, claim) := ClaimTurn(s.db, i, matches);
    match AfterClaim(db, s.tasks[t], i, claim, a, effects)
    case Some(task) => Becomes(s, t, task).(db := db)
    case None => Ends(s, t).(db := db)
  }

  function CommitStep(s: Sys, t: nat, reply: Option<Reply>, effects: seq<EffectId>): (s': Sys)
    requires t in s.tasks && s.tasks[t].pc.Called?
    ensures OnlyTask(s.tasks, s'.tasks, t) && EffectFree(s'.tasks, t)
    ensures s'.calls == s.calls && s'.runs == s.runs && OnlyAdds(s.db, s'.db)
    ensures CommitPlan(s.db, s.tasks[t].pc.i, reply, effects, false).1 != Published ==> s'.db == s.db && s'.plans == s.plans
  {
    hide CommitPlan, OnlyAdds, OnlyTask, EffectFree, Becomes, Ends;
    match CommitPlan(s.db, s.tasks[t].pc.i, reply, effects, false)
    case (db, Published) =>
      var pc := if reply.Some? then Replying(reply.value.action) else RunningEffects;
      Becomes(s, t, Task(s.tasks[t].gate, s.tasks[t].of, pc, effects, [])).(db := db, plans := s.plans[s.tasks[t].pc.i := Plan(reply, effects)])
    case _ => Ends(s, t)
  }

  function LoadReplyStep(s: Sys, t: nat): (s': Sys)
    requires t in s.tasks && s.tasks[t].pc.Replying? && s.tasks[t].pc.a in s.db.actions
    ensures s'.calls == s.calls && s'.plans == s.plans && OnlyTask(s.tasks, s'.tasks, t) && s'.db == s.db
    ensures s'.runs == s.runs && s'.db.effects == s.db.effects && EffectFree(s'.tasks, t)
  {
    hide OnlyTask, EffectFree, Goes, Ends;
    match s.db.actions[s.tasks[t].pc.a].state
    case Succeeded => Goes(s, t, RunningEffects)
    case Pending => Goes(s, t, ReplyLoaded(s.tasks[t].pc.a))
    case _ => Ends(s, t)
  }

  function StartReplyStep(s: Sys, t: nat): (s': Sys)
    requires t in s.tasks && s.tasks[t].pc.ReplyLoaded?
    ensures s'.calls == s.calls && s'.plans == s.plans && OnlyTask(s.tasks, s'.tasks, t)
    ensures s'.runs == s.runs && s'.db.effects == s.db.effects && EffectFree(s'.tasks, t)
  {
    hide OnlyTask, EffectFree, Goes, Ends;
    var a := s.tasks[t].pc.a;
    match StartReply(s.db, a)
    case Some(db) => Goes(s, t, ReplySending(a)).(db := db, sender := s.sender[a := t])
    case None => Ends(s, t)
  }

  function SendStep(s: Sys, t: nat, ok: bool): (s': Sys)
    requires t in s.tasks && s.tasks[t].pc.ReplySending?
    ensures s'.calls == s.calls && s'.plans == s.plans && OnlyTask(s.tasks, s'.tasks, t) && s'.db == s.db
    ensures s'.runs == s.runs && s'.db.effects == s.db.effects && EffectFree(s'.tasks, t)
  {
    hide OnlyTask, EffectFree, Goes, Ends;
    var a := s.tasks[t].pc.a;
    Goes(s, t, if ok then ReplySent(a) else ReplyInDoubt(a)).(sends := s.sends[a := Count(s.sends, a) + 1])
  }

  function CompleteReplyStep(s: Sys, t: nat, reported: bool): (s': Sys)
    requires t in s.tasks && s.tasks[t].pc.ReplySent?
    ensures s'.calls == s.calls && s'.plans == s.plans && OnlyTask(s.tasks, s'.tasks, t)
    ensures s'.runs == s.runs && s'.db.effects == s.db.effects && EffectFree(s'.tasks, t)
  {
    hide OnlyTask, EffectFree, Goes, Ends;
    var a := s.tasks[t].pc.a;
    var written := FinishReply(s.db, a, Executing, Succeeded);
    Goes(s, t, if written.Some? && reported then RunningEffects else ReplyInDoubt(a)).(db := After(s.db, written))
  }

  function LoadEffectStep(s: Sys, t: nat): (s': Sys)
    requires t in s.tasks && s.tasks[t].todo != [] && s.tasks[t].todo[0] in s.db.effects
    ensures s'.calls == s.calls && s'.plans == s.plans && OnlyTask(s.tasks, s'.tasks, t) && s'.db == s.db
    ensures s'.runs == s.runs
  {
    hide OnlyTask, EffectFree, Becomes, Goes, Ends;
    var e := s.tasks[t].todo[0];
    match s.db.effects[e].state
    case Succeeded => Becomes(s, t, s.tasks[t].(todo := s.tasks[t].todo[1..], done := s.tasks[t].done + [e]))
    case Pending => Goes(s, t, EffectLoaded(e))
    case _ => Ends(s, t)
  }

  function StartEffectStep(s: Sys, t: nat): (s': Sys)
    requires t in s.tasks && s.tasks[t].pc.EffectLoaded?
    ensures s'.calls == s.calls && s'.plans == s.plans && OnlyTask(s.tasks, s'.tasks, t)
    ensures s'.runs == s.runs
  {
    hide OnlyTask, EffectFree, Goes, Ends, Answered;
    var e := s.tasks[t].pc.e;
    if MayStart(s.db, e) then Goes(s, t, EffectRunning(e)).(db := SetEffect(s.db, e, Executing), runner := s.runner[e := t])
    else Ends(s, t)
  }

  function RunStep(s: Sys, t: nat, ok: bool): (s': Sys)
    requires t in s.tasks && s.tasks[t].pc.EffectRunning?
    ensures s'.calls == s.calls && s'.plans == s.plans && OnlyTask(s.tasks, s'.tasks, t) && s'.db == s.db
  {
    hide OnlyTask, EffectFree, Goes;
    var e := s.tasks[t].pc.e;
    Goes(s, t, if ok then EffectRan(e) else EffectInDoubt(e)).(runs := s.runs[e := Count(s.runs, e) + 1])
  }

  function CompleteEffectStep(s: Sys, t: nat, reported: bool): (s': Sys)
    requires t in s.tasks && s.tasks[t].pc.EffectRan? && s.tasks[t].todo != []
    ensures s'.calls == s.calls && s'.plans == s.plans && OnlyTask(s.tasks, s'.tasks, t)
    ensures s'.runs == s.runs
  {
    hide FinishEffect, OnlyTask, EffectFree, Becomes;
    var task, e := s.tasks[t], s.tasks[t].pc.e;
    var written := FinishEffect(s.db, e, {Executing}, Succeeded);
    var next := if written.Some? && reported then Task(task.gate, task.of, RunningEffects, task.todo[1..], task.done + [e])
                else task.(pc := EffectInDoubt(e));
    Becomes(s, t, next).(db := After(s.db, written))
  }

  predicate BeginsEffect(event: Event) {
    event.SweepEffect? || event.LoadsEffect? || event.DeniesEffect? || event.StartsEffect?
  }

  /** Steps that may write a row. */
  predicate Writes(event: Event) {
    event.Arrive? || event.PlanEffect? || event.SetAside? || event.ResetTurn? || event.TrimEntry? || event.Restore?
    || event.ClaimsTurn? || event.GenerationFails? || event.CommitsPlan? || event.FailsReply? || event.StartsReply? || event.CompletesReply?
    || event.MarksReply? || event.FailsEffect? || event.StartsEffect? || event.CompletesEffect? || event.MarksEffect? || event.Restart?
  }

  function TurnStep(s: Sys, event: Event): (s': Sys)
    requires IsTurnEvent(event) && TurnEnabled(s, event)
    ensures !Writes(event) ==> s'.db == s.db
    ensures !event.CallsModel? ==> s'.calls == s.calls
    ensures !event.CommitsPlan? ==> s'.plans == s.plans
    ensures s'.runs == s.runs && OnlyAdds(s.db, s'.db)
    ensures forall u | u in s'.tasks && Current(s'.tasks[u].pc).Some? :: u in s.tasks && s.tasks[u] == s'.tasks[u]
  {
    match event
    case Arrive(i) => s.(db := s.db.(turns := s.db.turns[i := Turn(false, Unstarted, 0)]))
    case PlanEffect(e, i) => s.(db := s.db.(effects := s.db.effects[e := Effect(i, false, Pending)]))
    case SetAside(i) => s.(db := SetTurn(s.db, i, Ignored))
    case ResetTurn(i) => s.(db := SetTurn(s.db, i, Ignored))
    case TrimEntry(m) => s.(db := s.db.(history := s.db.history - {m}))
    case Invoke(t, i, a, effects) => InvokeStep(s, t, i, a, effects)
    case Restore(t) => RestoreStep(s, t)
    case ClaimsTurn(t, matches, a, effects) => ClaimStep(s, t, matches, a, effects)
    case GenerationFails(t, retryable) => Ends(s, t).(db := After(s.db, FailGeneration(s.db, s.tasks[t].pc.i, retryable)))
    case CallsModel(t) =>
      var i := s.tasks[t].pc.i; Goes(s, t, Called(i)).(calls := s.calls[i := Count(s.calls, i) + 1])
    case CommitsPlan(t, reply, effects) => CommitStep(s, t, reply, effects)
  }

  function ReplyStep(s: Sys, event: Event): (s': Sys)
    requires IsReplyEvent(event) && ReplyEnabled(s, event)
    ensures !Writes(event) ==> s'.db == s.db
    ensures s'.calls == s.calls && s'.plans == s.plans && OnlyTask(s.tasks, s'.tasks, event.t)
    ensures s'.runs == s.runs && s'.db.effects == s.db.effects && EffectFree(s'.tasks, event.t)
  {
    hide OnlyTask, EffectFree, Becomes, Goes, Ends, LoadReplyStep, StartReplyStep, SendStep, CompleteReplyStep;
    match event
    case SweepReply(t, a) => Becomes(s, t, Task(None, None, Replying(a), [], []))
    case LoadsReply(t) => LoadReplyStep(s, t)
    case DeniesReply(t) => Goes(s, t, ReplyDenied(s.tasks[t].pc.a))
    case FailsReply(t) => Ends(s, t).(db := After(s.db, FinishReply(s.db, s.tasks[t].pc.a, Pending, FailedTerminal)))
    case StartsReply(t) => StartReplyStep(s, t)
    case Sends(t, ok) => SendStep(s, t, ok)
    case CompletesReply(t, reported) => CompleteReplyStep(s, t, reported)
    case CompletionFails(t) => Goes(s, t, ReplyInDoubt(s.tasks[t].pc.a))
    case MarksReply(t) => Ends(s, t).(db := After(s.db, FinishReply(s.db, s.tasks[t].pc.a, Executing, UnknownOutcome)))
  }

  function EffectStep(s: Sys, event: Event): (s': Sys)
    requires IsEffectEvent(event) && EffectEnabled(s, event)
    ensures !Writes(event) ==> s'.db == s.db
    ensures s'.calls == s.calls && s'.plans == s.plans && OnlyTask(s.tasks, s'.tasks, event.t)
    ensures !event.Runs? ==> s'.runs == s.runs
  {
    hide OnlyTask, EffectFree, Becomes, Goes, Ends, LoadEffectStep, StartEffectStep, RunStep, CompleteEffectStep;
    match event
    case SweepEffect(t, e) => Becomes(s, t, Task(None, None, RunningEffects, [e], []))
    case LoadsEffect(t) => LoadEffectStep(s, t)
    case DeniesEffect(t) => Goes(s, t, EffectDenied(s.tasks[t].pc.e))
    case FailsEffect(t) => Ends(s, t).(db := After(s.db, FinishEffect(s.db, s.tasks[t].pc.e, {Pending, Executing}, FailedTerminal)))
    case StartsEffect(t) => StartEffectStep(s, t)
    case Runs(t, ok) => RunStep(s, t, ok)
    case Refuses(t) => Goes(s, t, EffectRefused(s.tasks[t].pc.e))
    case CompletesEffect(t, reported) => CompleteEffectStep(s, t, reported)
    case EffectCompletionFails(t) => Goes(s, t, EffectInDoubt(s.tasks[t].pc.e))
    case MarksEffect(t) => Ends(s, t).(db := After(s.db, FinishEffect(s.db, s.tasks[t].pc.e, {Executing}, UnknownOutcome)))
  }

  function Step(s: Sys, event: Event): (s': Sys)
    requires Enabled(s, event)
    ensures !Writes(event) ==> s'.db == s.db
    ensures !event.CallsModel? ==> s'.calls == s.calls
    ensures !event.CommitsPlan? ==> s'.plans == s.plans
  {
    if IsTurnEvent(event) then TurnStep(s, event)
    else if IsReplyEvent(event) then ReplyStep(s, event)
    else if IsEffectEvent(event) then EffectStep(s, event)
    else
      match event
      case Returns(t) => Ends(s, t)
      case Crash => s.(up := false, tasks := map[])
      case Restart(db) => s.(up := true, db := db)
  }

  lemma KindsDiffer(event: Event)
    ensures IsTurnEvent(event) ==> !IsReplyEvent(event) && !IsEffectEvent(event)
    ensures IsReplyEvent(event) ==> !IsEffectEvent(event)
  {
  }

  lemma TurnKind(s: Sys, event: Event)
    requires IsTurnEvent(event) && Enabled(s, event)
    ensures TurnEnabled(s, event) && Step(s, event) == TurnStep(s, event)
  {
    hide IsTurnEvent, IsReplyEvent, IsEffectEvent, TurnEnabled, TurnStep, OnlyAdds;
  }

  lemma ReplyKind(s: Sys, event: Event)
    requires IsReplyEvent(event) && Enabled(s, event)
    ensures ReplyEnabled(s, event) && Step(s, event) == ReplyStep(s, event)
  {
    hide IsTurnEvent, IsReplyEvent, IsEffectEvent, ReplyEnabled, ReplyStep, OnlyTask, EffectFree;
    KindsDiffer(event);
  }

  lemma EffectKind(s: Sys, event: Event)
    requires IsEffectEvent(event) && Enabled(s, event)
    ensures EffectEnabled(s, event) && Step(s, event) == EffectStep(s, event)
  {
    hide IsTurnEvent, IsReplyEvent, IsEffectEvent, EffectEnabled, EffectStep, OnlyTask, EffectFree;
    KindsDiffer(event);
  }

  /** A run: a state after every prefix of the events. */
  ghost predicate Run(events: seq<Event>, states: seq<Sys>) {
    && |states| == |events| + 1 && states[0] == INITIAL
    && forall k | 0 <= k < |events| :: Enabled(states[k], events[k]) && states[k + 1] == Step(states[k], events[k])
  }
}
