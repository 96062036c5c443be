// One turn, one plan: the reply and the effects a commit published are what the tables hold of
// the turn from then on, and every call that answers the turn works off exactly that.
module OutboxPlans {
  import opened Prelude
  import opened Outbox
  import opened OutboxProtocol
  import opened OutboxSafety
  import opened OutboxChanges
  import opened OutboxResults

  // ---- Listings --------------------------------------------------------------------

  lemma AscendingIsDistinct(effects: seq<EffectId>)
    requires Ascending(effects)
    ensures Distinct(effects)
  {
  }

  /** Two ascending lists of the same effects are one list. */
  lemma {:induction false} AscendingIsUnique(a: seq<EffectId>, b: seq<EffectId>)
    requires Ascending(a) && Ascending(b) && forall e :: e in a <==> e in b
    ensures a == b
    decreases |a|
  {
    if a != [] && b != [] {
      var x, y := a[|a| - 1], b[|b| - 1];
      assert x in b && y in a;
      var a', b' := a[..|a| - 1], b[..|b| - 1];
      assert a == a' + [x] && b == b' + [y];
      forall e ensures e in a' <==> e in b' {
        LastIsAlone(a, e);
        LastIsAlone(b, e);
      }
      AscendingIsUnique(a', b');
    }
    assert a != [] ==> a[0] in b;
    assert b != [] ==> b[0] in a;
  }

  lemma LastIsAlone(a: seq<EffectId>, e: EffectId)
    requires Ascending(a) && a != []
    ensures e in a[..|a| - 1] <==> e in a && e != a[|a| - 1]
  {
    if e in a && e != a[|a| - 1] {
      var k :| 0 <= k < |a| && a[k] == e;
      assert a[..|a| - 1][k] == e;
    }
  }

  /** A turn's effects can always be listed. */
  lemma ListingExists(db: Db, i: InvocationId) returns (effects: seq<EffectId>)
    ensures Lists(db, i, effects)
  {
    effects := SetListing(set e | e in db.effects && OfModel(db, i, e));
  }

  lemma {:induction false} SetListing(s: set<EffectId>) returns (effects: seq<EffectId>)
    ensures Ascending(effects) && forall e :: e in effects <==> e in s
    decreases |s|
  {
    if s == {} {
      effects := [];
    } else {
      var m := Largest(s);
      var rest := SetListing(s - {m});
      effects := rest + [m];
      forall j, k | 0 <= j < k < |effects| ensures effects[j] < effects[k] {
        assert effects[j] == rest[j] && rest[j] in s - {m};
      }
    }
  }

  lemma {:induction false} Largest(s: set<EffectId>) returns (m: EffectId)
    requires s != {}
    ensures m in s && forall e | e in s :: e <= m
    decreases |s|
  {
    m :| m in s;
    assert forall e | e in s && e != m :: e in s - {m};
    if s - {m} != {} {
      var n := Largest(s - {m});
      if m < n {
        m := n;
      }
    }
  }

  // ---- The plan and the tables ----------------------------------------------------------

  /** The tables hold this plan of turn i: its reply and no other, its effects and no others. */
  ghost predicate Holds(db: Db, i: InvocationId, plan: Plan) {
    && i in db.turns && Distinct(plan.effects) && (forall e :: e in plan.effects <==> OfModel(db, i, e))
    && match plan.reply
       case None => plan.effects != [] && db.turns[i].state == TurnSucceeded && !HasReply(db, i)
       case Some(Reply(a, m)) => ReplyRow(db, i, a) && db.actions[a].response == m
  }

  ghost predicate PlansOk(s: Sys) {
    && (forall i | i in s.plans :: Holds(s.db, i, s.plans[i]))
    && (forall i | i in s.db.turns && HasPlan(s.db, i) :: i in s.plans)
    && (forall a | a in s.db.actions :: s.db.actions[a].invocation in s.plans)
    && (forall i, e | OfModel(s.db, i, e) :: i in s.plans)
  }

  /** A turn answered by effects alone. */
  predicate ByEffects(db: Db, i: InvocationId) {
    i in db.turns && db.turns[i].state == TurnSucceeded && !HasReply(db, i)
  }

  /** No plan comes, goes or changes. */
  ghost predicate KeepsPlans(db: Db, db': Db) {
    && (forall i, a :: ReplyRow(db', i, a) <==> ReplyRow(db, i, a))
    && (forall a | a in db.actions && a in db'.actions :: db'.actions[a].response == db.actions[a].response)
    && (forall i, e :: OfModel(db', i, e) <==> OfModel(db, i, e))
    && (forall i :: ByEffects(db', i) <==> ByEffects(db, i))
    && (forall i | i in db.turns :: i in db'.turns)
  }

  lemma SameReplyRows(db: Db, db': Db, i: InvocationId)
    requires forall a :: ReplyRow(db', i, a) <==> ReplyRow(db, i, a)
    ensures HasReply(db', i) <==> HasReply(db, i)
  {
    if a :| a in db.actions && ReplyRow(db, i, a) {
      assert a in db'.actions && ReplyRow(db', i, a);
    }
    if a :| a in db'.actions && ReplyRow(db', i, a) {
      assert a in db.actions && ReplyRow(db, i, a);
    }
  }

  lemma StillHolds(db: Db, db': Db, i: InvocationId, plan: Plan)
    requires KeepsPlans(db, db') && Holds(db, i, plan)
    ensures Holds(db', i, plan)
  {
    if plan.reply.Some? {
      assert ReplyRow(db', i, plan.reply.value.action) <==> ReplyRow(db, i, plan.reply.value.action);
    } else {
      assert ByEffects(db, i);
    }
    hide HasReply, Distinct;
  }

  lemma PlansStayOk(s: Sys, s': Sys)
    requires PlansOk(s) && KeepsPlans(s.db, s'.db) && s'.plans == s.plans
    ensures PlansOk(s')
  {
    hide Holds;
    forall i | i in s.plans ensures Holds(s'.db, i, s.plans[i]) {
      StillHolds(s.db, s'.db, i, s.plans[i]);
    }
    forall a | a in s'.db.actions ensures s'.db.actions[a].invocation in s'.plans {
      assert ReplyRow(s'.db, s'.db.actions[a].invocation, a);
    }
    forall i | i in s'.db.turns && HasPlan(s'.db, i) ensures i in s'.plans {
      SameReplyRows(s.db, s'.db, i);
      KnownPlan(s, i);
      assert ByEffects(s'.db, i) <==> ByEffects(s.db, i);
    }
  }

  lemma KnownPlan(s: Sys, i: InvocationId)
    requires PlansOk(s)
    ensures HasReply(s.db, i) ==> i in s.plans
    ensures ByEffects(s.db, i) ==> i in s.plans
  {
    if a :| a in s.db.actions && ReplyRow(s.db, i, a) {
      assert s.db.actions[a].invocation in s.plans;
    }
  }

  // ---- Changes that keep the plans ---------------------------------------------------------

  lemma MovedKeepsPlans(db: Db, db': Db, a: ActionId, to: RowState)
    requires ReplyMoves(db, db', a, to)
    ensures KeepsPlans(db, db')
  {
    var j := db.actions[a].invocation;
    assert ReplyRow(db, j, a) && a in db.actions;
    assert HasReply(db, j);
    forall i ensures ByEffects(db', i) <==> ByEffects(db, i) {
      MovedReplies(db, db', a, to, i);
    }
    forall i, b ensures ReplyRow(db', i, b) <==> ReplyRow(db, i, b) {
      MovedReplies(db, db', a, to, i);
    }
  }

  lemma EffectKeepsPlans(db: Db, e: EffectId, state: RowState)
    requires e in db.effects
    ensures KeepsPlans(db, SetEffect(db, e, state))
  {
    var db' := SetEffect(db, e, state);
    forall i ensures ByEffects(db', i) <==> ByEffects(db, i) {
      SameReplyRows(db, db', i);
    }
  }

  lemma TurnKeepsPlans(db: Db, db': Db, i: InvocationId, turn: Turn)
    requires DbOk(db) && TurnMoves(db, db', i, turn)
    ensures KeepsPlans(db, db')
  {
    TurnIsOk(db, i);
    hide DbOk;
    forall j ensures ByEffects(db', j) <==> ByEffects(db, j) {
      SameReplyRows(db, db', j);
    }
  }

  lemma ApartKeepsPlans(db: Db, db': Db)
    requires db' == db.(history := db'.history) || AddsApart(db, db')
    ensures KeepsPlans(db, db')
  {
    forall i ensures ByEffects(db', i) <==> ByEffects(db, i) {
      SameReplyRows(db, db', i);
    }
  }

  lemma ResolvedKeepsPlans(db: Db, db': Db)
    requires DbOk(db) && Resolves(db, db')
    ensures KeepsPlans(db, db')
  {
    ResolvedKeys(db, db');
    ResolvedReplyRows(db, db');
    hide DbOk, Resolves, ByEffects, HasReply, ReplyRow;
    forall i, e ensures OfModel(db', i, e) <==> OfModel(db, i, e) {
      ResolvedEffect(db, db', e);
    }
    forall i ensures ByEffects(db', i) <==> ByEffects(db, i) {
      SameReplyRows(db, db', i);
      ResolvedByEffects(db, db', i);
    }
  }

  lemma ResolvedEffect(db: Db, db': Db, e: EffectId)
    requires Resolves(db, db')
    ensures e in db'.effects <==> e in db.effects
    ensures e in db.effects ==> db'.effects[e].model == db.effects[e].model && db'.effects[e].invocation == db.effects[e].invocation
  {
    hide ResolvesReplies;
  }

  lemma ResolvedActions(db: Db, db': Db)
    requires DbOk(db) && Resolves(db, db')
    ensures forall a | a in db.actions :: a in db'.actions && db'.actions[a].invocation == db.actions[a].invocation && db'.actions[a].response == db.actions[a].response
  {
    hide DbOk, TurnsResolved, HistoryResolved;
  }

  lemma ResolvedReplyRows(db: Db, db': Db)
    requires DbOk(db) && Resolves(db, db')
    ensures forall i, a :: ReplyRow(db', i, a) <==> ReplyRow(db, i, a)
    ensures forall a | a in db.actions :: a in db'.actions && db'.actions[a].response == db.actions[a].response
  {
    ResolvedKeys(db, db');
    ResolvedActions(db, db');
    hide DbOk, Resolves;
    forall i, a ensures ReplyRow(db', i, a) <==> ReplyRow(db, i, a) {
      assert a in db'.actions <==> a in db.actions;
    }
  }

  lemma ResolvedByEffects(db: Db, db': Db, i: InvocationId)
    requires Resolves(db, db') && (HasReply(db', i) <==> HasReply(db, i))
    ensures ByEffects(db', i) <==> ByEffects(db, i)
  {
    hide HistoryResolved;
    if TurnCut(db, db.actions.Keys, i) {
      assert HasReply(db, i);
    }
  }

  lemma ChangeKeepsPlans(db: Db, db': Db, change: Change)
    requires DbOk(db) && Changes(db, db', change) && !change.PlanOf?
    ensures KeepsPlans(db, db')
  {
    hide DbOk, KeepsPlans, ReplyMoves, TurnMoves, Resolves;
    match change
    case ReplyTo(a, to) => MovedKeepsPlans(db, db', a, to);
    case EffectTo(e, state) => EffectKeepsPlans(db, e, state);
    case TurnTo(i, turn) => TurnKeepsPlans(db, db', i, turn);
    case EntryOf(_) => ApartKeepsPlans(db, db');
    case Apart => ApartKeepsPlans(db, db');
    case Startup => ResolvedKeepsPlans(db, db');
  }

  // ---- The change that adds one ---------------------------------------------------------------

  lemma PublishedHolds(db: Db, db': Db, i: InvocationId, plan: Plan)
    requires Publishes(db, db', i, plan.reply, plan.effects) && forall e :: !OfModel(db, i, e)
    ensures Holds(db', i, plan)
  {
    PublishShape(db, db', i, plan.reply, plan.effects);
    assert plan.reply == None ==> plan.effects != [];
    hide Publishes;
    forall e ensures e in plan.effects <==> OfModel(db', i, e) {
      assert !OfModel(db, i, e);
    }
    SameReplyRowsIfNone(db, db', i, plan.reply);
  }

  lemma SameReplyRowsIfNone(db: Db, db': Db, i: InvocationId, reply: Option<Reply>)
    requires db'.actions == if reply.Some? then db.actions[reply.value.action := Action(i, reply.value.response, Pending)] else db.actions
    ensures reply.None? ==> (HasReply(db', i) <==> HasReply(db, i))
  {
    if reply.None? {
      assert forall a :: ReplyRow(db', i, a) <==> ReplyRow(db, i, a);
      SameReplyRows(db, db', i);
    }
  }

  lemma PublishedElsewhere(db: Db, db': Db, i: InvocationId, plan: Plan, j: InvocationId, other: Plan)
    requires Publishes(db, db', i, plan.reply, plan.effects) && j != i && Holds(db, j, other)
    ensures Holds(db', j, other)
  {
    PublishShape(db, db', i, plan.reply, plan.effects);
    PublishedReplies(db, db', i, plan.reply, plan.effects, j);
    hide Publishes, HasReply, HasPlan;
    forall e ensures OfModel(db', j, e) <==> OfModel(db, j, e) {
    }
  }

  lemma PlanAdded(s: Sys, s': Sys, i: InvocationId, plan: Plan)
    requires PlansOk(s) && i !in s.plans && Publishes(s.db, s'.db, i, plan.reply, plan.effects) && s'.plans == s.plans[i := plan]
    ensures PlansOk(s')
  {
    PublishedHolds(s.db, s'.db, i, plan);
    PublishShape(s.db, s'.db, i, plan.reply, plan.effects);
    hide Publishes, Holds, Unused;
    forall j | j in s'.plans ensures Holds(s'.db, j, s'.plans[j]) {
      if j != i {
        PublishedElsewhere(s.db, s'.db, i, plan, j, s.plans[j]);
      }
    }
    forall j | j in s'.db.turns && HasPlan(s'.db, j) ensures j in s'.plans {
      if j != i {
        PublishedReplies(s.db, s'.db, i, plan.reply, plan.effects, j);
      }
    }
    forall j, e | OfModel(s'.db, j, e) ensures j in s'.plans {
      assert j != i ==> OfModel(s.db, j, e);
    }
  }

  lemma PlanIsNew(s: Sys, t: nat, i: InvocationId)
    requires Inv(s) && PlansOk(s) && t in s.tasks && s.tasks[t].pc == Called(i)
    ensures i !in s.plans
  {
    hide Inv, DbOk, CountsOk;
    TaskIsOk(s, t);
    if i in s.plans {
      PlanIsHeld(s, i);
    }
  }

  lemma PlanIsHeld(s: Sys, i: InvocationId)
    requires PlansOk(s) && i in s.plans
    ensures i in s.db.turns && HasPlan(s.db, i)
  {
    assert Holds(s.db, i, s.plans[i]);
    if s.plans[i].reply.Some? {
      assert s.plans[i].reply.value.action in s.db.actions && ReplyRow(s.db, i, s.plans[i].reply.value.action);
    }
  }

  lemma StepKeepsPlans(s: Sys, event: Event)
    requires Inv(s) && PlansOk(s) && Enabled(s, event)
    ensures PlansOk(Step(s, event)) && forall i | i in s.plans :: i in Step(s, event).plans && Step(s, event).plans[i] == s.plans[i]
  {
    hide Inv, DbOk, Enabled, Step, Changes, PlansOk, KeepsPlans;
    var s' := Step(s, event);
    var change := StepChanges(s, event);
    TablesOk(s);
    if change.PlanOf? {
      PlanIsNew(s, event.t, change.i);
      PlanPublishes(s.db, s'.db, change);
      PlanAdded(s, s', change.i, change.plan);
    } else {
      ChangeKeepsPlans(s.db, s'.db, change);
      PlansStayOk(s, s');
    }
  }

  lemma PlanPublishes(db: Db, db': Db, change: Change)
    requires change.PlanOf? && Changes(db, db', change)
    ensures Publishes(db, db', change.i, change.plan.reply, change.plan.effects)
  {
    hide Publishes;
  }

  // ---- Calls and their plan ---------------------------------------------------------------------

  /** The call has no plan yet. */
  predicate Asks(pc: Pc) {
    pc.Claiming? || pc.Preparing? || pc.Called?
  }

  /** The list is the plan's, in the order of the commit or by identifier. */
  ghost predicate FromPlan(effects: seq<EffectId>, list: seq<EffectId>) {
    list == effects || (Ascending(list) && forall e :: e in list <==> e in effects)
  }

  /** A call is at its plan's reply, or past it. */
  ghost predicate Paced(db: Db, reply: Option<Reply>, pc: Pc) {
    match AtReply(pc)
    case Some(a) => reply.Some? && reply.value.action == a
    case None => reply.Some? ==> Delivered(db, reply.value.action)
  }

  /** A call that answers a turn works off the turn's plan. */
  ghost predicate WorksOff(s: Sys, task: Task) {
    task.of.Some? ==>
      var i := task.of.value;
      if Asks(task.pc) then task.pc.i == i
      else i in s.plans && FromPlan(s.plans[i].effects, task.done + task.todo) && Paced(s.db, s.plans[i].reply, task.pc)
  }

  ghost predicate PlansGrow(s: Sys, s': Sys) {
    Lasts(s.db, s'.db) && forall i | i in s.plans :: i in s'.plans && s'.plans[i] == s.plans[i]
  }

  lemma StillDelivered(db: Db, db': Db, a: ActionId)
    requires Lasts(db, db') && Delivered(db, a)
    ensures Delivered(db', a)
  {
  }

  lemma StillWorksOff(s: Sys, s': Sys, task: Task)
    requires PlansGrow(s, s') && WorksOff(s, task)
    ensures WorksOff(s', task)
  {
    hide Lasts, FromPlan, Delivered;
    if task.of.Some? && !Asks(task.pc) {
      var reply := s.plans[task.of.value].reply;
      if AtReply(task.pc) == None && reply.Some? {
        StillDelivered(s.db, s'.db, reply.value.action);
      }
    }
  }

  lemma AdvancedWorksOff(s: Sys, s': Sys, t: nat)
    requires t in s.tasks && t in s'.tasks && PlansGrow(s, s') && WorksOff(s, s.tasks[t]) && !Asks(s.tasks[t].pc)
    requires Advances(s'.db, s.tasks[t].pc, s'.tasks[t].pc) && KeepsList(s.tasks[t], s'.tasks[t])
    ensures WorksOff(s', s'.tasks[t])
  {
    StillWorksOff(s, s', s.tasks[t]);
    hide PlansGrow, FromPlan, Delivered;
  }

  lemma InvokedWorksOff(s: Sys, i: InvocationId, a: ActionId, effects: seq<EffectId>)
    requires Linked(s.db) && PlansOk(s) && Lists(s.db, i, effects) && (HasReply(s.db, i) ==> ReplyRow(s.db, i, a)) && Looked(s.db, i, a, effects).Some?
    ensures WorksOff(s, Looked(s.db, i, a, effects).value)
  {
    var task := Looked(s.db, i, a, effects).value;
    if !Asks(task.pc) {
      assert HasPlan(s.db, i);
      assert Holds(s.db, i, s.plans[i]);
      assert task.done + task.todo == effects;
      ReplyOfPlan(s.db, i, s.plans[i], a);
      hide PlansOk, Linked, HasReply, Holds;
    }
  }

  lemma ReplyOfPlan(db: Db, i: InvocationId, plan: Plan, a: ActionId)
    requires Linked(db) && Holds(db, i, plan)
    ensures plan.reply.Some? <==> HasReply(db, i)
    ensures ReplyRow(db, i, a) ==> plan.reply.Some? && plan.reply.value.action == a
    ensures forall e :: e in plan.effects <==> OfModel(db, i, e)
  {
    if plan.reply.Some? {
      assert plan.reply.value.action in db.actions && ReplyRow(db, i, plan.reply.value.action);
    }
  }

  lemma CommittedWorksOff(s: Sys, t: nat, reply: Option<Reply>, effects: seq<EffectId>)
    requires t in s.tasks && s.tasks[t].pc.Called? && WorksOff(s, s.tasks[t])
    ensures var s' := CommitStep(s, t, reply, effects); t in s'.tasks ==> WorksOff(s', s'.tasks[t])
  {
    hide CommitPlan, OnlyTask, OnlyAdds, EffectFree;
  }

  lemma ClaimedWorksOff(s: Sys, t: nat, matches: bool, a: ActionId, effects: seq<EffectId>)
    requires Inv(s) && At(s, t) && s.tasks[t].pc.Claiming? && WorksOff(s, s.tasks[t])
    ensures var s' := ClaimStep(s, t, matches, a, effects); t in s'.tasks ==> WorksOff(s', s'.tasks[t])
  {
    hide Inv, DbOk, ClaimTurn, TurnMoves, HasPlan, OnlyTask, EffectFree, Lists;
    TaskIsOk(s, t);
    TablesOk(s);
    ClaimMoves(s.db, s.tasks[t].pc.i, matches);
    hide CountsOk, TaskOk, PcOk;
  }

  lemma AskedWorksOff(s: Sys, t: nat)
    requires t in s.tasks && s.tasks[t].pc.Preparing? && WorksOff(s, s.tasks[t])
    ensures var s' := Goes(s, t, Called(s.tasks[t].pc.i)); t in s'.tasks && forall calls :: WorksOff(s'.(calls := calls), s'.tasks[t])
  {
    hide OnlyTask;
  }

  lemma RestoredWorksOff(s: Sys, t: nat)
    requires t in s.tasks && WorksOff(s, s.tasks[t]) && TurnEnabled(s, Restore(t)) && PlansGrow(s, RestoreStep(s, t))
    ensures t in RestoreStep(s, t).tasks && WorksOff(RestoreStep(s, t), RestoreStep(s, t).tasks[t])
  {
    hide WorksOff, PlansGrow, OnlyTask, EffectFree;
    AdvancedWorksOff(s, RestoreStep(s, t), t);
  }

  lemma PlannedWorksOff(s: Sys, event: Event)
    requires (event.Restore? || event.CommitsPlan?) && event.t in s.tasks && WorksOff(s, s.tasks[event.t]) && TurnEnabled(s, event)
    requires PlansGrow(s, TurnStep(s, event))
    ensures var s' := TurnStep(s, event); event.t in s'.tasks ==> WorksOff(s', s'.tasks[event.t])
  {
    hide WorksOff, OnlyTask, OnlyAdds, EffectFree, PlansGrow, RestoreStep, CommitStep, HasReply;
    match event
    case Restore(t) => RestoredWorksOff(s, t);
    case CommitsPlan(t, reply, effects) => CommittedWorksOff(s, t, reply, effects);
  }

  lemma AskingWorksOff(s: Sys, event: Event)
    requires (event.ClaimsTurn? || event.GenerationFails? || event.CallsModel?) && event.t in s.tasks && WorksOff(s, s.tasks[event.t])
    requires Inv(s) && TurnEnabled(s, event)
    ensures var s' := TurnStep(s, event); event.t in s'.tasks ==> WorksOff(s', s'.tasks[event.t])
  {
    hide Inv, WorksOff, OnlyTask, OnlyAdds, EffectFree, FailGeneration, ClaimStep, Lists, HasReply, Goes, After;
    match event
    case ClaimsTurn(t, matches, a, effects) => ClaimedWorksOff(s, t, matches, a, effects);
    case GenerationFails(t, _) =>
    case CallsModel(t) => AskedWorksOff(s, t);
  }

  lemma CallWorksOff(s: Sys, event: Event)
    requires IsCallEvent(event) && event.t in s.tasks && WorksOff(s, s.tasks[event.t]) && Inv(s) && TurnEnabled(s, event)
    requires PlansGrow(s, TurnStep(s, event))
    ensures var s' := TurnStep(s, event); event.t in s'.tasks ==> WorksOff(s', s'.tasks[event.t])
  {
    hide Inv, TurnEnabled, TurnStep, WorksOff, PlansGrow;
    if event.Restore? || event.CommitsPlan? {
      PlannedWorksOff(s, event);
    } else {
      AskingWorksOff(s, event);
    }
  }

  lemma OutsideWorksOff(s: Sys, event: Event, u: nat)
    requires IsTurnEvent(event) && !IsCallEvent(event) && Inv(s) && PlansOk(s) && TurnEnabled(s, event)
    requires u in TurnStep(s, event).tasks && u !in s.tasks
    ensures WorksOff(TurnStep(s, event), TurnStep(s, event).tasks[u])
  {
    assert event.Invoke? && event.t == u;
    TablesOk(s);
    RowsLinked(s.db);
    hide Inv, DbOk, CountsOk, PlansOk, WorksOff, Linked, Lists, HasReply, Looked, OnlyAdds, OnlyTask, EffectFree;
    var Invoke(t, i, a, effects) := event;
    InvokedWorksOff(s, i, a, effects);
    SamePlansWorkOff(s, TurnStep(s, event), Looked(s.db, i, a, effects).value);
  }

  lemma SamePlansWorkOff(s: Sys, s': Sys, task: Task)
    requires WorksOff(s, task) && s'.db == s.db && s'.plans == s.plans
    ensures WorksOff(s', task)
  {
  }

  lemma OutsideStays(s: Sys, event: Event, u: nat)
    requires IsTurnEvent(event) && !IsCallEvent(event) && TurnEnabled(s, event) && u in s.tasks
    ensures u in TurnStep(s, event).tasks && TurnStep(s, event).tasks[u] == s.tasks[u]
  {
    hide Looked, OnlyAdds, Lists, HasReply;
  }

  lemma SystemStays(s: Sys, event: Event, u: nat)
    requires !IsTurnEvent(event) && !IsDispatch(event) && Enabled(s, event) && u in Step(s, event).tasks
    ensures u in s.tasks && Step(s, event).tasks[u] == s.tasks[u]
  {
  }

  lemma DispatchIsLate(s: Sys, event: Event)
    requires IsDispatch(event) && event.t in s.tasks && Enabled(s, event)
    ensures !Asks(s.tasks[event.t].pc)
  {
    hide Step, ReplyStep, EffectStep, OnlyTask, EffectFree;
    if IsReplyEvent(event) {
      ReplyKind(s, event);
    } else {
      EffectKind(s, event);
    }
    hide Enabled;
  }

  lemma DispatchWorksOff(s: Sys, event: Event, u: nat)
    requires IsDispatch(event) && Enabled(s, event) && u in Step(s, event).tasks && PlansGrow(s, Step(s, event))
    requires u in s.tasks ==> WorksOff(s, s.tasks[u]) && InOrder(s.tasks[u])
    ensures WorksOff(Step(s, event), Step(s, event).tasks[u])
  {
    hide Enabled, Step, WorksOff, PlansGrow, InOrder, Advances, Early;
    var s' := Step(s, event);
    DispatchAdvances(s, event);
    DispatchMoves(s, event);
    if u != event.t {
      StillWorksOff(s, s', s.tasks[u]);
    } else if u in s.tasks {
      DispatchIsLate(s, event);
      StepOrder(s, event, u);
      AdvancedWorksOff(s, s', u);
    } else {
      SweepsWorkOff(s', s'.tasks[u]);
    }
  }

  lemma SweepsWorkOff(s: Sys, task: Task)
    requires task.of == None
    ensures WorksOff(s, task)
  {
  }

  lemma TurnWorksOff(s: Sys, event: Event, u: nat)
    requires IsTurnEvent(event) && Inv(s) && PlansOk(s) && TurnEnabled(s, event) && u in TurnStep(s, event).tasks && PlansGrow(s, TurnStep(s, event))
    requires u in s.tasks ==> WorksOff(s, s.tasks[u])
    ensures WorksOff(TurnStep(s, event), TurnStep(s, event).tasks[u])
  {
    hide Inv, PlansOk, TurnEnabled, TurnStep, WorksOff, PlansGrow, OrderKept;
    var s' := TurnStep(s, event);
    if IsCallEvent(event) {
      CallerIsThere(s, event);
      CallOrder(s, event);
      if u == event.t {
        CallWorksOff(s, event);
      } else {
        StillWorksOff(s, s', s.tasks[u]);
      }
    } else if u in s.tasks {
      OutsideStays(s, event, u);
      StillWorksOff(s, s', s.tasks[u]);
    } else {
      OutsideWorksOff(s, event, u);
    }
  }

  lemma CallerIsThere(s: Sys, event: Event)
    requires IsCallEvent(event) && TurnEnabled(s, event)
    ensures event.t in s.tasks
  {
  }

  lemma StepWorksOff(s: Sys, event: Event, u: nat)
    requires Inv(s) && PlansOk(s) && Enabled(s, event) && u in Step(s, event).tasks && PlansGrow(s, Step(s, event))
    requires u in s.tasks ==> WorksOff(s, s.tasks[u]) && InOrder(s.tasks[u])
    ensures WorksOff(Step(s, event), Step(s, event).tasks[u])
  {
    hide Inv, PlansOk, Enabled, Step, TurnEnabled, TurnStep, WorksOff, PlansGrow, InOrder;
    if IsTurnEvent(event) {
      TurnKind(s, event);
      TurnWorksOff(s, event, u);
    } else if IsDispatch(event) {
      DispatchWorksOff(s, event, u);
    } else {
      SystemStays(s, event, u);
      StillWorksOff(s, Step(s, event), s.tasks[u]);
    }
  }

  /** Every call that answers a turn works off the turn's plan. */
  ghost predicate PlanInv(s: Sys) {
    PlansOk(s) && forall t | t in s.tasks :: InOrder(s.tasks[t]) && WorksOff(s, s.tasks[t])
  }

  lemma StepKeepsPlanInv(s: Sys, event: Event)
    requires Inv(s) && PlanInv(s) && Enabled(s, event)
    ensures PlanInv(Step(s, event))
  {
    hide Inv, PlansOk, Enabled, Step, WorksOff, InOrder, Lasts;
    var s' := Step(s, event);
    StepKeepsPlans(s, event);
    StepLasts(s, event);
    forall u | u in s'.tasks ensures InOrder(s'.tasks[u]) && WorksOff(s', s'.tasks[u]) {
      StepOrder(s, event, u);
      StepWorksOff(s, event, u);
    }
  }

  lemma {:induction false} RunKeepsPlanInv(events: seq<Event>, states: seq<Sys>, k: nat)
    requires Run(events, states) && k < |states|
    ensures PlanInv(states[k])
  {
    if k == 0 {
      NoPlansYet();
      hide PlanInv, Enabled, Step;
    } else {
      hide Run, Inv, PlanInv, Enabled, Step;
      StepOfRun(events, states, k - 1);
      RunKeepsPlanInv(events, states, k - 1);
      RunKeepsInv(events, states, k - 1);
      StepKeepsPlanInv(states[k - 1], events[k - 1]);
    }
  }

  lemma NoPlansYet()
    ensures PlanInv(INITIAL)
  {
  }

  lemma PlanGrowsAt(events: seq<Event>, states: seq<Sys>, k: nat, i: InvocationId)
    requires Run(events, states) && k < |events| && i in states[k].plans
    ensures k + 1 < |states| && i in states[k + 1].plans && states[k + 1].plans[i] == states[k].plans[i]
  {
    hide Run, Inv, PlansOk, WorksOff, Enabled, Step;
    StepOfRun(events, states, k);
    RunKeepsInv(events, states, k);
    RunKeepsPlanInv(events, states, k);
    StepKeepsPlans(states[k], events[k]);
  }

  // ---- What runs promise --------------------------------------------------------------------------

  lemma {:induction false} RunPlansGrow(events: seq<Event>, states: seq<Sys>, j: nat, k: nat, i: InvocationId)
    requires Run(events, states) && j <= k < |states| && i in states[j].plans
    ensures i in states[k].plans && states[k].plans[i] == states[j].plans[i]
  {
    hide Enabled, Step;
    if j < k {
      hide Run;
      RunPlansGrow(events, states, j, k - 1, i);
      PlanGrowsAt(events, states, k - 1, i);
    }
  }

  /** A turn gets one plan, and the tables hold exactly that plan ever after: the same reply and
      no other, the same effects and no others, each of them once. */
  lemma PlansAreWrittenOnce(events: seq<Event>, states: seq<Sys>, j: nat, k: nat, i: InvocationId)
    requires Run(events, states) && j <= k < |states|
    requires i in states[j].db.turns && HasPlan(states[j].db, i)
    ensures i in states[j].plans && i in states[k].plans && states[k].plans[i] == states[j].plans[i]
    ensures var plan := states[j].plans[i];
            && Holds(states[j].db, i, plan) && Holds(states[k].db, i, plan)
            && forall b :: ReplyRow(states[k].db, i, b) <==> plan.reply.Some? && b == plan.reply.value.action
  {
    hide DbOk, CountsOk, Enabled, Step, Holds;
    RunKeepsPlanInv(events, states, j);
    RunKeepsPlanInv(events, states, k);
    RunPlansGrow(events, states, j, k, i);
    RunKeepsInv(events, states, k);
    RowsLinked(states[k].db);
    forall b ensures ReplyRow(states[k].db, i, b) <==> states[k].plans[i].reply.Some? && b == states[k].plans[i].reply.value.action {
      ReplyOfPlan(states[k].db, i, states[k].plans[i], b);
      ReplyIsHeld(states[k].db, i, states[k].plans[i]);
    }
  }

  lemma ReplyIsHeld(db: Db, i: InvocationId, plan: Plan)
    requires Holds(db, i, plan)
    ensures plan.reply.Some? ==> ReplyRow(db, i, plan.reply.value.action)
  {
  }

  /** A call that answers a turn and has its plan dispatches the whole plan and nothing else: what
      it did and what it has to do are the effects of the plan, each once, in the order of the
      commit, unless a replay lists identifiers that were not drawn in ascending order. At the
      effects the plan's reply, if it has one, has been sent. */
  lemma CallsWorkOffThePlan(events: seq<Event>, states: seq<Sys>, k: nat, t: nat, i: InvocationId)
    requires Run(events, states) && k < |states| && t in states[k].tasks
    requires states[k].tasks[t].of == Some(i) && !Asks(states[k].tasks[t].pc)
    ensures i in states[k].plans && Holds(states[k].db, i, states[k].plans[i])
    ensures var s, task := states[k], states[k].tasks[t];
            var plan, list := s.plans[i], task.done + task.todo;
            && Distinct(list) && (forall e :: e in list <==> OfModel(s.db, i, e))
            && (list == plan.effects || Ascending(list))
            && (Ascending(plan.effects) ==> list == plan.effects)
            && (AtReply(task.pc).Some? ==> plan.reply.Some? && plan.reply.value.action == AtReply(task.pc).value)
            && (AtReply(task.pc).None? && plan.reply.Some? ==> Delivered(s.db, plan.reply.value.action))
  {
    RunKeepsPlanInv(events, states, k);
    var s, task := states[k], states[k].tasks[t];
    hide Enabled, Step, PlansOk;
    PlanIsHolding(s, i);
    var list := task.done + task.todo;
    if Ascending(list) {
      AscendingIsDistinct(list);
      if Ascending(s.plans[i].effects) {
        AscendingIsUnique(list, s.plans[i].effects);
      }
    }
  }

  lemma PlanIsHolding(s: Sys, i: InvocationId)
    requires PlansOk(s) && i in s.plans
    ensures Holds(s.db, i, s.plans[i])
  {
  }

  /** A replay lists the plan in the order it was committed in exactly when the identifiers were
      drawn in ascending order. */
  lemma ReplayKeepsOrder(events: seq<Event>, states: seq<Sys>, k: nat, i: InvocationId, effects: seq<EffectId>)
    requires Run(events, states) && k < |states| && i in states[k].plans && Lists(states[k].db, i, effects)
    ensures effects == states[k].plans[i].effects <==> Ascending(states[k].plans[i].effects)
  {
    RunKeepsPlanInv(events, states, k);
    hide Enabled, Step;
    assert Holds(states[k].db, i, states[k].plans[i]);
    if Ascending(states[k].plans[i].effects) {
      AscendingIsUnique(effects, states[k].plans[i].effects);
    }
  }
}
