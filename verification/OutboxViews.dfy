// How the turn, the reply and the history entry agree. The turn always says what the reply says.
// The history entry may stop doing so: retention removes settled entries without the chat's
// gate, and a call that read the reply before it was settled puts the entry back as unsent.
module OutboxViews {
  import opened Prelude
  import opened Outbox
  import opened OutboxProtocol
  import opened OutboxSafety
  import opened OutboxChanges
  import opened OutboxResults
  import opened OutboxPlans
  import D = OutboxDenials

  /** The history, where it has the entry of reply a, says what became of it. */
  ghost predicate Agrees(db: Db, a: ActionId)
    requires a in db.actions
  {
    var row := db.actions[a];
    row.response in db.history ==> db.history[row.response].delivery == DeliveryOf(row.state)
  }

  /** Call t is about to restore the entry of reply a with a delivery that is not the reply's any more. */
  ghost predicate Outdated(s: Sys, t: nat, a: ActionId) {
    && a in s.db.actions && t in s.tasks && s.tasks[t].pc.Restoring? && s.tasks[t].pc.a == a
    && s.tasks[t].pc.delivery != DeliveryOf(s.db.actions[a].state)
  }

  /** The entry of reply a is put back with an outdated delivery. */
  ghost predicate RestoresLate(s: Sys, event: Event, a: ActionId) {
    event.Restore? && Outdated(s, event.t, a) && s.db.actions[a].response !in s.db.history
  }

  /** The entry of reply a is removed under a call that is about to restore it from an older reading. */
  ghost predicate TrimsUnder(s: Sys, event: Event, a: ActionId) {
    event.TrimEntry? && a in s.db.actions && event.m == s.db.actions[a].response && exists t :: Outdated(s, t, a)
  }

  // ---- What a change does to the agreement ------------------------------------------------

  lemma SameAgreement(db: Db, db': Db, a: ActionId)
    requires a in db.actions && a in db'.actions && db'.actions[a] == db.actions[a]
    requires var m := db.actions[a].response;
             (m in db'.history <==> m in db.history) && (m in db.history ==> db'.history[m].delivery == db.history[m].delivery)
    ensures Agrees(db', a) <==> Agrees(db, a)
  {
  }

  lemma UnsettledAgrees(db: Db, a: ActionId)
    requires a in db.actions && ViewsOk(db, a) && !Final(db.actions[a].state)
    ensures Agrees(db, a)
  {
  }

  lemma MovedAgreement(db: Db, db': Db, b: ActionId, to: RowState, a: ActionId)
    requires a in db.actions && Linked(db) && ReplyMoves(db, db', b, to) && ViewsOk(db, a)
    ensures a in db'.actions && (Agrees(db', a) <==> Agrees(db, a))
  {
    if a != b {
      SameAgreement(db, db', a);
    } else {
      UnsettledAgrees(db, a);
    }
  }

  lemma PublishedAgreement(db: Db, db': Db, i: InvocationId, plan: Plan, a: ActionId)
    requires a in db.actions && Publishes(db, db', i, plan.reply, plan.effects)
    ensures a in db'.actions && (Agrees(db', a) <==> Agrees(db, a))
  {
    PublishShape(db, db', i, plan.reply, plan.effects);
    hide Publishes, Agrees;
    SameAgreement(db, db', a);
  }

  lemma ResolvedAgreement(db: Db, db': Db, a: ActionId)
    requires a in db.actions && Linked(db) && Resolves(db, db') && ViewsOk(db, a)
    ensures a in db'.actions && (Agrees(db', a) <==> Agrees(db, a))
  {
    ResolvedRow(db, db', a);
    if Interrupted(db, a) {
      UnsettledAgrees(db, a);
      assert a in db.actions.Keys && Interrupted(db, a) && db.actions[a].response == db.actions[a].response;
      assert EntryCut(db, db.actions.Keys, db.actions[a].response);
    } else {
      assert !EntryCut(db, db.actions.Keys, db.actions[a].response);
      SameAgreement(db, db', a);
    }
  }

  lemma ChangeAgrees(db: Db, db': Db, change: Change, a: ActionId)
    requires a in db.actions && Linked(db) && ViewsOk(db, a) && Changes(db, db', change) && !change.EntryOf?
    ensures a in db'.actions && (Agrees(db', a) <==> Agrees(db, a))
  {
    hide Linked, ViewsOk, Agrees, ReplyMoves, Publishes, Resolves;
    match change
    case ReplyTo(b, to) => MovedAgreement(db, db', b, to, a);
    case EffectTo(_, _) => SameAgreement(db, db', a);
    case TurnTo(_, _) => SameAgreement(db, db', a);
    case PlanOf(i, plan) => PublishedAgreement(db, db', i, plan, a);
    case Apart => SameAgreement(db, db', a);
    case Startup => ResolvedAgreement(db, db', a);
  }

  lemma TrimAgrees(db: Db, m: EntryId, a: ActionId)
    requires a in db.actions && ViewsOk(db, a) && m in db.history && db.history[m].delivery != NotSent
    ensures Agrees(db.(history := db.history - {m}), a) <==> Agrees(db, a)
  {
  }

  lemma RestoreAgrees(s: Sys, t: nat, a: ActionId)
    requires a in s.db.actions && Linked(s.db) && Enabled(s, Restore(t))
    ensures Agrees(RestoreStep(s, t).db, a) <==> Agrees(s.db, a) && !RestoresLate(s, Restore(t), a)
  {
    hide OnlyTask;
    var b := s.tasks[t].pc.a;
    assert b != a ==> s.db.actions[b].response != s.db.actions[a].response;
  }

  /** One step: the history starts to disagree exactly by a late restore, and never recovers. */
  lemma StepAgrees(s: Sys, event: Event, a: ActionId)
    requires Inv(s) && Enabled(s, event) && a in s.db.actions
    ensures a in Step(s, event).db.actions
    ensures Agrees(Step(s, event).db, a) <==> Agrees(s.db, a) && !RestoresLate(s, event, a)
  {
    hide Inv, Step, Agrees, Changes, DbOk, ViewsOk, Linked;
    var change := StepChanges(s, event);
    ReplyIsOk(s, a);
    TablesOk(s);
    RowsLinked(s.db);
    if event.Restore? {
      RestoreAgrees(s, event.t, a);
      RestoreIs(s, event.t);
    } else if event.TrimEntry? {
      TrimAgrees(s.db, event.m, a);
      TrimIs(s, event.m);
    } else {
      ChangeAgrees(s.db, Step(s, event).db, change, a);
    }
  }

  lemma RestoreIs(s: Sys, t: nat)
    requires Enabled(s, Restore(t))
    ensures Step(s, Restore(t)) == RestoreStep(s, t) && RestoreStep(s, t).db.actions == s.db.actions
  {
    hide OnlyTask, OnlyAdds;
  }

  lemma TrimIs(s: Sys, m: EntryId)
    requires Enabled(s, TrimEntry(m))
    ensures Step(s, TrimEntry(m)) == s.(db := s.db.(history := s.db.history - {m}))
  {
    hide OnlyAdds;
  }

  /** A new reply is pending, and so is its entry. */
  lemma NewReplyAgrees(s: Sys, event: Event, a: ActionId)
    requires Inv(s) && Enabled(s, event) && a !in s.db.actions && a in Step(s, event).db.actions
    ensures Agrees(Step(s, event).db, a)
  {
    hide Inv, Enabled, Step, Agrees, DbOk, ViewsOk;
    StepKeepsInv(s, event);
    var s' := Step(s, event);
    var change := StepChanges(s, event);
    ReplyIsOk(s', a);
    NewReplyPending(s.db, s'.db, change, a);
    UnsettledAgrees(s'.db, a);
  }

  lemma NewReplyPending(db: Db, db': Db, change: Change, a: ActionId)
    requires a !in db.actions && a in db'.actions && Changes(db, db', change)
    ensures db'.actions[a].state == Pending
  {
    if change.PlanOf? {
      PublishShape(db, db', change.i, change.plan.reply, change.plan.effects);
    }
    hide Publishes, HistoryResolved, TurnsResolved;
  }

  lemma {:induction false} HistoryAgrees(events: seq<Event>, states: seq<Sys>, k: nat, a: ActionId)
    requires Run(events, states) && k < |states| && a in states[k].db.actions
    ensures |states| == |events| + 1
    ensures Agrees(states[k].db, a) <==> forall j | 0 <= j < k :: !RestoresLate(states[j], events[j], a)
  {
    hide Inv, Enabled, Step, Agrees, RestoresLate;
    if k == 0 {
    } else if a in states[k - 1].db.actions {
      HistoryAgrees(events, states, k - 1, a);
      AgreesAt(events, states, k - 1, a);
    } else {
      NewAt(events, states, k - 1, a);
    }
  }

  lemma AgreesAt(events: seq<Event>, states: seq<Sys>, k: nat, a: ActionId)
    requires Run(events, states) && k < |events| && a in states[k].db.actions
    ensures k + 1 < |states| && a in states[k + 1].db.actions
    ensures Agrees(states[k + 1].db, a) <==> Agrees(states[k].db, a) && !RestoresLate(states[k], events[k], a)
  {
    hide Inv, Run, Enabled, Step, Agrees, RestoresLate;
    StepOfRun(events, states, k);
    RunKeepsInv(events, states, k);
    StepAgrees(states[k], events[k], a);
  }

  lemma NewAt(events: seq<Event>, states: seq<Sys>, k: nat, a: ActionId)
    requires Run(events, states) && k < |events| && k + 1 < |states| && a !in states[k].db.actions && a in states[k + 1].db.actions
    ensures Agrees(states[k + 1].db, a) && forall j | 0 <= j < k + 1 :: !RestoresLate(states[j], events[j], a)
  {
    hide Inv, Run, Enabled, Step, Agrees, RestoresLate;
    StepOfRun(events, states, k);
    RunKeepsInv(events, states, k);
    NewReplyAgrees(states[k], events[k], a);
    forall j | 0 <= j < k + 1 ensures !RestoresLate(states[j], events[j], a) {
      RunLasts(events, states, j, k);
      LateIsKnown(states[j], events[j], a);
    }
  }

  lemma RowsAgree(s: Sys, a: ActionId)
    requires Inv(s) && a in s.db.actions
    ensures var db := s.db;
            var row := db.actions[a];
            && row.invocation in db.turns && db.turns[row.invocation].state == TurnOf(row.state)
            && DeliveryForTurn(db.turns[row.invocation].state) == DeliveryOf(row.state)
            && (!Final(row.state) ==> row.response in db.history && db.history[row.response].delivery == NotSent)
            && (row.response in db.history && db.history[row.response].delivery != DeliveryOf(row.state) ==>
                  db.history[row.response].delivery == NotSent)
  {
    ReplyIsOk(s, a);
    hide Inv;
  }

  /** The reply row and its turn tell the same story in every run, under any interleaving. The
      history tells it too, where it has the entry, if and only if no call has put the entry
      back with an outdated delivery; then the settled reply is listed as unsent. */
  lemma ViewsAgree(events: seq<Event>, states: seq<Sys>, k: nat, a: ActionId)
    requires Run(events, states) && k < |states| && a in states[k].db.actions
    ensures var db := states[k].db;
            var row := db.actions[a];
            && row.invocation in db.turns && db.turns[row.invocation].state == TurnOf(row.state)
            && DeliveryForTurn(db.turns[row.invocation].state) == DeliveryOf(row.state)
            && (!Final(row.state) ==> row.response in db.history && db.history[row.response].delivery == NotSent)
            && (row.response in db.history && db.history[row.response].delivery != DeliveryOf(row.state) ==>
                  db.history[row.response].delivery == NotSent)
    ensures |states| == |events| + 1
    ensures Agrees(states[k].db, a) <==> forall j | 0 <= j < k :: !RestoresLate(states[j], events[j], a)
  {
    HistoryAgrees(events, states, k, a);
    hide Inv, Enabled, Step, Agrees, RestoresLate;
    RunKeepsInv(events, states, k);
    RowsAgree(states[k], a);
  }

  lemma LateIsKnown(s: Sys, event: Event, a: ActionId)
    ensures RestoresLate(s, event, a) ==> a in s.db.actions
  {
  }

  // ---- Where outdated restores come from -------------------------------------------------

  /** A call is about to restore the entry of reply a, which is gone, from an older reading. */
  ghost predicate Stranded(s: Sys, a: ActionId) {
    a in s.db.actions && s.db.actions[a].response !in s.db.history && exists t :: Outdated(s, t, a)
  }

  /** A call gets to restoring an entry only by reading the reply as it is. */
  ghost predicate ReadsCurrent(s: Sys, s': Sys, t: nat, a: ActionId) {
    t in s'.tasks && s'.tasks[t].pc.Restoring? && s'.tasks[t].pc.a == a ==>
      || (t in s.tasks && s.tasks[t].pc == s'.tasks[t].pc)
      || (s'.db == s.db && (a in s.db.actions ==> s'.tasks[t].pc.delivery == DeliveryOf(s.db.actions[a].state)))
  }

  lemma ClaimReads(s: Sys, t: nat, matches: bool, b: ActionId, effects: seq<EffectId>, a: ActionId)
    requires Inv(s) && At(s, t) && s.tasks[t].pc.Claiming?
    ensures ReadsCurrent(s, ClaimStep(s, t, matches, b, effects), t, a)
  {
    hide Inv, DbOk, ClaimTurn, TurnMoves, HasPlan, OnlyTask, EffectFree, Lists;
    TaskIsOk(s, t);
    TablesOk(s);
    ClaimMoves(s.db, s.tasks[t].pc.i, matches);
    hide CountsOk, TaskOk, PcOk;
  }

  lemma CommitReads(s: Sys, t: nat, reply: Option<Reply>, effects: seq<EffectId>, a: ActionId)
    requires t in s.tasks && s.tasks[t].pc.Called?
    ensures ReadsCurrent(s, CommitStep(s, t, reply, effects), t, a)
  {
    hide CommitPlan, OnlyTask, OnlyAdds, EffectFree;
  }

  lemma RestoreReads(s: Sys, t: nat, a: ActionId)
    requires TurnEnabled(s, Restore(t))
    ensures ReadsCurrent(s, RestoreStep(s, t), t, a)
  {
    hide OnlyTask, EffectFree;
  }

  lemma CallReads(s: Sys, event: Event, a: ActionId)
    requires IsCallEvent(event) && event.t in s.tasks && Inv(s) && TurnEnabled(s, event)
    ensures ReadsCurrent(s, TurnStep(s, event), event.t, a)
  {
    hide Inv, FailGeneration, RestoreStep, ClaimStep, CommitStep, OnlyTask, OnlyAdds, EffectFree, ReadsCurrent, HasReply, Lists;
    match event
    case Restore(t) => RestoreReads(s, t, a);
    case ClaimsTurn(t, matches, b, effects) => ClaimReads(s, t, matches, b, effects, a);
    case GenerationFails(t, _) => GoesElsewhere(s, TurnStep(s, event), t, a);
    case CallsModel(t) => GoesElsewhere(s, TurnStep(s, event), t, a);
    case CommitsPlan(t, reply, effects) => CommitReads(s, t, reply, effects, a);
  }

  lemma GoesElsewhere(s: Sys, s': Sys, t: nat, a: ActionId)
    requires t in s'.tasks ==> !s'.tasks[t].pc.Restoring?
    ensures ReadsCurrent(s, s', t, a)
  {
  }

  lemma InvokeReads(s: Sys, t: nat, i: InvocationId, b: ActionId, effects: seq<EffectId>, a: ActionId)
    requires t !in s.tasks
    ensures ReadsCurrent(s, InvokeStep(s, t, i, b, effects), t, a)
  {
    hide HasReply, OnlyTask, EffectFree;
  }

  lemma OutsideReads(s: Sys, event: Event, u: nat, a: ActionId)
    requires IsTurnEvent(event) && !IsCallEvent(event) && TurnEnabled(s, event)
    ensures ReadsCurrent(s, TurnStep(s, event), u, a)
  {
    if u in s.tasks {
      OutsideStays(s, event, u);
      hide TurnEnabled, TurnStep;
    } else {
      hide ReadsCurrent, InvokeStep, Lists, HasReply, OnlyAdds, OnlyTask, EffectFree;
      if event.Invoke? && event.t == u {
        InvokeReads(s, u, event.i, event.a, event.effects, a);
      } else {
        GoesElsewhere(s, TurnStep(s, event), u, a);
      }
    }
  }

  lemma DispatchReads(s: Sys, event: Event, u: nat, a: ActionId)
    requires IsDispatch(event) && Enabled(s, event)
    ensures ReadsCurrent(s, Step(s, event), u, a)
  {
    hide Enabled, Step;
    DispatchAdvances(s, event);
    DispatchMoves(s, event);
  }

  lemma StepReads(s: Sys, event: Event, u: nat, a: ActionId)
    requires Inv(s) && Enabled(s, event)
    ensures ReadsCurrent(s, Step(s, event), u, a)
  {
    if IsTurnEvent(event) {
      hide Inv, Enabled, Step, TurnEnabled, TurnStep;
      TurnKind(s, event);
      if IsCallEvent(event) {
        CallerIsThere(s, event);
        CallOrder(s, event);
        hide OrderKept;
        CallReads(s, event, a);
      } else {
        OutsideReads(s, event, u, a);
      }
    } else if IsDispatch(event) {
      hide Inv, Enabled, Step;
      DispatchReads(s, event, u, a);
    } else {
      hide Inv;
    }
  }

  lemma EntryStays(db: Db, db': Db, change: Change, m: EntryId)
    requires m in db.history && Changes(db, db', change) && !change.EntryOf?
    ensures m in db'.history
  {
    if change.PlanOf? {
      PublishShape(db, db', change.i, change.plan.reply, change.plan.effects);
    }
    hide Publishes;
  }

  /** Only trimming removes an entry. */
  lemma StepEntryStays(s: Sys, event: Event, m: EntryId)
    requires Inv(s) && Enabled(s, event) && m in s.db.history && m !in Step(s, event).db.history
    ensures event == TrimEntry(m) && Step(s, event).tasks == s.tasks && Step(s, event).db.actions == s.db.actions
  {
    hide Inv, Step, Changes;
    var change := StepChanges(s, event);
    if !event.Restore? && !event.TrimEntry? {
      EntryStays(s.db, Step(s, event).db, change, m);
    } else if event.Restore? {
      RestoreIs(s, event.t);
      RestoreStays(s, event.t, m);
    } else {
      TrimIs(s, event.m);
    }
  }

  lemma RestoreStays(s: Sys, t: nat, m: EntryId)
    requires Enabled(s, Restore(t)) && m in s.db.history
    ensures m in RestoreStep(s, t).db.history
  {
    hide OnlyTask;
  }

  /** Removing an entry under such a call is the only way to get there. */
  lemma StepStrands(s: Sys, event: Event, a: ActionId)
    requires Inv(s) && Enabled(s, event) && Stranded(Step(s, event), a)
    ensures Stranded(s, a) || TrimsUnder(s, event, a)
  {
    hide Inv, Enabled, Step, Lasts;
    var s' := Step(s, event);
    var t :| Outdated(s', t, a);
    StepReads(s, event, t, a);
    StepKeepsInv(s, event);
    RowsAgree(s', a);
    if a !in s.db.actions {
      NewReplySettled(s, event, a);
    } else {
      RowsAgree(s, a);
      var m := s.db.actions[a].response;
      StepLasts(s, event);
      SettledLasts(s.db, s'.db, a);
      if m in s.db.history {
        StepEntryStays(s, event, m);
        assert Outdated(s, t, a);
      } else {
        assert Outdated(s, t, a);
      }
    }
  }

  lemma NewReplySettled(s: Sys, event: Event, a: ActionId)
    requires Inv(s) && Enabled(s, event) && a !in s.db.actions && a in Step(s, event).db.actions
    ensures !Final(Step(s, event).db.actions[a].state)
  {
    hide Inv, Enabled, Step;
    var change := StepChanges(s, event);
    NewReplyPending(s.db, Step(s, event).db, change, a);
  }

  lemma SettledLasts(db: Db, db': Db, a: ActionId)
    requires Lasts(db, db') && a in db.actions
    ensures a in db'.actions && db'.actions[a].response == db.actions[a].response
    ensures Final(db.actions[a].state) ==> db'.actions[a].state == db.actions[a].state
  {
  }

  /** An outdated entry is put back only after one was removed under a call that had read it. */
  lemma {:induction false} StrandedByTrim(events: seq<Event>, states: seq<Sys>, k: nat, a: ActionId)
    requires Run(events, states) && k < |states| && Stranded(states[k], a)
    ensures |states| == |events| + 1 && exists j | 0 <= j < k :: TrimsUnder(states[j], events[j], a)
  {
    hide Inv, Enabled, Step, Stranded, TrimsUnder;
    if k == 0 {
      NothingStrandedYet(states[0], a);
    } else {
      StrandedAt(events, states, k - 1, a);
      if Stranded(states[k - 1], a) {
        StrandedByTrim(events, states, k - 1, a);
      }
    }
  }

  lemma NothingStrandedYet(s: Sys, a: ActionId)
    requires Stranded(s, a)
    ensures s != INITIAL
  {
  }

  lemma StrandedAt(events: seq<Event>, states: seq<Sys>, k: nat, a: ActionId)
    requires Run(events, states) && k < |events| && k + 1 < |states| && Stranded(states[k + 1], a)
    ensures Stranded(states[k], a) || TrimsUnder(states[k], events[k], a)
  {
    hide Run, Inv, Enabled, Step, Stranded, TrimsUnder;
    StepOfRun(events, states, k);
    RunKeepsInv(events, states, k);
    StepStrands(states[k], events[k], a);
  }

  /** The history says what became of every reply, in every run in which no entry is removed
      under a call that is about to restore it from an older reading. */
  lemma HistoryTellsTheTruth(events: seq<Event>, states: seq<Sys>, k: nat, a: ActionId)
    requires Run(events, states) && k < |states| && a in states[k].db.actions
    requires |states| == |events| + 1 && forall j | 0 <= j < k :: !TrimsUnder(states[j], events[j], a)
    ensures Agrees(states[k].db, a)
  {
    hide Inv, Enabled, Step, Agrees, TrimsUnder, Stranded;
    HistoryAgrees(events, states, k, a);
    forall j | 0 <= j < k ensures !RestoresLate(states[j], events[j], a) {
      if RestoresLate(states[j], events[j], a) {
        LateIsStranded(states[j], events[j], a);
        StrandedByTrim(events, states, j, a);
      }
    }
  }

  lemma LateIsStranded(s: Sys, event: Event, a: ActionId)
    requires RestoresLate(s, event, a)
    ensures Stranded(s, a)
  {
  }

  /** And the condition is needed: after such a removal the call may restore the entry at once, and
      then the history is wrong for good. */
  lemma TrimmingUnderIsWrong(s: Sys, m: EntryId, a: ActionId) returns (t: nat, s1: Sys, s2: Sys)
    requires Inv(s) && Enabled(s, TrimEntry(m)) && TrimsUnder(s, TrimEntry(m), a)
    ensures D.StepsTo(s, TrimEntry(m), s1) && D.StepsTo(s1, Restore(t), s2)
    ensures a in s2.db.actions && !Agrees(s2.db, a)
  {
    hide Inv, Step, Agrees, DbOk;
    t :| Outdated(s, t, a);
    s1 := s.(db := s.db.(history := s.db.history - {m}));
    TrimIs(s, m);
    StepKeepsInv(s, TrimEntry(m));
    RestorerIsThere(s, t, a);
    s2 := Step(s1, Restore(t));
    StepAgrees(s1, Restore(t), a);
  }

  lemma RestorerIsThere(s: Sys, t: nat, a: ActionId)
    requires Inv(s) && Outdated(s, t, a)
    ensures s.tasks[t].pc.i in s.db.turns && s.tasks[t].gate == Some(s.db.actions[a].invocation.chat)
  {
    hide Inv;
    TaskIsOk(s, t);
  }

  /** Trimming that waits for the chat's gate does no harm: no call of the chat is about to
      restore anything. */
  lemma GatedTrimIsHarmless(s: Sys, m: EntryId, a: ActionId)
    requires Inv(s) && Enabled(s, TrimEntry(m)) && GateFree(s, s.db.history[m].chat)
    ensures !TrimsUnder(s, TrimEntry(m), a)
  {
    hide Inv;
    if a in s.db.actions {
      ReplyIsOk(s, a);
      forall t | Outdated(s, t, a) ensures s.tasks[t].gate == Some(s.db.actions[a].invocation.chat) {
        RestorerIsThere(s, t, a);
      }
    }
  }
}
