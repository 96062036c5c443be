// A run in which retention and a replay leave a sent reply listed as unsent.
module OutboxStale {
  import opened Prelude
  import opened Outbox
  import opened OutboxProtocol
  import opened OutboxDenials
  import V = OutboxViews

  const NEW_REPLY := Some(Reply(0, 0))
  const ENTRY := Entry(0, NotSent)

  const CLAIMED := EMPTY.(turns := map[TURN := Turn(true, Generating, 1)])
  const PLANNED := Db(map[TURN := Turn(true, ResponsePlanned, 1)], map[0 := Action(TURN, 0, Pending)], map[0 := ENTRY], map[])
  const STARTED := Db(map[TURN := Turn(true, DeliveryPending, 1)], map[0 := Action(TURN, 0, Executing)], map[0 := ENTRY], map[])
  const SENT := Db(map[TURN := Turn(true, TurnSucceeded, 1)], map[0 := Action(TURN, 0, Succeeded)], map[0 := ENTRY.(delivery := Sent)], map[])
  const TRIMMED := SENT.(history := map[])
  const RESTORED := SENT.(history := map[0 := ENTRY])

  /** A call that answers the turn behind the chat's gate. */
  function Answering(pc: Pc): Task {
    Task(Some(0), Some(TURN), pc, [], [])
  }

  /** The sweep that sends what is pending. */
  function Sweeping(pc: Pc): Task {
    Task(None, None, pc, [], [])
  }

  const REPLAY := Answering(Restoring(TURN, 0, NotSent))

  const V2 := S1.(holder := map[0 := 1], tasks := map[1 := Answering(Claiming(TURN))])
  const V3 := V2.(db := CLAIMED, tasks := map[1 := Answering(Preparing(TURN))])
  const V4 := V3.(calls := map[TURN := 1], tasks := map[1 := Answering(Called(TURN))])
  const V5 := V4.(db := PLANNED, plans := map[TURN := Plan(NEW_REPLY, [])], tasks := map[1 := Answering(Replying(0))])
  const V6 := V5.(tasks := map[])
  const V7 := V6.(holder := map[0 := 2], tasks := map[2 := REPLAY])
  const V8 := V7.(tasks := map[2 := REPLAY, 3 := Sweeping(Replying(0))])
  const V9 := V7.(tasks := map[2 := REPLAY, 3 := Sweeping(ReplyLoaded(0))])
  const V10 := V7.(db := STARTED, sender := map[0 := 3], tasks := map[2 := REPLAY, 3 := Sweeping(ReplySending(0))])
  const V11 := V10.(sends := map[0 := 1], tasks := map[2 := REPLAY, 3 := Sweeping(ReplySent(0))])
  const V12 := V11.(db := SENT, tasks := map[2 := REPLAY, 3 := Sweeping(RunningEffects)])
  const V13 := V12.(db := TRIMMED)
  const V14 := V13.(db := RESTORED, tasks := map[2 := Answering(Replying(0)), 3 := Sweeping(RunningEffects)])

  lemma Asked()
    ensures StepsTo(S1, Invoke(1, TURN, 0, []), V2)
  {
    hide Enabled, Step, StepsTo, OnlyTask, EffectFree, OnlyAdds;
    assert V2.tasks == S1.tasks[1 := Answering(Claiming(TURN))];
    ByTurn(S1, Invoke(1, TURN, 0, []), V2);
  }

  lemma TurnClaimed()
    ensures StepsTo(V2, ClaimsTurn(1, true, 0, []), V3)
  {
    hide Enabled, Step, StepsTo, OnlyTask, EffectFree, OnlyAdds;
    assert V3.tasks == V2.tasks[1 := Answering(Preparing(TURN))];
    assert CLAIMED.turns == V2.db.turns[TURN := Turn(true, Generating, 1)];
    ByTurn(V2, ClaimsTurn(1, true, 0, []), V3);
  }

  lemma ModelCalled()
    ensures StepsTo(V3, CallsModel(1), V4)
  {
    hide Enabled, Step, StepsTo, OnlyTask, EffectFree, OnlyAdds;
    assert V4.tasks == V3.tasks[1 := Answering(Called(TURN))];
    ByTurn(V3, CallsModel(1), V4);
  }

  lemma PlanCommits()
    ensures CommitPlan(CLAIMED, TURN, NEW_REPLY, [], false) == (PLANNED, Published)
  {
    assert PlannedEffects(TURN, []) == map[];
    assert PLANNED.turns == CLAIMED.turns[TURN := Turn(true, ResponsePlanned, 1)];
    assert PLANNED.effects == CLAIMED.effects + PlannedEffects(TURN, []);
  }

  lemma Committed()
    ensures StepsTo(V4, CommitsPlan(1, NEW_REPLY, []), V5)
  {
    hide Enabled, Step, StepsTo, OnlyTask, EffectFree, OnlyAdds, CommitPlan;
    PlanCommits();
    assert V5.tasks == V4.tasks[1 := Answering(Replying(0))];
    ByTurn(V4, CommitsPlan(1, NEW_REPLY, []), V5);
  }

  lemma Returned(s: Sys, t: nat)
    requires At(s, t) && MayReturn(s.tasks[t].pc)
    ensures StepsTo(s, Returns(t), Ends(s, t))
  {
    hide OnlyTask, EffectFree;
  }

  lemma CallReturned()
    ensures StepsTo(V5, Returns(1), V6)
  {
    hide StepsTo, OnlyTask, EffectFree;
    assert V6.tasks == V5.tasks - {1};
    Returned(V5, 1);
  }

  lemma ReplayLooks()
    ensures Looked(PLANNED, TURN, 0, []) == Option<Task>.Some(REPLAY) && Lists(PLANNED, TURN, []) && ReplyRow(PLANNED, TURN, 0)
  {
    assert ReplyRow(PLANNED, TURN, 0) && 0 in PLANNED.actions;
  }

  lemma Replays()
    ensures StepsTo(V6, Invoke(2, TURN, 0, []), V7)
  {
    hide Enabled, Step, StepsTo, OnlyTask, EffectFree, OnlyAdds, Looked, Lists, HasReply;
    ReplayLooks();
    assert V7.tasks == V6.tasks[2 := REPLAY];
    ByTurn(V6, Invoke(2, TURN, 0, []), V7);
  }

  lemma Swept()
    ensures StepsTo(V7, SweepReply(3, 0), V8)
  {
    hide Enabled, Step, StepsTo, OnlyTask, EffectFree, OnlyAdds;
    assert V8.tasks == V7.tasks[3 := Sweeping(Replying(0))];
    ByReply(V7, SweepReply(3, 0), V8);
  }

  lemma ReadPending()
    ensures StepsTo(V8, LoadsReply(3), V9)
  {
    hide Enabled, Step, StepsTo, OnlyTask, EffectFree, OnlyAdds;
    assert V9.tasks == V8.tasks[3 := Sweeping(ReplyLoaded(0))];
    ByReply(V8, LoadsReply(3), V9);
  }

  lemma ReplyStarts()
    ensures StartReply(PLANNED, 0) == Option<Db>.Some(STARTED)
  {
    assert STARTED.turns == PLANNED.turns[TURN := Turn(true, DeliveryPending, 1)];
    assert STARTED.actions == PLANNED.actions[0 := Action(TURN, 0, Executing)];
  }

  lemma SendStarted()
    ensures StepsTo(V9, StartsReply(3), V10)
  {
    hide Enabled, Step, StepsTo, OnlyTask, EffectFree, OnlyAdds, StartReply;
    ReplyStarts();
    assert V10.tasks == V9.tasks[3 := Sweeping(ReplySending(0))];
    ByReply(V9, StartsReply(3), V10);
  }

  lemma SendDone()
    ensures StepsTo(V10, Sends(3, true), V11)
  {
    hide Enabled, Step, StepsTo, OnlyTask, EffectFree, OnlyAdds;
    assert V11.tasks == V10.tasks[3 := Sweeping(ReplySent(0))];
    ByReply(V10, Sends(3, true), V11);
  }

  lemma ReplyFinishes()
    ensures FinishReply(STARTED, 0, Executing, Succeeded) == Option<Db>.Some(SENT)
  {
    assert SENT.turns == STARTED.turns[TURN := Turn(true, TurnSucceeded, 1)];
    assert SENT.actions == STARTED.actions[0 := Action(TURN, 0, Succeeded)];
    assert SENT.history == STARTED.history[0 := ENTRY.(delivery := Sent)];
  }

  lemma Completion()
    ensures CompleteReplyStep(V11, 3, true) == V12
  {
    ReplyFinishes();
    assert V12.tasks == V11.tasks[3 := Sweeping(RunningEffects)];
    hide FinishReply, OnlyTask, EffectFree;
  }

  lemma SendRecorded()
    ensures StepsTo(V11, CompletesReply(3, true), V12)
  {
    hide Enabled, Step, StepsTo, OnlyTask, EffectFree, OnlyAdds, CompleteReplyStep;
    Completion();
    ByReply(V11, CompletesReply(3, true), V12);
  }

  lemma EntryTrimmed()
    ensures StepsTo(V12, TrimEntry(0), V13)
  {
    hide Enabled, Step, StepsTo, OnlyTask, EffectFree, OnlyAdds;
    assert TRIMMED.history == SENT.history - {0};
    ByTurn(V12, TrimEntry(0), V13);
  }

  lemma Restoration()
    ensures RestoreStep(V13, 2) == V14
  {
    assert RESTORED.history == TRIMMED.history[0 := ENTRY];
    assert V14.tasks == V13.tasks[2 := Answering(Replying(0))];
    hide OnlyTask, EffectFree;
  }

  lemma EntryRestored()
    ensures StepsTo(V13, Restore(2), V14)
  {
    hide Enabled, Step, StepsTo, TurnEnabled, TurnStep, RestoreStep, OnlyAdds;
    Restoration();
    MayRestore();
    RestoreSteps(V13, 2);
    ByTurn(V13, Restore(2), V14);
  }

  lemma MayRestore()
    ensures TurnEnabled(V13, Restore(2))
  {
  }

  lemma RestoreSteps(s: Sys, t: nat)
    requires TurnEnabled(s, Restore(t))
    ensures TurnStep(s, Restore(t)) == RestoreStep(s, t)
  {
    hide OnlyTask, OnlyAdds, EffectFree;
  }

  /** A replay read the reply while it was pending; the sweep sent it, retention removed its
      settled entry, and the replay put it back: the reply was sent, and the history lists it as
      not sent. */
  lemma SentReplyIsListedAsUnsent()
    ensures Reachable(V14)
    ensures V14.db.actions[0].state == Succeeded && Count(V14.sends, 0) == 1
    ensures V14.db.history[0].delivery == NotSent && !V.Agrees(V14.db, 0)
  {
    StartsReachable();
    Begins();
    TurnArrives();
    Asked();
    TurnClaimed();
    ModelCalled();
    Committed();
    CallReturned();
    Replays();
    Swept();
    ReadPending();
    SendStarted();
    SendDone();
    SendRecorded();
    EntryTrimmed();
    EntryRestored();
    hide StepsTo, Reachable;
    Extends(INITIAL, Restart(EMPTY), S0);
    Extends(S0, Arrive(TURN), S1);
    Extends(S1, Invoke(1, TURN, 0, []), V2);
    Extends(V2, ClaimsTurn(1, true, 0, []), V3);
    Extends(V3, CallsModel(1), V4);
    Extends(V4, CommitsPlan(1, NEW_REPLY, []), V5);
    Extends(V5, Returns(1), V6);
    Extends(V6, Invoke(2, TURN, 0, []), V7);
    Extends(V7, SweepReply(3, 0), V8);
    Extends(V8, LoadsReply(3), V9);
    Extends(V9, StartsReply(3), V10);
    Extends(V10, Sends(3, true), V11);
    Extends(V11, CompletesReply(3, true), V12);
    Extends(V12, TrimEntry(0), V13);
    Extends(V13, Restore(2), V14);
  }
}
