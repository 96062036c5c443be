// Two runs of the inbound dispatcher that lose a message, one for each kind of step the no-loss
// result excludes: both end with nothing queued, running, armed or reported, and only a restart
// would find the first message again. A third gives up, with a report, a message nobody repeated.
module InboundLosses {
  import opened Prelude
  import opened ClaimBatch
  import opened ClaimRepeats
  import opened QueueSteps
  import opened InboundProtocol
  import opened InboundNoLoss

  /** The chat has nothing left that could ever act: no queue, no goroutine, no armed callback. */
  ghost predicate AtRest(s: State) {
    s.live && s.chats == map[] && s.tasks == map[]
    && forall i | 0 <= i < |s.objects| :: Idle(s.objects[i].queue)
  }

  ghost predicate StepsTo(config: Config, s: State, event: Event, s': State) {
    Enabled(config, s, event) && s' == Step(config, s, event)
  }

  ghost predicate Reaches(config: Config, events: seq<Event>, states: seq<State>, s: State) {
    Run(config, events, states) && states[|events|] == s
  }

  /** Some run ends in this state. */
  ghost predicate Reachable(config: Config, s: State) {
    exists events, states :: Reaches(config, events, states, s)
  }

  lemma StartsReachable(config: Config)
    ensures Reachable(config, INITIAL)
  {
    assert Reaches(config, [], [INITIAL], INITIAL);
  }

  lemma Goes(config: Config, s: State, event: Event, s': State)
    requires Reachable(config, s) && StepsTo(config, s, event, s')
    ensures Reachable(config, s')
  {
    var events, states :| Reaches(config, events, states, s);
    hide Enabled, Step;
    var events', states' := events + [event], states + [s'];
    forall k | 0 <= k < |events'| ensures StepsTo(config, states'[k], events'[k], states'[k + 1]) {
      if k < |events| {
        assert StepsTo(config, states[k], events[k], states[k + 1]);
      }
    }
    assert Reaches(config, events', states', s');
  }

  // ---- Held by a judge that has already decided ---------------------------------------

  // maxPending is a variable of the program; two keeps the run short.
  const SMALL := Config(Limits(2, 2), true)
  const ROW := Row(0, false, 0, true, UNSTARTED, false)
  const ANSWERED := ROW.(state := 3, claimed := true)
  const IDLE := NewObject(0)

  const ROWS3 := [ROW, ROW, ROW]
  const BATCHED3 := [ROW.(state := BATCHED), ROW, ROW]
  const DONE3 := [ROW.(state := BATCHED), ANSWERED, ROW]

  const Q3 := EMPTY.(awaiting := [2], judgeSeq := 1, judgeTimer := Some(Quiet))
  const Q4 := Q3.(pending := [0], timerSeq := 1, timer := Some(Quiet))
  const Q5 := Q3.(pending := [0, 1], timerSeq := 2, timer := Some(Immediately))
  const Q6 := Q5.(awaiting := [], judging := [2], judgeTimer := None)
  const Q7 := Q6.(overflow := true)
  const Q8 := Q7.(pending := [], timer := None, running := true)
  const Q12 := Q8.(overflow := false, refilling := true)
  const Q14 := Q12.(running := false, refilling := false)
  const Q15 := Q14.(judging := [])

  const BASE := INITIAL.(rows := ROWS3, chats := map[0 := 0])
  const J3 := BASE.(objects := [IDLE.(queue := Q3, judgeTimers := {1})])
  const J4 := J3.(objects := [J3.objects[0].(queue := Q4, turnTimers := {1})], admitted := {0})
  const J5 := J3.(objects := [J3.objects[0].(queue := Q5, turnTimers := {1, 2})], admitted := {0, 1})
  const J6 := J5.(objects := [J5.objects[0].(queue := Q6, judgeTimers := {}, judger := 7)], tasks := map[7 := Judging(0, [2])])
  const J7 := J6.(objects := [J6.objects[0].(queue := Q7)], tasks := map[7 := JudgeOver(0, [2])], admitted := {0, 1, 2})
  const J8 := J7.(objects := [J7.objects[0].(queue := Q8, turnTimers := {1}, runner := 8)], tasks := map[7 := JudgeOver(0, [2]), 8 := Claiming(0, [0, 1])])
  const J9 := J8.(rows := BATCHED3, into := map[0 := 1], tasks := map[7 := JudgeOver(0, [2]), 8 := Answering(0, [0, 1], 1, [])])
  const J10 := J9.(rows := DONE3)
  const J11 := J10.(tasks := map[7 := JudgeOver(0, [2]), 8 := TurnOver(0, [0, 1], [], [], false)])
  const J12 := J11.(objects := [J8.objects[0].(queue := Q12)], tasks := map[7 := JudgeOver(0, [2]), 8 := Reading(0)])
  const J13 := J12.(tasks := map[7 := JudgeOver(0, [2]), 8 := ReadOver(0, [2], false)])
  const J14 := J13.(objects := [J8.objects[0].(queue := Q14)], tasks := map[7 := JudgeOver(0, [2])])
  const J15 := J14.(objects := [J8.objects[0].(queue := Q15)], tasks := map[], chats := map[])

  lemma JudgedArrivals()
    ensures StepsTo(SMALL, INITIAL, Arrive(ROW), INITIAL.(rows := [ROW]))
    ensures StepsTo(SMALL, INITIAL.(rows := [ROW]), Arrive(ROW), INITIAL.(rows := [ROW, ROW]))
    ensures StepsTo(SMALL, INITIAL.(rows := [ROW, ROW]), Arrive(ROW), INITIAL.(rows := ROWS3))
  {
    assert [] + [ROW] == [ROW] && [ROW] + [ROW] == [ROW, ROW] && [ROW, ROW] + [ROW] == ROWS3;
  }

  lemma JudgedHold()
    ensures HoldStep(SMALL, INITIAL.(rows := ROWS3), 0, 2) == J3
  {
    var s1 := WithChat(INITIAL.(rows := ROWS3), 0);
    assert s1.objects == [IDLE] && s1.chats == map[0 := 0];
    assert AwaitJudgment(EMPTY, 2, SMALL.limits, true) == Q3;
    assert PutQueue(IDLE, Q3) == IDLE.(queue := Q3, judgeTimers := {1});
  }

  lemma JudgedAdmissions()
    ensures AdmitStep(SMALL, J3, 0, 0) == J4
    ensures AdmitStep(SMALL, J4, 0, 1) == J5
  {
    assert Admit(Q3, 0, SMALL.limits, true) == Q4;
    assert Admit(Q4, 1, SMALL.limits, true) == Q5;
    assert PutQueue(J3.objects[0], Q4) == J4.objects[0];
    assert PutQueue(J4.objects[0], Q5) == J5.objects[0];
  }

  lemma JudgedJudge()
    ensures JudgeTimerStep(J5, 0, 1, 7) == J6
    ensures JudgeAdmitStep(SMALL, J6, 7) == J7
  {
    assert OnJudgeTimer(Q5, 1, true) == (Q6, Start([2]));
    assert {1} - {1} == {};
    assert PutQueue(J5.objects[0].(judgeTimers := {}), Q6).(judger := 7) == J6.objects[0];
    assert Admit(Q6, 2, SMALL.limits, true) == Q7;
    assert PutQueue(J6.objects[0], Q7) == J7.objects[0];
    assert WithChat(J6.(tasks := map[7 := JudgeOver(0, [2])]), 0) == J6.(tasks := map[7 := JudgeOver(0, [2])]);
  }

  lemma JudgedTurnStarts()
    ensures TurnTimerStep(SMALL, J7, 0, 2, 8) == J8
  {
    assert OnTimer(Q7, 2, SMALL.limits, true) == (Q8, Start([0, 1])) by {
      assert [0, 1][..2] == [0, 1] && [0, 1][2..] == [];
    }
    assert {1, 2} - {2} == {1};
    assert PutQueue(J7.objects[0].(turnTimers := {1}), Q8).(runner := 8) == J8.objects[0];
  }

  lemma PairInOrder()
    ensures InRowOrder([0, 1]) == [0, 1] && InRowOrder([0, 0]) == [0, 0] && InRowOrder([0]) == [0]
  {
    assert [0][..0] == [] && InRowOrder([]) == [];
    assert InRowOrder([0]) == Insert(0, []) == [0];
    assert [0, 1][..1] == [0] && [0, 0][..1] == [0];
    assert [0][1..] == [];
    assert Insert(1, [0]) == [0] + Insert(1, []) == [0, 1];
    assert Insert(0, [0]) == [0] + Insert(0, []) == [0, 0];
  }

  lemma JudgedScan()
    ensures ScanFrom(ROWS3, None, [0, 1], 0, []) == Scanned(ROWS3, [0, 1], 2)
  {
    assert [0] + [1] == [0, 1] && [] + [0] == [0];
    assert ScanFrom(ROWS3, None, [0, 1], 2, [0, 1]) == Scanned(ROWS3, [0, 1], 2);
    assert ScanFrom(ROWS3, None, [0, 1], 1, [0]) == Scanned(ROWS3, [0, 1], 2);
  }

  lemma JudgedMarks()
    ensures MarkBatched(ROWS3, AllButLast([0, 1])) == Some(BATCHED3)
  {
    assert AllButLast([0, 1]) == [0] && [0][1..] == [];
    assert ROWS3[0 := ROW.(state := BATCHED)] == BATCHED3;
    assert MarkBatched(BATCHED3, []) == Some(BATCHED3);
  }

  lemma JudgedClaims()
    ensures Claim(ROWS3, map[], [0, 1]) == Claimed([0, 1], [], BATCHED3)
  {
    PairInOrder();
    JudgedScan();
    JudgedMarks();
    var batch := [0, 1];
    assert !SpansChats(ROWS3, batch) && InRange(ROWS3, batch) && batch[2..] == [];
    hide ScanFrom, MarkBatched, AllButLast, InRowOrder;
  }

  lemma JudgedClaim()
    ensures ClaimStep(J8, 8) == J9
  {
    JudgedClaims();
    PartOfPair();
    hide Claim, PartsOf;
  }

  lemma PartOfPair()
    ensures PartsOf([0, 1]) == map[0 := 1] && map[] + PartsOf([0, 1]) == PartsOf([0, 1])
  {
    assert AllButLast([0, 1]) == [0] && Last([0, 1]) == 1;
    forall m: nat ensures m in PartsOf([0, 1]) <==> m == 0 {
    }
  }

  lemma JudgedTurnEnds()
    ensures EndOfTurnStep(J11, 8) == J12
  {
    assert FinishTurn(Q8, [], [], false, true) == (Q12, StartRefill);
    assert PutQueue(J8.objects[0], Q12).(runner := 8) == J12.objects[0];
    assert J11.excused + {} == {};
  }

  lemma JudgedPage()
    ensures Page(DONE3, 0, 0, 2) == [2]
  {
    assert Page(DONE3, 0, 3, 1) == [] && Page(DONE3, 0, 2, 2) == [2];
  }

  lemma JudgedPageHasNothingNew()
    ensures FinishRefill(Q12, DONE3, [2], false, SMALL.limits, true) == (Q14, Forget)
  {
    assert Queueable(Q12, DONE3, [2][1..]) == [];
    assert Queueable(Q12, DONE3, [2]) == [];
  }

  lemma JudgedRead()
    ensures EndOfRefillStep(SMALL, J13, 8) == J14
  {
    JudgedPageHasNothingNew();
    hide FinishRefill;
    assert PutQueue(J12.objects[0], Q14) == J14.objects[0];
    assert J13.tasks - {8} == J14.tasks;
  }

  lemma JudgedOver()
    ensures EndOfJudgmentStep(SMALL, J14, 7) == J15
  {
    assert FinishJudgment(Q14, SMALL.limits, true) == (Q15, Forget);
    assert PutQueue(J14.objects[0], Q15) == J15.objects[0];
    assert J14.tasks - {7} == J15.tasks && J14.chats - {0} == map[];
  }

  lemma JudgedQueues()
    ensures StepsTo(SMALL, INITIAL.(rows := ROWS3), HoldMessage(2), J3)
    ensures StepsTo(SMALL, J3, AdmitMessage(0), J4) && StepsTo(SMALL, J4, AdmitMessage(1), J5)
    ensures StepsTo(SMALL, J5, FireJudgeTimer(0, 1, 7), J6) && StepsTo(SMALL, J6, JudgeAdmits(7), J7)
    ensures StepsTo(SMALL, J7, FireTurnTimer(0, 2, 8), J8)
  {
    JudgedHold();
    JudgedAdmissions();
    JudgedJudge();
    JudgedTurnStarts();
    hide HoldStep, AdmitStep, JudgeTimerStep, JudgeAdmitStep, TurnTimerStep;
  }

  lemma JudgedTurn()
    ensures StepsTo(SMALL, J8, ClaimCommits(8), J9) && StepsTo(SMALL, J9, RowChanges(1, ANSWERED), J10)
    ensures StepsTo(SMALL, J10, TurnAnswers(8), J11) && StepsTo(SMALL, J11, EndOfTurn(8), J12)
  {
    JudgedClaim();
    JudgedTurnEnds();
    hide ClaimStep, EndOfTurnStep;
    assert J9.rows[1 := ANSWERED] == DONE3;
    assert J10.tasks[8 := TurnOver(0, [0, 1], [], [], false)] == J11.tasks;
  }

  lemma JudgedReading()
    ensures StepsTo(SMALL, J12, ReadPage(8), J13)
  {
    JudgedPage();
    hide Page;
    assert J12.tasks[8 := ReadOver(0, [2], false)] == J13.tasks;
  }

  lemma JudgedInbox()
    ensures StepsTo(SMALL, J12, ReadPage(8), J13) && StepsTo(SMALL, J13, EndOfRefill(8), J14)
    ensures StepsTo(SMALL, J14, EndOfJudgment(7), J15)
  {
    JudgedReading();
    JudgedRead();
    JudgedOver();
    hide Page, EndOfRefillStep, EndOfJudgmentStep;
  }

  lemma JudgedEnd()
    ensures AtRest(J15) && Due(J15, 2) && !NoLoss(J15)
  {
    assert Due(J15, 2) && !KeptByChat(J15, 2);
  }

  /** The judge admits a message while the queue is full, so it is left in the inbox; the read
      that follows skips it because the judge has not cleared it yet; nothing reads again. */
  lemma JudgedMessageIsLost()
    ensures ValidConfig(SMALL) && Reachable(SMALL, J15)
    ensures AtRest(J15) && Due(J15, 2) && !NoLoss(J15)
  {
    StartsReachable(SMALL);
    JudgedArrivals();
    JudgedQueues();
    JudgedTurn();
    JudgedInbox();
    JudgedEnd();
    hide StepsTo, Reachable, AtRest, NoLoss, Due;
    Goes(SMALL, INITIAL, Arrive(ROW), INITIAL.(rows := [ROW]));
    Goes(SMALL, INITIAL.(rows := [ROW]), Arrive(ROW), INITIAL.(rows := [ROW, ROW]));
    Goes(SMALL, INITIAL.(rows := [ROW, ROW]), Arrive(ROW), INITIAL.(rows := ROWS3));
    Goes(SMALL, INITIAL.(rows := ROWS3), HoldMessage(2), J3);
    Goes(SMALL, J3, AdmitMessage(0), J4);
    Goes(SMALL, J4, AdmitMessage(1), J5);
    Goes(SMALL, J5, FireJudgeTimer(0, 1, 7), J6);
    Goes(SMALL, J6, JudgeAdmits(7), J7);
    Goes(SMALL, J7, FireTurnTimer(0, 2, 8), J8);
    Goes(SMALL, J8, ClaimCommits(8), J9);
    Goes(SMALL, J9, RowChanges(1, ANSWERED), J10);
    Goes(SMALL, J10, TurnAnswers(8), J11);
    Goes(SMALL, J11, EndOfTurn(8), J12);
    Goes(SMALL, J12, ReadPage(8), J13);
    Goes(SMALL, J13, EndOfRefill(8), J14);
    Goes(SMALL, J14, EndOfJudgment(7), J15);
  }

  // ---- Admitted again while its turn runs ------------------------------------------------

  const PLAIN := Config(Limits(256, 256), false)
  const SELF := ROW.(state := BATCHED)

  const P1 := EMPTY.(pending := [0], timerSeq := 1, timer := Some(Quiet))
  const P2 := P1.(pending := [], timer := None, running := true)
  const P3 := P2.(pending := [0])
  const P5 := P3.(pending := [0, 0], running := false, retries := 1, timerSeq := 2, timer := Some(RetryPause))
  const P6 := P5.(pending := [], running := true, timer := None)
  const P9 := P6.(pending := [0], running := false, retries := 2, timerSeq := 3, timer := Some(RetryPause))
  const P10 := P9.(pending := [], running := true, timer := None)
  const P12 := P10.(running := false, retries := 0)

  const R0 := INITIAL.(rows := [ROW])
  const R1 := R0.(chats := map[0 := 0], objects := [IDLE.(queue := P1, turnTimers := {1})], admitted := {0})
  const R2 := R1.(objects := [IDLE.(queue := P2, runner := 7)], tasks := map[7 := Claiming(0, [0])])
  const R3 := R2.(objects := [IDLE.(queue := P3, runner := 7)], readmitted := {0})
  const R4 := R3.(tasks := map[7 := TurnOver(0, [0], [], [0], true)])
  const R5 := R4.(objects := [IDLE.(queue := P5, runner := 7, turnTimers := {2})], tasks := map[])
  const R6 := R5.(objects := [IDLE.(queue := P6, runner := 7)], tasks := map[7 := Claiming(0, [0, 0])])
  const R7 := R6.(rows := [SELF], into := map[0 := 0], tasks := map[7 := Answering(0, [0, 0], 0, [])])
  const R8 := R7.(tasks := map[7 := TurnOver(0, [0, 0], [], [0], true)])
  const R9 := R8.(objects := [IDLE.(queue := P9, runner := 7, turnTimers := {3})], tasks := map[])
  const R10 := R9.(objects := [IDLE.(queue := P10, runner := 7)], tasks := map[7 := Claiming(0, [0])])
  const R11 := R10.(tasks := map[7 := TurnOver(0, [0], [], [], false)])
  const R12 := R11.(objects := [IDLE.(queue := P12, runner := 7)], tasks := map[], chats := map[])

  lemma AdmittedTwice()
    ensures AdmitStep(PLAIN, R0, 0, 0) == R1
    ensures TurnTimerStep(PLAIN, R1, 0, 1, 7) == R2
    ensures AdmitStep(PLAIN, R2, 0, 0) == R3
  {
    assert Admit(EMPTY, 0, PLAIN.limits, true) == P1;
    assert PutQueue(IDLE, P1) == IDLE.(queue := P1, turnTimers := {1});
    assert [0][..1] == [0] && [0][1..] == [] && {1} - {1} == {};
    assert OnTimer(P1, 1, PLAIN.limits, true) == (P2, Start([0]));
    assert PutQueue(R1.objects[0].(turnTimers := {}), P2).(runner := 7) == R2.objects[0];
    assert Admit(P2, 0, PLAIN.limits, true) == P3;
    assert PutQueue(R2.objects[0], P3) == R3.objects[0];
  }

  lemma RetryWaits()
    ensures EndOfTurnStep(R4, 7) == R5
  {
    assert FinishTurn(P3, [], [0], true, true) == (P5, Keep) by {
      assert [0] + [] + [0] == [0, 0];
    }
    assert PutQueue(R4.objects[0], P5) == R5.objects[0];
    assert R4.tasks - {7} == map[] && R4.excused + {} == {};
  }

  lemma RetriedTogether()
    ensures TurnTimerStep(PLAIN, R5, 0, 2, 7) == R6
  {
    assert [0, 0][..2] == [0, 0] && [0, 0][2..] == [] && {2} - {2} == {};
    assert OnTimer(P5, 2, PLAIN.limits, true) == (P6, Start([0, 0]));
    assert PutQueue(R5.objects[0].(turnTimers := {}), P6).(runner := 7) == R6.objects[0];
  }

  lemma ClaimedIntoItself()
    ensures Claim([ROW], map[], [0, 0]) == Claimed([0, 0], [], [SELF])
  {
    PairInOrder();
    var batch := [0, 0];
    assert !SpansChats([ROW], batch) && InRange([ROW], batch);
    assert ScanFrom([ROW], None, batch, 2, [0, 0]) == Scanned([ROW], [0, 0], 2);
    assert [0] + [0] == [0, 0] && [] + [0] == [0];
    assert ScanFrom([ROW], None, batch, 1, [0]) == Scanned([ROW], [0, 0], 2);
    assert ScanFrom([ROW], None, batch, 0, []) == Scanned([ROW], [0, 0], 2);
    assert AllButLast([0, 0]) == [0] && [0][1..] == [] && batch[2..] == [];
    assert [ROW][0 := SELF] == [SELF];
    assert MarkBatched([SELF], []) == Some([SELF]);
    assert MarkBatched([ROW], [0]) == Some([SELF]);
  }

  lemma ClaimedNoMore()
    ensures Claim([SELF], map[], [0]) == Claimed([], [], [SELF])
  {
    PairInOrder();
    assert !SpansChats([SELF], [0]) && InRange([SELF], [0]);
    assert ScanFrom([SELF], None, [0], 1, []) == Scanned([SELF], [], 1);
    assert ScanFrom([SELF], None, [0], 0, []) == Scanned([SELF], [], 1);
  }

  lemma RetriedAlone()
    ensures EndOfTurnStep(R8, 7) == R9
    ensures TurnTimerStep(PLAIN, R9, 0, 3, 7) == R10
  {
    assert FinishTurn(P6, [], [0], true, true) == (P9, Keep) by {
      assert [0] + [] + [] == [0];
    }
    assert PutQueue(R8.objects[0], P9) == R9.objects[0];
    assert R8.tasks - {7} == map[] && R8.excused + {} == {};
    assert [0][..1] == [0] && [0][1..] == [] && {3} - {3} == {};
    assert OnTimer(P9, 3, PLAIN.limits, true) == (P10, Start([0]));
    assert PutQueue(R9.objects[0].(turnTimers := {}), P10).(runner := 7) == R10.objects[0];
  }

  lemma GivenUp()
    ensures EndOfTurnStep(R11, 7) == R12
  {
    assert FinishTurn(P10, [], [], false, true) == (P12, Forget);
    assert PutQueue(R10.objects[0], P12) == R12.objects[0];
    assert R11.chats - {0} == map[] && R11.tasks - {7} == map[];
  }

  lemma ReadmissionSteps()
    ensures StepsTo(PLAIN, INITIAL, Arrive(ROW), R0) && StepsTo(PLAIN, R0, AdmitMessage(0), R1)
    ensures StepsTo(PLAIN, R1, FireTurnTimer(0, 1, 7), R2) && StepsTo(PLAIN, R2, AdmitMessage(0), R3)
  {
    AdmittedTwice();
    hide AdmitStep, TurnTimerStep;
    assert [] + [ROW] == [ROW];
  }

  lemma RetrySteps()
    ensures StepsTo(PLAIN, R3, ClaimFails(7), R4) && StepsTo(PLAIN, R4, EndOfTurn(7), R5)
    ensures StepsTo(PLAIN, R5, FireTurnTimer(0, 2, 7), R6)
  {
    RetryWaits();
    RetriedTogether();
    hide TurnTimerStep, EndOfTurnStep;
    assert R3.tasks[7 := TurnOver(0, [0], [], [0], true)] == R4.tasks;
  }

  lemma SelfBatchClaims()
    ensures ClaimStep(R6, 7) == R7 && ClaimStep(R10, 7) == R11
  {
    ClaimedIntoItself();
    ClaimedNoMore();
    hide Claim;
    assert AllButLast([0, 0]) == [0];
    assert PartsOf([0, 0]) == map[0 := 0] && map[] + map[0 := 0] == map[0 := 0];
    assert PartsOf([]) == map[] && map[0 := 0] + map[] == map[0 := 0];
    assert R6.tasks[7 := Answering(0, [0, 0], 0, [])] == R7.tasks;
    assert R10.tasks[7 := TurnOver(0, [0], [], [], false)] == R11.tasks;
  }

  lemma SelfBatchSteps()
    ensures StepsTo(PLAIN, R6, ClaimCommits(7), R7) && StepsTo(PLAIN, R7, TurnFails(7), R8)
    ensures StepsTo(PLAIN, R8, EndOfTurn(7), R9) && StepsTo(PLAIN, R9, FireTurnTimer(0, 3, 7), R10)
    ensures StepsTo(PLAIN, R10, ClaimCommits(7), R11) && StepsTo(PLAIN, R11, EndOfTurn(7), R12)
  {
    SelfBatchClaims();
    RetriedAlone();
    GivenUp();
    hide TurnTimerStep, EndOfTurnStep, ClaimStep;
    assert R7.tasks[7 := TurnOver(0, [0, 0], [], [0], true)] == R8.tasks;
  }

  lemma SelfBatchIsLost()
    ensures AtRest(R12) && Due(R12, 0) && !NoLoss(R12)
  {
    assert BatchedIntoItself(R12, 0);
    SelfBatchedIsLost(R12, 0);
  }

  /** A message admitted again while its turn runs is claimed twice by the retry and recorded
      as part of itself: when that turn fails too, the next claim finds nothing to answer.
      The inbox then holds one message, recorded as batched, and no turn was ever answered. */
  lemma ReadmittedMessageIsLost()
    ensures ValidConfig(PLAIN) && Reachable(PLAIN, R12)
    ensures AtRest(R12) && Due(R12, 0) && !NoLoss(R12)
    ensures R12.rows == [ROW.(state := BATCHED)] && R12.into == map[0 := 0]
  {
    StartsReachable(PLAIN);
    ReadmissionSteps();
    RetrySteps();
    SelfBatchSteps();
    SelfBatchIsLost();
    hide StepsTo, Reachable, AtRest, Due, NoLoss;
    Goes(PLAIN, INITIAL, Arrive(ROW), R0);
    Goes(PLAIN, R0, AdmitMessage(0), R1);
    Goes(PLAIN, R1, FireTurnTimer(0, 1, 7), R2);
    Goes(PLAIN, R2, AdmitMessage(0), R3);
    Goes(PLAIN, R3, ClaimFails(7), R4);
    Goes(PLAIN, R4, EndOfTurn(7), R5);
    Goes(PLAIN, R5, FireTurnTimer(0, 2, 7), R6);
    Goes(PLAIN, R6, ClaimCommits(7), R7);
    Goes(PLAIN, R7, TurnFails(7), R8);
    Goes(PLAIN, R8, EndOfTurn(7), R9);
    Goes(PLAIN, R9, FireTurnTimer(0, 3, 7), R10);
    Goes(PLAIN, R10, ClaimCommits(7), R11);
    Goes(PLAIN, R11, EndOfTurn(7), R12);
  }

  // ---- Repeated before another message -----------------------------------------------------

  const T4 := P3.(pending := [0, 1])
  const T6 := T4.(pending := [0, 0, 1], running := false, retries := 1, timerSeq := 2, timer := Some(RetryPause))
  const T7 := T6.(pending := [], running := true, timer := None)
  const T9 := T7.(pending := [0, 0, 1], running := false, retries := 2, timerSeq := 3, timer := Some(RetryPause))
  const T10 := T9.(pending := [], running := true, timer := None)
  const T12 := T10.(running := false, retries := 0)

  const K0 := INITIAL.(rows := [ROW, ROW])
  const K1 := K0.(chats := map[0 := 0], objects := [IDLE.(queue := P1, turnTimers := {1})], admitted := {0})
  const K2 := K1.(objects := [IDLE.(queue := P2, runner := 7)], tasks := map[7 := Claiming(0, [0])])
  const K3 := K2.(objects := [IDLE.(queue := P3, runner := 7)], readmitted := {0})
  const K4 := K3.(objects := [IDLE.(queue := T4, runner := 7)], admitted := {0, 1})
  const K5 := K4.(tasks := map[7 := TurnOver(0, [0], [], [0], true)])
  const K6 := K5.(objects := [IDLE.(queue := T6, runner := 7, turnTimers := {2})], tasks := map[])
  const K7 := K6.(objects := [IDLE.(queue := T7, runner := 7)], tasks := map[7 := Claiming(0, [0, 0, 1])])
  const K8 := K7.(tasks := map[7 := TurnOver(0, [0, 0, 1], [], [0, 0, 1], true)])
  const K9 := K8.(objects := [IDLE.(queue := T9, runner := 7, turnTimers := {3})], tasks := map[])
  const K10 := K9.(objects := [IDLE.(queue := T10, runner := 7)], tasks := map[7 := Claiming(0, [0, 0, 1])])
  const K11 := K10.(tasks := map[7 := TurnOver(0, [0, 0, 1], [], [0, 0, 1], true)])
  const K12 := K11.(objects := [IDLE.(queue := T12, runner := 7)], tasks := map[], chats := map[], excused := {0, 1})

  lemma BothAdmitted()
    ensures AdmitStep(PLAIN, K0, 0, 0) == K1
    ensures TurnTimerStep(PLAIN, K1, 0, 1, 7) == K2
  {
    assert Admit(EMPTY, 0, PLAIN.limits, true) == P1;
    assert PutQueue(IDLE, P1) == IDLE.(queue := P1, turnTimers := {1});
    assert [0][..1] == [0] && [0][1..] == [] && {1} - {1} == {};
    assert OnTimer(P1, 1, PLAIN.limits, true) == (P2, Start([0]));
    assert PutQueue(K1.objects[0].(turnTimers := {}), P2).(runner := 7) == K2.objects[0];
  }

  lemma OneReadmitted()
    ensures AdmitStep(PLAIN, K2, 0, 0) == K3
    ensures AdmitStep(PLAIN, K3, 0, 1) == K4
  {
    assert Admit(P2, 0, PLAIN.limits, true) == P3;
    assert PutQueue(K2.objects[0], P3) == K3.objects[0];
    assert Admit(P3, 1, PLAIN.limits, true) == T4;
    assert PutQueue(K3.objects[0], T4) == K4.objects[0];
  }

  lemma AllRequeued()
    ensures EndOfTurnStep(K5, 7) == K6
  {
    assert FinishTurn(T4, [], [0], true, true) == (T6, Keep) by {
      assert [0] + [] + [0, 1] == [0, 0, 1];
    }
    assert PutQueue(K5.objects[0], T6) == K6.objects[0];
    assert K5.tasks - {7} == map[] && K5.excused + {} == {};
  }

  lemma RequeuedTogether()
    ensures TurnTimerStep(PLAIN, K6, 0, 2, 7) == K7
  {
    assert [0, 0, 1][..3] == [0, 0, 1] && [0, 0, 1][3..] == [] && {2} - {2} == {};
    assert OnTimer(T6, 2, PLAIN.limits, true) == (T7, Start([0, 0, 1]));
    assert PutQueue(K6.objects[0].(turnTimers := {}), T7).(runner := 7) == K7.objects[0];
  }

  lemma ClaimConflicts()
    ensures Claim([ROW, ROW], map[], [0, 0, 1]) == Rejected(Conflict)
  {
    var rows, batch := [ROW, ROW], [0, 0, 1];
    assert multiset(batch)[0] == 2;
    assert Joins(rows, None, batch, 0) && Joins(rows, None, batch, 1) && !JoinsLast(rows, None, batch, 0);
    assert InRange(rows, batch) && !SpansChats(rows, batch) && AllKnown(rows, None, batch);
    assert RepeatsBefore(rows, None, batch);
    hide Claim, RepeatsBefore, AllKnown;
    ClaimOfRepeats(rows, map[], batch);
  }

  lemma ClaimFailsTwice()
    ensures ClaimStep(K7, 7) == K8 && ClaimStep(K10, 7) == K11
  {
    ClaimConflicts();
    hide Claim;
    assert K7.tasks[7 := TurnOver(0, [0, 0, 1], [], [0, 0, 1], true)] == K8.tasks;
    assert K10.tasks[7 := TurnOver(0, [0, 0, 1], [], [0, 0, 1], true)] == K11.tasks;
  }

  lemma RetriedOnceMore()
    ensures EndOfTurnStep(K8, 7) == K9
    ensures TurnTimerStep(PLAIN, K9, 0, 3, 7) == K10
  {
    assert FinishTurn(T7, [], [0, 0, 1], true, true) == (T9, Keep) by {
      assert [0, 0, 1] + [] + [] == [0, 0, 1];
    }
    assert PutQueue(K8.objects[0], T9) == K9.objects[0];
    assert K8.tasks - {7} == map[] && K8.excused + {} == {};
    assert [0, 0, 1][..3] == [0, 0, 1] && [0, 0, 1][3..] == [] && {3} - {3} == {};
    assert OnTimer(T9, 3, PLAIN.limits, true) == (T10, Start([0, 0, 1]));
    assert PutQueue(K9.objects[0].(turnTimers := {}), T10).(runner := 7) == K10.objects[0];
  }

  lemma BothGivenUp()
    ensures EndOfTurnStep(K11, 7) == K12
  {
    assert FinishTurn(T10, [], [0, 0, 1], true, true) == (T12, Forget);
    assert PutQueue(K10.objects[0], T12) == K12.objects[0];
    assert (set m | m in [0, 0, 1]) == {0, 1};
    assert {} + {0, 1} == {0, 1};
    assert K11.chats - {0} == map[] && K11.tasks - {7} == map[];
  }

  lemma RepeatSteps()
    ensures StepsTo(PLAIN, INITIAL, Arrive(ROW), R0) && StepsTo(PLAIN, R0, Arrive(ROW), K0)
    ensures StepsTo(PLAIN, K0, AdmitMessage(0), K1) && StepsTo(PLAIN, K1, FireTurnTimer(0, 1, 7), K2)
    ensures StepsTo(PLAIN, K2, AdmitMessage(0), K3) && StepsTo(PLAIN, K3, AdmitMessage(1), K4)
  {
    BothAdmitted();
    OneReadmitted();
    hide AdmitStep, TurnTimerStep;
    assert [] + [ROW] == [ROW] && [ROW] + [ROW] == [ROW, ROW];
  }

  lemma ConflictSteps()
    ensures StepsTo(PLAIN, K4, ClaimFails(7), K5) && StepsTo(PLAIN, K5, EndOfTurn(7), K6)
    ensures StepsTo(PLAIN, K6, FireTurnTimer(0, 2, 7), K7) && StepsTo(PLAIN, K7, ClaimCommits(7), K8)
  {
    AllRequeued();
    RequeuedTogether();
    ClaimFailsTwice();
    hide TurnTimerStep, EndOfTurnStep, ClaimStep;
    assert K4.tasks[7 := TurnOver(0, [0], [], [0], true)] == K5.tasks;
  }

  lemma GiveUpSteps()
    ensures StepsTo(PLAIN, K8, EndOfTurn(7), K9) && StepsTo(PLAIN, K9, FireTurnTimer(0, 3, 7), K10)
    ensures StepsTo(PLAIN, K10, ClaimCommits(7), K11) && StepsTo(PLAIN, K11, EndOfTurn(7), K12)
  {
    ClaimFailsTwice();
    RetriedOnceMore();
    BothGivenUp();
    hide TurnTimerStep, EndOfTurnStep, ClaimStep;
  }

  /** A message admitted again, with another behind it, makes every claim of the two fail. When
      the retries run out both are given up, although only one of them was ever repeated and
      neither was looked at. The failure is reported, so this is no silent loss. */
  lemma RepeatedMessageTakesAnotherAlong()
    ensures ValidConfig(PLAIN) && Reachable(PLAIN, K12)
    ensures AtRest(K12) && K12.rows == [ROW, ROW] && K12.admitted == K12.excused == {0, 1} && K12.readmitted == {0}
  {
    StartsReachable(PLAIN);
    RepeatSteps();
    ConflictSteps();
    GiveUpSteps();
    hide StepsTo, Reachable;
    Goes(PLAIN, INITIAL, Arrive(ROW), R0);
    Goes(PLAIN, R0, Arrive(ROW), K0);
    Goes(PLAIN, K0, AdmitMessage(0), K1);
    Goes(PLAIN, K1, FireTurnTimer(0, 1, 7), K2);
    Goes(PLAIN, K2, AdmitMessage(0), K3);
    Goes(PLAIN, K3, AdmitMessage(1), K4);
    Goes(PLAIN, K4, ClaimFails(7), K5);
    Goes(PLAIN, K5, EndOfTurn(7), K6);
    Goes(PLAIN, K6, FireTurnTimer(0, 2, 7), K7);
    Goes(PLAIN, K7, ClaimCommits(7), K8);
    Goes(PLAIN, K8, EndOfTurn(7), K9);
    Goes(PLAIN, K9, FireTurnTimer(0, 3, 7), K10);
    Goes(PLAIN, K10, ClaimCommits(7), K11);
    Goes(PLAIN, K11, EndOfTurn(7), K12);
  }
}
