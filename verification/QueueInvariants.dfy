// What every critical section keeps true of one queue object on its own.
module QueueInvariants {
  import opened Prelude
  import opened ClaimBatch
  import opened QueueSteps

  /** Waiting work always has something that will pick it up, as long as the dispatcher is live. */
  ghost predicate QueueOk(q: Queue, live: bool) {
    && (q.timer.Some? ==> q.pending != [] && !q.running)
    && (live && q.pending != [] ==> q.timer.Some? || q.running)
    && (live && q.overflow ==> q.timer.Some? || q.running || q.users > 0)
    && (q.refilling ==> q.running && q.pending == [])
    && (q.judgeTimer.Some? ==> q.awaiting != [] && q.judging == [])
    && (live && q.awaiting != [] ==> q.judgeTimer.Some? || q.judging != [])
    && q.retries <= MAX_GENERATION_RETRIES
  }

  lemma AdmitKeepsOk(q: Queue, m: MessageId, limits: Limits, live: bool)
    requires QueueOk(q, live) && ValidLimits(limits)
    ensures QueueOk(Admit(q, m, limits, live), live)
  {
  }

  lemma OnTimerKeepsOk(q: Queue, seqNo: nat, limits: Limits, live: bool)
    requires QueueOk(q, live) && ValidLimits(limits)
    ensures QueueOk(OnTimer(q, seqNo, limits, live).0, live)
    ensures live && seqNo == q.timerSeq && q.timer.Some? ==> OnTimer(q, seqNo, limits, live).1.Start?
  {
  }

  lemma FinishTurnKeepsOk(q: Queue, rest: seq<MessageId>, redo: seq<MessageId>, failed: bool, live: bool)
    requires QueueOk(q, live) && q.running && !q.refilling
    ensures QueueOk(FinishTurn(q, rest, redo, failed, live).0, live)
    ensures FinishTurn(q, rest, redo, failed, live).1 == StartRefill
            <==> FinishTurn(q, rest, redo, failed, live).0.running
  {
  }

  lemma FinishRefillKeepsOk(q: Queue, rows: seq<Row>, page: seq<MessageId>, failed: bool, limits: Limits, live: bool)
    requires QueueOk(q, live) && q.refilling && ValidLimits(limits)
    ensures QueueOk(FinishRefill(q, rows, page, failed, limits, live).0, live)
    ensures FinishRefill(q, rows, page, failed, limits, live).1 == StartRefill
            <==> FinishRefill(q, rows, page, failed, limits, live).0.running
  {
  }

  lemma CommandsKeepOk(q: Queue, live: bool)
    requires QueueOk(q, live)
    ensures QueueOk(BeginCommand(q), live)
    ensures q.users > 0 ==> QueueOk(EndCommand(q, live).0, live)
  {
  }

  lemma JudgeKeepsOk(q: Queue, m: MessageId, seqNo: nat, limits: Limits, live: bool)
    requires QueueOk(q, live) && ValidLimits(limits)
    ensures QueueOk(AwaitJudgment(q, m, limits, live), live)
    ensures QueueOk(OnJudgeTimer(q, seqNo, live).0, live)
    ensures q.judging != [] ==> QueueOk(FinishJudgment(q, limits, live).0, live)
  {
  }
}
