// One chat's queue (internal/inbound/dispatcher.go) as a value, and what each critical
// section of the dispatcher makes of it. A function here is one stretch of code under mu.
module QueueSteps {
  import opened Prelude
  import opened ClaimBatch

  const MAX_GENERATION_RETRIES: nat := 2

  /** How long a timer waits; only its being armed matters for safety. */
  datatype Delay = Quiet | Immediately | RetryPause

  datatype Limits = Limits(maxPending: nat, burstCap: nat)

  predicate ValidLimits(limits: Limits) {
    1 <= limits.maxPending && 1 <= limits.burstCap <= 256
  }

  datatype Queue = Queue(
    users: nat, pending: seq<MessageId>, overflow: bool, refilling: bool,
    timer: Option<Delay>, timerSeq: nat, running: bool, retries: nat,
    awaiting: seq<MessageId>, judging: seq<MessageId>, judgeTimer: Option<Delay>, judgeSeq: nat)

  const EMPTY: Queue := Queue(0, [], false, false, None, 0, false, 0, [], [], None, 0)

  predicate Idle(q: Queue) {
    && q.users == 0 && !q.running && q.timer == None && q.pending == []
    && q.judgeTimer == None && q.awaiting == [] && q.judging == []
  }

  predicate JudgedHere(q: Queue, m: MessageId) {
    m in q.awaiting || m in q.judging
  }

  // ---- Batch turns ---------------------------------------------------------

  function Schedule(q: Queue, delay: Delay, live: bool): Queue {
    q.(timerSeq := q.timerSeq + 1, timer := if live then Some(delay) else None)
  }

  /** The locked half of admitAI. */
  function Admit(q: Queue, m: MessageId, limits: Limits, live: bool): Queue {
    if m in q.pending then q
    else if q.overflow || q.refilling || |q.pending| >= limits.maxPending then q.(overflow := true)
    else
      var queued := q.(pending := q.pending + [m]);
      if queued.running then queued
      else Schedule(queued, if |queued.pending| >= limits.burstCap then Immediately else Quiet, live)
  }

  /** What a fired timer callback does: nothing, clean up, or start work on a batch. */
  datatype Fired = Stale | Nothing | Start(batch: seq<MessageId>)

  function Min(a: nat, b: nat): nat { if a <= b then a else b }

  function OnTimer(q: Queue, seqNo: nat, limits: Limits, live: bool): (Queue, Fired) {
    if seqNo != q.timerSeq then (q, Stale)
    else
      var fired := q.(timer := None);
      if q.running || q.pending == [] || !live then (fired, Nothing)
      else
        var size := Min(|q.pending|, limits.burstCap);
        (fired.(pending := q.pending[size..], running := true), Start(q.pending[..size]))
  }

  /** What happens after a critical section that may leave the queue without work. */
  datatype After = Keep | Forget | StartRefill

  function Refill(q: Queue): Queue {
    q.(running := true, refilling := true)
  }

  predicate Retries(q: Queue, redo: seq<MessageId>, failed: bool, live: bool) {
    failed && redo != [] && live && q.retries < MAX_GENERATION_RETRIES
  }

  function Requeue(q: Queue, rest: seq<MessageId>, redo: seq<MessageId>, failed: bool, live: bool): seq<MessageId> {
    if Retries(q, redo, failed, live) then redo + rest else rest
  }

  /** The end of a turn: what the claim did not consume, and a failed turn's messages while
      retries last, go back to the front. */
  function FinishTurn(q: Queue, rest: seq<MessageId>, redo: seq<MessageId>, failed: bool, live: bool): (Queue, After) {
    var retry := Retries(q, redo, failed, live);
    var done := q.(running := false, retries := if retry then q.retries + 1 else 0,
                   pending := Requeue(q, rest, redo, failed, live) + q.pending);
    if done.pending == [] && done.overflow && live then (Refill(done.(overflow := false)), StartRefill)
    else if done.pending != [] then (Schedule(done, if retry then RetryPause else Immediately, live), Keep)
    else (done, Forget)
  }

  /** The messages of an inbox page that join the queue: commands run on their own path and
      held messages wait for the judge. */
  function Queueable(q: Queue, rows: seq<Row>, page: seq<MessageId>): seq<MessageId> {
    if page == [] then []
    else
      (if (page[0] < |rows| && rows[page[0]].command) || JudgedHere(q, page[0]) then [] else [page[0]])
      + Queueable(q, rows, page[1..])
  }

  /** The end of an inbox read. */
  function FinishRefill(q: Queue, rows: seq<Row>, page: seq<MessageId>, failed: bool, limits: Limits, live: bool): (Queue, After) {
    var missed := q.overflow;
    var full := |page| == limits.maxPending;
    var done := q.(running := false, refilling := false, overflow := full,
                   pending := q.pending + Queueable(q, rows, page));
    if done.pending != [] then (Schedule(done.(overflow := full || missed), Immediately, live), Keep)
    else if failed || !live then (done.(overflow := false), Forget)
    else if missed || (full && q.users == 0) then (Refill(done), StartRefill)
    else if full then (done, Keep)
    else (done, Forget)
  }

  // ---- Commands ------------------------------------------------------------

  function BeginCommand(q: Queue): Queue {
    q.(users := q.users + 1)
  }

  function EndCommand(q: Queue, live: bool): (Queue, After)
    requires q.users > 0
  {
    var done := q.(users := q.users - 1);
    if done.overflow && done.users == 0 && !done.running && done.timer == None && done.pending == [] && live
    then (Refill(done), StartRefill)
    else (done, Forget)
  }

  // ---- The smart-trigger judge ---------------------------------------------

  function ScheduleJudgment(q: Queue, limits: Limits, live: bool): Queue {
    q.(judgeSeq := q.judgeSeq + 1,
       judgeTimer := if !live then None
                     else if |q.awaiting| >= limits.burstCap then Some(Immediately) else Some(Quiet))
  }

  function AwaitJudgment(q: Queue, m: MessageId, limits: Limits, live: bool): Queue {
    if JudgedHere(q, m) then q
    else
      var held := q.(awaiting := q.awaiting + [m]);
      if held.judging == [] then ScheduleJudgment(held, limits, live) else held
  }

  function OnJudgeTimer(q: Queue, seqNo: nat, live: bool): (Queue, Fired) {
    if seqNo != q.judgeSeq then (q, Stale)
    else
      var fired := q.(judgeTimer := None);
      if q.judging != [] || q.awaiting == [] || !live then (fired, Nothing)
      else (fired.(judging := q.awaiting, awaiting := []), Start(q.awaiting))
  }

  function FinishJudgment(q: Queue, limits: Limits, live: bool): (Queue, After) {
    var done := q.(judging := []);
    if done.awaiting != [] then (ScheduleJudgment(done, limits, live), Keep) else (done, Forget)
  }

  /** Shutdown stops both timers. */
  function Stopped(q: Queue): Queue {
    q.(timer := None, judgeTimer := None)
  }
}
