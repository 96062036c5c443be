// The inbound dispatcher's objects (internal/inbound/dispatcher.go). Each method is one
// critical section under mu and is proved to do what its QueueSteps function says; timers
// and goroutines are driven from outside, so a method returns what it armed or started.
module InboundDispatcher {
  import opened Prelude
  import opened ClaimBatch
  import opened QueueSteps

  class ChatQueue {
    var users: nat
    var pending: seq<MessageId>
    var overflow: bool
    var refilling: bool
    var timer: Option<Delay>
    var timerSeq: nat
    var running: bool
    var retries: nat
    var awaiting: seq<MessageId>
    var judging: seq<MessageId>
    var judgeTimer: Option<Delay>
    var judgeSeq: nat

    constructor ()
      ensures View() == EMPTY
    {
      users, pending, overflow, refilling := 0, [], false, false;
      timer, timerSeq, running, retries := None, 0, false, 0;
      awaiting, judging, judgeTimer, judgeSeq := [], [], None, 0;
    }

    function View(): Queue
      reads this
    {
      Queue(users, pending, overflow, refilling, timer, timerSeq, running, retries, awaiting, judging, judgeTimer, judgeSeq)
    }

    /** Reports whether m is waiting for or under judgment. */
    method HoldsForJudge(m: MessageId) returns (held: bool)
      ensures held == JudgedHere(View(), m)
    {
      var lists := [awaiting, judging];
      for outer := 0 to 2
        invariant m !in (if outer > 0 then awaiting else []) && m !in (if outer > 1 then judging else [])
      {
        for inner := 0 to |lists[outer]|
          invariant m !in lists[outer][..inner]
        {
          if lists[outer][inner] == m {
            return true;
          }
        }
      }
      return false;
    }
  }

  class Dispatcher {
    var chats: map<Chat, ChatQueue>
    var live: bool
    const limits: Limits

    constructor (limits: Limits)
      ensures chats == map[] && live && this.limits == limits
    {
      this.limits := limits;
      chats, live := map[], true;
    }

    /** The queue a chat has, or would start with. */
    function ViewOf(key: Chat): Queue
      reads this, if key in chats then {chats[key]} else {}
    {
      if key in chats then chats[key].View() else EMPTY
    }

    /** Returns the chat's queue, creating it. */
    method Chat(key: Chat) returns (queue: ChatQueue)
      modifies this`chats
      ensures chats == old(chats)[key := queue]
      ensures if key in old(chats) then queue == old(chats)[key] else fresh(queue) && queue.View() == EMPTY
    {
      if key in chats {
        queue := chats[key];
      } else {
        queue := new ChatQueue();
        chats := chats[key := queue];
      }
    }

    /** Unmaps a chat without work, unless a newer queue has taken its place. */
    method ForgetIfIdle(key: Chat, queue: ChatQueue)
      modifies this`chats
      ensures chats == Forgotten(old(chats), key, queue, queue.View())
    {
      if Idle(queue.View()) && key in chats && chats[key] == queue {
        chats := chats - {key};
      }
    }

    method Schedule(queue: ChatQueue, delay: Delay)
      modifies queue
      ensures queue.View() == QueueSteps.Schedule(old(queue.View()), delay, live)
    {
      queue.timerSeq := queue.timerSeq + 1;
      if !live {
        queue.timer := None;
        return;
      }
      queue.timer := Some(delay);
    }

    /** Queues an authorized message for the chat's next turn. */
    method AdmitAI(key: Chat, message: MessageId) returns (queue: ChatQueue)
      modifies this`chats, if key in chats then {chats[key]} else {}
      ensures chats == old(chats)[key := queue]
      ensures if key in old(chats) then queue == old(chats)[key] else fresh(queue)
      ensures queue.View() == Admit(old(ViewOf(key)), message, limits, live)
    {
      queue := Chat(key);
      for index := 0 to |queue.pending|
        invariant message !in queue.pending[..index]
      {
        if queue.pending[index] == message {
          return;
        }
      }
      if queue.overflow || queue.refilling || |queue.pending| >= limits.maxPending {
        queue.overflow := true;
        return;
      }
      queue.pending := queue.pending + [message];
      if !queue.running {
        Schedule(queue, if |queue.pending| >= limits.burstCap then Immediately else Quiet);
      }
    }

    /** A fired batch timer: takes the next batch, or cleans up. */
    method StartTurn(key: Chat, queue: ChatQueue, seqNo: nat) returns (fired: Fired)
      modifies this`chats, queue
      ensures (queue.View(), fired) == OnTimer(old(queue.View()), seqNo, limits, live)
      ensures chats == if fired == Nothing then Forgotten(old(chats), key, queue, queue.View()) else old(chats)
    {
      if seqNo != queue.timerSeq {
        return Stale;
      }
      queue.timer := None;
      if queue.running || |queue.pending| == 0 || !live {
        ForgetIfIdle(key, queue);
        return Nothing;
      }
      var size := Min(|queue.pending|, limits.burstCap);
      var batch := queue.pending[..size];
      queue.pending := queue.pending[size..];
      queue.running := true;
      return Start(batch);
    }

    /** The end of a turn's goroutine: requeue, retry, refill, or forget. */
    method EndTurn(key: Chat, queue: ChatQueue, rest: seq<MessageId>, redo: seq<MessageId>, failed: bool) returns (after: After)
      modifies this`chats, queue
      ensures (queue.View(), after) == FinishTurn(old(queue.View()), rest, redo, failed, live)
      ensures chats == if after == Forget then Forgotten(old(chats), key, queue, queue.View()) else old(chats)
    {
      queue.running := false;
      var requeue := rest;
      var retry := failed && |redo| > 0 && live && queue.retries < MAX_GENERATION_RETRIES;
      if retry {
        queue.retries := queue.retries + 1;
        requeue := redo + requeue;
      } else {
        queue.retries := 0;
      }
      queue.pending := requeue + queue.pending;
      if |queue.pending| == 0 && queue.overflow && live {
        queue.overflow := false;
        BeginRefill(queue);
        return StartRefill;
      }
      if |queue.pending| > 0 {
        Schedule(queue, if retry then RetryPause else Immediately);
        return Keep;
      }
      ForgetIfIdle(key, queue);
      return Forget;
    }

    method BeginRefill(queue: ChatQueue)
      modifies queue
      ensures queue.View() == Refill(old(queue.View()))
    {
      queue.running := true;
      queue.refilling := true;
    }

    /** The end of a refill's goroutine, with the page it read from the inbox. */
    method EndRefill(key: Chat, queue: ChatQueue, rows: seq<Row>, page: seq<MessageId>, failed: bool) returns (after: After)
      modifies this`chats, queue
      ensures (queue.View(), after) == FinishRefill(old(queue.View()), rows, page, failed, limits, live)
      ensures chats == if after == Forget then Forgotten(old(chats), key, queue, queue.View()) else old(chats)
    {
      ghost var before := queue.View();
      queue.running := false;
      queue.refilling := false;
      var missed := queue.overflow;
      queue.overflow := |page| == limits.maxPending;
      for index := 0 to |page|
        invariant chats == old(chats)
        invariant queue.View() == before.(running := false, refilling := false, overflow := |page| == limits.maxPending,
                                          pending := queue.pending)
        invariant queue.pending + Queueable(before, rows, page[index..]) == before.pending + Queueable(before, rows, page)
      {
        assert page[index..][0] == page[index] && page[index..][1..] == page[index + 1..];
        var judged := queue.HoldsForJudge(page[index]);
        if (page[index] < |rows| && rows[page[index]].command) || judged {
          continue;
        }
        queue.pending := queue.pending + [page[index]];
      }
      assert page[|page|..] == [];
      assert queue.pending == before.pending + Queueable(before, rows, page);
      hide Queueable;
      if |queue.pending| > 0 {
        queue.overflow := queue.overflow || missed;
        Schedule(queue, Immediately);
        return Keep;
      }
      if failed || !live {
        queue.overflow := false;
      } else if missed || (queue.overflow && queue.users == 0) {
        BeginRefill(queue);
        return StartRefill;
      } else if queue.overflow {
        return Keep; // the last of the running commands reads the inbox again
      }
      ForgetIfIdle(key, queue);
      return Forget;
    }

    method EnterCommand(key: Chat) returns (queue: ChatQueue)
      modifies this`chats, if key in chats then {chats[key]} else {}
      ensures chats == old(chats)[key := queue]
      ensures if key in old(chats) then queue == old(chats)[key] else fresh(queue)
      ensures queue.View() == BeginCommand(old(ViewOf(key)))
    {
      queue := Chat(key);
      queue.users := queue.users + 1;
    }

    method LeaveCommand(key: Chat, queue: ChatQueue) returns (after: After)
      requires queue.users > 0
      modifies this`chats, queue
      ensures (queue.View(), after) == EndCommand(old(queue.View()), live)
      ensures chats == if after == Forget then Forgotten(old(chats), key, queue, queue.View()) else old(chats)
    {
      queue.users := queue.users - 1;
      if queue.overflow && queue.users == 0 && !queue.running && queue.timer == None && |queue.pending| == 0 && live {
        BeginRefill(queue);
        return StartRefill;
      }
      ForgetIfIdle(key, queue);
      return Forget;
    }

    method ScheduleJudgment(queue: ChatQueue)
      modifies queue
      ensures queue.View() == QueueSteps.ScheduleJudgment(old(queue.View()), limits, live)
    {
      queue.judgeSeq := queue.judgeSeq + 1;
      if !live {
        queue.judgeTimer := None;
        return;
      }
      queue.judgeTimer := Some(if |queue.awaiting| >= limits.burstCap then Immediately else Quiet);
    }

    /** Puts a message before the judge, once, and starts the quiet period anew. */
    method AwaitJudgment(key: Chat, message: MessageId) returns (queue: ChatQueue)
      modifies this`chats, if key in chats then {chats[key]} else {}
      ensures chats == old(chats)[key := queue]
      ensures if key in old(chats) then queue == old(chats)[key] else fresh(queue)
      ensures queue.View() == QueueSteps.AwaitJudgment(old(ViewOf(key)), message, limits, live)
    {
      queue := Chat(key);
      var held := queue.HoldsForJudge(message);
      if held {
        return;
      }
      queue.awaiting := queue.awaiting + [message];
      if |queue.judging| == 0 {
        ScheduleJudgment(queue);
      }
    }

    method StartJudgment(key: Chat, queue: ChatQueue, seqNo: nat) returns (fired: Fired)
      modifies this`chats, queue
      ensures (queue.View(), fired) == OnJudgeTimer(old(queue.View()), seqNo, live)
      ensures chats == if fired == Nothing then Forgotten(old(chats), key, queue, queue.View()) else old(chats)
    {
      if seqNo != queue.judgeSeq {
        return Stale;
      }
      queue.judgeTimer := None;
      if |queue.judging| > 0 || |queue.awaiting| == 0 || !live {
        ForgetIfIdle(key, queue);
        return Nothing;
      }
      queue.judging, queue.awaiting := queue.awaiting, [];
      return Start(queue.judging);
    }

    method EndJudgment(key: Chat, queue: ChatQueue) returns (after: After)
      modifies this`chats, queue
      ensures (queue.View(), after) == FinishJudgment(old(queue.View()), limits, live)
      ensures chats == if after == Forget then Forgotten(old(chats), key, queue, queue.View()) else old(chats)
    {
      queue.judging := [];
      if |queue.awaiting| > 0 {
        ScheduleJudgment(queue);
        return Keep;
      }
      ForgetIfIdle(key, queue);
      return Forget;
    }
  }

  function Forgotten(chats: map<Chat, ChatQueue>, key: Chat, queue: ChatQueue, view: Queue): map<Chat, ChatQueue> {
    if Idle(view) && key in chats && chats[key] == queue then chats - {key} else chats
  }
}
