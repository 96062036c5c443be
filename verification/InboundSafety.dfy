// The global invariant of the inbound dispatcher: queue objects keep their identity while
// they have work, each chat has at most one turn, judgment and command at a time, waiting
// work is always picked up, and queue memory and retries are bounded.
module InboundSafety {
  import opened Prelude
  import opened ClaimBatch
  import opened ClaimBatchProperties
  import opened QueueSteps
  import opened QueueInvariants
  import opened InboundProtocol

  type Tasks = map<nat, Task>

  /** Goroutine t works for object i. */
  ghost predicate WorksFor(tasks: Tasks, t: nat, i: nat) {
    t in tasks && tasks[t].q == i
  }

  /** How many messages the running turn of object i took from its queue. */
  ghost function InFlight(tasks: Tasks, o: Object): nat {
    if o.queue.running && o.runner in tasks && tasks[o.runner].IsTurn() then |tasks[o.runner].batch| else 0
  }

  ghost predicate TimersOk(timers: set<nat>, seqNo: nat, armed: bool, live: bool) {
    && (armed ==> seqNo in timers)
    && (forall n | n in timers :: n <= seqNo)
    && (live && seqNo in timers ==> armed)
  }

  ghost predicate ObjectOk(config: Config, live: bool, tasks: Tasks, i: nat, o: Object) {
    var q := o.queue;
    && QueueOk(q, live)
    && TimersOk(o.turnTimers, q.timerSeq, q.timer.Some?, live)
    && TimersOk(o.judgeTimers, q.judgeSeq, q.judgeTimer.Some?, live)
    && (q.running ==> WorksFor(tasks, o.runner, i) && tasks[o.runner].IsRunner() && (q.refilling <==> tasks[o.runner].IsRefill()))
    && (q.judging != [] ==> WorksFor(tasks, o.judger, i) && tasks[o.judger].IsJudge())
    && q.users == |o.members|
    && (forall t | t in o.members :: WorksFor(tasks, t, i) && tasks[t].IsCommand())
    && InFlight(tasks, o) <= config.limits.burstCap
    && |q.pending| + InFlight(tasks, o) <= config.limits.maxPending + config.limits.burstCap
    && (o.lock.Some? ==> o.lock.value in tasks && tasks[o.lock.value] == CommandRuns(i))
  }

  ghost predicate TaskOk(config: Config, o: Object, t: nat, task: Task) {
    && (task.IsRunner() ==> o.queue.running && o.runner == t)
    && (task.IsTurn() ==> |task.batch| <= config.limits.burstCap && |task.Outstanding()| <= |task.batch|)
    && (task.IsJudge() ==> task.burst != [] && o.queue.judging == task.burst && o.judger == t)
    && (task.IsCommand() ==> t in o.members)
    && (task.CommandRuns? ==> o.lock == Some(t))
    && (task.ReadOver? ==> |task.page| <= config.limits.maxPending)
  }

  /** Every object with work is the one its chat is mapped to. */
  ghost predicate MapOk(s: State) {
    && (forall k | k in s.chats :: s.chats[k] < |s.objects| && s.objects[s.chats[k]].key == k)
    && (forall i | 0 <= i < |s.objects| && !Idle(s.objects[i].queue) ::
          s.objects[i].key in s.chats && s.chats[s.objects[i].key] == i)
  }

  ghost predicate Inv(config: Config, s: State) {
    && MapOk(s)
    && (forall i | 0 <= i < |s.objects| :: ObjectOk(config, s.live, s.tasks, i, s.objects[i]))
    && (forall t | t in s.tasks :: s.tasks[t].q < |s.objects| && TaskOk(config, s.objects[s.tasks[t].q], t, s.tasks[t]))
  }

  // ---- Framing: a step touches one object and one goroutine ------------------

  /** Goroutine t of object i is the only one that may appear, change, or end. */
  ghost predicate OnlyTask(tasks: Tasks, tasks': Tasks, i: nat, t: nat) {
    && (forall u | u != t :: u in tasks <==> u in tasks')
    && (forall u | u != t && u in tasks :: tasks'[u] == tasks[u])
    && (t in tasks ==> tasks[t].q == i)
    && (t in tasks' ==> tasks'[t].q == i)
  }

  lemma SetTask(tasks: Tasks, i: nat, t: nat, task: Task)
    requires t in tasks ==> tasks[t].q == i
    requires task.q == i
    ensures OnlyTask(tasks, tasks[t := task], i, t)
    ensures OnlyTask(tasks, tasks - {t}, i, t)
    ensures OnlyTask(tasks, tasks, i, t)
  {
  }

  /** The other goroutines of the object still find what they rely on. */
  ghost predicate Compatible(o: Object, o': Object, t: nat) {
    && o'.key == o.key
    && (o.queue.running && o.runner != t ==> o'.queue.running && o'.runner == o.runner)
    && (o.queue.judging != [] && o.judger != t ==> o'.queue.judging == o.queue.judging && o'.judger == o.judger)
    && (o.lock.Some? && o.lock != Some(t) ==> o'.lock == o.lock)
    && o.members - {t} <= o'.members
  }

  lemma OtherObjectKeepsOk(config: Config, live: bool, tasks: Tasks, tasks': Tasks, i: nat, t: nat, j: nat, o: Object)
    requires OnlyTask(tasks, tasks', i, t) && j != i && ObjectOk(config, live, tasks, j, o)
    ensures ObjectOk(config, live, tasks', j, o)
  {
  }

  lemma OtherTaskKeepsOk(config: Config, o: Object, o': Object, t: nat, u: nat, task: Task)
    requires TaskOk(config, o, u, task) && u != t && Compatible(o, o', t)
    ensures TaskOk(config, o', u, task)
  {
  }

  ghost predicate Mapped(s: State, i: nat) {
    i < |s.objects| && s.objects[i].key in s.chats && s.chats[s.objects[i].key] == i
  }

  /** Object i becomes o and goroutine t changes: checking these two is enough. */
  lemma Rebuild(config: Config, s: State, i: nat, o: Object, t: nat, tasks: Tasks)
    requires Inv(config, s) && i < |s.objects| && OnlyTask(s.tasks, tasks, i, t)
    requires Compatible(s.objects[i], o, t)
    requires ObjectOk(config, s.live, tasks, i, o)
    requires t in tasks ==> TaskOk(config, o, t, tasks[t])
    requires !Idle(o.queue) ==> Mapped(s, i)
    ensures Inv(config, s.(objects := s.objects[i := o], tasks := tasks))
  {
    var objects := s.objects[i := o];
    forall j | 0 <= j < |objects| ensures ObjectOk(config, s.live, tasks, j, objects[j]) {
      if j != i {
        OtherObjectKeepsOk(config, s.live, s.tasks, tasks, i, t, j, s.objects[j]);
      }
    }
    forall u | u in tasks ensures tasks[u].q < |objects| && TaskOk(config, objects[tasks[u].q], u, tasks[u]) {
      if u != t {
        assert tasks[u] == s.tasks[u];
        if tasks[u].q == i {
          OtherTaskKeepsOk(config, s.objects[i], o, t, u, s.tasks[u]);
        }
      }
    }
  }

  lemma ForgetKeeps(config: Config, s: State, i: nat)
    requires Inv(config, s) && i < |s.objects|
    ensures Inv(config, ForgetIfIdle(s, i))
  {
  }

  /** An object some goroutine works for is the one its chat is mapped to. */
  lemma WorkerIsMapped(config: Config, s: State, t: nat)
    requires Inv(config, s) && t in s.tasks
    ensures var i := s.tasks[t].q;
            i < |s.objects| && !Idle(s.objects[i].queue) && Mapped(s, i)
            && ObjectOk(config, s.live, s.tasks, i, s.objects[i]) && TaskOk(config, s.objects[i], t, s.tasks[t])
  {
    var o := s.objects[s.tasks[t].q];
    if s.tasks[t].IsCommand() {
      assert t in o.members;
    }
  }

  // ---- What each critical section does to one object --------------------------

  lemma AdmitObject(config: Config, live: bool, tasks: Tasks, i: nat, o: Object, m: MessageId)
    requires ObjectOk(config, live, tasks, i, o) && ValidConfig(config)
    ensures ObjectOk(config, live, tasks, i, PutQueue(o, Admit(o.queue, m, config.limits, live)))
  {
    AdmitKeepsOk(o.queue, m, config.limits, live);
  }

  lemma HoldObject(config: Config, live: bool, tasks: Tasks, i: nat, o: Object, m: MessageId)
    requires ObjectOk(config, live, tasks, i, o) && ValidConfig(config)
    ensures ObjectOk(config, live, tasks, i, PutQueue(o, AwaitJudgment(o.queue, m, config.limits, live)))
  {
    JudgeKeepsOk(o.queue, m, 0, config.limits, live);
  }

  lemma EnterObject(config: Config, live: bool, tasks: Tasks, i: nat, o: Object, t: nat)
    requires ObjectOk(config, live, tasks, i, o) && t !in tasks
    ensures ObjectOk(config, live, tasks[t := CommandWaits(i)], i, PutQueue(o, BeginCommand(o.queue)).(members := o.members + {t}))
  {
    CommandsKeepOk(o.queue, live);
    assert t !in o.members;
  }

  lemma TurnTimerObject(config: Config, live: bool, tasks: Tasks, i: nat, o: Object, seqNo: nat, t: nat)
    requires ObjectOk(config, live, tasks, i, o) && ValidConfig(config) && t !in tasks
    ensures var fired := o.(turnTimers := o.turnTimers - {seqNo});
            var (q, outcome) := OnTimer(o.queue, seqNo, config.limits, live);
            match outcome
            case Stale => ObjectOk(config, live, tasks, i, fired)
            case Nothing => ObjectOk(config, live, tasks, i, PutQueue(fired, q))
            case Start(batch) => |batch| <= config.limits.burstCap
                                 && ObjectOk(config, live, tasks[t := Claiming(i, batch)], i, PutQueue(fired, q).(runner := t))
  {
    OnTimerKeepsOk(o.queue, seqNo, config.limits, live);
  }

  lemma JudgeTimerObject(config: Config, live: bool, tasks: Tasks, i: nat, o: Object, seqNo: nat, t: nat)
    requires ObjectOk(config, live, tasks, i, o) && ValidConfig(config) && t !in tasks
    ensures var fired := o.(judgeTimers := o.judgeTimers - {seqNo});
            var (q, outcome) := OnJudgeTimer(o.queue, seqNo, live);
            match outcome
            case Stale => ObjectOk(config, live, tasks, i, fired)
            case Nothing => ObjectOk(config, live, tasks, i, PutQueue(fired, q))
            case Start(burst) => ObjectOk(config, live, tasks[t := Judging(i, burst)], i, PutQueue(fired, q).(judger := t))
  {
    hide QueueOk;
    JudgeKeepsOk(o.queue, 0, seqNo, config.limits, live);
  }

  /** The tasks and the object after goroutine t left its last critical section. */
  function TasksAfter(tasks: Tasks, i: nat, t: nat, after: After): Tasks {
    if after == StartRefill then tasks[t := Reading(i)] else tasks - {t}
  }

  function ObjectAfter(o: Object, t: nat, after: After): Object {
    if after == StartRefill then o.(runner := t) else o
  }

  /** Object o, left behind by goroutine t, is in order whether t ended or was replaced by a refill. */
  ghost predicate SettlesOk(config: Config, live: bool, tasks: Tasks, i: nat, was: Object, o: Object, t: nat, after: After) {
    && ObjectOk(config, live, TasksAfter(tasks, i, t, after), i, ObjectAfter(o, t, after))
    && Compatible(was, ObjectAfter(o, t, after), t)
    && (after == StartRefill ==> o.queue.running && t !in o.members)
  }

  lemma EndOfTurnObject(config: Config, live: bool, tasks: Tasks, i: nat, o: Object, t: nat)
    requires ObjectOk(config, live, tasks, i, o) && WorksFor(tasks, t, i) && TaskOk(config, o, t, tasks[t]) && tasks[t].TurnOver?
    ensures var (q, after) := FinishTurn(o.queue, tasks[t].rest, tasks[t].redo, tasks[t].failed, live);
            SettlesOk(config, live, tasks, i, o, PutQueue(o, q), t, after)
  {
    hide QueueOk;
    FinishTurnKeepsOk(o.queue, tasks[t].rest, tasks[t].redo, tasks[t].failed, live);
  }

  lemma {:induction false} QueueableFits(q: Queue, rows: seq<Row>, page: seq<MessageId>)
    ensures |Queueable(q, rows, page)| <= |page|
  {
    if page != [] {
      QueueableFits(q, rows, page[1..]);
    }
  }

  lemma EndOfRefillObject(config: Config, live: bool, tasks: Tasks, i: nat, o: Object, t: nat, rows: seq<Row>)
    requires ObjectOk(config, live, tasks, i, o) && WorksFor(tasks, t, i) && TaskOk(config, o, t, tasks[t]) && tasks[t].ReadOver?
    requires ValidConfig(config)
    ensures var (q, after) := FinishRefill(o.queue, rows, tasks[t].page, tasks[t].failed, config.limits, live);
            SettlesOk(config, live, tasks, i, o, PutQueue(o, q), t, after)
  {
    assert o.queue.pending == [];
    hide QueueOk;
    FinishRefillKeepsOk(o.queue, rows, tasks[t].page, tasks[t].failed, config.limits, live);
    QueueableFits(o.queue, rows, tasks[t].page);
  }

  lemma EndOfJudgmentObject(config: Config, live: bool, tasks: Tasks, i: nat, o: Object, t: nat)
    requires ObjectOk(config, live, tasks, i, o) && WorksFor(tasks, t, i) && TaskOk(config, o, t, tasks[t]) && tasks[t].JudgeOver?
    requires ValidConfig(config)
    ensures var (q, after) := FinishJudgment(o.queue, config.limits, live);
            SettlesOk(config, live, tasks, i, o, PutQueue(o, q), t, after)
  {
    hide QueueOk;
    JudgeKeepsOk(o.queue, 0, 0, config.limits, live);
  }

  lemma EndOfCommandObject(config: Config, live: bool, tasks: Tasks, i: nat, o: Object, t: nat)
    requires ObjectOk(config, live, tasks, i, o) && WorksFor(tasks, t, i) && TaskOk(config, o, t, tasks[t]) && tasks[t].CommandLeaves?
    requires o.queue.users > 0
    ensures var (q, after) := EndCommand(o.queue, live);
            SettlesOk(config, live, tasks, i, o, PutQueue(o, q).(members := o.members - {t}), t, after)
  {
    CommandsKeepOk(o.queue, live);
  }

  // ---- Steps on the whole state ------------------------------------------------

  lemma WithChatKeeps(config: Config, s: State, key: Chat)
    requires Inv(config, s)
    ensures var s' := WithChat(s, key);
            && Inv(config, s') && s'.chats[key] < |s'.objects| && s'.objects[s'.chats[key]].key == key
  {
    var s' := WithChat(s, key);
    if key !in s.chats {
      forall j | 0 <= j < |s'.objects| ensures ObjectOk(config, s'.live, s'.tasks, j, s'.objects[j]) {
        if j < |s.objects| {
          assert s'.objects[j] == s.objects[j];
        }
      }
      forall u | u in s'.tasks ensures s'.tasks[u].q < |s'.objects| && TaskOk(config, s'.objects[s'.tasks[u].q], u, s'.tasks[u]) {
        assert s'.objects[s'.tasks[u].q] == s.objects[s.tasks[u].q];
      }
    }
  }

  lemma FreshTask(tasks: Tasks) returns (t: nat)
    ensures t !in tasks
  {
    t := 0;
    var below := tasks.Keys;
    while below != {}
      invariant forall u | u in tasks && u !in below :: u < t
      decreases |below|
    {
      var u :| u in below;
      below := below - {u};
      t := if u < t then t else u + 1;
    }
  }

  /** Inv does not speak of the inbox or of what happened to messages. */
  lemma SameCoreKeeps(config: Config, s: State, s': State)
    requires Inv(config, s)
    requires s'.live == s.live && s'.chats == s.chats && s'.objects == s.objects && s'.tasks == s.tasks
    ensures Inv(config, s')
  {
  }

  lemma AdmitKeeps(config: Config, s: State, key: Chat, m: MessageId)
    requires Inv(config, s) && ValidConfig(config)
    ensures Inv(config, AdmitStep(config, s, key, m))
  {
    hide Inv;
    WithChatKeeps(config, s, key);
    var s1 := WithChat(s, key);
    var i := s1.chats[key];
    var o := PutQueue(s1.objects[i], Admit(s1.objects[i].queue, m, config.limits, s1.live));
    AdmitObject(config, s1.live, s1.tasks, i, s1.objects[i], m);
    var t := FreshTask(s1.tasks);
    Rebuild(config, s1, i, o, t, s1.tasks);
    SameCoreKeeps(config, s1.(objects := s1.objects[i := o], tasks := s1.tasks), AdmitStep(config, s, key, m));
  }

  lemma HoldKeeps(config: Config, s: State, key: Chat, m: MessageId)
    requires Inv(config, s) && ValidConfig(config)
    ensures Inv(config, HoldStep(config, s, key, m))
  {
    hide Inv;
    WithChatKeeps(config, s, key);
    var s1 := WithChat(s, key);
    var i := s1.chats[key];
    HoldObject(config, s1.live, s1.tasks, i, s1.objects[i], m);
    var t := FreshTask(s1.tasks);
    Rebuild(config, s1, i, PutQueue(s1.objects[i], AwaitJudgment(s1.objects[i].queue, m, config.limits, s1.live)), t, s1.tasks);
  }

  lemma EnterKeeps(config: Config, s: State, key: Chat, t: nat)
    requires Inv(config, s) && t !in s.tasks
    ensures Inv(config, EnterStep(s, key, t))
  {
    hide Inv;
    WithChatKeeps(config, s, key);
    var s1 := WithChat(s, key);
    var i := s1.chats[key];
    var o := s1.objects[i];
    EnterObject(config, s1.live, s1.tasks, i, o, t);
    SetTask(s1.tasks, i, t, CommandWaits(i));
    Rebuild(config, s1, i, PutQueue(o, BeginCommand(o.queue)).(members := o.members + {t}), t, s1.tasks[t := CommandWaits(i)]);
  }

  lemma ObjectIsOk(config: Config, s: State, i: nat)
    requires Inv(config, s) && i < |s.objects|
    ensures ObjectOk(config, s.live, s.tasks, i, s.objects[i])
    ensures !Idle(s.objects[i].queue) ==> Mapped(s, i)
  {
  }

  /** A fired timer that starts a goroutine t on object i. */
  lemma SpawnKeeps(config: Config, s: State, i: nat, o: Object, t: nat, task: Task)
    requires Inv(config, s) && i < |s.objects| && t !in s.tasks && task.q == i
    requires Compatible(s.objects[i], o, t) && !Idle(s.objects[i].queue)
    requires ObjectOk(config, s.live, s.tasks[t := task], i, o) && TaskOk(config, o, t, task)
    ensures Inv(config, Write(s, i, o).(tasks := s.tasks[t := task]))
  {
    hide Inv;
    ObjectIsOk(config, s, i);
    SetTask(s.tasks, i, t, task);
    Rebuild(config, s, i, o, t, s.tasks[t := task]);
  }

  /** A fired timer that only cleans up. */
  lemma CleanUpKeeps(config: Config, s: State, i: nat, o: Object)
    requires Inv(config, s) && i < |s.objects|
    requires o.key == s.objects[i].key && o.runner == s.objects[i].runner && o.judger == s.objects[i].judger
             && o.lock == s.objects[i].lock && o.members == s.objects[i].members
    requires o.queue.running == s.objects[i].queue.running && o.queue.judging == s.objects[i].queue.judging
    requires ObjectOk(config, s.live, s.tasks, i, o)
    requires !Idle(o.queue) ==> !Idle(s.objects[i].queue)
    ensures Inv(config, Write(s, i, o)) && Inv(config, ForgetIfIdle(Write(s, i, o), i))
  {
    hide Inv;
    ObjectIsOk(config, s, i);
    var t := FreshTask(s.tasks);
    Rebuild(config, s, i, o, t, s.tasks);
    ForgetKeeps(config, Write(s, i, o), i);
  }

  lemma TurnTimerKeeps(config: Config, s: State, i: nat, seqNo: nat, t: nat)
    requires Inv(config, s) && ValidConfig(config) && i < |s.objects| && t !in s.tasks
    ensures Inv(config, TurnTimerStep(config, s, i, seqNo, t))
  {
    hide Inv;
    ObjectIsOk(config, s, i);
    TurnTimerObject(config, s.live, s.tasks, i, s.objects[i], seqNo, t);
    var o := s.objects[i].(turnTimers := s.objects[i].turnTimers - {seqNo});
    match OnTimer(o.queue, seqNo, config.limits, s.live)
    case (q, Stale) => CleanUpKeeps(config, s, i, o);
    case (q, Nothing) => CleanUpKeeps(config, s, i, PutQueue(o, q));
    case (q, Start(batch)) => SpawnKeeps(config, s, i, PutQueue(o, q).(runner := t), t, Claiming(i, batch));
  }

  lemma JudgeTimerKeeps(config: Config, s: State, i: nat, seqNo: nat, t: nat)
    requires Inv(config, s) && ValidConfig(config) && i < |s.objects| && t !in s.tasks
    ensures Inv(config, JudgeTimerStep(s, i, seqNo, t))
  {
    hide Inv;
    ObjectIsOk(config, s, i);
    JudgeTimerObject(config, s.live, s.tasks, i, s.objects[i], seqNo, t);
    var o := s.objects[i].(judgeTimers := s.objects[i].judgeTimers - {seqNo});
    match OnJudgeTimer(o.queue, seqNo, s.live)
    case (q, Stale) => CleanUpKeeps(config, s, i, o);
    case (q, Nothing) => CleanUpKeeps(config, s, i, PutQueue(o, q));
    case (q, Start(burst)) => SpawnKeeps(config, s, i, PutQueue(o, q).(judger := t), t, Judging(i, burst));
  }

  /** A goroutine that moves on without touching a queue stays of the same kind. */
  ghost predicate SameKind(config: Config, task: Task, task': Task) {
    && task'.q == task.q
    && (task.IsTurn() ==> task'.IsTurn() && task'.batch == task.batch && |task'.Outstanding()| <= |task'.batch|)
    && (task.IsRefill() ==> task'.IsRefill() && (task'.ReadOver? ==> |task'.page| <= config.limits.maxPending))
    && (task.IsJudge() ==> task'.IsJudge() && task'.burst == task.burst)
    && !task.IsCommand()
  }

  lemma BecomesObject(config: Config, live: bool, tasks: Tasks, i: nat, o: Object, t: nat, task: Task)
    requires ObjectOk(config, live, tasks, i, o) && WorksFor(tasks, t, i) && TaskOk(config, o, t, tasks[t])
    requires SameKind(config, tasks[t], task)
    ensures ObjectOk(config, live, tasks[t := task], i, o) && TaskOk(config, o, t, task)
  {
  }

  lemma BecomesKeeps(config: Config, s: State, t: nat, task: Task)
    requires Inv(config, s) && t in s.tasks && SameKind(config, s.tasks[t], task)
    ensures Inv(config, Becomes(s, t, task))
  {
    hide Inv;
    var i := task.q;
    WorkerIsMapped(config, s, t);
    BecomesObject(config, s.live, s.tasks, i, s.objects[i], t, task);
    SetTask(s.tasks, i, t, task);
    assert s.objects[i := s.objects[i]] == s.objects;
    Rebuild(config, s, i, s.objects[i], t, s.tasks[t := task]);
  }

  lemma ClaimKeeps(config: Config, s: State, t: nat)
    requires Inv(config, s) && At(s, t) && s.tasks[t].Claiming?
    ensures Inv(config, ClaimStep(s, t))
  {
    hide Inv;
    var task := s.tasks[t];
    match Claim(s.rows, s.resets, task.batch)
    case Rejected(_) =>
      BecomesKeeps(config, s, t, TurnOver(task.q, task.batch, [], task.batch, true));
    case Claimed(messages, rest, rows) =>
      ClaimNeverGrows(s.rows, s.resets, task.batch);
      var next := if messages == [] then TurnOver(task.q, task.batch, rest, [], false)
                  else Answering(task.q, task.batch, Last(messages), rest);
      BecomesKeeps(config, s, t, next);
      SameCoreKeeps(config, Becomes(s, t, next), ClaimStep(s, t));
  }

  lemma WorkerMapped(config: Config, s: State, t: nat)
    requires Inv(config, s) && t in s.tasks
    ensures s.tasks[t].q < |s.objects| && Mapped(s, s.tasks[t].q)
  {
    WorkerIsMapped(config, s, t);
  }

  /** A goroutine's last critical section, once its object is known to stay in order. */
  lemma SettleKeeps(config: Config, s: State, i: nat, o: Object, t: nat, after: After)
    requires Inv(config, s) && WorksFor(s.tasks, t, i) && i < |s.objects|
    requires SettlesOk(config, s.live, s.tasks, i, s.objects[i], o, t, after)
    ensures Inv(config, Settle(s, i, o, t, after))
  {
    hide Inv;
    WorkerMapped(config, s, t);
    SetTask(s.tasks, i, t, Reading(i));
    if after == StartRefill {
      assert TaskOk(config, o.(runner := t), t, Reading(i));
      Rebuild(config, s, i, o.(runner := t), t, s.tasks[t := Reading(i)]);
    } else {
      RebuildEnded(config, s, i, o, t);
      if after == Forget {
        ForgetKeeps(config, Write(s.(tasks := s.tasks - {t}), i, o), i);
      }
    }
  }

  lemma RebuildEnded(config: Config, s: State, i: nat, o: Object, t: nat)
    requires Inv(config, s) && i < |s.objects| && Mapped(s, i) && OnlyTask(s.tasks, s.tasks - {t}, i, t)
    requires Compatible(s.objects[i], o, t) && ObjectOk(config, s.live, s.tasks - {t}, i, o)
    ensures Inv(config, Write(s.(tasks := s.tasks - {t}), i, o))
  {
    hide Inv;
    Rebuild(config, s, i, o, t, s.tasks - {t});
  }

  lemma EndOfTurnKeeps(config: Config, s: State, t: nat)
    requires Inv(config, s) && At(s, t) && s.tasks[t].TurnOver?
    ensures Inv(config, EndOfTurnStep(s, t))
  {
    hide Inv;
    var task := s.tasks[t];
    var o := s.objects[task.q];
    WorkerIsMapped(config, s, t);
    EndOfTurnObject(config, s.live, s.tasks, task.q, o, t);
    var (q, after) := FinishTurn(o.queue, task.rest, task.redo, task.failed, s.live);
    SettleKeeps(config, s, task.q, PutQueue(o, q), t, after);
    SameCoreKeeps(config, Settle(s, task.q, PutQueue(o, q), t, after), EndOfTurnStep(s, t));
  }

  lemma EndOfRefillKeeps(config: Config, s: State, t: nat)
    requires Inv(config, s) && ValidConfig(config) && At(s, t) && s.tasks[t].ReadOver?
    ensures Inv(config, EndOfRefillStep(config, s, t))
  {
    hide Inv;
    var task := s.tasks[t];
    var o := s.objects[task.q];
    WorkerIsMapped(config, s, t);
    EndOfRefillObject(config, s.live, s.tasks, task.q, o, t, s.rows);
    var (q, after) := FinishRefill(o.queue, s.rows, task.page, task.failed, config.limits, s.live);
    SettleKeeps(config, s, task.q, PutQueue(o, q), t, after);
    SameCoreKeeps(config, Settle(s, task.q, PutQueue(o, q), t, after), EndOfRefillStep(config, s, t));
  }

  lemma EndOfJudgmentKeeps(config: Config, s: State, t: nat)
    requires Inv(config, s) && ValidConfig(config) && At(s, t) && s.tasks[t].JudgeOver?
    ensures Inv(config, EndOfJudgmentStep(config, s, t))
  {
    hide Inv;
    var o := s.objects[s.tasks[t].q];
    WorkerIsMapped(config, s, t);
    EndOfJudgmentObject(config, s.live, s.tasks, s.tasks[t].q, o, t);
    var (q, after) := FinishJudgment(o.queue, config.limits, s.live);
    SettleKeeps(config, s, s.tasks[t].q, PutQueue(o, q), t, after);
  }

  lemma EndOfCommandKeeps(config: Config, s: State, t: nat)
    requires Inv(config, s) && At(s, t) && s.tasks[t].CommandLeaves? && s.objects[s.tasks[t].q].queue.users > 0
    ensures Inv(config, EndOfCommandStep(s, t))
  {
    hide Inv;
    var o := s.objects[s.tasks[t].q];
    WorkerIsMapped(config, s, t);
    EndOfCommandObject(config, s.live, s.tasks, s.tasks[t].q, o, t);
    var (q, after) := EndCommand(o.queue, s.live);
    SettleKeeps(config, s, s.tasks[t].q, PutQueue(o, q).(members := o.members - {t}), t, after);
  }

  lemma LockObject(config: Config, live: bool, tasks: Tasks, i: nat, o: Object, t: nat)
    requires ObjectOk(config, live, tasks, i, o) && WorksFor(tasks, t, i) && TaskOk(config, o, t, tasks[t])
    ensures tasks[t].CommandWaits? && o.lock == None ==> ObjectOk(config, live, tasks[t := CommandRuns(i)], i, o.(lock := Some(t)))
    ensures tasks[t].CommandRuns? ==> ObjectOk(config, live, tasks[t := CommandLeaves(i)], i, o.(lock := None))
  {
  }

  lemma LockKeeps(config: Config, s: State, t: nat)
    requires Inv(config, s) && At(s, t) && s.tasks[t].CommandWaits? && s.objects[s.tasks[t].q].lock == None
    ensures Inv(config, Becomes(SetLock(s, s.tasks[t].q, Some(t)), t, CommandRuns(s.tasks[t].q)))
  {
    hide Inv;
    var i := s.tasks[t].q;
    WorkerIsMapped(config, s, t);
    LockObject(config, s.live, s.tasks, i, s.objects[i], t);
    SetTask(s.tasks, i, t, CommandRuns(i));
    Rebuild(config, s, i, s.objects[i].(lock := Some(t)), t, s.tasks[t := CommandRuns(i)]);
  }

  lemma UnlockKeeps(config: Config, s: State, t: nat)
    requires Inv(config, s) && At(s, t) && s.tasks[t].CommandRuns?
    ensures Inv(config, Becomes(SetLock(s, s.tasks[t].q, None), t, CommandLeaves(s.tasks[t].q)))
  {
    hide Inv;
    var i := s.tasks[t].q;
    WorkerIsMapped(config, s, t);
    LockObject(config, s.live, s.tasks, i, s.objects[i], t);
    SetTask(s.tasks, i, t, CommandLeaves(i));
    Rebuild(config, s, i, s.objects[i].(lock := None), t, s.tasks[t := CommandLeaves(i)]);
  }

  // ---- Shutdown --------------------------------------------------------------

  lemma StoppedObject(config: Config, live: bool, tasks: Tasks, i: nat, o: Object)
    requires ObjectOk(config, live, tasks, i, o)
    ensures ObjectOk(config, false, tasks, i, o) && ObjectOk(config, false, tasks, i, o.(queue := Stopped(o.queue)))
  {
  }

  lemma CancelKeeps(config: Config, s: State)
    requires Inv(config, s)
    ensures Inv(config, s.(live := false))
  {
    var s' := s.(live := false);
    forall j | 0 <= j < |s'.objects| ensures ObjectOk(config, s'.live, s'.tasks, j, s'.objects[j]) {
      StoppedObject(config, s.live, s.tasks, j, s.objects[j]);
    }
  }

  lemma StoppedTask(config: Config, o: Object, u: nat, task: Task)
    requires TaskOk(config, o, u, task)
    ensures TaskOk(config, o.(queue := Stopped(o.queue)), u, task)
  {
  }

  lemma StoppedIdle(q: Queue)
    ensures Idle(q) ==> Idle(Stopped(q))
  {
  }

  lemma StoppedMap(s: State)
    requires MapOk(s)
    ensures MapOk(s.(objects := StopAll(s, |s.objects|)))
  {
    hide StopAll;
    var s' := s.(objects := StopAll(s, |s.objects|));
    forall j | 0 <= j < |s.objects| ensures s'.objects[j].key == s.objects[j].key && (Idle(s.objects[j].queue) ==> Idle(s'.objects[j].queue)) {
      StoppedIdle(s.objects[j].queue);
    }
    hide Stopped, Idle;
  }

  lemma StopTimersKeeps(config: Config, s: State)
    requires Inv(config, s) && !s.live
    ensures Inv(config, s.(objects := StopAll(s, |s.objects|)))
  {
    hide StopAll, Stopped, ObjectOk, TaskOk, MapOk;
    var s' := s.(objects := StopAll(s, |s.objects|));
    StoppedMap(s);
    forall j | 0 <= j < |s'.objects| ensures ObjectOk(config, s'.live, s'.tasks, j, s'.objects[j]) {
      StoppedObject(config, s.live, s.tasks, j, s.objects[j]);
    }
    forall u | u in s'.tasks ensures s'.tasks[u].q < |s'.objects| && TaskOk(config, s'.objects[s'.tasks[u].q], u, s'.tasks[u]) {
      StoppedTask(config, s.objects[s.tasks[u].q], u, s.tasks[u]);
    }
  }

  // ---- Every step, every run -------------------------------------------------

  lemma ClaimFailsKeeps(config: Config, s: State, t: nat)
    requires Inv(config, s) && At(s, t) && s.tasks[t].Claiming?
    ensures Inv(config, Becomes(s, t, TurnOver(s.tasks[t].q, s.tasks[t].batch, [], s.tasks[t].batch, true)))
  {
    hide Inv;
    BecomesKeeps(config, s, t, TurnOver(s.tasks[t].q, s.tasks[t].batch, [], s.tasks[t].batch, true));
  }

  lemma TurnMovesOn(config: Config, s: State, t: nat, redo: seq<MessageId>, failed: bool)
    requires Inv(config, s) && At(s, t) && s.tasks[t].Answering? && |redo| <= 1
    ensures Inv(config, Becomes(s, t, TurnOver(s.tasks[t].q, s.tasks[t].batch, s.tasks[t].rest, redo, failed)))
  {
    hide Inv;
    WorkerIsMapped(config, s, t);
    BecomesKeeps(config, s, t, TurnOver(s.tasks[t].q, s.tasks[t].batch, s.tasks[t].rest, redo, failed));
  }

  lemma OthersMoveOn(config: Config, s: State, t: nat, page: seq<MessageId>, failed: bool)
    requires Inv(config, s) && At(s, t) && |page| <= config.limits.maxPending
    ensures var task := s.tasks[t];
            && (task.Reading? ==> Inv(config, Becomes(s, t, ReadOver(task.q, page, failed))))
            && (task.Judging? ==> Inv(config, Becomes(s, t, JudgeOver(task.q, task.burst))))
  {
    hide Inv;
    var task := s.tasks[t];
    WorkerIsMapped(config, s, t);
    if task.Reading? {
      BecomesKeeps(config, s, t, ReadOver(task.q, page, failed));
    } else if task.Judging? {
      BecomesKeeps(config, s, t, JudgeOver(task.q, task.burst));
    }
  }

  lemma JudgeAdmitsKeeps(config: Config, s: State, t: nat)
    requires Inv(config, s) && ValidConfig(config) && At(s, t) && s.tasks[t].Judging? && s.tasks[t].burst != []
    ensures Inv(config, JudgeAdmitStep(config, s, t))
  {
    hide Inv;
    OthersMoveOn(config, s, t, [], false);
    AdmitKeeps(config, Becomes(s, t, JudgeOver(s.tasks[t].q, s.tasks[t].burst)), s.objects[s.tasks[t].q].key, Last(s.tasks[t].burst));
  }

  ghost predicate IsQueueEvent(event: Event) {
    event.AdmitMessage? || event.HoldMessage? || event.FireTurnTimer? || event.FireJudgeTimer? || event.EndOfTurn?
    || event.EndOfRefill? || event.JudgeAdmits? || event.EndOfJudgment? || event.CommandEnters? || event.EndOfCommand?
  }

  lemma QueueEventKeeps(config: Config, s: State, event: Event)
    requires Inv(config, s) && ValidConfig(config) && Enabled(config, s, event) && IsQueueEvent(event)
    ensures Inv(config, Step(config, s, event))
  {
    hide Inv;
    match event
    case AdmitMessage(m) => AdmitKeeps(config, s, s.rows[m].chat, m);
    case HoldMessage(m) => HoldKeeps(config, s, s.rows[m].chat, m);
    case FireTurnTimer(i, seqNo, t) => TurnTimerKeeps(config, s, i, seqNo, t);
    case FireJudgeTimer(i, seqNo, t) => JudgeTimerKeeps(config, s, i, seqNo, t);
    case EndOfTurn(t) => EndOfTurnKeeps(config, s, t);
    case EndOfRefill(t) => EndOfRefillKeeps(config, s, t);
    case JudgeAdmits(t) => JudgeAdmitsKeeps(config, s, t);
    case EndOfJudgment(t) => EndOfJudgmentKeeps(config, s, t);
    case CommandEnters(key, t) => EnterKeeps(config, s, key, t);
    case EndOfCommand(t) => EndOfCommandKeeps(config, s, t);
  }

  lemma TurnEventKeeps(config: Config, s: State, event: Event)
    requires Inv(config, s) && ValidConfig(config) && Enabled(config, s, event)
    requires event.ClaimCommits? || event.ClaimFails? || event.TurnAnswers? || event.TurnFails? || event.ReadPage? || event.ReadFails? || event.JudgeStops?
    ensures Inv(config, Step(config, s, event))
  {
    hide Inv;
    match event
    case ClaimCommits(t) => ClaimKeeps(config, s, t);
    case ClaimFails(t) => ClaimFailsKeeps(config, s, t);
    case TurnAnswers(t) => TurnMovesOn(config, s, t, [], false);
    case TurnFails(t) => TurnMovesOn(config, s, t, [s.tasks[t].anchor], true);
    case ReadPage(t) => OthersMoveOn(config, s, t, Page(s.rows, s.objects[s.tasks[t].q].key, 0, config.limits.maxPending), false);
    case ReadFails(t) => OthersMoveOn(config, s, t, [], true);
    case JudgeStops(t) => OthersMoveOn(config, s, t, [], false);
  }

  /** The dispatcher's invariant survives every step, whatever fires and in whatever order. */
  lemma StepKeepsInv(config: Config, s: State, event: Event)
    requires Inv(config, s) && ValidConfig(config) && Enabled(config, s, event)
    ensures Inv(config, Step(config, s, event))
  {
    hide Inv;
    match event
    case Arrive(_) => SameCoreKeeps(config, s, Step(config, s, event));
    case RowChanges(_, _) => SameCoreKeeps(config, s, Step(config, s, event));
    case ResetHistory(_, _) => SameCoreKeeps(config, s, Step(config, s, event));
    case CommandLocks(t) => LockKeeps(config, s, t);
    case CommandUnlocks(t) => UnlockKeeps(config, s, t);
    case Cancel => CancelKeeps(config, s);
    case StopTimers => StopTimersKeeps(config, s);
    case _ =>
      hide Enabled, Step;
      if IsQueueEvent(event) {
        QueueEventKeeps(config, s, event);
      } else {
        TurnEventKeeps(config, s, event);
      }
  }

  lemma {:induction false} RunKeepsInv(config: Config, events: seq<Event>, states: seq<State>, k: nat)
    requires ValidConfig(config) && Run(config, events, states) && k < |states|
    ensures Inv(config, states[k])
  {
    if k > 0 {
      RunKeepsInv(config, events, states, k - 1);
      StepKeepsInv(config, states[k - 1], events[k - 1]);
    }
  }

  // ---- What the invariant promises -----------------------------------------------

  /** A chat never runs two turns (or reads its inbox during one), judges two bursts, or
      runs two commands at once, although its queue object may have been forgotten and made
      anew any number of times. */
  lemma OneAtATimePerChat(config: Config, events: seq<Event>, states: seq<State>, k: nat, t: nat, u: nat)
    requires ValidConfig(config) && Run(config, events, states) && k < |states|
    requires t in states[k].tasks && u in states[k].tasks
    ensures var s := states[k];
            && s.tasks[t].q < |s.objects| && s.tasks[u].q < |s.objects|
            && (s.objects[s.tasks[t].q].key == s.objects[s.tasks[u].q].key ==>
                  && (s.tasks[t].IsRunner() && s.tasks[u].IsRunner() ==> t == u)
                  && (s.tasks[t].IsJudge() && s.tasks[u].IsJudge() ==> t == u)
                  && (s.tasks[t].CommandRuns? && s.tasks[u].CommandRuns? ==> t == u))
  {
    RunKeepsInv(config, events, states, k);
    WorkerIsMapped(config, states[k], t);
    WorkerIsMapped(config, states[k], u);
  }

  /** The fired timer of a live dispatcher, on any state in order. */
  lemma TimerActs(config: Config, s: State, i: nat, seqNo: nat, t: nat)
    requires ValidConfig(config) && i < |s.objects| && s.live && seqNo in s.objects[i].turnTimers
    requires ObjectOk(config, s.live, s.tasks, i, s.objects[i])
    ensures var s' := TurnTimerStep(config, s, i, seqNo, t);
            if seqNo == s.objects[i].queue.timerSeq
            then s'.tasks == s.tasks[t := Claiming(i, s.objects[i].queue.pending[..Min(|s.objects[i].queue.pending|, config.limits.burstCap)])]
                 && s.objects[i].queue.pending != [] && !Idle(s.objects[i].queue)
            else s' == Write(s, i, s.objects[i].(turnTimers := s.objects[i].turnTimers - {seqNo}))
  {
  }

  /** A callback whose timer was replaced changes nothing but being spent; a live one that was
      not always starts a turn. A queue object that was forgotten is idle and never acts again. */
  lemma TimersActExactlyOnce(config: Config, events: seq<Event>, states: seq<State>, k: nat, i: nat, seqNo: nat, t: nat)
    requires ValidConfig(config) && Run(config, events, states) && k < |states|
    requires Enabled(config, states[k], FireTurnTimer(i, seqNo, t)) && states[k].live
    ensures var s := states[k];
            var s' := Step(config, s, FireTurnTimer(i, seqNo, t));
            if seqNo == s.objects[i].queue.timerSeq
            then s'.tasks == s.tasks[t := Claiming(i, s.objects[i].queue.pending[..Min(|s.objects[i].queue.pending|, config.limits.burstCap)])]
                 && Mapped(s, i) && s.objects[i].queue.pending != []
            else s' == Write(s, i, s.objects[i].(turnTimers := s.objects[i].turnTimers - {seqNo}))
  {
    assert i < |states[k].objects| && seqNo in states[k].objects[i].turnTimers;
    hide Inv, Run, Enabled, ObjectOk;
    RunKeepsInv(config, events, states, k);
    ObjectIsOk(config, states[k], i);
    TimerActs(config, states[k], i, seqNo, t);
  }

  /** Queued messages always have an armed timer or a running turn that will take them, and a
      chat whose messages were left in the inbox has a timer, a turn, or a command that will
      read it back. */
  lemma WaitingWorkIsPickedUp(config: Config, events: seq<Event>, states: seq<State>, k: nat, i: nat)
    requires ValidConfig(config) && Run(config, events, states) && k < |states| && i < |states[k].objects| && states[k].live
    ensures var s := states[k];
            var q := s.objects[i].queue;
            var served := (q.timer.Some? && q.timerSeq in s.objects[i].turnTimers)
                          || (exists t :: t in s.tasks && s.tasks[t].q == i && s.tasks[t].IsRunner());
            && (q.pending != [] ==> served)
            && (q.overflow ==> served || exists t :: t in s.tasks && s.tasks[t].q == i && s.tasks[t].IsCommand())
            && (q.awaiting != [] ==> (q.judgeTimer.Some? && q.judgeSeq in s.objects[i].judgeTimers)
                                     || exists t :: t in s.tasks && s.tasks[t].q == i && s.tasks[t].IsJudge())
            && (!Idle(q) ==> Mapped(s, i))
  {
    RunKeepsInv(config, events, states, k);
    ObjectIsOk(config, states[k], i);
    var o := states[k].objects[i];
    if o.queue.users > 0 {
      var t :| t in o.members;
    }
  }

  /** The messages one chat keeps in memory for turns, and its consecutive retries, are bounded
      in every run, requeued and repeated messages included. */
  lemma MemoryIsBounded(config: Config, events: seq<Event>, states: seq<State>, k: nat, i: nat)
    requires ValidConfig(config) && Run(config, events, states) && k < |states| && i < |states[k].objects|
    ensures var s := states[k];
            && s.objects[i].queue.retries <= MAX_GENERATION_RETRIES
            && |s.objects[i].queue.pending| <= config.limits.maxPending + config.limits.burstCap
            && (forall t | t in s.tasks && s.tasks[t].q == i && s.tasks[t].IsTurn() ::
                  |s.objects[i].queue.pending| + |s.tasks[t].batch| <= config.limits.maxPending + config.limits.burstCap
                  && |s.tasks[t].Outstanding()| <= |s.tasks[t].batch|)
  {
    RunKeepsInv(config, events, states, k);
    ObjectIsOk(config, states[k], i);
    forall t | t in states[k].tasks && states[k].tasks[t].q == i && states[k].tasks[t].IsTurn()
      ensures |states[k].objects[i].queue.pending| + |states[k].tasks[t].batch| <= config.limits.maxPending + config.limits.burstCap
              && |states[k].tasks[t].Outstanding()| <= |states[k].tasks[t].batch|
    {
      WorkerIsMapped(config, states[k], t);
    }
  }
}
