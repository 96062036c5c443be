// Every interleaving of the inbound dispatcher (internal/inbound/dispatcher.go): any number
// of chats, queue objects created and forgotten, timer callbacks that may fire after they
// were replaced, and goroutines between their critical sections. A step is one critical
// section, one inbox transaction, or a change made from outside.
module InboundProtocol {
  import opened Prelude
  import opened ClaimBatch
  import opened QueueSteps

  /** A queue object: its chat, its fields, the timer callbacks armed for it that may still
      fire, and who holds its command mutex. `runner`, `judger` and `members` only remember
      which goroutines were started for it; no step reads them. */
  datatype Object = Object(
    key: Chat, queue: Queue, turnTimers: set<nat>, judgeTimers: set<nat>, lock: Option<nat>,
    runner: nat, judger: nat, members: set<nat>)

  function NewObject(key: Chat): Object {
    Object(key, EMPTY, {}, {}, None, 0, 0, {})
  }

  /** A goroutine and where it stands between critical sections. */
  datatype Task =
    | Claiming(q: nat, batch: seq<MessageId>)
    | Answering(q: nat, batch: seq<MessageId>, anchor: MessageId, rest: seq<MessageId>)
    | TurnOver(q: nat, batch: seq<MessageId>, rest: seq<MessageId>, redo: seq<MessageId>, failed: bool)
    | Reading(q: nat)
    | ReadOver(q: nat, page: seq<MessageId>, failed: bool)
    | Judging(q: nat, burst: seq<MessageId>)
    | JudgeOver(q: nat, burst: seq<MessageId>)
    | CommandWaits(q: nat)
    | CommandRuns(q: nat)
    | CommandLeaves(q: nat)
  {
    predicate IsTurn() { Claiming? || Answering? || TurnOver? }
    predicate IsRefill() { Reading? || ReadOver? }
    predicate IsJudge() { Judging? || JudgeOver? }
    predicate IsCommand() { CommandWaits? || CommandRuns? || CommandLeaves? }
    predicate IsRunner() { IsTurn() || IsRefill() }

    /** The messages a turn would still give back or give up, if it ended now. */
    function Outstanding(): seq<MessageId> {
      match this
      case Claiming(_, batch) => batch
      case Answering(_, _, anchor, rest) => [anchor] + rest
      case TurnOver(_, _, rest, redo, _) => redo + rest
      case _ => []
    }
  }

  /** The last four fields record what happened to messages: which were admitted while they
      needed a reply, given up with a report, admitted while the running turn held them, and
      into which anchor a claim batched them. They decide no step, but that the turn a message
      anchors may start it even when the claim batched it into itself. */
  datatype State = State(
    live: bool, chats: map<Chat, nat>, objects: seq<Object>, tasks: map<nat, Task>,
    rows: seq<Row>, resets: map<Chat, int>,
    admitted: set<MessageId>, excused: set<MessageId>, readmitted: set<MessageId>, into: map<MessageId, MessageId>)

  const INITIAL: State := State(true, map[], [], map[], [], map[], {}, {}, {}, map[])

  datatype Config = Config(limits: Limits, smart: bool)

  predicate ValidConfig(config: Config) {
    ValidLimits(config.limits)
  }

  // ---- The inbox -----------------------------------------------------------

  /** Rows the unfinished listings return. */
  predicate Listed(row: Row) {
    row.state == UNSTARTED || row.state == GENERATING || row.state == FAILED_RETRYABLE
  }

  predicate RowOk(row: Row) {
    && (row.state == UNSTARTED ==> !row.claimed)
    && (row.state == GENERATING || row.state == FAILED_RETRYABLE ==> row.claimed)
  }

  predicate Unfinished(rows: seq<Row>, m: MessageId) {
    m < |rows| && Listed(rows[m])
  }

  /** A claim recorded m as part of its own turn, and no turn has started it since. */
  predicate BatchedIntoItself(s: State, m: MessageId) {
    m < |s.rows| && s.rows[m].state == BATCHED && !s.rows[m].claimed && m in s.into && s.into[m] == m
  }

  /** Some turn is about to answer m. */
  predicate Anchors(s: State, m: MessageId) {
    exists t | t in s.tasks :: s.tasks[t].Answering? && s.tasks[t].anchor == m
  }

  /** The first `limit` unfinished messages of a chat from row `from` on, oldest first. */
  function Page(rows: seq<Row>, key: Chat, from: nat, limit: nat): (page: seq<MessageId>)
    ensures |page| <= limit
    decreases |rows| - from
  {
    if from >= |rows| || limit == 0 then []
    else if rows[from].chat == key && Listed(rows[from]) then [from] + Page(rows, key, from + 1, limit - 1)
    else Page(rows, key, from + 1, limit)
  }

  // ---- Critical sections on the whole state ---------------------------------

  /** The chat's queue object is looked up, or created. */
  function WithChat(s: State, key: Chat): State {
    if key in s.chats then s
    else s.(objects := s.objects + [NewObject(key)], chats := s.chats[key := |s.objects|])
  }

  /** Writes an object's fields; a bumped sequence number with a timer set is a new callback. */
  function PutQueue(o: Object, q: Queue): Object {
    o.(queue := q,
       turnTimers := if q.timerSeq != o.queue.timerSeq && q.timer.Some? then o.turnTimers + {q.timerSeq} else o.turnTimers,
       judgeTimers := if q.judgeSeq != o.queue.judgeSeq && q.judgeTimer.Some? then o.judgeTimers + {q.judgeSeq} else o.judgeTimers)
  }

  function Write(s: State, i: nat, o: Object): State
    requires i < |s.objects|
  {
    s.(objects := s.objects[i := o])
  }

  function ForgetIfIdle(s: State, i: nat): State
    requires i < |s.objects|
  {
    var key := s.objects[i].key;
    if Idle(s.objects[i].queue) && key in s.chats && s.chats[key] == i then s.(chats := s.chats - {key}) else s
  }

  /** Goroutine t has left its last critical section on object i, which becomes o; it ends, or
      another goroutine starts in its place to read the inbox. */
  function Settle(s: State, i: nat, o: Object, t: nat, after: After): State
    requires i < |s.objects|
  {
    match after
    case Keep => Write(s.(tasks := s.tasks - {t}), i, o)
    case Forget => ForgetIfIdle(Write(s.(tasks := s.tasks - {t}), i, o), i)
    case StartRefill => Write(s.(tasks := s.tasks[t := Reading(i)]), i, o.(runner := t))
  }

  // ---- Steps ---------------------------------------------------------------

  datatype Event =
    | Arrive(row: Row)                       // an incoming message is stored
    | RowChanges(m: MessageId, row: Row)     // a turn or command progresses, or a message is ignored
    | ResetHistory(key: Chat, at: int)
    | AdmitMessage(m: MessageId)             // the critical section of admitAI, from Handle or Recover
    | HoldMessage(m: MessageId)              // awaitJudgment
    | FireTurnTimer(i: nat, seqNo: nat, t: nat)
    | FireJudgeTimer(i: nat, seqNo: nat, t: nat)
    | ClaimCommits(t: nat)
    | ClaimFails(t: nat)
    | TurnAnswers(t: nat)
    | TurnFails(t: nat)
    | EndOfTurn(t: nat)
    | ReadPage(t: nat)
    | ReadFails(t: nat)
    | EndOfRefill(t: nat)
    | JudgeAdmits(t: nat)
    | JudgeStops(t: nat)
    | EndOfJudgment(t: nat)
    | CommandEnters(key: Chat, t: nat)
    | CommandLocks(t: nat)
    | CommandUnlocks(t: nat)
    | EndOfCommand(t: nat)
    | Cancel
    | StopTimers

  /** Goroutine t exists, is in a state satisfying the step, and its object exists. */
  predicate At(s: State, t: nat) {
    t in s.tasks && s.tasks[t].q < |s.objects|
  }

  predicate Enabled(config: Config, s: State, event: Event) {
    match event
    case Arrive(row) => row.state == UNSTARTED && !row.claimed
    case RowChanges(m, row) =>
      && m < |s.rows| && RowOk(row) && row.chat == s.rows[m].chat && row.command == s.rows[m].command
      && (Listed(row) ==> Listed(s.rows[m]) || (BatchedIntoItself(s, m) && Anchors(s, m)))
      && (row.state == BATCHED && !row.claimed ==> s.rows[m].state == BATCHED && !s.rows[m].claimed)
    case ResetHistory(_, _) => true
    case AdmitMessage(m) => m < |s.rows| && !s.rows[m].command
    case HoldMessage(m) => config.smart && m < |s.rows| && !s.rows[m].command
    case FireTurnTimer(i, seqNo, t) => i < |s.objects| && seqNo in s.objects[i].turnTimers && t !in s.tasks
    case FireJudgeTimer(i, seqNo, t) => i < |s.objects| && seqNo in s.objects[i].judgeTimers && t !in s.tasks
    case ClaimCommits(t) => At(s, t) && s.tasks[t].Claiming?
    case ClaimFails(t) => At(s, t) && s.tasks[t].Claiming?
    case TurnAnswers(t) => At(s, t) && s.tasks[t].Answering? && !Unfinished(s.rows, s.tasks[t].anchor)
    case TurnFails(t) => At(s, t) && s.tasks[t].Answering?
    case EndOfTurn(t) => At(s, t) && s.tasks[t].TurnOver?
    case ReadPage(t) => At(s, t) && s.tasks[t].Reading?
    case ReadFails(t) => At(s, t) && s.tasks[t].Reading?
    case EndOfRefill(t) => At(s, t) && s.tasks[t].ReadOver?
    case JudgeAdmits(t) => At(s, t) && s.tasks[t].Judging? && s.tasks[t].burst != []
    case JudgeStops(t) => At(s, t) && s.tasks[t].Judging?
    case EndOfJudgment(t) => At(s, t) && s.tasks[t].JudgeOver?
    case CommandEnters(_, t) => t !in s.tasks
    case CommandLocks(t) => At(s, t) && s.tasks[t].CommandWaits? && s.objects[s.tasks[t].q].lock == None
    case CommandUnlocks(t) => At(s, t) && s.tasks[t].CommandRuns?
    case EndOfCommand(t) => At(s, t) && s.tasks[t].CommandLeaves? && s.objects[s.tasks[t].q].queue.users > 0
    case Cancel => true
    case StopTimers => !s.live
  }

  function Last(s: seq<MessageId>): MessageId
    requires s != []
  {
    s[|s| - 1]
  }

  /** A step of goroutine t that touches no queue. */
  function Becomes(s: State, t: nat, task: Task): State {
    s.(tasks := s.tasks[t := task])
  }

  /** What the running turn of object o would still give back. */
  function Held(tasks: map<nat, Task>, o: Object): seq<MessageId> {
    if o.queue.running && o.runner in tasks then tasks[o.runner].Outstanding() else []
  }

  /** Admitting m makes its chat owe it twice: the queue is searched for it, the turn is not. */
  predicate Duplicates(config: Config, s: State, o: Object, m: MessageId) {
    m in Held(s.tasks, o) && Admit(o.queue, m, config.limits, s.live).pending != o.queue.pending
  }

  /** What admission records: an admitted message counts while it needs a reply. */
  function Recorded(s: State, m: MessageId, again: bool): State {
    s.(admitted := if Unfinished(s.rows, m) then s.admitted + {m} else s.admitted,
       excused := if Unfinished(s.rows, m) then s.excused - {m} else s.excused,
       readmitted := if again then s.readmitted + {m} else s.readmitted)
  }

  /** admitAI's critical section for a message of chat key. */
  function AdmitStep(config: Config, s: State, key: Chat, m: MessageId): State {
    var s1 := WithChat(s, key);
    var i := s1.chats[key];
    if i < |s1.objects| then
      var o := s1.objects[i];
      Recorded(Write(s1, i, PutQueue(o, Admit(o.queue, m, config.limits, s1.live))), m, Duplicates(config, s1, o, m))
    else s1
  }

  /** The judge found the newest message of its burst worth a response. */
  function JudgeAdmitStep(config: Config, s: State, t: nat): State
    requires At(s, t) && s.tasks[t].Judging? && s.tasks[t].burst != []
  {
    var task := s.tasks[t];
    AdmitStep(config, Becomes(s, t, JudgeOver(task.q, task.burst)), s.objects[task.q].key, Last(task.burst))
  }

  function HoldStep(config: Config, s: State, key: Chat, m: MessageId): State {
    var s1 := WithChat(s, key);
    var i := s1.chats[key];
    if i < |s1.objects| then
      var o := s1.objects[i];
      Write(s1, i, PutQueue(o, AwaitJudgment(o.queue, m, config.limits, s1.live)))
    else s1
  }

  function EnterStep(s: State, key: Chat, t: nat): State {
    var s1 := WithChat(s, key);
    var i := s1.chats[key];
    if i < |s1.objects| then
      var o := s1.objects[i];
      Write(s1, i, PutQueue(o, BeginCommand(o.queue)).(members := o.members + {t})).(tasks := s1.tasks[t := CommandWaits(i)])
    else s1
  }

  function TurnTimerStep(config: Config, s: State, i: nat, seqNo: nat, t: nat): State
    requires i < |s.objects|
  {
    var o := s.objects[i].(turnTimers := s.objects[i].turnTimers - {seqNo});
    match OnTimer(o.queue, seqNo, config.limits, s.live)
    case (q, Stale) => Write(s, i, o)
    case (q, Nothing) => ForgetIfIdle(Write(s, i, PutQueue(o, q)), i)
    case (q, Start(batch)) => Write(s, i, PutQueue(o, q).(runner := t)).(tasks := s.tasks[t := Claiming(i, batch)])
  }

  function JudgeTimerStep(s: State, i: nat, seqNo: nat, t: nat): State
    requires i < |s.objects|
  {
    var o := s.objects[i].(judgeTimers := s.objects[i].judgeTimers - {seqNo});
    match OnJudgeTimer(o.queue, seqNo, s.live)
    case (q, Stale) => Write(s, i, o)
    case (q, Nothing) => ForgetIfIdle(Write(s, i, PutQueue(o, q)), i)
    case (q, Start(burst)) => Write(s, i, PutQueue(o, q).(judger := t)).(tasks := s.tasks[t := Judging(i, burst)])
  }

  /** The messages of a turn and the anchor they become part of. */
  function PartsOf(messages: seq<MessageId>): map<MessageId, MessageId> {
    map m | m in AllButLast(messages) :: messages[|messages| - 1]
  }

  function ClaimStep(s: State, t: nat): State
    requires At(s, t) && s.tasks[t].Claiming?
  {
    var task := s.tasks[t];
    match Claim(s.rows, s.resets, task.batch)
    case Rejected(_) => s.(tasks := s.tasks[t := TurnOver(task.q, task.batch, [], task.batch, true)])
    case Claimed(messages, rest, rows) =>
      s.(rows := rows, into := s.into + PartsOf(messages),
         tasks := s.tasks[t := if messages == [] then TurnOver(task.q, task.batch, rest, [], false)
                               else Answering(task.q, task.batch, Last(messages), rest)])
  }

  /** A failure that is not retried is reported, and so accounts for the messages it gives up. */
  function EndOfTurnStep(s: State, t: nat): State
    requires At(s, t) && s.tasks[t].TurnOver?
  {
    var task := s.tasks[t];
    var o := s.objects[task.q];
    var (q, after) := FinishTurn(o.queue, task.rest, task.redo, task.failed, s.live);
    var givenUp := if task.failed && s.live && !Retries(o.queue, task.redo, task.failed, s.live) then set m | m in task.redo else {};
    Settle(s, task.q, PutQueue(o, q), t, after).(excused := s.excused + givenUp)
  }

  /** A failed read is reported, and accounts for what stays in the chat's inbox. */
  function EndOfRefillStep(config: Config, s: State, t: nat): State
    requires At(s, t) && s.tasks[t].ReadOver?
  {
    var task := s.tasks[t];
    var o := s.objects[task.q];
    var (q, after) := FinishRefill(o.queue, s.rows, task.page, task.failed, config.limits, s.live);
    var left := if task.failed && s.live
                then set m | m in s.admitted && m < |s.rows| && s.rows[m].chat == o.key else {};
    Settle(s, task.q, PutQueue(o, q), t, after).(excused := s.excused + left)
  }

  function EndOfJudgmentStep(config: Config, s: State, t: nat): State
    requires At(s, t) && s.tasks[t].JudgeOver?
  {
    var o := s.objects[s.tasks[t].q];
    var (q, after) := FinishJudgment(o.queue, config.limits, s.live);
    Settle(s, s.tasks[t].q, PutQueue(o, q), t, after)
  }

  function EndOfCommandStep(s: State, t: nat): State
    requires At(s, t) && s.objects[s.tasks[t].q].queue.users > 0
  {
    var o := s.objects[s.tasks[t].q];
    var (q, after) := EndCommand(o.queue, s.live);
    Settle(s, s.tasks[t].q, PutQueue(o, q).(members := o.members - {t}), t, after)
  }

  function SetLock(s: State, i: nat, lock: Option<nat>): State
    requires i < |s.objects|
  {
    s.(objects := s.objects[i := s.objects[i].(lock := lock)])
  }

  function Step(config: Config, s: State, event: Event): State
    requires Enabled(config, s, event)
  {
    match event
    case Arrive(row) => s.(rows := s.rows + [row])
    case RowChanges(m, row) => s.(rows := s.rows[m := row])
    case ResetHistory(key, at) => s.(resets := s.resets[key := at])
    case AdmitMessage(m) => AdmitStep(config, s, s.rows[m].chat, m)
    case HoldMessage(m) => HoldStep(config, s, s.rows[m].chat, m)
    case FireTurnTimer(i, seqNo, t) => TurnTimerStep(config, s, i, seqNo, t)
    case FireJudgeTimer(i, seqNo, t) => JudgeTimerStep(s, i, seqNo, t)
    case ClaimCommits(t) => ClaimStep(s, t)
    case ClaimFails(t) =>
      var task := s.tasks[t]; Becomes(s, t, TurnOver(task.q, task.batch, [], task.batch, true))
    case TurnAnswers(t) =>
      var task := s.tasks[t]; Becomes(s, t, TurnOver(task.q, task.batch, task.rest, [], false))
    case TurnFails(t) =>
      var task := s.tasks[t]; Becomes(s, t, TurnOver(task.q, task.batch, task.rest, [task.anchor], true))
    case EndOfTurn(t) => EndOfTurnStep(s, t)
    case ReadPage(t) =>
      var i := s.tasks[t].q;
      Becomes(s, t, ReadOver(i, Page(s.rows, s.objects[i].key, 0, config.limits.maxPending), false))
    case ReadFails(t) => Becomes(s, t, ReadOver(s.tasks[t].q, [], true))
    case EndOfRefill(t) => EndOfRefillStep(config, s, t)
    case JudgeAdmits(t) => JudgeAdmitStep(config, s, t)
    case JudgeStops(t) => Becomes(s, t, JudgeOver(s.tasks[t].q, s.tasks[t].burst))
    case EndOfJudgment(t) => EndOfJudgmentStep(config, s, t)
    case CommandEnters(key, t) => EnterStep(s, key, t)
    case CommandLocks(t) => Becomes(SetLock(s, s.tasks[t].q, Some(t)), t, CommandRuns(s.tasks[t].q))
    case CommandUnlocks(t) => Becomes(SetLock(s, s.tasks[t].q, None), t, CommandLeaves(s.tasks[t].q))
    case EndOfCommand(t) => EndOfCommandStep(s, t)
    case Cancel => s.(live := false)
    case StopTimers => s.(objects := StopAll(s, |s.objects|))
  }

  /** Shutdown stops the timers of every chat in the map. */
  function StopAll(s: State, n: nat): (objects: seq<Object>)
    requires n <= |s.objects|
    ensures |objects| == |s.objects|
    ensures forall i | 0 <= i < |objects| ::
              objects[i] == if i < n && s.objects[i].key in s.chats && s.chats[s.objects[i].key] == i
                            then s.objects[i].(queue := Stopped(s.objects[i].queue)) else s.objects[i]
  {
    if n == 0 then s.objects
    else
      var before := StopAll(s, n - 1);
      var o := s.objects[n - 1];
      if o.key in s.chats && s.chats[o.key] == n - 1 then before[n - 1 := o.(queue := Stopped(o.queue))] else before
  }

  /** A run: a state after every prefix of the events. */
  ghost predicate Run(config: Config, events: seq<Event>, states: seq<State>) {
    && |states| == |events| + 1 && states[0] == INITIAL
    && forall k | 0 <= k < |events| ::
         Enabled(config, states[k], events[k]) && states[k + 1] == Step(config, states[k], events[k])
  }
}
