// No message is lost: every message the dispatcher admitted, and that is still unanswered,
// is listed by the inbox, and is in its chat's queue, in the running turn, or left for a read
// that will come, unless the failure that gave it up was reported. Two kinds of step break
// this, and only they do; every run without them keeps it.
module InboundNoLoss {
  import opened Prelude
  import opened ClaimBatch
  import opened ClaimBatchProperties
  import opened ClaimRepeats
  import opened QueueSteps
  import opened QueueInvariants
  import opened InboundProtocol
  import opened InboundSafety

  /** Everything object o is still going to process: what its running turn holds, then its queue. */
  ghost function Owed(tasks: Tasks, o: Object): seq<MessageId> {
    Held(tasks, o) + o.queue.pending
  }

  /** Nobody has taken care of m: the inbox lists it, or a claim made it part of itself, which
      marks it as answered by a turn that has not begun. */
  ghost predicate Unanswered(s: State, m: MessageId) {
    Unfinished(s.rows, m) || BatchedIntoItself(s, m)
  }

  /** Admitted, unanswered, and not given up with a report. */
  ghost predicate Due(s: State, m: MessageId) {
    m in s.admitted && m !in s.excused && Unanswered(s, m)
  }

  ghost predicate Kept(tasks: Tasks, o: Object, m: MessageId) {
    m in Owed(tasks, o) || o.queue.overflow || o.queue.refilling
  }

  /** Everything due in the chat of object o is listed by the inbox and kept by o. */
  ghost predicate AllKept(s: State, o: Object) {
    forall m: nat | Due(s, m) && s.rows[m].chat == o.key :: Unfinished(s.rows, m) && Kept(s.tasks, o, m)
  }

  ghost predicate KeptByChat(s: State, m: MessageId)
    requires m < |s.rows|
  {
    var key := s.rows[m].chat;
    Unfinished(s.rows, m) && key in s.chats && s.chats[key] < |s.objects| && Kept(s.tasks, s.objects[s.chats[key]], m)
  }

  ghost predicate NoLoss(s: State) {
    s.live ==> forall m: nat | Due(s, m) :: KeptByChat(s, m)
  }

  // ---- What keeps it true ------------------------------------------------------

  ghost predicate HeldOk(rows: seq<Row>, o: Object) {
    forall m: nat | JudgedHere(o.queue, m) :: m < |rows| && rows[m].chat == o.key && !rows[m].command
  }

  ghost predicate PageReader(tasks: Tasks, o: Object) {
    o.queue.running && o.runner in tasks && tasks[o.runner].ReadOver?
  }

  /** A page that was read holds everything due, or is full, or something arrived since. */
  ghost predicate PageOk(config: Config, s: State, o: Object) {
    PageReader(s.tasks, o) ==>
      var read := s.tasks[o.runner];
      && Distinct(read.page)
      && (read.failed ==> read.page == [])
      && (s.live && !read.failed && |read.page| != config.limits.maxPending && !o.queue.overflow ==>
            forall m: nat | Due(s, m) && s.rows[m].chat == o.key :: m in read.page)
  }

  ghost predicate ObjectAux(config: Config, s: State, o: Object) {
    && (s.readmitted == {} ==> Distinct(Owed(s.tasks, o)))
    && HeldOk(s.rows, o)
    && PageOk(config, s, o)
    && (!config.smart ==> o.queue.awaiting == [] && o.queue.judging == [])
  }

  ghost predicate TaskAux(task: Task) {
    task.TurnOver? && !task.failed ==> task.redo == []
  }

  ghost predicate RowsAux(s: State) {
    && (forall x | 0 <= x < |s.rows| :: RowOk(s.rows[x]))
    && (forall m | m in s.admitted :: m < |s.rows| && !s.rows[m].command)
  }

  ghost predicate Aux(config: Config, s: State) {
    && RowsAux(s)
    && (forall i | 0 <= i < |s.objects| :: ObjectAux(config, s, s.objects[i]))
    && (forall t | t in s.tasks :: TaskAux(s.tasks[t]))
  }

  // ---- Framing -------------------------------------------------------------------

  ghost predicate RowsKeepChat(rows: seq<Row>, rows': seq<Row>) {
    && |rows| <= |rows'|
    && (forall x | 0 <= x < |rows| :: rows'[x].chat == rows[x].chat && rows'[x].command == rows[x].command)
  }

  /** Message m did not become due, and if it was listed while due it still is. */
  ghost predicate NotNew(s: State, s': State, m: MessageId) {
    Due(s', m) ==> Due(s, m) && (s.live && Unfinished(s.rows, m) ==> Unfinished(s'.rows, m))
  }

  /** Nothing becomes due except, while object i is mapped, in its chat. */
  ghost predicate DueShrinks(s: State, s': State, i: nat)
    requires i < |s.objects|
  {
    && RowsKeepChat(s.rows, s'.rows)
    && (forall m: nat | Due(s', m) && !(Mapped(s, i) && s'.rows[m].chat == s.objects[i].key) :: NotNew(s, s', m))
  }

  /** The state after object i became o and goroutine t changed. */
  ghost predicate Changes(s: State, s': State, i: nat, o: Object, t: nat) {
    && i < |s.objects| && s'.live == s.live && s'.objects == s.objects[i := o] && o.key == s.objects[i].key
    && OnlyTask(s.tasks, s'.tasks, i, t) && s.readmitted <= s'.readmitted
    && (s'.chats == s.chats || (Mapped(s, i) && Idle(o.queue) && s'.chats == s.chats - {o.key}))
    && DueShrinks(s, s', i)
  }

  lemma OtherOwed(config: Config, live: bool, tasks: Tasks, tasks': Tasks, i: nat, t: nat, j: nat, o: Object)
    requires OnlyTask(tasks, tasks', i, t) && j != i && ObjectOk(config, live, tasks, j, o)
    ensures Held(tasks', o) == Held(tasks, o)
    ensures PageReader(tasks', o) <==> PageReader(tasks, o)
    ensures PageReader(tasks, o) ==> tasks'[o.runner] == tasks[o.runner]
  {
  }

  lemma OtherAux(config: Config, s: State, s': State, i: nat, t: nat, o: Object)
    requires i < |s.objects| && DueShrinks(s, s', i) && ObjectAux(config, s, o) && s'.live == s.live && s.readmitted <= s'.readmitted
    requires Owed(s'.tasks, o) == Owed(s.tasks, o)
    requires PageReader(s'.tasks, o) <==> PageReader(s.tasks, o)
    requires PageReader(s.tasks, o) ==> s'.tasks[o.runner] == s.tasks[o.runner]
    requires Mapped(s, i) && s.objects[i].key == o.key ==> !o.queue.running
    ensures ObjectAux(config, s', o)
  {
  }

  lemma MappedOnce(config: Config, s: State, i: nat, j: nat)
    requires Inv(config, s) && Mapped(s, i) && j < |s.objects| && j != i && s.objects[j].key == s.objects[i].key
    ensures Idle(s.objects[j].queue)
  {
  }

  lemma ObjectHasAux(config: Config, s: State, i: nat)
    requires Aux(config, s) && i < |s.objects|
    ensures ObjectAux(config, s, s.objects[i]) && RowsAux(s)
  {
  }

  /** Object o, written at i, is in order and keeps whatever is due in its chat. */
  ghost predicate Settled(config: Config, s: State, s': State, i: nat, o: Object)
    requires RowsAux(s')
  {
    && ObjectAux(config, s', o) && QueueOk(o.queue, s.live)
    && (s.live && Mapped(s, i) ==> AllKept(s', o))
  }

  lemma RebuildAux(config: Config, s: State, s': State, i: nat, o: Object, t: nat)
    requires Inv(config, s) && Aux(config, s) && Changes(s, s', i, o, t)
    requires RowsAux(s') && ObjectAux(config, s', o)
    requires t in s'.tasks ==> TaskAux(s'.tasks[t])
    ensures Aux(config, s')
  {
    hide Inv;
    forall j | 0 <= j < |s'.objects| ensures ObjectAux(config, s', s'.objects[j]) {
      if j != i {
        ObjectIsOk(config, s, j);
        OtherOwed(config, s.live, s.tasks, s'.tasks, i, t, j, s.objects[j]);
        if Mapped(s, i) && s.objects[j].key == s.objects[i].key {
          MappedOnce(config, s, i, j);
        }
        OtherAux(config, s, s', i, t, s.objects[j]);
      }
    }
    forall u | u in s'.tasks ensures TaskAux(s'.tasks[u]) {
      if u != t {
        assert s'.tasks[u] == s.tasks[u];
      }
    }
  }

  lemma OtherChatKeeps(config: Config, s: State, s': State, i: nat, o: Object, t: nat, m: MessageId)
    requires Inv(config, s) && Changes(s, s', i, o, t) && Due(s', m) && s.live
    requires Due(s, m) && KeptByChat(s, m) && !(Mapped(s, i) && s'.rows[m].chat == o.key)
    ensures KeptByChat(s', m)
  {
    hide Inv;
    var j := s.chats[s.rows[m].chat];
    ObjectIsOk(config, s, j);
    ChatOf(config, s, s.rows[m].chat);
    OtherOwed(config, s.live, s.tasks, s'.tasks, i, t, j, s.objects[j]);
  }

  lemma ChatOf(config: Config, s: State, key: Chat)
    requires Inv(config, s) && key in s.chats
    ensures s.chats[key] < |s.objects| && s.objects[s.chats[key]].key == key && Mapped(s, s.chats[key])
  {
  }

  /** It is enough to check the object that changed. */
  lemma Rebuilt(config: Config, s: State, s': State, i: nat, o: Object, t: nat)
    requires Inv(config, s) && Aux(config, s) && NoLoss(s) && Changes(s, s', i, o, t)
    requires RowsAux(s') && Settled(config, s, s', i, o)
    requires t in s'.tasks ==> TaskAux(s'.tasks[t])
    ensures Aux(config, s') && NoLoss(s')
  {
    hide Inv;
    RebuildAux(config, s, s', i, o, t);
    if s.live {
      forall m: nat | Due(s', m) ensures KeptByChat(s', m) {
        if Mapped(s, i) && s'.rows[m].chat == o.key {
          assert AllKept(s', o);
        } else {
          OtherChatKeeps(config, s, s', i, o, t, m);
        }
      }
    }
  }

  // ---- The two kinds of step that can lose a message -----------------------------

  /** The message this event would add to its chat's queue, if any. */
  ghost function Admits(s: State, event: Event): Option<MessageId> {
    match event
    case AdmitMessage(m) => Some(m)
    case JudgeAdmits(t) => if t in s.tasks && s.tasks[t].Judging? && s.tasks[t].burst != [] then Some(Last(s.tasks[t].burst)) else None
    case _ => None
  }

  /** A message is admitted into a queue while the chat's running turn already holds it:
      admitAI looks for duplicates in the queue only. */
  ghost predicate Readmits(config: Config, s: State, event: Event) {
    var m := Admits(s, event);
    && m.Some? && m.value < |s.rows| && s.rows[m.value].chat in s.chats && s.chats[s.rows[m.value].chat] < |s.objects|
    && var o := s.objects[s.chats[s.rows[m.value].chat]];
    Duplicates(config, s, o, m.value)
  }

  /** A page that left nothing behind is queued without a message that is due, because the
      judge still holds it: the judge may already have decided. */
  ghost predicate Skips(config: Config, s: State, event: Event) {
    && event.EndOfRefill? && At(s, event.t) && s.tasks[event.t].ReadOver?
    && var read, q := s.tasks[event.t], s.objects[s.tasks[event.t].q].queue;
    && !read.failed && |read.page| != config.limits.maxPending && !q.overflow
    && exists m: nat :: m in read.page && Due(s, m) && JudgedHere(q, m)
  }

  // ---- Objects ---------------------------------------------------------------------

  /** Admission duplicates what the chat owes exactly when it readmits. */
  lemma AdmitDistinct(held: seq<MessageId>, q: Queue, m: MessageId, limits: Limits, live: bool)
    requires Distinct(held + q.pending)
    ensures Distinct(held + Admit(q, m, limits, live).pending) <==> !(m in held && Admit(q, m, limits, live).pending != q.pending)
  {
    DistinctParts(held, q.pending);
    var after := Admit(q, m, limits, live).pending;
    if after != q.pending {
      if m in held {
        var k :| 0 <= k < |held| && held[k] == m;
        assert (held + after)[k] == (held + after)[|held + after| - 1];
      } else {
        DistinctJoin(held + q.pending, [m]);
        assert held + after == held + q.pending + [m];
      }
    }
  }

  lemma AdmitAux(config: Config, s: State, s': State, i: nat, o: Object, m: MessageId)
    requires ValidConfig(config) && ObjectOk(config, s.live, s.tasks, i, o) && ObjectAux(config, s, o)
    requires s'.tasks == s.tasks && s'.rows == s.rows && s'.live == s.live
    requires s'.readmitted == if Duplicates(config, s, o, m) then s.readmitted + {m} else s.readmitted
    ensures ObjectAux(config, s', PutQueue(o, Admit(o.queue, m, config.limits, s.live)))
  {
    if s'.readmitted == {} {
      AdmitDistinct(Held(s.tasks, o), o.queue, m, config.limits, s.live);
    }
    var o' := PutQueue(o, Admit(o.queue, m, config.limits, s.live));
    assert forall x: nat :: JudgedHere(o'.queue, x) <==> JudgedHere(o.queue, x);
  }

  lemma {:induction false} QueueableMembers(q: Queue, rows: seq<Row>, page: seq<MessageId>)
    ensures forall m :: m in Queueable(q, rows, page) <==>
                        m in page && !(m < |rows| && rows[m].command) && !JudgedHere(q, m)
    ensures Distinct(page) ==> Distinct(Queueable(q, rows, page))
  {
    if page != [] {
      QueueableMembers(q, rows, page[1..]);
      if Distinct(page) {
        DistinctParts([page[0]], page[1..]);
        DistinctJoin([page[0]], Queueable(q, rows, page[1..]));
      }
    }
  }

  /** A page is distinct, and holds every unfinished message of the chat unless it is full. */
  lemma {:induction false} PageHolds(rows: seq<Row>, key: Chat, from: nat, limit: nat)
    ensures var page := Page(rows, key, from, limit);
            && Distinct(page)
            && (forall m | m in page :: from <= m < |rows| && rows[m].chat == key && Listed(rows[m]))
            && (|page| < limit ==> forall m: nat | from <= m < |rows| && rows[m].chat == key && Listed(rows[m]) :: m in page)
    decreases |rows| - from
  {
    if from < |rows| && limit > 0 {
      if rows[from].chat == key && Listed(rows[from]) {
        PageHolds(rows, key, from + 1, limit - 1);
        DistinctJoin([from], Page(rows, key, from + 1, limit - 1));
      } else {
        PageHolds(rows, key, from + 1, limit);
      }
    }
  }

  lemma TurnEndOwes(q: Queue, rest: seq<MessageId>, redo: seq<MessageId>, failed: bool, live: bool)
    requires Distinct(redo + rest + q.pending)
    ensures Distinct(FinishTurn(q, rest, redo, failed, live).0.pending)
  {
    assert redo + rest + q.pending == redo + (rest + q.pending);
    DistinctParts(redo, rest + q.pending);
  }

  // ---- Steps that end a goroutine ----------------------------------------------------

  /** The state as the object written last sees it. */
  function View(s: State, tasks: Tasks, more: set<MessageId>): State {
    s.(tasks := tasks, excused := s.excused + more)
  }

  /** What is kept does not depend on the other objects, nor on the map of chats. */
  lemma SameViewAux(config: Config, s: State, s': State, o: Object)
    requires s' == s.(objects := s'.objects, chats := s'.chats)
    ensures ObjectAux(config, s', o) <==> ObjectAux(config, s, o)
    ensures AllKept(s', o) <==> AllKept(s, o)
  {
    assert forall m: nat :: Due(s', m) <==> Due(s, m);
  }

  lemma SettleChanges(config: Config, s: State, i: nat, o: Object, t: nat, after: After, more: set<MessageId>)
    requires WorksFor(s.tasks, t, i) && i < |s.objects| && Mapped(s, i) && OnlyTask(s.tasks, TasksAfter(s.tasks, i, t, after), i, t)
    requires SettlesOk(config, s.live, s.tasks, i, s.objects[i], o, t, after)
    ensures Changes(s, Settle(s, i, o, t, after).(excused := s.excused + more), i, ObjectAfter(o, t, after), t)
  {
    hide ObjectOk, OnlyTask;
    var s' := Settle(s, i, o, t, after).(excused := s.excused + more);
    assert forall m: nat :: NotNew(s, s', m);
    hide NotNew, Due;
  }

  lemma SettledQueue(config: Config, live: bool, tasks: Tasks, i: nat, was: Object, o: Object, t: nat, after: After)
    requires SettlesOk(config, live, tasks, i, was, o, t, after)
    ensures QueueOk(ObjectAfter(o, t, after).queue, live)
  {
    hide QueueOk;
  }

  lemma SameRowsAux(s: State, s': State)
    requires RowsAux(s) && s'.rows == s.rows && s'.admitted == s.admitted
    ensures RowsAux(s')
  {
  }

  lemma SettleLoss(config: Config, s: State, i: nat, o: Object, t: nat, after: After, more: set<MessageId>)
    requires Inv(config, s) && Aux(config, s) && NoLoss(s) && WorksFor(s.tasks, t, i) && i < |s.objects|
    requires SettlesOk(config, s.live, s.tasks, i, s.objects[i], o, t, after)
    requires var view := View(s, TasksAfter(s.tasks, i, t, after), more);
             ObjectAux(config, view, ObjectAfter(o, t, after)) && (s.live ==> AllKept(view, ObjectAfter(o, t, after)))
    ensures var s' := Settle(s, i, o, t, after).(excused := s.excused + more); Aux(config, s') && NoLoss(s')
  {
    hide Inv, Aux, NoLoss, ObjectAux, AllKept, Changes, RowsAux;
    WorkerMapped(config, s, t);
    RowsHaveAux(config, s);
    SetTask(s.tasks, i, t, Reading(i));
    var s' := Settle(s, i, o, t, after).(excused := s.excused + more);
    var o' := ObjectAfter(o, t, after);
    assert s'.tasks == TasksAfter(s.tasks, i, t, after);
    SameViewAux(config, View(s, s'.tasks, more), s', o');
    SettleChanges(config, s, i, o, t, after, more);
    SettledQueue(config, s.live, s.tasks, i, s.objects[i], o, t, after);
    SameRowsAux(s, s');
    hide ObjectOk;
    Rebuilt(config, s, s', i, o', t);
  }

  /** An object that is not about to queue a page is judged by what it owes and holds. */
  lemma CarriesAux(config: Config, s: State, s': State, o: Object, o': Object)
    requires ObjectAux(config, s, o) && o'.key == o.key && RowsKeepChat(s.rows, s'.rows)
    requires o'.queue.awaiting == o.queue.awaiting && o'.queue.judging == o.queue.judging
    requires (s'.readmitted == {} ==> Distinct(Owed(s'.tasks, o'))) && !PageReader(s'.tasks, o')
    ensures ObjectAux(config, s', o')
  {
    assert forall x: nat :: JudgedHere(o'.queue, x) <==> JudgedHere(o.queue, x);
  }

  /** After its runner's last critical section an object owes just its queue, unless it reads. */
  lemma OwesQueue(tasks: Tasks, i: nat, o: Object, t: nat, after: After)
    requires o.queue.running <==> after == StartRefill
    ensures var o', tasks' := ObjectAfter(o, t, after), TasksAfter(tasks, i, t, after);
            Owed(tasks', o') == o.queue.pending && !PageReader(tasks', o')
  {
  }

  lemma TurnEndAux(config: Config, s: State, o: Object, q: Queue, t: nat, after: After, more: set<MessageId>)
    requires t in s.tasks && s.tasks[t].TurnOver? && o.runner == t && o.queue.running && !o.queue.refilling
    requires ObjectAux(config, s, o) && QueueOk(o.queue, s.live)
    requires (q, after) == FinishTurn(o.queue, s.tasks[t].rest, s.tasks[t].redo, s.tasks[t].failed, s.live)
    ensures ObjectAux(config, View(s, TasksAfter(s.tasks, s.tasks[t].q, t, after), more), ObjectAfter(PutQueue(o, q), t, after))
  {
    var task := s.tasks[t];
    if s.readmitted == {} {
      TurnEndOwes(o.queue, task.rest, task.redo, task.failed, s.live);
    }
    FinishTurnKeepsOk(o.queue, task.rest, task.redo, task.failed, s.live);
    var o' := PutQueue(o, q);
    OwesQueue(s.tasks, task.q, o', t, after);
    CarriesAux(config, s, View(s, TasksAfter(s.tasks, task.q, t, after), more), o, ObjectAfter(o', t, after));
  }

  lemma TurnEndKept(config: Config, s: State, o: Object, q: Queue, t: nat, after: After, more: set<MessageId>)
    requires s.live && t in s.tasks && s.tasks[t].TurnOver? && o.runner == t && o.queue.running && !o.queue.refilling
    requires TaskAux(s.tasks[t]) && AllKept(s, o)
    requires (q, after) == FinishTurn(o.queue, s.tasks[t].rest, s.tasks[t].redo, s.tasks[t].failed, s.live)
    requires s.tasks[t].failed && !Retries(o.queue, s.tasks[t].redo, s.tasks[t].failed, s.live) ==>
               forall m | m in s.tasks[t].redo :: m in more
    ensures AllKept(View(s, TasksAfter(s.tasks, s.tasks[t].q, t, after), more), ObjectAfter(PutQueue(o, q), t, after))
  {
    var task := s.tasks[t];
    var view, o' := View(s, TasksAfter(s.tasks, task.q, t, after), more), ObjectAfter(PutQueue(o, q), t, after);
    if after != StartRefill {
      assert q.pending == Requeue(o.queue, task.rest, task.redo, task.failed, s.live) + o.queue.pending;
      forall m: nat | Due(view, m) && s.rows[m].chat == o.key ensures Unfinished(view.rows, m) && Kept(view.tasks, o', m) {
        assert Due(s, m) && Kept(s.tasks, o, m);
        if !o.queue.overflow {
          assert m in task.redo || m in task.rest || m in o.queue.pending;
          assert m in q.pending;
        }
      }
    }
  }

  lemma ChatKept(config: Config, s: State, i: nat)
    requires NoLoss(s) && s.live && Mapped(s, i)
    ensures AllKept(s, s.objects[i])
  {
  }

  lemma TaskHasAux(config: Config, s: State, t: nat)
    requires Aux(config, s) && t in s.tasks
    ensures TaskAux(s.tasks[t])
  {
  }

  lemma EndOfTurnLoss(config: Config, s: State, t: nat)
    requires Inv(config, s) && Aux(config, s) && NoLoss(s) && At(s, t) && s.tasks[t].TurnOver?
    ensures var s' := EndOfTurnStep(s, t); Aux(config, s') && NoLoss(s')
  {
    var task := s.tasks[t];
    var i := task.q;
    var o := s.objects[i];
    WorkerIsMapped(config, s, t);
    ObjectHasAux(config, s, i);
    TaskHasAux(config, s, t);
    EndOfTurnObject(config, s.live, s.tasks, i, o, t);
    if s.live {
      ChatKept(config, s, i);
    }
    hide Inv, Aux, NoLoss;
    var (q, after) := FinishTurn(o.queue, task.rest, task.redo, task.failed, s.live);
    var givenUp := if task.failed && s.live && !Retries(o.queue, task.redo, task.failed, s.live) then set m | m in task.redo else {};
    TurnEndAux(config, s, o, q, t, after, givenUp);
    if s.live {
      TurnEndKept(config, s, o, q, t, after, givenUp);
    }
    hide ObjectAux, AllKept, SettlesOk, FinishTurn;
    SettleLoss(config, s, i, PutQueue(o, q), t, after, givenUp);
  }

  /** What an inbox read leaves: the queueable messages of its page, and, when the read worked,
      a reason to read again exactly when the page was full or something arrived meanwhile. */
  lemma FinishRefillShape(q: Queue, rows: seq<Row>, page: seq<MessageId>, failed: bool, limits: Limits, live: bool)
    requires q.pending == []
    ensures var (q', after) := FinishRefill(q, rows, page, failed, limits, live);
            && q'.pending == Queueable(q, rows, page) && q'.awaiting == q.awaiting && q'.judging == q.judging
            && (q'.running <==> after == StartRefill) && (q'.refilling <==> after == StartRefill)
            && (live && !failed ==> (q'.overflow || q'.refilling <==> q.overflow || |page| == limits.maxPending))
  {
  }

  lemma PageEndAux(config: Config, s: State, o: Object, q: Queue, t: nat, after: After, more: set<MessageId>)
    requires t in s.tasks && s.tasks[t].ReadOver? && o.runner == t && o.queue.running && o.queue.refilling
    requires ObjectAux(config, s, o) && QueueOk(o.queue, s.live) && ValidConfig(config)
    requires (q, after) == FinishRefill(o.queue, s.rows, s.tasks[t].page, s.tasks[t].failed, config.limits, s.live)
    ensures ObjectAux(config, View(s, TasksAfter(s.tasks, s.tasks[t].q, t, after), more), ObjectAfter(PutQueue(o, q), t, after))
  {
    var task := s.tasks[t];
    QueueableMembers(o.queue, s.rows, task.page);
    FinishRefillShape(o.queue, s.rows, task.page, task.failed, config.limits, s.live);
    hide FinishRefill, Queueable;
    var o' := PutQueue(o, q);
    OwesQueue(s.tasks, task.q, o', t, after);
    CarriesAux(config, s, View(s, TasksAfter(s.tasks, task.q, t, after), more), o, ObjectAfter(o', t, after));
  }

  /** The page being queued leaves nothing behind in the inbox but what the judge holds. */
  ghost predicate SkipsHeld(config: Config, s: State, read: Task, q: Queue)
    requires read.ReadOver?
  {
    && !read.failed && |read.page| != config.limits.maxPending && !q.overflow
    && exists m: nat :: m in read.page && Due(s, m) && JudgedHere(q, m)
  }

  lemma PageEndKept(config: Config, s: State, o: Object, q: Queue, t: nat, after: After, more: set<MessageId>)
    requires s.live && t in s.tasks && s.tasks[t].ReadOver? && o.runner == t && o.queue.running && o.queue.refilling
    requires ObjectAux(config, s, o) && QueueOk(o.queue, s.live) && RowsAux(s) && ValidConfig(config) && AllKept(s, o)
    requires (q, after) == FinishRefill(o.queue, s.rows, s.tasks[t].page, s.tasks[t].failed, config.limits, s.live)
    requires if s.tasks[t].failed then forall m | m in s.admitted && m < |s.rows| && s.rows[m].chat == o.key :: m in more
             else more == {}
    ensures var view, o' := View(s, TasksAfter(s.tasks, s.tasks[t].q, t, after), more), ObjectAfter(PutQueue(o, q), t, after);
            if SkipsHeld(config, s, s.tasks[t], o.queue)
            then exists m: nat :: Due(view, m) && s.rows[m].chat == o.key && !Kept(view.tasks, o', m) && !Idle(o'.queue)
            else AllKept(view, o')
  {
    var task := s.tasks[t];
    var view, o' := View(s, TasksAfter(s.tasks, task.q, t, after), more), ObjectAfter(PutQueue(o, q), t, after);
    QueueableMembers(o.queue, s.rows, task.page);
    FinishRefillShape(o.queue, s.rows, task.page, task.failed, config.limits, s.live);
    hide FinishRefill, Queueable;
    OwesQueue(s.tasks, task.q, PutQueue(o, q), t, after);
    assert PageReader(s.tasks, o);
    if SkipsHeld(config, s, task, o.queue) {
      var m: nat :| m in task.page && Due(s, m) && JudgedHere(o.queue, m);
      assert m !in q.pending;
      assert !q.overflow && !q.refilling;
      assert Due(view, m) && s.rows[m].chat == o.key && !Kept(view.tasks, o', m) && !Idle(o'.queue);
    } else if !task.failed && |task.page| != config.limits.maxPending && !o.queue.overflow {
      forall m: nat | Due(view, m) && s.rows[m].chat == o.key ensures Unfinished(view.rows, m) && Kept(view.tasks, o', m) {
        assert Due(s, m) && m in task.page;
        assert m in q.pending;
      }
    }
  }

  /** What a failed read accounts for. */
  function LeftBehind(s: State, t: nat): set<MessageId>
    requires At(s, t) && s.tasks[t].ReadOver?
  {
    if s.tasks[t].failed && s.live
    then set m | m in s.admitted && m < |s.rows| && s.rows[m].chat == s.objects[s.tasks[t].q].key else {}
  }

  /** The end of an inbox read loses no message exactly when it does not skip one that is due. */
  lemma EndOfRefillLoss(config: Config, s: State, t: nat)
    requires Inv(config, s) && Aux(config, s) && NoLoss(s) && ValidConfig(config) && At(s, t) && s.tasks[t].ReadOver?
    ensures var s' := EndOfRefillStep(config, s, t);
            if s.live && SkipsHeld(config, s, s.tasks[t], s.objects[s.tasks[t].q].queue) then !NoLoss(s')
            else Aux(config, s') && NoLoss(s')
  {
    var task := s.tasks[t];
    var i := task.q;
    var o := s.objects[i];
    WorkerIsMapped(config, s, t);
    ObjectHasAux(config, s, i);
    if s.live {
      ChatKept(config, s, i);
    }
    hide Inv, Aux, NoLoss;
    var (q, after) := FinishRefill(o.queue, s.rows, task.page, task.failed, config.limits, s.live);
    if s.live {
      PageEndKept(config, s, o, q, t, after, LeftBehind(s, t));
      hide FinishRefill, SkipsHeld, ObjectAux, AllKept;
      if SkipsHeld(config, s, task, o.queue) {
        SkippedIsLost(config, s, i, PutQueue(o, q), t, after, LeftBehind(s, t));
      } else {
        PageEndSettles(config, s, t, q, after);
      }
    } else {
      PageEndSettles(config, s, t, q, after);
    }
  }

  lemma PageEndSettles(config: Config, s: State, t: nat, q: Queue, after: After)
    requires Inv(config, s) && Aux(config, s) && NoLoss(s) && ValidConfig(config) && At(s, t) && s.tasks[t].ReadOver?
    requires var task, o := s.tasks[t], s.objects[s.tasks[t].q];
             && (q, after) == FinishRefill(o.queue, s.rows, task.page, task.failed, config.limits, s.live)
             && (s.live ==> AllKept(View(s, TasksAfter(s.tasks, task.q, t, after), LeftBehind(s, t)), ObjectAfter(PutQueue(o, q), t, after)))
    ensures var s' := Settle(s, s.tasks[t].q, PutQueue(s.objects[s.tasks[t].q], q), t, after).(excused := s.excused + LeftBehind(s, t));
            Aux(config, s') && NoLoss(s')
  {
    var o, i := s.objects[s.tasks[t].q], s.tasks[t].q;
    WorkerIsMapped(config, s, t);
    ObjectHasAux(config, s, i);
    EndOfRefillObject(config, s.live, s.tasks, i, o, t, s.rows);
    PageEndAux(config, s, o, q, t, after, LeftBehind(s, t));
    hide Inv, Aux, NoLoss, ObjectAux, AllKept, SettlesOk, FinishRefill;
    SettleLoss(config, s, i, PutQueue(o, q), t, after, LeftBehind(s, t));
  }

  lemma SkippedIsLost(config: Config, s: State, i: nat, o: Object, t: nat, after: After, more: set<MessageId>)
    requires s.live && Mapped(s, i) && o.key == s.objects[i].key
    requires var view, o' := View(s, TasksAfter(s.tasks, i, t, after), more), ObjectAfter(o, t, after);
             exists m: nat :: Due(view, m) && s.rows[m].chat == o.key && !Kept(view.tasks, o', m) && !Idle(o'.queue)
    ensures !NoLoss(Settle(s, i, o, t, after).(excused := s.excused + more))
  {
    var view, o' := View(s, TasksAfter(s.tasks, i, t, after), more), ObjectAfter(o, t, after);
    var m: nat :| Due(view, m) && s.rows[m].chat == o.key && !Kept(view.tasks, o', m) && !Idle(o'.queue);
    var s' := Settle(s, i, o, t, after).(excused := s.excused + more);
    assert s'.objects[i] == o' && s'.tasks == view.tasks;
    assert Due(s', m) && !KeptByChat(s', m);
  }

  // ---- Steps that leave what the chat owes alone ----------------------------------------

  /** The object owes, reads and holds what it did. */
  ghost predicate SameWork(config: Config, rows: seq<Row>, o: Object, o': Object) {
    && o'.key == o.key && o'.runner == o.runner
    && o'.queue.pending == o.queue.pending && o'.queue.running == o.queue.running
    && o'.queue.overflow == o.queue.overflow && o'.queue.refilling == o.queue.refilling
    && HeldOk(rows, o') && (!config.smart ==> o'.queue.awaiting == [] && o'.queue.judging == [])
  }

  lemma SameWorkSettled(config: Config, s: State, s': State, o: Object, o': Object)
    requires ObjectAux(config, s, o) && SameWork(config, s.rows, o, o')
    requires SameBooks(s, s')
    requires Held(s'.tasks, o) == Held(s.tasks, o) && (PageReader(s'.tasks, o) <==> PageReader(s.tasks, o))
    requires PageReader(s.tasks, o) ==> s'.tasks[o.runner] == s.tasks[o.runner]
    ensures ObjectAux(config, s', o')
    ensures AllKept(s, o) ==> AllKept(s', o')
  {
  }

  /** The inbox and its accounts stay as they are. */
  ghost predicate SameBooks(s: State, s': State) {
    && s'.rows == s.rows && s'.admitted == s.admitted && s'.excused == s.excused && s'.live == s.live
    && s'.readmitted == s.readmitted && s'.into == s.into
  }

  /** Object i became o, goroutine t changed, and nothing was admitted, answered or reported. */
  ghost predicate QuietlyChanges(s: State, s': State, i: nat, o: Object, t: nat) {
    && i < |s.objects| && SameBooks(s, s') && s'.objects == s.objects[i := o] && o.key == s.objects[i].key
    && OnlyTask(s.tasks, s'.tasks, i, t)
    && (s'.chats == s.chats || (Mapped(s, i) && Idle(o.queue) && s'.chats == s.chats - {o.key}))
  }

  lemma QuietChange(s: State, s': State, i: nat, o: Object, t: nat)
    requires QuietlyChanges(s, s', i, o, t)
    ensures Changes(s, s', i, o, t)
  {
    assert forall x: nat :: Due(s', x) <==> Due(s, x);
  }

  /** Goroutine t, which is not the runner of the object, changes along with it. */
  lemma SameWorkKeeps(config: Config, s: State, s': State, i: nat, o: Object, t: nat)
    requires Inv(config, s) && Aux(config, s) && NoLoss(s) && QuietlyChanges(s, s', i, o, t)
    requires SameWork(config, s.rows, s.objects[i], o) && QueueOk(o.queue, s.live)
    requires o.queue.running ==> o.runner != t
    requires t in s'.tasks ==> TaskAux(s'.tasks[t])
    ensures Aux(config, s') && NoLoss(s')
  {
    ObjectHasAux(config, s, i);
    if s.live && Mapped(s, i) {
      ChatKept(config, s, i);
    }
    hide Inv, Aux, NoLoss;
    SameWorkSettled(config, s, s', s.objects[i], o);
    QuietChange(s, s', i, o, t);
    Rebuilt(config, s, s', i, o, t);
  }

  lemma WithChatLoss(config: Config, s: State, key: Chat)
    requires Inv(config, s) && Aux(config, s) && NoLoss(s)
    ensures Aux(config, WithChat(s, key)) && NoLoss(WithChat(s, key))
  {
    var s' := WithChat(s, key);
    if key !in s.chats {
      forall j | 0 <= j < |s'.objects| ensures ObjectAux(config, s', s'.objects[j]) {
        if j < |s.objects| {
          assert s'.objects[j] == s.objects[j];
          assert ObjectAux(config, s, s.objects[j]);
        }
      }
      forall m: nat | s.live && Due(s', m) ensures KeptByChat(s', m) {
        assert Due(s, m) && KeptByChat(s, m);
        assert s'.objects[s'.chats[s.rows[m].chat]] == s.objects[s.chats[s.rows[m].chat]];
      }
    }
  }

  lemma AdmitLoss(config: Config, s: State, key: Chat, m: MessageId)
    requires Inv(config, s) && Aux(config, s) && NoLoss(s) && ValidConfig(config)
    requires m < |s.rows| && s.rows[m].chat == key && !s.rows[m].command
    ensures var s' := AdmitStep(config, s, key, m); Aux(config, s') && NoLoss(s')
  {
    WithChatKeeps(config, s, key);
    WithChatLoss(config, s, key);
    hide Inv, Aux, NoLoss;
    var s1 := WithChat(s, key);
    assert AdmitStep(config, s1, key, m) == AdmitStep(config, s, key, m) by { hide Admit; }
    AdmitMapped(config, s1, s1.chats[key], m);
  }

  lemma AdmitMapped(config: Config, s: State, i: nat, m: MessageId)
    requires Inv(config, s) && Aux(config, s) && NoLoss(s) && ValidConfig(config)
    requires m < |s.rows| && !s.rows[m].command && Mapped(s, i) && s.objects[i].key == s.rows[m].chat
    ensures var s' := AdmitStep(config, s, s.rows[m].chat, m); Aux(config, s') && NoLoss(s')
  {
    var o := s.objects[i];
    var o' := PutQueue(o, Admit(o.queue, m, config.limits, s.live));
    ObjectIsOk(config, s, i);
    ObjectHasAux(config, s, i);
    AdmitObject(config, s.live, s.tasks, i, o, m);
    var s' := AdmitStep(config, s, s.rows[m].chat, m);
    if s.live {
      ChatKept(config, s, i);
      AdmitKept(config, s, s', o, m);
    }
    AdmitAux(config, s, s', i, o, m);
    hide Inv, Aux, NoLoss, ObjectAux, Admit, AllKept;
    AdmitWrites(config, s, i, o', m, Duplicates(config, s, o, m));
  }

  lemma AdmitWrites(config: Config, s: State, i: nat, o: Object, m: MessageId, again: bool)
    requires Inv(config, s) && Aux(config, s) && NoLoss(s) && m < |s.rows| && !s.rows[m].command
    requires Mapped(s, i) && o.key == s.objects[i].key == s.rows[m].chat && QueueOk(o.queue, s.live)
    requires var s' := Recorded(Write(s, i, o), m, again);
             ObjectAux(config, s', o) && (s.live ==> AllKept(s', o))
    ensures var s' := Recorded(Write(s, i, o), m, again);
            Aux(config, s') && NoLoss(s')
  {
    ObjectHasAux(config, s, i);
    var s' := Recorded(Write(s, i, o), m, again);
    hide Inv, Aux, NoLoss, ObjectAux;
    var t := FreshTask(s.tasks);
    AdmitChanges(s, i, o, m, t, again);
    hide Changes, RowsAux, AllKept, OnlyTask;
    Rebuilt(config, s, s', i, o, t);
  }

  lemma AdmitChanges(s: State, i: nat, o: Object, m: MessageId, t: nat, again: bool)
    requires Mapped(s, i) && o.key == s.objects[i].key && RowsAux(s) && m < |s.rows| && !s.rows[m].command
    requires s.rows[m].chat == o.key && t !in s.tasks
    ensures var s' := Recorded(Write(s, i, o), m, again);
            RowsAux(s') && Changes(s, s', i, o, t)
  {
    var s' := Recorded(Write(s, i, o), m, again);
    assert forall x: nat :: x != m ==> NotNew(s, s', x);
  }

  lemma AdmitKept(config: Config, s: State, s': State, o: Object, m: MessageId)
    requires s'.tasks == s.tasks && s'.rows == s.rows && s'.into == s.into && AllKept(s, o)
    requires s'.admitted == (if Unfinished(s.rows, m) then s.admitted + {m} else s.admitted)
    requires s'.excused == if Unfinished(s.rows, m) then s.excused - {m} else s.excused
    ensures AllKept(s', PutQueue(o, Admit(o.queue, m, config.limits, s.live)))
  {
    var o' := PutQueue(o, Admit(o.queue, m, config.limits, s.live));
    forall x: nat | Due(s', x) && s'.rows[x].chat == o'.key ensures Unfinished(s'.rows, x) && Kept(s'.tasks, o', x) {
      if x == m && Unfinished(s.rows, m) {
        assert m in o'.queue.pending || o'.queue.overflow;
      } else {
        assert Due(s, x) && Kept(s.tasks, o, x);
      }
    }
  }

  lemma HoldWork(config: Config, rows: seq<Row>, o: Object, m: MessageId, live: bool)
    requires HeldOk(rows, o) && m < |rows| && rows[m].chat == o.key && !rows[m].command && config.smart
    ensures SameWork(config, rows, o, PutQueue(o, AwaitJudgment(o.queue, m, config.limits, live)))
  {
    var q := AwaitJudgment(o.queue, m, config.limits, live);
    assert forall x: nat :: JudgedHere(q, x) ==> x == m || JudgedHere(o.queue, x);
  }

  lemma JudgeTimerWork(config: Config, rows: seq<Row>, o: Object, seqNo: nat, live: bool, t: nat)
    requires HeldOk(rows, o) && (!config.smart ==> o.queue.awaiting == [] && o.queue.judging == [])
    ensures var fired := o.(judgeTimers := o.judgeTimers - {seqNo});
            var o' := PutQueue(fired, OnJudgeTimer(o.queue, seqNo, live).0);
            SameWork(config, rows, o, fired) && SameWork(config, rows, o, o') && SameWork(config, rows, o, o'.(judger := t))
  {
    var q := OnJudgeTimer(o.queue, seqNo, live).0;
    assert forall x: nat :: JudgedHere(q, x) <==> JudgedHere(o.queue, x);
  }

  lemma JudgmentEndWork(config: Config, rows: seq<Row>, o: Object, live: bool)
    requires HeldOk(rows, o) && (!config.smart ==> o.queue.awaiting == [] && o.queue.judging == [])
    ensures SameWork(config, rows, o, PutQueue(o, FinishJudgment(o.queue, config.limits, live).0))
    ensures FinishJudgment(o.queue, config.limits, live).1 != StartRefill
  {
    var q := FinishJudgment(o.queue, config.limits, live).0;
    assert forall x: nat :: JudgedHere(q, x) ==> JudgedHere(o.queue, x);
  }

  lemma EnterWork(config: Config, rows: seq<Row>, o: Object, members: set<nat>)
    requires HeldOk(rows, o) && (!config.smart ==> o.queue.awaiting == [] && o.queue.judging == [])
    ensures SameWork(config, rows, o, PutQueue(o, BeginCommand(o.queue)).(members := members))
  {
    assert forall x: nat :: JudgedHere(BeginCommand(o.queue), x) <==> JudgedHere(o.queue, x);
  }

  lemma HoldMapped(config: Config, s: State, i: nat, m: MessageId)
    requires Inv(config, s) && Aux(config, s) && NoLoss(s) && ValidConfig(config) && config.smart
    requires m < |s.rows| && !s.rows[m].command && Mapped(s, i) && s.objects[i].key == s.rows[m].chat
    ensures var s' := HoldStep(config, s, s.rows[m].chat, m); Aux(config, s') && NoLoss(s')
  {
    hide Inv, Aux, NoLoss, ObjectAux, AwaitJudgment, SameWork, PutQueue;
    var o := s.objects[i];
    ObjectIsOk(config, s, i);
    ObjectHasAux(config, s, i);
    HoldObject(config, s.live, s.tasks, i, o, m);
    HoldWork(config, s.rows, o, m, s.live);
    WriteLoss(config, s, HoldStep(config, s, s.rows[m].chat, m), i, PutQueue(o, AwaitJudgment(o.queue, m, config.limits, s.live)));
  }

  /** A critical section that writes one object and leaves its work alone. */
  lemma WriteLoss(config: Config, s: State, s': State, i: nat, o: Object)
    requires Inv(config, s) && Aux(config, s) && NoLoss(s) && i < |s.objects|
    requires SameWork(config, s.rows, s.objects[i], o) && QueueOk(o.queue, s.live)
    requires SameBooks(s, s') && s'.objects == s.objects[i := o] && s'.tasks == s.tasks
    requires s'.chats == s.chats || (Mapped(s, i) && Idle(o.queue) && s'.chats == s.chats - {o.key})
    ensures Aux(config, s') && NoLoss(s')
  {
    ObjectIsOk(config, s, i);
    hide Inv, Aux, NoLoss;
    var t := FreshTask(s.tasks);
    SameWorkKeeps(config, s, s', i, o, t);
  }

  lemma HoldLoss(config: Config, s: State, key: Chat, m: MessageId)
    requires Inv(config, s) && Aux(config, s) && NoLoss(s) && ValidConfig(config) && config.smart
    requires m < |s.rows| && s.rows[m].chat == key && !s.rows[m].command
    ensures var s' := HoldStep(config, s, key, m); Aux(config, s') && NoLoss(s')
  {
    WithChatKeeps(config, s, key);
    WithChatLoss(config, s, key);
    hide Inv, Aux, NoLoss;
    var s1 := WithChat(s, key);
    assert HoldStep(config, s1, key, m) == HoldStep(config, s, key, m) by { hide AwaitJudgment; }
    HoldMapped(config, s1, s1.chats[key], m);
  }

  lemma EnterMapped(config: Config, s: State, i: nat, t: nat)
    requires Inv(config, s) && Aux(config, s) && NoLoss(s) && Mapped(s, i) && t !in s.tasks
    ensures var s' := EnterStep(s, s.objects[i].key, t); Aux(config, s') && NoLoss(s')
  {
    hide Inv, Aux, NoLoss, ObjectAux, SameWork;
    var o := s.objects[i];
    ObjectIsOk(config, s, i);
    ObjectHasAux(config, s, i);
    EnterObject(config, s.live, s.tasks, i, o, t);
    EnterWork(config, s.rows, o, o.members + {t});
    SetTask(s.tasks, i, t, CommandWaits(i));
    SameWorkKeeps(config, s, EnterStep(s, o.key, t), i, PutQueue(o, BeginCommand(o.queue)).(members := o.members + {t}), t);
  }

  lemma EnterLoss(config: Config, s: State, key: Chat, t: nat)
    requires Inv(config, s) && Aux(config, s) && NoLoss(s) && t !in s.tasks
    ensures var s' := EnterStep(s, key, t); Aux(config, s') && NoLoss(s')
  {
    WithChatKeeps(config, s, key);
    WithChatLoss(config, s, key);
    hide Inv, Aux, NoLoss;
    var s1 := WithChat(s, key);
    assert EnterStep(s1, key, t) == EnterStep(s, key, t);
    EnterMapped(config, s1, s1.chats[key], t);
  }

  lemma JudgeTimerLoss(config: Config, s: State, i: nat, seqNo: nat, t: nat)
    requires Inv(config, s) && Aux(config, s) && NoLoss(s) && ValidConfig(config) && i < |s.objects| && t !in s.tasks
    ensures var s' := JudgeTimerStep(s, i, seqNo, t); Aux(config, s') && NoLoss(s')
  {
    hide Inv, Aux, NoLoss, ObjectAux, SameWork, OnJudgeTimer, PutQueue;
    ObjectIsOk(config, s, i);
    ObjectHasAux(config, s, i);
    JudgeTimerObject(config, s.live, s.tasks, i, s.objects[i], seqNo, t);
    JudgeTimerWork(config, s.rows, s.objects[i], seqNo, s.live, t);
    var fired := s.objects[i].(judgeTimers := s.objects[i].judgeTimers - {seqNo});
    var (q, outcome) := OnJudgeTimer(fired.queue, seqNo, s.live);
    match outcome
    case Stale => WriteLoss(config, s, Write(s, i, fired), i, fired);
    case Nothing => CleanUpLoss(config, s, i, PutQueue(fired, q));
    case Start(burst) => SpawnQuietly(config, s, i, PutQueue(fired, q).(judger := t), t, Judging(i, burst));
  }

  /** A fired timer that starts a goroutine t which takes nothing from the queue. */
  lemma SpawnQuietly(config: Config, s: State, i: nat, o: Object, t: nat, task: Task)
    requires Inv(config, s) && Aux(config, s) && NoLoss(s) && i < |s.objects| && t !in s.tasks && task.q == i && task.Judging?
    requires SameWork(config, s.rows, s.objects[i], o) && ObjectOk(config, s.live, s.tasks[t := task], i, o)
    ensures var s' := Write(s, i, o).(tasks := s.tasks[t := task]); Aux(config, s') && NoLoss(s')
  {
    hide Inv, Aux, NoLoss, QueueOk;
    assert o.queue.running ==> o.runner != t;
    assert o.key == s.objects[i].key && QueueOk(o.queue, s.live);
    hide SameWork, ObjectOk;
    SetTask(s.tasks, i, t, task);
    SameWorkKeeps(config, s, Write(s, i, o).(tasks := s.tasks[t := task]), i, o, t);
  }

  lemma CleanUpLoss(config: Config, s: State, i: nat, o: Object)
    requires Inv(config, s) && Aux(config, s) && NoLoss(s) && i < |s.objects|
    requires SameWork(config, s.rows, s.objects[i], o) && QueueOk(o.queue, s.live)
    ensures var s' := ForgetIfIdle(Write(s, i, o), i); Aux(config, s') && NoLoss(s')
  {
    assert o.key == s.objects[i].key;
    ForgetsQuietly(s, i, o);
    hide Inv, Aux, NoLoss, SameWork, QueueOk, Idle, ForgetIfIdle;
    WriteLoss(config, s, ForgetIfIdle(Write(s, i, o), i), i, o);
  }

  lemma ForgetsQuietly(s: State, i: nat, o: Object)
    requires i < |s.objects| && o.key == s.objects[i].key
    ensures var s' := ForgetIfIdle(Write(s, i, o), i);
            && SameBooks(s, s') && s'.objects == s.objects[i := o] && s'.tasks == s.tasks
            && (s'.chats == s.chats || (Mapped(s, i) && Idle(o.queue) && s'.chats == s.chats - {o.key}))
  {
  }

  lemma TurnTimerLoss(config: Config, s: State, i: nat, seqNo: nat, t: nat)
    requires Inv(config, s) && Aux(config, s) && NoLoss(s) && ValidConfig(config) && i < |s.objects| && t !in s.tasks
    ensures var s' := TurnTimerStep(config, s, i, seqNo, t); Aux(config, s') && NoLoss(s')
  {
    hide Inv, Aux, NoLoss, QueueOk;
    ObjectIsOk(config, s, i);
    ObjectHasAux(config, s, i);
    TurnTimerObject(config, s.live, s.tasks, i, s.objects[i], seqNo, t);
    var fired := s.objects[i].(turnTimers := s.objects[i].turnTimers - {seqNo});
    TurnTimerWork(config, s.rows, s.objects[i], fired, seqNo, s.live);
    var (q, outcome) := OnTimer(fired.queue, seqNo, config.limits, s.live);
    TimerTakes(fired, seqNo, config.limits, s.live, t);
    assert outcome.Start? && Takes(fired, PutQueue(fired, q).(runner := t), t, outcome.batch, s.live)
           ==> Takes(s.objects[i], PutQueue(fired, q).(runner := t), t, outcome.batch, s.live);
    hide ObjectAux, ObjectOk, SameWork, OnTimer, Takes, PutQueue;
    match outcome
    case Stale => WriteLoss(config, s, Write(s, i, fired), i, fired);
    case Nothing => CleanUpLoss(config, s, i, PutQueue(fired, q));
    case Start(batch) => StartTurnLoss(config, s, i, PutQueue(fired, q).(runner := t), t, batch);
  }

  lemma TurnTimerWork(config: Config, rows: seq<Row>, o: Object, fired: Object, seqNo: nat, live: bool)
    requires HeldOk(rows, o) && (!config.smart ==> o.queue.awaiting == [] && o.queue.judging == [])
    requires fired == o.(turnTimers := fired.turnTimers)
    ensures SameWork(config, rows, o, fired)
    ensures var (q, outcome) := OnTimer(o.queue, seqNo, config.limits, live);
            outcome.Nothing? ==> SameWork(config, rows, o, PutQueue(fired, q))
  {
    assert forall x: nat :: JudgedHere(OnTimer(o.queue, seqNo, config.limits, live).0, x) <==> JudgedHere(o.queue, x);
  }

  /** What a starting turn takes is the front of the queue. */
  ghost predicate Takes(was: Object, o: Object, t: nat, batch: seq<MessageId>, live: bool) {
    && o.key == was.key && !was.queue.running && was.queue.pending == batch + o.queue.pending
    && o.queue.overflow == was.queue.overflow && !was.queue.refilling
    && o.queue.awaiting == was.queue.awaiting && o.queue.judging == was.queue.judging
    && o.queue.running && o.runner == t && QueueOk(o.queue, live)
  }

  lemma TimerTakes(o: Object, seqNo: nat, limits: Limits, live: bool, t: nat)
    requires ValidLimits(limits) && QueueOk(o.queue, live)
    ensures var (q, outcome) := OnTimer(o.queue, seqNo, limits, live);
            && (outcome.Start? ==> Takes(o, PutQueue(o, q).(runner := t), t, outcome.batch, live))
            && (outcome.Nothing? ==> QueueOk(PutQueue(o, q).queue, live))
  {
    OnTimerKeepsOk(o.queue, seqNo, limits, live);
  }

  lemma StartTurnWork(config: Config, s: State, was: Object, o: Object, t: nat, batch: seq<MessageId>, i: nat)
    requires Takes(was, o, t, batch, s.live) && ObjectAux(config, s, was)
    ensures var s' := Becomes(s, t, Claiming(i, batch));
            ObjectAux(config, s', o) && (AllKept(s, was) ==> AllKept(s', o))
  {
    var s' := Becomes(s, t, Claiming(i, batch));
    assert Owed(s'.tasks, o) == Owed(s.tasks, was);
    CarriesAux(config, s, s', was, o);
    assert forall x: nat :: Due(s', x) <==> Due(s, x);
  }

  lemma StartTurnLoss(config: Config, s: State, i: nat, o: Object, t: nat, batch: seq<MessageId>)
    requires Inv(config, s) && Aux(config, s) && NoLoss(s) && i < |s.objects| && t !in s.tasks
    requires Takes(s.objects[i], o, t, batch, s.live)
    ensures var s' := Write(s, i, o).(tasks := s.tasks[t := Claiming(i, batch)]); Aux(config, s') && NoLoss(s')
  {
    var s' := Write(s, i, o).(tasks := s.tasks[t := Claiming(i, batch)]);
    ObjectHasAux(config, s, i);
    if s.live && Mapped(s, i) {
      ChatKept(config, s, i);
    }
    assert o.key == s.objects[i].key && QueueOk(o.queue, s.live);
    hide Inv, Aux, NoLoss, QueueOk, Takes;
    StartTurnWork(config, s, s.objects[i], o, t, batch, i);
    SameView(config, Becomes(s, t, Claiming(i, batch)), s', o);
    hide ObjectAux, AllKept;
    SetTask(s.tasks, i, t, Claiming(i, batch));
    QuietChange(s, s', i, o, t);
    Rebuilt(config, s, s', i, o, t);
  }

  lemma SameView(config: Config, s: State, s': State, o: Object)
    requires SameBooks(s, s') && s'.tasks == s.tasks
    ensures ObjectAux(config, s, o) <==> ObjectAux(config, s', o)
    ensures AllKept(s, o) <==> AllKept(s', o)
  {
    assert forall x: nat :: Due(s', x) <==> Due(s, x);
  }

  lemma EndOfJudgmentLoss(config: Config, s: State, t: nat)
    requires Inv(config, s) && Aux(config, s) && NoLoss(s) && ValidConfig(config) && At(s, t) && s.tasks[t].JudgeOver?
    ensures var s' := EndOfJudgmentStep(config, s, t); Aux(config, s') && NoLoss(s')
  {
    var i := s.tasks[t].q;
    var o := s.objects[i];
    WorkerIsMapped(config, s, t);
    ObjectHasAux(config, s, i);
    EndOfJudgmentObject(config, s.live, s.tasks, i, o, t);
    JudgmentEndWork(config, s.rows, o, s.live);
    var (q, after) := FinishJudgment(o.queue, config.limits, s.live);
    hide Inv, Aux, NoLoss, ObjectAux, SameWork;
    EndedLoss(config, s, i, PutQueue(o, q), t, after);
  }

  /** Goroutine t, which ran no turn, ends and leaves the chat's work alone. */
  lemma EndedLoss(config: Config, s: State, i: nat, o: Object, t: nat, after: After)
    requires Inv(config, s) && Aux(config, s) && NoLoss(s) && WorksFor(s.tasks, t, i) && i < |s.objects| && !s.tasks[t].IsRunner()
    requires SettlesOk(config, s.live, s.tasks, i, s.objects[i], o, t, after) && after != StartRefill
    requires SameWork(config, s.rows, s.objects[i], o)
    ensures var s' := Settle(s, i, o, t, after); Aux(config, s') && NoLoss(s')
  {
    WorkerIsMapped(config, s, t);
    assert o.queue.running ==> o.runner != t;
    assert QueueOk(o.queue, s.live) && o.key == s.objects[i].key;
    hide Inv, Aux, NoLoss, SameWork, SettlesOk, ObjectOk, QueueOk;
    SetTask(s.tasks, i, t, Reading(i));
    SettleQuietly(s, i, o, t, after);
    SameWorkKeeps(config, s, Settle(s, i, o, t, after), i, o, t);
  }

  lemma SettleQuietly(s: State, i: nat, o: Object, t: nat, after: After)
    requires i < |s.objects| && after != StartRefill && o.key == s.objects[i].key && OnlyTask(s.tasks, s.tasks - {t}, i, t)
    ensures QuietlyChanges(s, Settle(s, i, o, t, after), i, o, t)
    ensures t !in Settle(s, i, o, t, after).tasks
  {
  }

  lemma EndOfCommandLoss(config: Config, s: State, t: nat)
    requires Inv(config, s) && Aux(config, s) && NoLoss(s) && At(s, t) && s.tasks[t].CommandLeaves?
    requires s.objects[s.tasks[t].q].queue.users > 0
    ensures var s' := EndOfCommandStep(s, t); Aux(config, s') && NoLoss(s')
  {
    hide Inv, Aux, NoLoss, ObjectAux, SettlesOk, SameWork, EndCommand;
    var i := s.tasks[t].q;
    var o := s.objects[i];
    WorkerIsMapped(config, s, t);
    ObjectHasAux(config, s, i);
    EndOfCommandObject(config, s.live, s.tasks, i, o, t);
    if s.live {
      ChatKept(config, s, i);
    }
    hide AllKept;
    var (q, after) := EndCommand(o.queue, s.live);
    var o' := PutQueue(o, q).(members := o.members - {t});
    CommandEndAux(config, s, o, t, i);
    hide PutQueue;
    if after == StartRefill {
      SettleLoss(config, s, i, o', t, after, {});
      assert Settle(s, i, o', t, after).(excused := s.excused + {}) == Settle(s, i, o', t, after);
    } else {
      EndedLoss(config, s, i, o', t, after);
    }
  }

  lemma CommandEndAux(config: Config, s: State, o: Object, t: nat, i: nat)
    requires ObjectAux(config, s, o) && o.queue.users > 0
    ensures var (q, after) := EndCommand(o.queue, s.live);
            var o' := PutQueue(o, q).(members := o.members - {t});
            if after == StartRefill
            then var view, last := View(s, TasksAfter(s.tasks, i, t, after), {}), ObjectAfter(o', t, after);
                 ObjectAux(config, view, last) && (AllKept(s, o) ==> AllKept(view, last))
            else SameWork(config, s.rows, o, o') && after != StartRefill
  {
    CommandEndWork(config, s.rows, o, o.members - {t}, s.live);
    var (q, after) := EndCommand(o.queue, s.live);
    var o' := PutQueue(o, q).(members := o.members - {t});
    if after == StartRefill {
      hide EndCommand;
      OwesQueue(s.tasks, i, o', t, after);
      CarriesAux(config, s, View(s, TasksAfter(s.tasks, i, t, after), {}), o, ObjectAfter(o', t, after));
    }
  }

  lemma CommandEndWork(config: Config, rows: seq<Row>, o: Object, members: set<nat>, live: bool)
    requires HeldOk(rows, o) && (!config.smart ==> o.queue.awaiting == [] && o.queue.judging == []) && o.queue.users > 0
    ensures var (q, after) := EndCommand(o.queue, live);
            var o' := PutQueue(o, q).(members := members);
            if after == StartRefill then q.running && q.refilling && q.pending == [] && q.awaiting == o.queue.awaiting && q.judging == o.queue.judging
            else SameWork(config, rows, o, o')
  {
    assert forall x: nat :: JudgedHere(EndCommand(o.queue, live).0, x) <==> JudgedHere(o.queue, x);
  }

  // ---- Steps of one goroutine between critical sections ----------------------------------

  /** A goroutine moves on; the inbox may change with it. */
  lemma MovesOnLoss(config: Config, s: State, s': State, t: nat)
    requires Inv(config, s) && Aux(config, s) && NoLoss(s) && t in s.tasks && t in s'.tasks && s'.tasks[t].q == s.tasks[t].q
    requires s' == s.(tasks := s.tasks[t := s'.tasks[t]], rows := s'.rows, into := s'.into)
    requires RowsKeepChat(s.rows, s'.rows) && RowsAux(s') && TaskAux(s'.tasks[t])
    requires forall x: nat :: NotNew(s, s', x)
    requires s.tasks[t].q < |s.objects| ==> ObjectAux(config, s', s.objects[s.tasks[t].q])
    requires s.tasks[t].q < |s.objects| && s.live ==> AllKept(s', s.objects[s.tasks[t].q])
    ensures Aux(config, s') && NoLoss(s')
  {
    var i := s.tasks[t].q;
    WorkerIsMapped(config, s, t);
    var o := s.objects[i];
    assert QueueOk(o.queue, s.live);
    hide Inv, Aux, NoLoss, ObjectAux, AllKept, ObjectOk, TaskOk, QueueOk, RowsAux, TaskAux;
    MovesOnChanges(s, s', i, t);
    hide Due;
    Rebuilt(config, s, s', i, o, t);
  }

  lemma MovesOnChanges(s: State, s': State, i: nat, t: nat)
    requires i < |s.objects| && t in s.tasks && t in s'.tasks && s'.tasks[t].q == s.tasks[t].q == i
    requires s' == s.(tasks := s.tasks[t := s'.tasks[t]], rows := s'.rows, into := s'.into)
    requires RowsKeepChat(s.rows, s'.rows) && forall x: nat :: NotNew(s, s', x)
    ensures Changes(s, s', i, s.objects[i], t)
  {
    SetTask(s.tasks, i, t, s'.tasks[t]);
    assert s'.objects == s.objects[i := s.objects[i]];
  }

  /** The object a goroutine works for, as far as what it owes is concerned. */
  lemma WorkersObject(config: Config, s: State, t: nat)
    requires Inv(config, s) && Aux(config, s) && NoLoss(s) && t in s.tasks
    ensures s.tasks[t].q < |s.objects|
    ensures var o := s.objects[s.tasks[t].q];
            && ObjectAux(config, s, o) && (s.live ==> AllKept(s, o))
            && (s.tasks[t].IsRunner() ==> o.queue.running && o.runner == t)
            && (s.tasks[t].IsRefill() ==> o.queue.refilling)
            && (s.tasks[t].IsJudge() ==> o.queue.judging == s.tasks[t].burst != [])
  {
    WorkerIsMapped(config, s, t);
    ObjectHasAux(config, s, s.tasks[t].q);
    if s.live {
      ChatKept(config, s, s.tasks[t].q);
    }
  }

  /** The running turn t moves on, and still holds everything due that it held. */
  ghost predicate TurnProgresses(s: State, s': State, t: nat) {
    && t in s.tasks && t in s'.tasks && s.tasks[t].IsTurn() && s'.tasks[t].IsTurn() && s'.tasks[t].q == s.tasks[t].q
    && s' == s.(tasks := s.tasks[t := s'.tasks[t]], rows := s'.rows, into := s'.into)
    && RowsKeepChat(s.rows, s'.rows)
    && (forall x: nat :: NotNew(s, s', x))
    && (Distinct(s.tasks[t].Outstanding()) ==> Distinct(s'.tasks[t].Outstanding()))
    && (forall m | m in s'.tasks[t].Outstanding() :: m in s.tasks[t].Outstanding())
    && (s.live ==> forall m: nat | Due(s', m) && m in s.tasks[t].Outstanding() :: m in s'.tasks[t].Outstanding())
  }

  lemma TurnProgressLoss(config: Config, s: State, s': State, t: nat)
    requires Inv(config, s) && Aux(config, s) && NoLoss(s) && TurnProgresses(s, s', t) && RowsAux(s') && TaskAux(s'.tasks[t])
    ensures Aux(config, s') && NoLoss(s')
  {
    WorkersObject(config, s, t);
    hide Inv, Aux, NoLoss;
    TurnMovesOnWork(config, s, s', s.objects[s.tasks[t].q], t);
    hide ObjectAux, AllKept, TaskAux, Due;
    MovesOnLoss(config, s, s', t);
  }

  lemma TurnMovesOnWork(config: Config, s: State, s': State, o: Object, t: nat)
    requires TurnProgresses(s, s', t) && o.queue.running && o.runner == t && ObjectAux(config, s, o)
    ensures ObjectAux(config, s', o)
    ensures s.live && AllKept(s, o) ==> AllKept(s', o)
  {
    if s.readmitted == {} {
      DistinctParts(Held(s.tasks, o), o.queue.pending);
      DistinctJoin(Held(s'.tasks, o), o.queue.pending);
    }
    CarriesAux(config, s, s', o, o);
    if s.live && AllKept(s, o) {
      forall m: nat | Due(s', m) && s'.rows[m].chat == o.key ensures Unfinished(s'.rows, m) && Kept(s'.tasks, o, m) {
        assert NotNew(s, s', m);
        assert Kept(s.tasks, o, m);
      }
    }
  }

  lemma DueIsListed(s: State, m: MessageId)
    requires NoLoss(s) && s.live && Due(s, m)
    ensures Unfinished(s.rows, m)
  {
  }

  lemma TurnBecomes(s: State, t: nat, task: Task)
    requires t in s.tasks && s.tasks[t].IsTurn() && task.IsTurn() && task.q == s.tasks[t].q
    requires Distinct(s.tasks[t].Outstanding()) ==> Distinct(task.Outstanding())
    requires forall m | m in task.Outstanding() :: m in s.tasks[t].Outstanding()
    requires s.live ==> forall m: nat | Due(s, m) && m in s.tasks[t].Outstanding() :: m in task.Outstanding()
    ensures TurnProgresses(s, Becomes(s, t, task), t)
  {
    assert forall x: nat :: Due(Becomes(s, t, task), x) <==> Due(s, x);
    assert forall x: nat :: NotNew(s, Becomes(s, t, task), x);
  }

  lemma TurnBecomesLoss(config: Config, s: State, t: nat, task: Task)
    requires Inv(config, s) && Aux(config, s) && NoLoss(s) && t in s.tasks && TaskAux(task)
    requires TurnProgresses(s, Becomes(s, t, task), t)
    ensures Aux(config, Becomes(s, t, task)) && NoLoss(Becomes(s, t, task))
  {
    assert RowsAux(s);
    hide Inv, Aux, NoLoss, TurnProgresses;
    TurnProgressLoss(config, s, Becomes(s, t, task), t);
  }

  lemma ClaimFailsLoss(config: Config, s: State, t: nat)
    requires Inv(config, s) && Aux(config, s) && NoLoss(s) && At(s, t) && s.tasks[t].Claiming?
    ensures var s' := Becomes(s, t, TurnOver(s.tasks[t].q, s.tasks[t].batch, [], s.tasks[t].batch, true));
            Aux(config, s') && NoLoss(s')
  {
    hide Inv, Aux, NoLoss;
    var task := TurnOver(s.tasks[t].q, s.tasks[t].batch, [], s.tasks[t].batch, true);
    assert task.Outstanding() == s.tasks[t].Outstanding();
    hide TurnProgresses;
    TurnBecomes(s, t, task);
    TurnBecomesLoss(config, s, t, task);
  }

  lemma TurnAnswersLoss(config: Config, s: State, t: nat)
    requires Inv(config, s) && Aux(config, s) && NoLoss(s) && At(s, t) && s.tasks[t].Answering? && !Unfinished(s.rows, s.tasks[t].anchor)
    ensures var s' := Becomes(s, t, TurnOver(s.tasks[t].q, s.tasks[t].batch, s.tasks[t].rest, [], false));
            Aux(config, s') && NoLoss(s')
  {
    hide Inv, Aux, NoLoss;
    var was := s.tasks[t];
    var task := TurnOver(was.q, was.batch, was.rest, [], false);
    assert task.Outstanding() == was.rest;
    if Distinct(was.Outstanding()) {
      DistinctParts([was.anchor], was.rest);
    }
    if s.live && Due(s, was.anchor) {
      DueIsListed(s, was.anchor);
    }
    hide TurnProgresses;
    TurnBecomes(s, t, task);
    TurnBecomesLoss(config, s, t, task);
  }

  lemma TurnFailsLoss(config: Config, s: State, t: nat)
    requires Inv(config, s) && Aux(config, s) && NoLoss(s) && At(s, t) && s.tasks[t].Answering?
    ensures var s' := Becomes(s, t, TurnOver(s.tasks[t].q, s.tasks[t].batch, s.tasks[t].rest, [s.tasks[t].anchor], true));
            Aux(config, s') && NoLoss(s')
  {
    hide Inv, Aux, NoLoss;
    var was := s.tasks[t];
    var task := TurnOver(was.q, was.batch, was.rest, [was.anchor], true);
    assert task.Outstanding() == was.Outstanding();
    hide TurnProgresses;
    TurnBecomes(s, t, task);
    TurnBecomesLoss(config, s, t, task);
  }

  /** What a claim does to the inbox: rows that waited unstarted may be settled, and only what
      becomes part of the anchor is batched. */
  lemma ClaimOnlySettles(rows: seq<Row>, resets: map<Chat, int>, batch: seq<MessageId>, x: nat)
    requires Claim(rows, resets, batch).Claimed? && x < |rows|
    ensures var r := Claim(rows, resets, batch);
            || r.rows[x] == rows[x]
            || (rows[x].state == UNSTARTED && !rows[x].claimed && x in batch
                && (r.rows[x] == rows[x].(state := IGNORED) || (r.rows[x] == rows[x].(state := BATCHED) && x in AllButLast(r.messages))))
  {
    if batch != [] {
      ClaimSplitsBatch(rows, resets, batch);
      InRowOrderSorts(batch);
      var r := Claim(rows, resets, batch);
      var ordered := InRowOrder(batch);
      var reset := ResetOf(resets, rows[batch[0]].chat);
      hide Claim, InRowOrder;
      OrderedSettles(rows, reset, ordered, r.messages, r.rest, r.rows, x);
    }
  }

  lemma OrderedSettles(rows: seq<Row>, reset: Option<int>, ordered: seq<MessageId>, messages: seq<MessageId>,
                       rest: seq<MessageId>, after: seq<Row>, x: nat)
    requires Splits(rows, reset, ordered, messages, rest, after) && x < |rows|
    ensures || after[x] == rows[x]
            || (rows[x].state == UNSTARTED && !rows[x].claimed && x in ordered
                && (after[x] == rows[x].(state := IGNORED) || (after[x] == rows[x].(state := BATCHED) && x in AllButLast(messages))))
  {
    var consumed := ordered[..|ordered| - |rest|];
    NeedingReplyMembers(rows, reset, consumed);
    assert after[x] == RowAfter(rows, reset, consumed, messages, x);
    hide Splits, Selects;
    if x in AllButLast(messages) {
      assert x in messages && |messages| > 1;
    }
  }

  lemma ClaimedRowsAux(s: State, batch: seq<MessageId>)
    requires RowsAux(s) && Claim(s.rows, s.resets, batch).Claimed?
    ensures var r := Claim(s.rows, s.resets, batch);
            && RowsKeepChat(s.rows, r.rows) && RowsAux(s.(rows := r.rows))
            && forall x: nat | Unfinished(r.rows, x) :: Unfinished(s.rows, x)
  {
    var rows' := Claim(s.rows, s.resets, batch).rows;
    forall x: nat | x < |s.rows|
      ensures RowOk(rows'[x]) && rows'[x].chat == s.rows[x].chat && rows'[x].command == s.rows[x].command
              && (Listed(rows'[x]) ==> Listed(s.rows[x]))
    {
      ClaimOnlySettles(s.rows, s.resets, batch, x);
    }
  }

  /** What a claim leaves for the turn to account for: its anchor and what it gives back are all
      of the batch that is still unfinished, whether or not the batch names a message twice. */
  lemma ClaimAccounts(s: State, batch: seq<MessageId>)
    requires RowsAux(s) && Claim(s.rows, s.resets, batch).Claimed?
    ensures var r := Claim(s.rows, s.resets, batch);
            var outstanding := (if r.messages == [] then [] else [Last(r.messages)]) + r.rest;
            && (Distinct(batch) ==> Distinct(outstanding)) && (forall m | m in outstanding :: m in batch)
            && (forall m: nat | Unfinished(r.rows, m) && m in batch :: m in outstanding)
  {
    var r := Claim(s.rows, s.resets, batch);
    var anchor := if r.messages == [] then [] else [Last(r.messages)];
    ClaimNeverGrows(s.rows, s.resets, batch);
    if Distinct(batch) {
      ClaimKeepsDistinct(s.rows, s.resets, batch);
      DistinctJoin(anchor, r.rest);
    }
    ClaimedRowsAux(s, batch);
    forall m: nat | Unfinished(r.rows, m) && m in batch ensures m in anchor + r.rest {
      NothingUnansweredIsDropped(s.rows, s.resets, batch, m);
      assert RowOk(r.rows[m]);
    }
  }

  lemma NothingUnansweredIsDropped(rows: seq<Row>, resets: map<Chat, int>, batch: seq<MessageId>, m: MessageId)
    requires m in batch && Claim(rows, resets, batch).Claimed?
    ensures var r := Claim(rows, resets, batch);
            m in r.rest || (r.messages != [] && m == Last(r.messages)) || !NeedsReply(r.rows, None, m)
  {
    OrderedInRange(rows, batch);
    InRowOrderSorts(batch);
    var reset, ordered := ResetOf(resets, rows[batch[0]].chat), InRowOrder(batch);
    ClaimSplitsBatch(rows, resets, batch);
    var r := Claim(rows, resets, batch);
    hide Claim, InRowOrder, Splits, NeedsReply;
    SplitAccounts(rows, reset, ordered, r.messages, r.rest, r.rows, m);
  }

  /** The event claims a turn whose last message, which is due, is named twice by the batch. */
  ghost predicate BatchesIntoItself(s: State, event: Event) {
    && event.ClaimCommits? && At(s, event.t) && s.tasks[event.t].Claiming?
    && exists m: nat :: SelfBatching(s.rows, s.resets, s.tasks[event.t].batch, m) && Due(s, m)
  }

  lemma ClaimLoss(config: Config, s: State, t: nat)
    requires Inv(config, s) && Aux(config, s) && NoLoss(s) && At(s, t) && s.tasks[t].Claiming?
    requires !(s.live && BatchesIntoItself(s, ClaimCommits(t)))
    ensures var s' := ClaimStep(s, t); Aux(config, s') && NoLoss(s')
  {
    assert RowsAux(s);
    hide Inv, Aux;
    assert s.live ==> forall m: nat | Due(s, m) :: Unfinished(s.rows, m) by {
      assert s.live ==> forall m: nat | Due(s, m) :: KeptByChat(s, m);
    }
    hide NoLoss;
    var was := s.tasks[t];
    match Claim(s.rows, s.resets, was.batch)
    case Rejected(_) => ClaimFailsLoss(config, s, t);
    case Claimed(messages, rest, rows) =>
      var s' := ClaimStep(s, t);
      ClaimProgresses(s, t);
      hide Claim, TurnProgresses;
      TurnProgressLoss(config, s, s', t);
  }

  lemma ClaimProgresses(s: State, t: nat)
    requires RowsAux(s) && At(s, t) && s.tasks[t].Claiming? && Claim(s.rows, s.resets, s.tasks[t].batch).Claimed?
    requires !(s.live && BatchesIntoItself(s, ClaimCommits(t))) && (s.live ==> forall m: nat | Due(s, m) :: Unfinished(s.rows, m))
    ensures var s' := ClaimStep(s, t); TurnProgresses(s, s', t) && RowsAux(s') && TaskAux(s'.tasks[t])
  {
    var batch := s.tasks[t].batch;
    ClaimAccounts(s, batch);
    ClaimedRowsAux(s, batch);
    var r := Claim(s.rows, s.resets, batch);
    var s' := ClaimStep(s, t);
    forall x: nat ensures NotNew(s, s', x) {
      ClaimMakesNothingDue(s, t, x);
    }
    forall m: nat | s.live && Due(s', m) && m in batch ensures Unfinished(s'.rows, m) {
      ClaimMakesNothingDue(s, t, m);
    }
    hide Claim, Due, NotNew;
    assert s'.tasks[t].Outstanding() == (if r.messages == [] then [] else [Last(r.messages)]) + r.rest;
  }

  lemma ClaimMakesNothingDue(s: State, t: nat, x: nat)
    requires RowsAux(s) && At(s, t) && s.tasks[t].Claiming? && Claim(s.rows, s.resets, s.tasks[t].batch).Claimed?
    requires !(s.live && BatchesIntoItself(s, ClaimCommits(t)))
    ensures NotNew(s, ClaimStep(s, t), x)
  {
    hide Claim, SelfBatching;
    if Due(ClaimStep(s, t), x) {
      ClaimOnlySettles(s.rows, s.resets, s.tasks[t].batch, x);
      ClaimBatchesIntoItself(s.rows, s.resets, s.tasks[t].batch, x);
      if SelfBatching(s.rows, s.resets, s.tasks[t].batch, x) {
        SelfBatchedWasOpen(s.rows, s.resets, s.tasks[t].batch, x);
      }
    }
  }

  lemma SelfBatchedWasOpen(rows: seq<Row>, resets: map<Chat, int>, batch: seq<MessageId>, x: nat)
    requires SelfBatching(rows, resets, batch, x)
    ensures x < |rows| && Unfinished(rows, x)
  {
    hide AllKnown, RepeatsBefore;
  }

  ghost predicate Reads(config: Config, s: State, o: Object, t: nat, read: Task)
    requires t in s.tasks
  {
    || read == ReadOver(s.tasks[t].q, [], true)
    || read == ReadOver(s.tasks[t].q, Page(s.rows, o.key, 0, config.limits.maxPending), false)
  }

  lemma ReadAux(config: Config, s: State, o: Object, t: nat, read: Task)
    requires t in s.tasks && s.tasks[t].Reading? && o.queue.running && o.runner == t && o.queue.refilling
    requires ObjectAux(config, s, o) && Reads(config, s, o, t, read) && (s.live ==> AllKept(s, o))
    ensures ObjectAux(config, Becomes(s, t, read), o) && (s.live ==> AllKept(Becomes(s, t, read), o))
  {
    var s' := Becomes(s, t, read);
    PageHolds(s.rows, o.key, 0, config.limits.maxPending);
    hide Page;
    assert forall x: nat :: Due(s', x) <==> Due(s, x);
    assert Owed(s'.tasks, o) == Owed(s.tasks, o);
  }

  lemma ReadLoss(config: Config, s: State, t: nat, read: Task)
    requires Inv(config, s) && Aux(config, s) && NoLoss(s) && At(s, t) && s.tasks[t].Reading?
    requires Reads(config, s, s.objects[s.tasks[t].q], t, read)
    ensures Aux(config, Becomes(s, t, read)) && NoLoss(Becomes(s, t, read))
  {
    hide Inv, Aux, NoLoss, ObjectAux, AllKept, Page, NotNew, RowsAux;
    WorkersObject(config, s, t);
    RowsHaveAux(config, s);
    ReadAux(config, s, s.objects[s.tasks[t].q], t, read);
    ReadKeepsRows(s, Becomes(s, t, read));
    MovesOnLoss(config, s, Becomes(s, t, read), t);
  }

  lemma RowsHaveAux(config: Config, s: State)
    requires Aux(config, s)
    ensures RowsAux(s)
  {
  }

  lemma ReadKeepsRows(s: State, s': State)
    requires s' == s.(tasks := s'.tasks)
    ensures (RowsAux(s) ==> RowsAux(s')) && RowsKeepChat(s.rows, s'.rows) && forall x: nat :: NotNew(s, s', x)
  {
  }

  lemma AsideChanges(s: State, t: nat, task: Task, lock: Option<nat>)
    requires At(s, t) && task.q == s.tasks[t].q
    ensures QuietlyChanges(s, Becomes(SetLock(s, task.q, lock), t, task), task.q, s.objects[task.q].(lock := lock), t)
  {
    SetTask(s.tasks, task.q, t, task);
  }

  lemma NotTheRunner(config: Config, s: State, t: nat)
    requires Inv(config, s) && At(s, t) && !s.tasks[t].IsRunner()
    ensures var o := s.objects[s.tasks[t].q]; QueueOk(o.queue, s.live) && (o.queue.running ==> o.runner != t)
  {
    ObjectIsOk(config, s, s.tasks[t].q);
  }

  lemma AsideWork(config: Config, s: State, o: Object, lock: Option<nat>)
    requires ObjectAux(config, s, o)
    ensures SameWork(config, s.rows, o, o.(lock := lock))
  {
  }

  /** A judge or a command moves on between critical sections, or takes or leaves the lock. */
  lemma AsideLoss(config: Config, s: State, t: nat, task: Task, lock: Option<nat>)
    requires Inv(config, s) && Aux(config, s) && NoLoss(s) && At(s, t) && !s.tasks[t].IsRunner() && task.q == s.tasks[t].q && !task.IsRunner()
    ensures var s' := Becomes(SetLock(s, task.q, lock), t, task); Aux(config, s') && NoLoss(s')
  {
    var i := task.q;
    NotTheRunner(config, s, t);
    ObjectHasAux(config, s, i);
    AsideWork(config, s, s.objects[i], lock);
    AsideChanges(s, t, task, lock);
    hide Inv, Aux, NoLoss, ObjectAux, SameWork, QueueOk, QuietlyChanges, RowsAux;
    SameWorkKeeps(config, s, Becomes(SetLock(s, i, lock), t, task), i, s.objects[i].(lock := lock), t);
  }

  lemma JudgeStopsLoss(config: Config, s: State, t: nat)
    requires Inv(config, s) && Aux(config, s) && NoLoss(s) && At(s, t) && s.tasks[t].Judging?
    ensures var s' := Becomes(s, t, JudgeOver(s.tasks[t].q, s.tasks[t].burst)); Aux(config, s') && NoLoss(s')
  {
    hide Inv, Aux, NoLoss;
    var i := s.tasks[t].q;
    AsideLoss(config, s, t, JudgeOver(i, s.tasks[t].burst), s.objects[i].lock);
    assert SetLock(s, i, s.objects[i].lock).objects == s.objects;
  }

  lemma JudgedMessage(config: Config, s: State, t: nat)
    requires Inv(config, s) && Aux(config, s) && NoLoss(s) && At(s, t) && s.tasks[t].Judging? && s.tasks[t].burst != []
    ensures var o, m := s.objects[s.tasks[t].q], Last(s.tasks[t].burst);
            m < |s.rows| && s.rows[m].chat == o.key && !s.rows[m].command && Mapped(s, s.tasks[t].q)
  {
    WorkersObject(config, s, t);
    WorkerMapped(config, s, t);
    hide Inv, Aux, NoLoss;
    assert JudgedHere(s.objects[s.tasks[t].q].queue, Last(s.tasks[t].burst));
  }

  lemma JudgeAdmitsLoss(config: Config, s: State, t: nat)
    requires Inv(config, s) && Aux(config, s) && NoLoss(s) && ValidConfig(config) && At(s, t) && s.tasks[t].Judging? && s.tasks[t].burst != []
    ensures var s' := JudgeAdmitStep(config, s, t); Aux(config, s') && NoLoss(s')
  {
    hide Inv, Aux, NoLoss;
    var task := s.tasks[t];
    JudgedMessage(config, s, t);
    JudgeStopsLoss(config, s, t);
    OthersMoveOn(config, s, t, [], false);
    hide AdmitStep;
    AdmitLoss(config, Becomes(s, t, JudgeOver(task.q, task.burst)), s.objects[task.q].key, Last(task.burst));
  }

  // ---- Steps outside the queues ----------------------------------------------------------

  /** Rows may be added or settled, and resets recorded; nothing new becomes due. */
  lemma RowsLoss(config: Config, s: State, s': State)
    requires Aux(config, s) && NoLoss(s) && RowsKeepChat(s.rows, s'.rows) && RowsAux(s')
    requires s' == s.(rows := s'.rows, resets := s'.resets)
    requires forall x: nat :: NotNew(s, s', x)
    ensures Aux(config, s') && NoLoss(s')
  {
    assert forall x: nat | Due(s', x) :: NotNew(s, s', x);
    forall j | 0 <= j < |s'.objects| ensures ObjectAux(config, s', s'.objects[j]) {
      assert ObjectAux(config, s, s.objects[j]);
    }
    forall x: nat | s.live && Due(s', x) ensures KeptByChat(s', x) {
      assert NotNew(s, s', x) && KeptByChat(s, x);
    }
  }

  lemma ArriveLoss(config: Config, s: State, row: Row)
    requires Aux(config, s) && NoLoss(s) && row.state == UNSTARTED && !row.claimed
    ensures var s' := s.(rows := s.rows + [row]); Aux(config, s') && NoLoss(s')
  {
    assert RowsAux(s);
    hide Aux, NoLoss;
    RowsLoss(config, s, s.(rows := s.rows + [row]));
  }

  lemma RowChangesLoss(config: Config, s: State, m: MessageId, row: Row)
    requires Aux(config, s) && NoLoss(s) && m < |s.rows| && RowOk(row) && row.chat == s.rows[m].chat && row.command == s.rows[m].command
    requires Listed(row) ==> Listed(s.rows[m]) || BatchedIntoItself(s, m)
    requires row.state == BATCHED && !row.claimed ==> s.rows[m].state == BATCHED && !s.rows[m].claimed
    ensures var s' := s.(rows := s.rows[m := row]); Aux(config, s') && NoLoss(s')
  {
    assert RowsAux(s);
    hide Aux, NoLoss;
    RowsLoss(config, s, s.(rows := s.rows[m := row]));
  }

  lemma ResetLoss(config: Config, s: State, resets: map<Chat, int>)
    requires Aux(config, s) && NoLoss(s)
    ensures Aux(config, s.(resets := resets)) && NoLoss(s.(resets := resets))
  {
    assert RowsAux(s);
    hide Aux, NoLoss;
    RowsLoss(config, s, s.(resets := resets));
  }

  lemma CancelLoss(config: Config, s: State)
    requires Aux(config, s)
    ensures Aux(config, s.(live := false)) && NoLoss(s.(live := false))
  {
    var s' := s.(live := false);
    forall j | 0 <= j < |s'.objects| ensures ObjectAux(config, s', s'.objects[j]) {
      assert ObjectAux(config, s, s.objects[j]);
      assert forall x: nat :: Due(s', x) <==> Due(s, x);
    }
  }

  lemma StopTimersLoss(config: Config, s: State)
    requires Aux(config, s) && !s.live
    ensures var s' := s.(objects := StopAll(s, |s.objects|)); Aux(config, s') && NoLoss(s')
  {
    var s' := s.(objects := StopAll(s, |s.objects|));
    forall j | 0 <= j < |s'.objects| ensures ObjectAux(config, s', s'.objects[j]) {
      assert s'.objects[j] == s.objects[j] || s'.objects[j] == s.objects[j].(queue := Stopped(s.objects[j].queue));
      StoppedAux(config, s, s', s.objects[j]);
    }
  }

  lemma StoppedAux(config: Config, s: State, s': State, o: Object)
    requires ObjectAux(config, s, o) && s' == s.(objects := s'.objects)
    ensures ObjectAux(config, s', o) && ObjectAux(config, s', o.(queue := Stopped(o.queue)))
  {
    assert forall x: nat :: Due(s', x) <==> Due(s, x);
    assert forall x: nat :: JudgedHere(Stopped(o.queue), x) <==> JudgedHere(o.queue, x);
  }

  // ---- Every step, every run ---------------------------------------------------------------

  ghost predicate IsTimerOrEnd(event: Event) {
    event.FireTurnTimer? || event.FireJudgeTimer? || event.EndOfTurn? || event.EndOfJudgment? || event.EndOfCommand?
  }

  lemma TimerOrEndLoss(config: Config, s: State, event: Event)
    requires Inv(config, s) && Aux(config, s) && NoLoss(s) && ValidConfig(config) && Enabled(config, s, event) && IsTimerOrEnd(event)
    ensures Aux(config, Step(config, s, event)) && NoLoss(Step(config, s, event))
  {
    hide Inv, Aux, NoLoss;
    match event
    case FireTurnTimer(i, seqNo, t) => TurnTimerLoss(config, s, i, seqNo, t);
    case FireJudgeTimer(i, seqNo, t) => JudgeTimerLoss(config, s, i, seqNo, t);
    case EndOfTurn(t) => EndOfTurnLoss(config, s, t);
    case EndOfJudgment(t) => EndOfJudgmentLoss(config, s, t);
    case EndOfCommand(t) => EndOfCommandLoss(config, s, t);
  }

  ghost predicate IsOutside(event: Event) {
    event.Arrive? || event.RowChanges? || event.ResetHistory? || event.Cancel? || event.StopTimers?
  }

  lemma OutsideLoss(config: Config, s: State, event: Event)
    requires Aux(config, s) && NoLoss(s) && Enabled(config, s, event) && IsOutside(event)
    ensures Aux(config, Step(config, s, event)) && NoLoss(Step(config, s, event))
  {
    hide Aux, NoLoss;
    match event
    case Arrive(row) => ArriveLoss(config, s, row);
    case RowChanges(m, row) => RowChangesLoss(config, s, m, row);
    case ResetHistory(key, at) => ResetLoss(config, s, s.resets[key := at]);
    case Cancel => CancelLoss(config, s);
    case StopTimers => StopTimersLoss(config, s);
  }

  /** The steps that lose a message: a read that skips one which is due, because the judge, who
      may have decided already, holds it, and a claim that batches one which is due into itself. */
  ghost predicate Loses(config: Config, s: State, event: Event) {
    s.live && (Skips(config, s, event) || BatchesIntoItself(s, event))
  }

  lemma ClaimLosesItsAnchor(s: State, t: nat)
    requires s.live && BatchesIntoItself(s, ClaimCommits(t))
    ensures !NoLoss(ClaimStep(s, t))
  {
    var m: nat :| SelfBatching(s.rows, s.resets, s.tasks[t].batch, m) && Due(s, m);
    hide SelfBatching, NoLoss;
    SelfBatchedRow(s, s.tasks[t].batch, m);
    var s', r := ClaimStep(s, t), Claim(s.rows, s.resets, s.tasks[t].batch);
    assert s'.rows == r.rows && s'.into == s.into + PartsOf(r.messages) && s'.live && s'.admitted == s.admitted && s'.excused == s.excused;
    hide Claim, ClaimStep;
    assert m in PartsOf(r.messages) && PartsOf(r.messages)[m] == m;
    SelfBatchedIsLost(s', m);
  }

  lemma SelfBatchedIsLost(s: State, m: MessageId)
    requires s.live && m in s.admitted && m !in s.excused && BatchedIntoItself(s, m)
    ensures !NoLoss(s)
  {
    assert Due(s, m) && !KeptByChat(s, m);
  }

  lemma SelfBatchedRow(s: State, batch: seq<MessageId>, m: MessageId)
    requires SelfBatching(s.rows, s.resets, batch, m)
    ensures var r := Claim(s.rows, s.resets, batch);
            && AnchorBatched(r) && m == Last(r.messages) && m < |r.rows| && r.rows[m].state == BATCHED && !r.rows[m].claimed
  {
    ClaimBatchesIntoItself(s.rows, s.resets, batch, m);
    LastIsRepeated(s.rows, s.resets, batch);
    AnchorSurvivesUnlessRepeated(s.rows, s.resets, batch);
    ClaimOnlySettles(s.rows, s.resets, batch, m);
    var r := Claim(s.rows, s.resets, batch);
    var was := s.rows[m];
    assert JoinsLast(s.rows, ResetOf(s.resets, s.rows[batch[0]].chat), batch, m);
    hide Claim, RepeatsLast, AnchorBatched, SelfBatching;
  }

  lemma CommandStepsKeepNoLoss(config: Config, s: State, event: Event)
    requires Inv(config, s) && Aux(config, s) && NoLoss(s) && ValidConfig(config) && Enabled(config, s, event)
    requires event.CommandEnters? || event.CommandLocks? || event.CommandUnlocks? || event.JudgeAdmits? || event.JudgeStops?
    ensures Aux(config, Step(config, s, event)) && NoLoss(Step(config, s, event))
  {
    hide Inv, Aux, NoLoss;
    match event
    case JudgeAdmits(t) => JudgeAdmitsLoss(config, s, t);
    case JudgeStops(t) => JudgeStopsLoss(config, s, t);
    case CommandEnters(key, t) => EnterLoss(config, s, key, t);
    case CommandLocks(t) => AsideLoss(config, s, t, CommandRuns(s.tasks[t].q), Some(t));
    case CommandUnlocks(t) => AsideLoss(config, s, t, CommandLeaves(s.tasks[t].q), None);
  }

  lemma TurnStepsKeepNoLoss(config: Config, s: State, event: Event)
    requires Inv(config, s) && Aux(config, s) && NoLoss(s) && ValidConfig(config) && Enabled(config, s, event) && !Loses(config, s, event)
    requires event.ClaimCommits? || event.ClaimFails? || event.TurnAnswers? || event.TurnFails? || event.ReadPage? || event.ReadFails?
    ensures Aux(config, Step(config, s, event)) && NoLoss(Step(config, s, event))
  {
    hide Inv, Aux, NoLoss, Skips;
    match event
    case ClaimCommits(t) => ClaimLoss(config, s, t);
    case ClaimFails(t) => ClaimFailsLoss(config, s, t);
    case TurnAnswers(t) => TurnAnswersLoss(config, s, t);
    case TurnFails(t) => TurnFailsLoss(config, s, t);
    case ReadPage(t) =>
      ReadLoss(config, s, t, ReadOver(s.tasks[t].q, Page(s.rows, s.objects[s.tasks[t].q].key, 0, config.limits.maxPending), false));
    case ReadFails(t) => ReadLoss(config, s, t, ReadOver(s.tasks[t].q, [], true));
  }

  lemma OtherStepsKeepNoLoss(config: Config, s: State, event: Event)
    requires Inv(config, s) && Aux(config, s) && NoLoss(s) && ValidConfig(config) && Enabled(config, s, event)
    requires !Loses(config, s, event) && !event.EndOfRefill?
    ensures Aux(config, Step(config, s, event)) && NoLoss(Step(config, s, event))
  {
    hide Inv, Aux, NoLoss, Loses;
    match event
    case AdmitMessage(m) => AdmitLoss(config, s, s.rows[m].chat, m);
    case HoldMessage(m) => HoldLoss(config, s, s.rows[m].chat, m);
    case _ =>
      hide Enabled, Step;
      if IsOutside(event) {
        OutsideLoss(config, s, event);
      } else if IsTimerOrEnd(event) {
        TimerOrEndLoss(config, s, event);
      } else if event.CommandEnters? || event.CommandLocks? || event.CommandUnlocks? || event.JudgeAdmits? || event.JudgeStops? {
        CommandStepsKeepNoLoss(config, s, event);
      } else {
        TurnStepsKeepNoLoss(config, s, event);
      }
  }

  /** A step of a live dispatcher that has lost nothing loses a message exactly when it is one
      of those two. */
  lemma StepKeepsNoLoss(config: Config, s: State, event: Event)
    requires Inv(config, s) && Aux(config, s) && NoLoss(s) && ValidConfig(config) && Enabled(config, s, event)
    ensures var s' := Step(config, s, event);
            if Loses(config, s, event) then !NoLoss(s') else Aux(config, s') && NoLoss(s')
  {
    hide Inv, Aux, NoLoss;
    match event
    case EndOfRefill(t) => EndOfRefillLoss(config, s, t);
    case ClaimCommits(t) =>
      if s.live && BatchesIntoItself(s, event) {
        ClaimLosesItsAnchor(s, t);
      } else {
        OtherStepsKeepNoLoss(config, s, event);
      }
    case _ => OtherStepsKeepNoLoss(config, s, event);
  }

  /** No event up to state k loses a message. */
  ghost predicate Guarded(config: Config, events: seq<Event>, states: seq<State>, k: nat) {
    |states| == |events| + 1 && k < |states|
    && forall j | 0 <= j < k :: !Loses(config, states[j], events[j])
  }

  lemma {:induction false} GuardedRunKeepsAux(config: Config, events: seq<Event>, states: seq<State>, k: nat)
    requires ValidConfig(config) && Run(config, events, states) && Guarded(config, events, states, k)
    ensures Inv(config, states[k]) && Aux(config, states[k]) && NoLoss(states[k])
  {
    RunKeepsInv(config, events, states, k);
    if k > 0 {
      RunKeepsInv(config, events, states, k - 1);
      GuardedRunKeepsAux(config, events, states, k - 1);
      hide Inv, Aux, NoLoss, Loses, Enabled, Step;
      StepKeepsNoLoss(config, states[k - 1], events[k - 1]);
    }
  }

  /** In every interleaving without such a step, as long as the dispatcher is live, each
      admitted message that is still unanswered is listed by the inbox, and is in its chat's
      queue, in the running turn, or left in the inbox of a chat that will read it back, unless
      it was given up with a report. */
  lemma NothingIsLost(config: Config, events: seq<Event>, states: seq<State>, k: nat, m: MessageId)
    requires ValidConfig(config) && Run(config, events, states) && Guarded(config, events, states, k)
    requires states[k].live && Due(states[k], m)
    ensures var s := states[k];
            var key := s.rows[m].chat;
            && Unfinished(s.rows, m) && key in s.chats && s.chats[key] < |s.objects|
            && var o := s.objects[s.chats[key]];
            || m in o.queue.pending
            || (o.queue.running && o.runner in s.tasks && m in s.tasks[o.runner].Outstanding())
            || o.queue.overflow || o.queue.refilling
  {
    GuardedRunKeepsAux(config, events, states, k);
    assert KeptByChat(states[k], m);
  }

  /** The guard is exact: the first event that loses a message is the first of those two kinds. */
  lemma LostExactlyAtTheseSteps(config: Config, events: seq<Event>, states: seq<State>, k: nat)
    requires ValidConfig(config) && Run(config, events, states) && Guarded(config, events, states, k) && k < |events|
    ensures NoLoss(states[k + 1]) <==> !Loses(config, states[k], events[k])
  {
    GuardedRunKeepsAux(config, events, states, k);
    hide Inv, Aux, NoLoss, Loses, Guarded;
    assert Enabled(config, states[k], events[k]) && states[k + 1] == Step(config, states[k], events[k]);
    hide Run, Enabled, Step;
    StepKeepsNoLoss(config, states[k], events[k]);
  }

  /** At the end of an inbox read: it loses a message if and only if it skips one that is due
      because the judge, which may have decided already, holds it. */
  lemma ReadLosesExactlyWhatItSkips(config: Config, events: seq<Event>, states: seq<State>, k: nat, t: nat)
    requires ValidConfig(config) && Run(config, events, states) && Guarded(config, events, states, k)
    requires k < |events| && events[k] == EndOfRefill(t) && states[k].live
    ensures NoLoss(states[k + 1]) <==> !Skips(config, states[k], events[k])
  {
    hide Guarded, Run, NoLoss, Skips;
    LostExactlyAtTheseSteps(config, events, states, k);
  }

  /** At a claim: it loses a message if and only if the last message its turn would take is due
      and is named twice by the batch, and nothing else stops the claim. */
  lemma ClaimLosesExactlyWhatItRepeats(config: Config, events: seq<Event>, states: seq<State>, k: nat, t: nat)
    requires ValidConfig(config) && Run(config, events, states) && Guarded(config, events, states, k)
    requires k < |events| && events[k] == ClaimCommits(t) && states[k].live && At(states[k], t) && states[k].tasks[t].Claiming?
    ensures NoLoss(states[k + 1]) <==>
            forall m: nat | Due(states[k], m) :: !SelfBatching(states[k].rows, states[k].resets, states[k].tasks[t].batch, m)
  {
    hide Guarded, Run, NoLoss, SelfBatching, Due;
    LostExactlyAtTheseSteps(config, events, states, k);
  }

  /** Readmission is the only source of repeats: the first admission that makes a chat owe a
      message twice is one of a message its running turn holds, ... */
  lemma OwedTwiceExactlyWhenReadmitted(config: Config, events: seq<Event>, states: seq<State>, k: nat, m: MessageId)
    requires ValidConfig(config) && Run(config, events, states) && Guarded(config, events, states, k) && states[k].readmitted == {}
    requires k < |events| && events[k] == AdmitMessage(m)
    ensures var s' := states[k + 1];
            var key := states[k].rows[m].chat;
            && key in s'.chats && s'.chats[key] < |s'.objects|
            && (Distinct(Owed(s'.tasks, s'.objects[s'.chats[key]])) <==> !Readmits(config, states[k], events[k]))
  {
    hide Inv, Aux, NoLoss, Guarded;
    GuardedRunKeepsAux(config, events, states, k);
    var s, key := states[k], states[k].rows[m].chat;
    WithChatKeeps(config, s, key);
    WithChatLoss(config, s, key);
    var s1 := WithChat(s, key);
    var o := s1.objects[s1.chats[key]];
    ObjectHasAux(config, s1, s1.chats[key]);
    AdmitDistinct(Held(s1.tasks, o), o.queue, m, config.limits, s1.live);
    hide Admit;
    var o' := PutQueue(o, Admit(o.queue, m, config.limits, s1.live));
    assert states[k + 1].objects[s1.chats[key]] == o';
  }

  /** ...and until there is one no turn's batch names a message twice, so every claim is of
      distinct messages and none is batched into itself. */
  lemma WithoutReadmissionNothingIsRepeated(config: Config, events: seq<Event>, states: seq<State>, k: nat, t: nat)
    requires ValidConfig(config) && Run(config, events, states) && Guarded(config, events, states, k) && states[k].readmitted == {}
    requires t in states[k].tasks && states[k].tasks[t].Claiming?
    ensures Distinct(states[k].tasks[t].batch)
    ensures !BatchesIntoItself(states[k], ClaimCommits(t))
  {
    GuardedRunKeepsAux(config, events, states, k);
    var s := states[k];
    hide Guarded, Run;
    WorkersObject(config, s, t);
    hide Inv, Aux, NoLoss;
    var o, batch := s.objects[s.tasks[t].q], s.tasks[t].batch;
    DistinctParts(Held(s.tasks, o), o.queue.pending);
    DistinctCounts(batch);
    hide SelfBatching;
    forall m ensures !SelfBatching(s.rows, s.resets, batch, m) {
      TwiceWhenSelfBatching(s.rows, s.resets, batch, m);
    }
  }

  lemma TwiceWhenSelfBatching(rows: seq<Row>, resets: map<Chat, int>, batch: seq<MessageId>, m: MessageId)
    ensures SelfBatching(rows, resets, batch, m) ==> multiset(batch)[m] >= 2
  {
    hide AllKnown, RepeatsBefore, JoinsLast;
  }

  /** With the smart trigger off nothing is ever held, so no read skips anything. */
  lemma WithoutJudgeNothingIsSkipped(config: Config, events: seq<Event>, states: seq<State>, k: nat)
    requires ValidConfig(config) && Run(config, events, states) && Guarded(config, events, states, k)
    requires k < |events| && !config.smart
    ensures !Skips(config, states[k], events[k])
  {
    GuardedRunKeepsAux(config, events, states, k);
    if events[k].EndOfRefill? && At(states[k], events[k].t) {
      ObjectHasAux(config, states[k], states[k].tasks[events[k].t].q);
    }
  }

  lemma ClaimStepAnchor(s: State, t: nat, m: MessageId)
    requires RowsAux(s) && At(s, t) && s.tasks[t].Claiming? && m in s.tasks[t].batch && Claim(s.rows, s.resets, s.tasks[t].batch).Claimed?
    ensures var s' := ClaimStep(s, t);
            && t in s'.tasks && (m !in s'.tasks[t].Outstanding() ==> !Unfinished(s'.rows, m))
            && (s'.tasks[t].Answering? ==>
                  var anchor := s'.tasks[t].anchor;
                  && (Unfinished(s'.rows, anchor) <==> !SelfBatching(s.rows, s.resets, s.tasks[t].batch, anchor))
                  && (!Unfinished(s'.rows, anchor) ==> BatchedIntoItself(s', anchor)))
  {
    hide RowsAux, Claim, SelfBatching;
    ClaimedAnchor(s, s.tasks[t].batch, m);
  }

  /** A claim in a run that lost nothing, duplicates or not: what it leaves to its turn is the
      anchor and what it gives back, and nothing else of its batch is unfinished; if it loses
      nothing either, the anchor still needs its reply. */
  lemma ClaimedAnchorAwaitsReply(config: Config, events: seq<Event>, states: seq<State>, k: nat, t: nat, m: MessageId)
    requires ValidConfig(config) && Run(config, events, states) && Guarded(config, events, states, k)
    requires k < |events| && events[k] == ClaimCommits(t) && m in states[k].tasks[t].batch
    requires Claim(states[k].rows, states[k].resets, states[k].tasks[t].batch).Claimed?
    ensures m !in states[k + 1].tasks[t].Outstanding() ==> !Unfinished(states[k + 1].rows, m)
    ensures states[k + 1].tasks[t].Answering? ==>
              var anchor := states[k + 1].tasks[t].anchor;
              && (Unfinished(states[k + 1].rows, anchor) <==> !SelfBatching(states[k].rows, states[k].resets, states[k].tasks[t].batch, anchor))
              && (!Unfinished(states[k + 1].rows, anchor) ==> BatchedIntoItself(states[k + 1], anchor))
  {
    GuardedRunKeepsAux(config, events, states, k);
    hide Inv, Aux, NoLoss, Guarded, ClaimStep, Claim, SelfBatching, Unfinished, BatchedIntoItself;
    RowsHaveAux(config, states[k]);
    ClaimStepAnchor(states[k], t, m);
  }

  lemma ClaimedAnchor(s: State, batch: seq<MessageId>, m: MessageId)
    requires RowsAux(s) && m in batch && Claim(s.rows, s.resets, batch).Claimed?
    ensures var r := Claim(s.rows, s.resets, batch);
            && (m in r.rest || (r.messages != [] && m == Last(r.messages)) || !Unfinished(r.rows, m))
            && (r.messages != [] ==>
                  && (Unfinished(r.rows, Last(r.messages)) <==> !SelfBatching(s.rows, s.resets, batch, Last(r.messages)))
                  && (SelfBatching(s.rows, s.resets, batch, Last(r.messages)) <==> Last(r.messages) in AllButLast(r.messages))
                  && Last(r.messages) < |r.rows|
                  && (!Unfinished(r.rows, Last(r.messages)) ==>
                        r.rows[Last(r.messages)].state == BATCHED && !r.rows[Last(r.messages)].claimed))
  {
    NothingUnansweredIsDropped(s.rows, s.resets, batch, m);
    ClaimedRowsAux(s, batch);
    var r := Claim(s.rows, s.resets, batch);
    if m < |r.rows| {
      assert RowOk(r.rows[m]);
    }
    if r.messages != [] {
      ClaimNeverGrows(s.rows, s.resets, batch);
      AnchorRow(s, batch);
    }
  }

  lemma AnchorRow(s: State, batch: seq<MessageId>)
    requires RowsAux(s) && batch != [] && Claim(s.rows, s.resets, batch).Claimed? && Claim(s.rows, s.resets, batch).messages != []
    ensures var r := Claim(s.rows, s.resets, batch);
            var anchor := Last(r.messages);
            && anchor < |r.rows|
            && (Unfinished(r.rows, anchor) <==> !SelfBatching(s.rows, s.resets, batch, anchor))
            && (SelfBatching(s.rows, s.resets, batch, anchor) <==> anchor in AllButLast(r.messages))
            && (!Unfinished(r.rows, anchor) ==> r.rows[anchor].state == BATCHED && !r.rows[anchor].claimed)
  {
    var r := Claim(s.rows, s.resets, batch);
    var anchor := Last(r.messages);
    AnchorSurvivesUnlessRepeated(s.rows, s.resets, batch);
    ClaimBatchesIntoItself(s.rows, s.resets, batch, anchor);
    ClaimOnlySettles(s.rows, s.resets, batch, anchor);
    LastIsRepeated(s.rows, s.resets, batch);
    ClaimedRowsAux(s, batch);
    hide Claim, SelfBatching, RepeatsLast;
    assert RowOk(r.rows[anchor]);
  }

  lemma LastIsRepeated(rows: seq<Row>, resets: map<Chat, int>, batch: seq<MessageId>)
    requires batch != [] && Claim(rows, resets, batch).Claimed?
    ensures batch[0] < |rows|
    ensures AnchorBatched(Claim(rows, resets, batch)) <==> RepeatsLast(rows, ResetOf(resets, rows[batch[0]].chat), batch)
  {
    ClaimOfRepeats(rows, resets, batch);
    ClaimIsKnown(rows, resets, batch);
  }
}
