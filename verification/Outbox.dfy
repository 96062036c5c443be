// The durable tables behind a reply: the turn it answers, the outbox row, its entry in the
// chat's history, and the effects that follow it (internal/adapters/sqlite/turn.go,
// action.go, effect.go, history.go). Every function here is one SQLite transaction.
module Outbox {
  import opened Prelude

  type ActionId = nat
  type EntryId = nat
  type EffectId = nat
  type ChatId = nat

  /** An invocation belongs to a chat: the chat is part of its row's key. */
  datatype InvocationId = InvocationId(chat: ChatId, number: nat)

  const MAX_GENERATION_ATTEMPTS: nat := 3

  datatype TurnState =
    | Unstarted | Generating | FailedRetryable | ResponsePlanned | DeliveryPending
    | TurnSucceeded | TurnFailedTerminal | TurnUnknownOutcome | Ignored

  /** States of an outbound_actions or typed_effects row. */
  datatype RowState = Pending | Executing | Succeeded | FailedTerminal | UnknownOutcome

  datatype DeliveryStatus = NotSent | Sent | NeverSent | MaybeSent

  datatype Turn = Turn(claimed: bool, state: TurnState, attempts: nat)
  datatype Action = Action(invocation: InvocationId, response: EntryId, state: RowState)
  datatype Entry = Entry(chat: ChatId, delivery: DeliveryStatus)
  datatype Effect = Effect(invocation: InvocationId, model: bool, state: RowState)

  datatype Db = Db(
    turns: map<InvocationId, Turn>, actions: map<ActionId, Action>,
    history: map<EntryId, Entry>, effects: map<EffectId, Effect>)

  datatype ErrorCode = InvalidArgument | NotFound | Conflict | IntegrityFailure | ProviderFailure | UnknownResult | StorageFailure | NotReady | PolicyDenied

  // ---- Replies ---------------------------------------------------------------

  predicate Final(state: RowState) {
    state == Succeeded || state == FailedTerminal || state == UnknownOutcome
  }

  /** What a reply in this state makes of its turn and of its history entry. */
  function TurnOf(state: RowState): TurnState {
    match state
    case Pending => ResponsePlanned
    case Executing => DeliveryPending
    case Succeeded => TurnSucceeded
    case FailedTerminal => TurnFailedTerminal
    case UnknownOutcome => TurnUnknownOutcome
  }

  function DeliveryOf(state: RowState): DeliveryStatus {
    match state
    case Succeeded => Sent
    case FailedTerminal => NeverSent
    case UnknownOutcome => MaybeSent
    case _ => NotSent
  }

  /** deliveryForTurnState: the delivery a replay restores the history entry with. */
  function DeliveryForTurn(state: TurnState): DeliveryStatus {
    match state
    case TurnSucceeded => Sent
    case TurnFailedTerminal => NeverSent
    case TurnUnknownOutcome => MaybeSent
    case _ => NotSent
  }

  function SetTurn(db: Db, i: InvocationId, state: TurnState): Db
    requires i in db.turns
  {
    db.(turns := db.turns[i := db.turns[i].(state := state)])
  }

  function SetDelivery(db: Db, m: EntryId, delivery: DeliveryStatus): Db {
    if m in db.history then db.(history := db.history[m := db.history[m].(delivery := delivery)]) else db
  }

  function SetReply(db: Db, a: ActionId, state: RowState): Db
    requires a in db.actions
  {
    db.(actions := db.actions[a := db.actions[a].(state := state)])
  }

  /** Claims a reply for sending: it has to be pending, and nothing else is asked. */
  function StartReply(db: Db, a: ActionId): (r: Option<Db>)
    ensures r.Some? ==> r.value.effects == db.effects
  {
    if a in db.actions && db.actions[a].state == Pending then
      var started := SetReply(db, a, Executing);
      var i := db.actions[a].invocation;
      Some(if i in db.turns && db.turns[i].state == ResponsePlanned then SetTurn(started, i, DeliveryPending) else started)
    else None
  }

  /** Records a reply's outcome, and moves its turn and its history entry along. */
  function FinishReply(db: Db, a: ActionId, from: RowState, to: RowState): (r: Option<Db>)
    ensures r.Some? ==> r.value.effects == db.effects
  {
    if a in db.actions && db.actions[a].state == from && db.actions[a].invocation in db.turns then
      Some(SetDelivery(SetTurn(SetReply(db, a, to), db.actions[a].invocation, TurnOf(to)), db.actions[a].response, DeliveryOf(to)))
    else None
  }

  // ---- Effects ---------------------------------------------------------------

  predicate ReplyRow(db: Db, i: InvocationId, a: ActionId) {
    a in db.actions && db.actions[a].invocation == i
  }

  predicate HasReply(db: Db, i: InvocationId) {
    exists a | a in db.actions :: ReplyRow(db, i, a)
  }

  /** The reply was sent, or the turn was answered by effects alone. */
  predicate Answered(db: Db, i: InvocationId) {
    || (exists a | a in db.actions :: ReplyRow(db, i, a) && db.actions[a].state == Succeeded)
    || (i in db.turns && db.turns[i].state == TurnSucceeded && db.turns[i].claimed && !HasReply(db, i))
  }

  function SetEffect(db: Db, e: EffectId, state: RowState): Db
    requires e in db.effects
  {
    db.(effects := db.effects[e := db.effects[e].(state := state)])
  }

  predicate MayStart(db: Db, e: EffectId) {
    e in db.effects && db.effects[e].state == Pending && (db.effects[e].model ==> Answered(db, db.effects[e].invocation))
  }

  function FinishEffect(db: Db, e: EffectId, from: set<RowState>, to: RowState): Option<Db> {
    if e in db.effects && db.effects[e].state in from then Some(SetEffect(db, e, to)) else None
  }

  // ---- Turns -----------------------------------------------------------------

  predicate HasPlan(db: Db, i: InvocationId) {
    HasReply(db, i) || (i in db.turns && db.turns[i].state == TurnSucceeded)
  }

  datatype Claim = Claimed | Planned | Denied(code: ErrorCode)

  /** Claims a turn for generation, or finds the plan it already has. `matches` says whether a
      received message still matches the invocation that claims it. */
  function ClaimTurn(db: Db, i: InvocationId, matches: bool): (r: (Db, Claim))
    ensures r.0.effects == db.effects
  {
    if i !in db.turns then (db.(turns := db.turns[i := Turn(true, Generating, 1)]), Claimed)
    else
      var turn := db.turns[i];
      if !turn.claimed then
        if !matches then (db, Denied(Conflict))
        else (db.(turns := db.turns[i := turn.(claimed := true, state := Generating, attempts := turn.attempts + 1)]), Claimed)
      else if HasPlan(db, i) then (db, Planned)
      else if turn.state == TurnFailedTerminal then (db, Denied(ProviderFailure))
      else if turn.state == TurnUnknownOutcome then (db, Denied(UnknownResult))
      else if turn.state != Generating && turn.state != FailedRetryable then (db, Denied(IntegrityFailure))
      else if turn.attempts >= MAX_GENERATION_ATTEMPTS then (SetTurn(db, i, TurnFailedTerminal), Denied(ProviderFailure))
      else (db.(turns := db.turns[i := turn.(state := Generating, attempts := turn.attempts + 1)]), Claimed)
  }

  function FailGeneration(db: Db, i: InvocationId, retryable: bool): (r: Option<Db>)
    ensures r.Some? ==> r.value.effects == db.effects
  {
    if i in db.turns && db.turns[i].state == Generating
    then Some(SetTurn(db, i, if retryable then FailedRetryable else TurnFailedTerminal)) else None
  }

  datatype Reply = Reply(action: ActionId, response: EntryId)

  /** What the model answered: a reply if it wrote one, and effects in the order it asked for them. */
  datatype Plan = Plan(reply: Option<Reply>, effects: seq<EffectId>)

  predicate OfModel(db: Db, i: InvocationId, e: EffectId) {
    e in db.effects && db.effects[e].model && db.effects[e].invocation == i
  }

  predicate Ascending(effects: seq<EffectId>) {
    forall j, k | 0 <= j < k < |effects| :: effects[j] < effects[k]
  }

  /** loadModelEffectRefs: the model's effects of a turn, by identifier; they share their
      creation time. */
  ghost predicate Lists(db: Db, i: InvocationId, effects: seq<EffectId>) {
    Ascending(effects) && forall e :: e in effects <==> OfModel(db, i, e)
  }

  function PlannedEffects(i: InvocationId, effects: seq<EffectId>): map<EffectId, Effect> {
    map e | e in effects :: Effect(i, true, Pending)
  }

  datatype Commit = Published | Replayed | Refused(code: ErrorCode)

  /** Identifiers drawn for a plan; the tables' keys refuse one that is taken. */
  predicate Unused(db: Db, reply: Option<Reply>, effects: seq<EffectId>) {
    && Distinct(effects) && (forall e | e in effects :: e !in db.effects)
    && (reply.Some? ==> reply.value.action !in db.actions && reply.value.response !in db.history
                        && forall b | b in db.actions :: db.actions[b].response != reply.value.response)
  }

  /** Effects are added, pending, and none is changed. */
  predicate OnlyAdds(db: Db, db': Db) {
    && (forall e | e in db.effects :: e in db'.effects && db'.effects[e] == db.effects[e])
    && (forall e | e in db'.effects && e !in db.effects :: db'.effects[e].state == Pending)
  }

  /** Publishes the turn's plan, once. A second plan is a replay of the first or a conflict. */
  function CommitPlan(db: Db, i: InvocationId, reply: Option<Reply>, effects: seq<EffectId>, same: bool): (r: (Db, Commit))
    ensures OnlyAdds(db, r.0)
  {
    if reply == None && effects == [] then (db, Refused(InvalidArgument))
    else if i !in db.turns then (db, Refused(NotFound))
    else if HasPlan(db, i) then (db, if same then Replayed else Refused(Conflict))
    else if db.turns[i].state != Generating then (db, Refused(Conflict))
    else if !Unused(db, reply, effects) then (db, Refused(StorageFailure))
    else
      var planned := db.(effects := db.effects + PlannedEffects(i, effects));
      match reply
      case None => (SetTurn(planned, i, TurnSucceeded), Published)
      case Some(Reply(a, m)) =>
        (SetTurn(planned.(actions := planned.actions[a := Action(i, m, Pending)],
                          history := planned.history[m := Entry(i.chat, NotSent)]), i, ResponsePlanned), Published)
  }

  /** Appending an entry that exists already is a no-op. */
  function AppendEntry(db: Db, m: EntryId, chat: ChatId, delivery: DeliveryStatus): Db {
    if m in db.history then db else db.(history := db.history[m := Entry(chat, delivery)])
  }

  // ---- Startup ---------------------------------------------------------------

  /** Unique keys of the tables, and the reference from a reply to its turn. */
  ghost predicate Linked(db: Db) {
    && (forall a | a in db.actions :: db.actions[a].invocation in db.turns)
    && (forall a, b | a in db.actions && b in db.actions && a != b ::
          db.actions[a].invocation != db.actions[b].invocation && db.actions[a].response != db.actions[b].response)
  }

  function Resolved(state: RowState): RowState {
    if state == Executing then UnknownOutcome else state
  }

  ghost predicate Interrupted(db: Db, a: ActionId) {
    a in db.actions && db.actions[a].state == Executing
  }

  /** Turn i is answered by a reply of `done` that was cut off. */
  ghost predicate TurnCut(db: Db, done: set<ActionId>, i: InvocationId) {
    exists a :: a in done && Interrupted(db, a) && ReplyRow(db, i, a)
  }

  /** Entry m belongs to a reply of `done` that was cut off. */
  ghost predicate EntryCut(db: Db, done: set<ActionId>, m: EntryId) {
    exists a :: a in done && Interrupted(db, a) && db.actions[a].response == m
  }

  ghost predicate TurnsResolved(db: Db, turns: map<InvocationId, Turn>, done: set<ActionId>) {
    && turns.Keys == db.turns.Keys
    && forall i | i in db.turns ::
         turns[i] == if TurnCut(db, done, i) then db.turns[i].(state := TurnUnknownOutcome) else db.turns[i]
  }

  ghost predicate HistoryResolved(db: Db, history: map<EntryId, Entry>, done: set<ActionId>) {
    && history.Keys == db.history.Keys
    && forall m | m in db.history ::
         history[m] == if EntryCut(db, done, m) then db.history[m].(delivery := MaybeSent) else db.history[m]
  }

  /** Everything a cut-off send left behind is settled as unknown, with its turn and entry,
      for the replies in `done`; nothing else changes. */
  ghost predicate ResolvesReplies(db: Db, db': Db, done: set<ActionId>) {
    && db'.effects == db.effects && db'.actions.Keys == db.actions.Keys
    && (forall a | a in db.actions ::
          db'.actions[a] == if a in done && Interrupted(db, a) then db.actions[a].(state := UnknownOutcome) else db.actions[a])
    && TurnsResolved(db, db'.turns, done)
    && HistoryResolved(db, db'.history, done)
  }

  lemma OneMoreTurn(db: Db, done: set<ActionId>, a: ActionId, i: InvocationId)
    requires Interrupted(db, a)
    ensures TurnCut(db, done + {a}, i) <==> i == db.actions[a].invocation || TurnCut(db, done, i)
  {
    if i == db.actions[a].invocation {
      assert a in done + {a} && Interrupted(db, a) && ReplyRow(db, i, a);
    }
    if b :| b in done && Interrupted(db, b) && ReplyRow(db, i, b) {
      assert b in done + {a} && Interrupted(db, b) && ReplyRow(db, i, b);
    }
  }

  lemma OneMoreEntry(db: Db, done: set<ActionId>, a: ActionId, m: EntryId)
    requires Interrupted(db, a)
    ensures EntryCut(db, done + {a}, m) <==> m == db.actions[a].response || EntryCut(db, done, m)
  {
    if m == db.actions[a].response {
      assert a in done + {a} && Interrupted(db, a) && db.actions[a].response == m;
    }
    if b :| b in done && Interrupted(db, b) && db.actions[b].response == m {
      assert b in done + {a} && Interrupted(db, b) && db.actions[b].response == m;
    }
  }

  lemma MoreTurns(db: Db, turns: map<InvocationId, Turn>, done: set<ActionId>, a: ActionId)
    requires TurnsResolved(db, turns, done) && Interrupted(db, a) && db.actions[a].invocation in db.turns
    ensures var i := db.actions[a].invocation;
            TurnsResolved(db, turns[i := turns[i].(state := TurnUnknownOutcome)], done + {a})
  {
    forall i | i in db.turns ensures TurnCut(db, done + {a}, i) <==> i == db.actions[a].invocation || TurnCut(db, done, i) {
      OneMoreTurn(db, done, a, i);
    }
    hide TurnCut;
  }

  lemma MoreHistory(db: Db, work: Db, done: set<ActionId>, a: ActionId)
    requires HistoryResolved(db, work.history, done) && Interrupted(db, a)
    ensures HistoryResolved(db, SetDelivery(work, db.actions[a].response, MaybeSent).history, done + {a})
  {
    forall m | m in db.history ensures EntryCut(db, done + {a}, m) <==> m == db.actions[a].response || EntryCut(db, done, m) {
      OneMoreEntry(db, done, a, m);
    }
    hide EntryCut;
  }

  lemma FinishReplyShape(db: Db, a: ActionId, from: RowState, to: RowState)
    requires a in db.actions && db.actions[a].state == from && db.actions[a].invocation in db.turns
    ensures var i, next := db.actions[a].invocation, FinishReply(db, a, from, to);
            && next.Some? && next.value.effects == db.effects
            && next.value.actions == db.actions[a := db.actions[a].(state := to)]
            && next.value.turns == db.turns[i := db.turns[i].(state := TurnOf(to))]
            && next.value.history == SetDelivery(db, db.actions[a].response, DeliveryOf(to)).history
  {
  }

  lemma TurnIsThere(db: Db, turns: map<InvocationId, Turn>, done: set<ActionId>, i: InvocationId)
    requires TurnsResolved(db, turns, done) && i in db.turns
    ensures i in turns
  {
  }

  /** One more interrupted reply is resolved. */
  lemma ResolvesOneMore(db: Db, work: Db, done: set<ActionId>, a: ActionId)
    requires Linked(db) && ResolvesReplies(db, work, done) && Interrupted(db, a) && a !in done
    ensures FinishReply(work, a, Executing, UnknownOutcome).Some?
    ensures ResolvesReplies(db, FinishReply(work, a, Executing, UnknownOutcome).value, done + {a})
  {
    hide TurnsResolved, HistoryResolved, FinishReply, SetDelivery;
    MoreTurns(db, work.turns, done, a);
    MoreHistory(db, work, done, a);
    TurnIsThere(db, work.turns, done, db.actions[a].invocation);
    FinishReplyShape(work, a, Executing, UnknownOutcome);
  }

  function ResolveEffects(effects: map<EffectId, Effect>): map<EffectId, Effect> {
    map e | e in effects :: effects[e].(state := Resolved(effects[e].state))
  }

  /** What startup makes of the tables. */
  ghost predicate Resolves(db: Db, db': Db) {
    && db'.effects == ResolveEffects(db.effects)
    && ResolvesReplies(db, db'.(effects := db.effects), db.actions.Keys)
  }

  // ---- The stores ------------------------------------------------------------

  datatype Written = Done | Failed(code: ErrorCode)

  /** The application database. A method is one transaction: on error it changes nothing. */
  class Store {
    var db: Db

    constructor ()
      ensures db == Db(map[], map[], map[], map[])
    {
      db := Db(map[], map[], map[], map[]);
    }

    /** ActionStore.Start. */
    method StartAction(a: ActionId) returns (r: Written)
      modifies this
      ensures r == if StartReply(old(db), a).Some? then Done else Failed(Conflict)
      ensures db == if StartReply(old(db), a).Some? then StartReply(old(db), a).value else old(db)
    {
      if a !in db.actions || db.actions[a].state != Pending {
        return Failed(Conflict);
      }
      db := SetReply(db, a, Executing);
      var i := db.actions[a].invocation;
      if i in db.turns && db.turns[i].state == ResponsePlanned {
        db := SetTurn(db, i, DeliveryPending);
      }
      r := Done;
    }

    /** ActionStore.finish, which Complete, FailTerminal and MarkUnknown share. */
    method FinishAction(a: ActionId, from: RowState, to: RowState) returns (r: Written)
      requires Final(to)
      modifies this
      ensures r == if FinishReply(old(db), a, from, to).Some? then Done else Failed(Conflict)
      ensures db == if FinishReply(old(db), a, from, to).Some? then FinishReply(old(db), a, from, to).value else old(db)
    {
      if a !in db.actions || db.actions[a].state != from {
        return Failed(Conflict);
      }
      var delivery, turnState := Sent, TurnSucceeded;
      match to {
        case FailedTerminal => delivery, turnState := NeverSent, TurnFailedTerminal;
        case UnknownOutcome => delivery, turnState := MaybeSent, TurnUnknownOutcome;
        case _ =>
      }
      var tx := SetReply(db, a, to);
      if tx.actions[a].invocation !in tx.turns {
        return Failed(Conflict);
      }
      tx := SetTurn(tx, tx.actions[a].invocation, turnState);
      tx := SetDelivery(tx, tx.actions[a].response, delivery);
      db := tx;
      r := Done;
    }

    /** EffectStore.Start: an effect of the model has to wait until its turn is answered. */
    method StartEffect(e: EffectId) returns (r: Written)
      modifies this
      ensures r.Done? <==> MayStart(old(db), e)
      ensures db == if MayStart(old(db), e) then SetEffect(old(db), e, Executing) else old(db)
      ensures r == Failed(NotReady) <==> e in old(db).effects && old(db).effects[e].model && !Answered(old(db), old(db).effects[e].invocation)
    {
      if e !in db.effects {
        return Failed(StorageFailure);
      }
      if db.effects[e].model && !Answered(db, db.effects[e].invocation) {
        return Failed(NotReady);
      }
      if db.effects[e].state != Pending {
        return Failed(Conflict);
      }
      db := SetEffect(db, e, Executing);
      r := Done;
    }

    /** EffectStore.finish. */
    method EndEffect(e: EffectId, from: set<RowState>, to: RowState) returns (r: Written)
      modifies this
      ensures r == if FinishEffect(old(db), e, from, to).Some? then Done else Failed(Conflict)
      ensures db == if FinishEffect(old(db), e, from, to).Some? then FinishEffect(old(db), e, from, to).value else old(db)
    {
      if e !in db.effects || db.effects[e].state !in from {
        return Failed(Conflict);
      }
      db := SetEffect(db, e, to);
      r := Done;
    }

    /** ResolveInterrupted: every reply still executing is settled one by one, in whatever
        order the query lists them, then the effects at once. */
    method ResolveInterrupted() returns (r: Written)
      requires Linked(db)
      modifies this
      ensures r == Done && Resolves(old(db), db)
    {
      ghost var was := db;
      var tx := db;
      var refs := set a | a in db.actions && db.actions[a].state == Executing;
      ghost var done: set<ActionId> := {};
      while refs != {}
        invariant done !! refs && forall a :: Interrupted(was, a) <==> a in refs || a in done
        invariant db == was && ResolvesReplies(was, tx, done)
        decreases |refs|
      {
        var a :| a in refs;
        ResolvesOneMore(was, tx, done, a);
        if a !in tx.actions || tx.actions[a].state != Executing || tx.actions[a].invocation !in tx.turns {
          return Failed(Conflict);
        }
        tx := FinishReply(tx, a, Executing, UnknownOutcome).value;
        refs, done := refs - {a}, done + {a};
      }
      EveryInterrupted(was, tx, done);
      db := tx.(effects := ResolveEffects(tx.effects));
      assert db.(effects := was.effects) == tx;
      r := Done;
    }

    /** TurnStore.Claim. */
    method Claim(i: InvocationId, matches: bool) returns (claim: Claim)
      modifies this
      ensures (db, claim) == ClaimTurn(old(db), i, matches)
    {
      if i !in db.turns {
        db := db.(turns := db.turns[i := Turn(true, Generating, 1)]);
        return Claimed;
      }
      var turn := db.turns[i];
      if !turn.claimed {
        if !matches {
          return Denied(Conflict);
        }
        db := db.(turns := db.turns[i := turn.(claimed := true, state := Generating, attempts := turn.attempts + 1)]);
        return Claimed;
      }
      if HasPlan(db, i) {
        return Planned;
      }
      match turn.state {
        case Generating =>
        case FailedRetryable =>
        case TurnFailedTerminal => return Denied(ProviderFailure);
        case TurnUnknownOutcome => return Denied(UnknownResult);
        case _ => return Denied(IntegrityFailure);
      }
      if turn.attempts >= MAX_GENERATION_ATTEMPTS {
        db := SetTurn(db, i, TurnFailedTerminal);
        return Denied(ProviderFailure);
      }
      db := db.(turns := db.turns[i := turn.(state := Generating, attempts := turn.attempts + 1)]);
      claim := Claimed;
    }

    /** TurnStore.CommitPlan. */
    method Publish(i: InvocationId, reply: Option<Reply>, effects: seq<EffectId>, same: bool) returns (commit: Commit)
      modifies this
      ensures (db, commit) == CommitPlan(old(db), i, reply, effects, same)
    {
      if reply == None && effects == [] {
        return Refused(InvalidArgument);
      }
      if i !in db.turns {
        return Refused(NotFound);
      }
      if HasPlan(db, i) {
        return if same then Replayed else Refused(Conflict);
      }
      if db.turns[i].state != Generating {
        return Refused(Conflict);
      }
      if !Unused(db, reply, effects) {
        return Refused(StorageFailure);
      }
      var tx := db.(effects := db.effects + PlannedEffects(i, effects));
      if reply == None {
        tx := SetTurn(tx, i, TurnSucceeded);
      } else {
        tx := tx.(actions := tx.actions[reply.value.action := Action(i, reply.value.response, Pending)]);
        tx := tx.(history := tx.history[reply.value.response := Entry(i.chat, NotSent)]);
        tx := SetTurn(tx, i, ResponsePlanned);
      }
      db := tx;
      commit := Published;
    }

    /** TurnStore.FailGeneration. */
    method Fail(i: InvocationId, retryable: bool) returns (r: Written)
      modifies this
      ensures r == if FailGeneration(old(db), i, retryable).Some? then Done else Failed(Conflict)
      ensures db == if FailGeneration(old(db), i, retryable).Some? then FailGeneration(old(db), i, retryable).value else old(db)
    {
      if i !in db.turns || db.turns[i].state != Generating {
        return Failed(Conflict);
      }
      db := SetTurn(db, i, if retryable then FailedRetryable else TurnFailedTerminal);
      r := Done;
    }
  }

  lemma EveryInterrupted(db: Db, tx: Db, done: set<ActionId>)
    requires ResolvesReplies(db, tx, done) && forall a :: Interrupted(db, a) <==> a in done
    ensures ResolvesReplies(db, tx, db.actions.Keys)
  {
    forall i ensures TurnCut(db, done, i) <==> TurnCut(db, db.actions.Keys, i) {
      if a :| a in db.actions.Keys && Interrupted(db, a) && ReplyRow(db, i, a) {
        assert a in done && Interrupted(db, a) && ReplyRow(db, i, a);
      }
      if a :| a in done && Interrupted(db, a) && ReplyRow(db, i, a) {
        assert a in db.actions.Keys && Interrupted(db, a) && ReplyRow(db, i, a);
      }
    }
    forall m ensures EntryCut(db, done, m) <==> EntryCut(db, db.actions.Keys, m) {
      if a :| a in db.actions.Keys && Interrupted(db, a) && db.actions[a].response == m {
        assert a in done && Interrupted(db, a) && db.actions[a].response == m;
      }
      if a :| a in done && Interrupted(db, a) && db.actions[a].response == m {
        assert a in db.actions.Keys && Interrupted(db, a) && db.actions[a].response == m;
      }
    }
  }
}
