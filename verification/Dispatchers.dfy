// One dispatch of a reply and of a plan's effects, as the code runs it (internal/action/action.go,
// internal/effect/effect.go). What the outside does is a parameter: the policy, the sender, and
// whether each write gets through.
module Dispatchers {
  import opened Prelude
  import opened Outbox

  /** One attempt's surroundings: may the reply be sent, is the account connected, does the
      sender accept it, and do the final and the fallback write get through. */
  datatype World = World(allowed: bool, ready: bool, accepted: bool, completes: bool, records: bool)

  datatype Status = StillPending | Delivered | Rejected | InDoubt | Unfit

  datatype Reported = Reported(db: Db, sends: nat, status: Status, error: Option<ErrorCode>)

  function Recorded(db: Db, a: ActionId, from: RowState, to: RowState, through: bool): Db {
    if through && FinishReply(db, a, from, to).Some? then FinishReply(db, a, from, to).value else db
  }

  /** What a dispatch makes of the tables, and what it tells its caller. */
  function Dispatched(db: Db, a: ActionId, w: World): Reported {
    if a !in db.actions then Reported(db, 0, Unfit, Some(NotFound))
    else
      match db.actions[a].state
      case Succeeded => Reported(db, 0, Delivered, None)
      case FailedTerminal => Reported(db, 0, Rejected, Some(ProviderFailure))
      case UnknownOutcome => Reported(db, 0, InDoubt, Some(UnknownResult))
      case Executing => Reported(db, 0, StillPending, Some(NotReady))
      case Pending =>
        if !w.allowed then Reported(Recorded(db, a, Pending, FailedTerminal, w.records), 0, Rejected, Some(PolicyDenied))
        else if !w.ready then Reported(db, 0, StillPending, Some(NotReady))
        else
          var started := StartReply(db, a).value;
          if !w.accepted then Reported(Recorded(started, a, Executing, UnknownOutcome, w.records), 1, InDoubt, Some(UnknownResult))
          else
            var completed := Recorded(started, a, Executing, Succeeded, w.completes);
            if w.completes && FinishReply(started, a, Executing, Succeeded).Some? then Reported(completed, 1, Delivered, None)
            else Reported(Recorded(started, a, Executing, UnknownOutcome, w.records), 1, InDoubt, Some(UnknownResult))
  }

  /** Sends replies from the outbox. */
  class ReplyDispatcher {
    const store: Store
    var sends: nat

    constructor (store: Store)
      ensures this.store == store && sends == 0
    {
      this.store := store;
      sends := 0;
    }

    /** A write of an outcome that nobody waits for; it may not get through. */
    method Record(a: ActionId, from: RowState, to: RowState, through: bool)
      requires Final(to)
      modifies store
      ensures store.db == Recorded(old(store.db), a, from, to, through)
    {
      if through {
        var _ := store.FinishAction(a, from, to);
      }
    }

    /** Dispatcher.Dispatch. */
    method Dispatch(a: ActionId, w: World) returns (status: Status, error: Option<ErrorCode>)
      modifies this`sends, store
      ensures var r := Dispatched(old(store.db), a, w);
              store.db == r.db && status == r.status && error == r.error && sends == old(sends) + r.sends
    {
      if a !in store.db.actions {
        return Unfit, Some(NotFound);
      }
      match store.db.actions[a].state {
        case Succeeded => return Delivered, None;
        case FailedTerminal => return Rejected, Some(ProviderFailure);
        case UnknownOutcome => return InDoubt, Some(UnknownResult);
        case Executing => return StillPending, Some(NotReady);
        case Pending =>
      }
      if !w.allowed {
        Record(a, Pending, FailedTerminal, w.records);
        return Rejected, Some(PolicyDenied);
      }
      if !w.ready {
        return StillPending, Some(NotReady);
      }
      var started := store.StartAction(a);
      if started != Done {
        return StillPending, Some(NotReady);
      }
      sends := sends + 1; // SendText
      if !w.accepted {
        Record(a, Executing, UnknownOutcome, w.records);
        return InDoubt, Some(UnknownResult);
      }
      if w.completes {
        var completed := store.FinishAction(a, Executing, Succeeded);
        if completed == Done {
          return Delivered, None;
        }
      }
      Record(a, Executing, UnknownOutcome, w.records);
      return InDoubt, Some(UnknownResult);
    }
  }

  /** A reply is sent exactly when it was pending, allowed and the account was connected; a call
      without an error leaves it succeeded, and one that sent never leaves it pending. */
  lemma DispatchOutcome(db: Db, a: ActionId, w: World)
    requires Linked(db)
    ensures var r := Dispatched(db, a, w);
            && (r.sends == 1 <==> a in db.actions && db.actions[a].state == Pending && w.allowed && w.ready)
            && r.sends <= 1
            && (r.error == None <==> a in r.db.actions && r.db.actions[a].state == Succeeded)
            && (r.sends == 1 ==>
                  r.db.actions[a].state == (if w.accepted && w.completes then Succeeded else if w.records then UnknownOutcome else Executing))
  {
  }

  /** Dispatching again after a dispatch that sent sends nothing more, whatever happens then. */
  lemma DispatchingAgainSendsNothing(db: Db, a: ActionId, w: World, again: World)
    requires Linked(db) && Dispatched(db, a, w).sends == 1
    ensures Dispatched(Dispatched(db, a, w).db, a, again).sends == 0
  {
  }

  // ---- A plan's effects ---------------------------------------------------------------------

  /** Surroundings of one effect: may it run, may a refusal be retried later, does the registry
      refuse the command, does it run through, and do the writes get through. */
  datatype EffectWorld = EffectWorld(ready: bool, allowed: bool, retryable: bool, refused: bool, done: bool, completes: bool, records: bool)

  datatype Ran = Ran(db: Db, runs: nat, ok: bool)

  function EffectRecorded(db: Db, e: EffectId, from: set<RowState>, to: RowState, through: bool): Db {
    if through && FinishEffect(db, e, from, to).Some? then FinishEffect(db, e, from, to).value else db
  }

  function EffectDispatched(db: Db, e: EffectId, w: EffectWorld): Ran {
    if e !in db.effects then Ran(db, 0, false)
    else if db.effects[e].state != Pending then Ran(db, 0, db.effects[e].state == Succeeded)
    else if !w.ready then Ran(db, 0, false)
    else if !w.allowed then
      Ran(if w.retryable then db else EffectRecorded(db, e, {Pending, Executing}, FailedTerminal, w.records), 0, false)
    else if !MayStart(db, e) then Ran(db, 0, false)
    else
      var started := SetEffect(db, e, Executing);
      if w.refused then Ran(EffectRecorded(started, e, {Pending, Executing}, FailedTerminal, w.records), 0, false)
      else if w.done && w.completes then Ran(SetEffect(started, e, Succeeded), 1, true)
      else Ran(EffectRecorded(started, e, {Executing}, UnknownOutcome, w.records), 1, false)
  }

  /** DispatchEffects: in order, stopping at the first error. */
  function BatchDispatched(db: Db, effects: seq<EffectId>, worlds: seq<EffectWorld>): (r: (Db, seq<EffectId>, bool))
    requires |worlds| == |effects|
    ensures r.1 <= effects && (r.2 <==> r.1 == effects)
    decreases |effects|
  {
    if effects == [] then (db, [], true)
    else
      var first := EffectDispatched(db, effects[0], worlds[0]);
      if !first.ok then (first.db, [], false)
      else
        var rest := BatchDispatched(first.db, effects[1..], worlds[1..]);
        (rest.0, [effects[0]] + rest.1, rest.2)
  }

  class EffectDispatcher {
    const store: Store
    var runs: nat

    constructor (store: Store)
      ensures this.store == store && runs == 0
    {
      this.store := store;
      runs := 0;
    }

    method Record(e: EffectId, from: set<RowState>, to: RowState, through: bool)
      modifies store
      ensures store.db == EffectRecorded(old(store.db), e, from, to, through)
    {
      if through {
        var _ := store.EndEffect(e, from, to);
      }
    }

    /** Dispatcher.Dispatch of the effect outbox. */
    method Dispatch(e: EffectId, w: EffectWorld) returns (ok: bool)
      modifies this`runs, store
      ensures var r := EffectDispatched(old(store.db), e, w); store.db == r.db && ok == r.ok && runs == old(runs) + r.runs
    {
      if e !in store.db.effects {
        return false;
      }
      if store.db.effects[e].state != Pending {
        return store.db.effects[e].state == Succeeded;
      }
      if !w.ready {
        return false;
      }
      if !w.allowed {
        if !w.retryable {
          Record(e, {Pending, Executing}, FailedTerminal, w.records);
        }
        return false;
      }
      var started := store.StartEffect(e);
      if started != Done {
        return false;
      }
      if w.refused {
        Record(e, {Pending, Executing}, FailedTerminal, w.records);
        return false;
      }
      runs := runs + 1; // ExecuteEffect or ExecuteCommandEffect
      if w.done && w.completes {
        var completed := store.EndEffect(e, {Executing}, Succeeded);
        if completed == Done {
          return true;
        }
      }
      Record(e, {Executing}, UnknownOutcome, w.records);
      return false;
    }

    /** Dispatcher.DispatchEffects. */
    method DispatchAll(effects: seq<EffectId>, worlds: seq<EffectWorld>) returns (ok: bool)
      requires |worlds| == |effects|
      modifies this`runs, store
      ensures store.db == BatchDispatched(old(store.db), effects, worlds).0
      ensures ok == BatchDispatched(old(store.db), effects, worlds).2
    {
      var k := 0;
      while k < |effects|
        invariant 0 <= k <= |effects|
        invariant BatchDispatched(old(store.db), effects, worlds).0 == BatchDispatched(store.db, effects[k..], worlds[k..]).0
        invariant BatchDispatched(old(store.db), effects, worlds).2 == BatchDispatched(store.db, effects[k..], worlds[k..]).2
      {
        assert effects[k..][1..] == effects[k + 1..] && worlds[k..][1..] == worlds[k + 1..];
        var one := Dispatch(effects[k], worlds[k]);
        if !one {
          return false;
        }
        k := k + 1;
      }
      return true;
    }
  }

  lemma EffectDispatchOutcome(db: Db, e: EffectId, w: EffectWorld)
    ensures var r := EffectDispatched(db, e, w);
            && (r.ok <==> e in r.db.effects && r.db.effects[e].state == Succeeded)
            && (r.runs == 1 <==> MayStart(db, e) && w.ready && w.allowed && !w.refused) && r.runs <= 1
            && (r.runs == 1 ==> r.db.effects[e].state != Pending)
            && r.db.effects.Keys == db.effects.Keys
            && (forall x | x in db.effects && (x != e || Final(db.effects[x].state)) :: r.db.effects[x] == db.effects[x])
  {
  }

  /** Exactly the effects the batch got through have succeeded; nothing after the first that
      did not was touched. */
  lemma {:induction false} BatchStopsAtFirstError(db: Db, effects: seq<EffectId>, worlds: seq<EffectWorld>, k: nat)
    requires |worlds| == |effects| && Distinct(effects) && k < |effects|
    ensures var r := BatchDispatched(db, effects, worlds);
            && (k < |r.1| ==> effects[k] in r.0.effects && r.0.effects[effects[k]].state == Succeeded)
            && (k > |r.1| && effects[k] in db.effects ==> effects[k] in r.0.effects && r.0.effects[effects[k]] == db.effects[effects[k]])
            && (k == |r.1| ==> !(effects[k] in r.0.effects && r.0.effects[effects[k]].state == Succeeded))
    decreases |effects|
  {
    EffectDispatchOutcome(db, effects[0], worlds[0]);
    var first := EffectDispatched(db, effects[0], worlds[0]);
    if first.ok {
      DistinctParts([effects[0]], effects[1..]);
      assert effects == [effects[0]] + effects[1..];
      if k == 0 {
        BatchLeavesOthers(first.db, effects[1..], worlds[1..], effects[0]);
      } else {
        BatchStopsAtFirstError(first.db, effects[1..], worlds[1..], k - 1);
      }
    }
  }

  lemma {:induction false} BatchLeavesOthers(db: Db, effects: seq<EffectId>, worlds: seq<EffectWorld>, x: EffectId)
    requires |worlds| == |effects| && x !in effects && x in db.effects
    ensures x in BatchDispatched(db, effects, worlds).0.effects
    ensures BatchDispatched(db, effects, worlds).0.effects[x] == db.effects[x]
    decreases |effects|
  {
    if effects != [] {
      EffectDispatchOutcome(db, effects[0], worlds[0]);
      var first := EffectDispatched(db, effects[0], worlds[0]);
      if first.ok {
        BatchLeavesOthers(first.db, effects[1..], worlds[1..], x);
      }
    }
  }
}
