// Turning the messages queued for one chat into one turn
// (internal/adapters/sqlite/batch.go). The inbox is append-only, so a message
// is named by its row: the row number is both its identity and its arrival order.
module ClaimBatch {
  import opened Prelude

  type Chat = nat
  type MessageId = nat

  // Values of inbound_events.turn_state that the claim distinguishes.
  const UNSTARTED: int := 0
  const GENERATING: int := 1
  const FAILED_RETRYABLE: int := 2
  const IGNORED: int := -1
  const BATCHED: int := -2

  /** One inbound_events row. `known` says that the chat and participant rows its
      policy is refreshed from still exist. */
  datatype Row = Row(chat: Chat, command: bool, received: int, known: bool, state: int, claimed: bool)

  datatype ErrorCode = InvalidArgument | NotFound | IntegrityFailure | Conflict

  datatype Outcome =
    | Claimed(messages: seq<MessageId>, rest: seq<MessageId>, rows: seq<Row>)
    | Rejected(code: ErrorCode)

  predicate Started(row: Row) {
    row.claimed && (row.state == GENERATING || row.state == FAILED_RETRYABLE)
  }

  predicate PreReset(row: Row, reset: Option<int>) {
    !row.claimed && row.state == UNSTARTED && reset.Some? && row.received <= reset.value
  }

  predicate Fresh(row: Row, reset: Option<int>) {
    !row.claimed && row.state == UNSTARTED && !(reset.Some? && row.received <= reset.value)
  }

  /** Still needs a reply: its turn was cut off, or it waits unstarted after the last reset. */
  predicate Claimable(row: Row, reset: Option<int>) {
    Started(row) || Fresh(row, reset)
  }

  // ---- Arrival order -------------------------------------------------------

  function Insert(x: MessageId, s: seq<MessageId>): seq<MessageId> {
    if s == [] || x < s[0] then [x] + s else [s[0]] + Insert(x, s[1..])
  }

  /** The batch in row order, as sort.SliceStable leaves it. */
  function InRowOrder(batch: seq<MessageId>): seq<MessageId> {
    if batch == [] then [] else Insert(batch[|batch| - 1], InRowOrder(batch[..|batch| - 1]))
  }

  ghost predicate Ascending(s: seq<MessageId>) {
    forall i, j :: 0 <= i < j < |s| ==> s[i] <= s[j]
  }

  lemma {:induction false} InsertKeeps(x: MessageId, s: seq<MessageId>)
    ensures multiset(Insert(x, s)) == multiset(s) + multiset{x}
  {
    if s == [] || x < s[0] {
    } else {
      InsertKeeps(x, s[1..]);
      assert s == [s[0]] + s[1..];
    }
  }

  lemma InsertMembers(x: MessageId, s: seq<MessageId>)
    ensures forall y :: y in Insert(x, s) <==> y == x || y in s
  {
    InsertKeeps(x, s);
    assert forall y :: y in Insert(x, s) <==> y in multiset(Insert(x, s));
    assert forall y :: y in s <==> y in multiset(s);
  }

  lemma {:induction false} InsertSorts(x: MessageId, s: seq<MessageId>)
    requires Ascending(s)
    ensures Ascending(Insert(x, s))
  {
    if s != [] && x >= s[0] {
      InsertSorts(x, s[1..]);
      InsertMembers(x, s[1..]);
      var t := Insert(x, s[1..]);
      forall j | 0 <= j < |t| ensures s[0] <= t[j] {
        assert t[j] in t;
      }
    }
  }

  /** Sorting by row keeps exactly the messages of the batch and orders them by arrival. */
  lemma {:induction false} InRowOrderSorts(batch: seq<MessageId>)
    ensures multiset(InRowOrder(batch)) == multiset(batch)
    ensures Ascending(InRowOrder(batch))
    ensures forall y :: y in InRowOrder(batch) <==> y in batch
    ensures |InRowOrder(batch)| == |batch|
  {
    if batch != [] {
      var front := batch[..|batch| - 1];
      InRowOrderSorts(front);
      InsertKeeps(batch[|batch| - 1], InRowOrder(front));
      InsertSorts(batch[|batch| - 1], InRowOrder(front));
      assert batch == front + [batch[|batch| - 1]];
    }
    assert |multiset(InRowOrder(batch))| == |multiset(batch)|;
    assert forall y :: y in InRowOrder(batch) <==> y in multiset(InRowOrder(batch));
  }

  lemma {:induction false} InsertDistinct(x: MessageId, s: seq<MessageId>)
    requires Distinct(s) && x !in s
    ensures Distinct(Insert(x, s))
  {
    if s != [] && x >= s[0] {
      InsertDistinct(x, s[1..]);
      InsertMembers(x, s[1..]);
      assert s[0] !in s[1..];
      DistinctJoin([s[0]], Insert(x, s[1..]));
    }
  }

  lemma {:induction false} InRowOrderDistinct(batch: seq<MessageId>)
    requires Distinct(batch)
    ensures Distinct(InRowOrder(batch))
  {
    if batch != [] {
      var front := batch[..|batch| - 1];
      InRowOrderDistinct(front);
      InRowOrderSorts(front);
      InsertDistinct(batch[|batch| - 1], InRowOrder(front));
    }
  }

  // ---- The claim -----------------------------------------------------------

  datatype Scan = Scanned(rows: seq<Row>, claimed: seq<MessageId>, used: nat) | PolicyMissing

  predicate InRange(rows: seq<Row>, batch: seq<MessageId>) {
    forall i :: 0 <= i < |batch| ==> batch[i] < |rows|
  }

  /** What the member loop of ClaimBatch does from position i of the ordered batch on. */
  function ScanFrom(rows: seq<Row>, reset: Option<int>, batch: seq<MessageId>, i: nat, claimed: seq<MessageId>): (r: Scan)
    requires i <= |batch| && InRange(rows, batch)
    ensures r.Scanned? ==> |r.rows| == |rows| && i <= r.used <= |batch|
    decreases |batch| - i
  {
    if i == |batch| then
      Scanned(rows, claimed, i)
    else
      var row := rows[batch[i]];
      if row.claimed && !Started(row) then
        ScanFrom(rows, reset, batch, i + 1, claimed)
      else if row.claimed then
        if claimed != [] then Scanned(rows, claimed, i)
        else if !row.known then PolicyMissing
        else Scanned(rows, [batch[i]], i + 1)
      else if row.state != UNSTARTED then
        ScanFrom(rows, reset, batch, i + 1, claimed)
      else if PreReset(row, reset) then
        ScanFrom(rows[batch[i] := row.(state := IGNORED)], reset, batch, i + 1, claimed)
      else if !row.known then
        PolicyMissing
      else
        ScanFrom(rows, reset, batch, i + 1, claimed + [batch[i]])
  }

  /** The conditional updates that record every claimed message but the last as batched. */
  function MarkBatched(rows: seq<Row>, ids: seq<MessageId>): (r: Option<seq<Row>>)
    requires InRange(rows, ids)
    ensures r.Some? ==> |r.value| == |rows|
    decreases |ids|
  {
    if ids == [] then Some(rows)
    else if rows[ids[0]].state == UNSTARTED && !rows[ids[0]].claimed then
      MarkBatched(rows[ids[0] := rows[ids[0]].(state := BATCHED)], ids[1..])
    else None
  }

  function AllButLast(s: seq<MessageId>): seq<MessageId> {
    if s == [] then [] else s[..|s| - 1]
  }

  lemma {:induction false} ScanClaimsFromBatch(rows: seq<Row>, reset: Option<int>, batch: seq<MessageId>, i: nat, claimed: seq<MessageId>)
    requires i <= |batch| && InRange(rows, batch) && InRange(rows, claimed)
    ensures var s := ScanFrom(rows, reset, batch, i, claimed); s.Scanned? ==> InRange(rows, s.claimed)
    decreases |batch| - i
  {
    if i < |batch| {
      var row := rows[batch[i]];
      ScanClaimsFromBatch(rows, reset, batch, i + 1, claimed);
      if PreReset(row, reset) {
        ScanClaimsFromBatch(rows[batch[i] := row.(state := IGNORED)], reset, batch, i + 1, claimed);
      } else {
        ScanClaimsFromBatch(rows, reset, batch, i + 1, claimed + [batch[i]]);
      }
    }
  }

  predicate SpansChats(rows: seq<Row>, batch: seq<MessageId>) {
    exists i, j :: 0 <= i < |batch| && 0 <= j < |batch| && batch[i] < |rows| && batch[j] < |rows|
                   && rows[batch[i]].chat != rows[batch[j]].chat
  }

  function ResetOf(resets: map<Chat, int>, chat: Chat): Option<int> {
    if chat in resets then Some(resets[chat]) else None
  }

  lemma OrderedInRange(rows: seq<Row>, batch: seq<MessageId>)
    requires InRange(rows, batch)
    ensures InRange(rows, InRowOrder(batch))
  {
    InRowOrderSorts(batch);
    var ordered := InRowOrder(batch);
    forall i | 0 <= i < |ordered| ensures ordered[i] < |rows| {
      assert ordered[i] in batch;
    }
  }

  /** ClaimBatch as a function of the inbox; a rejected claim is rolled back and changes nothing. */
  function Claim(rows: seq<Row>, resets: map<Chat, int>, batch: seq<MessageId>): (r: Outcome)
    ensures r.Claimed? ==> |r.rows| == |rows|
  {
    if batch == [] then Claimed([], [], rows)
    else if SpansChats(rows, batch) then Rejected(InvalidArgument)
    else if !InRange(rows, batch) then Rejected(NotFound)
    else
      OrderedInRange(rows, batch);
      ClaimOrdered(rows, ResetOf(resets, rows[batch[0]].chat), InRowOrder(batch))
  }

  /** The claim of a batch that is already in row order. */
  function ClaimOrdered(rows: seq<Row>, reset: Option<int>, ordered: seq<MessageId>): (r: Outcome)
    requires InRange(rows, ordered)
    ensures r.Claimed? ==> |r.rows| == |rows| && InRange(rows, r.messages) && InRange(rows, r.rest)
  {
    match ScanFrom(rows, reset, ordered, 0, [])
    case PolicyMissing => Rejected(IntegrityFailure)
    case Scanned(after, claimed, used) =>
      ScanClaimsFromBatch(rows, reset, ordered, 0, []);
      match MarkBatched(after, AllButLast(claimed))
      case None => Rejected(Conflict)
      case Some(final) => Claimed(claimed, ordered[used..], final)
  }

  /** The member loop: walks the ordered batch and decides what this turn consumes. */
  method ScanMembers(rows: seq<Row>, reset: Option<int>, ordered: seq<MessageId>) returns (scan: Scan)
    requires InRange(rows, ordered)
    ensures scan == ScanFrom(rows, reset, ordered, 0, [])
  {
    var work := rows;
    var claimed: seq<MessageId> := [];
    var used := 0;
    while used < |ordered|
      invariant 0 <= used <= |ordered|
      invariant |work| == |rows|
      invariant ScanFrom(rows, reset, ordered, 0, []) == ScanFrom(work, reset, ordered, used, claimed)
    {
      var message := ordered[used];
      var row := work[message];
      if row.claimed {
        if row.state != GENERATING && row.state != FAILED_RETRYABLE {
          used := used + 1; // answered since it was queued
          continue;
        }
        if |claimed| > 0 {
          break;
        }
        if !row.known {
          return PolicyMissing;
        }
        return Scanned(work, [message], used + 1);
      }
      used := used + 1;
      if row.state != UNSTARTED {
        continue;
      }
      if reset.Some? && row.received <= reset.value {
        work := work[message := row.(state := IGNORED)];
        continue;
      }
      if !row.known {
        return PolicyMissing;
      }
      claimed := claimed + [message];
    }
    return Scanned(work, claimed, used);
  }

  /** Records every claimed message but the last as batched into the last; a row in
      another state fails the whole transaction. */
  method RecordBatched(rows: seq<Row>, claimed: seq<MessageId>) returns (final: Option<seq<Row>>)
    requires InRange(rows, claimed)
    ensures final == MarkBatched(rows, AllButLast(claimed))
  {
    var work := rows;
    var marked := 0;
    ghost var toMark := AllButLast(claimed);
    while marked < |claimed| - 1
      invariant 0 <= marked <= |toMark|
      invariant |work| == |rows|
      invariant MarkBatched(rows, toMark) == MarkBatched(work, toMark[marked..])
    {
      var message := claimed[marked];
      assert toMark[marked..][0] == message && toMark[marked..][1..] == toMark[marked + 1..];
      if work[message].state != UNSTARTED || work[message].claimed {
        return None;
      }
      work := work[message := work[message].(state := BATCHED)];
      marked := marked + 1;
    }
    assert toMark[marked..] == [];
    return Some(work);
  }

  /** The durable inbox. ClaimBatch is one SQLite transaction. */
  class InboundStore {
    var rows: seq<Row>
    var resets: map<Chat, int>

    constructor ()
      ensures rows == [] && resets == map[]
    {
      rows, resets := [], map[];
    }

    /** Claims one turn from a batch; on error the transaction is rolled back. */
    method ClaimBatch(batch: seq<MessageId>) returns (outcome: Outcome)
      modifies this`rows
      ensures outcome == Claim(old(rows), resets, batch)
      ensures rows == if outcome.Claimed? then outcome.rows else old(rows)
    {
      if batch == [] {
        return Claimed([], [], rows);
      }
      if SpansChats(rows, batch) {
        return Rejected(InvalidArgument);
      }
      if !InRange(rows, batch) {
        return Rejected(NotFound);
      }
      OrderedInRange(rows, batch);
      var ordered := InRowOrder(batch);
      var reset := ResetOf(resets, rows[batch[0]].chat);
      var scan := ScanMembers(rows, reset, ordered);
      if scan.PolicyMissing? {
        return Rejected(IntegrityFailure);
      }
      ScanClaimsFromBatch(rows, reset, ordered, 0, []);
      var final := RecordBatched(scan.rows, scan.claimed);
      if final.None? {
        return Rejected(Conflict);
      }
      rows := final.value;
      outcome := Claimed(scan.claimed, ordered[scan.used..], rows);
    }
  }
}
