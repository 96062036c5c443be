// What a claim does to a batch: the split into a consumed prefix and an untouched
// suffix, the durable marks, claiming again, and what a message named twice leads to.
module ClaimBatchProperties {
  import opened Prelude
  import opened ClaimBatch

  predicate NeedsReply(rows: seq<Row>, reset: Option<int>, m: MessageId) {
    m < |rows| && Claimable(rows[m], reset)
  }

  predicate TurnStarted(rows: seq<Row>, m: MessageId) {
    m < |rows| && Started(rows[m])
  }

  predicate Cleared(rows: seq<Row>, reset: Option<int>, m: MessageId) {
    m < |rows| && PreReset(rows[m], reset)
  }

  /** The messages of s that still need a reply, in order. */
  function NeedingReply(rows: seq<Row>, reset: Option<int>, s: seq<MessageId>): seq<MessageId> {
    if s == [] then []
    else (if NeedsReply(rows, reset, s[0]) then [s[0]] else []) + NeedingReply(rows, reset, s[1..])
  }

  lemma {:induction false} NeedingReplyMembers(rows: seq<Row>, reset: Option<int>, s: seq<MessageId>)
    ensures forall m :: m in NeedingReply(rows, reset, s) <==> m in s && NeedsReply(rows, reset, m)
  {
    if s != [] {
      NeedingReplyMembers(rows, reset, s[1..]);
      assert s == [s[0]] + s[1..];
    }
  }

  lemma {:induction false} NeedingReplyDistinct(rows: seq<Row>, reset: Option<int>, s: seq<MessageId>)
    requires Distinct(s)
    ensures Distinct(NeedingReply(rows, reset, s))
  {
    if s != [] {
      NeedingReplyDistinct(rows, reset, s[1..]);
      NeedingReplyMembers(rows, reset, s[1..]);
      assert s[0] !in s[1..];
      DistinctJoin([s[0]], NeedingReply(rows, reset, s[1..]));
    }
  }

  // ---- The scan, one fact at a time ----------------------------------------

  /** Mid-scan: rows a reset cleared may be ignored already, all others are as they were. */
  ghost predicate Scanning(rows: seq<Row>, work: seq<Row>, reset: Option<int>, ordered: seq<MessageId>, i: nat) {
    && |work| == |rows| && InRange(rows, ordered) && i <= |ordered|
    && forall x | 0 <= x < |rows| :: work[x] == rows[x] || (PreReset(rows[x], reset) && work[x] == rows[x].(state := IGNORED))
  }

  /** One step of the scan when it goes on past position i. */
  function NextWork(work: seq<Row>, reset: Option<int>, m: MessageId): (r: seq<Row>)
    requires m < |work|
    ensures |r| == |work|
  {
    if PreReset(work[m], reset) then work[m := work[m].(state := IGNORED)] else work
  }

  function NextClaimed(work: seq<Row>, reset: Option<int>, m: MessageId, claimed: seq<MessageId>): seq<MessageId>
    requires m < |work|
  {
    if Fresh(work[m], reset) then claimed + [m] else claimed
  }

  lemma ScanStep(work: seq<Row>, reset: Option<int>, ordered: seq<MessageId>, i: nat, claimed: seq<MessageId>)
    requires i < |ordered| && InRange(work, ordered)
    requires !Started(work[ordered[i]]) && !(Fresh(work[ordered[i]], reset) && !work[ordered[i]].known)
    ensures ScanFrom(work, reset, ordered, i, claimed)
            == ScanFrom(NextWork(work, reset, ordered[i]), reset, ordered, i + 1, NextClaimed(work, reset, ordered[i], claimed))
  {
  }

  lemma {:induction false} ScanClaimsNeedingReply(rows: seq<Row>, work: seq<Row>, reset: Option<int>,
                                                  ordered: seq<MessageId>, i: nat, claimed: seq<MessageId>)
    requires Scanning(rows, work, reset, ordered, i)
    ensures var scan := ScanFrom(work, reset, ordered, i, claimed);
            scan.Scanned? ==> scan.claimed == claimed + NeedingReply(rows, reset, ordered[i..scan.used])
    decreases |ordered| - i
  {
    var scan := ScanFrom(work, reset, ordered, i, claimed);
    if i < |ordered| && scan.Scanned? {
      var m := ordered[i];
      if Started(work[m]) {
        if claimed == [] {
          assert ordered[i..i + 1] == [m];
          assert NeedingReply(rows, reset, [m]) == [m];
        }
      } else {
        ScanStep(work, reset, ordered, i, claimed);
        ScanClaimsNeedingReply(rows, NextWork(work, reset, m), reset, ordered, i + 1, NextClaimed(work, reset, m, claimed));
        assert ordered[i..scan.used] == [m] + ordered[i + 1..scan.used];
      }
    }
  }

  lemma {:induction false} ScanWrites(rows: seq<Row>, work: seq<Row>, reset: Option<int>, ordered: seq<MessageId>,
                                      i: nat, claimed: seq<MessageId>, x: MessageId)
    requires Scanning(rows, work, reset, ordered, i) && x < |rows|
    ensures var scan := ScanFrom(work, reset, ordered, i, claimed);
            scan.Scanned? ==> scan.rows[x] == if x in ordered[i..scan.used] && Cleared(rows, reset, x)
                                              then rows[x].(state := IGNORED) else work[x]
    decreases |ordered| - i
  {
    var scan := ScanFrom(work, reset, ordered, i, claimed);
    if i < |ordered| && scan.Scanned? {
      var m := ordered[i];
      if Started(work[m]) {
        assert forall y :: y in ordered[i..scan.used] ==> y == m;
      } else {
        ScanStep(work, reset, ordered, i, claimed);
        ScanWrites(rows, NextWork(work, reset, m), reset, ordered, i + 1, NextClaimed(work, reset, m, claimed), x);
        assert ordered[i..scan.used] == [m] + ordered[i + 1..scan.used];
      }
    }
  }

  /** A started turn is claimed only alone, and only a started turn stops the scan early. */
  lemma {:induction false} ScanStops(rows: seq<Row>, work: seq<Row>, reset: Option<int>, ordered: seq<MessageId>,
                                     i: nat, claimed: seq<MessageId>)
    requires Scanning(rows, work, reset, ordered, i)
    ensures var scan := ScanFrom(work, reset, ordered, i, claimed);
            scan.Scanned? ==>
              && (forall m | m in ordered[i..scan.used] && TurnStarted(rows, m) :: claimed == [] && scan.claimed == [m])
              && (scan.used < |ordered| ==>
                    scan.claimed != [] && (TurnStarted(rows, ordered[scan.used]) || TurnStarted(rows, scan.claimed[0])))
    decreases |ordered| - i
  {
    var scan := ScanFrom(work, reset, ordered, i, claimed);
    if i < |ordered| && scan.Scanned? {
      var m := ordered[i];
      if Started(work[m]) {
        assert forall y :: y in ordered[i..scan.used] ==> y == m;
      } else {
        ScanStep(work, reset, ordered, i, claimed);
        ScanStops(rows, NextWork(work, reset, m), reset, ordered, i + 1, NextClaimed(work, reset, m, claimed));
        assert ordered[i..scan.used] == [m] + ordered[i + 1..scan.used];
      }
    }
  }

  /** The scan fails only on a message that needs a reply and has no policy row, before which
      no turn was started; if its own turn was, then nothing before it needs a reply. */
  lemma {:induction false} ScanFailsForPolicyOnly(rows: seq<Row>, work: seq<Row>, reset: Option<int>,
                                                  ordered: seq<MessageId>, i: nat, claimed: seq<MessageId>)
    returns (j: nat)
    requires Scanning(rows, work, reset, ordered, i)
    ensures ScanFrom(work, reset, ordered, i, claimed).PolicyMissing? ==>
              && i <= j < |ordered| && NeedsReply(rows, reset, ordered[j]) && !rows[ordered[j]].known
              && (forall k | i <= k < j :: !TurnStarted(rows, ordered[k]))
              && (TurnStarted(rows, ordered[j]) ==> claimed == [] && forall k | i <= k < j :: !NeedsReply(rows, reset, ordered[k]))
    decreases |ordered| - i
  {
    j := i;
    if i < |ordered| {
      var m := ordered[i];
      if !Started(work[m]) && !(Fresh(work[m], reset) && !work[m].known) {
        ScanStep(work, reset, ordered, i, claimed);
        j := ScanFailsForPolicyOnly(rows, NextWork(work, reset, m), reset, ordered, i + 1, NextClaimed(work, reset, m, claimed));
      }
    }
  }

  /** Marking unstarted rows fails exactly when one is named twice. */
  lemma {:induction false} MarkingSucceeds(rows: seq<Row>, ids: seq<MessageId>)
    requires InRange(rows, ids)
    requires forall m :: m in ids ==> rows[m].state == UNSTARTED && !rows[m].claimed
    ensures MarkBatched(rows, ids).Some? <==> Distinct(ids)
    decreases |ids|
  {
    if ids != [] {
      var next := rows[ids[0] := rows[ids[0]].(state := BATCHED)];
      if ids[0] in ids[1..] {
        MarkedTwiceFails(next, ids[1..], ids[0]);
        var k :| 0 <= k < |ids| - 1 && ids[1..][k] == ids[0];
        assert ids[k + 1] == ids[0];
      } else {
        MarkingSucceeds(next, ids[1..]);
        assert ids == [ids[0]] + ids[1..];
        if Distinct(ids[1..]) {
          DistinctJoin([ids[0]], ids[1..]);
        } else {
          var x, y :| 0 <= x < y < |ids| - 1 && ids[1..][x] == ids[1..][y];
          assert ids[x + 1] == ids[y + 1];
        }
      }
    }
  }

  lemma {:induction false} MarkedTwiceFails(rows: seq<Row>, ids: seq<MessageId>, m: MessageId)
    requires InRange(rows, ids) && m in ids && m < |rows| && rows[m].state != UNSTARTED
    ensures MarkBatched(rows, ids) == None
    decreases |ids|
  {
    if ids[0] != m && rows[ids[0]].state == UNSTARTED && !rows[ids[0]].claimed {
      assert ids == [ids[0]] + ids[1..];
      MarkedTwiceFails(rows[ids[0] := rows[ids[0]].(state := BATCHED)], ids[1..], m);
    }
  }

  lemma {:induction false} MarkingWrites(rows: seq<Row>, ids: seq<MessageId>, x: MessageId)
    requires InRange(rows, ids) && x < |rows| && MarkBatched(rows, ids).Some?
    ensures MarkBatched(rows, ids).value[x] == if x in ids then rows[x].(state := BATCHED) else rows[x]
    decreases |ids|
  {
    if ids != [] {
      MarkingWrites(rows[ids[0] := rows[ids[0]].(state := BATCHED)], ids[1..], x);
      assert ids == [ids[0]] + ids[1..];
    }
  }

  // ---- The contract of ClaimBatch ------------------------------------------

  /** How the claim leaves row m: messages cleared by a reset are ignored, every claimed
      message but the last is batched, and nothing else is written. */
  function RowAfter(rows: seq<Row>, reset: Option<int>, consumed: seq<MessageId>, messages: seq<MessageId>, m: MessageId): Row
    requires m < |rows|
  {
    if m in consumed && Cleared(rows, reset, m) then rows[m].(state := IGNORED)
    else if m in AllButLast(messages) then rows[m].(state := BATCHED)
    else rows[m]
  }

  /** The turn is what needs a reply among the first `used` messages, a started turn is alone
      in it, and only a started turn ends it early. */
  ghost predicate Selects(rows: seq<Row>, reset: Option<int>, ordered: seq<MessageId>, messages: seq<MessageId>, used: nat) {
    && used <= |ordered| && messages == NeedingReply(rows, reset, ordered[..used])
    && (forall m | m in messages && TurnStarted(rows, m) :: messages == [m])
    && (used < |ordered| ==> messages != [] && (TurnStarted(rows, ordered[used]) || TurnStarted(rows, messages[0])))
  }

  ghost predicate Splits(rows: seq<Row>, reset: Option<int>, ordered: seq<MessageId>, messages: seq<MessageId>,
                         rest: seq<MessageId>, after: seq<Row>)
  {
    && |rest| <= |ordered| && |after| == |rows|
    && var used := |ordered| - |rest|;
    && rest == ordered[used..]
    && Selects(rows, reset, ordered, messages, used)
    && (forall m | 0 <= m < |rows| :: after[m] == RowAfter(rows, reset, ordered[..used], messages, m))
  }

  /** On any batch in row order, messages named twice included. */
  lemma OrderedClaimSplits(rows: seq<Row>, reset: Option<int>, ordered: seq<MessageId>)
    requires InRange(rows, ordered)
    ensures match ClaimOrdered(rows, reset, ordered)
            case Claimed(messages, rest, after) => Splits(rows, reset, ordered, messages, rest, after) && Distinct(AllButLast(messages))
            case Rejected(code) =>
              || (code == IntegrityFailure && exists m :: m in ordered && NeedsReply(rows, reset, m) && !rows[m].known)
              || (code == Conflict && !Distinct(ordered))
  {
    hide RowAfter, NeedsReply, NeedingReply;
    var scan := ScanFrom(rows, reset, ordered, 0, []);
    if scan.PolicyMissing? {
      var j := ScanFailsForPolicyOnly(rows, rows, reset, ordered, 0, []);
      assert ordered[j] in ordered;
    } else {
      ScanClaimsFromBatch(rows, reset, ordered, 0, []);
      ScanSelects(rows, reset, ordered, scan);
      ScanMarks(rows, reset, ordered, scan);
      assert ordered[|ordered| - |ordered[scan.used..]|..] == ordered[scan.used..];
    }
  }

  /** Which messages the scan selects, and where it ends. */
  lemma ScanSelects(rows: seq<Row>, reset: Option<int>, ordered: seq<MessageId>, scan: Scan)
    requires InRange(rows, ordered) && scan.Scanned? && scan == ScanFrom(rows, reset, ordered, 0, [])
    ensures Selects(rows, reset, ordered, scan.claimed, scan.used)
    ensures forall m :: m in scan.claimed <==> m in ordered[..scan.used] && NeedsReply(rows, reset, m)
    ensures Distinct(ordered) ==> Distinct(scan.claimed)
  {
    var consumed := ordered[..scan.used];
    assert ordered[0..scan.used] == consumed;
    ScanClaimsNeedingReply(rows, rows, reset, ordered, 0, []);
    assert [] + NeedingReply(rows, reset, consumed) == NeedingReply(rows, reset, consumed);
    ScanStops(rows, rows, reset, ordered, 0, []);
    NeedingReplyMembers(rows, reset, consumed);
    if Distinct(ordered) {
      NeedingReplyDistinct(rows, reset, consumed);
    }
  }

  /** What the claim writes, unless a message to mark is named twice. */
  lemma ScanMarks(rows: seq<Row>, reset: Option<int>, ordered: seq<MessageId>, scan: Scan)
    requires InRange(rows, ordered)
    requires scan.Scanned? && scan == ScanFrom(rows, reset, ordered, 0, []) && InRange(rows, scan.claimed)
    ensures var marked := MarkBatched(scan.rows, AllButLast(scan.claimed));
            && (marked.Some? <==> Distinct(AllButLast(scan.claimed))) && scan.used <= |ordered|
            && (Distinct(ordered) ==> marked.Some?)
            && (marked.Some? ==>
                  forall m | 0 <= m < |rows| :: marked.value[m] == RowAfter(rows, reset, ordered[..scan.used], scan.claimed, m))
  {
    ScanTouchesNoClaimed(rows, reset, ordered, scan);
    var toMark := AllButLast(scan.claimed);
    MarkingSucceeds(scan.rows, toMark);
    if Distinct(ordered) {
      ScanSelects(rows, reset, ordered, scan);
    }
    if Distinct(toMark) {
      forall m | 0 <= m < |rows|
        ensures MarkBatched(scan.rows, toMark).value[m] == RowAfter(rows, reset, ordered[..scan.used], scan.claimed, m)
      {
        ScanWrites(rows, rows, reset, ordered, 0, [], m);
        assert ordered[0..scan.used] == ordered[..scan.used];
        MarkingWrites(scan.rows, toMark, m);
        MarkedWasUnstarted(rows, reset, ordered, scan, m);
      }
    }
  }

  lemma MarkedWasUnstarted(rows: seq<Row>, reset: Option<int>, ordered: seq<MessageId>, scan: Scan, m: MessageId)
    requires InRange(rows, ordered) && scan.Scanned? && scan == ScanFrom(rows, reset, ordered, 0, [])
    ensures m in AllButLast(scan.claimed) ==> !Cleared(rows, reset, m)
  {
    ScanSelects(rows, reset, ordered, scan);
    if m in AllButLast(scan.claimed) {
      assert m in scan.claimed;
    }
  }

  lemma AllButLastMembers(s: seq<MessageId>)
    requires Distinct(s)
    ensures Distinct(AllButLast(s))
    ensures forall m :: m in AllButLast(s) <==> m in s && m != s[|s| - 1]
  {
    forall m | m in s && m != s[|s| - 1] ensures m in AllButLast(s) {
      var i :| 0 <= i < |s| && s[i] == m;
      assert AllButLast(s)[i] == m;
    }
  }

  /** The messages to mark are unstarted when the scan is over. */
  lemma ScanTouchesNoClaimed(rows: seq<Row>, reset: Option<int>, ordered: seq<MessageId>, scan: Scan)
    requires InRange(rows, ordered)
    requires scan.Scanned? && scan == ScanFrom(rows, reset, ordered, 0, [])
    ensures forall m :: m in AllButLast(scan.claimed) ==> m < |rows| && scan.rows[m].state == UNSTARTED && !scan.rows[m].claimed
  {
    ScanSelects(rows, reset, ordered, scan);
    forall m | m in AllButLast(scan.claimed)
      ensures m < |rows| && scan.rows[m].state == UNSTARTED && !scan.rows[m].claimed
    {
      assert m in scan.claimed;
      ScanWrites(rows, rows, reset, ordered, 0, [], m);
    }
  }

  /** The whole contract of ClaimBatch on messages of one chat: the batch in row order is a
      consumed prefix and an untouched suffix, the turn is exactly the messages of the prefix
      that still need a reply, a started turn is claimed only alone, and the prefix ends only
      where a started turn forces it to. It fails only for a missing policy row, or for a
      message named twice. */
  lemma ClaimSplitsBatch(rows: seq<Row>, resets: map<Chat, int>, batch: seq<MessageId>)
    requires batch != [] && InRange(rows, batch) && !SpansChats(rows, batch)
    ensures var reset := ResetOf(resets, rows[batch[0]].chat);
            match Claim(rows, resets, batch)
            case Claimed(messages, rest, after) =>
              Splits(rows, reset, InRowOrder(batch), messages, rest, after) && Distinct(AllButLast(messages))
            case Rejected(code) =>
              || (code == IntegrityFailure && exists m :: m in batch && NeedsReply(rows, reset, m) && !rows[m].known)
              || (code == Conflict && !Distinct(batch))
  {
    OrderedInRange(rows, batch);
    if Distinct(batch) {
      InRowOrderDistinct(batch);
    }
    InRowOrderSorts(batch);
    hide NeedsReply, Splits, ClaimOrdered;
    OrderedClaimSplits(rows, ResetOf(resets, rows[batch[0]].chat), InRowOrder(batch));
  }

  /** In the consumed prefix only the anchor still needs a reply, and its row and every row
      of the rest are as they were. */
  lemma ConsumedLeavesOnlyAnchor(rows: seq<Row>, reset: Option<int>, ordered: seq<MessageId>, m: MessageId)
    requires InRange(rows, ordered) && Distinct(ordered) && m in ordered
    requires ClaimOrdered(rows, reset, ordered).Claimed?
    ensures var r := ClaimOrdered(rows, reset, ordered);
            if m in r.rest then r.rows[m] == rows[m]
            else if r.messages != [] && m == r.messages[|r.messages| - 1] then r.rows[m] == rows[m] && NeedsReply(rows, reset, m)
            else !NeedsReply(r.rows, None, m)
  {
    OrderedClaimSplits(rows, reset, ordered);
    var r := ClaimOrdered(rows, reset, ordered);
    SplitSettles(rows, reset, ordered, r.messages, r.rest, r.rows, m);
  }

  lemma SplitSettles(rows: seq<Row>, reset: Option<int>, ordered: seq<MessageId>, messages: seq<MessageId>,
                     rest: seq<MessageId>, after: seq<Row>, m: MessageId)
    requires InRange(rows, ordered) && Distinct(ordered) && m in ordered
    requires Splits(rows, reset, ordered, messages, rest, after)
    ensures if m in rest then after[m] == rows[m]
            else if messages != [] && m == messages[|messages| - 1] then after[m] == rows[m] && NeedsReply(rows, reset, m)
            else !NeedsReply(after, None, m)
  {
    var consumed := ordered[..|ordered| - |rest|];
    CutDistinct(ordered, |consumed|, m);
    NeedingReplyMembers(rows, reset, consumed);
    NeedingReplyDistinct(rows, reset, consumed);
    assert after[m] == RowAfter(rows, reset, consumed, messages, m);
    hide Splits, Selects, NeedingReply, Distinct;
    if messages != [] {
      AllButLastMembers(messages);
    }
  }

  /** The same for any batch: what is neither given back nor the anchor needs no reply. */
  lemma SplitAccounts(rows: seq<Row>, reset: Option<int>, ordered: seq<MessageId>, messages: seq<MessageId>,
                      rest: seq<MessageId>, after: seq<Row>, m: MessageId)
    requires InRange(rows, ordered) && m in ordered && Splits(rows, reset, ordered, messages, rest, after)
    ensures m in rest || (messages != [] && m == messages[|messages| - 1]) || !NeedsReply(after, None, m)
  {
    var consumed := ordered[..|ordered| - |rest|];
    assert ordered == consumed + rest;
    NeedingReplyMembers(rows, reset, consumed);
    assert after[m] == RowAfter(rows, reset, consumed, messages, m);
    hide Splits, Selects, NeedingReply;
    if m in messages {
      assert messages == AllButLast(messages) + [messages[|messages| - 1]];
    }
  }

  lemma CutDistinct(s: seq<MessageId>, k: nat, m: MessageId)
    requires Distinct(s) && k <= |s| && m in s
    ensures Distinct(s[..k]) && Distinct(s[k..])
    ensures m in s[k..] <==> m !in s[..k]
  {
    assert s == s[..k] + s[k..];
    DistinctParts(s[..k], s[k..]);
  }

  /** No message is dropped silently: each one of the batch is given back, is the anchor, or
      no longer needs a reply of its own once the claim is committed. */
  lemma NothingUnansweredIsConsumed(rows: seq<Row>, resets: map<Chat, int>, batch: seq<MessageId>, m: MessageId)
    requires Distinct(batch) && m in batch && Claim(rows, resets, batch).Claimed?
    ensures var r := Claim(rows, resets, batch);
            if m in r.rest || (r.messages != [] && m == r.messages[|r.messages| - 1])
            then m < |rows| && r.rows[m] == rows[m]
            else !NeedsReply(r.rows, None, m)
  {
    OrderedInRange(rows, batch);
    InRowOrderDistinct(batch);
    InRowOrderSorts(batch);
    ConsumedLeavesOnlyAnchor(rows, ResetOf(resets, rows[batch[0]].chat), InRowOrder(batch), m);
  }

  /** ClaimBatch never multiplies work: what it gives back plus one anchor is never more than
      it was given, and comes from what it was given, duplicates or not. */
  lemma ClaimNeverGrows(rows: seq<Row>, resets: map<Chat, int>, batch: seq<MessageId>)
    requires Claim(rows, resets, batch).Claimed?
    ensures var r := Claim(rows, resets, batch);
            && |r.rest| + (if r.messages == [] then 0 else 1) <= |batch|
            && (forall m :: m in r.messages || m in r.rest ==> m in batch)
  {
    if batch != [] {
      InRowOrderSorts(batch);
      OrderedInRange(rows, batch);
      ScanStaysInBatch(rows, ResetOf(resets, rows[batch[0]].chat), InRowOrder(batch), 0, []);
    }
  }

  lemma {:induction false} ScanStaysInBatch(work: seq<Row>, reset: Option<int>, ordered: seq<MessageId>, i: nat, claimed: seq<MessageId>)
    requires i <= |ordered| && InRange(work, ordered)
    requires claimed != [] ==> i > 0
    requires forall m :: m in claimed ==> m in ordered
    ensures var scan := ScanFrom(work, reset, ordered, i, claimed);
            scan.Scanned? ==> (scan.claimed != [] ==> scan.used > 0) && forall m :: m in scan.claimed ==> m in ordered
    decreases |ordered| - i
  {
    if i < |ordered| {
      var m := ordered[i];
      if !Started(work[m]) && (Fresh(work[m], reset) ==> work[m].known) {
        ScanStep(work, reset, ordered, i, claimed);
        ScanStaysInBatch(NextWork(work, reset, m), reset, ordered, i + 1, NextClaimed(work, reset, m, claimed));
      }
    }
  }

  /** With distinct input, the anchor and the rest are distinct too. */
  lemma ClaimKeepsDistinct(rows: seq<Row>, resets: map<Chat, int>, batch: seq<MessageId>)
    requires Distinct(batch) && Claim(rows, resets, batch).Claimed?
    ensures var r := Claim(rows, resets, batch);
            && Distinct(r.rest)
            && (forall m :: m in r.messages ==> m !in r.rest)
  {
    hide ClaimOrdered, RowAfter, NeedsReply, TurnStarted;
    if batch != [] {
      ClaimSplitsBatch(rows, resets, batch);
      InRowOrderDistinct(batch);
      var r := Claim(rows, resets, batch);
      var ordered := InRowOrder(batch);
      var used := |ordered| - |r.rest|;
      assert ordered == ordered[..used] + ordered[used..];
      DistinctParts(ordered[..used], ordered[used..]);
      NeedingReplyMembers(rows, ResetOf(resets, rows[batch[0]].chat), ordered[..used]);
    }
  }

  // ---- Claiming again ------------------------------------------------------

  /** A scan in which only position a still needs a reply claims that message alone. */
  lemma {:induction false} RescanFindsAnchor(work: seq<Row>, reset: Option<int>, ordered: seq<MessageId>, i: nat, a: nat, used: nat)
    requires InRange(work, ordered) && i <= used <= |ordered| && a < used
    requires forall j | 0 <= j < used && j != a :: !Claimable(work[ordered[j]], reset) && !PreReset(work[ordered[j]], reset)
    requires Claimable(work[ordered[a]], reset) && work[ordered[a]].known
    requires Started(work[ordered[a]]) ==> i <= a
    requires !Started(work[ordered[a]]) && used < |ordered| ==> Started(work[ordered[used]])
    ensures ScanFrom(work, reset, ordered, i, if a < i then [ordered[a]] else [])
            == Scanned(work, [ordered[a]], if Started(work[ordered[a]]) then a + 1 else used)
    decreases |ordered| - i
  {
    if i == used {
      assert a < i;
    } else if i != a || !Started(work[ordered[i]]) {
      var claimed := if a < i then [ordered[a]] else [];
      ScanStep(work, reset, ordered, i, claimed);
      RescanFindsAnchor(work, reset, ordered, i + 1, a, used);
      assert [] + [ordered[a]] == [ordered[a]];
      assert NextWork(work, reset, ordered[i]) == work;
    }
  }

  function PositionOf(s: seq<MessageId>, m: MessageId): (i: nat)
    requires m in s
    ensures i < |s| && s[i] == m
  {
    if s[0] == m then 0 else 1 + PositionOf(s[1..], m)
  }

  lemma {:induction false} ScanClaimsKnown(work: seq<Row>, reset: Option<int>, ordered: seq<MessageId>, i: nat, claimed: seq<MessageId>)
    requires i <= |ordered| && InRange(work, ordered) && InRange(work, claimed)
    requires forall m :: m in claimed ==> work[m].known
    ensures var scan := ScanFrom(work, reset, ordered, i, claimed);
            scan.Scanned? ==> InRange(work, scan.claimed) && forall m :: m in scan.claimed ==> work[m].known
    decreases |ordered| - i
  {
    if i < |ordered| {
      var m := ordered[i];
      if !Started(work[m]) && (Fresh(work[m], reset) ==> work[m].known) {
        ScanStep(work, reset, ordered, i, claimed);
        ScanClaimsKnown(NextWork(work, reset, m), reset, ordered, i + 1, NextClaimed(work, reset, m, claimed));
      }
    }
  }

  /** The anchor of a claim, and what its row may have become before it is answered:
      unchanged, or with its turn started. */
  ghost predicate AnchorUnanswered(r: Outcome, now: seq<Row>) {
    && r.Claimed? && r.messages != [] && |now| == |r.rows|
    && var anchor := r.messages[|r.messages| - 1];
    && anchor < |now|
    && (forall m | 0 <= m < |now| && m != anchor :: now[m] == r.rows[m])
    && (now[anchor] == r.rows[anchor] || (Started(now[anchor]) && now[anchor].known))
  }

  /** Giving back from behind position a instead of from behind all that was used. */
  lemma RestGrows(now: seq<Row>, reset: Option<int>, ordered: seq<MessageId>, a: nat, used: nat)
    requires Distinct(ordered) && a < used <= |ordered|
    requires forall j | a < j < used :: !NeedsReply(now, reset, ordered[j])
    ensures var rest, again := ordered[used..], ordered[a + 1..];
            && |rest| <= |again| && again[|again| - |rest|..] == rest
            && (again == rest <==> ordered[used - 1] == ordered[a])
            && (forall m :: m in again[..|again| - |rest|] ==> !NeedsReply(now, reset, m))
  {
    var rest, again := ordered[used..], ordered[a + 1..];
    assert again == rest <==> a + 1 == used;
    assert ordered[used - 1] == ordered[a] <==> a == used - 1;
    forall m | m in again[..|again| - |rest|] ensures !NeedsReply(now, reset, m) {
      var j :| 0 <= j < |again| - |rest| && again[j] == m;
      assert ordered[a + 1 + j] == m;
    }
  }

  /** Claiming the same messages again before the anchor is answered: the anchor comes back
      alone and nothing is written. The rest is the same exactly while the turn is unstarted or
      when the anchor was the last message consumed; otherwise a started turn also hands back
      what stood between it and the rest, none of which needs a reply any more. */
  lemma ReclaimReturnsAnchor(rows: seq<Row>, reset: Option<int>, ordered: seq<MessageId>, now: seq<Row>)
    requires InRange(rows, ordered) && Distinct(ordered)
    requires AnchorUnanswered(ClaimOrdered(rows, reset, ordered), now)
    ensures var r := ClaimOrdered(rows, reset, ordered);
            var anchor := r.messages[|r.messages| - 1];
            var again := ClaimOrdered(now, reset, ordered);
            && again.Claimed? && again.messages == [anchor] && again.rows == now
            && |r.rest| < |ordered|
            && (again.rest == r.rest <==> !Started(now[anchor]) || ordered[|ordered| - |r.rest| - 1] == anchor)
            && |r.rest| <= |again.rest| && again.rest[|again.rest| - |r.rest|..] == r.rest
            && (forall m :: m in again.rest[..|again.rest| - |r.rest|] ==> !NeedsReply(now, reset, m))
  {
    hide ClaimOrdered, ScanFrom, Distinct;
    var r := ClaimOrdered(rows, reset, ordered);
    var anchor := r.messages[|r.messages| - 1];
    var used := |ordered| - |r.rest|;
    var a := AnchorPosition(rows, reset, ordered);
    forall j | 0 <= j < used && j != a
      ensures !Claimable(now[ordered[j]], reset) && !PreReset(now[ordered[j]], reset)
    {
      OtherPosition(ordered, a, j);
      ConsumedIsSettled(rows, reset, ordered, j);
    }
    if used < |ordered| && !Started(now[anchor]) {
      StartedTurnFollows(rows, reset, ordered);
      OtherPosition(ordered, a, used);
    }
    RescanFindsAnchor(now, reset, ordered, 0, a, used);
    ScannedAlone(now, reset, ordered, anchor, if Started(now[anchor]) then a + 1 else used);
    if Started(now[anchor]) {
      RestGrows(now, reset, ordered, a, used);
    }
  }

  lemma OtherPosition(ordered: seq<MessageId>, a: nat, j: nat)
    requires Distinct(ordered) && a < |ordered| && j < |ordered| && j != a
    ensures ordered[j] != ordered[a]
  {
  }

  /** A turn of one message marks nothing. */
  lemma ScannedAlone(now: seq<Row>, reset: Option<int>, ordered: seq<MessageId>, anchor: MessageId, end: nat)
    requires InRange(now, ordered) && end <= |ordered| && ScanFrom(now, reset, ordered, 0, []) == Scanned(now, [anchor], end)
    ensures ClaimOrdered(now, reset, ordered) == Claimed([anchor], ordered[end..], now)
  {
    hide ScanFrom;
    assert AllButLast([anchor]) == [];
  }

  /** The same for ClaimBatch itself, on a batch in any order. */
  lemma ClaimingAgainReturnsAnchor(rows: seq<Row>, resets: map<Chat, int>, batch: seq<MessageId>, now: seq<Row>)
    requires Distinct(batch) && AnchorUnanswered(Claim(rows, resets, batch), now)
    requires forall m | 0 <= m < |now| && m < |rows| :: now[m].chat == rows[m].chat
    ensures var r := Claim(rows, resets, batch);
            var anchor := r.messages[|r.messages| - 1];
            var again := Claim(now, resets, batch);
            && again.Claimed? && again.messages == [anchor] && again.rows == now
            && (again.rest == r.rest <==> !Started(now[anchor]) || forall m | m in batch && m > anchor :: m in r.rest)
            && |r.rest| <= |again.rest| && again.rest[|again.rest| - |r.rest|..] == r.rest
  {
    hide ClaimOrdered, NeedsReply;
    OrderedInRange(rows, batch);
    InRowOrderDistinct(batch);
    InRowOrderSorts(batch);
    assert !SpansChats(now, batch);
    var reset, ordered := ResetOf(resets, rows[batch[0]].chat), InRowOrder(batch);
    ReclaimReturnsAnchor(rows, reset, ordered, now);
    var r := Claim(rows, resets, batch);
    var a := AnchorPosition(rows, reset, ordered);
    hide Claim, InRowOrder;
    LastConsumed(ordered, a, |ordered| - |r.rest|);
  }

  /** Position a is the last before `used` exactly when everything above it stands from `used` on. */
  lemma LastConsumed(ordered: seq<MessageId>, a: nat, used: nat)
    requires Distinct(ordered) && Ascending(ordered) && a < used <= |ordered|
    ensures ordered[used - 1] == ordered[a] <==> forall m | m in ordered && m > ordered[a] :: m in ordered[used..]
  {
    var rest := ordered[used..];
    if a == used - 1 {
      forall m | m in ordered && m > ordered[a] ensures m in rest {
        var k :| 0 <= k < |ordered| && ordered[k] == m;
        assert k >= used && rest[k - used] == m;
      }
    } else {
      var last := ordered[used - 1];
      assert last in ordered && last > ordered[a];
      assert ordered == ordered[..used] + rest && ordered[..used][used - 1] == last;
      DistinctParts(ordered[..used], rest);
    }
  }

  /** Where the anchor stands in the consumed prefix, and that claiming left its row alone. */
  lemma AnchorPosition(rows: seq<Row>, reset: Option<int>, ordered: seq<MessageId>) returns (a: nat)
    requires InRange(rows, ordered) && Distinct(ordered)
    requires var r := ClaimOrdered(rows, reset, ordered); r.Claimed? && r.messages != []
    ensures var r := ClaimOrdered(rows, reset, ordered);
            var anchor := r.messages[|r.messages| - 1];
            && a < |ordered| - |r.rest| && ordered[a] == anchor && r.rest == ordered[|ordered| - |r.rest|..]
            && anchor < |rows| && r.rows[anchor] == rows[anchor] && rows[anchor].known && Claimable(rows[anchor], reset)
  {
    var r := ClaimOrdered(rows, reset, ordered);
    var anchor := r.messages[|r.messages| - 1];
    OrderedClaimSplits(rows, reset, ordered);
    var used := |ordered| - |r.rest|;
    NeedingReplyMembers(rows, reset, ordered[..used]);
    assert anchor in r.messages;
    a := PositionOf(ordered[..used], anchor);
    assert ordered[a] == ordered[..used][a];
    assert anchor !in r.rest;
    ConsumedLeavesOnlyAnchor(rows, reset, ordered, anchor);
    ScanClaimsKnown(rows, reset, ordered, 0, []);
  }

  /** When the claim stops short with an unstarted anchor, the rest begins with a started turn. */
  lemma StartedTurnFollows(rows: seq<Row>, reset: Option<int>, ordered: seq<MessageId>)
    requires InRange(rows, ordered) && Distinct(ordered)
    requires var r := ClaimOrdered(rows, reset, ordered);
             r.Claimed? && r.messages != [] && r.rest != [] && !TurnStarted(rows, r.messages[|r.messages| - 1])
    ensures var r := ClaimOrdered(rows, reset, ordered);
            Started(rows[r.rest[0]]) && r.rows[r.rest[0]] == rows[r.rest[0]]
  {
    OrderedClaimSplits(rows, reset, ordered);
    var r := ClaimOrdered(rows, reset, ordered);
    assert r.messages[0] in r.messages;
    assert r.rest[0] in r.rest;
    ConsumedLeavesOnlyAnchor(rows, reset, ordered, r.rest[0]);
  }

  /** A consumed message other than the anchor neither needs a reply nor waits to be cleared. */
  lemma ConsumedIsSettled(rows: seq<Row>, reset: Option<int>, ordered: seq<MessageId>, j: nat)
    requires InRange(rows, ordered) && Distinct(ordered)
    requires var r := ClaimOrdered(rows, reset, ordered); r.Claimed? && j < |ordered| - |r.rest|
    requires var r := ClaimOrdered(rows, reset, ordered); r.messages != [] ==> ordered[j] != r.messages[|r.messages| - 1]
    ensures var row := ClaimOrdered(rows, reset, ordered).rows[ordered[j]]; !Claimable(row, reset) && !PreReset(row, reset)
  {
    hide ClaimOrdered, NeedingReply, Distinct;
    var r := ClaimOrdered(rows, reset, ordered);
    OrderedClaimSplits(rows, reset, ordered);
    var used := |ordered| - |r.rest|;
    assert ordered[j] == ordered[..used][j];
    CutDistinct(ordered, used, ordered[j]);
    ConsumedLeavesOnlyAnchor(rows, reset, ordered, ordered[j]);
    assert r.rows[ordered[j]] == RowAfter(rows, reset, ordered[..used], r.messages, ordered[j]);
  }

  /** The rest is not always the same: once a started anchor precedes an answered message,
      claiming again hands that message back instead of consuming it. */
  lemma ReclaimOfStartedAnchorGrowsRest()
    ensures var waiting := Row(0, false, 10, true, UNSTARTED, false);
            var started := waiting.(state := GENERATING, claimed := true);
            var answered := Row(0, false, 20, true, 5, true);
            && Claim([waiting, answered], map[], [0, 1]) == Claimed([0], [], [waiting, answered])
            && Claim([started, answered], map[], [0, 1]) == Claimed([0], [1], [started, answered])
  {
    var waiting := Row(0, false, 10, true, UNSTARTED, false);
    var started := waiting.(state := GENERATING, claimed := true);
    var answered := Row(0, false, 20, true, 5, true);
    PairInRowOrder();
    RescanFindsAnchor([waiting, answered], None, [0, 1], 0, 0, 2);
    RescanFindsAnchor([started, answered], None, [0, 1], 0, 0, 2);
    assert AllButLast([0]) == [];
    assert ClaimOrdered([waiting, answered], None, [0, 1]) == Claimed([0], [], [waiting, answered]);
    assert ClaimOrdered([started, answered], None, [0, 1]) == Claimed([0], [1], [started, answered]);
  }

  lemma PairInRowOrder()
    ensures InRowOrder([0, 1]) == [0, 1]
  {
    assert InRowOrder([0]) == Insert(0, InRowOrder([0][..0])) == [0];
    assert [0, 1][..1] == [0];
    assert InRowOrder([0, 1]) == Insert(1, [0]);
    assert Insert(1, [0]) == [0] + Insert(1, []);
  }
}
