// Claims of batches that name a message twice. Nothing in ClaimBatch removes duplicates; whether
// one does harm depends on where it stands in the turn.
module ClaimRepeats {
  import opened Prelude
  import opened ClaimBatch
  import opened ClaimBatchProperties

  /** Message m waits to be answered and no turn at a message before it was started, so a claim
      that gets that far takes it into the new turn. */
  ghost predicate Joins(rows: seq<Row>, reset: Option<int>, batch: seq<MessageId>, m: MessageId) {
    m in batch && m < |rows| && Fresh(rows[m], reset) && forall x | x in batch && x < m :: !TurnStarted(rows, x)
  }

  ghost predicate JoinsLast(rows: seq<Row>, reset: Option<int>, batch: seq<MessageId>, m: MessageId) {
    Joins(rows, reset, batch, m) && forall x: nat | Joins(rows, reset, batch, x) :: x <= m
  }

  ghost predicate AllKnown(rows: seq<Row>, reset: Option<int>, batch: seq<MessageId>) {
    forall m: nat | Joins(rows, reset, batch, m) :: rows[m].known
  }

  /** A message of the turn occurs again with another behind it, or three times. */
  ghost predicate RepeatsBefore(rows: seq<Row>, reset: Option<int>, batch: seq<MessageId>) {
    exists m :: Joins(rows, reset, batch, m)
                && (multiset(batch)[m] >= 3 || (multiset(batch)[m] >= 2 && !JoinsLast(rows, reset, batch, m)))
  }

  /** The last message of the turn occurs twice. */
  ghost predicate RepeatsLast(rows: seq<Row>, reset: Option<int>, batch: seq<MessageId>) {
    exists m :: JoinsLast(rows, reset, batch, m) && multiset(batch)[m] >= 2
  }

  lemma {:induction false} NeedingReplyCounts(rows: seq<Row>, reset: Option<int>, s: seq<MessageId>, m: MessageId)
    ensures multiset(NeedingReply(rows, reset, s))[m] == if NeedsReply(rows, reset, m) then multiset(s)[m] else 0
  {
    if s != [] {
      NeedingReplyCounts(rows, reset, s[1..], m);
      assert s == [s[0]] + s[1..];
    }
  }

  lemma DistinctWith(front: seq<MessageId>, last: MessageId)
    ensures Distinct(front + [last]) <==> Distinct(front) && last !in front
  {
    if Distinct(front) && last !in front {
      DistinctJoin(front, [last]);
    }
    if Distinct(front + [last]) {
      DistinctParts(front, [last]);
    }
  }

  lemma {:induction false} DistinctCounts(s: seq<MessageId>)
    ensures Distinct(s) <==> forall m :: multiset(s)[m] <= 1
  {
    if s != [] {
      var front, last := s[..|s| - 1], s[|s| - 1];
      DistinctCounts(front);
      assert s == front + [last];
      FrontCounts(front, last);
      assert last in front <==> last in multiset(front);
      DistinctWith(front, last);
      if !Distinct(front) {
        var m :| multiset(front)[m] > 1;
        assert multiset(s)[m] > 1;
      } else {
        assert multiset(s)[last] == multiset(front)[last] + 1;
      }
    }
  }

  /** Where the messages that join stand: they are the turn, each as often as the batch names it. */
  lemma JoiningIsSelected(rows: seq<Row>, reset: Option<int>, ordered: seq<MessageId>, claimed: seq<MessageId>, used: nat, m: MessageId)
    requires InRange(rows, ordered) && Ascending(ordered) && Selects(rows, reset, ordered, claimed, used)
    ensures Joins(rows, reset, ordered, m) <==> m in claimed && !TurnStarted(rows, m)
    ensures Joins(rows, reset, ordered, m) ==> multiset(claimed)[m] == multiset(ordered)[m]
  {
    hide Ascending;
    var consumed, rest := ordered[..used], ordered[used..];
    assert ordered == consumed + rest;
    NeedingReplyMembers(rows, reset, consumed);
    if Joins(rows, reset, ordered, m) {
      JoiningIsConsumed(rows, reset, ordered, claimed, used, m);
      assert m in consumed && m !in multiset(rest);
      NeedingReplyCounts(rows, reset, consumed, m);
      hide Selects;
      assert multiset(ordered) == multiset(consumed) + multiset(rest);
    } else if m in claimed && !TurnStarted(rows, m) {
      StartedIsAlone(rows, reset, ordered, claimed, used, m);
    }
  }

  lemma StartedIsAlone(rows: seq<Row>, reset: Option<int>, ordered: seq<MessageId>, claimed: seq<MessageId>, used: nat, m: MessageId)
    requires InRange(rows, ordered) && Ascending(ordered) && Selects(rows, reset, ordered, claimed, used)
    requires m in claimed && !TurnStarted(rows, m)
    ensures Joins(rows, reset, ordered, m)
  {
    NeedingReplyMembers(rows, reset, ordered[..used]);
    forall x | x in ordered && x < m ensures !TurnStarted(rows, x) {
      SmallerIsConsumed(ordered, used, x, m);
      assert TurnStarted(rows, x) ==> x in claimed;
    }
  }

  lemma SmallerIsConsumed(ordered: seq<MessageId>, used: nat, x: MessageId, m: MessageId)
    requires Ascending(ordered) && used <= |ordered| && x in ordered && m in ordered[..used] && x < m
    ensures x in ordered[..used]
  {
    var i :| 0 <= i < used && ordered[..used][i] == m;
    var k :| 0 <= k < |ordered| && ordered[k] == x;
    assert k < i && ordered[..used][k] == x;
  }

  lemma JoiningIsConsumed(rows: seq<Row>, reset: Option<int>, ordered: seq<MessageId>, claimed: seq<MessageId>, used: nat, m: MessageId)
    requires InRange(rows, ordered) && Ascending(ordered) && Selects(rows, reset, ordered, claimed, used)
    requires Joins(rows, reset, ordered, m)
    ensures m !in ordered[used..]
  {
    NeedingReplyMembers(rows, reset, ordered[..used]);
    forall k | used <= k < |ordered| ensures ordered[k] != m {
      assert ordered[used] in ordered && (claimed != [] ==> claimed[0] in ordered[..used]);
      if claimed != [] && TurnStarted(rows, claimed[0]) {
        var i :| 0 <= i < used && ordered[..used][i] == claimed[0];
        assert ordered[i] == claimed[0] && ordered[i] in ordered;
      }
    }
  }

  lemma {:induction false} NeedingReplyAscends(rows: seq<Row>, reset: Option<int>, s: seq<MessageId>)
    requires Ascending(s)
    ensures Ascending(NeedingReply(rows, reset, s))
  {
    if s != [] {
      NeedingReplyAscends(rows, reset, s[1..]);
      NeedingReplyMembers(rows, reset, s[1..]);
      var tail := NeedingReply(rows, reset, s[1..]);
      forall k | 0 <= k < |tail| ensures s[0] <= tail[k] {
        assert tail[k] in s[1..];
        var j :| 0 <= j < |s| - 1 && s[1..][j] == tail[k];
        assert s[j + 1] == tail[k];
      }
    }
  }

  /** The last message of an unstarted turn is the one that joins last. */
  lemma AnchorJoinsLast(rows: seq<Row>, reset: Option<int>, ordered: seq<MessageId>, claimed: seq<MessageId>, used: nat, m: MessageId)
    requires InRange(rows, ordered) && Ascending(ordered) && Selects(rows, reset, ordered, claimed, used)
    ensures JoinsLast(rows, reset, ordered, m) <==> claimed != [] && m == claimed[|claimed| - 1] && !TurnStarted(rows, m)
  {
    hide Joins, TurnStarted;
    forall x ensures Joins(rows, reset, ordered, x) <==> x in claimed && !TurnStarted(rows, x) {
      JoiningIsSelected(rows, reset, ordered, claimed, used, x);
    }
    NeedingReplyAscends(rows, reset, ordered[..used]);
    if claimed != [] {
      var last := claimed[|claimed| - 1];
      assert last in claimed;
      forall x | x in claimed ensures x <= last {
        var k :| 0 <= k < |claimed| && claimed[k] == x;
      }
      if TurnStarted(rows, last) {
        assert claimed == [last];
      }
    }
  }

  /** All of the turn but its last message is distinct, and that one is not among the rest,
      depending on how often the batch names what joins. */
  lemma RepeatsDecide(rows: seq<Row>, reset: Option<int>, ordered: seq<MessageId>, claimed: seq<MessageId>, used: nat)
    requires InRange(rows, ordered) && Ascending(ordered) && Selects(rows, reset, ordered, claimed, used)
    ensures RepeatsBefore(rows, reset, ordered) <==> !Distinct(AllButLast(claimed))
    ensures RepeatsLast(rows, reset, ordered) <==> claimed != [] && claimed[|claimed| - 1] in AllButLast(claimed)
  {
    hide Joins, JoinsLast, TurnStarted, NeedingReply;
    var front := AllButLast(claimed);
    forall m ensures Joins(rows, reset, ordered, m) <==> m in claimed && !TurnStarted(rows, m) {
      JoiningIsSelected(rows, reset, ordered, claimed, used, m);
    }
    if claimed == [] || TurnStarted(rows, claimed[|claimed| - 1]) {
      AloneOrNone(rows, claimed);
      NothingJoins(rows, reset, ordered);
    } else {
      var last := claimed[|claimed| - 1];
      assert last in claimed && forall m | m in claimed :: !TurnStarted(rows, m);
      forall m ensures m in claimed ==> multiset(claimed)[m] == multiset(ordered)[m]
        ensures JoinsLast(rows, reset, ordered, m) <==> m == last
      {
        JoiningIsSelected(rows, reset, ordered, claimed, used, m);
        AnchorJoinsLast(rows, reset, ordered, claimed, used, m);
      }
      hide Selects;
      CountsDecide(rows, reset, ordered, claimed);
      DistinctCounts(front);
      assert last in front <==> last in multiset(front);
    }
  }

  lemma AloneOrNone(rows: seq<Row>, claimed: seq<MessageId>)
    requires claimed == [] || TurnStarted(rows, claimed[|claimed| - 1])
    requires forall m | m in claimed && TurnStarted(rows, m) :: claimed == [m]
    ensures AllButLast(claimed) == [] && forall m | m in claimed :: TurnStarted(rows, m)
  {
    if claimed != [] {
      assert claimed[|claimed| - 1] in claimed;
    }
  }

  lemma NothingJoins(rows: seq<Row>, reset: Option<int>, batch: seq<MessageId>)
    requires forall m :: !Joins(rows, reset, batch, m)
    ensures !RepeatsBefore(rows, reset, batch) && !RepeatsLast(rows, reset, batch)
  {
    hide Joins;
  }

  lemma FrontCounts(front: seq<MessageId>, last: MessageId)
    ensures forall m :: multiset(front + [last])[m] == multiset(front)[m] + if m == last then 1 else 0
  {
  }

  lemma CountsDecide(rows: seq<Row>, reset: Option<int>, ordered: seq<MessageId>, claimed: seq<MessageId>)
    requires claimed != [] && forall m :: Joins(rows, reset, ordered, m) <==> m in claimed
    requires forall m | m in claimed :: multiset(claimed)[m] == multiset(ordered)[m]
    requires forall m :: JoinsLast(rows, reset, ordered, m) <==> m == claimed[|claimed| - 1]
    ensures RepeatsBefore(rows, reset, ordered) <==> exists m :: multiset(AllButLast(claimed))[m] >= 2
    ensures RepeatsLast(rows, reset, ordered) <==> multiset(AllButLast(claimed))[claimed[|claimed| - 1]] >= 1
  {
    hide Joins, JoinsLast;
    var front, last := AllButLast(claimed), claimed[|claimed| - 1];
    assert claimed == front + [last];
    FrontCounts(front, last);
    if RepeatsBefore(rows, reset, ordered) {
      var m :| Joins(rows, reset, ordered, m)
               && (multiset(ordered)[m] >= 3 || (multiset(ordered)[m] >= 2 && !JoinsLast(rows, reset, ordered, m)));
      assert multiset(front)[m] >= 2;
    }
    if m :| multiset(front)[m] >= 2 {
      assert m in multiset(front) && m in front && m in claimed;
      assert Joins(rows, reset, ordered, m);
    }
    assert last in claimed && JoinsLast(rows, reset, ordered, last);
  }

  /** Without a policy row for everything that joins, the claim fails on one that joins. */
  lemma UnknownJoins(rows: seq<Row>, reset: Option<int>, ordered: seq<MessageId>, m: MessageId)
    requires InRange(rows, ordered) && Ascending(ordered) && Joins(rows, reset, ordered, m)
    ensures ScanFrom(rows, reset, ordered, 0, []).PolicyMissing? <==> !AllKnown(rows, reset, ordered)
  {
    var scan := ScanFrom(rows, reset, ordered, 0, []);
    if scan.PolicyMissing? {
      var j := ScanFailsForPolicyOnly(rows, rows, reset, ordered, 0, []);
      var culprit := ordered[j];
      var k :| 0 <= k < |ordered| && ordered[k] == m;
      forall x | x in ordered && x < culprit ensures !TurnStarted(rows, x) {
        var i :| 0 <= i < |ordered| && ordered[i] == x;
      }
      assert culprit in ordered;
      assert NeedsReply(rows, reset, ordered[k]) && !(k < j && TurnStarted(rows, culprit));
      assert Joins(rows, reset, ordered, culprit);
    } else {
      ScanSelects(rows, reset, ordered, scan);
      ScanClaimsKnown(rows, reset, ordered, 0, []);
      ScanKeepsKnown(rows, rows, reset, ordered, 0, []);
      forall x: nat | Joins(rows, reset, ordered, x) ensures rows[x].known {
        JoiningIsSelected(rows, reset, ordered, scan.claimed, scan.used, x);
      }
    }
  }

  lemma {:induction false} ScanKeepsKnown(rows: seq<Row>, work: seq<Row>, reset: Option<int>, ordered: seq<MessageId>, i: nat, claimed: seq<MessageId>)
    requires Scanning(rows, work, reset, ordered, i)
    ensures var scan := ScanFrom(work, reset, ordered, i, claimed);
            scan.Scanned? ==> |scan.rows| == |rows| && forall x | 0 <= x < |rows| :: scan.rows[x].known == rows[x].known
    decreases |ordered| - i
  {
    if i < |ordered| {
      var m := ordered[i];
      if !Started(work[m]) && (Fresh(work[m], reset) ==> work[m].known) {
        ScanStep(work, reset, ordered, i, claimed);
        ScanKeepsKnown(rows, NextWork(work, reset, m), reset, ordered, i + 1, NextClaimed(work, reset, m, claimed));
      }
    }
  }

  /** The turn's last message is recorded as batched into itself. */
  ghost predicate AnchorBatched(r: Outcome) {
    r.Claimed? && r.messages != [] && r.messages[|r.messages| - 1] in AllButLast(r.messages)
  }

  lemma OrderedClaimOfRepeats(rows: seq<Row>, reset: Option<int>, ordered: seq<MessageId>)
    requires InRange(rows, ordered) && Ascending(ordered)
    ensures var r := ClaimOrdered(rows, reset, ordered);
            && (r == Rejected(Conflict) <==> AllKnown(rows, reset, ordered) && RepeatsBefore(rows, reset, ordered))
            && (AnchorBatched(r) <==> AllKnown(rows, reset, ordered) && RepeatsLast(rows, reset, ordered) && !RepeatsBefore(rows, reset, ordered))
  {
    hide RepeatsBefore, RepeatsLast, AllKnown, Joins;
    var scan := ScanFrom(rows, reset, ordered, 0, []);
    RepeatedJoins(rows, reset, ordered);
    if m :| Joins(rows, reset, ordered, m) {
      UnknownJoins(rows, reset, ordered, m);
    }
    if scan.Scanned? {
      ScanClaimsFromBatch(rows, reset, ordered, 0, []);
      ScanSelects(rows, reset, ordered, scan);
      ScanMarks(rows, reset, ordered, scan);
      RepeatsDecide(rows, reset, ordered, scan.claimed, scan.used);
      hide ScanFrom, MarkBatched, Selects;
    }
  }

  lemma RepeatedJoins(rows: seq<Row>, reset: Option<int>, batch: seq<MessageId>)
    ensures RepeatsBefore(rows, reset, batch) || RepeatsLast(rows, reset, batch) ==> exists m :: Joins(rows, reset, batch, m)
  {
  }

  lemma SameMessages(rows: seq<Row>, reset: Option<int>, batch: seq<MessageId>, batch': seq<MessageId>)
    requires multiset(batch) == multiset(batch')
    ensures RepeatsBefore(rows, reset, batch) <==> RepeatsBefore(rows, reset, batch')
    ensures RepeatsLast(rows, reset, batch) <==> RepeatsLast(rows, reset, batch')
    ensures AllKnown(rows, reset, batch) <==> AllKnown(rows, reset, batch')
  {
    assert forall m :: m in batch <==> m in multiset(batch);
    assert forall m :: m in batch' <==> m in multiset(batch');
    assert forall m :: Joins(rows, reset, batch, m) <==> Joins(rows, reset, batch', m);
    hide Joins;
    assert forall m :: JoinsLast(rows, reset, batch, m) <==> JoinsLast(rows, reset, batch', m);
  }

  /** What a message named twice leads to, on any batch of one chat. Behind a started turn, or
      answered already, it does no harm. Otherwise, if a policy row is there for everything the
      turn takes: when one is named twice with another of the turn behind it, or three times,
      the whole claim fails; when the last is named twice, it is recorded as batched into itself. */
  lemma ClaimOfRepeats(rows: seq<Row>, resets: map<Chat, int>, batch: seq<MessageId>)
    requires batch != [] && InRange(rows, batch) && !SpansChats(rows, batch)
    ensures var r, reset := Claim(rows, resets, batch), ResetOf(resets, rows[batch[0]].chat);
            && (r == Rejected(Conflict) <==> AllKnown(rows, reset, batch) && RepeatsBefore(rows, reset, batch))
            && (AnchorBatched(r) <==> AllKnown(rows, reset, batch) && RepeatsLast(rows, reset, batch) && !RepeatsBefore(rows, reset, batch))
  {
    OrderedInRange(rows, batch);
    InRowOrderSorts(batch);
    var reset := ResetOf(resets, rows[batch[0]].chat);
    hide RepeatsBefore, RepeatsLast, AllKnown, ClaimOrdered;
    OrderedClaimOfRepeats(rows, reset, InRowOrder(batch));
    SameMessages(rows, reset, batch, InRowOrder(batch));
  }

  /** Message m of the batch is the last that joins, it is named twice, and nothing else stops
      the claim: the condition, on the batch alone, under which m is batched into itself. */
  ghost predicate SelfBatching(rows: seq<Row>, resets: map<Chat, int>, batch: seq<MessageId>, m: MessageId) {
    && batch != [] && InRange(rows, batch) && !SpansChats(rows, batch)
    && var reset := ResetOf(resets, rows[batch[0]].chat);
    && AllKnown(rows, reset, batch) && !RepeatsBefore(rows, reset, batch)
    && JoinsLast(rows, reset, batch, m) && multiset(batch)[m] >= 2
  }

  lemma ClaimBatchesIntoItself(rows: seq<Row>, resets: map<Chat, int>, batch: seq<MessageId>, m: MessageId)
    ensures var r := Claim(rows, resets, batch);
            SelfBatching(rows, resets, batch, m) <==> AnchorBatched(r) && m == r.messages[|r.messages| - 1]
  {
    hide Claim, AllKnown, RepeatsBefore, RepeatsLast, JoinsLast, InRange, SpansChats;
    if batch != [] && InRange(rows, batch) && !SpansChats(rows, batch) {
      FirstInRange(rows, batch);
      var reset := ResetOf(resets, rows[batch[0]].chat);
      ClaimOfRepeats(rows, resets, batch);
      if JoinsLast(rows, reset, batch, m) { LastRepeats(rows, reset, batch, m); }
      if AnchorBatched(Claim(rows, resets, batch)) {
        LastOfBoth(rows, resets, batch, m);
      }
    } else {
      NothingToBatch(rows, resets, batch);
    }
  }

  lemma FirstInRange(rows: seq<Row>, batch: seq<MessageId>)
    requires batch != [] && InRange(rows, batch)
    ensures batch[0] < |rows|
  {
  }

  lemma LastRepeats(rows: seq<Row>, reset: Option<int>, batch: seq<MessageId>, m: MessageId)
    requires JoinsLast(rows, reset, batch, m)
    ensures RepeatsLast(rows, reset, batch) <==> multiset(batch)[m] >= 2
  {
    hide Joins;
  }

  lemma NothingToBatch(rows: seq<Row>, resets: map<Chat, int>, batch: seq<MessageId>)
    requires batch == [] || !InRange(rows, batch) || SpansChats(rows, batch)
    ensures !AnchorBatched(Claim(rows, resets, batch))
  {
    hide ClaimOrdered;
  }

  lemma OrderedAnchorJoinsLast(rows: seq<Row>, reset: Option<int>, ordered: seq<MessageId>, m: MessageId)
    requires InRange(rows, ordered) && Ascending(ordered) && AnchorBatched(ClaimOrdered(rows, reset, ordered))
    ensures var r := ClaimOrdered(rows, reset, ordered); JoinsLast(rows, reset, ordered, m) <==> m == r.messages[|r.messages| - 1]
  {
    hide ClaimOrdered, JoinsLast, RowAfter, NeedingReply, Ascending;
    var r := ClaimOrdered(rows, reset, ordered);
    OrderedClaimSplits(rows, reset, ordered);
    AnchorJoinsLast(rows, reset, ordered, r.messages, |ordered| - |r.rest|, m);
    assert r.messages[|r.messages| - 1] in r.messages;
  }

  lemma LastOfBoth(rows: seq<Row>, resets: map<Chat, int>, batch: seq<MessageId>, m: MessageId)
    requires batch != [] && InRange(rows, batch) && !SpansChats(rows, batch) && AnchorBatched(Claim(rows, resets, batch))
    ensures var r, reset := Claim(rows, resets, batch), ResetOf(resets, rows[batch[0]].chat);
            (JoinsLast(rows, reset, batch, m) <==> m == r.messages[|r.messages| - 1]) && RepeatsLast(rows, reset, batch)
  {
    hide JoinsLast, RepeatsLast, RepeatsBefore, AllKnown, ClaimOrdered, InRowOrder;
    var reset, ordered := ResetOf(resets, rows[batch[0]].chat), InRowOrder(batch);
    OrderedInRange(rows, batch);
    InRowOrderSorts(batch);
    ClaimOfRepeats(rows, resets, batch);
    JoinsAnyOrder(rows, reset, batch, ordered, m);
    hide SpansChats, Ascending;
    OrderedAnchorJoinsLast(rows, reset, ordered, m);
  }

  lemma JoinsAnyOrder(rows: seq<Row>, reset: Option<int>, batch: seq<MessageId>, batch': seq<MessageId>, m: MessageId)
    requires multiset(batch) == multiset(batch')
    ensures JoinsLast(rows, reset, batch, m) <==> JoinsLast(rows, reset, batch', m)
  {
    assert forall x :: x in batch <==> x in multiset(batch);
    assert forall x :: x in batch' <==> x in multiset(batch');
    assert forall x :: Joins(rows, reset, batch, x) <==> Joins(rows, reset, batch', x);
  }

  /** On any batch at all, the message the turn answers still needs its reply afterwards
      exactly when it is not batched into itself. */
  lemma AnchorSurvivesUnlessRepeated(rows: seq<Row>, resets: map<Chat, int>, batch: seq<MessageId>)
    requires batch != [] && Claim(rows, resets, batch).Claimed? && Claim(rows, resets, batch).messages != []
    ensures var r, reset := Claim(rows, resets, batch), ResetOf(resets, rows[batch[0]].chat);
            var anchor := r.messages[|r.messages| - 1];
            && batch[0] < |rows| && anchor < |rows|
            && (NeedsReply(r.rows, reset, anchor) <==> !RepeatsLast(rows, reset, batch))
            && (RepeatsLast(rows, reset, batch) ==> r.rows[anchor].state == BATCHED)
  {
    var reset, ordered := ResetOf(resets, rows[batch[0]].chat), InRowOrder(batch);
    OrderedInRange(rows, batch);
    ClaimOfRepeats(rows, resets, batch);
    ClaimIsKnown(rows, resets, batch);
    hide RepeatsBefore, RepeatsLast, AllKnown;
    OrderedAnchorSurvives(rows, reset, ordered);
  }

  /** A claim that succeeds had a policy row for everything that joins, and repeats nothing early. */
  lemma ClaimIsKnown(rows: seq<Row>, resets: map<Chat, int>, batch: seq<MessageId>)
    requires batch != [] && Claim(rows, resets, batch).Claimed?
    ensures var reset := ResetOf(resets, rows[batch[0]].chat);
            RepeatsLast(rows, reset, batch) ==> AllKnown(rows, reset, batch) && !RepeatsBefore(rows, reset, batch)
  {
    var reset, ordered := ResetOf(resets, rows[batch[0]].chat), InRowOrder(batch);
    hide RepeatsBefore, RepeatsLast, AllKnown, Joins;
    ClaimOfRepeats(rows, resets, batch);
    OrderedInRange(rows, batch);
    InRowOrderSorts(batch);
    SameMessages(rows, reset, batch, ordered);
    RepeatedJoins(rows, reset, ordered);
    if m :| Joins(rows, reset, ordered, m) {
      UnknownJoins(rows, reset, ordered, m);
    }
  }

  lemma {:induction false} ScanClaimsClaimable(work: seq<Row>, reset: Option<int>, ordered: seq<MessageId>, i: nat, claimed: seq<MessageId>)
    requires i <= |ordered| && InRange(work, ordered)
    requires forall m :: m in claimed ==> NeedsReply(work, reset, m)
    ensures var scan := ScanFrom(work, reset, ordered, i, claimed);
            scan.Scanned? ==> forall m :: m in scan.claimed ==> NeedsReply(scan.rows, reset, m)
    decreases |ordered| - i
  {
    if i < |ordered| {
      var m := ordered[i];
      if !Started(work[m]) && (Fresh(work[m], reset) ==> work[m].known) {
        ScanStep(work, reset, ordered, i, claimed);
        ScanClaimsClaimable(NextWork(work, reset, m), reset, ordered, i + 1, NextClaimed(work, reset, m, claimed));
      }
    }
  }

  lemma OrderedAnchorSurvives(rows: seq<Row>, reset: Option<int>, ordered: seq<MessageId>)
    requires InRange(rows, ordered)
    ensures var r := ClaimOrdered(rows, reset, ordered);
            r.Claimed? && r.messages != [] ==>
              var anchor := r.messages[|r.messages| - 1];
              && anchor < |rows|
              && (NeedsReply(r.rows, reset, anchor) <==> anchor !in AllButLast(r.messages))
              && (anchor in AllButLast(r.messages) ==> r.rows[anchor].state == BATCHED)
  {
    var r := ClaimOrdered(rows, reset, ordered);
    if r.Claimed? && r.messages != [] {
      var scan := ScanFrom(rows, reset, ordered, 0, []);
      ScanClaimsFromBatch(rows, reset, ordered, 0, []);
      ScanClaimsClaimable(rows, reset, ordered, 0, []);
      var anchor := scan.claimed[|scan.claimed| - 1];
      assert NeedsReply(scan.rows, reset, anchor);
      MarkingWrites(scan.rows, AllButLast(scan.claimed), anchor);
    }
  }

  /** The smallest batch whose claim fails for a message named twice: nothing is taken, so the
      message behind it waits as well. */
  lemma RepeatedMessageFailsClaim()
    ensures var waiting := Row(0, false, 10, true, UNSTARTED, false);
            ClaimOrdered([waiting, waiting], None, [0, 0, 1]) == Rejected(Conflict)
  {
    var waiting := Row(0, false, 10, true, UNSTARTED, false);
    var rows, ordered := [waiting, waiting], [0, 0, 1];
    assert multiset(ordered)[0] == 2;
    assert Joins(rows, None, ordered, 0) && Joins(rows, None, ordered, 1) && !JoinsLast(rows, None, ordered, 0);
    OrderedClaimOfRepeats(rows, None, ordered);
  }
}
