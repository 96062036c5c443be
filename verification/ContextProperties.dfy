// What Build promises: trimming drops whole invocations, oldest first and no more than needed;
// the transcript keeps the rest in order inside exactly one pair of boundary tags; and the
// messages are acceptable.
module ContextProperties {
  import opened Prelude
  import opened Strings
  import opened Context
  import opened Utf8
  import opened ContextBoundary

  // ---- Trimming ----------------------------------------------------------------------

  /** The invocations in the order of their first entry. */
  function Order(entries: seq<Entry>): seq<nat>
    decreases |entries|
  {
    if entries == [] then [] else ShrinksWithout(entries); [entries[0].invocation] + Order(Without(entries, entries[0].invocation))
  }

  lemma ShrinksWithout(entries: seq<Entry>)
    requires entries != []
    ensures |Without(entries, entries[0].invocation)| < |entries|
  {
    assert entries[0] in entries && entries[0] !in Without(entries, entries[0].invocation);
  }

  /** The entries without the first k invocations. */
  function Dropped(entries: seq<Entry>, k: nat): seq<Entry>
    decreases k
  {
    if k == 0 || entries == [] then entries else Dropped(Without(entries, entries[0].invocation), k - 1)
  }

  /** Every entry's invocation is in the order, once, and nothing else is. */
  lemma {:induction false} OrderCovers(entries: seq<Entry>)
    ensures forall e | e in entries :: e.invocation in Order(entries)
    ensures forall n | n in Order(entries) :: exists e :: e in entries && e.invocation == n
    ensures Distinct(Order(entries))
    decreases |entries|
  {
    if entries != [] {
      var first := entries[0].invocation;
      var rest := Without(entries, first);
      ShrinksWithout(entries);
      OrderCovers(rest);
      assert Order(entries) == [first] + Order(rest);
      assert entries[0] in entries;
      forall e | e in entries ensures e.invocation in Order(entries) {
        assert e.invocation != first ==> e in rest;
      }
      forall n | n in Order(rest) ensures n != first && exists e :: e in entries && e.invocation == n {
        var e :| e in rest && e.invocation == n;
        assert e in entries;
      }
      DistinctJoin([first], Order(rest));
    }
  }

  lemma OrderOfRest(entries: seq<Entry>)
    requires entries != []
    ensures var rest := Without(entries, entries[0].invocation);
            |rest| < |entries| && Order(entries) == [entries[0].invocation] + Order(rest) && entries[0].invocation !in Order(rest)
  {
    ShrinksWithout(entries);
    OrderCovers(Without(entries, entries[0].invocation));
  }

  lemma KeptBehindFirst(first: nat, order: seq<nat>, k: nat, n: nat)
    requires k <= |order| && first !in order
    ensures ([first] + order)[k + 1..] == order[k..]
    ensures n in order[k..] ==> n != first
  {
  }

  /** Only the invocations from the k-th on keep their entries, and they keep all of them. */
  lemma {:induction false} DroppedKeepsRest(entries: seq<Entry>, k: nat, e: Entry)
    requires k <= |Order(entries)|
    ensures e in Dropped(entries, k) <==> e in entries && e.invocation in Order(entries)[k..]
    decreases k
  {
    if k == 0 {
      OrderCovers(entries);
      assert Order(entries)[0..] == Order(entries);
    } else {
      var first := entries[0].invocation;
      var rest := Without(entries, first);
      OrderOfRest(entries);
      assert Dropped(entries, k) == Dropped(rest, k - 1);
      KeptBehindFirst(first, Order(rest), k - 1, e.invocation);
      hide Order, Without, Dropped;
      DroppedKeepsRest(rest, k - 1, e);
    }
  }

  predicate InOrder<T(==)>(part: seq<T>, whole: seq<T>)
  {
    if part == [] then true
    else if whole == [] then false
    else if part[|part| - 1] == whole[|whole| - 1] then InOrder(part[..|part| - 1], whole[..|whole| - 1])
    else InOrder(part, whole[..|whole| - 1])
  }

  lemma {:induction false} WithoutKeepsOrder(entries: seq<Entry>, invocation: nat)
    ensures InOrder(Without(entries, invocation), entries)
  {
    if entries != [] {
      var front := entries[..|entries| - 1];
      WithoutKeepsOrder(front, invocation);
      var last := entries[|entries| - 1];
      if last.invocation == invocation {
        var part := Without(entries, invocation);
        assert last !in part;
        assert part != [] ==> part[|part| - 1] in part;
      } else {
        assert Without(entries, invocation)[..|Without(entries, invocation)| - 1] == Without(front, invocation);
      }
    }
  }

  lemma {:induction false} InOrderItself<T>(s: seq<T>)
    ensures InOrder(s, s)
  {
    if s != [] {
      InOrderItself(s[..|s| - 1]);
    }
  }

  lemma {:induction false} FrontInOrder<T>(part: seq<T>, whole: seq<T>)
    requires InOrder(part, whole) && part != []
    ensures InOrder(part[..|part| - 1], whole)
    decreases |whole|
  {
    var front, rest := part[..|part| - 1], whole[..|whole| - 1];
    if part[|part| - 1] == whole[|whole| - 1] {
      if front != [] && front[|front| - 1] == whole[|whole| - 1] {
        FrontInOrder(front, rest);
      }
    } else {
      FrontInOrder(part, rest);
      if front != [] && front[|front| - 1] == whole[|whole| - 1] {
        FrontInOrder(front, rest);
      }
    }
  }

  lemma {:induction false} InOrderOfInOrder<T>(part: seq<T>, mid: seq<T>, whole: seq<T>)
    requires InOrder(part, mid) && InOrder(mid, whole)
    ensures InOrder(part, whole)
    decreases |whole|
  {
    if part != [] {
      var rest := whole[..|whole| - 1];
      if mid[|mid| - 1] != whole[|whole| - 1] {
        InOrderOfInOrder(part, mid, rest);
        if part[|part| - 1] == whole[|whole| - 1] {
          FrontInOrder(part, rest);
        }
      } else if part[|part| - 1] == mid[|mid| - 1] {
        InOrderOfInOrder(part[..|part| - 1], mid[..|mid| - 1], rest);
      } else {
        InOrderOfInOrder(part, mid[..|mid| - 1], rest);
      }
    }
  }

  /** Trimming drops entries and moves none. */
  lemma {:induction false} DroppedKeepsOrder(entries: seq<Entry>, k: nat)
    ensures InOrder(Dropped(entries, k), entries)
    decreases k
  {
    if k == 0 || entries == [] {
      InOrderItself(entries);
    } else {
      var rest := Without(entries, entries[0].invocation);
      DroppedKeepsOrder(rest, k - 1);
      WithoutKeepsOrder(entries, entries[0].invocation);
      InOrderOfInOrder(Dropped(rest, k - 1), rest, entries);
    }
  }

  /** The visible history ends with the current message, the only entry of its invocation. */
  ghost predicate EndsWithCurrent(entries: seq<Entry>, current: nat) {
    && entries != [] && IsCurrent(entries[|entries| - 1], current)
    && forall k | 0 <= k < |entries| - 1 :: !IsCurrent(entries[k], current)
  }

  lemma {:induction false} WithoutKeepsLast(entries: seq<Entry>, current: nat)
    requires EndsWithCurrent(entries, current) && |entries| > 1
    ensures EndsWithCurrent(Without(entries, entries[0].invocation), current)
    ensures Without(entries, entries[0].invocation)[|Without(entries, entries[0].invocation)| - 1] == entries[|entries| - 1]
  {
    var front := entries[..|entries| - 1];
    var first := entries[0].invocation;
    assert !IsCurrent(entries[0], current);
    var part := Without(front, first);
    assert Without(entries, first) == part + [entries[|entries| - 1]];
    forall k | 0 <= k < |part| ensures !IsCurrent(part[k], current) {
      assert part[k] in front;
    }
  }

  ghost predicate NoneFitsBefore(i: Instructions, entries: seq<Entry>, maxBytes: nat, k: nat) {
    forall j | 0 <= j < k :: !FitsIn(i, Dropped(entries, j), maxBytes)
  }

  /** The first k invocations are dropped, none of them in vain, and the current message stays. */
  ghost predicate TrimsTo(i: Instructions, entries: seq<Entry>, current: nat, maxBytes: nat, k: nat) {
    && k < |Order(entries)| && EndsWithCurrent(Dropped(entries, k), current) && entries != []
    && Dropped(entries, k)[|Dropped(entries, k)| - 1] == entries[|entries| - 1]
    && NoneFitsBefore(i, entries, maxBytes, k)
    && if FitsIn(i, Dropped(entries, k), maxBytes) then Trimmed(i, entries, maxBytes) == Built(Messages(i, Dropped(entries, k)))
       else Trimmed(i, entries, maxBytes) == Fails(TooLarge) && Dropped(entries, k) == [entries[|entries| - 1]]
  }

  lemma TrimsOneMore(i: Instructions, entries: seq<Entry>, rest: seq<Entry>, current: nat, maxBytes: nat, n: nat)
    requires |entries| > 1 && rest == Without(entries, entries[0].invocation) && |rest| < |entries| && rest != []
    requires Order(entries) == [entries[0].invocation] + Order(rest) && rest[|rest| - 1] == entries[|entries| - 1]
    requires !FitsIn(i, entries, maxBytes) && TrimsTo(i, rest, current, maxBytes, n)
    ensures TrimsTo(i, entries, current, maxBytes, n + 1)
  {
    hide FitsIn, Order, EndsWithCurrent, Messages;
    assert Dropped(entries, n + 1) == Dropped(rest, n);
    assert NoneFitsBefore(i, entries, maxBytes, n + 1) by {
      forall j | 0 <= j < n + 1 ensures !FitsIn(i, Dropped(entries, j), maxBytes) {
        assert j > 0 ==> Dropped(entries, j) == Dropped(rest, j - 1);
      }
    }
  }

  lemma TrimsAtOnce(i: Instructions, entries: seq<Entry>, current: nat, maxBytes: nat)
    requires EndsWithCurrent(entries, current) && |Order(entries)| > 0 && (FitsIn(i, entries, maxBytes) || |entries| == 1)
    ensures TrimsTo(i, entries, current, maxBytes, 0)
  {
    assert entries != [];
    hide FitsIn, Messages, Order, EndsWithCurrent;
    assert Dropped(entries, 0) == entries;
    assert |entries| == 1 ==> entries == [entries[|entries| - 1]];
  }

  /** What trimming a conversation that ends with the current message comes to. */
  lemma {:induction false} TrimmingDropsOldest(i: Instructions, entries: seq<Entry>, current: nat, maxBytes: nat) returns (k: nat)
    requires EndsWithCurrent(entries, current)
    ensures TrimsTo(i, entries, current, maxBytes, k)
    decreases |entries|
  {
    hide FitsIn, Messages, TrimsTo, Order;
    OrderOfRest(entries);
    if FitsIn(i, entries, maxBytes) || |entries| == 1 {
      k := 0;
      TrimsAtOnce(i, entries, current, maxBytes);
    } else {
      var rest := Without(entries, entries[0].invocation);
      WithoutKeepsLast(entries, current);
      assert rest != [];
      hide EndsWithCurrent;
      var n := TrimmingDropsOldest(i, rest, current, maxBytes);
      TrimsOneMore(i, entries, rest, current, maxBytes, n);
      k := n + 1;
    }
  }

  // ---- The sections of the transcript --------------------------------------------------

  /** The older messages and the burst are the kept entries, in order; the burst is what came
      after the last reply. */
  lemma SectionsKeepOrder(entries: seq<Entry>)
    ensures var burst := BurstStart(entries);
            && Sections(entries) == ["older messages:"] + Rendered(entries[..burst]) + ["current messages(burst):"] + Rendered(entries[burst..])
            && Rendered(entries[..burst]) + Rendered(entries[burst..]) == Rendered(entries)
            && (forall k | burst <= k < |entries| :: entries[k].role != Assistant)
            && (burst > 0 ==> entries[burst - 1].role == Assistant)
  {
    var burst := BurstStart(entries);
    RenderedParts(entries, burst);
    hide Rendered;
  }

  lemma RenderedParts(entries: seq<Entry>, n: nat)
    requires n <= |entries|
    ensures Rendered(entries[..n]) + Rendered(entries[n..]) == Rendered(entries)
  {
    var parts := Rendered(entries[..n]) + Rendered(entries[n..]);
    forall k | 0 <= k < |entries| ensures parts[k] == Rendered(entries)[k] {
    }
  }

  // ---- Every list Build returns is acceptable ---------------------------------------------

  lemma CountOf(a: Message, b: Message, c: Message, d: Message, e: Message, p: Provenance)
    ensures Count([] + [a] + [b] + [c] + [d] + [e], p)
            == (if a.provenance == p then 1 else 0) + (if b.provenance == p then 1 else 0)
            + (if c.provenance == p then 1 else 0) + (if d.provenance == p then 1 else 0) + (if e.provenance == p then 1 else 0)
  {
    assert Count([], p) == 0;
    hide Count;
    CountNext([], a, p);
    CountNext([] + [a], b, p);
    CountNext([] + [a] + [b], c, p);
    CountNext([] + [a] + [b] + [c], d, p);
    CountNext([] + [a] + [b] + [c] + [d], e, p);
  }

  lemma Surrounded(front: string, middle: string, back: string)
    requires front != "" && !IsSpace(front[0])
    ensures StartsWith(front + middle + back, front) && EndsWith(front + middle + back, back) && !Blank(front + middle + back)
  {
    var all := front + middle + back;
    assert all[0] == front[0];
    assert all[..|front|] == front;
    assert all[|all| - |back|..] == back;
  }

  lemma BuiltCounts(i: Instructions, entries: seq<Entry>, p: Provenance)
    ensures Count(Messages(i, entries), p) == if p in [BasePrompt, PromptOverride, ChatInformation, ChatState, HistoryTranscript] then 1 else 0
  {
    var t := Trusted(i);
    assert Messages(i, entries) == [] + [t[0]] + [t[1]] + [t[2]] + [t[3]] + [Transcript(entries)];
    CountOf(t[0], t[1], t[2], t[3], Transcript(entries), p);
  }

  lemma TrustedFits(i: Instructions, k: nat)
    requires k < 4
    ensures FitsAfter(Trusted(i)[..k], Trusted(i)[k])
  {
    var t := Trusted(i);
    if k == 1 {
      Surrounded("<prompt_override>\n", i.override, "\n</prompt_override>");
      assert t[..1] == [t[0]];
    } else if k == 2 {
      Surrounded("Chat information:\n", i.information, "");
      assert "Chat information:\n" + i.information + "" == "Chat information:\n" + i.information;
      assert t[..2] == [t[0], t[1]];
    } else if k == 3 {
      Surrounded("<chat_state>\n", i.state, "\n</chat_state>");
      assert t[..3] == [t[0], t[1], t[2]];
    }
    hide StartsWith, EndsWith, Blank;
  }

  lemma TranscriptFits(before: seq<Message>, entries: seq<Entry>)
    ensures FitsAfter(before, Transcript(entries))
  {
    assert OPENING[0] == '<';
    Surrounded(OPENING, Escaped(Join(Sections(entries)), 0), CLOSING);
    hide StartsWith, EndsWith, Blank, Join, Sections, Escaped;
  }

  lemma BuiltIsAcceptable(i: Instructions, entries: seq<Entry>)
    ensures Acceptable(Messages(i, entries))
  {
    hide Count, FitsAfter;
    var ms := Messages(i, entries);
    forall p ensures Count(ms, p) == if p in [BasePrompt, PromptOverride, ChatInformation, ChatState, HistoryTranscript] then 1 else 0 {
      BuiltCounts(i, entries, p);
    }
    forall k | 0 <= k < |ms| ensures FitsAfter(ms[..k], ms[k]) {
      if k < 4 {
        TrustedFits(i, k);
        assert ms[..k] == Trusted(i)[..k];
      } else {
        TranscriptFits(ms[..k], entries);
      }
    }
  }

  // ---- When nothing fits ---------------------------------------------------------------------

  /** The size of the parts, each with its separator. */
  function Total(parts: seq<string>): nat {
    if parts == [] then 0 else Size(parts[0]) + 2 + Total(parts[1..])
  }

  lemma {:induction false} TotalAdds(a: seq<string>, b: seq<string>)
    ensures Total(a + b) == Total(a) + Total(b)
  {
    if a == [] {
      assert a + b == b;
    } else {
      TotalAdds(a[1..], b);
      assert (a + b)[1..] == a[1..] + b;
    }
  }

  lemma {:induction false} JoinSize(parts: seq<string>)
    requires parts != []
    ensures Size(Join(parts)) == Total(parts) - 2
  {
    if |parts| > 1 {
      JoinSize(parts[1..]);
      SizeAdds(parts[0] + "\n\n", Join(parts[1..]));
      SizeAdds(parts[0], "\n\n");
      SeparatorSize();
    } else {
      assert parts[1..] == [];
    }
  }

  lemma SeparatorSize()
    ensures Size("\n\n") == 2
  {
    SizeOfOne('\n');
    SizeAdds(['\n'], ['\n']);
    assert ['\n'] + ['\n'] == "\n\n";
  }

  lemma {:induction false} JoinLast(parts: seq<string>, last: string)
    requires parts != []
    ensures Join(parts + [last]) == Join(parts) + "\n\n" + last
    decreases |parts|
  {
    var all := parts + [last];
    if |parts| == 1 {
      assert all[1..] == [last];
    } else {
      assert all[1..] == parts[1..] + [last];
      JoinLast(parts[1..], last);
    }
  }

  lemma {:induction false} BytesAdds(messages: seq<Message>, m: Message)
    ensures MessagesBytes(messages + [m]) == MessagesBytes(messages) + MessageBytes(m)
  {
    if messages == [] {
      assert messages + [m] == [m] && [m][1..] == [];
    } else {
      BytesAdds(messages[1..], m);
      assert (messages + [m])[1..] == messages[1..] + [m];
    }
  }

  /** What stands before the last entry in the transcript. */
  function Head(entries: seq<Entry>): seq<string>
    requires entries != []
  {
    var front := entries[..|entries| - 1];
    Sections(front)
  }

  lemma SectionsEnd(entries: seq<Entry>)
    requires entries != [] && entries[|entries| - 1].role != Assistant
    ensures Sections(entries) == Head(entries) + [entries[|entries| - 1].rendered]
  {
    var n := |entries| - 1;
    var front := entries[..n];
    var burst := BurstStart(front);
    assert BurstStart(entries) == burst;
    assert entries[..burst] == front[..burst];
    assert Rendered(entries[burst..]) == Rendered(front[burst..]) + [entries[n].rendered];
  }

  lemma FourTotals(x: seq<string>, a: seq<string>, y: seq<string>, b: seq<string>)
    ensures Total(x + a + y + b) == Total(x) + Total(a) + Total(y) + Total(b)
  {
    TotalAdds(x + a + y, b);
    TotalAdds(x + a, y);
    TotalAdds(x, a);
  }

  lemma HeadIsLargest(front: seq<Entry>)
    ensures Total(Sections(front)) >= Total(Sections([]))
  {
    var burst := BurstStart(front);
    var a, b := Rendered(front[..burst]), Rendered(front[burst..]);
    assert Sections(front) == ["older messages:"] + a + ["current messages(burst):"] + b;
    assert Sections([]) == ["older messages:"] + ["current messages(burst):"];
    hide Sections, Rendered, Total;
    FourTotals(["older messages:"], a, ["current messages(burst):"], b);
    TotalAdds(["older messages:"], ["current messages(burst):"]);
  }

  /** The transcript of a conversation is never smaller than that of its last message alone. */
  lemma AloneIsSmallest(i: Instructions, entries: seq<Entry>)
    requires entries != [] && entries[|entries| - 1].role != Assistant
    ensures MessagesBytes(Messages(i, [entries[|entries| - 1]])) <= MessagesBytes(Messages(i, entries))
  {
    var last := entries[|entries| - 1];
    TranscriptSize(entries);
    TranscriptSize([last]);
    assert Head([last]) == Sections([]) by {
      assert [last][..0] == [];
    }
    hide Sections;
    HeadIsLargest(entries[..|entries| - 1]);
    HeadHasNoBracket();
    BytesAdds(Trusted(i), Transcript(entries));
    BytesAdds(Trusted(i), Transcript([last]));
  }

  lemma HeadHasNoBracket()
    ensures forall k | 0 <= k < |Join(Sections([])) + "\n\n"| :: (Join(Sections([])) + "\n\n")[k] != '<'
  {
    assert Sections([]) == ["older messages:", "current messages(burst):"];
    assert Join(["older messages:", "current messages(burst):"]) == "older messages:" + "\n\n" + "current messages(burst):";
  }

  lemma TranscriptSize(entries: seq<Entry>)
    requires entries != [] && entries[|entries| - 1].role != Assistant
    ensures var head, own := Join(Head(entries)) + "\n\n", Size(Escaped(entries[|entries| - 1].rendered, 0));
            var fixed := Size(OPENING) + Size(CLOSING) + 8;
            && MessageBytes(Transcript(entries)) >= Total(Head(entries)) + own + fixed
            && ((forall k | 0 <= k < |head| :: head[k] != '<') ==> MessageBytes(Transcript(entries)) == Total(Head(entries)) + own + fixed)
  {
    var last := entries[|entries| - 1].rendered;
    var head := Join(Head(entries)) + "\n\n";
    SectionsEnd(entries);
    JoinLast(Head(entries), last);
    JoinSize(Head(entries));
    SizeAdds(Join(Head(entries)), "\n\n");
    SeparatorSize();
    EscapedBehind(head, last);
    var e := Escaped(head + last, 0);
    SizeAdds(OPENING + e, CLOSING);
    SizeAdds(OPENING, e);
  }

  // ---- Build ------------------------------------------------------------------------------------

  /** The checks of the first loop leave a conversation that ends with its one current message. */
  predicate Checked(history: seq<Entry>, current: nat) {
    var entries := Visible(history);
    !IsAmbiguous(entries, current) && HasCurrent(entries, current) && IsCurrent(entries[|entries| - 1], current)
  }

  lemma CheckedEnds(history: seq<Entry>, current: nat)
    requires Checked(history, current)
    ensures EndsWithCurrent(Visible(history), current) && Visible(history)[|Visible(history)| - 1].role != Assistant
  {
    var entries := Visible(history);
    var n := |entries| - 1;
    forall k | 0 <= k < n ensures !IsCurrent(entries[k], current) {
      if IsCurrent(entries[k], current) {
        assert IsCurrent(entries[n], current);
        assert IsAmbiguous(entries, current);
      }
    }
  }

  /** Build keeps the visible history minus its oldest whole invocations, each of which had to
      go because what there was did not fit; the current message is always the last; and the
      messages are acceptable and within the limit. It gives up for size exactly when the
      current message alone does not fit, and trimming never stalls. */
  lemma BuildKeepsTheNewest(i: Instructions, history: seq<Entry>, current: nat, maxBytes: nat) returns (k: nat)
    requires Checked(history, current)
    ensures var entries := Visible(history);
            && TrimsTo(i, entries, current, maxBytes, k)
            && (BuildResult(i, history, current, maxBytes) == Fails(TooLarge) <==> !FitsIn(i, [entries[|entries| - 1]], maxBytes))
            && (BuildResult(i, history, current, maxBytes) != Fails(TooLarge) ==>
                  && BuildResult(i, history, current, maxBytes) == Built(Messages(i, Dropped(entries, k)))
                  && Acceptable(Messages(i, Dropped(entries, k))) && MessagesBytes(Messages(i, Dropped(entries, k))) <= maxBytes)
  {
    var entries := Visible(history);
    CheckedEnds(history, current);
    k := TrimmingDropsOldest(i, entries, current, maxBytes);
    AloneIsSmallest(i, Dropped(entries, k));
    BuiltIsAcceptable(i, Dropped(entries, k));
    hide Messages, Acceptable, Order, Dropped, NoneFitsBefore, EndsWithCurrent, Visible, MessagesBytes;
  }

  /** The "no progress" error cannot happen. */
  lemma TrimmingAlwaysProgresses(i: Instructions, history: seq<Entry>, current: nat, maxBytes: nat)
    ensures BuildResult(i, history, current, maxBytes) != Fails(NoProgress)
  {
    if Checked(history, current) {
      var k := BuildKeepsTheNewest(i, history, current, maxBytes);
    }
  }
}
