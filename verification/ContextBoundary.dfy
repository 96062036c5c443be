// The boundary around untrusted text: whatever the entries say, the wrapped transcript holds
// exactly one opening and one closing tag, and escaping adds six bytes for each tag it defuses.
module ContextBoundary {
  import opened Context
  import opened Utf8

  // ---- Tags are local ------------------------------------------------------------------

  lemma {:induction false} GapShifts(x: string, s: string, i: nat)
    requires i <= |s|
    ensures GapEnd(x + s, |x| + i) == |x| + GapEnd(s, i)
    decreases |s| - i
  {
    if i < |s| {
      assert (x + s)[|x| + i] == s[i];
      GapShifts(x, s, i + 1);
    }
  }

  lemma NameShifts(x: string, s: string, i: nat)
    ensures NameAt(x + s, |x| + i) <==> NameAt(s, i)
  {
    if NameAt(s, i) {
      forall k | 0 <= k < |NAME| ensures Folds((x + s)[|x| + i + k], NAME[k]) {
        assert Folds(s[i + k], NAME[k]);
      }
    }
    if NameAt(x + s, |x| + i) {
      forall k | 0 <= k < |NAME| ensures Folds(s[i + k], NAME[k]) {
        assert Folds((x + s)[|x| + i + k], NAME[k]);
      }
    }
  }

  /** What stands before a tag does not matter. */
  lemma TagShifts(x: string, s: string, i: nat)
    ensures TagAt(x + s, |x| + i) <==> TagAt(s, i)
    ensures TagAt(s, i) ==> TagEnd(x + s, |x| + i).value == |x| + TagEnd(s, i).value
  {
    hide NameAt, GapEnd, NameStart;
    if i < |s| {
      assert (x + s)[|x| + i] == s[i];
      StartShifts(x, s, i);
      var start := NameStart(s, i);
      NameShifts(x, s, start);
      if NameAt(s, start) {
        NameFits(s, start);
        var end := GapEnd(s, start + |NAME|);
        GapShifts(x, s, start + |NAME|);
        assert end < |s| ==> (x + s)[|x| + end] == s[end];
      }
    }
  }

  lemma StartShifts(x: string, s: string, i: nat)
    requires i < |s|
    ensures NameStart(x + s, |x| + i) == |x| + NameStart(s, i)
  {
    assert i + 1 < |s| ==> (x + s)[|x| + i + 1] == s[i + 1];
  }

  lemma TagMoves(x: string, s: string, i: nat)
    ensures TagAt(x + s, |x| + i) <==> TagAt(s, i)
  {
    TagShifts(x, s, i);
    hide TagAt, TagEnd;
  }

  lemma NameFits(s: string, i: nat)
    requires NameAt(s, i)
    ensures i + |NAME| <= |s|
  {
  }

  /** A tag holds no other angle bracket and no ampersand. */
  lemma TagBody(s: string, i: nat)
    requires TagAt(s, i)
    ensures forall k | i < k < TagEnd(s, i).value :: s[k] != '<' && s[k] != '&'
  {
    var start := NameStart(s, i);
    forall k | i < k < TagEnd(s, i).value ensures s[k] != '<' && s[k] != '&' {
      if start <= k < start + |NAME| {
        assert Folds(s[start + (k - start)], NAME[k - start]);
        NameLetters(k - start);
      }
    }
  }

  lemma NameLetters(k: nat)
    requires k < |NAME|
    ensures NAME[k] == '_' || 'a' <= NAME[k] <= 'z'
  {
  }

  lemma {:induction false} GapWithin(s: string, t: string, i: nat, n: nat)
    requires i <= n <= |s| && n <= |t| && s[..n] == t[..n] && GapEnd(s, i) < n
    ensures GapEnd(t, i) == GapEnd(s, i)
    decreases n - i
  {
    assert s[..n][i] == s[i] && t[..n][i] == t[i];
    if IsGap(s[i]) {
      GapWithin(s, t, i + 1, n);
    }
  }

  /** What stands behind a tag does not matter either. */
  lemma TagWithin(s: string, t: string)
    requires TagAt(s, 0) && TagEnd(s, 0).value <= |t| && s[..TagEnd(s, 0).value] == t[..TagEnd(s, 0).value]
    ensures TagAt(t, 0) && TagEnd(t, 0) == TagEnd(s, 0)
  {
    var end := TagEnd(s, 0).value;
    assert forall k | 0 <= k < end :: s[k] == s[..end][k] == t[..end][k] == t[k];
    var start := NameStart(s, 0);
    assert start == NameStart(t, 0);
    assert NameAt(t, start) by {
      forall k | 0 <= k < |NAME| ensures Folds(t[start + k], NAME[k]) {
        assert s[start + k] == t[start + k];
      }
    }
    GapWithin(s, t, start + |NAME|, end);
  }

  // ---- After escaping ---------------------------------------------------------------------

  /** Escaping a tag starts with an ampersand; everything else is copied. */
  lemma EscapedStarts(s: string, k: nat)
    requires k <= |s|
    ensures if k == |s| then Escaped(s, k) == ""
            else if TagAt(s, k) then |Escaped(s, k)| > 0 && Escaped(s, k)[0] == '&'
            else Escaped(s, k) == [s[k]] + Escaped(s, k + 1)
  {
  }

  ghost predicate NoTagChars(s: string, n: nat) {
    n <= |s| && forall j | 0 <= j < n :: s[j] != '<' && s[j] != '&'
  }

  lemma OneMoreCopied(s: string, k: nat, rest: string, n: nat)
    requires k < |s| && 0 < n && k + n <= |s| && n - 1 <= |rest| && s[k + 1..k + n] == rest[..n - 1]
    ensures s[k..k + n] == ([s[k]] + rest)[..n]
  {
  }

  lemma NoTagCharsAfter(c: char, rest: string, n: nat)
    requires 0 < n && NoTagChars([c] + rest, n)
    ensures NoTagChars(rest, n - 1)
  {
    assert forall j | 0 <= j < n - 1 :: rest[j] == ([c] + rest)[j + 1];
  }

  /** As long as the escaped text shows no bracket or ampersand it is the text itself. */
  lemma {:induction false} Copied(s: string, k: nat, n: nat)
    requires k <= |s| && NoTagChars(Escaped(s, k), n)
    ensures k + n <= |s| && s[k..k + n] == Escaped(s, k)[..n]
    decreases n
  {
    hide Escaped, TagAt, NoTagChars;
    if n > 0 {
      EscapedStarts(s, k);
      FirstIsPlain(Escaped(s, k), n);
      assert k < |s| && Escaped(s, k) == [s[k]] + Escaped(s, k + 1);
      NoTagCharsAfter(s[k], Escaped(s, k + 1), n);
      Copied(s, k + 1, n - 1);
      OneMoreCopied(s, k, Escaped(s, k + 1), n);
    } else {
      assert s[k..k] == [] && Escaped(s, k)[..0] == [];
    }
  }

  lemma FirstIsPlain(s: string, n: nat)
    requires 0 < n && NoTagChars(s, n)
    ensures s != "" && s[0] != '<' && s[0] != '&'
  {
  }

  /** A bracket that opens no tag in the text opens none in the escaped text either. */
  lemma CopiedBracket(s: string, k: nat)
    requires k < |s| && s[k] == '<' && !TagAt(s, k)
    ensures !TagAt(Escaped(s, k) + CLOSING, 0)
  {
    var rest := Escaped(s, k + 1);
    var out := ['<'] + rest + CLOSING;
    EscapedStarts(s, k);
    assert Escaped(s, k) + CLOSING == out;
    if TagAt(out, 0) {
      var end := TagEnd(out, 0).value;
      TagBody(out, 0);
      hide TagEnd, TagAt, Escaped;
      ClosingStarts(rest, out, end);
      CopiedTag(s, k, rest, out, end);
      TagWithin(out, s[k..]);
      SuffixTag(s, k);
    }
  }

  lemma SuffixTag(s: string, k: nat)
    requires k <= |s|
    ensures TagAt(s[k..], 0) <==> TagAt(s, k)
  {
    assert s == s[..k] + s[k..];
    TagShifts(s[..k], s[k..], 0);
  }

  lemma CopiedTag(s: string, k: nat, rest: string, out: string, end: nat)
    requires k < |s| && s[k] == '<' && rest == Escaped(s, k + 1) && out == ['<'] + rest + CLOSING
    requires 1 < end <= 1 + |rest| && forall j | 0 < j < end :: out[j] != '<' && out[j] != '&'
    ensures end <= |s[k..]| && s[k..][..end] == out[..end]
  {
    hide Escaped;
    assert forall j | 0 <= j < end - 1 :: rest[j] == out[j + 1];
    assert NoTagChars(rest, end - 1);
    Copied(s, k + 1, end - 1);
    assert s[k..][..end] == ['<'] + s[k + 1..k + end];
    assert out[..end] == ['<'] + rest[..end - 1];
  }

  /** A tag that starts before the closing one ends before it, for it cannot hold a bracket. */
  lemma ClosingStarts(rest: string, out: string, end: nat)
    requires out == ['<'] + rest + CLOSING && 1 < end <= |out| && out[end - 1] == '>'
    requires forall k | 0 < k < end :: out[k] != '<' && out[k] != '&'
    ensures end <= 1 + |rest|
  {
    assert CLOSING[0] == '\n' && CLOSING[1] == '<';
    assert out[1 + |rest|] == '\n' && out[2 + |rest|] == '<';
  }

  lemma TagBehind(front: string, rest: string, q: nat)
    requires q >= |front| && !TagAt(rest + CLOSING, q - |front|)
    ensures !TagAt(front + rest + CLOSING, q)
  {
    hide TagAt;
    assert front + rest + CLOSING == front + (rest + CLOSING);
    TagMoves(front, rest + CLOSING, q - |front|);
  }

  lemma TagFront(front: string, rest: string, q: nat)
    requires q < |front| && front[q] != '<'
    ensures !TagAt(front + rest + CLOSING, q)
  {
    NoBracketNoTag(front + rest + CLOSING, q);
  }

  function Defused(s: string, k: nat, end: nat): string
    requires k + 1 < end <= |s|
  {
    "&lt;" + s[k + 1..end - 1] + "&gt;"
  }

  lemma DefusedTag(s: string, k: nat)
    requires TagAt(s, k)
    ensures k < |s| && k + 1 < TagEnd(s, k).value <= |s| && |Defused(s, k, TagEnd(s, k).value)| > 0
    ensures forall q | 0 <= q < |Defused(s, k, TagEnd(s, k).value)| :: Defused(s, k, TagEnd(s, k).value)[q] != '<'
    ensures Escaped(s, k) == Defused(s, k, TagEnd(s, k).value) + Escaped(s, TagEnd(s, k).value)
  {
    TagBody(s, k);
  }

  lemma TagHasEnd(s: string, i: nat)
    requires TagAt(s, i)
    ensures TagEnd(s, i).Some?
  {
  }

  /** Escaped text shows no tag, even with the closing tag behind it. */
  lemma {:induction false} NoTagLeft(s: string, k: nat, q: nat)
    requires k <= |s| && q < |Escaped(s, k)|
    ensures !TagAt(Escaped(s, k) + CLOSING, q)
    decreases |s| - k
  {
    hide Escaped, TagAt, TagEnd, Defused;
    EscapedStarts(s, k);
    if TagAt(s, k) {
      TagHasEnd(s, k);
      DefusedTag(s, k);
      var end := TagEnd(s, k).value;
      var front := Defused(s, k, end);
      if q < |front| {
        TagFront(front, Escaped(s, end), q);
      } else {
        NoTagLeft(s, end, q - |front|);
        TagBehind(front, Escaped(s, end), q);
      }
    } else {
      if q > 0 {
        NoTagLeft(s, k + 1, q - 1);
        TagBehind([s[k]], Escaped(s, k + 1), q);
      } else if s[k] == '<' {
        CopiedBracket(s, k);
      } else {
        TagFront([s[k]], Escaped(s, k + 1), q);
      }
    }
  }

  lemma NoBracketNoTag(s: string, i: nat)
    requires i < |s| && s[i] != '<'
    ensures !TagAt(s, i)
  {
  }

  lemma SpelledName(s: string, i: nat)
    requires i + |NAME| <= |s| && s[i..i + |NAME|] == NAME
    ensures NameAt(s, i)
  {
    forall k | 0 <= k < |NAME| ensures Folds(s[i + k], NAME[k]) {
      assert s[i + k] == s[i..i + |NAME|][k];
    }
  }

  lemma OpeningIsTag()
    ensures TagAt(OPENING, 0)
  {
    assert OPENING[0] == '<' && OPENING[1] == 'u' && OPENING[23] == '>';
    assert OPENING[1..1 + |NAME|] == NAME;
    SpelledName(OPENING, 1);
    assert GapEnd(OPENING, 23) == 23;
  }

  lemma ClosingIsTag()
    ensures TagAt(CLOSING, 1)
  {
    assert CLOSING[1] == '<' && CLOSING[2] == '/' && CLOSING[25] == '>';
    assert CLOSING[3..3 + |NAME|] == NAME;
    SpelledName(CLOSING, 3);
    assert GapEnd(CLOSING, 25) == 25;
  }

  lemma BracketsOfTags(i: nat)
    ensures 0 < i < |OPENING| ==> OPENING[i] != '<'
    ensures i < |CLOSING| && i != 1 ==> CLOSING[i] != '<'
  {
    if i < |NAME| {
      NameLetters(i);
    }
    if 0 < i <= |NAME| {
      NameLetters(i - 1);
    }
    if 3 <= i < 3 + |NAME| {
      NameLetters(i - 3);
    }
  }

  lemma OneTagInOpening(rest: string, i: nat)
    requires i < |OPENING|
    ensures TagAt(OPENING + rest, i) <==> i == 0
  {
    var w := OPENING + rest;
    if i == 0 {
      OpeningIsTag();
      assert w[..TagEnd(OPENING, 0).value] == OPENING[..TagEnd(OPENING, 0).value];
      TagWithin(OPENING, w);
    } else {
      BracketsOfTags(i);
      assert w[i] == OPENING[i];
    }
  }

  lemma OneTagInClosing(i: nat)
    ensures TagAt(CLOSING, i) <==> i == 1
  {
    ClosingIsTag();
    BracketsOfTags(i);
  }

  /** Whatever the transcript says, the wrapped text has one opening and one closing tag: its own. */
  lemma OnlyTheBoundaryIsTagged(transcript: string, i: nat)
    ensures TagAt(Wrapped(transcript), i) <==> i == 0 || i == |OPENING| + |Escaped(transcript, 0)| + 1
  {
    hide TagAt, TagEnd, Escaped;
    var e := Escaped(transcript, 0);
    var w := Wrapped(transcript);
    assert w == OPENING + (e + CLOSING);
    if i < |OPENING| {
      OneTagInOpening(e + CLOSING, i);
    } else {
      var q := i - |OPENING|;
      TagMoves(OPENING, e + CLOSING, q);
      if q < |e| {
        NoTagLeft(transcript, 0, q);
      } else {
        TagMoves(e, CLOSING, q - |e|);
        OneTagInClosing(q - |e|);
      }
    }
  }

  // ---- Sizes -----------------------------------------------------------------------------------

  /** How many tags open from position i on. */
  function Tags(s: string, i: nat): nat
    requires i <= |s|
    decreases |s| - i
  {
    if i == |s| then 0 else (if TagAt(s, i) then 1 else 0) + Tags(s, i + 1)
  }

  lemma {:induction false} TagsSkip(s: string, i: nat, j: nat)
    requires i <= j <= |s| && forall k | i <= k < j :: s[k] != '<'
    ensures Tags(s, i) == Tags(s, j)
    decreases j - i
  {
    if i < j {
      NoBracketNoTag(s, i);
      TagsSkip(s, i + 1, j);
    }
  }

  lemma {:induction false} TagsShift(x: string, s: string, i: nat)
    requires i <= |s|
    ensures Tags(x + s, |x| + i) == Tags(s, i)
    decreases |s| - i
  {
    if i < |s| {
      TagShifts(x, s, i);
      hide TagAt;
      TagsShift(x, s, i + 1);
    }
  }

  lemma {:induction false} TagsFall(s: string, i: nat, j: nat)
    requires i <= j <= |s|
    ensures Tags(s, i) >= Tags(s, j)
    decreases j - i
  {
    if i < j {
      hide TagAt;
      TagsFall(s, i + 1, j);
    }
  }

  lemma SizeOfTag(s: string, i: nat)
    requires TagAt(s, i)
    ensures var end := TagEnd(s, i).value;
            && Size(Defused(s, i, end)) == Size(s[i..end]) + 6
            && Tags(s, i) == 1 + Tags(s, end)
  {
    var end := TagEnd(s, i).value;
    TagBody(s, i);
    TagsSkip(s, i + 1, end);
    hide TagAt, TagEnd, Tags;
    SizeOfDefused(s[i + 1..end - 1]);
    assert s[i..end] == "<" + s[i + 1..end - 1] + ">";
  }

  lemma SizeOfDefused(mid: string)
    ensures Size("&lt;" + mid + "&gt;") == Size("<" + mid + ">") + 6
  {
    SizeAdds("&lt;" + mid, "&gt;");
    SizeAdds("&lt;", mid);
    SizeAdds("<" + mid, ">");
    SizeAdds("<", mid);
    SizeOfFour('&', 'l', 't', ';');
    SizeOfFour('&', 'g', 't', ';');
    SizeOfOne('<');
    SizeOfOne('>');
    assert "&lt;" == ['&', 'l', 't', ';'] && "&gt;" == ['&', 'g', 't', ';'];
  }

  lemma SizeOfOne(c: char)
    requires Width(c) == 1
    ensures Size([c]) == 1
  {
    assert [c][1..] == "";
  }

  lemma SizeOfFour(a: char, b: char, c: char, d: char)
    requires Width(a) == Width(b) == Width(c) == Width(d) == 1
    ensures Size([a, b, c, d]) == 4
  {
    SizeOfOne(a);
    SizeOfOne(b);
    SizeOfOne(c);
    SizeOfOne(d);
    SizeAdds([a], [b]);
    SizeAdds([c], [d]);
    SizeAdds([a, b], [c, d]);
    assert [a] + [b] == [a, b] && [c] + [d] == [c, d] && [a, b] + [c, d] == [a, b, c, d];
  }

  /** Each defused tag costs six bytes; nothing else changes in size. */
  lemma {:induction false} EscapedSize(s: string, i: nat)
    requires i <= |s|
    ensures Size(Escaped(s, i)) == Size(s[i..]) + 6 * Tags(s, i)
    decreases |s| - i
  {
    EscapedStarts(s, i);
    if i == |s| {
    } else if TagAt(s, i) {
      var end := TagEnd(s, i).value;
      DefusedTag(s, i);
      SizeOfTag(s, i);
      hide Escaped, TagAt, Defused, Tags;
      EscapedSize(s, end);
      SizeAdds(Defused(s, i, end), Escaped(s, end));
      assert s[i..] == s[i..end] + s[end..];
      SizeAdds(s[i..end], s[end..]);
    } else {
      hide Escaped, TagAt;
      EscapedSize(s, i + 1);
      SizeAdds([s[i]], Escaped(s, i + 1));
      assert s[i..] == [s[i]] + s[i + 1..];
      SizeAdds([s[i]], s[i + 1..]);
    }
  }

  /** Text in front of other text only makes the whole larger by at least its own size, and by
      exactly that if it holds no bracket. */
  lemma EscapedBehind(x: string, s: string)
    ensures Size(Escaped(x + s, 0)) >= Size(x) + Size(Escaped(s, 0))
    ensures (forall k | 0 <= k < |x| :: x[k] != '<') ==> Size(Escaped(x + s, 0)) == Size(x) + Size(Escaped(s, 0))
  {
    hide Escaped, Size, TagAt, Tags;
    EscapedSize(x + s, 0);
    EscapedSize(s, 0);
    assert (x + s)[0..] == x + s && s[0..] == s;
    SizeAdds(x, s);
    TagsFall(x + s, 0, |x|);
    TagsShift(x, s, 0);
    if forall k | 0 <= k < |x| :: x[k] != '<' {
      forall k | 0 <= k < |x| ensures (x + s)[k] != '<' {
        assert (x + s)[k] == x[k];
      }
      TagsSkip(x + s, 0, |x|);
    }
  }
}
