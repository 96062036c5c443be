// Raw mention tokens in message text (internal/mention/token.go): finding one and rewriting
// them for the model. Text is bytes. What the last character of a prefix or the first of a
// suffix is, a letter, number or underscore or not, is a parameter; for ASCII it is fixed.
module Mention {
  import opened Prelude

  const AT: Byte := 64
  const ZERO: Byte := 48
  const NINE: Byte := 57
  const MAX_TOKEN_DIGITS := 32

  predicate IsDigit(b: Byte) {
    ZERO <= b <= NINE
  }

  /** Whether the character a text starts or ends with is one of a word. */
  datatype Words = Words(first: Bytes -> bool, last: Bytes -> bool)

  /** Digits are word characters and the at sign is not, whatever surrounds them. */
  ghost predicate Decodes(words: Words) {
    && (forall s: Bytes | s != [] :: (IsDigit(s[0]) ==> words.first(s)) && (s[0] == AT ==> !words.first(s)))
    && (forall s: Bytes | s != [] :: (IsDigit(s[|s| - 1]) ==> words.last(s)) && (s[|s| - 1] == AT ==> !words.last(s)))
  }

  predicate ValidToken(token: Bytes) {
    && 2 <= |token| <= MAX_TOKEN_DIGITS + 1 && token[0] == AT
    && forall k | 1 <= k < |token| :: IsDigit(token[k])
  }

  predicate BoundaryBefore(words: Words, text: Bytes, i: nat)
    requires i <= |text|
  {
    i == 0 || (!words.last(text[..i]) && text[i - 1] != AT)
  }

  predicate BoundaryAfter(words: Words, text: Bytes, i: nat)
    requires i <= |text|
  {
    i == |text| || !words.first(text[i..])
  }

  /** The token stands at position i as a complete mention. */
  predicate Occurs(words: Words, text: Bytes, i: nat, token: Bytes) {
    && i + |token| <= |text| && text[i..i + |token|] == token
    && BoundaryBefore(words, text, i) && BoundaryAfter(words, text, i + |token|)
  }

  /** strings.IndexByte: the next at sign from position i on, or the end. */
  function NextAt(text: Bytes, i: nat): (j: nat)
    requires i <= |text|
    ensures i <= j <= |text| && (j < |text| ==> text[j] == AT) && forall k | i <= k < j :: text[k] != AT
    decreases |text| - i
  {
    if i == |text| || text[i] == AT then i else NextAt(text, i + 1)
  }

  /** At any position at most one valid token is complete: a shorter one would be followed by a
      digit of the longer one. */
  lemma OneTokenMatches(words: Words, text: Bytes, i: nat, s: Bytes, t: Bytes)
    requires Decodes(words) && ValidToken(s) && ValidToken(t)
    requires Occurs(words, text, i, s) && Occurs(words, text, i, t)
    ensures s == t
  {
    if |s| == |t| {
    } else if |s| < |t| {
      ShorterIsNotComplete(words, text, i, s, t);
    } else {
      ShorterIsNotComplete(words, text, i, t, s);
    }
  }

  lemma ShorterIsNotComplete(words: Words, text: Bytes, i: nat, s: Bytes, t: Bytes)
    requires Decodes(words) && ValidToken(s) && ValidToken(t) && |s| < |t| && Occurs(words, text, i, t)
    ensures !Occurs(words, text, i, s)
  {
    assert text[i + |s|..][0] == text[i..i + |t|][|s|] == t[|s|];
  }

  // ---- Contains --------------------------------------------------------------------

  datatype Answer = Yes | No | OutOfRange

  /** Contains, with the slice that runs past the end of the text made visible. */
  method Contains(words: Words, text: Bytes, token: Bytes) returns (answer: Answer)
    ensures answer == Yes <==> ValidToken(token) && exists i :: 0 <= i < |text| && Occurs(words, text, i, token)
    ensures answer == OutOfRange <==>
              && ValidToken(token) && |token| <= |text| && (forall i | 0 <= i < |text| :: !Occurs(words, text, i, token))
              && text[|text| - |token|] != AT && AT in text[|text| - |token| + 1..]
  {
    if !ValidToken(token) {
      return No;
    }
    var index := 0;
    while index + |token| <= |text|
      invariant 0 <= index <= |text|
      invariant index <= |text| - |token| + 1 || index == 0
      invariant index > |text| - |token| >= 0 ==> text[|text| - |token|] == AT
      invariant forall i | 0 <= i < index :: !Occurs(words, text, i, token)
    {
      var start := NextAt(text, index);
      if start == |text| {
        NoMore(words, text, index, start, token);
        assert AT !in text[index..] by {
          assert forall k | 0 <= k < |text[index..]| :: text[index..][k] == text[index + k];
        }
        assert text[|text| - |token| + 1..] == text[index..][|text| - |token| + 1 - index..];
        return No;
      }
      var end := start + |token|;
      NoMore(words, text, index, start, token);
      if end > |text| {
        assert text[|text| - |token| + 1..][start - (|text| - |token| + 1)] == AT;
        forall i | 0 <= i < |text| ensures !Occurs(words, text, i, token) {
        }
        return OutOfRange;
      }
      if text[start..end] == token && BoundaryBefore(words, text, start) && BoundaryAfter(words, text, end) {
        assert Occurs(words, text, start, token);
        return Yes;
      }
      index := start + 1;
    }
    return No;
  }

  /** No token starts between one position and the next at sign. */
  lemma NoMore(words: Words, text: Bytes, i: nat, j: nat, token: Bytes)
    requires ValidToken(token) && i <= j <= |text| && forall k | i <= k < j :: text[k] != AT
    ensures forall k | i <= k < j :: !Occurs(words, text, k, token)
  {
    forall k | i <= k < j ensures !Occurs(words, text, k, token) {
      if k + |token| <= |text| {
        assert text[k..k + |token|][0] == text[k];
      }
    }
  }

  // ---- Rewrite ------------------------------------------------------------------------

  type Bindings = map<Bytes, Bytes>

  /** The binding whose token is complete at position i. */
  predicate Matches(words: Words, text: Bytes, i: nat, bindings: Bindings, token: Bytes) {
    token in bindings && ValidToken(token) && Occurs(words, text, i, token)
  }

  ghost function MatchAt(words: Words, text: Bytes, i: nat, bindings: Bindings): (r: Option<Bytes>)
    ensures r.Some? ==> Matches(words, text, i, bindings, r.value)
    ensures r.None? ==> forall token :: !Matches(words, text, i, bindings, token)
  {
    if token :| Matches(words, text, i, bindings, token) then Some(token) else None
  }

  /** From position i on every complete mention is replaced, once, and all else is copied. */
  ghost function Rewritten(words: Words, text: Bytes, i: nat, bindings: Bindings): Bytes
    requires i <= |text|
    decreases |text| - i
  {
    if i == |text| then []
    else
      match MatchAt(words, text, i, bindings)
      case Some(token) => bindings[token] + Rewritten(words, text, i + |token|, bindings)
      case None => [text[i]] + Rewritten(words, text, i + 1, bindings)
  }

  lemma {:induction false} NothingToReplace(words: Words, text: Bytes, i: nat, bindings: Bindings)
    requires i <= |text| && forall k, token | i <= k < |text| :: !Matches(words, text, k, bindings, token)
    ensures Rewritten(words, text, i, bindings) == text[i..]
    decreases |text| - i
  {
    if i < |text| {
      NothingToReplace(words, text, i + 1, bindings);
      assert text[i..] == [text[i]] + text[i + 1..];
    }
  }

  /** Up to the next at sign everything is copied. */
  lemma {:induction false} CopiesTo(words: Words, text: Bytes, i: nat, j: nat, bindings: Bindings)
    requires i <= j <= |text| && forall k, token | i <= k < j :: !Matches(words, text, k, bindings, token)
    ensures Rewritten(words, text, i, bindings) == text[i..j] + Rewritten(words, text, j, bindings)
    decreases j - i
  {
    if i == j {
      assert text[i..j] == [];
    } else {
      CopiesTo(words, text, i + 1, j, bindings);
      assert text[i..j] == [text[i]] + text[i + 1..j];
    }
  }

  lemma NoMatchBeforeAt(words: Words, text: Bytes, i: nat, j: nat, bindings: Bindings)
    requires i <= j <= |text| && forall k | i <= k < j :: text[k] != AT
    ensures forall k, token | i <= k < j :: !Matches(words, text, k, bindings, token)
  {
    forall k, token | i <= k < j && token in bindings && ValidToken(token) ensures !Occurs(words, text, k, token) {
      NoMore(words, text, i, j, token);
    }
  }

  lemma MatchesSomething(words: Words, text: Bytes, i: nat, bindings: Bindings, token: Bytes)
    requires Matches(words, text, i, bindings, token)
    ensures token in bindings && |token| > 0 && i + |token| <= |text|
  {
  }

  lemma MatchIsThis(words: Words, text: Bytes, i: nat, bindings: Bindings, token: Bytes)
    requires Decodes(words) && Matches(words, text, i, bindings, token)
    ensures MatchAt(words, text, i, bindings) == Some(token)
  {
    OneTokenMatches(words, text, i, token, MatchAt(words, text, i, bindings).value);
  }

  lemma RewritesHere(words: Words, text: Bytes, i: nat, bindings: Bindings, token: Bytes)
    requires Decodes(words) && Matches(words, text, i, bindings, token)
    ensures i < |text| && Rewritten(words, text, i, bindings) == bindings[token] + Rewritten(words, text, i + |token|, bindings)
  {
    hide Matches, MatchAt, Decodes;
    MatchesSomething(words, text, i, bindings, token);
    MatchIsThis(words, text, i, bindings, token);
  }

  /** The first listed token that is complete at position i. */
  method FirstMatch(words: Words, text: Bytes, i: nat, tokens: seq<Bytes>) returns (matched: Option<Bytes>)
    requires i <= |text|
    ensures matched.Some? ==> matched.value in tokens && Occurs(words, text, i, matched.value)
    ensures matched.None? ==> forall token | token in tokens :: !Occurs(words, text, i, token)
  {
    if !BoundaryBefore(words, text, i) {
      return None;
    }
    for k := 0 to |tokens|
      invariant forall j | 0 <= j < k :: !Occurs(words, text, i, tokens[j])
    {
      var token := tokens[k];
      var end := i + |token|;
      if end <= |text| && text[i..end] == token && BoundaryAfter(words, text, end) {
        return Some(token);
      }
    }
    return None;
  }

  /** How far the rewriting got: `result` and the copied stretch stand for the text before `index`. */
  ghost predicate Sofar(words: Words, text: Bytes, bindings: Bindings, result: Bytes, written: nat, index: nat) {
    && written <= index <= |text| && (written == 0 ==> result == [])
    && Rewritten(words, text, 0, bindings) == result + text[written..index] + Rewritten(words, text, index, bindings)
  }

  lemma SofarCopies(words: Words, text: Bytes, bindings: Bindings, result: Bytes, written: nat, index: nat, to: nat)
    requires Sofar(words, text, bindings, result, written, index) && index <= to <= |text|
    requires forall k, token | index <= k < to :: !Matches(words, text, k, bindings, token)
    ensures Sofar(words, text, bindings, result, written, to)
  {
    CopiesTo(words, text, index, to, bindings);
    hide Rewritten, Matches;
    var rest := Rewritten(words, text, to, bindings);
    assert text[written..to] == text[written..index] + text[index..to];
    assert result + text[written..index] + (text[index..to] + rest) == result + text[written..to] + rest;
  }

  lemma SofarReplaces(words: Words, text: Bytes, bindings: Bindings, result: Bytes, written: nat, index: nat, token: Bytes)
    requires Sofar(words, text, bindings, result, written, index) && Decodes(words) && Matches(words, text, index, bindings, token)
    ensures Sofar(words, text, bindings, result + text[written..index] + bindings[token], index + |token|, index + |token|)
  {
    hide Rewritten, Matches, Decodes;
    RewritesHere(words, text, index, bindings, token);
    MatchesSomething(words, text, index, bindings, token);
    var end := index + |token|;
    var rest := Rewritten(words, text, end, bindings);
    assert text[end..end] == [];
    Regroup(result + text[written..index], bindings[token], rest);
    assert result + text[written..index] + bindings[token] + [] == result + text[written..index] + bindings[token];
  }

  lemma SofarEnds(words: Words, text: Bytes, bindings: Bindings, result: Bytes, written: nat)
    requires Sofar(words, text, bindings, result, written, |text|)
    ensures Rewritten(words, text, 0, bindings) == if written == 0 then text else result + text[written..]
  {
    assert Rewritten(words, text, |text|, bindings) == [];
    assert text[written..|text|] == text[written..] && text[0..] == text;
  }

  /** Rewrite, for the valid tokens of the bindings in any order. */
  method RewriteListed(words: Words, text: Bytes, tokens: seq<Bytes>, bindings: Bindings) returns (result: Bytes)
    requires Decodes(words) && forall token :: token in tokens <==> token in bindings && ValidToken(token)
    ensures result == Rewritten(words, text, 0, bindings)
  {
    hide Rewritten, Decodes;
    result := [];
    var written := 0;
    var index := 0;
    assert Sofar(words, text, bindings, result, written, index) by {
      assert [] + text[0..0] + Rewritten(words, text, 0, bindings) == Rewritten(words, text, 0, bindings);
    }
    while index < |text|
      invariant 0 <= written <= index <= |text|
      invariant Sofar(words, text, bindings, result, written, index)
      decreases |text| - index
    {
      hide Sofar, Occurs, ValidToken;
      var start := NextAt(text, index);
      NoMatchBeforeAt(words, text, index, start, bindings);
      SofarCopies(words, text, bindings, result, written, index, start);
      if start == |text| {
        index := start;
        break;
      }
      var matched := FirstMatch(words, text, start, tokens);
      if matched == None {
        SofarCopies(words, text, bindings, result, written, start, start + 1);
        index := start + 1;
        continue;
      }
      var token := matched.value;
      MatchFits(words, text, start, bindings, token);
      SofarReplaces(words, text, bindings, result, written, start, token);
      result := result + text[written..start] + bindings[token];
      written := start + |token|;
      index := written;
    }
    SofarEnds(words, text, bindings, result, written);
    if written == 0 {
      return text;
    }
    result := result + text[written..];
  }

  lemma MatchFits(words: Words, text: Bytes, i: nat, bindings: Bindings, token: Bytes)
    requires token in bindings && ValidToken(token) && Occurs(words, text, i, token)
    ensures Matches(words, text, i, bindings, token) && i < i + |token| <= |text|
  {
  }

  method Rewrite(words: Words, text: Bytes, bindings: Bindings) returns (result: Bytes)
    requires Decodes(words)
    ensures result == Rewritten(words, text, 0, bindings)
  {
    if |bindings| == 0 || text == [] {
      NothingToReplace(words, text, 0, bindings);
      return text;
    }
    var tokens: seq<Bytes> := [];
    var left := bindings.Keys;
    while left != {}
      invariant left <= bindings.Keys
      invariant forall token :: token in tokens <==> token in bindings && token !in left && ValidToken(token)
      decreases |left|
    {
      var token :| token in left;
      left := left - {token};
      if ValidToken(token) {
        tokens := tokens + [token];
      }
    }
    if tokens == [] {
      NothingToReplace(words, text, 0, bindings);
      return text;
    }
    result := RewriteListed(words, text, tokens, bindings);
  }

  // ---- Every complete mention is replaced ------------------------------------------------

  /** The rewriting of what precedes position j. */
  ghost function RewrittenTo(words: Words, text: Bytes, i: nat, j: nat, bindings: Bindings): Bytes
    requires i <= j <= |text|
    decreases j - i
  {
    if i == j then []
    else
      match MatchAt(words, text, i, bindings)
      case Some(token) => bindings[token] + if i + |token| <= j then RewrittenTo(words, text, i + |token|, j, bindings) else []
      case None => [text[i]] + RewrittenTo(words, text, i + 1, j, bindings)
  }

  lemma TokenStopsBefore(words: Words, text: Bytes, i: nat, j: nat, token: Bytes)
    requires ValidToken(token) && Occurs(words, text, i, token) && i < j < |text| && text[j] == AT
    ensures i + |token| <= j
  {
    forall k | 0 <= k < |token| ensures text[i + k] == token[k] {
      assert text[i..i + |token|][k] == text[i + k];
    }
  }

  /** No replaced token reaches over an at sign, so rewriting resumes there. */
  lemma {:induction false} RewritingSplits(words: Words, text: Bytes, i: nat, j: nat, bindings: Bindings)
    requires i <= j < |text| && text[j] == AT
    ensures Rewritten(words, text, i, bindings) == RewrittenTo(words, text, i, j, bindings) + Rewritten(words, text, j, bindings)
    decreases j - i
  {
    hide Matches, MatchAt;
    if i < j {
      match MatchAt(words, text, i, bindings)
      case Some(token) =>
        MatchStopsBefore(words, text, i, j, bindings, token);
        var next := i + |token|;
        RewritingSplits(words, text, next, j, bindings);
        Regroup(bindings[token], RewrittenTo(words, text, next, j, bindings), Rewritten(words, text, j, bindings));
      case None =>
        RewritingSplits(words, text, i + 1, j, bindings);
        Regroup([text[i]], RewrittenTo(words, text, i + 1, j, bindings), Rewritten(words, text, j, bindings));
    }
  }

  lemma MatchStopsBefore(words: Words, text: Bytes, i: nat, j: nat, bindings: Bindings, token: Bytes)
    requires Matches(words, text, i, bindings, token) && i < j < |text| && text[j] == AT
    ensures token in bindings && |token| > 0 && i + |token| <= j
  {
    TokenStopsBefore(words, text, i, j, token);
  }

  /** Each complete mention of a bound token is replaced by its binding, independently of every
      other mention and of what the replacements contain. */
  lemma EveryMentionIsReplaced(words: Words, text: Bytes, i: nat, token: Bytes, bindings: Bindings)
    requires Decodes(words) && i < |text| && ValidToken(token) && token in bindings && Occurs(words, text, i, token)
    ensures Rewritten(words, text, 0, bindings)
            == RewrittenTo(words, text, 0, i, bindings) + bindings[token] + Rewritten(words, text, i + |token|, bindings)
  {
    assert text[i] == text[i..i + |token|][0];
    RewritingSplits(words, text, 0, i, bindings);
    RewritesHere(words, text, i, bindings, token);
    hide Rewritten, RewrittenTo, Decodes, Occurs, ValidToken;
    Regroup(RewrittenTo(words, text, 0, i, bindings), bindings[token], Rewritten(words, text, i + |token|, bindings));
  }

  /** A single binding leaves the text as it is exactly where Contains finds nothing... */
  lemma WithoutMentionNothingChanges(words: Words, text: Bytes, token: Bytes, name: Bytes)
    requires forall i | 0 <= i < |text| :: !Occurs(words, text, i, token)
    ensures Rewritten(words, text, 0, map[token := name]) == text
  {
    NothingToReplace(words, text, 0, map[token := name]);
    assert text[0..] == text;
  }

  /** ...and otherwise replaces its first complete mention, copying what comes before. */
  lemma FirstMentionIsReplaced(words: Words, text: Bytes, token: Bytes, name: Bytes, i: nat) returns (first: nat)
    requires Decodes(words) && ValidToken(token) && i < |text| && Occurs(words, text, i, token)
    ensures first <= i && Occurs(words, text, first, token)
    ensures Rewritten(words, text, 0, map[token := name])
            == text[..first] + name + Rewritten(words, text, first + |token|, map[token := name])
  {
    var bindings := map[token := name];
    first := FirstOccurrence(words, text, token, i);
    hide Rewritten, Decodes, ValidToken, Occurs;
    CopiesTo(words, text, 0, first, bindings);
    RewritesHere(words, text, first, bindings, token);
    hide Matches;
    assert text[..first] == text[0..first];
    Regroup(text[..first], name, Rewritten(words, text, first + |token|, bindings));
  }

  lemma Regroup(a: Bytes, b: Bytes, c: Bytes)
    ensures a + (b + c) == a + b + c
  {
  }

  lemma {:induction false} FirstOccurrence(words: Words, text: Bytes, token: Bytes, i: nat) returns (first: nat)
    requires i < |text| && Occurs(words, text, i, token)
    ensures first <= i && Occurs(words, text, first, token) && forall k | 0 <= k < first :: !Occurs(words, text, k, token)
  {
    first := i;
    if k: nat :| k < i && Occurs(words, text, k, token) {
      first := FirstOccurrence(words, text, token, k);
    }
  }

  /** The slice that runs past the end: a text that ends in a lone at sign, where the token is
      too long to fit. */
  lemma ContainsMayRunPastTheEnd(words: Words)
    requires Decodes(words)
    ensures var text, token: Bytes := [0, 0, AT], [AT, ZERO];
            && ValidToken(token) && |token| <= |text| && (forall i | 0 <= i < |text| :: !Occurs(words, text, i, token))
            && text[|text| - |token|] != AT && AT in text[|text| - |token| + 1..]
  {
    var text, token: Bytes := [0, 0, AT], [AT, ZERO];
    assert text[2..][0] == AT;
    forall i | 0 <= i < |text| ensures !Occurs(words, text, i, token) {
      if i + |token| <= |text| {
        assert text[i..i + |token|][0] == text[i] != AT;
      }
    }
  }
}
