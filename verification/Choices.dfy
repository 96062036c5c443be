// Quiz choices inside a stored reply (internal/action/reply_extras.go): cleaning them, writing
// them as the reply's last line, and taking them back out.
module Choices {
  import opened Prelude
  import opened Strings

  const MARKER := "\U{3010}choices\U{3011}"
  const MIN_CHOICES := 2
  const MAX_CHOICES := 5
  const MAX_RUNES := 20

  // ---- Words -----------------------------------------------------------------------

  /** strings.Fields: the stretches of the text that hold no white space. */
  function Fields(s: string): (r: seq<string>)
    ensures s != "" && !IsSpace(s[|s| - 1]) ==> r != []
  {
    if s == "" then []
    else
      var front, c := s[..|s| - 1], s[|s| - 1];
      var before := Fields(front);
      if IsSpace(c) then before
      else if front == "" || IsSpace(front[|front| - 1]) then before + [[c]]
      else before[..|before| - 1] + [before[|before| - 1] + [c]]
  }

  predicate IsWord(w: string) {
    w != "" && forall k | 0 <= k < |w| :: !IsSpace(w[k])
  }

  predicate AreWords(ws: seq<string>) {
    forall k | 0 <= k < |ws| :: IsWord(ws[k])
  }

  /** strings.Join with single spaces. */
  function Spaced(ws: seq<string>): string {
    if ws == [] then "" else if |ws| == 1 then ws[0] else Spaced(ws[..|ws| - 1]) + " " + ws[|ws| - 1]
  }

  /** Words with single spaces between them and none around them. */
  predicate Tidy(s: string) {
    && (forall k | 0 <= k < |s| && IsSpace(s[k]) :: s[k] == ' ' && 0 < k < |s| - 1 && !IsSpace(s[k - 1]))
  }

  lemma {:induction false} FieldsAreWords(s: string)
    ensures AreWords(Fields(s))
  {
    if s != "" {
      FieldsAreWords(s[..|s| - 1]);
    }
  }

  lemma {:induction false} SpacedIsTidy(ws: seq<string>)
    requires AreWords(ws)
    ensures Tidy(Spaced(ws)) && (ws != [] ==> Spaced(ws) != "" && !IsSpace(Spaced(ws)[0]) && !IsSpace(Spaced(ws)[|Spaced(ws)| - 1]))
  {
    if |ws| == 1 {
      assert IsWord(ws[0]);
    } else if ws != [] {
      var front, w := ws[..|ws| - 1], ws[|ws| - 1];
      SpacedIsTidy(front);
      assert IsWord(w);
      TidyJoin(Spaced(front), w);
    }
  }

  lemma TidyJoin(a: string, w: string)
    requires Tidy(a) && a != "" && !IsSpace(a[0]) && !IsSpace(a[|a| - 1]) && IsWord(w)
    ensures var s := a + " " + w; Tidy(s) && !IsSpace(s[0]) && !IsSpace(s[|s| - 1])
  {
    var s := a + " " + w;
    forall k | |a| < k < |s| ensures !IsSpace(s[k]) {
      assert s[k] == w[k - |a| - 1];
    }
    forall k | 0 <= k < |s| && IsSpace(s[k]) ensures s[k] == ' ' && 0 < k < |s| - 1 && !IsSpace(s[k - 1]) {
      if k < |a| {
        assert s[k] == a[k];
      }
    }
  }

  lemma NewWord(body: string, c: char)
    requires body != "" && !IsSpace(c) && !IsSpace(body[|body| - 1])
    ensures Fields(body + " " + [c]) == Fields(body) + [[c]]
  {
    var s, front := body + " " + [c], body + " ";
    assert s[..|s| - 1] == front && front[..|front| - 1] == body && front[|front| - 1] == ' ' && s[|s| - 1] == c;
    assert Fields(front) == Fields(body);
  }

  lemma MoreOfWord(front: string, c: char)
    requires front != "" && !IsSpace(c) && !IsSpace(front[|front| - 1])
    ensures var ws := Fields(front); ws != [] && Fields(front + [c]) == ws[..|ws| - 1] + [ws[|ws| - 1] + [c]]
  {
    assert (front + [c])[..|front|] == front;
  }

  lemma SpacedNext(ws: seq<string>, w: string)
    requires ws != []
    ensures Spaced(ws + [w]) == Spaced(ws) + " " + w
  {
    assert (ws + [w])[..|ws|] == ws;
  }

  lemma {:induction false} TidyIsSpaced(s: string)
    requires Tidy(s)
    ensures Spaced(Fields(s)) == s
    decreases |s|
  {
    if s != "" {
      var n := |s| - 1;
      assert !IsSpace(s[n]);
      if n == 0 {
        assert s == [s[0]] && s[..0] == "";
      } else if IsSpace(s[n - 1]) {
        assert s == s[..n - 1] + " " + [s[n]];
        TidyPrefix(s, n - 1);
        hide Fields, Spaced, Tidy;
        TidyIsSpaced(s[..n - 1]);
        NewWord(s[..n - 1], s[n]);
        HasFields(s[..n - 1]);
        SpacedNext(Fields(s[..n - 1]), [s[n]]);
      } else {
        assert s == s[..n] + [s[n]];
        TidyPrefix(s, n);
        hide Fields, Spaced, Tidy;
        TidyIsSpaced(s[..n]);
        MoreOfWord(s[..n], s[n]);
        SpacedGrows(Fields(s[..n]), s[n]);
      }
    }
  }

  lemma HasFields(s: string)
    requires s != "" && !IsSpace(s[|s| - 1])
    ensures Fields(s) != []
  {
  }

  /** A prefix that does not end in a space is tidy too. */
  lemma TidyPrefix(s: string, n: nat)
    requires Tidy(s) && n <= |s| && (n > 0 ==> !IsSpace(s[n - 1]))
    ensures Tidy(s[..n])
  {
    forall k | 0 <= k < n && IsSpace(s[..n][k]) ensures s[..n][k] == ' ' && 0 < k < n - 1 && !IsSpace(s[..n][k - 1]) {
      assert s[..n][k] == s[k];
    }
  }

  lemma SpacedGrows(ws: seq<string>, c: char)
    requires ws != []
    ensures Spaced(ws[..|ws| - 1] + [ws[|ws| - 1] + [c]]) == Spaced(ws) + [c]
  {
    var more := ws[..|ws| - 1] + [ws[|ws| - 1] + [c]];
    assert more[..|more| - 1] == ws[..|ws| - 1];
  }

  // ---- Cleaning ----------------------------------------------------------------------

  function WithoutBars(s: string): (r: string)
    ensures |r| == |s| && forall k | 0 <= k < |s| :: r[k] == if s[k] == '|' then '/' else s[k]
  {
    seq(|s|, i requires 0 <= i < |s| => if s[i] == '|' then '/' else s[i])
  }

  /** One choice without bars or stray spaces, cut to its length. */
  function Clean(choice: string): string {
    var c := Spaced(Fields(WithoutBars(choice)));
    if |c| > MAX_RUNES then Trim(c[..MAX_RUNES]) else c
  }

  predicate IsClean(c: string) {
    Tidy(c) && |c| <= MAX_RUNES && '|' !in c
  }

  lemma {:induction false} FieldsKeepChars(s: string, c: char)
    requires c !in s
    ensures c !in Spaced(Fields(s)) || c == ' '
    ensures forall w | w in Fields(s) :: c !in w
  {
    if s != "" {
      FieldsKeepChars(s[..|s| - 1], c);
    }
    if c != ' ' {
      SpacedKeepsChars(Fields(s), c);
    }
  }

  lemma {:induction false} SpacedKeepsChars(ws: seq<string>, c: char)
    requires c != ' ' && forall w | w in ws :: c !in w
    ensures c !in Spaced(ws)
  {
    if |ws| > 1 {
      SpacedKeepsChars(ws[..|ws| - 1], c);
    }
  }

  /** Cutting a tidy text leaves at most one space to trim. */
  lemma CutIsTidy(s: string, n: nat)
    requires Tidy(s) && n <= |s|
    ensures Tidy(Trim(s[..n])) && |Trim(s[..n])| <= n && forall c | c in Trim(s[..n]) :: c in s
  {
    var p := s[..n];
    if n == 0 {
      assert Trim(p) == "";
    } else if !IsSpace(s[n - 1]) {
      TidyPrefix(s, n);
      assert !IsSpace(p[0]) by {
        assert p[0] == s[0];
      }
      TrimKeeps(p);
    } else {
      assert !IsSpace(s[n - 2]);
      TidyPrefix(s, n - 1);
      var q := s[..n - 1];
      assert p[..|p| - 1] == q;
      assert p[0] == s[0] && q[0] == s[0] && !IsSpace(s[0]);
      assert TrimLeft(p) == p;
      assert TrimRight(p) == TrimRight(q) == q;
    }
  }

  lemma CleanIsClean(choice: string)
    ensures IsClean(Clean(choice))
  {
    var plain := WithoutBars(choice);
    FieldsAreWords(plain);
    SpacedIsTidy(Fields(plain));
    FieldsKeepChars(plain, '|');
    CutIsTidy(Spaced(Fields(plain)), if |Spaced(Fields(plain))| > MAX_RUNES then MAX_RUNES else 0);
  }

  lemma CleanKeepsClean(c: string)
    requires IsClean(c)
    ensures Clean(c) == c
  {
    assert WithoutBars(c) == c;
    TidyIsSpaced(c);
  }

  /** Cleaning a choice twice changes nothing more. */
  lemma CleaningIsIdempotent(choice: string)
    ensures Clean(Clean(choice)) == Clean(choice)
  {
    CleanIsClean(choice);
    CleanKeepsClean(Clean(choice));
  }

  /** The usable choices in order: cleaned, distinct, not empty, at most five. */
  function Cleaned(choices: seq<string>, kept: seq<string>): seq<string> {
    if choices == [] || |kept| == MAX_CHOICES then kept
    else
      var c := Clean(choices[0]);
      Cleaned(choices[1..], if c == "" || c in kept then kept else kept + [c])
  }

  predicate AreChoices(cs: seq<string>) {
    |cs| <= MAX_CHOICES && Distinct(cs) && forall c | c in cs :: c != "" && IsClean(c)
  }

  lemma {:induction false} CleanedAreChoices(choices: seq<string>, kept: seq<string>)
    requires AreChoices(kept)
    ensures AreChoices(Cleaned(choices, kept))
  {
    if choices != [] && |kept| < MAX_CHOICES {
      var c := Clean(choices[0]);
      CleanIsClean(choices[0]);
      hide IsClean, Clean;
      if c != "" && c !in kept {
        DistinctJoin(kept, [c]);
        CleanedAreChoices(choices[1..], kept + [c]);
      } else {
        CleanedAreChoices(choices[1..], kept);
      }
    }
  }

  lemma {:induction false} ChoicesStayClean(cs: seq<string>, k: nat)
    requires AreChoices(cs) && k <= |cs|
    ensures Cleaned(cs[k..], cs[..k]) == cs
    decreases |cs| - k
  {
    hide Clean, IsClean;
    if k == |cs| {
      assert cs[..k] == cs;
    } else {
      var rest, kept := cs[k..], cs[..k];
      assert rest != [] && rest[0] == cs[k] && rest[1..] == cs[k + 1..] && cs[..k + 1] == kept + [cs[k]];
      assert cs == kept + rest && cs[k] in cs;
      DistinctParts(kept, rest);
      assert rest[0] in rest;
      CleanKeepsClean(cs[k]);
      hide Distinct;
      ChoicesStayClean(cs, k + 1);
    }
  }

  /** Cleaning a list of choices twice changes nothing more. */
  lemma CleaningAllIsIdempotent(choices: seq<string>)
    ensures Cleaned(Cleaned(choices, []), []) == Cleaned(choices, [])
  {
    var cs := Cleaned(choices, []);
    CleanedAreChoices(choices, []);
    ChoicesStayClean(cs, 0);
    assert cs[0..] == cs && cs[..0] == [];
  }

  // ---- The last line --------------------------------------------------------------------

  /** strings.TrimRight with the cut set of a newline and a space. */
  function TrimEnd(s: string): (r: string)
    ensures |r| <= |s| && r == s[..|r|] && (r != "" ==> r[|r| - 1] != '\n' && r[|r| - 1] != ' ')
  {
    if s != "" && (s[|s| - 1] == '\n' || s[|s| - 1] == ' ') then TrimEnd(s[..|s| - 1]) else s
  }

  function Barred(cs: seq<string>): string {
    if cs == [] then "" else if |cs| == 1 then cs[0] else cs[0] + " | " + Barred(cs[1..])
  }

  function With(text: string, choices: seq<string>): string {
    var cs := Cleaned(choices, []);
    if |cs| < MIN_CHOICES then text else TrimEnd(text) + "\n\n" + MARKER + " " + Barred(cs)
  }

  /** WithChoices. */
  method WithChoices(text: string, choices: seq<string>) returns (stored: string)
    ensures stored == With(text, choices)
  {
    hide Clean, Barred, TrimEnd;
    var kept: seq<string> := [];
    var k := 0;
    assert choices[0..] == choices;
    while k < |choices| && |kept| < MAX_CHOICES
      invariant 0 <= k <= |choices|
      invariant |kept| <= MAX_CHOICES && Cleaned(choices, []) == Cleaned(choices[k..], kept)
    {
      assert choices[k..][0] == choices[k] && choices[k..][1..] == choices[k + 1..];
      var c := Clean(choices[k]);
      if c != "" && c !in kept {
        kept := kept + [c];
      }
      k := k + 1;
    }
    assert k == |choices| ==> choices[k..] == [];
    assert Cleaned(choices[k..], kept) == kept;
    if |kept| < MIN_CHOICES {
      return text;
    }
    return TrimEnd(text) + "\n\n" + MARKER + " " + Barred(kept);
  }

  const LINE := "\n" + MARKER

  /** strings.LastIndex of the choices line at or before position i. */
  function LastLine(s: string, i: nat): (r: Option<nat>)
    requires i <= |s|
    ensures r.Some? ==> r.value <= i && StartsWith(s[r.value..], LINE)
  {
    if StartsWith(s[i..], LINE) then Some(i) else if i == 0 then None else LastLine(s, i - 1)
  }

  /** strings.Split at the bars, each piece trimmed, the empty ones left out. */
  function Pieces(line: string): seq<string>
    decreases |line|
  {
    var j := Find(line, '|', 0);
    var first := Trim(line[..j]);
    (if first == "" then [] else [first]) + if j == |line| then [] else Pieces(line[j + 1..])
  }

  function Split(stored: string): (string, seq<string>) {
    match LastLine(stored, |stored|)
    case None => (stored, [])
    case Some(index) =>
      var line := stored[index + |LINE|..];
      var choices := Pieces(line);
      if '\n' in line || |choices| < MIN_CHOICES || |choices| > MAX_CHOICES then (stored, [])
      else (TrimEnd(stored[..index]), choices)
  }

  lemma LineFits(s: string, i: nat)
    requires i <= |s| && StartsWith(s[i..], LINE)
    ensures i + |LINE| <= |s|
  {
  }

  lemma Regroup(a: seq<string>, b: seq<string>, c: seq<string>)
    ensures a + (b + c) == a + b + c
  {
  }

  /** The loop of SplitChoices. */
  method SplitBars(line: string) returns (choices: seq<string>)
    ensures choices == Pieces(line)
  {
    hide Trim, Find;
    choices := [];
    var rest := line;
    var more := true;
    assert [] + Pieces(line) == Pieces(line);
    while more
      invariant Pieces(line) == choices + if more then Pieces(rest) else []
      decreases more, |rest|
    {
      var j := Find(rest, '|', 0);
      var piece := Trim(rest[..j]);
      Regroup(choices, if piece == "" then [] else [piece], if j == |rest| then [] else Pieces(rest[j + 1..]));
      if piece != "" {
        choices := choices + [piece];
      } else {
        assert choices + [] == choices;
      }
      more := j < |rest|;
      if more {
        rest := rest[j + 1..];
      }
    }
    assert choices + [] == choices;
  }

  /** SplitChoices. */
  method SplitChoices(stored: string) returns (text: string, choices: seq<string>)
    ensures (text, choices) == Split(stored)
  {
    hide LastLine, TrimEnd, Pieces, StartsWith;
    var index := LastLine(stored, |stored|);
    if index == None {
      return stored, [];
    }
    LineFits(stored, index.value);
    var line := stored[index.value + |LINE|..];
    if '\n' in line {
      return stored, [];
    }
    choices := SplitBars(line);
    if |choices| < MIN_CHOICES || |choices| > MAX_CHOICES {
      return stored, [];
    }
    text := TrimEnd(stored[..index.value]);
  }

  // ---- Round trip --------------------------------------------------------------------------

  lemma CleanEnds(c: string)
    requires c != "" && IsClean(c)
    ensures !IsSpace(c[0]) && !IsSpace(c[|c| - 1]) && '|' !in c && '\n' !in c
  {
    forall k | 0 <= k < |c| ensures c[k] != '\n' {
      assert IsSpace('\n');
    }
  }

  lemma TrimsLeft(s: string)
    requires s != "" && !IsSpace(s[0])
    ensures TrimLeft(" " + s) == s
  {
    assert (" " + s)[1..] == s;
    assert IsSpace(' ');
    assert TrimLeft(s) == s;
  }

  lemma TrimsRight(s: string, back: string)
    requires s != "" && !IsSpace(s[|s| - 1]) && (back == "" || back == " ")
    ensures TrimRight(s + back) == s
  {
    assert TrimRight(s) == s;
    if back == "" {
      assert s + back == s;
    } else {
      assert (s + back)[..|s|] == s;
      assert IsSpace(' ');
    }
  }

  lemma TrimAround(c: string, back: string)
    requires c != "" && IsClean(c) && (back == "" || back == " ")
    ensures Trim(" " + c + back) == c
  {
    CleanEnds(c);
    hide IsClean, IsSpace, TrimLeft, TrimRight;
    assert " " + c + back == " " + (c + back);
    assert (c + back)[0] == c[0];
    TrimsLeft(c + back);
    TrimsRight(c, back);
  }

  lemma OnePiece(c: string)
    requires c != "" && IsClean(c)
    ensures Pieces(" " + c) == [c]
  {
    hide IsSpace, Trim;
    CleanEnds(c);
    var line := " " + c;
    forall k | 0 <= k < |line| ensures line[k] != '|' {
      assert k > 0 ==> line[k] == c[k - 1];
    }
    FindsFirst(line, '|', 0, |line|);
    TrimAround(c, "");
    assert line[..|line|] == " " + c + "";
    hide IsClean, Find;
  }

  lemma FirstPiece(c: string, rest: string)
    requires c != "" && IsClean(c)
    ensures Pieces(" " + c + " " + "|" + rest) == [c] + Pieces(rest)
  {
    hide IsSpace, Trim, Pieces;
    CleanEnds(c);
    var line, j := " " + c + " " + "|" + rest, |c| + 2;
    forall k | 0 <= k < j ensures line[k] != '|' {
      assert 0 < k <= |c| ==> line[k] == c[k - 1];
    }
    FindsFirst(line, '|', 0, j);
    TrimAround(c, " ");
    assert line[..j] == " " + c + " " && line[j + 1..] == rest;
    hide IsClean, Find;
    PieceAt(line, j, c);
  }

  lemma PieceAt(line: string, j: nat, c: string)
    requires j < |line| && Find(line, '|', 0) == j && Trim(line[..j]) == c != ""
    ensures Pieces(line) == [c] + Pieces(line[j + 1..])
  {
    hide Find, Trim;
  }

  lemma {:induction false} PiecesOfBarred(cs: seq<string>)
    requires cs != [] && forall c | c in cs :: c != "" && IsClean(c)
    ensures Pieces(" " + Barred(cs)) == cs && '\n' !in Barred(cs)
    decreases |cs|
  {
    hide IsClean, IsSpace, Trim, Pieces, Find;
    var c := cs[0];
    assert c in cs;
    CleanEnds(c);
    if |cs| == 1 {
      OnePiece(c);
    } else {
      assert forall x | x in cs[1..] :: x in cs;
      PiecesOfBarred(cs[1..]);
      FirstPiece(c, " " + Barred(cs[1..]));
      assert " " + Barred(cs) == " " + c + " " + "|" + (" " + Barred(cs[1..]));
      assert [c] + cs[1..] == cs;
    }
  }

  lemma {:induction false} FindsLast(s: string, i: nat, p: nat)
    requires p <= i <= |s| && StartsWith(s[p..], LINE) && forall k | p < k < |s| :: s[k] != '\n'
    ensures LastLine(s, i) == Some(p)
    decreases i - p
  {
    if i > p {
      assert LINE[0] == '\n';
      if i < |s| {
        assert s[i..][0] == s[i];
        assert !StartsWith(s[i..], LINE) by {
          if |LINE| <= |s[i..]| {
            assert s[i..][..|LINE|][0] == s[i];
          }
        }
      }
      FindsLast(s, i - 1, p);
    }
  }

  lemma MarkerHasNoNewline(k: nat)
    requires k < |MARKER|
    ensures MARKER[k] != '\n'
  {
  }

  /** Splitting undoes writing: whenever at least two choices are usable, the text comes back
      trimmed on the right, with exactly the cleaned choices. */
  lemma SplitUndoesWith(text: string, choices: seq<string>)
    requires |Cleaned(choices, [])| >= MIN_CHOICES
    ensures Split(With(text, choices)) == (TrimEnd(text), Cleaned(choices, []))
    ensures AreChoices(Cleaned(choices, []))
  {
    var cs := Cleaned(choices, []);
    CleanedAreChoices(choices, []);
    PiecesOfBarred(cs);
    SplitsAt(TrimEnd(text), Barred(cs));
    TrimsNewline(TrimEnd(text));
  }

  lemma SplitsAt(front: string, back: string)
    requires '\n' !in back
    ensures var stored := front + "\n\n" + MARKER + " " + back;
            && LastLine(stored, |stored|) == Some(|front| + 1)
            && stored[..|front| + 1] == front + "\n" && stored[|front| + 1 + |LINE|..] == " " + back
  {
    var stored := front + "\n\n" + MARKER + " " + back;
    var p := |front| + 1;
    assert stored == (front + "\n") + LINE + (" " + back);
    assert stored[p..][..|LINE|] == LINE;
    forall k | p < k < |stored| ensures stored[k] != '\n' {
      if k < p + |LINE| {
        MarkerHasNoNewline(k - p - 1);
        assert stored[k] == LINE[k - p] == MARKER[k - p - 1];
      } else if k > p + |LINE| {
        assert stored[k] == back[k - p - |LINE| - 1];
      }
    }
    FindsLast(stored, |stored|, p);
  }

  lemma TrimsNewline(s: string)
    requires s != "" ==> s[|s| - 1] != '\n' && s[|s| - 1] != ' '
    ensures TrimEnd(s + "\n") == s
  {
    assert (s + "\n")[..|s|] == s;
  }
}
