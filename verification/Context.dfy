// The model's view of a chat (internal/agent/context.go): which history entries are kept, how
// they are split and wrapped, and what message lists are acceptable. Text is decoded
// characters; sizes are UTF-8 bytes. What an entry and the chat's facts render to is given.
module Context {
  import opened Prelude
  import opened Strings
  import opened Utf8

  // ---- Text ------------------------------------------------------------------------

  predicate Blank(s: string) {
    forall k | 0 <= k < |s| :: IsSpace(s[k])
  }

  function Join(parts: seq<string>): string {
    if parts == [] then "" else if |parts| == 1 then parts[0] else parts[0] + "\n\n" + Join(parts[1..])
  }

  // ---- The boundary of untrusted text ------------------------------------------------

  const NAME := "untrusted_chat_history"
  const OPENING := "<" + NAME + ">\n"
  const CLOSING := "\n</" + NAME + ">"

  /** Case-insensitive comparison with a lower-case pattern letter; a long s folds to an s. */
  predicate Folds(c: char, p: char) {
    c == p || ('A' <= c <= 'Z' && c - 'A' + 'a' == p) || (p == 's' && c == '\U{17F}')
  }

  predicate IsGap(c: char) {
    c == ' ' || c == '\t' || c == '\n' || c == '\U{0C}' || c == '\r'
  }

  /** Where the white space from position i on ends. */
  function GapEnd(s: string, i: nat): (j: nat)
    requires i <= |s|
    ensures i <= j <= |s| && (j < |s| ==> !IsGap(s[j])) && forall k | i <= k < j :: IsGap(s[k])
    decreases |s| - i
  {
    if i < |s| && IsGap(s[i]) then GapEnd(s, i + 1) else i
  }

  /** Where the name in a tag that opens at position i would start. */
  function NameStart(s: string, i: nat): nat {
    if i + 1 < |s| && s[i + 1] == '/' then i + 2 else i + 1
  }

  predicate NameAt(s: string, i: nat) {
    i + |NAME| <= |s| && forall k | 0 <= k < |NAME| :: Folds(s[i + k], NAME[k])
  }

  /** The boundary tag that opens at position i ends before this position. */
  function TagEnd(s: string, i: nat): (end: Option<nat>)
    ensures end.Some? ==> i + 1 < end.value <= |s| && s[i] == '<' && s[end.value - 1] == '>'
  {
    if i < |s| && s[i] == '<' && NameAt(s, NameStart(s, i)) then
      var gap := GapEnd(s, NameStart(s, i) + |NAME|);
      if gap < |s| && s[gap] == '>' then Some(gap + 1) else None
    else None
  }

  predicate TagAt(s: string, i: nat) {
    TagEnd(s, i).Some?
  }

  /** Every boundary tag from position i on has its angle brackets escaped. */
  function Escaped(s: string, i: nat): string
    requires i <= |s|
    decreases |s| - i
  {
    if i == |s| then ""
    else
      match TagEnd(s, i)
      case Some(end) => "&lt;" + s[i + 1..end - 1] + "&gt;" + Escaped(s, end)
      case None => [s[i]] + Escaped(s, i + 1)
  }

  /** wrapUntrustedChatHistory. */
  function Wrapped(transcript: string): string {
    OPENING + Escaped(transcript, 0) + CLOSING
  }

  // ---- Messages ------------------------------------------------------------------------

  datatype ModelRole = ModelSystem | ModelUser | ModelAssistant

  datatype Provenance =
    | BasePrompt | PromptOverride | ChatInformation | ChatState
    | HistorySystem | HistoryUser | CurrentUser | HistoryAssistant | HistoryTranscript

  datatype Message = Message(role: ModelRole, provenance: Provenance, content: string, additional: string)

  const ADDITIONAL_TAGS := |"<additional>\n"| + |"\n</additional>"|

  function MessageBytes(m: Message): nat {
    Size(m.content) + 8
    + if m.additional == "" then 0
      else Size(m.additional) + ADDITIONAL_TAGS + if m.content == "" then 0 else 2
  }

  function MessagesBytes(messages: seq<Message>): nat {
    if messages == [] then 0 else MessageBytes(messages[0]) + MessagesBytes(messages[1..])
  }

  /** modelMessagesBytes. */
  method ModelMessagesBytes(messages: seq<Message>) returns (total: nat)
    ensures total == MessagesBytes(messages)
  {
    total := 0;
    var k := 0;
    assert messages[0..] == messages;
    while k < |messages|
      invariant 0 <= k <= |messages|
      invariant MessagesBytes(messages) == total + MessagesBytes(messages[k..])
    {
      assert messages[k..][0] == messages[k] && messages[k..][1..] == messages[k + 1..];
      total := total + Size(messages[k].content) + 8;
      if messages[k].additional != "" {
        total := total + Size(messages[k].additional) + ADDITIONAL_TAGS;
        if messages[k].content != "" {
          total := total + 2;
        }
      }
      k := k + 1;
    }
  }

  function Count(messages: seq<Message>, p: Provenance): nat {
    if messages == [] then 0 else Count(messages[..|messages| - 1], p) + if messages[|messages| - 1].provenance == p then 1 else 0
  }

  /** The role, place and shape the provenance of a message asks for, given those before it. */
  predicate FitsAfter(before: seq<Message>, m: Message) {
    && (m.provenance == BasePrompt ==> m.content == "" && m.role == ModelSystem && forall x | x in before :: x.provenance == BasePrompt)
    && (m.provenance != BasePrompt ==> m.additional == "" && !Blank(m.content))
    && (m.provenance == PromptOverride ==>
          m.role == ModelUser && (forall x | x in before :: x.provenance == BasePrompt)
          && StartsWith(m.content, "<prompt_override>\n") && EndsWith(m.content, "\n</prompt_override>"))
    && (m.provenance == ChatInformation || m.provenance == ChatState ==>
          m.role == ModelUser && forall x | x in before :: x.provenance != HistoryTranscript && x.provenance != CurrentUser)
    && (m.provenance == ChatState ==> StartsWith(m.content, "<chat_state>\n") && EndsWith(m.content, "\n</chat_state>"))
    && (m.provenance == HistorySystem ==> m.role == ModelSystem)
    && (m.provenance == HistoryUser || m.provenance == CurrentUser ==> m.role == ModelUser)
    && (m.provenance == HistoryAssistant ==> m.role == ModelAssistant)
    && (m.provenance == HistoryTranscript ==> m.role == ModelUser && StartsWith(m.content, OPENING) && EndsWith(m.content, CLOSING))
  }

  /** What ValidateModelMessages accepts. */
  predicate Acceptable(messages: seq<Message>) {
    && messages != []
    && (forall k | 0 <= k < |messages| :: FitsAfter(messages[..k], messages[k]))
    && var last := messages[|messages| - 1].provenance;
    && (if Count(messages, HistoryTranscript) > 0
        then Count(messages, HistoryTranscript) == 1 && Count(messages, CurrentUser) == 0 && last == HistoryTranscript
        else Count(messages, CurrentUser) == 1 && last == CurrentUser)
    && Count(messages, BasePrompt) <= 1 && Count(messages, PromptOverride) <= 1
    && Count(messages, ChatInformation) <= 1 && Count(messages, ChatState) <= 1
  }

  /** The switch of ValidateModelMessages: what one message may look like at this point. */
  predicate ValidHere(m: Message, promptPhase: bool, overrides: nat, transcripts: nat, currents: nat) {
    match m.provenance
    case BasePrompt => m.content == "" && promptPhase && overrides == 0 && m.role == ModelSystem
    case other =>
      && m.additional == "" && !Blank(m.content)
      && match other
         case PromptOverride =>
           promptPhase && m.role == ModelUser
           && StartsWith(m.content, "<prompt_override>\n") && EndsWith(m.content, "\n</prompt_override>")
         case ChatInformation => m.role == ModelUser && transcripts == 0 && currents == 0
         case ChatState =>
           m.role == ModelUser && transcripts == 0 && currents == 0
           && StartsWith(m.content, "<chat_state>\n") && EndsWith(m.content, "\n</chat_state>")
         case HistorySystem => m.role == ModelSystem
         case HistoryUser => m.role == ModelUser
         case CurrentUser => m.role == ModelUser
         case HistoryAssistant => m.role == ModelAssistant
         case HistoryTranscript => m.role == ModelUser && StartsWith(m.content, OPENING) && EndsWith(m.content, CLOSING)
  }

  lemma ValidHereFits(before: seq<Message>, m: Message, promptPhase: bool)
    requires promptPhase <==> forall x | x in before :: x.provenance == BasePrompt
    ensures ValidHere(m, promptPhase, Count(before, PromptOverride), Count(before, HistoryTranscript), Count(before, CurrentUser))
            <==> FitsAfter(before, m)
  {
    CountZero(before, PromptOverride);
    CountZero(before, HistoryTranscript);
    CountZero(before, CurrentUser);
    hide Count, StartsWith, EndsWith, Blank;
  }

  lemma CountNext(before: seq<Message>, m: Message, p: Provenance)
    ensures Count(before + [m], p) == Count(before, p) + if m.provenance == p then 1 else 0
  {
    assert (before + [m])[..|before + [m]| - 1] == before;
  }

  /** ValidateModelMessages. */
  method Validate(messages: seq<Message>) returns (ok: bool)
    ensures ok == Acceptable(messages)
  {
    hide FitsAfter, ValidHere, Count;
    if |messages| == 0 {
      return false;
    }
    var counts := map[BasePrompt := 0, PromptOverride := 0, ChatInformation := 0, ChatState := 0, HistorySystem := 0,
                      HistoryUser := 0, CurrentUser := 0, HistoryAssistant := 0, HistoryTranscript := 0];
    var promptPhase := true;
    assert messages[..0] == [];
    NothingCounted();
    forall p: Provenance ensures p in counts && counts[p] == 0 {
      match p
      case BasePrompt => case PromptOverride => case ChatInformation => case ChatState => case HistorySystem =>
      case HistoryUser => case CurrentUser => case HistoryAssistant => case HistoryTranscript =>
    }
    for k := 0 to |messages|
      invariant forall p :: p in counts && counts[p] == Count(messages[..k], p)
      invariant promptPhase <==> forall x | x in messages[..k] :: x.provenance == BasePrompt
      invariant forall j | 0 <= j < k :: FitsAfter(messages[..j], messages[j])
    {
      var m := messages[k];
      assert messages[..k + 1] == messages[..k] + [m];
      ValidHereFits(messages[..k], m, promptPhase);
      if !ValidHere(m, promptPhase, counts[PromptOverride], counts[HistoryTranscript], counts[CurrentUser]) {
        assert !FitsAfter(messages[..k], messages[k]);
        return false;
      }
      forall p ensures Count(messages[..k + 1], p) == Count(messages[..k], p) + if m.provenance == p then 1 else 0 {
        CountNext(messages[..k], m, p);
      }
      counts := counts[m.provenance := counts[m.provenance] + 1];
      promptPhase := promptPhase && m.provenance == BasePrompt;
    }
    assert messages[..|messages|] == messages;
    var last := messages[|messages| - 1].provenance;
    if counts[HistoryTranscript] > 0 {
      if counts[HistoryTranscript] != 1 || counts[CurrentUser] != 0 || last != HistoryTranscript {
        return false;
      }
    } else if counts[CurrentUser] != 1 || last != CurrentUser {
      return false;
    }
    return counts[BasePrompt] <= 1 && counts[PromptOverride] <= 1 && counts[ChatInformation] <= 1 && counts[ChatState] <= 1;
  }

  lemma NothingCounted()
    ensures forall p :: Count([], p) == 0
  {
  }

  lemma {:induction false} CountZero(messages: seq<Message>, p: Provenance)
    ensures Count(messages, p) == 0 <==> forall x | x in messages :: x.provenance != p
  {
    if messages != [] {
      var last := |messages| - 1;
      CountZero(messages[..last], p);
      assert messages == messages[..last] + [messages[last]];
    }
  }

  // ---- Building -----------------------------------------------------------------------------

  datatype Role = User | Assistant | System

  /** A history entry and what it renders to. */
  datatype Entry = Entry(invocation: nat, role: Role, delivered: bool, rendered: string)

  datatype ErrorCode = Ambiguous | CurrentMissing | NewerContext | TooLarge | NoProgress

  datatype Result = Built(messages: seq<Message>) | Fails(code: ErrorCode)

  /** The trusted part: the configured prompt, the override in force, and the chat's facts. */
  datatype Instructions = Instructions(additional: string, override: string, information: string, state: string)

  function Trusted(i: Instructions): seq<Message> {
    [Message(ModelSystem, BasePrompt, "", i.additional),
     Message(ModelUser, PromptOverride, "<prompt_override>\n" + i.override + "\n</prompt_override>", ""),
     Message(ModelUser, ChatInformation, "Chat information:\n" + i.information, ""),
     Message(ModelUser, ChatState, "<chat_state>\n" + i.state + "\n</chat_state>", "")]
  }

  /** Replies that were not delivered are not part of the conversation. */
  function Visible(history: seq<Entry>): seq<Entry> {
    if history == [] then []
    else
      var last := history[|history| - 1];
      Visible(history[..|history| - 1]) + if last.role == Assistant && !last.delivered then [] else [last]
  }

  predicate IsCurrent(e: Entry, current: nat) {
    e.invocation == current
  }

  /** What the first loop reports: the current invocation must have one entry, not a reply. */
  predicate IsAmbiguous(entries: seq<Entry>, current: nat) {
    || (exists k :: 0 <= k < |entries| && IsCurrent(entries[k], current) && entries[k].role == Assistant)
    || (exists j, k :: 0 <= j < k < |entries| && IsCurrent(entries[j], current) && IsCurrent(entries[k], current))
  }

  predicate HasCurrent(entries: seq<Entry>, current: nat) {
    exists k :: 0 <= k < |entries| && IsCurrent(entries[k], current)
  }

  /** How one more entry changes what the first loop knows. */
  lemma OneMoreEntry(entries: seq<Entry>, e: Entry, current: nat)
    ensures HasCurrent(entries + [e], current) <==> HasCurrent(entries, current) || IsCurrent(e, current)
    ensures IsAmbiguous(entries + [e], current)
            <==> IsAmbiguous(entries, current) || (IsCurrent(e, current) && (e.role == Assistant || HasCurrent(entries, current)))
  {
    var more, n := entries + [e], |entries|;
    assert more[n] == e && forall k | 0 <= k < n :: more[k] == entries[k];
    if HasCurrent(entries, current) {
      var k :| 0 <= k < n && IsCurrent(entries[k], current);
      assert IsCurrent(more[k], current);
      if IsCurrent(e, current) {
        assert 0 <= k < n < |more| && IsCurrent(more[k], current) && IsCurrent(more[n], current);
      }
    }
    if IsCurrent(e, current) {
      assert IsCurrent(more[n], current);
    }
    if j, k :| 0 <= j < k < |entries| && IsCurrent(entries[j], current) && IsCurrent(entries[k], current) {
      assert IsCurrent(more[j], current) && IsCurrent(more[k], current);
    }
    if k :| 0 <= k < |entries| && IsCurrent(entries[k], current) && entries[k].role == Assistant {
      assert IsCurrent(more[k], current) && more[k].role == Assistant;
    }
  }

  /** The burst starts after the last reply. */
  function BurstStart(entries: seq<Entry>): (i: nat)
    ensures i <= |entries| && (forall k | i <= k < |entries| :: entries[k].role != Assistant)
    ensures i > 0 ==> entries[i - 1].role == Assistant
  {
    if entries == [] then 0
    else if entries[|entries| - 1].role == Assistant then |entries|
    else BurstStart(entries[..|entries| - 1])
  }

  function Rendered(entries: seq<Entry>): (r: seq<string>)
    ensures |r| == |entries| && forall k | 0 <= k < |entries| :: r[k] == entries[k].rendered
  {
    seq(|entries|, i requires 0 <= i < |entries| => entries[i].rendered)
  }

  function Sections(entries: seq<Entry>): seq<string> {
    var burst := BurstStart(entries);
    ["older messages:"] + Rendered(entries[..burst]) + ["current messages(burst):"] + Rendered(entries[burst..])
  }

  function Transcript(entries: seq<Entry>): Message {
    Message(ModelUser, HistoryTranscript, Wrapped(Join(Sections(entries))), "")
  }

  function Messages(i: Instructions, entries: seq<Entry>): seq<Message> {
    Trusted(i) + [Transcript(entries)]
  }

  predicate FitsIn(i: Instructions, entries: seq<Entry>, maxBytes: nat) {
    MessagesBytes(Messages(i, entries)) <= maxBytes
  }

  /** The entries without one invocation. */
  function Without(entries: seq<Entry>, invocation: nat): (r: seq<Entry>)
    ensures |r| <= |entries|
    ensures forall e :: e in r <==> e in entries && e.invocation != invocation
    ensures |r| == |entries| ==> r == entries
  {
    if entries == [] then []
    else
      var last := entries[|entries| - 1];
      var front := Without(entries[..|entries| - 1], invocation);
      assert entries == entries[..|entries| - 1] + [last];
      if last.invocation == invocation then front else front + [last]
  }

  /** The trimming loop as a function. */
  function Trimmed(i: Instructions, entries: seq<Entry>, maxBytes: nat): Result
    decreases |entries|
  {
    if FitsIn(i, entries, maxBytes) then Built(Messages(i, entries))
    else if |entries| <= 1 then Fails(TooLarge)
    else
      var retained := Without(entries, entries[0].invocation);
      if |retained| == |entries| then Fails(NoProgress) else Trimmed(i, retained, maxBytes)
  }

  function BuildResult(i: Instructions, history: seq<Entry>, current: nat, maxBytes: nat): Result {
    var entries := Visible(history);
    if IsAmbiguous(entries, current) then Fails(Ambiguous)
    else if !HasCurrent(entries, current) then Fails(CurrentMissing)
    else if !IsCurrent(entries[|entries| - 1], current) then Fails(NewerContext)
    else Trimmed(i, entries, maxBytes)
  }

  /** Build. */
  method Build(i: Instructions, history: seq<Entry>, current: nat, maxBytes: nat) returns (result: Result)
    ensures result == BuildResult(i, history, current, maxBytes)
  {
    hide Messages;
    var entries: seq<Entry> := [];
    var found := false;
    var k := 0;
    while k < |history|
      invariant 0 <= k <= |history|
      invariant entries == Visible(history[..k])
      invariant !IsAmbiguous(entries, current)
      invariant found <==> HasCurrent(entries, current)
    {
      var e := history[k];
      assert history[..k + 1][..k] == history[..k];
      if !(e.role == Assistant && !e.delivered) {
        assert Visible(history[..k + 1]) == entries + [e];
        OneMoreEntry(entries, e, current);
        if IsCurrent(e, current) {
          if e.role == Assistant || found {
            AmbiguityLasts(history, k + 1, entries + [e], current);
            return Fails(Ambiguous);
          }
          found := true;
        }
        entries := entries + [e];
      }
      k := k + 1;
    }
    assert history[..k] == history;
    if !found {
      return Fails(CurrentMissing);
    }
    if !IsCurrent(entries[|entries| - 1], current) {
      return Fails(NewerContext);
    }
    while true
      invariant BuildResult(i, history, current, maxBytes) == Trimmed(i, entries, maxBytes)
      decreases |entries|
    {
      var messages := Messages(i, entries);
      var bytes := ModelMessagesBytes(messages);
      if bytes <= maxBytes {
        return Built(messages);
      }
      if |entries| <= 1 {
        return Fails(TooLarge);
      }
      var retained := Without(entries, entries[0].invocation);
      if |retained| == |entries| {
        return Fails(NoProgress);
      }
      entries := retained;
    }
  }

  lemma {:induction false} AmbiguityLasts(history: seq<Entry>, k: nat, entries: seq<Entry>, current: nat)
    requires k <= |history| && entries == Visible(history[..k]) && IsAmbiguous(entries, current)
    ensures IsAmbiguous(Visible(history), current)
    decreases |history| - k
  {
    if k == |history| {
      assert history[..k] == history;
    } else {
      assert history[..k + 1][..k] == history[..k];
      var next := Visible(history[..k + 1]);
      assert next == entries || next == entries + [history[k]];
      OneMoreEntry(entries, history[k], current);
      AmbiguityLasts(history, k + 1, next, current);
    }
  }
}
