// Reading a written dotenv document gives back exactly what was exported: every escaped value
// stays on its line, and nothing on the way trims, splits or reinterprets it.
module DotEnvRoundTrip {
  import opened Prelude
  import opened Strings
  import opened Utf8
  import opened DotEnv

  predicate Visible(s: string) {
    forall k | 0 <= k < |s| :: s[k] >= ' '
  }

  lemma {:induction false} EscapedIsVisible(value: string)
    requires Quotable(value)
    ensures Visible(Escaped(value))
  {
    if value != "" {
      assert IsQuotable(value[0]);
      forall k | 0 <= k < |value[1..]| ensures IsQuotable(value[1..][k]) {
        assert value[1..][k] == value[k + 1];
      }
      EscapedIsVisible(value[1..]);
      CharIsVisible(value[0]);
      VisibleJoin(EscapedChar(value[0]), Escaped(value[1..]));
    }
  }

  lemma CharIsVisible(c: char)
    requires IsQuotable(c)
    ensures Visible(EscapedChar(c))
  {
  }

  lemma VisibleJoin(a: string, b: string)
    requires Visible(a) && Visible(b)
    ensures Visible(a + b)
  {
  }

  lemma KeyChars(key: string, k: nat)
    requires ValidKey(key) && k < |key|
    ensures key[k] > '#' && key[k] != '=' && !IsSpace(key[k])
  {
  }

  function Entry(key: string, value: string): string {
    key + "=" + Quoted(value)
  }

  lemma EntryIsVisible(key: string, value: string)
    requires Exportable(key, value)
    ensures Visible(Entry(key, value))
  {
    EscapedIsVisible(value);
    forall k | 0 <= k < |key| ensures key[k] >= ' ' {
      KeyChars(key, k);
    }
    assert Visible("=") && Visible("\"");
    VisibleJoin("\"", Escaped(value));
    VisibleJoin("\"" + Escaped(value), "\"");
    VisibleJoin(key, "=");
    VisibleJoin(key + "=", Quoted(value));
  }

  /** The written entry reads as its key and its value. */
  lemma EntryIsRead(key: string, value: string, values: Values)
    requires Exportable(key, value) && key !in values
    ensures AddLine(Entry(key, value), values) == Some(values[key := value])
  {
    hide Escaped, Unescaped, Trim, WithoutExport, Find, Value, AddLine;
    var entry := Entry(key, value);
    EntryShape(key, value);
    KeyIsNoExport(key, value);
    QuotedIsRead(value);
    LineOfEntry(entry, key, value, values);
  }

  /** Nothing in the entry is trimmed, and the first equals sign is the one that was written. */
  lemma EntryShape(key: string, value: string)
    requires Exportable(key, value)
    ensures var entry := Entry(key, value);
            && |key| < |entry| && Trim(entry[..|key|]) == key && entry[|key| + 1..] == Quoted(value)
            && entry[0] != '#' && '\0' !in entry && Find(entry, '=', 0) == |key| && WithoutReturn(entry) == entry && Trim(entry) == entry
  {
    hide Escaped;
    var entry := Entry(key, value);
    EntryIsVisible(key, value);
    KeyChars(key, 0);
    assert entry[0] == key[0] && entry[|entry| - 1] == '"';
    TrimKeeps(entry);
    forall k | 0 <= k < |key| ensures entry[k] != '=' {
      KeyChars(key, k);
      assert entry[k] == key[k];
    }
    assert entry[|key|] == '=';
    FindsFirst(entry, '=', 0, |key|);
    assert entry[..|key|] == key;
    KeyChars(key, |key| - 1);
    TrimKeeps(key);
  }

  lemma LineOfEntry(entry: string, key: string, value: string, values: Values)
    requires |key| < |entry| && Trim(entry[..|key|]) == key && Value(Trim(entry[|key| + 1..])) == Some(value)
    requires entry[0] != '#' && '\0' !in entry && Find(entry, '=', 0) == |key| && WithoutReturn(entry) == entry
    requires Trim(entry) == entry && WithoutExport(entry) == entry && ValidKey(key) && key !in values
    ensures AddLine(entry, values) == Some(values[key := value])
  {
    hide Trim, WithoutExport, Find, Value, ValidKey, WithoutReturn;
  }

  lemma QuotedIsRead(value: string)
    ensures Trim(Quoted(value)) == Quoted(value) && Value(Quoted(value)) == Some(value)
  {
    var quoted := Quoted(value);
    assert quoted[0] == '"' && quoted[|quoted| - 1] == '"';
    TrimKeeps(quoted);
    assert quoted[1..|quoted| - 1] == Escaped(value);
    UnescapesWhatWasEscaped(value);
  }

  lemma ExportLetters(k: nat)
    requires k < 6
    ensures "export"[k] != '='
  {
  }

  /** Even a key that starts with "export" is not taken for the keyword. */
  lemma KeyIsNoExport(key: string, value: string)
    requires ValidKey(key)
    ensures WithoutExport(Entry(key, value)) == Entry(key, value)
  {
    var entry := Entry(key, value);
    if |entry| > 6 {
      if |key| > 6 {
        KeyChars(key, 6);
        assert entry[6] == key[6];
      } else if |key| == 6 {
        assert entry[6] == '=';
      } else {
        assert entry[..6][|key|] == '=';
        ExportLetters(|key|);
      }
    }
  }

  lemma LineOf(key: string, value: string)
    ensures Line(key, value) == Entry(key, value) + "\n"
  {
  }

  lemma LineIsRead(before: string, key: string, value: string, after: string, values: Values)
    requires Exportable(key, value) && key !in values
    ensures var text := before + Line(key, value) + after;
            AddLines(text, |before|, values) == AddLines(text, |before| + |Line(key, value)|, values[key := value])
  {
    hide AddLines, Line, AddLine, Visible, Find, Entry, Exportable;
    LineOf(key, value);
    var entry := Entry(key, value);
    EntryIsVisible(key, value);
    EntryIsRead(key, value, values);
    EntryEnds(before, entry, after);
    var text := before + (entry + "\n") + after;
    NextLine(text, |before|, |before| + |entry|, values, values[key := value]);
  }

  lemma NextLine(text: string, i: nat, end: nat, values: Values, more: Values)
    requires i <= end < |text| && Find(text, '\n', i) == end && AddLine(text[i..end], values) == Some(more)
    ensures AddLines(text, i, values) == AddLines(text, end + 1, more)
  {
    hide AddLine, Find;
  }

  lemma EntryEnds(before: string, entry: string, after: string)
    requires Visible(entry)
    ensures var text, end := before + (entry + "\n") + after, |before| + |entry|;
            end < |text| && Find(text, '\n', |before|) == end && text[|before|..end] == entry
  {
    var text, end := before + (entry + "\n") + after, |before| + |entry|;
    forall k | |before| <= k < end ensures text[k] != '\n' {
      assert text[k] == entry[k - |before|];
    }
    assert text[end] == '\n';
    FindsFirst(text, '\n', |before|, end);
  }

  function Restricted(values: Values, keys: seq<string>): Values
    requires forall key | key in keys :: key in values
  {
    map key | key in keys :: values[key]
  }

  lemma {:induction false} DocumentIsRead(keys: seq<string>, values: Values, after: string)
    requires Distinct(keys) && forall key | key in keys :: key in values && Exportable(key, values[key])
    ensures var text := Document(keys, values) + after;
            AddLines(text, 0, map[]) == AddLines(text, |Document(keys, values)|, Restricted(values, keys))
    decreases |keys|
  {
    hide AddLines, Line, Exportable;
    if keys == [] {
      assert Restricted(values, keys) == map[];
    } else {
      var n := |keys| - 1;
      var front, key := keys[..n], keys[n];
      assert keys == front + [key];
      DistinctParts(front, [key]);
      RestrictedMore(values, front, key);
      var head, line := Document(front, values), Line(key, values[key]);
      DocumentIsRead(front, values, line + after);
      LineIsRead(head, key, values[key], after, Restricted(values, front));
      hide Document, Restricted;
      assert head + (line + after) == head + line + after;
    }
  }

  lemma RestrictedMore(values: Values, front: seq<string>, key: string)
    requires key in values && forall k | k in front :: k in values
    ensures Restricted(values, front + [key]) == Restricted(values, front)[key := values[key]]
    ensures key !in front ==> key !in Restricted(values, front)
  {
  }

  lemma {:induction false} DocumentStarts(keys: seq<string>, values: Values)
    requires forall key | key in keys :: key in values && Exportable(key, values[key])
    ensures keys != [] ==> keys[0] != "" && |Document(keys, values)| > 0 && Document(keys, values)[0] == keys[0][0] && IsKeyStart(keys[0][0])
    decreases |keys|
  {
    if keys != [] {
      var n := |keys| - 1;
      assert keys[0] in keys && keys[n] in keys;
      DocumentStarts(keys[..n], values);
    }
  }

  /** What may leave the program under these options. */
  function ExportedPart(values: Values, options: Options): Values {
    map key | key in values && IsExported(key, options) :: values[key]
  }

  /** Whatever the map holds, if it serializes, parsing the document gives exactly its exported part. */
  lemma SerializedIsParsed(values: Values, options: Options, keys: seq<string>)
    requires IsListing(values, options, keys)
    requires (forall key | key in keys :: Exportable(key, values[key])) && Size(Document(keys, values)) <= MAX_BYTES
    ensures DotEnv.Parsed(Document(keys, values)) == Some(ExportedPart(values, options))
  {
    hide Document, Exportable, Size, AddLines, Restricted, ExportedPart;
    var text := Document(keys, values);
    assert text + "" == text;
    DocumentIsRead(keys, values, "");
    NoBom(keys, values);
    ListingRestricts(values, options, keys);
    NothingLeft(text, Restricted(values, keys));
  }

  lemma NoBom(keys: seq<string>, values: Values)
    requires forall key | key in keys :: key in values && Exportable(key, values[key])
    ensures !StartsWith(Document(keys, values), BOM)
  {
    hide Exportable;
    var text := Document(keys, values);
    DocumentStarts(keys, values);
    if text != "" {
      assert text[..1][0] == text[0] && BOM[0] == '\U{FEFF}';
    }
  }

  lemma ListingRestricts(values: Values, options: Options, keys: seq<string>)
    requires IsListing(values, options, keys)
    ensures Restricted(values, keys) == ExportedPart(values, options)
  {
  }

  lemma NothingLeft(text: string, values: Values)
    ensures AddLines(text, |text|, values) == Some(values)
  {
    assert text[|text|..|text|] == "";
  }
}
