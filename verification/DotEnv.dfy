// Settings as a dotenv document (internal/config/dotenv_export.go, internal/config/dotenv.go):
// writing one and reading one. Text is decoded characters; limits are UTF-8 bytes.
module DotEnv {
  import opened Prelude
  import opened Strings
  import opened Utf8

  const MAX_BYTES: nat := 0x10_0000

  type Values = map<string, string>

  datatype Options = Options(includeSecrets: bool, includeReadOnly: bool)

  predicate IsSecret(key: string) {
    key in {"LANGSMITH_API_KEY", "TYPESAFE_API_KEY", "WAZZAP_LLM_API_KEY", "WAZZAP_LLM_FALLBACK_API_KEY"}
  }

  predicate IsReadOnly(key: string) {
    key in {"WAZZAP_TENANT_ID", "WAZZAP_ACCOUNT_ID"}
  }

  predicate IsExported(key: string, options: Options) {
    (IsSecret(key) ==> options.includeSecrets) && (IsReadOnly(key) ==> options.includeReadOnly)
  }

  predicate IsKeyStart(c: char) {
    c == '_' || 'a' <= c <= 'z' || 'A' <= c <= 'Z'
  }

  predicate ValidKey(key: string) {
    && key != "" && IsKeyStart(key[0])
    && forall k | 1 <= k < |key| :: IsKeyStart(key[k]) || '0' <= key[k] <= '9'
  }

  // ---- Values --------------------------------------------------------------------------

  predicate Quotable(value: string) {
    forall k | 0 <= k < |value| :: IsQuotable(value[k])
  }

  function EscapedChar(c: char): string {
    if c == '\\' || c == '"' || c == '$' then ['\\', c]
    else if c == '\n' then "\\n"
    else if c == '\r' then "\\r"
    else if c == '\t' then "\\t"
    else [c]
  }

  function Escaped(value: string): string {
    if value == "" then "" else EscapedChar(value[0]) + Escaped(value[1..])
  }

  function Quoted(value: string): string {
    "\"" + Escaped(value) + "\""
  }

  predicate IsQuotable(c: char) {
    c >= ' ' || c == '\n' || c == '\r' || c == '\t'
  }

  /** quoteDotEnvValue. */
  method Quote(value: string) returns (quoted: Option<string>)
    ensures quoted == if Quotable(value) then Some(Quoted(value)) else None
  {
    var out := "\"";
    assert value[0..] == value;
    for k := 0 to |value|
      invariant forall j | 0 <= j < k :: IsQuotable(value[j])
      invariant "\"" + Escaped(value) == out + Escaped(value[k..])
    {
      assert value[k..][0] == value[k] && value[k..][1..] == value[k + 1..];
      if !IsQuotable(value[k]) {
        return None;
      }
      assert out + (EscapedChar(value[k]) + Escaped(value[k + 1..])) == out + EscapedChar(value[k]) + Escaped(value[k + 1..]);
      out := out + EscapedChar(value[k]);
    }
    assert value[|value|..] == "" && out + "" == out;
    return Some(out + "\"");
  }

  /** What an escape sequence with this letter stands for; unknown ones are kept as they are. */
  function Meant(c: char): string {
    if c == '\\' || c == '"' || c == '$' then [c]
    else if c == 'n' then "\n"
    else if c == 'r' then "\r"
    else if c == 't' then "\t"
    else ['\\', c]
  }

  function Unescaped(value: string): Option<string> {
    if value == "" then Some("")
    else if value[0] != '\\' then
      (match Unescaped(value[1..])
       case None => None
       case Some(rest) => Some([value[0]] + rest))
    else if |value| < 2 then None
    else
      match Unescaped(value[2..])
      case None => None
      case Some(rest) => Some(Meant(value[1]) + rest)
  }

  function Prefixed(front: string, rest: Option<string>): Option<string> {
    if rest.Some? then Some(front + rest.value) else None
  }

  /** unescapeDoubleQuoted. */
  method Unescape(value: string) returns (result: Option<string>)
    ensures result == Unescaped(value)
  {
    var out := "";
    var k := 0;
    assert value[0..] == value;
    if Unescaped(value).Some? {
      assert "" + Unescaped(value).value == Unescaped(value).value;
    }
    while k < |value|
      invariant 0 <= k <= |value|
      invariant Unescaped(value) == Prefixed(out, Unescaped(value[k..]))
    {
      assert value[k..][0] == value[k] && value[k..][1..] == value[k + 1..];
      if value[k] != '\\' {
        AppendFirst(out, [value[k]], Unescaped(value[k + 1..]));
        out := out + [value[k]];
        k := k + 1;
        continue;
      }
      if k + 1 >= |value| {
        return None;
      }
      assert value[k..][1] == value[k + 1] && value[k..][2..] == value[k + 2..];
      AppendFirst(out, Meant(value[k + 1]), Unescaped(value[k + 2..]));
      out := out + Meant(value[k + 1]);
      k := k + 2;
    }
    assert value[k..] == "" && out + "" == out;
    return Some(out);
  }

  lemma AppendFirst(out: string, first: string, rest: Option<string>)
    ensures Prefixed(out, Prefixed(first, rest)) == Prefixed(out + first, rest)
  {
    if rest.Some? {
      assert out + (first + rest.value) == out + first + rest.value;
    }
  }

  lemma UnescapesChar(c: char, rest: string)
    ensures Unescaped(EscapedChar(c) + rest) == Prefixed([c], Unescaped(rest))
  {
    var e := EscapedChar(c);
    var all := e + rest;
    if |e| == 1 {
      assert all[0] == c && all[1..] == rest;
    } else {
      assert all[0] == '\\' && all[1] == e[1] && all[2..] == rest;
      assert Meant(e[1]) == [c];
    }
  }

  /** Unescaping inverts escaping, for every value. */
  lemma {:induction false} UnescapesWhatWasEscaped(value: string)
    ensures Unescaped(Escaped(value)) == Some(value)
  {
    if value != "" {
      UnescapesWhatWasEscaped(value[1..]);
      UnescapesChar(value[0], Escaped(value[1..]));
      assert value == [value[0]] + value[1..];
    }
  }

  // ---- Lines -------------------------------------------------------------------------------

  function WithoutExport(line: string): string {
    if |line| > 6 && StartsWith(line, "export") && (line[6] == ' ' || line[6] == '\t') then Trim(line[6..]) else line
  }

  /** parseDotEnvValue. */
  function Value(s: string): Option<string> {
    if s == "" then Some("")
    else if s[0] == '\'' then if |s| < 2 || s[|s| - 1] != '\'' then None else Some(s[1..|s| - 1])
    else if s[0] == '"' then if |s| < 2 || s[|s| - 1] != '"' then None else Unescaped(s[1..|s| - 1])
    else Some(s)
  }

  function WithoutReturn(line: string): string {
    if line != "" && line[|line| - 1] == '\r' then line[..|line| - 1] else line
  }

  /** What one line does to the values read so far. */
  function AddLine(raw: string, values: Values): Option<Values> {
    var line := Trim(WithoutReturn(raw));
    if line == "" || line[0] == '#' then Some(values)
    else if '\0' in line then None
    else
      var entry := WithoutExport(line);
      var at := Find(entry, '=', 0);
      if at == |entry| then None
      else
        var key := Trim(entry[..at]);
        if !ValidKey(key) || key in values then None
        else
          match Value(Trim(entry[at + 1..]))
          case None => None
          case Some(value) => Some(values[key := value])
  }

  /** The lines from position i on. */
  function AddLines(text: string, i: nat, values: Values): Option<Values>
    requires i <= |text|
    decreases |text| - i
  {
    var end := Find(text, '\n', i);
    match AddLine(text[i..end], values)
    case None => None
    case Some(more) => if end == |text| then Some(more) else AddLines(text, end + 1, more)
  }

  const BOM := "\U{FEFF}"

  /** ParseDotEnv as a function. */
  function Parsed(contents: string): Option<Values> {
    if Size(contents) > MAX_BYTES then None
    else AddLines(if StartsWith(contents, BOM) then contents[1..] else contents, 0, map[])
  }

  lemma HasBom(contents: string)
    ensures StartsWith(contents, BOM) ==> |contents| >= 1
  {
  }

  method Parse(contents: string) returns (result: Option<Values>)
    ensures result == Parsed(contents)
  {
    hide AddLine, Find, Size, StartsWith;
    if Size(contents) > MAX_BYTES {
      return None;
    }
    HasBom(contents);
    var text := if StartsWith(contents, BOM) then contents[1..] else contents;
    var values: Values := map[];
    var i := 0;
    while true
      invariant 0 <= i <= |text|
      invariant AddLines(text, 0, map[]) == AddLines(text, i, values)
      decreases |text| - i
    {
      var end := Find(text, '\n', i);
      var more := ReadLine(text[i..end], values);
      if more == None {
        return None;
      }
      values := more.value;
      if end == |text| {
        return Some(values);
      }
      i := end + 1;
    }
  }

  /** One round of the loop of parseDotEnv. */
  method ReadLine(raw: string, values: Values) returns (more: Option<Values>)
    ensures more == AddLine(raw, values)
  {
    var line := Trim(WithoutReturn(raw));
    if line == "" || line[0] == '#' {
      return Some(values);
    }
    if '\0' in line {
      return None;
    }
    line := WithoutExport(line);
    var at := Find(line, '=', 0);
    if at == |line| {
      return None;
    }
    var key := Trim(line[..at]);
    if !ValidKey(key) || key in values {
      return None;
    }
    var value := ReadValue(Trim(line[at + 1..]));
    if value == None {
      return None;
    }
    return Some(values[key := value.value]);
  }

  method ReadValue(s: string) returns (value: Option<string>)
    ensures value == Value(s)
  {
    if s == "" {
      return Some("");
    }
    match s[0]
    case '\'' =>
      if |s| < 2 || s[|s| - 1] != '\'' {
        return None;
      }
      return Some(s[1..|s| - 1]);
    case '"' =>
      if |s| < 2 || s[|s| - 1] != '"' {
        return None;
      }
      value := Unescape(s[1..|s| - 1]);
    case _ =>
      return Some(s);
  }

  // ---- The document ------------------------------------------------------------------------

  function Line(key: string, value: string): string {
    key + "=" + Quoted(value) + "\n"
  }

  function Document(keys: seq<string>, values: Values): string
    requires forall key | key in keys :: key in values
  {
    if keys == [] then "" else Document(keys[..|keys| - 1], values) + Line(keys[|keys| - 1], values[keys[|keys| - 1]])
  }

  /** Byte order of keys. */
  predicate Before(a: string, b: string) {
    a == "" || (b != "" && (a[0] < b[0] || (a[0] == b[0] && Before(a[1..], b[1..]))))
  }

  predicate Exportable(key: string, value: string) {
    ValidKey(key) && Quotable(value)
  }

  lemma {:induction false} BeforeIsTotal(a: string, b: string)
    ensures Before(a, b) || Before(b, a)
  {
    if a != "" && b != "" && a[0] == b[0] {
      BeforeIsTotal(a[1..], b[1..]);
    }
  }

  lemma {:induction false} BeforeIsTransitive(a: string, b: string, c: string)
    requires Before(a, b) && Before(b, c)
    ensures Before(a, c)
  {
    if a != "" && a[0] == b[0] == c[0] {
      BeforeIsTransitive(a[1..], b[1..], c[1..]);
    }
  }

  predicate Sorted(keys: seq<string>) {
    forall i, j :: 0 <= i < j < |keys| ==> Before(keys[i], keys[j])
  }

  /** sort.Strings, by insertion. */
  function Insert(key: string, keys: seq<string>): seq<string> {
    if keys == [] then [key] else if Before(key, keys[0]) then [key] + keys else [keys[0]] + Insert(key, keys[1..])
  }

  lemma {:induction false} InsertSorts(key: string, keys: seq<string>)
    requires Sorted(keys)
    ensures Sorted(Insert(key, keys)) && |Insert(key, keys)| == |keys| + 1
    ensures forall x :: x in Insert(key, keys) <==> x == key || x in keys
    ensures Distinct(keys) && key !in keys ==> Distinct(Insert(key, keys))
  {
    if keys != [] && !Before(key, keys[0]) {
      InsertSorts(key, keys[1..]);
      BeforeIsTotal(key, keys[0]);
      var rest := Insert(key, keys[1..]);
      assert keys == [keys[0]] + keys[1..];
      forall j | 0 <= j < |rest| ensures Before(keys[0], rest[j]) {
        assert rest[j] in rest;
      }
      if Distinct(keys) && key !in keys {
        DistinctParts([keys[0]], keys[1..]);
        DistinctJoin([keys[0]], rest);
      }
    } else if keys != [] {
      forall j | 0 <= j < |keys| ensures Before(key, keys[j]) {
        if j > 0 {
          BeforeIsTransitive(key, keys[0], keys[j]);
        }
      }
      if Distinct(keys) && key !in keys {
        DistinctJoin([key], keys);
      }
    }
  }

  /** The first loop of SerializeDotEnv and its sort: the exported keys in order. */
  method ExportedKeys(values: Values, options: Options) returns (result: Option<seq<string>>)
    ensures result.Some? ==> IsListing(values, options, result.value) && forall key | key in result.value :: ValidKey(key)
    ensures result.None? ==> exists key :: key in values && IsExported(key, options) && !ValidKey(key)
  {
    var keys: seq<string> := [];
    var left := values.Keys;
    while left != {}
      invariant left <= values.Keys && Sorted(keys) && Distinct(keys)
      invariant forall key :: key in keys <==> key in values && key !in left && IsExported(key, options)
      invariant forall key | key in keys :: ValidKey(key)
      decreases |left|
    {
      var key :| key in left;
      left := left - {key};
      if IsExported(key, options) {
        if !ValidKey(key) {
          return None;
        }
        InsertSorts(key, keys);
        keys := Insert(key, keys);
      }
    }
    return Some(keys);
  }

  /** SerializeDotEnv. `keys` are the exported ones, in order. */
  method Serialize(values: Values, options: Options) returns (document: Option<string>, keys: seq<string>)
    ensures document.Some? ==>
              && IsListing(values, options, keys) && (forall key | key in keys :: Exportable(key, values[key]))
              && document.value == Document(keys, values) && Size(document.value) <= MAX_BYTES
    ensures document == None ==>
              (exists key :: key in values && IsExported(key, options) && !Exportable(key, values[key]))
              || (exists all :: IsListing(values, options, all) && Size(Document(all, values)) > MAX_BYTES)
  {
    var listed := ExportedKeys(values, options);
    if listed == None {
      return None, [];
    }
    keys := listed.value;
    var out := "";
    for k := 0 to |keys|
      invariant out == Document(keys[..k], values) && Size(out) <= MAX_BYTES
      invariant forall j | 0 <= j < k :: Quotable(values[keys[j]])
    {
      var quoted := Quote(values[keys[k]]);
      if quoted == None {
        assert keys[k] in keys && !Exportable(keys[k], values[keys[k]]);
        return None, [];
      }
      assert keys[..k + 1][..k] == keys[..k];
      out := out + (keys[k] + "=" + quoted.value + "\n");
      assert out == Document(keys[..k + 1], values);
      if Size(out) > MAX_BYTES {
        DocumentGrows(keys, k + 1, values);
        return None, [];
      }
    }
    assert keys[..|keys|] == keys;
    return Some(out), keys;
  }

  /** The exported keys in order. */
  ghost predicate IsListing(values: Values, options: Options, keys: seq<string>) {
    Sorted(keys) && Distinct(keys) && forall key :: key in keys <==> key in values && IsExported(key, options)
  }

  lemma {:induction false} DocumentGrows(keys: seq<string>, k: nat, values: Values)
    requires k <= |keys| && forall key | key in keys :: key in values
    ensures forall key | key in keys[..k] :: key in values
    ensures Size(Document(keys[..k], values)) <= Size(Document(keys, values))
    decreases |keys|
  {
    if k == |keys| {
      assert keys[..k] == keys;
    } else {
      var n := |keys| - 1;
      DocumentGrows(keys[..n], k, values);
      assert keys[..n][..k] == keys[..k];
      SizeAdds(Document(keys[..n], values), Line(keys[n], values[keys[n]]));
    }
  }
}
