/** load_mcp_secret: the secret is checked, then written as a quoted environment file. */
module EnvironmentFile {
  import opened AsciiJson
  import opened CanonicalJson
  import opened Json
  import opened PythonValues

  const REQUIRED := ["database_url", "oidc_issuer", "oidc_required_scope", "bedrock_region", "public_base_url"]
  const CALLER_SCOPES := "caller_scopes"
  const CONTROL_PLANE_URL := "control_plane_database_url"
  const SCOPE_URLS := "scope_database_urls"

  // ---- _parse_secret

  predicate IsText(j: Json) { j.Str? && j.s != "" }

  predicate IsTable(j: Json) { j.Obj? && j.members != map[] }

  predicate TextEntries(m: Dict) { forall k :: k in m ==> k != "" && IsText(m[k]) }

  predicate HasControlPlane(m: Dict) { !Get(m, CONTROL_PLANE_URL).Null? }

  /** What a secret must hold: five texts, the caller scopes, and both control-plane fields or neither. */
  predicate Acceptable(payload: Option<Json>) {
    && payload.Some? && payload.value.Obj?
    && var m := payload.value.members;
    && (forall i :: 0 <= i < |REQUIRED| ==> IsText(Get(m, REQUIRED[i])))
    && IsTable(Get(m, CALLER_SCOPES))
    && (HasControlPlane(m) <==> !Get(m, SCOPE_URLS).Null?)
    && (HasControlPlane(m) ==>
          && IsText(Get(m, CONTROL_PLANE_URL))
          && IsTable(Get(m, SCOPE_URLS)) && TextEntries(Get(m, SCOPE_URLS).members))
  }

  predicate Known(m: Dict, k: string) {
    k in REQUIRED || k == CALLER_SCOPES || (HasControlPlane(m) && (k == CONTROL_PLANE_URL || k == SCOPE_URLS))
  }

  /** A secret with everything but its known fields dropped. */
  function KnownPart(m: Dict): Dict { map k | k in m && Known(m, k) :: m[k] }

  method AllEntriesText(m: Dict) returns (ok: bool)
    ensures ok <==> TextEntries(m)
  {
    var left := m.Keys;
    while left != {}
      invariant left <= m.Keys
      invariant forall k :: k in m.Keys - left ==> k != "" && IsText(m[k])
      decreases left
    {
      var role :| role in left;
      if role == "" || !IsText(m[role]) {
        return false;
      }
      left := left - {role};
    }
    ok := true;
  }

  /** _parse_secret; the payload is None when the text is not JSON. */
  method ParseSecret(payload: Option<Json>) returns (parsed: Option<Dict>)
    ensures parsed.Some? <==> Acceptable(payload)
    ensures parsed.Some? ==> parsed.value == KnownPart(payload.value.members)
  {
    if payload.None? || !payload.value.Obj? {
      return None;
    }
    var m := payload.value.members;
    var filled: Dict := map[];
    for n := 0 to |REQUIRED|
      invariant forall i :: 0 <= i < n ==> IsText(Get(m, REQUIRED[i]))
      invariant filled == map k | k in m && k in REQUIRED[..n] :: m[k]
    {
      if !IsText(Get(m, REQUIRED[n])) {
        return None;
      }
      filled := filled[REQUIRED[n] := Get(m, REQUIRED[n])];
    }
    assert REQUIRED[..|REQUIRED|] == REQUIRED;
    if !IsTable(Get(m, CALLER_SCOPES)) {
      return None;
    }
    filled := filled[CALLER_SCOPES := Get(m, CALLER_SCOPES)];
    var controlPlaneUrl, scopeUrls := Get(m, CONTROL_PLANE_URL), Get(m, SCOPE_URLS);
    if controlPlaneUrl.Null? != scopeUrls.Null? {
      return None;
    }
    if !controlPlaneUrl.Null? {
      if !IsText(controlPlaneUrl) || !IsTable(scopeUrls) {
        return None;
      }
      var ok := AllEntriesText(scopeUrls.members);
      if !ok {
        return None;
      }
      filled := filled[CONTROL_PLANE_URL := controlPlaneUrl][SCOPE_URLS := scopeUrls];
    }
    parsed := Some(filled);
  }

  // ---- _quote_environment_value

  const NUL := 0 as char

  predicate SingleLine(s: string) { NUL !in s && '\n' !in s && '\r' !in s }

  /** str.replace of one character. */
  function ReplaceChar(s: string, c: char, sub: string): string {
    if s == [] then [] else (if s[0] == c then sub else [s[0]]) + ReplaceChar(s[1..], c, sub)
  }

  function QuoteValue(v: string): Option<string> {
    if !SingleLine(v) then None
    else Some("\"" + ReplaceChar(ReplaceChar(v, '\\', "\\\\"), '"', "\\\"") + "\"")
  }

  /** Each backslash and each quote gets a backslash of its own. */
  function EscapeEach(v: string): string {
    if v == [] then [] else (if v[0] == '\\' || v[0] == '"' then ['\\', v[0]] else [v[0]]) + EscapeEach(v[1..])
  }

  lemma {:induction false} ReplaceConcat(a: string, b: string, c: char, sub: string)
    ensures ReplaceChar(a + b, c, sub) == ReplaceChar(a, c, sub) + ReplaceChar(b, c, sub)
  {
    if a == [] {
      assert a + b == b;
    } else {
      assert (a + b)[1..] == a[1..] + b;
      ReplaceConcat(a[1..], b, c, sub);
    }
  }

  /** The quotes added by the second pass are never escaped again, and the backslashes added by the
      first are never doubled again: two passes are one. */
  lemma {:induction false} TwoPassesAreOne(v: string)
    ensures ReplaceChar(ReplaceChar(v, '\\', "\\\\"), '"', "\\\"") == EscapeEach(v)
  {
    if v != [] {
      TwoPassesAreOne(v[1..]);
      var head := if v[0] == '\\' then "\\\\" else [v[0]];
      ReplaceConcat(head, ReplaceChar(v[1..], '\\', "\\\\"), '"', "\\\"");
      FirstPassHead(v[0]);
    }
  }

  lemma FirstPassHead(c: char)
    ensures ReplaceChar(if c == '\\' then "\\\\" else [c], '"', "\\\"")
         == if c == '\\' || c == '"' then ['\\', c] else [c]
  {
    if c == '\\' {
      assert "\\\\"[1..] == "\\" && "\\"[1..] == [];
      assert ReplaceChar("\\", '"', "\\\"") == "\\";
    } else {
      assert [c][1..] == [];
    }
  }

  lemma {:induction false} EscapeSingleLine(v: string)
    requires SingleLine(v)
    ensures SingleLine(EscapeEach(v))
  {
    if v != [] {
      assert v[0] in v && forall c :: c in v[1..] ==> c in v;
      EscapeSingleLine(v[1..]);
    }
  }

  // ---- reading the file back

  /** A value after its opening quote: a backslash protects a quote, a backslash, a dollar or a backquote. */
  function ReadQuoted(s: string): Option<string> {
    if s == [] then None
    else if s[0] == '"' then (if |s| == 1 then Some([]) else None)
    else if s[0] == '\\' && |s| >= 2 then
      var rest := ReadQuoted(s[2..]);
      if rest.None? then None
      else Some((if s[1] in "\"\\$`" then [s[1]] else s[..2]) + rest.value)
    else
      var rest := ReadQuoted(s[1..]);
      if rest.None? then None else Some([s[0]] + rest.value)
  }

  /** Length of s up to the first c. */
  function UpTo(s: string, c: char): (n: nat)
    ensures n <= |s| && (n < |s| ==> s[n] == c)
    ensures forall i :: 0 <= i < n ==> s[i] != c
  {
    if s == [] || s[0] == c then 0 else 1 + UpTo(s[1..], c)
  }

  function ReadLine(line: string): Option<(string, string)> {
    var n := UpTo(line, '=');
    if n + 1 >= |line| || line[n + 1] != '"' then None
    else
      var value := ReadQuoted(line[n + 2..]);
      if value.None? then None else Some((line[..n], value.value))
  }

  /** A text cut at its newlines. */
  function Lines(text: string): seq<string> {
    if text == [] then []
    else
      var n := UpTo(text, '\n');
      [text[..n]] + if n == |text| then [] else Lines(text[n + 1..])
  }

  function ReadLines(lines: seq<string>): Option<seq<(string, string)>> {
    if lines == [] then Some([])
    else
      var first, rest := ReadLine(lines[0]), ReadLines(lines[1..]);
      if first.None? || rest.None? then None else Some([first.value] + rest.value)
  }

  function ReadEnvironment(text: string): Option<seq<(string, string)>> { ReadLines(Lines(text)) }

  // ---- _render_environment

  /** str() and json.dumps. */
  datatype Text = Text(str: Json -> string, dumps: Json -> string)

  function EnvironmentName(field: string): string {
    if field == REQUIRED[0] then "CONTINUUM_DATABASE_URL"
    else if field == REQUIRED[1] then "CONTINUUM_OIDC_ISSUER"
    else if field == REQUIRED[2] then "CONTINUUM_OIDC_REQUIRED_SCOPE"
    else if field == REQUIRED[3] then "CONTINUUM_BEDROCK_REGION"
    else if field == REQUIRED[4] then "CONTINUUM_PUBLIC_BASE_URL"
    else if field == CALLER_SCOPES then "CONTINUUM_CALLER_SCOPES_JSON"
    else if field == CONTROL_PLANE_URL then "CONTINUUM_CONTROL_PLANE_DATABASE_URL"
    else "CONTINUUM_SCOPE_DATABASE_URLS_JSON"
  }

  function UpperChar(c: char): char { if 'a' <= c <= 'z' then (c as int - 32) as char else c }

  function Upper(s: string): string { seq(|s|, i requires 0 <= i < |s| => UpperChar(s[i])) }

  predicate NamedAfter(field: string, name: string, suffix: string) { name == "CONTINUUM_" + Upper(field) + suffix }

  lemma DatabaseName()
    ensures NamedAfter("database_url", "CONTINUUM_DATABASE_URL", "")
  {
  }

  lemma IssuerName()
    ensures NamedAfter("oidc_issuer", "CONTINUUM_OIDC_ISSUER", "")
  {
  }

  lemma RequiredScopeName()
    ensures NamedAfter("oidc_required_scope", "CONTINUUM_OIDC_REQUIRED_SCOPE", "")
  {
  }

  lemma RegionName()
    ensures NamedAfter("bedrock_region", "CONTINUUM_BEDROCK_REGION", "")
  {
  }

  lemma BaseUrlName()
    ensures NamedAfter("public_base_url", "CONTINUUM_PUBLIC_BASE_URL", "")
  {
  }

  lemma CallerScopesName()
    ensures NamedAfter("caller_scopes", "CONTINUUM_CALLER_SCOPES_JSON", "_JSON")
  {
  }

  lemma ControlPlaneName()
    ensures NamedAfter("control_plane_database_url", "CONTINUUM_CONTROL_PLANE_DATABASE_URL", "")
  {
  }

  lemma ScopeUrlsName()
    ensures NamedAfter("scope_database_urls", "CONTINUUM_SCOPE_DATABASE_URLS_JSON", "_JSON")
  {
  }

  /** The variable of a known field is the field in upper case, with _JSON after it where a dict is written. */
  lemma NameOfField(field: string)
    requires field in REQUIRED || field in {CALLER_SCOPES, CONTROL_PLANE_URL, SCOPE_URLS}
    ensures NamedAfter(field, EnvironmentName(field), if field in {CALLER_SCOPES, SCOPE_URLS} then "_JSON" else "")
  {
    hide NamedAfter;
    DatabaseName();
    IssuerName();
    RequiredScopeName();
    RegionName();
    BaseUrlName();
    CallerScopesName();
    ControlPlaneName();
    ScopeUrlsName();
  }

  predicate PlainName(name: string) { '=' !in name && '\n' !in name }

  lemma NamesArePlain(field: string)
    ensures PlainName(EnvironmentName(field))
  {
    hide PlainName;
    ServiceNamesArePlain();
    ScopeNamesArePlain();
    CallerScopesNameIsPlain();
    ControlPlaneUrlNameIsPlain();
    ScopeUrlsNameIsPlain();
  }

  lemma ServiceNamesArePlain()
    ensures PlainName("CONTINUUM_DATABASE_URL") && PlainName("CONTINUUM_OIDC_ISSUER")
    ensures PlainName("CONTINUUM_BEDROCK_REGION")
  {
  }

  lemma ScopeNamesArePlain()
    ensures PlainName("CONTINUUM_OIDC_REQUIRED_SCOPE") && PlainName("CONTINUUM_PUBLIC_BASE_URL")
  {
  }

  lemma CallerScopesNameIsPlain()
    ensures PlainName("CONTINUUM_CALLER_SCOPES_JSON")
  {
  }

  lemma ControlPlaneUrlNameIsPlain()
    ensures PlainName("CONTINUUM_CONTROL_PLANE_DATABASE_URL")
  {
  }

  lemma ScopeUrlsNameIsPlain()
    ensures PlainName("CONTINUUM_SCOPE_DATABASE_URLS_JSON")
  {
  }

  function Fields(payload: Dict): seq<string> {
    REQUIRED + [CALLER_SCOPES] + if CONTROL_PLANE_URL in payload then [CONTROL_PLANE_URL, SCOPE_URLS] else []
  }

  predicate HasFields(payload: Dict) { forall f :: f in Fields(payload) ==> f in payload }

  function ValueOf(t: Text, payload: Dict, field: string): string
    requires field in payload
  {
    if field == CALLER_SCOPES || field == SCOPE_URLS then t.dumps(payload[field]) else t.str(payload[field])
  }

  /** Every variable the file should define, in order. */
  function Entries(t: Text, payload: Dict): (s: seq<(string, string)>)
    requires HasFields(payload)
  {
    var fields := Fields(payload);
    seq(|fields|, i requires 0 <= i < |fields| => (EnvironmentName(fields[i]), ValueOf(t, payload, fields[i])))
  }

  predicate Writable(entries: seq<(string, string)>) {
    forall i :: 0 <= i < |entries| ==> PlainName(entries[i].0) && SingleLine(entries[i].1)
  }

  function Line(e: (string, string)): string { e.0 + "=" + "\"" + EscapeEach(e.1) + "\"" }

  function Rendered(entries: seq<(string, string)>): string {
    if entries == [] then [] else Line(entries[0]) + "\n" + Rendered(entries[1..])
  }

  lemma {:induction false} RenderedAppend(entries: seq<(string, string)>, e: (string, string))
    ensures Rendered(entries + [e]) == Rendered(entries) + Line(e) + "\n"
  {
    hide Line;
    if entries == [] {
      assert entries + [e] == [e] && [e][1..] == [];
    } else {
      assert (entries + [e])[1..] == entries[1..] + [e];
      RenderedAppend(entries[1..], e);
    }
  }

  lemma {:induction false} ReadEscaped(v: string)
    ensures ReadQuoted(EscapeEach(v) + "\"") == Some(v)
  {
    if v != [] {
      ReadEscaped(v[1..]);
      var tail := EscapeEach(v[1..]) + "\"";
      var s := EscapeEach(v) + "\"";
      if v[0] == '\\' || v[0] == '"' {
        assert s == ['\\', v[0]] + tail && s[2..] == tail;
      } else {
        assert s == [v[0]] + tail && s[1..] == tail;
      }
      assert v == [v[0]] + v[1..];
    }
  }

  lemma UpToFound(before: string, c: char, after: string)
    requires c !in before
    ensures UpTo(before + [c] + after, c) == |before|
  {
    var s := before + [c] + after;
    assert s[|before|] == c;
    assert forall i :: 0 <= i < |before| ==> s[i] == before[i];
  }

  lemma ReadWrittenLine(e: (string, string))
    requires PlainName(e.0)
    ensures ReadLine(Line(e)) == Some(e)
  {
    hide EscapeEach, ReadQuoted;
    var tail := EscapeEach(e.1) + "\"";
    var line := Line(e);
    assert line == e.0 + ['='] + ("\"" + tail);
    UpToFound(e.0, '=', "\"" + tail);
    assert line[|e.0| + 1] == '"' && line[|e.0| + 2..] == tail && line[..|e.0|] == e.0;
    ReadEscaped(e.1);
  }

  lemma LineStaysOnItsLine(e: (string, string))
    requires PlainName(e.0) && SingleLine(e.1)
    ensures '\n' !in Line(e)
  {
    EscapeSingleLine(e.1);
  }

  lemma FirstLine(line: string, rest: string)
    requires '\n' !in line
    ensures Lines(line + ['\n'] + rest) == [line] + Lines(rest)
  {
    var text := line + ['\n'] + rest;
    UpToFound(line, '\n', rest);
    assert text[..|line|] == line && text[|line| + 1..] == rest;
  }

  lemma NoLines()
    ensures Lines([]) == []
  {
  }

  /** Each variable keeps its own line, and reading the lines gives back exactly the variables. */
  lemma {:induction false} FileReadsBack(entries: seq<(string, string)>)
    requires Writable(entries)
    ensures |Lines(Rendered(entries))| == |entries|
    ensures ReadEnvironment(Rendered(entries)) == Some(entries)
  {
    hide Line, ReadLine, PlainName, SingleLine, Lines;
    NoLines();
    if entries != [] {
      var e, rest := entries[0], entries[1..];
      FileReadsBack(rest);
      ReadWrittenLine(e);
      LineStaysOnItsLine(e);
      var text := Rendered(entries);
      assert text == Line(e) + ['\n'] + Rendered(rest);
      FirstLine(Line(e), Rendered(rest));
      assert Lines(text)[1..] == Lines(Rendered(rest));
      assert entries == [e] + rest;
    }
  }

  /** _render_environment: None where a field is missing or a value would not stay on one line. */
  method RenderEnvironment(t: Text, payload: Dict) returns (text: Option<string>)
    ensures text.Some? <==> HasFields(payload) && Writable(Entries(t, payload))
    ensures text.Some? ==> ReadEnvironment(text.value) == Some(Entries(t, payload))
    ensures text.Some? ==> text.value == Rendered(Entries(t, payload))
  {
    hide EnvironmentName, Rendered, Line, PlainName, ReadEnvironment, QuoteValue, SingleLine;
    ghost var fieldsSpec := Fields(payload);
    var values: map<string, string> := map[];
    for n := 0 to |REQUIRED|
      invariant forall i :: 0 <= i < n ==> REQUIRED[i] in payload
      invariant forall i :: 0 <= i < n ==>
                  REQUIRED[i] in values && values[REQUIRED[i]] == ValueOf(t, payload, REQUIRED[i])
    {
      if REQUIRED[n] !in payload {
        assert REQUIRED[n] in fieldsSpec;
        return None;
      }
      values := values[REQUIRED[n] := t.str(payload[REQUIRED[n]])];
    }
    if CALLER_SCOPES !in payload {
      assert CALLER_SCOPES in fieldsSpec;
      return None;
    }
    values := values[CALLER_SCOPES := t.dumps(payload[CALLER_SCOPES])];
    var fields := REQUIRED + [CALLER_SCOPES];
    if CONTROL_PLANE_URL in payload {
      if SCOPE_URLS !in payload {
        assert SCOPE_URLS in fieldsSpec;
        return None;
      }
      values := values[CONTROL_PLANE_URL := t.str(payload[CONTROL_PLANE_URL])];
      values := values[SCOPE_URLS := t.dumps(payload[SCOPE_URLS])];
      fields := fields + [CONTROL_PLANE_URL, SCOPE_URLS];
    }
    assert fields == fieldsSpec;
    var joined := JoinLines(t, payload, fields, values);
    text := joined;
    if text.Some? { FileReadsBack(Entries(t, payload)); }
  }

  /** The joined generator at the end of _render_environment. */
  method JoinLines(t: Text, payload: Dict, fields: seq<string>, values: map<string, string>)
    returns (text: Option<string>)
    requires fields == Fields(payload) && HasFields(payload)
    requires forall f :: f in fields ==> f in values && values[f] == ValueOf(t, payload, f)
    ensures text.Some? <==> Writable(Entries(t, payload))
    ensures text.Some? ==> text.value == Rendered(Entries(t, payload))
  {
    hide EnvironmentName, Rendered, Line, PlainName, Fields, ValueOf, SingleLine;
    ghost var entries := Entries(t, payload);
    var joined := "";
    NothingRendered();
    for n := 0 to |fields|
      invariant joined == Rendered(entries[..n])
      invariant Writable(entries[..n])
    {
      var quoted := QuoteValue(values[fields[n]]);
      NamesArePlain(fields[n]);
      if quoted.None? {
        assert !SingleLine(entries[n].1);
        return None;
      }
      TwoPassesAreOne(values[fields[n]]);
      QuotedLine(fields[n], values[fields[n]]);
      RenderedAppend(entries[..n], entries[n]);
      assert entries[..n + 1] == entries[..n] + [entries[n]];
      joined := joined + (EnvironmentName(fields[n]) + "=" + quoted.value + "\n");
    }
    assert entries[..|fields|] == entries;
    text := Some(joined);
  }

  lemma NothingRendered()
    ensures Rendered([]) == ""
  {
  }

  lemma QuotedLine(field: string, value: string)
    requires SingleLine(value)
    ensures EnvironmentName(field) + "=" + QuoteValue(value).value + "\n"
         == Line((EnvironmentName(field), value)) + "\n"
  {
    hide EnvironmentName, SingleLine, EscapeEach, ReplaceChar;
    TwoPassesAreOne(value);
  }

  /** What json.dumps writes never leaves its line, whatever the value. */
  lemma DumpsSingleLine(j: Json)
    ensures SingleLine(Dumps(j))
  {
    hide Ascii;
    AsciiPrintable(Print(j));
    assert forall c :: c in Dumps(j) ==> c >= ' ';
  }

  /** An accepted secret always has the fields the file needs; only a text that spans lines can stop it
      from being written. */
  lemma AcceptedRenders(payload: Json)
    requires Acceptable(Some(payload))
    ensures var m, t := KnownPart(payload.members), Text(PyStr, Dumps);
      && HasFields(m)
      && (Writable(Entries(t, m)) <==> forall f :: f in Fields(m) && m[f].Str? ==> SingleLine(m[f].s))
  {
    hide EnvironmentName, PlainName, SingleLine, Dumps;
    var m, t := KnownPart(payload.members), Text(PyStr, Dumps);
    var fields := Fields(m);
    assert forall i :: 0 <= i < |REQUIRED| ==> REQUIRED[i] in m;
    assert HasFields(m);
    var entries := Entries(t, m);
    forall i | 0 <= i < |fields|
      ensures PlainName(entries[i].0)
      ensures SingleLine(entries[i].1) <==> (m[fields[i]].Str? ==> SingleLine(m[fields[i]].s))
    {
      NamesArePlain(fields[i]);
      DumpsSingleLine(m[fields[i]]);
      assert m[fields[i]].Str? || m[fields[i]].Obj?;
    }
  }
}
