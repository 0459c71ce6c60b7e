/**
 * The legacy `custom_providers:` list of config.yaml: the line scanner, the renderer, the span
 * finder and the two model edits that go through them.
 */
module CustomProviders {
  import opened Text
  import opened Quoting
  import opened ConfigScalars
  import opened ConfigBlocks

  datatype Entry = Entry(name: string, baseUrl: string, keyEnv: string, model: string,
                         extraModels: seq<string>, apiMode: string)

  // ---------------------------------------------------------------- the scanner's line patterns

  function Lead(line: string): nat {
    |line| - |TrimStart(EcmaScript, line)|
  }

  /** `KEY\s*:` at the start of a text; the text after the colon. */
  function AfterKey(t: string, key: string): Option<string> {
    if StartsWith(t, key) then
      var u := TrimStart(EcmaScript, t[|key|..]);
      if u != "" && u[0] == ':' then Some(u[1..]) else None
    else None
  }

  /** `\s*(.*)$` after a colon. */
  function FieldValue(after: string): Option<string> {
    var v := TrimStart(EcmaScript, after);
    if HasTerminator(v) then None else Some(StripScalar(v))
  }

  /** `/^\s*KEY\s*:\s*(.*)$/` */
  function Field(line: string, key: string): Option<string> {
    var after := AfterKey(TrimStart(EcmaScript, line), key);
    if after.Some? then FieldValue(after.value) else None
  }

  /** `/^\s*custom_providers\s*:/` */
  predicate IsHeader(line: string) {
    AfterKey(TrimStart(EcmaScript, line), "custom_providers").Some?
  }

  /** `/^\s*-\s*name\s*:/` */
  predicate IsNameItem(line: string) {
    var t := TrimStart(EcmaScript, line);
    t != "" && t[0] == '-' && AfterKey(TrimStart(EcmaScript, t[1..]), "name").Some?
  }

  /** The leftmost match of `/name\s*:\s*(.*)$/`. */
  function NameValue(line: string): Option<string> {
    var after := AfterKey(line, "name");
    var value := if after.Some? then FieldValue(after.value) else None;
    if value.Some? then value
    else if line == "" then None
    else NameValue(line[1..])
  }

  /** `/^[a-z]/`; the two other tests of the source follow from it. */
  predicate IsTopLevel(line: string) {
    line != "" && 'a' <= line[0] <= 'z'
  }

  /** `/^\s{N,}KEY\s*:/` */
  predicate HasIndentedKey(line: string, least: nat, key: string) {
    Lead(line) >= least && AfterKey(TrimStart(EcmaScript, line), key).Some?
  }

  predicate IsIdChar(c: char) {
    'A' <= c <= 'Z' || 'a' <= c <= 'z' || '0' <= c <= '9' || c == '.' || c == '_' || c == ':' || c == '/' || c == '-'
  }

  function IdRun(t: string): (n: nat)
    ensures n <= |t|
  {
    if t != "" && IsIdChar(t[0]) then 1 + IdRun(t[1..]) else 0
  }

  /** `\s*:\s*(?:#.*)?$` */
  predicate IsIdTail(r: string) {
    var u := TrimStart(EcmaScript, r);
    u != "" && u[0] == ':' &&
    var v := TrimStart(EcmaScript, u[1..]);
    v == "" || (v[0] == '#' && !HasTerminator(v))
  }

  /** The greedy group of the model pattern, giving back one character at a time. */
  function IdGroup(t: string, k: nat): Option<string>
    requires k <= |t|
  {
    if k == 0 then None
    else if IsIdTail(t[k..]) then Some(t[..k])
    else IdGroup(t, k - 1)
  }

  /** `/^\s{4,}([A-Za-z0-9._:/-]+)\s*:\s*(?:#.*)?$/` */
  function ModelId(line: string): Option<string> {
    var t := TrimStart(EcmaScript, line);
    if Lead(line) < 4 then None else IdGroup(t, IdRun(t))
  }

  /** `/^\s{6,}(context_length|max_tokens|api_mode)\s*:/` */
  predicate IsNestedField(line: string) {
    HasIndentedKey(line, 6, "context_length") || HasIndentedKey(line, 6, "max_tokens") ||
    HasIndentedKey(line, 6, "api_mode")
  }

  function WordRun(t: string): (n: nat)
    ensures n <= |t|
  {
    if t != "" && ('a' <= t[0] <= 'z' || t[0] == '_') then 1 + WordRun(t[1..]) else 0
  }

  /** `/^\s{2,}[a-z_]+\s*:/` */
  predicate IsIndentedField(line: string) {
    var t := TrimStart(EcmaScript, line);
    Lead(line) >= 2 && WordRun(t) > 0 && AfterKey(t[WordRun(t)..], "").Some?
  }

  /** Everything the scanner looks at in a line. */
  datatype Facts = Facts(
    header: bool, nameItem: bool, name: Option<string>, topLevel: bool,
    modelsHead: bool, modelId: Option<string>, nested: bool, indentedField: bool, deep: bool,
    baseUrl: Option<string>, model: Option<string>, keyEnv: Option<string>, apiMode: Option<string>)

  function FactsOf(line: string): Facts {
    Facts(IsHeader(line), IsNameItem(line), NameValue(line), IsTopLevel(line),
          HasIndentedKey(line, 2, "models"), ModelId(line), IsNestedField(line), IsIndentedField(line), Lead(line) >= 4,
          Field(line, "base_url"), Field(line, "model"), Field(line, "key_env"), Field(line, "api_mode"))
  }

  // ---------------------------------------------------------------- the scanner

  datatype Scan = Scan(inCustom: bool, current: Option<Entry>, inModels: bool, result: seq<Entry>)

  const START := Scan(false, None, false, [])

  predicate IsComplete(e: Entry) {
    Trim(EcmaScript, e.name) != "" && Trim(EcmaScript, e.baseUrl) != ""
  }

  /** `finish()` */
  function Finish(s: Scan): Scan {
    Scan(s.inCustom, None, false,
         if s.current.Some? && IsComplete(s.current.value) then s.result + [s.current.value] else s.result)
  }

  function Or(v: Option<string>, was: string): string {
    if v.Some? then v.value else was
  }

  function WithFields(e: Entry, f: Facts): Entry {
    e.(baseUrl := Or(f.baseUrl, e.baseUrl), model := Or(f.model, e.model),
       keyEnv := Or(f.keyEnv, e.keyEnv), apiMode := Or(f.apiMode, e.apiMode))
  }

  function WithExtra(e: Entry, id: string): Entry {
    if Trim(EcmaScript, id) == "" || Trim(EcmaScript, id) in e.extraModels then e
    else e.(extraModels := e.extraModels + [Trim(EcmaScript, id)])
  }

  /** One turn of the scanning loop. */
  function Step(s: Scan, f: Facts): Scan {
    if f.header then s.(inCustom := true)
    else if !s.inCustom then s
    else if f.nameItem then
      Finish(s).(current := Some(Entry(Or(f.name, ""), "", "", "", [], "")))
    else if f.topLevel then Finish(s).(inCustom := false)
    else if s.current.None? then s
    else if f.modelsHead then s.(inModels := true)
    else
      var e := s.current.value;
      if s.inModels then
        var e1 := if !f.nested && f.modelId.Some? then WithExtra(e, f.modelId.value) else e;
        var still := f.nested || f.modelId.Some? || !f.indentedField || f.deep;
        Scan(true, Some(if !still || !f.deep then WithFields(e1, f) else e1), still, s.result)
      else Scan(true, Some(WithFields(e, f)), false, s.result)
  }

  function ScanFacts(s: Scan, facts: seq<Facts>): Scan
    decreases |facts|
  {
    if facts == [] then s else ScanFacts(Step(s, facts[0]), facts[1..])
  }

  function AllFacts(lines: seq<string>): (r: seq<Facts>)
    ensures |r| == |lines|
  {
    seq(|lines|, i requires 0 <= i < |lines| => FactsOf(lines[i]))
  }

  /** `parseCustomProviderModelEntries` */
  function Parse(content: string): seq<Entry> {
    Finish(ScanFacts(START, AllFacts(SplitLines(content)))).result
  }

  // ---------------------------------------------------------------- the renderer

  function Extras(e: Entry, ids: seq<string>): seq<string> {
    if ids == [] then []
    else (if ids[0] != "" && ids[0] != e.model then [ids[0]] else []) + Extras(e, ids[1..])
  }

  function OptionalLine(key: string, value: string): seq<string> {
    if value == "" then [] else ["  " + key + ": " + Quote(value)]
  }

  function IdLines(ids: seq<string>): (r: seq<string>)
    ensures |r| == |ids|
  {
    seq(|ids|, i requires 0 <= i < |ids| => "    " + (ids[i] + ":"))
  }

  function EntryLines(e: Entry): (r: seq<string>)
    ensures r != []
  {
    var extras := Extras(e, e.extraModels);
    ["- name: " + Quote(e.name), "  base_url: " + Quote(e.baseUrl)] +
    OptionalLine("key_env", e.keyEnv) + OptionalLine("api_mode", e.apiMode) + OptionalLine("model", e.model) +
    (if extras == [] then [] else ["  models:"] + IdLines(extras))
  }

  function AllEntryLines(entries: seq<Entry>): seq<string> {
    if entries == [] then [] else EntryLines(entries[0]) + AllEntryLines(entries[1..])
  }

  /** `renderCustomProvidersBlock` */
  function Render(entries: seq<Entry>): string {
    if entries == [] then "" else Join(["custom_providers:"] + AllEntryLines(entries), "\n") + "\n"
  }

  // ---------------------------------------------------------------- the span

  /** A line that stays inside the list: blank, indented, or a list item. */
  predicate StaysInList(text: string) {
    IsBlank(text) || text[0] == ' ' || text[0] == '\t' ||
    var t := TrimStart(EcmaScript, text);
    t != "" && t[0] == '-' && |t| > 1 && IsSpace(EcmaScript, t[1])
  }

  /** Length of the leading lines that stay inside the list. */
  function BodyLength(s: string): (n: nat)
    ensures n <= |s|
    decreases |s|
  {
    var n := LineLength(s);
    if s == "" || !StaysInList(Chomp(s[..n])) then 0 else n + BodyLength(s[n..])
  }

  /** `findCustomProvidersSpan` */
  function FindSpan(content: string): (r: Option<(nat, nat)>)
    ensures r.Some? ==> r.value.0 <= r.value.1 <= |content|
  {
    var start := FindHeader(content, "custom_providers");
    if start.None? then None
    else
      var body := start.value + HeaderLength(content[start.value..], "custom_providers").value;
      Some((start.value, body + BodyLength(content[body..])))
  }

  /** `writeCustomProvidersBlock`: the new text of the file. */
  function Write(content: string, entries: seq<Entry>): string {
    var block := Render(entries);
    var span := FindSpan(content);
    if span.Some? then content[..span.value.0] + block + content[span.value.1..]
    else if block == "" then content
    else content + Separator(content) + block
  }

  // ---------------------------------------------------------------- the edits

  /** `apiMode?: string | null` */
  datatype ModeChange = Keep | Clear | Put(mode: string)

  datatype Input = Input(name: string, baseUrl: string, keyEnv: string, model: string, apiMode: ModeChange)

  function DropSlashes(s: string): string {
    if s != "" && s[|s| - 1] == '/' then DropSlashes(s[..|s| - 1]) else s
  }

  function NormUrl(url: string): string {
    Lower(DropSlashes(Trim(EcmaScript, url)))
  }

  /** Index of the first entry with a name and, when one is given, a URL; the length when there is none. */
  function FindEntry(entries: seq<Entry>, name: string, url: Option<string>): (i: nat)
    ensures i <= |entries|
    ensures i < |entries| ==> entries[i].name == name
  {
    if entries == [] || (entries[0].name == name && (url.None? || NormUrl(entries[0].baseUrl) == url.value)) then 0
    else 1 + FindEntry(entries[1..], name, url)
  }

  function ModeAfter(was: string, change: ModeChange): string {
    match change
    case Keep => was
    case Clear => ""
    case Put(mode) => if mode == "" then was else Trim(EcmaScript, mode)
  }

  /** The list after an upsert, or nothing when the call returns without writing. */
  function Upserted(entries: seq<Entry>, input: Input): Option<seq<Entry>> {
    var name, baseUrl, model :=
      Trim(EcmaScript, input.name), Trim(EcmaScript, input.baseUrl), Trim(EcmaScript, input.model);
    var keyEnv := Trim(EcmaScript, input.keyEnv);
    if name == "" || baseUrl == "" || model == "" then None
    else
      var exact := FindEntry(entries, name, Some(NormUrl(baseUrl)));
      var i := if exact < |entries| then exact else FindEntry(entries, name, None);
      if i == |entries| then Some(entries + [Entry(name, baseUrl, keyEnv, model, [], ModeAfter("", input.apiMode))])
      else
        var e := entries[i];
        // The fields are assigned before they are compared, so a known model writes nothing.
        if e.model == model || model in e.extraModels then None
        else
          var e1 := e.(baseUrl := baseUrl, keyEnv := if keyEnv != "" then keyEnv else e.keyEnv,
                       apiMode := ModeAfter(e.apiMode, input.apiMode));
          Some(entries[i := if e.model == "" then e1.(model := model) else e1.(extraModels := e.extraModels + [model])])
  }

  function Without(ids: seq<string>, id: string): seq<string> {
    if ids == [] then [] else (if ids[0] == id then [] else [ids[0]]) + Without(ids[1..], id)
  }

  /** The list after a removal, or nothing when the call returns without writing. */
  function Removed(entries: seq<Entry>, name0: string, model0: string, baseUrl: string): Option<seq<Entry>> {
    var name, model := Trim(EcmaScript, name0), Trim(EcmaScript, model0);
    if name == "" || model == "" then None
    else
      // An URL that normalizes to nothing matches every entry of that name.
      var url := if NormUrl(baseUrl) == "" then None else Some(NormUrl(baseUrl));
      var i := FindEntry(entries, name, url);
      if i == |entries| then None
      else
        var e := entries[i];
        Some(entries[i :=
          if e.model != model then e.(extraModels := Without(e.extraModels, model))
          else if e.extraModels == [] then e.(model := "")
          else e.(model := e.extraModels[0], extraModels := e.extraModels[1..])])
  }

  /** `upsertAgentCustomProviderModel` on the text of the file. */
  function UpsertText(content: string, input: Input): string {
    var next := Upserted(Parse(content), input);
    if next.None? then content else Write(content, next.value)
  }

  /** `removeAgentCustomProviderModel` on the text of the file. */
  function RemoveText(content: string, name: string, model: string, baseUrl: string): string {
    var next := Removed(Parse(content), name, model, baseUrl);
    if next.None? then content else Write(content, next.value)
  }
}
