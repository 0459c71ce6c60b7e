/**
 * `custom_providers:` blocks as people write them: fields in any order and more than once, fields nobody reads, a
 * `models:` map with settings below its models, comments and blank lines. What is written is what is listed.
 */
module CustomProvidersWritten {
  import opened Text
  import opened ConfigScalars
  import opened CustomProviders
  import opened CustomProvidersLines
  import opened CustomProvidersRefinement

  /** A key, and the text behind its colon. */
  datatype Pair = Pair(key: string, raw: string)

  /** A model with the settings below it. */
  datatype Model = Model(id: string, settings: seq<Pair>)

  /** An entry: the text behind `name:`, its fields, and perhaps a `models:` map with further fields behind it. */
  datatype Written = Written(name: string, head: seq<Pair>, models: Option<seq<Model>>, tail: seq<Pair>)

  /** The white space before each kind of line, and behind the dash. */
  datatype Style = Style(item: string, gap: string, field: string, models: string, id: string, setting: string)

  // ---------------------------------------------------------------- what may be written

  predicate IsSpaces(s: string) {
    forall i :: 0 <= i < |s| ==> IsSpace(EcmaScript, s[i])
  }

  predicate IsStyle(t: Style) {
    IsSpaces(t.item) && IsSpaces(t.gap) && IsSpaces(t.field) && IsSpaces(t.models) && IsSpaces(t.id) &&
    IsSpaces(t.setting) && |t.field| >= 1 && |t.models| >= 2 && |t.id| >= 4 && |t.setting| >= 4
  }

  predicate IsWord(key: string) {
    key != "" && forall i :: 0 <= i < |key| ==> 'a' <= key[i] <= 'z' || key[i] == '_'
  }

  predicate IsPair(p: Pair) {
    IsWord(p.key) && p.key !in {"custom_providers", "models"} && !HasTerminator(p.raw)
  }

  const SETTINGS := {"context_length", "max_tokens", "api_mode"}

  /** White space, then a text that is no comment. */
  predicate HasValue(raw: string) {
    raw != "" && IsSpace(EcmaScript, raw[0]) &&
    var v := TrimStart(EcmaScript, raw);
    v != "" && v[0] != '#' && v[0] != ':'
  }

  /** Deeper than four columns only a line with a value is sure not to be read as another model. */
  predicate IsSetting(p: Pair, indent: nat) {
    IsPair(p) && (HasValue(p.raw) || (indent >= 6 && p.key in SETTINGS))
  }

  /** Letters, digits and `._:/-`, not like one of the keywords of the list. */
  predicate IsId(id: string) {
    id != "" && !IsKeywordLike(id) && forall i :: 0 <= i < |id| ==>
      'a' <= id[i] <= 'z' || 'A' <= id[i] <= 'Z' || '0' <= id[i] <= '9' || id[i] in "._:/-"
  }

  predicate IsModel(m: Model, t: Style) {
    IsId(m.id) && (|t.id| >= 6 ==> forall k :: k in SETTINGS ==> !OpensWith(m.id, k)) &&
    forall i :: 0 <= i < |m.settings| ==> IsSetting(m.settings[i], |t.setting|)
  }

  predicate IsWritten(w: Written, t: Style) {
    !HasTerminator(w.name) && (forall i :: 0 <= i < |w.head| ==> IsPair(w.head[i])) &&
    (w.models.Some? ==> forall i :: 0 <= i < |w.models.value| ==> IsModel(w.models.value[i], t)) &&
    (w.models.None? ==> w.tail == []) &&
    forall i :: 0 <= i < |w.tail| ==> if |t.field| < 4 then IsPair(w.tail[i]) else IsSetting(w.tail[i], |t.field|)
  }

  // ---------------------------------------------------------------- what it means

  /** The last value of a key, empty when there is none. */
  function LastOf(pairs: seq<Pair>, key: string): string {
    if pairs == [] then ""
    else if pairs[|pairs| - 1].key == key then StripScalar(pairs[|pairs| - 1].raw)
    else LastOf(pairs[..|pairs| - 1], key)
  }

  /** Models in order, each once. */
  function IdsOf(models: seq<Model>): seq<string> {
    if models == [] then []
    else
      var ids, id := IdsOf(models[..|models| - 1]), models[|models| - 1].id;
      if id in ids then ids else ids + [id]
  }

  /** The fields that count: those behind the map count only when they are less than four columns deep. */
  function Counted(w: Written, t: Style): seq<Pair> {
    w.head + if |t.field| < 4 then w.tail else []
  }

  function EntryOf(name: string, fields: seq<Pair>, ids: seq<string>): Entry {
    Entry(StripScalar(name), LastOf(fields, "base_url"), LastOf(fields, "key_env"), LastOf(fields, "model"), ids,
          LastOf(fields, "api_mode"))
  }

  function AsEntry(w: Written, t: Style): Entry {
    EntryOf(w.name, Counted(w, t), if w.models.Some? then IdsOf(w.models.value) else [])
  }

  /** An entry without a name or an endpoint is not listed. */
  function AsEntries(ws: seq<Written>, t: Style): seq<Entry> {
    if ws == [] then []
    else
      var e := AsEntry(ws[|ws| - 1], t);
      AsEntries(ws[..|ws| - 1], t) +
      if Trim(EcmaScript, e.name) == "" || Trim(EcmaScript, e.baseUrl) == "" then [] else [e]
  }

  // ---------------------------------------------------------------- how it is written

  function PairLines(pad: string, pairs: seq<Pair>): seq<string> {
    seq(|pairs|, i requires 0 <= i < |pairs| => pad + (pairs[i].key + (":" + pairs[i].raw)))
  }

  function ModelLines(models: seq<Model>, t: Style): seq<string> {
    if models == [] then []
    else
      var m := models[|models| - 1];
      ModelLines(models[..|models| - 1], t) + ([t.id + (m.id + ":")] + PairLines(t.setting, m.settings))
  }

  function Lines(w: Written, t: Style): seq<string> {
    [t.item + ("-" + (t.gap + ("name:" + w.name)))] + PairLines(t.field, w.head) +
    if w.models.None? then []
    else [t.models + "models:"] + ModelLines(w.models.value, t) + PairLines(t.field, w.tail)
  }

  function AllLines(ws: seq<Written>, t: Style): seq<string> {
    if ws == [] then [] else AllLines(ws[..|ws| - 1], t) + Lines(ws[|ws| - 1], t)
  }

  // ---------------------------------------------------------------- what the scanner sees in a line

  lemma NoSpaceInside()
    ensures !IsSpace(EcmaScript, ':') && !IsSpace(EcmaScript, '-') && !IsSpace(EcmaScript, '#')
    ensures !IsSpace(EcmaScript, '_') && forall c :: 'a' <= c <= 'z' ==> !IsSpace(EcmaScript, c)
  {
  }

  lemma PaddedShape(pad: string, body: string)
    requires IsSpaces(pad) && body != "" && !IsSpace(EcmaScript, body[0])
    ensures TrimStart(EcmaScript, pad + body) == body && Lead(pad + body) == |pad|
  {
    hide IsSpace;
    TrimStartOfPadded(EcmaScript, pad, body);
  }

  /** A key of small letters is found as itself and as nothing else. */
  lemma WordKey(key: string, raw: string, k: string)
    requires IsWord(key) && IsWord(k)
    ensures AfterKey(key + (":" + raw), k) == if k == key then Some(raw) else None
  {
    hide IsSpace, TrimStart;
    NoSpaceInside();
    var body := key + (":" + raw);
    assert body[..|key|] == key && body[|key|] == ':';
    if StartsWith(body, k) {
      var u := body[|k|..];
      assert u[0] == if |k| < |key| then key[|k|] else ':';
      TrimStartOfUnpadded(EcmaScript, u);
      if |k| < |key| {
        assert k != key;
      } else {
        assert k == body[..|k|] == key && u[1..] == raw;
      }
    }
  }

  lemma PairValue(raw: string)
    requires !HasTerminator(raw)
    ensures FieldValue(raw) == Some(StripScalar(raw))
  {
    hide IsSpace, TrimStart, TrimEnd;
    var v := TrimStart(EcmaScript, raw);
    TrimStartShape(EcmaScript, raw);
    assert !HasTerminator(v);
    TrimStartOfUnpadded(EcmaScript, v);
    SameStrip(raw, v);
  }

  lemma SameStrip(a: string, b: string)
    requires Trim(EcmaScript, a) == Trim(EcmaScript, b)
    ensures StripScalar(a) == StripScalar(b)
  {
    hide Trim;
  }

  /** How a field reads. */
  ghost predicate ReadsAs(f: Facts, p: Pair, pad: nat) {
    var v := StripScalar(p.raw);
    !f.header && !f.nameItem && !f.topLevel && !f.modelsHead && f.deep == (pad >= 4) &&
    f.baseUrl == (if p.key == "base_url" then Some(v) else None) &&
    f.model == (if p.key == "model" then Some(v) else None) &&
    f.keyEnv == (if p.key == "key_env" then Some(v) else None) &&
    f.apiMode == (if p.key == "api_mode" then Some(v) else None) &&
    (f.nested <==> pad >= 6 && p.key in SETTINGS) && (pad < 4 ==> f.modelId.None?)
  }

  lemma PairReads(pad: string, p: Pair)
    requires IsSpaces(pad) && |pad| >= 1 && IsPair(p)
    ensures ReadsAs(FactsOf(pad + (p.key + (":" + p.raw))), p, |pad|)
  {
    hide IsSpace, TrimStart, AfterKey, FieldValue, IdGroup, HasTerminator, StripScalar;
    NoSpaceInside();
    var body := p.key + (":" + p.raw);
    var line := pad + body;
    PaddedShape(pad, body);
    assert body[0] == p.key[0] != '-';
    PairValue(p.raw);
    KeysOfPair(p);
    NoName(line);
    assert line[0] == pad[0];
  }

  lemma NoName(line: string)
    requires TrimStart(EcmaScript, line) != "" && TrimStart(EcmaScript, line)[0] != '-'
    ensures !IsNameItem(line)
  {
  }

  lemma KeysOfPair(p: Pair)
    requires IsPair(p)
    ensures var body := p.key + (":" + p.raw);
            AfterKey(body, "custom_providers").None? && AfterKey(body, "models").None? &&
            AfterKey(body, "base_url") == (if p.key == "base_url" then Some(p.raw) else None) &&
            AfterKey(body, "model") == (if p.key == "model" then Some(p.raw) else None) &&
            AfterKey(body, "key_env") == (if p.key == "key_env" then Some(p.raw) else None) &&
            AfterKey(body, "api_mode") == (if p.key == "api_mode" then Some(p.raw) else None) &&
            AfterKey(body, "context_length").Some? == (p.key == "context_length") &&
            AfterKey(body, "max_tokens").Some? == (p.key == "max_tokens")
  {
    hide AfterKey;
    forall k | k in {"custom_providers", "models", "base_url", "model", "key_env", "api_mode", "context_length",
                     "max_tokens"}
      ensures AfterKey(p.key + (":" + p.raw), k) == if k == p.key then Some(p.raw) else None
    {
      WordKey(p.key, p.raw, k);
    }
  }

  lemma {:induction false} NoIdGroup(key: string, raw: string, k: nat)
    requires IsWord(key) && HasValue(raw) && k <= |key| + 1
    ensures IdGroup(key + (":" + raw), k).None?
  {
    hide IsSpace, TrimStart;
    if k > 0 {
      var rest := (key + (":" + raw))[k..];
      NoSpaceInside();
      if k == |key| + 1 {
        assert rest == raw;
      } else {
        assert rest[0] == if k == |key| then ':' else key[k];
        TrimStartOfUnpadded(EcmaScript, rest);
        assert k == |key| ==> rest[1..] == raw;
      }
      NoIdGroup(key, raw, k - 1);
    }
  }

  lemma RunOfWord(key: string, raw: string)
    requires IsWord(key) && HasValue(raw)
    ensures IdRun(key + (":" + raw)) == |key| + 1
  {
    hide IdRun, TrimStart;
    var body := key + (":" + raw);
    IdRunStops(body);
    assert forall i :: 0 <= i < |key| ==> body[i] == key[i];
    assert body[|key|] == ':' && body[|key| + 1] == raw[0];
    assert !IsIdChar(raw[0]);
  }

  /** A setting is read as no model. */
  lemma SettingReads(pad: string, p: Pair)
    requires IsSpaces(pad) && |pad| >= 4 && IsSetting(p, |pad|)
    ensures var f := FactsOf(pad + (p.key + (":" + p.raw))); ReadsAs(f, p, |pad|) && (f.nested || f.modelId.None?)
  {
    hide IsSpace, TrimStart, AfterKey, FieldValue, IdGroup, IdRun, HasTerminator, StripScalar, FactsOf, HasValue;
    PairReads(pad, p);
    if HasValue(p.raw) {
      NoSpaceInside();
      PaddedShape(pad, p.key + (":" + p.raw));
      NoIdGroup(p.key, p.raw, |p.key| + 1);
      RunOfWord(p.key, p.raw);
      FactsParts(pad + (p.key + (":" + p.raw)));
    }
  }

  lemma IdIsReadable(id: string)
    requires IsId(id)
    ensures IdSurvives(id)
  {
  }

  lemma IdReads(pad: string, id: string)
    requires IsSpaces(pad) && |pad| >= 4 && IdSurvives(id)
    requires |pad| >= 6 ==> forall k :: k in SETTINGS ==> !OpensWith(id, k)
    ensures ReadsAsModel(FactsOf(pad + (id + ":")), id)
  {
    hide IsSpace, TrimStart, AfterKey, IdGroup, IdRun, FactsOf, OpensWith, IsIdChar;
    var body := id + ":";
    var line := pad + body;
    IdCharsAreNoSpaces(id);
    PaddedShape(pad, body);
    NameItemShape(line, id, body);
    IdOfPlainLine(id, body);
    forall k | k in SETTINGS + {"custom_providers", "models"} ensures AfterKey(body, k).Some? <==> OpensWith(id, k) {
      assert k != "";
      KeyAtColon(id, k, body);
    }
    FactsParts(line);
    assert !IsTopLevel(line) by { assert IsSpace(EcmaScript, line[0]); NoSpaceInside(); }
  }

  lemma {:induction false} NamePast(before: string, rest: string)
    requires forall i :: 0 <= i < |before| ==> before[i] != 'n'
    ensures NameValue(before + rest) == NameValue(rest)
  {
    hide NameValue;
    if before == "" {
      assert before + rest == rest;
    } else {
      assert (before + rest)[1..] == before[1..] + rest;
      NameLater(before + rest);
      NamePast(before[1..], rest);
    }
  }

  lemma NameReads(t: Style, raw: string)
    requires IsStyle(t) && !HasTerminator(raw)
    ensures var f := FactsOf(t.item + ("-" + (t.gap + ("name:" + raw))));
            !f.header && f.nameItem && f.name == Some(StripScalar(raw))
  {
    hide IsSpace, TrimStart, AfterKey, FieldValue, NameValue, HasTerminator, StripScalar, ModelId;
    NoSpaceInside();
    var named := "name:" + raw;
    var body := "-" + (t.gap + named);
    var line := t.item + body;
    PaddedShape(t.item, body);
    PaddedShape(t.gap, named);
    assert body[1..] == t.gap + named;
    assert named == "name" + ":" + raw;
    OwnKey("name", raw);
    OtherKey(body, "custom_providers");
    PairValue(raw);
    NameFound(named, StripScalar(raw));
    assert line == t.item + ("-" + t.gap) + named;
    assert forall i :: 0 <= i < |t.item + ("-" + t.gap)| ==> (t.item + ("-" + t.gap))[i] != 'n';
    NamePast(t.item + ("-" + t.gap), named);
  }

  lemma ModelsReads(pad: string)
    requires IsSpaces(pad) && |pad| >= 2
    ensures var f := FactsOf(pad + "models:"); !f.header && !f.nameItem && !f.topLevel && f.modelsHead
  {
    hide IsSpace, TrimStart, AfterKey, FieldValue, NameValue, ModelId;
    NoSpaceInside();
    var body := "models:";
    assert body == "models" + ":" + "";
    PaddedShape(pad, body);
    OwnKey("models", "");
    OtherKey(body, "custom_providers");
    assert IsSpace(EcmaScript, (pad + body)[0]);
  }

  lemma HeaderReads(rest: string)
    ensures FactsOf("custom_providers:" + rest).header
  {
    hide IsSpace, TrimStart, AfterKey, FieldValue, NameValue, ModelId;
    NoSpaceInside();
    var body := "custom_providers:" + rest;
    assert body == "custom_providers" + ":" + rest && "" + body == body;
    PaddedShape("", body);
    OwnKey("custom_providers", rest);
  }

  // ---------------------------------------------------------------- scanning entries

  /** Inside the block, at an entry, with these entries before it. */
  predicate IsAt(s: Scan, e: Entry, result: seq<Entry>) {
    s.inCustom && s.current == Some(e) && s.result == result
  }

  lemma StepPair(s: Scan, f: Facts, p: Pair, pad: nat, name: string, done: seq<Pair>, ids: seq<string>)
    requires ReadsAs(f, p, pad) && IsAt(s, EntryOf(name, done, ids), s.result) && (pad < 4 || !s.inModels)
    ensures IsAt(Step(s, f), EntryOf(name, done + [p], ids), s.result) && (!s.inModels ==> !Step(s, f).inModels)
  {
    hide StripScalar;
    assert (done + [p])[..|done|] == done;
  }

  lemma StepSetting(s: Scan, f: Facts, p: Pair, pad: nat)
    requires ReadsAs(f, p, pad) && (f.nested || f.modelId.None?) && pad >= 4
    requires s.inCustom && s.current.Some? && s.inModels
    ensures Step(s, f) == s
  {
    hide StripScalar;
  }

  lemma StepModel(s: Scan, f: Facts, e: Entry, id: string)
    requires ReadsAsModel(f, id) && IdSurvives(id) && IsAt(s, e, s.result) && s.inModels
    ensures Step(s, f) ==
            s.(current := Some(if id in e.extraModels then e else e.(extraModels := e.extraModels + [id])))
  {
    hide IdSurvives;
    IdIsTight(id);
    TrimIsIdentityOnTight(EcmaScript, id);
  }

  lemma {:induction false} ScanPairs(s: Scan, pad: string, name: string, done: seq<Pair>, pairs: seq<Pair>,
                                     ids: seq<string>) returns (r: Scan)
    requires IsSpaces(pad) && |pad| >= 1 && (forall i :: 0 <= i < |pairs| ==> IsPair(pairs[i]))
    requires IsAt(s, EntryOf(name, done, ids), s.result) && (|pad| < 4 || !s.inModels)
    ensures r == ScanFacts(s, AllFacts(PairLines(pad, pairs)))
    ensures IsAt(r, EntryOf(name, done + pairs, ids), s.result) && (!s.inModels ==> !r.inModels)
    decreases |pairs|
  {
    hide FactsOf, EntryOf, IsPair, AllFacts, Step, IsSpaces, ReadsAs;
    if pairs == [] {
      assert done + pairs == done;
      NothingToScan(s);
      r := s;
    } else {
      var p := pairs[0];
      var line := pad + (p.key + (":" + p.raw));
      PairReads(pad, p);
      StepPair(s, FactsOf(line), p, |pad|, name, done, ids);
      assert done + [p] + pairs[1..] == done + pairs;
      r := ScanPairs(Step(s, FactsOf(line)), pad, name, done + [p], pairs[1..], ids);
      ScanOne(s, line);
      assert PairLines(pad, pairs) == [line] + PairLines(pad, pairs[1..]);
      ScanTwo(s, [line], PairLines(pad, pairs[1..]));
    }
  }

  lemma {:induction false} ScanSettings(s: Scan, pad: string, pairs: seq<Pair>)
    requires IsSpaces(pad) && |pad| >= 4 && (forall i :: 0 <= i < |pairs| ==> IsSetting(pairs[i], |pad|))
    requires s.inCustom && s.current.Some? && s.inModels
    ensures ScanFacts(s, AllFacts(PairLines(pad, pairs))) == s
    decreases |pairs|
  {
    hide FactsOf, IsSetting, AllFacts, Step, IsSpaces, ReadsAs;
    if pairs == [] {
      NothingToScan(s);
    } else {
      var p := pairs[0];
      var line := pad + (p.key + (":" + p.raw));
      SettingReads(pad, p);
      StepSetting(s, FactsOf(line), p, |pad|);
      ScanSettings(s, pad, pairs[1..]);
      ScanOne(s, line);
      assert PairLines(pad, pairs) == [line] + PairLines(pad, pairs[1..]);
      ScanTwo(s, [line], PairLines(pad, pairs[1..]));
    }
  }

  lemma {:induction false} ScanModels(s: Scan, t: Style, e: Entry, models: seq<Model>)
    requires IsStyle(t) && (forall i :: 0 <= i < |models| ==> IsModel(models[i], t))
    requires IsAt(s, e, s.result) && s.inModels && e.extraModels == []
    ensures ScanFacts(s, AllFacts(ModelLines(models, t))) == s.(current := Some(e.(extraModels := IdsOf(models))))
    decreases |models|
  {
    hide FactsOf, AllFacts, ScanFacts, Step, IsSpaces, IdSurvives, IsId, OpensWith, IsSetting, PairLines;
    if models == [] {
      NothingToScan(s);
    } else {
      var before, m := models[..|models| - 1], models[|models| - 1];
      assert IsModel(m, t);
      IdIsReadable(m.id);
      ScanModels(s, t, e, before);
      var at := s.(current := Some(e.(extraModels := IdsOf(before))));
      var line := t.id + (m.id + ":");
      IdReads(t.id, m.id);
      StepModel(at, FactsOf(line), e.(extraModels := IdsOf(before)), m.id);
      var next := Step(at, FactsOf(line));
      ScanSettings(next, t.setting, m.settings);
      ScanOne(at, line);
      ScanTwo(at, [line], PairLines(t.setting, m.settings));
      ScanTwo(s, ModelLines(before, t), [line] + PairLines(t.setting, m.settings));
    }
  }

  lemma {:induction false} ScanWritten(s: Scan, t: Style, w: Written) returns (r: Scan)
    requires IsStyle(t) && IsWritten(w, t) && s.inCustom
    ensures r == ScanFacts(s, AllFacts(Lines(w, t))) && IsAt(r, AsEntry(w, t), Finish(s).result)
  {
    hide FactsOf, AllFacts, ScanFacts, Step, IsSpaces, IsPair, IsModel, IsSetting, PairLines, ModelLines, EntryOf,
         IdsOf;
    var first := t.item + ("-" + (t.gap + ("name:" + w.name)));
    NameReads(t, w.name);
    var begun := StepName(s, FactsOf(first), w.name);
    ScanOne(s, first);
    r := ScanPairs(begun, t.field, w.name, [], w.head, []);
    assert [] + w.head == w.head;
    ScanTwo(s, [first], PairLines(t.field, w.head));
    var start := [first] + PairLines(t.field, w.head);
    if w.models.None? {
      assert Counted(w, t) == w.head && Lines(w, t) == start;
    } else {
      var after := ScanMap(r, t, w);
      var rest := [t.models + "models:"] + ModelLines(w.models.value, t) + PairLines(t.field, w.tail);
      ScanTwo(s, start, rest);
      assert Lines(w, t) == start + rest;
      r := after;
    }
  }

  lemma StepName(s: Scan, f: Facts, name: string) returns (r: Scan)
    requires s.inCustom && !f.header && f.nameItem && f.name == Some(StripScalar(name))
    ensures r == Step(s, f) == Scan(true, Some(EntryOf(name, [], [])), false, Finish(s).result)
  {
    hide StripScalar, IsComplete;
    r := Step(s, f);
  }

  /** The `models:` map of an entry and the fields behind it. */
  lemma ScanMap(s: Scan, t: Style, w: Written) returns (r: Scan)
    requires IsStyle(t) && IsWritten(w, t) && w.models.Some?
    requires IsAt(s, EntryOf(w.name, w.head, []), s.result)
    ensures r == ScanFacts(s, AllFacts([t.models + "models:"] + ModelLines(w.models.value, t) +
                                       PairLines(t.field, w.tail)))
    ensures IsAt(r, AsEntry(w, t), s.result)
  {
    hide FactsOf, AllFacts, ScanFacts, IsSpaces, IsPair, IsModel, IsSetting, PairLines, ModelLines, IdsOf, LastOf,
         StripScalar;
    var e, ids := EntryOf(w.name, w.head, []), IdsOf(w.models.value);
    var line := t.models + "models:";
    ModelsReads(t.models);
    ScanOne(s, line);
    var inside := s.(inModels := true);
    ScanModels(inside, t, e, w.models.value);
    ScanTwo(s, [line], ModelLines(w.models.value, t));
    var listed := inside.(current := Some(e.(extraModels := ids)));
    ScanTwo(s, [line] + ModelLines(w.models.value, t), PairLines(t.field, w.tail));
    if |t.field| < 4 {
      r := ScanPairs(listed, t.field, w.name, w.head, w.tail, ids);
    } else {
      ScanSettings(listed, t.field, w.tail);
      assert w.head + [] == w.head;
      r := listed;
    }
  }

  lemma {:induction false} ScanAll(s: Scan, t: Style, ws: seq<Written>)
    requires IsStyle(t) && (forall i :: 0 <= i < |ws| ==> IsWritten(ws[i], t)) && s.inCustom
    ensures var r := ScanFacts(s, AllFacts(AllLines(ws, t)));
            r.inCustom && Finish(r).result == Finish(s).result + AsEntries(ws, t)
    decreases |ws|
  {
    hide FactsOf, AllFacts, ScanFacts, Step, IsStyle, IsWritten, Lines, AsEntry;
    if ws == [] {
      NothingToScan(s);
    } else {
      var before, w := ws[..|ws| - 1], ws[|ws| - 1];
      ScanAll(s, t, before);
      var r := ScanFacts(s, AllFacts(AllLines(before, t)));
      var last := ScanWritten(r, t, w);
      ScanTwo(s, AllLines(before, t), Lines(w, t));
    }
  }

  // ---------------------------------------------------------------- whole files

  /** A blank line or a comment line. */
  predicate IsSilent(line: string) {
    var t := TrimStart(EcmaScript, line);
    t == "" || t[0] == '#'
  }

  function Spoken(lines: seq<string>): seq<string> {
    if lines == [] then [] else (if IsSilent(lines[0]) then [] else [lines[0]]) + Spoken(lines[1..])
  }

  lemma StepSilent(s: Scan, line: string)
    requires IsSilent(line)
    ensures Step(s, FactsOf(line)) == s
  {
    hide IsSpace, TrimStart, FieldValue, NameValue, StripScalar;
    NoSpaceInside();
    var t := TrimStart(EcmaScript, line);
    assert forall k :: k != "" && k[0] != '#' ==> AfterKey(t, k).None?;
    assert IdRun(t) == 0 && WordRun(t) == 0;
    assert !IsTopLevel(line) by { TrimStartShape(EcmaScript, line); }
  }

  lemma {:induction false} ScanSpoken(s: Scan, lines: seq<string>)
    ensures ScanFacts(s, AllFacts(lines)) == ScanFacts(s, AllFacts(Spoken(lines)))
    decreases |lines|
  {
    hide FactsOf, Step, AllFacts, IsSilent;
    if lines != [] {
      assert lines == [lines[0]] + lines[1..];
      ScanTwo(s, [lines[0]], lines[1..]);
      ScanOne(s, lines[0]);
      ScanSpoken(Step(s, FactsOf(lines[0])), lines[1..]);
      if IsSilent(lines[0]) {
        StepSilent(s, lines[0]);
        assert [] + Spoken(lines[1..]) == Spoken(lines[1..]);
      } else {
        ScanTwo(s, [lines[0]], Spoken(lines[1..]));
      }
    }
  }

  /** The key of the list does not stand at the beginning of the line. */
  predicate IsOther(line: string) {
    !StartsWith(TrimStart(EcmaScript, line), "custom_providers")
  }

  lemma OtherIsNoHeader(line: string)
    requires IsOther(line)
    ensures !FactsOf(line).header && !IsHeader(line)
  {
    hide TrimStart;
  }

  lemma {:induction false} ScanOutside(s: Scan, lines: seq<string>)
    requires !s.inCustom && forall i :: 0 <= i < |lines| ==> !IsHeader(lines[i])
    ensures ScanFacts(s, AllFacts(lines)) == s
    decreases |lines|
  {
    hide FactsOf, AllFacts, IsHeader;
    if lines == [] {
      NothingToScan(s);
    } else {
      assert lines == [lines[0]] + lines[1..];
      HeaderFact(lines[0]);
      ScanTwo(s, [lines[0]], lines[1..]);
      ScanOne(s, lines[0]);
      ScanOutside(s, lines[1..]);
    }
  }

  /** The lines behind the list: the next key of small letters, and anything that is not the key of the list. */
  predicate ClosesList(after: seq<string>) {
    (after == [] || (after[0] != "" && 'a' <= after[0][0] <= 'z')) &&
    forall i :: 0 <= i < |after| ==> IsOther(after[i])
  }

  lemma ScanAfter(s: Scan, after: seq<string>)
    requires s.inCustom && ClosesList(after)
    ensures Finish(ScanFacts(s, AllFacts(after))).result == Finish(s).result
  {
    hide FactsOf, AllFacts, IsOther, IsComplete, ScanFacts, IsHeader;
    if after == [] {
      NothingToScan(s);
    } else {
      var line := after[0];
      forall i | 0 <= i < |after| ensures !FactsOf(after[i]).header && !IsHeader(after[i]) {
        assert IsOther(after[i]);
        OtherIsNoHeader(after[i]);
      }
      assert after == [line] + after[1..];
      LetterLine(line);
      ScanTwo(s, [line], after[1..]);
      ScanOne(s, line);
      ScanOutside(Step(s, FactsOf(line)), after[1..]);
    }
  }

  lemma LetterLine(line: string)
    requires line != "" && 'a' <= line[0] <= 'z'
    ensures FactsOf(line).topLevel && !FactsOf(line).nameItem
  {
    hide IsSpace, AfterKey, FieldValue, NameValue, ModelId;
    NoSpaceInside();
    TrimStartOfUnpadded(EcmaScript, line);
  }

  /** What the scanner makes of the lines of a file with one written list. */
  lemma ScanFile(before: seq<string>, rest: string, ws: seq<Written>, t: Style, after: seq<string>)
    requires IsStyle(t) && (forall i :: 0 <= i < |ws| ==> IsWritten(ws[i], t))
    requires (forall i :: 0 <= i < |before| ==> !IsHeader(before[i])) && ClosesList(after)
    ensures Finish(ScanFacts(START,
              AllFacts(before + ["custom_providers:" + rest] + AllLines(ws, t) + after))).result ==
            AsEntries(ws, t)
  {
    hide FactsOf, AllFacts, ScanFacts, IsStyle, IsWritten, AllLines, AsEntries, IsHeader, ClosesList, IsComplete;
    var head := "custom_providers:" + rest;
    var inside := START.(inCustom := true);
    ScanTwo(START, before + [head] + AllLines(ws, t), after);
    ScanTwo(START, before + [head], AllLines(ws, t));
    ScanTwo(START, before, [head]);
    ScanOutside(START, before);
    ScanOne(START, head);
    HeaderReads(rest);
    assert Step(START, FactsOf(head)) == inside;
    ScanAll(inside, t, ws);
    ScanAfter(ScanFacts(inside, AllFacts(AllLines(ws, t))), after);
    assert Finish(inside).result + AsEntries(ws, t) == AsEntries(ws, t);
  }

  /**
   * A list is read as it is written: of a repeated field the last value counts, models count once and in order,
   * settings below a model and unknown fields do not count, nor do fields behind an indented `models:` map, and an
   * entry without a name or an endpoint is left out. Blank lines and comments between make no difference.
   */
  lemma WrittenIsListed(content: string, before: seq<string>, rest: string, ws: seq<Written>, t: Style,
                        after: seq<string>)
    requires IsStyle(t) && (forall i :: 0 <= i < |ws| ==> IsWritten(ws[i], t))
    requires (forall i :: 0 <= i < |before| ==> IsOther(before[i])) && ClosesList(after)
    requires Spoken(SplitLines(content)) == before + ["custom_providers:" + rest] + AllLines(ws, t) + after
    ensures Parse(content) == AsEntries(ws, t)
  {
    hide AllFacts, ScanFacts, IsStyle, IsWritten, AllLines, AsEntries, IsOther, ClosesList, IsComplete, SplitLines;
    ScanSpoken(START, SplitLines(content));
    forall i | 0 <= i < |before| ensures !IsHeader(before[i]) { OtherIsNoHeader(before[i]); }
    ScanFile(before, rest, ws, t, after);
  }
}
