/** The loops and file updates of the custom-provider edits, proved against the functions on texts. */
module CustomProvidersFile {
  import opened Text
  import opened Quoting
  import opened ConfigBlocks
  import opened ConfigFiles
  import opened CustomProviders

  /** `parseCustomProviderModelEntries` */
  method ParseEntries(content: string) returns (result: seq<Entry>)
    ensures result == Parse(content)
  {
    hide FactsOf, IsComplete;
    var lines := SplitLines(content);
    ghost var facts := AllFacts(lines);
    var inCustom, inModels := false, false;
    var current: Option<Entry> := None;
    result := [];
    assert facts[0..] == facts;
    for n := 0 to |lines|
      invariant ScanFacts(Scan(inCustom, current, inModels, result), facts[n..]) == ScanFacts(START, facts)
    {
      ghost var before := Scan(inCustom, current, inModels, result);
      var f := FactsOf(lines[n]);
      ScanStep(before, facts, n);
      if f.header {
        inCustom := true;
        continue;
      }
      if !inCustom {
        continue;
      }
      if f.nameItem {
        if current.Some? && IsComplete(current.value) {
          result := result + [current.value];
        }
        current, inModels := Some(Entry(if f.name.Some? then f.name.value else "", "", "", "", [], "")), false;
        continue;
      }
      if f.topLevel {
        if current.Some? && IsComplete(current.value) {
          result := result + [current.value];
        }
        current, inModels, inCustom := None, false, false;
        continue;
      }
      if current.None? {
        continue;
      }
      if f.modelsHead {
        inModels := true;
        continue;
      }
      var e := current.value;
      if inModels {
        if f.nested {
        } else if f.modelId.Some? {
          var id := Trim(EcmaScript, f.modelId.value);
          if id != "" && id !in e.extraModels {
            e := e.(extraModels := e.extraModels + [id]);
          }
        } else if f.indentedField && !f.deep {
          inModels := false;
        }
      }
      if !inModels || !f.deep {
        if f.baseUrl.Some? { e := e.(baseUrl := f.baseUrl.value); }
        if f.model.Some? { e := e.(model := f.model.value); }
        if f.keyEnv.Some? { e := e.(keyEnv := f.keyEnv.value); }
        if f.apiMode.Some? { e := e.(apiMode := f.apiMode.value); }
      }
      current := Some(e);
      assert Scan(inCustom, current, inModels, result) == Step(before, f);
    }
    assert facts[|lines|..] == [];
    if current.Some? && IsComplete(current.value) {
      result := result + [current.value];
    }
  }

  lemma ScanStep(s: Scan, facts: seq<Facts>, n: nat)
    requires n < |facts|
    ensures ScanFacts(s, facts[n..]) == ScanFacts(Step(s, facts[n]), facts[n + 1..])
  {
    hide Step;
    assert facts[n..][1..] == facts[n + 1..];
  }

  /** The lines of one entry in `renderCustomProvidersBlock`. */
  method RenderEntry(e: Entry) returns (lines: seq<string>)
    ensures lines == EntryLines(e)
  {
    hide Quote, Extras, OptionalLine, IdLines;
    lines := ["- name: " + Quote(e.name)];
    lines := lines + ["  base_url: " + Quote(e.baseUrl)];
    lines := lines + OptionalLine("key_env", e.keyEnv);
    lines := lines + OptionalLine("api_mode", e.apiMode);
    lines := lines + OptionalLine("model", e.model);
    var extras := Extras(e, e.extraModels);
    if |extras| > 0 {
      lines := lines + ["  models:"];
      ghost var before := lines;
      assert IdLines(extras[..0]) == [];
      for k := 0 to |extras|
        invariant lines == before + IdLines(extras[..k])
      {
        lines := lines + ["    " + (extras[k] + ":")];
        IdLinesSnoc(extras, k);
      }
      assert extras[..|extras|] == extras;
    }
  }

  /** `renderCustomProvidersBlock` */
  method RenderBlock(entries: seq<Entry>) returns (block: string)
    ensures block == Render(entries)
  {
    hide Join, EntryLines;
    if entries == [] {
      return "";
    }
    var lines := ["custom_providers:"];
    ghost var all := lines + AllEntryLines(entries);
    assert entries[0..] == entries;
    for n := 0 to |entries|
      invariant lines + AllEntryLines(entries[n..]) == all
    {
      var entryLines := RenderEntry(entries[n]);
      assert entries[n..][1..] == entries[n + 1..];
      assert lines + (entryLines + AllEntryLines(entries[n + 1..])) ==
               lines + entryLines + AllEntryLines(entries[n + 1..]);
      lines := lines + entryLines;
    }
    assert entries[|entries|..] == [] && lines + [] == lines;
    block := Join(lines, "\n") + "\n";
  }

  lemma IdLinesSnoc(ids: seq<string>, k: nat)
    requires k < |ids|
    ensures IdLines(ids[..k + 1]) == IdLines(ids[..k]) + ["    " + (ids[k] + ":")]
  {
  }

  /** `findCustomProvidersSpan` */
  method FindBlock(content: string) returns (span: Option<(nat, nat)>)
    ensures span == FindSpan(content)
  {
    hide FindHeader, HeaderLength, StaysInList, LineLength, Chomp;
    var header := FindHeader(content, "custom_providers");
    if header.None? {
      return None;
    }
    var start := header.value;
    var offset := start + HeaderLength(content[start..], "custom_providers").value;
    ghost var body := offset;
    while offset < |content|
      invariant body <= offset <= |content|
      invariant offset + BodyLength(content[offset..]) == body + BodyLength(content[body..])
    {
      var n := LineLength(content[offset..]);
      if !StaysInList(Chomp(content[offset..][..n])) {
        break;
      }
      assert content[offset..][n..] == content[offset + n..];
      offset := offset + n;
    }
    return Some((start, offset));
  }

  /** `writeCustomProvidersBlock` */
  method WriteBlock(file: ConfigFile, entries: seq<Entry>)
    modifies file
    ensures file.content == Write(old(file.content), entries)
  {
    hide Render, FindSpan;
    var content := file.content;
    var block := RenderBlock(entries);
    var span := FindBlock(content);
    if span.Some? {
      var next := content[..span.value.0] + block + content[span.value.1..];
      if block == "" {
        file.content := content[..span.value.0] + content[span.value.1..];
        assert content[..span.value.0] + "" == content[..span.value.0];
        return;
      }
      if next != content {
        file.content := next;
      }
      return;
    }
    if block == "" {
      return;
    }
    file.content := content + Separator(content) + block;
  }

  /** `upsertAgentCustomProviderModel` */
  method UpsertModel(file: ConfigFile, input: Input)
    modifies file
    ensures file.content == UpsertText(old(file.content), input)
  {
    hide Trim, Parse, Write, NormUrl, FindEntry;
    var name, baseUrl, model :=
      Trim(EcmaScript, input.name), Trim(EcmaScript, input.baseUrl), Trim(EcmaScript, input.model);
    if name == "" || baseUrl == "" || model == "" {
      return;
    }
    var entries := ParseEntries(file.content);
    var i := FindEntry(entries, name, Some(NormUrl(baseUrl)));
    if i == |entries| {
      i := FindEntry(entries, name, None);
    }
    if i == |entries| {
      entries := entries + [Entry(name, baseUrl, Trim(EcmaScript, input.keyEnv), model, [],
        ModeAfter("", input.apiMode))];
      WriteBlock(file, entries);
      return;
    }
    var entry := entries[i];
    entry := entry.(baseUrl := baseUrl);
    if Trim(EcmaScript, input.keyEnv) != "" {
      entry := entry.(keyEnv := Trim(EcmaScript, input.keyEnv));
    }
    entry := entry.(apiMode := ModeAfter(entry.apiMode, input.apiMode));
    if entry.model == model || model in entry.extraModels {
      var changed := false;
      if entry.baseUrl != baseUrl {
        entry, changed := entry.(baseUrl := baseUrl), true;
      }
      if Trim(EcmaScript, input.keyEnv) != "" && entry.keyEnv != Trim(EcmaScript, input.keyEnv) {
        entry, changed := entry.(keyEnv := Trim(EcmaScript, input.keyEnv)), true;
      }
      // The fields were assigned above, so the comparison never finds a difference.
      assert !changed;
      return;
    }
    if entry.model == "" {
      entry := entry.(model := model);
    } else if model !in entry.extraModels {
      entry := entry.(extraModels := entry.extraModels + [model]);
    }
    entries := entries[i := entry];
    WriteBlock(file, entries);
  }

  /** `removeAgentCustomProviderModel` */
  method RemoveModel(file: ConfigFile, name0: string, model0: string, baseUrl: string)
    modifies file
    ensures file.content == RemoveText(old(file.content), name0, model0, baseUrl)
  {
    hide Trim, Parse, Write, NormUrl, FindEntry;
    var name, model := Trim(EcmaScript, name0), Trim(EcmaScript, model0);
    if name == "" || model == "" {
      return;
    }
    var entries := ParseEntries(file.content);
    var targetUrl := NormUrl(baseUrl);
    var i := FindEntry(entries, name, if targetUrl == "" then None else Some(targetUrl));
    if i == |entries| {
      return;
    }
    var entry := entries[i];
    if entry.model == model {
      if entry.extraModels == [] {
        entry := entry.(model := "");
      } else {
        entry := entry.(model := entry.extraModels[0], extraModels := entry.extraModels[1..]);
      }
    } else {
      entry := entry.(extraModels := Without(entry.extraModels, model));
    }
    WriteBlock(file, entries[i := entry]);
  }
}
