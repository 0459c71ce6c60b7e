/**
 * The `custom_providers:` text as a representation of a map: whatever the file was before, every
 * run of model upserts and removals leaves it parsing to the map that the calls describe.
 */
module CustomProvidersRefinement {
  import opened Text
  import opened Quoting
  import opened ConfigScalars
  import opened ConfigBlocks
  import opened CustomProviders
  import opened CustomProvidersLines

  // ---------------------------------------------------------------- entries that can be stored

  predicate FitsLine(e: Entry) {
    !HasTerminator(e.name) && !HasTerminator(e.baseUrl) && !HasTerminator(e.keyEnv) &&
    !HasTerminator(e.model) && !HasTerminator(e.apiMode)
  }

  /** An entry that its own lines give back. */
  predicate Storable(e: Entry) {
    FitsLine(e) && IsComplete(e) &&
    Distinct(e.extraModels) && e.model !in e.extraModels &&
    forall i :: 0 <= i < |e.extraModels| ==> IdSurvives(e.extraModels[i])
  }

  predicate AllStorable(entries: seq<Entry>) {
    forall i :: 0 <= i < |entries| ==> Storable(entries[i])
  }

  // ---------------------------------------------------------------- parsing what was rendered

  lemma {:induction false} ScanConcat(s: Scan, a: seq<Facts>, b: seq<Facts>)
    ensures ScanFacts(s, a + b) == ScanFacts(ScanFacts(s, a), b)
    decreases |a|
  {
    hide Step;
    if a == [] {
      assert a + b == b;
    } else {
      assert (a + b)[1..] == a[1..] + b;
      ScanConcat(Step(s, a[0]), a[1..], b);
    }
  }

  lemma FactsConcat(a: seq<string>, b: seq<string>)
    ensures AllFacts(a + b) == AllFacts(a) + AllFacts(b)
  {
    hide FactsOf;
  }

  lemma ScanOne(s: Scan, line: string)
    ensures ScanFacts(s, AllFacts([line])) == Step(s, FactsOf(line))
  {
    hide FactsOf, Step;
    assert AllFacts([line])[1..] == [];
  }

  /** Scanning text lines one list after the other. */
  lemma ScanTwo(s: Scan, a: seq<string>, b: seq<string>)
    ensures ScanFacts(s, AllFacts(a + b)) == ScanFacts(ScanFacts(s, AllFacts(a)), AllFacts(b))
  {
    hide AllFacts, ScanFacts;
    FactsConcat(a, b);
    ScanConcat(s, AllFacts(a), AllFacts(b));
  }

  lemma {:induction false} ExtrasAreAll(e: Entry, ids: seq<string>)
    requires e.model !in ids && forall i :: 0 <= i < |ids| ==> ids[i] != ""
    ensures Extras(e, ids) == ids
  {
    if ids != [] {
      ExtrasAreAll(e, ids[1..]);
      assert ids[0] in ids && [ids[0]] + ids[1..] == ids;
    }
  }

  lemma ScanOptional(s: Scan, e: Entry, key: string, v: string)
    requires s.inCustom && s.current == Some(e) && !s.inModels && !HasTerminator(v)
    requires key in ["key_env", "api_mode", "model"]
    requires (if key == "key_env" then e.keyEnv else if key == "api_mode" then e.apiMode else e.model) == ""
    ensures ScanFacts(s, AllFacts(OptionalLine(key, v))) ==
            s.(current := Some(if key == "key_env" then e.(keyEnv := v) else if key == "api_mode" then e.(apiMode := v)
                else e.(model := v)))
  {
    hide FactsOf, Quote;
    if v != "" {
      var line := "  " + key + ": " + Quote(v);
      FieldLine(line, key, v);
      ScanOne(s, line);
    }
  }

  lemma {:induction false} ScanIds(s: Scan, e: Entry, done: seq<string>, rest: seq<string>)
    requires s.inCustom && s.inModels && s.current == Some(e.(extraModels := done))
    requires Distinct(done + rest) && forall i :: 0 <= i < |rest| ==> IdSurvives(rest[i])
    ensures ScanFacts(s, AllFacts(IdLines(rest))) == s.(current := Some(e.(extraModels := done + rest)))
    decreases |rest|
  {
    hide FactsOf, Distinct, IdSurvives, IsSpace;
    if rest == [] {
      assert done + rest == done;
    } else {
      var id := rest[0];
      var line := "    " + (id + ":");
      var next := s.(current := Some(e.(extraModels := done + [id])));
      assert IdSurvives(id);
      IdIsTight(id);
      ModelLineSurvivesIff(line, id);
      TrimIsIdentityOnTight(EcmaScript, id);
      assert id !in done by { DistinctAtSplit(done, rest); }
      StepId(s, FactsOf(line), e, done, id);
      assert done + [id] + rest[1..] == done + rest;
      ScanIds(next, e, done + [id], rest[1..]);
      ScanOne(s, line);
      assert IdLines(rest) == [line] + IdLines(rest[1..]);
      ScanTwo(s, [line], IdLines(rest[1..]));
    }
  }

  lemma DistinctAtSplit(done: seq<string>, rest: seq<string>)
    requires Distinct(done + rest) && rest != []
    ensures rest[0] !in done
  {
    var all := done + rest;
    assert all[|done|] == rest[0];
    assert forall i :: 0 <= i < |done| ==> all[i] == done[i];
  }

  lemma IdIsTight(id: string)
    requires IdSurvives(id)
    ensures id != "" && Tight(EcmaScript, id)
  {
    hide IsSpace;
    IdCharsAreNoSpaces(id);
  }

  lemma StepId(s: Scan, f: Facts, e: Entry, done: seq<string>, id: string)
    requires s.inCustom && s.inModels && s.current == Some(e.(extraModels := done))
    requires ReadsAsModel(f, id) && Trim(EcmaScript, id) == id && id != "" && id !in done
    ensures Step(s, f) == s.(current := Some(e.(extraModels := done + [id])))
  {
    hide Trim;
  }

  lemma ScanName(s: Scan, line: string, name: string)
    requires s.inCustom && line == "- name: " + Quote(name) && !HasTerminator(name)
    ensures Step(s, FactsOf(line)) == Scan(true, Some(Entry(name, "", "", "", [], "")), false, Finish(s).result)
  {
    hide FactsOf, Quote, Trim;
    NameLine(line, name);
  }

  lemma ScanUrl(s: Scan, line: string, e: Entry, url: string)
    requires s.inCustom && s.current == Some(e) && !s.inModels && line == "  base_url: " + Quote(url) &&
             !HasTerminator(url)
    ensures Step(s, FactsOf(line)) == s.(current := Some(e.(baseUrl := url)))
  {
    hide FactsOf, Quote;
    var same := "  " + "base_url" + ": " + Quote(url);
    assert line == same by { assert "  " + "base_url" + ": " == "  base_url: "; }
    FieldLine(line, "base_url", url);
  }

  lemma ScanModelsHead(s: Scan, line: string)
    requires s.inCustom && s.current.Some? && line == "  models:"
    ensures Step(s, FactsOf(line)) == s.(inModels := true)
  {
    hide FactsOf;
    ModelsLine(line);
  }

  /** The lines of one entry, from inside the block. */
  lemma ScanEntry(s: Scan, e: Entry)
    requires s.inCustom && Storable(e)
    ensures ScanFacts(s, AllFacts(EntryLines(e))) == Scan(true, Some(e), e.extraModels != [], Finish(s).result)
  {
    hide FactsOf, Quote, AllFacts, ScanFacts, Step, IdSurvives, Finish, HasTerminator, OptionalLine, IdLines, Extras,
         Distinct, IsComplete;
    var nameLine, urlLine := "- name: " + Quote(e.name), "  base_url: " + Quote(e.baseUrl);
    var e0 := Entry(e.name, "", "", "", [], "");
    var s0 := Scan(true, Some(e0), false, Finish(s).result);
    ScanName(s, nameLine, e.name);
    ScanOne(s, nameLine);
    var e1 := e0.(baseUrl := e.baseUrl);
    var s1 := s0.(current := Some(e1));
    ScanUrl(s0, urlLine, e0, e.baseUrl);
    ScanOne(s0, urlLine);
    ScanTwo(s, [nameLine], [urlLine]);
    var head := [nameLine] + [urlLine];
    var k, m, d := OptionalLine("key_env", e.keyEnv), OptionalLine("api_mode", e.apiMode),
      OptionalLine("model", e.model);
    ScanOptional(s1, e1, "key_env", e.keyEnv);
    var e2 := e1.(keyEnv := e.keyEnv);
    var s2 := s1.(current := Some(e2));
    ScanOptional(s2, e2, "api_mode", e.apiMode);
    var e3 := e2.(apiMode := e.apiMode);
    var s3 := s2.(current := Some(e3));
    ScanOptional(s3, e3, "model", e.model);
    var s4 := s3.(current := Some(e3.(model := e.model)));
    ScanTwo(s, head, k);
    ScanTwo(s, head + k, m);
    ScanTwo(s, head + k + m, d);
    ScanExtras(s4, e3.(model := e.model), e);
    ScanTwo(s, head + k + m + d, ExtraLines(e));
    assert EntryLines(e) == head + k + m + d + ExtraLines(e);
  }

  function ExtraLines(e: Entry): seq<string> {
    if Extras(e, e.extraModels) == [] then [] else ["  models:"] + IdLines(Extras(e, e.extraModels))
  }

  lemma ScanExtras(s: Scan, e0: Entry, e: Entry)
    requires s.inCustom && !s.inModels && Storable(e) && e0 == e.(extraModels := []) && s.current == Some(e0)
    ensures ScanFacts(s, AllFacts(ExtraLines(e))) == s.(current := Some(e), inModels := e.extraModels != [])
  {
    hide FactsOf, Step, IdLines, IsComplete, HasTerminator, IsKeywordLike, IsIdChar;
    var ids := e.extraModels;
    ExtrasAreAll(e, ids);
    if ids != [] {
      ScanModelsHead(s, "  models:");
      ScanOne(s, "  models:");
      assert [] + ids == ids;
      ScanIds(s.(inModels := true), e0, [], ids);
      ScanTwo(s, ["  models:"], IdLines(ids));
    }
  }

  lemma {:induction false} ScanEntries(s: Scan, entries: seq<Entry>)
    requires s.inCustom && AllStorable(entries)
    ensures var r := ScanFacts(s, AllFacts(AllEntryLines(entries)));
            r.inCustom && Finish(r).result == Finish(s).result + entries
    decreases |entries|
  {
    hide FactsOf, EntryLines, AllFacts, Step, Storable;
    if entries == [] {
      NothingToScan(s);
      assert Finish(s).result + entries == Finish(s).result;
    } else {
      var e := entries[0];
      ScanEntry(s, e);
      var s1 := Scan(true, Some(e), e.extraModels != [], Finish(s).result);
      ScanEntries(s1, entries[1..]);
      ScanTwo(s, EntryLines(e), AllEntryLines(entries[1..]));
      assert IsComplete(e) by { StorableIsComplete(e); }
      assert Finish(s).result + [e] + entries[1..] == Finish(s).result + entries;
    }
  }

  lemma NothingToScan(s: Scan)
    ensures ScanFacts(s, AllFacts([])) == s
  {
  }

  lemma StorableIsComplete(e: Entry)
    requires Storable(e)
    ensures IsComplete(e)
  {
  }

  lemma ScanEmptyLine(s: Scan)
    ensures Finish(Step(s, FactsOf(""))) == Finish(s)
  {
    hide FactsOf, Trim;
    EmptyLine("");
  }

  /** Lines outside the block leave the scanner where it starts. */
  lemma {:induction false} ScanForeign(lines: seq<string>)
    requires forall i :: 0 <= i < |lines| ==> !IsHeader(lines[i])
    ensures ScanFacts(START, AllFacts(lines)) == START
    decreases |lines|
  {
    hide IsHeader, FactsOf;
    if lines == [] {
      NothingToScan(START);
    } else {
      assert lines == [lines[0]] + lines[1..];
      ScanTwo(START, [lines[0]], lines[1..]);
      ScanOne(START, lines[0]);
      assert !FactsOf(lines[0]).header by { HeaderFact(lines[0]); }
      ScanForeign(lines[1..]);
    }
  }

  lemma HeaderFact(line: string)
    ensures FactsOf(line).header == IsHeader(line)
  {
  }

  /** Each rendered line is one line. */
  lemma BlockLines(entries: seq<Entry>)
    requires entries != [] && AllStorable(entries)
    ensures SplitLines(Render(entries)) == ["custom_providers:"] + AllEntryLines(entries) + [""]
  {
    hide AllEntryLines;
    var lines := ["custom_providers:"] + AllEntryLines(entries);
    EntriesAreLines(entries);
    SplitOfJoin(lines);
    SplitConcat(Join(lines, "\n"), "");
    assert Join(lines, "\n") + "\n" + "" == Render(entries);
  }

  lemma {:induction false} EntriesAreLines(entries: seq<Entry>)
    requires AllStorable(entries)
    ensures forall l :: l in AllEntryLines(entries) ==> '\n' !in l && StaysInList(l)
  {
    hide StaysInList, EntryLines, Storable;
    if entries != [] {
      EntryIsLines(entries[0]);
      EntriesAreLines(entries[1..]);
    }
  }

  lemma QuoteHasNoBreak(v: string)
    requires !HasTerminator(v)
    ensures '\n' !in Quote(v)
  {
    hide Quote;
    QuoteKeepsOneLine(v);
  }

  lemma IndentedLine(l: string, body: string)
    requires l == "  " + body && '\n' !in body
    ensures '\n' !in l && StaysInList(l)
  {
    hide TrimStart;
    assert l[0] == ' ';
  }

  lemma EntryIsLines(e: Entry)
    requires Storable(e)
    ensures forall l :: l in EntryLines(e) ==> '\n' !in l && StaysInList(l)
  {
    hide StaysInList, Quote, HasTerminator, IdSurvives, IsComplete, Extras, Distinct;
    QuoteHasNoBreak(e.name);
    QuoteHasNoBreak(e.baseUrl);
    ItemLineStays("- name: " + Quote(e.name));
    assert "  base_url: " + Quote(e.baseUrl) == "  " + ("base_url: " + Quote(e.baseUrl));
    IndentedLine("  base_url: " + Quote(e.baseUrl), "base_url: " + Quote(e.baseUrl));
    OptionalIsLines("key_env", e.keyEnv);
    OptionalIsLines("api_mode", e.apiMode);
    OptionalIsLines("model", e.model);
    IndentedLine("  models:", "models:");
    ExtrasAreIds(e);
    forall l | l in IdLines(e.extraModels) ensures '\n' !in l && StaysInList(l) {
      var i :| 0 <= i < |e.extraModels| && l == IdLines(e.extraModels)[i];
      var id := e.extraModels[i];
      assert IdSurvives(id);
      IdHasNoBreak(id);
      assert l == "  " + ("  " + (id + ":"));
      IndentedLine(l, "  " + (id + ":"));
    }
  }

  lemma ExtrasAreIds(e: Entry)
    requires Storable(e)
    ensures Extras(e, e.extraModels) == e.extraModels
  {
    hide IsKeywordLike, HasTerminator, IsComplete, Distinct, IsIdChar;
    ExtrasAreAll(e, e.extraModels);
  }

  lemma IdHasNoBreak(id: string)
    requires IdSurvives(id)
    ensures '\n' !in id
  {
    hide IsKeywordLike;
    assert !IsIdChar('\n');
  }

  lemma ItemLineStays(l: string)
    requires |l| >= 3 && l[0] == '-' && l[1] == ' '
    ensures StaysInList(l)
  {
    hide IsSpace;
    assert !IsSpace(EcmaScript, '-') && IsSpace(EcmaScript, ' ') by { DashAndSpace(); }
    TrimStartOfUnpadded(EcmaScript, l);
  }

  lemma DashAndSpace()
    ensures !IsSpace(EcmaScript, '-') && IsSpace(EcmaScript, ' ')
  {
  }

  lemma OptionalIsLines(key: string, v: string)
    requires !HasTerminator(v) && key in ["key_env", "api_mode", "model"]
    ensures forall l :: l in OptionalLine(key, v) ==> '\n' !in l && StaysInList(l)
  {
    hide StaysInList, Quote;
    if v != "" {
      QuoteHasNoBreak(v);
      var body := key + ": " + Quote(v);
      assert "  " + key + ": " + Quote(v) == "  " + body;
      IndentedLine("  " + key + ": " + Quote(v), body);
    }
  }

  /** Text that ends its last line and holds neither a header line nor a header after another terminator. */
  predicate IsForeign(base: string) {
    (base == "" || base[|base| - 1] == '\n') &&
    (forall i :: 0 <= i < |SplitLines(base)| ==> !IsHeader(SplitLines(base)[i])) &&
    (forall i :: 0 <= i <= |base| ==> AtLineStart(base, i) ==> HeaderLength(base[i..], "custom_providers").None?)
  }

  /** The parser gives back the rendered entries. */
  lemma ParseInvertsRender(base: string, entries: seq<Entry>)
    requires IsForeign(base) && AllStorable(entries)
    ensures Parse(base + Render(entries)) == entries
  {
    hide FactsOf, AllFacts, ScanFacts, Step, AllEntryLines, Storable, HeaderLength, AtLineStart, IsHeader, Trim;
    if entries == [] {
      assert base + Render(entries) == base;
      ScanForeign(SplitLines(base));
    } else {
      var body := AllEntryLines(entries);
      var lines := ["custom_providers:"] + body + [""];
      BlockLines(entries);
      var before := if base == "" then [] else SplitLines(base[..|base| - 1]);
      assert SplitLines(base + Render(entries)) == before + lines &&
             (forall i :: 0 <= i < |before| ==> !IsHeader(before[i])) by {
        ForeignLines(base, Render(entries), before);
      }
      ScanForeign(before);
      ScanTwo(START, before, lines);
      ScanBlock(entries, lines);
    }
  }

  lemma ForeignLines(base: string, block: string, before: seq<string>)
    requires IsForeign(base) && before == if base == "" then [] else SplitLines(base[..|base| - 1])
    ensures SplitLines(base + block) == before + SplitLines(block)
    ensures forall i :: 0 <= i < |before| ==> !IsHeader(before[i])
  {
    hide IsHeader, HeaderLength;
    if base == "" {
      assert base + block == block;
    } else {
      var b := base[..|base| - 1];
      assert base == b + "\n" + "" && base + block == b + "\n" + block;
      SplitConcat(b, "");
      SplitConcat(b, block);
      assert SplitLines(base) == before + [""];
      forall i | 0 <= i < |before| ensures !IsHeader(before[i]) {
        assert SplitLines(base)[i] == before[i];
      }
    }
  }

  lemma ScanBlock(entries: seq<Entry>, lines: seq<string>)
    requires AllStorable(entries) && lines == ["custom_providers:"] + AllEntryLines(entries) + [""]
    ensures Finish(ScanFacts(START, AllFacts(lines))).result == entries
  {
    hide FactsOf, AllFacts, ScanFacts, Step, AllEntryLines, Storable, Trim;
    var head, body := ["custom_providers:"], AllEntryLines(entries);
    var inside := START.(inCustom := true);
    ScanTwo(START, head + body, [""]);
    ScanTwo(START, head, body);
    ScanOne(START, "custom_providers:");
    StepHeader("custom_providers:");
    ScanEntries(inside, entries);
    var r := ScanFacts(inside, AllFacts(body));
    ScanOne(r, "");
    ScanEmptyLine(r);
    assert Finish(inside).result + entries == entries;
  }

  lemma StepHeader(line: string)
    requires line == "custom_providers:"
    ensures Step(START, FactsOf(line)) == START.(inCustom := true)
  {
    hide FactsOf;
    HeaderLine(line);
  }
}
