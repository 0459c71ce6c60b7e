/** Writing the block back in place, and whole runs of model edits. */
module CustomProvidersRuns {
  import opened Text
  import opened Quoting
  import opened ConfigScalars
  import opened ConfigBlocks
  import opened CustomProviders
  import opened CustomProvidersLines
  import opened CustomProvidersRefinement

  const KEY := "custom_providers"

  // ---------------------------------------------------------------- the span of the rendered block

  lemma {:induction false} NoEarlierHeader(base: string, block: string, i: nat)
    requires IsForeign(base) && i <= |base| && HeaderLength(block, KEY).Some?
    ensures FirstHeader(base + block, KEY, i) == Some(|base|)
    decreases |base| - i
  {
    hide HeaderLength, IsHeader;
    var content := base + block;
    assert content[i..] == base[i..] + block;
    if i == |base| {
      assert base[i..] == "";
      assert base[i..] + block == block;
      AtBaseEnd(base, block);
    } else {
      assert AtLineStart(content, i) == AtLineStart(base, i);
      assert base[i..] != "" && base[i..][|base[i..]| - 1] == '\n';
      KeyHasNoBreak();
      HeaderBefore(base[i..], block, KEY);
      assert !(AtLineStart(content, i) && HeaderLength(content[i..], KEY).Some?);
      NoEarlierHeader(base, block, i + 1);
    }
  }

  lemma KeyHasNoBreak()
    ensures KEY != "" && '\n' !in KEY
  {
  }

  lemma {:induction false} BodyIsWhole(lines: seq<string>)
    requires forall l :: l in lines ==> '\n' !in l && StaysInList(l) && (l == "" || l[|l| - 1] != '\r')
    ensures BodyLength(Terminated(lines)) == |Terminated(lines)|
    decreases |lines|
  {
    hide StaysInList;
    if lines != [] {
      var l, rest := lines[0], Terminated(lines[1..]);
      var s := Terminated(lines);
      assert s == l + "\n" + rest;
      LineLengthOf(l, rest);
      assert s[..|l| + 1] == l + "\n";
      ChompLine(l);
      assert s[|l| + 1..] == rest;
      BodyIsWhole(lines[1..]);
    }
  }

  /** Every line with its line feed. */
  function Terminated(lines: seq<string>): string {
    if lines == [] then "" else lines[0] + "\n" + Terminated(lines[1..])
  }

  lemma {:induction false} JoinTerminated(lines: seq<string>)
    requires lines != []
    ensures Join(lines, "\n") + "\n" == Terminated(lines)
  {
    if |lines| == 1 {
      assert Terminated(lines[1..]) == "";
      assert Terminated(lines) == lines[0] + "\n";
    } else {
      JoinTerminated(lines[1..]);
      assert Join(lines, "\n") + "\n" == lines[0] + "\n" + (Join(lines[1..], "\n") + "\n");
    }
  }

  lemma LinesEndInText(entries: seq<Entry>)
    requires AllStorable(entries)
    ensures forall l :: l in AllEntryLines(entries) ==> l != "" && l[|l| - 1] in ['"', ':']
  {
    hide EntryLines, Storable;
    if entries != [] {
      EntryLinesEnd(entries[0]);
      LinesEndInText(entries[1..]);
    }
  }

  lemma EntryLinesEnd(e: Entry)
    requires Storable(e)
    ensures forall l :: l in EntryLines(e) ==> l != "" && l[|l| - 1] in ['"', ':']
  {
    hide Quote, HasTerminator, IdSurvives, IsComplete, Distinct, Extras;
    QuoteEnds(e.name);
    QuoteEnds(e.baseUrl);
    QuoteEnds(e.keyEnv);
    QuoteEnds(e.apiMode);
    QuoteEnds(e.model);
    assert "  models:"[8] == ':';
  }

  lemma QuoteEnds(v: string)
    ensures Quote(v) != "" && Quote(v)[|Quote(v)| - 1] == '"'
  {
  }

  lemma BlockShape(entries: seq<Entry>, body: seq<string>)
    requires entries != [] && body == AllEntryLines(entries)
    ensures Render(entries) == (KEY + ":") + "\n" + Terminated(body)
  {
    hide AllEntryLines;
    var lines := [KEY + ":"] + body;
    KeyColon();
    JoinTerminated(lines);
    assert lines[1..] == body;
  }

  lemma BodyOfBlock(entries: seq<Entry>)
    requires AllStorable(entries)
    ensures BodyLength(Terminated(AllEntryLines(entries))) == |Terminated(AllEntryLines(entries))|
  {
    hide AllEntryLines, StaysInList, Storable, BodyLength;
    EntriesAreLines(entries);
    LinesEndInText(entries);
    BodyIsWhole(AllEntryLines(entries));
  }

  /** The span finder sees exactly the rendered block. */
  lemma SpanOfRender(base: string, entries: seq<Entry>)
    requires IsForeign(base) && AllStorable(entries) && entries != []
    ensures FindSpan(base + Render(entries)) == Some((|base|, |base + Render(entries)|))
  {
    hide AllEntryLines, Terminated, BodyLength, HeaderLength, Render, IsForeign, FirstHeader, AllStorable;
    var body := Terminated(AllEntryLines(entries));
    BlockShape(entries, AllEntryLines(entries));
    BodyOfBlock(entries);
    HeaderOfBlock(Render(entries), body);
    HeaderFound(base, Render(entries));
    assert Render(entries)[|KEY| + 2..] == body;
    SpanFrom(base, Render(entries), |KEY| + 2, body);
  }

  lemma HeaderFound(base: string, block: string)
    requires IsForeign(base) && HeaderLength(block, KEY).Some?
    ensures FindHeader(base + block, KEY) == Some(|base|)
  {
    hide HeaderLength, IsForeign, FirstHeader;
    NoEarlierHeader(base, block, 0);
    ForeignEnds(base);
    if base != "" { assert (base + block)[|base| - 1] == base[|base| - 1]; }
  }

  lemma SpanFrom(base: string, block: string, n: nat, body: string)
    requires HeaderLength(block, KEY) == Some(n) && block[n..] == body
    requires FindHeader(base + block, KEY) == Some(|base|) && BodyLength(body) == |body|
    ensures FindSpan(base + block) == Some((|base|, |base + block|))
  {
    hide HeaderLength, FindHeader, BodyLength;
    var content := base + block;
    assert content[|base|..] == block;
    assert content[|base| + n..] == body;
  }

  lemma ForeignEnds(base: string)
    requires IsForeign(base)
    ensures base == "" || base[|base| - 1] == '\n'
  {
  }

  lemma KeyColon()
    ensures KEY + ":" == "custom_providers:"
  {
  }

  lemma HeaderOfBlock(block: string, body: string)
    requires block == (KEY + ":") + "\n" + body
    ensures HeaderLength(block, KEY) == Some(|KEY| + 2)
  {
    var t := ":" + ("\n" + body);
    assert block == KEY + t;
    HeaderOfKey(block, KEY, t, "\n" + body);
  }

  lemma HeaderOfKey(block: string, key: string, t: string, u: string)
    requires block == key + t && t == ":" + u && u != "" && u[0] == '\n'
    ensures HeaderLength(block, key) == Some(|key| + 2)
  {
    hide IsSpace;
    assert block[..|key|] == key && block[|key|..] == t;
    assert !IsInlineSpace(':') && !IsInlineSpace('\n') by { ColonIsNoSpace(); }
    assert t[1..] == u;
  }

  // ---------------------------------------------------------------- the map

  /** What a provider stands for: its endpoint and its models in order. */
  datatype Provider = Provider(baseUrl: string, keyEnv: string, apiMode: string, models: seq<string>)

  function Models(e: Entry): seq<string> {
    (if e.model == "" then [] else [e.model]) + e.extraModels
  }

  function Meaning(e: Entry): Provider {
    Provider(e.baseUrl, e.keyEnv, e.apiMode, Models(e))
  }

  /** The first entry of a name counts. */
  function Abstract(entries: seq<Entry>): map<string, Provider> {
    if entries == [] then map[] else Abstract(entries[1..])[entries[0].name := Meaning(entries[0])]
  }

  /** Adding a model: a known one changes nothing at all, not even the endpoint. */
  function AddModel(m: map<string, Provider>, input: Input): map<string, Provider> {
    var name, url, model := Trim(EcmaScript, input.name), Trim(EcmaScript, input.baseUrl),
      Trim(EcmaScript, input.model);
    var key := Trim(EcmaScript, input.keyEnv);
    if name == "" || url == "" || model == "" then m
    else if name !in m then m[name := Provider(url, key, ModeAfter("", input.apiMode), [model])]
    else if model in m[name].models then m
    else
      var p := m[name];
      m[name := Provider(url, if key == "" then p.keyEnv else key, ModeAfter(p.apiMode, input.apiMode),
        p.models + [model])]
  }

  /** Deleting a model keeps the provider and the order of its other models. */
  function DeleteModel(m: map<string, Provider>, name0: string, model0: string,
                       baseUrl: string): map<string, Provider> {
    var name, model := Trim(EcmaScript, name0), Trim(EcmaScript, model0);
    if name == "" || model == "" || name !in m then m
    else if NormUrl(baseUrl) != "" && NormUrl(m[name].baseUrl) != NormUrl(baseUrl) then m
    else m[name := m[name].(models := Without(m[name].models, model))]
  }

  predicate NamesDistinct(entries: seq<Entry>) {
    forall i, j :: 0 <= i < j < |entries| ==> entries[i].name != entries[j].name
  }

  /** A list the edits can have produced. */
  predicate Sound(entries: seq<Entry>) {
    AllStorable(entries) && NamesDistinct(entries) &&
    forall i :: 0 <= i < |entries| ==> entries[i].model == "" ==> entries[i].extraModels == []
  }

  lemma {:induction false} AbstractAt(entries: seq<Entry>, i: nat)
    requires NamesDistinct(entries) && i < |entries|
    ensures entries[i].name in Abstract(entries) && Abstract(entries)[entries[i].name] == Meaning(entries[i])
  {
    hide Meaning;
    if i > 0 {
      assert entries[1..][i - 1] == entries[i];
      AbstractAt(entries[1..], i - 1);
    }
  }

  lemma {:induction false} AbstractNames(entries: seq<Entry>, name: string)
    ensures name in Abstract(entries) <==> exists i :: 0 <= i < |entries| && entries[i].name == name
  {
    hide Meaning;
    if entries != [] {
      AbstractNames(entries[1..], name);
      if i :| 0 <= i < |entries| && entries[i].name == name {
        if i > 0 { assert entries[1..][i - 1].name == name; }
      }
      if exists i :: 0 <= i < |entries[1..]| && entries[1..][i].name == name {
        var i :| 0 <= i < |entries[1..]| && entries[1..][i].name == name;
        assert entries[i + 1].name == name;
      }
    }
  }

  lemma {:induction false} AbstractUpdate(entries: seq<Entry>, i: nat, e: Entry)
    requires NamesDistinct(entries) && i < |entries| && e.name == entries[i].name
    ensures NamesDistinct(entries[i := e])
    ensures Abstract(entries[i := e]) == Abstract(entries)[e.name := Meaning(e)]
  {
    hide Meaning;
    if i == 0 {
      assert entries[i := e][1..] == entries[1..];
    } else {
      assert entries[i := e][1..] == entries[1..][i - 1 := e];
      AbstractUpdate(entries[1..], i - 1, e);
      assert entries[0].name != e.name;
    }
  }

  lemma {:induction false} AbstractAppend(entries: seq<Entry>, e: Entry)
    requires NamesDistinct(entries) && e.name !in Abstract(entries)
    ensures NamesDistinct(entries + [e])
    ensures Abstract(entries + [e]) == Abstract(entries)[e.name := Meaning(e)]
  {
    hide Meaning;
    AbstractNames(entries, e.name);
    if entries == [] {
      assert entries + [e] == [e] && [e][1..] == [];
    } else {
      assert (entries + [e])[1..] == entries[1..] + [e];
      AbstractNames(entries[1..], e.name);
      assert forall i :: 0 <= i < |entries[1..]| ==> entries[1..][i] == entries[i + 1];
      AbstractAppend(entries[1..], e);
    }
  }

  lemma {:induction false} FoundEntry(entries: seq<Entry>, name: string, url: Option<string>)
    ensures var i := FindEntry(entries, name, url);
            i < |entries| ==> entries[i].name == name && (url.Some? ==> NormUrl(entries[i].baseUrl) == url.value)
    ensures FindEntry(entries, name, url) == |entries| ==>
              forall i :: 0 <= i < |entries| ==>
                entries[i].name != name || (url.Some? && NormUrl(entries[i].baseUrl) != url.value)
  {
    hide NormUrl;
    if entries != [] {
      FoundEntry(entries[1..], name, url);
    }
  }

  lemma {:induction false} WithoutShape(ids: seq<string>, id: string)
    ensures forall x :: x in Without(ids, id) <==> x in ids && x != id
    ensures Distinct(ids) ==> Distinct(Without(ids, id))
    ensures id !in ids ==> Without(ids, id) == ids
  {
    if ids != [] {
      assert forall x :: x in ids <==> x == ids[0] || x in ids[1..];
      WithoutShape(ids[1..], id);
      if Distinct(ids) && ids[0] != id {
        assert ids[0] !in ids[1..];
        DistinctCons(ids[0], Without(ids[1..], id));
      }
    }
  }

  lemma DistinctCons(x: string, ids: seq<string>)
    requires x !in ids && Distinct(ids)
    ensures Distinct([x] + ids)
  {
  }

  lemma {:induction false} WithoutConcat(a: seq<string>, b: seq<string>, id: string)
    ensures Without(a + b, id) == Without(a, id) + Without(b, id)
  {
    if a == [] {
      assert a + b == b;
    } else {
      assert (a + b)[1..] == a[1..] + b;
      WithoutConcat(a[1..], b, id);
    }
  }

  // ---------------------------------------------------------------- one edit

  /**
   * What an upsert must be given: one-line values, and an identifier the scanner reads back when it
   * does not become the provider's first model.
   */
  predicate Admissible(m: map<string, Provider>, input: Input) {
    var name, model := Trim(EcmaScript, input.name), Trim(EcmaScript, input.model);
    !HasTerminator(name) && !HasTerminator(Trim(EcmaScript, input.baseUrl)) &&
    !HasTerminator(Trim(EcmaScript, input.keyEnv)) && !HasTerminator(model) &&
    (input.apiMode.Put? ==> !HasTerminator(Trim(EcmaScript, input.apiMode.mode))) &&
    (IdSurvives(model) || name !in m || m[name].models == [])
  }

  lemma TrimTwice(s: string)
    ensures Trim(EcmaScript, Trim(EcmaScript, s)) == Trim(EcmaScript, s)
  {
    hide Trim;
    TrimIsTight(EcmaScript, s);
    TrimIsIdentityOnTight(EcmaScript, Trim(EcmaScript, s));
  }

  lemma SurvivingIdFits(id: string)
    requires IdSurvives(id)
    ensures !HasTerminator(id) && id != ""
  {
    hide IsKeywordLike;
    assert forall i :: 0 <= i < |id| ==> IsIdChar(id[i]) && !IsTerminator(id[i]);
  }

  /** The values an upsert stores. */
  lemma FieldsOfInput(m: map<string, Provider>, input: Input)
    requires Admissible(m, input)
    ensures var name, url := Trim(EcmaScript, input.name), Trim(EcmaScript, input.baseUrl);
            Trim(EcmaScript, name) == name && Trim(EcmaScript, url) == url &&
            !HasTerminator(ModeAfter("", input.apiMode)) &&
            forall was :: !HasTerminator(was) ==> !HasTerminator(ModeAfter(was, input.apiMode))
  {
    hide Trim, IdSurvives;
    TrimTwice(input.name);
    TrimTwice(input.baseUrl);
  }

  lemma OnlyEntryOf(entries: seq<Entry>, name: string, url: Option<string>, i: nat)
    requires NamesDistinct(entries) && i < |entries| && entries[i].name == name
    ensures FindEntry(entries, name, url) ==
              if url.None? || NormUrl(entries[i].baseUrl) == url.value then i else |entries|
  {
    hide NormUrl;
    FoundEntry(entries, name, url);
    var j := FindEntry(entries, name, url);
    assert j < |entries| ==> entries[j].name == entries[i].name;
  }

  /** Where an upsert finds its entry, in terms of the map. */
  lemma Located(entries: seq<Entry>, name: string, url: Option<string>) returns (i: nat)
    requires NamesDistinct(entries)
    ensures name in Abstract(entries) <==> i < |entries|
    ensures i <= |entries| && (i < |entries| ==>
              entries[i].name == name && Abstract(entries)[name] == Meaning(entries[i]))
    ensures i == FindEntry(entries, name, None)
    ensures FindEntry(entries, name, url) ==
              if i < |entries| && (url.None? || NormUrl(entries[i].baseUrl) == url.value) then i else |entries|
  {
    hide NormUrl, Meaning, NamesDistinct;
    i := FindEntry(entries, name, None);
    FoundEntry(entries, name, None);
    AbstractNames(entries, name);
    if i < |entries| {
      AbstractAt(entries, i);
      OnlyEntryOf(entries, name, url, i);
    } else {
      FoundEntry(entries, name, url);
    }
  }

  lemma UpdateKeepsSound(entries: seq<Entry>, i: nat, e: Entry)
    requires Sound(entries) && i < |entries| && e.name == entries[i].name && Storable(e) &&
             (e.model == "" ==> e.extraModels == [])
    ensures Sound(entries[i := e]) && Abstract(entries[i := e]) == Abstract(entries)[e.name := Meaning(e)]
  {
    hide Storable, Meaning;
    AbstractUpdate(entries, i, e);
  }

  lemma AppendKeepsSound(entries: seq<Entry>, e: Entry)
    requires Sound(entries) && e.name !in Abstract(entries) && Storable(e) && (e.model == "" ==> e.extraModels == [])
    ensures Sound(entries + [e]) && Abstract(entries + [e]) == Abstract(entries)[e.name := Meaning(e)]
  {
    hide Storable, Meaning;
    AbstractAppend(entries, e);
  }

  /** An upsert on the list of entries is an upsert on the map. */
  lemma UpsertRefines(entries: seq<Entry>, input: Input)
    requires Sound(entries) && Admissible(Abstract(entries), input)
    ensures var m, next := Abstract(entries), Upserted(entries, input);
            if next.None? then AddModel(m, input) == m
            else Sound(next.value) && next.value != [] && Abstract(next.value) == AddModel(m, input)
  {
    hide Trim, NormUrl, HasTerminator, IdSurvives, ModeAfter, FindEntry, Abstract, NamesDistinct, Distinct;
    var m := Abstract(entries);
    var name, baseUrl, model :=
      Trim(EcmaScript, input.name), Trim(EcmaScript, input.baseUrl), Trim(EcmaScript, input.model);
    var key := Trim(EcmaScript, input.keyEnv);
    FieldsOfInput(m, input);
    if name != "" && baseUrl != "" && model != "" {
      var i := Located(entries, name, Some(NormUrl(baseUrl)));
      if i == |entries| {
        var e := Entry(name, baseUrl, key, model, [], ModeAfter("", input.apiMode));
        assert Distinct([]) by { NothingRepeats(); }
        assert Models(e) == [model] + [] == [model];
        AppendKeepsSound(entries, e);
      } else {
        var e := entries[i];
        assert Storable(e);
        assert model in Models(e) <==> e.model == model || model in e.extraModels;
        if model !in Models(e) {
          var e1 := e.(baseUrl := baseUrl, keyEnv :=
            if key != "" then key else e.keyEnv, apiMode := ModeAfter(e.apiMode, input.apiMode));
          var e2 := if e.model == "" then e1.(model := model) else e1.(extraModels := e.extraModels + [model]);
          assert Models(e2) == Models(e) + [model];
          assert Distinct(e2.extraModels) by { if e.model != "" { DistinctSnoc(e.extraModels, model); } }
          UpdateKeepsSound(entries, i, e2);
        }
      }
    }
  }

  lemma NothingRepeats()
    ensures Distinct([])
  {
  }

  lemma DistinctSnoc(ids: seq<string>, id: string)
    requires Distinct(ids) && id !in ids
    ensures Distinct(ids + [id])
  {
  }

  /** A removal on the list of entries is a deletion from the map. */
  lemma RemovalRefines(entries: seq<Entry>, name0: string, model0: string, baseUrl: string)
    requires Sound(entries)
    ensures var m, next := Abstract(entries), Removed(entries, name0, model0, baseUrl);
            if next.None? then DeleteModel(m, name0, model0, baseUrl) == m
            else Sound(next.value) && next.value != [] && Abstract(next.value) == DeleteModel(m, name0, model0, baseUrl)
  {
    hide Trim, NormUrl, HasTerminator, IdSurvives, FindEntry, Abstract, NamesDistinct, Distinct, Without;
    var name, model := Trim(EcmaScript, name0), Trim(EcmaScript, model0);
    var url := if NormUrl(baseUrl) == "" then None else Some(NormUrl(baseUrl));
    if name != "" && model != "" {
      var i := Located(entries, name, url);
      if FindEntry(entries, name, url) < |entries| {
        var e := entries[i];
        assert Storable(e);
        var next :=
          if e.model != model then e.(extraModels := Without(e.extraModels, model))
          else if e.extraModels == [] then e.(model := "")
          else e.(model := e.extraModels[0], extraModels := e.extraModels[1..]);
        ModelsAfterRemoval(e, model, next);
        UpdateKeepsSound(entries, i, next);
      }
    }
  }

  lemma ModelsAfterRemoval(e: Entry, model: string, next: Entry)
    requires Storable(e) && model != "" && (e.model == "" ==> e.extraModels == [])
    requires next == if e.model != model then e.(extraModels := Without(e.extraModels, model))
                     else if e.extraModels == [] then e.(model := "")
                     else e.(model := e.extraModels[0], extraModels := e.extraModels[1..])
    ensures Storable(next) && Models(next) == Without(Models(e), model) && (next.model == "" ==> next.extraModels == [])
    ensures Meaning(next) == Meaning(e).(models := Without(Meaning(e).models, model))
  {
    hide HasTerminator, IdSurvives, Trim, Without;
    var ids := e.extraModels;
    WithoutShape(ids, model);
    if e.model != "" { WithoutConcat([e.model], ids, model); WithoutOne(e.model, model); }
    if e.model != model {
      forall j | 0 <= j < |Without(ids, model)| ensures IdSurvives(Without(ids, model)[j]) {
        assert Without(ids, model)[j] in Without(ids, model);
        var k :| 0 <= k < |ids| && ids[k] == Without(ids, model)[j];
      }
      assert next.model !in next.extraModels;
      if e.model == "" { assert Without([], model) == [] by { WithoutNone(model); } }
    } else {
      assert model !in ids;
      if ids != [] {
        assert IdSurvives(ids[0]);
        SurvivingIdFits(ids[0]);
        assert forall j :: 0 <= j < |ids[1..]| ==> ids[1..][j] == ids[j + 1];
        assert [ids[0]] + ids[1..] == ids;
      }
      assert !HasTerminator("") by { NoTerminatorInNothing(); }
    }
  }

  lemma WithoutOne(x: string, id: string)
    ensures Without([x], id) == if x == id then [] else [x]
  {
    assert [x][1..] == [];
  }

  lemma WithoutNone(id: string)
    ensures Without([], id) == []
  {
  }

  lemma NoTerminatorInNothing()
    ensures !HasTerminator("")
  {
  }

  // ---------------------------------------------------------------- the file

  /** Text before the block: the original file, its last line ended. */
  function Base(original: string): string {
    original + Separator(original)
  }

  /** The file holds no block for no entries, and otherwise the original text followed by the block. */
  predicate Holds(original: string, content: string, entries: seq<Entry>) {
    if entries == [] then content == original else content == Base(original) + Render(entries)
  }

  lemma ParseOfHeld(original: string, content: string, entries: seq<Entry>)
    requires IsForeign(Base(original)) && Sound(entries) && Holds(original, content, entries)
    ensures Parse(content) == entries
  {
    hide IsForeign, Render, Storable, NamesDistinct, Parse;
    if entries != [] {
      ParseInvertsRender(Base(original), entries);
    } else {
      ParseOfOriginal(original);
    }
  }

  lemma ParseOfOriginal(original: string)
    requires IsForeign(Base(original))
    ensures Parse(original) == []
  {
    hide IsHeader, HeaderLength, FactsOf, AllFacts, ScanFacts, Step, Trim;
    var lines := SplitLines(original);
    if Separator(original) == "" {
      assert Base(original) == original;
    } else {
      assert Base(original) == original + "\n" + "";
      SplitConcat(original, "");
      forall i | 0 <= i < |lines| ensures !IsHeader(lines[i]) {
        assert SplitLines(Base(original))[i] == lines[i];
      }
    }
    ScanForeign(lines);
  }

  lemma {:induction false} SuffixKeepsBreak(s: string)
    requires '\n' in SkipInline(s)
    ensures '\n' in s
  {
    hide IsInlineSpace;
    if s != "" && IsInlineSpace(s[0]) { SuffixKeepsBreak(s[1..]); }
  }

  lemma {:induction false} CommentEndHasBreak(s: string)
    requires CommentEndLength(s).Some?
    ensures '\n' in s
  {
    if s[0] == '\n' {
    } else if s[0] == '\r' {
      assert s[1] == '\n';
    } else {
      CommentEndHasBreak(s[1..]);
    }
  }

  lemma HeaderHasBreak(s: string)
    requires HeaderTail(s).Some?
    ensures '\n' in s
  {
    hide SkipInline, CommentEndLength;
    var t := SkipInline(s);
    var u := SkipInline(t[1..]);
    if u[0] == '#' { CommentEndHasBreak(u); } else if u[0] == '\r' { assert u[1] == '\n'; }
    SuffixKeepsBreak(t[1..]);
    assert '\n' in t;
    SuffixKeepsBreak(s);
  }

  lemma {:induction false} NoHeaderInOriginal(original: string, i: nat)
    requires IsForeign(Base(original)) && i <= |original|
    ensures FirstHeader(original, KEY, i).None?
    decreases |original| - i
  {
    hide HeaderTail, IsHeader;
    var base, s := Base(original), original[i..];
    assert base[i..] == s + Separator(original);
    assert AtLineStart(base, i) == AtLineStart(original, i);
    if HeaderLength(s, KEY).Some? {
      HeaderHasBreak(s[|KEY|..]);
      assert (s + Separator(original))[|KEY|..] == s[|KEY|..] + Separator(original);
      assert (s + Separator(original))[..|KEY|] == s[..|KEY|];
      HeaderTailBefore(s[|KEY|..], Separator(original));
      assert HeaderLength(base[i..], KEY).Some?;
    }
    if i < |original| { NoHeaderInOriginal(original, i + 1); }
  }

  /** Writing a list over a held one holds the new list. */
  lemma WriteHolds(original: string, content: string, entries: seq<Entry>, next: seq<Entry>)
    requires IsForeign(Base(original)) && Sound(entries) && Holds(original, content, entries) && next != []
    ensures Holds(original, Write(content, next), next)
  {
    hide IsForeign, Render, Storable, NamesDistinct, FindSpan;
    if entries == [] {
      assert FindSpan(original).None? by { NoSpanInOriginal(original); }
      assert Render(next) != "" by { RenderIsText(next); }
    } else {
      SpanOfRender(Base(original), entries);
      assert content[|content|..] == "" && content[..|Base(original)|] == Base(original);
      assert Base(original) + Render(next) + "" == Base(original) + Render(next);
    }
  }

  lemma RenderIsText(entries: seq<Entry>)
    requires entries != []
    ensures Render(entries) != ""
  {
    hide AllEntryLines;
  }

  lemma NoSpanInOriginal(original: string)
    requires IsForeign(Base(original))
    ensures FindSpan(original).None?
  {
    hide IsForeign;
    NoHeaderInOriginal(original, 0);
  }

  // ---------------------------------------------------------------- runs

  datatype Edit = Add(input: Input) | Delete(name: string, model: string, baseUrl: string)

  function EditText(content: string, edit: Edit): string {
    match edit
    case Add(input) => UpsertText(content, input)
    case Delete(name, model, baseUrl) => RemoveText(content, name, model, baseUrl)
  }

  function EditMap(m: map<string, Provider>, edit: Edit): map<string, Provider> {
    match edit
    case Add(input) => AddModel(m, input)
    case Delete(name, model, baseUrl) => DeleteModel(m, name, model, baseUrl)
  }

  function RunText(content: string, edits: seq<Edit>): string
    decreases |edits|
  {
    if edits == [] then content else RunText(EditText(content, edits[0]), edits[1..])
  }

  function RunMap(m: map<string, Provider>, edits: seq<Edit>): map<string, Provider>
    decreases |edits|
  {
    if edits == [] then m else RunMap(EditMap(m, edits[0]), edits[1..])
  }

  /** Every upsert of the run is admissible when its turn comes. */
  predicate RunAdmissible(m: map<string, Provider>, edits: seq<Edit>)
    decreases |edits|
  {
    edits == [] ||
    ((edits[0].Add? ==> Admissible(m, edits[0].input)) && RunAdmissible(EditMap(m, edits[0]), edits[1..]))
  }

  lemma EditRefines(original: string, content: string, entries: seq<Entry>, edit: Edit) returns (next: seq<Entry>)
    requires IsForeign(Base(original)) && Sound(entries) && Holds(original, content, entries)
    requires edit.Add? ==> Admissible(Abstract(entries), edit.input)
    ensures Sound(next) && Holds(original, EditText(content, edit), next)
    ensures Abstract(next) == EditMap(Abstract(entries), edit)
  {
    hide IsForeign, Sound, Holds, Parse, Upserted, Removed, AddModel, DeleteModel, Write, Admissible, Abstract;
    ParseOfHeld(original, content, entries);
    var changed: Option<seq<Entry>>;
    match edit {
      case Add(input) =>
        UpsertRefines(entries, input);
        changed := Upserted(entries, input);
      case Delete(name, model, baseUrl) =>
        RemovalRefines(entries, name, model, baseUrl);
        changed := Removed(entries, name, model, baseUrl);
    }
    next := if changed.Some? then changed.value else entries;
    if changed.Some? { WriteHolds(original, content, entries, next); }
  }

  lemma {:induction false} RunRefines(original: string, content: string, entries: seq<Entry>, edits: seq<Edit>)
    returns (last: seq<Entry>)
    requires IsForeign(Base(original)) && Sound(entries) && Holds(original, content, entries)
    requires RunAdmissible(Abstract(entries), edits)
    ensures Sound(last) && Holds(original, RunText(content, edits), last)
    ensures Abstract(last) == RunMap(Abstract(entries), edits)
    decreases |edits|
  {
    hide IsForeign, Sound, Holds, EditText, EditMap, Admissible, Abstract;
    if edits == [] {
      last := entries;
    } else {
      var next := EditRefines(original, content, entries, edits[0]);
      last := RunRefines(original, EditText(content, edits[0]), next, edits[1..]);
    }
  }

  /**
   * From any text without the header, every run of admissible edits leaves a file that parses to
   * the map the calls describe, and that still starts with the original text.
   */
  lemma TextRefinesMap(original: string, edits: seq<Edit>)
    requires IsForeign(Base(original)) && RunAdmissible(map[], edits)
    ensures Abstract(Parse(RunText(original, edits))) == RunMap(map[], edits)
    ensures original <= RunText(original, edits)
  {
    hide IsForeign, Parse, RunText, RunMap, RunAdmissible, Storable, Render;
    var last := RunRefines(original, original, [], edits);
    ParseOfHeld(original, RunText(original, edits), last);
  }
}
