/** When a second, identical upsert leaves the file as the first one left it, exactly. */
module ProvidersIdempotent {
  import opened Text
  import opened Quoting
  import opened ConfigScalars
  import opened ConfigBlocks
  import opened Providers
  import opened ProvidersLines
  import opened ProvidersScan
  import opened ProvidersEdits
  import opened ProvidersLaws
  import opened ProvidersAppend
  import opened ProvidersRepeat
  import opened ProvidersExact
  import opened ProvidersNewBlock
  import opened ProvidersNoOp

  // ---------------------------------------------------------------- the second upsert

  /** An upsert into a block writes behind its header. */
  lemma BlockStays(content: string, input: Input)
    requires BodyStart(content).Some? && Stored(input).Some?
    ensures BodyStart(UpsertText(content, input)) == BodyStart(content)
  {
    hide KindsOf, LinesOf, BodyStart, Stored, Locate, BlockOf, Concat, UpsertText, IsRow, IsLine, IsHead, UpdatedLines,
         AppendedLines;
    var n, e := BodyStart(content).value, Stored(input).value;
    Decomposed(content);
    var lines := LinesOf(content[n..]);
    var i := Locate(ViewsIn(content), input.keyEnv, e.slug);
    if i < |ViewsIn(content)| {
      UpsertEditsLines(content, input);
      HeadStays(content[..n], Concat(UpdatedLines(lines, i, e, n)));
    } else {
      AppendedAnyway(content, input);
      HeadStays(content[..n], Concat(AppendedLines(lines, e)));
    }
  }

  /**
   * The second upsert changes nothing exactly when the first one left nothing to do: its entry shows all that is asked
   * for, or, in a file where no block is found, there is no empty flow form any more.
   */
  lemma RepeatIff(content: string, input: Input)
    requires Stored(input).Some?
    ensures var after := UpsertText(content, input);
            var i := Locate(ViewsIn(after), input.keyEnv, Stored(input).value.slug);
            (BodyStart(content).Some? ==> BodyStart(after).Some?) &&
            (UpsertText(after, input) == after <==>
             if BodyStart(after).Some? then i < |ViewsIn(after)| &&
             IsSettled(ViewsIn(after)[i].fields, Stored(input).value)
             else FirstFlow(after, 0).None?)
  {
    hide BodyStart, Stored, Locate, ViewsIn, IsSettled, WithoutBlock, FirstFlow, HasKeyLine;
    var after := UpsertText(content, input);
    if BodyStart(content).Some? { BlockStays(content, input); }
    if BodyStart(after).Some? {
      NoOpIff(after, input);
    } else {
      NoOpWithoutBlockIff(after, input);
      NewBlockHasLine(content, Stored(input).value);
    }
  }

  // ---------------------------------------------------------------- an entry that is there

  lemma GluedIsUnsettled(e: Input)
    ensures !IsSettled(GluedFields(e), e)
  {
    KeysAreKeys();
  }

  /** Under an open header the first upsert loses a field, and no other entry shows it in its place. */
  lemma OpenHeaderIsUnsettled(views: seq<View>, e: Input, keyEnv: string, i: nat)
    requires e.keyEnv == keyEnv && i == Locate(views, keyEnv, e.slug) < |views| && views[i].fields == map[]
    ensures var after := views[i := View(views[i].slug, GluedFields(e))];
            var j := Locate(after, keyEnv, e.slug);
            j < |after| ==> !IsSettled(after[j].fields, e)
  {
    hide IsSettled, GluedFields;
    GluedIsUnsettled(e);
    GluedHasNoKey(e);
    var after := views[i := View(views[i].slug, GluedFields(e))];
    assert forall j :: 0 <= j < |views| ==> after[j].slug == views[j].slug;
    assert forall j :: 0 <= j < |views| && j != i ==> after[j] == views[j];
    var k, s := FindKeyEnv(after, keyEnv), FindSlug(after, e.slug);
  }

  lemma GluedHasNoKey(e: Input)
    ensures Get(GluedFields(e), "key_env") == ""
  {
    KeysAreKeys();
  }

  /**
   * Repeating an upsert that finds its entry, exactly: it changes nothing if and only if the values hold no line
   * terminator and the entry's header line ended with a line feed.
   */
  lemma RepeatUpdateIff(content: string, input: Input)
    requires BodyStart(content).Some? && Stored(input).Some?
    requires Locate(ViewsIn(content), input.keyEnv, Stored(input).value.slug) < |ViewsIn(content)|
    ensures var i := Locate(ViewsIn(content), input.keyEnv, Stored(input).value.slug);
            UpsertText(UpsertText(content, input), input) == UpsertText(content, input) <==>
            IsPlain(Stored(input).value) && HeaderIsClosed(content, i)
  {
    hide BodyStart, Stored, Locate, UpsertText, ViewsIn, HeaderIsClosed, IsPlain, IsSettled;
    var e, i := Stored(input).value, Locate(ViewsIn(content), input.keyEnv, Stored(input).value.slug);
    var after := UpsertText(content, input);
    RepeatIff(content, input);
    if !IsPlain(e) {
      var j := Locate(ViewsIn(after), input.keyEnv, e.slug);
      if j < |ViewsIn(after)| && IsSettled(ViewsIn(after)[j].fields, e) { ShownIsPlain(after, j, e); }
    } else if HeaderIsClosed(content, i) {
      RepeatAfterUpdate(content, input);
    } else {
      StoredIsSet(input);
      GluedUpdate(content, input);
      OpenHeaderIsUnsettled(ViewsIn(content), e, input.keyEnv, i);
    }
  }

  // ---------------------------------------------------------------- the block behind the header of a new entry

  function HeaderText(lines: seq<string>, e: Input): string {
    ChildIndent(BlockOf(KindsOf(lines))) + (e.slug + ":")
  }

  /** The block up to and with the line the header of the new entry comes to stand in: its own, or the open last one. */
  function WithHeader(lines: seq<string>, e: Input): Block {
    var ks := KindsOf(lines);
    if BodyLinesEnd(lines) || lines == [] then Step(BlockOf(ks), KindOf(HeaderText(lines, e)), BlockOf(ks).bodyEnd)
    else
      var k := |lines| - 1;
      Step(BlockOf(ks[..k]), KindOf(lines[k] + HeaderText(lines, e)), k)
  }

  /** The lines behind it are fields of its last entry: they stand deeper, and at the indent of the fields it has. */
  predicate TakesFields(c: Block, indent: nat) {
    c.entries != [] && indent > |c.childIndent| &&
    (Last(c.entries).fieldIndent == "" || |Last(c.entries).fieldIndent| == indent)
  }

  /** What the last entry shows in the end. */
  function LastShows(c: Block, indent: nat, e: Input): map<string, string>
    requires c.entries != []
  {
    var fields := Values(Last(c.entries).fields);
    if TakesFields(c, indent) then fields + NewFields(e) else fields
  }

  /** An entry of another slug is found under the key variable, and shows all that is asked for. */
  predicate IsAdopted(content: string, e: Input)
    requires BodyStart(content).Some?
  {
    var lines := LinesOf(content[BodyStart(content).value..]);
    var c := WithHeader(lines, e);
    e.keyEnv != "" && c.entries != [] &&
    IsSettled(LastShows(c, |ChildIndent(BlockOf(KindsOf(lines)))| + 2, e), e)
  }

  // ---------------------------------------------------------------- scanning the new field lines

  predicate AreAt(ks: seq<Kind>, indent: string) {
    forall i :: 0 <= i < |ks| ==> ks[i].Key? && ks[i].indent == indent
  }

  function PutKinds(fields: map<string, string>, ks: seq<Kind>): map<string, string>
    requires forall i :: 0 <= i < |ks| ==> ks[i].Key?
    decreases |ks|
  {
    if ks == [] then fields else PutKinds(fields[ks[0].key := ks[0].value], ks[1..])
  }

  lemma TakenStep(c: Block, k: Kind, row: nat)
    requires k.Key? && k.indent != "" && c.entries != [] && c.childIndent != "" && |k.indent| > |c.childIndent|
    ensures var d := Step(c, k, row);
            |d.entries| == |c.entries| && d.childIndent == c.childIndent &&
            d.entries[..|c.entries| - 1] == c.entries[..|c.entries| - 1] &&
            Last(d.entries).slug == Last(c.entries).slug &&
            TakesFields(d, |k.indent|) == TakesFields(c, |k.indent|) &&
            Values(Last(d.entries).fields) ==
              if TakesFields(c, |k.indent|) then Values(Last(c.entries).fields)[k.key := k.value]
              else Values(Last(c.entries).fields)
  {
    var e := Last(c.entries);
    var f := InEntry(e, k, row);
    assert Last(Step(c, k, row).entries) == f;
    assert TakesFields(c, |k.indent|) ==> Values(f.fields) == Values(e.fields)[k.key := k.value];
  }

  lemma {:induction false} FieldsTaken(c: Block, ks: seq<Kind>, row: nat, indent: string)
    requires AreAt(ks, indent) && indent != "" && c.entries != [] && c.childIndent != "" && |indent| > |c.childIndent|
    ensures var r := Scan(c, ks, row);
            |r.entries| == |c.entries| && r.entries[..|c.entries| - 1] == c.entries[..|c.entries| - 1] &&
            Last(r.entries).slug == Last(c.entries).slug &&
            Values(Last(r.entries).fields) ==
              if TakesFields(c, |indent|) then PutKinds(Values(Last(c.entries).fields), ks)
              else Values(Last(c.entries).fields)
    decreases |ks|
  {
    hide Step, Values, TakesFields;
    if ks != [] {
      TakenStep(c, ks[0], row);
      FieldsTaken(Step(c, ks[0], row), ks[1..], row + 1, indent);
    }
  }

  /** Too shallow for fields, the lines begin entries without any. */
  lemma {:induction false} FieldsBegin(c: Block, ks: seq<Kind>, row: nat, indent: string)
    requires AreAt(ks, indent) && indent != "" && if c.childIndent == "" then c.entries == []
             else |indent| <= |c.childIndent|
    ensures var r := Scan(c, ks, row);
            |r.entries| >= |c.entries| && r.entries[..|c.entries|] == c.entries &&
            forall j :: |c.entries| <= j < |r.entries| ==> r.entries[j].fields == map[]
    decreases |ks|
  {
    if ks != [] {
      var d := Step(c, ks[0], row);
      assert d.entries == c.entries + [Entry(ks[0].key, row, row + 1, "", map[])];
      FieldsBegin(d, ks[1..], row + 1, indent);
      var r := Scan(c, ks, row);
      assert r.entries[..|d.entries|][..|c.entries|] == r.entries[..|c.entries|];
      assert r.entries[|c.entries|] == r.entries[..|d.entries|][|c.entries|];
    }
  }

  predicate AreNewFields(ks: seq<Kind>, indent: string, e: Input) {
    |ks| == (if e.keyEnv == "" then 2 else 3) && IsKeyOf(ks[0], indent, "name", e.name) &&
    IsKeyOf(ks[1], indent, "base_url", e.baseUrl) && (e.keyEnv != "" ==> IsKeyOf(ks[2], indent, "key_env", e.keyEnv))
  }

  lemma PutNewFields(fields: map<string, string>, ks: seq<Kind>, indent: string, e: Input)
    requires AreNewFields(ks, indent, e)
    ensures AreAt(ks, indent) && PutKinds(fields, ks) == fields + NewFields(e)
  {
    KeysAreKeys();
    var f := fields["name" := e.name]["base_url" := e.baseUrl];
    assert PutKinds(fields, ks) == PutKinds(f, ks[1..][1..]);
    if e.keyEnv != "" {
      assert ks[1..][1..][1..] == [];
      assert PutKinds(f, ks[1..][1..]) == f["key_env" := e.keyEnv];
    }
  }

  /** What the views become: those before the last of `c` stay, and those behind it have no fields. */
  ghost predicate GoOn(c: Block, r: Block, shown: map<string, string>) {
    |r.entries| >= |c.entries| > 0 && r.entries[..|c.entries| - 1] == c.entries[..|c.entries| - 1] &&
    r.entries[|c.entries| - 1].slug == Last(c.entries).slug && Values(r.entries[|c.entries| - 1].fields) == shown &&
    forall j :: |c.entries| <= j < |r.entries| ==> r.entries[j].fields == map[]
  }

  lemma NewFieldsScan(c: Block, ks: seq<Kind>, row: nat, indent: string, e: Input)
    requires AreNewFields(ks, indent, e) && indent != "" && (c.entries == [] <==> c.childIndent == "")
    ensures var r := Scan(c, ks, row);
            if c.entries == [] then forall j :: 0 <= j < |r.entries| ==> r.entries[j].fields == map[]
            else GoOn(c, r, LastShows(c, |indent|, e)) && (TakesFields(c, |indent|) ==> |r.entries| == |c.entries|)
  {
    hide Values, NewFields, PutKinds, Scan;
    PutNewFields(if c.entries == [] then map[] else Values(Last(c.entries).fields), ks, indent, e);
    var r := Scan(c, ks, row);
    if c.entries != [] && |indent| > |c.childIndent| {
      FieldsTaken(c, ks, row, indent);
    } else {
      FieldsBegin(c, ks, row, indent);
      if c.entries != [] {
        var m := |c.entries|;
        assert r.entries[m - 1] == r.entries[..m][m - 1] && r.entries[..m - 1] == r.entries[..m][..m - 1];
      }
    }
  }

  // ---------------------------------------------------------------- the lines of the new entry

  lemma HeaderIsBody(indent: string, slug: string)
    requires IsIndent(indent) && '\n' !in slug
    ensures var t := indent + (slug + ":");
            IsBody(t) && IsLine(t + "\n") && Chomp(t + "\n") == t && (KindOf(t).Key? || KindOf(t).Other?)
  {
    hide KeyRun, SkipInline, HasTerminator, StripScalar, TrimEnd, IsSpace, TrimStart;
    var t := indent + (slug + ":");
    assert '\n' !in t;
    assert t[|t| - 1] == ':' && t[0] == indent[0];
    ChompLine(t);
    assert (t + "\n")[..|t|] == t;
    assert TrimStart(EcmaScript, t) != "" by {
      TrimStartShape(EcmaScript, t);
      assert !IsSpace(EcmaScript, t[|t| - 1]) by { CharClasses(); }
    }
  }

  lemma NewFieldLines(indent: string, e: Input)
    requires IsPlain(e) && IsIndent(indent) && '\n' !in e.slug
    ensures var more := EntryLines(indent, e);
            AreLines(more) && StartsWithBody(more) && more[0] == indent + (e.slug + ":") + "\n" &&
            AreNewFields(KindsOf(more[1..]), indent + "  ", e) && HasNoTop(KindsOf(more[1..]))
  {
    hide KindOf, Chomp, Quote, FieldLine, IsLine, HasTerminator, IsKey, IsBody;
    var sub := indent + "  ";
    assert IsIndent(sub);
    KeysAreKeys();
    HeaderIsBody(indent, e.slug);
    FieldLineKind(sub, "name", e.name);
    FieldLineKind(sub, "base_url", e.baseUrl);
    FieldLineKind(sub, "key_env", e.keyEnv);
    var more := EntryLines(indent, e);
    assert more[0][..|more[0]| - 1] == indent + (e.slug + ":");
    var rest := more[1..];
    assert rest[0] == FieldLine(sub, "name", e.name) && rest[1] == FieldLine(sub, "base_url", e.baseUrl);
    assert e.keyEnv != "" ==> rest[2] == FieldLine(sub, "key_env", e.keyEnv);
  }

  /** The lines after an upsert that does not find its entry, wherever the body ends. */
  function LinesAfter(lines: seq<string>, e: Input): seq<string> {
    if BodyLinesEnd(lines) || lines == [] then AppendedLines(lines, e)
    else Glued(lines, EntryLines(ChildIndent(BlockOf(KindsOf(lines))), e))
  }

  lemma AfterClosed(lines: seq<string>, e: Input)
    requires AreRows(lines) && IsPlain(e) && '\n' !in e.slug && BodyLinesEnd(lines)
    ensures var b := BlockOf(KindsOf(lines));
            var rest := KindsOf(EntryLines(ChildIndent(b), e)[1..]);
            AreRows(LinesAfter(lines, e)) &&
            BlockOf(KindsOf(LinesAfter(lines, e))) == Scan(WithHeader(lines, e), rest, b.bodyEnd + 1)
  {
    hide KindOf, EntryLines, Scan, IsLine, IsRow, IsIndent, HasNoTop, Chomp, Step, HasTerminator, IsBody, AreNewFields;
    var ks := KindsOf(lines);
    var b := BlockOf(ks);
    var more := EntryLines(ChildIndent(b), e);
    BlockInside(ks);
    BlockUpToEnd(ks);
    ChildIsIndent(lines);
    NewFieldLines(ChildIndent(b), e);
    HeaderIsBody(ChildIndent(b), e.slug);
    RowsWithLines(lines, b.bodyEnd, more);
    var h, rest := KindOf(HeaderText(lines, e)), KindsOf(more[1..]);
    var a, c := ks[..b.bodyEnd], ks[b.bodyEnd..];
    assert KindsOf(AppendedLines(lines, e)) == a + ([h] + (rest + c));
    ScanConcat(EMPTY_BLOCK, a, [h] + (rest + c), 0);
    OneIsNoTop(h);
    ScanConcat(b, [h], rest + c, b.bodyEnd);
    OneScan(b, h, b.bodyEnd);
    ScanConcat(Step(b, h, b.bodyEnd), rest, c, b.bodyEnd + 1);
    SilentScan(Scan(Step(b, h, b.bodyEnd), rest, b.bodyEnd + 1), c, b.bodyEnd + 1 + |rest|);
  }

  lemma OpenIsGlued(lines: seq<string>, e: Input)
    requires !BodyLinesEnd(lines) && lines != []
    ensures LinesAfter(lines, e) == Glued(lines, EntryLines(ChildIndent(BlockOf(KindsOf(lines))), e))
    ensures var k := |lines| - 1;
            WithHeader(lines, e) == Step(BlockOf(KindsOf(lines)[..k]), KindOf(lines[k] + HeaderText(lines, e)), k)
  {
    hide BodyLinesEnd, EntryLines, KindOf, KindsOf, Scan, Step, HeaderText, Glued;
  }

  lemma AfterOpen(lines: seq<string>, e: Input)
    requires AreRows(lines) && IsPlain(e) && '\n' !in e.slug && !BodyLinesEnd(lines)
    ensures var rest := KindsOf(EntryLines(ChildIndent(BlockOf(KindsOf(lines))), e)[1..]);
            AreRows(LinesAfter(lines, e)) && Concat(LinesAfter(lines, e)) == Concat(AppendedLines(lines, e)) &&
            BlockOf(KindsOf(LinesAfter(lines, e))) == Scan(WithHeader(lines, e), rest, |lines|)
  {
    hide KindOf, KindsOf, EntryLines, Scan, IsLine, IsRow, IsIndent, HasNoTop, Chomp, Step, HasTerminator, IsBody,
         AreNewFields, Glued, Concat, LinesAfter, WithHeader, BodyLinesEnd;
    var ks := KindsOf(lines);
    var b := BlockOf(ks);
    var more := EntryLines(ChildIndent(b), e);
    BlockInside(ks);
    ChildIsIndent(lines);
    NewFieldLines(ChildIndent(b), e);
    assert more[0][..|more[0]| - 1] == HeaderText(lines, e);
    BodyAtEnd(lines);
    OpenIsGlued(lines, e);
    GluedLines(lines, more);
    GluedScan(lines, more);
    assert AppendedLines(lines, e) == lines + more;
  }

  // ---------------------------------------------------------------- what the header changes

  /** The entries of `c` before its last one are listed as in `b`. */
  ghost predicate AgreeBeforeLast(b: Block, c: Block) {
    forall j :: 0 <= j < |c.entries| - 1 ==> j < |b.entries| && ViewOf(c.entries[j]) == ViewOf(b.entries[j])
  }

  lemma OneLineApart(b0: Block, k: Kind, g: Kind, row: nat)
    requires IsSameLine(k, g) && (k.Key? || k.Other?)
    ensures AgreeBeforeLast(Step(b0, k, row), Step(b0, g, row))
  {
    hide InEntry;
  }

  lemma OneLineMore(b: Block, g: Kind, row: nat)
    requires g.Key? || g.Other?
    ensures AgreeBeforeLast(b, Step(b, g, row))
  {
  }

  lemma HeaderAgrees(lines: seq<string>, e: Input)
    requires AreRows(lines) && IsPlain(e) && '\n' !in e.slug
    ensures AgreeBeforeLast(BlockOf(KindsOf(lines)), WithHeader(lines, e))
    ensures !BodyLinesEnd(lines) && IsKey(e.slug) ==>
              (var b, c := BlockOf(KindsOf(lines)), WithHeader(lines, e);
              |c.entries| == |b.entries| && forall j :: 0 <= j < |c.entries| ==> c.entries[j].slug == b.entries[j].slug)
  {
    hide KindOf, KindsOf, EntryLines, Scan, IsLine, IsRow, IsIndent, HasNoTop, Chomp, Step, HasTerminator, IsBody,
         AreNewFields, Glued, AgreeBeforeLast, IsKey, IsPiece, IsSameKind, IsSameLine;
    var ks := KindsOf(lines);
    var b := BlockOf(ks);
    var t := HeaderText(lines, e);
    ChildIsIndent(lines);
    HeaderIsBody(ChildIndent(b), e.slug);
    if BodyLinesEnd(lines) {
      OneLineMore(b, KindOf(t), b.bodyEnd);
    } else {
      BodyAtEnd(lines);
      var more := EntryLines(ChildIndent(b), e);
      NewFieldLines(ChildIndent(b), e);
      assert more[0][..|more[0]| - 1] == t;
      GluedScan(lines, more);
      var k := |lines| - 1;
      OneLineApart(BlockOf(ks[..k]), ks[k], KindOf(lines[k] + t), k);
      if IsKey(e.slug) {
        SlugPiece(ChildIndent(b), e.slug);
        StepSameShape(BlockOf(ks[..k]), ks[k], KindOf(lines[k] + t), k);
      }
    }
  }

  predicate HasIndent(b: Block) {
    b.entries == [] <==> b.childIndent == ""
  }

  lemma StepHasIndent(b: Block, text: string, row: nat)
    requires HasIndent(b)
    ensures HasIndent(Step(b, KindOf(text), row))
  {
    hide KindOf;
    if KindOf(text).Key? {
      var gap, rest := PartsOfKey(text);
    }
  }

  lemma ScanHasIndent(lines: seq<string>)
    ensures HasIndent(BlockOf(KindsOf(lines)))
  {
    hide KindOf, Chomp, Scan, EntryFits, IsDeep, IsIndent;
    KindsAreIndented(lines);
    BlockFits(KindsOf(lines));
  }

  lemma HeaderHasIndent(lines: seq<string>, e: Input)
    requires AreRows(lines)
    ensures HasIndent(WithHeader(lines, e))
  {
    hide KindOf, Chomp, Scan, Step, HasIndent, IsRow, IsLine;
    if BodyLinesEnd(lines) || lines == [] {
      ScanHasIndent(lines);
      StepHasIndent(BlockOf(KindsOf(lines)), HeaderText(lines, e), BlockOf(KindsOf(lines)).bodyEnd);
    } else {
      var k := |lines| - 1;
      ScanHasIndent(lines[..k]);
      assert KindsOf(lines[..k]) == KindsOf(lines)[..k];
      StepHasIndent(BlockOf(KindsOf(lines)[..k]), lines[k] + HeaderText(lines, e), k);
    }
  }

  // ---------------------------------------------------------------- an entry that was not there

  /** The lines after the upsert, and what they are read as. */
  lemma AppendedViews(content: string, input: Input)
    requires BodyStart(content).Some? && Stored(input).Some? && IsPlain(Stored(input).value) &&
             '\n' !in Stored(input).value.slug
    requires Locate(ViewsIn(content), input.keyEnv, Stored(input).value.slug) == |ViewsIn(content)|
    ensures var e, after := Stored(input).value, UpsertText(content, input);
            var lines := LinesOf(content[BodyStart(content).value..]);
            var r, c := BlockOf(KindsOf(LinesAfter(lines, e))), WithHeader(lines, e);
            AreRows(lines) && ViewsIn(content) == Views(BlockOf(KindsOf(lines)).entries) &&
            ViewsIn(after) == Views(r.entries) &&
            if c.entries == [] then forall j :: 0 <= j < |r.entries| ==> r.entries[j].fields == map[]
            else
              var indent := |ChildIndent(BlockOf(KindsOf(lines)))| + 2;
              GoOn(c, r, LastShows(c, indent, e)) && (TakesFields(c, indent) ==> |r.entries| == |c.entries|)
  {
    hide KindsOf, LinesOf, BodyStart, Stored, Locate, BlockOf, Concat, UpsertText, IsRow, IsLine, IsHead, HasTerminator,
         AppendedLines, EntryLines, LinesAfter, WithHeader, BodyLinesEnd, GoOn, LastShows, AreNewFields, Scan,
         HasNoTop, IsBody, Views;
    var n, e := BodyStart(content).value, Stored(input).value;
    Decomposed(content);
    AppendedAnyway(content, input);
    var lines := LinesOf(content[n..]);
    var indent := ChildIndent(BlockOf(KindsOf(lines)));
    assert Concat(LinesAfter(lines, e)) == Concat(AppendedLines(lines, e)) by {
      if BodyLinesEnd(lines) { ClosedIsAppended(lines, e); } else { AfterOpen(lines, e); }
    }
    if BodyLinesEnd(lines) { AfterClosed(lines, e); } else { AfterOpen(lines, e); }
    Recomposed(content[..n], LinesAfter(lines, e));
    ChildIsIndent(lines);
    NewFieldLines(indent, e);
    HeaderHasIndent(lines, e);
    var row: nat := if BodyLinesEnd(lines) then BlockOf(KindsOf(lines)).bodyEnd + 1 else |lines|;
    NewFieldsScan(WithHeader(lines, e), KindsOf(EntryLines(indent, e)[1..]), row, indent + "  ", e);
  }

  lemma ClosedIsAppended(lines: seq<string>, e: Input)
    requires BodyLinesEnd(lines)
    ensures LinesAfter(lines, e) == AppendedLines(lines, e)
  {
    hide BodyLinesEnd, AppendedLines;
  }

  lemma NothingIsUnsettled(e: Input)
    ensures !IsSettled(map[], e) && Get(map[], "key_env") == ""
  {
  }

  /**
   * Looking the new entry up again: it is not there under its slug, and an entry under its key variable that shows
   * everything can only be the one that was last when the header was written.
   */
  lemma OnlyTheLast(views: seq<View>, after: seq<View>, m: nat, keyEnv: string, e: Input)
    requires Locate(views, keyEnv, e.slug) == |views| && e.keyEnv == keyEnv && m <= |after|
    requires forall j :: 0 <= j < m - 1 ==> j < |views| && after[j] == views[j]
    requires forall j :: 0 <= j < m ==> after[j].slug != e.slug
    requires forall j :: m <= j < |after| ==> after[j].fields == map[]
    ensures var i := Locate(after, keyEnv, e.slug);
            i < |after| && IsSettled(after[i].fields, e) <==>
            keyEnv != "" && m > 0 && IsSettled(after[m - 1].fields, e)
  {
    hide Get;
    NothingIsUnsettled(e);
    var k, s := FindKeyEnv(after, keyEnv), FindSlug(after, e.slug);
    assert FindKeyEnv(views, keyEnv) == |views|;
    if m > 0 && keyEnv != "" && IsSettled(after[m - 1].fields, e) {
      assert Get(after[m - 1].fields, "key_env") == keyEnv by { SettledKey(after[m - 1].fields, e); }
      assert k == m - 1;
    }
  }

  lemma SettledKey(fields: map<string, string>, e: Input)
    requires IsSettled(fields, e) && e.keyEnv != ""
    ensures Get(fields, "key_env") == e.keyEnv
  {
  }

  lemma SlugsAreKeys(lines: seq<string>, j: nat)
    requires j < |BlockOf(KindsOf(lines)).entries|
    ensures IsKey(BlockOf(KindsOf(lines)).entries[j].slug)
  {
    hide KindsOf, BlockOf, IsKey, HasTerminator;
    ViewIsListable(lines, j);
  }

  /** No entry up to the last one before the new field lines has the slug that is looked for. */
  lemma SlugIsMissed(lines: seq<string>, e: Input, j: nat)
    requires AreRows(lines) && IsPlain(e) && '\n' !in e.slug && !(BodyLinesEnd(lines) && IsKey(e.slug))
    requires var c, r := WithHeader(lines, e), BlockOf(KindsOf(LinesAfter(lines, e)));
             j < |c.entries| <= |r.entries| && r.entries[j].slug == c.entries[j].slug
    requires forall x :: 0 <= x < |BlockOf(KindsOf(lines)).entries| ==>
               BlockOf(KindsOf(lines)).entries[x].slug != e.slug
    ensures BlockOf(KindsOf(LinesAfter(lines, e))).entries[j].slug != e.slug
  {
    hide KindsOf, BlockOf, IsKey, HasTerminator, BodyLinesEnd, LinesAfter, WithHeader, IsRow, IsLine;
    HeaderAgrees(lines, e);
    SlugsAreKeys(LinesAfter(lines, e), j);
  }

  lemma RepeatOther(content: string, input: Input)
    requires BodyStart(content).Some? && Stored(input).Some? && IsPlain(Stored(input).value) &&
             '\n' !in Stored(input).value.slug
    requires Locate(ViewsIn(content), input.keyEnv, Stored(input).value.slug) == |ViewsIn(content)|
    requires !(BodyIsClosed(content) && IsKey(Stored(input).value.slug))
    ensures UpsertText(UpsertText(content, input), input) == UpsertText(content, input) <==>
            IsAdopted(content, Stored(input).value)
  {
    hide KindsOf, LinesOf, BodyStart, Stored, Locate, BlockOf, UpsertText, IsRow, IsLine, HasTerminator, ViewsIn,
         LinesAfter, WithHeader, BodyLinesEnd, LastShows, IsSettled, IsKey, ViewOf;
    var e, after := Stored(input).value, UpsertText(content, input);
    var lines := LinesOf(content[BodyStart(content).value..]);
    StoredIsSet(input);
    RepeatIff(content, input);
    AppendedViews(content, input);
    HeaderAgrees(lines, e);
    var b, c, r := BlockOf(KindsOf(lines)), WithHeader(lines, e), BlockOf(KindsOf(LinesAfter(lines, e)));
    var views, next, m := ViewsIn(content), ViewsIn(after), |c.entries|;
    forall x | 0 <= x < |b.entries| ensures b.entries[x].slug != e.slug {
      NotLocated(views, input.keyEnv, e.slug, x);
      assert views[x] == ViewOf(b.entries[x]);
      ViewFields(b.entries[x]);
    }
    forall j | 0 <= j < |next|
      ensures next[j].slug == r.entries[j].slug && next[j].fields == Values(r.entries[j].fields) {
      ViewFields(r.entries[j]);
    }
    NoValues();
    if m > 1 { assert ViewOf(c.entries[m - 2]) == ViewOf(b.entries[m - 2]); }
    forall j | 0 <= j < m - 1 ensures next[j] == views[j] {
      assert r.entries[j] == r.entries[..m - 1][j] == c.entries[j];
      assert ViewOf(c.entries[j]) == ViewOf(b.entries[j]);
    }
    forall j | 0 <= j < m ensures next[j].slug != e.slug {
      if j < m - 1 { assert r.entries[j] == r.entries[..m - 1][j] == c.entries[j]; }
      SlugIsMissed(lines, e, j);
    }
    OnlyTheLast(views, next, m, input.keyEnv, e);
  }

  lemma NotLocated(views: seq<View>, keyEnv: string, slug: string, x: nat)
    requires Locate(views, keyEnv, slug) == |views| && x < |views|
    ensures views[x].slug != slug
  {
    hide Get;
  }

  lemma ViewFields(e: Entry)
    ensures ViewOf(e).slug == e.slug && ViewOf(e).fields == Values(e.fields)
  {
    hide Values;
  }

  /**
   * Repeating an upsert that adds an entry, exactly: it changes nothing if and only if the values hold no line
   * terminator, and either the new entry can be read back, its slug a key and the body's last line ended, or the key
   * variable finds the entry the new field lines went to and that entry shows them all.
   */
  lemma RepeatAppendIff(content: string, input: Input)
    requires BodyStart(content).Some? && Stored(input).Some? && '\n' !in Stored(input).value.slug
    requires Locate(ViewsIn(content), input.keyEnv, Stored(input).value.slug) == |ViewsIn(content)|
    ensures var e := Stored(input).value;
            UpsertText(UpsertText(content, input), input) == UpsertText(content, input) <==>
            IsPlain(e) && ((IsKey(e.slug) && BodyIsClosed(content)) || IsAdopted(content, e))
  {
    hide BodyStart, Stored, Locate, UpsertText, ViewsIn, BodyIsClosed, HasTerminator, IsKey, IsSettled, IsAdopted;
    var e, after := Stored(input).value, UpsertText(content, input);
    StoredIsSet(input);
    if !IsPlain(e) {
      RepeatIff(content, input);
      var j := Locate(ViewsIn(after), input.keyEnv, e.slug);
      if j < |ViewsIn(after)| && IsSettled(ViewsIn(after)[j].fields, e) { ShownIsPlain(after, j, e); }
    } else if BodyIsClosed(content) && IsKey(e.slug) {
      RepeatAfterAppend(content, input);
    } else {
      RepeatOther(content, input);
    }
  }
}
