/** The block finder over offsets and the edits of the file, proved against the functions over lines. */
module ProvidersFile {
  import opened Text
  import opened Quoting
  import opened ConfigBlocks
  import opened ConfigFiles
  import opened Providers
  import opened ProvidersEdits

  /** A field as the finder records it: its value and the offsets around the raw value. */
  datatype FieldSpan = FieldSpan(value: string, valueStart: nat, valueEnd: nat)

  datatype EntrySpan = EntrySpan(slug: string, start: nat, end: nat, headerEnd: nat, fieldIndent: string,
                                 fields: map<string, FieldSpan>)

  datatype SpanBlock = SpanBlock(bodyEnd: nat, childIndent: string, entries: seq<EntrySpan>)

  // ---------------------------------------------------------------- rows as offsets

  function FieldSpanOf(base: nat, lines: seq<string>, f: Field): FieldSpan {
    var at := base + (if f.row <= |lines| then Offset(lines, f.row) else 0) + f.at;
    FieldSpan(f.value, at, at + f.size)
  }

  function FieldSpans(base: nat, lines: seq<string>, fields: map<string, Field>): map<string, FieldSpan> {
    map k | k in fields :: FieldSpanOf(base, lines, fields[k])
  }

  function EntrySpanOf(base: nat, lines: seq<string>, e: Entry): EntrySpan
    requires e.row < e.end <= |lines|
  {
    EntrySpan(e.slug, base + Offset(lines, e.row), base + Offset(lines, e.end), base + Offset(lines, e.row + 1),
      e.fieldIndent,
              FieldSpans(base, lines, e.fields))
  }

  function EntrySpans(base: nat, lines: seq<string>, entries: seq<Entry>): (r: seq<EntrySpan>)
    requires forall e :: e in entries ==> e.row < e.end <= |lines|
    ensures |r| == |entries|
  {
    seq(|entries|, i requires 0 <= i < |entries| => EntrySpanOf(base, lines, entries[i]))
  }

  /** What `findProvidersBlock` returns: the block of the scan, rows replaced by offsets. */
  function SpansIn(content: string): Option<SpanBlock> {
    var start := BodyStart(content);
    if start.None? then None
    else
      var lines := LinesOf(content[start.value..]);
      var b := BlockOf(KindsOf(lines));
      BlockInside(KindsOf(lines));
      Some(SpanBlock(start.value + Offset(lines, b.bodyEnd), ChildIndent(b), EntrySpans(start.value, lines, b.entries)))
  }

  lemma OffsetNext(lines: seq<string>, row: nat)
    requires row < |lines|
    ensures Offset(lines, row + 1) == Offset(lines, row) + |lines[row]|
  {
    hide Concat;
    assert lines[..row + 1] == lines[..row] + [lines[row]] + [];
    ConcatThree(lines[..row], [lines[row]], []);
    ConcatOne(lines[row]);
    assert Concat([]) == "" by { NoLines(); }
  }

  lemma NoLines()
    ensures Concat([]) == ""
  {
  }

  lemma StepInside(b: Block, k: Kind, row: nat, n: nat)
    requires Inside(b, row) && row < n && !k.Top?
    ensures Inside(Step(b, k, row), row + 1)
  {
    assert Scan(b, [k], row) == Step(b, k, row) by { assert [k][1..] == []; }
    ScanInside(b, [k], row);
  }

  lemma FieldSpansAdd(base: nat, lines: seq<string>, fields: map<string, Field>, key: string, f: Field)
    ensures FieldSpans(base, lines, fields[key := f]) ==
              FieldSpans(base, lines, fields)[key := FieldSpanOf(base, lines, f)]
  {
  }

  lemma NoFieldSpans(base: nat, lines: seq<string>)
    ensures FieldSpans(base, lines, map[]) == map[]
  {
  }

  /** The record of the entry being read, after one more key line. */
  function SpanAfterKey(current: EntrySpan, k: Kind, offset: nat, length: nat): EntrySpan
    requires k.Key?
  {
    var indent := if current.fieldIndent == "" then k.indent else current.fieldIndent;
    current.(end := offset + length, fieldIndent := indent,
             fields := if |k.indent| == |indent| then
               current.fields[k.key := FieldSpan(k.value, offset + k.at, offset + k.at + |k.raw|)] else current.fields)
  }

  lemma InEntrySpan(base: nat, lines: seq<string>, e: Entry, k: Kind, row: nat)
    requires e.row < e.end <= row < |lines| && k.Key?
    ensures EntrySpanOf(base, lines, InEntry(e, k, row)) ==
            SpanAfterKey(EntrySpanOf(base, lines, e), k, base + Offset(lines, row), |lines[row]|)
  {
    hide Offset, FieldSpans;
    OffsetNext(lines, row);
    FieldSpansAdd(base, lines, e.fields, k.key, Field(k.value, row, k.at, |k.raw|));
  }

  lemma LastSpan(base: nat, lines: seq<string>, entries: seq<Entry>, e: Entry)
    requires entries != [] && (forall x :: x in entries ==> x.row < x.end <= |lines|) && e.row < e.end <= |lines|
    ensures (forall x :: x in LastAs(entries, e) ==> x.row < x.end <= |lines|) &&
            EntrySpans(base, lines, LastAs(entries, e)) ==
            EntrySpans(base, lines, entries)[|entries| - 1 := EntrySpanOf(base, lines, e)]
  {
    hide EntrySpanOf;
  }

  lemma NewEntrySpan(base: nat, lines: seq<string>, entries: seq<Entry>, key: string, row: nat)
    requires (forall x :: x in entries ==> x.row < x.end <= |lines|) && row < |lines|
    ensures var e := Entry(key, row, row + 1, "", map[]);
            (forall x :: x in entries + [e] ==> x.row < x.end <= |lines|) &&
            EntrySpans(base, lines, entries + [e]) == EntrySpans(base, lines, entries) +
              [EntrySpan(key, base + Offset(lines, row), base + Offset(lines, row) + |lines[row]|,
                base + Offset(lines, row) + |lines[row]|, "", map[])]
  {
    hide Offset, FieldSpans;
    OffsetNext(lines, row);
    NoFieldSpans(base, lines);
  }

  /** What one key line does to the records of the finder. */
  method RecordKey(childIndent: string, entries: seq<EntrySpan>, k: Kind, offset: nat, length: nat,
                   ghost base: nat, ghost lines: seq<string>, ghost b: Block, ghost row: nat)
    returns (child: string, next: seq<EntrySpan>)
    requires k.Key? && row < |lines| && Inside(b, row) && offset == base + Offset(lines, row) && length == |lines[row]|
    requires childIndent == b.childIndent && (forall e :: e in b.entries ==> e.row < e.end <= |lines|) &&
             entries == EntrySpans(base, lines, b.entries)
    ensures var c := Step(b, k, row);
            (forall e :: e in c.entries ==> e.row < e.end <= |lines|) && child == c.childIndent &&
            next == EntrySpans(base, lines, c.entries)
  {
    hide EntrySpans, EntrySpanOf, Offset, InEntry;
    child, next := childIndent, entries;
    if child == "" { child := k.indent; }
    if |k.indent| <= |child| {
      NewEntrySpan(base, lines, b.entries, k.key, row);
      next := next + [EntrySpan(k.key, offset, offset + length, offset + length, "", map[])];
    } else if |next| > 0 {
      ghost var e := Last(b.entries);
      assert e in b.entries && e.end <= row;
      var current := next[|next| - 1];
      assert current == EntrySpanOf(base, lines, e) by { SpanAt(base, lines, b.entries, |b.entries| - 1); }
      InEntrySpan(base, lines, e, k, row);
      InEntryRow(e, k, row);
      LastSpan(base, lines, b.entries, InEntry(e, k, row));
      if current.fieldIndent == "" { current := current.(fieldIndent := k.indent); }
      if |k.indent| == |current.fieldIndent| {
        var valueStart := offset + k.at;
        current := current.(fields := current.fields[k.key := FieldSpan(k.value, valueStart, valueStart + |k.raw|)]);
      }
      current := current.(end := offset + length);
      next := next[|next| - 1 := current];
    }
  }

  lemma InEntryRow(e: Entry, k: Kind, row: nat)
    requires k.Key?
    ensures InEntry(e, k, row).row == e.row && InEntry(e, k, row).end == row + 1
  {
  }

  lemma SpanAt(base: nat, lines: seq<string>, entries: seq<Entry>, i: nat)
    requires (forall e :: e in entries ==> e.row < e.end <= |lines|) && i < |entries|
    ensures EntrySpans(base, lines, entries)[i] == EntrySpanOf(base, lines, entries[i])
  {
  }

  lemma EndSpan(base: nat, lines: seq<string>, e: Entry, row: nat)
    requires e.row < e.end <= row < |lines|
    ensures EntrySpanOf(base, lines, e.(end := row + 1)) ==
              EntrySpanOf(base, lines, e).(end := base + Offset(lines, row) + |lines[row]|)
  {
    hide Offset, FieldSpans;
    OffsetNext(lines, row);
  }

  /** Any other line that is not blank belongs to the entry being read. */
  method RecordOther(entries: seq<EntrySpan>, offset: nat, length: nat,
                     ghost base: nat, ghost lines: seq<string>, ghost b: Block, ghost row: nat)
    returns (next: seq<EntrySpan>)
    requires row < |lines| && Inside(b, row) && offset == base + Offset(lines, row) && length == |lines[row]|
    requires (forall e :: e in b.entries ==> e.row < e.end <= |lines|) && entries == EntrySpans(base, lines, b.entries)
    ensures var c := Step(b, Other, row);
            (forall e :: e in c.entries ==> e.row < e.end <= |lines|) && next == EntrySpans(base, lines, c.entries)
  {
    hide EntrySpans, EntrySpanOf, Offset, InEntry;
    next := entries;
    if |next| > 0 {
      ghost var e := Last(b.entries);
      assert e in b.entries && e.end <= row;
      SpanAt(base, lines, b.entries, |b.entries| - 1);
      EndSpan(base, lines, e, row);
      LastSpan(base, lines, b.entries, e.(end := row + 1));
      next := next[|next| - 1 := next[|next| - 1].(end := offset + length)];
    }
  }

  /** `findProvidersBlock` */
  method FindBlock(content: string) returns (block: Option<SpanBlock>)
    ensures block == SpansIn(content)
  {
    hide KindOf, LinesOf, BodyStart, EntrySpans, Step, Inside, Concat;
    var header := BodyStart(content);
    if header.None? { return None; }
    var bodyStart := header.value;
    var lines := LinesOf(content[bodyStart..]);
    ghost var ks := KindsOf(lines);
    ghost var b := EMPTY_BLOCK;
    var childIndent, offset, bodyEnd, row := "", bodyStart, bodyStart, 0;
    var entries: seq<EntrySpan> := [];
    EmptySpans(bodyStart, lines);
    assert ks[0..] == ks;
    while row < |lines|
      invariant row <= |lines| && Inside(b, row) && BlockOf(ks) == Scan(b, ks[row..], row)
      invariant offset == bodyStart + Offset(lines, row) && b.bodyEnd <= row &&
                bodyEnd == bodyStart + Offset(lines, b.bodyEnd)
      invariant forall e :: e in b.entries ==> e.row < e.end <= |lines|
      invariant childIndent == b.childIndent && entries == EntrySpans(bodyStart, lines, b.entries)
    {
      var line := lines[row];
      var k := KindOf(Chomp(line));
      assert ks[row..][0] == k && ks[row..][1..] == ks[row + 1..];
      if k.Top? { break; }
      StepInside(b, k, row, |lines|);
      OffsetNext(lines, row);
      StepEnds(b, k, row);
      if k.Key? {
        childIndent, entries := RecordKey(childIndent, entries, k, offset, |line|, bodyStart, lines, b, row);
        bodyEnd := offset + |line|;
      } else if k.Other? {
        entries := RecordOther(entries, offset, |line|, bodyStart, lines, b, row);
        bodyEnd := offset + |line|;
      }
      b := Step(b, k, row);
      offset := offset + |line|;
      row := row + 1;
    }
    assert BlockOf(ks) == b;
    block := Some(SpanBlock(bodyEnd, if childIndent == "" then "  " else childIndent, entries));
  }

  lemma StepEnds(b: Block, k: Kind, row: nat)
    ensures var c := Step(b, k, row);
            (if k.Blank? || k.Top? then c == b else c.bodyEnd == row + 1) &&
            (k.Other? ==> c.childIndent == b.childIndent)
  {
    hide InEntry;
  }

  lemma EmptySpans(base: nat, lines: seq<string>)
    ensures EntrySpans(base, lines, []) == [] && Offset(lines, 0) == 0 && Inside(EMPTY_BLOCK, 0)
  {
    assert lines[..0] == [];
  }

  // ---------------------------------------------------------------- reading the records

  function SpanValue(fields: map<string, FieldSpan>, key: string): string {
    if key in fields then fields[key].value else ""
  }

  function SpanView(e: EntrySpan): View {
    View(e.slug, map k | k in e.fields :: e.fields[k].value)
  }

  function SpanViews(entries: seq<EntrySpan>): (r: seq<View>)
    ensures |r| == |entries|
  {
    seq(|entries|, i requires 0 <= i < |entries| => SpanView(entries[i]))
  }

  lemma SpanViewsAreViews(base: nat, lines: seq<string>, entries: seq<Entry>)
    requires forall e :: e in entries ==> e.row < e.end <= |lines|
    ensures SpanViews(EntrySpans(base, lines, entries)) == Views(entries)
  {
    hide Offset, FieldSpanOf;
    forall i | 0 <= i < |entries| ensures SpanView(EntrySpans(base, lines, entries)[i]) == ViewOf(entries[i]) {
      SpanViewIsView(base, lines, entries[i]);
    }
  }

  lemma SpanViewIsView(base: nat, lines: seq<string>, e: Entry)
    requires e.row < e.end <= |lines|
    ensures SpanView(EntrySpanOf(base, lines, e)) == ViewOf(e)
  {
    hide Offset;
    assert SpanView(EntrySpanOf(base, lines, e)).fields == Values(e.fields);
  }

  /** The block found, in rows and in offsets. */
  lemma FoundBlock(content: string)
    requires BodyStart(content).Some?
    ensures var start := BodyStart(content).value;
            var lines := LinesOf(content[start..]);
            var b := BlockOf(KindsOf(lines));
            b.bodyEnd <= |lines| && (forall e :: e in b.entries ==>
              e.row < e.end <= |lines| && forall k :: k in e.fields ==> e.fields[k].row < |lines|) &&
            SpansIn(content) == Some(SpanBlock(start + Offset(lines, b.bodyEnd), ChildIndent(b),
              EntrySpans(start, lines, b.entries))) &&
            ViewsIn(content) == Views(b.entries) && SpanViews(SpansIn(content).value.entries) == ViewsIn(content)
  {
    hide LinesOf, KindsOf, Scan, Offset, EntrySpans, Views, SpanViews, BodyStart;
    var start := BodyStart(content).value;
    var lines := LinesOf(content[start..]);
    BlockInside(KindsOf(lines));
    SpanViewsAreViews(start, lines, BlockOf(KindsOf(lines)).entries);
  }

  lemma NothingFound(content: string)
    requires BodyStart(content).None?
    ensures SpansIn(content).None? && ViewsIn(content) == [] && List(content) == []
  {
  }

  /** `listAgentUserProviders` */
  method ListProviders(file: ConfigFile) returns (providers: seq<UserProvider>)
    ensures providers == List(file.content)
  {
    hide SpansIn, ViewsIn, SpanViews, EntrySpans, BodyStart, LinesOf, KindsOf, BlockOf, Offset;
    var block := FindBlock(file.content);
    if block.None? {
      if BodyStart(file.content).Some? { FoundBlock(file.content); } else { NothingFound(file.content); }
      return [];
    }
    assert BodyStart(file.content).Some? by { if BodyStart(file.content).None? { NothingFound(file.content); } }
    FoundBlock(file.content);
    var entries := block.value.entries;
    ghost var views := ViewsIn(file.content);
    providers := [];
    for i := 0 to |entries|
      invariant providers == ProvidersOf(views)[..i]
    {
      var e := entries[i];
      assert views[i] == SpanView(e) by { assert SpanViews(entries)[i] == views[i]; SpanViewAt(entries, i); }
      SpanValues(e);
      var name := SpanValue(e.fields, "name");
      var api, url, baseUrl := SpanValue(e.fields, "api"), SpanValue(e.fields, "url"), SpanValue(e.fields, "base_url");
      providers := providers + [UserProvider(e.slug, if name != "" then name else e.slug,
                                             if api != "" then api else if url != "" then url else baseUrl,
                                             SpanValue(e.fields, "key_env"))];
      assert ProvidersOf(views)[..i + 1] == ProvidersOf(views)[..i] + [ProviderOf(views[i])];
    }
  }

  lemma SpanViewAt(entries: seq<EntrySpan>, i: nat)
    requires i < |entries|
    ensures SpanViews(entries)[i] == SpanView(entries[i])
  {
  }

  lemma SpanValues(e: EntrySpan)
    ensures forall key :: Get(SpanView(e).fields, key) == SpanValue(e.fields, key)
  {
  }

  /** The two `find` calls: by key variable, then by slug. */
  method FindEntry(entries: seq<EntrySpan>, keyEnv: string, slug: string) returns (i: nat)
    ensures i == Locate(SpanViews(entries), keyEnv, slug)
  {
    hide Get, SpanValue;
    ghost var views := SpanViews(entries);
    ghost var byKey, bySlug := FindKeyEnv(views, keyEnv), FindSlug(views, slug);
    assert forall j :: 0 <= j < |entries| ==> views[j] == SpanView(entries[j]);
    i := 0;
    while i < |entries| && !(keyEnv != "" && SpanValue(entries[i].fields, "key_env") == keyEnv)
      invariant i <= |entries| && forall j :: 0 <= j < i ==> keyEnv == "" || Get(views[j].fields, "key_env") != keyEnv
    {
      SpanValues(entries[i]);
      i := i + 1;
    }
    if i < |entries| {
      SpanValues(entries[i]);
      assert Get(views[i].fields, "key_env") == keyEnv;
      assert byKey == i;
      return;
    }
    assert byKey == |views|;
    i := 0;
    while i < |entries| && entries[i].slug != slug
      invariant i <= |entries| && forall j :: 0 <= j < i ==> views[j].slug != slug
    {
      i := i + 1;
    }
    assert i < |entries| ==> views[i].slug == slug;
    assert bySlug == i;
  }

  // ---------------------------------------------------------------- the edits of the file

  lemma EditPatch(base: nat, lines: seq<string>, e: Entry, indent: string, key: string, value: string)
    requires e.row < e.end <= |lines| && forall k :: k in e.fields ==> e.fields[k].row < |lines|
    ensures var es, span := EditFor(e, indent, key, value), EntrySpanOf(base, lines, e);
            (forall x :: x in es ==> x.row <= |lines|) &&
            PatchesOf(base, lines, es) ==
              if key in span.fields then
                var f := span.fields[key];
                if f.value == value then [] else [Patch(f.valueStart, f.valueEnd, Quote(value))]
              else [Patch(span.headerEnd, span.headerEnd, FieldLine(indent, key, value))]
  {
    hide Offset, Quote, FieldLine;
  }

  lemma PatchesConcat(base: nat, lines: seq<string>, a: seq<Edit>, c: seq<Edit>)
    requires forall x :: x in a + c ==> x.row <= |lines|
    ensures (forall x :: x in a ==> x.row <= |lines|) && forall x :: x in c ==> x.row <= |lines|
    ensures PatchesOf(base, lines, a + c) == PatchesOf(base, lines, a) + PatchesOf(base, lines, c)
  {
    hide PatchOf;
    assert forall x :: x in a || x in c ==> x in a + c;
  }

  /** The patch list of an upsert. */
  method CollectPatches(span: EntrySpan, fieldIndent: string, wanted: seq<(string, string)>,
                        ghost base: nat, ghost lines: seq<string>, ghost e: Entry)
    returns (patches: seq<Patch>)
    requires e.row < e.end <= |lines| && (forall k :: k in e.fields ==> e.fields[k].row < |lines|) &&
             span == EntrySpanOf(base, lines, e)
    ensures (forall x :: x in EditsOf(e, fieldIndent, wanted) ==> x.row <= |lines|) &&
            patches == PatchesOf(base, lines, EditsOf(e, fieldIndent, wanted))
  {
    hide EditFor, PatchOf, EntrySpanOf, Quote, FieldLine;
    patches := [];
    EditsInside(e, fieldIndent, wanted, |lines|);
    ghost var done: seq<Edit> := [];
    for i := 0 to |wanted|
      invariant done + EditsOf(e, fieldIndent, wanted[i..]) == EditsOf(e, fieldIndent, wanted)
      invariant (forall x :: x in done ==> x.row <= |lines|) && patches == PatchesOf(base, lines, done)
    {
      var key, value := wanted[i].0, wanted[i].1;
      ghost var more := EditFor(e, fieldIndent, key, value);
      EditPatch(base, lines, e, fieldIndent, key, value);
      assert wanted[i..][1..] == wanted[i + 1..];
      assert done + (more + EditsOf(e, fieldIndent, wanted[i + 1..])) ==
               done + more + EditsOf(e, fieldIndent, wanted[i + 1..]);
      PatchesConcat(base, lines, done, more);
      done := done + more;
      if key in span.fields {
        var f := span.fields[key];
        if f.value == value { continue; }
        patches := patches + [Patch(f.valueStart, f.valueEnd, Quote(value))];
      } else {
        patches := patches + [Patch(span.headerEnd, span.headerEnd, FieldLine(fieldIndent, key, value))];
      }
    }
    assert wanted[|wanted|..] == [];
  }

  /** Applying the sorted patches one after the other. */
  method ApplyPatches(content: string, patches: seq<Patch>) returns (next: string)
    ensures next == SpliceAll(content, patches)
  {
    hide Splice;
    next := content;
    for i := 0 to |patches|
      invariant SpliceAll(next, patches[i..]) == SpliceAll(content, patches)
    {
      assert patches[i..][1..] == patches[i + 1..];
      next := Splice(next, patches[i]);
    }
  }

  lemma SpanUrlField(base: nat, lines: seq<string>, e: Entry)
    requires e.row < e.end <= |lines|
    ensures UrlField(EntrySpanOf(base, lines, e).fields) == UrlField(e.fields)
    ensures forall input :: Wanted(EntrySpanOf(base, lines, e).fields, input) == Wanted(e.fields, input)
  {
    hide Offset, FieldSpanOf;
    assert EntrySpanOf(base, lines, e).fields.Keys == e.fields.Keys;
  }

  lemma UpsertIntoEntry(content: string, input: Input)
    requires BodyStart(content).Some? && Stored(input).Some? &&
             Locate(ViewsIn(content), input.keyEnv, Stored(input).value.slug) < |ViewsIn(content)|
    ensures var start, e := BodyStart(content).value, Stored(input).value;
            var lines := LinesOf(content[start..]);
            var b := BlockOf(KindsOf(lines));
            var i := Locate(ViewsIn(content), input.keyEnv, e.slug);
            var es := EditsOf(b.entries[i], NewFieldIndent(b, b.entries[i]), Wanted(b.entries[i].fields, e));
            (forall x :: x in es ==> x.row <= |lines|) &&
            UpsertText(content, input) == SpliceAll(content, SortDescending(PatchesOf(start, lines, es)))
  {
    hide KindsOf, LinesOf, BodyStart, SpliceAll, SortDescending, EditsOf, PatchOf, Stored, Locate, Wanted,
         NewFieldIndent, Scan;
    FoundBlock(content);
    var b := BlockOf(KindsOf(LinesOf(content[BodyStart(content).value..])));
    var i := Locate(ViewsIn(content), input.keyEnv, Stored(input).value.slug);
    assert b.entries[i] in b.entries;
    EditsInside(b.entries[i], NewFieldIndent(b, b.entries[i]), Wanted(b.entries[i].fields, Stored(input).value),
      |LinesOf(content[BodyStart(content).value..])|);
  }

  lemma UpsertNewEntry(content: string, input: Input)
    requires BodyStart(content).Some? && Stored(input).Some? &&
             Locate(ViewsIn(content), input.keyEnv, Stored(input).value.slug) == |ViewsIn(content)|
    ensures var block := SpansIn(content);
            block.Some? && UpsertText(content, input) ==
              Splice(content, Patch(block.value.bodyEnd, block.value.bodyEnd,
                Concat(EntryLines(block.value.childIndent, Stored(input).value))))
  {
    hide KindsOf, LinesOf, BodyStart, Splice, EntryLines, Stored, Locate, Scan, Concat, EntrySpans, Offset;
    FoundBlock(content);
  }

  /** `upsertAgentUserProvider` */
  method Upsert(file: ConfigFile, input: Input)
    modifies file
    ensures file.content == UpsertText(old(file.content), input)
  {
    hide SpansIn, ViewsIn, SpanViews, EntrySpans, BodyStart, LinesOf, KindsOf, BlockOf, Offset, UpsertText, Stored,
         Locate, PatchOf, EditsOf;
    hide SpliceAll, SortDescending, Splice, Concat, EntryLines, WithoutBlock, UrlField, EntrySpanOf, NewFieldIndent;
    var content := file.content;
    var stored := Stored(input);
    if stored.None? {
      NothingStored(content, input);
      return;
    }
    var e := stored.value;
    var found := FindBlock(content);
    if found.None? {
      if BodyStart(content).Some? { FoundBlock(content); }
      UpsertWithoutBlock(content, input);
      file.content := WithoutBlock(content, e);
      return;
    }
    assert BodyStart(content).Some? by { if BodyStart(content).None? { NothingFound(content); } }
    FoundBlock(content);
    var block := found.value;
    var i := FindEntry(block.entries, input.keyEnv, e.slug);
    if i == |block.entries| {
      UpsertNewEntry(content, input);
      file.content := Splice(content, Patch(block.bodyEnd, block.bodyEnd, Concat(EntryLines(block.childIndent, e))));
      return;
    }
    UpsertIntoEntry(content, input);
    ghost var start := BodyStart(content).value;
    ghost var lines := LinesOf(content[start..]);
    ghost var b := BlockOf(KindsOf(lines));
    ghost var entry := b.entries[i];
    assert entry in b.entries;
    SpanAt(start, lines, b.entries, i);
    var existing := block.entries[i];
    SpanUrlField(start, lines, entry);
    var fieldIndent := if existing.fieldIndent != "" then existing.fieldIndent else block.childIndent + "  ";
    assert fieldIndent == NewFieldIndent(b, entry) by { IndentOfSpan(start, lines, b, entry); }
    var wanted := Wanted(existing.fields, e);
    assert wanted == Wanted(entry.fields, e);
    var patches := CollectPatches(existing, fieldIndent, wanted, start, lines, entry);
    var next := ApplyPatches(content, SortDescending(patches));
    file.content := next;
  }

  lemma IndentOfSpan(base: nat, lines: seq<string>, b: Block, e: Entry)
    requires e.row < e.end <= |lines|
    ensures NewFieldIndent(b, e) ==
              if EntrySpanOf(base, lines, e).fieldIndent != "" then EntrySpanOf(base, lines, e).fieldIndent
              else ChildIndent(b) + "  "
  {
    hide Offset, FieldSpanOf;
  }

  lemma UpsertWithoutBlock(content: string, input: Input)
    requires Stored(input).Some? && BodyStart(content).None?
    ensures UpsertText(content, input) == WithoutBlock(content, Stored(input).value)
  {
    hide Stored, BodyStart, WithoutBlock;
  }

  /** `removeAgentUserProvider` */
  method Remove(file: ConfigFile, name: string, keyEnv: string)
    modifies file
    ensures file.content == RemoveText(old(file.content), name, keyEnv)
  {
    hide SpansIn, ViewsIn, SpanViews, EntrySpans, BodyStart, LinesOf, KindsOf, BlockOf, Offset, RemoveText, Locate,
         Splice, Slugify, EntrySpanOf;
    var content := file.content;
    var found := FindBlock(content);
    if found.None? {
      if BodyStart(content).Some? { FoundBlock(content); }
      RemoveNothing(content, name, keyEnv);
      return;
    }
    assert BodyStart(content).Some? by { if BodyStart(content).None? { NothingFound(content); } }
    FoundBlock(content);
    var block := found.value;
    var i := FindEntry(block.entries, keyEnv, Slugify(name));
    RemoveFound(content, name, keyEnv);
    if i == |block.entries| { return; }
    var existing := block.entries[i];
    file.content := Splice(content, Patch(existing.start, existing.end, ""));
  }

  lemma RemoveNothing(content: string, name: string, keyEnv: string)
    requires BodyStart(content).None?
    ensures RemoveText(content, name, keyEnv) == content
  {
  }

  lemma RemoveFound(content: string, name: string, keyEnv: string)
    requires SpansIn(content).Some?
    ensures var entries := SpansIn(content).value.entries;
            var i := Locate(SpanViews(entries), keyEnv, Slugify(name));
            RemoveText(content, name, keyEnv) ==
              if i == |entries| then content else Splice(content, Patch(entries[i].start, entries[i].end, ""))
  {
    hide KindsOf, LinesOf, BodyStart, Splice, Slugify, Locate, Scan, Concat, SpanViews, Views, Offset;
    FoundBlock(content);
    var start := BodyStart(content).value;
    var lines := LinesOf(content[start..]);
    var b := BlockOf(KindsOf(lines));
    var i := Locate(Views(b.entries), keyEnv, Slugify(name));
    if i < |b.entries| {
      assert b.entries[i] in b.entries;
      SpanAt(start, lines, b.entries, i);
    }
  }
}
