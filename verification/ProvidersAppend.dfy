/** New entries: appended to a block, put in a block of their own, and taken out again. */
module ProvidersAppend {
  import opened Text
  import opened Quoting
  import opened ConfigScalars
  import opened ConfigBlocks
  import opened Providers
  import opened ProvidersLines
  import opened ProvidersScan
  import opened ProvidersEdits
  import opened ProvidersLaws

  function NewFields(e: Input): map<string, string> {
    var f := map["name" := e.name, "base_url" := e.baseUrl];
    if e.keyEnv == "" then f else f["key_env" := e.keyEnv]
  }

  /** An entry the scanner can read back. */
  predicate IsStorable(e: Input) {
    IsPlain(e) && IsKey(e.slug) && e.name != "" && e.baseUrl != ""
  }

  lemma NewProvider(e: Input)
    requires e.name != "" && e.baseUrl != ""
    ensures ProviderOf(View(e.slug, NewFields(e))) == UserProvider(e.slug, e.name, e.baseUrl, e.keyEnv)
  {
    KeysAreKeys();
  }

  /** What the scan makes of the lines of a new entry. */
  ghost predicate IsNewEntry(n: Entry, e: Input, row: nat, count: nat) {
    n.slug == e.slug && n.row == row && n.end == row + count && Values(n.fields) == NewFields(e)
  }

  predicate IsKeyOf(k: Kind, indent: string, key: string, value: string) {
    k.Key? && k.indent == indent && k.key == key && k.value == value
  }

  lemma EntryLineKinds(indent: string, e: Input)
    requires IsStorable(e) && IsIndent(indent)
    ensures var lines := EntryLines(indent, e);
            var ks := KindsOf(lines);
            AreLines(lines) && |ks| == (if e.keyEnv == "" then 3 else 4) && IsKeyOf(ks[0], indent, e.slug, "") &&
            IsKeyOf(ks[1], indent + "  ", "name", e.name) && IsKeyOf(ks[2], indent + "  ", "base_url", e.baseUrl) &&
            (e.keyEnv != "" ==> IsKeyOf(ks[3], indent + "  ", "key_env", e.keyEnv))
  {
    hide KindOf, HasTerminator, IsKey, Quote, FieldLine, IsLine, Chomp;
    var sub := indent + "  ";
    assert IsIndent(sub);
    KeysAreKeys();
    HeaderLineKind(indent, e.slug);
    FieldLineKind(sub, "name", e.name);
    FieldLineKind(sub, "base_url", e.baseUrl);
    FieldLineKind(sub, "key_env", e.keyEnv);
  }

  lemma FieldStep(b: Block, k: Kind, row: nat, indent: string)
    requires k.Key? && b.entries != [] && b.childIndent != "" && k.indent == indent && |indent| > |b.childIndent|
    requires Last(b.entries).fieldIndent == "" || Last(b.entries).fieldIndent == indent
    ensures var c := Step(b, k, row);
            |c.entries| == |b.entries| && c.entries[..|b.entries| - 1] == b.entries[..|b.entries| - 1] &&
            c.childIndent == b.childIndent &&
            var e := Last(c.entries);
            e.slug == Last(b.entries).slug && e.row == Last(b.entries).row && e.end == row + 1 &&
            e.fieldIndent == indent &&
            Values(e.fields) == Values(Last(b.entries).fields)[k.key := k.value]
  {
    var e := Last(b.entries);
    assert Values(InEntry(e, k, row).fields) == Values(e.fields)[k.key := k.value];
  }

  lemma ScanFour(b: Block, ks: seq<Kind>, row: nat)
    requires 3 <= |ks| <= 4 && HasNoTop(ks)
    ensures Scan(b, ks, row) ==
            (var c := Step(Step(Step(b, ks[0], row), ks[1], row + 1), ks[2], row + 2);
            if |ks| == 3 then c else Step(c, ks[3], row + 3))
  {
    hide Step;
    var c1 := Step(b, ks[0], row);
    var c2 := Step(c1, ks[1], row + 1);
    var c3 := Step(c2, ks[2], row + 2);
    assert Scan(b, ks, row) == Scan(c1, ks[1..], row + 1);
    assert ks[1..][0] == ks[1] && ks[1..][1..] == ks[2..];
    assert Scan(c1, ks[1..], row + 1) == Scan(c2, ks[2..], row + 2);
    assert ks[2..][0] == ks[2] && ks[2..][1..] == ks[3..];
    assert Scan(c2, ks[2..], row + 2) == Scan(c3, ks[3..], row + 3);
    var last := ks[3..];
    if last != [] {
      assert last[0] == ks[3] && last[1..] == [];
      assert Scan(c3, last, row + 3) == Scan(Step(c3, last[0], row + 3), last[1..], row + 4);
    }
  }

  lemma NewEntryScan(b: Block, e: Input, row: nat)
    requires IsStorable(e) && IsIndent(ChildIndent(b))
    ensures var ks := KindsOf(EntryLines(ChildIndent(b), e));
            var r := Scan(b, ks, row);
            HasNoTop(ks) && AreLines(EntryLines(ChildIndent(b), e)) && |r.entries| == |b.entries| + 1 &&
            r.entries[..|b.entries|] == b.entries && r.childIndent == ChildIndent(b) &&
            r.entries[|b.entries|].fieldIndent == ChildIndent(b) + "  " &&
            IsNewEntry(r.entries[|b.entries|], e, row, |ks|)
  {
    hide KindsOf, EntryLines, IsPlain, IsKey, IsIndent, Scan, ViewOf, Values, AreLines;
    var indent := ChildIndent(b);
    var ks := KindsOf(EntryLines(indent, e));
    EntryLineKinds(indent, e);
    ScanFour(b, ks, row);
    var sub := indent + "  ";
    assert indent != "" by { IndentsAreSomething(); }
    var c0 := Step(b, ks[0], row);
    assert c0.childIndent == indent && c0.entries == b.entries + [Entry(e.slug, row, row + 1, "", map[])];
    FieldsOfNew(c0, ks, row, e, b.entries, sub);
  }

  lemma FieldsOfNew(c0: Block, ks: seq<Kind>, row: nat, e: Input, before: seq<Entry>, sub: string)
    requires c0.childIndent != "" && |sub| > |c0.childIndent| &&
             c0.entries == before + [Entry(e.slug, row, row + 1, "", map[])]
    requires |ks| == (if e.keyEnv == "" then 3 else 4) && IsKeyOf(ks[1], sub, "name", e.name) &&
             IsKeyOf(ks[2], sub, "base_url", e.baseUrl)
    requires e.keyEnv != "" ==> IsKeyOf(ks[3], sub, "key_env", e.keyEnv)
    ensures var c := Step(Step(c0, ks[1], row + 1), ks[2], row + 2);
            var r := if |ks| == 3 then c else Step(c, ks[3], row + 3);
            |r.entries| == |before| + 1 && r.entries[..|before|] == before && r.childIndent == c0.childIndent &&
            r.entries[|before|].fieldIndent == sub &&
            IsNewEntry(r.entries[|before|], e, row, |ks|)
  {
    hide Step, Values;
    NoValues();
    FieldStep(c0, ks[1], row + 1, sub);
    var c1 := Step(c0, ks[1], row + 1);
    FieldStep(c1, ks[2], row + 2, sub);
    var c2 := Step(c1, ks[2], row + 2);
    if |ks| == 4 { FieldStep(c2, ks[3], row + 3, sub); }
  }

  lemma NoValues()
    ensures Values(map[]) == map[]
  {
  }

  // ---------------------------------------------------------------- appending to a block

  /**
   * The last line of the body ends with a line feed; a file without a final one has its body up to the end otherwise.
   */
  predicate BodyLinesEnd(lines: seq<string>) {
    var b := BlockOf(KindsOf(lines));
    b.bodyEnd <= |lines| && (b.bodyEnd > 0 ==> IsLine(lines[b.bodyEnd - 1]))
  }

  predicate BodyIsClosed(content: string)
    requires BodyStart(content).Some?
  {
    BodyLinesEnd(LinesOf(content[BodyStart(content).value..]))
  }

  lemma ClosedBody(content: string)
    requires BodyStart(content).Some? && content[|content| - 1] == '\n'
    ensures BodyIsClosed(content)
  {
    hide LinesOf, IsLine, Scan, KindsOf, FindHeader, HeaderLength;
    var body := content[BodyStart(content).value..];
    RowsOfText(body);
    BlockInside(KindsOf(LinesOf(body)));
    assert body != "" ==> body[|body| - 1] == content[|content| - 1];
  }

  lemma RowsWithLines(lines: seq<string>, at: nat, more: seq<string>)
    requires AreRows(lines) && at <= |lines| && AreLines(more) && (at > 0 ==> IsLine(lines[at - 1]))
    ensures AreRows(lines[..at] + more + lines[at..])
  {
    hide IsLine, IsRow;
    var next := lines[..at] + more + lines[at..];
    LinesAreRows(more);
    forall r | 0 <= r < |next| ensures IsRow(next[r]) && (r + 1 < |next| ==> IsLine(next[r])) {
      assert next[r] == if r < at then lines[r] else if r < at + |more| then more[r - at] else lines[r - |more|];
      if at <= r < at + |more| { assert more[r - at] in more; }
    }
  }

  /** The lines after an upsert that does not find its entry. */
  function AppendedLines(lines: seq<string>, e: Input): seq<string> {
    var b := BlockOf(KindsOf(lines));
    BlockInside(KindsOf(lines));
    lines[..b.bodyEnd] + EntryLines(ChildIndent(b), e) + lines[b.bodyEnd..]
  }

  lemma ChildIsIndent(lines: seq<string>)
    ensures IsIndent(ChildIndent(BlockOf(KindsOf(lines))))
  {
    hide KindsOf, BlockOf, EntryFits, IsDeep;
    KindsAreIndented(lines);
    BlockFits(KindsOf(lines));
  }

  /** The appended lines are read as one more entry, and everything else as before. */
  lemma AppendedBlock(lines: seq<string>, e: Input)
    requires AreRows(lines) && IsStorable(e) && BodyLinesEnd(lines)
    ensures var b, next := BlockOf(KindsOf(lines)), AppendedLines(lines, e);
            var c := BlockOf(KindsOf(next));
            AreRows(next) && |c.entries| == |b.entries| + 1 && c.entries[..|b.entries|] == b.entries &&
            c.childIndent == ChildIndent(b) &&
            IsNewEntry(c.entries[|b.entries|], e, b.bodyEnd, |EntryLines(ChildIndent(b), e)|)
  {
    hide KindOf, EntryLines, IsStorable, Scan, IsLine, IsRow, IsIndent, IsNewEntry, HasNoTop;
    var ks := KindsOf(lines);
    var b := BlockOf(ks);
    var more := EntryLines(ChildIndent(b), e);
    BlockInside(ks);
    BlockUpToEnd(ks);
    ChildIsIndent(lines);
    NewEntryScan(b, e, b.bodyEnd);
    RowsWithLines(lines, b.bodyEnd, more);
    var a, m, c := ks[..b.bodyEnd], KindsOf(more), ks[b.bodyEnd..];
    assert KindsOf(AppendedLines(lines, e)) == a + (m + c);
    ScanConcat(EMPTY_BLOCK, a, m + c, 0);
    ScanConcat(b, m, c, b.bodyEnd);
    SilentScan(Scan(b, m, b.bodyEnd), c, b.bodyEnd + |m|);
  }

  lemma UpsertIsAppended(content: string, input: Input)
    requires BodyStart(content).Some? && Stored(input).Some?
    requires Locate(ViewsIn(content), input.keyEnv, Stored(input).value.slug) == |ViewsIn(content)|
    ensures var n, e := BodyStart(content).value, Stored(input).value;
            var lines := LinesOf(content[n..]);
            var b := BlockOf(KindsOf(lines));
            b.bodyEnd <= |lines| && n + Offset(lines, b.bodyEnd) >= 0 &&
            UpsertText(content, input) ==
              Splice(content, Patch(n + Offset(lines, b.bodyEnd), n + Offset(lines, b.bodyEnd),
                Concat(EntryLines(ChildIndent(b), e))))
  {
    hide KindsOf, LinesOf, BodyStart, Splice, EntryLines, Stored, Locate, Scan, Concat;
    BlockInside(KindsOf(LinesOf(content[BodyStart(content).value..])));
  }

  lemma UpsertAppends(content: string, input: Input)
    requires BodyStart(content).Some? && BodyIsClosed(content) && Stored(input).Some? && IsStorable(Stored(input).value)
    requires Locate(ViewsIn(content), input.keyEnv, Stored(input).value.slug) == |ViewsIn(content)|
    ensures var n, e := BodyStart(content).value, Stored(input).value;
            var lines := LinesOf(content[n..]);
            var next := AppendedLines(lines, e);
            var after := UpsertText(content, input);
            AreRows(lines) && AreRows(next) && after == content[..n] + Concat(next) && BodyStart(after) == Some(n) &&
            LinesOf(after[n..]) == next && after[..n] == content[..n] &&
            ViewsIn(after) == ViewsIn(content) + [View(e.slug, NewFields(e))]
  {
    hide KindsOf, LinesOf, BodyStart, Splice, EntryLines, Stored, Locate, BlockOf, Concat, IsStorable, Offset, IsLine,
         IsRow;
    var n, e := BodyStart(content).value, Stored(input).value;
    Decomposed(content);
    var pre, lines := content[..n], LinesOf(content[n..]);
    var b := BlockOf(KindsOf(lines));
    UpsertIsAppended(content, input);
    SpliceRows(pre, lines, b.bodyEnd, b.bodyEnd, EntryLines(ChildIndent(b), e));
    AppendedBlock(lines, e);
    var next := AppendedLines(lines, e);
    Recomposed(pre, next);
    var c := BlockOf(KindsOf(next));
    assert Views(c.entries) == Views(b.entries) + [View(e.slug, NewFields(e))] by {
      ViewsOfMore(b.entries, c.entries, e);
    }
  }

  lemma ViewsOfMore(a: seq<Entry>, c: seq<Entry>, e: Input)
    requires |c| == |a| + 1 && c[..|a|] == a && c[|a|].slug == e.slug && Values(c[|a|].fields) == NewFields(e)
    ensures Views(c) == Views(a) + [View(e.slug, NewFields(e))]
  {
    hide Values, NewFields;
    forall j | 0 <= j < |a| ensures c[j] == a[j] { assert c[..|a|][j] == c[j]; }
  }

  /** Get after put for an entry that was not there: it is listed last, and nothing else changes. */
  lemma GetAfterAppend(content: string, input: Input)
    requires BodyStart(content).Some? && BodyIsClosed(content) && Stored(input).Some? && IsStorable(Stored(input).value)
    requires Locate(ViewsIn(content), input.keyEnv, Stored(input).value.slug) == |ViewsIn(content)|
    ensures var e := Stored(input).value;
            List(UpsertText(content, input)) == List(content) + [UserProvider(e.slug, e.name, e.baseUrl, e.keyEnv)]
  {
    hide ViewsIn, UpsertText, Stored, Locate, BodyStart, NewFields, ProviderOf, AppendedLines, KindsOf, LinesOf;
    UpsertAppends(content, input);
    NewProvider(Stored(input).value);
  }

  // ---------------------------------------------------------------- undoing an append

  /** A new last entry is found under its key variable, whatever the slug, and without one under its slug. */
  lemma LocateNew(views: seq<View>, v: View, keyEnv: string, slug: string, looked: string)
    requires Locate(views, keyEnv, slug) == |views|
    requires if keyEnv != "" then Get(v.fields, "key_env") == keyEnv else v.slug == slug == looked
    ensures Locate(views + [v], keyEnv, looked) == |views|
  {
    hide Get;
    var more := views + [v];
    assert more[|views|] == v && forall j :: 0 <= j < |views| ==> more[j] == views[j];
    var k, s := FindKeyEnv(more, keyEnv), FindSlug(more, looked);
    assert FindKeyEnv(views, keyEnv) == |views| && FindSlug(views, slug) == |views|;
    assert forall j :: 0 <= j < |views| ==> keyEnv == "" || Get(more[j].fields, "key_env") != keyEnv;
  }

  lemma NewKeyEnv(e: Input)
    ensures Get(NewFields(e), "key_env") == e.keyEnv
  {
    KeysAreKeys();
  }

  lemma RemoveIsSpliced(content: string, name: string, keyEnv: string)
    requires BodyStart(content).Some? && Locate(ViewsIn(content), keyEnv, Slugify(name)) < |ViewsIn(content)|
    ensures var n, i := BodyStart(content).value, Locate(ViewsIn(content), keyEnv, Slugify(name));
            var lines := LinesOf(content[n..]);
            var e := BlockOf(KindsOf(lines)).entries[i];
            e.row < e.end <= |lines| &&
            RemoveText(content, name, keyEnv) ==
              Splice(content, Patch(n + Offset(lines, e.row), n + Offset(lines, e.end), ""))
  {
    hide KindsOf, LinesOf, BodyStart, Splice, Slugify, Locate, Scan, Concat;
    var n, i := BodyStart(content).value, Locate(ViewsIn(content), keyEnv, Slugify(name));
    var b := BlockOf(KindsOf(LinesOf(content[n..])));
    BlockInside(KindsOf(LinesOf(content[n..])));
    assert b.entries[i] in b.entries;
  }

  /** A removal takes out exactly the lines of the entry it finds. */
  lemma RemoveCutsLines(content: string, name: string, keyEnv: string)
    requires BodyStart(content).Some? && Locate(ViewsIn(content), keyEnv, Slugify(name)) < |ViewsIn(content)|
    ensures var n, i := BodyStart(content).value, Locate(ViewsIn(content), keyEnv, Slugify(name));
            var lines := LinesOf(content[n..]);
            var e := BlockOf(KindsOf(lines)).entries[i];
            e.row < e.end <= |lines| &&
            RemoveText(content, name, keyEnv) == content[..n] + Concat(lines[..e.row] + lines[e.end..])
  {
    hide KindsOf, LinesOf, BodyStart, Splice, Slugify, Locate, BlockOf, Concat, RemoveText, Offset;
    var n, i := BodyStart(content).value, Locate(ViewsIn(content), keyEnv, Slugify(name));
    Decomposed(content);
    RemoveIsSpliced(content, name, keyEnv);
    var lines := LinesOf(content[n..]);
    var e := BlockOf(KindsOf(lines)).entries[i];
    SpliceRows(content[..n], lines, e.row, e.end, []);
    assert Concat([]) == "" by { NothingConcat(); }
    assert lines[..e.row] + [] + lines[e.end..] == lines[..e.row] + lines[e.end..];
  }

  lemma NothingConcat()
    ensures Concat([]) == ""
  {
  }

  /** Appending an entry and removing it again gives back the file, byte for byte. */
  lemma RemoveUndoesAppend(content: string, input: Input, name: string)
    requires BodyStart(content).Some? && BodyIsClosed(content) && Stored(input).Some? && IsStorable(Stored(input).value)
    requires Locate(ViewsIn(content), input.keyEnv, Stored(input).value.slug) == |ViewsIn(content)|
    requires input.keyEnv != "" || Slugify(name) == Stored(input).value.slug
    ensures RemoveText(UpsertText(content, input), name, input.keyEnv) == content
  {
    hide KindsOf, LinesOf, BodyStart, Stored, Locate, BlockOf, Concat, IsStorable, EntryLines, IsLine, IsRow, Slugify,
         NewFields, RemoveText, UpsertText;
    var n, e := BodyStart(content).value, Stored(input).value;
    var after := UpsertText(content, input);
    UpsertAppends(content, input);
    var views := ViewsIn(content);
    NewKeyEnv(e);
    assert e.keyEnv == input.keyEnv by { StoredIsSet(input); }
    LocateNew(views, View(e.slug, NewFields(e)), input.keyEnv, e.slug, Slugify(name));
    assert Locate(ViewsIn(after), input.keyEnv, Slugify(name)) == |views|;
    RemoveCutsLines(after, name, input.keyEnv);
    Decomposed(content);
    var lines := LinesOf(content[n..]);
    var b := BlockOf(KindsOf(lines));
    AppendedBlock(lines, e);
    BlockInside(KindsOf(lines));
    CutBack(lines, b.bodyEnd, EntryLines(ChildIndent(b), e));
  }

  lemma CutBack(lines: seq<string>, at: nat, more: seq<string>)
    requires at <= |lines|
    ensures var next := lines[..at] + more + lines[at..]; next[..at] + next[at + |more|..] == lines
  {
  }
}
