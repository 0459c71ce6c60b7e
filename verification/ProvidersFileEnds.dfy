/** Files that end with a line feed, where all of it works, and one that does not. */
module ProvidersFileEnds {
  import opened Text
  import opened Quoting
  import opened ConfigScalars
  import opened ConfigBlocks
  import opened Providers
  import opened ProvidersLines
  import opened ProvidersScan
  import opened ProvidersLaws
  import opened ProvidersAppend
  import opened ProvidersRemove
  import opened ProvidersRepeat
  import opened ProvidersExact
  import opened ProvidersIdempotent
  import opened ProvidersUndo

  // ---------------------------------------------------------------- with a final line feed

  /**
   * In a file that ends with a line feed the conditions are about the input alone: the upsert shows, a second one is
   * idle, and what it added can be taken out again.
   */
  lemma ClosedFileLaws(content: string, input: Input, name: string)
    requires BodyStart(content).Some? && Stored(input).Some? && content[|content| - 1] == '\n'
    ensures var e, views, after := Stored(input).value, ViewsIn(content), UpsertText(content, input);
            var i := Locate(views, input.keyEnv, e.slug);
            (i < |views| ==>
               (List(after) == List(content)[i := Updated(List(content)[i], e)] <==> IsPlain(e)) &&
               (UpsertText(after, input) == after <==> IsPlain(e))) &&
            (i == |views| ==>
               (List(after) == List(content) + [UserProvider(e.slug, e.name, e.baseUrl, e.keyEnv)] <==>
                IsPlain(e) && IsKey(e.slug))) &&
            (i == |views| && IsPlain(e) && IsKey(e.slug) ==>
               UpsertText(after, input) == after &&
               (RemoveText(after, name, input.keyEnv) == content <==> input.keyEnv != "" || Slugify(name) == e.slug))
  {
    hide BodyStart, Stored, Locate, UpsertText, RemoveText, List, ViewsIn, HeaderIsClosed, BodyIsClosed, IsKey,
         HasTerminator, Slugify, Updated, ProviderOf;
    var e, views := Stored(input).value, ViewsIn(content);
    var i := Locate(views, input.keyEnv, e.slug);
    StoredIsSet(input);
    if i < |views| {
      ClosedFile(content, i);
      GetAfterUpdateIff(content, input);
      RepeatUpdateIff(content, input);
    } else {
      ClosedBody(content);
      GetAfterAppendIff(content, input);
      if IsPlain(e) && IsKey(e.slug) {
        RepeatAfterAppend(content, input);
        UndoIff(content, input, name);
      }
    }
  }

  // ---------------------------------------------------------------- without one

  /** An entry `a` with a name and a URL; the file ends behind the closing quote of the URL. */
  function OpenLines(): seq<string> {
    ["  " + ("a" + ":") + "\n", FieldLine("    ", "name", "x"), "    " + ("base_url" + ": " + Quote("ua"))]
  }

  function OpenFile(): string {
    PROVIDERS + ":\n" + Concat(OpenLines())
  }

  lemma OpenKinds()
    ensures var lines := OpenLines();
            var ks := KindsOf(lines);
            AreRows(lines) && !IsLine(lines[2]) && Chomp(lines[2]) == lines[2] && IsKeyOf(ks[0], "  ", "a", "") &&
            IsKeyOf(ks[1], "    ", "name", "x") && IsKeyOf(ks[2], "    ", "base_url", "ua")
  {
    hide KindOf, Quote, IsKeyChar;
    KeysAreKeys();
    assert IsKey("a") by { PlainChars(); }
    assert !HasTerminator("x") && !HasTerminator("ua");
    HeaderLineKind("  ", "a");
    FieldLineKind("    ", "name", "x");
    FieldLineKind("    ", "base_url", "ua");
    var l, last := FieldLine("    ", "base_url", "ua"), OpenLines()[2];
    FieldLineIs("    ", "base_url", "ua");
    QuoteShape("ua");
    assert last[|last| - 1] == '"' && Chomp(l) == last && l == last + "\n";
    assert IsLine(l);
  }

  /** The block before its last line, which adds the URL whatever is glued to it. */
  lemma OpenBlock(g: Kind)
    requires g.Key? && g.indent == "    " && g.key == "base_url"
    ensures var b := Step(BlockOf(KindsOf(OpenLines())[..2]), g, 2);
            |b.entries| == 1 && b.childIndent == "  " && b.bodyEnd == 3 && b.entries[0].slug == "a" &&
            b.entries[0].fieldIndent == "    " && b.entries[0].row == 0 &&
            Values(b.entries[0].fields) == map["name" := "x", "base_url" := g.value]
  {
    hide KindsOf, Values, Step;
    OpenKinds();
    var ks := KindsOf(OpenLines())[..2];
    assert ks[1..] == [ks[1]] && [ks[1]][1..] == [];
    var b0 := Step(EMPTY_BLOCK, ks[0], 0);
    EntryStep(EMPTY_BLOCK, ks[0], 0);
    assert BlockOf(ks) == Step(b0, ks[1], 1) by { TwoScan(ks); }
    NoValues();
    FieldStep(b0, ks[1], 1, "    ");
    FieldStep(Step(b0, ks[1], 1), g, 2, "    ");
    LastLineEnds(Step(b0, ks[1], 1), g, 2);
    KeysAreKeys();
  }

  lemma TwoScan(ks: seq<Kind>)
    requires |ks| == 2 && !ks[0].Top? && !ks[1].Top?
    ensures BlockOf(ks) == Step(Step(EMPTY_BLOCK, ks[0], 0), ks[1], 1)
  {
    hide Step;
    assert ks[1..] == [ks[1]];
    OneScan(Step(EMPTY_BLOCK, ks[0], 0), ks[1], 1);
  }

  lemma LastLineEnds(b: Block, k: Kind, row: nat)
    requires k.Key?
    ensures Step(b, k, row).bodyEnd == row + 1
  {
  }

  lemma OpenBody()
    ensures var lines := OpenLines();
            var b := BlockOf(KindsOf(lines));
            Views(b.entries) == [View("a", map["name" := "x", "base_url" := "ua"])] &&
            b.childIndent == "  " && b.bodyEnd == 3 && !BodyLinesEnd(lines)
  {
    hide KindsOf, Values, Step, IsLine;
    OpenKinds();
    var ks := KindsOf(OpenLines());
    OpenBlock(ks[2]);
    assert ks == ks[..2] + [ks[2]];
    assert HasNoTop(ks[..2]);
    ScanConcat(EMPTY_BLOCK, ks[..2], [ks[2]], 0);
    OneScan(BlockOf(ks[..2]), ks[2], 2);
    ViewsOfOne(BlockOf(ks).entries);
  }

  lemma ViewsOfOne(entries: seq<Entry>)
    requires |entries| == 1
    ensures Views(entries) == [View(entries[0].slug, Values(entries[0].fields))]
  {
    hide Values;
  }

  lemma OpenInput(keyEnv: string)
    requires keyEnv == "" || keyEnv == "K"
    ensures var e := Input("b", "n", "u", keyEnv);
            Stored(e) == Some(e) && IsStorable(e) &&
            Locate([View("a", map["name" := "x", "base_url" := "ua"])], keyEnv, "b") == 1
  {
    KeysAreKeys();
    var v := View("a", map["name" := "x", "base_url" := "ua"]);
    assert [v][1..] == [];
  }

  /** Adding `b` to that file. */
  lemma OpenAppend(keyEnv: string)
    requires keyEnv == "" || keyEnv == "K"
    ensures var content, e := OpenFile(), Input("b", "n", "u", keyEnv);
            var after := UpsertText(content, e);
            BodyStart(content) == Some(|PROVIDERS| + 2) && BodyStart(after).Some? && !BodyIsClosed(content) &&
            Stored(e) == Some(e) && IsStorable(e) &&
            ViewsIn(content) == [View("a", map["name" := "x", "base_url" := "ua"])] &&
            Locate(ViewsIn(content), keyEnv, "b") == 1 && ViewsIn(after) == [View("a", NewFields(e))]
  {
    hide KindOf, KindsOf, BodyStart, LinesOf, BlockOf, Views, Stored, Concat, UpsertText, Locate, IsHead, IsLine, IsRow,
         OpenLines, Values, IsStorable, WithHeader, LinesAfter, Scan, NewFields;
    var content, e, lines := OpenFile(), Input("b", "n", "u", keyEnv), OpenLines();
    HeadAlone();
    OpenKinds();
    OpenBody();
    OpenInput(keyEnv);
    Recomposed(PROVIDERS + ":\n", lines);
    BlockStays(content, e);
    NothingBroken(e);
    AppendedViews(content, e);
    OpenHeader(e);
    var c, r := WithHeader(lines, e), BlockOf(KindsOf(LinesAfter(lines, e)));
    assert LastShows(c, 4, e) == NewFields(e);
    ViewsOfOne(r.entries);
  }

  lemma NothingBroken(e: Input)
    requires IsStorable(e)
    ensures IsPlain(e) && '\n' !in e.slug
  {
    hide HasTerminator, IsKeyChar;
    CharClasses();
  }

  /** With the header of `b` behind its URL, `a` takes the fields that follow. */
  lemma OpenHeader(e: Input)
    requires e.slug == "b" && IsStorable(e)
    ensures var c := WithHeader(OpenLines(), e);
            |c.entries| == 1 && c.entries[0].slug == "a" && ChildIndent(BlockOf(KindsOf(OpenLines()))) == "  " &&
            TakesFields(c, 4) && Values(c.entries[0].fields) + NewFields(e) == NewFields(e)
  {
    hide KindOf, KindsOf, Values, Step, IsLine, IsRow, IsPiece, IsStorable, Scan;
    var lines := OpenLines();
    OpenKinds();
    OpenBody();
    SlugPiece("  ", "b") by { assert IsKey("b"); }
    var t := HeaderText(lines, e);
    assert KindsOf(lines)[2] == KindOf(lines[2]) by { KindIsAt(lines, 2); }
    GluedKind(lines[2], t);
    OpenBlock(KindOf(lines[2] + t));
    KeysAreKeys();
  }

  lemma KindIsAt(lines: seq<string>, i: nat)
    requires i < |lines| && Chomp(lines[i]) == lines[i]
    ensures KindsOf(lines)[i] == KindOf(lines[i])
  {
    hide KindOf;
  }

  lemma LoneEntryGoes(content: string, name: string, keyEnv: string)
    requires BodyStart(content).Some? && |ViewsIn(content)| == 1 && Locate(ViewsIn(content), keyEnv, Slugify(name)) == 0
    ensures ViewsIn(RemoveText(content, name, keyEnv)) == []
  {
    hide BodyStart, RemoveText, Slugify, Scan, KindsOf, LinesOf, Locate;
    RemovalLosesOnlyIff(content, name, keyEnv);
  }

  /**
   * Adding `b` with a key variable to that file makes `a` show its name, its URL and its key variable. A second upsert
   * is idle, since the key variable now finds `a`, and removing `b` again deletes `a`.
   */
  lemma OpenBodyTakesNeighbour()
    ensures var content, e := OpenFile(), Input("b", "n", "u", "K");
            var after := UpsertText(content, e);
            ViewsIn(content) == [View("a", map["name" := "x", "base_url" := "ua"])] &&
            ViewsIn(after) == [View("a", map["name" := "n", "base_url" := "u", "key_env" := "K"])] &&
            UpsertText(after, e) == after &&
            RemoveText(after, "b", "K") != content && ViewsIn(RemoveText(after, "b", "K")) == []
  {
    hide BodyStart, Stored, UpsertText, OpenFile, RemoveText, ViewsIn, IsStorable, BodyIsClosed, Slugify, BlockOf,
         KindsOf, LinesOf;
    var content, e := OpenFile(), Input("b", "n", "u", "K");
    var after := UpsertText(content, e);
    OpenAppend("K");
    UndoIff(content, e, "b");
    KeysAreKeys();
    assert Locate(ViewsIn(after), "K", "b") == 0 && Locate(ViewsIn(after), "K", Slugify("b")) == 0;
    NewIsSettled(e);
    SettledIsNoOp(after, e);
    LoneEntryGoes(after, "b", "K");
  }

  /** Without a key variable every further upsert adds the lines of `b` once more. */
  lemma OpenBodyKeepsGrowing()
    ensures var content, e := OpenFile(), Input("b", "n", "u", "");
            var after := UpsertText(content, e);
            ViewsIn(after) == [View("a", map["name" := "n", "base_url" := "u"])] &&
            UpsertText(after, e) != after
  {
    hide BodyStart, Stored, UpsertText, OpenFile, ViewsIn, IsStorable, BodyIsClosed, Locate;
    var content, e := OpenFile(), Input("b", "n", "u", "");
    OpenAppend("");
    NothingBroken(e);
    RepeatAppendIff(content, e);
  }
}
