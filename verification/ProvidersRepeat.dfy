/** A block for a file without one, and repeating an upsert that shows. */
module ProvidersRepeat {
  import opened Text
  import opened ConfigScalars
  import opened ConfigBlocks
  import opened Providers
  import opened ProvidersLines
  import opened ProvidersScan
  import opened ProvidersLaws
  import opened ProvidersAppend

  // ---------------------------------------------------------------- a block of its own

  predicate Ends(content: string) {
    content == "" || content[|content| - 1] == '\n'
  }

  ghost predicate HasNoHeader(base: string) {
    forall i :: 0 <= i < |base| && AtLineStart(base, i) ==> HeaderLength(base[i..], PROVIDERS).None?
  }

  lemma {:induction false} FirstHeaderAtEnd(base: string, block: string, i: nat)
    requires Ends(base) && HasNoHeader(base) && i <= |base| && HeaderLength(block, PROVIDERS).Some?
    ensures FirstHeader(base + block, PROVIDERS, i) == Some(|base|)
    decreases |base| - i
  {
    hide HeaderLength;
    var content := base + block;
    assert content[i..] == base[i..] + block;
    if i == |base| {
      assert base[i..] + block == block;
      AtBaseEnd(base, block);
    } else {
      assert AtLineStart(content, i) == AtLineStart(base, i);
      assert base[i..][|base[i..]| - 1] == '\n';
      ProvidersHasNoBreak();
      HeaderBefore(base[i..], block, PROVIDERS);
      FirstHeaderAtEnd(base, block, i + 1);
    }
  }

  lemma PlainHeader()
    ensures HeaderLength(PROVIDERS + ":\n", PROVIDERS) == Some(|PROVIDERS| + 2)
  {
    hide IsSpace;
    var s := PROVIDERS + ":\n";
    assert s[|PROVIDERS|..] == ":\n" && s[..|PROVIDERS|] == PROVIDERS;
    assert !IsInlineSpace(':') && !IsInlineSpace('\n') by { BreakIsNoInlineSpace(); }
    assert ":\n"[1..] == "\n";
  }

  lemma FreshHead(base: string)
    requires Ends(base) && HasNoHeader(base)
    ensures IsHead(base + (PROVIDERS + ":\n"))
  {
    hide HeaderLength, FirstHeader;
    var block := PROVIDERS + ":\n";
    PlainHeader();
    FirstHeaderAtEnd(base, block, 0);
    assert (base + block)[|base|..] == block;
    assert base != "" ==> (base + block)[|base| - 1] == '\n';
  }

  /** The block behind the lines of a new entry of its own. */
  function FreshScan(e: Input): Block {
    Scan(EMPTY_BLOCK, KindsOf(EntryLines("  ", e)), 0)
  }

  /** What a new block is read as before some text: the scan goes on in that text up to the next top-level line. */
  function FreshViews(e: Input, tail: string): seq<View> {
    Views(Scan(FreshScan(e), KindsOf(LinesOf(tail)), |EntryLines("  ", e)|).entries)
  }

  /** A block put between two texts. */
  lemma FreshBlock(base: string, e: Input, tail: string)
    requires Ends(base) && HasNoHeader(base) && IsStorable(e)
    ensures var after := base + NewBlock(e) + tail;
            BodyStart(after).Some? && ViewsIn(after) == FreshViews(e, tail)
  {
    hide KindOf, EntryLines, IsStorable, Scan, IsLine, LinesOf, BodyStart, NewFields, Values, Concat, HasNoTop;
    var pre, lines := base + (PROVIDERS + ":\n"), EntryLines("  ", e) + LinesOf(tail);
    FreshHead(base);
    NewEntryScan(EMPTY_BLOCK, e, 0);
    RowsOfText(tail);
    RowsWithLines(LinesOf(tail), 0, EntryLines("  ", e));
    assert lines == LinesOf(tail)[..0] + EntryLines("  ", e) + LinesOf(tail)[0..];
    Recomposed(pre, lines);
    ConcatSplit(EntryLines("  ", e), LinesOf(tail));
    ConcatOfLines(tail);
    assert base + NewBlock(e) + tail == pre + (Concat(EntryLines("  ", e)) + tail);
    var m, c := KindsOf(EntryLines("  ", e)), KindsOf(LinesOf(tail));
    assert KindsOf(lines) == m + c;
    ScanConcat(EMPTY_BLOCK, m, c, 0);
  }

  /** A header is a key line. */
  lemma HeaderIsKeyLine(s: string)
    requires HeaderLength(s + "\n", PROVIDERS).Some?
    ensures AfterColon(s).Some?
  {
    hide SkipInline, LineEndLength;
    ProvidersHasNoBreak();
    var w := s + "\n";
    assert w[|s|] == '\n';
    assert forall j :: 0 <= j < |PROVIDERS| ==> PROVIDERS[j] == w[j] && PROVIDERS[j] != '\n';
    assert s[..|PROVIDERS|] == w[..|PROVIDERS|];
    assert w[|PROVIDERS|..] == s[|PROVIDERS|..] + "\n";
    SkipInlineStops(s[|PROVIDERS|..]);
  }

  lemma {:induction false} SkipInlineStops(s: string)
    ensures SkipInline(s + "\n") == SkipInline(s) + "\n"
  {
    hide IsInlineSpace;
    assert !IsInlineSpace('\n') by { BreakIsNoInlineSpace(); }
    if s != "" && IsInlineSpace(s[0]) {
      assert (s + "\n")[1..] == s[1..] + "\n";
      SkipInlineStops(s[1..]);
    }
  }

  lemma {:induction false} NoKeyLine(content: string, i: nat)
    requires i <= |content| && !HasKeyLine(content, i)
    ensures forall j :: i <= j <= |content| && AtLineStart(content, j) ==> AfterColon(content[j..]).None?
    decreases |content| - i
  {
    hide AfterColon;
    if i < |content| { NoKeyLine(content, i + 1); }
  }

  lemma NoHeaderWithoutKeyLine(content: string)
    requires !HasKeyLine(content, 0)
    ensures HasNoHeader(content + Separator(content)) && Ends(content + Separator(content))
  {
    hide HeaderLength, AfterColon, HasKeyLine;
    NoKeyLine(content, 0);
    var base := content + Separator(content);
    forall i | 0 <= i < |base| && AtLineStart(base, i) ensures HeaderLength(base[i..], PROVIDERS).None? {
      if i < |content| {
        assert AtLineStart(content, i);
        var s := if Separator(content) == "" then content[i..|content| - 1] else content[i..];
        assert base[i..] == s + "\n";
        if HeaderLength(base[i..], PROVIDERS).Some? {
          HeaderIsKeyLine(s);
          if Separator(content) == "" {
            assert content[i..] == s + "\n";
            KeyLineLonger(s);
          }
        }
      } else {
        assert base[i..] == "\n";
        BreakIsNoHeader();
      }
    }
  }

  lemma KeyLineLonger(s: string)
    requires AfterColon(s).Some?
    ensures AfterColon(s + "\n").Some?
  {
    hide SkipInline;
    assert (s + "\n")[|PROVIDERS|..] == s[|PROVIDERS|..] + "\n";
    assert (s + "\n")[..|PROVIDERS|] == s[..|PROVIDERS|];
    SkipInlineStops(s[|PROVIDERS|..]);
  }

  lemma BreakIsNoHeader()
    ensures HeaderLength("\n", PROVIDERS).None?
  {
    assert PROVIDERS[0] == 'p';
  }

  // ---------------------------------------------------------------- a second, identical upsert

  predicate Has(fields: map<string, string>, key: string, value: string) {
    key in fields && fields[key] == value
  }

  /** An entry that shows everything an upsert asks for. */
  predicate IsSettled(fields: map<string, string>, e: Input) {
    Has(fields, "name", e.name) && Has(fields, UrlField(fields), e.baseUrl) &&
    (e.keyEnv == "" || Has(fields, "key_env", e.keyEnv))
  }

  lemma SettledHasNoEdits(entry: Entry, indent: string, e: Input)
    requires IsSettled(Values(entry.fields), e)
    ensures EditsOf(entry, indent, Wanted(entry.fields, e)) == []
  {
    var wanted := Wanted(entry.fields, e);
    assert UrlField(entry.fields) == UrlField(Values(entry.fields));
    assert EditFor(entry, indent, wanted[0].0, wanted[0].1) == [];
    assert EditFor(entry, indent, wanted[1].0, wanted[1].1) == [];
    var rest := wanted[1..][1..];
    assert rest == if e.keyEnv == "" then [] else [("key_env", e.keyEnv)];
    if rest != [] {
      assert EditFor(entry, indent, rest[0].0, rest[0].1) == [] && rest[1..] == [];
    }
    assert EditsOf(entry, indent, wanted) == EditsOf(entry, indent, wanted[1..]);
    assert EditsOf(entry, indent, wanted[1..]) == EditsOf(entry, indent, rest);
  }

  lemma SettledIsNoOp(content: string, input: Input)
    requires BodyStart(content).Some? && Stored(input).Some?
    requires var i := Locate(ViewsIn(content), input.keyEnv, Stored(input).value.slug);
             i < |ViewsIn(content)| && IsSettled(ViewsIn(content)[i].fields, Stored(input).value)
    ensures UpsertText(content, input) == content
  {
    hide KindsOf, LinesOf, BodyStart, Stored, Locate, BlockOf, EditsOf, Wanted, NewFieldIndent, UpsertText, Values,
         IsSettled;
    var n, e, i := BodyStart(content).value, Stored(input).value,
      Locate(ViewsIn(content), input.keyEnv, Stored(input).value.slug);
    UpsertIsSpliced(content, input);
    var b := BlockOf(KindsOf(LinesOf(content[n..])));
    SettledHasNoEdits(b.entries[i], NewFieldIndent(b, b.entries[i]), e);
  }

  lemma LocateUpdated(views: seq<View>, keyEnv: string, slug: string, v: View)
    requires Locate(views, keyEnv, slug) < |views|
    requires var was := views[Locate(views, keyEnv, slug)];
             v.slug == was.slug && Get(v.fields, "key_env") == FirstSet(keyEnv, Get(was.fields, "key_env"))
    ensures var i := Locate(views, keyEnv, slug); Locate(views[i := v], keyEnv, slug) == i
  {
    hide Get;
    var i := Locate(views, keyEnv, slug);
    var next := views[i := v];
    assert next[i] == v && forall j :: 0 <= j < |views| && j != i ==> next[j] == views[j];
    var k, s := FindKeyEnv(next, keyEnv), FindSlug(next, slug);
    if keyEnv != "" {
      assert k <= i;
      assert forall j :: 0 <= j < i ==> Get(next[j].fields, "key_env") == Get(views[j].fields, "key_env");
    } else {
      assert s <= i;
    }
  }

  lemma UpdatedIsSettled<T>(fields: map<string, T>, f: map<string, string>, e: Input)
    requires f.Keys == fields.Keys
    ensures var g := SetWanted(f, Wanted(fields, e));
            IsSettled(g, e) && Get(g, "key_env") == FirstSet(e.keyEnv, Get(f, "key_env"))
  {
    KeysAreKeys();
    ThreeWanted(f, UrlField(fields), e);
  }

  lemma NewIsSettled(e: Input)
    ensures IsSettled(NewFields(e), e)
  {
    KeysAreKeys();
  }

  lemma ValuesKeys(fields: map<string, Field>)
    ensures Values(fields).Keys == fields.Keys
  {
  }

  /** Repeating an upsert into an existing entry changes nothing: the same entry is found and nothing is left to do. */
  lemma RepeatAfterUpdate(content: string, input: Input)
    requires BodyStart(content).Some? && Stored(input).Some? && IsPlain(Stored(input).value)
    requires Locate(ViewsIn(content), input.keyEnv, Stored(input).value.slug) < |ViewsIn(content)|
    requires HeaderIsClosed(content, Locate(ViewsIn(content), input.keyEnv, Stored(input).value.slug))
    ensures UpsertText(UpsertText(content, input), input) == UpsertText(content, input)
  {
    hide KindsOf, LinesOf, BodyStart, Stored, Locate, BlockOf, Wanted, UpsertText, Values, IsSettled, SetWanted,
         ViewsIn, Get, UpdatedLines;
    var e, i := Stored(input).value, Locate(ViewsIn(content), input.keyEnv, Stored(input).value.slug);
    StoredIsSet(input);
    UpsertUpdates(content, input);
    Decomposed(content);
    var entry := BlockOf(KindsOf(LinesOf(content[BodyStart(content).value..]))).entries[i];
    var views := ViewsIn(content);
    assert views[i] == ViewOf(entry);
    ValuesKeys(entry.fields);
    UpdatedIsSettled(entry.fields, views[i].fields, e);
    LocateUpdated(views, input.keyEnv, e.slug,
      View(views[i].slug, SetWanted(views[i].fields, Wanted(entry.fields, e))));
    SettledIsNoOp(UpsertText(content, input), input);
  }

  lemma RepeatAfterAppend(content: string, input: Input)
    requires BodyStart(content).Some? && BodyIsClosed(content) && Stored(input).Some? && IsStorable(Stored(input).value)
    requires Locate(ViewsIn(content), input.keyEnv, Stored(input).value.slug) == |ViewsIn(content)|
    ensures UpsertText(UpsertText(content, input), input) == UpsertText(content, input)
  {
    hide KindsOf, LinesOf, BodyStart, Stored, Locate, BlockOf, UpsertText, IsSettled, ViewsIn, Get, AppendedLines,
         NewFields, IsStorable, IsLine, EntryLines;
    var e := Stored(input).value;
    StoredIsSet(input);
    UpsertAppends(content, input);
    NewKeyEnv(e);
    NewIsSettled(e);
    LocateNew(ViewsIn(content), View(e.slug, NewFields(e)), input.keyEnv, e.slug, e.slug);
    SettledIsNoOp(UpsertText(content, input), input);
  }
}
