/** When an upsert leaves the text of the file as it is, exactly. */
module ProvidersNoOp {
  import opened Text
  import opened Quoting
  import opened ConfigScalars
  import opened ConfigBlocks
  import opened Providers
  import opened ProvidersLines
  import opened ProvidersScan
  import opened ProvidersEdits
  import opened ProvidersOrder
  import opened ProvidersLaws
  import opened ProvidersRepeat
  import opened ProvidersExact

  // ---------------------------------------------------------------- edits that leave their mark

  lemma OneBreak()
    ensures Breaks("\n") == 1
  {
    assert "\n"[1..] == "";
  }

  lemma QuoteBreaks(v: string)
    ensures Breaks(Quote(v)) >= Breaks(v)
  {
    hide Breaks, ReplaceChar;
    EscapeSigns();
    BreaksReplaced(v, '\\', "\\\\");
    BreaksReplaced(ReplaceChar(v, '\\', "\\\\"), '"', "\\\"");
    BreaksConcat("\"", Escape(v));
    BreaksConcat("\"" + Escape(v), "\"");
  }

  lemma EscapeSigns()
    ensures !HasTerminator("\\\\") && !HasTerminator("\\\"")
  {
  }

  lemma FieldLineBreaks(indent: string, key: string, v: string)
    ensures Breaks(FieldLine(indent, key, v)) > 0
  {
    hide Quote;
    OneBreak();
    BreaksConcat(indent + (key + ": " + Quote(v)), "\n");
  }

  /** A new line, or a value with a line terminator. */
  predicate Marks(e: Edit) {
    e.Insert? || HasTerminator(e.value)
  }

  /** The text an edit takes out holds no line terminator. */
  predicate TakesPlain(e: Edit, lines: seq<string>) {
    e.Replace? ==>
      e.row < |lines| && e.at + e.size <= |lines[e.row]| && !HasTerminator(lines[e.row][e.at..e.at + e.size])
  }

  lemma PatchBreaks(line: string, at: nat, size: nat, v: string)
    requires at + size <= |line| && !HasTerminator(line[at..at + size])
    ensures Breaks(PatchedLine(line, at, size, v)) >= Breaks(line) + Breaks(v)
  {
    hide Breaks, Quote, HasTerminator;
    var a, m, c := line[..at], line[at..at + size], line[at + size..];
    assert line == a + m + c;
    BreaksConcat(a + m, c);
    BreaksConcat(a, m);
    BreaksConcat(a + Quote(v), c);
    BreaksConcat(a, Quote(v));
    BreaksIff(m);
    QuoteBreaks(v);
  }

  lemma ConcatBreaks(a: seq<string>, l: string, c: seq<string>)
    ensures Breaks(Concat(a + [l] + c)) == Breaks(Concat(a)) + Breaks(l) + Breaks(Concat(c))
  {
    hide Breaks, Concat;
    ConcatThree(a, [l], c);
    ConcatOne(l);
    BreaksConcat(Concat(a) + l, Concat(c));
    BreaksConcat(Concat(a), l);
  }

  lemma EditBreaks(cur: seq<string>, e: Edit)
    requires EditFits(e, cur) && TakesPlain(e, cur)
    ensures Breaks(Concat(ApplyEdit(cur, e))) >= Breaks(Concat(cur)) + if Marks(e) then 1 else 0
  {
    hide Breaks, Concat, PatchedLine, FieldLine, HasTerminator;
    match e
    case Replace(_, row, at, size, v) =>
      var a, c := cur[..row], cur[row + 1..];
      assert cur == a + [cur[row]] + c && ApplyEdit(cur, e) == a + [PatchedLine(cur[row], at, size, v)] + c;
      ConcatBreaks(a, cur[row], c);
      ConcatBreaks(a, PatchedLine(cur[row], at, size, v), c);
      PatchBreaks(cur[row], at, size, v);
      BreaksIff(v);
    case Insert(key, row, indent, v) =>
      var a, c := cur[..row], cur[row..];
      assert cur == a + c;
      ConcatBreaks(a, FieldLine(indent, key, v), c);
      ConcatSplit(a, c);
      BreaksConcat(Concat(a), Concat(c));
      FieldLineBreaks(indent, key, v);
  }

  /** No edit takes a line terminator away, and one that marks adds some. */
  lemma {:induction false} EditsBreak(cur: seq<string>, es: seq<Edit>, lines: seq<string>, bound: nat)
    requires Descends(es, lines, bound) && bound <= |cur| && bound <= |lines| && cur[..bound] == lines[..bound]
    requires forall x :: x in es ==> TakesPlain(x, lines)
    ensures Breaks(Concat(ApplyEdits(cur, es, lines, bound))) >= Breaks(Concat(cur))
    ensures (exists x :: x in es && Marks(x)) ==>
              Breaks(Concat(ApplyEdits(cur, es, lines, bound))) > Breaks(Concat(cur))
    decreases |es|
  {
    hide Breaks, Concat, Marks, ApplyEdit, EditFits;
    if es != [] {
      var e, rest := es[0], es[1..];
      EditStillFits(cur, e, lines, bound);
      assert e in es && forall x :: x in es ==> x == e || x in rest;
      assert TakesPlain(e, cur) by {
        if e.Replace? { assert cur[e.row] == cur[..bound][e.row] == lines[..bound][e.row]; }
      }
      EditBreaks(cur, e);
      EditsBreak(ApplyEdit(cur, e), rest, lines, e.row);
    }
  }

  /** The value of a field stands in its line as it was scanned. */
  lemma RawStands(line: string)
    requires IsRow(line) && KindOf(Chomp(line)).Key?
    ensures var k := KindOf(Chomp(line));
            k.at + |k.raw| <= |line| && line[k.at..k.at + |k.raw|] == k.raw && !HasTerminator(k.raw)
  {
    hide IsSpace, IsInlineSpace, IsKeyChar, TrimStart, TrimEnd, HasTerminator, KindOf, StripScalar, IsRow, Chomp,
         KeyHead, Within;
    var text := Chomp(line);
    var k := KindOf(text);
    var eol := RowIsText(line);
    var gap, rest := PartsOfKey(text);
    var t := TrimStart(EcmaScript, rest);
    TrimStartShape(EcmaScript, rest);
    TrimEndShape(EcmaScript, t);
    assert k.raw == t[..|k.raw|];
    assert t == rest[|rest| - |t|..];
    assert text[k.at..] == t;
    assert line[k.at..k.at + |k.raw|] == text[k.at..][..|k.raw|];
    PartWithin(rest, |rest| - |t|, |rest| - |t| + |k.raw|);
    assert rest[|rest| - |t|..|rest| - |t| + |k.raw|] == k.raw;
    WithinHasNone(k.raw, rest);
  }

  lemma EditTakesPlain(lines: seq<string>, i: nat, x: Edit, indent: string)
    requires AreRows(lines) && i < |BlockOf(KindsOf(lines)).entries|
    requires IsPlaced(x, BlockOf(KindsOf(lines)).entries[i], indent)
    ensures TakesPlain(x, lines)
  {
    hide KindOf, Chomp, Scan, HasTerminator, IsKey, IsDeep, IsRow, IsLine;
    var ks := KindsOf(lines);
    KindsAreIndented(lines);
    BlockFits(ks);
    var e := BlockOf(ks).entries[i];
    assert EntryFits(e, ks);
    if x.Replace? {
      assert FieldFits(e.fields[x.key], x.key, ks) && IsRow(lines[x.row]);
      RawStands(lines[x.row]);
    }
  }

  // ---------------------------------------------------------------- what is asked for and not there

  lemma FieldsArePlain(lines: seq<string>, i: nat)
    requires i < |BlockOf(KindsOf(lines)).entries|
    ensures var fields := BlockOf(KindsOf(lines)).entries[i].fields;
            forall k :: k in fields ==> !HasTerminator(fields[k].value)
  {
    hide KindOf, Chomp, Scan, HasTerminator, IsKey, IsDeep;
    var ks := KindsOf(lines);
    var e := BlockOf(ks).entries[i];
    KindsAreIndented(lines);
    BlockFits(ks);
    assert EntryFits(e, ks);
    forall k | k in e.fields ensures !HasTerminator(e.fields[k].value) {
      assert FieldFits(e.fields[k], k, ks);
      KeyIsPlain(Chomp(lines[e.fields[k].row]));
    }
  }

  /** An entry never shows a value with a line terminator. */
  lemma SettledIsPlain(lines: seq<string>, i: nat, e: Input)
    requires i < |BlockOf(KindsOf(lines)).entries| && IsSettled(Values(BlockOf(KindsOf(lines)).entries[i].fields), e)
    ensures IsPlain(e)
  {
    hide KindsOf, BlockOf, HasTerminator;
    FieldsArePlain(lines, i);
    NothingIsPlain();
  }

  /** Without a value the scanner can read there is an edit that writes it. */
  lemma SomeEditMarks(lines: seq<string>, i: nat, e: Input)
    requires AreRows(lines) && i < |BlockOf(KindsOf(lines)).entries| && !IsPlain(e)
    ensures exists x :: x in UpsertEdits(BlockOf(KindsOf(lines)), i, e) && Marks(x)
  {
    hide KindsOf, BlockOf, HasTerminator, EditsOf, NewFieldIndent, IsKey, Settles, UrlField;
    var b := BlockOf(KindsOf(lines));
    var entry, indent := b.entries[i], NewFieldIndent(b, b.entries[i]);
    var wanted := Wanted(entry.fields, e);
    WantedIsFine(entry.fields, e);
    EditsOfShape(entry, indent, wanted);
    NothingIsPlain();
    var z: nat := if HasTerminator(e.name) then 0 else if HasTerminator(e.baseUrl) then 1 else 2;
    assert z < |wanted| && HasTerminator(wanted[z].1);
    FieldsArePlain(lines, i);
    EditSettles(UpsertEdits(b, i, e), entry, wanted[z].0, wanted[z].1);
  }

  lemma EditSettles(es: seq<Edit>, entry: Entry, key: string, value: string)
    requires Settles(es, entry, key, value) && HasTerminator(value)
    requires forall k :: k in entry.fields ==> !HasTerminator(entry.fields[k].value)
    ensures exists x :: x in es && Marks(x)
  {
    hide HasTerminator;
    if key in entry.fields && entry.fields[key].value == value {
      assert false;
    }
    var x :| x in es && x.key == key && x.value == value;
    assert Marks(x);
  }

  // ---------------------------------------------------------------- the text stays as it is

  lemma AppendGrows(content: string, input: Input)
    requires BodyStart(content).Some? && Stored(input).Some?
    requires Locate(ViewsIn(content), input.keyEnv, Stored(input).value.slug) == |ViewsIn(content)|
    ensures |UpsertText(content, input)| > |content|
  {
    hide KindsOf, LinesOf, BodyStart, EntryLines, Stored, Locate, BlockOf, Concat, UpsertText, IsRow, IsHead;
    var n, e := BodyStart(content).value, Stored(input).value;
    AppendedAnyway(content, input);
    Decomposed(content);
    var lines := LinesOf(content[n..]);
    var b := BlockOf(KindsOf(lines));
    BlockInside(KindsOf(lines));
    var more := EntryLines(ChildIndent(b), e);
    ConcatThree(lines[..b.bodyEnd], more, lines[b.bodyEnd..]);
    ConcatSplit(lines[..b.bodyEnd], lines[b.bodyEnd..]);
    assert lines == lines[..b.bodyEnd] + lines[b.bodyEnd..];
    EntryHasText(ChildIndent(b), e);
  }

  lemma EntryHasText(indent: string, e: Input)
    ensures Concat(EntryLines(indent, e)) != ""
  {
    hide FieldLine;
    assert EntryLines(indent, e)[0] == indent + (e.slug + ":") + "\n";
  }

  lemma NotPlainIsWritten(content: string, input: Input)
    requires BodyStart(content).Some? && Stored(input).Some? && !IsPlain(Stored(input).value)
    requires Locate(ViewsIn(content), input.keyEnv, Stored(input).value.slug) < |ViewsIn(content)|
    ensures UpsertText(content, input) != content
  {
    hide KindsOf, LinesOf, BodyStart, Stored, Locate, BlockOf, Concat, UpsertText, IsRow, IsLine, HasTerminator, IsHead,
         Breaks, UpsertEdits, ApplyEdits, Descends, SortEdits, PutAll, SetWanted, WellPlaced, IsPlaced, TakesPlain,
         Marks, NewFieldIndent;
    var n, e := BodyStart(content).value, Stored(input).value;
    var i := Locate(ViewsIn(content), input.keyEnv, e.slug);
    Decomposed(content);
    UpsertEditsLines(content, input);
    var lines := LinesOf(content[n..]);
    var b := BlockOf(KindsOf(lines));
    var indent := NewFieldIndent(b, b.entries[i]);
    UpsertIsOrdered(lines, i, e, n);
    var sorted := SortEdits(UpsertEdits(b, i, e), n, lines);
    SomeEditMarks(lines, i, e);
    forall x | x in sorted ensures TakesPlain(x, lines) { EditTakesPlain(lines, i, x, indent); }
    EditsBreak(lines, sorted, lines, |lines|);
    BreaksConcat(content[..n], Concat(lines));
    BreaksConcat(content[..n], Concat(UpdatedLines(lines, i, e, n)));
  }

  lemma OpenHeaderIsWritten(content: string, input: Input)
    requires BodyStart(content).Some? && Stored(input).Some? && IsPlain(Stored(input).value)
    requires Locate(ViewsIn(content), input.keyEnv, Stored(input).value.slug) < |ViewsIn(content)|
    requires !HeaderIsClosed(content, Locate(ViewsIn(content), input.keyEnv, Stored(input).value.slug))
    ensures UpsertText(content, input) != content
  {
    hide BodyStart, Stored, Locate, UpsertText, ViewsIn, HeaderIsClosed, IsPlain;
    GluedUpdate(content, input);
    assert "name" in GluedFields(Stored(input).value);
  }

  lemma UnsettledIsWritten(content: string, input: Input)
    requires BodyStart(content).Some? && Stored(input).Some? && IsPlain(Stored(input).value)
    requires var i := Locate(ViewsIn(content), input.keyEnv, Stored(input).value.slug);
             i < |ViewsIn(content)| && HeaderIsClosed(content, i) &&
             !IsSettled(ViewsIn(content)[i].fields, Stored(input).value)
    ensures UpsertText(content, input) != content
  {
    hide KindsOf, LinesOf, BodyStart, Stored, Locate, BlockOf, Wanted, UpsertText, Values, IsSettled, SetWanted,
         ViewsIn, Get, UpdatedLines, HeaderIsClosed, IsPlain;
    var e, i := Stored(input).value, Locate(ViewsIn(content), input.keyEnv, Stored(input).value.slug);
    UpsertUpdates(content, input);
    Decomposed(content);
    var entry := BlockOf(KindsOf(LinesOf(content[BodyStart(content).value..]))).entries[i];
    assert ViewsIn(content)[i] == ViewOf(entry);
    ValuesKeys(entry.fields);
    UpdatedIsSettled(entry.fields, ViewsIn(content)[i].fields, e);
  }

  lemma ShownIsPlain(content: string, i: nat, e: Input)
    requires i < |ViewsIn(content)| && IsSettled(ViewsIn(content)[i].fields, e)
    ensures IsPlain(e)
  {
    hide KindsOf, LinesOf, BodyStart, BlockOf, IsSettled, HasTerminator, Values;
    SettledIsPlain(LinesOf(content[BodyStart(content).value..]), i, e);
  }

  /**
   * An upsert into a block leaves the text as it is, exactly when it finds an entry that shows all it asks for: the
   * name, the URL under the alias the entry uses, and the key variable if there is one.
   */
  lemma NoOpIff(content: string, input: Input)
    requires BodyStart(content).Some? && Stored(input).Some?
    ensures var i := Locate(ViewsIn(content), input.keyEnv, Stored(input).value.slug);
            UpsertText(content, input) == content <==>
            i < |ViewsIn(content)| && IsSettled(ViewsIn(content)[i].fields, Stored(input).value)
  {
    hide BodyStart, Stored, Locate, UpsertText, ViewsIn, HeaderIsClosed, IsPlain, IsSettled;
    var e, i := Stored(input).value, Locate(ViewsIn(content), input.keyEnv, Stored(input).value.slug);
    if i == |ViewsIn(content)| {
      AppendGrows(content, input);
    } else if IsSettled(ViewsIn(content)[i].fields, e) {
      SettledIsNoOp(content, input);
    } else if !IsPlain(e) {
      NotPlainIsWritten(content, input);
    } else if HeaderIsClosed(content, i) {
      UnsettledIsWritten(content, input);
    } else {
      OpenHeaderIsWritten(content, input);
    }
  }
}
