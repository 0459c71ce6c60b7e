/** Get after put: what the listing shows after an upsert, and what the text looks like. */
module ProvidersLaws {
  import opened Text
  import opened ConfigScalars
  import opened ConfigBlocks
  import opened Providers
  import opened ProvidersLines
  import opened ProvidersScan
  import opened ProvidersEdits
  import opened ProvidersOrder

  // ---------------------------------------------------------------- the edits of an upsert

  predicate Wants(wanted: seq<(string, string)>) {
    (forall x, y :: 0 <= x < y < |wanted| ==> wanted[x].0 != wanted[y].0) &&
    forall x :: 0 <= x < |wanted| ==> IsKey(wanted[x].0)
  }

  predicate ArePlain(wanted: seq<(string, string)>) {
    forall x :: 0 <= x < |wanted| ==> !HasTerminator(wanted[x].1)
  }

  predicate IsPlain(e: Input) {
    !HasTerminator(e.name) && !HasTerminator(e.baseUrl) && !HasTerminator(e.keyEnv)
  }

  /** What the edits do about one key. */
  ghost predicate Settles(es: seq<Edit>, e: Entry, key: string, value: string) {
    (exists x :: x in es && x.key == key && x.value == value) ||
    (key in e.fields && e.fields[key].value == value && forall x :: x in es ==> x.key != key)
  }

  lemma EditForShape(e: Entry, indent: string, key: string, value: string)
    requires IsKey(key)
    ensures var es := EditFor(e, indent, key, value);
            |es| <= 1 && (forall x :: x in es ==> IsPlaced(x, e, indent) && x.key == key && x.value == value) &&
            Settles(es, e, key, value)
  {
    hide HasTerminator, IsKey;
    var es := EditFor(e, indent, key, value);
    if es != [] { assert es[0] in es && es[0].value == value; }
  }

  lemma SettlesLonger(a: seq<Edit>, c: seq<Edit>, e: Entry, key: string, value: string)
    requires Settles(a, e, key, value) && forall x :: x in c ==> x.key != key
    ensures Settles(a + c, e, key, value) && Settles(c + a, e, key, value)
  {
    if exists x :: x in a && x.key == key && x.value == value {
      var x :| x in a && x.key == key && x.value == value;
      assert x in a + c && x in c + a;
    }
  }

  ghost predicate KeysFrom(es: seq<Edit>, wanted: seq<(string, string)>) {
    forall x :: x in es ==> exists i :: 0 <= i < |wanted| && wanted[i].0 == x.key
  }

  lemma {:induction false} EditsOfShape(e: Entry, indent: string, wanted: seq<(string, string)>)
    requires Wants(wanted)
    ensures var es := EditsOf(e, indent, wanted);
            (forall x :: x in es ==> IsPlaced(x, e, indent)) && KeysFrom(es, wanted) && KeysDistinct(es) &&
            (ArePlain(wanted) ==> forall x :: x in es ==> EditOk(x, e, indent)) &&
            forall i :: 0 <= i < |wanted| ==> Settles(es, e, wanted[i].0, wanted[i].1)
    decreases |wanted|
  {
    hide HasTerminator, IsKey, IsPlaced, Settles, EditFor;
    if wanted != [] {
      var key, rest := wanted[0].0, wanted[1..];
      var a, c := EditFor(e, indent, key, wanted[0].1), EditsOf(e, indent, rest);
      EditForShape(e, indent, key, wanted[0].1);
      EditsOfShape(e, indent, rest);
      assert forall i :: 0 <= i < |rest| ==> rest[i] == wanted[i + 1] && rest[i].0 != key;
      forall x | x in c ensures x.key != key && exists i :: 0 <= i < |wanted| && wanted[i].0 == x.key {
        var i :| 0 <= i < |rest| && rest[i].0 == x.key;
        assert wanted[i + 1].0 == x.key;
      }
      SettlesLonger(a, c, e, key, wanted[0].1);
      forall i | 0 <= i < |rest| ensures Settles(a + c, e, rest[i].0, rest[i].1) {
        SettlesLonger(c, a, e, rest[i].0, rest[i].1);
      }
      assert forall i :: 0 < i < |wanted| ==> wanted[i] == rest[i - 1];
    }
  }

  lemma WantedIsFine(fields: map<string, Field>, e: Input)
    ensures Wants(Wanted(fields, e)) && (IsPlain(e) ==> ArePlain(Wanted(fields, e))) && UrlField(fields) != "name" &&
            UrlField(fields) != "key_env"
  {
    hide HasTerminator;
    KeysAreKeys();
  }

  lemma KeysAreKeys()
    ensures IsKey("name") && IsKey("api") && IsKey("url") && IsKey("base_url") && IsKey("key_env")
    ensures "name" != "key_env" && "api" != "name" && "url" != "name" && "base_url" != "name"
    ensures "api" != "key_env" && "url" != "key_env" && "base_url" != "key_env" && "api" != "url" &&
            "api" != "base_url" && "url" != "base_url"
  {
    assert "name"[0] == 'n' && "api"[0] == 'a' && "url"[0] == 'u' && "base_url"[0] == 'b' && "key_env"[0] == 'k';
  }

  lemma KeyLinePlace(line: string)
    requires IsRow(line) && KindOf(Chomp(line)).Key?
    ensures var k := KindOf(Chomp(line)); 0 < k.at && k.at + |k.raw| <= |line|
  {
    hide IsSpace, IsInlineSpace, IsKeyChar, TrimStart, TrimEnd, HasTerminator, KindOf, StripScalar, IsRow, Chomp;
    var eol := RowIsText(line);
    var gap, rest := PartsOfKey(Chomp(line));
    TrimStartShape(EcmaScript, rest);
    TrimEndShape(EcmaScript, TrimStart(EcmaScript, rest));
  }

  /** The edits of an upsert stand where they should, in order of any sort. */
  lemma EditsStand(lines: seq<string>, i: nat, indent: string, es: seq<Edit>)
    requires AreRows(lines) && i < |BlockOf(KindsOf(lines)).entries| && KeysDistinct(es)
    requires forall x :: x in es ==> IsPlaced(x, BlockOf(KindsOf(lines)).entries[i], indent)
    ensures var h := BlockOf(KindsOf(lines)).entries[i].row;
            h < |lines| && RowsInside(es, lines) && RowsDiffer(es) && forall x :: x in es ==> StandsIn(x, h, lines)
  {
    hide KindOf, Chomp, Scan, HasTerminator, IsKey, IsDeep, IsRow, IsLine;
    var ks := KindsOf(lines);
    var b := BlockOf(ks);
    KindsAreIndented(lines);
    BlockFits(ks);
    var e := b.entries[i];
    assert EntryFits(e, ks);
    forall x | x in es ensures StandsIn(x, e.row, lines) &&
      (x.Replace? ==> x.row < |ks| && ks[x.row].Key? && ks[x.row].key == x.key) {
      assert IsPlaced(x, e, indent);
      if x.Replace? {
        assert FieldFits(e.fields[x.key], x.key, ks) && IsRow(lines[x.row]);
        KeyLinePlace(lines[x.row]);
      }
    }
    forall x, y | 0 <= x < y < |es| && es[x].Replace? && es[y].Replace? ensures es[x].row != es[y].row {
      assert es[x] in es && es[y] in es;
    }
  }

  lemma {:induction false} PutAllAt(fields: map<string, string>, es: seq<Edit>, k: string)
    requires KeysDistinct(es)
    ensures forall x :: x in es && x.key == k ==> k in PutAll(fields, es) && PutAll(fields, es)[k] == x.value
    ensures (forall x :: x in es ==> x.key != k) ==>
              (k in PutAll(fields, es) <==> k in fields) && (k in fields ==> PutAll(fields, es)[k] == fields[k])
    decreases |es|
  {
    if es != [] {
      var next := fields[es[0].key := es[0].value];
      assert forall x :: x in es[1..] ==> x in es && x.key != es[0].key;
      PutAllAt(next, es[1..], k);
      assert forall x :: x in es ==> x == es[0] || x in es[1..];
      assert es[0] in es;
    }
  }

  /** The fields an upsert asks for. */
  function SetWanted(fields: map<string, string>, wanted: seq<(string, string)>): map<string, string>
    decreases |wanted|
  {
    if wanted == [] then fields else SetWanted(fields[wanted[0].0 := wanted[0].1], wanted[1..])
  }

  lemma {:induction false} SetWantedAt(fields: map<string, string>, wanted: seq<(string, string)>, k: string)
    requires Wants(wanted)
    ensures forall w :: w in wanted && w.0 == k ==>
              k in SetWanted(fields, wanted) && SetWanted(fields, wanted)[k] == w.1
    ensures (forall w :: w in wanted ==> w.0 != k) ==>
              (k in SetWanted(fields, wanted) <==> k in fields) &&
              (k in fields ==> SetWanted(fields, wanted)[k] == fields[k])
    decreases |wanted|
  {
    hide HasTerminator, IsKey;
    if wanted != [] {
      var next := fields[wanted[0].0 := wanted[0].1];
      assert forall w :: w in wanted[1..] ==> w in wanted && w.0 != wanted[0].0;
      SetWantedAt(next, wanted[1..], k);
      assert forall w :: w in wanted ==> w == wanted[0] || w in wanted[1..];
      assert wanted[0] in wanted;
    }
  }

  /** In whatever order, the edits bring about exactly the fields asked for. */
  lemma EditsSettle(e: Entry, wanted: seq<(string, string)>, es: seq<Edit>)
    requires Wants(wanted) && KeysDistinct(es)
    requires KeysFrom(es, wanted) && forall i :: 0 <= i < |wanted| ==> Settles(es, e, wanted[i].0, wanted[i].1)
    ensures PutAll(Values(e.fields), es) == SetWanted(Values(e.fields), wanted)
  {
    hide Wants, PutAll, SetWanted;
    var l, r := PutAll(Values(e.fields), es), SetWanted(Values(e.fields), wanted);
    forall k ensures (k in l <==> k in r) && (k in l && k in r ==> l[k] == r[k]) {
      PutAllAt(Values(e.fields), es, k);
      SetWantedAt(Values(e.fields), wanted, k);
      if exists w :: w in wanted && w.0 == k {
        var w :| w in wanted && w.0 == k;
        assert Settles(es, e, w.0, w.1);
      }
    }
    assert l == r by { SameMap(l, r); }
  }

  lemma SameMap(l: map<string, string>, r: map<string, string>)
    requires forall k :: (k in l <==> k in r) && (k in l && k in r ==> l[k] == r[k])
    ensures l == r
  {
  }

  // ---------------------------------------------------------------- text and lines

  /** A head, the lines behind it, and what they are read as. */
  lemma Recomposed(pre: string, lines: seq<string>)
    requires IsHead(pre) && AreRows(lines)
    ensures var content := pre + Concat(lines);
            BodyStart(content) == Some(|pre|) && content[|pre|..] == Concat(lines) && content[..|pre|] == pre &&
            LinesOf(content[|pre|..]) == lines && ViewsIn(content) == Views(BlockOf(KindsOf(lines)).entries)
  {
    hide BodyStart, LinesOf, Concat, KindsOf, BlockOf, Views, IsLine, IsRow;
    var content := pre + Concat(lines);
    HeadStays(pre, Concat(lines));
    assert content[|pre|..] == Concat(lines) && content[..|pre|] == pre;
    LinesOfConcat(lines);
  }

  /** Every text with a block is of this kind. */
  lemma Decomposed(content: string)
    requires BodyStart(content).Some?
    ensures var n := BodyStart(content).value;
            IsHead(content[..n]) && AreRows(LinesOf(content[n..])) &&
            content == content[..n] + Concat(LinesOf(content[n..])) &&
            ViewsIn(content) == Views(BlockOf(KindsOf(LinesOf(content[n..]))).entries)
  {
    hide LinesOf, Concat, KindsOf, BlockOf, Views, IsLine, IsRow, FindHeader, HeaderLength;
    HeadOf(content);
    var n := BodyStart(content).value;
    ConcatOfLines(content[n..]);
    RowsOfText(content[n..]);
  }

  // ---------------------------------------------------------------- updating an entry

  /** The lines after an upsert that finds its entry. */
  ghost function UpdatedLines(lines: seq<string>, i: nat, e: Input, base: nat): (r: seq<string>)
    requires AreRows(lines) && i < |BlockOf(KindsOf(lines)).entries|
  {
    var b := BlockOf(KindsOf(lines));
    var es := UpsertEdits(b, i, e);
    UpsertIsOrdered(lines, i, e, base);
    ApplyEdits(lines, SortEdits(es, base, lines), lines, |lines|)
  }

  lemma NewIndentIsDeep(b: Block, ks: seq<Kind>, i: nat)
    requires Fits(b, ks) && i < |b.entries|
    ensures var indent := NewFieldIndent(b, b.entries[i]);
            IsIndent(indent) && |indent| > |b.childIndent| &&
            (b.entries[i].fieldIndent == "" || b.entries[i].fieldIndent == indent)
  {
    hide EntryFits;
    var e := b.entries[i];
    assert IsDeep(e, b.childIndent);
  }

  lemma UpsertIsOrdered(lines: seq<string>, i: nat, e: Input, base: nat)
    requires AreRows(lines) && i < |BlockOf(KindsOf(lines)).entries|
    ensures var b := BlockOf(KindsOf(lines));
            var es := UpsertEdits(b, i, e);
            RowsInside(es, lines) &&
            var sorted := SortEdits(es, base, lines);
            Descends(sorted, lines, |lines|) && InsertsLast(sorted) &&
            (forall x :: x in sorted ==> IsPlaced(x, b.entries[i], NewFieldIndent(b, b.entries[i]))) &&
            (IsPlain(e) ==> WellPlaced(sorted, b, i, NewFieldIndent(b, b.entries[i]))) &&
            PutAll(Values(b.entries[i].fields), sorted) ==
              SetWanted(Values(b.entries[i].fields), Wanted(b.entries[i].fields, e))
  {
    hide KindsOf, HasTerminator, IsKey, EditsOf, Settles, Wanted, EditOk, StandsIn, PutAll, SetWanted, IsLine, Descends,
         StartOf;
    hide IsDeep, IsIndent, EntryFits, NewFieldIndent, SortEdits, BlockOf;
    var b := BlockOf(KindsOf(lines));
    var entry, indent := b.entries[i], NewFieldIndent(b, b.entries[i]);
    var wanted := Wanted(entry.fields, e);
    var es := UpsertEdits(b, i, e);
    WantedIsFine(entry.fields, e);
    EditsOfShape(entry, indent, wanted);
    EditsStand(lines, i, indent, es);
    var sorted := SortEdits(es, base, lines);
    SortKeeps(es, base, lines);
    EditsStand(lines, i, indent, sorted);
    assert sorted != [] ==> sorted[0] in sorted;
    assert sorted != [] && StandsIn(sorted[0], entry.row, lines) ==> if sorted[0].Replace? then sorted[0].row < |lines|
           else sorted[0].row <= |lines| by {
      StandsInside(sorted, entry.row, lines);
    }
    SortedDescends(sorted, entry.row, base, lines, |lines|);
    KindsAreIndented(lines);
    BlockFits(KindsOf(lines));
    NewIndentIsDeep(b, KindsOf(lines), i);
    SettlesSorted(es, sorted, entry, wanted);
    EditsSettle(entry, wanted, sorted);
  }

  lemma StandsInside(es: seq<Edit>, h: nat, lines: seq<string>)
    ensures es != [] && StandsIn(es[0], h, lines) ==> if es[0].Replace? then es[0].row < |lines|
            else es[0].row <= |lines|
  {
  }

  lemma SettlesSorted(es: seq<Edit>, sorted: seq<Edit>, e: Entry, wanted: seq<(string, string)>)
    requires forall x :: x in sorted <==> x in es
    requires forall i :: 0 <= i < |wanted| ==> Settles(es, e, wanted[i].0, wanted[i].1)
    ensures forall i :: 0 <= i < |wanted| ==> Settles(sorted, e, wanted[i].0, wanted[i].1)
  {
  }

  /** The header line of entry `i` ends with a line feed; only the last line of a file can do without. */
  predicate HeaderIsClosed(content: string, i: nat)
    requires BodyStart(content).Some?
  {
    var lines := LinesOf(content[BodyStart(content).value..]);
    var b := BlockOf(KindsOf(lines));
    i < |b.entries| && b.entries[i].row < |lines| && IsLine(lines[b.entries[i].row])
  }

  lemma ClosedFile(content: string, i: nat)
    requires BodyStart(content).Some? && i < |ViewsIn(content)| && content[|content| - 1] == '\n'
    ensures HeaderIsClosed(content, i)
  {
    hide LinesOf, IsLine, Scan, KindsOf, FindHeader, HeaderLength;
    var body := content[BodyStart(content).value..];
    var ks := KindsOf(LinesOf(body));
    RowsOfText(body);
    BlockInside(ks);
    assert body != "" ==> body[|body| - 1] == content[|content| - 1];
    assert BlockOf(ks).entries[i] in BlockOf(ks).entries;
  }

  /** The text after an upsert that finds its entry: the edits of its lines, wherever they stand. */
  lemma UpsertEditsLines(content: string, input: Input)
    requires BodyStart(content).Some? && Stored(input).Some?
    requires Locate(ViewsIn(content), input.keyEnv, Stored(input).value.slug) < |ViewsIn(content)|
    ensures var n, e := BodyStart(content).value, Stored(input).value;
            var i := Locate(ViewsIn(content), input.keyEnv, e.slug);
            var lines := LinesOf(content[n..]);
            AreRows(lines) && i < |BlockOf(KindsOf(lines)).entries| &&
            UpsertText(content, input) == content[..n] + Concat(UpdatedLines(lines, i, e, n))
  {
    hide KindsOf, LinesOf, HasTerminator, IsLine, Descends, BlockOf, BodyStart, Concat, Splice, SortDescending,
         SortEdits, PatchOf;
    hide UpsertEdits, Wanted, Locate, WellPlaced, Stored;
    var n, e := BodyStart(content).value, Stored(input).value;
    var i := Locate(ViewsIn(content), input.keyEnv, e.slug);
    Decomposed(content);
    var pre, lines := content[..n], LinesOf(content[n..]);
    var es := UpsertEdits(BlockOf(KindsOf(lines)), i, e);
    UpsertIsOrdered(lines, i, e, n);
    var sorted := SortEdits(es, n, lines);
    SortCommutes(es, n, lines);
    SplicesAreEdits(pre, lines, sorted, lines, |lines|);
    UpsertIsSpliced(content, input);
  }

  /** An upsert that finds its entry under a header line that ends sets exactly the fields asked for. */
  lemma UpsertUpdates(content: string, input: Input)
    requires BodyStart(content).Some? && Stored(input).Some? && IsPlain(Stored(input).value)
    requires Locate(ViewsIn(content), input.keyEnv, Stored(input).value.slug) < |ViewsIn(content)|
    requires HeaderIsClosed(content, Locate(ViewsIn(content), input.keyEnv, Stored(input).value.slug))
    ensures var n, e, views := BodyStart(content).value, Stored(input).value, ViewsIn(content);
            var i := Locate(views, input.keyEnv, e.slug);
            var lines := LinesOf(content[n..]);
            AreRows(lines) && i < |BlockOf(KindsOf(lines)).entries| &&
            UpsertText(content, input) == content[..n] + Concat(UpdatedLines(lines, i, e, n)) &&
            BodyStart(UpsertText(content, input)) == Some(n) &&
            ViewsIn(UpsertText(content, input)) ==
              views[i := View(views[i].slug,
                SetWanted(views[i].fields, Wanted(BlockOf(KindsOf(lines)).entries[i].fields, e)))]
  {
    hide KindsOf, LinesOf, HasTerminator, PutAll, SetWanted, IsLine, Descends, BlockOf, BodyStart, Concat, SortEdits,
         UpsertText;
    hide UpsertEdits, Wanted, Locate, WellPlaced, Stored;
    var n, e, views := BodyStart(content).value, Stored(input).value, ViewsIn(content);
    var i := Locate(views, input.keyEnv, e.slug);
    Decomposed(content);
    UpsertEditsLines(content, input);
    var pre, lines := content[..n], LinesOf(content[n..]);
    var b := BlockOf(KindsOf(lines));
    UpsertIsOrdered(lines, i, e, n);
    var sorted := SortEdits(UpsertEdits(b, i, e), n, lines);
    EditsSetFields(lines, sorted, lines, |lines|, i, NewFieldIndent(b, b.entries[i]));
    var next := ApplyEdits(lines, sorted, lines, |lines|);
    assert UpdatedLines(lines, i, e, n) == next;
    Recomposed(pre, next);
    assert views[i] == ViewOf(b.entries[i]);
  }

  lemma UpsertIsSpliced(content: string, input: Input)
    requires BodyStart(content).Some? && Stored(input).Some?
    requires Locate(ViewsIn(content), input.keyEnv, Stored(input).value.slug) < |ViewsIn(content)|
    ensures var n, e, i := BodyStart(content).value, Stored(input).value,
              Locate(ViewsIn(content), input.keyEnv, Stored(input).value.slug);
            var lines := LinesOf(content[n..]);
            var es := UpsertEdits(BlockOf(KindsOf(lines)), i, e);
            RowsInside(es, lines) && UpsertText(content, input) ==
              SpliceAll(content, SortDescending(PatchesOf(n, lines, es)))
  {
    hide KindsOf, LinesOf, BodyStart, SpliceAll, SortDescending, EditsOf, PatchOf, Stored, Locate, Wanted,
         NewFieldIndent, Scan;
    var n, e, i := BodyStart(content).value, Stored(input).value,
      Locate(ViewsIn(content), input.keyEnv, Stored(input).value.slug);
    var lines := LinesOf(content[n..]);
    var b := BlockOf(KindsOf(lines));
    BlockInside(KindsOf(lines));
    assert b.entries[i] in b.entries;
    EditsInside(b.entries[i], NewFieldIndent(b, b.entries[i]), Wanted(b.entries[i].fields, e), |lines|);
  }

  // ---------------------------------------------------------------- get after put, for an entry that is there

  /** The provider as it is listed after an upsert into its entry. */
  function Updated(p: UserProvider, e: Input): UserProvider {
    UserProvider(p.slug, e.name, e.baseUrl, FirstSet(e.keyEnv, p.keyEnv))
  }

  lemma StoredIsSet(input: Input)
    ensures Stored(input).Some? ==>
              (var e := Stored(input).value;
              e.name != "" && e.baseUrl != "" && e.slug != "" && e.keyEnv == input.keyEnv)
  {
    hide Trim, Slugify;
  }

  lemma SetWantedReads(fields: map<string, Field>, e: Input, slug: string)
    requires e.name != "" && e.baseUrl != ""
    ensures ProviderOf(View(slug, SetWanted(Values(fields), Wanted(fields, e)))) ==
              Updated(ProviderOf(View(slug, Values(fields))), e)
  {
    KeysAreKeys();
    var f, url := Values(fields), UrlField(fields);
    var g := f["name" := e.name][url := e.baseUrl];
    var h := if e.keyEnv == "" then g else g["key_env" := e.keyEnv];
    assert SetWanted(f, Wanted(fields, e)) == h by { ThreeWanted(f, url, e); }
  }

  lemma ThreeWanted(f: map<string, string>, url: string, e: Input)
    ensures var g := f["name" := e.name][url := e.baseUrl];
            SetWanted(f, [("name", e.name), (url, e.baseUrl)] +
              (if e.keyEnv == "" then [] else [("key_env", e.keyEnv)])) ==
            if e.keyEnv == "" then g else g["key_env" := e.keyEnv]
  {
    var a, c: seq<(string, string)> := [("name", e.name), (url, e.baseUrl)], if e.keyEnv == "" then []
    else [("key_env", e.keyEnv)];
    var w := a + c;
    assert w[1..] == [(url, e.baseUrl)] + c && w[1..][1..] == c;
    var g := f["name" := e.name][url := e.baseUrl];
    assert SetWanted(f["name" := e.name], [(url, e.baseUrl)] + c) == SetWanted(g, c);
    if c != [] { assert c[1..] == []; }
    assert SetWanted(g, c) == if e.keyEnv == "" then g else g["key_env" := e.keyEnv];
  }

  /**
   * Get after put: an upsert that finds its entry, by key variable or by slug, shows the new name, URL and
   * key there, under whichever alias the entry uses, and every other entry in its place as before.
   */
  lemma GetAfterUpdate(content: string, input: Input)
    requires BodyStart(content).Some? && Stored(input).Some? && IsPlain(Stored(input).value)
    requires Locate(ViewsIn(content), input.keyEnv, Stored(input).value.slug) < |ViewsIn(content)|
    requires HeaderIsClosed(content, Locate(ViewsIn(content), input.keyEnv, Stored(input).value.slug))
    ensures var i := Locate(ViewsIn(content), input.keyEnv, Stored(input).value.slug);
            List(UpsertText(content, input)) == List(content)[i := Updated(List(content)[i], Stored(input).value)]
  {
    hide KindsOf, LinesOf, BodyStart, BlockOf, Stored, Locate, ViewsIn, UpsertText, SetWanted, Wanted, ProviderOf;
    UpsertUpdates(content, input);
    Decomposed(content);
    StoredIsSet(input);
    var e, i := Stored(input).value, Locate(ViewsIn(content), input.keyEnv, Stored(input).value.slug);
    var b := BlockOf(KindsOf(LinesOf(content[BodyStart(content).value..])));
    SetWantedReads(b.entries[i].fields, e, b.entries[i].slug);
    assert ViewsIn(content)[i] == ViewOf(b.entries[i]);
  }
}
