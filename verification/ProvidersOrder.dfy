/** The order in which patches are applied, and what a whole list of them does to an entry. */
module ProvidersOrder {
  import opened Quoting
  import opened ConfigScalars
  import opened Providers
  import opened ProvidersLines
  import opened ProvidersScan
  import opened ProvidersEdits

  // ---------------------------------------------------------------- lists of edits of one entry

  predicate KeysDistinct(es: seq<Edit>) {
    forall x, y :: 0 <= x < y < |es| ==> es[x].key != es[y].key
  }

  predicate InsertsLast(es: seq<Edit>) {
    forall x, y :: 0 <= x < y < |es| && es[x].Insert? ==> es[y].Insert?
  }

  /** An edit that finds its field, or misses it, where the scan left it. */
  predicate IsPlaced(e: Edit, entry: Entry, indent: string) {
    IsKey(e.key) &&
    match e
    case Replace(key, row, at, size, value) =>
      key in entry.fields && entry.fields[key].row == row && entry.fields[key].at == at &&
      entry.fields[key].size == size
    case Insert(key, row, ind, value) => key !in entry.fields && row == entry.row + 1 && ind == indent
  }

  /** Such an edit with a value the scanner can read back. */
  predicate EditOk(e: Edit, entry: Entry, indent: string) {
    IsPlaced(e, entry, indent) && !HasTerminator(e.value)
  }

  ghost predicate WellPlaced(es: seq<Edit>, b: Block, i: nat, indent: string) {
    i < |b.entries| && IsIndent(indent) && |indent| > |b.childIndent| &&
    (b.entries[i].fieldIndent == "" || b.entries[i].fieldIndent == indent) &&
    (forall x :: 0 <= x < |es| ==> EditOk(es[x], b.entries[i], indent)) && KeysDistinct(es) && InsertsLast(es)
  }

  function PutAll(fields: map<string, string>, es: seq<Edit>): map<string, string>
    decreases |es|
  {
    if es == [] then fields else PutAll(fields[es[0].key := es[0].value], es[1..])
  }

  lemma RestDistinct(es: seq<Edit>)
    requires es != [] && KeysDistinct(es) && InsertsLast(es)
    ensures KeysDistinct(es[1..]) && InsertsLast(es[1..])
    ensures forall x :: 0 <= x < |es[1..]| ==> es[1..][x] == es[x + 1] && es[1..][x].key != es[0].key
    ensures es[0].Insert? ==> forall x :: 0 <= x < |es[1..]| ==> es[1..][x].Insert?
  {
  }

  lemma PlacedAfterReplace(es: seq<Edit>, b: Block, ks: seq<Kind>, i: nat, indent: string, size: nat)
    requires es != [] && WellPlaced(es, b, i, indent) && Fits(b, ks) && es[0].Replace?
    ensures WellPlaced(es[1..], Revalued(b, es[0].row, es[0].value, size), i, indent)
  {
    hide HasTerminator, IsKey, IsIndent, IsDeep;
    RestDistinct(es);
    var entry := b.entries[i];
    assert EditOk(es[0], entry, indent) && EntryFits(entry, ks);
    var next := Revalued(b, es[0].row, es[0].value, size).entries[i];
    forall x | 0 <= x < |es[1..]| ensures EditOk(es[1..][x], next, indent) {
      var e := es[x + 1];
      assert EditOk(e, entry, indent);
      if e.Replace? {
        assert FieldFits(entry.fields[e.key], e.key, ks) && FieldFits(entry.fields[es[0].key], es[0].key, ks);
      }
    }
  }

  lemma PlacedAfterInsert(es: seq<Edit>, b: Block, i: nat, indent: string, k: Kind)
    requires es != [] && WellPlaced(es, b, i, indent) && es[0].Insert? && k.Key? && k.indent == indent &&
             k.key == es[0].key
    ensures WellPlaced(es[1..], Inserted(b, i, k, b.entries[i].row + 1), i, indent)
  {
    hide HasTerminator, IsKey, IsIndent;
    RestDistinct(es);
    var entry := b.entries[i];
    var next := Inserted(b, i, k, entry.row + 1).entries[i];
    assert next.fields.Keys == entry.fields.Keys + {k.key};
    forall x | 0 <= x < |es[1..]| ensures EditOk(es[1..][x], next, indent) {
      assert EditOk(es[x + 1], entry, indent) && EditOk(es[0], entry, indent);
    }
  }

  lemma RevaluedRow(b: Block, i: nat, row: nat, value: string, size: nat)
    requires i < |b.entries|
    ensures Revalued(b, row, value, size).entries[i].row == b.entries[i].row
  {
  }

  lemma InsertedRow(b: Block, i: nat, k: Kind)
    requires k.Key? && i < |b.entries|
    ensures Inserted(b, i, k, b.entries[i].row + 1).entries[i].row == b.entries[i].row
  {
  }

  /** A list of edits sets exactly the fields it names, in the one entry it is about. */
  lemma {:induction false} EditsSetFields(cur: seq<string>, es: seq<Edit>, lines: seq<string>, bound: nat, i: nat,
                                          indent: string)
    requires Descends(es, lines, bound) && bound <= |cur| && bound <= |lines| && cur[..bound] == lines[..bound]
    requires AreRows(cur) && WellPlaced(es, BlockOf(KindsOf(cur)), i, indent)
    requires var h := BlockOf(KindsOf(cur)).entries[i].row; h < |cur| && IsLine(cur[h])
    ensures var next := ApplyEdits(cur, es, lines, bound);
            var views := Views(BlockOf(KindsOf(cur)).entries);
            AreRows(next) && Views(BlockOf(KindsOf(next)).entries) ==
              views[i := View(views[i].slug, PutAll(views[i].fields, es))]
    decreases |es|
  {
    hide BlockOf, KindsOf, IsLine, PatchedLine, FieldLine, Quote, HasTerminator, IsKey, IsIndent, Fits, Revalued,
         Inserted, ViewOf, AreRows;
    var b := BlockOf(KindsOf(cur));
    if es != [] {
      var e := es[0];
      EditStillFits(cur, e, lines, bound);
      assert EditOk(e, b.entries[i], indent);
      KindsAreIndented(cur);
      BlockFits(KindsOf(cur));
      var next := ApplyEdit(cur, e);
      if e.Replace? {
        ReplaceLine(cur, i, e.key, e.value);
        RevaluedRow(b, i, e.row, e.value, |Quote(e.value)|);
        PlacedAfterReplace(es, b, KindsOf(cur), i, indent, |Quote(e.value)|);
      } else {
        InsertFieldLine(cur, i, e.key, indent, e.value);
        var k: Kind :| k.Key? && k.indent == indent && k.key == e.key &&
        BlockOf(KindsOf(next)) == Inserted(b, i, k, b.entries[i].row + 1);
        PlacedAfterInsert(es, b, i, indent, k);
        InsertedRow(b, i, k);
        assert next[b.entries[i].row] == cur[b.entries[i].row];
      }
      EditsSetFields(next, es[1..], lines, e.row, i, indent);
    }
  }

  // ---------------------------------------------------------------- sorting

  function StartOf(base: nat, lines: seq<string>, e: Edit): nat
    requires e.row <= |lines|
  {
    PatchOf(base, lines, e).start
  }

  ghost predicate RowsInside(es: seq<Edit>, lines: seq<string>) {
    forall e :: e in es ==> e.row <= |lines|
  }

  function PlaceEdit(e: Edit, sorted: seq<Edit>, base: nat, lines: seq<string>): (r: seq<Edit>)
    requires e.row <= |lines| && RowsInside(sorted, lines)
    ensures |r| == |sorted| + 1 && forall x :: x in r <==> x == e || x in sorted
  {
    if sorted == [] || StartOf(base, lines, sorted[0]) < StartOf(base, lines, e) then [e] + sorted
    else [sorted[0]] + PlaceEdit(e, sorted[1..], base, lines)
  }

  function SortEdits(es: seq<Edit>, base: nat, lines: seq<string>): (r: seq<Edit>)
    requires RowsInside(es, lines)
    ensures |r| == |es| && forall x :: x in r <==> x in es
  {
    if es == [] then [] else
      assert forall x :: x in es <==> x == es[|es| - 1] || x in es[..|es| - 1];
      PlaceEdit(es[|es| - 1], SortEdits(es[..|es| - 1], base, lines), base, lines)
  }

  /** Sorting the patches is sorting the edits they come from. */
  lemma {:induction false} PlaceCommutes(e: Edit, sorted: seq<Edit>, base: nat, lines: seq<string>)
    requires e.row <= |lines| && RowsInside(sorted, lines)
    ensures PatchesOf(base, lines, PlaceEdit(e, sorted, base, lines)) ==
              PlaceDescending(PatchOf(base, lines, e), PatchesOf(base, lines, sorted))
  {
    hide PatchOf;
    var ps := PatchesOf(base, lines, sorted);
    if sorted != [] {
      assert ps[0] == PatchOf(base, lines, sorted[0]) && ps[1..] == PatchesOf(base, lines, sorted[1..]);
      if StartOf(base, lines, sorted[0]) >= StartOf(base, lines, e) { PlaceCommutes(e, sorted[1..], base, lines); }
    }
  }

  lemma {:induction false} SortCommutes(es: seq<Edit>, base: nat, lines: seq<string>)
    requires RowsInside(es, lines)
    ensures PatchesOf(base, lines, SortEdits(es, base, lines)) == SortDescending(PatchesOf(base, lines, es))
  {
    hide PatchOf;
    if es != [] {
      var n := |es| - 1;
      SortCommutes(es[..n], base, lines);
      PlaceCommutes(es[n], SortEdits(es[..n], base, lines), base, lines);
      assert PatchesOf(base, lines, es)[..n] == PatchesOf(base, lines, es[..n]);
    }
  }

  ghost predicate StartsDescend(es: seq<Edit>, base: nat, lines: seq<string>)
    requires RowsInside(es, lines)
  {
    forall x, y :: 0 <= x < y < |es| ==> StartOf(base, lines, es[x]) >= StartOf(base, lines, es[y])
  }

  lemma PutFirst(e: Edit, rest: seq<Edit>, base: nat, lines: seq<string>)
    requires e.row <= |lines| && RowsInside(rest, lines) && KeysDistinct(rest) && StartsDescend(rest, base, lines)
    requires forall x :: x in rest ==> x.key != e.key && StartOf(base, lines, x) <= StartOf(base, lines, e)
    ensures KeysDistinct([e] + rest) && RowsInside([e] + rest, lines) && StartsDescend([e] + rest, base, lines)
  {
    hide StartOf;
    var all := [e] + rest;
    assert forall x :: 0 < x < |all| ==> all[x] == rest[x - 1];
  }

  lemma TailOf(es: seq<Edit>, base: nat, lines: seq<string>)
    requires es != [] && RowsInside(es, lines) && KeysDistinct(es) && StartsDescend(es, base, lines)
    ensures RowsInside(es[1..], lines) && KeysDistinct(es[1..]) && StartsDescend(es[1..], base, lines)
    ensures forall x :: x in es[1..] ==>
              x in es && x.key != es[0].key && StartOf(base, lines, x) <= StartOf(base, lines, es[0])
  {
    hide StartOf;
    var tail := es[1..];
    assert forall x :: 0 <= x < |tail| ==> tail[x] == es[x + 1];
  }

  lemma {:induction false} PlaceKeeps(e: Edit, sorted: seq<Edit>, base: nat, lines: seq<string>)
    requires e.row <= |lines| && RowsInside(sorted, lines) && KeysDistinct(sorted) && StartsDescend(sorted, base, lines)
    requires forall x :: x in sorted ==> x.key != e.key
    ensures var r := PlaceEdit(e, sorted, base, lines); KeysDistinct(r) && StartsDescend(r, base, lines)
  {
    hide StartOf, KeysDistinct, StartsDescend;
    if sorted == [] {
      PutFirst(e, sorted, base, lines);
    } else {
      TailOf(sorted, base, lines);
      assert sorted[0] in sorted;
      if StartOf(base, lines, sorted[0]) < StartOf(base, lines, e) {
        assert forall x :: x in sorted ==> x == sorted[0] || x in sorted[1..];
        PutFirst(e, sorted, base, lines);
      } else {
        PlaceKeeps(e, sorted[1..], base, lines);
        PutFirst(sorted[0], PlaceEdit(e, sorted[1..], base, lines), base, lines);
      }
    }
  }

  lemma {:induction false} SortKeeps(es: seq<Edit>, base: nat, lines: seq<string>)
    requires RowsInside(es, lines) && KeysDistinct(es)
    ensures var r := SortEdits(es, base, lines); KeysDistinct(r) && StartsDescend(r, base, lines)
  {
    hide StartOf;
    if es != [] {
      var n := |es| - 1;
      SortKeeps(es[..n], base, lines);
      forall x | x in SortEdits(es[..n], base, lines) ensures x.key != es[n].key {
        var z :| 0 <= z < n && es[..n][z] == x;
      }
      PlaceKeeps(es[n], SortEdits(es[..n], base, lines), base, lines);
    }
  }

  // ---------------------------------------------------------------- offsets and rows

  lemma {:induction false} OffsetGrows(lines: seq<string>, a: nat, b: nat)
    requires a < b <= |lines|
    ensures Offset(lines, a) + |lines[a]| <= Offset(lines, b)
  {
    hide Concat;
    var p, l, q := lines[..a], lines[a], lines[a + 1..b];
    assert lines[..b] == p + [l] + q;
    ConcatThree(p, [l], q);
    ConcatOne(l);
  }

  /** Where the edits of one entry stand: values below its header line, new lines right after it. */
  predicate StandsIn(e: Edit, h: nat, lines: seq<string>) {
    match e
    case Replace(_, row, at, size, _) => h < row < |lines| && 0 < at && at + size <= |lines[row]|
    case Insert(_, row, _, _) => row == h + 1 <= |lines|
  }

  lemma OrderOfTwo(x: Edit, y: Edit, h: nat, base: nat, lines: seq<string>)
    requires StandsIn(x, h, lines) && StandsIn(y, h, lines) && StartOf(base, lines, x) >= StartOf(base, lines, y)
    requires x.Replace? && y.Replace? ==> x.row != y.row
    ensures (x.Insert? ==> y.Insert?) && (if y.Replace? then y.row < x.row else y.row <= x.row)
  {
    hide Offset;
    if y.Replace? {
      if x.Insert? {
        if y.row > h + 1 { OffsetGrows(lines, h + 1, y.row); }
      } else if x.row < y.row {
        OffsetGrows(lines, x.row, y.row);
      }
    }
  }

  ghost predicate RowsDiffer(es: seq<Edit>) {
    forall x, y :: 0 <= x < y < |es| && es[x].Replace? && es[y].Replace? ==> es[x].row != es[y].row
  }

  lemma {:induction false} SortedDescends(es: seq<Edit>, h: nat, base: nat, lines: seq<string>, bound: nat)
    requires RowsInside(es, lines) && StartsDescend(es, base, lines) && RowsDiffer(es)
    requires forall e :: e in es ==> StandsIn(e, h, lines)
    requires es != [] ==> if es[0].Replace? then es[0].row < bound else es[0].row <= bound
    ensures Descends(es, lines, bound) && InsertsLast(es)
    decreases |es|
  {
    hide StartOf;
    if es != [] {
      assert StandsIn(es[0], h, lines) && EditFits(es[0], lines);
      forall y | 0 < y < |es| ensures (es[0].Insert? ==> es[y].Insert?) &&
        (if es[y].Replace? then es[y].row < es[0].row else es[y].row <= es[0].row) {
        OrderOfTwo(es[0], es[y], h, base, lines);
      }
      assert forall y :: 0 <= y < |es[1..]| ==> es[1..][y] == es[y + 1];
      SortedDescends(es[1..], h, base, lines, es[0].row);
    }
  }
}
