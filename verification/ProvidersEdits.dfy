/** Edits of an entry: what they do to lines and to the listing, and why the splices of the text perform them. */
module ProvidersEdits {
  import opened Quoting
  import opened ConfigScalars
  import opened ConfigBlocks
  import opened Providers
  import opened ProvidersLines
  import opened ProvidersScan

  // ---------------------------------------------------------------- edits of lines

  predicate EditFits(e: Edit, lines: seq<string>) {
    match e
    case Replace(_, row, at, size, _) => row < |lines| && at + size <= |lines[row]|
    case Insert(_, row, _, _) => row <= |lines|
  }

  function ApplyEdit(lines: seq<string>, e: Edit): seq<string>
    requires EditFits(e, lines)
  {
    match e
    case Replace(_, row, at, size, value) => lines[row := PatchedLine(lines[row], at, size, value)]
    case Insert(key, row, indent, value) => lines[..row] + [FieldLine(indent, key, value)] + lines[row..]
  }

  /** All edits at once: every one stands in rows the ones before it left alone. */
  predicate Descends(es: seq<Edit>, lines: seq<string>, bound: nat)
    decreases |es|
  {
    es == [] ||
    (EditFits(es[0], lines) && (if es[0].Replace? then es[0].row < bound else es[0].row <= bound) &&
      Descends(es[1..], lines, es[0].row))
  }

  /** The lines after the edits; `lines` are those before all edits, `cur` agrees with them up to `bound`. */
  function ApplyEdits(cur: seq<string>, es: seq<Edit>, lines: seq<string>, bound: nat): seq<string>
    requires Descends(es, lines, bound) && bound <= |cur| && bound <= |lines| && cur[..bound] == lines[..bound]
    decreases |es|
  {
    if es == [] then cur
    else
      EditStillFits(cur, es[0], lines, bound);
      ApplyEdits(ApplyEdit(cur, es[0]), es[1..], lines, es[0].row)
  }

  lemma EditStillFits(cur: seq<string>, e: Edit, lines: seq<string>, bound: nat)
    requires EditFits(e, lines) && (if e.Replace? then e.row < bound else e.row <= bound)
    requires bound <= |cur| && bound <= |lines| && cur[..bound] == lines[..bound]
    ensures EditFits(e, cur) && e.row <= |ApplyEdit(cur, e)| && ApplyEdit(cur, e)[..e.row] == lines[..e.row]
  {
    hide PatchedLine, FieldLine;
    if e.Replace? { assert cur[e.row] == cur[..bound][e.row] == lines[..bound][e.row]; }
    assert cur[..e.row] == cur[..bound][..e.row] == lines[..bound][..e.row] == lines[..e.row];
  }

  // ---------------------------------------------------------------- splicing back to front

  lemma SpliceMiddle(a: string, m: string, c: string, text: string)
    ensures Splice(a + m + c, Patch(|a|, |a| + |m|, text)) == a + text + c
  {
    var s := a + m + c;
    assert s[..|a|] == a && s[|a| + |m|..] == c;
  }

  lemma ConcatOne(l: string)
    ensures Concat([l]) == l
  {
    assert Concat([]) == "";
    assert [l][1..] == [];
  }

  lemma ConcatThree(a: seq<string>, m: seq<string>, c: seq<string>)
    ensures Concat(a + m + c) == Concat(a) + Concat(m) + Concat(c)
  {
    ConcatSplit(a + m, c);
    ConcatSplit(a, m);
  }

  lemma SpliceReplaces(pre: string, cur: seq<string>, row: nat, at: nat, size: nat, value: string)
    requires row < |cur| && at + size <= |cur[row]|
    ensures var start := |pre| + Offset(cur, row) + at;
            Splice(pre + Concat(cur), Patch(start, start + size, Quote(value))) ==
            pre + Concat(cur[row := PatchedLine(cur[row], at, size, value)])
  {
    hide Quote, Splice, Concat;
    var a, l, c := cur[..row], cur[row], cur[row + 1..];
    var q := Quote(value);
    var l1 := PatchedLine(l, at, size, value);
    assert cur == a + [l] + c && cur[row := l1] == a + [l1] + c;
    ConcatThree(a, [l], c);
    ConcatThree(a, [l1], c);
    ConcatOne(l);
    ConcatOne(l1);
    AroundValue(pre, Concat(a), l, at, size, q, Concat(c));
    SpliceMiddle(pre + Concat(a) + l[..at], l[at..at + size], l[at + size..] + Concat(c), q);
  }

  lemma AroundValue(pre: string, a: string, l: string, at: nat, size: nat, q: string, c: string)
    requires at + size <= |l|
    ensures pre + (a + l + c) == (pre + a + l[..at]) + l[at..at + size] + (l[at + size..] + c)
    ensures pre + (a + (l[..at] + q + l[at + size..]) + c) == (pre + a + l[..at]) + q + (l[at + size..] + c)
  {
  }

  lemma SpliceRows(pre: string, cur: seq<string>, row: nat, end: nat, more: seq<string>)
    requires row <= end <= |cur|
    ensures Splice(pre + Concat(cur), Patch(|pre| + Offset(cur, row), |pre| + Offset(cur, end), Concat(more))) ==
            pre + Concat(cur[..row] + more + cur[end..])
  {
    hide Splice, Concat;
    var a, m, c := cur[..row], cur[row..end], cur[end..];
    assert cur == a + m + c && cur[..end] == a + m;
    ConcatThree(a, m, c);
    ConcatThree(a, more, c);
    ConcatSplit(a, m);
    assert pre + (Concat(a) + Concat(m) + Concat(c)) == (pre + Concat(a)) + Concat(m) + Concat(c);
    assert pre + (Concat(a) + Concat(more) + Concat(c)) == (pre + Concat(a)) + Concat(more) + Concat(c);
    SpliceMiddle(pre + Concat(a), Concat(m), Concat(c), Concat(more));
  }

  lemma SpliceEditAt(pre: string, cur: seq<string>, e: Edit, lines: seq<string>)
    requires EditFits(e, cur) && e.row <= |lines| && Offset(cur, e.row) == Offset(lines, e.row)
    ensures Splice(pre + Concat(cur), PatchOf(|pre|, lines, e)) == pre + Concat(ApplyEdit(cur, e))
  {
    hide Quote, FieldLine, PatchedLine, Splice, Concat, Offset;
    match e
    case Replace(_, row, at, size, value) => SpliceReplaces(pre, cur, row, at, size, value);
    case Insert(key, row, indent, value) =>
      SpliceRows(pre, cur, row, row, [FieldLine(indent, key, value)]);
      ConcatOne(FieldLine(indent, key, value));
  }

  lemma SameOffset(cur: seq<string>, lines: seq<string>, row: nat, bound: nat)
    requires row <= bound <= |cur| && bound <= |lines| && cur[..bound] == lines[..bound]
    ensures Offset(cur, row) == Offset(lines, row)
  {
    hide Concat;
    assert cur[..row] == cur[..bound][..row] == lines[..bound][..row] == lines[..row];
  }

  /** Back-to-front splicing at offsets of the original text performs every edit: no offset goes stale. */
  lemma {:induction false} SplicesAreEdits(pre: string, cur: seq<string>, es: seq<Edit>, lines: seq<string>, bound: nat)
    requires Descends(es, lines, bound) && bound <= |cur| && bound <= |lines| && cur[..bound] == lines[..bound]
    requires forall e :: e in es ==> e.row <= |lines|
    ensures SpliceAll(pre + Concat(cur), PatchesOf(|pre|, lines, es)) == pre + Concat(ApplyEdits(cur, es, lines, bound))
    decreases |es|
  {
    hide Splice, PatchOf, ApplyEdit, EditFits, Offset;
    if es != [] {
      EditStillFits(cur, es[0], lines, bound);
      SameOffset(cur, lines, es[0].row, bound);
      SpliceEditAt(pre, cur, es[0], lines);
      SplicesAreEdits(pre, ApplyEdit(cur, es[0]), es[1..], lines, es[0].row);
      assert PatchesOf(|pre|, lines, es)[1..] == PatchesOf(|pre|, lines, es[1..]);
    }
  }

  // ---------------------------------------------------------------- what one edit does to the listing

  /** The listing with one field of one entry set. */
  function WithField(views: seq<View>, i: nat, key: string, value: string): seq<View>
    requires i < |views|
  {
    views[i := View(views[i].slug, views[i].fields[key := value])]
  }

  lemma RevaluedViews(b: Block, ks: seq<Kind>, i: nat, key: string, value: string, size: nat)
    requires Fits(b, ks) && i < |b.entries| && key in b.entries[i].fields
    ensures Views(Revalued(b, b.entries[i].fields[key].row, value, size).entries) ==
              WithField(Views(b.entries), i, key, value)
  {
    hide IsDeep;
    var f := b.entries[i].fields[key];
    var r := Revalued(b, f.row, value, size);
    forall j | 0 <= j < |b.entries|
      ensures Values(r.entries[j].fields) ==
        if j == i then Values(b.entries[j].fields)[key := value] else Values(b.entries[j].fields) {
      RevaluedValues(b.entries[i], b.entries[j], ks, key, value, size, i == j);
    }
    assert Views(r.entries) == WithField(Views(b.entries), i, key, value);
  }

  lemma RevaluedValues(e: Entry, other: Entry, ks: seq<Kind>, key: string, value: string, size: nat, same: bool)
    requires EntryFits(e, ks) && EntryFits(other, ks) && key in e.fields
    requires if same then other == e else other.end <= e.row || e.end <= other.row
    ensures Values(RevalueFields(other.fields, e.fields[key].row, value, size)) ==
              if same then Values(other.fields)[key := value] else Values(other.fields)
  {
    var f := e.fields[key];
    forall k | k in other.fields ensures other.fields[k].row == f.row <==> same && k == key {
      assert FieldFits(other.fields[k], k, ks) && FieldFits(f, key, ks);
    }
    assert Values(RevalueFields(other.fields, f.row, value, size)) ==
             if same then Values(other.fields)[key := value] else Values(other.fields);
  }

  lemma InsertedViews(b: Block, i: nat, k: Kind, from: nat)
    requires k.Key? && i < |b.entries|
    ensures Views(Inserted(b, i, k, from).entries) == WithField(Views(b.entries), i, k.key, k.value)
  {
    var r := Inserted(b, i, k, from);
    forall j | 0 <= j < |b.entries|
      ensures Values(r.entries[j].fields) ==
        if j == i then Values(b.entries[j].fields)[k.key := k.value] else Values(b.entries[j].fields) {
      InsertedValues(b.entries[j], k, from);
    }
    assert Views(r.entries) == WithField(Views(b.entries), i, k.key, k.value);
  }

  lemma InsertedValues(e: Entry, k: Kind, from: nat)
    requires k.Key?
    ensures Values(InsertedEntry(e, k, from).fields) == Values(e.fields)[k.key := k.value]
    ensures Values(ShiftEntry(e, from).fields) == Values(e.fields)
  {
    assert Values(ShiftFields(e.fields, from)) == Values(e.fields);
    assert Values(InsertedEntry(e, k, from).fields) == Values(e.fields)[k.key := k.value];
  }

  lemma {:induction false} KindsAreIndented(lines: seq<string>)
    ensures AreIndented(KindsOf(lines))
  {
    forall i | 0 <= i < |lines| && KindOf(Chomp(lines[i])).Key? ensures IsIndent(KindOf(Chomp(lines[i])).indent) {
      var gap, rest := PartsOfKey(Chomp(lines[i]));
    }
  }

  /** Exchanging the value of a field. */
  lemma ReplaceLine(lines: seq<string>, i: nat, key: string, value: string)
    requires AreRows(lines) && !HasTerminator(value)
    requires var b := BlockOf(KindsOf(lines)); i < |b.entries| && key in b.entries[i].fields
    ensures var b := BlockOf(KindsOf(lines));
            var f := b.entries[i].fields[key];
            f.row < |lines| && f.at + f.size <= |lines[f.row]| &&
            var next := lines[f.row := PatchedLine(lines[f.row], f.at, f.size, value)];
            AreRows(next) && (forall r :: 0 <= r < |lines| && IsLine(lines[r]) ==> IsLine(next[r])) &&
            BlockOf(KindsOf(next)) == Revalued(b, f.row, value, |Quote(value)|) &&
            Views(BlockOf(KindsOf(next)).entries) == WithField(Views(b.entries), i, key, value)
  {
    hide KindOf, PatchedLine, IsLine, IsRow, Chomp, Scan, Quote, HasTerminator, Revalued, Views, IsDeep;
    var ks := KindsOf(lines);
    var b := BlockOf(ks);
    KindsAreIndented(lines);
    BlockFits(ks);
    var f := b.entries[i].fields[key];
    assert EntryFits(b.entries[i], ks) && FieldFits(f, key, ks);
    var line := lines[f.row];
    assert IsRow(line);
    PatchedLineKind(line, value);
    var next := lines[f.row := PatchedLine(line, f.at, f.size, value)];
    var k1 := KindOf(Chomp(next[f.row]));
    RevaluedScan(EMPTY_BLOCK, ks, 0, f.row, k1);
    assert KindsOf(next) == ks[f.row := k1];
    assert Revalued(EMPTY_BLOCK, f.row, value, |Quote(value)|) == EMPTY_BLOCK by {
      NothingRevalued(f.row, value, |Quote(value)|);
    }
    RevaluedViews(b, ks, i, key, value, |Quote(value)|);
  }

  lemma NothingRevalued(row: nat, value: string, size: nat)
    ensures Revalued(EMPTY_BLOCK, row, value, size) == EMPTY_BLOCK
  {
    assert Revalued(EMPTY_BLOCK, row, value, size).entries == [];
  }

  /** Putting in a field line. */
  lemma InsertFieldLine(lines: seq<string>, i: nat, key: string, indent: string, value: string)
    requires AreRows(lines) && !HasTerminator(value) && IsIndent(indent) && IsKey(key)
    requires var b := BlockOf(KindsOf(lines));
             i < |b.entries| && b.entries[i].row < |lines| && IsLine(lines[b.entries[i].row]) &&
             |indent| > |b.childIndent| && key !in b.entries[i].fields &&
             (b.entries[i].fieldIndent == "" || b.entries[i].fieldIndent == indent)
    ensures var b := BlockOf(KindsOf(lines));
            var h := b.entries[i].row;
            h < |lines| &&
            var next := lines[..h + 1] + [FieldLine(indent, key, value)] + lines[h + 1..];
            AreRows(next) && Views(BlockOf(KindsOf(next)).entries) == WithField(Views(b.entries), i, key, value) &&
            exists k: Kind :: k.Key? && k.indent == indent && k.key == key &&
              BlockOf(KindsOf(next)) == Inserted(b, i, k, h + 1)
  {
    hide KindOf, FieldLine, IsLine, IsRow, Chomp, Scan, Quote, HasTerminator, Inserted, Views, IsIndent, IsKey;
    var ks := KindsOf(lines);
    var b := BlockOf(ks);
    KindsAreIndented(lines);
    FieldLineKind(indent, key, value);
    var k := KindOf(Chomp(FieldLine(indent, key, value)));
    assert k.Key? && k.indent == indent && k.key == key && k.value == value;
    InsertLine(ks, i, k);
    var h := b.entries[i].row;
    var next := lines[..h + 1] + [FieldLine(indent, key, value)] + lines[h + 1..];
    assert KindsOf(next) == ks[..h + 1] + [k] + ks[h + 1..];
    RowsWithLine(lines, h + 1, FieldLine(indent, key, value));
    InsertedViews(b, i, k, h + 1);
  }

  /** A line put in behind a line that ends. */
  lemma RowsWithLine(lines: seq<string>, at: nat, line: string)
    requires AreRows(lines) && 0 < at <= |lines| && IsLine(lines[at - 1]) && IsLine(line)
    ensures AreRows(lines[..at] + [line] + lines[at..])
  {
    hide IsLine, IsRow;
    var next := lines[..at] + [line] + lines[at..];
    LineIsRow(line);
    forall r | 0 <= r < |next| ensures IsRow(next[r]) && (r + 1 < |next| ==> IsLine(next[r])) {
      assert next[r] == if r < at then lines[r] else if r == at then line else lines[r - 1];
    }
  }

  lemma LineIsRow(line: string)
    requires IsLine(line)
    ensures IsRow(line)
  {
  }
}
