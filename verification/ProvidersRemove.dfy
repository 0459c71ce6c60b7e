/** Taking an entry out: exactly when the listing only loses that entry. */
module ProvidersRemove {
  import opened Text
  import opened Providers
  import opened ProvidersLines
  import opened ProvidersScan
  import opened ProvidersEdits
  import opened ProvidersLaws
  import opened ProvidersAppend

  // ---------------------------------------------------------------- the lines of an entry

  /** Later lines only move the end of an entry on. */
  lemma {:induction false} EndGrows(b: Block, ks: seq<Kind>, row: nat, i: nat)
    requires i < |b.entries| && b.entries[i].end <= row
    ensures var r := Scan(b, ks, row); |r.entries| > i && r.entries[i].end >= b.entries[i].end
    decreases |ks|
  {
    if ks != [] && !ks[0].Top? { EndGrows(Step(b, ks[0], row), ks[1..], row + 1, i); }
  }

  /** Once the next entry has begun, an entry is final. */
  lemma {:induction false} ClosedStays(b: Block, ks: seq<Kind>, row: nat, i: nat)
    requires i + 1 < |b.entries|
    ensures var r := Scan(b, ks, row); |r.entries| >= |b.entries| && r.entries[..i + 1] == b.entries[..i + 1]
    decreases |ks|
  {
    if ks != [] && !ks[0].Top? {
      var c := Step(b, ks[0], row);
      assert c.entries[..i + 1] == b.entries[..i + 1];
      ClosedStays(c, ks[1..], row + 1, i);
    }
  }

  /** The state of the scan at the end of an entry's lines. */
  lemma {:induction false} EntryEnds(b: Block, ks: seq<Kind>, row: nat, i: nat)
    requires |b.entries| == i + 1 && b.entries[i].end <= row
    ensures var r := Scan(b, ks, row);
            |r.entries| > i &&
            var t := r.entries[i].end;
            (t == b.entries[i].end && r.entries[i] == b.entries[i]) ||
            (row < t <= row + |ks| && HasNoTop(ks[..t - row]) &&
             var c := Scan(b, ks[..t - row], row);
             |c.entries| == i + 1 && c.entries[i] == r.entries[i] && c.entries[..i] == b.entries[..i] &&
             (b.childIndent != "" ==> c.childIndent == b.childIndent))
    decreases |ks|
  {
    hide InEntry;
    var r := Scan(b, ks, row);
    if ks != [] && !ks[0].Top? {
      var c, rest := Step(b, ks[0], row), ks[1..];
      if |c.entries| == i + 1 {
        StepEnd(b, ks[0], row, i);
        EntryEnds(c, rest, row + 1, i);
        var t := r.entries[i].end;
        if t > row + 1 {
          assert ks[..t - row][0] == ks[0] && ks[..t - row][1..] == rest[..t - row - 1];
        } else if t == row + 1 {
          assert ks[..1] == [ks[0]];
          assert Scan(b, [ks[0]], row) == c by { assert [ks[0]][1..] == []; }
        }
      } else {
        ClosedStays(c, rest, row + 1, i);
        assert r.entries[..i + 1][i] == c.entries[..i + 1][i];
      }
    }
  }

  lemma StepEnd(b: Block, k: Kind, row: nat, i: nat)
    requires |b.entries| == i + 1 && b.entries[i].end <= row && |Step(b, k, row).entries| == i + 1
    ensures var c := Step(b, k, row);
            c.entries[i].end <= row + 1 && c.entries[..i] == b.entries[..i] &&
            (c.entries[i] == b.entries[i] || c.entries[i].end == row + 1) &&
            (b.childIndent != "" ==> c.childIndent == b.childIndent)
  {
  }

  /** The state just before the header of entry `i` and just after its last line. */
  lemma AroundEntry(ks: seq<Kind>, i: nat)
    requires AreIndented(ks) && i < |BlockOf(ks).entries|
    ensures var b := BlockOf(ks);
            var h, t := b.entries[i].row, b.entries[i].end;
            h < t <= |ks| && HasNoTop(ks[..h]) && HasNoTop(ks[..t]) &&
            var p, q := BlockOf(ks[..t]), BlockOf(ks[..h]);
            |p.entries| == i + 1 && p.entries[i] == b.entries[i] && p.entries[..i] == q.entries &&
            p.childIndent != "" &&
            (if i == 0 then q.childIndent == "" else q.childIndent == p.childIndent) && Scan(p, ks[t..], t) == b
  {
    hide Step, Fits, BeginsAt, HasNoTop, AreIndented;
    var b := BlockOf(ks);
    var h, t := b.entries[i].row, b.entries[i].end;
    EntryBegins(EMPTY_BLOCK, ks, 0, i);
    var c := BlockOf(ks[..h + 1]);
    JustBefore(ks, i, h, c);
    BegunIs(c, i, ks[h], h);
    UpToEnd(ks, i, h, c);
    assert ks[..t] + ks[t..] == ks;
    ScanConcat(EMPTY_BLOCK, ks[..t], ks[t..], 0);
  }

  lemma BegunIs(c: Block, i: nat, k: Kind, h: nat)
    requires BeginsAt(c, i, k, h)
    ensures |c.entries| == i + 1 && c.entries[i].row == h && c.entries[i].end == h + 1 && c.childIndent != ""
  {
  }

  /** The scan up to the end of an entry that begins at row `h`. */
  lemma UpToEnd(ks: seq<Kind>, i: nat, h: nat, c: Block)
    requires h < |ks| && HasNoTop(ks[..h + 1]) && c == BlockOf(ks[..h + 1])
    requires |c.entries| == i + 1 && c.entries[i].end == h + 1 && c.childIndent != ""
    ensures var b := BlockOf(ks);
            |b.entries| > i &&
            var t := b.entries[i].end;
            h < t <= |ks| && HasNoTop(ks[..t]) &&
            var p := BlockOf(ks[..t]);
            |p.entries| == i + 1 && p.entries[i] == b.entries[i] && p.entries[..i] == c.entries[..i] &&
            p.childIndent == c.childIndent
  {
    hide Step, HasNoTop, Scan;
    var rest := ks[h + 1..];
    assert ks[..h + 1] + rest == ks;
    ScanConcat(EMPTY_BLOCK, ks[..h + 1], rest, 0);
    EntryEnds(c, rest, h + 1, i);
    var t := BlockOf(ks).entries[i].end;
    if t > h + 1 {
      assert ks[..t] == ks[..h + 1] + rest[..t - h - 1];
      ScanConcat(EMPTY_BLOCK, ks[..h + 1], rest[..t - h - 1], 0);
      NoTopTwice(ks[..h + 1], rest[..t - h - 1]);
    }
  }

  lemma NoTopTwice(a: seq<Kind>, c: seq<Kind>)
    requires HasNoTop(a) && HasNoTop(c)
    ensures HasNoTop(a + c)
  {
  }

  lemma JustBefore(ks: seq<Kind>, i: nat, h: nat, c: Block)
    requires h < |ks| && AreIndented(ks) && HasNoTop(ks[..h + 1]) && c == BlockOf(ks[..h + 1]) &&
             BeginsAt(c, i, ks[h], h)
    ensures var q := BlockOf(ks[..h]);
            HasNoTop(ks[..h]) && |c.entries| == i + 1 && q.entries == c.entries[..i] && c.childIndent != "" &&
            (if i == 0 then q.childIndent == "" else q.childIndent == c.childIndent) && c.entries[i].end == h + 1
  {
    hide Step, Fits, IsIndent;
    assert ks[..h] + [ks[h]] == ks[..h + 1];
    assert forall j :: 0 <= j < h ==> ks[..h][j] == ks[..h + 1][j];
    ScanConcat(EMPTY_BLOCK, ks[..h], [ks[h]], 0);
    BlockFits(ks[..h]);
    BeforeHeader(BlockOf(ks[..h]), ks[..h], ks[h], i, c);
  }

  lemma BeforeHeader(q: Block, seen: seq<Kind>, k: Kind, i: nat, c: Block)
    requires Fits(q, seen) && BeginsAt(c, i, k, |seen|) && c == Scan(q, [k], |seen|) && IsIndent(k.indent)
    ensures q.entries == c.entries[..i] && (if i == 0 then q.childIndent == "" else q.childIndent == c.childIndent)
    ensures c.entries[i].end == |seen| + 1 && |c.entries| == i + 1 && c.childIndent != ""
  {
    hide InEntry, IsDeep;
    assert c == Step(q, k, |seen|) by { assert [k][1..] == []; }
    if q.entries != [] {
      assert EntryFits(Last(q.entries), seen);
      InEntryRows(Last(q.entries), k, |seen|);
    }
  }

  // ---------------------------------------------------------------- scanning on without the entry

  function LengthAt(all: seq<Kind>, row: nat): nat {
    if row < |all| && all[row].Key? then |all[row].indent| else 0
  }

  predicate SameEntry(a: Entry, c: Entry) {
    ViewOf(a) == ViewOf(c) && a.fieldIndent == c.fieldIndent
  }

  function Skip(j: nat, i: nat): nat {
    if j < i then j else j + 1
  }

  /** `q` is `p` without entry `i`, positions aside. */
  ghost predicate Dropped(p: Block, q: Block, i: nat) {
    |p.entries| == |q.entries| + 1 && i < |q.entries| && q.childIndent != "" && |q.childIndent| <= |p.childIndent| &&
    forall j :: 0 <= j < |q.entries| ==> SameEntry(p.entries[Skip(j, i)], q.entries[j])
  }

  lemma SameInEntry(a: Entry, c: Entry, k: Kind, ra: nat, rc: nat)
    requires SameEntry(a, c) && k.Key?
    ensures SameEntry(InEntry(a, k, ra), InEntry(c, k, rc))
  {
    var x, y := InEntry(a, k, ra), InEntry(c, k, rc);
    var indent := if a.fieldIndent == "" then k.indent else a.fieldIndent;
    assert Values(x.fields) == if |k.indent| == |indent| then Values(a.fields)[k.key := k.value] else Values(a.fields);
    assert Values(y.fields) == if |k.indent| == |indent| then Values(c.fields)[k.key := k.value] else Values(c.fields);
  }

  predicate TellsApart(k: Kind, p: Block, q: Block) {
    k.Key? && |q.childIndent| < |k.indent| <= |p.childIndent|
  }

  lemma DroppedStep(p: Block, q: Block, i: nat, k: Kind, rp: nat, rq: nat)
    requires Dropped(p, q, i) && !TellsApart(k, p, q)
    ensures Dropped(Step(p, k, rp), Step(q, k, rq), i)
  {
    hide InEntry;
    var n := |q.entries| - 1;
    assert SameEntry(p.entries[Skip(n, i)], q.entries[n]);
    if k.Key? {
      SameInEntry(p.entries[n + 1], q.entries[n], k, rp, rq);
    }
  }

  /** The gap between the two scans never narrows. */
  lemma {:induction false} GapStays(p: Block, q: Block, ks: seq<Kind>, rp: nat, rq: nat)
    requires q.childIndent != "" && |q.childIndent| <= |p.childIndent| && p.childIndent != ""
    ensures |Scan(p, ks, rp).entries| - |Scan(q, ks, rq).entries| >= |p.entries| - |q.entries|
    decreases |ks|
  {
    if ks != [] && !ks[0].Top? { GapStays(Step(p, ks[0], rp), Step(q, ks[0], rq), ks[1..], rp + 1, rq + 1); }
  }

  /** No entry from `row` on is indented deeper than `least`. */
  ghost predicate NoneDeeper(b: Block, all: seq<Kind>, row: nat, least: nat) {
    forall j :: 0 <= j < |b.entries| && b.entries[j].row >= row ==> LengthAt(all, b.entries[j].row) <= least
  }

  lemma {:induction false} DroppedScan(p: Block, q: Block, i: nat, all: seq<Kind>, row: nat, rq: nat)
    requires Dropped(p, q, i) && row <= |all|
    requires forall j :: 0 <= j < |p.entries| ==> p.entries[j].row < row
    ensures var r, s := Scan(p, all[row..], row), Scan(q, all[row..], rq);
            Dropped(r, s, i) || |r.entries| > |s.entries| + 1
    ensures var r, s := Scan(p, all[row..], row), Scan(q, all[row..], rq);
            NoneDeeper(r, all, row, |q.childIndent|) <==> |r.entries| == |s.entries| + 1
    decreases |all| - row
  {
    hide Dropped, InEntry;
    var ks := all[row..];
    if ks == [] || ks[0].Top? {
      assert |p.entries| == |q.entries| + 1 by { DroppedCounts(p, q, i); }
    } else {
      assert ks[1..] == all[row + 1..] && ks[0] == all[row];
      var c, d := Step(p, ks[0], row), Step(q, ks[0], rq);
      var r, s := Scan(p, ks, row), Scan(q, ks, rq);
      DroppedCounts(p, q, i);
      if TellsApart(ks[0], p, q) {
        assert |c.entries| == |p.entries| + 1 && |d.entries| == |q.entries|;
        GapStays(c, d, ks[1..], row + 1, rq + 1);
        EntryGrows(c, ks[1..], row + 1, |p.entries|);
        assert r.entries[|p.entries|].row == row && LengthAt(all, row) > |q.childIndent|;
      } else {
        DroppedStep(p, q, i, ks[0], row, rq);
        RowsBelow(p, ks[0], row);
        DroppedScan(c, d, i, all, row + 1, rq + 1);
        assert d.childIndent == q.childIndent;
        forall j | 0 <= j < |r.entries| && r.entries[j].row == row ensures LengthAt(all, row) <= |q.childIndent| {
          RowOfNew(p, ks[0], all, row, j);
        }
      }
    }
  }

  lemma DroppedCounts(p: Block, q: Block, i: nat)
    requires Dropped(p, q, i)
    ensures |p.entries| == |q.entries| + 1 && q.childIndent != "" && p.childIndent != "" &&
            |q.childIndent| <= |p.childIndent| && q.entries != []
  {
  }

  lemma RowsBelow(p: Block, k: Kind, row: nat)
    requires forall j :: 0 <= j < |p.entries| ==> p.entries[j].row < row
    ensures forall j :: 0 <= j < |Step(p, k, row).entries| ==> Step(p, k, row).entries[j].row < row + 1
  {
  }

  /** An entry at `row` was begun by the line there. */
  lemma RowOfNew(p: Block, k: Kind, all: seq<Kind>, row: nat, j: nat)
    requires row < |all| && all[row] == k && (forall x :: 0 <= x < |p.entries| ==> p.entries[x].row < row)
    requires p.childIndent != "" && !k.Top?
    requires j < |Scan(p, all[row..], row).entries| && Scan(p, all[row..], row).entries[j].row == row
    ensures k.Key? && |k.indent| <= |p.childIndent|
  {
    hide Step, Scan;
    var c := Step(p, k, row);
    var rest := all[row + 1..];
    assert all[row..][1..] == rest;
    ScanOpens(p, all[row..], row);
    if j < |c.entries| {
      EntryGrows(c, rest, row + 1, j);
    } else {
      LaterRows(c, rest, row + 1, j);
    }
    if !(k.Key? && |k.indent| <= |p.childIndent|) { NoNewRow(p, k, row); }
  }

  lemma ScanOpens(p: Block, ks: seq<Kind>, row: nat)
    requires ks != [] && !ks[0].Top?
    ensures Scan(p, ks, row) == Scan(Step(p, ks[0], row), ks[1..], row + 1)
  {
    hide Step;
  }

  lemma NoNewRow(p: Block, k: Kind, row: nat)
    requires p.childIndent != "" && !(k.Key? && |k.indent| <= |p.childIndent|)
    requires forall x :: 0 <= x < |p.entries| ==> p.entries[x].row < row
    ensures forall x :: 0 <= x < |Step(p, k, row).entries| ==> Step(p, k, row).entries[x].row < row
  {
  }

  lemma {:induction false} LaterRows(b: Block, ks: seq<Kind>, row: nat, j: nat)
    requires |b.entries| <= j < |Scan(b, ks, row).entries|
    ensures Scan(b, ks, row).entries[j].row >= row
    decreases |ks|
  {
    hide InEntry;
    var c := Step(b, ks[0], row);
    if j < |c.entries| { EntryGrows(c, ks[1..], row + 1, j); } else { LaterRows(c, ks[1..], row + 1, j); }
  }

  lemma {:induction false} DroppedSameIndent(p: Block, q: Block, i: nat, ks: seq<Kind>, rp: nat, rq: nat)
    requires Dropped(p, q, i) && |q.childIndent| == |p.childIndent|
    ensures Dropped(Scan(p, ks, rp), Scan(q, ks, rq), i)
    decreases |ks|
  {
    hide InEntry, SameEntry;
    if ks != [] && !ks[0].Top? {
      DroppedStep(p, q, i, ks[0], rp, rq);
      DroppedSameIndent(Step(p, ks[0], rp), Step(q, ks[0], rq), i, ks[1..], rp + 1, rq + 1);
    }
  }

  // ---------------------------------------------------------------- from the end of the removed entry on

  /** Between the last line of entry `i` and the next header there are only blank lines. */
  ghost predicate AtSeam(p: Block, q: Block, i: nat) {
    |p.entries| == i + 1 && q.entries == p.entries[..i] && p.childIndent != "" &&
    (if i == 0 then q.childIndent == "" else q.childIndent == p.childIndent)
  }

  lemma SeamStep(p: Block, q: Block, i: nat, k: Kind, rp: nat, rq: nat)
    requires AtSeam(p, q, i) && !k.Top? && p.entries[i].end <= rp && (k.Key? ==> k.indent != "")
    requires var c := Step(p, k, rp); c.entries[i].end == p.entries[i].end
    ensures if k.Blank? then Step(p, k, rp) == p && Step(q, k, rq) == q
            else k.Key? && Dropped(Step(p, k, rp), Step(q, k, rq), i) && |Step(p, k, rp).entries| == i + 2 &&
                 Last(Step(p, k, rp).entries).row == rp && Step(p, k, rp).childIndent == p.childIndent &&
                 Step(q, k, rq).childIndent == (if i == 0 then k.indent else p.childIndent)
  {
    if k.Key? {
      InEntryRows(Last(p.entries), k, rp);
      var c, d := Step(p, k, rp), Step(q, k, rq);
      forall j | 0 <= j < |d.entries| ensures SameEntry(c.entries[Skip(j, i)], d.entries[j]) {
        if j < i { assert d.entries[j] == p.entries[..i][j]; }
      }
    }
  }

  /** An entry `i` can be taken out without disturbing the others. */
  ghost predicate OthersStay(b: Block, ks: seq<Kind>, i: nat) {
    i > 0 || forall j :: 2 <= j < |b.entries| ==> LengthAt(ks, b.entries[j].row) <= LengthAt(ks, b.entries[1].row)
  }

  ghost predicate LosesOnly(r: Block, s: Block, i: nat)
    requires i < |r.entries|
  {
    Views(s.entries) == Views(r.entries)[..i] + Views(r.entries)[i + 1..]
  }

  lemma DroppedLosesOnly(r: Block, s: Block, i: nat)
    requires i < |r.entries|
    ensures Dropped(r, s, i) ==> LosesOnly(r, s, i)
    ensures LosesOnly(r, s, i) ==> |r.entries| == |s.entries| + 1
  {
    hide ViewOf;
    if Dropped(r, s, i) {
      var x, y := Views(r.entries), Views(s.entries);
      forall j | 0 <= j < |s.entries| ensures y[j] == x[Skip(j, i)] {
        assert SameEntry(r.entries[Skip(j, i)], s.entries[j]);
      }
    }
  }

  ghost predicate RowsAscend(b: Block) {
    forall j, k :: 0 <= j < k < |b.entries| ==> b.entries[j].row < b.entries[k].row
  }

  lemma AfterHeader(c: Block, d: Block, i: nat, all: seq<Kind>, g: nat, rq: nat, r: Block, s: Block)
    requires g < |all| && all[g].Key? && Dropped(c, d, i) && |c.entries| == i + 2 && Last(c.entries).row == g
    requires (forall j :: 0 <= j < |c.entries| ==> c.entries[j].row <= g) && d.childIndent ==
               if i == 0 then all[g].indent else c.childIndent
    requires r == Scan(c, all[g + 1..], g + 1) && s == Scan(d, all[g + 1..], rq) && RowsAscend(r) && |r.entries| > i + 1
    ensures LosesOnly(r, s, i) <==> OthersStay(r, all, i)
  {
    hide Dropped, Step, LosesOnly;
    DroppedLosesOnly(r, s, i);
    if i > 0 {
      DroppedSameIndent(c, d, i, all[g + 1..], g + 1, rq);
    } else {
      EntryGrows(c, all[g + 1..], g + 1, 1);
      assert r.entries[1].row == g;
      DroppedScan(c, d, i, all, g + 1, rq);
      assert NoneDeeper(r, all, g + 1, |d.childIndent|) <==> OthersStay(r, all, i) by {
        assert forall j :: 0 <= j < |r.entries| && r.entries[j].row >= g + 1 ==> j >= 2;
        assert forall j :: 2 <= j < |r.entries| ==> r.entries[j].row > r.entries[1].row;
      }
      assert Dropped(r, s, i) ==> |r.entries| == |s.entries| + 1 by { if Dropped(r, s, i) { DroppedCounts(r, s, i); } }
    }
  }

  lemma {:induction false} SeamScan(p: Block, q: Block, i: nat, all: seq<Kind>, row: nat, rq: nat, r: Block)
    requires AtSeam(p, q, i) && row <= |all| && p.entries[i].end <= row && AreIndented(all)
    requires (forall j :: 0 <= j <= i ==> p.entries[j].row < row) && r == Scan(p, all[row..], row) && RowsAscend(r)
    requires |r.entries| > i && r.entries[i].end == p.entries[i].end
    ensures LosesOnly(r, Scan(q, all[row..], rq), i) <==> OthersStay(r, all, i)
    decreases |all| - row
  {
    hide LosesOnly, InEntry, Dropped, RowsAscend;
    var ks := all[row..];
    if ks == [] || ks[0].Top? {
      assert LosesOnly(p, q, i) by { SeamLosesOnly(p, q, i); }
    } else {
      var k := ks[0];
      assert ks[1..] == all[row + 1..] && k == all[row];
      var c, d := Step(p, k, row), Step(q, k, rq);
      StepKeepsIndex(p, k, row, i);
      EndGrows(c, ks[1..], row + 1, i);
      assert k.Key? ==> k.indent != "" by { IndentsAreSomething(); }
      SeamStep(p, q, i, k, row, rq);
      if k.Blank? {
        SeamScan(p, q, i, all, row + 1, rq + 1, r);
      } else {
        RowsBelow(p, k, row);
        EntryGrows(c, ks[1..], row + 1, i + 1);
        AfterHeader(c, d, i, all, row, rq + 1, r, Scan(q, ks, rq));
      }
    }
  }

  lemma StepKeepsIndex(p: Block, k: Kind, row: nat, i: nat)
    requires |p.entries| == i + 1 && p.entries[i].end <= row
    ensures var c := Step(p, k, row); |c.entries| > i && p.entries[i].end <= c.entries[i].end <= row + 1
  {
  }

  lemma SeamLosesOnly(p: Block, q: Block, i: nat)
    requires |p.entries| == i + 1 && q.entries == p.entries[..i]
    ensures LosesOnly(p, q, i)
  {
    hide ViewOf;
    assert Views(q.entries) == Views(p.entries)[..i];
  }

  lemma EntriesAscend(ks: seq<Kind>)
    requires AreIndented(ks)
    ensures RowsAscend(BlockOf(ks))
  {
    hide Scan, FieldFits;
    BlockFits(ks);
    var b := BlockOf(ks);
    forall j, k | 0 <= j < k < |b.entries| ensures b.entries[j].row < b.entries[k].row {
      assert EntryFits(b.entries[j], ks) && b.entries[j].end <= b.entries[k].row;
    }
  }

  /** The lines without those of entry `i` are read as the same entries without it, exactly when `OthersStay`. */
  lemma CutBlock(ks: seq<Kind>, i: nat)
    requires AreIndented(ks) && i < |BlockOf(ks).entries|
    ensures var b := BlockOf(ks);
            b.entries[i].row < b.entries[i].end <= |ks| &&
            (LosesOnly(b, BlockOf(ks[..b.entries[i].row] + ks[b.entries[i].end..]), i) <==> OthersStay(b, ks, i))
  {
    hide Step, Fits, LosesOnly, RowsAscend, OthersStay, IsIndent;
    var b := BlockOf(ks);
    var h, t := b.entries[i].row, b.entries[i].end;
    AroundEntry(ks, i);
    var p, q := BlockOf(ks[..t]), BlockOf(ks[..h]);
    EntriesAscend(ks);
    RowsOfPrefix(ks[..t], i);
    ScanConcat(EMPTY_BLOCK, ks[..h], ks[t..], 0);
    SeamScan(p, q, i, ks, t, h, b);
  }

  lemma RowsOfPrefix(ks: seq<Kind>, i: nat)
    ensures forall e :: e in BlockOf(ks).entries ==> e.row < |ks|
  {
    hide Scan;
    BlockInside(ks);
  }

  /**
   * A removal shows: the listing is the old one without the entry found, all others unchanged and in order,
   * if and only if the first entry does not go, or no entry behind the second is indented deeper than the second.
   */
  lemma RemovalLosesOnlyIff(content: string, name: string, keyEnv: string)
    requires BodyStart(content).Some? && Locate(ViewsIn(content), keyEnv, Slugify(name)) < |ViewsIn(content)|
    ensures var i, views := Locate(ViewsIn(content), keyEnv, Slugify(name)), ViewsIn(content);
            var ks := KindsOf(LinesOf(content[BodyStart(content).value..]));
            ViewsIn(RemoveText(content, name, keyEnv)) == views[..i] + views[i + 1..] <==>
              OthersStay(BlockOf(ks), ks, i)
  {
    hide KindOf, LinesOf, BodyStart, Slugify, Locate, BlockOf, Concat, RemoveText, OthersStay, IsLine, IsRow, IsIndent,
         Views;
    var n, i := BodyStart(content).value, Locate(ViewsIn(content), keyEnv, Slugify(name));
    Decomposed(content);
    RemoveCutsLines(content, name, keyEnv);
    var lines := LinesOf(content[n..]);
    var ks := KindsOf(lines);
    var e := BlockOf(ks).entries[i];
    KindsAreIndented(lines);
    CutBlock(ks, i);
    var next := lines[..e.row] + lines[e.end..];
    assert KindsOf(next) == ks[..e.row] + ks[e.end..];
    RowsWithoutSome(lines, e.row, e.end);
    Recomposed(content[..n], next);
  }

  lemma RowsWithoutSome(lines: seq<string>, from: nat, to: nat)
    requires AreRows(lines) && from <= to <= |lines|
    ensures AreRows(lines[..from] + lines[to..])
  {
    hide IsLine, IsRow;
    var next := lines[..from] + lines[to..];
    forall r | 0 <= r < |next| ensures IsRow(next[r]) && (r + 1 < |next| ==> IsLine(next[r])) {
      assert next[r] == if r < from then lines[r] else lines[r - from + to];
    }
  }
}
