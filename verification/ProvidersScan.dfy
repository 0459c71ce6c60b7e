/** How the scan of a block reacts to a changed value, to new lines and to lines taken out. */
module ProvidersScan {
  import opened Providers
  import opened ProvidersLines

  // ---------------------------------------------------------------- running on

  predicate HasNoTop(ks: seq<Kind>) {
    forall i :: 0 <= i < |ks| ==> !ks[i].Top?
  }

  lemma {:induction false} ScanConcat(b: Block, a: seq<Kind>, c: seq<Kind>, row: nat)
    requires HasNoTop(a)
    ensures Scan(b, a + c, row) == Scan(Scan(b, a, row), c, row + |a|)
    decreases |a|
  {
    hide Step;
    if a == [] {
      assert a + c == c;
    } else {
      assert (a + c)[0] == a[0] && (a + c)[1..] == a[1..] + c;
      ScanConcat(Step(b, a[0], row), a[1..], c, row + 1);
    }
  }

  /** Nothing but blank lines before the next top-level line or the end. */
  predicate IsSilent(ks: seq<Kind>) {
    ks == [] || ks[0].Top? || (ks[0].Blank? && IsSilent(ks[1..]))
  }

  lemma {:induction false} SilentScan(b: Block, ks: seq<Kind>, row: nat)
    requires IsSilent(ks)
    ensures Scan(b, ks, row) == b
    decreases |ks|
  {
    if ks != [] && ks[0].Blank? { SilentScan(b, ks[1..], row + 1); }
  }

  /** The recorded end of the body is where the block falls silent. */
  lemma {:induction false} BodyEndsInSilence(b: Block, ks: seq<Kind>, row: nat)
    requires b.bodyEnd <= row
    ensures var r := Scan(b, ks, row);
            (r.bodyEnd == b.bodyEnd && r == b && IsSilent(ks)) ||
            (row < r.bodyEnd <= row + |ks| && HasNoTop(ks[..r.bodyEnd - row]) &&
              Scan(b, ks[..r.bodyEnd - row], row) == r &&
             IsSilent(ks[r.bodyEnd - row..]))
    decreases |ks|
  {
    if ks != [] && !ks[0].Top? {
      var c, rest := Step(b, ks[0], row), ks[1..];
      var r := Scan(b, ks, row);
      BodyEndsInSilence(c, rest, row + 1);
      if r.bodyEnd > row + 1 {
        var n := r.bodyEnd - row;
        assert ks[..n][0] == ks[0] && ks[..n][1..] == rest[..n - 1];
        assert ks[n..] == rest[n - 1..];
      } else if !ks[0].Blank? {
        assert ks[..1] == [ks[0]] && ks[1..] == rest;
        assert Scan(b, [ks[0]], row) == c by { assert [ks[0]][1..] == []; }
      }
    }
  }

  /** A block is its lines up to the end of its body. */
  lemma BlockUpToEnd(ks: seq<Kind>)
    ensures var b := BlockOf(ks);
            b.bodyEnd <= |ks| && HasNoTop(ks[..b.bodyEnd]) && BlockOf(ks[..b.bodyEnd]) == b && IsSilent(ks[b.bodyEnd..])
  {
    hide Step;
    BodyEndsInSilence(EMPTY_BLOCK, ks, 0);
    var b := BlockOf(ks);
    assert ks[0..] == ks && ks[..0] == [];
  }

  // ---------------------------------------------------------------- what the rows stand for

  /**
   * Every recorded field is a key line of the scanned part, with its value and place, and different keys have
   * different rows.
   */
  predicate FieldFits(f: Field, key: string, ks: seq<Kind>) {
    f.row < |ks| && ks[f.row].Key? && ks[f.row].key == key && ks[f.row].value == f.value && ks[f.row].at == f.at &&
    |ks[f.row].raw| == f.size
  }

  ghost predicate EntryFits(e: Entry, ks: seq<Kind>) {
    e.row < e.end <= |ks| && ks[e.row].Key? && ks[e.row].key == e.slug &&
    (forall k :: k in e.fields ==> e.row < e.fields[k].row < e.end && FieldFits(e.fields[k], k, ks)) &&
    (e.fieldIndent == "" ==> e.fields == map[])
  }

  /** Fields stand deeper than entries. */
  predicate IsDeep(e: Entry, child: string) {
    e.fieldIndent == "" || (IsIndent(e.fieldIndent) && |e.fieldIndent| > |child|)
  }

  ghost predicate Fits(b: Block, ks: seq<Kind>) {
    (forall i :: 0 <= i < |b.entries| ==> IsDeep(b.entries[i], b.childIndent)) &&
    (b.childIndent == "" || IsIndent(b.childIndent)) &&
    (forall i :: 0 <= i < |b.entries| ==> EntryFits(b.entries[i], ks)) &&
    (forall i, j :: 0 <= i < j < |b.entries| ==> b.entries[i].end <= b.entries[j].row) &&
    (b.entries != [] <==> b.childIndent != "")
  }

  predicate AreIndented(ks: seq<Kind>) {
    forall i :: 0 <= i < |ks| && ks[i].Key? ==> IsIndent(ks[i].indent)
  }

  lemma EntryFitsMore(e: Entry, ks: seq<Kind>, k: Kind)
    requires EntryFits(e, ks)
    ensures EntryFits(e, ks + [k])
  {
    var more := ks + [k];
    assert forall i :: 0 <= i < |ks| ==> more[i] == ks[i];
  }

  lemma InEntryFits(e: Entry, ks: seq<Kind>, k: Kind)
    requires EntryFits(e, ks) && k.Key? && k.indent != ""
    ensures EntryFits(InEntry(e, k, |ks|), ks + [k])
  {
    EntryFitsMore(e, ks, k);
    var more := ks + [k];
    assert more[|ks|] == k;
  }

  lemma StepFits(b: Block, ks: seq<Kind>, k: Kind)
    requires Fits(b, ks) && !k.Top? && (k.Key? ==> IsIndent(k.indent))
    ensures Fits(Step(b, k, |ks|), ks + [k])
  {
    hide InEntry, EntryFits, IsIndent, IsDeep;
    var c, more := Step(b, k, |ks|), ks + [k];
    assert k.Key? ==> k.indent != "" by { IndentsAreSomething(); }
    DeepStep(b, k, |ks|);
    forall i | 0 <= i < |b.entries| ensures EntryFits(b.entries[i], more) && b.entries[i].end <= |ks| {
      EntryFitsMore(b.entries[i], ks, k);
      EndsInside(b.entries[i], ks);
    }
    if k.Key? {
      if |k.indent| <= |c.childIndent| {
        NewEntryFits(ks, k);
      } else if b.entries != [] {
        InEntryFits(Last(b.entries), ks, k);
        InEntryRows(Last(b.entries), k, |ks|);
      }
    } else if k.Other? && b.entries != [] {
      LongerFits(Last(b.entries), ks, k);
    }
  }

  lemma IndentsAreSomething()
    ensures forall s :: IsIndent(s) ==> s != ""
  {
  }

  lemma DeepStep(b: Block, k: Kind, row: nat)
    requires (forall i :: 0 <= i < |b.entries| ==> IsDeep(b.entries[i], b.childIndent)) &&
             (b.childIndent == "" || IsIndent(b.childIndent))
    requires (k.Key? ==> IsIndent(k.indent)) && (b.entries != [] ==> b.childIndent != "")
    ensures var c := Step(b, k, row);
            (forall i :: 0 <= i < |c.entries| ==> IsDeep(c.entries[i], c.childIndent)) &&
            (c.childIndent == "" || IsIndent(c.childIndent))
  {
  }

  lemma EndsInside(e: Entry, ks: seq<Kind>)
    requires EntryFits(e, ks)
    ensures e.end <= |ks|
  {
  }

  lemma NewEntryFits(ks: seq<Kind>, k: Kind)
    requires k.Key?
    ensures EntryFits(Entry(k.key, |ks|, |ks| + 1, "", map[]), ks + [k])
  {
  }

  lemma InEntryRows(e: Entry, k: Kind, row: nat)
    requires k.Key?
    ensures InEntry(e, k, row).row == e.row && InEntry(e, k, row).end == row + 1
  {
  }

  lemma LongerFits(e: Entry, ks: seq<Kind>, k: Kind)
    requires EntryFits(e, ks)
    ensures EntryFits(e.(end := |ks| + 1), ks + [k])
  {
    EntryFitsMore(e, ks, k);
  }

  lemma {:induction false} ScanFits(b: Block, seen: seq<Kind>, ks: seq<Kind>)
    requires Fits(b, seen) && AreIndented(ks)
    ensures exists n :: 0 <= n <= |ks| && Fits(Scan(b, ks, |seen|), seen + ks[..n])
    decreases |ks|
  {
    hide Step, Fits;
    if ks == [] || ks[0].Top? {
      assert seen + ks[..0] == seen;
    } else {
      StepFits(b, seen, ks[0]);
      ScanFits(Step(b, ks[0], |seen|), seen + [ks[0]], ks[1..]);
      var n :| 0 <= n <= |ks[1..]| && Fits(Scan(b, ks, |seen|), seen + [ks[0]] + ks[1..][..n]);
      assert seen + [ks[0]] + ks[1..][..n] == seen + ks[..n + 1];
    }
  }

  lemma EntryFitsAll(e: Entry, ks: seq<Kind>, n: nat)
    requires n <= |ks| && EntryFits(e, ks[..n])
    ensures EntryFits(e, ks)
  {
    assert forall i :: 0 <= i < n ==> ks[..n][i] == ks[i];
  }

  lemma BlockFits(ks: seq<Kind>)
    requires AreIndented(ks)
    ensures Fits(BlockOf(ks), ks)
  {
    hide Scan, EntryFits;
    assert Fits(EMPTY_BLOCK, []);
    ScanFits(EMPTY_BLOCK, [], ks);
    var n :| 0 <= n <= |ks| && Fits(BlockOf(ks), [] + ks[..n]);
    assert [] + ks[..n] == ks[..n];
    forall i | 0 <= i < |BlockOf(ks).entries| ensures EntryFits(BlockOf(ks).entries[i], ks) {
      EntryFitsAll(BlockOf(ks).entries[i], ks, n);
    }
  }

  // ---------------------------------------------------------------- another value in one line

  function RevalueFields(fields: map<string, Field>, row: nat, value: string, size: nat): map<string, Field> {
    map k | k in fields :: if fields[k].row == row then fields[k].(value := value, size := size) else fields[k]
  }

  function RevalueEntry(e: Entry, row: nat, value: string, size: nat): Entry {
    e.(fields := RevalueFields(e.fields, row, value, size))
  }

  function Revalued(b: Block, row: nat, value: string, size: nat): Block {
    b.(entries := seq(|b.entries|, i requires 0 <= i < |b.entries| => RevalueEntry(b.entries[i], row, value, size)))
  }

  /** Scanning commutes with exchanging the value of one key line. */
  lemma RevaluedStep(b: Block, k: Kind, k1: Kind, row: nat, at: nat, value: string, size: nat)
    requires if row == at then k.Key? && k1.Key? && k1 == k.(raw := k1.raw, value := value) && |k1.raw| == size
             else k1 == k
    ensures Step(Revalued(b, at, value, size), k1, row) == Revalued(Step(b, k, row), at, value, size)
  {
    hide InEntry, RevalueFields;
    var r := Revalued(b, at, value, size);
    if k.Key? {
      var child := if b.childIndent == "" then k.indent else b.childIndent;
      if |k.indent| <= |child| {
        NothingToRevalue(at, value, size);
        assert Step(r, k1, row).entries == Revalued(Step(b, k, row), at, value, size).entries;
      } else if b.entries != [] {
        RevaluedInEntry(Last(b.entries), k, k1, row, at, value, size);
        assert Step(r, k1, row).entries == Revalued(Step(b, k, row), at, value, size).entries;
      }
    } else if k.Other? && b.entries != [] {
      assert Step(r, k1, row).entries == Revalued(Step(b, k, row), at, value, size).entries;
    }
  }

  lemma NothingToRevalue(row: nat, value: string, size: nat)
    ensures RevalueFields(map[], row, value, size) == map[]
  {
  }

  lemma RevaluedInEntry(e: Entry, k: Kind, k1: Kind, row: nat, at: nat, value: string, size: nat)
    requires k.Key? && k1.Key? && if row == at then k1 == k.(raw := k1.raw, value := value) && |k1.raw| == size
             else k1 == k
    ensures InEntry(RevalueEntry(e, at, value, size), k1, row) == RevalueEntry(InEntry(e, k, row), at, value, size)
  {
    var f := InEntry(e, k, row).fields;
    assert InEntry(RevalueEntry(e, at, value, size), k1, row).fields == RevalueFields(f, at, value, size);
  }

  lemma {:induction false} RevaluedScan(b: Block, ks: seq<Kind>, row: nat, at: nat, k1: Kind)
    requires row <= at < row + |ks| ==>
               ks[at - row].Key? && k1.Key? && k1 == ks[at - row].(raw := k1.raw, value := k1.value)
    requires k1.Key?
    ensures var next := if row <= at < row + |ks| then ks[at - row := k1] else ks;
            Scan(Revalued(b, at, k1.value, |k1.raw|), next, row) == Revalued(Scan(b, ks, row), at, k1.value, |k1.raw|)
    decreases |ks|
  {
    hide Step, Revalued;
    var next := if row <= at < row + |ks| then ks[at - row := k1] else ks;
    if ks != [] {
      RevaluedStep(b, ks[0], next[0], row, at, k1.value, |k1.raw|);
      RevaluedScan(Step(b, ks[0], row), ks[1..], row + 1, at, k1);
      assert next[1..] == if row + 1 <= at < row + 1 + |ks[1..]| then ks[1..][at - row - 1 := k1] else ks[1..];
    }
  }

  // ---------------------------------------------------------------- the moment an entry begins

  /** Later lines add to an entry and leave its beginning alone. */
  lemma {:induction false} EntryGrows(b: Block, ks: seq<Kind>, row: nat, i: nat)
    requires i < |b.entries|
    ensures var r := Scan(b, ks, row);
            |r.entries| >= |b.entries| && r.entries[i].row == b.entries[i].row &&
            r.entries[i].slug == b.entries[i].slug &&
            (b.entries[i].fieldIndent != "" ==> r.entries[i].fieldIndent == b.entries[i].fieldIndent) &&
            b.entries[i].fields.Keys <= r.entries[i].fields.Keys &&
            (b.childIndent != "" ==> r.childIndent == b.childIndent)
    decreases |ks|
  {
    if ks != [] && !ks[0].Top? {
      var c := Step(b, ks[0], row);
      EntryGrows(c, ks[1..], row + 1, i);
    }
  }

  /** The state of the scan just after the header line of entry `i`. */
  ghost predicate BeginsAt(c: Block, i: nat, k: Kind, row: nat) {
    k.Key? && |c.entries| == i + 1 && c.entries[i] == Entry(k.key, row, row + 1, "", map[]) && c.bodyEnd == row + 1 &&
    c.childIndent != ""
  }

  lemma {:induction false} EntryBegins(b: Block, ks: seq<Kind>, row: nat, i: nat)
    requires |b.entries| <= i < |Scan(b, ks, row).entries| && AreIndented(ks)
    ensures var h := Scan(b, ks, row).entries[i].row;
            row <= h < row + |ks| && HasNoTop(ks[..h - row + 1]) &&
            BeginsAt(Scan(b, ks[..h - row + 1], row), i, ks[h - row], h)
    decreases |ks|
  {
    var c, rest := Step(b, ks[0], row), ks[1..];
    var r := Scan(b, ks, row);
    if i < |c.entries| {
      EntryGrows(c, rest, row + 1, i);
      assert ks[..1] == [ks[0]];
      assert Scan(b, [ks[0]], row) == c by { assert [ks[0]][1..] == []; }
      assert c.childIndent != "" by { assert ks[0].Key? && IsIndent(ks[0].indent); }
    } else {
      EntryBegins(c, rest, row + 1, i);
      var n := r.entries[i].row - row;
      assert ks[..n + 1][0] == ks[0] && ks[..n + 1][1..] == rest[..n];
    }
  }

  // ---------------------------------------------------------------- a new line after a header

  function Shift(row: nat, from: nat): nat {
    if row >= from then row + 1 else row
  }

  function ShiftFields(fields: map<string, Field>, from: nat): map<string, Field> {
    map k | k in fields :: fields[k].(row := Shift(fields[k].row, from))
  }

  function ShiftEntry(e: Entry, from: nat): Entry {
    e.(row := Shift(e.row, from), end := Shift(e.end, from), fields := ShiftFields(e.fields, from))
  }

  function FieldOf(k: Kind, row: nat): Field
    requires k.Key?
  {
    Field(k.value, row, k.at, |k.raw|)
  }

  function InsertedEntry(e: Entry, k: Kind, from: nat): Entry
    requires k.Key?
  {
    var s := ShiftEntry(e, from);
    s.(fieldIndent := k.indent, fields := s.fields[k.key := FieldOf(k, from)])
  }

  /** The block with a field line for entry `i` put in at row `from`. */
  function Inserted(b: Block, i: nat, k: Kind, from: nat): Block
    requires k.Key?
  {
    Block(b.childIndent,
          seq(|b.entries|, j requires 0 <= j < |b.entries| =>
            if j == i then InsertedEntry(b.entries[j], k, from) else ShiftEntry(b.entries[j], from)),
          Shift(b.bodyEnd, from))
  }

  lemma InsertedInEntry(e: Entry, x: Kind, row: nat, k: Kind, from: nat)
    requires x.Key? && k.Key? && row >= from && e.end >= from
    requires var f := InEntry(e, x, row); (f.fieldIndent == "" || f.fieldIndent == k.indent) && k.key !in f.fields
    requires x.indent != ""
    ensures InEntry(InsertedEntry(e, k, from), x, row + 1) == InsertedEntry(InEntry(e, x, row), k, from)
  {
    var l, r := InEntry(InsertedEntry(e, k, from), x, row + 1), InsertedEntry(InEntry(e, x, row), k, from);
    assert l.fields == r.fields;
  }

  lemma ShiftedInEntry(e: Entry, x: Kind, row: nat, from: nat)
    requires x.Key? && row >= from
    ensures InEntry(ShiftEntry(e, from), x, row + 1) == ShiftEntry(InEntry(e, x, row), from)
  {
    var l, r := InEntry(ShiftEntry(e, from), x, row + 1), ShiftEntry(InEntry(e, x, row), from);
    assert l.fields == r.fields;
  }

  lemma InsertedStep(b: Block, x: Kind, row: nat, i: nat, k: Kind, from: nat)
    requires k.Key? && row >= from && i < |b.entries| && b.entries[i].end >= from && (x.Key? ==> x.indent != "")
    requires var f := Step(b, x, row).entries[i];
             (f.fieldIndent == "" || f.fieldIndent == k.indent) && k.key !in f.fields
    ensures Step(Inserted(b, i, k, from), x, row + 1) == Inserted(Step(b, x, row), i, k, from)
  {
    hide InEntry, InsertedEntry, ShiftFields;
    var l, r := Step(Inserted(b, i, k, from), x, row + 1), Inserted(Step(b, x, row), i, k, from);
    if x.Key? {
      var child := if b.childIndent == "" then x.indent else b.childIndent;
      if |x.indent| <= |child| {
        NothingToShift(from);
      } else {
        var last := |b.entries| - 1;
        if last == i { InsertedInEntry(b.entries[i], x, row, k, from); }
        else { ShiftedInEntry(b.entries[last], x, row, from); }
      }
    } else if x.Other? {
      OtherInserted(b.entries[|b.entries| - 1], row, k, from);
    }
    assert l.entries == r.entries;
  }

  lemma NothingToShift(from: nat)
    ensures ShiftFields(map[], from) == map[]
  {
  }

  lemma OtherInserted(e: Entry, row: nat, k: Kind, from: nat)
    requires k.Key? && row >= from
    ensures InsertedEntry(e, k, from).(end := row + 2) == InsertedEntry(e.(end := row + 1), k, from)
    ensures ShiftEntry(e, from).(end := row + 2) == ShiftEntry(e.(end := row + 1), from)
  {
  }

  lemma {:induction false} InsertedScan(b: Block, ks: seq<Kind>, row: nat, i: nat, k: Kind, from: nat)
    requires k.Key? && row >= from && i < |b.entries| && b.entries[i].end >= from && AreIndented(ks)
    requires |Scan(b, ks, row).entries| > i
    requires var f := Scan(b, ks, row).entries[i];
             (f.fieldIndent == "" || f.fieldIndent == k.indent) && k.key !in f.fields
    ensures Scan(Inserted(b, i, k, from), ks, row + 1) == Inserted(Scan(b, ks, row), i, k, from)
    decreases |ks|
  {
    hide Inserted, InEntry, IsIndent;
    if ks != [] && !ks[0].Top? {
      var c := Step(b, ks[0], row);
      EntryGrows(c, ks[1..], row + 1, i);
      assert ks[0].Key? ==> ks[0].indent != "" by { IndentsAreSomething(); }
      InsertedStep(b, ks[0], row, i, k, from);
      StepKeepsEnd(b, ks[0], row, i, from);
      InsertedScan(c, ks[1..], row + 1, i, k, from);
    }
  }

  lemma StepKeepsEnd(b: Block, x: Kind, row: nat, i: nat, from: nat)
    requires i < |b.entries| && b.entries[i].end >= from && row >= from
    ensures i < |Step(b, x, row).entries| && Step(b, x, row).entries[i].end >= from
  {
  }

  /**
   * Where a field line may be put: after the header of entry `i`, at the indent of its fields, under a key it does
   * not have.
   */
  ghost predicate MayInsert(b: Block, i: nat, k: Kind) {
    k.Key? && i < |b.entries| && |k.indent| > |b.childIndent| &&
    (b.entries[i].fieldIndent == "" || b.entries[i].fieldIndent == k.indent) && k.key !in b.entries[i].fields
  }

  lemma InsertedAtBegin(c: Block, seen: seq<Kind>, i: nat, k: Kind, x: Kind, row: nat)
    requires BeginsAt(c, i, x, row) && Fits(c, seen) && k.Key? && |k.indent| > |c.childIndent|
    ensures Step(c, k, row + 1) == Inserted(c, i, k, row + 1)
  {
    hide IsDeep, IsIndent;
    var l, r := Step(c, k, row + 1), Inserted(c, i, k, row + 1);
    forall j | 0 <= j < i ensures ShiftEntry(c.entries[j], row + 1) == c.entries[j] {
      assert EntryFits(c.entries[j], seen) && c.entries[j].end <= row;
      assert ShiftFields(c.entries[j].fields, row + 1) == c.entries[j].fields;
    }
    NothingToShift(row + 1);
    assert l.entries[i] == r.entries[i];
    assert l.entries == r.entries;
  }

  lemma InsertLine(ks: seq<Kind>, i: nat, k: Kind)
    requires AreIndented(ks) && MayInsert(BlockOf(ks), i, k)
    ensures var b := BlockOf(ks);
            b.entries[i].row < |ks| &&
            BlockOf(ks[..b.entries[i].row + 1] + [k] + ks[b.entries[i].row + 1..]) ==
              Inserted(b, i, k, b.entries[i].row + 1)
  {
    hide Step, Inserted, IsIndent, Fits;
    var b := BlockOf(ks);
    var h := b.entries[i].row;
    EntryBegins(EMPTY_BLOCK, ks, 0, i);
    var a, rest := ks[..h + 1], ks[h + 1..];
    var c := BlockOf(a);
    assert a + rest == ks;
    ScanConcat(EMPTY_BLOCK, a, rest, 0);
    BlockFits(a);
    EntryGrows(c, rest, h + 1, i);
    InsertedAtBegin(c, a, i, k, ks[h], h);
    InsertedScan(c, rest, h + 1, i, k, h + 1);
    assert a + [k] + rest == a + ([k] + rest);
    ScanConcat(EMPTY_BLOCK, a, [k] + rest, 0);
    assert ([k] + rest)[1..] == rest;
  }
}
