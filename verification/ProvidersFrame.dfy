/** The frame of an upsert into an entry: which lines of the file it leaves alone, and what it makes of the others. */
module ProvidersFrame {
  import opened Text
  import opened ConfigScalars
  import opened Providers
  import opened ProvidersLines
  import opened ProvidersScan
  import opened ProvidersEdits
  import opened ProvidersOrder
  import opened ProvidersLaws

  // ---------------------------------------------------------------- a list of edits, line by line

  function Inserts(es: seq<Edit>): nat {
    if es == [] then 0 else (if es[0].Insert? then 1 else 0) + Inserts(es[1..])
  }

  /** What the edits make of a line that was there. */
  function RowAfter(line: string, es: seq<Edit>, row: nat): string
    decreases |es|
  {
    if es == [] then line
    else if es[0].Replace? && es[0].row == row && es[0].at + es[0].size <= |line| then
      PatchedLine(line, es[0].at, es[0].size, es[0].value)
    else RowAfter(line, es[1..], row)
  }

  ghost predicate IsInserted(line: string, es: seq<Edit>) {
    exists x :: x in es && x.Insert? && line == FieldLine(x.indent, x.key, x.value)
  }

  /** Everything up to row `h` stands, the new lines follow it, and the others come behind in their order. */
  ghost predicate FrameOf(cur: seq<string>, next: seq<string>, es: seq<Edit>, h: nat) {
    var m := Inserts(es);
    h < |cur| && |next| == |cur| + m && next[..h + 1] == cur[..h + 1] &&
    (forall j :: h < j <= h + m ==> IsInserted(next[j], es)) &&
    forall r :: h < r < |cur| ==> next[r + m] == RowAfter(cur[r], es, r)
  }

  lemma {:induction false} RowStands(line: string, es: seq<Edit>, row: nat)
    requires forall x :: x in es ==> x.Replace? ==> x.row != row
    ensures RowAfter(line, es, row) == line
    decreases |es|
  {
    if es != [] {
      assert es[0] in es;
      RowStands(line, es[1..], row);
    }
  }

  lemma {:induction false} DescendsBelow(es: seq<Edit>, lines: seq<string>, bound: nat)
    requires Descends(es, lines, bound)
    ensures forall x :: x in es ==> if x.Replace? then x.row < bound else x.row <= bound
    decreases |es|
  {
    if es != [] {
      DescendsBelow(es[1..], lines, es[0].row);
      assert forall x :: x in es ==> x == es[0] || x in es[1..];
    }
  }

  lemma {:induction false} EditsFrame(cur: seq<string>, es: seq<Edit>, lines: seq<string>, bound: nat, h: nat)
    requires Descends(es, lines, bound) && bound <= |cur| && bound <= |lines| && cur[..bound] == lines[..bound]
    requires h < |cur| && InsertsLast(es) && forall x :: x in es ==> StandsIn(x, h, lines)
    ensures FrameOf(cur, ApplyEdits(cur, es, lines, bound), es, h)
    decreases |es|
  {
    hide PatchedLine, FieldLine, StandsIn;
    if es != [] {
      var e, rest := es[0], es[1..];
      assert StandsIn(e, h, lines) by { assert e in es; }
      EditStillFits(cur, e, lines, bound);
      var mid := ApplyEdit(cur, e);
      var next := ApplyEdits(cur, es, lines, bound);
      assert forall x :: x in rest ==> x in es;
      assert InsertsLast(rest) by { assert forall x :: 0 <= x < |rest| ==> rest[x] == es[x + 1]; }
      RowIs(e, h, lines);
      assert |mid| >= |cur|;
      EditsFrame(mid, rest, lines, e.row, h);
      DescendsBelow(rest, lines, e.row);
      if e.Replace? {
        FrameOfReplace(cur, mid, next, es, h);
      } else {
        assert forall x :: x in rest ==> x.Insert? by { assert forall x :: 0 <= x < |rest| ==> rest[x] == es[x + 1]; }
        FrameOfInsert(cur, mid, next, es, h);
      }
    }
  }

  lemma RowIs(e: Edit, h: nat, lines: seq<string>)
    requires StandsIn(e, h, lines)
    ensures if e.Replace? then h < e.row else e.row == h + 1
  {
  }

  lemma InsertedMore(line: string, es: seq<Edit>)
    requires es != []
    ensures IsInserted(line, es[1..]) ==> IsInserted(line, es)
  {
    if IsInserted(line, es[1..]) {
      var x :| x in es[1..] && x.Insert? && line == FieldLine(x.indent, x.key, x.value);
      assert x in es;
    }
  }

  lemma FrameOfReplace(cur: seq<string>, mid: seq<string>, next: seq<string>, es: seq<Edit>, h: nat)
    requires es != [] && es[0].Replace? && h < es[0].row < |cur| && es[0].at + es[0].size <= |cur[es[0].row]|
    requires mid == cur[es[0].row := PatchedLine(cur[es[0].row], es[0].at, es[0].size, es[0].value)] &&
             FrameOf(mid, next, es[1..], h)
    requires forall x :: x in es[1..] ==> x.Replace? ==> x.row < es[0].row
    ensures FrameOf(cur, next, es, h)
  {
    hide PatchedLine, IsInserted;
    var m := Inserts(es);
    assert mid[..h + 1] == cur[..h + 1];
    forall j | h < j <= h + m ensures IsInserted(next[j], es) { InsertedMore(next[j], es); }
    forall r | h < r < |cur| ensures next[r + m] == RowAfter(cur[r], es, r) {
      assert next[r + Inserts(es[1..])] == RowAfter(mid[r], es[1..], r) && m == Inserts(es[1..]);
      if r == es[0].row { RowStands(mid[r], es[1..], r); }
    }
  }

  lemma FrameOfInsert(cur: seq<string>, mid: seq<string>, next: seq<string>, es: seq<Edit>, h: nat)
    requires es != [] && es[0].Insert? && h < |cur| &&
             mid == cur[..h + 1] + [FieldLine(es[0].indent, es[0].key, es[0].value)] + cur[h + 1..]
    requires FrameOf(mid, next, es[1..], h) && forall x :: x in es[1..] ==> x.Insert?
    ensures FrameOf(cur, next, es, h)
  {
    hide PatchedLine, FieldLine;
    var m := Inserts(es);
    assert mid[..h + 1] == cur[..h + 1];
    forall j | h < j <= h + m ensures IsInserted(next[j], es) {
      if j < h + m {
        InsertedMore(next[j], es);
      } else {
        RowStands(mid[h + 1], es[1..], h + 1);
        assert next[h + 1 + (m - 1)] == mid[h + 1];
        assert es[0] in es;
      }
    }
    forall r | h < r < |cur| ensures next[r + m] == RowAfter(cur[r], es, r) {
      assert mid[r + 1] == cur[r];
      assert next[r + 1 + (m - 1)] == RowAfter(mid[r + 1], es[1..], r + 1);
      RowStands(mid[r + 1], es[1..], r + 1);
      RowStands(cur[r], es, r);
    }
  }

  // ---------------------------------------------------------------- the frame of an upsert

  /** A line of a field the upsert sets, with its new value between the old indent, key and tail. */
  ghost predicate IsRevalued(line: string, now: string, entry: Entry, e: Input, row: nat) {
    exists key :: key in entry.fields && entry.fields[key].row == row &&
      ReplacesField(line, now, entry.fields[key], key, entry, e)
  }

  predicate ReplacesField(line: string, now: string, f: Field, key: string, entry: Entry, e: Input) {
    key in {"name", UrlField(entry.fields), "key_env"} && f.at + f.size <= |line| &&
    now == PatchedLine(line, f.at, f.size,
      if key == "name" then e.name else if key == "key_env" then e.keyEnv else e.baseUrl)
  }

  /** A line of its own for a field the entry lacks. */
  ghost predicate IsNewField(line: string, entry: Entry, e: Input, indent: string) {
    (line == FieldLine(indent, "name", e.name) && "name" !in entry.fields) ||
    (line == FieldLine(indent, "base_url", e.baseUrl) && UrlField(entry.fields) == "base_url" &&
      "base_url" !in entry.fields) ||
    (line == FieldLine(indent, "key_env", e.keyEnv) && "key_env" !in entry.fields && e.keyEnv != "")
  }

  /**
   * The lines before and after an upsert into an entry: equal up to and with its header line and behind its
   * end; in between at most three new field lines come first, and every old line stands as it was, or is the
   * line of one of the fields that are set, with the text around its value untouched.
   */
  ghost predicate ChangesEntryOnly(lines: seq<string>, next: seq<string>, b: Block, i: nat, e: Input) {
    i < |b.entries| &&
    var entry := b.entries[i];
    entry.row < entry.end <= |lines| <= |next| <= |lines| + 3 &&
    var m := |next| - |lines|;
    next[..entry.row + 1] == lines[..entry.row + 1] && next[entry.end + m..] == lines[entry.end..] &&
    (forall j :: entry.row < j <= entry.row + m ==> IsNewField(next[j], entry, e, NewFieldIndent(b, entry))) &&
    forall r :: entry.row < r < entry.end ==> next[r + m] == lines[r] || IsRevalued(lines[r], next[r + m], entry, e, r)
  }

  lemma {:induction false} InsertsBounded(es: seq<Edit>)
    ensures Inserts(es) <= |es|
  {
    if es != [] { InsertsBounded(es[1..]); }
  }

  lemma {:induction false} RowAfterIs(line: string, es: seq<Edit>, row: nat)
    ensures RowAfter(line, es, row) == line ||
            exists x :: x in es && x.Replace? && x.row == row && x.at + x.size <= |line| &&
              RowAfter(line, es, row) == PatchedLine(line, x.at, x.size, x.value)
    decreases |es|
  {
    hide PatchedLine;
    if es != [] {
      RowAfterIs(line, es[1..], row);
      assert es[0] in es;
    }
  }

  /** What an edit of an upsert is about. */
  ghost predicate IsEditOf(x: Edit, entry: Entry, wanted: seq<(string, string)>, indent: string) {
    (x.key, x.value) in wanted &&
    if x.Replace? then
      x.key in entry.fields && entry.fields[x.key].row == x.row && entry.fields[x.key].at == x.at &&
      entry.fields[x.key].size == x.size
    else x.key !in entry.fields && x.indent == indent
  }

  lemma {:induction false} EditsAreOf(e: Entry, indent: string, wanted: seq<(string, string)>)
    ensures |EditsOf(e, indent, wanted)| <= |wanted|
    ensures forall x :: x in EditsOf(e, indent, wanted) ==> IsEditOf(x, e, wanted, indent)
    decreases |wanted|
  {
    if wanted != [] {
      EditsAreOf(e, indent, wanted[1..]);
      assert forall w :: w in wanted[1..] ==> w in wanted;
      assert wanted[0] in wanted;
    }
  }

  lemma WantedAre<T>(fields: map<string, T>, e: Input)
    ensures |Wanted(fields, e)| <= 3
    ensures forall w :: w in Wanted(fields, e) ==>
              w == ("name", e.name) || w == (UrlField(fields), e.baseUrl) ||
              (w == ("key_env", e.keyEnv) && e.keyEnv != "")
    ensures UrlField(fields) != "name" && UrlField(fields) != "key_env" && "name" != "key_env"
    ensures UrlField(fields) !in fields ==> UrlField(fields) == "base_url"
  {
    KeysAreKeys();
    assert "name"[0] == 'n' && "key_env"[0] == 'k' && "api"[0] == 'a' && "url"[0] == 'u' && "base_url"[0] == 'b';
  }

  lemma FieldRows(ks: seq<Kind>, i: nat, key: string)
    requires AreIndented(ks) && i < |BlockOf(ks).entries| && key in BlockOf(ks).entries[i].fields
    ensures var e := BlockOf(ks).entries[i]; e.row < e.fields[key].row < e.end <= |ks|
  {
    hide Scan, FieldFits;
    BlockFits(ks);
    assert EntryFits(BlockOf(ks).entries[i], ks);
  }

  lemma EntryRows(ks: seq<Kind>, i: nat)
    requires i < |BlockOf(ks).entries|
    ensures var e := BlockOf(ks).entries[i]; e.row < e.end <= |ks|
  {
    hide Scan;
    BlockInside(ks);
    assert BlockOf(ks).entries[i] in BlockOf(ks).entries;
  }

  lemma UpdatedFrame(lines: seq<string>, i: nat, e: Input, base: nat)
    requires AreRows(lines) && i < |BlockOf(KindsOf(lines)).entries|
    ensures ChangesEntryOnly(lines, UpdatedLines(lines, i, e, base), BlockOf(KindsOf(lines)), i, e)
  {
    hide KindsOf, BlockOf, IsRow, IsLine, HasTerminator, PatchedLine, FieldLine, Descends, SortEdits, EditsOf, Wanted,
         StandsIn, NewFieldIndent;
    hide IsNewField, IsRevalued, UrlField, IsKey, IsEditOf, FrameOf, PutAll, SetWanted, WellPlaced, IsPlaced, Settles;
    var ks := KindsOf(lines);
    var b := BlockOf(ks);
    var entry, indent := b.entries[i], NewFieldIndent(b, b.entries[i]);
    var wanted := Wanted(entry.fields, e);
    var es := UpsertEdits(b, i, e);
    UpsertIsOrdered(lines, i, e, base);
    var sorted := SortEdits(es, base, lines);
    EditsAreOf(entry, indent, wanted);
    WantedAre(entry.fields, e);
    WantedIsFine(entry.fields, e);
    EditsOfShape(entry, indent, wanted);
    EditsStand(lines, i, indent, es);
    EntryRows(ks, i);
    EditsFrame(lines, sorted, lines, |lines|, entry.row);
    forall x | x in sorted && x.Replace? ensures x.row < entry.end {
      KindsAreIndented(lines);
      EditIsField(x, entry, wanted, indent);
      FieldRows(ks, i, x.key);
    }
    FrameMeans(lines, UpdatedLines(lines, i, e, base), sorted, b, i, e);
  }

  lemma EditIsField(x: Edit, entry: Entry, wanted: seq<(string, string)>, indent: string)
    requires IsEditOf(x, entry, wanted, indent) && x.Replace?
    ensures x.key in entry.fields && entry.fields[x.key].row == x.row
  {
  }

  lemma FrameMeans(lines: seq<string>, next: seq<string>, es: seq<Edit>, b: Block, i: nat, e: Input)
    requires i < |b.entries| && b.entries[i].row < b.entries[i].end <= |lines| && |es| <= 3 &&
             FrameOf(lines, next, es, b.entries[i].row)
    requires forall x :: x in es ==>
               IsEditOf(x, b.entries[i], Wanted(b.entries[i].fields, e), NewFieldIndent(b, b.entries[i]))
    requires forall x :: x in es && x.Replace? ==> x.row < b.entries[i].end
    ensures ChangesEntryOnly(lines, next, b, i, e)
  {
    hide PatchedLine, FieldLine, Wanted, NewFieldIndent, IsNewField, IsRevalued, IsEditOf, RowAfter;
    var entry, indent := b.entries[i], NewFieldIndent(b, b.entries[i]);
    var m := Inserts(es);
    InsertsBounded(es);
    forall r | entry.row < r < |lines|
      ensures next[r + m] == lines[r] || (r < entry.end && IsRevalued(lines[r], next[r + m], entry, e, r)) {
      RowAfterIs(lines[r], es, r);
      if next[r + m] != lines[r] {
        var x :| x in es && x.Replace? && x.row == r && x.at + x.size <= |lines[r]| &&
        RowAfter(lines[r], es, r) == PatchedLine(lines[r], x.at, x.size, x.value);
        RevaluedIs(lines[r], next[r + m], entry, e, x, indent);
      }
    }
    forall j | entry.row < j <= entry.row + m ensures IsNewField(next[j], entry, e, indent) {
      assert IsInserted(next[j], es);
      var x :| x in es && x.Insert? && next[j] == FieldLine(x.indent, x.key, x.value);
      NewFieldIs(next[j], entry, e, x, indent);
    }
    TailsAgree(lines, next, entry.end, m);
  }

  lemma TailsAgree(lines: seq<string>, next: seq<string>, end: nat, m: nat)
    requires end <= |lines| && |next| == |lines| + m && forall r :: end <= r < |lines| ==> next[r + m] == lines[r]
    ensures next[end + m..] == lines[end..]
  {
    forall k | 0 <= k < |lines| - end ensures next[end + m..][k] == lines[end..][k] {
      assert next[end + k + m] == lines[end + k];
    }
  }

  lemma RevaluedIs(line: string, now: string, entry: Entry, e: Input, x: Edit, indent: string)
    requires x.Replace? && IsEditOf(x, entry, Wanted(entry.fields, e), indent) && x.at + x.size <= |line|
    requires now == PatchedLine(line, x.at, x.size, x.value)
    ensures IsRevalued(line, now, entry, e, x.row)
  {
    hide PatchedLine, Wanted, UrlField;
    WantedAre(entry.fields, e);
    assert ReplacesField(line, now, entry.fields[x.key], x.key, entry, e);
  }

  lemma NewFieldIs(line: string, entry: Entry, e: Input, x: Edit, indent: string)
    requires x.Insert? && IsEditOf(x, entry, Wanted(entry.fields, e), indent)
    requires line == FieldLine(x.indent, x.key, x.value)
    ensures IsNewField(line, entry, e, indent)
  {
    hide FieldLine, Wanted, UrlField;
    WantedAre(entry.fields, e);
  }

  /** An upsert that finds its entry leaves every line of the file alone but those of the fields it sets. */
  lemma UpsertChangesEntryOnly(content: string, input: Input)
    requires BodyStart(content).Some? && Stored(input).Some?
    requires Locate(ViewsIn(content), input.keyEnv, Stored(input).value.slug) < |ViewsIn(content)|
    ensures var n, e := BodyStart(content).value, Stored(input).value;
            var lines := LinesOf(content[n..]);
            content == content[..n] + Concat(lines) &&
            exists next :: UpsertText(content, input) == content[..n] + Concat(next) &&
                           ChangesEntryOnly(lines, next, BlockOf(KindsOf(lines)),
                             Locate(ViewsIn(content), input.keyEnv, e.slug), e)
  {
    hide KindsOf, LinesOf, BlockOf, BodyStart, Concat, Locate, Stored, UpsertText, ChangesEntryOnly, IsRow, IsLine,
         HasTerminator;
    var n, e := BodyStart(content).value, Stored(input).value;
    Decomposed(content);
    UpsertEditsLines(content, input);
    UpdatedFrame(LinesOf(content[n..]), Locate(ViewsIn(content), input.keyEnv, e.slug), e, n);
  }
}
