/**
 * `providers:` blocks as people write them: fields in any order and more than once, under any alias, deeper settings,
 * lists, comments and blank lines. What is written is what is listed.
 */
module ProvidersWritten {
  import opened Text
  import opened ConfigScalars
  import opened ConfigBlocks
  import opened Providers
  import opened ProvidersLines
  import opened ProvidersScan

  /** A line under the key of an entry: a field, a deeper key, or a line that is no key at all. */
  datatype Row = Own(key: string, raw: string) | Deeper(indent: string, key: string, raw: string) | Loose(text: string)

  /** An entry: its key, the text behind the colon, and the lines under it. */
  datatype Written = Written(slug: string, raw: string, rows: seq<Row>)

  // ---------------------------------------------------------------- what may be written

  /** Letters, digits, underscores, dots and dashes. */
  predicate IsName(s: string) {
    s != "" && forall i :: 0 <= i < |s| ==>
      'a' <= s[i] <= 'z' || 'A' <= s[i] <= 'Z' || '0' <= s[i] <= '9' || s[i] == '_' || s[i] == '.' || s[i] == '-'
  }

  predicate IsText(s: string) {
    '\n' !in s && (s == "" || s[|s| - 1] != '\r')
  }

  /** A blank line, a comment, or an item of a list, indented. */
  ghost predicate IsLoose(text: string) {
    IsText(text) &&
    (TrimStart(EcmaScript, text) == "" ||
    exists indent: string, rest: string ::
       IsIndent(indent) &&
       (text == indent + ("#" + rest) || (text == indent + ("- " + rest) && rest != "" && IsName(rest[..1]))))
  }

  predicate IsTail(raw: string) {
    !HasTerminator(raw)
  }

  /** The indents of entries and of fields; a deeper key comes behind a field of its entry. */
  ghost predicate IsWritten(w: Written, child: string, field: string) {
    IsName(w.slug) && IsTail(w.raw) &&
    forall i :: 0 <= i < |w.rows| ==>
      match w.rows[i]
      case Own(key, raw) => IsName(key) && IsTail(raw)
      case Deeper(indent, key, raw) =>
        IsIndent(indent) && |indent| > |field| && IsName(key) && IsTail(raw) && HasOwn(w.rows[..i])
      case Loose(text) => IsLoose(text)
  }

  predicate HasOwn(rows: seq<Row>) {
    exists i :: 0 <= i < |rows| && rows[i].Own?
  }

  // ---------------------------------------------------------------- what it means

  /** The last value of a field, empty when there is none. */
  function LastOf(rows: seq<Row>, key: string): string {
    if rows == [] then ""
    else
      var row := rows[|rows| - 1];
      if row.Own? && row.key == key then StripScalar(row.raw) else LastOf(rows[..|rows| - 1], key)
  }

  /** The first of the three aliases of the URL that says something; an entry without a name goes by its key. */
  function Listed(w: Written): UserProvider {
    var name, api, url := LastOf(w.rows, "name"), LastOf(w.rows, "api"), LastOf(w.rows, "url");
    UserProvider(w.slug, if name == "" then w.slug else name,
                 if api != "" then api else if url != "" then url else LastOf(w.rows, "base_url"),
                 LastOf(w.rows, "key_env"))
  }

  function AllListed(ws: seq<Written>): (r: seq<UserProvider>)
    ensures |r| == |ws|
  {
    seq(|ws|, i requires 0 <= i < |ws| => Listed(ws[i]))
  }

  // ---------------------------------------------------------------- how it is written

  function TextOf(row: Row, field: string): string {
    match row
    case Own(key, raw) => field + (key + (":" + raw))
    case Deeper(indent, key, raw) => indent + (key + (":" + raw))
    case Loose(text) => text
  }

  function RowLines(rows: seq<Row>, field: string): (r: seq<string>)
    ensures |r| == |rows|
  {
    seq(|rows|, i requires 0 <= i < |rows| => TextOf(rows[i], field) + "\n")
  }

  function LinesOfOne(w: Written, child: string, field: string): seq<string> {
    [child + (w.slug + (":" + w.raw)) + "\n"] + RowLines(w.rows, field)
  }

  function LinesOfAll(ws: seq<Written>, child: string, field: string): seq<string> {
    if ws == [] then []
    else LinesOfAll(ws[..|ws| - 1], child, field) + LinesOfOne(ws[|ws| - 1], child, field)
  }

  // ---------------------------------------------------------------- what the scanner sees in a line

  lemma NameIsKey(s: string)
    requires IsName(s)
    ensures IsKey(s)
  {
  }

  /** A key line with its line feed. */
  lemma KeyLine(indent: string, key: string, raw: string)
    requires IsIndent(indent) && IsName(key) && IsTail(raw)
    ensures var line := indent + (key + (":" + raw)) + "\n";
            IsLine(line) && var k := KindOf(Chomp(line));
            k.Key? && k.indent == indent && k.key == key && k.value == StripScalar(raw)
  {
    hide TrimStart, TrimEnd, StripScalar, HasTerminator, KindOf, IsKey, IsIndent;
    NameIsKey(key);
    var text := KeyHead(indent, key, "") + raw;
    assert text == indent + (key + (":" + raw)) by { assert key + ("" + ":") == key + ":"; }
    KindOfKey(indent, key, "", raw);
    SameStrip(raw);
    KeyHeadIsPlain(indent, key, "");
    NoBreakIn(raw);
    assert text[|text| - 1] != '\r' by {
      assert raw != "" ==> text[|text| - 1] == raw[|raw| - 1];
      ColonEnds(indent, key);
    }
    TextIsRow(text, "\n");
  }

  lemma ColonEnds(indent: string, key: string)
    ensures var h := KeyHead(indent, key, ""); h[|h| - 1] == ':'
  {
  }

  lemma SameStrip(raw: string)
    ensures StripScalar(TrimStart(EcmaScript, raw)) == StripScalar(raw)
  {
    hide IsSpace, TrimEnd;
    TrimStartShape(EcmaScript, raw);
    TrimStartOfUnpadded(EcmaScript, TrimStart(EcmaScript, raw));
  }

  lemma LooseLine(text: string)
    requires IsLoose(text)
    ensures IsLine(text + "\n") && var k := KindOf(Chomp(text + "\n")); k.Blank? || k.Other?
  {
    hide KindOf, TrimStart, IsIndent, IsKeyChar;
    if text == "" {
      assert IsBlank("") by { TrimStartOfUnpadded(EcmaScript, ""); }
      assert "" + "\n" == "\n" && Chomp("\n") == "";
    } else {
      TextIsRow(text, "\n");
    }
    if TrimStart(EcmaScript, text) != "" {
      var indent: string, rest: string :|
        IsIndent(indent) &&
        (text == indent + ("#" + rest) || (text == indent + ("- " + rest) && rest != "" && IsName(rest[..1])));
      LooseKind(text, indent, rest);
    } else {
      BlankKind(text);
    }
  }

  lemma BlankKind(text: string)
    requires TrimStart(EcmaScript, text) == ""
    ensures KindOf(text) == Blank
  {
  }

  lemma LooseKind(text: string, indent: string, rest: string)
    requires IsIndent(indent) && TrimStart(EcmaScript, text) != ""
    requires text == indent + ("#" + rest) || (text == indent + ("- " + rest) && rest != "" && IsName(rest[..1]))
    ensures KindOf(text) == Other
  {
    hide IsSpace, TrimStart, IsKeyChar, IsInlineSpace, HasTerminator, KeyRun, SkipInline;
    CharClasses();
    LooseChars();
    if text == indent + ("#" + rest) {
      var t := "#" + rest;
      IndentRunOf(indent, t);
      assert text[|indent|..] == t;
      KeyRunOf("", t);
      assert "" + t == t;
    } else {
      var t := "- " + rest;
      IndentRunOf(indent, t);
      assert text[|indent|..] == t && t == "-" + (" " + rest);
      KeyRunOf("-", " " + rest);
      assert text[|indent| + 1..] == " " + rest;
      assert rest[0] == rest[..1][0];
      SkipInlineOf(" ", rest);
    }
  }

  lemma LooseChars()
    ensures !IsKeyChar('#') && IsKeyChar('-') && !IsInlineSpace('#') && !IsKeyChar(' ') && IsInlineSpace(' ')
    ensures forall c :: IsName([c]) ==> !IsInlineSpace(c) && c != ':'
  {
    forall c | IsName([c]) ensures !IsInlineSpace(c) && c != ':' {
      assert [c][0] == c;
    }
  }

  // ---------------------------------------------------------------- scanning entries

  predicate KindIs(k: Kind, row: Row, field: string) {
    match row
    case Own(key, raw) => k.Key? && k.indent == field && k.key == key && k.value == StripScalar(raw)
    case Deeper(_, _, _) => k.Key? && |k.indent| > |field|
    case Loose(_) => k.Blank? || k.Other?
  }

  /** The scan stands in an entry of this key, behind these rows. */
  ghost predicate IsAt(b: Block, child: string, field: string, done: seq<UserProvider>, slug: string, rows: seq<Row>) {
    b.childIndent == child && b.entries != [] && Last(b.entries).slug == slug &&
    ProvidersOf(Views(b.entries[..|b.entries| - 1])) == done &&
    Last(b.entries).fieldIndent == (if HasOwn(rows) then field else "") &&
    forall key :: Get(Values(Last(b.entries).fields), key) == LastOf(rows, key)
  }

  lemma StepRow(b: Block, k: Kind, at: nat, child: string, field: string, done: seq<UserProvider>, slug: string,
                rows: seq<Row>, row: Row)
    requires IsAt(b, child, field, done, slug, rows) && KindIs(k, row, field) && 0 < |child| < |field|
    requires row.Deeper? ==> HasOwn(rows)
    ensures !k.Top? && IsAt(Step(b, k, at), child, field, done, slug, rows + [row])
  {
    hide StripScalar;
    var next := rows + [row];
    assert next[..|rows|] == rows && next[|rows|] == row;
    assert HasOwn(next) <==> HasOwn(rows) || row.Own? by {
      if HasOwn(rows) { var i :| 0 <= i < |rows| && rows[i].Own?; assert next[i].Own?; }
    }
    var e := Last(b.entries);
    var c := Step(b, k, at);
    assert c.entries[..|c.entries| - 1] == b.entries[..|b.entries| - 1];
    if row.Own? {
      var f := Field(k.value, at, k.at, |k.raw|);
      assert Last(c.entries).fields == e.fields[k.key := f];
      assert Values(e.fields[k.key := f]) == Values(e.fields)[k.key := k.value];
      forall key ensures Get(Values(Last(c.entries).fields), key) == LastOf(next, key) {
        assert Get(Values(e.fields), key) == LastOf(rows, key);
      }
    }
  }

  lemma KindsConcat(a: seq<string>, c: seq<string>)
    ensures KindsOf(a + c) == KindsOf(a) + KindsOf(c)
  {
    hide KindOf;
  }

  lemma OneKind(line: string)
    ensures KindsOf([line]) == [KindOf(Chomp(line))]
  {
  }

  lemma RowReads(row: Row, w: Written, i: nat, child: string, field: string)
    requires IsWritten(w, child, field) && i < |w.rows| && w.rows[i] == row && IsIndent(field)
    ensures IsLine(TextOf(row, field) + "\n") && KindIs(KindOf(Chomp(TextOf(row, field) + "\n")), row, field)
    ensures row.Deeper? ==> HasOwn(w.rows[..i])
  {
    hide KindOf, IsName, IsTail, IsLoose, IsIndent, StripScalar, IsLine, HasOwn;
    match row
    case Own(key, raw) => KeyLine(field, key, raw);
    case Deeper(indent, key, raw) => KeyLine(indent, key, raw);
    case Loose(text) => LooseLine(text);
  }

  lemma {:induction false} ScanRows(b: Block, at: nat, w: Written, n: nat, child: string, field: string,
                                    done: seq<UserProvider>)
    requires IsWritten(w, child, field) && n <= |w.rows| && IsIndent(field) && 0 < |child| < |field|
    requires IsAt(b, child, field, done, w.slug, [])
    ensures HasNoTop(KindsOf(RowLines(w.rows[..n], field)))
    ensures IsAt(Scan(b, KindsOf(RowLines(w.rows[..n], field)), at), child, field, done, w.slug, w.rows[..n])
    decreases n
  {
    hide KindOf, KindIs, Step, IsAt, IsWritten, IsIndent, TextOf, HasOwn;
    if n == 0 {
      assert w.rows[..0] == [] && RowLines([], field) == [];
      NothingScanned(b, at);
    } else {
      ScanRows(b, at, w, n - 1, child, field, done);
      var before, row := w.rows[..n - 1], w.rows[n - 1];
      var line := TextOf(row, field) + "\n";
      RowReads(row, w, n - 1, child, field);
      assert w.rows[..n] == before + [row];
      assert RowLines(before + [row], field) == RowLines(before, field) + [line];
      KindsConcat(RowLines(before, field), [line]);
      OneKind(line);
      var ks, k := KindsOf(RowLines(before, field)), KindOf(Chomp(line));
      StepRow(Scan(b, ks, at), k, at + |ks|, child, field, done, w.slug, before, row);
      ScanSnoc(b, ks, k, at);
    }
  }

  lemma NothingScanned(b: Block, at: nat)
    ensures Scan(b, KindsOf([]), at) == b && HasNoTop(KindsOf([]))
  {
  }

  lemma ScanSnoc(b: Block, ks: seq<Kind>, k: Kind, at: nat)
    requires HasNoTop(ks) && !k.Top?
    ensures Scan(b, ks + [k], at) == Step(Scan(b, ks, at), k, at + |ks|) && HasNoTop(ks + [k])
  {
    hide Step;
    ScanConcat(b, ks, [k], at);
    assert [k][1..] == [];
  }

  /** The key line of the next entry. */
  lemma StepEntry(b: Block, k: Kind, at: nat, child: string, field: string, slug: string)
    requires k.Key? && k.indent == child && k.key == slug && child != ""
    requires b.childIndent == child || (b.childIndent == "" && b.entries == [])
    ensures !k.Top? && IsAt(Step(b, k, at), child, field, ProvidersOf(Views(b.entries)), slug, [])
  {
    assert Values(map[]) == map[];
    assert Step(b, k, at).entries[..|b.entries|] == b.entries;
  }

  /** The entries of a scan, listed. */
  ghost predicate Shows(b: Block, child: string, list: seq<UserProvider>) {
    ProvidersOf(Views(b.entries)) == list && (b.childIndent == child || (b.childIndent == "" && b.entries == []))
  }

  lemma EntryIsListed(b: Block, child: string, field: string, done: seq<UserProvider>, w: Written)
    requires IsAt(b, child, field, done, w.slug, w.rows)
    ensures Shows(b, child, done + [Listed(w)])
  {
    hide StripScalar, LastOf;
    var last := Last(b.entries);
    assert b.entries == b.entries[..|b.entries| - 1] + [last];
    assert ProviderOf(ViewOf(last)) == Listed(w);
    var front := b.entries[..|b.entries| - 1];
    assert Views(b.entries) == Views(front) + [ViewOf(last)];
    assert ProvidersOf(Views(b.entries)) == ProvidersOf(Views(front)) + [ProviderOf(ViewOf(last))];
  }

  lemma {:induction false} ScanAll(ws: seq<Written>, child: string, field: string)
    requires (forall i :: 0 <= i < |ws| ==> IsWritten(ws[i], child, field)) && IsIndent(child) && IsIndent(field)
    requires 0 < |child| < |field|
    ensures AreLines(LinesOfAll(ws, child, field)) && HasNoTop(KindsOf(LinesOfAll(ws, child, field)))
    ensures Shows(Scan(EMPTY_BLOCK, KindsOf(LinesOfAll(ws, child, field)), 0), child, AllListed(ws))
    decreases |ws|
  {
    hide KindOf, Scan, IsAt, IsWritten, IsIndent, Listed, Shows, HasNoTop, AreLines, LinesOfOne, KindsOf;
    if ws == [] {
      NoLines();
      EmptyShows(child);
    } else {
      var before, w := ws[..|ws| - 1], ws[|ws| - 1];
      ScanAll(before, child, field);
      var lines, more := LinesOfAll(before, child, field), LinesOfOne(w, child, field);
      var b := Scan(EMPTY_BLOCK, KindsOf(lines), 0);
      ScanOne(b, |lines|, w, child, field, AllListed(before));
      KindsConcat(lines, more);
      NoTopConcat(KindsOf(lines), KindsOf(more));
      ScanConcat(EMPTY_BLOCK, KindsOf(lines), KindsOf(more), 0);
      assert AllListed(ws) == AllListed(before) + [Listed(w)];
      LinesConcat(lines, more);
    }
  }

  lemma LinesConcat(a: seq<string>, c: seq<string>)
    requires AreLines(a) && AreLines(c)
    ensures AreLines(a + c)
  {
    hide IsLine;
    assert forall l :: l in a + c ==> l in a || l in c;
  }

  lemma NoLines()
    ensures AreLines([])
  {
  }

  lemma EmptyShows(child: string)
    ensures Shows(Scan(EMPTY_BLOCK, KindsOf([]), 0), child, []) && HasNoTop(KindsOf([]))
  {
  }

  lemma NoTopConcat(a: seq<Kind>, c: seq<Kind>)
    requires HasNoTop(a) && HasNoTop(c)
    ensures HasNoTop(a + c)
  {
  }

  lemma ScanOne(b: Block, at: nat, w: Written, child: string, field: string, done: seq<UserProvider>)
    requires IsWritten(w, child, field) && IsIndent(child) && IsIndent(field) && 0 < |child| < |field|
    requires Shows(b, child, done)
    ensures var lines := LinesOfOne(w, child, field);
            AreLines(lines) && HasNoTop(KindsOf(lines)) && Shows(Scan(b, KindsOf(lines), at), child, done + [Listed(w)])
  {
    hide KindOf, Step, IsAt, IsIndent, Listed, HasNoTop, IsLine, IsLoose, KindIs, HasOwn, IsName, TextOf, StripScalar;
    var head := child + (w.slug + (":" + w.raw)) + "\n";
    KeyLine(child, w.slug, w.raw);
    OneKind(head);
    var k, rows := KindOf(Chomp(head)), RowLines(w.rows, field);
    StepEntry(b, k, at, child, field, w.slug);
    ScanRows(Step(b, k, at), at + 1, w, |w.rows|, child, field, done);
    assert w.rows[..|w.rows|] == w.rows;
    KindsConcat([head], rows);
    assert Scan(b, [k] + KindsOf(rows), at) == Scan(Step(b, k, at), KindsOf(rows), at + 1) by {
      assert ([k] + KindsOf(rows))[1..] == KindsOf(rows);
    }
    assert HasNoTop([k]) by { OneIsNoTop(k); }
    NoTopConcat([k], KindsOf(rows));
    EntryIsListed(Scan(b, KindsOf(LinesOfOne(w, child, field)), at), child, field, done, w);
    forall l | l in LinesOfOne(w, child, field) ensures IsLine(l) {
      if l in rows {
        var i :| 0 <= i < |rows| && rows[i] == l;
        RowReads(w.rows[i], w, i, child, field);
      }
    }
  }

  lemma OneIsNoTop(k: Kind)
    requires !k.Top?
    ensures HasNoTop([k])
  {
  }

  // ---------------------------------------------------------------- whole files

  /** The text behind a block: nothing, or a line that begins with neither white space nor a line feed. */
  predicate IsFoot(foot: string) {
    foot == "" || !IsSpace(EcmaScript, foot[0])
  }

  lemma FootIsTop(foot: string)
    requires IsFoot(foot) && foot != ""
    ensures var ls := LinesOf(foot); ls != [] && KindOf(Chomp(ls[0])).Top?
  {
    hide IsSpace, KindAt;
    SpaceChars();
    var l := foot[..LineLength(foot)];
    FirstCharStays(l);
    TrimStartOfUnpadded(EcmaScript, Chomp(l));
  }

  lemma SpaceChars()
    ensures IsSpace(EcmaScript, ' ') && IsSpace(EcmaScript, '\t') && IsSpace(EcmaScript, '\n') &&
            IsSpace(EcmaScript, '\r')
  {
  }

  lemma FirstCharStays(l: string)
    requires l != "" && l[0] != '\n' && l[0] != '\r'
    ensures Chomp(l) != "" && Chomp(l)[0] == l[0]
  {
  }

  lemma ScanToTop(ks: seq<Kind>, more: seq<Kind>)
    requires HasNoTop(ks) && (more == [] || more[0].Top?)
    ensures Scan(EMPTY_BLOCK, ks + more, 0) == Scan(EMPTY_BLOCK, ks, 0)
  {
    hide Step;
    ScanConcat(EMPTY_BLOCK, ks, more, 0);
  }

  /**
   * A block is listed as it is written: of a repeated field the last value counts, deeper keys, lists and comments do
   * not, the URL goes by three names, and an entry without a name by its key.
   */
  lemma WrittenIsListed(head: string, ws: seq<Written>, child: string, field: string, foot: string)
    requires IsHead(head) && IsFoot(foot) && IsIndent(child) && IsIndent(field) && |child| < |field|
    requires forall i :: 0 <= i < |ws| ==> IsWritten(ws[i], child, field)
    ensures List(head + Concat(LinesOfAll(ws, child, field)) + foot) == AllListed(ws)
  {
    hide KindOf, Scan, IsWritten, Listed, HasNoTop, IsLine, BodyStart, IsHead, IsFoot, LinesOf, Concat, IsIndent;
    var lines, tail := LinesOfAll(ws, child, field), LinesOf(foot);
    var content := head + Concat(lines) + foot;
    assert child != "" by { IndentsAreSomething(); }
    ScanAll(ws, child, field);
    assert content == head + (Concat(lines) + foot);
    HeadStays(head, Concat(lines) + foot);
    assert content[|head|..] == Concat(lines) + foot;
    TextsAsLines(lines, foot);
    KindsConcat(lines, tail);
    if foot != "" { FootIsTop(foot); } else { assert LinesOf("") == [] by { NoText(); } }
    ScanToTop(KindsOf(lines), KindsOf(tail));
    BlockShows(content, |head|, KindsOf(lines), child, AllListed(ws));
  }

  lemma BlockShows(content: string, start: nat, ks: seq<Kind>, child: string, list: seq<UserProvider>)
    requires BodyStart(content) == Some(start) && start <= |content|
    requires BlockOf(KindsOf(LinesOf(content[start..]))) == Scan(EMPTY_BLOCK, ks, 0)
    requires Shows(Scan(EMPTY_BLOCK, ks, 0), child, list)
    ensures List(content) == list
  {
    hide BodyStart, LinesOf, KindsOf, Scan;
  }

  lemma NoText()
    ensures LinesOf("") == []
  {
  }

  lemma TextsAsLines(lines: seq<string>, foot: string)
    requires AreLines(lines)
    ensures LinesOf(Concat(lines) + foot) == lines + LinesOf(foot)
  {
    hide LinesOf, Concat, IsLine, IsRow;
    RowsOfText(foot);
    ConcatOfLines(foot);
    ConcatSplit(lines, LinesOf(foot));
    LinesBeforeRows(lines, LinesOf(foot));
    LinesOfConcat(lines + LinesOf(foot));
  }

  lemma LinesBeforeRows(lines: seq<string>, rows: seq<string>)
    requires AreLines(lines) && AreRows(rows)
    ensures AreRows(lines + rows)
  {
    hide IsLine, IsRow;
    LinesAreRows(lines);
    forall i | 0 <= i < |lines + rows|
      ensures IsRow((lines + rows)[i]) && (i + 1 < |lines + rows| ==> IsLine((lines + rows)[i]))
    {
      if i < |lines| { assert lines[i] in lines; } else { assert rows[i - |lines|] == (lines + rows)[i]; }
    }
  }
}
