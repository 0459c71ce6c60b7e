/**
 * When an upsert shows in the listing, exactly. It fails for values the scanner cannot read back, and where the
 * line behind which text is put in has no line feed: the text is then glued to that line.
 */
module ProvidersExact {
  import opened Text
  import opened Quoting
  import opened ConfigScalars
  import opened ConfigBlocks
  import opened Providers
  import opened ProvidersLines
  import opened ProvidersScan
  import opened ProvidersEdits
  import opened ProvidersOrder
  import opened ProvidersLaws
  import opened ProvidersAppend
  import opened ProvidersRemove
  import opened ProvidersRepeat

  // ---------------------------------------------------------------- what can be listed at all

  lemma {:induction false} UnescapeWithin(s: string)
    ensures Within(UnescapeOnePass(s), s)
    decreases |s|
  {
    if |s| >= 2 {
      if s[0] == '\\' && (s[1] == '"' || s[1] == '\\') {
        UnescapeWithin(s[2..]);
        assert s[1] in s && forall c :: c in s[2..] ==> c in s;
      } else {
        UnescapeWithin(s[1..]);
        assert s[0] in s && forall c :: c in s[1..] ==> c in s;
      }
    }
  }

  lemma {:induction false} CutWithin(s: string)
    ensures Within(CutComment(s), s)
  {
    hide TrimStart, HasTerminator, IsSpace;
    if s != "" {
      CutWithin(s[1..]);
      assert s[0] in s && forall c :: c in s[1..] ==> c in s;
    }
  }

  lemma TrimWithin(s: string)
    ensures Within(Trim(EcmaScript, s), s)
  {
    hide TrimStart, TrimEnd, IsSpace;
    var t := TrimStart(EcmaScript, s);
    TrimStartShape(EcmaScript, s);
    TrimEndShape(EcmaScript, t);
    assert forall c :: c in t ==> c in s;
  }

  lemma DropWithin(s: string)
    ensures Within(DropOuterQuotes(s), s)
  {
  }

  lemma PartWithin(s: string, from: nat, to: nat)
    requires from <= to <= |s|
    ensures Within(s[from..to], s)
  {
  }

  /** Reading a scalar adds no character. */
  lemma StripWithin(raw: string)
    ensures Within(StripScalar(raw), raw)
  {
    hide Trim, UnescapeOnePass, CutComment, DropOuterQuotes, ReplacePair;
    var t := Trim(EcmaScript, raw);
    TrimWithin(raw);
    var dq := if t != "" && t[0] == '"' then DoubleQuotedLength(t[1..]) else None;
    if dq.Some? {
      UnescapeWithin(t[1..1 + dq.value]);
      PartWithin(t, 1, 1 + dq.value);
    } else {
      var sq := if t != "" && t[0] == '\'' then SingleQuotedLength(t[1..]) else None;
      if sq.Some? {
        PairWithin(t[1..1 + sq.value], '\'', '\'');
        PartWithin(t, 1, 1 + sq.value);
      } else {
        CutWithin(t);
        DropWithin(CutComment(t));
        TrimWithin(DropOuterQuotes(CutComment(t)));
      }
    }
  }

  lemma WithinHasNone(a: string, s: string)
    requires Within(a, s) && !HasTerminator(s)
    ensures !HasTerminator(a)
  {
    forall i | 0 <= i < |a| ensures !IsTerminator(a[i]) {
      assert a[i] in s;
      var j :| 0 <= j < |s| && s[j] == a[i];
    }
  }

  lemma KeyIsPlain(text: string)
    requires KindOf(text).Key?
    ensures IsKey(KindOf(text).key) && !HasTerminator(KindOf(text).value) && !HasTerminator(KindOf(text).key)
  {
    hide IsSpace, IsInlineSpace, IsKeyChar, TrimStart, TrimEnd, StripScalar, KeyHead, HasTerminator, KindOf, Within;
    var k := KindOf(text);
    var gap, rest := PartsOfKey(text);
    KindOfKey(k.indent, k.key, gap, rest);
    var raw := TrimStart(EcmaScript, rest);
    TrimStartShape(EcmaScript, rest);
    assert Within(raw, rest) by {
      PartWithin(rest, |rest| - |raw|, |rest|);
      assert raw == rest[|rest| - |raw|..|rest|];
    }
    StripWithin(raw);
    WithinHasNone(raw, rest);
    WithinHasNone(StripScalar(raw), raw);
    KeyHasNone(k.key);
  }

  lemma KeyHasNone(key: string)
    requires IsKey(key)
    ensures !HasTerminator(key)
  {
  }

  /** What a listing can show. */
  predicate IsListable(p: UserProvider) {
    IsKey(p.slug) && !HasTerminator(p.name) && !HasTerminator(p.baseUrl) && !HasTerminator(p.keyEnv)
  }

  lemma ViewIsListable(lines: seq<string>, i: nat)
    requires i < |BlockOf(KindsOf(lines)).entries|
    ensures IsListable(ProviderOf(ViewOf(BlockOf(KindsOf(lines)).entries[i])))
  {
    hide KindOf, Chomp, Scan, HasTerminator, IsKey, IsDeep;
    var ks := KindsOf(lines);
    var e := BlockOf(ks).entries[i];
    KindsAreIndented(lines);
    BlockFits(ks);
    assert EntryFits(e, ks);
    KeyIsPlain(Chomp(lines[e.row]));
    assert !HasTerminator("") by { NothingIsPlain(); }
    forall k | k in e.fields ensures !HasTerminator(e.fields[k].value) {
      assert FieldFits(e.fields[k], k, ks);
      KeyIsPlain(Chomp(lines[e.fields[k].row]));
    }
  }

  lemma NothingIsPlain()
    ensures !HasTerminator("")
  {
  }

  /** Whatever the file, its listing shows keys for slugs and no line terminator anywhere. */
  lemma ListingIsListable(content: string)
    ensures forall p :: p in List(content) ==> IsListable(p)
  {
    hide BodyStart, LinesOf, KindsOf, BlockOf, ViewOf, ProviderOf, IsListable;
    var start := BodyStart(content);
    if start.Some? {
      var lines := LinesOf(content[start.value..]);
      var entries := BlockOf(KindsOf(lines)).entries;
      forall p | p in List(content) ensures IsListable(p) {
        var i :| 0 <= i < |List(content)| && List(content)[i] == p;
        assert p == ProviderOf(ViewOf(entries[i]));
        ViewIsListable(lines, i);
      }
    }
  }

  // ---------------------------------------------------------------- text glued to a line

  lemma {:induction false} GluedBlank(l: string, t: string)
    requires TrimStart(EcmaScript, l) != ""
    ensures TrimStart(EcmaScript, l + t) == TrimStart(EcmaScript, l) + t
  {
    assert (l + t)[0] == l[0];
    if IsSpace(EcmaScript, l[0]) {
      assert (l + t)[1..] == l[1..] + t;
      GluedBlank(l[1..], t);
    }
  }

  lemma {:induction false} GluedIndent(l: string, t: string)
    requires IndentRun(l) < |l|
    ensures IndentRun(l + t) == IndentRun(l)
  {
    assert (l + t)[0] == l[0];
    if l[0] == ' ' || l[0] == '\t' {
      assert (l + t)[1..] == l[1..] + t;
      GluedIndent(l[1..], t);
    }
  }

  lemma {:induction false} GluedKeyRun(l: string, t: string)
    requires t != "" && !IsKeyChar(t[0])
    ensures KeyRun(l + t) == KeyRun(l)
  {
    hide IsKeyChar;
    if l == "" {
      assert l + t == t;
    } else {
      assert (l + t)[0] == l[0];
      if IsKeyChar(l[0]) {
        assert (l + t)[1..] == l[1..] + t;
        GluedKeyRun(l[1..], t);
      }
    }
  }

  lemma {:induction false} GluedSkip(l: string, t: string)
    ensures SkipInline(l + t) == if SkipInline(l) == "" then SkipInline(t) else SkipInline(l) + t
  {
    hide IsInlineSpace;
    if l == "" {
      assert l + t == t;
    } else {
      assert (l + t)[0] == l[0];
      if IsInlineSpace(l[0]) {
        assert (l + t)[1..] == l[1..] + t;
        GluedSkip(l[1..], t);
      }
    }
  }

  lemma {:induction false} BlankWhenAllRun(l: string)
    requires IndentRun(l) == |l|
    ensures TrimStart(EcmaScript, l) == ""
  {
    if l != "" { BlankWhenAllRun(l[1..]); }
  }

  /** Text that starts with white space and a key, as all text the upsert puts in does. */
  predicate IsPiece(t: string) {
    !HasTerminator(t) && t != "" && (t[0] == ' ' || t[0] == '\t') && SkipInline(t) != "" && SkipInline(t)[0] != ':'
  }

  lemma GluedParts(l: string, t: string, a: nat, c: nat)
    requires a <= c <= |l|
    ensures (l + t)[a..] == l[a..] + t && (l + t)[c..] == l[c..] + t && (l + t)[..a] == l[..a] &&
            (l + t)[a..c] == l[a..c]
  {
  }

  lemma GluedKindAt(l: string, t: string, n: nat)
    requires n < |l| && IsPiece(t)
    ensures var m := KeyRun(l[n..]);
            KeyRun((l + t)[n..]) == m && n + m <= |l| &&
            var k, g := KindAt(l, n, m), KindAt(l + t, n, m);
            if k.Key? then g.Key? && g.indent == k.indent && g.key == k.key else g.Other?
  {
    hide IsKeyChar, IsInlineSpace, TrimStart, TrimEnd, StripScalar, HasTerminator, SkipInline, KeyRun;
    var m := KeyRun(l[n..]);
    CharClasses();
    GluedParts(l, t, n, n + m);
    GluedKeyRun(l[n..], t);
    GluedSkip(l[n + m..], t);
    var u := SkipInline(l[n + m..]);
    if u != "" {
      assert (u + t)[0] == u[0];
      assert (u + t)[1..] == u[1..] + t;
      NoTerminatorIn(u[1..], t);
    }
  }

  /** The same key at the same indent, or no key line as before. */
  predicate IsSameKind(k: Kind, g: Kind) {
    if k.Key? then g.Key? && g.indent == k.indent && g.key == k.key else k.Other? && g.Other?
  }

  /** A line of the block as before, and at the same indent if it is a key line twice. */
  predicate IsSameLine(k: Kind, g: Kind) {
    (g.Key? || g.Other?) && (k.Key? && g.Key? ==> g.indent == k.indent)
  }

  lemma GluedLine(l: string, t: string)
    requires KindOf(l).Key? || KindOf(l).Other?
    ensures IsSameLine(KindOf(l), KindOf(l + t))
  {
    hide KeyRun, SkipInline, HasTerminator, StripScalar, TrimStart, TrimEnd;
    GluedBlank(l, t);
    if IndentRun(l) == |l| { BlankWhenAllRun(l); }
    GluedIndent(l, t);
    assert (l + t)[0] == l[0];
    assert (l + t)[..IndentRun(l)] == l[..IndentRun(l)];
  }

  /** Gluing such text to a line leaves it the kind of line it was, with the same key. */
  lemma GluedKind(l: string, t: string)
    requires (KindOf(l).Key? || KindOf(l).Other?) && IsPiece(t)
    ensures IsSameKind(KindOf(l), KindOf(l + t))
  {
    hide KindAt, TrimStart, IsPiece;
    GluedBlank(l, t);
    if IndentRun(l) == |l| { BlankWhenAllRun(l); }
    assert IndentRun(l) < |l|;
    GluedIndent(l, t);
    assert (l + t)[0] == l[0];
    GluedKindAt(l, t, IndentRun(l));
  }

  lemma PieceShape(run: string, x: string)
    requires IsIndent(run) && x != "" && IsKeyChar(x[0]) && !HasTerminator(x)
    ensures IsPiece(run + x)
  {
    hide IsKeyChar, IsInlineSpace;
    assert !IsInlineSpace(x[0]) && x[0] != ':' && IsInlineSpace(' ') && IsInlineSpace('\t') by { InlineChars(x[0]); }
    SkipInlineOf(run, x);
    IndentHasNone(run);
    NoTerminatorIn(run, x);
  }

  lemma InlineChars(c: char)
    ensures IsKeyChar(c) ==> !IsInlineSpace(c) && c != ':'
    ensures IsInlineSpace(' ') && IsInlineSpace('\t')
  {
  }

  lemma IndentHasNone(run: string)
    requires IsIndent(run)
    ensures !HasTerminator(run)
  {
  }

  lemma FieldPiece(indent: string, key: string, value: string)
    requires IsIndent(indent) && IsKey(key) && !HasTerminator(value)
    ensures IsPiece(indent + (key + ": " + Quote(value)))
  {
    hide Quote, IsPiece, IsKeyChar, HasTerminator;
    KeyHasNone(key);
    QuoteKeepsOneLine(value);
    ColonHasNone();
    NoTerminatorIn(key, ": ");
    NoTerminatorIn(key + ": ", Quote(value));
    PieceShape(indent, key + ": " + Quote(value));
  }

  lemma ColonHasNone()
    ensures !HasTerminator(": ") && !HasTerminator(":")
  {
  }

  lemma SlugPiece(indent: string, slug: string)
    requires IsIndent(indent) && IsKey(slug)
    ensures IsPiece(indent + (slug + ":"))
  {
    hide IsPiece, IsKeyChar, HasTerminator;
    KeyHasNone(slug);
    ColonHasNone();
    NoTerminatorIn(slug, ":");
    PieceShape(indent, slug + ":");
  }

  /** The lines of the text when `more` is glued to the last line, which does not end. */
  function Glued(lines: seq<string>, more: seq<string>): seq<string>
    requires lines != [] && more != []
  {
    lines[..|lines| - 1] + [lines[|lines| - 1] + more[0]] + more[1..]
  }

  /** A text that a line feed can follow. */
  predicate IsBody(t: string) {
    t != "" && '\n' !in t && t[|t| - 1] != '\r'
  }

  /** The first of the lines that are put in. */
  ghost predicate StartsWithBody(more: seq<string>) {
    more != [] && |more[0]| > 1 && more[0][|more[0]| - 1] == '\n' && IsBody(more[0][..|more[0]| - 1])
  }

  ghost predicate StartsWithPiece(more: seq<string>) {
    StartsWithBody(more) && IsPiece(more[0][..|more[0]| - 1])
  }

  lemma GluedLines(lines: seq<string>, more: seq<string>)
    requires lines != [] && AreRows(lines) && !IsLine(lines[|lines| - 1]) && AreLines(more) && StartsWithBody(more)
    ensures AreRows(Glued(lines, more)) && Concat(Glued(lines, more)) == Concat(lines + more)
    ensures Chomp(lines[|lines| - 1]) == lines[|lines| - 1] &&
            Chomp(lines[|lines| - 1] + more[0]) == lines[|lines| - 1] + more[0][..|more[0]| - 1]
  {
    hide IsBody, Concat, IsLine, IsRow, Chomp;
    var l := lines[|lines| - 1];
    GluedEnds(l, more[0]);
    GluedConcat(lines, more);
    LinesAreRows(more);
    var glued := Glued(lines, more);
    forall r | 0 <= r < |glued| ensures IsRow(glued[r]) && (r + 1 < |glued| ==> IsLine(glued[r])) {
      var k := |lines| - 1;
      assert glued[r] == if r < k then lines[r] else if r == k then l + more[0] else more[r - k];
      if r > k { assert more[r - k] in more; }
    }
  }

  lemma GluedEnds(l: string, first: string)
    requires IsRow(l) && !IsLine(l) && |first| > 1 && first[|first| - 1] == '\n' && IsBody(first[..|first| - 1])
    ensures Chomp(l) == l && Chomp(l + first) == l + first[..|first| - 1] && IsLine(l + first) && IsRow(l + first)
  {
    var t := first[..|first| - 1];
    assert '\n' !in l by { assert l == l[..|l| - 1] + [l[|l| - 1]]; }
    assert first == t + "\n" && l + first == (l + t) + "\n";
    ChompLine(l + t);
    assert (l + first)[..|l + first| - 1] == l + t;
  }

  lemma GluedConcat(lines: seq<string>, more: seq<string>)
    requires lines != [] && more != []
    ensures Concat(Glued(lines, more)) == Concat(lines + more)
  {
    hide Concat;
    var init, l, first, rest := lines[..|lines| - 1], lines[|lines| - 1], more[0], more[1..];
    assert lines == init + [l] && more == [first] + rest;
    ConcatThree(init, [l + first], rest);
    ConcatOne(l + first);
    ConcatSplit(lines, more);
    ConcatSplit(init, [l]);
    ConcatOne(l);
    ConcatSplit([first], rest);
    ConcatOne(first);
    FourTexts(Concat(init), l, first, Concat(rest));
  }

  lemma FourTexts(a: string, l: string, first: string, rest: string)
    ensures a + (l + first) + rest == (a + l) + (first + rest)
  {
  }

  lemma PieceEnds(t: string)
    requires IsPiece(t)
    ensures IsBody(t)
  {
    hide SkipInline;
    NoBreakIn(t);
  }

  // ---------------------------------------------------------------- a new entry

  lemma StepSameShape(b: Block, k: Kind, g: Kind, row: nat)
    requires IsSameKind(k, g)
    ensures var c, d := Step(b, k, row), Step(b, g, row);
            |d.entries| == |c.entries| && d.childIndent == c.childIndent &&
            forall j :: 0 <= j < |c.entries| ==> d.entries[j].slug == c.entries[j].slug
  {
  }

  lemma {:induction false} FieldsAddNothing(b: Block, ks: seq<Kind>, row: nat, indent: string)
    requires b.entries != [] && |indent| > |b.childIndent| && b.childIndent != "" &&
             forall i :: 0 <= i < |ks| ==> ks[i].Key? && ks[i].indent == indent
    ensures |Scan(b, ks, row).entries| == |b.entries|
    decreases |ks|
  {
    hide InEntry;
    if ks != [] {
      assert ks[0].Key? && ks[0].indent == indent;
      FieldsAddNothing(Step(b, ks[0], row), ks[1..], row + 1, indent);
    }
  }

  lemma {:induction false} FieldsBecomeEntries(b: Block, ks: seq<Kind>, row: nat, indent: string)
    requires (b.childIndent == "" && b.entries == []) || b.childIndent == indent
    requires forall i :: 0 <= i < |ks| ==> ks[i].Key? && ks[i].indent == indent
    ensures |Scan(b, ks, row).entries| == |b.entries| + |ks|
    decreases |ks|
  {
    if ks != [] {
      assert ks[0].Key? && ks[0].indent == indent;
      FieldsBecomeEntries(Step(b, ks[0], row), ks[1..], row + 1, indent);
    }
  }

  /** The last line of a block that reaches the end is no blank one. */
  lemma LastCounts(ks: seq<Kind>)
    requires ks != [] && BlockOf(ks).bodyEnd == |ks|
    ensures HasNoTop(ks) && !LastKind(ks).Blank? && BlockOf(ks) == Step(BlockOf(ks[..|ks| - 1]), LastKind(ks), |ks| - 1)
  {
    hide Step;
    BlockUpToEnd(ks);
    assert ks[..|ks|] == ks;
    var k := |ks| - 1;
    assert HasNoTop(ks[..k]) && !ks[k].Top?;
    ScanConcat(EMPTY_BLOCK, ks[..k], [ks[k]], 0);
    assert ks == ks[..k] + [ks[k]] && [ks[k]][1..] == [];
    assert Scan(BlockOf(ks[..k]), [ks[k]], k) == Step(BlockOf(ks[..k]), ks[k], k);
    BlockInside(ks[..k]);
    if ks[k].Blank? { BlankStep(BlockOf(ks[..k]), k); }
  }

  function LastKind(ks: seq<Kind>): Kind
    requires ks != []
  {
    ks[|ks| - 1]
  }

  lemma BlankStep(b: Block, row: nat)
    ensures Step(b, Blank, row) == b
  {
  }

  /** What the scan makes of a text glued to the last line of a block, and of the lines behind it. */
  lemma GluedScan(lines: seq<string>, more: seq<string>)
    requires lines != [] && AreRows(lines) && !IsLine(lines[|lines| - 1]) && AreLines(more) && StartsWithBody(more)
    requires BlockOf(KindsOf(lines)).bodyEnd == |lines| && HasNoTop(KindsOf(more[1..]))
    ensures var k := |lines| - 1;
            var ks, rest := KindsOf(lines), KindsOf(more[1..]);
            var t := more[0][..|more[0]| - 1];
            var g := KindOf(lines[k] + t);
            var b0 := BlockOf(ks[..k]);
            ks[k] == KindOf(lines[k]) && (ks[k].Key? || ks[k].Other?) && IsSameLine(ks[k], g) &&
            (IsPiece(t) ==> IsSameKind(ks[k], g)) &&
            BlockOf(ks) == Step(b0, ks[k], k) &&
            BlockOf(KindsOf(Glued(lines, more))) == Scan(Step(b0, g, k), rest, k + 1)
  {
    hide KindOf, Chomp, Step, IsRow, IsLine, IsPiece, IsBody, Scan;
    var k := |lines| - 1;
    var ks, rest := KindsOf(lines), KindsOf(more[1..]);
    GluedLines(lines, more);
    LastCounts(ks);
    var t := more[0][..|more[0]| - 1];
    assert ks[k] == KindOf(lines[k]);
    GluedLine(lines[k], t);
    if IsPiece(t) { GluedKind(lines[k], t); }
    var g := KindOf(lines[k] + t);
    var glued := Glued(lines, more);
    assert KindsOf(glued) == ks[..k] + ([g] + rest);
    ScanConcat(EMPTY_BLOCK, ks[..k], [g] + rest, 0);
    ScanConcat(BlockOf(ks[..k]), [g], rest, k);
    OneScan(BlockOf(ks[..k]), g, k);
  }

  lemma OneScan(b: Block, k: Kind, row: nat)
    requires !k.Top?
    ensures Scan(b, [k], row) == Step(b, k, row)
  {
    hide Step;
    assert [k][1..] == [];
  }

  lemma RestOfEntry(indent: string, e: Input)
    requires IsStorable(e) && IsIndent(indent)
    ensures var more := EntryLines(indent, e);
            var rest := KindsOf(more[1..]);
            AreLines(more) && StartsWithPiece(more) && 2 <= |rest| && HasNoTop(rest) &&
            forall i :: 0 <= i < |rest| ==> rest[i].Key? && rest[i].indent == indent + "  "
  {
    hide KindOf, Chomp, Quote, FieldLine, IsLine, IsPiece, IsPlain, IsKey;
    EntryLineKinds(indent, e);
    SlugPiece(indent, e.slug);
    PieceEnds(indent + (e.slug + ":"));
    var more := EntryLines(indent, e);
    var ks := KindsOf(more);
    assert more[0][..|more[0]| - 1] == indent + (e.slug + ":");
    forall i | 0 <= i < |KindsOf(more[1..])| ensures KindsOf(more[1..])[i] == ks[i + 1] {}
  }

  /** An entry glued to the last line is not listed as one more. */
  lemma GluedAppendCount(lines: seq<string>, e: Input)
    requires AreRows(lines) && IsStorable(e) && !BodyLinesEnd(lines)
    ensures var b := BlockOf(KindsOf(lines));
            b.bodyEnd == |lines| > 0 && AreRows(Glued(lines, EntryLines(ChildIndent(b), e))) &&
            Concat(Glued(lines, EntryLines(ChildIndent(b), e))) == Concat(AppendedLines(lines, e)) &&
            |BlockOf(KindsOf(Glued(lines, EntryLines(ChildIndent(b), e)))).entries| != |b.entries| + 1
  {
    hide KindOf, KindsOf, EntryLines, IsStorable, Scan, Step, IsLine, IsRow, IsIndent, IsPiece, HasNoTop, Glued;
    var ks := KindsOf(lines);
    var b := BlockOf(ks);
    var indent := ChildIndent(b);
    var more := EntryLines(indent, e);
    BlockInside(ks);
    ChildIsIndent(lines);
    RestOfEntry(indent, e);
    assert b.bodyEnd == |lines| by { BodyAtEnd(lines); }
    GluedLines(lines, more);
    GluedScan(lines, more);
    assert AppendedLines(lines, e) == lines + more;
    var k := |lines| - 1;
    var g := KindOf(lines[k] + more[0][..|more[0]| - 1]);
    var b0, rest := BlockOf(ks[..k]), KindsOf(more[1..]);
    StepSameShape(b0, ks[k], g, k);
    KindsAreIndented(lines);
    BlockFits(ks);
    var c := Step(b0, g, k);
    if b.childIndent == "" {
      FieldsBecomeEntries(c, rest, k + 1, indent + "  ");
    } else {
      FieldsAddNothing(c, rest, k + 1, indent + "  ");
    }
  }

  lemma BodyAtEnd(lines: seq<string>)
    requires AreRows(lines) && !BodyLinesEnd(lines)
    ensures BlockOf(KindsOf(lines)).bodyEnd == |lines| > 0 && !IsLine(lines[|lines| - 1])
  {
    hide Scan, KindsOf, IsRow, IsLine;
    BlockInside(KindsOf(lines));
  }

  /**
   * Get after put for an entry that was not there, exactly: it is listed last and nothing else changes, if and
   * only if its texts hold no line terminator, its slug is a key, and the body's last line ends with a line feed.
   */
  lemma GetAfterAppendIff(content: string, input: Input)
    requires BodyStart(content).Some? && Stored(input).Some?
    requires Locate(ViewsIn(content), input.keyEnv, Stored(input).value.slug) == |ViewsIn(content)|
    ensures var e := Stored(input).value;
            List(UpsertText(content, input)) == List(content) + [UserProvider(e.slug, e.name, e.baseUrl, e.keyEnv)] <==>
            IsPlain(e) && IsKey(e.slug) && BodyIsClosed(content)
  {
    hide ViewsIn, UpsertText, Stored, Locate, BodyStart, LinesOf, KindsOf, BlockOf, BodyLinesEnd, IsKey, HasTerminator,
         Glued, IsRow, Concat, FieldLine;
    var e := Stored(input).value;
    StoredIsSet(input);
    var p := UserProvider(e.slug, e.name, e.baseUrl, e.keyEnv);
    var after := UpsertText(content, input);
    if !(IsPlain(e) && IsKey(e.slug)) {
      ListingIsListable(after);
      assert !IsListable(p);
      assert p in List(content) + [p];
    } else if BodyIsClosed(content) {
      GetAfterAppend(content, input);
    } else {
      Decomposed(content);
      var n := BodyStart(content).value;
      var lines := LinesOf(content[n..]);
      GluedAppendCount(lines, e);
      AppendedAnyway(content, input);
      Recomposed(content[..n], Glued(lines, EntryLines(ChildIndent(BlockOf(KindsOf(lines))), e)));
      assert |List(after)| != |List(content)| + 1;
    }
  }

  lemma AppendedAnyway(content: string, input: Input)
    requires BodyStart(content).Some? && Stored(input).Some?
    requires Locate(ViewsIn(content), input.keyEnv, Stored(input).value.slug) == |ViewsIn(content)|
    ensures var n, e := BodyStart(content).value, Stored(input).value;
            UpsertText(content, input) == content[..n] + Concat(AppendedLines(LinesOf(content[n..]), e))
  {
    hide KindsOf, LinesOf, BodyStart, Splice, EntryLines, Stored, Locate, BlockOf, Concat, Offset, UpsertText, IsRow;
    var n, e := BodyStart(content).value, Stored(input).value;
    Decomposed(content);
    var lines := LinesOf(content[n..]);
    var b := BlockOf(KindsOf(lines));
    UpsertIsAppended(content, input);
    SpliceRows(content[..n], lines, b.bodyEnd, b.bodyEnd, EntryLines(ChildIndent(b), e));
  }

  // ---------------------------------------------------------------- an entry that is there

  lemma {:induction false} SortOfEqual(es: seq<Edit>, base: nat, lines: seq<string>, at: nat)
    requires RowsInside(es, lines) && forall x :: x in es ==> StartOf(base, lines, x) == at
    ensures SortEdits(es, base, lines) == es
    decreases |es|
  {
    hide StartOf;
    if es != [] {
      var n := |es| - 1;
      assert forall x :: x in es[..n] ==> x in es;
      SortOfEqual(es[..n], base, lines, at);
      assert es[n] in es;
      PlaceBehind(es[n], es[..n], base, lines, at);
      assert es == es[..n] + [es[n]];
    }
  }

  lemma {:induction false} PlaceBehind(e: Edit, sorted: seq<Edit>, base: nat, lines: seq<string>, at: nat)
    requires e.row <= |lines| && RowsInside(sorted, lines) && StartOf(base, lines, e) == at &&
             forall x :: x in sorted ==> StartOf(base, lines, x) == at
    ensures PlaceEdit(e, sorted, base, lines) == sorted + [e]
    decreases |sorted|
  {
    hide StartOf;
    if sorted != [] {
      assert sorted[0] in sorted && forall x :: x in sorted[1..] ==> x in sorted;
      PlaceBehind(e, sorted[1..], base, lines, at);
      assert sorted + [e] == [sorted[0]] + (sorted[1..] + [e]);
    }
  }

  /** The lines put in behind a header line, in the order in which they come to stand. */
  function NewLines(indent: string, e: Input): (r: seq<string>)
    ensures |r| >= 2
  {
    (if e.keyEnv == "" then [] else [FieldLine(indent, "key_env", e.keyEnv)]) +
    [FieldLine(indent, "base_url", e.baseUrl), FieldLine(indent, "name", e.name)]
  }

  function NewEdits(row: nat, indent: string, e: Input): seq<Edit> {
    [Insert("name", row, indent, e.name), Insert("base_url", row, indent, e.baseUrl)] +
    (if e.keyEnv == "" then [] else [Insert("key_env", row, indent, e.keyEnv)])
  }

  lemma NoFieldsEdits(entry: Entry, indent: string, e: Input)
    requires entry.fields == map[]
    ensures EditsOf(entry, indent, Wanted(entry.fields, e)) == NewEdits(entry.row + 1, indent, e)
  {
    var wanted := Wanted(entry.fields, e);
    var rest := wanted[1..][1..];
    assert rest == if e.keyEnv == "" then [] else [("key_env", e.keyEnv)];
    if rest != [] { assert rest[1..] == []; }
    assert EditsOf(entry, indent, rest) ==
             if e.keyEnv == "" then [] else [Insert("key_env", entry.row + 1, indent, e.keyEnv)];
    assert EditsOf(entry, indent, wanted[1..]) ==
             [Insert("base_url", entry.row + 1, indent, e.baseUrl)] + EditsOf(entry, indent, rest);
    assert EditsOf(entry, indent, wanted) ==
             [Insert("name", entry.row + 1, indent, e.name)] + EditsOf(entry, indent, wanted[1..]);
  }

  /** Lines put in one after the other at the same place come to stand in reverse. */
  function Reversed(es: seq<Edit>): seq<string>
    requires forall x :: x in es ==> x.Insert?
  {
    if es == [] then []
    else
      assert es[0] in es;
      Reversed(es[1..]) + [FieldLine(es[0].indent, es[0].key, es[0].value)]
  }

  lemma {:induction false} InsertedAtEnd(cur: seq<string>, es: seq<Edit>, lines: seq<string>)
    requires (forall x :: x in es ==> x.Insert? && x.row == |lines|) && Descends(es, lines, |lines|)
    requires |lines| <= |cur| && cur[..|lines|] == lines
    ensures cur[..|lines|] == lines[..|lines|] &&
            ApplyEdits(cur, es, lines, |lines|) == lines + Reversed(es) + cur[|lines|..]
    decreases |es|
  {
    hide FieldLine;
    assert lines[..|lines|] == lines;
    if es == [] {
      assert cur == lines + [] + cur[|lines|..];
    } else {
      assert es[0] in es;
      EditStillFits(cur, es[0], lines, |lines|);
      var line, tail := FieldLine(es[0].indent, es[0].key, es[0].value), cur[|lines|..];
      var next := ApplyEdit(cur, es[0]);
      assert next == lines + [line] + tail && next[|lines|..] == [line] + tail;
      InsertedAtEnd(next, es[1..], lines);
    }
  }

  lemma NewEditsApplied(lines: seq<string>, indent: string, e: Input)
    requires Descends(NewEdits(|lines|, indent, e), lines, |lines|)
    ensures lines[..|lines|] == lines &&
            ApplyEdits(lines, NewEdits(|lines|, indent, e), lines, |lines|) == lines + NewLines(indent, e)
  {
    hide FieldLine, ApplyEdits, Descends, NewEdits, NewLines, Reversed;
    var es := NewEdits(|lines|, indent, e);
    NewAreInserts(|lines|, indent, e);
    InsertedAtEnd(lines, es, lines);
    NewReversed(|lines|, indent, e);
    assert lines + NewLines(indent, e) + lines[|lines|..] == lines + NewLines(indent, e);
  }

  lemma NewAreInserts(row: nat, indent: string, e: Input)
    ensures forall x :: x in NewEdits(row, indent, e) ==> x.Insert? && x.row == row
  {
  }

  lemma NewReversed(row: nat, indent: string, e: Input)
    ensures Reversed(NewEdits(row, indent, e)) == NewLines(indent, e)
  {
    hide FieldLine;
    var es := NewEdits(row, indent, e);
    var rest := es[1..][1..];
    if e.keyEnv == "" {
      assert rest == [];
    } else {
      assert rest == [es[2]] && rest[1..] == [];
      assert Reversed(rest) == [FieldLine(indent, "key_env", e.keyEnv)];
    }
    assert Reversed(es[1..]) == Reversed(rest) + [FieldLine(indent, "base_url", e.baseUrl)];
    assert Reversed(es) == Reversed(es[1..]) + [FieldLine(indent, "name", e.name)];
  }

  lemma NewLinesKinds(indent: string, e: Input)
    requires IsPlain(e) && IsIndent(indent)
    ensures var more := NewLines(indent, e);
            var rest := KindsOf(more[1..]);
            AreLines(more) && StartsWithPiece(more) && HasNoTop(rest) &&
            |rest| == (if e.keyEnv == "" then 1 else 2) && IsKeyOf(rest[|rest| - 1], indent, "name", e.name) &&
            (e.keyEnv != "" ==> IsKeyOf(rest[0], indent, "base_url", e.baseUrl))
  {
    hide KindOf, Chomp, Quote, FieldLine, IsLine, IsPiece, HasTerminator, IsKey, IsIndent;
    KeysAreKeys();
    FieldLineKind(indent, "name", e.name);
    FieldLineKind(indent, "base_url", e.baseUrl);
    FieldLineKind(indent, "key_env", e.keyEnv);
    FieldPiece(indent, "base_url", e.baseUrl);
    FieldPiece(indent, "key_env", e.keyEnv);
    PieceEnds(indent + ("base_url" + ": " + Quote(e.baseUrl)));
    PieceEnds(indent + ("key_env" + ": " + Quote(e.keyEnv)));
    var more := NewLines(indent, e);
    FieldLineIs(indent, "base_url", e.baseUrl);
    FieldLineIs(indent, "key_env", e.keyEnv);
    assert more[0] == if e.keyEnv == "" then FieldLine(indent, "base_url", e.baseUrl)
           else FieldLine(indent, "key_env", e.keyEnv);
    assert forall l :: l in more ==> IsLine(l);
  }

  lemma FieldLineIs(indent: string, key: string, value: string)
    ensures var l := FieldLine(indent, key, value);
            |l| > 1 && l[|l| - 1] == '\n' && l[..|l| - 1] == indent + (key + ": " + Quote(value))
  {
    hide Quote;
  }

  /** An entry whose header line is the last one: it has no fields, and the block is what the header left. */
  lemma LastHeader(ks: seq<Kind>, i: nat)
    requires AreIndented(ks) && i < |BlockOf(ks).entries| && BlockOf(ks).entries[i].row + 1 == |ks|
    ensures var b, h := BlockOf(ks), |ks| - 1;
            HasNoTop(ks) && b.bodyEnd == |ks| && |b.entries| == i + 1 && b.childIndent != "" && ks[h].Key? &&
            b.entries[i] == Entry(ks[h].key, h, h + 1, "", map[]) && b == Step(BlockOf(ks[..h]), ks[h], h)
  {
    hide Step;
    var h := |ks| - 1;
    EntryBegins(EMPTY_BLOCK, ks, 0, i);
    assert ks[..h + 1] == ks;
    LastCounts(ks);
  }

  lemma SameHeader(b: Block, k: Kind, g: Kind, row: nat, i: nat)
    requires k.Key? && g.Key? && g.indent == k.indent && g.key == k.key
    requires var c := Step(b, k, row); |c.entries| == i + 1 && c.entries[i].fieldIndent == ""
    requires k.indent != ""
    ensures Step(b, g, row) == Step(b, k, row)
  {
  }

  /** What is left of the fields when the first of the new lines is glued to the header. */
  function GluedFields(e: Input): map<string, string> {
    if e.keyEnv == "" then map["name" := e.name] else map["base_url" := e.baseUrl, "name" := e.name]
  }

  lemma GluedUpdateViews(lines: seq<string>, i: nat, e: Input)
    requires AreRows(lines) && IsPlain(e) && i < |BlockOf(KindsOf(lines)).entries|
    requires BlockOf(KindsOf(lines)).entries[i].row + 1 == |lines| && !IsLine(lines[|lines| - 1])
    ensures var b := BlockOf(KindsOf(lines));
            var more := NewLines(NewFieldIndent(b, b.entries[i]), e);
            var c := BlockOf(KindsOf(Glued(lines, more)));
            AreRows(Glued(lines, more)) && Concat(Glued(lines, more)) == Concat(lines + more) &&
            |c.entries| == |b.entries| == i + 1 && c.entries[..i] == b.entries[..i] &&
            c.entries[i].slug == b.entries[i].slug && b.entries[i].fields == map[] &&
            Values(c.entries[i].fields) == GluedFields(e)
  {
    hide KindOf, KindsOf, Step, Scan, IsLine, IsRow, IsIndent, IsPiece, HasNoTop, Glued, NewLines, Values,
         HasTerminator, Concat;
    var ks := KindsOf(lines);
    var b, h := BlockOf(ks), |lines| - 1;
    KindsAreIndented(lines);
    LastHeader(ks, i);
    BlockFits(ks);
    NewIndentIsDeep(b, ks, i);
    var indent := NewFieldIndent(b, b.entries[i]);
    var more := NewLines(indent, e);
    NewLinesKinds(indent, e);
    GluedLines(lines, more);
    GluedScan(lines, more);
    var g, rest := KindOf(lines[h] + more[0][..|more[0]| - 1]), KindsOf(more[1..]);
    assert ks[h].indent != "" by { IndentsAreSomething(); assert IsIndent(ks[h].indent); }
    SameHeader(BlockOf(ks[..h]), ks[h], g, h, i);
    NoValues();
    FieldStep(b, rest[0], h + 1, indent);
    var c1 := Step(b, rest[0], h + 1);
    if e.keyEnv == "" {
      assert rest == [rest[0]];
      OneScan(b, rest[0], h + 1);
    } else {
      FieldStep(c1, rest[1], h + 2, indent);
      assert rest == [rest[0]] + [rest[1]];
      ScanConcat(b, [rest[0]], [rest[1]], h + 1) by { assert HasNoTop([rest[0]]) by { OneIsNoTop(rest[0]); } }
      OneScan(b, rest[0], h + 1);
      OneScan(c1, rest[1], h + 2);
    }
  }

  lemma OneIsNoTop(k: Kind)
    requires !k.Top?
    ensures HasNoTop([k])
  {
  }

  lemma GluedShows(e: Input, slug: string, p: UserProvider)
    requires e.name != "" && e.baseUrl != ""
    ensures ProviderOf(View(slug, GluedFields(e))) != Updated(p, e)
  {
    KeysAreKeys();
  }

  lemma GluedUpdate(content: string, input: Input)
    requires BodyStart(content).Some? && Stored(input).Some? && IsPlain(Stored(input).value)
    requires Locate(ViewsIn(content), input.keyEnv, Stored(input).value.slug) < |ViewsIn(content)|
    requires !HeaderIsClosed(content, Locate(ViewsIn(content), input.keyEnv, Stored(input).value.slug))
    ensures var i := Locate(ViewsIn(content), input.keyEnv, Stored(input).value.slug);
            var views := ViewsIn(content);
            views[i].fields == map[] &&
            ViewsIn(UpsertText(content, input)) == views[i := View(views[i].slug, GluedFields(Stored(input).value))]
  {
    hide KindsOf, LinesOf, BlockOf, BodyStart, Stored, Locate, UpsertText, IsRow, IsLine, HasTerminator, Glued,
         NewLines, Concat, SortEdits, NewEdits, UpsertEdits;
    hide NewFieldIndent, Wanted, PutAll, SetWanted, WellPlaced, Descends, ApplyEdits, Values, GluedFields;
    var n, e := BodyStart(content).value, Stored(input).value;
    var i := Locate(ViewsIn(content), input.keyEnv, e.slug);
    Decomposed(content);
    var lines := LinesOf(content[n..]);
    var b := BlockOf(KindsOf(lines));
    UpsertEditsLines(content, input);
    LastWithoutEnd(lines, i);
    var indent := NewFieldIndent(b, b.entries[i]);
    KindsAreIndented(lines);
    LastHeader(KindsOf(lines), i);
    UpsertIsOrdered(lines, i, e, n);
    EditsOfHeader(lines, i, e, n);
    NewEditsApplied(lines, indent, e);
    assert UpdatedLines(lines, i, e, n) == lines + NewLines(indent, e);
    GluedUpdateViews(lines, i, e);
    Recomposed(content[..n], Glued(lines, NewLines(indent, e)));
    NoValues();
    LastViewIs(b.entries, BlockOf(KindsOf(Glued(lines, NewLines(indent, e)))).entries, i);
  }

  lemma LastViewIs(a: seq<Entry>, c: seq<Entry>, i: nat)
    requires |a| == |c| == i + 1 && a[..i] == c[..i] && a[i].slug == c[i].slug
    ensures Views(c) == Views(a)[i := View(a[i].slug, Values(c[i].fields))]
  {
    hide Values;
    forall j | 0 <= j < i ensures a[j] == c[j] { assert a[..i][j] == c[..i][j]; }
  }

  lemma EditsOfHeader(lines: seq<string>, i: nat, e: Input, base: nat)
    requires i < |BlockOf(KindsOf(lines)).entries|
    requires var entry := BlockOf(KindsOf(lines)).entries[i]; entry.row + 1 == |lines| && entry.fields == map[]
    ensures var b := BlockOf(KindsOf(lines));
            var es := NewEdits(|lines|, NewFieldIndent(b, b.entries[i]), e);
            UpsertEdits(b, i, e) == es && RowsInside(es, lines) && SortEdits(es, base, lines) == es
  {
    hide KindsOf, BlockOf, SortEdits, EditsOf, Offset, FieldLine, NewFieldIndent;
    var b := BlockOf(KindsOf(lines));
    var indent := NewFieldIndent(b, b.entries[i]);
    NoFieldsEdits(b.entries[i], indent, e);
    var es := NewEdits(|lines|, indent, e);
    SortOfEqual(es, base, lines, base + Offset(lines, |lines|));
  }

  lemma LastWithoutEnd(lines: seq<string>, i: nat)
    requires AreRows(lines) && i < |BlockOf(KindsOf(lines)).entries|
    requires var h := BlockOf(KindsOf(lines)).entries[i].row; h < |lines| ==> !IsLine(lines[h])
    ensures BlockOf(KindsOf(lines)).entries[i].row + 1 == |lines| && !IsLine(lines[|lines| - 1])
  {
    hide KindsOf, Scan, IsRow, IsLine;
    BlockInside(KindsOf(lines));
    assert BlockOf(KindsOf(lines)).entries[i] in BlockOf(KindsOf(lines)).entries;
  }

  /**
   * Get after put for an entry that is there, exactly: the listing shows the new name, URL and key in its place,
   * under whichever alias it uses, and every other entry as before, if and only if the values hold no line
   * terminator and the entry's header line ends with a line feed.
   */
  lemma GetAfterUpdateIff(content: string, input: Input)
    requires BodyStart(content).Some? && Stored(input).Some?
    requires Locate(ViewsIn(content), input.keyEnv, Stored(input).value.slug) < |ViewsIn(content)|
    ensures var i := Locate(ViewsIn(content), input.keyEnv, Stored(input).value.slug);
            List(UpsertText(content, input)) == List(content)[i := Updated(List(content)[i], Stored(input).value)] <==>
            IsPlain(Stored(input).value) && HeaderIsClosed(content, i)
  {
    hide ViewsIn, UpsertText, Stored, Locate, BodyStart, HeaderIsClosed, IsKey, HasTerminator, ProviderOf, GluedFields;
    var e, i := Stored(input).value, Locate(ViewsIn(content), input.keyEnv, Stored(input).value.slug);
    StoredIsSet(input);
    var after := UpsertText(content, input);
    var p := Updated(List(content)[i], e);
    if !IsPlain(e) {
      ListingIsListable(after);
      assert e.keyEnv == "" ==> !HasTerminator(e.keyEnv) by { NothingIsPlain(); }
      assert !IsListable(p);
      assert List(content)[i := p][i] == p;
    } else if HeaderIsClosed(content, i) {
      GetAfterUpdate(content, input);
    } else {
      GluedUpdate(content, input);
      GluedShows(e, ViewsIn(after)[i].slug, List(content)[i]);
      assert List(after)[i] == ProviderOf(ViewsIn(after)[i]);
      assert ViewsIn(after)[i] == View(ViewsIn(after)[i].slug, GluedFields(e));
    }
  }

  // ---------------------------------------------------------------- the failing sides at some files

  lemma HeadAlone()
    ensures IsHead(PROVIDERS + ":\n")
  {
    hide IsHead;
    assert HasNoHeader("") && Ends("");
    FreshHead("");
    assert "" + (PROVIDERS + ":\n") == PROVIDERS + ":\n";
  }

  /** A file that ends in the header of an entry: the URL put in behind it is lost. */
  lemma OpenHeaderLosesUrl(input: Input)
    requires input == Input("a", "n", "u", "")
    ensures var content := PROVIDERS + ":\n" + Concat(["  a:"]);
            BodyStart(content).Some? && Stored(input) == Some(input) &&
            Locate(ViewsIn(content), "", "a") == 0 < |ViewsIn(content)| &&
            !HeaderIsClosed(content, 0)
  {
    hide BodyStart, LinesOf, KindsOf, Concat, IsHead, IsKeyChar, IsSpace, Views;
    var lines := ["  a:"];
    var content := PROVIDERS + ":\n" + Concat(lines);
    HeadAlone();
    assert AreRows(lines) && !IsLine(lines[0]);
    Recomposed(PROVIDERS + ":\n", lines);
    assert IsKeyChar('a') && !IsSpace(EcmaScript, 'a') && !IsSpace(EcmaScript, 'n') && !IsSpace(EcmaScript, 'u') by {
      PlainChars();
    }
    KindOfKey("  ", "a", "", "") by { EmptyScalar(); NothingIsPlain(); }
    EmptyScalar();
    assert KeyHead("  ", "a", "") + "" == "  a:";
    assert Chomp("  a:") == "  a:";
    var k := KindOf("  a:");
    assert KindsOf(lines) == [k] by { OneKind(lines); }
    OneScan(EMPTY_BLOCK, k, 0);
    assert BlockOf([k]).entries == [Entry("a", 0, 1, "", map[])];
    assert ViewsIn(content) == Views([Entry("a", 0, 1, "", map[])]);
    OneLocated();
    TrimIsIdentityOnTight(EcmaScript, "a");
    TrimIsIdentityOnTight(EcmaScript, "n");
    TrimIsIdentityOnTight(EcmaScript, "u");
  }

  lemma PlainChars()
    ensures IsKeyChar('a') && !IsSpace(EcmaScript, 'a') && !IsSpace(EcmaScript, 'n') && !IsSpace(EcmaScript, 'u')
  {
  }

  lemma OneKind(lines: seq<string>)
    requires |lines| == 1
    ensures KindsOf(lines) == [KindOf(Chomp(lines[0]))]
  {
  }

  lemma OneLocated()
    ensures Locate(Views([Entry("a", 0, 1, "", map[])]), "", "a") == 0
  {
    var views := Views([Entry("a", 0, 1, "", map[])]);
    assert views[0].slug == "a";
  }

  /**
   * Three entries, the second less indented than the others: without the first, the third is read as a field of the
   * second.
   */
  lemma RemovalTakesMore()
    ensures var content := PROVIDERS + ":\n" +
              Concat([FieldLine("    ", "a", "1"), FieldLine("  ", "b", "2"), FieldLine("    ", "c", "3")]);
            |ViewsIn(content)| == 3 && Locate(ViewsIn(content), "", Slugify("a")) == 0 &&
            ViewsIn(RemoveText(content, "a", "")) != ViewsIn(content)[1..]
  {
    hide BodyStart, LinesOf, KindsOf, Concat, IsHead, IsLine, IsRow, Views, FieldLine, RemoveText, Scan, Slugify;
    var lines := [FieldLine("    ", "a", "1"), FieldLine("  ", "b", "2"), FieldLine("    ", "c", "3")];
    var content := PROVIDERS + ":\n" + Concat(lines);
    HeadAlone();
    ThreeKinds(lines);
    var ks := KindsOf(lines);
    LinesAreRows(lines);
    Recomposed(PROVIDERS + ":\n", lines);
    ThreeEntries(ks);
    var b := BlockOf(ks);
    SlugOfA();
    assert Locate(Views(b.entries), "", "a") == 0 by { FirstLocated(b.entries); }
    assert !OthersStay(b, ks, 0) by {
      assert LengthAt(ks, b.entries[2].row) == 4 && LengthAt(ks, b.entries[1].row) == 2;
    }
    RemovalLosesOnlyIff(content, "a", "");
    assert ViewsIn(content)[..0] + ViewsIn(content)[1..] == ViewsIn(content)[1..];
  }

  lemma ThreeKinds(lines: seq<string>)
    requires lines == [FieldLine("    ", "a", "1"), FieldLine("  ", "b", "2"), FieldLine("    ", "c", "3")]
    ensures var ks := KindsOf(lines);
            AreLines(lines) && IsKeyOf(ks[0], "    ", "a", "1") && IsKeyOf(ks[1], "  ", "b", "2") &&
            IsKeyOf(ks[2], "    ", "c", "3")
  {
    hide KindOf, FieldLine, IsLine, Chomp;
    assert IsKey("a") && IsKey("b") && IsKey("c") && !HasTerminator("1") && !HasTerminator("2") && !HasTerminator("3");
    FieldLineKind("    ", "a", "1");
    FieldLineKind("  ", "b", "2");
    FieldLineKind("    ", "c", "3");
  }

  lemma ThreeEntries(ks: seq<Kind>)
    requires |ks| == 3 && IsKeyOf(ks[0], "    ", "a", "1") && IsKeyOf(ks[1], "  ", "b", "2") &&
             IsKeyOf(ks[2], "    ", "c", "3")
    ensures BlockOf(ks).entries ==
              [Entry("a", 0, 1, "", map[]), Entry("b", 1, 2, "", map[]), Entry("c", 2, 3, "", map[])]
  {
    hide Step;
    ScanFour(EMPTY_BLOCK, ks, 0);
    var b1 := Step(EMPTY_BLOCK, ks[0], 0);
    EntryStep(EMPTY_BLOCK, ks[0], 0);
    EntryStep(b1, ks[1], 1);
    EntryStep(Step(b1, ks[1], 1), ks[2], 2);
  }

  lemma EntryStep(b: Block, k: Kind, row: nat)
    requires k.Key? && k.indent != "" && (b.childIndent == "" || |k.indent| <= |b.childIndent|)
    ensures var c := Step(b, k, row);
            c.entries == b.entries + [Entry(k.key, row, row + 1, "", map[])] && c.childIndent ==
              if b.childIndent == "" then k.indent else b.childIndent
  {
  }

  lemma FirstLocated(entries: seq<Entry>)
    requires entries != [] && entries[0].slug == "a"
    ensures Locate(Views(entries), "", "a") == 0
  {
    assert Views(entries)[0].slug == "a";
  }

  lemma SlugOfA()
    ensures Slugify("a") == "a"
  {
    assert !IsSpace(EcmaScript, 'a') by { PlainChars(); }
    TrimIsIdentityOnTight(EcmaScript, "a");
    assert Lower("a") == "a";
    assert "a"[1..] == "" && Dashed("", false) == "";
    assert Dashed("a", false) == "a";
  }
}
