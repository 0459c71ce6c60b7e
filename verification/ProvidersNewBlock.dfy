/** Files without a block: when an upsert gives them one that lists the new provider, exactly. */
module ProvidersNewBlock {
  import opened Text
  import opened ConfigScalars
  import opened ConfigBlocks
  import opened Providers
  import opened ProvidersLines
  import opened ProvidersScan
  import opened ProvidersLaws
  import opened ProvidersAppend
  import opened ProvidersRepeat
  import opened ProvidersExact
  import opened ProvidersNoOp

  // ---------------------------------------------------------------- a header does not reach over a line terminator

  /** What stands behind a terminator that is no line feed, where a key line begins. */
  predicate Resumes(c: char, b: string) {
    IsTerminator(c) && c != '\n' && b != "" && b[0] == 'p'
  }

  lemma LetterIsNoSpace()
    ensures !IsInlineSpace('p')
  {
  }

  lemma {:induction false} SkipUpTo(a: string, c: char, b: string) returns (rest: string)
    requires Resumes(c, b) && '\n' !in a
    ensures '\n' !in rest && (SkipInline(a + [c] + b) == b || SkipInline(a + [c] + b) == rest + [c] + b)
  {
    hide IsInlineSpace;
    LetterIsNoSpace();
    var s := a + [c] + b;
    if a == "" {
      rest := "";
      assert s == [c] + b && s[1..] == b && [] + [c] + b == s;
    } else if IsInlineSpace(a[0]) {
      assert s[1..] == a[1..] + [c] + b;
      rest := SkipUpTo(a[1..], c, b);
    } else {
      rest := a;
    }
  }

  lemma {:induction false} CommentStops(a: string, c: char, b: string)
    requires Resumes(c, b) && '\n' !in a
    ensures CommentEndLength(a + [c] + b).None?
  {
    var s := a + [c] + b;
    if a == "" {
      assert s == [c] + b && s[1..] == b;
    } else {
      assert s[1..] == a[1..] + [c] + b && s[0] == a[0];
      if a[0] == '\r' { assert s[1] != '\n' by { if |a| > 1 { assert s[1] == a[1]; } } }
      CommentStops(a[1..], c, b);
    }
  }

  lemma LineEndStops(a: string, c: char, b: string)
    requires Resumes(c, b) && '\n' !in a
    ensures LineEndLength(a + [c] + b).None? && LineEndLength(b).None?
  {
    hide CommentEndLength;
    var s := a + [c] + b;
    CommentStops(a, c, b);
    if a == "" {
      assert s == [c] + b && s[1..] == b;
    } else if a[0] == '\r' {
      assert s[1] != '\n' by { if |a| > 1 { assert s[1] == a[1]; } }
    }
  }

  lemma StartsBefore(a: string, c: char, b: string)
    ensures (a + [c] + b)[0] == if a == "" then c else a[0]
  {
    assert a + [c] + b == a + ([c] + b);
  }

  lemma HeaderTailStops(a: string, c: char, b: string)
    requires Resumes(c, b) && '\n' !in a
    ensures HeaderTail(a + [c] + b).None?
  {
    hide SkipInline, LineEndLength;
    var s := a + [c] + b;
    var t := SkipInline(s);
    var rest := SkipUpTo(a, c, b);
    LineEndStops("", c, b);
    if t != b && t[0] == ':' {
      StartsBefore(rest, c, b);
      assert t[1..] == rest[1..] + [c] + b;
      var more := SkipUpTo(rest[1..], c, b);
      LineEndStops(more, c, b);
    }
  }

  lemma ProvidersHasNoTerminator()
    ensures forall j :: 0 <= j < |PROVIDERS| ==> !IsTerminator(PROVIDERS[j])
  {
  }

  lemma HeaderStops(a: string, c: char, b: string)
    requires Resumes(c, b) && '\n' !in a
    ensures HeaderLength(a + [c] + b, PROVIDERS).None?
  {
    hide HeaderTail;
    var s := a + [c] + b;
    if PROVIDERS <= s {
      assert s[|a|] == c;
      ProvidersHasNoTerminator();
      assert forall j :: 0 <= j < |PROVIDERS| ==> s[j] == PROVIDERS[j];
      assert s[|PROVIDERS|..] == a[|PROVIDERS|..] + [c] + b;
      HeaderTailStops(a[|PROVIDERS|..], c, b);
    }
  }

  /** Whether a line before such a place is a header does not depend on what stands there. */
  lemma HeaderLooksBack(s: string, b: string, d: string)
    requires s != "" && IsTerminator(s[|s| - 1]) && b != "" && b[0] == 'p' && d != "" && d[0] == 'p'
    ensures HeaderLength(s + b, PROVIDERS) == HeaderLength(s + d, PROVIDERS)
  {
    hide HeaderLength;
    ProvidersHasNoBreak();
    if '\n' in s {
      var k :| 0 <= k < |s| && s[k] == '\n';
      var a, z := s[..k + 1], s[k + 1..];
      assert s + b == a + (z + b) && s + d == a + (z + d);
      HeaderBefore(a, z + b, PROVIDERS);
      HeaderBefore(a, z + d, PROVIDERS);
    } else {
      var a, c := s[..|s| - 1], s[|s| - 1];
      assert s + b == a + [c] + b && s + d == a + [c] + d && '\n' !in a;
      HeaderStops(a, c, b);
      HeaderStops(a, c, d);
    }
  }

  // ---------------------------------------------------------------- the first header of the new text

  /** A text that begins at a line start with a key, and another one put there in its place. */
  lemma {:induction false} FirstHeaderUpTo(base: string, b: string, d: string, i: nat)
    requires AtLineStart(base, |base|) && b != "" && b[0] == 'p' && d != "" && d[0] == 'p' && i <= |base|
    requires HeaderLength(d, PROVIDERS).Some?
    ensures var x, y := FirstHeader(base + b, PROVIDERS, i), FirstHeader(base + d, PROVIDERS, i);
            y == if x.Some? && x.value < |base| then x else Some(|base|)
    decreases |base| - i
  {
    hide HeaderLength;
    var p, q := base + b, base + d;
    assert p[i..] == base[i..] + b && q[i..] == base[i..] + d;
    assert AtLineStart(p, i) == AtLineStart(base, i) == AtLineStart(q, i);
    if i == |base| {
      assert q[i..] == d;
    } else {
      assert IsTerminator(base[i..][|base[i..]| - 1]);
      HeaderLooksBack(base[i..], b, d);
      FirstHeaderUpTo(base, b, d, i + 1);
    }
  }

  lemma NewBlockIsHeader(e: Input, tail: string)
    ensures var d := NewBlock(e) + tail; d != "" && d[0] == 'p' && HeaderLength(d, PROVIDERS).Some?
  {
    hide HeaderLength, EntryLines, Concat;
    var s, t := PROVIDERS + ":\n", Concat(EntryLines("  ", e)) + tail;
    PlainHeader();
    ProvidersHasNoBreak();
    HeaderBefore(s, t, PROVIDERS);
    assert NewBlock(e) + tail == s + t;
    assert PROVIDERS[0] == 'p';
  }

  lemma FlowBegins(content: string)
    requires FirstFlow(content, 0).Some?
    ensures var f := FirstFlow(content, 0).value; f < |content| && content[f] == 'p' && AtLineStart(content, f)
  {
    FlowAtLineStart(content, 0);
    assert PROVIDERS[0] == 'p';
  }

  lemma {:induction false} FlowAtLineStart(content: string, i: nat)
    requires i <= |content| && FirstFlow(content, i).Some?
    ensures AtLineStart(content, FirstFlow(content, i).value)
    decreases |content| - i
  {
    hide AfterEmptyFlow;
    if !(AtLineStart(content, i) && AfterEmptyFlow(content[i..]).Some?) { FlowAtLineStart(content, i + 1); }
  }

  /**
   * The files without a block that get one the listing sees: there is no `providers:` at all, or the empty flow form
   * stands behind a line feed or at the start, and no header stands before it.
   */
  predicate TakesBlock(content: string) {
    BodyStart(content).None? &&
    var flow, header := FirstFlow(content, 0), FirstHeader(content, PROVIDERS, 0);
    if flow.None? then !HasKeyLine(content, 0)
    else Ends(content[..flow.value]) && (header.None? || header.value > flow.value)
  }

  /** Otherwise the block that is written, if any, is not found. */
  lemma BlockIsHidden(content: string, e: Input)
    requires BodyStart(content).None? && !TakesBlock(content)
    ensures BodyStart(WithoutBlock(content, e)).None?
  {
    hide HeaderLength, AfterEmptyFlow, HasKeyLine, NewBlock, FirstHeader, FirstFlow;
    var flow := FirstFlow(content, 0);
    if flow.Some? {
      var f := flow.value;
      var base, b, d := content[..f], content[f..], NewBlock(e) + AfterEmptyFlow(content[f..]).value;
      FlowBegins(content);
      NewBlockIsHeader(e, AfterEmptyFlow(content[f..]).value);
      FirstHeaderUpTo(base, b, d, 0);
      assert content == base + b && WithoutBlock(content, e) == base + d;
      var x := FirstHeader(content, PROVIDERS, 0);
      assert forall j :: 0 <= j < f ==> (base + d)[j] == content[j];
    }
  }

  lemma {:induction false} NoHeaderYet(content: string, i: nat, f: nat)
    requires i <= f <= |content| &&
             (FirstHeader(content, PROVIDERS, i).None? || FirstHeader(content, PROVIDERS, i).value >= f)
    ensures forall j :: i <= j < f && AtLineStart(content, j) ==> HeaderLength(content[j..], PROVIDERS).None?
    decreases f - i
  {
    hide HeaderLength;
    if i < f { NoHeaderYet(content, i + 1, f); }
  }

  lemma NoHeaderBefore(content: string, f: nat)
    requires f <= |content| && Ends(content[..f])
    requires FirstHeader(content, PROVIDERS, 0).None? || FirstHeader(content, PROVIDERS, 0).value >= f
    ensures HasNoHeader(content[..f])
  {
    hide HeaderLength, FirstHeader;
    NoHeaderYet(content, 0, f);
    var base := content[..f];
    forall i | 0 <= i < f && AtLineStart(base, i) ensures HeaderLength(base[i..], PROVIDERS).None? {
      assert AtLineStart(content, i);
      assert content[i..] == base[i..] + content[f..];
      assert base[i..][|base[i..]| - 1] == base[f - 1];
      ProvidersHasNoBreak();
      HeaderBefore(base[i..], content[f..], PROVIDERS);
    }
  }

  /** The text the empty flow form is followed by. */
  function FlowRest(content: string): string {
    var flow := FirstFlow(content, 0);
    if flow.None? then "" else AfterEmptyFlow(content[flow.value..]).value
  }

  /** And the block that is found reads on in the text behind it. */
  lemma BlockIsFound(content: string, e: Input)
    requires TakesBlock(content) && IsStorable(e)
    ensures var after := WithoutBlock(content, e);
            BodyStart(after).Some? && ViewsIn(after) == FreshViews(e, FlowRest(content))
  {
    hide IsStorable, BodyStart, ViewsIn, NewBlock, HasNoHeader, FirstHeader, AfterEmptyFlow, HasKeyLine, AtLineStart,
         FreshViews;
    var flow := FirstFlow(content, 0);
    if flow.Some? {
      NoHeaderBefore(content, flow.value);
      FreshBlock(content[..flow.value], e, FlowRest(content));
    } else {
      NoHeaderWithoutKeyLine(content);
      FreshBlock(content + Separator(content), e, "");
      assert content + Separator(content) + NewBlock(e) + "" == content + Separator(content) + NewBlock(e);
    }
  }

  // ---------------------------------------------------------------- the text behind the new block

  /** Before the next top-level line, no key stands at the indent of an entry. */
  predicate BeginsNone(ks: seq<Kind>) {
    ks == [] || ks[0].Top? || (!(ks[0].Key? && |ks[0].indent| <= 2) && BeginsNone(ks[1..]))
  }

  /** The fields of the new entry with those added that stand at their indent. */
  function TailFields(fields: map<string, string>, ks: seq<Kind>): map<string, string>
    decreases |ks|
  {
    if ks == [] || ks[0].Top? then fields
    else TailFields(if ks[0].Key? && |ks[0].indent| == 4 then fields[ks[0].key := ks[0].value] else fields, ks[1..])
  }

  lemma TailStep(b: Block, k: Kind, row: nat)
    requires |b.entries| == 1 && |b.childIndent| == 2 && |b.entries[0].fieldIndent| == 4 && !k.Top?
    ensures var c := Step(b, k, row);
            if k.Key? && |k.indent| <= 2 then |c.entries| == 2
            else
              |c.entries| == 1 && c.childIndent == b.childIndent && c.entries[0].slug == b.entries[0].slug &&
              |c.entries[0].fieldIndent| == 4 && Values(c.entries[0].fields) ==
                if k.Key? && |k.indent| == 4 then Values(b.entries[0].fields)[k.key := k.value]
                else Values(b.entries[0].fields)
  {
    if k.Key? {
      var f := InEntry(b.entries[0], k, row);
      assert |k.indent| == 4 ==> Values(f.fields) == Values(b.entries[0].fields)[k.key := k.value];
    }
  }

  lemma {:induction false} TailScan(b: Block, ks: seq<Kind>, row: nat)
    requires |b.entries| == 1 && |b.childIndent| == 2 && |b.entries[0].fieldIndent| == 4
    ensures var r := Scan(b, ks, row);
            |r.entries| >= 1 && (|r.entries| == 1 <==> BeginsNone(ks)) &&
            (BeginsNone(ks) ==>
              r.entries[0].slug == b.entries[0].slug &&
              Values(r.entries[0].fields) == TailFields(Values(b.entries[0].fields), ks))
    decreases |ks|
  {
    hide Step, Values;
    if ks != [] && !ks[0].Top? {
      TailStep(b, ks[0], row);
      var c := Step(b, ks[0], row);
      if |c.entries| == 2 { EntryGrows(c, ks[1..], row + 1, 1); } else { TailScan(c, ks[1..], row + 1); }
    }
  }

  lemma FreshShape(e: Input)
    requires IsStorable(e)
    ensures var b := FreshScan(e);
            |b.entries| == 1 && b.childIndent == "  " && |b.entries[0].fieldIndent| == 4 &&
            b.entries[0].slug == e.slug && Values(b.entries[0].fields) == NewFields(e)
  {
    hide KindsOf, EntryLines, IsStorable, Scan, NewFields, Values, AreLines, HasNoTop;
    NewEntryScan(EMPTY_BLOCK, e, 0);
    assert ChildIndent(EMPTY_BLOCK) == "  ";
  }

  /** What is left of the new provider when the text behind the block sets its fields. */
  function AsRead(e: Input, ks: seq<Kind>): UserProvider {
    ProviderOf(View(e.slug, TailFields(NewFields(e), ks)))
  }

  lemma FreshListing(e: Input, tail: string)
    requires IsStorable(e)
    ensures var ks, views := KindsOf(LinesOf(tail)), FreshViews(e, tail);
            |views| >= 1 && (|views| == 1 <==> BeginsNone(ks)) &&
            (BeginsNone(ks) ==> views == [View(e.slug, TailFields(NewFields(e), ks))])
  {
    hide KindsOf, LinesOf, Scan, NewFields, Values, IsStorable, FreshScan, EntryLines;
    FreshShape(e);
    TailScan(FreshScan(e), KindsOf(LinesOf(tail)), |EntryLines("  ", e)|);
  }

  /**
   * Get after put for a file without a block, exactly. The new provider is listed alone, if and only if its texts hold
   * no line terminator, its slug is a key, the file takes a block, and what is indented behind the empty flow form, up
   * to the next top-level line, begins no entry and leaves the name, the URL and the key variable as they are. In a
   * file that takes a block the listing is otherwise that of the new block read on into that text.
   */
  lemma GetAfterNewBlockIff(content: string, input: Input)
    requires BodyStart(content).None? && Stored(input).Some?
    ensures var e := Stored(input).value;
            var p, tail := UserProvider(e.slug, e.name, e.baseUrl, e.keyEnv), KindsOf(LinesOf(FlowRest(content)));
            List(content) == [] &&
            (List(UpsertText(content, input)) == [p] <==>
             IsPlain(e) && IsKey(e.slug) && TakesBlock(content) && BeginsNone(tail) && AsRead(e, tail) == p) &&
            (IsPlain(e) && IsKey(e.slug) && TakesBlock(content) ==>
               List(UpsertText(content, input)) == ProvidersOf(FreshViews(e, FlowRest(content))) &&
               (BeginsNone(tail) ==> List(UpsertText(content, input)) == [AsRead(e, tail)]))
  {
    hide BodyStart, ProviderOf, WithoutBlock, KindsOf, LinesOf, HasTerminator, IsKey, FlowRest, TakesBlock, BlockIn,
         TailFields, NewFields, FreshViews, BeginsNone;
    var e := Stored(input).value;
    var p, tail := UserProvider(e.slug, e.name, e.baseUrl, e.keyEnv), KindsOf(LinesOf(FlowRest(content)));
    StoredIsSet(input);
    var after := UpsertText(content, input);
    assert after == WithoutBlock(content, e);
    if !(IsPlain(e) && IsKey(e.slug)) {
      ListingIsListable(after);
      assert !IsListable(p) && p in [p];
    } else if !TakesBlock(content) {
      BlockIsHidden(content, e);
    } else {
      BlockIsFound(content, e);
      FreshListing(e, FlowRest(content));
      var listing := List(after);
      assert |listing| == |FreshViews(e, FlowRest(content))|;
      if BeginsNone(tail) {
        assert listing[0] == AsRead(e, tail) && listing == [listing[0]];
        assert [p][0] == p;
      }
    }
  }

  lemma SilentTail(e: Input, ks: seq<Kind>)
    requires IsSilent(ks)
    ensures BeginsNone(ks) && TailFields(NewFields(e), ks) == NewFields(e)
  {
    hide NewFields;
    SilentAdds(NewFields(e), ks);
  }

  lemma {:induction false} SilentAdds(fields: map<string, string>, ks: seq<Kind>)
    requires IsSilent(ks)
    ensures BeginsNone(ks) && TailFields(fields, ks) == fields
  {
    if ks != [] && !ks[0].Top? { SilentAdds(fields, ks[1..]); }
  }

  // ---------------------------------------------------------------- repeating it

  /**
   * Repeating an upsert that gives a file its block, exactly: nothing changes if and only if the entry found in the
   * block, as it reads on in the text behind it, shows all that is asked for.
   */
  lemma RepeatNewBlockIff(content: string, input: Input)
    requires TakesBlock(content) && Stored(input).Some? && IsStorable(Stored(input).value)
    ensures var e, views := Stored(input).value, FreshViews(Stored(input).value, FlowRest(content));
            var i := Locate(views, input.keyEnv, e.slug);
            UpsertText(UpsertText(content, input), input) == UpsertText(content, input) <==>
            i < |views| && IsSettled(views[i].fields, e)
  {
    hide BodyStart, WithoutBlock, KindsOf, LinesOf, FlowRest, BlockIn, FreshViews, ViewsIn, Locate, IsSettled, Stored,
         IsStorable, FirstFlow, FirstHeader, HasKeyLine;
    var e, after := Stored(input).value, UpsertText(content, input);
    assert after == WithoutBlock(content, e);
    BlockIsFound(content, e);
    NoOpIff(after, input);
  }

  lemma NothingLocated(keyEnv: string, slug: string)
    ensures Locate([], keyEnv, slug) == 0
  {
  }

  /** With nothing but blank lines behind the flow form, the new provider is listed and a second upsert is idle. */
  lemma NewBlockSettles(content: string, input: Input)
    requires TakesBlock(content) && Stored(input).Some? && IsStorable(Stored(input).value)
    requires IsSilent(KindsOf(LinesOf(FlowRest(content))))
    ensures var e := Stored(input).value;
            List(UpsertText(content, input)) == [UserProvider(e.slug, e.name, e.baseUrl, e.keyEnv)] &&
            UpsertText(UpsertText(content, input), input) == UpsertText(content, input)
  {
    hide BodyStart, WithoutBlock, KindsOf, LinesOf, FlowRest, BlockIn, FreshViews, ViewsIn, Locate, IsSettled, Stored,
         FirstFlow, FirstHeader, HasKeyLine, UpsertText, NewFields, IsKey, HasTerminator, ProviderOf;
    var e := Stored(input).value;
    StoredIsSet(input);
    SilentTail(e, KindsOf(LinesOf(FlowRest(content))));
    NewProvider(e);
    GetAfterNewBlockIff(content, input);
    FreshListing(e, FlowRest(content));
    NewKeyEnv(e);
    NewIsSettled(e);
    NothingLocated(input.keyEnv, e.slug);
    LocateNew([], View(e.slug, NewFields(e)), input.keyEnv, e.slug, e.slug);
    assert [] + [View(e.slug, NewFields(e))] == [View(e.slug, NewFields(e))];
    RepeatNewBlockIff(content, input);
  }

  lemma {:induction false} KeyLineAt(content: string, i: nat, j: nat)
    requires i <= j <= |content| && AtLineStart(content, j) && AfterColon(content[j..]).Some?
    ensures HasKeyLine(content, i)
    decreases j - i
  {
    hide AfterColon;
    if i < j { KeyLineAt(content, i + 1, j); }
  }

  lemma NewBlockIsNoFlow(e: Input, tail: string)
    ensures var d := NewBlock(e) + tail; AfterColon(d).Some? && AfterEmptyFlow(d).None?
  {
    hide SkipInline, EntryLines, Concat;
    var d := NewBlock(e) + tail;
    var rest := Concat(EntryLines("  ", e)) + tail;
    assert d == PROVIDERS + (":\n" + rest);
    assert d[|PROVIDERS|..] == ":\n" + rest && d[..|PROVIDERS|] == PROVIDERS;
    assert !IsInlineSpace(':') && !IsInlineSpace('\n') by { BreakIsNoInlineSpace(); }
    assert SkipInline(":\n" + rest) == ":\n" + rest && (":\n" + rest)[1..] == "\n" + rest by { SkipNothing(rest); }
    assert SkipInline("\n" + rest) == "\n" + rest by { SkipNothing(rest); }
  }

  lemma SkipNothing(rest: string)
    ensures SkipInline(":\n" + rest) == ":\n" + rest && SkipInline("\n" + rest) == "\n" + rest
    ensures (":\n" + rest)[1..] == "\n" + rest
  {
    hide IsInlineSpace;
    BreakIsNoInlineSpace();
  }

  /** An upsert into a file without a block leaves it as it is, exactly when it finds another form of the section. */
  lemma NoOpWithoutBlockIff(content: string, input: Input)
    requires BodyStart(content).None? && Stored(input).Some?
    ensures UpsertText(content, input) == content <==> FirstFlow(content, 0).None? && HasKeyLine(content, 0)
  {
    hide BodyStart, Stored, NewBlock, AfterEmptyFlow, HasKeyLine, FirstFlow;
    var e, flow := Stored(input).value, FirstFlow(content, 0);
    if flow.Some? {
      var tail := AfterEmptyFlow(content[flow.value..]).value;
      NewBlockIsNoFlow(e, tail);
      assert (content[..flow.value] + NewBlock(e) + tail)[flow.value..] == NewBlock(e) + tail;
    } else {
      assert NewBlock(e) != "" by { NewBlockIsHeader(e, ""); assert NewBlock(e) + "" == NewBlock(e); }
    }
  }

  lemma SameLineStart(a: string, c: string, i: nat)
    requires i <= |a| && i <= |c| && a[..i] == c[..i]
    ensures AtLineStart(a, i) == AtLineStart(c, i)
  {
    if i > 0 { assert a[i - 1] == a[..i][i - 1] == c[..i][i - 1]; }
  }

  lemma NewBlockIs(base: string, e: Input)
    ensures base + NewBlock(e) == base + (PROVIDERS + ":\n") + Concat(EntryLines("  ", e))
  {
    hide Concat, EntryLines;
  }

  lemma FlowKeepsLine(content: string, e: Input)
    requires FirstFlow(content, 0).Some?
    ensures HasKeyLine(WithoutBlock(content, e), 0)
  {
    hide NewBlock, AfterEmptyFlow, HasKeyLine, FirstFlow, AtLineStart;
    var f := FirstFlow(content, 0).value;
    var tail := AfterEmptyFlow(content[f..]).value;
    var after := WithoutBlock(content, e);
    FlowBegins(content);
    NewBlockIsNoFlow(e, tail);
    assert after[f..] == NewBlock(e) + tail && after[..f] == content[..f];
    SameLineStart(content, after, f);
    KeyLineAt(after, 0, f);
  }

  lemma AppendedIsFound(content: string, e: Input)
    requires !HasKeyLine(content, 0)
    ensures BodyStart(content + Separator(content) + NewBlock(e)).Some?
  {
    hide BodyStart, NewBlock, HasKeyLine, IsHead, EntryLines, Concat;
    var base := content + Separator(content);
    NoHeaderWithoutKeyLine(content);
    FreshHead(base);
    HeadStays(base + (PROVIDERS + ":\n"), Concat(EntryLines("  ", e)));
    NewBlockIs(base, e);
  }

  /** A new block has its line in the text, found or not. */
  lemma NewBlockHasLine(content: string, e: Input)
    requires BodyStart(WithoutBlock(content, e)).None?
    ensures HasKeyLine(WithoutBlock(content, e), 0)
  {
    hide BodyStart, NewBlock, AfterEmptyFlow, HasKeyLine, FirstFlow, AtLineStart, FirstHeader;
    if FirstFlow(content, 0).Some? {
      FlowKeepsLine(content, e);
    } else if !HasKeyLine(content, 0) {
      AppendedIsFound(content, e);
    }
  }
}
