/**
 * Writing the list back into a file that has one already, as it was written by hand, with text before and behind it.
 */
module CustomProvidersRewrite {
  import opened Text
  import opened ConfigBlocks
  import opened CustomProviders
  import opened CustomProvidersRefinement
  import opened CustomProvidersRuns
  import opened CustomProvidersWritten

  // ---------------------------------------------------------------- entries as they are rendered

  /** An entry without the empty ids and its own model among the further ones. */
  function Clean(e: Entry): Entry {
    e.(extraModels := Without(Without(e.extraModels, ""), e.model))
  }

  function AllClean(entries: seq<Entry>): (r: seq<Entry>)
    ensures |r| == |entries|
  {
    seq(|entries|, i requires 0 <= i < |entries| => Clean(entries[i]))
  }

  lemma {:induction false} ExtrasAreClean(e: Entry, ids: seq<string>)
    ensures Extras(e, ids) == Without(Without(ids, ""), e.model)
  {
    if ids != [] {
      ExtrasAreClean(e, ids[1..]);
      var rest := Without(ids[1..], "");
      assert ([ids[0]] + rest)[1..] == rest && [] + rest == rest;
      assert [] + Extras(e, ids[1..]) == Extras(e, ids[1..]);
    }
  }

  lemma CleanLines(e: Entry)
    ensures EntryLines(Clean(e)) == EntryLines(e)
  {
    hide OptionalLine, IdLines;
    var ids := Without(e.extraModels, "");
    ExtrasAreClean(e, e.extraModels);
    ExtrasAreClean(Clean(e), Clean(e).extraModels);
    WithoutShape(e.extraModels, "");
    WithoutShape(ids, e.model);
    WithoutShape(Without(ids, e.model), "");
    WithoutShape(Without(ids, e.model), e.model);
  }

  lemma {:induction false} CleanAllLines(entries: seq<Entry>)
    ensures AllEntryLines(AllClean(entries)) == AllEntryLines(entries)
  {
    hide EntryLines, Clean;
    if entries != [] {
      CleanLines(entries[0]);
      CleanAllLines(entries[1..]);
      assert AllClean(entries)[1..] == AllClean(entries[1..]);
    }
  }

  lemma CleanRenders(entries: seq<Entry>)
    ensures Render(AllClean(entries)) == Render(entries)
  {
    hide AllEntryLines;
    CleanAllLines(entries);
  }

  // ---------------------------------------------------------------- text behind the list

  /** Text that begins with a key of small letters, and in which no line begins with the key of the list. */
  predicate IsFoot(foot: string) {
    foot == "" || ('a' <= foot[0] <= 'z' && forall i :: 0 <= i < |SplitLines(foot)| ==> IsOther(SplitLines(foot)[i]))
  }

  lemma FootCloses(foot: string)
    requires IsFoot(foot)
    ensures foot != "" ==> ClosesList(SplitLines(foot))
  {
    hide IsOther;
    if foot != "" {
      assert foot[0] != '\n' && SplitLines(foot)[0][0] == foot[0];
    }
  }

  /** Lines of text behind which `foot` begins. */
  lemma LinesBefore(head: string, block: string, foot: string, lines: seq<string>)
    requires head == "" || head[|head| - 1] == '\n'
    requires block == Terminated(lines) && lines != [] && forall l :: l in lines ==> '\n' !in l
    ensures SplitLines(head + block + foot) == (if head == "" then [] else SplitLines(head[..|head| - 1])) + lines +
            SplitLines(foot)
  {
    var text := Join(lines, "\n");
    JoinTerminated(lines);
    SplitOfJoin(lines);
    SplitConcat(text, foot);
    if head == "" {
      assert head + block + foot == text + "\n" + foot;
    } else {
      var b := head[..|head| - 1];
      assert head + block + foot == b + "\n" + (text + "\n" + foot);
      SplitConcat(b, text + "\n" + foot);
    }
  }

  lemma LinesOfHead(head: string) returns (before: seq<string>)
    requires IsForeign(head)
    ensures before == if head == "" then [] else SplitLines(head[..|head| - 1])
    ensures forall i :: 0 <= i < |before| ==> !IsHeader(before[i])
  {
    hide IsHeader, HeaderLength, AtLineStart;
    before := [];
    if head != "" {
      var b := head[..|head| - 1];
      assert head == b + "\n" + "";
      SplitConcat(b, "");
      before := SplitLines(b);
      forall i | 0 <= i < |before| ensures !IsHeader(before[i]) {
        assert SplitLines(head)[i] == before[i];
      }
    }
  }

  // ---------------------------------------------------------------- the span of a written list

  /** A line that cannot end the list: blank, indented, or a list item at the margin. */
  predicate IsKept(l: string) {
    '\n' !in l && (l == "" || l[|l| - 1] != '\r') &&
    (TrimStart(EcmaScript, l) == "" || l[0] == ' ' || l[0] == '\t' || (|l| > 1 && l[0] == '-' && l[1] == ' '))
  }

  lemma KeptStays(l: string)
    requires IsKept(l)
    ensures StaysInList(l)
  {
    hide IsSpace;
    DashAndSpace();
    if l != "" && l[0] == '-' { TrimStartOfUnpadded(EcmaScript, l); }
  }

  lemma BodyStep(l: string, rest: string)
    requires IsKept(l)
    ensures BodyLength(l + "\n" + rest) == |l| + 1 + BodyLength(rest)
  {
    hide StaysInList, IsKept, LineLength, Chomp;
    KeptStays(l);
    KeptIsLine(l);
    LineLengthOf(l, rest);
    ChompLine(l);
    var s := l + "\n" + rest;
    assert s[..|l| + 1] == l + "\n" && s[|l| + 1..] == rest;
  }

  lemma {:induction false} BodyUpTo(lines: seq<string>, foot: string)
    requires (forall l :: l in lines ==> IsKept(l)) && BodyLength(foot) == 0
    ensures BodyLength(Terminated(lines) + foot) == |Terminated(lines)|
    decreases |lines|
  {
    hide BodyLength, IsKept;
    if lines == [] {
      assert Terminated(lines) + foot == foot;
    } else {
      var l, rest := lines[0], Terminated(lines[1..]) + foot;
      assert l in lines;
      BodyStep(l, rest);
      assert Terminated(lines) + foot == l + "\n" + rest;
      BodyUpTo(lines[1..], foot);
    }
  }

  lemma KeptIsLine(l: string)
    requires IsKept(l)
    ensures '\n' !in l && (l == "" || l[|l| - 1] != '\r')
  {
  }

  /** A line at the margin that is no item: its first character is no white space, nor a dash before white space. */
  predicate IsMargin(foot: string) {
    foot == "" || (!IsSpace(EcmaScript, foot[0]) && (foot[0] == '-' ==> |foot| > 1 && !IsSpace(EcmaScript, foot[1])))
  }

  lemma MarginEnds(foot: string)
    requires IsMargin(foot)
    ensures BodyLength(foot) == 0
  {
    hide IsSpace, LineLength, Chomp, IsOther;
    if foot != "" {
      MarginChars();
      var line := Chomp(foot[..LineLength(foot)]);
      ChompKeepsFirst(foot);
      TrimStartOfUnpadded(EcmaScript, line);
    }
  }

  lemma MarginChars()
    ensures IsSpace(EcmaScript, ' ') && IsSpace(EcmaScript, '\t') && IsSpace(EcmaScript, '\n') &&
            IsSpace(EcmaScript, '\r')
    ensures forall c :: 'a' <= c <= 'z' || c == '#' ==> !IsSpace(EcmaScript, c)
  {
  }

  lemma ChompKeepsFirst(foot: string)
    requires foot != "" && foot[0] != '\n' && foot[0] != '\r'
    ensures var line := Chomp(foot[..LineLength(foot)]);
            line != "" && line[0] == foot[0] && (|line| > 1 ==> |foot| > 1 && line[1] == foot[1])
  {
  }

  /** The list goes from its key up to the first line at the margin that is no item, whatever that line is. */
  lemma SpanOfWritten(head: string, lines: seq<string>, foot: string)
    requires IsForeign(head) && (forall l :: l in lines ==> IsKept(l)) && IsMargin(foot)
    ensures var block := "custom_providers:\n" + Terminated(lines);
            FindSpan(head + block + foot) == Some((|head|, |head + block|))
  {
    hide HeaderLength, FindHeader, BodyLength, IsForeign, IsKept, IsMargin;
    MarginEnds(foot);
    var body := Terminated(lines) + foot;
    var block := "custom_providers:\n" + body;
    KeyColon();
    HeaderOfBlock(block, body);
    HeaderFound(head, block);
    BodyUpTo(lines, foot);
    var content := head + block;
    assert content == head + ("custom_providers:\n" + Terminated(lines)) + foot;
    assert content[|head|..] == block && block[|KEY| + 2..] == body;
    assert content[|head| + (|KEY| + 2)..] == body;
  }

  // ---------------------------------------------------------------- main results

  /** A file with one written list. */
  predicate IsFileOf(content: string, head: string, lines: seq<string>, ws: seq<Written>, t: Style, foot: string) {
    content == head + ("custom_providers:\n" + Terminated(lines)) + foot && IsForeign(head) && IsFoot(foot) &&
    (forall l :: l in lines ==> IsKept(l)) && Spoken(lines) == AllLines(ws, t) && IsStyle(t) &&
    forall i :: 0 <= i < |ws| ==> IsWritten(ws[i], t)
  }

  /** The new text: the list written anew, everything before and behind it as it was. */
  function Rewritten(content: string, head: string, next: Option<seq<Entry>>, foot: string): string {
    if next.None? then content else head + Render(next.value) + foot
  }

  lemma {:induction false} SpokenConcat(a: seq<string>, b: seq<string>)
    ensures Spoken(a + b) == Spoken(a) + Spoken(b)
    decreases |a|
  {
    hide IsSilent;
    if a == [] {
      assert a + b == b;
    } else {
      assert (a + b)[1..] == a[1..] + b;
      SpokenConcat(a[1..], b);
    }
  }

  lemma FootStarts(foot: string)
    requires IsFoot(foot)
    ensures foot == "" || 'a' <= foot[0] <= 'z'
  {
  }

  lemma FootLines(foot: string) returns (after: seq<string>)
    requires IsFoot(foot)
    ensures ClosesList(after) && Spoken(SplitLines(foot)) == Spoken(after)
  {
    hide IsOther;
    FootCloses(foot);
    after := if foot == "" then [] else SplitLines(foot);
    if foot == "" { assert SplitLines(foot) == [""] && [""][1..] == []; }
  }

  lemma ListedInFile(content: string, head: string, lines: seq<string>, ws: seq<Written>, t: Style, foot: string)
    requires IsFileOf(content, head, lines, ws, t, foot)
    ensures Parse(content) == AsEntries(ws, t)
  {
    hide AllFacts, ScanFacts, IsStyle, IsWritten, AllLines, AsEntries, IsHeader, ClosesList, IsComplete, SplitLines,
         IsForeign, IsFoot, IsKept, Terminated, Spoken;
    var before := LinesOfHead(head);
    var name := "custom_providers:";
    assert SplitLines(content) == before + ([name] + lines) + SplitLines(foot) by {
      ForeignEnds(head);
      assert name + "\n" + Terminated(lines) == Terminated([name] + lines) by {
        assert ([name] + lines)[1..] == lines;
        TerminatedStep([name] + lines);
      }
      forall l | l in [name] + lines ensures '\n' !in l { if l in lines { KeptIsLine(l); } }
      LinesBefore(head, "custom_providers:\n" + Terminated(lines), foot, [name] + lines);
    }
    var after := FootLines(foot);
    ScanSpoken(START, SplitLines(content));
    SpokenConcat(before + ([name] + lines), SplitLines(foot));
    SpokenConcat(before, [name] + lines);
    SpokenConcat([name], lines);
    SpokenConcat(before + [name] + AllLines(ws, t), after);
    ScanSpoken(START, before + [name] + AllLines(ws, t) + after);
    SpokenTwice(ws, t, lines);
    SpokenConcat(before + [name], AllLines(ws, t));
    SpokenConcat(before, [name]);
    assert name == name + "";
    var all := before + [name] + AllLines(ws, t) + after;
    assert Spoken(SplitLines(content)) == Spoken(before) + (Spoken([name]) + AllLines(ws, t)) + Spoken(after);
    assert Spoken(all) == Spoken(before) + Spoken([name]) + AllLines(ws, t) + Spoken(after);
    assert Spoken(SplitLines(content)) == Spoken(all);
    ScanFile(before, "", ws, t, after);
  }

  lemma TerminatedStep(lines: seq<string>)
    requires lines != []
    ensures Terminated(lines) == lines[0] + "\n" + Terminated(lines[1..])
  {
  }

  lemma {:induction false} SpokenIsSpoken(lines: seq<string>)
    ensures Spoken(Spoken(lines)) == Spoken(lines)
  {
    hide IsSilent;
    if lines != [] {
      SpokenIsSpoken(lines[1..]);
      var rest := Spoken(lines[1..]);
      assert ([lines[0]] + rest)[1..] == rest && [] + rest == rest;
    }
  }

  lemma SpokenTwice(ws: seq<Written>, t: Style, lines: seq<string>)
    requires Spoken(lines) == AllLines(ws, t)
    ensures Spoken(AllLines(ws, t)) == AllLines(ws, t)
  {
    SpokenIsSpoken(lines);
  }

  /** An edit of a list written by hand changes the list and nothing else, whatever stands before and behind it. */
  lemma EditsOfWritten(content: string, head: string, lines: seq<string>, ws: seq<Written>, t: Style, foot: string,
                       input: Input, name: string, model: string, url: string)
    requires IsFileOf(content, head, lines, ws, t, foot)
    ensures UpsertText(content, input) == Rewritten(content, head, Upserted(AsEntries(ws, t), input), foot)
    ensures RemoveText(content, name, model, url) ==
            Rewritten(content, head, Removed(AsEntries(ws, t), name, model, url), foot)
  {
    hide Parse, FindSpan, IsForeign, IsFoot, IsKept, Terminated, Spoken, AllLines, IsStyle, IsWritten, AsEntries,
         Render,
         Upserted, Removed;
    ListedInFile(content, head, lines, ws, t, foot);
    assert IsMargin(foot) by { FootStarts(foot); MarginChars(); }
    SpanOfWritten(head, lines, foot);
    var block := "custom_providers:\n" + Terminated(lines);
    assert content[..|head|] == head && content[|head + block|..] == foot;
  }

  /** And the new text is read as the new list, each entry without its own model among the further ones. */
  lemma RewrittenIsListed(head: string, entries: seq<Entry>, foot: string)
    requires IsForeign(head) && IsFoot(foot) && AllStorable(AllClean(entries)) && entries != []
    ensures Parse(head + Render(entries) + foot) == AllClean(entries)
  {
    hide AllFacts, ScanFacts, IsHeader, ClosesList, IsComplete, SplitLines, IsForeign, IsFoot, Terminated, Spoken,
         AllEntryLines, AllStorable, Clean;
    var es := AllClean(entries);
    var before := LinesOfHead(head);
    var lines := RenderedLines(entries);
    ForeignEnds(head);
    LinesBefore(head, Render(entries), foot, lines);
    var after := FootLines(foot);
    SpokenConcat(before + lines, SplitLines(foot));
    SpokenConcat(before + lines, after);
    ScanSpoken(START, SplitLines(head + Render(entries) + foot));
    ScanSpoken(START, before + lines + after);
    ScanRendered(before, es, after);
  }

  lemma RenderedLines(entries: seq<Entry>) returns (lines: seq<string>)
    requires entries != [] && AllStorable(AllClean(entries))
    ensures lines == ["custom_providers:"] + AllEntryLines(AllClean(entries)) && Render(entries) == Terminated(lines)
    ensures forall l :: l in lines ==> '\n' !in l
  {
    hide AllEntryLines, AllStorable, Clean, Terminated;
    var es := AllClean(entries);
    lines := ["custom_providers:"] + AllEntryLines(es);
    CleanRenders(entries);
    KeyColon();
    BlockShape(es, AllEntryLines(es));
    assert lines[1..] == AllEntryLines(es);
    TerminatedStep(lines);
    EntriesAreLines(es);
  }

  lemma ScanRendered(before: seq<string>, entries: seq<Entry>, after: seq<string>)
    requires AllStorable(entries) && (forall i :: 0 <= i < |before| ==> !IsHeader(before[i])) && ClosesList(after)
    ensures Finish(ScanFacts(START, AllFacts(before + (["custom_providers:"] + AllEntryLines(entries)) +
                                             after))).result == entries
  {
    hide FactsOf, AllFacts, ScanFacts, IsHeader, ClosesList, IsComplete, AllEntryLines, AllStorable;
    var head := "custom_providers:";
    var inside := START.(inCustom := true);
    assert before + ([head] + AllEntryLines(entries)) == before + [head] + AllEntryLines(entries);
    ScanTwo(START, before + [head] + AllEntryLines(entries), after);
    ScanTwo(START, before + [head], AllEntryLines(entries));
    ScanTwo(START, before, [head]);
    ScanOutside(START, before);
    ScanOne(START, head);
    StepHeader(head);
    ScanEntries(inside, entries);
    ScanAfter(ScanFacts(inside, AllFacts(AllEntryLines(entries))), after);
    assert Finish(inside).result + entries == entries;
  }

  // ---------------------------------------------------------------- comments at the margin

  lemma {:induction false} LinesConcat(a: seq<Written>, b: seq<Written>, t: Style)
    ensures AllLines(a + b, t) == AllLines(a, t) + AllLines(b, t)
    ensures AsEntries(a + b, t) == AsEntries(a, t) + AsEntries(b, t)
    decreases |b|
  {
    hide Lines, AsEntry;
    if b == [] {
      assert a + b == a;
    } else {
      assert (a + b)[..|a + b| - 1] == a + b[..|b| - 1];
      LinesConcat(a, b[..|b| - 1], t);
    }
  }

  /** A file with a comment at the margin between the entries of its list. */
  predicate IsSplit(content: string, head: string, lines: seq<string>, comment: string, more: seq<string>,
                    ws: seq<Written>, vs: seq<Written>, t: Style) {
    content == head + ("custom_providers:\n" + Terminated(lines)) + Terminated([comment] + more) && IsForeign(head) &&
    (forall l :: l in lines + more ==> IsKept(l)) && comment != "" && comment[0] == '#' && '\n' !in comment &&
    Spoken(lines) == AllLines(ws, t) && Spoken(more) == AllLines(vs, t) && IsStyle(t) &&
    forall i :: 0 <= i < |ws + vs| ==> IsWritten((ws + vs)[i], t)
  }

  lemma TextOfLines(lines: seq<string>)
    requires lines != [] && forall l :: l in lines ==> '\n' !in l
    ensures SplitLines(Terminated(lines)) == lines + [""]
  {
    assert "" + Terminated(lines) + "" == Terminated(lines);
    LinesBefore("", Terminated(lines), "", lines);
    assert SplitLines("") == [""];
    assert [] + lines == lines;
  }

  lemma CommentIsSilent(comment: string)
    requires comment != "" && comment[0] == '#'
    ensures IsSilent(comment)
  {
    hide IsSpace;
    NoSpaceInside();
    TrimStartOfUnpadded(EcmaScript, comment);
  }

  /** The spoken lines of a text in front of such a comment. */
  lemma SplitSpoken(head: string, before: seq<string>, lines: seq<string>, comment: string, more: seq<string>)
    requires IsForeign(head) && before == if head == "" then [] else SplitLines(head[..|head| - 1])
    requires lines != [] && (forall l :: l in lines ==> '\n' !in l) && (forall l :: l in more ==> '\n' !in l)
    requires comment != "" && comment[0] == '#' && '\n' !in comment
    ensures Spoken(SplitLines(head + Terminated(lines) + Terminated([comment] + more))) ==
            Spoken(before) + Spoken(lines) + Spoken(more)
  {
    hide SplitLines, Terminated, Spoken, IsForeign, IsSilent;
    var foot := [comment] + more;
    ForeignEnds(head);
    assert forall l :: l in foot ==> '\n' !in l;
    TextOfLines(foot);
    LinesBefore(head, Terminated(lines), Terminated(foot), lines);
    SpokenThree(before, lines, foot + [""]);
    SpokenTail(comment, more);
  }

  lemma SpokenThree(a: seq<string>, b: seq<string>, c: seq<string>)
    ensures Spoken(a + b + c) == Spoken(a) + Spoken(b) + Spoken(c)
  {
    hide Spoken;
    SpokenConcat(a + b, c);
    SpokenConcat(a, b);
  }

  lemma SpokenTail(comment: string, more: seq<string>)
    requires comment != "" && comment[0] == '#'
    ensures Spoken([comment] + more + [""]) == Spoken(more)
  {
    hide Spoken, IsSilent;
    CommentIsSilent(comment);
    SilentOnes(comment);
    SpokenThree([comment], more, [""]);
  }

  lemma SilentOnes(comment: string)
    requires IsSilent(comment)
    ensures Spoken([comment]) == [] && Spoken([""]) == []
  {
    assert [comment][1..] == [] && [""][1..] == [];
  }

  lemma ScanSplit(before: seq<string>, entries: seq<Entry>, vs: seq<Written>, t: Style)
    requires AllStorable(entries) && (forall i :: 0 <= i < |before| ==> !IsHeader(before[i])) && IsStyle(t)
    requires forall i :: 0 <= i < |vs| ==> IsWritten(vs[i], t)
    ensures Finish(ScanFacts(START, AllFacts(before + (["custom_providers:"] + AllEntryLines(entries)) +
                                             AllLines(vs, t)))).result == entries + AsEntries(vs, t)
  {
    hide FactsOf, AllFacts, ScanFacts, IsHeader, IsComplete, AllEntryLines, AllStorable, AllLines, AsEntries, IsStyle,
         IsWritten;
    var head := "custom_providers:";
    var inside := START.(inCustom := true);
    assert before + ([head] + AllEntryLines(entries)) == before + [head] + AllEntryLines(entries);
    ScanTwo(START, before + [head] + AllEntryLines(entries), AllLines(vs, t));
    ScanTwo(START, before + [head], AllEntryLines(entries));
    ScanTwo(START, before, [head]);
    ScanOutside(START, before);
    ScanOne(START, head);
    StepHeader(head);
    ScanEntries(inside, entries);
    ScanAll(ScanFacts(inside, AllFacts(AllEntryLines(entries))), t, vs);
    assert Finish(inside).result + entries == entries;
  }

  /**
   * The span finder stops at a comment at the margin, the scanner does not: an edit then writes the whole list in front
   * of the comment, and the entries behind it are listed twice.
   */
  lemma MarginCommentRepeats(content: string, head: string, lines: seq<string>, comment: string, more: seq<string>,
                             ws: seq<Written>, vs: seq<Written>, t: Style, input: Input)
    requires IsSplit(content, head, lines, comment, more, ws, vs, t)
    requires var next := Upserted(AsEntries(ws, t) + AsEntries(vs, t), input);
             next.Some? && next.value != [] && AllStorable(AllClean(next.value))
    ensures var next := Upserted(AsEntries(ws, t) + AsEntries(vs, t), input);
            Parse(content) == AsEntries(ws, t) + AsEntries(vs, t) &&
            Parse(UpsertText(content, input)) == AllClean(next.value) + AsEntries(vs, t)
  {
    hide Parse, FindSpan, IsForeign, IsKept, Terminated, Spoken, AllLines, IsStyle, IsWritten, AsEntries, Render,
         Upserted, AllStorable, AllClean, AllEntryLines, SplitLines, AllFacts, ScanFacts;
    var name := "custom_providers:";
    var before := LinesOfHead(head);
    var foot := Terminated([comment] + more);
    LinesConcat(ws, vs, t);
    assert name + "\n" + Terminated(lines) == Terminated([name] + lines) by {
      assert ([name] + lines)[1..] == lines;
      TerminatedStep([name] + lines);
    }
    forall l | l in [name] + lines + more ensures '\n' !in l {
      if l != name { assert l in lines + more; KeptIsLine(l); }
    }
    assert Parse(content) == AsEntries(ws + vs, t) by {
      SplitSpoken(head, before, [name] + lines, comment, more);
      assert content == head + Terminated([name] + lines) + Terminated([comment] + more);
      ListedAround(content, before, lines, more, ws, vs, t);
    }
    assert IsMargin(foot) by {
      TerminatedStep([comment] + more);
      MarginChars();
    }
    SpanOfWritten(head, lines, foot);
    var block := "custom_providers:\n" + Terminated(lines);
    assert content[..|head|] == head && content[|head + block|..] == foot;
    var next := Upserted(AsEntries(ws + vs, t), input).value;
    assert UpsertText(content, input) == head + Render(next) + foot;
    forall i | 0 <= i < |vs| ensures IsWritten(vs[i], t) { assert vs[i] == (ws + vs)[|ws| + i]; }
    RenderedAround(head, before, next, comment, more, vs, t);
  }

  lemma ListedAround(content: string, before: seq<string>, lines: seq<string>, more: seq<string>, ws: seq<Written>,
                     vs: seq<Written>, t: Style)
    requires Spoken(SplitLines(content)) == Spoken(before) + Spoken(["custom_providers:"] + lines) + Spoken(more)
    requires Spoken(lines) == AllLines(ws, t) && Spoken(more) == AllLines(vs, t) && IsStyle(t)
    requires forall i :: 0 <= i < |before| ==> !IsHeader(before[i])
    requires forall i :: 0 <= i < |ws + vs| ==> IsWritten((ws + vs)[i], t)
    ensures Parse(content) == AsEntries(ws + vs, t)
  {
    hide SplitLines, Spoken, AllLines, IsStyle, IsWritten, AsEntries, AllFacts, ScanFacts, IsHeader;
    var name := "custom_providers:";
    LinesConcat(ws, vs, t);
    var x, y := AllLines(ws, t), AllLines(vs, t);
    var all := before + [name] + (x + y);
    SpokenIsSpoken(lines);
    SpokenIsSpoken(more);
    SpokenThree(before, [name], x + y);
    SpokenConcat(x, y);
    SpokenConcat([name], lines);
    Regroup(Spoken(before), Spoken([name]), x, y);
    ScanSpoken(START, SplitLines(content));
    ScanSpoken(START, all);
    assert all + [] == all && name == name + "";
    ScanFile(before, "", ws + vs, t, []);
  }

  lemma Regroup(a: seq<string>, b: seq<string>, c: seq<string>, d: seq<string>)
    ensures a + (b + c) + d == a + b + (c + d)
  {
  }

  lemma RenderedAround(head: string, before: seq<string>, entries: seq<Entry>, comment: string, more: seq<string>,
                       vs: seq<Written>, t: Style)
    requires IsForeign(head) && before == (if head == "" then [] else SplitLines(head[..|head| - 1]))
    requires forall i :: 0 <= i < |before| ==> !IsHeader(before[i])
    requires (forall l :: l in more ==> '\n' !in l) && comment != "" && comment[0] == '#' && '\n' !in comment
    requires entries != [] && AllStorable(AllClean(entries)) && Spoken(more) == AllLines(vs, t) && IsStyle(t)
    requires forall i :: 0 <= i < |vs| ==> IsWritten(vs[i], t)
    ensures Parse(head + Render(entries) + Terminated([comment] + more)) == AllClean(entries) + AsEntries(vs, t)
  {
    hide SplitLines, Spoken, AllLines, IsStyle, IsWritten, AsEntries, AllFacts, ScanFacts, IsHeader, AllStorable, Clean,
         AllEntryLines, Terminated, IsForeign;
    var es := AllClean(entries);
    var lines := RenderedLines(entries);
    SplitSpoken(head, before, lines, comment, more);
    SpokenIsSpoken(more);
    SpokenThree(before, lines, AllLines(vs, t));
    ScanSpoken(START, SplitLines(head + Render(entries) + Terminated([comment] + more)));
    ScanSpoken(START, before + lines + AllLines(vs, t));
    ScanSplit(before, es, vs, t);
  }
}
