/** Taking out again what was added: exactly when the file is as it was. */
module ProvidersUndo {
  import opened Text
  import opened ConfigBlocks
  import opened Providers
  import opened ProvidersLines
  import opened ProvidersScan
  import opened ProvidersEdits
  import opened ProvidersLaws
  import opened ProvidersAppend
  import opened ProvidersRemove
  import opened ProvidersExact

  // ---------------------------------------------------------------- an open body

  lemma GluedAreLines(lines: seq<string>, more: seq<string>)
    requires lines != [] && AreRows(lines) && !IsLine(lines[|lines| - 1]) && AreLines(more) && StartsWithPiece(more)
    ensures AreLines(Glued(lines, more))
  {
    hide IsPiece, IsLine, IsRow;
    var k := |lines| - 1;
    GluedEnds(lines[k], more[0]);
    forall l | l in Glued(lines, more) ensures IsLine(l) {
      var r :| 0 <= r < |Glued(lines, more)| && Glued(lines, more)[r] == l;
      if r > k { assert l == more[r - k] && more[r - k] in more; }
    }
  }

  /** The text after an append to an open body: all its lines end. */
  lemma GluedText(content: string, input: Input)
    requires BodyStart(content).Some? && !BodyIsClosed(content) && Stored(input).Some? &&
             IsStorable(Stored(input).value)
    requires Locate(ViewsIn(content), input.keyEnv, Stored(input).value.slug) == |ViewsIn(content)|
    ensures var n, e, after := BodyStart(content).value, Stored(input).value, UpsertText(content, input);
            var lines := LinesOf(content[n..]);
            var more := EntryLines(ChildIndent(BlockOf(KindsOf(lines))), e);
            AreRows(lines) && lines != [] && !IsLine(lines[|lines| - 1]) && more != [] &&
            AreLines(Glued(lines, more)) && AreRows(Glued(lines, more)) &&
            after == content[..n] + Concat(Glued(lines, more)) && BodyStart(after) == Some(n) &&
            after[..n] == content[..n] && LinesOf(after[n..]) == Glued(lines, more) &&
            ViewsIn(after) == Views(BlockOf(KindsOf(Glued(lines, more))).entries)
  {
    hide KindsOf, LinesOf, BodyStart, EntryLines, Stored, Locate, BlockOf, Concat, UpsertText, IsRow, IsLine,
         IsStorable, Glued, IsHead;
    var n, e := BodyStart(content).value, Stored(input).value;
    Decomposed(content);
    var lines := LinesOf(content[n..]);
    var indent := ChildIndent(BlockOf(KindsOf(lines)));
    BodyAtEnd(lines);
    GluedAppendCount(lines, e);
    ChildIsIndent(lines);
    RestOfEntry(indent, e);
    GluedAreLines(lines, EntryLines(indent, e));
    AppendedAnyway(content, input);
    Recomposed(content[..n], Glued(lines, EntryLines(indent, e)));
  }

  /** Whatever a removal takes out then, what is left ends with a line feed, and the file did not. */
  lemma OpenIsNotUndone(content: string, input: Input, name: string)
    requires BodyStart(content).Some? && !BodyIsClosed(content) && Stored(input).Some? &&
             IsStorable(Stored(input).value)
    requires Locate(ViewsIn(content), input.keyEnv, Stored(input).value.slug) == |ViewsIn(content)|
    ensures RemoveText(UpsertText(content, input), name, input.keyEnv) != content
  {
    hide KindsOf, LinesOf, BodyStart, EntryLines, Stored, Locate, BlockOf, Concat, UpsertText, IsRow, IsLine,
         IsStorable, Glued, IsHead, RemoveText, Slugify;
    var after := UpsertText(content, input);
    GluedText(content, input);
    var n := BodyStart(content).value;
    Decomposed(content);
    var lines := LinesOf(content[n..]);
    var all := LinesOf(after[n..]);
    var left: seq<string>;
    if Locate(ViewsIn(after), input.keyEnv, Slugify(name)) == |ViewsIn(after)| {
      NothingRemoved(after, name, input.keyEnv);
      left := all;
    } else {
      RemoveCutsLines(after, name, input.keyEnv);
      var e := BlockOf(KindsOf(all)).entries[Locate(ViewsIn(after), input.keyEnv, Slugify(name))];
      left := all[..e.row] + all[e.end..];
    }
    assert RemoveText(after, name, input.keyEnv) == content[..n] + Concat(left);
    assert AreLines(left);
    LastIsOpen(lines, left);
    LinesAreRows(left);
    LinesOfConcat(left);
    assert (content[..n] + Concat(left))[n..] == Concat(left);
  }

  lemma LastIsOpen(lines: seq<string>, left: seq<string>)
    requires lines != [] && !IsLine(lines[|lines| - 1]) && AreLines(left)
    ensures lines != left
  {
    assert lines[|lines| - 1] in lines && lines[|lines| - 1] !in left;
  }

  lemma NothingRemoved(content: string, name: string, keyEnv: string)
    requires BodyStart(content).Some? && Locate(ViewsIn(content), keyEnv, Slugify(name)) == |ViewsIn(content)|
    ensures RemoveText(content, name, keyEnv) == content
  {
    hide KindsOf, LinesOf, BodyStart, Splice, Slugify, Locate, Scan, Concat;
    BlockInside(KindsOf(LinesOf(content[BodyStart(content).value..])));
  }

  // ---------------------------------------------------------------- another name

  /** No header of an entry stands deeper than the first. */
  lemma HeaderIsShallow(ks: seq<Kind>, i: nat)
    requires AreIndented(ks) && i < |BlockOf(ks).entries|
    ensures var b := BlockOf(ks);
            var h := b.entries[i].row;
            h < |ks| && ks[h].Key? && ks[h].key == b.entries[i].slug && |ks[h].indent| <= |b.childIndent|
  {
    hide Step, IsIndent, Scan;
    var b := BlockOf(ks);
    var h := b.entries[i].row;
    EntryBegins(EMPTY_BLOCK, ks, 0, i);
    var c := BlockOf(ks[..h + 1]);
    JustBefore(ks, i, h, c);
    assert ks[..h + 1] + ks[h + 1..] == ks && ks[..h] + [ks[h]] == ks[..h + 1];
    ScanConcat(EMPTY_BLOCK, ks[..h + 1], ks[h + 1..], 0);
    ScanConcat(EMPTY_BLOCK, ks[..h], [ks[h]], 0);
    OneScan(BlockOf(ks[..h]), ks[h], h);
    EntryGrows(c, ks[h + 1..], h + 1, i);
    BeginsShallow(BlockOf(ks[..h]), ks[h], h);
  }

  lemma BeginsShallow(q: Block, k: Kind, row: nat)
    requires k.Key? && |Step(q, k, row).entries| == |q.entries| + 1
    ensures |k.indent| <= |Step(q, k, row).childIndent|
  {
  }

  /** The lines of a new entry: its header, and fields that stand deeper. */
  lemma OnlyOneHeader(indent: string, e: Input, line: string)
    requires IsStorable(e) && IsIndent(indent) && line in EntryLines(indent, e)
    requires var k := KindOf(Chomp(line)); k.Key? && |k.indent| <= |indent|
    ensures KindOf(Chomp(line)).key == e.slug
  {
    hide KindOf, EntryLines, IsStorable, Chomp, IsIndent;
    EntryLineKinds(indent, e);
    var lines := EntryLines(indent, e);
    var r :| 0 <= r < |lines| && lines[r] == line;
    assert KindsOf(lines)[r] == KindOf(Chomp(line));
  }

  /** Cutting out an entry with another slug leaves other lines than there were. */
  lemma OtherEntryIsMissed(lines: seq<string>, e: Input, i: nat)
    requires AreRows(lines) && IsStorable(e) && BodyLinesEnd(lines)
    requires var next := AppendedLines(lines, e);
             i < |BlockOf(KindsOf(next)).entries| && BlockOf(KindsOf(next)).entries[i].slug != e.slug
    ensures var next := AppendedLines(lines, e);
            var x := BlockOf(KindsOf(next)).entries[i];
            x.row < x.end <= |next| && next[..x.row] + next[x.end..] != lines
  {
    hide KindOf, EntryLines, IsStorable, Scan, IsLine, IsRow, IsIndent, Chomp, IsNewEntry;
    var next := AppendedLines(lines, e);
    var b, c := BlockOf(KindsOf(lines)), BlockOf(KindsOf(next));
    var more := EntryLines(ChildIndent(b), e);
    var x := c.entries[i];
    BlockInside(KindsOf(lines));
    BlockInside(KindsOf(next));
    assert x in c.entries;
    KindsAreIndented(next);
    HeaderIsShallow(KindsOf(next), i);
    AppendedBlock(lines, e);
    ChildIsIndent(lines);
    assert KindsOf(next)[x.row] == KindOf(Chomp(next[x.row]));
    if next[x.row] in more {
      OnlyOneHeader(ChildIndent(b), e, next[x.row]);
      assert false;
    }
    OtherPart(lines[..b.bodyEnd], more, lines[b.bodyEnd..], x.row, x.end);
    assert lines == lines[..b.bodyEnd] + lines[b.bodyEnd..];
  }

  /** What is taken out in place of `more` is no rearrangement of it. */
  lemma OtherPart(a: seq<string>, more: seq<string>, c: seq<string>, from: nat, to: nat)
    requires from < to <= |a + more + c| && (a + more + c)[from] !in more
    ensures var all := a + more + c; all[..from] + all[to..] != a + c
  {
    var all := a + more + c;
    var part, left := all[from..to], all[..from] + all[to..];
    assert all == all[..from] + part + all[to..];
    assert multiset(all) == multiset(left) + multiset(part) && multiset(all) == multiset(a + c) + multiset(more);
    var line := all[from];
    assert line == part[0] && line in multiset(part) && line !in multiset(more);
    assert (multiset(left) + multiset(part))[line] == (multiset(a + c) + multiset(more))[line];
  }

  lemma MissedName(content: string, input: Input, name: string)
    requires BodyStart(content).Some? && BodyIsClosed(content) && Stored(input).Some? &&
             IsStorable(Stored(input).value)
    requires Locate(ViewsIn(content), input.keyEnv, Stored(input).value.slug) == |ViewsIn(content)|
    requires input.keyEnv == "" && Slugify(name) != Stored(input).value.slug
    ensures RemoveText(UpsertText(content, input), name, input.keyEnv) != content
  {
    hide KindsOf, LinesOf, BodyStart, EntryLines, Stored, BlockOf, Concat, UpsertText, IsRow, IsLine, BodyLinesEnd,
         IsStorable, IsHead, RemoveText, Slugify, NewFields, AppendedLines;
    var n, e, after := BodyStart(content).value, Stored(input).value, UpsertText(content, input);
    UpsertAppends(content, input);
    Decomposed(content);
    Decomposed(after);
    var lines := LinesOf(content[n..]);
    var next := AppendedLines(lines, e);
    var i := Locate(ViewsIn(after), "", Slugify(name));
    if i == |ViewsIn(after)| {
      NothingRemoved(after, name, "");
      assert |ViewsIn(after)| == |ViewsIn(content)| + 1;
    } else {
      RemoveCutsLines(after, name, "");
      assert ViewsIn(after)[i].slug == Slugify(name);
      OtherEntryIsMissed(lines, e, i);
      var x := BlockOf(KindsOf(next)).entries[i];
      var left := next[..x.row] + next[x.end..];
      RowsWithoutSome(next, x.row, x.end);
      LinesOfConcat(left);
      assert (content[..n] + Concat(left))[n..] == Concat(left);
    }
  }

  // ---------------------------------------------------------------- the law

  /**
   * Appending an entry and removing it again, exactly: the file is back byte for byte if and only if the body's last
   * line ended with a line feed and the removal looks for the entry, by its key variable or else by its slug.
   */
  lemma UndoIff(content: string, input: Input, name: string)
    requires BodyStart(content).Some? && Stored(input).Some? && IsStorable(Stored(input).value)
    requires Locate(ViewsIn(content), input.keyEnv, Stored(input).value.slug) == |ViewsIn(content)|
    ensures RemoveText(UpsertText(content, input), name, input.keyEnv) == content <==>
            BodyIsClosed(content) && (input.keyEnv != "" || Slugify(name) == Stored(input).value.slug)
  {
    hide BodyStart, Stored, Locate, ViewsIn, UpsertText, RemoveText, BodyIsClosed, Slugify, IsStorable;
    if !BodyIsClosed(content) {
      OpenIsNotUndone(content, input, name);
    } else if input.keyEnv != "" || Slugify(name) == Stored(input).value.slug {
      RemoveUndoesAppend(content, input, name);
    } else {
      MissedName(content, input, name);
    }
  }
}
