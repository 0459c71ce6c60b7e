/** From lines to the text of the file: appending a block, and put after put. */
module AuxiliaryTexts {
  import opened Text
  import opened ConfigScalars
  import opened ConfigBlocks
  import opened YamlPaths
  import opened Auxiliary
  import opened AuxiliaryLines
  import opened AuxiliaryLaws

  lemma {:induction false} JoinAppend(a: seq<string>, c: seq<string>)
    requires a != [] && c != []
    ensures Join(a + c, "\n") == Join(a, "\n") + "\n" + Join(c, "\n")
  {
    assert (a + c)[1..] == a[1..] + c;
    if |a| > 1 { JoinAppend(a[1..], c); }
  }

  // ---------------------------------------------------------------- a file without the block

  /** The lines of a file, without the empty one behind a final line feed. */
  function BaseLines(content: string): seq<string> {
    if content == "" then [] else if content[|content| - 1] == '\n' then SplitLines(content[..|content| - 1])
    else SplitLines(content)
  }

  function BlockLines(task: string, field: string, value: string): seq<string> {
    ["auxiliary:", TaskLine(task), FieldLine("    ", field, value), ""]
  }

  lemma BaseIsContent(content: string)
    ensures forall l :: l in BaseLines(content) ==> l in SplitLines(content) && '\n' !in l
    ensures forall rest :: SplitLines(content + Separator(content) + rest) == BaseLines(content) + SplitLines(rest)
  {
    SplitIsPlain(content);
    if content == "" {
      forall rest ensures content + Separator(content) + rest == rest {}
    } else if content[|content| - 1] == '\n' {
      var x := content[..|content| - 1];
      SplitConcat(x, "");
      assert content == x + "\n" + "";
      forall rest ensures SplitLines(content + Separator(content) + rest) == BaseLines(content) + SplitLines(rest) {
        SplitConcat(x, rest);
        assert content + Separator(content) + rest == x + "\n" + rest;
      }
    } else {
      forall rest ensures SplitLines(content + Separator(content) + rest) == BaseLines(content) + SplitLines(rest) {
        SplitConcat(content, rest);
      }
    }
  }

  lemma BaseJoins(content: string, block: seq<string>)
    requires block != []
    ensures Join(BaseLines(content) + block, "\n") == content + Separator(content) + Join(block, "\n")
  {
    if content == "" {
      assert BaseLines(content) + block == block;
    } else if content[|content| - 1] == '\n' {
      JoinOfSplit(content[..|content| - 1]);
      JoinAppend(BaseLines(content), block);
    } else {
      JoinOfSplit(content);
      JoinAppend(BaseLines(content), block);
    }
  }

  lemma BlockJoins(task: string, field: string, value: string)
    ensures Join(BlockLines(task, field, value), "\n") == NewBlock(task, field, value)
  {
    hide TaskLine, FieldLine;
    FourJoin("auxiliary:", TaskLine(task), FieldLine("    ", field, value), "");
    assert "auxiliary:" + "\n" == "auxiliary:\n";
    FourParts("auxiliary:", TaskLine(task), FieldLine("    ", field, value));
  }

  lemma FourJoin(a: string, b: string, c: string, d: string)
    ensures Join([a, b, c, d], "\n") == a + "\n" + (b + "\n" + (c + "\n" + d))
  {
    assert [a, b, c, d][1..] == [b, c, d] && [b, c, d][1..] == [c, d] && [c, d][1..] == [d];
    assert Join([c, d], "\n") == c + "\n" + d;
    assert Join([b, c, d], "\n") == b + "\n" + Join([c, d], "\n");
  }

  lemma FourParts(a: string, b: string, c: string)
    ensures a + "\n" + (b + "\n" + (c + "\n" + "")) == (a + "\n") + (b + "\n" + (c + "\n"))
  {
    assert c + "\n" + "" == c + "\n";
  }

  lemma NoHeaderInBase(content: string)
    requires FindAuxHeader(SplitLines(content)) == |SplitLines(content)|
    ensures forall l :: l in BaseLines(content) ==> !IsAuxHeader(l)
  {
    hide IsAuxHeader, FindAuxHeader, SplitLines;
    BaseIsContent(content);
    var lines := SplitLines(content);
    forall l | l in BaseLines(content) ensures !IsAuxHeader(l) {
      var i :| 0 <= i < |lines| && lines[i] == l;
    }
  }

  /** The lines after a put into a file without the block. */
  lemma AppendedLines(content: string, task: string, field: string, value: string)
    requires FindAuxHeader(SplitLines(content)) == |SplitLines(content)| && IsWord(task) && IsWord(field)
    ensures var all := BaseLines(content) + BlockLines(task, field, value);
            SetField(content, task, field, value) == Join(all, "\n") && FindAuxHeader(all) == |BaseLines(content)|
  {
    hide IsAuxHeader, FindAuxHeader, SplitLines, TaskLine, FieldLine, Join, NewBlock;
    BlockJoins(task, field, value);
    BaseJoins(content, BlockLines(task, field, value));
    NoHeaderInBase(content);
    PlainHeader();
    var base := BaseLines(content);
    var all := base + BlockLines(task, field, value);
    assert all[|base|] == "auxiliary:" && forall j :: 0 <= j < |base| ==> all[j] in base;
    assert FindAuxHeader(all) == |base|;
  }

  lemma PlainHeader()
    ensures IsAuxHeader("auxiliary:")
  {
  }

  lemma WrittenIsPlain(task: string, field: string, run: string, value: string)
    requires IsWord(task) && IsWord(field) && IsRun(run) && '\n' !in value
    ensures '\n' !in TaskLine(task) && '\n' !in FieldLine(run, field, value)
  {
    hide IsWordChar, EscapeQuotes;
    WordChars();
    EscapeHasNoBreak(value);
  }

  lemma {:induction false} EscapeHasNoBreak(value: string)
    requires '\n' !in value
    ensures '\n' !in EscapeQuotes(value)
  {
    if value != "" { EscapeHasNoBreak(value[1..]); }
  }

  lemma SpotIsRun(lines: seq<string>, task: string, field: string)
    requires FindAuxHeader(lines) < |lines| && IsWord(task)
    ensures var s := SpotOf(lines, task, field); !s.Fresh? ==> IsRun(s.indent)
  {
    hide FindAuxHeader, SpotOf, IsRun, IsWord;
    if !SpotOf(lines, task, field).Fresh? { SpotIndent(lines, task, field); }
  }

  lemma RunOfFour()
    ensures IsRun("    ")
  {
  }

  /** The lines of the file after a put into a file that has the block. */
  lemma ChangedLines(content: string, task: string, field: string, value: string)
    requires FindAuxHeader(SplitLines(content)) < |SplitLines(content)| && IsWord(task) && IsWord(field) &&
             '\n' !in value
    ensures var lines := SplitLines(content);
            SplitLines(SetField(content, task, field, value)) ==
              PutAt(lines, SpotOf(lines, task, field), task, field, value)
  {
    hide IsAuxHeader, FindAuxHeader, SplitLines, TaskLine, FieldLine, Join, NewBlock, SpotOf, IsWord, IsRun;
    var lines := SplitLines(content);
    var s := SpotOf(lines, task, field);
    var next := PutAt(lines, s, task, field, value);
    SplitIsPlain(content);
    SpotIsRun(lines, task, field);
    RunOfFour();
    WrittenIsPlain(task, field, if s.Fresh? then "    " else s.indent, value);
    assert next != [];
    forall l | l in next ensures '\n' !in l {
      assert l in lines || l == TaskLine(task) || l == FieldLine(if s.Fresh? then "    " else s.indent, field, value);
    }
    SplitOfJoin(next);
  }

  lemma SplitAppended(content: string, task: string, field: string, value: string)
    requires FindAuxHeader(SplitLines(content)) == |SplitLines(content)| && IsWord(task) && IsWord(field) &&
             '\n' !in value
    ensures SplitLines(SetField(content, task, field, value)) == BaseLines(content) + BlockLines(task, field, value)
  {
    hide IsAuxHeader, FindAuxHeader, SplitLines, TaskLine, FieldLine, Join, NewBlock, IsWord, IsRun;
    AppendedLines(content, task, field, value);
    BaseIsContent(content);
    RunOfFour();
    WrittenIsPlain(task, field, "    ", value);
    SplitOfJoin(BaseLines(content) + BlockLines(task, field, value));
  }

  lemma NoBreakIn(value: string)
    requires !HasTerminator(value)
    ensures '\n' !in value
  {
    forall i | 0 <= i < |value| ensures value[i] != '\n' { assert !IsTerminator(value[i]); }
  }

  /**
   * The last put counts, on every text: setting a field twice leaves exactly what the second set alone would,
   * provided the first value is one line. In particular a repeated set changes nothing.
   */
  lemma PutPut(content: string, task: string, field: string, v1: string, v2: string)
    requires IsWord(task) && IsWord(field) && !HasTerminator(v1)
    ensures SetField(SetField(content, task, field, v1), task, field, v2) == SetField(content, task, field, v2)
  {
    hide IsAuxHeader, FindAuxHeader, SplitLines, TaskLine, FieldLine, Join, NewBlock, SpotOf, IsWord, HasTerminator,
         PutAt, BaseLines;
    NoBreakIn(v1);
    var lines := SplitLines(content);
    if FindAuxHeader(lines) < |lines| {
      ChangedLines(content, task, field, v1);
      PutPutLines(lines, task, field, v1, v2);
    } else {
      var base, block := BaseLines(content), BlockLines(task, field, v1);
      AppendedLines(content, task, field, v1);
      SplitAppended(content, task, field, v1);
      AppendedLines(content, task, field, v2);
      var next := base + block;
      AppendedSpot(next, |base|, task, field, v1);
      ReplaceInBlock(base, task, field, v1, v2);
    }
  }

  lemma AppendedSpot(next: seq<string>, a: nat, task: string, field: string, value: string)
    requires IsWord(task) && IsWord(field) && !HasTerminator(value) && FindAuxHeader(next) == a && a + 2 < |next|
    requires next[a + 1] == TaskLine(task) && next[a + 2] == FieldLine("    ", field, value)
    ensures SpotOf(next, task, field) == Over(a + 2, "    ")
  {
    hide IsTop, FactOf, IndentRun, HasTerminator, FindAuxHeader, IsAuxHeader, IsWord, FieldLine, TaskIndent,
         FieldIndent, TaskLine, IsField, IsBody, SpotOf, Trim;
    RunOfFour();
    TaskLineFacts(task);
    FieldLineFacts("    ", field, value);
    SecondSpot(next, task, field, a + 1, a + 2, "    ", value);
  }

  lemma ReplaceInBlock(base: seq<string>, task: string, field: string, v1: string, v2: string)
    ensures PutAt(base + BlockLines(task, field, v1), Over(|base| + 2, "    "), task, field, v2) ==
              base + BlockLines(task, field, v2)
  {
    hide TaskLine, FieldLine;
  }
}
