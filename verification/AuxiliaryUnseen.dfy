/** Get after put where the setter does not see the block and appends one of its own, exactly. */
module AuxiliaryUnseen {
  import opened Text
  import opened YamlPaths
  import opened Auxiliary
  import opened AuxiliaryLines
  import opened AuxiliaryTexts
  import opened AuxiliaryReads
  import opened AuxiliaryFrame
  import opened AuxiliaryWritten

  // ---------------------------------------------------------------- a block the setter does not see

  /** The setter's pattern matches no line: there is no block, or its header has more behind the colon than blanks. */
  predicate IsUnseen(content: string) {
    FindAuxHeader(SplitLines(content)) == |SplitLines(content)|
  }

  /** Where the reader comes to in a file. */
  function Reached(content: string, task: string, field: string): Place {
    Walk([], SplitLines(content), PathOf(task, field))
  }

  lemma {:induction false} NothingStaysOpen(stack: seq<nat>)
    ensures Pop(stack, 0) == []
    decreases |stack|
  {
    if stack != [] { NothingStaysOpen(stack[..|stack| - 1]); }
  }

  /** The header line of a new block closes whatever was open before it. */
  lemma HeaderOpens(stack: seq<nat>, rest: seq<string>, task: string, field: string)
    ensures Walk(stack, ["auxiliary:"] + rest, PathOf(task, field)) == Walk([0], rest, PathOf(task, field))
  {
    hide FactOf, Walk;
    var parts := PathOf(task, field);
    WalkConcat(stack, ["auxiliary:"], rest, parts);
    WalkOne(stack, "auxiliary:", parts);
    PlainHeader();
    HeaderFact("auxiliary:");
    NothingStaysOpen(stack);
    assert Visit(stack, FactOf("auxiliary:"), parts) == Open([0]);
  }

  /** A new block is reached with its own frames open, whatever was open before. */
  lemma OpensBehind(base: seq<string>, task: string, field: string)
    requires Walk([], base, PathOf(task, field)).Open? && IsWord(task)
    ensures Walk([], base + ["auxiliary:", TaskLine(task)], PathOf(task, field)) == Open([0, 2])
  {
    hide FactOf, Walk, TaskLine, IsWord;
    var parts := PathOf(task, field);
    var stack := Walk([], base, parts).stack;
    WalkConcat([], base, ["auxiliary:"] + [TaskLine(task)], parts);
    HeaderOpens(stack, [TaskLine(task)], task, field);
    WalkOne([0], TaskLine(task), parts);
    TaskLineFacts(task);
    VisitNewTask(task, task, field);
    assert base + ["auxiliary:", TaskLine(task)] == base + (["auxiliary:"] + [TaskLine(task)]);
  }

  lemma ReachedInBase(content: string, task: string, field: string)
    ensures var p, q := Reached(content, task, field), Walk([], BaseLines(content), PathOf(task, field));
            p == q
  {
    hide SplitLines, Walk, BaseLines, PathOf;
    var parts, base := PathOf(task, field), BaseLines(content);
    LinesAreBase(content);
    WalkConcat([], base, [""], parts);
    var q := Walk([], base, parts);
    if q.Open? { EmptyIsSkipped(q.stack, parts); }
  }

  /** A key that the reader reaches, with or without a value, hides every block appended behind it. */
  lemma UnseenBlockHidesPut(content: string, task: string, field: string, value: string)
    requires IsUnseen(content) && IsWord(task) && IsWord(field) && Reached(content, task, field).Found?
    ensures ReadPath(SetField(content, task, field, value), PathOf(task, field)) ==
              ReadPath(content, PathOf(task, field))
  {
    hide IsAuxHeader, FindAuxHeader, SplitLines, TaskLine, FieldLine, IsWord, Walk, PathOf, BaseLines, SetField,
         ReadPath;
    PathShape(task, field);
    var parts, base := PathOf(task, field), BaseLines(content);
    ReadIsWalk(content, parts);
    ReadIsWalk(SetField(content, task, field, value), parts);
    AppendedText(content, task, field, value);
    ReachedInBase(content, task, field);
    var rest := ["auxiliary:", TaskLine(task)] + SplitLines(FieldLine("    ", field, value)) + [""];
    WalkConcat([], base, rest, parts);
    assert base + ["auxiliary:", TaskLine(task)] + SplitLines(FieldLine("    ", field, value)) + [""] == base + rest;
  }

  /**
   * Get after put for a setter that sees no block: where the reader already reaches the key, a put is read
   * back only by holding the value read before; everywhere else it is read back if and only if the value survives.
   */
  lemma UnseenGetPutIff(content: string, task: string, field: string, value: string)
    requires IsUnseen(content) && IsWord(task) && IsWord(field)
    ensures var p := Reached(content, task, field);
            var read := ReadPath(SetField(content, task, field, value), PathOf(task, field));
            (read == Some(value) <==> if p.Found? then p.value == Some(value) else Survives(value)) &&
            (p.Open? && '\n' !in value ==> read == Some(ReadBack(value)))
  {
    hide IsAuxHeader, FindAuxHeader, SplitLines, TaskLine, FieldLine, IsWord, IsRun, Walk, PathOf, BaseLines, Survives,
         SetField, ReadPath, ReadBack;
    PathShape(task, field);
    ReachedInBase(content, task, field);
    if Reached(content, task, field).Found? {
      UnseenBlockHidesPut(content, task, field, value);
      ReadIsWalk(content, PathOf(task, field));
    } else {
      ReadIsWalk(SetField(content, task, field, value), PathOf(task, field));
      AppendedText(content, task, field, value);
      OpensBehind(BaseLines(content), task, field);
      RunOfFour();
      ReadAtLine(BaseLines(content) + ["auxiliary:", TaskLine(task)], "    ", [""], task, field, value);
    }
  }

  /** For a setter that sees no block, a put changes no other read. */
  lemma UnseenOthersStay(content: string, own: string, f: string, value: string, task: string, field: string)
    requires IsUnseen(content) && own in SLOTS && f in FIELDS && '\n' !in value && task in SLOTS
    requires own != task || f != field
    ensures ReadPath(SetField(content, own, f, value), PathOf(task, field)) == ReadPath(content, PathOf(task, field))
  {
    hide FindAuxHeader, SplitLines, TaskLine, FieldLine, IsWord, Walk, PathOf, BaseLines, SetField, ReadPath, SLOTS,
         FIELDS;
    NamesAreWords();
    PathShape(task, field);
    var parts, base := PathOf(task, field), BaseLines(content);
    ReadIsWalk(content, parts);
    ReadIsWalk(SetField(content, own, f, value), parts);
    SplitAppended(content, own, f, value);
    ReachedInBase(content, task, field);
    var two := [TaskLine(own)] + ([FieldLine("    ", f, value)] + [""]);
    assert base + BlockLines(own, f, value) == base + (["auxiliary:"] + two);
    WalkConcat([], base, ["auxiliary:"] + two, parts);
    var p := Walk([], base, parts);
    if p.Open? {
      HeaderOpens(p.stack, two, task, field);
      TwoLines(own, f, value, [""], task, field);
      EmptyIsSkipped(if own == task then [0, 2] else [0], parts);
    }
  }

  const COMMENTED := "auxiliary: # x\n  vision:\n    provider:\n"

  /**
   * The failing kind at one file: a comment hides the header from the setter, and a key without a value hides every
   * put.
   */
  lemma ValuelessKeyHidesPut(value: string)
    ensures IsUnseen(COMMENTED) && Reached(COMMENTED, "vision", "provider") == Found(None)
    ensures ReadPath(SetField(COMMENTED, "vision", "provider", value), PathOf("vision", "provider")) == None
  {
    hide IsAuxHeader, FindAuxHeader, SplitLines, FactOf, ParseScalar, SetField, ReadPath;
    var lines := ["auxiliary: # x", "  vision:", "    provider:", ""];
    CommentedLines(lines);
    CommentedFacts(lines);
    var parts := PathOf("vision", "provider");
    assert lines[1..] == [lines[1], lines[2], ""] && lines[1..][1..] == [lines[2], ""];
    assert Visit([], FactOf(lines[0]), parts) == Open([0]);
    assert Visit([0], FactOf(lines[1]), parts) == Open([0, 2]);
    assert Walk([0, 2], lines[1..][1..], parts) == Found(None);
    assert Walk([0], lines[1..], parts) == Found(None);
    assert Walk([], lines, parts) == Found(None);
    UnseenBlockHidesPut(COMMENTED, "vision", "provider", value);
    ReadIsWalk(COMMENTED, parts);
  }

  lemma CommentedLines(lines: seq<string>)
    requires lines == ["auxiliary: # x", "  vision:", "    provider:", ""]
    ensures SplitLines(COMMENTED) == lines && IsUnseen(COMMENTED)
  {
    hide SplitLines, Join, IsAuxHeader, FindAuxHeader;
    FourJoin("auxiliary: # x", "  vision:", "    provider:", "");
    assert COMMENTED == "auxiliary: # x" + "\n" + ("  vision:" + "\n" + ("    provider:" + "\n" + ""));
    SplitOfJoin(lines);
    forall i | 0 <= i < |lines| ensures !IsAuxHeader(lines[i]) { NoHeaderThere(lines, i); }
  }

  lemma NoHeaderThere(lines: seq<string>, i: nat)
    requires lines == ["auxiliary: # x", "  vision:", "    provider:", ""] && i < |lines|
    ensures !IsAuxHeader(lines[i])
  {
    if i == 0 {
      assert lines[0][|"auxiliary:"|..][1] == '#';
    } else if i < 3 {
      assert lines[i][0] == ' ';
    }
  }

  lemma CommentedFacts(lines: seq<string>)
    requires lines == ["auxiliary: # x", "  vision:", "    provider:", ""]
    ensures FactOf(lines[0]).Pair? && FactOf(lines[0]).indent == 0 && FactOf(lines[0]).key == AUX
    ensures FactOf(lines[1]) == Pair(2, "vision", None) && FactOf(lines[2]) == Pair(4, "provider", None)
    ensures IsWord("vision") && IsWord("provider")
  {
    hide FactOf, ParseScalar;
    assert lines[0] == "" + ("auxiliary" + (":" + " # x"));
    WordLine("", "auxiliary", " # x");
    assert lines[1] == "  " + ("vision" + (":" + ""));
    WordLine("  ", "vision", "");
    assert lines[2] == "    " + ("provider" + (":" + ""));
    WordLine("    ", "provider", "");
    RunIsBlank("");
  }
}
