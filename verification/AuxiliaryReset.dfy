/** Get after put on the text of the file, exactly; and what a reset leaves. */
module AuxiliaryReset {
  import opened Text
  import opened ConfigScalars
  import opened YamlPaths
  import opened Auxiliary
  import opened AuxiliaryLines
  import opened AuxiliaryTexts
  import opened AuxiliaryReads
  import opened AuxiliaryFrame
  import opened AuxiliaryWritten
  import opened AuxiliaryUnseen
  import opened AuxiliaryExact

  ghost predicate RegularText(content: string) {
    Regular(SplitLines(content))
  }

  // ---------------------------------------------------------------- get after put

  /** The written line is reached with its task open. */
  lemma BeforeIsOpen(lines: seq<string>, task: string, field: string)
    requires FindAuxHeader(lines) < |lines| && Regular(lines) && task in SLOTS && field in FIELDS
    ensures var s := SpotOf(lines, task, field);
            Walk([], BeforeSpot(lines, s, task), PathOf(task, field)) == Open([0, 2]) && RunAt(s) != "" &&
            IsRun(RunAt(s)) && |RunAt(s)| > 2
  {
    hide FactOf, FindAuxHeader, IsAuxHeader, BlockEnd, SpotOf, IsRun, Regular, TaskLine, FieldLine, PathOf, Walk, Leads,
         IsInBlock, SLOTS, FIELDS;
    SpotShape(lines, task, field);
    var s := SpotOf(lines, task, field);
    if s.Fresh? {
      OpenFresh(lines, task, field);
    } else {
      var row: nat :| Leads(lines, task, field, s, row);
      LeadsFacts(lines, task, field, s, row);
      OpenAtRow(lines, task, field, s, row);
    }
  }

  lemma OpenFresh(lines: seq<string>, task: string, field: string)
    requires FindAuxHeader(lines) < |lines| && Regular(lines) && task in SLOTS && field in FIELDS
    ensures Walk([], lines[..FindAuxHeader(lines) + 1] + [TaskLine(task)], PathOf(task, field)) == Open([0, 2]) &&
            IsRun("    ")
  {
    hide FactOf, FindAuxHeader, IsAuxHeader, IsRun, Regular, TaskLine, PathOf, Walk, SLOTS, FIELDS, IsWord;
    NamesAreWords();
    RunOfFour();
    WalkToHeader(lines, task, field);
    WalkFresh(lines[..FindAuxHeader(lines) + 1], task, field);
  }

  lemma OpenAtRow(lines: seq<string>, task: string, field: string, s: Spot, row: nat)
    requires FindAuxHeader(lines) < |lines| && Regular(lines) && Leads(lines, task, field, s, row) &&
             SpotFits(s, |lines|)
    ensures Walk([], lines[..s.row], PathOf(task, field)) == Open([0, 2])
  {
    hide FactOf, FindAuxHeader, IsAuxHeader, BlockEnd, IsRun, Regular, PathOf, Walk, IsInBlock, FieldIndent;
    BlockLinesAreIn(lines, FindAuxHeader(lines) + 1);
    WalkToSpot(lines, task, field, row, s.row);
  }

  lemma BaseIsForeign(content: string)
    requires RegularText(content) && FindAuxHeader(SplitLines(content)) == |SplitLines(content)|
    ensures forall l :: l in BaseLines(content) ==> IsForeign(l)
    ensures forall l :: l in SplitLines(content) ==> IsForeign(l)
  {
    hide IsForeign, SplitLines, FindAuxHeader, IsAuxHeader, BaseLines;
    BaseIsContent(content);
    var lines := SplitLines(content);
    forall l | l in lines ensures IsForeign(l) {
      var i :| 0 <= i < |lines| && lines[i] == l;
    }
  }

  /**
   * Get after put: in a regular file a put is read back as it was written if and only if the value is one
   * line, has no double quote and no padding. The writer escapes a quote; the reader stops at it.
   */
  lemma GetPut(content: string, task: string, field: string, value: string)
    requires RegularText(content) && task in SLOTS && field in FIELDS
    ensures ReadPath(SetField(content, task, field, value), PathOf(task, field)) == Some(value) <==> Survives(value)
    ensures '\n' !in value ==>
              ReadPath(SetField(content, task, field, value), PathOf(task, field)) == Some(ReadBack(value))
  {
    hide IsAuxHeader, FindAuxHeader, SplitLines, TaskLine, FieldLine, SpotOf, IsWord, IsRun, SLOTS, FIELDS, Walk,
         PathOf, Regular, BaseLines, Survives, ReadBack, BeforeSpot, AfterSpot, RunAt, SetField, ReadPath, IsForeign;
    NamesAreWords();
    if IsUnseen(content) {
      BaseIsForeign(content);
      PathShape(task, field);
      WalkForeign(SplitLines(content), PathOf(task, field));
      UnseenGetPutIff(content, task, field, value);
    } else {
      BeforeIsOpen(SplitLines(content), task, field);
      HeaderGetPutIff(content, task, field, value);
    }
  }

  // ---------------------------------------------------------------- everything else

  lemma BreakFree(value: string)
    requires !HasTerminator(value)
    ensures '\n' !in value
  {
    NoBreakIn(value);
  }

  /** A put changes no other read of a slot, and leaves the file regular. */
  lemma OthersStay(content: string, own: string, f: string, value: string, task: string, field: string)
    requires RegularText(content) && own in SLOTS && f in FIELDS && !HasTerminator(value) && task in SLOTS &&
             (own != task || f != field)
    ensures ReadPath(SetField(content, own, f, value), PathOf(task, field)) == ReadPath(content, PathOf(task, field))
  {
    hide IsAuxHeader, FindAuxHeader, SplitLines, TaskLine, FieldLine, SpotOf, IsWord, SLOTS, FIELDS, Walk, PathOf,
         Regular, BaseLines, SetField, ReadPath, IsForeign;
    hide HasTerminator, PutAt;
    NamesAreWords();
    PathShape(task, field);
    var lines, next := SplitLines(content), SetField(content, own, f, value);
    ReadIsWalk(content, PathOf(task, field));
    ReadIsWalk(next, PathOf(task, field));
    BreakFree(value);
    if FindAuxHeader(lines) < |lines| {
      ChangedLines(content, own, f, value);
      OtherReadsStay(lines, own, f, value, task, field);
    } else {
      UnseenOthersStay(content, own, f, value, task, field);
    }
  }

  lemma StaysRegular(content: string, own: string, f: string, value: string)
    requires RegularText(content) && own in SLOTS && f in FIELDS && !HasTerminator(value)
    ensures RegularText(SetField(content, own, f, value))
  {
    hide IsAuxHeader, FindAuxHeader, SplitLines, TaskLine, FieldLine, SpotOf, IsWord, SLOTS, FIELDS, Regular, BaseLines,
         SetField, IsForeign, HasTerminator, PutAt;
    NamesAreWords();
    var lines := SplitLines(content);
    BreakFree(value);
    if FindAuxHeader(lines) < |lines| {
      ChangedLines(content, own, f, value);
      PutKeepsRegular(lines, own, f, value);
    } else {
      SplitAppended(content, own, f, value);
      AppendedLines(content, own, f, value);
      BaseIsForeign(content);
      AppendedIsRegular(BaseLines(content), own, f, value);
    }
  }

  lemma AppendedIsRegular(base: seq<string>, own: string, f: string, value: string)
    requires (forall l :: l in base ==> IsForeign(l)) && own in SLOTS && f in FIELDS && !HasTerminator(value)
    requires FindAuxHeader(base + BlockLines(own, f, value)) == |base|
    ensures Regular(base + BlockLines(own, f, value))
  {
    hide IsAuxHeader, FindAuxHeader, TaskLine, FieldLine, SLOTS, FIELDS, IsForeign, HasTerminator, IsRegularLine, IsTop,
         BlockEnd, FactOf;
    var all := base + BlockLines(own, f, value);
    var a := |base| + 1;
    RunOfFour();
    TaskIsRegular(own);
    WrittenIsRegular("    ", f, value);
    EmptyIsRegular();
    assert all[a] == TaskLine(own) && all[a + 1] == FieldLine("    ", f, value) && all[a + 2] == "" && |all| == a + 3;
    BlockEndIs(all, a, a + 3);
    assert forall j :: 0 <= j < |base| ==> all[j] in base;
    ShallowTask(all[a..], own);
  }

  lemma EmptyIsRegular()
    ensures IsRegularLine("") && !IsTop("")
  {
    assert Trim(EcmaScript, "") == "" && FactOf("") == Skip;
  }

  // ---------------------------------------------------------------- many puts

  ghost predicate SetsFine(sets: seq<(string, string, string)>) {
    (forall i :: 0 <= i < |sets| ==>
      sets[i].0 in SLOTS && sets[i].1 in FIELDS && Survives(sets[i].2) && !HasTerminator(sets[i].2)) &&
    forall i, j :: 0 <= i < j < |sets| ==> sets[i].0 != sets[j].0 || sets[i].1 != sets[j].1
  }

  ghost predicate Untouched(sets: seq<(string, string, string)>, task: string, field: string) {
    forall i :: 0 <= i < |sets| ==> sets[i].0 != task || sets[i].1 != field
  }

  lemma {:induction false} SetsLeaveOthers(content: string, sets: seq<(string, string, string)>, task: string,
                                           field: string)
    requires RegularText(content) && SetsFine(sets) && task in SLOTS && Untouched(sets, task, field)
    ensures RegularText(SetFields(content, sets)) &&
            ReadPath(SetFields(content, sets), PathOf(task, field)) == ReadPath(content, PathOf(task, field))
    decreases |sets|
  {
    hide RegularText, SetField, ReadPath, PathOf, SLOTS, FIELDS, HasTerminator, Survives;
    if sets != [] {
      var next := SetField(content, sets[0].0, sets[0].1, sets[0].2);
      StaysRegular(content, sets[0].0, sets[0].1, sets[0].2);
      OthersStay(content, sets[0].0, sets[0].1, sets[0].2, task, field);
      assert SetsFine(sets[1..]);
      SetsLeaveOthers(next, sets[1..], task, field);
    }
  }

  /** After a list of puts of different fields, every one of them is read back. */
  lemma {:induction false} SetsAreRead(content: string, sets: seq<(string, string, string)>, i: nat)
    requires RegularText(content) && SetsFine(sets) && i < |sets|
    ensures ReadPath(SetFields(content, sets), PathOf(sets[i].0, sets[i].1)) == Some(sets[i].2)
    decreases |sets|
  {
    hide RegularText, SetField, ReadPath, PathOf, SLOTS, FIELDS, HasTerminator, Survives;
    var next := SetField(content, sets[0].0, sets[0].1, sets[0].2);
    StaysRegular(content, sets[0].0, sets[0].1, sets[0].2);
    assert SetsFine(sets[1..]);
    if i == 0 {
      GetPut(content, sets[0].0, sets[0].1, sets[0].2);
      assert Untouched(sets[1..], sets[0].0, sets[0].1);
      SetsLeaveOthers(next, sets[1..], sets[0].0, sets[0].1);
    } else {
      SetsAreRead(next, sets[1..], i - 1);
    }
  }

  lemma SlotsDiffer(i: nat, j: nat)
    requires i < j < |SLOTS|
    ensures SLOTS[i] != SLOTS[j]
  {
    assert SLOTS[1][0] == 'w' && SLOTS[2][0] == 'c' && SLOTS[6][1] == 'i' && SLOTS[7][1] == 'r' && SLOTS[8][0] == 'k' &&
           SLOTS[9][0] == 'p';
    assert |SLOTS[i]| == |SLOTS[j]| ==> SLOTS[i][0] != SLOTS[j][0] || SLOTS[i][1] != SLOTS[j][1];
  }

  lemma FieldsDiffer()
    ensures FIELDS == ["provider", "model", "base_url"] && "provider" != "model" && "model" != "base_url" &&
            "provider" != "base_url"
    ensures "provider" in FIELDS && "model" in FIELDS && "base_url" in FIELDS
  {
    assert FIELDS[0] == "provider" && FIELDS[1] == "model" && FIELDS[2] == "base_url";
    assert "provider"[0] == 'p' && "model"[0] == 'm' && "base_url"[0] == 'b';
  }

  ghost predicate OneLineValue(value: string) {
    Survives(value) && !HasTerminator(value)
  }

  lemma TaskSetsFine(task: string, provider: string, model: string, baseUrl: string)
    requires task in SLOTS && OneLineValue(provider) && OneLineValue(model) && OneLineValue(baseUrl)
    ensures SetsFine(TaskSets(task, provider, model, baseUrl))
  {
    hide SLOTS, FIELDS, Survives, HasTerminator;
    FieldsDiffer();
  }

  /** Setting a task shows exactly what was set there, and nothing else anywhere. */
  lemma TaskIsRead(content: string, task: string, provider: string, model: string, baseUrl: string, other: string)
    requires RegularText(content) && task in SLOTS && OneLineValue(provider) && OneLineValue(model) &&
             OneLineValue(baseUrl) && provider != ""
    requires other in SLOTS && other != task
    ensures var next := SetFields(content, TaskSets(task, provider, model, baseUrl));
            ReadTask(next, task) == TaskConfig(task, provider, model, baseUrl) &&
            ReadTask(next, other) == ReadTask(content, other)
  {
    hide SLOTS, FIELDS, OneLineValue, RegularText, ReadPath, SetFields, SetsFine;
    var sets := TaskSets(task, provider, model, baseUrl);
    TaskSetsFine(task, provider, model, baseUrl);
    SetsAreRead(content, sets, 0);
    SetsAreRead(content, sets, 1);
    SetsAreRead(content, sets, 2);
    SetsLeaveOthers(content, sets, other, "provider");
    SetsLeaveOthers(content, sets, other, "model");
    SetsLeaveOthers(content, sets, other, "base_url");
  }

  lemma {:induction false} ResetLength(slots: seq<string>)
    ensures |ResetSets(slots)| == 3 * |slots|
  {
    if slots != [] { ResetLength(slots[1..]); }
  }

  lemma {:induction false} ResetShape(slots: seq<string>, i: nat)
    requires i < |slots|
    ensures |ResetSets(slots)| == 3 * |slots|
    ensures ResetSets(slots)[3 * i] == (slots[i], "provider", "auto") &&
            ResetSets(slots)[3 * i + 1] == (slots[i], "model", "") &&
            ResetSets(slots)[3 * i + 2] == (slots[i], "base_url", "")
  {
    ResetLength(slots);
    ResetLength(slots[1..]);
    var rest := ResetSets(slots[1..]);
    assert ResetSets(slots) == TaskSets(slots[0], "auto", "", "") + rest;
    if i > 0 {
      ResetShape(slots[1..], i - 1);
      var k := 3 * (i - 1);
      assert ResetSets(slots)[k + 3] == rest[k] && ResetSets(slots)[k + 4] == rest[k + 1] &&
             ResetSets(slots)[k + 5] == rest[k + 2];
    }
  }

  lemma AutoSurvives()
    ensures OneLineValue("auto") && OneLineValue("")
  {
  }

  ghost predicate AllDiffer(slots: seq<string>) {
    forall i, j :: 0 <= i < j < |slots| ==> slots[i] != slots[j]
  }

  lemma ResetAt(slots: seq<string>, i: nat)
    requires i < 3 * |slots|
    ensures |ResetSets(slots)| == 3 * |slots| && i / 3 < |slots|
    ensures ResetSets(slots)[i] == (slots[i / 3], FIELDS[i % 3], if i % 3 == 0 then "auto" else "")
  {
    hide ResetSets;
    var k := i / 3;
    assert i == 3 * k + i % 3 && k < |slots|;
    ResetShape(slots, k);
    FieldsDiffer();
  }

  lemma DifferentSets(slots: seq<string>, i: nat, j: nat)
    requires AllDiffer(slots) && i < j < 3 * |slots| && i / 3 < |slots| && j / 3 < |slots|
    ensures slots[i / 3] != slots[j / 3] || FIELDS[i % 3] != FIELDS[j % 3]
  {
    FieldsDiffer();
    if i / 3 < j / 3 { assert slots[i / 3] != slots[j / 3]; }
  }

  lemma ResetIsFine(slots: seq<string>)
    requires AllDiffer(slots) && forall i :: 0 <= i < |slots| ==> slots[i] in SLOTS
    ensures SetsFine(ResetSets(slots))
  {
    hide SLOTS, Survives, HasTerminator, ResetSets, AllDiffer;
    AutoSurvives();
    FieldsDiffer();
    ResetLength(slots);
    var sets := ResetSets(slots);
    forall i | 0 <= i < |sets|
      ensures sets[i].0 in SLOTS && sets[i].1 in FIELDS && Survives(sets[i].2) && !HasTerminator(sets[i].2) {
      ResetAt(slots, i);
    }
    forall i, j | 0 <= i < j < |sets| ensures sets[i].0 != sets[j].0 || sets[i].1 != sets[j].1 {
      ResetAt(slots, i);
      ResetAt(slots, j);
      DifferentSets(slots, i, j);
    }
  }

  /** The reset leaves every slot on automatic, whatever the regular file said. */
  lemma ResetLeavesAuto(content: string, i: nat)
    requires RegularText(content) && i < |SLOTS|
    ensures ReadTask(SetFields(content, ResetSets(SLOTS)), SLOTS[i]) == TaskConfig(SLOTS[i], "auto", "", "")
  {
    hide SLOTS, FIELDS, RegularText, ReadPath, SetFields, SetsFine, ResetSets;
    assert AllDiffer(SLOTS) by {
      forall x, y | 0 <= x < y < |SLOTS| ensures SLOTS[x] != SLOTS[y] { SlotsDiffer(x, y); }
    }
    ResetIsFine(SLOTS);
    ResetShape(SLOTS, i);
    SetsAreRead(content, ResetSets(SLOTS), 3 * i);
    SetsAreRead(content, ResetSets(SLOTS), 3 * i + 1);
    SetsAreRead(content, ResetSets(SLOTS), 3 * i + 2);
  }

  // ---------------------------------------------------------------- a value that does not survive

  /** A quoted value is the failing side of get after put: the reader stops at the first quote, whatever the file. */
  lemma QuotedValueIsLost(content: string, task: string, field: string)
    requires RegularText(content) && task in SLOTS && field in FIELDS
    ensures ReadPath(SetField(content, task, field, "a\"b"), PathOf(task, field)) == Some("a\\")
  {
    hide SetField, ReadPath, SLOTS, FIELDS, RegularText;
    GetPut(content, task, field, "a\"b");
    EscapedExample();
  }

  lemma EscapedExample()
    ensures ReadBack("a\"b") == "a\\" && !Survives("a\"b")
  {
    var e := EscapeQuotes("a\"b");
    assert "a\"b"[1..] == "\"b" && "\"b"[1..] == "b" && "b"[1..] == "";
    assert EscapeQuotes("b") == "b";
    assert EscapeQuotes("\"b") == "\\\"b";
    assert e == "a\\\"b";
    assert e[1..] == "\\\"b" && e[1..][1..] == "\"b";
    assert IndexOf(e, '"') == 2;
    assert e[..2] == "a\\";
    TrimIsIdentityOnTight(EcmaScript, "a\\");
  }
}
