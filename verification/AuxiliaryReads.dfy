/** What is read after a put: the value put, and everything else as before; and what the reset leaves. */
module AuxiliaryReads {
  import opened Text
  import opened ConfigScalars
  import opened ConfigBlocks
  import opened YamlPaths
  import opened Auxiliary
  import opened AuxiliaryLines
  import opened AuxiliaryLaws

  const AUX := "auxiliary"

  function PathOf(task: string, field: string): seq<string> {
    [AUX, task, field]
  }

  lemma PathShape(task: string, field: string)
    ensures var p := PathOf(task, field); p != [] && p[0] == AUX
  {
  }

  function Value(p: Place): Option<string> {
    if p.Found? then p.value else None
  }

  // ---------------------------------------------------------------- regular files

  /** No line, at any indent, that the reader would take for the block. */
  predicate IsForeign(line: string) {
    var f := FactOf(line); f.Pair? ==> f.key != AUX
  }

  /**
   * In the block, slot names stand at two spaces and alone on their line, and field names in a form the setter finds.
   */
  predicate IsRegularLine(line: string) {
    var f := FactOf(line);
    f.Pair? ==>
      (f.key in SLOTS ==> TaskIndent(line, f.key) == Some("  ")) &&
      (f.key in FIELDS ==> FieldIndent(line, f.key).Some?)
  }

  /** The first line that counts is at most two deep. */
  predicate StartsShallow(lines: seq<string>) {
    lines == [] || var f := FactOf(lines[0]); if f.Skip? then StartsShallow(lines[1..]) else f.indent <= 2
  }

  /** Two-space task indent and flat task bodies; no second thing called `auxiliary` before the block. */
  ghost predicate Regular(lines: seq<string>) {
    var a := FindAuxHeader(lines);
    (forall j :: 0 <= j < a ==> IsForeign(lines[j])) &&
    (a < |lines| ==>
      (forall j :: a < j < BlockEnd(lines, a + 1) ==> IsRegularLine(lines[j])) &&
      StartsShallow(lines[a + 1..]))
  }

  lemma NamesAreWords()
    ensures forall s :: s in SLOTS ==> IsWord(s) && s !in FIELDS && s != AUX
    ensures forall s :: s in FIELDS ==> IsWord(s) && s != AUX
  {
    forall i | 0 <= i < |SLOTS| ensures IsWord(SLOTS[i]) && SLOTS[i] !in FIELDS && SLOTS[i] != AUX {
      SlotIsWord(i);
    }
  }

  lemma SlotIsWord(i: nat)
    requires i < |SLOTS|
    ensures IsWord(SLOTS[i]) && SLOTS[i] !in FIELDS && SLOTS[i] != AUX
  {
  }

  // ---------------------------------------------------------------- walking through a regular file

  lemma {:induction false} WalkForeign(lines: seq<string>, parts: seq<string>)
    requires parts != [] && parts[0] == AUX && forall j :: 0 <= j < |lines| ==> IsForeign(lines[j])
    ensures Walk([], lines, parts) == Open([])
    decreases |lines|
  {
    hide FactOf;
    if lines != [] {
      assert IsForeign(lines[0]);
      WalkForeign(lines[1..], parts);
    }
  }

  lemma VisitHeader(line: string, task: string, field: string)
    requires IsAuxHeader(line)
    ensures Visit([], FactOf(line), PathOf(task, field)) == Open([0])
  {
    hide FactOf, IsAuxHeader;
    HeaderFact(line);
  }

  /** Everything before the block is passed over, and its header opened. */
  lemma WalkToHeader(lines: seq<string>, task: string, field: string)
    requires Regular(lines) && FindAuxHeader(lines) < |lines|
    ensures Walk([], lines[..FindAuxHeader(lines) + 1], PathOf(task, field)) == Open([0])
  {
    hide FactOf, IsAuxHeader, Visit, Walk, IsForeign, IsRegularLine, FindAuxHeader, PathOf, BlockEnd, StartsShallow;
    PathShape(task, field);
    var a := FindAuxHeader(lines);
    WalkForeign(lines[..a], PathOf(task, field));
    assert lines[..a + 1] == lines[..a] + [lines[a]];
    WalkConcat([], lines[..a], [lines[a]], PathOf(task, field));
    WalkOne([], lines[a], PathOf(task, field));
    VisitHeader(lines[a], task, field);
  }

  /** A line deeper than both frames, or deeper than the block with only that frame open. */
  predicate IsInBlock(line: string) {
    var f := FactOf(line); f.Skip? || f.indent > 0
  }

  /** Walking over block lines that do not name the task looked for. */
  lemma {:induction false} WalkOtherTasks(lines: seq<string>, task: string, field: string)
    requires forall j :: 0 <= j < |lines| ==>
               IsInBlock(lines[j]) && (FactOf(lines[j]).Pair? ==> FactOf(lines[j]).key != task)
    ensures Walk([0], lines, PathOf(task, field)) == Open([0])
    decreases |lines|
  {
    hide FactOf;
    if lines != [] {
      assert IsInBlock(lines[0]) && (FactOf(lines[0]).Pair? ==> FactOf(lines[0]).key != task);
      WalkOtherTasks(lines[1..], task, field);
    }
  }

  /** Walking over body lines that do not name the field looked for. */
  lemma {:induction false} WalkOtherFields(lines: seq<string>, t: nat, task: string, field: string)
    requires t > 0 && forall j :: 0 <= j < |lines| ==>
               (FactOf(lines[j]).Skip? || FactOf(lines[j]).indent > t) &&
               (FactOf(lines[j]).Pair? ==> FactOf(lines[j]).key != field)
    ensures Walk([0, t], lines, PathOf(task, field)) == Open([0, t])
    decreases |lines|
  {
    hide FactOf;
    if lines != [] {
      assert (FactOf(lines[0]).Skip? || FactOf(lines[0]).indent > t) &&
             (FactOf(lines[0]).Pair? ==> FactOf(lines[0]).key != field);
      WalkOtherFields(lines[1..], t, task, field);
    }
  }

  // ---------------------------------------------------------------- get after put

  lemma VisitTask(task: string, field: string, line: string, t: nat)
    requires FactOf(line) == Pair(t, task, None) && t > 0
    ensures Visit([0], FactOf(line), PathOf(task, field)) == Open([0, t])
  {
  }

  /** Row `row` opens the task, and nothing up to the spot names the task or the field before. */
  ghost predicate Leads(lines: seq<string>, task: string, field: string, s: Spot, row: nat) {
    !s.Fresh? && FindAuxHeader(lines) < row < |lines| &&
    row < s.row <= BlockEnd(lines, FindAuxHeader(lines) + 1) <= |lines| && SpotFits(s, |lines|) &&
    (s.Over? ==>
      s.row < BlockEnd(lines, FindAuxHeader(lines) + 1) &&
      FieldIndent(lines[s.row], field) == Some(s.indent)) &&
    FactOf(lines[row]) == Pair(2, task, None) && s.indent != "" && IsRun(s.indent) && |s.indent| > 2 &&
    (s.Under? ==> s.row == row + 1) &&
    (forall j :: FindAuxHeader(lines) < j < row ==> FactOf(lines[j]).Pair? ==> FactOf(lines[j]).key != task) &&
    forall j :: row < j < s.row ==>
      (FactOf(lines[j]).Skip? || FactOf(lines[j]).indent > 2) &&
      (FactOf(lines[j]).Pair? ==> FactOf(lines[j]).key != field)
  }

  lemma SpotShape(lines: seq<string>, task: string, field: string)
    requires FindAuxHeader(lines) < |lines| && Regular(lines) && task in SLOTS && field in FIELDS
    ensures var a, s := FindAuxHeader(lines) + 1, SpotOf(lines, task, field);
            if s.Fresh? then s.at == a else exists row: nat :: Leads(lines, task, field, s, row)
  {
    hide IsTop, FactOf, IndentRun, FindAuxHeader, IsAuxHeader, BlockEnd, FindTask, IsWord, TaskIndent, FieldIndent,
         IsBody, IsField, SpotOf, IsRun;
    hide StartsShallow, IsRegularLine, IsForeign, SLOTS, FIELDS;
    var a, s := FindAuxHeader(lines) + 1, SpotOf(lines, task, field);
    SpotInBlock(lines, task, field);
    if !s.Fresh? {
      NamesAreWords();
      SpotFacts(lines, task, field);
      SpotIndent(lines, task, field);
      var row := FindTask(lines, task, a, BlockEnd(lines, a));
      RegularTask(lines[row], task);
      BeforeTask(lines, a, row, task);
      BeforeField(lines, row + 1, s.row, field);
      assert Leads(lines, task, field, s, row);
    }
  }

  lemma RegularTask(line: string, task: string)
    requires IsRegularLine(line) && task in SLOTS && TaskIndent(line, task).Some?
    ensures TaskIndent(line, task) == Some("  ") && FactOf(line) == Pair(2, task, None)
  {
    hide FactOf, IndentRun, AfterName, SLOTS, FIELDS;
    NamesAreWords();
    TaskFact(line, task);
  }

  lemma BeforeTask(lines: seq<string>, a: nat, row: nat, task: string)
    requires a <= row <= |lines| && task in SLOTS
    requires forall j :: a <= j < row ==> IsRegularLine(lines[j]) && TaskIndent(lines[j], task).None?
    ensures forall j :: a <= j < row ==> FactOf(lines[j]).Pair? ==> FactOf(lines[j]).key != task
  {
    hide FactOf, TaskIndent, SLOTS, FIELDS;
    forall j | a <= j < row ensures FactOf(lines[j]).Pair? ==> FactOf(lines[j]).key != task {
      assert IsRegularLine(lines[j]) && TaskIndent(lines[j], task).None?;
    }
  }

  lemma BeforeField(lines: seq<string>, from: nat, at: nat, field: string)
    requires from <= at <= |lines| && field in FIELDS
    requires forall j :: from <= j < at ==>
               IsRegularLine(lines[j]) && IsBody(lines[j], "  ") && !IsField(lines[j], field, "  ")
    ensures forall j :: from <= j < at ==>
              (FactOf(lines[j]).Skip? || FactOf(lines[j]).indent > 2) &&
              (FactOf(lines[j]).Pair? ==> FactOf(lines[j]).key != field)
  {
    hide FactOf, IsBody, IsField, IsRegularLine, SLOTS, FIELDS;
    forall j | from <= j < at ensures (FactOf(lines[j]).Skip? || FactOf(lines[j]).indent > 2) &&
      (FactOf(lines[j]).Pair? ==> FactOf(lines[j]).key != field) {
      BodyIsDeep(lines[j], "  ");
      NoFieldThere(lines[j], field);
    }
  }

  lemma NoFieldThere(line: string, field: string)
    requires IsBody(line, "  ") && !IsField(line, field, "  ") && IsRegularLine(line) && field in FIELDS
    ensures FactOf(line).Pair? ==> FactOf(line).key != field
  {
    hide FactOf, AfterName, Trim, HasTerminator, IsWord, IndentRun, TaskIndent;
    NamesAreWords();
    if FactOf(line).Pair? && FactOf(line).key == field {
      FieldFact(line, field);
      NotBlank(line);
    }
  }

  lemma BlockLinesAreIn(lines: seq<string>, a: nat)
    requires a <= |lines|
    ensures forall j :: a <= j < BlockEnd(lines, a) ==> IsInBlock(lines[j])
  {
    hide IsTop, FactOf, BlockEnd;
    forall j | a <= j < BlockEnd(lines, a) ensures IsInBlock(lines[j]) { NotTopIsIndented(lines[j]); }
  }

  /** The state of a walk for another field or task just after the header or just before the edited line. */
  lemma WalkToRow(lines: seq<string>, task: string, field: string, row: nat)
    requires FindAuxHeader(lines) < row < |lines| && Regular(lines) && FactOf(lines[row]) == Pair(2, task, None)
    requires forall j :: FindAuxHeader(lines) < j < row ==>
               IsInBlock(lines[j]) && (FactOf(lines[j]).Pair? ==> FactOf(lines[j]).key != task)
    ensures Walk([], lines[..row + 1], PathOf(task, field)) == Open([0, 2])
  {
    hide FactOf, Visit, Walk, FindAuxHeader, IsAuxHeader, Regular, IsInBlock, PathOf;
    var a := FindAuxHeader(lines) + 1;
    WalkToHeader(lines, task, field);
    WalkSegment(lines, a, row, task, field);
    RowSplits(lines, a, row);
    WalkThree(lines[..a], lines[a..row], lines[row], task, field);
  }

  lemma RowSplits(lines: seq<string>, a: nat, row: nat)
    requires a <= row < |lines|
    ensures lines[..row + 1] == lines[..a] + lines[a..row] + [lines[row]]
  {
  }

  lemma WalkSegment(lines: seq<string>, a: nat, row: nat, task: string, field: string)
    requires a <= row <= |lines| &&
             forall j :: a <= j < row ==>
               IsInBlock(lines[j]) && (FactOf(lines[j]).Pair? ==> FactOf(lines[j]).key != task)
    ensures Walk([0], lines[a..row], PathOf(task, field)) == Open([0])
  {
    hide FactOf, Walk, PathOf, IsInBlock;
    WalkOtherTasks(lines[a..row], task, field);
  }

  lemma WalkThree(before: seq<string>, mid: seq<string>, line: string, task: string, field: string)
    requires Walk([], before, PathOf(task, field)) == Open([0]) && Walk([0], mid, PathOf(task, field)) == Open([0])
    requires FactOf(line) == Pair(2, task, None)
    ensures Walk([], before + mid + [line], PathOf(task, field)) == Open([0, 2])
  {
    hide FactOf, Visit, Walk, PathOf;
    var parts := PathOf(task, field);
    WalkConcat([], before + mid, [line], parts);
    WalkConcat([], before, mid, parts);
    WalkOne([0], line, parts);
    VisitTask(task, field, line, 2);
  }

  /** The value of a line that is reached with its task open, under whatever indents. */
  lemma WalkFindsField(before: seq<string>, line: string, after: seq<string>, task: string, field: string, n: nat,
                       v: Option<string>)
    requires var p := Walk([], before, PathOf(task, field)); p.Open? && |p.stack| == 2 && p.stack[1] < n
    requires FactOf(line) == Pair(n, field, v)
    ensures Walk([], before + [line] + after, PathOf(task, field)) == Found(v)
  {
    hide FactOf, Walk;
    var parts := PathOf(task, field);
    var stack := Walk([], before, parts).stack;
    assert before + [line] + after == before + ([line] + after);
    WalkConcat([], before, [line] + after, parts);
    WalkConcat(stack, [line], after, parts);
    WalkOne(stack, line, parts);
  }

  lemma WalkFresh(before: seq<string>, task: string, field: string)
    requires Walk([], before, PathOf(task, field)) == Open([0]) && IsWord(task)
    ensures Walk([], before + [TaskLine(task)], PathOf(task, field)) == Open([0, 2])
  {
    hide FactOf, Visit, Walk, PathOf, TaskLine, IsWord;
    TaskLineFacts(task);
    WalkConcat([], before, [TaskLine(task)], PathOf(task, field));
    WalkOne([0], TaskLine(task), PathOf(task, field));
    VisitTask(task, field, TaskLine(task), 2);
  }

  lemma WalkToSpot(lines: seq<string>, task: string, field: string, row: nat, at: nat)
    requires FindAuxHeader(lines) < row < at <= |lines| && Regular(lines) && FactOf(lines[row]) == Pair(2, task, None)
    requires forall j :: FindAuxHeader(lines) < j < row ==>
               IsInBlock(lines[j]) && (FactOf(lines[j]).Pair? ==> FactOf(lines[j]).key != task)
    requires forall j :: row < j < at ==>
               (FactOf(lines[j]).Skip? || FactOf(lines[j]).indent > 2) &&
               (FactOf(lines[j]).Pair? ==> FactOf(lines[j]).key != field)
    ensures Walk([], lines[..at], PathOf(task, field)) == Open([0, 2])
  {
    hide FactOf, FindAuxHeader, IsAuxHeader, Regular, IsInBlock, PathOf, Walk;
    WalkToRow(lines, task, field, row);
    WalkBody(lines, row + 1, at, task, field);
    SplitAt(lines, row + 1, at);
    WalkConcat([], lines[..row + 1], lines[row + 1..at], PathOf(task, field));
  }

  lemma SplitAt(lines: seq<string>, a: nat, at: nat)
    requires a <= at <= |lines|
    ensures lines[..at] == lines[..a] + lines[a..at]
  {
  }

  lemma WalkBody(lines: seq<string>, a: nat, at: nat, task: string, field: string)
    requires a <= at <= |lines|
    requires forall j :: a <= j < at ==>
               (FactOf(lines[j]).Skip? || FactOf(lines[j]).indent > 2) &&
               (FactOf(lines[j]).Pair? ==> FactOf(lines[j]).key != field)
    ensures Walk([0, 2], lines[a..at], PathOf(task, field)) == Open([0, 2])
  {
    hide FactOf, PathOf, Walk;
    WalkOtherFields(lines[a..at], 2, task, field);
  }
}
