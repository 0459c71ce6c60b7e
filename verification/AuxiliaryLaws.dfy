/** The lens laws of the auxiliary fields: put after put, get after put, and what other reads see. */
module AuxiliaryLaws {
  import opened Text
  import opened ConfigScalars
  import opened ConfigBlocks
  import opened YamlPaths
  import opened Auxiliary
  import opened AuxiliaryLines

  // ---------------------------------------------------------------- the last put counts

  lemma HeaderOfChanged(lines: seq<string>, next: seq<string>, a: nat)
    requires FindAuxHeader(lines) == a < |lines| && a < |next| && next[..a + 1] == lines[..a + 1]
    ensures FindAuxHeader(next) == a
  {
    hide FindAuxHeader, IsAuxHeader;
    assert forall j :: 0 <= j <= a ==> next[j] == next[..a + 1][j] == lines[..a + 1][j] == lines[j];
    assert IsAuxHeader(next[a]) && forall j :: 0 <= j < a ==> !IsAuxHeader(next[j]);
  }

  /** Where a second put into the same task goes: on the line the first one wrote. */
  lemma SecondSpot(next: seq<string>, task: string, field: string, row: nat, at: nat, run: string, value: string)
    requires IsWord(task) && IsWord(field) && !HasTerminator(value) && run != "" && IsRun(run)
    requires FindAuxHeader(next) < row < at < |next| && next[at] == FieldLine(run, field, value)
    requires TaskIndent(next[row], task).Some? && |TaskIndent(next[row], task).value| < |run|
    requires forall j :: FindAuxHeader(next) < j < row ==> TaskIndent(next[j], task).None?
    requires forall j :: FindAuxHeader(next) < j <= at ==> !IsTop(next[j])
    requires forall j :: row < j < at ==>
               IsBody(next[j], TaskIndent(next[row], task).value) &&
               !IsField(next[j], field, TaskIndent(next[row], task).value)
    ensures SpotOf(next, task, field) == Over(at, run)
  {
    hide IsTop, FactOf, Trim, IndentRun, HasTerminator, FindAuxHeader, BlockEnd, FindTask, TaskEnd, FindField, IsWord,
         FieldLine, TaskIndent, FieldIndent, NewIndent;
    var a := FindAuxHeader(next) + 1;
    var z := BlockEnd(next, a);
    assert z > at;
    assert FindTask(next, task, a, z) == row;
    var indent := TaskIndent(next[row], task).value;
    FieldLineFacts(run, field, value);
    assert IsBody(next[at], indent) && IsField(next[at], field, indent);
    var end := TaskEnd(next, indent, row + 1, z);
    assert end > at;
    assert FindField(next, field, indent, row + 1, end) == at;
  }

  lemma SpotUnfolds(lines: seq<string>, task: string, field: string)
    requires FindAuxHeader(lines) < |lines|
    ensures var a := FindAuxHeader(lines) + 1;
            var z := BlockEnd(lines, a);
            var row := FindTask(lines, task, a, z);
            SpotOf(lines, task, field) ==
              if row == z then Fresh(a)
              else
                var indent := TaskIndent(lines[row], task).value;
                var end := TaskEnd(lines, indent, row + 1, z);
                var at := FindField(lines, field, indent, row + 1, end);
                if at < end then
                  (FieldHasIndent(lines[at], field, indent); Over(at, FieldIndent(lines[at], field).value))
                else Under(row + 1, NewIndent(lines, indent + "  ", row + 1, end))
  {
    hide IsTop, IsAuxHeader, IsField, TaskIndent, FieldIndent, NewIndent, IsBody, FindAuxHeader, BlockEnd, FindTask,
         TaskEnd, FindField;
  }

  lemma FieldIsDeeper(line: string, field: string, taskIndent: string)
    requires IsField(line, field, taskIndent)
    ensures FieldIndent(line, field).Some? && |FieldIndent(line, field).value| > |taskIndent|
  {
    hide FieldIndent;
  }

  lemma SpotFacts(lines: seq<string>, task: string, field: string)
    requires FindAuxHeader(lines) < |lines| && !SpotOf(lines, task, field).Fresh?
    ensures var a, s := FindAuxHeader(lines) + 1, SpotOf(lines, task, field);
            var z := BlockEnd(lines, a);
            var row := FindTask(lines, task, a, z);
            row < z && TaskIndent(lines[row], task).Some? &&
            var indent := TaskIndent(lines[row], task).value;
            row < s.row <= z && (s.Over? ==>
              s.row < z && FieldIndent(lines[s.row], field) == Some(s.indent) && |s.indent| > |indent|) &&
            (s.Under? ==> s.row == row + 1) &&
            forall j :: row < j < s.row ==> IsBody(lines[j], indent) && !IsField(lines[j], field, indent)
  {
    hide IsTop, IsAuxHeader, IsField, TaskIndent, FieldIndent, NewIndent, IsBody, FindAuxHeader, BlockEnd, FindTask,
         TaskEnd, FindField, SpotOf;
    SpotUnfolds(lines, task, field);
    var a, s := FindAuxHeader(lines) + 1, SpotOf(lines, task, field);
    var row := FindTask(lines, task, a, BlockEnd(lines, a));
    if s.Over? { FieldIsDeeper(lines[s.row], field, TaskIndent(lines[row], task).value); }
  }

  lemma {:induction false} NewIndentIsDeeper(lines: seq<string>, taskIndent: string, indent: string, i: nat, end: nat)
    requires i <= end <= |lines| && IsRun(indent) && indent != "" && |indent| > |taskIndent|
    requires forall j :: i <= j < end ==> IsBody(lines[j], taskIndent)
    ensures var r := NewIndent(lines, indent, i, end); IsRun(r) && r != "" && |r| > |taskIndent|
    decreases end - i
  {
    hide Trim, IndentRun;
    if i < end {
      IndentRunPrefix(lines[i]);
      NewIndentIsDeeper(lines, taskIndent,
        if Trim(EcmaScript, lines[i]) == "" then indent else lines[i][..IndentRun(lines[i])], i + 1, end);
    }
  }

  /** The indent a put writes with is a run of blanks deeper than the task. */
  lemma SpotIndent(lines: seq<string>, task: string, field: string)
    requires FindAuxHeader(lines) < |lines| && !SpotOf(lines, task, field).Fresh? && IsWord(task)
    ensures var a, s := FindAuxHeader(lines) + 1, SpotOf(lines, task, field);
            var row := FindTask(lines, task, a, BlockEnd(lines, a));
            TaskIndent(lines[row], task).Some? && s.indent != "" && IsRun(s.indent) &&
            |s.indent| > |TaskIndent(lines[row], task).value|
  {
    hide IsTop, Trim, FindAuxHeader, BlockEnd, FindTask, TaskEnd, FindField, IsWord, IndentRun, NewIndent,
         HasTerminator;
    SpotFacts(lines, task, field);
    var a, s := FindAuxHeader(lines) + 1, SpotOf(lines, task, field);
    var z := BlockEnd(lines, a);
    var row := FindTask(lines, task, a, z);
    if s.Over? {
      AfterNameShape(lines[s.row], field);
    } else {
      AfterNameShape(lines[row], task);
      var indent := TaskIndent(lines[row], task).value;
      DeeperRun(indent);
      NewIndentIsDeeper(lines, indent, indent + "  ", row + 1, TaskEnd(lines, indent, row + 1, z));
    }
  }

  lemma DeeperRun(indent: string)
    requires IsRun(indent)
    ensures IsRun(indent + "  ") && |indent + "  "| > |indent|
  {
  }

  /** The spot of a repeated put. */
  function NextSpot(s: Spot): Spot {
    match s
    case Fresh(at) => Over(at + 1, "    ")
    case Over(row, indent) => s
    case Under(row, indent) => Over(row, indent)
  }

  lemma SecondAfterFresh(lines: seq<string>, task: string, field: string, value: string)
    requires IsWord(task) && IsWord(field) && !HasTerminator(value) && FindAuxHeader(lines) < |lines|
    ensures var a := FindAuxHeader(lines) + 1;
            var next := PutAt(lines, Fresh(a), task, field, value);
            FindAuxHeader(next) == a - 1 && SpotOf(next, task, field) == Over(a + 1, "    ")
  {
    hide IsTop, FactOf, IndentRun, HasTerminator, FindAuxHeader, IsWord, FieldLine, TaskIndent, FieldIndent, TaskLine,
         IsField, SpotOf;
    var a := FindAuxHeader(lines) + 1;
    var next := PutAt(lines, Fresh(a), task, field, value);
    assert next[a] == TaskLine(task) && next[a + 1] == FieldLine("    ", field, value) && next[..a] == lines[..a];
    HeaderOfChanged(lines, next, a - 1);
    TaskLineFacts(task);
    FieldLineFacts("    ", field, value);
    SecondSpot(next, task, field, a, a + 1, "    ", value);
  }

  lemma SecondAfterField(lines: seq<string>, next: seq<string>, task: string, field: string, row: nat, at: nat,
                         run: string, value: string)
    requires IsWord(task) && IsWord(field) && !HasTerminator(value) && run != "" && IsRun(run)
    requires FindAuxHeader(lines) < row < at < |next| && at <= |lines| && next[..at] == lines[..at] &&
             next[at] == FieldLine(run, field, value)
    requires TaskIndent(lines[row], task).Some? && |TaskIndent(lines[row], task).value| < |run|
    requires forall j :: FindAuxHeader(lines) < j < row ==> TaskIndent(lines[j], task).None?
    requires forall j :: FindAuxHeader(lines) < j < at ==> !IsTop(lines[j])
    requires forall j :: row < j < at ==>
               IsBody(lines[j], TaskIndent(lines[row], task).value) &&
               !IsField(lines[j], field, TaskIndent(lines[row], task).value)
    ensures FindAuxHeader(next) == FindAuxHeader(lines) && SpotOf(next, task, field) == Over(at, run)
  {
    hide IsTop, FactOf, IndentRun, HasTerminator, FindAuxHeader, IsWord, FieldLine, TaskIndent, FieldIndent, IsBody,
         IsField, SpotOf;
    var a := FindAuxHeader(lines);
    assert forall j :: 0 <= j < at ==> next[j] == next[..at][j] == lines[..at][j] == lines[j];
    assert next[..a + 1] == lines[..a + 1];
    HeaderOfChanged(lines, next, a);
    FieldLineFacts(run, field, value);
    SecondSpot(next, task, field, row, at, run, value);
  }

  lemma SecondSpotAfter(lines: seq<string>, task: string, field: string, value: string)
    requires IsWord(task) && IsWord(field) && !HasTerminator(value) && FindAuxHeader(lines) < |lines|
    ensures var s := SpotOf(lines, task, field);
            var next := PutAt(lines, s, task, field, value);
            FindAuxHeader(next) == FindAuxHeader(lines) < |next| && SpotOf(next, task, field) == NextSpot(s)
  {
    hide IsTop, FactOf, HasTerminator, FindAuxHeader, BlockEnd, FindTask, IsWord, FieldLine, TaskIndent, FieldIndent,
         TaskLine, IsBody, IsField, SpotOf, IsRun;
    var a, s := FindAuxHeader(lines) + 1, SpotOf(lines, task, field);
    if s.Fresh? {
      SpotInBlock(lines, task, field);
      SecondAfterFresh(lines, task, field, value);
    } else {
      var next := PutAt(lines, s, task, field, value);
      SpotFacts(lines, task, field);
      SpotIndent(lines, task, field);
      SecondAfterField(lines, next, task, field, FindTask(lines, task, a, BlockEnd(lines, a)), s.row, s.indent, value);
    }
  }

  lemma SpotInBlock(lines: seq<string>, task: string, field: string)
    requires FindAuxHeader(lines) < |lines|
    ensures var a, s := FindAuxHeader(lines) + 1, SpotOf(lines, task, field); s.Fresh? ==> s.at == a
  {
    hide IsTop, TaskIndent, FieldIndent, NewIndent, IsBody, FindAuxHeader, BlockEnd, FindTask, TaskEnd, FindField;
  }

  /** Two puts of a field into the same lines leave what the second alone would. */
  lemma PutPutLines(lines: seq<string>, task: string, field: string, v1: string, v2: string)
    requires IsWord(task) && IsWord(field) && !HasTerminator(v1) && FindAuxHeader(lines) < |lines|
    ensures var next := PutAt(lines, SpotOf(lines, task, field), task, field, v1);
            FindAuxHeader(next) < |next| &&
            PutAt(next, SpotOf(next, task, field), task, field, v2) ==
              PutAt(lines, SpotOf(lines, task, field), task, field, v2)
  {
    hide FieldLine, SpotOf, TaskLine, IsWord, HasTerminator, FindAuxHeader;
    SecondSpotAfter(lines, task, field, v1);
    var s := SpotOf(lines, task, field);
    var next := PutAt(lines, s, task, field, v1);
    assert PutAt(next, SpotOf(next, task, field), task, field, v2) == PutAt(lines, s, task, field, v2);
  }
}
