/**
 * The `auxiliary:` block as people write it: tasks in any order, fields with blank lines, comments and lists between.
 * A set changes the one line it should, or puts one in where it should, and nothing else.
 */
module AuxiliaryBlocks {
  import opened Text
  import opened ConfigScalars
  import opened ConfigBlocks
  import opened Auxiliary
  import opened AuxiliaryLines

  /** A line under a task: a field, or a line that is no key. */
  datatype Row = Field(key: string, raw: string) | Loose(text: string)

  datatype Task = Task(name: string, rows: seq<Row>)

  // ---------------------------------------------------------------- what may be written

  /** A blank line, or a comment or a list item at the indent of the fields. */
  ghost predicate IsLoose(text: string, field: string) {
    '\n' !in text &&
    (!HasInk(EcmaScript, text) || exists rest: string :: text == field + ("#" + rest) || text == field + ("- " + rest))
  }

  ghost predicate IsRow(row: Row, field: string) {
    match row
    case Field(key, raw) => IsWord(key) && !HasTerminator(raw)
    case Loose(text) => IsLoose(text, field)
  }

  ghost predicate IsTask(task: Task, field: string) {
    IsWord(task.name) && forall i :: 0 <= i < |task.rows| ==> IsRow(task.rows[i], field)
  }

  ghost predicate AreTasks(tasks: seq<Task>, field: string) {
    forall i :: 0 <= i < |tasks| ==> IsTask(tasks[i], field)
  }

  /** Another name, and no field of this name without a value. */
  predicate IsOther(task: Task, name: string) {
    task.name != name && forall i :: 0 <= i < |task.rows| ==>
      task.rows[i].Field? && task.rows[i].key == name ==> HasInk(EcmaScript, task.rows[i].raw)
  }

  predicate AreOthers(tasks: seq<Task>, name: string) {
    forall i :: 0 <= i < |tasks| ==> IsOther(tasks[i], name)
  }

  predicate IsIndentOf(s: string) {
    s != "" && IsRun(s)
  }

  /** Lines before the block: none of them is its key alone on its line. */
  predicate IsBefore(head: seq<string>) {
    forall i :: 0 <= i < |head| ==> '\n' !in head[i] && !IsAuxHeader(head[i])
  }

  /** Lines behind the block, from the first on that begins with something but white space. */
  predicate IsBehind(foot: seq<string>) {
    (foot != [] ==> foot[0] != "" && !IsSpace(EcmaScript, foot[0][0])) &&
    forall i :: 0 <= i < |foot| ==> '\n' !in foot[i]
  }

  // ---------------------------------------------------------------- how it is written

  function RowText(row: Row, field: string): string {
    match row
    case Field(key, raw) => field + (key + (":" + raw))
    case Loose(text) => text
  }

  function RowLines(rows: seq<Row>, field: string): (r: seq<string>)
    ensures |r| == |rows|
  {
    seq(|rows|, i requires 0 <= i < |rows| => RowText(rows[i], field))
  }

  function TaskText(task: Task, t: string, f: string): seq<string> {
    [t + (task.name + ":")] + RowLines(task.rows, f)
  }

  function AllText(tasks: seq<Task>, t: string, f: string): seq<string> {
    if tasks == [] then [] else TaskText(tasks[0], t, f) + AllText(tasks[1..], t, f)
  }

  // ---------------------------------------------------------------- what a set should do

  /** A value as it is put behind the colon: in quotes, the quotes inside it with a backslash. */
  function Put(value: string): string {
    " \"" + (ReplaceChar(value, '"', "\\\"") + "\"")
  }

  predicate HasField(rows: seq<Row>, key: string) {
    exists i :: 0 <= i < |rows| && rows[i].Field? && rows[i].key == key
  }

  /** The first field of the name gets the value; without one it becomes the first line of the task. */
  function SetRow(rows: seq<Row>, key: string, value: string): seq<Row> {
    if HasField(rows, key) then Over(rows, key, value) else [Field(key, Put(value))] + rows
  }

  function Over(rows: seq<Row>, key: string, value: string): (r: seq<Row>)
    ensures |r| == |rows|
  {
    if rows == [] then []
    else if rows[0].Field? && rows[0].key == key then [Field(key, Put(value))] + rows[1..]
    else [rows[0]] + Over(rows[1..], key, value)
  }

  // ---------------------------------------------------------------- what the setter sees in a line

  /** The name before the first colon. */
  lemma NamedBy(key: string, rest: string, name: string)
    requires IsWord(key) && IsWord(name)
    ensures StartsWith(key + (":" + rest), name + ":") <==> key == name
  {
    hide IsWordChar;
    WordChars();
    var t, n := key + (":" + rest), name + ":";
    assert t == key + [':'] + rest && n == name + [':'] + "";
    assert ':' !in key && ':' !in name;
    IndexOfFirst(key, ':', rest);
    if StartsWith(t, n) {
      assert t[..|name|] == n[..|name|] == name;
      assert t[|name|] == n[|name|] == ':';
      assert forall i :: 0 <= i < |name| ==> t[i] == name[i];
      assert |name| == IndexOf(t, ':');
      assert t[..|key|] == key;
    }
  }

  lemma NameIs(run: string, key: string, rest: string, name: string)
    requires IsIndentOf(run) && IsWord(key) && IsWord(name)
    ensures AfterName(run + (key + (":" + rest)), name) == if key == name then Some((run, rest)) else None
  {
    hide IsWordChar, IndentRun, IsRun;
    WordChars();
    if key == name {
      AfterNameIs(run, name, rest);
    } else {
      var t := key + (":" + rest);
      IndentRunIs(run, t);
      assert (run + t)[|run|..] == t;
      NamedBy(key, rest, name);
    }
  }

  lemma NotNamed(u: string, name: string)
    requires IsWord(name)
    requires u == "" || IsSpace(EcmaScript, u[0]) || u[0] == '#' || (|u| > 1 && u[0] == '-' && u[1] == ' ')
    ensures !StartsWith(u, name + ":")
  {
    hide IsWordChar, IsSpace;
    WordChars();
    assert IsWordChar(name[0]) && (name + ":")[0] == name[0];
    assert (name + ":")[1] == if |name| == 1 then ':' else name[1];
    assert |name| > 1 ==> IsWordChar(name[1]);
  }

  lemma LooseHasNoName(text: string, field: string, name: string)
    requires IsLoose(text, field) && IsIndentOf(field) && IsWord(name)
    ensures AfterName(text, name).None?
  {
    hide IsWordChar, IndentRun, IsSpace, IsRun;
    WordChars();
    if HasInk(EcmaScript, text) {
      var x: string :| text == field + ("#" + x) || text == field + ("- " + x);
      var t := if text == field + ("#" + x) then "#" + x else "- " + x;
      IndentRunIs(field, t);
      assert text[|field|..] == t;
      NotNamed(t, name);
    } else {
      NotNamed(text[IndentRun(text)..], name);
    }
  }

  /** A row is part of the body, ends no block, and is no task of another name. */
  lemma RowReads(row: Row, t: string, f: string, name: string)
    requires IsRow(row, f) && IsIndentOf(f) && |t| < |f| && IsWord(name)
    requires row.Field? && row.key == name ==> HasInk(EcmaScript, row.raw)
    ensures var line := RowText(row, f);
            IsBody(line, t) && !IsTop(line) && '\n' !in line && TaskIndent(line, name).None?
  {
    hide IsWordChar, IndentRun, IsSpace, Trim, AfterName, HasTerminator, IsTop, IsBody;
    RowIsDeep(row, t, f);
    match row
    case Field(key, raw) =>
      NameIs(f, key, raw, name);
      if key == name { InkIsNoRun(raw); }
    case Loose(text) => LooseHasNoName(text, f, name);
  }

  lemma InkIsNoRun(raw: string)
    requires HasInk(EcmaScript, raw)
    ensures !IsRun(raw)
  {
    WordChars();
  }

  lemma RowIsDeep(row: Row, t: string, f: string)
    requires IsRow(row, f) && IsIndentOf(f) && |t| < |f|
    ensures var line := RowText(row, f); IsBody(line, t) && !IsTop(line) && '\n' !in line
    ensures row.Field? ==> var line := RowText(row, f); HasInk(EcmaScript, line) && line[..IndentRun(line)] == f
    ensures row.Loose? && HasInk(EcmaScript, row.text) ==> row.text[..IndentRun(row.text)] == f
  {
    hide IsWordChar, IndentRun, Trim, IsSpace;
    WordChars();
    var line := RowText(row, f);
    InkIff(EcmaScript, line);
    if row.Field? {
      var body := row.key + (":" + row.raw);
      IndentRunIs(f, body);
      assert line == f + body && line[|f|] == row.key[0] && IsWordChar(row.key[0]);
      assert HasInk(EcmaScript, line);
      RunHasNoBreak(f);
      TextHasNoBreak(row.key, row.raw);
    } else if HasInk(EcmaScript, row.text) {
      var rest: string :| line == f + ("#" + rest) || line == f + ("- " + rest);
      var body := if line == f + ("#" + rest) then "#" + rest else "- " + rest;
      IndentRunIs(f, body);
      assert line == f + body;
    }
    assert HasInk(EcmaScript, line) ==> line[0] == f[0];
  }

  lemma RunHasNoBreak(f: string)
    requires IsRun(f)
    ensures '\n' !in f
  {
  }

  lemma TextHasNoBreak(key: string, raw: string)
    requires IsWord(key) && !HasTerminator(raw)
    ensures '\n' !in key + (":" + raw)
  {
    forall i | 0 <= i < |raw| ensures raw[i] != '\n' { assert !IsTerminator(raw[i]); }
  }

  /** The line of a task. */
  lemma TaskReads(name: string, t: string, other: string)
    requires IsIndentOf(t) && IsWord(name) && IsWord(other)
    ensures var line := t + (name + ":");
            !IsTop(line) && '\n' !in line && !IsBody(line, t) &&
            TaskIndent(line, other) == if name == other then Some(t) else None
  {
    hide IsWordChar, IndentRun, Trim, AfterName, IsSpace;
    WordChars();
    var line := t + (name + ":");
    assert line == t + (name + (":" + ""));
    NameIs(t, name, "", other);
    IndentRunIs(t, name + ":");
    assert line[|t|] == name[0] && IsWordChar(name[0]);
    assert HasInk(EcmaScript, line);
    InkIff(EcmaScript, line);
    assert line[0] == t[0];
    TextHasNoBreak(name, "");
    assert name + ":" == name + (":" + "");
  }

  // ---------------------------------------------------------------- where the setter looks

  predicate IsPlainLine(l: string) {
    !IsTop(l) && '\n' !in l
  }

  ghost predicate ArePlain(lines: seq<string>) {
    forall i :: 0 <= i < |lines| ==> IsPlainLine(lines[i])
  }

  ghost predicate HaveNoTask(lines: seq<string>, name: string) {
    forall i :: 0 <= i < |lines| ==> TaskIndent(lines[i], name).None?
  }

  /** Rows of a task belong to it, and name no other. */
  lemma RowsRead(rows: seq<Row>, t: string, f: string, name: string)
    requires (forall i :: 0 <= i < |rows| ==> IsRow(rows[i], f)) && IsIndentOf(f) && |t| < |f| && IsWord(name)
    ensures var lines := RowLines(rows, f);
            ArePlain(lines) && (forall i :: 0 <= i < |lines| ==> IsBody(lines[i], t)) &&
            (IsOther(Task(name + "x", rows), name) ==> HaveNoTask(lines, name))
  {
    hide RowText, IsRow, IsBody, IsTop, TaskIndent, HasInk, IsWord;
    LongerName(name);
    forall i | 0 <= i < |rows|
      ensures IsPlainLine(RowText(rows[i], f)) && IsBody(RowText(rows[i], f), t) &&
              (IsOther(Task(name + "x", rows), name) ==> TaskIndent(RowText(rows[i], f), name).None?)
    {
      RowIsDeep(rows[i], t, f);
      if IsOther(Task(name + "x", rows), name) { RowReads(rows[i], t, f, name); }
    }
  }

  lemma LongerName(name: string)
    ensures name + "x" != name
  {
    assert |name + "x"| == |name| + 1;
  }

  lemma {:induction false} TasksRead(tasks: seq<Task>, t: string, f: string, name: string)
    requires AreTasks(tasks, f) && IsIndentOf(t) && IsIndentOf(f) && |t| < |f| && IsWord(name)
    ensures ArePlain(AllText(tasks, t, f)) && (AreOthers(tasks, name) ==> HaveNoTask(AllText(tasks, t, f), name))
    ensures tasks != [] ==> AllText(tasks, t, f) != [] && !IsBody(AllText(tasks, t, f)[0], t)
  {
    hide IsTask, IsOther, IsBody, IsPlainLine, TaskIndent, IsWord, RowLines;
    if tasks != [] {
      var task := tasks[0];
      OneTaskReads(task, t, f, name);
      TasksRead(tasks[1..], t, f, name);
      assert AllText(tasks, t, f)[0] == TaskText(task, t, f)[0];
    }
  }

  lemma OneTaskReads(task: Task, t: string, f: string, name: string)
    requires IsTask(task, f) && IsIndentOf(t) && IsIndentOf(f) && |t| < |f| && IsWord(name)
    ensures var lines := TaskText(task, t, f);
            ArePlain(lines) && (IsOther(task, name) ==> HaveNoTask(lines, name)) && !IsBody(lines[0], t)
  {
    hide IsRow, IsBody, IsPlainLine, TaskIndent, IsWord, RowLines, HasInk;
    LongerName(name);
    RowsRead(task.rows, t, f, name);
    TaskReads(task.name, t, name);
    assert IsPlainLine(t + (task.name + ":")) by { TaskIsPlain(task.name, t); }
  }

  lemma TaskIsPlain(name: string, t: string)
    requires IsIndentOf(t) && IsWord(name)
    ensures IsPlainLine(t + (name + ":"))
  {
    TaskReads(name, t, name);
  }

  /** A file with one block. */
  function FileOf(head: seq<string>, run: string, body: seq<string>, foot: seq<string>): seq<string> {
    head + ["auxiliary:" + run] + body + foot
  }

  lemma HeaderLine(run: string)
    requires IsRun(run)
    ensures IsAuxHeader("auxiliary:" + run) && '\n' !in "auxiliary:" + run
  {
    assert ("auxiliary:" + run)[|"auxiliary:"|..] == run;
    RunHasNoBreak(run);
  }

  lemma FileParts(head: seq<string>, run: string, body: seq<string>, foot: seq<string>)
    ensures var lines, a := FileOf(head, run, body, foot), |head| + 1;
            |lines| == a + |body| + |foot| && lines[|head|] == "auxiliary:" + run &&
            (forall i :: 0 <= i < |head| ==> lines[i] == head[i]) &&
            (forall i :: a <= i < a + |body| ==> lines[i] == body[i - a]) &&
            (foot != [] ==> lines[a + |body|] == foot[0])
  {
  }

  lemma BlockFound(head: seq<string>, run: string, body: seq<string>, foot: seq<string>)
    requires IsBefore(head) && IsRun(run) && ArePlain(body) && IsBehind(foot)
    ensures var lines := FileOf(head, run, body, foot);
            FindAuxHeader(lines) == |head| && BlockEnd(lines, |head| + 1) == |head| + 1 + |body|
  {
    hide IsAuxHeader, IsTop, FindAuxHeader, BlockEnd, IsSpace, FileOf;
    var lines, a, z := FileOf(head, run, body, foot), |head|, |head| + 1 + |body|;
    HeaderLine(run);
    FileParts(head, run, body, foot);
    assert FindAuxHeader(lines) == a;
    forall i | a < i < z ensures !IsTop(lines[i]) { assert IsPlainLine(body[i - a - 1]); }
    if foot != [] { InkAtStart(foot[0]); }
    assert BlockEnd(lines, a + 1) == z;
  }

  lemma InkAtStart(l: string)
    requires l != "" && !IsSpace(EcmaScript, l[0])
    ensures IsTop(l)
  {
    hide IsSpace;
    InkIff(EcmaScript, l);
  }

  /** The lines of a block around one of its tasks. */
  function Around(before: seq<Task>, task: Task, after: seq<Task>, t: string, f: string): seq<string> {
    AllText(before, t, f) + TaskText(task, t, f) + AllText(after, t, f)
  }

  ghost predicate IsBlock(before: seq<Task>, task: Task, after: seq<Task>, t: string, f: string) {
    AreTasks(before, f) && IsTask(task, f) && AreTasks(after, f) && AreOthers(before, task.name) && IsIndentOf(t) &&
    IsIndentOf(f) && |t| < |f|
  }

  lemma AroundIsPlain(before: seq<Task>, task: Task, after: seq<Task>, t: string, f: string)
    requires IsBlock(before, task, after, t, f)
    ensures ArePlain(Around(before, task, after, t, f))
  {
    hide IsPlainLine, IsTask, IsOther, IsBody, AllText, TaskText, IsWord;
    WordOfTask(task, f);
    TasksRead(before, t, f, task.name);
    TasksRead(after, t, f, task.name);
    OneTaskReads(task, t, f, task.name);
  }

  lemma WordOfTask(task: Task, f: string)
    requires IsTask(task, f)
    ensures IsWord(task.name)
  {
  }

  /** The task is found, and its body is what stands under it. */
  lemma TaskFound(head: seq<string>, run: string, before: seq<Task>, task: Task, after: seq<Task>, t: string, f: string,
                  foot: seq<string>)
    requires IsBlock(before, task, after, t, f)
    ensures var lines := FileOf(head, run, Around(before, task, after, t, f), foot);
            var a := |head| + 1;
            var row, z := a + |AllText(before, t, f)|, a + |Around(before, task, after, t, f)|;
            row + |task.rows| < z <= |lines| && FindTask(lines, task.name, a, z) == row &&
            TaskIndent(lines[row], task.name) == Some(t) && TaskEnd(lines, t, row + 1, z) == row + 1 + |task.rows| &&
            forall i :: row < i <= row + |task.rows| ==> lines[i] == RowText(task.rows[i - row - 1], f)
  {
    hide IsPlainLine, IsOther, IsBody, IsWord, FindTask, TaskEnd, TaskIndent, IsRow, RowText, Around, FileOf, TaskText,
         AllText;
    var b, own := AllText(before, t, f), TaskText(task, t, f);
    var body := Around(before, task, after, t, f);
    var lines, a := FileOf(head, run, body, foot), |head| + 1;
    var row, z, end := a + |b|, a + |body|, a + |b| + 1 + |task.rows|;
    FileParts(head, run, body, foot);
    AroundParts(before, task, after, t, f);
    TasksRead(before, t, f, task.name);
    TasksRead(after, t, f, task.name);
    TaskReads(task.name, t, task.name);
    RowsRead(task.rows, t, f, task.name);
    forall i | a <= i < row ensures TaskIndent(lines[i], task.name).None? { assert lines[i] == b[i - a]; }
    assert lines[row] == body[|b|];
    assert FindTask(lines, task.name, a, z) == row;
    forall i | row < i < end ensures lines[i] == RowText(task.rows[i - row - 1], f) && IsBody(lines[i], t) {
      assert lines[i] == body[|b| + (i - row)] == RowLines(task.rows, f)[i - row - 1];
    }
    if end < z { assert lines[end] == body[|b| + 1 + |task.rows|]; }
    assert TaskEnd(lines, t, row + 1, z) == end;
  }

  lemma AroundParts(before: seq<Task>, task: Task, after: seq<Task>, t: string, f: string)
    ensures var body, b, c := Around(before, task, after, t, f), AllText(before, t, f), AllText(after, t, f);
            |body| == |b| + 1 + |task.rows| + |c| && body[|b|] == t + (task.name + ":") &&
            (forall i :: 0 <= i < |b| ==> body[i] == b[i]) &&
            (forall i :: |b| < i <= |b| + |task.rows| ==> body[i] == RowLines(task.rows, f)[i - |b| - 1]) &&
            (c != [] ==> body[|b| + 1 + |task.rows|] == c[0]) && (c == [] <==> after == [])
  {
    hide AllText, RowText;
    NoText(after, t, f);
  }

  lemma NoText(tasks: seq<Task>, t: string, f: string)
    ensures AllText(tasks, t, f) == [] <==> tasks == []
  {
  }

  // ---------------------------------------------------------------- the field

  predicate IsNamed(row: Row, key: string) {
    row.Field? && row.key == key
  }

  lemma FieldIff(row: Row, t: string, f: string, key: string)
    requires IsRow(row, f) && IsIndentOf(f) && |t| < |f| && IsWord(key)
    ensures IsField(RowText(row, f), key, t) <==> IsNamed(row, key)
    ensures IsNamed(row, key) ==> FieldIndent(RowText(row, f), key) == Some(f)
  {
    hide AfterName, HasTerminator, IsWord, IsLoose;
    match row
    case Field(k, raw) => NameIs(f, k, raw, key);
    case Loose(text) => LooseHasNoName(text, f, key);
  }

  lemma FieldText(f: string, key: string, value: string)
    ensures FieldLine(f, key, value) == RowText(Field(key, Put(value)), f)
  {
    var e := ReplaceChar(value, '"', "\\\"");
    assert ": " + ("\"" + (e + "\"")) == ":" + (" \"" + (e + "\""));
  }

  lemma {:induction false} OverAt(rows: seq<Row>, key: string, value: string) returns (k: nat)
    requires HasField(rows, key)
    ensures k < |rows| && IsNamed(rows[k], key) && (forall i :: 0 <= i < k ==> !IsNamed(rows[i], key)) &&
            Over(rows, key, value) == rows[k := Field(key, Put(value))]
  {
    hide Put;
    if rows[0].Field? && rows[0].key == key {
      k := 0;
    } else {
      assert HasField(rows[1..], key) by {
        var i :| 0 <= i < |rows| && rows[i].Field? && rows[i].key == key;
        assert rows[1..][i - 1] == rows[i];
      }
      k := OverAt(rows[1..], key, value);
      k := k + 1;
    }
  }

  lemma {:induction false} NewIndentIs(lines: seq<string>, indent: string, i: nat, end: nat, f: string)
    requires i <= end <= |lines|
    requires forall j :: i <= j < end ==> HasInk(EcmaScript, lines[j]) ==> lines[j][..IndentRun(lines[j])] == f
    ensures NewIndent(lines, indent, i, end) ==
            if exists j :: i <= j < end && HasInk(EcmaScript, lines[j]) then f else indent
    decreases end - i
  {
    hide HasInk, IndentRun, Trim;
    if i < end {
      InkIff(EcmaScript, lines[i]);
      NewIndentIs(lines, if HasInk(EcmaScript, lines[i]) then lines[i][..IndentRun(lines[i])] else indent, i + 1, end,
        f);
    }
  }

  /** The rows show the indent of the fields, or it is two columns deeper than that of the tasks. */
  predicate ShowsIndent(rows: seq<Row>, t: string, f: string) {
    f == t + "  " || exists i :: 0 <= i < |rows| && HasInk(EcmaScript, RowText(rows[i], f))
  }

  lemma IndentShown(lines: seq<string>, row: nat, task: Task, t: string, f: string)
    requires row + |task.rows| < |lines| && IsTask(task, f) && ShowsIndent(task.rows, t, f) && IsIndentOf(f) &&
             |t| < |f|
    requires forall i :: row < i <= row + |task.rows| ==> lines[i] == RowText(task.rows[i - row - 1], f)
    ensures NewIndent(lines, t + "  ", row + 1, row + 1 + |task.rows|) == f
  {
    hide HasInk, IndentRun, RowText, IsRow, NewIndent;
    var end := row + 1 + |task.rows|;
    forall j | row + 1 <= j < end && HasInk(EcmaScript, lines[j]) ensures lines[j][..IndentRun(lines[j])] == f {
      var r := task.rows[j - row - 1];
      RowIsDeep(r, t, f);
      assert r.Loose? ==> RowText(r, f) == r.text by { LooseText(r, f); }
    }
    NewIndentIs(lines, t + "  ", row + 1, end, f);
    if i :| 0 <= i < |task.rows| && HasInk(EcmaScript, RowText(task.rows[i], f)) {
      assert HasInk(EcmaScript, lines[row + 1 + i]);
    }
  }

  lemma LooseText(row: Row, f: string)
    ensures row.Loose? ==> RowText(row, f) == row.text
  {
  }

  // ---------------------------------------------------------------- main results

  ghost predicate IsFile(head: seq<string>, run: string, foot: seq<string>) {
    IsBefore(head) && IsRun(run) && IsBehind(foot)
  }

  lemma FileIsLines(head: seq<string>, run: string, body: seq<string>, foot: seq<string>)
    requires IsFile(head, run, foot) && ArePlain(body)
    ensures SplitLines(Join(FileOf(head, run, body, foot), "\n")) == FileOf(head, run, body, foot)
  {
    hide IsAuxHeader, IsTop, IsSpace;
    HeaderLine(run);
    var lines := FileOf(head, run, body, foot);
    forall l | l in lines ensures '\n' !in l {
      assert l in head || l == "auxiliary:" + run || l in body || l in foot;
      if l in body { var i :| 0 <= i < |body| && body[i] == l; assert IsPlainLine(body[i]); }
    }
    SplitOfJoin(lines);
  }

  lemma RowsWithout(rows: seq<Row>, key: string)
    ensures HasField(rows, key) <==> exists i :: 0 <= i < |rows| && IsNamed(rows[i], key)
  {
  }

  /** The field is looked for in the rows of the task. */
  lemma FieldFound(lines: seq<string>, row: nat, task: Task, t: string, f: string, key: string)
    requires row + |task.rows| < |lines| && IsTask(task, f) && IsIndentOf(f) && |t| < |f| && IsWord(key)
    requires forall i :: row < i <= row + |task.rows| ==> lines[i] == RowText(task.rows[i - row - 1], f)
    ensures var end := row + 1 + |task.rows|;
            var at := FindField(lines, key, t, row + 1, end);
            if HasField(task.rows, key) then
              at == row + 1 + FirstNamed(task.rows, key) && FieldIndent(lines[at], key) == Some(f)
            else at == end
  {
    hide IsWord, IsRow, RowText, FindField, IsField, FieldIndent, FirstNamed;
    var end := row + 1 + |task.rows|;
    forall i | row < i < end
      ensures IsField(lines[i], key, t) <==> IsNamed(task.rows[i - row - 1], key)
      ensures IsNamed(task.rows[i - row - 1], key) ==> FieldIndent(lines[i], key) == Some(f)
    {
      FieldIff(task.rows[i - row - 1], t, f, key);
    }
    RowsWithout(task.rows, key);
    if HasField(task.rows, key) {
      var at := row + 1 + FirstNamed(task.rows, key);
      assert IsNamed(task.rows[at - row - 1], key) && IsField(lines[at], key, t);
      assert forall i :: row < i < at ==> !IsNamed(task.rows[i - row - 1], key) && !IsField(lines[i], key, t);
      assert FindField(lines, key, t, row + 1, end) == at;
    } else {
      assert FindField(lines, key, t, row + 1, end) == end;
    }
  }

  /** Where the edit goes in a block that holds the task. */
  lemma SpotInTask(head: seq<string>, run: string, before: seq<Task>, task: Task, after: seq<Task>, t: string,
                   f: string,
                   foot: seq<string>, key: string, value: string) returns (row: nat)
    requires IsFile(head, run, foot) && IsBlock(before, task, after, t, f) && IsWord(key) &&
             ShowsIndent(task.rows, t, f)
    ensures row == |head| + 1 + |AllText(before, t, f)|
    ensures var lines := FileOf(head, run, Around(before, task, after, t, f), foot);
            row + |task.rows| < |lines| && FindAuxHeader(lines) < |lines| && SpotOf(lines, task.name, key) ==
            if HasField(task.rows, key) then Auxiliary.Over(row + 1 + FirstNamed(task.rows, key), f)
            else Auxiliary.Under(row + 1, f)
  {
    hide IsOther, IsWord, FindTask, TaskEnd, TaskIndent, IsTask, RowText, Around, FileOf, AllText, FindAuxHeader,
         BlockEnd,
         FindField, NewIndent, FieldIndent, ShowsIndent, HasField, FirstNamed, IsBefore, IsBehind, IsIndentOf, IsRun,
         SpotOf;
    var body := Around(before, task, after, t, f);
    var lines := FileOf(head, run, body, foot);
    AroundIsPlain(before, task, after, t, f);
    BlockFound(head, run, body, foot);
    TaskFound(head, run, before, task, after, t, f, foot);
    row := |head| + 1 + |AllText(before, t, f)|;
    FieldFound(lines, row, task, t, f, key);
    IndentShown(lines, row, task, t, f);
    SpotIs(lines, task.name, key, |head| + 1, row, |head| + 1 + |body|, t, row + 1 + |task.rows|, f);
  }

  lemma SpotIs(lines: seq<string>, name: string, key: string, a: nat, row: nat, z: nat, t: string, end: nat, f: string)
    requires a <= row < end <= z <= |lines| && FindAuxHeader(lines) + 1 == a && BlockEnd(lines, a) == z
    requires FindTask(lines, name, a, z) == row && TaskIndent(lines[row], name) == Some(t)
    requires TaskEnd(lines, t, row + 1, z) == end && NewIndent(lines, t + "  ", row + 1, end) == f
    requires var at := FindField(lines, key, t, row + 1, end); at < end ==> FieldIndent(lines[at], key) == Some(f)
    ensures var at := FindField(lines, key, t, row + 1, end);
            SpotOf(lines, name, key) == if at < end then Auxiliary.Over(at, f) else Auxiliary.Under(row + 1, f)
  {
    hide FindAuxHeader, BlockEnd, FindTask, TaskEnd, NewIndent, FindField, TaskIndent, FieldIndent;
  }

  function FirstNamed(rows: seq<Row>, key: string): (k: nat)
    requires HasField(rows, key)
    ensures k < |rows| && IsNamed(rows[k], key) && forall i :: 0 <= i < k ==> !IsNamed(rows[i], key)
  {
    if IsNamed(rows[0], key) then 0
    else
      assert HasField(rows[1..], key) by {
        var i :| 0 <= i < |rows| && rows[i].Field? && rows[i].key == key;
        assert rows[1..][i - 1] == rows[i];
      }
      1 + FirstNamed(rows[1..], key)
  }

  /** The lines of the block with other rows under the task. */
  lemma RowsReplaced(head: seq<string>, run: string, before: seq<Task>, task: Task, after: seq<Task>, t: string,
                     f: string, foot: seq<string>, row: nat, rows: seq<Row>)
    requires row == |head| + 1 + |AllText(before, t, f)|
    ensures var lines := FileOf(head, run, Around(before, task, after, t, f), foot);
            row + |task.rows| < |lines| &&
            FileOf(head, run, Around(before, Task(task.name, rows), after, t, f), foot) ==
              lines[..row + 1] + RowLines(rows, f) + lines[row + 1 + |task.rows|..]
  {
    hide AllText, RowText, RowLines;
    var b, c, own := AllText(before, t, f), AllText(after, t, f), [t + (task.name + ":")];
    var top := head + ["auxiliary:" + run] + b + own;
    assert FileOf(head, run, Around(before, task, after, t, f), foot) == top + RowLines(task.rows, f) + (c + foot);
    assert FileOf(head, run, Around(before, Task(task.name, rows), after, t, f), foot) ==
           top + RowLines(rows, f) + (c + foot);
  }

  /**
   * Setting a field of a task that is in the block: the first field of that name gets the value, or a new one becomes
   * the first line under the task, and every other line of the file stays as it is.
   */
  lemma SetsInTask(head: seq<string>, run: string, before: seq<Task>, task: Task, after: seq<Task>, t: string,
                   f: string,
                   foot: seq<string>, key: string, value: string)
    requires IsFile(head, run, foot) && IsBlock(before, task, after, t, f) && IsWord(key) &&
             ShowsIndent(task.rows, t, f)
    ensures SetField(Join(FileOf(head, run, Around(before, task, after, t, f), foot), "\n"), task.name, key, value) ==
            Join(FileOf(head, run, Around(before, Task(task.name, SetRow(task.rows, key, value)), after, t, f), foot),
              "\n")
  {
    hide IsFile, IsBlock, IsWord, FileOf, Around, SplitLines, Join, SpotOf, FindAuxHeader, ShowsIndent, AllText,
         FieldLine,
         RowText, Put;
    var lines := FileOf(head, run, Around(before, task, after, t, f), foot);
    var row := SpotInTask(head, run, before, task, after, t, f, foot, key, value);
    FileOfBlock(head, run, before, task, after, t, f, foot);
    var rows, line := SetRow(task.rows, key, value), FieldLine(f, key, value);
    RowsReplaced(head, run, before, task, after, t, f, foot, row, task.rows);
    RowsReplaced(head, run, before, task, after, t, f, foot, row, rows);
    FieldText(f, key, value);
    var put := RowText(Field(key, Put(value)), f);
    assert PutAt(lines, SpotOf(lines, task.name, key), task.name, key, value) ==
           lines[..row + 1] + RowLines(rows, f) + lines[row + 1 + |task.rows|..] by {
      if HasField(task.rows, key) {
        var k := OverAt(task.rows, key, value);
        assert k == FirstNamed(task.rows, key);
        assert RowLines(rows, f) == RowLines(task.rows, f)[k := put];
        PutOver(lines, row, RowLines(task.rows, f), k, put);
      } else {
        assert RowLines(rows, f) == [put] + RowLines(task.rows, f);
        PutUnder(lines, row, RowLines(task.rows, f), put);
      }
    }
  }

  lemma FileOfBlock(head: seq<string>, run: string, before: seq<Task>, task: Task, after: seq<Task>, t: string,
                    f: string,
                    foot: seq<string>)
    requires IsFile(head, run, foot) && IsBlock(before, task, after, t, f)
    ensures var lines := FileOf(head, run, Around(before, task, after, t, f), foot);
            SplitLines(Join(lines, "\n")) == lines
  {
    hide IsFile, IsBlock, FileOf, Around, ArePlain;
    AroundIsPlain(before, task, after, t, f);
    FileIsLines(head, run, Around(before, task, after, t, f), foot);
  }

  lemma PutOver(lines: seq<string>, row: nat, own: seq<string>, k: nat, put: string)
    requires row + |own| < |lines| && k < |own| && lines == lines[..row + 1] + own + lines[row + 1 + |own|..]
    ensures lines[row + 1 + k := put] == lines[..row + 1] + own[k := put] + lines[row + 1 + |own|..]
  {
    var x, z := lines[..row + 1], lines[row + 1 + |own|..];
    assert (x + own + z)[row + 1 + k := put] == x + own[k := put] + z;
  }

  lemma PutUnder(lines: seq<string>, row: nat, own: seq<string>, put: string)
    requires row + |own| < |lines| && lines == lines[..row + 1] + own + lines[row + 1 + |own|..]
    ensures lines[..row + 1] + [put] + lines[row + 1..] ==
            lines[..row + 1] + ([put] + own) + lines[row + 1 + |own|..]
  {
    assert lines[row + 1..] == own + lines[row + 1 + |own|..];
  }

  lemma FreshSpot(head: seq<string>, run: string, body: seq<string>, foot: seq<string>, name: string, key: string)
    requires IsFile(head, run, foot) && ArePlain(body) && HaveNoTask(body, name)
    ensures var lines := FileOf(head, run, body, foot);
            FindAuxHeader(lines) < |lines| && SpotOf(lines, name, key) == Fresh(|head| + 1)
  {
    hide IsBefore, IsBehind, IsRun, FindAuxHeader, BlockEnd, FindTask, TaskIndent, IsPlainLine, FileOf;
    var lines, a := FileOf(head, run, body, foot), |head| + 1;
    BlockFound(head, run, body, foot);
    FileParts(head, run, body, foot);
    forall i | a <= i < a + |body| ensures TaskIndent(lines[i], name).None? { assert lines[i] == body[i - a]; }
    assert FindTask(lines, name, a, a + |body|) == a + |body|;
  }

  /** Setting a field of a task that is not in the block puts the task, with that field, in front of the others. */
  lemma SetsNewTask(head: seq<string>, run: string, tasks: seq<Task>, t: string, f: string, foot: seq<string>,
                    name: string,
                    key: string, value: string)
    requires IsFile(head, run, foot) && AreTasks(tasks, f) && AreOthers(tasks, name) && IsIndentOf(t) && IsIndentOf(f)
    requires |t| < |f| && IsWord(name)
    ensures SetField(Join(FileOf(head, run, AllText(tasks, t, f), foot), "\n"), name, key, value) ==
            Join(FileOf(head, run, TaskText(Task(name, [Field(key, Put(value))]), "  ", "    ") + AllText(tasks, t, f),
                        foot), "\n")
  {
    hide IsFile, IsWord, SplitLines, Join, FindAuxHeader, SpotOf, AllText, FieldLine, TaskLine, ArePlain, HaveNoTask,
         AreTasks, AreOthers, RowText, Put, TaskText;
    var body, a := AllText(tasks, t, f), |head| + 1;
    var lines := FileOf(head, run, body, foot);
    TasksRead(tasks, t, f, name);
    FileIsLines(head, run, body, foot);
    FreshSpot(head, run, body, foot, name, key);
    FieldText("    ", key, value);
    var own := TaskText(Task(name, [Field(key, Put(value))]), "  ", "    ");
    OwnLines(name, Field(key, Put(value)));
    PutOnTop(head, run, body, foot, own);
  }

  lemma PutOnTop(head: seq<string>, run: string, body: seq<string>, foot: seq<string>, own: seq<string>)
    ensures var lines, a := FileOf(head, run, body, foot), |head| + 1;
            a <= |lines| && lines[..a] + own + lines[a..] == FileOf(head, run, own + body, foot)
  {
    var top, lines := head + ["auxiliary:" + run], FileOf(head, run, body, foot);
    assert lines == top + (body + foot);
    assert lines[..|top|] == top && lines[|top|..] == body + foot;
  }

  lemma OwnLines(name: string, row: Row)
    ensures TaskText(Task(name, [row]), "  ", "    ") == [TaskLine(name), RowText(row, "    ")]
  {
  }

  /** Without a block one is put behind the text, on a line of its own. */
  lemma SetsNewBlock(content: string, name: string, key: string, value: string)
    requires forall i :: 0 <= i < |SplitLines(content)| ==> !IsAuxHeader(SplitLines(content)[i])
    ensures var end := if content == "" || content[|content| - 1] == '\n' then "" else "\n";
            var own := TaskText(Task(name, [Field(key, Put(value))]), "  ", "    ");
            SetField(content, name, key, value) ==
              content + end + ("auxiliary:\n" + (own[0] + "\n" + (own[1] + "\n")))
  {
    hide IsAuxHeader, SplitLines, FieldLine, RowText, Put;
    FieldText("    ", key, value);
    OwnLines(name, Field(key, Put(value)));
  }
}
