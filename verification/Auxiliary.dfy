/** The `auxiliary:` block of config.yaml: setting one field of one side task, by scanning and splicing lines. */
module Auxiliary {
  import opened Text
  import opened ConfigScalars
  import opened ConfigBlocks
  import opened ConfigFiles
  import opened YamlPaths

  const SLOTS: seq<string> :=
    ["vision", "web_extract", "compression", "skills_hub", "approval", "mcp", "title_generation",
    "triage_specifier", "kanban_decomposer", "profile_describer", "curator"]

  const FIELDS: seq<string> := ["provider", "model", "base_url"]

  /** `value.replace(/"/g, '\\"')` */
  function EscapeQuotes(value: string): string {
    ReplaceChar(value, '"', "\\\"")
  }

  // ---------------------------------------------------------------- the line patterns

  /** `[ \t]*$` */
  predicate IsRun(s: string) {
    forall i :: 0 <= i < |s| ==> s[i] == ' ' || s[i] == '\t'
  }

  /** `/^auxiliary:[ \t]*$/` */
  predicate IsAuxHeader(line: string) {
    StartsWith(line, "auxiliary:") && IsRun(line[|"auxiliary:"|..])
  }

  /** A line that is not blank and not indented ends the block. */
  predicate IsTop(line: string) {
    Trim(EcmaScript, line) != "" && !IsSpace(EcmaScript, line[0])
  }

  /** `^([ \t]+)NAME:` at the start of a line: the indent and the text behind the colon. */
  function AfterName(line: string, name: string): Option<(string, string)> {
    var n := IndentRun(line);
    if n > 0 && StartsWith(line[n..], name + ":") then Some((line[..n], line[n + |name| + 1..])) else None
  }

  /** `^([ \t]+)TASK:[ \t]*$` */
  function TaskIndent(line: string, task: string): Option<string> {
    var m := AfterName(line, task);
    if m.Some? && IsRun(m.value.1) then Some(m.value.0) else None
  }

  /** `^([ \t]+)FIELD:[ \t]*.*$` */
  function FieldIndent(line: string, field: string): Option<string> {
    var m := AfterName(line, field);
    if m.Some? && !HasTerminator(m.value.1) then Some(m.value.0) else None
  }

  function FieldLine(indent: string, field: string, value: string): string {
    indent + (field + (": " + ("\"" + (EscapeQuotes(value) + "\""))))
  }

  function TaskLine(task: string): string {
    "  " + (task + ":")
  }

  // ---------------------------------------------------------------- the scans

  function FindAuxHeader(lines: seq<string>): (i: nat)
    ensures i <= |lines| && (i < |lines| ==> IsAuxHeader(lines[i])) && forall j :: 0 <= j < i ==> !IsAuxHeader(lines[j])
  {
    if lines == [] || IsAuxHeader(lines[0]) then 0 else 1 + FindAuxHeader(lines[1..])
  }

  function BlockEnd(lines: seq<string>, i: nat): (z: nat)
    requires i <= |lines|
    ensures i <= z <= |lines| && (z < |lines| ==> IsTop(lines[z])) && forall j :: i <= j < z ==> !IsTop(lines[j])
    decreases |lines| - i
  {
    if i == |lines| || IsTop(lines[i]) then i else BlockEnd(lines, i + 1)
  }

  function FindTask(lines: seq<string>, task: string, i: nat, end: nat): (r: nat)
    requires i <= end <= |lines|
    ensures i <= r <= end && (r < end ==> TaskIndent(lines[r], task).Some?) &&
            forall j :: i <= j < r ==> TaskIndent(lines[j], task).None?
    decreases end - i
  {
    if i == end || TaskIndent(lines[i], task).Some? then i else FindTask(lines, task, i + 1, end)
  }

  predicate IsBody(line: string, taskIndent: string) {
    Trim(EcmaScript, line) == "" || IndentRun(line) > |taskIndent|
  }

  /** Where the body of a task ends: at the first line that is not blank and not deeper than the task. */
  function TaskEnd(lines: seq<string>, taskIndent: string, i: nat, end: nat): (r: nat)
    requires i <= end <= |lines|
    ensures i <= r <= end && forall j :: i <= j < r ==> IsBody(lines[j], taskIndent)
    ensures r < end ==> !IsBody(lines[r], taskIndent)
    decreases end - i
  {
    if i == end || !IsBody(lines[i], taskIndent) then i else TaskEnd(lines, taskIndent, i + 1, end)
  }

  /** The indent a new field gets: that of the last line of the body. */
  function NewIndent(lines: seq<string>, indent: string, i: nat, end: nat): string
    requires i <= end <= |lines|
    decreases end - i
  {
    if i == end then indent
    else NewIndent(lines, if Trim(EcmaScript, lines[i]) == "" then indent else lines[i][..IndentRun(lines[i])], i + 1,
      end)
  }

  predicate IsField(line: string, field: string, taskIndent: string) {
    var m := FieldIndent(line, field);
    m.Some? && |m.value| > |taskIndent|
  }

  function FindField(lines: seq<string>, field: string, taskIndent: string, i: nat, end: nat): (r: nat)
    requires i <= end <= |lines|
    ensures i <= r <= end && (r < end ==> IsField(lines[r], field, taskIndent)) &&
            forall j :: i <= j < r ==> !IsField(lines[j], field, taskIndent)
    decreases end - i
  {
    if i == end || IsField(lines[i], field, taskIndent) then i else FindField(lines, field, taskIndent, i + 1, end)
  }

  // ---------------------------------------------------------------- the edit

  /**
   * What a set does: a new task at the top of the block, a field in place of another, or a field put in under its
   * task.
   */
  datatype Spot = Fresh(at: nat) | Over(row: nat, indent: string) | Under(row: nat, indent: string)

  predicate SpotFits(s: Spot, n: nat) {
    match s
    case Fresh(at) => at <= n
    case Over(row, _) => row < n
    case Under(row, _) => row <= n
  }

  function SpotOf(lines: seq<string>, task: string, field: string): (s: Spot)
    requires FindAuxHeader(lines) < |lines|
    ensures SpotFits(s, |lines|)
  {
    var a := FindAuxHeader(lines) + 1;
    var z := BlockEnd(lines, a);
    var row := FindTask(lines, task, a, z);
    if row == z then Fresh(a)
    else
      var indent := TaskIndent(lines[row], task).value;
      var end := TaskEnd(lines, indent, row + 1, z);
      var at := FindField(lines, field, indent, row + 1, end);
      if at < end then Over(at, FieldIndent(lines[at], field).value)
      else Under(row + 1, NewIndent(lines, indent + "  ", row + 1, end))
  }

  function PutAt(lines: seq<string>, s: Spot, task: string, field: string, value: string): seq<string>
    requires SpotFits(s, |lines|)
  {
    match s
    case Fresh(at) => lines[..at] + [TaskLine(task), FieldLine("    ", field, value)] + lines[at..]
    case Over(row, indent) => lines[row := FieldLine(indent, field, value)]
    case Under(row, indent) => lines[..row] + [FieldLine(indent, field, value)] + lines[row..]
  }

  function NewBlock(task: string, field: string, value: string): string {
    "auxiliary:\n" + (TaskLine(task) + "\n" + (FieldLine("    ", field, value) + "\n"))
  }

  /** `setAuxiliaryField` */
  function SetField(content: string, task: string, field: string, value: string): string {
    var lines := SplitLines(content);
    if FindAuxHeader(lines) == |lines| then content + Separator(content) + NewBlock(task, field, value)
    else Join(PutAt(lines, SpotOf(lines, task, field), task, field, value), "\n")
  }

  /** A set for each triple, in order. */
  function SetFields(content: string, sets: seq<(string, string, string)>): string
    decreases |sets|
  {
    if sets == [] then content else SetFields(SetField(content, sets[0].0, sets[0].1, sets[0].2), sets[1..])
  }

  function TaskSets(task: string, provider: string, model: string, baseUrl: string): seq<(string, string, string)> {
    [(task, "provider", provider), (task, "model", model), (task, "base_url", baseUrl)]
  }

  function ResetSets(slots: seq<string>): seq<(string, string, string)> {
    if slots == [] then [] else TaskSets(slots[0], "auto", "", "") + ResetSets(slots[1..])
  }

  function OrElse(value: Option<string>, other: string): string {
    if value.Some? && value.value != "" then value.value else other
  }

  datatype TaskConfig = TaskConfig(task: string, provider: string, model: string, baseUrl: string)

  function ReadTask(content: string, task: string): TaskConfig {
    TaskConfig(task, OrElse(ReadPath(content, ["auxiliary", task, "provider"]), "auto"),
               OrElse(ReadPath(content, ["auxiliary", task, "model"]), ""),
               OrElse(ReadPath(content, ["auxiliary", task, "base_url"]), ""))
  }

  // ---------------------------------------------------------------- the code

  method HeaderIndex(lines: seq<string>) returns (i: nat)
    ensures i == FindAuxHeader(lines)
  {
    hide IsAuxHeader, FindAuxHeader;
    i := 0;
    while i < |lines| && !IsAuxHeader(lines[i])
      invariant i <= |lines| && forall j :: 0 <= j < i ==> !IsAuxHeader(lines[j])
    {
      i := i + 1;
    }
    assert FindAuxHeader(lines) == i;
  }

  method BlockEndIndex(lines: seq<string>, start: nat) returns (i: nat)
    requires start <= |lines|
    ensures i == BlockEnd(lines, start)
  {
    hide IsTop, BlockEnd;
    i := start;
    while i < |lines| && !IsTop(lines[i])
      invariant start <= i <= |lines| && forall j :: start <= j < i ==> !IsTop(lines[j])
    {
      i := i + 1;
    }
    assert BlockEnd(lines, start) == i;
  }

  method TaskIndex(lines: seq<string>, task: string, start: nat, end: nat) returns (i: nat)
    requires start <= end <= |lines|
    ensures i == FindTask(lines, task, start, end)
  {
    hide TaskIndent, FindTask;
    i := start;
    while i < end && TaskIndent(lines[i], task).None?
      invariant start <= i <= end && forall j :: start <= j < i ==> TaskIndent(lines[j], task).None?
    {
      i := i + 1;
    }
    assert FindTask(lines, task, start, end) == i;
  }

  method FieldIndex(lines: seq<string>, field: string, taskIndent: string, start: nat, end: nat) returns (i: nat)
    requires start <= end <= |lines|
    ensures i == FindField(lines, field, taskIndent, start, end)
  {
    hide IsField, FindField;
    i := start;
    while i < end && !IsField(lines[i], field, taskIndent)
      invariant start <= i <= end && forall j :: start <= j < i ==> !IsField(lines[j], field, taskIndent)
    {
      i := i + 1;
    }
    assert FindField(lines, field, taskIndent, start, end) == i;
  }

  /** The scans and the splice of `setAuxiliaryField`. */
  method SetAuxiliaryField(content: string, task: string, field: string, value: string) returns (next: string)
    ensures next == SetField(content, task, field, value)
  {
    hide IsAuxHeader, IsTop, TaskIndent, Trim, FieldIndent, FieldLine, Join, SplitLines, FindAuxHeader, BlockEnd,
         FindTask, TaskEnd, NewIndent, FindField;
    hide TaskLine, NewBlock, Separator, SpotOf, PutAt, IsField;
    var lines := SplitLines(content);
    var auxIdx := HeaderIndex(lines);
    if auxIdx == |lines| {
      return content + Separator(content) + NewBlock(task, field, value);
    }
    var auxEnd := BlockEndIndex(lines, auxIdx + 1);
    var taskIdx := TaskIndex(lines, task, auxIdx + 1, auxEnd);
    if taskIdx == auxEnd {
      var insert := TaskLine(task) + "\n" + FieldLine("    ", field, value);
      JoinOfTwo(lines[..auxIdx + 1], TaskLine(task), FieldLine("    ", field, value), lines[auxIdx + 1..]);
      FreshIsPut(lines, task, field, value);
      lines := lines[..auxIdx + 1] + [insert] + lines[auxIdx + 1..];
      return Join(lines, "\n");
    }
    var taskIndent := TaskIndent(lines[taskIdx], task).value;
    var taskEnd, fieldIndent := ScanBody(lines, taskIndent, taskIdx + 1, auxEnd);
    var i := FieldIndex(lines, field, taskIndent, taskIdx + 1, taskEnd);
    FieldIsPut(lines, task, field, value);
    if i < taskEnd {
      FieldHasIndent(lines[i], field, taskIndent);
      lines := lines[i := FieldLine(FieldIndent(lines[i], field).value, field, value)];
    } else {
      lines := lines[..taskIdx + 1] + [FieldLine(fieldIndent, field, value)] + lines[taskIdx + 1..];
    }
    return Join(lines, "\n");
  }

  lemma FreshIsPut(lines: seq<string>, task: string, field: string, value: string)
    requires FindAuxHeader(lines) < |lines|
    requires var a := FindAuxHeader(lines) + 1; FindTask(lines, task, a, BlockEnd(lines, a)) == BlockEnd(lines, a)
    ensures var a := FindAuxHeader(lines) + 1;
            PutAt(lines, SpotOf(lines, task, field), task, field, value) ==
              lines[..a] + [TaskLine(task), FieldLine("    ", field, value)] + lines[a..]
  {
    hide IsAuxHeader, IsTop, TaskIndent, FieldIndent, FieldLine, FindAuxHeader, BlockEnd, FindTask, TaskLine;
  }

  lemma FieldIsPut(lines: seq<string>, task: string, field: string, value: string)
    requires FindAuxHeader(lines) < |lines|
    requires var a := FindAuxHeader(lines) + 1; FindTask(lines, task, a, BlockEnd(lines, a)) < BlockEnd(lines, a)
    ensures var a := FindAuxHeader(lines) + 1;
            var z := BlockEnd(lines, a);
            var row := FindTask(lines, task, a, z);
            var indent := TaskIndent(lines[row], task).value;
            var end := TaskEnd(lines, indent, row + 1, z);
            var at := FindField(lines, field, indent, row + 1, end);
            PutAt(lines, SpotOf(lines, task, field), task, field, value) ==
              if at < end then lines[at := FieldLine(FieldIndent(lines[at], field).value, field, value)]
              else
                lines[..row + 1] + [FieldLine(NewIndent(lines, indent + "  ", row + 1, end), field, value)] +
                lines[row + 1..]
  {
    hide IsAuxHeader, IsTop, TaskIndent, FieldIndent, FieldLine, FindAuxHeader, BlockEnd, FindTask, TaskEnd, NewIndent,
         FindField, IsField;
    var a := FindAuxHeader(lines) + 1;
    var z := BlockEnd(lines, a);
    var row := FindTask(lines, task, a, z);
    var indent := TaskIndent(lines[row], task).value;
    var end := TaskEnd(lines, indent, row + 1, z);
    var at := FindField(lines, field, indent, row + 1, end);
    assert SpotOf(lines, task, field) ==
           if at < end then Over(at, FieldIndent(lines[at], field).value)
           else Under(row + 1, NewIndent(lines, indent + "  ", row + 1, end)) by {
      assert at < end ==> FieldIndent(lines[at], field).Some? by {
        if at < end { FieldHasIndent(lines[at], field, indent); }
      }
    }
  }

  lemma FieldHasIndent(line: string, field: string, taskIndent: string)
    ensures IsField(line, field, taskIndent) ==> FieldIndent(line, field).Some?
  {
    hide FieldIndent;
  }

  /** The loop that finds the end of a task body and the indent of its last line. */
  method ScanBody(lines: seq<string>, taskIndent: string, start: nat, end: nat)
    returns (taskEnd: nat, fieldIndent: string)
    requires start <= end <= |lines|
    ensures taskEnd == TaskEnd(lines, taskIndent, start, end)
    ensures fieldIndent == NewIndent(lines, taskIndent + "  ", start, taskEnd)
  {
    hide Trim, IndentRun;
    taskEnd, fieldIndent := start, taskIndent + "  ";
    while taskEnd < end
      invariant start <= taskEnd <= end
      invariant TaskEnd(lines, taskIndent, taskEnd, end) == TaskEnd(lines, taskIndent, start, end)
      invariant fieldIndent == NewIndent(lines, taskIndent + "  ", start, taskEnd)
    {
      var line := lines[taskEnd];
      NewIndentStep(lines, taskIndent + "  ", start, taskEnd);
      if Trim(EcmaScript, line) != "" {
        var indent := line[..IndentRun(line)];
        if |indent| <= |taskIndent| { return; }
        fieldIndent := indent;
      }
      taskEnd := taskEnd + 1;
    }
  }

  lemma {:induction false} NewIndentStep(lines: seq<string>, indent: string, i: nat, end: nat)
    requires i <= end < |lines|
    ensures NewIndent(lines, indent, i, end + 1) ==
            if Trim(EcmaScript, lines[end]) == "" then NewIndent(lines, indent, i, end)
            else lines[end][..IndentRun(lines[end])]
    decreases end - i
  {
    hide Trim, IndentRun;
    if i < end {
      NewIndentStep(lines, if Trim(EcmaScript, lines[i]) == "" then indent else lines[i][..IndentRun(lines[i])], i + 1,
        end);
    }
  }

  lemma {:induction false} JoinOfTwo(before: seq<string>, x: string, y: string, after: seq<string>)
    ensures Join(before + [x + "\n" + y] + after, "\n") == Join(before + [x, y] + after, "\n")
    decreases |before|
  {
    var l, r := before + [x + "\n" + y] + after, before + [x, y] + after;
    if before == [] {
      assert l == [x + "\n" + y] + after && r == [x] + ([y] + after);
      assert r[1..] == [y] + after && l[1..] == after && r[1..][1..] == after;
      if after == [] {
        assert r[1..] == [y];
      } else {
        assert x + "\n" + y + "\n" + Join(after, "\n") == x + "\n" + (y + "\n" + Join(after, "\n"));
      }
    } else {
      assert l[1..] == before[1..] + [x + "\n" + y] + after && r[1..] == before[1..] + [x, y] + after;
      JoinOfTwo(before[1..], x, y, after);
    }
  }

  /** `setAuxiliaryTask`, for a known slot. */
  method SetAuxiliaryTask(file: ConfigFile, task: string, provider: string, model: string, baseUrl: string)
    returns (known: bool)
    modifies file
    ensures known <==> task in SLOTS
    ensures file.content ==
            if known then
              SetFields(old(file.content), TaskSets(task, if provider == "" then "auto" else provider, model, baseUrl))
              else old(file.content)
  {
    hide SetField;
    if task !in SLOTS { return false; }
    var content := file.content;
    content := SetAuxiliaryField(content, task, "provider", if provider == "" then "auto" else provider);
    content := SetAuxiliaryField(content, task, "model", model);
    content := SetAuxiliaryField(content, task, "base_url", baseUrl);
    ThreeSets(old(file.content), task, if provider == "" then "auto" else provider, model, baseUrl);
    file.content := content;
    return true;
  }

  lemma ThreeSets(content: string, task: string, provider: string, model: string, baseUrl: string)
    ensures SetFields(content, TaskSets(task, provider, model, baseUrl)) ==
            SetField(SetField(SetField(content, task, "provider", provider), task, "model", model), task, "base_url",
              baseUrl)
  {
    hide SetField;
    var s := TaskSets(task, provider, model, baseUrl);
    assert s[1..] == [s[1], s[2]] && s[1..][1..] == [s[2]] && s[1..][1..][1..] == [];
    var c1 := SetField(content, task, "provider", provider);
    var c2 := SetField(c1, task, "model", model);
    assert SetFields(c1, s[1..]) == SetFields(c2, s[1..][1..]);
    assert SetFields(c2, [s[2]]) == SetField(c2, task, "base_url", baseUrl) by { assert [s[2]][1..] == []; }
  }

  /** `resetAuxiliaryToAuto`, for a file that exists. */
  method ResetAuxiliaryToAuto(file: ConfigFile)
    modifies file
    ensures file.content == SetFields(old(file.content), ResetSets(SLOTS))
  {
    hide SetField;
    var content := file.content;
    ghost var all := ResetSets(SLOTS);
    assert SLOTS[0..] == SLOTS;
    for i := 0 to |SLOTS|
      invariant file.content == old(file.content)
      invariant SetFields(content, ResetSets(SLOTS[i..])) == SetFields(old(file.content), all)
    {
      ghost var before := content;
      assert SLOTS[i..][0] == SLOTS[i] && SLOTS[i..][1..] == SLOTS[i + 1..];
      content := SetAuxiliaryField(content, SLOTS[i], "provider", "auto");
      content := SetAuxiliaryField(content, SLOTS[i], "model", "");
      content := SetAuxiliaryField(content, SLOTS[i], "base_url", "");
      ThreeSets(before, SLOTS[i], "auto", "", "");
      SetFieldsConcat(before, TaskSets(SLOTS[i], "auto", "", ""), ResetSets(SLOTS[i + 1..]));
    }
    assert SLOTS[|SLOTS|..] == [];
    file.content := content;
  }

  lemma {:induction false} SetFieldsConcat(content: string, a: seq<(string, string, string)>,
                                           c: seq<(string, string, string)>)
    ensures SetFields(content, a + c) == SetFields(SetFields(content, a), c)
    decreases |a|
  {
    hide SetField;
    if a == [] {
      assert a + c == c;
    } else {
      assert (a + c)[1..] == a[1..] + c;
      SetFieldsConcat(SetField(content, a[0].0, a[0].1, a[0].2), a[1..], c);
    }
  }

  /** `getAuxiliaryConfig` */
  method GetAuxiliaryConfig(file: ConfigFile) returns (configs: seq<TaskConfig>)
    ensures |configs| == |SLOTS| && forall i :: 0 <= i < |SLOTS| ==> configs[i] == ReadTask(file.content, SLOTS[i])
  {
    hide ReadPath;
    configs := [];
    for i := 0 to |SLOTS|
      invariant |configs| == i && forall j :: 0 <= j < i ==> configs[j] == ReadTask(file.content, SLOTS[j])
    {
      var provider := GetYamlPath(file.content, ["auxiliary", SLOTS[i], "provider"]);
      var model := GetYamlPath(file.content, ["auxiliary", SLOTS[i], "model"]);
      var baseUrl := GetYamlPath(file.content, ["auxiliary", SLOTS[i], "base_url"]);
      configs := configs + [TaskConfig(SLOTS[i], OrElse(provider, "auto"), OrElse(model, ""), OrElse(baseUrl, ""))];
    }
  }
}
