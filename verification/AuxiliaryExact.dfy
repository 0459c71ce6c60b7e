/**
 * The laws of a put for every file: when it is read back, which lines it changes, what becomes of other reads, and
 * when a second put undoes the first.
 */
module AuxiliaryExact {
  import opened Text
  import opened ConfigScalars
  import opened ConfigBlocks
  import opened YamlPaths
  import opened Auxiliary
  import opened AuxiliaryLines
  import opened AuxiliaryLaws
  import opened AuxiliaryTexts
  import opened AuxiliaryReads
  import opened AuxiliaryFrame
  import opened AuxiliaryWritten
  import opened AuxiliaryUnseen

  // ---------------------------------------------------------------- where the reader is in the block

  /** A value was read, or the block is open, perhaps with one frame in it. */
  predicate IsAuxPlace(p: Place) {
    p.Found? || (1 <= |p.stack| <= 2 && p.stack[0] == 0)
  }

  lemma {:induction false} PopKeepsBlock(stack: seq<nat>, n: nat)
    requires 1 <= |stack| <= 2 && stack[0] == 0 && n > 0
    ensures Pop(stack, n) == if |stack| == 2 && stack[1] >= n then [0] else stack
  {
    if |stack| == 2 && stack[1] >= n { assert stack[..1] == [0]; }
  }

  lemma VisitIndented(p: Place, line: string, task: string, field: string)
    requires p.Open? && IsAuxPlace(p) && IsInBlock(line)
    ensures IsAuxPlace(Visit(p.stack, FactOf(line), PathOf(task, field)))
  {
    hide FactOf;
    var f := FactOf(line);
    PopKeepsBlock(p.stack, if f.Skip? then 1 else f.indent);
  }

  lemma {:induction false} WalkIndented(p: Place, lines: seq<string>, task: string, field: string)
    requires p.Open? && IsAuxPlace(p) && forall j :: 0 <= j < |lines| ==> IsInBlock(lines[j])
    ensures IsAuxPlace(Walk(p.stack, lines, PathOf(task, field)))
    decreases |lines|
  {
    hide FactOf, IsAuxPlace, IsInBlock, PathOf, Visit;
    if lines != [] {
      var q := Visit(p.stack, FactOf(lines[0]), PathOf(task, field));
      VisitIndented(p, lines[0], task, field);
      if q.Open? { WalkIndented(q, lines[1..], task, field); }
    }
  }

  /** The header opens the block, whatever stands before it, unless the key was reached there. */
  lemma AtHeader(lines: seq<string>, task: string, field: string)
    requires FindAuxHeader(lines) < |lines|
    ensures var p := Walk([], lines[..FindAuxHeader(lines) + 1], PathOf(task, field)); p.Found? || p == Open([0])
  {
    hide FactOf, IsAuxHeader, FindAuxHeader, Walk;
    var a, parts := FindAuxHeader(lines), PathOf(task, field);
    var p := Walk([], lines[..a], parts);
    assert lines[..a + 1] == lines[..a] + [lines[a]];
    WalkConcat([], lines[..a], [lines[a]], parts);
    if p.Open? {
      WalkOne(p.stack, lines[a], parts);
      HeaderFact(lines[a]);
      NothingStaysOpen(p.stack);
    }
  }

  lemma InsideBlock(lines: seq<string>, k: nat, task: string, field: string)
    requires FindAuxHeader(lines) < k <= |lines| && k <= BlockEnd(lines, FindAuxHeader(lines) + 1)
    ensures IsAuxPlace(Walk([], lines[..k], PathOf(task, field)))
  {
    hide FactOf, IsInBlock, PathOf, Walk, FindAuxHeader, IsAuxHeader, BlockEnd, IsTop;
    var a := FindAuxHeader(lines) + 1;
    AtHeader(lines, task, field);
    BlockLinesAreIn(lines, a);
    SplitAt(lines, a, k);
    var p := Walk([], lines[..a], PathOf(task, field));
    WalkConcat([], lines[..a], lines[a..k], PathOf(task, field));
    if p.Open? {
      assert forall j :: 0 <= j < |lines[a..k]| ==> lines[a..k][j] == lines[a + j];
      WalkIndented(p, lines[a..k], task, field);
    }
  }

  // ---------------------------------------------------------------- where the reader is at the written line

  lemma VisitTaskRow(p: Place, line: string, n: nat, task: string, field: string)
    requires p.Open? && IsAuxPlace(p) && FactOf(line) == Pair(n, task, None) && n > 0 && task != field
    ensures IsTaskPlace(Visit(p.stack, FactOf(line), PathOf(task, field)), n + 1)
  {
    hide FactOf;
    PopKeepsBlock(p.stack, n);
  }

  lemma VisitTaskBody(p: Place, line: string, n: nat, task: string, field: string)
    requires p.Open? && IsTaskPlace(p, n + 1) && (FactOf(line).Skip? || FactOf(line).indent > n)
    ensures IsTaskPlace(Visit(p.stack, FactOf(line), PathOf(task, field)), n + 1)
  {
    hide FactOf;
    var f := FactOf(line);
    PopKeepsBlock(p.stack, if f.Skip? then n + 1 else f.indent);
  }

  lemma {:induction false} WalkTaskBody(p: Place, lines: seq<string>, n: nat, task: string, field: string)
    requires p.Open? && IsTaskPlace(p, n + 1)
    requires forall j :: 0 <= j < |lines| ==> FactOf(lines[j]).Skip? || FactOf(lines[j]).indent > n
    ensures IsTaskPlace(Walk(p.stack, lines, PathOf(task, field)), n + 1)
    decreases |lines|
  {
    hide FactOf, IsTaskPlace, PathOf, Visit;
    if lines != [] {
      var q := Visit(p.stack, FactOf(lines[0]), PathOf(task, field));
      VisitTaskBody(p, lines[0], n, task, field);
      if q.Open? { WalkTaskBody(q, lines[1..], n, task, field); }
    }
  }

  /** The rows of a spot: the line of the task, and the lines of its body before the spot. */
  ghost predicate IsUnderTask(lines: seq<string>, s: Spot, row: nat, n: nat, task: string) {
    !s.Fresh? && FindAuxHeader(lines) < row < s.row <= |lines| && row < BlockEnd(lines, FindAuxHeader(lines) + 1) &&
    n > 0 && FactOf(lines[row]) == Pair(n, task, None) && s.indent != "" && IsRun(s.indent) && n < |s.indent| &&
    (s.Under? ==> s.row == row + 1) &&
    forall j :: row < j < s.row ==> FactOf(lines[j]).Skip? || FactOf(lines[j]).indent > n
  }

  lemma SpotIsUnderTask(lines: seq<string>, task: string, field: string) returns (row: nat, n: nat)
    requires FindAuxHeader(lines) < |lines| && IsWord(task) && !SpotOf(lines, task, field).Fresh?
    ensures var s := SpotOf(lines, task, field);
            IsUnderTask(lines, s, row, n, task) && (s.Over? ==> FieldIndent(lines[s.row], field) == Some(s.indent))
  {
    hide IsTop, FactOf, FindAuxHeader, IsAuxHeader, BlockEnd, FindTask, TaskEnd, FindField, IsWord, TaskIndent,
         FieldIndent, IsBody, IsField, SpotOf, IsRun, NewIndent;
    var a, s := FindAuxHeader(lines) + 1, SpotOf(lines, task, field);
    SpotFacts(lines, task, field);
    SpotIndent(lines, task, field);
    row := FindTask(lines, task, a, BlockEnd(lines, a));
    var indent := TaskIndent(lines[row], task).value;
    n := |indent|;
    TaskFact(lines[row], task);
    forall j | row < j < s.row ensures FactOf(lines[j]).Skip? || FactOf(lines[j]).indent > n {
      BodyIsDeep(lines[j], indent);
    }
  }

  /** The written line is reached with the frame of its task open, unless the reader found the key above it. */
  lemma AtSpot(lines: seq<string>, task: string, field: string)
    requires FindAuxHeader(lines) < |lines| && IsWord(task) && task != field
    ensures var s := SpotOf(lines, task, field);
            IsTaskPlace(Walk([], BeforeSpot(lines, s, task), PathOf(task, field)), |RunAt(s)|) && RunAt(s) != "" &&
            IsRun(RunAt(s))
  {
    hide FactOf, FindAuxHeader, IsAuxHeader, BlockEnd, SpotOf, IsRun, TaskLine, PathOf, Walk, IsUnderTask, IsWord,
         IsTaskPlace;
    var s := SpotOf(lines, task, field);
    if s.Fresh? {
      SpotInBlock(lines, task, field);
      AtFreshSpot(lines, task, field);
      RunOfFour();
    } else {
      var row, n := SpotIsUnderTask(lines, task, field);
      AtRowSpot(lines, s, row, n, task, field);
    }
  }

  lemma AtFreshSpot(lines: seq<string>, task: string, field: string)
    requires FindAuxHeader(lines) < |lines| && IsWord(task)
    ensures IsTaskPlace(Walk([], lines[..FindAuxHeader(lines) + 1] + [TaskLine(task)], PathOf(task, field)), 4)
  {
    hide FactOf, FindAuxHeader, IsAuxHeader, TaskLine, PathOf, Walk, IsWord;
    var before := lines[..FindAuxHeader(lines) + 1];
    AtHeader(lines, task, field);
    WalkConcat([], before, [TaskLine(task)], PathOf(task, field));
    if Walk([], before, PathOf(task, field)).Open? { WalkFresh(before, task, field); }
  }

  lemma AtRowSpot(lines: seq<string>, s: Spot, row: nat, n: nat, task: string, field: string)
    requires FindAuxHeader(lines) < |lines| && IsUnderTask(lines, s, row, n, task) && task != field
    ensures IsTaskPlace(Walk([], lines[..s.row], PathOf(task, field)), |s.indent|) && s.indent != "" && IsRun(s.indent)
  {
    hide FactOf, FindAuxHeader, IsAuxHeader, BlockEnd, PathOf, Walk, IsTaskPlace, IsAuxPlace, IsRun, Visit;
    var parts := PathOf(task, field);
    InsideBlock(lines, row, task, field);
    var p := Walk([], lines[..row], parts);
    SplitRow(lines, row, s.row);
    var body := lines[row + 1..s.row];
    WalkConcat([], lines[..row], [lines[row]] + body, parts);
    if p.Open? {
      WalkConcat(p.stack, [lines[row]], body, parts);
      WalkOne(p.stack, lines[row], parts);
      VisitTaskRow(p, lines[row], n, task, field);
      var q := Visit(p.stack, FactOf(lines[row]), parts);
      if q.Open? {
        assert forall j :: 0 <= j < |body| ==> body[j] == lines[row + 1 + j];
        WalkTaskBody(q, body, n, task, field);
      }
    }
    DeeperPlace(Walk([], lines[..s.row], parts), n + 1, |s.indent|);
  }

  lemma DeeperPlace(p: Place, n: nat, m: nat)
    requires p.Found? || IsTaskPlace(p, n)
    ensures n <= m ==> IsTaskPlace(p, m)
  {
  }

  // ---------------------------------------------------------------- get after put

  /** How far the reader has come above the line that a put writes. */
  function Above(content: string, task: string, field: string): Place {
    var lines := SplitLines(content);
    if IsUnseen(content) then Reached(content, task, field)
    else Walk([], BeforeSpot(lines, SpotOf(lines, task, field), task), PathOf(task, field))
  }

  /**
   * Get after put, for every file with a header: where the reader finds the key above the written line, it is
   * read as before; everywhere else the put is read back as it was written if and only if the value survives.
   */
  lemma HeaderGetPutIff(content: string, task: string, field: string, value: string)
    requires !IsUnseen(content) && IsWord(task) && IsWord(field) && task != field
    ensures var p := Above(content, task, field);
            var read := ReadPath(SetField(content, task, field, value), PathOf(task, field));
            (read == Some(value) <==> if p.Found? then p.value == Some(value) else Survives(value)) &&
            (p.Open? && '\n' !in value ==> read == Some(ReadBack(value)))
  {
    hide IsAuxHeader, FindAuxHeader, SplitLines, TaskLine, FieldLine, SpotOf, IsWord, IsRun, Walk, PathOf, Survives,
         ReadBack, BeforeSpot, AfterSpot, RunAt, SetField, ReadPath;
    var lines := SplitLines(content);
    var s := SpotOf(lines, task, field);
    ReadIsWalk(SetField(content, task, field, value), PathOf(task, field)) by { PathShape(task, field); }
    ChangedText(content, task, field, value);
    AtSpot(lines, task, field);
    var before, after := BeforeSpot(lines, s, task), AfterSpot(lines, s);
    var split := SplitLines(FieldLine(RunAt(s), field, value));
    if Walk([], before, PathOf(task, field)).Found? {
      assert before + split + after == before + (split + after);
      WalkConcat([], before, split + after, PathOf(task, field));
    } else {
      ReadAtLine(before, RunAt(s), after, task, field, value);
    }
  }

  /** Get after put, for every file whatsoever. */
  lemma GetPutIff(content: string, task: string, field: string, value: string)
    requires IsWord(task) && IsWord(field) && task != field
    ensures var p := Above(content, task, field);
            ReadPath(SetField(content, task, field, value), PathOf(task, field)) == Some(value) <==>
            if p.Found? then p.value == Some(value) else Survives(value)
  {
    hide FindAuxHeader, SplitLines, SpotOf, IsWord, Walk, PathOf, Survives, BeforeSpot, SetField, ReadPath, Reached;
    if IsUnseen(content) {
      UnseenGetPutIff(content, task, field, value);
    } else {
      HeaderGetPutIff(content, task, field, value);
    }
  }

  // ---------------------------------------------------------------- the lines a put changes

  /** One line between the two marks is replaced, or one or two lines are put in there. */
  ghost predicate ChangesWithin(lines: seq<string>, next: seq<string>, from: nat, to: nat)
    requires from <= to <= |lines|
  {
    (exists i :: from <= i < to && |next| == |lines| && next == lines[i := next[i]]) ||
    exists i, more :: from <= i <= to && 1 <= |more| <= 2 && next == lines[..i] + more + lines[i..]
  }

  /**
   * The frame of a put: in every file with a header, a one-line value changes one line or puts in at most two,
   * all of them behind the header and before the end of its block.
   */
  lemma PutStaysInBlock(content: string, task: string, field: string, value: string)
    requires !IsUnseen(content) && IsWord(task) && IsWord(field) && '\n' !in value
    ensures var lines, next := SplitLines(content), SplitLines(SetField(content, task, field, value));
            var a := FindAuxHeader(lines) + 1;
            ChangesWithin(lines, next, a, BlockEnd(lines, a))
  {
    hide IsAuxHeader, FindAuxHeader, SplitLines, TaskLine, FieldLine, IsWord, SpotOf, SetField, BlockEnd, FindTask,
         TaskIndent, FieldIndent, IsBody, IsField;
    var lines := SplitLines(content);
    var a, s := FindAuxHeader(lines) + 1, SpotOf(lines, task, field);
    ChangedLines(content, task, field, value);
    var next := PutAt(lines, s, task, field, value);
    SpotInBlock(lines, task, field);
    if s.Fresh? {
      assert next == lines[..a] + [TaskLine(task), FieldLine("    ", field, value)] + lines[a..];
    } else {
      SpotFacts(lines, task, field);
      if s.Over? {
        assert next[s.row] == FieldLine(s.indent, field, value) && next == lines[s.row := next[s.row]];
      } else {
        assert next == lines[..s.row] + [FieldLine(s.indent, field, value)] + lines[s.row..];
      }
    }
  }

  // ---------------------------------------------------------------- a key above the written line

  /** A file in which the reader finds the key on a line that the setter's pattern passes over. */
  function ShadowedLines(): seq<string> {
    ["auxiliary:", "  vision:", "    provider : x", FieldLine("    ", "provider", "y")]
  }

  /** The failing side of get after put at one file with a header: whatever is put, x is read. */
  lemma KeyAboveHidesPut(value: string)
    ensures var content := Join(ShadowedLines(), "\n");
            !IsUnseen(content) && Above(content, "vision", "provider") == Found(Some("x")) &&
            (value != "x" ==> ReadPath(SetField(content, "vision", "provider", value),
              PathOf("vision", "provider")) != Some(value))
  {
    hide SplitLines, SetField, ReadPath, FieldLine, FindAuxHeader, SpotOf, Survives, FactOf, IsAuxHeader, Walk, Join;
    var lines := ShadowedLines();
    ShadowedText(lines);
    ShadowedSpot(lines);
    ShadowedWalk(lines);
    GetPutIff(Join(lines, "\n"), "vision", "provider", value);
  }

  lemma ShadowedWords()
    ensures IsWord("vision") && IsWord("provider") && !HasTerminator("y") && "vision"[0] != "provider"[0]
  {
  }

  lemma ShadowedText(lines: seq<string>)
    requires lines == ShadowedLines()
    ensures SplitLines(Join(lines, "\n")) == lines && FindAuxHeader(lines) == 0
    ensures IsWord("vision") && IsWord("provider") && "vision" != "provider"
  {
    hide SplitLines, Join, FieldLine;
    ShadowedWords();
    RunOfFour();
    NoBreakIn("y");
    WrittenIsPlain("vision", "provider", "    ", "y");
    PlainHeader();
    SplitOfJoin(lines);
  }

  /** `    provider : x`: a key to the reader. */
  lemma ShadowingFact(line: string)
    requires line == "    provider : x"
    ensures FactOf(line) == Pair(4, "provider", Some("x"))
  {
    hide IsSpace, TrimStart, TrimEnd, Trim, IndexOf, CommentAt, ParseScalar;
    var t := "provider : x";
    assert line == "    " + t;
    PlainLetters();
    TrimStartOfPadded(EcmaScript, "    ", t);
    assert t == "provider " + [':'] + " x" && ':' !in "provider ";
    IndexOfFirst("provider ", ':', " x");
    assert t[..9] == "provider " && t[10..] == " x";
    assert "provider" + " " == "provider ";
    TrimOfPadded("provider", " ");
    ShadowingValue();
  }

  /** And no field to the setter, but a line of the body. */
  lemma ShadowingLine(line: string)
    requires line == "    provider : x"
    ensures AfterName(line, "provider").None? && AfterName(line, "vision").None? && !IsTop(line) && IsBody(line, "  ")
  {
    hide IsSpace, TrimStart, TrimEnd, Trim, IsTop;
    RunOfFour();
    var t := "provider : x";
    assert line == "    " + t;
    IndentRunIs("    ", t);
    assert line[4..] == t && t[8] == ' ' && t[0] == 'p' && "vision:"[0] == 'v' && "provider:"[8] == ':';
    IndentedIsNoTop(line);
  }

  lemma PlainLetters()
    ensures !IsSpace(EcmaScript, 'p') && !IsSpace(EcmaScript, 'r') && !IsSpace(EcmaScript, 'x') &&
            IsSpace(EcmaScript, ' ')
  {
  }

  lemma TrimOfPadded(word: string, pad: string)
    requires word != "" && !IsSpace(EcmaScript, word[0]) && !IsSpace(EcmaScript, word[|word| - 1])
    requires forall c :: c in pad ==> IsSpace(EcmaScript, c)
    ensures Trim(EcmaScript, word + pad) == word
  {
    hide IsSpace, TrimStart, TrimEnd;
    TrimStartOfUnpadded(EcmaScript, word + pad);
    TrimEndOfPadded(EcmaScript, word, pad);
  }

  lemma ShadowingValue()
    ensures ParseScalar(" x") == Some("x")
  {
    assert !IsSpace(EcmaScript, 'x') && IsSpace(EcmaScript, ' ');
    TrimStartOfPadded(EcmaScript, " ", "x");
    assert " " + "x" == " x";
    assert "x"[1..] == "";
    assert CommentAt("x") == 1 && "x"[..1] == "x";
    assert Trim(EcmaScript, "x") == "x" by { TrimIsIdentityOnTight(EcmaScript, "x"); }
  }

  lemma ShadowedSpot(lines: seq<string>)
    requires lines == ShadowedLines() && FindAuxHeader(lines) == 0
    ensures SpotOf(lines, "vision", "provider") == Over(3, "    ")
  {
    hide FieldLine, FindAuxHeader, IsTop, FactOf, AfterName, IsBody, Trim, IndentRun, HasTerminator, SpotOf;
    ShadowedWords();
    RunOfFour();
    TaskLineFacts("vision");
    assert lines[1] == TaskLine("vision");
    ShadowingLine(lines[2]);
    FieldLineFacts("    ", "provider", "y");
    SecondSpot(lines, "vision", "provider", 1, 3, "    ", "y");
  }

  lemma WalkOpens(stack: seq<nat>, lines: seq<string>, parts: seq<string>)
    requires lines != []
    ensures Walk(stack, lines, parts) ==
            var p := Visit(stack, FactOf(lines[0]), parts); if p.Found? then p else Walk(p.stack, lines[1..], parts)
  {
    hide Visit, FactOf;
  }

  lemma ShadowedWalk(lines: seq<string>)
    requires lines == ShadowedLines()
    ensures Walk([], lines[..3], PathOf("vision", "provider")) == Found(Some("x"))
  {
    hide FieldLine, FactOf, IsAuxHeader, TaskIndent, IsTop, Walk;
    ShadowedWords();
    PlainHeader();
    HeaderFact(lines[0]);
    TaskLineFacts("vision");
    assert lines[1] == TaskLine("vision");
    ShadowingFact(lines[2]);
    var parts := PathOf("vision", "provider");
    var a, b, c := lines[..3], lines[..3][1..], lines[..3][1..][1..];
    assert b == [lines[1], lines[2]] && c == [lines[2]];
    WalkOpens([], a, parts);
    WalkOpens([0], b, parts);
    WalkOpens([0, 2], c, parts);
    assert Visit([], FactOf(lines[0]), parts) == Open([0]);
    assert Visit([0], FactOf(lines[1]), parts) == Open([0, 2]);
  }

  // ---------------------------------------------------------------- what becomes of other reads

  /** The row before which a put begins to change lines. */
  function RowOf(s: Spot): nat {
    match s
    case Fresh(at) => at
    case Over(row, _) => row
    case Under(row, _) => row
  }

  /** How far another read has come above the lines that a put changes. */
  function OtherAbove(lines: seq<string>, s: Spot, task: string, field: string): Place
    requires SpotFits(s, |lines|)
  {
    Walk([], lines[..RowOf(s)], PathOf(task, field))
  }

  /** The reader takes the written field line for one of another task: it stands where that task's frame is open. */
  predicate IsCaptured(p: Place, s: Spot, f: string, field: string) {
    p.Open? && !s.Fresh? && f == field && |Pop(p.stack, |s.indent|)| == 2
  }

  /** A new line for the task comes to stand above fields that were not read as its own. */
  predicate IsAdopting(p: Place, s: Spot, own: string, task: string) {
    p.Open? && s.Fresh? && own == task
  }

  lemma VisitField(stack: seq<nat>, n: nat, f: string, v: Option<string>, task: string, field: string)
    requires 1 <= |stack| <= 2 && stack[0] == 0 && n > 0 && f != task
    ensures Visit(stack, Pair(n, f, v), PathOf(task, field)) ==
              if f == field && |Pop(stack, n)| == 2 then Found(v) else Open(Pop(stack, n))
  {
    PopKeepsBlock(stack, n);
  }

  /** Behind a line with an indent no frame is deeper than it. */
  lemma TopAfter(p: Place, line: string, n: nat, m: nat, task: string, field: string)
    requires p.Open? && IsAuxPlace(p) && FactOf(line).Pair? && FactOf(line).indent == n && 0 < n < m
    ensures var q := Visit(p.stack, FactOf(line), PathOf(task, field));
            q.Found? || (IsAuxPlace(q) && Pop(q.stack, m) == q.stack)
  {
    hide FactOf;
    PopKeepsBlock(p.stack, n);
    var q := Visit(p.stack, FactOf(line), PathOf(task, field));
    if q.Open? { PopKeepsBlock(q.stack, m); }
  }

  lemma WalkLonger(lines: seq<string>, row: nat, parts: seq<string>)
    requires row < |lines|
    ensures var p := Walk([], lines[..row], parts);
            Walk([], lines[..row + 1], parts) == if p.Found? then p else Visit(p.stack, FactOf(lines[row]), parts)
  {
    hide FactOf, Visit, Walk;
    assert lines[..row + 1] == lines[..row] + [lines[row]];
    WalkConcat([], lines[..row], [lines[row]], parts);
    var p := Walk([], lines[..row], parts);
    if p.Open? { WalkOne(p.stack, lines[row], parts); }
  }

  lemma UnderKeepsFrames(lines: seq<string>, s: Spot, row: nat, n: nat, own: string, task: string, field: string)
    requires FindAuxHeader(lines) < |lines| && IsUnderTask(lines, s, row, n, own) && s.Under? && SpotFits(s, |lines|)
    ensures var p := OtherAbove(lines, s, task, field);
            p.Found? || (IsAuxPlace(p) && Pop(p.stack, |s.indent|) == p.stack)
  {
    hide FactOf, FindAuxHeader, IsAuxHeader, BlockEnd, PathOf, Walk, IsAuxPlace, IsRun, Visit, Pop, IsInBlock;
    InsideBlock(lines, row, task, field);
    WalkLonger(lines, row, PathOf(task, field));
    var p := Walk([], lines[..row], PathOf(task, field));
    if p.Open? { TopAfter(p, lines[row], n, |s.indent|, task, field); }
  }

  lemma ReadsAt(before: seq<string>, mid: seq<string>, after: seq<string>, parts: seq<string>)
    ensures var p := Walk([], before, parts);
            Value(Walk([], before + mid + after, parts)) ==
              if p.Found? then p.value
              else
                var q := Walk(p.stack, mid, parts);
                if q.Found? then q.value else Value(Walk(q.stack, after, parts))
  {
    hide Walk;
    assert before + mid + after == before + (mid + after);
    WalkConcat([], before, mid + after, parts);
    var p := Walk([], before, parts);
    if p.Open? { WalkConcat(p.stack, mid, after, parts); }
  }

  lemma OtherOver(lines: seq<string>, s: Spot, f: string, value: string, task: string, field: string)
    requires s.Over? && SpotFits(s, |lines|) && IsWord(f) && f != task && s.indent != "" && IsRun(s.indent)
    requires FieldIndent(lines[s.row], f) == Some(s.indent) && IsAuxPlace(OtherAbove(lines, s, task, field))
    ensures var p := OtherAbove(lines, s, task, field);
            Value(Walk([], lines[s.row := FieldLine(s.indent, f, value)], PathOf(task, field))) ==
              if IsCaptured(p, s, f, field) then Some(ReadBack(value)) else Value(Walk([], lines, PathOf(task, field)))
  {
    hide FactOf, IsRun, FieldLine, PathOf, Walk, FieldIndent, Pop, Visit, ReadBack, IsWord;
    var parts := PathOf(task, field);
    var before, after := lines[..s.row], lines[s.row + 1..];
    var was, now := lines[s.row], FieldLine(s.indent, f, value);
    assert lines[s.row := now] == before + [now] + after && lines == before + [was] + after;
    ReadsAt(before, [now], after, parts);
    ReadsAt(before, [was], after, parts);
    var p := Walk([], before, parts);
    if p.Open? {
      FieldLineFacts(s.indent, f, value);
      FieldFact(was, f);
      WalkOne(p.stack, now, parts);
      WalkOne(p.stack, was, parts);
      VisitField(p.stack, |s.indent|, f, Some(ReadBack(value)), task, field);
      VisitField(p.stack, |s.indent|, f, FactOf(was).value, task, field);
    }
  }

  lemma OtherUnder(lines: seq<string>, s: Spot, f: string, value: string, task: string, field: string)
    requires s.Under? && SpotFits(s, |lines|) && IsWord(f) && f != task && s.indent != "" && IsRun(s.indent)
    requires var p := OtherAbove(lines, s, task, field);
             p.Found? || (IsAuxPlace(p) && Pop(p.stack, |s.indent|) == p.stack)
    ensures var p := OtherAbove(lines, s, task, field);
            Value(Walk([], lines[..s.row] + [FieldLine(s.indent, f, value)] + lines[s.row..], PathOf(task, field))) ==
              if IsCaptured(p, s, f, field) then Some(ReadBack(value)) else Value(Walk([], lines, PathOf(task, field)))
  {
    hide FactOf, IsRun, FieldLine, PathOf, Walk, FieldIndent, Pop, Visit, ReadBack, IsWord;
    var parts := PathOf(task, field);
    var before, after := lines[..s.row], lines[s.row..];
    var now := FieldLine(s.indent, f, value);
    assert lines == before + [] + after;
    ReadsAt(before, [now], after, parts);
    ReadsAt(before, [], after, parts);
    var p := Walk([], before, parts);
    if p.Open? {
      FieldLineFacts(s.indent, f, value);
      WalkOne(p.stack, now, parts);
      NothingWalked(p.stack, parts);
      VisitField(p.stack, |s.indent|, f, Some(ReadBack(value)), task, field);
    }
  }

  lemma OtherAtField(lines: seq<string>, own: string, f: string, value: string, task: string, field: string)
    requires FindAuxHeader(lines) < |lines| && own in SLOTS && f in FIELDS && task in SLOTS
    requires !SpotOf(lines, own, f).Fresh?
    ensures var s := SpotOf(lines, own, f);
            var p := OtherAbove(lines, s, task, field);
            Value(Walk([], PutAt(lines, s, own, f, value), PathOf(task, field))) ==
              if IsCaptured(p, s, f, field) then Some(ReadBack(value)) else Value(Walk([], lines, PathOf(task, field)))
  {
    hide FactOf, FindAuxHeader, IsAuxHeader, BlockEnd, SpotOf, IsRun, TaskLine, FieldLine, PathOf, Walk, SLOTS, FIELDS,
         FieldIndent, Pop, Visit, ReadBack, IsWord, Value, IsCaptured, IsAuxPlace;
    NamesAreWords();
    var s := SpotOf(lines, own, f);
    var row, n := SpotIsUnderTask(lines, own, f);
    if s.Over? {
      InsideSpot(lines, s, row, n, own, task, field);
      OtherOver(lines, s, f, value, task, field);
    } else {
      UnderKeepsFrames(lines, s, row, n, own, task, field);
      OtherUnder(lines, s, f, value, task, field);
    }
  }

  lemma NothingWalked(stack: seq<nat>, parts: seq<string>)
    ensures Walk(stack, [], parts) == Open(stack)
  {
  }

  lemma RowsInBlock(lines: seq<string>, s: Spot, row: nat, n: nat, own: string)
    requires IsUnderTask(lines, s, row, n, own)
    ensures var rest := [lines[row]] + lines[row + 1..s.row]; forall j :: 0 <= j < |rest| ==> IsInBlock(rest[j])
  {
    hide FactOf, FindAuxHeader, BlockEnd, IsRun;
    var rest := [lines[row]] + lines[row + 1..s.row];
    forall j | 0 <= j < |rest| ensures IsInBlock(rest[j]) {
      assert rest[j] == lines[row + j];
    }
  }

  lemma InsideSpot(lines: seq<string>, s: Spot, row: nat, n: nat, own: string, task: string, field: string)
    requires FindAuxHeader(lines) < |lines| && IsUnderTask(lines, s, row, n, own) && SpotFits(s, |lines|)
    ensures IsAuxPlace(OtherAbove(lines, s, task, field))
  {
    hide FactOf, FindAuxHeader, IsAuxHeader, BlockEnd, PathOf, Walk, IsAuxPlace, IsRun, Visit, IsInBlock;
    InsideBlock(lines, row, task, field);
    var p := Walk([], lines[..row], PathOf(task, field));
    SplitRow(lines, row, s.row);
    WalkConcat([], lines[..row], [lines[row]] + lines[row + 1..s.row], PathOf(task, field));
    if p.Open? {
      RowsInBlock(lines, s, row, n, own);
      WalkIndented(p, [lines[row]] + lines[row + 1..s.row], task, field);
    }
  }

  lemma ReadsBehind(before: seq<string>, after: seq<string>, parts: seq<string>)
    ensures var p := Walk([], before, parts);
            Value(Walk([], before + after, parts)) == if p.Found? then p.value else Value(Walk(p.stack, after, parts))
  {
    hide Walk;
    WalkConcat([], before, after, parts);
  }

  lemma OtherAtFresh(lines: seq<string>, own: string, f: string, value: string, task: string, field: string)
    requires FindAuxHeader(lines) < |lines| && own in SLOTS && f in FIELDS && task in SLOTS
    requires SpotOf(lines, own, f).Fresh? && (own != task || f != field)
    ensures var s := SpotOf(lines, own, f);
            var p := OtherAbove(lines, s, task, field);
            s.at <= |lines| &&
            Value(Walk([], PutAt(lines, s, own, f, value), PathOf(task, field))) ==
              if IsAdopting(p, s, own, task) then Value(Walk([0, 2], lines[s.at..], PathOf(task, field)))
              else Value(Walk([], lines, PathOf(task, field)))
  {
    hide FactOf, FindAuxHeader, IsAuxHeader, BlockEnd, SpotOf, IsRun, TaskLine, FieldLine, PathOf, Walk, SLOTS, FIELDS,
         IsWord, Value;
    var parts, s := PathOf(task, field), SpotOf(lines, own, f);
    SpotInBlock(lines, own, f);
    AtHeader(lines, task, field);
    var before, after := lines[..s.at], lines[s.at..];
    var two := [TaskLine(own)] + ([FieldLine("    ", f, value)] + after);
    assert PutAt(lines, s, own, f, value) == before + two by { FreshSplits(lines, s.at, own, f, value); }
    assert lines == before + after;
    ReadsBehind(before, two, parts);
    ReadsBehind(before, after, parts);
    TwoLines(own, f, value, after, task, field);
  }

  lemma FreshSplits(lines: seq<string>, at: nat, own: string, f: string, value: string)
    requires at <= |lines|
    ensures PutAt(lines, Fresh(at), own, f, value) ==
              lines[..at] + ([TaskLine(own)] + ([FieldLine("    ", f, value)] + lines[at..]))
  {
    hide TaskLine, FieldLine;
  }

  /**
   * What a one-line put makes of every other read, for every file with a header: the value put where the reader
   * takes the written line for that field of another task, what the task's new line makes of the fields below it
   * where they come to stand under it, and the old reading in every other case.
   */
  lemma OtherReads(content: string, own: string, f: string, value: string, task: string, field: string)
    requires !IsUnseen(content) && own in SLOTS && f in FIELDS && '\n' !in value && task in SLOTS
    requires own != task || f != field
    ensures var lines := SplitLines(content);
            var s := SpotOf(lines, own, f);
            var p := OtherAbove(lines, s, task, field);
            var read := ReadPath(SetField(content, own, f, value), PathOf(task, field));
            RowOf(s) <= |lines| &&
            read ==
              if IsCaptured(p, s, f, field) then Some(ReadBack(value))
              else if IsAdopting(p, s, own, task) then Value(Walk([0, 2], lines[RowOf(s)..], PathOf(task, field)))
              else ReadPath(content, PathOf(task, field))
  {
    hide FindAuxHeader, SplitLines, SpotOf, IsWord, Walk, PathOf, SetField, ReadPath, PutAt, SLOTS, FIELDS, ReadBack,
         Pop;
    NamesAreWords();
    PathShape(task, field);
    var lines := SplitLines(content);
    var s := SpotOf(lines, own, f);
    ReadIsWalk(content, PathOf(task, field));
    ReadIsWalk(SetField(content, own, f, value), PathOf(task, field));
    ChangedLines(content, own, f, value);
    if s.Fresh? {
      OtherAtFresh(lines, own, f, value, task, field);
    } else {
      OtherAtField(lines, own, f, value, task, field);
    }
  }

  // ---------------------------------------------------------------- put after put, exactly

  function SumBreaks(lines: seq<string>): nat {
    if lines == [] then 0 else Breaks(lines[0]) + SumBreaks(lines[1..])
  }

  lemma {:induction false} SumConcat(a: seq<string>, b: seq<string>)
    ensures SumBreaks(a + b) == SumBreaks(a) + SumBreaks(b)
  {
    hide Breaks;
    if a == [] {
      assert a + b == b;
    } else {
      assert (a + b)[1..] == a[1..] + b;
      SumConcat(a[1..], b);
    }
  }

  lemma SumOne(l: string)
    ensures SumBreaks([l]) == Breaks(l)
  {
    assert [l][1..] == [];
  }

  lemma {:induction false} BreaksOfJoin(lines: seq<string>)
    requires lines != []
    ensures Breaks(Join(lines, "\n")) == SumBreaks(lines) + |lines| - 1
  {
    hide Breaks;
    if |lines| == 1 {
      SumOne(lines[0]);
      assert lines == [lines[0]];
    } else {
      BreaksOfJoin(lines[1..]);
      OneBreak();
      BreaksConcat(lines[0], "\n");
      BreaksConcat(lines[0] + "\n", Join(lines[1..], "\n"));
    }
  }

  lemma OneBreak()
    ensures Breaks("\n") == 1 && Breaks("") == 0
  {
    assert "\n"[1..] == "";
  }

  lemma BreaksOfField(run: string, field: string, value: string)
    requires IsRun(run) && IsWord(field)
    ensures Breaks(FieldLine(run, field, value)) == Breaks(value)
  {
    hide Breaks, ReplaceChar, IsWordChar;
    var e := EscapeQuotes(value);
    RunAndWord(run, field);
    BreaksReplaced(value, '"', "\\\"") by { QuoteHasNone(); }
    QuoteHasNone();
    BreaksIff("\"");
    BreaksIff(": ");
    BreaksIff(run);
    BreaksIff(field);
    BreaksConcat(e, "\"");
    BreaksConcat("\"", e + "\"");
    BreaksConcat(": ", "\"" + (e + "\""));
    BreaksConcat(field, ": " + ("\"" + (e + "\"")));
    BreaksConcat(run, field + (": " + ("\"" + (e + "\""))));
  }

  lemma QuoteHasNone()
    ensures !HasTerminator("\"") && !HasTerminator(": ") && !HasTerminator("\\\"") && !IsTerminator('"')
  {
  }

  lemma RunAndWord(run: string, field: string)
    requires IsRun(run) && IsWord(field)
    ensures !HasTerminator(run) && !HasTerminator(field)
  {
  }

  lemma BreaksOfTask(task: string)
    requires IsWord(task)
    ensures Breaks(TaskLine(task)) == 0
  {
    hide Breaks;
    var line := TaskLine(task);
    assert !HasTerminator(line) by {
      assert forall i :: 0 <= i < |line| ==>
               line[i] == ' ' || line[i] == ':' || (2 <= i < 2 + |task| && line[i] == task[i - 2]);
      RunAndWord("", task);
    }
    BreaksIff(line);
  }

  /** A field line that the setter's pattern takes holds no terminator. */
  lemma FieldHasNone(line: string, field: string)
    requires FieldIndent(line, field).Some? && IsWord(field)
    ensures Breaks(line) == 0
  {
    hide Breaks, AfterName, IsWordChar;
    AfterNameShape(line, field);
    var (run, rest) := AfterName(line, field).value;
    RunAndWord(run, field);
    QuoteHasNone();
    assert !HasTerminator(":") by { assert ": "[0] == ":"[0]; }
    BreaksIff(run);
    BreaksIff(field);
    BreaksIff(":");
    BreaksIff(rest);
    BreaksConcat(":", rest);
    BreaksConcat(field, ":" + rest);
    BreaksConcat(run, field + (":" + rest));
  }

  /** How many terminators a put adds to the file beside those of its value. */
  function Added(content: string, task: string, field: string): nat {
    if IsUnseen(content) then |Separator(content)| + 3
    else
      match SpotOf(SplitLines(content), task, field)
      case Fresh(_) => 2
      case Over(_, _) => 0
      case Under(_, _) => 1
  }

  lemma BreaksOfPut(content: string, task: string, field: string, value: string)
    requires IsWord(task) && IsWord(field)
    ensures Breaks(SetField(content, task, field, value)) ==
              Breaks(content) + Added(content, task, field) + Breaks(value)
  {
    hide Breaks, IsAuxHeader, FindAuxHeader, SplitLines, TaskLine, FieldLine, Join, SpotOf, IsWord, NewBlock, Separator;
    if IsUnseen(content) {
      BreaksOfBlock(task, field, value);
      BreaksOfSeparator(content);
      BreaksConcat(content, Separator(content));
      BreaksConcat(content + Separator(content), NewBlock(task, field, value));
    } else {
      var lines := SplitLines(content);
      var s := SpotOf(lines, task, field);
      BreaksOfLines(lines, s, task, field, value) by {
        RunOfFour();
        if !s.Fresh? {
          SpotIndent(lines, task, field);
          SpotFacts(lines, task, field);
        }
      }
      JoinOfSplit(content);
      BreaksOfJoin(lines);
      BreaksOfJoin(PutAt(lines, s, task, field, value));
    }
  }

  lemma BreaksOfSeparator(content: string)
    ensures Breaks(Separator(content)) == |Separator(content)|
  {
    OneBreak();
  }

  lemma BreaksOfBlock(task: string, field: string, value: string)
    requires IsWord(task) && IsWord(field)
    ensures Breaks(NewBlock(task, field, value)) == 3 + Breaks(value)
  {
    hide Breaks, TaskLine, FieldLine, Join, IsWord, NewBlock;
    BlockJoins(task, field, value);
    var lines := BlockLines(task, field, value);
    BreaksOfJoin(lines);
    BreaksOfTask(task);
    RunOfFour();
    BreaksOfField("    ", field, value);
    OneBreak();
    assert Breaks("auxiliary:") == 0 by { HeaderHasNone(); }
    assert lines == ["auxiliary:"] + [TaskLine(task)] + ([FieldLine("    ", field, value)] + [""]);
    SumAround(["auxiliary:"], [TaskLine(task)], [FieldLine("    ", field, value)] + [""]);
    SumConcat([FieldLine("    ", field, value)], [""]);
    SumOne("auxiliary:");
    SumOne(TaskLine(task));
    SumOne(FieldLine("    ", field, value));
    SumOne("");
  }

  lemma HeaderHasNone()
    ensures Breaks("auxiliary:") == 0
  {
    hide Breaks;
    assert !HasTerminator("auxiliary:");
    BreaksIff("auxiliary:");
  }

  lemma BreaksOfLines(lines: seq<string>, s: Spot, task: string, field: string, value: string)
    requires IsWord(task) && IsWord(field) && SpotFits(s, |lines|)
    requires if s.Fresh? then IsRun("    ") else IsRun(s.indent)
    requires s.Over? ==> FieldIndent(lines[s.row], field).Some?
    ensures var next := PutAt(lines, s, task, field, value);
            next != [] && SumBreaks(next) == SumBreaks(lines) + Breaks(value) &&
            |next| == |lines| + (match s case Fresh(_) => 2 case Over(_, _) => 0 case Under(_, _) => 1)
  {
    hide Breaks, TaskLine, FieldLine, IsWord, FieldIndent;
    match s
    case Fresh(at) =>
      BreaksOfTask(task);
      BreaksOfField("    ", field, value);
      var two := [TaskLine(task), FieldLine("    ", field, value)];
      assert two == [TaskLine(task)] + [FieldLine("    ", field, value)];
      SumConcat([TaskLine(task)], [FieldLine("    ", field, value)]);
      SumOne(TaskLine(task));
      SumOne(FieldLine("    ", field, value));
      SumAround(lines[..at], two, lines[at..]);
      SumConcat(lines[..at], lines[at..]);
      assert lines == lines[..at] + lines[at..];
    case Over(row, indent) =>
      BreaksOfField(indent, field, value);
      FieldHasNone(lines[row], field);
      var line := FieldLine(indent, field, value);
      assert lines == lines[..row] + [lines[row]] + lines[row + 1..];
      assert lines[row := line] == lines[..row] + [line] + lines[row + 1..];
      SumOne(line);
      SumOne(lines[row]);
      SumAround(lines[..row], [line], lines[row + 1..]);
      SumAround(lines[..row], [lines[row]], lines[row + 1..]);
    case Under(row, indent) =>
      BreaksOfField(indent, field, value);
      SumOne(FieldLine(indent, field, value));
      SumAround(lines[..row], [FieldLine(indent, field, value)], lines[row..]);
      SumConcat(lines[..row], lines[row..]);
      assert lines == lines[..row] + lines[row..];
  }

  lemma SumAround(a: seq<string>, m: seq<string>, c: seq<string>)
    ensures SumBreaks(a + m + c) == SumBreaks(a) + SumBreaks(m) + SumBreaks(c)
  {
    SumConcat(a + m, c);
    SumConcat(a, m);
  }

  /** The last put counts if and only if the first value is one line: whatever else it holds stays in the file. */
  lemma PutPutIff(content: string, task: string, field: string, v1: string, v2: string)
    requires IsWord(task) && IsWord(field)
    ensures SetField(SetField(content, task, field, v1), task, field, v2) == SetField(content, task, field, v2) <==>
            !HasTerminator(v1)
  {
    hide Breaks, SetField, IsWord, HasTerminator, Added;
    if !HasTerminator(v1) {
      PutPut(content, task, field, v1, v2);
    } else {
      BreaksIff(v1);
      var next := SetField(content, task, field, v1);
      BreaksOfPut(content, task, field, v1);
      BreaksOfPut(next, task, field, v2);
      BreaksOfPut(content, task, field, v2);
    }
  }
}
