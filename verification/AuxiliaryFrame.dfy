/** What a put leaves alone: every other read, and the regularity of the file. */
module AuxiliaryFrame {
  import opened Text
  import opened ConfigScalars
  import opened YamlPaths
  import opened Auxiliary
  import opened AuxiliaryLines
  import opened AuxiliaryLaws
  import opened AuxiliaryTexts
  import opened AuxiliaryReads

  // ---------------------------------------------------------------- the state of a walk in the block

  predicate IsBlockPlace(p: Place) {
    p.Found? || p.stack == [0] || p.stack == [0, 2]
  }

  lemma VisitInBlock(p: Place, line: string, task: string, field: string)
    requires p.Open? && IsBlockPlace(p) && IsInBlock(line) && IsRegularLine(line) && task in SLOTS
    ensures IsBlockPlace(Visit(p.stack, FactOf(line), PathOf(task, field)))
  {
    hide FactOf, TaskIndent, FieldIndent, SLOTS, FIELDS;
    NamesAreWords();
    var f := FactOf(line);
    if f.Pair? && f.key == task { TaskFact(line, task); }
    PopInBlock(p.stack, if f.Skip? then 1 else f.indent);
  }

  lemma PopInBlock(stack: seq<nat>, n: nat)
    requires (stack == [0] || stack == [0, 2]) && n > 0
    ensures Pop(stack, n) == if n > 2 then stack else [0]
  {
    if stack == [0, 2] { assert stack[..1] == [0]; }
  }

  lemma {:induction false} WalkInBlock(p: Place, lines: seq<string>, task: string, field: string)
    requires p.Open? && IsBlockPlace(p) && task in SLOTS &&
             forall j :: 0 <= j < |lines| ==> IsInBlock(lines[j]) && IsRegularLine(lines[j])
    ensures IsBlockPlace(Walk(p.stack, lines, PathOf(task, field)))
    decreases |lines|
  {
    hide FactOf, IsBlockPlace, IsInBlock, IsRegularLine, SLOTS, FIELDS, PathOf, Visit;
    if lines != [] {
      var q := Visit(p.stack, FactOf(lines[0]), PathOf(task, field));
      VisitInBlock(p, lines[0], task, field);
      if q.Open? { WalkInBlock(q, lines[1..], task, field); }
    }
  }

  /** The place of a walk for any slot after some lines of the block. */
  lemma PlaceInBlock(lines: seq<string>, k: nat, task: string, field: string)
    requires FindAuxHeader(lines) < k <= |lines| && Regular(lines) && k <= BlockEnd(lines, FindAuxHeader(lines) + 1) &&
             task in SLOTS
    ensures IsBlockPlace(Walk([], lines[..k], PathOf(task, field)))
  {
    hide FactOf, IsInBlock, IsRegularLine, SLOTS, FIELDS, PathOf, Walk, FindAuxHeader, IsAuxHeader, BlockEnd, IsTop,
         StartsShallow, IsForeign;
    var a := FindAuxHeader(lines) + 1;
    WalkToHeader(lines, task, field);
    BlockLinesAreIn(lines, a);
    SegmentIsRegular(lines, a, k);
    WalkInBlock(Open([0]), lines[a..k], task, field);
    SplitAt(lines, a, k);
    WalkConcat([], lines[..a], lines[a..k], PathOf(task, field));
  }

  lemma SegmentIsRegular(lines: seq<string>, a: nat, k: nat)
    requires a <= k <= |lines| && forall j :: a <= j < k ==> IsInBlock(lines[j]) && IsRegularLine(lines[j])
    ensures forall j :: 0 <= j < |lines[a..k]| ==> IsInBlock(lines[a..k][j]) && IsRegularLine(lines[a..k][j])
  {
    hide IsInBlock, IsRegularLine;
  }

  /** Which frames are open just before an edited line: those of its own task, or none of another's. */
  predicate IsBodyPlace(p: Place, same: bool) {
    p.Found? || p.stack == if same then [0, 2] else [0]
  }

  lemma VisitTaskLine(p: Place, line: string, own: string, task: string, field: string)
    requires p.Open? && IsBlockPlace(p) && FactOf(line) == Pair(2, own, None)
    ensures IsBodyPlace(Visit(p.stack, FactOf(line), PathOf(task, field)), own == task)
  {
    hide FactOf;
    PopInBlock(p.stack, 2);
  }

  lemma VisitBodyLine(p: Place, line: string, same: bool, task: string, field: string)
    requires p.Open? && IsBodyPlace(p, same) && (FactOf(line).Skip? || FactOf(line).indent > 2) &&
             IsRegularLine(line) && task in SLOTS
    ensures IsBodyPlace(Visit(p.stack, FactOf(line), PathOf(task, field)), same)
  {
    hide FactOf, TaskIndent, FieldIndent, SLOTS, FIELDS;
    NamesAreWords();
    var f := FactOf(line);
    if f.Pair? && f.key == task { TaskFact(line, task); }
    PopInBlock(p.stack, if f.Skip? then 3 else f.indent);
  }

  lemma {:induction false} WalkInBody(p: Place, lines: seq<string>, same: bool, task: string, field: string)
    requires p.Open? && IsBodyPlace(p, same) && task in SLOTS
    requires forall j :: 0 <= j < |lines| ==>
               (FactOf(lines[j]).Skip? || FactOf(lines[j]).indent > 2) && IsRegularLine(lines[j])
    ensures IsBodyPlace(Walk(p.stack, lines, PathOf(task, field)), same)
    decreases |lines|
  {
    hide FactOf, IsBodyPlace, IsRegularLine, SLOTS, FIELDS, PathOf, Visit;
    if lines != [] {
      var q := Visit(p.stack, FactOf(lines[0]), PathOf(task, field));
      assert (FactOf(lines[0]).Skip? || FactOf(lines[0]).indent > 2) && IsRegularLine(lines[0]);
      VisitBodyLine(p, lines[0], same, task, field);
      if q.Open? { WalkInBody(q, lines[1..], same, task, field); }
    }
  }

  lemma PlaceAtSpot(lines: seq<string>, own: string, f: string, s: Spot, row: nat, task: string, field: string)
    requires FindAuxHeader(lines) < |lines| && Regular(lines) && Leads(lines, own, f, s, row) && task in SLOTS
    ensures s.row <= |lines| && IsBodyPlace(Walk([], lines[..s.row], PathOf(task, field)), own == task)
  {
    hide FactOf, IsRegularLine, SLOTS, FIELDS, PathOf, Walk, FindAuxHeader, IsAuxHeader, BlockEnd, IsTop, StartsShallow,
         IsForeign, IsBlockPlace, IsBodyPlace;
    hide IsRun, FieldIndent, Visit;
    var parts := PathOf(task, field);
    PlaceInBlock(lines, row, task, field);
    var p := Walk([], lines[..row], parts);
    SplitRow(lines, row, s.row);
    WalkConcat([], lines[..row], [lines[row]] + lines[row + 1..s.row], parts);
    if p.Open? {
      WalkConcat(p.stack, [lines[row]], lines[row + 1..s.row], parts);
      WalkOne(p.stack, lines[row], parts);
      VisitTaskLine(p, lines[row], own, task, field);
      var q := Visit(p.stack, FactOf(lines[row]), parts);
      if q.Open? {
        BodySegment(lines, row + 1, s.row);
        WalkInBody(q, lines[row + 1..s.row], own == task, task, field);
      } else {
        FoundIsBodyPlace(q, own == task);
      }
    } else {
      FoundIsBodyPlace(p, own == task);
    }
  }

  lemma FoundIsBodyPlace(p: Place, same: bool)
    requires p.Found?
    ensures IsBodyPlace(p, same)
  {
  }

  lemma SplitRow(lines: seq<string>, row: nat, at: nat)
    requires row < at <= |lines|
    ensures lines[..at] == lines[..row] + ([lines[row]] + lines[row + 1..at])
  {
  }

  lemma BodySegment(lines: seq<string>, a: nat, k: nat)
    requires a <= k <= |lines| &&
             forall j :: a <= j < k ==>
               (FactOf(lines[j]).Skip? || FactOf(lines[j]).indent > 2) && IsRegularLine(lines[j])
    ensures var seg := lines[a..k];
            forall j :: 0 <= j < |seg| ==> (FactOf(seg[j]).Skip? || FactOf(seg[j]).indent > 2) && IsRegularLine(seg[j])
  {
    hide FactOf, IsRegularLine;
  }

  // ---------------------------------------------------------------- the edited line does not matter to others

  lemma VisitOtherField(p: Place, line: string, own: string, f: string, task: string, field: string)
    requires p.Open? && IsBodyPlace(p, own == task) && FactOf(line).Pair? && FactOf(line).indent > 2 &&
             FactOf(line).key == f
    requires task in SLOTS && f in FIELDS && (own != task || f != field)
    ensures Visit(p.stack, FactOf(line), PathOf(task, field)) == p
  {
    hide FactOf, SLOTS, FIELDS;
    NamesAreWords();
    PopInBlock(p.stack, FactOf(line).indent);
  }

  /** A line two deep, or none at all, closes the frame of a new task. */
  lemma {:induction false} ShallowSame(lines: seq<string>, task: string, field: string)
    requires StartsShallow(lines)
    ensures Value(Walk([0, 2], lines, PathOf(task, field))) == Value(Walk([0], lines, PathOf(task, field)))
    decreases |lines|
  {
    hide FactOf;
    if lines != [] {
      var f := FactOf(lines[0]);
      if f.Skip? {
        ShallowSame(lines[1..], task, field);
      } else {
        PopShallow(f.indent);
      }
    }
  }

  lemma PopShallow(n: nat)
    requires n <= 2
    ensures Pop([0, 2], n) == Pop([0], n)
  {
    assert [0, 2][..1] == [0];
  }

  lemma ValueAfter(before: seq<string>, a: seq<string>, c: seq<string>, parts: seq<string>)
    requires var p := Walk([], before, parts);
             p.Open? ==> Value(Walk(p.stack, a, parts)) == Value(Walk(p.stack, c, parts))
    ensures Value(Walk([], before + a, parts)) == Value(Walk([], before + c, parts))
  {
    hide Walk;
    WalkConcat([], before, a, parts);
    WalkConcat([], before, c, parts);
  }

  lemma OthersOver(before: seq<string>, was: string, now: string, rest: seq<string>, own: string, f: string,
                   task: string, field: string)
    requires IsBodyPlace(Walk([], before, PathOf(task, field)), own == task) && task in SLOTS && f in FIELDS &&
             (own != task || f != field)
    requires FactOf(now).Pair? && FactOf(now).indent > 2 && FactOf(now).key == f
    requires FactOf(was).Pair? && FactOf(was).indent > 2 && FactOf(was).key == f
    ensures Value(Walk([], before + ([now] + rest), PathOf(task, field))) ==
              Value(Walk([], before + ([was] + rest), PathOf(task, field)))
  {
    hide FactOf, SLOTS, FIELDS, PathOf, Walk, IsBodyPlace;
    var p := Walk([], before, PathOf(task, field));
    if p.Open? {
      StepOver(p, now, rest, own, f, task, field);
      StepOver(p, was, rest, own, f, task, field);
    }
    ValueAfter(before, [now] + rest, [was] + rest, PathOf(task, field));
  }

  lemma OthersUnder(before: seq<string>, now: string, rest: seq<string>, own: string, f: string, task: string,
                    field: string)
    requires IsBodyPlace(Walk([], before, PathOf(task, field)), own == task) && task in SLOTS && f in FIELDS &&
             (own != task || f != field)
    requires FactOf(now).Pair? && FactOf(now).indent > 2 && FactOf(now).key == f
    ensures Value(Walk([], before + ([now] + rest), PathOf(task, field))) ==
              Value(Walk([], before + rest, PathOf(task, field)))
  {
    hide FactOf, SLOTS, FIELDS, PathOf, Walk, IsBodyPlace;
    var p := Walk([], before, PathOf(task, field));
    if p.Open? { StepOver(p, now, rest, own, f, task, field); }
    ValueAfter(before, [now] + rest, rest, PathOf(task, field));
  }

  lemma FieldNow(s: Spot, f: string, value: string)
    requires !s.Fresh? && f in FIELDS && s.indent != "" && IsRun(s.indent) && |s.indent| > 2
    ensures var fact := FactOf(FieldLine(s.indent, f, value)); fact.Pair? && fact.indent > 2 && fact.key == f
  {
    hide FactOf, SLOTS, FIELDS, FieldLine, IsWord, IsRun;
    NamesAreWords();
    FieldLineFacts(s.indent, f, value);
  }

  lemma FieldWas(line: string, f: string, indent: string)
    requires f in FIELDS && FieldIndent(line, f) == Some(indent) && |indent| > 2
    ensures var fact := FactOf(line); fact.Pair? && fact.indent > 2 && fact.key == f
  {
    hide FactOf, SLOTS, FIELDS, IsWord, FieldIndent;
    NamesAreWords();
    FieldFact(line, f);
  }

  lemma LeadsFacts(lines: seq<string>, own: string, f: string, s: Spot, row: nat)
    requires Leads(lines, own, f, s, row)
    ensures !s.Fresh? && SpotFits(s, |lines|) && s.indent != "" && IsRun(s.indent) && |s.indent| > 2
    ensures s.Over? ==> s.row < |lines| && FieldIndent(lines[s.row], f) == Some(s.indent)
  {
    hide FactOf, FieldIndent, IsRun, FindAuxHeader, BlockEnd;
  }

  lemma PutSplits(lines: seq<string>, s: Spot, own: string, f: string, value: string)
    requires !s.Fresh? && SpotFits(s, |lines|)
    ensures var now := FieldLine(s.indent, f, value);
            if s.Over? then
              PutAt(lines, s, own, f, value) == lines[..s.row] + ([now] + lines[s.row + 1..]) &&
              lines == lines[..s.row] + ([lines[s.row]] + lines[s.row + 1..])
            else
              PutAt(lines, s, own, f, value) == lines[..s.row] + ([now] + lines[s.row..]) &&
              lines == lines[..s.row] + lines[s.row..]
  {
    hide FieldLine, TaskLine;
  }

  lemma OthersAtField(lines: seq<string>, own: string, f: string, s: Spot, row: nat, value: string, task: string,
                      field: string)
    requires FindAuxHeader(lines) < |lines| && Regular(lines) && Leads(lines, own, f, s, row)
    requires task in SLOTS && f in FIELDS && (own != task || f != field)
    ensures Value(Walk([], PutAt(lines, s, own, f, value), PathOf(task, field))) ==
              Value(Walk([], lines, PathOf(task, field)))
  {
    hide FactOf, SLOTS, FIELDS, PathOf, Walk, FindAuxHeader, IsAuxHeader, BlockEnd, Regular, IsBodyPlace, FieldLine,
         FieldIndent, IsRun, Leads, PutAt, Value;
    LeadsFacts(lines, own, f, s, row);
    var now := FieldLine(s.indent, f, value);
    PlaceAtSpot(lines, own, f, s, row, task, field);
    FieldNow(s, f, value);
    PutSplits(lines, s, own, f, value);
    if s.Over? {
      FieldWas(lines[s.row], f, s.indent);
      OthersOver(lines[..s.row], lines[s.row], now, lines[s.row + 1..], own, f, task, field);
    } else {
      OthersUnder(lines[..s.row], now, lines[s.row..], own, f, task, field);
    }
  }

  lemma StepOver(p: Place, line: string, rest: seq<string>, own: string, f: string, task: string, field: string)
    requires p.Open? && IsBodyPlace(p, own == task) && FactOf(line).Pair? && FactOf(line).indent > 2 &&
             FactOf(line).key == f
    requires task in SLOTS && f in FIELDS && (own != task || f != field)
    ensures Walk(p.stack, [line] + rest, PathOf(task, field)) == Walk(p.stack, rest, PathOf(task, field))
  {
    hide FactOf, SLOTS, FIELDS, PathOf, Walk, IsBodyPlace, Visit;
    VisitOtherField(p, line, own, f, task, field);
    WalkConcat(p.stack, [line], rest, PathOf(task, field));
    WalkOne(p.stack, line, PathOf(task, field));
  }

  lemma OthersAtFresh(lines: seq<string>, own: string, f: string, value: string, task: string, field: string)
    requires FindAuxHeader(lines) < |lines| && Regular(lines) && own in SLOTS && task in SLOTS && f in FIELDS &&
             (own != task || f != field)
    ensures Value(Walk([], PutAt(lines, Fresh(FindAuxHeader(lines) + 1), own, f, value), PathOf(task, field))) ==
              Value(Walk([], lines, PathOf(task, field)))
  {
    hide FactOf, IsRegularLine, SLOTS, FIELDS, PathOf, Walk, FindAuxHeader, IsAuxHeader, BlockEnd, IsForeign, FieldLine,
         IsWord, TaskLine, StartsShallow;
    NamesAreWords();
    var a, parts := FindAuxHeader(lines) + 1, PathOf(task, field);
    WalkToHeader(lines, task, field);
    var before, rest := lines[..a], lines[a..];
    TwoLines(own, f, value, rest, task, field);
    if own == task { ShallowSame(rest, task, field); }
    var two := [TaskLine(own)] + ([FieldLine("    ", f, value)] + rest);
    ValueAfter(before, two, rest, parts);
    assert PutAt(lines, Fresh(a), own, f, value) == before + two && lines == before + rest;
  }

  /** The two new lines open the new task for its own reads and nothing for others. */
  lemma TwoLines(own: string, f: string, value: string, rest: seq<string>, task: string, field: string)
    requires own in SLOTS && task in SLOTS && f in FIELDS && (own != task || f != field)
    ensures Walk([0], [TaskLine(own)] + ([FieldLine("    ", f, value)] + rest), PathOf(task, field)) ==
            Walk(if own == task then [0, 2] else [0], rest, PathOf(task, field))
  {
    hide FactOf, SLOTS, FIELDS, PathOf, Walk, FieldLine, IsWord, TaskLine, Visit;
    NamesAreWords();
    var parts, line := PathOf(task, field), FieldLine("    ", f, value);
    var p := Open(if own == task then [0, 2] else [0]);
    TaskLineFacts(own);
    RunOfFour();
    FieldLineFacts("    ", f, value);
    WalkConcat([0], [TaskLine(own)], [line] + rest, parts);
    WalkOne([0], TaskLine(own), parts);
    VisitNewTask(own, task, field);
    StepOver(p, line, rest, own, f, task, field);
  }

  lemma VisitNewTask(own: string, task: string, field: string)
    ensures Visit([0], Pair(2, own, None), PathOf(task, field)) == Open(if own == task then [0, 2] else [0])
  {
    PopInBlock([0], 2);
  }

  /** A put into a regular file changes no other read. */
  lemma OtherReadsStay(lines: seq<string>, own: string, f: string, value: string, task: string, field: string)
    requires FindAuxHeader(lines) < |lines| && Regular(lines) && own in SLOTS && task in SLOTS && f in FIELDS &&
             (own != task || f != field)
    ensures Value(Walk([], PutAt(lines, SpotOf(lines, own, f), own, f, value), PathOf(task, field))) ==
              Value(Walk([], lines, PathOf(task, field)))
  {
    hide FactOf, SLOTS, FIELDS, PathOf, Walk, FindAuxHeader, IsAuxHeader, Regular, SpotOf, PutAt, Leads;
    SpotShape(lines, own, f);
    var s := SpotOf(lines, own, f);
    if s.Fresh? {
      OthersAtFresh(lines, own, f, value, task, field);
    } else {
      var row: nat :| Leads(lines, own, f, s, row);
      OthersAtField(lines, own, f, s, row, value, task, field);
    }
  }

  // ---------------------------------------------------------------- a regular file stays regular

  lemma {:induction false} ShallowUntil(lines: seq<string>, next: seq<string>, k: nat)
    requires StartsShallow(lines) && k < |lines| && k < |next| && next[..k + 1] == lines[..k + 1] &&
             !FactOf(lines[k]).Skip?
    ensures StartsShallow(next)
    decreases k
  {
    hide FactOf;
    assert next[0] == next[..k + 1][0] == lines[..k + 1][0] == lines[0];
    if k > 0 && FactOf(lines[0]).Skip? {
      assert next[1..][..k] == next[..k + 1][1..] && lines[1..][..k] == lines[..k + 1][1..];
      ShallowUntil(lines[1..], next[1..], k - 1);
    } else if k == 0 {
      assert lines[k] == lines[0];
    }
  }

  lemma WrittenIsRegular(run: string, f: string, value: string)
    requires run != "" && IsRun(run) && f in FIELDS && !HasTerminator(value)
    ensures IsRegularLine(FieldLine(run, f, value)) && !IsTop(FieldLine(run, f, value))
  {
    hide FactOf, SLOTS, FIELDS, FieldLine, IsWord, IsRun, HasTerminator, IsTop, TaskIndent, FieldIndent;
    NamesAreWords();
    FieldLineFacts(run, f, value);
  }

  lemma TaskIsRegular(task: string)
    requires task in SLOTS
    ensures IsRegularLine(TaskLine(task)) && !IsTop(TaskLine(task)) && FactOf(TaskLine(task)) == Pair(2, task, None)
  {
    hide FactOf, SLOTS, FIELDS, TaskLine, IsWord, IsTop, TaskIndent, FieldIndent;
    NamesAreWords();
    TaskLineFacts(task);
  }

  lemma BlockEndIs(next: seq<string>, a: nat, z: nat)
    requires a <= z <= |next| && (forall j :: a <= j < z ==> !IsTop(next[j])) && (z < |next| ==> IsTop(next[z]))
    ensures BlockEnd(next, a) == z
  {
    hide IsTop, BlockEnd;
    var e := BlockEnd(next, a);
    assert e < |next| ==> IsTop(next[e]);
  }

  /** A changed block is regular when the new lines are and its head is kept. */
  lemma StillRegular(lines: seq<string>, next: seq<string>, from: nat, more: seq<string>, to: nat)
    requires FindAuxHeader(lines) < |lines| && Regular(lines) &&
             FindAuxHeader(lines) < from <= to <= BlockEnd(lines, FindAuxHeader(lines) + 1)
    requires next == lines[..from] + more + lines[to..]
    requires forall l :: l in more ==> IsRegularLine(l) && !IsTop(l)
    requires StartsShallow(next[FindAuxHeader(lines) + 1..])
    ensures FindAuxHeader(next) == FindAuxHeader(lines) && Regular(next)
  {
    hide FactOf, SLOTS, FIELDS, IsTop, IsRegularLine, IsForeign, FindAuxHeader, IsAuxHeader, BlockEnd, StartsShallow;
    var a := FindAuxHeader(lines) + 1;
    var z := BlockEnd(lines, a);
    var d := |more|;
    assert next[..a] == lines[..a];
    HeaderOfChanged(lines, next, a - 1);
    var end := z - (to - from) + d;
    forall j | a <= j < end ensures IsRegularLine(next[j]) && !IsTop(next[j]) {
      if j < from { assert next[j] == lines[j]; }
      else if j < from + d { assert next[j] == more[j - from]; }
      else { assert next[j] == lines[j - from - d + to]; }
    }
    assert end < |next| ==> next[end] == lines[z];
    BlockEndIs(next, a, end);
    assert forall j :: 0 <= j < a - 1 ==> next[j] == next[..a][j] == lines[..a][j] == lines[j];
  }

  lemma ShallowTask(lines: seq<string>, task: string)
    requires lines != [] && lines[0] == TaskLine(task) && FactOf(TaskLine(task)) == Pair(2, task, None)
    ensures StartsShallow(lines)
  {
    hide FactOf;
  }

  lemma PutKeepsRegular(lines: seq<string>, own: string, f: string, value: string)
    requires FindAuxHeader(lines) < |lines| && Regular(lines) && own in SLOTS && f in FIELDS && !HasTerminator(value)
    ensures var next := PutAt(lines, SpotOf(lines, own, f), own, f, value);
            FindAuxHeader(next) == FindAuxHeader(lines) < |next| && Regular(next)
  {
    hide FactOf, SLOTS, FIELDS, FindAuxHeader, IsAuxHeader, SpotOf, Leads, IsRegularLine, IsTop, FieldLine, TaskLine,
         HasTerminator, BlockEnd, IsForeign, IsRun, StartsShallow;
    SpotShape(lines, own, f);
    var s, a := SpotOf(lines, own, f), FindAuxHeader(lines) + 1;
    var next := PutAt(lines, s, own, f, value);
    if s.Fresh? {
      RunOfFour();
      WrittenIsRegular("    ", f, value);
      TaskIsRegular(own);
      assert StartsShallow(next[a..]) by { ShallowTask(next[a..], own); }
      StillRegular(lines, next, a, [TaskLine(own), FieldLine("    ", f, value)], a);
    } else {
      var row: nat :| Leads(lines, own, f, s, row);
      LeadsFacts(lines, own, f, s, row);
      WrittenIsRegular(s.indent, f, value);
      PutInBlock(lines, next, own, f, s, row, value);
      HeadIsKept(lines, next, a, row, s.row);
      StillRegular(lines, next, s.row, [FieldLine(s.indent, f, value)], if s.Over? then s.row + 1 else s.row);
    }
  }

  lemma HeadIsKept(lines: seq<string>, next: seq<string>, a: nat, row: nat, at: nat)
    requires a <= row < at <= |lines| && at <= |next| && next[..at] == lines[..at] && StartsShallow(lines[a..]) &&
             !FactOf(lines[row]).Skip?
    ensures StartsShallow(next[a..])
  {
    hide FactOf, StartsShallow;
    var k := row - a;
    assert lines[a..][k] == lines[row];
    assert next[a..][..k + 1] == next[..at][a..row + 1] == lines[..at][a..row + 1] == lines[a..][..k + 1];
    ShallowUntil(lines[a..], next[a..], k);
  }

  lemma PutInBlock(lines: seq<string>, next: seq<string>, own: string, f: string, s: Spot, row: nat, value: string)
    requires FindAuxHeader(lines) < |lines| && Leads(lines, own, f, s, row) && SpotFits(s, |lines|) &&
             next == PutAt(lines, s, own, f, value)
    ensures var to := if s.Over? then s.row + 1 else s.row;
            FindAuxHeader(lines) < row < s.row <= to <= BlockEnd(lines, FindAuxHeader(lines) + 1) &&
            next == lines[..s.row] + [FieldLine(s.indent, f, value)] + lines[to..] &&
            next[..s.row] == lines[..s.row] && !FactOf(lines[row]).Skip?
  {
    hide FactOf, FindAuxHeader, IsAuxHeader, IsTop, FieldLine, BlockEnd, FieldIndent, IsRun;
  }
}
