/** What a put makes of the text of the file: the line it writes, whatever the value, and how that line is read. */
module AuxiliaryWritten {
  import opened Text
  import opened YamlPaths
  import opened Auxiliary
  import opened AuxiliaryLines
  import opened AuxiliaryTexts
  import opened AuxiliaryReads

  // ---------------------------------------------------------------- the line that is written

  function BeforeSpot(lines: seq<string>, s: Spot, task: string): seq<string>
    requires SpotFits(s, |lines|)
  {
    match s
    case Fresh(at) => lines[..at] + [TaskLine(task)]
    case Over(row, _) => lines[..row]
    case Under(row, _) => lines[..row]
  }

  function AfterSpot(lines: seq<string>, s: Spot): seq<string>
    requires SpotFits(s, |lines|)
  {
    match s
    case Fresh(at) => lines[at..]
    case Over(row, _) => lines[row + 1..]
    case Under(row, _) => lines[row..]
  }

  function RunAt(s: Spot): string {
    if s.Fresh? then "    " else s.indent
  }

  lemma PutIsLine(lines: seq<string>, s: Spot, task: string, field: string, value: string)
    requires SpotFits(s, |lines|)
    ensures PutAt(lines, s, task, field, value) ==
              BeforeSpot(lines, s, task) + [FieldLine(RunAt(s), field, value)] + AfterSpot(lines, s)
  {
    hide TaskLine, FieldLine;
  }

  // ---------------------------------------------------------------- values that span lines

  function Flatten(parts: seq<string>): seq<string> {
    if parts == [] then [] else SplitLines(parts[0]) + Flatten(parts[1..])
  }

  lemma {:induction false} SplitIsFlatten(parts: seq<string>)
    requires parts != []
    ensures SplitLines(Join(parts, "\n")) == Flatten(parts)
  {
    hide SplitLines;
    if |parts| == 1 {
      assert Flatten(parts[1..]) == [];
    } else {
      SplitIsFlatten(parts[1..]);
      SplitConcat(parts[0], Join(parts[1..], "\n"));
    }
  }

  lemma {:induction false} FlattenAround(a: seq<string>, x: string, c: seq<string>)
    requires (forall l :: l in a ==> '\n' !in l) && (forall l :: l in c ==> '\n' !in l)
    ensures Flatten(a + [x] + c) == a + SplitLines(x) + c
    decreases |a|
  {
    hide SplitLines;
    if a == [] {
      FlattenPlain(c);
      assert a + [x] + c == [x] + c && ([x] + c)[1..] == c;
    } else {
      SplitOfPlain(a[0]);
      assert (a + [x] + c)[1..] == a[1..] + [x] + c;
      FlattenAround(a[1..], x, c);
      assert a + SplitLines(x) + c == [a[0]] + (a[1..] + SplitLines(x) + c);
    }
  }

  lemma {:induction false} FlattenPlain(c: seq<string>)
    requires forall l :: l in c ==> '\n' !in l
    ensures Flatten(c) == c
  {
    hide SplitLines;
    if c != [] {
      SplitOfPlain(c[0]);
      FlattenPlain(c[1..]);
    }
  }

  lemma {:induction false} FirstOfSplit(p: string, s: string)
    requires '\n' !in p
    ensures SplitLines(p + s)[0] == p + SplitLines(s)[0]
  {
    if p == "" {
      assert p + s == s;
    } else {
      assert (p + s)[1..] == p[1..] + s;
      FirstOfSplit(p[1..], s);
    }
  }

  lemma ScalarKeepsLine(s: string)
    requires '\n' !in s
    ensures ParseScalar(s).Some? ==> '\n' !in ParseScalar(s).value
  {
    hide IsSpace, TrimStart, TrimEnd, IndexOf, CommentAt;
    var v := TrimStart(EcmaScript, s);
    TrimStartShape(EcmaScript, s);
    assert '\n' !in v;
    if v != "" {
      TrimKeepsLine(v[1..1 + IndexOf(v[1..], v[0])]);
      TrimKeepsLine(v[..CommentAt(v)]);
    }
  }

  lemma TrimKeepsLine(s: string)
    requires '\n' !in s
    ensures '\n' !in Trim(EcmaScript, s)
  {
    hide IsSpace, TrimStart, TrimEnd;
    var t := TrimStart(EcmaScript, s);
    TrimStartShape(EcmaScript, s);
    TrimEndShape(EcmaScript, t);
  }

  /** The first line of a written field, whatever the value: the field, with some one-line value. */
  lemma FirstLineOfField(run: string, field: string, value: string)
    requires run != "" && IsRun(run) && IsWord(field)
    ensures var f := FactOf(SplitLines(FieldLine(run, field, value))[0]);
            f.Pair? && f.indent == |run| && f.key == field && f.value.Some? && '\n' !in f.value.value
  {
    hide FactOf, ParseScalar, EscapeQuotes, SplitLines, IsWordChar;
    var head, tail := run + (field + (": " + "\"")), EscapeQuotes(value) + "\"";
    WordChars();
    assert '\n' !in head;
    assert FieldLine(run, field, value) == head + tail;
    FirstOfSplit(head, tail);
    var first := SplitLines(tail)[0];
    SplitIsPlain(tail);
    var rest := " " + ("\"" + first);
    assert head + first == run + (field + (":" + rest));
    WordLine(run, field, rest);
    ScalarKeepsLine(rest);
    QuoteIsSomething(first);
  }

  lemma QuoteIsSomething(s: string)
    ensures ParseScalar(" " + ("\"" + s)).Some?
  {
    hide IsSpace, Trim, TrimStart, IndexOf;
    WordChars();
    TrimStartOfPadded(EcmaScript, " ", "\"" + s);
  }

  // ---------------------------------------------------------------- reading it back

  /** A value was read, or two frames are open, both less indented than `n`. */
  predicate IsTaskPlace(p: Place, n: nat) {
    p.Found? || (|p.stack| == 2 && p.stack[0] == 0 && p.stack[1] < n)
  }

  /** The values the writer and the reader agree on. */
  predicate Survives(value: string) {
    '\n' !in value && '"' !in value && Tight(EcmaScript, value)
  }

  /**
   * A written line reached with its task's frame open is read back as it was written exactly when the value survives.
   */
  lemma ReadAtLine(before: seq<string>, run: string, after: seq<string>, task: string, field: string, value: string)
    requires IsTaskPlace(Walk([], before, PathOf(task, field)), |run|) && run != "" && IsRun(run) && IsWord(field)
    requires Walk([], before, PathOf(task, field)).Open?
    ensures var p := Walk([], before + SplitLines(FieldLine(run, field, value)) + after, PathOf(task, field));
            p.Found? && (p.value == Some(value) <==> Survives(value)) &&
            ('\n' !in value ==> p.value == Some(ReadBack(value)))
  {
    hide FactOf, SplitLines, FieldLine, IsWord, IsRun, Walk, PathOf, ReadBack, Tight;
    var split := SplitLines(FieldLine(run, field, value));
    FirstLineOfField(run, field, value);
    var f := FactOf(split[0]);
    WalkFindsField(before, split[0], split[1..] + after, task, field, |run|, f.value);
    assert before + split + after == before + [split[0]] + (split[1..] + after);
    if '\n' !in value {
      FieldLineFacts(run, field, value);
      FieldIsPlain(run, field, value);
      SplitOfPlain(FieldLine(run, field, value));
      ReadBackIff(value);
    }
  }

  lemma FieldIsPlain(run: string, field: string, value: string)
    requires IsRun(run) && IsWord(field) && '\n' !in value
    ensures '\n' !in FieldLine(run, field, value)
  {
    WrittenIsPlain(field, field, run, value);
  }

  lemma ChangedText(content: string, task: string, field: string, value: string)
    requires FindAuxHeader(SplitLines(content)) < |SplitLines(content)| && IsWord(task)
    ensures var lines := SplitLines(content);
            var s := SpotOf(lines, task, field);
            SplitLines(SetField(content, task, field, value)) ==
              BeforeSpot(lines, s, task) + SplitLines(FieldLine(RunAt(s), field, value)) + AfterSpot(lines, s)
  {
    hide IsAuxHeader, FindAuxHeader, SplitLines, TaskLine, FieldLine, Join, SpotOf, IsWord, PutAt, Flatten;
    var lines := SplitLines(content);
    var s := SpotOf(lines, task, field);
    var before, after := BeforeSpot(lines, s, task), AfterSpot(lines, s);
    SplitIsPlain(content);
    PutIsLine(lines, s, task, field, value);
    assert '\n' !in TaskLine(task) by { TaskLineFacts(task); }
    PlainParts(lines, s, task);
    SplitIsFlatten(before + [FieldLine(RunAt(s), field, value)] + after);
    FlattenAround(before, FieldLine(RunAt(s), field, value), after);
  }

  lemma PlainParts(lines: seq<string>, s: Spot, task: string)
    requires SpotFits(s, |lines|) && (forall l :: l in lines ==> '\n' !in l) && '\n' !in TaskLine(task)
    ensures (forall l :: l in BeforeSpot(lines, s, task) ==> '\n' !in l) &&
            forall l :: l in AfterSpot(lines, s) ==> '\n' !in l
  {
    hide TaskLine;
  }

  lemma AppendedText(content: string, task: string, field: string, value: string)
    requires FindAuxHeader(SplitLines(content)) == |SplitLines(content)| && IsWord(task) && IsWord(field)
    ensures SplitLines(SetField(content, task, field, value)) ==
            BaseLines(content) + ["auxiliary:", TaskLine(task)] + SplitLines(FieldLine("    ", field, value)) + [""]
  {
    hide IsAuxHeader, FindAuxHeader, SplitLines, TaskLine, FieldLine, Join, IsWord, Flatten, BaseLines;
    AppendedLines(content, task, field, value);
    BaseIsContent(content);
    TaskLineFacts(task);
    var before, f := BaseLines(content) + ["auxiliary:", TaskLine(task)], FieldLine("    ", field, value);
    assert BaseLines(content) + BlockLines(task, field, value) == before + [f] + [""];
    PlainWord();
    SplitIsFlatten(before + [f] + [""]);
    FlattenAround(before, f, [""]);
  }

  lemma PlainWord()
    ensures '\n' !in "auxiliary:"
  {
  }

  lemma LinesAreBase(content: string)
    ensures SplitLines(content) == BaseLines(content) || SplitLines(content) == BaseLines(content) + [""]
  {
    if content != "" && content[|content| - 1] == '\n' {
      SplitConcat(content[..|content| - 1], "");
      assert content == content[..|content| - 1] + "\n" + "";
    }
  }

  lemma EmptyIsSkipped(stack: seq<nat>, parts: seq<string>)
    ensures Walk(stack, [""], parts) == Open(stack)
  {
    WalkOne(stack, "", parts);
  }
}
