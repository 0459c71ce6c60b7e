/** What the setter's patterns and the reader see in one line. */
module AuxiliaryLines {
  import opened Text
  import opened ConfigScalars
  import opened ConfigBlocks
  import opened YamlPaths
  import opened Auxiliary

  predicate IsWordChar(c: char) {
    'A' <= c <= 'Z' || 'a' <= c <= 'z' || '0' <= c <= '9' || c == '_' || c == '-'
  }

  /** A task or field name: the patterns are built from it literally. */
  predicate IsWord(s: string) {
    s != "" && forall i :: 0 <= i < |s| ==> IsWordChar(s[i])
  }

  lemma WordChars()
    ensures forall c :: IsWordChar(c) ==>
              !IsSpace(EcmaScript, c) && c != '#' && c != ':' && c != '"' && c != '\'' && c != '\n' && c != ' ' &&
              c != '\t'
    ensures IsSpace(EcmaScript, ' ') && IsSpace(EcmaScript, '\t') && !IsSpace(EcmaScript, '"') &&
            !IsSpace(EcmaScript, ':') && !IsSpace(EcmaScript, '#')
  {
  }

  lemma {:induction false} IndentRunIs(run: string, t: string)
    requires IsRun(run) && (t == "" || (t[0] != ' ' && t[0] != '\t'))
    ensures IndentRun(run + t) == |run|
  {
    if run == "" {
      assert run + t == t;
    } else {
      assert (run + t)[1..] == run[1..] + t;
      IndentRunIs(run[1..], t);
    }
  }

  lemma {:induction false} IndentRunPrefix(line: string)
    ensures IsRun(line[..IndentRun(line)]) &&
            (IndentRun(line) < |line| ==> line[IndentRun(line)] != ' ' && line[IndentRun(line)] != '\t')
  {
    if line != "" && (line[0] == ' ' || line[0] == '\t') {
      IndentRunPrefix(line[1..]);
      forall i | 0 <= i < IndentRun(line) ensures line[i] == ' ' || line[i] == '\t' {
        if i > 0 { assert line[i] == line[1..][..IndentRun(line[1..])][i - 1]; }
      }
    }
  }

  lemma RunIsBlank(run: string)
    requires IsRun(run)
    ensures TrimStart(EcmaScript, run) == "" && ParseScalar(run) == None
  {
    hide IsSpace;
    WordChars();
    TrimStartOfPadded(EcmaScript, run, "");
    assert run + "" == run;
  }

  /** A line made of an indent, a word and a colon, read by the reader. */
  lemma WordLine(run: string, word: string, rest: string)
    requires IsRun(run) && IsWord(word)
    ensures FactOf(run + (word + (":" + rest))) == Pair(|run|, word, ParseScalar(rest))
  {
    hide IsSpace, TrimStart, Trim, ParseScalar, IsWordChar;
    WordChars();
    var t := word + (":" + rest);
    TrimStartOfPadded(EcmaScript, run, t);
    assert ':' !in word;
    assert t == word + [':'] + rest;
    IndexOfFirst(word, ':', rest);
    assert t[..|word|] == word && t[|word| + 1..] == rest;
    TrimIsIdentityOnTight(EcmaScript, word);
  }

  lemma AfterNameIs(run: string, name: string, rest: string)
    requires run != "" && IsRun(run) && IsWord(name)
    ensures AfterName(run + (name + (":" + rest)), name) == Some((run, rest))
  {
    hide IsWordChar, IndentRun;
    WordChars();
    var t := name + (":" + rest);
    IndentRunIs(run, t);
    assert (run + t)[|run|..] == t && (run + t)[..|run|] == run;
    assert t == (name + ":") + rest;
    assert (run + t)[|run| + |name| + 1..] == rest;
  }

  lemma AfterNameShape(line: string, name: string)
    requires AfterName(line, name).Some?
    ensures var (run, rest) := AfterName(line, name).value;
            run != "" && IsRun(run) && |run| == IndentRun(line) && line == run + (name + (":" + rest))
  {
    hide IndentRun;
    IndentRunPrefix(line);
    var n := IndentRun(line);
    assert line[n..] == (name + ":") + line[n..][|name| + 1..];
    assert line[n..][|name| + 1..] == line[n + |name| + 1..];
    assert line == line[..n] + line[n..];
  }

  lemma TaskFact(line: string, task: string)
    requires IsWord(task) && TaskIndent(line, task).Some?
    ensures FactOf(line) == Pair(|TaskIndent(line, task).value|, task, None) &&
            |TaskIndent(line, task).value| == IndentRun(line) > 0
  {
    hide FactOf, AfterName, IsWord, ParseScalar;
    AfterNameShape(line, task);
    var (run, rest) := AfterName(line, task).value;
    WordLine(run, task, rest);
    RunIsBlank(rest);
  }

  lemma FieldFact(line: string, field: string)
    requires IsWord(field) && FieldIndent(line, field).Some?
    ensures var f := FactOf(line);
            f.Pair? && f.indent == |FieldIndent(line, field).value| == IndentRun(line) && f.key == field && f.indent > 0
  {
    hide FactOf, AfterName, IsWord, ParseScalar, HasTerminator;
    AfterNameShape(line, field);
    var (run, rest) := AfterName(line, field).value;
    WordLine(run, field, rest);
  }

  lemma HeaderFact(line: string)
    requires IsAuxHeader(line)
    ensures FactOf(line) == Pair(0, "auxiliary", None)
  {
    hide FactOf, ParseScalar;
    var rest := line[|"auxiliary:"|..];
    assert line == "" + ("auxiliary" + (":" + rest));
    WordLine("", "auxiliary", rest);
    RunIsBlank(rest);
  }

  lemma TaskLineFacts(task: string)
    requires IsWord(task)
    ensures TaskIndent(TaskLine(task), task) == Some("  ") && FactOf(TaskLine(task)) == Pair(2, task, None)
    ensures '\n' !in TaskLine(task) && !IsTop(TaskLine(task))
  {
    hide FactOf, AfterName, ParseScalar, IsWordChar;
    var line := TaskLine(task);
    assert line == "  " + (task + (":" + ""));
    AfterNameIs("  ", task, "");
    TaskFact(line, task);
    WordChars();
    IndentedIsNoTop(line);
  }

  lemma IndentedIsNoTop(line: string)
    requires line != "" && (line[0] == ' ' || line[0] == '\t')
    ensures !IsTop(line)
  {
  }

  // ---------------------------------------------------------------- the value written

  /** What the reader makes of a written value: it stops at the first quote, and trims. */
  function ReadBack(value: string): string {
    var e := EscapeQuotes(value);
    Trim(EcmaScript, e[..IndexOf(e, '"')])
  }

  lemma {:induction false} EscapedQuotes(value: string)
    ensures if '"' !in value then EscapeQuotes(value) == value
            else IndexOf(EscapeQuotes(value), '"') < |EscapeQuotes(value)|
  {
    if value != "" {
      EscapedQuotes(value[1..]);
      if value[0] == '"' {
        assert EscapeQuotes(value)[1] == '"';
      } else {
        assert EscapeQuotes(value) == [value[0]] + EscapeQuotes(value[1..]);
        assert EscapeQuotes(value)[1..] == EscapeQuotes(value[1..]);
        assert '"' in value <==> '"' in value[1..];
        assert [value[0]] + value[1..] == value;
      }
    }
  }

  /** A value is read back as it was written if and only if it has no quote and no padding. */
  lemma ReadBackIff(value: string)
    ensures ReadBack(value) == value <==> '"' !in value && Tight(EcmaScript, value)
    ensures '"' !in ReadBack(value)
  {
    hide IsSpace, EscapeQuotes, IndexOf, Tight;
    EscapedQuotes(value);
    var e := EscapeQuotes(value);
    var cut := e[..IndexOf(e, '"')];
    assert forall i :: 0 <= i < |cut| ==> cut[i] == e[i];
    TrimIsPart(cut);
    if '"' !in value {
      assert cut == value;
      TrimIsIdentityOnTight(EcmaScript, value);
    }
  }

  lemma TrimIsPart(s: string)
    requires '"' !in s
    ensures '"' !in Trim(EcmaScript, s)
  {
    hide IsSpace, TrimStart, TrimEnd;
    var t := TrimStart(EcmaScript, s);
    TrimStartShape(EcmaScript, s);
    TrimEndShape(EcmaScript, t);
  }

  lemma QuotedScalar(value: string)
    ensures ParseScalar(" " + ("\"" + (EscapeQuotes(value) + "\""))) == Some(ReadBack(value))
  {
    hide IsSpace, EscapeQuotes, Trim, TrimStart;
    WordChars();
    var e := EscapeQuotes(value);
    var v := "\"" + (e + "\"");
    TrimStartOfPadded(EcmaScript, " ", v);
    assert v[1..] == e + "\"";
    EndsAtQuote(e);
    var n := IndexOf(e, '"');
    assert v[1..1 + n] == e[..n];
  }

  lemma {:induction false} EndsAtQuote(e: string)
    ensures IndexOf(e + "\"", '"') == IndexOf(e, '"')
  {
    if e == "" {
      assert e + "\"" == "\"";
    } else {
      assert (e + "\"")[1..] == e[1..] + "\"";
      EndsAtQuote(e[1..]);
    }
  }

  lemma {:induction false} EscapeKeepsLine(value: string)
    requires !HasTerminator(value)
    ensures !HasTerminator(EscapeQuotes(value))
  {
    if value != "" {
      assert !IsTerminator(value[0]);
      assert !HasTerminator(value[1..]) by {
        forall i | 0 <= i < |value[1..]| ensures !IsTerminator(value[1..][i]) { assert value[i + 1] == value[1..][i]; }
      }
      EscapeKeepsLine(value[1..]);
      var e, rest := EscapeQuotes(value), EscapeQuotes(value[1..]);
      var head := if value[0] == '"' then "\\\"" else [value[0]];
      assert e == head + rest;
      forall i | 0 <= i < |e| ensures !IsTerminator(e[i]) {
        if i >= |head| { assert e[i] == rest[i - |head|]; }
      }
    }
  }

  /** The field line that is written. */
  lemma FieldLineFacts(run: string, field: string, value: string)
    requires run != "" && IsRun(run) && IsWord(field)
    ensures FactOf(FieldLine(run, field, value)) == Pair(|run|, field, Some(ReadBack(value)))
    ensures !IsTop(FieldLine(run, field, value)) && IndentRun(FieldLine(run, field, value)) == |run| &&
            Trim(EcmaScript, FieldLine(run, field, value)) != ""
    ensures !HasTerminator(value) ==> FieldIndent(FieldLine(run, field, value), field) == Some(run)
    ensures forall task :: IsWord(task) ==> TaskIndent(FieldLine(run, field, value), task).None?
  {
    hide FactOf, ParseScalar, AfterName, IsWordChar, EscapeQuotes, HasTerminator, Trim, IndentRun, IsTop;
    var rest := " " + ("\"" + (EscapeQuotes(value) + "\""));
    var line := FieldLine(run, field, value);
    assert line == run + (field + (":" + rest));
    WordLine(run, field, rest);
    QuotedScalar(value);
    AfterNameIs(run, field, rest);
    AfterNameShape(line, field);
    IndentedIsNoTop(line);
    NotBlank(line);
    if !HasTerminator(value) {
      EscapeKeepsLine(value);
      RestHasNoTerminator(EscapeQuotes(value));
    }
    forall task | IsWord(task) ensures TaskIndent(line, task).None? {
      if TaskIndent(line, task).Some? { TaskFact(line, task); }
    }
  }

  lemma RestHasNoTerminator(e: string)
    requires !HasTerminator(e)
    ensures !HasTerminator(" " + ("\"" + (e + "\"")))
  {
    var r := " " + ("\"" + (e + "\""));
    assert forall i :: 0 <= i < |r| ==> r[i] == ' ' || r[i] == '"' || (2 <= i < 2 + |e| && r[i] == e[i - 2]);
  }

  lemma NotBlank(line: string)
    requires FactOf(line).Pair?
    ensures Trim(EcmaScript, line) != ""
  {
    hide IsSpace, TrimStart, ParseScalar, IndexOf;
    var t := TrimStart(EcmaScript, line);
    TrimStartShape(EcmaScript, line);
    TrimEndShape(EcmaScript, t);
  }

  // ---------------------------------------------------------------- indents, setter and reader

  /** In the block every line that counts for the reader is indented. */
  lemma NotTopIsIndented(line: string)
    requires !IsTop(line)
    ensures FactOf(line).Skip? || FactOf(line).indent > 0
  {
    hide IsSpace, ParseScalar, IndexOf;
    if Trim(EcmaScript, line) == "" {
      BlankIsSkipped(line);
    }
  }

  lemma BlankIsSkipped(line: string)
    requires Trim(EcmaScript, line) == ""
    ensures FactOf(line).Skip?
  {
    hide IsSpace, TrimStart, ParseScalar, IndexOf;
    var t := TrimStart(EcmaScript, line);
    TrimStartShape(EcmaScript, line);
    TrimEndShape(EcmaScript, t);
  }

  lemma {:induction false} IndentIsAtLeastRun(line: string)
    ensures |TrimStart(EcmaScript, line)| <= |line| - IndentRun(line)
  {
    hide IsSpace;
    WordChars();
    if line != "" && (line[0] == ' ' || line[0] == '\t') {
      IndentIsAtLeastRun(line[1..]);
    }
  }

  /** A body line is no shallower for the reader than for the setter. */
  lemma BodyIsDeep(line: string, taskIndent: string)
    requires IsBody(line, taskIndent)
    ensures FactOf(line).Skip? || FactOf(line).indent > |taskIndent|
  {
    hide ParseScalar, IndexOf, TrimStart, IndentRun;
    if Trim(EcmaScript, line) == "" {
      BlankIsSkipped(line);
    } else {
      IndentIsAtLeastRun(line);
    }
  }
}
