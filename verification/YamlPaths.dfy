/** The small indentation-aware reader that resolves a dotted key path in config.yaml. */
module YamlPaths {
  import opened Text

  /** `stripQuotes` */
  function StripQuotes(s: string): string {
    if |s| >= 2 && (s[0] == '"' || s[0] == '\'') && s[0] == s[|s| - 1] then s[1..|s| - 1] else s
  }

  /** `s.search(/\s+#/)`; the length when there is no comment. */
  function CommentAt(s: string): (i: nat)
    ensures i <= |s|
  {
    if s == "" then 0
    else
      var t := TrimStart(EcmaScript, s);
      if IsSpace(EcmaScript, s[0]) && t != "" && t[0] == '#' then 0 else 1 + CommentAt(s[1..])
  }

  /** `parseScalar` */
  function ParseScalar(s: string): Option<string> {
    var v := TrimStart(EcmaScript, s);
    if v == "" then None
    else if v[0] == '"' || v[0] == '\'' then
      // An unterminated scalar runs to the end of the line.
      Some(Trim(EcmaScript, v[1..1 + IndexOf(v[1..], v[0])]))
    else Some(Trim(EcmaScript, v[..CommentAt(v)]))
  }

  /** What the reader takes from a line: nothing, only its indent, or a key with its value. */
  datatype Fact = Skip | Bare(indent: nat) | Pair(indent: nat, key: string, value: Option<string>)

  function FactOf(line: string): Fact {
    var t := TrimStart(EcmaScript, line);
    if t == "" || t[0] == '#' then Skip
    else
      var indent, colon := |line| - |t|, IndexOf(t, ':');
      if colon == |t| || Trim(EcmaScript, t[..colon]) == "" then Bare(indent)
      else Pair(indent, StripQuotes(Trim(EcmaScript, t[..colon])), ParseScalar(t[colon + 1..]))
  }

  /** Frames that are no parents of a line with this indent go. */
  function Pop(stack: seq<nat>, indent: nat): (r: seq<nat>)
    ensures r <= stack && (r != [] ==> r[|r| - 1] < indent)
  {
    if stack != [] && stack[|stack| - 1] >= indent then Pop(stack[..|stack| - 1], indent) else stack
  }

  /** Where a walk over lines has come to: a value (or its absence) was read, or these frames are open. */
  datatype Place = Found(value: Option<string>) | Open(stack: seq<nat>)

  function Visit(stack: seq<nat>, f: Fact, parts: seq<string>): Place {
    match f
    case Skip => Open(stack)
    case Bare(indent) => Open(Pop(stack, indent))
    case Pair(indent, key, value) =>
      var s := Pop(stack, indent);
      if |s| < |parts| && key == parts[|s|] then
        if |s| == |parts| - 1 then Found(value) else Open(s + [indent])
      else Open(s)
  }

  function Walk(stack: seq<nat>, lines: seq<string>, parts: seq<string>): Place
    decreases |lines|
  {
    if lines == [] then Open(stack)
    else
      var p := Visit(stack, FactOf(lines[0]), parts);
      if p.Found? then p else Walk(p.stack, lines[1..], parts)
  }

  function DropReturn(line: string): string {
    if line != "" && line[|line| - 1] == '\r' then line[..|line| - 1] else line
  }

  /** `content.split(/\r?\n/)` */
  function ReaderLines(lines: seq<string>): seq<string> {
    if |lines| <= 1 then lines else [DropReturn(lines[0])] + ReaderLines(lines[1..])
  }

  /** `getYamlPath`, for a key path already split at its dots. */
  function ReadPath(content: string, parts: seq<string>): Option<string> {
    var p := if parts == [] then Found(None) else Walk([], ReaderLines(SplitLines(content)), parts);
    if p.Found? then p.value else None
  }

  /** `getYamlPath` */
  method GetYamlPath(content: string, parts: seq<string>) returns (value: Option<string>)
    ensures value == ReadPath(content, parts)
  {
    hide FactOf, SplitLines, ReaderLines;
    if |parts| == 0 { return None; }
    var lines := ReaderLines(SplitLines(content));
    var stack: seq<nat> := [];
    for n := 0 to |lines|
      invariant Walk(stack, lines[n..], parts) == Walk([], lines, parts)
    {
      assert lines[n..][1..] == lines[n + 1..];
      var f := FactOf(lines[n]);
      if f.Skip? { continue; }
      ghost var before := stack;
      while |stack| > 0 && stack[|stack| - 1] >= f.indent
        invariant Pop(stack, f.indent) == Pop(before, f.indent)
        decreases |stack|
      {
        stack := stack[..|stack| - 1];
      }
      assert stack == Pop(before, f.indent);
      if f.Bare? { continue; }
      if |stack| < |parts| && f.key == parts[|stack|] {
        if |stack| == |parts| - 1 { return f.value; }
        stack := stack + [f.indent];
      }
    }
    return None;
  }

  // ---------------------------------------------------------------- walking in stages

  lemma {:induction false} WalkConcat(stack: seq<nat>, a: seq<string>, c: seq<string>, parts: seq<string>)
    ensures Walk(stack, a + c, parts) ==
            var p := Walk(stack, a, parts); if p.Found? then p else Walk(p.stack, c, parts)
    decreases |a|
  {
    hide Visit, FactOf;
    if a == [] {
      assert a + c == c;
    } else {
      assert (a + c)[1..] == a[1..] + c;
      var p := Visit(stack, FactOf(a[0]), parts);
      if p.Open? { WalkConcat(p.stack, a[1..], c, parts); }
    }
  }

  lemma WalkOne(stack: seq<nat>, line: string, parts: seq<string>)
    ensures Walk(stack, [line], parts) == Visit(stack, FactOf(line), parts)
  {
    hide Visit, FactOf;
    assert [line][1..] == [];
  }

  // ---------------------------------------------------------------- carriage returns do not matter

  lemma {:induction false} TrimStartBefore(s: string, c: char)
    requires IsSpace(EcmaScript, c)
    ensures TrimStart(EcmaScript, s + [c]) ==
              if TrimStart(EcmaScript, s) == "" then "" else TrimStart(EcmaScript, s) + [c]
  {
    hide IsSpace;
    if s == "" {
      assert s + [c] == [c] && [c][1..] == "";
    } else if IsSpace(EcmaScript, s[0]) {
      assert (s + [c])[1..] == s[1..] + [c];
      TrimStartBefore(s[1..], c);
    }
  }

  lemma TrimBefore(s: string, c: char)
    requires IsSpace(EcmaScript, c)
    ensures Trim(EcmaScript, s + [c]) == Trim(EcmaScript, s)
  {
    hide IsSpace, TrimStart;
    TrimStartBefore(s, c);
    var t := TrimStart(EcmaScript, s);
    assert (t + [c])[..|t|] == t;
  }

  lemma {:induction false} CommentBefore(s: string, c: char)
    requires IsSpace(EcmaScript, c)
    ensures (s + [c])[..CommentAt(s + [c])] == s[..CommentAt(s)] ||
            (s + [c])[..CommentAt(s + [c])] == s[..CommentAt(s)] + [c]
  {
    hide IsSpace, TrimStart;
    if s == "" {
      assert s + [c] == [c] && [c][1..] == "";
    } else {
      assert (s + [c])[1..] == s[1..] + [c];
      TrimStartBefore(s, c);
      CommentBefore(s[1..], c);
      var t := TrimStart(EcmaScript, s);
      if !(IsSpace(EcmaScript, s[0]) && t != "" && t[0] == '#') {
        assert (s + [c])[..CommentAt(s + [c])] == [s[0]] + (s[1..] + [c])[..CommentAt(s[1..] + [c])];
        assert s[..CommentAt(s)] == [s[0]] + s[1..][..CommentAt(s[1..])];
      }
    }
  }

  lemma {:induction false} IndexBefore(s: string, q: char, c: char)
    requires q != c
    ensures IndexOf(s + [c], q) == if IndexOf(s, q) < |s| then IndexOf(s, q) else |s| + 1
  {
    if s == "" {
      assert s + [c] == [c] && [c][1..] == "";
    } else {
      assert (s + [c])[1..] == s[1..] + [c];
      IndexBefore(s[1..], q, c);
    }
  }

  lemma ReturnIsSpace()
    ensures IsSpace(EcmaScript, '\r')
  {
  }

  lemma ScalarIgnoresReturn(s: string)
    ensures ParseScalar(s + "\r") == ParseScalar(s)
  {
    hide IsSpace, TrimStart, Trim, CommentAt, IndexOf;
    ReturnIsSpace();
    TrimStartBefore(s, '\r');
    var v := TrimStart(EcmaScript, s);
    if v != "" {
      var w := v + "\r";
      if v[0] == '"' || v[0] == '\'' {
        assert w[1..] == v[1..] + "\r";
        IndexBefore(v[1..], v[0], '\r');
        var n := IndexOf(v[1..], v[0]);
        if n < |v[1..]| {
          assert w[1..1 + n] == v[1..1 + n];
        } else {
          assert w[1..|w|] == v[1..] + "\r" && v[1..1 + n] == v[1..];
          TrimBefore(v[1..], '\r');
        }
      } else {
        CommentBefore(v, '\r');
        TrimBefore(v[..CommentAt(v)], '\r');
      }
    }
  }

  lemma FactIgnoresReturn(line: string)
    ensures FactOf(line + "\r") == FactOf(line)
  {
    hide IsSpace, TrimStart, Trim, ParseScalar, IndexOf;
    ReturnIsSpace();
    TrimStartBefore(line, '\r');
    var t := TrimStart(EcmaScript, line);
    if t != "" {
      IndexBefore(t, ':', '\r');
      var n := IndexOf(t, ':');
      if n < |t| {
        assert (t + "\r")[..n] == t[..n] && (t + "\r")[n + 1..] == t[n + 1..] + "\r";
        ScalarIgnoresReturn(t[n + 1..]);
      }
    }
  }

  /** So it makes no difference whether lines end with a carriage return. */
  lemma {:induction false} WalkIgnoresReturns(stack: seq<nat>, lines: seq<string>, parts: seq<string>)
    ensures Walk(stack, ReaderLines(lines), parts) == Walk(stack, lines, parts)
    decreases |lines|
  {
    hide Visit, FactOf;
    if |lines| > 1 {
      var d := DropReturn(lines[0]);
      assert FactOf(d) == FactOf(lines[0]) by {
        if d != lines[0] { assert lines[0] == d + "\r"; FactIgnoresReturn(d); }
      }
      assert ReaderLines(lines)[1..] == ReaderLines(lines[1..]);
      var p := Visit(stack, FactOf(d), parts);
      if p.Open? { WalkIgnoresReturns(p.stack, lines[1..], parts); }
    }
  }

  lemma ReadIsWalk(content: string, parts: seq<string>)
    requires parts != []
    ensures ReadPath(content, parts) == var p := Walk([], SplitLines(content), parts);
            if p.Found? then p.value else None
  {
    WalkIgnoresReturns([], SplitLines(content), parts);
  }
}
