/** Lines and text: cutting at line feeds, the header of the block, and the lines the editor writes. */
module ProvidersLines {
  import opened Text
  import opened Quoting
  import opened ConfigScalars
  import opened ConfigBlocks
  import opened Providers

  predicate IsLine(l: string) {
    l != "" && l[|l| - 1] == '\n' && '\n' !in l[..|l| - 1]
  }

  ghost predicate AreLines(lines: seq<string>) {
    forall l :: l in lines ==> IsLine(l)
  }

  /** A line that may lack its line feed. */
  predicate IsRow(l: string) {
    l != "" && '\n' !in l[..|l| - 1]
  }

  /** The lines of a text: only the last one may lack its line feed. */
  ghost predicate AreRows(lines: seq<string>) {
    forall i :: 0 <= i < |lines| ==> IsRow(lines[i]) && (i + 1 < |lines| ==> IsLine(lines[i]))
  }

  lemma LinesAreRows(lines: seq<string>)
    requires AreLines(lines)
    ensures AreRows(lines)
  {
    forall i | 0 <= i < |lines| ensures IsLine(lines[i]) { assert lines[i] in lines; }
  }

  lemma {:induction false} ConcatOfLines(s: string)
    ensures Concat(LinesOf(s)) == s
    decreases |s|
  {
    hide LineLength;
    if s != "" { ConcatOfLines(s[LineLength(s)..]); }
  }

  lemma {:induction false} FirstRow(s: string)
    requires s != ""
    ensures IsRow(s[..LineLength(s)]) && (LineLength(s) < |s| || s[|s| - 1] == '\n' ==> IsLine(s[..LineLength(s)]))
  {
    if s[0] != '\n' && |s| > 1 {
      FirstRow(s[1..]);
      assert s[..LineLength(s)] == [s[0]] + s[1..][..LineLength(s[1..])];
    }
  }

  lemma {:induction false} RowsOfText(s: string)
    ensures AreRows(LinesOf(s)) && (s == "" || s[|s| - 1] == '\n' ==> AreLines(LinesOf(s)))
    decreases |s|
  {
    hide LineLength, IsLine, IsRow;
    if s != "" {
      var rest := s[LineLength(s)..];
      FirstRow(s);
      RowsOfText(rest);
      forall i | 0 < i < |LinesOf(s)| ensures LinesOf(s)[i] == LinesOf(rest)[i - 1] {}
      assert rest == "" ==> LinesOf(rest) == [];
    }
  }

  lemma {:induction false} LinesOfConcat(lines: seq<string>)
    requires AreRows(lines)
    ensures LinesOf(Concat(lines)) == lines
  {
    hide LineLength;
    if lines != [] {
      var l, rest := lines[0], Concat(lines[1..]);
      assert forall i :: 0 <= i < |lines[1..]| ==> lines[1..][i] == lines[i + 1];
      LinesOfConcat(lines[1..]);
      if IsLine(l) {
        var body := l[..|l| - 1];
        assert l + rest == body + "\n" + rest;
        LineLengthOf(body, rest);
      } else {
        assert rest == "" && '\n' !in l;
        OpenLength(l);
        assert l + rest == l;
      }
      assert (l + rest)[..|l|] == l && (l + rest)[|l|..] == rest;
    }
  }

  lemma {:induction false} OpenLength(l: string)
    requires '\n' !in l
    ensures LineLength(l) == |l|
  {
    if l != "" { OpenLength(l[1..]); }
  }

  lemma {:induction false} ConcatSplit(a: seq<string>, b: seq<string>)
    ensures Concat(a + b) == Concat(a) + Concat(b)
  {
    if a == [] {
      assert a + b == b;
    } else {
      assert (a + b)[1..] == a[1..] + b;
      ConcatSplit(a[1..], b);
    }
  }

  // ---------------------------------------------------------------- the header

  /** A text up to and including the header line of the block. */
  predicate IsHead(pre: string) {
    BodyStart(pre) == Some(|pre|) && pre != "" && pre[|pre| - 1] == '\n'
  }

  lemma {:induction false} FirstHeaderBefore(pre: string, body: string, i: nat)
    requires pre != "" && pre[|pre| - 1] == '\n' && i < |pre|
    ensures FirstHeader(pre, PROVIDERS, i).Some? && FirstHeader(pre, PROVIDERS, i).value < |pre| ==>
              FirstHeader(pre + body, PROVIDERS, i) == FirstHeader(pre, PROVIDERS, i)
    ensures FirstHeader(pre + body, PROVIDERS, i).Some? && FirstHeader(pre + body, PROVIDERS, i).value < |pre| ==>
              FirstHeader(pre + body, PROVIDERS, i) == FirstHeader(pre, PROVIDERS, i)
    decreases |pre| - i
  {
    hide HeaderLength;
    assert (pre + body)[i..] == pre[i..] + body;
    assert AtLineStart(pre + body, i) == AtLineStart(pre, i);
    assert pre[i..][|pre[i..]| - 1] == '\n';
    ProvidersHasNoBreak();
    HeaderBefore(pre[i..], body, PROVIDERS);
    if i + 1 < |pre| { FirstHeaderBefore(pre, body, i + 1); }
  }

  lemma ProvidersHasNoBreak()
    ensures PROVIDERS != "" && '\n' !in PROVIDERS
  {
  }

  /** The header of a text lies in its head, and any other body may follow it. */
  lemma HeadStays(pre: string, body: string)
    requires IsHead(pre)
    ensures BodyStart(pre + body) == Some(|pre|)
  {
    hide HeaderLength, FirstHeader;
    var h := FirstHeader(pre, PROVIDERS, 0).value;
    assert h < |pre|;
    FirstHeaderBefore(pre, body, 0);
    assert (pre + body)[h..] == pre[h..] + body;
    ProvidersHasNoBreak();
    assert pre[h..][|pre[h..]| - 1] == '\n';
    HeaderBefore(pre[h..], body, PROVIDERS);
  }

  lemma {:induction false} CommentEndEnds(s: string)
    requires CommentEndLength(s).Some?
    ensures s[CommentEndLength(s).value - 1] == '\n'
  {
    if s[0] != '\n' && s[0] != '\r' { CommentEndEnds(s[1..]); }
  }

  lemma {:induction false} SkipInlineIsSuffix(s: string)
    ensures SkipInline(s) == s[|s| - |SkipInline(s)|..]
    ensures forall i :: 0 <= i < |s| - |SkipInline(s)| ==> IsInlineSpace(s[i])
    ensures SkipInline(s) != "" ==> !IsInlineSpace(SkipInline(s)[0])
  {
    hide IsInlineSpace;
    if s != "" && IsInlineSpace(s[0]) {
      SkipInlineIsSuffix(s[1..]);
      forall i | 0 <= i < |s| - |SkipInline(s)| ensures IsInlineSpace(s[i]) {
        if i > 0 { assert s[i] == s[1..][i - 1]; }
      }
    }
  }

  lemma HeaderEnds(s: string, key: string)
    requires HeaderLength(s, key).Some?
    ensures s[HeaderLength(s, key).value - 1] == '\n'
  {
    hide SkipInline, CommentEndLength;
    var w := s[|key|..];
    var t := SkipInline(w);
    SkipInlineIsSuffix(w);
    var u := SkipInline(t[1..]);
    SkipInlineIsSuffix(t[1..]);
    assert u == s[|s| - |u|..];
    if u[0] == '#' { CommentEndEnds(u); }
    var end := LineEndLength(u).value;
    assert u[end - 1] == '\n';
    assert s[|s| - |u| + end - 1] == u[end - 1];
  }

  /** The text up to the body is a head. */
  lemma HeadOf(content: string)
    requires BodyStart(content).Some?
    ensures IsHead(content[..BodyStart(content).value]) && BodyStart(content).value <= |content|
  {
    hide HeaderLength, FirstHeader;
    var h := FindHeader(content, PROVIDERS).value;
    var n := BodyStart(content).value;
    var pre, body := content[..n], content[n..];
    HeaderEnds(content[h..], PROVIDERS);
    assert pre[n - 1] == content[h..][n - h - 1];
    assert pre + body == content;
    FirstHeaderBefore(pre, body, 0);
    assert content[h..] == pre[h..] + body;
    ProvidersHasNoBreak();
    HeaderBefore(pre[h..], body, PROVIDERS);
    assert h > 0 ==> pre[h - 1] == content[h - 1];
  }

  // ---------------------------------------------------------------- key lines

  predicate IsIndent(s: string) {
    s != "" && forall i :: 0 <= i < |s| ==> s[i] == ' ' || s[i] == '\t'
  }

  predicate IsKey(s: string) {
    s != "" && forall i :: 0 <= i < |s| ==> IsKeyChar(s[i])
  }

  predicate IsGap(s: string) {
    forall i :: 0 <= i < |s| ==> IsInlineSpace(s[i])
  }

  lemma {:induction false} IndentRunOf(s: string, t: string)
    requires (forall i :: 0 <= i < |s| ==> s[i] == ' ' || s[i] == '\t') && t != "" && t[0] != ' ' && t[0] != '\t'
    ensures IndentRun(s + t) == |s|
  {
    if s == "" {
      assert s + t == t;
    } else {
      assert (s + t)[1..] == s[1..] + t;
      IndentRunOf(s[1..], t);
    }
  }

  lemma {:induction false} KeyRunOf(s: string, t: string)
    requires (forall i :: 0 <= i < |s| ==> IsKeyChar(s[i])) && (t == "" || !IsKeyChar(t[0]))
    ensures KeyRun(s + t) == |s|
  {
    hide IsKeyChar;
    if s == "" {
      assert s + t == t;
    } else {
      assert (s + t)[1..] == s[1..] + t;
      KeyRunOf(s[1..], t);
    }
  }

  lemma {:induction false} SkipInlineOf(s: string, t: string)
    requires IsGap(s) && (t == "" || !IsInlineSpace(t[0]))
    ensures SkipInline(s + t) == t
  {
    hide IsInlineSpace;
    if s == "" {
      assert s + t == t;
    } else {
      assert (s + t)[1..] == s[1..] + t;
      SkipInlineOf(s[1..], t);
    }
  }

  lemma {:induction false} RunsAreRuns(t: string)
    ensures forall i :: 0 <= i < IndentRun(t) ==> t[i] == ' ' || t[i] == '\t'
    ensures forall i :: 0 <= i < KeyRun(t) ==> IsKeyChar(t[i])
  {
    hide IsKeyChar;
    if t != "" {
      RunsAreRuns(t[1..]);
      forall i | 0 <= i < IndentRun(t) ensures t[i] == ' ' || t[i] == '\t' {
        if i > 0 { assert t[i] == t[1..][i - 1]; }
      }
      forall i | 0 <= i < KeyRun(t) ensures IsKeyChar(t[i]) {
        if i > 0 { assert t[i] == t[1..][i - 1]; }
      }
    }
  }

  /** The parts of a key line up to the colon. */
  function KeyHead(indent: string, key: string, gap: string): string {
    indent + (key + (gap + ":"))
  }

  lemma CharClasses()
    ensures !IsSpace(EcmaScript, ':') && !IsInlineSpace(':') && !IsKeyChar(':') && !IsKeyChar(' ') && !IsKeyChar('\t')
    ensures IsSpace(EcmaScript, ' ') && IsSpace(EcmaScript, '\t')
    ensures forall c :: IsKeyChar(c) ==> !IsSpace(EcmaScript, c) && c != ' ' && c != '\t' && c != '\n' && c != '\r'
    ensures forall c :: IsInlineSpace(c) ==> IsSpace(EcmaScript, c) && !IsKeyChar(c) && c != '\n'
  {
  }

  lemma HeadSplits(indent: string, key: string, gap: string, rest: string)
    ensures var text := KeyHead(indent, key, gap) + rest;
            text == indent + (key + (gap + (":" + rest))) && text[..|indent|] == indent &&
            text[|indent|..] == key + (gap + (":" + rest)) &&
            text[|indent|..|indent| + |key|] == key && text[|indent| + |key|..] == gap + (":" + rest)
  {
  }

  lemma KindAtColon(text: string, indent: nat, n: nat, gap: string, rest: string)
    requires n > 0 && indent + n <= |text| && text[indent + n..] == gap + (":" + rest) && IsGap(gap) &&
             !HasTerminator(rest)
    ensures var raw := TrimStart(EcmaScript, rest);
            KindAt(text, indent, n) ==
              Key(text[..indent], text[indent..indent + n], |text| - |raw|, TrimEnd(EcmaScript, raw), StripScalar(raw))
  {
    hide IsSpace, IsInlineSpace, TrimStart, TrimEnd, StripScalar, SkipInline, HasTerminator;
    assert !IsInlineSpace(':') by { CharClasses(); }
    SkipInlineOf(gap, ":" + rest);
    assert (":" + rest)[1..] == rest;
  }

  /** Any text of this shape is read as a key. */
  lemma KindOfKey(indent: string, key: string, gap: string, rest: string)
    requires IsIndent(indent) && IsKey(key) && IsGap(gap) && !HasTerminator(rest)
    ensures var text, raw := KeyHead(indent, key, gap) + rest, TrimStart(EcmaScript, rest);
            KindOf(text) == Key(indent, key, |text| - |raw|, TrimEnd(EcmaScript, raw), StripScalar(raw))
  {
    hide IsSpace, IsInlineSpace, IsKeyChar, TrimStart, TrimEnd, StripScalar, IndentRun, KeyRun, HasTerminator, KindAt,
         KeyHead;
    CharClasses();
    var b, c := gap + (":" + rest), key + (gap + (":" + rest));
    var text := KeyHead(indent, key, gap) + rest;
    HeadSplits(indent, key, gap, rest);
    TrimStartOfPadded(EcmaScript, indent, c);
    IndentRunOf(indent, c);
    KeyRunOf(key, b);
    KindAtColon(text, |indent|, |key|, gap, rest);
  }

  lemma KeyUnfolds(text: string)
    requires KindOf(text).Key?
    ensures var n := IndentRun(text);
            var m := KeyRun(text[n..]);
            n > 0 && KindOf(text) == KindAt(text, n, m)
  {
    hide TrimStart, KeyRun, KindAt;
  }

  lemma KeyAtUnfolds(text: string, n: nat, m: nat)
    requires n + m <= |text| && KindAt(text, n, m).Key?
    ensures var u := SkipInline(text[n + m..]);
            m > 0 && u != "" && u[0] == ':' && !HasTerminator(u[1..]) &&
            var raw := TrimStart(EcmaScript, u[1..]);
            KindAt(text, n, m) == Key(text[..n], text[n..n + m], |text| - |raw|, TrimEnd(EcmaScript, raw),
              StripScalar(raw))
  {
    hide TrimStart, TrimEnd, StripScalar, SkipInline, HasTerminator;
  }

  /** And every key line has this shape. */
  lemma PartsOfKey(text: string) returns (gap: string, rest: string)
    requires KindOf(text).Key?
    ensures var k := KindOf(text);
            IsIndent(k.indent) && IsKey(k.key) && IsGap(gap) && !HasTerminator(rest) &&
            text == KeyHead(k.indent, k.key, gap) + rest &&
            k.raw == TrimEnd(EcmaScript, TrimStart(EcmaScript, rest)) && k.at == |text| - |TrimStart(EcmaScript, rest)|
  {
    hide IsSpace, IsInlineSpace, IsKeyChar, TrimStart, TrimEnd, StripScalar, IndentRun, KeyRun, SkipInline,
         HasTerminator, KindOf, KindAt;
    KeyUnfolds(text);
    var k := KindOf(text);
    var n, m := IndentRun(text), KeyRun(text[IndentRun(text)..]);
    KeyAtUnfolds(text, n, m);
    RunsAreRuns(text);
    RunsAreRuns(text[n..]);
    var w := text[n + m..];
    var u := SkipInline(w);
    SkipInlineIsSuffix(w);
    gap, rest := w[..|w| - |u|], u[1..];
    Assembled(text, n, m, |w| - |u|);
  }

  lemma Assembled(text: string, n: nat, m: nat, g: nat)
    requires n + m + g < |text| && text[n + m + g] == ':'
    ensures text == KeyHead(text[..n], text[n..n + m], text[n + m..][..g]) + text[n + m..][g..][1..]
  {
  }

  // ---------------------------------------------------------------- the lines the editor writes

  /** The line with `size` characters from `at` on exchanged for a quoted value. */
  function PatchedLine(line: string, at: nat, size: nat, value: string): string
    requires at + size <= |line|
  {
    line[..at] + Quote(value) + line[at + size..]
  }

  lemma NoTerminatorIn(a: string, b: string)
    ensures HasTerminator(a + b) <==> HasTerminator(a) || HasTerminator(b)
    ensures HasTerminator(b + a) <==> HasTerminator(a) || HasTerminator(b)
  {
    forall i | 0 <= i < |a| ensures (a + b)[i] == a[i] && (b + a)[|b| + i] == a[i] {}
    forall i | 0 <= i < |b| ensures (a + b)[|a| + i] == b[i] && (b + a)[i] == b[i] {}
    assert forall i :: 0 <= i < |a + b| ==> (a + b)[i] == if i < |a| then a[i] else b[i - |a|];
    assert forall i :: 0 <= i < |b + a| ==> (b + a)[i] == if i < |b| then b[i] else a[i - |b|];
  }

  lemma NoBreakIn(s: string)
    requires !HasTerminator(s)
    ensures '\n' !in s && '\r' !in s
  {
    forall i | 0 <= i < |s| ensures s[i] != '\n' && s[i] != '\r' {
      assert !IsTerminator(s[i]);
    }
  }

  /** How a line may end: with a line feed, perhaps after a carriage return, or with the text. */
  predicate IsEnding(eol: string) {
    eol == "\n" || eol == "\r\n" || eol == ""
  }

  lemma RowIsText(line: string) returns (eol: string)
    requires IsRow(line)
    ensures line == Chomp(line) + eol && IsEnding(eol) && '\n' !in Chomp(line) && (IsLine(line) <==> eol != "")
  {
    var n := |line|;
    if line[n - 1] != '\n' {
      eol := "";
      assert line == line[..n - 1] + [line[n - 1]];
    } else if n > 1 && line[n - 2] == '\r' {
      eol := "\r\n";
      assert line == line[..n - 2] + eol;
      assert line[..n - 2] == line[..n - 1][..n - 2];
    } else {
      eol := "\n";
      assert line == line[..n - 1] + eol;
    }
  }

  lemma TextIsRow(text: string, eol: string)
    requires IsEnding(eol) && '\n' !in text && text != "" && text[|text| - 1] != '\r'
    ensures IsRow(text + eol) && Chomp(text + eol) == text && (eol != "" ==> IsLine(text + eol))
  {
    var line := text + eol;
    assert line[..|text|] == text;
    if eol == "\n" {
      assert line[|line| - 2] == text[|text| - 1];
    } else if eol == "\r\n" {
      assert line[..|line| - 1] == text + "\r";
      assert line[|line| - 2] == '\r';
    } else {
      assert line == text;
    }
  }

  lemma KeyHeadIsPlain(indent: string, key: string, gap: string)
    requires IsIndent(indent) && IsKey(key) && IsGap(gap)
    ensures '\n' !in KeyHead(indent, key, gap) && KeyHead(indent, key, gap) != "" &&
            KeyHead(indent, key, gap)[|KeyHead(indent, key, gap)| - 1] == ':'
  {
    hide IsSpace, IsInlineSpace, IsKeyChar;
    CharClasses();
  }

  /** A line with a quoted value, padded or not, is read as that value. */
  lemma QuotedKeyLine(indent: string, key: string, gap: string, pad: string, v: string, tail: string, eol: string)
    requires IsIndent(indent) && IsKey(key) && IsGap(gap) && !HasTerminator(v) && IsEnding(eol)
    requires (forall c :: c in pad ==> IsSpace(EcmaScript, c)) && (forall c :: c in tail ==> IsSpace(EcmaScript, c))
    requires !HasTerminator(pad) && !HasTerminator(tail)
    ensures var line := KeyHead(indent, key, gap) + (pad + (Quote(v) + tail)) + eol;
            IsRow(line) && (eol != "" ==> IsLine(line)) &&
            KindOf(Chomp(line)) == Key(indent, key, |KeyHead(indent, key, gap)| + |pad|, Quote(v), v)
  {
    hide IsSpace, IsInlineSpace, IsKeyChar, TrimStart, TrimEnd, StripScalar, HasTerminator, KindOf, KeyHead, Quote,
         IsLine, IsRow, Chomp;
    var rest, text := pad + (Quote(v) + tail), KeyHead(indent, key, gap) + (pad + (Quote(v) + tail));
    QuoteKeepsOneLine(v);
    NoTerminatorIn(Quote(v), tail);
    NoTerminatorIn(pad, Quote(v) + tail);
    NoBreakIn(rest);
    QuoteShape(v);
    TrimStartOfPadded(EcmaScript, pad, Quote(v) + tail);
    TrimEndOfPadded(EcmaScript, Quote(v), tail);
    StripInvertsQuote(v, "", tail);
    assert "" + Quote(v) + tail == Quote(v) + tail;
    KindOfKey(indent, key, gap, rest);
    KeyHeadIsPlain(indent, key, gap);
    assert text[|text| - 1] == rest[|rest| - 1];
    assert rest != "" && text != "" && rest[|rest| - 1] != '\r';
    TextIsRow(text, eol);
  }

  lemma QuoteShape(v: string)
    ensures |Quote(v)| >= 2 && Quote(v)[0] == '"' && Quote(v)[|Quote(v)| - 1] == '"' && !IsSpace(EcmaScript, '"')
  {
    hide Escape;
  }

  /** Patching the value of a key line: the same key in the same place, with the new value. */
  lemma PatchedLineKind(line: string, v: string)
    requires IsRow(line) && KindOf(Chomp(line)).Key? && !HasTerminator(v)
    ensures var k := KindOf(Chomp(line));
            k.at + |k.raw| <= |line| && IsRow(PatchedLine(line, k.at, |k.raw|, v)) &&
            (IsLine(line) ==> IsLine(PatchedLine(line, k.at, |k.raw|, v))) &&
            KindOf(Chomp(PatchedLine(line, k.at, |k.raw|, v))) == k.(raw := Quote(v), value := v)
  {
    hide IsSpace, IsInlineSpace, IsKeyChar, TrimStart, TrimEnd, HasTerminator, KindOf, KeyHead, Quote, IsLine, IsRow,
         Chomp, StripScalar;
    var k, text := KindOf(Chomp(line)), Chomp(line);
    var eol := RowIsText(line);
    var gap, rest := PartsOfKey(text);
    var raw0 := TrimStart(EcmaScript, rest);
    TrimStartShape(EcmaScript, rest);
    TrimEndShape(EcmaScript, raw0);
    var pad, tail := rest[..|rest| - |raw0|], raw0[|k.raw|..];
    assert rest == pad + (k.raw + tail);
    PartsHaveNoTerminator(pad, k.raw, tail);
    var head := KeyHead(k.indent, k.key, gap);
    SplitPatched(line, head, pad, k.raw, tail, eol, v);
    QuotedKeyLine(k.indent, k.key, gap, pad, v, tail, eol);
  }

  lemma PartsHaveNoTerminator(pad: string, raw: string, tail: string)
    requires !HasTerminator(pad + (raw + tail))
    ensures !HasTerminator(pad) && !HasTerminator(tail)
  {
    hide HasTerminator;
    NoTerminatorIn(pad, raw + tail);
    NoTerminatorIn(raw, tail);
  }

  lemma SplitPatched(line: string, head: string, pad: string, raw: string, tail: string, eol: string, v: string)
    requires line == head + (pad + (raw + tail)) + eol
    ensures |head| + |pad| + |raw| <= |line| &&
            PatchedLine(line, |head| + |pad|, |raw|, v) == head + (pad + (Quote(v) + tail)) + eol
  {
    hide Quote;
    assert line[..|head| + |pad|] == head + pad;
    assert line[|head| + |pad| + |raw|..] == tail + eol;
  }

  lemma FieldLineKind(indent: string, key: string, v: string)
    requires IsIndent(indent) && IsKey(key) && !HasTerminator(v)
    ensures IsLine(FieldLine(indent, key, v))
    ensures exists at :: KindOf(Chomp(FieldLine(indent, key, v))) == Key(indent, key, at, Quote(v), v)
  {
    hide IsSpace, IsInlineSpace, IsKeyChar, KindOf, Quote, IsLine, Chomp;
    assert IsSpace(EcmaScript, ' ') by { CharClasses(); }
    QuotedKeyLine(indent, key, "", " ", v, "", "\n");
    assert FieldLine(indent, key, v) == KeyHead(indent, key, "") + (" " + (Quote(v) + "")) + "\n";
  }

  lemma HeaderLineKind(indent: string, slug: string)
    requires IsIndent(indent) && IsKey(slug)
    ensures var line := indent + (slug + ":") + "\n";
            IsLine(line) && exists at :: KindOf(Chomp(line)) == Key(indent, slug, at, "", "")
  {
    hide IsSpace, IsInlineSpace, IsKeyChar, KindOf, IsLine, Chomp;
    var text := KeyHead(indent, slug, "") + "";
    KindOfKey(indent, slug, "", "");
    KeyHeadIsPlain(indent, slug, "");
    TextIsRow(text, "\n");
    assert indent + (slug + ":") + "\n" == text + "\n";
    EmptyScalar();
  }

  lemma EmptyScalar()
    ensures StripScalar("") == "" && TrimStart(EcmaScript, "") == "" && TrimEnd(EcmaScript, "") == ""
  {
  }
}
