/**
 * The reader on documents as trees: which line a key path leads to, and when that is the line the path names. Frames
 * are kept for matched keys only, so a key further down, below a key that is not on the path, is found as well.
 */
module YamlPathsWritten {
  import opened Text
  import opened YamlPaths

  /** A key as it is spelled. */
  datatype Name = Unquoted(text: string) | Quoted(quote: char, text: string)

  /** A line and the lines below it: a key with the text behind its colon, or a line that is no key. */
  datatype Node = Key(name: Name, gap: string, raw: string, below: seq<Node>) | Other(text: string, below: seq<Node>)

  // ---------------------------------------------------------------- what may be written

  predicate IsSpaces(s: string) {
    forall i :: 0 <= i < |s| ==> IsSpace(EcmaScript, s[i])
  }

  predicate IsQuote(c: char) {
    c == '"' || c == '\''
  }

  predicate IsName(name: Name) {
    ':' !in name.text &&
    match name
    case Unquoted(text) =>
      text != "" && Tight(EcmaScript, text) && text[0] != '#' &&
      !(|text| >= 2 && IsQuote(text[0]) && text[|text| - 1] == text[0])
    case Quoted(quote, _) => IsQuote(quote)
  }

  predicate IsWritten(nodes: seq<Node>) {
    forall i :: 0 <= i < |nodes| ==>
      match nodes[i]
      case Key(name, gap, _, below) => IsName(name) && IsSpaces(gap) && ':' !in gap && IsWritten(below)
      case Other(text, below) =>
        text != "" && !IsSpace(EcmaScript, text[0]) && text[0] != '#' && ':' !in text && IsWritten(below)
  }

  // ---------------------------------------------------------------- how it is written

  function Spelled(name: Name): string {
    match name
    case Unquoted(text) => text
    case Quoted(quote, text) => [quote] + text + [quote]
  }

  function LineOf(node: Node, n: nat): string {
    match node
    case Key(name, gap, raw, _) => Spaces(n) + (Spelled(name) + (gap + (":" + raw)))
    case Other(text, _) => Spaces(n) + text
  }

  /** Lower levels stand `step` columns deeper. */
  function Print(nodes: seq<Node>, n: nat, step: nat): seq<string> {
    if nodes == [] then []
    else [LineOf(nodes[0], n)] + Print(nodes[0].below, n + step, step) + Print(nodes[1..], n, step)
  }

  // ---------------------------------------------------------------- what is found

  datatype Outcome = Hit(value: Option<string>) | Miss

  /** In the order of the lines: below a key of the path for the rest of it, below any other line for all of it. */
  function Find(nodes: seq<Node>, parts: seq<string>): Outcome
    requires parts != []
  {
    if nodes == [] then Miss
    else
      var first :=
        if nodes[0].Key? && nodes[0].name.text == parts[0] then
          if |parts| == 1 then Hit(ParseScalar(nodes[0].raw)) else Find(nodes[0].below, parts[1..])
        else Find(nodes[0].below, parts);
      if first.Hit? then first else Find(nodes[1..], parts)
  }

  // ---------------------------------------------------------------- what the reader takes from a line

  lemma NoSpaceMarks()
    ensures !IsSpace(EcmaScript, ':') && !IsSpace(EcmaScript, '"') && !IsSpace(EcmaScript, '\'')
    ensures IsSpace(EcmaScript, ' ')
  {
  }

  lemma SpelledShape(name: Name)
    requires IsName(name)
    ensures var s := Spelled(name);
            s != "" && Tight(EcmaScript, s) && s[0] != '#' && ':' !in s && StripQuotes(s) == name.text
  {
    hide IsSpace;
    NoSpaceMarks();
  }

  lemma TrimOfGap(s: string, gap: string)
    requires s != "" && Tight(EcmaScript, s) && IsSpaces(gap)
    ensures Trim(EcmaScript, s + gap) == s
  {
    hide IsSpace;
    TrimStartOfUnpadded(EcmaScript, s + gap);
    TrimEndOfPadded(EcmaScript, s, gap);
  }

  lemma KeyFact(name: Name, gap: string, raw: string, n: nat)
    requires IsName(name) && IsSpaces(gap) && ':' !in gap
    ensures FactOf(Spaces(n) + (Spelled(name) + (gap + (":" + raw)))) == Pair(n, name.text, ParseScalar(raw))
  {
    hide IsSpace, TrimStart, TrimEnd, Trim, ParseScalar, Spelled, StripQuotes;
    NoSpaceMarks();
    SpelledShape(name);
    var s := Spelled(name);
    var body := s + (gap + (":" + raw));
    TrimStartOfPadded(EcmaScript, Spaces(n), body);
    assert body == (s + gap) + [':'] + raw;
    IndexOfFirst(s + gap, ':', raw);
    assert body[..|s + gap|] == s + gap && body[|s + gap| + 1..] == raw;
    TrimOfGap(s, gap);
  }

  lemma OtherFact(text: string, n: nat)
    requires text != "" && !IsSpace(EcmaScript, text[0]) && text[0] != '#' && ':' !in text
    ensures FactOf(Spaces(n) + text) == Bare(n)
  {
    hide IsSpace, TrimStart, Trim, ParseScalar;
    NoSpaceMarks();
    TrimStartOfPadded(EcmaScript, Spaces(n), text);
    assert IndexOf(text, ':') == |text|;
  }

  // ---------------------------------------------------------------- the walk

  /** Frames of the path so far, then frames of keys already left. */
  predicate Holds(stack: seq<nat>, k: nat, n: nat) {
    k <= |stack| && (forall i :: 0 <= i < k ==> stack[i] < n) && forall i :: k <= i < |stack| ==> stack[i] >= n
  }

  lemma {:induction false} PopHeld(stack: seq<nat>, k: nat, n: nat)
    requires Holds(stack, k, n)
    ensures Pop(stack, n) == stack[..k]
    decreases |stack|
  {
    if |stack| > k { PopHeld(stack[..|stack| - 1], k, n); }
    assert |stack| == k ==> stack[..k] == stack;
  }

  /** What a walk over a tree comes to. */
  ghost predicate Agrees(p: Place, stack: seq<nat>, k: nat, n: nat, found: Outcome) {
    match found
    case Hit(value) => p == Found(value)
    case Miss => p.Open? && Holds(p.stack, k, n) && k <= |stack| && p.stack[..k] == stack[..k]
  }

  lemma {:induction false} WalkTree(stack: seq<nat>, k: nat, nodes: seq<Node>, n: nat, step: nat, parts: seq<string>)
    requires IsWritten(nodes) && step >= 1 && Holds(stack, k, n) && k < |parts|
    ensures Agrees(Walk(stack, Print(nodes, n, step), parts), stack, k, n, Find(nodes, parts[k..]))
    decreases nodes
  {
    hide FactOf, IsName, IsSpaces, ParseScalar, Spelled, Pop;
    if nodes == [] {
    } else {
      var node, line := nodes[0], LineOf(nodes[0], n);
      var rest, lower := Print(nodes[1..], n, step), Print(node.below, n + step, step);
      PopHeld(stack, k, n);
      if node.Key? { KeyFact(node.name, node.gap, node.raw, n); } else { OtherFact(node.text, n); }
      WalkConcat(stack, [line] + lower, rest, parts);
      WalkConcat(stack, [line], lower, parts);
      WalkOne(stack, line, parts);
      var base := stack[..k];
      if node.Key? && node.name.text == parts[k..][0] {
        assert parts[k] == parts[k..][0];
        if k == |parts| - 1 {
          assert parts[k..] == [parts[k]];
        } else {
          assert parts[k + 1..] == parts[k..][1..];
          WalkTree(base + [n], k + 1, node.below, n + step, step, parts);
          WalkRest(Walk(base + [n], lower, parts), stack, base + [n], k, k + 1, nodes, n, step, parts,
            Find(node.below, parts[k + 1..]));
        }
      } else {
        assert base[..k] == base;
        WalkTree(base, k, node.below, n + step, step, parts);
        WalkRest(Walk(base, lower, parts), stack, base, k, k, nodes, n, step, parts, Find(node.below, parts[k..]));
      }
    }
  }

  /** After the lines below a node, the nodes behind it. */
  lemma {:induction false} WalkRest(p: Place, stack: seq<nat>, inner: seq<nat>, k: nat, j: nat, nodes: seq<Node>,
                                    n: nat, step: nat, parts: seq<string>, found: Outcome)
    requires nodes != [] && IsWritten(nodes) && step >= 1 && k < |parts| && Holds(stack, k, n)
    requires (j == k && inner == stack[..k]) || (j == k + 1 && inner == stack[..k] + [n])
    requires Agrees(p, inner, j, n + step, found)
    ensures p.Open? <==> found.Miss?
    ensures found.Miss? ==> Holds(p.stack, k, n) && p.stack[..k] == stack[..k]
    ensures found.Miss? ==>
              Agrees(Walk(p.stack, Print(nodes[1..], n, step), parts), stack, k, n, Find(nodes[1..], parts[k..]))
    decreases nodes, 0
  {
    hide Walk, Print, Find;
    if found.Miss? {
      assert p.stack[..k] == p.stack[..j][..k] == inner[..k] == stack[..k];
      forall i | 0 <= i < |p.stack| ensures if i < k then p.stack[i] < n else p.stack[i] >= n {
        if i < j { assert p.stack[..j][i] == inner[i]; }
      }
      assert IsWritten(nodes[1..]);
      WalkTree(p.stack, k, nodes[1..], n, step, parts);
    }
  }

  // ---------------------------------------------------------------- whole files

  /** A blank line or a comment line. */
  predicate IsSilent(line: string) {
    var t := TrimStart(EcmaScript, line);
    t == "" || t[0] == '#'
  }

  function Spoken(lines: seq<string>): seq<string> {
    if lines == [] then [] else (if IsSilent(lines[0]) then [] else [lines[0]]) + Spoken(lines[1..])
  }

  lemma {:induction false} WalkSpoken(stack: seq<nat>, lines: seq<string>, parts: seq<string>)
    ensures Walk(stack, lines, parts) == Walk(stack, Spoken(lines), parts)
    decreases |lines|
  {
    hide IsSilent, Visit;
    if lines != [] {
      var p := Visit(stack, FactOf(lines[0]), parts);
      if p.Open? { WalkSpoken(p.stack, lines[1..], parts); }
      if IsSilent(lines[0]) {
        SilentIsSkipped(stack, lines[0], parts);
        assert [] + Spoken(lines[1..]) == Spoken(lines[1..]);
      } else {
        assert ([lines[0]] + Spoken(lines[1..]))[1..] == Spoken(lines[1..]);
      }
    }
  }

  lemma SilentIsSkipped(stack: seq<nat>, line: string, parts: seq<string>)
    requires IsSilent(line)
    ensures Visit(stack, FactOf(line), parts) == Open(stack)
  {
  }

  function ValueOf(found: Outcome): Option<string> {
    if found.Hit? then found.value else None
  }

  /** The reader walks the tree of the file; blank lines and comments make no difference. */
  lemma ReadsTree(content: string, nodes: seq<Node>, n: nat, step: nat, parts: seq<string>)
    requires IsWritten(nodes) && step >= 1 && parts != [] && Spoken(SplitLines(content)) == Print(nodes, n, step)
    ensures ReadPath(content, parts) == ValueOf(Find(nodes, parts))
  {
    hide Walk, Print, Find, SplitLines, Spoken, IsWritten;
    ReadIsWalk(content, parts);
    WalkSpoken([], SplitLines(content), parts);
    assert parts[0..] == parts;
    WalkTree([], 0, nodes, n, step, parts);
  }

  // ---------------------------------------------------------------- when it is the line the path names

  predicate IsNamed(node: Node, name: string) {
    node.Key? && node.name.text == name
  }

  /** What the path names: at each level the key of that name, and nothing but its own level below it. */
  function Look(nodes: seq<Node>, parts: seq<string>): Outcome
    requires parts != []
  {
    if nodes == [] then Miss
    else if !IsNamed(nodes[0], parts[0]) then Look(nodes[1..], parts)
    else if |parts| == 1 then Hit(ParseScalar(nodes[0].raw))
    else Look(nodes[0].below, parts[1..])
  }

  /** No line below these has the name. */
  predicate IsAbsent(nodes: seq<Node>, name: string) {
    forall i :: 0 <= i < |nodes| ==> !IsNamed(nodes[i], name) && IsAbsent(nodes[i].below, name)
  }

  /** The keys of the path stand once, and at their own levels only. */
  predicate IsClear(nodes: seq<Node>, parts: seq<string>)
    requires parts != []
  {
    (forall i, j :: 0 <= i < j < |nodes| && IsNamed(nodes[i], parts[0]) ==> !IsNamed(nodes[j], parts[0])) &&
    forall i :: 0 <= i < |nodes| ==>
      if IsNamed(nodes[i], parts[0]) then |parts| > 1 ==> IsClear(nodes[i].below, parts[1..])
      else IsAbsent(nodes[i].below, parts[0])
  }

  lemma {:induction false} AbsentIsMissed(nodes: seq<Node>, parts: seq<string>)
    requires parts != [] && IsAbsent(nodes, parts[0])
    ensures Find(nodes, parts) == Miss
    decreases nodes
  {
    hide ParseScalar;
    if nodes != [] {
      assert !IsNamed(nodes[0], parts[0]) && IsAbsent(nodes[0].below, parts[0]);
      AbsentIsMissed(nodes[0].below, parts);
      AbsentIsMissed(nodes[1..], parts);
    }
  }

  lemma {:induction false} FindLooks(nodes: seq<Node>, parts: seq<string>)
    requires parts != [] && IsClear(nodes, parts)
    ensures Find(nodes, parts) == Look(nodes, parts)
    decreases nodes
  {
    hide ParseScalar;
    if nodes != [] {
      assert IsNamed(nodes[0], parts[0]) <==> nodes[0].Key? && nodes[0].name.text == parts[0];
      if IsNamed(nodes[0], parts[0]) {
        forall i | 0 <= i < |nodes[1..]|
          ensures !IsNamed(nodes[1..][i], parts[0]) && IsAbsent(nodes[1..][i].below, parts[0])
        {
          assert nodes[1..][i] == nodes[i + 1] && !IsNamed(nodes[i + 1], parts[0]);
        }
        AbsentIsMissed(nodes[1..], parts);
        if |parts| > 1 { FindLooks(nodes[0].below, parts[1..]); }
      } else {
        AbsentIsMissed(nodes[0].below, parts);
        forall i | 0 <= i < |nodes[1..]|
          ensures if IsNamed(nodes[1..][i], parts[0]) then |parts| > 1 ==> IsClear(nodes[1..][i].below, parts[1..])
                  else IsAbsent(nodes[1..][i].below, parts[0])
        {
          assert nodes[1..][i] == nodes[i + 1];
        }
        FindLooks(nodes[1..], parts);
      }
    }
  }

  /** A path is resolved as it says in every file in which the names of the path stand at their own levels only. */
  lemma ReadsWhatIsNamed(content: string, nodes: seq<Node>, n: nat, step: nat, parts: seq<string>)
    requires IsWritten(nodes) && step >= 1 && parts != [] && Spoken(SplitLines(content)) == Print(nodes, n, step)
    requires IsClear(nodes, parts)
    ensures ReadPath(content, parts) == ValueOf(Look(nodes, parts))
  {
    hide Find, Look, SplitLines, Spoken, Print, IsWritten, IsClear;
    ReadsTree(content, nodes, n, step, parts);
    FindLooks(nodes, parts);
  }

  /** Elsewhere it is not: the value of `b` below `x` is read for `a.b`, which the file does not hold. */
  lemma DeeperNamesakeIsRead(content: string, a: Name, x: Name, b: Name, raw: string)
    requires IsName(a) && IsName(x) && IsName(b) && x.text != b.text
    requires var inner := Key(x, "", "", [Key(b, "", raw, [])]);
             Spoken(SplitLines(content)) == Print([Key(a, "", "", [inner])], 0, 2)
    ensures var file := [Key(a, "", "", [Key(x, "", "", [Key(b, "", raw, [])])])];
            ReadPath(content, [a.text, b.text]) == ParseScalar(raw) && Look(file, [a.text, b.text]) == Miss
  {
    hide ParseScalar, IsName, Print, Spoken, SplitLines;
    var leaf := Key(b, "", raw, []);
    var inner := Key(x, "", "", [leaf]);
    var file := [Key(a, "", "", [inner])];
    assert IsWritten(leaf.below) && IsWritten([leaf]) && IsWritten([inner]) by {
      assert IsWritten([]);
      assert inner.below == [leaf];
    }
    assert IsWritten(file) by { assert file[0].below == [inner]; }
    var parts := [a.text, b.text];
    assert parts[1..] == [b.text];
    assert Find([leaf], [b.text]) == Hit(ParseScalar(raw));
    assert Find([inner], [b.text]) == Hit(ParseScalar(raw));
    assert Find(file, parts) == Hit(ParseScalar(raw));
    assert [inner][1..] == [] && Look([inner], [b.text]) == Look([], [b.text]);
    ReadsTree(content, file, 0, 2, parts);
  }

  // ---------------------------------------------------------------- the three ways to write a value

  /** Between quotes the text up to the next such quote counts, without its padding, whatever follows. */
  lemma QuotedIsRead(pad: string, quote: char, text: string, tail: string)
    requires IsSpaces(pad) && IsQuote(quote) && quote !in text
    ensures ParseScalar(pad + ([quote] + (text + ([quote] + tail)))) == Some(Trim(EcmaScript, text))
  {
    hide IsSpace, TrimStart, Trim;
    NoSpaceMarks();
    var v := [quote] + (text + ([quote] + tail));
    TrimStartOfPadded(EcmaScript, pad, v);
    assert v[1..] == text + [quote] + tail;
    IndexOfFirst(text, quote, tail);
    assert v[1..1 + |text|] == text;
  }

  /** White space and a comment, or nothing. */
  predicate IsRemark(s: string) {
    s == "" || (IsSpace(EcmaScript, s[0]) && TrimStart(EcmaScript, s) != "" && TrimStart(EcmaScript, s)[0] == '#') ||
    IsSpaces(s)
  }

  predicate HasNoRemark(v: string) {
    forall i :: 0 <= i < |v| - 1 ==> !(IsSpace(EcmaScript, v[i]) && v[i + 1] == '#')
  }

  lemma {:induction false} NoHashAhead(w: string, more: string)
    requires w != "" && IsSpace(EcmaScript, w[0]) && !IsSpace(EcmaScript, w[|w| - 1]) && HasNoRemark(w)
    ensures var t := TrimStart(EcmaScript, w + more); t != "" && t[0] != '#'
  {
    hide IsSpace;
    assert (w + more)[1..] == w[1..] + more;
    assert w[1..][|w| - 2] == w[|w| - 1];
    if IsSpace(EcmaScript, w[1]) {
      assert HasNoRemark(w[1..]);
      NoHashAhead(w[1..], more);
    } else {
      TrimStartOfUnpadded(EcmaScript, w[1..] + more);
    }
  }

  /** The comment is found behind the text: at once, or there is none and only padding is left. */
  lemma {:induction false} CommentBehind(w: string, more: string)
    requires (w == "" || !IsSpace(EcmaScript, w[|w| - 1])) && HasNoRemark(w) && IsRemark(more)
    ensures var n := CommentAt(w + more); |w| <= n && IsSpaces((w + more)[|w|..n])
    decreases |w|
  {
    hide IsSpace, TrimStart;
    if w == "" {
      assert w + more == more;
      if more != "" && IsSpaces(more) { PaddingHasNoComment(more); }
    } else {
      assert (w + more)[1..] == w[1..] + more && (w + more)[0] == w[0];
      assert HasNoRemark(w[1..]);
      CommentBehind(w[1..], more);
      if IsSpace(EcmaScript, w[0]) { NoHashAhead(w, more); }
      var n := CommentAt(w[1..] + more);
      assert (w + more)[|w|..n + 1] == (w[1..] + more)[|w| - 1..n];
    }
  }

  lemma {:induction false} PaddingHasNoComment(s: string)
    requires IsSpaces(s)
    ensures CommentAt(s) == |s|
  {
    hide IsSpace;
    if s != "" {
      TrimStartOfPadded(EcmaScript, s, "");
      assert s + "" == s;
      PaddingHasNoComment(s[1..]);
    }
  }

  /** A text without quotes is read as it stands, between padding and a comment. */
  lemma PlainIsRead(pad: string, v: string, remark: string)
    requires IsSpaces(pad) && v != "" && Tight(EcmaScript, v) && !IsQuote(v[0]) && HasNoRemark(v) && IsRemark(remark)
    ensures ParseScalar(pad + (v + remark)) == Some(v)
  {
    hide IsSpace, TrimStart, TrimEnd, CommentAt;
    TrimStartOfPadded(EcmaScript, pad, v + remark);
    CommentBehind(v, remark);
    var n := CommentAt(v + remark);
    var gap := (v + remark)[|v|..n];
    assert (v + remark)[..n] == v + gap;
    TrimOfGap(v, gap);
  }

  lemma NothingIsRead(pad: string)
    requires IsSpaces(pad)
    ensures ParseScalar(pad) == None
  {
    hide IsSpace;
    TrimStartOfPadded(EcmaScript, pad, "");
    assert pad + "" == pad;
  }
}
