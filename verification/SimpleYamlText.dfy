/** Whole texts: `dump_yaml` and `load_yaml`, and the lines that mean nothing to the parser. */
module SimpleYamlText {
  import opened Text
  import opened Quoting
  import opened SimpleYaml
  import opened SimpleYamlScalars
  import opened SimpleYamlRoundTrip

  // ---------------------------------------------------------------- texts and lines

  /** The line boundaries of `str.splitlines`. */
  predicate IsBreak(c: char) {
    var n := c as int;
    10 <= n <= 13 || 28 <= n <= 30 || n == 0x85 || n == 0x2028 || n == 0x2029
  }

  predicate OneLine(s: string) {
    forall i :: 0 <= i < |s| ==> !IsBreak(s[i])
  }

  predicate AllOneLine(lines: seq<string>) {
    forall i :: 0 <= i < |lines| ==> OneLine(lines[i])
  }

  /** `text.splitlines()`, with the part of the current line already read. */
  function PyLines(text: string, current: string): seq<string>
    decreases |text|
  {
    if text == "" then (if current == "" then [] else [current])
    else if text[0] == '\r' && |text| > 1 && text[1] == '\n' then [current] + PyLines(text[2..], "")
    else if IsBreak(text[0]) then [current] + PyLines(text[1..], "")
    else PyLines(text[1..], current + [text[0]])
  }

  /** `"\n".join(lines) + "\n"` */
  function Unlines(lines: seq<string>): string {
    Join(lines, "\n") + "\n"
  }

  lemma {:induction false} PyLinesOfPlain(s: string, current: string, rest: string)
    requires OneLine(s)
    ensures PyLines(s + "\n" + rest, current) == [current + s] + PyLines(rest, "")
  {
    var text := s + "\n" + rest;
    if s == "" {
      assert text[1..] == rest;
      assert current + s == current;
    } else {
      assert text[1..] == s[1..] + "\n" + rest;
      PyLinesOfPlain(s[1..], current + [s[0]], rest);
      assert current + [s[0]] + s[1..] == current + s;
    }
  }

  lemma {:induction false} PyLinesOfUnlines(lines: seq<string>)
    requires lines != [] && AllOneLine(lines)
    ensures PyLines(Unlines(lines), "") == lines
  {
    var s := lines[0];
    if |lines| == 1 {
      PyLinesOfPlain(s, "", "");
      assert s + "\n" + "" == Unlines(lines);
    } else {
      PyLinesOfUnlines(lines[1..]);
      assert Unlines(lines) == s + "\n" + Unlines(lines[1..]);
      PyLinesOfPlain(s, "", Unlines(lines[1..]));
    }
    assert "" + s == s;
  }

  /** No key or string of the tree holds a line boundary. */
  ghost predicate FitsLines(v: Value) {
    match v
    case Map(m) => forall k :: k in m ==> OneLine(k) && FitsLines(m[k])
    case List(items) => forall i :: 0 <= i < |items| ==> FitsLines(items[i])
    case Str(s) => OneLine(s)
    case Float(literal) => OneLine(literal)
    case _ => true
  }

  lemma ScalarFitsLine(v: Value)
    requires !IsContainer(v) && FitsLines(v)
    ensures OneLine(FormatScalar(v))
  {
    hide NeedsQuotes;
    match v
    case Int(n) =>
      var t := IntText(n);
      IntTextShape(n, t, NatText(if n < 0 then -n else n));
      assert forall i :: 0 <= i < |t| ==> t[i] in t;
      assert forall c :: c in t ==> c == '-' || IsDigit(c);
    case Str(s) => if NeedsQuotes(s) { EscapeFitsLine(s); }
    case Null =>
    case Bool(b) =>
    case Float(literal) =>
  }

  lemma {:induction false} EscapeFitsLine(s: string)
    requires OneLine(s)
    ensures OneLine(Escape(s))
  {
    if s != "" {
      EscapeStep(s);
      EscapeFitsLine(s[1..]);
    }
  }

  lemma InlineFitsLine(v: Value, head: string)
    requires FitsLines(v) && OneLine(head)
    ensures OneLine(head + InlineText(v))
  {
    hide FormatScalar;
    if !IsContainer(v) { ScalarFitsLine(v); }
    assert OneLine(InlineText(v));
  }

  lemma AllOneLineConcat(a: seq<string>, b: seq<string>)
    requires AllOneLine(a) && AllOneLine(b)
    ensures AllOneLine(a + b)
  {
  }

  lemma {:induction false} LinesFit(v: Value, n: nat)
    requires IsContainer(v) && FitsLines(v)
    ensures AllOneLine(Lines(v, n))
    decreases v, 1
  {
    if !IsEmptyContainer(v) {
      match v
      case Map(m) => EntriesFit(v, SortedKeys(m.Keys), n);
      case List(items) => ItemsFit(items, n);
    }
  }

  lemma {:induction false} EntriesFit(v: Value, keys: seq<string>, n: nat)
    requires v.Map? && FitsLines(v) && forall k :: k in keys ==> k in v.entries
    ensures AllOneLine(MapLines(v, keys, n))
    decreases v, 0, |keys|
  {
    hide InlineText, Lines;
    if keys != [] {
      var key, child := keys[0], v.entries[keys[0]];
      assert key in keys;
      EntriesFit(v, keys[1..], n);
      InlineFitsLine(child, Spaces(n) + (key + ":"));
      var head := Spaces(n) + (key + ":" + InlineText(child));
      assert head == Spaces(n) + (key + ":") + InlineText(child);
      var below := if IsFilledContainer(child) then Lines(child, n + 2) else [];
      if IsFilledContainer(child) { LinesFit(child, n + 2); }
      AllOneLineConcat([head], below);
      AllOneLineConcat([head] + below, MapLines(v, keys[1..], n));
    }
  }

  lemma {:induction false} ItemsFit(items: seq<Value>, n: nat)
    requires forall i :: 0 <= i < |items| ==> FitsLines(items[i])
    ensures AllOneLine(ListLines(items, n))
    decreases items, 0
  {
    hide InlineText, Lines;
    if items != [] {
      ItemsFit(items[1..], n);
      InlineFitsLine(items[0], Spaces(n) + "-");
      var head := Spaces(n) + ("-" + InlineText(items[0]));
      assert head == Spaces(n) + "-" + InlineText(items[0]);
      var below := if IsFilledContainer(items[0]) then Lines(items[0], n + 2) else [];
      if IsFilledContainer(items[0]) { LinesFit(items[0], n + 2); }
      AllOneLineConcat([head], below);
      AllOneLineConcat([head] + below, ListLines(items[1..], n));
    }
  }

  /** `dump_yaml` */
  ghost function DumpText(v: Value): string {
    Unlines(Lines(v, 0))
  }

  /** `load_yaml` */
  function LoadText(text: string): Loaded {
    LoadLines(ReadLines(PyLines(text, "")))
  }

  /**
   * The law of the module: a container without line boundaries, whose keys and scalars survive,
   * comes back from its own dump exactly when no list in it holds a filled container.
   */
  lemma DumpThenLoad(v: Value)
    requires IsContainer(v) && WellFormed(v) && FitsLines(v)
    ensures LoadText(DumpText(v)) == Doc(v) <==> ListsAreFlat(v)
  {
    hide WellFormed, ListsAreFlat, FitsLines, Lines, Unlines, PyLines, ReadLines, LoadLines, OneLine;
    LinesFit(v, 0);
    PyLinesOfUnlines(Lines(v, 0));
    LoadInvertsDumpIffFlat(v);
  }

  // ---------------------------------------------------------------- comments and blank lines

  ghost function Content(lines: seq<Line>): seq<Line> {
    if lines == [] then []
    else Content(lines[..|lines| - 1]) + if lines[|lines| - 1].kind.Noise? then [] else [lines[|lines| - 1]]
  }

  /** How many of the first `i` lines mean something. */
  ghost function Rank(lines: seq<Line>, i: nat): nat
    requires i <= |lines|
  {
    |Content(lines[..i])|
  }

  lemma RankStep(lines: seq<Line>, i: nat)
    requires i < |lines|
    ensures Rank(lines, i + 1) == Rank(lines, i) + if lines[i].kind.Noise? then 0 else 1
  {
    assert lines[..i + 1][..i] == lines[..i];
  }

  lemma {:induction false} ContentPrefix(lines: seq<Line>, i: nat)
    requires i <= |lines|
    ensures Content(lines[..i]) <= Content(lines)
    decreases |lines| - i
  {
    if i == |lines| {
      assert lines[..i] == lines;
    } else {
      assert lines[..i + 1][..i] == lines[..i];
      ContentPrefix(lines, i + 1);
    }
  }

  lemma RankOfAll(lines: seq<Line>, i: nat)
    requires i <= |lines|
    ensures Rank(lines, i) <= |Content(lines)|
    ensures i == |lines| ==> Rank(lines, i) == |Content(lines)|
    ensures i < |lines| && !lines[i].kind.Noise? ==>
              Rank(lines, i) < |Content(lines)| && Content(lines)[Rank(lines, i)] == lines[i]
  {
    ContentPrefix(lines, i);
    if i == |lines| {
      assert lines[..i] == lines;
    } else {
      assert lines[..i + 1][..i] == lines[..i];
      ContentPrefix(lines, i + 1);
    }
  }

  /** Two outcomes that differ at most in where the next line stands. */
  ghost predicate SameOutcome<T(!new)>(lines: seq<Line>, r: Parsed<T>, s: Parsed<T>) {
    match r
    case Failed(e) => s == Failed(e)
    case Read(v, next) => next <= |lines| && s == Read(v, Rank(lines, next))
  }

  lemma {:induction false} BlockIgnoresNoise(lines: seq<Line>, i: nat, indent: nat)
    requires i <= |lines| && Rank(lines, i) <= |Content(lines)|
    ensures SameOutcome(lines, ParseBlock(lines, i, indent), ParseBlock(Content(lines), Rank(lines, i), indent))
    decreases |lines| - i, 1
  {
    hide Content;
    RankOfAll(lines, i);
    if i < |lines| {
      RankStep(lines, i);
      RankOfAll(lines, i + 1);
      var line := lines[i];
      if line.kind.Noise? {
        BlockIgnoresNoise(lines, i + 1, indent);
      } else if line.indent >= indent {
        match line.kind
        case Item(_) => ListIgnoresNoise(lines, i, line.indent, []);
        case Entry(_, _) => MapIgnoresNoise(lines, i, line.indent, map[]);
        case Plain(_) =>
      }
    }
  }

  lemma {:induction false} MapIgnoresNoise(lines: seq<Line>, i: nat, indent: nat, result: map<string, Value>)
    requires i <= |lines| && Rank(lines, i) <= |Content(lines)|
    ensures SameOutcome(lines, ParseMap(lines, i, indent, result),
              ParseMap(Content(lines), Rank(lines, i), indent, result))
    decreases |lines| - i, 0
  {
    hide Content;
    RankOfAll(lines, i);
    if i < |lines| {
      RankStep(lines, i);
      RankOfAll(lines, i + 1);
      var line := lines[i];
      if line.kind.Noise? {
        MapIgnoresNoise(lines, i + 1, indent, result);
      } else if line.indent == indent && line.kind.Entry? {
        var key := line.kind.key;
        if line.kind.value.Some? {
          MapIgnoresNoise(lines, i + 1, indent, result[key := line.kind.value.value]);
        } else {
          BlockIgnoresNoise(lines, i + 1, indent + 2);
          var r := ParseBlock(lines, i + 1, indent + 2);
          if r.Read? {
            RankOfAll(lines, r.next);
            MapIgnoresNoise(lines, r.next, indent, result[key := Nested(r.value)]);
          }
        }
      }
    }
  }

  lemma {:induction false} ListIgnoresNoise(lines: seq<Line>, i: nat, indent: nat, result: seq<Value>)
    requires i <= |lines| && Rank(lines, i) <= |Content(lines)|
    ensures SameOutcome(lines, ParseList(lines, i, indent, result),
              ParseList(Content(lines), Rank(lines, i), indent, result))
    decreases |lines| - i, 0
  {
    hide Content;
    RankOfAll(lines, i);
    if i < |lines| {
      RankStep(lines, i);
      RankOfAll(lines, i + 1);
      var line := lines[i];
      if line.kind.Noise? {
        ListIgnoresNoise(lines, i + 1, indent, result);
      } else if line.indent >= indent && line.kind.Item? {
        match line.kind.item
        case Single(scalar) => ListIgnoresNoise(lines, i + 1, indent, result + [scalar]);
        case Opening(key, value) =>
          MapIgnoresNoise(lines, i + 1, indent + 2, map[]);
          var r := ParseMap(lines, i + 1, indent + 2, map[]);
          if r.Read? {
            RankOfAll(lines, r.next);
            ListIgnoresNoise(lines, r.next, indent, result + [Map(Seed(key, value) + r.value)]);
          }
        case Bare =>
          BlockIgnoresNoise(lines, i + 1, indent + 2);
          var r := ParseBlock(lines, i + 1, indent + 2);
          if r.Read? {
            RankOfAll(lines, r.next);
            ListIgnoresNoise(lines, r.next, indent, result + [Nested(r.value)]);
          }
      }
    }
  }

  /**
   * Only the meaningful lines count: two line lists that agree on them load to the same value or
   * fail with the same error, however many blank and comment lines stand between.
   */
  lemma NoiseIsIgnored(a: seq<string>, b: seq<string>)
    requires Content(ReadLines(a)) == Content(ReadLines(b))
    ensures LoadLines(ReadLines(a)) == LoadLines(ReadLines(b))
  {
    hide ReadLines, Content, ParseBlock;
    LoadOfContent(ReadLines(a));
    LoadOfContent(ReadLines(b));
  }

  lemma LoadOfContent(lines: seq<Line>)
    ensures LoadLines(lines) == LoadLines(Content(lines))
  {
    hide ParseBlock;
    assert lines[..0] == [];
    BlockIgnoresNoise(lines, 0, 0);
  }

  /** Inserting one blank or comment line anywhere changes nothing. */
  lemma InsertedNoiseIsIgnored(pre: seq<string>, noise: string, post: seq<string>)
    requires IsNoise(noise)
    ensures LoadLines(ReadLines(pre + [noise] + post)) == LoadLines(ReadLines(pre + post))
  {
    hide ReadLines, LoadLines, IsNoise, Content;
    ReadLinesConcat(pre + [noise], post);
    ReadLinesConcat(pre, [noise]);
    ReadLinesConcat(pre, post);
    var p, q := ReadLines(pre), ReadLines(post);
    assert ReadLines([noise]) == [ReadLine(noise)] && ReadLine(noise).kind.Noise? by {
      ReadOne(noise);
      NoiseReadsAsNoise(noise);
    }
    NoiseDropsOut(p, ReadLine(noise), q);
    NoiseIsIgnored(pre + [noise] + post, pre + post);
  }

  lemma NoiseReadsAsNoise(noise: string)
    requires IsNoise(noise)
    ensures ReadLine(noise).kind.Noise?
  {
  }

  lemma {:induction false} NoiseDropsOut(p: seq<Line>, noise: Line, q: seq<Line>)
    requires noise.kind.Noise?
    ensures Content(p + [noise] + q) == Content(p + q)
  {
    if q == [] {
      assert (p + [noise])[..|p|] == p;
      assert p + [noise] + q == p + [noise] && p + q == p;
    } else {
      var last := q[|q| - 1];
      var w, x := p + [noise] + q, p + q;
      assert w[..|w| - 1] == p + [noise] + q[..|q| - 1];
      assert x[..|x| - 1] == p + q[..|q| - 1];
      NoiseDropsOut(p, noise, q[..|q| - 1]);
    }
  }
}
