/** When a dumped container loads back, exactly: what its keys, its strings and its lists must be. */
module SimpleYamlExact {
  import opened Text
  import opened Quoting
  import opened SimpleYaml
  import opened SimpleYamlScalars
  import opened SimpleYamlRoundTrip
  import opened SimpleYamlText

  ghost predicate FloatFree(v: Value) {
    match v
    case Map(m) => forall k :: k in m ==> FloatFree(m[k])
    case List(items) => forall i :: 0 <= i < |items| ==> FloatFree(items[i])
    case _ => !v.Float?
  }

  /** Keys that are read as a comment or as an item at the start of a line. */
  predicate IsMistaken(k: string) {
    StartsWith(k, "#") || StartsWith(k, "- ")
  }

  /** What is asked of the keys and strings of a value. */
  datatype Law =
    | Readable(size: nat)   // as they come out of any text of this size
    | Short(size: nat)      // mistaken keys have at most this size
    | Kept(size: nat)       // mistaken keys have less, and strings keep their padding

  predicate KeyHas(k: string, law: Law) {
    match law
    case Readable(size) => Tight(Python, k) && ':' !in k && OneLine(k) && |k| <= size
    case Short(size) => IsMistaken(k) ==> |k| <= size
    case Kept(size) => IsMistaken(k) ==> |k| < size
  }

  predicate StrHas(s: string, law: Law) {
    match law
    case Readable(_) => OneLine(s)
    case Short(_) => true
    case Kept(_) => KeepsItsPadding(s)
  }

  ghost predicate AllHave(v: Value, law: Law) {
    match v
    case Map(m) => forall k :: k in m ==> KeyHas(k, law) && AllHave(m[k], law)
    case List(items) => forall i :: 0 <= i < |items| ==> AllHave(items[i], law)
    case Str(s) => StrHas(s, law)
    case _ => true
  }

  // ---------------------------------------------------------------- what a parser can return

  ghost predicate OptionHas(v: Option<Value>, law: Law) {
    v.Some? ==> AllHave(v.value, law)
  }

  ghost predicate KindHas(kind: Kind, law: Law) {
    match kind
    case Noise => true
    case Entry(k, v) => KeyHas(k, law) && OptionHas(v, law)
    case Plain(v) => AllHave(v, law)
    case Item(Bare) => true
    case Item(Opening(k, v)) => KeyHas(k, law) && OptionHas(v, law)
    case Item(Single(v)) => AllHave(v, law)
  }

  ghost predicate LinesHave(lines: seq<Line>, law: Law) {
    forall i :: 0 <= i < |lines| ==> KindHas(lines[i].kind, law)
  }

  lemma PutHas(m: map<string, Value>, k: string, v: Value, law: Law)
    requires AllHave(Map(m), law) && KeyHas(k, law) && AllHave(v, law)
    ensures AllHave(Map(m[k := v]), law)
  {
    hide KeyHas;
    var next := m[k := v];
    forall j | j in next ensures KeyHas(j, law) && AllHave(next[j], law) {
      if j != k { assert j in m; }
    }
  }

  lemma SeedHas(k: string, v: Option<Value>, extra: map<string, Value>, law: Law)
    requires KeyHas(k, law) && OptionHas(v, law) && AllHave(Map(extra), law)
    ensures AllHave(Map(Seed(k, v) + extra), law)
  {
    hide KeyHas;
    var m := Seed(k, v) + extra;
    assert AllHave(Map(map[]), law);
    forall j | j in m ensures KeyHas(j, law) && AllHave(m[j], law) {
      if j in extra { assert m[j] == extra[j]; } else { assert j == k && m[j] == Seed(k, v)[k]; }
    }
  }

  lemma SnocHas(items: seq<Value>, v: Value, law: Law)
    requires AllHave(List(items), law) && AllHave(v, law)
    ensures AllHave(List(items + [v]), law)
  {
    var next := items + [v];
    forall i | 0 <= i < |next| ensures AllHave(next[i], law) {
      if i < |items| { assert AllHave(List(items).items[i], law); }
    }
  }

  lemma NestedHas(child: Option<Value>, law: Law)
    requires OptionHas(child, law)
    ensures AllHave(Nested(child), law)
  {
    assert AllHave(Map(map[]), law);
  }

  lemma {:induction false} BlockHas(lines: seq<Line>, i: nat, indent: nat, law: Law)
    requires i <= |lines| && LinesHave(lines, law)
    ensures var r := ParseBlock(lines, i, indent); r.Read? ==> OptionHas(r.value, law)
    decreases |lines| - i, 1
  {
    hide KeyHas, AllHave;
    if i < |lines| {
      var line := lines[i];
      assert KindHas(line.kind, law);
      NothingHas(law);
      if line.kind.Noise? {
        BlockHas(lines, i + 1, indent, law);
      } else if line.indent >= indent {
        match line.kind
        case Item(_) => ListHas(lines, i, line.indent, [], law);
        case Entry(_, _) => MapHas(lines, i, line.indent, map[], law);
        case Plain(_) =>
      }
    }
  }

  lemma NothingHas(law: Law)
    ensures AllHave(Map(map[]), law) && AllHave(List([]), law)
  {
  }

  lemma {:induction false} MapHas(lines: seq<Line>, i: nat, indent: nat, result: map<string, Value>, law: Law)
    requires i <= |lines| && LinesHave(lines, law) && AllHave(Map(result), law)
    ensures var r := ParseMap(lines, i, indent, result); r.Read? ==> AllHave(Map(r.value), law)
    decreases |lines| - i, 0
  {
    hide KeyHas, AllHave;
    if i < |lines| {
      var line := lines[i];
      assert KindHas(line.kind, law);
      if line.kind.Noise? {
        MapHas(lines, i + 1, indent, result, law);
      } else if line.indent == indent && line.kind.Entry? {
        var key := line.kind.key;
        if line.kind.value.Some? {
          PutHas(result, key, line.kind.value.value, law);
          MapHas(lines, i + 1, indent, result[key := line.kind.value.value], law);
        } else {
          BlockHas(lines, i + 1, indent + 2, law);
          var r := ParseBlock(lines, i + 1, indent + 2);
          if r.Read? {
            NestedHas(r.value, law);
            PutHas(result, key, Nested(r.value), law);
            MapHas(lines, r.next, indent, result[key := Nested(r.value)], law);
          }
        }
      }
    }
  }

  lemma {:induction false} ListHas(lines: seq<Line>, i: nat, indent: nat, result: seq<Value>, law: Law)
    requires i <= |lines| && LinesHave(lines, law) && AllHave(List(result), law)
    ensures var r := ParseList(lines, i, indent, result); r.Read? ==> AllHave(List(r.value), law)
    decreases |lines| - i, 0
  {
    hide KeyHas, AllHave;
    if i < |lines| {
      var line := lines[i];
      assert KindHas(line.kind, law);
      if line.kind.Noise? {
        ListHas(lines, i + 1, indent, result, law);
      } else if line.indent >= indent && line.kind.Item? {
        match line.kind.item
        case Single(scalar) =>
          SnocHas(result, scalar, law);
          ListHas(lines, i + 1, indent, result + [scalar], law);
        case Opening(key, value) =>
          NothingHas(law);
          MapHas(lines, i + 1, indent + 2, map[], law);
          var r := ParseMap(lines, i + 1, indent + 2, map[]);
          if r.Read? {
            SeedHas(key, value, r.value, law);
            SnocHas(result, Map(Seed(key, value) + r.value), law);
            ListHas(lines, r.next, indent, result + [Map(Seed(key, value) + r.value)], law);
          }
        case Bare =>
          BlockHas(lines, i + 1, indent + 2, law);
          var r := ParseBlock(lines, i + 1, indent + 2);
          if r.Read? {
            NestedHas(r.value, law);
            SnocHas(result, Nested(r.value), law);
            ListHas(lines, r.next, indent, result + [Nested(r.value)], law);
          }
      }
    }
  }

  /** A loaded document has what all its lines have. */
  lemma LoadedHas(lines: seq<Line>, v: Value, law: Law)
    requires LinesHave(lines, law) && LoadLines(lines) == Doc(v)
    ensures AllHave(v, law)
  {
    hide ParseBlock, AllHave;
    BlockHas(lines, 0, 0, law);
  }

  // ---------------------------------------------------------------- what comes out of any text

  lemma WithinFits(a: string, s: string)
    requires Within(a, s) && OneLine(s)
    ensures OneLine(a)
  {
    forall i | 0 <= i < |a| ensures !IsBreak(a[i]) {
      assert a[i] in s;
      var j :| 0 <= j < |s| && s[j] == a[i];
    }
  }

  lemma TrimPart(s: string)
    ensures Within(Trim(Python, s), s) && |Trim(Python, s)| <= |s| && Tight(Python, Trim(Python, s))
  {
    TrimSubset(s);
    TrimIsTight(Python, s);
  }

  lemma PartFits(s: string, from: nat, to: nat)
    requires from <= to <= |s| && OneLine(s)
    ensures OneLine(s[from..to])
  {
  }

  lemma ParsedFits(text: string)
    requires OneLine(text)
    ensures ParseScalar(text).Str? ==> OneLine(ParseScalar(text).s)
  {
    hide ReplacePair, IsFloatText, IsIntText, IntValue, OneLine;
    if IsQuoted(text) {
      var inner := text[1..|text| - 1];
      PartFits(text, 1, |text| - 1);
      var once := ReplacePair(inner, '\\', '"', "\"");
      PairWithin(inner, '\\', '"');
      WithinFits(once, inner);
      PairWithin(once, '\\', '\\');
      WithinFits(UnescapeTwoPass(inner), once);
    }
  }

  lemma ScalarHas(text: string, size: nat)
    requires OneLine(text)
    ensures AllHave(ParseScalar(text), Readable(size)) && OptionHas(ValueOf(text), Readable(size))
  {
    hide IsFloatText, IsIntText, IntValue, OneLine, UnescapeTwoPass;
    ParsedFits(text);
    NothingHas(Readable(size));
  }

  lemma SplitHas(text: string, size: nat)
    requires OneLine(text) && |text| <= size && ':' in text
    ensures KeyHas(KeyOf(text), Readable(size)) && OptionHas(ValueOf(RestOf(text)), Readable(size))
  {
    hide OneLine, ParseScalar, Trim, Tight;
    var i := IndexOf(text, ':');
    var left, right := text[..i], text[i + 1..];
    assert ':' !in left && left == text[0..i] && right == text[i + 1..|text|];
    PartFits(text, 0, i);
    PartFits(text, i + 1, |text|);
    TrimPart(left);
    TrimPart(right);
    WithinFits(KeyOf(text), left);
    WithinFits(RestOf(text), right);
    ScalarHas(RestOf(text), size);
  }

  /** Any line without a line boundary. */
  lemma LineHas(raw: string, size: nat)
    requires OneLine(raw) && |raw| <= size
    ensures KindHas(ReadLine(raw).kind, Readable(size))
  {
    hide OneLine, ParseScalar, Trim, KeyOf, RestOf, KeyHas, OptionHas, AllHave, IsNoise, ValueOf;
    var t := Trim(Python, raw);
    TrimPart(raw);
    WithinFits(t, raw);
    ScalarHas(t, size);
    if StartsWith(t, "- ") {
      PartFits(t, 2, |t|);
      var item := Trim(Python, t[2..]);
      TrimPart(t[2..]);
      WithinFits(item, t[2..]);
      ScalarHas(item, size);
      if OpensMapping(item) { SplitHas(item, size); }
    } else if ':' in t {
      SplitHas(t, size);
    }
  }

  lemma {:induction false} PyLinesFit(text: string, current: string, size: nat)
    requires OneLine(current) && |current| + |text| <= size
    ensures forall l :: l in PyLines(text, current) ==> OneLine(l) && |l| <= size
    decreases |text|
  {
    if text != "" {
      if text[0] == '\r' && |text| > 1 && text[1] == '\n' {
        PyLinesFit(text[2..], "", size);
      } else if IsBreak(text[0]) {
        PyLinesFit(text[1..], "", size);
      } else {
        PyLinesFit(text[1..], current + [text[0]], size);
      }
    }
  }

  /**
   * Whatever the text, a document loaded from it has keys without padding and colons, and no line boundary in a key
   * or a string.
   */
  lemma LoadedIsReadable(text: string, v: Value)
    requires LoadText(text) == Doc(v)
    ensures AllHave(v, Readable(|text|))
  {
    hide AllHave, PyLines, ReadLine, LoadLines, KindHas, OneLine;
    var lines := PyLines(text, "");
    assert OneLine("") by { NothingFits(); }
    PyLinesFit(text, "", |text|);
    var read := ReadLines(lines);
    forall i | 0 <= i < |read| ensures KindHas(read[i].kind, Readable(|text|)) {
      assert lines[i] in lines;
      LineHas(lines[i], |text|);
    }
    LoadedHas(read, v, Readable(|text|));
  }

  lemma NothingFits()
    ensures OneLine("")
  {
  }

  // ---------------------------------------------------------------- what comes out of a dump

  /** A scalar text: the one that is printed, without the padding it may have. */
  lemma LeafHas(v: Value, size: nat)
    requires !IsFilledContainer(v) && FloatFree(v)
    ensures AllHave(ParseScalar(Trim(Python, LeafText(v))), Kept(size)) && !OpensMapping(Trim(Python, LeafText(v)))
  {
    hide FormatScalar, Trim, OpensMapping, ParseScalar, ScalarSurvives;
    match v
    case Str(s) => StringHas(s, size);
    case Map(_) => EmptyHas("{}", size);
    case List(_) => EmptyHas("[]", size);
    case Null => WordHas(v, size);
    case Bool(_) => WordHas(v, size);
    case Int(_) => WordHas(v, size);
    case Float(_) =>
  }

  lemma WordHas(v: Value, size: nat)
    requires v.Null? || v.Bool? || v.Int?
    ensures var t := Trim(Python, FormatScalar(v)); AllHave(ParseScalar(t), Kept(size)) && !OpensMapping(t)
  {
    hide FormatScalar, Trim, OpensMapping, ParseScalar;
    ScalarRoundTrip(v);
    TrimIsIdentityOnTight(Python, FormatScalar(v));
  }

  lemma EmptyHas(t: string, size: nat)
    requires t == "{}" || t == "[]"
    ensures AllHave(ParseScalar(Trim(Python, t)), Kept(size)) && !OpensMapping(Trim(Python, t))
  {
    hide IsIntText, IsFloatText, IntValue, UnescapeTwoPass, Trim;
    BracketsAreTight();
    TrimIsIdentityOnTight(Python, t);
    NothingHas(Kept(size));
    assert ParseScalar(t) == Map(map[]) || ParseScalar(t) == List([]);
    assert ':' !in t;
  }

  lemma BracketsAreTight()
    ensures Tight(Python, "{}") && Tight(Python, "[]")
  {
  }

  lemma StringHas(s: string, size: nat)
    ensures var t := Trim(Python, FormatScalar(Str(s)));
            AllHave(ParseScalar(t), Kept(size)) && !OpensMapping(t)
  {
    hide NeedsQuotes, Quote, Trim, IsIntText, IsFloatText, OpensMapping, ParseScalar;
    if NeedsQuotes(s) {
      QuotedRoundTrip(s);
      TrimIsIdentityOnTight(Python, Quote(s));
      QuoteOpensNothing(s);
    } else {
      PlainFacts(s);
      TrimSubset(s);
      var t := Trim(Python, s);
      StringsReadAsThemselvesOrLessQuoted(t);
      TrimIsTight(Python, s);
      PlainHas(t, size);
      assert !OpensMapping(t) by { NoColonOpensNothing(t); }
    }
  }

  lemma QuoteOpensNothing(s: string)
    ensures !OpensMapping(Quote(s))
  {
    hide Escape;
  }

  lemma NoColonOpensNothing(t: string)
    requires ':' !in t
    ensures !OpensMapping(t)
  {
    if t != "" { assert t[|t| - 1] in t; }
  }

  lemma PlainHas(t: string, size: nat)
    requires ParseScalar(t).Str? ==> ParseScalar(t).s == t
    requires Tight(Python, t)
    ensures AllHave(ParseScalar(t), Kept(size))
  {
    hide IsIntText, IsFloatText, IntValue, NeedsQuotes, Tight, UnescapeTwoPass;
  }

  lemma {:induction false} PairKeeps(s: string, a: char, b: char, c: char)
    requires c in s && c != a && c != b
    ensures c in ReplacePair(s, a, b, [b])
    decreases |s|
  {
    if |s| >= 2 {
      if s[0] == a && s[1] == b {
        assert s == [s[0], s[1]] + s[2..];
        PairKeeps(s[2..], a, b, c);
      } else {
        assert s == [s[0]] + s[1..];
        if c in s[1..] { PairKeeps(s[1..], a, b, c); }
      }
    }
  }

  lemma ColonNeedsQuotes(s: string)
    requires ':' in s
    ensures NeedsQuotes(s)
  {
    hide LooksLikePathOrVariable, IsFloatText, HasControl;
    assert ':' in QUOTED_ANYWHERE;
    assert HasDelimiter(s);
  }

  /** A scalar text with a colon in it, where it opens no mapping. */
  lemma ColonHas(text: string, size: nat)
    requires ':' in text && !OpensMapping(text)
    ensures AllHave(ParseScalar(text), Kept(size))
  {
    hide IsIntText, IsFloatText, IntValue, NeedsQuotes, UnescapeTwoPass;
    NothingHas(Kept(size));
    if IsQuoted(text) {
      var inner := text[1..|text| - 1];
      assert text == [text[0]] + inner + [text[|text| - 1]];
      assert ':' in inner;
      UnescapeKeepsColon(inner);
      ColonNeedsQuotes(inner);
      ColonNeedsQuotes(UnescapeTwoPass(inner));
    } else {
      ColonNeedsQuotes(text);
    }
  }

  lemma UnescapeKeepsColon(s: string)
    requires ':' in s
    ensures ':' in UnescapeTwoPass(s)
  {
    hide ReplacePair;
    PairKeeps(s, '\\', '"', ':');
    PairKeeps(ReplacePair(s, '\\', '"', "\""), '\\', '\\', ':');
  }

  lemma ValueHas(rest: string, size: nat)
    requires rest == "" || AllHave(ParseScalar(rest), Kept(size))
    ensures OptionHas(ValueOf(rest), Kept(size))
  {
    hide ParseScalar, AllHave;
  }

  // ---------------------------------------------------------------- trimming a printed line

  lemma {:induction false} TrimEndKeeps(a: string, w: string)
    requires a != "" && !IsSpace(Python, a[|a| - 1])
    ensures TrimEnd(Python, a + w) == a + TrimEnd(Python, w)
    decreases |w|
  {
    hide IsSpace;
    if w == "" {
      assert a + w == a;
    } else {
      assert (a + w)[..|a + w| - 1] == a + w[..|w| - 1];
      if IsSpace(Python, w[|w| - 1]) { TrimEndKeeps(a, w[..|w| - 1]); }
    }
  }

  lemma {:induction false} TrimStartKeeps(a: string, b: string)
    requires b != "" && !IsSpace(Python, b[0])
    ensures TrimStart(Python, a + b) == TrimStart(Python, a) + b
  {
    hide IsSpace;
    if a == "" {
      assert a + b == b;
    } else {
      assert (a + b)[1..] == a[1..] + b;
      if IsSpace(Python, a[0]) { TrimStartKeeps(a[1..], b); }
    }
  }

  lemma TrimEndTwice(s: string)
    ensures TrimEnd(Python, TrimEnd(Python, s)) == TrimEnd(Python, s)
  {
    TrimEndShape(Python, s);
  }

  /** Padding at the end does not matter to what is trimmed at both ends. */
  lemma TrimOfTrimEnd(s: string)
    ensures Trim(Python, TrimEnd(Python, s)) == Trim(Python, s)
  {
    hide IsSpace, TrimStart, TrimEnd;
    var e := TrimEnd(Python, s);
    TrimEndShape(Python, s);
    var pad := s[|e|..];
    assert s == e + pad;
    if e == "" {
      assert s == pad + "";
      TrimStartOfPadded(Python, pad, "");
      TrimStartOfUnpadded(Python, "");
    } else {
      var init, last := e[..|e| - 1], [e[|e| - 1]];
      assert e == init + last && s == init + (last + pad);
      TrimStartKeeps(init, last);
      TrimStartKeeps(init, last + pad);
      var x := TrimStart(Python, init) + last;
      assert TrimStart(Python, init) + (last + pad) == x + pad;
      TrimEndOfPadded(Python, x, pad);
      TrimEndOfPadded(Python, x, "");
      assert x + "" == x;
    }
  }

  lemma TrimOfSpace(s: string)
    ensures Trim(Python, " " + s) == Trim(Python, s)
  {
    assert (" " + s)[1..] == s;
  }

  // ---------------------------------------------------------------- the lines of a dump

  lemma InlineIs(v: Value)
    requires !IsFilledContainer(v)
    ensures InlineText(v) == " " + LeafText(v)
  {
    hide FormatScalar;
  }

  /** What stands behind a colon or a dash. */
  lemma TailHas(v: Value, size: nat)
    requires FloatFree(v)
    ensures var w := Trim(Python, TrimEnd(Python, InlineText(v)));
            OptionHas(ValueOf(w), Kept(size)) && (w == "" || AllHave(ParseScalar(w), Kept(size))) && !OpensMapping(w)
  {
    hide Trim, TrimEnd, LeafText, ParseScalar, OpensMapping, AllHave, InlineText;
    TrimOfTrimEnd(InlineText(v));
    if IsFilledContainer(v) {
      assert InlineText(v) == "" by { FilledIsBelow(v); }
      TrimIsIdentityOnTight(Python, "");
      NoColonOpensNothing("");
    } else {
      InlineIs(v);
      TrimOfSpace(LeafText(v));
      LeafHas(v, size);
      ValueHas(Trim(Python, LeafText(v)), size);
    }
  }

  lemma FilledIsBelow(v: Value)
    requires IsFilledContainer(v)
    ensures InlineText(v) == ""
  {
  }

  lemma StrippedIs(n: nat, head: string, w: string)
    requires head != "" && Tight(Python, head)
    ensures var raw := Spaces(n) + (head + w);
            TrimStart(Python, raw) == head + w && Trim(Python, raw) == head + TrimEnd(Python, w) &&
            Trim(Python, raw) != ""
  {
    hide IsSpace, TrimStart, TrimEnd;
    assert (head + w)[0] == head[0];
    assert forall c :: c in Spaces(n) ==> IsSpace(Python, c) by { SpaceIsSpace(); }
    TrimStartOfPadded(Python, Spaces(n), head + w);
    TrimEndKeeps(head, w);
  }

  lemma SpaceIsSpace()
    ensures IsSpace(Python, ' ')
  {
  }

  /** A line that begins like an item: the key it opens is shorter. */
  lemma MistakenItem(key: string, w: string, size: nat)
    requires Tight(Python, key) && ':' !in key && StartsWith(key, "- ") && |key| <= size && w == TrimEnd(Python, w)
    requires OptionHas(ValueOf(Trim(Python, w)), Kept(size))
    ensures KindHas(KindOf(key + ":" + w), Kept(size))
  {
    hide Trim, TrimStart, TrimEnd, ParseScalar, IsSpace, AllHave, OptionHas, ValueOf, OpensMapping;
    var t := key + ":" + w;
    var k := TrimStart(Python, key[2..]);
    assert t[..2] == key[..2];
    assert t[2..] == key[2..] + (":" + w);
    ColonIsNoSpace();
    TrimStartKeeps(key[2..], ":" + w);
    TrimStartShape(Python, key[2..]);
    var item := k + ":" + w;
    assert k + (":" + w) == (k + ":") + w == item;
    TrimEndKeeps(k + ":", w);
    assert Trim(Python, t[2..]) == item by { TrimIs(t[2..]); }
    assert ':' !in k by { assert forall c :: c in k ==> c in key; }
    assert ':' in item by { assert item[|k|] == ':'; }
    if OpensMapping(item) {
      IndexOfFirst(k, ':', w);
      assert item == k + [':'] + w && item[..|k|] == k && item[|k| + 1..] == w;
      TrimPart(k);
    } else {
      ColonHas(item, size);
    }
  }

  lemma TrimIs(s: string)
    ensures Trim(Python, s) == TrimEnd(Python, TrimStart(Python, s))
  {
  }

  lemma EntryHas(key: string, child: Value, n: nat, size: nat)
    requires Tight(Python, key) && ':' !in key && KeyHas(key, Short(size)) && FloatFree(child)
    ensures KindHas(ReadLine(Spaces(n) + (key + ":" + InlineText(child))).kind, Kept(size))
  {
    hide Trim, TrimStart, TrimEnd, ParseScalar, IsSpace, AllHave, OptionHas, ValueOf, OpensMapping, InlineText, KindOf,
         KeyOf, RestOf;
    var w := TrimEnd(Python, InlineText(child));
    ColonIsNoSpace();
    assert Tight(Python, key + ":") by { assert (key + ":")[0] == if key == "" then ':' else key[0]; }
    StrippedIs(n, key + ":", InlineText(child));
    TailHas(child, size);
    TrimEndTwice(InlineText(child));
    var body := key + ":" + InlineText(child);
    if StartsWith(key, "#") {
      assert body[..1] == key[..1];
    } else if StartsWith(key, "- ") {
      MistakenItem(key, w, size);
      assert body[..1] == key[..1] && body[0] == '-';
    } else {
      EntryShape(key, w, key + ":" + w);
      EntryShape(key, InlineText(child), body);
      EntryKind(key + ":" + w);
    }
  }

  lemma EntryKind(t: string)
    requires ':' in t && !StartsWith(t, "- ")
    ensures KindOf(t) == Entry(KeyOf(t), ValueOf(RestOf(t)))
  {
    hide KeyOf, RestOf, ValueOf;
  }

  lemma ItemHas(item: Value, n: nat, size: nat)
    requires FloatFree(item)
    ensures KindHas(ReadLine(Spaces(n) + ("-" + InlineText(item))).kind, Kept(size))
  {
    hide Trim, TrimStart, TrimEnd, ParseScalar, IsSpace, AllHave, OptionHas, ValueOf, OpensMapping, InlineText, KindOf,
         NeedsQuotes;
    var w := TrimEnd(Python, InlineText(item));
    ColonIsNoSpace();
    StrippedIs(n, "-", InlineText(item));
    TailHas(item, size);
    if w == "" {
      assert "-" + w == "-";
      DashAloneIsPlain("-");
      DashHas(size);
    } else {
      assert w[0] == ' ' by {
        TrimEndShape(Python, InlineText(item));
        if IsFilledContainer(item) { FilledIsBelow(item); } else { InlineIs(item); }
      }
      DashedKind(w, size);
    }
  }

  lemma DashHas(size: nat)
    ensures AllHave(Str("-"), Kept(size))
  {
    hide LooksLikePathOrVariable, IsFloatText, HasControl, HasDelimiter;
    assert NeedsQuotes("-");
  }

  lemma DashedKind(w: string, size: nat)
    requires w != "" && w[0] == ' '
    requires var t := Trim(Python, w); !OpensMapping(t) && (t == "" || AllHave(ParseScalar(t), Kept(size)))
    ensures KindHas(KindOf("-" + w), Kept(size))
  {
    hide Trim, ParseScalar, AllHave, OpensMapping;
    assert w == " " + w[1..];
    TrimOfSpace(w[1..]);
    var t := "-" + w;
    assert t[..2] == "- " && t[2..] == w[1..];
  }

  /** The lines of a value are read as its laws say. */
  ghost predicate ReadAs(lines: seq<string>, law: Law) {
    forall i :: 0 <= i < |lines| ==> KindHas(ReadLine(lines[i]).kind, law)
  }

  lemma ReadAsConcat(a: seq<string>, b: seq<string>, law: Law)
    requires ReadAs(a, law) && ReadAs(b, law)
    ensures ReadAs(a + b, law)
  {
    hide KindHas, ReadLine;
  }

  lemma {:induction false} TreeHas(v: Value, n: nat, limit: nat, size: nat)
    requires IsContainer(v) && FloatFree(v) && AllHave(v, Readable(limit)) && AllHave(v, Short(size))
    ensures ReadAs(Lines(v, n), Kept(size))
    decreases v, 1
  {
    hide KindHas, ReadLine;
    if IsEmptyContainer(v) {
      BracketsHave(if v.Map? then "{}" else "[]", n, size);
    } else {
      match v
      case Map(m) => EntriesHave(v, SortedKeys(m.Keys), n, limit, size);
      case List(items) => ItemsHave(items, n, limit, size);
    }
  }

  lemma BracketsHave(t: string, n: nat, size: nat)
    requires t == "{}" || t == "[]"
    ensures KindHas(ReadLine(Spaces(n) + t).kind, Kept(size))
  {
    hide ReadLine, ParseScalar, AllHave, OpensMapping, Trim;
    BracketsAreTight();
    EmptyHas(t, size);
    TrimIsIdentityOnTight(Python, t);
    ReadPaddedLine(n, t);
    assert ':' !in t && !StartsWith(t, "- ");
  }

  lemma {:induction false} EntriesHave(v: Value, keys: seq<string>, n: nat, limit: nat, size: nat)
    requires v.Map? && FloatFree(v) && AllHave(v, Readable(limit)) && AllHave(v, Short(size))
    requires forall k :: k in keys ==> k in v.entries
    ensures ReadAs(MapLines(v, keys, n), Kept(size))
    decreases v, 0, |keys|
  {
    hide KindHas, ReadLine, InlineText, Lines, Tight, OneLine, IsMistaken;
    if keys != [] {
      var key, child := keys[0], v.entries[keys[0]];
      assert key in keys;
      EntriesHave(v, keys[1..], n, limit, size);
      EntryHas(key, child, n, size);
      var head := Spaces(n) + (key + ":" + InlineText(child));
      var below := if IsFilledContainer(child) then Lines(child, n + 2) else [];
      if IsFilledContainer(child) { TreeHas(child, n + 2, limit, size); }
      ReadAsConcat([head], below, Kept(size));
      ReadAsConcat([head] + below, MapLines(v, keys[1..], n), Kept(size));
    }
  }

  lemma {:induction false} ItemsHave(items: seq<Value>, n: nat, limit: nat, size: nat)
    requires FloatFree(List(items)) && AllHave(List(items), Readable(limit)) && AllHave(List(items), Short(size))
    ensures ReadAs(ListLines(items, n), Kept(size))
    decreases items, 0
  {
    hide KindHas, ReadLine, InlineText, Lines;
    if items != [] {
      var item := items[0];
      assert FloatFree(item) && AllHave(item, Readable(limit)) && AllHave(item, Short(size));
      ItemsHave(items[1..], n, limit, size);
      ItemHas(item, n, size);
      var head := Spaces(n) + ("-" + InlineText(item));
      var below := if IsFilledContainer(item) then Lines(item, n + 2) else [];
      if IsFilledContainer(item) { TreeHas(item, n + 2, limit, size); }
      ReadAsConcat([head], below, Kept(size));
      ReadAsConcat([head] + below, ListLines(items[1..], n), Kept(size));
    }
  }

  // ---------------------------------------------------------------- the law

  lemma {:induction false} ReadableFits(v: Value, limit: nat)
    requires FloatFree(v) && AllHave(v, Readable(limit))
    ensures FitsLines(v)
  {
    hide OneLine, Tight;
    match v
    case Map(m) => forall k | k in m ensures OneLine(k) && FitsLines(m[k]) { ReadableFits(m[k], limit); }
    case List(items) => forall i | 0 <= i < |items| ensures FitsLines(items[i]) { ReadableFits(items[i], limit); }
    case _ =>
  }

  lemma {:induction false} ReadableIsShort(v: Value, limit: nat)
    requires AllHave(v, Readable(limit))
    ensures AllHave(v, Short(limit))
  {
    hide OneLine, Tight, IsMistaken;
    match v
    case Map(m) =>
      forall k | k in m ensures KeyHas(k, Short(limit)) && AllHave(m[k], Short(limit)) { ReadableIsShort(m[k], limit); }
    case List(items) =>
      forall i | 0 <= i < |items| ensures AllHave(items[i], Short(limit)) { ReadableIsShort(items[i], limit); }
    case _ =>
  }

  lemma {:induction false} KeptIsShorter(v: Value, size: nat)
    requires AllHave(v, Kept(size)) && size > 0
    ensures AllHave(v, Short(size - 1))
  {
    hide KeepsItsPadding, IsMistaken;
    match v
    case Map(m) =>
      forall k | k in m ensures KeyHas(k, Short(size - 1)) && AllHave(m[k], Short(size - 1)) {
        KeptIsShorter(m[k], size);
      }
    case List(items) =>
      forall i | 0 <= i < |items| ensures AllHave(items[i], Short(size - 1)) { KeptIsShorter(items[i], size); }
    case _ =>
  }

  lemma {:induction false} KeptIsWellFormed(v: Value, limit: nat)
    requires FloatFree(v) && AllHave(v, Readable(limit)) && AllHave(v, Kept(0))
    ensures WellFormed(v)
  {
    hide OneLine, Tight, KeepsItsPadding;
    match v
    case Map(m) =>
      forall k | k in m ensures KeySurvives(k) && WellFormed(m[k]) {
        assert KeyHas(k, Readable(limit)) && KeyHas(k, Kept(0));
        KeptIsWellFormed(m[k], limit);
      }
    case List(items) =>
      forall i | 0 <= i < |items| ensures WellFormed(items[i]) { KeptIsWellFormed(items[i], limit); }
    case _ =>
  }

  /**
   * A mistaken key that comes back comes from a longer one: it opened a mapping behind the dash another one began with.
   * So a value that comes back has none.
   */
  lemma {:induction false} NoneIsMistaken(v: Value, limit: nat, size: nat)
    requires IsContainer(v) && FloatFree(v) && AllHave(v, Readable(limit)) && AllHave(v, Short(size))
    requires LoadText(DumpText(v)) == Doc(v)
    ensures AllHave(v, Kept(0))
    decreases size
  {
    hide AllHave, FloatFree, Lines, Unlines, PyLines, ReadLine, LoadLines, OneLine, KindHas;
    ReadableFits(v, limit);
    LinesFit(v, 0);
    PyLinesOfUnlines(Lines(v, 0));
    TreeHas(v, 0, limit, size);
    var read := ReadLines(Lines(v, 0));
    assert LinesHave(read, Kept(size));
    LoadedHas(read, v, Kept(size));
    if size > 0 {
      KeptIsShorter(v, size);
      NoneIsMistaken(v, limit, size - 1);
    }
  }

  lemma OnlyGoodComesBack(v: Value)
    requires IsContainer(v) && FloatFree(v) && LoadText(DumpText(v)) == Doc(v)
    ensures WellFormed(v) && FitsLines(v)
  {
    hide AllHave, FloatFree, WellFormed, FitsLines, LoadText, DumpText;
    var limit := |DumpText(v)|;
    LoadedIsReadable(DumpText(v), v);
    ReadableIsShort(v, limit);
    NoneIsMistaken(v, limit, limit);
    KeptIsWellFormed(v, limit);
    ReadableFits(v, limit);
  }

  /**
   * The law of the module, exactly: a container without floats comes back from its own dump if and only if every key
   * and string survives by itself, none holds a line boundary, and no list holds a filled container.
   */
  lemma DumpThenLoadIff(v: Value)
    requires IsContainer(v) && FloatFree(v)
    ensures LoadText(DumpText(v)) == Doc(v) <==> WellFormed(v) && FitsLines(v) && ListsAreFlat(v)
  {
    hide FloatFree, WellFormed, FitsLines, LoadText, DumpText, ListsAreFlat;
    if WellFormed(v) && FitsLines(v) {
      DumpThenLoad(v);
    } else if LoadText(DumpText(v)) == Doc(v) {
      OnlyGoodComesBack(v);
    }
  }
}
