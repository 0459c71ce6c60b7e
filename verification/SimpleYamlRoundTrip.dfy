/**
 * Trees: what the printer writes, the parser reads back, in any indent and before any dedented
 * text. The proof goes through the stream of classified lines that a printed tree amounts to.
 */
module SimpleYamlRoundTrip {
  import opened Text
  import opened SimpleYaml
  import opened SimpleYamlScalars

  /** Keys are printed raw, so they must not look like anything else on their line. */
  predicate KeySurvives(k: string) {
    Tight(Python, k) && ':' !in k && !StartsWith(k, "#") && !StartsWith(k, "- ")
  }

  /** Every key and scalar of the tree survives by itself. */
  ghost predicate WellFormed(v: Value) {
    match v
    case Map(m) => forall k :: k in m ==> KeySurvives(k) && WellFormed(m[k])
    case List(items) => forall i :: 0 <= i < |items| ==> WellFormed(items[i])
    case _ => ScalarSurvives(v)
  }

  /** No list holds a filled container. */
  ghost predicate ListsAreFlat(v: Value) {
    match v
    case Map(m) => forall k :: k in m ==> ListsAreFlat(m[k])
    case List(items) => forall i :: 0 <= i < |items| ==> !IsFilledContainer(items[i])
    case _ => true
  }

  // ---------------------------------------------------------------- the classified lines of a tree

  function Leaf(v: Value): Option<Value> {
    if IsFilledContainer(v) then None else Some(v)
  }

  function EntryLine(key: string, child: Value, n: nat): Line {
    Line(Spaces(n) + (key + ":" + InlineText(child)), n, Entry(key, Leaf(child)))
  }

  /** A dash with nothing after it is not an item to the parser. */
  function ItemLine(item: Value, n: nat): Line {
    Line(Spaces(n) + ("-" + InlineText(item)), n,
         if IsFilledContainer(item) then Plain(Str("-")) else Item(Single(item)))
  }

  ghost function Tree(v: Value, n: nat): (r: seq<Line>)
    requires IsContainer(v)
    ensures |r| >= 1
    ensures r[0].indent == n && !r[0].kind.Noise?
    decreases v, 1
  {
    if v == Map(map[]) then [Line(Spaces(n) + "{}", n, Plain(v))]
    else if v == List([]) then [Line(Spaces(n) + "[]", n, Plain(v))]
    else
      match v
      case Map(m) =>
        var k :| k in m;
        assert k in SortedKeys(m.Keys);
        Entries(v, SortedKeys(m.Keys), n)
      case List(items) => Items(items, n)
  }

  ghost function Entries(v: Value, keys: seq<string>, n: nat): (r: seq<Line>)
    requires v.Map? && forall k :: k in keys ==> k in v.entries
    ensures keys != [] ==> |r| >= 1 && r[0] == EntryLine(keys[0], v.entries[keys[0]], n)
    decreases v, 0, |keys|
  {
    if keys == [] then []
    else
      var child := v.entries[keys[0]];
      [EntryLine(keys[0], child, n)] + (if IsFilledContainer(child) then Tree(child, n + 2) else []) +
        Entries(v, keys[1..], n)
  }

  ghost function Items(items: seq<Value>, n: nat): (r: seq<Line>)
    ensures items != [] ==> |r| >= 1 && r[0] == ItemLine(items[0], n)
    decreases items, 1
  {
    if items == [] then []
    else
      [ItemLine(items[0], n)] + (if IsFilledContainer(items[0]) then Tree(items[0], n + 2) else []) +
        Items(items[1..], n)
  }

  // ---------------------------------------------------------------- lexing what was printed

  lemma {:induction false} IndentOfPadded(n: nat, body: string)
    requires body == "" || body[0] != ' '
    ensures Indent(Spaces(n) + body) == n
  {
    var line := Spaces(n) + body;
    if n == 0 {
      assert line == body;
    } else {
      assert line[1..] == Spaces(n - 1) + body;
      IndentOfPadded(n - 1, body);
    }
  }

  lemma ReadPaddedLine(n: nat, body: string)
    requires body != "" && Tight(Python, body) && body[0] != '#'
    ensures ReadLine(Spaces(n) + body) == Line(Spaces(n) + body, n, KindOf(body))
  {
    hide KindOf, Trim, TrimStart;
    TrimOfIndented(Python, n, body);
    IndentOfPadded(n, body);
  }

  /** The text of a leaf: a scalar or an empty container. */
  function LeafText(v: Value): string
    requires !IsFilledContainer(v)
  {
    if v == Map(map[]) then "{}" else if v == List([]) then "[]" else FormatScalar(v)
  }

  lemma LeafReadsBack(v: Value)
    requires !IsFilledContainer(v) && WellFormed(v)
    ensures ReadsBack(v, LeafText(v)) && InlineText(v) == " " + LeafText(v)
  {
    hide FormatScalar, ScalarSurvives;
    if !IsContainer(v) { ScalarRoundTrip(v); }
  }

  lemma TrimOfSpaced(text: string)
    requires Tight(Python, text)
    ensures Trim(Python, " " + text) == text == Trim(Python, text)
  {
    TrimStartOfPadded(Python, " ", text);
    TrimIsIdentityOnTight(Python, text);
  }

  /** How the parser splits `key:tail`. */
  lemma EntryShape(key: string, tail: string, body: string)
    requires KeySurvives(key) && body == key + ":" + tail
    ensures ':' in body && KeyOf(body) == key && RestOf(body) == Trim(Python, tail)
    ensures body[0] != '#' && !StartsWith(body, "- ")
  {
    IndexOfFirst(key, ':', tail);
    assert body == key + [':'] + tail;
    assert body[|key|] == ':';
    assert body[..|key|] == key && body[|key| + 1..] == tail;
    TrimIsIdentityOnTight(Python, key);
    if |key| >= 1 { assert body[..1] == key[..1]; }
    if |key| >= 2 { assert body[..2] == key[..2]; } else if |key| == 1 { assert body[1] == ':'; }
  }

  lemma ReadEntryLine(key: string, child: Value, n: nat)
    requires KeySurvives(key) && WellFormed(child)
    ensures ReadLine(Spaces(n) + (key + ":" + InlineText(child))) == EntryLine(key, child, n)
  {
    hide InlineText, ParseScalar, LeafText, KeyOf, RestOf, IsNoise, ReadLine, Trim, WellFormed, OpensMapping, IsSpace;
    var tail := if IsFilledContainer(child) then "" else " " + LeafText(child);
    assert InlineText(child) == tail && ValueOf(Trim(Python, tail)) == Leaf(child) by {
      EntryTail(child, tail);
    }
    var body := key + ":" + tail;
    EntryShape(key, tail, body);
    assert Tight(Python, body) by {
      if !IsFilledContainer(child) {
        LeafReadsBack(child);
        assert body[|body| - 1] == LeafText(child)[|LeafText(child)| - 1];
      }
      assert body[0] == if key == "" then ':' else key[0];
      ColonIsNoSpace();
    }
    ReadPaddedLine(n, body);
    assert ReadLine(Spaces(n) + body) == Line(Spaces(n) + body, n, KindOf(body));
  }

  lemma ColonIsNoSpace()
    ensures !IsSpace(Python, ':') && !IsSpace(Python, '-')
  {
  }

  lemma EntryTail(child: Value, tail: string)
    requires WellFormed(child) && tail == if IsFilledContainer(child) then "" else " " + LeafText(child)
    ensures InlineText(child) == tail && ValueOf(Trim(Python, tail)) == Leaf(child)
  {
    hide ParseScalar, FormatScalar, LeafText;
    if IsFilledContainer(child) {
      assert InlineText(child) == "";
      TrimIsIdentityOnTight(Python, "");
    } else {
      LeafReadsBack(child);
      TrimOfSpaced(LeafText(child));
    }
  }

  lemma ReadItemLine(item: Value, n: nat)
    requires WellFormed(item)
    ensures ReadLine(Spaces(n) + ("-" + InlineText(item))) == ItemLine(item, n)
  {
    hide ParseScalar, LeafText, FormatScalar, KeyOf, RestOf, IsNoise, ReadLine, Trim, WellFormed, IsSpace, InlineText;
    ColonIsNoSpace();
    if IsFilledContainer(item) {
      assert InlineText(item) == "" by { EntryTail(item, ""); }
      assert "-" + "" == "-";
      DashAloneIsPlain("-");
      ReadPaddedLine(n, "-");
    } else {
      LeafReadsBack(item);
      var text := LeafText(item);
      TrimOfSpaced(text);
      var body := "-" + InlineText(item);
      assert body == "- " + text && body[2..] == text && body[|body| - 1] == text[|text| - 1];
      ReadPaddedLine(n, body);
      assert KindOf(body) == Item(Single(item));
    }
  }

  lemma DashAloneIsPlain(body: string)
    requires body == "-"
    ensures KindOf(body) == Plain(Str("-"))
  {
    hide TrimStart, TrimEnd, Trim, IsFloatText, KeyOf, RestOf, IntValue;
    TrimIsIdentityOnTight(Python, body);
    assert DropSign(body) == "";
    assert !IsIntText(body);
    assert Keyword(body).None? && !IsQuoted(body);
  }

  lemma ReadLinesConcat(a: seq<string>, b: seq<string>)
    ensures ReadLines(a + b) == ReadLines(a) + ReadLines(b)
  {
    hide ReadLine;
  }

  lemma ReadNothing()
    ensures ReadLines([]) == []
  {
  }

  lemma ReadKeepsLength(lines: seq<string>)
    ensures |ReadLines(lines)| == |lines|
  {
  }

  lemma ReadOne(line: string)
    ensures ReadLines([line]) == [ReadLine(line)]
  {
  }

  lemma {:induction false} ReadTree(v: Value, n: nat)
    requires IsContainer(v) && WellFormed(v)
    ensures ReadLines(Lines(v, n)) == Tree(v, n)
    decreases v, 1
  {
    hide ReadLine;
    if IsEmptyContainer(v) {
      ReadPaddedLine(n, if v.Map? then "{}" else "[]");
    } else {
      match v
      case Map(m) => ReadEntries(v, SortedKeys(m.Keys), n);
      case List(items) => ReadItems(items, n);
    }
  }

  lemma {:induction false} ReadEntries(v: Value, keys: seq<string>, n: nat)
    requires v.Map? && WellFormed(v) && forall k :: k in keys ==> k in v.entries
    ensures ReadLines(MapLines(v, keys, n)) == Entries(v, keys, n)
    decreases v, 0, |keys|
  {
    hide ReadLine, ReadLines, InlineText, EntryLine, Lines, Tree;
    if keys == [] {
      assert ReadLines([]) == [] by { ReadNothing(); }
    } else {
      var key, child := keys[0], v.entries[keys[0]];
      assert key in keys;
      ReadEntryLine(key, child, n);
      ReadEntries(v, keys[1..], n);
      var below := if IsFilledContainer(child) then Lines(child, n + 2) else [];
      if IsFilledContainer(child) { ReadTree(child, n + 2); } else { ReadNothing(); }
      var head := Spaces(n) + (key + ":" + InlineText(child));
      ReadOne(head);
      ReadLinesConcat([head], below);
      ReadLinesConcat(EntryLines(key, child, n), MapLines(v, keys[1..], n));
    }
  }

  lemma {:induction false} ReadItems(items: seq<Value>, n: nat)
    requires forall i :: 0 <= i < |items| ==> WellFormed(items[i])
    ensures ReadLines(ListLines(items, n)) == Items(items, n)
    decreases items, 0
  {
    hide ReadLine, ReadLines, InlineText, ItemLine, Lines, Tree;
    if items == [] {
      assert ReadLines([]) == [] by { ReadNothing(); }
    } else {
      var item := items[0];
      ReadItemLine(item, n);
      ReadItems(items[1..], n);
      var below := if IsFilledContainer(item) then Lines(item, n + 2) else [];
      if IsFilledContainer(item) { ReadTree(item, n + 2); } else { ReadNothing(); }
      var head := Spaces(n) + ("-" + InlineText(item));
      ReadOne(head);
      ReadLinesConcat([head], below);
      ReadLinesConcat(ItemLines(item, n), ListLines(items[1..], n));
    }
  }

  // ---------------------------------------------------------------- parsing the classified lines

  /** The text after a block at indent `n` closes it at once. */
  predicate Closes(post: seq<Line>, n: nat) {
    post == [] || (!post[0].kind.Noise? && post[0].indent < n)
  }

  lemma Slice(lines: seq<Line>, i: nat, a: seq<Line>, b: seq<Line>)
    requires i <= |lines| && lines[i..] == a + b
    ensures i + |a| <= |lines| && lines[i + |a|..] == b
    ensures a != [] ==> lines[i] == a[0]
    ensures a == [] && b != [] ==> lines[i] == b[0]
  {
    assert lines[i..][|a|..] == b;
    if a + b != [] { assert lines[i..][0] == (a + b)[0]; }
  }

  lemma {:induction false} BlockRoundTrip(lines: seq<Line>, i: nat, indent: nat, v: Value, n: nat, post: seq<Line>)
    requires IsContainer(v) && ListsAreFlat(v) && indent <= n
    requires i <= |lines| && lines[i..] == Tree(v, n) + post && Closes(post, n)
    ensures ParseBlock(lines, i, indent) == Read(Some(v), i + |Tree(v, n)|)
    decreases v, 1
  {
    hide InlineText;
    Slice(lines, i, Tree(v, n), post);
    if !IsEmptyContainer(v) {
      match v
      case Map(m) =>
        var keys := SortedKeys(m.Keys);
        var k :| k in m.Keys;
        assert k in keys;
        MapRoundTrip(lines, i, v, keys, n, map[], post);
        PartOfAll(v, keys);
      case List(items) =>
        ListRoundTrip(lines, i, items, n, [], post);
        assert [] + items == items;
    }
  }

  /** The part of a mapping under some of its keys. */
  ghost function Part(v: Value, keys: seq<string>): map<string, Value>
    requires v.Map? && forall k :: k in keys ==> k in v.entries
  {
    map k | k in keys :: v.entries[k]
  }

  lemma PartOfNone(v: Value, result: map<string, Value>)
    requires v.Map?
    ensures result + Part(v, []) == result
  {
  }

  lemma PartStep(v: Value, keys: seq<string>, result: map<string, Value>)
    requires v.Map? && keys != [] && forall k :: k in keys ==> k in v.entries
    ensures result[keys[0] := v.entries[keys[0]]] + Part(v, keys[1..]) == result + Part(v, keys)
  {
    assert forall k :: k in keys <==> k == keys[0] || k in keys[1..];
  }

  lemma PartOfAll(v: Value, keys: seq<string>)
    requires v.Map? && forall k :: k in keys <==> k in v.entries
    ensures map[] + Part(v, keys) == v.entries
  {
  }

  lemma {:induction false} MapRoundTrip(lines: seq<Line>, i: nat, v: Value, keys: seq<string>, n: nat,
                                        result: map<string, Value>, post: seq<Line>)
    requires v.Map? && ListsAreFlat(v) && forall k :: k in keys ==> k in v.entries
    requires i <= |lines| && lines[i..] == Entries(v, keys, n) + post && Closes(post, n)
    ensures ParseMap(lines, i, n, result) == Read(result + Part(v, keys), i + |Entries(v, keys, n)|)
    decreases v, 0, |keys|
  {
    hide ParseMap, Part, Closes, Tree;
    if keys == [] {
      assert lines[i..] == post;
      MapCloses(lines, i, n, result, post);
      PartOfNone(v, result);
    } else {
      assert keys[0] in keys;
      var next := EntryStep(lines, i, v, keys, n, result, post);
      MapRoundTrip(lines, next, v, keys[1..], n, result[keys[0] := v.entries[keys[0]]], post);
      PartStep(v, keys, result);
    }
  }

  lemma MapCloses(lines: seq<Line>, i: nat, n: nat, result: map<string, Value>, post: seq<Line>)
    requires i <= |lines| && lines[i..] == post && Closes(post, n)
    ensures ParseMap(lines, i, n, result) == Read(result, i)
  {
    assert i < |lines| ==> lines[i] == post[0];
  }

  lemma MapLeaf(lines: seq<Line>, i: nat, n: nat, result: map<string, Value>, raw: string, key: string, child: Value)
    requires i < |lines| && lines[i] == Line(raw, n, Entry(key, Some(child)))
    ensures ParseMap(lines, i, n, result) == ParseMap(lines, i + 1, n, result[key := child])
  {
  }

  lemma MapNested(lines: seq<Line>, i: nat, n: nat, result: map<string, Value>, raw: string, key: string, child: Value,
                  next: nat)
    requires i < |lines| && lines[i] == Line(raw, n, Entry(key, None))
    requires ParseBlock(lines, i + 1, n + 2) == Read(Some(child), next) && !child.Null?
    ensures ParseMap(lines, i, n, result) == ParseMap(lines, next, n, result[key := child])
  {
  }

  /** The children of an entry, as a run of lines. */
  ghost function Below(child: Value, n: nat): seq<Line> {
    if IsFilledContainer(child) then Tree(child, n + 2) else []
  }

  /** One entry of the mapping loop. */
  lemma {:induction false} EntryStep(lines: seq<Line>, i: nat, v: Value, keys: seq<string>, n: nat,
                                     result: map<string, Value>, post: seq<Line>) returns (next: nat)
    requires v.Map? && keys != [] && (forall k :: k in keys ==> k in v.entries) && ListsAreFlat(v.entries[keys[0]])
    requires i <= |lines| && lines[i..] == Entries(v, keys, n) + post && Closes(post, n)
    ensures next <= |lines| && lines[next..] == Entries(v, keys[1..], n) + post
    ensures i < next && next + |Entries(v, keys[1..], n)| == i + |Entries(v, keys, n)|
    ensures ParseMap(lines, i, n, result) == ParseMap(lines, next, n, result[keys[0] := v.entries[keys[0]]])
    decreases v, 0, 0
  {
    hide ParseMap, ParseBlock, Tree, ListsAreFlat, InlineText;
    var child := v.entries[keys[0]];
    var rest := Entries(v, keys[1..], n);
    var head := EntryLine(keys[0], child, n);
    next := EntrySlices(lines, i, head, Below(child, n), rest, post);
    if IsFilledContainer(child) {
      assert Closes(rest + post, n + 2) by { if keys[1..] != [] { assert (rest + post)[0] == rest[0]; } }
      BlockRoundTrip(lines, i + 1, n + 2, child, n + 2, rest + post);
      MapNested(lines, i, n, result, head.raw, keys[0], child, next);
    } else {
      MapLeaf(lines, i, n, result, head.raw, keys[0], child);
    }
  }

  lemma EntrySlices(lines: seq<Line>, i: nat, head: Line, below: seq<Line>, rest: seq<Line>, post: seq<Line>)
    returns (next: nat)
    requires i <= |lines| && lines[i..] == [head] + below + rest + post
    ensures i < |lines| && lines[i] == head && next == i + 1 + |below| <= |lines|
    ensures lines[i + 1..] == below + (rest + post) && lines[next..] == rest + post
  {
    assert lines[i..] == [head] + (below + (rest + post));
    Slice(lines, i, [head], below + (rest + post));
    Slice(lines, i + 1, below, rest + post);
    next := i + 1 + |below|;
  }

  lemma {:induction false} ListRoundTrip(lines: seq<Line>, i: nat, items: seq<Value>, n: nat, result: seq<Value>,
                                         post: seq<Line>)
    requires forall k :: 0 <= k < |items| ==> !IsFilledContainer(items[k])
    requires i <= |lines| && lines[i..] == Items(items, n) + post
    requires Closes(post, n) || (post != [] && post[0].kind.Plain?)
    ensures |Items(items, n)| == |items|
    ensures ParseList(lines, i, n, result) == Read(result + items, i + |items|)
    decreases |items|
  {
    hide InlineText;
    if items == [] {
      Slice(lines, i, [], post);
      assert result + items == result;
    } else {
      var head, after := [ItemLine(items[0], n)], Items(items[1..], n) + post;
      assert lines[i..] == head + after;
      Slice(lines, i, head, after);
      ListRoundTrip(lines, i + 1, items[1..], n, result + [items[0]], post);
      assert result + [items[0]] + items[1..] == result + items;
    }
  }

  // ---------------------------------------------------------------- filled containers in lists

  /** What becomes of a tree with a filled container in a list: an error, or a stop before the end. */
  ghost predicate Spoilt(lines: seq<Line>, r: Parsed<Option<Value>>, v: Value, n: nat) {
    r.Failed? ||
    (v.List? && r.value != Some(v) && r.next < |lines| && !lines[r.next].kind.Noise? && lines[r.next].indent >= n)
  }

  lemma {:induction false} BlockSpoilt(lines: seq<Line>, i: nat, indent: nat, v: Value, n: nat, post: seq<Line>)
    requires IsContainer(v) && !ListsAreFlat(v) && indent <= n
    requires i <= |lines| && lines[i..] == Tree(v, n) + post && Closes(post, n)
    ensures Spoilt(lines, ParseBlock(lines, i, indent), v, n)
    decreases v, 1
  {
    hide InlineText;
    Slice(lines, i, Tree(v, n), post);
    match v
    case Map(m) =>
      var keys := SortedKeys(m.Keys);
      var k :| k in m && !ListsAreFlat(m[k]);
      assert k in keys;
      MapSpoilt(lines, i, v, keys, n, map[], post);
    case List(items) =>
      var j := FirstFilled(items);
      ListStopsAtFilled(lines, i, indent, items, j, n, post);
  }

  lemma {:induction false} MapSpoilt(lines: seq<Line>, i: nat, v: Value, keys: seq<string>, n: nat,
                                     result: map<string, Value>, post: seq<Line>)
    requires v.Map? && forall k :: k in keys ==> k in v.entries
    requires exists k :: k in keys && !ListsAreFlat(v.entries[k])
    requires i <= |lines| && lines[i..] == Entries(v, keys, n) + post && Closes(post, n)
    ensures ParseMap(lines, i, n, result).Failed?
    decreases v, 0, |keys|
  {
    hide InlineText;
    var key, child := keys[0], v.entries[keys[0]];
    assert key in keys;
    if ListsAreFlat(child) {
      var next := EntryStep(lines, i, v, keys, n, result, post);
      MapSpoilt(lines, next, v, keys[1..], n, result[key := child], post);
    } else {
      var head, after := [EntryLine(key, child, n)], Entries(v, keys[1..], n) + post;
      assert lines[i..] == head + (Tree(child, n + 2) + after);
      Slice(lines, i, head, Tree(child, n + 2) + after);
      BlockSpoilt(lines, i + 1, n + 2, child, n + 2, after);
    }
  }

  lemma FirstFilled(items: seq<Value>) returns (j: nat)
    requires exists i :: 0 <= i < |items| && IsFilledContainer(items[i])
    ensures j < |items| && IsFilledContainer(items[j]) && forall i :: 0 <= i < j ==> !IsFilledContainer(items[i])
  {
    j := 0;
    while !IsFilledContainer(items[j])
      invariant j < |items| && forall i :: 0 <= i < j ==> !IsFilledContainer(items[i])
      decreases |items| - j
    {
      j := j + 1;
    }
  }

  /** The lines of the first item. */
  ghost function FirstItem(items: seq<Value>, n: nat): seq<Line>
    requires items != []
  {
    [ItemLine(items[0], n)] + (if IsFilledContainer(items[0]) then Tree(items[0], n + 2) else [])
  }

  lemma ItemsOpen(items: seq<Value>, n: nat)
    requires items != []
    ensures Items(items, n) == FirstItem(items, n) + Items(items[1..], n)
  {
    hide ItemLine, Tree, IsFilledContainer;
  }

  lemma {:induction false} ItemsSplit(items: seq<Value>, j: nat, n: nat)
    requires j <= |items|
    ensures Items(items, n) == Items(items[..j], n) + Items(items[j..], n)
    decreases j
  {
    hide Items, FirstItem;
    if j > 0 {
      ItemsSplit(items[1..], j - 1, n);
      assert items[1..][..j - 1] == items[..j][1..] && items[1..][j - 1..] == items[j..];
      ItemsOpen(items, n);
      ItemsOpen(items[..j], n);
      SameFirst(items, items[..j], n);
      assert Items(items, n) == FirstItem(items, n) + (Items(items[..j][1..], n) + Items(items[j..], n));
    } else {
      assert items[..0] == [] && items[0..] == items;
      ItemsOfNone(n);
    }
  }

  lemma SameFirst(a: seq<Value>, b: seq<Value>, n: nat)
    requires a != [] && b != [] && a[0] == b[0]
    ensures FirstItem(a, n) == FirstItem(b, n)
  {
  }

  lemma ListStopsAtFilled(lines: seq<Line>, i: nat, indent: nat, items: seq<Value>, j: nat, n: nat, post: seq<Line>)
    requires j < |items| && IsFilledContainer(items[j]) && forall k :: 0 <= k < j ==> !IsFilledContainer(items[k])
    requires i <= |lines| && lines[i..] == Items(items, n) + post && indent <= n
    ensures Spoilt(lines, ParseBlock(lines, i, indent), List(items), n)
  {
    hide InlineText, ParseList, ParseBlock, Tree, Items, Spoilt;
    var before, dash := Items(items[..j], n), ItemLine(items[j], n);
    var tree, after := Tree(items[j], n + 2), Items(items[j + 1..], n) + post;
    assert Items(items, n) + post == before + ([dash] + tree + after) by {
      ItemsSplit(items, j, n);
      ItemsAtFilled(items[j..], n);
      assert items[j..][1..] == items[j + 1..];
    }
    Slice(lines, i, before, [dash] + tree + after);
    if j == 0 {
      assert before == [] by { assert items[..0] == []; ItemsOfNone(n); }
      assert lines[i..] == [dash] + tree + after + [];
      var next := EntrySlices(lines, i, dash, tree, after, []);
      Slice(lines, i + 1, tree, after);
      DashStopsBlock(lines, i, indent, items, n, dash);
    } else {
      ListRoundTrip(lines, i, items[..j], n, [], [dash] + tree + after);
      assert [] + items[..j] == items[..j];
      ItemsStopAtDash(lines, i, indent, items, j, n, before);
    }
  }

  lemma ItemsOfNone(n: nat)
    ensures Items([], n) == []
  {
  }

  lemma ItemsAtFilled(items: seq<Value>, n: nat)
    requires items != [] && IsFilledContainer(items[0])
    ensures Items(items, n) == [ItemLine(items[0], n)] + Tree(items[0], n + 2) + Items(items[1..], n)
  {
  }

  lemma DashStopsBlock(lines: seq<Line>, i: nat, indent: nat, items: seq<Value>, n: nat, dash: Line)
    requires i + 1 < |lines| && lines[i] == dash && dash.indent == n && dash.kind == Plain(Str("-")) && indent <= n
    requires lines[i + 1].indent == n + 2 && !lines[i + 1].kind.Noise?
    ensures Spoilt(lines, ParseBlock(lines, i, indent), List(items), n)
  {
  }

  lemma ItemsStopAtDash(lines: seq<Line>, i: nat, indent: nat, items: seq<Value>, j: nat, n: nat, before: seq<Line>)
    requires 0 < j < |items| && indent <= n && i + j < |lines| && lines[i + j].kind.Plain? && lines[i + j].indent == n
    requires lines[i].indent == n && lines[i].kind.Item? && ParseList(lines, i, n, []) == Read(items[..j], i + j)
    ensures Spoilt(lines, ParseBlock(lines, i, indent), List(items), n)
  {
    hide ParseList;
    assert |items[..j]| != |items|;
  }

  // ---------------------------------------------------------------- main results

  /**
   * Parsing what was printed, at index `i` of any text, gives back the tree and consumes exactly
   * the printed lines, provided the text that follows closes the block.
   */
  lemma PrintThenParse(pre: seq<string>, v: Value, n: nat, post: seq<string>, indent: nat)
    requires IsContainer(v) && WellFormed(v) && ListsAreFlat(v) && indent <= n
    requires Closes(ReadLines(post), n)
    ensures ParseBlock(ReadLines(pre + Lines(v, n) + post), |pre|, indent) == Read(Some(v), |pre| + |Lines(v, n)|)
  {
    hide ReadLine, ReadLines, Lines, Tree, WellFormed, ListsAreFlat;
    var lines := ReadLines(pre + Lines(v, n) + post);
    ReadTree(v, n);
    ReadLinesConcat(pre + Lines(v, n), post);
    ReadLinesConcat(pre, Lines(v, n));
    ReadKeepsLength(pre);
    ReadKeepsLength(Lines(v, n));
    assert lines == ReadLines(pre) + (Tree(v, n) + ReadLines(post));
    assert lines[|pre|..] == Tree(v, n) + ReadLines(post);
    BlockRoundTrip(lines, |pre|, indent, v, n, ReadLines(post));
  }

  /** A container whose keys and scalars survive is loaded back exactly when its lists are flat. */
  lemma LoadInvertsDumpIffFlat(v: Value)
    requires IsContainer(v) && WellFormed(v)
    ensures LoadLines(ReadLines(Lines(v, 0))) == Doc(v) <==> ListsAreFlat(v)
  {
    hide ReadLines, Lines, Tree, WellFormed, ListsAreFlat, ParseBlock;
    var lines := ReadLines(Lines(v, 0));
    ReadTree(v, 0);
    assert lines[0..] == Tree(v, 0) + [];
    if ListsAreFlat(v) {
      BlockRoundTrip(lines, 0, 0, v, 0, []);
    } else {
      BlockSpoilt(lines, 0, 0, v, 0, []);
    }
  }

  /** The failing side at one value: a list in a list comes back as something else. */
  lemma NestedListIsLost()
    ensures var v := List([List([Null])]);
            IsContainer(v) && WellFormed(v) && LoadLines(ReadLines(Lines(v, 0))) != Doc(v)
  {
    hide ReadLines, Lines;
    var inner := List([Null]);
    var v := List([inner]);
    assert !IsFilledContainer(v.items[0]) ==> ListsAreFlat(v);
    assert v.items[0] == inner && inner.items[0] == Null;
    LoadInvertsDumpIffFlat(v);
  }
}
