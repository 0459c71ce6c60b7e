/**
 * Documents as people write them: keys in any order and more than once, keys without a value, texts in any style, and
 * lists whose items open a mapping behind the dash. What is written is what is loaded.
 */
module SimpleYamlWritten {
  import opened Text
  import opened Quoting
  import opened SimpleYaml
  import opened SimpleYamlScalars
  import opened SimpleYamlRoundTrip
  import opened SimpleYamlText

  /** A scalar or an empty container in any spelling, nothing at all, a mapping, or a list. */
  datatype Node =
    | Written(text: string)
    | Absent
    | Mapping(entries: seq<Pair>)
    | Listing(items: seq<Node>)

  datatype Pair = Pair(key: string, node: Node)

  // ---------------------------------------------------------------- what may be written

  predicate IsWritten(text: string) {
    text != "" && Tight(Python, text)
  }

  predicate IsBlock(node: Node) {
    node.Mapping? || node.Listing?
  }

  /** A key behind a dash: only the quote signs and the colon are closed to it. */
  predicate OpensWith(key: string) {
    Tight(Python, key) && ':' !in key && !StartsWith(key, "\"") && !StartsWith(key, "'")
  }

  predicate IsEntry(p: Pair)
    decreases p, 1
  {
    KeySurvives(p.key) && IsNode(p.node)
  }

  predicate IsNode(node: Node)
    decreases node, 0
  {
    match node
    case Written(text) => IsWritten(text)
    case Absent => true
    case Mapping(entries) => entries != [] && forall i :: 0 <= i < |entries| ==> IsEntry(entries[i])
    case Listing(items) => items != [] && forall i :: 0 <= i < |items| ==> IsItem(items[i])
  }

  /** A text that opens no mapping, or a mapping with a text or nothing at its first key. */
  predicate IsItem(node: Node)
    decreases node, 1
  {
    match node
    case Written(text) => IsWritten(text) && !OpensMapping(text)
    case Mapping(entries) =>
      entries != [] && OpensWith(entries[0].key) && !IsBlock(entries[0].node) && IsNode(entries[0].node) &&
      forall i :: 1 <= i < |entries| ==> IsEntry(entries[i])
    case _ => false
  }

  // ---------------------------------------------------------------- what it means

  function Meaning(node: Node): Value
    decreases node, 1
  {
    match node
    case Written(text) => ParseScalar(text)
    case Absent => Map(map[])
    case Mapping(entries) => Map(PutAll(map[], entries))
    case Listing(items) => List(seq(|items|, i requires 0 <= i < |items| => Meaning(items[i])))
  }

  /** Entry after entry: of a repeated key the last one counts. */
  function PutAll(m: map<string, Value>, entries: seq<Pair>): map<string, Value>
    decreases entries, 0
  {
    if entries == [] then m
    else
      assert entries[0] in entries;
      PutAll(m[entries[0].key := Meaning(entries[0].node)], entries[1..])
  }

  lemma {:induction false} LastCounts(m: map<string, Value>, entries: seq<Pair>, i: nat)
    requires i < |entries| && forall j :: i < j < |entries| ==> entries[j].key != entries[i].key
    ensures entries[i].key in PutAll(m, entries) && PutAll(m, entries)[entries[i].key] == Meaning(entries[i].node)
    decreases |entries|
  {
    hide Meaning;
    var next := m[entries[0].key := Meaning(entries[0].node)];
    if i == 0 {
      OthersStay(next, entries[1..], entries[0].key);
    } else {
      LastCounts(next, entries[1..], i - 1);
    }
  }

  lemma {:induction false} OthersStay(m: map<string, Value>, entries: seq<Pair>, key: string)
    requires forall j :: 0 <= j < |entries| ==> entries[j].key != key
    ensures (key in PutAll(m, entries) <==> key in m) && (key in m ==> PutAll(m, entries)[key] == m[key])
    decreases |entries|
  {
    hide Meaning;
    if entries != [] { OthersStay(m[entries[0].key := Meaning(entries[0].node)], entries[1..], key); }
  }

  lemma {:induction false} PutOver(m: map<string, Value>, n: map<string, Value>, entries: seq<Pair>)
    ensures m + PutAll(n, entries) == PutAll(m + n, entries)
    decreases |entries|
  {
    hide Meaning;
    if entries != [] {
      var k, v := entries[0].key, Meaning(entries[0].node);
      PutOver(m, n[k := v], entries[1..]);
      assert m + n[k := v] == (m + n)[k := v];
    }
  }

  // ---------------------------------------------------------------- how it is written

  function TailText(node: Node): string {
    if node.Written? then " " + node.text else ""
  }

  function TailValue(node: Node): Option<Value> {
    if node.Written? then Some(ParseScalar(node.text)) else None
  }

  /** The lines of a block at an indent. */
  function Print(node: Node, n: nat): seq<string>
    requires IsBlock(node)
    decreases node, 1
  {
    match node
    case Mapping(entries) => PrintEntries(entries, n)
    case Listing(items) => PrintItems(items, n)
  }

  function PrintBelow(node: Node, n: nat): seq<string>
    decreases node, 2
  {
    if IsBlock(node) then Print(node, n) else []
  }

  function PrintEntries(entries: seq<Pair>, n: nat): seq<string>
    decreases entries, 0
  {
    if entries == [] then []
    else
      assert entries[0] in entries;
      [Spaces(n) + (entries[0].key + ":" + TailText(entries[0].node))] + PrintBelow(entries[0].node, n + 2) +
      PrintEntries(entries[1..], n)
  }

  /** The first entry of a mapping stands behind the dash, the others two columns deeper than it. */
  function PrintItem(item: Node, n: nat): seq<string>
    decreases item, 0
  {
    match item
    case Mapping(entries) =>
      if entries == [] then []
      else
        [Spaces(n) + ("- " + (entries[0].key + ":" + TailText(entries[0].node)))] + PrintEntries(entries[1..], n + 2)
    case _ => [Spaces(n) + ("-" + TailText(item))]
  }

  function PrintItems(items: seq<Node>, n: nat): seq<string>
    decreases items, 0
  {
    if items == [] then []
    else
      assert items[0] in items;
      PrintItem(items[0], n) + PrintItems(items[1..], n)
  }

  // ---------------------------------------------------------------- the same, classified

  function EntryHead(p: Pair, n: nat): Line {
    Line(Spaces(n) + (p.key + ":" + TailText(p.node)), n, Entry(p.key, TailValue(p.node)))
  }

  function ItemHead(item: Node, n: nat): Line
    requires item.Written? || (item.Mapping? && item.entries != [])
  {
    match item
    case Mapping(entries) =>
      Line(Spaces(n) + ("- " + (entries[0].key + ":" + TailText(entries[0].node))), n,
        Item(Opening(entries[0].key, TailValue(entries[0].node))))
    case Written(text) => Line(Spaces(n) + ("-" + (" " + text)), n, Item(Single(ParseScalar(text))))
  }

  function NodeTree(node: Node, n: nat): (r: seq<Line>)
    requires IsBlock(node)
    decreases node, 1
  {
    match node
    case Mapping(entries) => EntryTree(entries, n)
    case Listing(items) => ItemTree(items, n)
  }

  function BelowTree(node: Node, n: nat): seq<Line>
    decreases node, 2
  {
    if IsBlock(node) then NodeTree(node, n) else []
  }

  function EntryTree(entries: seq<Pair>, n: nat): seq<Line>
    decreases entries, 0
  {
    if entries == [] then []
    else
      assert entries[0] in entries;
      [EntryHead(entries[0], n)] + BelowTree(entries[0].node, n + 2) + EntryTree(entries[1..], n)
  }

  /** The lines of an item behind its first one. */
  function ItemRest(item: Node, n: nat): seq<Line>
    decreases item, 0
  {
    if item.Mapping? && item.entries != [] then EntryTree(item.entries[1..], n + 2) else []
  }

  function ItemTree(items: seq<Node>, n: nat): seq<Line>
    decreases items, 0
  {
    if items == [] || !(items[0].Written? || (items[0].Mapping? && items[0].entries != [])) then []
    else
      assert items[0] in items;
      [ItemHead(items[0], n)] + ItemRest(items[0], n) + ItemTree(items[1..], n)
  }

  // ---------------------------------------------------------------- reading the lines

  /** How the parser splits `key:tail`, behind a dash or not. */
  lemma KeyLine(key: string, node: Node, body: string)
    requires IsBlock(node) || IsNode(node)
    requires Tight(Python, key) && ':' !in key && body == key + ":" + TailText(node)
    ensures ':' in body && KeyOf(body) == key && ValueOf(RestOf(body)) == TailValue(node)
    ensures Tight(Python, body) && Trim(Python, body) == body && body[0] == if key == "" then ':' else key[0]
    ensures OpensWith(key) ==> OpensMapping(body)
  {
    hide ParseScalar, IsSpace, Trim;
    var tail := TailText(node);
    IndexOfFirst(key, ':', tail);
    assert body == key + [':'] + tail && body[|key|] == ':';
    assert body[..|key|] == key && body[|key| + 1..] == tail;
    TrimIsIdentityOnTight(Python, key);
    ColonIsNoSpace();
    if node.Written? {
      TrimOfSpaced(node.text);
      assert body[|body| - 1] == node.text[|node.text| - 1];
    } else {
      TrimIsIdentityOnTight(Python, "");
    }
    TrimIsIdentityOnTight(Python, body);
  }

  lemma ReadEntryHead(p: Pair, n: nat)
    requires IsEntry(p)
    ensures ReadLine(EntryHead(p, n).raw) == EntryHead(p, n)
  {
    hide ParseScalar, IsSpace, Trim, KeyOf, RestOf, ReadLine, TailText, TailValue;
    var body := p.key + ":" + TailText(p.node);
    KeyLine(p.key, p.node, body);
    EntryShape(p.key, TailText(p.node), body);
    ReadPaddedLine(n, body);
  }

  lemma ReadItemHead(item: Node, n: nat)
    requires IsItem(item)
    ensures ReadLine(ItemHead(item, n).raw) == ItemHead(item, n)
  {
    hide ParseScalar, IsSpace, Trim, KeyOf, RestOf, ReadLine, TailText, TailValue, OpensMapping;
    ColonIsNoSpace();
    var after :=
      if item.Written? then item.text else item.entries[0].key + ":" + TailText(item.entries[0].node);
    if item.Written? {
      TrimIsIdentityOnTight(Python, after);
      assert "-" + (" " + after) == "- " + after;
    } else {
      KeyLine(item.entries[0].key, item.entries[0].node, after);
    }
    var body := "- " + after;
    assert body[2..] == after && body[|body| - 1] == after[|after| - 1];
    ReadPaddedLine(n, body);
  }

  lemma {:induction false} ReadPrint(node: Node, n: nat)
    requires IsBlock(node) && IsNode(node)
    ensures ReadLines(Print(node, n)) == NodeTree(node, n)
    decreases node, 1
  {
    hide ReadLines;
    match node
    case Mapping(entries) => ReadPrintEntries(entries, n);
    case Listing(items) => ReadPrintItems(items, n);
  }

  lemma {:induction false} ReadPrintEntries(entries: seq<Pair>, n: nat)
    requires forall i :: 0 <= i < |entries| ==> IsEntry(entries[i])
    ensures ReadLines(PrintEntries(entries, n)) == EntryTree(entries, n)
    decreases entries, 0
  {
    hide ReadLine, ReadLines, Print, NodeTree, IsNode, IsWritten;
    if entries == [] {
      ReadNothing();
    } else {
      var p := entries[0];
      assert p in entries && IsEntry(p);
      ReadEntryHead(p, n);
      var head, below := EntryHead(p, n).raw, PrintBelow(p.node, n + 2);
      if IsBlock(p.node) { ReadPrint(p.node, n + 2); } else { ReadNothing(); }
      ReadPrintEntries(entries[1..], n);
      ReadOne(head);
      ReadLinesConcat([head], below);
      ReadLinesConcat([head] + below, PrintEntries(entries[1..], n));
    }
  }

  lemma {:induction false} ReadPrintItems(items: seq<Node>, n: nat)
    requires forall i :: 0 <= i < |items| ==> IsItem(items[i])
    ensures ReadLines(PrintItems(items, n)) == ItemTree(items, n)
    decreases items, 0
  {
    hide ReadLine, ReadLines, PrintEntries, EntryTree, IsNode, IsWritten, OpensMapping;
    if items == [] {
      ReadNothing();
    } else {
      var item := items[0];
      assert item in items && IsItem(item);
      ReadItemHead(item, n);
      var head := ItemHead(item, n).raw;
      var rest := if item.Mapping? then PrintEntries(item.entries[1..], n + 2) else [];
      if item.Mapping? { ReadPrintEntries(item.entries[1..], n + 2); } else { ReadNothing(); }
      ReadPrintItems(items[1..], n);
      ReadOne(head);
      ReadLinesConcat([head], rest);
      assert PrintItem(item, n) == [head] + rest;
      ReadLinesConcat(PrintItem(item, n), PrintItems(items[1..], n));
    }
  }

  // ---------------------------------------------------------------- parsing the lines

  /** A block begins at its indent; what follows it may be an entry of the mapping around it. */
  lemma TreeStarts(node: Node, n: nat)
    requires IsBlock(node) && IsNode(node)
    ensures NodeTree(node, n) != [] && NodeTree(node, n)[0].indent == n
    ensures node.Mapping? ==> NodeTree(node, n)[0].kind.Entry?
    ensures node.Listing? ==> NodeTree(node, n)[0].kind.Item?
  {
    match node
    case Mapping(entries) => assert IsEntry(entries[0]);
    case Listing(items) => assert IsItem(items[0]);
  }

  /** The lines behind a block end it: they stand further out, or are of the other kind at its own indent. */
  predicate Ends(post: seq<Line>, n: nat, mapping: bool) {
    post == [] || (!post[0].kind.Noise? &&
                   (post[0].indent < n || (post[0].indent == n && post[0].kind.Item? == mapping)))
  }

  lemma {:induction false} ParseTree(lines: seq<Line>, i: nat, indent: nat, node: Node, n: nat, post: seq<Line>)
    requires IsBlock(node) && IsNode(node) && indent <= n
    requires i <= |lines| && lines[i..] == NodeTree(node, n) + post && Ends(post, n, node.Mapping?)
    ensures ParseBlock(lines, i, indent) == Read(Some(Meaning(node)), i + |NodeTree(node, n)|)
    decreases node, 1
  {
    hide ParseMap, ParseList, EntryTree, ItemTree, IsEntry, IsItem, PutAll, Ends;
    TreeStarts(node, n);
    Slice(lines, i, NodeTree(node, n), post);
    match node
    case Mapping(entries) => ParseEntries(lines, i, entries, n, map[], post);
    case Listing(items) =>
      ParseItems(lines, i, items, n, [], post);
      assert [] + Meanings(items) == Meaning(node).items;
  }

  function Meanings(items: seq<Node>): seq<Value> {
    seq(|items|, i requires 0 <= i < |items| => Meaning(items[i]))
  }

  lemma {:induction false} ParseEntries(lines: seq<Line>, i: nat, entries: seq<Pair>, n: nat,
                                        result: map<string, Value>, post: seq<Line>)
    requires forall k :: 0 <= k < |entries| ==> IsEntry(entries[k])
    requires i <= |lines| && lines[i..] == EntryTree(entries, n) + post && Ends(post, n, true)
    ensures ParseMap(lines, i, n, result) == Read(PutAll(result, entries), i + |EntryTree(entries, n)|)
    decreases entries, 0
  {
    hide ParseMap, ParseBlock, Ends, NodeTree, Meaning, IsEntry, EntryHead;
    if entries == [] {
      MapEnds(lines, i, n, result, post);
    } else {
      var p, rest := entries[0], EntryTree(entries[1..], n);
      assert p in entries;
      assert StaysOut(post, n) by { EndsStaysOut(post, n); }
      var next := EntrySlices(lines, i, EntryHead(p, n), BelowTree(p.node, n + 2), rest, post);
      ParseEntry(lines, i, p, n, result, entries[1..], post);
      ParseEntries(lines, next, entries[1..], n, result[p.key := Meaning(p.node)], post);
    }
  }

  /** The lines behind a block stand no deeper than it. */
  predicate StaysOut(post: seq<Line>, n: nat) {
    post == [] || (!post[0].kind.Noise? && post[0].indent <= n)
  }

  lemma EndsStaysOut(post: seq<Line>, n: nat)
    requires Ends(post, n, true)
    ensures StaysOut(post, n)
  {
  }

  lemma MapEnds(lines: seq<Line>, i: nat, n: nat, result: map<string, Value>, post: seq<Line>)
    requires i <= |lines| && lines[i..] == post && Ends(post, n, true)
    ensures ParseMap(lines, i, n, result) == Read(result, i)
  {
    assert i < |lines| ==> lines[i] == post[0];
  }

  /** One turn of the mapping loop. */
  lemma {:induction false} ParseEntry(lines: seq<Line>, i: nat, p: Pair, n: nat, result: map<string, Value>,
                                      others: seq<Pair>, post: seq<Line>)
    requires IsEntry(p) && i < |lines| && lines[i] == EntryHead(p, n)
    requires lines[i + 1..] == BelowTree(p.node, n + 2) + (EntryTree(others, n) + post) && StaysOut(post, n)
    ensures i + 1 + |BelowTree(p.node, n + 2)| <= |lines|
    ensures ParseMap(lines, i, n, result) ==
            ParseMap(lines, i + 1 + |BelowTree(p.node, n + 2)|, n, result[p.key := Meaning(p.node)])
    decreases p, 0
  {
    hide ParseMap, ParseBlock, NodeTree, PutAll, IsWritten, ParseScalar;
    var below, after := BelowTree(p.node, n + 2), EntryTree(others, n) + post;
    Slice(lines, i + 1, below, after);
    var raw := lines[i].raw;
    if p.node.Written? {
      MapLeaf(lines, i, n, result, raw, p.key, ParseScalar(p.node.text));
    } else {
      assert Closes(after, n + 2) && Ends(after, n + 2, true) && Ends(after, n + 2, false) by {
        if others != [] { assert after[0] == EntryHead(others[0], n); }
      }
      if p.node.Absent? {
        MapBare(lines, i, n, result, raw, p.key, after);
      } else {
        ParseTree(lines, i + 1, n + 2, p.node, n + 2, after);
        MapNested(lines, i, n, result, raw, p.key, Meaning(p.node), i + 1 + |below|);
      }
    }
  }

  lemma MapBare(lines: seq<Line>, i: nat, n: nat, result: map<string, Value>, raw: string, key: string,
                after: seq<Line>)
    requires i < |lines| && lines[i] == Line(raw, n, Entry(key, None)) && lines[i + 1..] == after
    requires Closes(after, n + 2)
    ensures ParseMap(lines, i, n, result) == ParseMap(lines, i + 1, n, result[key := Map(map[])])
  {
    assert i + 1 < |lines| ==> lines[i + 1] == after[0];
    assert ParseBlock(lines, i + 1, n + 2) == Read(None, i + 1);
  }

  lemma {:induction false} ParseItems(lines: seq<Line>, i: nat, items: seq<Node>, n: nat, result: seq<Value>,
                                      post: seq<Line>)
    requires forall k :: 0 <= k < |items| ==> IsItem(items[k])
    requires i <= |lines| && lines[i..] == ItemTree(items, n) + post && Ends(post, n, false)
    ensures ParseList(lines, i, n, result) == Read(result + Meanings(items), i + |ItemTree(items, n)|)
    decreases items, 0
  {
    hide ParseMap, ParseList, Ends, EntryTree, Meaning, ItemHead, IsNode, IsEntry, IsWritten, OpensMapping;
    if items == [] {
      ListEnds(lines, i, n, result, post);
      assert result + Meanings(items) == result;
    } else {
      var item, rest := items[0], ItemTree(items[1..], n);
      assert item in items && IsItem(item);
      var next := EntrySlices(lines, i, ItemHead(item, n), ItemRest(item, n), rest, post);
      ParseItem(lines, i, item, n, result, items[1..], post);
      ParseItems(lines, next, items[1..], n, result + [Meaning(item)], post);
      assert result + [Meaning(item)] + Meanings(items[1..]) == result + Meanings(items);
    }
  }

  lemma ListEnds(lines: seq<Line>, i: nat, n: nat, result: seq<Value>, post: seq<Line>)
    requires i <= |lines| && lines[i..] == post && Ends(post, n, false)
    ensures ParseList(lines, i, n, result) == Read(result, i)
  {
    assert i < |lines| ==> lines[i] == post[0];
  }

  /** One turn of the list loop: what stands behind the dash and the entries below it make one mapping. */
  lemma {:induction false} ParseItem(lines: seq<Line>, i: nat, item: Node, n: nat, result: seq<Value>,
                                     others: seq<Node>, post: seq<Line>)
    requires IsItem(item) && i < |lines| && lines[i] == ItemHead(item, n)
    requires lines[i + 1..] == ItemRest(item, n) + (ItemTree(others, n) + post) && Ends(post, n, false)
    ensures i + 1 + |ItemRest(item, n)| <= |lines|
    ensures ParseList(lines, i, n, result) ==
            ParseList(lines, i + 1 + |ItemRest(item, n)|, n, result + [Meaning(item)])
    decreases item, 0
  {
    hide ParseMap, ParseList, EntryTree, PutAll, IsWritten, ParseScalar, OpensMapping, IsEntry;
    var after := ItemTree(others, n) + post;
    var next := i + 1 + |ItemRest(item, n)|;
    Slice(lines, i + 1, ItemRest(item, n), after);
    if item.Written? {
      ListSingle(lines, i, n, result, lines[i].raw, ParseScalar(item.text));
    } else {
      assert Closes(after, n + 2) && Ends(after, n + 2, true) && Ends(after, n + 2, false) by {
        if ItemTree(others, n) != [] { assert after[0] == ItemHead(others[0], n); }
      }
      var first, others := item.entries[0], item.entries[1..];
      ParseEntries(lines, i + 1, others, n + 2, map[], after);
      ListOpens(lines, i, n, result, lines[i].raw, first.key, TailValue(first.node), PutAll(map[], others), next);
      ItemMeaning(item);
    }
  }

  lemma ListSingle(lines: seq<Line>, i: nat, n: nat, result: seq<Value>, raw: string, scalar: Value)
    requires i < |lines| && lines[i] == Line(raw, n, Item(Single(scalar)))
    ensures ParseList(lines, i, n, result) == ParseList(lines, i + 1, n, result + [scalar])
  {
  }

  lemma ListOpens(lines: seq<Line>, i: nat, n: nat, result: seq<Value>, raw: string, key: string,
                  value: Option<Value>, extra: map<string, Value>, next: nat)
    requires i < |lines| && lines[i] == Line(raw, n, Item(Opening(key, value)))
    requires ParseMap(lines, i + 1, n + 2, map[]) == Read(extra, next)
    ensures ParseList(lines, i, n, result) == ParseList(lines, next, n, result + [Map(Seed(key, value) + extra)])
  {
  }

  lemma ItemMeaning(item: Node)
    requires IsItem(item) && item.Mapping?
    ensures var first := item.entries[0];
            Map(Seed(first.key, TailValue(first.node)) + PutAll(map[], item.entries[1..])) == Meaning(item)
  {
    hide ParseScalar;
    var first, others := item.entries[0], item.entries[1..];
    var seed := Seed(first.key, TailValue(first.node));
    PutOver(seed, map[], others);
    assert seed + map[] == seed;
    assert seed == map[][first.key := Meaning(first.node)];
  }

  // ---------------------------------------------------------------- main results

  /** A written block is read as what it means, at any place, at any indent and before any text that ends it. */
  lemma WrittenIsRead(pre: seq<string>, node: Node, n: nat, post: seq<string>, indent: nat)
    requires IsBlock(node) && IsNode(node) && indent <= n
    requires Ends(ReadLines(post), n, node.Mapping?)
    ensures ParseBlock(ReadLines(pre + Print(node, n) + post), |pre|, indent) ==
            Read(Some(Meaning(node)), |pre| + |Print(node, n)|)
  {
    hide ReadLines, Print, NodeTree, IsNode, Meaning;
    var lines := ReadLines(pre + Print(node, n) + post);
    ReadPrint(node, n);
    ReadLinesConcat(pre + Print(node, n), post);
    ReadLinesConcat(pre, Print(node, n));
    ReadKeepsLength(pre);
    ReadKeepsLength(Print(node, n));
    assert lines == ReadLines(pre) + (NodeTree(node, n) + ReadLines(post));
    assert lines[|pre|..] == NodeTree(node, n) + ReadLines(post);
    ParseTree(lines, |pre|, indent, node, n, ReadLines(post));
  }

  /** A document on lines of its own loads to what it means. */
  lemma WrittenIsLoaded(node: Node)
    requires IsBlock(node) && IsNode(node) && AllOneLine(Print(node, 0))
    ensures LoadText(Unlines(Print(node, 0))) == Doc(Meaning(node))
  {
    hide ReadLines, Print, NodeTree, IsNode, ParseBlock, PyLines, Unlines, AllOneLine;
    ReadPrint(node, 0);
    TreeStarts(node, 0);
    ReadKeepsLength(Print(node, 0));
    PyLinesOfUnlines(Print(node, 0));
    var lines := ReadLines(Print(node, 0));
    assert lines[0..] == NodeTree(node, 0) + [];
    ParseTree(lines, 0, 0, node, 0, []);
  }

  /**
   * Only a text fits behind the key that opens an item. With a block below it, at the indent that the entries of that
   * key would have, the whole document is refused at the first line of the block.
   */
  lemma BlockBehindDashIsRefused(pre: seq<string>, key: string, node: Node, n: nat, m: nat, post: seq<string>,
                                 indent: nat)
    requires OpensWith(key) && IsBlock(node) && IsNode(node) && indent <= n && n + 2 < m
    ensures var dash := Spaces(n) + ("- " + (key + ":" + TailText(node)));
            Print(node, m) != [] &&
            ParseBlock(ReadLines(pre + [dash] + Print(node, m) + post), |pre|, indent) ==
            Failed(UnexpectedIndent(Print(node, m)[0]))
  {
    hide ReadLine, ReadLines, Print, NodeTree, IsNode, IsWritten, OpensMapping, ParseBlock;
    var item := Mapping([Pair(key, Absent)]);
    assert IsItem(item) by { assert item.entries[0].node == Absent; IsNodeOfNothing(); }
    ReadItemHead(item, n);
    var dash, tree := ItemHead(item, n), NodeTree(node, m);
    assert TailText(node) == TailText(Absent);
    ReadPrint(node, m);
    TreeStarts(node, m);
    ReadKeepsLength(Print(node, m));
    ReadKeepsLength(pre);
    ReadOne(dash.raw);
    ReadLinesConcat(pre, [dash.raw]);
    ReadLinesConcat(pre + [dash.raw], Print(node, m));
    ReadLinesConcat(pre + [dash.raw] + Print(node, m), post);
    var lines := ReadLines(pre + [dash.raw] + Print(node, m) + post);
    assert lines == ReadLines(pre) + [dash] + tree + ReadLines(post);
    assert lines[|pre|] == dash && lines[|pre| + 1] == tree[0];
    assert tree[0].raw == Print(node, m)[0] by { ReadFirst(Print(node, m)); }
    DeeperLineIsRefused(lines, |pre|, indent, dash, key);
  }

  lemma IsNodeOfNothing()
    ensures IsNode(Absent)
  {
  }

  lemma ReadFirst(lines: seq<string>)
    requires lines != []
    ensures ReadLines(lines)[0].raw == lines[0]
  {
  }

  lemma DeeperLineIsRefused(lines: seq<Line>, i: nat, indent: nat, dash: Line, key: string)
    requires i + 1 < |lines| && lines[i] == dash && dash.kind == Item(Opening(key, None)) && indent <= dash.indent
    requires lines[i + 1].indent > dash.indent + 2 && !lines[i + 1].kind.Noise?
    ensures ParseBlock(lines, i, indent) == Failed(UnexpectedIndent(lines[i + 1].raw))
  {
    assert ParseMap(lines, i + 1, dash.indent + 2, map[]).Failed?;
    assert ParseList(lines, i, dash.indent, []).Failed?;
  }

  /** A dash is never left bare: the padding behind it goes with the padding of the line. */
  lemma NoBareItems(raw: string)
    ensures ReadLine(raw).kind != Item(Bare)
  {
    hide TrimStart, TrimEnd, Trim, IsSpace, KeyOf, RestOf, OpensMapping, ParseScalar;
    var t := Trim(Python, raw);
    TrimIsTight(Python, raw);
    if StartsWith(t, "- ") {
      SpaceIsSpace();
      var after := t[2..];
      assert after != "" && after[|after| - 1] == t[|t| - 1];
      EndSurvivesTrim(after);
    }
  }

  lemma SpaceIsSpace()
    ensures IsSpace(Python, ' ')
  {
  }

  lemma EndSurvivesTrim(s: string)
    requires s != "" && !IsSpace(Python, s[|s| - 1])
    ensures Trim(Python, s) != ""
  {
    hide IsSpace;
    TrimStartShape(Python, s);
    TrimEndShape(Python, TrimStart(Python, s));
  }

  /** A runtime profile: each package keeps the version that stands under its name, whatever the two texts are. */
  lemma PackageIsLoaded(name: string, version: string)
    requires OneLine(name) && OneLine(version)
    ensures LoadText(Unlines(["packages:", "  - name: " + Quote(name), "    version: " + Quote(version)])) ==
            Doc(Map(map["packages" := List([Map(map["name" := Str(name), "version" := Str(version)])])]))
  {
    hide ParseScalar, LoadText, Unlines, Quote, Print, IsNode, Meaning, IsSpace;
    var first, second := Pair("name", Written(Quote(name))), Pair("version", Written(Quote(version)));
    var item := Mapping([first, second]);
    var packages := Pair("packages", Listing([item]));
    QuotedIsWritten(name);
    QuotedIsWritten(version);
    PackageIsNode(first, second, item, packages);
    PackagePrints(first, second, item, packages);
    PackageMeans(first, second, item, packages);
    assert AllOneLine(Print(Mapping([packages]), 0)) by { QuoteFitsLine(name); QuoteFitsLine(version); }
    WrittenIsLoaded(Mapping([packages]));
  }

  lemma QuotedIsWritten(s: string)
    ensures IsWritten(Quote(s)) && ParseScalar(Quote(s)) == Str(s)
  {
    hide IsSpace, ParseScalar;
    QuotedRoundTrip(s);
  }

  lemma QuoteFitsLine(s: string)
    requires OneLine(s)
    ensures OneLine(Quote(s))
  {
    EscapeFitsLine(s);
  }

  lemma PackageIsNode(first: Pair, second: Pair, item: Node, packages: Pair)
    requires first.key == "name" && second.key == "version" && packages == Pair("packages", Listing([item]))
    requires first.node.Written? && IsWritten(first.node.text) && second.node.Written? && IsWritten(second.node.text)
    requires item == Mapping([first, second])
    ensures IsNode(Mapping([packages]))
  {
    hide IsWritten;
    assert first.key[0] == 'n' && second.key[0] == 'v' && packages.key[0] == 'p';
    assert IsNode(first.node) && IsNode(second.node);
    assert OpensWith(first.key) && KeySurvives(second.key) && KeySurvives(packages.key);
    assert item.entries[0] == first && item.entries[1] == second;
    assert IsItem(item);
    assert IsNode(packages.node) by { assert packages.node.items == [item]; }
    assert IsEntry(packages);
  }

  lemma PackagePrints(first: Pair, second: Pair, item: Node, packages: Pair)
    requires first.key == "name" && second.key == "version" && packages == Pair("packages", Listing([item]))
    requires first.node.Written? && second.node.Written? && item == Mapping([first, second])
    ensures Print(Mapping([packages]), 0) ==
            ["packages:", "  - name: " + first.node.text, "    version: " + second.node.text]
  {
    assert PrintEntries([second], 4) == ["    version: " + second.node.text] by {
      assert [second][1..] == [] && Spaces(4) == "    ";
      assert Spaces(4) + ("version" + ":" + (" " + second.node.text)) == "    version: " + second.node.text;
    }
    assert PrintItem(item, 2) == ["  - name: " + first.node.text, "    version: " + second.node.text] by {
      assert [first, second][1..] == [second] && Spaces(2) == "  ";
      assert Spaces(2) + ("- " + ("name" + ":" + (" " + first.node.text))) == "  - name: " + first.node.text;
    }
    assert PrintItems([item], 2) == PrintItem(item, 2) by { assert [item][1..] == []; }
    assert Print(packages.node, 2) == PrintItems([item], 2);
    assert [packages][1..] == [] && Spaces(0) == "" && PrintEntries([], 0) == [];
    assert Spaces(0) + ("packages" + ":" + "") == "packages:";
    assert PrintEntries([packages], 0) == ["packages:"] + Print(packages.node, 2) + [];
  }

  lemma PackageMeans(first: Pair, second: Pair, item: Node, packages: Pair)
    requires first.key == "name" && second.key == "version" && packages == Pair("packages", Listing([item]))
    requires first.node.Written? && second.node.Written? && item == Mapping([first, second])
    ensures Meaning(Mapping([packages])) ==
            Map(map["packages" := List([Map(map["name" := ParseScalar(first.node.text),
                                                "version" := ParseScalar(second.node.text)])])])
  {
    hide ParseScalar;
    var a, b := Meaning(first.node), Meaning(second.node);
    assert [first, second][1..] == [second] && [second][1..] == [] && [packages][1..] == [];
    assert PutAll(map["name" := a], [second]) == map["name" := a, "version" := b];
    assert PutAll(map[], [first, second]) == PutAll(map["name" := a], [second]);
    assert Meaning(Listing([item])) == List([Meaning(item)]);
    assert PutAll(map[], [packages]) == map["packages" := List([Meaning(item)])];
  }
}
