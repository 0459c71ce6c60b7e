/** The loops of the printer and of the parser, each proved to compute its function over lines. */
module SimpleYamlLoops {
  import opened Text
  import Y = SimpleYaml
  import opened SimpleYaml
  import opened SimpleYamlText

  // ---------------------------------------------------------------- printer

  /** `sorted(value.keys())` */
  method Sorted(keys: set<string>) returns (r: seq<string>)
    ensures r == SortedKeys(keys)
  {
    hide SortedKeys, LexLeq;
    r := [];
    var rest := keys;
    assert r + SortedKeys(rest) == SortedKeys(keys);
    while rest != {}
      invariant r + SortedKeys(rest) == SortedKeys(keys)
      decreases |rest|
    {
      LeastKeyExists(rest);
      var k :| k in rest && forall j :: j in rest ==> LexLeq(k, j);
      SortedKeysStep(rest, k);
      assert r + ([k] + SortedKeys(rest - {k})) == r + [k] + SortedKeys(rest - {k});
      r, rest := r + [k], rest - {k};
    }
    NoKeysSorted();
    assert r + [] == r;
  }

  lemma NoKeysSorted()
    ensures SortedKeys({}) == []
  {
  }

  lemma SortedKeysStep(keys: set<string>, k: string)
    requires IsLeastKey(k, keys)
    ensures SortedKeys(keys) == [k] + SortedKeys(keys - {k})
  {
    forall j | IsLeastKey(j, keys) ensures j == k {
      LexLeqTotal(j, k);
    }
  }

  lemma EntryThenRest(v: Value, keys: seq<string>, i: nat, indent: nat)
    requires v.Map? && i < |keys| && forall k :: k in keys ==> k in v.entries
    ensures MapLines(v, keys[i..], indent) ==
              EntryLines(keys[i], v.entries[keys[i]], indent) + MapLines(v, keys[i + 1..], indent)
  {
    assert keys[i..][1..] == keys[i + 1..];
  }

  lemma ItemThenRest(items: seq<Value>, i: nat, indent: nat)
    requires i < |items|
    ensures ListLines(items[i..], indent) == ItemLines(items[i], indent) + ListLines(items[i + 1..], indent)
  {
    assert items[i..][1..] == items[i + 1..];
  }

  lemma NothingMore(v: Value, indent: nat)
    ensures v.Map? ==> MapLines(v, [], indent) == []
    ensures ListLines([], indent) == []
  {
  }

  /** The list of lines the printer appends to. */
  class LineBuffer {
    var lines: seq<string>

    constructor ()
      ensures lines == []
    {
      lines := [];
    }

    /** `_dump_value` */
    method DumpValue(v: Value, indent: nat, inlineEmpty: bool)
      modifies this
      ensures lines ==
              if IsEmptyContainer(v) && inlineEmpty && old(lines) != []
              then old(lines)[..|old(lines)| - 1] + [old(lines)[|old(lines)| - 1] + InlineText(v)]
              else old(lines) + Lines(v, indent)
      decreases v, 1
    {
      hide FormatScalar, MapLines, ListLines, SortedKeys;
      var prefix := Spaces(indent);
      if v == Map(map[]) {
        if inlineEmpty && lines != [] {
          lines := lines[..|lines| - 1] + [lines[|lines| - 1] + " {}"];
        } else {
          lines := lines + [prefix + "{}"];
        }
      } else if v == List([]) {
        if inlineEmpty && lines != [] {
          lines := lines[..|lines| - 1] + [lines[|lines| - 1] + " []"];
        } else {
          lines := lines + [prefix + "[]"];
        }
      } else if v.Map? {
        DumpEntries(v, indent);
      } else if v.List? {
        DumpItems(v.items, indent);
      } else {
        lines := lines + [prefix + FormatScalar(v)];
      }
    }

    /** `_dump_value` on a filled mapping. */
    method DumpEntries(v: Value, indent: nat)
      requires v.Map?
      modifies this
      ensures lines == old(lines) + MapLines(v, SortedKeys(v.entries.Keys), indent)
      decreases v, 0
    {
      hide MapLines, Lines, SortedKeys, EntryLines;
      var keys := Sorted(v.entries.Keys);
      var i := 0;
      assert keys[0..] == keys;
      while i < |keys|
        invariant i <= |keys|
        invariant lines + MapLines(v, keys[i..], indent) == old(lines) + MapLines(v, keys, indent)
      {
        var key := keys[i];
        assert key in keys;
        var child := v.entries[key];
        ghost var before := lines;
        DumpEntry(key, child, indent);
        EntryThenRest(v, keys, i, indent);
        assert before + (EntryLines(key, child, indent) + MapLines(v, keys[i + 1..], indent)) ==
                 lines + MapLines(v, keys[i + 1..], indent);
        i := i + 1;
      }
      NothingMore(v, indent);
      assert keys[i..] == [] && lines + [] == lines;
    }

    /** One key of a mapping. */
    method DumpEntry(key: string, child: Value, indent: nat)
      modifies this
      ensures lines == old(lines) + EntryLines(key, child, indent)
      decreases child, 2
    {
      hide FormatScalar, Lines;
      var prefix := Spaces(indent);
      if child == Map(map[]) {
        lines := lines + [prefix + (key + ":" + " {}")];
      } else if child == List([]) {
        lines := lines + [prefix + (key + ":" + " []")];
      } else if IsContainer(child) {
        lines := lines + [prefix + (key + ":" + "")];
        DumpValue(child, indent + 2, true);
      } else {
        lines := lines + [prefix + (key + ":" + (" " + FormatScalar(child)))];
      }
    }

    /** `_dump_value` on a filled list. */
    method DumpItems(items: seq<Value>, indent: nat)
      modifies this
      ensures lines == old(lines) + ListLines(items, indent)
      decreases items, 0
    {
      hide FormatScalar, ListLines, Lines;
      var prefix, i := Spaces(indent), 0;
      assert items[0..] == items;
      while i < |items|
        invariant i <= |items|
        invariant lines + ListLines(items[i..], indent) == old(lines) + ListLines(items, indent)
      {
        var item := items[i];
        ghost var before := lines;
        if IsContainer(item) {
          lines := lines + [prefix + "-"];
          DumpValue(item, indent + 2, true);
          DashThenInline(indent, item);
        } else {
          lines := lines + [prefix + ("-" + (" " + FormatScalar(item)))];
        }
        assert lines == before + ItemLines(item, indent);
        ItemThenRest(items, i, indent);
        assert before + (ItemLines(item, indent) + ListLines(items[i + 1..], indent)) ==
                 lines + ListLines(items[i + 1..], indent);
        i := i + 1;
      }
      NothingMore(List(items), indent);
      assert items[i..] == [] && lines + [] == lines;
    }
  }

  lemma DashThenInline(indent: nat, item: Value)
    ensures Spaces(indent) + "-" + InlineText(item) == Spaces(indent) + ("-" + InlineText(item))
    ensures IsFilledContainer(item) ==> Spaces(indent) + "-" == Spaces(indent) + ("-" + InlineText(item))
  {
    hide FormatScalar;
    if IsFilledContainer(item) { assert InlineText(item) == "" && "-" + "" == "-"; }
  }

  // ---------------------------------------------------------------- parser

  /** `_parse_block` */
  method ParseBlock(lines: seq<string>, start: nat, indent: nat) returns (r: Parsed<Option<Value>>)
    requires start <= |lines|
    ensures r == Y.ParseBlock(ReadLines(lines), start, indent)
    decreases |lines| - start, 1
  {
    hide Trim, TrimStart, IsNoise, KindOf, Indent;
    ghost var view := ReadLines(lines);
    var index := start;
    while index < |lines|
      invariant start <= index <= |lines|
      invariant Y.ParseBlock(view, index, indent) == Y.ParseBlock(view, start, indent)
    {
      var raw := lines[index];
      assert view[index] == ReadLine(raw);
      if IsNoise(raw) {
        index := index + 1;
        continue;
      }
      KindFacts(Trim(Python, raw));
      var current := Indent(raw);
      if current < indent {
        return Read(None, index);
      }
      var stripped := Trim(Python, raw);
      if StartsWith(stripped, "- ") {
        var items := ParseList(lines, index, current);
        match items
        case Read(value, next) => return Read(Some(List(value)), next);
        case Failed(e) => return Failed(e);
      }
      if ':' in stripped {
        var entries := ParseMap(lines, index, current);
        match entries
        case Read(value, next) => return Read(Some(Map(value)), next);
        case Failed(e) => return Failed(e);
      }
      return Read(Some(ParseScalar(stripped)), index + 1);
    }
    return Read(None, index);
  }

  /** The tests of the loops in terms of the classified line. */
  lemma KindFacts(stripped: string)
    ensures KindOf(stripped).Item? <==> StartsWith(stripped, "- ")
    ensures KindOf(stripped).Item? ==> KindOf(stripped).item == ItemBodyOf(Trim(Python, stripped[2..]))
    ensures KindOf(stripped).Entry? <==> !StartsWith(stripped, "- ") && ':' in stripped
    ensures KindOf(stripped).Entry? ==>
              KindOf(stripped) == Entry(KeyOf(stripped), ValueOf(RestOf(stripped)))
    ensures !StartsWith(stripped, "- ") && ':' !in stripped ==> KindOf(stripped) == Plain(ParseScalar(stripped))
    ensures !KindOf(stripped).Noise?
  {
    hide ParseScalar, KeyOf, RestOf, ItemBodyOf;
  }

  /** `_parse_map` */
  method ParseMap(lines: seq<string>, start: nat, indent: nat) returns (r: Parsed<map<string, Value>>)
    requires start <= |lines|
    ensures r == Y.ParseMap(ReadLines(lines), start, indent, map[])
    decreases |lines| - start, 0
  {
    hide Trim, TrimStart, IsNoise, KindOf, Indent, KeyOf, RestOf, ParseScalar;
    ghost var view := ReadLines(lines);
    var index, result := start, map[];
    while index < |lines|
      invariant start <= index <= |lines|
      invariant Y.ParseMap(view, index, indent, result) == Y.ParseMap(view, start, indent, map[])
    {
      var raw := lines[index];
      assert view[index] == ReadLine(raw);
      if IsNoise(raw) {
        index := index + 1;
        continue;
      }
      KindFacts(Trim(Python, raw));
      var current := Indent(raw);
      if current < indent {
        break;
      }
      if current > indent {
        return Failed(UnexpectedIndent(raw));
      }
      var stripped := Trim(Python, raw);
      if StartsWith(stripped, "- ") {
        break;
      }
      if ':' !in stripped {
        return Failed(ExpectedMapping(raw));
      }
      var key, rest := KeyOf(stripped), RestOf(stripped);
      index := index + 1;
      if rest != "" {
        result := result[key := ParseScalar(rest)];
        continue;
      }
      var child := ParseBlock(lines, index, indent + 2);
      match child
      case Read(value, next) =>
        result := result[key := if value.None? || value.value.Null? then Map(map[]) else value.value];
        index := next;
      case Failed(e) =>
        return Failed(e);
    }
    return Read(result, index);
  }

  /** `_parse_list` */
  method ParseList(lines: seq<string>, start: nat, indent: nat) returns (r: Parsed<seq<Value>>)
    requires start <= |lines|
    ensures r == Y.ParseList(ReadLines(lines), start, indent, [])
    decreases |lines| - start, 0
  {
    hide Trim, TrimStart, IsNoise, KindOf, Indent, KeyOf, RestOf, ParseScalar;
    ghost var view := ReadLines(lines);
    var index, result := start, [];
    while index < |lines|
      invariant start <= index <= |lines|
      invariant Y.ParseList(view, index, indent, result) == Y.ParseList(view, start, indent, [])
    {
      var raw := lines[index];
      assert view[index] == ReadLine(raw);
      if IsNoise(raw) {
        index := index + 1;
        continue;
      }
      KindFacts(Trim(Python, raw));
      var current := Indent(raw);
      if current < indent {
        break;
      }
      var stripped := Trim(Python, raw);
      if !StartsWith(stripped, "- ") {
        break;
      }
      var item := Trim(Python, stripped[2..]);
      index := index + 1;
      if item == "" {
        var child := ParseBlock(lines, index, indent + 2);
        match child {
          case Read(value, next) =>
            result := result + [if value.None? || value.value.Null? then Map(map[]) else value.value];
            index := next;
          case Failed(e) =>
            return Failed(e);
        }
        continue;
      }
      if OpensMapping(item) {
        var key, rest := KeyOf(item), RestOf(item);
        var nested := map[key := if rest != "" then ParseScalar(rest) else Map(map[])];
        var extra := ParseMap(lines, index, indent + 2);
        match extra {
          case Read(entries, next) =>
            result := result + [Map(nested + entries)];
            index := next;
          case Failed(e) =>
            return Failed(e);
        }
        continue;
      }
      result := result + [ParseScalar(item)];
    }
    return Read(result, index);
  }

  // ---------------------------------------------------------------- whole texts

  /** `dump_yaml` */
  method DumpYaml(v: Value) returns (text: string)
    ensures text == DumpText(v)
  {
    hide Lines;
    var buffer := new LineBuffer();
    buffer.DumpValue(v, 0, false);
    assert [] + Lines(v, 0) == Lines(v, 0);
    text := Unlines(buffer.lines);
  }

  /** `load_yaml` */
  method LoadYaml(text: string) returns (r: Loaded)
    ensures r == LoadText(text)
  {
    hide Y.ParseBlock;
    var block := ParseBlock(PyLines(text, ""), 0, 0);
    match block
    case Failed(e) => r := Malformed(e);
    case Read(value, next) => r := if value.None? || value.value.Null? then EmptyDocument else Doc(value.value);
  }
}
