/**
 * Texts the printer does not write: scalars in other spellings, documents with nothing in them, values on a line of
 * their own, dashes at several indents, and blocks that change their kind half way.
 */
module SimpleYamlForms {
  import opened Text
  import opened Quoting
  import opened SimpleYaml
  import opened SimpleYamlScalars
  import opened SimpleYamlRoundTrip
  import opened SimpleYamlText
  import opened SimpleYamlWritten

  // ---------------------------------------------------------------- words and quotes

  /** The words that stand for something, and nothing else does. */
  lemma WordsIff(text: string)
    ensures ParseScalar(text) == Null <==> text in {"", "~", "null"}
    ensures ParseScalar(text) == Bool(true) <==> text in {"true", "True"}
    ensures ParseScalar(text) == Bool(false) <==> text in {"false", "False"}
    ensures ParseScalar(text) == Map(map[]) <==> text == "{}"
    ensures ParseScalar(text) == List([]) <==> text == "[]"
  {
    hide IsFloatText, IsIntText, IntValue;
  }

  /** Between single quotes everything is as it stands. */
  lemma SingleQuotedIsRead(s: string)
    ensures ParseScalar("'" + s + "'") == Str(s)
  {
    hide IsFloatText, IsIntText, IntValue;
    var t := "'" + s + "'";
    assert t[0] == '\'' && t[|t| - 1] == '\'' && t[1..|t| - 1] == s;
  }

  // ---------------------------------------------------------------- integers

  predicate AreDigits(s: string) {
    s != "" && forall i :: 0 <= i < |s| ==> '0' <= s[i] <= '9'
  }

  /** The number that digits stand for. */
  function NumberOf(digits: string): nat
    requires forall i :: 0 <= i < |digits| ==> '0' <= digits[i] <= '9'
  {
    if digits == "" then 0
    else 10 * NumberOf(digits[..|digits| - 1]) + (digits[|digits| - 1] - '0') as nat
  }

  function Flat(groups: seq<string>): string {
    if groups == [] then "" else groups[0] + Flat(groups[1..])
  }

  lemma {:induction false} ValueOfDigits(s: string, acc: nat)
    requires forall i :: 0 <= i < |s| ==> '0' <= s[i] <= '9'
    ensures s != "" ==>
              DigitsValue(s, acc) == 10 * DigitsValue(s[..|s| - 1], acc) + (s[|s| - 1] - '0') as nat
  {
    if s != "" {
      assert s == s[..|s| - 1] + [s[|s| - 1]];
      DigitsValueSnoc(s[..|s| - 1], s[|s| - 1], acc);
    }
  }

  lemma {:induction false} NumberIsValue(s: string)
    requires forall i :: 0 <= i < |s| ==> '0' <= s[i] <= '9'
    ensures DigitsValue(s, 0) == NumberOf(s)
  {
    if s != "" {
      ValueOfDigits(s, 0);
      NumberIsValue(s[..|s| - 1]);
    }
  }

  lemma {:induction false} ValueOfGroups(s: string, t: string, acc: nat)
    requires forall i :: 0 <= i < |s| ==> '0' <= s[i] <= '9'
    ensures DigitsValue(s + t, acc) == DigitsValue(t, DigitsValue(s, acc))
  {
    if s == "" {
      assert s + t == t;
    } else {
      assert (s + t)[1..] == s[1..] + t && (s + t)[0] == s[0];
      ValueOfGroups(s[1..], t, 10 * acc + (s[0] - '0') as nat);
    }
  }

  lemma {:induction false} TailOfDigits(s: string, t: string)
    requires (forall i :: 0 <= i < |s| ==> '0' <= s[i] <= '9') && IsDigitsTail(t)
    ensures IsDigitsTail(s + t)
  {
    if s == "" {
      assert s + t == t;
    } else {
      assert (s + t)[1..] == s[1..] + t && (s + t)[0] == s[0];
      TailOfDigits(s[1..], t);
    }
  }

  /** Groups of digits with single underscores between them. */
  lemma {:induction false} GroupsAreDigits(groups: seq<string>, acc: nat)
    requires groups != [] && forall i :: 0 <= i < |groups| ==> AreDigits(groups[i])
    ensures var t := Join(groups, "_");
            IsDigits(t) && (forall c :: c in t ==> IsDigit(c) || c == '_') && IsDigit(t[|t| - 1]) &&
            DigitsValue(t, acc) == DigitsValue(Flat(groups), acc)
    decreases |groups|
  {
    var g, t := groups[0], Join(groups, "_");
    assert AreDigits(g);
    if |groups| == 1 {
      TailOfDigits(g[1..], "");
      assert g[1..] + "" == g[1..] && groups[1..] == [] && Flat(groups) == g + "" && g + "" == g;
    } else {
      var rest := Join(groups[1..], "_");
      GroupsAreDigits(groups[1..], DigitsValue(g, acc));
      assert t == g + "_" + rest && t == g + ("_" + rest);
      assert ("_" + rest)[1..] == rest && ("_" + rest)[2..] == rest[1..];
      assert IsDigitsTail("_" + rest);
      TailOfDigits(g[1..], "_" + rest);
      assert t[1..] == g[1..] + ("_" + rest);
      ValueOfGroups(g, "_" + rest, acc);
      ValueOfGroups(g, Flat(groups[1..]), acc);
      assert t[|t| - 1] == rest[|rest| - 1];
      forall c | c in t ensures IsDigit(c) || c == '_' {
        assert c in g || c == '_' || c in rest;
      }
    }
  }

  function Signed(sign: string, n: int): int {
    if sign == "-" then -n else n
  }

  /** An integer may have a sign, leading zeros, and underscores between its digits. */
  lemma GroupedIntIsRead(sign: string, groups: seq<string>)
    requires sign in {"", "+", "-"} && groups != [] && forall i :: 0 <= i < |groups| ==> AreDigits(groups[i])
    ensures (forall i :: 0 <= i < |Flat(groups)| ==> '0' <= Flat(groups)[i] <= '9') &&
            ParseScalar(sign + Join(groups, "_")) ==
            Int(Signed(sign, NumberOf(Flat(groups))))
  {
    hide Join, IsDigits, DigitsValue, NumberOf, Trim;
    FlatIsDigits(groups);
    GroupsAreDigits(groups, 0);
    NumberIsValue(Flat(groups));
    SignedIsRead(sign, Join(groups, "_"), NumberOf(Flat(groups)));
  }

  lemma {:induction false} FlatIsDigits(groups: seq<string>)
    requires forall i :: 0 <= i < |groups| ==> AreDigits(groups[i])
    ensures forall i :: 0 <= i < |Flat(groups)| ==> '0' <= Flat(groups)[i] <= '9'
    decreases |groups|
  {
    if groups != [] {
      assert AreDigits(groups[0]);
      FlatIsDigits(groups[1..]);
    }
  }

  lemma SignedIsRead(sign: string, t: string, n: nat)
    requires sign in {"", "+", "-"} && IsDigits(t) && (forall c :: c in t ==> IsDigit(c) || c == '_')
    requires IsDigit(t[|t| - 1]) && DigitsValue(t, 0) == n
    ensures ParseScalar(sign + t) == Int(Signed(sign, n))
  {
    hide Trim, DigitsValue;
    var s := sign + t;
    DigitsAreNoSpace();
    assert s[0] == if sign == "" then t[0] else sign[0];
    assert s[|s| - 1] == t[|t| - 1] && IsDigit(t[0]);
    TrimIsIdentityOnTight(Python, s);
    assert DropSign(s) == t by { if sign != "" { assert s[1..] == t; } else { assert s == t; } }
    assert forall c :: c in s ==> c in sign || c in t;
    PlainIntReads(s);
  }

  lemma DigitsAreNoSpace()
    ensures (forall c :: IsDigit(c) ==> !IsSpace(Python, c)) && !IsSpace(Python, '+') && !IsSpace(Python, '-')
  {
  }

  /** Digits on both sides of a point make a number that is kept as it is spelled. */
  lemma PointIsFloat(sign: string, left: string, right: string)
    requires sign in {"", "+", "-"} && AreDigits(left) && AreDigits(right)
    ensures var t := sign + (left + ("." + right)); ParseScalar(t) == Float(t)
  {
    hide Trim, IsMantissa, Lower, IndexOf;
    var body := left + ("." + right);
    var t := sign + body;
    DigitsAreNoSpace();
    assert t[0] == if sign == "" then left[0] else sign[0];
    assert t[|t| - 1] == right[|right| - 1];
    TrimIsIdentityOnTight(Python, t);
    assert DropSign(t) == body by { if sign != "" { assert t[1..] == body; } else { assert t == body; } }
    NoLetters(body, left, right);
    PointIsMantissa(body, left, right);
    assert '.' in t by { assert t[|sign| + |left|] == '.'; }
    NoWord(t);
  }

  lemma PointIsMantissa(body: string, left: string, right: string)
    requires body == left + ("." + right) && AreDigits(left) && AreDigits(right)
    ensures IsMantissa(body)
  {
    hide IsDigits, IndexOf;
    assert body == left + ['.'] + right;
    IndexOfFirst(left, '.', right);
    assert body[..|left|] == left && body[|left| + 1..] == right;
    GroupIsDigits(left);
    GroupIsDigits(right);
  }

  lemma GroupIsDigits(s: string)
    requires AreDigits(s)
    ensures IsDigits(s)
  {
    TailOfDigits(s[1..], "");
    assert s[1..] + "" == s[1..];
  }

  lemma NoLetters(body: string, left: string, right: string)
    requires body == left + ("." + right) && AreDigits(left) && AreDigits(right)
    ensures Lower(body) == body && IndexOf(body, 'e') == |body|
  {
    forall i | 0 <= i < |body| ensures body[i] == '.' || '0' <= body[i] <= '9' {
      assert body[i] == if i < |left| then left[i] else if i == |left| then '.' else right[i - |left| - 1];
    }
    assert forall i :: 0 <= i < |body| ==> Lower(body)[i] == body[i];
  }

  lemma NoWord(t: string)
    requires t != "" && IsDigit(t[|t| - 1]) && '.' in t && IsFloatText(t)
    ensures ParseScalar(t) == Float(t)
  {
    hide IsFloatText;
    if Keyword(t).Some? { KeywordEnds(t); }
  }

  /** A string that some reader would take for a number is printed in quotes. */
  lemma NumbersAreQuoted(text: string)
    requires IsIntText(text) || Lower(DropSign(Trim(Python, text))) in {"inf", "infinity", "nan"}
    ensures FormatScalar(Str(text)) == Quote(text)
  {
    hide Trim, Lower, HasDelimiter, HasControl, LooksLikePathOrVariable;
    if IsIntText(text) { IntTextIsFloatText(text); }
  }

  // ---------------------------------------------------------------- documents with nothing in them

  /** The block of a document is that of its meaningful lines. */
  lemma BlockOfContent(lines: seq<Line>)
    ensures LoadLines(lines) == LoadLines(Content(lines))
  {
    LoadOfContent(lines);
  }

  lemma {:induction false} ContentSpeaks(lines: seq<Line>)
    ensures forall i :: 0 <= i < |Content(lines)| ==> !Content(lines)[i].kind.Noise?
  {
    if lines != [] { ContentSpeaks(lines[..|lines| - 1]); }
  }

  /**
   * A document is refused as empty exactly when no line means anything, or the first that does is a null; one that
   * begins with another scalar is that scalar, whatever follows.
   */
  lemma EmptyIff(lines: seq<Line>)
    ensures var c := Content(lines);
            (LoadLines(lines) == EmptyDocument <==> c == [] || c[0].kind == Plain(Null)) &&
            (c != [] && c[0].kind.Plain? && c[0].kind.scalar != Null ==> LoadLines(lines) == Doc(c[0].kind.scalar))
  {
    hide Content, ParseMap, ParseList;
    BlockOfContent(lines);
    ContentSpeaks(lines);
  }

  // ---------------------------------------------------------------- a value on a line of its own

  /** A text that is neither an entry, an item nor a comment. */
  predicate IsLoneScalar(text: string) {
    text != "" && Tight(Python, text) && text[0] != '#' && ':' !in text && !StartsWith(text, "- ")
  }

  /** The value of a key may stand deeper on the next line; a null there is no value but an empty mapping. */
  lemma ScalarBelowIsRead(key: string, text: string, m: nat)
    requires KeySurvives(key) && IsLoneScalar(text) && m >= 2
    ensures LoadLines(ReadLines([key + ":", Spaces(m) + text])) ==
            Doc(Map(map[key := if text in {"~", "null"} then Map(map[]) else ParseScalar(text)]))
  {
    hide ParseScalar, IsSpace, Trim, ReadLine, KindOf;
    WordsIff(text);
    var head, body := Line(key + ":", 0, Entry(key, None)), Line(Spaces(m) + text, m, Plain(ParseScalar(text)));
    assert ReadLine(key + ":") == head by {
      ReadEntryHead(SimpleYamlWritten.Pair(key, Absent), 0);
      assert Spaces(0) + (key + ":" + "") == key + ":";
    }
    assert ReadLine(Spaces(m) + text) == body by {
      ReadPaddedLine(m, text);
      LoneIsPlain(text);
    }
    TwoLines(key + ":", Spaces(m) + text);
    ScalarBelowParsed([head, body], key, m, ParseScalar(text));
  }

  lemma LoneIsPlain(text: string)
    requires IsLoneScalar(text)
    ensures KindOf(text) == Plain(ParseScalar(text))
  {
    hide ParseScalar, IsSpace;
  }

  lemma TwoLines(a: string, b: string)
    ensures ReadLines([a, b]) == [ReadLine(a), ReadLine(b)]
  {
    hide ReadLine;
  }

  lemma ScalarBelowParsed(lines: seq<Line>, key: string, m: nat, scalar: Value)
    requires |lines| == 2 && lines[0].indent == 0 && lines[0].kind == Entry(key, None) && m >= 2
    requires lines[1].indent == m && lines[1].kind == Plain(scalar)
    ensures LoadLines(lines) == Doc(Map(map[key := if scalar == Null then Map(map[]) else scalar]))
  {
    var child := if scalar == Null then Map(map[]) else scalar;
    assert ParseBlock(lines, 1, 2) == Read(Some(scalar), 2);
    assert ParseMap(lines, 2, 0, map[key := child]) == Read(map[key := child], 2);
    assert ParseMap(lines, 0, 0, map[]) == Read(map[key := child], 2);
  }

  // ---------------------------------------------------------------- dashes at several indents

  /** The line of an item at an indent of its own. */
  datatype Dash = Dash(indent: nat, text: string)

  predicate IsDash(d: Dash, least: nat) {
    least <= d.indent && IsItem(Written(d.text))
  }

  function DashLines(dashes: seq<Dash>): seq<Line> {
    seq(|dashes|, i requires 0 <= i < |dashes| => ItemHead(Written(dashes[i].text), dashes[i].indent))
  }

  function Scalars(dashes: seq<Dash>): seq<Value> {
    seq(|dashes|, i requires 0 <= i < |dashes| => ParseScalar(dashes[i].text))
  }

  lemma {:induction false} ParseDashes(lines: seq<Line>, i: nat, dashes: seq<Dash>, n: nat, result: seq<Value>,
                                       post: seq<Line>)
    requires forall k :: 0 <= k < |dashes| ==> IsDash(dashes[k], n)
    requires i <= |lines| && lines[i..] == DashLines(dashes) + post && Ends(post, n, false)
    ensures ParseList(lines, i, n, result) == Read(result + Scalars(dashes), i + |dashes|)
    decreases |dashes|
  {
    hide ParseList, Ends, ParseScalar, IsItem;
    if dashes == [] {
      Slice(lines, i, [], post);
      ListEnds(lines, i, n, result, post);
      assert result + Scalars(dashes) == result;
    } else {
      var d, rest := dashes[0], dashes[1..];
      var head := ItemHead(Written(d.text), d.indent);
      assert IsDash(d, n);
      assert lines[i..] == [head] + (DashLines(rest) + post);
      Slice(lines, i, [head], DashLines(rest) + post);
      DeeperSingle(lines, i, n, result, head, ParseScalar(d.text));
      ParseDashes(lines, i + 1, rest, n, result + [ParseScalar(d.text)], post);
      assert result + [ParseScalar(d.text)] + Scalars(rest) == result + Scalars(dashes);
    }
  }

  lemma DeeperSingle(lines: seq<Line>, i: nat, n: nat, result: seq<Value>, head: Line, scalar: Value)
    requires i < |lines| && lines[i] == head && head.indent >= n && head.kind == Item(Single(scalar))
    ensures ParseList(lines, i, n, result) == ParseList(lines, i + 1, n, result + [scalar])
  {
  }

  /** A list does not end at a deeper dash: what looks like a list in a list is read as one flat list. */
  lemma DeeperDashesAreFlat(dashes: seq<Dash>)
    requires dashes != [] && forall k :: 0 <= k < |dashes| ==> IsDash(dashes[k], dashes[0].indent)
    ensures LoadLines(ReadLines(seq(|dashes|, i requires 0 <= i < |dashes| =>
              Spaces(dashes[i].indent) + ("- " + dashes[i].text)))) == Doc(List(Scalars(dashes)))
  {
    hide ParseList, ParseScalar, IsItem, ReadLine;
    var texts := seq(|dashes|, i requires 0 <= i < |dashes| => Spaces(dashes[i].indent) + ("- " + dashes[i].text));
    forall i | 0 <= i < |dashes| ensures ReadLine(texts[i]) == DashLines(dashes)[i] {
      assert IsDash(dashes[i], dashes[0].indent);
      ReadItemHead(Written(dashes[i].text), dashes[i].indent);
      assert "-" + (" " + dashes[i].text) == "- " + dashes[i].text;
    }
    var lines := ReadLines(texts);
    assert lines == DashLines(dashes);
    assert lines[0..] == DashLines(dashes) + [];
    ParseDashes(lines, 0, dashes, dashes[0].indent, [], []);
    assert [] + Scalars(dashes) == Scalars(dashes);
    assert lines[0].indent == dashes[0].indent && lines[0].kind.Item?;
  }

  // ---------------------------------------------------------------- blocks that change their kind

  /** A block ends where the other kind begins at its own indent; at the margin the rest of the document is not read. */
  lemma MixedDocumentIsCut(first: Node, second: Node)
    requires IsBlock(first) && IsNode(first) && IsBlock(second) && IsNode(second)
    requires first.Mapping? == second.Listing?
    ensures LoadLines(ReadLines(Print(first, 0) + Print(second, 0))) == Doc(Meaning(first))
  {
    hide ReadLines, Print, NodeTree, IsNode, Meaning, ParseBlock;
    ReadPrint(first, 0);
    ReadPrint(second, 0);
    TreeStarts(second, 0);
    ReadLinesConcat(Print(first, 0), Print(second, 0));
    var lines := ReadLines(Print(first, 0) + Print(second, 0));
    assert lines[0..] == NodeTree(first, 0) + NodeTree(second, 0);
    ParseTree(lines, 0, 0, first, 0, NodeTree(second, 0));
    BlockIsNoNull(first);
  }

  lemma BlockIsNoNull(node: Node)
    requires IsBlock(node)
    ensures !Meaning(node).Null?
  {
  }

  /** A scalar among the entries of a mapping is refused, with its line. */
  lemma ScalarAmongEntriesIsRefused(first: Node, text: string)
    requires first.Mapping? && IsNode(first) && IsLoneScalar(text)
    ensures LoadLines(ReadLines(Print(first, 0) + [text])) == Malformed(ExpectedMapping(text))
  {
    hide ReadLines, ReadLine, Print, NodeTree, IsNode, ParseBlock, ParseScalar, KindOf, IsSpace, ParseMap;
    var last := Line(text, 0, Plain(ParseScalar(text)));
    assert ReadLine(text) == last by {
      LoneIsPlain(text);
      ReadPaddedLine(0, text);
      assert Spaces(0) + text == text;
    }
    ReadPrint(first, 0);
    ReadOne(text);
    ReadLinesConcat(Print(first, 0), [text]);
    var lines := ReadLines(Print(first, 0) + [text]);
    TreeStarts(first, 0);
    assert lines[0..] == NodeTree(first, 0) + [last] && lines[0] == NodeTree(first, 0)[0];
    assert NodeTree(first, 0) == EntryTree(first.entries, 0) by { TreeOfEntries(first); }
    EntriesOfNode(first);
    FailsAtScalar(lines, 0, first.entries, map[], last);
    BlockFails(lines, text);
  }

  lemma TreeOfEntries(node: Node)
    requires node.Mapping?
    ensures NodeTree(node, 0) == EntryTree(node.entries, 0)
  {
  }

  lemma EntriesOfNode(node: Node)
    requires node.Mapping? && IsNode(node)
    ensures forall i :: 0 <= i < |node.entries| ==> IsEntry(node.entries[i])
  {
  }

  lemma BlockFails(lines: seq<Line>, text: string)
    requires lines != [] && lines[0].kind.Entry? && lines[0].indent == 0
    requires ParseMap(lines, 0, 0, map[]) == Failed(ExpectedMapping(text))
    ensures LoadLines(lines) == Malformed(ExpectedMapping(text))
  {
    hide ParseMap;
  }

  lemma {:induction false} FailsAtScalar(lines: seq<Line>, i: nat, entries: seq<SimpleYamlWritten.Pair>,
                                         result: map<string, Value>, last: Line)
    requires forall k :: 0 <= k < |entries| ==> IsEntry(entries[k])
    requires i <= |lines| && lines[i..] == EntryTree(entries, 0) + [last] && last.indent == 0 && last.kind.Plain?
    ensures ParseMap(lines, i, 0, result) == Failed(ExpectedMapping(last.raw))
    decreases |entries|
  {
    hide ParseMap, ParseBlock, NodeTree, Meaning, IsEntry, EntryHead;
    if entries == [] {
      assert lines[i..][0] == last;
      ScalarFails(lines, i, result, last);
    } else {
      var p, rest := entries[0], EntryTree(entries[1..], 0);
      assert p in entries;
      var next := EntrySlices(lines, i, EntryHead(p, 0), BelowTree(p.node, 2), rest, [last]);
      ParseEntry(lines, i, p, 0, result, entries[1..], [last]);
      FailsAtScalar(lines, next, entries[1..], result[p.key := Meaning(p.node)], last);
    }
  }

  lemma ScalarFails(lines: seq<Line>, i: nat, result: map<string, Value>, last: Line)
    requires i < |lines| && lines[i] == last && last.indent == 0 && last.kind.Plain?
    ensures ParseMap(lines, i, 0, result) == Failed(ExpectedMapping(last.raw))
  {
  }

  // ---------------------------------------------------------------- quotes behind a dash, and line boundaries

  /** A quoted item is a scalar, also with a colon inside. */
  lemma QuotedItemIsScalar(s: string, n: nat)
    ensures ReadLine(Spaces(n) + ("- '" + (s + "'"))).kind == Item(Single(Str(s)))
    ensures ReadLine(Spaces(n) + ("- " + Quote(s))).kind == Item(Single(Str(s)))
  {
    hide ParseScalar, IsSpace, Trim, ReadLine, KeyOf, RestOf;
    var item := "'" + s + "'";
    assert item[0] == '\'' && item[|item| - 1] == '\'';
    QuotesAreNoSpace();
    SingleQuotedIsRead(s);
    QuotedIsItem(item, Str(s), n);
    assert "- " + item == "- '" + (s + "'");
    QuotedIsWritten(s);
    QuotedEnds(s);
    QuotedIsItem(Quote(s), Str(s), n);
  }

  lemma QuotesAreNoSpace()
    ensures !IsSpace(Python, '\'') && !IsSpace(Python, '"')
  {
  }

  lemma QuotedEnds(s: string)
    ensures var q := Quote(s); q != "" && q[0] == '"' && q[|q| - 1] == '"'
  {
  }

  lemma QuotedIsItem(item: string, v: Value, n: nat)
    requires item != "" && Tight(Python, item) && (item[0] == '\'' || item[0] == '"') && item[|item| - 1] != ':'
    requires ParseScalar(item) == v
    ensures ReadLine(Spaces(n) + ("- " + item)).kind == Item(Single(v))
  {
    assert !OpensMapping(item);
    ReadItemHead(Written(item), n);
    assert "-" + (" " + item) == "- " + item;
  }

  /** The characters that end a line, by their numbers. */
  const BREAKS := {10, 11, 12, 13, 28, 29, 30, 0x85, 0x2028, 0x2029}

  /** A text is split at each of them, and at no other; a carriage return with a line feed is one boundary. */
  lemma {:induction false} SplitsAtBreak(line: string, c: char, rest: string, current: string)
    requires (forall i :: 0 <= i < |line| ==> line[i] as int !in BREAKS) && c as int in BREAKS
    ensures c != '\r' || rest == "" || rest[0] != '\n' ==>
              PyLines(line + ([c] + rest), current) == [current + line] + PyLines(rest, "")
    ensures PyLines(line + ("\r\n" + rest), current) == [current + line] + PyLines(rest, "")
    decreases |line|
  {
    if line == "" {
      assert current + line == current;
      assert line + ([c] + rest) == [c] + rest && ([c] + rest)[1..] == rest;
      assert line + ("\r\n" + rest) == "\r\n" + rest && ("\r\n" + rest)[2..] == rest;
    } else {
      SplitsAtBreak(line[1..], c, rest, current + [line[0]]);
      assert current + [line[0]] + line[1..] == current + line;
      assert (line + ([c] + rest))[1..] == line[1..] + ([c] + rest);
      assert (line + ("\r\n" + rest))[1..] == line[1..] + ("\r\n" + rest);
    }
  }
}
