/**
 * The indentation-based YAML subset of the release tooling: values, the quoting rules, and the
 * printer and parser as functions over lines. `SimpleYamlLoops` holds the loops that compute them.
 */
module SimpleYaml {
  import opened Text
  import opened Quoting

  /** A float carries the text it was read from. */
  datatype Value =
    | Null
    | Bool(b: bool)
    | Int(n: int)
    | Float(literal: string)
    | Str(s: string)
    | Map(entries: map<string, Value>)
    | List(items: seq<Value>)

  predicate IsContainer(v: Value) { v.Map? || v.List? }

  predicate IsEmptyContainer(v: Value) { v == Map(map[]) || v == List([]) }

  // ---------------------------------------------------------------- numbers

  predicate IsDigit(c: char) { '0' <= c <= '9' }

  function DigitText(n: nat): char
    requires n < 10
  {
    '0' + n as char
  }

  function NatText(n: nat): (s: string)
    ensures s != "" && forall c :: c in s ==> IsDigit(c)
  {
    if n < 10 then [DigitText(n)] else NatText(n / 10) + [DigitText(n % 10)]
  }

  /** `str(n)` */
  function IntText(n: int): (s: string)
    ensures s != ""
  {
    if n < 0 then "-" + NatText(-n) else NatText(n)
  }

  /** Digits with single underscores between them. */
  predicate IsDigits(s: string) {
    s != "" && IsDigit(s[0]) && IsDigitsTail(s[1..])
  }

  predicate IsDigitsTail(s: string) {
    s == "" ||
    (if s[0] == '_' then |s| > 1 && IsDigit(s[1]) && IsDigitsTail(s[2..])
     else IsDigit(s[0]) && IsDigitsTail(s[1..]))
  }

  function DropSign(s: string): string {
    if s != "" && (s[0] == '+' || s[0] == '-') then s[1..] else s
  }

  /** The texts `int(text)` accepts. */
  predicate IsIntText(text: string) {
    IsDigits(DropSign(Trim(Python, text)))
  }

  /** Left-to-right value of the digits, underscores skipped. */
  function DigitsValue(s: string, acc: nat): nat {
    if s == "" then acc
    else if IsDigit(s[0]) then DigitsValue(s[1..], 10 * acc + (s[0] - '0') as nat)
    else DigitsValue(s[1..], acc)
  }

  /** `int(text)` */
  function IntValue(text: string): int
    requires IsIntText(text)
  {
    var t := Trim(Python, text);
    var n: int := DigitsValue(DropSign(t), 0);
    if t[0] == '-' then -n else n
  }

  predicate IsMantissa(s: string) {
    var dot := IndexOf(s, '.');
    if dot == |s| then IsDigits(s)
    else
      var left, right := s[..dot], s[dot + 1..];
      (IsDigits(left) && (right == "" || IsDigits(right))) || (left == "" && IsDigits(right))
  }

  /** The texts `float(text)` accepts. */
  predicate IsFloatText(text: string) {
    var t := Lower(DropSign(Trim(Python, text)));
    var e := IndexOf(t, 'e');
    t in {"inf", "infinity", "nan"} ||
    (if e == |t| then IsMantissa(t) else IsMantissa(t[..e]) && IsDigits(DropSign(t[e + 1..])))
  }

  // ---------------------------------------------------------------- scalars

  const PLAIN_SCALAR_FORBIDDEN_START := "?-:,[]{}#&*!|>'\"%@`"
  const QUOTED_ANYWHERE := ":#{}[],\"'\\@`%&*!"
  const WORDS := {"true", "false", "null", "~", "yes", "no", "on", "off"}

  predicate HasControl(text: string) { exists c :: c in text && c < ' ' }

  predicate HasDelimiter(text: string) { exists c :: c in text && c in QUOTED_ANYWHERE }

  /** Tests of the quoting rule that the earlier tests already cover for the texts that reach them. */
  predicate LooksLikePathOrVariable(text: string) {
    '\\' in text || ('/' in text && (':' in text || StartsWith(text, "/"))) ||
    StartsWith(text, "C:\\") || Contains(text, "\\\\") || Contains(text, ":\\") || Contains(text, "${")
  }

  predicate NeedsQuotes(text: string) {
    text == "" || Lower(text) in WORDS || HasControl(text) ||
    text[0] in PLAIN_SCALAR_FORBIDDEN_START || text[0] == ' ' || text[0] == '-' || text[|text| - 1] == ' ' ||
    HasDelimiter(text) || LooksLikePathOrVariable(text) || IsFloatText(text)
  }

  function FormatScalar(v: Value): string
    requires !IsContainer(v)
  {
    match v
    case Null => "null"
    case Bool(b) => if b then "true" else "false"
    case Int(n) => IntText(n)
    case Float(literal) => literal
    case Str(s) => if NeedsQuotes(s) then Quote(s) else s
  }

  function Keyword(text: string): Option<Value> {
    if text == "" || text == "~" || text == "null" then Some(Null)
    else if text == "{}" then Some(Map(map[]))
    else if text == "[]" then Some(List([]))
    else if text == "true" || text == "True" then Some(Bool(true))
    else if text == "false" || text == "False" then Some(Bool(false))
    else None
  }

  predicate IsQuoted(text: string) {
    |text| >= 2 && text[0] == text[|text| - 1] && (text[0] == '"' || text[0] == '\'')
  }

  function ParseScalar(text: string): Value {
    var word := Keyword(text);
    if word.Some? then word.value
    else if IsQuoted(text) then
      var inner := text[1..|text| - 1];
      if text[0] == '"' then Str(UnescapeTwoPass(inner)) else Str(inner)
    else if '.' in text then
      if IsFloatText(text) then Float(text) else Str(text)
    else if IsIntText(text) then Int(IntValue(text))
    else Str(text)
  }

  // ---------------------------------------------------------------- printer

  /** Code point order on strings, the order of `sorted`. */
  predicate LexLeq(a: string, b: string) {
    a == "" || (b != "" && (a[0] < b[0] || (a[0] == b[0] && LexLeq(a[1..], b[1..]))))
  }

  lemma {:induction false} LexLeqTotal(a: string, b: string)
    ensures LexLeq(a, b) || LexLeq(b, a)
    ensures LexLeq(a, b) && LexLeq(b, a) ==> a == b
  {
    if a != "" && b != "" {
      LexLeqTotal(a[1..], b[1..]);
      assert a == [a[0]] + a[1..] && b == [b[0]] + b[1..];
    }
  }

  lemma {:induction false} LexLeqTransitive(a: string, b: string, c: string)
    requires LexLeq(a, b) && LexLeq(b, c)
    ensures LexLeq(a, c)
  {
    if a != "" && a[0] == b[0] == c[0] {
      LexLeqTransitive(a[1..], b[1..], c[1..]);
    }
  }

  ghost predicate IsLeastKey(k: string, keys: set<string>) {
    k in keys && forall j :: j in keys ==> LexLeq(k, j)
  }

  lemma {:induction false} LeastKeyExists(keys: set<string>)
    requires keys != {}
    ensures exists k :: IsLeastKey(k, keys)
  {
    var x :| x in keys;
    if keys == {x} {
      LexLeqTotal(x, x);
      assert IsLeastKey(x, keys);
    } else {
      LeastKeyExists(keys - {x});
      var y :| IsLeastKey(y, keys - {x});
      LexLeqTotal(x, y);
      var least := if LexLeq(x, y) then x else y;
      forall j | j in keys ensures LexLeq(least, j) {
        LexLeqTotal(x, x);
        if j != x && least == x { LexLeqTransitive(x, y, j); }
      }
      assert IsLeastKey(least, keys);
    }
  }

  /** `sorted(keys)` */
  ghost function SortedKeys(keys: set<string>): (r: seq<string>)
    ensures forall k :: k in r <==> k in keys
    decreases |keys|
  {
    if keys == {} then []
    else
      LeastKeyExists(keys);
      var k :| IsLeastKey(k, keys);
      [k] + SortedKeys(keys - {k})
  }

  /** Lines that `_dump_value` appends for `v` at an indent. */
  ghost function Lines(v: Value, indent: nat): (r: seq<string>)
    ensures |r| >= 1
    decreases v, 1
  {
    if v == Map(map[]) then [Spaces(indent) + "{}"]
    else if v == List([]) then [Spaces(indent) + "[]"]
    else
      match v
      case Map(m) =>
        var k :| k in m;
        assert k in SortedKeys(m.Keys);
        MapLines(v, SortedKeys(m.Keys), indent)
      case List(items) => ListLines(items, indent)
      case _ => [Spaces(indent) + FormatScalar(v)]
  }

  ghost function MapLines(v: Value, keys: seq<string>, indent: nat): (r: seq<string>)
    requires v.Map? && forall k :: k in keys ==> k in v.entries
    ensures |r| >= |keys|
    decreases v, 0, |keys|
  {
    if keys == [] then []
    else EntryLines(keys[0], v.entries[keys[0]], indent) + MapLines(v, keys[1..], indent)
  }

  predicate IsFilledContainer(v: Value) { IsContainer(v) && !IsEmptyContainer(v) }

  /** The value as it stands after a colon or a dash; a filled container starts on the next line. */
  function InlineText(v: Value): string {
    if v == Map(map[]) then " {}"
    else if v == List([]) then " []"
    else if IsContainer(v) then ""
    else " " + FormatScalar(v)
  }

  ghost function EntryLines(key: string, child: Value, indent: nat): (r: seq<string>)
    ensures |r| >= 1
    decreases child, 2
  {
    [Spaces(indent) + (key + ":" + InlineText(child))] +
    if IsFilledContainer(child) then Lines(child, indent + 2) else []
  }

  ghost function ListLines(items: seq<Value>, indent: nat): (r: seq<string>)
    ensures |r| >= |items|
    decreases items, 1
  {
    if items == [] then []
    else ItemLines(items[0], indent) + ListLines(items[1..], indent)
  }

  ghost function ItemLines(item: Value, indent: nat): (r: seq<string>)
    ensures |r| >= 1
    decreases item, 2
  {
    [Spaces(indent) + ("-" + InlineText(item))] +
    if IsFilledContainer(item) then Lines(item, indent + 2) else []
  }

  // ---------------------------------------------------------------- lines as the parser sees them

  datatype Kind =
    | Noise                                       // blank, or a comment
    | Item(item: ItemBody)                        // `- ...`
    | Entry(key: string, value: Option<Value>)    // `key: value`, or `key:` alone
    | Plain(scalar: Value)

  /** What follows the dash: nothing, the first entry of a mapping, or a scalar. */
  datatype ItemBody = Bare | Opening(key: string, value: Option<Value>) | Single(scalar: Value)

  datatype Line = Line(raw: string, indent: nat, kind: Kind)

  /** Leading spaces; tabs do not count. */
  function Indent(line: string): (n: nat)
    ensures n <= |line|
  {
    if line != "" && line[0] == ' ' then 1 + Indent(line[1..]) else 0
  }

  /** A blank line or a comment line. */
  predicate IsNoise(raw: string) {
    Trim(Python, raw) == "" || StartsWith(TrimStart(Python, raw), "#")
  }

  function KeyOf(stripped: string): string {
    Trim(Python, stripped[..IndexOf(stripped, ':')])
  }

  function RestOf(stripped: string): string
    requires ':' in stripped
  {
    var i := IndexOf(stripped, ':');
    assert i < |stripped|;
    Trim(Python, stripped[i + 1..])
  }

  function ValueOf(rest: string): Option<Value> {
    if rest == "" then None else Some(ParseScalar(rest))
  }

  /** An item that opens a mapping on its own line. */
  predicate OpensMapping(item: string)
    ensures OpensMapping(item) ==> ':' in item
  {
    item != "" && (item[|item| - 1] == ':' || (':' in item && item[0] != '\'' && item[0] != '"'))
  }

  function ItemBodyOf(item: string): ItemBody {
    if item == "" then Bare
    else if OpensMapping(item) then Opening(KeyOf(item), ValueOf(RestOf(item)))
    else Single(ParseScalar(item))
  }

  function KindOf(stripped: string): Kind {
    if StartsWith(stripped, "- ") then Item(ItemBodyOf(Trim(Python, stripped[2..])))
    else if ':' in stripped then Entry(KeyOf(stripped), ValueOf(RestOf(stripped)))
    else Plain(ParseScalar(stripped))
  }

  function ReadLine(raw: string): Line {
    Line(raw, Indent(raw), if IsNoise(raw) then Noise else KindOf(Trim(Python, raw)))
  }

  function ReadLines(lines: seq<string>): seq<Line> {
    seq(|lines|, i requires 0 <= i < |lines| => ReadLine(lines[i]))
  }

  // ---------------------------------------------------------------- parser

  datatype ParseError = UnexpectedIndent(raw: string) | ExpectedMapping(raw: string)

  /** What a parser returns: a value and the index of the next unread line, or an error. */
  datatype Parsed<+T> = Read(value: T, next: nat) | Failed(error: ParseError)

  /** The value of a key or a dash that has nothing else on its line; a nested `null` counts as nothing. */
  function Nested(child: Option<Value>): Value {
    if child.None? || child.value.Null? then Map(map[]) else child.value
  }

  /** The first entry of a mapping that opens on its dash. */
  function Seed(key: string, value: Option<Value>): map<string, Value> {
    map[key := if value.None? then Map(map[]) else value.value]
  }

  function ParseBlock(lines: seq<Line>, index: nat, indent: nat): (r: Parsed<Option<Value>>)
    requires index <= |lines|
    ensures r.Read? ==> index <= r.next <= |lines|
    decreases |lines| - index, 1
  {
    if index == |lines| then Read(None, index)
    else
      var line := lines[index];
      if line.kind.Noise? then ParseBlock(lines, index + 1, indent)
      else if line.indent < indent then Read(None, index)
      else
        match line.kind
        case Item(_) =>
          (match ParseList(lines, index, line.indent, [])
           case Read(items, next) => Read(Some(List(items)), next)
           case Failed(e) => Failed(e))
        case Entry(_, _) =>
          (match ParseMap(lines, index, line.indent, map[])
           case Read(entries, next) => Read(Some(Map(entries)), next)
           case Failed(e) => Failed(e))
        case Plain(scalar) => Read(Some(scalar), index + 1)
  }

  /** The mapping loop, from a line and the entries read so far. */
  function ParseMap(lines: seq<Line>, index: nat, indent: nat,
                    result: map<string, Value>): (r: Parsed<map<string, Value>>)
    requires index <= |lines|
    ensures r.Read? ==> index <= r.next <= |lines|
    decreases |lines| - index, 0
  {
    if index == |lines| then Read(result, index)
    else
      var line := lines[index];
      if line.kind.Noise? then ParseMap(lines, index + 1, indent, result)
      else if line.indent < indent then Read(result, index)
      else if line.indent > indent then Failed(UnexpectedIndent(line.raw))
      else
        match line.kind
        case Item(_) => Read(result, index)
        case Plain(_) => Failed(ExpectedMapping(line.raw))
        case Entry(key, Some(value)) => ParseMap(lines, index + 1, indent, result[key := value])
        case Entry(key, None) =>
          (match ParseBlock(lines, index + 1, indent + 2)
           case Read(child, next) => ParseMap(lines, next, indent, result[key := Nested(child)])
           case Failed(e) => Failed(e))
  }

  /** The list loop, from a line and the items read so far. */
  function ParseList(lines: seq<Line>, index: nat, indent: nat, result: seq<Value>): (r: Parsed<seq<Value>>)
    requires index <= |lines|
    ensures r.Read? ==> index <= r.next <= |lines|
    decreases |lines| - index, 0
  {
    if index == |lines| then Read(result, index)
    else
      var line := lines[index];
      if line.kind.Noise? then ParseList(lines, index + 1, indent, result)
      else if line.indent < indent || !line.kind.Item? then Read(result, index)
      else
        match line.kind.item
        case Single(scalar) => ParseList(lines, index + 1, indent, result + [scalar])
        case Opening(key, value) =>
          (match ParseMap(lines, index + 1, indent + 2, map[])
           case Read(extra, next) => ParseList(lines, next, indent, result + [Map(Seed(key, value) + extra)])
           case Failed(e) => Failed(e))
        case Bare =>
          (match ParseBlock(lines, index + 1, indent + 2)
           case Read(child, next) => ParseList(lines, next, indent, result + [Nested(child)])
           case Failed(e) => Failed(e))
  }

  /** `load_yaml`: a document without a block, or whose block reads as null, is an error. */
  datatype Loaded = Doc(value: Value) | EmptyDocument | Malformed(error: ParseError)

  function LoadLines(lines: seq<Line>): Loaded {
    match ParseBlock(lines, 0, 0)
    case Failed(e) => Malformed(e)
    case Read(v, _) => if v.None? || v.value.Null? then EmptyDocument else Doc(v.value)
  }
}
