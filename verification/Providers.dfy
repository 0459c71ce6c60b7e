/**
 * The `providers:` dict of config.yaml: the line scanner that locates entries and field spans, the
 * listing, and the edits that splice the text of the file.
 */
module Providers {
  import opened Text
  import opened Quoting
  import opened ConfigScalars
  import opened ConfigBlocks

  const PROVIDERS := "providers"

  // ---------------------------------------------------------------- lines

  /** `split(/(?<=\n)/)`: every line keeps its line feed. */
  function LinesOf(s: string): seq<string>
    decreases |s|
  {
    if s == "" then [] else [s[..LineLength(s)]] + LinesOf(s[LineLength(s)..])
  }

  function Concat(lines: seq<string>): string {
    if lines == [] then "" else lines[0] + Concat(lines[1..])
  }

  predicate IsKeyChar(c: char) {
    'A' <= c <= 'Z' || 'a' <= c <= 'z' || '0' <= c <= '9' || c == '_' || c == '.' || c == '-'
  }

  function KeyRun(t: string): (n: nat)
    ensures n <= |t|
  {
    if t != "" && IsKeyChar(t[0]) then 1 + KeyRun(t[1..]) else 0
  }

  /** What the scanner sees in a line: for a key, its indent, its name, and where its value stands. */
  datatype Kind = Blank | Top | Other | Key(indent: string, key: string, at: nat, raw: string, value: string)

  /** The end of `/^([ \t]+)([\w.-]+)([^\S\r\n]*:)(.*)$/` in a text whose indent and key have these lengths. */
  function KindAt(text: string, indent: nat, n: nat): Kind
    requires indent + n <= |text|
  {
    var u := SkipInline(text[indent + n..]);
    if n == 0 || u == "" || u[0] != ':' || HasTerminator(u[1..]) then Other
    else
      var raw := TrimStart(EcmaScript, u[1..]);
      Key(text[..indent], text[indent..indent + n], |text| - |raw|, TrimEnd(EcmaScript, raw), StripScalar(raw))
  }

  /** Blank lines and the next top-level key are told first. */
  function KindOf(text: string): Kind {
    if IsBlank(text) then Blank
    else if text[0] != ' ' && text[0] != '\t' then Top
    else KindAt(text, IndentRun(text), KeyRun(text[IndentRun(text)..]))
  }

  function KindsOf(lines: seq<string>): (ks: seq<Kind>)
    ensures |ks| == |lines|
  {
    seq(|lines|, i requires 0 <= i < |lines| => KindOf(Chomp(lines[i])))
  }

  // ---------------------------------------------------------------- the scanner

  /** A field of an entry: its value, its line, and where in the line the raw value stands. */
  datatype Field = Field(value: string, row: nat, at: nat, size: nat)

  /** An entry: its lines from `row` up to `end`, and the indent of its direct fields. */
  datatype Entry = Entry(slug: string, row: nat, end: nat, fieldIndent: string, fields: map<string, Field>)

  datatype Block = Block(childIndent: string, entries: seq<Entry>, bodyEnd: nat)

  const EMPTY_BLOCK := Block("", [], 0)

  function InEntry(e: Entry, k: Kind, row: nat): Entry
    requires k.Key?
  {
    var indent := if e.fieldIndent == "" then k.indent else e.fieldIndent;
    e.(end := row + 1, fieldIndent := indent,
       fields := if |k.indent| == |indent| then e.fields[k.key := Field(k.value, row, k.at, |k.raw|)] else e.fields)
  }

  function LastAs(entries: seq<Entry>, e: Entry): (r: seq<Entry>)
    requires entries != []
    ensures |r| == |entries|
  {
    entries[..|entries| - 1] + [e]
  }

  function Last(entries: seq<Entry>): Entry
    requires entries != []
  {
    entries[|entries| - 1]
  }

  /** One turn of the scanning loop. */
  function Step(b: Block, k: Kind, row: nat): Block {
    match k
    case Blank => b
    case Top => b
    case Other => Block(b.childIndent,
      if b.entries == [] then [] else LastAs(b.entries, Last(b.entries).(end := row + 1)), row + 1)
    case Key(indent, key, _, _, _) =>
      var child := if b.childIndent == "" then indent else b.childIndent;
      if |indent| <= |child| then Block(child, b.entries + [Entry(key, row, row + 1, "", map[])], row + 1)
      else if b.entries == [] then Block(child, [], row + 1)
      else Block(child, LastAs(b.entries, InEntry(Last(b.entries), k, row)), row + 1)
  }

  /** The loop: up to the next top-level line. */
  function Scan(b: Block, ks: seq<Kind>, row: nat): Block
    decreases |ks|
  {
    if ks == [] || ks[0].Top? then b else Scan(Step(b, ks[0], row), ks[1..], row + 1)
  }

  function BlockOf(ks: seq<Kind>): Block {
    Scan(EMPTY_BLOCK, ks, 0)
  }

  function ChildIndent(b: Block): string {
    if b.childIndent == "" then "  " else b.childIndent
  }

  /** Offset just past the header line of the block. */
  function BodyStart(content: string): (r: Option<nat>)
    ensures r.Some? ==> r.value <= |content|
  {
    var h := FindHeader(content, PROVIDERS);
    if h.None? then None else Some(h.value + HeaderLength(content[h.value..], PROVIDERS).value)
  }

  // ---------------------------------------------------------------- the listing

  /** An entry without its positions. */
  datatype View = View(slug: string, fields: map<string, string>)

  function Values(fields: map<string, Field>): map<string, string> {
    map k | k in fields :: fields[k].value
  }

  function ViewOf(e: Entry): View {
    View(e.slug, Values(e.fields))
  }

  function Views(entries: seq<Entry>): (r: seq<View>)
    ensures |r| == |entries|
  {
    seq(|entries|, i requires 0 <= i < |entries| => ViewOf(entries[i]))
  }

  datatype UserProvider = UserProvider(slug: string, name: string, baseUrl: string, keyEnv: string)

  function Get(fields: map<string, string>, key: string): string {
    if key in fields then fields[key] else ""
  }

  function FirstSet(a: string, b: string): string {
    if a != "" then a else b
  }

  function ProviderOf(v: View): UserProvider {
    UserProvider(v.slug, FirstSet(Get(v.fields, "name"), v.slug),
                 FirstSet(Get(v.fields, "api"), FirstSet(Get(v.fields, "url"), Get(v.fields, "base_url"))),
                 Get(v.fields, "key_env"))
  }

  function ProvidersOf(views: seq<View>): (r: seq<UserProvider>)
    ensures |r| == |views|
  {
    seq(|views|, i requires 0 <= i < |views| => ProviderOf(views[i]))
  }

  function BlockIn(content: string, start: nat): Block
    requires start <= |content|
  {
    BlockOf(KindsOf(LinesOf(content[start..])))
  }

  /** The entries of the block of a text, none when there is no block. */
  function ViewsIn(content: string): seq<View> {
    var start := BodyStart(content);
    if start.None? then [] else Views(BlockIn(content, start.value).entries)
  }

  /** `listAgentUserProviders` */
  function List(content: string): seq<UserProvider> {
    ProvidersOf(ViewsIn(content))
  }

  // ---------------------------------------------------------------- looking an entry up

  function FindKeyEnv(views: seq<View>, keyEnv: string): (i: nat)
    ensures i <= |views|
    ensures i < |views| ==> keyEnv != "" && Get(views[i].fields, "key_env") == keyEnv
    ensures forall j :: 0 <= j < i ==> keyEnv == "" || Get(views[j].fields, "key_env") != keyEnv
  {
    if views == [] || (keyEnv != "" && Get(views[0].fields, "key_env") == keyEnv) then 0
    else 1 + FindKeyEnv(views[1..], keyEnv)
  }

  function FindSlug(views: seq<View>, slug: string): (i: nat)
    ensures i <= |views|
    ensures i < |views| ==> views[i].slug == slug
    ensures forall j :: 0 <= j < i ==> views[j].slug != slug
  {
    if views == [] || views[0].slug == slug then 0 else 1 + FindSlug(views[1..], slug)
  }

  /** By key variable, then by slug; the number of entries when neither is found. */
  function Locate(views: seq<View>, keyEnv: string, slug: string): (i: nat)
    ensures i <= |views|
  {
    if FindKeyEnv(views, keyEnv) < |views| then FindKeyEnv(views, keyEnv) else FindSlug(views, slug)
  }

  // ---------------------------------------------------------------- the edits

  datatype Input = Input(slug: string, name: string, baseUrl: string, keyEnv: string)

  predicate IsSlugChar(c: char) {
    'a' <= c <= 'z' || '0' <= c <= '9'
  }

  /** `.replace(/[^a-z0-9]+/g, "-")` */
  function Dashed(s: string, dashed: bool): string {
    if s == "" then ""
    else if IsSlugChar(s[0]) then [s[0]] + Dashed(s[1..], false)
    else (if dashed then "" else "-") + Dashed(s[1..], true)
  }

  function DropLeadingDashes(s: string): string {
    if s != "" && s[0] == '-' then DropLeadingDashes(s[1..]) else s
  }

  function DropTrailingDashes(s: string): string {
    if s != "" && s[|s| - 1] == '-' then DropTrailingDashes(s[..|s| - 1]) else s
  }

  /** `slugifyProviderName` */
  function Slugify(name: string): string {
    DropTrailingDashes(DropLeadingDashes(Dashed(Lower(Trim(EcmaScript, name)), false)))
  }

  function FieldLine(indent: string, key: string, value: string): string {
    indent + (key + ": " + Quote(value)) + "\n"
  }

  /** `renderEntry`, line by line. */
  function EntryLines(indent: string, e: Input): seq<string> {
    [indent + (e.slug + ":") + "\n", FieldLine(indent + "  ", "name", e.name),
      FieldLine(indent + "  ", "base_url", e.baseUrl)] +
    (if e.keyEnv == "" then [] else [FieldLine(indent + "  ", "key_env", e.keyEnv)])
  }

  /** The alias an entry already uses for its URL. */
  function UrlField<T>(fields: map<string, T>): string {
    if "api" in fields then "api" else if "url" in fields then "url" else "base_url"
  }

  function Wanted<T>(fields: map<string, T>, e: Input): seq<(string, string)> {
    [("name", e.name), (UrlField(fields), e.baseUrl)] + (if e.keyEnv == "" then [] else [("key_env", e.keyEnv)])
  }

  /** A change of one line: a value put in place of another, or a field line put in before `row`. */
  datatype Edit =
    | Replace(key: string, row: nat, at: nat, size: nat, value: string)
    | Insert(key: string, row: nat, indent: string, value: string)

  /** Nothing when the field has the value already. */
  function EditFor(e: Entry, indent: string, key: string, value: string): seq<Edit> {
    if key in e.fields then
      var f := e.fields[key];
      if f.value == value then [] else [Replace(key, f.row, f.at, f.size, value)]
    else [Insert(key, e.row + 1, indent, value)]
  }

  function EditsOf(e: Entry, indent: string, wanted: seq<(string, string)>): seq<Edit>
    decreases |wanted|
  {
    if wanted == [] then [] else EditFor(e, indent, wanted[0].0, wanted[0].1) + EditsOf(e, indent, wanted[1..])
  }

  /** Length of the first `row` lines. */
  function Offset(lines: seq<string>, row: nat): nat
    requires row <= |lines|
  {
    |Concat(lines[..row])|
  }

  datatype Patch = Patch(start: nat, end: nat, text: string)

  function PatchOf(base: nat, lines: seq<string>, e: Edit): Patch
    requires e.row <= |lines|
  {
    match e
    case Replace(_, row, at, size, value) =>
      Patch(base + Offset(lines, row) + at, base + Offset(lines, row) + at + size, Quote(value))
    case Insert(key, row, indent, value) =>
      Patch(base + Offset(lines, row), base + Offset(lines, row), FieldLine(indent, key, value))
  }

  function PatchesOf(base: nat, lines: seq<string>, es: seq<Edit>): (r: seq<Patch>)
    requires forall e :: e in es ==> e.row <= |lines|
    ensures |r| == |es|
  {
    seq(|es|, i requires 0 <= i < |es| => PatchOf(base, lines, es[i]))
  }

  /** Puts a patch behind all patches that start no earlier: `sort((a, b) => b.start - a.start)` is stable. */
  function PlaceDescending(p: Patch, sorted: seq<Patch>): seq<Patch> {
    if sorted == [] || sorted[0].start < p.start then [p] + sorted
    else [sorted[0]] + PlaceDescending(p, sorted[1..])
  }

  function SortDescending(ps: seq<Patch>): seq<Patch> {
    if ps == [] then [] else PlaceDescending(ps[|ps| - 1], SortDescending(ps[..|ps| - 1]))
  }

  /** `next.slice(0, p.start) + p.text + next.slice(p.end)` */
  function Splice(s: string, p: Patch): string {
    s[..if p.start < |s| then p.start else |s|] + p.text + s[if p.end < |s| then p.end else |s|..]
  }

  function SpliceAll(s: string, ps: seq<Patch>): string
    decreases |ps|
  {
    if ps == [] then s else SpliceAll(Splice(s, ps[0]), ps[1..])
  }

  // ---------------------------------------------------------------- files without a block

  function CommentRun(s: string): (n: nat)
    ensures n <= |s|
  {
    if s != "" && !IsTerminator(s[0]) then 1 + CommentRun(s[1..]) else 0
  }

  /** `(#.*)?\r?\n?` */
  function FlowTail(s: string): (n: nat)
    ensures n <= |s|
  {
    var c := if s != "" && s[0] == '#' then CommentRun(s) else 0;
    var r := if c < |s| && s[c] == '\r' then c + 1 else c;
    if r < |s| && s[r] == '\n' then r + 1 else r
  }

  /** One character after inline white space; the text behind it. */
  function After(s: string, c: char): Option<string> {
    var t := SkipInline(s);
    if t != "" && t[0] == c then Some(t[1..]) else None
  }

  /** `providers[^\S\r\n]*:` at the start of a text; the text behind it. */
  function AfterColon(s: string): Option<string> {
    if StartsWith(s, PROVIDERS) then After(s[|PROVIDERS|..], ':') else None
  }

  /** The empty flow form at the start of a text; the text behind it. */
  function AfterEmptyFlow(s: string): Option<string> {
    var a := AfterColon(s);
    var b := if a.Some? then After(a.value, '{') else None;
    var c := if b.Some? then After(b.value, '}') else None;
    if c.Some? then Some(SkipInline(c.value)[FlowTail(SkipInline(c.value))..]) else None
  }

  /** The leftmost line of the empty flow form at or after `i`. */
  function FirstFlow(content: string, i: nat): (r: Option<nat>)
    requires i <= |content|
    ensures r.Some? ==> i <= r.value <= |content| && AfterEmptyFlow(content[r.value..]).Some?
    decreases |content| - i
  {
    if AtLineStart(content, i) && AfterEmptyFlow(content[i..]).Some? then Some(i)
    else if i == |content| then None
    else FirstFlow(content, i + 1)
  }

  /** `/^providers[^\S\r\n]*:/m` */
  predicate HasKeyLine(content: string, i: nat)
    requires i <= |content|
    decreases |content| - i
  {
    (AtLineStart(content, i) && AfterColon(content[i..]).Some?) || (i < |content| && HasKeyLine(content, i + 1))
  }

  function NewBlock(e: Input): string {
    PROVIDERS + ":\n" + Concat(EntryLines("  ", e))
  }

  function WithoutBlock(content: string, e: Input): string {
    var flow := FirstFlow(content, 0);
    if flow.Some? then content[..flow.value] + NewBlock(e) + AfterEmptyFlow(content[flow.value..]).value
    else if HasKeyLine(content, 0) then content
    else content + Separator(content) + NewBlock(e)
  }

  // ---------------------------------------------------------------- upsert and remove

  /** What a call stores, or nothing when it returns at once. */
  function Stored(input: Input): Option<Input> {
    var name, baseUrl := Trim(EcmaScript, input.name), Trim(EcmaScript, input.baseUrl);
    var slug := Trim(EcmaScript, if input.slug != "" then input.slug else Slugify(name));
    if name == "" || baseUrl == "" || slug == "" then None else Some(Input(slug, name, baseUrl, input.keyEnv))
  }

  /** The indent of a field line that has to be put in. */
  function NewFieldIndent(b: Block, e: Entry): string {
    if e.fieldIndent != "" then e.fieldIndent else ChildIndent(b) + "  "
  }

  /** The edits of one upsert into a block. */
  function UpsertEdits(b: Block, i: nat, e: Input): seq<Edit>
    requires i < |b.entries|
  {
    EditsOf(b.entries[i], NewFieldIndent(b, b.entries[i]), Wanted(b.entries[i].fields, e))
  }

  /** Rows of entries and fields lie inside the scanned lines. */
  predicate Inside(b: Block, n: nat) {
    b.bodyEnd <= n && forall e :: e in b.entries ==>
      e.row < e.end <= n && forall k :: k in e.fields ==> e.fields[k].row < n
  }

  lemma {:induction false} ScanInside(b: Block, ks: seq<Kind>, row: nat)
    requires Inside(b, row)
    ensures Inside(Scan(b, ks, row), row + |ks|)
    decreases |ks|
  {
    if ks != [] && !ks[0].Top? {
      var c := Step(b, ks[0], row);
      if ks[0].Key? && b.entries != [] {
        var e := InEntry(Last(b.entries), ks[0], row);
        assert Last(b.entries) in b.entries;
        assert forall k :: k in e.fields ==> e.fields[k].row <= row;
      }
      assert forall i :: 0 <= i < |b.entries| ==> b.entries[i] in b.entries;
      ScanInside(c, ks[1..], row + 1);
    }
  }

  lemma BlockInside(ks: seq<Kind>)
    ensures Inside(BlockOf(ks), |ks|)
  {
    hide Scan;
    ScanInside(EMPTY_BLOCK, ks, 0);
  }

  lemma {:induction false} EditsInside(e: Entry, indent: string, wanted: seq<(string, string)>, n: nat)
    requires e.row < n && forall k :: k in e.fields ==> e.fields[k].row < n
    ensures forall x :: x in EditsOf(e, indent, wanted) ==> x.row <= n
    decreases |wanted|
  {
    if wanted != [] { EditsInside(e, indent, wanted[1..], n); }
  }

  /** What `upsertAgentUserProvider` makes of the text of the file. */
  function UpsertText(content: string, input: Input): string {
    var stored := Stored(input);
    if stored.None? then content
    else
      var e := stored.value;
      var start := BodyStart(content);
      if start.None? then WithoutBlock(content, e)
      else
        var lines := LinesOf(content[start.value..]);
        var b := BlockOf(KindsOf(lines));
        var i := Locate(Views(b.entries), input.keyEnv, e.slug);
        BlockInside(KindsOf(lines));
        if i == |b.entries| then
          var at := start.value + Offset(lines, b.bodyEnd);
          Splice(content, Patch(at, at, Concat(EntryLines(ChildIndent(b), e))))
        else
          var es := UpsertEdits(b, i, e);
          assert b.entries[i] in b.entries;
          EditsInside(b.entries[i], NewFieldIndent(b, b.entries[i]), Wanted(b.entries[i].fields, e), |lines|);
          SpliceAll(content, SortDescending(PatchesOf(start.value, lines, es)))
  }

  lemma NothingStored(content: string, input: Input)
    requires Stored(input).None?
    ensures UpsertText(content, input) == content
  {
    hide Stored;
  }

  /** What `removeAgentUserProvider` makes of the text of the file. */
  function RemoveText(content: string, name: string, keyEnv: string): string {
    var start := BodyStart(content);
    if start.None? then content
    else
      var lines := LinesOf(content[start.value..]);
      var b := BlockOf(KindsOf(lines));
      var i := Locate(Views(b.entries), keyEnv, Slugify(name));
      BlockInside(KindsOf(lines));
      if i == |b.entries| then content
      else
        assert b.entries[i] in b.entries;
        Splice(content, Patch(start.value + Offset(lines, b.entries[i].row),
          start.value + Offset(lines, b.entries[i].end), ""))
  }
}
