/**
 * The legacy toolset name: the detector that looks for a `- hermes` entry in the `toolsets:` block of
 * config.yaml and the rewriter that turns it into `- hermes-cli`. Two patterns, one meaning.
 */
module Toolsets {
  import opened Text
  import opened ConfigScalars
  import opened ConfigFiles

  const LEGACY := "hermes"
  const CURRENT := "hermes-cli"

  // ---------------------------------------------------------------- the patterns

  /** `/^toolsets\s*:/` */
  predicate IsHeader(line: string) {
    StartsWith(line, "toolsets") &&
    var u := TrimStart(EcmaScript, line[|"toolsets"|..]);
    u != "" && u[0] == ':'
  }

  /** `/^[^\s-]/` on a line that is not blank: the next top-level key. */
  predicate LeavesBlock(line: string) {
    line != "" && !IsSpace(EcmaScript, line[0]) && line[0] != '-' && Trim(EcmaScript, line) != ""
  }

  /** `[\w-]` */
  predicate IsNameChar(c: char) {
    'A' <= c <= 'Z' || 'a' <= c <= 'z' || '0' <= c <= '9' || c == '_' || c == '-'
  }

  function NameRun(t: string): (n: nat)
    ensures n <= |t|
    ensures forall i :: 0 <= i < n ==> IsNameChar(t[i])
    ensures n < |t| ==> !IsNameChar(t[n])
  {
    if t != "" && IsNameChar(t[0]) then 1 + NameRun(t[1..]) else 0
  }

  /** Length of `\s*-\s+` at the start of a line. */
  function DashLength(line: string): (r: Option<nat>)
    ensures r.Some? ==> 0 < r.value <= |line|
  {
    var t := TrimStart(EcmaScript, line);
    if |t| < 2 || t[0] != '-' || !IsSpace(EcmaScript, t[1]) then None
    else Some(|line| - |TrimStart(EcmaScript, t[1..])|)
  }

  /** `(["']?)` */
  function QuoteAt(t: string): string {
    if t != "" && (t[0] == '"' || t[0] == '\'') then t[..1] else ""
  }

  /** `\s*(#.*)?$` */
  predicate IsItemTail(t: string) {
    var u := TrimStart(EcmaScript, t);
    u == "" || (u[0] == '#' && !HasTerminator(u))
  }

  /** The second half of both patterns: the quote again, then nothing but a comment. */
  predicate Closes(t: string, quote: string) {
    StartsWith(t, quote) && IsItemTail(t[|quote|..])
  }

  /** The name the detector's pattern `^\s*-\s+(["']?)([\w-]+)\1\s*(#.*)?$` captures. */
  function ItemName(line: string): Option<string> {
    var d := DashLength(line);
    if d.None? then None
    else
      var quote := QuoteAt(line[d.value..]);
      var t := line[d.value + |quote|..];
      var n := NameRun(t);
      if n > 0 && Closes(t[n..], quote) then Some(t[..n]) else None
  }

  /** The groups of the rewriter's pattern `^(\s*-\s+)(["']?)hermes\2(\s*(?:#.*)?)$`. */
  datatype Groups = Groups(prefix: string, quote: string, suffix: string)

  function LegacyGroups(line: string): Option<Groups> {
    var d := DashLength(line);
    if d.None? then None
    else
      var quote := QuoteAt(line[d.value..]);
      var t := line[d.value + |quote|..];
      if StartsWith(t, LEGACY) && Closes(t[|LEGACY|..], quote) then
        Some(Groups(line[..d.value], quote, t[|LEGACY| + |quote|..]))
      else None
  }

  /** An entry spelled with one name or the other. */
  function Spelled(g: Groups, name: string): string {
    g.prefix + (g.quote + (name + (g.quote + g.suffix)))
  }

  // ---------------------------------------------------------------- the loops

  /** Whether the lines after this one belong to the block. */
  predicate InsideAfter(inside: bool, line: string) {
    IsHeader(line) || (inside && !LeavesBlock(line))
  }

  /** Whether the line itself is looked at as an entry. */
  predicate IsLookedAt(inside: bool, line: string) {
    inside && !IsHeader(line) && !LeavesBlock(line)
  }

  predicate Detects(inside: bool, lines: seq<string>)
    decreases |lines|
  {
    lines != [] &&
    ((IsLookedAt(inside, lines[0]) && ItemName(lines[0]) == Some(LEGACY)) ||
      Detects(InsideAfter(inside, lines[0]), lines[1..]))
  }

  function RewriteLine(inside: bool, line: string): string {
    var g := LegacyGroups(line);
    if IsLookedAt(inside, line) && g.Some? then Spelled(g.value, CURRENT) else line
  }

  function Rewrite(inside: bool, lines: seq<string>): (r: seq<string>)
    ensures |r| == |lines|
    decreases |lines|
  {
    if lines == [] then [] else [RewriteLine(inside, lines[0])] + Rewrite(InsideAfter(inside, lines[0]), lines[1..])
  }

  /** The state of either loop before line `i`. */
  function InsideAt(inside: bool, lines: seq<string>, i: nat): bool
    requires i <= |lines|
    decreases i
  {
    if i == 0 then inside else InsideAt(InsideAfter(inside, lines[0]), lines[1..], i - 1)
  }

  // ---------------------------------------------------------------- one line

  lemma LegacyHasNoBreak()
    ensures NameRun(LEGACY) == |LEGACY| && forall t :: StartsWith(t, LEGACY) ==> NameRun(t) >= |LEGACY|
  {
    forall t | StartsWith(t, LEGACY) ensures NameRun(t) >= |LEGACY| {
      assert forall i :: 0 <= i < |LEGACY| ==> t[i] == LEGACY[i] && IsNameChar(LEGACY[i]);
    }
  }

  lemma ClosedAfterName(t: string, quote: string)
    requires Closes(t, quote) && (quote == "" || quote == "\"" || quote == "'")
    ensures t == "" || !IsNameChar(t[0])
  {
    if quote == "" {
      TrimStartShape(EcmaScript, t);
      assert t[|quote|..] == t;
    }
  }

  /** The two patterns agree: the name is the legacy one exactly when the rewriter's pattern matches. */
  lemma PatternsAgree(line: string)
    ensures ItemName(line) == Some(LEGACY) <==> LegacyGroups(line).Some?
  {
    hide NameRun, Closes, DashLength, IsNameChar;
    var d := DashLength(line);
    if d.Some? {
      var quote := QuoteAt(line[d.value..]);
      var t := line[d.value + |quote|..];
      LegacyHasNoBreak();
      if StartsWith(t, LEGACY) && Closes(t[|LEGACY|..], quote) {
        ClosedAfterName(t[|LEGACY|..], quote);
        assert |t| > |LEGACY| ==> t[|LEGACY|..][0] == t[|LEGACY|];
        assert NameRun(t) == |LEGACY|;
        assert t[..|LEGACY|] == LEGACY;
      }
    }
  }

  lemma GroupsSpell(line: string)
    requires LegacyGroups(line).Some?
    ensures line == Spelled(LegacyGroups(line).value, LEGACY)
  {
    hide DashLength, IsItemTail, QuoteAt, Spelled;
    var g := LegacyGroups(line).value;
    var n := |g.prefix|;
    QuoteIsThere(line[n..]);
    var t := line[n + |g.quote|..];
    assert line[n..][|g.quote|..] == t;
    SpelledParts(line, g, t);
  }

  lemma SpelledParts(line: string, g: Groups, t: string)
    requires line == g.prefix + (g.quote + t) || (g.prefix <= line && line[|g.prefix|..] == g.quote + t)
    requires LEGACY <= t && g.quote <= t[|LEGACY|..] && g.suffix == t[|LEGACY| + |g.quote|..]
    ensures line == Spelled(g, LEGACY)
  {
    assert t == LEGACY + t[|LEGACY|..];
    assert t[|LEGACY|..] == g.quote + t[|LEGACY|..][|g.quote|..];
    assert t[|LEGACY|..][|g.quote|..] == g.suffix;
    assert g.prefix <= line ==> line == g.prefix + line[|g.prefix|..];
  }

  lemma QuoteIsThere(t: string)
    ensures StartsWith(t, QuoteAt(t)) && t == QuoteAt(t) + t[|QuoteAt(t)|..]
    ensures QuoteAt(t) == "" || QuoteAt(t) == "\"" || QuoteAt(t) == "'"
  {
  }

  /** The prefix is a dash between spaces, so the line is neither a header nor a top-level key whatever follows. */
  lemma ItemStaysItem(line: string, rest: string)
    requires DashLength(line).Some?
    ensures var prefix := line[..DashLength(line).value];
            !IsHeader(prefix + rest) && !LeavesBlock(prefix + rest) &&
            (rest != "" && !IsSpace(EcmaScript, rest[0]) ==> DashLength(prefix + rest) == Some(|prefix|))
  {
    hide IsSpace, TrimStart, Trim;
    var t := TrimStart(EcmaScript, line);
    TrimStartShape(EcmaScript, line);
    var u := TrimStart(EcmaScript, t[1..]);
    TrimStartShape(EcmaScript, t[1..]);
    var lead, gap := line[..|line| - |t|], t[1..][..|t| - 1 - |u|];
    var prefix := line[..DashLength(line).value];
    assert prefix == lead + ("-" + gap) && gap != "";
    DashIsNoSpace();
    var w := prefix + rest;
    assert w[0] == prefix[0] && (prefix[0] == '-' || IsSpace(EcmaScript, prefix[0]));
    if rest != "" && !IsSpace(EcmaScript, rest[0]) {
      assert w == lead + ("-" + (gap + rest));
      TrimStartOfPadded(EcmaScript, lead, "-" + (gap + rest));
      TrimStartOfPadded(EcmaScript, gap, rest);
      assert ("-" + (gap + rest))[1..] == gap + rest;
      assert gap[0] == ("-" + (gap + rest))[1];
    }
  }

  lemma DashIsNoSpace()
    ensures !IsSpace(EcmaScript, '-') && !IsSpace(EcmaScript, 't') && !IsSpace(EcmaScript, 'h')
    ensures !IsSpace(EcmaScript, '"') && !IsSpace(EcmaScript, '\'') && "toolsets"[0] == 't' && CURRENT[0] == 'h' &&
            LEGACY < CURRENT
  {
  }

  /** A rewritten line keeps the state of the block and is no legacy entry any more. */
  lemma RewrittenLine(inside: bool, line: string)
    ensures var after := RewriteLine(inside, line);
            InsideAfter(inside, after) == InsideAfter(inside, line) &&
            !(IsLookedAt(inside, after) && ItemName(after) == Some(LEGACY))
    ensures RewriteLine(inside, line) != line <==> IsLookedAt(inside, line) && ItemName(line) == Some(LEGACY)
  {
    hide IsHeader, LeavesBlock, ItemName, LegacyGroups;
    PatternsAgree(line);
    if IsLookedAt(inside, line) && LegacyGroups(line).Some? {
      var g := LegacyGroups(line).value;
      GroupsSpell(line);
      SpellingsDiffer(g);
      CurrentIsNotLegacy(line);
      PatternsAgree(Spelled(g, CURRENT));
    }
  }

  lemma SpellingsDiffer(g: Groups)
    ensures Spelled(g, CURRENT) != Spelled(g, LEGACY)
  {
    assert |Spelled(g, CURRENT)| == |Spelled(g, LEGACY)| + 4;
  }

  lemma CurrentIsNotLegacy(line: string)
    requires LegacyGroups(line).Some?
    ensures var after := Spelled(LegacyGroups(line).value, CURRENT);
            LegacyGroups(after).None? && !IsHeader(after) && !LeavesBlock(after)
  {
    hide DashLength, IsHeader, LeavesBlock, IsSpace, IsItemTail;
    var g := LegacyGroups(line).value;
    QuoteIsThere(line[|g.prefix|..]);
    DashIsNoSpace();
    var rest := g.quote + (CURRENT + (g.quote + g.suffix));
    var after := Spelled(g, CURRENT);
    ItemStaysItem(line, rest);
    assert after[|g.prefix|..] == rest;
    assert QuoteAt(rest) == g.quote by {
      assert g.quote == "" ==> rest[0] == 'h';
      assert g.quote != "" ==> rest[..1] == g.quote;
    }
    var t := CURRENT + (g.quote + g.suffix);
    assert after[|g.prefix| + |g.quote|..] == t;
    assert t[|LEGACY|..][0] == '-';
    DashClosesNothing(t[|LEGACY|..], g.quote);
  }

  lemma DashClosesNothing(t: string, quote: string)
    requires t != "" && t[0] == '-' && (quote == "" || quote == "\"" || quote == "'")
    ensures !Closes(t, quote)
  {
    DashIsNoSpace();
    assert quote == "" ==> t[|quote|..] == t;
  }

  // ---------------------------------------------------------------- whole files

  /** The detector fires exactly when the rewriter changes a line. */
  lemma {:induction false} DetectsIffRewrites(inside: bool, lines: seq<string>)
    ensures Detects(inside, lines) <==> Rewrite(inside, lines) != lines
    decreases |lines|
  {
    hide RewriteLine, IsLookedAt, ItemName, InsideAfter;
    if lines != [] {
      RewrittenLine(inside, lines[0]);
      var rest := Rewrite(InsideAfter(inside, lines[0]), lines[1..]);
      DetectsIffRewrites(InsideAfter(inside, lines[0]), lines[1..]);
      assert lines == [lines[0]] + lines[1..];
      assert ([RewriteLine(inside, lines[0])] + rest)[1..] == rest;
    }
  }

  /** Afterwards the detector never fires, and a second rewrite does nothing. */
  lemma {:induction false} RewriteIsClean(inside: bool, lines: seq<string>)
    ensures !Detects(inside, Rewrite(inside, lines))
    decreases |lines|
  {
    hide RewriteLine, IsLookedAt, ItemName, InsideAfter;
    if lines != [] {
      RewrittenLine(inside, lines[0]);
      RewriteIsClean(InsideAfter(inside, lines[0]), lines[1..]);
      var r := Rewrite(inside, lines);
      assert r[1..] == Rewrite(InsideAfter(inside, lines[0]), lines[1..]);
    }
  }

  /** Before every line the block state is the same in the old file and in the new one. */
  lemma {:induction false} StateIsKept(inside: bool, lines: seq<string>, i: nat)
    requires i <= |lines|
    ensures InsideAt(inside, Rewrite(inside, lines), i) == InsideAt(inside, lines, i)
    decreases |lines|
  {
    hide RewriteLine, InsideAfter;
    if i > 0 {
      RewrittenLine(inside, lines[0]);
      StateIsKept(InsideAfter(inside, lines[0]), lines[1..], i - 1);
      assert Rewrite(inside, lines)[1..] == Rewrite(InsideAfter(inside, lines[0]), lines[1..]);
    }
  }

  /** Every line is kept, or is an entry of the block that differs only in the name. */
  lemma {:induction false} LinesDifferInName(inside: bool, lines: seq<string>, i: nat)
    requires i < |lines|
    ensures var was, now := lines[i], Rewrite(inside, lines)[i];
            now == was ||
            (InsideAt(inside, lines, i) && exists g :: was == Spelled(g, LEGACY) && now == Spelled(g, CURRENT))
    decreases |lines|
  {
    hide LegacyGroups, InsideAfter, IsHeader, LeavesBlock, Spelled;
    if i > 0 {
      LinesDifferInName(InsideAfter(inside, lines[0]), lines[1..], i - 1);
    } else if RewriteLine(inside, lines[0]) != lines[0] {
      GroupsSpell(lines[0]);
    }
  }

  // ---------------------------------------------------------------- the file

  /** `findLegacyToolsetEntry` */
  method FindLegacyToolsetEntry(content: string) returns (found: bool)
    ensures found <==> Detects(false, SplitLines(content))
  {
    hide IsHeader, LeavesBlock, ItemName;
    var lines := SplitLines(content);
    var inToolsets := false;
    for i := 0 to |lines|
      invariant Detects(inToolsets, lines[i..]) <==> Detects(false, lines)
    {
      var line := lines[i];
      assert lines[i..][1..] == lines[i + 1..];
      if IsHeader(line) {
        inToolsets := true;
        continue;
      }
      if !inToolsets { continue; }
      if LeavesBlock(line) {
        inToolsets := false;
        continue;
      }
      if ItemName(line) == Some(LEGACY) { return true; }
    }
    return false;
  }

  function Fixed(content: string): string {
    Join(Rewrite(false, SplitLines(content)), "\n")
  }

  /**
   * `fixLegacyToolsetName` on an existing file: the branch for a detected entry that is not rewritten is never taken.
   */
  method FixLegacyToolsetName(file: ConfigFile) returns (ok: bool)
    modifies file
    ensures ok <==> Detects(false, SplitLines(old(file.content)))
    ensures file.content == if ok then Fixed(old(file.content)) else old(file.content)
  {
    hide IsHeader, LeavesBlock, LegacyGroups, Spelled, Rewrite, Detects, SplitLines, Join, ItemName;
    var original := file.content;
    var found := FindLegacyToolsetEntry(original);
    if !found { return false; }
    var lines := SplitLines(original);
    var inToolsets, changed := false, false;
    var out: seq<string> := [];
    assert out + Rewrite(false, lines[0..]) == Rewrite(false, lines) by { assert lines[0..] == lines; }
    for i := 0 to |lines|
      invariant file.content == original
      invariant out + Rewrite(inToolsets, lines[i..]) == Rewrite(false, lines)
      invariant |out| == i && (changed <==> out != lines[..i])
    {
      var line := lines[i];
      RewrittenLine(inToolsets, line);
      RewriteNext(out, inToolsets, lines, i);
      if IsHeader(line) {
        inToolsets := true;
        out := out + [line];
        continue;
      }
      if inToolsets {
        if LeavesBlock(line) {
          inToolsets := false;
          out := out + [line];
          continue;
        }
        var m := LegacyGroups(line);
        if m.Some? {
          PatternsAgree(line);
          out := out + [Spelled(m.value, CURRENT)];
          changed := true;
          continue;
        }
      }
      out := out + [line];
    }
    RewriteDone(out, inToolsets, lines);
    DetectsIffRewrites(false, lines);
    if !changed { return false; }
    file.content := Join(out, "\n");
    return true;
  }

  lemma RewriteNext(out: seq<string>, inside: bool, lines: seq<string>, i: nat)
    requires i < |lines| && |out| == i
    ensures var next := out + [RewriteLine(inside, lines[i])];
            out + Rewrite(inside, lines[i..]) == next + Rewrite(InsideAfter(inside, lines[i]), lines[i + 1..]) &&
            (next == lines[..i + 1] <==> out == lines[..i] && RewriteLine(inside, lines[i]) == lines[i])
  {
    hide RewriteLine, InsideAfter;
    assert lines[i..][1..] == lines[i + 1..];
    assert lines[..i + 1] == lines[..i] + [lines[i]];
  }

  lemma RewriteDone(out: seq<string>, inside: bool, lines: seq<string>)
    ensures out + Rewrite(inside, lines[|lines|..]) == out && lines[..|lines|] == lines
  {
  }

  lemma {:induction false} RewriteIsPlain(inside: bool, lines: seq<string>)
    requires forall l :: l in lines ==> '\n' !in l
    ensures forall l :: l in Rewrite(inside, lines) ==> '\n' !in l
    decreases |lines|
  {
    hide InsideAfter, IsHeader, LeavesBlock, LegacyGroups;
    if lines != [] {
      if LegacyGroups(lines[0]).Some? {
        GroupsSpell(lines[0]);
        SpellingIsPlain(LegacyGroups(lines[0]).value);
      }
      RewriteIsPlain(InsideAfter(inside, lines[0]), lines[1..]);
    }
  }

  lemma SpellingIsPlain(g: Groups)
    ensures '\n' !in Spelled(g, LEGACY) ==> '\n' !in Spelled(g, CURRENT)
  {
    assert forall c :: c in Spelled(g, CURRENT) <==> c in g.prefix || c in g.quote || c in CURRENT || c in g.suffix;
    assert forall c :: c in Spelled(g, LEGACY) <==> c in g.prefix || c in g.quote || c in LEGACY || c in g.suffix;
  }

  /** A fixed file stays fixed, and a file with nothing to fix is its own fix. */
  lemma FixSettles(content: string)
    ensures SplitLines(Fixed(content)) == Rewrite(false, SplitLines(content))
    ensures !Detects(false, SplitLines(Fixed(content))) && Fixed(Fixed(content)) == Fixed(content)
    ensures Fixed(content) == content <==> !Detects(false, SplitLines(content))
  {
    hide Rewrite, Detects, SplitLines, Join;
    var lines := SplitLines(content);
    SplitIsPlain(content);
    RewriteIsPlain(false, lines);
    SplitOfJoin(Rewrite(false, lines));
    RewriteIsClean(false, lines);
    DetectsIffRewrites(false, lines);
    DetectsIffRewrites(false, Rewrite(false, lines));
    JoinOfSplit(content);
  }
}
