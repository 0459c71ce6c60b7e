/** Which lines of a file the rewrite of the legacy toolset name touches, told from the text alone. */
module ToolsetsEntries {
  import opened Text
  import opened ConfigScalars
  import opened Toolsets

  predicate IsBlank(s: string) {
    forall i :: 0 <= i < |s| ==> IsSpace(EcmaScript, s[i])
  }

  /** The key of the block. */
  ghost predicate OpensToolsets(line: string) {
    exists pad: string, rest: string :: IsBlank(pad) && line == "toolsets" + pad + ":" + rest
  }

  /** A line that begins with neither white space nor a dash. */
  predicate IsTopLevel(line: string) {
    line != "" && !IsSpace(EcmaScript, line[0]) && line[0] != '-'
  }

  /** The last top-level line above line `i` is the key of the block. */
  ghost predicate IsUnderToolsets(lines: seq<string>, i: nat)
    requires i <= |lines|
  {
    exists j :: 0 <= j < i && OpensToolsets(lines[j]) && forall k :: j < k < i ==> !IsTopLevel(lines[k])
  }

  /** Nothing but white space and a comment. */
  ghost predicate IsRemark(t: string) {
    exists pad: string, comment: string ::
      t == pad + comment && IsBlank(pad) && (comment == "" || (comment[0] == '#' && !HasTerminator(comment)))
  }

  function Dashed(lead: string, gap: string, quote: string, name: string, tail: string): string {
    lead + ("-" + gap) + (quote + (name + (quote + tail)))
  }

  /** A dash, and behind it the name, bare or in quotes of one kind. */
  ghost predicate IsEntryParts(lead: string, gap: string, quote: string, tail: string) {
    IsBlank(lead) && IsBlank(gap) && gap != "" && quote in {"", "\"", "'"} && IsRemark(tail)
  }

  ghost predicate IsLegacyEntry(line: string) {
    exists lead: string, gap: string, quote: string, tail: string ::
      IsEntryParts(lead, gap, quote, tail) && line == Dashed(lead, gap, quote, "hermes", tail)
  }

  // ---------------------------------------------------------------- the patterns in these words

  lemma LetterIsNoSpace()
    ensures !IsSpace(EcmaScript, ':') && !IsSpace(EcmaScript, 't') && !IsSpace(EcmaScript, '#')
    ensures !IsSpace(EcmaScript, '-') && !IsSpace(EcmaScript, 'h')
    ensures !IsSpace(EcmaScript, '"') && !IsSpace(EcmaScript, '\'') && "toolsets"[0] == 't'
  {
  }

  lemma HeaderOpens(line: string)
    requires IsHeader(line)
    ensures OpensToolsets(line)
  {
    hide IsSpace, TrimStart;
    var t := line[|"toolsets"|..];
    var u := TrimStart(EcmaScript, t);
    TrimStartShape(EcmaScript, t);
    HeaderParts(line, t, t[..|t| - |u|], u[1..]);
  }

  lemma HeaderParts(line: string, t: string, pad: string, rest: string)
    requires StartsWith(line, "toolsets") && t == line[|"toolsets"|..] && t == pad + (":" + rest) && IsBlank(pad)
    ensures OpensToolsets(line)
  {
    hide IsBlank;
    assert line == "toolsets" + t;
    assert line == "toolsets" + pad + ":" + rest;
  }

  lemma OpenIsHeader(line: string, pad: string, rest: string)
    requires IsBlank(pad) && line == "toolsets" + pad + ":" + rest
    ensures IsHeader(line)
  {
    hide IsSpace, TrimStart;
    LetterIsNoSpace();
    TrimStartOfPadded(EcmaScript, pad, ":" + rest);
    assert line[|"toolsets"|..] == pad + (":" + rest);
  }

  lemma HeaderIff(line: string)
    ensures IsHeader(line) <==> OpensToolsets(line)
  {
    hide IsHeader, IsBlank;
    if IsHeader(line) { HeaderOpens(line); }
    if OpensToolsets(line) {
      var pad: string, rest: string :| IsBlank(pad) && line == "toolsets" + pad + ":" + rest;
      OpenIsHeader(line, pad, rest);
    }
  }

  lemma TopLevelIff(line: string)
    ensures IsTopLevel(line) <==> LeavesBlock(line)
    ensures OpensToolsets(line) ==> IsTopLevel(line)
    ensures IsLegacyEntry(line) ==> !IsTopLevel(line)
  {
    hide IsSpace;
    LetterIsNoSpace();
    if line != "" && !IsSpace(EcmaScript, line[0]) { TrimOfTopLevel(line); }
    if IsLegacyEntry(line) {
      var lead, gap, quote, tail :|
        IsEntryParts(lead, gap, quote, tail) && line == Dashed(lead, gap, quote, "hermes", tail);
      assert lead != "" ==> line[0] == lead[0];
    }
    if OpensToolsets(line) {
      var pad: string, rest: string :| IsBlank(pad) && line == "toolsets" + pad + ":" + rest;
      assert line[0] == "toolsets"[0];
    }
  }

  lemma TrimOfTopLevel(line: string)
    requires line != "" && !IsSpace(EcmaScript, line[0])
    ensures Trim(EcmaScript, line) != ""
  {
    hide IsSpace;
    TrimStartOfUnpadded(EcmaScript, line);
    TrimEndShape(EcmaScript, line);
  }

  lemma RemarkIff(t: string)
    ensures IsItemTail(t) <==> IsRemark(t)
  {
    hide IsSpace, HasTerminator;
    LetterIsNoSpace();
    var u := TrimStart(EcmaScript, t);
    TrimStartShape(EcmaScript, t);
    assert t == t[..|t| - |u|] + u;
    if IsRemark(t) {
      var pad: string, comment: string :|
        t == pad + comment && IsBlank(pad) && (comment == "" || (comment[0] == '#' && !HasTerminator(comment)));
      TrimStartOfPadded(EcmaScript, pad, comment);
    }
  }

  /** How the dash of an entry is found. */
  lemma DashOf(lead: string, gap: string, rest: string)
    requires IsBlank(lead) && IsBlank(gap) && gap != "" && rest != "" && !IsSpace(EcmaScript, rest[0])
    ensures var line := lead + ("-" + gap) + rest;
            DashLength(line) == Some(|lead| + 1 + |gap|) && line[|lead| + 1 + |gap|..] == rest
  {
    hide IsSpace;
    LetterIsNoSpace();
    var line := lead + ("-" + gap) + rest;
    var t := "-" + (gap + rest);
    assert line == lead + t && t[1..] == gap + rest && t[1] == gap[0];
    TrimStartOfPadded(EcmaScript, lead, t);
    TrimStartOfPadded(EcmaScript, gap, rest);
  }

  lemma DashParts(line: string) returns (lead: string, gap: string)
    requires DashLength(line).Some?
    ensures IsBlank(lead) && IsBlank(gap) && gap != "" && line[..DashLength(line).value] == lead + ("-" + gap)
  {
    hide IsSpace, TrimStart;
    var t := TrimStart(EcmaScript, line);
    TrimStartShape(EcmaScript, line);
    var u := TrimStart(EcmaScript, t[1..]);
    TrimStartShape(EcmaScript, t[1..]);
    lead, gap := line[..|line| - |t|], t[1..][..|t| - 1 - |u|];
  }

  lemma RestParts(quote: string, tail: string)
    requires quote in {"", "\"", "'"} && IsRemark(tail)
    ensures var after := LEGACY + (quote + tail);
            var rest := quote + after;
            rest != "" && !IsSpace(EcmaScript, rest[0]) && QuoteAt(rest) == quote && rest[|quote|..] == after &&
            StartsWith(after, LEGACY) && Closes(after[|LEGACY|..], quote) && after[|LEGACY| + |quote|..] == tail
  {
    hide IsSpace, IsItemTail, IsRemark;
    LetterIsNoSpace();
    var after := LEGACY + (quote + tail);
    var rest := quote + after;
    assert rest[0] == if quote == "" then 'h' else quote[0];
    assert quote != "" ==> rest[..1] == quote;
    assert after[|LEGACY|..] == quote + tail && (quote + tail)[|quote|..] == tail;
    RemarkIff(tail);
  }

  /** An entry in parts is what the rewriter's groups make of it. */
  lemma PartsAreGroups(line: string, lead: string, gap: string, quote: string, tail: string)
    requires IsEntryParts(lead, gap, quote, tail) && line == Dashed(lead, gap, quote, LEGACY, tail)
    ensures LegacyGroups(line) == Some(Groups(lead + ("-" + gap), quote, tail))
  {
    hide IsSpace, DashLength, Closes, IsRemark, IsBlank, QuoteAt;
    RestParts(quote, tail);
    var after := LEGACY + (quote + tail);
    DashOf(lead, gap, quote + after);
    var d := |lead| + 1 + |gap|;
    assert line[..d] == lead + ("-" + gap);
    assert line[d + |quote|..] == line[d..][|quote|..];
  }

  lemma GroupsAreParts(line: string) returns (lead: string, gap: string, quote: string, tail: string)
    requires LegacyGroups(line).Some?
    ensures IsEntryParts(lead, gap, quote, tail) && line == Dashed(lead, gap, quote, LEGACY, tail)
    ensures LegacyGroups(line) == Some(Groups(lead + ("-" + gap), quote, tail))
  {
    hide IsSpace, DashLength, IsItemTail, IsRemark, IsBlank;
    var g := LegacyGroups(line).value;
    lead, gap := DashParts(line);
    quote, tail := g.quote, g.suffix;
    GroupsSpell(line);
    QuoteIsThere(line[DashLength(line).value..]);
    var t := line[DashLength(line).value + |quote|..];
    assert t[|LEGACY|..][|quote|..] == tail;
    RemarkIff(tail);
  }

  lemma LegacyEntryIff(line: string)
    ensures LegacyGroups(line).Some? <==> IsLegacyEntry(line)
  {
    hide LegacyGroups, Dashed, IsEntryParts;
    if LegacyGroups(line).Some? { var lead, gap, quote, tail := GroupsAreParts(line); }
    if IsLegacyEntry(line) {
      var lead, gap, quote, tail :|
        IsEntryParts(lead, gap, quote, tail) && line == Dashed(lead, gap, quote, "hermes", tail);
      PartsAreGroups(line, lead, gap, quote, tail);
    }
  }

  // ---------------------------------------------------------------- the state of the loops

  lemma {:induction false} InsideSnoc(inside: bool, lines: seq<string>, i: nat)
    requires i < |lines|
    ensures InsideAt(inside, lines, i + 1) == InsideAfter(InsideAt(inside, lines, i), lines[i])
    decreases i
  {
    hide InsideAfter;
    if i > 0 { InsideSnoc(InsideAfter(inside, lines[0]), lines[1..], i - 1); }
  }

  /** The flag of either loop is set exactly below the key of the block and above the next top-level line. */
  lemma {:induction false} InsideIff(lines: seq<string>, i: nat)
    requires i <= |lines|
    ensures InsideAt(false, lines, i) <==> IsUnderToolsets(lines, i)
    decreases i
  {
    hide IsHeader, LeavesBlock, OpensToolsets, IsTopLevel;
    if i > 0 {
      var line := lines[i - 1];
      InsideIff(lines, i - 1);
      InsideSnoc(false, lines, i - 1);
      HeaderIff(line);
      TopLevelIff(line);
      UnderNext(lines, i - 1);
    }
  }

  lemma UnderNext(lines: seq<string>, i: nat)
    requires i < |lines|
    ensures IsUnderToolsets(lines, i + 1) <==>
            OpensToolsets(lines[i]) || (IsUnderToolsets(lines, i) && !IsTopLevel(lines[i]))
  {
    hide OpensToolsets, IsTopLevel;
    if OpensToolsets(lines[i]) { assert IsUnderToolsets(lines, i + 1); }
    if IsUnderToolsets(lines, i) && !IsTopLevel(lines[i]) {
      var j :| 0 <= j < i && OpensToolsets(lines[j]) && forall k :: j < k < i ==> !IsTopLevel(lines[k]);
      assert forall k :: j < k < i + 1 ==> !IsTopLevel(lines[k]);
    }
    if IsUnderToolsets(lines, i + 1) && !OpensToolsets(lines[i]) {
      var j :| 0 <= j < i + 1 && OpensToolsets(lines[j]) && forall k :: j < k < i + 1 ==> !IsTopLevel(lines[k]);
      assert j < i && !IsTopLevel(lines[i]);
    }
  }

  lemma {:induction false} RewriteAt(inside: bool, lines: seq<string>, i: nat)
    requires i < |lines|
    ensures Rewrite(inside, lines)[i] == RewriteLine(InsideAt(inside, lines, i), lines[i])
    decreases i
  {
    hide InsideAfter, RewriteLine;
    if i > 0 { RewriteAt(InsideAfter(inside, lines[0]), lines[1..], i - 1); }
  }

  // ---------------------------------------------------------------- main results

  /**
   * A line is rewritten exactly when it is a legacy entry and the last top-level line above it is the key of the
   * block: entries under any later key, or above the block, are left alone.
   */
  lemma RewrittenIff(lines: seq<string>, i: nat)
    requires i < |lines|
    ensures Rewrite(false, lines)[i] != lines[i] <==> IsUnderToolsets(lines, i) && IsLegacyEntry(lines[i])
  {
    hide IsHeader, LeavesBlock, OpensToolsets, IsTopLevel, IsUnderToolsets, IsLegacyEntry, ItemName, LegacyGroups;
    var line := lines[i];
    RewriteAt(false, lines, i);
    InsideIff(lines, i);
    RewrittenLine(InsideAt(false, lines, i), line);
    PatternsAgree(line);
    LegacyEntryIff(line);
    HeaderIff(line);
    TopLevelIff(line);
  }

  /** What it becomes: the same dash, quotes and remark around the new name. */
  lemma RewrittenTo(lines: seq<string>, i: nat, lead: string, gap: string, quote: string, tail: string)
    requires i < |lines| && IsUnderToolsets(lines, i)
    requires IsEntryParts(lead, gap, quote, tail) && lines[i] == Dashed(lead, gap, quote, "hermes", tail)
    ensures Rewrite(false, lines)[i] == Dashed(lead, gap, quote, "hermes-cli", tail)
  {
    hide IsHeader, LeavesBlock, OpensToolsets, IsTopLevel, IsUnderToolsets, LegacyGroups, IsEntryParts, IsBlank;
    var line := lines[i];
    PartsAreGroups(line, lead, gap, quote, tail);
    RewriteAt(false, lines, i);
    InsideIff(lines, i);
    HeaderIff(line);
    LegacyEntryIff(line);
    TopLevelIff(line);
  }

  /** The detector fires exactly for a file with such a line. */
  lemma DetectsIff(content: string)
    ensures var lines := SplitLines(content);
            Detects(false, lines) <==>
            exists i :: 0 <= i < |lines| && IsUnderToolsets(lines, i) && IsLegacyEntry(lines[i])
  {
    hide Detects, Rewrite, IsUnderToolsets, IsLegacyEntry, SplitLines;
    var lines := SplitLines(content);
    DetectsIffRewrites(false, lines);
    forall i | 0 <= i < |lines|
      ensures Rewrite(false, lines)[i] != lines[i] <==> IsUnderToolsets(lines, i) && IsLegacyEntry(lines[i])
    {
      RewrittenIff(lines, i);
    }
  }
}
