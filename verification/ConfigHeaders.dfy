/** The header of a block, told from the text: what matches, and which match counts. */
module ConfigHeaders {
  import opened Text
  import opened ConfigScalars
  import opened ConfigBlocks

  // ---------------------------------------------------------------- what matches

  predicate IsGap(s: string) {
    forall i :: 0 <= i < |s| ==> IsSpace(EcmaScript, s[i]) && s[i] != '\n' && s[i] != '\r'
  }

  /** The key, a colon between white space, a comment or nothing, and the end of the line. */
  predicate AreParts(key: string, a: string, b: string, comment: string, eol: string) {
    IsGap(a) && IsGap(b) && (eol == "\n" || eol == "\r\n") &&
    (comment == "" || (comment[0] == '#' && !HasTerminator(comment)))
  }

  function Parts(key: string, a: string, b: string, comment: string, eol: string): string {
    key + (a + (":" + (b + (comment + eol))))
  }

  /** A header of this length begins the text. */
  ghost predicate Begins(s: string, key: string, n: nat) {
    exists a: string, b: string, comment: string, eol: string, rest: string ::
      AreParts(key, a, b, comment, eol) && s == Parts(key, a, b, comment, eol) + rest &&
      n == |Parts(key, a, b, comment, eol)|
  }

  lemma {:induction false} GapSkipped(gap: string, rest: string)
    requires IsGap(gap) && (rest == "" || !IsInlineSpace(rest[0]))
    ensures SkipInline(gap + rest) == rest
  {
    hide IsSpace;
    if gap == "" {
      assert gap + rest == rest;
    } else {
      assert (gap + rest)[1..] == gap[1..] + rest;
      GapSkipped(gap[1..], rest);
    }
  }

  lemma {:induction false} SkipSplits(s: string) returns (gap: string)
    ensures IsGap(gap) && s == gap + SkipInline(s)
  {
    hide IsSpace;
    gap := "";
    if s != "" && IsInlineSpace(s[0]) {
      var rest := SkipSplits(s[1..]);
      gap := [s[0]] + rest;
      assert s == [s[0]] + s[1..];
    } else {
      assert s == "" + s;
    }
  }

  lemma Marks()
    ensures !IsInlineSpace(':') && !IsInlineSpace('#') && !IsInlineSpace('\n') && !IsInlineSpace('\r')
  {
  }

  lemma {:induction false} CommentEnds(comment: string, eol: string, rest: string)
    requires !HasTerminator(comment) && (eol == "\n" || eol == "\r\n")
    ensures CommentEndLength(comment + (eol + rest)) == Some(|comment + eol|)
  {
    hide HasTerminator;
    var s := comment + (eol + rest);
    if comment == "" {
      assert s == eol + rest;
      assert eol == "\r\n" ==> s[1] == '\n';
    } else {
      NoneInside(comment);
      assert s[0] == comment[0] && s[1..] == comment[1..] + (eol + rest);
      CommentEnds(comment[1..], eol, rest);
    }
  }

  lemma NoneInside(s: string)
    requires s != "" && !HasTerminator(s)
    ensures !IsTerminator(s[0]) && !HasTerminator(s[1..])
  {
    assert forall i :: 0 <= i < |s[1..]| ==> s[1..][i] == s[i + 1];
  }

  lemma {:induction false} CommentSplits(s: string) returns (comment: string, eol: string)
    requires CommentEndLength(s).Some?
    ensures !HasTerminator(comment) && (eol == "\n" || eol == "\r\n") && s[..CommentEndLength(s).value] == comment + eol
    ensures s[0] == '#' ==> comment != "" && comment[0] == '#'
  {
    comment, eol := "", "";
    if s[0] == '\n' {
      eol := "\n";
    } else if s[0] == '\r' {
      eol := "\r\n";
    } else {
      comment, eol := CommentSplits(s[1..]);
      var whole := [s[0]] + comment;
      assert s[..CommentEndLength(s).value] == [s[0]] + s[1..][..CommentEndLength(s[1..]).value];
      OneMore(s[0], comment);
      assert s[..CommentEndLength(s).value] == whole + eol;
      comment := whole;
    }
  }

  lemma OneMore(c: char, s: string)
    requires !IsTerminator(c) && !HasTerminator(s)
    ensures !HasTerminator([c] + s)
  {
    assert forall i :: 0 < i < |[c] + s| ==> ([c] + s)[i] == s[i - 1];
  }

  lemma LineEnds(comment: string, eol: string, rest: string)
    requires comment == "" || (comment[0] == '#' && !HasTerminator(comment))
    requires eol == "\n" || eol == "\r\n"
    ensures LineEndLength(comment + (eol + rest)) == Some(|comment + eol|)
  {
    hide HasTerminator, CommentEndLength;
    var s := comment + (eol + rest);
    if comment == "" {
      assert s == eol + rest;
      assert eol == "\r\n" ==> s[1] == '\n';
    } else {
      CommentEnds(comment, eol, rest);
    }
  }

  lemma LineSplits(s: string) returns (comment: string, eol: string)
    requires LineEndLength(s).Some?
    ensures comment == "" || (comment[0] == '#' && !HasTerminator(comment))
    ensures (eol == "\n" || eol == "\r\n") && s[..LineEndLength(s).value] == comment + eol
  {
    hide HasTerminator, CommentEndLength;
    comment, eol := "", "\n";
    if s[0] == '\r' {
      eol := "\r\n";
    } else if s[0] == '#' {
      comment, eol := CommentSplits(s);
    }
  }

  lemma PartsMatch(s: string, key: string, a: string, b: string, comment: string, eol: string, rest: string)
    requires AreParts(key, a, b, comment, eol) && s == Parts(key, a, b, comment, eol) + rest
    ensures HeaderLength(s, key) == Some(|Parts(key, a, b, comment, eol)|)
  {
    hide IsGap, SkipInline, LineEndLength, HasTerminator, IsInlineSpace;
    Marks();
    var tail := comment + (eol + rest);
    var second := b + tail;
    var first := a + (":" + second);
    assert s == key + first by { Regrouped(key, a, b, comment, eol, rest); }
    assert s[..|key|] == key && s[|key|..] == first;
    GapSkipped(a, ":" + second);
    assert (":" + second)[1..] == second;
    assert tail[0] == if comment == "" then eol[0] else comment[0];
    GapSkipped(b, tail);
    LineEnds(comment, eol, rest);
  }

  lemma Regrouped(key: string, a: string, b: string, comment: string, eol: string, rest: string)
    ensures Parts(key, a, b, comment, eol) + rest == key + (a + (":" + (b + (comment + (eol + rest)))))
  {
  }

  lemma MatchSplits(s: string, key: string)
    requires HeaderLength(s, key).Some?
    ensures Begins(s, key, HeaderLength(s, key).value)
  {
    hide IsGap, SkipInline, LineEndLength, HasTerminator, IsInlineSpace;
    var n := HeaderLength(s, key).value;
    var w := s[|key|..];
    var a := SkipSplits(w);
    var t := SkipInline(w);
    var b := SkipSplits(t[1..]);
    var u := SkipInline(t[1..]);
    var comment, eol := LineSplits(u);
    var m := LineEndLength(u).value;
    var rest := u[m..];
    assert u == comment + (eol + rest) by { assert u == u[..m] + rest; }
    assert t == ":" + (b + u);
    assert s == key + w && w == a + t;
    Regrouped(key, a, b, comment, eol, rest);
    assert AreParts(key, a, b, comment, eol) && s == Parts(key, a, b, comment, eol) + rest;
  }

  /** The pattern of a header in words. */
  lemma HeaderIff(s: string, key: string, n: nat)
    ensures HeaderLength(s, key) == Some(n) <==> Begins(s, key, n)
  {
    hide HeaderLength, AreParts, Parts;
    if Begins(s, key, n) {
      var a: string, b: string, comment: string, eol: string, rest: string :|
        AreParts(key, a, b, comment, eol) && s == Parts(key, a, b, comment, eol) + rest &&
        n == |Parts(key, a, b, comment, eol)|;
      PartsMatch(s, key, a, b, comment, eol, rest);
    }
    if HeaderLength(s, key) == Some(n) { MatchSplits(s, key); }
  }

  // ---------------------------------------------------------------- which match counts

  /** A header at the beginning of a line, a line being what any of the four terminators ends. */
  ghost predicate IsHeaderAt(content: string, key: string, i: nat) {
    i <= |content| && (i == 0 || content[i - 1] in ['\n', '\r', '\U{2028}', '\U{2029}']) &&
    exists n :: Begins(content[i..], key, n)
  }

  lemma HeaderAtIff(content: string, key: string, i: nat)
    requires i <= |content|
    ensures IsHeaderAt(content, key, i) <==> AtLineStart(content, i) && HeaderLength(content[i..], key).Some?
  {
    hide HeaderLength, Begins;
    var m := HeaderLength(content[i..], key);
    if m.Some? { HeaderIff(content[i..], key, m.value); }
    if n: nat :| Begins(content[i..], key, n) { HeaderIff(content[i..], key, n); }
  }

  lemma {:induction false} FirstIff(content: string, key: string, i: nat)
    requires i <= |content|
    ensures var r := FirstHeader(content, key, i);
            (r.Some? ==> IsHeaderAt(content, key, r.value)) &&
            forall j :: i <= j < (if r.Some? then r.value else |content| + 1) ==> !IsHeaderAt(content, key, j)
    decreases |content| - i
  {
    hide HeaderLength, IsHeaderAt, AtLineStart;
    HeaderAtIff(content, key, i);
    if !(AtLineStart(content, i) && HeaderLength(content[i..], key).Some?) && i < |content| {
      FirstIff(content, key, i + 1);
    }
  }

  /**
   * The first header of the text counts, provided it stands at its beginning or behind a line feed; no later one
   * does.
   */
  lemma FoundIff(content: string, key: string, i: nat)
    ensures FindHeader(content, key) == Some(i) <==>
            IsHeaderAt(content, key, i) && (i == 0 || content[i - 1] == '\n') &&
            forall j :: 0 <= j < i ==> !IsHeaderAt(content, key, j)
  {
    hide FirstHeader, HeaderLength, Begins;
    FirstIff(content, key, 0);
    if IsHeaderAt(content, key, i) && forall j :: 0 <= j < i ==> !IsHeaderAt(content, key, j) {
      var r := FirstHeader(content, key, 0);
      assert r.Some? && r.value == i;
    }
  }
}
