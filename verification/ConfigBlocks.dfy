/** What the two provider sections of config.yaml share: how a block header and the lines after it are found. */
module ConfigBlocks {
  import opened Text
  import opened ConfigScalars

  /** `(#.*)?\r?\n` at the start of a text: the length of the match. */
  function LineEndLength(s: string): (r: Option<nat>)
    ensures r.Some? ==> 0 < r.value <= |s|
  {
    if s == "" then None
    else if s[0] == '\n' then Some(1)
    else if s[0] == '\r' then (if |s| > 1 && s[1] == '\n' then Some(2) else None)
    else if s[0] == '#' then CommentEndLength(s)
    else None
  }

  function CommentEndLength(s: string): (r: Option<nat>)
    ensures r.Some? ==> 0 < r.value <= |s|
  {
    if s == "" then None
    else if s[0] == '\n' then Some(1)
    else if s[0] == '\r' then (if |s| > 1 && s[1] == '\n' then Some(2) else None)
    else if IsTerminator(s[0]) then None
    else
      var rest := CommentEndLength(s[1..]);
      if rest.Some? then Some(1 + rest.value) else None
  }

  /** `[^\S\r\n]*:[^\S\r\n]*(#.*)?\r?\n` at the start of a text: the length of the match. */
  function HeaderTail(s: string): (r: Option<nat>)
    ensures r.Some? ==> 0 < r.value <= |s|
  {
    var t := SkipInline(s);
    if t == "" || t[0] != ':' then None
    else
      var u := SkipInline(t[1..]);
      var end := LineEndLength(u);
      if end.Some? then Some(|s| - |u| + end.value) else None
  }

  /** The header of a block at the start of a text: its key, then `HeaderTail`. */
  function HeaderLength(s: string, key: string): (r: Option<nat>)
    ensures r.Some? ==> 0 < r.value <= |s|
  {
    if !StartsWith(s, key) then None
    else
      var tail := HeaderTail(s[|key|..]);
      if tail.Some? then Some(|key| + tail.value) else None
  }

  /** `^` with the `m` flag. */
  predicate AtLineStart(content: string, i: nat)
    requires i <= |content|
  {
    i == 0 || IsTerminator(content[i - 1])
  }

  /** The leftmost match of the header pattern at or after `i`. */
  function FirstHeader(content: string, key: string, i: nat): (r: Option<nat>)
    requires i <= |content|
    ensures r.Some? ==> i <= r.value <= |content| && HeaderLength(content[r.value..], key).Some?
    decreases |content| - i
  {
    if AtLineStart(content, i) && HeaderLength(content[i..], key).Some? then Some(i)
    else if i == |content| then None
    else FirstHeader(content, key, i + 1)
  }

  /** A header counts only after a line feed or at the very start. */
  function FindHeader(content: string, key: string): (r: Option<nat>)
    ensures r.Some? ==> r.value <= |content| && HeaderLength(content[r.value..], key).Some?
  {
    var first := FirstHeader(content, key, 0);
    if first.None? || (first.value > 0 && content[first.value - 1] != '\n') then None else first
  }

  /** Length of the first line with its line feed. */
  function LineLength(s: string): (n: nat)
    ensures n <= |s| && (s != "" ==> n > 0)
  {
    if s == "" then 0 else if s[0] == '\n' then 1 else 1 + LineLength(s[1..])
  }

  /** `line.replace(/\r?\n$/, "")` */
  function Chomp(line: string): string {
    if line == "" || line[|line| - 1] != '\n' then line
    else if |line| > 1 && line[|line| - 2] == '\r' then line[..|line| - 2]
    else line[..|line| - 1]
  }

  /** `/^\s*$/` */
  predicate IsBlank(text: string) {
    TrimStart(EcmaScript, text) == ""
  }

  /** Length of `^[ \t]*`. */
  function IndentRun(t: string): (n: nat)
    ensures n <= |t|
  {
    if t != "" && (t[0] == ' ' || t[0] == '\t') then 1 + IndentRun(t[1..]) else 0
  }

  function Separator(content: string): string {
    if content == "" || content[|content| - 1] == '\n' then "" else "\n"
  }

  // ---------------------------------------------------------------- a header depends on its own line only

  lemma {:induction false} SkipInlineBefore(s: string, t: string)
    requires '\n' in s
    ensures '\n' in SkipInline(s) && SkipInline(s + t) == SkipInline(s) + t
  {
    hide IsSpace, IsInlineSpace;
    assert (s + t)[0] == s[0];
    assert s == [s[0]] + s[1..];
    if IsInlineSpace(s[0]) {
      assert s[0] != '\n' by { BreakIsNoInlineSpace(); }
      assert (s + t)[1..] == s[1..] + t;
      SkipInlineBefore(s[1..], t);
    }
  }

  lemma BreakIsNoInlineSpace()
    ensures !IsInlineSpace('\n') && !IsInlineSpace(':')
  {
  }

  lemma {:induction false} CommentEndBefore(s: string, t: string)
    requires '\n' in s
    ensures CommentEndLength(s + t) == CommentEndLength(s)
  {
    assert (s + t)[0] == s[0];
    assert s == [s[0]] + s[1..];
    assert (s + t)[1..] == s[1..] + t;
    if s[0] != '\n' {
      if s[0] == '\r' {
        assert |s| > 1 && (s + t)[1] == s[1];
      } else if !IsTerminator(s[0]) {
        CommentEndBefore(s[1..], t);
      }
    }
  }

  lemma LineEndBefore(s: string, t: string)
    requires '\n' in s
    ensures LineEndLength(s + t) == LineEndLength(s)
  {
    hide CommentEndLength;
    assert (s + t)[0] == s[0];
    assert s == [s[0]] + s[1..];
    CommentEndBefore(s, t);
    if s[0] == '\r' { assert |s| > 1 && (s + t)[1] == s[1]; }
  }

  lemma HeaderTailBefore(s: string, t: string)
    requires '\n' in s
    ensures HeaderTail(s + t) == HeaderTail(s)
  {
    hide SkipInline, LineEndLength;
    SkipInlineBefore(s, t);
    var v := SkipInline(s);
    assert (v + t)[0] == v[0];
    if v[0] == ':' {
      assert (v + t)[1..] == v[1..] + t;
      assert v == [v[0]] + v[1..];
      SkipInlineBefore(v[1..], t);
      LineEndBefore(SkipInline(v[1..]), t);
    }
  }

  /** Whether a header starts a text depends on its first line only. */
  lemma HeaderBefore(s: string, t: string, key: string)
    requires s != "" && s[|s| - 1] == '\n' && key != "" && '\n' !in key
    ensures HeaderLength(s + t, key) == HeaderLength(s, key)
  {
    hide HeaderTail;
    KeyStaysInLine(s, t, key);
    if key <= s {
      assert (s + t)[|key|..] == s[|key|..] + t;
      HeaderTailBefore(s[|key|..], t);
    }
  }

  lemma KeyStaysInLine(s: string, t: string, key: string)
    requires s != "" && s[|s| - 1] == '\n' && key != "" && '\n' !in key
    ensures key <= s + t <==> key <= s
    ensures key <= s ==> '\n' in s[|key|..]
  {
    if |key| >= |s| {
      assert key[|s| - 1] != (s + t)[|s| - 1];
    } else {
      assert (s + t)[..|key|] == s[..|key|];
      assert s[|key|..][|s| - |key| - 1] == '\n';
    }
  }

  lemma {:induction false} LineLengthOf(l: string, rest: string)
    requires '\n' !in l
    ensures LineLength(l + "\n" + rest) == |l| + 1
  {
    var s := l + "\n" + rest;
    if l != "" {
      assert s[1..] == l[1..] + "\n" + rest;
      LineLengthOf(l[1..], rest);
    }
  }

  lemma ChompLine(l: string)
    requires l == "" || l[|l| - 1] != '\r'
    ensures Chomp(l + "\n") == l
  {
    assert (l + "\n")[..|l|] == l;
    if l != "" { assert (l + "\n")[|l| - 1] == l[|l| - 1]; }
  }

  lemma AtBaseEnd(base: string, block: string)
    requires base == "" || base[|base| - 1] == '\n'
    ensures AtLineStart(base + block, |base|)
  {
    if base != "" { assert (base + block)[|base| - 1] == base[|base| - 1]; }
  }
}
