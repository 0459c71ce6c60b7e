/** String operations of the two host languages, over `seq<char>`. */
module Text {

  datatype Option<+T> = None | Some(value: T)

  /** The language whose notion of white space a `strip`/`trim` uses. */
  datatype Host = Python | EcmaScript

  /** White space outside ASCII that both languages agree on. */
  predicate SharedWideSpace(c: char) {
    var n := c as int;
    n == 0xA0 || n == 0x1680 || 0x2000 <= n <= 0x200A || n == 0x2028 || n == 0x2029 ||
    n == 0x202F || n == 0x205F || n == 0x3000
  }

  predicate IsSpace(h: Host, c: char) {
    var n := c as int;
    9 <= n <= 13 || n == 32 || SharedWideSpace(c) ||
    (h == Python && (28 <= n <= 31 || n == 0x85)) ||
    (h == EcmaScript && n == 0xFEFF)
  }

  /** Lower case, for the ASCII letters. */
  function Lower(s: string): string {
    seq(|s|, i requires 0 <= i < |s| => if 'A' <= s[i] <= 'Z' then 'a' + (s[i] - 'A') else s[i])
  }

  /** One letter in either case, or one other character. */
  predicate SameChar(c: char, d: char) {
    c == d || ('A' <= c <= 'Z' && d == 'a' + (c - 'A')) || ('A' <= d <= 'Z' && c == 'a' + (d - 'A'))
  }

  predicate SameLetters(a: string, b: string) {
    |a| == |b| && forall i :: 0 <= i < |a| ==> SameChar(a[i], b[i])
  }

  lemma LowerIff(a: string, b: string)
    ensures Lower(a) == Lower(b) <==> SameLetters(a, b)
  {
    if Lower(a) == Lower(b) {
      assert |Lower(a)| == |a| && |Lower(b)| == |b|;
      forall i | 0 <= i < |a| ensures SameChar(a[i], b[i]) {
        assert Lower(a)[i] == Lower(b)[i];
      }
    }
  }

  /** No element occurs twice. */
  predicate Distinct(s: seq<string>) {
    forall i, j :: 0 <= i < j < |s| ==> s[i] != s[j]
  }

  function TrimStart(h: Host, s: string): (r: string)
    ensures |r| <= |s|
  {
    if s != "" && IsSpace(h, s[0]) then TrimStart(h, s[1..]) else s
  }

  function TrimEnd(h: Host, s: string): (r: string)
    ensures |r| <= |s|
  {
    if s != "" && IsSpace(h, s[|s| - 1]) then TrimEnd(h, s[..|s| - 1]) else s
  }

  function Trim(h: Host, s: string): (r: string) {
    TrimEnd(h, TrimStart(h, s))
  }

  lemma {:induction false} TrimStartShape(h: Host, s: string)
    ensures var r := TrimStart(h, s);
            r == s[|s| - |r|..] && (r != "" ==> !IsSpace(h, r[0])) &&
            forall i :: 0 <= i < |s| - |r| ==> IsSpace(h, s[i])
  {
    hide IsSpace;
    if s != "" && IsSpace(h, s[0]) {
      TrimStartShape(h, s[1..]);
      var r := TrimStart(h, s);
      forall i | 0 <= i < |s| - |r| ensures IsSpace(h, s[i]) {
        if i > 0 { assert s[i] == s[1..][i - 1]; }
      }
    }
  }

  lemma {:induction false} TrimEndShape(h: Host, s: string)
    ensures var r := TrimEnd(h, s);
            r <= s && (r != "" ==> !IsSpace(h, r[|r| - 1])) &&
            forall i :: |r| <= i < |s| ==> IsSpace(h, s[i])
  {
    hide IsSpace;
    if s != "" && IsSpace(h, s[|s| - 1]) { TrimEndShape(h, s[..|s| - 1]); }
  }

  /** No padding at either end. */
  predicate Tight(h: Host, s: string) {
    s == "" || (!IsSpace(h, s[0]) && !IsSpace(h, s[|s| - 1]))
  }

  lemma TrimIsIdentityOnTight(h: Host, s: string)
    ensures Trim(h, s) == s <==> Tight(h, s)
  {
    hide IsSpace;
    TrimIsTight(h, s);
  }

  lemma TrimIsTight(h: Host, s: string)
    ensures Tight(h, Trim(h, s))
  {
    hide IsSpace, TrimStart, TrimEnd;
    var t := TrimStart(h, s);
    var r := TrimEnd(h, t);
    TrimStartShape(h, s);
    TrimEndShape(h, t);
    if r != "" {
      assert r[0] == t[0];
    }
  }

  /** Anything but white space. */
  predicate HasInk(h: Host, s: string) {
    exists i :: 0 <= i < |s| && !IsSpace(h, s[i])
  }

  lemma InkIff(h: Host, s: string)
    ensures Trim(h, s) != "" <==> HasInk(h, s)
  {
    hide IsSpace, TrimStart, TrimEnd;
    var t := TrimStart(h, s);
    var r := TrimEnd(h, t);
    TrimStartShape(h, s);
    TrimEndShape(h, t);
    if t != "" { assert t[0] == s[|s| - |t|] && HasInk(h, s); }
    if HasInk(h, s) && t != "" { assert r != ""; }
  }

  function Spaces(n: nat): (s: string)
    ensures |s| == n && forall i :: 0 <= i < n ==> s[i] == ' '
  {
    seq(n, _ => ' ')
  }

  lemma TrimStartOfUnpadded(h: Host, s: string)
    requires s == "" || !IsSpace(h, s[0])
    ensures TrimStart(h, s) == s
  {
  }

  lemma {:induction false} TrimStartOfPadded(h: Host, pad: string, s: string)
    requires forall c :: c in pad ==> IsSpace(h, c)
    requires s == "" || !IsSpace(h, s[0])
    ensures TrimStart(h, pad + s) == s
  {
    if pad == "" {
      assert pad + s == s;
    } else {
      assert (pad + s)[1..] == pad[1..] + s;
      TrimStartOfPadded(h, pad[1..], s);
    }
  }

  lemma {:induction false} TrimEndOfPadded(h: Host, s: string, pad: string)
    requires forall c :: c in pad ==> IsSpace(h, c)
    requires s == "" || !IsSpace(h, s[|s| - 1])
    ensures TrimEnd(h, s + pad) == s
  {
    if pad == "" {
      assert s + pad == s;
    } else {
      assert (s + pad)[..|s + pad| - 1] == s + pad[..|pad| - 1];
      TrimEndOfPadded(h, s, pad[..|pad| - 1]);
    }
  }

  lemma TrimOfIndented(h: Host, n: nat, body: string)
    requires body != "" && Tight(h, body)
    ensures TrimStart(h, Spaces(n) + body) == body && Trim(h, Spaces(n) + body) == body
  {
    TrimStartOfPadded(h, Spaces(n), body);
    TrimIsIdentityOnTight(h, body);
    TrimStartOfUnpadded(h, body);
  }

  predicate StartsWith(s: string, prefix: string) {
    prefix <= s
  }

  predicate EndsWith(s: string, suffix: string) {
    |suffix| <= |s| && s[|s| - |suffix|..] == suffix
  }

  /** `sub in s` for strings. */
  predicate Contains(s: string, sub: string) {
    StartsWith(s, sub) || (s != "" && Contains(s[1..], sub))
  }

  /** Index of the first `c` in `s`; `|s|` when there is none. */
  function IndexOf(s: string, c: char): (i: nat)
    ensures i <= |s|
    ensures forall k :: 0 <= k < i ==> s[k] != c
    ensures i < |s| ==> s[i] == c
  {
    if s == "" || s[0] == c then 0 else 1 + IndexOf(s[1..], c)
  }

  lemma IndexOfFirst(s: string, c: char, t: string)
    requires c !in s
    ensures IndexOf(s + [c] + t, c) == |s|
  {
    var w := s + [c] + t;
    assert w[|s|] == c;
    assert forall k :: 0 <= k < |s| ==> w[k] == s[k];
  }

  /** Replace every occurrence of one character by a string. */
  function ReplaceChar(s: string, c: char, with: string): string {
    if s == "" then "" else (if s[0] == c then with else [s[0]]) + ReplaceChar(s[1..], c, with)
  }

  /** Replace every occurrence, left to right and without overlap, of the pair `a b`. */
  function ReplacePair(s: string, a: char, b: char, with: string): string {
    if |s| < 2 then s
    else if s[0] == a && s[1] == b then with + ReplacePair(s[2..], a, b, with)
    else [s[0]] + ReplacePair(s[1..], a, b, with)
  }

  /** No characters but those of another text. */
  ghost predicate Within(a: string, s: string) {
    forall c :: c in a ==> c in s
  }

  lemma {:induction false} PairWithin(s: string, a: char, b: char)
    ensures Within(ReplacePair(s, a, b, [b]), s)
    decreases |s|
  {
    if |s| >= 2 {
      if s[0] == a && s[1] == b {
        PairWithin(s[2..], a, b);
        assert s[1] in s && forall c :: c in s[2..] ==> c in s;
      } else {
        PairWithin(s[1..], a, b);
        assert s[0] in s && forall c :: c in s[1..] ==> c in s;
      }
    }
  }

  /** Concatenation with a separator between neighbours. */
  function Join(parts: seq<string>, sep: string): string {
    if parts == [] then ""
    else if |parts| == 1 then parts[0]
    else parts[0] + sep + Join(parts[1..], sep)
  }

  /** `s.split("\n")` */
  function SplitLines(s: string): (r: seq<string>)
    ensures |r| >= 1
  {
    if s == "" then [""]
    else
      var rest := SplitLines(s[1..]);
      if s[0] == '\n' then [""] + rest else [[s[0]] + rest[0]] + rest[1..]
  }

  lemma {:induction false} JoinOfSplit(s: string)
    ensures Join(SplitLines(s), "\n") == s
  {
    if s != "" {
      JoinOfSplit(s[1..]);
      var rest := SplitLines(s[1..]);
      if s[0] == '\n' {
        assert ([""] + rest)[1..] == rest;
      } else {
        assert ([[s[0]] + rest[0]] + rest[1..])[1..] == rest[1..];
      }
    }
  }

  lemma {:induction false} SplitOfJoin(parts: seq<string>)
    requires parts != []
    requires forall p :: p in parts ==> '\n' !in p
    ensures SplitLines(Join(parts, "\n")) == parts
  {
    if |parts| == 1 {
      SplitOfPlain(parts[0]);
    } else {
      SplitOfJoin(parts[1..]);
      SplitAtBreak(parts[0], Join(parts[1..], "\n"));
    }
  }

  lemma {:induction false} SplitOfPlain(s: string)
    requires '\n' !in s
    ensures SplitLines(s) == [s]
  {
    if s != "" {
      SplitOfPlain(s[1..]);
      assert [s[0]] + s[1..] == s;
    }
  }

  lemma {:induction false} SplitAtBreak(a: string, b: string)
    requires '\n' !in a
    ensures SplitLines(a + "\n" + b) == [a] + SplitLines(b)
  {
    var s := a + "\n" + b;
    if a == "" {
      assert s[1..] == b;
    } else {
      assert s[1..] == a[1..] + "\n" + b;
      SplitAtBreak(a[1..], b);
      assert [a[0]] + a[1..] == a;
    }
  }

  lemma {:induction false} SplitConcat(a: string, b: string)
    ensures SplitLines(a + "\n" + b) == SplitLines(a) + SplitLines(b)
  {
    hide SplitLines;
    if a == "" {
      assert a + "\n" + b == ['\n'] + b && SplitLines("") == [""] by { SplitOfPlain(""); }
      SplitStep('\n', b);
    } else {
      var tail := a[1..] + "\n" + b;
      assert a == [a[0]] + a[1..] && a + "\n" + b == [a[0]] + tail;
      SplitConcat(a[1..], b);
      SplitStep(a[0], a[1..]);
      SplitStep(a[0], tail);
      PrependConcat(a[0], SplitLines(a[1..]), SplitLines(b));
    }
  }

  /** A character put before the lines of a text. */
  function Prepend(c: char, lines: seq<string>): seq<string>
    requires lines != []
  {
    if c == '\n' then [""] + lines else [[c] + lines[0]] + lines[1..]
  }

  lemma SplitStep(c: char, s: string)
    ensures SplitLines([c] + s) == Prepend(c, SplitLines(s))
  {
    assert ([c] + s)[1..] == s;
  }

  lemma PrependConcat(c: char, a: seq<string>, b: seq<string>)
    requires a != []
    ensures Prepend(c, a + b) == Prepend(c, a) + b
  {
    assert (a + b)[1..] == a[1..] + b;
  }

  lemma {:induction false} SplitIsPlain(s: string)
    ensures forall l :: l in SplitLines(s) ==> '\n' !in l
  {
    if s != "" { SplitIsPlain(s[1..]); }
  }
}
