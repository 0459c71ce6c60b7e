/** Scalars of the desktop's config.yaml bridge: `yamlQuote`, `stripScalar` and the line terminators of `.`. */
module ConfigScalars {
  import opened Text
  import opened Quoting

  /** What `.` does not match. */
  predicate IsTerminator(c: char) {
    c == '\n' || c == '\r' || c == '\U{2028}' || c == '\U{2029}'
  }

  predicate HasTerminator(s: string) {
    exists i :: 0 <= i < |s| && IsTerminator(s[i])
  }

  /** `[^\S\r\n]` */
  predicate IsInlineSpace(c: char) {
    IsSpace(EcmaScript, c) && c != '\r' && c != '\n'
  }

  function SkipInline(s: string): (r: string)
    ensures |r| <= |s|
  {
    if s != "" && IsInlineSpace(s[0]) then SkipInline(s[1..]) else s
  }

  /** Length of `((?:[^"\\]|\\.)*)` when a quote follows it. */
  function DoubleQuotedLength(s: string): (r: Option<nat>)
    ensures r.Some? ==> r.value < |s|
  {
    if s == "" then None
    else if s[0] == '"' then Some(0)
    else if s[0] == '\\' then
      if |s| > 1 && !IsTerminator(s[1]) then
        var rest := DoubleQuotedLength(s[2..]);
        if rest.Some? then Some(2 + rest.value) else None
      else None
    else
      var rest := DoubleQuotedLength(s[1..]);
      if rest.Some? then Some(1 + rest.value) else None
  }

  /** Length of `((?:[^']|'')*)` when a quote follows it; the pair is tried before the closing quote. */
  function SingleQuotedLength(s: string): (r: Option<nat>)
    ensures r.Some? ==> r.value < |s|
  {
    if s == "" then None
    else if s[0] == '\'' then
      if |s| > 1 && s[1] == '\'' then
        var rest := SingleQuotedLength(s[2..]);
        if rest.Some? then Some(2 + rest.value) else Some(0)
      else Some(0)
    else
      var rest := SingleQuotedLength(s[1..]);
      if rest.Some? then Some(1 + rest.value) else None
  }

  /** `s.replace(/\s+#.*$/, "")` */
  function CutComment(s: string): string {
    if s == "" then ""
    else
      var t := TrimStart(EcmaScript, s);
      if IsSpace(EcmaScript, s[0]) && t != "" && t[0] == '#' && !HasTerminator(t) then ""
      else [s[0]] + CutComment(s[1..])
  }

  /** `s.replace(/^["']|["']$/g, "")` */
  function DropOuterQuotes(s: string): string {
    var t := if s != "" && (s[0] == '"' || s[0] == '\'') then s[1..] else s;
    if t != "" && (t[|t| - 1] == '"' || t[|t| - 1] == '\'') then t[..|t| - 1] else t
  }

  /** `stripScalar` */
  function StripScalar(raw: string): string {
    var t := Trim(EcmaScript, raw);
    var dq := if t != "" && t[0] == '"' then DoubleQuotedLength(t[1..]) else None;
    if dq.Some? then UnescapeOnePass(t[1..1 + dq.value])
    else
      var sq := if t != "" && t[0] == '\'' then SingleQuotedLength(t[1..]) else None;
      if sq.Some? then ReplacePair(t[1..1 + sq.value], '\'', '\'', "'")
      else Trim(EcmaScript, DropOuterQuotes(CutComment(t)))
  }

  lemma {:induction false} EscapedBodyEndsAtQuote(s: string, tail: string)
    ensures DoubleQuotedLength(Escape(s) + "\"" + tail) == Some(|Escape(s)|)
  {
    hide Escape;
    if s == "" {
      EscapeOfNothing();
      assert Escape("") + "\"" + tail == "\"" + tail;
    } else {
      EscapeStep(s);
      EscapedBodyEndsAtQuote(s[1..], tail);
      var e, w := EscapeOf(s[0]), Escape(s[1..]) + "\"" + tail;
      assert Escape(s) + "\"" + tail == e + w;
      assert (e + w)[|e|..] == w;
    }
  }

  /**
   * The desktop's reader inverts its writer for every string, whatever stands after the closing
   * quote: padding, a comment, or anything else.
   */
  lemma StripInvertsQuote(v: string, pad: string, tail: string)
    requires forall i :: 0 <= i < |pad| ==> IsSpace(EcmaScript, pad[i])
    ensures StripScalar(pad + Quote(v) + tail) == v
  {
    hide TrimStart, TrimEnd, IsSpace, Escape, UnescapeOnePass;
    var kept := TrimKeepsHead(pad, Quote(v), tail);
    var t := Quote(v) + kept;
    assert t[1..] == Escape(v) + "\"" + kept;
    EscapedBodyEndsAtQuote(v, kept);
    assert t[1..1 + |Escape(v)|] == Escape(v);
    OnePassInvertsEscape(v);
  }

  /** Trimming cannot reach into a quoted scalar. */
  lemma TrimKeepsHead(pad: string, quoted: string, tail: string) returns (kept: string)
    requires forall i :: 0 <= i < |pad| ==> IsSpace(EcmaScript, pad[i])
    requires |quoted| >= 2 && quoted[0] == '"' && quoted[|quoted| - 1] == '"'
    ensures Trim(EcmaScript, pad + quoted + tail) == quoted + kept
  {
    hide TrimStart, TrimEnd;
    TrimStartOfPadded(EcmaScript, pad, quoted + tail);
    assert pad + quoted + tail == pad + (quoted + tail);
    var r := TrimEnd(EcmaScript, quoted + tail);
    TrimEndShape(EcmaScript, quoted + tail);
    assert (quoted + tail)[|quoted| - 1] == '"';
    kept := r[|quoted|..];
  }

  lemma StripOfQuote(v: string)
    ensures StripScalar(Quote(v)) == v
  {
    hide StripScalar, Quote;
    StripInvertsQuote(v, "", "");
    assert "" + Quote(v) + "" == Quote(v);
  }

  lemma QuoteKeepsOneLine(v: string)
    requires !HasTerminator(v)
    ensures !HasTerminator(Quote(v))
  {
    hide Escape;
    EscapeKeepsOneLine(v);
  }

  lemma {:induction false} EscapeKeepsOneLine(v: string)
    requires !HasTerminator(v)
    ensures !HasTerminator(Escape(v))
  {
    hide Escape;
    if v == "" {
      EscapeOfNothing();
    } else {
      EscapeStep(v);
      EscapeKeepsOneLine(v[1..]);
    }
  }

  // ---------------------------------------------------------------- counting line terminators

  function Breaks(s: string): nat {
    if s == "" then 0 else (if IsTerminator(s[0]) then 1 else 0) + Breaks(s[1..])
  }

  lemma {:induction false} BreaksConcat(a: string, b: string)
    ensures Breaks(a + b) == Breaks(a) + Breaks(b)
  {
    if a == "" {
      assert a + b == b;
    } else {
      assert (a + b)[1..] == a[1..] + b;
      BreaksConcat(a[1..], b);
    }
  }

  lemma {:induction false} BreaksIff(s: string)
    ensures HasTerminator(s) <==> Breaks(s) > 0
  {
    if s != "" {
      BreaksIff(s[1..]);
      if HasTerminator(s[1..]) {
        var i :| 0 <= i < |s[1..]| && IsTerminator(s[1..][i]);
        assert IsTerminator(s[i + 1]);
      }
      if HasTerminator(s) && !IsTerminator(s[0]) {
        var i :| 0 <= i < |s| && IsTerminator(s[i]);
        assert IsTerminator(s[1..][i - 1]);
      }
    }
  }

  lemma {:induction false} BreaksReplaced(s: string, c: char, with: string)
    requires !IsTerminator(c) && !HasTerminator(with)
    ensures Breaks(ReplaceChar(s, c, with)) == Breaks(s)
  {
    if s != "" {
      BreaksReplaced(s[1..], c, with);
      var head := if s[0] == c then with else [s[0]];
      BreaksConcat(head, ReplaceChar(s[1..], c, with));
      BreaksIff(with);
      assert [s[0]][1..] == "";
    }
  }
}
