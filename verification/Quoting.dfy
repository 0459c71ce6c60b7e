/**
 * The double-quoted scalar codec shared by the two configuration writers: a two-pass escape
 * (`yamlQuote` and the quoting branch of `_format_scalar`), the two-pass unescape of the release
 * tooling and the one-pass unescape of the desktop.
 */
module Quoting {
  import opened Text

  /** Backslashes are doubled first, then quotes get a backslash. */
  function Escape(s: string): string {
    ReplaceChar(ReplaceChar(s, '\\', "\\\\"), '"', "\\\"")
  }

  function Quote(s: string): string {
    "\"" + Escape(s) + "\""
  }

  /** `inner.replace('\\"', '"').replace("\\\\", "\\")` */
  function UnescapeTwoPass(inner: string): string {
    ReplacePair(ReplacePair(inner, '\\', '"', "\""), '\\', '\\', "\\")
  }

  /** `inner.replace(/\\(["\\])/g, "$1")` */
  function UnescapeOnePass(inner: string): string {
    if |inner| < 2 then inner
    else if inner[0] == '\\' && (inner[1] == '"' || inner[1] == '\\') then [inner[1]] + UnescapeOnePass(inner[2..])
    else [inner[0]] + UnescapeOnePass(inner[1..])
  }

  /** Escaping acts on each character by itself. */
  function EscapeOf(c: char): string {
    if c == '\\' then "\\\\" else if c == '"' then "\\\"" else [c]
  }

  lemma EscapeStep(s: string)
    requires s != ""
    ensures Escape(s) == EscapeOf(s[0]) + Escape(s[1..])
  {
    var rest := ReplaceChar(s[1..], '\\', "\\\\");
    if s[0] == '\\' {
      var w := "\\\\" + rest;
      assert w[1..][1..] == rest;
      assert ReplaceChar(w, '"', "\\\"") == "\\" + ReplaceChar(w[1..], '"', "\\\"");
      assert ReplaceChar(w[1..], '"', "\\\"") == "\\" + ReplaceChar(rest, '"', "\\\"");
    } else {
      var w := [s[0]] + rest;
      assert w[1..] == rest;
    }
  }

  /** The desktop's decoder inverts the escape, whatever the string. */
  lemma {:induction false} OnePassInvertsEscape(s: string)
    ensures UnescapeOnePass(Escape(s)) == s
  {
    if s != "" {
      EscapeStep(s);
      OnePassInvertsEscape(s[1..]);
      var e, t := EscapeOf(s[0]), Escape(s[1..]);
      assert (e + t)[|e|..] == t;
      if |s| == 1 {
        assert e + t == e;
        assert UnescapeOnePass(e) == s by { if |e| == 2 { assert e[2..] == ""; } }
      } else {
        EscapeIsNonEmpty(s[1..]);
        if |e| == 2 {
          assert (e + t)[2..] == t;
        } else {
          assert (e + t)[1..] == t;
        }
      }
      assert [s[0]] + s[1..] == s;
    }
  }

  lemma EscapeIsNonEmpty(s: string)
    requires s != ""
    ensures |Escape(s)| > 0
  {
    EscapeStep(s);
  }

  lemma LoneBackslash(t: string)
    requires t == "" || t[0] != '"'
    ensures ReplacePair(['\\'] + t, '\\', '"', "\"") == ['\\'] + ReplacePair(t, '\\', '"', "\"")
  {
    assert (['\\'] + t)[1..] == t;
  }

  /** The escaped rest of a string never starts with a quote, so a backslash before it stays alone. */
  lemma BackslashPairSurvives(t: string)
    requires t == "" || t[0] != '"'
    ensures ReplacePair("\\\\" + t, '\\', '"', "\"") == "\\\\" + ReplacePair(t, '\\', '"', "\"")
  {
    hide ReplacePair;
    LoneBackslash(t);
    LoneBackslash(['\\'] + t);
    assert "\\\\" + t == ['\\'] + (['\\'] + t);
    assert "\\\\" + ReplacePair(t, '\\', '"', "\"") == ['\\'] + (['\\'] + ReplacePair(t, '\\', '"', "\""));
  }

  /** First pass of the two-pass decoder: it undoes exactly the quote escapes. */
  lemma {:induction false} FirstPassKeepsDoubledBackslashes(s: string)
    ensures ReplacePair(Escape(s), '\\', '"', "\"") == ReplaceChar(s, '\\', "\\\\")
  {
    hide Escape;
    if s == "" {
      assert Escape("") == "" by { EscapeOfNothing(); }
    } else {
      EscapeStep(s);
      FirstPassKeepsDoubledBackslashes(s[1..]);
      var e, t := EscapeOf(s[0]), Escape(s[1..]);
      if s[0] == '"' {
        assert (e + t)[2..] == t;
      } else if s[0] == '\\' {
        EscapeStartsWithNoQuote(s[1..]);
        BackslashPairSurvives(t);
      } else {
        assert (e + t)[1..] == t;
        if t == "" { assert e + t == e; }
      }
    }
  }

  lemma EscapeOfNothing()
    ensures Escape("") == ""
  {
  }

  lemma EscapeStartsWithNoQuote(s: string)
    ensures Escape(s) == "" || Escape(s)[0] != '"'
  {
    if s != "" { EscapeStep(s); }
  }

  /** Second pass: it halves the doubled backslashes. */
  lemma {:induction false} SecondPassHalvesBackslashes(s: string)
    ensures ReplacePair(ReplaceChar(s, '\\', "\\\\"), '\\', '\\', "\\") == s
  {
    if s != "" {
      SecondPassHalvesBackslashes(s[1..]);
      var t := ReplaceChar(s[1..], '\\', "\\\\");
      if s[0] == '\\' {
        assert ("\\\\" + t)[2..] == t;
      } else {
        assert ([s[0]] + t)[1..] == t;
        if t == "" { assert [s[0]] + t == [s[0]]; }
      }
      assert [s[0]] + s[1..] == s;
    }
  }

  /** The release tooling's decoder inverts the escape, whatever the string. */
  lemma TwoPassInvertsEscape(s: string)
    ensures UnescapeTwoPass(Escape(s)) == s
  {
    FirstPassKeepsDoubledBackslashes(s);
    SecondPassHalvesBackslashes(s);
  }
}
