/** The three ways to write a scalar in config.yaml, and what `stripScalar` reads in each. */
module ConfigScalarForms {
  import opened Text
  import opened ConfigScalars

  /** A text in single quotes doubles the ones inside it. */
  function Doubled(s: string): string {
    if s == "" then "" else (if s[0] == '\'' then "''" else [s[0]]) + Doubled(s[1..])
  }

  predicate IsPadding(s: string) {
    forall i :: 0 <= i < |s| ==> IsSpace(EcmaScript, s[i])
  }

  /** Nothing, or white space and a comment up to the end of the line. */
  predicate IsRemark(s: string) {
    s == "" || (IsSpace(EcmaScript, s[0]) && !HasTerminator(TrimStart(EcmaScript, s)) &&
                (TrimStart(EcmaScript, s) == "" || TrimStart(EcmaScript, s)[0] == '#'))
  }

  /** A text that needs no quotes: no padding, no quote at an end, no comment inside. */
  predicate IsPlainScalar(v: string) {
    v != "" && Tight(EcmaScript, v) && v[0] !in "\"'" && v[|v| - 1] !in "\"'" &&
    forall i :: 0 <= i < |v| - 1 ==> !(IsSpace(EcmaScript, v[i]) && v[i + 1] == '#')
  }

  // ---------------------------------------------------------------- single quotes

  lemma {:induction false} SingleBody(s: string, tail: string)
    requires tail == "" || tail[0] != '\''
    ensures SingleQuotedLength(Doubled(s) + "'" + tail) == Some(|Doubled(s)|)
  {
    if s == "" {
      assert Doubled(s) + "'" + tail == "'" + tail;
    } else {
      SingleBody(s[1..], tail);
      var rest := Doubled(s[1..]) + "'" + tail;
      var c := if s[0] == '\'' then "''" else [s[0]];
      assert Doubled(s) + "'" + tail == c + rest;
      assert (c + rest)[|c|..] == rest;
    }
  }

  lemma {:induction false} DoubledBack(s: string)
    ensures ReplacePair(Doubled(s), '\'', '\'', "'") == s
  {
    if s != "" {
      DoubledBack(s[1..]);
      var d := Doubled(s[1..]);
      if s[0] == '\'' {
        assert Doubled(s)[2..] == d;
        assert "'" + s[1..] == s;
      } else {
        assert Doubled(s)[1..] == d && Doubled(s)[0] == s[0];
        assert [s[0]] + s[1..] == s;
      }
    }
  }

  /** A text in single quotes is read back, whatever stands before and behind it short of another quote. */
  lemma SingleQuotedIsRead(v: string, pad: string, tail: string)
    requires IsPadding(pad) && (tail == "" || tail[0] != '\'')
    ensures StripScalar(pad + ("'" + Doubled(v) + "'") + tail) == v
  {
    hide TrimStart, TrimEnd, IsSpace, Doubled, SingleQuotedLength, ReplacePair;
    MarksAreNoSpace();
    var quoted := "'" + Doubled(v) + "'";
    var kept := TrimBehind(pad, quoted, tail);
    var t := quoted + kept;
    assert t[1..] == Doubled(v) + "'" + kept;
    SingleBody(v, kept);
    assert t[1..1 + |Doubled(v)|] == Doubled(v);
    DoubledBack(v);
  }

  lemma TrimBehind(pad: string, quoted: string, tail: string) returns (kept: string)
    requires IsPadding(pad) && |quoted| >= 2 && !IsSpace(EcmaScript, quoted[0])
    requires !IsSpace(EcmaScript, quoted[|quoted| - 1])
    ensures Trim(EcmaScript, pad + quoted + tail) == quoted + kept
    ensures kept == "" || (tail != "" && kept[0] == tail[0])
  {
    hide TrimStart, TrimEnd, IsSpace;
    TrimStartOfPadded(EcmaScript, pad, quoted + tail);
    assert pad + quoted + tail == pad + (quoted + tail);
    var r := TrimEnd(EcmaScript, quoted + tail);
    TrimEndShape(EcmaScript, quoted + tail);
    assert (quoted + tail)[|quoted| - 1] == quoted[|quoted| - 1];
    kept := r[|quoted|..];
  }

  // ---------------------------------------------------------------- no quotes

  /** A comment behind white space, without padding behind it, or nothing. */
  predicate IsTrimmedRemark(s: string) {
    s == "" || (IsSpace(EcmaScript, s[0]) && TrimStart(EcmaScript, s) != "" && TrimStart(EcmaScript, s)[0] == '#' &&
                !HasTerminator(TrimStart(EcmaScript, s)))
  }

  predicate HasNoRemark(v: string) {
    forall i :: 0 <= i < |v| - 1 ==> !(IsSpace(EcmaScript, v[i]) && v[i + 1] == '#')
  }

  lemma {:induction false} NoHashAhead(w: string, kept: string)
    requires w != "" && IsSpace(EcmaScript, w[0]) && !IsSpace(EcmaScript, w[|w| - 1]) && HasNoRemark(w)
    ensures var t := TrimStart(EcmaScript, w + kept); t != "" && t[0] != '#'
  {
    hide IsSpace;
    assert (w + kept)[1..] == w[1..] + kept;
    assert w[1..][|w| - 2] == w[|w| - 1];
    if IsSpace(EcmaScript, w[1]) {
      assert HasNoRemark(w[1..]);
      NoHashAhead(w[1..], kept);
    } else {
      TrimStartOfUnpadded(EcmaScript, w[1..] + kept);
    }
  }

  lemma {:induction false} CutBehind(w: string, kept: string)
    requires (w == "" || !IsSpace(EcmaScript, w[|w| - 1])) && HasNoRemark(w) && IsTrimmedRemark(kept)
    ensures CutComment(w + kept) == w
    decreases |w|
  {
    hide IsSpace, TrimStart, HasTerminator;
    if w == "" {
      assert w + kept == kept;
    } else {
      assert (w + kept)[1..] == w[1..] + kept && (w + kept)[0] == w[0];
      assert HasNoRemark(w[1..]);
      CutBehind(w[1..], kept);
      if IsSpace(EcmaScript, w[0]) { NoHashAhead(w, kept); }
      assert [w[0]] + w[1..] == w;
    }
  }

  lemma RemarkTrimmed(v: string, remark: string) returns (kept: string)
    requires v != "" && Tight(EcmaScript, v) && IsRemark(remark)
    ensures IsTrimmedRemark(kept) && TrimEnd(EcmaScript, v + remark) == v + kept
  {
    hide IsSpace, TrimStart, TrimEnd;
    var r := TrimEnd(EcmaScript, v + remark);
    TrimEndShape(EcmaScript, v + remark);
    assert (v + remark)[|v| - 1] == v[|v| - 1];
    assert |r| >= |v|;
    kept := r[|v|..];
    assert r[..|v|] == v && r == v + kept;
    assert kept == remark[..|kept|];
    var u := TrimStart(EcmaScript, remark);
    TrimStartShape(EcmaScript, remark);
    var n := |remark| - |u|;
    assert forall i :: 0 <= i < |kept| ==> kept[i] == remark[i];
    if u != "" {
      MarksAreNoSpace();
      assert (v + remark)[|v| + n] == '#' by { assert remark[n] == u[0]; }
      assert |kept| > n;
      var rest := remark[n..|kept|];
      assert kept == remark[..n] + rest && rest[0] == '#';
      TrimStartOfPadded(EcmaScript, remark[..n], rest);
      assert rest == u[..|rest|];
      assert forall i :: 0 <= i < |rest| ==> rest[i] == u[i];
    }
  }

  lemma MarksAreNoSpace()
    ensures !IsSpace(EcmaScript, '#') && !IsSpace(EcmaScript, '\'')
  {
  }

  /** A text that needs no quotes is read as it stands, between padding and a comment. */
  lemma PlainIsRead(v: string, pad: string, remark: string)
    requires IsPadding(pad) && IsPlainScalar(v) && IsRemark(remark)
    ensures StripScalar(pad + v + remark) == v
  {
    hide IsSpace, TrimStart, TrimEnd, CutComment, DoubleQuotedLength, SingleQuotedLength;
    var kept := RemarkTrimmed(v, remark);
    assert pad + v + remark == pad + (v + remark);
    TrimStartOfPadded(EcmaScript, pad, v + remark);
    assert HasNoRemark(v);
    CutBehind(v, kept);
    TrimIsIdentityOnTight(EcmaScript, v);
  }

  /** A key with no value reads as nothing. */
  lemma NothingIsRead(pad: string)
    requires IsPadding(pad)
    ensures StripScalar(pad) == ""
  {
    hide IsSpace;
    TrimStartOfPadded(EcmaScript, pad, "");
    assert pad + "" == pad;
  }
}
