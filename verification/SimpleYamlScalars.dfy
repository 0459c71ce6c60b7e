/** Scalars: what the printer writes on one line, the parser reads back. */
module SimpleYamlScalars {
  import opened Text
  import opened Quoting
  import opened SimpleYaml

  lemma {:induction false} DigitsValueSnoc(s: string, c: char, acc: nat)
    requires IsDigit(c)
    ensures DigitsValue(s + [c], acc) == 10 * DigitsValue(s, acc) + (c - '0') as nat
  {
    if s == "" {
      assert s + [c] == [c];
      assert [c][1..] == "";
    } else {
      assert (s + [c])[1..] == s[1..] + [c];
      DigitsValueSnoc(s[1..], c, if IsDigit(s[0]) then 10 * acc + (s[0] - '0') as nat else acc);
    }
  }

  lemma {:induction false} NatTextValue(n: nat)
    ensures DigitsValue(NatText(n), 0) == n
  {
    if n < 10 {
      assert [DigitText(n)][1..] == "";
    } else {
      NatTextValue(n / 10);
      DigitsValueSnoc(NatText(n / 10), DigitText(n % 10), 0);
    }
  }

  lemma {:induction false} PlainDigits(s: string)
    requires forall c :: c in s ==> IsDigit(c)
    ensures IsDigitsTail(s) && (s != "" ==> IsDigits(s))
  {
    if s != "" { PlainDigits(s[1..]); }
  }

  /** Keywords are told apart by their first and last characters. */
  lemma KeywordEnds(text: string)
    requires Keyword(text).Some? && text != ""
    ensures text[0] in "~n{[tTfF" && text[|text| - 1] in "~l}]e"
  {
  }

  lemma IntTextShape(n: int, t: string, digits: string)
    requires digits == NatText(if n < 0 then -n else n) && t == IntText(n)
    ensures t[|t| - 1] == digits[|digits| - 1] && IsDigit(t[|t| - 1]) && DropSign(t) == digits
    ensures t[0] == (if n < 0 then '-' else digits[0]) && IsDigit(digits[0])
    ensures '.' !in t && ':' !in t
  {
    assert digits[0] in digits && digits[|digits| - 1] in digits;
    assert forall c :: c in t ==> c == '-' || c in digits;
  }

  lemma IntTextValue(n: int, t: string)
    requires t == IntText(n)
    ensures Tight(Python, t) && IsIntText(t) && IntValue(t) == n
  {
    hide NatText, DigitsValue, IntText;
    var abs := if n < 0 then -n else n;
    IntTextShape(n, t, NatText(abs));
    PlainDigits(NatText(abs));
    NatTextValue(abs);
    TrimIsIdentityOnTight(Python, t);
  }

  lemma IntRoundTrip(n: int)
    ensures ParseScalar(IntText(n)) == Int(n) && Tight(Python, IntText(n)) && ':' !in IntText(n)
  {
    IntTextShape(n, IntText(n), NatText(if n < 0 then -n else n));
    IntTextValue(n, IntText(n));
    PlainIntReads(IntText(n));
  }

  lemma PlainIntReads(t: string)
    requires IsIntText(t) && '.' !in t && IsDigit(t[|t| - 1])
    ensures ParseScalar(t) == Int(IntValue(t))
  {
    if Keyword(t).Some? { KeywordEnds(t); }
  }

  lemma {:induction false} DigitsHaveNoLetters(s: string)
    requires IsDigitsTail(s)
    ensures forall c :: c in s ==> IsDigit(c) || c == '_'
  {
    if s != "" {
      if s[0] == '_' {
        DigitsHaveNoLetters(s[2..]);
        assert s == [s[0], s[1]] + s[2..];
      } else {
        DigitsHaveNoLetters(s[1..]);
        assert s == [s[0]] + s[1..];
      }
    }
  }

  lemma LowerOfDigits(d: string)
    requires forall c :: c in d ==> IsDigit(c) || c == '_'
    ensures Lower(d) == d
  {
    forall i | 0 <= i < |d| ensures Lower(d)[i] == d[i] {
      assert d[i] in d;
    }
  }

  /** Whatever reads as an integer also reads as a float, so the quoting rule catches it. */
  lemma IntTextIsFloatText(text: string)
    requires IsIntText(text)
    ensures IsFloatText(text)
  {
    var d := DropSign(Trim(Python, text));
    DigitsHaveNoLetters(d[1..]);
    assert d == [d[0]] + d[1..];
    LowerOfDigits(d);
    assert IndexOf(d, 'e') == |d| by { assert 'e' !in d; }
    assert IndexOf(d, '.') == |d| by { assert '.' !in d; }
  }

  /** The strings that survive the scalar printer and parser. */
  predicate KeepsItsPadding(s: string) {
    NeedsQuotes(s) || Tight(Python, s)
  }

  lemma QuotedRoundTrip(s: string)
    ensures ParseScalar(Quote(s)) == Str(s) && Tight(Python, Quote(s)) && Quote(s)[0] == '"' && !EndsWith(Quote(s), ":")
  {
    var q := Quote(s);
    assert q[1..|q| - 1] == Escape(s);
    TwoPassInvertsEscape(s);
    assert q[|q| - 1..] == "\"";
  }

  lemma PlainFacts(s: string)
    requires !NeedsQuotes(s)
    ensures s != "" && s[0] != '#' && s[0] != '-' && Lower(s) !in WORDS && !IsFloatText(s)
    ensures ':' !in s && '"' !in s && '\'' !in s && '{' !in s && '[' !in s
  {
    assert ':' in QUOTED_ANYWHERE && '"' in QUOTED_ANYWHERE && '\'' in QUOTED_ANYWHERE;
    assert '{' in QUOTED_ANYWHERE && '[' in QUOTED_ANYWHERE && '#' in QUOTED_ANYWHERE;
    assert s[0] in s;
  }

  lemma KeywordIsQuotedWord(s: string)
    requires s != "" && '{' !in s && '[' !in s && Keyword(s).Some?
    ensures Lower(s) in WORDS
  {
    assert "{}"[0] == '{' && "[]"[0] == '[';
    assert Lower("True") == "true" && Lower("False") == "false" && Lower("true") == "true";
    assert Lower("false") == "false" && Lower("null") == "null" && Lower("~") == "~";
  }

  /** An unquoted text is none of the words and numbers the parser would turn into something else. */
  lemma PlainReadsAsItself(s: string)
    requires s != "" && '{' !in s && '[' !in s && '"' !in s && '\'' !in s
    requires Lower(s) !in WORDS && !IsFloatText(s)
    ensures ParseScalar(s) == Str(s)
  {
    if Keyword(s).Some? { KeywordIsQuotedWord(s); }
    assert s[0] in s;
    if IsIntText(s) { IntTextIsFloatText(s); }
  }

  /** What the line grammar needs to know of a printed scalar. */
  ghost predicate ReadsBack(v: Value, text: string) {
    ParseScalar(text) == v && Tight(Python, text) && text != "" && !OpensMapping(text)
  }

  predicate ScalarSurvives(v: Value)
    requires !IsContainer(v)
  {
    !v.Float? && (v.Str? ==> KeepsItsPadding(v.s))
  }

  lemma ScalarRoundTrip(v: Value)
    requires !IsContainer(v) && ScalarSurvives(v)
    ensures ReadsBack(v, FormatScalar(v))
  {
    match v
    case Int(n) => IntRoundTrip(n);
    case Str(s) =>
      if NeedsQuotes(s) {
        QuotedRoundTrip(s);
      } else {
        PlainFacts(s);
        PlainReadsAsItself(s);
        assert s[|s| - 1] in s;
      }
    case Null =>
    case Bool(b) =>
  }

  /**
   * A string survives a scalar position exactly when it is printed in quotes or has no padding.
   * The parser strips what follows the colon or the dash, so padding that is not quoted is lost:
   * only the ASCII space is looked for by the quoting rule.
   */
  lemma StringSurvivesIffPaddingKept(s: string)
    ensures ParseScalar(Trim(Python, FormatScalar(Str(s)))) == Str(s) <==> KeepsItsPadding(s)
  {
    if KeepsItsPadding(s) {
      ScalarRoundTrip(Str(s));
      TrimIsIdentityOnTight(Python, FormatScalar(Str(s)));
    } else {
      PlainFacts(s);
      TrimIsIdentityOnTight(Python, s);
      TrimSubset(s);
      StringsReadAsThemselvesOrLessQuoted(Trim(Python, s));
    }
  }

  lemma StringsReadAsThemselvesOrLessQuoted(t: string)
    requires '"' !in t && '\'' !in t
    ensures ParseScalar(t).Str? ==> ParseScalar(t).s == t
  {
    assert t == "" || t[0] in t;
  }

  lemma TrimSubset(s: string)
    ensures forall c :: c in Trim(Python, s) ==> c in s
  {
    var t := TrimStart(Python, s);
    TrimStartShape(Python, s);
    TrimEndShape(Python, t);
    assert forall c :: c in t ==> c in s[|s| - |t|..];
    assert forall c :: c in Trim(Python, s) ==> c in t;
  }

  /** A no-break space behind any word that is printed as it stands is lost: the quoting rule does not look for it. */
  lemma NoBreakSpaceIsLost(w: string)
    requires !NeedsQuotes(w) && Tight(Python, w)
    ensures ParseScalar(Trim(Python, FormatScalar(Str(w + ['\U{A0}'])))) == Str(w)
  {
    hide IsFloatText, Trim, IsSpace;
    PlainFacts(w);
    PaddingIsNoFloat(w);
    PlainWithPadding(w);
    PlainReadsAsItself(w);
  }

  lemma PlainWithPadding(w: string)
    requires !NeedsQuotes(w) && !IsFloatText(w + ['\U{A0}'])
    ensures !NeedsQuotes(w + ['\U{A0}'])
  {
    hide IsFloatText;
    var s := w + ['\U{A0}'];
    assert '{' in QUOTED_ANYWHERE;
    assert !HasDelimiter(s) && !HasControl(s);
    assert Lower(s)[|w|] == '\U{A0}';
    if Lower(s) in WORDS { WordsEndInLetters(Lower(s)); }
    assert '\\' !in w && '{' !in w && s[0] == w[0] && w[0] in w;
    assert StartsWith(s, "/") ==> StartsWith(w, "/");
    NotAPath(s);
  }

  lemma NotAPath(s: string)
    requires '\\' !in s && '{' !in s && ':' !in s && !StartsWith(s, "/")
    ensures !LooksLikePathOrVariable(s)
  {
    ContainsNeeds(s, "\\\\");
    ContainsNeeds(s, ":\\");
    ContainsNeeds(s, "${");
    assert "\\\\"[0] == '\\' && ":\\"[1] == '\\' && "${"[1] == '{' && "C:\\"[2] == '\\';
    assert |s| <= 2 || s[2] in s;
  }

  lemma WordsEndInLetters(w: string)
    requires w in WORDS
    ensures w != "" && w[|w| - 1] in "elsonf~"
  {
  }

  lemma PaddingIsNoFloat(w: string)
    requires Tight(Python, w) && w != ""
    ensures Trim(Python, w + ['\U{A0}']) == w && IsFloatText(w + ['\U{A0}']) == IsFloatText(w)
  {
    hide Trim, Lower, IsMantissa, IsDigits, DropSign, IndexOf;
    PaddingIsTrimmed(w);
    TrimIsIdentityOnTight(Python, w);
  }

  lemma PaddingIsTrimmed(w: string)
    requires Tight(Python, w) && w != ""
    ensures Trim(Python, w + ['\U{A0}']) == w
  {
    hide TrimStart, TrimEnd, IsSpace;
    assert IsSpace(Python, '\U{A0}') by { NoBreakSpaceIsSpace(); }
    TrimStartOfUnpadded(Python, w + ['\U{A0}']);
    TrimEndOfPadded(Python, w, ['\U{A0}']);
  }

  lemma NoBreakSpaceIsSpace()
    ensures IsSpace(Python, '\U{A0}')
  {
  }

  lemma {:induction false} ContainsNeeds(s: string, sub: string)
    requires sub != ""
    ensures Contains(s, sub) ==> forall c :: c in sub ==> c in s
  {
    if !StartsWith(s, sub) && s != "" {
      ContainsNeeds(s[1..], sub);
    }
  }
}
