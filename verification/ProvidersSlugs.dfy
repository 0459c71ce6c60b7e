/** Derived slugs: always keys the scanner reads back, and the same whichever edit derives them. */
module ProvidersSlugs {
  import opened Text
  import opened Providers
  import opened ProvidersLines
  import opened ProvidersLaws
  import opened ProvidersAppend
  import opened ProvidersUndo

  predicate IsSlug(s: string) {
    (forall i :: 0 <= i < |s| ==> IsSlugChar(s[i]) || s[i] == '-') &&
    (s != "" ==> s[0] != '-' && s[|s| - 1] != '-') &&
    forall i :: 0 < i < |s| ==> s[i - 1] != '-' || s[i] != '-'
  }

  predicate IsDashed(s: string) {
    (forall i :: 0 <= i < |s| ==> IsSlugChar(s[i]) || s[i] == '-') &&
    forall i :: 0 < i < |s| ==> s[i - 1] != '-' || s[i] != '-'
  }

  lemma {:induction false} DashedShape(s: string, dashed: bool)
    ensures IsDashed(Dashed(s, dashed)) && (dashed && Dashed(s, dashed) != "" ==> Dashed(s, dashed)[0] != '-')
  {
    if s != "" {
      if IsSlugChar(s[0]) { DashedShape(s[1..], false); } else { DashedShape(s[1..], true); }
    }
  }

  lemma {:induction false} DropLeadingShape(s: string)
    requires IsDashed(s)
    ensures IsDashed(DropLeadingDashes(s)) && (DropLeadingDashes(s) != "" ==> DropLeadingDashes(s)[0] != '-')
  {
    if s != "" && s[0] == '-' { DropLeadingShape(s[1..]); }
  }

  lemma {:induction false} DropTrailingShape(s: string)
    requires IsDashed(s)
    ensures IsDashed(DropTrailingDashes(s)) && DropTrailingDashes(s) <= s
    ensures DropTrailingDashes(s) != "" ==> DropTrailingDashes(s)[|DropTrailingDashes(s)| - 1] != '-'
  {
    if s != "" && s[|s| - 1] == '-' { DropTrailingShape(s[..|s| - 1]); }
  }

  /** Whatever the name, its slug is made of letters, digits and single inner dashes. */
  lemma SlugifyShape(name: string)
    ensures IsSlug(Slugify(name))
  {
    hide Dashed, DropLeadingDashes, DropTrailingDashes, Trim, Lower, IsSlugChar;
    var d := Dashed(Lower(Trim(EcmaScript, name)), false);
    DashedShape(Lower(Trim(EcmaScript, name)), false);
    DropLeadingShape(d);
    DropTrailingShape(DropLeadingDashes(d));
  }

  // ---------------------------------------------------------------- the words of a name

  predicate IsWordChar(c: char) {
    'a' <= c <= 'z' || '0' <= c <= '9'
  }

  /** The maximal runs of lower-case letters and digits, in their order. */
  function Words(s: string): seq<string> {
    if s == "" then []
    else if !IsWordChar(s[0]) then Words(s[1..])
    else if |s| > 1 && IsWordChar(s[1]) then Lengthened(s[0], Words(s[1..]))
    else [[s[0]]] + Words(s[1..])
  }

  function Lengthened(c: char, words: seq<string>): seq<string> {
    if words == [] then [[c]] else [[c] + words[0]] + words[1..]
  }

  lemma {:induction false} WordsAreWords(s: string)
    ensures forall w :: w in Words(s) ==> w != "" && forall i :: 0 <= i < |w| ==> IsWordChar(w[i])
    ensures s != "" && IsWordChar(s[0]) ==> Words(s) != [] && Words(s)[0][0] == s[0]
  {
    if s != "" {
      WordsAreWords(s[1..]);
      var rest := Words(s[1..]);
      if IsWordChar(s[0]) && |s| > 1 && IsWordChar(s[1]) {
        assert rest[0] in rest;
        assert forall w :: w in rest[1..] ==> w in rest;
      }
    }
  }

  function Joined(s: string): string {
    Join(Words(s), "-")
  }

  /** A dash behind the last word, where something else follows it. */
  function Rest(s: string): string {
    if Words(s) != [] && !IsWordChar(s[|s| - 1]) then "-" else ""
  }

  lemma JoinedLonger(c: char, s: string)
    requires IsWordChar(c) && s != "" && IsWordChar(s[0])
    ensures Joined([c] + s) == [c] + Joined(s)
  {
    hide Words, Join;
    WordsAreWords(s);
    WordsStep(c, s);
    JoinLonger(c, Words(s));
  }

  lemma WordsStep(c: char, s: string)
    ensures Words([c] + s) ==
              if !IsWordChar(c) then Words(s)
              else if s != "" && IsWordChar(s[0]) then Lengthened(c, Words(s)) else [[c]] + Words(s)
  {
    assert ([c] + s)[1..] == s;
  }

  lemma JoinLonger(c: char, words: seq<string>)
    requires words != []
    ensures Join(Lengthened(c, words), "-") == [c] + Join(words, "-")
  {
    assert ([[c] + words[0]] + words[1..])[1..] == words[1..];
    if |words| > 1 {
      assert ([c] + words[0]) + "-" + Join(words[1..], "-") == [c] + (words[0] + "-" + Join(words[1..], "-"));
    }
  }

  lemma JoinedBehind(c: char, s: string)
    requires IsWordChar(c) && (s == "" || !IsWordChar(s[0]))
    ensures Joined([c] + s) == [c] + if Words(s) == [] then "" else "-" + Joined(s)
  {
    assert ([c] + s)[1..] == s;
    assert Words([c] + s) == [[c]] + Words(s);
    assert ([[c]] + Words(s))[1..] == Words(s);
    if Words(s) != [] { assert [c] + "-" + Joined(s) == [c] + ("-" + Joined(s)); }
  }

  /** What the replacement of all other characters makes of a text. */
  lemma {:induction false} DashedIsJoined(s: string, dashed: bool)
    ensures Dashed(s, dashed) ==
              (if !dashed && s != "" && !IsWordChar(s[0]) then "-" else "") + Joined(s) + Rest(s)
  {
    hide Join, Words, Joined, Rest;
    NothingJoined();
    if s != "" {
      var t := s[1..];
      assert s == [s[0]] + t;
      DashedIsJoined(t, !IsWordChar(s[0]));
      if !IsWordChar(s[0]) {
        SkippedSign(s[0], t);
      } else if t != "" && IsWordChar(t[0]) {
        JoinedLonger(s[0], t);
        RestLonger(s[0], t);
      } else {
        JoinedBehind(s[0], t);
        RestBehind(s[0], t);
        assert [s[0]] + ("-" + Joined(t) + Rest(t)) == [s[0]] + ("-" + Joined(t)) + Rest(t);
        assert t != "" && Words(t) == [] ==> Dashed(t, false) == "-" && Joined(s) == [s[0]];
      }
    }
  }

  lemma NothingJoined()
    ensures Words("") == [] && Joined("") == "" && Rest("") == ""
  {
  }

  lemma SkippedSign(c: char, t: string)
    requires !IsWordChar(c)
    ensures Joined([c] + t) == Joined(t) && Rest([c] + t) == Rest(t)
  {
    assert ([c] + t)[1..] == t;
    assert t == "" ==> Words(t) == [];
  }

  lemma RestLonger(c: char, t: string)
    requires IsWordChar(c) && t != "" && IsWordChar(t[0])
    ensures Rest([c] + t) == Rest(t)
  {
    hide Words;
    WordsStep(c, t);
    WordsAreWords(t);
  }

  /** Behind the last word there is a dash, and behind an inner one the next word follows. */
  lemma RestBehind(c: char, t: string)
    requires IsWordChar(c) && (t == "" || !IsWordChar(t[0]))
    ensures Rest([c] + t) == if t == "" then "" else if Words(t) == [] then "-" else Rest(t)
    ensures Words(t) == [] ==> Joined(t) == "" && Rest(t) == ""
  {
    hide Words, IsWordChar;
    WordsStep(c, t);
    NoWordsNoChars(t);
    JoinOfNothing();
  }

  lemma {:induction false} NoWordsNoChars(s: string)
    ensures Words(s) == [] <==> forall i :: 0 <= i < |s| ==> !IsWordChar(s[i])
  {
    WordsAreWords(s);
    if s != "" && !IsWordChar(s[0]) {
      NoWordsNoChars(s[1..]);
      assert (forall i :: 0 <= i < |s| ==> !IsWordChar(s[i])) <==>
               forall i :: 0 <= i < |s[1..]| ==> !IsWordChar(s[1..][i]) by {
        assert forall i :: 0 < i < |s| ==> s[i] == s[1..][i - 1];
        if forall i :: 0 <= i < |s| ==> !IsWordChar(s[i]) {
          forall i | 0 <= i < |s[1..]| ensures !IsWordChar(s[1..][i]) { assert s[1..][i] == s[i + 1]; }
        }
      }
    }
  }

  lemma {:induction false} JoinEnds(words: seq<string>)
    requires words != [] && forall w :: w in words ==> w != "" && forall i :: 0 <= i < |w| ==> IsWordChar(w[i])
    ensures var j := Join(words, "-"); j != "" && IsWordChar(j[0]) && IsWordChar(j[|j| - 1])
  {
    assert words[0] in words;
    if |words| > 1 {
      assert forall w :: w in words[1..] ==> w in words;
      JoinEnds(words[1..]);
    }
  }

  lemma {:induction false} BlanksHaveNoWords(pad: string, s: string)
    requires forall c :: c in pad ==> !IsWordChar(c)
    ensures Words(pad + s) == Words(s)
  {
    if pad == "" {
      assert pad + s == s;
    } else {
      assert (pad + s)[1..] == pad[1..] + s;
      BlanksHaveNoWords(pad[1..], s);
    }
  }

  lemma {:induction false} WordsBeforeBlanks(s: string, pad: string)
    requires forall c :: c in pad ==> !IsWordChar(c)
    ensures Words(s + pad) == Words(s)
  {
    if s == "" {
      assert s + pad == pad + "";
      BlanksHaveNoWords(pad, "");
    } else {
      assert (s + pad)[1..] == s[1..] + pad;
      WordsBeforeBlanks(s[1..], pad);
      if |s| == 1 && pad != "" { assert (s + pad)[1] == pad[0] && pad[0] in pad; }
    }
  }

  lemma LowerConcat(a: string, b: string)
    ensures Lower(a + b) == Lower(a) + Lower(b)
  {
  }

  lemma SpacesAreNoWords(pad: string)
    requires forall c :: c in pad ==> IsSpace(EcmaScript, c)
    ensures forall c :: c in Lower(pad) ==> !IsWordChar(c)
  {
    forall c | c in Lower(pad) ensures !IsWordChar(c) {
      var i :| 0 <= i < |pad| && Lower(pad)[i] == c;
      assert pad[i] in pad;
    }
  }

  lemma WordsOfTrimmed(name: string)
    ensures Words(Lower(Trim(EcmaScript, name))) == Words(Lower(name))
  {
    hide IsSpace, Words, Lower, TrimStart, TrimEnd;
    var t := TrimStart(EcmaScript, name);
    TrimStartShape(EcmaScript, name);
    var r := TrimEnd(EcmaScript, t);
    TrimEndShape(EcmaScript, t);
    var a, b := name[..|name| - |t|], t[|r|..];
    assert name == a + t && t == r + b;
    SpacesAreNoWords(a);
    SpacesAreNoWords(b);
    LowerConcat(a, t);
    LowerConcat(r, b);
    BlanksHaveNoWords(Lower(a), Lower(t));
    WordsBeforeBlanks(Lower(r), Lower(b));
  }

  /**
   * What a slug is: the words of the name in lower case, in their order, joined by single dashes. No letter or digit
   * is lost, and a dash stands between two of them exactly where something else stood between them.
   */
  lemma SlugIsWords(name: string)
    ensures Slugify(name) == Join(Words(Lower(name)), "-")
  {
    hide Dashed, Words, Lower, Trim, Join;
    var s := Lower(Trim(EcmaScript, name));
    DashedIsJoined(s, false);
    WordsOfTrimmed(name);
    WordsAreWords(s);
    if Words(s) != [] {
      JoinEnds(Words(s));
      DropsAround(if s != "" && !IsWordChar(s[0]) then "-" else "", Joined(s), Rest(s));
    } else {
      assert Joined(s) == "" by { JoinOfNothing(); }
      DropsAll(Dashed(s, false));
    }
  }

  lemma JoinOfNothing()
    ensures Join([], "-") == ""
  {
  }

  lemma DropsAll(d: string)
    requires d == "" || d == "-"
    ensures DropTrailingDashes(DropLeadingDashes(d)) == ""
  {
    assert d != "" ==> d[1..] == "";
  }

  lemma DropsAround(a: string, j: string, b: string)
    requires (a == "" || a == "-") && (b == "" || b == "-") && j != "" && j[0] != '-' && j[|j| - 1] != '-'
    ensures DropTrailingDashes(DropLeadingDashes(a + j + b)) == j
  {
    var d := a + j + b;
    assert d[|a|..] == j + b;
    assert (j + b)[..|j|] == j;
    assert j + "" == j;
  }

  lemma {:induction false} JoinTellsWords(a: seq<string>, b: seq<string>)
    requires forall w :: w in a + b ==> w != "" && '-' !in w
    ensures Join(a, "-") == Join(b, "-") ==> a == b
  {
    assert forall w :: w in a ==> w in a + b;
    assert forall w :: w in b ==> w in a + b;
    if a != [] && b != [] && Join(a, "-") == Join(b, "-") {
      var x, y := if |a| == 1 then "" else "-" + Join(a[1..], "-"), if |b| == 1 then "" else "-" + Join(b[1..], "-");
      assert a[0] in a && b[0] in b;
      assert Join(a, "-") == a[0] + x && Join(b, "-") == b[0] + y;
      FirstWord(a[0], x, b[0], y);
      assert a[1..] != [] ==> x[1..] == Join(a[1..], "-");
      assert b[1..] != [] ==> y[1..] == Join(b[1..], "-");
      assert forall w :: w in a[1..] + b[1..] ==> w in a + b;
      JoinTellsWords(a[1..], b[1..]);
      assert a == [a[0]] + a[1..] && b == [b[0]] + b[1..];
    } else if a != [] {
      assert a[0] in a;
    } else if b != [] {
      assert b[0] in b;
    }
  }

  lemma DashAt(v: string, x: string)
    requires '-' !in v && (x == "" || x[0] == '-')
    ensures IndexOf(v + x, '-') == |v|
  {
    if x == "" {
      assert v + x == v;
    } else {
      assert v + x == v + ['-'] + x[1..];
      IndexOfFirst(v, '-', x[1..]);
    }
  }

  lemma FirstWord(v: string, x: string, w: string, y: string)
    requires '-' !in v && '-' !in w && v + x == w + y && (x == "" || x[0] == '-') && (y == "" || y[0] == '-')
    ensures v == w && x == y
  {
    DashAt(v, x);
    DashAt(w, y);
    assert (v + x)[..|v|] == v && (w + y)[..|w|] == w && (v + x)[|v|..] == x && (w + y)[|w|..] == y;
  }

  /** Two names share a slug exactly when their lower-case words agree; so case, padding and signs do not matter. */
  lemma SameSlugIff(a: string, b: string)
    ensures Slugify(a) == Slugify(b) <==> Words(Lower(a)) == Words(Lower(b))
  {
    hide Slugify, Words, Lower, Join;
    SlugIsWords(a);
    SlugIsWords(b);
    WordsAreWords(Lower(a));
    WordsAreWords(Lower(b));
    var v, w := Words(Lower(a)), Words(Lower(b));
    forall x | x in v + w ensures x != "" && '-' !in x { assert x in v || x in w; }
    JoinTellsWords(v, w);
  }

  /** A brand name with capitals and a space. */
  lemma SlugOfBrand()
    ensures Slugify("Faab AI") == "faab-ai"
  {
    hide Slugify, Words, Join;
    SlugIsWords("Faab AI");
    assert Lower("Faab AI") == "faab ai";
    WordsOfBrand();
    JoinOfTwo("faab", "ai");
  }

  lemma WordsOfBrand()
    ensures Words("faab ai") == ["faab", "ai"]
  {
    hide Words;
    assert Words("") == [] by { NothingHasNoWords(); }
    WordsStep('i', "");
    WordsStep('a', "i");
    WordsStep(' ', "ai");
    assert "i" == ['i'] + "" && "ai" == ['a'] + "i" && " ai" == [' '] + "ai" && Words(" ai") == ["ai"];
    WordsStep('b', " ai");
    assert "b ai" == ['b'] + " ai" && Words("b ai") == ["b"] + ["ai"];
    assert "b" + " ai" == "b ai" && ['a'] + "b" == "ab" && ['a'] + "ab" == "aab" && ['f'] + "aab" == "faab";
    WordLonger('a', "b", " ai", ["ai"]);
    WordLonger('a', "ab", " ai", ["ai"]);
    WordLonger('f', "aab", " ai", ["ai"]);
    assert "faab" + " ai" == "faab ai" && ["faab"] + ["ai"] == ["faab", "ai"];
  }

  lemma WordLonger(c: char, w: string, s: string, rest: seq<string>)
    requires IsWordChar(c) && w != "" && IsWordChar(w[0]) && Words(w + s) == [w] + rest
    ensures Words([c] + w + s) == [[c] + w] + rest
  {
    hide Words;
    assert [c] + w + s == [c] + (w + s) && ([w] + rest)[1..] == rest;
    WordsStep(c, w + s);
  }

  lemma NothingHasNoWords()
    ensures Words("") == []
  {
  }

  lemma JoinOfTwo(a: string, b: string)
    ensures Join([a, b], "-") == a + "-" + b
  {
    assert [a, b][1..] == [b];
  }

  lemma SlugIsKey(s: string)
    requires IsSlug(s)
    ensures Trim(EcmaScript, s) == s && (s != "" ==> IsKey(s))
  {
    hide IsSpace;
    forall i | 0 <= i < |s| ensures IsKeyChar(s[i]) && !IsSpace(EcmaScript, s[i]) {
      CharClasses();
    }
    TrimIsIdentityOnTight(EcmaScript, s);
  }

  /**
   * Without an explicit slug an upsert stores one the scanner reads back, and a removal by the same name looks for
   * it.
   */
  lemma DerivedSlugIsStored(input: Input)
    requires input.slug == "" && Stored(input).Some?
    ensures Stored(input).value.slug == Slugify(Trim(EcmaScript, input.name)) && IsKey(Stored(input).value.slug)
    ensures Slugify(input.name) == Stored(input).value.slug
  {
    hide IsSlug, Dashed, DropLeadingDashes, DropTrailingDashes, TrimStart, TrimEnd, Lower, IsKey;
    var name := Trim(EcmaScript, input.name);
    SlugifyShape(name);
    SlugIsKey(Slugify(name));
    TrimIsTight(EcmaScript, input.name);
    TrimIsIdentityOnTight(EcmaScript, name);
  }

  /**
   * The identity of a provider between the desktop and the terminal: adding and removing by name alone leaves the
   * file as it was, exactly when the body's last line ended with a line feed.
   */
  lemma AddThenRemoveByName(content: string, name: string, baseUrl: string, keyEnv: string)
    requires BodyStart(content).Some?
    requires var input := Input("", name, baseUrl, keyEnv);
             Stored(input).Some? && IsPlain(Stored(input).value) &&
             Locate(ViewsIn(content), keyEnv, Stored(input).value.slug) == |ViewsIn(content)|
    ensures RemoveText(UpsertText(content, Input("", name, baseUrl, keyEnv)), name, keyEnv) == content <==>
            BodyIsClosed(content)
  {
    hide Stored, Locate, ViewsIn, BodyStart, UpsertText, RemoveText, Slugify, Trim, IsPlain, IsKey, BodyIsClosed;
    var input := Input("", name, baseUrl, keyEnv);
    DerivedSlugIsStored(input);
    StoredIsSet(input);
    UndoIff(content, input, name);
  }
}
