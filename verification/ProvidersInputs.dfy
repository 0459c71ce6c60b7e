/** What a call stores, which entry it goes to, and what becomes of the empty flow form, told from texts alone. */
module ProvidersInputs {
  import opened Text
  import opened ConfigScalars
  import opened Providers
  import opened ProvidersLines
  import opened ProvidersSlugs

  // ---------------------------------------------------------------- what is stored

  /** An ASCII letter or digit. */
  predicate HasWord(s: string) {
    exists i :: 0 <= i < |s| && ('a' <= s[i] <= 'z' || 'A' <= s[i] <= 'Z' || '0' <= s[i] <= '9')
  }

  lemma WordIff(s: string)
    ensures Words(Lower(s)) != [] <==> HasWord(s)
  {
    NoWordsNoChars(Lower(s));
    if HasWord(s) {
      var i :| 0 <= i < |s| && ('a' <= s[i] <= 'z' || 'A' <= s[i] <= 'Z' || '0' <= s[i] <= '9');
      assert IsWordChar(Lower(s)[i]);
    }
    if Words(Lower(s)) != [] {
      var i :| 0 <= i < |Lower(s)| && IsWordChar(Lower(s)[i]);
      assert 'a' <= s[i] <= 'z' || 'A' <= s[i] <= 'Z' || '0' <= s[i] <= '9';
    }
  }

  lemma SlugIff(name: string)
    ensures Slugify(name) != "" <==> HasWord(name)
  {
    hide Slugify;
    SlugIsWords(name);
    WordIff(name);
    var words := Words(Lower(name));
    WordsAreWords(Lower(name));
    if words == [] { JoinOfNothing(); } else { JoinEnds(words); }
  }

  /** A call stores something if it names the provider, says where it is, and gives or leads to a key for it. */
  lemma StoredIff(input: Input)
    ensures Stored(input).Some? <==>
            HasInk(EcmaScript, input.name) && HasInk(EcmaScript, input.baseUrl) &&
            (if input.slug == "" then HasWord(input.name) else HasInk(EcmaScript, input.slug))
  {
    hide Slugify, Trim;
    InkIff(EcmaScript, input.name);
    InkIff(EcmaScript, input.baseUrl);
    InkIff(EcmaScript, input.slug);
    var slug := Slugify(Trim(EcmaScript, input.name));
    SlugIff(input.name);
    SlugIff(Trim(EcmaScript, input.name));
    SlugifyShape(Trim(EcmaScript, input.name));
    SlugIsKey(slug);
    WordOfTrimmed(input.name);
  }

  lemma WordOfTrimmed(name: string)
    ensures HasWord(Trim(EcmaScript, name)) <==> HasWord(name)
  {
    hide Trim;
    WordsOfTrimmed(name);
    WordIff(name);
    WordIff(Trim(EcmaScript, name));
  }

  /** The same call up to padding. */
  predicate SameUpToPadding(a: Input, b: Input) {
    Trim(EcmaScript, a.name) == Trim(EcmaScript, b.name) &&
    Trim(EcmaScript, a.baseUrl) == Trim(EcmaScript, b.baseUrl) &&
    Trim(EcmaScript, a.slug) == Trim(EcmaScript, b.slug) && (a.slug == "" <==> b.slug == "") && a.keyEnv == b.keyEnv
  }

  /** Padding around the name, the URL and the key of a provider makes no difference to the file. */
  lemma PaddingIsIgnored(content: string, a: Input, b: Input)
    requires SameUpToPadding(a, b)
    ensures UpsertText(content, a) == UpsertText(content, b)
  {
    hide Trim, Slugify, BodyStart, WithoutBlock, LinesOf, KindsOf, BlockOf, Locate, EntryLines, Splice, SpliceAll,
         PatchesOf, UpsertEdits;
    assert Stored(a) == Stored(b);
  }

  // ---------------------------------------------------------------- which entry

  /** The first provider with the key variable; without one the first with the key. */
  ghost predicate IsTarget(list: seq<UserProvider>, keyEnv: string, slug: string, i: nat) {
    i < |list| &&
    if keyEnv != "" && exists j :: 0 <= j < |list| && list[j].keyEnv == keyEnv then
      list[i].keyEnv == keyEnv && forall j :: 0 <= j < i ==> list[j].keyEnv != keyEnv
    else list[i].slug == slug && forall j :: 0 <= j < i ==> list[j].slug != slug
  }

  lemma ListedParts(views: seq<View>)
    ensures forall i :: 0 <= i < |views| ==>
              ProvidersOf(views)[i].slug == views[i].slug &&
              ProvidersOf(views)[i].keyEnv == Get(views[i].fields, "key_env")
  {
  }

  /** The entry an upsert or a removal goes to, seen in the listing. */
  lemma TargetIff(content: string, keyEnv: string, slug: string, i: nat)
    requires i < |ViewsIn(content)|
    ensures Locate(ViewsIn(content), keyEnv, slug) == i <==> IsTarget(List(content), keyEnv, slug, i)
  {
    hide ViewsIn, ProviderOf, FindKeyEnv, FindSlug;
    var views, list := ViewsIn(content), List(content);
    ListedParts(views);
    if IsTarget(list, keyEnv, slug, i) {
      if keyEnv != "" && exists j :: 0 <= j < |list| && list[j].keyEnv == keyEnv {
        assert FindKeyEnv(views, keyEnv) == i;
      } else {
        assert FindSlug(views, slug) == i;
      }
    }
  }

  /** None of them: neither the key variable nor the key is listed. */
  lemma NoTargetIff(content: string, keyEnv: string, slug: string)
    ensures Locate(ViewsIn(content), keyEnv, slug) == |ViewsIn(content)| <==>
            forall j :: 0 <= j < |List(content)| ==>
              (keyEnv == "" || List(content)[j].keyEnv != keyEnv) && List(content)[j].slug != slug
  {
    hide ViewsIn, ProviderOf, FindKeyEnv, FindSlug;
    var views, list := ViewsIn(content), List(content);
    ListedParts(views);
    var k, s := FindKeyEnv(views, keyEnv), FindSlug(views, slug);
    if k < |views| { assert list[k].keyEnv == keyEnv; }
    if s < |views| { assert list[s].slug == slug; }
    assert forall j :: 0 <= j < |list| ==> views[j].slug == list[j].slug;
  }

  // ---------------------------------------------------------------- the empty flow form

  /** A comment, or nothing. */
  predicate IsComment(s: string) {
    s == "" || (s[0] == '#' && !HasTerminator(s))
  }

  /** `providers: {}` with white space of a line anywhere in it. */
  function FlowForm(a: string, b: string, c: string, d: string): string {
    PROVIDERS + (a + (":" + (b + ("{" + (c + ("}" + d))))))
  }

  lemma AfterGap(gap: string, c: char, rest: string)
    requires IsGap(gap) && !IsInlineSpace(c)
    ensures After(gap + ([c] + rest), c) == Some(rest)
  {
    hide IsInlineSpace;
    SkipInlineOf(gap, [c] + rest);
    assert ([c] + rest)[1..] == rest;
  }

  lemma {:induction false} CommentRunOf(s: string, t: string)
    requires !HasTerminator(s) && (t == "" || IsTerminator(t[0]))
    ensures CommentRun(s + t) == |s|
  {
    hide IsTerminator;
    if s == "" {
      assert s + t == t;
    } else {
      assert (s + t)[1..] == s[1..] + t && (s + t)[0] == s[0] && !IsTerminator(s[0]);
      assert forall i :: 0 <= i < |s[1..]| ==> s[1..][i] == s[i + 1];
      CommentRunOf(s[1..], t);
    }
  }

  lemma FlowTailOf(comment: string, eol: string, rest: string)
    requires IsComment(comment) && (eol == "\n" || eol == "\r\n")
    ensures FlowTail(comment + (eol + rest)) == |comment + eol|
  {
    hide HasTerminator, CommentRun;
    var s := comment + (eol + rest);
    if comment == "" {
      assert s == eol + rest;
    } else {
      CommentRunOf(comment, eol + rest);
    }
    assert s[|comment|] == eol[0];
    if eol == "\r\n" { assert s[|comment| + 1] == '\n'; }
  }

  lemma FlowMarks()
    ensures !IsInlineSpace(':') && !IsInlineSpace('{') && !IsInlineSpace('}') && !IsInlineSpace('#')
    ensures !IsInlineSpace('\r') && !IsInlineSpace('\n')
  {
  }

  /** The line of the empty flow form is taken out whole, with its comment and its end. */
  lemma FlowLineIs(a: string, b: string, c: string, d: string, comment: string, eol: string, rest: string)
    requires IsGap(a) && IsGap(b) && IsGap(c) && IsGap(d) && IsComment(comment) && (eol == "\n" || eol == "\r\n")
    ensures AfterEmptyFlow(FlowForm(a, b, c, d) + (comment + (eol + rest))) == Some(rest)
  {
    hide IsInlineSpace, IsGap, FlowTail, After, HasTerminator, SkipInline;
    FlowMarks();
    var tail := comment + (eol + rest);
    var fourth := d + tail;
    var third := c + ("}" + fourth);
    var second := b + ("{" + third);
    var first := a + (":" + second);
    var s := FlowForm(a, b, c, d) + tail;
    assert s == PROVIDERS + first by { FlowSplits(a, b, c, d, tail); }
    assert s[..|PROVIDERS|] == PROVIDERS && s[|PROVIDERS|..] == first;
    AfterGap(a, ':', second);
    AfterGap(b, '{', third);
    AfterGap(c, '}', fourth);
    assert tail[0] == if comment == "" then eol[0] else comment[0];
    SkipInlineOf(d, tail);
    FlowTailOf(comment, eol, rest);
    assert tail[|comment + eol|..] == rest;
  }

  lemma FlowSplits(a: string, b: string, c: string, d: string, tail: string)
    ensures FlowForm(a, b, c, d) + tail ==
            PROVIDERS + (a + (":" + (b + ("{" + (c + ("}" + (d + tail)))))))
  {
  }

  /** So the block takes the place of that line, and nothing else changes. */
  lemma FlowIsReplaced(head: string, a: string, b: string, c: string, d: string, comment: string, eol: string,
                       rest: string, input: Input)
    requires IsGap(a) && IsGap(b) && IsGap(c) && IsGap(d) && IsComment(comment) && (eol == "\n" || eol == "\r\n")
    requires var content := head + (FlowForm(a, b, c, d) + (comment + (eol + rest)));
             BodyStart(content).None? && FirstFlow(content, 0) == Some(|head|)
    requires Stored(input).Some?
    ensures var content, e := head + (FlowForm(a, b, c, d) + (comment + (eol + rest))), Stored(input).value;
            UpsertText(content, input) ==
              head + ("providers:\n" + Concat(EntryLines("  ", e))) + rest
  {
    hide IsGap, BodyStart, FirstFlow, Stored, AfterEmptyFlow, HasTerminator, EntryLines;
    var line := FlowForm(a, b, c, d) + (comment + (eol + rest));
    var content := head + line;
    FlowLineIs(a, b, c, d, comment, eol, rest);
    assert content[..|head|] == head && content[|head|..] == line;
    HeaderText();
  }

  lemma HeaderText()
    ensures PROVIDERS + ":\n" == "providers:\n"
  {
  }
}
