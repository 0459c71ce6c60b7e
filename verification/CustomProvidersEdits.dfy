/**
 * The model edits on any list of entries and on any file: which entry they change, what becomes of its fields, and
 * what the file holds before and behind the list.
 */
module CustomProvidersEdits {
  import opened Text
  import opened CustomProviders
  import opened CustomProvidersRuns

  // ---------------------------------------------------------------- endpoints

  predicate AreSlashes(s: string) {
    forall i :: 0 <= i < |s| ==> s[i] == '/'
  }

  /** The URL without the padding around it and the slashes at its end. */
  ghost predicate IsCore(url: string, core: string) {
    (core == "" || core[|core| - 1] != '/') &&
    exists slashes: string :: AreSlashes(slashes) && Trim(EcmaScript, url) == core + slashes
  }

  /** Two URLs that differ at most in case, padding and final slashes. */
  ghost predicate SameEndpoint(a: string, b: string) {
    exists x: string, y: string :: IsCore(a, x) && IsCore(b, y) && SameLetters(x, y)
  }

  lemma {:induction false} DropSlashesShape(s: string)
    ensures DropSlashes(s) <= s && AreSlashes(s[|DropSlashes(s)|..])
    ensures DropSlashes(s) == "" || DropSlashes(s)[|DropSlashes(s)| - 1] != '/'
  {
    if s != "" && s[|s| - 1] == '/' { DropSlashesShape(s[..|s| - 1]); }
  }

  lemma CoreIff(url: string, core: string)
    ensures IsCore(url, core) <==> core == DropSlashes(Trim(EcmaScript, url))
  {
    hide DropSlashes, Trim;
    var t := Trim(EcmaScript, url);
    var d := DropSlashes(t);
    DropSlashesShape(t);
    assert t == d + t[|d|..];
    if IsCore(url, core) {
      var slashes: string :| AreSlashes(slashes) && t == core + slashes;
      SameCore(t, core, slashes, d, t[|d|..]);
    }
  }

  lemma SameCore(t: string, a: string, x: string, b: string, y: string)
    requires t == a + x && t == b + y && AreSlashes(x) && AreSlashes(y)
    requires (a == "" || a[|a| - 1] != '/') && (b == "" || b[|b| - 1] != '/')
    ensures a == b
  {
    assert t[..|a|] == a && t[..|b|] == b;
    assert forall i :: |a| <= i < |t| ==> t[i] == x[i - |a|];
    assert forall i :: |b| <= i < |t| ==> t[i] == y[i - |b|];
  }

  lemma SameEndpointIff(a: string, b: string)
    ensures NormUrl(a) == NormUrl(b) <==> SameEndpoint(a, b)
  {
    hide DropSlashes, Trim, IsCore;
    var x, y := DropSlashes(Trim(EcmaScript, a)), DropSlashes(Trim(EcmaScript, b));
    CoreIff(a, x);
    CoreIff(b, y);
    LowerIff(x, y);
    forall u, v | IsCore(a, u) && IsCore(b, v) ensures u == x && v == y {
      CoreIff(a, u);
      CoreIff(b, v);
    }
  }

  // ---------------------------------------------------------------- which entry an edit changes

  ghost predicate Fits(e: Entry, name: string, url: string) {
    e.name == name && SameEndpoint(e.baseUrl, url)
  }

  /** The first entry of the name at this endpoint; when there is none, the first one of the name. */
  ghost predicate IsTarget(entries: seq<Entry>, name: string, url: string, i: int) {
    0 <= i < |entries| && entries[i].name == name &&
    if SameEndpoint(entries[i].baseUrl, url) then forall j :: 0 <= j < i ==> !Fits(entries[j], name, url)
    else
      (forall j :: 0 <= j < |entries| ==> !Fits(entries[j], name, url)) &&
      forall j :: 0 <= j < i ==> entries[j].name != name
  }

  lemma {:induction false} FindsFirst(entries: seq<Entry>, name: string, url: Option<string>)
    ensures var i := FindEntry(entries, name, url);
            forall j :: 0 <= j < i ==>
              entries[j].name != name || (url.Some? && NormUrl(entries[j].baseUrl) != url.value)
  {
    hide NormUrl;
    if entries != [] { FindsFirst(entries[1..], name, url); }
  }

  lemma NormIsEndpoint(entries: seq<Entry>, name: string, url: string)
    ensures forall i :: 0 <= i < |entries| ==>
              (Fits(entries[i], name, url) <==>
               entries[i].name == name && NormUrl(entries[i].baseUrl) == NormUrl(url))
  {
    hide NormUrl, SameEndpoint;
    forall i | 0 <= i < |entries|
      ensures Fits(entries[i], name, url) <==>
              entries[i].name == name && NormUrl(entries[i].baseUrl) == NormUrl(url)
    {
      SameEndpointIff(entries[i].baseUrl, url);
    }
  }

  /** The entry an upsert goes to, in the words of the search. */
  lemma TargetIff(entries: seq<Entry>, name: string, url: string)
    ensures var exact := FindEntry(entries, name, Some(NormUrl(url)));
            var i := if exact < |entries| then exact else FindEntry(entries, name, None);
            (i < |entries| ==> IsTarget(entries, name, url, i)) &&
            (i == |entries| ==> forall j :: 0 <= j < |entries| ==> entries[j].name != name)
  {
    hide NormUrl, SameEndpoint, FindEntry;
    NormIsEndpoint(entries, name, url);
    FoundEntry(entries, name, Some(NormUrl(url)));
    FoundEntry(entries, name, None);
    FindsFirst(entries, name, Some(NormUrl(url)));
    FindsFirst(entries, name, None);
    var exact := FindEntry(entries, name, Some(NormUrl(url)));
    var i := if exact < |entries| then exact else FindEntry(entries, name, None);
    if i < |entries| { assert Fits(entries[i], name, url) <==> SameEndpoint(entries[i].baseUrl, url); }
  }

  /** One target at most. */
  lemma OneTarget(entries: seq<Entry>, name: string, url: string, i: nat, j: nat)
    requires IsTarget(entries, name, url, i) && IsTarget(entries, name, url, j)
    ensures i == j
  {
    hide SameEndpoint;
    assert Fits(entries[i], name, url) <==> SameEndpoint(entries[i].baseUrl, url);
    assert Fits(entries[j], name, url) <==> SameEndpoint(entries[j].baseUrl, url);
  }

  // ---------------------------------------------------------------- what an edit makes of the list

  /** What an upsert asks for in the way of the API mode: to keep it, to clear it, or the mode to put. */
  predicate ModeBecomes(was: string, change: ModeChange, now: string) {
    (change == Keep || change == Put("") ==> now == was) && (change == Clear ==> now == "") &&
    (change.Put? && change.mode != "" ==> now == Trim(EcmaScript, change.mode))
  }

  /** An entry after a model was added to it. */
  predicate GainsModel(was: Entry, input: Input, now: Entry) {
    var model, keyEnv := Trim(EcmaScript, input.model), Trim(EcmaScript, input.keyEnv);
    now.name == was.name && now.baseUrl == Trim(EcmaScript, input.baseUrl) &&
    now.keyEnv == (if keyEnv == "" then was.keyEnv else keyEnv) &&
    ModeBecomes(was.apiMode, input.apiMode, now.apiMode) &&
    if was.model == "" then now.model == model && now.extraModels == was.extraModels
    else now.model == was.model && now.extraModels == was.extraModels + [model]
  }

  /** An upsert of something goes to its target, or adds an entry when there is none of its name. */
  lemma UpsertChangesOneEntry(entries: seq<Entry>, input: Input)
    requires Trim(EcmaScript, input.name) != "" && Trim(EcmaScript, input.baseUrl) != ""
    requires Trim(EcmaScript, input.model) != ""
    ensures var name, url, r := Trim(EcmaScript, input.name), Trim(EcmaScript, input.baseUrl), Upserted(entries, input);
            if forall j :: 0 <= j < |entries| ==> entries[j].name != name then
              r.Some? && |r.value| == |entries| + 1 && r.value[..|entries|] == entries &&
              GainsModel(Entry(name, "", "", "", [], ""), input, r.value[|entries|])
            else (exists i :: IsTarget(entries, name, url, i)) && forall i :: IsTarget(entries, name, url, i) ==>
              UpsertAt(entries, i, input, r)
  {
    hide NormUrl, SameEndpoint, FindEntry, Trim, UpsertAt;
    var name, url := Trim(EcmaScript, input.name), Trim(EcmaScript, input.baseUrl);
    TargetIff(entries, name, url);
    TrimOfNothing();
    var exact := FindEntry(entries, name, Some(NormUrl(url)));
    var i := if exact < |entries| then exact else FindEntry(entries, name, None);
    if i < |entries| {
      assert IsTarget(entries, name, url, i);
      UpsertAtFound(entries, i, input);
      forall j | IsTarget(entries, name, url, j) ensures UpsertAt(entries, j, input, Upserted(entries, input)) {
        OneTarget(entries, name, url, i, j);
      }
    }
  }

  /** The lists differ in one entry at most. */
  ghost predicate OnlyAt(entries: seq<Entry>, i: int, next: seq<Entry>) {
    0 <= i < |entries| == |next| && forall j :: 0 <= j < |entries| && j != i ==> next[j] == entries[j]
  }

  /** The model is known and nothing is written, or this entry gains it and the others stay. */
  ghost predicate UpsertAt(entries: seq<Entry>, i: int, input: Input, r: Option<seq<Entry>>) {
    0 <= i < |entries| &&
    (r.None? <==> Trim(EcmaScript, input.model) in Models(entries[i])) &&
    (r.Some? ==> OnlyAt(entries, i, r.value) && GainsModel(entries[i], input, r.value[i]))
  }

  lemma UpsertAtFound(entries: seq<Entry>, i: nat, input: Input)
    requires i < |entries| && Trim(EcmaScript, input.name) != "" && Trim(EcmaScript, input.baseUrl) != ""
    requires Trim(EcmaScript, input.model) != ""
    requires var name, url := Trim(EcmaScript, input.name), Trim(EcmaScript, input.baseUrl);
             var exact := FindEntry(entries, name, Some(NormUrl(url)));
             i == if exact < |entries| then exact else FindEntry(entries, name, None)
    ensures UpsertAt(entries, i, input, Upserted(entries, input))
  {
    hide NormUrl, FindEntry, Trim, Models, ModeAfter, ModeBecomes;
    var e, model, r := entries[i], Trim(EcmaScript, input.model), Upserted(entries, input);
    KnownModel(e, model);
    ModeRule(e.apiMode, input.apiMode);
    if r.Some? {
      assert r.value == entries[i := r.value[i]];
      assert GainsModel(e, input, r.value[i]);
    }
  }

  lemma KnownModel(e: Entry, model: string)
    requires model != ""
    ensures model in Models(e) <==> e.model == model || model in e.extraModels
  {
  }

  lemma ModeRule(was: string, change: ModeChange)
    ensures ModeBecomes(was, change, ModeAfter(was, change))
  {
  }

  // ---------------------------------------------------------------- removals

  /** An URL that says nothing: padding and slashes only. */
  predicate IsNoEndpoint(url: string) {
    AreSlashes(Trim(EcmaScript, url))
  }

  lemma NoEndpointIff(url: string)
    ensures NormUrl(url) == "" <==> IsNoEndpoint(url)
  {
    hide DropSlashes, Trim;
    var t := Trim(EcmaScript, url);
    DropSlashesShape(t);
    var d := DropSlashes(t);
    assert d != "" ==> t[|d| - 1] == d[|d| - 1];
  }

  /** An entry after a model was taken out: a first model gives its place to the next. */
  predicate LosesModel(was: Entry, model: string, now: Entry) {
    now == was.(model := now.model, extraModels := now.extraModels) &&
    if was.model == model then
      (was.extraModels == [] ==> now.model == "" && now.extraModels == []) &&
      (was.extraModels != [] ==> [now.model] + now.extraModels == was.extraModels)
    else now.model == was.model && now.extraModels == Without(was.extraModels, model)
  }

  ghost predicate RemovalAt(entries: seq<Entry>, i: int, model: string, r: Option<seq<Entry>>) {
    r.Some? && OnlyAt(entries, i, r.value) && LosesModel(entries[i], model, r.value[i])
  }

  ghost predicate IsNamed(e: Entry, name: string, url: string) {
    e.name == name && (IsNoEndpoint(url) || SameEndpoint(e.baseUrl, url))
  }

  ghost predicate IsFirstNamed(entries: seq<Entry>, name: string, url: string, i: int) {
    0 <= i < |entries| && IsNamed(entries[i], name, url) && forall j :: 0 <= j < i ==> !IsNamed(entries[j], name, url)
  }

  /** A removal goes to the first entry of the name, at the endpoint if one is given, and to no other. */
  lemma RemovalChangesOneEntry(entries: seq<Entry>, name0: string, model0: string, url: string)
    requires Trim(EcmaScript, name0) != "" && Trim(EcmaScript, model0) != ""
    ensures var name, model, r := Trim(EcmaScript, name0), Trim(EcmaScript, model0),
              Removed(entries, name0, model0, url);
            if forall j :: 0 <= j < |entries| ==> !IsNamed(entries[j], name, url) then r.None?
            else exists i :: IsFirstNamed(entries, name, url, i) && RemovalAt(entries, i, model, r)
  {
    hide NormUrl, SameEndpoint, FindEntry, Trim, Without;
    var name, model := Trim(EcmaScript, name0), Trim(EcmaScript, model0);
    var want := if NormUrl(url) == "" then None else Some(NormUrl(url));
    NoEndpointIff(url);
    NormIsEndpoint(entries, name, url);
    FoundEntry(entries, name, want);
    FindsFirst(entries, name, want);
    assert forall j :: 0 <= j < |entries| ==> (Fits(entries[j], name, url) ==> IsNamed(entries[j], name, url));
    var i := FindEntry(entries, name, want);
    if i < |entries| {
      assert IsFirstNamed(entries, name, url, i);
      assert RemovalAt(entries, i, model, Removed(entries, name0, model0, url));
    }
  }

  lemma TrimOfNothing()
    ensures Trim(EcmaScript, "") == ""
  {
  }
}
