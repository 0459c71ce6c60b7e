/** What the scanner sees in the lines the renderer writes. */
module CustomProvidersLines {
  import opened Text
  import opened Quoting
  import opened ConfigScalars
  import opened CustomProviders

  /** The identifiers that survive on a line of their own under `models:`. */
  predicate IdSurvives(id: string) {
    id != "" && (forall i :: 0 <= i < |id| ==> IsIdChar(id[i])) && !IsKeywordLike(id)
  }

  /** The line of an identifier starts with a key and its colon. */
  predicate OpensWith(id: string, key: string) {
    StartsWith(id + ":", key + ":")
  }

  /** Identifiers whose line reads as the header, as the `models:` line or as a new list item. */
  predicate IsKeywordLike(id: string)
    requires id != ""
  {
    OpensWith(id, "custom_providers") || OpensWith(id, "models") || (id[0] == '-' && OpensWith(id[1..], "name"))
  }

  lemma PadShape(pad: string, body: string)
    requires forall i :: 0 <= i < |pad| ==> pad[i] == ' '
    requires body != "" && !IsSpace(EcmaScript, body[0])
    ensures TrimStart(EcmaScript, pad + body) == body && Lead(pad + body) == |pad|
  {
    TrimStartOfPadded(EcmaScript, pad, body);
  }

  lemma OtherKey(body: string, key: string)
    requires body != "" && key != "" && body[0] != key[0]
    ensures AfterKey(body, key) == None
  {
  }

  lemma OwnKey(key: string, rest: string)
    ensures AfterKey(key + ":" + rest, key) == Some(rest)
  {
    hide TrimStart, IsSpace;
    ColonIsNoSpace();
    var body := key + ":" + rest;
    assert body[..|key|] == key && body[|key|..] == ":" + rest;
    TrimStartOfUnpadded(EcmaScript, ":" + rest);
    assert (":" + rest)[1..] == rest;
  }

  lemma QuotedFieldValue(v: string)
    requires !HasTerminator(v)
    ensures FieldValue(" " + Quote(v)) == Some(v)
  {
    hide Quote, StripScalar, HasTerminator;
    assert Quote(v)[0] == '"' by { QuoteStarts(v); }
    TrimStartOfPadded(EcmaScript, " ", Quote(v));
    QuoteKeepsOneLine(v);
    StripOfQuote(v);
  }

  lemma QuoteStarts(v: string)
    ensures Quote(v) != "" && Quote(v)[0] == '"'
  {
  }

  /** A line that is neither a header, an item, a top-level key nor the `models:` line. */
  predicate IsBodyLine(f: Facts) {
    !f.header && !f.nameItem && !f.topLevel && !f.modelsHead
  }

  lemma FieldLine(line: string, key: string, v: string)
    requires line == "  " + key + ": " + Quote(v) && !HasTerminator(v)
    requires key in ["base_url", "key_env", "api_mode", "model"]
    ensures IsBodyLine(FactsOf(line))
    ensures FactsOf(line).baseUrl == if key == "base_url" then Some(v) else None
    ensures FactsOf(line).keyEnv == if key == "key_env" then Some(v) else None
    ensures FactsOf(line).apiMode == if key == "api_mode" then Some(v) else None
    ensures FactsOf(line).model == if key == "model" then Some(v) else None
  {
    hide Quote, FieldValue, AfterKey, NameValue, ModelId, IsIndentedField, IsNestedField, TrimStart;
    var body := key + ":" + (" " + Quote(v));
    assert line == "  " + body;
    assert body[0] == key[0] && !IsSpace(EcmaScript, body[0]);
    PadShape("  ", body);
    OwnKey(key, " " + Quote(v));
    QuotedFieldValue(v);
    OtherKey(body, "custom_providers");
    if key == "model" {
      NotModels(body, v);
    } else {
      OtherKey(body, "models");
      OtherKey(body, "model");
    }
    if key != "base_url" { OtherKey(body, "base_url"); }
    if key != "key_env" { OtherKey(body, "key_env"); }
    if key != "api_mode" { OtherKey(body, "api_mode"); }
  }

  lemma NotModels(body: string, v: string)
    requires body == "model" + ":" + (" " + Quote(v))
    ensures AfterKey(body, "models") == None
  {
    hide Quote;
    assert body[5] == ':';
    assert "models"[5] == 's';
  }

  lemma NameLine(line: string, v: string)
    requires line == "- name: " + Quote(v) && !HasTerminator(v)
    ensures !FactsOf(line).header && FactsOf(line).nameItem && FactsOf(line).name == Some(v)
  {
    hide Quote, FieldValue, AfterKey, ModelId, IsIndentedField, IsNestedField, TrimStart, NameValue;
    var item := "name" + ":" + (" " + Quote(v));
    var body := "-" + (" " + item);
    assert line == body && "" + body == body;
    PadShape("", body);
    assert body[1..] == " " + item;
    PadShape(" ", item);
    OwnKey("name", " " + Quote(v));
    QuotedFieldValue(v);
    OtherKey(body, "custom_providers");
    NameFound(item, v);
    NameLater(body);
    NameLater(body[1..]);
    assert body[1..][1..] == item;
  }

  lemma NameFound(item: string, v: string)
    requires AfterKey(item, "name").Some? && FieldValue(AfterKey(item, "name").value) == Some(v)
    ensures NameValue(item) == Some(v)
  {
    hide AfterKey, FieldValue;
  }

  lemma NameLater(line: string)
    requires line != "" && line[0] != 'n'
    ensures NameValue(line) == NameValue(line[1..])
  {
    hide FieldValue;
    OtherKey(line, "name");
  }

  lemma ModelsLine(line: string)
    requires line == "  models:"
    ensures FactsOf(line).modelsHead && !FactsOf(line).header && !FactsOf(line).nameItem && !FactsOf(line).topLevel
  {
    hide FieldValue, AfterKey, NameValue, ModelId, IsIndentedField, IsNestedField, TrimStart;
    var body := "models" + ":" + "";
    assert line == "  " + body;
    PadShape("  ", body);
    OwnKey("models", "");
    OtherKey(body, "custom_providers");
  }

  lemma HeaderLine(line: string)
    requires line == "custom_providers:"
    ensures FactsOf(line).header
  {
    hide FieldValue, AfterKey, NameValue, ModelId, IsIndentedField, IsNestedField, TrimStart;
    var body := "custom_providers" + ":" + "";
    assert line == "" + body;
    PadShape("", body);
    OwnKey("custom_providers", "");
  }

  lemma EmptyLine(line: string)
    requires line == ""
    ensures IsBodyLine(FactsOf(line)) && FactsOf(line).modelId == None && !FactsOf(line).indentedField
    ensures FactsOf(line).baseUrl == FactsOf(line).model == FactsOf(line).keyEnv == FactsOf(line).apiMode == None
  {
    hide FieldValue, NameValue;
    assert TrimStart(EcmaScript, line) == "";
    assert forall k :: k != "" ==> !StartsWith("", k);
  }

  // ---------------------------------------------------------------- identifiers

  lemma {:induction false} IdRunStops(t: string)
    ensures forall i :: 0 <= i < IdRun(t) ==> IsIdChar(t[i])
    ensures IdRun(t) < |t| ==> !IsIdChar(t[IdRun(t)])
  {
    if t != "" && IsIdChar(t[0]) {
      IdRunStops(t[1..]);
      assert forall i :: 1 <= i < IdRun(t) ==> t[i] == t[1..][i - 1];
    }
  }

  lemma {:induction false} IdGroupIsPrefix(t: string, k: nat)
    requires k <= |t|
    ensures IdGroup(t, k).Some? ==> IdGroup(t, k).value <= t && 0 < |IdGroup(t, k).value| <= k
  {
    hide IsIdTail;
    if k > 0 && !IsIdTail(t[k..]) { IdGroupIsPrefix(t, k - 1); }
  }

  lemma IdOfPlainLine(id: string, body: string)
    requires id != "" && body == id + ":"
    ensures (forall i :: 0 <= i < |id| ==> IsIdChar(id[i])) ==> IdGroup(body, IdRun(body)) == Some(id)
    ensures IdGroup(body, IdRun(body)) == Some(id) ==> forall i :: 0 <= i < |id| ==> IsIdChar(id[i])
  {
    hide IsIdChar, IdRun, IdGroup;
    IdRunStops(body);
    IdGroupIsPrefix(body, IdRun(body));
    if forall i :: 0 <= i < |id| ==> IsIdChar(id[i]) {
      assert IsIdChar(':') by { ColonIsIdChar(); }
      assert IdRun(body) == |body|;
      IdGroupAtColon(id, body);
    } else if IdGroup(body, IdRun(body)) == Some(id) {
      assert forall i :: 0 <= i < |id| ==> body[i] == id[i];
    }
  }

  lemma ColonIsIdChar()
    ensures IsIdChar(':')
  {
  }

  lemma IdGroupAtColon(id: string, body: string)
    requires id != "" && body == id + ":"
    ensures IdGroup(body, |body|) == Some(id)
  {
    hide TrimStart, IsIdChar;
    assert body[|body|..] == "" && body[|id|..] == ":" && body[..|id|] == id;
    TrimStartOfUnpadded(EcmaScript, "");
    TrimStartOfUnpadded(EcmaScript, ":");
    assert ":"[1..] == "";
    assert !IsIdTail("") && IsIdTail(":");
  }

  lemma KeyAtColon(id: string, key: string, body: string)
    requires body == id + ":" && key != ""
    requires forall i :: 0 <= i < |id| ==> !IsSpace(EcmaScript, id[i])
    ensures AfterKey(body, key).Some? <==> OpensWith(id, key)
  {
    hide TrimStart, IsSpace;
    if StartsWith(body, key) {
      var u := body[|key|..];
      assert !IsSpace(EcmaScript, ':') by { ColonIsNoSpace(); }
      assert u == "" || u[0] == body[|key|];
      TrimStartOfUnpadded(EcmaScript, u);
      if u != "" {
        assert body[..|key| + 1] == key + [u[0]];
        assert StartsWith(body, key + ":") <==> u[0] == ':' by { assert (key + ":")[|key|] == ':'; }
      }
    }
  }

  lemma ColonIsNoSpace()
    ensures !IsSpace(EcmaScript, ':') && !IsSpace(EcmaScript, '-')
  {
  }

  /** How the line of an identifier without white space is classified. */
  lemma IdLineShape(line: string, id: string, body: string)
    requires body == id + ":" && line == "    " + body && id != ""
    requires forall i :: 0 <= i < |id| ==> !IsSpace(EcmaScript, id[i])
    ensures var f := FactsOf(line);
            f.deep && !f.nested && !f.topLevel &&
            (f.header <==> OpensWith(id, "custom_providers")) &&
            (f.modelsHead <==> OpensWith(id, "models")) &&
            (f.nameItem <==> id[0] == '-' && OpensWith(id[1..], "name")) &&
            f.modelId == IdGroup(body, IdRun(body))
  {
    hide FactsOf, IsHeader, HasIndentedKey, IsNestedField, IsTopLevel, ModelId, IdGroup, IdRun, TrimStart, OpensWith,
         IsNameItem, Lead, IsSpace, AfterKey;
    assert body[0] == id[0];
    PadShape("    ", body);
    KeyTests(line, body);
    NameItemShape(line, id, body);
    KeyAtColon(id, "custom_providers", body);
    KeyAtColon(id, "models", body);
    FactsParts(line);
  }

  lemma FactsParts(line: string)
    ensures var f := FactsOf(line);
            f.header == IsHeader(line) && f.nameItem == IsNameItem(line) && f.topLevel == IsTopLevel(line) &&
            f.modelsHead == HasIndentedKey(line, 2, "models") && f.modelId == ModelId(line) &&
            f.nested == IsNestedField(line) && f.deep == (Lead(line) >= 4)
  {
  }

  lemma KeyTests(line: string, body: string)
    requires TrimStart(EcmaScript, line) == body && Lead(line) == 4 && line == "    " + body
    ensures IsHeader(line) <==> AfterKey(body, "custom_providers").Some?
    ensures HasIndentedKey(line, 2, "models") <==> AfterKey(body, "models").Some?
    ensures !IsNestedField(line) && !IsTopLevel(line) && ModelId(line) == IdGroup(body, IdRun(body))
  {
    hide AfterKey, IdGroup, IdRun, TrimStart;
  }

  lemma NameItemShape(line: string, id: string, body: string)
    requires TrimStart(EcmaScript, line) == body == id + ":" && id != ""
    requires forall i :: 0 <= i < |id| ==> !IsSpace(EcmaScript, id[i])
    ensures IsNameItem(line) <==> id[0] == '-' && OpensWith(id[1..], "name")
  {
    hide AfterKey, TrimStart, IsSpace, OpensWith;
    if id[0] == '-' {
      var rest := id[1..];
      var tail := rest + ":";
      assert body[1..] == tail;
      ColonIsNoSpace();
      assert tail[0] == if rest == "" then ':' else id[1];
      TrimStartOfUnpadded(EcmaScript, tail);
      KeyAtColon(rest, "name", tail);
    }
  }

  /** The line is taken as one more model of the current entry. */
  predicate ReadsAsModel(f: Facts, id: string) {
    IsBodyLine(f) && !f.nested && f.deep && f.modelId == Some(id)
  }

  lemma IdCharsAreNoSpaces(id: string)
    requires forall i :: 0 <= i < |id| ==> IsIdChar(id[i])
    ensures forall i :: 0 <= i < |id| ==> !IsSpace(EcmaScript, id[i])
  {
  }

  /**
   * A rendered model line is read back as its identifier exactly when the identifier is in the
   * scanner's alphabet and does not look like one of the scanner's keywords.
   */
  lemma ModelLineSurvivesIff(line: string, id: string)
    requires line == "    " + (id + ":") && id != "" && Tight(EcmaScript, id)
    ensures ReadsAsModel(FactsOf(line), id) <==> IdSurvives(id)
  {
    hide FactsOf, IdGroup, IdRun, OpensWith;
    IdOfPlainLine(id, id + ":");
    if forall i :: 0 <= i < |id| ==> IsIdChar(id[i]) {
      IdCharsAreNoSpaces(id);
      IdLineShape(line, id, id + ":");
    } else {
      PadShape("    ", id + ":");
      IdOfFacts(line, id + ":");
    }
  }

  lemma IdOfFacts(line: string, body: string)
    requires TrimStart(EcmaScript, line) == body && Lead(line) == 4
    ensures FactsOf(line).modelId == IdGroup(body, IdRun(body))
  {
    hide AfterKey, NameValue, IdGroup, IdRun, FieldValue, IsIndentedField, IsNestedField, TrimStart, Field;
  }
}
