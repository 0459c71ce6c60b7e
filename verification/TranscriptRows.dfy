/**
 * The rows of a turn, told from the rows alone: when they are written, what they hold, and in which order they stand.
 */
module TranscriptRows {
  import opened Text
  import opened Transcript
  import opened TranscriptLaws

  // ---------------------------------------------------------------- when rows are written

  /** A turn needs a session, and something to read in its question and in its answer. */
  lemma TurnIff(t: Turn)
    ensures IsTurn(t) <==> t.session != "" && HasInk(EcmaScript, t.user) && HasInk(EcmaScript, t.assistant)
  {
    hide Trim, HasInk;
    InkIff(EcmaScript, t.user);
    InkIff(EcmaScript, t.assistant);
  }

  /** The id begins with the writer's own prefix, in letters of either case. */
  predicate HasPrefix(id: string) {
    |id| >= 9 && SameLetters(id[..9], "chat-mat:")
  }

  /** An active row of the session that the writer did not make. */
  predicate IsForeign(m: Message, session: string) {
    m.session == session && m.active && (m.platformId.None? || !HasPrefix(m.platformId.value))
  }

  lemma PrefixIff(id: Option<string>)
    ensures IsMaterialized(id) <==> id.Some? && HasPrefix(id.value)
  {
    hide Lower, SameLetters;
    if id.Some? && |id.value| >= 9 { LowerIff(id.value[..9], "chat-mat:"); }
    PrefixIsLow();
  }

  lemma PrefixIsLow()
    ensures Lower("chat-mat:") == "chat-mat:" == PREFIX
  {
  }

  lemma OwnedIff(messages: seq<Message>, session: string)
    ensures GatewayOwns(messages, session) <==> exists i :: 0 <= i < |messages| && IsForeign(messages[i], session)
  {
    hide IsMaterialized, HasPrefix;
    forall i | 0 <= i < |messages|
      ensures IsGatewayRow(messages[i], session) <==> IsForeign(messages[i], session)
    {
      PrefixIff(messages[i].platformId);
    }
  }

  /** The two rows a new turn leaves: its words, one after the other, both active, under ids of the writer. */
  predicate AreRowsOf(u: Message, a: Message, t: Turn, now: real) {
    u.session == a.session == t.session && u.role.User? && a.role.Assistant? && u.content == t.user &&
    a.content == t.assistant && u.at == now < a.at && u.active && a.active && u.platformId.Some? &&
    a.platformId.Some? &&
    HasPrefix(u.platformId.value) && HasPrefix(a.platformId.value) && u.platformId != a.platformId
  }

  lemma RowsOfTurn(t: Turn, now: real)
    ensures AreRowsOf(Row(t, User, now), Row(t, Assistant, now), t, now)
  {
    hide IdOf, HasPrefix, IsMaterialized;
    IdsAreMaterialized(Key(t), User);
    IdsAreMaterialized(Key(t), Assistant);
    IdsDiffer(Key(t), Key(t));
    PrefixIff(Some(IdOf(Key(t), User)));
    PrefixIff(Some(IdOf(Key(t), Assistant)));
  }

  /**
   * A turn that says something, in a session without foreign rows, is written once: as two rows at the end that are
   * counted. Any other turn adds no row.
   */
  lemma TurnIsWrittenIff(db: Db, t: Turn, profile: string, desired: string, now: real)
    requires Sound(db.messages)
    ensures var before, after := db.messages, Step(db, Materialize(t, profile, desired, now)).messages;
            var n := |before|;
            if t.session != "" && HasInk(EcmaScript, t.user) && HasInk(EcmaScript, t.assistant) &&
               (forall i :: 0 <= i < n ==> !IsForeign(before[i], t.session)) && !HasRow(before, IdOf(Key(t), User)) then
              |after| == n + 2 && after[..n] == before && AreRowsOf(after[n], after[n + 1], t, now) &&
              ActiveCount(after, t.session) == ActiveCount(before, t.session) + 2
            else |after| == n
  {
    hide IsTurn, GatewayOwns, HasInk, IsForeign, Row, IdOf, Key, AreRowsOf, HasRow, Stored, ActiveCount, Sound;
    TurnIff(t);
    OwnedIff(db.messages, t.session);
    RowsOfTurn(t, now);
    if IsTurn(t) {
      StoringATurn(db, t, profile, desired, now);
      var before, u, a := db.messages, Row(t, User, now), Row(t, Assistant, now);
      var r := Stored(db, t, profile, desired, now);
      if !GatewayOwns(before, t.session) && !HasRow(before, IdOf(Key(t), User)) {
        assert r.messages == before + [u, a] && r.messages[..|before|] == before;
        TwoMore(before, u, a, t, now);
      }
    }
  }

  lemma TwoMore(before: seq<Message>, u: Message, a: Message, t: Turn, now: real)
    requires AreRowsOf(u, a, t, now)
    ensures ActiveCount(before + [u, a], t.session) == ActiveCount(before, t.session) + 2
  {
    hide HasPrefix;
    CountConcat(before, [u, a], t.session);
    assert [u, a][1..] == [a] && [a][1..] == [];
    assert ActiveCount([a], t.session) == 1 && ActiveCount([u, a], t.session) == 2;
  }

  // ---------------------------------------------------------------- question before answer

  ghost predicate IsRowOf(m: Message, key: string, role: Role) {
    m.platformId == Some(IdOf(key, role))
  }

  ghost predicate QuestionsFirst(messages: seq<Message>) {
    forall i, j, key ::
      0 <= i < |messages| && 0 <= j < |messages| && IsRowOf(messages[i], key, User) &&
      IsRowOf(messages[j], key, Assistant)
      ==> messages[i].at < messages[j].at
  }

  /** Every question stands before its answer, and none in the future. */
  ghost predicate InOrder(messages: seq<Message>, now: real) {
    QuestionsFirst(messages) &&
    forall i, key :: 0 <= i < |messages| && IsRowOf(messages[i], key, User) ==> messages[i].at <= now
  }

  /** The clock of the writer does not run backwards; `now` is what it last read. */
  predicate ClockRuns(events: seq<Event>, now: real) {
    events == [] ||
    (if events[0].Materialize? then now <= events[0].now && ClockRuns(events[1..], events[0].now)
     else ClockRuns(events[1..], now))
  }

  function TimeAfter(e: Event, now: real): real {
    if e.Materialize? then e.now else now
  }

  lemma RowKeys(m: Message, key: string, t: Turn, role: Role)
    requires m.platformId == Some(IdOf(Key(t), role))
    ensures IsRowOf(m, key, role) <==> key == Key(t)
    ensures !IsRowOf(m, key, if role.User? then Assistant else User)
  {
    hide IdOf, Key;
    IdsDiffer(key, Key(t));
    IdsDiffer(Key(t), key);
  }

  lemma RowsInOrder(messages: seq<Message>, t: Turn, was: real, now: real)
    requires Sound(messages) && InOrder(messages, was) && was <= now
    ensures InOrder(WithRows(messages, t, now), now)
  {
    hide IdOf, Key, HasRow, Paired, OnceEach, IsRowOf, Row;
    RowsTogether(messages, t, now);
    var r := WithRows(messages, t, now);
    var u, a := Row(t, User, now), Row(t, Assistant, now);
    if HasRow(messages, IdOf(Key(t), User)) {
      var at := FindRow(messages, IdOf(Key(t), Assistant));
      AnswerRewritten(messages, t, now, at);
      AnswerInOrder(messages, r, t, was, now, at);
    } else {
      TurnRows(t, now);
      NoRowsYet(messages, t);
      forall key ensures (IsRowOf(u, key, User) <==> key == Key(t)) &&
        (IsRowOf(a, key, Assistant) <==> key == Key(t)) &&
                         !IsRowOf(u, key, Assistant) && !IsRowOf(a, key, User)
      {
        RowKeys(u, key, t, User);
        RowKeys(a, key, t, Assistant);
      }
      PairInOrder(messages, u, a, Key(t), was, now);
    }
  }

  lemma TurnRows(t: Turn, now: real)
    ensures Row(t, User, now).platformId == Some(IdOf(Key(t), User)) && Row(t, User, now).at == now
    ensures Row(t, Assistant, now).platformId == Some(IdOf(Key(t), Assistant)) && Row(t, Assistant, now).at > now
  {
  }

  lemma NoRowsYet(messages: seq<Message>, t: Turn)
    requires Sound(messages) && !HasRow(messages, IdOf(Key(t), User))
    ensures forall i, role :: 0 <= i < |messages| ==> !IsRowOf(messages[i], Key(t), role)
  {
    hide IdOf, Key;
    assert !HasRow(messages, IdOf(Key(t), Assistant));
    forall i, role | 0 <= i < |messages| ensures !IsRowOf(messages[i], Key(t), role) {
      assert role.User? || role.Assistant?;
    }
  }

  lemma PairInOrder(messages: seq<Message>, u: Message, a: Message, own: string, was: real, now: real)
    requires InOrder(messages, was) && was <= now && u.at == now < a.at
    requires forall i, role :: 0 <= i < |messages| ==> !IsRowOf(messages[i], own, role)
    requires forall key :: (IsRowOf(u, key, User) <==> key == own) && (IsRowOf(a, key, Assistant) <==> key == own) &&
                           !IsRowOf(u, key, Assistant) && !IsRowOf(a, key, User)
    ensures InOrder(messages + [u, a], now)
  {
    hide IsRowOf;
    var all, n := messages + [u, a], |messages|;
    forall i, j, key | 0 <= i < |all| && 0 <= j < |all| && IsRowOf(all[i], key, User) && IsRowOf(all[j], key, Assistant)
      ensures all[i].at < all[j].at
    {
      assert all[n] == u && all[n + 1] == a;
      if i < n { assert all[i] == messages[i]; }
      if j < n { assert all[j] == messages[j]; }
    }
    forall i, key | 0 <= i < |all| && IsRowOf(all[i], key, User) ensures all[i].at <= now {
      if i < n { assert all[i] == messages[i]; }
    }
  }

  /** A stored turn that comes again moves its answer, and no other row. */
  lemma AnswerRewritten(messages: seq<Message>, t: Turn, now: real, at: nat)
    requires Sound(messages) && HasRow(messages, IdOf(Key(t), User)) && at == FindRow(messages, IdOf(Key(t), Assistant))
    ensures at < |messages| && IsRowOf(messages[at], Key(t), Assistant)
    ensures WithRows(messages, t, now) ==
            messages[at := messages[at].(content := t.assistant, at := now + 0.001)]
  {
    hide IdOf, Key, OnceEach, HasRow, Row;
    FoundRow(messages, IdOf(Key(t), User));
    FoundRow(messages, IdOf(Key(t), Assistant));
    assert HasRow(messages, IdOf(Key(t), Assistant));
  }

  lemma AnswerInOrder(messages: seq<Message>, r: seq<Message>, t: Turn, was: real, now: real, at: nat)
    requires InOrder(messages, was) && was <= now && at < |messages| && IsRowOf(messages[at], Key(t), Assistant)
    requires r == messages[at := messages[at].(content := t.assistant, at := now + 0.001)]
    ensures InOrder(r, now)
  {
    hide IdOf, Key;
    forall i, key, role | 0 <= i < |r| ensures IsRowOf(r[i], key, role) <==> IsRowOf(messages[i], key, role) {}
    assert messages[at].platformId == Some(IdOf(Key(t), Assistant));
    forall i, key | 0 <= i < |r| && IsRowOf(r[i], key, User) ensures r[i].at <= now && i != at {
      assert IsRowOf(messages[i], key, User);
      RowKeys(messages[at], key, t, Assistant);
    }
    forall i, j, key | 0 <= i < |r| && 0 <= j < |r| && IsRowOf(r[i], key, User) && IsRowOf(r[j], key, Assistant)
      ensures r[i].at < r[j].at
    {
      assert IsRowOf(messages[i], key, User) && IsRowOf(messages[j], key, Assistant);
    }
  }

  ghost predicate AllFrom(some: seq<Message>, all: seq<Message>) {
    forall i :: 0 <= i < |some| ==> exists j :: 0 <= j < |all| && all[j].platformId == some[i].platformId &&
                                                all[j].at == some[i].at
  }

  lemma FewerInOrder(some: seq<Message>, all: seq<Message>, now: real)
    requires AllFrom(some, all) && InOrder(all, now)
    ensures InOrder(some, now)
  {
    hide IdOf;
    forall i, j, key | 0 <= i < |some| && 0 <= j < |some| && IsRowOf(some[i], key, User) &&
      IsRowOf(some[j], key, Assistant)
      ensures some[i].at < some[j].at
    {
      var k :| 0 <= k < |all| && all[k].platformId == some[i].platformId && all[k].at == some[i].at;
      var l :| 0 <= l < |all| && all[l].platformId == some[j].platformId && all[l].at == some[j].at;
      assert IsRowOf(all[k], key, User) && IsRowOf(all[l], key, Assistant);
    }
    forall i, key | 0 <= i < |some| && IsRowOf(some[i], key, User) ensures some[i].at <= now {
      var k :| 0 <= k < |all| && all[k].platformId == some[i].platformId && all[k].at == some[i].at;
      assert IsRowOf(all[k], key, User);
    }
  }

  lemma {:induction false} WithoutIsFrom(messages: seq<Message>, session: string)
    ensures AllFrom(Without(messages, session), messages)
  {
    if messages != [] {
      var rest := Without(messages[1..], session);
      WithoutIsFrom(messages[1..], session);
      var r := Without(messages, session);
      forall i | 0 <= i < |r|
        ensures exists j :: 0 <= j < |messages| && messages[j].platformId == r[i].platformId &&
                  messages[j].at == r[i].at
      {
        if r[i] == messages[0] {
        } else {
          var k := if messages[0].session == session then i else i - 1;
          assert r[i] == rest[k];
          var j :| 0 <= j < |messages[1..]| && messages[1..][j].platformId == rest[k].platformId &&
            messages[1..][j].at == rest[k].at;
          assert messages[j + 1] == messages[1..][j];
        }
      }
    }
  }

  lemma GatewayRowInOrder(messages: seq<Message>, row: Message, now: real)
    requires InOrder(messages, now) && !IsMaterialized(row.platformId)
    ensures InOrder(messages + [row], now)
  {
    hide IdOf, IsMaterialized;
    var all := messages + [row];
    forall key, role ensures !IsRowOf(row, key, role) { IdsAreMaterialized(key, role); }
    forall i, j, key | 0 <= i < |all| && 0 <= j < |all| && IsRowOf(all[i], key, User) && IsRowOf(all[j], key, Assistant)
      ensures all[i].at < all[j].at
    {
      assert i < |messages| && j < |messages| && all[i] == messages[i] && all[j] == messages[j];
    }
    forall i, key | 0 <= i < |all| && IsRowOf(all[i], key, User) ensures all[i].at <= now {
      assert i < |messages| && all[i] == messages[i];
    }
  }

  lemma StepInOrder(db: Db, e: Event, now: real)
    requires Sound(db.messages) && InOrder(db.messages, now) && now <= TimeAfter(e, now)
    ensures InOrder(Step(db, e).messages, TimeAfter(e, now))
  {
    hide InOrder, Sound, IsTurn, GatewayOwns, WithRows, ResolveTitle, IsMaterialized, AllFrom;
    match e
    case Materialize(t, profile, desired, time) =>
      LaterInOrder(db.messages, now, time);
      RowsInOrder(db.messages, t, now, time);
    case GatewayInsert(row) =>
      if !IsMaterialized(row.platformId) { GatewayRowInOrder(db.messages, row, now); }
    case SetActive(i, on) =>
      if i < |db.messages| { SwitchedInOrder(db.messages, i, on, now); }
    case DeleteSession(s) =>
      WithoutIsFrom(db.messages, s);
      FewerInOrder(Without(db.messages, s), db.messages, now);
  }

  lemma LaterInOrder(messages: seq<Message>, was: real, now: real)
    requires InOrder(messages, was) && was <= now
    ensures InOrder(messages, now)
  {
  }

  lemma SwitchedInOrder(messages: seq<Message>, i: nat, on: bool, now: real)
    requires InOrder(messages, now) && i < |messages|
    ensures InOrder(messages[i := messages[i].(active := on)], now)
  {
    var r := messages[i := messages[i].(active := on)];
    forall j | 0 <= j < |r|
      ensures exists k :: 0 <= k < |messages| && messages[k].platformId == r[j].platformId && messages[k].at == r[j].at
    {
      assert messages[j].platformId == r[j].platformId && messages[j].at == r[j].at;
    }
    FewerInOrder(r, messages, now);
  }

  /** Over every run in which the writer's clock does not run backwards, each question stands before its answer. */
  lemma {:induction false} RunInOrder(db: Db, events: seq<Event>, now: real) returns (end: real)
    requires Sound(db.messages) && InOrder(db.messages, now) && ClockRuns(events, now)
    ensures now <= end && InOrder(Run(db, events).messages, end)
    decreases |events|
  {
    hide InOrder, Sound, Step;
    end := now;
    if events != [] {
      StepSound(db, events[0]);
      StepInOrder(db, events[0], now);
      end := RunInOrder(Step(db, events[0]), events[1..], TimeAfter(events[0], now));
    }
  }

  /** So it is from a database without messages on. */
  lemma FreshRunInOrder(sessions: map<string, Session>, events: seq<Event>, now: real)
    requires ClockRuns(events, now)
    ensures QuestionsFirst(Run(Db(sessions, []), events).messages)
  {
    hide Run, Sound;
    EmptyIsSound();
    var end := RunInOrder(Db(sessions, []), events, now);
  }
}
