/** What every interleaving of turns, gateway writes and deletions keeps. */
module TranscriptLaws {
  import opened Text
  import opened Transcript

  // ---------------------------------------------------------------- ids

  predicate HasRow(messages: seq<Message>, id: string) {
    exists i :: 0 <= i < |messages| && messages[i].platformId == Some(id)
  }

  lemma IdsAreMaterialized(key: string, role: Role)
    ensures IsMaterialized(Some(IdOf(key, role)))
  {
    var id := IdOf(key, role);
    assert id[..|PREFIX|] == PREFIX;
    assert Lower(PREFIX) == PREFIX;
  }

  lemma IdsDiffer(k1: string, k2: string)
    ensures IdOf(k1, User) != IdOf(k2, Assistant)
    ensures forall role :: IdOf(k1, role) == IdOf(k2, role) ==> k1 == k2
  {
    var a, c := IdOf(k1, User), IdOf(k2, Assistant);
    assert a[|a| - 1] == 'r' && c[|c| - 1] == 't';
    forall role | IdOf(k1, role) == IdOf(k2, role) ensures k1 == k2 {
      var x, y := IdOf(k1, role), IdOf(k2, role);
      assert x[|PREFIX|..|PREFIX| + |k1|] == k1 && y[|PREFIX|..|PREFIX| + |k2|] == k2;
    }
  }

  /** The parts of a turn can be told from its key when neither the session nor the question holds a NUL. */
  predicate IsClean(t: Turn) {
    '\0' !in t.session && '\0' !in t.user
  }

  lemma SplitsAtFirstNul(a: string, x: string, c: string, y: string)
    requires '\0' !in a && '\0' !in c && a + ("\0" + x) == c + ("\0" + y)
    ensures a == c && x == y
  {
    var s, t := a + ("\0" + x), c + ("\0" + y);
    assert s[|a|] == '\0' && t[|c|] == '\0';
    assert |a| == |c|;
    assert s[..|a|] == a && t[..|c|] == c && s[|a| + 1..] == x && t[|c| + 1..] == y;
  }

  lemma CleanKeysTellTurnsApart(t: Turn, u: Turn)
    requires IsClean(t) && IsClean(u)
    ensures Key(t) == Key(u) <==> t == u
  {
    if Key(t) == Key(u) {
      SplitsAtFirstNul(t.session, t.user + ("\0" + t.assistant), u.session, u.user + ("\0" + u.assistant));
      SplitsAtFirstNul(t.user, t.assistant, u.user, u.assistant);
    }
  }

  /** A turn is the only one with its key exactly when none of its three texts holds a NUL. */
  lemma KeyTellsTurnIff(t: Turn)
    ensures (forall u :: Key(u) == Key(t) ==> u == t) <==> '\0' !in t.session && '\0' !in t.user && '\0' !in t.assistant
  {
    if '\0' !in t.session && '\0' !in t.user && '\0' !in t.assistant {
      forall u | Key(u) == Key(t) ensures u == t { TwoNulsTellAll(t, u); }
    } else {
      NulGivesTwin(t);
    }
  }

  lemma TwoNulsTellAll(t: Turn, u: Turn)
    requires '\0' !in t.session && '\0' !in t.user && '\0' !in t.assistant && Key(u) == Key(t)
    ensures u == t
  {
    var k, i, j := Key(t), |t.session|, |t.session| + 1 + |t.user|;
    assert forall n :: 0 <= n < |k| && k[n] == '\0' ==> n == i || n == j;
    var m, n := |u.session|, |u.session| + 1 + |u.user|;
    assert Key(u)[m] == '\0' && Key(u)[n] == '\0';
    assert m == i && n == j;
    assert k[..m] == t.session && Key(u)[..m] == u.session;
    assert k[m + 1..n] == t.user && Key(u)[m + 1..n] == u.user;
    assert k[n + 1..] == t.assistant && Key(u)[n + 1..] == u.assistant;
  }

  lemma NulGivesTwin(t: Turn)
    requires '\0' in t.session || '\0' in t.user || '\0' in t.assistant
    ensures exists u :: Key(u) == Key(t) && u != t
  {
    var s, q, a := t.session, t.user, t.assistant;
    if '\0' in s {
      var i :| 0 <= i < |s| && s[i] == '\0';
      var u := Turn(s[..i], s[i + 1..], q + ("\0" + a));
      assert s == s[..i] + ("\0" + s[i + 1..]);
      assert Key(u) == Key(t);
    } else if '\0' in q {
      var i :| 0 <= i < |q| && q[i] == '\0';
      var u := Turn(s, q[..i], q[i + 1..] + ("\0" + a));
      assert q == q[..i] + ("\0" + q[i + 1..]);
      assert q[..i] + ("\0" + (q[i + 1..] + ("\0" + a))) == q + ("\0" + a);
      assert Key(u) == Key(t) && |u.user| < |t.user|;
    } else {
      var i :| 0 <= i < |a| && a[i] == '\0';
      var u := Turn(s, q + ("\0" + a[..i]), a[i + 1..]);
      assert a == a[..i] + ("\0" + a[i + 1..]);
      assert q + ("\0" + a[..i]) + ("\0" + a[i + 1..]) == q + ("\0" + a);
      assert Key(u) == Key(t) && |u.user| > |t.user|;
    }
  }

  // ---------------------------------------------------------------- the invariant

  /** No two rows carry the same materialized id. */
  ghost predicate OnceEach(messages: seq<Message>) {
    forall i, j :: 0 <= i < j < |messages| && IsMaterialized(messages[i].platformId) ==>
      messages[i].platformId != messages[j].platformId
  }

  /** A question is stored exactly when its answer is, in the same session. */
  ghost predicate Paired(messages: seq<Message>) {
    (forall key :: HasRow(messages, IdOf(key, User)) <==> HasRow(messages, IdOf(key, Assistant))) &&
    forall i, j, key ::
      0 <= i < |messages| && 0 <= j < |messages| && messages[i].platformId == Some(IdOf(key, User)) &&
      messages[j].platformId == Some(IdOf(key, Assistant))
      ==> messages[i].session == messages[j].session
  }

  ghost predicate Sound(messages: seq<Message>) {
    OnceEach(messages) && Paired(messages)
  }

  lemma FoundRow(messages: seq<Message>, id: string)
    ensures FindRow(messages, id) < |messages| <==> HasRow(messages, id)
  {
  }

  /** Without gateway rows in the way, either both rows of a turn are written or none is. */
  lemma RowsTogether(messages: seq<Message>, t: Turn, now: real)
    requires Paired(messages)
    ensures var r := WithRows(messages, t, now);
            if HasRow(messages, IdOf(Key(t), User)) then |r| == |messages|
            else r == messages + [Row(t, User, now), Row(t, Assistant, now)]
  {
    hide HasRow, IdOf, Key, Row;
    var u, a := IdOf(Key(t), User), IdOf(Key(t), Assistant);
    FoundRow(messages, u);
    FoundRow(messages, a);
    assert HasRow(messages, u) <==> HasRow(messages, a);
    assert messages + [Row(t, User, now)] + [Row(t, Assistant, now)] ==
             messages + [Row(t, User, now), Row(t, Assistant, now)];
  }

  /** Rows that differ only in what ids do not depend on. */
  ghost predicate SameIds(a: seq<Message>, c: seq<Message>) {
    |a| == |c| && forall i :: 0 <= i < |a| ==> a[i].platformId == c[i].platformId && a[i].session == c[i].session
  }

  lemma SameIdsSound(a: seq<Message>, c: seq<Message>)
    requires SameIds(a, c) && Sound(a)
    ensures Sound(c)
  {
    hide IdOf, IsMaterialized;
    forall id ensures HasRow(a, id) <==> HasRow(c, id) {
      if HasRow(a, id) { var i :| 0 <= i < |a| && a[i].platformId == Some(id); assert c[i].platformId == Some(id); }
      if HasRow(c, id) { var i :| 0 <= i < |c| && c[i].platformId == Some(id); assert a[i].platformId == Some(id); }
    }
    forall i, j, key | 0 <= i < |c| && 0 <= j < |c| && c[i].platformId == Some(IdOf(key, User)) &&
      c[j].platformId == Some(IdOf(key, Assistant))
      ensures c[i].session == c[j].session {
      assert a[i].session == a[j].session;
    }
  }

  lemma HasRowMore(messages: seq<Message>, more: seq<Message>, id: string)
    ensures HasRow(messages + more, id) <==> HasRow(messages, id) || HasRow(more, id)
  {
    var all := messages + more;
    if HasRow(messages, id) {
      var i :| 0 <= i < |messages| && messages[i].platformId == Some(id);
      assert all[i].platformId == Some(id);
    }
    if HasRow(more, id) {
      var i :| 0 <= i < |more| && more[i].platformId == Some(id);
      assert all[|messages| + i].platformId == Some(id);
    }
    if HasRow(all, id) {
      var i :| 0 <= i < |all| && all[i].platformId == Some(id);
      assert if i < |messages| then messages[i].platformId == Some(id) else more[i - |messages|].platformId == Some(id);
    }
  }

  lemma GatewayRowSound(messages: seq<Message>, row: Message)
    requires Sound(messages) && !IsMaterialized(row.platformId)
    ensures Sound(messages + [row])
  {
    hide IdOf, IsMaterialized, HasRow;
    forall key, role ensures HasRow(messages + [row], IdOf(key, role)) <==> HasRow(messages, IdOf(key, role)) {
      IdsAreMaterialized(key, role);
      HasRowMore(messages, [row], IdOf(key, role));
      assert HasRow([row], IdOf(key, role)) ==> row.platformId == Some(IdOf(key, role)) by {
        OnlyRow(row, IdOf(key, role));
      }
    }
    var all := messages + [row];
    forall i, j, key | 0 <= i < |all| && 0 <= j < |all| && all[i].platformId == Some(IdOf(key, User)) &&
      all[j].platformId == Some(IdOf(key, Assistant))
      ensures all[i].session == all[j].session {
      IdsAreMaterialized(key, User);
      IdsAreMaterialized(key, Assistant);
      assert i < |messages| && j < |messages|;
      assert messages[i].session == messages[j].session;
    }
  }

  lemma OnlyRow(row: Message, id: string)
    ensures HasRow([row], id) <==> row.platformId == Some(id)
  {
    if row.platformId == Some(id) { assert [row][0].platformId == Some(id); }
  }

  /** The two new rows of a turn keep the invariant. */
  lemma NewRowsSound(messages: seq<Message>, t: Turn, now: real)
    requires Sound(messages) && !HasRow(messages, IdOf(Key(t), User)) && !HasRow(messages, IdOf(Key(t), Assistant))
    ensures Sound(messages + [Row(t, User, now), Row(t, Assistant, now)])
  {
    hide IdOf, IsMaterialized, HasRow, Key;
    var u, a := Row(t, User, now), Row(t, Assistant, now);
    var all := messages + [u, a];
    var key0 := Key(t);
    forall key ensures HasRow(all, IdOf(key, User)) <==> HasRow(all, IdOf(key, Assistant)) {
      RowsOfTwo(messages, u, a, key0, key);
    }
    assert forall i :: 0 <= i < |messages| ==>
             all[i] == messages[i] && all[i].platformId != u.platformId && all[i].platformId != a.platformId by {
      forall i | 0 <= i < |messages|
        ensures messages[i].platformId != u.platformId && messages[i].platformId != a.platformId {
        NotThere(messages, i, IdOf(key0, User));
        NotThere(messages, i, IdOf(key0, Assistant));
      }
    }
    IdsDiffer(key0, key0);
    forall i, j, key | 0 <= i < |all| && 0 <= j < |all| && all[i].platformId == Some(IdOf(key, User)) &&
      all[j].platformId == Some(IdOf(key, Assistant))
      ensures all[i].session == all[j].session {
      IdsDiffer(key, key0);
      IdsDiffer(key0, key);
      if i < |messages| && j < |messages| { assert messages[i].session == messages[j].session; }
    }
  }

  lemma NotThere(messages: seq<Message>, i: nat, id: string)
    requires i < |messages| && !HasRow(messages, id)
    ensures messages[i].platformId != Some(id)
  {
  }

  lemma RowsOfTwo(messages: seq<Message>, u: Message, a: Message, key0: string, key: string)
    requires u.platformId == Some(IdOf(key0, User)) && a.platformId == Some(IdOf(key0, Assistant))
    requires HasRow(messages, IdOf(key, User)) <==> HasRow(messages, IdOf(key, Assistant))
    ensures HasRow(messages + [u, a], IdOf(key, User)) <==> HasRow(messages + [u, a], IdOf(key, Assistant))
  {
    hide IdOf, HasRow;
    IdsDiffer(key, key0);
    IdsDiffer(key0, key);
    HasRowMore(messages, [u, a], IdOf(key, User));
    HasRowMore(messages, [u, a], IdOf(key, Assistant));
    assert [u] + [a] == [u, a];
    forall role ensures HasRow([u, a], IdOf(key, role)) <==> key == key0 {
      HasRowMore([u], [a], IdOf(key, role));
      OnlyRow(u, IdOf(key, role));
      OnlyRow(a, IdOf(key, role));
      if role.User? {
        assert IdOf(key, User) != IdOf(key0, Assistant);
      } else {
        assert IdOf(key, Assistant) != IdOf(key0, User);
      }
    }
  }

  // ---------------------------------------------------------------- deletions

  /** Where the rows that are left of those from row `start` on stood before. */
  ghost predicate ComesFrom(r: seq<Message>, messages: seq<Message>, session: string, from: seq<nat>, start: nat) {
    |from| == |r| &&
    (forall i :: 0 <= i < |r| ==>
      start <= from[i] < |messages| && r[i] == messages[from[i]] && r[i].session != session) &&
    (forall i, j :: 0 <= i < j < |r| ==> from[i] < from[j]) &&
    forall k :: start <= k < |messages| && messages[k].session != session ==> messages[k] in r
  }

  lemma ComesLater(r: seq<Message>, messages: seq<Message>, session: string, from: seq<nat>) returns (later: seq<nat>)
    requires messages != [] && ComesFrom(r, messages[1..], session, from, 0)
    ensures ComesFrom(r, messages, session, later, 1)
  {
    later := seq(|from|, i requires 0 <= i < |from| => from[i] + 1);
    forall k | 1 <= k < |messages| && messages[k].session != session ensures messages[k] in r {
      assert messages[k] == messages[1..][k - 1];
    }
    forall i | 0 <= i < |r| ensures later[i] < |messages| && r[i] == messages[later[i]] {
      assert messages[1..][from[i]] == messages[from[i] + 1];
    }
  }

  lemma ComesFirst(r: seq<Message>, messages: seq<Message>, session: string, later: seq<nat>)
    requires messages != [] && messages[0].session != session && ComesFrom(r, messages, session, later, 1)
    ensures ComesFrom([messages[0]] + r, messages, session, [0] + later, 0)
  {
    var s, f := [messages[0]] + r, [0] + later;
    assert forall i :: 0 < i < |s| ==> s[i] == r[i - 1] && f[i] == later[i - 1];
    forall k | 0 <= k < |messages| && messages[k].session != session ensures messages[k] in s {
      if k == 0 { assert s[0] == messages[0]; } else { assert messages[k] in r; }
    }
  }

  lemma ComesAll(r: seq<Message>, messages: seq<Message>, session: string, later: seq<nat>)
    requires messages != [] && messages[0].session == session && ComesFrom(r, messages, session, later, 1)
    ensures ComesFrom(r, messages, session, later, 0)
  {
  }

  lemma {:induction false} WithoutRows(messages: seq<Message>, session: string) returns (from: seq<nat>)
    ensures ComesFrom(Without(messages, session), messages, session, from, 0)
  {
    hide ComesFrom;
    if messages == [] {
      from := [];
      NothingComes(session);
    } else {
      var rest := WithoutRows(messages[1..], session);
      var tail := Without(messages[1..], session);
      var later := ComesLater(tail, messages, session, rest);
      if messages[0].session == session {
        from := later;
        ComesAll(tail, messages, session, later);
        assert [] + tail == tail;
      } else {
        from := [0] + later;
        ComesFirst(tail, messages, session, later);
      }
    }
  }

  lemma NothingComes(session: string)
    ensures ComesFrom([], [], session, [], 0)
  {
  }

  lemma DeletionSound(messages: seq<Message>, session: string)
    requires Sound(messages)
    ensures Sound(Without(messages, session))
  {
    hide IdOf, IsMaterialized;
    var r := Without(messages, session);
    var from := WithoutRows(messages, session);
    forall key ensures HasRow(r, IdOf(key, User)) <==> HasRow(r, IdOf(key, Assistant)) {
      if HasRow(r, IdOf(key, User)) { PartnerStays(messages, r, from, session, key, User); }
      if HasRow(r, IdOf(key, Assistant)) { PartnerStays(messages, r, from, session, key, Assistant); }
    }
    forall i, j, key | 0 <= i < |r| && 0 <= j < |r| && r[i].platformId == Some(IdOf(key, User)) &&
      r[j].platformId == Some(IdOf(key, Assistant))
      ensures r[i].session == r[j].session {
      assert messages[from[i]].session == messages[from[j]].session;
    }
  }

  function Other(role: Role): Role {
    if role.User? then Assistant else User
  }

  lemma PartnerStays(messages: seq<Message>, r: seq<Message>, from: seq<nat>, session: string, key: string, role: Role)
    requires Paired(messages) && |from| == |r| && HasRow(r, IdOf(key, role))
    requires forall i :: 0 <= i < |r| ==> from[i] < |messages| && r[i] == messages[from[i]] && r[i].session != session
    requires forall k :: 0 <= k < |messages| && messages[k].session != session ==> messages[k] in r
    ensures HasRow(r, IdOf(key, Other(role)))
  {
    hide IdOf;
    var i :| 0 <= i < |r| && r[i].platformId == Some(IdOf(key, role));
    assert messages[from[i]].platformId == Some(IdOf(key, role));
    assert HasRow(messages, IdOf(key, role));
    var k :| 0 <= k < |messages| && messages[k].platformId == Some(IdOf(key, Other(role)));
    if role.User? {
      assert role == User && Other(role) == Assistant;
      assert messages[from[i]].platformId == Some(IdOf(key, User)) &&
             messages[k].platformId == Some(IdOf(key, Assistant));
    } else {
      assert role == Assistant && Other(role) == User;
      assert messages[k].platformId == Some(IdOf(key, User)) &&
             messages[from[i]].platformId == Some(IdOf(key, Assistant));
    }
    assert messages[k].session == messages[from[i]].session;
    var m :| 0 <= m < |r| && r[m] == messages[k];
    assert r[m].platformId == Some(IdOf(key, Other(role)));
  }

  // ---------------------------------------------------------------- steps and runs

  lemma StoredRows(db: Db, t: Turn, profile: string, desired: string, now: real)
    ensures Stored(db, t, profile, desired, now).messages ==
              if GatewayOwns(db.messages, t.session) then db.messages else WithRows(db.messages, t, now)
  {
    hide ResolveTitle, GatewayOwns, WithRows;
  }

  lemma WithRowsSound(messages: seq<Message>, t: Turn, now: real)
    requires Sound(messages)
    ensures Sound(WithRows(messages, t, now))
  {
    hide IdOf, Key, HasRow, OnceEach, Paired;
    RowsTogether(messages, t, now);
    var u, a := IdOf(Key(t), User), IdOf(Key(t), Assistant);
    assert HasRow(messages, u) <==> HasRow(messages, a) by { PairOf(messages, Key(t)); }
    if HasRow(messages, u) {
      FoundRow(messages, u);
      FoundRow(messages, a);
      assert SameIds(messages, WithRows(messages, t, now));
      SameIdsSound(messages, WithRows(messages, t, now));
    } else {
      NewRowsSound(messages, t, now);
    }
  }

  lemma PairOf(messages: seq<Message>, key: string)
    requires Paired(messages)
    ensures HasRow(messages, IdOf(key, User)) <==> HasRow(messages, IdOf(key, Assistant))
  {
  }

  lemma StepSound(db: Db, e: Event)
    requires Sound(db.messages)
    ensures Sound(Step(db, e).messages)
  {
    hide Sound, Stored, Without, IsTurn, IsMaterialized;
    match e
    case Materialize(t, profile, desired, now) =>
      StoredRows(db, t, profile, desired, now);
      WithRowsSound(db.messages, t, now);
    case GatewayInsert(row) => if !IsMaterialized(row.platformId) { GatewayRowSound(db.messages, row); }
    case SetActive(i, on) =>
      if i < |db.messages| { SameIdsSound(db.messages, db.messages[i := db.messages[i].(active := on)]); }
    case DeleteSession(s) => DeletionSound(db.messages, s);
  }

  /** Over every interleaving each turn is stored at most once, question and answer together. */
  lemma {:induction false} RunSound(db: Db, events: seq<Event>)
    requires Sound(db.messages)
    ensures Sound(Run(db, events).messages)
    decreases |events|
  {
    hide Sound, Step;
    if events != [] {
      StepSound(db, events[0]);
      RunSound(Step(db, events[0]), events[1..]);
    }
  }

  lemma EmptyIsSound()
    ensures Sound([])
  {
    hide IdOf;
  }

  /** So it is from a database without messages on, whatever sessions it has. */
  lemma FreshRunSound(sessions: map<string, Session>, events: seq<Event>)
    ensures Sound(Run(Db(sessions, []), events).messages)
  {
    hide Sound, Run;
    EmptyIsSound();
    RunSound(Db(sessions, []), events);
  }

  // ---------------------------------------------------------------- one turn

  lemma {:induction false} CountConcat(a: seq<Message>, c: seq<Message>, session: string)
    ensures ActiveCount(a + c, session) == ActiveCount(a, session) + ActiveCount(c, session)
  {
    if a == [] {
      assert a + c == c;
    } else {
      assert (a + c)[1..] == a[1..] + c;
      CountConcat(a[1..], c, session);
    }
  }

  lemma {:induction false} CountSame(a: seq<Message>, c: seq<Message>, session: string)
    requires |a| == |c| && forall i :: 0 <= i < |a| ==> a[i].session == c[i].session && a[i].active == c[i].active
    ensures ActiveCount(a, session) == ActiveCount(c, session)
  {
    if a != [] { CountSame(a[1..], c[1..], session); }
  }

  lemma CountOfTurn(t: Turn, now: real, session: string)
    ensures ActiveCount([Row(t, User, now), Row(t, Assistant, now)], session) == if session == t.session then 2 else 0
  {
    hide IdOf, Key;
    var u, a := Row(t, User, now), Row(t, Assistant, now);
    assert [u, a][1..] == [a] && [a][1..] == [];
    assert ActiveCount([a], session) == if session == t.session then 1 else 0;
  }

  /**
   * Storing a turn: beside an active gateway row nothing is inserted; a turn that is there adds no row; a new
   * one adds exactly its question and its answer. The stored count is the number of active rows in each
   * case, and no row or session of another id changes.
   */
  lemma StoringATurn(db: Db, t: Turn, profile: string, desired: string, now: real)
    requires Sound(db.messages)
    ensures var r := Stored(db, t, profile, desired, now);
            t.session in r.sessions && r.sessions[t.session].count == ActiveCount(r.messages, t.session) &&
            (forall id :: id != t.session ==>
              (id in r.sessions <==> id in db.sessions) && (id in db.sessions ==> r.sessions[id] == db.sessions[id])) &&
            (forall id :: id != t.session ==> ActiveCount(r.messages, id) == ActiveCount(db.messages, id))
    ensures var r := Stored(db, t, profile, desired, now);
            if GatewayOwns(db.messages, t.session) then r.messages == db.messages
            else if HasRow(db.messages, IdOf(Key(t), User)) then SameIds(r.messages, db.messages)
            else r.messages == db.messages + [Row(t, User, now), Row(t, Assistant, now)]
  {
    hide IdOf, Key, HasRow, OnceEach, Paired, ResolveTitle, GatewayOwns, ActiveCount, Row;
    StoredRows(db, t, profile, desired, now);
    StoredSessions(db, t, profile, desired, now);
    RowsTogether(db.messages, t, now);
    PairOf(db.messages, Key(t));
    FoundRow(db.messages, IdOf(Key(t), User));
    FoundRow(db.messages, IdOf(Key(t), Assistant));
    var r := WithRows(db.messages, t, now);
    forall id | id != t.session ensures ActiveCount(r, id) == ActiveCount(db.messages, id) {
      if HasRow(db.messages, IdOf(Key(t), User)) {
        CountSame(r, db.messages, id);
      } else {
        CountConcat(db.messages, [Row(t, User, now), Row(t, Assistant, now)], id);
        CountOfTurn(t, now, id);
      }
    }
  }

  lemma StoredSessions(db: Db, t: Turn, profile: string, desired: string, now: real)
    ensures var r := Stored(db, t, profile, desired, now);
            t.session in r.sessions && r.sessions[t.session].count == ActiveCount(r.messages, t.session) &&
            forall id :: id != t.session ==>
              (id in r.sessions <==> id in db.sessions) && (id in db.sessions ==> r.sessions[id] == db.sessions[id])
  {
    hide ResolveTitle, GatewayOwns, ActiveCount, WithRows;
  }

  // ---------------------------------------------------------------- repeats

  ghost predicate Spares(events: seq<Event>, session: string) {
    forall e :: e in events ==> e.DeleteSession? ==> e.session != session
  }

  /** A row with a turn's id, in the turn's session, stays until that session is deleted. */
  ghost predicate HasRowIn(messages: seq<Message>, id: string, session: string) {
    exists i :: 0 <= i < |messages| && messages[i].platformId == Some(id) && messages[i].session == session
  }

  lemma RowsKeepIds(messages: seq<Message>, t: Turn, now: real)
    ensures var r := WithRows(messages, t, now);
            |messages| <= |r| && forall i :: 0 <= i < |messages| ==>
              r[i].platformId == messages[i].platformId && r[i].session == messages[i].session
  {
    hide IdOf, Key, Row;
  }

  lemma DeletionKeepsRow(messages: seq<Message>, deleted: string, id: string, session: string)
    requires HasRowIn(messages, id, session) && deleted != session
    ensures HasRowIn(Without(messages, deleted), id, session)
  {
    var i :| 0 <= i < |messages| && messages[i].platformId == Some(id) && messages[i].session == session;
    var r := Without(messages, deleted);
    var from := WithoutRows(messages, deleted);
    var k :| 0 <= k < |r| && r[k] == messages[i];
    assert r[k].platformId == Some(id) && r[k].session == session;
  }

  lemma SamePrefixKeepsRow(messages: seq<Message>, r: seq<Message>, id: string, session: string)
    requires HasRowIn(messages, id, session) && |messages| <= |r|
    requires forall i :: 0 <= i < |messages| ==>
               r[i].platformId == messages[i].platformId && r[i].session == messages[i].session
    ensures HasRowIn(r, id, session)
  {
    var i :| 0 <= i < |messages| && messages[i].platformId == Some(id) && messages[i].session == session;
    assert r[i].platformId == Some(id) && r[i].session == session;
  }

  lemma StepKeepsRow(db: Db, e: Event, id: string, session: string)
    requires HasRowIn(db.messages, id, session) && (e.DeleteSession? ==> e.session != session)
    ensures HasRowIn(Step(db, e).messages, id, session)
  {
    hide IdOf, Key, HasRowIn, Stored, IsTurn, IsMaterialized, GatewayOwns, WithRows, Without;
    if e.DeleteSession? {
      DeletionKeepsRow(db.messages, e.session, id, session);
    } else {
      if e.Materialize? {
        StoredRows(db, e.turn, e.profile, e.desired, e.now);
        RowsKeepIds(db.messages, e.turn, e.now);
      }
      SamePrefixKeepsRow(db.messages, Step(db, e).messages, id, session);
    }
  }

  lemma {:induction false} RunKeepsRow(db: Db, events: seq<Event>, id: string, session: string)
    requires HasRowIn(db.messages, id, session) && Spares(events, session)
    ensures HasRowIn(Run(db, events).messages, id, session)
    decreases |events|
  {
    hide HasRowIn, Step;
    if events != [] {
      assert events[0] in events;
      StepKeepsRow(db, events[0], id, session);
      RunKeepsRow(Step(db, events[0]), events[1..], id, session);
    }
  }

  /** However often a stored turn comes again, and whatever the gateway did in between, it adds no row. */
  lemma RepeatAddsNoRow(db: Db, events: seq<Event>, t: Turn, profile: string, desired: string, now: real)
    requires Sound(db.messages) && HasRowIn(db.messages, IdOf(Key(t), User), t.session) && Spares(events, t.session)
    ensures var after := Run(db, events);
            SameIds(Stored(after, t, profile, desired, now).messages, after.messages)
  {
    hide IdOf, Key, HasRowIn, Sound, Run, Stored;
    RunSound(db, events);
    RunKeepsRow(db, events, IdOf(Key(t), User), t.session);
    var after := Run(db, events);
    assert HasRow(after.messages, IdOf(Key(t), User)) by { RowInIsRow(after.messages, IdOf(Key(t), User), t.session); }
    StoringATurn(after, t, profile, desired, now);
  }

  lemma RowInIsRow(messages: seq<Message>, id: string, session: string)
    requires HasRowIn(messages, id, session)
    ensures HasRow(messages, id)
  {
  }

  // ---------------------------------------------------------------- what the rows say

  predicate SaysTurn(m: Message, t: Turn, role: Role) {
    IsClean(t) && m.platformId == Some(IdOf(Key(t), role)) ==>
      m.session == t.session && m.role == role && m.content == (if role.User? then t.user else t.assistant)
  }

  /** Every stored row of a clean turn holds that turn's words. */
  ghost predicate Faithful(messages: seq<Message>) {
    forall i, t, role :: 0 <= i < |messages| ==> SaysTurn(messages[i], t, role)
  }

  lemma CleanIds(t: Turn, u: Turn, r: Role, s: Role)
    requires IsClean(t) && IsClean(u) && IdOf(Key(t), r) == IdOf(Key(u), s)
    ensures t == u && r == s
  {
    hide IdOf, Key;
    IdsDiffer(Key(t), Key(u));
    IdsDiffer(Key(u), Key(t));
    CleanKeysTellTurnsApart(t, u);
  }

  lemma RowsFaithful(messages: seq<Message>, t: Turn, now: real)
    requires Faithful(messages) && IsClean(t)
    ensures Faithful(WithRows(messages, t, now))
  {
    hide IdOf, Key, IsClean;
    var r := WithRows(messages, t, now);
    forall i, u, role | 0 <= i < |r| ensures SaysTurn(r[i], u, role) {
      if IsClean(u) && r[i].platformId == Some(IdOf(Key(u), role)) {
        if i >= |messages| {
          var own := if r[i].role.User? then User else Assistant;
          assert r[i] == Row(t, own, now);
          CleanIds(u, t, role, own);
        } else {
          assert SaysTurn(messages[i], u, role);
          if r[i] != messages[i] {
            assert messages[i].platformId == Some(IdOf(Key(t), Assistant));
            CleanIds(u, t, role, Assistant);
          }
        }
      }
    }
  }

  predicate IsCleanEvent(e: Event) {
    e.Materialize? ==> IsClean(e.turn)
  }

  lemma StepFaithful(db: Db, e: Event)
    requires Faithful(db.messages) && IsCleanEvent(e)
    ensures Faithful(Step(db, e).messages)
  {
    hide IdOf, Key, IsClean, IsTurn, IsMaterialized, WithRows, Stored;
    var r := Step(db, e).messages;
    match e
    case Materialize(t, profile, desired, now) =>
      StoredRows(db, t, profile, desired, now);
      RowsFaithful(db.messages, t, now);
    case GatewayInsert(row) =>
      forall i, t, role | 0 <= i < |r| ensures SaysTurn(r[i], t, role) {
        IdsAreMaterialized(Key(t), role);
        if i < |db.messages| { assert SaysTurn(db.messages[i], t, role); }
      }
    case SetActive(k, on) =>
      forall i, t, role | 0 <= i < |r| ensures SaysTurn(r[i], t, role) {
        assert SaysTurn(db.messages[i], t, role);
      }
    case DeleteSession(s) =>
      var from := WithoutRows(db.messages, s);
      forall i, t, role | 0 <= i < |r| ensures SaysTurn(r[i], t, role) {
        assert SaysTurn(db.messages[from[i]], t, role);
      }
  }

  /** Over every run of clean turns, gateway writes and deletions, stored rows say what was said. */
  lemma {:induction false} RunFaithful(db: Db, events: seq<Event>)
    requires Faithful(db.messages) && forall e :: e in events ==> IsCleanEvent(e)
    ensures Faithful(Run(db, events).messages)
    decreases |events|
  {
    hide Faithful, Step, IsCleanEvent;
    if events != [] {
      assert events[0] in events;
      StepFaithful(db, events[0]);
      RunFaithful(Step(db, events[0]), events[1..]);
    }
  }

  /**
   * With a NUL in the question or the answer this fails: two turns share their ids, and the second overwrites the
   * first answer.
   */
  lemma NulsMixTurnsUp(profile: string, desired: string, now: real)
    ensures var first, second := Turn("s", "a\0b", "c"), Turn("s", "a", "b\0c");
            var db := Stored(Db(map[], []), first, profile, desired, now);
            var after := Stored(db, second, profile, desired, now);
            Key(first) == Key(second) && |after.messages| == 2 && after.messages[0].content == "a\0b" &&
            after.messages[1].content == "b\0c"
  {
    hide IdOf, ResolveTitle, ActiveCount, HasRow;
    var first, second := Turn("s", "a\0b", "c"), Turn("s", "a", "b\0c");
    assert Key(first) == Key(second);
    var k := Key(first);
    var empty: seq<Message> := [];
    StoredRows(Db(map[], empty), first, profile, desired, now);
    var rows := [Row(first, User, now), Row(first, Assistant, now)];
    assert WithRows(empty, first, now) == rows;
    var db := Stored(Db(map[], empty), first, profile, desired, now);
    IdsAreMaterialized(k, User);
    IdsAreMaterialized(k, Assistant);
    IdsDiffer(k, k);
    assert !GatewayOwns(rows, "s");
    StoredRows(db, second, profile, desired, now);
    assert FindRow(rows, IdOf(k, User)) == 0 && FindRow(rows, IdOf(k, Assistant)) == 1;
  }
}
