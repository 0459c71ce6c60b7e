/** The title a session gets: the wished one when it is free, and otherwise one that begins with it. */
module TranscriptTitles {
  import opened Text
  import opened Transcript

  const SEPARATOR := " \U{00B7} "

  // ---------------------------------------------------------------- the parts of a title

  /** The title a session keeps; empty when it has none. */
  function KeptTitle(sessions: map<string, Session>, session: string): string {
    if session in sessions then Trim(EcmaScript, sessions[session].title) else ""
  }

  /** The suffix is the end of the session id, at most eight characters, and nothing of a leading `desk-`. */
  lemma SuffixIsEnd(session: string)
    ensures EndsWith(session, Suffix(session))
    ensures var own := |session| - if StartsWith(session, "desk-") then 5 else 0;
            |Suffix(session)| == if own > 8 then 8 else own
  {
    var own := if StartsWith(session, "desk-") then session[5..] else session;
    assert Suffix(session) == own[|own| - |Suffix(session)|..];
  }

  /** The value of a text of one or two digits. */
  function ValueOf(s: string): int {
    if |s| == 1 then s[0] as int - '0' as int
    else if |s| == 2 then 10 * (s[0] as int - '0' as int) + (s[1] as int - '0' as int)
    else -1
  }

  predicate AreDigits(s: string) {
    forall i :: 0 <= i < |s| ==> '0' <= s[i] <= '9'
  }

  lemma NumeralReadsBack(n: nat)
    requires n < 20
    ensures AreDigits(Numeral(n)) && ValueOf(Numeral(n)) == n && (n >= 10 <==> |Numeral(n)| == 2)
  {
  }

  /** What stands behind the separator at the `k`-th attempt: the suffix, or the suffix with a number from 2 on. */
  function Tail(session: string, k: nat): string
    requires k < 18
  {
    if k == 0 then Suffix(session) else Suffix(session) + "-" + Numeral(k + 1)
  }

  /** All attempts differ. */
  lemma TailsDiffer(session: string, j: nat, k: nat)
    requires j < k < 18
    ensures Tail(session, j) != Tail(session, k)
  {
    hide Suffix, Numeral;
    NumeralReadsBack(k + 1);
    var s, t := Suffix(session), Suffix(session) + "-" + Numeral(k + 1);
    assert t[|s| + 1..] == Numeral(k + 1);
    if j == 0 {
      assert |t| > |s|;
    } else {
      NumeralReadsBack(j + 1);
      assert (s + "-" + Numeral(j + 1))[|s| + 1..] == Numeral(j + 1);
    }
  }

  // ---------------------------------------------------------------- the search

  /** The attempt at which the search stops: the first free one, or all of them. */
  ghost predicate StopsAt(sessions: map<string, Session>, session: string, base: string, from: nat, k: nat) {
    from <= k <= 18 && (forall j :: from <= j < k ==>
      IsTaken(sessions, base + SEPARATOR + Tail(session, j), session)) &&
    (k < 18 ==> !IsTaken(sessions, base + SEPARATOR + Tail(session, k), session))
  }

  /** The title of the attempt, and the whole session id when none is left. */
  function TitleAt(session: string, base: string, k: nat): string
    requires k <= 18
  {
    base + SEPARATOR + if k < 18 then Tail(session, k) else session
  }

  lemma {:induction false} SearchStops(sessions: map<string, Session>, session: string, base: string, n: nat)
    returns (k: nat)
    requires 2 <= n < 20
    ensures StopsAt(sessions, session, base, n - 2, k)
    ensures NextTitle(sessions, session, base, base + SEPARATOR + Tail(session, n - 2), n) == TitleAt(session, base, k)
    decreases 20 - n
  {
    hide IsTaken, Suffix, Numeral;
    var candidate := base + SEPARATOR + Tail(session, n - 2);
    if !IsTaken(sessions, candidate, session) {
      k := n - 2;
    } else {
      var next := base + " \U{00B7} " + Suffix(session) + "-" + Numeral(n);
      if n == 19 {
        k := 18;
        assert NextTitle(sessions, session, base, next, 20) == TitleAt(session, base, 18);
      } else {
        assert next == base + SEPARATOR + Tail(session, n - 1);
        k := SearchStops(sessions, session, base, n + 1);
      }
    }
  }

  /** The wish behind a title: blank wishes get the fixed one. */
  function Wish(desired: string): string {
    if Trim(EcmaScript, desired) != "" then Trim(EcmaScript, desired) else "Expert conversation"
  }

  /**
   * The title of a session. One that is there is kept. Otherwise it is the trimmed wish, if and only if no other
   * session has that; and else the wish, the separator, and the first attempt no other session has, or the session id
   * when all eighteen are taken.
   */
  lemma TitleIs(sessions: map<string, Session>, session: string, desired: string)
    ensures var r, wish := ResolveTitle(sessions, session, desired), Wish(desired);
            if KeptTitle(sessions, session) != "" then r == KeptTitle(sessions, session)
            else
              (r == wish <==> !IsTaken(sessions, wish, session)) && StartsWith(r, wish) &&
              (r != wish ==> exists k :: StopsAt(sessions, session, wish, 0, k) && r == TitleAt(session, wish, k))
  {
    hide IsTaken, NextTitle, Trim, Suffix, Tail;
    var wish := Wish(desired);
    if KeptTitle(sessions, session) == "" && IsTaken(sessions, wish, session) {
      assert wish + SEPARATOR + Tail(session, 0) == wish + " \U{00B7} " + Suffix(session) by { FirstTail(session); }
      var k := SearchStops(sessions, session, wish, 2);
      assert TitleAt(session, wish, k)[..|wish|] == wish;
      assert |TitleAt(session, wish, k)| > |wish|;
    }
  }

  lemma FirstTail(session: string)
    ensures Tail(session, 0) == Suffix(session)
  {
  }

  /** A new title is another session's only when the wish and all eighteen attempts are taken. */
  lemma TitleIsFree(sessions: map<string, Session>, session: string, desired: string)
    requires KeptTitle(sessions, session) == ""
    ensures var r, wish := ResolveTitle(sessions, session, desired), Wish(desired);
            IsTaken(sessions, r, session) ==>
              r == wish + SEPARATOR + session && IsTaken(sessions, wish, session) &&
              forall k :: 0 <= k < 18 ==> IsTaken(sessions, wish + SEPARATOR + Tail(session, k), session)
  {
    hide IsTaken, Trim, Suffix, Tail, ResolveTitle;
    TitleIs(sessions, session, desired);
  }

  // ---------------------------------------------------------------- the session row

  /**
   * The row of the session after a turn is stored: a title that is there stands as it is, spaces included, and
   * otherwise the resolved one is written; start, profile and count are those of a new row or of the old one.
   */
  lemma RowOfSession(db: Db, t: Turn, profile: string, desired: string, now: real)
    ensures var r := Stored(db, t, profile, desired, now);
            var known := t.session in db.sessions;
            t.session in r.sessions &&
            var row := r.sessions[t.session];
            row.title == (if known && db.sessions[t.session].title != "" then db.sessions[t.session].title
                          else ResolveTitle(db.sessions, t.session, desired)) &&
            row.startedAt == (if known then db.sessions[t.session].startedAt else now) &&
            row.profile == (if known && db.sessions[t.session].profile.Some? then db.sessions[t.session].profile
                            else Some(profile)) &&
            row.lastActivity == now && row.count == ActiveCount(r.messages, t.session)
  {
    hide ResolveTitle, GatewayOwns, ActiveCount, WithRows;
  }

  /** The title that is reported is the stored one, unless the stored one has padding. */
  lemma ReportedTitleIsStoredIff(db: Db, t: Turn, profile: string, desired: string, now: real)
    ensures Stored(db, t, profile, desired, now).sessions[t.session].title ==
              ResolveTitle(db.sessions, t.session, desired) <==>
            t.session !in db.sessions || Tight(EcmaScript, db.sessions[t.session].title)
  {
    hide GatewayOwns, ActiveCount, WithRows, Trim, IsTaken, NextTitle, Tight, Stored;
    RowOfSession(db, t, profile, desired, now);
    if t.session in db.sessions && db.sessions[t.session].title != "" {
      var title := db.sessions[t.session].title;
      TrimIsIdentityOnTight(EcmaScript, title);
      if Trim(EcmaScript, title) == "" { BlankIsNoTitle(db.sessions, t.session, title, desired); }
    } else {
      assert Tight(EcmaScript, "") by { NothingIsTight(); }
    }
  }

  lemma NothingIsTight()
    ensures Tight(EcmaScript, "")
  {
  }

  /** A resolved title never is a blank one. */
  lemma BlankIsNoTitle(sessions: map<string, Session>, session: string, title: string, desired: string)
    requires KeptTitle(sessions, session) == "" && Trim(EcmaScript, title) == ""
    ensures ResolveTitle(sessions, session, desired) != title
  {
    hide ResolveTitle, Trim, IsTaken, Tail, StopsAt;
    TitleIs(sessions, session, desired);
    WishIsTight(desired);
    var wish, r := Wish(desired), ResolveTitle(sessions, session, desired);
    if title != "" { AllBlank(title); }
    assert r[0] == wish[0] && r != "";
  }

  lemma WishIsTight(desired: string)
    ensures Wish(desired) != "" && !IsSpace(EcmaScript, Wish(desired)[0])
  {
    hide Trim, IsSpace;
    TrimIsTight(EcmaScript, desired);
    assert !IsSpace(EcmaScript, 'E') by { LetterIsVisible(); }
  }

  lemma LetterIsVisible()
    ensures !IsSpace(EcmaScript, 'E')
  {
  }

  lemma {:induction false} FirstStays(s: string)
    requires s != "" && !IsSpace(EcmaScript, s[0])
    ensures TrimEnd(EcmaScript, s) != ""
  {
    hide IsSpace;
    if |s| > 1 && IsSpace(EcmaScript, s[|s| - 1]) { FirstStays(s[..|s| - 1]); }
  }

  lemma AllBlank(s: string)
    requires Trim(EcmaScript, s) == "" && s != ""
    ensures IsSpace(EcmaScript, s[0])
  {
    hide IsSpace;
    if !IsSpace(EcmaScript, s[0]) { FirstStays(s); }
  }

  // ---------------------------------------------------------------- no two sessions with one title

  ghost predicate UniqueTitles(sessions: map<string, Session>) {
    forall a, b :: a in sessions && b in sessions && a != b && sessions[a].title != "" ==>
      sessions[a].title != sessions[b].title
  }

  /** What the session table asks for: storing a turn keeps titles unique exactly when the new one is free. */
  lemma TitlesStayUniqueIff(db: Db, t: Turn, profile: string, desired: string, now: real)
    requires UniqueTitles(db.sessions)
    ensures UniqueTitles(Stored(db, t, profile, desired, now).sessions) <==>
            (t.session in db.sessions && db.sessions[t.session].title != "") ||
            !IsTaken(db.sessions, ResolveTitle(db.sessions, t.session, desired), t.session)
  {
    hide GatewayOwns, ActiveCount, WithRows, ResolveTitle, Stored, Wish;
    var r := Stored(db, t, profile, desired, now);
    RowOfSession(db, t, profile, desired, now);
    OtherRows(db, t, profile, desired, now);
    var title := ResolveTitle(db.sessions, t.session, desired);
    if !(t.session in db.sessions && db.sessions[t.session].title != "") {
      assert KeptTitle(db.sessions, t.session) == "" by { TrimOfNothing(); }
      TitleIs(db.sessions, t.session, desired);
      WishIsTight(desired);
      assert title != "";
      if IsTaken(db.sessions, title, t.session) {
        var id :| id in db.sessions && id != t.session && db.sessions[id].title == title;
        assert r.sessions[id].title == r.sessions[t.session].title;
      }
    }
  }

  lemma TrimOfNothing()
    ensures Trim(EcmaScript, "") == ""
  {
  }

  lemma OtherRows(db: Db, t: Turn, profile: string, desired: string, now: real)
    ensures var r := Stored(db, t, profile, desired, now);
            r.sessions.Keys == db.sessions.Keys + {t.session} &&
            forall id :: id in db.sessions && id != t.session ==> r.sessions[id] == db.sessions[id]
  {
    hide ResolveTitle, GatewayOwns, ActiveCount, WithRows;
  }
}
