/** Where an edit can be lost, exactly: pushes whose answer was lost, and pulls the device does not write. */
module SyncLosses {
  import opened Text
  import opened Sync
  import opened SyncParts
  import opened SyncRuns

  // ---------------------------------------------------------------- every run in which only the device moves a part

  /** A pass writes the cloud's value of the part over the device's. */
  predicate Overwrites(pair: Pair, e: Event, p: Part)
    requires IsLinked(pair)
  {
    e.Pass? && PassAction(pair, e.times, p) == Pull && PullSticks(pair, p) &&
    !(Sends(pair, StateOf(pair), e.times) && e.outcome.Lost?)
  }

  predicate HasEdit(events: seq<Event>) {
    exists i :: 0 <= i < |events| && events[i].EditLocal?
  }

  /** No pass overwrites the device's value of the part behind its last edit. */
  predicate NothingOverwritten(pair: Pair, events: seq<Event>, userId: string, p: Part)
    requires IsLinked(pair)
    decreases |events|
  {
    events == [] ||
    ((Overwrites(pair, events[0], p) ==> HasEdit(events[1..])) &&
      NothingOverwritten(Do(pair, events[0], userId), events[1..], userId, p))
  }

  lemma HasEditTail(events: seq<Event>)
    requires events != []
    ensures HasEdit(events) <==> events[0].EditLocal? || HasEdit(events[1..])
  {
    var rest := events[1..];
    if HasEdit(events) && !events[0].EditLocal? {
      var i :| 0 <= i < |events| && events[i].EditLocal?;
      assert rest[i - 1].EditLocal?;
    }
    if HasEdit(rest) {
      var i :| 0 <= i < |rest| && rest[i].EditLocal?;
      assert events[i + 1].EditLocal?;
    }
  }

  lemma {:induction false} LastIsOfEdit(was: PartValue, now: PartValue, events: seq<Event>, p: Part)
    ensures LastLocal(was, events, p) == if HasEdit(events) then LastLocal(now, events, p) else was
    decreases |events|
  {
    hide HasEdit;
    if events == [] {
      assert !HasEdit(events) by { NoEditInNone(events); }
    } else {
      HasEditTail(events);
      var e := events[0];
      LastIsOfEdit(if e.EditLocal? then PartOf(LocalParts(e.values), p) else was,
        if e.EditLocal? then PartOf(LocalParts(e.values), p) else now, events[1..], p);
    }
  }

  lemma NoEditInNone(events: seq<Event>)
    requires events == []
    ensures !HasEdit(events)
  {
  }

  /** What a step that is no edit of the part makes of the device's value. */
  lemma StepLocal(pair: Pair, e: Event, userId: string, p: Part)
    requires IsLinked(pair) && OnlyLocalMoves(pair, [e], userId, p)
    ensures var after := Do(pair, e, userId);
            At(after, p).local == (if e.EditLocal? then PartOf(LocalParts(e.values), p)
                else if Overwrites(pair, e, p) then At(pair, p).remote else At(pair, p).local) &&
            (Overwrites(pair, e, p) ==> InSync(At(after, p)) && At(pair, p).remote != At(pair, p).local) &&
            (!e.EditLocal? && InSync(At(pair, p)) ==> At(after, p) == At(pair, p))
  {
    hide Reconcile, Sends, IsPartSkipped, Sticks;
    if e.Pass? {
      PassMoves(pair, e.times, e.outcome, userId, p);
    }
  }

  /** A part in sync stays so while nobody edits it. */
  lemma {:induction false} SyncedStays(pair: Pair, events: seq<Event>, userId: string, p: Part)
    requires IsLinked(pair) && InSync(At(pair, p)) && OnlyLocalMoves(pair, events, userId, p) && !HasEdit(events)
    ensures At(DoAll(pair, events, userId), p) == At(pair, p)
    decreases |events|
  {
    hide Do, At, HasEdit;
    if events != [] {
      HasEditTail(events);
      OneEventLocal(pair, events, userId, p);
      StepLocal(pair, events[0], userId, p);
      SyncedStays(Do(pair, events[0], userId), events[1..], userId, p);
    }
  }

  /** The device holds its last edit exactly when no pass behind that edit wrote over it. */
  lemma {:induction false} HoldsLastEditIff(pair: Pair, events: seq<Event>, userId: string, p: Part)
    requires IsLinked(pair) && OnlyLocalMoves(pair, events, userId, p)
    ensures var after := DoAll(pair, events, userId);
            var last := LastLocal(At(pair, p).local, events, p);
            (At(after, p).local == last <==> NothingOverwritten(pair, events, userId, p)) &&
            (At(after, p).local != last ==> InSync(At(after, p)))
    decreases |events|
  {
    hide Do, At, HasEdit, Overwrites, InSync;
    if events != [] {
      var e, rest, next := events[0], events[1..], Do(pair, events[0], userId);
      OneEventLocal(pair, events, userId, p);
      StepLocal(pair, e, userId, p);
      HoldsLastEditIff(next, rest, userId, p);
      if Overwrites(pair, e, p) {
        assert !e.EditLocal? by { OverwriteIsNoEdit(pair, e, p); }
        LastIsOfEdit(At(pair, p).local, At(next, p).local, rest, p);
        if !HasEdit(rest) { SyncedStays(next, rest, userId, p); }
      }
    }
  }

  lemma OverwriteIsNoEdit(pair: Pair, e: Event, p: Part)
    requires IsLinked(pair)
    ensures e.EditLocal? ==> !Overwrites(pair, e, p)
  {
  }

  /**
   * No lost edit, for every run in which only the device moves a part, lost answers included: after the next
   * answered, unskipped pass both sides hold the last edit if and only if no pass behind that edit pulls.
   */
  lemma LocalEditSurvivesIff(pair: Pair, events: seq<Event>, t: Times, userId: string, p: Part)
    requires IsLinked(pair) && OnlyLocalMoves(pair, events, userId, p) && !Skips(DoAll(pair, events, userId), p)
    ensures var end := DoAll(pair, events, userId);
            var after := Do(end, Pass(t, Done), userId);
            var last := LastLocal(At(pair, p).local, events, p);
            (At(after, p).local == last && At(after, p).remote == last) <==>
            NothingOverwritten(pair, events, userId, p) && PassAction(end, t, p) != Pull
  {
    hide DoAll, Do, Sends, IsPartSkipped, Sticks, OnlyLocalMoves, LastLocal, NothingOverwritten;
    HoldsLastEditIff(pair, events, userId, p);
    PassMoves(DoAll(pair, events, userId), t, Done, userId, p);
  }

  // ---------------------------------------------------------------- one lost answer

  predicate OnlyEdits(events: seq<Event>) {
    forall i :: 0 <= i < |events| ==> events[i].EditLocal?
  }

  lemma {:induction false} EditsMoveLocalOnly(pair: Pair, edits: seq<Event>, userId: string, p: Part)
    requires IsLinked(pair) && OnlyEdits(edits)
    ensures At(DoAll(pair, edits, userId), p) == At(pair, p).(local := LastLocal(At(pair, p).local, edits, p))
    decreases |edits|
  {
    hide LocalParts, RemoteParts, PartOf;
    if edits != [] {
      assert edits[0].EditLocal?;
      EditsMoveLocalOnly(Do(pair, edits[0], userId), edits[1..], userId, p);
    }
  }

  /** A push that took effect while its answer was lost: both sides hold the new value, the base the old one. */
  lemma LostPushKeepsBase(pair: Pair, t: Times, userId: string, p: Part)
    requires IsLinked(pair) && PassAction(pair, t, p) == Push && !Skips(pair, p)
    ensures At(Do(pair, Pass(t, Lost(true)), userId), p) == At(pair, p).(remote := At(pair, p).local)
  {
    hide Do, Sends, IsPartSkipped, Sticks;
    PushMeansSends(pair, t, p);
    PassMoves(pair, t, Lost(true), userId, p);
  }

  /**
   * A push took effect while its answer was lost, and edits followed. The next answered, unskipped pass puts the
   * last of them on both sides if and only if it repeats the pushed value, or is not back at the base and looks
   * newer than the cloud: setting a part back to what it was before the push is always undone.
   */
  lemma LostAnswerKeepsEditIff(pair: Pair, t: Times, edits: seq<Event>, u: Times, userId: string, p: Part)
    requires IsLinked(pair) && PassAction(pair, t, p) == Push && !Skips(pair, p) && OnlyEdits(edits)
    requires !Skips(DoAll(Do(pair, Pass(t, Lost(true)), userId), edits, userId), p)
    ensures var pushed := Do(pair, Pass(t, Lost(true)), userId);
            var after := Do(DoAll(pushed, edits, userId), Pass(u, Done), userId);
            var v1 := At(pair, p).local;
            var v2 := LastLocal(v1, edits, p);
            (At(after, p).local == v2 && At(after, p).remote == v2) <==>
            v2 == v1 || (At(pair, p).base != Some(v2) && MsOf(u, p) > u.remote)
  {
    hide Do, DoAll, Sends, IsPartSkipped, Sticks;
    LostPushKeepsBase(pair, t, userId, p);
    var pushed := Do(pair, Pass(t, Lost(true)), userId);
    EditsMoveLocalOnly(pushed, edits, userId, p);
    PassMoves(DoAll(pushed, edits, userId), u, Done, userId, p);
  }

  const OLD_SOUL := Values("", "a", "", "", "auto")
  const NEW_SOUL := Values("", "b", "", "", "auto")

  /** The failing side at one run: b is pushed over a, the answer is lost, and a is set again with the newest clock. */
  lemma SettingBackIsUndone(userId: string)
    ensures var base := map[Color := PText(""), Soul := PText("a"), Memory := PText(""), Config := PConfig("", "auto")];
            var pair := Pair(Local("n", NEW_SOUL, Some(SyncState("x", Some(userId), "n", base))),
              Agent("x", "n", "", Some("a"), None, "", "auto"));
            var t, u := Times(map[], 0), Times(map[Soul := 9], 1);
            var pushed := Do(pair, Pass(t, Lost(true)), userId);
            var after := Do(Do(pushed, EditLocal(OLD_SOUL), userId), Pass(u, Done), userId);
            At(after, Soul).local == PText("b") && At(after, Soul).remote == PText("b") && MsOf(u, Soul) > u.remote
  {
    hide Sends, Reconcile, BuildBody, Choose;
    var base := map[Color := PText(""), Soul := PText("a"), Memory := PText(""), Config := PConfig("", "auto")];
    var pair := Pair(Local("n", NEW_SOUL, Some(SyncState("x", Some(userId), "n", base))),
      Agent("x", "n", "", Some("a"), None, "", "auto"));
    var t, u := Times(map[], 0), Times(map[Soul := 9], 1);
    assert "a"[0] != "b"[0];
    LostPushKeepsBase(pair, t, userId, Soul);
    var pushed := Do(pair, Pass(t, Lost(true)), userId);
    var edited := Do(pushed, EditLocal(OLD_SOUL), userId);
    assert At(edited, Soul) == Triple(PText("a"), PText("b"), Some(PText("a")));
    PassMoves(edited, u, Done, userId, Soul);
  }

  // ---------------------------------------------------------------- a pull that is not written

  lemma SkipIsOfValue(v: Values, w: Values, p: Part)
    requires PartOf(v, p) == PartOf(w, p)
    ensures IsPartSkipped(p, v) == IsPartSkipped(p, w)
  {
  }

  /**
   * A pull the device refuses to write still advances the base. The next answered pass takes the device for the
   * side that moved and, unless the part is skipped, puts its old value over the cloud's edit.
   */
  lemma RefusedPullIsReverted(pair: Pair, t: Times, u: Times, userId: string, p: Part)
    requires IsLinked(pair) && PassAction(pair, t, p) == Pull && !PullSticks(pair, p)
    ensures var x := At(pair, p);
            var pulled := Do(pair, Pass(t, Done), userId);
            var after := Do(pulled, Pass(u, Done), userId);
            At(pulled, p) == x.(base := Some(x.remote)) &&
            At(after, p) == if Skips(pair, p) then At(pulled, p) else Triple(x.local, x.local, Some(x.local))
  {
    hide Do, Sends, IsPartSkipped, Sticks;
    var pulled := Do(pair, Pass(t, Done), userId);
    PassMoves(pair, t, Done, userId, p);
    SkipIsOfValue(LocalParts(pair.local.values), LocalParts(pulled.local.values), p);
    PassMoves(pulled, u, Done, userId, p);
  }
}
