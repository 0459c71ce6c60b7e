/** Runs of passes and edits on one linked pair: no lost edits, pending pushes, convergence. */
module SyncRuns {
  import opened Text
  import opened Sync
  import opened SyncParts

  datatype Event =
    | EditLocal(values: Values)
    | EditRemote(agent: Agent)
    | Pass(times: Times, outcome: Outcome)

  predicate IsLinked(pair: Pair) { pair.local.state.Some? }

  function StateOf(pair: Pair): SyncState
    requires IsLinked(pair)
  {
    pair.local.state.value
  }

  /** Local, remote and base value of one part. */
  function At(pair: Pair, p: Part): Triple
    requires IsLinked(pair)
  {
    View(pair, StateOf(pair).base, p)
  }

  function PassAction(pair: Pair, t: Times, p: Part): Action
    requires IsLinked(pair)
  {
    ActionOf(p, LocalParts(pair.local.values), RemoteParts(pair.agent), StateOf(pair).base, t)
  }

  predicate Skips(pair: Pair, p: Part) { IsPartSkipped(p, LocalParts(pair.local.values)) }

  predicate PullSticks(pair: Pair, p: Part) { Sticks(p, RemoteParts(pair.agent)) }

  function Do(pair: Pair, e: Event, userId: string): (r: Pair)
    requires IsLinked(pair)
    ensures IsLinked(r)
  {
    match e
    case EditLocal(values) => pair.(local := pair.local.(values := values))
    case EditRemote(agent) => pair.(agent := agent.(id := pair.agent.id))
    case Pass(times, outcome) => Reconcile(pair, StateOf(pair), userId, times, outcome)
  }

  function DoAll(pair: Pair, events: seq<Event>, userId: string): (r: Pair)
    requires IsLinked(pair)
    ensures IsLinked(r)
    decreases |events|
  {
    if events == [] then pair else DoAll(Do(pair, events[0], userId), events[1..], userId)
  }

  lemma PassMoves(pair: Pair, t: Times, outcome: Outcome, userId: string, p: Part)
    requires IsLinked(pair)
    ensures At(Do(pair, Pass(t, outcome), userId), p) ==
            Moved(At(pair, p), PassAction(pair, t, p), Skips(pair, p), PullSticks(pair, p),
              Sends(pair, StateOf(pair), t), outcome)
  {
    hide Moved, View, ActionOf, Sends, IsPartSkipped, Sticks, Reconcile;
    ReconcileMovesEachPart(pair, StateOf(pair), userId, t, outcome, p);
    BaseComesFromState(pair, t, outcome, userId);
  }

  lemma BaseComesFromState(pair: Pair, t: Times, outcome: Outcome, userId: string)
    requires IsLinked(pair)
    ensures var after := Reconcile(pair, StateOf(pair), userId, t, outcome);
            IsLinked(after) && BaseAfter(after, StateOf(pair)) == StateOf(after).base
  {
    hide BuildBody, Choose, NextBase, ApplyPulls, ApplyBody;
  }

  lemma PushMeansSends(pair: Pair, t: Times, p: Part)
    requires IsLinked(pair) && PassAction(pair, t, p) == Push && !Skips(pair, p)
    ensures Sends(pair, StateOf(pair), t)
  {
    hide BuildBody, ActionOf, IsPartSkipped, HasPart;
    var local, remote := LocalParts(pair.local.values), RemoteParts(pair.agent);
    var toPush := Choose(PARTS, Push, local, remote, StateOf(pair).base, t);
    EveryPart(p);
    AbsentIffSkipped(toPush, local, p);
    EmptyBodyHasNothing(BuildBody(EMPTY_BODY, toPush, local));
  }

  // ---------------------------------------------------------------- one pass

  predicate InSync(x: Triple) { x.local == x.remote && x.base == Some(x.local) }

  /**
   * An answered pass leaves a part in sync exactly when the part was not a skipped push and not a
   * pull that the device refuses to write.
   */
  lemma DonePassSyncsIff(pair: Pair, t: Times, userId: string, p: Part)
    requires IsLinked(pair)
    ensures InSync(At(Do(pair, Pass(t, Done), userId), p)) <==>
            match PassAction(pair, t, p)
            case Stay => true
            case Push => !Skips(pair, p)
            case Pull => PullSticks(pair, p)
  {
    hide Do, Sends, IsPartSkipped, Sticks;
    PassMoves(pair, t, Done, userId, p);
  }

  /** A refused or skipped push changes nothing of its part, so the part is pushed again next time. */
  lemma PendingStaysPending(pair: Pair, t: Times, outcome: Outcome, userId: string, p: Part, later: Times)
    requires IsLinked(pair) && PassAction(pair, t, p) == Push
    requires Skips(pair, p) || outcome == Refused || outcome == Lost(false)
    ensures At(Do(pair, Pass(t, outcome), userId), p) == At(pair, p)
    ensures At(pair, p).base == Some(At(pair, p).remote) ||
            (MsOf(later, p) == MsOf(t, p) && later.remote == t.remote) ==>
              PassAction(Do(pair, Pass(t, outcome), userId), later, p) == Push
  {
    hide Do, Sends, IsPartSkipped, Sticks;
    PassMoves(pair, t, outcome, userId, p);
  }

  /** With every part in sync a pass decides nothing, sends nothing and leaves both sides as they are. */
  lemma QuiescentInSync(pair: Pair, t: Times, outcome: Outcome, userId: string)
    requires IsLinked(pair) && forall p :: InSync(At(pair, p))
    ensures var after := Do(pair, Pass(t, outcome), userId);
            (forall p :: PassAction(pair, t, p) == Stay) && !Sends(pair, StateOf(pair), t) &&
            after.agent == pair.agent && after.local.values == pair.local.values && forall p :: InSync(At(after, p))
  {
    hide NextBase, IsPartSkipped, Sticks;
    forall p ensures PassAction(pair, t, p) == Stay { assert InSync(At(pair, p)); }
    var local, remote := LocalParts(pair.local.values), RemoteParts(pair.agent);
    forall p ensures ActionOf(p, local, remote, StateOf(pair).base, t) == Stay {
      assert PassAction(pair, t, p) == Stay;
    }
    NothingChosen(PARTS, Push, local, remote, StateOf(pair).base, t);
    NothingChosen(PARTS, Pull, local, remote, StateOf(pair).base, t);
    forall p ensures InSync(At(Do(pair, Pass(t, outcome), userId), p)) {
      assert InSync(At(pair, p));
      PassMoves(pair, t, outcome, userId, p);
    }
  }

  lemma NothingChosen(parts: seq<Part>, action: Action, local: Values, remote: Values, base: map<Part, PartValue>,
                      t: Times)
    requires forall p :: ActionOf(p, local, remote, base, t) != action
    ensures Choose(parts, action, local, remote, base, t) == []
  {
    hide ActionOf;
    var r := Choose(parts, action, local, remote, base, t);
    assert forall i :: 0 <= i < |r| ==> r[i] in r;
  }

  /** Nothing stands in the way of any part in this pass. */
  predicate Unobstructed(pair: Pair, t: Times)
    requires IsLinked(pair)
  {
    forall p :: (PassAction(pair, t, p) == Push ==> !Skips(pair, p)) &&
      (PassAction(pair, t, p) == Pull ==> PullSticks(pair, p))
  }

  /** Convergence: one answered, unobstructed pass makes both sides equal, and the next one is idle. */
  lemma OnePassConverges(pair: Pair, t: Times, later: Times, outcome: Outcome, userId: string)
    requires IsLinked(pair) && Unobstructed(pair, t)
    ensures var after := Do(pair, Pass(t, Done), userId);
            (forall p :: InSync(At(after, p))) &&
            LocalParts(after.local.values) == RemoteParts(after.agent) &&
            !Sends(after, StateOf(after), later) &&
            Do(after, Pass(later, outcome), userId).local.values == after.local.values &&
            Do(after, Pass(later, outcome), userId).agent == after.agent
  {
    hide Do, Sends, IsPartSkipped, Sticks, ActionOf;
    var after := Do(pair, Pass(t, Done), userId);
    forall p ensures InSync(At(after, p)) {
      DonePassSyncsIff(pair, t, userId, p);
      assert PassAction(pair, t, p) == Push ==> !Skips(pair, p);
    }
    assert InSync(At(after, Color)) && InSync(At(after, Soul)) && InSync(At(after, Memory)) &&
           InSync(At(after, Config));
    QuiescentInSync(after, later, outcome, userId);
  }

  // ---------------------------------------------------------------- edits on one side survive

  /** No edit moves the cloud's value of the part. */
  predicate OnlyLocalMoves(pair: Pair, events: seq<Event>, userId: string, p: Part)
    requires IsLinked(pair)
    decreases |events|
  {
    events == [] ||
    ((match events[0]
      case EditLocal(_) => true
      case EditRemote(agent) => PartOf(RemoteParts(agent), p) == At(pair, p).remote
      case Pass(_, _) => true) &&
     OnlyLocalMoves(Do(pair, events[0], userId), events[1..], userId, p))
  }

  /** No request takes effect while its answer is lost. */
  predicate NothingUnseen(events: seq<Event>) {
    forall i :: 0 <= i < |events| && events[i].Pass? ==> events[i].outcome != Lost(true)
  }

  /** No event moves the device's value of the part, and every pull of it would be written. */
  predicate OnlyRemoteMoves(pair: Pair, events: seq<Event>, userId: string, p: Part)
    requires IsLinked(pair)
    decreases |events|
  {
    events == [] ||
    ((match events[0]
      case EditLocal(values) => PartOf(LocalParts(values), p) == At(pair, p).local
      case EditRemote(_) => true
      case Pass(_, _) => PullSticks(pair, p)) &&
     OnlyRemoteMoves(Do(pair, events[0], userId), events[1..], userId, p))
  }

  /** The value of the last local edit, or what there was before. */
  function LastLocal(was: PartValue, events: seq<Event>, p: Part): PartValue
    decreases |events|
  {
    if events == [] then was
    else LastLocal(if events[0].EditLocal? then PartOf(LocalParts(events[0].values), p) else was, events[1..], p)
  }

  function LastRemote(was: PartValue, events: seq<Event>, p: Part): PartValue
    decreases |events|
  {
    if events == [] then was
    else LastRemote(if events[0].EditRemote? then PartOf(RemoteParts(events[0].agent), p) else was, events[1..], p)
  }

  lemma LocalStep(pair: Pair, e: Event, userId: string, p: Part)
    requires IsLinked(pair) && At(pair, p).base == Some(At(pair, p).remote) && OnlyLocalMoves(pair, [e], userId, p) &&
             NothingUnseen([e])
    ensures var after := Do(pair, e, userId);
            At(after, p).base == Some(At(after, p).remote) &&
            At(after, p).local == if e.EditLocal? then PartOf(LocalParts(e.values), p) else At(pair, p).local
  {
    hide Reconcile, Sends, IsPartSkipped, Sticks;
    if e.Pass? {
      assert [e][0].outcome != Lost(true);
      PassMoves(pair, e.times, e.outcome, userId, p);
    }
  }

  lemma {:induction false} LocalRun(pair: Pair, events: seq<Event>, userId: string, p: Part)
    requires IsLinked(pair) && At(pair, p).base == Some(At(pair, p).remote) &&
             OnlyLocalMoves(pair, events, userId, p) && NothingUnseen(events)
    ensures var after := DoAll(pair, events, userId);
            At(after, p).base == Some(At(after, p).remote) &&
            At(after, p).local == LastLocal(At(pair, p).local, events, p)
    decreases |events|
  {
    hide Do, At;
    if events != [] {
      assert OnlyLocalMoves(pair, [events[0]], userId, p) by {
        assert [events[0]][1..] == [];
        OneEventLocal(pair, events, userId, p);
      }
      LocalStep(pair, events[0], userId, p);
      LocalRun(Do(pair, events[0], userId), events[1..], userId, p);
    }
  }

  lemma OneEventLocal(pair: Pair, events: seq<Event>, userId: string, p: Part)
    requires IsLinked(pair) && events != [] && OnlyLocalMoves(pair, events, userId, p)
    ensures OnlyLocalMoves(pair, [events[0]], userId, p)
  {
    hide Do, At;
    assert [events[0]][1..] == [];
  }

  /**
   * From a part in sync, local edits survive: however many passes were refused or skipped on the
   * way, the next answered and unskipped pass puts the last local edit on both sides, whatever the
   * file times.
   */
  lemma LocalEditSurvives(pair: Pair, events: seq<Event>, t: Times, userId: string, p: Part)
    requires IsLinked(pair) && InSync(At(pair, p)) && OnlyLocalMoves(pair, events, userId, p) && NothingUnseen(events)
    requires !Skips(DoAll(pair, events, userId), p)
    ensures var after := Do(DoAll(pair, events, userId), Pass(t, Done), userId);
            InSync(At(after, p)) && At(after, p).local == LastLocal(At(pair, p).local, events, p)
  {
    hide DoAll, Do, Sends, IsPartSkipped, Sticks, OnlyLocalMoves, LastLocal;
    LocalRun(pair, events, userId, p);
    PassMoves(DoAll(pair, events, userId), t, Done, userId, p);
  }

  lemma RemoteStep(pair: Pair, e: Event, userId: string, p: Part)
    requires IsLinked(pair) && At(pair, p).base == Some(At(pair, p).local) && OnlyRemoteMoves(pair, [e], userId, p)
    ensures var after := Do(pair, e, userId);
            At(after, p).base == Some(At(after, p).local) &&
            At(after, p).remote == if e.EditRemote? then PartOf(RemoteParts(e.agent), p) else At(pair, p).remote
  {
    hide Reconcile, Sends, IsPartSkipped, Sticks;
    if e.Pass? {
      PassMoves(pair, e.times, e.outcome, userId, p);
    }
  }

  lemma {:induction false} RemoteRun(pair: Pair, events: seq<Event>, userId: string, p: Part)
    requires IsLinked(pair) && At(pair, p).base == Some(At(pair, p).local) && OnlyRemoteMoves(pair, events, userId, p)
    ensures var after := DoAll(pair, events, userId);
            At(after, p).base == Some(At(after, p).local) &&
            At(after, p).remote == LastRemote(At(pair, p).remote, events, p)
    decreases |events|
  {
    hide Do, At;
    if events != [] {
      OneEventRemote(pair, events, userId, p);
      RemoteStep(pair, events[0], userId, p);
      RemoteRun(Do(pair, events[0], userId), events[1..], userId, p);
    }
  }

  lemma OneEventRemote(pair: Pair, events: seq<Event>, userId: string, p: Part)
    requires IsLinked(pair) && events != [] && OnlyRemoteMoves(pair, events, userId, p)
    ensures OnlyRemoteMoves(pair, [events[0]], userId, p)
  {
    hide Do, At;
    assert [events[0]][1..] == [];
  }

  /** The same for edits in the cloud: the last one reaches the device, even over lost answers. */
  lemma RemoteEditSurvives(pair: Pair, events: seq<Event>, t: Times, userId: string, p: Part)
    requires IsLinked(pair) && InSync(At(pair, p)) && OnlyRemoteMoves(pair, events, userId, p)
    requires PullSticks(DoAll(pair, events, userId), p)
    ensures var after := Do(DoAll(pair, events, userId), Pass(t, Done), userId);
            InSync(At(after, p)) && At(after, p).remote == LastRemote(At(pair, p).remote, events, p)
  {
    hide DoAll, Do, Sends, IsPartSkipped, Sticks, OnlyRemoteMoves, LastRemote;
    RemoteRun(pair, events, userId, p);
    PassMoves(DoAll(pair, events, userId), t, Done, userId, p);
  }

  // ---------------------------------------------------------------- a base is common ground

  /** The values of a part that both sides held at the same time, up to and including now. */
  function Common(pair: Pair, events: seq<Event>, userId: string, p: Part, met: set<PartValue>): set<PartValue>
    requires IsLinked(pair)
    decreases |events|
  {
    var now := met + (if At(pair, p).local == At(pair, p).remote then {At(pair, p).local} else {});
    if events == [] then now else Common(Do(pair, events[0], userId), events[1..], userId, p, now)
  }

  /** The values of a part that a pass of the run pulled and the device refused to write. */
  function Unwritten(pair: Pair, events: seq<Event>, userId: string, p: Part): set<PartValue>
    requires IsLinked(pair)
    decreases |events|
  {
    if events == [] then {}
    else
      (if events[0].Pass? && PassAction(pair, events[0].times, p) == Pull && !PullSticks(pair, p) then
        {At(pair, p).remote} else {}) +
      Unwritten(Do(pair, events[0], userId), events[1..], userId, p)
  }

  /**
   * Over any run, whoever edits what and whatever requests are lost, a base is a value both sides once held
   * together, or one that was pulled and not written.
   */
  lemma {:induction false} BaseIsCommonGround(pair: Pair, events: seq<Event>, userId: string, p: Part,
                                              met: set<PartValue>)
    requires IsLinked(pair)
    requires At(pair, p).base.Some? ==>
               At(pair, p).base.value in met || At(pair, p).base.value == At(pair, p).local == At(pair, p).remote
    ensures var after := DoAll(pair, events, userId);
            At(after, p).base.Some? ==>
              At(after, p).base.value in Common(pair, events, userId, p, met) + Unwritten(pair, events, userId, p)
    decreases |events|
  {
    hide Do, Sends, Skips, PullSticks, PassAction;
    var now := met + (if At(pair, p).local == At(pair, p).remote then {At(pair, p).local} else {});
    if events != [] {
      var e := events[0];
      match e {
        case Pass(t, outcome) => PassMoves(pair, t, outcome, userId, p); StayIsEqual(pair, t, p);
        case _ => EditKeepsBase(pair, e, userId, p);
      }
      var unwritten := if e.Pass? && PassAction(pair, e.times, p) == Pull && !PullSticks(pair, p) then
        {At(pair, p).remote} else {};
      BaseIsCommonGround(Do(pair, e, userId), events[1..], userId, p, now + unwritten);
      CommonOfMore(Do(pair, e, userId), events[1..], userId, p, now, unwritten);
    }
  }

  lemma {:induction false} CommonOfMore(pair: Pair, events: seq<Event>, userId: string, p: Part, met: set<PartValue>,
                                        more: set<PartValue>)
    requires IsLinked(pair)
    ensures Common(pair, events, userId, p, met + more) <= Common(pair, events, userId, p, met) + more
    decreases |events|
  {
    hide Do, At;
    var now := met + (if At(pair, p).local == At(pair, p).remote then {At(pair, p).local} else {});
    if events != [] {
      CommonOfMore(Do(pair, events[0], userId), events[1..], userId, p, now, more);
      assert met + more + (if At(pair, p).local == At(pair, p).remote then {At(pair, p).local} else {}) == now + more;
    }
  }

  lemma StayIsEqual(pair: Pair, t: Times, p: Part)
    requires IsLinked(pair)
    ensures PassAction(pair, t, p) == Stay <==> At(pair, p).local == At(pair, p).remote
  {
  }

  lemma EditKeepsBase(pair: Pair, e: Event, userId: string, p: Part)
    requires IsLinked(pair) && !e.Pass?
    ensures At(Do(pair, e, userId), p).base == At(pair, p).base
  {
  }
}
