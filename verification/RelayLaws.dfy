/** What every interleaving of the relay's callbacks keeps, and where the listener can be left open. */
module RelayLaws {
  import opened Text
  import opened Relay

  predicate HasTimer(s: State) {
    s.acceptTimer || s.connectTimer
  }

  predicate IsOpen(s: State) {
    s.listening && !s.listenerClosed
  }

  predicate IsSettledAnswer(a: Answer) {
    a.Bridged? || a.Refused? || a.Turned? || a.Gone?
  }

  /** The relay between two callbacks. */
  predicate Valid(s: State) {
    (s.listenerClosed ==> s.listening) && s.closes == (if s.listenerClosed then 1 else 0) &&
    (s.promise.Resolved? ==> s.listening) && (s.listening ==> !s.promise.Pending?) &&
    (s.accepted <==> !s.upstream.NoUpstream?) && (s.accepted ==> s.listening && !s.acceptTimer) &&
    (s.handshakeSettled ==> s.accepted) && (s.connectTimer <==> s.accepted && !s.handshakeSettled) &&
    (s.answer.NoRequest? <==> !s.accepted) && (s.answer.Waiting? <==> s.accepted && !s.handshakeSettled) &&
    (s.answer.Waiting? ==> s.upstream.Connecting?) && (s.acceptTimer ==> IsOpen(s)) &&
    // An open listener waits for a timer, unless the client's own upgrade was refused.
    (IsOpen(s) && !HasTimer(s) ==> s.answer.Refused?)
  }

  lemma StartIsValid()
    ensures Valid(START)
  {
  }

  lemma StepIsValid(s: State, e: Event)
    requires Valid(s) && CanHappen(s, e)
    ensures Valid(Step(s, e))
  {
  }

  /** Once given, an answer stands: the accepted socket is never both bridged and turned away. */
  lemma AnswerStands(s: State, e: Event)
    requires Valid(s) && CanHappen(s, e)
    ensures IsSettledAnswer(s.answer) ==> Step(s, e).answer == s.answer
    ensures s.listenerClosed ==> Step(s, e).listenerClosed
    ensures !s.promise.Pending? ==> Step(s, e).promise == s.promise
    ensures s.accepted ==> Step(s, e).accepted
  {
  }

  /** The invariant over every interleaving. */
  lemma {:induction false} RunIsValid(s: State, events: seq<Event>)
    requires Valid(s) && IsRun(s, events)
    ensures Valid(Run(s, events))
    ensures IsSettledAnswer(s.answer) ==> Run(s, events).answer == s.answer
    ensures s.listenerClosed ==> Run(s, events).listenerClosed
    ensures !s.promise.Pending? ==> Run(s, events).promise == s.promise
    decreases |events|
  {
    hide Valid, Step, CanHappen;
    if events != [] {
      StepIsValid(s, events[0]);
      AnswerStands(s, events[0]);
      RunIsValid(Step(s, events[0]), events[1..]);
    }
  }

  /** After any run from the start: one server close at most, one answer at most, and an open listener is on a timer. */
  lemma EveryRun(events: seq<Event>)
    requires IsRun(START, events)
    ensures var s := Run(START, events);
            s.closes <= 1 && (IsOpen(s) && !s.answer.Refused? ==> HasTimer(s)) &&
            (s.answer.Bridged? || s.answer.Turned? || s.answer.Gone? ==> s.listenerClosed)
  {
    hide Step, CanHappen, IsRun;
    StartIsValid();
    ClosedStart();
    RunIsValid(START, events);
    RunClosesAnswered(START, events);
  }

  predicate ClosesAnswered(s: State) {
    s.answer.Bridged? || s.answer.Turned? || s.answer.Gone? ==> s.listenerClosed
  }

  lemma ClosedStart()
    ensures ClosesAnswered(START)
  {
  }

  lemma {:induction false} RunClosesAnswered(s: State, events: seq<Event>)
    requires Valid(s) && IsRun(s, events) && ClosesAnswered(s)
    ensures ClosesAnswered(Run(s, events))
    decreases |events|
  {
    hide Step, CanHappen, Valid, ClosesAnswered;
    if events != [] {
      StepIsValid(s, events[0]);
      StepClosesAnswered(s, events[0]);
      RunClosesAnswered(Step(s, events[0]), events[1..]);
    }
  }

  lemma StepClosesAnswered(s: State, e: Event)
    requires Valid(s) && CanHappen(s, e) && ClosesAnswered(s)
    ensures ClosesAnswered(Step(s, e))
  {
  }

  /**
   * A listener that is open with no timer left is one whose client was refused by the upgrade itself, and then
   * only an error of the server ever closes it: this is exactly where the one-shot relay can stay behind.
   */
  lemma StuckIff(s: State)
    requires Valid(s) && IsOpen(s)
    ensures !HasTimer(s) <==> s.answer.Refused?
    ensures s.answer.Refused? ==>
              forall e :: CanHappen(s, e) && !e.ServerError? ==> IsOpen(Step(s, e)) && Step(s, e).answer.Refused?
  {
  }

  /** It does stay behind: the target opens, and the web socket server refuses the client's own upgrade. */
  lemma RefusedClientLeavesListener()
    ensures var events := [Listening(true), Upgrade(true), UpstreamOpen(false)];
            IsRun(START, events) && IsOpen(Run(START, events)) && !HasTimer(Run(START, events))
  {
    var events := [Listening(true), Upgrade(true), UpstreamOpen(false)];
    var s1 := Step(START, events[0]);
    var s2 := Step(s1, events[1]);
    assert events[1..] == [events[1], events[2]] && events[1..][1..] == [events[2]] && events[1..][1..][1..] == [];
    assert IsRun(s2, events[1..][1..]) && Run(s2, events[1..][1..]) == Step(s2, events[2]);
    assert IsRun(s1, events[1..]) && Run(s1, events[1..]) == Step(s2, events[2]);
  }

  /** A relay is never left behind otherwise: whichever timer is set, its firing closes the listener. */
  lemma TimersClose(s: State)
    requires Valid(s) && IsOpen(s) && HasTimer(s)
    ensures var e := if s.acceptTimer then AcceptTimeout else ConnectTimeout;
            CanHappen(s, e) && Step(s, e).listenerClosed && !HasTimer(Step(s, e))
  {
  }

  // ---------------------------------------------------------------- one request only

  function Upgrades(events: seq<Event>): nat {
    if events == [] then 0 else (if events[0].Upgrade? then 1 else 0) + Upgrades(events[1..])
  }

  /** Every upgrade request but the first with the secret path is answered 404. */
  lemma {:induction false} OneRequest(s: State, events: seq<Event>)
    ensures var r := Run(s, events);
            r.notFound + (if r.accepted then 1 else 0) == s.notFound + (if s.accepted then 1 else 0) + Upgrades(events)
    ensures Run(s, events).accepted <==> s.accepted || Upgrade(true) in events
    decreases |events|
  {
    hide CloseListener, FailHandshake, Settle;
    if events != [] {
      StepCounts(s, events[0]);
      OneRequest(Step(s, events[0]), events[1..]);
      assert Upgrade(true) in events <==> events[0] == Upgrade(true) || Upgrade(true) in events[1..];
    }
  }

  predicate SameRequests(s: State, r: State) {
    r.accepted == s.accepted && r.notFound == s.notFound
  }

  lemma CloseKeeps(s: State)
    ensures SameRequests(s, CloseListener(s))
  {
  }

  lemma FailKeeps(s: State, status: string)
    ensures SameRequests(s, FailHandshake(s, status))
  {
  }

  lemma SettleKeeps(s: State, p: Promise)
    ensures SameRequests(s, Settle(s, p))
  {
  }

  lemma ListeningKeeps(s: State, hasPort: bool)
    ensures SameRequests(s, Step(s, Listening(hasPort)))
  {
    hide CloseListener, Settle;
    var t := s.(listening := true);
    if hasPort {
      SettleKeeps(t.(acceptTimer := true), Resolved);
    } else {
      CloseKeeps(t);
      SettleKeeps(CloseListener(t), Rejected);
    }
  }

  lemma ServerErrorKeeps(s: State)
    ensures SameRequests(s, Step(s, ServerError))
  {
    hide CloseListener, Settle;
    CloseKeeps(s);
    SettleKeeps(CloseListener(s), Rejected);
  }

  lemma OpenKeeps(s: State, clientOk: bool)
    ensures SameRequests(s, Step(s, UpstreamOpen(clientOk)))
  {
    hide CloseListener;
    CloseKeeps(s.(upstream := Opened).(handshakeSettled := true, connectTimer := false).(answer := Bridged));
  }

  lemma SocketCloseKeeps(s: State)
    ensures SameRequests(s, Step(s, SocketClose))
  {
    hide FailHandshake;
    FailKeeps(s.(socketClosed := true).(upstream := Ended), "502 Bad Gateway");
  }

  lemma OtherEventsKeep(s: State, e: Event)
    requires !e.Upgrade?
    ensures SameRequests(s, Step(s, e))
  {
    hide CloseListener, FailHandshake, Settle;
    match e
    case Listening(hasPort) => ListeningKeeps(s, hasPort);
    case ServerError => ServerErrorKeeps(s);
    case UpstreamOpen(clientOk) => OpenKeeps(s, clientOk);
    case UpstreamError => FailKeeps(s.(upstream := Ended), "502 Bad Gateway");
    case UpstreamClose => FailKeeps(s.(upstream := Ended), "502 Bad Gateway");
    case SocketClose => SocketCloseKeeps(s);
    case AcceptTimeout => CloseKeeps(s);
    case ConnectTimeout => FailKeeps(s.(upstream := Ended, connectTimer := false), "504 Gateway Timeout");
  }

  lemma StepCounts(s: State, e: Event)
    ensures var r := Step(s, e);
            r.notFound + (if r.accepted then 1 else 0) ==
              s.notFound + (if s.accepted then 1 else 0) + (if e.Upgrade? then 1 else 0) &&
            (r.accepted <==> s.accepted || e == Upgrade(true))
  {
    hide CloseListener, FailHandshake, Settle;
    if !e.Upgrade? { OtherEventsKeep(s, e); }
  }

  // ---------------------------------------------------------------- the bridge

  /** The codes section 7.4.1 of RFC 6455 reserves, which must not be set in a close frame. */
  const RESERVED := {1004, 1005, 1006, 1015}

  /** A close frame to this peer carries no code, or one that may be sent. */
  predicate ClosesProperly(p: Peer) {
    p.Closing? && p.code.Some? ==>
      IsValidCloseCode(p.code.value) && p.code.value !in RESERVED && 1000 <= p.code.value < 5000
  }

  lemma PassClosesProperly(b: Bridge, t: Traffic)
    requires ClosesProperly(b.renderer) && ClosesProperly(b.target)
    ensures ClosesProperly(Pass(b, t).renderer) && ClosesProperly(Pass(b, t).target)
  {
  }

  /** Whatever the two ends send and report, no close frame the bridge sends carries a code that must not be sent. */
  lemma {:induction false} OnlyValidCodes(b: Bridge, ts: seq<Traffic>)
    requires ClosesProperly(b.renderer) && ClosesProperly(b.target)
    ensures ClosesProperly(PassAll(b, ts).renderer) && ClosesProperly(PassAll(b, ts).target)
    decreases |ts|
  {
    hide ClosesProperly, Pass;
    if ts != [] {
      PassClosesProperly(b, ts[0]);
      OnlyValidCodes(Pass(b, ts[0]), ts[1..]);
    }
  }

  /** A code in a close frame is one the other end closed with. */
  lemma {:induction false} CodesArePassedOn(b: Bridge, ts: seq<Traffic>, code: int)
    ensures PassAll(b, ts).target == Closing(Some(code)) ==>
              b.target == Closing(Some(code)) || RendererClosed(code) in ts
    ensures PassAll(b, ts).renderer == Closing(Some(code)) ==>
              b.renderer == Closing(Some(code)) || TargetClosed(code) in ts
    decreases |ts|
  {
    if ts != [] {
      CodesArePassedOn(Pass(b, ts[0]), ts[1..], code);
      assert ts[0] in ts && forall t :: t in ts[1..] ==> t in ts;
    }
  }

  // ---------------------------------------------------------------- how each end is left

  predicate CutsTarget(t: Traffic) {
    t.TargetClosed? || t.RendererFailed? || t.SendToTargetFailed?
  }

  predicate CutsRenderer(t: Traffic) {
    t.RendererClosed? || t.TargetFailed? || t.SendToRendererFailed?
  }

  /** The code an end closed with first. */
  function FirstClose(ts: seq<Traffic>, byRenderer: bool): Option<int> {
    if ts == [] then None
    else if byRenderer && ts[0].RendererClosed? then Some(ts[0].code)
    else if !byRenderer && ts[0].TargetClosed? then Some(ts[0].code)
    else FirstClose(ts[1..], byRenderer)
  }

  /** An open peer whose other end closed with this code, or not at all. */
  function Told(code: Option<int>): Peer {
    if code.None? then Open
    else Closing(if code.value == 1000 || (3000 <= code.value && code.value < 5000) then code else None)
  }

  /**
   * Where a run leaves the target: cut off, or told what the renderer closed with first, with a code that may be
   * sent.
   */
  lemma {:induction false} TargetIsTold(b: Bridge, ts: seq<Traffic>)
    requires b.target.Open?
    ensures PassAll(b, ts).target ==
            if exists t :: t in ts && CutsTarget(t) then Dead else Told(FirstClose(ts, true))
    decreases |ts|
  {
    if ts != [] {
      CutTail(ts);
      var c := Pass(b, ts[0]);
      if c.target.Open? { TargetIsTold(c, ts[1..]); } else { ClosingTargetStays(c, ts[1..]); }
    }
  }

  lemma CutTail(ts: seq<Traffic>)
    requires ts != []
    ensures (exists t :: t in ts && CutsTarget(t)) <==> CutsTarget(ts[0]) || exists t :: t in ts[1..] && CutsTarget(t)
    ensures (exists t :: t in ts && CutsRenderer(t)) <==>
            CutsRenderer(ts[0]) || exists t :: t in ts[1..] && CutsRenderer(t)
  {
    assert forall t :: t in ts <==> t == ts[0] || t in ts[1..];
  }

  lemma {:induction false} ClosingTargetStays(b: Bridge, ts: seq<Traffic>)
    requires !b.target.Open?
    ensures PassAll(b, ts).target == if exists t :: t in ts && CutsTarget(t) then Dead else b.target
    decreases |ts|
  {
    if ts != [] {
      CutTail(ts);
      ClosingTargetStays(Pass(b, ts[0]), ts[1..]);
    }
  }

  /** And the renderer. */
  lemma {:induction false} RendererIsTold(b: Bridge, ts: seq<Traffic>)
    requires b.renderer.Open?
    ensures PassAll(b, ts).renderer ==
            if exists t :: t in ts && CutsRenderer(t) then Dead else Told(FirstClose(ts, false))
    decreases |ts|
  {
    if ts != [] {
      CutTail(ts);
      var c := Pass(b, ts[0]);
      if c.renderer.Open? { RendererIsTold(c, ts[1..]); } else { ClosingRendererStays(c, ts[1..]); }
    }
  }

  lemma {:induction false} ClosingRendererStays(b: Bridge, ts: seq<Traffic>)
    requires !b.renderer.Open?
    ensures PassAll(b, ts).renderer == if exists t :: t in ts && CutsRenderer(t) then Dead else b.renderer
    decreases |ts|
  {
    if ts != [] {
      CutTail(ts);
      ClosingRendererStays(Pass(b, ts[0]), ts[1..]);
    }
  }

  lemma {:induction false} NothingToDeadTarget(b: Bridge, ts: seq<Traffic>)
    requires !b.target.Open?
    ensures !PassAll(b, ts).target.Open? && PassAll(b, ts).toTarget == b.toTarget
    decreases |ts|
  {
    if ts != [] { NothingToDeadTarget(Pass(b, ts[0]), ts[1..]); }
  }

  lemma {:induction false} NothingToDeadRenderer(b: Bridge, ts: seq<Traffic>)
    requires !b.renderer.Open?
    ensures !PassAll(b, ts).renderer.Open? && PassAll(b, ts).toRenderer == b.toRenderer
    decreases |ts|
  {
    if ts != [] { NothingToDeadRenderer(Pass(b, ts[0]), ts[1..]); }
  }

  /** What one end was sent is a start of what the other sent, and all of it while that end is open. */
  predicate IsPrefixOf(before: seq<string>, after: seq<string>, sent: seq<string>, open: bool) {
    before <= after && after[|before|..] <= sent && (open ==> after == before + sent)
  }

  lemma PrefixLonger(before: seq<string>, frame: string, after: seq<string>, sent: seq<string>, open: bool)
    requires IsPrefixOf(before + [frame], after, sent, open)
    ensures IsPrefixOf(before, after, [frame] + sent, open)
  {
    var mid := before + [frame];
    assert after[..|before|] == after[..|mid|][..|before|] == before;
    assert after[|before|..] == [frame] + after[|mid|..];
    if open { assert before + ([frame] + sent) == mid + sent; }
  }

  lemma NoFrames(before: seq<string>, sent: seq<string>)
    ensures IsPrefixOf(before, before, sent, false)
  {
    assert before[|before|..] == [];
  }

  lemma SentTail(ts: seq<Traffic>, byRenderer: bool)
    requires ts != []
    ensures Sent(ts, byRenderer) ==
            (if byRenderer && ts[0].FromRenderer? then [ts[0].frame]
             else if !byRenderer && ts[0].FromTarget? then [ts[0].frame] else []) + Sent(ts[1..], byRenderer)
  {
  }

  /** What reaches the target is what the renderer sent, in order and without gaps, up to where the target stopped. */
  lemma {:induction false} TargetGetsPrefix(b: Bridge, ts: seq<Traffic>)
    ensures var r := PassAll(b, ts); IsPrefixOf(b.toTarget, r.toTarget, Sent(ts, true), r.target.Open?)
    decreases |ts|
  {
    hide IsPrefixOf, Sent;
    if ts == [] {
      assert IsPrefixOf(b.toTarget, b.toTarget, Sent([], true), b.target.Open?) by { NothingSent(b.toTarget, true); }
    } else if b.target.Open? {
      var c, rest := Pass(b, ts[0]), Sent(ts[1..], true);
      TargetGetsPrefix(c, ts[1..]);
      SentTail(ts, true);
      if ts[0].FromRenderer? {
        PrefixLonger(b.toTarget, ts[0].frame, PassAll(b, ts).toTarget, rest, PassAll(b, ts).target.Open?);
      } else {
        assert [] + rest == rest;
      }
    } else {
      NothingToDeadTarget(b, ts);
      NoFrames(b.toTarget, Sent(ts, true));
    }
  }

  lemma NothingSent(before: seq<string>, byRenderer: bool)
    ensures forall open :: IsPrefixOf(before, before, Sent([], byRenderer), open)
  {
    assert before[|before|..] == [] && before + [] == before;
  }

  /** And the other way round. */
  lemma {:induction false} RendererGetsPrefix(b: Bridge, ts: seq<Traffic>)
    ensures var r := PassAll(b, ts); IsPrefixOf(b.toRenderer, r.toRenderer, Sent(ts, false), r.renderer.Open?)
    decreases |ts|
  {
    hide IsPrefixOf, Sent;
    if ts == [] {
      assert IsPrefixOf(b.toRenderer, b.toRenderer, Sent([], false), b.renderer.Open?) by {
        NothingSent(b.toRenderer, false);
      }
    } else if b.renderer.Open? {
      var c, rest := Pass(b, ts[0]), Sent(ts[1..], false);
      RendererGetsPrefix(c, ts[1..]);
      SentTail(ts, false);
      if ts[0].FromTarget? {
        PrefixLonger(b.toRenderer, ts[0].frame, PassAll(b, ts).toRenderer, rest, PassAll(b, ts).renderer.Open?);
      } else {
        assert [] + rest == rest;
      }
    } else {
      NothingToDeadRenderer(b, ts);
      NoFrames(b.toRenderer, Sent(ts, false));
    }
  }
}
