/** What a run of the relay comes to, told from its events alone: the promise, the answer, and the listener. */
module RelayRuns {
  import opened Text
  import opened Relay
  import opened RelayLaws

  // ---------------------------------------------------------------- the promise

  /** The first of the two events that settle it. */
  function PromiseOf(events: seq<Event>): Promise {
    if events == [] then Pending
    else
      match events[0]
      case Listening(hasPort) => if hasPort then Resolved else Rejected
      case ServerError => Rejected
      case _ => PromiseOf(events[1..])
  }

  lemma {:induction false} PromiseFrom(s: State, events: seq<Event>)
    requires Valid(s) && IsRun(s, events) && s.promise.Pending?
    ensures Run(s, events).promise == PromiseOf(events)
    decreases |events|
  {
    hide Valid, CanHappen;
    if events != [] {
      var e, t := events[0], Step(s, events[0]);
      StepIsValid(s, e);
      PromiseStep(s, e);
      if e.Listening? || e.ServerError? {
        RunIsValid(t, events[1..]);
      } else {
        PromiseFrom(t, events[1..]);
      }
    }
  }

  lemma PromiseStep(s: State, e: Event)
    requires Valid(s) && CanHappen(s, e) && s.promise.Pending?
    ensures Step(s, e).promise == PromiseOf([e])
  {
    assert [e][1..] == [];
  }

  // ---------------------------------------------------------------- the answer

  /** The events that end the wait of the accepted client. */
  predicate Decides(e: Event) {
    e.UpstreamOpen? || e.UpstreamError? || e.UpstreamClose? || e.SocketClose? || e.ConnectTimeout?
  }

  function Verdict(e: Event): Answer
    requires Decides(e)
  {
    match e
    case UpstreamOpen(clientOk) => if clientOk then Bridged else Refused
    case ConnectTimeout => Turned("504 Gateway Timeout")
    case SocketClose => Gone
    case _ => Turned("502 Bad Gateway")
  }

  function FirstDecider(events: seq<Event>): (r: Option<Event>)
    ensures r.Some? ==> Decides(r.value)
  {
    if events == [] then None else if Decides(events[0]) then Some(events[0]) else FirstDecider(events[1..])
  }

  function AnswerOf(events: seq<Event>): Answer {
    if Upgrade(true) !in events then NoRequest
    else if FirstDecider(events).None? then Waiting
    else Verdict(FirstDecider(events).value)
  }

  /** Nobody has hung up yet. */
  predicate IsQuiet(s: State) {
    s.answer.NoRequest? || s.answer.Waiting? ==> !s.socketClosed
  }

  lemma StepAnswers(s: State, e: Event)
    requires Valid(s) && IsQuiet(s) && CanHappen(s, e)
    ensures IsQuiet(Step(s, e))
    ensures s.answer.NoRequest? ==>
              !Decides(e) && Step(s, e).answer == if e == Upgrade(true) then Waiting else NoRequest
    ensures s.answer.Waiting? ==> Step(s, e).answer == if Decides(e) then Verdict(e) else Waiting
  {
  }

  lemma {:induction false} AnswerFrom(s: State, events: seq<Event>)
    requires Valid(s) && IsQuiet(s) && IsRun(s, events)
    ensures s.answer.NoRequest? ==> Run(s, events).answer == AnswerOf(events)
    ensures s.answer.Waiting? ==>
              var d := FirstDecider(events); Run(s, events).answer == if d.None? then Waiting else Verdict(d.value)
    decreases |events|
  {
    hide Valid, CanHappen, Step, IsQuiet, Verdict;
    if events != [] {
      var e, t := events[0], Step(s, events[0]);
      StepIsValid(s, e);
      StepAnswers(s, e);
      AnswerFrom(t, events[1..]);
      assert Upgrade(true) in events <==> e == Upgrade(true) || Upgrade(true) in events[1..];
      if s.answer.Waiting? && Decides(e) {
        VerdictSettles(e);
        RunIsValid(t, events[1..]);
      }
    }
  }

  lemma VerdictSettles(e: Event)
    requires Decides(e)
    ensures IsSettledAnswer(Verdict(e))
  {
  }

  // ---------------------------------------------------------------- the listener

  /** Whether an event ends the listener; a server error does once the server listens. */
  predicate Ends(e: Event, listening: bool) {
    e == Listening(false) || e.AcceptTimeout? || (e.ServerError? && listening) ||
    (Decides(e) && e != UpstreamOpen(false))
  }

  /** An event that ends the listener comes, short of one behind an upgrade that was refused. */
  predicate ClosesIn(events: seq<Event>, listening: bool, refused: bool) {
    events != [] &&
    var e := events[0];
    (if refused then e.ServerError? else Ends(e, listening)) ||
    ClosesIn(events[1..], listening || e.Listening?, refused || e == UpstreamOpen(false))
  }

  lemma StepCloses(s: State, e: Event)
    requires Valid(s) && CanHappen(s, e) && !s.listenerClosed
    ensures Step(s, e).listenerClosed <==> if s.answer.Refused? then e.ServerError? else Ends(e, s.listening)
    ensures Step(s, e).listening <==> s.listening || e.Listening?
    ensures !Step(s, e).listenerClosed ==>
              (Step(s, e).answer.Refused? <==> s.answer.Refused? || e == UpstreamOpen(false))
  {
  }

  lemma {:induction false} ClosedFrom(s: State, events: seq<Event>)
    requires Valid(s) && IsRun(s, events) && !s.listenerClosed
    ensures Run(s, events).listenerClosed <==> ClosesIn(events, s.listening, s.answer.Refused?)
    decreases |events|
  {
    hide Valid, CanHappen, Step, Ends;
    if events != [] {
      var e, t := events[0], Step(s, events[0]);
      StepIsValid(s, e);
      StepCloses(s, e);
      if t.listenerClosed { RunIsValid(t, events[1..]); } else { ClosedFrom(t, events[1..]); }
    }
  }

  // ---------------------------------------------------------------- the socket to the target

  /** Once open, it ends by its own error or close only, whatever the client's socket does. */
  function OpenedThen(events: seq<Event>): Upstream {
    if UpstreamError in events || UpstreamClose in events then Ended else Opened
  }

  /** Whatever ends the wait before it opens ends it too. */
  function ConnectingThen(events: seq<Event>): Upstream {
    if events == [] then Connecting
    else if events[0].UpstreamOpen? then OpenedThen(events[1..])
    else if Decides(events[0]) then Ended
    else ConnectingThen(events[1..])
  }

  function UpstreamOf(events: seq<Event>): Upstream {
    if events == [] then NoUpstream
    else if events[0] == Upgrade(true) then ConnectingThen(events[1..])
    else UpstreamOf(events[1..])
  }

  lemma StepUpstream(s: State, e: Event)
    requires Valid(s) && CanHappen(s, e)
    ensures s.upstream.Opened? || s.upstream.Ended? ==>
              Step(s, e).upstream == if e.UpstreamError? || e.UpstreamClose? then Ended else s.upstream
    ensures s.upstream.Connecting? && s.answer.Waiting? ==>
              var t := Step(s, e);
              t.upstream == (if e.UpstreamOpen? then Opened else if Decides(e) then Ended else Connecting) &&
              (t.upstream.Connecting? ==> t.answer.Waiting?)
    ensures s.upstream.NoUpstream? ==>
              var t := Step(s, e);
              t.upstream == (if e == Upgrade(true) then Connecting else NoUpstream) &&
              (t.upstream.Connecting? ==> t.answer.Waiting?)
  {
  }

  lemma {:induction false} UpstreamFrom(s: State, events: seq<Event>)
    requires Valid(s) && IsRun(s, events) && (s.upstream.Connecting? ==> s.answer.Waiting?)
    ensures Run(s, events).upstream ==
            match s.upstream
            case NoUpstream => UpstreamOf(events)
            case Connecting => ConnectingThen(events)
            case Opened => OpenedThen(events)
            case Ended => Ended
    decreases |events|
  {
    hide CanHappen, Step, Valid;
    if events != [] {
      var e, t := events[0], Step(s, events[0]);
      StepIsValid(s, e);
      StepUpstream(s, e);
      assert forall x :: x in events <==> x == e || x in events[1..];
      UpstreamFrom(t, events[1..]);
    }
  }

  // ---------------------------------------------------------------- main result

  /**
   * Every run from the start: the first report of the server settles the promise, the first event that ends the wait
   * of the accepted client is its answer, the socket to the target lives as long as it should, and the listener is
   * closed by the first event that has to.
   */
  lemma RunComesTo(events: seq<Event>)
    requires IsRun(START, events)
    ensures var s := Run(START, events);
            s.promise == PromiseOf(events) && s.answer == AnswerOf(events) && s.upstream == UpstreamOf(events) &&
            (s.listenerClosed <==> ClosesIn(events, false, false))
  {
    hide Valid, Run, IsRun, PromiseOf, AnswerOf, ClosesIn, UpstreamOf;
    StartIsValid();
    PromiseFrom(START, events);
    AnswerFrom(START, events);
    ClosedFrom(START, events);
    UpstreamFrom(START, events);
  }
}
