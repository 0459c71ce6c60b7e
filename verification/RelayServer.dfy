/** The relay as an object whose callbacks change its latches and timers, proved to take the machine's steps. */
module RelayServer {
  import opened Relay

  class LoopbackRelay {
    var promise: Promise
    var listening: bool
    var listenerClosed: bool
    var acceptTimer: bool
    var accepted: bool
    var upstream: Upstream
    var handshakeSettled: bool
    var connectTimer: bool
    var answer: Answer
    var socketClosed: bool
    var closes: nat
    var notFound: nat

    constructor ()
      ensures Now() == START
    {
      promise, listening, listenerClosed, acceptTimer := Pending, false, false, false;
      accepted, upstream, handshakeSettled, connectTimer := false, NoUpstream, false, false;
      answer, socketClosed, closes, notFound := NoRequest, false, 0, 0;
    }

    function Now(): State
      reads this
    {
      State(promise, listening, listenerClosed, acceptTimer, accepted, upstream, handshakeSettled, connectTimer, answer,
        socketClosed, closes, notFound)
    }

    method CloseTheListener()
      modifies this`acceptTimer, this`listenerClosed, this`closes
      ensures Now() == CloseListener(old(Now()))
    {
      acceptTimer := false;
      if listening && !listenerClosed {
        listenerClosed := true;
        closes := closes + 1;
      }
    }

    method FailTheHandshake(status: string)
      modifies this`acceptTimer, this`listenerClosed, this`closes, this`handshakeSettled, this`connectTimer, this`answer
      ensures Now() == FailHandshake(old(Now()), status)
    {
      if handshakeSettled { return; }
      handshakeSettled := true;
      connectTimer := false;
      answer := if !socketClosed then Turned(status) else Gone;
      CloseTheListener();
    }

    method OnListening(hasPort: bool)
      modifies this
      ensures Now() == Step(old(Now()), Listening(hasPort))
    {
      listening := true;
      if !hasPort {
        CloseTheListener();
        if promise.Pending? { promise := Rejected; }
        return;
      }
      acceptTimer := true;
      if promise.Pending? { promise := Resolved; }
    }

    method OnServerError()
      modifies this
      ensures Now() == Step(old(Now()), ServerError)
    {
      CloseTheListener();
      if !listening && promise.Pending? { promise := Rejected; }
    }

    method OnUpgrade(capable: bool)
      modifies this
      ensures Now() == Step(old(Now()), Upgrade(capable))
    {
      if accepted || !capable {
        notFound := notFound + 1;
        return;
      }
      accepted := true;
      acceptTimer := false;
      upstream := Connecting;
      connectTimer := true;
      answer := Waiting;
    }

    method OnUpstreamOpen(clientOk: bool)
      modifies this
      ensures Now() == Step(old(Now()), Event.UpstreamOpen(clientOk))
    {
      upstream := Opened;
      if handshakeSettled { return; }
      handshakeSettled := true;
      connectTimer := false;
      if clientOk {
        answer := Bridged;
        CloseTheListener();
      } else {
        answer := Refused;
      }
    }

    method OnUpstreamEnd(e: Event)
      requires e.UpstreamError? || e.UpstreamClose?
      modifies this
      ensures Now() == Step(old(Now()), e)
    {
      upstream := Ended;
      FailTheHandshake("502 Bad Gateway");
    }

    method OnSocketClose()
      modifies this
      ensures Now() == Step(old(Now()), SocketClose)
    {
      socketClosed := true;
      if !upstream.Opened? {
        upstream := Ended;
        FailTheHandshake("502 Bad Gateway");
      }
    }

    method OnAcceptTimeout()
      modifies this
      ensures Now() == Step(old(Now()), AcceptTimeout)
    {
      CloseTheListener();
    }

    method OnConnectTimeout()
      modifies this
      ensures Now() == Step(old(Now()), ConnectTimeout)
    {
      connectTimer := false;
      upstream := Ended;
      FailTheHandshake("504 Gateway Timeout");
    }
  }
}
