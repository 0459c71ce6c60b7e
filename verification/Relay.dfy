/**
 * The one-shot loopback relay for dashboard web sockets: event callbacks around a listener, two timers and
 * a handful of latches, and the bridge between the two sockets once both are open.
 */
module Relay {
  import opened Text

  datatype Promise = Pending | Resolved | Rejected

  /** The accepted upgrade request: none yet, waiting, or what became of it. */
  datatype Answer = NoRequest | Waiting | Bridged | Refused | Turned(status: string) | Gone

  /** The socket to the target. */
  datatype Upstream = NoUpstream | Connecting | Opened | Ended

  datatype State = State(
    promise: Promise, listening: bool, listenerClosed: bool, acceptTimer: bool,
    accepted: bool, upstream: Upstream, handshakeSettled: bool, connectTimer: bool,
    answer: Answer, socketClosed: bool,
    // How often the server was closed, and how many upgrades were answered 404.
    closes: nat, notFound: nat)

  const START := State(Pending, false, false, false, false, NoUpstream, false, false, NoRequest, false, 0, 0)

  datatype Event =
    | Listening(hasPort: bool)
    | ServerError
    | Upgrade(capable: bool)
    | UpstreamOpen(clientOk: bool)
    | UpstreamError
    | UpstreamClose
    | SocketClose
    | AcceptTimeout
    | ConnectTimeout

  /** When a callback can be called: timers fire while they are set, sockets report what they are. */
  predicate CanHappen(s: State, e: Event) {
    match e
    case Listening(_) => !s.listening
    case ServerError => true
    case Upgrade(_) => s.listening
    case UpstreamOpen(_) => s.upstream.Connecting?
    case UpstreamError => s.accepted
    case UpstreamClose => s.accepted
    case SocketClose => s.accepted && !s.socketClosed
    case AcceptTimeout => s.acceptTimer
    case ConnectTimeout => s.connectTimer
  }

  /** `closeListener` */
  function CloseListener(s: State): State {
    var t := s.(acceptTimer := false);
    if s.listening && !s.listenerClosed then t.(listenerClosed := true, closes := s.closes + 1) else t
  }

  /** `failHandshake` */
  function FailHandshake(s: State, status: string): State {
    if s.handshakeSettled then s
    else CloseListener(s.(handshakeSettled := true, connectTimer := false, answer :=
      if s.socketClosed then Gone else Turned(status)))
  }

  function Settle(s: State, p: Promise): State {
    if s.promise.Pending? then s.(promise := p) else s
  }

  function Step(s: State, e: Event): State {
    match e
    case Listening(hasPort) =>
      var t := s.(listening := true);
      if hasPort then Settle(t.(acceptTimer := true), Resolved) else Settle(CloseListener(t), Rejected)
    case ServerError => var t := CloseListener(s); if t.listening then t else Settle(t, Rejected)
    case Upgrade(capable) =>
      if s.accepted || !capable then s.(notFound := s.notFound + 1)
      else s.(accepted := true, acceptTimer := false, upstream := Connecting, connectTimer := true, answer := Waiting)
    case UpstreamOpen(clientOk) =>
      var t := s.(upstream := Opened);
      if s.handshakeSettled then t
      else
        var u := t.(handshakeSettled := true, connectTimer := false);
        // The upgrade of the client can be refused by the web socket server: then nobody is called back.
        if clientOk then CloseListener(u.(answer := Bridged)) else u.(answer := Refused)
    case UpstreamError => FailHandshake(s.(upstream := Ended), "502 Bad Gateway")
    case UpstreamClose => FailHandshake(s.(upstream := Ended), "502 Bad Gateway")
    case SocketClose =>
      var t := s.(socketClosed := true);
      if s.upstream.Opened? then t else FailHandshake(t.(upstream := Ended), "502 Bad Gateway")
    // The timer that fired is no longer set.
    case AcceptTimeout => CloseListener(s)
    case ConnectTimeout => FailHandshake(s.(upstream := Ended, connectTimer := false), "504 Gateway Timeout")
  }

  /** A run of callbacks, each of which can happen. */
  predicate IsRun(s: State, events: seq<Event>)
    decreases |events|
  {
    events == [] || (CanHappen(s, events[0]) && IsRun(Step(s, events[0]), events[1..]))
  }

  function Run(s: State, events: seq<Event>): State
    decreases |events|
  {
    if events == [] then s else Run(Step(s, events[0]), events[1..])
  }

  // ---------------------------------------------------------------- the bridge

  /**
   * The close codes passed on, after section 7.4 of RFC 6455: normal closure, and the ranges for libraries and
   * applications.
   */
  predicate IsValidCloseCode(code: int) {
    code == 1000 || 3000 <= code <= 4999
  }

  datatype Peer = Open | Closing(code: Option<int>) | Dead

  /** The two ends and what was sent to each of them. */
  datatype Bridge = Bridge(renderer: Peer, target: Peer, toTarget: seq<string>, toRenderer: seq<string>)

  datatype Traffic =
    | FromRenderer(frame: string)
    | FromTarget(frame: string)
    | RendererClosed(code: int)
    | TargetClosed(code: int)
    | RendererFailed
    | TargetFailed
    | SendToTargetFailed
    | SendToRendererFailed

  /** `closePeer` */
  function ClosePeer(p: Peer, code: int): Peer {
    if !p.Open? then p else Closing(if IsValidCloseCode(code) then Some(code) else None)
  }

  function Pass(b: Bridge, t: Traffic): Bridge {
    match t
    case FromRenderer(frame) => if b.target.Open? then b.(toTarget := b.toTarget + [frame]) else b
    case FromTarget(frame) => if b.renderer.Open? then b.(toRenderer := b.toRenderer + [frame]) else b
    case RendererClosed(code) => b.(renderer := Dead, target := ClosePeer(b.target, code))
    case TargetClosed(code) => b.(target := Dead, renderer := ClosePeer(b.renderer, code))
    case RendererFailed => b.(target := Dead)
    case TargetFailed => b.(renderer := Dead)
    case SendToTargetFailed => b.(target := Dead)
    case SendToRendererFailed => b.(renderer := Dead)
  }

  function PassAll(b: Bridge, ts: seq<Traffic>): Bridge
    decreases |ts|
  {
    if ts == [] then b else PassAll(Pass(b, ts[0]), ts[1..])
  }

  /** The frames one end sent. */
  function Sent(ts: seq<Traffic>, byRenderer: bool): seq<string> {
    if ts == [] then []
    else
      (if byRenderer && ts[0].FromRenderer? then [ts[0].frame]
          else if !byRenderer && ts[0].FromTarget? then [ts[0].frame] else []) +
      Sent(ts[1..], byRenderer)
  }
}
