/**
 * Writing a chat turn into the session database next to a gateway that writes there too: the turn is
 * stored once, and never beside rows the gateway owns.
 */
module Transcript {
  import opened Text

  const PREFIX := "chat-mat:"

  datatype Role = User | Assistant

  /** A row of `messages`; its row number stands for the row id. */
  datatype Message = Message(session: string, role: Role, content: string, at: real, platformId: Option<string>,
                             active: bool)

  /** A row of `sessions`; an absent title is empty. */
  datatype Session = Session(title: string, startedAt: real, lastActivity: real, count: nat, profile: Option<string>)

  datatype Db = Db(sessions: map<string, Session>, messages: seq<Message>)

  datatype Turn = Turn(session: string, user: string, assistant: string)

  /** What is hashed into the ids of a turn. The hash is taken to be injective, so the text itself stands for it. */
  function Key(t: Turn): string {
    t.session + ("\0" + (t.user + ("\0" + t.assistant)))
  }

  function IdOf(key: string, role: Role): string {
    PREFIX + (key + (if role.User? then ":user" else ":assistant"))
  }

  /** `platform_message_id LIKE 'chat-mat:%'`: letters match in either case. */
  predicate IsMaterialized(id: Option<string>) {
    id.Some? && |id.value| >= |PREFIX| && Lower(id.value[..|PREFIX|]) == PREFIX
  }

  predicate IsGatewayRow(m: Message, session: string) {
    m.session == session && m.active && !IsMaterialized(m.platformId)
  }

  predicate GatewayOwns(messages: seq<Message>, session: string) {
    exists i :: 0 <= i < |messages| && IsGatewayRow(messages[i], session)
  }

  function ActiveCount(messages: seq<Message>, session: string): nat {
    if messages == [] then 0
    else (if messages[0].session == session && messages[0].active then 1 else 0) + ActiveCount(messages[1..], session)
  }

  /** The row with a platform id; the number of rows when there is none. */
  function FindRow(messages: seq<Message>, id: string): (i: nat)
    ensures i <= |messages|
    ensures i < |messages| ==> messages[i].platformId == Some(id)
    ensures forall j :: 0 <= j < i ==> messages[j].platformId != Some(id)
  {
    if messages == [] || messages[0].platformId == Some(id) then 0 else 1 + FindRow(messages[1..], id)
  }

  // ---------------------------------------------------------------- titles

  predicate IsTaken(sessions: map<string, Session>, title: string, session: string) {
    exists id :: id in sessions && id != session && sessions[id].title == title
  }

  function Suffix(session: string): string {
    var s := if StartsWith(session, "desk-") then session[|"desk-"|..] else session;
    if |s| > 8 then s[|s| - 8..] else s
  }

  function Numeral(n: nat): string
    requires n < 20
  {
    if n < 10 then ['0' + (n as char)] else ['1', '0' + ((n - 10) as char)]
  }

  /** The loop over numbered candidates. */
  function NextTitle(sessions: map<string, Session>, session: string, base: string, candidate: string, n: nat): string
    requires 2 <= n <= 20
    decreases 20 - n
  {
    if n == 20 then base + " \U{00B7} " + session
    else if !IsTaken(sessions, candidate, session) then candidate
    else NextTitle(sessions, session, base, base + " \U{00B7} " + Suffix(session) + "-" + Numeral(n), n + 1)
  }

  /** `resolveUniqueSessionTitle` */
  function ResolveTitle(sessions: map<string, Session>, session: string, desired: string): string {
    var kept := if session in sessions then Trim(EcmaScript, sessions[session].title) else "";
    if kept != "" then kept
    else
      var base := if Trim(EcmaScript, desired) != "" then Trim(EcmaScript, desired) else "Expert conversation";
      if !IsTaken(sessions, base, session) then base
      else NextTitle(sessions, session, base, base + " \U{00B7} " + Suffix(session), 2)
  }

  // ---------------------------------------------------------------- the transaction

  /** The upsert of the session row. */
  function WithSession(sessions: map<string, Session>, session: string, title: string, profile: string,
                       now: real): map<string, Session> {
    if session !in sessions then sessions[session := Session(title, now, now, 0, Some(profile))]
    else
      var s := sessions[session];
      sessions[session := s.(title := if s.title != "" then s.title else title, lastActivity := now,
                             profile := if s.profile.Some? then s.profile else Some(profile))]
  }

  function WithCount(db: Db, session: string, now: real): Db {
    if session !in db.sessions then db
    else db.(sessions := db.sessions[session :=
      db.sessions[session].(count := ActiveCount(db.messages, session), lastActivity := now)])
  }

  function Row(t: Turn, role: Role, now: real): Message {
    if role.User? then Message(t.session, User, t.user, now, Some(IdOf(Key(t), User)), true)
    else Message(t.session, Assistant, t.assistant, now + 0.001, Some(IdOf(Key(t), Assistant)), true)
  }

  /** The two message writes: a missing row is inserted, an assistant row that is there is written over. */
  function WithRows(messages: seq<Message>, t: Turn, now: real): seq<Message> {
    var user, assistant := FindRow(messages, IdOf(Key(t), User)), FindRow(messages, IdOf(Key(t), Assistant));
    var m := if user == |messages| then messages + [Row(t, User, now)] else messages;
    if assistant == |messages| then m + [Row(t, Assistant, now)]
    else m[assistant := m[assistant].(content := t.assistant, at := now + 0.001)]
  }

  function Stored(db: Db, t: Turn, profile: string, desired: string, now: real): Db {
    var title := ResolveTitle(db.sessions, t.session, desired);
    var sessions := WithSession(db.sessions, t.session, title, profile, now);
    if GatewayOwns(db.messages, t.session) then WithCount(Db(sessions, db.messages), t.session, now)
    else WithCount(Db(sessions, WithRows(db.messages, t, now)), t.session, now)
  }

  /** The turns that are materialized at all; the session id is trimmed before. */
  predicate IsTurn(t: Turn) {
    t.session != "" && Trim(EcmaScript, t.user) != "" && Trim(EcmaScript, t.assistant) != ""
  }

  // ---------------------------------------------------------------- the other writers

  /** What happens to the database: turns, gateway rows, rows switched on or off, and whole sessions removed. */
  datatype Event =
    | Materialize(turn: Turn, profile: string, desired: string, now: real)
    | GatewayInsert(row: Message)
    | SetActive(index: nat, on: bool)
    | DeleteSession(session: string)

  function Without(messages: seq<Message>, session: string): seq<Message> {
    if messages == [] then []
    else (if messages[0].session == session then [] else [messages[0]]) + Without(messages[1..], session)
  }

  function Step(db: Db, e: Event): Db {
    match e
    case Materialize(t, profile, desired, now) => if IsTurn(t) then Stored(db, t, profile, desired, now) else db
    // The gateway leaves the prefix alone.
    case GatewayInsert(row) => if IsMaterialized(row.platformId) then db else db.(messages := db.messages + [row])
    case SetActive(i, on) => if i < |db.messages| then db.(messages := db.messages[i := db.messages[i].(active := on)])
    else db
    case DeleteSession(s) => Db(db.sessions - {s}, Without(db.messages, s))
  }

  function Run(db: Db, events: seq<Event>): Db
    decreases |events|
  {
    if events == [] then db else Run(Step(db, events[0]), events[1..])
  }
}
