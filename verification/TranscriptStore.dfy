/** The transaction over the session database, and the sidebar's cache row. */
module TranscriptStore {
  import opened Text
  import opened Transcript

  /** The cached row of a session. */
  datatype Cached = Cached(title: string, startedAt: int, count: nat)

  datatype Result = Result(session: string, title: string, wroteMessages: bool, cacheOnly: bool, gatewayOwned: bool)

  function TurnOf(session: string, user: string, assistant: string): Turn {
    Turn(Trim(EcmaScript, session), user, assistant)
  }

  class StateDb {
    var sessions: map<string, Session>
    var messages: seq<Message>
    var cache: map<string, Cached>

    constructor ()
      ensures sessions == map[] && messages == [] && cache == map[]
    {
      sessions, messages, cache := map[], [], map[];
    }

    function Contents(): Db
      reads this
    {
      Db(sessions, messages)
    }

    /**
     * `materializeChatSessionTurn`. `available` says whether the database could be opened, `fails` whether
     * the transaction is rolled back.
     */
    method MaterializeChatSessionTurn(session: string, user: string, assistant: string, profileId: string,
                                      desired: string, now: real,
                                      available: bool, fails: bool)
      returns (result: Option<Result>)
      modifies this
      ensures !IsTurn(TurnOf(session, user, assistant)) ==>
                result == None && Contents() == old(Contents()) && cache == old(cache)
      ensures IsTurn(TurnOf(session, user, assistant)) && (!available || fails) ==>
                var id := TurnOf(session, user, assistant).session;
                result == Some(Result(id, desired, false, true, false)) && Contents() == old(Contents()) &&
                cache == old(cache)[id := Cached(desired, now.Floor, 2)]
      ensures IsTurn(TurnOf(session, user, assistant)) && available && !fails ==>
                var t := TurnOf(session, user, assistant);
                var profile := if Trim(EcmaScript, profileId) != "" then Trim(EcmaScript, profileId) else "default";
                var title := ResolveTitle(old(sessions), t.session, desired);
                var owned := GatewayOwns(old(messages), t.session);
                Contents() == Stored(old(Contents()), t, profile, desired, now) && t.session in sessions &&
                result == Some(Result(t.session, title, |messages| > |old(messages)|, false, owned)) &&
                cache == old(cache)[t.session :=
                  Cached(title, sessions[t.session].startedAt.Floor, sessions[t.session].count)]
    {
      hide ResolveTitle, Trim, ActiveCount, Key, IdOf;
      var id := Trim(EcmaScript, session);
      if id == "" || Trim(EcmaScript, user) == "" || Trim(EcmaScript, assistant) == "" { return None; }
      var t := Turn(id, user, assistant);
      if !available || fails {
        cache := cache[id := Cached(desired, now.Floor, 2)];
        return Some(Result(id, desired, false, true, false));
      }
      var profile := if Trim(EcmaScript, profileId) != "" then Trim(EcmaScript, profileId) else "default";
      var owned := GatewayOwns(messages, id);
      var title := ResolveTitle(sessions, id, desired);
      sessions := WithSession(sessions, id, title, profile, now);
      var wroteMessages := false;
      if !owned {
        var userRow, assistantRow := FindRow(messages, IdOf(Key(t), User)), FindRow(messages, IdOf(Key(t), Assistant));
        var hasUser, hasAssistant := userRow < |messages|, assistantRow < |messages|;
        if !hasUser {
          messages := messages + [Message(id, User, user, now, Some(IdOf(Key(t), User)), true)];
          wroteMessages := true;
        }
        if !hasAssistant {
          messages := messages + [Message(id, Assistant, assistant, now + 0.001, Some(IdOf(Key(t), Assistant)), true)];
          wroteMessages := true;
        } else {
          messages := messages[assistantRow := messages[assistantRow].(content := assistant, at := now + 0.001)];
        }
      }
      var n := ActiveCount(messages, id);
      sessions := sessions[id := sessions[id].(count := n, lastActivity := now)];
      cache := cache[id := Cached(title, sessions[id].startedAt.Floor, sessions[id].count)];
      return Some(Result(id, title, wroteMessages, false, owned));
    }
  }
}
