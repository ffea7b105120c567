/** Login sessions (`SessionModel`): opaque random ids bound to one user. */
module Sessions {
  import opened Wrappers
  import opened Tables
  import opened WrapperResults
  import opened Transactions
  import Ids

  /** `logoutSession`: all of the user's sessions, or only the one given. */
  function LogoutSession(userId: string, session: Option<SessionRow>): (op: Op)
    ensures op.DeleteSessions? && op.sessionOwner == userId
    ensures op.onlySession.Some? <==> session.Some?
    ensures session.Some? ==> op.onlySession.value == session.value.sessionId
  {
    DeleteSessions(userId, if session.Some? then Some(session.value.sessionId) else None)
  }

  /**
   * After the logout write: a session survives iff it is another user's,
   * or it is not the one named; the survivors are unchanged.
   */
  lemma LogoutEffect(t: Tables, userId: string, session: Option<SessionRow>)
    ensures Apply(t, LogoutSession(userId, session)).Ok?
    ensures var t1 := Apply(t, LogoutSession(userId, session)).value.0;
            && (forall k :: k in t1.sessions <==>
                  k in t.sessions
                  && (t.sessions[k].userId != userId || (session.Some? && t.sessions[k].sessionId != session.value.sessionId)))
            && (forall k :: k in t1.sessions ==> t1.sessions[k] == t.sessions[k])
            && t1.users == t.users
  {
  }

  /**
   * `createSession`: a session under the first drawn id no session holds,
   * linked to the user, with the platform and no messaging token yet.
   * `draws` are the base64 texts of the 95-byte random draws, in order.
   */
  method CreateSession(db: Database, userId: string, platform: Option<string>, draws: seq<string>)
    returns (r: Result<string, Failure>)
    requires exists k :: 0 <= k < |draws| && draws[k] !in db.tables.sessions
    modifies db
    ensures r.Ok? ==>
              r.value !in old(db.tables.sessions) && r.value in draws
              && db.tables == old(db.tables).(sessions := old(db.tables.sessions)[r.value := SessionRow(r.value, userId, platform, None)])
    ensures r.Err? <==> userId !in old(db.tables.users)
    ensures r.Err? ==> r.error == Database(RecordNotFound) && db.tables == old(db.tables)
  {
    var sessionId, tries := Ids.FirstUnused(draws, db.tables.sessions.Keys);
    var w := db.Execute(Transactions.CreateSession(SessionRow(sessionId, userId, platform, None)));
    if w.Err? {
      return Err(w.error);
    }
    r := Ok(sessionId);
  }

  /**
   * `getUserBySessionId`: bumps the owner's `usedAt` and returns the owner;
   * an unknown session, or any other failure, is REQUIRED_LOGIN.
   */
  method GetUserBySessionId(db: Database, sessionId: string, now: int) returns (r: Result<UserRow, Failure>)
    modifies db
    ensures r.Err? <==> sessionId !in old(db.tables.sessions) || old(db.tables.sessions[sessionId]).userId !in old(db.tables.users)
    ensures r.Err? ==> r.error == Internal(OpcodeRequiredLogin) && db.tables == old(db.tables)
    ensures r.Ok? ==>
              var owner := old(db.tables.sessions[sessionId]).userId;
              r.value == old(db.tables.users[owner]).(usedAt := Some(now))
              && db.tables == old(db.tables).(users := old(db.tables.users)[owner := r.value])
  {
    var w := db.Execute(TouchSessionUser(sessionId, now));
    if w.Err? {
      return Err(Internal(OpcodeRequiredLogin));
    }
    r := Ok(db.tables.users[db.tables.sessions[sessionId].userId]);
  }

  /** `getSession`: the session with that id if it belongs to the user. */
  function GetSession(t: Tables, userId: string, sessionId: string): (s: Option<SessionRow>)
    requires SessionsKeyed(t.sessions)
    ensures s.Some? <==> sessionId in t.sessions && t.sessions[sessionId].userId == userId
    ensures s.Some? ==> s.value == t.sessions[sessionId] && s.value.sessionId == sessionId
  {
    if sessionId in t.sessions && t.sessions[sessionId].userId == userId then Some(t.sessions[sessionId]) else None
  }

  /** `getSessionOrThrow`: another user's or an unknown session is NOT_FOUND. */
  function GetSessionOrThrow(t: Tables, userId: string, sessionId: string): (r: Result<SessionRow, Failure>)
    requires SessionsKeyed(t.sessions)
    ensures r.Err? <==> sessionId !in t.sessions || t.sessions[sessionId].userId != userId
    ensures r.Err? ==> r.error == Internal(OpcodeNotFound)
    ensures r.Ok? ==> r.value.userId == userId && r.value.sessionId == sessionId
  {
    match GetSession(t, userId, sessionId)
    case None => Err(Internal(OpcodeNotFound))
    case Some(s) => Ok(s)
  }

  /** `setMessagingToken`: an empty token is refused; otherwise only that session's token changes. */
  method SetMessagingToken(db: Database, sessionId: string, token: string) returns (r: Result<(), Failure>)
    modifies db
    ensures token == "" ==> r == Err(Internal(NoOpcode)) && db.tables == old(db.tables)
    ensures token != "" && sessionId !in old(db.tables.sessions) ==>
              r == Err(Database(RecordNotFound)) && db.tables == old(db.tables)
    ensures token != "" && sessionId in old(db.tables.sessions) ==>
              r.Ok?
              && db.tables == old(db.tables).(sessions := old(db.tables.sessions)[sessionId :=
                                                old(db.tables.sessions[sessionId]).(messagingToken := Some(token))])
  {
    if token == "" {
      return Err(Internal(NoOpcode));
    }
    var w := db.Execute(Transactions.SetMessagingToken(sessionId, token));
    if w.Err? {
      return Err(w.error);
    }
    r := Ok(());
  }
}
