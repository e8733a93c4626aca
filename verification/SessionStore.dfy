/** The session functions as they run: over tables that they change row by row. Each is proved to do to the tables what
    SessionModel says. */
module SessionStore {
  import opened Options
  import opened Roles
  import opened SessionModel

  /** The tables, and the trusted devices of each user. */
  class Tables {
    var users: map<UserId, User>
    var grants: seq<Grant>
    var settings: Settings
    var events: seq<Event>
    var sessions: map<SessionId, Session>
    var devices: map<UserId, set<Token>>

    constructor (users: map<UserId, User>, grants: seq<Grant>, settings: Settings, events: seq<Event>)
      ensures View() == Db(users, grants, settings, events, map[]) && devices == map[]
    {
      this.users, this.grants, this.settings, this.events := users, grants, settings, events;
      sessions, devices := map[], map[];
    }

    function View(): Db
      reads this
    {
      Db(users, grants, settings, events, sessions)
    }
  }

  /** `resolveEventDaySessionEnd`: reads the events the user operates, keeps those that are on, and the latest end
      wins. */
  method ResolveEventDaySessionEnd(db: Tables, user: UserId, now: nat) returns (end: Option<nat>)
    ensures end == EventDayEnd(db.View(), user, now)
    ensures end.Some? ==> exists e :: e in db.events && OnDuty(db.View(), user, e, now)
                                      && e.window.value.sessionEnd == end.value
    ensures forall e :: e in db.events && end.Some? && OnDuty(db.View(), user, e, now) ==>
              e.window.value.sessionEnd <= end.value
  {
    LatestEndIsTheMaximum(db.View(), user, db.events, now);
    if !db.settings.eventDaySessions { return None; }
    if Elevated(db.View(), user) { return None; }
    end := None;
    for i := 0 to |db.events|
      invariant end == LatestEnd(db.View(), user, db.events[..i], now)
    {
      assert db.events[..i + 1][..i] == db.events[..i];
      var e := db.events[i];
      if OnDuty(db.View(), user, e, now) {
        if end.None? || e.window.value.sessionEnd > end.value { end := Some(e.window.value.sessionEnd); }
      }
    }
    assert db.events[..|db.events|] == db.events;
  }

  /** `createSession`. */
  method CreateSession(db: Tables, sid: SessionId, user: UserId, explicit: Option<Stage>, auth: AuthMethod, now: nat,
                       rawToken: Token)
    returns (session: Session)
    requires sid !in db.sessions
    modifies db`sessions
    ensures session == NewSession(old(db.View()), user, explicit, auth, now, rawToken)
    ensures db.sessions == old(db.sessions)[sid := session]
  {
    var stage := if explicit == Some(Full) && auth.Oidc? then Full else InitialStage(db.View(), user, explicit);
    var eventDayEnd: Option<nat> := None;
    if stage.Full? { eventDayEnd := ResolveEventDaySessionEnd(db, user, now); }
    var expiresAt := now + MFA_PENDING_SESSION_TTL_MS;
    if stage.Full? {
      expiresAt := if eventDayEnd.Some? then eventDayEnd.value else now + FullTtl(db.View(), user);
    }
    session := Session(user, HashOf(rawToken), stage, auth, eventDayEnd.Some?, now, now, expiresAt, None, None);
    db.sessions := db.sessions[sid := session];
  }

  /** `finalizeLoginSession`: the two owed steps, and the session. */
  method FinalizeLoginSession(db: Tables, sid: SessionId, user: UserId, initialStage: Stage, initialNext: Next,
                              now: nat,
                              rawToken: Token)
    returns (session: Session, next: Next)
    requires sid !in db.sessions && user in db.users && initialNext == NextFor(initialStage)
    modifies db`sessions
    ensures var stage := if initialStage.Full? then PostMfaStage(old(db.View()), user) else initialStage;
            && session == NewSession(old(db.View()), user, Some(stage), Local, now, rawToken) && session.stage == stage
            && next == NextFor(stage)
    ensures db.sessions == old(db.sessions)[sid := session]
  {
    var stage := initialStage;
    next := initialNext;
    if stage.Full? {
      if OwesCodes(db.View(), user) {
        stage, next := BackupCodesRequired, SaveBackupCodes;
      } else if db.users[user].mustChangePassword {
        stage, next := ChangePasswordRequired, ChangePassword;
      }
    }
    session := CreateSession(db, sid, user, Some(stage), Local, now, rawToken);
  }

  /** `login` once the password is known to be right: the session it makes, and what the client is told is the stage the
      session really has. */
  method Login(db: Tables, sid: SessionId, user: UserId, trustedDevice: bool, now: nat, rawToken: Token)
    returns (result: Option<(Session, Next)>)
    requires sid !in db.sessions && user in db.users
    modifies db`sessions
    ensures result.Some? <==> db.users[user].active
    ensures result.Some? ==>
              && result.value.0 == NewSession(old(db.View()), user,
                                              Some(LoginStage(old(db.View()), user, trustedDevice)), Local,
                                              now, rawToken)
              && result.value.1 == NextFor(result.value.0.stage)
              && db.sessions == old(db.sessions)[sid := result.value.0]
    ensures result.None? ==> db.sessions == old(db.sessions)
  {
    if !db.users[user].active { return None; }
    var stage, next := Full, Complete;
    if RequiresMfa(db.View(), user) {
      if !HasConfirmedMethod(db.View(), user) {
        stage, next := EnrollmentRequired, EnrolFirst;
      } else if trustedDevice {
        stage, next := Full, Complete;
      } else {
        stage, next := MfaPending, MfaRequired;
      }
    }
    var session;
    session, next := FinalizeLoginSession(db, sid, user, stage, next, now, rawToken);
    result := Some((session, next));
  }

  /** `loginWithPasskey` once the assertion is verified: never a second factor, the owed steps all the same. */
  method LoginWithPasskey(db: Tables, sid: SessionId, user: UserId, now: nat, rawToken: Token)
    returns (result: Option<(Session, Next)>)
    requires sid !in db.sessions && user in db.users
    modifies db`sessions
    ensures result.Some? <==> db.users[user].active
    ensures result.Some? ==>
              && result.value.0 == NewSession(old(db.View()), user, Some(PostMfaStage(old(db.View()), user)), Local,
                                              now, rawToken)
              && result.value.1 == NextFor(result.value.0.stage)
              && db.sessions == old(db.sessions)[sid := result.value.0]
    ensures result.None? ==> db.sessions == old(db.sessions)
  {
    if !db.users[user].active { return None; }
    var session, next := FinalizeLoginSession(db, sid, user, Full, Complete, now, rawToken);
    result := Some((session, next));
  }

  /** `lookupSessionByToken`: the row with the token's hash, if the lookup accepts it. Refused rows stay as they are, an
      idle one is revoked, an accepted one may have its last use noted. */
  method LookupSessionByToken(db: Tables, rawToken: Token, now: nat) returns (found: Option<SessionId>)
    requires Unambiguous(db.sessions)
    modifies db`sessions
    ensures found.Some? ==>
              && found.value in old(db.sessions) && old(db.sessions)[found.value].tokenHash == HashOf(rawToken)
              && Judge(old(db.View()), old(db.sessions)[found.value], now).Accepted?
    ensures forall sid :: sid in old(db.sessions) && old(db.sessions)[sid].tokenHash == HashOf(rawToken) ==>
              && db.sessions == old(db.sessions)[sid := Used(old(db.View()), old(db.sessions)[sid], now)]
              && (found == Some(sid) <==> Judge(old(db.View()), old(db.sessions)[sid], now).Accepted?)
    ensures (forall sid :: sid in old(db.sessions) ==> old(db.sessions)[sid].tokenHash != HashOf(rawToken)) ==>
              found == None && db.sessions == old(db.sessions)
  {
    if sid :| sid in db.sessions && db.sessions[sid].tokenHash == HashOf(rawToken) {
      var s := db.sessions[sid];
      assert db.sessions == db.sessions[sid := s];
      if s.revokedAt.Some? { return None; }
      if s.expiresAt <= now { return None; }
      if !Active(db.View(), s.user) { return None; }
      if s.stage.Full? {
        var idleTimeout := IdleTimeout(db.View(), s.user, s.rememberMe);
        if idleTimeout.Some? && now - s.lastSeen >= idleTimeout.value {
          db.sessions := db.sessions[sid := s.(revokedAt := Some(now))];
          return None;
        }
      }
      if now - s.lastSeen >= SESSION_LAST_SEEN_THROTTLE_MS {
        db.sessions := db.sessions[sid := s.(lastSeen := now)];
      }
      return Some(sid);
    }
    return None;
  }

  /** A token's hash is on one row at most. */
  ghost predicate Unambiguous(sessions: map<SessionId, Session>) {
    forall a, b :: a in sessions && b in sessions && sessions[a].tokenHash == sessions[b].tokenHash ==> a == b
  }

  /** `validateSession`. */
  method ValidateSession(db: Tables, rawToken: Token, now: nat) returns (found: Option<SessionId>)
    requires Unambiguous(db.sessions)
    modifies db`sessions
    ensures forall sid :: sid in old(db.sessions) && old(db.sessions)[sid].tokenHash == HashOf(rawToken) ==>
              && db.sessions == old(db.sessions)[sid := Used(old(db.View()), old(db.sessions)[sid], now)]
              && (found == Some(sid) <==> Validates(old(db.View()), old(db.sessions)[sid], now))
    ensures (forall sid :: sid in old(db.sessions) ==> old(db.sessions)[sid].tokenHash != HashOf(rawToken)) ==>
              found == None && db.sessions == old(db.sessions)
  {
    var looked := LookupSessionByToken(db, rawToken, now);
    if looked.None? || !db.sessions[looked.value].stage.Full? { return None; }
    if !MfaPolicy(db.View(), db.sessions[looked.value]) { return None; }
    return looked;
  }

  /** `promoteSessionToFull`: one conditional update, of what has been read before. */
  method PromoteSessionToFull(db: Tables, sid: SessionId, user: UserId, now: nat, rawToken: Token, mfaVerified: bool)
    returns (reached: Option<Stage>)
    modifies db`sessions
    ensures var a := ToFull(old(db.View()), sid, user, now, rawToken, mfaVerified);
            && db.View() == Promote(old(db.View()), a)
            && reached == if Succeeds(old(db.View()), a) then Some(a.target) else None
  {
    var target := PostMfaStage(db.View(), user);
    var expiresAt := now + if target.BackupCodesRequired? then BACKUP_CODES_STEP_TTL_MS else MFA_PENDING_SESSION_TTL_MS;
    var eventDayEnd: Option<nat> := None;
    if target.Full? {
      eventDayEnd := ResolveEventDaySessionEnd(db, user, now);
      expiresAt := if eventDayEnd.Some? then eventDayEnd.value else now + FullTtl(db.View(), user);
    }
    reached := None;
    if sid in db.sessions {
      var s := db.sessions[sid];
      if s.user == user && s.revokedAt.None? && s.expiresAt > now && !s.stage.Full? && s.stage != target {
        db.sessions := db.sessions[sid := s.(stage := target, tokenHash := HashOf(rawToken), expiresAt := expiresAt,
                                             rememberMe := eventDayEnd.Some?, lastSeen := now,
                                             mfaVerifiedAt := if mfaVerified then Some(now) else s.mfaVerifiedAt)];
        reached := Some(target);
      }
    }
  }

  /** `promoteSessionToBackupCodesStep`. */
  method PromoteSessionToBackupCodesStep(db: Tables, sid: SessionId, user: UserId, now: nat, rawToken: Token)
    returns (promoted: bool)
    modifies db`sessions
    ensures var a := ToBackupCodes(sid, user, now, rawToken);
            db.View() == Promote(old(db.View()), a) && promoted == Succeeds(old(db.View()), a)
  {
    promoted := false;
    if sid in db.sessions {
      var s := db.sessions[sid];
      if s.user == user && s.revokedAt.None? && s.expiresAt > now && s.stage.EnrollmentRequired? {
        db.sessions := db.sessions[sid := s.(stage := BackupCodesRequired, tokenHash := HashOf(rawToken),
                                             expiresAt := now + BACKUP_CODES_STEP_TTL_MS, lastSeen := now)];
        promoted := true;
      }
    }
  }

  /** `revokeSession`, and what `logout` does to the row. */
  method RevokeSession(db: Tables, sid: SessionId, now: nat) returns (revoked: bool)
    modifies db`sessions
    ensures db.View() == Revoke(old(db.View()), One(sid), now)
    ensures revoked <==> sid in old(db.sessions) && old(db.sessions)[sid].revokedAt.None?
  {
    revoked := false;
    if sid in db.sessions && db.sessions[sid].revokedAt.None? {
      db.sessions := db.sessions[sid := db.sessions[sid].(revokedAt := Some(now))];
      revoked := true;
    }
    assert db.sessions == Revoke(old(db.View()), One(sid), now).sessions;
  }

  /** `logout`: the validated session, if there is one; a second logout changes nothing. */
  method Logout(db: Tables, validated: Option<SessionId>, now: nat)
    modifies db`sessions
    ensures validated.None? ==> db.sessions == old(db.sessions)
    ensures validated.Some? ==> db.View() == Revoke(old(db.View()), One(validated.value), now)
  {
    if validated.None? { return; }
    var _ := RevokeSession(db, validated.value, now);
  }

  /** `revokeOtherSessions`. */
  method RevokeOtherSessions(db: Tables, user: UserId, keep: SessionId, now: nat) returns (count: nat)
    modifies db`sessions
    ensures db.View() == Revoke(old(db.View()), OthersOf(user, keep), now)
    ensures count == |set sid | sid in old(db.sessions) && old(db.sessions)[sid].user == user
                                && old(db.sessions)[sid].revokedAt.None? && sid != keep|
  {
    var hit := set sid | sid in db.sessions && db.sessions[sid].user == user && db.sessions[sid].revokedAt.None?
        && sid != keep;
    db.sessions := map sid | sid in db.sessions ::
                     if sid in hit then db.sessions[sid].(revokedAt := Some(now)) else db.sessions[sid];
    count := |hit|;
    assert db.sessions == Revoke(old(db.View()), OthersOf(user, keep), now).sessions;
  }

  /** `revokeUserAuthState`: every session and every trusted device of the user, in one transaction. */
  method RevokeUserAuthState(db: Tables, user: UserId, now: nat) returns (count: nat)
    modifies db`sessions, db`devices
    ensures db.View() == Revoke(old(db.View()), AllOf(user), now)
    ensures db.devices == old(db.devices)[user := {}]
    ensures count == |set sid | sid in old(db.sessions) && old(db.sessions)[sid].user == user
                                && old(db.sessions)[sid].revokedAt.None?|
  {
    var hit := set sid | sid in db.sessions && db.sessions[sid].user == user && db.sessions[sid].revokedAt.None?;
    db.sessions := map sid | sid in db.sessions ::
                     if sid in hit then db.sessions[sid].(revokedAt := Some(now)) else db.sessions[sid];
    db.devices := db.devices[user := {}];
    count := |hit|;
    assert db.sessions == Revoke(old(db.View()), AllOf(user), now).sessions;
  }
}
