/** What the session functions answer and write, told from the rows of the tables and the settings alone: role
    assignments, methods, the switch and the windows of the event day, and the times in the session's own row. */
module SessionRules {
  import opened Options
  import opened Roles
  import opened SessionModel

  /** The user is an administrator of something. */
  predicate Administers(grants: seq<Grant>, user: UserId) {
    exists g :: g in grants && g.user == user && g.role != Operator
  }

  /** The user holds a role that requires MFA. */
  predicate UnderDuty(db: Db, user: UserId) {
    !(forall g :: g in db.grants && g.user == user ==> g.role !in db.settings.requiredRoles)
  }

  /** The backup codes of some confirmed method were not acknowledged. */
  predicate CodesOwed(users: map<UserId, User>, user: UserId) {
    user in users && false in users[user].methods.Values
  }

  /** The event is on at `now`, and the user is an operator of just that event. */
  ghost predicate WorksAt(grants: seq<Grant>, user: UserId, e: Event, now: nat) {
    && (exists since :: Grant(user, Operator, EventScope, Some(e.id), since) in grants)
    && !e.archived && -259_200_000 < now - e.date < 259_200_000
    && e.window != None && e.window.value.start <= now && now < e.window.value.end
  }

  lemma AdministersIs(db: Db, user: UserId)
    ensures Elevated(db, user) <==> Administers(db.grants, user)
  {
    assert forall g :: g in db.grants ==> (g.role != Operator <==> g.role.Superadmin? || g.role.Admin?);
  }

  lemma UnderDutyIs(db: Db, user: UserId)
    ensures RequiresMfa(db, user) <==> UnderDuty(db, user)
  {
  }

  lemma CodesOwedIs(db: Db, user: UserId)
    ensures OwesCodes(db, user) <==> CodesOwed(db.users, user)
  {
  }

  lemma WorksAtIs(db: Db, user: UserId, e: Event, now: nat)
    ensures OnDuty(db, user, e, now) <==> WorksAt(db.grants, user, e, now)
  {
    if g :| && g in db.grants && g.user == user && g.role.Operator?
            && g.scopeType.EventScope? && g.scopeId == Some(e.id) {
      assert g == Grant(user, Operator, EventScope, Some(e.id), g.createdAt);
    }
  }

  // ---------------------------------------------------------------------------------------------- requests

  /** A request gets no answer from a session that was revoked or has expired, or whose account is not there or not
      active. */
  lemma WhenRefused(db: Db, s: Session, now: nat)
    ensures Judge(db, s, now) == Refused
            <==> s.revokedAt != None || s.expiresAt <= now || !(s.user in db.users && db.users[s.user].active)
  {
  }

  /** Used too long ago: more than the window of administrators for who administers anything, more than that of
      operators for everyone else, but never on an event-day session while the switch is on. */
  predicate TooLongAgo(db: Db, s: Session, now: nat) {
    if Administers(db.grants, s.user) then now - s.lastSeen >= db.settings.idleAdmin
    else !(s.rememberMe && db.settings.eventDaySessions) && now - s.lastSeen >= db.settings.idleOperator
  }

  lemma IdleIs(db: Db, s: Session, now: nat)
    ensures IdleExpired(db, s, now) <==> s.stage == Full && TooLongAgo(db, s, now)
  {
    AdministersIs(db, s.user);
  }

  /** A live full session of an active account is caught idle exactly when it was used too long ago; a partial one never
      is. */
  lemma WhenCaughtIdle(db: Db, s: Session, now: nat)
    requires s.revokedAt == None && now < s.expiresAt && s.user in db.users && db.users[s.user].active
    ensures Judge(db, s, now).CaughtIdle? <==> s.stage == Full && TooLongAgo(db, s, now)
  {
    IdleIs(db, s, now);
  }

  /** What a request writes to the session it is made with. */
  lemma WhatARequestWrites(db: Db, s: Session, now: nat)
    ensures Judge(db, s, now).Refused? ==> Used(db, s, now) == s
    ensures Judge(db, s, now).CaughtIdle? ==> Used(db, s, now) == s.(revokedAt := Some(now))
    ensures Judge(db, s, now).Accepted? ==>
              Used(db, s, now) == if now - s.lastSeen >= 60_000 then s.(lastSeen := now) else s
  {
    hide IdleExpired;
  }

  /** A session validates exactly when it is live, full and not idle, and its user owes no backup codes and, unless the
      session came from the identity provider or no role of the user requires MFA, has a confirmed method, and the
      session is not older than the first of those roles. */
  lemma WhenValidated(db: Db, s: Session, now: nat)
    ensures Validates(db, s, now) <==>
              (&& s.stage == Full && s.revokedAt == None && now < s.expiresAt
               && s.user in db.users && db.users[s.user].active && !TooLongAgo(db, s, now)
               && !CodesOwed(db.users, s.user)
               && (s.auth == Oidc || !UnderDuty(db, s.user)
                   || (&& db.users[s.user].methods != map[]
                       && exists g :: && g in db.grants && g.user == s.user && g.role in db.settings.requiredRoles
                                      && g.createdAt <= s.createdAt)))
  {
    WhenRefused(db, s, now);
    CodesOwedIs(db, s.user);
    UnderDutyIs(db, s.user);
    if s.revokedAt == None && now < s.expiresAt && s.user in db.users && db.users[s.user].active {
      WhenCaughtIdle(db, s, now);
    }
    hide Judge, CodesOwed, TooLongAgo;
    FirstDuty(db.grants, s.user, db.settings.requiredRoles, s.createdAt);
    if s.user in db.users { assert HasConfirmedMethod(db, s.user) <==> db.users[s.user].methods != map[]; }
  }

  /** The first role that requires MFA is not younger than `at` exactly when some such role is not. */
  lemma {:induction false} FirstDuty(grants: seq<Grant>, user: UserId, required: set<Role>, at: nat)
    ensures var first := EarliestRequired(grants, user, required);
            && (first.None? <==> forall g :: g in grants && g.user == user ==> g.role !in required)
            && (first.Some? && first.value <= at
                <==> exists g :: g in grants && g.user == user && g.role in required && g.createdAt <= at)
    decreases grants
  {
    if grants != [] {
      FirstDuty(grants[1..], user, required, at);
      assert forall g :: g in grants <==> g == grants[0] || g in grants[1..];
    }
  }

  // ---------------------------------------------------------------------------------------------- stages

  /** The stage after the second factor: backup codes first, then the password, then full. */
  lemma WhatIsStillOwed(db: Db, user: UserId)
    ensures PostMfaStage(db, user) == BackupCodesRequired <==> CodesOwed(db.users, user)
    ensures PostMfaStage(db, user) == ChangePasswordRequired
            <==> !CodesOwed(db.users, user) && user in db.users && db.users[user].mustChangePassword
    ensures PostMfaStage(db, user) in {Full, BackupCodesRequired, ChangePasswordRequired}
  {
    CodesOwedIs(db, user);
  }

  /** The stage a right password leads to. Who is under duty enrols when nothing is confirmed, and otherwise gives the
      second factor unless the device is trusted; everybody else goes on with what is still owed. */
  lemma WhatALoginGives(db: Db, user: UserId, trusted: bool)
    requires user in db.users
    ensures var stage := LoginStage(db, user, trusted); var methods := db.users[user].methods;
            && (stage == EnrollmentRequired <==> UnderDuty(db, user) && methods == map[])
            && (stage == MfaPending <==> UnderDuty(db, user) && methods != map[] && !trusted)
            && (stage !in {EnrollmentRequired, MfaPending} ==> stage == PostMfaStage(db, user))
  {
    UnderDutyIs(db, user);
    assert HasConfirmedMethod(db, user) <==> db.users[user].methods != map[];
    WhatIsStillOwed(db, user);
  }

  /** The stage of a session that is made without naming one: never past the second factor for who is under duty. */
  lemma WhatABareSessionGets(db: Db, user: UserId)
    ensures var stage := InitialStage(db, user, None);
            && (stage == EnrollmentRequired
                <==> UnderDuty(db, user) && !(user in db.users && db.users[user].methods != map[]))
            && (stage == MfaPending <==> UnderDuty(db, user) && user in db.users && db.users[user].methods != map[])
            && (stage !in {EnrollmentRequired, MfaPending} ==> stage == PostMfaStage(db, user))
  {
    UnderDutyIs(db, user);
    if user in db.users { assert HasConfirmedMethod(db, user) <==> db.users[user].methods != map[]; }
    WhatIsStillOwed(db, user);
  }

  // ---------------------------------------------------------------------------------------------- lifetimes

  /** The session ends with the latest of the events that are on and that the user, who administers nothing, works
      at. */
  ghost predicate EndsWithTheDay(db: Db, user: UserId, now: nat, end: nat) {
    && db.settings.eventDaySessions && !Administers(db.grants, user)
    && (exists e :: e in db.events && WorksAt(db.grants, user, e, now) && e.window.value.sessionEnd == end)
    && (forall e :: e in db.events && WorksAt(db.grants, user, e, now) ==> e.window.value.sessionEnd <= end)
  }

  lemma WhenTheDayCounts(db: Db, user: UserId, now: nat, end: nat)
    ensures EventDayEnd(db, user, now) == Some(end) <==> EndsWithTheDay(db, user, now, end)
  {
    AdministersIs(db, user);
    LatestEndIsTheMaximum(db, user, db.events, now);
    forall e ensures OnDuty(db, user, e, now) <==> WorksAt(db.grants, user, e, now) { WorksAtIs(db, user, e, now); }
    hide OnDuty, WorksAt, Administers, Elevated, LatestEnd;
  }

  /** The lifetime of a session that enters `stage` at `now`: `step` ms in a partial stage, otherwise to the end of the
      event day, and without one the lifetime the user's roles give. */
  ghost predicate Lasts(db: Db, user: UserId, stage: Stage, now: nat, step: nat, expiresAt: nat, eventDay: bool) {
    if stage != Full then expiresAt == now + step && !eventDay
    else if eventDay then EndsWithTheDay(db, user, now, expiresAt)
    else && (forall end :: !EndsWithTheDay(db, user, now, end))
         && expiresAt == now + if Administers(db.grants, user) then db.settings.ttlAdmin else db.settings.ttlOperator
  }

  lemma ExpiryLasts(db: Db, user: UserId, stage: Stage, now: nat, step: nat)
    ensures var expiry := Expiry(db, user, stage, now, step); Lasts(db, user, stage, now, step, expiry.0, expiry.1)
  {
    AdministersIs(db, user);
    forall end: nat
      ensures EventDayEnd(db, user, now) == Some(end) <==> EndsWithTheDay(db, user, now, end)
    {
      WhenTheDayCounts(db, user, now, end);
    }
    hide EventDayEnd, EndsWithTheDay, Elevated, Administers;
  }

  /** What a new session's row says. */
  lemma WhatANewSessionIs(db: Db, user: UserId, explicit: Option<Stage>, auth: AuthMethod, now: nat, token: Token)
    ensures var s := NewSession(db, user, explicit, auth, now, token);
            && s.user == user && s.tokenHash == HashOf(token) && s.auth == auth && s.createdAt == now
            && s.lastSeen == now
            && s.revokedAt == None && s.mfaVerifiedAt == None && (explicit != None ==> s.stage == explicit.value)
            && Lasts(db, user, s.stage, now, 15 * 60_000, s.expiresAt, s.rememberMe)
  {
    ExpiryLasts(db, user, InitialStage(db, user, explicit), now, MFA_PENDING_SESSION_TTL_MS);
    hide Lasts, Expiry;
  }

  // ---------------------------------------------------------------------------------------------- promotions

  lemma PartialStages(stage: Stage)
    ensures stage in PARTIAL_STAGES <==> stage != Full
  {
  }

  /** A promotion takes exactly the live partial sessions of its user that are not yet where it leads; it writes the
      stage, the new token, the lifetime, and when a factor was verified; everything else of every row stays. */
  lemma WhatAPromotionDoes(db: Db, sid: SessionId, user: UserId, now: nat, token: Token, verified: bool)
    ensures var after := Promote(db, ToFull(db, sid, user, now, token, verified));
            var taken := && sid in db.sessions && db.sessions[sid].user == user && db.sessions[sid].revokedAt == None
                         && now < db.sessions[sid].expiresAt
                         && db.sessions[sid].stage !in {Full, PostMfaStage(db, user)};
            && (Succeeds(db, ToFull(db, sid, user, now, token, verified)) <==> taken)
            && (!taken ==> after == db)
            && (taken ==>
                  && sid in after.sessions && after == db.(sessions := db.sessions[sid := after.sessions[sid]])
                  && var was, s := db.sessions[sid], after.sessions[sid];
                     && s.stage == PostMfaStage(db, user) && s.tokenHash == HashOf(token) && s.lastSeen == now
                     && s.mfaVerifiedAt == (if verified then Some(now) else was.mfaVerifiedAt)
                     && (s.user, s.auth, s.createdAt, s.revokedAt) == (was.user, was.auth, was.createdAt, was.revokedAt)
                     && Lasts(db, user, s.stage, now,
                              if s.stage == BackupCodesRequired then 10 * 60_000 else 15 * 60_000,
                              s.expiresAt, s.rememberMe))
  {
    var target := PostMfaStage(db, user);
    ExpiryLasts(db, user, target, now,
                if target.BackupCodesRequired? then BACKUP_CODES_STEP_TTL_MS else MFA_PENDING_SESSION_TTL_MS);
    WhatIsStillOwed(db, user);
    hide Lasts, Expiry, PostMfaStage, CodesOwed;
    if sid in db.sessions { PartialStages(db.sessions[sid].stage); }
  }

  /** The promotion after an enrolment: from the enrolment stage only, for ten minutes. */
  lemma WhatAnEnrolmentDoes(db: Db, sid: SessionId, user: UserId, now: nat, token: Token)
    ensures var after := Promote(db, ToBackupCodes(sid, user, now, token));
            var taken := && sid in db.sessions && db.sessions[sid].user == user && db.sessions[sid].revokedAt == None
                         && now < db.sessions[sid].expiresAt && db.sessions[sid].stage == EnrollmentRequired;
            && (Succeeds(db, ToBackupCodes(sid, user, now, token)) <==> taken)
            && (!taken ==> after == db)
            && (taken ==> after.sessions == db.sessions[sid := db.sessions[sid].(
                  stage := BackupCodesRequired, tokenHash := HashOf(token), lastSeen := now,
                  expiresAt := now + 10 * 60_000)])
            && (taken ==> after.(sessions := db.sessions) == db)
  {
  }

  // ---------------------------------------------------------------------------------------------- revocations

  /** A revocation notes the time on exactly the sessions it is for that were not revoked before. */
  lemma WhatARevocationDoes(db: Db, whom: Whom, now: nat, sid: SessionId)
    requires sid in db.sessions
    ensures var was := db.sessions[sid];
            var meant := match whom
                         case One(session) => sid == session
                         case OthersOf(user, keep) => was.user == user && sid != keep
                         case AllOf(user) => was.user == user;
            && Revoke(db, whom, now).sessions.Keys == db.sessions.Keys
            && Revoke(db, whom, now).sessions[sid]
               == (if meant && was.revokedAt == None then was.(revokedAt := Some(now)) else was)
  {
  }
}
