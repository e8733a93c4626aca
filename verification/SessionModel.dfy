/** Sessions of staff accounts as the functions of the authentication package see and change them: plain values, and one
    function for what each read and each write does. */
module SessionModel {
  import opened Options
  import opened Roles

  type SessionId = nat
  type Token = nat

  const MFA_PENDING_SESSION_TTL_MS: nat := 15 * 60 * 1000
  const BACKUP_CODES_STEP_TTL_MS: nat := 10 * 60 * 1000
  const SESSION_LAST_SEEN_THROTTLE_MS: nat := 60_000
  const EVENT_DAY_PREFILTER_MS: nat := 72 * 60 * 60 * 1000

  /** The stored hash of a raw token; no two tokens share one. */
  datatype TokenHash = HashOf(raw: Token)

  datatype Stage = Full | MfaPending | EnrollmentRequired | BackupCodesRequired | ChangePasswordRequired

  datatype AuthMethod = Local | Oidc

  datatype Session = Session(
    user: UserId,
    tokenHash: TokenHash,
    stage: Stage,
    auth: AuthMethod,
    rememberMe: bool,
    createdAt: nat,
    lastSeen: nat,
    expiresAt: nat,
    revokedAt: Option<nat>,
    mfaVerifiedAt: Option<nat>)

  /** `methods` holds the confirmed MFA methods, each with whether its backup codes were acknowledged. */
  datatype User = User(active: bool, mustChangePassword: bool, methods: map<nat, bool>)

  datatype Settings = Settings(
    ttlAdmin: nat,
    ttlOperator: nat,
    idleAdmin: nat,
    idleOperator: nat,
    requiredRoles: set<Role>,
    eventDaySessions: bool)

  /** `eventDayWindow` of an event: None when its date or timezone cannot be read. */
  datatype Window = Window(start: nat, end: nat, sessionEnd: nat)

  datatype Event = Event(id: Id, archived: bool, date: nat, window: Option<Window>)

  datatype Db = Db(
    users: map<UserId, User>,
    grants: seq<Grant>,
    settings: Settings,
    events: seq<Event>,
    sessions: map<SessionId, Session>)

  // ---------------------------------------------------------------------------------------------- reads

  predicate Elevated(db: Db, user: UserId) {
    exists g :: g in db.grants && g.user == user && (g.role.Superadmin? || g.role.Admin?)
  }

  function FullTtl(db: Db, user: UserId): nat {
    if Elevated(db, user) then db.settings.ttlAdmin else db.settings.ttlOperator
  }

  /** `resolveIdleTimeoutMs`: None when there is no inactivity window at all. */
  function IdleTimeout(db: Db, user: UserId, eventDaySession: bool): Option<nat> {
    if eventDaySession && !Elevated(db, user) && db.settings.eventDaySessions then None
    else Some(if Elevated(db, user) then db.settings.idleAdmin else db.settings.idleOperator)
  }

  /** `isSessionIdleExpired`. */
  predicate IdleExpired(db: Db, s: Session, now: nat) {
    s.stage.Full? && IdleTimeout(db, s.user, s.rememberMe).Some?
    && now - s.lastSeen >= IdleTimeout(db, s.user, s.rememberMe).value
  }

  predicate RequiresMfa(db: Db, user: UserId) {
    exists g :: g in db.grants && g.user == user && g.role in db.settings.requiredRoles
  }

  predicate HasConfirmedMethod(db: Db, user: UserId) {
    user in db.users && db.users[user].methods.Keys != {}
  }

  /** `userHasUnacknowledgedBackupCodes`. */
  predicate OwesCodes(db: Db, user: UserId) {
    user in db.users && exists m :: m in db.users[user].methods && !db.users[user].methods[m]
  }

  predicate MustChange(db: Db, user: UserId) {
    user in db.users && db.users[user].mustChangePassword
  }

  predicate Active(db: Db, user: UserId) {
    user in db.users && db.users[user].active
  }

  /** `resolvePostMfaStage`: full, unless a step is still owed. */
  function PostMfaStage(db: Db, user: UserId): Stage {
    if OwesCodes(db, user) then BackupCodesRequired
    else if MustChange(db, user) then ChangePasswordRequired
    else Full
  }

  // ---------------------------------------------------------------------------------------------- the event day

  /** An event the user's sign-in at `now` counts as "on the day of". */
  predicate OnDuty(db: Db, user: UserId, e: Event, now: nat) {
    && (exists g :: && g in db.grants && g.user == user && g.role.Operator?
                    && g.scopeType.EventScope? && g.scopeId == Some(e.id))
    && !e.archived
    && now < e.date + EVENT_DAY_PREFILTER_MS && e.date < now + EVENT_DAY_PREFILTER_MS
    && e.window.Some? && e.window.value.start <= now < e.window.value.end
  }

  /** The latest session end among the events of `events` the user is on duty for. */
  function LatestEnd(db: Db, user: UserId, events: seq<Event>, now: nat): Option<nat> {
    if events == [] then None
    else
      var before := LatestEnd(db, user, events[..|events| - 1], now);
      var e := events[|events| - 1];
      if OnDuty(db, user, e, now) && (before.None? || e.window.value.sessionEnd > before.value)
      then Some(e.window.value.sessionEnd) else before
  }

  /** `resolveEventDaySessionEnd`. */
  function EventDayEnd(db: Db, user: UserId, now: nat): Option<nat> {
    if !db.settings.eventDaySessions || Elevated(db, user) then None else LatestEnd(db, user, db.events, now)
  }

  /** The end is that of an event the user is on duty for, and none of those ends later; there is none exactly when the
      user is on duty nowhere. */
  lemma {:induction false} LatestEndIsTheMaximum(db: Db, user: UserId, events: seq<Event>, now: nat)
    ensures var end := LatestEnd(db, user, events, now);
            && (end.None? <==> forall e :: e in events ==> !OnDuty(db, user, e, now))
            && (end.Some? ==>
                  exists e :: e in events && OnDuty(db, user, e, now) && e.window.value.sessionEnd == end.value)
            && (forall e :: e in events && OnDuty(db, user, e, now) ==>
                end.Some? && e.window.value.sessionEnd <= end.value)
    decreases |events|
  {
    hide OnDuty;
    if events != [] {
      var init := events[..|events| - 1];
      LatestEndIsTheMaximum(db, user, init, now);
      assert forall e :: e in events ==> e in init || e == events[|events| - 1];
    }
  }

  // ---------------------------------------------------------------------------------------------- creation

  /** `resolveInitialSessionStage`: fails closed for a user who needs MFA. */
  function InitialStage(db: Db, user: UserId, explicit: Option<Stage>): Stage {
    if explicit.Some? then explicit.value
    else if !RequiresMfa(db, user) then PostMfaStage(db, user)
    else if HasConfirmedMethod(db, user) then MfaPending
    else EnrollmentRequired
  }

  /** The expiry and the event-day mark a session gets when it enters `stage` at `now`. */
  function Expiry(db: Db, user: UserId, stage: Stage, now: nat, partialTtl: nat): (nat, bool) {
    if !stage.Full? then (now + partialTtl, false)
    else
      match EventDayEnd(db, user, now)
      case Some(end) => (end, true)
      case None => (now + FullTtl(db, user), false)
  }

  /** The row `createSession` writes. */
  function NewSession(db: Db, user: UserId, explicit: Option<Stage>, auth: AuthMethod, now: nat,
                      token: Token): Session {
    var stage := InitialStage(db, user, explicit);
    var expiry := Expiry(db, user, stage, now, MFA_PENDING_SESSION_TTL_MS);
    Session(user, HashOf(token), stage, auth, expiry.1, now, now, expiry.0, None, None)
  }

  /** The stage `login` and `finalizeLoginSession` ask for after a correct password. */
  function LoginStage(db: Db, user: UserId, trustedDevice: bool): Stage {
    if RequiresMfa(db, user) && !HasConfirmedMethod(db, user) then EnrollmentRequired
    else if RequiresMfa(db, user) && !trustedDevice then MfaPending
    else PostMfaStage(db, user)
  }

  /** What the client is told to do next. */
  datatype Next = Complete | MfaRequired | EnrolFirst | SaveBackupCodes | ChangePassword

  function NextFor(stage: Stage): Next {
    match stage
    case Full => Complete
    case MfaPending => MfaRequired
    case EnrollmentRequired => EnrolFirst
    case BackupCodesRequired => SaveBackupCodes
    case ChangePasswordRequired => ChangePassword
  }

  // ---------------------------------------------------------------------------------------------- use

  datatype Verdict = Refused | CaughtIdle | Accepted(touch: bool)

  /** `lookupSessionByToken`, given the row the token's hash belongs to. */
  function Judge(db: Db, s: Session, now: nat): Verdict {
    if s.revokedAt.Some? || s.expiresAt <= now || !Active(db, s.user) then Refused
    else if IdleExpired(db, s, now) then CaughtIdle
    else Accepted(now - s.lastSeen >= SESSION_LAST_SEEN_THROTTLE_MS)
  }

  /** The row revoked at `now`, unless it was revoked before. */
  function RevokedAt(s: Session, now: nat): Session {
    if s.revokedAt.Some? then s else s.(revokedAt := Some(now))
  }

  /** What the lookup writes: an idle session is revoked for good, an accepted one has its last use noted now and
      then. */
  function Used(db: Db, s: Session, now: nat): Session {
    match Judge(db, s, now)
    case Refused => s
    case CaughtIdle => RevokedAt(s, now)
    case Accepted(touch) => if touch then s.(lastSeen := now) else s
  }

  function EarlierOf(a: Option<nat>, b: nat): Option<nat> {
    if a.Some? && a.value <= b then a else Some(b)
  }

  /** When the user's earliest assignment of a role that requires MFA was made. */
  function EarliestRequired(grants: seq<Grant>, user: UserId, required: set<Role>): Option<nat> {
    if grants == [] then None
    else
      var rest := EarliestRequired(grants[1..], user, required);
      if grants[0].user == user && grants[0].role in required then EarlierOf(rest, grants[0].createdAt) else rest
  }

  /** `assertFullSessionMfaPolicy`. */
  predicate MfaPolicy(db: Db, s: Session) {
    && !OwesCodes(db, s.user)
    && (s.auth.Oidc? || !RequiresMfa(db, s.user)
        || (&& HasConfirmedMethod(db, s.user)
            && var first := EarliestRequired(db.grants, s.user, db.settings.requiredRoles);
               (first.Some? ==> s.createdAt >= first.value)))
  }

  /** `validateSession`, given the row: full, accepted by the lookup, and within the MFA policy. */
  predicate Validates(db: Db, s: Session, now: nat) {
    Judge(db, s, now).Accepted? && s.stage.Full? && MfaPolicy(db, s)
  }

  /** `sessionStillValid` of an open check-in stream: the same policy, read only. */
  predicate StillValid(db: Db, sid: SessionId, now: nat) {
    && sid in db.sessions && db.sessions[sid].revokedAt.None? && db.sessions[sid].expiresAt > now
    && !IdleExpired(db, db.sessions[sid], now)
    && MfaPolicy(db, db.sessions[sid])
  }

  // ---------------------------------------------------------------------------------------------- promotion

  /** A promotion as it stands before its one conditional update: everything it has read. `rememberMe` is None when the
      update leaves the event-day mark alone. */
  datatype Attempt = Attempt(
    session: SessionId,
    user: UserId,
    target: Stage,
    sources: set<Stage>,
    now: nat,
    expiresAt: nat,
    rememberMe: Option<bool>,
    token: Token,
    verified: bool)

  const PARTIAL_STAGES: set<Stage> := {MfaPending, EnrollmentRequired, BackupCodesRequired, ChangePasswordRequired}

  /** What `promoteSessionToFull` has read when it reaches its update. The target is not among its own sources. */
  function ToFull(db: Db, session: SessionId, user: UserId, now: nat, token: Token, verified: bool): Attempt {
    var target := PostMfaStage(db, user);
    var ttl := if target.BackupCodesRequired? then BACKUP_CODES_STEP_TTL_MS else MFA_PENDING_SESSION_TTL_MS;
    var expiry := Expiry(db, user, target, now, ttl);
    Attempt(session, user, target, PARTIAL_STAGES - {target}, now, expiry.0, Some(expiry.1), token, verified)
  }

  /** `promoteSessionToBackupCodesStep`: only from the enrolment stage. */
  function ToBackupCodes(session: SessionId, user: UserId, now: nat, token: Token): Attempt {
    Attempt(session, user, BackupCodesRequired, {EnrollmentRequired}, now, now + BACKUP_CODES_STEP_TTL_MS, None,
            token, false)
  }

  /** The condition of the update. */
  predicate Eligible(s: Session, a: Attempt) {
    s.user == a.user && s.revokedAt.None? && s.expiresAt > a.now && s.stage in a.sources
  }

  /** The row the update writes. */
  function Advanced(s: Session, a: Attempt): Session {
    s.(stage := a.target, tokenHash := HashOf(a.token), expiresAt := a.expiresAt,
       rememberMe := if a.rememberMe.Some? then a.rememberMe.value else s.rememberMe,
       lastSeen := a.now, mfaVerifiedAt := if a.verified then Some(a.now) else s.mfaVerifiedAt)
  }

  predicate Succeeds(db: Db, a: Attempt) {
    a.session in db.sessions && Eligible(db.sessions[a.session], a)
  }

  function Promote(db: Db, a: Attempt): Db {
    if Succeeds(db, a) then db.(sessions := db.sessions[a.session := Advanced(db.sessions[a.session], a)]) else db
  }

  // ---------------------------------------------------------------------------------------------- the cookie

  /** `persistentCookieMaxAgeSeconds`: None keeps a cookie of the browser session. */
  function CookieMaxAge(s: Session, now: nat): Option<nat> {
    if !s.rememberMe || !s.stage.Full? then None
    else Some(if s.expiresAt <= now then 0 else (s.expiresAt - now) / 1000)
  }

  /** The lifetime `promoteSessionToFull` returns for the cookie, worked out from the event day's end. */
  function PromotedCookieMaxAge(db: Db, user: UserId, target: Stage, now: nat): Option<int> {
    if !target.Full? then None
    else match EventDayEnd(db, user, now)
      case Some(end) => Some((end - now) / 1000)
      case None => None
  }

  /** `eventDayWindow` never ends a session before the window is over. */
  predicate WindowsHold(db: Db) {
    forall e :: e in db.events && e.window.Some? ==> e.window.value.end <= e.window.value.sessionEnd
  }

  lemma EndIsAhead(db: Db, user: UserId, now: nat)
    requires WindowsHold(db)
    ensures EventDayEnd(db, user, now).Some? ==> EventDayEnd(db, user, now).value > now
  {
    LatestEndIsTheMaximum(db, user, db.events, now);
  }

  /** A persistent cookie does not outlive its session, falls short of it by less than a second, and is given exactly to
      full event-day sessions. */
  lemma CookieEndsWithSession(s: Session, now: nat)
    requires now < s.expiresAt
    ensures CookieMaxAge(s, now).Some? <==> s.rememberMe && s.stage.Full?
    ensures CookieMaxAge(s, now).Some? ==>
              now + CookieMaxAge(s, now).value * 1000 <= s.expiresAt < now + CookieMaxAge(s, now).value * 1000 + 1000
  {
  }

  /** A promotion and a look at the row it wrote give the cookie the same lifetime. */
  lemma PromotionAndRowAgreeOnCookie(db: Db, session: SessionId, user: UserId, now: nat, token: Token, row: Session)
    requires WindowsHold(db)
    ensures var a := ToFull(db, session, user, now, token, true); var fromRow := CookieMaxAge(Advanced(row, a), now);
            PromotedCookieMaxAge(db, user, a.target, now) == if fromRow.Some? then Some(fromRow.value) else None
  {
    EndIsAhead(db, user, now);
    hide EventDayEnd, FullTtl, PostMfaStage;
  }

  // ---------------------------------------------------------------------------------------------- revocation

  /** What a revocation is for: one session (logout), the other sessions of a user (password change), or all of them. */
  datatype Whom = One(session: SessionId) | OthersOf(user: UserId, keep: SessionId) | AllOf(user: UserId)

  predicate Hits(whom: Whom, sid: SessionId, s: Session) {
    match whom
    case One(session) => sid == session
    case OthersOf(user, keep) => s.user == user && sid != keep
    case AllOf(user) => s.user == user
  }

  /** The tables with every session revoked at `now` that `whom` hits and that was not revoked yet. */
  function Revoke(db: Db, whom: Whom, now: nat): Db {
    db.(sessions := map sid | sid in db.sessions ::
          if Hits(whom, sid, db.sessions[sid]) then RevokedAt(db.sessions[sid], now) else db.sessions[sid])
  }
}
