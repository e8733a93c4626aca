/** Dead stays dead, and life is bounded. */
module SessionLife {
  import opened Options
  import opened Roles
  import opened SessionModel
  import opened SessionRuns

  // ---------------------------------------------------------------------------------------------- dead stays dead

  /** Promotions in flight that can take the row on, one after the other, to an expiry that is still ahead. */
  predicate Revivable(row: Session, attempts: map<nat, Attempt>, sid: SessionId, now: nat)
    decreases |attempts|
  {
    exists aid :: aid in attempts && attempts[aid].session == sid && Eligible(row, attempts[aid])
                  && (|| attempts[aid].expiresAt > now
                      || Revivable(Advanced(row, attempts[aid]), attempts - {aid}, sid, now))
  }

  /** Revoked, or expired with no promotions in flight that can bring it back. */
  predicate Gone(s: State, sid: SessionId)
    requires sid in s.db.sessions
  {
    var row := s.db.sessions[sid];
    row.revokedAt.Some? || (row.expiresAt <= s.now && !Revivable(row, s.attempts, sid, s.now))
  }

  /** Promotions planned from now on, and the passing of time, make no expired row revivable. */
  lemma {:induction false} NeverMoreRevivable(row: Session, row': Session, before: map<nat, Attempt>,
                                              after: map<nat, Attempt>,
                                              sid: SessionId, now: nat, now': nat)
    requires row.expiresAt <= now <= now' && Revivable(row', after, sid, now')
    requires (row'.user, row'.stage, row'.expiresAt, row'.revokedAt)
             == (row.user, row.stage, row.expiresAt, row.revokedAt)
    requires forall aid :: aid in after ==> (aid in before && after[aid] == before[aid]) || after[aid].now >= now
    ensures Revivable(row, before, sid, now)
    decreases |after|
  {
    var aid :| aid in after && after[aid].session == sid && Eligible(row', after[aid])
               && (after[aid].expiresAt > now' || Revivable(Advanced(row', after[aid]), after - {aid}, sid, now'));
    var a := before[aid];
    assert Eligible(row, a);
    if a.expiresAt <= now {
      NeverMoreRevivable(Advanced(row, a), Advanced(row', a), before - {aid}, after - {aid}, sid, now, now');
    }
  }

  lemma GoneHolds(s: State, step: Step, sid: SessionId)
    requires Apply(s, step).Some? && sid in s.db.sessions && Gone(s, sid)
    ensures sid in Apply(s, step).value.db.sessions && Gone(Apply(s, step).value, sid)
  {
    var s' := Apply(s, step).value;
    var row := s.db.sessions[sid];
    StepRows(s, step, sid);
    if row.revokedAt.None? && s'.db.sessions[sid].revokedAt.None?
        && Revivable(s'.db.sessions[sid], s'.attempts, sid, s'.now) {
      if step.Write? && s.attempts[step.attempt].session == sid && Eligible(row, s.attempts[step.attempt]) {
        assert false;
      } else {
        ExpiredRowStays(s, step, sid);
        forall aid | aid in s'.attempts
          ensures (aid in s.attempts && s'.attempts[aid] == s.attempts[aid]) || s'.attempts[aid].now >= s.now
        {
          StepAttempts(s, step, aid);
        }
        NeverMoreRevivable(row, s'.db.sessions[sid], s.attempts, s'.attempts, sid, s.now, s'.now);
      }
    }
  }

  /** Nothing but a promotion of it and a revocation changes an expired row. */
  lemma ExpiredRowStays(s: State, step: Step, sid: SessionId)
    requires Apply(s, step).Some? && sid in s.db.sessions && s.db.sessions[sid].expiresAt <= s.now
    requires !(step.Write? && s.attempts[step.attempt].session == sid
               && Eligible(s.db.sessions[sid], s.attempts[step.attempt]))
    ensures sid in Apply(s, step).value.db.sessions
    ensures var row' := Apply(s, step).value.db.sessions[sid];
            row' == s.db.sessions[sid] || (row'.revokedAt.Some? && s.db.sessions[sid].revokedAt.None?)
  {
    if !Promotes(step) {
      QuietStep(s, step);
      StepRows(s, step, sid);
    }
  }

  lemma {:induction false} GoneForGood(s: State, run: seq<Step>, sid: SessionId)
    requires Exec(s, run).Some? && sid in s.db.sessions && Gone(s, sid)
    ensures sid in Exec(s, run).value.db.sessions && Gone(Exec(s, run).value, sid)
    decreases run
  {
    hide Apply, Gone;
    if run != [] {
      GoneHolds(s, run[0], sid);
      GoneForGood(Apply(s, run[0]).value, run[1..], sid);
    }
  }

  /** No run from here ends with the session accepted. */
  ghost predicate RefusedForGood(s: State, sid: SessionId) {
    forall run :: Exec(s, run).Some? && sid in Exec(s, run).value.db.sessions ==>
      Judge(Exec(s, run).value.db, Exec(s, run).value.db.sessions[sid], Exec(s, run).value.now) == Refused
  }

  /** The account is active and nothing is ever idle. */
  function Welcoming(s: State, user: UserId): seq<Step> {
    [SetUser(user, User(true, false, map[])),
     SetSettings(s.db.settings.(idleAdmin := s.now + 1, idleOperator := s.now + 1))]
  }

  lemma WelcomeIsAccepted(s: State, sid: SessionId)
    requires sid in s.db.sessions && s.db.sessions[sid].revokedAt.None? && s.db.sessions[sid].expiresAt > s.now
    ensures var run := Welcoming(s, s.db.sessions[sid].user);
            && Exec(s, run).Some? && sid in Exec(s, run).value.db.sessions
            && Exec(s, run).value.db.sessions[sid] == s.db.sessions[sid]
            && Judge(Exec(s, run).value.db, s.db.sessions[sid], Exec(s, run).value.now).Accepted?
  {
    var run := Welcoming(s, s.db.sessions[sid].user);
    var s1 := Apply(s, run[0]).value;
    var s2 := Apply(s1, run[1]).value;
    TraceRuns([s, s1, s2], run);
  }

  /** What can still come back does so in the run returned. */
  lemma {:induction false} BroughtBack(s: State, sid: SessionId) returns (run: seq<Step>)
    requires sid in s.db.sessions && !Gone(s, sid)
    ensures Exec(s, run).Some? && sid in Exec(s, run).value.db.sessions
    ensures Judge(Exec(s, run).value.db, Exec(s, run).value.db.sessions[sid], Exec(s, run).value.now).Accepted?
    decreases |s.attempts|
  {
    var row := s.db.sessions[sid];
    if row.expiresAt > s.now {
      run := Welcoming(s, row.user);
      WelcomeIsAccepted(s, sid);
    } else {
      var aid :| aid in s.attempts && s.attempts[aid].session == sid && Eligible(row, s.attempts[aid])
                 && (s.attempts[aid].expiresAt > s.now
                     || Revivable(Advanced(row, s.attempts[aid]), s.attempts - {aid}, sid, s.now));
      var more := BroughtBack(Written(s, aid), sid);
      run := [Write(aid)] + more;
      assert run[0] == Write(aid) && run[1..] == more;
    }
  }

  /** Whatever settings change and whatever step follows: a session is refused in every later state exactly when it is
      revoked, or expired with no promotions in flight that can bring it back. */
  lemma {:induction false} DeadStaysDead(s: State, sid: SessionId)
    requires sid in s.db.sessions
    ensures Gone(s, sid) <==> RefusedForGood(s, sid)
  {
    if Gone(s, sid) {
      forall run | Exec(s, run).Some? && sid in Exec(s, run).value.db.sessions
        ensures Judge(Exec(s, run).value.db, Exec(s, run).value.db.sessions[sid], Exec(s, run).value.now) == Refused
      {
        GoneForGood(s, run, sid);
      }
    } else {
      var run := BroughtBack(s, sid);
    }
  }

  /** A session that a request catches idle is gone from then on. */
  lemma CaughtIdleIsGone(s: State, sid: SessionId)
    requires sid in s.db.sessions && Judge(s.db, s.db.sessions[sid], s.now).CaughtIdle?
    ensures Apply(s, Use(sid)).Some? && Gone(Apply(s, Use(sid)).value, sid)
  {
  }

  /** Exactly when an expired session comes back in one step: a promotion of it that read the clock in time writes now,
      with an expiry that is still ahead. */
  lemma WhenTheDeadReturn(s: State, step: Step, sid: SessionId)
    requires Apply(s, step).Some? && sid in s.db.sessions && s.db.sessions[sid].expiresAt <= s.now
    ensures var s' := Apply(s, step).value;
            sid in s'.db.sessions
            && ((s'.db.sessions[sid].revokedAt.None? && s'.db.sessions[sid].expiresAt > s'.now) <==>
                (&& step.Write? && step.attempt in s.attempts && s.attempts[step.attempt].session == sid
                 && Eligible(s.db.sessions[sid], s.attempts[step.attempt])
                 && s.attempts[step.attempt].expiresAt > s.now))
  {
    if !Promotes(step) {
      QuietStep(s, step);
      StepRows(s, step, sid);
    }
  }

  // ---------------------------------------------------------------------------------------------- life is bounded

  function Rank(stage: Stage): nat {
    match stage
    case MfaPending => 0
    case EnrollmentRequired => 0
    case BackupCodesRequired => 1
    case ChangePasswordRequired => 2
    case Full => 3
  }

  /** How long after its creation a session in this partial stage can last at most. */
  function Budget(stage: Stage): nat {
    match stage
    case MfaPending => MFA_PENDING_SESSION_TTL_MS
    case EnrollmentRequired => MFA_PENDING_SESSION_TTL_MS
    case BackupCodesRequired => MFA_PENDING_SESSION_TTL_MS + BACKUP_CODES_STEP_TTL_MS
    case _ => MFA_PENDING_SESSION_TTL_MS + BACKUP_CODES_STEP_TTL_MS + MFA_PENDING_SESSION_TTL_MS
  }

  /** What the tables of a run hold: a bound on both role TTLs, and the event-day windows. */
  datatype Limits = Limits(ttl: nat, windows: set<Window>)

  predicate Limited(db: Db, limits: Limits) {
    && db.settings.ttlAdmin <= limits.ttl && db.settings.ttlOperator <= limits.ttl
    && (forall e :: e in db.events && e.window.Some? ==> e.window.value in limits.windows)
  }

  /** The end of a full session that became full at `since` at the latest: without the event-day mark within the role
      TTL, with it the very session end of an event whose window was open by then. */
  predicate EndsInTime(expiresAt: nat, eventDay: bool, since: nat, limits: Limits) {
    if eventDay then exists w :: w in limits.windows && w.start <= since && expiresAt == w.sessionEnd
    else expiresAt <= since + limits.ttl
  }

  /** The tables stay within the limits, and no promotion leads from the password step back to the backup codes. */
  predicate Forward(s: State, step: Step, limits: Limits) {
    && (Apply(s, step).Some? ==> Limited(Apply(s, step).value.db, limits))
    && (step.Write? && step.attempt in s.attempts && Succeeds(s.db, s.attempts[step.attempt]) ==>
          !(s.db.sessions[s.attempts[step.attempt].session].stage.ChangePasswordRequired?
            && s.attempts[step.attempt].target.BackupCodesRequired?))
  }

  lemma ExpiryIsLimited(db: Db, user: UserId, stage: Stage, now: nat, partialTtl: nat, limits: Limits)
    requires Limited(db, limits)
    ensures var expiry := Expiry(db, user, stage, now, partialTtl);
            if stage.Full? then EndsInTime(expiry.0, expiry.1, now, limits) else expiry == (now + partialTtl, false)
  {
    LatestEndIsTheMaximum(db, user, db.events, now);
  }

  /** What an attempt grants at most, counted from the moment it read the clock. */
  predicate GrantOk(a: Attempt, limits: Limits) {
    && AttemptShape(a)
    && (match a.target
        case Full => a.rememberMe.Some? && EndsInTime(a.expiresAt, a.rememberMe.value, a.now, limits)
        case BackupCodesRequired => a.expiresAt <= a.now + BACKUP_CODES_STEP_TTL_MS
        case _ => a.expiresAt <= a.now + MFA_PENDING_SESSION_TTL_MS)
  }

  /** A partial session ends within the budget of its stage; a full one began within the budget of the others. */
  predicate RowOk(row: Session, limits: Limits) {
    if row.stage.Full? then EndsInTime(row.expiresAt, row.rememberMe, row.createdAt + Budget(Full), limits)
    else row.expiresAt <= row.createdAt + Budget(row.stage)
  }

  predicate LifeOk(s: State, sid: SessionId, limits: Limits)
    requires sid in s.db.sessions
  {
    && RowOk(s.db.sessions[sid], limits)
    && sid in s.issued && 1 <= |s.issued[sid]| <= 1 + Rank(s.db.sessions[sid].stage)
  }

  predicate LifeInv(s: State, limits: Limits) {
    && Limited(s.db, limits)
    && (forall aid :: aid in s.attempts ==> GrantOk(s.attempts[aid], limits))
    && (forall sid :: sid in s.db.sessions ==> LifeOk(s, sid, limits))
  }

  lemma PlanIsLimited(s: State, sid: SessionId, user: UserId, reason: Reason, token: Token, limits: Limits)
    requires Limited(s.db, limits)
    ensures GrantOk(Planned(s, sid, user, reason, token), limits)
  {
    var a := Planned(s, sid, user, reason, token);
    if !reason.Enrolled? {
      assert MfaPending in a.sources;
      var ttl := if a.target.BackupCodesRequired? then BACKUP_CODES_STEP_TTL_MS else MFA_PENDING_SESSION_TTL_MS;
      ExpiryIsLimited(s.db, user, a.target, s.now, ttl, limits);
      hide Expiry, Limited;
    }
  }

  lemma AdvanceIsLimited(row: Session, a: Attempt, limits: Limits)
    requires GrantOk(a, limits) && Eligible(row, a) && RowOk(row, limits)
    requires !(row.stage.ChangePasswordRequired? && a.target.BackupCodesRequired?)
    ensures RowOk(Advanced(row, a), limits) && Rank(row.stage) < Rank(a.target)
  {
  }

  lemma WriteLife(s: State, aid: nat, limits: Limits)
    requires LifeInv(s, limits) && aid in s.attempts && Forward(s, Write(aid), limits)
    ensures LifeInv(Written(s, aid), limits)
  {
    var s' := Written(s, aid);
    var a := s.attempts[aid];
    hide Forward, Limited, Budget, Rank;
    assert Limited(s'.db, limits) && s'.db.settings == s.db.settings by { ForwardLimited(s, Write(aid), limits); }
    if Succeeds(s.db, a) {
      assert LifeOk(s, a.session, limits);
      ForwardOnly(s, aid, limits);
      AdvanceIsLimited(s.db.sessions[a.session], a, limits);
    }
    forall sid | sid in s'.db.sessions ensures LifeOk(s', sid, limits) { assert LifeOk(s, sid, limits); }
  }

  lemma ForwardLimited(s: State, step: Step, limits: Limits)
    requires Forward(s, step, limits) && Apply(s, step).Some?
    ensures Limited(Apply(s, step).value.db, limits)
  {
  }

  lemma ForwardOnly(s: State, aid: nat, limits: Limits)
    requires Forward(s, Write(aid), limits) && aid in s.attempts && Succeeds(s.db, s.attempts[aid])
    ensures !(s.db.sessions[s.attempts[aid].session].stage.ChangePasswordRequired?
              && s.attempts[aid].target.BackupCodesRequired?)
  {
  }

  lemma StepLife(s: State, step: Step, limits: Limits)
    requires LifeInv(s, limits) && Apply(s, step).Some? && Forward(s, step, limits)
    ensures LifeInv(Apply(s, step).value, limits)
  {
    var s' := Apply(s, step).value;
    ForwardLimited(s, step, limits);
    hide Forward, Limited;
    if !Promotes(step) {
      hide Apply;
      QuietStep(s, step);
      forall sid | sid in s'.db.sessions ensures LifeOk(s', sid, limits) { assert LifeOk(s, sid, limits); }
    } else if step.Start? {
      var stage := s'.db.sessions[step.session].stage;
      ExpiryIsLimited(s.db, step.user, stage, s.now, MFA_PENDING_SESSION_TTL_MS, limits);
      hide Expiry;
      forall sid | sid in s.db.sessions ensures LifeOk(s', sid, limits) { assert LifeOk(s, sid, limits); }
    } else if step.Plan? {
      PlanIsLimited(s, step.session, step.user, step.reason, step.token, limits);
      hide GrantOk;
    } else {
      WriteLife(s, step.attempt, limits);
    }
  }

  lemma {:induction false} LifeRun(s: State, run: seq<Step>, limits: Limits)
    requires LifeInv(s, limits) && Exec(s, run).Some? && Along(s, run, (s, step) => Forward(s, step, limits))
    ensures LifeInv(Exec(s, run).value, limits)
    decreases run
  {
    hide LifeInv, Apply, Forward;
    if run != [] {
      StepLife(s, run[0], limits);
      LifeRun(Apply(s, run[0]).value, run[1..], limits);
    }
  }

  /** A session changes stage at most three times. It spends at most 15 + 10 + 15 minutes on the way to full, and then
      ends with the event whose day it was made full on, or within the role TTL. */
  lemma {:induction false} LifeIsBounded(s0: State, run: seq<Step>, limits: Limits, sid: SessionId)
    requires Init(s0) && Limited(s0.db, limits) && Exec(s0, run).Some?
    requires Along(s0, run, (s, step) => Forward(s, step, limits))
    requires sid in Exec(s0, run).value.db.sessions
    ensures var s := Exec(s0, run).value;
            && sid in s.issued && |s.issued[sid]| - 1 <= 3
            && var row := s.db.sessions[sid]; var steps := (15 + 10 + 15) * 60 * 1000;
            if row.stage.Full? then EndsInTime(row.expiresAt, row.rememberMe, row.createdAt + steps, limits)
            else row.expiresAt <= row.createdAt + steps
  {
    LifeRun(s0, run, limits);
    assert LifeOk(Exec(s0, run).value, sid, limits);
  }

  // ---------------------------------------------------------------------------------------------- when it goes forward

  /** The tables stay within the limits, a promotion writes what it would read now, and nobody who waits at the password
      step comes to owe backup codes. */
  predicate Calm(s: State, step: Step, limits: Limits) {
    && (Apply(s, step).Some? ==> Limited(Apply(s, step).value.db, limits))
    && (step.Write? && step.attempt in s.attempts ==>
          || IsEnrolment(s.attempts[step.attempt])
          || s.attempts[step.attempt].target == PostMfaStage(s.db, s.attempts[step.attempt].user))
    && (step.SetUser? && Apply(s, step).Some? && OwesCodes(Apply(s, step).value.db, step.user) ==>
          forall sid :: sid in s.db.sessions && s.db.sessions[sid].user == step.user ==> !Waiting(s.db.sessions[sid]))
  }

  predicate Waiting(row: Session) {
    row.stage.ChangePasswordRequired? && row.revokedAt.None?
  }

  /** A session that waits at the password step owes no backup codes. */
  predicate CodesFirst(s: State) {
    forall sid :: sid in s.db.sessions && Waiting(s.db.sessions[sid]) ==> !OwesCodes(s.db, s.db.sessions[sid].user)
  }

  lemma OwesDependsOnUser(db: Db, db': Db, user: UserId)
    requires (user in db.users <==> user in db'.users) && (user in db.users ==> db'.users[user] == db.users[user])
    ensures OwesCodes(db, user) == OwesCodes(db', user)
  {
    if user in db.users { assert db.users[user].methods == db'.users[user].methods; }
  }

  lemma CalmStep(s: State, step: Step, limits: Limits)
    requires Shapes(s) && CodesFirst(s) && Apply(s, step).Some? && Calm(s, step, limits)
    ensures CodesFirst(Apply(s, step).value) && Forward(s, step, limits)
  {
    var s' := Apply(s, step).value;
    CalmGoesForward(s, step, limits);
    forall sid | sid in s'.db.sessions && Waiting(s'.db.sessions[sid])
        ensures !OwesCodes(s'.db, s'.db.sessions[sid].user) {
      CalmSession(s, step, limits, sid);
    }
  }

  lemma CalmGoesForward(s: State, step: Step, limits: Limits)
    requires Shapes(s) && CodesFirst(s) && Apply(s, step).Some? && Calm(s, step, limits)
    ensures Forward(s, step, limits)
  {
    hide Limited, Apply;
    if step.Write? && step.attempt in s.attempts && Succeeds(s.db, s.attempts[step.attempt]) {
      assert AttemptShape(s.attempts[step.attempt]);
      var row := s.db.sessions[s.attempts[step.attempt].session];
      assert Waiting(row) ==> !OwesCodes(s.db, row.user);
    }
  }

  lemma CalmSession(s: State, step: Step, limits: Limits, sid: SessionId)
    requires Shapes(s) && CodesFirst(s) && Apply(s, step).Some? && Calm(s, step, limits)
    requires sid in Apply(s, step).value.db.sessions && Waiting(Apply(s, step).value.db.sessions[sid])
    ensures !OwesCodes(Apply(s, step).value.db, Apply(s, step).value.db.sessions[sid].user)
  {
    hide Limited, Expiry, OwesCodes;
    var s' := Apply(s, step).value;
    var user := s'.db.sessions[sid].user;
    if !(step.SetUser? && step.user == user) { OwesDependsOnUser(s.db, s'.db, user); }
    if !Promotes(step) {
      QuietStep(s, step);
      StepRows(s, step, sid);
      assert Waiting(s.db.sessions[sid]);
    } else if step.Write? {
      assert AttemptShape(s.attempts[step.attempt]);
    }
  }

  lemma {:induction false} CalmRunsForward(s: State, run: seq<Step>, limits: Limits)
    requires Shapes(s) && CodesFirst(s) && Exec(s, run).Some? && Along(s, run, (s, step) => Calm(s, step, limits))
    ensures Along(s, run, (s, step) => Forward(s, step, limits))
    decreases run
  {
    hide Shapes, CodesFirst, Apply, Calm, Forward;
    if run != [] {
      StepShapes(s, run[0]);
      CalmStep(s, run[0], limits);
      CalmRunsForward(Apply(s, run[0]).value, run[1..], limits);
    }
  }

  /** The bound holds in particular when promotions are atomic and owed steps are only ever cleared. */
  lemma {:induction false} CalmLifeIsBounded(s0: State, run: seq<Step>, limits: Limits, sid: SessionId)
    requires Init(s0) && Limited(s0.db, limits) && Exec(s0, run).Some?
    requires Along(s0, run, (s, step) => Calm(s, step, limits))
    requires sid in Exec(s0, run).value.db.sessions
    ensures var s := Exec(s0, run).value;
            && sid in s.issued && |s.issued[sid]| - 1 <= 3
            && var row := s.db.sessions[sid]; var steps := (15 + 10 + 15) * 60 * 1000;
            if row.stage.Full? then EndsInTime(row.expiresAt, row.rememberMe, row.createdAt + steps, limits)
            else row.expiresAt <= row.createdAt + steps
  {
    CalmRunsForward(s0, run, limits);
    LifeIsBounded(s0, run, limits, sid);
  }
}
