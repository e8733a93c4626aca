/** No full access without proof, and the read-only twin of session validation. */
module SessionProofs {
  import opened Options
  import opened Roles
  import opened SessionModel
  import opened SessionRuns
  import opened SessionRules

  // ---------------------------------------------------------------------------------------------- the earliest role

  predicate Required(db: Db, g: Grant, user: UserId) {
    g.user == user && g.role in db.settings.requiredRoles
  }

  lemma {:induction false} EarliestIsTheMinimum(grants: seq<Grant>, user: UserId, required: set<Role>)
    ensures var first := EarliestRequired(grants, user, required);
            && (first.None? <==> forall g :: g in grants && g.user == user ==> g.role !in required)
            && (first.Some? ==>
                  exists g :: g in grants && g.user == user && g.role in required && g.createdAt == first.value)
            && (forall g :: g in grants && g.user == user && g.role in required ==>
                first.Some? && first.value <= g.createdAt)
    decreases grants
  {
    if grants != [] {
      EarliestIsTheMinimum(grants[1..], user, required);
      assert forall g :: g in grants <==> g == grants[0] || g in grants[1..];
    }
  }

  // ---------------------------------------------------------------------------------------------- the invariant

  /** Every assignment of a role that requires MFA was made when the session was already there. */
  predicate GrantedAfter(db: Db, row: Session) {
    forall g :: g in db.grants && Required(db, g, row.user) ==> row.createdAt <= g.createdAt
  }

  /** A local session for which no proof was given waits at one of the first two stages, or predates its user's duty. */
  predicate ProofOk(s: State, sid: SessionId)
    requires sid in s.db.sessions
  {
    var row := s.db.sessions[sid];
    && row.createdAt <= s.now
    && (row.auth.Local? && sid !in s.proofs ==>
          row.stage.MfaPending? || row.stage.EnrollmentRequired? || GrantedAfter(s.db, row))
  }

  /** A promotion that carries no proof is for a session that is past the first two stages. */
  predicate PastMfa(s: State, a: Attempt) {
    a.verified || IsEnrolment(a)
    || (&& a.session in s.db.sessions
        && !s.db.sessions[a.session].stage.MfaPending? && !s.db.sessions[a.session].stage.EnrollmentRequired?)
  }

  predicate ProofInv(s: State) {
    && (forall g :: g in s.db.grants ==> g.createdAt <= s.now)
    && (forall sid :: sid in s.db.sessions ==> ProofOk(s, sid))
    && (forall aid :: aid in s.attempts ==> PastMfa(s, s.attempts[aid]))
  }

  /** The required roles stay what they are. */
  predicate SameRoles(s: State, step: Step) {
    step.SetSettings? ==> step.settings.requiredRoles == s.db.settings.requiredRoles
  }

  lemma StepGrants(s: State, step: Step)
    requires ProofInv(s) && Apply(s, step).Some? && SameRoles(s, step)
    ensures var s' := Apply(s, step).value;
            && s'.db.settings.requiredRoles == s.db.settings.requiredRoles
            && (forall g :: g in s'.db.grants ==> g.createdAt <= s'.now)
            && (forall g :: g in s'.db.grants ==> g in s.db.grants || g.createdAt == s.now)
  {
  }

  lemma GrantedAfterStays(s: State, step: Step, row: Session)
    requires ProofInv(s) && Apply(s, step).Some? && SameRoles(s, step) && GrantedAfter(s.db, row)
             && row.createdAt <= s.now
    ensures GrantedAfter(Apply(s, step).value.db, row)
  {
    StepGrants(s, step);
    hide Apply, ProofInv;
  }

  lemma StartProofOk(s: State, step: Step)
    requires ProofInv(s) && step.Start? && Apply(s, step).Some?
    ensures ProofOk(Apply(s, step).value, step.session)
  {
    hide Expiry, PostMfaStage;
    if !RequiresMfa(s.db, step.user) {
      assert forall g :: g in s.db.grants ==> !Required(s.db, g, step.user);
    }
  }

  lemma WriteProofOk(s: State, aid: nat)
    requires ProofInv(s) && Shapes(s) && aid in s.attempts && Succeeds(s.db, s.attempts[aid])
    ensures ProofOk(Written(s, aid), s.attempts[aid].session)
  {
    var a := s.attempts[aid];
    assert PastMfa(s, a) && AttemptShape(a) && ProofOk(s, a.session);
    assert GrantedAfter(s.db, s.db.sessions[a.session]) ==>
           GrantedAfter(Written(s, aid).db, Advanced(s.db.sessions[a.session], a));
  }

  lemma StepProof(s: State, step: Step, sid: SessionId)
    requires ProofInv(s) && Shapes(s) && Apply(s, step).Some? && SameRoles(s, step)
             && sid in Apply(s, step).value.db.sessions
    ensures ProofOk(Apply(s, step).value, sid)
  {
    var s' := Apply(s, step).value;
    if step.Start? && step.session == sid {
      StartProofOk(s, step);
    } else if step.Write? && Succeeds(s.db, s.attempts[step.attempt]) && s.attempts[step.attempt].session == sid {
      WriteProofOk(s, step.attempt);
    } else {
      assert sid in s.db.sessions && ProofOk(s, sid);
      var row := s.db.sessions[sid];
      if GrantedAfter(s.db, row) { GrantedAfterStays(s, step, row); }
      assert s.now <= s'.now && (sid in s'.proofs <==> sid in s.proofs);
      assert s'.db.sessions[sid] == row.(lastSeen := s'.db.sessions[sid].lastSeen,
                                         revokedAt := s'.db.sessions[sid].revokedAt) by {
        if !Promotes(step) { QuietStep(s, step); }
      }
      assert GrantedAfter(s'.db, row) ==> GrantedAfter(s'.db, s'.db.sessions[sid]);
    }
  }

  lemma StepPastMfa(s: State, step: Step, aid: nat)
    requires ProofInv(s) && Shapes(s) && Apply(s, step).Some? && aid in Apply(s, step).value.attempts
    ensures PastMfa(Apply(s, step).value, Apply(s, step).value.attempts[aid])
  {
    var s' := Apply(s, step).value;
    hide Apply, ProofOk;
    StepAttempts(s, step, aid);
    var a := s'.attempts[aid];
    if !a.verified && !IsEnrolment(a) && aid in s.attempts && s.attempts[aid] == a {
      assert PastMfa(s, a);
      StepRows(s, step, a.session);
      assert forall bid :: bid in s.attempts ==> AttemptShape(s.attempts[bid]);
    }
  }

  lemma StepProofInv(s: State, step: Step)
    requires ProofInv(s) && Shapes(s) && Apply(s, step).Some? && SameRoles(s, step)
    ensures ProofInv(Apply(s, step).value)
  {
    var s' := Apply(s, step).value;
    StepGrants(s, step);
    hide Apply, ProofOk, PastMfa;
    forall sid | sid in s'.db.sessions ensures ProofOk(s', sid) { StepProof(s, step, sid); }
    forall aid | aid in s'.attempts ensures PastMfa(s', s'.attempts[aid]) { StepPastMfa(s, step, aid); }
  }

  lemma {:induction false} ProofRun(s: State, run: seq<Step>)
    requires ProofInv(s) && Shapes(s) && Exec(s, run).Some? && Along(s, run, SameRoles)
    ensures ProofInv(Exec(s, run).value)
    decreases run
  {
    hide ProofInv, Shapes, Apply, SameRoles;
    if run != [] {
      StepProofInv(s, run[0]);
      StepShapes(s, run[0]);
      ProofRun(Apply(s, run[0]).value, run[1..]);
    }
  }

  // ---------------------------------------------------------------------------------------------- the theorem

  /** In every run with the required roles fixed: a local session of a user who needs MFA now, for which the run holds
      no verified code or assertion, confirmed enrolment, trusted device or passkey login, is accepted by
      `validateSession` exactly when the earliest of the user's required roles was assigned in the very millisecond the
      session was made (and the user has by now confirmed a method and owes no codes). */
  lemma {:induction false} NoAccessWithoutProof(s0: State, run: seq<Step>, sid: SessionId, now: nat)
    requires Init(s0) && Exec(s0, run).Some? && Along(s0, run, SameRoles)
    requires var s := Exec(s0, run).value;
             sid in s.db.sessions && sid !in s.proofs && s.db.sessions[sid].auth.Local?
             && RequiresMfa(s.db, s.db.sessions[sid].user)
    ensures var s := Exec(s0, run).value; var row := s.db.sessions[sid];
            Validates(s.db, row, now) <==>
              (&& Judge(s.db, row, now).Accepted? && row.stage.Full?
               && HasConfirmedMethod(s.db, row.user) && !OwesCodes(s.db, row.user)
               && EarliestRequired(s.db.grants, row.user, s.db.settings.requiredRoles) == Some(row.createdAt))
  {
    ProofRun(s0, run);
    var s := Exec(s0, run).value;
    var row := s.db.sessions[sid];
    EarliestIsTheMinimum(s.db.grants, row.user, s.db.settings.requiredRoles);
    hide Exec, Along, Judge;
    assert ProofOk(s, sid);
    assert forall g :: g in s.db.grants ==>
             (Required(s.db, g, row.user) <==> g.user == row.user && g.role in s.db.settings.requiredRoles);
  }

  // ---------------------------------------------------------------------------------------------- the read-only twin

  /** On the same tables and at the same time the stream's check and `validateSession` agree on every full session. */
  lemma TwinAgrees(db: Db, sid: SessionId, now: nat)
    requires sid in db.sessions && db.sessions[sid].stage.Full?
    ensures Active(db, db.sessions[sid].user) && StillValid(db, sid, now) <==> Validates(db, db.sessions[sid], now)
  {
    hide MfaPolicy, IdleTimeout;
  }

  /** Nothing the run does uses the session, or changes who its user is and which windows apply. */
  predicate OnlyWatched(s: State, step: Step, sid: SessionId) {
    && step != Use(sid) && !step.AddGrant? && !step.DropGrant? && !step.SetSettings?
  }

  /** Heartbeats only read: in a run that never uses the session its last use stays where it was, so once that is too
      long ago the stream is closed: for an administrator after the administrators' window, for everyone else after the
      operators', and on an event-day session, while the switch is on, never. */
  lemma {:induction false} HeartbeatsDoNotKeepAlive(s: State, run: seq<Step>, sid: SessionId)
    requires Shapes(s) && Exec(s, run).Some? && Along(s, run, (s, step) => OnlyWatched(s, step, sid))
    requires sid in s.db.sessions && s.db.sessions[sid].stage.Full?
    ensures var s' := Exec(s, run).value; var row := s.db.sessions[sid];
            && sid in s'.db.sessions && s'.db.sessions[sid].lastSeen == row.lastSeen
            && (TooLongAgo(s.db, row, s'.now) ==> !StillValid(s'.db, sid, s'.now))
    decreases run
  {
    if run == [] {
      IdleIs(s.db, s.db.sessions[sid], s.now);
    } else {
      StepShapes(s, run[0]);
      StepSettles(s, run[0], sid);
      WatchedStep(s, run[0], sid);
      hide Apply, Shapes, Administers;
      HeartbeatsDoNotKeepAlive(Apply(s, run[0]).value, run[1..], sid);
    }
  }

  lemma WatchedStep(s: State, step: Step, sid: SessionId)
    requires Shapes(s) && Apply(s, step).Some? && OnlyWatched(s, step, sid) && sid in s.db.sessions
             && s.db.sessions[sid].stage.Full?
    ensures var s' := Apply(s, step).value; var row := s.db.sessions[sid];
            && sid in s'.db.sessions && s'.db.sessions[sid].lastSeen == row.lastSeen
            && s'.db.grants == s.db.grants && s'.db.settings == s.db.settings
  {
    var s' := Apply(s, step).value;
    if step.Write? { assert AttemptShape(s.attempts[step.attempt]); }
  }
}
