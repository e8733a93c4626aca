/** Runs of the session machine: sign-ins, promotions whose reads and write are apart, requests, revocations, and
    everything an administrator can change in between. */
module SessionRuns {
  import opened Options
  import opened Roles
  import opened SessionModel

  /** What a sign-in was made with. `Password(trusted)` is `login`, with a valid trusted-device cookie or not; `Bare` is
      `createSession` without a stage. */
  datatype SignIn = Password(trusted: bool) | Passkey | Sso | Bare

  /** Why a promotion is made: a code or assertion was verified, a method was confirmed, codes were acknowledged, the
      password was changed. */
  datatype Reason = Verified | Enrolled | Acknowledged | PasswordChanged

  datatype Proof = CodeOrAssertion | Enrolment | TrustedDevice | PasskeyLogin

  /** `issued` holds the raw tokens each session was answered with, `used` every token ever generated, `proofs` the last
      proof given for a session. */
  datatype State = State(
    now: nat,
    db: Db,
    attempts: map<nat, Attempt>,
    used: set<Token>,
    issued: map<SessionId, seq<Token>>,
    proofs: map<SessionId, Proof>)

  datatype Step =
    | Start(session: SessionId, user: UserId, how: SignIn, token: Token)
    | Plan(attempt: nat, session: SessionId, user: UserId, reason: Reason, token: Token)
    | Write(attempt: nat)
    | Use(session: SessionId)
    | Cut(whom: Whom)
    | Tick(delta: nat)
    | SetUser(user: UserId, row: User)
    | AddGrant(grant: Grant)
    | DropGrant(index: nat)
    | SetSettings(settings: Settings)
    | SetEvents(events: seq<Event>)

  function Explicit(db: Db, user: UserId, how: SignIn): Option<Stage> {
    match how
    case Password(trusted) => Some(LoginStage(db, user, trusted))
    case Passkey => Some(PostMfaStage(db, user))
    case Sso => Some(Full)
    case Bare => None
  }

  function Started(s: State, user: UserId, how: SignIn, token: Token): Session {
    NewSession(s.db, user, Explicit(s.db, user, how), if how.Sso? then Oidc else Local, s.now, token)
  }

  /** What a sign-in proves beyond the password. A trusted device is looked at only when MFA is due. */
  function StartProof(db: Db, user: UserId, how: SignIn): Option<Proof> {
    if how.Passkey? then Some(PasskeyLogin)
    else if how == Password(true) && RequiresMfa(db, user) && HasConfirmedMethod(db, user) then Some(TrustedDevice)
    else None
  }

  function Noted(proofs: map<SessionId, Proof>, sid: SessionId, proof: Option<Proof>): map<SessionId, Proof> {
    if proof.Some? then proofs[sid := proof.value] else proofs
  }

  /** What the handler of a promotion has checked: a stage for the two owed steps. */
  predicate Gate(db: Db, sid: SessionId, user: UserId, reason: Reason) {
    match reason
    case Verified => true
    case Enrolled => HasConfirmedMethod(db, user)
    case Acknowledged =>
      sid in db.sessions && db.sessions[sid].user == user && db.sessions[sid].stage.BackupCodesRequired?
    case PasswordChanged =>
      sid in db.sessions && db.sessions[sid].user == user && db.sessions[sid].stage.ChangePasswordRequired?
  }

  function Planned(s: State, sid: SessionId, user: UserId, reason: Reason, token: Token): Attempt {
    if reason.Enrolled? then ToBackupCodes(sid, user, s.now, token)
    else ToFull(s.db, sid, user, s.now, token, reason.Verified?)
  }

  predicate IsEnrolment(a: Attempt) {
    a.sources == {EnrollmentRequired}
  }

  function WriteProof(a: Attempt): Option<Proof> {
    if a.verified then Some(CodeOrAssertion) else if IsEnrolment(a) then Some(Enrolment) else None
  }

  /** The conditional update of an attempt; its token is given out when a row matched. */
  function Written(s: State, aid: nat): State
    requires aid in s.attempts
  {
    var a := s.attempts[aid];
    var s1 := s.(attempts := s.attempts - {aid});
    if !Succeeds(s.db, a) then s1
    else s1.(db := Promote(s.db, a),
             issued := s.issued[a.session := (if a.session in s.issued then s.issued[a.session] else []) + [a.token]],
             proofs := Noted(s.proofs, a.session, WriteProof(a)))
  }

  /** The state after one step, or None when the step cannot be taken. A session id is never given out twice. */
  function Apply(s: State, step: Step): Option<State> {
    match step
    case Start(sid, user, how, token) =>
      if sid in s.db.sessions || sid in s.issued || token in s.used || !Active(s.db, user) then None
      else Some(s.(db := s.db.(sessions := s.db.sessions[sid := Started(s, user, how, token)]),
                   used := s.used + {token}, issued := s.issued[sid := [token]],
                   proofs := Noted(s.proofs, sid, StartProof(s.db, user, how))))
    case Plan(aid, sid, user, reason, token) =>
      if aid in s.attempts || token in s.used || !Gate(s.db, sid, user, reason) then None
      else Some(s.(attempts := s.attempts[aid := Planned(s, sid, user, reason, token)], used := s.used + {token}))
    case Write(aid) => if aid in s.attempts then Some(Written(s, aid)) else None
    case Use(sid) =>
      if sid in s.db.sessions
      then Some(s.(db := s.db.(sessions := s.db.sessions[sid := Used(s.db, s.db.sessions[sid], s.now)]))) else None
    case Cut(whom) => Some(s.(db := Revoke(s.db, whom, s.now)))
    case Tick(delta) => Some(s.(now := s.now + delta))
    case SetUser(user, row) => Some(s.(db := s.db.(users := s.db.users[user := row])))
    case AddGrant(grant) => if grant.createdAt == s.now then Some(s.(db := s.db.(grants := s.db.grants + [grant])))
        else None
    case DropGrant(k) =>
      if k < |s.db.grants| then Some(s.(db := s.db.(grants := s.db.grants[..k] + s.db.grants[k + 1..]))) else None
    case SetSettings(settings) => Some(s.(db := s.db.(settings := settings)))
    case SetEvents(events) => Some(s.(db := s.db.(events := events)))
  }

  function Exec(s: State, run: seq<Step>): Option<State>
    decreases run
  {
    if run == [] then Some(s)
    else match Apply(s, run[0])
      case None => None
      case Some(s1) => Exec(s1, run[1..])
  }

  lemma {:induction false} ExecAppend(s: State, run: seq<Step>, more: seq<Step>)
    requires Exec(s, run).Some?
    ensures Exec(s, run + more) == Exec(Exec(s, run).value, more)
    decreases run
  {
    hide Apply;
    if run == [] {
      assert run + more == more;
    } else {
      assert (run + more)[0] == run[0] && (run + more)[1..] == run[1..] + more;
      ExecAppend(Apply(s, run[0]).value, run[1..], more);
    }
  }

  /** Each step leads from one state of the list to the next. */
  ghost predicate Trace(states: seq<State>, run: seq<Step>) {
    && |states| == |run| + 1
    && forall k :: 0 <= k < |run| ==> Apply(states[k], run[k]) == Some(states[k + 1])
  }

  lemma {:induction false} TraceRuns(states: seq<State>, run: seq<Step>)
    requires Trace(states, run)
    ensures Exec(states[0], run) == Some(states[|run|])
    decreases run
  {
    hide Apply;
    if run != [] {
      assert Trace(states[1..], run[1..]);
      TraceRuns(states[1..], run[1..]);
    }
  }

  /** Every step of the run meets `ok` in the state it is taken in. */
  ghost predicate Along(s: State, run: seq<Step>, ok: (State, Step) -> bool)
    decreases run
  {
    run == [] || (ok(s, run[0]) && (Apply(s, run[0]).Some? ==> Along(Apply(s, run[0]).value, run[1..], ok)))
  }

  /** Before the first sign-in; assignments were made in the past. */
  predicate Init(s: State) {
    && s.db.sessions == map[] && s.attempts == map[] && s.issued == map[] && s.proofs == map[]
    && (forall g :: g in s.db.grants ==> g.createdAt <= s.now)
  }

  // -------------------------------------------------------------------------------------------- what steps do to a row

  /** How one step can change the row of a session: not at all, by use, by revocation, or by a promotion. */
  ghost predicate RowStep(s: State, s': State, sid: SessionId)
    requires sid in s.db.sessions && sid in s'.db.sessions
  {
    var row, row' := s.db.sessions[sid], s'.db.sessions[sid];
    || row' == row
    || (row' == row.(lastSeen := s.now) && row.revokedAt.None?)
    || row' == RevokedAt(row, s.now)
    || (exists aid :: aid in s.attempts && s.attempts[aid].session == sid && Eligible(row, s.attempts[aid])
                      && row' == Advanced(row, s.attempts[aid]))
  }

  lemma StepRows(s: State, step: Step, sid: SessionId)
    requires Apply(s, step).Some? && sid in s.db.sessions
    ensures sid in Apply(s, step).value.db.sessions && RowStep(s, Apply(s, step).value, sid)
    ensures s.now <= Apply(s, step).value.now
  {
    var s' := Apply(s, step).value;
    match step
    case Start(_, _, _, _) =>
    case Plan(_, _, _, _, _) =>
    case Write(aid) =>
      var a := s.attempts[aid];
      if Succeeds(s.db, a) && a.session == sid {
        assert Eligible(s.db.sessions[sid], a) && s'.db.sessions[sid] == Advanced(s.db.sessions[sid], a);
      }
    case Use(_) =>
    case Cut(_) =>
    case Tick(_) =>
    case SetUser(_, _) =>
    case AddGrant(_) =>
    case DropGrant(_) =>
    case SetSettings(_) =>
    case SetEvents(_) =>
  }

  /** How the attempts in flight can change: one more, as planned in this state, or one less. */
  lemma StepAttempts(s: State, step: Step, aid: nat)
    requires Apply(s, step).Some? && aid in Apply(s, step).value.attempts
    ensures var s' := Apply(s, step).value;
            || (aid in s.attempts && s'.attempts[aid] == s.attempts[aid])
            || (&& step.Plan? && step.attempt == aid && Gate(s.db, step.session, step.user, step.reason)
                && step.token !in s.used && s'.db == s.db
                && s'.attempts[aid] == Planned(s, step.session, step.user, step.reason, step.token))
  {
  }

  /** A promotion never leads back to the first two stages, and its target is not among its sources. */
  predicate AttemptShape(a: Attempt) {
    && !a.target.MfaPending? && !a.target.EnrollmentRequired?
    && a.target !in a.sources && a.sources <= PARTIAL_STAGES
    && (IsEnrolment(a) ==> a.target.BackupCodesRequired?)
  }

  predicate Shapes(s: State) {
    forall aid :: aid in s.attempts ==> AttemptShape(s.attempts[aid])
  }

  lemma StepShapes(s: State, step: Step)
    requires Shapes(s) && Apply(s, step).Some?
    ensures Shapes(Apply(s, step).value)
  {
    var s' := Apply(s, step).value;
    forall aid | aid in s'.attempts ensures AttemptShape(s'.attempts[aid]) {
      StepAttempts(s, step, aid);
      if step.Plan? && !step.reason.Enrolled? {
        assert MfaPending in Planned(s, step.session, step.user, step.reason, step.token).sources;
      }
    }
  }

  // ---------------------------------------------------------------------------------------------- full is never left

  /** Once full, once revoked: what the row says then it says for good. */
  ghost predicate Settles(row: Session, row': Session) {
    && row'.user == row.user && row'.auth == row.auth && row'.createdAt == row.createdAt
    && (row.stage.Full? ==> row' == row.(lastSeen := row'.lastSeen, revokedAt := row'.revokedAt))
    && (row.revokedAt.Some? ==> row' == row)
  }

  lemma StepSettles(s: State, step: Step, sid: SessionId)
    requires Shapes(s) && Apply(s, step).Some? && sid in s.db.sessions
    ensures sid in Apply(s, step).value.db.sessions
    ensures Settles(s.db.sessions[sid], Apply(s, step).value.db.sessions[sid])
  {
    hide Apply;
    StepRows(s, step, sid);
    assert forall aid :: aid in s.attempts ==> AttemptShape(s.attempts[aid]);
  }

  /** In every run a full session stays full, under the same token and with the same expiry, and a revoked row stays
      exactly as it is. */
  lemma {:induction false} FullAndRevokedAreFinal(s: State, run: seq<Step>, sid: SessionId)
    requires Shapes(s) && Exec(s, run).Some? && sid in s.db.sessions
    ensures Shapes(Exec(s, run).value) && sid in Exec(s, run).value.db.sessions
    ensures Settles(s.db.sessions[sid], Exec(s, run).value.db.sessions[sid])
    decreases run
  {
    hide Apply;
    if run != [] {
      hide Shapes;
      StepShapes(s, run[0]);
      StepSettles(s, run[0], sid);
      FullAndRevokedAreFinal(Apply(s, run[0]).value, run[1..], sid);
    }
  }

  // ---------------------------------------------------------------------------------------------- racing promotions

  /** No promotion takes the session to another stage than `target`. */
  predicate OnlyTo(s: State, step: Step, sid: SessionId, target: Stage) {
    (step.Write? && step.attempt in s.attempts && s.attempts[step.attempt].session == sid
     && Succeeds(s.db, s.attempts[step.attempt])) ==> s.attempts[step.attempt].target == target
  }

  lemma {:induction false} StageStays(s: State, run: seq<Step>, sid: SessionId, target: Stage)
    requires Shapes(s) && Exec(s, run).Some? && sid in s.db.sessions && s.db.sessions[sid].stage == target
    requires target.Full? || Along(s, run, (s, step) => OnlyTo(s, step, sid, target))
    ensures Shapes(Exec(s, run).value)
    ensures sid in Exec(s, run).value.db.sessions && Exec(s, run).value.db.sessions[sid].stage == target
    decreases run
  {
    if run != [] {
      StepShapes(s, run[0]);
      StepSettles(s, run[0], sid);
      StageStep(s, run[0], sid, target);
      hide Apply, Shapes;
      StageStays(Apply(s, run[0]).value, run[1..], sid, target);
    }
  }

  lemma StageStep(s: State, step: Step, sid: SessionId, target: Stage)
    requires Shapes(s) && Apply(s, step).Some? && sid in s.db.sessions && s.db.sessions[sid].stage == target
    requires target.Full? || OnlyTo(s, step, sid, target)
    ensures sid in Apply(s, step).value.db.sessions && Apply(s, step).value.db.sessions[sid].stage == target
  {
    StepSettles(s, step, sid);
    if step.Write? { assert AttemptShape(s.attempts[step.attempt]); }
  }

  /** Of racing promotions that resolve the same target only one returns a token: after the one that succeeded, and as
      long as no other promotion has taken the session to yet another stage, every other one fails. For `full` there is
      no such condition. */
  lemma {:induction false} OneWinnerPerTarget(s: State, a: nat, more: seq<Step>, b: nat)
    requires Shapes(s) && a in s.attempts && Succeeds(s.db, s.attempts[a]) && b in s.attempts && a != b
    requires s.attempts[b].session == s.attempts[a].session && s.attempts[b].target == s.attempts[a].target
    requires Exec(Written(s, a), more).Some?
    requires s.attempts[a].target.Full?
             || Along(Written(s, a), more, (s', step) => OnlyTo(s', step, s.attempts[a].session, s.attempts[a].target))
    ensures !Succeeds(Exec(Written(s, a), more).value.db, s.attempts[b])
  {
    StepShapes(s, Write(a));
    StageStays(Written(s, a), more, s.attempts[a].session, s.attempts[a].target);
    assert AttemptShape(s.attempts[b]);
  }

  /** Exactly which step lets a promotion win although the session stands at its target: another promotion of the
      session that takes it from there to one of this one's sources, with an expiry after the time this one read. */
  lemma WhenTheLoserWins(s: State, step: Step, b: nat)
    requires Shapes(s) && Apply(s, step).Some? && b in s.attempts
    requires s.attempts[b].session in s.db.sessions
             && s.db.sessions[s.attempts[b].session].stage == s.attempts[b].target
    ensures var late := s.attempts[b];
            !Succeeds(s.db, late)
            && (Succeeds(Apply(s, step).value.db, late) <==>
                (&& step.Write? && step.attempt in s.attempts
                 && var c := s.attempts[step.attempt];
                 && c.session == late.session && Succeeds(s.db, c) && c.target in late.sources
                 && c.user == late.user && c.expiresAt > late.now))
  {
    assert AttemptShape(s.attempts[b]);
    if !Promotes(step) {
      hide Apply;
      QuietStep(s, step);
    }
  }

  predicate Promotes(step: Step) {
    step.Start? || step.Plan? || step.Write?
  }

  /** A step that neither creates nor promotes leaves every token, attempt and proof alone, and every stage and
      expiry. */
  lemma QuietStep(s: State, step: Step)
    requires Apply(s, step).Some? && !Promotes(step)
    ensures var s' := Apply(s, step).value;
            && s'.attempts == s.attempts && s'.used == s.used && s'.issued == s.issued && s'.proofs == s.proofs
            && s'.db.sessions.Keys == s.db.sessions.Keys
            && (forall sid :: sid in s.db.sessions ==>
                  s'.db.sessions[sid] == s.db.sessions[sid].(lastSeen := s'.db.sessions[sid].lastSeen,
                                                             revokedAt := s'.db.sessions[sid].revokedAt))
  {
    match step
    case Use(_) =>
    case Cut(_) =>
    case Tick(_) =>
    case SetUser(_, _) =>
    case AddGrant(_) =>
    case DropGrant(_) =>
    case SetSettings(_) =>
    case SetEvents(_) =>
  }
}
