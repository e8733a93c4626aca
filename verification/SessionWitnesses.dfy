/** Runs that show which guarantees of the session machine need the conditions they are stated under. */
module SessionWitnesses {
  import opened Options
  import opened Roles
  import opened SessionModel
  import opened SessionRuns
  import opened SessionLife
  import opened SessionProofs
  import opened PurgeRuns

  const SETTINGS: Settings := Settings(43_200_000, 43_200_000, 1_800_000, 7_200_000, {Admin, Superadmin}, false)

  /** One account with the given row and roles, at time 0. */
  function Opening(user: User, grants: seq<Grant>): State {
    State(0, Db(map[0 := user], grants, SETTINGS, [], map[]), map[], {}, map[], map[])
  }

  const ADMIN: Grant := Grant(0, Admin, Organization, Some("org"), 0)

  // ---------------------------------------------------------------------------------------------- a late promotion

  /** The code is verified a millisecond before the partial session expires, the update writes eleven after. */
  function LatePromotion(): seq<Step> {
    [Start(0, 0, Password(false), 0), Tick(899_999), Plan(0, 0, 0, Verified, 1), Tick(10), Write(0)]
  }

  const WITH_METHOD: User := User(true, false, map[0 := true])

  const FRESH: Session := Session(0, HashOf(0), MfaPending, Local, false, 0, 0, 900_000, None, None)

  lemma LateStarts()
    ensures var s := Opening(WITH_METHOD, [ADMIN]);
            && Init(s) && Apply(s, Start(0, 0, Password(false), 0)).Some?
            && var s1 := Apply(s, Start(0, 0, Password(false), 0)).value;
            && s1.db == s.db.(sessions := map[0 := FRESH])
            && s1.now == 0 && s1.attempts == map[] && s1.used == {0}
  {
    var s := Opening(WITH_METHOD, [ADMIN]);
    assert ADMIN in s.db.grants && Required(s.db, ADMIN, 0);
    assert RequiresMfa(s.db, 0) && HasConfirmedMethod(s.db, 0) by { assert 0 in s.db.users[0].methods.Keys; }
  }

  const LATE: Attempt := Attempt(0, 0, Full, PARTIAL_STAGES - {Full}, 899_999, 899_999 + 43_200_000, Some(false), 1,
                                 true)

  lemma LateWaits()
    ensures var s := Opening(WITH_METHOD, [ADMIN]); var run := LatePromotion();
            && Init(s) && Exec(s, run[..4]).Some?
            && var before := Exec(s, run[..4]).value;
            && before.now == 900_009 && before.db.settings == SETTINGS && before.db.users == map[0 := WITH_METHOD]
            && before.db.sessions == map[0 := FRESH]
            && before.attempts == map[0 := LATE]
  {
    LateStarts();
    var s := Opening(WITH_METHOD, [ADMIN]);
    var run := LatePromotion();
    var s1 := Apply(s, run[0]).value;
    var s2 := s1.(now := 899_999);
    var s3 := Apply(s2, run[2]).value;
    var s4 := s3.(now := 900_009);
    assert !OwesCodes(s2.db, 0) && !MustChange(s2.db, 0) && PostMfaStage(s2.db, 0) == Full;
    assert s3.attempts[0] == ToFull(s2.db, 0, 0, 899_999, 1, true);
    LateGrant(s2.db);
    TraceRuns([s, s1, s2, s3, s4], run[..4]);
  }

  /** A partial session that had expired, and was refused, is live again once a promotion that read the clock before the
      expiry writes: the update compares the expiry with the time it read. */
  lemma LatePromotionRevives()
    ensures var s := Opening(WITH_METHOD, [ADMIN]); var run := LatePromotion();
            && Init(s) && Exec(s, run[..4]).Some? && Exec(s, run).Some?
            && var before := Exec(s, run[..4]).value; var after := Exec(s, run).value;
            && 0 in before.db.sessions && Judge(before.db, before.db.sessions[0], before.now) == Refused
            && 0 in after.db.sessions && Judge(after.db, after.db.sessions[0], after.now).Accepted?
            && after.now == before.now
  {
    LateWaits();
    var run := LatePromotion();
    var before := Exec(Opening(WITH_METHOD, [ADMIN]), run[..4]).value;
    var after := Apply(before, Write(0)).value;
    assert Eligible(before.db.sessions[0], LATE);
    assert after.db.sessions[0] == Advanced(before.db.sessions[0], LATE);
    LateIdle(after.db);
    hide Opening;
    TraceRuns([before, after], [Write(0)]);
    ExecAppend(Opening(WITH_METHOD, [ADMIN]), run[..4], [Write(0)]);
    assert run[..4] + [Write(0)] == run;
  }

  /** A purge of the sessions that had expired by then deletes one whose promotion is still on its way: without the
      purge the session goes on, with it the session is lost. */
  lemma LatePurgeIsNoticed()
    ensures var s := Opening(WITH_METHOD, [ADMIN]); var run := LatePromotion();
            && Init(s) && Exec(s, run[..4]).Some?
            && var before := Exec(s, run[..4]).value;
            && 900_005 <= before.now && Found(before, 900_005) == {0}
            && Judge(before.db, before.db.sessions[0], before.now) == Refused
            && !Unnoticed(before, {0})
  {
    LateWaits();
    var s := Opening(WITH_METHOD, [ADMIN]);
    var before := Exec(s, LatePromotion()[..4]).value;
    assert 0 in before.attempts && Eligible(before.db.sessions[0], before.attempts[0]);
    assert Found(before, 900_005) == {0} && !Gone(before, 0) && !AllGone(before, {0});
    hide Opening, Exec, Gone;
    PurgeIsInvisible(s, LatePromotion()[..4], {0});
  }

  lemma LateGrant(db: Db)
    requires db.settings == SETTINGS && !OwesCodes(db, 0) && !MustChange(db, 0)
    ensures ToFull(db, 0, 0, 899_999, 1, true)
            == Attempt(0, 0, Full, PARTIAL_STAGES - {Full}, 899_999, 899_999 + 43_200_000, Some(false), 1, true)
  {
  }

  lemma LateIdle(db: Db)
    requires db.settings == SETTINGS
    ensures forall u :: IdleTimeout(db, u, false).Some? && IdleTimeout(db, u, false).value >= 1_800_000
  {
  }

  // ---------------------------------------------------------------------------------------------- two winners

  const OWES_BOTH: User := User(true, true, map[0 := false])
  const OWES_PASSWORD: User := User(true, true, map[0 := true])

  /** Two verified codes race for the backup-codes stage; the first wins, the user goes on to the password step, then
      the second writes. */
  function TwoRacers(): seq<Step> {
    [Start(0, 0, Password(false), 0), Plan(0, 0, 0, Verified, 1), Plan(1, 0, 0, Verified, 2), Write(0),
     SetUser(0, OWES_PASSWORD), Plan(2, 0, 0, Acknowledged, 3), Write(2), Write(1)]
  }

  function Partial(stage: Stage, token: Token, expiresAt: nat, verifiedAt: Option<nat>): Session {
    Session(0, HashOf(token), stage, Local, false, 0, 0, expiresAt, None, verifiedAt)
  }

  function Racer(token: Token): Attempt {
    Attempt(0, 0, BackupCodesRequired, PARTIAL_STAGES - {BackupCodesRequired}, 0, 600_000, Some(false), token, true)
  }

  predicate Holds(s: State, user: User, row: Session, issued: seq<Token>) {
    && s.now == 0 && s.db.settings == SETTINGS && 0 in s.db.users && s.db.users[0] == user
    && 0 in s.db.sessions && s.db.sessions[0] == row && 0 in s.issued && s.issued[0] == issued
  }

  lemma Owed(db: Db)
    ensures 0 in db.users && db.users[0] == OWES_BOTH ==> PostMfaStage(db, 0) == BackupCodesRequired
    ensures 0 in db.users && db.users[0] == OWES_PASSWORD ==> PostMfaStage(db, 0) == ChangePasswordRequired
    ensures 0 in db.users && db.users[0] == FIRST_TIMER ==> PostMfaStage(db, 0) == Full
  {
    if 0 in db.users && db.users[0] == OWES_BOTH { assert 0 in db.users[0].methods && !db.users[0].methods[0]; }
  }

  lemma RaceStarts()
    ensures var s0 := Opening(OWES_BOTH, [ADMIN]);
            && Init(s0) && Exec(s0, TwoRacers()[..3]).Some?
            && var s := Exec(s0, TwoRacers()[..3]).value;
            && Holds(s, OWES_BOTH, Partial(MfaPending, 0, 900_000, None), [0]) && s.used == {0, 1, 2}
            && 0 in s.attempts && s.attempts[0] == Racer(1) && 1 in s.attempts && s.attempts[1] == Racer(2)
            && 2 !in s.attempts
  {
    var s0 := Opening(OWES_BOTH, [ADMIN]);
    assert ADMIN in s0.db.grants && Required(s0.db, ADMIN, 0);
    assert RequiresMfa(s0.db, 0) && HasConfirmedMethod(s0.db, 0) by { assert 0 in s0.db.users[0].methods.Keys; }
    var s1 := Apply(s0, TwoRacers()[0]).value;
    Owed(s1.db);
    var s2 := Apply(s1, TwoRacers()[1]).value;
    var s3 := Apply(s2, TwoRacers()[2]).value;
    TraceRuns([s0, s1, s2, s3], TwoRacers()[..3]);
  }

  lemma RaceMoves(s: State)
    requires Holds(s, OWES_BOTH, Partial(MfaPending, 0, 900_000, None), [0]) && s.used == {0, 1, 2}
    requires 0 in s.attempts && s.attempts[0] == Racer(1) && 1 in s.attempts && s.attempts[1] == Racer(2)
             && 2 !in s.attempts
    ensures Exec(s, TwoRacers()[3..5]).Some?
    ensures var s' := Exec(s, TwoRacers()[3..5]).value;
            && Holds(s', OWES_PASSWORD, Partial(BackupCodesRequired, 1, 600_000, Some(0)), [0, 1])
            && s'.used == {0, 1, 2}
            && 1 in s'.attempts && s'.attempts[1] == Racer(2) && 2 !in s'.attempts
  {
    var s1 := Apply(s, Write(0)).value;
    var s2 := Apply(s1, SetUser(0, OWES_PASSWORD)).value;
    TraceRuns([s, s1, s2], TwoRacers()[3..5]);
  }

  lemma RaceEnds(s: State)
    requires Holds(s, OWES_PASSWORD, Partial(BackupCodesRequired, 1, 600_000, Some(0)), [0, 1]) && s.used == {0, 1, 2}
    requires 1 in s.attempts && s.attempts[1] == Racer(2) && 2 !in s.attempts
    ensures Exec(s, TwoRacers()[5..]).Some?
    ensures var s' := Exec(s, TwoRacers()[5..]).value;
            Holds(s', OWES_PASSWORD, Partial(BackupCodesRequired, 2, 600_000, Some(0)), [0, 1, 3, 2])
  {
    Owed(s.db);
    var s1 := Apply(s, Plan(2, 0, 0, Acknowledged, 3)).value;
    var s2 := Apply(s1, Write(2)).value;
    assert Holds(s2, OWES_PASSWORD, Partial(ChangePasswordRequired, 3, 900_000, Some(0)), [0, 1, 3]);
    var s3 := Apply(s2, Write(1)).value;
    TraceRuns([s, s1, s2, s3], TwoRacers()[5..]);
  }

  /** Both racing promotions to the backup-codes stage return a token, because the session was at yet another stage when
      the second one wrote; it is back at the backup codes after the password step. */
  lemma ThirdStageLetsBothWin()
    ensures var s0 := Opening(OWES_BOTH, [ADMIN]); var run := TwoRacers();
            && Init(s0) && Exec(s0, run).Some?
            && var s := Exec(s0, run).value;
            && 0 in s.issued && s.issued[0] == [0, 1, 3, 2]
            && Racer(1).target == Racer(2).target
            && 0 in s.db.sessions && s.db.sessions[0].stage.BackupCodesRequired?
  {
    var s0 := Opening(OWES_BOTH, [ADMIN]);
    var run := TwoRacers();
    RaceStarts();
    var s1 := Exec(s0, run[..3]).value;
    RaceMoves(s1);
    var s2 := Exec(s1, run[3..5]).value;
    RaceEnds(s2);
    hide Exec, Apply, Opening;
    ExecAppend(s0, run[..3], run[3..5]);
    ExecAppend(s0, run[..3] + run[3..5], run[5..]);
    assert run == run[..3] + run[3..5] + run[5..];
  }

  // ---------------------------------------------------------------------------------------------- the same millisecond

  const FIRST_TIMER: User := User(true, false, map[])

  /** A sign-in without MFA, a required role in the same millisecond, and a method confirmed later. */
  function SameMillisecond(): seq<Step> {
    [Start(0, 0, Password(false), 0), AddGrant(ADMIN), SetUser(0, WITH_METHOD)]
  }

  /** The session was made without any proof, its user needs MFA, and it is accepted. */
  lemma SameMillisecondSlipsThrough()
    ensures var s0 := Opening(FIRST_TIMER, []); var run := SameMillisecond();
            && Init(s0) && Exec(s0, run).Some?
            && var s := Exec(s0, run).value;
            && 0 in s.db.sessions && 0 !in s.proofs && s.db.sessions[0].auth.Local?
            && RequiresMfa(s.db, 0) && Validates(s.db, s.db.sessions[0], s.now)
  {
    var s0 := Opening(FIRST_TIMER, []);
    Owed(s0.db);
    var s1 := Apply(s0, Start(0, 0, Password(false), 0)).value;
    assert s1.db.sessions[0] == Session(0, HashOf(0), Full, Local, false, 0, 0, 43_200_000, None, None);
    var s2 := Apply(s1, AddGrant(ADMIN)).value;
    assert s2.db.grants == [ADMIN];
    var s3 := Apply(s2, SetUser(0, WITH_METHOD)).value;
    assert ADMIN in s3.db.grants && Required(s3.db, ADMIN, 0);
    assert 0 in s3.db.users[0].methods.Keys;
    assert EarliestRequired([], 0, SETTINGS.requiredRoles) == None && [ADMIN][1..] == [];
    TraceRuns([s0, s1, s2, s3], SameMillisecond());
  }
}
