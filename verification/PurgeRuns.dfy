/** What a purge of the session table does to everything that happens after it. */
module PurgeRuns {
  import opened Options
  import opened Roles
  import opened SessionModel
  import opened SessionRuns
  import opened SessionLife
  import opened SessionTokens
  import opened Retention

  /** The sessions a purge with this cutoff finds. */
  function Found(s: State, cutoff: nat): set<SessionId> {
    StaleIds(s.db.sessions, (row: Session) => Stale(row.expiresAt, row.revokedAt, cutoff))
  }

  /** The state after the sessions with these ids are deleted. */
  function Purged(s: State, ids: set<SessionId>): State {
    s.(db := s.db.(sessions := s.db.sessions - ids))
  }

  /** What is asked of a system, where a request that it cannot serve changes nothing. */
  function Obey(s: State, run: seq<Step>): State
    decreases run
  {
    if run == [] then s
    else match Apply(s, run[0])
      case None => Obey(s, run[1..])
      case Some(s1) => Obey(s1, run[1..])
  }

  /** A request with raw token `raw` is accepted as session `sid`. */
  predicate Accepts(s: State, raw: Token, sid: SessionId) {
    Answers(s.db, raw, sid) && Judge(s.db, s.db.sessions[sid], s.now).Accepted?
  }

  // ---------------------------------------------------------------------------------------------- what reads depend on

  /** The same tables apart from the sessions. */
  predicate SameTables(db: Db, db': Db) {
    db' == db.(sessions := db'.sessions)
  }

  lemma SameStanding(db: Db, db': Db, user: UserId)
    requires SameTables(db, db')
    ensures Elevated(db', user) == Elevated(db, user) && RequiresMfa(db', user) == RequiresMfa(db, user)
    ensures OwesCodes(db', user) == OwesCodes(db, user) && PostMfaStage(db', user) == PostMfaStage(db, user)
  {
  }

  lemma {:induction false} SameLatestEnd(db: Db, db': Db, user: UserId, events: seq<Event>, now: nat)
    requires SameTables(db, db')
    ensures LatestEnd(db', user, events, now) == LatestEnd(db, user, events, now)
    decreases |events|
  {
    if events != [] {
      SameLatestEnd(db, db', user, events[..|events| - 1], now);
      var e := events[|events| - 1];
      assert OnDuty(db', user, e, now) == OnDuty(db, user, e, now);
    }
  }

  lemma SameExpiry(db: Db, db': Db, user: UserId, stage: Stage, now: nat, partialTtl: nat)
    requires SameTables(db, db')
    ensures Expiry(db', user, stage, now, partialTtl) == Expiry(db, user, stage, now, partialTtl)
  {
    SameStanding(db, db', user);
    SameLatestEnd(db, db', user, db.events, now);
    hide LatestEnd, Elevated;
  }

  lemma SameStart(s: State, t: State, user: UserId, how: SignIn, token: Token)
    requires SameTables(s.db, t.db) && t.now == s.now
    ensures Started(t, user, how, token) == Started(s, user, how, token)
  {
    SameStanding(s.db, t.db, user);
    SameExpiry(s.db, t.db, user, InitialStage(s.db, user, Explicit(s.db, user, how)), s.now,
               MFA_PENDING_SESSION_TTL_MS);
    hide Expiry, RequiresMfa, PostMfaStage;
  }

  lemma SamePlan(s: State, t: State, sid: SessionId, user: UserId, reason: Reason, token: Token)
    requires SameTables(s.db, t.db) && t.now == s.now
    ensures Planned(t, sid, user, reason, token) == Planned(s, sid, user, reason, token)
  {
    SameStanding(s.db, t.db, user);
    var target := PostMfaStage(s.db, user);
    SameExpiry(s.db, t.db, user, target, s.now,
               if target.BackupCodesRequired? then BACKUP_CODES_STEP_TTL_MS else MFA_PENDING_SESSION_TTL_MS);
    hide Expiry, PostMfaStage;
  }

  lemma SameJudgement(db: Db, db': Db, row: Session, now: nat)
    requires SameTables(db, db')
    ensures Judge(db', row, now) == Judge(db, row, now)
    ensures Validates(db', row, now) == Validates(db, row, now)
  {
    SameStanding(db, db', row.user);
    hide Elevated, RequiresMfa, OwesCodes;
  }

  // ---------------------------------------------------------------------------------------------- side by side

  /** `t` is `s` without the sessions in `purged`, which are gone in `s` and never come back in either; it may lack the
      promotions of theirs that were never planned. */
  ghost predicate Alike(s: State, t: State, purged: set<SessionId>) {
    && t.now == s.now && SameTables(s.db, t.db) && t.db.sessions == s.db.sessions - purged
    && t.used <= s.used && t.issued.Keys == s.issued.Keys
    && (forall sid :: sid in purged ==> sid in s.db.sessions && sid in s.issued && Gone(s, sid))
    && (forall aid :: aid in t.attempts ==> aid in s.attempts && t.attempts[aid] == s.attempts[aid])
    && (forall aid :: aid in s.attempts && aid !in t.attempts ==> s.attempts[aid].session in purged)
  }

  function Obeyed(t: State, step: Step): State {
    if Apply(t, step).Some? then Apply(t, step).value else t
  }

  lemma StartAlike(s: State, t: State, purged: set<SessionId>, step: Step)
    requires Alike(s, t, purged) && step.Start? && Apply(s, step).Some?
    requires forall sid :: sid in purged ==> sid in Apply(s, step).value.db.sessions && Gone(Apply(s, step).value, sid)
    ensures Alike(Apply(s, step).value, Obeyed(t, step), purged)
  {
    SameStart(s, t, step.user, step.how, step.token);
    hide Started, Gone;
  }

  lemma PlanAlike(s: State, t: State, purged: set<SessionId>, step: Step)
    requires Alike(s, t, purged) && step.Plan? && Apply(s, step).Some?
    requires forall sid :: sid in purged ==> sid in Apply(s, step).value.db.sessions && Gone(Apply(s, step).value, sid)
    ensures Alike(Apply(s, step).value, Obeyed(t, step), purged)
  {
    SamePlan(s, t, step.session, step.user, step.reason, step.token);
    hide Planned, Gone;
  }

  /** The promotion is in flight in both, and for a session that is not purged. */
  lemma WriteAlike(s: State, t: State, purged: set<SessionId>, aid: nat)
    requires Alike(s, t, purged) && aid in t.attempts && t.attempts[aid].session !in purged
    requires forall sid :: sid in purged ==> sid in Written(s, aid).db.sessions && Gone(Written(s, aid), sid)
    ensures Alike(Written(s, aid), Written(t, aid), purged)
  {
    assert Succeeds(t.db, t.attempts[aid]) <==> Succeeds(s.db, t.attempts[aid]);
    hide Gone, Eligible, Advanced;
  }

  /** It is for a purged session, and matches no row any more. */
  lemma WriteForPurged(s: State, t: State, purged: set<SessionId>, aid: nat)
    requires Alike(s, t, purged) && aid in t.attempts && t.attempts[aid].session in purged
    requires forall sid :: sid in purged ==> sid in Written(s, aid).db.sessions && Gone(Written(s, aid), sid)
    ensures Alike(Written(s, aid), Written(t, aid), purged)
  {
    hide Gone, Eligible, Advanced;
  }

  lemma MissingAlike(s: State, t: State, purged: set<SessionId>, aid: nat)
    requires Alike(s, t, purged) && aid in s.attempts && aid !in t.attempts
    requires forall sid :: sid in purged ==> sid in Written(s, aid).db.sessions && Gone(Written(s, aid), sid)
    ensures Alike(Written(s, aid), t, purged)
  {
    hide Gone, Eligible, Advanced;
  }

  lemma UseAlike(s: State, t: State, purged: set<SessionId>, step: Step)
    requires Alike(s, t, purged) && step.Use? && Apply(s, step).Some?
    requires forall sid :: sid in purged ==> sid in Apply(s, step).value.db.sessions && Gone(Apply(s, step).value, sid)
    ensures Alike(Apply(s, step).value, Obeyed(t, step), purged)
  {
    SameJudgement(s.db, t.db, s.db.sessions[step.session], s.now);
    hide Gone, Judge;
  }

  lemma CutAlike(s: State, t: State, purged: set<SessionId>, step: Step)
    requires Alike(s, t, purged) && step.Cut? && Apply(s, step).Some?
    requires forall sid :: sid in purged ==> sid in Apply(s, step).value.db.sessions && Gone(Apply(s, step).value, sid)
    ensures Alike(Apply(s, step).value, Obeyed(t, step), purged)
  {
    hide Gone, Hits, RevokedAt;
  }

  lemma OtherAlike(s: State, t: State, purged: set<SessionId>, step: Step)
    requires Alike(s, t, purged) && !Promotes(step) && !step.Use? && !step.Cut? && Apply(s, step).Some?
    requires forall sid :: sid in purged ==> sid in Apply(s, step).value.db.sessions && Gone(Apply(s, step).value, sid)
    ensures Alike(Apply(s, step).value, Obeyed(t, step), purged)
  {
    hide Gone;
  }

  lemma WrittenAlike(s: State, t: State, purged: set<SessionId>, aid: nat)
    requires Alike(s, t, purged) && Apply(s, Write(aid)).Some?
    requires forall sid :: sid in purged ==>
               sid in Apply(s, Write(aid)).value.db.sessions && Gone(Apply(s, Write(aid)).value, sid)
    ensures Alike(Apply(s, Write(aid)).value, Obeyed(t, Write(aid)), purged)
  {
    assert aid in t.attempts ==> aid in s.attempts;
    hide Alike, Gone, Written;
    if aid !in t.attempts {
      MissingAlike(s, t, purged, aid);
    } else if t.attempts[aid].session in purged {
      WriteForPurged(s, t, purged, aid);
    } else {
      WriteAlike(s, t, purged, aid);
    }
  }

  lemma StepAlike(s: State, t: State, purged: set<SessionId>, step: Step)
    requires Alike(s, t, purged) && Apply(s, step).Some?
    ensures Alike(Apply(s, step).value, Obeyed(t, step), purged)
  {
    hide Apply, Gone;
    forall sid | sid in purged ensures sid in Apply(s, step).value.db.sessions && Gone(Apply(s, step).value, sid) {
      GoneHolds(s, step, sid);
    }
    hide Alike;
    if step.Start? { StartAlike(s, t, purged, step); }
    else if step.Plan? { PlanAlike(s, t, purged, step); }
    else if step.Use? { UseAlike(s, t, purged, step); }
    else if step.Cut? { CutAlike(s, t, purged, step); }
    else if step.Write? { WrittenAlike(s, t, purged, step.attempt); }
    else { OtherAlike(s, t, purged, step); }
  }

  /** Whatever runs on the full table runs on the purged one, with the same rows but for the purged ones. */
  lemma {:induction false} RunAlike(s: State, t: State, purged: set<SessionId>, run: seq<Step>)
    requires Alike(s, t, purged) && Exec(s, run).Some?
    ensures Alike(Exec(s, run).value, Obey(t, run), purged)
    decreases run
  {
    hide Alike, Apply;
    if run != [] {
      StepAlike(s, t, purged, run[0]);
      RunAlike(Apply(s, run[0]).value, Obeyed(t, run[0]), purged, run[1..]);
    }
  }

  // ---------------------------------------------------------------------------------------------- nobody notices

  predicate AllGone(s: State, ids: set<SessionId>) {
    forall sid :: sid in ids && sid in s.db.sessions ==> Gone(s, sid)
  }

  /** In every later run each request gets the same answer as if these sessions had not been deleted. */
  ghost predicate Unnoticed(s: State, ids: set<SessionId>) {
    forall run, raw, sid | Exec(s, run).Some? ::
      Accepts(Obey(Purged(s, ids), run), raw, sid) <==> Accepts(Exec(s, run).value, raw, sid)
  }

  lemma PurgeStartsAlike(s: State, ids: set<SessionId>)
    requires AllHoldLast(s) && AllGone(s, ids)
    ensures Alike(s, Purged(s, ids), ids * s.db.sessions.Keys)
  {
    hide Gone;
    assert forall sid :: sid in s.db.sessions ==> HoldsLast(s, sid);
  }

  lemma AlikeAnswers(s: State, t: State, purged: set<SessionId>, raw: Token, sid: SessionId)
    requires Alike(s, t, purged)
    ensures Accepts(t, raw, sid) <==> Accepts(s, raw, sid)
    ensures sid in t.db.sessions ==> sid in s.db.sessions && t.db.sessions[sid] == s.db.sessions[sid]
    ensures sid in t.db.sessions ==>
              Validates(t.db, t.db.sessions[sid], t.now) == Validates(s.db, s.db.sessions[sid], s.now)
    ensures sid in s.db.sessions && sid !in t.db.sessions ==> Judge(s.db, s.db.sessions[sid], s.now) == Refused
  {
    hide Validates;
    if sid in s.db.sessions { SameJudgement(s.db, t.db, s.db.sessions[sid], s.now); }
    hide IdleExpired, Revivable;
  }

  /** A purged session is not made again: its id is used. */
  lemma {:induction false} NeverBack(t: State, run: seq<Step>, sid: SessionId)
    requires sid in t.issued && sid !in t.db.sessions
    ensures sid !in Obey(t, run).db.sessions
    decreases run
  {
    if run != [] {
      NotMadeAgain(t, run[0], sid);
      hide Apply;
      NeverBack(Obeyed(t, run[0]), run[1..], sid);
    }
  }

  lemma NotMadeAgain(t: State, step: Step, sid: SessionId)
    requires sid in t.issued && sid !in t.db.sessions
    ensures sid in Obeyed(t, step).issued && sid !in Obeyed(t, step).db.sessions
  {
    if !Promotes(step) && Apply(t, step).Some? {
      hide Apply;
      QuietStep(t, step);
    }
  }

  /** In every reachable state: the deletion of sessions goes unnoticed in every later run exactly when each of them is
      gone, that is, unless promotions in flight read the clock before it expired and can still bring it back. */
  lemma {:induction false} PurgeIsInvisible(s0: State, before: seq<Step>, ids: set<SessionId>)
    requires Init(s0) && Exec(s0, before).Some?
    ensures var s := Exec(s0, before).value; Unnoticed(s, ids) <==> AllGone(s, ids)
  {
    TokenRun(s0, before);
    var s := Exec(s0, before).value;
    hide Exec, Gone, Distinct;
    if AllGone(s, ids) {
      PurgeStartsAlike(s, ids);
      hide Purged;
      forall run, raw, sid | Exec(s, run).Some?
        ensures Accepts(Obey(Purged(s, ids), run), raw, sid) <==> Accepts(Exec(s, run).value, raw, sid)
      {
        RunAlike(s, Purged(s, ids), ids * s.db.sessions.Keys, run);
        AlikeAnswers(Exec(s, run).value, Obey(Purged(s, ids), run), ids * s.db.sessions.Keys, raw, sid);
      }
    } else {
      var sid :| sid in ids && sid in s.db.sessions && !Gone(s, sid);
      PurgeIsNoticed(s, ids, sid);
    }
  }

  lemma PurgeIsNoticed(s: State, ids: set<SessionId>, sid: SessionId)
    requires AllHoldLast(s) && sid in ids && sid in s.db.sessions && !Gone(s, sid)
    ensures !Unnoticed(s, ids)
  {
    hide Gone;
    var run := BroughtBack(s, sid);
    assert HoldsLast(s, sid);
    NeverBack(Purged(s, ids), run, sid);
    assert Accepts(Exec(s, run).value, Exec(s, run).value.db.sessions[sid].tokenHash.raw, sid);
  }

  /** What a purge finds, with a cutoff that is not ahead of the clock: the sessions that expired or were revoked by
      then, and so only sessions a request made now is refused with. */
  lemma FoundAreRefused(s: State, cutoff: nat)
    requires cutoff <= s.now
    ensures forall sid :: sid in Found(s, cutoff) <==>
              && sid in s.db.sessions
              && (s.db.sessions[sid].expiresAt <= cutoff
                  || (s.db.sessions[sid].revokedAt != None && s.db.sessions[sid].revokedAt.value <= cutoff))
    ensures forall sid :: sid in Found(s, cutoff) ==> Judge(s.db, s.db.sessions[sid], s.now) == Refused
  {
  }

  /** A batch is found first and deleted by id later, whatever runs in between: still unnoticed when every session was
      gone when it was found, or is by the time it is deleted. */
  lemma {:induction false} FoundThenDeleted(s0: State, before: seq<Step>, cutoff: nat, between: seq<Step>)
    requires Init(s0) && Exec(s0, before).Some? && Exec(Exec(s0, before).value, between).Some?
    ensures var s := Exec(s0, before).value; var s' := Exec(s, between).value; var ids := Found(s, cutoff);
            && (AllGone(s, ids) ==> AllGone(s', ids))
            && (Unnoticed(s', ids) <==> AllGone(s', ids))
  {
    var s := Exec(s0, before).value;
    var ids := Found(s, cutoff);
    ExecAppend(s0, before, between);
    PurgeIsInvisible(s0, before + between, ids);
    hide Gone, Unnoticed, Init;
    if AllGone(s, ids) {
      forall sid | sid in ids ensures sid in Exec(s, between).value.db.sessions && Gone(Exec(s, between).value, sid) {
        GoneForGood(s, between, sid);
      }
    }
  }
}
