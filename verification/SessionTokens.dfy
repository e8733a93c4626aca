/** Token rotation: at any time a session answers to one raw token, the last one given out for it, and to no other. */
module SessionTokens {
  import opened Options
  import opened SessionModel
  import opened SessionRuns

  /** A request with raw token `raw` finds session `sid`. */
  predicate Answers(db: Db, raw: Token, sid: SessionId) {
    sid in db.sessions && db.sessions[sid].tokenHash == HashOf(raw)
  }

  function Last(tokens: seq<Token>): Token
    requires tokens != []
  {
    tokens[|tokens| - 1]
  }

  /** Every session has been answered with at least one token, and holds the hash of the last. */
  predicate HoldsLast(s: State, sid: SessionId)
    requires sid in s.db.sessions
  {
    sid in s.issued && s.issued[sid] != [] && s.db.sessions[sid].tokenHash == HashOf(Last(s.issued[sid]))
  }

  predicate AllHoldLast(s: State) {
    && s.issued.Keys == s.db.sessions.Keys
    && (forall sid :: sid in s.db.sessions ==> HoldsLast(s, sid))
  }

  /** No token was given out twice, and none that an attempt holds was given out or is held by another. */
  ghost predicate Distinct(s: State) {
    && (forall sid, i :: sid in s.issued && 0 <= i < |s.issued[sid]| ==> s.issued[sid][i] in s.used)
    && (forall aid :: aid in s.attempts ==> s.attempts[aid].token in s.used)
    && (forall sid, i, sid', i' | sid in s.issued && 0 <= i < |s.issued[sid]| && sid' in s.issued
        && 0 <= i' < |s.issued[sid']| ::
          s.issued[sid][i] == s.issued[sid'][i'] ==> sid == sid' && i == i')
    && (forall aid, sid, i :: aid in s.attempts && sid in s.issued && 0 <= i < |s.issued[sid]| ==>
          s.issued[sid][i] != s.attempts[aid].token)
    && (forall aid, bid :: aid in s.attempts && bid in s.attempts && s.attempts[aid].token == s.attempts[bid].token ==>
          aid == bid)
  }

  lemma StepHoldsLast(s: State, step: Step)
    requires AllHoldLast(s) && Apply(s, step).Some?
    ensures AllHoldLast(Apply(s, step).value)
  {
    if !Promotes(step) {
      hide Apply;
      QuietStep(s, step);
    }
  }

  lemma StepDistinct(s: State, step: Step)
    requires Distinct(s) && s.issued.Keys == s.db.sessions.Keys && Apply(s, step).Some?
    ensures Distinct(Apply(s, step).value)
  {
    if !Promotes(step) {
      hide Apply;
      QuietStep(s, step);
    } else if step.Write? {
      hide Distinct;
      WriteDistinct(s, step.attempt);
    } else {
      hide Apply, Distinct;
      PlanDistinct(s, step);
    }
  }

  lemma PlanDistinct(s: State, step: Step)
    requires Distinct(s) && s.issued.Keys == s.db.sessions.Keys && Apply(s, step).Some? && (step.Start? || step.Plan?)
    ensures Distinct(Apply(s, step).value)
  {
  }

  lemma WriteDistinct(s: State, aid: nat)
    requires Distinct(s) && aid in s.attempts
    ensures Distinct(Written(s, aid))
  {
    hide Succeeds, Promote;
  }

  lemma {:induction false} TokenRun(s: State, run: seq<Step>)
    requires AllHoldLast(s) && Distinct(s) && Exec(s, run).Some?
    ensures AllHoldLast(Exec(s, run).value) && Distinct(Exec(s, run).value)
    decreases run
  {
    hide Apply, AllHoldLast, Distinct;
    if run != [] {
      StepHoldsLast(s, run[0]);
      KeysAgree(s);
      StepDistinct(s, run[0]);
      TokenRun(Apply(s, run[0]).value, run[1..]);
    }
  }

  lemma KeysAgree(s: State)
    requires AllHoldLast(s)
    ensures s.issued.Keys == s.db.sessions.Keys
  {
  }

  /** In every run: a raw token finds a session exactly when it is the last one that a creation or a promotion of that
      session gave out, so one token finds one session at most and every earlier token finds none. */
  lemma {:induction false} TokenRotation(s0: State, run: seq<Step>, raw: Token, sid: SessionId)
    requires Init(s0) && Exec(s0, run).Some?
    ensures var s := Exec(s0, run).value;
            && (Answers(s.db, raw, sid) <==> sid in s.issued && s.issued[sid] != [] && raw == Last(s.issued[sid]))
            && (forall other :: Answers(s.db, raw, sid) && Answers(s.db, raw, other) ==> other == sid)
            && (forall i, other :: sid in s.issued && 0 <= i < |s.issued[sid]| - 1 ==>
                !Answers(s.db, s.issued[sid][i], other))
  {
    TokenRun(s0, run);
    var s := Exec(s0, run).value;
    assert forall other :: other in s.db.sessions ==> HoldsLast(s, other);
  }
}
