/** Completing MFA with a recovery code: the code is consumed and the session promoted in one transaction, or
    neither. */
module MfaTransactions {
  import opened Options
  import opened Roles
  import opened SessionModel
  import opened SessionStore

  type CodeId = nat
  type TxId = nat

  // ---------------------------------------------------------------------------------------------- as it runs

  /** The recovery code rows: whether each was used. */
  class CodeTable {
    var used: map<CodeId, bool>

    constructor (used: map<CodeId, bool>)
      ensures this.used == used
    {
      this.used := used;
    }
  }

  /** What a typed code matches: an authenticator code, the row of a recovery code, or nothing. */
  datatype Match = Totp | Recovery(code: CodeId) | Nothing

  datatype Failure = InvalidCode | ConsumeConflict | SessionNotPromoted

  /** The typed code is accepted: an authenticator code, or a recovery code nobody has used. */
  predicate Usable(match_: Match, used: map<CodeId, bool>) {
    match_.Totp? || (match_.Recovery? && match_.code in used && !used[match_.code])
  }

  /** `consumeRecoveryRow`: a conditional update. */
  method ConsumeRecoveryRow(codes: CodeTable, code: CodeId) returns (consumed: bool)
    modifies codes
    ensures consumed <==> code in old(codes.used) && !old(codes.used)[code]
    ensures codes.used == if consumed then old(codes.used)[code := true] else old(codes.used)
  {
    consumed := code in codes.used && !codes.used[code];
    if consumed { codes.used := codes.used[code := true]; }
  }

  /** `completeMfaInTransaction`: verify and consume first, then promote. Returning SessionNotPromoted stands for the
      exception, raised when the code is already consumed. */
  method CompleteMfaInTransaction(db: Tables, codes: CodeTable, user: UserId, session: SessionId, match_: Match,
                                  now: nat, rawToken: Token)
    returns (result: Result<Stage, Failure>)
    modifies db`sessions, codes
    ensures var a := ToFull(old(db.View()), session, user, now, rawToken, true);
            && (result.Ok? <==> Usable(match_, old(codes.used)) && Succeeds(old(db.View()), a))
            && (result.Ok? ==> result.value == a.target && db.View() == Promote(old(db.View()), a))
            && (result.Err? ==> db.View() == old(db.View()))
            && (result == Err(SessionNotPromoted) <==> Usable(match_, old(codes.used)) && !Succeeds(old(db.View()), a))
    ensures var unused := match_.Recovery? && match_.code in old(codes.used) && !old(codes.used)[match_.code];
            && (result == Err(InvalidCode) <==> match_.Nothing?)
            && (result == Err(ConsumeConflict) <==> match_.Recovery? && !unused)
            && codes.used == if unused then old(codes.used)[match_.code := true] else old(codes.used)
  {
    match match_ {
      case Nothing => return Err(InvalidCode);
      case Totp =>
      case Recovery(code) =>
        var consumed := ConsumeRecoveryRow(codes, code);
        if !consumed { return Err(ConsumeConflict); }
    }
    var reached := PromoteSessionToFull(db, session, user, now, rawToken, true);
    if reached.None? { return Err(SessionNotPromoted); }
    return Ok(reached.value);
  }

  /** What the caller sees: a result, or the exception that a transaction of its own must abort on. */
  datatype Answer = Returned(stage: Option<Stage>) | Raised

  /** `completeMfa`. On a client it owns the transaction and rolls it back; inside a transaction of the caller it
      raises. */
  method CompleteMfa(db: Tables, codes: CodeTable, user: UserId, session: SessionId, match_: Match, now: nat,
                     rawToken: Token, ownsTransaction: bool)
    returns (answer: Answer)
    modifies db`sessions, codes
    ensures var a := ToFull(old(db.View()), session, user, now, rawToken, true);
            var usable := Usable(match_, old(codes.used));
            && (answer.Returned? && answer.stage.Some? <==> usable && Succeeds(old(db.View()), a))
            && (answer.Returned? && answer.stage.Some? ==> answer.stage.value == a.target)
            && (answer.Raised? <==> !ownsTransaction && usable && !Succeeds(old(db.View()), a))
            && db.View() == (if usable then Promote(old(db.View()), a) else old(db.View()))
    ensures answer.Returned? && answer.stage.Some? && match_.Recovery? ==>
              && match_.code in old(codes.used) && old(codes.used)[match_.code] == false
              && codes.used == old(codes.used)[match_.code := true]
    ensures answer.Raised? && match_.Recovery? ==> codes.used == old(codes.used)[match_.code := true]
    ensures answer == Returned(None) || match_.Totp? ==> codes.used == old(codes.used)
    ensures match_.Nothing? ==> answer == Returned(None)
  {
    var sessionsBefore, codesBefore := db.sessions, codes.used;
    var result := CompleteMfaInTransaction(db, codes, user, session, match_, now, rawToken);
    match result
    case Ok(stage) => return Returned(Some(stage));
    case Err(SessionNotPromoted) =>
      if !ownsTransaction { return Raised; }
      db.sessions, codes.used := sessionsBefore, codesBefore;
      return Returned(None);
    case Err(_) => return Returned(None);
  }

  /** `completeMfaWithWebauthn`: the assertion was checked before any transaction, so there is nothing to give back. */
  method CompleteMfaWithWebauthn(db: Tables, user: UserId, session: SessionId, verified: bool, now: nat,
                                 rawToken: Token, ownsTransaction: bool)
    returns (answer: Answer)
    modifies db`sessions
    ensures var a := ToFull(old(db.View()), session, user, now, rawToken, true);
            && (answer.Returned? && answer.stage.Some? <==> verified && Succeeds(old(db.View()), a))
            && (answer.Returned? && answer.stage.Some? ==> answer.stage.value == a.target)
            && (answer.Raised? <==> verified && !Succeeds(old(db.View()), a) && !ownsTransaction)
            && db.View() == if verified then Promote(old(db.View()), a) else old(db.View())
  {
    if !verified { return Returned(None); }
    var reached := PromoteSessionToFull(db, session, user, now, rawToken, true);
    if reached.None? && !ownsTransaction { return Raised; }
    answer := Returned(reached);
  }

  /** A recovery code completes once: whatever the sessions are in between, the second completion with it reaches no
      stage and is not even raised for. */
  method SameCodeTwice(db: Tables, codes: CodeTable, user: UserId, session: SessionId, code: CodeId, now: nat,
                       rawToken: Token, again: SessionId, later: nat, otherToken: Token,
                       between: map<SessionId, Session>, ownsTransaction: bool)
    returns (first: Answer, second: Answer)
    modifies db`sessions, codes
    ensures first != Returned(None) ==> second == Returned(None)
    ensures first != Returned(None) ==> codes.used == old(codes.used)[code := true]
  {
    first := CompleteMfa(db, codes, user, session, Recovery(code), now, rawToken, ownsTransaction);
    db.sessions := between;
    second := CompleteMfa(db, codes, user, again, Recovery(code), later, otherToken, ownsTransaction);
  }

  // ---------------------------------------------------------------------------------------------- many at once

  /** How far a transaction has come. Between Consumed and its end it holds the row of its code, from Promoted on also
      that of its session; both writes are visible to nobody else before the commit. */
  datatype Phase =
    | Open | Consumed | Promoted(attempt: Attempt) | Failed
    | Granted(token: Token) | Refunded | Conflicted | Burnt

  /** A completion in progress or over; `code` is None for an authenticator code. */
  datatype Tx = Tx(user: UserId, session: SessionId, code: Option<CodeId>, owned: bool, phase: Phase)

  /** `elsewhere` holds the codes that were used before, or by something other than a completion. */
  datatype State = State(db: Db, used: map<CodeId, bool>, txs: map<TxId, Tx>, elsewhere: set<CodeId>)

  datatype Step =
    | Begin(tx: TxId, user: UserId, session: SessionId, code: Option<CodeId>, owned: bool)
    | Consume(tx: TxId)
    | Advance(tx: TxId, attempt: Attempt)
    | Commit(tx: TxId)
    | Abort(tx: TxId)
    | OwnerCommits(tx: TxId)
    | SpendElsewhere(spent: CodeId)
    | Others(db: Db)

  predicate HoldsCode(tx: Tx, code: CodeId) {
    tx.code == Some(code) && (tx.phase.Consumed? || tx.phase.Promoted? || tx.phase.Failed?)
  }

  predicate CodeFree(s: State, code: CodeId) {
    forall t :: t in s.txs ==> !HoldsCode(s.txs[t], code)
  }

  predicate HoldsSession(tx: Tx, session: SessionId) {
    tx.session == session && tx.phase.Promoted?
  }

  predicate SessionFree(s: State, session: SessionId) {
    forall t :: t in s.txs ==> !HoldsSession(s.txs[t], session)
  }

  function At(s: State, t: TxId, phase: Phase): State
    requires t in s.txs
  {
    s.(txs := s.txs[t := s.txs[t].(phase := phase)])
  }

  function Spent(used: map<CodeId, bool>, code: Option<CodeId>): map<CodeId, bool> {
    if code.Some? then used[code.value := true] else used
  }

  function Apply(s: State, step: Step): Option<State> {
    match step
    case Begin(t, user, session, code, owned) =>
      if t in s.txs || (code.Some? && code.value !in s.used) then None
      else Some(s.(txs := s.txs[t := Tx(user, session, code, owned, Open)]))
    case Consume(t) =>
      if !(t in s.txs && s.txs[t].phase.Open?) then None
      else if s.txs[t].code.None? then Some(At(s, t, Consumed))
      else if s.txs[t].code.value !in s.used || !CodeFree(s, s.txs[t].code.value) then None
      else Some(At(s, t, if s.used[s.txs[t].code.value] then Conflicted else Consumed))
    case Advance(t, a) =>
      if !(&& t in s.txs && s.txs[t].phase.Consumed? && a.session == s.txs[t].session && a.user == s.txs[t].user
           && a.verified
           && SessionFree(s, s.txs[t].session)) then None
      else Some(At(s, t, if Succeeds(s.db, a) then Promoted(a) else Failed))
    case Commit(t) =>
      if !(t in s.txs && s.txs[t].phase.Promoted?) then None
      else
        var a := s.txs[t].phase.attempt;
        Some(At(s, t, Granted(a.token)).(db := Promote(s.db, a), used := Spent(s.used, s.txs[t].code)))
    case Abort(t) =>
      // A rollback: because the promotion failed and this transaction is owned, because the owner aborts, or a crash.
      if t in s.txs && (s.txs[t].phase.Open? || s.txs[t].phase.Consumed? || s.txs[t].phase.Promoted?
                        || s.txs[t].phase.Failed?)
      then Some(At(s, t, Refunded)) else None
    case OwnerCommits(t) =>
      // A caller that swallows the exception and commits its own transaction.
      if t in s.txs && s.txs[t].phase.Failed? && !s.txs[t].owned
      then Some(At(s, t, Burnt).(used := Spent(s.used, s.txs[t].code))) else None
    case SpendElsewhere(code) =>
      if code in s.used && !s.used[code] && CodeFree(s, code)
      then Some(s.(used := s.used[code := true], elsewhere := s.elsewhere + {code})) else None
    case Others(db) =>
      if forall t :: t in s.txs && s.txs[t].phase.Promoted? ==>
           s.txs[t].session in s.db.sessions && s.txs[t].session in db.sessions
           && db.sessions[s.txs[t].session] == s.db.sessions[s.txs[t].session]
      then Some(s.(db := db)) else None
  }

  function Exec(s: State, run: seq<Step>): Option<State>
    decreases run
  {
    if run == [] then Some(s)
    else match Apply(s, run[0])
      case None => None
      case Some(s1) => Exec(s1, run[1..])
  }

  ghost predicate Init(s: State) {
    s.txs == map[] && (forall c :: c in s.used && s.used[c] <==> c in s.elsewhere)
  }

  // ---------------------------------------------------------------------------------------------- conservation

  /** The transaction used its code up for good. */
  predicate Took(tx: Tx, code: CodeId) {
    tx.code == Some(code) && (tx.phase.Granted? || tx.phase.Burnt?)
  }

  ghost predicate TxOk(s: State, t: TxId)
    requires t in s.txs
  {
    && (s.txs[t].code.Some? ==> s.txs[t].code.value in s.used)
    && (forall c :: HoldsCode(s.txs[t], c) ==> c in s.used && !s.used[c])
    && (forall c :: Took(s.txs[t], c) ==> c in s.used && s.used[c] && c !in s.elsewhere)
    && (s.txs[t].phase.Burnt? ==> !s.txs[t].owned)
    && (s.txs[t].phase.Promoted? ==>
          && Succeeds(s.db, s.txs[t].phase.attempt) && s.txs[t].phase.attempt.session == s.txs[t].session
          && s.txs[t].phase.attempt.user == s.txs[t].user && s.txs[t].phase.attempt.verified)
  }

  ghost predicate Taker(s: State, code: CodeId) {
    exists t :: t in s.txs && Took(s.txs[t], code)
  }

  ghost predicate Exclusive(s: State) {
    && (forall t, u, c | t in s.txs && u in s.txs && HoldsCode(s.txs[t], c) && HoldsCode(s.txs[u], c) :: t == u)
    && (forall t, u, c | t in s.txs && u in s.txs && Took(s.txs[t], c) && Took(s.txs[u], c) :: t == u)
    && (forall t, u | t in s.txs && u in s.txs && s.txs[t].phase.Promoted? && s.txs[u].phase.Promoted? ::
          s.txs[t].session == s.txs[u].session ==> t == u)
  }

  ghost predicate Accounted(s: State) {
    forall c :: c in s.used && s.used[c] ==> c in s.elsewhere || Taker(s, c)
  }

  ghost predicate Inv(s: State) {
    && (forall t :: t in s.txs ==> TxOk(s, t))
    && Exclusive(s) && Accounted(s)
    && (forall c :: c in s.elsewhere ==> c in s.used && s.used[c])
  }

  lemma TakerStays(s: State, s': State, code: CodeId)
    requires Taker(s, code)
    requires forall t :: t in s.txs && Took(s.txs[t], code) ==> t in s'.txs && s'.txs[t] == s.txs[t]
    ensures Taker(s', code)
  {
    var t :| t in s.txs && Took(s.txs[t], code);
    assert t in s'.txs && Took(s'.txs[t], code);
  }

  /** A transaction moves on without writing: what it holds it holds alone, and it does not end up having taken a
      code. */
  lemma MoveInv(s: State, t: TxId, phase: Phase)
    requires Inv(s) && t in s.txs && !s.txs[t].phase.Granted? && !s.txs[t].phase.Burnt?
    requires !phase.Granted? && !phase.Burnt? && TxOk(s, t) && TxOk(At(s, t, phase), t)
    requires forall c :: HoldsCode(s.txs[t].(phase := phase), c) ==> HoldsCode(s.txs[t], c) || CodeFree(s, c)
    requires phase.Promoted? ==> SessionFree(s, s.txs[t].session)
    ensures Inv(At(s, t, phase))
  {
    MoveExclusive(s, t, phase);
    MoveTxs(s, t, phase);
    var s' := At(s, t, phase);
    hide Succeeds, TxOk, Exclusive;
    forall c | c in s'.used && s'.used[c] ensures c in s'.elsewhere || Taker(s', c) {
      if c !in s.elsewhere { TakerStays(s, s', c); }
    }
  }

  lemma MoveTxs(s: State, t: TxId, phase: Phase)
    requires t in s.txs && TxOk(At(s, t, phase), t) && forall u :: u in s.txs ==> TxOk(s, u)
    ensures forall u :: u in At(s, t, phase).txs ==> TxOk(At(s, t, phase), u)
  {
    hide Succeeds;
    forall u | u in At(s, t, phase).txs ensures TxOk(At(s, t, phase), u) { assert u != t ==> TxOk(s, u); }
  }

  lemma MoveExclusive(s: State, t: TxId, phase: Phase)
    requires Exclusive(s) && t in s.txs && !phase.Granted? && !phase.Burnt?
    requires forall c :: HoldsCode(s.txs[t].(phase := phase), c) ==> HoldsCode(s.txs[t], c) || CodeFree(s, c)
    requires phase.Promoted? ==> SessionFree(s, s.txs[t].session)
    ensures Exclusive(At(s, t, phase))
  {
  }

  /** The code of a transaction about to take it is unused, and no other transaction holds it or took it. */
  lemma TakeFacts(s: State, t: TxId, code: CodeId)
    requires Inv(s) && t in s.txs && HoldsCode(s.txs[t], code)
    ensures code in s.used && !s.used[code] && code !in s.elsewhere
    ensures forall u :: u in s.txs && u != t ==> !HoldsCode(s.txs[u], code) && !Took(s.txs[u], code)
  {
    hide Succeeds;
    assert TxOk(s, t);
    forall u | u in s.txs && u != t ensures !Took(s.txs[u], code) { assert TxOk(s, u); }
  }

  lemma TakeExclusive(s: State, t: TxId, phase: Phase)
    requires Exclusive(s) && t in s.txs && (phase.Granted? || phase.Burnt?)
    requires s.txs[t].code.Some? ==> forall u :: u in s.txs && u != t ==> !Took(s.txs[u], s.txs[t].code.value)
    ensures Exclusive(At(s, t, phase))
  {
  }

  lemma TakeTxs(s: State, t: TxId, phase: Phase, db: Db)
    requires Inv(s) && t in s.txs && (phase.Granted? || (phase.Burnt? && !s.txs[t].owned))
    requires s.txs[t].code.Some? ==>
               && s.txs[t].code.value in s.used && s.txs[t].code.value !in s.elsewhere
               && forall u :: u in s.txs && u != t ==> !HoldsCode(s.txs[u], s.txs[t].code.value)
    requires forall u :: u in s.txs && u != t && s.txs[u].phase.Promoted? ==> Succeeds(db, s.txs[u].phase.attempt)
    ensures var s' := At(s, t, phase).(db := db, used := Spent(s.used, s.txs[t].code));
            forall u :: u in s'.txs ==> TxOk(s', u)
  {
    hide Succeeds, Exclusive, Accounted;
    var s' := At(s, t, phase).(db := db, used := Spent(s.used, s.txs[t].code));
    forall u | u in s'.txs ensures TxOk(s', u) { assert TxOk(s, u); }
  }

  lemma TakeAccounted(s: State, t: TxId, phase: Phase)
    requires Accounted(s) && t in s.txs && !s.txs[t].phase.Granted? && !s.txs[t].phase.Burnt?
             && (phase.Granted? || phase.Burnt?)
    ensures Accounted(At(s, t, phase).(used := Spent(s.used, s.txs[t].code)))
  {
    var s' := At(s, t, phase).(used := Spent(s.used, s.txs[t].code));
    forall c | c in s'.used && s'.used[c] ensures c in s'.elsewhere || Taker(s', c) {
      if s.txs[t].code == Some(c) {
        assert t in s'.txs && Took(s'.txs[t], c);
      } else if c !in s.elsewhere {
        TakerStays(s, s', c);
      }
    }
  }

  /** The commit of a completion, or an owner's commit after the exception: the code it holds becomes used. */
  lemma TakeInv(s: State, t: TxId, phase: Phase, db: Db)
    requires Inv(s) && t in s.txs && (s.txs[t].phase.Promoted? || s.txs[t].phase.Failed?)
    requires phase.Granted? || (phase.Burnt? && !s.txs[t].owned)
    requires forall u :: u in s.txs && u != t && s.txs[u].phase.Promoted? ==> Succeeds(db, s.txs[u].phase.attempt)
    ensures Inv(At(s, t, phase).(db := db, used := Spent(s.used, s.txs[t].code)))
  {
    if s.txs[t].code.Some? { TakeFacts(s, t, s.txs[t].code.value); }
    TakeTxs(s, t, phase, db);
    TakeExclusive(s, t, phase);
    TakeAccounted(s, t, phase);
    BooksIgnoreTables(At(s, t, phase), db, Spent(s.used, s.txs[t].code));
    hide Succeeds, TxOk, HoldsCode, Exclusive, Accounted;
  }

  /** Who holds and who took what is not a matter of the session tables. */
  lemma BooksIgnoreTables(s: State, db: Db, used: map<CodeId, bool>)
    ensures Exclusive(s.(db := db, used := used)) == Exclusive(s)
    ensures Accounted(s.(db := db, used := used)) == Accounted(s.(used := used))
  {
    assert forall c :: Taker(s.(db := db, used := used), c) == Taker(s.(used := used), c);
  }

  lemma ConsumeInv(s: State, t: TxId)
    requires Inv(s) && Apply(s, Consume(t)).Some?
    ensures Inv(Apply(s, Consume(t)).value)
  {
    assert TxOk(s, t);
    ConsumeMoves(s, t);
    hide Inv, Apply, CodeFree, HoldsCode, SessionFree;
    MoveInv(s, t, Apply(s, Consume(t)).value.txs[t].phase);
  }

  /** The transaction takes its code, when it is free and unused, or has nothing in hand. */
  lemma ConsumeMoves(s: State, t: TxId)
    requires Apply(s, Consume(t)).Some? && t in s.txs && TxOk(s, t)
    ensures t in Apply(s, Consume(t)).value.txs
    ensures var s' := Apply(s, Consume(t)).value; var phase := s'.txs[t].phase;
            && s' == At(s, t, phase) && s.txs[t].phase.Open? && (phase.Consumed? || phase.Conflicted?) && TxOk(s', t)
            && (forall c :: HoldsCode(s.txs[t].(phase := phase), c) ==> HoldsCode(s.txs[t], c) || CodeFree(s, c))
  {
    hide Succeeds, SessionFree;
  }

  lemma AdvanceInv(s: State, t: TxId, a: Attempt)
    requires Inv(s) && Apply(s, Advance(t, a)).Some?
    ensures Inv(Apply(s, Advance(t, a)).value)
  {
    hide Succeeds;
    assert TxOk(s, t);
    MoveInv(s, t, Apply(s, Advance(t, a)).value.txs[t].phase);
  }

  lemma AbortInv(s: State, t: TxId)
    requires Inv(s) && Apply(s, Abort(t)).Some?
    ensures Inv(Apply(s, Abort(t)).value)
  {
    assert TxOk(s, t);
    MoveInv(s, t, Refunded);
  }

  lemma OwnerCommitsInv(s: State, t: TxId)
    requires Inv(s) && Apply(s, OwnerCommits(t)).Some?
    ensures Inv(Apply(s, OwnerCommits(t)).value)
  {
    assert forall u :: u in s.txs ==> TxOk(s, u);
    TakeInv(s, t, Burnt, s.db);
  }

  lemma StepInv(s: State, step: Step)
    requires Inv(s) && Apply(s, step).Some?
    ensures Inv(Apply(s, step).value)
  {
    hide Inv, Apply;
    match step
    case Begin(t, _, _, _, _) => BeginInv(s, step);
    case Consume(t) => ConsumeInv(s, t);
    case Advance(t, a) => AdvanceInv(s, t, a);
    case Commit(t) => CommitInv(s, t);
    case Abort(t) => AbortInv(s, t);
    case OwnerCommits(t) => OwnerCommitsInv(s, t);
    case SpendElsewhere(c) => SpendInv(s, c);
    case Others(db) => OthersInv(s, db);
  }

  lemma BeginInv(s: State, step: Step)
    requires Inv(s) && step.Begin? && Apply(s, step).Some?
    ensures Inv(Apply(s, step).value)
  {
    var s' := Apply(s, step).value;
    forall u | u in s'.txs ensures TxOk(s', u) { assert u in s.txs ==> TxOk(s, u); }
    forall c | c in s'.used && s'.used[c] ensures c in s'.elsewhere || Taker(s', c) {
      if c !in s.elsewhere { TakerStays(s, s', c); }
    }
  }

  lemma CommitInv(s: State, t: TxId)
    requires Inv(s) && Apply(s, Commit(t)).Some?
    ensures Inv(Apply(s, Commit(t)).value)
  {
    var a := s.txs[t].phase.attempt;
    assert TxOk(s, t);
    forall u | u in s.txs && u != t && s.txs[u].phase.Promoted?
        ensures Succeeds(Promote(s.db, a), s.txs[u].phase.attempt) {
      assert TxOk(s, u);
    }
    TakeInv(s, t, Granted(a.token), Promote(s.db, a));
  }

  lemma SpendInv(s: State, c: CodeId)
    requires Inv(s) && Apply(s, SpendElsewhere(c)).Some?
    ensures Inv(Apply(s, SpendElsewhere(c)).value)
  {
    var s' := Apply(s, SpendElsewhere(c)).value;
    forall u | u in s'.txs ensures TxOk(s', u) { assert TxOk(s, u); }
    forall d | d in s'.used && s'.used[d] ensures d in s'.elsewhere || Taker(s', d) {
      if d != c && d !in s.elsewhere { TakerStays(s, s', d); }
    }
  }

  lemma OthersInv(s: State, db: Db)
    requires Inv(s) && Apply(s, Others(db)).Some?
    ensures Inv(Apply(s, Others(db)).value)
  {
    var s' := Apply(s, Others(db)).value;
    forall u | u in s'.txs ensures TxOk(s', u) { assert TxOk(s, u); }
    forall c | c in s'.used && s'.used[c] ensures c in s'.elsewhere || Taker(s', c) {
      if c !in s.elsewhere { TakerStays(s, s', c); }
    }
  }

  lemma StepCodes(s: State, step: Step)
    requires Inv(s) && Apply(s, step).Some?
    ensures Apply(s, step).value.used.Keys == s.used.Keys
  {
    hide Succeeds, Promote;
    assert forall t :: t in s.txs ==> TxOk(s, t);
  }

  /** The books stay in order, and no code is ever added or dropped. */
  lemma {:induction false} RunInv(s: State, run: seq<Step>)
    requires Inv(s) && Exec(s, run).Some?
    ensures Inv(Exec(s, run).value) && Exec(s, run).value.used.Keys == s.used.Keys
    decreases run
  {
    hide Inv, Apply;
    if run != [] {
      StepInv(s, run[0]);
      StepCodes(s, run[0]);
      RunInv(Apply(s, run[0]).value, run[1..]);
    }
  }

  predicate GrantedWith(s: State, t: TxId, code: CodeId) {
    t in s.txs && s.txs[t].code == Some(code) && s.txs[t].phase.Granted?
  }

  predicate BurntWith(s: State, t: TxId, code: CodeId) {
    t in s.txs && s.txs[t].code == Some(code) && s.txs[t].phase.Burnt?
  }

  /** Over any interleaving of completions, crashes, revocations and other uses of codes: a code that nothing else used
      is used exactly when one completion was granted with it, or one owner committed after the exception; never two,
      and a completion granted with a code that was used elsewhere does not exist. */
  lemma {:induction false} CodesAreConserved(s0: State, run: seq<Step>, code: CodeId)
    requires Init(s0) && Exec(s0, run).Some? && code in Exec(s0, run).value.used
    ensures var s := Exec(s0, run).value;
            && (s.used[code] && code !in s.elsewhere <==> exists t :: GrantedWith(s, t, code) || BurntWith(s, t, code))
            && (forall t, u | GrantedWith(s, t, code) || BurntWith(s, t, code) ::
                  GrantedWith(s, u, code) || BurntWith(s, u, code) ==> t == u)
  {
    RunInv(s0, run);
    var s := Exec(s0, run).value;
    hide Exec;
    assert forall t :: t in s.txs ==> TxOk(s, t);
    assert forall t :: GrantedWith(s, t, code) || BurntWith(s, t, code) ==> t in s.txs && Took(s.txs[t], code);
    if s.used[code] && code !in s.elsewhere {
      assert Taker(s, code);
      var t :| t in s.txs && Took(s.txs[t], code);
      assert GrantedWith(s, t, code) || BurntWith(s, t, code);
    }
  }

  predicate NoOwnerCommits(step: Step) {
    !step.OwnerCommits?
  }

  lemma {:induction false} NothingBurnt(s: State, run: seq<Step>)
    requires (forall t :: t in s.txs ==> !s.txs[t].phase.Burnt?) && Exec(s, run).Some?
    requires forall k :: 0 <= k < |run| ==> NoOwnerCommits(run[k])
    ensures forall t :: t in Exec(s, run).value.txs ==> !Exec(s, run).value.txs[t].phase.Burnt?
    decreases run
  {
    if run != [] {
      assert forall t :: t in Apply(s, run[0]).value.txs ==> !Apply(s, run[0]).value.txs[t].phase.Burnt?;
      hide Apply;
      NothingBurnt(Apply(s, run[0]).value, run[1..]);
    }
  }

  /** When every owner aborts on the exception, used codes and granted recoveries correspond one to one. */
  lemma {:induction false} OneCodeOneGrant(s0: State, run: seq<Step>, code: CodeId)
    requires Init(s0) && Exec(s0, run).Some? && code in Exec(s0, run).value.used
    requires forall k :: 0 <= k < |run| ==> NoOwnerCommits(run[k])
    ensures var s := Exec(s0, run).value;
            && (s.used[code] && code !in s.elsewhere <==> exists t :: GrantedWith(s, t, code))
            && (forall t, u :: GrantedWith(s, t, code) && GrantedWith(s, u, code) ==> t == u)
  {
    CodesAreConserved(s0, run, code);
    NothingBurnt(s0, run);
    hide Exec;
  }

  /** A commit grants for real, and to who completed: the conditional update it stands for matches, and the session,
      which is that user's, holds the new token and the time of the proof. */
  lemma CommitPromotes(s: State, t: TxId)
    requires Inv(s) && Apply(s, Commit(t)).Some?
    ensures var s' := Apply(s, Commit(t)).value; var a := s.txs[t].phase.attempt;
            && s.txs[t].session in s.db.sessions && s.txs[t].session in s'.db.sessions
            && s'.db.sessions[s.txs[t].session] == Advanced(s.db.sessions[s.txs[t].session], a)
            && s'.txs[t].phase == Granted(a.token)
            && s'.db.sessions[s.txs[t].session].user == s.txs[t].user
            && s'.db.sessions[s.txs[t].session].tokenHash == HashOf(a.token)
            && s'.db.sessions[s.txs[t].session].mfaVerifiedAt == Some(a.now)
  {
    assert TxOk(s, t);
    hide Inv;
  }

  /** A promotion that fails after the code was verified gives the code back when the completion owns its transaction:
      the rollback is the only way on, and after it the code is unused and free for the next attempt. An owner of its
      own transaction can commit instead, and exactly then the code is gone without a session. */
  lemma FailureGivesTheCodeBack(s: State, t: TxId, step: Step, code: CodeId)
    requires Inv(s) && t in s.txs && s.txs[t].phase.Failed? && s.txs[t].code == Some(code)
    requires Apply(s, step).Some? && t in Apply(s, step).value.txs
    ensures var s' := Apply(s, step).value;
            && code in s'.used
            && (s'.txs[t].phase == Failed || (step == Abort(t) && !s'.used[code] && CodeFree(s', code) && s'.db == s.db)
                || (step == OwnerCommits(t) && !s.txs[t].owned))
            && (s'.used[code] <==> step == OwnerCommits(t))
  {
    HolderFacts(s, t, code);
    hide Apply, Inv;
    if step.Abort? {
      AbortFrees(s, t, step.tx, code);
    } else if step == OwnerCommits(t) {
      OwnerBurns(s, t, code);
    } else {
      HeldIsNotFree(s, t, code);
      OthersSpare(s, t, step, code);
    }
  }

  lemma OwnerBurns(s: State, t: TxId, code: CodeId)
    requires Apply(s, OwnerCommits(t)).Some? && t in s.txs && s.txs[t].code == Some(code)
    ensures var s' := Apply(s, OwnerCommits(t)).value;
            !s.txs[t].owned && t in s'.txs && code in s'.used && s'.used[code]
  {
  }

  /** A step of another transaction, or of something else, leaves a held code and its holder alone. */
  lemma OthersSpare(s: State, t: TxId, step: Step, code: CodeId)
    requires t in s.txs && s.txs[t].phase.Failed? && s.txs[t].code == Some(code) && Apply(s, step).Some?
    requires code in s.used && !CodeFree(s, code) && forall u :: u in s.txs && u != t ==> !HoldsCode(s.txs[u], code)
    requires !step.Abort? && step != OwnerCommits(t)
    ensures var s' := Apply(s, step).value;
            && t in s'.txs && s'.txs[t] == s.txs[t] && code in s'.used && s'.used[code] == s.used[code]
  {
    hide Succeeds, Promote, CodeFree, SessionFree;
    if step.Commit? { CommitSparesOthers(s, step.tx, code); }
  }

  lemma HeldIsNotFree(s: State, t: TxId, code: CodeId)
    requires t in s.txs && HoldsCode(s.txs[t], code)
    ensures !CodeFree(s, code)
  {
  }

  lemma AbortFrees(s: State, t: TxId, u: TxId, code: CodeId)
    requires t in s.txs && s.txs[t].phase.Failed? && s.txs[t].code == Some(code) && Apply(s, Abort(u)).Some?
    requires code in s.used && !s.used[code] && forall v :: v in s.txs && v != t ==> !HoldsCode(s.txs[v], code)
    ensures var s' := Apply(s, Abort(u)).value;
            && t in s'.txs && s'.db == s.db && s'.used == s.used
            && (if u == t then CodeFree(s', code) else s'.txs[t] == s.txs[t])
  {
  }

  lemma CommitSparesOthers(s: State, u: TxId, code: CodeId)
    requires u in s.txs && s.txs[u].phase.Promoted? && !HoldsCode(s.txs[u], code)
    ensures s.txs[u].code != Some(code)
  {
  }

  lemma HolderFacts(s: State, t: TxId, code: CodeId)
    requires Inv(s) && t in s.txs && HoldsCode(s.txs[t], code)
    ensures code in s.used && !s.used[code]
    ensures forall u :: u in s.txs && u != t ==> !HoldsCode(s.txs[u], code)
  {
    assert TxOk(s, t);
  }

  // ---------------------------------------------------------------------------------------------- one at a time

  /** No other completion has a code or a session in its hands. */
  predicate Quiet(s: State) {
    forall t :: t in s.txs ==> s.txs[t].phase in {Open, Refunded, Conflicted, Burnt} || s.txs[t].phase.Granted?
  }

  lemma FourSteps(s0: State, s1: State, s2: State, s3: State, s4: State, a: Step, b: Step, c: Step, d: Step)
    requires Apply(s0, a) == Some(s1) && Apply(s1, b) == Some(s2) && Apply(s2, c) == Some(s3)
             && Apply(s3, d) == Some(s4)
    ensures Exec(s0, [a, b, c, d]) == Some(s4)
  {
    hide Apply;
    var run := [a, b, c, d];
    assert run[1..] == [b, c, d] && [b, c, d][1..] == [c, d] && [c, d][1..] == [d] && [d][1..] == [];
    assert Exec(s4, []) == Some(s4);
    assert Exec(s3, [d]) == Some(s4);
    assert Exec(s2, [c, d]) == Some(s4);
    assert Exec(s1, [b, c, d]) == Some(s4);
  }

  /** What anyone else does to the tables is not held up, but for the rows a promotion has written and not committed. */
  lemma WhoWaitsForACompletion(s: State, db: Db)
    ensures Apply(s, Others(db)).Some?
            <==> forall t :: t in s.txs && s.txs[t].phase.Promoted? ==>
                   && s.txs[t].session in s.db.sessions && s.txs[t].session in db.sessions
                   && db.sessions[s.txs[t].session] == s.db.sessions[s.txs[t].session]
    ensures Apply(s, Others(db)).Some? ==> Apply(s, Others(db)).value == s.(db := db)
  {
  }

  lemma TakesItsCode(s: State, t: TxId, user: UserId, session: SessionId, code: Option<CodeId>, owned: bool)
    requires Quiet(s) && t !in s.txs && (code.Some? ==> code.value in s.used && !s.used[code.value])
    ensures Apply(s, Begin(t, user, session, code, owned))
            == Some(s.(txs := s.txs[t := Tx(user, session, code, owned, Open)]))
    ensures Apply(s.(txs := s.txs[t := Tx(user, session, code, owned, Open)]), Consume(t))
            == Some(s.(txs := s.txs[t := Tx(user, session, code, owned, Consumed)]))
  {
    var s1 := s.(txs := s.txs[t := Tx(user, session, code, owned, Open)]);
    assert At(s1, t, Consumed).txs == s.txs[t := Tx(user, session, code, owned, Consumed)];
  }

  /** A completion that nobody is in the way of does in its steps what `completeMfa` does in one call: with a usable
      code and an eligible session both writes happen; with an eligible session missing, neither once it is rolled back;
      and a code that is used already ends it at once. */
  lemma StepsDoWhatTheCallDoes(s: State, t: TxId, user: UserId, session: SessionId, code: Option<CodeId>, owned: bool,
                               now: nat, token: Token)
    requires Quiet(s) && t !in s.txs && (code.Some? ==> code.value in s.used)
    ensures var a := ToFull(s.db, session, user, now, token, true); var begin := Begin(t, user, session, code, owned);
            var done := (phase: Phase) => s.txs[t := Tx(user, session, code, owned, phase)];
            if code.Some? && s.used[code.value] then
              Exec(s, [begin, Consume(t)]) == Some(s.(txs := done(Conflicted)))
            else if Succeeds(s.db, a) then
              Exec(s, [begin, Consume(t), Advance(t, a), Commit(t)])
              == Some(s.(txs := done(Granted(token)), db := Promote(s.db, a),
                         used := if code.Some? then s.used[code.value := true] else s.used))
            else Exec(s, [begin, Consume(t), Advance(t, a), Abort(t)]) == Some(s.(txs := done(Refunded)))
  {
    var a, begin := ToFull(s.db, session, user, now, token, true), Begin(t, user, session, code, owned);
    if code.Some? && s.used[code.value] {
      ConflictsAtOnce(s, t, user, session, code.value, owned);
    } else {
      var s2 := s.(txs := s.txs[t := Tx(user, session, code, owned, Consumed)]);
      TakesItsCode(s, t, user, session, code, owned);
      AdvancesAndEnds(s, t, user, session, code, owned, a);
      hide Apply, Exec, Quiet;
      var s1 := s.(txs := s.txs[t := Tx(user, session, code, owned, Open)]);
      var s3 := Apply(s2, Advance(t, a)).value;
      var last := if Succeeds(s.db, a) then Commit(t) else Abort(t);
      FourSteps(s, s1, s2, s3, Apply(s3, last).value, begin, Consume(t), Advance(t, a), last);
    }
  }

  lemma ConflictsAtOnce(s: State, t: TxId, user: UserId, session: SessionId, code: CodeId, owned: bool)
    requires Quiet(s) && t !in s.txs && code in s.used && s.used[code]
    ensures Exec(s, [Begin(t, user, session, Some(code), owned), Consume(t)])
            == Some(s.(txs := s.txs[t := Tx(user, session, Some(code), owned, Conflicted)]))
  {
    var s1 := s.(txs := s.txs[t := Tx(user, session, Some(code), owned, Open)]);
    var s2 := s.(txs := s.txs[t := Tx(user, session, Some(code), owned, Conflicted)]);
    assert Apply(s1, Consume(t)).value.txs == s2.txs;
    var run := [Begin(t, user, session, Some(code), owned), Consume(t)];
    assert run[1..] == [Consume(t)] && [Consume(t)][1..] == [];
    assert Exec(s2, []) == Some(s2) && Exec(s1, [Consume(t)]) == Some(s2);
  }

  lemma AdvancesAndEnds(s: State, t: TxId, user: UserId, session: SessionId, code: Option<CodeId>, owned: bool,
                        a: Attempt)
    requires Quiet(s) && t !in s.txs && a.session == session && a.user == user && a.verified
    ensures var s2 := s.(txs := s.txs[t := Tx(user, session, code, owned, Consumed)]);
            var s3 := s.(txs := s.txs[t := Tx(user, session, code, owned,
                                              if Succeeds(s.db, a) then Promoted(a) else Failed)]);
            && Apply(s2, Advance(t, a)) == Some(s3)
            && (Succeeds(s.db, a) ==>
                  Apply(s3, Commit(t))
                  == Some(s.(txs := s.txs[t := Tx(user, session, code, owned, Granted(a.token))],
                             db := Promote(s.db, a),
                             used := if code.Some? then s.used[code.value := true] else s.used)))
            && (!Succeeds(s.db, a) ==>
                  Apply(s3, Abort(t)) == Some(s.(txs := s.txs[t := Tx(user, session, code, owned, Refunded)])))
  {
    hide Succeeds, Promote;
    var s2 := s.(txs := s.txs[t := Tx(user, session, code, owned, Consumed)]);
    var phase := if Succeeds(s.db, a) then Promoted(a) else Failed;
    var s3 := s.(txs := s.txs[t := Tx(user, session, code, owned, phase)]);
    assert At(s2, t, phase).txs == s3.txs;
    assert At(s3, t, Granted(a.token)).txs == s.txs[t := Tx(user, session, code, owned, Granted(a.token))];
    assert At(s3, t, Refunded).txs == s.txs[t := Tx(user, session, code, owned, Refunded)];
  }
}
