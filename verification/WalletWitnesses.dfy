/** Runs that show which guarantees of the wallet protocol need the conditions they are stated under. */
module WalletWitnesses {
  import opened Options
  import opened WalletModel
  import opened WalletInvariant
  import opened WalletRuns
  import opened WalletAgreement
  import opened WalletWinner
  import opened WalletExpiry

  const PLAIN: Patch := Patch(None, None, None, None, None)

  /** One attendee, nothing issued, template 1 and a key. */
  function Opening(expires: bool): State {
    State(0, 1000, Event(Some(1), Some(0), expires, 10, 0), map[0 := Live], map[], map[], map[], map[], map[], map[],
          map[], map[], {})
  }

  lemma OpeningIsInit(expires: bool)
    ensures Init(Opening(expires))
  {
  }

  // ---------------------------------------------------------------------------------------------- template agreement

  function ToTemplate(template: TemplateId): Patch {
    PLAIN.(template := Some(Some(template)))
  }

  /** A save that sends template 1 back reads the event; another save moves the event to template 2; a pass is issued
      under 2; then the first save writes. */
  function StaleSave(): seq<Step> {
    [PatchStep(PatchBegin(0, ToTemplate(1)))] + GuardedSave(1, ToTemplate(2)) + [WorldStep(Arrive(0, 0, 0))]
    + ToIssue(0, 0, 0) + [PatchStep(PatchCommit(0))]
  }

  function MovedOn(): State {
    Tx(Opening(false), 0, ToTemplate(1), Begun).(event := Event(Some(2), Some(0), false, 10, 0))
  }

  lemma MovesOn()
    ensures Exec(Opening(false), [PatchStep(PatchBegin(0, ToTemplate(1)))] + GuardedSave(1, ToTemplate(2)))
            == Some(MovedOn())
  {
    var s := Opening(false);
    var s1 := Tx(s, 0, ToTemplate(1), Begun);
    assert Apply(s, PatchStep(PatchBegin(0, ToTemplate(1)))) == Some(s1);
    assert Patched(s1.event, ToTemplate(2)) == MovedOn().event;
    SavesAlone(s1, 1, ToTemplate(2));
    hide Apply, GuardedSave, Patched;
    ExecOne(s, PatchStep(PatchBegin(0, ToTemplate(1))));
    ExecAppend(s, [PatchStep(PatchBegin(0, ToTemplate(1)))], GuardedSave(1, ToTemplate(2)));
  }

  function Arrived(s: State, t: TapId, i: Instance): State {
    s.(taps := s.taps[t := Tap(i, 0, s.event, Looking, None)])
  }

  lemma Arrives(s: State, run: seq<Step>, s1: State, t: TapId, i: Instance)
    requires Exec(s, run) == Some(s1) && t !in s1.taps && s1.event.template.Some? && s1.event.key.Some?
    ensures Exec(s, run + [WorldStep(Arrive(t, i, 0))]) == Some(Arrived(s1, t, i))
  {
    hide Exec;
    Then(s, run, s1, WorldStep(Arrive(t, i, 0)), Arrived(s1, t, i));
  }

  /** The commit of the stale save: from a state in which the pass was issued under template 2. */
  lemma StaleCommit(s: State, s2: State)
    requires Undisturbed(s, 0, 0, 0) && s == Arrived(MovedOn(), 0, 0) && Issued(s, s2, 0, 0)
    ensures Apply(s2, PatchStep(PatchCommit(0))).Some?
    ensures LiveIssued(Apply(s2, PatchStep(PatchCommit(0))).value, 0)
    ensures !RowAgrees(Apply(s2, PatchStep(PatchCommit(0))).value, 0)
  {
    hide Undisturbed;
  }

  /** The comparison of a settings save is with the row as it was before its transaction; a pass issued in between under
      another template then belongs to a template the event does not record. */
  lemma StaleSaveBreaksAgreement()
    ensures Init(Opening(false)) && Exec(Opening(false), StaleSave()).Some?
    ensures var s := Exec(Opening(false), StaleSave()).value; LiveIssued(s, 0) && !RowAgrees(s, 0)
  {
    var s := Arrived(MovedOn(), 0, 0);
    MovesOn();
    var before := [PatchStep(PatchBegin(0, ToTemplate(1)))] + GuardedSave(1, ToTemplate(2));
    Arrives(Opening(false), before, MovedOn(), 0, 0);
    assert Undisturbed(s, 0, 0, 0);
    hide Apply, GuardedSave, MovedOn, Undisturbed, Opening, Issued, Arrived, ToIssue, LiveIssued, RowAgrees, Exec;
    UndisturbedTapIssues(s, 0, 0, 0);
    ExecAppend(Opening(false), before + [WorldStep(Arrive(0, 0, 0))], ToIssue(0, 0, 0));
    var s2 := Exec(s, ToIssue(0, 0, 0)).value;
    StaleCommit(s, s2);
    Then(Opening(false), before + [WorldStep(Arrive(0, 0, 0))] + ToIssue(0, 0, 0), s2, PatchStep(PatchCommit(0)),
         Apply(s2, PatchStep(PatchCommit(0))).value);
    OpeningIsInit(false);
  }

  /** As before, but the first save writes while the tap stands between its check and its write. */
  function MidSave(): seq<Step> {
    [PatchStep(PatchBegin(0, ToTemplate(1)))] + GuardedSave(1, ToTemplate(2)) + [WorldStep(Arrive(0, 0, 0))]
    + (ToReserve(0) + ToCreated(0, 0, 0) + ToCheck(0) + [TapStep(0, Save(CheckEvent))])
    + [PatchStep(PatchCommit(0))] + [TapStep(0, Save(CommitActive(false)))]
  }

  /** The save and the write, once the tap has checked: nothing is issued, the agreement holds right after the save. */
  lemma CommitsMidSave(s: State, s1: State)
    requires s == Arrived(MovedOn(), 0, 0) && Undisturbed(s, 0, 0, 0) && s1 == BeforeWrite(s, 0, 0, 0)
    ensures Apply(s1, PatchStep(PatchCommit(0))).Some?
    ensures var s2 := Apply(s1, PatchStep(PatchCommit(0))).value;
            && NoneIssued(s1) && Agreement(s2)
            && 0 in s2.taps && s2.taps[0].event.template.Some? && s2.taps[0].pc.Saving? && s2.taps[0].pc.save.Write?
            && var s3 := AfterSave(s2, 0);
            && LiveIssued(s3, 0) && !RowAgrees(s3, 0)
  {
    BeforeCheckFacts(s, 0, 0, 0);
    hide BeforeCheck, Undisturbed;
    assert s1.rows == map[0 := ReservedRow(s, 0)] && s1.attendees == map[0 := Live];
    assert s1.patches == map[0 := PatchTx(ToTemplate(1), Opening(false).event, Begun)];
    assert s1.event.template == Some(2) && s1.passes[0].template == 2;
  }

  /** A save that writes between the check and the write of a tap breaks nothing by itself, as nothing is issued; the
      pass the tap then saves belongs to a template the event does not record. */
  lemma MidSaveBreaksAgreement()
    ensures Init(Opening(false)) && Exec(Opening(false), MidSave()).Some?
    ensures var s := Exec(Opening(false), MidSave()).value; LiveIssued(s, 0) && !RowAgrees(s, 0)
  {
    var o := Opening(false);
    var s := Arrived(MovedOn(), 0, 0);
    MovesOn();
    var before := [PatchStep(PatchBegin(0, ToTemplate(1)))] + GuardedSave(1, ToTemplate(2));
    Arrives(o, before, MovedOn(), 0, 0);
    assert Undisturbed(s, 0, 0, 0);
    OpeningIsInit(false);
    hide Apply, GuardedSave, MovedOn, Undisturbed, Opening, Arrived, BeforeWrite, AfterSave, ToReserve, ToCreated,
        ToCheck,
         LiveIssued, RowAgrees, Agreement, NoneIssued, Exec;
    ReachesWrite(s, 0, 0, 0);
    var toWrite := ToReserve(0) + ToCreated(0, 0, 0) + ToCheck(0) + [TapStep(0, Save(CheckEvent))];
    var s1 := BeforeWrite(s, 0, 0, 0);
    ExecAppend(o, before + [WorldStep(Arrive(0, 0, 0))], toWrite);
    CommitsMidSave(s, s1);
    var s2 := Apply(s1, PatchStep(PatchCommit(0))).value;
    Then(o, before + [WorldStep(Arrive(0, 0, 0))] + toWrite, s1, PatchStep(PatchCommit(0)), s2);
    Commits(s2, 0);
    Then(o, before + [WorldStep(Arrive(0, 0, 0))] + toWrite + [PatchStep(PatchCommit(0))], s2,
         TapStep(0, Save(CommitActive(false))), AfterSave(s2, 0));
  }

  // ---------------------------------------------------------------------------------------------- the end of the event

  /** The event is rescheduled between the check of a save and its write: such a settings save takes no lock. */
  function Reschedule(): seq<Step> {
    [WorldStep(Arrive(0, 0, 0))] + (ToReserve(0) + ToCreated(0, 0, 0) + ToCheck(0) + [TapStep(0, Save(CheckEvent))])
    + PlainSave(0, PLAIN.(local := Some(20))) + [TapStep(0, Save(CommitActive(false)))]
  }

  lemma BeforeWriteFacts(s: State, t: TapId, c: CallId, p: PassId)
    requires Undisturbed(s, t, c, p)
    ensures var s' := BeforeWrite(s, t, c, p);
            && t in s'.taps && s'.taps[t] == s.taps[t].(pc := Saving(Write(EventEnd(s.event)), p))
            && s'.event == s.event && s'.patches == s.patches
  {
    hide BeforeCheck, EventEnd, Undisturbed;
    BeforeCheckFacts(s, t, c, p);
  }

  /** The row is saved with the end the event no longer has. */
  lemma RescheduleBreaksExpiry()
    ensures Init(Opening(true)) && Exec(Opening(true), Reschedule()).Some?
    ensures var s := Exec(Opening(true), Reschedule()).value;
            && 0 in s.rows && s.rows[0].status.Active? && s.rows[0].expiresAt == Some(End(10, 0))
            && EventEnd(s.event) == Some(End(20, 0))
  {
    var o := Opening(true);
    var s := Arrived(o, 0, 0);
    var fields := PLAIN.(local := Some(20));
    assert Exec(o, []) == Some(o) && [] + [WorldStep(Arrive(0, 0, 0))] == [WorldStep(Arrive(0, 0, 0))];
    Arrives(o, [], o, 0, 0);
    assert Undisturbed(s, 0, 0, 0);
    assert EventEnd(s.event) == Some(End(10, 0)) && EventEnd(Patched(s.event, fields)) == Some(End(20, 0));
    assert s.taps[0].attendee == 0 && s.patches == map[];
    OpeningIsInit(true);
    hide Opening, Arrived, Undisturbed, EventEnd, BeforeWrite, Exec, Apply, Patched, PlainSave, ToReserve, ToCreated,
        ToCheck;
    ReachesWrite(s, 0, 0, 0);
    BeforeWriteFacts(s, 0, 0, 0);
    var toWrite := ToReserve(0) + ToCreated(0, 0, 0) + ToCheck(0) + [TapStep(0, Save(CheckEvent))];
    var s1 := BeforeWrite(s, 0, 0, 0);
    ExecAppend(o, [WorldStep(Arrive(0, 0, 0))], toWrite);
    SavesUnguarded(s1, 0, fields);
    var s2 := s1.(event := Patched(s1.event, fields));
    ExecAppend(o, [WorldStep(Arrive(0, 0, 0))] + toWrite, PlainSave(0, fields));
    Commits(s2, 0);
    Then(o, [WorldStep(Arrive(0, 0, 0))] + toWrite + PlainSave(0, fields), s2, TapStep(0, Save(CommitActive(false))),
         AfterSave(s2, 0));
  }

  // ---------------------------------------------------------------------------------------------- late sends

  /** An erasure begins, a tap reserves 50 s later, the erasure locks and commits, the tap sends 119 s after that. */
  function LateSend(): seq<Step> {
    [ErasureStep(EraseBegin(0, 0)), WorldStep(Arrive(0, 0, 0)), WorldStep(Tick(50_000))] + ToReserve(0)
    + EraseAndSend()
  }

  function ErasureOpen(): State {
    Arrived(Opening(false), 0, 0).(erasures := map[0 := Erasure(0, 0, false)], now := 50_000)
  }

  lemma ErasureOpens()
    ensures Exec(Opening(false), [ErasureStep(EraseBegin(0, 0)), WorldStep(Arrive(0, 0, 0)), WorldStep(Tick(50_000))])
            == Some(ErasureOpen())
  {
    var o := Opening(false);
    var s1 := o.(erasures := map[0 := Erasure(0, 0, false)]);
    var s2 := Arrived(o, 0, 0).(erasures := map[0 := Erasure(0, 0, false)]);
    assert Apply(o, ErasureStep(EraseBegin(0, 0))) == Some(s1);
    assert Apply(s1, WorldStep(Arrive(0, 0, 0))) == Some(s2);
    assert Apply(s2, WorldStep(Tick(50_000))) == Some(ErasureOpen());
    hide Apply, Opening, Arrived, ErasureOpen;
    TraceRuns([o, s1, s2, ErasureOpen()],
              [ErasureStep(EraseBegin(0, 0)), WorldStep(Arrive(0, 0, 0)), WorldStep(Tick(50_000))]);
  }

  lemma ErasesAfterReserve(s: State)
    requires s == AfterReserve(ErasureOpen(), 0)
    ensures var s1 := s.(erasures := map[0 := Erasure(0, 0, true)]);
            && Apply(s, ErasureStep(EraseLock(0))) == Some(s1)
            && Apply(s1, ErasureStep(EraseCommit(0))).Some?
            && var s2 := Apply(s1, ErasureStep(EraseCommit(0))).value;
            && s2.attendees == map[0 := Erased(0, 50_000)] && s2.taps == s.taps && s2.calls == s.calls
            && s2.now == 50_000
  {
    assert s.erasures[0 := Erasure(0, 0, true)] == map[0 := Erasure(0, 0, true)];
    assert s.attendees[0 := Erased(0, 50_000)] == map[0 := Erased(0, 50_000)];
  }

  function EraseAndSend(): seq<Step> {
    [ErasureStep(EraseLock(0)), ErasureStep(EraseCommit(0)), WorldStep(Tick(119_000)), TapStep(0, Send(SendCreate(0)))]
  }

  /** From the reservation on: the erasure takes its lock, commits, and the call leaves 119 s later. */
  lemma SendsLate(s: State)
    requires s == AfterReserve(ErasureOpen(), 0)
    ensures Exec(s, EraseAndSend()).Some?
    ensures var s' := Exec(s, EraseAndSend()).value;
            && 0 in s'.calls && s'.calls[0].attendee == 0 && s'.calls[0].sentAt == 169_000
            && 0 in s'.attendees && s'.attendees[0] == Erased(0, 50_000)
  {
    assert 0 in s.taps && s.taps[0].pc == Sending(Create, 50_000) && s.taps[0].event.template.Some? && s.calls == map[]
           && s.taps[0].attendee == 0;
    ErasesAfterReserve(s);
    var s1 := s.(erasures := map[0 := Erasure(0, 0, true)]);
    var s2 := Apply(s1, ErasureStep(EraseCommit(0))).value;
    var s3 := s2.(now := 169_000);
    assert Apply(s2, WorldStep(Tick(119_000))) == Some(s3);
    hide Apply, AfterReserve, ErasureOpen, Exec;
    SendsAt(s3);
    var s4 := Apply(s3, TapStep(0, Send(SendCreate(0)))).value;
    TraceRuns([s, s1, s2, s3, s4], EraseAndSend());
  }

  lemma SendsAt(s: State)
    requires 0 in s.taps && s.taps[0].pc == Sending(Create, 50_000) && s.now == 169_000 && 0 !in s.calls
    requires s.taps[0].event.template.Some? && s.taps[0].attendee == 0
    ensures Apply(s, TapStep(0, Send(SendCreate(0)))).Some?
    ensures var s' := Apply(s, TapStep(0, Send(SendCreate(0)))).value;
            && 0 in s'.calls && s'.calls[0].attendee == 0 && s'.calls[0].sentAt == 169_000
            && s'.attendees == s.attendees
  {
  }

  /** `erased_at` is when the erasure's transaction began: a call can leave more than the send deadline after it. The
      bound counts from the commit. */
  lemma ErasedAtIsNotTheBound()
    ensures Init(Opening(false)) && Exec(Opening(false), LateSend()).Some?
    ensures var s := Exec(Opening(false), LateSend()).value;
            && 0 in s.calls && s.calls[0].attendee == 0 && 0 in s.attendees && s.attendees[0].Erased?
            && s.calls[0].sentAt >= s.attendees[0].erasedAt + CREATE_PASS_DEADLINE_MS
  {
    OpeningIsInit(false);
    ErasureOpens();
    assert Ready(ErasureOpen(), 0);
    hide Exec, Opening, ErasureOpen, AfterReserve, Ready, ToReserve, Apply;
    ReservesAlone(ErasureOpen(), 0);
    SendsLate(AfterReserve(ErasureOpen(), 0));
    var before := [ErasureStep(EraseBegin(0, 0)), WorldStep(Arrive(0, 0, 0)), WorldStep(Tick(50_000))];
    ExecAppend(Opening(false), before, ToReserve(0));
    ExecAppend(Opening(false), before + ToReserve(0), EraseAndSend());
  }

  // ---------------------------------------------------------------------------------------------- the loser and a void

  function VoidAndLose(): seq<Step> {
    [StaffStep(Void(0)), WorldStep(Refuse(1, false)), TapStep(1, Send(TakeReply)), TapStep(1, Fail(LockToFail)),
     TapStep(1, Fail(CommitFailed))]
  }

  function BothOnTheirWay(): seq<Step> {
    [WorldStep(Arrive(1, 1, 0))] + ToReserve(1) + [TapStep(1, Send(SendCreate(1)))] + [WorldStep(Arrive(0, 0, 0))]
  }

  /** Two instances: the second tap reserves and sends, the first one gets its pass saved, staff void it, then the
      second tap's creation is rejected and it records its failure. */
  function LoserAfterVoid(): seq<Step> {
    BothOnTheirWay() + ToIssue(0, 0, 0) + VoidAndLose()
  }

  /** Tap 1 waits for its creation call 1 while nobody else is about. */
  predicate LoserWaits(s: State) {
    && 1 in s.taps && s.taps[1].attendee == 0 && s.taps[1].instance == 1 && s.taps[1].event.template.Some?
    && s.taps[1].pc == Sending(Creating(1), 0) && 1 in s.calls && s.calls[1].reply.None?
    && s.attendees == map[0 := Live] && s.erasures == map[] && s.patches == map[] && s.locks == map[(1, 0) := 1]
  }

  function LoserSent(): State {
    var s := AfterReserve(Arrived(Opening(false), 1, 1), 1);
    At(s, 1, Sending(Creating(1), 0)).(calls := s.calls[1 := CreateCall(s, 1)])
  }

  lemma LoserSends()
    ensures Ready(Arrived(Opening(false), 1, 1), 1)
    ensures Apply(AfterReserve(Arrived(Opening(false), 1, 1), 1), TapStep(1, Send(SendCreate(1)))) == Some(LoserSent())
  {
    SendsCreate(AfterReserve(Arrived(Opening(false), 1, 1), 1), 1, 1, 0);
  }

  lemma LoserSentFacts()
    ensures LoserWaits(Arrived(LoserSent(), 0, 0)) && Undisturbed(Arrived(LoserSent(), 0, 0), 0, 0, 0)
    ensures 0 !in LoserSent().taps && LoserSent().event.template.Some? && LoserSent().event.key.Some?
  {
    assert map[][(1, 0) := 1] == map[(1, 0) := 1];
  }

  lemma LoserWaitsHere()
    ensures Exec(Opening(false), BothOnTheirWay()) == Some(Arrived(LoserSent(), 0, 0))
  {
    var o := Opening(false);
    var s := Arrived(o, 1, 1);
    assert [] + [WorldStep(Arrive(1, 1, 0))] == [WorldStep(Arrive(1, 1, 0))] && Exec(o, []) == Some(o);
    Arrives(o, [], o, 1, 1);
    LoserSends();
    LoserSentFacts();
    hide Opening, Arrived, AfterReserve, Exec, Apply, ToReserve, LoserWaits, Undisturbed, LoserSent, Ready;
    ReservesAlone(s, 1);
    ExecAppend(o, [WorldStep(Arrive(1, 1, 0))], ToReserve(1));
    Then(o, [WorldStep(Arrive(1, 1, 0))] + ToReserve(1), AfterReserve(s, 1), TapStep(1, Send(SendCreate(1))),
         LoserSent());
    Arrives(o, [WorldStep(Arrive(1, 1, 0))] + ToReserve(1) + [TapStep(1, Send(SendCreate(1)))], LoserSent(), 0, 0);
  }

  predicate Saved(s0: State, s: State) {
    && LoserWaits(s0) && 0 in s0.taps && s0.event.template.Some? && s0.taps[0].attendee == 0
    && Issued(s0, s, 0, 0) && ElseUnchanged(s0, s, 0)
  }

  function Voided(s: State): State
    requires 0 in s.rows
  {
    s.(rows := s.rows[0 := s.rows[0].(status := Status.Voided)])
  }

  function Rejects(s: State): State
    requires 1 in s.calls
  {
    s.(calls := s.calls[1 := s.calls[1].(reply := Some(Rejected))])
  }

  lemma VoidsAndRejects(s0: State, s: State)
    requires Saved(s0, s)
    ensures 0 in s.rows && Apply(s, StaffStep(Void(0))) == Some(Voided(s))
    ensures 1 in s.calls && Apply(Voided(s), WorldStep(Refuse(1, false))) == Some(Rejects(Voided(s)))
  {
    assert !Gone(s, 0) && RowLockFree(s, 0);
  }

  lemma LoserLocks(s0: State, s: State)
    requires Saved(s0, s) && 0 in s.rows && 1 in s.calls
    ensures var s2 := Rejects(Voided(s));
            && 1 in s2.taps && s2.taps[1].attendee == 0 && s2.taps[1].event.template.Some?
            && Apply(s2, TapStep(1, Send(TakeReply))) == Some(At(s2, 1, Failing(false)))
            && Apply(At(s2, 1, Failing(false)), TapStep(1, Fail(LockToFail))) == Some(At(s2, 1, Failing(true)))
  {
    assert !Gone(s, 0) && RowLockFree(s, 0);
    var s2 := Rejects(Voided(s));
    assert s2.taps[1].pc == Sending(Creating(1), 0) && s2.calls[1].reply == Some(Rejected);
    hide Apply, Issued, ElseUnchanged, LoserWaits;
    Goes(s2, 1, Send(TakeReply), Failing(false));
    GoesOn(s2, 1, Failing(false), Fail(LockToFail), Failing(true));
  }

  /** Once the winner's pass is saved: staff void it, and the loser records its failure over the voided row. */
  lemma VoidsAndLoses(s0: State, s: State)
    requires Saved(s0, s)
    ensures Exec(s, VoidAndLose()).Some?
    ensures var s' := Exec(s, VoidAndLose()).value; 0 in s'.rows && s'.rows[0].status.Failed? && s'.rows[0].issued
  {
    hide Apply, Exec, Saved, VoidAndLose;
    VoidsAndRejects(s0, s);
    LoserLocks(s0, s);
    FailsVoided(s0, s);
    hide At, Voided, Rejects;
    var s2 := Rejects(Voided(s));
    var s4 := At(s2, 1, Failing(true));
    LosesInSteps(s, Voided(s), s2, At(s2, 1, Failing(false)), s4);
  }

  lemma LosesInSteps(s: State, s1: State, s2: State, s3: State, s4: State)
    requires Apply(s, StaffStep(Void(0))) == Some(s1) && Apply(s1, WorldStep(Refuse(1, false))) == Some(s2)
    requires Apply(s2, TapStep(1, Send(TakeReply))) == Some(s3) && Apply(s3, TapStep(1, Fail(LockToFail))) == Some(s4)
    requires Apply(s4, TapStep(1, Fail(CommitFailed))).Some?
    ensures Exec(s, VoidAndLose()) == Apply(s4, TapStep(1, Fail(CommitFailed)))
  {
    hide Apply, Exec;
    var s5 := Apply(s4, TapStep(1, Fail(CommitFailed))).value;
    TraceRuns([s, s1, s2, s3, s4, s5], VoidAndLose());
  }

  lemma RecordsFailure(s: State)
    requires 1 in s.taps && s.taps[1].pc == Failing(true) && s.taps[1].attendee == 0 && s.taps[1].event.template.Some?
    requires 0 in s.rows && s.rows[0].status.Voided? && s.rows[0].issued
    ensures Apply(s, TapStep(1, Fail(CommitFailed))).Some?
    ensures var s' := Apply(s, TapStep(1, Fail(CommitFailed))).value;
            0 in s'.rows && s'.rows[0].status.Failed? && s'.rows[0].issued
  {
    hide InCreation;
  }

  lemma FailsVoided(s0: State, s: State)
    requires Saved(s0, s) && 0 in s.rows && 1 in s.calls && 1 in Rejects(Voided(s)).taps
    requires Rejects(Voided(s)).taps[1].attendee == 0 && Rejects(Voided(s)).taps[1].event.template.Some?
    ensures var s4 := At(Rejects(Voided(s)), 1, Failing(true));
            && Apply(s4, TapStep(1, Fail(CommitFailed))).Some?
            && var s5 := Apply(s4, TapStep(1, Fail(CommitFailed))).value;
               0 in s5.rows && s5.rows[0].status.Failed? && s5.rows[0].issued
  {
    assert s.rows[0].issued;
    hide Saved, Apply;
    RecordsFailure(At(Rejects(Voided(s)), 1, Failing(true)));
  }

  /** With a staff action and two instances a failed row that was issued can be reached. */
  lemma VoidLetsTheLoserFail()
    ensures Init(Opening(false)) && Exec(Opening(false), LoserAfterVoid()).Some?
    ensures var s := Exec(Opening(false), LoserAfterVoid()).value;
            0 in s.rows && s.rows[0].status.Failed? && s.rows[0].issued
  {
    OpeningIsInit(false);
    var s := Arrived(LoserSent(), 0, 0);
    LoserWaitsHere();
    LoserSentFacts();
    UndisturbedTapIssues(s, 0, 0, 0);
    assert Saved(s, Exec(s, ToIssue(0, 0, 0)).value);
    hide Saved, Opening, Exec, BothOnTheirWay, ToIssue, VoidAndLose, Undisturbed, LoserSent, LoserWaits, Issued,
        ElseUnchanged, Arrived;
    VoidsAndLoses(s, Exec(s, ToIssue(0, 0, 0)).value);
    ExecAppend(Opening(false), BothOnTheirWay(), ToIssue(0, 0, 0));
    ExecAppend(Opening(false), BothOnTheirWay() + ToIssue(0, 0, 0), VoidAndLose());
  }

  // -------------------------------------------------------------------------------------------- two passes left behind

  /** Twice a creation loses the event's template while it is under way, and twice the delete fails. */
  function TwoMishaps(): seq<Step> {
    [WorldStep(Arrive(0, 0, 0))] + Mishap(0, 0, 0, 0, ToTemplate(2))
    + [WorldStep(Arrive(1, 0, 0))] + Mishap(1, 1, 1, 0, ToTemplate(3))
  }

  predicate AfterOne(s: State) {
    && s.rows == map[0 := Row(Pending, None, Some(ReservedId(0)), None, false, None, None, false, false, Some(0))]
    && s.passes == map[0 := Pass(ReservedId(0), 1, None, true)] && s.replaced == map[0 := 0] && s.log == {}
    && s.event == Event(Some(2), Some(0), false, 10, 0) && s.taps.Keys == {0} && s.taps[0].pc == Settled(NoPass)
    && s.locks == map[] && s.patches == map[] && s.attendees == map[0 := Live] && s.erasures == map[]
    && s.calls.Keys == {0}
  }

  lemma FirstMishap()
    ensures WillMishap(Arrived(Opening(false), 0, 0), 0, 0, 0, 0, ToTemplate(2))
    ensures AfterOne(AfterMishap(Arrived(Opening(false), 0, 0), 0, 0, 0, 0, ToTemplate(2)))
  {
    var s := Arrived(Opening(false), 0, 0);
    assert Undisturbed(s, 0, 0, 0);
    MishapFacts(s, 0, 0, 0, 0, ToTemplate(2));
    MishapFrame(s, 0, 0, 0, 0, ToTemplate(2));
    hide AfterMishap;
  }

  lemma SecondMishap(s1: State)
    requires AfterOne(s1)
    ensures var s := Arrived(s1, 1, 0);
            && WillMishap(s, 1, 1, 1, 0, ToTemplate(3))
            && var s' := AfterMishap(s, 1, 1, 1, 0, ToTemplate(3));
            && 0 in s'.passes && s'.passes[0].present && 0 in s'.replaced && 0 !in s'.log
            && s'.attendees == map[0 := Live]
            && 0 in s'.rows && s'.rows[0].leftBehind == Some(1)
  {
    var s := Arrived(s1, 1, 0);
    assert Undisturbed(s, 1, 1, 1);
    MishapFacts(s, 1, 1, 1, 0, ToTemplate(3));
    MishapFrame(s, 1, 1, 1, 0, ToTemplate(3));
    hide AfterMishap;
  }

  /** The row has one column for a pass left behind: the second one takes the place of the first, whose pass is then at
      the provider and on no row. */
  lemma SecondLeftBehindHidesTheFirst()
    ensures Init(Opening(false)) && Exec(Opening(false), TwoMishaps()).Some?
    ensures var s := Exec(Opening(false), TwoMishaps()).value;
            && 0 in s.passes && s.passes[0].present && 0 in s.replaced && 0 !in s.log && s.attendees == map[0 := Live]
            && 0 in s.rows && s.rows[0].leftBehind == Some(1)
  {
    var o := Opening(false);
    OpeningIsInit(false);
    assert [] + [WorldStep(Arrive(0, 0, 0))] == [WorldStep(Arrive(0, 0, 0))] && Exec(o, []) == Some(o);
    Arrives(o, [], o, 0, 0);
    FirstMishap();
    var s1 := AfterMishap(Arrived(o, 0, 0), 0, 0, 0, 0, ToTemplate(2));
    assert 1 !in s1.taps && s1.event.template.Some? && s1.event.key.Some?;
    hide Opening, Arrived, AfterMishap, Exec, Mishap, WillMishap, AfterOne;
    MishapRuns(Arrived(o, 0, 0), 0, 0, 0, 0, ToTemplate(2));
    var before := [WorldStep(Arrive(0, 0, 0))] + Mishap(0, 0, 0, 0, ToTemplate(2));
    ExecAppend(o, [WorldStep(Arrive(0, 0, 0))], Mishap(0, 0, 0, 0, ToTemplate(2)));
    Arrives(o, before, s1, 1, 0);
    SecondMishap(s1);
    MishapRuns(Arrived(s1, 1, 0), 1, 1, 1, 0, ToTemplate(3));
    ExecAppend(o, before + [WorldStep(Arrive(1, 0, 0))], Mishap(1, 1, 1, 0, ToTemplate(3)));
  }

  // --------------------------------------------------------------------------------------------- an update given up on

  const RESERVED_ROW: Row := Row(Pending, None, Some(ReservedId(0)), None, false, None, None, false, false, None)

  /** Pass 0 is at the provider and on no row, nobody is in a creation. */
  predicate Stranded(s: State, expiration: nat, local: nat) {
    && s.attendees == map[0 := Live] && s.erasures == map[] && s.locks == map[] && s.patches == map[]
    && s.event == Event(Some(1), Some(0), true, local, 0) && s.rows == map[0 := RESERVED_ROW] && s.now == 0
    && s.latency == 1000
    && s.passes == map[0 := Pass(ReservedId(0), 1, Some(expiration), true)]
    && (forall t :: t in s.taps ==> s.taps[t].pc == Settled(NoPass))
  }

  function Strand(): seq<Step> {
    [WorldStep(Arrive(0, 0, 0))] + ToReserve(0) + ToCreated(0, 0, 0)
    + [TapStep(0, Save(AbortActive)), TapStep(0, Save(AskGone(true)))]
  }

  /** The first tap creates pass 0 and fails to save it. */
  lemma Strands()
    ensures Exec(Opening(true), Strand()).Some?
    ensures var s := Exec(Opening(true), Strand()).value;
            Stranded(s, 10, 10) && s.taps.Keys == {0} && s.calls.Keys == {0}
  {
    var o := Opening(true);
    var s := Arrived(o, 0, 0);
    assert [] + [WorldStep(Arrive(0, 0, 0))] == [WorldStep(Arrive(0, 0, 0))] && Exec(o, []) == Some(o);
    Arrives(o, [], o, 0, 0);
    assert Undisturbed(s, 0, 0, 0);
    ReservedCanCreate(s, 0, 0, 0);
    CreatedFacts(s, 0, 0, 0);
    var s2 := AfterCreate(AfterReserve(s, 0), 0, 0, 0);
    StrandedFacts(s2);
    hide Opening, Arrived, Exec, AfterReserve, AfterCreate, ToReserve, ToCreated, Undisturbed, CanCreate, Stranded,
        NoPassFrom;
    ReservesAlone(s, 0);
    CreatesAlone(AfterReserve(s, 0), 0, 0, 0);
    SaveFails(s2, 0, 0);
    ExecAppend(o, [WorldStep(Arrive(0, 0, 0))], ToReserve(0));
    ExecAppend(o, [WorldStep(Arrive(0, 0, 0))] + ToReserve(0), ToCreated(0, 0, 0));
    ExecAppend(o, [WorldStep(Arrive(0, 0, 0))] + ToReserve(0) + ToCreated(0, 0, 0),
               [TapStep(0, Save(AbortActive)), TapStep(0, Save(AskGone(true)))]);
  }

  lemma StrandedFacts(s: State)
    requires CanCreate(AfterReserve(Arrived(Opening(true), 0, 0), 0), 0, 0, 0)
    requires s == AfterCreate(AfterReserve(Arrived(Opening(true), 0, 0), 0), 0, 0, 0)
    ensures 0 in s.taps && s.taps[0].pc == Saving(Lock, 0) && s.taps[0].event.template.Some?
    ensures var s' := NoPassFrom(s, 0); Stranded(s', 10, 10) && s'.taps.Keys == {0} && s'.calls.Keys == {0}
  {
    var s0 := Arrived(Opening(true), 0, 0);
    assert Undisturbed(s0, 0, 0, 0);
    CreatedFacts(s0, 0, 0, 0);
    hide AfterCreate, AfterReserve;
  }

  /** The next tap finds the duplicate and sends its update. */
  function Recover(t: TapId, c: CallId, d: CallId): seq<Step> {
    [WorldStep(Arrive(t, 0, 0))] + ToReserve(t) + ToUpdate(t, c, 0, d)
  }

  function Recovering(s: State, t: TapId, c: CallId, d: CallId): State
    requires s.event.template.Some?
  {
    Updates(AfterReserve(Arrived(s, t, 0), t), t, c, 0, d)
  }

  lemma StrandedIsReady(s: State, t: TapId, c: CallId, d: CallId, expiration: nat, local: nat)
    requires Stranded(s, expiration, local) && t !in s.taps && c !in s.calls && d !in s.calls && c != d
    ensures Ready(Arrived(s, t, 0), t) && CanRecover(AfterReserve(Arrived(s, t, 0), t), t, c, 0, d)
  {
  }

  lemma RecoversFrom(s: State, t: TapId, c: CallId, d: CallId, expiration: nat, local: nat)
    requires Stranded(s, expiration, local) && t !in s.taps && c !in s.calls && d !in s.calls && c != d
    ensures Exec(s, Recover(t, c, d)) == Some(Recovering(s, t, c, d))
  {
    var s1 := Arrived(s, t, 0);
    assert [] + [WorldStep(Arrive(t, 0, 0))] == [WorldStep(Arrive(t, 0, 0))] && Exec(s, []) == Some(s);
    Arrives(s, [], s, t, 0);
    StrandedIsReady(s, t, c, d, expiration, local);
    hide Arrived, Exec, AfterReserve, ToReserve, ToUpdate, Ready, CanRecover, Updates, Stranded;
    ReservesAlone(s1, t);
    Recovers(AfterReserve(s1, t), t, c, 0, d);
    ExecAppend(s, [WorldStep(Arrive(t, 0, 0))], ToReserve(t));
    ExecAppend(s, [WorldStep(Arrive(t, 0, 0))] + ToReserve(t), ToUpdate(t, c, 0, d));
  }

  function UpdateOf(t: TapId, local: nat): Call {
    Call(t, 0, UpdatePass(0), 1, Some(local), 0, 0, None)
  }

  lemma RecoveringCalls(s: State, t: TapId, c: CallId, d: CallId, expiration: nat, local: nat)
    requires Stranded(s, expiration, local) && t !in s.taps && c !in s.calls && d !in s.calls && c != d
    ensures var s' := Recovering(s, t, c, d);
            c in s'.calls && s'.calls == s.calls[c := s'.calls[c]][d := UpdateOf(t, local)]
  {
  }

  lemma RecoveringFrame(s: State, t: TapId, c: CallId, d: CallId, expiration: nat, local: nat)
    requires Stranded(s, expiration, local) && t !in s.taps && c !in s.calls && d !in s.calls && c != d
    ensures var s' := Recovering(s, t, c, d);
            && s'.taps == s.taps[t := Tap(0, 0, s.event, Sending(Updating(d), 0), None)]
            && s'.rows == map[0 := RESERVED_ROW] && s'.locks == map[(0, 0) := t] && s'.passes == s.passes
            && s'.event == s.event && s'.patches == map[] && s'.attendees == s.attendees && s'.erasures == map[]
            && s'.now == 0 && s'.latency == 1000
  {
    hide CreateCall, UpdateCall;
    assert s.rows[0 := RESERVED_ROW] == map[0 := RESERVED_ROW];
  }

  lemma RecoveringFacts(s: State, t: TapId, c: CallId, d: CallId, expiration: nat, local: nat)
    requires Stranded(s, expiration, local) && t !in s.taps && c !in s.calls && d !in s.calls && c != d
    ensures var s' := Recovering(s, t, c, d);
            && s'.taps == s.taps[t := Tap(0, 0, s.event, Sending(Updating(d), 0), None)]
            && s'.rows == map[0 := RESERVED_ROW] && s'.locks == map[(0, 0) := t] && s'.passes == s.passes
            && c in s'.calls && s'.calls == s.calls[c := s'.calls[c]][d := UpdateOf(t, local)]
            && s'.event == s.event && s'.patches == map[] && s'.attendees == s.attendees && s'.erasures == map[]
            && s'.now == 0 && s'.latency == 1000
  {
    assert s.event.template.Some?;
    hide Stranded, Recovering, UpdateOf;
    RecoveringCalls(s, t, c, d, expiration, local);
    RecoveringFrame(s, t, c, d, expiration, local);
  }

  function Abandon(): seq<Step> {
    Recover(1, 1, 2) + [TapStep(1, Send(TimeOut)), TapStep(1, Fail(AbortFailed))]
    + PlainSave(0, PLAIN.(local := Some(20)))
  }

  function Abandoned(s: State): State
    requires s.event.template.Some? && 1 in Recovering(s, 1, 1, 2).taps
  {
    var s2 := NoPassFrom(Recovering(s, 1, 1, 2), 1);
    s2.(event := Patched(s2.event, PLAIN.(local := Some(20))))
  }

  lemma AbandonedFacts(s: State)
    requires Stranded(s, 10, 10) && s.taps.Keys == {0} && s.calls.Keys == {0}
    ensures 1 in Recovering(s, 1, 1, 2).taps
    ensures var s' := Abandoned(s);
            && Stranded(s', 10, 20) && s'.taps.Keys == {0, 1} && s'.calls.Keys == {0, 1, 2}
            && s'.calls[2] == UpdateOf(1, 10)
  {
    RecoveringFacts(s, 1, 1, 2, 10, 10);
    hide Recovering;
  }

  lemma GivesUpUpdate(s: State)
    requires Stranded(s, 10, 10) && s.taps.Keys == {0} && s.calls.Keys == {0}
    ensures 1 in Recovering(s, 1, 1, 2).taps && NoPassFrom(Recovering(s, 1, 1, 2), 1).patches == map[]
    ensures Exec(s, Recover(1, 1, 2) + [TapStep(1, Send(TimeOut)), TapStep(1, Fail(AbortFailed))])
            == Some(NoPassFrom(Recovering(s, 1, 1, 2), 1))
  {
    RecoveringFacts(s, 1, 1, 2, 10, 10);
    hide Exec, Recover, Recovering, Stranded;
    RecoversFrom(s, 1, 1, 2, 10, 10);
    var s1 := Recovering(s, 1, 1, 2);
    WaitFails(s1, 1, 2, 0);
    ExecAppend(s, Recover(1, 1, 2), [TapStep(1, Send(TimeOut)), TapStep(1, Fail(AbortFailed))]);
  }

  lemma Unguarded(local: nat)
    ensures forall e :: !Guarded(PatchTx(PLAIN.(local := Some(local)), e, Begun))
  {
  }

  /** The second tap gives its update up; then the event is rescheduled. */
  lemma Abandons(s: State)
    requires Stranded(s, 10, 10) && s.taps.Keys == {0} && s.calls.Keys == {0}
    ensures 1 in Recovering(s, 1, 1, 2).taps && Exec(s, Abandon()) == Some(Abandoned(s))
  {
    assert s.event.template.Some?;
    Unguarded(20);
    hide Exec, Recover, Recovering, Stranded, Patched, PlainSave, NoPassFrom, Guarded;
    GivesUpUpdate(s);
    var s2 := NoPassFrom(Recovering(s, 1, 1, 2), 1);
    SavesUnguarded(s2, 0, PLAIN.(local := Some(20)));
    ExecAppend(s, Recover(1, 1, 2) + [TapStep(1, Send(TimeOut)), TapStep(1, Fail(AbortFailed))],
               PlainSave(0, PLAIN.(local := Some(20))));
  }

  function Overtake(): seq<Step> {
    [WorldStep(Land(4, 0)), TapStep(2, Send(TakeReply)), WorldStep(Land(2, 0))] + ToCheck(2)
    + [TapStep(2, Save(CheckEvent))] + [TapStep(2, Save(CommitActive(false)))]
  }

  /** The third tap's update is on its way, and so is still the one that was given up on. */
  predicate TwoOnTheirWay(s: State) {
    && s.attendees == map[0 := Live] && s.erasures == map[] && s.patches == map[]
    && s.event == Event(Some(1), Some(0), true, 20, 0) && s.rows == map[0 := RESERVED_ROW] && s.now == 0
    && s.latency == 1000
    && s.passes == map[0 := Pass(ReservedId(0), 1, Some(10), true)]
    && 2 in s.taps && s.taps[2] == Tap(0, 0, s.event, Sending(Updating(4), 0), None)
    && (forall t :: t in s.taps && t != 2 ==> s.taps[t].pc == Settled(NoPass))
    && 2 in s.calls && s.calls[2] == UpdateOf(1, 10) && 4 in s.calls && s.calls[4] == UpdateOf(2, 20)
  }

  /** The two updates take effect, the one given up on last. */
  function Overtaken(s: State): State
    requires TwoOnTheirWay(s)
  {
    UpdateLanded(At(UpdateLanded(s, 4, 0), 2, Saving(Lock, 0)), 2, 0)
  }

  lemma UpdatesLand(s: State)
    requires TwoOnTheirWay(s)
    ensures Exec(s, [WorldStep(Land(4, 0)), TapStep(2, Send(TakeReply)), WorldStep(Land(2, 0))]) == Some(Overtaken(s))
  {
    LandsUpdate(s, 4, 0);
    var s1 := UpdateLanded(s, 4, 0);
    Goes(s1, 2, Send(TakeReply), Saving(Lock, 0));
    var s2 := At(s1, 2, Saving(Lock, 0));
    LandsUpdate(s2, 2, 0);
    hide Apply, Overtaken;
    TraceRuns([s, s1, s2, UpdateLanded(s2, 2, 0)],
              [WorldStep(Land(4, 0)), TapStep(2, Send(TakeReply)), WorldStep(Land(2, 0))]);
  }

  lemma OvertakenFacts(s: State)
    requires TwoOnTheirWay(s)
    ensures var s' := Overtaken(s);
            && CanLock(s', 2) && s'.taps[2].pc.pass == 0 && s'.event == s.event && s'.taps[2].event == s.event
            && s'.taps[2].attendee == 0 && s'.taps[2].event.template.Some? && s'.rows == s.rows
            && s'.passes == map[0 := Pass(ReservedId(0), 1, Some(10), true)]
  {
  }

  /** The third tap saves the pass with the new end, while the provider has the old one. */
  lemma Overtakes(s: State)
    requires TwoOnTheirWay(s)
    ensures Exec(s, Overtake()).Some?
    ensures var s' := Exec(s, Overtake()).value;
            && 0 in s'.rows && s'.rows[0].status.Active? && s'.rows[0].expiresAt == Some(End(20, 0))
            && s'.rows[0].passId == Some(0) && 0 in s'.passes && s'.passes[0].expiration == Some(10)
            && EventEnd(s'.event) == Some(End(20, 0))
  {
    UpdatesLand(s);
    OvertakenFacts(s);
    var s1 := Overtaken(s);
    var lands := [WorldStep(Land(4, 0)), TapStep(2, Send(TakeReply)), WorldStep(Land(2, 0))];
    var s2 := At(s1, 2, Saving(Check, 0));
    var s3 := At(s2, 2, Saving(Write(EventEnd(s2.event)), 0));
    hide Exec, Overtaken, TwoOnTheirWay, Apply, CanLock, ToCheck;
    LocksForSave(s1, 2);
    PassesCheck(s2, 2);
    Commits(s3, 2);
    ExecAppend(s, lands, ToCheck(2));
    Then(s, lands + ToCheck(2), s2, TapStep(2, Save(CheckEvent)), s3);
    Then(s, lands + ToCheck(2) + [TapStep(2, Save(CheckEvent))], s3, TapStep(2, Save(CommitActive(false))),
         AfterSave(s3, 2));
  }

  lemma LastRecovery(s: State)
    requires Stranded(s, 10, 20) && s.taps.Keys == {0, 1} && s.calls.Keys == {0, 1, 2} && s.calls[2] == UpdateOf(1, 10)
    ensures TwoOnTheirWay(Recovering(s, 2, 3, 4))
  {
    RecoveringFacts(s, 2, 3, 4, 10, 20);
    hide Recovering;
  }

  /** The pass on the row ends when the event does now, the pass at the provider when it did before. */
  predicate Stale(s: State) {
    && 0 in s.rows && s.rows[0].status.Active? && s.rows[0].expiresAt == Some(End(20, 0))
    && s.rows[0].passId == Some(0) && 0 in s.passes && s.passes[0].expiration == Some(10)
  }

  lemma RecoversAndOvertakes(s: State)
    requires Stranded(s, 10, 20) && s.taps.Keys == {0, 1} && s.calls.Keys == {0, 1, 2} && s.calls[2] == UpdateOf(1, 10)
    ensures Exec(s, Recover(2, 3, 4) + Overtake()).Some? && Stale(Exec(s, Recover(2, 3, 4) + Overtake()).value)
  {
    assert s.event.template.Some? && 2 !in s.taps && 3 !in s.calls && 4 !in s.calls;
    hide Exec, Recover, Overtake, TwoOnTheirWay, Recovering, Stranded, UpdateOf;
    LastRecovery(s);
    RecoversFrom(s, 2, 3, 4, 10, 20);
    Overtakes(Recovering(s, 2, 3, 4));
    ExecAppend(s, Recover(2, 3, 4), Overtake());
  }

  lemma AbandonsAndOvertakes(s: State)
    requires Stranded(s, 10, 10) && s.taps.Keys == {0} && s.calls.Keys == {0}
    ensures Exec(s, Abandon() + (Recover(2, 3, 4) + Overtake())).Some?
    ensures Stale(Exec(s, Abandon() + (Recover(2, 3, 4) + Overtake())).value)
  {
    assert s.event.template.Some?;
    hide Exec, Abandon, Recover, Overtake, Stranded, Stale, Abandoned, Recovering;
    Abandons(s);
    AbandonedFacts(s);
    RecoversAndOvertakes(Abandoned(s));
    ExecAppend(s, Abandon(), Recover(2, 3, 4) + Overtake());
  }

  /** An update that was given up on while it was on its way takes effect after the one that followed it: the row then
      has the event's end, and the pass at the provider the end the event had before. */
  lemma AbandonedUpdateBreaksExpiry()
    ensures var run := Strand() + (Abandon() + (Recover(2, 3, 4) + Overtake()));
            Init(Opening(true)) && Exec(Opening(true), run).Some? && Stale(Exec(Opening(true), run).value)
  {
    OpeningIsInit(true);
    hide Opening, Exec, Strand, Abandon, Recover, Overtake, Stranded, Stale;
    Strands();
    var o := Opening(true);
    AbandonsAndOvertakes(Exec(o, Strand()).value);
    ExecAppend(o, Strand(), Abandon() + (Recover(2, 3, 4) + Overtake()));
  }
}
