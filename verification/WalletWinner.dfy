/** One winner. On one app instance the in-process lock makes the creations of an attendee follow one another, and none
    brings back a pass that is voided, expired or removed. Across instances no issuance step turns an active row into a
    failed one. */
module WalletWinner {
  import opened Options
  import opened WalletModel
  import opened WalletInvariant
  import opened WalletSteps

  /** Every tap of the run arrives on instance `i`. */
  predicate ArrivesOn(i: Instance, step: Step) {
    step.WorldStep? && step.world.Arrive? ==> step.world.instance == i
  }

  predicate AllOn(s: State, i: Instance) {
    forall t :: t in s.taps ==> s.taps[t].instance == i
  }

  /** The recheck under the lock has found no pass, and nothing has been saved since. */
  predicate Fresh(pc: Pc) {
    || (pc.Leading? && !pc.lead.Recheck?) || pc.Reserving? || pc.Sending? || pc.Dropping? || pc.Failing?
    || (pc.Saving? && !pc.save.GoneNow?)
  }

  /** No pass to hand out and none that was taken away: a creation may go on. Only an erasure's follow-up marks a row
      removed that was never issued. */
  predicate Open(s: State, a: AttendeeId) {
    a in s.rows ==>
      && (s.rows[a].status.Pending? || s.rows[a].status.Failed?) && !s.rows[a].issued
      && (!Gone(s, a) ==> !s.rows[a].removed)
  }

  predicate FreshOk(s: State, tap: Tap) {
    && (Fresh(tap.pc) ==> Open(s, tap.attendee))
    && (tap.pc.Orphaned? ==> Gone(s, tap.attendee))
  }

  predicate AllFresh(s: State) {
    forall t :: t in s.taps ==> FreshOk(s, s.taps[t])
  }

  /** A row counts as issued exactly when it is active, voided or expired; it is removed only once it was issued. */
  predicate IssuedOk(s: State, a: AttendeeId)
    requires a in s.rows
  {
    && (s.rows[a].issued <==> !(s.rows[a].status.Pending? || s.rows[a].status.Failed?))
    && (!Gone(s, a) && s.rows[a].removed ==> s.rows[a].issued)
  }

  predicate AllIssuedOk(s: State) {
    forall a :: a in s.rows ==> IssuedOk(s, a)
  }

  ghost predicate WinnerInv(s: State, i: Instance) {
    AllOn(s, i) && AllFresh(s) && AllIssuedOk(s)
  }

  /** On one instance two taps of the same attendee are never both in their creation. */
  lemma OneCreation(s: State, i: Instance, t: TapId, u: TapId)
    requires Inv(s) && AllOn(s, i) && t in s.taps && u in s.taps && s.taps[t].attendee == s.taps[u].attendee
    requires InCreation(s.taps[t].pc) && InCreation(s.taps[u].pc)
    ensures t == u
  {
    hide TapsOk, CallsOk, PassesOk, RowsOk, PeopleOk, ErasuresOk;
    assert LockOk(s);
  }

  lemma FreshIsCreation(pc: Pc)
    requires Fresh(pc)
    ensures InCreation(pc)
  {
  }

  // ---------------------------------------------------------------------------------------------- steps

  lemma FreshFact(s: State, i: Instance, t: TapId)
    requires WinnerInv(s, i) && t in s.taps
    ensures FreshOk(s, s.taps[t]) && s.taps[t].instance == i
    ensures s.taps[t].attendee in s.rows ==> IssuedOk(s, s.taps[t].attendee)
  {
  }

  lemma PerformRows(s: State, t: TapId, e: Effect)
    requires t in s.taps
    ensures var s' := Perform(s, t, e);
            && s'.attendees == s.attendees && s'.taps == s.taps[t := s'.taps[t]]
            && s'.rows == if e.write.PutRow? then s.rows[s.taps[t].attendee := e.write.row] else s.rows
  {
    hide InCreation;
  }

  lemma TapFresh(s: State, i: Instance, t: TapId, e: Effect)
    requires Inv(s) && WinnerInv(s, i) && t in s.taps && Shape(s, t, s.taps[t], e)
    ensures FreshOk(Perform(s, t, e), Perform(s, t, e).taps[t])
  {
    hide Inv, CareStep, InCreation, RowLockFree, AdvisoryFree, WinnerInv;
    FreshFact(s, i, t);
  }

  lemma TapIssued(s: State, i: Instance, t: TapId, e: Effect)
    requires Inv(s) && WinnerInv(s, i) && t in s.taps && Shape(s, t, s.taps[t], e)
    ensures AllIssuedOk(Perform(s, t, e))
  {
    hide Inv, PcStep, CareStep, InCreation, Perform, AllOn, AllFresh;
    PerformRows(s, t, e);
    if e.write.PutRow? {
      FreshFact(s, i, t);
      TapFacts(s, t);
      hide AllIssuedOk;
      assert IssuedOk(Perform(s, t, e), s.taps[t].attendee);
    }
  }

  /** A tap that writes its attendee's row is in its creation, or only notes the device. */
  lemma WriterInCreation(s: State, t: TapId, e: Effect)
    requires t in s.taps && Shape(s, t, s.taps[t], e) && e.write.PutRow?
    ensures InCreation(s.taps[t].pc)
            || (s.taps[t].attendee in s.rows && e.write.row == s.rows[s.taps[t].attendee].(device := Some(t)))
  {
    hide PcStep, CareStep;
  }

  lemma OthersFresh(s: State, i: Instance, t: TapId, e: Effect, u: TapId)
    requires Inv(s) && WinnerInv(s, i) && t in s.taps && Shape(s, t, s.taps[t], e) && u in s.taps && u != t
    ensures u in Perform(s, t, e).taps && FreshOk(Perform(s, t, e), Perform(s, t, e).taps[u])
  {
    hide Inv, Shape, InCreation, Fresh, WinnerInv, Perform;
    FreshFact(s, i, u);
    FreshFact(s, i, t);
    PerformRows(s, t, e);
    if Fresh(s.taps[u].pc) && e.write.PutRow? && s.taps[u].attendee == s.taps[t].attendee {
      WriterInCreation(s, t, e);
      FreshIsCreation(s.taps[u].pc);
      if InCreation(s.taps[t].pc) { SameInstance(s, i); OneCreation(s, i, t, u); }
    }
  }

  lemma SameInstance(s: State, i: Instance)
    requires WinnerInv(s, i)
    ensures AllOn(s, i)
  {
  }

  lemma TapWinner(s: State, i: Instance, t: TapId, act: Act)
    requires Inv(s) && WinnerInv(s, i) && Apply(s, TapStep(t, act)).Some?
    ensures WinnerInv(Apply(s, TapStep(t, act)).value, i)
  {
    var e := TapEffect(s, t, act).value;
    hide Inv, TapEffect, Shape, AllIssuedOk, FreshOk, Perform;
    TapShape(s, t, act);
    TapFresh(s, i, t, e);
    TapIssued(s, i, t, e);
    var s' := Perform(s, t, e);
    assert s'.taps.Keys == s.taps.Keys && AllOn(s', i) by { hide Apply; TapFrame(s, t, act); }
    forall u | u in s'.taps ensures FreshOk(s', s'.taps[u]) {
      if u != t { OthersFresh(s, i, t, e, u); }
    }
  }

  lemma WorldWinner(s: State, i: Instance, act: WorldAct)
    requires Inv(s) && WinnerInv(s, i) && ApplyWorld(s, act).Some? && ArrivesOn(i, WorldStep(act))
    ensures WinnerInv(ApplyWorld(s, act).value, i)
  {
    hide Inv, ApplyWorld, Lands;
    WorldFrame(s, act);
  }

  lemma ErasureWinner(s: State, i: Instance, act: ErasureAct)
    requires Inv(s) && WinnerInv(s, i) && ApplyErasure(s, act).Some?
    ensures WinnerInv(ApplyErasure(s, act).value, i)
  {
    hide Inv, ApplyErasure, Dwindles;
    ErasureFrame(s, act);
  }

  lemma StaffWinner(s: State, i: Instance, act: StaffAct)
    requires Inv(s) && WinnerInv(s, i) && ApplyStaff(s, act).Some?
    ensures WinnerInv(ApplyStaff(s, act).value, i)
  {
    hide Inv, Dwindles, RowLockFree, Fresh;
    StaffFrame(s, act);
    var s' := ApplyStaff(s, act).value;
    assert AllIssuedOk(s');
    forall t | t in s'.taps ensures FreshOk(s', s'.taps[t]) { FreshFact(s, i, t); }
  }

  lemma StepWinner(s: State, i: Instance, step: Step)
    requires Inv(s) && WinnerInv(s, i) && Apply(s, step).Some? && ArrivesOn(i, step)
    ensures WinnerInv(Apply(s, step).value, i)
  {
    match step
    case TapStep(t, act) => hide *; TapWinner(s, i, t, act);
    case WorldStep(act) => hide Inv, WinnerInv, ApplyWorld; WorldWinner(s, i, act);
    case ErasureStep(act) => hide Inv, WinnerInv, ApplyErasure; ErasureWinner(s, i, act);
    case PatchStep(act) => hide Inv, ApplySettings, PatchStepOk; SettingsFrame(s, act);
    case StaffStep(act) => hide Inv, WinnerInv, ApplyStaff; StaffWinner(s, i, act);
  }

  lemma {:induction false} WinnerRun(s: State, i: Instance, run: seq<Step>)
    requires Inv(s) && WinnerInv(s, i) && Exec(s, run).Some? && Along(s, run, (s, step) => ArrivesOn(i, step))
    ensures Inv(Exec(s, run).value) && WinnerInv(Exec(s, run).value, i)
    decreases run
  {
    hide Inv, WinnerInv, Apply;
    if run != [] {
      StepInv(s, run[0]);
      StepWinner(s, i, run[0]);
      WinnerRun(Apply(s, run[0]).value, i, run[1..]);
    }
  }

  // ---------------------------------------------------------------------------------------------- the theorems

  ghost predicate OneConversation(s: State) {
    forall u, v | u in s.taps && v in s.taps && s.taps[u].pc.Sending? && s.taps[v].pc.Sending? ::
      s.taps[u].attendee == s.taps[v].attendee ==> u == v
  }

  /** The tap that sent the call still waits for its answer. */
  predicate Awaited(s: State, c: CallId)
    requires c in s.calls
  {
    s.calls[c].sender in s.taps && CallOf(s.taps[s.calls[c].sender].pc) == Some(c)
  }

  /** Of the calls for an attendee that are awaited there is one at most: any other still on its way was given up on. */
  ghost predicate OneAwaited(s: State) {
    forall c, d | c in s.calls && d in s.calls && Awaited(s, c) && Awaited(s, d) ::
      s.calls[c].attendee == s.calls[d].attendee ==> c == d
  }

  lemma AwaitedOnce(s: State)
    requires Inv(s) && OneConversation(s)
    ensures OneAwaited(s)
  {
    hide Inv;
    forall c, d | c in s.calls && d in s.calls && Awaited(s, c) && Awaited(s, d)
        && s.calls[c].attendee == s.calls[d].attendee
      ensures c == d
    {
      TapFacts(s, s.calls[c].sender);
      TapFacts(s, s.calls[d].sender);
    }
  }

  /** What was voided, expired or removed is left as it is; the row of a gone attendee may be reopened for the
      follow-up. */
  ghost predicate TakenAwayStays(s: State, s': State) {
    forall b :: b in s.rows && PassUnavailable(s, b) ==>
      && b in s'.rows && s'.rows[b].status == s.rows[b].status
      && (!Gone(s, b) ==> s'.rows[b].removed == s.rows[b].removed)
  }

  lemma ConversationsDiffer(s: State, i: Instance)
    requires Inv(s) && AllOn(s, i)
    ensures OneConversation(s)
  {
    hide Inv, AllOn;
    forall u, v | && u in s.taps && v in s.taps && s.taps[u].pc.Sending? && s.taps[v].pc.Sending?
                  && s.taps[u].attendee == s.taps[v].attendee
      ensures u == v
    {
      OneCreation(s, i, u, v);
    }
  }

  lemma TapTakesNothingBack(s: State, i: Instance, t: TapId, e: Effect)
    requires Inv(s) && WinnerInv(s, i) && t in s.taps && Shape(s, t, s.taps[t], e)
    ensures TakenAwayStays(s, Perform(s, t, e))
  {
    hide PcStep, CareStep, InCreation, WinnerInv, Inv;
    FreshFact(s, i, t);
    TapFacts(s, t);
  }

  /** On one instance: two creations of an attendee never talk to the provider at the same time, so a call that overlaps
      the next one of the attendee is one whose tap gave up or died; a creation call leaves only for a row that never
      held a pass; and no step of a tap turns a voided, expired or removed row active. */
  lemma {:induction false} OneWinner(s0: State, i: Instance, run: seq<Step>, t: TapId, act: Act)
    requires Init(s0) && Exec(s0, run).Some? && Along(s0, run, (s, step) => ArrivesOn(i, step))
    requires Apply(Exec(s0, run).value, TapStep(t, act)).Some?
    ensures var s := Exec(s0, run).value; var s' := Apply(s, TapStep(t, act)).value;
            && OneConversation(s) && OneAwaited(s)
            && (act.Send? && act.send.SendCreate? ==> Open(s, s.taps[t].attendee))
            && TakenAwayStays(s, s')
  {
    InitInv(s0);
    WinnerRun(s0, i, run);
    var s := Exec(s0, run).value;
    hide Exec, Along, Init, Inv, WinnerInv, OneConversation, OneAwaited, TakenAwayStays;
    ConversationsDiffer(s, i);
    AwaitedOnce(s);
    FreshFact(s, i, t);
    hide Shape;
    TapShape(s, t, act);
    TapTakesNothingBack(s, i, t, TapEffect(s, t, act).value);
  }

  /** On one instance a failed row has never been issued, whatever staff do. */
  lemma {:induction false} FailedWasNeverIssued(s0: State, i: Instance, run: seq<Step>, a: AttendeeId)
    requires Init(s0) && Exec(s0, run).Some? && Along(s0, run, (s, step) => ArrivesOn(i, step))
    requires a in Exec(s0, run).value.rows && Exec(s0, run).value.rows[a].status.Failed?
    ensures !Exec(s0, run).value.rows[a].issued
  {
    InitInv(s0);
    WinnerRun(s0, i, run);
    assert IssuedOk(Exec(s0, run).value, a);
  }

  // ------------------------------------------------------------------------------------------- any number of instances

  /** The loser does not clobber the winner: no step of a tap takes an active row to failed, or removes it. */
  lemma ActiveSurvivesTaps(s: State, t: TapId, act: Act, a: AttendeeId)
    requires Apply(s, TapStep(t, act)).Some? && a in s.rows && s.rows[a].status.Active?
    ensures a in Apply(s, TapStep(t, act)).value.rows && Apply(s, TapStep(t, act)).value.rows[a].status.Active?
  {
    hide TapEffect, Perform, PcStep, CareStep;
    TapShape(s, t, act);
    PerformRows(s, t, TapEffect(s, t, act).value);
  }

  /** Exactly when recording a failure leaves a failed row that was issued: the row was, and had been voided or
      expired. */
  lemma WhenFailureIsRecorded(s: State, t: TapId)
    requires Apply(s, TapStep(t, Fail(CommitFailed))).Some?
    ensures var row := Apply(s, TapStep(t, Fail(CommitFailed))).value.rows[s.taps[t].attendee];
            var a := s.taps[t].attendee;
            (row.status.Failed? && row.issued) <==> (a in s.rows && s.rows[a].issued && !s.rows[a].status.Active?)
  {
    hide InCreation;
    PerformRows(s, t, TapEffect(s, t, Fail(CommitFailed)).value);
  }

  predicate NoStaff(step: Step) {
    !step.StaffStep?
  }

  /** Without staff actions and the expiry job a row counts as issued exactly when it is active. */
  predicate IssuedIsActive(s: State) {
    forall a :: a in s.rows ==> (s.rows[a].issued <==> s.rows[a].status.Active?)
  }

  lemma TapIssuedIsActive(s: State, t: TapId, act: Act)
    requires IssuedIsActive(s) && Apply(s, TapStep(t, act)).Some?
    ensures IssuedIsActive(Apply(s, TapStep(t, act)).value)
  {
    hide TapEffect, Perform, PcStep, CareStep;
    TapShape(s, t, act);
    PerformRows(s, t, TapEffect(s, t, act).value);
  }

  lemma StepIssuedIsActive(s: State, step: Step)
    requires IssuedIsActive(s) && Apply(s, step).Some? && NoStaff(step)
    ensures IssuedIsActive(Apply(s, step).value)
  {
    match step
    case TapStep(t, act) => hide *; TapIssuedIsActive(s, t, act);
    case WorldStep(act) => hide ApplyWorld, Lands; WorldFrame(s, act);
    case ErasureStep(act) => hide ApplyErasure, Dwindles; ErasureFrame(s, act);
    case PatchStep(act) => hide ApplySettings, PatchStepOk; SettingsFrame(s, act);
  }

  /** Issuance alone, on any number of instances and under any failure, never leaves a failed row that was issued. */
  lemma {:induction false} FailedIssuedUnreachable(s: State, run: seq<Step>)
    requires IssuedIsActive(s) && Exec(s, run).Some? && (forall k :: 0 <= k < |run| ==> NoStaff(run[k]))
    ensures IssuedIsActive(Exec(s, run).value)
    decreases run
  {
    hide Apply, IssuedIsActive;
    if run != [] {
      StepIssuedIsActive(s, run[0]);
      FailedIssuedUnreachable(Apply(s, run[0]).value, run[1..]);
    }
  }
}
