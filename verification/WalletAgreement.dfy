/** Saved passes agree with the event: the row of an attendee who is still there never counts as issued under a template
    other than the one the event records. What makes it so is the order of the locks: `markActive` keeps the advisory
    lock from its check to its write, and a settings save that changes the template keeps it from its count to its
    write. */
module WalletAgreement {
  import opened Options
  import opened WalletModel
  import opened WalletInvariant
  import opened WalletSteps

  predicate LiveIssued(s: State, a: AttendeeId) {
    a in s.rows && s.rows[a].issued && !Gone(s, a)
  }

  /** The pass of this row was made under the template the event has now. */
  predicate RowAgrees(s: State, a: AttendeeId)
    requires a in s.rows
  {
    && s.rows[a].passId.Some? && s.rows[a].passId.value in s.passes
    && Some(s.passes[s.rows[a].passId.value].template) == s.event.template
  }

  ghost predicate Agreement(s: State) {
    forall a :: LiveIssued(s, a) ==> RowAgrees(s, a)
  }

  predicate NoneIssued(s: State) {
    forall a :: a in s.rows ==> !LiveIssued(s, a)
  }

  predicate NoHolder(s: State) {
    forall t :: t in s.taps ==> !HoldsAdvisory(s.taps[t].pc)
  }

  /** A tap about to write has the event's template; an orphan's attendee is gone. */
  predicate Aligned(s: State, tap: Tap) {
    && (tap.pc.Saving? && tap.pc.save.Write? ==> tap.event.template == s.event.template)
    && (tap.pc.Orphaned? ==> Gone(s, tap.attendee))
  }

  predicate AllAligned(s: State) {
    forall t :: t in s.taps ==> Aligned(s, s.taps[t])
  }

  /** Issued rows and locks: a save that has locked shuts out every tap between check and write, one that has counted
      found no pass issued and none has been issued since; an active, voided or expired row counts as issued. */
  predicate Excluded(s: State) {
    && (forall k :: k in s.patches && !s.patches[k].phase.Begun? ==> NoHolder(s))
    && (forall k :: k in s.patches && s.patches[k].phase.Counted? ==> NoneIssued(s))
  }

  predicate StatusOk(row: Row) {
    row.status.Active? || row.status.Voided? || row.status.Expired? ==> row.issued
  }

  predicate Statuses(s: State) {
    forall a :: a in s.rows ==> StatusOk(s.rows[a])
  }

  ghost predicate AgreeInv(s: State) {
    Agreement(s) && AllAligned(s) && Excluded(s) && Statuses(s)
  }

  /** Agreement is kept when the event stays as it is and no row comes to count as issued with another pass. */
  lemma AgreementKept(s: State, s': State)
    requires Agreement(s) && s'.event == s.event
    requires forall p :: p in s.passes ==> p in s'.passes && s'.passes[p].template == s.passes[p].template
    requires forall a :: LiveIssued(s', a) ==>
               (LiveIssued(s, a) && s'.rows[a].passId == s.rows[a].passId) || RowAgrees(s', a)
    ensures Agreement(s')
  {
    forall a | LiveIssued(s', a) ensures RowAgrees(s', a) {
      if LiveIssued(s, a) { assert RowAgrees(s, a); }
    }
  }

  lemma DwindleTemplates(passes: map<PassId, Pass>, passes': map<PassId, Pass>)
    requires Dwindles(passes, passes')
    ensures forall p :: p in passes ==> p in passes' && passes'[p].template == passes[p].template
  {
  }

  // ---------------------------------------------------------------------------------------------- the steps of a tap

  /** What a tap may put on its attendee's row: the issued mark and the pass stay, or the attendee is gone, or this is
      the write of `markActive`. */
  lemma RowWrites(s: State, t: TapId, e: Effect)
    requires Inv(s) && AgreeInv(s) && t in s.taps && Shape(s, t, s.taps[t], e) && e.write.PutRow?
    ensures var a := s.taps[t].attendee;
            && (StatusOk(e.write.row))
            && (|| Gone(s, a)
                || (a in s.rows && e.write.row.issued == s.rows[a].issued
                    && (s.rows[a].issued ==> e.write.row.passId == s.rows[a].passId))
                || (a !in s.rows && !e.write.row.issued)
                || (s.taps[t].pc.Saving? && s.taps[t].pc.save.Write? && e.write.row.passId == Some(s.taps[t].pc.pass)))
  {
    hide Inv, CareStep, PcStep, RowLockFree, Agreement, Excluded;
    assert Aligned(s, s.taps[t]);
  }

  lemma AlignedFact(s: State, t: TapId)
    requires AllAligned(s) && t in s.taps
    ensures Aligned(s, s.taps[t])
  {
  }

  lemma TapRows(s: State, t: TapId, e: Effect)
    requires Inv(s) && AgreeInv(s) && t in s.taps && Shape(s, t, s.taps[t], e)
    ensures Agreement(Perform(s, t, e)) && Statuses(Perform(s, t, e))
    ensures NoneIssued(s) && NoHolder(s) ==> NoneIssued(Perform(s, t, e))
  {
    hide Inv, PcStep, CareStep, WriteStep, InCreation, AllAligned, Excluded, Agreement, StatusOk;
    var s' := Perform(s, t, e);
    var a := s.taps[t].attendee;
    if e.write.PutRow? {
      RowWrites(s, t, e);
      AlignedFact(s, t);
      TapFacts(s, t);
    }
    forall b | LiveIssued(s', b) ensures (LiveIssued(s, b) && s'.rows[b].passId == s.rows[b].passId)
        || RowAgrees(s', b) {
    }
    AgreementKept(s, s');
  }

  lemma TapAligned(s: State, t: TapId, e: Effect)
    requires AllAligned(s) && t in s.taps && Shape(s, t, s.taps[t], e)
    ensures AllAligned(Perform(s, t, e))
  {
    hide CareStep, WriteStep, InCreation, RowLockFree, AdvisoryFree, PassUnavailable;
    AlignedFact(s, t);
  }

  lemma TapExcluded(s: State, t: TapId, e: Effect)
    requires Excluded(s) && t in s.taps && Shape(s, t, s.taps[t], e)
    requires NoneIssued(s) && NoHolder(s) ==> NoneIssued(Perform(s, t, e))
    ensures Excluded(Perform(s, t, e))
  {
    hide CareStep, WriteStep, InCreation, RowLockFree, PassUnavailable, NoneIssued;
    var s' := Perform(s, t, e);
    if k :| k in s.patches && !s.patches[k].phase.Begun? {
      assert NoHolder(s);
      assert !HoldsAdvisory(e.next);
      assert NoHolder(s');
    }
  }

  lemma TapAgree(s: State, t: TapId, act: Act)
    requires Inv(s) && AgreeInv(s) && Apply(s, TapStep(t, act)).Some?
    ensures AgreeInv(Apply(s, TapStep(t, act)).value)
  {
    hide Inv, TapEffect, Shape, Agreement, AllAligned, Excluded, Statuses, Perform;
    TapShape(s, t, act);
    var e := TapEffect(s, t, act).value;
    TapRows(s, t, e);
    TapAligned(s, t, e);
    TapExcluded(s, t, e);
  }

  // ---------------------------------------------------------------------------------------------- the other steps

  lemma WorldAgree(s: State, act: WorldAct)
    requires Inv(s) && AgreeInv(s) && ApplyWorld(s, act).Some?
    ensures AgreeInv(ApplyWorld(s, act).value)
  {
    hide Inv, ApplyWorld, Agreement;
    WorldFrame(s, act);
    var s' := ApplyWorld(s, act).value;
    assert forall p :: p in s.passes ==> p in s'.passes && s'.passes[p].template == s.passes[p].template by {
      hide AllAligned, Excluded, Statuses;
    }
    hide Lands;
    AgreementKept(s, s');
    assert AllAligned(s') by {
      assert forall t :: t in s'.taps && t !in s.taps ==> s'.taps[t].pc.Looking?;
      hide Excluded, Statuses;
    }
    assert Excluded(s');
  }

  lemma ErasureAgree(s: State, act: ErasureAct)
    requires Inv(s) && AgreeInv(s) && ApplyErasure(s, act).Some?
    ensures AgreeInv(ApplyErasure(s, act).value)
  {
    hide Inv, ApplyErasure, Agreement;
    ErasureFrame(s, act);
    var s' := ApplyErasure(s, act).value;
    DwindleTemplates(s.passes, s'.passes);
    AgreementKept(s, s');
  }

  lemma StaffAgree(s: State, act: StaffAct)
    requires Inv(s) && AgreeInv(s) && ApplyStaff(s, act).Some?
    ensures AgreeInv(ApplyStaff(s, act).value)
  {
    hide Inv, RowLockFree, Agreement;
    StaffFrame(s, act);
    var s' := ApplyStaff(s, act).value;
    DwindleTemplates(s.passes, s'.passes);
    assert Statuses(s');
    hide ApplyStaff;
    AgreementKept(s, s');
  }

  /** A settings save that writes leaves the template as it is, or nobody who is still there has a pass issued and
      nobody is about to have one. */
  predicate SafeCommit(s: State, step: Step) {
    step.PatchStep? && step.patch.PatchCommit? && step.patch.patch in s.patches ==>
      || Patched(s.event, s.patches[step.patch.patch].patch).template == s.event.template
      || (NoneIssued(s) && NobodyWrites(s))
  }

  lemma SettingsAgree(s: State, act: PatchAct)
    requires Inv(s) && AgreeInv(s) && ApplySettings(s, act).Some? && SafeCommit(s, PatchStep(act))
    ensures AgreeInv(ApplySettings(s, act).value)
  {
    if act.PatchCommit? {
      hide Inv, AgreeInv, ApplySettings, SafeCommit;
      CommitAgrees(s, act.patch);
    } else {
      hide Inv, ApplySettings, SafeCommit, PatchStepOk;
      SettingsFrame(s, act);
      SettingsExcluded(s, act);
      AgreementKeptByName(s, ApplySettings(s, act).value);
    }
  }

  /** A save locks only when no tap is between check and write, and has counted only when nothing is issued. */
  lemma SettingsExcluded(s: State, act: PatchAct)
    requires Excluded(s) && ApplySettings(s, act).Some? && !act.PatchCommit?
    ensures Excluded(ApplySettings(s, act).value)
  {
    hide HoldsAdvisory, ApplySettings;
    SettingsFrame(s, act);
    var s' := ApplySettings(s, act).value;
    assert forall k :: k in s'.patches ==> PatchStepOk(s, s', k);
  }

  lemma AgreementKeptByName(s: State, s': State)
    requires Agreement(s) && s' == s.(event := s'.event, patches := s'.patches) && s'.event.template == s.event.template
    ensures Agreement(s')
  {
    forall a | LiveIssued(s', a) ensures RowAgrees(s', a) { assert LiveIssued(s, a); }
  }

  lemma CommitAgrees(s: State, k: PatchId)
    requires AgreeInv(s) && ApplySettings(s, PatchCommit(k)).Some? && SafeCommit(s, PatchStep(PatchCommit(k)))
    ensures AgreeInv(ApplySettings(s, PatchCommit(k)).value)
  {
    hide Guarded;
    CommitIsSafeExactly(s, k);
    hide SafeCommit, Agreement, AllAligned;
  }

  /** Exactly when the write of a settings save keeps the agreement, of the rows and of the writes under way: it leaves
      the template as it is, or nobody who is still there has a pass issued and no tap is between its check and its
      write. */
  lemma CommitIsSafeExactly(s: State, k: PatchId)
    requires AgreeInv(s) && ApplySettings(s, PatchCommit(k)).Some?
    ensures var s' := ApplySettings(s, PatchCommit(k)).value;
            Agreement(s') && AllAligned(s') <==> SafeCommit(s, PatchStep(PatchCommit(k)))
  {
    hide Guarded, Patched, Excluded, Statuses;
    var s' := ApplySettings(s, PatchCommit(k)).value;
    if s'.event.template == s.event.template {
      AgreementKeptByName(s, s');
    } else if !NoneIssued(s) {
      var a :| a in s.rows && LiveIssued(s, a);
      assert RowAgrees(s, a) && LiveIssued(s', a);
    } else if !NobodyWrites(s) {
      var t :| t in s.taps && Writing(s.taps[t]);
      assert Aligned(s, s.taps[t]) && !Aligned(s', s'.taps[t]);
    } else {
      assert forall a :: LiveIssued(s', a) ==> LiveIssued(s, a);
      assert forall t :: t in s.taps ==> Aligned(s, s.taps[t]);
    }
  }

  /** A save that is not safe breaks the agreement at once, or one that is under way breaks it with its next step. */
  lemma UnsafeCommitBreaks(s: State, k: PatchId)
    requires Inv(s) && AgreeInv(s) && ApplySettings(s, PatchCommit(k)).Some?
             && !SafeCommit(s, PatchStep(PatchCommit(k)))
    ensures var s' := ApplySettings(s, PatchCommit(k)).value;
            || !Agreement(s')
            || exists t :: var save := TapStep(t, Save(CommitActive(false)));
                           Apply(s', save).Some? && !Agreement(Apply(s', save).value)
  {
    hide Inv, Guarded, Excluded, Statuses;
    CommitIsSafeExactly(s, k);
    var s' := ApplySettings(s, PatchCommit(k)).value;
    if Agreement(s') {
      var t :| t in s'.taps && !Aligned(s', s'.taps[t]);
      AlignedFact(s, t);
      StaleWriteBreaks(s, s', t);
    }
  }

  /** The write of a tap whose template the event has left. */
  lemma StaleWriteBreaks(s: State, s': State, t: TapId)
    requires Inv(s) && t in s.taps && Writing(s.taps[t]) && s' == s.(event := s'.event, patches := s'.patches)
    requires s.taps[t].event.template != s'.event.template
    ensures var save := TapStep(t, Save(CommitActive(false)));
            Apply(s', save).Some? && !Agreement(Apply(s', save).value)
  {
    hide Inv, InCreation;
    TapFacts(s, t);
    var s1 := Apply(s', TapStep(t, Save(CommitActive(false)))).value;
    assert LiveIssued(s1, s.taps[t].attendee) && !RowAgrees(s1, s.taps[t].attendee);
  }

  /** A save that locked and counted is safe, and so is one whose comparison was with the template the event still
      has. */
  lemma CurrentCompareIsSafe(s: State, k: PatchId)
    requires AgreeInv(s) && ApplySettings(s, PatchCommit(k)).Some?
    requires Guarded(s.patches[k])
             || (s.patches[k].patch.template.Some? ==> s.event.template == s.patches[k].existing.template)
    ensures SafeCommit(s, PatchStep(PatchCommit(k)))
  {
    hide DisablingExpiration, Agreement, AllAligned, Statuses;
    if Guarded(s.patches[k]) {
      assert s.patches[k].phase.Counted?;
      assert NoHolder(s) && NoneIssued(s);
    }
  }

  lemma StepAgree(s: State, step: Step)
    requires Inv(s) && AgreeInv(s) && Apply(s, step).Some? && SafeCommit(s, step)
    ensures AgreeInv(Apply(s, step).value)
  {
    match step
    case TapStep(t, act) => hide *; TapAgree(s, t, act);
    case WorldStep(act) => hide Inv, AgreeInv, ApplyWorld, SafeCommit; WorldAgree(s, act);
    case ErasureStep(act) => hide Inv, AgreeInv, ApplyErasure, SafeCommit; ErasureAgree(s, act);
    case PatchStep(act) => hide Inv, AgreeInv, ApplySettings, SafeCommit; SettingsAgree(s, act);
    case StaffStep(act) => hide Inv, AgreeInv, ApplyStaff, SafeCommit; StaffAgree(s, act);
  }

  // ---------------------------------------------------------------------------------------------- every run

  lemma {:induction false} AgreeRun(s: State, run: seq<Step>)
    requires Inv(s) && AgreeInv(s) && Exec(s, run).Some? && Along(s, run, SafeCommit)
    ensures AgreeInv(Exec(s, run).value)
    decreases run
  {
    hide Inv, AgreeInv, Apply, SafeCommit;
    if run != [] {
      StepInv(s, run[0]);
      StepAgree(s, run[0]);
      AgreeRun(Apply(s, run[0]).value, run[1..]);
    }
  }

  /** In every run whose saves are safe when they write, the pass of every issued row of an attendee who is still there
      was made under the template the event records. */
  lemma {:induction false} SavedPassesAgree(s0: State, run: seq<Step>, a: AttendeeId)
    requires Init(s0) && Exec(s0, run).Some? && Along(s0, run, SafeCommit)
    requires var s := Exec(s0, run).value;
             a in s.rows && (s.rows[a].status.Active? || s.rows[a].issued) && !Gone(s, a)
    ensures RowAgrees(Exec(s0, run).value, a)
  {
    InitInv(s0);
    AgreeRun(s0, run);
    assert StatusOk(Exec(s0, run).value.rows[a]);
  }

  /** The first save of a run that is not safe leaves a state in which the agreement is broken, or in which the next
      step of a tap can break it: the condition of `SavedPassesAgree` cannot be weakened. */
  lemma {:induction false} FirstUnsafeSaveBreaks(s0: State, run: seq<Step>, k: PatchId)
    requires Init(s0) && Exec(s0, run).Some? && Along(s0, run, SafeCommit)
    requires ApplySettings(Exec(s0, run).value, PatchCommit(k)).Some?
    ensures var s := Exec(s0, run).value; var s' := ApplySettings(s, PatchCommit(k)).value;
            !SafeCommit(s, PatchStep(PatchCommit(k))) <==>
              || !Agreement(s')
              || exists t :: var save := TapStep(t, Save(CommitActive(false)));
                             Apply(s', save).Some? && !Agreement(Apply(s', save).value)
  {
    InitInv(s0);
    RunInv(s0, run);
    AgreeRun(s0, run);
    var s := Exec(s0, run).value;
    hide Exec, Along, Init, Inv, AgreeInv, SafeCommit, Agreement;
    if SafeCommit(s, PatchStep(PatchCommit(k))) {
      SafeCommitHolds(s, k);
    } else {
      UnsafeCommitBreaks(s, k);
    }
  }

  lemma SafeCommitHolds(s: State, k: PatchId)
    requires Inv(s) && AgreeInv(s) && ApplySettings(s, PatchCommit(k)).Some? && SafeCommit(s, PatchStep(PatchCommit(k)))
    ensures var s' := ApplySettings(s, PatchCommit(k)).value;
            && Agreement(s')
            && (forall t :: var save := TapStep(t, Save(CommitActive(false)));
                            Apply(s', save).Some? ==> Agreement(Apply(s', save).value))
  {
    hide Inv, AgreeInv, SafeCommit, ApplySettings, TapEffect;
    var s' := ApplySettings(s, PatchCommit(k)).value;
    CommitAgrees(s, k);
    SettingsInv(s, PatchCommit(k));
    forall t | Apply(s', TapStep(t, Save(CommitActive(false)))).Some?
      ensures Agreement(Apply(s', TapStep(t, Save(CommitActive(false)))).value)
    {
      TapAgree(s', t, Save(CommitActive(false)));
      AgreeFact(Apply(s', TapStep(t, Save(CommitActive(false)))).value);
    }
    AgreeFact(s');
  }

  lemma AgreeFact(s: State)
    requires AgreeInv(s)
    ensures Agreement(s)
  {
  }
}
