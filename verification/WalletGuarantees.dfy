/** Guarantees over every run, under any interleaving, crash and database failure: the reservation, erasure, the
    captured device, and the bound on late sends. */
module WalletGuarantees {
  import opened Options
  import opened WalletModel
  import opened WalletInvariant
  import opened WalletSteps

  // --------------------------------------------------------------------------------------------- reserve before create

  lemma {:induction false} PassesStayInRun(s: State, run: seq<Step>, p: PassId)
    requires Exec(s, run).Some? && p in s.passes
    ensures p in Exec(s, run).value.passes
    ensures Exec(s, run).value.passes[p].userProvidedId == s.passes[p].userProvidedId
    decreases run
  {
    hide Apply;
    if run != [] {
      StepFrame(s, run[0]);
      PassesStayInRun(Apply(s, run[0]).value, run[1..], p);
    }
  }

  /** Every pass the provider has ever held for an attendee, and every creation under way, is under the id their pass
      row holds, for as long as there is a row: in the state that made it and in every state after, so no step clears
      it. */
  lemma {:induction false} ReserveBeforeCreate(s0: State, run: seq<Step>, more: seq<Step>)
    requires Init(s0) && Exec(s0, run).Some? && Exec(Exec(s0, run).value, more).Some?
    ensures var s := Exec(s0, run).value; var s' := Exec(s, more).value;
            && (forall p :: p in s.passes && s.passes[p].userProvidedId.attendee in s'.rows ==>
                  s'.rows[s.passes[p].userProvidedId.attendee].userProvidedId == Some(s.passes[p].userProvidedId))
            && (forall c :: c in s.calls && s.calls[c].attendee in s.rows ==>
                  s.rows[s.calls[c].attendee].userProvidedId == Some(ReservedId(s.calls[c].attendee)))
  {
    var s := Exec(s0, run).value;
    var s' := Exec(s, more).value;
    InitInv(s0);
    RunInv(s0, run);
    RunInv(s, more);
    forall p | p in s.passes && s.passes[p].userProvidedId.attendee in s'.rows
      ensures s'.rows[s.passes[p].userProvidedId.attendee].userProvidedId == Some(s.passes[p].userProvidedId)
    {
      PassesStayInRun(s, more, p);
      assert RowOk(s', s'.passes[p].userProvidedId.attendee);
    }
    forall c | c in s.calls && s.calls[c].attendee in s.rows
      ensures s.rows[s.calls[c].attendee].userProvidedId == Some(ReservedId(s.calls[c].attendee))
    {
      CallFacts(s, c);
      assert RowOk(s, s.calls[c].attendee);
    }
  }

  // ---------------------------------------------------------------------------------------------- erasure is final

  predicate Redirected(s: State, t: TapId) {
    t in s.taps && s.taps[t].pc.Done? && s.taps[t].pc.answer.ToPass?
  }

  /** No step redirects a tap to a pass of an attendee who is gone. */
  lemma NoRedirectOnceGone(s: State, step: Step, t: TapId)
    requires Inv(s) && Apply(s, step).Some? && Redirected(Apply(s, step).value, t)
    requires Gone(s, Apply(s, step).value.taps[t].attendee)
    ensures Redirected(s, t) && s.taps[t] == Apply(s, step).value.taps[t]
  {
    hide Inv, WriteStep, CareStep, ApplyWorld, ApplyErasure, ApplySettings, ApplyStaff, TapEffect;
    match step
    case TapStep(u, act) =>
      TapFrame(s, u, act);
      if u == t {
        TapShape(s, t, act);
        TapFacts(s, t);
      }
    case WorldStep(act) => WorldFrame(s, act);
    case ErasureStep(act) => ErasureFrame(s, act);
    case PatchStep(act) => SettingsFrame(s, act);
    case StaffStep(act) => StaffFrame(s, act);
  }

  /** Once an attendee is gone, whatever is in flight or comes later: their row has no install link and no device, and
      whoever is redirected to a pass of theirs had passed the last check before. */
  lemma {:induction false} ErasureIsFinal(s0: State, run: seq<Step>, more: seq<Step>, a: AttendeeId)
    requires Init(s0) && Exec(s0, run).Some? && Gone(Exec(s0, run).value, a)
    requires Exec(Exec(s0, run).value, more).Some?
    ensures var s := Exec(s0, run).value; var s' := Exec(s, more).value;
            && Gone(s', a)
            && (a in s'.rows ==> s'.rows[a].links.None? && s'.rows[a].device.None?)
            && (forall t :: Redirected(s', t) && s'.taps[t].attendee == a ==> Redirected(s, t))
  {
    InitInv(s0);
    RunInv(s0, run);
    GoneRun(Exec(s0, run).value, more, a);
  }

  lemma {:induction false} GoneRun(s: State, more: seq<Step>, a: AttendeeId)
    requires Inv(s) && Exec(s, more).Some? && Gone(s, a)
    ensures var s' := Exec(s, more).value;
            && Gone(s', a)
            && (a in s'.rows ==> s'.rows[a].links.None? && s'.rows[a].device.None?)
            && (forall t :: Redirected(s', t) && s'.taps[t].attendee == a ==>
                Redirected(s, t) && s.taps[t] == s'.taps[t])
    decreases more
  {
    hide Apply;
    if more == [] {
      assert a in s.rows ==> RowOk(s, a);
    } else {
      hide Inv;
      var s1 := Apply(s, more[0]).value;
      StepInv(s, more[0]);
      StepFrame(s, more[0]);
      GoneRun(s1, more[1..], a);
      forall t | Redirected(s1, t) && s1.taps[t].attendee == a ensures Redirected(s, t) && s.taps[t] == s1.taps[t] {
        NoRedirectOnceGone(s, more[0], t);
      }
    }
  }

  // ---------------------------------------------------------------------------------------------- the captured device

  /** The row of a confirmed pass keeps the device it has, and stays confirmed. */
  predicate Frozen(row: Row, row': Row) {
    row.confirmed ==> row'.confirmed && row'.device == row.device
  }

  lemma TapFreezes(s: State, t: TapId, act: Act, a: AttendeeId)
    requires Apply(s, TapStep(t, act)).Some? && a in s.rows
    ensures a in Apply(s, TapStep(t, act)).value.rows && Frozen(s.rows[a], Apply(s, TapStep(t, act)).value.rows[a])
  {
    hide TapEffect, InCreation, PcStep, CareStep;
    TapShape(s, t, act);
  }

  lemma StepFreezes(s: State, step: Step, a: AttendeeId)
    requires Apply(s, step).Some? && a in s.rows && a in Apply(s, step).value.rows && !Gone(Apply(s, step).value, a)
    ensures Frozen(s.rows[a], Apply(s, step).value.rows[a])
  {
    match step
    case TapStep(t, act) => TapFreezes(s, t, act, a);
    case WorldStep(act) => hide ApplyWorld, Lands; WorldFrame(s, act);
    case ErasureStep(act) => hide ApplyErasure, Dwindles; ErasureFrame(s, act);
    case PatchStep(act) => hide ApplySettings, PatchStepOk; SettingsFrame(s, act);
    case StaffStep(act) => hide ApplyStaff; StaffFrame(s, act); StaffKeepsConfirmed(s, act);
  }

  lemma StaffKeepsConfirmed(s: State, act: StaffAct)
    requires ApplyStaff(s, act).Some?
    ensures var s' := ApplyStaff(s, act).value; var a := act.attendee;
            a in s.rows && a in s'.rows && (s.rows[a].confirmed ==> s'.rows[a].confirmed)
  {
    hide RowLockFree, Gone;
  }

  lemma RowsStay(s: State, step: Step, a: AttendeeId)
    requires Apply(s, step).Some? && a in s.rows && a !in Apply(s, step).value.rows
    ensures Gone(Apply(s, step).value, a)
  {
    match step
    case TapStep(t, act) => hide Apply; TapFrame(s, t, act);
    case WorldStep(act) => hide ApplyWorld, Lands; WorldFrame(s, act);
    case ErasureStep(act) => hide ApplyErasure, Dwindles; ErasureFrame(s, act);
    case PatchStep(act) => hide ApplySettings, PatchStepOk; SettingsFrame(s, act);
    case StaffStep(act) => hide ApplyStaff, Dwindles; StaffFrame(s, act);
  }

  lemma {:induction false} GoneStays(s: State, run: seq<Step>, a: AttendeeId)
    requires Gone(s, a) && Exec(s, run).Some?
    ensures Gone(Exec(s, run).value, a)
    decreases run
  {
    hide Apply, Gone;
    if run != [] {
      StepFrame(s, run[0]);
      GoneStays(Apply(s, run[0]).value, run[1..], a);
    }
  }

  /** Once the first confirmation of a pass is recorded, no tap of any later run changes the device on the row, as long
      as the attendee is there; only an erasure clears it. */
  lemma {:induction false} ConfirmedDeviceIsFrozen(s: State, run: seq<Step>, a: AttendeeId)
    requires Exec(s, run).Some? && a in s.rows && s.rows[a].confirmed && !Gone(Exec(s, run).value, a)
    ensures a in Exec(s, run).value.rows && Frozen(s.rows[a], Exec(s, run).value.rows[a])
    decreases run
  {
    hide Apply, Gone;
    if run != [] {
      var s1 := Apply(s, run[0]).value;
      if Gone(s1, a) { GoneStays(s1, run[1..], a); }
      if a !in s1.rows { RowsStay(s, run[0], a); }
      StepFreezes(s, run[0], a);
      ConfirmedDeviceIsFrozen(s1, run[1..], a);
    }
  }

  // ---------------------------------------------------------------------------------------------- bounded late sends

  /** Every call for an erased attendee left before the erasure's commit plus the send deadline, and so before erased_at
      plus the erasure's own time limit plus that deadline: what erased_at records is the start of the transaction. */
  lemma {:induction false} SendsEndWithTheDeadline(s0: State, run: seq<Step>, c: CallId)
    requires Init(s0) && Exec(s0, run).Some? && c in Exec(s0, run).value.calls
    ensures var s := Exec(s0, run).value; var a := s.calls[c].attendee;
            a in s.attendees && s.attendees[a].Erased? ==>
              && s.calls[c].sentAt < s.attendees[a].committedAt + CREATE_PASS_DEADLINE_MS
              && s.calls[c].sentAt
                 < s.attendees[a].erasedAt + ERASE_TRANSACTION_TIMEOUT_MS + CREATE_PASS_DEADLINE_MS
  {
    InitInv(s0);
    RunInv(s0, run);
    CallFacts(Exec(s0, run).value, c);
    var s := Exec(s0, run).value;
    assert s.calls[c].attendee in s.attendees ==> PersonOk(s, s.calls[c].attendee);
  }

  /** Nothing can reach the provider for this attendee any more. */
  ghost predicate Over(s: State, a: AttendeeId) {
    && Gone(s, a)
    && (forall c :: c in s.calls && s.calls[c].attendee == a && s.calls[c].reply.None? ==>
          s.now > s.calls[c].sentAt + s.latency)
    && (forall t :: t in s.taps && s.taps[t].attendee == a && CheckedAt(s.taps[t].pc).Some? ==>
          s.now >= CheckedAt(s.taps[t].pc).value + CREATE_PASS_DEADLINE_MS)
  }

  lemma SettledIsOver(s: State, a: AttendeeId)
    requires Inv(s) && a in s.attendees && s.attendees[a].Erased?
    requires s.now >= s.attendees[a].erasedAt + CREATION_SETTLE_WINDOW_MS
    requires ERASE_TRANSACTION_TIMEOUT_MS + CREATE_PASS_DEADLINE_MS + s.latency <= CREATION_SETTLE_WINDOW_MS
    ensures Over(s, a)
  {
    assert PersonOk(s, a);
    forall c | c in s.calls && s.calls[c].attendee == a && s.calls[c].reply.None?
      ensures s.now > s.calls[c].sentAt + s.latency
    {
      CallFacts(s, c);
    }
    forall t | t in s.taps && s.taps[t].attendee == a && CheckedAt(s.taps[t].pc).Some?
      ensures s.now >= CheckedAt(s.taps[t].pc).value + CREATE_PASS_DEADLINE_MS
    {
      TapFacts(s, t);
    }
  }

  /** A pass of attendee `a` is as it was, or deleted; there is no new one. */
  ghost predicate NoneAdded(s: State, s': State, a: AttendeeId) {
    forall p :: p in s'.passes && s'.passes[p].userProvidedId == ReservedId(a) ==>
      && p in s.passes
      && (s'.passes[p] == s.passes[p] || s'.passes[p] == s.passes[p].(present := false))
  }

  lemma OverStep(s: State, step: Step, a: AttendeeId)
    requires Inv(s) && Over(s, a) && Apply(s, step).Some?
    ensures Over(Apply(s, step).value, a) && NoneAdded(s, Apply(s, step).value, a)
  {
    hide Inv, TapEffect, ApplyWorld, ApplyErasure, ApplySettings, ApplyStaff, Gone, CheckedAt;
    StepFrame(s, step);
    match step
    case TapStep(t, act) => OverTap(s, t, act, a);
    case WorldStep(act) => OverWorld(s, act, a);
    case ErasureStep(act) => ErasureFrame(s, act);
    case PatchStep(act) => SettingsFrame(s, act);
    case StaffStep(act) => StaffFrame(s, act);
  }

  lemma OverTap(s: State, t: TapId, act: Act, a: AttendeeId)
    requires Inv(s) && Over(s, a) && Apply(s, TapStep(t, act)).Some?
    ensures Over(Apply(s, TapStep(t, act)).value, a) && NoneAdded(s, Apply(s, TapStep(t, act)).value, a)
  {
    hide Inv, TapEffect, InCreation, RowLockFree, NoShareHolder, AdvisoryFree, CareStep;
    TapShape(s, t, act);
    TapFacts(s, t);
  }

  lemma OverWorld(s: State, act: WorldAct, a: AttendeeId)
    requires Inv(s) && Over(s, a) && ApplyWorld(s, act).Some?
    ensures Over(ApplyWorld(s, act).value, a) && NoneAdded(s, ApplyWorld(s, act).value, a)
  {
    hide Inv, ApplyWorld;
    WorldFrame(s, act);
    if act.Land? { CallFacts(s, act.call); }
  }

  lemma {:induction false} OverRun(s: State, more: seq<Step>, a: AttendeeId)
    requires Inv(s) && Over(s, a) && Exec(s, more).Some?
    ensures Over(Exec(s, more).value, a) && NoneAdded(s, Exec(s, more).value, a)
    decreases more
  {
    hide Apply, Inv, Over;
    if more != [] {
      StepInv(s, more[0]);
      OverStep(s, more[0], a);
      OverRun(Apply(s, more[0]).value, more[1..], a);
    }
  }

  /** Once an erasure is older than the settle window, "no pass under that id" is final: whatever happens afterwards,
      the provider gets no pass of this attendee that it does not hold now, and one that is deleted stays deleted. The
      provider's latency may be as long as the window leaves room for. */
  lemma {:induction false} SettledIsFinal(s0: State, run: seq<Step>, more: seq<Step>, a: AttendeeId)
    requires Init(s0) && Exec(s0, run).Some? && Exec(Exec(s0, run).value, more).Some?
    requires var s := Exec(s0, run).value;
             && a in s.attendees && s.attendees[a].Erased?
             && s.now >= s.attendees[a].erasedAt + CREATION_SETTLE_WINDOW_MS
             && ERASE_TRANSACTION_TIMEOUT_MS + CREATE_PASS_DEADLINE_MS + s.latency <= CREATION_SETTLE_WINDOW_MS
    ensures NoneAdded(Exec(s0, run).value, Exec(Exec(s0, run).value, more).value, a)
  {
    InitInv(s0);
    RunInv(s0, run);
    SettledIsOver(Exec(s0, run).value, a);
    OverRun(Exec(s0, run).value, more, a);
  }
}
