/** The expiry of a saved pass. On any number of app instances the expiry date the provider holds for a pass that is
    being saved is the one the row gets, on the fresh-create path and on the duplicate-recovery path, as long as no
    update takes effect that carries another date than a tap relies on. On one instance that can only be an update that
    was given up on while it was on its way. */
module WalletExpiry {
  import opened Options
  import opened WalletModel
  import opened WalletInvariant
  import opened WalletSteps
  import opened WalletWinner

  /** The provider's view of an expiry: the local wall-clock digits of the end. */
  function Digits(ends: Option<End>): Option<nat> {
    if ends.Some? then Some(ends.value.local) else None
  }

  /** The pass a tap relies on: the one it is saving, or the one the answer it has not read yet names. */
  function Relied(s: State, pc: Pc): Option<PassId> {
    if pc.Saving? && !pc.save.GoneNow? then Some(pc.pass)
    else if CallOf(pc).Some? && CallOf(pc).value in s.calls then
      match s.calls[CallOf(pc).value].reply
      case Some(Result(p)) => Some(p)
      case _ => None
    else None
  }

  /** The pass a tap relies on is its attendee's, and carries the expiry date of the event as the tap read it. */
  predicate RelyOk(s: State, tap: Tap) {
    && (Relied(s, tap.pc).Some? ==>
          var p := Relied(s, tap.pc).value;
          && p in s.passes && s.passes[p].userProvidedId == ReservedId(tap.attendee)
          && s.passes[p].expiration == ExpirationDate(tap.event))
    && (tap.pc.Saving? && tap.pc.save.Write? ==> Digits(tap.pc.save.ends) == ExpirationDate(tap.event))
  }

  /** A call carries what its sender read. */
  predicate SenderOk(s: State, c: CallId)
    requires c in s.calls
  {
    var call := s.calls[c];
    && call.sender in s.taps
    && call.attendee == s.taps[call.sender].attendee
    && call.expiration == ExpirationDate(s.taps[call.sender].event)
  }

  predicate WaitOk(s: State, t: TapId)
    requires t in s.taps
  {
    CallOf(s.taps[t].pc).Some? ==>
      CallOf(s.taps[t].pc).value in s.calls && s.calls[CallOf(s.taps[t].pc).value].sender == t
  }

  ghost predicate AllRely(s: State) {
    forall t :: t in s.taps ==> RelyOk(s, s.taps[t])
  }

  ghost predicate AllWait(s: State) {
    && (forall t :: t in s.taps ==> WaitOk(s, t))
    && (forall c :: c in s.calls ==> SenderOk(s, c))
  }

  ghost predicate ExpiryInv(s: State) {
    AllRely(s) && AllWait(s)
  }

  lemma ExpiryFacts(s: State, t: TapId)
    requires ExpiryInv(s) && t in s.taps
    ensures RelyOk(s, s.taps[t]) && WaitOk(s, t)
  {
  }

  lemma WaitFacts(s: State, t: TapId)
    requires AllWait(s) && t in s.taps
    ensures WaitOk(s, t)
  {
  }

  lemma SenderFacts(s: State, c: CallId)
    requires AllWait(s) && c in s.calls
    ensures SenderOk(s, c)
  {
  }

  /** The update `c` carries the date of every tap that relies on pass `p`. */
  predicate CarriesDate(s: State, c: CallId, p: PassId)
    requires c in s.calls
  {
    forall t :: t in s.taps && Relied(s, s.taps[t].pc) == Some(p) ==>
      ExpirationDate(s.taps[t].event) == s.calls[c].expiration
  }

  /** An update that takes effect carries the date of every tap that relies on its pass. */
  predicate Fits(s: State, step: Step) {
    step.WorldStep? && step.world.Land? && step.world.call in s.calls && s.calls[step.world.call].kind.UpdatePass? ==>
      CarriesDate(s, step.world.call, step.world.made)
  }

  // ---------------------------------------------------------------------------------------------- steps of a tap

  lemma TapRely(s: State, t: TapId, e: Effect)
    requires Inv(s) && ExpiryInv(s) && t in s.taps && Shape(s, t, s.taps[t], e)
    ensures var s' := Perform(s, t, e); RelyOk(s', s'.taps[t]) && WaitOk(s', t)
  {
    hide Inv, InCreation, ExpiryInv, RowLockFree, AdvisoryFree, Gone, PassUnavailable;
    ExpiryFacts(s, t);
    TapFacts(s, t);
  }

  lemma OthersRely(s: State, t: TapId, e: Effect, u: TapId)
    requires Inv(s) && ExpiryInv(s) && t in s.taps && u in s.taps && u != t && Shape(s, t, s.taps[t], e)
    ensures var s' := Perform(s, t, e); RelyOk(s', s'.taps[u]) && WaitOk(s', u)
  {
    hide Inv, InCreation, ExpiryInv, PcStep, CareStep;
    ExpiryFacts(s, u);
  }

  lemma TapSenders(s: State, t: TapId, e: Effect, c: CallId)
    requires AllWait(s) && t in s.taps && Shape(s, t, s.taps[t], e) && c in Perform(s, t, e).calls
    ensures SenderOk(Perform(s, t, e), c)
  {
    hide InCreation, AllWait, PcStep, CareStep;
    if c in s.calls { SenderFacts(s, c); }
  }

  lemma TapExpiry(s: State, t: TapId, act: Act)
    requires Inv(s) && ExpiryInv(s) && Apply(s, TapStep(t, act)).Some?
    ensures ExpiryInv(Apply(s, TapStep(t, act)).value)
  {
    var e := TapEffect(s, t, act).value;
    hide Inv, TapEffect, Shape, Perform, RelyOk, WaitOk, SenderOk;
    TapShape(s, t, act);
    var s' := Perform(s, t, e);
    assert s'.taps.Keys == s.taps.Keys by { hide Apply; TapFrame(s, t, act); }
    forall u | u in s'.taps ensures RelyOk(s', s'.taps[u]) && WaitOk(s', u) {
      if u == t { TapRely(s, t, e); } else { OthersRely(s, t, e, u); }
    }
    forall c | c in s'.calls ensures SenderOk(s', c) { TapSenders(s, t, e, c); }
  }

  // ---------------------------------------------------------------------------------------------- a call takes effect

  lemma LandWaits(s: State, c: CallId, p: PassId)
    requires AllWait(s) && ApplyWorld(s, Land(c, p)).Some?
    ensures AllWait(ApplyWorld(s, Land(c, p)).value)
  {
    var s' := ApplyWorld(s, Land(c, p)).value;
    hide ApplyWorld, AllWait;
    LandFrame(s, c, p);
    forall d | d in s'.calls ensures SenderOk(s', d) { SenderFacts(s, d); }
    forall t | t in s'.taps ensures WaitOk(s', t) { WaitFacts(s, t); }
    assert AllWait(s') by { WaitsAre(s'); }
  }

  lemma WaitsAre(s: State)
    requires (forall t :: t in s.taps ==> WaitOk(s, t)) && (forall c :: c in s.calls ==> SenderOk(s, c))
    ensures AllWait(s)
  {
  }

  /** A tap that waits for the call that takes effect sent it, and finds its own date. */
  lemma LandFindsSender(s: State, c: CallId, p: PassId, t: TapId)
    requires AllWait(s) && t in s.taps && c in s.calls && CallOf(s.taps[t].pc) == Some(c)
    ensures s.calls[c].expiration == ExpirationDate(s.taps[t].event) && s.calls[c].attendee == s.taps[t].attendee
  {
    hide AllWait;
    WaitFacts(s, t);
    SenderFacts(s, c);
  }

  /** A tap is left with what it relies on, unless the update that takes effect is for that pass and has another
      date. */
  lemma LandRely(s: State, c: CallId, p: PassId, t: TapId)
    requires Inv(s) && ExpiryInv(s) && t in s.taps && ApplyWorld(s, Land(c, p)).Some?
    ensures RelyOk(ApplyWorld(s, Land(c, p)).value, s.taps[t]) <==>
              (Relied(s, s.taps[t].pc) == Some(p) ==> ExpirationDate(s.taps[t].event) == s.calls[c].expiration)
  {
    hide Inv, AllWait, AllRely, ApplyWorld;
    LandFrame(s, c, p);
    hide ExpiryInv;
    ExpiryFacts(s, t);
    TapFacts(s, t);
    CallFacts(s, c);
    if CallOf(s.taps[t].pc) == Some(c) { WaitsOf(s); LandFindsSender(s, c, p, t); }
  }

  lemma WaitsOf(s: State)
    requires ExpiryInv(s)
    ensures AllWait(s)
  {
  }

  /** Exactly when a call that takes effect leaves every tap with what it relies on, on any number of instances, whether
      the call was given up on or not: it carries the date of every tap that relies on its pass. A new pass always
      does. */
  lemma LandKeepsExactly(s: State, c: CallId, p: PassId)
    requires Inv(s) && ExpiryInv(s) && ApplyWorld(s, Land(c, p)).Some?
    ensures var s' := ApplyWorld(s, Land(c, p)).value;
            && (AllRely(s') <==> CarriesDate(s, c, p))
            && (s.calls[c].kind.CreatePass? ==> AllRely(s'))
  {
    hide Inv, ExpiryInv, ApplyWorld, RelyOk;
    LandFrame(s, c, p);
    var s' := ApplyWorld(s, Land(c, p)).value;
    forall t | t in s.taps
      ensures RelyOk(s', s'.taps[t]) <==> (Relied(s, s.taps[t].pc) == Some(p) ==>
                                           ExpirationDate(s.taps[t].event) == s.calls[c].expiration)
    {
      LandRely(s, c, p, t);
    }
    hide ExpirationDate;
    if s.calls[c].kind.CreatePass? {
      forall t | t in s.taps ensures Relied(s, s.taps[t].pc) != Some(p) { ReliedIsThere(s, t); }
    }
  }

  lemma ReliedIsThere(s: State, t: TapId)
    requires ExpiryInv(s) && t in s.taps
    ensures Relied(s, s.taps[t].pc).Some? ==> Relied(s, s.taps[t].pc).value in s.passes
  {
    hide ExpiryInv;
    ExpiryFacts(s, t);
  }

  lemma LandExpiry(s: State, c: CallId, p: PassId)
    requires Inv(s) && ExpiryInv(s) && ApplyWorld(s, Land(c, p)).Some? && Fits(s, WorldStep(Land(c, p)))
    ensures ExpiryInv(ApplyWorld(s, Land(c, p)).value)
  {
    assert c in s.calls;
    LandKeepsExactly(s, c, p);
    LandWaits(s, c, p);
    hide Inv, AllRely, AllWait, ApplyWorld;
  }

  // ---------------------------------------------------------------------------------------------- the other steps

  lemma CrashExpiry(s: State, j: Instance)
    requires ExpiryInv(s)
    ensures ExpiryInv(ApplyWorld(s, Crash(j)).value)
  {
    var s' := ApplyWorld(s, Crash(j)).value;
    hide ApplyWorld;
    CrashFrame(s, j);
    forall c | c in s'.calls ensures SenderOk(s', c) { assert SenderOk(s, c); }
    forall t | t in s'.taps ensures RelyOk(s', s'.taps[t]) && WaitOk(s', t) { assert RelyOk(s, s.taps[t]); }
  }

  lemma RefuseExpiry(s: State, c: CallId, duplicate: bool)
    requires ExpiryInv(s) && ApplyWorld(s, Refuse(c, duplicate)).Some?
    ensures ExpiryInv(ApplyWorld(s, Refuse(c, duplicate)).value)
  {
    var s' := ApplyWorld(s, Refuse(c, duplicate)).value;
    forall d | d in s'.calls ensures SenderOk(s', d) { assert SenderOk(s, d); }
    forall t | t in s'.taps ensures RelyOk(s', s'.taps[t]) && WaitOk(s', t) { ExpiryFacts(s, t); }
  }

  lemma ArriveExpiry(s: State, t: TapId, j: Instance, a: AttendeeId)
    requires ExpiryInv(s) && ApplyWorld(s, Arrive(t, j, a)).Some?
    ensures ExpiryInv(ApplyWorld(s, Arrive(t, j, a)).value)
  {
    var s' := ApplyWorld(s, Arrive(t, j, a)).value;
    forall c | c in s'.calls ensures SenderOk(s', c) { assert SenderOk(s, c); }
    forall u | u in s'.taps ensures RelyOk(s', s'.taps[u]) && WaitOk(s', u) {
      if u in s.taps { ExpiryFacts(s, u); }
    }
  }

  lemma WorldExpiry(s: State, act: WorldAct)
    requires Inv(s) && ExpiryInv(s) && Fits(s, WorldStep(act)) && ApplyWorld(s, act).Some?
    ensures ExpiryInv(ApplyWorld(s, act).value)
  {
    match act
    case Land(c, p) => hide *; LandExpiry(s, c, p);
    case Crash(j) => hide *; CrashExpiry(s, j);
    case Refuse(c, duplicate) => hide *; RefuseExpiry(s, c, duplicate);
    case Tick(_) => hide RelyOk, SenderOk, Fits; QuietExpiry(s, ApplyWorld(s, act).value);
    case Arrive(t, j, a) => hide *; ArriveExpiry(s, t, j, a);
  }

  /** Rows, attendees, settings and locks change; passes at most go. */
  lemma QuietExpiry(s: State, s': State)
    requires ExpiryInv(s) && s'.taps == s.taps && s'.calls == s.calls && Dwindles(s.passes, s'.passes)
    ensures ExpiryInv(s')
  {
    forall c | c in s'.calls ensures SenderOk(s', c) { assert SenderOk(s, c); }
    forall t | t in s'.taps ensures RelyOk(s', s'.taps[t]) && WaitOk(s', t) { ExpiryFacts(s, t); }
  }

  lemma StepExpiry(s: State, step: Step)
    requires Inv(s) && ExpiryInv(s) && Fits(s, step) && Apply(s, step).Some?
    ensures ExpiryInv(Apply(s, step).value)
  {
    hide Inv, ExpiryInv, ApplyWorld, ApplyErasure, ApplySettings, ApplyStaff, TapEffect, Fits, PatchStepOk;
    match step
    case TapStep(t, act) => TapExpiry(s, t, act);
    case WorldStep(act) => WorldExpiry(s, act);
    case ErasureStep(act) => ErasureFrame(s, act); QuietExpiry(s, ApplyErasure(s, act).value);
    case PatchStep(act) => SettingsFrame(s, act); QuietExpiry(s, ApplySettings(s, act).value);
    case StaffStep(act) => StaffFrame(s, act); QuietExpiry(s, ApplyStaff(s, act).value);
  }

  lemma {:induction false} ExpiryRun(s: State, run: seq<Step>)
    requires Inv(s) && ExpiryInv(s) && Exec(s, run).Some? && Along(s, run, Fits)
    ensures Inv(Exec(s, run).value) && ExpiryInv(Exec(s, run).value)
    decreases run
  {
    hide Inv, ExpiryInv, Apply, Fits;
    if run != [] {
      StepInv(s, run[0]);
      StepExpiry(s, run[0]);
      ExpiryRun(Apply(s, run[0]).value, run[1..]);
    }
  }

  // ---------------------------------------------------------------------------------------------- the end of the event

  /** What a tap is about to write is the end the event has now. */
  predicate EndsOk(s: State) {
    forall t :: t in s.taps && Writing(s.taps[t]) ==> s.taps[t].pc.save.ends == EventEnd(s.event)
  }

  /** No settings save moves the event's end between a tap's check and its write. */
  predicate Steady(s: State, step: Step) {
    step.PatchStep? && step.patch.PatchCommit? && step.patch.patch in s.patches ==>
      NobodyWrites(s) || EventEnd(Patched(s.event, s.patches[step.patch.patch].patch)) == EventEnd(s.event)
  }

  /** Exactly when a settings save leaves every write under way in agreement with the event. */
  lemma CommitKeepsEnds(s: State, k: PatchId)
    requires EndsOk(s) && ApplySettings(s, PatchCommit(k)).Some?
    ensures EndsOk(ApplySettings(s, PatchCommit(k)).value) <==> Steady(s, PatchStep(PatchCommit(k)))
  {
    hide Guarded, Patched, EventEnd;
    var s' := ApplySettings(s, PatchCommit(k)).value;
    if !NobodyWrites(s) {
      var t :| t in s.taps && Writing(s.taps[t]);
      assert t in s'.taps && Writing(s'.taps[t]);
    }
  }

  lemma TapEnds(s: State, t: TapId, act: Act)
    requires EndsOk(s) && Apply(s, TapStep(t, act)).Some?
    ensures EndsOk(Apply(s, TapStep(t, act)).value)
  {
    hide TapEffect, WriteStep, CareStep, EventEnd, InCreation, ExpirationDate, RowLockFree, AdvisoryFree;
    TapShape(s, t, act);
  }

  lemma StepEnds(s: State, step: Step)
    requires EndsOk(s) && Apply(s, step).Some? && Steady(s, step)
    ensures EndsOk(Apply(s, step).value)
  {
    hide EventEnd;
    match step
    case TapStep(t, act) => hide *; TapEnds(s, t, act);
    case WorldStep(act) => hide ApplyWorld, Lands; WorldFrame(s, act);
    case ErasureStep(act) => hide ApplyErasure, Dwindles; ErasureFrame(s, act);
    case PatchStep(act) =>
      hide EndsOk, Steady;
      if act.PatchCommit? { CommitKeepsEnds(s, act.patch); } else { SettingsEnds(s, act); }
    case StaffStep(act) => hide ApplyStaff, Dwindles; StaffFrame(s, act);
  }

  lemma SettingsEnds(s: State, act: PatchAct)
    requires EndsOk(s) && ApplySettings(s, act).Some? && !act.PatchCommit?
    ensures EndsOk(ApplySettings(s, act).value)
  {
    hide ApplySettings, PatchStepOk, EventEnd;
    SettingsFrame(s, act);
  }

  lemma {:induction false} EndsRun(s: State, run: seq<Step>)
    requires EndsOk(s) && Exec(s, run).Some? && Along(s, run, Steady)
    ensures EndsOk(Exec(s, run).value)
    decreases run
  {
    hide EndsOk, Apply, Steady;
    if run != [] {
      StepEnds(s, run[0]);
      EndsRun(Apply(s, run[0]).value, run[1..]);
    }
  }

  // ---------------------------------------------------------------------------------------------- the theorem

  /** The row tap `t` has just saved: its pass is its attendee's, and the provider holds the date of the row's own
      expiry. */
  predicate SavedDateAgrees(s: State, a: AttendeeId) {
    && a in s.rows && s.rows[a].status.Active? && s.rows[a].passId.Some? && s.rows[a].passId.value in s.passes
    && s.passes[s.rows[a].passId.value].userProvidedId == ReservedId(a)
    && s.passes[s.rows[a].passId.value].expiration == Digits(s.rows[a].expiresAt)
  }

  /** On any number of instances, when a row is saved as active: its pass is this attendee's, the expiry date the
      provider holds is that of the row's own expiry, and the row's expiry is the event's end (or none), whether the
      pass was created just now or recovered. The first needs every update that took effect to carry the date of the
      taps relying on its pass, the second no save to have moved the event's end between check and write. */
  lemma {:induction false} SavedExpiryAgrees(s0: State, run: seq<Step>, t: TapId, lost: bool)
    requires Init(s0) && Exec(s0, run).Some? && Along(s0, run, Fits)
    requires Apply(Exec(s0, run).value, TapStep(t, Save(CommitActive(lost)))).Some?
    ensures var s := Exec(s0, run).value; var s' := Apply(s, TapStep(t, Save(CommitActive(lost)))).value;
            && SavedDateAgrees(s', s.taps[t].attendee)
            && (Along(s0, run, Steady) ==> s'.rows[s.taps[t].attendee].expiresAt == EventEnd(s'.event))
  {
    InitInv(s0);
    ExpiryRun(s0, run);
    var s := Exec(s0, run).value;
    if Along(s0, run, Steady) { EndsRun(s0, run); }
    hide Exec, Along, Init, Inv, ExpiryInv, SavedDateAgrees;
    ExpiryFacts(s, t);
    SaveIsInTime(s, t, lost);
  }

  lemma SaveIsInTime(s: State, t: TapId, lost: bool)
    requires t in s.taps && RelyOk(s, s.taps[t])
    requires Apply(s, TapStep(t, Save(CommitActive(lost)))).Some?
    ensures var s' := Apply(s, TapStep(t, Save(CommitActive(lost)))).value;
            && s.taps[t].attendee in s'.rows && s'.rows[s.taps[t].attendee].expiresAt == s.taps[t].pc.save.ends
            && s'.event == s.event && SavedDateAgrees(s', s.taps[t].attendee)
  {
    hide InCreation, EventEnd, ExpirationDate, Digits;
  }

  predicate WritesDigits(s: State) {
    forall t :: t in s.taps && Writing(s.taps[t]) ==> Digits(s.taps[t].pc.save.ends) == ExpirationDate(s.taps[t].event)
  }

  lemma TapDigits(s: State, t: TapId, act: Act)
    requires WritesDigits(s) && Apply(s, TapStep(t, act)).Some?
    ensures WritesDigits(Apply(s, TapStep(t, act)).value)
  {
    hide TapEffect, WriteStep, CareStep, InCreation, RowLockFree, AdvisoryFree, PassUnavailable;
    TapShape(s, t, act);
  }

  lemma StepDigits(s: State, step: Step)
    requires WritesDigits(s) && Apply(s, step).Some?
    ensures WritesDigits(Apply(s, step).value)
  {
    match step
    case TapStep(t, act) => hide *; TapDigits(s, t, act);
    case WorldStep(act) => hide ApplyWorld, Lands, ExpirationDate, Digits; WorldFrame(s, act);
    case ErasureStep(act) => hide ApplyErasure, Dwindles; ErasureFrame(s, act);
    case PatchStep(act) => hide ApplySettings, PatchStepOk; SettingsFrame(s, act);
    case StaffStep(act) => hide ApplyStaff, Dwindles; StaffFrame(s, act);
  }

  lemma {:induction false} DigitsRun(s: State, run: seq<Step>)
    requires WritesDigits(s) && Exec(s, run).Some?
    ensures WritesDigits(Exec(s, run).value)
    decreases run
  {
    hide WritesDigits, Apply;
    if run != [] {
      StepDigits(s, run[0]);
      DigitsRun(Apply(s, run[0]).value, run[1..]);
    }
  }

  /** In every run, without any condition: the row that is saved agrees with the provider exactly when the pass carries,
      at that moment, the date of the event as the tap read it. */
  lemma {:induction false} WhenSavedExpiryAgrees(s0: State, run: seq<Step>, t: TapId, lost: bool)
    requires Init(s0) && Exec(s0, run).Some?
    requires Apply(Exec(s0, run).value, TapStep(t, Save(CommitActive(lost)))).Some?
    ensures var s := Exec(s0, run).value; var s' := Apply(s, TapStep(t, Save(CommitActive(lost)))).value;
            s.taps[t].pc.pass in s.passes
            && (SavedDateAgrees(s', s.taps[t].attendee) <==>
                s.passes[s.taps[t].pc.pass].expiration == ExpirationDate(s.taps[t].event))
  {
    InitInv(s0);
    RunInv(s0, run);
    DigitsRun(s0, run);
    var s := Exec(s0, run).value;
    hide Exec, Along, Init, Inv, InCreation, EventEnd, ExpirationDate, Digits;
    TapFacts(s, t);
  }

  // ---------------------------------------------------------------------------------------------- one instance

  /** The tap waits for an update that has not taken effect yet. */
  predicate UpdateOnItsWay(s: State, tap: Tap) {
    && tap.pc.Sending? && tap.pc.send.Updating?
    && tap.pc.send.call in s.calls && s.calls[tap.pc.send.call].reply.None?
  }

  /** The step arrives on instance `i` and gives up on no update that is on its way: neither by a timeout nor by a
      crash. */
  predicate Patient(s: State, i: Instance, step: Step) {
    && ArrivesOn(i, step)
    && (step.TapStep? && step.act == Send(TimeOut) && step.tap in s.taps ==> !UpdateOnItsWay(s, s.taps[step.tap]))
    && (step.WorldStep? && step.world.Crash? ==> forall t :: t in s.taps ==> !UpdateOnItsWay(s, s.taps[t]))
  }

  /** An update on its way is waited for by its sender. */
  predicate UpdateAwaited(s: State, c: CallId)
    requires c in s.calls
  {
    s.calls[c].reply.None? && s.calls[c].kind.UpdatePass? ==>
      && s.calls[c].sender in s.taps
      && s.taps[s.calls[c].sender].pc.Sending? && s.taps[s.calls[c].sender].pc.send == Updating(c)
  }

  ghost predicate PatientInv(s: State, i: Instance) {
    AllOn(s, i) && forall c :: c in s.calls ==> UpdateAwaited(s, c)
  }

  lemma UpdateAwaitedFact(s: State, i: Instance, c: CallId)
    requires PatientInv(s, i) && c in s.calls
    ensures UpdateAwaited(s, c) && AllOn(s, i)
  {
  }

  /** A tap that is patient has nothing to do while its update is on its way. */
  lemma WaitsForUpdate(s: State, i: Instance, t: TapId, act: Act)
    requires Patient(s, i, TapStep(t, act)) && Apply(s, TapStep(t, act)).Some?
    ensures !UpdateOnItsWay(s, s.taps[t])
  {
  }

  lemma TapAwaits(s: State, i: Instance, t: TapId, e: Effect, c: CallId)
    requires PatientInv(s, i) && t in s.taps && Shape(s, t, s.taps[t], e) && c in Perform(s, t, e).calls
    requires !UpdateOnItsWay(s, s.taps[t])
    ensures UpdateAwaited(Perform(s, t, e), c)
  {
    hide InCreation, PatientInv, PcStep, CareStep;
    if c in s.calls { UpdateAwaitedFact(s, i, c); }
  }

  lemma TapPatient(s: State, i: Instance, t: TapId, act: Act)
    requires PatientInv(s, i) && Patient(s, i, TapStep(t, act)) && Apply(s, TapStep(t, act)).Some?
    ensures PatientInv(Apply(s, TapStep(t, act)).value, i)
  {
    WaitsForUpdate(s, i, t, act);
    var e := TapEffect(s, t, act).value;
    hide TapEffect, Shape, Perform, UpdateAwaited, Patient, UpdateOnItsWay;
    TapShape(s, t, act);
    var s' := Perform(s, t, e);
    assert AllOn(s', i) by { hide Apply; TapFrame(s, t, act); }
    forall c | c in s'.calls ensures UpdateAwaited(s', c) { TapAwaits(s, i, t, e, c); }
  }

  lemma WorldPatient(s: State, i: Instance, act: WorldAct)
    requires PatientInv(s, i) && Patient(s, i, WorldStep(act)) && ApplyWorld(s, act).Some?
    ensures PatientInv(ApplyWorld(s, act).value, i)
  {
    var s' := ApplyWorld(s, act).value;
    if act.Crash? {
      hide ApplyWorld;
      CrashFrame(s, act.instance);
      forall c | c in s'.calls ensures UpdateAwaited(s', c) { assert UpdateAwaited(s, c); }
    } else {
      forall c | c in s'.calls ensures UpdateAwaited(s', c) { assert UpdateAwaited(s, c); }
    }
  }

  lemma StepPatient(s: State, i: Instance, step: Step)
    requires PatientInv(s, i) && Patient(s, i, step) && Apply(s, step).Some?
    ensures PatientInv(Apply(s, step).value, i)
  {
    match step
    case TapStep(t, act) => hide *; TapPatient(s, i, t, act);
    case WorldStep(act) => hide PatientInv, ApplyWorld, Patient; WorldPatient(s, i, act);
    case ErasureStep(act) => hide ApplyErasure, Dwindles, Patient; ErasureFrame(s, act);
    case PatchStep(act) => hide ApplySettings, PatchStepOk, Patient; SettingsFrame(s, act);
    case StaffStep(act) => hide ApplyStaff, Dwindles, Patient; StaffFrame(s, act);
  }

  lemma RelierInCreation(s: State, pc: Pc)
    requires Relied(s, pc).Some? || pc.Sending?
    ensures InCreation(pc)
  {
  }

  /** On one instance a patient run fits: the pass an update is for is relied on by nobody while its sender waits. */
  lemma PatienceFits(s: State, i: Instance, step: Step)
    requires Inv(s) && ExpiryInv(s) && PatientInv(s, i) && Apply(s, step).Some?
    ensures Fits(s, step)
  {
    if step.WorldStep? && step.world.Land? && step.world.call in s.calls && s.calls[step.world.call].kind.UpdatePass? {
      var c, p := step.world.call, step.world.made;
      hide Inv, ExpiryInv, PatientInv, ApplyWorld, InCreation;
      LandFrame(s, c, p);
      forall t | t in s.taps ensures Relied(s, s.taps[t].pc) != Some(p) { UpdatedIsNotRelied(s, i, c, p, t); }
    }
  }

  lemma UpdatedIsNotRelied(s: State, i: Instance, c: CallId, p: PassId, t: TapId)
    requires Inv(s) && ExpiryInv(s) && PatientInv(s, i) && t in s.taps
    requires c in s.calls && s.calls[c].kind == UpdatePass(p) && s.calls[c].reply.None?
    ensures Relied(s, s.taps[t].pc) != Some(p)
  {
    hide Inv, ExpiryInv, PatientInv, InCreation, AllOn;
    UpdateAwaitedFact(s, i, c);
    ExpiryFacts(s, t);
    WaitsOf(s);
    SenderFacts(s, c);
    CallFacts(s, c);
    if Relied(s, s.taps[t].pc) == Some(p) {
      RelierInCreation(s, s.taps[t].pc);
      RelierInCreation(s, s.taps[s.calls[c].sender].pc);
      OneCreation(s, i, t, s.calls[c].sender);
    }
  }

  lemma {:induction false} PatientRunsFit(s: State, i: Instance, run: seq<Step>)
    requires Inv(s) && ExpiryInv(s) && PatientInv(s, i) && Exec(s, run).Some?
    requires Along(s, run, (s, step) => Patient(s, i, step))
    ensures Along(s, run, Fits)
    decreases run
  {
    hide Inv, ExpiryInv, PatientInv, Apply, Patient, Fits;
    if run != [] {
      PatienceFits(s, i, run[0]);
      StepInv(s, run[0]);
      StepExpiry(s, run[0]);
      StepPatient(s, i, run[0]);
      PatientRunsFit(Apply(s, run[0]).value, i, run[1..]);
    }
  }

  /** On one instance, in every run that gives up on no update while it is on its way, a saved row agrees with the
      provider. */
  lemma {:induction false} OneInstanceExpiryAgrees(s0: State, i: Instance, run: seq<Step>, t: TapId, lost: bool)
    requires Init(s0) && Exec(s0, run).Some? && Along(s0, run, (s, step) => Patient(s, i, step))
    requires Apply(Exec(s0, run).value, TapStep(t, Save(CommitActive(lost)))).Some?
    ensures var s := Exec(s0, run).value; var s' := Apply(s, TapStep(t, Save(CommitActive(lost)))).value;
            && SavedDateAgrees(s', s.taps[t].attendee)
            && (Along(s0, run, Steady) ==> s'.rows[s.taps[t].attendee].expiresAt == EventEnd(s'.event))
  {
    InitInv(s0);
    PatientRunsFit(s0, i, run);
    SavedExpiryAgrees(s0, run, t, lost);
  }
}
