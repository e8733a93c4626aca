/** What a step can do, read off once, so that later proofs need not look into every branch again. */
module WalletSteps {
  import opened Options
  import opened WalletModel
  import opened WalletInvariant

  /** How a tap can come to `next`. */
  ghost predicate PcStep(s: State, tap: Tap, next: Pc) {
    var a := tap.attendee;
    var pc := tap.pc;
    match next
    case Looking => false
    case Joining => pc.Looking?
    case Waiting(_) => pc.Joining?
    case Leading(lead) => (
      match lead
      case Recheck => pc.Joining?
      case StillThere => pc == Leading(Recheck) && !PassUnavailable(s, a) && (a in s.rows ==> !s.rows[a].status.Active?)
      case ReserveLock => pc == Leading(StillThere)
      case ReserveClock => pc == Leading(ReserveLock) && RowLockFree(s, a) && !Gone(s, a))
    case Reserving(k) => pc == Leading(ReserveClock) && k == s.now
    case Sending(send, k) => if send.Create? then pc == Reserving(k) else pc.Sending? && pc.checkedAt == k
    case Saving(save, p) => (
      match save
      case Lock => pc.Sending? && CallOf(pc).Some? && CallOf(pc).value in s.calls
                   && s.calls[CallOf(pc).value].reply == Some(Result(p))
      case Advisory => pc == Saving(Lock, p) && RowLockFree(s, a) && !Gone(s, a)
      case Check => pc == Saving(Advisory, p) && AdvisoryFree(s)
      case Write(ends) =>
        && pc == Saving(Check, p) && s.event.template == tap.event.template
        && ExpirationDate(s.event) == ExpirationDate(tap.event) && ends == EventEnd(s.event)
      case GoneNow => pc.Saving? && pc.pass == p)
    case Orphaned(orphan, p) =>
      if orphan.Insert? then pc.Saving? && pc.pass == p && Gone(s, a) else pc.Orphaned? && pc.pass == p
    case Dropping(drop, p) =>
      if drop.DropDelete? then pc == Saving(Check, p) && s.event.template != tap.event.template
      else pc == Dropping(DropDelete, p)
    case Failing(locked) =>
      if locked then pc == Failing(false) && RowLockFree(s, a) && !Gone(s, a)
      else pc.Sending? || (pc.Saving? && pc.save.Check?) || (pc.Dropping? && pc.drop.DropRemember?)
    case Settled(_) => !pc.Done? && !pc.Dead?
    case Finishing(final, p) => (
      match final
      case FinalLock => pc == Settled(Links(p))
      case FinalWrite => pc == Finishing(FinalLock, p) && RowLockFree(s, a) && !Gone(s, a)
      case FinalAgain => pc.Finishing? && pc.pass == p)
    case Done(answer) =>
      && !pc.Done? && !pc.Dead?
      && (answer.ToPass? ==>
            || pc == Finishing(FinalWrite, answer.pass)
            || (pc == Finishing(FinalAgain, answer.pass) && RowLockFree(s, a) && !Gone(s, a)))
    case Dead(_) => false
  }

  /** What a tap can write, and where in the protocol. */
  ghost predicate WriteStep(s: State, t: TapId, tap: Tap, e: Effect) {
    var a := tap.attendee;
    var pc := tap.pc;
    match e.write
    case Nothing => true
    case PutRow(row) =>
      || (pc.Reserving? && row == ReservedRow(s, a))
      || (pc.Saving? && pc.save.Write? && row == ActiveRow(s, a, pc.pass, pc.save.ends))
      || (pc == Failing(true) && row == FailedRow(s, a))
      || (&& pc.Finishing? && pc.final.FinalWrite? && a in s.rows && !s.rows[a].confirmed
          && row == s.rows[a].(device := Some(t)))
      || (pc.Orphaned? && pc.orphan.Insert? && a !in s.rows && a in s.attendees && row == OrphanRow(a, pc.pass))
      || (&& pc.Orphaned? && pc.orphan.Fill? && a in s.rows && s.rows[a].passId.None?
          && row == s.rows[a].(passId := Some(pc.pass), userProvidedId := Some(ReservedId(a)), removed := false))
      || (&& ((pc.Orphaned? && pc.orphan.Remember?) || (pc.Dropping? && pc.drop.DropRemember?)) && a in s.rows
          && row == s.rows[a].(leftBehind := Some(pc.pass)))
    case SendCall(c, call) =>
      && pc.Sending? && e.next.Sending? && CallOf(e.next) == Some(c) && c !in s.calls
      && s.now < pc.checkedAt + CREATE_PASS_DEADLINE_MS && tap.event.template.Some?
      && ((pc.send.Create? && e.next.send.Creating? && call == NewCall(s, t, tap, CreatePass, pc.checkedAt))
          || (pc.send.Update? && e.next.send.Updating?
              && call == NewCall(s, t, tap, UpdatePass(pc.send.pass), pc.checkedAt)))
    case DeletePass(p) => pc == Orphaned(Delete, p) || pc == Dropping(DropDelete, p)
    case Judge(p) => e.next == Dropping(DropDelete, p) || e.next == Orphaned(Remember, p)
    case LogPass(p) => pc == Orphaned(Remember, p) || pc == Dropping(DropRemember, p)
  }

  /** A creation or an update that is under way was sent; a judged pass is deleted, or remembered, or written to the
      log. */
  ghost predicate CareStep(s: State, tap: Tap, e: Effect) {
    var pc := tap.pc;
    && (e.next.Dropping? && e.next.drop.DropDelete? ==> e.write == Judge(e.next.pass))
    && (e.next.Orphaned? && e.next.orphan.Remember? ==> e.write == Judge(e.next.pass))
    && (pc.Orphaned? && pc.orphan.Remember? ==>
          || e.write == LogPass(pc.pass) || tap.attendee !in s.rows
          || e.write == PutRow(s.rows[tap.attendee].(leftBehind := Some(pc.pass))))
    && (pc.Dropping? ==>
          if pc.drop.DropDelete? then e.next == Dropping(DropRemember, pc.pass) || e.write == DeletePass(pc.pass)
          else
            || e.write == LogPass(pc.pass) || tap.attendee !in s.rows
            || e.write == PutRow(s.rows[tap.attendee].(leftBehind := Some(pc.pass))))
    && (e.next.Sending? && CallOf(e.next).Some? ==> e.write.SendCall?)
  }

  ghost predicate Shape(s: State, t: TapId, tap: Tap, e: Effect) {
    PcStep(s, tap, e.next) && WriteStep(s, t, tap, e) && CareStep(s, tap, e)
  }

  lemma EntryShape(s: State, t: TapId, tap: Tap, act: EntryAct)
    requires EntryEffect(s, tap, act).Some?
    ensures Shape(s, t, tap, EntryEffect(s, tap, act).value)
  {
    hide RowLockFree, Gone, PassUnavailable;
  }

  lemma ReserveShape(s: State, t: TapId, tap: Tap, act: ReserveAct)
    requires ReserveEffect(s, tap, act).Some?
    ensures Shape(s, t, tap, ReserveEffect(s, tap, act).value)
  {
    hide RowLockFree, Gone, PassUnavailable;
  }

  lemma SendShape(s: State, t: TapId, tap: Tap, act: SendAct)
    requires tap.event.template.Some? && SendEffect(s, t, tap, act).Some?
    ensures Shape(s, t, tap, SendEffect(s, t, tap, act).value)
  {
    hide RowLockFree, Gone, PassUnavailable;
  }

  lemma SaveShape(s: State, t: TapId, tap: Tap, act: SaveAct)
    requires SaveEffect(s, tap, act).Some?
    ensures Shape(s, t, tap, SaveEffect(s, tap, act).value)
  {
    hide RowLockFree, Gone, PassUnavailable, AdvisoryFree;
  }

  lemma OrphanShape(s: State, t: TapId, tap: Tap, act: OrphanAct)
    requires OrphanEffect(s, tap, act).Some?
    ensures Shape(s, t, tap, OrphanEffect(s, tap, act).value)
  {
    hide RowLockFree, Gone, PassUnavailable;
  }

  lemma DropShape(s: State, t: TapId, tap: Tap, act: DropAct)
    requires DropEffect(s, tap, act).Some?
    ensures Shape(s, t, tap, DropEffect(s, tap, act).value)
  {
    hide RowLockFree, Gone, PassUnavailable;
  }

  lemma FailShape(s: State, t: TapId, tap: Tap, act: FailAct)
    requires FailEffect(s, tap, act).Some?
    ensures Shape(s, t, tap, FailEffect(s, tap, act).value)
  {
    hide RowLockFree, Gone, PassUnavailable;
  }

  lemma FinalShape(s: State, t: TapId, tap: Tap, act: FinalAct)
    requires FinalEffect(s, t, tap, act).Some?
    ensures Shape(s, t, tap, FinalEffect(s, t, tap, act).value)
  {
    hide RowLockFree, Gone, PassUnavailable;
  }

  lemma TapShape(s: State, t: TapId, act: Act)
    requires t in s.taps && s.taps[t].event.template.Some? && TapEffect(s, t, act).Some?
    ensures Shape(s, t, s.taps[t], TapEffect(s, t, act).value)
  {
    hide Shape, EntryEffect, ReserveEffect, SendEffect, SaveEffect, OrphanEffect, DropEffect, FailEffect, FinalEffect;
    match act
    case Entry(e) => EntryShape(s, t, s.taps[t], e);
    case Reserve(r) => ReserveShape(s, t, s.taps[t], r);
    case Send(e) => SendShape(s, t, s.taps[t], e);
    case Save(e) => SaveShape(s, t, s.taps[t], e);
    case Orphan(o) => OrphanShape(s, t, s.taps[t], o);
    case Drop(d) => DropShape(s, t, s.taps[t], d);
    case Fail(f) => FailShape(s, t, s.taps[t], f);
    case Final(f) => FinalShape(s, t, s.taps[t], f);
  }

  // ---------------------------------------------------------------------------------------------- the other steps

  /** A pass is as it was, or deleted at the provider. */
  ghost predicate Dwindles(passes: map<PassId, Pass>, passes': map<PassId, Pass>) {
    && passes'.Keys == passes.Keys
    && (forall p :: p in passes ==> passes'[p] == passes[p] || passes'[p] == passes[p].(present := false))
  }

  /** Between the check and the write of `markActive`. */
  predicate Writing(tap: Tap) {
    tap.pc.Saving? && tap.pc.save.Write?
  }

  predicate NobodyWrites(s: State) {
    forall t :: t in s.taps ==> !Writing(s.taps[t])
  }

  lemma TapFrame(s: State, t: TapId, act: Act)
    requires Apply(s, TapStep(t, act)).Some?
    ensures var s' := Apply(s, TapStep(t, act)).value;
            && t in s.taps && s'.taps.Keys == s.taps.Keys
            && s'.taps == s.taps[t := s.taps[t].(pc := s'.taps[t].pc, settled := s'.taps[t].settled)]
            && s' == s.(taps := s'.taps, locks := s'.locks, rows := s'.rows, passes := s'.passes, calls := s'.calls,
                        replaced := s'.replaced, log := s'.log)
            && (s'.rows == s.rows || (s.taps[t].attendee in s'.rows
                                      && s'.rows == s.rows[s.taps[t].attendee := s'.rows[s.taps[t].attendee]]))
            && Dwindles(s.passes, s'.passes)
            && s.log <= s'.log
  {
    hide TapEffect, InCreation;
  }

  /** A call takes effect at the provider: a new pass, or an update of the pass it is for. */
  ghost predicate Lands(s: State, s': State, c: CallId, p: PassId) {
    && c in s.calls && s.calls[c].reply.None? && s.now <= s.calls[c].sentAt + s.latency
    && s'.calls == s.calls[c := s.calls[c].(reply := Some(Result(p)))]
    && (match s.calls[c].kind
        case CreatePass =>
          && p !in s.passes
          && s'.passes == s.passes[p := Pass(ReservedId(s.calls[c].attendee), s.calls[c].template,
                                             s.calls[c].expiration, true)]
        case UpdatePass(target) =>
          && p == target && p in s.passes && s.passes[p].present
          && s'.passes == s.passes[p := s.passes[p].(expiration := s.calls[c].expiration)])
  }

  lemma LandFrame(s: State, c: CallId, p: PassId)
    requires ApplyWorld(s, Land(c, p)).Some?
    ensures var s' := ApplyWorld(s, Land(c, p)).value;
            Lands(s, s', c, p) && s' == s.(calls := s'.calls, passes := s'.passes)
  {
  }

  /** A crash stops a tap where it is. */
  predicate Dies(tap: Tap, tap': Tap) {
    !tap.pc.Dead? && !tap.pc.Done? && tap' == tap.(pc := Dead(tap.pc))
  }

  lemma CrashFrame(s: State, i: Instance)
    ensures var s' := ApplyWorld(s, Crash(i)).value;
            && s' == s.(taps := s'.taps, locks := s'.locks) && s'.taps.Keys == s.taps.Keys
            && (forall t :: t in s.taps ==>
                  s'.taps[t] == s.taps[t]
                  || Dies(s.taps[t], s'.taps[t]))
  {
  }

  lemma WorldFrame(s: State, act: WorldAct)
    requires ApplyWorld(s, act).Some?
    ensures var s' := ApplyWorld(s, act).value;
            && s.now <= s'.now
            && s' == s.(now := s'.now, taps := s'.taps, locks := s'.locks, passes := s'.passes, calls := s'.calls)
            && (forall t :: t in s.taps ==>
                  t in s'.taps && (s'.taps[t] == s.taps[t] || Dies(s.taps[t], s'.taps[t])))
            && (forall t :: t in s'.taps && t !in s.taps ==>
                  act.Arrive? && act.tap == t && s'.taps[t].instance == act.instance && s'.taps[t].pc.Looking?)
            && (if act.Land? then Lands(s, s', act.call, act.made)
                else s'.passes == s.passes && s'.calls.Keys == s.calls.Keys
                     && forall c :: c in s.calls ==>
                          s'.calls[c] == s.calls[c] || s'.calls[c] == s.calls[c].(reply := Some(Rejected))
                          || s'.calls[c] == s.calls[c].(reply := Some(Duplicate)))
  {
    match act
    case Arrive(_, _, _) =>
    case Tick(_) =>
    case Land(c, p) => LandFrame(s, c, p);
    case Refuse(_, _) =>
    case Crash(i) => CrashFrame(s, i);
  }

  lemma ErasureFrame(s: State, act: ErasureAct)
    requires ApplyErasure(s, act).Some?
    ensures var s' := ApplyErasure(s, act).value;
            && s' == s.(attendees := s'.attendees, rows := s'.rows, erasures := s'.erasures, passes := s'.passes)
            && (forall a :: a in s'.attendees ==>
                  a in s.attendees && (s'.attendees[a] == s.attendees[a] || s'.attendees[a].Erased?))
            && (forall a :: a in s.rows && a !in s'.rows ==> a !in s'.attendees)
            && (forall a :: a in s'.rows ==>
                  && a in s.rows
                  && (s'.rows[a] == s.rows[a]
                      || (Gone(s', a) && (s'.rows[a] == ErasedRow(s.rows[a])
                                          || s'.rows[a] == s.rows[a].(removed := true)))))
            && Dwindles(s.passes, s'.passes)
  {
    hide NoShareHolder, RowLockFree;
    match act
    case EraseBegin(_, _) =>
    case EraseLock(_) =>
    case EraseCommit(_) =>
    case EraseAbort(_) =>
    case Remove(_) =>
    case FollowUpDelete(_, _) =>
    case FollowUpSettle(_, _, _) =>
  }

  lemma StaffFrame(s: State, act: StaffAct)
    requires ApplyStaff(s, act).Some?
    ensures var s' := ApplyStaff(s, act).value; var a := act.attendee;
            && s' == s.(rows := s'.rows, passes := s'.passes)
            && a in s.rows && a in s'.rows && s'.rows == s.rows[a := s'.rows[a]]
            && s'.rows[a] == s.rows[a].(status := s'.rows[a].status, removed := s'.rows[a].removed,
                                        confirmed := s'.rows[a].confirmed)
            && Dwindles(s.passes, s'.passes)
  {
    hide RowLockFree, Gone;
    match act
    case Void(_) =>
    case Restore(_) =>
    case Expire(_) =>
    case RemoveAtProvider(_) =>
    case Confirm(_) =>
  }

  /** What no step changes: passes are never forgotten and keep their id and template, who is gone stays gone, the
      latency is fixed and time does not run back. */
  lemma StepFrame(s: State, step: Step)
    requires Apply(s, step).Some?
    ensures var s' := Apply(s, step).value;
            && s'.latency == s.latency && s.now <= s'.now
            && (forall p :: p in s.passes ==>
                  && p in s'.passes && s'.passes[p].userProvidedId == s.passes[p].userProvidedId
                  && s'.passes[p].template == s.passes[p].template)
            && (forall a :: Gone(s, a) ==> Gone(s', a))
  {
    match step
    case TapStep(t, act) => hide Apply; TapFrame(s, t, act);
    case WorldStep(act) => hide ApplyWorld; WorldFrame(s, act);
    case ErasureStep(act) => hide ApplyErasure; ErasureFrame(s, act);
    case PatchStep(act) => hide ApplySettings; SettingsFrame(s, act);
    case StaffStep(act) => hide ApplyStaff; StaffFrame(s, act);
  }
}
