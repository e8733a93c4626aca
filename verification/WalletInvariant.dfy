/** What every step of every run keeps, whatever the number of instances and whatever fails. */
module WalletInvariant {
  import opened Options
  import opened WalletModel

  // ---------------------------------------------------------------------------------------------- reading a counter

  /** The pass a tap has in hand. */
  function PassOf(pc: Pc): Option<PassId> {
    if pc.Saving? || pc.Orphaned? || pc.Dropping? then Some(pc.pass)
    else if pc.Sending? && pc.send.Update? then Some(pc.send.pass)
    else None
  }

  /** The call a tap waits for. */
  function CallOf(pc: Pc): Option<CallId> {
    if pc.Sending? && (pc.send.Creating? || pc.send.Updating?) then Some(pc.send.call) else None
  }

  /** The moment the attendee was last read as still there, for a tap that may yet send because of it. */
  function CheckedAt(pc: Pc): Option<nat> {
    if pc.Reserving? || pc.Sending? then Some(pc.checkedAt) else None
  }

  /** Past the commit of the reservation. */
  predicate PastReserve(pc: Pc) {
    pc.Sending? || pc.Saving? || pc.Orphaned? || pc.Dropping? || pc.Failing?
  }

  // ---------------------------------------------------------------------------------------------- the invariant

  /** An attendee who is still there has a row, and it holds the id their pass is made under. */
  predicate Reserved(s: State, a: AttendeeId) {
    a in s.attendees ==> a in s.rows && s.rows[a].userProvidedId == Some(ReservedId(a))
  }

  /** The attendee was read as not erased at `k`, so an erasure can only have committed since. */
  predicate Timely(s: State, a: AttendeeId, k: nat) {
    && k <= s.now
    && (a in s.attendees && s.attendees[a].Erased? ==> k <= s.attendees[a].committedAt)
  }

  predicate MadeFor(s: State, p: PassId, a: AttendeeId, template: TemplateId) {
    p in s.passes && s.passes[p].userProvidedId == ReservedId(a) && s.passes[p].template == template
  }

  ghost predicate TapOk(s: State, tap: Tap) {
    && tap.event.template.Some?
    && (HoldsRow(tap.pc) ==> !Gone(s, tap.attendee))
    && (PastReserve(tap.pc) ==> Reserved(s, tap.attendee))
    && (CheckedAt(tap.pc).Some? ==> Timely(s, tap.attendee, CheckedAt(tap.pc).value))
    && (PassOf(tap.pc).Some? ==> MadeFor(s, PassOf(tap.pc).value, tap.attendee, tap.event.template.value))
    && (CallOf(tap.pc).Some? ==>
          && CallOf(tap.pc).value in s.calls
          && s.calls[CallOf(tap.pc).value].attendee == tap.attendee
          && s.calls[CallOf(tap.pc).value].template == tap.event.template.value)
  }

  ghost predicate CallOk(s: State, call: Call) {
    && Reserved(s, call.attendee)
    && Timely(s, call.attendee, call.checkedAt)
    && call.checkedAt <= call.sentAt <= s.now
    && call.sentAt < call.checkedAt + CREATE_PASS_DEADLINE_MS
    && (call.kind.UpdatePass? ==> MadeFor(s, call.kind.pass, call.attendee, call.template))
    && (call.reply.Some? && call.reply.value.Result? ==>
          MadeFor(s, call.reply.value.pass, call.attendee, call.template))
  }

  ghost predicate RowOk(s: State, a: AttendeeId)
    requires a in s.rows
  {
    && a in s.attendees
    && (s.rows[a].passId.Some? ==> s.rows[a].passId.value in s.passes)
    && (s.attendees[a].Erased? ==> s.rows[a].links.None? && s.rows[a].device.None?)
  }

  ghost predicate PersonOk(s: State, a: AttendeeId)
    requires a in s.attendees
  {
    s.attendees[a].Erased? ==>
      && s.attendees[a].erasedAt <= s.attendees[a].committedAt <= s.now
      && s.attendees[a].committedAt <= s.attendees[a].erasedAt + ERASE_TRANSACTION_TIMEOUT_MS
  }

  ghost predicate ErasureOk(s: State, e: Erasure) {
    && e.startedAt <= s.now
    && (e.locked ==> NoShareHolder(s, e.attendee) && !Gone(s, e.attendee))
  }

  /** The in-process lock map has an entry exactly for the one creation of an attendee on an instance. */
  ghost predicate LockOk(s: State) {
    && (forall l :: l in s.locks ==>
          && s.locks[l] in s.taps && InCreation(s.taps[s.locks[l]].pc)
          && (s.taps[s.locks[l]].instance, s.taps[s.locks[l]].attendee) == l)
    && (forall t :: t in s.taps && InCreation(s.taps[t].pc) ==>
          && (s.taps[t].instance, s.taps[t].attendee) in s.locks
          && s.locks[(s.taps[t].instance, s.taps[t].attendee)] == t)
  }

  ghost predicate OneLockedErasure(s: State) {
    forall e, f | e in s.erasures && f in s.erasures && s.erasures[e].locked && s.erasures[f].locked ::
      s.erasures[e].attendee == s.erasures[f].attendee ==> e == f
  }

  ghost predicate TapsOk(s: State) {
    forall t :: t in s.taps ==> TapOk(s, s.taps[t])
  }

  ghost predicate CallsOk(s: State) {
    forall c :: c in s.calls ==> CallOk(s, s.calls[c])
  }

  ghost predicate PassesOk(s: State) {
    forall p :: p in s.passes ==> Reserved(s, s.passes[p].userProvidedId.attendee)
  }

  ghost predicate RowsOk(s: State) {
    forall a :: a in s.rows ==> RowOk(s, a)
  }

  ghost predicate PeopleOk(s: State) {
    forall a :: a in s.attendees ==> PersonOk(s, a)
  }

  ghost predicate ErasuresOk(s: State) {
    && (forall e :: e in s.erasures ==> ErasureOk(s, s.erasures[e]))
    && OneLockedErasure(s)
  }

  ghost predicate Inv(s: State) {
    TapsOk(s) && CallsOk(s) && PassesOk(s) && RowsOk(s) && PeopleOk(s) && ErasuresOk(s) && LockOk(s)
  }

  lemma InitInv(s: State)
    requires Init(s)
    ensures Inv(s)
  {
  }

  // -------------------------------------------------------------------------------------------- what a step may change

  /** What the rest of the system can rely on when somebody else takes a step. */
  ghost predicate Extends(s: State, s': State) {
    && s.now <= s'.now
    && (forall p :: p in s.passes ==>
          p in s'.passes && s'.passes[p].userProvidedId == s.passes[p].userProvidedId
          && s'.passes[p].template == s.passes[p].template)
    && (forall c :: c in s.calls ==>
          && c in s'.calls && s'.calls[c].attendee == s.calls[c].attendee
          && s'.calls[c].template == s.calls[c].template)
    && (forall a :: a in s'.attendees ==>
          a in s.attendees
          && (s'.attendees[a].Erased? ==> s'.attendees[a] == s.attendees[a] || s.now <= s'.attendees[a].committedAt))
    && (forall a :: Reserved(s, a) ==> Reserved(s', a))
  }

  lemma TapOkExtends(s: State, s': State, tap: Tap)
    requires TapOk(s, tap) && Extends(s, s')
    requires HoldsRow(tap.pc) ==> !Gone(s', tap.attendee)
    ensures TapOk(s', tap)
  {
    hide PassOf, CallOf, CheckedAt, PastReserve, HoldsRow;
  }

  lemma CallOkExtends(s: State, s': State, call: Call)
    requires CallOk(s, call) && Extends(s, s')
    ensures CallOk(s', call)
  {
  }

  lemma TapsExtend(s: State, s': State)
    requires TapsOk(s) && Extends(s, s') && s'.taps == s.taps
    requires forall t :: t in s.taps && HoldsRow(s.taps[t].pc) ==> !Gone(s', s.taps[t].attendee)
    ensures TapsOk(s')
  {
    hide TapOk, Extends, HoldsRow, Gone;
    forall t | t in s'.taps ensures TapOk(s', s'.taps[t]) { TapOkExtends(s, s', s.taps[t]); }
  }

  lemma CallsExtend(s: State, s': State)
    requires CallsOk(s) && Extends(s, s')
    requires forall c :: c in s'.calls ==> (c in s.calls && s'.calls[c] == s.calls[c]) || CallOk(s', s'.calls[c])
    ensures CallsOk(s')
  {
    hide CallOk, Extends;
    forall c | c in s'.calls ensures CallOk(s', s'.calls[c]) {
      if c in s.calls && s'.calls[c] == s.calls[c] { CallOkExtends(s, s', s.calls[c]); }
    }
  }

  // ---------------------------------------------------------------------------------------------- the counter of a tap

  /** Tap `t` may move to `next`: it starts to hold the attendee's row only when no erasure does, and becomes the
      creation of its attendee only when there is none. */
  ghost predicate CanMove(s: State, t: TapId, next: Pc)
    requires t in s.taps
  {
    var tap := s.taps[t];
    && TapOk(s, tap.(pc := next))
    && (HoldsRow(next) ==> HoldsRow(tap.pc) || RowLockFree(s, tap.attendee))
    && (InCreation(next) && !InCreation(tap.pc) ==> (tap.instance, tap.attendee) !in s.locks)
  }

  lemma MovedTaps(s: State, t: TapId, next: Pc)
    requires TapsOk(s) && t in s.taps && CanMove(s, t, next)
    ensures TapsOk(Moved(s, t, next))
  {
    hide PassOf, CallOf, CheckedAt, PastReserve, HoldsRow, InCreation, RowLockFree;
    var s' := Moved(s, t, next);
    forall u | u in s'.taps ensures TapOk(s', s'.taps[u]) { TapOkExtends(s, s', s'.taps[u]); }
  }

  lemma MovedLocks(s: State, t: TapId, next: Pc)
    requires LockOk(s) && t in s.taps && CanMove(s, t, next)
    ensures LockOk(Moved(s, t, next))
  {
    hide HoldsRow, InCreation, RowLockFree, TapOk;
  }

  lemma MovedErasures(s: State, t: TapId, next: Pc)
    requires ErasuresOk(s) && t in s.taps && CanMove(s, t, next)
    ensures ErasuresOk(Moved(s, t, next))
  {
    hide HoldsRow, InCreation, TapOk;
  }

  lemma MovedInv(s: State, t: TapId, next: Pc)
    requires Inv(s) && t in s.taps && CanMove(s, t, next)
    ensures Inv(Moved(s, t, next))
  {
    MovedTaps(s, t, next);
    MovedLocks(s, t, next);
    MovedErasures(s, t, next);
    hide TapOk, CallOk, LockOk, ErasuresOk, TapsOk, InCreation, HoldsRow;
    assert Extends(s, Moved(s, t, next));
    CallsExtend(s, Moved(s, t, next));
  }

  // ---------------------------------------------------------------------------------------------- the other writes

  /** A step that moves no counter: rows, passes and calls may change, time may pass. */
  lemma DataInv(s: State, s': State)
    requires Inv(s) && Extends(s, s')
    requires s'.taps == s.taps && s'.locks == s.locks && s'.erasures == s.erasures && s'.attendees == s.attendees
    requires forall c :: c in s'.calls ==> (c in s.calls && s'.calls[c] == s.calls[c]) || CallOk(s', s'.calls[c])
    requires PassesOk(s') && RowsOk(s')
    ensures Inv(s')
  {
    assert forall t :: t in s.taps ==> TapOk(s, s.taps[t]);
    TapsExtend(s, s');
    CallsExtend(s, s');
    hide TapOk, CallOk, TapsOk, CallsOk, Extends;
  }

  /** One row is written; the attendee exists, a reservation stays, an erased attendee gets no link and no device. */
  lemma RowInv(s: State, a: AttendeeId, row: Row)
    requires Inv(s) && a in s.attendees
    requires row.passId.Some? ==> row.passId.value in s.passes
    requires s.attendees[a].Erased? ==> row.links.None? && row.device.None?
    requires Reserved(s, a) ==> row.userProvidedId == Some(ReservedId(a))
    ensures Inv(s.(rows := s.rows[a := row])) && Extends(s, s.(rows := s.rows[a := row]))
  {
    hide TapOk, CallOk, TapsOk, CallsOk, LockOk, ErasuresOk;
    DataInv(s, s.(rows := s.rows[a := row]));
  }

  lemma DeleteInv(s: State, p: PassId)
    requires Inv(s)
    ensures Inv(s.(passes := DeleteAtProvider(s.passes, p)))
  {
    hide TapOk, CallOk, TapsOk, CallsOk, LockOk, ErasuresOk;
    assert Extends(s, s.(passes := DeleteAtProvider(s.passes, p)));
    DataInv(s, s.(passes := DeleteAtProvider(s.passes, p)));
  }

  /** What a tap writes keeps the data in order: a reservation stays, an erased attendee gets no link and no device, a
      call is sent in time. */
  ghost predicate WriteOk(s: State, a: AttendeeId, write: Write) {
    match write
    case PutRow(row) =>
      && a in s.attendees
      && (row.passId.Some? ==> row.passId.value in s.passes)
      && (s.attendees[a].Erased? ==> row.links.None? && row.device.None?)
      && (Reserved(s, a) ==> row.userProvidedId == Some(ReservedId(a)))
    case SendCall(c, call) => c !in s.calls && CallOk(s, call)
    case _ => true
  }

  lemma WrittenInv(s: State, t: TapId, write: Write)
    requires Inv(s) && t in s.taps && WriteOk(s, s.taps[t].attendee, write)
    ensures Inv(Written(s, t, write)) && Extends(s, Written(s, t, write))
  {
    hide TapOk, TapsOk, CallsOk, LockOk, ErasuresOk;
    assert Extends(s, Written(s, t, write)) by { hide CallOk; }
    if write.SendCall? { CallOkExtends(s, Written(s, t, write), write.call); }
    DataInv(s, Written(s, t, write));
  }

  // ---------------------------------------------------------------------------------------------- every step of a tap

  ghost predicate EffectOk(s: State, t: TapId, e: Effect)
    requires t in s.taps
  {
    WriteOk(s, s.taps[t].attendee, e.write) && CanMove(Written(s, t, e.write), t, e.next)
  }

  lemma PerformInv(s: State, t: TapId, e: Effect)
    requires Inv(s) && t in s.taps && EffectOk(s, t, e)
    ensures Inv(Perform(s, t, e))
  {
    hide Inv, WriteOk, CanMove;
    WrittenInv(s, t, e.write);
    MovedInv(Written(s, t, e.write), t, e.next);
  }

  lemma TapFacts(s: State, t: TapId)
    requires Inv(s) && t in s.taps
    ensures TapOk(s, s.taps[t])
    ensures s.taps[t].attendee in s.rows ==> RowOk(s, s.taps[t].attendee)
  {
  }

  lemma CallFacts(s: State, c: CallId)
    requires Inv(s) && c in s.calls
    ensures CallOk(s, s.calls[c])
  {
  }

  /** A tap that has nothing in hand: before its reservation, or after its creation. */
  predicate EmptyHanded(pc: Pc) {
    pc.Joining? || pc.Waiting? || (pc.Leading? && !pc.lead.ReserveClock?) || pc.Settled? || pc.Done?
  }

  lemma EntryMoves(s: State, tap: Tap, act: EntryAct)
    requires EntryEffect(s, tap, act).Some?
    ensures var e := EntryEffect(s, tap, act).value;
            && e.write.Nothing? && EmptyHanded(e.next)
            && (InCreation(e.next) && !InCreation(tap.pc) ==> (tap.instance, tap.attendee) !in s.locks)
  {
    hide PassUnavailable, RowLockFree, Gone, LinksOrNone;
  }

  lemma EntryOk(s: State, t: TapId, act: EntryAct)
    requires Inv(s) && t in s.taps && EntryEffect(s, s.taps[t], act).Some?
    ensures EffectOk(s, t, EntryEffect(s, s.taps[t], act).value)
  {
    hide Inv, EntryEffect, InCreation;
    TapFacts(s, t);
    EntryMoves(s, s.taps[t], act);
  }

  lemma ReserveOk(s: State, t: TapId, act: ReserveAct)
    requires Inv(s) && t in s.taps && ReserveEffect(s, s.taps[t], act).Some?
    ensures EffectOk(s, t, ReserveEffect(s, s.taps[t], act).value)
  {
    hide Inv;
    TapFacts(s, t);
  }

  lemma SendOk(s: State, t: TapId, act: SendAct)
    requires Inv(s) && t in s.taps && s.taps[t].event.template.Some? && SendEffect(s, t, s.taps[t], act).Some?
    ensures EffectOk(s, t, SendEffect(s, t, s.taps[t], act).value)
  {
    hide Inv, RowLockFree;
    TapFacts(s, t);
    if act.SendCreate? || act.SendUpdate? {
      SendCallOk(s, t, act);
    } else {
      hide CallOk, RowOk;
      if act.TakeReply? { ReplyFacts(s, t, s.taps[t].pc.send.call); }
    }
  }

  /** A call leaves for the provider, and its tap waits for it. */
  lemma SendCallOk(s: State, t: TapId, act: SendAct)
    requires Inv(s) && t in s.taps && s.taps[t].event.template.Some? && SendEffect(s, t, s.taps[t], act).Some?
    requires act.SendCreate? || act.SendUpdate?
    ensures EffectOk(s, t, SendEffect(s, t, s.taps[t], act).value)
  {
    hide Inv, RowLockFree;
    TapFacts(s, t);
  }

  lemma ReplyFacts(s: State, t: TapId, c: CallId)
    requires Inv(s) && t in s.taps && CallOf(s.taps[t].pc) == Some(c) && c in s.calls && s.calls[c].reply.Some?
    requires s.taps[t].event.template.Some?
    ensures s.calls[c].reply.value.Result? ==>
              MadeFor(s, s.calls[c].reply.value.pass, s.taps[t].attendee, s.taps[t].event.template.value)
  {
    hide Inv;
    TapFacts(s, t);
    CallFacts(s, c);
  }

  lemma SaveOk(s: State, t: TapId, act: SaveAct)
    requires Inv(s) && t in s.taps && SaveEffect(s, s.taps[t], act).Some?
    ensures EffectOk(s, t, SaveEffect(s, s.taps[t], act).value)
  {
    hide Inv, AdvisoryFree;
    TapFacts(s, t);
  }

  lemma OrphanOk(s: State, t: TapId, act: OrphanAct)
    requires Inv(s) && t in s.taps && OrphanEffect(s, s.taps[t], act).Some?
    ensures EffectOk(s, t, OrphanEffect(s, s.taps[t], act).value)
  {
    hide Inv, OrphanEffect, InCreation;
    TapFacts(s, t);
    OrphanWrites(s, t, act);
    OrphanMoves(s, s.taps[t], act);
    hide WriteOk;
  }

  /** The tap keeps its pass in hand until its creation settles. */
  lemma OrphanMoves(s: State, tap: Tap, act: OrphanAct)
    requires OrphanEffect(s, tap, act).Some?
    ensures var e := OrphanEffect(s, tap, act).value;
            && tap.pc.Orphaned? && InCreation(tap.pc) && !e.write.SendCall?
            && ((e.next.Orphaned? && e.next.pass == tap.pc.pass) || e.next.Settled?)
  {
    hide OrphanRow, CredentialsChanged;
  }

  lemma OrphanWrites(s: State, t: TapId, act: OrphanAct)
    requires t in s.taps && TapOk(s, s.taps[t]) && OrphanEffect(s, s.taps[t], act).Some?
    requires s.taps[t].attendee in s.rows ==> RowOk(s, s.taps[t].attendee)
    ensures WriteOk(s, s.taps[t].attendee, OrphanEffect(s, s.taps[t], act).value.write)
  {
    hide HoldsRow, CredentialsChanged;
  }

  lemma DropOk(s: State, t: TapId, act: DropAct)
    requires Inv(s) && t in s.taps && DropEffect(s, s.taps[t], act).Some?
    ensures EffectOk(s, t, DropEffect(s, s.taps[t], act).value)
  {
    hide Inv, RowLockFree;
    TapFacts(s, t);
  }

  lemma FailOk(s: State, t: TapId, act: FailAct)
    requires Inv(s) && t in s.taps && FailEffect(s, s.taps[t], act).Some?
    ensures EffectOk(s, t, FailEffect(s, s.taps[t], act).value)
  {
    hide Inv;
    TapFacts(s, t);
  }

  lemma FinalOk(s: State, t: TapId, act: FinalAct)
    requires Inv(s) && t in s.taps && FinalEffect(s, t, s.taps[t], act).Some?
    ensures EffectOk(s, t, FinalEffect(s, t, s.taps[t], act).value)
  {
    hide Inv;
    TapFacts(s, t);
  }

  lemma TapInv(s: State, t: TapId, act: Act)
    requires Inv(s) && t in s.taps && s.taps[t].event.template.Some? && TapEffect(s, t, act).Some?
    ensures Inv(Perform(s, t, TapEffect(s, t, act).value))
  {
    hide Inv, EffectOk, EntryEffect, ReserveEffect, SendEffect, SaveEffect, OrphanEffect, DropEffect, FailEffect,
        FinalEffect;
    match act {
      case Entry(e) => EntryOk(s, t, e);
      case Reserve(r) => ReserveOk(s, t, r);
      case Send(e) => SendOk(s, t, e);
      case Save(e) => SaveOk(s, t, e);
      case Orphan(o) => OrphanOk(s, t, o);
      case Drop(d) => DropOk(s, t, d);
      case Fail(f) => FailOk(s, t, f);
      case Final(f) => FinalOk(s, t, f);
    }
    PerformInv(s, t, TapEffect(s, t, act).value);
  }

  // ---------------------------------------------------------------------------------------------- every other step

  /** Counters of other taps are as they were; a tap that is new, or dead, has nothing in hand. */
  ghost predicate Idles(s: State, s': State) {
    && s' == s.(taps := s'.taps, locks := s'.locks)
    && (forall t :: t in s'.taps ==>
          (t in s.taps && s'.taps[t] == s.taps[t])
          || (s'.taps[t].event.template.Some? && (s'.taps[t].pc.Looking? || s'.taps[t].pc.Dead?)))
  }

  lemma IdlesTaps(s: State, s': State)
    requires TapsOk(s) && Idles(s, s')
    ensures TapsOk(s')
  {
    forall t | t in s'.taps ensures TapOk(s', s'.taps[t]) {
      if t in s.taps && s'.taps[t] == s.taps[t] { TapOkExtends(s, s', s.taps[t]); }
    }
  }

  lemma IdlesInv(s: State, s': State)
    requires Inv(s) && Idles(s, s') && LockOk(s')
    ensures Inv(s')
  {
    hide TapOk, CallOk, LockOk;
    IdlesTaps(s, s');
    assert Extends(s, s');
    CallsExtend(s, s');
    hide Extends, TapsOk, CallsOk;
  }

  lemma ArriveInv(s: State, t: TapId, tap: Tap)
    requires Inv(s) && t !in s.taps && tap.pc.Looking? && tap.event.template.Some?
    ensures Inv(s.(taps := s.taps[t := tap]))
  {
    hide TapsOk, CallsOk, PassesOk, RowsOk, PeopleOk, ErasuresOk;
    IdlesInv(s, s.(taps := s.taps[t := tap]));
  }

  lemma CrashLocks(s: State, i: Instance)
    requires LockOk(s)
    ensures LockOk(ApplyWorld(s, Crash(i)).value)
  {
  }

  lemma CrashInv(s: State, i: Instance)
    requires Inv(s)
    ensures Inv(ApplyWorld(s, Crash(i)).value)
  {
    var s' := ApplyWorld(s, Crash(i)).value;
    CrashLocks(s, i);
    hide CallsOk, PassesOk, RowsOk, PeopleOk, ErasuresOk, LockOk;
    assert forall t :: t in s.taps ==> s.taps[t].event.template.Some? by {
      assert forall t :: t in s.taps ==> TapOk(s, s.taps[t]);
    }
    hide TapsOk;
    IdlesInv(s, s');
  }

  /** A pass appears or is updated at the provider, for an attendee whose reservation stands. */
  lemma PassInv(s: State, p: PassId, pass: Pass)
    requires Inv(s) && Reserved(s, pass.userProvidedId.attendee)
    requires p in s.passes ==>
               s.passes[p].userProvidedId == pass.userProvidedId && s.passes[p].template == pass.template
    ensures Inv(s.(passes := s.passes[p := pass]))
  {
    hide TapOk, CallOk, TapsOk, CallsOk, PeopleOk, LockOk, ErasuresOk;
    assert Extends(s, s.(passes := s.passes[p := pass]));
    DataInv(s, s.(passes := s.passes[p := pass]));
  }

  lemma ReplyInv(s: State, c: CallId, reply: Reply)
    requires Inv(s) && c in s.calls
    requires reply.Result? ==> MadeFor(s, reply.pass, s.calls[c].attendee, s.calls[c].template)
    ensures Inv(s.(calls := s.calls[c := s.calls[c].(reply := Some(reply))]))
  {
    hide TapOk, TapsOk, CallsOk, PeopleOk, LockOk, ErasuresOk;
    CallFacts(s, c);
    var s' := s.(calls := s.calls[c := s.calls[c].(reply := Some(reply))]);
    assert Extends(s, s') by { hide CallOk; }
    DataInv(s, s');
  }

  lemma LandInv(s: State, c: CallId, p: PassId)
    requires Inv(s) && ApplyWorld(s, Land(c, p)).Some?
    ensures Inv(ApplyWorld(s, Land(c, p)).value)
  {
    hide Inv;
    CallFacts(s, c);
    var call := s.calls[c];
    var pass := if call.kind.CreatePass? then Pass(ReservedId(call.attendee), call.template, call.expiration, true)
                else s.passes[p].(expiration := call.expiration);
    PassInv(s, p, pass);
    ReplyInv(s.(passes := s.passes[p := pass]), c, Result(p));
  }

  lemma WorldInv(s: State, act: WorldAct)
    requires Inv(s) && ApplyWorld(s, act).Some?
    ensures Inv(ApplyWorld(s, act).value)
  {
    hide TapOk, LockOk, ErasuresOk, RowLockFree, TapsOk, CallsOk;
    var s' := ApplyWorld(s, act).value;
    match act
    case Arrive(t, i, a) => ArriveInv(s, t, Tap(i, a, s.event, Looking, None));
    case Crash(i) => CrashInv(s, i);
    case Land(c, p) => LandInv(s, c, p);
    case Tick(_) =>
      assert Extends(s, s');
      DataInv(s, s');
    case Refuse(c, duplicate) => ReplyInv(s, c, if duplicate then Duplicate else Rejected);
  }

  /** The erasures in progress change, nothing else. */
  lemma ErasuresInv(s: State, s': State)
    requires Inv(s) && s' == s.(erasures := s'.erasures) && ErasuresOk(s')
    ensures Inv(s')
  {
    assert Extends(s, s');
    assert forall t :: t in s.taps ==> TapOk(s, s.taps[t]);
    TapsExtend(s, s');
    CallsExtend(s, s');
    hide TapOk, CallOk, TapsOk, CallsOk, Extends;
  }

  /** The erasure commits: nobody holds the row it has locked. */
  lemma EraseCommitInv(s: State, e: ErasureId)
    requires Inv(s) && ApplyErasure(s, EraseCommit(e)).Some?
    ensures Inv(ApplyErasure(s, EraseCommit(e)).value)
  {
    hide CallOk, LockOk, PersonOk;
    var s' := ApplyErasure(s, EraseCommit(e)).value;
    assert ErasureOk(s, s.erasures[e]);
    assert Extends(s, s') by { hide TapsOk, CallsOk, ErasuresOk, RowsOk, PassesOk; }
    EraseCommitTaps(s, e);
    CallsExtend(s, s');
    hide TapOk, TapsOk, CallsOk;
    EraseCommitPeople(s, e);
  }

  lemma EraseCommitTaps(s: State, e: ErasureId)
    requires TapsOk(s) && ApplyErasure(s, EraseCommit(e)).Some? && ErasureOk(s, s.erasures[e])
    requires Extends(s, ApplyErasure(s, EraseCommit(e)).value)
    ensures TapsOk(ApplyErasure(s, EraseCommit(e)).value)
  {
    hide Extends, HoldsRow;
    assert forall t :: t in s.taps ==> TapOk(s, s.taps[t]);
    TapsExtend(s, ApplyErasure(s, EraseCommit(e)).value);
  }

  lemma EraseCommitPeople(s: State, e: ErasureId)
    requires Inv(s) && ApplyErasure(s, EraseCommit(e)).Some?
    ensures PeopleOk(ApplyErasure(s, EraseCommit(e)).value)
    ensures ErasuresOk(ApplyErasure(s, EraseCommit(e)).value)
    ensures LockOk(ApplyErasure(s, EraseCommit(e)).value)
  {
    hide TapsOk, CallsOk, RowsOk, PassesOk, HoldsRow;
    assert ErasureOk(s, s.erasures[e]);
  }

  lemma RemoveInv(s: State, a: AttendeeId)
    requires Inv(s) && ApplyErasure(s, Remove(a)).Some?
    ensures Inv(ApplyErasure(s, Remove(a)).value)
  {
    hide CallOk, CallsOk;
    var s' := ApplyErasure(s, Remove(a)).value;
    assert Extends(s, s') by { hide TapsOk, ErasuresOk, RowsOk, PassesOk, HoldsRow; }
    RemoveTaps(s, a);
    CallsExtend(s, s');
    assert PassesOk(s');
    hide TapOk, TapsOk, Extends, HoldsRow;
    assert ErasuresOk(s') && RowsOk(s') && PeopleOk(s');
  }

  lemma RemoveTaps(s: State, a: AttendeeId)
    requires TapsOk(s) && ApplyErasure(s, Remove(a)).Some? && Extends(s, ApplyErasure(s, Remove(a)).value)
    ensures TapsOk(ApplyErasure(s, Remove(a)).value)
  {
    hide Extends, HoldsRow;
    assert forall t :: t in s.taps ==> TapOk(s, s.taps[t]);
    TapsExtend(s, ApplyErasure(s, Remove(a)).value);
  }

  lemma ErasureInv(s: State, act: ErasureAct)
    requires Inv(s) && ApplyErasure(s, act).Some?
    ensures Inv(ApplyErasure(s, act).value)
  {
    match act
    case EraseBegin(_, _) => BookkeepingInv(s, act);
    case EraseLock(_) => BookkeepingInv(s, act);
    case EraseAbort(_) => BookkeepingInv(s, act);
    case EraseCommit(e) => hide Inv, ApplyErasure; EraseCommitInv(s, e);
    case Remove(a) => hide Inv, ApplyErasure; RemoveInv(s, a);
    case FollowUpDelete(_, p) => hide Inv; DeleteInv(s, p);
    case FollowUpSettle(_, _, _) => hide Inv, ApplyErasure; SettleInv(s, act);
  }

  lemma BookkeepingInv(s: State, act: ErasureAct)
    requires Inv(s) && (act.EraseBegin? || act.EraseLock? || act.EraseAbort?) && ApplyErasure(s, act).Some?
    ensures Inv(ApplyErasure(s, act).value)
  {
    var s' := ApplyErasure(s, act).value;
    assert ErasuresOk(s') by { hide TapsOk, CallsOk, PassesOk, RowsOk, PeopleOk, LockOk, HoldsRow; }
    hide Inv, ErasuresOk, Gone, RowLockFree, NoShareHolder;
    ErasuresInv(s, s');
  }

  lemma SettleInv(s: State, act: ErasureAct)
    requires Inv(s) && act.FollowUpSettle? && ApplyErasure(s, act).Some?
    ensures Inv(ApplyErasure(s, act).value)
  {
    var a := act.attendee;
    assert RowOk(s, a) by { hide TapsOk, CallsOk, PassesOk, PeopleOk, ErasuresOk, LockOk; }
    hide Inv;
    RowInv(s, a, s.rows[a].(removed := true));
  }

  /** How far a save has come: it locks when the lock is free, and counts while it holds it. */
  ghost predicate PatchStepOk(s: State, s': State, k: PatchId)
    requires k in s'.patches
  {
    || (k in s.patches && s'.patches[k] == s.patches[k])
    || s'.patches[k].phase.Begun?
    || (s'.patches[k].phase.Locked? && AdvisoryFree(s))
    || (s'.patches[k].phase.Counted? && k in s.patches && s.patches[k].phase.Locked? && !AnyIssued(s))
  }

  /** A settings save changes the event, when it writes, and the saves in progress, and nothing else. */
  ghost predicate SettingsStep(s: State, s': State, writes: bool) {
    && s' == s.(event := s'.event, patches := s'.patches)
    && (!writes ==> s'.event == s.event)
    && (forall k :: k in s'.patches ==> PatchStepOk(s, s', k))
  }

  lemma SaveBegins(s: State, k: PatchId, fields: Patch)
    requires ApplySettings(s, PatchBegin(k, fields)).Some?
    ensures SettingsStep(s, ApplySettings(s, PatchBegin(k, fields)).value, false)
  {
    hide Guarded, AdvisoryFree, AnyIssued, Patched;
  }

  lemma SaveLocks(s: State, k: PatchId)
    requires ApplySettings(s, PatchLock(k)).Some?
    ensures SettingsStep(s, ApplySettings(s, PatchLock(k)).value, false)
  {
    hide Guarded, AdvisoryFree, AnyIssued, Patched;
  }

  /** The saves in progress after a count: the save is refused, or it has counted. */
  lemma CountIs(s: State, k: PatchId)
    requires ApplySettings(s, PatchCount(k)).Some?
    ensures k in s.patches && s.patches[k].phase.Locked?
    ensures ApplySettings(s, PatchCount(k))
            == Some(s.(patches := if AnyIssued(s) then s.patches - {k}
                       else s.patches[k := s.patches[k].(phase := Counted)]))
  {
    hide AnyIssued;
  }

  lemma SaveCounts(s: State, k: PatchId)
    requires ApplySettings(s, PatchCount(k)).Some?
    ensures SettingsStep(s, ApplySettings(s, PatchCount(k)).value, false)
  {
    hide ApplySettings, AdvisoryFree, AnyIssued;
    CountIs(s, k);
  }

  lemma SaveCommits(s: State, k: PatchId)
    requires ApplySettings(s, PatchCommit(k)).Some?
    ensures SettingsStep(s, ApplySettings(s, PatchCommit(k)).value, true)
  {
    hide Guarded, AdvisoryFree, AnyIssued, Patched;
  }

  lemma SaveAborts(s: State, k: PatchId)
    requires ApplySettings(s, PatchAbort(k)).Some?
    ensures SettingsStep(s, ApplySettings(s, PatchAbort(k)).value, false)
  {
    hide Guarded, AdvisoryFree, AnyIssued, Patched;
  }

  lemma SettingsFrame(s: State, act: PatchAct)
    requires ApplySettings(s, act).Some?
    ensures var s' := ApplySettings(s, act).value;
            && s' == s.(event := s'.event, patches := s'.patches)
            && (!act.PatchCommit? ==> s'.event == s.event)
            && (forall k :: k in s'.patches ==> PatchStepOk(s, s', k))
  {
    hide ApplySettings, PatchStepOk;
    match act
    case PatchBegin(k, fields) => SaveBegins(s, k, fields);
    case PatchLock(k) => SaveLocks(s, k);
    case PatchCount(k) => SaveCounts(s, k);
    case PatchCommit(k) => SaveCommits(s, k);
    case PatchAbort(k) => SaveAborts(s, k);
  }

  lemma SettingsInv(s: State, act: PatchAct)
    requires Inv(s) && ApplySettings(s, act).Some?
    ensures Inv(ApplySettings(s, act).value)
  {
    hide Inv, ApplySettings, PatchStepOk;
    SettingsFrame(s, act);
    EventInv(s, ApplySettings(s, act).value.event, ApplySettings(s, act).value.patches);
  }

  lemma EventInv(s: State, event: Event, patches: map<PatchId, PatchTx>)
    requires Inv(s)
    ensures Inv(s.(event := event, patches := patches))
  {
    hide TapOk, CallOk, LockOk, ErasuresOk, TapsOk, CallsOk;
    assert Extends(s, s.(event := event, patches := patches));
    DataInv(s, s.(event := event, patches := patches));
  }

  lemma StaffInv(s: State, act: StaffAct)
    requires Inv(s) && ApplyStaff(s, act).Some?
    ensures Inv(ApplyStaff(s, act).value)
  {
    hide TapOk, CallOk, LockOk, ErasuresOk, TapsOk, CallsOk, RowLockFree;
    assert RowOk(s, act.attendee);
    var row := ApplyStaff(s, act).value.rows[act.attendee];
    if act.RemoveAtProvider? {
      var p := s.rows[act.attendee].passId.value;
      DeleteInv(s, p);
      RowInv(s.(passes := DeleteAtProvider(s.passes, p)), act.attendee, row);
    } else {
      RowInv(s, act.attendee, row);
    }
  }

  lemma StepInv(s: State, step: Step)
    requires Inv(s) && Apply(s, step).Some?
    ensures Inv(Apply(s, step).value)
  {
    hide Inv, TapEffect, Perform, ApplyWorld, ApplyErasure, ApplySettings, ApplyStaff;
    match step
    case TapStep(t, act) => TapInv(s, t, act);
    case WorldStep(act) => WorldInv(s, act);
    case ErasureStep(act) => ErasureInv(s, act);
    case PatchStep(act) => SettingsInv(s, act);
    case StaffStep(act) => StaffInv(s, act);
  }

  /** The invariant holds after every run. */
  lemma {:induction false} RunInv(s: State, run: seq<Step>)
    requires Inv(s) && Exec(s, run).Some?
    ensures Inv(Exec(s, run).value)
    decreases run
  {
    hide Inv, Apply;
    if run != [] {
      StepInv(s, run[0]);
      RunInv(Apply(s, run[0]).value, run[1..]);
    }
  }

  /** In every run, when a save is written: the tap holds the attendee's row and the event's lock, no erasure holds the
      row, the attendee is there, the pass was made for them under the template the request read, and the row now names
      it. */
  lemma {:induction false} SavedUnderLocks(s0: State, run: seq<Step>, t: TapId, replyLost: bool)
    requires Inv(s0) && Exec(s0, run).Some?
    requires Apply(Exec(s0, run).value, TapStep(t, Save(CommitActive(replyLost)))).Some?
    ensures var s := Exec(s0, run).value; var tap := s.taps[t];
            var s' := Apply(s, TapStep(t, Save(CommitActive(replyLost)))).value;
            && HoldsRow(tap.pc) && HoldsAdvisory(tap.pc) && RowLockFree(s, tap.attendee) && !Gone(s, tap.attendee)
            && tap.event.template.Some? && MadeFor(s, tap.pc.pass, tap.attendee, tap.event.template.value)
            && s'.rows == s.rows[tap.attendee := s'.rows[tap.attendee]] && tap.attendee in s'.rows
            && var row := s'.rows[tap.attendee];
               row.status.Active? && row.issued && row.passId == Some(tap.pc.pass) && row.links == Some(tap.pc.pass)
               && row.userProvidedId == Some(ReservedId(tap.attendee)) && row.expiresAt == tap.pc.save.ends
  {
    RunInv(s0, run);
    var s := Exec(s0, run).value;
    hide Exec, Inv, InCreation;
    TapFacts(s, t);
    NobodyErases(s, t);
  }

  /** A row that is held is held by no erasure. */
  lemma NobodyErases(s: State, t: TapId)
    requires Inv(s) && t in s.taps && HoldsRow(s.taps[t].pc)
    ensures RowLockFree(s, s.taps[t].attendee)
  {
    hide TapsOk, CallsOk, PassesOk, RowsOk, PeopleOk, LockOk, HoldsRow;
    assert forall e :: e in s.erasures ==> ErasureOk(s, s.erasures[e]);
  }
}
