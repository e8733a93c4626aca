/** The on-demand wallet pass protocol of one event, as a transition system. A tap on "Add to Wallet" is a process with
    a program counter. Between two steps of a tap anything may happen: other taps on this or another app instance, an
    erasure or a removal of the attendee, a settings save, staff actions on the pass, a crash of an instance, an answer
    of the provider, time passing. What the source runs without an await between (a test and the set that follows it) is
    one step; everything else, and in particular a check and the write that relies on it, are separate steps. A database
    transaction is a run of steps that starts by taking a lock and ends in a commit or an abort. The locks a transaction
    holds are read off the program counter, because the database frees them when the transaction ends, however it
    ends. */
module WalletModel {
  import opened Options

  type AttendeeId = nat
  type Instance = nat
  type TapId = nat
  type PassId = nat
  type CallId = nat
  type ErasureId = nat
  type PatchId = nat
  type TemplateId = nat
  type KeyId = nat

  /** `createPass` and the reconciling `updatePass` send nothing later than this after the attendee was last checked. */
  const CREATE_PASS_DEADLINE_MS: nat := 120_000
  /** How long an erasure's own transaction may take; `erased_at` is the moment it started. */
  const ERASE_TRANSACTION_TIMEOUT_MS: nat := 60_000
  /** The age from which an erasure's follow-up takes "no pass under that id" for an answer. */
  const CREATION_SETTLE_WINDOW_MS: nat := 600_000

  /** The id a pass has at the provider before the provider has answered: a function of the attendee. */
  datatype ReservedId = ReservedId(attendee: AttendeeId)

  /** The event's local wall-clock end and the zone it is read in; the two together are the UTC instant. */
  datatype End = End(local: nat, zone: nat)

  /** `expires` is wallet_expiration_mode "event_end". */
  datatype Event = Event(template: Option<TemplateId>, key: Option<KeyId>, expires: bool, local: nat, zone: nat)

  /** The canonical expiry of a pass of this event (`eventEndsAtUtc`, or none). */
  function EventEnd(e: Event): Option<End> {
    if e.expires then Some(End(e.local, e.zone)) else None
  }

  /** The date string sent to the provider: local wall-clock digits, no zone. */
  function ExpirationDate(e: Event): Option<nat> {
    if e.expires then Some(e.local) else None
  }

  datatype Person = Live | Erased(erasedAt: nat, committedAt: nat)

  datatype Status = Pending | Active | Failed | Voided | Expired

  /** A WalletPass row. `links` names the pass its install links lead to, `issued` is issued_at being set, `removed` is
      provider_removed_at being set, `device` the tap whose
      user agent was captured. */
  datatype Row = Row(
    status: Status,
    passId: Option<PassId>,
    userProvidedId: Option<ReservedId>,
    links: Option<PassId>,
    issued: bool,
    expiresAt: Option<End>,
    device: Option<TapId>,
    confirmed: bool,
    removed: bool,
    leftBehind: Option<PassId>)

  /** A pass at the provider; `present` turns false when it is deleted there. */
  datatype Pass = Pass(userProvidedId: ReservedId, template: TemplateId, expiration: Option<nat>, present: bool)

  datatype CallKind = CreatePass | UpdatePass(pass: PassId)

  datatype Reply = Result(pass: PassId) | Duplicate | Rejected

  /** A request that has left this client for the provider. `reply` is set once it has taken effect there, which can be
      after the client gave up on it. */
  datatype Call = Call(
    sender: TapId,
    attendee: AttendeeId,
    kind: CallKind,
    template: TemplateId,
    expiration: Option<nat>,
    checkedAt: nat,
    sentAt: nat,
    reply: Option<Reply>)

  datatype Outcome = Links(pass: PassId) | Unavailable | NoPass

  datatype Answer = TicketPage | TryAgain | ToPass(pass: PassId)

  /** The stages before the reservation is written: re-read the row, read the attendee, take the row lock, read the
      clock. */
  datatype LeadStage = Recheck | StillThere | ReserveLock | ReserveClock

  /** The stages of the conversation with the provider. */
  datatype SendStage = Create | Creating(call: CallId) | Find | Update(pass: PassId) | Updating(call: CallId)

  /** The stages of `markActive`: row lock, advisory lock, check, write; and the question asked after it failed. */
  datatype SaveStage = Lock | Advisory | Check | Write(ends: Option<End>) | GoneNow

  /** The stages of `deleteOrphanPassOfGoneAttendee`. */
  datatype OrphanStage = Insert | Fill | Delete | Credentials | Remember

  /** The stages of `dropPassMadeUnderChangedCredentials`. */
  datatype DropStage = DropDelete | DropRemember

  /** The stages of `checkAndCaptureDevice`. */
  datatype FinalStage = FinalLock | FinalWrite | FinalAgain

  /** Where a tap is: the stage names the step that comes next. */
  datatype Pc =
    | Looking
    | Joining
    | Waiting(leader: TapId)
    | Leading(lead: LeadStage)
    | Reserving(checkedAt: nat)
    | Sending(send: SendStage, checkedAt: nat)
    | Saving(save: SaveStage, pass: PassId)
    | Orphaned(orphan: OrphanStage, pass: PassId)
    | Dropping(drop: DropStage, pass: PassId)
    | Failing(locked: bool)
    | Settled(outcome: Outcome)
    | Finishing(final: FinalStage, pass: PassId)
    | Done(answer: Answer)
    | Dead(at: Pc)

  /** One request. `event` is the snapshot it read at its start, `settled` what its creation promise resolved to. */
  datatype Tap = Tap(instance: Instance, attendee: AttendeeId, event: Event, pc: Pc, settled: Option<Outcome>)

  datatype Erasure = Erasure(attendee: AttendeeId, startedAt: nat, locked: bool)

  /** A settings save: a field is None when the request leaves it alone. */
  datatype Patch = Patch(
    template: Option<Option<TemplateId>>,
    key: Option<Option<KeyId>>,
    expires: Option<bool>,
    local: Option<nat>,
    zone: Option<nat>)

  datatype PatchPhase = Begun | Locked | Counted

  /** A settings save in progress. `existing` is the row it read before its transaction began. */
  datatype PatchTx = PatchTx(patch: Patch, existing: Event, phase: PatchPhase)

  /** `replaced` remembers which tap judged a pass to be made under credentials the event no longer has, `log` the pass
      ids written to stdout because no row could take them. `latency` bounds how long a request that was sent can take
      to have its effect at the provider. */
  datatype State = State(
    now: nat,
    latency: nat,
    event: Event,
    attendees: map<AttendeeId, Person>,
    rows: map<AttendeeId, Row>,
    passes: map<PassId, Pass>,
    calls: map<CallId, Call>,
    taps: map<TapId, Tap>,
    locks: map<(Instance, AttendeeId), TapId>,
    erasures: map<ErasureId, Erasure>,
    patches: map<PatchId, PatchTx>,
    replaced: map<PassId, TapId>,
    log: set<PassId>)

  // ---------------------------------------------------------------------------------------------- locks

  /** In a transaction that holds the attendee's row `FOR KEY SHARE`. */
  predicate HoldsRow(pc: Pc) {
    match pc
    case Leading(lead) => lead.ReserveClock?
    case Reserving(_) => true
    case Saving(save, _) => save.Advisory? || save.Check? || save.Write?
    case Failing(locked) => locked
    case Finishing(final, _) => final.FinalWrite?
    case _ => false
  }

  /** In a transaction that holds the event's wallet template lock. */
  predicate HoldsAdvisory(pc: Pc) {
    pc.Saving? && (pc.save.Check? || pc.save.Write?)
  }

  /** Between becoming the one creation of its attendee on its instance and the end of that creation. */
  predicate InCreation(pc: Pc) {
    pc.Leading? || pc.Reserving? || pc.Sending? || pc.Saving? || pc.Orphaned? || pc.Dropping? || pc.Failing?
  }

  predicate RowLockFree(s: State, a: AttendeeId) {
    forall e :: e in s.erasures && s.erasures[e].locked ==> s.erasures[e].attendee != a
  }

  predicate NoShareHolder(s: State, a: AttendeeId) {
    forall t :: t in s.taps && HoldsRow(s.taps[t].pc) ==> s.taps[t].attendee != a
  }

  predicate AdvisoryFree(s: State) {
    && (forall t :: t in s.taps ==> !HoldsAdvisory(s.taps[t].pc))
    && (forall k :: k in s.patches ==> s.patches[k].phase.Begun?)
  }

  /** `isAttendeeGone` of what the locked read finds: erased, or no row at all. */
  predicate Gone(s: State, a: AttendeeId) {
    a !in s.attendees || s.attendees[a].Erased?
  }

  /** `isWalletPassUnavailable`. */
  predicate PassUnavailable(s: State, a: AttendeeId) {
    a in s.rows && (s.rows[a].removed || s.rows[a].status.Voided? || s.rows[a].status.Expired?)
  }

  // ---------------------------------------------------------------------------------------------- steps of a tap

  datatype EntryAct = LookUp | LookUpFails | JoinOrLead | Joined | RecheckRow(closed: bool) | CheckThere | ReadFails

  datatype ReserveAct = LockToReserve | ReadClock | CommitReserve(replyLost: bool) | AbortReserve

  datatype SendAct =
    | SendCreate(call: CallId)
    | SendUpdate(call: CallId)
    | DropSend
    | TakeReply
    | TimeOut
    | Search(found: Option<PassId>)

  datatype SaveAct =
    | LockToSave
    | LockTemplate
    | CheckEvent
    | CommitActive(replyLost: bool)
    | AbortActive
    | AskGone(failed: bool)

  datatype OrphanAct =
    | InsertRow
    | FillRow
    | RowFails
    | DeleteOrphan(applied: bool, confirmed: bool)
    | ReadCredentials(failed: bool)
    | RememberOrphan(failed: bool)

  datatype DropAct = DeleteDropped(applied: bool, confirmed: bool) | RememberDropped(failed: bool)

  datatype FailAct = LockToFail | CommitFailed | AbortFailed

  datatype FinalAct =
    | Proceed(hasUrl: bool)
    | LockToFinish
    | CommitDevice(replyLost: bool)
    | AbortFinish
    | CheckAgain(failed: bool)

  /** What a step writes outside its own tap: at most one thing. */
  datatype Write =
    | Nothing
    | PutRow(row: Row)
    | SendCall(id: CallId, call: Call)
    | DeletePass(pass: PassId)
    | Judge(pass: PassId)
    | LogPass(pass: PassId)

  /** A step of a tap: the counter it moves to, and what it writes. */
  datatype Effect = Effect(next: Pc, write: Write)

  function Goto(pc: Pc): Option<Effect> {
    Some(Effect(pc, Nothing))
  }

  function LinksOrNone(row: Row): Outcome {
    if row.links.Some? then Links(row.links.value) else NoPass
  }

  /** The reads before a creation, and the in-process lock. */
  function EntryEffect(s: State, tap: Tap, act: EntryAct): Option<Effect> {
    var a := tap.attendee;
    match act
    case LookUp =>
      if !tap.pc.Looking? then None
      else if PassUnavailable(s, a) then Goto(Done(TicketPage))
      else if a in s.rows && s.rows[a].status.Active? then Goto(Settled(LinksOrNone(s.rows[a])))
      else Goto(Joining)
    case LookUpFails => if tap.pc.Looking? then Goto(Done(TryAgain)) else None
    case JoinOrLead =>
      if !tap.pc.Joining? then None
      else if (tap.instance, a) in s.locks then Goto(Waiting(s.locks[(tap.instance, a)]))
      else Goto(Leading(Recheck))
    case Joined =>
      if tap.pc.Waiting? && tap.pc.leader in s.taps && s.taps[tap.pc.leader].settled.Some?
      then Goto(Settled(s.taps[tap.pc.leader].settled.value)) else None
    case RecheckRow(closed) =>
      if tap.pc != Leading(Recheck) then None
      else if PassUnavailable(s, a) || closed then Goto(Settled(Unavailable))
      else if a in s.rows && s.rows[a].status.Active? then Goto(Settled(LinksOrNone(s.rows[a])))
      else Goto(Leading(StillThere))
    case CheckThere =>
      if tap.pc != Leading(StillThere) then None
      else Goto(if Gone(s, a) then Settled(Unavailable) else Leading(ReserveLock))
    case ReadFails =>
      if tap.pc == Leading(Recheck) || tap.pc == Leading(StillThere) then Goto(Settled(NoPass)) else None
  }

  /** The row as `reservePassId` leaves it. */
  function ReservedRow(s: State, a: AttendeeId): Row {
    if a in s.rows then s.rows[a].(userProvidedId := Some(ReservedId(a)))
    else Row(Pending, None, Some(ReservedId(a)), None, false, None, None, false, false, None)
  }

  /** The write-ahead reservation, one transaction under the attendee's row lock. */
  function ReserveEffect(s: State, tap: Tap, act: ReserveAct): Option<Effect> {
    var a := tap.attendee;
    match act
    case LockToReserve =>
      if !(tap.pc == Leading(ReserveLock) && RowLockFree(s, a)) then None
      else Goto(if Gone(s, a) then Settled(Unavailable) else Leading(ReserveClock))
    case ReadClock => if tap.pc == Leading(ReserveClock) then Goto(Reserving(s.now)) else None
    case CommitReserve(replyLost) =>
      if !tap.pc.Reserving? then None
      else Some(Effect(if replyLost then Settled(NoPass) else Sending(Create, tap.pc.checkedAt),
                       PutRow(ReservedRow(s, a))))
    case AbortReserve =>
      if tap.pc == Leading(ReserveLock) || tap.pc == Leading(ReserveClock) || tap.pc.Reserving?
      then Goto(Settled(NoPass)) else None
  }

  function NewCall(s: State, t: TapId, tap: Tap, kind: CallKind, checkedAt: nat): Call
    requires tap.event.template.Some?
  {
    Call(t, tap.attendee, kind, tap.event.template.value, ExpirationDate(tap.event), checkedAt, s.now, None)
  }

  /** The calls to the provider: creation, and after a duplicate rejection the search and the reconciling update.
      Nothing is sent at or after the deadline, which counts from the check under the row lock. */
  function SendEffect(s: State, t: TapId, tap: Tap, act: SendAct): Option<Effect>
    requires tap.event.template.Some?
  {
    if !tap.pc.Sending? then None
    else
      var k := tap.pc.checkedAt;
      var send := tap.pc.send;
      match act
      case SendCreate(c) =>
        if send.Create? && c !in s.calls && s.now < k + CREATE_PASS_DEADLINE_MS
        then Some(Effect(Sending(Creating(c), k), SendCall(c, NewCall(s, t, tap, CreatePass, k)))) else None
      case SendUpdate(c) =>
        if send.Update? && c !in s.calls && s.now < k + CREATE_PASS_DEADLINE_MS
        then Some(Effect(Sending(Updating(c), k), SendCall(c, NewCall(s, t, tap, UpdatePass(send.pass), k)))) else None
      case DropSend => if send.Create? || send.Update? then Goto(Failing(false)) else None
      case TakeReply =>
        if !((send.Creating? || send.Updating?) && send.call in s.calls && s.calls[send.call].reply.Some?) then None
        else (match s.calls[send.call].reply.value
          case Result(p) => Goto(Saving(Lock, p))
          case Duplicate => Goto(if send.Creating? then Sending(Find, k) else Failing(false))
          case Rejected => Goto(Failing(false)))
      case TimeOut => if send.Creating? || send.Updating? then Goto(Failing(false)) else None
      case Search(found) =>
        if !send.Find? then None
        else if found.None? then Goto(Failing(false))
        else if && found.value in s.passes
                && s.passes[found.value].userProvidedId == ReservedId(tap.attendee)
                && s.passes[found.value].template == tap.event.template.value
        then Goto(Sending(Update(found.value), k))
        else None
  }

  /** The row as `markActive` leaves it. */
  function ActiveRow(s: State, a: AttendeeId, pass: PassId, ends: Option<End>): Row {
    if a in s.rows
    then s.rows[a].(status := Active, passId := Some(pass), userProvidedId := Some(ReservedId(a)), links := Some(pass),
                    issued := true, expiresAt := ends)
    else Row(Active, Some(pass), Some(ReservedId(a)), Some(pass), true, ends, None, false, false, None)
  }

  /** `markActive`: attendee row lock, advisory lock, check against the event as it is now, write and commit; each its
      own step. */
  function SaveEffect(s: State, tap: Tap, act: SaveAct): Option<Effect> {
    var a := tap.attendee;
    if !tap.pc.Saving? then None
    else
      var pass := tap.pc.pass;
      match act
      case LockToSave =>
        if !(tap.pc.save.Lock? && RowLockFree(s, a)) then None
        else Goto(if Gone(s, a) then Orphaned(Insert, pass) else Saving(Advisory, pass))
      case LockTemplate => if tap.pc.save.Advisory? && AdvisoryFree(s) then Goto(Saving(Check, pass)) else None
      case CheckEvent =>
        if !tap.pc.save.Check? then None
        else if s.event.template != tap.event.template then Some(Effect(Dropping(DropDelete, pass), Judge(pass)))
        else if ExpirationDate(s.event) != ExpirationDate(tap.event) then Goto(Failing(false))
        else Goto(Saving(Write(EventEnd(s.event)), pass))
      case CommitActive(replyLost) =>
        if !tap.pc.save.Write? then None
        else Some(Effect(if replyLost then Saving(GoneNow, pass) else Settled(Links(pass)),
                         PutRow(ActiveRow(s, a, pass, tap.pc.save.ends))))
      case AbortActive => if tap.pc.save.GoneNow? then None else Goto(Saving(GoneNow, pass))
      case AskGone(failed) =>
        if !tap.pc.save.GoneNow? || (!failed && !RowLockFree(s, a)) then None
        else Goto(if !failed && Gone(s, a) then Orphaned(Insert, pass) else Settled(NoPass))
  }

  predicate CredentialsChanged(s: State, tap: Tap) {
    s.event.template != tap.event.template || s.event.key != tap.event.key
  }

  /** An update of the row by attendee id: no row, nothing written. */
  function RememberLeftBehind(s: State, a: AttendeeId, pass: PassId): Write {
    if a in s.rows then PutRow(s.rows[a].(leftBehind := Some(pass))) else Nothing
  }

  /** The row an orphaned pass is recorded on when there is none: ids, no links. */
  function OrphanRow(a: AttendeeId, pass: PassId): Row {
    Row(Active, Some(pass), Some(ReservedId(a)), None, true, None, None, false, false, None)
  }

  /** `deleteOrphanPassOfGoneAttendee`: insert (a unique violation leads to the fill of an empty row, a foreign-key
      violation to the deletion), delete at the provider, and what is done when that fails. */
  function OrphanEffect(s: State, tap: Tap, act: OrphanAct): Option<Effect> {
    var a := tap.attendee;
    if !tap.pc.Orphaned? then None
    else
      var pass := tap.pc.pass;
      match act
      case InsertRow =>
        if !tap.pc.orphan.Insert? then None
        else if a in s.rows then Goto(Orphaned(Fill, pass))
        else if a !in s.attendees then Goto(Orphaned(Delete, pass))
        else Some(Effect(Orphaned(Delete, pass), PutRow(OrphanRow(a, pass))))
      case FillRow =>
        if !tap.pc.orphan.Fill? then None
        else if a in s.rows && s.rows[a].passId.None? then
          Some(Effect(Orphaned(Delete, pass),
                      PutRow(s.rows[a].(passId := Some(pass), userProvidedId := Some(ReservedId(a)),
                                        removed := false))))
        else Goto(Orphaned(Delete, pass))
      case RowFails =>
        if tap.pc.orphan.Insert? || tap.pc.orphan.Fill? then Goto(Orphaned(Credentials, pass)) else None
      case DeleteOrphan(applied, confirmed) =>
        if !tap.pc.orphan.Delete? || (confirmed && !applied) then None
        else Some(Effect(if confirmed then Settled(Unavailable) else Orphaned(Credentials, pass),
                         if applied then DeletePass(pass) else Nothing))
      case ReadCredentials(failed) =>
        if !tap.pc.orphan.Credentials? then None
        else if failed || CredentialsChanged(s, tap) then Some(Effect(Orphaned(Remember, pass), Judge(pass)))
        else Goto(Settled(Unavailable))
      case RememberOrphan(failed) =>
        if !tap.pc.orphan.Remember? then None
        else Some(Effect(Settled(Unavailable), if failed then LogPass(pass) else RememberLeftBehind(s, a, pass)))
  }

  /** `dropPassMadeUnderChangedCredentials`. */
  function DropEffect(s: State, tap: Tap, act: DropAct): Option<Effect> {
    if !tap.pc.Dropping? then None
    else
      var pass := tap.pc.pass;
      match act
      case DeleteDropped(applied, confirmed) =>
        if !tap.pc.drop.DropDelete? || (confirmed && !applied) then None
        else Some(Effect(if confirmed then Settled(NoPass) else Dropping(DropRemember, pass),
                         if applied then DeletePass(pass) else Nothing))
      case RememberDropped(failed) =>
        if !tap.pc.drop.DropRemember? then None
        else Some(Effect(Failing(false), if failed then LogPass(pass) else RememberLeftBehind(s, tap.attendee, pass)))
  }

  /** The row as `markFailed` leaves it: an active row is not touched. */
  function FailedRow(s: State, a: AttendeeId): Row {
    if a !in s.rows then Row(Failed, None, None, None, false, None, None, false, false, None)
    else if s.rows[a].status.Active? then s.rows[a]
    else s.rows[a].(status := Failed)
  }

  /** `markFailed`. */
  function FailEffect(s: State, tap: Tap, act: FailAct): Option<Effect> {
    var a := tap.attendee;
    if !tap.pc.Failing? then None
    else
      match act
      case LockToFail =>
        if tap.pc.locked || !RowLockFree(s, a) then None
        else Goto(if Gone(s, a) then Settled(NoPass) else Failing(true))
      case CommitFailed => if tap.pc.locked then Some(Effect(Settled(NoPass), PutRow(FailedRow(s, a)))) else None
      case AbortFailed => Goto(Settled(NoPass))
  }

  /** The device capture: an update of the row by attendee id while nothing is confirmed. */
  function CaptureDevice(s: State, a: AttendeeId, t: TapId): Write {
    if a in s.rows && !s.rows[a].confirmed then PutRow(s.rows[a].(device := Some(t))) else Nothing
  }

  /** What is done with the outcome, and `checkAndCaptureDevice`, the last step before the redirect. */
  function FinalEffect(s: State, t: TapId, tap: Tap, act: FinalAct): Option<Effect> {
    var a := tap.attendee;
    if act.Proceed? then
      if !tap.pc.Settled? then None
      else match tap.pc.outcome
        case Unavailable => Goto(Done(TicketPage))
        case NoPass => Goto(Done(TryAgain))
        case Links(p) => Goto(if act.hasUrl then Finishing(FinalLock, p) else Done(TryAgain))
    else if !tap.pc.Finishing? then None
    else
      var pass := tap.pc.pass;
      match act
      case LockToFinish =>
        if !(tap.pc.final.FinalLock? && RowLockFree(s, a)) then None
        else Goto(if Gone(s, a) then Done(TicketPage) else Finishing(FinalWrite, pass))
      case CommitDevice(replyLost) =>
        if !tap.pc.final.FinalWrite? then None
        else Some(Effect(if replyLost then Finishing(FinalAgain, pass) else Done(ToPass(pass)), CaptureDevice(s, a, t)))
      case AbortFinish => if tap.pc.final.FinalAgain? then None else Goto(Finishing(FinalAgain, pass))
      case CheckAgain(failed) =>
        if !tap.pc.final.FinalAgain? || (!failed && !RowLockFree(s, a)) then None
        else Goto(Done(if failed then TryAgain else if Gone(s, a) then TicketPage else ToPass(pass)))
  }

  datatype Act =
    | Entry(entry: EntryAct)
    | Reserve(reserve: ReserveAct)
    | Send(send: SendAct)
    | Save(save: SaveAct)
    | Orphan(orphan: OrphanAct)
    | Drop(drop: DropAct)
    | Fail(fail: FailAct)
    | Final(final: FinalAct)

  /** The effect of one step of tap `t`, or None when its counter, a lock or a guard does not allow it. */
  function TapEffect(s: State, t: TapId, act: Act): Option<Effect>
    requires t in s.taps && s.taps[t].event.template.Some?
  {
    match act
    case Entry(e) => EntryEffect(s, s.taps[t], e)
    case Reserve(r) => ReserveEffect(s, s.taps[t], r)
    case Send(e) => SendEffect(s, t, s.taps[t], e)
    case Save(e) => SaveEffect(s, s.taps[t], e)
    case Orphan(o) => OrphanEffect(s, s.taps[t], o)
    case Drop(d) => DropEffect(s, s.taps[t], d)
    case Fail(f) => FailEffect(s, s.taps[t], f)
    case Final(f) => FinalEffect(s, t, s.taps[t], f)
  }

  function DeleteAtProvider(passes: map<PassId, Pass>, pass: PassId): map<PassId, Pass> {
    if pass in passes then passes[pass := passes[pass].(present := false)] else passes
  }

  /** The state with what a step of tap `t` writes. */
  function Written(s: State, t: TapId, write: Write): State
    requires t in s.taps
  {
    s.(rows := if write.PutRow? then s.rows[s.taps[t].attendee := write.row] else s.rows,
       calls := if write.SendCall? then s.calls[write.id := write.call] else s.calls,
       passes := if write.DeletePass? then DeleteAtProvider(s.passes, write.pass) else s.passes,
       replaced := if write.Judge? then s.replaced[write.pass := t] else s.replaced,
       log := if write.LogPass? then s.log + {write.pass} else s.log)
  }

  /** The state with tap `t` at `next`. The in-process lock map gets its entry when the tap becomes the creation of its
      attendee; when the creation promise settles the entry is deleted, and everyone waiting can read the outcome. */
  function Moved(s: State, t: TapId, next: Pc): State
    requires t in s.taps
  {
    var tap := s.taps[t];
    var key := (tap.instance, tap.attendee);
    var settled := if InCreation(tap.pc) && next.Settled? then Some(next.outcome) else tap.settled;
    s.(taps := s.taps[t := tap.(pc := next, settled := settled)],
       locks := if InCreation(next) == InCreation(tap.pc) then s.locks
                else if InCreation(next) then s.locks[key := t]
                else s.locks - {key})
  }

  function Perform(s: State, t: TapId, e: Effect): State
    requires t in s.taps
  {
    Moved(Written(s, t, e.write), t, e.next)
  }

  // ---------------------------------------------------------------------------------------------- steps of the rest

  datatype WorldAct =
    | Arrive(tap: TapId, instance: Instance, attendee: AttendeeId)
    | Tick(delta: nat)
    | Land(call: CallId, made: PassId)
    | Refuse(call: CallId, duplicate: bool)
    | Crash(instance: Instance)

  datatype ErasureAct =
    | EraseBegin(erasure: ErasureId, attendee: AttendeeId)
    | EraseLock(erasure: ErasureId)
    | EraseCommit(erasure: ErasureId)
    | EraseAbort(erasure: ErasureId)
    | Remove(attendee: AttendeeId)
    | FollowUpDelete(attendee: AttendeeId, pass: PassId)
    | FollowUpSettle(attendee: AttendeeId, found: bool, recordedLongAgo: bool)

  datatype PatchAct =
    | PatchBegin(patch: PatchId, fields: Patch)
    | PatchLock(patch: PatchId)
    | PatchCount(patch: PatchId)
    | PatchCommit(patch: PatchId)
    | PatchAbort(patch: PatchId)

  datatype StaffAct =
    | Void(attendee: AttendeeId)
    | Restore(attendee: AttendeeId)
    | Expire(attendee: AttendeeId)
    | RemoveAtProvider(attendee: AttendeeId)
    | Confirm(attendee: AttendeeId)

  /** Time, arrivals, crashes, and a request taking effect at the provider. */
  function ApplyWorld(s: State, act: WorldAct): Option<State> {
    match act
    case Arrive(t, i, a) =>
      if t !in s.taps && s.event.template.Some? && s.event.key.Some?
      then Some(s.(taps := s.taps[t := Tap(i, a, s.event, Looking, None)])) else None
    case Tick(d) => Some(s.(now := s.now + d))
    case Land(c, p) =>
      if c !in s.calls || s.calls[c].reply.Some? || s.now > s.calls[c].sentAt + s.latency then None
      else (
        var call := s.calls[c];
        match call.kind
        case CreatePass =>
          if p in s.passes then None
          else Some(s.(passes := s.passes[p := Pass(ReservedId(call.attendee), call.template, call.expiration, true)],
                       calls := s.calls[c := call.(reply := Some(Result(p)))]))
        case UpdatePass(target) =>
          if !(p == target && p in s.passes && s.passes[p].present) then None
          else Some(s.(passes := s.passes[p := s.passes[p].(expiration := call.expiration)],
                       calls := s.calls[c := call.(reply := Some(Result(p)))])))
    case Refuse(c, duplicate) =>
      if c in s.calls && s.calls[c].reply.None?
      then Some(s.(calls := s.calls[c := s.calls[c].(reply := Some(if duplicate then Duplicate else Rejected))]))
      else None
    case Crash(i) =>
      Some(s.(taps := map t | t in s.taps ::
                if s.taps[t].instance == i && !s.taps[t].pc.Done? && !s.taps[t].pc.Dead?
                then s.taps[t].(pc := Dead(s.taps[t].pc)) else s.taps[t],
              locks := map l | l in s.locks && l.0 != i :: s.locks[l]))
  }

  /** What an erasure keeps of a row: the provider ids and the marks, no link and no device. */
  function ErasedRow(row: Row): Row {
    row.(links := None, device := None)
  }

  /** Erasure, removal, and the erasure's follow-up at the provider. */
  function ApplyErasure(s: State, act: ErasureAct): Option<State> {
    match act
    case EraseBegin(e, a) =>
      if e in s.erasures then None else Some(s.(erasures := s.erasures[e := Erasure(a, s.now, false)]))
    case EraseLock(e) =>
      if && e in s.erasures && !s.erasures[e].locked
         && s.erasures[e].attendee in s.attendees && s.attendees[s.erasures[e].attendee].Live?
         && RowLockFree(s, s.erasures[e].attendee) && NoShareHolder(s, s.erasures[e].attendee)
      then Some(s.(erasures := s.erasures[e := s.erasures[e].(locked := true)])) else None
    case EraseCommit(e) =>
      if !(&& e in s.erasures && s.erasures[e].locked && s.erasures[e].attendee in s.attendees
           && s.now <= s.erasures[e].startedAt + ERASE_TRANSACTION_TIMEOUT_MS)
      then None
      else
        var a := s.erasures[e].attendee;
        Some(s.(attendees := s.attendees[a := Erased(s.erasures[e].startedAt, s.now)],
                rows := if a in s.rows then s.rows[a := ErasedRow(s.rows[a])] else s.rows,
                erasures := s.erasures - {e}))
    case EraseAbort(e) =>
      if e in s.erasures then Some(s.(erasures := s.erasures - {e})) else None
    case Remove(a) =>
      if a in s.attendees && RowLockFree(s, a) && NoShareHolder(s, a)
      then Some(s.(attendees := s.attendees - {a}, rows := s.rows - {a})) else None
    case FollowUpDelete(a, p) =>
      if && a in s.attendees && s.attendees[a].Erased?
         && p in s.passes && s.passes[p].userProvidedId == ReservedId(a)
      then Some(s.(passes := DeleteAtProvider(s.passes, p))) else None
    case FollowUpSettle(a, found, recordedLongAgo) =>
      // The verdict "gone": nothing under the reserved id now, and either an unrecorded pass was found and deleted, or
      // the erasure is old enough for that to be an answer, or the creation that recorded the pass is.
      if && a in s.attendees && s.attendees[a].Erased? && a in s.rows
         && s.rows[a].leftBehind.None?
         && (forall p :: p in s.passes && s.passes[p].userProvidedId == ReservedId(a) ==> !s.passes[p].present)
         && ((found && s.rows[a].passId.None?)
             || s.now >= s.attendees[a].erasedAt + CREATION_SETTLE_WINDOW_MS
             || (recordedLongAgo && s.rows[a].passId.Some? && s.rows[a].issued))
      then Some(s.(rows := s.rows[a := s.rows[a].(removed := true)])) else None
  }

  function OrElse<T>(o: Option<T>, d: T): T {
    if o.Some? then o.value else d
  }

  function Patched(e: Event, p: Patch): Event {
    Event(OrElse(p.template, e.template), OrElse(p.key, e.key), OrElse(p.expires, e.expires), OrElse(p.local, e.local),
          OrElse(p.zone, e.zone))
  }

  predicate TemplateChanging(tx: PatchTx) {
    tx.patch.template.Some? && tx.patch.template.value != tx.existing.template
  }

  predicate DisablingExpiration(tx: PatchTx) {
    tx.patch.expires == Some(false) && tx.existing.expires
  }

  /** Whether the save takes the wallet template lock and counts issued passes: decided from the row read before the
      transaction. */
  predicate Guarded(tx: PatchTx) {
    TemplateChanging(tx) || DisablingExpiration(tx)
  }

  predicate AnyIssued(s: State) {
    exists a :: a in s.rows && s.rows[a].issued
  }

  /** A settings save: the read, then a transaction that locks and counts only when the read says it must. */
  function ApplySettings(s: State, act: PatchAct): Option<State> {
    match act
    case PatchBegin(k, fields) =>
      if k in s.patches then None else Some(s.(patches := s.patches[k := PatchTx(fields, s.event, Begun)]))
    case PatchLock(k) =>
      if k in s.patches && s.patches[k].phase.Begun? && Guarded(s.patches[k]) && AdvisoryFree(s)
      then Some(s.(patches := s.patches[k := s.patches[k].(phase := Locked)])) else None
    case PatchCount(k) =>
      if !(k in s.patches && s.patches[k].phase.Locked?) then None
      else if AnyIssued(s) then Some(s.(patches := s.patches - {k}))
      else Some(s.(patches := s.patches[k := s.patches[k].(phase := Counted)]))
    case PatchCommit(k) =>
      if k in s.patches && (if Guarded(s.patches[k]) then s.patches[k].phase.Counted? else s.patches[k].phase.Begun?)
      then Some(s.(event := Patched(s.event, s.patches[k].patch), patches := s.patches - {k})) else None
    case PatchAbort(k) =>
      if k in s.patches then Some(s.(patches := s.patches - {k})) else None
  }

  /** Staff actions on a pass, the expiry job and the provider's first-confirmation webhook. */
  function ApplyStaff(s: State, act: StaffAct): Option<State> {
    match act
    case Void(a) =>
      if a in s.rows && s.rows[a].status.Active? && !s.rows[a].removed && !Gone(s, a) && RowLockFree(s, a)
      then Some(s.(rows := s.rows[a := s.rows[a].(status := Voided)])) else None
    case Restore(a) =>
      if a in s.rows && s.rows[a].status.Voided? && !s.rows[a].removed && !Gone(s, a) && RowLockFree(s, a)
      then Some(s.(rows := s.rows[a := s.rows[a].(status := Active)])) else None
    case Expire(a) =>
      if a in s.rows && (s.rows[a].status.Active? || s.rows[a].status.Voided?)
      then Some(s.(rows := s.rows[a := s.rows[a].(status := Expired)])) else None
    case RemoveAtProvider(a) =>
      if && a in s.rows && (s.rows[a].status.Voided? || s.rows[a].status.Expired?) && s.rows[a].passId.Some?
         && RowLockFree(s, a)
      then Some(s.(passes := DeleteAtProvider(s.passes, s.rows[a].passId.value),
                rows := s.rows[a := s.rows[a].(removed := true)]))
      else None
    case Confirm(a) =>
      if a in s.rows then Some(s.(rows := s.rows[a := s.rows[a].(confirmed := true)])) else None
  }

  // ---------------------------------------------------------------------------------------------- runs

  datatype Step =
    | TapStep(tap: TapId, act: Act)
    | WorldStep(world: WorldAct)
    | ErasureStep(erasure: ErasureAct)
    | PatchStep(patch: PatchAct)
    | StaffStep(staff: StaffAct)

  /** The state after one step, or None when the step cannot be taken in `s`. */
  function Apply(s: State, step: Step): Option<State> {
    match step
    case TapStep(t, act) =>
      if !(t in s.taps && s.taps[t].event.template.Some?) then None
      else (match TapEffect(s, t, act)
        case None => None
        case Some(effect) => Some(Perform(s, t, effect)))
    case WorldStep(act) => ApplyWorld(s, act)
    case ErasureStep(act) => ApplyErasure(s, act)
    case PatchStep(act) => ApplySettings(s, act)
    case StaffStep(act) => ApplyStaff(s, act)
  }

  /** The state after a run, or None when one of its steps cannot be taken. */
  function Exec(s: State, run: seq<Step>): Option<State>
    decreases run
  {
    if run == [] then Some(s)
    else match Apply(s, run[0])
      case None => None
      case Some(s1) => Exec(s1, run[1..])
  }

  /** Every step of the run meets `ok` in the state it is taken in. */
  ghost predicate Along(s: State, run: seq<Step>, ok: (State, Step) -> bool)
    decreases run
  {
    run == [] || (ok(s, run[0]) && (Apply(s, run[0]).Some? ==> Along(Apply(s, run[0]).value, run[1..], ok)))
  }

  /** An event whose attendees are all live, before the first tap. */
  predicate Init(s: State) {
    && (forall a :: a in s.attendees ==> s.attendees[a].Live?)
    && s.rows == map[] && s.passes == map[] && s.calls == map[] && s.taps == map[] && s.locks == map[]
    && s.erasures == map[] && s.patches == map[] && s.replaced == map[] && s.log == {}
  }
}
