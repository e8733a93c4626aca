/** Stretches of a run that nobody disturbs, as one big step each: what they need and the state they end in. */
module WalletRuns {
  import opened Options
  import opened WalletModel

  lemma {:induction false} ExecAppend(s: State, run: seq<Step>, more: seq<Step>)
    requires Exec(s, run).Some?
    ensures Exec(s, run + more) == Exec(Exec(s, run).value, more)
    decreases run
  {
    hide Apply;
    if run == [] {
      assert run + more == more;
    } else {
      assert (run + more)[0] == run[0] && (run + more)[1..] == run[1..] + more;
      ExecAppend(Apply(s, run[0]).value, run[1..], more);
    }
  }

  lemma ExecOne(s: State, step: Step)
    ensures Exec(s, [step]) == Apply(s, step)
  {
    hide Apply;
    assert [step][1..] == [];
    if Apply(s, step).Some? { assert Exec(Apply(s, step).value, []) == Apply(s, step); }
  }

  lemma Then(s: State, run: seq<Step>, s1: State, step: Step, s2: State)
    requires Exec(s, run) == Some(s1) && Apply(s1, step) == Some(s2)
    ensures Exec(s, run + [step]) == Some(s2)
  {
    hide Apply;
    ExecAppend(s, run, [step]);
    assert [step][1..] == [];
    assert Exec(s2, []) == Some(s2);
  }

  /** Each step leads from one state of the list to the next. */
  ghost predicate Trace(states: seq<State>, run: seq<Step>) {
    && |states| == |run| + 1
    && forall k :: 0 <= k < |run| ==> Apply(states[k], run[k]) == Some(states[k + 1])
  }

  lemma {:induction false} TraceRuns(states: seq<State>, run: seq<Step>)
    requires Trace(states, run)
    ensures Exec(states[0], run) == Some(states[|run|])
    decreases run
  {
    hide Apply;
    if run != [] {
      assert Trace(states[1..], run[1..]);
      TraceRuns(states[1..], run[1..]);
    }
  }

  /** The state with tap `t` at `pc`. */
  function At(s: State, t: TapId, pc: Pc): State
    requires t in s.taps
  {
    s.(taps := s.taps[t := s.taps[t].(pc := pc)])
  }

  /** A step that only moves the counter inside, or outside, a creation. */
  lemma Goes(s: State, t: TapId, act: Act, next: Pc)
    requires t in s.taps && s.taps[t].event.template.Some? && TapEffect(s, t, act) == Some(Effect(next, Nothing))
    requires InCreation(next) == InCreation(s.taps[t].pc)
    ensures Apply(s, TapStep(t, act)) == Some(At(s, t, next))
  {
    hide TapEffect;
  }

  /** The counter moves on from a state that was itself only a counter away from `s`. */
  lemma GoesOn(s: State, t: TapId, from: Pc, act: Act, next: Pc)
    requires t in s.taps && s.taps[t].event.template.Some?
    requires TapEffect(At(s, t, from), t, act) == Some(Effect(next, Nothing))
    requires InCreation(next) == InCreation(from)
    ensures Apply(At(s, t, from), TapStep(t, act)) == Some(At(s, t, next))
  {
    hide TapEffect;
    Goes(At(s, t, from), t, act, next);
    assert At(At(s, t, from), t, next) == At(s, t, next);
  }

  /** Nothing stands in the way of a creation by tap `t`. */
  predicate Ready(s: State, t: TapId) {
    && t in s.taps && s.taps[t].pc.Looking? && s.taps[t].event.template.Some?
    && var a := s.taps[t].attendee;
    && a in s.attendees && s.attendees[a].Live? && RowLockFree(s, a) && (s.taps[t].instance, a) !in s.locks
    && (a in s.rows ==> !PassUnavailable(s, a) && !s.rows[a].status.Active?)
  }

  function ToLead(t: TapId): seq<Step> {
    [TapStep(t, Entry(LookUp)), TapStep(t, Entry(JoinOrLead)), TapStep(t, Entry(RecheckRow(false))),
     TapStep(t, Entry(CheckThere))]
  }

  function ToCommit(t: TapId): seq<Step> {
    [TapStep(t, Reserve(LockToReserve)), TapStep(t, Reserve(ReadClock)), TapStep(t, Reserve(CommitReserve(false)))]
  }

  function ToReserve(t: TapId): seq<Step> {
    ToLead(t) + ToCommit(t)
  }

  /** The state with tap `t` the creation of its attendee. */
  function Leads(s: State, t: TapId): State
    requires t in s.taps
  {
    s.(locks := s.locks[(s.taps[t].instance, s.taps[t].attendee) := t])
  }

  /** The state after an undisturbed reservation. */
  function AfterReserve(s: State, t: TapId): State
    requires t in s.taps
  {
    var a := s.taps[t].attendee;
    At(Leads(s, t), t, Sending(Create, s.now)).(rows := s.rows[a := ReservedRow(s, a)])
  }

  lemma StartsCreation(s: State, t: TapId)
    requires Ready(s, t)
    ensures Apply(At(s, t, Joining), TapStep(t, Entry(JoinOrLead))) == Some(At(Leads(s, t), t, Leading(Recheck)))
  {
    var s' := Apply(At(s, t, Joining), TapStep(t, Entry(JoinOrLead))).value;
    assert s'.taps == At(Leads(s, t), t, Leading(Recheck)).taps;
  }

  lemma CommitsReserve(s: State, t: TapId)
    requires Ready(s, t)
    ensures Apply(At(Leads(s, t), t, Reserving(s.now)), TapStep(t, Reserve(CommitReserve(false))))
            == Some(AfterReserve(s, t))
  {
    var s0 := At(Leads(s, t), t, Reserving(s.now));
    var s' := Apply(s0, TapStep(t, Reserve(CommitReserve(false)))).value;
    assert s'.taps == AfterReserve(s, t).taps;
  }

  lemma ChecksAlone(s: State, t: TapId)
    requires Ready(s, t)
    ensures var s1 := Leads(s, t);
            && Apply(At(s1, t, Leading(Recheck)), TapStep(t, Entry(RecheckRow(false))))
               == Some(At(s1, t, Leading(StillThere)))
            && Apply(At(s1, t, Leading(StillThere)), TapStep(t, Entry(CheckThere)))
               == Some(At(s1, t, Leading(ReserveLock)))
  {
    hide RowLockFree, Apply;
    var s1 := Leads(s, t);
    GoesOn(s1, t, Leading(Recheck), Entry(RecheckRow(false)), Leading(StillThere));
    GoesOn(s1, t, Leading(StillThere), Entry(CheckThere), Leading(ReserveLock));
  }

  lemma LocksAlone(s: State, t: TapId)
    requires Ready(s, t)
    ensures var s1 := Leads(s, t);
            && Apply(At(s1, t, Leading(ReserveLock)), TapStep(t, Reserve(LockToReserve)))
               == Some(At(s1, t, Leading(ReserveClock)))
            && Apply(At(s1, t, Leading(ReserveClock)), TapStep(t, Reserve(ReadClock)))
               == Some(At(s1, t, Reserving(s.now)))
  {
    hide Apply;
    var s1 := Leads(s, t);
    GoesOn(s1, t, Leading(ReserveLock), Reserve(LockToReserve), Leading(ReserveClock));
    GoesOn(s1, t, Leading(ReserveClock), Reserve(ReadClock), Reserving(s.now));
  }

  lemma LooksUpAlone(s: State, t: TapId)
    requires Ready(s, t)
    ensures Apply(s, TapStep(t, Entry(LookUp))) == Some(At(s, t, Joining))
  {
    hide Apply;
    Goes(s, t, Entry(LookUp), Joining);
  }

  lemma LeadsAlone(s: State, t: TapId)
    requires Ready(s, t)
    ensures Exec(s, ToLead(t)) == Some(At(Leads(s, t), t, Leading(ReserveLock)))
  {
    assert t in s.taps;
    var s1 := Leads(s, t);
    assert t in s1.taps;
    LooksUpAlone(s, t);
    StartsCreation(s, t);
    ChecksAlone(s, t);
    hide Apply, At, Leads, Ready, Exec;
    TraceRuns([s, At(s, t, Joining), At(s1, t, Leading(Recheck)), At(s1, t, Leading(StillThere)),
               At(s1, t, Leading(ReserveLock))], ToLead(t));
  }

  lemma CommitsAlone(s: State, t: TapId)
    requires Ready(s, t)
    ensures Exec(At(Leads(s, t), t, Leading(ReserveLock)), ToCommit(t)) == Some(AfterReserve(s, t))
  {
    assert t in s.taps;
    var s1 := Leads(s, t);
    assert t in s1.taps;
    LocksAlone(s, t);
    CommitsReserve(s, t);
    hide Apply, At, Leads, AfterReserve, Ready, Exec;
    TraceRuns([At(s1, t, Leading(ReserveLock)), At(s1, t, Leading(ReserveClock)), At(s1, t, Reserving(s.now)),
               AfterReserve(s, t)], ToCommit(t));
  }

  lemma ReservesAlone(s: State, t: TapId)
    requires Ready(s, t)
    ensures Exec(s, ToReserve(t)) == Some(AfterReserve(s, t))
  {
    LeadsAlone(s, t);
    CommitsAlone(s, t);
    hide Apply, At, Leads, AfterReserve, Ready, Exec, ToLead, ToCommit;
    ExecAppend(s, ToLead(t), ToCommit(t));
  }

  // ---------------------------------------------------------------------------------------------- the provider answers

  function ToCreated(t: TapId, c: CallId, p: PassId): seq<Step> {
    [TapStep(t, Send(SendCreate(c))), WorldStep(Land(c, p)), TapStep(t, Send(TakeReply))]
  }

  function CreateCall(s: State, t: TapId): Call
    requires t in s.taps && s.taps[t].pc.Sending? && s.taps[t].event.template.Some?
  {
    NewCall(s, t, s.taps[t], CreatePass, s.taps[t].pc.checkedAt)
  }

  function PassFor(call: Call): Pass {
    Pass(ReservedId(call.attendee), call.template, call.expiration, true)
  }

  /** Tap `t` is about to create a pass, in time, and `c` and `p` are new. */
  predicate CanCreate(s: State, t: TapId, c: CallId, p: PassId) {
    && t in s.taps && s.taps[t].event.template.Some?
    && s.taps[t].pc.Sending? && s.taps[t].pc.send.Create? && s.now < s.taps[t].pc.checkedAt + CREATE_PASS_DEADLINE_MS
    && c !in s.calls && p !in s.passes
  }

  function AfterCreate(s: State, t: TapId, c: CallId, p: PassId): State
    requires CanCreate(s, t, c, p)
  {
    At(s, t, Saving(Lock, p)).(calls := s.calls[c := CreateCall(s, t).(reply := Some(Result(p)))],
                               passes := s.passes[p := PassFor(CreateCall(s, t))])
  }

  lemma SendsCreate(s: State, t: TapId, c: CallId, p: PassId)
    requires CanCreate(s, t, c, p)
    ensures Apply(s, TapStep(t, Send(SendCreate(c))))
            == Some(At(s, t, Sending(Creating(c), s.taps[t].pc.checkedAt)).(calls := s.calls[c := CreateCall(s, t)]))
  {
    hide NewCall;
  }

  lemma LandsCreate(s: State, t: TapId, c: CallId, p: PassId)
    requires CanCreate(s, t, c, p)
    ensures Apply(At(s, t, Sending(Creating(c), s.taps[t].pc.checkedAt)).(calls := s.calls[c := CreateCall(s, t)]),
                  WorldStep(Land(c, p)))
            == Some(AfterCreate(s, t, c, p).(taps := At(s, t, Sending(Creating(c), s.taps[t].pc.checkedAt)).taps))
  {
    var s1 := At(s, t, Sending(Creating(c), s.taps[t].pc.checkedAt)).(calls := s.calls[c := CreateCall(s, t)]);
    var s2 := Apply(s1, WorldStep(Land(c, p))).value;
    assert s2.calls == AfterCreate(s, t, c, p).calls;
  }

  lemma TakesReply(s: State, t: TapId, c: CallId, p: PassId)
    requires CanCreate(s, t, c, p)
    ensures Apply(AfterCreate(s, t, c, p).(taps := At(s, t, Sending(Creating(c), s.taps[t].pc.checkedAt)).taps),
                  TapStep(t, Send(TakeReply)))
            == Some(AfterCreate(s, t, c, p))
  {
    var s2 := AfterCreate(s, t, c, p).(taps := At(s, t, Sending(Creating(c), s.taps[t].pc.checkedAt)).taps);
    Goes(s2, t, Send(TakeReply), Saving(Lock, p));
    assert At(s2, t, Saving(Lock, p)).taps == AfterCreate(s, t, c, p).taps;
  }

  lemma CreatesAlone(s: State, t: TapId, c: CallId, p: PassId)
    requires CanCreate(s, t, c, p)
    ensures Exec(s, ToCreated(t, c, p)) == Some(AfterCreate(s, t, c, p))
  {
    SendsCreate(s, t, c, p);
    LandsCreate(s, t, c, p);
    TakesReply(s, t, c, p);
    var s1 := At(s, t, Sending(Creating(c), s.taps[t].pc.checkedAt)).(calls := s.calls[c := CreateCall(s, t)]);
    var s2 := AfterCreate(s, t, c, p).(taps := At(s, t, Sending(Creating(c), s.taps[t].pc.checkedAt)).taps);
    var s3 := AfterCreate(s, t, c, p);
    hide Apply, At, AfterCreate, CreateCall;
    TraceRuns([s, s1, s2, s3], ToCreated(t, c, p));
  }

  // ---------------------------------------------------------------------------------------------- the save

  function ToCheck(t: TapId): seq<Step> {
    [TapStep(t, Save(LockToSave)), TapStep(t, Save(LockTemplate))]
  }

  /** Nothing stands in the way of the locks of `markActive`. */
  predicate CanLock(s: State, t: TapId) {
    && t in s.taps && s.taps[t].event.template.Some? && s.taps[t].pc.Saving? && s.taps[t].pc.save.Lock?
    && !Gone(s, s.taps[t].attendee) && RowLockFree(s, s.taps[t].attendee) && AdvisoryFree(s)
  }

  lemma LocksForSave(s: State, t: TapId)
    requires CanLock(s, t)
    ensures Exec(s, ToCheck(t)) == Some(At(s, t, Saving(Check, s.taps[t].pc.pass)))
  {
    var p := s.taps[t].pc.pass;
    Goes(s, t, Save(LockToSave), Saving(Advisory, p));
    GoesOn(s, t, Saving(Advisory, p), Save(LockTemplate), Saving(Check, p));
    hide Apply;
    TraceRuns([s, At(s, t, Saving(Advisory, p)), At(s, t, Saving(Check, p))], ToCheck(t));
  }

  lemma PassesCheck(s: State, t: TapId)
    requires t in s.taps && s.taps[t].event.template.Some? && s.taps[t].pc.Saving? && s.taps[t].pc.save.Check?
    requires s.event.template == s.taps[t].event.template && ExpirationDate(s.event) == ExpirationDate(s.taps[t].event)
    ensures Apply(s, TapStep(t, Save(CheckEvent)))
            == Some(At(s, t, Saving(Write(EventEnd(s.event)), s.taps[t].pc.pass)))
  {
    Goes(s, t, Save(CheckEvent), Saving(Write(EventEnd(s.event)), s.taps[t].pc.pass));
  }

  /** The state after `markActive` has written and committed. */
  function AfterSave(s: State, t: TapId): State
    requires t in s.taps && s.taps[t].pc.Saving? && s.taps[t].pc.save.Write?
  {
    var tap := s.taps[t];
    s.(rows := s.rows[tap.attendee := ActiveRow(s, tap.attendee, tap.pc.pass, tap.pc.save.ends)],
       taps := s.taps[t := tap.(pc := Settled(Links(tap.pc.pass)), settled := Some(Links(tap.pc.pass)))],
       locks := s.locks - {(tap.instance, tap.attendee)})
  }

  lemma Commits(s: State, t: TapId)
    requires t in s.taps && s.taps[t].event.template.Some? && s.taps[t].pc.Saving? && s.taps[t].pc.save.Write?
    ensures Apply(s, TapStep(t, Save(CommitActive(false)))) == Some(AfterSave(s, t))
  {
    hide ActiveRow;
  }

  // ---------------------------------------------------------------------------------------------- a whole creation

  /** Nobody disturbs tap `t`, and `c` and `p` are new. */
  predicate Undisturbed(s: State, t: TapId, c: CallId, p: PassId) {
    Ready(s, t) && AdvisoryFree(s) && s.taps[t].event == s.event && c !in s.calls && p !in s.passes
  }

  lemma ReservedCanCreate(s: State, t: TapId, c: CallId, p: PassId)
    requires Undisturbed(s, t, c, p)
    ensures CanCreate(AfterReserve(s, t), t, c, p)
  {
  }

  /** The state before the check of the save. */
  function BeforeCheck(s: State, t: TapId, c: CallId, p: PassId): State
    requires Undisturbed(s, t, c, p)
  {
    ReservedCanCreate(s, t, c, p);
    At(AfterCreate(AfterReserve(s, t), t, c, p), t, Saving(Check, p))
  }

  lemma CreatedCanLock(s: State, t: TapId, c: CallId, p: PassId)
    requires Undisturbed(s, t, c, p) && CanCreate(AfterReserve(s, t), t, c, p)
    ensures CanLock(AfterCreate(AfterReserve(s, t), t, c, p), t)
  {
    hide ReservedRow;
  }

  lemma ReachesCheck(s: State, t: TapId, c: CallId, p: PassId)
    requires Undisturbed(s, t, c, p)
    ensures Exec(s, ToReserve(t) + ToCreated(t, c, p) + ToCheck(t)) == Some(BeforeCheck(s, t, c, p))
  {
    assert t in s.taps;
    ReservedCanCreate(s, t, c, p);
    CreatedCanLock(s, t, c, p);
    var s1 := AfterReserve(s, t);
    var s2 := AfterCreate(s1, t, c, p);
    assert s2.taps[t].pc == Saving(Lock, p);
    assert At(s2, t, Saving(Check, p)) == BeforeCheck(s, t, c, p);
    assert Ready(s, t);
    hide *;
    ReservesAlone(s, t);
    CreatesAlone(s1, t, c, p);
    LocksForSave(s2, t);
    ExecAppend(s, ToReserve(t), ToCreated(t, c, p));
    ExecAppend(s, ToReserve(t) + ToCreated(t, c, p), ToCheck(t));
  }

  lemma BeforeCheckFacts(s: State, t: TapId, c: CallId, p: PassId)
    requires Undisturbed(s, t, c, p)
    ensures var s' := BeforeCheck(s, t, c, p); var tap := s.taps[t];
            && s'.taps == s.taps[t := tap.(pc := Saving(Check, p))] && s'.event == s.event
            && s'.locks == s.locks[(tap.instance, tap.attendee) := t]
            && s'.passes == s.passes[p := Pass(ReservedId(tap.attendee), s.event.template.value,
                                               ExpirationDate(s.event), true)]
            && s'.patches == s.patches && s'.attendees == s.attendees && s'.now == s.now && s'.erasures == s.erasures
            && s'.rows == s.rows[tap.attendee := ReservedRow(s, tap.attendee)] && c in s'.calls
            && s'.calls == s.calls[c := s'.calls[c]]
            && s'.replaced == s.replaced && s'.log == s.log
  {
    hide ReservedRow;
    ReservedCanCreate(s, t, c, p);
  }

  function ToIssue(t: TapId, c: CallId, p: PassId): seq<Step> {
    ToReserve(t) + ToCreated(t, c, p) + ToCheck(t) + [TapStep(t, Save(CheckEvent))]
    + [TapStep(t, Save(CommitActive(false)))]
  }

  /** The state before the write of the save. */
  function BeforeWrite(s: State, t: TapId, c: CallId, p: PassId): State
    requires Undisturbed(s, t, c, p)
  {
    At(BeforeCheck(s, t, c, p), t, Saving(Write(EventEnd(s.event)), p))
  }

  lemma ReachesWrite(s: State, t: TapId, c: CallId, p: PassId)
    requires Undisturbed(s, t, c, p)
    ensures Exec(s, ToReserve(t) + ToCreated(t, c, p) + ToCheck(t) + [TapStep(t, Save(CheckEvent))])
            == Some(BeforeWrite(s, t, c, p))
  {
    ReachesCheck(s, t, c, p);
    BeforeCheckFacts(s, t, c, p);
    hide BeforeCheck, EventEnd, ExpirationDate, Exec, Apply, AdvisoryFree, RowLockFree;
    PassesCheck(BeforeCheck(s, t, c, p), t);
    Then(s, ToReserve(t) + ToCreated(t, c, p) + ToCheck(t), BeforeCheck(s, t, c, p), TapStep(t, Save(CheckEvent)),
         BeforeWrite(s, t, c, p));
  }

  function AfterIssue(s: State, t: TapId, c: CallId, p: PassId): State
    requires Undisturbed(s, t, c, p)
  {
    AfterSave(BeforeWrite(s, t, c, p), t)
  }

  lemma ReachesIssue(s: State, t: TapId, c: CallId, p: PassId)
    requires Undisturbed(s, t, c, p)
    ensures Exec(s, ToIssue(t, c, p)) == Some(AfterIssue(s, t, c, p))
  {
    ReachesWrite(s, t, c, p);
    BeforeCheckFacts(s, t, c, p);
    hide BeforeCheck, EventEnd, ExpirationDate, Exec, Apply, AdvisoryFree, RowLockFree, ToReserve, ToCreated, ToCheck;
    Commits(BeforeWrite(s, t, c, p), t);
    Then(s, ToReserve(t) + ToCreated(t, c, p) + ToCheck(t) + [TapStep(t, Save(CheckEvent))], BeforeWrite(s, t, c, p),
         TapStep(t, Save(CommitActive(false))), AfterIssue(s, t, c, p));
  }

  /** What `s'` has that `s` had not: pass `p`, saved on the row of the attendee of tap `t`. */
  predicate Issued(s: State, s': State, t: TapId, p: PassId)
    requires t in s.taps && s.event.template.Some?
  {
    var a := s.taps[t].attendee;
    && s'.passes == s.passes[p := Pass(ReservedId(a), s.event.template.value, ExpirationDate(s.event), true)]
    && a in s'.rows && s'.rows[a].status.Active? && s'.rows[a].passId == Some(p) && s'.rows[a].links == Some(p)
    && s'.rows[a].userProvidedId == Some(ReservedId(a)) && s'.rows[a].expiresAt == EventEnd(s.event)
    && s'.rows[a].issued
    && !s'.rows[a].removed
    && s'.locks == s.locks && t in s'.taps && s'.taps[t].pc == Settled(Links(p))
    && s'.event == s.event && s'.patches == s.patches && s'.attendees == s.attendees
  }

  /** Nothing else has changed: other taps, rows and calls are as they were. */
  predicate ElseUnchanged(s: State, s': State, t: TapId)
    requires t in s.taps
  {
    && t in s'.taps && s'.taps == s.taps[t := s'.taps[t]]
    && s.taps[t].attendee in s'.rows && s'.rows == s.rows[s.taps[t].attendee := s'.rows[s.taps[t].attendee]]
    && (forall d :: d in s.calls ==> d in s'.calls && s'.calls[d] == s.calls[d])
    && s'.erasures == s.erasures
  }

  lemma IssueFrame(s: State, t: TapId, c: CallId, p: PassId)
    requires Undisturbed(s, t, c, p)
    ensures ElseUnchanged(s, AfterIssue(s, t, c, p), t)
  {
    assert t in s.taps && c !in s.calls;
    BeforeCheckFacts(s, t, c, p);
    hide BeforeCheck, EventEnd, ExpirationDate, ReservedRow, ActiveRow, Undisturbed;
  }

  lemma IssueFacts(s: State, t: TapId, c: CallId, p: PassId)
    requires Undisturbed(s, t, c, p)
    ensures Issued(s, AfterIssue(s, t, c, p), t, p)
  {
    BeforeCheckFacts(s, t, c, p);
    hide BeforeCheck, EventEnd, ExpirationDate, AdvisoryFree, RowLockFree, ReservedRow;
    assert AfterIssue(s, t, c, p).locks == s.locks;
  }

  /** A tap nobody disturbs, whose creation the provider accepts within the deadline: the row is active with the one new
      pass, made under the event's template with its expiry date, the lock is free again, the outcome leads to the
      pass. */
  lemma UndisturbedTapIssues(s: State, t: TapId, c: CallId, p: PassId)
    requires Undisturbed(s, t, c, p)
    ensures Exec(s, ToIssue(t, c, p)).Some? && Issued(s, Exec(s, ToIssue(t, c, p)).value, t, p)
    ensures ElseUnchanged(s, Exec(s, ToIssue(t, c, p)).value, t)
  {
    ReachesIssue(s, t, c, p);
    hide Exec, ToIssue, AfterIssue, Issued, ElseUnchanged;
    IssueFacts(s, t, c, p);
    IssueFrame(s, t, c, p);
  }

  // ---------------------------------------------------------------------------------------------- a settings save

  function GuardedSave(k: PatchId, fields: Patch): seq<Step> {
    [PatchStep(PatchBegin(k, fields)), PatchStep(PatchLock(k)), PatchStep(PatchCount(k)), PatchStep(PatchCommit(k))]
  }

  function Tx(s: State, k: PatchId, fields: Patch, phase: PatchPhase): State {
    s.(patches := s.patches[k := PatchTx(fields, s.event, phase)])
  }

  lemma SaveLocks(s: State, k: PatchId, fields: Patch)
    requires k !in s.patches && AdvisoryFree(s) && !AnyIssued(s)
    requires fields.template.Some? && fields.template.value != s.event.template
    ensures Apply(s, PatchStep(PatchBegin(k, fields))) == Some(Tx(s, k, fields, Begun))
    ensures Apply(Tx(s, k, fields, Begun), PatchStep(PatchLock(k))) == Some(Tx(s, k, fields, Locked))
  {
    assert Tx(s, k, fields, Begun).patches[k := PatchTx(fields, s.event, Locked)] == Tx(s, k, fields, Locked).patches;
  }

  lemma SaveWrites(s: State, k: PatchId, fields: Patch)
    requires k !in s.patches && AdvisoryFree(s) && !AnyIssued(s)
    requires fields.template.Some? && fields.template.value != s.event.template
    ensures Apply(Tx(s, k, fields, Locked), PatchStep(PatchCount(k))) == Some(Tx(s, k, fields, Counted))
    ensures Apply(Tx(s, k, fields, Counted), PatchStep(PatchCommit(k))) == Some(s.(event := Patched(s.event, fields)))
  {
    hide Patched;
    assert Tx(s, k, fields, Locked).patches[k := PatchTx(fields, s.event, Counted)]
           == Tx(s, k, fields, Counted).patches;
    assert Tx(s, k, fields, Counted).patches - {k} == s.patches;
  }

  /** A save that changes the template takes the lock, finds nothing issued and writes; nobody is in its way. */
  lemma SavesAlone(s: State, k: PatchId, fields: Patch)
    requires k !in s.patches && AdvisoryFree(s) && !AnyIssued(s)
    requires fields.template.Some? && fields.template.value != s.event.template
    ensures Exec(s, GuardedSave(k, fields)) == Some(s.(event := Patched(s.event, fields)))
  {
    SaveLocks(s, k, fields);
    SaveWrites(s, k, fields);
    hide Apply, Tx, Patched, AdvisoryFree, AnyIssued;
    TraceRuns([s, Tx(s, k, fields, Begun), Tx(s, k, fields, Locked), Tx(s, k, fields, Counted),
               s.(event := Patched(s.event, fields))], GuardedSave(k, fields));
  }

  function PlainSave(k: PatchId, fields: Patch): seq<Step> {
    [PatchStep(PatchBegin(k, fields)), PatchStep(PatchCommit(k))]
  }

  /** A save that changes neither the template nor disables the expiration takes no lock and counts nothing. */
  lemma SavesUnguarded(s: State, k: PatchId, fields: Patch)
    requires k !in s.patches && !Guarded(PatchTx(fields, s.event, Begun))
    ensures Exec(s, PlainSave(k, fields)) == Some(s.(event := Patched(s.event, fields)))
  {
    var s1 := Tx(s, k, fields, Begun);
    assert Apply(s, PatchStep(PatchBegin(k, fields))) == Some(s1);
    assert s1.patches - {k} == s.patches;
    assert Apply(s1, PatchStep(PatchCommit(k))) == Some(s.(event := Patched(s.event, fields)));
    hide Apply, Tx, Patched;
    TraceRuns([s, s1, s.(event := Patched(s.event, fields))], PlainSave(k, fields));
  }

  // ---------------------------------------------------------------------------------------------- a pass left behind

  function ToLeave(t: TapId): seq<Step> {
    [TapStep(t, Save(CheckEvent)), TapStep(t, Drop(DeleteDropped(false, false))),
     TapStep(t, Drop(RememberDropped(false))),
     TapStep(t, Fail(AbortFailed))]
  }

  /** Tap `t` is about to find that the event's template is not the one it made its pass under. */
  predicate WillJudge(s: State, t: TapId) {
    && t in s.taps && s.taps[t].event.template.Some? && s.taps[t].pc.Saving? && s.taps[t].pc.save.Check?
    && s.event.template != s.taps[t].event.template && s.taps[t].attendee in s.rows
  }

  function Judged(s: State, t: TapId): State
    requires WillJudge(s, t)
  {
    At(s, t, Dropping(DropDelete, s.taps[t].pc.pass)).(replaced := s.replaced[s.taps[t].pc.pass := t])
  }

  function Remembered(s: State, t: TapId): State
    requires WillJudge(s, t)
  {
    At(Judged(s, t), t, Failing(false)).(rows := s.rows[s.taps[t].attendee
                                           := s.rows[s.taps[t].attendee].(leftBehind := Some(s.taps[t].pc.pass))])
  }

  function GivenUp(s: State, t: TapId): State
    requires WillJudge(s, t)
  {
    var tap := s.taps[t];
    Remembered(s, t).(taps := s.taps[t := tap.(pc := Settled(NoPass), settled := Some(NoPass))],
                      locks := s.locks - {(tap.instance, tap.attendee)})
  }

  lemma JudgesAndFails(s: State, t: TapId)
    requires WillJudge(s, t)
    ensures Apply(s, TapStep(t, Save(CheckEvent))) == Some(Judged(s, t))
    ensures Apply(Judged(s, t), TapStep(t, Drop(DeleteDropped(false, false))))
            == Some(At(Judged(s, t), t, Dropping(DropRemember, s.taps[t].pc.pass)))
  {
    Goes(Judged(s, t), t, Drop(DeleteDropped(false, false)), Dropping(DropRemember, s.taps[t].pc.pass));
  }

  lemma RemembersDropped(s: State, t: TapId)
    requires WillJudge(s, t)
    ensures Apply(At(Judged(s, t), t, Dropping(DropRemember, s.taps[t].pc.pass)),
                  TapStep(t, Drop(RememberDropped(false))))
            == Some(Remembered(s, t))
  {
    var s1 := At(Judged(s, t), t, Dropping(DropRemember, s.taps[t].pc.pass));
    assert At(s1, t, Failing(false)).taps == Remembered(s, t).taps;
  }

  lemma SettlesFailed(s: State, t: TapId)
    requires WillJudge(s, t)
    ensures Apply(Remembered(s, t), TapStep(t, Fail(AbortFailed))) == Some(GivenUp(s, t))
  {
    assert Apply(Remembered(s, t), TapStep(t, Fail(AbortFailed))).value.taps == GivenUp(s, t).taps;
  }

  lemma LeavesBehind(s: State, t: TapId)
    requires WillJudge(s, t)
    ensures Exec(s, ToLeave(t)) == Some(GivenUp(s, t))
  {
    JudgesAndFails(s, t);
    RemembersDropped(s, t);
    SettlesFailed(s, t);
    var s1 := Judged(s, t);
    assert t in s1.taps;
    hide Apply, WillJudge, Judged, Remembered, GivenUp, At;
    TraceRuns([s, s1, At(s1, t, Dropping(DropRemember, s.taps[t].pc.pass)), Remembered(s, t), GivenUp(s, t)],
              ToLeave(t));
  }

  /** A creation during which the event moves to another template, its pass left behind. */
  function Mishap(t: TapId, c: CallId, p: PassId, k: PatchId, fields: Patch): seq<Step> {
    ToReserve(t) + ToCreated(t, c, p) + GuardedSave(k, fields) + ToCheck(t) + ToLeave(t)
  }

  predicate WillMishap(s: State, t: TapId, c: CallId, p: PassId, k: PatchId, fields: Patch) {
    && Undisturbed(s, t, c, p) && !AnyIssued(s) && k !in s.patches
    && fields.template.Some? && fields.template.value != s.event.template
  }

  /** The state in which the event has moved and the tap has its pass in hand. */
  function MovedUnder(s: State, t: TapId, c: CallId, p: PassId, fields: Patch): State
    requires Undisturbed(s, t, c, p)
  {
    ReservedCanCreate(s, t, c, p);
    AfterCreate(AfterReserve(s, t), t, c, p).(event := Patched(s.event, fields))
  }

  lemma CreatedFacts(s: State, t: TapId, c: CallId, p: PassId)
    requires Undisturbed(s, t, c, p) && CanCreate(AfterReserve(s, t), t, c, p)
    ensures var s' := AfterCreate(AfterReserve(s, t), t, c, p); var tap := s.taps[t];
            && s'.taps == s.taps[t := tap.(pc := Saving(Lock, p))] && s'.event == s.event
            && s'.locks == s.locks[(tap.instance, tap.attendee) := t]
            && s'.passes == s.passes[p := Pass(ReservedId(tap.attendee), s.event.template.value,
                                               ExpirationDate(s.event), true)]
            && s'.patches == s.patches && s'.attendees == s.attendees && s'.erasures == s.erasures
            && s'.rows == s.rows[tap.attendee := ReservedRow(s, tap.attendee)]
            && c in s'.calls && s'.calls == s.calls[c := s'.calls[c]]
            && s'.replaced == s.replaced && s'.log == s.log
  {
    hide ReservedRow;
  }

  /** Once the tap has its pass in hand, the save finds its lock free and nothing issued. */
  lemma MishapCanSave(s: State, t: TapId, c: CallId, p: PassId, k: PatchId, fields: Patch)
    requires WillMishap(s, t, c, p, k, fields) && CanCreate(AfterReserve(s, t), t, c, p)
    ensures var s' := AfterCreate(AfterReserve(s, t), t, c, p);
            && k !in s'.patches && AdvisoryFree(s') && !AnyIssued(s')
            && fields.template.Some? && fields.template.value != s'.event.template
  {
    CreatedFacts(s, t, c, p);
    hide AfterReserve, AfterCreate, CanCreate, ExpirationDate;
  }

  lemma MovesUnder(s: State, t: TapId, c: CallId, p: PassId, k: PatchId, fields: Patch)
    requires WillMishap(s, t, c, p, k, fields)
    ensures Exec(s, ToReserve(t) + ToCreated(t, c, p) + GuardedSave(k, fields)) == Some(MovedUnder(s, t, c, p, fields))
  {
    assert t in s.taps && Ready(s, t);
    ReservedCanCreate(s, t, c, p);
    MishapCanSave(s, t, c, p, k, fields);
    var s1 := AfterReserve(s, t);
    var s2 := AfterCreate(s1, t, c, p);
    assert MovedUnder(s, t, c, p, fields) == s2.(event := Patched(s2.event, fields)) by {
      hide AfterReserve, AfterCreate, Patched, WillMishap, Undisturbed;
    }
    hide AfterReserve, AfterCreate, Exec, ToReserve, ToCreated, GuardedSave, Patched, MovedUnder, WillMishap,
         Undisturbed, Ready, CanCreate, AdvisoryFree, AnyIssued;
    ReservesAlone(s, t);
    CreatesAlone(s1, t, c, p);
    ExecAppend(s, ToReserve(t), ToCreated(t, c, p));
    SavesAlone(s2, k, fields);
    ExecAppend(s, ToReserve(t) + ToCreated(t, c, p), GuardedSave(k, fields));
  }

  function AfterMishap(s: State, t: TapId, c: CallId, p: PassId, k: PatchId, fields: Patch): State
    requires WillMishap(s, t, c, p, k, fields)
  {
    MishapJudges(s, t, c, p, k, fields);
    GivenUp(At(MovedUnder(s, t, c, p, fields), t, Saving(Check, p)), t)
  }

  lemma MishapJudges(s: State, t: TapId, c: CallId, p: PassId, k: PatchId, fields: Patch)
    requires WillMishap(s, t, c, p, k, fields)
    ensures var s' := MovedUnder(s, t, c, p, fields);
            t in s'.taps && s'.taps[t].pc == Saving(Lock, p) && CanLock(s', t)
                && WillJudge(At(s', t, Saving(Check, p)), t)
  {
    ReservedCanCreate(s, t, c, p);
    CreatedFacts(s, t, c, p);
    hide AfterReserve, AfterCreate, ReservedRow, ExpirationDate;
  }

  lemma MishapRuns(s: State, t: TapId, c: CallId, p: PassId, k: PatchId, fields: Patch)
    requires WillMishap(s, t, c, p, k, fields)
    ensures Exec(s, Mishap(t, c, p, k, fields)) == Some(AfterMishap(s, t, c, p, k, fields))
  {
    MovesUnder(s, t, c, p, k, fields);
    MishapJudges(s, t, c, p, k, fields);
    var s1 := MovedUnder(s, t, c, p, fields);
    hide MovedUnder, WillMishap, Exec, ToReserve, ToCreated, GuardedSave, ToCheck, ToLeave, CanLock, WillJudge, GivenUp;
    LocksForSave(s1, t);
    LeavesBehind(At(s1, t, Saving(Check, p)), t);
    hide At;
    ExecAppend(s, ToReserve(t) + ToCreated(t, c, p) + GuardedSave(k, fields), ToCheck(t));
    ExecAppend(s, ToReserve(t) + ToCreated(t, c, p) + GuardedSave(k, fields) + ToCheck(t), ToLeave(t));
  }

  lemma GivenUpFacts(s: State, t: TapId, p: PassId)
    requires t in s.taps && WillJudge(At(s, t, Saving(Check, p)), t)
    ensures var s' := GivenUp(At(s, t, Saving(Check, p)), t); var tap := s.taps[t];
            && s'.rows == s.rows[tap.attendee := s.rows[tap.attendee].(leftBehind := Some(p))]
            && s'.taps == s.taps[t := tap.(pc := Settled(NoPass), settled := Some(NoPass))]
            && s'.locks == s.locks - {(tap.instance, tap.attendee)}
            && s'.replaced == s.replaced[p := t] && s'.log == s.log && s'.event == s.event && s'.passes == s.passes
            && s'.patches == s.patches && s'.attendees == s.attendees && s'.erasures == s.erasures
            && s'.calls == s.calls
  {
  }

  lemma MovedFrame(s: State, t: TapId, c: CallId, p: PassId, fields: Patch)
    requires Undisturbed(s, t, c, p)
    ensures var s' := MovedUnder(s, t, c, p, fields); var tap := s.taps[t];
            && s'.taps == s.taps[t := tap.(pc := Saving(Lock, p))]
            && s'.locks == s.locks[(tap.instance, tap.attendee) := t] && (tap.instance, tap.attendee) !in s.locks
            && s'.patches == s.patches && s'.attendees == s.attendees && s'.erasures == s.erasures
            && c in s'.calls && s'.calls == s.calls[c := s'.calls[c]]
            && s'.rows == s.rows[tap.attendee := ReservedRow(s, tap.attendee)] && s'.event == Patched(s.event, fields)
            && s'.passes == s.passes[p := Pass(ReservedId(tap.attendee), s.event.template.value,
                                               ExpirationDate(s.event), true)]
            && s'.replaced == s.replaced && s'.log == s.log
  {
    ReservedCanCreate(s, t, c, p);
    CreatedFacts(s, t, c, p);
    hide AfterReserve, AfterCreate, ReservedRow, ExpirationDate, Patched;
  }

  /** What a mishap leaves: the pass at the provider, its name on the row, ... */
  lemma MishapFacts(s: State, t: TapId, c: CallId, p: PassId, k: PatchId, fields: Patch)
    requires WillMishap(s, t, c, p, k, fields)
    ensures var s' := AfterMishap(s, t, c, p, k, fields); var a := s.taps[t].attendee;
            && s'.rows == s.rows[a := ReservedRow(s, a).(leftBehind := Some(p))]
            && s'.passes == s.passes[p := Pass(ReservedId(a), s.event.template.value, ExpirationDate(s.event), true)]
            && s'.replaced == s.replaced[p := t] && s'.log == s.log && s'.event == Patched(s.event, fields)
  {
    assert Undisturbed(s, t, c, p) && t in s.taps;
    var s1, s2 := MovedUnder(s, t, c, p, fields), AfterMishap(s, t, c, p, k, fields);
    MishapJudges(s, t, c, p, k, fields);
    assert s2 == GivenUp(At(s1, t, Saving(Check, p)), t);
    hide MovedUnder, AfterMishap, GivenUp, At, WillJudge, CanLock, WillMishap, Undisturbed, ReservedRow, ExpirationDate,
         Patched;
    MovedFrame(s, t, c, p, fields);
    GivenUpFacts(s1, t, p);
  }

  /** The pass comes into the tap's hand, then the creation settles: nothing else changes. */
  lemma FrameOfBoth(s: State, s1: State, s2: State, t: TapId, p: PassId)
    requires t in s.taps && (s.taps[t].instance, s.taps[t].attendee) !in s.locks
    requires s1.taps == s.taps[t := s.taps[t].(pc := Saving(Lock, p))]
    requires s1.locks == s.locks[(s.taps[t].instance, s.taps[t].attendee) := t]
    requires s2.taps == s1.taps[t := s1.taps[t].(pc := Settled(NoPass), settled := Some(NoPass))]
    requires s2.locks == s1.locks - {(s1.taps[t].instance, s1.taps[t].attendee)}
    ensures t in s2.taps && s2.taps == s.taps[t := s2.taps[t]] && s2.taps[t].pc == Settled(NoPass)
    ensures s2.locks == s.locks
  {
  }

  /** ... and everything else as before. */
  lemma MishapFrame(s: State, t: TapId, c: CallId, p: PassId, k: PatchId, fields: Patch)
    requires WillMishap(s, t, c, p, k, fields)
    ensures var s' := AfterMishap(s, t, c, p, k, fields); var a := s.taps[t].attendee;
            && t in s'.taps && s'.taps == s.taps[t := s'.taps[t]] && s'.taps[t].pc == Settled(NoPass)
            && s'.locks == s.locks && s'.patches == s.patches && s'.attendees == s.attendees
            && s'.erasures == s.erasures
            && c in s'.calls && s'.calls == s.calls[c := s'.calls[c]]
  {
    assert Undisturbed(s, t, c, p) && t in s.taps;
    var s1, s2 := MovedUnder(s, t, c, p, fields), AfterMishap(s, t, c, p, k, fields);
    MishapJudges(s, t, c, p, k, fields);
    assert s2 == GivenUp(At(s1, t, Saving(Check, p)), t);
    hide MovedUnder, AfterMishap, GivenUp, At, WillJudge, CanLock, WillMishap, Undisturbed;
    MovedFrame(s, t, c, p, fields);
    GivenUpFacts(s1, t, p);
    FrameOfBoth(s, s1, s2, t, p);
  }

  // --------------------------------------------------------------------------------------------- giving up, recovering

  /** The state after the creation of tap `t` has settled without a pass. */
  function NoPassFrom(s: State, t: TapId): State
    requires t in s.taps
  {
    s.(taps := s.taps[t := s.taps[t].(pc := Settled(NoPass), settled := Some(NoPass))],
       locks := s.locks - {(s.taps[t].instance, s.taps[t].attendee)})
  }

  /** The save fails, and so does the question whether the attendee is gone. */
  lemma SaveFails(s: State, t: TapId, p: PassId)
    requires t in s.taps && s.taps[t].event.template.Some? && s.taps[t].pc == Saving(Lock, p)
    ensures Exec(s, [TapStep(t, Save(AbortActive)), TapStep(t, Save(AskGone(true)))]) == Some(NoPassFrom(s, t))
  {
    Goes(s, t, Save(AbortActive), Saving(GoneNow, p));
    var s1 := At(s, t, Saving(GoneNow, p));
    assert Apply(s1, TapStep(t, Save(AskGone(true)))).value.taps == NoPassFrom(s, t).taps;
    TraceRuns([s, s1, NoPassFrom(s, t)], [TapStep(t, Save(AbortActive)), TapStep(t, Save(AskGone(true)))]);
  }

  /** The wait for the provider is given up, and so is the record of the failure. */
  lemma WaitFails(s: State, t: TapId, d: CallId, k: nat)
    requires t in s.taps && s.taps[t].event.template.Some? && s.taps[t].pc == Sending(Updating(d), k)
    ensures Exec(s, [TapStep(t, Send(TimeOut)), TapStep(t, Fail(AbortFailed))]) == Some(NoPassFrom(s, t))
  {
    Goes(s, t, Send(TimeOut), Failing(false));
    var s1 := At(s, t, Failing(false));
    assert Apply(s1, TapStep(t, Fail(AbortFailed))).value.taps == NoPassFrom(s, t).taps;
    TraceRuns([s, s1, NoPassFrom(s, t)], [TapStep(t, Send(TimeOut)), TapStep(t, Fail(AbortFailed))]);
  }

  function ToUpdate(t: TapId, c: CallId, p: PassId, d: CallId): seq<Step> {
    [TapStep(t, Send(SendCreate(c))), WorldStep(Refuse(c, true)), TapStep(t, Send(TakeReply)),
     TapStep(t, Send(Search(Some(p)))),
     TapStep(t, Send(SendUpdate(d)))]
  }

  /** Tap `t` can create, and pass `p`, which an earlier attempt left at the provider, is the one to recover. */
  predicate CanRecover(s: State, t: TapId, c: CallId, p: PassId, d: CallId) {
    && t in s.taps && s.taps[t].event.template.Some?
    && s.taps[t].pc.Sending? && s.taps[t].pc.send.Create? && s.now < s.taps[t].pc.checkedAt + CREATE_PASS_DEADLINE_MS
    && c !in s.calls && d !in s.calls && c != d && p in s.passes
    && s.passes[p].userProvidedId == ReservedId(s.taps[t].attendee)
    && s.passes[p].template == s.taps[t].event.template.value
  }

  /** The creation was rejected as a duplicate. */
  function Rejected(s: State, t: TapId, c: CallId): State
    requires t in s.taps && s.taps[t].event.template.Some? && s.taps[t].pc.Sending?
  {
    s.(calls := s.calls[c := CreateCall(s, t).(reply := Some(Duplicate))])
  }

  function UpdateCall(s: State, t: TapId, p: PassId): Call
    requires t in s.taps && s.taps[t].pc.Sending? && s.taps[t].event.template.Some?
  {
    NewCall(s, t, s.taps[t], UpdatePass(p), s.taps[t].pc.checkedAt)
  }

  /** The state with the update on its way. */
  function Updates(s: State, t: TapId, c: CallId, p: PassId, d: CallId): State
    requires t in s.taps && s.taps[t].event.template.Some? && s.taps[t].pc.Sending?
  {
    var s1 := Rejected(s, t, c);
    At(s1, t, Sending(Updating(d), s.taps[t].pc.checkedAt)).(calls := s1.calls[d := UpdateCall(s, t, p)])
  }

  lemma CreateRejected(s: State, t: TapId, c: CallId, p: PassId, d: CallId)
    requires CanRecover(s, t, c, p, d)
    ensures var k := s.taps[t].pc.checkedAt;
            var s1 := At(s, t, Sending(Creating(c), k)).(calls := s.calls[c := CreateCall(s, t)]);
            && Apply(s, TapStep(t, Send(SendCreate(c)))) == Some(s1)
            && Apply(s1, WorldStep(Refuse(c, true))) == Some(At(Rejected(s, t, c), t, Sending(Creating(c), k)))
  {
    var k := s.taps[t].pc.checkedAt;
    var s1 := At(s, t, Sending(Creating(c), k)).(calls := s.calls[c := CreateCall(s, t)]);
    assert Apply(s1, WorldStep(Refuse(c, true))).value.calls == Rejected(s, t, c).calls;
  }

  lemma Searches(s: State, t: TapId, c: CallId, p: PassId, d: CallId)
    requires CanRecover(s, t, c, p, d)
    ensures var k := s.taps[t].pc.checkedAt; var s1 := Rejected(s, t, c);
            && Apply(At(s1, t, Sending(Creating(c), k)), TapStep(t, Send(TakeReply)))
               == Some(At(s1, t, Sending(Find, k)))
            && Apply(At(s1, t, Sending(Find, k)), TapStep(t, Send(Search(Some(p)))))
               == Some(At(s1, t, Sending(Update(p), k)))
  {
    var k := s.taps[t].pc.checkedAt;
    var s1 := Rejected(s, t, c);
    hide Apply;
    GoesOn(s1, t, Sending(Creating(c), k), Send(TakeReply), Sending(Find, k));
    GoesOn(s1, t, Sending(Find, k), Send(Search(Some(p))), Sending(Update(p), k));
  }

  lemma SendsUpdate(s: State, t: TapId, c: CallId, p: PassId, d: CallId)
    requires CanRecover(s, t, c, p, d)
    ensures Apply(At(Rejected(s, t, c), t, Sending(Update(p), s.taps[t].pc.checkedAt)), TapStep(t, Send(SendUpdate(d))))
            == Some(Updates(s, t, c, p, d))
  {
    var s' := Apply(At(Rejected(s, t, c), t, Sending(Update(p), s.taps[t].pc.checkedAt)),
                    TapStep(t, Send(SendUpdate(d)))).value;
    assert s'.taps == Updates(s, t, c, p, d).taps;
  }

  lemma Recovers(s: State, t: TapId, c: CallId, p: PassId, d: CallId)
    requires CanRecover(s, t, c, p, d)
    ensures Exec(s, ToUpdate(t, c, p, d)) == Some(Updates(s, t, c, p, d))
  {
    CreateRejected(s, t, c, p, d);
    Searches(s, t, c, p, d);
    SendsUpdate(s, t, c, p, d);
    var k := s.taps[t].pc.checkedAt;
    var s1 := At(s, t, Sending(Creating(c), k)).(calls := s.calls[c := CreateCall(s, t)]);
    var r := Rejected(s, t, c);
    assert t in r.taps;
    hide Apply, At, Rejected, Updates, CreateCall, CanRecover;
    TraceRuns([s, s1, At(r, t, Sending(Creating(c), k)), At(r, t, Sending(Find, k)), At(r, t, Sending(Update(p), k)),
               Updates(s, t, c, p, d)], ToUpdate(t, c, p, d));
  }

  // ---------------------------------------------------------------------------------------------- updates take effect

  /** The state after update `d` has taken effect on pass `p`. */
  function UpdateLanded(s: State, d: CallId, p: PassId): State
    requires d in s.calls && p in s.passes
  {
    s.(passes := s.passes[p := s.passes[p].(expiration := s.calls[d].expiration)],
       calls := s.calls[d := s.calls[d].(reply := Some(Result(p)))])
  }

  lemma LandsUpdate(s: State, d: CallId, p: PassId)
    requires d in s.calls && s.calls[d].reply.None? && s.calls[d].kind == UpdatePass(p) && p in s.passes
             && s.passes[p].present
    requires s.now <= s.calls[d].sentAt + s.latency
    ensures Apply(s, WorldStep(Land(d, p))) == Some(UpdateLanded(s, d, p))
  {
  }
}
