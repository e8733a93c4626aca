/** What a tap that nobody disturbs is answered, and what it leaves, told from the row, the attendee and the event it
    finds. */
module WalletAnswers {
  import opened Options
  import opened WalletModel
  import opened WalletRuns

  // ---------------------------------------------------------------------------------------------- what it finds

  /** Tap `t` stands at `pc`, for attendee `a`. */
  predicate Stands(s: State, t: TapId, a: AttendeeId, pc: Pc) {
    t in s.taps && s.taps[t].attendee == a && s.taps[t].pc == pc && s.taps[t].event.template != None
  }

  /** The attendee is there, and no erasure in progress holds their row. */
  predicate There(s: State, a: AttendeeId) {
    a in s.attendees && s.attendees[a] == Live && Unlocked(s, a)
  }

  predicate Unlocked(s: State, a: AttendeeId) {
    !exists e :: e in s.erasures && s.erasures[e].attendee == a && s.erasures[e].locked
  }

  /** The attendee was erased or removed. */
  predicate Left(s: State, a: AttendeeId) {
    !(a in s.attendees && s.attendees[a] == Live)
  }

  /** No tap is between its check and its write, and no settings save past its own lock. */
  predicate TemplateUnlocked(s: State) {
    && (forall u :: u in s.taps && s.taps[u].pc.Saving? ==> s.taps[u].pc.save != Check && !s.taps[u].pc.save.Write?)
    && (forall k :: k in s.patches ==> s.patches[k].phase == Begun)
  }

  /** The row offers pass `p`. */
  predicate Offers(s: State, a: AttendeeId, p: PassId) {
    a in s.rows && s.rows[a].status == Active && s.rows[a].removed == false && s.rows[a].links == Some(p)
  }

  /** The row offers no pass, and none was taken away. */
  predicate Unissued(s: State, a: AttendeeId) {
    a in s.rows ==> (s.rows[a].status == Pending || s.rows[a].status == Failed) && s.rows[a].removed == false
  }

  /** The row with the tap as the one whose device was seen, unless the first confirmation has been recorded. */
  function Seen(rows: map<AttendeeId, Row>, a: AttendeeId, t: TapId): map<AttendeeId, Row> {
    if a in rows && rows[a].confirmed == false then rows[a := rows[a].(device := Some(t))] else rows
  }

  lemma ThreeSteps(s0: State, s1: State, s2: State, s3: State, a: Step, b: Step, c: Step)
    requires Apply(s0, a) == Some(s1) && Apply(s1, b) == Some(s2) && Apply(s2, c) == Some(s3)
    ensures Exec(s0, [a, b, c]) == Some(s3)
  {
    hide Apply, Exec;
    TraceRuns([s0, s1, s2, s3], [a, b, c]);
  }

  lemma FourSteps(s0: State, s1: State, s2: State, s3: State, s4: State, a: Step, b: Step, c: Step, d: Step)
    requires Apply(s0, a) == Some(s1) && Apply(s1, b) == Some(s2) && Apply(s2, c) == Some(s3)
             && Apply(s3, d) == Some(s4)
    ensures Exec(s0, [a, b, c, d]) == Some(s4)
  {
    hide Apply, Exec;
    TraceRuns([s0, s1, s2, s3, s4], [a, b, c, d]);
  }

  // ---------------------------------------------------------------------------------------------- the last steps

  function ToEnd(t: TapId): seq<Step> {
    [TapStep(t, Final(Proceed(true))), TapStep(t, Final(LockToFinish)), TapStep(t, Final(CommitDevice(false)))]
  }

  /** The tap has been redirected to pass `p`, and its device noted. */
  function Redirects(s: State, t: TapId, p: PassId): State
    requires t in s.taps
  {
    At(s, t, Done(ToPass(p))).(rows := Seen(s.rows, s.taps[t].attendee, t))
  }

  lemma GoesToEnd(s: State, t: TapId, a: AttendeeId, p: PassId)
    requires Stands(s, t, a, Settled(Links(p))) && There(s, a)
    ensures Apply(s, TapStep(t, Final(Proceed(true)))) == Some(At(s, t, Finishing(FinalLock, p)))
    ensures Apply(At(s, t, Finishing(FinalLock, p)), TapStep(t, Final(LockToFinish)))
            == Some(At(s, t, Finishing(FinalWrite, p)))
  {
    Goes(s, t, Final(Proceed(true)), Finishing(FinalLock, p));
    GoesOn(s, t, Finishing(FinalLock, p), Final(LockToFinish), Finishing(FinalWrite, p));
  }

  lemma NotesDevice(s: State, t: TapId, a: AttendeeId, p: PassId)
    requires t in s.taps && s.taps[t].attendee == a && s.taps[t].event.template != None
    ensures Apply(At(s, t, Finishing(FinalWrite, p)), TapStep(t, Final(CommitDevice(false))))
            == Some(Redirects(s, t, p))
  {
    var s1 := At(s, t, Finishing(FinalWrite, p));
    var s2 := Apply(s1, TapStep(t, Final(CommitDevice(false)))).value;
    assert s2.taps == Redirects(s, t, p).taps;
    assert s2.locks == s.locks;
  }

  /** A tap whose outcome leads to a pass is redirected to it, when its attendee is there. */
  lemma Ends(s: State, t: TapId, a: AttendeeId, p: PassId)
    requires Stands(s, t, a, Settled(Links(p))) && There(s, a)
    ensures Exec(s, ToEnd(t)) == Some(Redirects(s, t, p))
  {
    GoesToEnd(s, t, a, p);
    NotesDevice(s, t, a, p);
    hide Apply, At, Redirects;
    TraceRuns([s, At(s, t, Finishing(FinalLock, p)), At(s, t, Finishing(FinalWrite, p)), Redirects(s, t, p)], ToEnd(t));
  }

  /** Somebody else, or nobody, is told so at the very end: the attendee left while the tap was on its way. */
  lemma LeftAtTheEnd(s: State, t: TapId, a: AttendeeId, p: PassId)
    requires Stands(s, t, a, Settled(Links(p))) && Left(s, a) && Unlocked(s, a)
    ensures Exec(s, [TapStep(t, Final(Proceed(true))), TapStep(t, Final(LockToFinish))])
            == Some(At(s, t, Done(TicketPage)))
  {
    Goes(s, t, Final(Proceed(true)), Finishing(FinalLock, p));
    GoesOn(s, t, Finishing(FinalLock, p), Final(LockToFinish), Done(TicketPage));
    hide Apply, At;
    TraceRuns([s, At(s, t, Finishing(FinalLock, p)), At(s, t, Done(TicketPage))],
              [TapStep(t, Final(Proceed(true))), TapStep(t, Final(LockToFinish))]);
  }

  /** An outcome without a pass is told at once. */
  lemma Told(s: State, t: TapId, a: AttendeeId, outcome: Outcome)
    requires Stands(s, t, a, Settled(outcome)) && !outcome.Links?
    ensures Apply(s, TapStep(t, Final(Proceed(true))))
            == Some(At(s, t, Done(if outcome == Unavailable then TicketPage else TryAgain)))
  {
    Goes(s, t, Final(Proceed(true)), Done(if outcome == Unavailable then TicketPage else TryAgain));
  }

  // ---------------------------------------------------------------------------------------------- a pass that is there

  /** Every later tap: the row offers a pass, and the tap is redirected to it. No call is sent, no lock taken, and the
      device of an unconfirmed row is all that changes. */
  lemma StoredPassIsHandedOut(s: State, t: TapId, a: AttendeeId, p: PassId)
    requires Stands(s, t, a, Looking) && There(s, a) && Offers(s, a, p)
    ensures Exec(s, [TapStep(t, Entry(LookUp))] + ToEnd(t)) == Some(Redirects(s, t, p))
  {
    var s1 := At(s, t, Settled(Links(p)));
    Goes(s, t, Entry(LookUp), Settled(Links(p)));
    assert Redirects(s1, t, p) == Redirects(s, t, p);
    assert Stands(s1, t, a, Settled(Links(p))) && There(s1, a);
    hide Apply, At, Redirects, ToEnd;
    ExecOne(s, TapStep(t, Entry(LookUp)));
    Ends(s1, t, a, p);
    ExecAppend(s, [TapStep(t, Entry(LookUp))], ToEnd(t));
  }

  /** The state after a creation of tap `t` that wrote nothing settled on `outcome`. */
  function SettledOn(s: State, t: TapId, outcome: Outcome): State
    requires t in s.taps
  {
    s.(taps := s.taps[t := s.taps[t].(pc := Settled(outcome), settled := Some(outcome))])
  }

  lemma BecomesTheCreation(s: State, t: TapId, a: AttendeeId)
    requires Stands(s, t, a, Joining) && (s.taps[t].instance, a) !in s.locks
    ensures Apply(s, TapStep(t, Entry(JoinOrLead))) == Some(At(Leads(s, t), t, Leading(Recheck)))
  {
    assert Apply(s, TapStep(t, Entry(JoinOrLead))).value.taps == At(Leads(s, t), t, Leading(Recheck)).taps;
  }

  /** The creation settles: its lock is free again. */
  lemma Settles(s: State, t: TapId, from: Pc, act: Act, outcome: Outcome)
    requires t in s.taps && s.taps[t].event.template.Some? && InCreation(from)
    requires (s.taps[t].instance, s.taps[t].attendee) !in s.locks
    requires TapEffect(At(Leads(s, t), t, from), t, act) == Some(Effect(Settled(outcome), Nothing))
    ensures Apply(At(Leads(s, t), t, from), TapStep(t, act)) == Some(SettledOn(s, t, outcome))
  {
    hide TapEffect;
    var s' := Apply(At(Leads(s, t), t, from), TapStep(t, act)).value;
    assert s'.taps == SettledOn(s, t, outcome).taps && s'.locks == s.locks;
  }

  lemma RecheckFinds(s: State, t: TapId, a: AttendeeId, p: PassId)
    requires Stands(s, t, a, Joining) && Offers(s, a, p)
    ensures TapEffect(At(Leads(s, t), t, Leading(Recheck)), t, Entry(RecheckRow(false)))
            == Some(Effect(Settled(Links(p)), Nothing))
  {
  }

  lemma FindsSaved(s: State, t: TapId, a: AttendeeId, p: PassId)
    requires Stands(s, t, a, Joining) && Offers(s, a, p) && (s.taps[t].instance, a) !in s.locks
    ensures Exec(s, [TapStep(t, Entry(JoinOrLead)), TapStep(t, Entry(RecheckRow(false)))])
            == Some(SettledOn(s, t, Links(p)))
  {
    var s1, s2 := At(Leads(s, t), t, Leading(Recheck)), SettledOn(s, t, Links(p));
    RecheckFinds(s, t, a, p);
    hide Apply, Exec, TapEffect, Offers;
    BecomesTheCreation(s, t, a);
    Settles(s, t, Leading(Recheck), Entry(RecheckRow(false)), Links(p));
    hide At, Leads, SettledOn;
    TraceRuns([s, s1, s2], [TapStep(t, Entry(JoinOrLead)), TapStep(t, Entry(RecheckRow(false)))]);
  }

  /** A tap that became the creation after another one had saved: it hands out that pass and makes none. */
  lemma SavedMeanwhileIsHandedOut(s: State, t: TapId, a: AttendeeId, p: PassId)
    requires Stands(s, t, a, Joining) && There(s, a) && Offers(s, a, p) && (s.taps[t].instance, a) !in s.locks
    ensures Exec(s, [TapStep(t, Entry(JoinOrLead)), TapStep(t, Entry(RecheckRow(false)))] + ToEnd(t))
            == Some(Redirects(SettledOn(s, t, Links(p)), t, p))
  {
    var s1 := SettledOn(s, t, Links(p));
    FindsSaved(s, t, a, p);
    assert Stands(s1, t, a, Settled(Links(p))) && There(s1, a);
    hide Apply, Redirects, SettledOn, ToEnd, Exec;
    Ends(s1, t, a, p);
    ExecAppend(s, [TapStep(t, Entry(JoinOrLead)), TapStep(t, Entry(RecheckRow(false)))], ToEnd(t));
  }

  /** A tap that finds a creation of its attendee under way on its instance waits for that one. */
  lemma JoinsTheLeader(s: State, t: TapId, a: AttendeeId)
    requires Stands(s, t, a, Joining) && (s.taps[t].instance, a) in s.locks
    ensures Apply(s, TapStep(t, Entry(JoinOrLead))) == Some(At(s, t, Waiting(s.locks[(s.taps[t].instance, a)])))
  {
    Goes(s, t, Entry(JoinOrLead), Waiting(s.locks[(s.taps[t].instance, a)]));
  }

  /** A tap that waited gets what its leader's creation settled on, and with a pass ends there. */
  lemma WaiterFollowsItsLeader(s: State, t: TapId, a: AttendeeId, leader: TapId, outcome: Outcome)
    requires Stands(s, t, a, Waiting(leader)) && There(s, a) && leader in s.taps
             && s.taps[leader].settled == Some(outcome)
    ensures Apply(s, TapStep(t, Entry(Joined))) == Some(At(s, t, Settled(outcome)))
    ensures outcome.Links? ==>
              Exec(s, [TapStep(t, Entry(Joined))] + ToEnd(t)) == Some(Redirects(s, t, outcome.pass))
  {
    var s1 := At(s, t, Settled(outcome));
    Goes(s, t, Entry(Joined), Settled(outcome));
    if outcome.Links? {
      assert Redirects(s1, t, outcome.pass) == Redirects(s, t, outcome.pass);
      assert Stands(s1, t, a, Settled(outcome)) && There(s1, a);
      hide Apply, At, Redirects, ToEnd;
      ExecOne(s, TapStep(t, Entry(Joined)));
      Ends(s1, t, a, outcome.pass);
      ExecAppend(s, [TapStep(t, Entry(Joined))], ToEnd(t));
    }
  }

  // ---------------------------------------------------------------------------------------------- no pass to be had

  /** A pass that was voided, has expired or was removed at the provider: the ticket page, at once. */
  lemma TakenAwayIsNotHandedOut(s: State, t: TapId, a: AttendeeId)
    requires Stands(s, t, a, Looking) && a in s.rows
    requires s.rows[a].removed || s.rows[a].status == Voided || s.rows[a].status == Expired
    ensures Apply(s, TapStep(t, Entry(LookUp))) == Some(At(s, t, Done(TicketPage)))
  {
    Goes(s, t, Entry(LookUp), Done(TicketPage));
  }

  /** An active row without a link, as an erasure leaves it: try again. */
  lemma NoLinkMeansTryAgain(s: State, t: TapId, a: AttendeeId)
    requires Stands(s, t, a, Looking) && a in s.rows && s.rows[a].status == Active && !s.rows[a].removed
             && s.rows[a].links == None
    ensures Exec(s, [TapStep(t, Entry(LookUp)), TapStep(t, Final(Proceed(true)))]) == Some(At(s, t, Done(TryAgain)))
  {
    Goes(s, t, Entry(LookUp), Settled(NoPass));
    GoesOn(s, t, Settled(NoPass), Final(Proceed(true)), Done(TryAgain));
    hide Apply, At;
    TraceRuns([s, At(s, t, Settled(NoPass)), At(s, t, Done(TryAgain))],
              [TapStep(t, Entry(LookUp)), TapStep(t, Final(Proceed(true)))]);
  }

  function ToUnavailable(t: TapId): seq<Step> {
    [TapStep(t, Entry(JoinOrLead)), TapStep(t, Entry(RecheckRow(false))), TapStep(t, Entry(CheckThere)),
     TapStep(t, Final(Proceed(true)))]
  }

  /** The creation settled as unavailable and the tap was shown the ticket page. */
  function ToldUnavailable(s: State, t: TapId): State
    requires t in s.taps
  {
    At(SettledOn(s, t, Unavailable), t, Done(TicketPage))
  }

  lemma FindsTheAttendeeGone(s: State, t: TapId, a: AttendeeId)
    requires Stands(s, t, a, Joining) && Left(s, a) && (s.taps[t].instance, a) !in s.locks
    requires Unissued(s, a)
    ensures var l := Leads(s, t);
            && Apply(At(l, t, Leading(Recheck)), TapStep(t, Entry(RecheckRow(false))))
               == Some(At(l, t, Leading(StillThere)))
            && Apply(At(l, t, Leading(StillThere)), TapStep(t, Entry(CheckThere))) == Some(SettledOn(s, t, Unavailable))
  {
    hide Apply;
    GoesOn(Leads(s, t), t, Leading(Recheck), Entry(RecheckRow(false)), Leading(StillThere));
    Settles(s, t, Leading(StillThere), Entry(CheckThere), Unavailable);
  }

  /** An attendee who left before the reservation: the ticket page, and nothing is written or sent. */
  lemma LeftBeforeTheReservation(s: State, t: TapId, a: AttendeeId)
    requires Stands(s, t, a, Joining) && Left(s, a) && (s.taps[t].instance, a) !in s.locks
    requires Unissued(s, a)
    ensures Exec(s, ToUnavailable(t)) == Some(ToldUnavailable(s, t))
  {
    var l, s3 := Leads(s, t), SettledOn(s, t, Unavailable);
    assert t in l.taps && t in s3.taps;
    assert Stands(s3, t, a, Settled(Unavailable));
    hide Apply, Exec, At, Leads, SettledOn, Left;
    Told(s3, t, a, Unavailable);
    BecomesTheCreation(s, t, a);
    FindsTheAttendeeGone(s, t, a);
    FourSteps(s, At(l, t, Leading(Recheck)), At(l, t, Leading(StillThere)), s3, At(s3, t, Done(TicketPage)),
              TapStep(t, Entry(JoinOrLead)), TapStep(t, Entry(RecheckRow(false))), TapStep(t, Entry(CheckThere)),
              TapStep(t, Final(Proceed(true))));
  }

  // ---------------------------------------------------------------------------------------------- a new pass

  /** Nothing is in the way of a new pass: the row offers none and none was taken away, nobody creates one for the
      attendee on this instance, and no save of a pass or of the settings is between its check and its write. */
  ghost predicate Free(s: State, t: TapId, a: AttendeeId)
    requires t in s.taps
  {
    && There(s, a) && (s.taps[t].instance, a) !in s.locks && s.taps[t].event == s.event
    && Unissued(s, a)
    && TemplateUnlocked(s)
  }

  lemma FreeIsUndisturbed(s: State, t: TapId, a: AttendeeId, c: CallId, p: PassId)
    requires Stands(s, t, a, Looking) && Free(s, t, a) && c !in s.calls && p !in s.passes
    ensures Undisturbed(s, t, c, p)
  {
  }

  /** The row of an attendee who has just got pass `p`, on the device of tap `t`. */
  function NewRow(s: State, t: TapId, a: AttendeeId, p: PassId): Row {
    var ends := if s.event.expires then Some(End(s.event.local, s.event.zone)) else None;
    if a in s.rows then
      var row := s.rows[a];
      Row(Active, Some(p), Some(ReservedId(a)), Some(p), true, ends, if row.confirmed then row.device else Some(t),
          row.confirmed, row.removed, row.leftBehind)
    else Row(Active, Some(p), Some(ReservedId(a)), Some(p), true, ends, Some(t), false, false, None)
  }

  /** What the tap leaves: the one call, the one pass, the row, itself at its end, and nothing else. */
  predicate HandsOutNew(s: State, s': State, t: TapId, a: AttendeeId, c: CallId, p: PassId)
    requires t in s.taps && s.event.template.Some?
  {
    var date := if s.event.expires then Some(s.event.local) else None;
    && s'.calls == s.calls[c := Call(t, a, CreatePass, s.event.template.value, date, s.now, s.now, Some(Result(p)))]
    && s'.passes == s.passes[p := Pass(ReservedId(a), s.event.template.value, date, true)]
    && s'.rows == s.rows[a := NewRow(s, t, a, p)]
    && s'.taps == s.taps[t := s.taps[t].(pc := Done(ToPass(p)), settled := Some(Links(p)))]
    && s' == s.(calls := s'.calls, passes := s'.passes, rows := s'.rows, taps := s'.taps)
  }

  lemma CreatedCall(s: State, t: TapId, a: AttendeeId, c: CallId, p: PassId)
    requires Undisturbed(s, t, c, p) && s.taps[t].attendee == a
    ensures var s' := BeforeCheck(s, t, c, p);
            && s' == s.(calls := s'.calls, passes := s'.passes, rows := s'.rows, taps := s'.taps, locks := s'.locks)
            && c in s'.calls
            && s'.calls[c] == Call(t, a, CreatePass, s.event.template.value,
                                   if s.event.expires then Some(s.event.local) else None, s.now, s.now,
                                   Some(Result(p)))
  {
    ReservedCanCreate(s, t, c, p);
    hide ReservedRow;
  }

  lemma AfterSaveIs(s: State, t: TapId, a: AttendeeId, p: PassId, ends: Option<End>)
    requires t in s.taps && s.taps[t].attendee == a
    ensures var s1 := At(s, t, Saving(Write(ends), p)); var s' := AfterSave(s1, t);
            && s' == s.(rows := s'.rows, taps := s'.taps, locks := s'.locks)
            && s'.taps == s.taps[t := s.taps[t].(pc := Settled(Links(p)), settled := Some(Links(p)))]
            && s'.locks == s.locks - {(s.taps[t].instance, a)} && s'.rows == s.rows[a := ActiveRow(s1, a, p, ends)]
  {
    hide ActiveRow;
  }

  lemma LockIsFree(s: State, t: TapId, a: AttendeeId, c: CallId, p: PassId)
    requires Undisturbed(s, t, c, p) && s.taps[t].attendee == a
    ensures t in s.taps && (s.taps[t].instance, a) !in s.locks
  {
  }

  lemma IssuedState(s: State, t: TapId, a: AttendeeId, c: CallId, p: PassId)
    requires Undisturbed(s, t, c, p) && s.taps[t].attendee == a
    ensures var s' := AfterIssue(s, t, c, p);
            && s'.calls == BeforeCheck(s, t, c, p).calls && s'.passes == BeforeCheck(s, t, c, p).passes
            && s'.taps == s.taps[t := s.taps[t].(pc := Settled(Links(p)), settled := Some(Links(p)))]
            && s'.locks == s.locks
            && s'.rows == s.rows[a := ActiveRow(BeforeWrite(s, t, c, p), a, p, EventEnd(s.event))]
            && s' == s.(calls := s'.calls, passes := s'.passes, rows := s'.rows, taps := s'.taps)
  {
    hide BeforeCheck, Undisturbed, ActiveRow, EventEnd, ReservedRow, ExpirationDate, AfterSave;
    LockIsFree(s, t, a, c, p);
    BeforeCheckFacts(s, t, c, p);
    CreatedCall(s, t, a, c, p);
    var s1 := BeforeCheck(s, t, c, p);
    assert AfterIssue(s, t, c, p) == AfterSave(At(s1, t, Saving(Write(EventEnd(s.event)), p)), t);
    assert BeforeWrite(s, t, c, p) == At(s1, t, Saving(Write(EventEnd(s.event)), p));
    hide AfterIssue, BeforeWrite, At;
    AfterSaveIs(s1, t, a, p, EventEnd(s.event));
  }

  lemma IssuedRow(s: State, t: TapId, a: AttendeeId, c: CallId, p: PassId)
    requires Undisturbed(s, t, c, p) && s.taps[t].attendee == a
    ensures var row := ActiveRow(BeforeWrite(s, t, c, p), a, p, EventEnd(s.event));
            row.confirmed == (a in s.rows && s.rows[a].confirmed)
            && NewRow(s, t, a, p) == if row.confirmed then row else row.(device := Some(t))
  {
    BeforeCheckFacts(s, t, c, p);
    hide BeforeCheck, Undisturbed;
  }

  /** The first tap of an attendee, when nothing is in its way: one call is sent, and the tap is redirected to the one
      new pass, made under the event's template with the event's date and saved on the attendee's row with the event's
      end; nothing else changes. */
  lemma NewPassIsHandedOut(s: State, t: TapId, a: AttendeeId, c: CallId, p: PassId)
    requires Stands(s, t, a, Looking) && Free(s, t, a) && c !in s.calls && p !in s.passes
    ensures s.event.template.Some? && Exec(s, ToIssue(t, c, p) + ToEnd(t)).Some?
    ensures HandsOutNew(s, Exec(s, ToIssue(t, c, p) + ToEnd(t)).value, t, a, c, p)
  {
    FreeIsUndisturbed(s, t, a, c, p);
    assert There(s, a) && t in s.taps && s.event.template.Some?;
    var s1 := AfterIssue(s, t, c, p);
    hide AfterIssue, Undisturbed, Free, Exec, ToIssue, ToEnd, HandsOutNew, Redirects, Apply, Ready;
    ReachesIssue(s, t, c, p);
    RedirectsToNew(s, t, a, c, p);
    Ends(s1, t, a, p);
    ExecAppend(s, ToIssue(t, c, p), ToEnd(t));
  }

  lemma RedirectsToNew(s: State, t: TapId, a: AttendeeId, c: CallId, p: PassId)
    requires Undisturbed(s, t, c, p) && s.taps[t].attendee == a && There(s, a) && s.event.template.Some?
    ensures t in AfterIssue(s, t, c, p).taps && Stands(AfterIssue(s, t, c, p), t, a, Settled(Links(p)))
    ensures There(AfterIssue(s, t, c, p), a)
    ensures HandsOutNew(s, Redirects(AfterIssue(s, t, c, p), t, p), t, a, c, p)
  {
    assert s.taps[t].event.template != None && t in s.taps;
    var s1 := AfterIssue(s, t, c, p);
    var row := ActiveRow(BeforeWrite(s, t, c, p), a, p, EventEnd(s.event));
    hide AfterIssue, BeforeWrite, BeforeCheck, Undisturbed, ActiveRow, NewRow, EventEnd, ReservedRow, HandsOutNew,
         Redirects, Apply;
    IssuedState(s, t, a, c, p);
    IssuedRow(s, t, a, c, p);
    CreatedCall(s, t, a, c, p);
    BeforeCheckFacts(s, t, c, p);
    RedirectedIsNew(s, s1, row, t, a, c, p);
  }

  /** Once the pass is saved as `row`, the redirect adds the device to it. */
  lemma RedirectedIsNew(s: State, s1: State, row: Row, t: TapId, a: AttendeeId, c: CallId, p: PassId)
    requires t in s.taps && s.taps[t].attendee == a && s.event.template.Some?
    requires NewRow(s, t, a, p) == if row.confirmed then row else row.(device := Some(t))
    requires var date := if s.event.expires then Some(s.event.local) else None;
             && s1.calls == s.calls[c := Call(t, a, CreatePass, s.event.template.value, date, s.now, s.now,
                                              Some(Result(p)))]
             && s1.passes == s.passes[p := Pass(ReservedId(a), s.event.template.value, date, true)]
    requires s1.rows == s.rows[a := row]
    requires s1.taps == s.taps[t := s.taps[t].(pc := Settled(Links(p)), settled := Some(Links(p)))]
    requires s1 == s.(calls := s1.calls, passes := s1.passes, rows := s1.rows, taps := s1.taps)
    ensures HandsOutNew(s, Redirects(s1, t, p), t, a, c, p)
  {
    hide NewRow;
  }

  // ---------------------------------------------------------------------------------------------- a pass in hand

  /** The state after the creation of tap `t` settled on `outcome` with this row: its lock is free again. */
  function SettledWith(s: State, t: TapId, outcome: Outcome, rows: map<AttendeeId, Row>): State
    requires t in s.taps
  {
    s.(taps := s.taps[t := s.taps[t].(pc := Settled(outcome), settled := Some(outcome))], rows := rows,
       locks := s.locks - {(s.taps[t].instance, s.taps[t].attendee)})
  }

  /** The tap's event is as the tap read it, and no save of a pass or of the settings is in the way. */
  ghost predicate CanSave(s: State, t: TapId, a: AttendeeId, p: PassId) {
    && Stands(s, t, a, Saving(Lock, p)) && There(s, a) && s.taps[t].event == s.event
    && TemplateUnlocked(s)
  }

  function ToSaved(t: TapId): seq<Step> {
    ToCheck(t) + [TapStep(t, Save(CheckEvent))] + [TapStep(t, Save(CommitActive(false)))]
  }

  /** The row as the save leaves it. */
  function SavedRow(s: State, a: AttendeeId, p: PassId): Row {
    var ends := if s.event.expires then Some(End(s.event.local, s.event.zone)) else None;
    if a in s.rows then
      var row := s.rows[a];
      Row(Active, Some(p), Some(ReservedId(a)), Some(p), true, ends, row.device, row.confirmed, row.removed,
          row.leftBehind)
    else Row(Active, Some(p), Some(ReservedId(a)), Some(p), true, ends, None, false, false, None)
  }

  lemma SavedState(s: State, t: TapId, a: AttendeeId, p: PassId)
    requires Stands(s, t, a, Saving(Lock, p))
    ensures AfterSave(At(s, t, Saving(Write(EventEnd(s.event)), p)), t)
            == SettledWith(s, t, Links(p), s.rows[a := SavedRow(s, a, p)])
  {
    var s2 := At(s, t, Saving(Write(EventEnd(s.event)), p));
    assert AfterSave(s2, t).taps == SettledWith(s, t, Links(p), s.rows[a := SavedRow(s, a, p)]).taps;
  }

  lemma SaveSteps(s: State, t: TapId, a: AttendeeId, p: PassId)
    requires CanSave(s, t, a, p)
    ensures var s1, s2 := At(s, t, Saving(Check, p)), At(s, t, Saving(Write(EventEnd(s.event)), p));
            && Exec(s, ToCheck(t)) == Some(s1) && Apply(s1, TapStep(t, Save(CheckEvent))) == Some(s2)
            && Apply(s2, TapStep(t, Save(CommitActive(false)))) == Some(AfterSave(s2, t))
  {
    var s1, s2 := At(s, t, Saving(Check, p)), At(s, t, Saving(Write(EventEnd(s.event)), p));
    CanSaveFacts(s, t, a, p);
    hide Apply, Exec, ToCheck, AfterSave, CanSave, CanLock, EventEnd, At, ExpirationDate;
    LocksForSave(s, t);
    PassesCheck(s1, t);
    Commits(s2, t);
  }

  lemma CanSaveFacts(s: State, t: TapId, a: AttendeeId, p: PassId)
    requires CanSave(s, t, a, p)
    ensures CanLock(s, t) && s.taps[t].pc.pass == p
    ensures var s1, s2 := At(s, t, Saving(Check, p)), At(s, t, Saving(Write(EventEnd(s.event)), p));
            && t in s1.taps && s1.taps[t].event == s1.event && s1.event == s.event && s1.taps[t].event.template.Some?
            && s1.taps[t].pc == Saving(Check, p) && s2 == At(s1, t, Saving(Write(EventEnd(s.event)), p))
            && t in s2.taps && s2.taps[t].event.template.Some? && s2.taps[t].pc == Saving(Write(EventEnd(s.event)), p)
  {
    hide EventEnd;
  }

  lemma SavesInHand(s: State, t: TapId, a: AttendeeId, p: PassId)
    requires CanSave(s, t, a, p)
    ensures Exec(s, ToSaved(t)) == Some(SettledWith(s, t, Links(p), s.rows[a := SavedRow(s, a, p)]))
  {
    assert Stands(s, t, a, Saving(Lock, p));
    var s1, s2 := At(s, t, Saving(Check, p)), At(s, t, Saving(Write(EventEnd(s.event)), p));
    assert s2.taps[t].pc == Saving(Write(EventEnd(s.event)), p) && t in s2.taps;
    hide Apply, Exec, ToCheck, AfterSave, SettledWith, CanSave, SavedRow, EventEnd, At;
    SaveSteps(s, t, a, p);
    SavedState(s, t, a, p);
    Then(s, ToCheck(t), s1, TapStep(t, Save(CheckEvent)), s2);
    Then(s, ToCheck(t) + [TapStep(t, Save(CheckEvent))], s2, TapStep(t, Save(CommitActive(false))), AfterSave(s2, t));
  }

  /** However the pass came into its hand, made or recovered: the tap saves it on the row and is redirected to it. */
  lemma PassInHandIsHandedOut(s: State, t: TapId, a: AttendeeId, p: PassId)
    requires CanSave(s, t, a, p)
    ensures Exec(s, ToSaved(t) + ToEnd(t))
            == Some(Redirects(SettledWith(s, t, Links(p), s.rows[a := SavedRow(s, a, p)]), t, p))
  {
    var s1 := SettledWith(s, t, Links(p), s.rows[a := SavedRow(s, a, p)]);
    assert Stands(s1, t, a, Settled(Links(p))) && There(s1, a);
    hide Apply, Exec, ToSaved, ToEnd, SettledWith, CanSave, Redirects, SavedRow;
    SavesInHand(s, t, a, p);
    Ends(s1, t, a, p);
    ExecAppend(s, ToSaved(t), ToEnd(t));
  }

  // ---------------------------------------------------------------------------------------------- a failed creation

  /** The row as a failed creation leaves it: an active row is not touched. */
  function FailureNoted(rows: map<AttendeeId, Row>, a: AttendeeId): map<AttendeeId, Row> {
    if a !in rows then rows[a := Row(Failed, None, None, None, false, None, None, false, false, None)]
    else if rows[a].status == Active then rows
    else rows[a := rows[a].(status := Failed)]
  }

  function ToFailed(t: TapId): seq<Step> {
    [TapStep(t, Fail(LockToFail)), TapStep(t, Fail(CommitFailed)), TapStep(t, Final(Proceed(true)))]
  }

  function ToldToTryAgain(s: State, t: TapId, rows: map<AttendeeId, Row>): State
    requires t in s.taps
  {
    At(SettledWith(s, t, NoPass, rows), t, Done(TryAgain))
  }

  lemma NotesFailure(s: State, t: TapId, a: AttendeeId)
    requires Stands(s, t, a, Failing(false)) && There(s, a)
    ensures Apply(s, TapStep(t, Fail(LockToFail))) == Some(At(s, t, Failing(true)))
    ensures Apply(At(s, t, Failing(true)), TapStep(t, Fail(CommitFailed)))
            == Some(SettledWith(s, t, NoPass, FailureNoted(s.rows, a)))
  {
    Goes(s, t, Fail(LockToFail), Failing(true));
    var s' := Apply(At(s, t, Failing(true)), TapStep(t, Fail(CommitFailed))).value;
    assert s'.rows == FailureNoted(s.rows, a);
    assert s'.taps == SettledWith(s, t, NoPass, FailureNoted(s.rows, a)).taps;
  }

  /** A creation that failed is noted on the row, and the tap is told to try again. */
  lemma FailureIsNoted(s: State, t: TapId, a: AttendeeId)
    requires Stands(s, t, a, Failing(false)) && There(s, a)
    ensures Exec(s, ToFailed(t)) == Some(ToldToTryAgain(s, t, FailureNoted(s.rows, a)))
  {
    var s1, s2 := At(s, t, Failing(true)), SettledWith(s, t, NoPass, FailureNoted(s.rows, a));
    var s3 := ToldToTryAgain(s, t, FailureNoted(s.rows, a));
    hide Apply, Exec, FailureNoted, There;
    assert Stands(s2, t, a, Settled(NoPass)) && s3 == At(s2, t, Done(TryAgain));
    hide At, SettledWith, ToldToTryAgain, Stands;
    Told(s2, t, a, NoPass);
    NotesFailure(s, t, a);
    ThreeSteps(s, s1, s2, s3, TapStep(t, Fail(LockToFail)), TapStep(t, Fail(CommitFailed)),
               TapStep(t, Final(Proceed(true))));
  }

  /** What leads there: a rejection by the provider, an answer that does not come, a search that finds nothing, and an
      event whose date has moved since the tap read it. */
  lemma WhatFails(s: State, t: TapId, a: AttendeeId, pc: Pc, act: Act)
    requires Stands(s, t, a, pc)
    requires || (exists c, k :: pc == Sending(Creating(c), k) && act == Send(TakeReply) && c in s.calls
                                && s.calls[c].reply == Some(Rejected))
             || (exists c, k :: pc == Sending(Updating(c), k) && act == Send(TakeReply) && c in s.calls
                                && s.calls[c].reply in {Some(Rejected), Some(Duplicate)})
             || (exists c, k :: pc in {Sending(Creating(c), k), Sending(Updating(c), k)} && act == Send(TimeOut))
             || (exists k :: pc == Sending(Find, k) && act == Send(Search(None)))
             || (exists p :: && pc == Saving(Check, p) && act == Save(CheckEvent)
                             && s.event.template == s.taps[t].event.template
                             && (if s.event.expires then Some(s.event.local) else None)
                                != (if s.taps[t].event.expires then Some(s.taps[t].event.local) else None))
    ensures Apply(s, TapStep(t, act)) == Some(At(s, t, Failing(false)))
  {
    Goes(s, t, act, Failing(false));
  }

  // -------------------------------------------------------------------------------------------- a pass nobody may have

  /** The provider no longer has the pass. */
  function Deleted(passes: map<PassId, Pass>, p: PassId): map<PassId, Pass> {
    if p in passes then passes[p := passes[p].(present := false)] else passes
  }

  function ToDropped(t: TapId): seq<Step> {
    [TapStep(t, Save(CheckEvent)), TapStep(t, Drop(DeleteDropped(true, true))), TapStep(t, Final(Proceed(true)))]
  }

  /** The tap has judged the pass it has in hand. */
  function Outdated(s: State, t: TapId, p: PassId): State
    requires t in s.taps
  {
    At(s, t, Dropping(DropDelete, p)).(replaced := s.replaced[p := t])
  }

  /** The creation settled without a pass, and the one the tap had in hand is deleted. */
  function Dropped(s: State, t: TapId, p: PassId): State
    requires t in s.taps
  {
    SettledWith(s, t, NoPass, s.rows).(passes := Deleted(s.passes, p), replaced := s.replaced[p := t])
  }

  lemma JudgesOutdated(s: State, t: TapId, a: AttendeeId, p: PassId)
    requires Stands(s, t, a, Saving(Check, p)) && s.event.template != s.taps[t].event.template
    ensures Apply(s, TapStep(t, Save(CheckEvent))) == Some(Outdated(s, t, p))
  {
  }

  lemma DropsOutdated(s: State, t: TapId, a: AttendeeId, p: PassId)
    requires Stands(s, t, a, Saving(Check, p))
    ensures Apply(Outdated(s, t, p), TapStep(t, Drop(DeleteDropped(true, true)))) == Some(Dropped(s, t, p))
  {
    var s' := Apply(Outdated(s, t, p), TapStep(t, Drop(DeleteDropped(true, true)))).value;
    assert s'.taps == Dropped(s, t, p).taps;
  }

  /** A pass whose template the event has left meanwhile is deleted, the row is not written, and the tap is told to try
      again. */
  lemma OutdatedPassIsDeleted(s: State, t: TapId, a: AttendeeId, p: PassId)
    requires Stands(s, t, a, Saving(Check, p)) && s.event.template != s.taps[t].event.template
    ensures Exec(s, ToDropped(t)) == Some(At(Dropped(s, t, p), t, Done(TryAgain)))
  {
    var s2 := Dropped(s, t, p);
    hide Apply, Exec;
    assert Stands(s2, t, a, Settled(NoPass));
    hide At, Outdated, Dropped, Stands;
    Told(s2, t, a, NoPass);
    JudgesOutdated(s, t, a, p);
    DropsOutdated(s, t, a, p);
    ThreeSteps(s, Outdated(s, t, p), s2, At(s2, t, Done(TryAgain)), TapStep(t, Save(CheckEvent)),
               TapStep(t, Drop(DeleteDropped(true, true))), TapStep(t, Final(Proceed(true))));
  }

  // ---------------------------------------------------------------------------------------------- an attendee who left

  /** The row of an attendee who left, with the ids of the pass that was made for them all the same, if it had none. */
  function OrphanNoted(s: State, a: AttendeeId, p: PassId): map<AttendeeId, Row> {
    if a in s.rows then
      if s.rows[a].passId == None
      then s.rows[a := s.rows[a].(passId := Some(p), userProvidedId := Some(ReservedId(a)), removed := false)]
      else s.rows
    else if a in s.attendees
    then s.rows[a := Row(Active, Some(p), Some(ReservedId(a)), None, true, None, None, false, false, None)]
    else s.rows
  }

  function ToNoted(s: State, t: TapId, a: AttendeeId): seq<Step> {
    [TapStep(t, Save(LockToSave)), TapStep(t, Orphan(InsertRow))]
    + if a in s.rows then [TapStep(t, Orphan(FillRow))] else []
  }

  /** The pass is on record before it is deleted. */
  function NotedOrphan(s: State, t: TapId, a: AttendeeId, p: PassId): State
    requires t in s.taps
  {
    At(s, t, Orphaned(Delete, p)).(rows := OrphanNoted(s, a, p))
  }

  lemma SameNotes(s: State, t: TapId, a: AttendeeId, p: PassId)
    requires Stands(s, t, a, Saving(Lock, p))
    ensures var s1 := At(s, t, Orphaned(Insert, p));
            && Stands(s1, t, a, Orphaned(Insert, p)) && s1.rows == s.rows
            && NotedOrphan(s1, t, a, p) == NotedOrphan(s, t, a, p)
            && At(s1, t, Orphaned(Fill, p)) == At(s, t, Orphaned(Fill, p))
  {
  }

  lemma FindsTheOwnerGone(s: State, t: TapId, a: AttendeeId, p: PassId)
    requires Stands(s, t, a, Saving(Lock, p)) && Left(s, a) && Unlocked(s, a)
    ensures Apply(s, TapStep(t, Save(LockToSave))) == Some(At(s, t, Orphaned(Insert, p)))
  {
    Goes(s, t, Save(LockToSave), Orphaned(Insert, p));
  }

  lemma NotesOrphan(s: State, t: TapId, a: AttendeeId, p: PassId)
    requires Stands(s, t, a, Orphaned(Insert, p)) && a !in s.rows
    ensures Apply(s, TapStep(t, Orphan(InsertRow))) == Some(NotedOrphan(s, t, a, p))
  {
    assert Apply(s, TapStep(t, Orphan(InsertRow))).value.taps == NotedOrphan(s, t, a, p).taps;
  }

  lemma FillsOrphan(s: State, t: TapId, a: AttendeeId, p: PassId)
    requires Stands(s, t, a, Orphaned(Insert, p)) && a in s.rows
    ensures Apply(s, TapStep(t, Orphan(InsertRow))) == Some(At(s, t, Orphaned(Fill, p)))
    ensures Apply(At(s, t, Orphaned(Fill, p)), TapStep(t, Orphan(FillRow))) == Some(NotedOrphan(s, t, a, p))
  {
    Goes(s, t, Orphan(InsertRow), Orphaned(Fill, p));
    var s' := Apply(At(s, t, Orphaned(Fill, p)), TapStep(t, Orphan(FillRow))).value;
    assert s'.taps == NotedOrphan(s, t, a, p).taps && s'.rows == OrphanNoted(s, a, p);
  }

  /** A pass made for an attendee who left before it could be saved: it is not saved, its ids go on the row, so that the
      erasure's follow-up knows it. */
  lemma OrphanIsNoted(s: State, t: TapId, a: AttendeeId, p: PassId)
    requires Stands(s, t, a, Saving(Lock, p)) && Left(s, a) && Unlocked(s, a)
    ensures Exec(s, ToNoted(s, t, a)) == Some(NotedOrphan(s, t, a, p))
  {
    var s1 := At(s, t, Orphaned(Insert, p));
    SameNotes(s, t, a, p);
    hide Apply, Exec, At, NotedOrphan, Left;
    FindsTheOwnerGone(s, t, a, p);
    if a in s.rows {
      FillsOrphan(s1, t, a, p);
      TraceRuns([s, s1, At(s, t, Orphaned(Fill, p)), NotedOrphan(s, t, a, p)], ToNoted(s, t, a));
    } else {
      NotesOrphan(s1, t, a, p);
      TraceRuns([s, s1, NotedOrphan(s, t, a, p)], ToNoted(s, t, a));
    }
  }

  /** It is then deleted at the provider, and the tap is shown the ticket page. */
  lemma OrphanIsDeleted(s: State, t: TapId, a: AttendeeId, p: PassId)
    requires Stands(s, t, a, Orphaned(Delete, p))
    ensures var gone := SettledWith(s, t, Unavailable, s.rows).(passes := Deleted(s.passes, p));
            && Apply(s, TapStep(t, Orphan(DeleteOrphan(true, true)))) == Some(gone)
            && Apply(gone, TapStep(t, Final(Proceed(true)))) == Some(At(gone, t, Done(TicketPage)))
  {
    var gone := SettledWith(s, t, Unavailable, s.rows).(passes := Deleted(s.passes, p));
    assert Apply(s, TapStep(t, Orphan(DeleteOrphan(true, true)))).value.taps == gone.taps;
    assert Stands(gone, t, a, Settled(Unavailable));
    hide Apply, At, SettledWith;
    Told(gone, t, a, Unavailable);
  }
}
