/** What a tap does when something goes wrong on its way: a database that fails before or after a commit, a provider
    that already has a pass, or does not delete one. */
module WalletFaults {
  import opened Options
  import opened WalletModel
  import opened WalletRuns
  import opened WalletAnswers

  // ---------------------------------------------------------------------------------------------- the database fails

  /** The creation settles: its lock is free, its outcome is there for who waits. */
  lemma SettlesFrom(s: State, t: TapId, act: Act, outcome: Outcome)
    requires t in s.taps && s.taps[t].event.template.Some? && InCreation(s.taps[t].pc)
    requires TapEffect(s, t, act) == Some(Effect(Settled(outcome), Nothing))
    ensures Apply(s, TapStep(t, act)) == Some(SettledWith(s, t, outcome, s.rows))
  {
    hide TapEffect;
    assert Apply(s, TapStep(t, act)).value.taps == SettledWith(s, t, outcome, s.rows).taps;
  }

  /** A read that fails before the reservation, a reservation that does not commit, a failure that cannot be noted, and
      a save after which not even the attendee can be read: the creation settles without a pass, having written
      nothing. */
  lemma FailuresSettleWithoutAPass(s: State, t: TapId, a: AttendeeId, pc: Pc, act: Act)
    requires Stands(s, t, a, pc)
    requires || (pc in {Leading(Recheck), Leading(StillThere)} && act == Entry(ReadFails))
             || (pc in {Leading(ReserveLock), Leading(ReserveClock)} && act == Reserve(AbortReserve))
             || ((exists k :: pc == Reserving(k)) && act == Reserve(AbortReserve))
             || (pc in {Failing(false), Failing(true)} && act == Fail(AbortFailed))
             || ((exists p :: pc == Saving(GoneNow, p)) && act == Save(AskGone(true)))
    ensures Apply(s, TapStep(t, act)) == Some(SettledWith(s, t, NoPass, s.rows))
  {
    SettlesFrom(s, t, act, NoPass);
  }

  /** A failure is not noted for an attendee who left. */
  lemma NoFailureForWhoLeft(s: State, t: TapId, a: AttendeeId)
    requires Stands(s, t, a, Failing(false)) && Left(s, a) && Unlocked(s, a)
    ensures Apply(s, TapStep(t, Fail(LockToFail))) == Some(SettledWith(s, t, NoPass, s.rows))
  {
    SettlesFrom(s, t, Fail(LockToFail), NoPass);
  }

  /** The row with the id its pass will be made under. */
  function ReservedRows(s: State, a: AttendeeId): map<AttendeeId, Row> {
    if a in s.rows then s.rows[a := s.rows[a].(userProvidedId := Some(ReservedId(a)))]
    else s.rows[a := Row(Pending, None, Some(ReservedId(a)), None, false, None, None, false, false, None)]
  }

  /** A reservation that commits without the tap hearing of it: the id is on the row, and nothing is sent. */
  lemma UnheardReservation(s: State, t: TapId, a: AttendeeId, k: nat)
    requires Stands(s, t, a, Reserving(k))
    ensures Apply(s, TapStep(t, Reserve(CommitReserve(true)))) == Some(SettledWith(s, t, NoPass, ReservedRows(s, a)))
  {
    var s' := Apply(s, TapStep(t, Reserve(CommitReserve(true)))).value;
    assert s'.rows == ReservedRows(s, a) && s'.taps == SettledWith(s, t, NoPass, ReservedRows(s, a)).taps;
  }

  /** A save that does not commit, or commits without the tap hearing of it: the tap asks whether the attendee left. For
      who is there it settles without a pass, for who left the pass it has in hand is an orphan. */
  lemma UnheardSave(s: State, t: TapId, a: AttendeeId, p: PassId)
    requires Stands(s, t, a, Saving(Lock, p)) || Stands(s, t, a, Saving(Advisory, p))
             || Stands(s, t, a, Saving(Check, p))
             || exists ends :: Stands(s, t, a, Saving(Write(ends), p))
    ensures Apply(s, TapStep(t, Save(AbortActive))) == Some(At(s, t, Saving(GoneNow, p)))
    ensures There(s, a) ==>
              Apply(At(s, t, Saving(GoneNow, p)), TapStep(t, Save(AskGone(false))))
              == Some(SettledWith(s, t, NoPass, s.rows))
    ensures Left(s, a) && Unlocked(s, a) ==>
              Apply(At(s, t, Saving(GoneNow, p)), TapStep(t, Save(AskGone(false))))
                  == Some(At(s, t, Orphaned(Insert, p)))
  {
    Goes(s, t, Save(AbortActive), Saving(GoneNow, p));
    AsksWhoLeft(s, t, a, p);
  }

  lemma AsksWhoLeft(s: State, t: TapId, a: AttendeeId, p: PassId)
    requires t in s.taps && s.taps[t].attendee == a && s.taps[t].event.template != None
    ensures There(s, a) ==>
              Apply(At(s, t, Saving(GoneNow, p)), TapStep(t, Save(AskGone(false))))
              == Some(SettledWith(s, t, NoPass, s.rows))
    ensures Left(s, a) && Unlocked(s, a) ==>
              Apply(At(s, t, Saving(GoneNow, p)), TapStep(t, Save(AskGone(false))))
                  == Some(At(s, t, Orphaned(Insert, p)))
  {
    var s1 := At(s, t, Saving(GoneNow, p));
    assert SettledWith(s1, t, NoPass, s1.rows) == SettledWith(s, t, NoPass, s.rows);
    assert At(s1, t, Orphaned(Insert, p)) == At(s, t, Orphaned(Insert, p));
    hide Apply, SettledWith;
    if There(s, a) {
      SettlesFrom(s1, t, Save(AskGone(false)), NoPass);
    } else if Left(s, a) && Unlocked(s, a) {
      Goes(s1, t, Save(AskGone(false)), Orphaned(Insert, p));
    }
  }

  lemma UnheardWrite(s: State, t: TapId, a: AttendeeId, p: PassId)
    requires Stands(s, t, a, Saving(Write(EventEnd(s.event)), p))
    ensures Apply(s, TapStep(t, Save(CommitActive(true))))
            == Some(At(s, t, Saving(GoneNow, p)).(rows := s.rows[a := SavedRow(s, a, p)]))
  {
    var s' := Apply(s, TapStep(t, Save(CommitActive(true)))).value;
    assert s'.rows == s.rows[a := SavedRow(s, a, p)] && s'.taps == At(s, t, Saving(GoneNow, p)).taps;
  }

  /** The last transaction fails, or its answer is lost: the attendee is read once more. Who is there is redirected all
      the same, who left gets the ticket page, and when that read fails too the tap is told to try again. */
  lemma LastCheckIsRepeated(s: State, t: TapId, a: AttendeeId, p: PassId)
    requires Stands(s, t, a, Finishing(FinalLock, p)) || Stands(s, t, a, Finishing(FinalWrite, p))
    ensures Apply(s, TapStep(t, Final(AbortFinish))) == Some(At(s, t, Finishing(FinalAgain, p)))
    ensures s.taps[t].pc == Finishing(FinalWrite, p) ==>
              Apply(s, TapStep(t, Final(CommitDevice(true))))
              == Some(At(s, t, Finishing(FinalAgain, p)).(rows := Seen(s.rows, a, t)))
  {
    Goes(s, t, Final(AbortFinish), Finishing(FinalAgain, p));
    if s.taps[t].pc == Finishing(FinalWrite, p) {
      var s' := Apply(s, TapStep(t, Final(CommitDevice(true)))).value;
      assert s'.taps == At(s, t, Finishing(FinalAgain, p)).taps && s'.rows == Seen(s.rows, a, t);
    }
  }

  lemma AfterTheRepeatedCheck(s: State, t: TapId, a: AttendeeId, p: PassId)
    requires Stands(s, t, a, Finishing(FinalAgain, p))
    ensures There(s, a) ==> Apply(s, TapStep(t, Final(CheckAgain(false)))) == Some(At(s, t, Done(ToPass(p))))
    ensures Left(s, a) && Unlocked(s, a) ==>
              Apply(s, TapStep(t, Final(CheckAgain(false)))) == Some(At(s, t, Done(TicketPage)))
    ensures Apply(s, TapStep(t, Final(CheckAgain(true)))) == Some(At(s, t, Done(TryAgain)))
  {
    Goes(s, t, Final(CheckAgain(true)), Done(TryAgain));
    if There(s, a) { Goes(s, t, Final(CheckAgain(false)), Done(ToPass(p))); }
    else if Unlocked(s, a) { Goes(s, t, Final(CheckAgain(false)), Done(TicketPage)); }
  }

  // ---------------------------------------------------------------------------------------- too late, or nothing there

  /** The first read fails, or the pass has no link for this platform: the tap is told to try again. */
  lemma NothingToShow(s: State, t: TapId, a: AttendeeId, p: PassId)
    ensures Stands(s, t, a, Looking) ==> Apply(s, TapStep(t, Entry(LookUpFails))) == Some(At(s, t, Done(TryAgain)))
    ensures Stands(s, t, a, Settled(Links(p))) ==>
              Apply(s, TapStep(t, Final(Proceed(false)))) == Some(At(s, t, Done(TryAgain)))
  {
    if Stands(s, t, a, Looking) { Goes(s, t, Entry(LookUpFails), Done(TryAgain)); }
    if Stands(s, t, a, Settled(Links(p))) { Goes(s, t, Final(Proceed(false)), Done(TryAgain)); }
  }

  /** The creation comes too late: the event is over by the recheck, or the pass was voided, has expired or was removed
      since the first read. */
  lemma ClosedMeanwhile(s: State, t: TapId, a: AttendeeId, closed: bool)
    requires Stands(s, t, a, Leading(Recheck))
    requires closed || (a in s.rows && (s.rows[a].removed || s.rows[a].status == Voided || s.rows[a].status == Expired))
    ensures Apply(s, TapStep(t, Entry(RecheckRow(closed)))) == Some(SettledWith(s, t, Unavailable, s.rows))
  {
    SettlesFrom(s, t, Entry(RecheckRow(closed)), Unavailable);
  }

  /** The attendee leaves before the reservation has their row. */
  lemma LeftBeforeTheLock(s: State, t: TapId, a: AttendeeId)
    requires Stands(s, t, a, Leading(ReserveLock)) && Left(s, a) && Unlocked(s, a)
    ensures Apply(s, TapStep(t, Reserve(LockToReserve))) == Some(SettledWith(s, t, Unavailable, s.rows))
  {
    SettlesFrom(s, t, Reserve(LockToReserve), Unavailable);
  }

  /** Two minutes after the check nothing is sent any more: the creation fails. */
  lemma NothingIsSentLate(s: State, t: TapId, a: AttendeeId, c: CallId, p: PassId, k: nat)
    requires s.now >= k + 120_000
    ensures Stands(s, t, a, Sending(Create, k)) ==>
              && Apply(s, TapStep(t, Send(SendCreate(c)))) == None
              && Apply(s, TapStep(t, Send(DropSend))) == Some(At(s, t, Failing(false)))
    ensures Stands(s, t, a, Sending(Update(p), k)) ==>
              && Apply(s, TapStep(t, Send(SendUpdate(c)))) == None
              && Apply(s, TapStep(t, Send(DropSend))) == Some(At(s, t, Failing(false)))
  {
    if Stands(s, t, a, Sending(Create, k)) || Stands(s, t, a, Sending(Update(p), k)) {
      Goes(s, t, Send(DropSend), Failing(false));
    }
  }

  // ---------------------------------------------------------------------------------------------- an earlier pass

  /** The provider has a pass under the attendee's id already: the tap finds it, if it is of the template it read, and
      sends it this request's own data, under the check and the deadline of the creation that was rejected. */
  lemma DuplicateIsUpdated(s: State, t: TapId, a: AttendeeId, c: CallId, d: CallId, p: PassId, k: nat)
    requires Stands(s, t, a, Sending(Creating(c), k)) && c in s.calls && s.calls[c].reply == Some(Duplicate)
    requires p in s.passes && s.passes[p].userProvidedId == ReservedId(a)
             && Some(s.passes[p].template) == s.taps[t].event.template
    requires d !in s.calls && s.now < k + 120_000
    ensures var event := s.taps[t].event;
            var date := if event.expires then Some(event.local) else None;
            var update := Call(t, a, UpdatePass(p), s.passes[p].template, date, k, s.now, None);
            && Apply(s, TapStep(t, Send(TakeReply))) == Some(At(s, t, Sending(Find, k)))
            && Apply(At(s, t, Sending(Find, k)), TapStep(t, Send(Search(Some(p)))))
               == Some(At(s, t, Sending(Update(p), k)))
            && Apply(At(s, t, Sending(Update(p), k)), TapStep(t, Send(SendUpdate(d))))
               == Some(At(s, t, Sending(Updating(d), k)).(calls := s.calls[d := update]))
  {
    Goes(s, t, Send(TakeReply), Sending(Find, k));
    GoesOn(s, t, Sending(Find, k), Send(Search(Some(p))), Sending(Update(p), k));
    var s' := Apply(At(s, t, Sending(Update(p), k)), TapStep(t, Send(SendUpdate(d)))).value;
    assert s'.taps == At(s, t, Sending(Updating(d), k)).taps;
  }

  /** An answer with a pass puts that pass into the tap's hand, whether it was made or updated. */
  lemma AnswerIsTaken(s: State, t: TapId, a: AttendeeId, c: CallId, p: PassId, k: nat)
    requires Stands(s, t, a, Sending(Creating(c), k)) || Stands(s, t, a, Sending(Updating(c), k))
    requires c in s.calls && s.calls[c].reply == Some(Result(p))
    ensures Apply(s, TapStep(t, Send(TakeReply))) == Some(At(s, t, Saving(Lock, p)))
  {
    Goes(s, t, Send(TakeReply), Saving(Lock, p));
  }

  // ---------------------------------------------------------------------------------------------- a delete that fails

  /** The orphan's row cannot be written, or its delete is not confirmed: the tap looks whether the credentials are
      still those the pass was made under. */
  lemma OrphanStays(s: State, t: TapId, a: AttendeeId, p: PassId, applied: bool)
    requires Stands(s, t, a, Orphaned(Delete, p))
    ensures Apply(s, TapStep(t, Orphan(DeleteOrphan(applied, false))))
            == Some(At(s, t, Orphaned(Credentials, p)).(passes := if applied then Deleted(s.passes, p) else s.passes))
  {
    var s' := Apply(s, TapStep(t, Orphan(DeleteOrphan(applied, false)))).value;
    assert s'.taps == At(s, t, Orphaned(Credentials, p)).taps;
  }

  lemma OrphanWithoutARow(s: State, t: TapId, a: AttendeeId, p: PassId)
    requires Stands(s, t, a, Orphaned(Insert, p)) || Stands(s, t, a, Orphaned(Fill, p))
    ensures Apply(s, TapStep(t, Orphan(RowFails))) == Some(At(s, t, Orphaned(Credentials, p)))
  {
    Goes(s, t, Orphan(RowFails), Orphaned(Credentials, p));
  }

  /** Under the same credentials the erasure's follow-up can still find it, and the tap is done. */
  lemma OrphanUnderTheSameCredentials(s: State, t: TapId, a: AttendeeId, p: PassId)
    requires Stands(s, t, a, Orphaned(Credentials, p))
    requires s.event.template == s.taps[t].event.template && s.event.key == s.taps[t].event.key
    ensures Apply(s, TapStep(t, Orphan(ReadCredentials(false)))) == Some(SettledWith(s, t, Unavailable, s.rows))
  {
    SettlesFrom(s, t, Orphan(ReadCredentials(false)), Unavailable);
  }

  /** Under others, or when they cannot be read, it has to be remembered. */
  lemma OrphanUnderOtherCredentials(s: State, t: TapId, a: AttendeeId, p: PassId, failed: bool)
    requires Stands(s, t, a, Orphaned(Credentials, p))
    requires failed || s.event.template != s.taps[t].event.template || s.event.key != s.taps[t].event.key
    ensures Apply(s, TapStep(t, Orphan(ReadCredentials(failed))))
            == Some(At(s, t, Orphaned(Remember, p)).(replaced := s.replaced[p := t]))
  {
    var s' := Apply(s, TapStep(t, Orphan(ReadCredentials(failed)))).value;
    assert s'.taps == At(s, t, Orphaned(Remember, p)).taps;
  }

  /** The row with the pass that was left behind. */
  function LeftBehindNoted(rows: map<AttendeeId, Row>, a: AttendeeId, p: PassId): map<AttendeeId, Row> {
    if a in rows then rows[a := rows[a].(leftBehind := Some(p))] else rows
  }

  lemma OrphanIsRemembered(s: State, t: TapId, a: AttendeeId, p: PassId, failed: bool)
    requires Stands(s, t, a, Orphaned(Remember, p))
    ensures Apply(s, TapStep(t, Orphan(RememberOrphan(failed))))
            == Some(if failed then SettledWith(s, t, Unavailable, s.rows).(log := s.log + {p})
                    else SettledWith(s, t, Unavailable, LeftBehindNoted(s.rows, a, p)))
  {
    var s' := Apply(s, TapStep(t, Orphan(RememberOrphan(failed)))).value;
    assert s'.taps == SettledWith(s, t, Unavailable, s.rows).taps;
    assert !failed ==> s'.rows == LeftBehindNoted(s.rows, a, p);
  }

  /** The delete of a pass under a template the event has left is not confirmed. */
  lemma OutdatedPassStays(s: State, t: TapId, a: AttendeeId, p: PassId, applied: bool)
    requires Stands(s, t, a, Dropping(DropDelete, p))
    ensures Apply(s, TapStep(t, Drop(DeleteDropped(applied, false))))
            == Some(At(s, t, Dropping(DropRemember, p)).(passes := if applied then Deleted(s.passes, p) else s.passes))
  {
    var s' := Apply(s, TapStep(t, Drop(DeleteDropped(applied, false)))).value;
    assert s'.taps == At(s, t, Dropping(DropRemember, p)).taps;
  }

  /** Its id is kept in the same way, and the creation fails. */
  lemma OutdatedPassIsRemembered(s: State, t: TapId, a: AttendeeId, p: PassId, failed: bool)
    requires Stands(s, t, a, Dropping(DropRemember, p))
    ensures Apply(s, TapStep(t, Drop(RememberDropped(failed))))
            == Some(if failed then At(s, t, Failing(false)).(log := s.log + {p})
                    else At(s, t, Failing(false)).(rows := LeftBehindNoted(s.rows, a, p)))
  {
    var s' := Apply(s, TapStep(t, Drop(RememberDropped(failed)))).value;
    assert s'.taps == At(s, t, Failing(false)).taps && (!failed ==> s'.rows == LeftBehindNoted(s.rows, a, p));
  }
}
