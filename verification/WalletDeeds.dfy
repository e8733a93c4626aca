/** What everyone but the taps does, when it is not kept waiting: erasures and removals, their follow-up, settings
    saves, staff, and the provider; and who keeps whom waiting. */
module WalletDeeds {
  import opened Options
  import opened WalletModel
  import opened WalletRuns
  import opened WalletAnswers

  // ---------------------------------------------------------------------------------------------- who waits for whom

  /** The tap is inside a transaction that has locked its attendee's row: a reservation after the lock, a save after the
      lock and before its end, the note of a failure, or the last check. */
  predicate InsideTransaction(pc: Pc) {
    || pc == Leading(ReserveClock) || pc.Reserving? || pc == Failing(true)
    || (pc.Saving? && (pc.save == Advisory || pc.save == Check || pc.save.Write?))
    || (pc.Finishing? && pc.final == FinalWrite)
  }

  /** No tap is inside a transaction at the attendee's row. */
  predicate NobodyAtTheRow(s: State, a: AttendeeId) {
    forall t :: t in s.taps && s.taps[t].attendee == a ==> !InsideTransaction(s.taps[t].pc)
  }

  /** An erasure locks exactly the row of an attendee who is there, that no other erasure has locked and no tap is
      at. */
  lemma WhenAnErasureLocks(s: State, e: ErasureId)
    requires e in s.erasures && !s.erasures[e].locked
    ensures var a := s.erasures[e].attendee;
            Apply(s, ErasureStep(EraseLock(e)))
            == if There(s, a) && NobodyAtTheRow(s, a)
               then Some(s.(erasures := s.erasures[e := Erasure(a, s.erasures[e].startedAt, true)])) else None
  {
  }

  /** No tap comes to hold a row that an erasure has locked. */
  lemma TapsWaitForTheErasure(s: State, t: TapId, a: AttendeeId, pc: Pc, act: Act)
    requires Stands(s, t, a, pc) && !Unlocked(s, a)
    requires || act == Reserve(LockToReserve) || act == Save(LockToSave) || act == Fail(LockToFail)
             || act == Final(LockToFinish) || act == Save(AskGone(false)) || act == Final(CheckAgain(false))
    ensures Apply(s, TapStep(t, act)) == None
  {
  }

  /** The template lock is taken when nobody has it: no tap between its check and its write, no save past its own
      lock. */
  lemma WhenTheTemplateIsLocked(s: State, t: TapId, a: AttendeeId, p: PassId)
    requires Stands(s, t, a, Saving(Advisory, p))
    ensures Apply(s, TapStep(t, Save(LockTemplate)))
            == if TemplateUnlocked(s) then Some(At(s, t, Saving(Check, p))) else None
  {
    if Apply(s, TapStep(t, Save(LockTemplate))).Some? {
      Goes(s, t, Save(LockTemplate), Saving(Check, p));
      forall u | u in s.taps && s.taps[u].pc.Saving? ensures s.taps[u].pc.save != Check && !s.taps[u].pc.save.Write? {
        assert !HoldsAdvisory(s.taps[u].pc);
      }
    }
  }

  // ---------------------------------------------------------------------------------------------- erasure

  /** An erasure that is not kept waiting: the attendee is gone, as of when it began, and their row keeps neither link
      nor device; nothing else changes. */
  lemma ErasureErases(s: State, e: ErasureId, a: AttendeeId)
    requires e !in s.erasures && There(s, a) && NobodyAtTheRow(s, a)
    ensures Exec(s, [ErasureStep(EraseBegin(e, a)), ErasureStep(EraseLock(e)), ErasureStep(EraseCommit(e))])
            == Some(s.(attendees := s.attendees[a := Erased(s.now, s.now)],
                       rows := if a in s.rows then s.rows[a := s.rows[a].(links := None, device := None)] else s.rows))
  {
    var s1 := s.(erasures := s.erasures[e := Erasure(a, s.now, false)]);
    var s2 := s.(erasures := s.erasures[e := Erasure(a, s.now, true)]);
    var s3 := s.(attendees := s.attendees[a := Erased(s.now, s.now)],
                 rows := if a in s.rows then s.rows[a := s.rows[a].(links := None, device := None)] else s.rows);
    ErasureCommits(s, e, a);
    assert Apply(s, ErasureStep(EraseBegin(e, a))) == Some(s1);
    WhenAnErasureLocks(s1, e);
    assert s1.erasures[e := Erasure(a, s.now, true)] == s2.erasures;
    hide Apply, There, NobodyAtTheRow;
    ThreeSteps(s, s1, s2, s3, ErasureStep(EraseBegin(e, a)), ErasureStep(EraseLock(e)), ErasureStep(EraseCommit(e)));
  }

  lemma ErasureCommits(s: State, e: ErasureId, a: AttendeeId)
    requires e !in s.erasures && a in s.attendees
    ensures Apply(s.(erasures := s.erasures[e := Erasure(a, s.now, true)]), ErasureStep(EraseCommit(e)))
            == Some(s.(attendees := s.attendees[a := Erased(s.now, s.now)],
                       rows := if a in s.rows then s.rows[a := s.rows[a].(links := None, device := None)] else s.rows))
  {
    assert s.erasures[e := Erasure(a, s.now, true)] - {e} == s.erasures;
  }

  /** An erasure commits once it has locked, of an attendee who is still in the table, and within its own time limit; it
      can be given up at any time, with nothing changed. */
  lemma WhenAnErasureCommits(s: State, e: ErasureId)
    ensures Apply(s, ErasureStep(EraseCommit(e))).Some?
            <==> && e in s.erasures && s.erasures[e].locked && s.erasures[e].attendee in s.attendees
                 && s.now <= s.erasures[e].startedAt + 60_000
    ensures Apply(s, ErasureStep(EraseAbort(e)))
            == if e in s.erasures then Some(s.(erasures := s.erasures - {e})) else None
  {
  }

  /** A removal takes attendee and row away, when no transaction is at the row. */
  lemma RemovalRemoves(s: State, a: AttendeeId)
    requires a in s.attendees
    ensures Apply(s, ErasureStep(Remove(a)))
            == if Unlocked(s, a) && NobodyAtTheRow(s, a)
               then Some(s.(attendees := s.attendees - {a}, rows := s.rows - {a})) else None
  {
  }

  /** The follow-up of an erasure marks the row as settled exactly when the provider has nothing under the attendee's
      id, no pass was left behind, and one of three things makes that an answer: a pass that was not on the row was
      found, the erasure is ten minutes old, or the pass on the row was recorded long ago. */
  lemma WhenTheFollowUpIsDone(s: State, a: AttendeeId, found: bool, recordedLongAgo: bool)
    ensures var done := && a in s.attendees && s.attendees[a].Erased? && a in s.rows && s.rows[a].leftBehind == None
                        && (forall p :: p in s.passes && s.passes[p].present ==>
                            s.passes[p].userProvidedId != ReservedId(a))
                        && (|| (found && s.rows[a].passId == None) || s.now >= s.attendees[a].erasedAt + 600_000
                            || (recordedLongAgo && s.rows[a].passId != None && s.rows[a].issued));
            Apply(s, ErasureStep(FollowUpSettle(a, found, recordedLongAgo)))
            == if done then Some(s.(rows := s.rows[a := s.rows[a].(removed := true)])) else None
  {
  }

  /** It deletes any pass under the id of an erased attendee, and no other. */
  lemma FollowUpDeletes(s: State, a: AttendeeId, p: PassId)
    ensures Apply(s, ErasureStep(FollowUpDelete(a, p)))
            == if a in s.attendees && s.attendees[a].Erased? && p in s.passes
                && s.passes[p].userProvidedId == ReservedId(a)
               then Some(s.(passes := s.passes[p := s.passes[p].(present := false)])) else None
  {
  }

  // ---------------------------------------------------------------------------------------------- settings

  /** The event with what the request names. */
  predicate Takes(event: Event, fields: Patch, event': Event) {
    && event'.template == (match fields.template case None => event.template case Some(x) => x)
    && event'.key == (match fields.key case None => event.key case Some(x) => x)
    && event'.expires == (match fields.expires case None => event.expires case Some(x) => x)
    && event'.local == (match fields.local case None => event.local case Some(x) => x)
    && event'.zone == (match fields.zone case None => event.zone case Some(x) => x)
  }

  /** The save would change the template of the event as it read it, or turn its expiration off. */
  predicate NeedsLock(event: Event, fields: Patch) {
    || (fields.template != None && fields.template != Some(event.template))
    || (fields.expires == Some(false) && event.expires)
  }

  /** A save that needs no lock writes what it names, whatever was issued. */
  lemma PlainSaveWrites(s: State, k: PatchId, fields: Patch)
    requires k !in s.patches && !NeedsLock(s.event, fields)
    ensures Exec(s, PlainSave(k, fields)).Some?
    ensures var s' := Exec(s, PlainSave(k, fields)).value;
            s' == s.(event := s'.event) && Takes(s.event, fields, s'.event)
  {
    hide Exec;
    SavesUnguarded(s, k, fields);
  }

  /** One that does takes the lock first, when nobody has it. */
  lemma GuardedSaveLocks(s: State, k: PatchId)
    requires k in s.patches && s.patches[k].phase == Begun && NeedsLock(s.patches[k].existing, s.patches[k].patch)
    ensures Apply(s, PatchStep(PatchCommit(k))) == None
    ensures Apply(s, PatchStep(PatchLock(k)))
            == if TemplateUnlocked(s) then Some(s.(patches := s.patches[k := s.patches[k].(phase := Locked)])) else None
  {
    if Apply(s, PatchStep(PatchLock(k))).Some? {
      forall u | u in s.taps && s.taps[u].pc.Saving? ensures s.taps[u].pc.save != Check && !s.taps[u].pc.save.Write? {
        assert !HoldsAdvisory(s.taps[u].pc);
      }
    }
  }

  /** A save that needs no lock takes none, and any save can be given up with nothing changed. */
  lemma SavesThatDoNotLock(s: State, k: PatchId)
    requires k in s.patches
    ensures !NeedsLock(s.patches[k].existing, s.patches[k].patch) ==> Apply(s, PatchStep(PatchLock(k))) == None
    ensures Apply(s, PatchStep(PatchAbort(k))) == Some(s.(patches := s.patches - {k}))
  {
  }

  /** Then it counts: with any pass issued it is refused and nothing is written, otherwise it writes what it names. */
  lemma GuardedSaveCounts(s: State, k: PatchId)
    requires k in s.patches && s.patches[k].phase == Locked && NeedsLock(s.patches[k].existing, s.patches[k].patch)
    ensures var counted := s.(patches := s.patches[k := s.patches[k].(phase := Counted)]);
            if exists a :: a in s.rows && s.rows[a].issued
            then Apply(s, PatchStep(PatchCount(k))) == Some(s.(patches := s.patches - {k}))
            else && Apply(s, PatchStep(PatchCount(k))) == Some(counted)
                 && Apply(counted, PatchStep(PatchCommit(k))).Some?
                 && var s' := Apply(counted, PatchStep(PatchCommit(k))).value;
                    s' == s.(event := s'.event, patches := s.patches - {k})
                    && Takes(s.event, s.patches[k].patch, s'.event)
  {
    var counted := s.(patches := s.patches[k := s.patches[k].(phase := Counted)]);
    assert counted.patches - {k} == s.patches - {k};
  }

  // ---------------------------------------------------------------------------------------------- staff

  /** Staff void an active pass and restore a voided one, of an attendee who is there and while it is at the provider;
      together the two change nothing. */
  lemma VoidAndRestore(s: State, a: AttendeeId)
    requires There(s, a) && a in s.rows && s.rows[a].status == Active && !s.rows[a].removed
    ensures var voided := s.(rows := s.rows[a := s.rows[a].(status := Voided)]);
            && Apply(s, StaffStep(Void(a))) == Some(voided) && Apply(voided, StaffStep(Restore(a))) == Some(s)
  {
    var voided := s.(rows := s.rows[a := s.rows[a].(status := Voided)]);
    assert voided.rows[a := voided.rows[a].(status := Active)] == s.rows;
  }

  /** They do neither for a pass that is not there to be voided or restored. */
  lemma WhenStaffMayNot(s: State, a: AttendeeId)
    ensures Apply(s, StaffStep(Void(a))).Some?
            <==> a in s.rows && s.rows[a].status == Active && !s.rows[a].removed && There(s, a)
    ensures Apply(s, StaffStep(Restore(a))).Some?
            <==> a in s.rows && s.rows[a].status == Voided && !s.rows[a].removed && There(s, a)
  {
  }

  /** The expiry job, the removal of a dead pass at the provider, and the first confirmation. */
  lemma WhatElseHappensToARow(s: State, a: AttendeeId)
    requires a in s.rows
    ensures Apply(s, StaffStep(Expire(a)))
            == if s.rows[a].status in {Active, Voided} then Some(s.(rows := s.rows[a := s.rows[a].(status := Expired)]))
               else None
    ensures Apply(s, StaffStep(RemoveAtProvider(a)))
            == if s.rows[a].status in {Voided, Expired} && s.rows[a].passId != None && Unlocked(s, a)
               then Some(s.(rows := s.rows[a := s.rows[a].(removed := true)],
                            passes := Deleted(s.passes, s.rows[a].passId.value))) else None
    ensures Apply(s, StaffStep(Confirm(a))) == Some(s.(rows := s.rows[a := s.rows[a].(confirmed := true)]))
  {
  }

  // ---------------------------------------------------------------------------------------------- the provider

  /** A call takes effect within the latency and once: a creation makes a pass of its template, under its attendee's id
      and with its date, an update gives a pass that is there its date. */
  lemma WhatLands(s: State, c: CallId, p: PassId)
    requires c in s.calls && s.calls[c].reply == None && s.now <= s.calls[c].sentAt + s.latency
    ensures var call := s.calls[c]; var answered := s.calls[c := s.calls[c].(reply := Some(Result(p)))];
            && (call.kind == CreatePass && p !in s.passes ==>
                  Apply(s, WorldStep(Land(c, p)))
                  == Some(s.(calls := answered,
                             passes := s.passes[p := Pass(ReservedId(call.attendee), call.template,
                                                          call.expiration, true)])))
            && (call.kind == UpdatePass(p) && p in s.passes && s.passes[p].present ==>
                  Apply(s, WorldStep(Land(c, p)))
                  == Some(s.(calls := answered, passes := s.passes[p := s.passes[p].(expiration := call.expiration)])))
  {
  }

  /** A call can be refused, as a duplicate or for another reason, until it is answered. */
  lemma WhatIsRefused(s: State, c: CallId, duplicate: bool)
    ensures Apply(s, WorldStep(Refuse(c, duplicate)))
            == if c in s.calls && s.calls[c].reply == None
               then Some(s.(calls := s.calls[c := s.calls[c].(
                              reply := Some(if duplicate then Duplicate else Rejected))]))
               else None
  {
  }

  lemma NothingLandsTwiceOrLate(s: State, c: CallId, p: PassId)
    requires c in s.calls && (s.calls[c].reply != None || s.now > s.calls[c].sentAt + s.latency)
    ensures Apply(s, WorldStep(Land(c, p))) == None
  {
  }

  /** A tap arrives with the event as it is, when that has a template and a key. */
  lemma WhoArrives(s: State, t: TapId, i: Instance, a: AttendeeId)
    requires t !in s.taps
    ensures Apply(s, WorldStep(Arrive(t, i, a)))
            == if s.event.template != None && s.event.key != None
               then Some(s.(taps := s.taps[t := Tap(i, a, s.event, Looking, None)])) else None
  {
  }

  /** A crash ends what its instance had under way, and leaves it no lock; the others go on. */
  lemma WhatACrashLeaves(s: State, i: Instance)
    ensures Apply(s, WorldStep(Crash(i))).Some?
    ensures var s' := Apply(s, WorldStep(Crash(i))).value;
            && s' == s.(taps := s'.taps, locks := s'.locks) && s'.taps.Keys == s.taps.Keys
            && (forall t :: t in s.taps ==>
                  s'.taps[t] == (if s.taps[t].instance != i || s.taps[t].pc.Done? || s.taps[t].pc.Dead? then s.taps[t]
                                 else s.taps[t].(pc := Dead(s.taps[t].pc))))
            && (forall l :: l in s'.locks <==> l in s.locks && l.0 != i)
            && (forall l :: l in s'.locks ==> s'.locks[l] == s.locks[l])
  {
  }
}
