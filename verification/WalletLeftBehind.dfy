/** A pass made under credentials the event no longer has, judged so by the save or by the deletion of a gone attendee's
    pass, is deleted, or written to the attendee's row as the pass left behind, unless both the delete and that write
    failed; and the row names the last pass that was written there. */
module WalletLeftBehind {
  import opened Options
  import opened WalletModel
  import opened WalletInvariant
  import opened WalletSteps
  import opened WalletWinner

  /** Where a tap has judged pass `p` and still has to do something about it. */
  predicate AtHand(pc: Pc, p: PassId) {
    (pc.Dropping? || (pc.Orphaned? && pc.orphan.Remember?)) && pc.pass == p
  }

  /** The tap that judged pass `p` has not finished with it, or died before it could. */
  predicate InHand(pc: Pc, p: PassId) {
    AtHand(pc, p) || (pc.Dead? && AtHand(pc.at, p))
  }

  /** The row of attendee `a` names pass `p` as the one left behind. */
  predicate Names(s: State, a: AttendeeId, p: PassId) {
    a in s.rows && s.rows[a].leftBehind == Some(p)
  }

  /** The attendee whose pass `p` is. */
  function OwnerOf(s: State, p: PassId): AttendeeId
    requires p in s.passes
  {
    s.passes[p].userProvidedId.attendee
  }

  /** A judged pass is at the provider or was, and is of the attendee of the tap that judged it. */
  predicate Owned(s: State, p: PassId)
    requires p in s.replaced
  {
    && p in s.passes && s.replaced[p] in s.taps
    && s.passes[p].userProvidedId == ReservedId(s.taps[s.replaced[p]].attendee)
  }

  /** Judged pass `p` is deleted, or in the log, or its attendee was removed, or the tap that judged it is not done. */
  predicate Cared(s: State, p: PassId)
    requires p in s.replaced && Owned(s, p)
  {
    || !s.passes[p].present || p in s.log || OwnerOf(s, p) !in s.attendees
    || InHand(s.taps[s.replaced[p]].pc, p)
  }

  // -------------------------------------------------------------------------------------------- which pass a row names

  /** The step writes the pass its tap has in hand to the row of attendee `a`. */
  predicate Remembers(s: State, step: Step, a: AttendeeId) {
    && step.TapStep? && step.tap in s.taps && s.taps[step.tap].attendee == a && a in s.rows
    && ((step.act == Drop(RememberDropped(false)) && s.taps[step.tap].pc.Dropping?)
        || (step.act == Orphan(RememberOrphan(false)) && s.taps[step.tap].pc.Orphaned?))
  }

  /** It writes pass `p`. */
  predicate Leaves(s: State, step: Step, a: AttendeeId, p: PassId) {
    Remembers(s, step, a) && s.taps[step.tap].pc.pass == p
  }

  lemma OrphanNames(s: State, t: TapId, act: OrphanAct, a: AttendeeId, p: PassId)
    requires Apply(s, TapStep(t, Orphan(act))).Some?
    ensures Names(Apply(s, TapStep(t, Orphan(act))).value, a, p)
            <==> if Remembers(s, TapStep(t, Orphan(act)), a) then s.taps[t].pc.pass == p else Names(s, a, p)
  {
    hide CredentialsChanged, Gone, Perform;
    PerformRows(s, t, TapEffect(s, t, Orphan(act)).value);
  }

  lemma DropNames(s: State, t: TapId, act: DropAct, a: AttendeeId, p: PassId)
    requires Apply(s, TapStep(t, Drop(act))).Some?
    ensures Names(Apply(s, TapStep(t, Drop(act))).value, a, p)
            <==> if Remembers(s, TapStep(t, Drop(act)), a) then s.taps[t].pc.pass == p else Names(s, a, p)
  {
    hide CredentialsChanged, Gone, Perform;
    PerformRows(s, t, TapEffect(s, t, Drop(act)).value);
  }

  lemma TapNames(s: State, t: TapId, act: Act, a: AttendeeId, p: PassId)
    requires Apply(s, TapStep(t, act)).Some?
    ensures Names(Apply(s, TapStep(t, act)).value, a, p)
            <==> if Remembers(s, TapStep(t, act), a) then s.taps[t].pc.pass == p else Names(s, a, p)
  {
    if act.Orphan? {
      hide Apply, TapEffect, Perform, Names, Remembers;
      OrphanNames(s, t, act.orphan, a, p);
    } else if act.Drop? {
      hide Apply, TapEffect, Perform, Names, Remembers;
      DropNames(s, t, act.drop, a, p);
    } else {
      hide TapEffect, PcStep, CareStep, Perform;
      TapShape(s, t, act);
      PerformRows(s, t, TapEffect(s, t, act).value);
      OnlyThenRemembers(s, t, act);
    }
  }

  /** A step that is neither of the two writes is not taken where one of them comes next. */
  lemma OnlyThenRemembers(s: State, t: TapId, act: Act)
    requires Apply(s, TapStep(t, act)).Some? && !act.Orphan? && !act.Drop?
    ensures !s.taps[t].pc.Orphaned? && !s.taps[t].pc.Dropping?
  {
  }

  /** Which pass the row of an attendee who was not removed names after a step: the one the step leaves behind, if it
      leaves one, and otherwise the one it named before; a name is never cleared. */
  lemma NameStaysUntilTheNext(s: State, step: Step, a: AttendeeId, p: PassId)
    requires Apply(s, step).Some? && a in Apply(s, step).value.attendees
    ensures a in s.attendees
    ensures Names(Apply(s, step).value, a, p)
            <==> if Remembers(s, step, a) then s.taps[step.tap].pc.pass == p else Names(s, a, p)
  {
    match step
    case TapStep(t, act) => TapNames(s, t, act, a, p); PerformAttendees(s, t, act);
    case WorldStep(act) => hide ApplyWorld, Lands; WorldFrame(s, act);
    case ErasureStep(act) => hide ApplyErasure, Dwindles; ErasureFrame(s, act);
    case PatchStep(act) => hide ApplySettings, PatchStepOk; SettingsFrame(s, act);
    case StaffStep(act) => hide ApplyStaff, Dwindles; StaffFrame(s, act);
  }

  lemma PerformAttendees(s: State, t: TapId, act: Act)
    requires Apply(s, TapStep(t, act)).Some?
    ensures Apply(s, TapStep(t, act)).value.attendees == s.attendees
  {
    hide TapEffect, Perform;
    PerformRows(s, t, TapEffect(s, t, act).value);
  }

  /** Step `k` of the run leaves pass `p` behind on the row of attendee `a`. */
  predicate LeftAt(s0: State, run: seq<Step>, k: nat, a: AttendeeId, p: PassId) {
    k < |run| && Exec(s0, run[..k]).Some? && Leaves(Exec(s0, run[..k]).value, run[k], a, p)
  }

  /** A pass was left behind on the row, and no step left another one there since. */
  ghost predicate LeftLast(s0: State, run: seq<Step>, a: AttendeeId, p: PassId) {
    exists k :: LeftAt(s0, run, k, a, p) && !LeftAfter(s0, run, k, a, p)
  }

  /** A step after step `k` left another pass than `p` behind. */
  ghost predicate LeftAfter(s0: State, run: seq<Step>, k: nat, a: AttendeeId, p: PassId) {
    exists j, q :: k < j && LeftAt(s0, run, j, a, q) && q != p
  }

  lemma RunPrefix(s0: State, init: seq<Step>, last: Step)
    requires Exec(s0, init + [last]).Some?
    ensures Exec(s0, init).Some? && Apply(Exec(s0, init).value, last) == Exec(s0, init + [last])
    decreases init
  {
    hide Apply;
    var run := init + [last];
    if init == [] {
      assert run[0] == last && run[1..] == [];
    } else {
      assert run[0] == init[0] && run[1..] == init[1..] + [last];
      RunPrefix(Apply(s0, init[0]).value, init[1..], last);
    }
  }

  lemma LeftByLonger(s0: State, init: seq<Step>, last: Step, k: nat, a: AttendeeId, p: PassId)
    requires Exec(s0, init).Some?
    ensures k < |init| ==> (LeftAt(s0, init + [last], k, a, p) <==> LeftAt(s0, init, k, a, p))
    ensures LeftAt(s0, init + [last], |init|, a, p) <==> Leaves(Exec(s0, init).value, last, a, p)
  {
    hide Exec, Leaves;
    assert (init + [last])[..|init|] == init;
    if k < |init| { assert (init + [last])[..k] == init[..k]; }
  }

  lemma LastLeftIs(s0: State, init: seq<Step>, last: Step, a: AttendeeId, p: PassId)
    requires Exec(s0, init).Some?
    ensures LeftLast(s0, init + [last], a, p)
            <==> if Remembers(Exec(s0, init).value, last, a) then Leaves(Exec(s0, init).value, last, a, p)
                 else LeftLast(s0, init, a, p)
  {
    var s, run, n := Exec(s0, init).value, init + [last], |init|;
    forall k: nat, q ensures LeftAt(s0, run, k, a, q)
                             <==> if k == n then Leaves(s, last, a, q) else k < n && LeftAt(s0, init, k, a, q)
    {
      LeftByLonger(s0, init, last, k, a, q);
    }
    hide LeftAt, Exec;
    if Remembers(s, last, a) {
      assert LeftAt(s0, run, n, a, s.taps[last.tap].pc.pass);
    }
  }

  /** In every run, for an attendee who was not removed: the row names pass `p` at the end exactly when some step left
      `p` behind there and no later step left another pass behind. */
  lemma {:induction false} TheRowNamesTheLast(s0: State, run: seq<Step>, a: AttendeeId, p: PassId)
    requires Init(s0) && Exec(s0, run).Some? && a in Exec(s0, run).value.attendees
    ensures Names(Exec(s0, run).value, a, p) <==> LeftLast(s0, run, a, p)
    decreases |run|
  {
    if run != [] {
      var init, last := run[..|run| - 1], run[|run| - 1];
      assert run == init + [last];
      hide Init, Exec, Apply, Names, Remembers, LeftLast;
      RunPrefix(s0, init, last);
      var s := Exec(s0, init).value;
      NameStaysUntilTheNext(s, last, a, p);
      TheRowNamesTheLast(s0, init, a, p);
      LastLeftIs(s0, init, last, a, p);
    }
  }

  // ---------------------------------------------------------------------------------------------- steps of a tap

  /** The tap that has the pass in hand keeps it there, or has it deleted, named or logged. */
  lemma HandStays(s: State, t: TapId, e: Effect, p: PassId)
    requires Inv(s) && t in s.taps && Shape(s, t, s.taps[t], e) && p in s.passes
    requires AtHand(s.taps[t].pc, p)
    ensures var s' := Perform(s, t, e); var a := s.taps[t].attendee;
            && p in s'.passes
            && (!s'.passes[p].present || p in s'.log || a !in s'.attendees || Names(s', a, p) || InHand(e.next, p))
  {
    hide Inv, PcStep, WriteStep, InCreation;
    TapFacts(s, t);
  }

  /** What has become of a judged pass is not taken back by a tap, nor does the pass get another owner. */
  lemma CareStays(s: State, t: TapId, e: Effect, p: PassId)
    requires t in s.taps && p in s.replaced && Owned(s, p) && e.write != Judge(p)
    ensures var s' := Perform(s, t, e);
            && p in s'.replaced && s'.replaced[p] == s.replaced[p] && Owned(s', p) && OwnerOf(s', p) == OwnerOf(s, p)
            && (!s.passes[p].present ==> !s'.passes[p].present) && (p in s.log ==> p in s'.log)
            && s'.attendees == s.attendees && s'.taps.Keys == s.taps.Keys
            && (forall u :: u in s.taps && u != t ==> s'.taps[u] == s.taps[u]) && s'.taps[t].pc == e.next
  {
    hide InCreation;
  }

  lemma TapJudged(s: State, t: TapId, e: Effect, p: PassId)
    requires Inv(s) && t in s.taps && Shape(s, t, s.taps[t], e) && p in Perform(s, t, e).replaced
    requires p in s.replaced ==> Owned(s, p)
    ensures Judged(s, Perform(s, t, e), p)
  {
    hide Inv, Shape, InCreation, InHand, Names;
    if e.write == Judge(p) {
      JudgeStep(s, t, e, p);
    } else {
      assert p in s.replaced by { hide Judged; }
      CareStays(s, t, e, p);
      hide Perform;
      if s.replaced[p] == t && InHand(s.taps[t].pc, p) {
        DeadStays(s, t, e, p);
        HandStays(s, t, e, p);
      }
    }
  }

  /** After a step a judged pass is cared for, or named by its attendee's row, unless it was not cared for before. */
  ghost predicate Judged(s: State, s': State, p: PassId)
    requires p in s'.replaced
  {
    Owned(s', p) && (Cared(s', p) || Names(s', OwnerOf(s', p), p) || (p in s.replaced && Owned(s, p) && !Cared(s, p)))
    && (p in s.replaced && Owned(s, p) ==> OwnerOf(s', p) == OwnerOf(s, p))
  }

  lemma JudgeStep(s: State, t: TapId, e: Effect, p: PassId)
    requires Inv(s) && t in s.taps && Shape(s, t, s.taps[t], e) && e.write == Judge(p)
    ensures Judged(s, Perform(s, t, e), p)
  {
    hide Inv, CareStep, InCreation;
    TapFacts(s, t);
  }

  /** A tap that takes a step is alive, so what it has in hand it has at hand. */
  lemma DeadStays(s: State, t: TapId, e: Effect, p: PassId)
    requires t in s.taps && Shape(s, t, s.taps[t], e) && InHand(s.taps[t].pc, p)
    ensures AtHand(s.taps[t].pc, p)
  {
    hide CareStep;
  }

  lemma TapsJudged(s: State, t: TapId, act: Act, p: PassId)
    requires Inv(s) && Apply(s, TapStep(t, act)).Some? && p in Apply(s, TapStep(t, act)).value.replaced
    requires p in s.replaced ==> Owned(s, p)
    ensures Judged(s, Apply(s, TapStep(t, act)).value, p)
  {
    var e := TapEffect(s, t, act).value;
    hide Inv, TapEffect, Shape, Judged, Owned, Perform;
    TapShape(s, t, act);
    TapJudged(s, t, e, p);
  }

  // ---------------------------------------------------------------------------------------------- the other steps

  /** Nothing that happens outside the taps brings a deleted pass back or takes a log line away. */
  ghost predicate KeepsCare(s: State, s': State) {
    && s'.replaced == s.replaced && s.log <= s'.log
    && (forall p :: p in s.passes ==>
          && p in s'.passes && s'.passes[p].userProvidedId == s.passes[p].userProvidedId
          && (s'.passes[p].present ==> s.passes[p].present))
    && (forall a :: a in s'.attendees ==> a in s.attendees)
    && (forall t :: t in s.taps ==>
          t in s'.taps && (s'.taps[t] == s.taps[t] || Dies(s.taps[t], s'.taps[t])))
  }

  lemma CareKept(s: State, s': State, p: PassId)
    requires p in s'.replaced && KeepsCare(s, s') && (p in s.replaced ==> Owned(s, p))
    ensures Judged(s, s', p)
  {
  }

  lemma StepKeepsCare(s: State, step: Step)
    requires Apply(s, step).Some? && !step.TapStep?
    ensures KeepsCare(s, Apply(s, step).value)
  {
    match step
    case WorldStep(act) => hide ApplyWorld; WorldFrame(s, act);
    case ErasureStep(act) => hide ApplyErasure; ErasureFrame(s, act);
    case PatchStep(act) => hide ApplySettings, PatchStepOk; SettingsFrame(s, act);
    case StaffStep(act) => hide ApplyStaff; StaffFrame(s, act);
  }

  lemma StepJudged(s: State, step: Step, p: PassId)
    requires Inv(s) && Apply(s, step).Some? && p in Apply(s, step).value.replaced
    requires p in s.replaced ==> Owned(s, p)
    ensures Judged(s, Apply(s, step).value, p)
  {
    hide Apply, Inv, Judged, KeepsCare, Owned;
    if step.TapStep? {
      TapsJudged(s, step.tap, step.act, p);
    } else {
      StepKeepsCare(s, step);
      CareKept(s, Apply(s, step).value, p);
    }
  }

  // ---------------------------------------------------------------------------------------------- the theorem

  /** Some step of the run left pass `p` behind on the row of attendee `a`. */
  ghost predicate EverLeft(s0: State, run: seq<Step>, a: AttendeeId, p: PassId) {
    exists k :: LeftAt(s0, run, k, a, p)
  }

  lemma EverLeftStays(s0: State, init: seq<Step>, last: Step, a: AttendeeId, p: PassId)
    requires Exec(s0, init).Some? && EverLeft(s0, init, a, p)
    ensures EverLeft(s0, init + [last], a, p)
  {
    hide LeftAt, Exec;
    var k: nat :| LeftAt(s0, init, k, a, p);
    LeftIn(s0, init, k, a, p);
    LeftByLonger(s0, init, last, k, a, p);
    assert LeftAt(s0, init + [last], k, a, p);
  }

  lemma LeftIn(s0: State, run: seq<Step>, k: nat, a: AttendeeId, p: PassId)
    requires LeftAt(s0, run, k, a, p)
    ensures k < |run|
  {
  }

  /** In every run, a pass that was judged to be made under replaced credentials, by the save of a creation or when the
      pass of a gone attendee could not be deleted, is deleted; or a step of the run wrote this very pass to its
      attendee's row as left behind; or the log has it; or the attendee was removed; or the tap that judged it is not
      done with it or died on the way. */
  lemma {:induction false} NoPassLeftUnnamed(s0: State, run: seq<Step>, p: PassId)
    requires Init(s0) && Exec(s0, run).Some? && p in Exec(s0, run).value.replaced
    ensures var s := Exec(s0, run).value;
            && p in s.passes && s.replaced[p] in s.taps
            && s.passes[p].userProvidedId == ReservedId(s.taps[s.replaced[p]].attendee)
            && (|| !s.passes[p].present || p in s.log || OwnerOf(s, p) !in s.attendees
                || InHand(s.taps[s.replaced[p]].pc, p)
                || EverLeft(s0, run, OwnerOf(s, p), p))
    decreases |run|
  {
    if run != [] {
      var init, last := run[..|run| - 1], run[|run| - 1];
      assert run == init + [last];
      RunPrefix(s0, init, last);
      var s, s' := Exec(s0, init).value, Exec(s0, run).value;
      hide Exec, Apply, Init, InHand, Names, LeftAt, EverLeft, Inv;
      InitInv(s0);
      RunInv(s0, init);
      if p in s.replaced { NoPassLeftUnnamed(s0, init, p); }
      StepJudged(s, last, p);
      var a := OwnerOf(s', p);
      if !Cared(s', p) {
        if Names(s', a, p) {
          TheRowNamesTheLast(s0, run, a, p);
          LastIsLeft(s0, run, a, p);
        } else {
          EverLeftStays(s0, init, last, a, p);
        }
      }
    }
  }

  lemma LastIsLeft(s0: State, run: seq<Step>, a: AttendeeId, p: PassId)
    requires LeftLast(s0, run, a, p)
    ensures EverLeft(s0, run, a, p)
  {
  }

  /** Pass `q` is pass `p`, or was left behind on the row after it. */
  ghost predicate SameOrLater(s0: State, run: seq<Step>, a: AttendeeId, p: PassId, q: PassId) {
    q == p || exists k, j :: k < j && LeftAt(s0, run, k, a, p) && LeftAt(s0, run, j, a, q)
  }

  lemma SameIsSame(s0: State, run: seq<Step>, a: AttendeeId, p: PassId)
    ensures SameOrLater(s0, run, a, p, p)
  {
  }

  lemma LaterByLonger(s0: State, init: seq<Step>, last: Step, a: AttendeeId, p: PassId, q: PassId)
    requires Exec(s0, init).Some? && EverLeft(s0, init, a, p)
    requires SameOrLater(s0, init, a, p, q) || Leaves(Exec(s0, init).value, last, a, q)
    ensures SameOrLater(s0, init + [last], a, p, q)
  {
    hide LeftAt, Exec, Leaves;
    forall k: nat, r | LeftAt(s0, init, k, a, r) ensures k < |init| && LeftAt(s0, init + [last], k, a, r) {
      LeftIn(s0, init, k, a, r);
      LeftByLonger(s0, init, last, k, a, r);
    }
    if Leaves(Exec(s0, init).value, last, a, q) {
      LeftByLonger(s0, init, last, |init|, a, q);
      var k: nat :| LeftAt(s0, init, k, a, p);
      assert k < |init| && LeftAt(s0, init + [last], |init|, a, q);
    }
  }

  /** In every run, once a pass was left behind on the row of an attendee who was not removed, the row names it or one
      that was left behind after it: only another pass takes a name away. */
  lemma {:induction false} OnlyAnotherHidesIt(s0: State, run: seq<Step>, a: AttendeeId, p: PassId)
    requires Init(s0) && Exec(s0, run).Some? && a in Exec(s0, run).value.attendees && EverLeft(s0, run, a, p)
    ensures exists q :: Names(Exec(s0, run).value, a, q) && SameOrLater(s0, run, a, p, q)
    decreases |run|
  {
    var k: nat :| LeftAt(s0, run, k, a, p);
    LeftIn(s0, run, k, a, p);
    var init, last := run[..|run| - 1], run[|run| - 1];
    assert run == init + [last];
    hide Exec, Apply, Init, Names, LeftAt, SameOrLater;
    RunPrefix(s0, init, last);
    LeftByLonger(s0, init, last, k, a, p);
    var s := Exec(s0, init).value;
    if k < |init| { assert EverLeft(s0, init, a, p); }
    if Remembers(s, last, a) {
      var q := s.taps[last.tap].pc.pass;
      NameStaysUntilTheNext(s, last, a, q);
      if k < |init| { LaterByLonger(s0, init, last, a, p, q); } else { SameIsSame(s0, run, a, p); }
    } else {
      assert a in s.attendees by { NameStaysUntilTheNext(s, last, a, p); }
      OnlyAnotherHidesIt(s0, init, a, p);
      var q :| Names(s, a, q) && SameOrLater(s0, init, a, p, q);
      NameStaysUntilTheNext(s, last, a, q);
      LaterByLonger(s0, init, last, a, p, q);
    }
  }
}
