/** The line reader behind the command line prompts: lines that come before a prompt asks are queued, prompts that come
    before a line wait. */
module LineReader {
  type PromptId = nat

  /** What the promise of a prompt has become. */
  datatype Answer = Waiting | Line(line: string) | Rejected

  // ---------------------------------------------------------------------------------------------- as values

  /** The two queues, whether the input has closed, and what each prompt got, in the order the prompts were made. */
  datatype Reader = Reader(queued: seq<string>, waiting: seq<PromptId>, closed: bool, answers: seq<Answer>)

  predicate Known(r: Reader) {
    forall i :: 0 <= i < |r.waiting| ==> r.waiting[i] < |r.answers|
  }

  /** The promises of `ids` settled as rejected. */
  function RejectAll(answers: seq<Answer>, ids: seq<PromptId>): (after: seq<Answer>)
    requires forall i :: 0 <= i < |ids| ==> ids[i] < |answers|
    ensures |after| == |answers|
    decreases ids
  {
    if ids == [] then answers else RejectAll(answers[ids[0] := Rejected], ids[1..])
  }

  function OnLine(r: Reader, line: string): (after: Reader)
    requires Known(r)
    ensures Known(after)
  {
    if r.waiting != [] then r.(waiting := r.waiting[1..], answers := r.answers[r.waiting[0] := Line(line)])
    else r.(queued := r.queued + [line])
  }

  function OnClose(r: Reader): (after: Reader)
    requires Known(r)
    ensures Known(after)
  {
    r.(closed := true, waiting := [], answers := RejectAll(r.answers, r.waiting))
  }

  function OnPrompt(r: Reader): (after: Reader)
    ensures Known(r) ==> Known(after)
  {
    if r.queued != [] then r.(queued := r.queued[1..], answers := r.answers + [Line(r.queued[0])])
    else if r.closed then r.(answers := r.answers + [Rejected])
    else r.(waiting := r.waiting + [|r.answers|], answers := r.answers + [Waiting])
  }

  // ---------------------------------------------------------------------------------------------- as it runs

  /** `createLineReader`: the two arrays and the flag that its callbacks share. */
  class Prompts {
    var queued: seq<string>
    var waiting: seq<PromptId>
    var closed: bool
    var answers: seq<Answer>

    constructor ()
      ensures View() == Reader([], [], false, [])
    {
      queued, waiting, closed, answers := [], [], false, [];
    }

    function View(): Reader
      reads this
    {
      Reader(queued, waiting, closed, answers)
    }

    /** The "line" event. */
    method HandleLine(line: string)
      requires Known(View())
      modifies this
      ensures View() == OnLine(old(View()), line)
    {
      if waiting != [] {
        var waiter := waiting[0];
        waiting := waiting[1..];
        answers := answers[waiter := Line(line)];
      } else {
        queued := queued + [line];
      }
    }

    /** The "close" event: every prompt that waits is rejected, first come first. */
    method HandleClose()
      requires Known(View())
      modifies this
      ensures View() == OnClose(old(View()))
    {
      closed := true;
      while waiting != []
        invariant closed && queued == old(queued) && Known(View())
        invariant RejectAll(answers, waiting) == RejectAll(old(answers), old(waiting))
        decreases |waiting|
      {
        var waiter := waiting[0];
        waiting := waiting[1..];
        answers := answers[waiter := Rejected];
      }
    }

    /** The returned function: a promise for the next line. */
    method Ask() returns (id: PromptId)
      modifies this
      ensures View() == OnPrompt(old(View())) && id == |old(answers)|
    {
      id := |answers|;
      if queued != [] {
        var line := queued[0];
        queued := queued[1..];
        answers := answers + [Line(line)];
      } else if closed {
        answers := answers + [Rejected];
      } else {
        answers := answers + [Waiting];
        waiting := waiting + [id];
      }
    }
  }

  // ---------------------------------------------------------------------------------------------- every interleaving

  datatype Happening = Arrives(line: string) | Closes | Asks

  function Handle(r: Reader, h: Happening): (after: Reader)
    requires Known(r)
    ensures Known(after)
  {
    match h
    case Arrives(line) => OnLine(r, line)
    case Closes => OnClose(r)
    case Asks => OnPrompt(r)
  }

  /** The lines that came, in order. */
  function LinesOf(history: seq<Happening>): seq<string> {
    if history == [] then []
    else
      var before := LinesOf(history[..|history| - 1]);
      var last := history[|history| - 1];
      if last.Arrives? then before + [last.line] else before
  }

  predicate HasClosed(history: seq<Happening>) {
    exists h :: h in history && h.Closes?
  }

  function Asked(history: seq<Happening>): nat {
    if history == [] then 0
    else Asked(history[..|history| - 1]) + if history[|history| - 1].Asks? then 1 else 0
  }

  /** No line comes once a prompt it would have been for was rejected: after the close lines come only for prompts that
      have not been made yet. */
  ghost predicate NoLineAfterRejection(history: seq<Happening>) {
    forall j :: 0 <= j < |history| && history[j].Arrives? && HasClosed(history[..j]) ==>
      Asked(history[..j]) <= |LinesOf(history[..j])|
  }

  /** The reader after everything that happened. */
  function After(history: seq<Happening>): (r: Reader)
    ensures Known(r)
    decreases |history|
  {
    if history == [] then Reader([], [], false, [])
    else Handle(After(history[..|history| - 1]), history[|history| - 1])
  }

  /** What prompt `k` must have got, whatever the order in which things happened. */
  function Due(k: nat, lines: seq<string>, closed: bool): Answer {
    if k < |lines| then Line(lines[k]) else if closed then Rejected else Waiting
  }

  lemma {:induction false} RejectAllAnswers(answers: seq<Answer>, ids: seq<PromptId>)
    requires forall i :: 0 <= i < |ids| ==> ids[i] < |answers|
    ensures forall k :: 0 <= k < |answers| ==> RejectAll(answers, ids)[k] == if k in ids then Rejected else answers[k]
    decreases ids
  {
    if ids != [] {
      RejectAllAnswers(answers[ids[0] := Rejected], ids[1..]);
      assert forall k :: k in ids <==> k == ids[0] || k in ids[1..];
    }
  }

  // ---------------------------------------------------------------------------------------------- no line is lost

  /** The lines the prompts got, in the order of the prompts. */
  function Given(answers: seq<Answer>): seq<string>
    decreases |answers|
  {
    if answers == [] then []
    else
      var before := Given(answers[..|answers| - 1]);
      var last := answers[|answers| - 1];
      if last.Line? then before + [last.line] else before
  }

  /** The prompts that wait are the last ones made, in the order they were made. */
  predicate WaitAtTheEnd(r: Reader) {
    && |r.waiting| <= |r.answers|
    && (forall i :: 0 <= i < |r.waiting| ==> r.waiting[i] == |r.answers| - |r.waiting| + i)
    && (forall k :: 0 <= k < |r.answers| ==> (r.answers[k].Waiting? <==> |r.answers| - |r.waiting| <= k))
  }

  /** Every line that came was given to a prompt or is still queued, in the order the lines came. */
  ghost predicate NothingLost(history: seq<Happening>, r: Reader) {
    && Given(r.answers) + r.queued == LinesOf(history)
    && |r.answers| == Asked(history) && r.closed == HasClosed(history)
    && WaitAtTheEnd(r) && (r.queued == [] || r.waiting == []) && (r.closed ==> r.waiting == [])
  }

  lemma {:induction false} GivenAppend(answers: seq<Answer>, more: seq<Answer>)
    ensures Given(answers + more) == Given(answers) + Given(more)
    decreases |more|
  {
    if more == [] {
      assert answers + more == answers;
    } else {
      var init := more[..|more| - 1];
      assert (answers + more)[..|answers + more| - 1] == answers + init;
      GivenAppend(answers, init);
    }
  }

  lemma {:induction false} NothingGiven(answers: seq<Answer>)
    requires forall k :: 0 <= k < |answers| ==> !answers[k].Line?
    ensures Given(answers) == []
    decreases |answers|
  {
    if answers != [] { NothingGiven(answers[..|answers| - 1]); }
  }

  /** Serving the first of the prompts that wait adds its line at the end. */
  lemma GivenServed(answers: seq<Answer>, k: nat, line: string)
    requires k < |answers| && forall i :: k <= i < |answers| ==> !answers[i].Line?
    ensures Given(answers[k := Line(line)]) == Given(answers) + [line]
  {
    var before, after := answers[..k], answers[k + 1..];
    assert answers == before + answers[k..];
    assert answers[k := Line(line)] == before + ([Line(line)] + after);
    GivenAppend(before, answers[k..]);
    GivenAppend(before, [Line(line)] + after);
    GivenAppend([Line(line)], after);
    NothingGiven(answers[k..]);
    NothingGiven(after);
    assert Given([Line(line)]) == [line] by { assert [Line(line)][..0] == []; }
  }

  lemma LastOnesRejected(r: Reader)
    requires Known(r) && WaitAtTheEnd(r)
    ensures var m := |r.answers| - |r.waiting|; var after := RejectAll(r.answers, r.waiting);
            && (forall k :: 0 <= k < m ==> !r.answers[k].Waiting? && after[k] == r.answers[k])
            && (forall k :: m <= k < |after| ==> r.answers[k].Waiting? && after[k].Rejected?)
  {
    var m := |r.answers| - |r.waiting|;
    RejectAllAnswers(r.answers, r.waiting);
    forall k | 0 <= k < |r.answers| ensures k in r.waiting <==> m <= k {
      if m <= k { assert r.waiting[k - m] == k; }
    }
  }

  /** Rejecting the prompts that wait takes no line away. */
  lemma GivenRejected(r: Reader)
    requires Known(r) && WaitAtTheEnd(r)
    ensures Given(RejectAll(r.answers, r.waiting)) == Given(r.answers)
    ensures forall k :: 0 <= k < |r.answers| ==>
              RejectAll(r.answers, r.waiting)[k] == if r.answers[k].Waiting? then Rejected else r.answers[k]
  {
    var m := |r.answers| - |r.waiting|;
    var after := RejectAll(r.answers, r.waiting);
    LastOnesRejected(r);
    hide RejectAll, WaitAtTheEnd, Given;
    assert r.answers == r.answers[..m] + r.answers[m..] && after == r.answers[..m] + after[m..];
    GivenAppend(r.answers[..m], r.answers[m..]);
    GivenAppend(r.answers[..m], after[m..]);
    NothingGiven(r.answers[m..]);
    NothingGiven(after[m..]);
  }

  lemma LinesAppend(history: seq<Happening>, last: Happening)
    ensures LinesOf(history + [last]) == LinesOf(history) + (if last.Arrives? then [last.line] else [])
    ensures Asked(history + [last]) == Asked(history) + if last.Asks? then 1 else 0
    ensures HasClosed(history + [last]) <==> HasClosed(history) || last.Closes?
  {
    var h := history + [last];
    assert h[..|h| - 1] == history;
    assert forall x :: x in h <==> x in history || x == last;
  }

  lemma LineNotLost(history: seq<Happening>, before: Reader, line: string)
    requires NothingLost(history, before) && Known(before)
    ensures NothingLost(history + [Arrives(line)], OnLine(before, line))
  {
    LinesAppend(history, Arrives(line));
    if before.waiting != [] { GivenServed(before.answers, before.waiting[0], line); }
  }

  lemma CloseLosesNothing(history: seq<Happening>, before: Reader)
    requires NothingLost(history, before) && Known(before)
    ensures NothingLost(history + [Closes], OnClose(before))
  {
    LinesAppend(history, Closes);
    GivenRejected(before);
  }

  lemma GivenOneMore(answers: seq<Answer>, last: Answer)
    ensures Given(answers + [last]) == if last.Line? then Given(answers) + [last.line] else Given(answers)
  {
    assert (answers + [last])[..|answers|] == answers;
  }

  lemma PromptWaitsLast(r: Reader)
    requires WaitAtTheEnd(r) && (r.queued == [] || r.waiting == []) && (r.closed ==> r.waiting == [])
    ensures WaitAtTheEnd(OnPrompt(r))
  {
  }

  lemma FirstMovesOver(lines: seq<string>, queued: seq<string>)
    requires queued != []
    ensures (lines + [queued[0]]) + queued[1..] == lines + queued
  {
  }

  lemma PromptLosesNothing(history: seq<Happening>, before: Reader)
    requires NothingLost(history, before)
    ensures NothingLost(history + [Asks], OnPrompt(before))
  {
    hide HasClosed, Asked, LinesOf, Given, WaitAtTheEnd;
    LinesAppend(history, Asks);
    assert LinesOf(history) + [] == LinesOf(history);
    PromptWaitsLast(before);
    if before.queued != [] {
      GivenOneMore(before.answers, Line(before.queued[0]));
      FirstMovesOver(Given(before.answers), before.queued);
    } else {
      GivenOneMore(before.answers, if before.closed then Rejected else Waiting);
    }
  }

  /** For every history, even with lines after the close: what the prompts got, in the order of the prompts, followed by
      what is queued, is every line that came, in order. The prompts that wait are the last ones made, in order; there
      is never a line queued while one waits, and none waits after the close. */
  lemma {:induction false} NoLineIsLost(history: seq<Happening>)
    ensures NothingLost(history, After(history))
    decreases |history|
  {
    if history != [] {
      var init, last := history[..|history| - 1], history[|history| - 1];
      assert history == init + [last];
      NoLineIsLost(init);
      var before := After(init);
      assert After(history) == Handle(before, last);
      hide NothingLost, OnLine, OnClose, OnPrompt, After;
      match last
      case Arrives(line) => LineNotLost(init, before, line);
      case Closes => CloseLosesNothing(init, before);
      case Asks => PromptLosesNothing(init, before);
    }
  }

  // ---------------------------------------------------------------------------------------------- the k-th line

  /** The k-th prompt got what is due to it. */
  predicate AllDue(history: seq<Happening>) {
    forall k :: 0 <= k < |After(history).answers| ==>
      After(history).answers[k] == Due(k, LinesOf(history), HasClosed(history))
  }

  /** What the reader has to look like after `history`. */
  ghost predicate InOrder(history: seq<Happening>, r: Reader) {
    var lines := LinesOf(history);
    && r.closed == HasClosed(history) && |r.answers| == Asked(history)
    && (forall k :: 0 <= k < |r.answers| ==> r.answers[k] == Due(k, lines, r.closed))
    && r.queued == (if |r.answers| < |lines| then lines[|r.answers|..] else [])
    && r.waiting == (if r.closed || |r.answers| <= |lines| then [] else seq(|r.answers| - |lines|, i => |lines| + i))
  }

  lemma {:induction false} PrefixInTime(history: seq<Happening>, last: Happening)
    ensures NoLineAfterRejection(history + [last])
            <==> NoLineAfterRejection(history)
                 && (last.Arrives? && HasClosed(history) ==> Asked(history) <= |LinesOf(history)|)
  {
    var h := history + [last];
    hide HasClosed, Asked, LinesOf;
    assert h[..|history|] == history;
    assert forall j :: 0 <= j < |history| ==> h[..j] == history[..j];
    if NoLineAfterRejection(h) {
      forall j | 0 <= j < |history| && history[j].Arrives? && HasClosed(history[..j])
        ensures Asked(history[..j]) <= |LinesOf(history[..j])|
      {
        assert h[j] == history[j];
      }
      assert h[|history|] == last;
    }
  }

  lemma LineInOrder(history: seq<Happening>, before: Reader, line: string)
    requires InOrder(history, before) && Known(before)
    requires HasClosed(history) ==> Asked(history) <= |LinesOf(history)|
    ensures InOrder(history + [Arrives(line)], OnLine(before, line))
  {
    hide HasClosed, Asked, LinesOf;
    LinesAppend(history, Arrives(line));
    if before.waiting == [] { QueueGrows(LinesOf(history), line, |before.answers|); }
  }

  lemma QueueGrows(lines: seq<string>, line: string, asked: nat)
    requires asked <= |lines|
    ensures (if asked < |lines| then lines[asked..] else []) + [line] == (lines + [line])[asked..]
  {
  }

  lemma CloseInOrder(history: seq<Happening>, before: Reader)
    requires InOrder(history, before) && Known(before)
    ensures InOrder(history + [Closes], OnClose(before))
  {
    LinesAppend(history, Closes);
    var lines := LinesOf(history);
    RejectAllAnswers(before.answers, before.waiting);
    forall k | 0 <= k < |before.answers| ensures OnClose(before).answers[k] == Due(k, lines, true) {
      if !before.closed && |lines| <= k { assert before.waiting[k - |lines|] == k; }
    }
  }

  lemma PromptInOrder(history: seq<Happening>, before: Reader)
    requires InOrder(history, before)
    ensures InOrder(history + [Asks], OnPrompt(before))
  {
    LinesAppend(history, Asks);
  }

  lemma {:induction false} InTimeInOrder(history: seq<Happening>)
    requires NoLineAfterRejection(history)
    ensures InOrder(history, After(history))
    decreases |history|
  {
    if history != [] {
      var init, last := history[..|history| - 1], history[|history| - 1];
      assert history == init + [last];
      PrefixInTime(init, last);
      InTimeInOrder(init);
      var before := After(init);
      assert After(history) == Handle(before, last);
      hide InOrder, OnLine, OnClose, OnPrompt, After, HasClosed, NoLineAfterRejection;
      match last
      case Arrives(line) => LineInOrder(init, before, line);
      case Closes => CloseInOrder(init, before);
      case Asks => PromptInOrder(init, before);
    }
  }

  /** A rejected prompt stays rejected. */
  lemma RejectedStays(history: seq<Happening>, last: Happening, k: nat)
    requires k < |After(history).answers| && After(history).answers[k].Rejected?
    ensures k < |After(history + [last]).answers| && After(history + [last]).answers[k].Rejected?
  {
    var h := history + [last];
    assert h[..|h| - 1] == history;
    NoLineIsLost(history);
    var before := After(history);
    if last.Closes? { GivenRejected(before); }
  }

  /** A line that came too late: the prompt it would have been for was rejected before. */
  lemma {:induction false} TooLate(history: seq<Happening>) returns (k: nat)
    requires !NoLineAfterRejection(history)
    ensures k < |After(history).answers| && k < |LinesOf(history)| && After(history).answers[k].Rejected?
    decreases |history|
  {
    var init, last := history[..|history| - 1], history[|history| - 1];
    assert history == init + [last];
    PrefixInTime(init, last);
    LinesAppend(init, last);
    if NoLineAfterRejection(init) {
      InTimeInOrder(init);
      k := |LinesOf(init)|;
    } else {
      k := TooLate(init);
    }
    RejectedStays(init, last, k);
  }

  /** The k-th prompt gets the k-th line, or waits for it, or is rejected because the input closed without one: exactly
      when no line comes after the close for a prompt that was rejected. */
  lemma {:induction false} FirstInFirstOut(history: seq<Happening>)
    ensures AllDue(history) <==> NoLineAfterRejection(history)
  {
    if NoLineAfterRejection(history) {
      InTimeInOrder(history);
    } else {
      var k := TooLate(history);
      assert After(history).answers[k] != Due(k, LinesOf(history), HasClosed(history));
    }
  }

  lemma ShiftedAnswers(history: seq<Happening>)
    requires history == [Asks, Closes, Arrives("a"), Asks]
    ensures After(history).answers == [Rejected, Line("a")]
  {
    assert history[..3][..2] == history[..2] && history[..2][..1] == history[..1] && history[..1][..0] == [];
    assert After(history[..1]) == Reader([], [0], false, [Waiting]);
    assert After(history[..2]) == Reader([], [], true, [Rejected]);
    assert After(history[..3]) == Reader(["a"], [], true, [Rejected]);
  }

  /** The close rejects a prompt, the line that comes after it goes to the next one. */
  lemma LineAfterCloseShifts()
    ensures var history := [Asks, Closes, Arrives("a"), Asks];
            After(history).answers == [Rejected, Line("a")] && !AllDue(history)
  {
    var history := [Asks, Closes, Arrives("a"), Asks];
    ShiftedAnswers(history);
    hide After;
    NoLineIsLost(history);
    assert history == [Asks, Closes, Arrives("a")] + [Asks]
           && [Asks, Closes, Arrives("a")] == [Asks, Closes] + [Arrives("a")];
    LinesAppend([Asks, Closes, Arrives("a")], Asks);
    LinesAppend([Asks, Closes], Arrives("a"));
    assert After(history).answers[0] != Due(0, LinesOf(history), HasClosed(history));
  }
}
