/** The guarantees of the paste coordinator over every call sequence, and the object itself. */
module PasteTheorems {
  import opened Options
  import opened Paste
  import opened PasteProofs

  lemma {:induction false} RunKeeps(c: Coord, fp: Fingerprinter, calls: seq<Call>)
    requires Inv(c, fp)
    ensures Inv(Run(c, fp, calls), fp)
    decreases |calls|
  {
    hide Inv, Apply;
    if calls != [] {
      StepKeeps(c, fp, calls[0]);
      RunKeeps(Apply(c, fp, calls[0]), fp, calls[1..]);
    }
  }

  lemma FreshInv(hasClipboard: bool, hasPaste: bool, fp: Fingerprinter)
    ensures Inv(Fresh(hasClipboard, hasPaste), fp)
  {
  }

  /** In every call sequence every keystroke is justified; keystrokes never outnumber the
      scheduled pastes, nor those the successful captures. */
  lemma KeystrokesAreGuarded(hasClipboard: bool, hasPaste: bool, fp: Fingerprinter, calls: seq<Call>)
    ensures var trace := Run(Fresh(hasClipboard, hasPaste), fp, calls).trace;
            && (forall i: nat :: i < |trace| && trace[i].Injected? ==> Justified(trace, fp, i))
            && Keystrokes(trace) <= Schedulings(trace) <= Captures(trace)
  {
    FreshInv(hasClipboard, hasPaste, fp);
    RunKeeps(Fresh(hasClipboard, hasPaste), fp, calls);
  }

  /** Two keystrokes never rely on the same capture. */
  lemma CapturesAreSingleUse(trace: seq<Trace>, fp: Fingerprinter, i: nat, j: nat, c: int, w: int, r: int, c': int, w': int, r': int)
    requires i < j < |trace|
    requires JustifiedBy(trace, fp, i, c, w, r) && JustifiedBy(trace, fp, j, c', w', r')
    ensures c < i < c'
  {
    if c' < i {
      assert Disturbs(trace[i]);
    }
  }

  // ----- Retry bound

  /** How many more due polls a pending paste can absorb. */
  function Budget(c: Coord): nat {
    if c.pendingAt.None? || c.pendingStage.None? then 0
    else match c.pendingStage.value
      case RestoreTarget => 11
      case ConfirmTarget(deadline) =>
        if c.pendingAt.value >= deadline then 1
        else 1 + (deadline - c.pendingAt.value + FOCUS_CONFIRM_DELAY - 1) / FOCUS_CONFIRM_DELAY
  }

  predicate DuePoll(c: Coord, call: Call) {
    call.PollCall? && c.pendingAt.Some? && call.now >= c.pendingAt.value
  }

  lemma BudgetStep(c: Coord, fp: Fingerprinter, call: Call)
    requires FieldsOk(c) && !call.ScheduleCall?
    ensures Budget(Apply(c, fp, call)) <= Budget(c)
    ensures DuePoll(c, call) ==> Budget(Apply(c, fp, call)) < Budget(c)
  {
  }

  function DuePolls(c: Coord, fp: Fingerprinter, calls: seq<Call>): nat
    decreases |calls|
  {
    if calls == [] then 0
    else (if DuePoll(c, calls[0]) then 1 else 0) + DuePolls(Apply(c, fp, calls[0]), fp, calls[1..])
  }

  /** Until something new is scheduled, due polls stay within the budget, whatever else is called. */
  lemma {:induction false} DuePollsWithinBudget(c: Coord, fp: Fingerprinter, calls: seq<Call>)
    requires Inv(c, fp) && forall k :: k in calls ==> !k.ScheduleCall?
    ensures DuePolls(c, fp, calls) + Budget(Run(c, fp, calls)) <= Budget(c)
    decreases |calls|
  {
    if calls != [] {
      assert calls[0] in calls && forall k :: k in calls[1..] ==> k in calls;
      StepKeeps(c, fp, calls[0]);
      BudgetStep(c, fp, calls[0]);
      hide Apply, Inv, Budget, DuePoll;
      DuePollsWithinBudget(Apply(c, fp, calls[0]), fp, calls[1..]);
    }
  }

  /** A scheduled paste ends after at most eleven due polls: one restore and at most ten
      confirmations. In particular after eleven due polls nothing is pending. */
  lemma ScheduledPasteEnds(c: Coord, fp: Fingerprinter, calls: seq<Call>)
    requires Inv(c, fp) && forall k :: k in calls ==> !k.ScheduleCall?
    ensures DuePolls(c, fp, calls) <= 11
    ensures DuePolls(c, fp, calls) == 11 ==> !Pending(Run(c, fp, calls))
  {
    DuePollsWithinBudget(c, fp, calls);
    RunKeeps(c, fp, calls);
    assert Budget(c) <= 11;
  }

  /** Ten confirmations can really be needed: never in front, polled exactly when due. */
  lemma TenConfirmationsHappen(c: Coord, fp: Fingerprinter, t: int)
    requires FieldsOk(c) && c.pendingStage == Some(RestoreTarget) && c.pendingAt == Some(t) && c.backendTarget
    ensures var calls := seq(10, i => PollCall(t + 35 * i, true, NotForeground, None, true));
            DuePolls(c, fp, calls) == 10 && Pending(Run(c, fp, calls))
  {
    var calls := seq(10, i => PollCall(t + 35 * i, true, NotForeground, None, true));
    var c1 := Apply(c, fp, calls[0]);
    assert c1.pendingStage == Some(ConfirmTarget(t + 350)) && c1.pendingAt == Some(t + 35);
    hide Apply;
    StillWaiting(c1, fp, t, calls[1..], 1);
  }

  lemma {:induction false} StillWaiting(c: Coord, fp: Fingerprinter, t: int, calls: seq<Call>, n: nat)
    requires FieldsOk(c) && c.pendingStage == Some(ConfirmTarget(t + 350)) && c.pendingAt == Some(t + 35 * n) && c.backendTarget
    requires n <= 10 && |calls| == 10 - n
    requires forall i :: 0 <= i < |calls| ==> calls[i] == PollCall(t + 35 * (n + i), true, NotForeground, None, true)
    ensures DuePolls(c, fp, calls) == |calls| && Pending(Run(c, fp, calls))
    decreases |calls|
  {
    if calls != [] {
      var c1 := Apply(c, fp, calls[0]);
      assert c1.pendingAt == Some(t + 35 * (n + 1)) && c1.pendingStage == c.pendingStage && c1.backendTarget;
      hide Apply;
      StillWaiting(c1, fp, t, calls[1..], n + 1);
    }
  }

  /** A pending paste ends only in a reported result or by being superseded; while it stays
      pending a poll reports nothing. */
  lemma PollReportsTheEnd(c: Coord, fp: Fingerprinter, now: int, restoreOk: bool, focus: Focus, seen: Option<Flavors>, injectOk: bool)
    requires FieldsOk(c)
    ensures var r := Poll(c, fp, now, restoreOk, focus, seen, injectOk);
            (r.1.Nothing? <==> Pending(r.0) == Pending(c)) && (r.1.Sent? <==> r.0.trace != [] && Keystrokes(r.0.trace) > Keystrokes(c.trace))
  {
    var r := Poll(c, fp, now, restoreOk, focus, seen, injectOk);
    if Pending(c) && now >= c.pendingAt.value {
      PollTrace(c, fp, now, restoreOk, focus, seen, injectOk);
    }
  }

  lemma PollTrace(c: Coord, fp: Fingerprinter, now: int, restoreOk: bool, focus: Focus, seen: Option<Flavors>, injectOk: bool)
    requires FieldsOk(c) && Pending(c) && now >= c.pendingAt.value
    ensures var r := Poll(c, fp, now, restoreOk, focus, seen, injectOk);
            Keystrokes(r.0.trace) == Keystrokes(c.trace) + (if r.1.Sent? then 1 else 0)
  {
    if c.pendingStage.value.RestoreTarget? {
      var ok := c.backendTarget && restoreOk;
      hide Keystrokes, Schedulings, Captures;
      CountPush(c.trace, Restored(ok));
      CountPush(c.trace + [Restored(ok)], Cleared);
    } else {
      ConfirmTrace(c, fp, now, c.pendingStage.value.deadline, focus, seen, injectOk);
    }
  }

  lemma ConfirmTrace(c: Coord, fp: Fingerprinter, now: int, deadline: int, focus: Focus, seen: Option<Flavors>, injectOk: bool)
    requires c.hasPaste && c.hasClipboard
    ensures var r := PollConfirm(c, fp, now, deadline, focus, seen, injectOk);
            Keystrokes(r.0.trace) == Keystrokes(c.trace) + (if r.1.Sent? then 1 else 0)
  {
    hide Keystrokes, Schedulings, Captures, Allows;
    var answer := FocusAnswer(c, focus);
    var t1 := c.trace + [Asked(answer)];
    var t2 := t1 + [ReadBack(seen)];
    var t3 := t2 + [Injected(now, injectOk)];
    CountPush(c.trace, Asked(answer));
    CountPush(t1, Cleared);
    CountPush(t1, ReadBack(seen));
    CountPush(t2, Cleared);
    CountPush(t2, Injected(now, injectOk));
    CountPush(t3, Cleared);
  }

  // ----- A paste that nothing disturbs goes through, and one over other content does not

  /** The tail of `poll` sends the keystroke exactly when the clipboard reads back what was written. */
  lemma SentIff(c: Coord, fp: Fingerprinter, now: int, seen: Option<Flavors>, injectOk: bool)
    requires c.hasClipboard && c.hasPaste
    ensures var r := PollInject(c, fp, now, seen, injectOk);
            && (r.1.Sent? <==> seen.Some? && SameContent(c.pendingGuard, fp(seen.value)))
            && r.0.trace == c.trace + [ReadBack(seen)] + (if r.1.Sent? then [Injected(now, injectOk)] else []) + [Cleared]
  {
    assert c.trace + [ReadBack(seen)] + [] == c.trace + [ReadBack(seen)];
  }

  /** Capture, write, restore and a positive focus answer, each polled when due, for any times and flavors. */
  function PasteCalls(f: Flavors, sensitive: bool, t: int, d: nat, hint: bool, t1: int, t2: int, seen: Option<Flavors>, ok: bool): seq<Call> {
    [PrepareCall(true), ScheduleCall(f, sensitive, t, d, Receipt(hint)), PollCall(t1, true, NotForeground, None, ok),
     PollCall(t2, true, Foreground, seen, ok)]
  }

  /** From any state with both backends, an undisturbed paste sends exactly one keystroke if the clipboard
      still holds the written content, and none if it holds anything else or cannot be read. */
  lemma UndisturbedPaste(c: Coord, fp: Fingerprinter, f: Flavors, sensitive: bool, t: int, d: nat, hint: bool,
                         t1: int, t2: int, seen: Option<Flavors>, ok: bool)
    requires c.hasClipboard && c.hasPaste && fp(f).Some? && (hint || !sensitive)
    requires t1 >= t + d + 120 && t2 >= t1 + 35
    ensures var end := Run(c, fp, PasteCalls(f, sensitive, t, d, hint, t1, t2, seen, ok));
            && !Pending(end) && !end.targetReady && !end.backendTarget
            && end.trace == c.trace +
                 [Cleared, Captured(true), Wrote(f, true), ScheduledAt(t), Restored(true), Asked(Foreground), ReadBack(seen)] +
                 (if seen.Some? && SameContent(fp(f), fp(seen.value)) then [Injected(t2, ok)] else []) + [Cleared]
  {
    var calls := PasteCalls(f, sensitive, t, d, hint, t1, t2, seen, ok);
    Prepares(c, fp);
    var c1 := Apply(c, fp, calls[0]);
    Arms(c1, fp, f, sensitive, t, d, hint);
    var c2 := Apply(c1, fp, calls[1]);
    Restores(c2, fp, t1, ok);
    var c3 := Apply(c2, fp, calls[2]);
    Fires(c3, fp, t2, seen, ok);
    FourCalls(c, fp, calls[0], calls[1], calls[2], calls[3]);
    hide Apply, Run, Pending, SameContent;
    var sent := if seen.Some? && SameContent(fp(f), fp(seen.value)) then [Injected(t2, ok)] else [];
    TraceOfPaste(c.trace, f, t, seen, sent);
  }

  lemma TraceOfPaste(start: seq<Trace>, f: Flavors, t: int, seen: Option<Flavors>, sent: seq<Trace>)
    ensures start + [Cleared, Captured(true)] + [Wrote(f, true), ScheduledAt(t)] + [Restored(true)] +
            ([Asked(Foreground), ReadBack(seen)] + sent + [Cleared]) ==
            start + [Cleared, Captured(true), Wrote(f, true), ScheduledAt(t), Restored(true), Asked(Foreground), ReadBack(seen)] +
            sent + [Cleared]
  {
  }

  lemma Prepares(c: Coord, fp: Fingerprinter)
    requires c.hasClipboard && c.hasPaste
    ensures var n := Apply(c, fp, PrepareCall(true));
            && n.targetReady && n.backendTarget && n.hasClipboard && n.hasPaste
            && n.trace == c.trace + [Cleared, Captured(true)]
  {
    assert c.trace + [Cleared] + [Captured(true)] == c.trace + [Cleared, Captured(true)];
  }

  lemma Arms(c: Coord, fp: Fingerprinter, f: Flavors, sensitive: bool, t: int, d: nat, hint: bool)
    requires c.hasClipboard && c.hasPaste && c.targetReady && c.backendTarget && fp(f).Some? && (hint || !sensitive)
    ensures var n := Apply(c, fp, ScheduleCall(f, sensitive, t, d, Receipt(hint)));
            && n.hasClipboard && n.hasPaste && n.backendTarget && !n.targetReady
            && n.pendingGuard == fp(f) && n.pendingStage == Some(RestoreTarget) && n.pendingAt == Some(t + d + 120)
            && n.trace == c.trace + [Wrote(f, true), ScheduledAt(t)]
  {
    hide CancelTarget;
    assert c.trace + [Wrote(f, true)] + [ScheduledAt(t)] == c.trace + [Wrote(f, true), ScheduledAt(t)];
  }

  lemma Restores(c: Coord, fp: Fingerprinter, t1: int, ok: bool)
    requires c.hasClipboard && c.hasPaste && c.backendTarget && !c.targetReady
    requires c.pendingStage == Some(RestoreTarget) && c.pendingAt.Some? && t1 >= c.pendingAt.value
    ensures var n := Apply(c, fp, PollCall(t1, true, NotForeground, None, ok));
            && n.hasClipboard && n.hasPaste && n.backendTarget && !n.targetReady && n.pendingGuard == c.pendingGuard
            && n.pendingStage == Some(ConfirmTarget(t1 + 350)) && n.pendingAt == Some(t1 + 35)
            && n.trace == c.trace + [Restored(true)]
  {
    hide PollConfirm, Abort;
  }

  lemma Fires(c: Coord, fp: Fingerprinter, t2: int, seen: Option<Flavors>, ok: bool)
    requires c.hasClipboard && c.hasPaste && c.backendTarget && !c.targetReady
    requires c.pendingStage.Some? && c.pendingStage.value.ConfirmTarget? && c.pendingAt.Some? && t2 >= c.pendingAt.value
    ensures var n := Apply(c, fp, PollCall(t2, true, Foreground, seen, ok));
            && !Pending(n) && !n.targetReady && !n.backendTarget
            && n.trace == c.trace + ([Asked(Foreground), ReadBack(seen)] +
                 (if seen.Some? && SameContent(c.pendingGuard, fp(seen.value)) then [Injected(t2, ok)] else []) + [Cleared])
  {
    var asked := Log(c, Asked(Foreground));
    SentIff(asked, fp, t2, seen, ok);
    InjectEnds(asked, fp, t2, seen, ok);
    hide PollInject, PollRestore, Abort, SameContent;
    assert Apply(c, fp, PollCall(t2, true, Foreground, seen, ok)) == PollInject(asked, fp, t2, seen, ok).0;
  }

  lemma InjectEnds(c: Coord, fp: Fingerprinter, now: int, seen: Option<Flavors>, ok: bool)
    requires c.hasPaste
    ensures var n := PollInject(c, fp, now, seen, ok).0; !Pending(n) && !n.targetReady && !n.backendTarget
  {
  }

  lemma FourCalls(c: Coord, fp: Fingerprinter, k1: Call, k2: Call, k3: Call, k4: Call)
    ensures Run(c, fp, [k1, k2, k3, k4]) == Apply(Apply(Apply(Apply(c, fp, k1), fp, k2), fp, k3), fp, k4)
  {
    hide Apply;
    var calls := [k1, k2, k3, k4];
    assert calls[1..] == [k2, k3, k4] && [k2, k3, k4][1..] == [k3, k4] && [k3, k4][1..] == [k4] && [k4][1..] == [];
    var c1 := Apply(c, fp, k1);
    var c2 := Apply(c1, fp, k2);
    var c3 := Apply(c2, fp, k3);
    assert Run(c3, fp, [k4]) == Run(Apply(c3, fp, k4), fp, []);
    assert Run(c2, fp, [k3, k4]) == Run(c3, fp, [k4]);
    assert Run(c1, fp, [k2, k3, k4]) == Run(c2, fp, [k3, k4]);
  }
}
