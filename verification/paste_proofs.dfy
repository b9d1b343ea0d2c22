/** Trace and time properties of the paste coordinator over every call sequence. */
module PasteProofs {
  import opened Options
  import opened Paste

  // ----- What a keystroke has behind it

  predicate Disturbs(t: Trace) { t.Cleared? || t.Captured? || t.Injected? }

  /** Between the two positions the target was neither cleared nor replaced, and nothing was injected. */
  predicate TargetKept(trace: seq<Trace>, after: int, before: int) {
    forall k :: after < k < before && 0 <= k < |trace| ==> !Disturbs(trace[k])
  }

  predicate NotInjected(trace: seq<Trace>, after: int) {
    forall k :: after < k < |trace| && 0 <= k ==> !trace[k].Injected?
  }

  predicate NotRewritten(trace: seq<Trace>, after: int, before: int) {
    forall k :: after < k < before && 0 <= k < |trace| ==> !trace[k].Wrote?
  }

  predicate GoodCapture(trace: seq<Trace>, c: int) {
    0 <= c < |trace| && trace[c] == Captured(true)
  }

  /** An accepted write, followed at once by the scheduling it belongs to. */
  predicate GoodWrite(trace: seq<Trace>, w: int) {
    0 <= w < |trace| - 1 && trace[w].Wrote? && trace[w].accepted && trace[w + 1].ScheduledAt?
  }

  predicate GoodRestore(trace: seq<Trace>, r: int) {
    0 <= r < |trace| && trace[r] == Restored(true)
  }

  /** Both can be fingerprinted, with equal digests and equal identities. */
  predicate SameContent(wrote: Option<Print>, seen: Option<Print>) {
    wrote.Some? && seen.Some? && wrote.value.digest == seen.value.digest && wrote.value.identity == seen.value.identity
  }

  /** The keystroke at `i` follows one capture, the write of flavors F, a restore, a positive
      foreground answer and a read whose fingerprint is that of F; nothing was written after F, the
      target was never cleared or replaced since its capture, and no keystroke used that capture
      before. It comes at least 155 ms after the call that scheduled it. */
  predicate JustifiedBy(trace: seq<Trace>, fp: Fingerprinter, i: nat, c: int, w: int, r: int)
    requires i < |trace|
  {
    && trace[i].Injected? && c < w && w + 1 < r < i - 2
    && GoodCapture(trace, c) && GoodWrite(trace, w) && GoodRestore(trace, r)
    && trace[i - 2] == Asked(Foreground)
    && trace[i - 1].ReadBack? && trace[i - 1].seen.Some?
    && SameContent(fp(trace[w].flavors), fp(trace[i - 1].seen.value))
    && NotRewritten(trace, w, i) && TargetKept(trace, c, i)
    && trace[i].at >= trace[w + 1].now + 155
  }

  ghost predicate Justified(trace: seq<Trace>, fp: Fingerprinter, i: nat)
    requires i < |trace|
  {
    exists c, w, r :: JustifiedBy(trace, fp, i, c, w, r)
  }

  // ----- Counting

  function Count(trace: seq<Trace>, p: Trace -> bool): nat {
    if trace == [] then 0 else Count(trace[..|trace| - 1], p) + (if p(trace[|trace| - 1]) then 1 else 0)
  }

  function Keystrokes(trace: seq<Trace>): nat { Count(trace, (t: Trace) => t.Injected?) }
  function Schedulings(trace: seq<Trace>): nat { Count(trace, (t: Trace) => t.ScheduledAt?) }
  function Captures(trace: seq<Trace>): nat { Count(trace, (t: Trace) => t == Captured(true)) }

  lemma CountPush(trace: seq<Trace>, t: Trace)
    ensures Keystrokes(trace + [t]) == Keystrokes(trace) + (if t.Injected? then 1 else 0)
    ensures Schedulings(trace + [t]) == Schedulings(trace) + (if t.ScheduledAt? then 1 else 0)
    ensures Captures(trace + [t]) == Captures(trace) + (if t == Captured(true) then 1 else 0)
  {
    assert (trace + [t])[..|trace|] == trace;
  }

  // ----- Invariant

  predicate Pending(c: Coord) { c.pendingAt.Some? }

  predicate FieldsOk(c: Coord) {
    && (c.pendingAt.Some? <==> c.pendingStage.Some?) && (c.pendingAt.Some? <==> c.pendingGuard.Some?)
    && (Pending(c) ==> !c.targetReady && c.hasPaste && c.hasClipboard)
    && (c.targetReady ==> c.hasPaste && c.backendTarget)
  }

  predicate ReadyOk(c: Coord) {
    c.targetReady ==> GoodCapture(c.trace, c.capturedAt) && TargetKept(c.trace, c.capturedAt, |c.trace|)
  }

  predicate ArmedOk(c: Coord, fp: Fingerprinter) {
    c.pendingAt.Some? && c.pendingStage.Some? ==>
      && c.capturedAt < c.wroteAt
      && GoodCapture(c.trace, c.capturedAt) && GoodWrite(c.trace, c.wroteAt)
      && NotRewritten(c.trace, c.wroteAt, |c.trace|) && NotInjected(c.trace, c.capturedAt)
      && (c.backendTarget ==> TargetKept(c.trace, c.capturedAt, |c.trace|))
      && fp(c.trace[c.wroteAt].flavors) == c.pendingGuard
      && var due, scheduled := c.pendingAt.value, c.trace[c.wroteAt + 1].now;
         match c.pendingStage.value
         case RestoreTarget => due >= scheduled + PASTE_DELAY
         case ConfirmTarget(deadline) =>
           && c.wroteAt + 1 < c.restoredAt && GoodRestore(c.trace, c.restoredAt)
           && due >= scheduled + PASTE_DELAY + FOCUS_CONFIRM_DELAY
           && due >= deadline - FOCUS_CONFIRM_TIMEOUT + FOCUS_CONFIRM_DELAY
  }

  predicate CountsOk(c: Coord) {
    && Keystrokes(c.trace) + (if Pending(c) then 1 else 0) <= Schedulings(c.trace)
    && Schedulings(c.trace) + (if c.targetReady then 1 else 0) <= Captures(c.trace)
  }

  ghost predicate AllJustified(trace: seq<Trace>, fp: Fingerprinter) {
    forall i: nat :: i < |trace| && trace[i].Injected? ==> Justified(trace, fp, i)
  }

  ghost predicate Inv(c: Coord, fp: Fingerprinter) {
    FieldsOk(c) && ReadyOk(c) && ArmedOk(c, fp) && CountsOk(c) && AllJustified(c.trace, fp)
  }

  lemma JustifiedStays(trace: seq<Trace>, more: seq<Trace>, fp: Fingerprinter, i: nat)
    requires i < |trace| && Justified(trace, fp, i)
    ensures Justified(trace + more, fp, i)
  {
    var c, w, r :| JustifiedBy(trace, fp, i, c, w, r);
    assert JustifiedBy(trace + more, fp, i, c, w, r);
  }

  /** Recording anything but a keystroke keeps every keystroke justified. */
  lemma PushKeepsJustified(trace: seq<Trace>, t: Trace, fp: Fingerprinter)
    requires AllJustified(trace, fp) && (t.Injected? ==> Justified(trace + [t], fp, |trace|))
    ensures AllJustified(trace + [t], fp)
  {
    forall i: nat | i < |trace + [t]| && (trace + [t])[i].Injected? ensures Justified(trace + [t], fp, i) {
      if i < |trace| {
        JustifiedStays(trace, [t], fp, i);
      }
    }
  }

  // ----- Steps

  /** Logging a harmless event keeps everything; `Cleared` is harmless once nothing counts on the target. */
  lemma LogKeeps(c: Coord, t: Trace, fp: Fingerprinter)
    requires Inv(c, fp) && !t.Injected? && !t.Wrote? && !t.ScheduledAt? && !t.Captured?
    requires t.Cleared? ==> !c.targetReady && !c.backendTarget
    ensures Inv(Log(c, t), fp)
  {
    CountPush(c.trace, t);
    PushKeepsJustified(c.trace, t, fp);
  }

  lemma CancelPendingKeeps(c: Coord, fp: Fingerprinter)
    requires Inv(c, fp)
    ensures Inv(CancelPending(c), fp)
  {
  }

  lemma CancelTargetKeeps(c: Coord, fp: Fingerprinter)
    requires Inv(c, fp)
    ensures Inv(CancelTarget(c), fp)
  {
    var c1 := c.(targetReady := false);
    if c.hasPaste {
      LogKeeps(c1.(backendTarget := false), Cleared, fp);
    }
  }

  lemma PrepareKeeps(c: Coord, captureOk: bool, fp: Fingerprinter)
    requires Inv(c, fp)
    ensures Inv(PrepareTarget(c, captureOk), fp)
  {
    var c1 := CancelPending(c).(targetReady := false);
    if c.hasPaste {
      LogKeeps(c1.(backendTarget := false), Cleared, fp);
      CountPush(ClearTarget(c1).trace, Captured(captureOk));
      PushKeepsJustified(ClearTarget(c1).trace, Captured(captureOk), fp);
    }
  }

  lemma CopyKeeps(c: Coord, flavors: Flavors, sensitive: bool, answer: WriteAnswer, fp: Fingerprinter)
    requires Inv(c, fp)
    ensures Inv(Copy(c, flavors, sensitive, answer), fp)
  {
    if c.hasClipboard {
      var t := Wrote(flavors, CopySucceeds(CancelPending(c), sensitive, answer));
      CountPush(c.trace, t);
      PushKeepsJustified(c.trace, t, fp);
    }
  }

  lemma ScheduleKeeps(c: Coord, fp: Fingerprinter, flavors: Flavors, sensitive: bool, now: int, d: nat, answer: WriteAnswer)
    requires Inv(c, fp)
    ensures Inv(Schedule(c, fp, flavors, sensitive, now, d, answer).0, fp)
  {
    var automatic := c.hasPaste && c.targetReady;
    var taken := if c.hasPaste then c.(targetReady := false) else c;
    assert Inv(taken, fp);
    var copied := Copy(taken, flavors, sensitive, answer);
    CopyKeeps(taken, flavors, sensitive, answer, fp);
    if automatic && fp(flavors).None? {
      CancelTargetKeeps(taken, fp);
    } else if !CopySucceeds(taken, sensitive, answer) || !automatic {
      CancelTargetKeeps(copied, fp);
    } else {
      ArmingKeeps(c, copied, fp, flavors, now, d);
    }
  }

  /** A captured, unused target plus an accepted write arm the paste. */
  lemma ArmingKeeps(c: Coord, copied: Coord, fp: Fingerprinter, flavors: Flavors, now: int, d: nat)
    requires Inv(c, fp) && c.targetReady && c.hasPaste && c.hasClipboard && fp(flavors).Some?
    requires copied == Log(CancelPending(c.(targetReady := false)), Wrote(flavors, true)).(wroteAt := |c.trace|)
    requires Inv(copied, fp)
    ensures Inv(Log(copied, ScheduledAt(now)).(pendingGuard := fp(flavors), pendingStage := Some(RestoreTarget),
                                               pendingAt := Some(now + d + PASTE_DELAY)), fp)
  {
    CountPush(c.trace, Wrote(flavors, true));
    CountPush(copied.trace, ScheduledAt(now));
    PushKeepsJustified(copied.trace, ScheduledAt(now), fp);
  }

  lemma AbortKeeps(c: Coord, fp: Fingerprinter)
    requires Inv(c, fp)
    ensures Inv(Abort(c), fp)
  {
    CancelPendingKeeps(c, fp);
    CancelTargetKeeps(CancelPending(c), fp);
  }

  lemma RestoreKeeps(c: Coord, fp: Fingerprinter, now: int, restoreOk: bool)
    requires Inv(c, fp) && c.pendingStage == Some(RestoreTarget) && now >= c.pendingAt.value
    ensures Inv(PollRestore(c, now, restoreOk).0, fp)
  {
    var ok := c.backendTarget && restoreOk;
    LogKeeps(c, Restored(ok), fp);
    var logged := Log(c, Restored(ok)).(restoredAt := |c.trace|);
    assert Inv(logged, fp);
    if !ok {
      AbortKeeps(logged, fp);
    }
  }

  lemma ConfirmKeeps(c: Coord, fp: Fingerprinter, now: int, deadline: int, focus: Focus, seen: Option<Flavors>, injectOk: bool)
    requires Inv(c, fp) && c.pendingStage == Some(ConfirmTarget(deadline)) && now >= c.pendingAt.value
    ensures Inv(PollConfirm(c, fp, now, deadline, focus, seen, injectOk).0, fp)
  {
    var answer := FocusAnswer(c, focus);
    LogKeeps(c, Asked(answer), fp);
    var asked := Log(c, Asked(answer));
    AbortKeeps(asked, fp);
    if answer.Foreground? {
      InjectKeeps(c, asked, fp, now, seen, injectOk);
    }
  }

  lemma KeystrokeJustified(c: Coord, fp: Fingerprinter, now: int, seen: Option<Flavors>, injectOk: bool)
    requires ArmedOk(c, fp) && FieldsOk(c) && Pending(c) && c.pendingStage.value.ConfirmTarget?
    requires now >= c.pendingAt.value && c.backendTarget
    requires seen.Some? && Allows(c.pendingGuard.value, fp(seen.value))
    ensures Justified(c.trace + [Asked(Foreground)] + [ReadBack(seen)] + [Injected(now, injectOk)], fp, |c.trace| + 2)
  {
    var trace := c.trace + [Asked(Foreground)] + [ReadBack(seen)] + [Injected(now, injectOk)];
    assert JustifiedBy(trace, fp, |c.trace| + 2, c.capturedAt, c.wroteAt, c.restoredAt);
  }

  lemma InjectKeeps(c: Coord, asked: Coord, fp: Fingerprinter, now: int, seen: Option<Flavors>, injectOk: bool)
    requires Inv(c, fp) && Pending(c) && c.pendingStage.value.ConfirmTarget? && now >= c.pendingAt.value && c.backendTarget
    requires asked == Log(c, Asked(Foreground)) && Inv(asked, fp)
    ensures Inv(PollInject(asked, fp, now, seen, injectOk).0, fp)
  {
    hide AllJustified, ArmedOk, CountsOk, ReadyOk;
    var checked := Log(CancelPending(asked), ReadBack(seen));
    var observed := if seen.Some? then fp(seen.value) else None;
    CancelPendingKeeps(asked, fp);
    LogKeeps(CancelPending(asked), ReadBack(seen), fp);
    if Allows(c.pendingGuard.value, observed) {
      KeystrokeJustified(c, fp, now, seen, injectOk);
      KeystrokeCounted(c, checked, fp, Injected(now, injectOk));
      CancelTargetKeeps(Log(checked, Injected(now, injectOk)), fp);
    } else {
      CancelTargetKeeps(checked, fp);
    }
  }

  /** The keystroke uses up the pending paste. */
  lemma KeystrokeCounted(c: Coord, checked: Coord, fp: Fingerprinter, t: Trace)
    requires Inv(c, fp) && Pending(c) && Inv(checked, fp) && !Pending(checked) && !checked.targetReady && t.Injected?
    requires exists a, b :: checked.trace == c.trace + [a] + [b] && a.Asked? && b.ReadBack?
    requires Justified(checked.trace + [t], fp, |checked.trace|)
    ensures Inv(Log(checked, t), fp)
  {
    var a, b :| checked.trace == c.trace + [a] + [b] && a.Asked? && b.ReadBack?;
    CountPush(c.trace, a);
    CountPush(c.trace + [a], b);
    CountPush(checked.trace, t);
    PushKeepsJustified(checked.trace, t, fp);
    hide AllJustified, ArmedOk, Keystrokes, Schedulings, Captures;
  }

  lemma StepKeeps(c: Coord, fp: Fingerprinter, call: Call)
    requires Inv(c, fp)
    ensures Inv(Apply(c, fp, call), fp)
  {
    match call
    case PrepareCall(ok) => PrepareKeeps(c, ok, fp);
    case CancelCall => CancelTargetKeeps(c, fp);
    case CopyCall(f, s, a) => CopyKeeps(c, f, s, a, fp);
    case ScheduleCall(f, s, now, d, a) => ScheduleKeeps(c, fp, f, s, now, d, a);
    case PollCall(now, r, f, seen, i) =>
      if Pending(c) && now >= c.pendingAt.value {
        match c.pendingStage.value
        case RestoreTarget => RestoreKeeps(c, fp, now, r);
        case ConfirmTarget(deadline) => ConfirmKeeps(c, fp, now, deadline, f, seen, i);
      }
  }
}
