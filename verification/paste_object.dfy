/** The coordinator object: its fields are updated in place around the calls to the two
    backends, whose answers are parameters; the trace records those calls. */
module PasteObject {
  import opened Options
  import opened Paste
  import opened PasteProofs

  class PasteCoordinator {
    const hasClipboard: bool
    const hasPaste: bool
    const fp: Fingerprinter
    var pendingAt: Option<int>
    var pendingStage: Option<Stage>
    var pendingGuard: Option<Print>
    var targetReady: bool
    var backendTarget: bool
    var trace: seq<Trace>
    ghost var capturedAt: nat
    ghost var wroteAt: nat
    ghost var restoredAt: nat

    ghost function View(): Coord
      reads this
    {
      Coord(hasClipboard, hasPaste, pendingAt, pendingStage, pendingGuard, targetReady, backendTarget,
            trace, capturedAt, wroteAt, restoredAt)
    }

    constructor (hasClipboard: bool, hasPaste: bool, fp: Fingerprinter)
      ensures View() == Fresh(hasClipboard, hasPaste) && this.fp == fp && Inv(View(), fp)
    {
      this.hasClipboard, this.hasPaste, this.fp := hasClipboard, hasPaste, fp;
      pendingAt, pendingStage, pendingGuard := None, None, None;
      targetReady, backendTarget, trace := false, false, [];
      capturedAt, wroteAt, restoredAt := 0, 0, 0;
    }

    method ForgetPending()
      modifies this
      ensures View() == CancelPending(old(View()))
    {
      pendingAt, pendingStage, pendingGuard := None, None, None;
    }

    method DropTarget()
      modifies this
      ensures View() == CancelTarget(old(View()))
      ensures !targetReady && trace == old(trace) + (if hasPaste then [Cleared] else []) && (hasPaste ==> !backendTarget)
    {
      targetReady := false;
      if hasPaste {
        backendTarget := false;
        trace := trace + [Cleared];
      }
    }

    method PrepareForPicker(captureOk: bool) returns (ready: bool)
      modifies this
      ensures View() == PrepareTarget(old(View()), captureOk)
      ensures ready <==> hasPaste && captureOk
    {
      ForgetPending();
      targetReady := false;
      if !hasPaste {
        return false;
      }
      backendTarget := false;
      trace := trace + [Cleared];
      trace, capturedAt := trace + [Captured(captureOk)], |trace|;
      backendTarget := captureOk;
      if captureOk {
        targetReady := true;
      }
      return captureOk;
    }

    method CopyOnly(flavors: Flavors, sensitive: bool, answer: WriteAnswer) returns (ok: bool)
      modifies this
      ensures View() == Copy(old(View()), flavors, sensitive, answer)
      ensures ok <==> hasClipboard && answer.Receipt? && (answer.hintApplied || !sensitive)
      ensures ok ==> trace == old(trace) + [Wrote(flavors, true)]
    {
      ForgetPending();
      if !hasClipboard {
        return false;
      }
      ok := answer.Receipt? && (answer.hintApplied || !sensitive);
      trace, wroteAt := trace + [Wrote(flavors, ok)], |trace|;
    }

    method SchedulePaste(flavors: Flavors, sensitive: bool, now: int, writeDuration: nat, answer: WriteAnswer)
      returns (outcome: PasteOutcome)
      modifies this
      ensures (View(), outcome) == Schedule(old(View()), fp, flavors, sensitive, now, writeDuration, answer)
      ensures outcome.Scheduled? <==> hasPaste && old(targetReady) && fp(flavors).Some?
                                      && hasClipboard && answer.Receipt? && (answer.hintApplied || !sensitive)
      ensures hasPaste && old(targetReady) && fp(flavors).None? ==> trace == old(trace) + [Cleared]
      ensures outcome.CopiedOnly? <==> !(hasPaste && old(targetReady))
                                       && hasClipboard && answer.Receipt? && (answer.hintApplied || !sensitive)
      ensures outcome.Scheduled? ==> pendingAt == Some(now + writeDuration + 120) && pendingGuard == fp(flavors)
      ensures outcome.Scheduled? ==> Pending(View()) && trace == old(trace) + [Wrote(flavors, true), ScheduledAt(now)]
    {
      hide Copy, CancelTarget;
      var automatic := hasPaste && targetReady;
      if hasPaste {
        targetReady := false;
      }
      var guard := if automatic then fp(flavors) else None;
      if automatic && guard.None? {
        DropTarget();
        return ScheduleFailed;
      }
      var copied := CopyOnly(flavors, sensitive, answer);
      if !copied {
        DropTarget();
        return ScheduleFailed;
      }
      if guard.Some? {
        pendingGuard := guard;
        pendingStage := Some(RestoreTarget);
        pendingAt := Some(now + writeDuration + PASTE_DELAY);
        trace := trace + [ScheduledAt(now)];
        return Scheduled;
      }
      DropTarget();
      return CopiedOnly;
    }

    method PollDue(now: int, restoreOk: bool, focus: Focus, seen: Option<Flavors>, injectOk: bool) returns (result: PollResult)
      requires FieldsOk(View())
      modifies this
      ensures (View(), result) == Poll(old(View()), fp, now, restoreOk, focus, seen, injectOk)
      ensures old(pendingAt).None? || now < old(pendingAt).value ==> result == Nothing && View() == old(View())
    {
      if pendingAt.None? || now < pendingAt.value {
        return Nothing;
      }
      match pendingStage.value {
        case RestoreTarget => result := RestoreStage(now, restoreOk);
        case ConfirmTarget(deadline) => result := ConfirmStage(now, deadline, focus, seen, injectOk);
      }
    }

    method RestoreStage(now: int, restoreOk: bool) returns (result: PollResult)
      requires FieldsOk(View()) && pendingAt.Some?
      modifies this
      ensures (View(), result) == PollRestore(old(View()), now, restoreOk)
      ensures result.Nothing? <==> old(backendTarget) && restoreOk
    {
      var ok := backendTarget && restoreOk;
      trace, restoredAt := trace + [Restored(ok)], |trace|;
      if !ok {
        ForgetPending();
        DropTarget();
        return Failed;
      }
      pendingStage := Some(ConfirmTarget(now + FOCUS_CONFIRM_TIMEOUT));
      pendingAt := Some(now + FOCUS_CONFIRM_DELAY);
      return Nothing;
    }

    method ConfirmStage(now: int, deadline: int, focus: Focus, seen: Option<Flavors>, injectOk: bool) returns (result: PollResult)
      requires FieldsOk(View()) && pendingAt.Some?
      modifies this
      ensures (View(), result) == PollConfirm(old(View()), fp, now, deadline, focus, seen, injectOk)
      ensures result.Nothing? <==> old(backendTarget) && focus.NotForeground? && now < deadline
      ensures result.Nothing? ==> pendingAt == Some(now + 35) && pendingStage == old(pendingStage)
      ensures result.Sent? <==> old(backendTarget) && focus.Foreground? && seen.Some? && SameContent(old(pendingGuard), fp(seen.value))
    {
      var answer := if backendTarget then focus else FocusError;
      trace := trace + [Asked(answer)];
      match answer {
        case Foreground =>
          result := VerifyAndInject(now, seen, injectOk);
        case NotForeground =>
          if now < deadline {
            pendingAt := Some(now + FOCUS_CONFIRM_DELAY);
            return Nothing;
          }
          ForgetPending();
          DropTarget();
          return Failed;
        case FocusError =>
          ForgetPending();
          DropTarget();
          return Failed;
      }
    }

    /** Any call on the coordinator: the state moves as specified and every guarantee is kept. */
    method Serve(call: Call)
      requires Inv(View(), fp)
      modifies this
      ensures View() == Apply(old(View()), fp, call) && Inv(View(), fp)
    {
      StepKeeps(View(), fp, call);
      hide AllJustified, ArmedOk, CountsOk, ReadyOk;
      hide PrepareTarget, Copy, Schedule, Poll, CancelTarget;
      match call {
        case PrepareCall(ok) =>
          var ready := PrepareForPicker(ok);
        case CancelCall => DropTarget();
        case CopyCall(flavors, sensitive, answer) =>
          var ok := CopyOnly(flavors, sensitive, answer);
        case ScheduleCall(flavors, sensitive, now, writeDuration, answer) =>
          var outcome := SchedulePaste(flavors, sensitive, now, writeDuration, answer);
        case PollCall(now, restoreOk, focus, seen, injectOk) =>
          var result := PollDue(now, restoreOk, focus, seen, injectOk);
      }
    }

    /** The tail of `poll`: take the guard, read the clipboard back, and inject only on a match. */
    method VerifyAndInject(now: int, seen: Option<Flavors>, injectOk: bool) returns (result: PollResult)
      requires FieldsOk(View()) && pendingAt.Some?
      modifies this
      ensures (View(), result) == PollInject(old(View()), fp, now, seen, injectOk)
      ensures result.Sent? <==> seen.Some? && SameContent(old(pendingGuard), fp(seen.value))
    {
      var expected := pendingGuard;
      ForgetPending();
      trace := trace + [ReadBack(seen)];
      var observed := if seen.Some? then fp(seen.value) else None;
      if !Allows(expected.value, observed) {
        DropTarget();
        return Failed;
      }
      trace := trace + [Injected(now, injectOk)];
      DropTarget();
      return Sent(injectOk);
    }
  }
}
