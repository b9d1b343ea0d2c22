/** The paste coordinator: capture a target, write, schedule, restore, confirm with a deadline,
    verify the clipboard, inject. Backend answers are inputs; the trace records every backend call. */
module Paste {
  import opened Options

  const PASTE_DELAY: nat := 120
  const FOCUS_CONFIRM_DELAY: nat := 35
  const FOCUS_CONFIRM_TIMEOUT: nat := 350

  type Flavors = nat

  datatype Print = Print(digest: nat, identity: nat, hostHash: Option<nat>)

  /** How a clip is fingerprinted before a paste; some clips cannot be. */
  type Fingerprinter = Flavors -> Option<Print>

  /** `compare` allows exactly equal digests of equal identity; the host hash only picks the error. */
  predicate Allows(expected: Print, observed: Option<Print>) {
    observed.Some? && expected.digest == observed.value.digest && expected.identity == observed.value.identity
  }

  datatype Stage = RestoreTarget | ConfirmTarget(deadline: int)

  datatype WriteAnswer = WriteFailed | Receipt(hintApplied: bool)

  datatype Focus = FocusError | NotForeground | Foreground

  datatype Trace =
    | Cleared
    | Captured(ok: bool)
    | Wrote(flavors: Flavors, accepted: bool)
    | ScheduledAt(now: int)
    | Restored(ok: bool)
    | Asked(answer: Focus)
    | ReadBack(seen: Option<Flavors>)
    | Injected(at: int, ok: bool)

  /** `backendTarget`: the paste backend currently holds a captured window. The last four fields
      are history: the trace, and where in it the last capture, write and restore stand. */
  datatype Coord = Coord(
    hasClipboard: bool, hasPaste: bool,
    pendingAt: Option<int>, pendingStage: Option<Stage>, pendingGuard: Option<Print>,
    targetReady: bool, backendTarget: bool,
    trace: seq<Trace>, capturedAt: nat, wroteAt: nat, restoredAt: nat)

  datatype PasteOutcome = Scheduled | CopiedOnly | ScheduleFailed

  datatype PollResult = Nothing | Failed | Sent(ok: bool)

  function Fresh(hasClipboard: bool, hasPaste: bool): Coord {
    Coord(hasClipboard, hasPaste, None, None, None, false, false, [], 0, 0, 0)
  }

  // ----- The operations

  function Log(c: Coord, t: Trace): Coord { c.(trace := c.trace + [t]) }

  function CancelPending(c: Coord): Coord {
    c.(pendingAt := None, pendingStage := None, pendingGuard := None)
  }

  function ClearTarget(c: Coord): Coord { Log(c.(backendTarget := false), Cleared) }

  function CancelTarget(c: Coord): Coord {
    var c := c.(targetReady := false);
    if c.hasPaste then ClearTarget(c) else c
  }

  function PrepareTarget(c: Coord, captureOk: bool): Coord {
    var c := CancelPending(c).(targetReady := false);
    if !c.hasPaste then c
    else Log(ClearTarget(c), Captured(captureOk)).(backendTarget := captureOk, targetReady := captureOk,
                                                   capturedAt := |c.trace| + 1)
  }

  predicate CopySucceeds(c: Coord, sensitive: bool, answer: WriteAnswer) {
    c.hasClipboard && answer.Receipt? && (answer.hintApplied || !sensitive)
  }

  function Copy(c: Coord, flavors: Flavors, sensitive: bool, answer: WriteAnswer): Coord {
    var c := CancelPending(c);
    if c.hasClipboard then Log(c, Wrote(flavors, CopySucceeds(c, sensitive, answer))).(wroteAt := |c.trace|) else c
  }

  function Schedule(c: Coord, fp: Fingerprinter, flavors: Flavors, sensitive: bool, now: int,
                    writeDuration: nat, answer: WriteAnswer): (Coord, PasteOutcome)
  {
    var automatic := c.hasPaste && c.targetReady;
    var taken := if c.hasPaste then c.(targetReady := false) else c;
    if automatic && fp(flavors).None? then (CancelTarget(taken), ScheduleFailed)
    else
      var copied := Copy(taken, flavors, sensitive, answer);
      if !CopySucceeds(taken, sensitive, answer) then (CancelTarget(copied), ScheduleFailed)
      else if automatic then
        (Log(copied, ScheduledAt(now)).(pendingGuard := fp(flavors), pendingStage := Some(RestoreTarget),
                                        pendingAt := Some(now + writeDuration + PASTE_DELAY)), Scheduled)
      else (CancelTarget(copied), CopiedOnly)
  }

  function Abort(c: Coord): Coord { CancelTarget(CancelPending(c)) }

  function PollRestore(c: Coord, now: int, restoreOk: bool): (Coord, PollResult) {
    var ok := c.hasPaste && c.backendTarget && restoreOk;
    var c := if c.hasPaste then Log(c, Restored(ok)).(restoredAt := |c.trace|) else c;
    if !ok then (Abort(c), Failed)
    else (c.(pendingStage := Some(ConfirmTarget(now + FOCUS_CONFIRM_TIMEOUT)),
             pendingAt := Some(now + FOCUS_CONFIRM_DELAY)), Nothing)
  }

  /** Clearing the target first makes every later restore and confirmation fail. */
  function FocusAnswer(c: Coord, focus: Focus): Focus {
    if c.hasPaste && c.backendTarget then focus else FocusError
  }

  function PollInject(c: Coord, fp: Fingerprinter, now: int, seen: Option<Flavors>, injectOk: bool): (Coord, PollResult) {
    var expected := c.pendingGuard;
    var c := CancelPending(c);
    var observed := if c.hasClipboard && seen.Some? then fp(seen.value) else None;
    var c := if c.hasClipboard then Log(c, ReadBack(seen)) else c;
    if expected.None? || !Allows(expected.value, observed) then (CancelTarget(c), Failed)
    else if !c.hasPaste then (CancelTarget(c), Failed)
    else (CancelTarget(Log(c, Injected(now, injectOk))), Sent(injectOk))
  }

  function PollConfirm(c: Coord, fp: Fingerprinter, now: int, deadline: int, focus: Focus,
                       seen: Option<Flavors>, injectOk: bool): (Coord, PollResult)
  {
    var answer := FocusAnswer(c, focus);
    var c := if c.hasPaste then Log(c, Asked(answer)) else c;
    match answer
    case Foreground => PollInject(c, fp, now, seen, injectOk)
    case NotForeground =>
      if now < deadline then (c.(pendingAt := Some(now + FOCUS_CONFIRM_DELAY)), Nothing) else (Abort(c), Failed)
    case FocusError => (Abort(c), Failed)
  }

  function Poll(c: Coord, fp: Fingerprinter, now: int, restoreOk: bool, focus: Focus,
                seen: Option<Flavors>, injectOk: bool): (Coord, PollResult)
  {
    if c.pendingAt.None? || now < c.pendingAt.value then (c, Nothing)
    else
      match c.pendingStage
      case None => (c, Nothing)
      case Some(RestoreTarget) => PollRestore(c, now, restoreOk)
      case Some(ConfirmTarget(deadline)) => PollConfirm(c, fp, now, deadline, focus, seen, injectOk)
  }

  // ----- Call sequences

  datatype Call =
    | PrepareCall(captureOk: bool)
    | CancelCall
    | CopyCall(flavors: Flavors, sensitive: bool, answer: WriteAnswer)
    | ScheduleCall(flavors: Flavors, sensitive: bool, now: int, writeDuration: nat, answer: WriteAnswer)
    | PollCall(now: int, restoreOk: bool, focus: Focus, seen: Option<Flavors>, injectOk: bool)

  function Apply(c: Coord, fp: Fingerprinter, call: Call): Coord {
    match call
    case PrepareCall(ok) => PrepareTarget(c, ok)
    case CancelCall => CancelTarget(c)
    case CopyCall(f, s, a) => Copy(c, f, s, a)
    case ScheduleCall(f, s, now, d, a) => Schedule(c, fp, f, s, now, d, a).0
    case PollCall(now, r, f, seen, i) => Poll(c, fp, now, r, f, seen, i).0
  }

  function Run(c: Coord, fp: Fingerprinter, calls: seq<Call>): Coord
    decreases |calls|
  {
    if calls == [] then c else Run(Apply(c, fp, calls[0]), fp, calls[1..])
  }

}
