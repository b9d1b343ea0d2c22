/** The capture worker's poll loop: read, integrity check, deduplication, throttling, generation
    tracking, policy verdict, byte admission and store insert, with its many early exits. */
module CaptureWorker {
  import opened Options
  import opened Reliability

  type Hash = nat

  const MAX_READ_FAILURES: u8 := 5
  const SHED_RETRY_INTERVAL_MS: int := 5_000
  const SKIP_RECOVERY_WINDOW_MS: int := 30_000

  datatype Generation = Generation(epoch: nat, sequence: nat)

  /** A drop reason, by its class and by whether the user may re-grab the clipboard. */
  datatype Reason = Reason(intentional: bool, recoverable: bool)

  datatype Verdict = Skip(reason: Reason) | Capture(memoryOnly: bool)

  /** Everything one successful, non-empty read and the oracles consulted about it supply:
      `selfWrite` from the ledger, `policy` from the policy, `recoveryRequested` from the user. */
  datatype Captured = Captured(
    hash: Hash, provenance: nat, generation: Option<Generation>,
    intact: bool, coherenceTorn: bool, realized: bool, realizedAfterAction: bool, previewable: bool,
    payload: usize, at: int, recoveryRequested: bool, selfWrite: bool, policy: Verdict, storeOk: bool)

  datatype Input = Paused | ReadFailed | ReadEmpty | Read(c: Captured)

  /** Configured limits, and what the memory sampler asks for at this poll. */
  datatype Limits = Limits(soft: usize, hard: usize, preview: usize, reject: Option<usize>, deferWork: bool)

  datatype Skipped = Skipped(at: int, reason: Reason, provenance: nat, generation: Option<Generation>, hash: Hash)

  datatype Worker = Worker(
    lastHash: Option<Hash>, lastShed: Option<(Hash, int)>, lastGeneration: Option<Generation>,
    latestSkip: Option<Skipped>, readFailures: u8)

  const NewWorker: Worker := Worker(None, None, None, None, 0)

  // ----- Decisions

  /** The user re-grabs exactly what was last skipped, within the window. */
  predicate Explicit(w: Worker, c: Captured) {
    && c.recoveryRequested && w.latestSkip.Some?
    && var k := w.latestSkip.value;
       && k.reason.recoverable && c.at - k.at <= SKIP_RECOVERY_WINDOW_MS
       && k.provenance == c.provenance && k.hash == c.hash && k.generation == c.generation
  }

  predicate Suppressed(lastShed: Option<(Hash, int)>, hash: Hash, at: int) {
    lastShed.Some? && lastShed.value.0 == hash && Max(at - lastShed.value.1, 0) < SHED_RETRY_INTERVAL_MS
  }

  predicate Stale(last: Option<Generation>, g: Generation) {
    last.Some? && last.value.epoch == g.epoch && g.sequence <= last.value.sequence
  }

  function Judgement(w: Worker, c: Captured): Verdict {
    if Explicit(w, c) && !c.selfWrite && !c.coherenceTorn && c.realized then Capture(true) else c.policy
  }

  function HardLimit(l: Limits): usize {
    Min(if l.reject.Some? then l.reject.value else l.hard, l.hard)
  }

  function SoftLimit(l: Limits): usize {
    if l.deferWork then Max(Min(l.soft, HardLimit(l) / 2), 1) else l.soft
  }

  /** The accounting object as every poll finds it: nothing queued, these limits in force. */
  function Idle(l: Limits): Pressure {
    Relimited(NewPressure(1, 1, 1, 1), SoftLimit(l), HardLimit(l), l.preview)
  }

  /** What becomes of one poll. */
  datatype Fate =
    | Quiet
    | Broken
    | TornRead
    | Unchanged
    | ShedWait
    | StaleGeneration
    | PolicySkip(reason: Reason)
    | Unrealized
    | TooLarge
    | Unpreviewable
    | Attempted(memoryOnly: bool, truncated: bool, stored: bool)

  function AdmissionFate(c: Captured, l: Limits, memoryOnly: bool): Fate {
    match Reliability.Verdict(Idle(l), c.payload)
    case Shed => TooLarge
    case Preview(_) => if c.previewable then Attempted(memoryOnly, true, c.storeOk) else Unpreviewable
    case Full => Attempted(memoryOnly, false, c.storeOk)
  }

  function JudgedFate(w: Worker, c: Captured, l: Limits): Fate {
    match Judgement(w, c)
    case Skip(reason) => PolicySkip(reason)
    case Capture(memoryOnly) => if c.realizedAfterAction then AdmissionFate(c, l, memoryOnly) else Unrealized
  }

  function Fated(w: Worker, i: Input, l: Limits): Fate {
    match i
    case Paused => Quiet
    case ReadEmpty => Quiet
    case ReadFailed => Broken
    case Read(c) =>
      if !c.intact then TornRead
      else if w.lastHash == Some(c.hash) && !Explicit(w, c) then Unchanged
      else if !Explicit(w, c) && Suppressed(w.lastShed, c.hash, c.at) then ShedWait
      else if !Explicit(w, c) && c.generation.Some? && Stale(w.lastGeneration, c.generation.value) then StaleGeneration
      else JudgedFate(w, c, l)
  }

  /** The poll got as far as the policy. */
  predicate Judged(f: Fate) {
    f.PolicySkip? || f.Unrealized? || f.TooLarge? || f.Unpreviewable? || f.Attempted?
  }

  // ----- The state after a poll, by fate

  function NextHash(w: Worker, c: Captured, f: Fate): Option<Hash> {
    if (f.Attempted? && f.stored) || (f.PolicySkip? && f.reason.intentional) then Some(c.hash) else w.lastHash
  }

  function NextShed(w: Worker, c: Captured, f: Fate): Option<(Hash, int)> {
    if f.TooLarge? || f.Unpreviewable? then Some((c.hash, c.at))
    else if f.Attempted? && f.stored then None
    else if !Explicit(w, c) && (f.StaleGeneration? || Judged(f)) then None
    else w.lastShed
  }

  function NextGeneration(w: Worker, c: Captured, f: Fate): Option<Generation> {
    if !Explicit(w, c) && Judged(f) && c.generation.Some? then c.generation else w.lastGeneration
  }

  /** The failed read that makes the worker exit. */
  predicate Exits(w: Worker, i: Input) {
    i.ReadFailed? && SatIncU8(w.readFailures) >= MAX_READ_FAILURES
  }

  /** A worker that exits is started again, and remembers nothing. */
  function Next(w: Worker, i: Input, l: Limits): Worker {
    match i
    case Paused => w
    case ReadFailed => if Exits(w, i) then NewWorker else w.(readFailures := SatIncU8(w.readFailures))
    case ReadEmpty => w.(readFailures := 0)
    case Read(c) =>
      var f := Fated(w, i, l);
      Worker(NextHash(w, c, f), NextShed(w, c, f), NextGeneration(w, c, f),
             if f.PolicySkip? then Some(Skipped(c.at, f.reason, c.provenance, c.generation, c.hash)) else w.latestSkip,
             0)
  }

  // ----- The loop

  class CaptureLoop {
    var lastHash: Option<Hash>
    var lastShed: Option<(Hash, int)>
    var lastGeneration: Option<Generation>
    var latestSkip: Option<Skipped>
    var readFailures: u8
    const backpressure: ByteBackpressure

    function View(): Worker
      reads this
    {
      Worker(lastHash, lastShed, lastGeneration, latestSkip, readFailures)
    }

    /** At each loop head nothing is queued. */
    ghost predicate Valid()
      reads this, backpressure
    {
      backpressure.items == 0 && backpressure.bytes == 0 && backpressure.maxItems == 1
    }

    constructor (l: Limits)
      ensures Valid() && View() == NewWorker && fresh(backpressure)
    {
      lastHash, lastShed, lastGeneration, latestSkip, readFailures := None, None, None, None, 0;
      backpressure := new ByteBackpressure(l.soft, l.hard, 1, l.preview);
    }

    method ShedRetrySuppressed(hash: Hash, at: int) returns (suppressed: bool)
      modifies this`lastShed
      ensures suppressed <==> Suppressed(old(lastShed), hash, at)
      ensures suppressed <==> old(lastShed).Some? && old(lastShed).value.0 == hash && at - old(lastShed).value.1 < 5_000
      ensures lastShed == if suppressed then old(lastShed) else None
    {
      suppressed := lastShed.Some? && lastShed.value.0 == hash && Max(at - lastShed.value.1, 0) < SHED_RETRY_INTERVAL_MS;
      if !suppressed {
        lastShed := None;
      }
    }

    method ObserveGeneration(g: Generation) returns (stale: bool)
      modifies this`lastGeneration
      ensures stale <==> Stale(old(lastGeneration), g)
      ensures stale <==> old(lastGeneration).Some? && old(lastGeneration).value.epoch == g.epoch &&
                         g.sequence <= old(lastGeneration).value.sequence
      ensures lastGeneration == if stale then old(lastGeneration) else Some(g)
    {
      if lastGeneration.Some? && g.epoch == lastGeneration.value.epoch && g.sequence <= lastGeneration.value.sequence {
        return true;
      }
      lastGeneration := Some(g);
      return false;
    }

    /** Admission, insert and release: every path gives back exactly what it was charged. */
    method AdmitAndInsert(c: Captured, l: Limits, memoryOnly: bool) returns (fate: Fate)
      requires Valid()
      modifies this`lastHash, this`lastShed, backpressure
      ensures Valid() && fate == AdmissionFate(c, l, memoryOnly)
      ensures backpressure.View() == Idle(l)
      ensures lastHash == if fate.Attempted? && fate.stored then Some(c.hash) else old(lastHash)
      ensures lastShed == if fate.TooLarge? || fate.Unpreviewable? then Some((c.hash, c.at))
                          else if fate.Attempted? && fate.stored then None else old(lastShed)
    {
      var updated := backpressure.UpdateLimits(SoftLimit(l), HardLimit(l), l.preview);
      assert updated && backpressure.View() == Idle(l);
      var admission := backpressure.Admit(c.payload);
      var charged := 0;
      match admission {
        case Full => charged := c.payload;
        case Preview(maxBytes) =>
          if !c.previewable {
            backpressure.Release(maxBytes);
            lastShed := Some((c.hash, c.at));
            return Unpreviewable;
          }
          charged := maxBytes;
        case Shed =>
          lastShed := Some((c.hash, c.at));
          return TooLarge;
      }
      if c.storeOk {
        lastShed := None;
        lastHash := Some(c.hash);
      }
      backpressure.Release(charged);
      return Attempted(memoryOnly, admission.Preview?, c.storeOk);
    }

    /** A poll that read something intact. */
    method Examine(c: Captured, l: Limits) returns (fate: Fate)
      requires Valid() && c.intact && readFailures == 0
      modifies this, backpressure
      ensures Valid() && fate == Fated(old(View()), Read(c), l)
      ensures View() == Next(old(View()), Read(c), l)
      ensures Judged(fate) && !fate.PolicySkip? && !fate.Unrealized? ==> backpressure.View() == Idle(l)
    {
      var explicit := Explicit(View(), c);
      if lastHash == Some(c.hash) && !explicit {
        return Unchanged;
      }
      if !explicit {
        var suppressed := ShedRetrySuppressed(c.hash, c.at);
        if suppressed {
          return ShedWait;
        }
        if c.generation.Some? {
          var stale := ObserveGeneration(c.generation.value);
          if stale {
            return StaleGeneration;
          }
        }
      }
      var verdict := if explicit && !c.selfWrite && !c.coherenceTorn && c.realized then Capture(true) else c.policy;
      match verdict {
        case Skip(reason) =>
          latestSkip := Some(Skipped(c.at, reason, c.provenance, c.generation, c.hash));
          if reason.intentional {
            lastHash := Some(c.hash);
          }
          return PolicySkip(reason);
        case Capture(memoryOnly) =>
          if !c.realizedAfterAction {
            return Unrealized;
          }
          fate := AdmitAndInsert(c, l, memoryOnly);
      }
    }

    /** One turn of the loop; `exit` after five failed reads without a successful one between. */
    method PollOnce(i: Input, l: Limits) returns (fate: Fate, exit: bool)
      requires Valid()
      modifies this, backpressure
      ensures Valid() && fate == Fated(old(View()), i, l) && (exit <==> Exits(old(View()), i))
      ensures !exit ==> View() == Next(old(View()), i, l)
    {
      exit := false;
      match i {
        case Paused => return Quiet, false;
        case ReadEmpty =>
          readFailures := 0;
          return Quiet, false;
        case ReadFailed =>
          readFailures := SatIncU8(readFailures);
          return Broken, readFailures >= MAX_READ_FAILURES;
        case Read(c) =>
          readFailures := 0;
          if !c.intact {
            return TornRead, false;
          }
          fate := Examine(c, l);
      }
    }

    /** `run_worker`: the loop until the worker exits, or to the end of a finite stretch of polls. */
    method RunPolls(inputs: seq<Input>, limits: seq<Limits>) returns (polled: nat, exit: bool)
      requires Valid() && |inputs| == |limits|
      modifies this, backpressure
      ensures Valid() && polled <= |inputs| && (!exit ==> polled == |inputs|)
      ensures exit ==> polled > 0 && AfterPolls(old(View()), inputs[..polled], limits[..polled]) == NewWorker
                       && Exits(AfterPolls(old(View()), inputs[..polled - 1], limits[..polled - 1]), inputs[polled - 1])
      ensures !exit ==> View() == AfterPolls(old(View()), inputs, limits)
    {
      polled, exit := 0, false;
      hide Fated;
      while polled < |inputs|
        invariant Valid() && polled <= |inputs|
        invariant View() == AfterPolls(old(View()), inputs[..polled], limits[..polled])
      {
        var fate;
        fate, exit := PollOnce(inputs[polled], limits[polled]);
        assert inputs[..polled + 1][..polled] == inputs[..polled] && limits[..polled + 1][..polled] == limits[..polled];
        polled := polled + 1;
        if exit {
          return;
        }
      }
      assert inputs[..polled] == inputs && limits[..polled] == limits;
    }
  }

  /** The loop of `spawn`: every exit is answered by a new worker, over any stretch of polls. */
  method Supervise(config: Limits, inputs: seq<Input>, limits: seq<Limits>) returns (worker: CaptureLoop)
    requires |inputs| == |limits|
    ensures fresh(worker) && fresh(worker.backpressure) && worker.Valid()
    ensures worker.View() == AfterPolls(NewWorker, inputs, limits)
  {
    worker := new CaptureLoop(config);
    var done := 0;
    while done < |inputs|
      invariant done <= |inputs| && fresh(worker) && fresh(worker.backpressure) && worker.Valid()
      invariant worker.View() == AfterPolls(NewWorker, inputs[..done], limits[..done])
      invariant done < |inputs| ==> worker.View() == NewWorker
    {
      ghost var before := done;
      var polled, exit := worker.RunPolls(inputs[done..], limits[done..]);
      done := done + polled;
      Continued(NewWorker, inputs[..done], limits[..done], before);
      assert inputs[..done][before..] == inputs[before..][..polled] && inputs[..done][..before] == inputs[..before];
      assert limits[..done][before..] == limits[before..][..polled] && limits[..done][..before] == limits[..before];
      if exit {
        worker := new CaptureLoop(config);
      } else {
        assert inputs[before..][..polled] == inputs[before..] && limits[before..][..polled] == limits[before..];
      }
    }
    assert inputs[..done] == inputs && limits[..done] == limits;
  }

  function AfterPolls(w: Worker, inputs: seq<Input>, limits: seq<Limits>): Worker
    requires |inputs| == |limits|
  {
    if inputs == [] then w
    else
      var n := |inputs| - 1;
      Next(AfterPolls(w, inputs[..n], limits[..n]), inputs[n], limits[n])
  }

  /** A run is its first part, and the rest from where that left off. */
  lemma {:induction false} Continued(w: Worker, inputs: seq<Input>, limits: seq<Limits>, n: nat)
    requires |inputs| == |limits| && n <= |inputs|
    ensures AfterPolls(w, inputs, limits) ==
            AfterPolls(AfterPolls(w, inputs[..n], limits[..n]), inputs[n..], limits[n..])
    decreases |inputs|
  {
    hide Next;
    var last := |inputs| - 1;
    if n == |inputs| {
      assert inputs[..n] == inputs && limits[..n] == limits;
    } else {
      Continued(w, inputs[..last], limits[..last], n);
      assert inputs[..last][..n] == inputs[..n] && limits[..last][..n] == limits[..n];
      assert inputs[n..][..last - n] == inputs[..last][n..] && limits[n..][..last - n] == limits[..last][n..];
    }
  }
}
