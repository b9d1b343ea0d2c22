/** The bounded command queue that owns the only writable store: callers on any thread count
    themselves in `pending`, clone the sender, send one job and wait; one worker receives jobs
    until every sender is gone, then checkpoints and exits. */
module StoreOwner {
  import opened Options

  type CallId = nat
  type ShutdownId = nat

  const CHANNEL_CAPACITY: nat := 32

  datatype Kind = Plain | Try

  /** Where a caller stands inside `submit`. From `Holding` to `Replied` it owns a sender clone. */
  datatype Progress = Counted | Holding | Waiting | Replied

  datatype Call = Call(kind: Kind, progress: Progress)

  /** The job the worker is in: received, task done, counter decremented. */
  datatype Stage = Taken | Performed | Settled

  datatype Worker = Receiving | Running(job: CallId, stage: Stage) | Draining | Exited

  datatype Handle = Present | Joining(joiner: ShutdownId) | Gone

  datatype State = State(
    senderOpen: bool, pending: int, handle: Handle,
    calls: map<CallId, Call>, queue: seq<CallId>, worker: Worker,
    stopping: set<ShutdownId>, returned: set<ShutdownId>,
    used: set<CallId>, accepted: seq<CallId>, ran: seq<CallId>, checkpointAfter: Option<nat>)

  const Initial: State := State(true, 0, Present, map[], [], Receiving, {}, {}, {}, [], [], None)

  datatype Event =
    | StartExecute(c: CallId)
    | TryAdmitted(c: CallId)
    | TryRefused
    | CloneSender(c: CallId)
    | Send(c: CallId)
    | SendFails(c: CallId)
    | Receive
    | Perform
    | Settle
    | Reply
    | Return(c: CallId)
    | Disconnect
    | Checkpoint
    | TakeSender(h: ShutdownId)
    | StartJoin(h: ShutdownId)
    | FinishJoin(h: ShutdownId)
    | NothingToJoin(h: ShutdownId)

  predicate At(s: State, c: CallId, p: Progress) {
    c in s.calls && s.calls[c].progress == p
  }

  predicate HoldsSender(s: State, c: CallId) {
    c in s.calls && !s.calls[c].progress.Counted?
  }

  predicate InStage(s: State, stage: Stage) {
    s.worker.Running? && s.worker.stage == stage
  }

  ghost predicate Enabled(s: State, e: Event) {
    match e
    case StartExecute(c) => c !in s.used
    case TryAdmitted(c) => c !in s.used && s.pending == 0
    case TryRefused => s.pending != 0
    case CloneSender(c) => At(s, c, Counted)
    case Send(c) => At(s, c, Holding) && |s.queue| < CHANNEL_CAPACITY && !s.worker.Exited?
    case SendFails(c) => At(s, c, Holding) && s.worker.Exited?
    case Receive => s.worker.Receiving? && s.queue != []
    case Perform => InStage(s, Taken)
    case Settle => InStage(s, Performed)
    case Reply => InStage(s, Settled) && At(s, s.worker.job, Waiting)
    case Return(c) => At(s, c, Replied)
    case Disconnect => s.worker.Receiving? && s.queue == [] && !s.senderOpen && forall c :: !HoldsSender(s, c)
    case Checkpoint => s.worker.Draining?
    case TakeSender(h) => h !in s.stopping && h !in s.returned
    case StartJoin(h) => h in s.stopping && s.handle.Present?
    case FinishJoin(h) => h in s.stopping && s.handle == Joining(h) && s.worker.Exited?
    case NothingToJoin(h) => h in s.stopping && s.handle.Gone?
  }

  function Advance(s: State, c: CallId, p: Progress): map<CallId, Call>
    requires c in s.calls
  {
    s.calls[c := s.calls[c].(progress := p)]
  }

  ghost function Apply(s: State, e: Event): State
    requires Enabled(s, e)
  {
    match e
    case StartExecute(c) =>
      s.(pending := s.pending + 1, calls := s.calls[c := Call(Plain, Counted)], used := s.used + {c})
    case TryAdmitted(c) =>
      s.(pending := 1, calls := s.calls[c := Call(Try, Counted)], used := s.used + {c})
    case TryRefused => s
    case CloneSender(c) =>
      if s.senderOpen then s.(calls := Advance(s, c, Holding))
      else s.(pending := s.pending - 1, calls := s.calls - {c})
    case Send(c) =>
      s.(queue := s.queue + [c], accepted := s.accepted + [c], calls := Advance(s, c, Waiting))
    case SendFails(c) => s.(pending := s.pending - 1, calls := s.calls - {c})
    case Receive => s.(queue := s.queue[1..], worker := Running(s.queue[0], Taken))
    case Perform => s.(ran := s.ran + [s.worker.job], worker := Running(s.worker.job, Performed))
    case Settle => s.(pending := s.pending - 1, worker := Running(s.worker.job, Settled))
    case Reply => s.(calls := Advance(s, s.worker.job, Replied), worker := Receiving)
    case Return(c) => s.(calls := s.calls - {c})
    case Disconnect => s.(worker := Draining)
    case Checkpoint => s.(worker := Exited, checkpointAfter := Some(|s.ran|))
    case TakeSender(h) => s.(senderOpen := false, stopping := s.stopping + {h})
    case StartJoin(h) => s.(handle := Joining(h))
    case FinishJoin(h) => s.(handle := Gone, stopping := s.stopping - {h}, returned := s.returned + {h})
    case NothingToJoin(h) => s.(stopping := s.stopping - {h}, returned := s.returned + {h})
  }

  // ----- Invariant

  /** Calls counted in `pending` that have not sent yet. */
  function Unsent(calls: map<CallId, Call>): set<CallId> {
    set c | c in calls && (calls[c].progress.Counted? || calls[c].progress.Holding?)
  }

  /** The job the worker holds while `pending` still counts it. */
  function Unsettled(w: Worker): seq<CallId> {
    if w.Running? && !w.stage.Settled? then [w.job] else []
  }

  /** The job the worker has received but not yet performed. */
  function Unperformed(w: Worker): seq<CallId> {
    if w.Running? && w.stage.Taken? then [w.job] else []
  }

  ghost predicate Distinct(s: seq<CallId>) {
    forall i, j :: 0 <= i < j < |s| ==> s[i] != s[j]
  }

  /** `pending` is exactly the calls not yet sent, the jobs queued and the job running. */
  ghost predicate PendingOk(s: State) {
    s.pending == |Unsent(s.calls)| + |s.queue| + |Unsettled(s.worker)|
  }

  /** A call waits exactly while its job is queued or with the worker. */
  ghost predicate CallsOk(s: State) {
    && s.calls.Keys <= s.used
    && (forall c :: At(s, c, Waiting) <==> c in s.queue || (s.worker.Running? && s.worker.job == c))
    && Distinct(s.queue)
    && (s.worker.Running? ==> s.worker.job !in s.queue)
  }

  /** Accepted jobs are those run, then the one taken, then those queued, each once. */
  ghost predicate FifoOk(s: State) {
    && s.accepted == s.ran + Unperformed(s.worker) + s.queue
    && Distinct(s.accepted)
    && (forall c :: c in s.accepted ==> c in s.used && !At(s, c, Counted) && !At(s, c, Holding))
  }

  predicate Outstanding(s: State, c: CallId) {
    c in Unsent(s.calls) || c in s.queue || c in Unsettled(s.worker)
  }

  predicate OutstandingTry(s: State, c: CallId) {
    Outstanding(s, c) && c in s.calls && s.calls[c].kind.Try?
  }

  ghost predicate TryOk(s: State) {
    forall c, d :: OutstandingTry(s, c) && OutstandingTry(s, d) ==> c == d
  }

  ghost predicate StopOk(s: State) {
    && (s.worker.Draining? || s.worker.Exited? ==>
          s.queue == [] && !s.senderOpen && forall c :: !HoldsSender(s, c))
    && (s.worker.Exited? <==> s.checkpointAfter.Some?)
    && (s.worker.Exited? ==> s.checkpointAfter.value == |s.ran|)
    && (s.stopping != {} || s.returned != {} ==> !s.senderOpen)
    && (s.returned != {} ==> s.handle.Gone?)
    && (s.handle.Gone? ==> s.worker.Exited?)
    && (s.handle.Joining? ==> s.handle.joiner in s.stopping)
  }

  ghost predicate Inv(s: State) {
    PendingOk(s) && CallsOk(s) && FifoOk(s) && TryOk(s) && StopOk(s)
  }

  lemma InitialInv()
    ensures Inv(Initial)
  {
    assert Unsent(map[]) == {};
  }

  ghost predicate OthersSame(calls: map<CallId, Call>, calls': map<CallId, Call>, c: CallId) {
    forall d :: d != c ==> (d in calls <==> d in calls') && (d in calls ==> calls[d] == calls'[d])
  }

  lemma UnsentAfter(calls: map<CallId, Call>, calls': map<CallId, Call>, c: CallId)
    requires OthersSame(calls, calls', c)
    ensures |Unsent(calls')| == |Unsent(calls)| + (if c in Unsent(calls') then 1 else 0) - (if c in Unsent(calls) then 1 else 0)
  {
    OneMoved(Unsent(calls), Unsent(calls'), c);
  }

  lemma OneMoved(was: set<CallId>, now: set<CallId>, c: CallId)
    requires forall d :: d != c ==> (d in was <==> d in now)
    ensures |now| == |was| + (if c in now then 1 else 0) - (if c in was then 1 else 0)
  {
    assert now - {c} == was - {c};
    assert |was - {c}| == |was| - (if c in was then 1 else 0);
    assert |now - {c}| == |now| - (if c in now then 1 else 0);
  }

  /** The call an event moves, if any. */
  function Mover(s: State, e: Event): CallId {
    match e
    case StartExecute(c) => c
    case TryAdmitted(c) => c
    case CloneSender(c) => c
    case Send(c) => c
    case SendFails(c) => c
    case Return(c) => c
    case Reply => if s.worker.Running? then s.worker.job else 0
    case _ => 0
  }

  lemma MovesOne(s: State, e: Event)
    requires Enabled(s, e)
    ensures OthersSame(s.calls, Apply(s, e).calls, Mover(s, e))
  {
  }

  lemma PendingStep(s: State, e: Event)
    requires PendingOk(s) && CallsOk(s) && StopOk(s) && Enabled(s, e)
    ensures PendingOk(Apply(s, e))
  {
    var s', c := Apply(s, e), Mover(s, e);
    MovesOne(s, e);
    UnsentAfter(s.calls, s'.calls, c);
    var n, n' := |Unsent(s.calls)|, |Unsent(s'.calls)|;
    var before, after := c in Unsent(s.calls), c in Unsent(s'.calls);
    assert n' == n + (if after then 1 else 0) - (if before then 1 else 0);
    assert e.StartExecute? || e.TryAdmitted? ==> c !in s.calls;
  }

  lemma QueueStep(s: State, e: Event)
    requires CallsOk(s) && Enabled(s, e)
    ensures var s' := Apply(s, e);
            s'.calls.Keys <= s'.used && Distinct(s'.queue) && (s'.worker.Running? ==> s'.worker.job !in s'.queue)
  {
    if e.Receive? {
      assert s.queue == [s.queue[0]] + s.queue[1..];
    } else if e.Send? {
      assert !At(s, e.c, Waiting);
    }
  }

  lemma WaitingStep(s: State, e: Event, c: CallId)
    requires CallsOk(s) && Enabled(s, e)
    ensures var s' := Apply(s, e);
            At(s', c, Waiting) <==> c in s'.queue || (s'.worker.Running? && s'.worker.job == c)
  {
    assert At(s, c, Waiting) <==> c in s.queue || (s.worker.Running? && s.worker.job == c);
    if e.Receive? {
      assert s.queue == [s.queue[0]] + s.queue[1..];
    }
  }

  lemma CallsStep(s: State, e: Event)
    requires CallsOk(s) && StopOk(s) && Enabled(s, e)
    ensures CallsOk(Apply(s, e))
  {
    hide StopOk;
    var s' := Apply(s, e);
    QueueStep(s, e);
    forall c ensures At(s', c, Waiting) <==> c in s'.queue || (s'.worker.Running? && s'.worker.job == c) {
      WaitingStep(s, e, c);
    }
    hide Apply, Enabled;
  }

  /** Which events move a job between the accepted, the taken and the queued ones. */
  predicate MovesJob(e: Event) { e.Send? || e.Receive? || e.Perform? }

  lemma JobsStay(s: State, e: Event)
    requires Enabled(s, e) && !MovesJob(e)
    ensures var s' := Apply(s, e);
            s'.accepted == s.accepted && s'.ran == s.ran && s'.queue == s.queue && Unperformed(s'.worker) == Unperformed(s.worker)
  {
  }

  lemma OrderStep(s: State, e: Event)
    requires s.accepted == s.ran + Unperformed(s.worker) + s.queue && Enabled(s, e)
    ensures var s' := Apply(s, e); s'.accepted == s'.ran + Unperformed(s'.worker) + s'.queue
  {
    if MovesJob(e) {
      var s' := Apply(s, e);
      assert s.queue != [] ==> s.queue == [s.queue[0]] + s.queue[1..];
      assert s'.accepted == s'.ran + Unperformed(s'.worker) + s'.queue;
    } else {
      JobsStay(s, e);
    }
  }

  /** A caller that was accepted or used stays so, and only `Send` accepts. */
  lemma AcceptedStep(s: State, e: Event, c: CallId)
    requires Enabled(s, e) && c in Apply(s, e).accepted
    ensures c in s.accepted || e == Send(c)
    ensures s.used <= Apply(s, e).used
  {
    if !MovesJob(e) {
      JobsStay(s, e);
    }
  }

  lemma SentStays(s: State, e: Event, c: CallId)
    requires Enabled(s, e) && c in s.used && !At(s, c, Counted) && !At(s, c, Holding)
    ensures !At(Apply(s, e), c, Counted) && !At(Apply(s, e), c, Holding)
  {
  }

  lemma FifoStep(s: State, e: Event)
    requires CallsOk(s) && FifoOk(s) && StopOk(s) && Enabled(s, e)
    ensures FifoOk(Apply(s, e))
  {
    hide CallsOk, StopOk;
    var s' := Apply(s, e);
    OrderStep(s, e);
    DistinctStep(s, e);
    forall c | c in s'.accepted ensures c in s'.used && !At(s', c, Counted) && !At(s', c, Holding) {
      AcceptedStep(s, e, c);
      if c in s.accepted {
        SentStays(s, e, c);
      } else {
        SendSettles(s, c);
      }
    }
  }

  lemma SendSettles(s: State, c: CallId)
    requires CallsOk(s) && Enabled(s, Send(c))
    ensures At(Apply(s, Send(c)), c, Waiting) && c in Apply(s, Send(c)).used
  {
    assert c in s.calls.Keys;
  }

  lemma DistinctStep(s: State, e: Event)
    requires FifoOk(s) && Enabled(s, e)
    ensures Distinct(Apply(s, e).accepted)
  {
    if e.Send? {
      assert e.c !in s.accepted;
    } else if !MovesJob(e) {
      JobsStay(s, e);
    }
  }

  lemma TryStep(s: State, e: Event)
    requires PendingOk(s) && CallsOk(s) && TryOk(s) && StopOk(s) && Enabled(s, e)
    ensures TryOk(Apply(s, e))
  {
    var s' := Apply(s, e);
    if e.TryAdmitted? {
      NothingElseOutstanding(s);
      assert forall c :: OutstandingTry(s', c) ==> c == e.c by {
        forall c | OutstandingTry(s', c) ensures c == e.c {
          assert !Outstanding(s, c);
        }
      }
    } else {
      forall c | OutstandingTry(s', c) ensures OutstandingTry(s, c) {
        TryWasOutstanding(s, e, c);
      }
    }
  }

  lemma TryWasOutstanding(s: State, e: Event, c: CallId)
    requires CallsOk(s) && StopOk(s) && Enabled(s, e) && !e.TryAdmitted?
    requires OutstandingTry(Apply(s, e), c)
    ensures OutstandingTry(s, c)
  {
    if e.Receive? {
      assert s.queue == [s.queue[0]] + s.queue[1..];
    }
    assert At(s, c, Waiting) <==> c in s.queue || (s.worker.Running? && s.worker.job == c);
  }

  /** A zero counter means no other call is anywhere between counting and settling. */
  lemma NothingElseOutstanding(s: State)
    requires PendingOk(s) && s.pending == 0
    ensures forall c :: !Outstanding(s, c)
  {
    assert Unsent(s.calls) == {};
  }

  lemma StopStep(s: State, e: Event)
    requires CallsOk(s) && StopOk(s) && Enabled(s, e)
    ensures StopOk(Apply(s, e))
  {
    var s' := Apply(s, e);
    if s'.worker.Draining? || s'.worker.Exited? {
      NoNewSender(s, e, 0);
      forall c ensures !HoldsSender(s', c) {
        NoNewSender(s, e, c);
      }
    }
  }

  /** Once the worker stopped receiving, no caller can get hold of a sender again. */
  lemma NoNewSender(s: State, e: Event, c: CallId)
    requires StopOk(s) && Enabled(s, e)
    requires Apply(s, e).worker.Draining? || Apply(s, e).worker.Exited?
    ensures !HoldsSender(Apply(s, e), c) && Apply(s, e).queue == []
  {
    assert !HoldsSender(s, c);
    match e
    case Send(d) => assert HoldsSender(s, d);
    case Return(d) => assert HoldsSender(s, d);
    case _ =>
  }

  lemma StepPreserves(s: State, e: Event)
    requires Inv(s) && Enabled(s, e)
    ensures Inv(Apply(s, e))
  {
    hide PendingOk, CallsOk, FifoOk, TryOk, StopOk, Apply, Enabled;
    PendingStep(s, e);
    CallsStep(s, e);
    FifoStep(s, e);
    TryStep(s, e);
    StopStep(s, e);
  }
}
