/** What the queue protocol guarantees over every run: exact counting, exclusive maintenance,
    first-in first-out execution exactly once, and a shutdown that drains and cannot deadlock. */
module StoreOwnerTheorems {
  import opened Options
  import opened StoreOwner

  ghost predicate ValidRun(s: State, events: seq<Event>)
    decreases |events|
  {
    events == [] || (Enabled(s, events[0]) && ValidRun(Apply(s, events[0]), events[1..]))
  }

  ghost function Run(s: State, events: seq<Event>): State
    requires ValidRun(s, events)
    decreases |events|
  {
    if events == [] then s else Run(Apply(s, events[0]), events[1..])
  }

  /** The caller of a finished job gets its reply after the task ran. */
  ghost predicate RepliesOk(s: State) {
    && (forall c :: At(s, c, Replied) ==> c in s.ran)
    && (s.worker.Running? && !s.worker.stage.Taken? ==> s.worker.job in s.ran)
  }

  lemma RepliesStep(s: State, e: Event)
    requires RepliesOk(s) && Enabled(s, e)
    ensures RepliesOk(Apply(s, e))
  {
    forall c | At(Apply(s, e), c, Replied) ensures c in Apply(s, e).ran {
      assert At(s, c, Replied) || e.Reply?;
    }
  }

  lemma {:induction false} RunPreserves(s: State, events: seq<Event>)
    requires Inv(s) && RepliesOk(s) && ValidRun(s, events)
    ensures Inv(Run(s, events)) && RepliesOk(Run(s, events))
    decreases |events|
  {
    hide Inv, RepliesOk, Apply, Enabled;
    if events != [] {
      StepPreserves(s, events[0]);
      RepliesStep(s, events[0]);
      RunPreserves(Apply(s, events[0]), events[1..]);
    }
  }

  // ----- Counting

  lemma HolderKeepsWorker(s: State)
    requires Inv(s)
    ensures s.worker.Exited? ==> forall c :: !At(s, c, Holding)
  {
    if s.worker.Exited? {
      forall c ensures !At(s, c, Holding) {
        assert !HoldsSender(s, c);
      }
    }
  }

  /** In every run `pending` counts exactly the calls not yet sent, the jobs queued and the job
      running; nothing ever subtracts from a zero counter; a held sender never finds the worker gone. */
  lemma PendingIsExact(events: seq<Event>, e: Event)
    requires ValidRun(Initial, events) && Enabled(Run(Initial, events), e)
    ensures var s := Run(Initial, events);
            && s.pending == |Unsent(s.calls)| + |s.queue| + |Unsettled(s.worker)|
            && Apply(s, e).pending >= 0
            && !e.SendFails?
  {
    InitialInv();
    RunPreserves(Initial, events);
    var s := Run(Initial, events);
    StepPreserves(s, e);
    HolderKeepsWorker(s);
  }

  /** A maintenance attempt is admitted only when no other call is outstanding, and at most one
      admitted attempt is outstanding at any time. */
  lemma TryIsExclusive(events: seq<Event>)
    requires ValidRun(Initial, events)
    ensures var s := Run(Initial, events);
            && (forall c :: Enabled(s, TryAdmitted(c)) ==> forall d :: !Outstanding(s, d))
            && (forall c, d :: OutstandingTry(s, c) && OutstandingTry(s, d) ==> c == d)
  {
    InitialInv();
    RunPreserves(Initial, events);
    var s := Run(Initial, events);
    if s.pending == 0 {
      NothingElseOutstanding(s);
    }
  }

  // ----- Order

  /** Jobs run in the order they were accepted, each at most once, and an answered caller's job has run. */
  lemma FifoExactlyOnce(events: seq<Event>)
    requires ValidRun(Initial, events)
    ensures var s := Run(Initial, events);
            && s.ran <= s.accepted && Distinct(s.accepted)
            && (s.queue == [] && Unperformed(s.worker) == [] ==> s.ran == s.accepted)
            && (forall c :: At(s, c, Replied) ==> c in s.ran)
  {
    InitialInv();
    RunPreserves(Initial, events);
  }

  /** When any `shutdown` has returned, every job ever accepted has run, the checkpoint ran
      after all of them, and no later step can accept another. */
  lemma ShutdownDrains(events: seq<Event>, later: seq<Event>)
    requires ValidRun(Initial, events) && ValidRun(Run(Initial, events), later)
    requires Run(Initial, events).returned != {}
    ensures var s := Run(Initial, events);
            && s.ran == s.accepted && s.checkpointAfter == Some(|s.accepted|)
            && Run(s, later).accepted == s.accepted
  {
    InitialInv();
    RunPreserves(Initial, events);
    var s := Run(Initial, events);
    StoppedForGood(s, later);
  }

  lemma {:induction false} StoppedForGood(s: State, later: seq<Event>)
    requires Inv(s) && s.worker.Exited? && ValidRun(s, later)
    ensures Run(s, later).accepted == s.accepted
    decreases |later|
  {
    if later != [] {
      StepPreserves(s, later[0]);
      HolderKeepsWorker(s);
      assert Apply(s, later[0]).accepted == s.accepted;
      hide Inv;
      StoppedForGood(Apply(s, later[0]), later[1..]);
    }
  }

  // ----- Calls are served while the owner runs, and refused once it stopped

  lemma {:induction false} Extend(s: State, past: seq<Event>, e: Event)
    requires ValidRun(s, past) && Enabled(Run(s, past), e)
    ensures ValidRun(s, past + [e]) && Run(s, past + [e]) == Apply(Run(s, past), e)
    decreases |past|
  {
    hide Apply, Enabled;
    if past == [] {
      assert [] + [e] == [e];
      assert [e][1..] == [];
      assert ValidRun(Apply(s, e), []);
    } else {
      Extend(Apply(s, past[0]), past[1..], e);
      assert (past + [e])[1..] == past[1..] + [e];
    }
  }

  /** A caller that counted itself while the sender is there gets its job into the queue. */
  lemma JobGetsQueued(s: State, c: CallId)
    requires s.senderOpen && c !in s.used && |s.queue| < CHANNEL_CAPACITY && !s.worker.Exited?
    ensures var steps := [StartExecute(c)] + [CloneSender(c)] + [Send(c)];
            && ValidRun(s, steps)
            && Run(s, steps) == s.(pending := s.pending + 1, calls := s.calls[c := Call(Plain, Waiting)], used := s.used + {c},
                                   queue := s.queue + [c], accepted := s.accepted + [c])
  {
    var s1 := s.(pending := s.pending + 1, calls := s.calls[c := Call(Plain, Counted)], used := s.used + {c});
    var s2 := s1.(calls := s.calls[c := Call(Plain, Holding)]);
    assert Apply(s, StartExecute(c)) == s1;
    assert Enabled(s1, CloneSender(c)) && Apply(s1, CloneSender(c)) == s2;
    assert Enabled(s2, Send(c));
    assert Apply(s2, Send(c)).calls == s.calls[c := Call(Plain, Waiting)];
    hide Apply, Enabled;
    assert ValidRun(s, []) && Run(s, []) == s;
    hide ValidRun, Run;
    Extend(s, [], StartExecute(c));
    assert [] + [StartExecute(c)] == [StartExecute(c)];
    Extend(s, [StartExecute(c)], CloneSender(c));
    Extend(s, [StartExecute(c)] + [CloneSender(c)], Send(c));
  }

  /** The worker takes the oldest job, runs it, uncounts it and answers its caller. */
  lemma OldestJobIsServed(s: State, c: CallId)
    requires s.worker == Receiving && s.queue != [] && s.queue[0] == c && At(s, c, Waiting)
    ensures var steps := [Receive] + [Perform] + [Settle] + [Reply];
            && ValidRun(s, steps)
            && Run(s, steps) == s.(pending := s.pending - 1, queue := s.queue[1..], ran := s.ran + [c],
                                   calls := s.calls[c := s.calls[c].(progress := Replied)])
  {
    var s1 := s.(queue := s.queue[1..], worker := Running(c, Taken));
    var s2 := s1.(ran := s.ran + [c], worker := Running(c, Performed));
    var s3 := s2.(pending := s.pending - 1, worker := Running(c, Settled));
    assert Apply(s, Receive) == s1;
    assert Enabled(s1, Perform) && Apply(s1, Perform) == s2;
    assert Enabled(s2, Settle) && Apply(s2, Settle) == s3;
    assert Enabled(s3, Reply);
    assert Apply(s3, Reply).calls == s.calls[c := s.calls[c].(progress := Replied)];
    hide Apply, Enabled;
    assert ValidRun(s, []) && Run(s, []) == s;
    hide ValidRun, Run;
    Extend(s, [], Receive);
    assert [] + [Receive] == [Receive];
    Extend(s, [Receive], Perform);
    Extend(s, [Receive] + [Perform], Settle);
    Extend(s, [Receive] + [Perform] + [Settle], Reply);
  }

  lemma {:induction false} RunJoined(s: State, first: seq<Event>, more: seq<Event>)
    requires ValidRun(s, first) && ValidRun(Run(s, first), more)
    ensures ValidRun(s, first + more) && Run(s, first + more) == Run(Run(s, first), more)
    decreases |first|
  {
    hide Apply, Enabled;
    if first == [] {
      assert first + more == more;
    } else {
      RunJoined(Apply(s, first[0]), first[1..], more);
      assert (first + more)[1..] == first[1..] + more;
    }
  }

  /** While the owner runs and is idle, a call is accepted, its job runs, and its caller is answered. */
  lemma CallIsServed(s: State, c: CallId)
    requires s.senderOpen && s.worker == Receiving && s.queue == [] && c !in s.used
    ensures var steps := [StartExecute(c)] + [CloneSender(c)] + [Send(c)] + ([Receive] + [Perform] + [Settle] + [Reply]);
            && ValidRun(s, steps)
            && var s' := Run(s, steps);
               && At(s', c, Replied) && s'.ran == s.ran + [c] && s'.accepted == s.accepted + [c]
               && s'.pending == s.pending && s'.queue == [] && s'.worker == Receiving && s'.senderOpen
  {
    var first := [StartExecute(c)] + [CloneSender(c)] + [Send(c)];
    JobGetsQueued(s, c);
    OldestJobIsServed(Run(s, first), c);
    hide ValidRun, Run;
    RunJoined(s, first, [Receive] + [Perform] + [Settle] + [Reply]);
  }

  /** Once `shutdown` took the sender, a call is told that the owner stopped and leaves no trace in it. */
  lemma StoppedOwnerRefuses(s: State, c: CallId)
    requires !s.senderOpen && c !in s.used && c !in s.calls
    ensures var steps := [StartExecute(c)] + [CloneSender(c)];
            && ValidRun(s, steps)
            && Run(s, steps) == s.(used := s.used + {c})
  {
    var s1 := s.(pending := s.pending + 1, calls := s.calls[c := Call(Plain, Counted)], used := s.used + {c});
    assert Apply(s, StartExecute(c)) == s1;
    assert s1.calls - {c} == s.calls;
    assert Enabled(s1, CloneSender(c)) && Apply(s1, CloneSender(c)) == s.(used := s.used + {c});
    hide Apply, Enabled;
    assert ValidRun(s, []) && Run(s, []) == s;
    hide ValidRun, Run;
    Extend(s, [], StartExecute(c));
    assert [] + [StartExecute(c)] == [StartExecute(c)];
    Extend(s, [StartExecute(c)], CloneSender(c));
  }

  /** An idle owner admits a maintenance attempt, and a busy one does not. */
  lemma TryIsAdmittedIff(s: State, c: CallId)
    requires Inv(s) && c !in s.used
    ensures Enabled(s, TryAdmitted(c)) <==> forall d :: !Outstanding(s, d)
    ensures Enabled(s, TryAdmitted(c)) ==> Apply(s, TryAdmitted(c)).calls == s.calls[c := Call(Try, Counted)]
  {
    if s.pending == 0 {
      NothingElseOutstanding(s);
    } else if forall d :: !Outstanding(s, d) {
      NothingCounted(s);
    }
  }

  lemma NothingCounted(s: State)
    requires PendingOk(s) && forall d :: !Outstanding(s, d)
    ensures s.pending == 0
  {
    assert forall d :: d in Unsent(s.calls) ==> Outstanding(s, d);
    assert Unsent(s.calls) == {};
    assert s.queue != [] ==> Outstanding(s, s.queue[0]);
    assert s.worker.Running? ==> s.worker.stage.Settled? || Outstanding(s, s.worker.job);
  }

  // ----- Shutdown cannot deadlock

  function CountedCalls(calls: map<CallId, Call>): set<CallId> { set c | c in calls && calls[c].progress.Counted? }
  function HoldingCalls(calls: map<CallId, Call>): set<CallId> { set c | c in calls && calls[c].progress.Holding? }
  function RepliedCalls(calls: map<CallId, Call>): set<CallId> { set c | c in calls && calls[c].progress.Replied? }

  function WorkerWeight(w: Worker): nat {
    match w
    case Receiving => 2
    case Running(_, Taken) => 6
    case Running(_, Performed) => 5
    case Running(_, Settled) => 4
    case Draining => 1
    case Exited => 0
  }

  /** Work left once the owner's own sender is gone. */
  function Work(s: State): nat {
    8 * |CountedCalls(s.calls)| + 7 * |HoldingCalls(s.calls)| + 6 * |s.queue| + |RepliedCalls(s.calls)| + WorkerWeight(s.worker)
  }

  /** Steps of callers already inside and of the worker; new callers and joiners excluded. */
  predicate Drains(e: Event) {
    match e
    case CloneSender(_) => true
    case Send(_) => true
    case Receive => true
    case Perform => true
    case Settle => true
    case Reply => true
    case Return(_) => true
    case Disconnect => true
    case Checkpoint => true
    case _ => false
  }

  lemma WorkAfter(calls: map<CallId, Call>, calls': map<CallId, Call>, c: CallId)
    requires OthersSame(calls, calls', c)
    ensures |CountedCalls(calls')| == |CountedCalls(calls)| + (if c in CountedCalls(calls') then 1 else 0) - (if c in CountedCalls(calls) then 1 else 0)
    ensures |HoldingCalls(calls')| == |HoldingCalls(calls)| + (if c in HoldingCalls(calls') then 1 else 0) - (if c in HoldingCalls(calls) then 1 else 0)
    ensures |RepliedCalls(calls')| == |RepliedCalls(calls)| + (if c in RepliedCalls(calls') then 1 else 0) - (if c in RepliedCalls(calls) then 1 else 0)
  {
    OneMoved(CountedCalls(calls), CountedCalls(calls'), c);
    OneMoved(HoldingCalls(calls), HoldingCalls(calls'), c);
    OneMoved(RepliedCalls(calls), RepliedCalls(calls'), c);
  }

  /** Every draining step uses up work. */
  lemma DrainingDecreases(s: State, e: Event)
    requires Inv(s) && !s.senderOpen && Enabled(s, e) && Drains(e)
    ensures Work(Apply(s, e)) < Work(s)
  {
    hide Inv;
    MovesOne(s, e);
    WorkAfter(s.calls, Apply(s, e).calls, Mover(s, e));
    if !(e.CloneSender? || e.Send? || e.Return? || e.Reply?) {
      assert Apply(s, e).calls == s.calls;
    }
  }

  /** After the sender was taken, some draining step is possible until the worker has exited, so
      the join in `shutdown` waits at most `Work` steps. */
  lemma DrainingNeverStuck(s: State)
    requires Inv(s) && !s.senderOpen && !s.worker.Exited?
    ensures exists e :: Drains(e) && Enabled(s, e)
  {
    if s.worker.Draining? {
      assert Enabled(s, Checkpoint);
    } else if s.worker.Running? {
      RunningWorkerMoves(s);
    } else if s.queue != [] {
      assert Enabled(s, Receive);
    } else if c :| HoldsSender(s, c) {
      if At(s, c, Holding) {
        assert Enabled(s, Send(c));
      } else {
        assert !At(s, c, Waiting);
        assert Enabled(s, Return(c));
      }
    } else {
      assert Enabled(s, Disconnect);
    }
  }

  lemma RunningWorkerMoves(s: State)
    requires CallsOk(s) && s.worker.Running?
    ensures exists e :: Drains(e) && Enabled(s, e)
  {
    assert At(s, s.worker.job, Waiting);
    match s.worker.stage
    case Taken => assert Enabled(s, Perform);
    case Performed => assert Enabled(s, Settle);
    case Settled => assert Enabled(s, Reply);
  }
}
