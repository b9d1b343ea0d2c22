/** What the single-instance protocol guarantees to its processes and their users. */
module SingleInstanceTheorems {
  import opened Options
  import opened SingleInstance
  import opened SingleInstanceProofs

  /** At most one process is primary (or still tearing down), whatever crashed and whenever. */
  lemma AtMostOnePrimary(events: seq<Event>, p: Pid, q: Pid)
    requires ValidRun(Initial, events)
    requires var s := Run(Initial, events);
             && p in s.procs && BoundListener(s.procs[p].pc).Some?
             && q in s.procs && BoundListener(s.procs[q].pc).Some?
    ensures p == q
  {
    InitialInv();
    RunPreserves(Initial, events);
  }

  /** A socket is unlinked only by the owner of the lock and only while no listener of any process
      is open; on teardown the file removed is the process's own socket. */
  lemma UnlinkIsSafe(events: seq<Event>, p: Pid)
    requires ValidRun(Initial, events) && Enabled(Run(Initial, events), Unlink(p))
    ensures var s := Run(Initial, events);
            && s.lock == Some(p) && s.live == {}
            && (PcOf(s, p).Closed? ==> s.path == Some(PcOf(s, p).listener))
  {
    InitialInv();
    RunPreserves(Initial, events);
    var s := Run(Initial, events);
    OwnerIsUnique(s, p);
    forall l | l in s.live ensures false {
      LiveMeansLocked(s, l);
    }
  }

  /** The path of a process whose listener is open resolves to that listener, and no other is open. */
  lemma ServingPathIsOwn(events: seq<Event>, p: Pid, l: ListenerId)
    requires ValidRun(Initial, events)
    requires var s := Run(Initial, events); p in s.procs && BoundListener(s.procs[p].pc) == Some(l) && l in s.live
    ensures var s := Run(Initial, events);
            s.path == Some(l) && s.live == {l} && s.lock == Some(p)
  {
    InitialInv();
    RunPreserves(Initial, events);
    var s := Run(Initial, events);
    OwnerIsUnique(s, p);
    forall m | m in s.live ensures m == l {
      LiveMeansLocked(s, m);
    }
  }

  /** A process that found a socket in place never reaches anyone behind it: it is always stale. */
  lemma FoundSocketIsStale(events: seq<Event>, p: Pid)
    requires ValidRun(Initial, events) && Is(Run(Initial, events), p, Recover)
    ensures forall c :: !Enabled(Run(Initial, events), Connect(p, c))
  {
    InitialInv();
    RunPreserves(Initial, events);
    var s := Run(Initial, events);
    OwnerIsUnique(s, p);
    forall l | l in s.live ensures false {
      LiveMeansLocked(s, l);
    }
  }

  // ----- Forwarding: at least once, at most ten times

  function ClientConns(s: State, p: Pid): set<ConnId> {
    set c | c in s.conns && s.conns[c].client == p
  }

  /** Connections a process can have opened by the time it is at `pc`. */
  function Opened(pc: Pc): nat {
    match pc
    case Start => 0
    case HoldLock => 0
    case Recover => 0
    case Forwarding(k) => k
    case AwaitReply(_, k, recovery) => if recovery then 1 else k + 1
    case _ => FORWARD_ATTEMPTS
  }

  predicate AttemptsOk(s: State, p: Pid) {
    && (p !in s.procs ==> ClientConns(s, p) == {})
    && (p in s.procs ==>
          && |ClientConns(s, p)| <= Opened(s.procs[p].pc)
          && (s.procs[p].pc.Forwarding? ==> s.procs[p].pc.attempt < FORWARD_ATTEMPTS)
          && (s.procs[p].pc.AwaitReply? ==> s.procs[p].pc.attempt < FORWARD_ATTEMPTS))
  }

  lemma OnlyConnectOpens(s: State, e: Event, c: ConnId)
    requires Enabled(s, e) && c in Apply(s, e).conns && c !in s.conns
    ensures e.Connect? && c == e.newConn && Apply(s, e).conns[c].client == e.p
  {
  }

  lemma ClientConnsStep(s: State, e: Event, p: Pid)
    requires Enabled(s, e)
    ensures |ClientConns(Apply(s, e), p)| == |ClientConns(s, p)| + (if e.Connect? && e.p == p then 1 else 0)
  {
    var s' := Apply(s, e);
    forall c ensures c in ClientConns(s', p) <==> c in ClientConns(s, p) || (e.Connect? && e.p == p && c == e.newConn) {
      if c in s.conns {
        ConnChanges(s, e, c);
      } else if c in s'.conns {
        OnlyConnectOpens(s, e, c);
      }
    }
    var was, now := ClientConns(s, p), ClientConns(s', p);
    if e.Connect? && e.p == p {
      assert e.newConn !in was && now == was + {e.newConn};
    } else {
      assert now == was;
    }
  }

  lemma ConnectStep(s: State, e: Event)
    requires Enabled(s, e) && e.Connect?
    ensures e.p in s.procs && MayConnect(s.procs[e.p].pc)
    ensures var k := if s.procs[e.p].pc.Forwarding? then s.procs[e.p].pc.attempt else 0;
            Apply(s, e).procs == s.procs[e.p := s.procs[e.p].(pc := AwaitReply(e.newConn, k, s.procs[e.p].pc.Recover?))]
  {
  }

  lemma PcStep(s: State, e: Event, p: Pid)
    requires Enabled(s, e) && p in s.procs && s.procs[p].pc != Apply(s, e).procs[p].pc
    requires AttemptsOk(s, p)
    ensures var pc, pc' := s.procs[p].pc, Apply(s, e).procs[p].pc;
            && Opened(pc) + (if e.Connect? then 1 else 0) <= Opened(pc')
            && (pc'.Forwarding? ==> pc'.attempt < FORWARD_ATTEMPTS) && (pc'.AwaitReply? ==> pc'.attempt < FORWARD_ATTEMPTS)
            && (e.Connect? ==> e.p == p)
  {
    hide ClientConns;
    if e.Connect? {
      ConnectStep(s, e);
      hide Apply, Enabled;
    }
  }

  lemma AttemptsStep(s: State, e: Event, p: Pid)
    requires ConnsOk(s) && AttemptsOk(s, p) && Enabled(s, e)
    ensures AttemptsOk(Apply(s, e), p)
  {
    ClientConnsStep(s, e, p);
    if p in s.procs && s.procs[p].pc != Apply(s, e).procs[p].pc {
      PcStep(s, e, p);
    }
    hide ConnsOk, ClientConns;
  }

  lemma {:induction false} AttemptsRun(s: State, events: seq<Event>, p: Pid)
    requires Inv(s) && AttemptsOk(s, p) && ValidRun(s, events)
    ensures AttemptsOk(Run(s, events), p)
    decreases |events|
  {
    hide Apply, Enabled, AttemptsOk, LockOk, ListenersOk, PathOk, ConnsOk, WaitersOk, ForwardedOk;
    if events != [] {
      StepPreserves(s, events[0]);
      AttemptsStep(s, events[0], p);
      AttemptsRun(Apply(s, events[0]), events[1..], p);
    }
  }

  function DeliveredConns(s: State, p: Pid): set<ConnId> {
    set c | c in s.conns && DeliveredFor(s, c, p)
  }

  /** `Forwarded` for a popup means the intent entered a primary's queue at least once, and retries
      put it there at most ten times. */
  lemma ForwardedWasDelivered(events: seq<Event>, p: Pid)
    requires ValidRun(Initial, events)
    requires var s := Run(Initial, events); p in s.procs && s.procs[p] == Process(ShowPopup, Done(Forwarded))
    ensures 1 <= |DeliveredConns(Run(Initial, events), p)| <= FORWARD_ATTEMPTS
  {
    InitialInv();
    RunPreserves(Initial, events);
    AttemptsRun(Initial, events, p);
    var s := Run(Initial, events);
    var c :| DeliveredFor(s, c, p);
    assert c in DeliveredConns(s, p);
    assert DeliveredConns(s, p) <= ClientConns(s, p);
    SubsetSize(DeliveredConns(s, p), ClientConns(s, p));
    SubsetSize({c}, DeliveredConns(s, p));
  }

  lemma SubsetSize(a: set<ConnId>, b: set<ConnId>)
    requires a <= b
    ensures |a| <= |b|
  {
    assert b == a + (b - a);
  }

  // ----- A serving primary answers

  /** Client `p` is about to connect to the primary behind listener `l`, over a fresh connection. */
  predicate MayForward(s: State, p: Pid, intent: Intent, k: nat, l: ListenerId, c: ConnId) {
    && s.path == Some(l) && Listening(s, l) && k < FORWARD_ATTEMPTS
    && p in s.procs && s.procs[p] == Process(intent, Forwarding(k)) && c !in s.conns && c !in s.queued
  }

  lemma Connects(s: State, p: Pid, intent: Intent, k: nat, l: ListenerId, c: ConnId)
    requires MayForward(s, p, intent, k, l, c)
    ensures Enabled(s, Connect(p, c))
    ensures var s' := Apply(s, Connect(p, c));
            && s' == s.(procs := s.procs[p := Process(intent, AwaitReply(c, k, false))],
                        conns := s.conns[c := Conn(p, l, intent, NoAnswer)])
            && Listening(s', l)
  {
  }

  lemma TwoMore(s: State, e1: Event, e2: Event)
    requires Enabled(s, e1) && Enabled(Apply(s, e1), e2)
    ensures ValidRun(s, [e1, e2]) && Run(s, [e1, e2]) == Apply(Apply(s, e1), e2)
  {
    hide Apply, Enabled;
    assert ValidRun(s, []) && Run(s, []) == s;
    Extend(s, [], e1);
    Extend(s, [] + [e1], e2);
    assert [] + [e1] + [e2] == [e1, e2];
  }

  lemma ThreeMore(s: State, e1: Event, e2: Event, e3: Event)
    requires Enabled(s, e1) && Enabled(Apply(s, e1), e2) && Enabled(Apply(Apply(s, e1), e2), e3)
    ensures ValidRun(s, [e1, e2, e3]) && Run(s, [e1, e2, e3]) == Apply(Apply(Apply(s, e1), e2), e3)
  {
    hide Apply, Enabled;
    TwoMore(s, e1, e2);
    Extend(s, [e1, e2], e3);
    assert [e1, e2] + [e3] == [e1, e2, e3];
  }

  lemma FourMore(s: State, e1: Event, e2: Event, e3: Event, e4: Event)
    requires Enabled(s, e1) && Enabled(Apply(s, e1), e2) && Enabled(Apply(Apply(s, e1), e2), e3)
    requires Enabled(Apply(Apply(Apply(s, e1), e2), e3), e4)
    ensures ValidRun(s, [e1, e2, e3, e4]) && Run(s, [e1, e2, e3, e4]) == Apply(Apply(Apply(Apply(s, e1), e2), e3), e4)
  {
    hide Apply, Enabled;
    ThreeMore(s, e1, e2, e3);
    Extend(s, [e1, e2, e3], e4);
    assert [e1, e2, e3] + [e4] == [e1, e2, e3, e4];
  }

  /** A popup sent to a serving primary whose queue is open enters that queue, is acknowledged, and is
      reported as forwarded; no other process moves. */
  lemma PopupIsForwarded(s: State, p: Pid, k: nat, l: ListenerId, c: ConnId)
    requires MayForward(s, p, ShowPopup, k, l, c)
    ensures var steps := [Connect(p, c), Accept(c, true), Respond(c), ReplyArrives(p)];
            && ValidRun(s, steps)
            && var s' := Run(s, steps);
               && s' == s.(procs := s.procs[p := Process(ShowPopup, Done(Forwarded))],
                           conns := s.conns[c := Conn(p, l, ShowPopup, Ack)], queued := s.queued + {c})
  {
    Connects(s, p, ShowPopup, k, l, c);
    hide ValidRun, Run, Apply, Enabled;
    var s1 := Apply(s, Connect(p, c));
    QueuesPopup(s1, c);
    var s2 := Apply(s1, Accept(c, true));
    Acknowledges(s2, c);
    ReportsForwarded(Apply(s2, Respond(c)), p, c, k);
    FourMore(s, Connect(p, c), Accept(c, true), Respond(c), ReplyArrives(p));
  }

  lemma QueuesPopup(s: State, c: ConnId)
    requires c in s.conns && c !in s.queued && Listening(s, s.conns[c].listener)
    requires s.conns[c].intent.ShowPopup? && s.conns[c].answer.NoAnswer?
    ensures Enabled(s, Accept(c, true)) && Apply(s, Accept(c, true)) == s.(queued := s.queued + {c})
  {
  }

  lemma Acknowledges(s: State, c: ConnId)
    requires c in s.conns && c in s.queued && Listening(s, s.conns[c].listener) && s.conns[c].answer.NoAnswer?
    ensures Enabled(s, Respond(c)) && Apply(s, Respond(c)) == s.(conns := s.conns[c := s.conns[c].(answer := Ack)])
  {
  }

  lemma ReportsForwarded(s: State, p: Pid, c: ConnId, k: nat)
    requires p in s.procs && s.procs[p] == Process(ShowPopup, AwaitReply(c, k, false)) && c in s.conns && s.conns[c].answer.Ack?
    ensures Enabled(s, ReplyArrives(p))
    ensures Apply(s, ReplyArrives(p)) == s.(procs := s.procs[p := Process(ShowPopup, Done(Forwarded))])
  {
  }

  /** A ping is answered without entering the queue. */
  lemma PingIsAnswered(s: State, p: Pid, k: nat, l: ListenerId, c: ConnId, queueOpen: bool)
    requires MayForward(s, p, Ping, k, l, c)
    ensures var steps := [Connect(p, c), Accept(c, queueOpen), ReplyArrives(p)];
            && ValidRun(s, steps)
            && Run(s, steps) == s.(procs := s.procs[p := Process(Ping, Done(Forwarded))],
                                   conns := s.conns[c := Conn(p, l, Ping, Pong)])
  {
    hide ValidRun, Run;
    Connects(s, p, Ping, k, l, c);
    var s1 := Apply(s, Connect(p, c));
    var s2 := s1.(conns := s.conns[c := Conn(p, l, Ping, Pong)]);
    assert Enabled(s1, Accept(c, queueOpen)) && Apply(s1, Accept(c, queueOpen)) == s2;
    assert Enabled(s2, ReplyArrives(p));
    ThreeMore(s, Connect(p, c), Accept(c, queueOpen), ReplyArrives(p));
  }

  /** With the queue closed the popup is rejected and not queued: the next attempt follows, and after the
      tenth the launch fails. */
  lemma ClosedQueueRejects(s: State, p: Pid, k: nat, l: ListenerId, c: ConnId)
    requires MayForward(s, p, ShowPopup, k, l, c)
    ensures var steps := [Connect(p, c), Accept(c, false), ReplyArrives(p)];
            && ValidRun(s, steps)
            && Run(s, steps) == s.(procs := s.procs[p := Process(ShowPopup, if k < 9 then Forwarding(k + 1) else Done(Failed))],
                                   conns := s.conns[c := Conn(p, l, ShowPopup, Rejected)])
  {
    hide ValidRun, Run;
    Connects(s, p, ShowPopup, k, l, c);
    var s1 := Apply(s, Connect(p, c));
    var s2 := s1.(conns := s.conns[c := Conn(p, l, ShowPopup, Rejected)]);
    assert Enabled(s1, Accept(c, false)) && Apply(s1, Accept(c, false)) == s2;
    assert Enabled(s2, ReplyArrives(p));
    ThreeMore(s, Connect(p, c), Accept(c, false), ReplyArrives(p));
  }

  /** So while a primary serves, a second launch finds the lock busy and gets to forward. */
  lemma SecondLaunchForwards(s: State, p: Pid, intent: Intent, l: ListenerId, c: ConnId)
    requires s.path == Some(l) && Listening(s, l) && s.lock.Some? && p !in s.procs && c !in s.conns && c !in s.queued
    requires s.owner[l] in s.procs
    ensures ValidRun(s, [Launch(p, intent), LockBusy(p)])
    ensures !Enabled(Apply(s, Launch(p, intent)), LockTaken(p))
    ensures MayForward(Run(s, [Launch(p, intent), LockBusy(p)]), p, intent, 0, l, c)
  {
    hide ValidRun, Run;
    TwoMore(s, Launch(p, intent), LockBusy(p));
  }

  // ----- Teardown

  /** A primary that shuts down closes its listener, removes its socket, and then frees the lock. */
  lemma TeardownLeavesNothing(s: State, p: Pid, l: ListenerId)
    requires Is(s, p, Primary(l))
    ensures var steps := [BeginShutdown(p), ListenerThreadEnds(p), Unlink(p), Unlock(p)];
            && ValidRun(s, steps)
            && Run(s, steps) == s.(procs := s.procs[p := s.procs[p].(pc := Done(Exited))], lock := None, path := None,
                                   live := s.live - {l})
  {
    hide ValidRun, Run, Apply, Enabled;
    ListenerCloses(s, p, l);
    var s2 := Apply(Apply(s, BeginShutdown(p)), ListenerThreadEnds(p));
    SocketAndLockGo(s2, p, l);
    FourMore(s, BeginShutdown(p), ListenerThreadEnds(p), Unlink(p), Unlock(p));
  }

  lemma ListenerCloses(s: State, p: Pid, l: ListenerId)
    requires Is(s, p, Primary(l))
    ensures Enabled(s, BeginShutdown(p)) && Enabled(Apply(s, BeginShutdown(p)), ListenerThreadEnds(p))
    ensures Apply(Apply(s, BeginShutdown(p)), ListenerThreadEnds(p)) ==
            s.(procs := s.procs[p := s.procs[p].(pc := Closed(l))], live := s.live - {l})
  {
    var s1 := s.(procs := s.procs[p := s.procs[p].(pc := Closing(l))]);
    assert Apply(s, BeginShutdown(p)) == s1;
  }

  lemma SocketAndLockGo(s: State, p: Pid, l: ListenerId)
    requires Is(s, p, Closed(l))
    ensures Enabled(s, Unlink(p)) && Enabled(Apply(s, Unlink(p)), Unlock(p))
    ensures Apply(Apply(s, Unlink(p)), Unlock(p)) ==
            s.(procs := s.procs[p := s.procs[p].(pc := Done(Exited))], lock := None, path := None)
  {
    var s1 := s.(procs := s.procs[p := s.procs[p].(pc := Leaving(Exited))], path := None);
    assert Apply(s, Unlink(p)) == s1;
  }

  // ----- Recovery always succeeds for a lone process

  /** The steps of one undisturbed launch, with or without a stale socket in place. */
  function LaunchSteps(s: State, p: Pid, l: ListenerId): seq<Event> {
    [LockTaken(p)] +
    (if s.path.Some? then [AddressInUse(p), ConnectFails(p), Unlink(p)] else []) +
    [Bind(p, l), PermissionsSet(p)]
  }

  lemma {:induction false} Extend(s: State, past: seq<Event>, e: Event)
    requires ValidRun(s, past) && Enabled(Run(s, past), e)
    ensures ValidRun(s, past + [e]) && Run(s, past + [e]) == Apply(Run(s, past), e)
    decreases |past|
  {
    hide Apply, Enabled;
    if past == [] {
      assert [] + [e] == [e];
      assert [e][1..] == [];
      assert ValidRun(Apply(s, e), []);
    } else {
      Extend(Apply(s, past[0]), past[1..], e);
      assert (past + [e])[1..] == past[1..] + [e];
    }
  }

  lemma NobodyListens(s: State)
    requires Inv(s) && s.lock.None?
    ensures s.live == {}
  {
    forall l | l in s.live ensures false {
      LiveMeansLocked(s, l);
    }
  }

  /** From any state whose lock is free, a process that starts becomes primary by its own steps:
      no crash, at any point of any run, leaves a socket that blocks the next launch. */
  lemma LoneLauncherBecomesPrimary(s: State, p: Pid, l: ListenerId)
    requires Inv(s) && s.lock.None? && Is(s, p, Start) && l !in s.owner
    ensures ValidRun(s, LaunchSteps(s, p, l))
    ensures var s' := Run(s, LaunchSteps(s, p, l));
            Is(s', p, Primary(l)) && s'.path == Some(l) && s'.live == {l} && s'.lock == Some(p)
  {
    NobodyListens(s);
    hide Inv;
    var first := [LockTaken(p)];
    StartsLaunch(s, p);
    if s.path.Some? {
      ClearsStaleSocket(s, p, first);
      var cleared := first + [AddressInUse(p)] + [ConnectFails(p)] + [Unlink(p)];
      BindAndServe(s, p, l, cleared, Rebind);
      assert LaunchSteps(s, p, l) == cleared + [Bind(p, l)] + [PermissionsSet(p)];
    } else {
      BindAndServe(s, p, l, first, HoldLock);
      assert LaunchSteps(s, p, l) == first + [Bind(p, l)] + [PermissionsSet(p)];
    }
  }

  /** The state of a lone launch: only the lock, the path and the launcher's own position moved. */
  function At(s: State, p: Pid, pc: Pc, path: Option<ListenerId>): State
    requires p in s.procs
  {
    s.(procs := s.procs[p := s.procs[p].(pc := pc)], lock := Some(p), path := path)
  }

  lemma StartsLaunch(s: State, p: Pid)
    requires s.lock.None? && Is(s, p, Start)
    ensures ValidRun(s, [LockTaken(p)]) && Run(s, [LockTaken(p)]) == At(s, p, HoldLock, s.path)
  {
    assert ValidRun(s, []) && Run(s, []) == s;
    Extend(s, [], LockTaken(p));
    assert [] + [LockTaken(p)] == [LockTaken(p)];
  }

  lemma MovesTo(s: State, p: Pid, pc: Pc, path: Option<ListenerId>, e: Event, pc': Pc, path': Option<ListenerId>)
    requires p in s.procs && s.live == {} && Enabled(At(s, p, pc, path), e)
    requires (e == AddressInUse(p) && pc == HoldLock && pc' == Recover && path' == path)
          || (e == ConnectFails(p) && pc == Recover && pc' == Unlinking && path' == path)
          || (e == Unlink(p) && pc == Unlinking && pc' == Rebind && path' == None)
    ensures Apply(At(s, p, pc, path), e) == At(s, p, pc', path')
  {
  }

  lemma ClearsStaleSocket(s: State, p: Pid, first: seq<Event>)
    requires s.live == {} && s.path.Some? && p in s.procs
    requires ValidRun(s, first) && Run(s, first) == At(s, p, HoldLock, s.path)
    ensures var steps := first + [AddressInUse(p)] + [ConnectFails(p)] + [Unlink(p)];
            ValidRun(s, steps) && Run(s, steps) == At(s, p, Rebind, None)
  {
    MovesTo(s, p, HoldLock, s.path, AddressInUse(p), Recover, s.path);
    MovesTo(s, p, Recover, s.path, ConnectFails(p), Unlinking, s.path);
    MovesTo(s, p, Unlinking, s.path, Unlink(p), Rebind, None);
    assert Enabled(At(s, p, HoldLock, s.path), AddressInUse(p));
    assert Enabled(At(s, p, Recover, s.path), ConnectFails(p));
    assert Enabled(At(s, p, Unlinking, s.path), Unlink(p));
    hide Apply, Enabled, ValidRun, Run;
    Extend(s, first, AddressInUse(p));
    Extend(s, first + [AddressInUse(p)], ConnectFails(p));
    Extend(s, first + [AddressInUse(p)] + [ConnectFails(p)], Unlink(p));
  }

  lemma BindAndServe(s: State, p: Pid, l: ListenerId, past: seq<Event>, pc: Pc)
    requires s.live == {} && p in s.procs && l !in s.owner && (pc.HoldLock? || pc.Rebind?)
    requires ValidRun(s, past) && Run(s, past) == At(s, p, pc, None)
    ensures var steps := past + [Bind(p, l)] + [PermissionsSet(p)];
            && ValidRun(s, steps)
            && var s' := Run(s, steps);
               Is(s', p, Primary(l)) && s'.path == Some(l) && s'.live == {l} && s'.lock == Some(p)
  {
    hide ValidRun, Run;
    var s1 := At(s, p, pc, None);
    Extend(s, past, Bind(p, l));
    var s2 := Apply(s1, Bind(p, l));
    Extend(s, past + [Bind(p, l)], PermissionsSet(p));
  }
}
