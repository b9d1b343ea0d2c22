/** The single-instance protocol on a Unix host: any number of processes share an advisory owner
    lock and a socket path. Any process may crash at any step; the host then drops its lock and
    closes its listener but leaves the socket file behind. */
module SingleInstance {
  import opened Options

  type Pid = nat
  type ListenerId = nat
  type ConnId = nat

  const FORWARD_ATTEMPTS: nat := 10

  datatype Intent = ShowPopup | Ping

  /** From `HoldLock` on, except in the forwarding states, a process owns the lock. `recovery` marks
      the single attempt a lock owner makes before it unlinks a socket it found in place. */
  datatype Pc =
    | Start
    | Forwarding(attempt: nat)
    | AwaitReply(conn: ConnId, attempt: nat, recovery: bool)
    | HoldLock
    | Recover
    | Unlinking
    | Rebind
    | Bound(listener: ListenerId)
    | Primary(listener: ListenerId)
    | Closing(listener: ListenerId)
    | Closed(listener: ListenerId)
    | Leaving(outcome: Outcome)
    | Done(outcome: Outcome)

  datatype Outcome = Forwarded | Failed | Exited | Crashed

  datatype Process = Process(intent: Intent, pc: Pc)

  /** A client connection: taken by a listener, then possibly queued to its application and answered. */
  datatype Answer = NoAnswer | Ack | Pong | Rejected

  datatype Conn = Conn(client: Pid, listener: ListenerId, intent: Intent, answer: Answer)

  /** `owner` names who bound each listener ever made; `live` holds those still open.
      `queued` is the set of connections whose intent entered a primary's queue. */
  datatype State = State(
    lock: Option<Pid>, path: Option<ListenerId>,
    owner: map<ListenerId, Pid>, live: set<ListenerId>,
    procs: map<Pid, Process>, conns: map<ConnId, Conn>, queued: set<ConnId>)

  datatype Event =
    | Launch(p: Pid, intent: Intent)
    | LockTaken(p: Pid)
    | LockBusy(p: Pid)
    | LockError(p: Pid)
    | Bind(p: Pid, newListener: ListenerId)
    | AddressInUse(p: Pid)
    | BindError(p: Pid)
    | PermissionsSet(p: Pid)
    | PermissionsError(p: Pid)
    | Connect(p: Pid, newConn: ConnId)
    | ConnectFails(p: Pid)
    | Accept(c: ConnId, queueOpen: bool)
    | Respond(c: ConnId)
    | ReplyArrives(p: Pid)
    | ReplyFails(p: Pid)
    | Unlink(p: Pid)
    | UnlinkError(p: Pid)
    | ListenerStops(p: Pid)
    | BeginShutdown(p: Pid)
    | ListenerThreadEnds(p: Pid)
    | Unlock(p: Pid)
    | Crash(p: Pid)

  predicate OwnsLock(pc: Pc) {
    match pc
    case Start => false
    case Forwarding(_) => false
    case AwaitReply(_, _, recovery) => recovery
    case Done(_) => false
    case _ => true
  }

  /** The listener a process has bound and not yet given up the path of. */
  function BoundListener(pc: Pc): Option<ListenerId> {
    match pc
    case Bound(l) => Some(l)
    case Primary(l) => Some(l)
    case Closing(l) => Some(l)
    case Closed(l) => Some(l)
    case _ => None
  }

  predicate Is(s: State, p: Pid, pc: Pc) { p in s.procs && s.procs[p].pc == pc }

  function PcOf(s: State, p: Pid): Pc { if p in s.procs then s.procs[p].pc else Done(Failed) }

  /** The listener of a process that runs its accept loop. */
  predicate Listening(s: State, l: ListenerId) {
    l in s.live && l in s.owner &&
    (PcOf(s, s.owner[l]) == Primary(l) || PcOf(s, s.owner[l]) == Closing(l))
  }

  function Expected(intent: Intent): Answer {
    match intent
    case ShowPopup => Ack
    case Ping => Pong
  }

  predicate MayConnect(pc: Pc) { (pc.Forwarding? && pc.attempt < FORWARD_ATTEMPTS) || pc.Recover? }

  predicate Enabled(s: State, e: Event) {
    match e
    case Launch(p, _) => p !in s.procs
    case LockTaken(p) => Is(s, p, Start) && s.lock.None?
    case LockBusy(p) => Is(s, p, Start) && s.lock.Some?
    case LockError(p) => Is(s, p, Start)
    case Bind(p, l) => (Is(s, p, HoldLock) || Is(s, p, Rebind)) && s.path.None? && l !in s.owner
    case AddressInUse(p) => (Is(s, p, HoldLock) || Is(s, p, Rebind)) && s.path.Some?
    case BindError(p) => Is(s, p, HoldLock) || Is(s, p, Rebind)
    case PermissionsSet(p) => PcOf(s, p).Bound?
    case PermissionsError(p) => PcOf(s, p).Bound?
    case Connect(p, c) => MayConnect(PcOf(s, p)) && c !in s.conns && s.path.Some? && s.path.value in s.live
    case ConnectFails(p) => MayConnect(PcOf(s, p))
    case Accept(c, _) => c in s.conns && c !in s.queued && s.conns[c].answer.NoAnswer? && Listening(s, s.conns[c].listener)
    case Respond(c) => c in s.queued && c in s.conns && s.conns[c].answer.NoAnswer? && Listening(s, s.conns[c].listener)
    case ReplyArrives(p) =>
      PcOf(s, p).AwaitReply? && PcOf(s, p).conn in s.conns && !s.conns[PcOf(s, p).conn].answer.NoAnswer?
    case ReplyFails(p) => PcOf(s, p).AwaitReply?
    case Unlink(p) => Is(s, p, Unlinking) || PcOf(s, p).Closed?
    case UnlinkError(p) => Is(s, p, Unlinking) || PcOf(s, p).Closed?
    case ListenerStops(p) => PcOf(s, p).Primary? && PcOf(s, p).listener in s.live
    case BeginShutdown(p) => PcOf(s, p).Primary?
    case ListenerThreadEnds(p) => PcOf(s, p).Closing?
    case Unlock(p) => PcOf(s, p).Leaving?
    case Crash(p) => p in s.procs && !s.procs[p].pc.Done?
  }

  function Goto(s: State, p: Pid, pc: Pc): State
    requires p in s.procs
  {
    s.(procs := s.procs[p := s.procs[p].(pc := pc)])
  }

  /** The next step of a client whose attempt failed. */
  function AfterFailedAttempt(pc: Pc): Pc {
    if pc.Recover? || (pc.AwaitReply? && pc.recovery) then Unlinking
    else if pc.Forwarding? || pc.AwaitReply? then
      (if pc.attempt + 1 < FORWARD_ATTEMPTS then Forwarding(pc.attempt + 1) else Done(Failed))
    else Done(Failed)
  }

  function Apply(s: State, e: Event): State
    requires Enabled(s, e)
  {
    match e
    case Launch(p, intent) => s.(procs := s.procs[p := Process(intent, Start)])
    case LockTaken(p) => Goto(s, p, HoldLock).(lock := Some(p))
    case LockBusy(p) => Goto(s, p, Forwarding(0))
    case LockError(p) => Goto(s, p, Done(Failed))
    case Bind(p, l) => Goto(s, p, Bound(l)).(path := Some(l), owner := s.owner[l := p], live := s.live + {l})
    case AddressInUse(p) => Goto(s, p, if s.procs[p].pc.HoldLock? then Recover else Leaving(Failed))
    case BindError(p) => Goto(s, p, Leaving(Failed))
    case PermissionsSet(p) => Goto(s, p, Primary(s.procs[p].pc.listener))
    case PermissionsError(p) => Goto(s, p, Leaving(Failed)).(live := s.live - {s.procs[p].pc.listener})
    case Connect(p, c) =>
      var pc := s.procs[p].pc;
      Goto(s, p, AwaitReply(c, if pc.Forwarding? then pc.attempt else 0, pc.Recover?))
        .(conns := s.conns[c := Conn(p, s.path.value, s.procs[p].intent, NoAnswer)])
    case ConnectFails(p) => Goto(s, p, AfterFailedAttempt(s.procs[p].pc))
    case Accept(c, queueOpen) =>
      if s.conns[c].intent.Ping? then s.(conns := s.conns[c := s.conns[c].(answer := Pong)])
      else if queueOpen then s.(queued := s.queued + {c})
      else s.(conns := s.conns[c := s.conns[c].(answer := Rejected)])
    case Respond(c) => s.(conns := s.conns[c := s.conns[c].(answer := Ack)])
    case ReplyArrives(p) =>
      var pc := s.procs[p].pc;
      if s.conns[pc.conn].answer == Expected(s.procs[p].intent) then
        Goto(s, p, if pc.recovery then Leaving(Forwarded) else Done(Forwarded))
      else Goto(s, p, AfterFailedAttempt(pc))
    case ReplyFails(p) => Goto(s, p, AfterFailedAttempt(s.procs[p].pc))
    case Unlink(p) => Goto(s, p, if s.procs[p].pc.Unlinking? then Rebind else Leaving(Exited)).(path := None)
    case UnlinkError(p) => Goto(s, p, if s.procs[p].pc.Unlinking? then Leaving(Failed) else Leaving(Exited))
    case ListenerStops(p) => s.(live := s.live - {s.procs[p].pc.listener})
    case BeginShutdown(p) => Goto(s, p, Closing(s.procs[p].pc.listener))
    case ListenerThreadEnds(p) =>
      Goto(s, p, Closed(s.procs[p].pc.listener)).(live := s.live - {s.procs[p].pc.listener})
    case Unlock(p) => Goto(s, p, Done(s.procs[p].pc.outcome)).(lock := None)
    case Crash(p) =>
      var l := BoundListener(s.procs[p].pc);
      Goto(s, p, Done(Crashed)).(lock := if OwnsLock(s.procs[p].pc) then None else s.lock,
                                 live := if l.Some? then s.live - {l.value} else s.live)
  }

  const Initial: State := State(None, None, map[], {}, map[], map[], {})

  // ----- Invariant

  ghost predicate LockOk(s: State) {
    forall p :: p in s.procs && OwnsLock(s.procs[p].pc) <==> s.lock == Some(p)
  }

  /** An open listener belongs to a process that is bound to it, hence owns the lock. */
  ghost predicate ListenersOk(s: State) {
    && (forall l :: l in s.live ==>
          l in s.owner && BoundListener(PcOf(s, s.owner[l])) == Some(l) && !PcOf(s, s.owner[l]).Closed?)
    && (s.path.Some? ==> s.path.value in s.owner)
    && (forall p :: p in s.procs && s.procs[p].pc.Bound? ==> s.procs[p].pc.listener in s.live)
  }

  /** While a process is bound, the path is its own socket. */
  ghost predicate PathOk(s: State) {
    forall p :: p in s.procs && BoundListener(s.procs[p].pc).Some? ==>
      s.path == BoundListener(s.procs[p].pc) && s.path.value in s.owner && s.owner[s.path.value] == p
  }

  /** Only queued intents are acknowledged, and a connection carries its client's intent. */
  ghost predicate ConnOk(s: State, c: ConnId)
    requires c in s.conns
  {
    var k := s.conns[c];
    && (k.answer.Ack? ==> c in s.queued) && (k.answer.Pong? ==> k.intent.Ping?)
    && (c in s.queued ==> k.intent.ShowPopup?)
    && k.client in s.procs && s.procs[k.client].intent == k.intent && k.listener in s.owner
  }

  ghost predicate ConnsOk(s: State) {
    s.queued <= s.conns.Keys && forall c :: c in s.conns ==> ConnOk(s, c)
  }

  ghost predicate WaitersOk(s: State) {
    forall p :: p in s.procs && s.procs[p].pc.AwaitReply? ==>
      s.procs[p].pc.conn in s.conns && s.conns[s.procs[p].pc.conn].client == p
  }

  predicate Reported(pc: Pc) { (pc.Done? || pc.Leaving?) && pc.outcome.Forwarded? }

  predicate DeliveredFor(s: State, c: ConnId, p: Pid) {
    c in s.queued && c in s.conns && s.conns[c].client == p
  }

  ghost predicate ForwardedOk(s: State) {
    forall p :: p in s.procs && Reported(s.procs[p].pc) && s.procs[p].intent.ShowPopup? ==>
      exists c :: DeliveredFor(s, c, p)
  }

  ghost predicate Inv(s: State) {
    LockOk(s) && ListenersOk(s) && PathOk(s) && ConnsOk(s) && WaitersOk(s) && ForwardedOk(s)
  }
}
