/** Safety of the single-instance protocol over every interleaving and every crash. */
module SingleInstanceProofs {
  import opened Options
  import opened SingleInstance

  lemma InitialInv()
    ensures Inv(Initial)
  {
  }

  lemma LockStep(s: State, e: Event)
    requires LockOk(s) && Enabled(s, e)
    ensures LockOk(Apply(s, e))
  {
    var s' := Apply(s, e);
    forall p ensures p in s'.procs && OwnsLock(s'.procs[p].pc) <==> s'.lock == Some(p) {
      assert p in s.procs && OwnsLock(s.procs[p].pc) <==> s.lock == Some(p);
    }
  }

  /** Only the lock owner can have an open listener. */
  lemma LiveMeansLocked(s: State, l: ListenerId)
    requires LockOk(s) && ListenersOk(s) && l in s.live
    ensures l in s.owner && s.lock == Some(s.owner[l])
  {
    var p := s.owner[l];
    assert BoundListener(PcOf(s, p)) == Some(l);
    assert p in s.procs && OwnsLock(s.procs[p].pc);
  }

  lemma OwnerIsUnique(s: State, p: Pid)
    requires LockOk(s) && p in s.procs && OwnsLock(s.procs[p].pc)
    ensures s.lock == Some(p)
  {
  }

  lemma LiveStays(s: State, e: Event, l: ListenerId)
    requires LockOk(s) && ListenersOk(s) && Enabled(s, e) && l in Apply(s, e).live
    ensures var s' := Apply(s, e);
            l in s'.owner && BoundListener(PcOf(s', s'.owner[l])) == Some(l) && !PcOf(s', s'.owner[l]).Closed?
  {
    if l in s.live {
      LiveMeansLocked(s, l);
      hide LockOk, ListenersOk;
      OwnerKeeps(s, e, l);
    } else {
      hide LockOk, ListenersOk;
      assert e.Bind? && l == e.newListener;
    }
  }

  lemma OwnerRecorded(s: State, e: Event, l: ListenerId)
    requires Enabled(s, e) && l in s.owner
    ensures l in Apply(s, e).owner && Apply(s, e).owner[l] == s.owner[l]
  {
  }

  /** A bound process stays bound to its listener for as long as that stays open. */
  lemma BoundStays(s: State, e: Event, p: Pid, l: ListenerId)
    requires Enabled(s, e) && l in s.live && l in Apply(s, e).live
    requires PcOf(s, p) == Bound(l) || PcOf(s, p) == Primary(l) || PcOf(s, p) == Closing(l)
    ensures var pc := PcOf(Apply(s, e), p); pc == Bound(l) || pc == Primary(l) || pc == Closing(l)
  {
  }

  lemma OwnerKeeps(s: State, e: Event, l: ListenerId)
    requires Enabled(s, e) && l in s.live && l in Apply(s, e).live && l in s.owner
    requires BoundListener(PcOf(s, s.owner[l])) == Some(l) && !PcOf(s, s.owner[l]).Closed?
    ensures var s' := Apply(s, e);
            l in s'.owner && BoundListener(PcOf(s', s'.owner[l])) == Some(l) && !PcOf(s', s'.owner[l]).Closed?
  {
    hide Apply, Enabled;
    OwnerRecorded(s, e, l);
    BoundStays(s, e, s.owner[l], l);
  }

  lemma BoundIsLive(s: State, e: Event, p: Pid)
    requires LockOk(s) && ListenersOk(s) && PathOk(s) && Enabled(s, e)
    requires p in Apply(s, e).procs && Apply(s, e).procs[p].pc.Bound?
    ensures Apply(s, e).procs[p].pc.listener in Apply(s, e).live
  {
    hide LockOk, PathOk;
    if p in s.procs && s.procs[p].pc.Bound? {
      assert s.procs[p].pc.listener in s.live;
      if e.ListenerStops? || e.ListenerThreadEnds? || e.PermissionsError? || e.Crash? {
        if OwnsLock(s.procs[e.p].pc) {
          OtherListenersStay(s, p, e.p);
        }
      }
    }
  }

  lemma PathBound(s: State, e: Event)
    requires ListenersOk(s) && Enabled(s, e)
    ensures Apply(s, e).path.Some? ==> Apply(s, e).path.value in Apply(s, e).owner
  {
  }

  lemma ListenersStep(s: State, e: Event)
    requires LockOk(s) && ListenersOk(s) && PathOk(s) && Enabled(s, e)
    ensures ListenersOk(Apply(s, e))
  {
    var s' := Apply(s, e);
    PathBound(s, e);
    forall l | l in s'.live
      ensures l in s'.owner && BoundListener(PcOf(s', s'.owner[l])) == Some(l) && !PcOf(s', s'.owner[l]).Closed? {
      LiveStays(s, e, l);
    }
    forall p | p in s'.procs && s'.procs[p].pc.Bound? ensures s'.procs[p].pc.listener in s'.live {
      BoundIsLive(s, e, p);
    }
    hide LockOk, PathOk, Apply, Enabled;
  }

  lemma OtherListenersStay(s: State, p: Pid, q: Pid)
    requires LockOk(s) && p in s.procs && q in s.procs
    requires OwnsLock(s.procs[p].pc) && OwnsLock(s.procs[q].pc)
    ensures p == q
  {
  }

  lemma PathStep(s: State, e: Event)
    requires LockOk(s) && ListenersOk(s) && PathOk(s) && Enabled(s, e)
    ensures PathOk(Apply(s, e))
  {
    hide ListenersOk, LockOk;
    var s' := Apply(s, e);
    forall p | p in s'.procs && BoundListener(s'.procs[p].pc).Some?
      ensures s'.path == BoundListener(s'.procs[p].pc) && s'.path.value in s'.owner && s'.owner[s'.path.value] == p {
      if p in s.procs && BoundListener(s.procs[p].pc).Some? {
        OwnerIsUnique(s, p);
        if e.Bind? || e.Unlink? {
          OwnerIsUnique(s, e.p);
        }
      }
    }
  }

  /** Processes keep their intent, and nothing bound or queued is forgotten. */
  lemma NothingForgotten(s: State, e: Event, p: Pid)
    requires Enabled(s, e)
    ensures s.owner.Keys <= Apply(s, e).owner.Keys && s.queued <= Apply(s, e).queued
    ensures p in s.procs ==> p in Apply(s, e).procs && Apply(s, e).procs[p].intent == s.procs[p].intent
  {
  }

  /** An existing connection changes only by being accepted or answered. */
  lemma ConnChanges(s: State, e: Event, c: ConnId)
    requires Enabled(s, e) && c in s.conns
    ensures c in Apply(s, e).conns
    ensures var k, k' := s.conns[c], Apply(s, e).conns[c];
            && k'.client == k.client && k'.listener == k.listener && k'.intent == k.intent
            && (k'.answer != k.answer ==> (e.Accept? || e.Respond?) && e.c == c)
    ensures c in Apply(s, e).queued && c !in s.queued ==> e.Accept? && e.c == c
  {
  }

  lemma ConnKept(s: State, e: Event, c: ConnId)
    requires Enabled(s, e) && c in s.conns && ConnOk(s, c)
    ensures c in Apply(s, e).conns && ConnOk(Apply(s, e), c)
  {
    ConnChanges(s, e, c);
    NothingForgotten(s, e, s.conns[c].client);
    if !(e.Accept? || e.Respond?) {
      hide Apply, Enabled;
    }
  }

  lemma ConnOpened(s: State, e: Event, c: ConnId)
    requires Enabled(s, e) && c !in s.conns && c in Apply(s, e).conns
    requires s.path.Some? ==> s.path.value in s.owner
    requires s.queued <= s.conns.Keys
    ensures ConnOk(Apply(s, e), c)
  {
    assert e.Connect? && c == e.newConn;
  }

  lemma ConnsStep(s: State, e: Event)
    requires ConnsOk(s) && ListenersOk(s) && Enabled(s, e)
    ensures ConnsOk(Apply(s, e))
  {
    assert s.path.Some? ==> s.path.value in s.owner;
    QueuedAreConns(s, e);
    hide ListenersOk, Apply, Enabled, ConnOk;
    forall c | c in Apply(s, e).conns ensures ConnOk(Apply(s, e), c) {
      if c in s.conns {
        ConnKept(s, e, c);
      } else {
        ConnOpened(s, e, c);
      }
    }
  }

  lemma QueuedAreConns(s: State, e: Event)
    requires s.queued <= s.conns.Keys && Enabled(s, e)
    ensures Apply(s, e).queued <= Apply(s, e).conns.Keys
  {
  }

  lemma WaiterStep(s: State, e: Event, p: Pid)
    requires Enabled(s, e) && p in Apply(s, e).procs && Apply(s, e).procs[p].pc.AwaitReply?
    ensures (p in s.procs && s.procs[p].pc == Apply(s, e).procs[p].pc) ||
            (e.Connect? && e.p == p && Apply(s, e).procs[p].pc.conn == e.newConn)
  {
  }

  lemma WaitersStep(s: State, e: Event)
    requires WaitersOk(s) && Enabled(s, e)
    ensures WaitersOk(Apply(s, e))
  {
    var s' := Apply(s, e);
    forall p | p in s'.procs && s'.procs[p].pc.AwaitReply?
      ensures s'.procs[p].pc.conn in s'.conns && s'.conns[s'.procs[p].pc.conn].client == p
    {
      WaiterStep(s, e, p);
      if !e.Connect? || e.p != p {
        ConnChanges(s, e, s.procs[p].pc.conn);
        hide Apply, Enabled;
      }
    }
  }

  lemma ForwardedStep(s: State, e: Event)
    requires ConnsOk(s) && WaitersOk(s) && ForwardedOk(s) && Enabled(s, e)
    ensures ForwardedOk(Apply(s, e))
  {
    var s' := Apply(s, e);
    forall p | p in s'.procs && Reported(s'.procs[p].pc) && s'.procs[p].intent.ShowPopup?
      ensures exists c :: DeliveredFor(s', c, p) {
      if p in s.procs && Reported(s.procs[p].pc) {
        var c :| DeliveredFor(s, c, p);
        assert ConnOk(s, c);
        assert DeliveredFor(s', c, p);
      } else {
        ReportNeedsAck(s, e, p);
        assert DeliveredFor(s', s.procs[p].pc.conn, p);
      }
    }
  }

  lemma ReportComesFromReply(s: State, e: Event, p: Pid)
    requires Enabled(s, e) && p in Apply(s, e).procs && Reported(Apply(s, e).procs[p].pc)
    requires !(p in s.procs && Reported(s.procs[p].pc))
    ensures e == ReplyArrives(p) && p in s.procs && s.procs[p].pc.AwaitReply? && s.procs[p].pc.conn in s.conns
    ensures s.conns[s.procs[p].pc.conn].answer == Expected(s.procs[p].intent)
    ensures Apply(s, e).procs[p].intent == s.procs[p].intent
  {
  }

  /** A client reports `Forwarded` for a popup only on an acknowledgement, which only a queued intent gets. */
  lemma ReportNeedsAck(s: State, e: Event, p: Pid)
    requires ConnsOk(s) && WaitersOk(s) && Enabled(s, e)
    requires p in Apply(s, e).procs && Reported(Apply(s, e).procs[p].pc) && !(p in s.procs && Reported(s.procs[p].pc))
    requires Apply(s, e).procs[p].intent.ShowPopup?
    ensures e == ReplyArrives(p) && p in s.procs && s.procs[p].pc.AwaitReply? && DeliveredFor(s, s.procs[p].pc.conn, p)
  {
    ReportComesFromReply(s, e, p);
    hide Apply, Enabled;
    assert ConnOk(s, s.procs[p].pc.conn);
  }

  lemma StepPreserves(s: State, e: Event)
    requires Inv(s) && Enabled(s, e)
    ensures Inv(Apply(s, e))
  {
    hide LockOk, ListenersOk, PathOk, ConnsOk, WaitersOk, ForwardedOk, Apply, Enabled;
    LockStep(s, e);
    ListenersStep(s, e);
    PathStep(s, e);
    ConnsStep(s, e);
    WaitersStep(s, e);
    ForwardedStep(s, e);
  }

  ghost predicate ValidRun(s: State, events: seq<Event>)
    decreases |events|
  {
    events == [] || (Enabled(s, events[0]) && ValidRun(Apply(s, events[0]), events[1..]))
  }

  ghost function Run(s: State, events: seq<Event>): State
    requires ValidRun(s, events)
    decreases |events|
  {
    if events == [] then s else Run(Apply(s, events[0]), events[1..])
  }

  lemma {:induction false} RunPreserves(s: State, events: seq<Event>)
    requires Inv(s) && ValidRun(s, events)
    ensures Inv(Run(s, events))
    decreases |events|
  {
    hide Inv, Apply, Enabled;
    if events != [] {
      StepPreserves(s, events[0]);
      RunPreserves(Apply(s, events[0]), events[1..]);
    }
  }
}
