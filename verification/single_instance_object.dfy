/** One undisturbed pass through `acquire_at`, `forward_with_retry` and the guard's teardown, over
    the host objects they update: the lock, the socket path and the open listeners. */
module SingleInstanceObject {
  import opened Options
  import opened SingleInstance

  datatype Launch = IsPrimary(listener: ListenerId) | WasForwarded | LaunchFailed

  datatype LockAnswer = Held | WouldBlock | LockFailed

  /** How the host treats one call of `bind`: other errors than an address in use, and the permissions. */
  datatype BindCall = BindCall(binds: bool, permits: bool)

  datatype BindAnswer = BoundTo(listener: ListenerId) | InUse | BindFailed

  /** Up to ten attempts, stopping at the first that succeeds. `answers(k)` is what attempt k meets. */
  method ForwardWithRetry(answers: nat -> bool) returns (ok: bool, attempts: nat)
    ensures 1 <= attempts <= FORWARD_ATTEMPTS
    ensures ok <==> exists k: nat :: k < FORWARD_ATTEMPTS && answers(k)
    ensures ok ==> answers(attempts - 1) && forall k: nat :: k < attempts - 1 ==> !answers(k)
    ensures !ok ==> attempts == FORWARD_ATTEMPTS
  {
    attempts := 0;
    while attempts < FORWARD_ATTEMPTS
      invariant attempts <= FORWARD_ATTEMPTS
      invariant forall k: nat :: k < attempts ==> !answers(k)
    {
      var reached := answers(attempts);
      attempts := attempts + 1;
      if reached {
        return true, attempts;
      }
    }
    return false, attempts;
  }

  class Host {
    var lock: Option<Pid>
    var path: Option<ListenerId>
    var live: set<ListenerId>
    var nextListener: nat

    /** Listener ids are never reused. A listener may be open without the lock: a resident process
        from before the lock existed. */
    ghost predicate Valid()
      reads this
    {
      && (forall l :: l in live ==> l < nextListener)
      && (path.Some? ==> path.value < nextListener)
    }

    constructor ()
      ensures Valid() && lock == None && path == None && live == {}
    {
      lock, path, live, nextListener := None, None, {}, 0;
    }

    /** The lock file may fail to open or to lock; otherwise the lock is taken exactly when it is free. */
    method TryOwnerLock(p: Pid, fileWorks: bool) returns (answer: LockAnswer)
      modifies this`lock
      ensures answer.LockFailed? <==> !fileWorks
      ensures answer.Held? <==> fileWorks && old(lock).None?
      ensures lock == if answer.Held? then Some(p) else old(lock)
    {
      if !fileWorks {
        return LockFailed;
      }
      if lock.Some? {
        return WouldBlock;
      }
      lock := Some(p);
      return Held;
    }

    /** Binding an existing path reports it in use, whether or not anyone listens behind it; any other
        error leaves the path alone; failing permissions close the listener and leave the path behind. */
    method BindSocket(call: BindCall) returns (answer: BindAnswer)
      requires Valid() && lock.Some?
      modifies this`path, this`live, this`nextListener
      ensures Valid()
      ensures answer.InUse? <==> call.binds && old(path).Some?
      ensures answer.BoundTo? <==> call.binds && old(path).None? && call.permits
      ensures answer.BoundTo? ==> path == Some(answer.listener) && live == old(live) + {answer.listener} && answer.listener !in old(live)
      ensures !answer.BoundTo? ==> live == old(live)
      ensures !call.binds || old(path).Some? ==> path == old(path)
      ensures call.binds && old(path).None? ==> path.Some? && path.value !in old(live)
    {
      if !call.binds {
        return BindFailed;
      }
      if path.Some? {
        return InUse;
      }
      var l := nextListener;
      nextListener, path := nextListener + 1, Some(l);
      if !call.permits {
        return BindFailed;
      }
      live := live + {l};
      return BoundTo(l);
    }

    /** `acquire_at`: without the lock it forwards; with the lock it becomes primary unless someone
        behind the path answers, or a call fails. Every other ending gives the lock back. */
    method AcquireAt(p: Pid, fileWorks: bool, answers: nat -> bool, first: BindCall, residentAnswers: bool,
                     removeWorks: bool, second: BindCall) returns (launch: Launch)
      requires Valid()
      modifies this
      ensures Valid()
      ensures !fileWorks || old(lock).Some? ==> lock == old(lock) && path == old(path) && live == old(live)
      ensures !fileWorks ==> launch.LaunchFailed?
      ensures fileWorks && old(lock).Some? ==>
                !launch.IsPrimary? && (launch.WasForwarded? <==> exists k: nat :: k < FORWARD_ATTEMPTS && answers(k))
      ensures fileWorks && old(lock).None? ==>
                var answered := first.binds && old(path).Some? && old(path).value in old(live) && residentAnswers;
                && (launch.WasForwarded? <==> answered)
                && (launch.IsPrimary? <==>
                      first.binds && (if old(path).None? then first.permits
                                      else !answered && removeWorks && second.binds && second.permits))
      ensures launch.IsPrimary? ==> lock == Some(p) && path == Some(launch.listener)
      ensures launch.IsPrimary? ==> launch.listener !in old(live) && live == old(live) + {launch.listener}
      ensures !launch.IsPrimary? ==> lock == old(lock) && live == old(live)
    {
      var locked := TryOwnerLock(p, fileWorks);
      if locked.LockFailed? {
        return LaunchFailed;
      }
      if locked.WouldBlock? {
        var forwarded, n := ForwardWithRetry(answers);
        return if forwarded then WasForwarded else LaunchFailed;
      }
      var bound := BindSocket(first);
      if bound.InUse? {
        if path.value in live && residentAnswers {
          lock := None;
          return WasForwarded;
        }
        if !removeWorks {
          lock := None;
          return LaunchFailed;
        }
        path := None;
        bound := BindSocket(second);
      }
      if !bound.BoundTo? {
        lock := None;
        return LaunchFailed;
      }
      return IsPrimary(bound.listener);
    }

    /** The guard's drop: the listener closes first, then the socket is removed, then the lock released. */
    method DropGuard(p: Pid, listener: ListenerId)
      requires Valid() && lock == Some(p)
      modifies this
      ensures Valid() && lock == None && path == None && live == old(live) - {listener}
    {
      live := live - {listener};
      path := None;
      lock := None;
    }
  }
}
