/** The owner object itself: the counter, the optional sender, the join handle and the channel,
    updated in place by the atomic sections of `execute`, `try_execute`, `submit`, the worker
    loop and `shutdown`. */
module StoreOwnerObject {
  import opened Options
  import opened StoreOwner

  class Owner {
    var senderOpen: bool
    var pending: int
    var handle: Handle
    var calls: map<CallId, Call>
    var queue: seq<CallId>
    var worker: Worker
    var stopping: set<ShutdownId>
    var returned: set<ShutdownId>
    ghost var used: set<CallId>
    ghost var accepted: seq<CallId>
    ghost var ran: seq<CallId>
    ghost var checkpointAfter: Option<nat>

    ghost function View(): State
      reads this
    {
      State(senderOpen, pending, handle, calls, queue, worker, stopping, returned, used, accepted, ran, checkpointAfter)
    }

    constructor ()
      ensures View() == Initial
    {
      senderOpen, pending, handle, calls, queue, worker := true, 0, Present, map[], [], Receiving;
      stopping, returned, used, accepted, ran, checkpointAfter := {}, {}, {}, [], [], None;
    }

    /** `execute` counts first, unconditionally. */
    method BeginExecute(c: CallId)
      requires c !in used
      modifies this
      ensures View() == Apply(old(View()), StartExecute(c))
    {
      pending := pending + 1;
      calls := calls[c := Call(Plain, Counted)];
      used := used + {c};
    }

    /** The compare-and-exchange of `try_execute`. */
    method TryExecute(c: CallId) returns (admitted: bool)
      requires c !in used
      modifies this
      ensures admitted <==> old(pending) == 0
      ensures View() == Apply(old(View()), if admitted then TryAdmitted(c) else TryRefused)
    {
      admitted := pending == 0;
      if admitted {
        pending := 1;
        calls := calls[c := Call(Try, Counted)];
        used := used + {c};
      }
    }

    /** `submit` clones the sender under its lock, or uncounts the call and reports `stopped`. */
    method CloneForSubmit(c: CallId) returns (cloned: bool)
      requires Inv(View()) && At(View(), c, Counted)
      modifies this
      ensures View() == Apply(old(View()), CloneSender(c)) && Inv(View())
      ensures cloned <==> old(senderOpen)
      ensures if cloned then pending == old(pending) && At(View(), c, Holding) else pending == old(pending) - 1 && c !in calls
    {
      StepPreserves(View(), CloneSender(c));
      cloned := senderOpen;
      if cloned {
        calls := calls[c := calls[c].(progress := Holding)];
      } else {
        pending := pending - 1;
        calls := calls - {c};
      }
    }

    /** The channel accepts the job when it has room; the worker is always there to take it. */
    method Enqueue(c: CallId) returns (sent: bool)
      requires Inv(View()) && At(View(), c, Holding)
      modifies this
      ensures Inv(View())
      ensures sent <==> |old(queue)| < CHANNEL_CAPACITY
      ensures if sent then Enabled(old(View()), Send(c)) && View() == Apply(old(View()), Send(c))
              else View() == old(View())
    {
      sent := |queue| < CHANNEL_CAPACITY;
      if sent {
        assert HoldsSender(View(), c);
        StepPreserves(View(), Send(c));
        queue := queue + [c];
        accepted := accepted + [c];
        calls := calls[c := calls[c].(progress := Waiting)];
      }
    }

    method ReceiveJob()
      requires Inv(View()) && Enabled(View(), Receive)
      modifies this
      ensures View() == Apply(old(View()), Receive) && Inv(View())
    {
      StepPreserves(View(), Receive);
      hide Inv;
      queue, worker := queue[1..], Running(queue[0], Taken);
    }

    method PerformJob()
      requires Inv(View()) && Enabled(View(), Perform)
      modifies this
      ensures View() == Apply(old(View()), Perform) && Inv(View())
    {
      StepPreserves(View(), Perform);
      hide Inv;
      ran, worker := ran + [worker.job], Running(worker.job, Performed);
    }

    method SettleJob()
      requires Inv(View()) && Enabled(View(), Settle)
      modifies this
      ensures View() == Apply(old(View()), Settle) && Inv(View())
    {
      StepPreserves(View(), Settle);
      hide Inv;
      pending, worker := pending - 1, Running(worker.job, Settled);
    }

    method SendReply()
      requires Inv(View()) && InStage(View(), Settled)
      modifies this
      ensures Enabled(old(View()), Reply) && View() == Apply(old(View()), Reply) && Inv(View())
    {
      assert At(View(), worker.job, Waiting);
      StepPreserves(View(), Reply);
      hide Inv;
      calls, worker := calls[worker.job := calls[worker.job].(progress := Replied)], Receiving;
    }

    /** One turn of the worker loop, from `recv` to the reply. */
    method ServeOne() returns (job: CallId)
      requires Inv(View()) && worker.Receiving? && queue != []
      modifies this
      ensures Inv(View())
      ensures job == old(queue)[0] && queue == old(queue)[1..]
      ensures ran == old(ran) + [job] && accepted == old(accepted)
      ensures pending == old(pending) - 1 && worker.Receiving? && At(View(), job, Replied)
    {
      hide Inv;
      job := queue[0];
      ReceiveJob();
      PerformJob();
      SettleJob();
      SendReply();
    }

    /** `recv` reports disconnection only with an empty queue and no sender left; then the checkpoint runs. */
    method LeaveLoop()
      requires Inv(View()) && Enabled(View(), Disconnect)
      modifies this
      ensures Inv(View()) && worker.Exited? && checkpointAfter == Some(|accepted|)
      ensures ran == accepted && accepted == old(accepted)
    {
      StepPreserves(View(), Disconnect);
      worker := Draining;
      StepPreserves(View(), Checkpoint);
      worker, checkpointAfter := Exited, Some(|ran|);
    }

    method TakeSenderForShutdown(h: ShutdownId)
      requires h !in stopping && h !in returned
      modifies this
      ensures View() == Apply(old(View()), TakeSender(h)) && !senderOpen
    {
      senderOpen := false;
      stopping := stopping + {h};
    }

    /** The join part of `shutdown`: the first caller joins the worker, later ones wait for that join. */
    method JoinWorker(h: ShutdownId)
      requires Inv(View()) && h in stopping && worker.Exited? && !handle.Joining?
      modifies this
      ensures Inv(View()) && handle.Gone? && h in returned && h !in stopping
      ensures ran == accepted && ran == old(ran)
    {
      if handle.Present? {
        StepPreserves(View(), StartJoin(h));
        handle := Joining(h);
        StepPreserves(View(), FinishJoin(h));
        handle := Gone;
      } else {
        StepPreserves(View(), NothingToJoin(h));
      }
      stopping, returned := stopping - {h}, returned + {h};
    }
  }
}
