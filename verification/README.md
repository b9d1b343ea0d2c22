# A verified model of vbuff

vbuff is a clipboard manager: one thread watches the clipboard, one thread owns the
database, a window shows the history, and a coordinator pastes a chosen clip back into
the application the user came from. This project models the parts of it where threads,
processes and time meet, and the compact algorithms beside them, and proves what they
guarantee for every input, every run and every interleaving. `dafny verify dfyconfig.toml`
checks all of it.

| files | what they model |
|---|---|
| `option`, `clips` | shared value types; expiry of clips |
| `presenter`, `publication*`, `history_object` | snapshots built by any number of threads, delivered in any order, and gated by version |
| `store_owner*` | the bounded command queue in front of the one writable store |
| `volatile_lane` | the memory-only lane and its list of origins |
| `single_instance*` | the owner lock, the control socket, crash recovery and forwarding |
| `paste*` | the guarded paste as a timed state machine |
| `self_write` | the ledger of own clipboard writes and the lock around it |
| `capture_worker`, `capture_rules`, `reliability` | the capture loop with its early exits, byte accounting and escalation |
| `ranking`, `recall*` | paged bounded recall against one-shot ranking, and exactly when they agree |
| `compose`, `csv` | merge printers, their length predictor, and CSV read back |
| `privacy_ledger` | the hash-chained ledger |
| `fingerprint`, `luhn` | band index and check digits |

Protocols are written as a state, an event type, `Enabled` and `Apply`, with an invariant
kept by every step. Where the source updates an object in place, a class does the same and
each of its methods is proved to perform exactly one step, or one specified sequence of
steps. Parameters stand for what the program cannot control: the clock, answers of the
operating system, the store and the backends, and the order of events.

## Where the code and its intent differ

Each of these is proved, with a concrete run or input, and with the condition under which
the intended property does hold.

- **A failed insert is not always retried.** The comment at src/capture.rs:603-605 promises that keeping the
  previous hash makes the next poll try the same clipboard again. The exact condition, for every failed insert
  and whatever is read and restarted in between, is `CaptureRules.FailedInsertRetriedIff`: until a poll
  commits or sheds the content, an intact read of it reaches the policy if and only if the user asks for it,
  or none of three things holds it back.
  - The previous hash is the content's own. A recoverable skip is also an intentional one
    (crates/vbuff-core/src/capture/policy.rs:79-92, 137-139), so it has committed the content before the
    user re-grabs it; when the insert of the re-grab fails, the content is taken for known until another
    commit or a restart (`CaptureRules.FailedRegrabIsLost`, and `CaptureRules.FailedRegrabIsNotRetried` for
    the three polls, without any generation).
  - The content was shed less than five seconds ago, and the re-grab jumped over the wait.
  - The read carries a generation that the tracker has counted
    (crates/vbuff-core/src/capture/ledger.rs:165-182). This one is latent: the only backend there is
    supplies none (crates/vbuff-platform/src/clipboard.rs:67-70). With generations the content is lost until
    another epoch is observed or the worker restarts (`CaptureRules.FailedInsertIsLost`).

  In all other cases the promise holds (`CaptureRules.FailedInsertIsRetried`).
- **A restarted capture worker inserts known content again.** After five failed reads in a row the worker
  exits and a new one starts with no committed hash, shed, generation or skip (src/capture.rs:227-251,
  298-304, 130-184), so clipboard content that was inserted before is inserted once more
  (`CaptureRules.RestartInsertsAgain`). Every rule of the capture loop counts restarts among its escapes.
- **A mutation that fails half-way leaves the window behind.** In src/history.rs:118-125 a row
  may be inserted before the retention step fails; the error skips the reload, so the row is
  in the store and not on screen until some later job publishes
  (`PublicationTheorems.FailedMutationLeavesWindowBehind`). In every quiet state the window shows
  what was built for the last version drawn; a failing call makes that version outdated if and only
  if its job changed the rows before it failed, or the call changed the unexpired clips of the lane
  (`PublicationTheorems.FailedCallLeavesBehindIff`, `PublicationTheorems.FailedLaneCallLeavesBehindIff`).
- **Clips in the lane may be unknown to the origin list.** After 256 re-inserts of one content
  under fresh ids, another clip is still in the lane but no longer counts as memory-only
  (`VolatileLane.LaneClipWithoutOrigin`); the exact condition is `VolatileLane.MemoryOnlyIff`.
- **Byte accounting saturates.** With a hard limit of `usize::MAX` the running total can lose
  charges. The exact condition on the limits is `Reliability.ConservesIff`. The worker is safe,
  because it queues one item.
- **Escalation stops at a limit of 255**, where the saturating count can never exceed it
  (`Reliability.EscalatesIff`).
- **Paged recall is not one-shot recall.** A large hit dropped by an early page can let a worse
  small one in later (`RecallTheorems.DroppedHitLetsWorseIn`). The one-shot result always leads. All
  divisions of the rows into pages give exactly the one-shot result if and only if the budget drops
  nothing within the limit, or no match ranked behind those kept would still fit next to them
  (`RecallPaging.RecallIsOneShotIff`).
- **CSV with an empty last item** prints a trailing line break. A reader that accepts a final
  break (rule 2 in section 2 of RFC 4180) then loses that record; it returns all items if and
  only if the last trimmed one is not empty (`Csv.RoundTripWithFinalBreakIff`).

## Model

| member | source | states |
|---|---|---|
| Clips.ActiveTwice | src/history_presenter.rs:29-35 | dropping expired clips early and again later equals dropping them later, so filtering when merging and when showing is harmless |
| Presenter.Adapter.Handle | src/history_presenter.rs:11-97 | one event moves the window exactly as specified, version gates included, and neither gate ever goes down |
| Presenter.EventTakesEffect | src/history_presenter.rs:11-97 | an outdated list or tag event changes nothing; any other takes effect: exactly the unexpired clips of its list are shown, ids, digest, tags and protection are taken over, and after a prune nothing expired is left |
| Presenter.PruneKeepsActive | src/history_presenter.rs:11-97 | pruning removes only expired clips and leaves tags and both gates alone |
| PublicationProofs.StepPreserves | src/history.rs:476-566 | every step of every thread keeps the publication invariant: versions in flight carry what was logged for them, and the newest version accounts for the current rows and lane |
| PublicationTheorems.RunPreserves | src/history.rs:476-566 | the invariant holds after any run of any number of calls |
| PublicationTheorems.ShowsHighestDelivered | src/history_presenter.rs:15-27 | the window shows the list, and the tags, built for the highest version delivered so far, up to expiry |
| PublicationTheorems.NeverMovesBack | src/history_presenter.rs:20-27 | no step lowers a shown version, and a list that keeps its version only loses expired clips |
| PublicationTheorems.Converges | src/history.rs:476-566 | with nothing in flight the window is at the last version drawn and shows what was built for it, whatever failed before; without an unpublished failure that version has the final rows and the final lane |
| PublicationTheorems.FailedCallLeavesBehindIff | src/history.rs:476-498 | from a current window, a lone failing mutation leaves the last version outdated if and only if its job changed the rows |
| PublicationTheorems.FailedLaneCallLeavesBehindIff | src/history.rs:207-247 | the same for a call that changed the lane first: if and only if the rows or the unexpired clips of the lane changed |
| PublicationTheorems.FailedCallShowsTruthIff | src/history.rs:476-498 | at a fixed limit that rows and lane fit, the window after a failing mutation shows the true list if and only if the call did not change it |
| PublicationTheorems.FailedLaneCallShowsTruthIff | src/history.rs:207-247 | the same for a call that changed the lane first |
| PublicationTheorems.TagsConverge | src/history.rs:101-116 | with nothing in flight and no unpublished failure, the tags shown are the store's |
| PublicationTheorems.SplicePrefix | src/history.rs:547-566 | cutting the rows first and the merged list again gives exactly the cut of the full merge |
| PublicationTheorems.SpliceActive | src/history.rs:547-566 | filtering the merged list equals merging the filtered parts, whatever the times of the load and the merge |
| Publication.SpliceBehindPinned | src/history.rs:553-564 | position by position, the merge is the pinned block, then the lane, then the other rows, and nothing is lost |
| PublicationTheorems.ConvergedListIsTruePrefix | src/history.rs:476-566 | at a fixed limit a quiet window on a current version shows an initial part of the true list, and all of it when rows and lane fit |
| PublicationTheorems.ConvergedListExact | src/history.rs:547-566 | it shows exactly the first limit entries of the true list if and only if none of the entries it was built with has expired since, or every entry cut off then has |
| PublicationTheorems.QuiescentWindowIsFinal | src/history.rs:476-498 | for any threads, interleaving and delivery order without a failing list job, a quiet window shows the list built from the final rows and lane |
| PublicationTheorems.LimitFixedRun | src/history.rs:453-474 | over any run in which nobody changes the limit, every list is loaded and merged at it |
| PublicationTheorems.QuiescentWindowIsTruth | src/history.rs:374-566 | the same over whole runs at a fixed limit without a failing list job, with the exact condition for the full cut |
| PublicationTheorems.FailedMutationLeavesWindowBehind | src/history.rs:118-125 | a mutation that fails after writing a row leaves the window without it, with no call in flight |
| HistoryObject.History.MergeVolatile | src/history.rs:547-566 | position by position, the pinned block comes first, then the unexpired lane, then the other rows, cut to the limit but never to nothing |
| HistoryObject.History.CurrentVolatileIds | src/history.rs:500-509 | exactly the ids of the unexpired clips in the lane |
| HistoryObject.History.SnapshotJob | src/history.rs:480-487 | the closure on the store thread is the job step: new rows, loaded list, next version, all at once |
| HistoryObject.History.MutateAndRefresh | src/history.rs:476-498 | with any other calls in flight, an undisturbed success leaves the window on the new rows merged with the lane and on the new tags; a failure leaves it as it was |
| HistoryObject.History.RefreshSnapshot | src/history.rs:528-545 | after a lane change an undisturbed refresh shows the rows merged with the new lane |
| HistoryObject.History.RefreshTags | src/history.rs:101-110 | an undisturbed tag refresh shows the store's tags under a fresh version and leaves the list alone |
| HistoryObject.History.EditTagsAndRefresh | src/history.rs:111-116 | after an undisturbed edit the window shows the new tags and its list as before |
| HistoryObject.History.RefreshForMemory | src/history.rs:453-474 | refused while the store thread is busy, and then nothing changes; otherwise the window is reloaded at the new limit, which stays in force |
| HistoryObject.History.MaintainIdle | src/history.rs:358-443 | expired clips leave lane and window in any case; unless the store thread is busy digest and tags are shown, and after a visible change the reloaded list merged with the lane |
| StoreOwner.StepPreserves | src/store_owner.rs:13-92 | every step of callers, worker and shutdown keeps the queue invariant |
| StoreOwnerTheorems.PendingIsExact | src/store_owner.rs:33-82 | in every run `pending` counts the calls not yet sent, the jobs queued and the job running, never underflows, and no held sender finds the worker gone |
| StoreOwnerTheorems.TryIsExclusive | src/store_owner.rs:40-52 | a `try_execute` is admitted only when nothing is outstanding, and at most one admitted job is outstanding |
| StoreOwnerTheorems.FifoExactlyOnce | src/store_owner.rs:20-26 | accepted jobs run in order, each once, and an answered caller's job has run |
| StoreOwnerTheorems.CallIsServed | src/store_owner.rs:33-82 | while the owner runs and is idle, the steps of a call from counting to the reply are possible in turn: its job is accepted and run, it is answered, and the counter is as before |
| StoreOwnerTheorems.OldestJobIsServed | src/store_owner.rs:20-22 | from any queue the worker can take, run, uncount and answer the oldest job |
| StoreOwnerTheorems.StoppedOwnerRefuses | src/store_owner.rs:57-65 | once the sender is taken a call is refused and leaves no trace |
| StoreOwnerTheorems.TryIsAdmittedIff | src/store_owner.rs:40-52 | a `try_execute` is admitted if and only if nothing is outstanding |
| StoreOwnerTheorems.ShutdownDrains | src/store_owner.rs:83-92 | when any `shutdown` has returned, every accepted job has run, the checkpoint ran after them all, and nothing is accepted later |
| StoreOwnerTheorems.DrainingDecreases | src/store_owner.rs:20-26 | once the sender is taken every worker or caller step uses up work |
| StoreOwnerTheorems.DrainingNeverStuck | src/store_owner.rs:83-92 | and one is always possible until the worker has exited, so the join in `shutdown` cannot deadlock |
| StoreOwnerObject.Owner.TryExecute | src/store_owner.rs:40-52 | admission is one atomic exchange that succeeds exactly at a zero counter |
| StoreOwnerObject.Owner.CloneForSubmit | src/store_owner.rs:57-65 | the call gets a sender if and only if the owner still has one, and is otherwise uncounted and told that the owner stopped |
| StoreOwnerObject.Owner.ServeOne | src/store_owner.rs:20-22 | one turn of the loop runs the oldest job, uncounts it and answers its caller |
| StoreOwnerObject.Owner.LeaveLoop | src/store_owner.rs:20-26 | the worker leaves only with every accepted job run, and then checkpoints |
| StoreOwnerObject.Owner.JoinWorker | src/store_owner.rs:83-92 | shutdown returns with the worker joined once |
| VolatileLane.LaneAlwaysOk | src/history.rs:127-154 | in every run the lane holds at most 32 clips, pairwise distinct in content, newest first |
| VolatileLane.InsertKeepsNewest | src/history.rs:144-151 | an insertion puts the clip first and keeps, in order, the unexpired clips of other content, as many as fit |
| VolatileLane.OriginsExact | src/history.rs:131-142 | in every run the origin list is the last 256 distinct ids in order of latest insertion |
| VolatileLane.FollowedByLater | src/history.rs:131-142 | in that order an id is followed by exactly the ids inserted after its latest insertion |
| VolatileLane.MemoryOnlyIff | src/history.rs:301-307 | an id is memory-only if and only if fewer than 256 other ids were inserted after its latest insertion |
| VolatileLane.LaneClipWithoutOrigin | src/history.rs:127-154 | for every n from 256 up, n same-content re-inserts leave a clip in the lane that is no origin |
| VolatileLane.LaneHolder.InsertVolatile | src/history.rs:128-154 | the two locked sections perform the specified insertion, and nothing else changes |
| VolatileLane.LaneHolder.DeleteVolatile | src/history.rs:207-235 | exactly the clips with the id leave the lane, reported if and only if there were any |
| VolatileLane.LaneHolder.PurgeExpired | src/history.rs:511-519 | exactly the expired clips leave, and the count returned is theirs |
| VolatileLane.LaneHolder.Restore | src/history.rs:309-334 | within five seconds the saved original is restored; memory-only ids go to the lane and never to the store, all others to the store; a spilled clip without an original is refused |
| SingleInstanceProofs.StepPreserves | src/single_instance/unix.rs:25-184 | every step of every process, crashes included, keeps the protocol invariant |
| SingleInstanceTheorems.AtMostOnePrimary | src/single_instance/unix.rs:40-66 | with any number of processes and crashes at any step, at most one is primary or still tearing down |
| SingleInstanceTheorems.UnlinkIsSafe | src/single_instance/unix.rs:25-34 | a socket is unlinked only by the owner of the lock and only while no listener is open; teardown removes the process's own socket |
| SingleInstanceTheorems.ServingPathIsOwn | src/single_instance/unix.rs:92-130 | while a process listens, the path resolves to its listener and no other is open |
| SingleInstanceTheorems.FoundSocketIsStale | src/single_instance/unix.rs:48-61 | among processes that use the lock, a socket found by its owner is always stale |
| SingleInstanceTheorems.ForwardedWasDelivered | src/single_instance/unix.rs:132-184 | `Forwarded` for a popup means the intent entered a primary's queue at least once and at most ten times |
| SingleInstanceTheorems.PopupIsForwarded | src/single_instance/unix.rs:132-165 | a popup sent to a serving primary with an open queue enters it, is acknowledged, and is reported as forwarded |
| SingleInstanceTheorems.PingIsAnswered | src/single_instance/unix.rs:138-157 | a ping is answered and reported without entering the queue |
| SingleInstanceTheorems.ClosedQueueRejects | src/single_instance/unix.rs:140-176 | with the queue closed the popup is rejected, and the next attempt follows up to the tenth |
| SingleInstanceTheorems.SecondLaunchForwards | src/single_instance/unix.rs:40-44 | while a primary serves, a second launch finds the lock busy and gets to forward |
| SingleInstanceTheorems.TeardownLeavesNothing | src/single_instance/unix.rs:25-34 | a primary that shuts down closes its listener, removes its socket and then frees the lock |
| SingleInstanceTheorems.LoneLauncherBecomesPrimary | src/single_instance/unix.rs:40-66 | from every reachable state whose lock is free, one undisturbed launch ends as primary: no crash leaves a socket that blocks the next launch |
| SingleInstanceObject.ForwardWithRetry | src/single_instance/unix.rs:167-184 | up to ten attempts, stopping at the first success; it fails only if all ten do |
| SingleInstanceObject.Host.TryOwnerLock | src/single_instance/mod.rs:69-81 | a lock file that fails is reported; otherwise the lock is taken exactly when it is free |
| SingleInstanceObject.Host.BindSocket | src/single_instance/unix.rs:86-90 | in use exactly on an existing path; bound exactly when bind and permissions succeed; other errors leave no listener open |
| SingleInstanceObject.Host.AcquireAt | src/single_instance/unix.rs:40-66 | which launch becomes primary, forwards or fails, in terms of the lock, the path, the listeners and every call that can fail; every ending but primary leaves the lock as it was |
| SingleInstanceObject.Host.DropGuard | src/single_instance/unix.rs:25-34 | teardown closes the listener, removes the path and frees the lock |
| PasteProofs.StepKeeps | src/paste.rs:160-377 | every call keeps the coordinator's invariant: the pending fields are set together, a ready target means nothing is pending, every keystroke so far is justified |
| PasteTheorems.KeystrokesAreGuarded | src/paste.rs:188-366 | in every call sequence each keystroke follows one capture, the write of its flavors, a restore, a positive focus answer and a read of equal digest and identity, with no write or target change between, at least 155 ms after scheduling; keystrokes do not outnumber schedulings, nor those captures |
| PasteTheorems.CapturesAreSingleUse | src/paste.rs:244-275 | two keystrokes never rely on the same capture |
| PasteTheorems.DuePollsWithinBudget | src/paste.rs:283-331 | until something new is scheduled, due polls stay within a budget that each of them lowers and no other call raises |
| PasteTheorems.ScheduledPasteEnds | src/paste.rs:277-366 | a scheduled paste ends within eleven due polls, whatever else is called |
| PasteTheorems.TenConfirmationsHappen | src/paste.rs:301-317 | the bound is met: ten due polls can leave it still waiting |
| PasteTheorems.PollReportsTheEnd | src/paste.rs:277-366 | a poll reports a result exactly when it ends the pending paste, and a sent result exactly when a keystroke went out |
| PasteTheorems.UndisturbedPaste | src/paste.rs:160-366 | from any state with both backends, an undisturbed paste polled when due leaves exactly the expected trace: one keystroke if the clipboard still holds the written content, and none otherwise |
| PasteTheorems.SentIff | src/paste.rs:333-366 | the keystroke is sent if and only if the read can be fingerprinted with the digest and identity of the guard |
| PasteObject.PasteCoordinator.PrepareForPicker | src/paste.rs:160-177 | supersedes what is pending, clears the old target, and is ready exactly on a successful capture |
| PasteObject.PasteCoordinator.CopyOnly | src/paste.rs:188-235 | supersedes what is pending and succeeds exactly on an accepted write, with proof of exclusion for sensitive clips |
| PasteObject.PasteCoordinator.SchedulePaste | src/paste.rs:238-274 | scheduled if and only if a target is ready, the clip can be fingerprinted and the write is accepted; copied only if and only if no target is ready and the write is accepted |
| PasteObject.PasteCoordinator.PollDue | src/paste.rs:277-366 | nothing happens before the due time; then exactly the restore, confirm or inject step |
| PasteObject.PasteCoordinator.VerifyAndInject | src/paste.rs:333-366 | a keystroke goes out if and only if the clipboard read back has the digest and identity of the guard |
| PasteObject.PasteCoordinator.Serve | src/paste.rs:160-377 | any call moves the object as specified and keeps every guarantee |
| SelfWrite.QueryIff | crates/vbuff-core/src/capture/ledger.rs:32-63 | whatever was registered or queried before, a query says yes if and only if a write among the newest 32 matches and has not expired |
| SelfWrite.Ledger.Register | crates/vbuff-core/src/capture/ledger.rs:32-42 | prunes, drops the oldest at capacity, appends |
| SelfWrite.Ledger.Matches | crates/vbuff-core/src/capture/ledger.rs:44-53 | the answer in terms of the whole log of registered writes |
| SelfWrite.AnyMatch | crates/vbuff-core/src/capture/ledger.rs:46-52 | found if and only if some entry has the hash or the nonce |
| SelfWrite.StepPreserves | src/paste.rs:203-234 | every interleaved step of coordinator, worker and other applications keeps the lock invariant |
| SelfWrite.OwnWriteIsRecognised | src/capture.rs:404-410 | in every interleaving, content placed by a copy that succeeded is registered when the worker judges it, and judged a self-write while its entry is remembered |
| SelfWrite.VerdictIff | src/capture.rs:404-410 | in every reachable state content is judged a self-write if and only if a recent registered write has its hash |
| SelfWrite.OwnContentVerdictIff | src/capture.rs:404-410 | in every interleaving, content placed by a write is judged a self-write if and only if the entry of that write is remembered or another remembered entry has its hash; a failed write has no entry |
| SelfWrite.CopyPlacesAndRegisters | src/paste.rs:203-234 | an undisturbed copy places its content and registers it before it gives up the lock |
| SelfWrite.WorkerJudgesClipboard | src/capture.rs:404-410 | an undisturbed worker judges what the clipboard holds, by the recent registered writes |
| CaptureWorker.CaptureLoop.ShedRetrySuppressed | src/capture.rs:622-637 | suppressed exactly for the content shed less than five seconds ago; anything else forgets it |
| CaptureWorker.CaptureLoop.ObserveGeneration | crates/vbuff-core/src/capture/ledger.rs:165-182 | stale exactly within the same epoch and not beyond the last sequence, and only then not recorded |
| CaptureWorker.CaptureLoop.AdmitAndInsert | src/capture.rs:497-618 | limits always take effect, and every path releases exactly what it was charged |
| CaptureWorker.CaptureLoop.Examine | src/capture.rs:348-619 | every early exit, with the state it leaves behind |
| CaptureWorker.CaptureLoop.RunPolls | src/capture.rs:256-619 | over any stretch of polls the loop is the specified run, with an empty queue at every head, and exits exactly at the fifth failed read in a row |
| CaptureWorker.Supervise | src/capture.rs:130-184 | over any stretch of polls, with every exit answered by a new worker, the state is that of the specified run with restarts |
| CaptureRules.VerdictCarriedOut | src/capture.rs:425-495 | a read that reaches the policy is skipped, taken or stored memory-only exactly as the policy says, unless a re-grab of realized, untorn content that is no self-write overrules it |
| CaptureRules.SizeDecides | src/capture.rs:497-560 | what is taken is inserted whole up to the soft limit in force, as a preview up to the hard limit if there is one, and not at all beyond |
| CaptureRules.RegrabIffLastSkipRecalled | src/capture.rs:350-363 | in every run a read counts as a re-grab if and only if the user asked and the last skip since any restart is recoverable, at most thirty seconds old and of exactly this content |
| CaptureRules.RestartsAtFifthFailure | src/capture.rs:290-304 | in every run the worker restarts exactly at each fifth failed read in a row, pauses ignored |
| CaptureRules.CommittedIsLastCommit | src/capture.rs:446-478 | after any polls the committed hash is that of the last poll that stored something or skipped it on purpose, none after a restart, and the initial one before either |
| CaptureRules.CommittedContentNotReinserted | src/capture.rs:365-368 | once committed, by a store success or an intentional skip, content is attempted again without being asked for only after a restart or after some poll in between committed other content |
| CaptureRules.FailedInsertRetriedIff | src/capture.rs:348-402 | after any failed insert, of a re-grab or not, an intact read of the content, not committed or shed since, reaches the policy if and only if the user asks for it, or neither a commit, nor the wait after a shed, nor the tracker holds it back; each in terms of what was read and restarted since |
| CaptureRules.FailedInsertIsRetried | src/capture.rs:603-616 | whatever is read in between, a read without a generation of content that was neither the committed one nor still waiting after a shed reaches the policy, until a poll commits or sheds it |
| CaptureRules.FailedRegrabIsLost | src/capture.rs:365-368 | content that was the committed one when its re-grab failed never reaches the policy again unasked, until another commit or a restart |
| CaptureRules.FailedRegrabIsNotRetried | src/capture.rs:603-616 | three polls without generations: a recoverable skip, a re-grab that fails to insert, and a plain read taken for known content |
| CaptureRules.FailedInsertIsLost | src/capture.rs:379-402 | with a counted generation, no later read of that generation reaches the policy while there is no restart and no other epoch observed, whatever is read in between |
| CaptureRules.RestartInsertsAgain | src/capture.rs:298-304 | a stored read, five failed reads and the same read again: it is inserted twice |
| CaptureRules.TrackerIsLastObservation | crates/vbuff-core/src/capture/ledger.rs:165-182 | after any polls the tracker holds the generation observed last, none after a restart, and the initial one before either |
| CaptureRules.RetryFailsWithGeneration | src/capture.rs:603-616 | the smallest run in which the promised retry does not come |
| CaptureRules.ShedContentWaits | src/capture.rs:369-372 | shed content waits exactly five seconds, and is then looked at again only if its read carries no generation |
| Reliability.ByteBackpressure.Admit | crates/vbuff-core/src/reliability.rs:123-145 | verdict and charge as specified, saturation included |
| Reliability.ByteBackpressure.UpdateLimits | crates/vbuff-core/src/reliability.rs:152-165 | limits change exactly when nothing is queued |
| Reliability.QueuedBytesAreOutstanding | crates/vbuff-core/src/reliability.rs:123-170 | in every run that releases what it was charged, the total is the sum of outstanding charges and within the hard limit |
| Reliability.ConservesIff | crates/vbuff-core/src/reliability.rs:105-150 | with limits left alone every run accounts for every outstanding byte if and only if the hard limit is below the largest integer, or the queue holds one item, or all a full queue can be charged fits the integer type |
| Reliability.OverfullRun | crates/vbuff-core/src/reliability.rs:123-145 | whenever that condition fails, a run whose outstanding charges exceed the integer type |
| Reliability.CaptureSupervisor.Note | crates/vbuff-core/src/reliability.rs:47-65 | the escalation step as specified, with no action exactly on a reset |
| Reliability.DegradesWithinPatience | crates/vbuff-core/src/reliability.rs:47-77 | from any state with both limits below 255, a decreasing measure bounds how many failures come before the degraded pause |
| Reliability.EscalatesIff | crates/vbuff-core/src/reliability.rs:36-78 | any mix of (resubscribe_limit+1)*(restart_limit+1) failures reaches the degraded pause if and only if both limits are below 255 |
| Reliability.DegradesOnlyAfterRestarts | crates/vbuff-core/src/reliability.rs:67-77 | never before restart_limit restarts since the last reset or pause |
| Ranking.SortStable | src/history_search.rs:173-178 | sorting keeps the order of hits that rank alike |
| Ranking.StableSortUnique | src/history_search.rs:173-178 | a sorted list with given ties in given orders is unique, so any stable sort is this one |
| Ranking.CappedIsTop | src/history_search.rs:173-179 | cutting to the limit after every insertion equals cutting once at the end |
| RecallTheorems.WinnersInOrder | src/history_search.rs:173-178 | winners come pinned first, then by score, then by recency |
| Recall.CutUnique | src/history_search.rs:180-195 | the budget cut is fixed by two facts: what is kept fits (or is the first hit), and one more would not |
| Recall.CountKept | src/history_search.rs:180-194 | the running count keeps exactly that many |
| Recall.RankRound | src/history_search.rs:173-195 | one page: append, sort, cut to the limit, cut to the budget |
| Recall.Collect | src/history_search.rs:128-210 | a parse failure gives an empty result, a superseded request none, and otherwise the incremental ranking and the number of hits |
| RecallTheorems.InsertAgrees | src/history_search.rs:173-195 | one insertion keeps the incremental and the unbudgeted ranking in agreement on everything within budget |
| RecallTheorems.OneShotLeads | src/history_search.rs:173-195 | for all pages the one-shot result is a prefix of the incremental one, which is sorted; equal when the budget drops none of the top hits |
| RecallTheorems.FirstIsBest | src/history_search.rs:191-192 | the first winner is the best hit of all pages |
| RecallTheorems.RankingIgnoresPages | src/history_search.rs:158-178 | ranking hits page by page equals ranking the matches of all rows |
| RecallTheorems.TotalIsExact | src/history_search.rs:166-171 | the total is the number of rows that match and are visible |
| RecallPaging.MatchesExactly | src/history_search.rs:158-172 | the matches are exactly the visible rows that score, each with its score |
| RecallPaging.RecallAgainstOneShot | src/history_search.rs:128-210 | the same as a statement about rows: the one-shot ranking of all matches leads the paged result, and is it when no match behind those kept would fit |
| RecallPaging.HarmlessIff | src/history_search.rs:173-195 | all pagings of equally ranked hits give the one-shot result if and only if nothing is dropped within the limit or no hit behind those kept would fit |
| RecallPaging.HarmlessInAnyOrderIff | src/history_search.rs:173-195 | the same over all pagings of the same hits in any order |
| RecallPaging.RecallIsOneShotIff | src/history_search.rs:128-210 | the same over all divisions of the rows into a lane of at most 32 rows and pages of one to 64 |
| RecallPaging.FittingHitGetsIn | src/history_search.rs:191-195 | whenever the condition fails, meeting the ranked hits one by one keeps more than the one-shot result does |
| RecallTheorems.DroppedHitLetsWorseIn | src/history_search.rs:191-195 | two pages on which the results differ |
| Compose.DecimalDigits | crates/vbuff-core/src/compose.rs:368-375 | the number of digits is the length of the printed number |
| Compose.DecimalReadsBack | crates/vbuff-core/src/compose.rs:281-300 | numbers are printed in digits that read back as the number, without a leading zero |
| Compose.TrimIsExact | crates/vbuff-core/src/compose.rs:275-304 | trimming removes white space from both ends and nothing else |
| Compose.QuotedIff | crates/vbuff-core/src/compose.rs:377-383 | a cell is quoted if and only if it holds a comma, a quote or a line break |
| Compose.LineShape | crates/vbuff-core/src/compose.rs:275-303 | the mark of each template, with the number readable; a table cell has no line break and every pipe escaped |
| Compose.Utf8LenExact | crates/vbuff-core/src/compose.rs:306-366 | the length counted for a character is that of its UTF-8 encoding, section 3 of RFC 3629 |
| Compose.LineLenExact | crates/vbuff-core/src/compose.rs:267-304 | the byte length of each printed line, with escapes, quoting and decimal widths |
| Compose.FoldLenExact | crates/vbuff-core/src/compose.rs:306-366 | the checked running total is the true total, or an overflow exactly when that does not fit |
| Compose.PredictorExact | crates/vbuff-core/src/compose.rs:306-366 | for all items and all four templates the predictor is the byte length of the printed text, and overflows exactly when that exceeds the integer type |
| Compose.RefusedIff | crates/vbuff-core/src/compose.rs:267-274 | a merge is refused if and only if the printed text would exceed one MiB |
| Csv.ReadQuoted | crates/vbuff-core/src/compose.rs:377-383 | reading a quoted field undoes the doubling of quotes |
| Csv.ReadCell | crates/vbuff-core/src/compose.rs:377-383 | every printed cell is read back as one record holding the value |
| Csv.RoundTrip | crates/vbuff-core/src/compose.rs:286-290 | reading the printed text returns exactly the trimmed items |
| Csv.PrinterInjective | crates/vbuff-core/src/compose.rs:286-290 | equal texts come from equal trimmed items |
| Csv.RoundTripWithFinalBreakIff | crates/vbuff-core/src/compose.rs:286-290 | a reader that accepts a final break returns the items if and only if the last trimmed item is not empty |
| PrivacyLedger.PreimageInjective | crates/vbuff-core/src/privacy.rs:120-141 | the preimage of the hash determines the entry |
| PrivacyLedger.PreimageLayout | crates/vbuff-core/src/privacy.rs:120-141 | where each part stands in what is hashed, numbers most significant byte first |
| PrivacyLedger.Verify | crates/vbuff-core/src/privacy.rs:89-112 | the walk accepts exactly the entries that are each sealed and continue the one before |
| PrivacyLedger.Ledger.Append | crates/vbuff-core/src/privacy.rs:43-78 | the new entry continues the chain, the oldest is dropped at capacity, and the ledger stays valid |
| PrivacyLedger.WindowVerifies | crates/vbuff-core/src/privacy.rs:43-112 | after any appends at any capacity, past sequence saturation too, the window verifies and ends at the head hash |
| PrivacyLedger.WindowHoldsLatest | crates/vbuff-core/src/privacy.rs:43-78 | the window holds as many of the latest records as fit, in order |
| PrivacyLedger.LastHashPinsWindow | crates/vbuff-core/src/privacy.rs:89-141 | two verifying windows of equal length with one last hash are equal, or show a collision of the hash |
| PrivacyLedger.TamperingIsDetected | crates/vbuff-core/src/privacy.rs:89-112 | a retained window changed anywhere, at its length and last hash, fails verification unless the change is a collision |
| Fingerprint.DistanceCountsBits | crates/vbuff-core/src/fingerprint.rs:34-36 | the ones of the exclusive or are the bit positions that differ |
| Fingerprint.BandsRecompose | crates/vbuff-core/src/fingerprint.rs:38-45 | the four bands recompose the hash |
| Fingerprint.RecomposedBands | crates/vbuff-core/src/fingerprint.rs:38-45 | and every four bands are those of a hash |
| Fingerprint.DistanceIsSumOfBands | crates/vbuff-core/src/fingerprint.rs:34-45 | the distance of two hashes is the sum of their band distances |
| Fingerprint.BandIndexIsComplete | crates/vbuff-core/src/fingerprint.rs:34-45 | distance plus shared bands is at least four, so a lookup by bands misses nothing within distance three |
| Fingerprint.DistanceFourCanMiss | crates/vbuff-core/src/fingerprint.rs:34-45 | around every hash the bound is sharp: some hash at distance four shares no band |
| Luhn.OneDigitErrorIsCaught | crates/vbuff-core/src/secret.rs:443-460 | a valid string with one digit changed is invalid, at any length and place |
| Luhn.SwapIsCaughtIff | crates/vbuff-core/src/secret.rs:443-460 | a swap of neighbours goes unnoticed if and only if they are equal or are 0 and 9 |
| Luhn.ExactlyOneDigitFits | crates/vbuff-core/src/secret.rs:443-460 | whatever the other digits, exactly one digit in a place makes the string valid |
| Luhn.ValidByPosition | crates/vbuff-core/src/secret.rs:443-460 | valid if and only if the digits, every second from the right replaced by the digit sum of its double, add up to a multiple of ten |
| Luhn.FlaggedIff | crates/vbuff-core/src/secret.rs:241-244 | a token is flagged if and only if it holds 13 to 19 digits that pass the check |
| Luhn.SeparatorsAreIgnored | crates/vbuff-core/src/secret.rs:241-244 | inserting a character that is no digit anywhere in a token keeps the verdict |
| Luhn.MistypedCardIsNotFlagged | crates/vbuff-core/src/secret.rs:241-244 | one mistyped digit hides a card number from the detector |

## Left out

- PublicationTheorems.Converges: stated for clips and tags only, because `memory_only_clips` is not gated by version for `PruneExpired` and for maintenance events without a list.
- PublicationTheorems.FailedCallLeavesBehindIff: says when the last version is outdated; whether an outdated list happens to look like the true one, for instance because the change lies beyond the limit, is not asked.
- HistoryObject.History.MutateAndRefresh: like the other whole operations of the object, runs undisturbed within one call; interleavings are covered by the steps of `Publication`, to which every section is tied.
- The store in `Publication`: a listing is its unexpired rows, pinned first, cut to the limit and to 10,000; jobs may change the rows in any way that keeps pinned rows first. Jobs that publish nothing (outcome records, session protection, queries) are not steps.
- The version counter and the digit sum are unbounded; the 64-bit and 32-bit types hold them for any run or token of practical size. The window's revision counter wraps as in the source.
- The presenter's handler reads the clock once per event.
- Job panics, poisoned mutexes and sleeping; two `shutdown` callers are modelled, a panicking worker is not.
- Processes from before the owner lock existed: they are allowed in `SingleInstanceObject.Host.AcquireAt` but are not steps of the interleaved protocol. After shutdown begins a listener may still serve until its thread ends, which allows more runs than the code does.
- `src/single_instance/windows_fallback.rs` and history queries over the control socket.
- The paste backend: clearing the target is assumed to make later restores and confirmations fail until the next capture. Time spent writing is an input.
- Fingerprints of clips and content hashes are abstract values; `crates/vbuff-core/src/hash.rs` and BLAKE3 are not modelled, and the paste guard is equality of digest and identity.
- SelfWrite.OwnWriteIsRecognised: that a write ending in an error may have placed its content is an assumption about the backend; a write refused for lack of history exclusion places nothing, which is what crates/vbuff-platform/src/traits.rs:181-231 asks of every backend. There is one worker and one coordinator; the worker reads what was written (an operating system that rewrites formats is not modelled), and reads carry no write nonce there, though the ledger itself is modelled with it.
- The capture policy, the budget guard, diagnostics, the adaptive poll scheduler and loss counters: their verdicts are inputs or do not influence what is stored. The store's answer to an insert is an input.
- CaptureWorker.Supervise: a worker that panics is restarted like one that exits and is not modelled; the pauses and health reports between restarts are left out.
- CaptureRules.FailedInsertRetriedIff: says that the content reaches the policy again; what the policy then decides is an input.
- RecallPaging.RecallIsOneShotIff: pages may hold any one to 64 rows in any order; the program reads them by sequence number and fills every page but the last, so a given database meets only one of these divisions.
- VolatileLane.LaneHolder.InsertVolatile: the origin and the clip are pushed in two sections under two locks; runs of the lane treat them as one step, and `is_memory_only` between the two is not modelled.
- PasteTheorems.UndisturbedPaste: like `StoreOwnerTheorems.CallIsServed` and `SingleInstanceTheorems.PopupIsForwarded`, says that the steps are possible in turn and what they lead to; that a scheduler takes them is not modelled.
- Recall.Collect: the result limit is constant during one collection, and store errors, which end it, are not modelled; the score of a clip is an abstract function of the clip, and the saturating byte sum is unbounded.
- `PasteStack`, `FormFillPlan` and their validators: list edits with no harder property.
- `simhash64`, `dhash_rgba`, embeddings, entropy and the other secret detectors.
- Text is a sequence of Unicode scalars with their UTF-8 lengths; byte offsets inside a character do not occur.
- The GUI, the tray, database internals, configuration, encoding of files and messages, logging and autostart.
