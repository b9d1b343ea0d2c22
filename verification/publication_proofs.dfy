/** The invariant of `Publication` over every interleaving, and what it gives the user. */
module PublicationProofs {
  import opened Options
  import opened Clips
  import opened Presenter
  import opened Publication

  lemma InitialInv(rows: seq<Clip>, tags: Tags, opening: seq<Clip>, limit: nat, clock: int)
    requires PinnedFirst(rows)
    ensures Inv(Initial(rows, tags, opening, limit, clock))
  {
  }

  // ----- The calls other than the one that moves

  ghost predicate OthersSame(calls: map<CallId, Phase>, calls': map<CallId, Phase>, c: CallId) {
    forall d :: d != c ==> (d in calls <==> d in calls') && (d in calls ==> calls[d] == calls'[d])
  }

  predicate Versionless(calls: map<CallId, Phase>, c: CallId) {
    c in calls ==> !calls[c].Ran? && !calls[c].Ready?
  }

  /** A step of a call that holds no version before or after leaves every version alone. */
  lemma QuietLists(s: State, s': State, c: CallId)
    requires CallsOk(s) && LogOk(s)
    requires OthersSame(s.calls, s'.calls, c) && Versionless(s.calls, c) && Versionless(s'.calls, c)
    requires s'.log == s.log && s'.delivered == s.delivered && s'.lastSnap == s.lastSnap && s'.counter >= s.counter
    requires s'.clock == s.clock && s'.gui.latest == s.gui.latest
    ensures CallsOk(s') && LogOk(s')
  {
    forall v | v in s'.log ensures RecordOk(s', v) {
      assert RecordOk(s, v);
    }
    forall d | d in s'.calls ensures CallOk(s'.log, s'.delivered, d, s'.calls[d]) {
      if d != c {
        assert CallOk(s.log, s.delivered, d, s.calls[d]);
      }
    }
  }

  lemma DebtsRemain(calls: map<CallId, Phase>, calls': map<CallId, Phase>, c: CallId)
    requires OthersSame(calls, calls', c)
    requires WillReadLane(calls, c) ==> WillReadLane(calls', c)
    ensures (exists d :: WillReadLane(calls, d)) ==> exists d :: WillReadLane(calls', d)
  {
    if exists d :: WillReadLane(calls, d) {
      var d :| WillReadLane(calls, d);
      assert WillReadLane(calls', d);
    }
  }

  /** The list half of the invariant across a step of a call that holds no version, where the
      lane, the rows and the shown list move only as stated. */
  lemma QuietStep(s: State, s': State, c: CallId)
    requires ListsInv(s)
    requires OthersSame(s.calls, s'.calls, c) && Versionless(s.calls, c) && Versionless(s'.calls, c)
    requires s'.log == s.log && s'.delivered == s.delivered && s'.lastSnap == s.lastSnap && s'.counter >= s.counter
    requires s'.clock == s.clock && s'.gui.latest == s.gui.latest && s'.opening == s.opening
    requires Active(s'.gui.clips, s.clock) == Active(s.gui.clips, s.clock)
    requires PinnedFirst(s'.rows)
    requires s'.dirty || (!s.dirty && s'.rows == s.rows &&
             (WillReadLane(s'.calls, c) ||
              (Active(s'.lane, s.clock) == Active(s.lane, s.clock) && !WillReadLane(s.calls, c))))
    ensures ListsInv(s')
  {
    QuietLists(s, s', c);
    hide CallsOk, LogOk;
    if !s'.dirty {
      if !WillReadLane(s'.calls, c) {
        DebtsRemain(s.calls, s'.calls, c);
      }
    }
  }

  lemma ListsTick(s: State, d: nat)
    requires ListsInv(s)
    ensures ListsInv(s.(clock := s.clock + d))
  {
    hide Active, Built;
    var now, later := s.clock, s.clock + d;
    ActiveTwice(s.gui.clips, now, later);
    ActiveTwice(Shown(s), now, later);
    ActiveTwice(s.lane, now, later);
    if s.lastSnap in s.log && s.log[s.lastSnap].laneRead.Some? {
      ActiveTwice(s.log[s.lastSnap].laneRead.value.lane, now, later);
    }
    assert forall v :: v in s.log ==> RecordOk(s, v);
  }

  /** Every step of a call that neither holds nor draws a list version. */
  lemma ListsQuiet(s: State, e: Event)
    requires ListsInv(s) && Enabled(s, e)
    requires !(e.Tick? || e.SetLimit? || e.MergeLane? || e.RunJob? || e.Deliver?)
    ensures ListsInv(Apply(s, e))
  {
    hide CallsOk, LogOk, Active, Loaded, Built, Merge, Load, Splice, StoreContract;
    var s' := Apply(s, e);
    ActiveTwice(s.lane, s.clock, s.clock);
    LastSnapBound(s);
    if e.DeliverPrune? {
      PruneKeepsActive(s.gui, e.ids, s.clock);
    }
    if e.FailJob? {
      assert PinnedFirst(e.newRows) by { ContractSorted(s, e.c, e.newRows, e.newTags); }
    }
    QuietStep(s, s', e.c);
  }

  lemma ContractSorted(s: State, c: CallId, rows: seq<Clip>, tags: Tags)
    requires c in s.calls && s.calls[c].Queued? && StoreContract(s, s.calls[c].task, rows, tags)
    ensures PinnedFirst(rows)
  {
  }

  lemma ListsQuietJob(s: State, c: CallId, rows: seq<Clip>, tags: Tags, visible: bool)
    requires ListsInv(s) && c in s.calls && s.calls[c].Queued? && rows == s.rows
    requires s.calls[c].task.EditTags? || (s.calls[c].task.Maintain? && !visible)
    ensures ListsInv(JobRan(s, c, rows, tags, visible))
  {
    hide CallsOk, LogOk, Active, Loaded, Built, Merge, Load;
    QuietStep(s, JobRan(s, c, rows, tags, visible), c);
  }

  lemma ListsQuietDelivery(s: State, c: CallId, ids: set<ClipId>, digest: Digest)
    requires ListsInv(s) && c in s.calls && s.calls[c].QuietReady?
    ensures ListsInv(Delivered(s, c, ids, digest))
  {
    hide CallsOk, LogOk, Active, Loaded, Built, Merge, Load;
    QuietStep(s, Delivered(s, c, ids, digest), c);
  }

  lemma LastSnapBound(s: State)
    requires LogOk(s)
    ensures s.lastSnap <= s.counter
  {
  }

  lemma UnusedVersion(s: State)
    requires LogOk(s)
    ensures s.counter + 1 !in s.log && s.counter + 1 !in s.delivered
  {
    assert forall v :: v in s.log ==> RecordOk(s, v);
  }

  lemma UnusedTagVersion(s: State)
    requires TagsOk(s)
    ensures s.counter + 1 !in s.tagLog && s.counter + 1 !in s.tagsDelivered
  {
    assert forall v :: v in s.tagLog ==> TagRecordOk(s, v);
  }

  /** A job that draws a version logs the rows it just read; the lane is still to be read. */
  lemma ListsJob(s: State, c: CallId, rows: seq<Clip>, tags: Tags, visible: bool)
    requires ListsInv(s) && c in s.calls && s.calls[c].Queued? && PinnedFirst(rows)
    requires !s.calls[c].task.EditTags? && (s.calls[c].task.Maintain? ==> visible)
    ensures ListsInv(JobRan(s, c, rows, tags, visible))
  {
    hide Active, Built, Merge, Load, Loaded;
    var s' := JobRan(s, c, rows, tags, visible);
    var v := s.counter + 1;
    UnusedVersion(s);
    forall w | w in s'.log ensures RecordOk(s', w) {
      if w != v { assert RecordOk(s, w); }
    }
    forall d | d in s'.calls ensures CallOk(s'.log, s'.delivered, d, s'.calls[d]) {
      if d != c { assert CallOk(s.log, s.delivered, d, s.calls[d]); }
    }
    hide CallsOk, LogOk;
    assert LaneCurrent(s');
  }

  lemma ListsMerge(s: State, c: CallId)
    requires ListsInv(s) && c in s.calls && s.calls[c].Ran? && s.calls[c].version in s.log
    ensures ListsInv(LaneMerged(s, c))
  {
    hide Active, Merge, Load, Present;
    var s' := LaneMerged(s, c);
    MergeKeepsLog(s, c);
    MergeKeepsCalls(s, c);
    MergeKeepsShown(s, c);
    hide CallsOk, LogOk, ShownOk;
    DebtsRemain(s.calls, s'.calls, c);
  }

  lemma MergeKeepsLog(s: State, c: CallId)
    requires LogOk(s) && CallsOk(s) && c in s.calls && s.calls[c].Ran? && s.calls[c].version in s.log
    ensures LogOk(LaneMerged(s, c))
  {
    hide Active, Merge, Load, Present;
    var s' := LaneMerged(s, c);
    assert CallOk(s.log, s.delivered, c, s.calls[c]);
    hide CallsOk;
    assert RecordOk(s, s.calls[c].version);
    forall w | w in s'.log ensures RecordOk(s', w) {
      assert RecordOk(s, w);
    }
  }

  lemma MergeKeepsCalls(s: State, c: CallId)
    requires LogOk(s) && CallsOk(s) && c in s.calls && s.calls[c].Ran? && s.calls[c].version in s.log
    ensures CallsOk(LaneMerged(s, c))
  {
    hide Active, Merge, Load, Present;
    var s' := LaneMerged(s, c);
    var v := s.calls[c].version;
    assert CallOk(s.log, s.delivered, c, s.calls[c]);
    assert RecordOk(s, v);
    forall d | d in s'.calls ensures CallOk(s'.log, s'.delivered, d, s'.calls[d]) {
      if d != c { assert CallOk(s.log, s.delivered, d, s.calls[d]); }
    }
  }

  /** The version being merged is not the one shown. */
  lemma MergeKeepsShown(s: State, c: CallId)
    requires LogOk(s) && CallsOk(s) && ShownOk(s) && c in s.calls && s.calls[c].Ran? && s.calls[c].version in s.log
    ensures ShownOk(LaneMerged(s, c))
  {
    hide Active, Merge, Load, Present, Built;
    assert CallOk(s.log, s.delivered, c, s.calls[c]);
    assert RecordOk(s, s.calls[c].version);
    assert s.gui.latest in s.log ==> Shown(LaneMerged(s, c)) == Shown(s);
  }

  /** A delivered list replaces the shown one exactly when no newer one was delivered. */
  lemma DeliverShows(s: State, c: CallId, ids: set<ClipId>, digest: Digest)
    requires c in s.calls && s.calls[c].Ready?
    ensures var s' := Delivered(s, c, ids, digest);
            && s'.gui.latest == Max(s.gui.latest, s.calls[c].version)
            && s'.gui.latestTags == s.gui.latestTags && s'.gui.tags == s.gui.tags
            && (s.calls[c].version < s.gui.latest ==> s'.gui == s.gui)
            && (s.calls[c].version >= s.gui.latest ==> s'.gui.clips == Active(s.calls[c].clips, s.clock))
  {
    hide Active;
  }

  lemma ListsDeliver(s: State, c: CallId, ids: set<ClipId>, digest: Digest)
    requires ListsInv(s) && c in s.calls && s.calls[c].Ready?
    ensures ListsInv(Delivered(s, c, ids, digest))
  {
    hide Active, Built, Merge, Load, Present, Prune;
    var s' := Delivered(s, c, ids, digest);
    var v := s.calls[c].version;
    DeliverShows(s, c, ids, digest);
    ActiveTwice(s.calls[c].clips, s.clock, s.clock);
    assert CallOk(s.log, s.delivered, c, s.calls[c]);
    forall w | w in s'.log ensures RecordOk(s', w) {
      assert RecordOk(s, w);
    }
    forall d | d in s'.calls ensures CallOk(s'.log, s'.delivered, d, s'.calls[d]) {
      assert d in s.calls && CallOk(s.log, s.delivered, d, s.calls[d]);
    }
    assert RecordOk(s, v);
    hide CallsOk, LogOk;
    DebtsRemain(s.calls, s'.calls, c);
  }

  // ----- Tags

  predicate Tagless(calls: map<CallId, Phase>, c: CallId) {
    c in calls ==> !calls[c].TagsReady?
  }

  lemma TagDebtsRemain(calls: map<CallId, Phase>, calls': map<CallId, Phase>, c: CallId)
    requires OthersSame(calls, calls', c)
    requires WillRefreshTags(calls, c) ==> WillRefreshTags(calls', c)
    ensures (exists d :: WillRefreshTags(calls, d)) ==> exists d :: WillRefreshTags(calls', d)
  {
    if exists d :: WillRefreshTags(calls, d) {
      var d :| WillRefreshTags(calls, d);
      assert WillRefreshTags(calls', d);
    }
  }

  lemma QuietTags(s: State, s': State, c: CallId)
    requires TagsInv(s)
    requires OthersSame(s.calls, s'.calls, c) && Tagless(s.calls, c) && Tagless(s'.calls, c)
    requires s'.tagLog == s.tagLog && s'.tagsDelivered == s.tagsDelivered && s'.lastTags == s.lastTags
    requires s'.counter >= s.counter && s'.gui.latestTags == s.gui.latestTags && s'.gui.tags == s.gui.tags
    requires s'.tagsDirty || (!s.tagsDirty &&
             (WillRefreshTags(s'.calls, c) || (s'.tags == s.tags && !WillRefreshTags(s.calls, c))))
           || !TagsUnpublished(s', s'.tags)
    ensures TagsInv(s')
  {
    forall v | v in s'.tagLog ensures TagRecordOk(s', v) {
      assert TagRecordOk(s, v);
    }
    forall d | d in s'.calls ensures TagCallOk(s'.tagLog, s'.tagsDelivered, d, s'.calls[d]) {
      if d != c { assert TagCallOk(s.tagLog, s.tagsDelivered, d, s.calls[d]); }
    }
    if !s'.tagsDirty && !WillRefreshTags(s'.calls, c) && TagsUnpublished(s', s'.tags) {
      TagDebtsRemain(s.calls, s'.calls, c);
    }
  }

  lemma TagsQuiet(s: State, e: Event)
    requires TagsInv(s) && Enabled(s, e)
    requires !(e.Tick? || e.SetLimit? || e.RunTags? || e.DeliverTags? || e.RunJob? || e.Deliver?)
    ensures TagsInv(Apply(s, e))
  {
    hide Active, Built, Merge, Load, TagsOk, StoreContract;
    QuietTags(s, Apply(s, e), e.c);
  }

  lemma TagsStoreJob(s: State, c: CallId, rows: seq<Clip>, tags: Tags, visible: bool)
    requires TagsInv(s) && Enabled(s, RunJob(c, rows, tags, visible))
    ensures TagsInv(JobRan(s, c, rows, tags, visible))
  {
    hide Active, Loaded, TagsOk;
    QuietTags(s, JobRan(s, c, rows, tags, visible), c);
  }

  lemma TagsListDelivery(s: State, c: CallId, ids: set<ClipId>, digest: Digest)
    requires TagsInv(s) && c in s.calls && (s.calls[c].Ready? || s.calls[c].QuietReady?)
    ensures TagsInv(Delivered(s, c, ids, digest))
  {
    hide Active, TagsOk;
    QuietTags(s, Delivered(s, c, ids, digest), c);
  }

  lemma TagsJob(s: State, c: CallId)
    requires TagsInv(s) && c in s.calls && s.calls[c].TagsQueued?
    ensures TagsInv(TagsRan(s, c))
  {
    var s' := TagsRan(s, c);
    var v := s.counter + 1;
    UnusedTagVersion(s);
    forall w | w in s'.tagLog ensures TagRecordOk(s', w) {
      if w != v { assert TagRecordOk(s, w); }
    }
    forall d | d in s'.calls ensures TagCallOk(s'.tagLog, s'.tagsDelivered, d, s'.calls[d]) {
      if d != c { assert TagCallOk(s.tagLog, s.tagsDelivered, d, s.calls[d]); }
    }
  }

  lemma TagsShown(s: State, c: CallId)
    requires TagsInv(s) && c in s.calls && s.calls[c].TagsReady?
    ensures TagsInv(TagsDeliveredStep(s, c))
  {
    var s' := TagsDeliveredStep(s, c);
    assert TagCallOk(s.tagLog, s.tagsDelivered, c, s.calls[c]);
    assert TagRecordOk(s, s.calls[c].version);
    forall w | w in s'.tagLog ensures TagRecordOk(s', w) {
      assert TagRecordOk(s, w);
    }
    forall d | d in s'.calls ensures TagCallOk(s'.tagLog, s'.tagsDelivered, d, s'.calls[d]) {
      assert d in s.calls && TagCallOk(s.tagLog, s.tagsDelivered, d, s.calls[d]);
    }
    TagDebtsRemain(s.calls, s'.calls, c);
  }

  // ----- Every step

  lemma LimitStep(s: State, l: nat)
    requires Inv(s)
    ensures Inv(s.(limit := l))
  {
    hide Active, Built, Loaded;
    var s' := s.(limit := l);
    assert forall v :: v in s.log ==> RecordOk(s, v);
    assert forall v :: v in s.tagLog ==> TagRecordOk(s, v);
  }

  lemma ListsStep(s: State, e: Event)
    requires ListsInv(s) && Enabled(s, e) && !e.SetLimit?
    ensures ListsInv(Apply(s, e))
  {
    hide ListsInv;
    match e
    case Tick(d) => ListsTick(s, d);
    case MergeLane(c) => ListsMerge(s, c);
    case RunJob(c, rows, tags, visible) =>
      if s.calls[c].task.EditTags? || (s.calls[c].task.Maintain? && !visible) {
        ListsQuietJob(s, c, rows, tags, visible);
      } else {
        ListsJob(s, c, rows, tags, visible);
      }
    case Deliver(c, ids, digest) =>
      if s.calls[c].QuietReady? {
        ListsQuietDelivery(s, c, ids, digest);
      } else {
        ListsDeliver(s, c, ids, digest);
      }
    case _ => ListsQuiet(s, e);
  }

  lemma TagsTick(s: State, d: nat)
    requires TagsInv(s)
    ensures TagsInv(s.(clock := s.clock + d))
  {
    assert forall v :: v in s.tagLog ==> TagRecordOk(s, v);
  }

  lemma TagsStep(s: State, e: Event)
    requires TagsInv(s) && Enabled(s, e) && !e.SetLimit?
    ensures TagsInv(Apply(s, e))
  {
    hide TagsInv;
    match e
    case Tick(d) => TagsTick(s, d);
    case RunTags(c) => TagsJob(s, c);
    case DeliverTags(c) => TagsShown(s, c);
    case RunJob(c, rows, tags, visible) => TagsStoreJob(s, c, rows, tags, visible);
    case Deliver(c, ids, digest) => TagsListDelivery(s, c, ids, digest);
    case _ => TagsQuiet(s, e);
  }

  lemma StepPreserves(s: State, e: Event)
    requires Inv(s) && Enabled(s, e)
    ensures Inv(Apply(s, e))
  {
    hide ListsInv, TagsInv;
    match e
    case SetLimit(l) => LimitStep(s, l);
    case _ =>
      ListsStep(s, e);
      TagsStep(s, e);
  }
}
