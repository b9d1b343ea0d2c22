/** The history handle: its atomics, the lane behind its mutex, and the store and window it drives.
    Each short method is one atomic section and one step of `Publication`; the longer ones are the
    public operations, run without another thread in between but with any other calls in flight. */
module HistoryObject {
  import opened Options
  import opened Clips
  import opened Presenter
  import opened Publication
  import opened PublicationProofs

  /** No version shown is newer than the counter. */
  lemma ShownIsOlder(s: State)
    requires Inv(s)
    ensures s.gui.latest <= s.counter && s.gui.latestTags <= s.counter
  {
    if s.gui.latest != 0 {
      assert RecordOk(s, s.gui.latest);
    }
    if s.gui.latestTags != 0 {
      assert TagRecordOk(s, s.gui.latestTags);
    }
  }

  ghost predicate Steps(s: State, e: Event, s': State) {
    Enabled(s, e) && Apply(s, e) == s'
  }

  // ----- Each atomic section is a step of the protocol

  lemma EnterIsStep(s: State, c: CallId)
    requires Inv(s) && c !in s.calls
    ensures var e := Begin(c, Mutate(false));
            Enabled(s, e) && Apply(s, e) == s.(calls := s.calls[c := Pre(Mutate(false))]) && Inv(Apply(s, e))
  {
    hide Inv;
    StepPreserves(s, Begin(c, Mutate(false)));
  }

  lemma EditIsStep(s: State, c: CallId)
    requires Inv(s) && c !in s.calls
    ensures var e := Begin(c, EditTags);
            Enabled(s, e) && Apply(s, e) == s.(calls := s.calls[c := Queued(EditTags, 0)]) && Inv(Apply(s, e))
  {
    hide Inv;
    StepPreserves(s, Begin(c, EditTags));
  }

  lemma EditJobIsStep(s: State, c: CallId, newTags: Tags)
    requires Inv(s) && c in s.calls && s.calls[c].Queued? && s.calls[c].task.EditTags?
    ensures var e := RunJob(c, s.rows, newTags, true);
            && Enabled(s, e) && Inv(Apply(s, e))
            && Apply(s, e) == s.(tags := newTags, calls := s.calls[c := TagsQueued])
  {
    assert PinnedFirst(s.rows);
    hide Inv, Load, PinnedFirst;
    StepPreserves(s, RunJob(c, s.rows, newTags, true));
  }

  lemma LaneChangeIsStep(s: State, c: CallId, lane: seq<Clip>)
    requires Inv(s) && c !in s.calls
    ensures var e := ChangeLane(c, lane, Refresh);
            Enabled(s, e) && Apply(s, e) == s.(lane := lane, calls := s.calls[c := Pre(Refresh)]) && Inv(Apply(s, e))
  {
    hide Inv;
    StepPreserves(s, ChangeLane(c, lane, Refresh));
  }

  lemma LimitIsStep(s: State, c: CallId)
    requires Inv(s) && c in s.calls && s.calls[c].Pre?
    ensures var e := ReadLimit(c);
            && Enabled(s, e) && Inv(Apply(s, e))
            && Apply(s, e) == s.(calls := s.calls[c := Queued(s.calls[c].task, s.limit)])
  {
    hide Inv;
    StepPreserves(s, ReadLimit(c));
  }

  predicate Publishes(t: Task) { t.Mutate? || t.Refresh? || t.Memory? }

  predicate Permitted(s: State, t: Task, newRows: seq<Clip>, newTags: Tags) {
    PinnedFirst(newRows) && (t.Refresh? || t.Memory? ==> newRows == s.rows && newTags == s.tags)
  }

  lemma JobIsStep(s: State, c: CallId, newRows: seq<Clip>, newTags: Tags)
    requires Inv(s) && c in s.calls && s.calls[c].Queued? && Publishes(s.calls[c].task)
    requires Permitted(s, s.calls[c].task, newRows, newTags)
    ensures var e := RunJob(c, newRows, newTags, true);
            && Enabled(s, e) && Inv(Apply(s, e))
            && var t, limit, v := s.calls[c].task, s.calls[c].limit, s.counter + 1;
               Apply(s, e) == s.(rows := newRows, tags := newTags, counter := v, lastSnap := v, dirty := false,
                                 log := s.log[v := Record(c, newRows, s.clock, limit, None)],
                                 calls := s.calls[c := Ran(v, Load(newRows, limit, s.clock), Some(limit), false, t.Mutate?)])
  {
    hide Inv, Load;
    StepPreserves(s, RunJob(c, newRows, newTags, true));
  }

  lemma FailureIsStep(s: State, c: CallId, newRows: seq<Clip>, newTags: Tags)
    requires Inv(s) && c in s.calls && s.calls[c].Queued? && s.calls[c].task == Mutate(false) && PinnedFirst(newRows)
    ensures var e := FailJob(c, newRows, newTags);
            && Enabled(s, e) && Inv(Apply(s, e))
            && Apply(s, e) == s.(rows := newRows, tags := newTags, calls := s.calls - {c}, dirty := s.dirty || newRows != s.rows,
                                 tagsDirty := s.tagsDirty || TagsUnpublished(s, newTags))
  {
    hide Inv;
    StepPreserves(s, FailJob(c, newRows, newTags));
  }

  lemma VersionIsLogged(s: State, c: CallId)
    requires Inv(s) && c in s.calls && s.calls[c].Ran?
    ensures s.calls[c].version in s.log
  {
    assert CallOk(s.log, s.delivered, c, s.calls[c]);
  }

  lemma MergeMayRun(s: State, c: CallId)
    requires Inv(s) && c in s.calls && s.calls[c].Ran?
    ensures s.calls[c].version in s.log && Enabled(s, MergeLane(c)) && Apply(s, MergeLane(c)) == LaneMerged(s, c)
  {
    hide Inv, LaneMerged, StoreContract;
    VersionIsLogged(s, c);
  }

  lemma MergeIsStep(s: State, c: CallId)
    requires Inv(s) && c in s.calls && s.calls[c].Ran?
    ensures var e, p := MergeLane(c), s.calls[c];
            && p.version in s.log && Enabled(s, e) && Inv(Apply(s, e))
            && var limit := if p.mergeLimit.Some? then p.mergeLimit.value else s.limit;
               var read := Some(LaneRead(s.lane, s.clock, limit));
               Apply(s, e) == s.(log := s.log[p.version := s.log[p.version].(laneRead := read)],
                                 calls := s.calls[c := Ready(p.version, Merge(p.clips, s.lane, limit, s.clock),
                                                             p.maintenance, p.thenTags)])
  {
    MergeMayRun(s, c);
    hide Inv, Merge, Apply, Enabled;
    StepPreserves(s, MergeLane(c));
  }

  lemma MemoryIsStep(s: State, c: CallId, limit: nat)
    requires Inv(s) && c !in s.calls
    ensures var e := BeginMemory(c, limit);
            && Enabled(s, e) && Inv(Apply(s, e))
            && Apply(s, e) == s.(calls := s.calls[c := Queued(Memory, Max(limit, 1))])
  {
    hide Inv;
    StepPreserves(s, BeginMemory(c, limit));
  }

  lemma LimitChangeIsStep(s: State, limit: nat)
    requires Inv(s)
    ensures Enabled(s, SetLimit(limit)) && Inv(Apply(s, SetLimit(limit))) && Apply(s, SetLimit(limit)) == s.(limit := limit)
  {
    hide Inv;
    StepPreserves(s, SetLimit(limit));
  }

  lemma RefusalIsStep(s: State, c: CallId)
    requires Inv(s) && c in s.calls && s.calls[c].Queued? && (s.calls[c].task.Memory? || s.calls[c].task.Maintain?)
    ensures Enabled(s, Refuse(c)) && Inv(Apply(s, Refuse(c))) && Apply(s, Refuse(c)) == s.(calls := s.calls - {c})
  {
    hide Inv;
    StepPreserves(s, Refuse(c));
  }

  lemma PurgeIsStep(s: State, c: CallId)
    requires Inv(s) && c !in s.calls
    ensures var e := BeginMaintenance(c);
            && Enabled(s, e) && Inv(Apply(s, e))
            && Apply(s, e) == s.(lane := Active(s.lane, s.clock), calls := s.calls[c := Pruning])
  {
    hide Inv, Active;
    StepPreserves(s, BeginMaintenance(c));
  }

  lemma PruneIsStep(s: State, c: CallId, ids: set<ClipId>)
    requires Inv(s) && c in s.calls && s.calls[c].Pruning?
    ensures var e := DeliverPrune(c, ids);
            && Enabled(s, e) && Inv(Apply(s, e))
            && Apply(s, e) == s.(gui := Present(s.gui, PruneExpired(ids), s.clock), calls := s.calls[c := Pre(Maintain)])
  {
    hide Inv, Present;
    StepPreserves(s, DeliverPrune(c, ids));
  }

  lemma MaintainJobIsStep(s: State, c: CallId, newRows: seq<Clip>, newTags: Tags, visible: bool)
    requires Inv(s) && c in s.calls && s.calls[c].Queued? && s.calls[c].task.Maintain? && PinnedFirst(newRows)
    requires !visible ==> newRows == s.rows
    ensures var e := RunJob(c, newRows, newTags, visible);
            && Enabled(s, e) && Inv(Apply(s, e))
            && var limit, v := s.calls[c].limit, s.counter + 1;
               Apply(s, e) ==
               if visible then
                 s.(rows := newRows, tags := newTags, counter := v, lastSnap := v, dirty := false,
                    log := s.log[v := Record(c, newRows, s.clock, limit, None)],
                    calls := s.calls[c := Ran(v, Load(newRows, limit, s.clock), None, true, true)])
               else s.(rows := newRows, tags := newTags, calls := s.calls[c := QuietReady])
  {
    hide Inv, Load;
    StepPreserves(s, RunJob(c, newRows, newTags, visible));
  }

  lemma SendMaintenanceIsStep(s: State, c: CallId, ids: set<ClipId>, digest: Digest)
    requires Inv(s) && c in s.calls && s.calls[c].Ready? && s.calls[c].maintenance && s.calls[c].version >= s.gui.latest
    ensures var e, p := Deliver(c, ids, digest), s.calls[c];
            && Enabled(s, e) && Inv(Apply(s, e))
            && Apply(s, e) == s.(gui := Present(s.gui, Maintenance(Some(p.version), Some(p.clips), ids, digest), s.clock),
                                 delivered := s.delivered + {p.version}, calls := After(s.calls, c, p.thenTags))
            && Apply(s, e).gui.latest == p.version && Apply(s, e).gui.clips == Active(p.clips, s.clock)
            && Apply(s, e).gui.latestTags == s.gui.latestTags && Apply(s, e).gui.digest == digest
  {
    hide Inv, Active;
    StepPreserves(s, Deliver(c, ids, digest));
  }

  lemma SendQuietIsStep(s: State, c: CallId, ids: set<ClipId>, digest: Digest)
    requires Inv(s) && c in s.calls && s.calls[c].QuietReady?
    ensures var e := Deliver(c, ids, digest);
            && Enabled(s, e) && Inv(Apply(s, e))
            && Apply(s, e) == s.(gui := Present(s.gui, Maintenance(None, None, ids, digest), s.clock), calls := s.calls[c := TagsQueued])
            && Apply(s, e).gui.clips == s.gui.clips && Apply(s, e).gui.latest == s.gui.latest
            && Apply(s, e).gui.latestTags == s.gui.latestTags && Apply(s, e).gui.digest == digest
  {
    hide Inv;
    StepPreserves(s, Deliver(c, ids, digest));
  }

  /** The version drawn last is never below what the window is at. */
  lemma SendIsStep(s: State, c: CallId, ids: set<ClipId>)
    requires Inv(s) && c in s.calls && s.calls[c].Ready? && !s.calls[c].maintenance && s.calls[c].version >= s.gui.latest
    ensures var e, p := Deliver(c, ids, 0), s.calls[c];
            && Enabled(s, e) && Inv(Apply(s, e))
            && Apply(s, e) == s.(gui := Present(s.gui, Snapshot(p.version, p.clips, ids), s.clock),
                                 delivered := s.delivered + {p.version}, calls := After(s.calls, c, p.thenTags))
            && Apply(s, e).gui.latest == p.version && Apply(s, e).gui.clips == Active(p.clips, s.clock)
            && Apply(s, e).gui.tags == s.gui.tags && Apply(s, e).gui.latestTags == s.gui.latestTags
  {
    hide Inv, Active;
    StepPreserves(s, Deliver(c, ids, 0));
  }

  lemma TagsJobIsStep(s: State, c: CallId)
    requires Inv(s) && c in s.calls && s.calls[c].TagsQueued?
    ensures var e, v := RunTags(c), s.counter + 1;
            && Enabled(s, e) && Inv(Apply(s, e))
            && Apply(s, e) == s.(counter := v, lastTags := v, tagLog := s.tagLog[v := TagRecord(c, s.tags)],
                                 tagsDirty := false, calls := s.calls[c := TagsReady(v, s.tags)])
  {
    hide Inv;
    StepPreserves(s, RunTags(c));
  }

  lemma SendTagsIsStep(s: State, c: CallId)
    requires Inv(s) && c in s.calls && s.calls[c].TagsReady? && s.calls[c].version >= s.gui.latestTags
    ensures var e, p := DeliverTags(c), s.calls[c];
            && Enabled(s, e) && Inv(Apply(s, e))
            && Apply(s, e) == s.(gui := Present(s.gui, TagsEvent(p.version, p.tags), s.clock),
                                 tagsDelivered := s.tagsDelivered + {p.version}, calls := s.calls - {c})
            && Apply(s, e).gui.latestTags == p.version && Apply(s, e).gui.tags == p.tags
            && Apply(s, e).gui.clips == s.gui.clips && Apply(s, e).gui.latest == s.gui.latest && Apply(s, e).gui.digest == s.gui.digest
  {
    hide Inv;
    StepPreserves(s, DeliverTags(c));
  }

  class History {
    var clock: int
    var rows: seq<Clip>
    var tags: Tags
    var lane: seq<Clip>
    var snapshotLimit: nat
    var snapshotVersion: nat
    var calls: map<CallId, Phase>
    const window: Adapter
    ghost var opening: seq<Clip>
    ghost var log: map<nat, Record>
    ghost var lastSnap: nat
    ghost var delivered: set<nat>
    ghost var dirty: bool
    ghost var tagLog: map<nat, TagRecord>
    ghost var lastTags: nat
    ghost var tagsDelivered: set<nat>
    ghost var tagsDirty: bool

    ghost function View(): State
      reads this, window
    {
      State(clock, rows, tags, lane, snapshotLimit, snapshotVersion, calls, window.View(), opening,
            log, lastSnap, delivered, dirty, tagLog, lastTags, tagsDelivered, tagsDirty)
    }

    constructor (rows: seq<Clip>, tags: Tags, opening: seq<Clip>, limit: nat, clock: int)
      requires PinnedFirst(rows)
      ensures View() == Initial(rows, tags, opening, Max(limit, 1), clock) && Inv(View()) && fresh(window)
    {
      this.clock, this.rows, this.tags, this.lane := clock, rows, tags, [];
      snapshotLimit, snapshotVersion, calls := Max(limit, 1), 0, map[];
      this.opening, log, lastSnap, delivered, dirty := opening, map[], 0, {}, true;
      tagLog, lastTags, tagsDelivered, tagsDirty := map[], 0, {}, true;
      window := new Adapter(opening);
      new;
      InitialInv(rows, tags, opening, Max(limit, 1), clock);
    }

    // ----- Atomic sections

    method Enter(c: CallId)
      requires Inv(View()) && c !in calls
      modifies this`calls
      ensures Steps(old(View()), Begin(c, Mutate(false)), View()) && Inv(View())
      ensures calls == old(calls)[c := Pre(Mutate(false))]
    {
      hide Inv, Enabled, Apply, Active, Load, Merge, Present, PinnedFirst;
      EnterIsStep(View(), c);
      calls := calls[c := Pre(Mutate(false))];
    }

    method EnterWithLane(c: CallId, newLane: seq<Clip>)
      requires Inv(View()) && c !in calls
      modifies this`calls, this`lane
      ensures Steps(old(View()), ChangeLane(c, newLane, Refresh), View()) && Inv(View())
      ensures lane == newLane && calls == old(calls)[c := Pre(Refresh)]
    {
      hide Inv, Enabled, Apply, Active, Load, Merge, Present, PinnedFirst;
      LaneChangeIsStep(View(), c, newLane);
      lane := newLane;
      calls := calls[c := Pre(Refresh)];
    }

    method LoadLimit(c: CallId)
      requires Inv(View()) && c in calls && calls[c].Pre?
      modifies this`calls
      ensures Steps(old(View()), ReadLimit(c), View()) && Inv(View())
      ensures calls == old(calls)[c := Queued(old(calls)[c].task, snapshotLimit)]
    {
      hide Inv, Enabled, Apply, Active, Load, Merge, Present, PinnedFirst;
      LimitIsStep(View(), c);
      calls := calls[c := Queued(calls[c].task, snapshotLimit)];
    }

    /** The closure run by the store thread: change the rows, load the list, draw the version. */
    method SnapshotJob(c: CallId, newRows: seq<Clip>, newTags: Tags)
      requires Inv(View()) && c in calls && calls[c].Queued? && Publishes(calls[c].task)
      requires Permitted(View(), calls[c].task, newRows, newTags)
      modifies this`rows, this`tags, this`snapshotVersion, this`calls, this`lastSnap, this`dirty, this`log
      ensures Steps(old(View()), RunJob(c, newRows, newTags, true), View()) && Inv(View())
      ensures rows == newRows && tags == newTags && snapshotVersion == old(snapshotVersion) + 1
      ensures var q := old(calls)[c];
              calls == old(calls)[c := Ran(snapshotVersion, Load(newRows, q.limit, clock), Some(q.limit), false, q.task.Mutate?)]
    {
      hide Inv, Enabled, Apply, Active, Load, Merge, Present, PinnedFirst;
      JobIsStep(View(), c, newRows, newTags);
      var q := calls[c];
      rows, tags := newRows, newTags;
      var loaded := Load(rows, q.limit, clock);
      snapshotVersion := snapshotVersion + 1;
      lastSnap, dirty := snapshotVersion, false;
      log := log[snapshotVersion := Record(c, newRows, clock, q.limit, None)];
      calls := calls[c := Ran(snapshotVersion, loaded, Some(q.limit), false, q.task.Mutate?)];
    }

    /** The same closure when the mutation, or the loading after it, reports an error. */
    method FailingJob(c: CallId, newRows: seq<Clip>, newTags: Tags)
      requires Inv(View()) && c in calls && calls[c].Queued? && calls[c].task == Mutate(false) && PinnedFirst(newRows)
      modifies this`rows, this`tags, this`calls, this`dirty, this`tagsDirty
      ensures Steps(old(View()), FailJob(c, newRows, newTags), View()) && Inv(View())
      ensures rows == newRows && tags == newTags && calls == old(calls) - {c} && (newRows != old(rows) ==> dirty)
    {
      hide Inv, Enabled, Apply, Active, Load, Merge, Present, PinnedFirst;
      hide TagsUnpublished;
      FailureIsStep(View(), c, newRows, newTags);
      dirty, tagsDirty := dirty || newRows != rows, tagsDirty || TagsUnpublished(View(), newTags);
      rows, tags := newRows, newTags;
      calls := calls - {c};
    }

    /** `merge_volatile`: the unexpired lane goes behind the pinned block, then the cut to the limit. */
    method MergeVolatile(persistent: seq<Clip>, limit: nat) returns (merged: seq<Clip>)
      ensures merged == Merge(persistent, lane, limit, clock)
      ensures |merged| == Min(|persistent| + |Active(lane, clock)|, Max(limit, 1))
      ensures forall k: nat :: PinnedBlock(persistent, k) ==> LaneBehindPinned(merged, persistent, Active(lane, clock), k)
    {
      hide Active, PinnedEnd;
      var volatile := Active(lane, clock);
      var pinnedEnd := PinnedEnd(persistent);
      merged := persistent[..pinnedEnd];
      merged := merged + volatile;
      merged := merged + persistent[pinnedEnd..];
      merged := merged[..Min(|merged|, Max(limit, 1))];
      hide Merge, LaneBehindPinned, PinnedBlock;
      forall k: nat | PinnedBlock(persistent, k) ensures LaneBehindPinned(merged, persistent, volatile, k) {
        MergeBehindPinned(persistent, lane, limit, clock, k);
      }
    }

    method MergeForCall(c: CallId)
      requires Inv(View()) && c in calls && calls[c].Ran?
      modifies this`calls, this`log
      ensures var p := old(calls)[c];
              var limit := if p.mergeLimit.Some? then p.mergeLimit.value else snapshotLimit;
              && p.version in old(log) && Steps(old(View()), MergeLane(c), View()) && Inv(View())
              && calls == old(calls)[c := Ready(p.version, Merge(p.clips, lane, limit, clock), p.maintenance, p.thenTags)]
    {
      hide Inv, Enabled, Apply, Active, Load, Merge, Present, PinnedFirst;
      MergeIsStep(View(), c);
      var p := calls[c];
      var limit := if p.mergeLimit.Some? then p.mergeLimit.value else snapshotLimit;
      var merged := MergeVolatile(p.clips, limit);
      log := log[p.version := log[p.version].(laneRead := Some(LaneRead(lane, clock, limit)))];
      calls := calls[c := Ready(p.version, merged, p.maintenance, p.thenTags)];
    }

    method CurrentVolatileIds() returns (ids: set<ClipId>)
      ensures forall id :: id in ids <==> exists x :: x in lane && !Expired(x, clock) && x.id == id
    {
      var live := Active(lane, clock);
      ids := set x | x in live :: x.id;
      forall x | x in lane && !Expired(x, clock) ensures x in live {
        ActiveKeeps(lane, clock, x);
      }
    }

    method SendList(c: CallId, ids: set<ClipId>)
      requires Inv(View()) && c in calls && calls[c].Ready? && !calls[c].maintenance && calls[c].version >= window.latest
      modifies this`calls, this`delivered, window
      ensures Steps(old(View()), Deliver(c, ids, 0), View()) && Inv(View())
      ensures var p := old(calls)[c];
              && calls == After(old(calls), c, p.thenTags)
              && window.latest == p.version && window.clips == Active(p.clips, clock)
              && window.tags == old(window.tags) && window.latestTags == old(window.latestTags)
    {
      hide Inv, Enabled, Apply, Active, Load, Merge, Present, PinnedFirst;
      SendIsStep(View(), c, ids);
      var p := calls[c];
      window.Handle(Snapshot(p.version, p.clips, ids), clock);
      delivered := delivered + {p.version};
      calls := After(calls, c, p.thenTags);
    }

    method TagsJob(c: CallId)
      requires Inv(View()) && c in calls && calls[c].TagsQueued?
      modifies this`snapshotVersion, this`calls, this`lastTags, this`tagsDirty, this`tagLog
      ensures Steps(old(View()), RunTags(c), View()) && Inv(View())
      ensures snapshotVersion == old(snapshotVersion) + 1 && calls == old(calls)[c := TagsReady(snapshotVersion, tags)]
    {
      hide Inv, Enabled, Apply, Active, Load, Merge, Present, PinnedFirst;
      TagsJobIsStep(View(), c);
      snapshotVersion := snapshotVersion + 1;
      lastTags, tagsDirty := snapshotVersion, false;
      tagLog := tagLog[snapshotVersion := TagRecord(c, tags)];
      calls := calls[c := TagsReady(snapshotVersion, tags)];
    }

    method SendTags(c: CallId)
      requires Inv(View()) && c in calls && calls[c].TagsReady? && calls[c].version >= window.latestTags
      modifies this`calls, this`tagsDelivered, window
      ensures Steps(old(View()), DeliverTags(c), View()) && Inv(View())
      ensures var p := old(calls)[c];
              && calls == old(calls) - {c} && window.latestTags == p.version && window.tags == p.tags
              && window.clips == old(window.clips) && window.latest == old(window.latest) && window.digest == old(window.digest)
    {
      hide Inv, Enabled, Apply, Active, Load, Merge, Present, PinnedFirst;
      SendTagsIsStep(View(), c);
      var p := calls[c];
      window.Handle(TagsEvent(p.version, p.tags), clock);
      tagsDelivered := tagsDelivered + {p.version};
      calls := calls - {c};
    }

    // ----- Whole operations

    lemma RowsMayBePublished(task: Task)
      requires Inv(View()) && task.Refresh?
      ensures Permitted(View(), task, rows, tags) && Publishes(task)
    {
      assert View().rows == rows;
    }

    lemma NewRowsMayBePublished(task: Task, newRows: seq<Clip>, newTags: Tags)
      requires PinnedFirst(newRows) && task.Mutate?
      ensures Permitted(View(), task, newRows, newTags) && Publishes(task)
    {
    }

    lemma ShownVersions()
      requires Inv(View())
      ensures window.latest <= snapshotVersion && window.latestTags <= snapshotVersion
    {
      ShownIsOlder(View());
    }

    /** `refresh_tags`, undisturbed: the window shows the store's tags. */
    method RefreshTags(c: CallId)
      requires Inv(View()) && c in calls && calls[c] == TagsQueued
      modifies this`snapshotVersion, this`calls, this`lastTags, this`tagsDirty, this`tagLog, this`tagsDelivered, window
      ensures Inv(View()) && calls == old(calls) - {c} && snapshotVersion == old(snapshotVersion) + 1
      ensures window.tags == tags && window.latestTags == snapshotVersion
      ensures window.clips == old(window.clips) && window.latest == old(window.latest) && window.digest == old(window.digest)
    {
      hide Inv, Enabled, Apply, Active, Load, Merge, Present, PinnedFirst, View, Permitted, Publishes;
      ShownVersions();
      TagsJob(c);
      SendTags(c);
    }

    method BeginEdit(c: CallId)
      requires Inv(View()) && c !in calls
      modifies this`calls
      ensures Steps(old(View()), Begin(c, EditTags), View()) && Inv(View()) && calls == old(calls)[c := Queued(EditTags, 0)]
    {
      hide Inv, Enabled, Apply, Active, Load, Merge, Present, PinnedFirst;
      EditIsStep(View(), c);
      calls := calls[c := Queued(EditTags, 0)];
    }

    method EditJob(c: CallId, newTags: Tags)
      requires Inv(View()) && c in calls && calls[c].Queued? && calls[c].task.EditTags?
      modifies this`tags, this`calls
      ensures Steps(old(View()), RunJob(c, rows, newTags, true), View()) && Inv(View())
      ensures tags == newTags && calls == old(calls)[c := TagsQueued]
    {
      hide Inv, Enabled, Apply, Active, Load, Merge, Present, PinnedFirst;
      EditJobIsStep(View(), c, newTags);
      tags := newTags;
      calls := calls[c := TagsQueued];
    }

    /** `edit_tags` on a store that accepts the edit: the window shows the new tags and keeps its list. */
    method EditTagsAndRefresh(c: CallId, newTags: Tags)
      requires Inv(View()) && c !in calls
      modifies this`tags, this`snapshotVersion, this`calls, this`lastTags, this`tagsDirty, this`tagLog, this`tagsDelivered, window
      ensures Inv(View()) && calls == old(calls) && tags == newTags && window.tags == newTags
      ensures window.clips == old(window.clips) && window.latest == old(window.latest)
    {
      hide Inv, Enabled, Apply, Active, Load, Merge, Present, PinnedFirst, View, Permitted, Publishes;
      BeginEdit(c);
      EditJob(c, newTags);
      RefreshTags(c);
      assert calls == old(calls);
    }

    /** The common tail of `mutate_and_refresh` and `refresh_snapshot`: job, merge, send. */
    method Publish(c: CallId, newRows: seq<Clip>, newTags: Tags)
      requires Inv(View()) && c in calls && calls[c].Queued? && Publishes(calls[c].task)
      requires Permitted(View(), calls[c].task, newRows, newTags)
      modifies this`rows, this`tags, this`snapshotVersion, this`calls, this`lastSnap, this`dirty, this`log, this`delivered, window
      ensures Inv(View()) && snapshotVersion == old(snapshotVersion) + 1 == window.latest
      ensures rows == newRows && tags == newTags && window.tags == old(window.tags)
      ensures var q := old(calls)[c];
              && calls == After(old(calls), c, q.task.Mutate?)
              && window.clips == Active(Merge(Load(newRows, q.limit, clock), lane, q.limit, clock), clock)
    {
      hide Inv, Enabled, Apply, Active, Load, Merge, Present, PinnedFirst, View, Permitted, Publishes;
      ShownVersions();
      SnapshotJob(c, newRows, newTags);
      MergeForCall(c);
      var ids := CurrentVolatileIds();
      SendList(c, ids);
      assert calls == After(old(calls), c, old(calls)[c].task.Mutate?);
    }

    /** What `mutate_and_refresh` does once its call is queued and the job succeeds. */
    method PublishMutation(c: CallId, newRows: seq<Clip>, newTags: Tags)
      requires Inv(View()) && c in calls && calls[c] == Queued(Mutate(false), snapshotLimit) && PinnedFirst(newRows)
      modifies this`rows, this`tags, this`snapshotVersion, this`calls, this`lastSnap, this`dirty, this`log, this`delivered,
               this`lastTags, this`tagsDirty, this`tagLog, this`tagsDelivered, window
      ensures Inv(View()) && calls == old(calls) - {c} && rows == newRows && tags == newTags
      ensures window.latest == old(snapshotVersion) + 1 && window.tags == newTags
      ensures window.clips == Active(Merge(Load(newRows, snapshotLimit, clock), lane, snapshotLimit, clock), clock)
    {
      hide Inv, Enabled, Apply, Active, Load, Merge, Present, PinnedFirst, View, Permitted, Publishes;
      NewRowsMayBePublished(calls[c].task, newRows, newTags);
      Publish(c, newRows, newTags);
      RefreshTags(c);
    }

    /** `mutate_and_refresh`, with any other calls in flight: after a success the window shows the new
        rows merged with the lane, and the new tags; after a failure it shows what it did before. */
    method MutateAndRefresh(c: CallId, newRows: seq<Clip>, newTags: Tags, succeeds: bool) returns (ok: bool)
      requires Inv(View()) && c !in calls && PinnedFirst(newRows)
      modifies this, window
      ensures Inv(View()) && ok == succeeds && calls == old(calls) && rows == newRows && tags == newTags
      ensures ok ==> window.latest == old(snapshotVersion) + 1 && window.tags == newTags
      ensures ok ==> window.clips == Active(Merge(Load(newRows, snapshotLimit, clock), lane, snapshotLimit, clock), clock)
      ensures !ok ==> window.View() == old(window.View()) && snapshotVersion == old(snapshotVersion)
      ensures !ok && newRows != old(rows) ==> dirty
      ensures lane == old(lane) && clock == old(clock) && snapshotLimit == old(snapshotLimit)
    {
      hide Inv, Enabled, Apply, Active, Load, Merge, Present, PinnedFirst, View, Permitted, Publishes;
      Enter(c);
      LoadLimit(c);
      if !succeeds {
        FailingJob(c, newRows, newTags);
        assert calls == old(calls);
        return false;
      }
      PublishMutation(c, newRows, newTags);
      assert calls == old(calls);
      return true;
    }

    /** The locked section of `insert_volatile` changes the lane; `refresh_snapshot` follows. */
    method RefreshSnapshot(c: CallId, newLane: seq<Clip>)
      requires Inv(View()) && c !in calls
      modifies this, window
      ensures Inv(View()) && calls == old(calls) && rows == old(rows) && lane == newLane
      ensures window.latest == old(snapshotVersion) + 1 == snapshotVersion && window.tags == old(window.tags)
      ensures window.clips == Active(Merge(Load(rows, snapshotLimit, clock), newLane, snapshotLimit, clock), clock)
    {
      hide Inv, Enabled, Apply, Active, Load, Merge, Present, PinnedFirst, View, Permitted, Publishes;
      EnterWithLane(c, newLane);
      LoadLimit(c);
      RowsMayBePublished(calls[c].task);
      Publish(c, rows, tags);
      assert calls == old(calls);
    }

    // ----- Memory pressure and idle maintenance

    method EnterForMemory(c: CallId, limit: nat)
      requires Inv(View()) && c !in calls
      modifies this`calls
      ensures Steps(old(View()), BeginMemory(c, limit), View()) && Inv(View())
      ensures calls == old(calls)[c := Queued(Memory, Max(limit, 1))]
    {
      hide Inv, Enabled, Apply, Active, Load, Merge, Present, PinnedFirst;
      MemoryIsStep(View(), c, limit);
      calls := calls[c := Queued(Memory, Max(limit, 1))];
    }

    method StoreLimit(limit: nat)
      requires Inv(View())
      modifies this`snapshotLimit
      ensures Steps(old(View()), SetLimit(limit), View()) && Inv(View()) && snapshotLimit == limit
    {
      hide Inv, Enabled, Apply, Active, Load, Merge, Present, PinnedFirst;
      LimitChangeIsStep(View(), limit);
      snapshotLimit := limit;
    }

    /** `try_execute` refused the job: the store thread is busy. */
    method GiveUp(c: CallId)
      requires Inv(View()) && c in calls && calls[c].Queued? && (calls[c].task.Memory? || calls[c].task.Maintain?)
      modifies this`calls
      ensures Steps(old(View()), Refuse(c), View()) && Inv(View()) && calls == old(calls) - {c}
    {
      hide Inv, Enabled, Apply, Active, Load, Merge, Present, PinnedFirst;
      RefusalIsStep(View(), c);
      calls := calls - {c};
    }

    lemma MemoryMayPublish()
      requires Inv(View())
      ensures Permitted(View(), Memory, rows, tags) && Publishes(Memory)
    {
      assert View().rows == rows;
    }

    /** `refresh_for_memory`: unless the store thread is busy, the window is reloaded at the new limit, which
        then stays in force. */
    method RefreshForMemory(c: CallId, limit: nat, admitted: bool) returns (ok: bool)
      requires Inv(View()) && c !in calls
      modifies this, window
      ensures Inv(View()) && ok == admitted && calls == old(calls) && rows == old(rows) && tags == old(tags) && lane == old(lane)
      ensures ok ==> snapshotLimit == Max(limit, 1) && window.latest == old(snapshotVersion) + 1 && window.tags == old(window.tags)
      ensures ok ==> window.clips == Active(Merge(Load(rows, snapshotLimit, clock), lane, snapshotLimit, clock), clock)
      ensures !ok ==> window.View() == old(window.View()) && snapshotLimit == old(snapshotLimit)
    {
      hide Inv, Enabled, Apply, Active, Load, Merge, Present, PinnedFirst, View, Permitted, Publishes;
      EnterForMemory(c, limit);
      if !admitted {
        GiveUp(c);
        assert calls == old(calls);
        return false;
      }
      ShownVersions();
      MemoryMayPublish();
      SnapshotJob(c, rows, tags);
      MergeForCall(c);
      StoreLimit(Max(limit, 1));
      var ids := CurrentVolatileIds();
      SendList(c, ids);
      assert calls == old(calls);
      return true;
    }

    /** `purge_expired_volatile`. */
    method PurgeLane(c: CallId)
      requires Inv(View()) && c !in calls
      modifies this`calls, this`lane
      ensures Steps(old(View()), BeginMaintenance(c), View()) && Inv(View())
      ensures lane == Active(old(lane), clock) && calls == old(calls)[c := Pruning]
    {
      hide Inv, Enabled, Apply, Active, Load, Merge, Present, PinnedFirst;
      PurgeIsStep(View(), c);
      lane := Active(lane, clock);
      calls := calls[c := Pruning];
    }

    /** `prune_expired_snapshot`. */
    method PruneWindow(c: CallId, ids: set<ClipId>)
      requires Inv(View()) && c in calls && calls[c].Pruning?
      modifies this`calls, window
      ensures Steps(old(View()), DeliverPrune(c, ids), View()) && Inv(View()) && calls == old(calls)[c := Pre(Maintain)]
      ensures window.View() == Present(old(window.View()), PruneExpired(ids), clock)
    {
      hide Inv, Enabled, Apply, Active, Load, Merge, Present, PinnedFirst;
      PruneIsStep(View(), c, ids);
      window.Handle(PruneExpired(ids), clock);
      calls := calls[c := Pre(Maintain)];
    }

    /** The maintenance closure on the store thread, after a visible change. */
    method VisibleMaintenanceJob(c: CallId, newRows: seq<Clip>, newTags: Tags)
      requires Inv(View()) && c in calls && calls[c].Queued? && calls[c].task.Maintain? && PinnedFirst(newRows)
      modifies this`rows, this`tags, this`snapshotVersion, this`calls, this`lastSnap, this`dirty, this`log
      ensures Steps(old(View()), RunJob(c, newRows, newTags, true), View()) && Inv(View())
      ensures rows == newRows && tags == newTags && snapshotVersion == old(snapshotVersion) + 1
      ensures calls == old(calls)[c := Ran(snapshotVersion, Load(newRows, old(calls)[c].limit, clock), None, true, true)]
    {
      hide Inv, Enabled, Apply, Active, Load, Merge, Present, PinnedFirst;
      MaintainJobIsStep(View(), c, newRows, newTags, true);
      var limit := calls[c].limit;
      rows, tags := newRows, newTags;
      var loaded := Load(rows, limit, clock);
      snapshotVersion := snapshotVersion + 1;
      lastSnap, dirty := snapshotVersion, false;
      log := log[snapshotVersion := Record(c, newRows, clock, limit, None)];
      calls := calls[c := Ran(snapshotVersion, loaded, None, true, true)];
    }

    /** Without a visible change it neither loads nor draws a version. */
    method QuietMaintenanceJob(c: CallId, newTags: Tags)
      requires Inv(View()) && c in calls && calls[c].Queued? && calls[c].task.Maintain?
      modifies this`tags, this`calls
      ensures Steps(old(View()), RunJob(c, rows, newTags, false), View()) && Inv(View())
      ensures tags == newTags && calls == old(calls)[c := QuietReady]
    {
      assert PinnedFirst(View().rows);
      hide Inv, Enabled, Apply, Active, Load, Merge, Present, PinnedFirst;
      MaintainJobIsStep(View(), c, rows, newTags, false);
      tags := newTags;
      calls := calls[c := QuietReady];
    }

    method SendMaintenance(c: CallId, ids: set<ClipId>, digest: Digest)
      requires Inv(View()) && c in calls && calls[c].Ready? && calls[c].maintenance && calls[c].version >= window.latest
      modifies this`calls, this`delivered, window
      ensures Steps(old(View()), Deliver(c, ids, digest), View()) && Inv(View())
      ensures var p := old(calls)[c];
              && calls == After(old(calls), c, p.thenTags) && window.latest == p.version
              && window.clips == Active(p.clips, clock) && window.digest == digest
    {
      hide Inv, Enabled, Apply, Active, Load, Merge, Present, PinnedFirst;
      SendMaintenanceIsStep(View(), c, ids, digest);
      var p := calls[c];
      window.Handle(Maintenance(Some(p.version), Some(p.clips), ids, digest), clock);
      delivered := delivered + {p.version};
      calls := After(calls, c, p.thenTags);
    }

    method SendQuiet(c: CallId, ids: set<ClipId>, digest: Digest)
      requires Inv(View()) && c in calls && calls[c].QuietReady?
      modifies this`calls, window
      ensures Steps(old(View()), Deliver(c, ids, digest), View()) && Inv(View()) && calls == old(calls)[c := TagsQueued]
      ensures window.clips == old(window.clips) && window.latest == old(window.latest) && window.digest == digest
    {
      hide Inv, Enabled, Apply, Active, Load, Merge, Present, PinnedFirst;
      SendQuietIsStep(View(), c, ids, digest);
      window.Handle(Maintenance(None, None, ids, digest), clock);
      calls := calls[c := TagsQueued];
    }

    /** The part of `maintain_idle` before the job: expired clips leave the lane and the window. */
    method PruneExpiredEverywhere(c: CallId)
      requires Inv(View()) && c !in calls
      modifies this`calls, this`lane, window
      ensures Inv(View()) && calls == old(calls)[c := Queued(Maintain, snapshotLimit)] && lane == Active(old(lane), clock)
      ensures ShowsUnexpired(window.clips, old(window.clips), clock) && window.latest == old(window.latest)
      ensures window.tags == old(window.tags) && window.digest == old(window.digest)
    {
      hide Inv, Enabled, Apply, Active, Load, Merge, Present, PinnedFirst, View, Permitted, Publishes;
      PurgeLane(c);
      var ids := CurrentVolatileIds();
      PruneEffect(ids);
      PruneWindow(c, ids);
      LoadLimit(c);
    }

    lemma PruneEffect(ids: set<ClipId>)
      ensures var g := Present(window.View(), PruneExpired(ids), clock);
              && ShowsUnexpired(g.clips, window.clips, clock) && g.latest == window.latest && g.tags == window.tags
              && g.digest == window.digest
    {
      EventTakesEffect(window.View(), PruneExpired(ids), clock);
      PruneKeepsActive(window.View(), ids, clock);
    }

    /** What `maintain_idle` does with a visible change: reload, merge at the limit now in force, send. */
    method PublishMaintenance(c: CallId, newRows: seq<Clip>, newTags: Tags, digest: Digest)
      requires Inv(View()) && c in calls && calls[c] == Queued(Maintain, snapshotLimit) && PinnedFirst(newRows)
      modifies this`rows, this`tags, this`snapshotVersion, this`calls, this`lastSnap, this`dirty, this`log, this`delivered,
               this`lastTags, this`tagsDirty, this`tagLog, this`tagsDelivered, window
      ensures Inv(View()) && calls == old(calls) - {c} && rows == newRows && tags == newTags && window.tags == newTags
      ensures window.latest == old(snapshotVersion) + 1 && window.digest == digest
      ensures window.clips == Active(Merge(Load(newRows, snapshotLimit, clock), lane, snapshotLimit, clock), clock)
    {
      hide Inv, Enabled, Apply, Active, Load, Merge, Present, PinnedFirst, View, Permitted, Publishes;
      ShowMaintenance(c, newRows, newTags, digest);
      RefreshTags(c);
      assert calls == old(calls) - {c};
    }

    method ShowMaintenance(c: CallId, newRows: seq<Clip>, newTags: Tags, digest: Digest)
      requires Inv(View()) && c in calls && calls[c] == Queued(Maintain, snapshotLimit) && PinnedFirst(newRows)
      modifies this`rows, this`tags, this`snapshotVersion, this`calls, this`lastSnap, this`dirty, this`log, this`delivered, window
      ensures Inv(View()) && calls == old(calls)[c := TagsQueued] && rows == newRows && tags == newTags
      ensures window.latest == snapshotVersion == old(snapshotVersion) + 1 && window.digest == digest
      ensures window.clips == Active(Merge(Load(newRows, snapshotLimit, clock), lane, snapshotLimit, clock), clock)
    {
      hide Inv, Enabled, Apply, Active, Load, Merge, Present, PinnedFirst, View, Permitted, Publishes;
      ShownVersions();
      VisibleMaintenanceJob(c, newRows, newTags);
      MergeForCall(c);
      var ids := CurrentVolatileIds();
      SendMaintenance(c, ids, digest);
    }

    /** And without one. */
    method ReportMaintenance(c: CallId, newTags: Tags, digest: Digest)
      requires Inv(View()) && c in calls && calls[c].Queued? && calls[c].task.Maintain?
      modifies this`tags, this`snapshotVersion, this`calls, this`lastTags, this`tagsDirty, this`tagLog, this`tagsDelivered, window
      ensures Inv(View()) && calls == old(calls) - {c} && tags == newTags && window.tags == newTags && window.digest == digest
      ensures window.clips == old(window.clips) && window.latest == old(window.latest)
    {
      hide Inv, Enabled, Apply, Active, Load, Merge, Present, PinnedFirst, View, Permitted, Publishes;
      QuietMaintenanceJob(c, newTags);
      var ids := CurrentVolatileIds();
      SendQuiet(c, ids, digest);
      RefreshTags(c);
      assert calls == old(calls) - {c};
    }

    /** `maintain_idle`: expired clips leave lane and window in any case. Unless the store thread is busy,
        the digest and the tags are shown afterwards, and a visible change reloads the list as well. */
    method MaintainIdle(c: CallId, admitted: bool, newRows: seq<Clip>, newTags: Tags, visible: bool, digest: Digest)
      returns (ran: bool)
      requires Inv(View()) && c !in calls && PinnedFirst(newRows) && (!visible ==> newRows == rows)
      modifies this`rows, this`tags, this`lane, this`snapshotVersion, this`calls, this`lastSnap, this`dirty, this`log, this`delivered,
               this`lastTags, this`tagsDirty, this`tagLog, this`tagsDelivered, window
      ensures Inv(View()) && ran == admitted && calls == old(calls) && lane == Active(old(lane), clock)
      ensures !ran ==> rows == old(rows) && tags == old(tags) && snapshotVersion == old(snapshotVersion)
      ensures !ran || !visible ==> ShowsUnexpired(window.clips, old(window.clips), clock) && window.latest == old(window.latest)
      ensures ran ==> rows == newRows && tags == newTags && window.tags == newTags && window.digest == digest
      ensures ran && visible ==> window.latest == old(snapshotVersion) + 1
      ensures ran && visible ==> window.clips == Active(Merge(Load(newRows, snapshotLimit, clock), lane, snapshotLimit, clock), clock)
    {
      hide Inv, Enabled, Apply, Active, Load, Merge, Present, PinnedFirst, View, Permitted, Publishes, ShowsUnexpired;
      PruneExpiredEverywhere(c);
      if !admitted {
        GiveUp(c);
      } else if visible {
        PublishMaintenance(c, newRows, newTags, digest);
      } else {
        ReportMaintenance(c, newTags, digest);
      }
      assert calls == old(calls);
      return admitted;
    }
  }
}
