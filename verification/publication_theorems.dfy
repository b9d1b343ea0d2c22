/** What the invariant of `Publication` means for the window, over whole runs. */
module PublicationTheorems {
  import opened Options
  import opened Clips
  import opened Presenter
  import opened Publication
  import opened PublicationProofs

  // ----- Runs

  ghost predicate ValidRun(s: State, events: seq<Event>)
    decreases |events|
  {
    events == [] || (Enabled(s, events[0]) && ValidRun(Apply(s, events[0]), events[1..]))
  }

  ghost function Run(s: State, events: seq<Event>): State
    requires ValidRun(s, events)
    decreases |events|
  {
    if events == [] then s else Run(Apply(s, events[0]), events[1..])
  }

  lemma {:induction false} RunPreserves(s: State, events: seq<Event>)
    requires Inv(s) && ValidRun(s, events)
    ensures Inv(Run(s, events))
    decreases |events|
  {
    hide Inv, Apply, Enabled;
    if events != [] {
      StepPreserves(s, events[0]);
      RunPreserves(Apply(s, events[0]), events[1..]);
    }
  }

  // ----- Safety: the window shows the highest version delivered and never moves back

  predicate IsHighest(v: nat, versions: set<nat>) {
    (v in versions || (v == 0 && versions == {})) && forall w :: w in versions ==> w <= v
  }

  lemma ShowsHighestDelivered(s: State)
    requires Inv(s)
    ensures IsHighest(s.gui.latest, s.delivered)
    ensures s.gui.latest in s.delivered ==>
              && s.gui.latest in s.log && s.log[s.gui.latest].laneRead.Some?
              && Active(s.gui.clips, s.clock) == Active(Built(s.log[s.gui.latest]), s.clock)
    ensures s.delivered == {} ==> Active(s.gui.clips, s.clock) == Active(s.opening, s.clock)
    ensures IsHighest(s.gui.latestTags, s.tagsDelivered)
    ensures s.gui.latestTags in s.tagsDelivered ==>
              s.gui.latestTags in s.tagLog && s.gui.tags == s.tagLog[s.gui.latestTags].tags
  {
    forall v | v in s.delivered ensures v <= s.gui.latest && v in s.log && s.log[v].laneRead.Some? && 1 <= v {
      assert v in s.log && RecordOk(s, v);
    }
    forall v | v in s.tagsDelivered ensures v <= s.gui.latestTags && 1 <= v {
      assert v in s.tagLog && TagRecordOk(s, v);
    }
  }

  /** Across any step the shown versions only grow, and a list that keeps its version
      only loses clips that have expired. */
  lemma NeverMovesBack(s: State, e: Event)
    requires Inv(s) && Enabled(s, e)
    ensures var s' := Apply(s, e);
            && s.gui.latest <= s'.gui.latest && s.gui.latestTags <= s'.gui.latestTags
            && (s'.gui.latest == s.gui.latest ==>
                  Active(s'.gui.clips, s'.clock) == Active(s.gui.clips, s'.clock))
            && (s'.gui.latestTags == s.gui.latestTags ==> s'.gui.tags == s.gui.tags)
  {
    hide Inv, Active, Built, Loaded, Load, Merge, StoreContract;
    var s' := Apply(s, e);
    match e
    case DeliverPrune(_, ids) => PruneKeepsActive(s.gui, ids, s.clock);
    case Deliver(c, ids, digest) =>
      if s.calls[c].Ready? {
        DeliverShows(s, c, ids, digest);
        UndeliveredIsNotShown(s, c);
      }
    case DeliverTags(c) => UndeliveredTagsAreNotShown(s, c);
    case _ =>
  }

  lemma UndeliveredIsNotShown(s: State, c: CallId)
    requires Inv(s) && c in s.calls && s.calls[c].Ready?
    ensures s.calls[c].version != s.gui.latest
  {
    assert CallOk(s.log, s.delivered, c, s.calls[c]);
    assert RecordOk(s, s.calls[c].version);
  }

  lemma UndeliveredTagsAreNotShown(s: State, c: CallId)
    requires Inv(s) && c in s.calls && s.calls[c].TagsReady?
    ensures s.calls[c].version != s.gui.latestTags
  {
    assert TagCallOk(s.tagLog, s.tagsDelivered, c, s.calls[c]);
    assert TagRecordOk(s, s.calls[c].version);
  }

  // ----- Convergence

  /** The newest version was built from the rows and the lane as they are. */
  predicate Current(s: State) {
    && s.lastSnap in s.log && s.log[s.lastSnap].rows == s.rows && s.log[s.lastSnap].laneRead.Some?
    && Active(s.log[s.lastSnap].laneRead.value.lane, s.clock) == Active(s.lane, s.clock)
  }

  /** Once no call is in flight the window is at the last version drawn and shows what was built for it,
      whatever failed before; and that version is current if no failed call left its change unpublished. */
  lemma Converges(s: State)
    requires Inv(s) && s.calls == map[] && s.lastSnap > 0
    ensures s.lastSnap in s.log && s.gui.latest == s.lastSnap
    ensures var r := s.log[s.lastSnap];
            && r.laneRead.Some? && r.loadedAt <= r.laneRead.value.at <= s.clock
            && Active(s.gui.clips, s.clock) == Active(Built(r), s.clock)
    ensures !s.dirty ==> Current(s)
  {
    assert RecordOk(s, s.lastSnap);
    ShowsHighestDelivered(s);
    assert s.gui.latest in s.log && RecordOk(s, s.gui.latest);
    assert !exists c :: WillReadLane(s.calls, c);
  }

  // ----- Exactly when a failing call leaves the window behind

  /** One call, alone, whose job fails after changing the rows and tags. */
  function FailingCall(c: CallId, rows: seq<Clip>, tags: Tags): seq<Event> {
    [Begin(c, Mutate(false)), ReadLimit(c), FailJob(c, rows, tags)]
  }

  /** The same for a call that changed the lane first. */
  function FailingLaneCall(c: CallId, lane: seq<Clip>, t: Task, rows: seq<Clip>, tags: Tags): seq<Event> {
    [ChangeLane(c, lane, t), ReadLimit(c), FailJob(c, rows, tags)]
  }

  lemma ThreeSteps(s: State, e1: Event, e2: Event, e3: Event)
    requires Enabled(s, e1) && Enabled(Apply(s, e1), e2) && Enabled(Apply(Apply(s, e1), e2), e3)
    ensures ValidRun(s, [e1, e2, e3]) && Run(s, [e1, e2, e3]) == Apply(Apply(Apply(s, e1), e2), e3)
  {
    hide Apply, Enabled;
    var s1 := Apply(s, e1);
    var s2 := Apply(s1, e2);
    var s3 := Apply(s2, e3);
    assert [e1, e2, e3][1..] == [e2, e3] && [e2, e3][1..] == [e3] && [e3][1..] == [];
    assert ValidRun(s3, []) && Run(s3, []) == s3;
    assert ValidRun(s2, [e3]) && Run(s2, [e3]) == s3;
    assert ValidRun(s1, [e2, e3]) && Run(s1, [e2, e3]) == s3;
  }

  /** A failing call that starts from a current window leaves it behind exactly if its job changed the
      rows before it failed. */
  lemma FailedCallLeavesBehindIff(s: State, c: CallId, rows: seq<Clip>, tags: Tags)
    requires s.calls == map[] && Current(s) && PinnedFirst(rows)
    ensures var run := FailingCall(c, rows, tags);
            && ValidRun(s, run)
            && var s' := Run(s, run);
               && s'.calls == map[] && s'.gui == s.gui && s'.lastSnap == s.lastSnap && s'.clock == s.clock
               && s'.rows == rows && s'.lane == s.lane && (Current(s') <==> rows == s.rows)
  {
    var s1 := s.(calls := map[c := Pre(Mutate(false))]);
    hide Current, ValidRun, Run, PinnedFirst;
    assert Enabled(s, Begin(c, Mutate(false))) && Apply(s, Begin(c, Mutate(false))) == s1;
    ThenFails(s1, c, Mutate(false), rows, tags);
    ThreeSteps(s, Begin(c, Mutate(false)), ReadLimit(c), FailJob(c, rows, tags));
    SameRecord(s, Run(s, FailingCall(c, rows, tags)));
  }

  /** The last two steps of a failing call. */
  lemma ThenFails(s: State, c: CallId, t: Task, rows: seq<Clip>, tags: Tags)
    requires s.calls == map[c := Pre(t)] && StoreContract(s, t, rows, tags)
    ensures Enabled(s, ReadLimit(c)) && Enabled(Apply(s, ReadLimit(c)), FailJob(c, rows, tags))
    ensures var s' := Apply(Apply(s, ReadLimit(c)), FailJob(c, rows, tags));
            && s'.rows == rows && s'.calls == map[] && s'.lane == s.lane && s'.gui == s.gui
            && s'.log == s.log && s'.lastSnap == s.lastSnap && s'.clock == s.clock
  {
    hide PinnedFirst, TagsUnpublished;
    var s2 := s.(calls := map[c := Queued(t, s.limit)]);
    assert Apply(s, ReadLimit(c)) == s2;
    assert s2.calls - {c} == map[];
  }

  /** Whether a version stays current depends on the rows and the unexpired lane alone. */
  lemma SameRecord(s: State, s': State)
    requires Current(s) && s'.log == s.log && s'.lastSnap == s.lastSnap && s'.clock == s.clock
    ensures Current(s') <==> s'.rows == s.rows && Active(s'.lane, s.clock) == Active(s.lane, s.clock)
  {
    hide Active;
  }

  /** A failing call that changed the lane first leaves the window behind exactly if the rows changed or
      the unexpired clips of the lane did. */
  lemma FailedLaneCallLeavesBehindIff(s: State, c: CallId, lane: seq<Clip>, t: Task, rows: seq<Clip>, tags: Tags)
    requires s.calls == map[] && Current(s) && OwesLane(t) && StoreContract(s, t, rows, tags)
    ensures var run := FailingLaneCall(c, lane, t, rows, tags);
            && ValidRun(s, run)
            && var s' := Run(s, run);
               && s'.calls == map[] && s'.gui == s.gui && s'.lastSnap == s.lastSnap && s'.clock == s.clock
               && s'.rows == rows && s'.lane == lane
               && (Current(s') <==> rows == s.rows && Active(lane, s.clock) == Active(s.lane, s.clock))
  {
    var s1 := s.(lane := lane, calls := map[c := Pre(t)]);
    hide Current, ValidRun, Run, PinnedFirst, Active;
    assert Enabled(s, ChangeLane(c, lane, t)) && Apply(s, ChangeLane(c, lane, t)) == s1;
    ThenFails(s1, c, t, rows, tags);
    ThreeSteps(s, ChangeLane(c, lane, t), ReadLimit(c), FailJob(c, rows, tags));
    SameRecord(s, Run(s, FailingLaneCall(c, lane, t, rows, tags)));
  }

  lemma TagsConverge(s: State)
    requires Inv(s) && s.calls == map[] && !s.tagsDirty
    ensures s.gui.tags == s.tags
  {
    hide ListsInv;
    assert !exists c :: WillRefreshTags(s.calls, c);
    assert TagRecordOk(s, s.lastTags);
    assert s.gui.latestTags in s.tagLog && TagRecordOk(s, s.gui.latestTags);
  }

  // ----- What the built list is, in terms of the true rows and lane

  lemma SplicePrefix(rows: seq<Clip>, lane: seq<Clip>, limit: nat)
    requires 1 <= limit
    ensures var full := Splice(rows, lane);
            Truncate(Splice(rows[..Min(|rows|, limit)], lane), limit) == full[..Min(|full|, limit)]
  {
    hide PinnedEnd;
    var cut := rows[..Min(|rows|, limit)];
    if |rows| <= limit {
      assert cut == rows;
    } else {
      var k, p := PinnedEnd(cut), PinnedEnd(rows);
      assert forall i :: 0 <= i < limit ==> cut[i] == rows[i];
      if k < limit {
        BlockIsUnique(rows, k);
        assert Splice(cut, lane) + rows[limit..] == Splice(rows, lane);
      } else {
        assert forall i :: 0 <= i < limit ==> cut[i].pinned;
        assert p >= limit;
        assert Truncate(Splice(cut, lane), limit) == rows[..limit];
        assert Splice(rows, lane)[..limit] == rows[..limit];
      }
    }
  }

  /** Filtering pinned-first rows filters the pinned block and the rest separately. */
  lemma ActiveSplit(rows: seq<Clip>, now: int)
    requires PinnedFirst(rows)
    ensures var p := PinnedEnd(rows);
            && Active(rows, now) == Active(rows[..p], now) + Active(rows[p..], now)
            && PinnedEnd(Active(rows, now)) == |Active(rows[..p], now)|
  {
    hide Active, PinnedEnd;
    var p := PinnedEnd(rows);
    var top, bottom := rows[..p], rows[p..];
    assert rows == top + bottom;
    ActiveConcat(top, bottom, now);
    var topLive, bottomLive := Active(top, now), Active(bottom, now);
    assert forall c :: c in top ==> c.pinned;
    assert forall c :: c in bottom ==> !c.pinned by {
      assert p < |rows| ==> !rows[p].pinned;
    }
    hide PinnedFirst;
    assert forall i :: 0 <= i < |topLive| ==> topLive[i] in topLive;
    assert |bottomLive| > 0 ==> bottomLive[0] in bottomLive;
    BlockIsUnique(topLive + bottomLive, |topLive|);
  }

  /** Filtering the spliced list is splicing the filtered parts, when pinned rows come first. */
  lemma SpliceActive(rows: seq<Clip>, lane: seq<Clip>, laneThen: seq<Clip>, loadedAt: int, mergedAt: int, now: int)
    requires PinnedFirst(rows) && loadedAt <= now && mergedAt <= now
    requires Active(laneThen, now) == Active(lane, now)
    ensures Active(Splice(Active(rows, loadedAt), Active(laneThen, mergedAt)), now) == Active(Splice(rows, lane), now)
  {
    hide Active;
    var p := PinnedEnd(rows);
    var top, bottom := rows[..p], rows[p..];
    var v := Active(laneThen, mergedAt);
    var topLive, bottomLive := Active(top, loadedAt), Active(bottom, loadedAt);
    ActiveSplit(rows, loadedAt);
    assert Splice(Active(rows, loadedAt), v) == topLive + v + bottomLive;
    ActiveThree(topLive, v, bottomLive, now);
    ActiveThree(top, lane, bottom, now);
    ActiveTwice(top, loadedAt, now);
    ActiveTwice(bottom, loadedAt, now);
    ActiveTwice(laneThen, mergedAt, now);
  }

  lemma ActiveThree(a: seq<Clip>, b: seq<Clip>, c: seq<Clip>, now: int)
    ensures Active(a + b + c, now) == Active(a, now) + Active(b, now) + Active(c, now)
  {
    ActiveConcat(a + b, c, now);
    ActiveConcat(a, b, now);
  }

  /** What the newest version was built from, before any cut. */
  function Uncut(s: State): seq<Clip> {
    if s.lastSnap in s.log && s.log[s.lastSnap].laneRead.Some? then
      var r := s.log[s.lastSnap];
      Splice(Active(r.rows, r.loadedAt), Active(r.laneRead.value.lane, r.laneRead.value.at))
    else []
  }

  /** The true list: the rows with the lane spliced in, expired clips left out. */
  function Truth(s: State): seq<Clip> { Active(Splice(s.rows, s.lane), s.clock) }

  /** At a fixed limit a current window shows the unexpired part of the first `limit` entries of what it
      was built from; and without the cut that would be the true list. */
  lemma CurrentWindow(s: State, limit: nat)
    requires Inv(s) && s.calls == map[] && Current(s) && 1 <= limit <= MAX_UI_ROWS && LimitFixed(s, limit)
    ensures var full := Uncut(s);
            && Active(s.gui.clips, s.clock) == Active(full[..Min(|full|, limit)], s.clock)
            && Active(full, s.clock) == Truth(s)
            && Built(s.log[s.lastSnap]) == full[..Min(|full|, limit)]
  {
    assert RecordOk(s, s.lastSnap);
    Converges(s);
    var r := s.log[s.lastSnap];
    var m := r.laneRead.value;
    assert RecordLimit(r, limit);
    assert PinnedFirst(s.rows);
    hide Inv, LimitFixed, Active, PinnedFirst, Splice, Built;
    BuiltIsCut(r, limit);
    SpliceActive(s.rows, s.lane, m.lane, r.loadedAt, m.at, s.clock);
  }

  /** What is built at a fixed limit is the cut of the uncut merge. */
  lemma BuiltIsCut(r: Record, limit: nat)
    requires r.laneRead.Some? && RecordLimit(r, limit) && 1 <= limit <= MAX_UI_ROWS
    ensures var full := Splice(Active(r.rows, r.loadedAt), Active(r.laneRead.value.lane, r.laneRead.value.at));
            Built(r) == full[..Min(|full|, limit)]
  {
    hide Active, Splice;
    SplicePrefix(Active(r.rows, r.loadedAt), Active(r.laneRead.value.lane, r.laneRead.value.at), limit);
  }

  /** At a limit that stayed the same, the converged window shows an initial part of the true list, and
      all of it when rows and lane fit the limit. */
  lemma ConvergedListIsTruePrefix(s: State, limit: nat)
    requires Inv(s) && s.calls == map[] && Current(s)
    requires 1 <= limit <= MAX_UI_ROWS && LimitFixed(s, limit)
    ensures Active(s.gui.clips, s.clock) <= Truth(s)
    ensures |s.rows| + |s.log[s.lastSnap].laneRead.value.lane| <= limit ==> Active(s.gui.clips, s.clock) == Truth(s)
  {
    hide Inv, LimitFixed;
    CurrentWindow(s, limit);
    var full := Uncut(s);
    hide Active, Uncut, Truth, Built, Splice;
    UncutLength(s);
    ActivePrefix(full[..Min(|full|, limit)], full, s.clock);
    assert |full| <= limit ==> full[..Min(|full|, limit)] == full;
  }

  lemma UncutLength(s: State)
    requires Current(s)
    ensures |Uncut(s)| <= |s.rows| + |s.log[s.lastSnap].laneRead.value.lane|
  {
    hide Active;
  }

  /** What the user sees after a failing call, at a fixed limit that rows and lane fit: the window still
      shows the truth if and only if the call did not change it. */
  lemma FailedCallShowsTruthIff(s: State, c: CallId, rows: seq<Clip>, tags: Tags, limit: nat)
    requires Inv(s) && s.calls == map[] && Current(s) && PinnedFirst(rows)
    requires 1 <= limit <= MAX_UI_ROWS && LimitFixed(s, limit)
    requires |s.rows| + |s.log[s.lastSnap].laneRead.value.lane| <= limit
    ensures var run := FailingCall(c, rows, tags);
            && ValidRun(s, run)
            && var s' := Run(s, run);
               && Truth(s') == Active(Splice(rows, s.lane), s.clock)
               && (Active(s'.gui.clips, s'.clock) == Truth(s') <==> Truth(s') == Truth(s))
  {
    FailedCallLeavesBehindIff(s, c, rows, tags);
    ConvergedListIsTruePrefix(s, limit);
    hide Inv, ValidRun, Run, Current, Active, Splice, LimitFixed;
  }

  lemma FailedLaneCallShowsTruthIff(s: State, c: CallId, lane: seq<Clip>, t: Task, rows: seq<Clip>, tags: Tags, limit: nat)
    requires Inv(s) && s.calls == map[] && Current(s) && OwesLane(t) && StoreContract(s, t, rows, tags)
    requires 1 <= limit <= MAX_UI_ROWS && LimitFixed(s, limit)
    requires |s.rows| + |s.log[s.lastSnap].laneRead.value.lane| <= limit
    ensures var run := FailingLaneCall(c, lane, t, rows, tags);
            && ValidRun(s, run)
            && var s' := Run(s, run);
               && Truth(s') == Active(Splice(rows, lane), s.clock)
               && (Active(s'.gui.clips, s'.clock) == Truth(s') <==> Truth(s') == Truth(s))
  {
    FailedLaneCallLeavesBehindIff(s, c, lane, t, rows, tags);
    ConvergedListIsTruePrefix(s, limit);
    hide Inv, ValidRun, Run, Current, Active, Splice, LimitFixed;
  }

  /** Exactly when it shows the first `limit` entries of the true list: none of the entries it was built
      with has expired since, or every entry cut off then has. */
  lemma ConvergedListExact(s: State, limit: nat)
    requires Inv(s) && s.calls == map[] && Current(s)
    requires 1 <= limit <= MAX_UI_ROWS && LimitFixed(s, limit)
    ensures var full, truth := Uncut(s), Truth(s);
            Active(s.gui.clips, s.clock) == truth[..Min(|truth|, limit)] <==>
            || (forall x :: x in Built(s.log[s.lastSnap]) ==> !Expired(x, s.clock))
            || (forall x :: x in full[Min(|full|, limit)..] ==> Expired(x, s.clock))
  {
    hide Inv, LimitFixed;
    CurrentWindow(s, limit);
    hide Uncut, Truth, Built;
    CutThenFilter(Uncut(s), limit, s.clock);
  }

  /** Cutting before filtering gives the cut of the filtered list exactly in those two cases. */
  lemma CutThenFilter(full: seq<Clip>, limit: nat, now: int)
    ensures var k, live := Min(|full|, limit), Active(full, now);
            Active(full[..k], now) == live[..Min(|live|, limit)] <==>
            (forall x :: x in full[..k] ==> !Expired(x, now)) || (forall x :: x in full[k..] ==> Expired(x, now))
  {
    var k := Min(|full|, limit);
    var top, bottom := full[..k], full[k..];
    assert full == top + bottom;
    ActiveConcat(top, bottom, now);
    ActiveNoneExpired(top, now);
    ActiveAllExpired(bottom, now);
    var live, a, b := Active(full, now), Active(top, now), Active(bottom, now);
    assert |a| == k ==> a == top by {
      if |a| == k {
        ActiveOfFullLength(top, now);
      }
    }
    hide Active, Expired;
    assert live[..|a|] == a;
    if a == live[..Min(|live|, limit)] && b != [] {
      assert |a| == limit == k;
    }
  }

  // ----- Whole runs in which no list job fails

  ghost predicate Clean(s: State) { s.dirty ==> s.lastSnap == 0 }

  lemma {:induction false} CleanRun(s: State, events: seq<Event>)
    requires ValidRun(s, events) && Clean(s) && forall e :: e in events ==> !e.FailJob?
    ensures Clean(Run(s, events))
    decreases |events|
  {
    if events != [] {
      assert events[0] in events && forall e :: e in events[1..] ==> e in events;
      CleanStep(s, events[0]);
      CleanRun(Apply(s, events[0]), events[1..]);
    }
  }

  lemma CleanStep(s: State, e: Event)
    requires Enabled(s, e) && Clean(s) && !e.FailJob?
    ensures Clean(Apply(s, e))
  {
    hide Active, Loaded, Merge, Present, StoreContract;
  }

  /** Any number of threads, any interleaving, any delivery order: if no list job failed and at
      least one ran, then whenever nothing is in flight the window shows the list built from the
      final rows and the final lane. */
  lemma QuiescentWindowIsFinal(rows: seq<Clip>, tags: Tags, opening: seq<Clip>, limit: nat, clock: int, events: seq<Event>)
    requires PinnedFirst(rows)
    requires ValidRun(Initial(rows, tags, opening, limit, clock), events)
    requires forall e :: e in events ==> !e.FailJob?
    ensures var s := Run(Initial(rows, tags, opening, limit, clock), events);
            s.calls == map[] && s.lastSnap > 0 ==>
              && s.gui.latest == s.lastSnap && Current(s)
              && s.log[s.lastSnap].loadedAt <= s.log[s.lastSnap].laneRead.value.at <= s.clock
              && Active(s.gui.clips, s.clock) == Active(Built(s.log[s.lastSnap]), s.clock)
  {
    var s0 := Initial(rows, tags, opening, limit, clock);
    InitialInv(rows, tags, opening, limit, clock);
    hide Inv, Apply, Enabled;
    RunPreserves(s0, events);
    CleanRun(s0, events);
    var s := Run(s0, events);
    if s.calls == map[] && s.lastSnap > 0 {
      Converges(s);
    }
  }

  // ----- A limit nobody changes

  predicate RecordLimit(r: Record, limit: nat) {
    r.loadLimit == limit && (r.laneRead.Some? ==> r.laneRead.value.limit == limit)
  }

  predicate PhaseLimit(p: Phase, limit: nat) {
    (p.Queued? && !p.task.EditTags? ==> p.limit == limit) && (p.Ran? && p.mergeLimit.Some? ==> p.mergeLimit.value == limit)
  }

  ghost predicate LimitFixed(s: State, limit: nat) {
    && s.limit == limit
    && (forall v :: v in s.log ==> RecordLimit(s.log[v], limit))
    && (forall c :: c in s.calls ==> PhaseLimit(s.calls[c], limit))
  }

  lemma LimitStaysFixed(s: State, e: Event, limit: nat)
    requires LimitFixed(s, limit) && Enabled(s, e)
    requires e.SetLimit? ==> e.newLimit == limit
    requires e.BeginMemory? ==> Max(e.newLimit, 1) == limit
    ensures LimitFixed(Apply(s, e), limit)
  {
    var s' := Apply(s, e);
    hide Loaded, Merge, Present, StoreContract, Apply, Enabled, PhaseLimit, RecordLimit;
    forall c | c in s'.calls ensures PhaseLimit(s'.calls[c], limit) {
      PhaseLimitStays(s, e, limit, c);
    }
    forall v | v in s'.log ensures RecordLimit(s'.log[v], limit) {
      RecordLimitStays(s, e, limit, v);
    }
    GlobalLimitStays(s, e, limit);
  }

  lemma GlobalLimitStays(s: State, e: Event, limit: nat)
    requires s.limit == limit && Enabled(s, e) && (e.SetLimit? ==> e.newLimit == limit)
    ensures Apply(s, e).limit == limit
  {
    hide Load, Merge, Present, StoreContract;
  }

  lemma JobLimitStays(s: State, e: Event, limit: nat, c: CallId)
    requires e.RunJob? && Enabled(s, e) && c in Apply(s, e).calls && (c in s.calls ==> PhaseLimit(s.calls[c], limit))
    ensures PhaseLimit(Apply(s, e).calls[c], limit)
  {
    hide Load, StoreContract;
    assert Apply(s, e) == JobRan(s, e.c, e.newRows, e.newTags, e.visible);
    hide Apply;
  }

  lemma PhaseLimitStays(s: State, e: Event, limit: nat, c: CallId)
    requires s.limit == limit && (c in s.calls ==> PhaseLimit(s.calls[c], limit))
    requires Enabled(s, e) && c in Apply(s, e).calls
    requires e.BeginMemory? ==> Max(e.newLimit, 1) == limit
    ensures PhaseLimit(Apply(s, e).calls[c], limit)
  {
    hide Load, Merge, Present, StoreContract, TagsUnpublished;
    if e.RunJob? {
      JobLimitStays(s, e, limit, c);
      hide Apply, Enabled, PhaseLimit;
    }
  }

  lemma RecordLimitStays(s: State, e: Event, limit: nat, v: nat)
    requires LimitFixed(s, limit) && Enabled(s, e) && v in Apply(s, e).log
    ensures RecordLimit(Apply(s, e).log[v], limit)
  {
    hide Load, Merge, Present, StoreContract, TagsUnpublished;
    assert v in s.log ==> RecordLimit(s.log[v], limit);
    if !(e.RunJob? || e.MergeLane?) {
      LogStays(s, e);
      hide Apply, Enabled;
    } else {
      assert s.calls[e.c].Queued? || s.calls[e.c].Ran?;
      assert PhaseLimit(s.calls[e.c], limit);
    }
  }

  lemma LogStays(s: State, e: Event)
    requires Enabled(s, e) && !e.RunJob? && !e.MergeLane?
    ensures Apply(s, e).log == s.log
  {
    hide Load, Merge, Present, StoreContract, TagsUnpublished;
  }

  /** The limit is `limit`, and stays so through the event. */
  predicate KeepsLimit(e: Event, limit: nat) {
    (e.SetLimit? ==> e.newLimit == limit) && (e.BeginMemory? ==> Max(e.newLimit, 1) == limit)
  }

  lemma {:induction false} LimitFixedRun(s: State, events: seq<Event>, limit: nat)
    requires LimitFixed(s, limit) && ValidRun(s, events) && forall e :: e in events ==> KeepsLimit(e, limit)
    ensures LimitFixed(Run(s, events), limit)
    decreases |events|
  {
    if events != [] {
      assert events[0] in events && forall e :: e in events[1..] ==> e in events;
      LimitStaysFixed(s, events[0], limit);
      hide LimitFixed, Apply, Enabled;
      LimitFixedRun(Apply(s, events[0]), events[1..], limit);
    }
  }

  /** End to end, at a fixed limit: any threads, any interleaving, any delivery order. Once nothing
      is in flight, the window shows an initial part of the true list (the final rows with the final
      lane spliced in, expired clips left out), and all of it when rows and lane fit the limit. */
  lemma QuiescentWindowIsTruth(rows: seq<Clip>, tags: Tags, opening: seq<Clip>, limit: nat, clock: int, events: seq<Event>)
    requires PinnedFirst(rows) && 1 <= limit <= MAX_UI_ROWS
    requires ValidRun(Initial(rows, tags, opening, limit, clock), events)
    requires forall e :: e in events ==> !e.FailJob? && KeepsLimit(e, limit)
    ensures var s := Run(Initial(rows, tags, opening, limit, clock), events);
            s.calls == map[] && s.lastSnap > 0 ==>
              && Current(s) && Active(s.gui.clips, s.clock) <= Truth(s)
              && (|s.rows| + |s.log[s.lastSnap].laneRead.value.lane| <= limit ==> Active(s.gui.clips, s.clock) == Truth(s))
              && (Active(s.gui.clips, s.clock) == Truth(s)[..Min(|Truth(s)|, limit)] <==>
                  || (forall x :: x in Built(s.log[s.lastSnap]) ==> !Expired(x, s.clock))
                  || (forall x :: x in Uncut(s)[Min(|Uncut(s)|, limit)..] ==> Expired(x, s.clock)))
  {
    var s0 := Initial(rows, tags, opening, limit, clock);
    InitialInv(rows, tags, opening, limit, clock);
    assert LimitFixed(s0, limit) && Clean(s0);
    hide Inv, Apply, Enabled, LimitFixed;
    RunPreserves(s0, events);
    CleanRun(s0, events);
    LimitFixedRun(s0, events, limit);
    var s := Run(s0, events);
    if s.calls == map[] && s.lastSnap > 0 {
      Converges(s);
      hide Current, Uncut, Truth, Built, Active;
      ConvergedListIsTruePrefix(s, limit);
      ConvergedListExact(s, limit);
    }
  }

  // ----- The condition is needed

  const INSERTED: Clip := Clip(1, 1, false, None, false, 0)

  /** An insert whose row was written before a later part of the same job failed. */
  const FAILING_INSERT: seq<Event> := [Begin(0, Mutate(false)), ReadLimit(0), FailJob(0, [INSERTED], 0)]

  lemma FailingInsertRun(s0: State)
    requires s0 == Initial([], 0, [], 10, 0)
    ensures ValidRun(s0, FAILING_INSERT)
    ensures Run(s0, FAILING_INSERT) == s0.(rows := [INSERTED])
  {
    hide Active, Load, Merge, Present, LaneMerged, Delivered, TagsRan, TagsDeliveredStep, ValidRun, Run;
    var s1 := s0.(calls := map[0 := Pre(Mutate(false))]);
    var s2 := s0.(calls := map[0 := Queued(Mutate(false), 10)]);
    assert Apply(s0, Begin(0, Mutate(false))) == s1 && Apply(s1, ReadLimit(0)) == s2;
    assert s2.calls - {0} == map[];
    assert Apply(s2, FailJob(0, [INSERTED], 0)) == s0.(rows := [INSERTED]);
    ThreeSteps(s0, Begin(0, Mutate(false)), ReadLimit(0), FailJob(0, [INSERTED], 0));
  }

  /** A mutation that changes the rows and then fails leaves the window behind: no call is in
      flight, yet the inserted clip is not shown; `dirty` reports it. */
  lemma FailedMutationLeavesWindowBehind()
    ensures var s0 := Initial([], 0, [], 10, 0);
            && ValidRun(s0, FAILING_INSERT)
            && var s := Run(s0, FAILING_INSERT);
               s.calls == map[] && s.dirty && Active(s.gui.clips, s.clock) != Active(Splice(s.rows, s.lane), s.clock)
  {
    FailingInsertRun(Initial([], 0, [], 10, 0));
    assert INSERTED in Splice([INSERTED], []);
    ActiveKeeps(Splice([INSERTED], []), INSERTED.rest, INSERTED);
    assert Active([], 0) == [];
  }
}
