/** History publication: any number of threads submit jobs to the one store thread,
    merge the volatile lane after their job returned, and deliver an event at any
    later time. The version is drawn inside the serial job. */
module Publication {
  import opened Options
  import opened Clips
  import opened Presenter

  const MAX_UI_ROWS: nat := 10_000

  type CallId = nat

  // ----- Building a list

  /** Rows the store returns for the window: unexpired, in store order, cut to the limit. */
  function Load(rows: seq<Clip>, limit: nat, now: int): (r: seq<Clip>)
    ensures r <= Active(rows, now) && |r| == Min(|Active(rows, now)|, Min(limit, 10_000))
  {
    var live := Active(rows, now);
    live[..Min(|live|, Min(limit, MAX_UI_ROWS))]
  }

  /** Index of the first unpinned clip, or the length. */
  function PinnedEnd(clips: seq<Clip>): (n: nat)
    ensures n <= |clips|
    ensures forall i :: 0 <= i < n ==> clips[i].pinned
    ensures n < |clips| ==> !clips[n].pinned
  {
    if clips == [] || !clips[0].pinned then 0 else 1 + PinnedEnd(clips[1..])
  }

  /** The volatile clips go between the pinned block and the rest. */
  function Splice(persistent: seq<Clip>, volatile: seq<Clip>): seq<Clip> {
    var k := PinnedEnd(persistent);
    persistent[..k] + volatile + persistent[k..]
  }

  /** The first `k` clips are pinned, and no more of them in a row. */
  predicate PinnedBlock(clips: seq<Clip>, k: nat) {
    k <= |clips| && (forall i :: 0 <= i < k ==> clips[i].pinned) && (k < |clips| ==> !clips[k].pinned)
  }

  /** Position by position: the pinned block, then the lane, then the rest. */
  predicate LaneBehindPinned(merged: seq<Clip>, persistent: seq<Clip>, lane: seq<Clip>, k: nat) {
    && k <= |persistent| && |merged| <= |persistent| + |lane|
    && forall i :: 0 <= i < |merged| ==>
         merged[i] == if i < k then persistent[i] else if i < k + |lane| then lane[i - k] else persistent[i - |lane|]
  }

  lemma {:induction false} BlockIsUnique(clips: seq<Clip>, k: nat)
    requires PinnedBlock(clips, k)
    ensures PinnedEnd(clips) == k
  {
    if clips != [] && clips[0].pinned {
      assert clips[1..] == [] || clips[1..][0] == clips[1];
      BlockIsUnique(clips[1..], k - 1);
    }
  }

  /** The lane goes behind the pinned block and ahead of every other row, and nothing is lost. */
  lemma SpliceBehindPinned(persistent: seq<Clip>, lane: seq<Clip>, k: nat)
    requires PinnedBlock(persistent, k)
    ensures |Splice(persistent, lane)| == |persistent| + |lane| && LaneBehindPinned(Splice(persistent, lane), persistent, lane, k)
  {
    BlockIsUnique(persistent, k);
  }

  /** The merged list is that, cut to the limit but never to nothing. */
  lemma MergeBehindPinned(persistent: seq<Clip>, lane: seq<Clip>, limit: nat, now: int, k: nat)
    requires PinnedBlock(persistent, k)
    ensures var live, merged := Active(lane, now), Merge(persistent, lane, limit, now);
            && |merged| == Min(|persistent| + |live|, Max(limit, 1))
            && LaneBehindPinned(merged, persistent, live, k)
  {
    SpliceBehindPinned(persistent, Active(lane, now), k);
    hide Active, Splice;
  }

  function Truncate(clips: seq<Clip>, limit: nat): seq<Clip> {
    clips[..Min(|clips|, Max(limit, 1))]
  }

  function Merge(persistent: seq<Clip>, lane: seq<Clip>, limit: nat, now: int): seq<Clip> {
    Truncate(Splice(persistent, Active(lane, now)), limit)
  }

  /** The order every store listing has: pinned rows first. */
  predicate PinnedFirst(rows: seq<Clip>) {
    forall i, j :: 0 <= i < j < |rows| && rows[j].pinned ==> rows[i].pinned
  }

  // ----- State

  /** `ownsLane`: the caller changed the volatile lane before submitting. */
  datatype Task =
    | Mutate(ownsLane: bool)
    | Refresh
    | Memory
    | Maintain
    | EditTags

  predicate OwesLane(t: Task) { t.Refresh? || (t.Mutate? && t.ownsLane) }

  predicate RefreshesTags(t: Task) { t.Mutate? || t.Maintain? || t.EditTags? }

  /** Where one call stands. */
  datatype Phase =
    | Pruning
    | Pre(task: Task)
    | Queued(task: Task, limit: nat)
    | Ran(version: nat, clips: seq<Clip>, mergeLimit: Option<nat>, maintenance: bool, thenTags: bool)
    | Ready(version: nat, clips: seq<Clip>, maintenance: bool, thenTags: bool)
    | QuietReady
    | TagsQueued
    | TagsReady(version: nat, tags: Tags)

  datatype LaneRead = LaneRead(lane: seq<Clip>, at: int, limit: nat)

  /** What a version was built from, and by which call. */
  datatype Record = Record(owner: CallId, rows: seq<Clip>, loadedAt: int, loadLimit: nat, laneRead: Option<LaneRead>)

  datatype TagRecord = TagRecord(owner: CallId, tags: Tags)

  function Loaded(r: Record): seq<Clip> { Load(r.rows, r.loadLimit, r.loadedAt) }

  function Built(r: Record): seq<Clip> {
    match r.laneRead
    case None => Loaded(r)
    case Some(m) => Merge(Loaded(r), m.lane, m.limit, m.at)
  }

  /** `log`, `delivered`, `tagLog`, `dirty` and `tagsDirty` are history variables:
      no step's outcome depends on them. `dirty` says that some call failed after changing the
      rows or the lane and no snapshot job has run since (at the start, none has run at all). */
  datatype State = State(
    clock: int, rows: seq<Clip>, tags: Tags, lane: seq<Clip>, limit: nat,
    counter: nat, calls: map<CallId, Phase>, gui: Gui,
    opening: seq<Clip>,
    log: map<nat, Record>, lastSnap: nat, delivered: set<nat>, dirty: bool,
    tagLog: map<nat, TagRecord>, lastTags: nat, tagsDelivered: set<nat>, tagsDirty: bool)

  function Initial(rows: seq<Clip>, tags: Tags, opening: seq<Clip>, limit: nat, clock: int): State {
    State(clock, rows, tags, [], limit, 0, map[],
          Gui(0, 0, opening, 0, {}, 0, {}, None, 0),
          opening, map[], 0, {}, true, map[], 0, {}, true)
  }

  // ----- Steps

  datatype Event =
    | Tick(delta: nat)
    | SetLimit(newLimit: nat)
    | Begin(c: CallId, task: Task)
    | ChangeLane(c: CallId, newLane: seq<Clip>, task: Task)
    | BeginMemory(c: CallId, newLimit: nat)
    | BeginMaintenance(c: CallId)
    | BeginTags(c: CallId)
    | DeliverPrune(c: CallId, ids: set<ClipId>)
    | ReadLimit(c: CallId)
    | Refuse(c: CallId)
    | RunJob(c: CallId, newRows: seq<Clip>, newTags: Tags, visible: bool)
    | FailJob(c: CallId, newRows: seq<Clip>, newTags: Tags)
    | MergeLane(c: CallId)
    | Deliver(c: CallId, ids: set<ClipId>, digest: Digest)
    | RunTags(c: CallId)
    | FailTags(c: CallId)
    | DeliverTags(c: CallId)

  /** What the store may do to the rows and tags in a job of each kind; a maintenance
      pass that reports no visible change made none. */
  predicate StoreContract(s: State, t: Task, newRows: seq<Clip>, newTags: Tags) {
    && PinnedFirst(newRows)
    && (t.Refresh? || t.Memory? || t.EditTags? ==> newRows == s.rows)
    && (t.Refresh? || t.Memory? ==> newTags == s.tags)
  }

  predicate Enabled(s: State, e: Event) {
    match e
    case Tick(_) => true
    case SetLimit(_) => true
    case Begin(c, t) => c !in s.calls && (t == Mutate(false) || t == EditTags)
    case ChangeLane(c, _, t) => c !in s.calls && OwesLane(t)
    case BeginMemory(c, _) => c !in s.calls
    case BeginMaintenance(c) => c !in s.calls
    case BeginTags(c) => c !in s.calls
    case DeliverPrune(c, _) => c in s.calls && s.calls[c].Pruning?
    case ReadLimit(c) => c in s.calls && s.calls[c].Pre?
    case Refuse(c) => c in s.calls && s.calls[c].Queued? && (s.calls[c].task.Memory? || s.calls[c].task.Maintain?)
    case RunJob(c, rows, tags, visible) =>
      && c in s.calls && s.calls[c].Queued?
      && StoreContract(s, s.calls[c].task, rows, tags)
      && (s.calls[c].task.Maintain? && !visible ==> rows == s.rows)
    case FailJob(c, rows, tags) =>
      && c in s.calls && s.calls[c].Queued? && StoreContract(s, s.calls[c].task, rows, tags)
    case MergeLane(c) => c in s.calls && s.calls[c].Ran? && s.calls[c].version in s.log
    case Deliver(c, _, _) => c in s.calls && (s.calls[c].Ready? || s.calls[c].QuietReady?)
    case RunTags(c) => c in s.calls && s.calls[c].TagsQueued?
    case FailTags(c) => c in s.calls && s.calls[c].TagsQueued?
    case DeliverTags(c) => c in s.calls && s.calls[c].TagsReady?
  }

  function After(calls: map<CallId, Phase>, c: CallId, thenTags: bool): map<CallId, Phase> {
    if thenTags then calls[c := TagsQueued] else calls - {c}
  }

  /** The serial store job: change rows and tags, load, and draw the version. */
  function JobRan(s: State, c: CallId, newRows: seq<Clip>, newTags: Tags, visible: bool): State
    requires c in s.calls && s.calls[c].Queued?
  {
    var t, limit := s.calls[c].task, s.calls[c].limit;
    if t.EditTags? then
      s.(tags := newTags, calls := s.calls[c := TagsQueued])
    else if t.Maintain? && !visible then
      s.(rows := newRows, tags := newTags, calls := s.calls[c := QuietReady])
    else
      var v := s.counter + 1;
      var record := Record(c, newRows, s.clock, limit, None);
      s.(rows := newRows, tags := newTags, counter := v, lastSnap := v, dirty := false,
         log := s.log[v := record],
         calls := s.calls[c := Ran(v, Loaded(record), if t.Maintain? then None else Some(limit),
                                    t.Maintain?, RefreshesTags(t))])
  }

  predicate TagsUnpublished(s: State, tags: Tags) {
    s.lastTags !in s.tagLog || s.tagLog[s.lastTags].tags != tags
  }

  function JobFailed(s: State, c: CallId, newRows: seq<Clip>, newTags: Tags): State
    requires c in s.calls && s.calls[c].Queued?
  {
    s.(rows := newRows, tags := newTags, calls := s.calls - {c},
       dirty := s.dirty || newRows != s.rows || OwesLane(s.calls[c].task),
       tagsDirty := s.tagsDirty || TagsUnpublished(s, newTags))
  }

  function LaneMerged(s: State, c: CallId): State
    requires c in s.calls && s.calls[c].Ran? && s.calls[c].version in s.log
  {
    var p := s.calls[c];
    var limit := if p.mergeLimit.Some? then p.mergeLimit.value else s.limit;
    s.(log := s.log[p.version := s.log[p.version].(laneRead := Some(LaneRead(s.lane, s.clock, limit)))],
       calls := s.calls[c := Ready(p.version, Merge(p.clips, s.lane, limit, s.clock), p.maintenance, p.thenTags)])
  }

  function EventOf(p: Phase, ids: set<ClipId>, digest: Digest): HistoryEvent
    requires p.Ready? || p.QuietReady?
  {
    if p.QuietReady? then Maintenance(None, None, ids, digest)
    else if p.maintenance then Maintenance(Some(p.version), Some(p.clips), ids, digest)
    else Snapshot(p.version, p.clips, ids)
  }

  function Delivered(s: State, c: CallId, ids: set<ClipId>, digest: Digest): State
    requires c in s.calls && (s.calls[c].Ready? || s.calls[c].QuietReady?)
  {
    var p := s.calls[c];
    s.(gui := Present(s.gui, EventOf(p, ids, digest), s.clock),
       delivered := if p.Ready? then s.delivered + {p.version} else s.delivered,
       calls := After(s.calls, c, p.QuietReady? || p.thenTags))
  }

  function TagsRan(s: State, c: CallId): State
    requires c in s.calls && s.calls[c].TagsQueued?
  {
    var v := s.counter + 1;
    s.(counter := v, lastTags := v, tagLog := s.tagLog[v := TagRecord(c, s.tags)], tagsDirty := false,
       calls := s.calls[c := TagsReady(v, s.tags)])
  }

  function TagsDeliveredStep(s: State, c: CallId): State
    requires c in s.calls && s.calls[c].TagsReady?
  {
    var p := s.calls[c];
    s.(gui := Present(s.gui, TagsEvent(p.version, p.tags), s.clock),
       tagsDelivered := s.tagsDelivered + {p.version},
       calls := s.calls - {c})
  }

  function Apply(s: State, e: Event): State
    requires Enabled(s, e)
  {
    match e
    case Tick(d) => s.(clock := s.clock + d)
    case SetLimit(l) => s.(limit := l)
    case Begin(c, t) => s.(calls := s.calls[c := if t.EditTags? then Queued(t, 0) else Pre(t)])
    case ChangeLane(c, lane, t) => s.(lane := lane, calls := s.calls[c := Pre(t)])
    case BeginMemory(c, l) => s.(calls := s.calls[c := Queued(Memory, Max(l, 1))])
    case BeginMaintenance(c) => s.(lane := Active(s.lane, s.clock), calls := s.calls[c := Pruning])
    case BeginTags(c) => s.(calls := s.calls[c := TagsQueued])
    case DeliverPrune(c, ids) =>
      s.(gui := Present(s.gui, PruneExpired(ids), s.clock), calls := s.calls[c := Pre(Maintain)])
    case ReadLimit(c) => s.(calls := s.calls[c := Queued(s.calls[c].task, s.limit)])
    case Refuse(c) => s.(calls := s.calls - {c})
    case RunJob(c, rows, tags, visible) => JobRan(s, c, rows, tags, visible)
    case FailJob(c, rows, tags) => JobFailed(s, c, rows, tags)
    case MergeLane(c) => LaneMerged(s, c)
    case Deliver(c, ids, digest) => Delivered(s, c, ids, digest)
    case RunTags(c) => TagsRan(s, c)
    case FailTags(c) =>
      s.(calls := s.calls - {c}, tagsDirty := s.tagsDirty || TagsUnpublished(s, s.tags))
    case DeliverTags(c) => TagsDeliveredStep(s, c)
  }

  // ----- Invariant

  predicate HoldsVersion(calls: map<CallId, Phase>, c: CallId, v: nat) {
    c in calls && (calls[c].Ran? || calls[c].Ready?) && calls[c].version == v
  }

  predicate HoldsTags(calls: map<CallId, Phase>, c: CallId, v: nat) {
    c in calls && calls[c].TagsReady? && calls[c].version == v
  }

  predicate WillReadLane(calls: map<CallId, Phase>, c: CallId) {
    c in calls && (calls[c].Pre? || calls[c].Queued?) && OwesLane(calls[c].task)
  }

  predicate WillRefreshTags(calls: map<CallId, Phase>, c: CallId) {
    c in calls &&
    match calls[c]
    case Ran(_, _, _, _, thenTags) => thenTags
    case Ready(_, _, _, thenTags) => thenTags
    case QuietReady => true
    case TagsQueued => true
    case _ => false
  }

  /** A call holding a version carries exactly what was logged for it. */
  ghost predicate CallOk(log: map<nat, Record>, delivered: set<nat>, c: CallId, p: Phase) {
    && (p.Ran? ==>
          && p.version in log && log[p.version].owner == c && p.version !in delivered
          && log[p.version].laneRead.None? && p.clips == Loaded(log[p.version]))
    && (p.Ready? ==>
          && p.version in log && log[p.version].owner == c && p.version !in delivered
          && log[p.version].laneRead.Some? && p.clips == Built(log[p.version]))
  }

  ghost predicate CallsOk(s: State) {
    forall c :: c in s.calls ==> CallOk(s.log, s.delivered, c, s.calls[c])
  }

  /** A version still on its way is held by the call that drew it. */
  ghost predicate RecordOk(s: State, v: nat)
    requires v in s.log
  {
    var r := s.log[v];
    && 1 <= v <= s.lastSnap
    && r.loadedAt <= s.clock
    && (r.laneRead.Some? ==> r.loadedAt <= r.laneRead.value.at <= s.clock)
    && (if v in s.delivered then r.laneRead.Some? && v <= s.gui.latest
        else HoldsVersion(s.calls, r.owner, v))
  }

  ghost predicate LogOk(s: State) {
    && (forall v :: v in s.log ==> RecordOk(s, v))
    && s.delivered <= s.log.Keys
    && s.lastSnap <= s.counter && (s.lastSnap == 0 || s.lastSnap in s.log)
    && (s.gui.latest == 0 || s.gui.latest in s.delivered)
  }

  /** The list built for the version the window is at. */
  function Shown(s: State): seq<Clip> {
    if s.gui.latest in s.log then Built(s.log[s.gui.latest]) else s.opening
  }

  ghost predicate ShownOk(s: State) {
    Active(s.gui.clips, s.clock) == Active(Shown(s), s.clock)
  }

  /** The newest version has yet to read the lane, or read what the lane still is. */
  ghost predicate LaneCurrent(s: State) {
    s.lastSnap in s.log &&
    var m := s.log[s.lastSnap].laneRead;
    m.None? || Active(s.lane, s.clock) == Active(m.value.lane, s.clock)
  }

  ghost predicate Fresh(s: State) {
    !s.dirty ==>
      && s.lastSnap in s.log && s.log[s.lastSnap].rows == s.rows
      && (LaneCurrent(s) || exists c :: WillReadLane(s.calls, c))
  }

  ghost predicate TagCallOk(tagLog: map<nat, TagRecord>, delivered: set<nat>, c: CallId, p: Phase) {
    p.TagsReady? ==> p.version in tagLog && tagLog[p.version] == TagRecord(c, p.tags) && p.version !in delivered
  }

  ghost predicate TagRecordOk(s: State, v: nat)
    requires v in s.tagLog
  {
    && 1 <= v <= s.lastTags
    && (if v in s.tagsDelivered then v <= s.gui.latestTags else HoldsTags(s.calls, s.tagLog[v].owner, v))
  }

  ghost predicate TagsOk(s: State) {
    && (forall c :: c in s.calls ==> TagCallOk(s.tagLog, s.tagsDelivered, c, s.calls[c]))
    && (forall v :: v in s.tagLog ==> TagRecordOk(s, v))
    && s.tagsDelivered <= s.tagLog.Keys
    && s.lastTags <= s.counter && (s.lastTags == 0 || s.lastTags in s.tagLog)
    && (s.gui.latestTags == 0 || s.gui.latestTags in s.tagsDelivered)
    && (s.gui.latestTags in s.tagLog ==> s.gui.tags == s.tagLog[s.gui.latestTags].tags)
  }

  ghost predicate TagsFresh(s: State) {
    !s.tagsDirty ==> !TagsUnpublished(s, s.tags) || exists c :: WillRefreshTags(s.calls, c)
  }

  ghost predicate ListsInv(s: State) {
    CallsOk(s) && LogOk(s) && ShownOk(s) && Fresh(s) && PinnedFirst(s.rows)
  }

  ghost predicate TagsInv(s: State) {
    TagsOk(s) && TagsFresh(s)
  }

  ghost predicate Inv(s: State) {
    ListsInv(s) && TagsInv(s)
  }
}
