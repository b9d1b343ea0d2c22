/** The memory-only lane of the history: at most 32 clips, distinct in content, newest first,
    and the list of the last 256 distinct ids that ever entered it. */
module VolatileLane {
  import opened Options
  import opened Clips

  const MAX_VOLATILE_CLIPS: nat := 32
  const MAX_VOLATILE_ORIGINS: nat := 256
  const UNDO_WINDOW_MS: int := 5_000

  // ----- The two bounded lists

  function Without(ids: seq<ClipId>, id: ClipId): (r: seq<ClipId>)
    ensures forall x :: x in r <==> x in ids && x != id
    ensures id !in ids ==> r == ids
  {
    if ids == [] then []
    else if ids[0] == id then Without(ids[1..], id)
    else [ids[0]] + Without(ids[1..], id)
  }

  function Last<T>(s: seq<T>, n: nat): seq<T> {
    if |s| <= n then s else s[|s| - n..]
  }

  function PushOrigin(origins: seq<ClipId>, id: ClipId): seq<ClipId> {
    Last(Without(origins, id) + [id], MAX_VOLATILE_ORIGINS)
  }

  /** Clips that survive the insertion of content `hash` at time `now`. */
  function Retained(lane: seq<Clip>, hash: ContentHash, now: int): (r: seq<Clip>)
    ensures |r| <= |lane|
    ensures forall c :: c in r <==> c in lane && c.contentHash != hash && !Expired(c, now)
  {
    if lane == [] then []
    else (if lane[0].contentHash != hash && !Expired(lane[0], now) then [lane[0]] else []) + Retained(lane[1..], hash, now)
  }

  function PushClip(lane: seq<Clip>, clip: Clip, now: int): seq<Clip> {
    var all := [clip] + Retained(lane, clip.contentHash, now);
    all[..Min(|all|, MAX_VOLATILE_CLIPS)]
  }

  function WithoutClip(lane: seq<Clip>, id: ClipId): (r: seq<Clip>)
    ensures |r| <= |lane|
    ensures forall c :: c in r <==> c in lane && c.id != id
    ensures (|r| == |lane|) <==> (forall c :: c in lane ==> c.id != id)
    ensures |r| == |lane| ==> r == lane
  {
    if lane == [] then []
    else (if lane[0].id != id then [lane[0]] else []) + WithoutClip(lane[1..], id)
  }

  // ----- Runs

  datatype Op = Insert(clip: Clip, now: int) | Delete(id: ClipId) | Clear | Purge(now: int)

  datatype State = State(lane: seq<Clip>, origins: seq<ClipId>)

  function Step(s: State, op: Op): State {
    match op
    case Insert(clip, now) => State(PushClip(s.lane, clip, now), PushOrigin(s.origins, clip.id))
    case Delete(id) => s.(lane := WithoutClip(s.lane, id))
    case Clear => s.(lane := [])
    case Purge(now) => s.(lane := Active(s.lane, now))
  }

  function Replay(ops: seq<Op>): State {
    if ops == [] then State([], []) else Step(Replay(ops[..|ops| - 1]), ops[|ops| - 1])
  }

  /** Every clip ever inserted, in order. */
  function Inserted(ops: seq<Op>): seq<Clip> {
    if ops == [] then []
    else Inserted(ops[..|ops| - 1]) + (if ops[|ops| - 1].Insert? then [ops[|ops| - 1].clip] else [])
  }

  function Ids(clips: seq<Clip>): (r: seq<ClipId>)
    ensures |r| == |clips| && forall i :: 0 <= i < |clips| ==> r[i] == clips[i].id
  {
    seq(|clips|, i requires 0 <= i < |clips| => clips[i].id)
  }

  // ----- The lane: bounded, distinct, newest first

  ghost predicate DistinctContent(lane: seq<Clip>) {
    forall i, j :: 0 <= i < j < |lane| ==> lane[i].contentHash != lane[j].contentHash
  }

  /** `lane` lists some of `log`, latest first. */
  ghost predicate NewestFirst(lane: seq<Clip>, log: seq<Clip>) {
    lane == [] ||
    (log != [] && var rest := log[..|log| - 1];
      (lane[0] == log[|log| - 1] && NewestFirst(lane[1..], rest)) || NewestFirst(lane, rest))
  }

  /** `part` keeps some entries of `whole`, in order. */
  ghost predicate Thinned(part: seq<Clip>, whole: seq<Clip>) {
    part == [] || (whole != [] && ((part[0] == whole[0] && Thinned(part[1..], whole[1..])) || Thinned(part, whole[1..])))
  }

  lemma {:induction false} ThinnedSelf(s: seq<Clip>, n: nat)
    requires n <= |s|
    ensures Thinned(s[..n], s)
  {
    if n > 0 {
      ThinnedSelf(s[1..], n - 1);
      assert s[..n][1..] == s[1..][..n - 1];
    }
  }

  lemma {:induction false} ThinnedTail(part: seq<Clip>, whole: seq<Clip>)
    requires Thinned(part, whole) && part != []
    ensures Thinned(part[1..], whole)
  {
    if part[0] == whole[0] && Thinned(part[1..], whole[1..]) {
    } else {
      ThinnedTail(part, whole[1..]);
    }
  }

  lemma ThinnedCons(keep: bool, x: Clip, part: seq<Clip>, whole: seq<Clip>)
    requires Thinned(part, whole)
    ensures Thinned((if keep then [x] else []) + part, [x] + whole)
  {
    assert ([x] + whole)[1..] == whole;
    assert ([x] + part)[1..] == part;
    assert [] + part == part;
  }

  lemma {:induction false} RetainedThins(lane: seq<Clip>, hash: ContentHash, now: int)
    ensures Thinned(Retained(lane, hash, now), lane)
  {
    if lane != [] {
      RetainedThins(lane[1..], hash, now);
      ThinnedCons(lane[0].contentHash != hash && !Expired(lane[0], now), lane[0], Retained(lane[1..], hash, now), lane[1..]);
      assert lane == [lane[0]] + lane[1..];
    }
  }

  lemma {:induction false} DeleteThins(lane: seq<Clip>, id: ClipId)
    ensures Thinned(WithoutClip(lane, id), lane)
  {
    if lane != [] {
      DeleteThins(lane[1..], id);
      ThinnedCons(lane[0].id != id, lane[0], WithoutClip(lane[1..], id), lane[1..]);
      assert lane == [lane[0]] + lane[1..];
    }
  }

  lemma {:induction false} ActiveThins(lane: seq<Clip>, now: int)
    ensures Thinned(Active(lane, now), lane)
  {
    if lane != [] {
      ActiveThins(lane[1..], now);
      ThinnedCons(!Expired(lane[0], now), lane[0], Active(lane[1..], now), lane[1..]);
      assert lane == [lane[0]] + lane[1..];
    }
  }

  lemma {:induction false} ThinnedMembers(part: seq<Clip>, whole: seq<Clip>)
    requires Thinned(part, whole)
    ensures |part| <= |whole| && forall c :: c in part ==> c in whole
  {
    if part != [] {
      if part[0] == whole[0] && Thinned(part[1..], whole[1..]) {
        ThinnedMembers(part[1..], whole[1..]);
        assert part == [part[0]] + part[1..];
      } else {
        ThinnedMembers(part, whole[1..]);
      }
      assert whole == [whole[0]] + whole[1..];
    }
  }

  lemma {:induction false} ThinnedKeepsDistinct(part: seq<Clip>, whole: seq<Clip>)
    requires Thinned(part, whole) && DistinctContent(whole)
    ensures DistinctContent(part)
  {
    if part != [] {
      if part[0] == whole[0] && Thinned(part[1..], whole[1..]) {
        ThinnedKeepsDistinct(part[1..], whole[1..]);
        ThinnedMembers(part[1..], whole[1..]);
        forall j | 1 <= j < |part| ensures part[j].contentHash != whole[0].contentHash {
          assert part[j] == part[1..][j - 1] && part[j] in part[1..];
          var k :| 0 <= k < |whole[1..]| && whole[1..][k] == part[j];
          assert whole[k + 1] == part[j];
        }
        assert part == [part[0]] + part[1..];
      } else {
        ThinnedKeepsDistinct(part, whole[1..]);
      }
    }
  }

  lemma {:induction false} ThinnedKeepsOrder(part: seq<Clip>, whole: seq<Clip>, log: seq<Clip>)
    requires Thinned(part, whole) && NewestFirst(whole, log)
    ensures NewestFirst(part, log)
    decreases |log|, |whole|
  {
    if part != [] {
      var rest := log[..|log| - 1];
      if whole[0] == log[|log| - 1] && NewestFirst(whole[1..], rest) {
        if part[0] == whole[0] && Thinned(part[1..], whole[1..]) {
          ThinnedKeepsOrder(part[1..], whole[1..], rest);
        } else {
          ThinnedKeepsOrder(part, whole[1..], rest);
        }
      } else {
        ThinnedKeepsOrder(part, whole, rest);
      }
    }
  }

  ghost predicate LaneOk(s: State, log: seq<Clip>) {
    |s.lane| <= MAX_VOLATILE_CLIPS && DistinctContent(s.lane) && NewestFirst(s.lane, log)
  }

  lemma ThinningKeepsLane(lane: seq<Clip>, lane': seq<Clip>, log: seq<Clip>)
    requires |lane| <= MAX_VOLATILE_CLIPS && DistinctContent(lane) && NewestFirst(lane, log) && Thinned(lane', lane)
    ensures |lane'| <= MAX_VOLATILE_CLIPS && DistinctContent(lane') && NewestFirst(lane', log)
  {
    ThinnedMembers(lane', lane);
    ThinnedKeepsDistinct(lane', lane);
    ThinnedKeepsOrder(lane', lane, log);
  }

  lemma InsertKeepsLane(lane: seq<Clip>, clip: Clip, now: int, log: seq<Clip>)
    requires |lane| <= MAX_VOLATILE_CLIPS && DistinctContent(lane) && NewestFirst(lane, log)
    ensures var lane' := PushClip(lane, clip, now);
            && |lane'| <= MAX_VOLATILE_CLIPS && DistinctContent(lane') && NewestFirst(lane', log + [clip])
            && lane'[0] == clip
  {
    hide Thinned;
    var kept := Retained(lane, clip.contentHash, now);
    RetainedThins(lane, clip.contentHash, now);
    ThinnedKeepsDistinct(kept, lane);
    ThinnedKeepsOrder(kept, lane, log);
    hide Retained;
    var all := [clip] + kept;
    ConsDistinct(clip, kept);
    ConsNewest(clip, kept, log);
    hide DistinctContent, NewestFirst;
    ThinnedSelf(all, Min(|all|, MAX_VOLATILE_CLIPS));
    ThinnedKeepsDistinct(PushClip(lane, clip, now), all);
    ThinnedKeepsOrder(PushClip(lane, clip, now), all, log + [clip]);
  }

  lemma ConsDistinct(clip: Clip, kept: seq<Clip>)
    requires DistinctContent(kept) && forall c :: c in kept ==> c.contentHash != clip.contentHash
    ensures DistinctContent([clip] + kept)
  {
    assert forall j :: 0 <= j < |kept| ==> kept[j] in kept;
  }

  lemma ConsNewest(clip: Clip, kept: seq<Clip>, log: seq<Clip>)
    requires NewestFirst(kept, log)
    ensures NewestFirst([clip] + kept, log + [clip])
  {
    assert (log + [clip])[..|log|] == log && ([clip] + kept)[1..] == kept;
  }

  /** In every run the lane holds at most 32 clips, pairwise distinct in content, newest first. */
  lemma {:induction false} LaneAlwaysOk(ops: seq<Op>)
    ensures LaneOk(Replay(ops), Inserted(ops))
  {
    if ops != [] {
      var before, op := ops[..|ops| - 1], ops[|ops| - 1];
      LaneAlwaysOk(before);
      var s := Replay(before);
      match op {
        case Insert(clip, now) => InsertKeepsLane(s.lane, clip, now, Inserted(before));
        case Delete(id) =>
          DeleteThins(s.lane, id);
          ThinningKeepsLane(s.lane, WithoutClip(s.lane, id), Inserted(before));
        case Clear =>
        case Purge(now) =>
          ActiveThins(s.lane, now);
          ThinningKeepsLane(s.lane, Active(s.lane, now), Inserted(before));
      }
      assert Inserted(ops) == Inserted(before) + if op.Insert? then [op.clip] else [];
      if !op.Insert? { assert Inserted(ops) == Inserted(before); }
    }
  }

  /** An unexpired clip of other content. */
  predicate Survives(c: Clip, hash: ContentHash, now: int) { c.contentHash != hash && !Expired(c, now) }

  /** How many of the first `n` clips survive. */
  function SurvivorsBefore(lane: seq<Clip>, n: nat, hash: ContentHash, now: int): nat
    requires n <= |lane|
  {
    if n == 0 then 0 else SurvivorsBefore(lane, n - 1, hash, now) + (if Survives(lane[n - 1], hash, now) then 1 else 0)
  }

  lemma {:induction false} SurvivorsShift(lane: seq<Clip>, n: nat, hash: ContentHash, now: int)
    requires 1 <= n <= |lane|
    ensures SurvivorsBefore(lane, n, hash, now) ==
            (if Survives(lane[0], hash, now) then 1 else 0) + SurvivorsBefore(lane[1..], n - 1, hash, now)
    decreases n
  {
    if n > 1 {
      SurvivorsShift(lane, n - 1, hash, now);
      assert lane[1..][n - 2] == lane[n - 1];
    }
  }

  /** Each surviving clip moves to behind the survivors ahead of it; nothing else is retained. */
  lemma {:induction false} RetainedAt(lane: seq<Clip>, hash: ContentHash, now: int, i: nat)
    requires i < |lane| && Survives(lane[i], hash, now)
    ensures |Retained(lane, hash, now)| == SurvivorsBefore(lane, |lane|, hash, now)
    ensures SurvivorsBefore(lane, i, hash, now) < |Retained(lane, hash, now)|
    ensures Retained(lane, hash, now)[SurvivorsBefore(lane, i, hash, now)] == lane[i]
    decreases |lane|
  {
    SurvivorsShift(lane, |lane|, hash, now);
    RetainedSize(lane[1..], hash, now);
    if i > 0 {
      SurvivorsShift(lane, i, hash, now);
      RetainedAt(lane[1..], hash, now, i - 1);
    }
  }

  lemma {:induction false} RetainedSize(lane: seq<Clip>, hash: ContentHash, now: int)
    ensures |Retained(lane, hash, now)| == SurvivorsBefore(lane, |lane|, hash, now)
  {
    if lane != [] {
      RetainedSize(lane[1..], hash, now);
      SurvivorsShift(lane, |lane|, hash, now);
    }
  }

  /** An insertion puts the new clip first and keeps, in order, the unexpired clips of other content, as many
      as fit: a clip is pushed out exactly if 31 such clips are ahead of it. */
  lemma InsertKeepsNewest(lane: seq<Clip>, clip: Clip, now: int, i: nat)
    requires i < |lane| && Survives(lane[i], clip.contentHash, now)
    ensures var lane', k := PushClip(lane, clip, now), SurvivorsBefore(lane, i, clip.contentHash, now);
            && lane'[0] == clip && |lane'| == Min(1 + SurvivorsBefore(lane, |lane|, clip.contentHash, now), 32)
            && (k < 31 ==> k + 1 < |lane'| && lane'[k + 1] == lane[i])
  {
    RetainedAt(lane, clip.contentHash, now, i);
    hide Retained;
  }

  // ----- The origins: the last 256 distinct ids, by latest insertion

  /** The distinct ids of `log`, in the order of their latest occurrence. */
  function LatestOrder(log: seq<ClipId>): seq<ClipId> {
    if log == [] then [] else Without(LatestOrder(log[..|log| - 1]), log[|log| - 1]) + [log[|log| - 1]]
  }

  function LastIndex(log: seq<ClipId>, id: ClipId): (i: nat)
    requires id in log
    ensures i < |log| && log[i] == id && id !in log[i + 1..]
  {
    if log[|log| - 1] == id then |log| - 1
    else
      assert log == log[..|log| - 1] + [log[|log| - 1]];
      var i := LastIndex(log[..|log| - 1], id);
      assert log[i + 1..] == log[..|log| - 1][i + 1..] + [log[|log| - 1]];
      i
  }

  function Members(s: seq<ClipId>): set<ClipId> { set x | x in s }

  ghost predicate Distinct(s: seq<ClipId>) {
    forall i, j :: 0 <= i < j < |s| ==> s[i] != s[j]
  }

  lemma {:induction false} WithoutSplit(a: seq<ClipId>, b: seq<ClipId>, id: ClipId)
    ensures Without(a + b, id) == Without(a, id) + Without(b, id)
  {
    if a == [] {
      assert a + b == b;
    } else {
      assert (a + b)[1..] == a[1..] + b;
      WithoutSplit(a[1..], b, id);
    }
  }

  lemma HeadNotInTail(s: seq<ClipId>)
    requires Distinct(s) && s != []
    ensures s[0] !in s[1..]
  {
  }

  lemma PrependDistinct(x: ClipId, s: seq<ClipId>)
    requires Distinct(s) && x !in s
    ensures Distinct([x] + s)
  {
  }

  lemma {:induction false} WithoutDistinct(s: seq<ClipId>, id: ClipId)
    requires Distinct(s)
    ensures Distinct(Without(s, id)) && |Without(s, id)| == |s| - (if id in s then 1 else 0)
  {
    if s != [] {
      assert Distinct(s[1..]);
      WithoutDistinct(s[1..], id);
      HeadNotInTail(s);
      assert s == [s[0]] + s[1..];
      var r := Without(s[1..], id);
      assert s[0] !in r;
      PrependDistinct(s[0], r);
    }
  }

  lemma {:induction false} LatestOrderDistinct(log: seq<ClipId>)
    ensures Distinct(LatestOrder(log))
    ensures forall x :: x in LatestOrder(log) <==> x in log
  {
    if log != [] {
      var before, x := log[..|log| - 1], log[|log| - 1];
      LatestOrderDistinct(before);
      WithoutDistinct(LatestOrder(before), x);
      var r := Without(LatestOrder(before), x);
      assert forall j :: 0 <= j < |r| ==> r[j] in r;
      assert log == before + [x];
    }
  }

  lemma WithoutAbsent(ids: seq<ClipId>, id: ClipId)
    requires id !in ids
    ensures Without(ids, id) == ids
  {
  }

  /** Dropping the overflow at every push is dropping it once at the end. */
  lemma PushOfLast(order: seq<ClipId>, id: ClipId)
    requires Distinct(order)
    ensures PushOrigin(Last(order, MAX_VOLATILE_ORIGINS), id) == Last(Without(order, id) + [id], MAX_VOLATILE_ORIGINS)
  {
    hide Without;
    var n := MAX_VOLATILE_ORIGINS;
    if |order| > n {
      var head, tail := order[..|order| - n], order[|order| - n..];
      assert order == head + tail;
      WithoutSplit(head, tail, id);
      WithoutDistinct(head, id);
      WithoutDistinct(tail, id);
      if id in tail {
        WithoutAbsent(head, id);
        assert Without(order, id) + [id] == head + (Without(tail, id) + [id]);
      } else {
        WithoutAbsent(tail, id);
        assert Without(order, id) + [id] == Without(head, id) + (tail + [id]);
      }
    }
  }

  lemma LatestOrderSnoc(log: seq<ClipId>, id: ClipId)
    ensures LatestOrder(log + [id]) == Without(LatestOrder(log), id) + [id]
  {
    assert (log + [id])[..|log|] == log;
  }

  lemma OriginsStep(ops: seq<Op>)
    requires ops != []
    ensures var before, op := ops[..|ops| - 1], ops[|ops| - 1];
            && Replay(ops).origins == (if op.Insert? then PushOrigin(Replay(before).origins, op.clip.id) else Replay(before).origins)
            && Ids(Inserted(ops)) == Ids(Inserted(before)) + (if op.Insert? then [op.clip.id] else [])
  {
    hide PushOrigin, PushClip;
  }

  /** In every run the origin list is the last 256 distinct ids in order of latest insertion. */
  lemma {:induction false} OriginsExact(ops: seq<Op>)
    ensures Replay(ops).origins == Last(LatestOrder(Ids(Inserted(ops))), MAX_VOLATILE_ORIGINS)
  {
    if ops != [] {
      var before, op := ops[..|ops| - 1], ops[|ops| - 1];
      hide LatestOrder, Without, Last, PushOrigin, Replay, Inserted, Ids;
      OriginsExact(before);
      OriginsStep(ops);
      if op.Insert? {
        var log := Ids(Inserted(before));
        LatestOrderDistinct(log);
        PushOfLast(LatestOrder(log), op.clip.id);
        LatestOrderSnoc(log, op.clip.id);
      } else {
        assert Ids(Inserted(before)) + [] == Ids(Inserted(before));
      }
    }
  }

  /** Moving `x` to the end leaves `order[j]` followed by what followed it, and `x`. */
  lemma MovedToEnd(order: seq<ClipId>, j: nat, x: ClipId) returns (i: nat)
    requires j < |order| && order[j] != x
    ensures var moved := Without(order, x) + [x];
            i < |moved| && moved[i] == order[j] && Members(moved[i + 1..]) == Members(order[j + 1..]) + {x}
  {
    assert order == order[..j] + [order[j]] + order[j + 1..];
    WithoutAround(order[..j], order[j], order[j + 1..], x);
    var left, right := Without(order[..j], x), Without(order[j + 1..], x);
    hide Without;
    var moved := Without(order, x) + [x];
    assert moved == left + [order[j]] + (right + [x]);
    i := |left|;
    assert moved[i + 1..] == right + [x];
  }

  lemma SamePlace(s: seq<ClipId>, i: nat, j: nat)
    requires Distinct(s) && i < |s| && j < |s| && s[i] == s[j]
    ensures i == j
  {
  }

  lemma LastIndexAppend(before: seq<ClipId>, x: ClipId, id: ClipId)
    requires id != x && id in before
    ensures LastIndex(before + [x], id) == LastIndex(before, id)
    ensures (before + [x])[LastIndex(before, id) + 1..] == before[LastIndex(before, id) + 1..] + [x]
  {
    assert (before + [x])[..|before|] == before;
  }

  /** In the latest-insertion order, an id is followed by exactly the ids inserted after its latest insertion. */
  lemma {:induction false} FollowedByLater(log: seq<ClipId>, i: nat)
    requires i < |LatestOrder(log)|
    ensures LatestOrder(log)[i] in log
    ensures Members(LatestOrder(log)[i + 1..]) == Members(log[LastIndex(log, LatestOrder(log)[i]) + 1..])
    decreases |log|
  {
    LatestOrderDistinct(log);
    var order := LatestOrder(log);
    var id := order[i];
    assert id in order;
    var before, x := log[..|log| - 1], log[|log| - 1];
    assert log == before + [x];
    var previous := LatestOrder(before);
    LatestOrderSnoc(before, x);
    if id == x {
      hide LatestOrder, Without;
      SamePlace(order, i, |order| - 1);
      assert LastIndex(log, id) == |log| - 1;
      assert order[i + 1..] == [] && log[|log|..] == [];
    } else {
      LatestOrderDistinct(before);
      assert id in before;
      hide LatestOrder, Without, LastIndex, Members, Distinct;
      var j := IndexIn(previous, id);
      FollowedByLater(before, j);
      LastIndexAppend(before, x, id);
      MembersSnoc(before[LastIndex(before, id) + 1..], x);
      var k := MovedToEnd(previous, j, x);
      SamePlace(order, i, k);
    }
  }

  lemma MembersSnoc(s: seq<ClipId>, x: ClipId)
    ensures Members(s + [x]) == Members(s) + {x}
  {
  }

  lemma WithoutAround(a: seq<ClipId>, id: ClipId, b: seq<ClipId>, x: ClipId)
    requires id != x
    ensures Without(a + [id] + b, x) == Without(a, x) + [id] + Without(b, x)
  {
    WithoutSplit(a + [id], b, x);
    WithoutSplit(a, [id], x);
    assert Without([id], x) == [id];
  }

  lemma {:induction false} DistinctCount(s: seq<ClipId>)
    requires Distinct(s)
    ensures |Members(s)| == |s|
  {
    if s != [] {
      DistinctCount(s[1..]);
      assert forall x :: x in s[1..] ==> x != s[0];
      assert Members(s) == {s[0]} + Members(s[1..]);
    }
  }

  lemma InLastIff(s: seq<ClipId>, i: nat, n: nat)
    requires Distinct(s) && i < |s|
    ensures s[i] in Last(s, n) <==> |s| - 1 - i < n
  {
    var tail := Last(s, n);
    var off := |s| - |tail|;
    assert forall j :: 0 <= j < |tail| ==> tail[j] == s[j + off];
    if i >= off {
      assert tail[i - off] == s[i];
    }
  }

  /** An id counts as memory-only exactly when fewer than 256 other ids entered the lane after its
      latest insertion; being in the lane is neither needed nor enough. */
  lemma MemoryOnlyIff(ops: seq<Op>, id: ClipId)
    ensures var log := Ids(Inserted(ops));
            id in Replay(ops).origins <==>
            id in log && |Members(log[LastIndex(log, id) + 1..])| < MAX_VOLATILE_ORIGINS
  {
    var log := Ids(Inserted(ops));
    var order := LatestOrder(log);
    OriginsExact(ops);
    LatestOrderDistinct(log);
    hide LatestOrder, Replay, Inserted;
    if id in log {
      var i := IndexIn(order, id);
      FollowedByLater(log, i);
      DistinctCount(order[i + 1..]);
      InLastIff(order, i, MAX_VOLATILE_ORIGINS);
    } else {
      assert id !in order;
    }
  }

  lemma IndexIn(s: seq<ClipId>, id: ClipId) returns (i: nat)
    requires id in s
    ensures i < |s| && s[i] == id
  {
    i :| 0 <= i < |s| && s[i] == id;
  }

  // ----- The lane is not always within the origins

  function Plain(id: ClipId, hash: ContentHash): Clip { Clip(id, hash, false, None, false, 0) }

  /** One clip, then `n` re-inserts of one other content under fresh ids. */
  function Crowd(n: nat): seq<Op> {
    if n == 0 then [Insert(Plain(0, 0), 0)] else Crowd(n - 1) + [Insert(Plain(n, 1), 0)]
  }

  lemma ReplayOne(ops: seq<Op>, op: Op)
    ensures Replay(ops + [op]) == Step(Replay(ops), op)
    ensures op.Insert? ==> Inserted(ops + [op]) == Inserted(ops) + [op.clip]
  {
    assert (ops + [op])[..|ops|] == ops;
  }

  lemma SecondContentReplaced(n: nat)
    requires n > 0
    ensures PushClip([Plain(0, 0)], Plain(n, 1), 0) == [Plain(n, 1), Plain(0, 0)]
    ensures PushClip([Plain(n - 1, 1), Plain(0, 0)], Plain(n, 1), 0) == [Plain(n, 1), Plain(0, 0)]
  {
    var first := [Plain(0, 0)];
    assert Retained(first, 1, 0) == first;
    assert [Plain(n - 1, 1), Plain(0, 0)][1..] == first;
  }

  lemma {:induction false} CrowdLane(n: nat)
    ensures Replay(Crowd(n)).lane == if n == 0 then [Plain(0, 0)] else [Plain(n, 1), Plain(0, 0)]
  {
    hide PushOrigin, PushClip, Inserted;
    if n == 0 {
      ReplayOne([], Crowd(0)[0]);
      assert [] + [Crowd(0)[0]] == Crowd(0);
      assert PushClip([], Plain(0, 0), 0) == [Plain(0, 0)] by { PushFirst(); }
    } else {
      CrowdLane(n - 1);
      hide Replay;
      ReplayOne(Crowd(n - 1), Insert(Plain(n, 1), 0));
      SecondContentReplaced(n);
    }
  }

  lemma PushFirst()
    ensures PushClip([], Plain(0, 0), 0) == [Plain(0, 0)]
  {
  }

  lemma CrowdStart()
    ensures Inserted(Crowd(0)) == [Plain(0, 0)]
  {
    assert Inserted([]) == [];
    ReplayOne([], Insert(Plain(0, 0), 0));
    assert [] + [Insert(Plain(0, 0), 0)] == Crowd(0);
  }

  lemma {:induction false} CrowdIds(n: nat)
    ensures |Inserted(Crowd(n))| == n + 1
    ensures forall i :: 0 <= i <= n ==> Inserted(Crowd(n))[i].id == i
  {
    hide Inserted, Replay, Step;
    if n == 0 {
      CrowdStart();
    } else {
      CrowdIds(n - 1);
      ReplayOne(Crowd(n - 1), Insert(Plain(n, 1), 0));
      hide Crowd;
    }
  }

  /** After 256 re-inserts the first clip is still in the lane, but no longer an origin. */
  lemma LaneClipWithoutOrigin(n: nat)
    requires n >= MAX_VOLATILE_ORIGINS
    ensures var s := Replay(Crowd(n));
            Plain(0, 0) in s.lane && 0 !in s.origins
  {
    hide Replay, Inserted, Crowd;
    CrowdLane(n);
    CrowdIds(n);
    MemoryOnlyIff(Crowd(n), 0);
    var log := Ids(Inserted(Crowd(n)));
    assert log[0] == 0;
    FirstOnly(log);
    DistinctCount(log[1..]);
  }

  lemma FirstOnly(log: seq<ClipId>)
    requires log != [] && forall i :: 0 <= i < |log| ==> log[i] == i
    ensures LastIndex(log, log[0]) == 0 && Distinct(log[1..])
  {
    assert log[LastIndex(log, log[0])] == LastIndex(log, log[0]);
  }

  // ----- The object

  datatype Route = ToLane | ToStore | Unavailable

  /** The mutex-held fields of the history handle. */
  class LaneHolder {
    var volatile: seq<Clip>
    var origins: seq<ClipId>
    var deletedOriginal: Option<(Clip, int)>
    var stored: seq<Clip>

    function View(): State
      reads this
    {
      State(volatile, origins)
    }

    constructor ()
      ensures View() == Replay([]) && deletedOriginal == None && stored == []
    {
      volatile, origins, deletedOriginal, stored := [], [], None, [];
    }

    /** The first locked section of `insert_volatile`. */
    method RememberOrigin(id: ClipId)
      modifies this`origins
      ensures origins == PushOrigin(old(origins), id) && id in origins
    {
      origins := Without(origins, id);
      origins := origins + [id];
      ghost var grown := origins;
      assert grown[|grown| - 1] == id;
      hide Without;
      while |origins| > MAX_VOLATILE_ORIGINS
        invariant |origins| >= Min(|grown|, MAX_VOLATILE_ORIGINS)
        invariant |origins| <= |grown| && origins == grown[|grown| - |origins|..]
      {
        origins := origins[1..];
      }
      assert origins[|origins| - 1] == id;
    }

    /** The second one. */
    method PushNewest(clip: Clip, now: int)
      modifies this`volatile
      ensures volatile == PushClip(old(volatile), clip, now) && volatile != [] && volatile[0] == clip
    {
      volatile := Retained(volatile, clip.contentHash, now);
      volatile := [clip] + volatile;
      if |volatile| > MAX_VOLATILE_CLIPS {
        volatile := volatile[..MAX_VOLATILE_CLIPS];
      }
    }

    method InsertVolatile(clip: Clip, now: int)
      modifies this
      ensures View() == Step(old(View()), Insert(clip, now))
      ensures stored == old(stored) && deletedOriginal == old(deletedOriginal)
      ensures volatile != [] && volatile[0] == clip && clip.id in origins
    {
      RememberOrigin(clip.id);
      PushNewest(clip, now);
    }

    method IsMemoryOnly(id: ClipId) returns (r: bool)
      ensures r <==> id in origins
    {
      r := id in origins;
    }

    /** The lane part of `delete`; the store is asked only when nothing was removed here. */
    method DeleteVolatile(id: ClipId) returns (removed: bool)
      modifies this`volatile
      ensures View() == Step(old(View()), Delete(id))
      ensures removed <==> exists c :: c in old(volatile) && c.id == id
    {
      var previousLen := |volatile|;
      volatile := WithoutClip(volatile, id);
      removed := |volatile| != previousLen;
    }

    method RememberDeleted(original: Option<Clip>, now: int)
      modifies this`deletedOriginal
      ensures deletedOriginal == if original.Some? then Some((original.value, now)) else None
    {
      deletedOriginal := if original.Some? then Some((original.value, now)) else None;
    }

    method ClearLane()
      modifies this
      ensures View() == Step(old(View()), Clear) && deletedOriginal == None && stored == old(stored)
      ensures volatile == [] && origins == old(origins)
    {
      deletedOriginal := None;
      volatile := [];
    }

    method PurgeExpired(now: int) returns (purged: nat)
      modifies this`volatile
      ensures View() == Step(old(View()), Purge(now)) && purged == |old(volatile)| - |volatile|
      ensures purged == 0 <==> forall c :: c in old(volatile) ==> !Expired(c, now)
    {
      ActiveNoneExpired(volatile, now);
      var previousLen := |volatile|;
      ghost var was := volatile;
      volatile := Active(volatile, now);
      purged := previousLen - |volatile|;
      if purged == 0 {
        ActiveThins(was, now);
        ThinnedSameLength(volatile, was);
      }
    }

    /** Undo: the saved original wins within five seconds; an id that is memory-only goes back to
        the lane and never to the store, every other id to the store and never to the lane. */
    method Restore(clip: Clip, now: int) returns (route: Route)
      modifies this
      ensures var undo := old(deletedOriginal);
              var fromUndo := undo.Some? && undo.value.0.id == clip.id && now - undo.value.1 <= UNDO_WINDOW_MS;
              var restored := if fromUndo then undo.value.0 else clip;
              && (route.Unavailable? <==> !fromUndo && clip.spilled)
              && (route.ToLane? <==> !route.Unavailable? && clip.id in old(origins))
              && View() == (if route.ToLane? then Step(old(View()), Insert(restored, now)) else old(View()))
              && stored == old(stored) + (if route.ToStore? then [restored] else [])
              && deletedOriginal == if fromUndo then None else undo
    {
      var restored := clip;
      if deletedOriginal.Some? && deletedOriginal.value.0.id == clip.id && now - deletedOriginal.value.1 <= UNDO_WINDOW_MS {
        restored := deletedOriginal.value.0;
        deletedOriginal := None;
      } else if clip.spilled {
        return Unavailable;
      }
      var memoryOnly := IsMemoryOnly(restored.id);
      if memoryOnly {
        InsertVolatile(restored, now);
        route := ToLane;
      } else {
        stored := stored + [restored];
        route := ToStore;
      }
    }
  }

  lemma {:induction false} ThinnedSameLength(part: seq<Clip>, whole: seq<Clip>)
    requires Thinned(part, whole) && |part| == |whole|
    ensures part == whole
  {
    if part != [] {
      if part[0] == whole[0] && Thinned(part[1..], whole[1..]) {
        ThinnedSameLength(part[1..], whole[1..]);
        assert part == [part[0]] + part[1..] && whole == [whole[0]] + whole[1..];
      } else {
        ThinnedMembers(part, whole[1..]);
      }
    }
  }
}
