/** The adapter that applies history events to the window state. Events arrive in
    any order; lists and tags are gated by the version drawn inside the store job. */
module Presenter {
  import opened Options
  import opened Clips

  type Tags = nat
  type Digest = nat

  const U64_SIZE: nat := 0x1_0000_0000_0000_0000

  datatype HistoryEvent =
    | TagsEvent(version: nat, tags: Tags)
    | Snapshot(version: nat, clips: seq<Clip>, memoryOnly: set<ClipId>)
    | Maintenance(maybeVersion: Option<nat>, maybeClips: Option<seq<Clip>>, memoryOnly: set<ClipId>, digest: Digest)
    | Protection(id: ClipId, isProtected: bool)
    | PruneExpired(memoryOnly: set<ClipId>)

  datatype Gui = Gui(
    latest: nat, latestTags: nat,
    clips: seq<Clip>, tags: Tags, memoryOnly: set<ClipId>, digest: Digest,
    sessionProtected: set<ClipId>, search: Option<seq<Clip>>, revision: nat)

  /** The version that gates an event's clip list, if it has one. */
  function ListVersion(event: HistoryEvent): Option<nat> {
    match event
    case Snapshot(v, _, _) => Some(v)
    case Maintenance(v, _, _, _) => v
    case _ => None
  }

  function Bump(revision: nat): nat { (revision + 1) % U64_SIZE }

  function SetClips(g: Gui, clips: seq<Clip>): Gui {
    g.(search := None, clips := clips, revision := Bump(g.revision))
  }

  predicate AnyExpired(clips: seq<Clip>, now: int) {
    exists c :: c in clips && Expired(c, now)
  }

  function Prune(g: Gui, memoryOnly: set<ClipId>, now: int): Gui {
    var g1 := if g.search.Some? && AnyExpired(g.search.value, now)
              then g.(search := None, revision := Bump(g.revision)) else g;
    var g2 := if AnyExpired(g1.clips, now) then SetClips(g1, Active(g1.clips, now)) else g1;
    g2.(memoryOnly := memoryOnly)
  }

  function Present(g: Gui, event: HistoryEvent, now: int): Gui {
    var gate := ListVersion(event);
    if gate.Some? && gate.value < g.latest then g
    else
      var g := if gate.Some? then g.(latest := gate.value) else g;
      match event
      case TagsEvent(v, tags) =>
        if v < g.latestTags then g
        else if g.tags == tags then g.(latestTags := v)
        else g.(latestTags := v, tags := tags, revision := Bump(g.revision))
      case Snapshot(_, clips, ids) =>
        SetClips(g, Active(clips, now)).(memoryOnly := ids)
      case Maintenance(_, clips, ids, digest) =>
        (if clips.Some? then SetClips(g, Active(clips.value, now)) else g).(memoryOnly := ids, digest := digest)
      case Protection(id, isProtected) =>
        g.(sessionProtected := if isProtected then g.sessionProtected + {id} else g.sessionProtected - {id},
           revision := Bump(g.revision))
      case PruneExpired(ids) => Prune(g, ids, now)
  }

  /** The closure's captured counters and the state it locks. */
  class Adapter {
    var latest: nat
    var latestTags: nat
    var clips: seq<Clip>
    var tags: Tags
    var memoryOnly: set<ClipId>
    var digest: Digest
    var sessionProtected: set<ClipId>
    var search: Option<seq<Clip>>
    var revision: nat

    function View(): Gui
      reads this
    {
      Gui(latest, latestTags, clips, tags, memoryOnly, digest, sessionProtected, search, revision)
    }

    constructor (initial: seq<Clip>)
      ensures View() == Gui(0, 0, initial, 0, {}, 0, {}, None, 0)
    {
      latest, latestTags, clips, tags, memoryOnly := 0, 0, initial, 0, {};
      digest, sessionProtected, search, revision := 0, {}, None, 0;
    }

    method ReplaceClips(list: seq<Clip>)
      modifies this
      ensures View() == SetClips(old(View()), list)
    {
      search := None;
      clips := list;
      revision := Bump(revision);
    }

    method Handle(event: HistoryEvent, now: int)
      modifies this
      ensures View() == Present(old(View()), event, now)
      ensures latest >= old(latest) && latestTags >= old(latestTags)
    {
      var gate := ListVersion(event);
      if gate.Some? {
        if gate.value < latest {
          return;
        }
        latest := gate.value;
      }
      match event {
        case TagsEvent(version, newTags) =>
          if version >= latestTags {
            latestTags := version;
            if tags != newTags {
              tags := newTags;
              revision := Bump(revision);
            }
          }
        case Snapshot(_, list, ids) =>
          ReplaceClips(Active(list, now));
          memoryOnly := ids;
        case Maintenance(_, list, ids, newDigest) =>
          if list.Some? {
            ReplaceClips(Active(list.value, now));
          }
          memoryOnly := ids;
          digest := newDigest;
        case Protection(id, isProtected) =>
          if isProtected {
            sessionProtected := sessionProtected + {id};
          } else {
            sessionProtected := sessionProtected - {id};
          }
          revision := Bump(revision);
        case PruneExpired(ids) =>
          if search.Some? && AnyExpired(search.value, now) {
            search := None;
            revision := Bump(revision);
          }
          if AnyExpired(clips, now) {
            ReplaceClips(Active(clips, now));
          }
          memoryOnly := ids;
      }
    }
  }

  /** An event that is not outdated takes effect, and any other changes nothing: lists and tags by their
      own version, everything else always. */
  lemma EventTakesEffect(g: Gui, event: HistoryEvent, now: int)
    ensures var g' := Present(g, event, now);
            match event
            case Snapshot(v, clips, ids) =>
              if v < g.latest then g' == g
              else && g'.latest == v && g'.memoryOnly == ids && g'.search.None? && g'.tags == g.tags
                   && ShowsUnexpired(g'.clips, clips, now)
            case Maintenance(v, clips, ids, digest) =>
              if v.Some? && v.value < g.latest then g' == g
              else && g'.memoryOnly == ids && g'.digest == digest && g'.tags == g.tags
                   && g'.latest == (if v.Some? then v.value else g.latest)
                   && (if clips.Some? then g'.search.None? && ShowsUnexpired(g'.clips, clips.value, now)
                       else g'.clips == g.clips && g'.search == g.search)
            case TagsEvent(v, tags) =>
              && g'.clips == g.clips && g'.latest == g.latest
              && (if v < g.latestTags then g' == g else g'.tags == tags && g'.latestTags == v)
            case Protection(id, isProtected) =>
              && g' == g.(sessionProtected := g'.sessionProtected, revision := g'.revision)
              && (id in g'.sessionProtected <==> isProtected)
              && forall other :: other != id ==> (other in g'.sessionProtected <==> other in g.sessionProtected)
            case PruneExpired(ids) =>
              && g'.memoryOnly == ids && ShowsUnexpired(g'.clips, g.clips, now)
              && (g'.search.Some? ==> g'.search == g.search && forall c :: c in g'.search.value ==> !Expired(c, now))
  {
    match event
    case Snapshot(_, clips, _) => ActiveShows(clips, now);
    case Maintenance(_, clips, _, _) => if clips.Some? { ActiveShows(clips.value, now); }
    case PruneExpired(_) =>
      ActiveShows(g.clips, now);
      ActiveNoneExpired(g.clips, now);
    case _ =>
  }

  /** `shown` holds exactly the unexpired clips of `clips`, and nothing else. */
  ghost predicate ShowsUnexpired(shown: seq<Clip>, clips: seq<Clip>, now: int) {
    |shown| <= |clips| && forall c :: c in shown <==> c in clips && (c.expiresAt.None? || c.expiresAt.value > now)
  }

  lemma ActiveShows(clips: seq<Clip>, now: int)
    ensures ShowsUnexpired(Active(clips, now), clips, now)
  {
    forall c | c in clips && !Expired(c, now) ensures c in Active(clips, now) {
      ActiveKeeps(clips, now, c);
    }
  }

  /** Whatever the event, a list that stays on screen only loses expired clips. */
  lemma PruneKeepsActive(g: Gui, ids: set<ClipId>, now: int)
    ensures Active(Prune(g, ids, now).clips, now) == Active(g.clips, now)
    ensures Prune(g, ids, now).latest == g.latest && Prune(g, ids, now).latestTags == g.latestTags
    ensures Prune(g, ids, now).tags == g.tags
  {
    ActiveTwice(g.clips, now, now);
  }
}
