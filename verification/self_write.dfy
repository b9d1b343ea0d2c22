/** Self-write suppression: the bounded ledger of the coordinator's own clipboard writes, and the
    lock discipline that makes the capture worker consult it only after the write is registered. */
module SelfWrite {
  import opened Options

  type Hash = nat
  type Nonce = nat

  const LEDGER_TTL_MS: nat := 2_000
  const LEDGER_CAPACITY: nat := 32

  datatype Write = Write(hash: Hash, nonce: Nonce, expiresAt: int)

  predicate Matching(w: Write, hash: Hash, lineage: Option<Nonce>) {
    w.hash == hash || lineage == Some(w.nonce)
  }

  // ----- The ledger on values

  function Prune(writes: seq<Write>, now: int): (r: seq<Write>)
    ensures |r| <= |writes| && r == writes[|writes| - |r|..]
    ensures forall i :: 0 <= i < |writes| - |r| ==> writes[i].expiresAt <= now
    ensures r != [] ==> r[0].expiresAt > now
  {
    if writes != [] && writes[0].expiresAt <= now then Prune(writes[1..], now) else writes
  }

  function Registered(writes: seq<Write>, hash: Hash, nonce: Nonce, now: int): seq<Write> {
    var live := Prune(writes, now);
    (if |live| == LEDGER_CAPACITY then live[1..] else live) + [Write(hash, nonce, now + LEDGER_TTL_MS)]
  }

  predicate Found(writes: seq<Write>, hash: Hash, lineage: Option<Nonce>) {
    exists i :: 0 <= i < |writes| && Matching(writes[i], hash, lineage)
  }

  ghost predicate ByExpiry(log: seq<Write>) {
    forall i, j :: 0 <= i <= j < |log| ==> log[i].expiresAt <= log[j].expiresAt
  }

  ghost predicate NotBeyond(log: seq<Write>, now: int) {
    forall i :: 0 <= i < |log| ==> log[i].expiresAt <= now + LEDGER_TTL_MS
  }

  /** Entry `i` may be forgotten: it has expired, or 32 newer ones exist. */
  predicate Forgettable(log: seq<Write>, now: int, i: int)
    requires 0 <= i < |log|
  {
    log[i].expiresAt <= now || i < |log| - LEDGER_CAPACITY
  }

  /** `writes` is what bounded forgetting left of the full log. */
  ghost predicate Remembers(writes: seq<Write>, log: seq<Write>, now: int) {
    && |writes| <= |log| && |writes| <= LEDGER_CAPACITY && writes == log[|log| - |writes|..]
    && (forall i :: 0 <= i < |log| - |writes| ==> Forgettable(log, now, i))
    && ByExpiry(log) && NotBeyond(log, now)
  }

  lemma PruneRemembers(writes: seq<Write>, log: seq<Write>, before: int, now: int)
    requires Remembers(writes, log, before) && before <= now
    ensures Remembers(Prune(writes, now), log, now)
  {
    var live := Prune(writes, now);
    hide Prune, ByExpiry;
    forall i | 0 <= i < |log| - |live| ensures Forgettable(log, now, i) {
      if i < |log| - |writes| {
        assert Forgettable(log, before, i);
      } else {
        assert log[i] == writes[i - (|log| - |writes|)];
      }
    }
  }

  lemma PushRemembers(live: seq<Write>, log: seq<Write>, now: int, w: Write)
    requires Remembers(live, log, now) && w.expiresAt == now + LEDGER_TTL_MS
    ensures Remembers((if |live| == LEDGER_CAPACITY then live[1..] else live) + [w], log + [w], now)
  {
    var kept := (if |live| == LEDGER_CAPACITY then live[1..] else live) + [w];
    var log' := log + [w];
    forall i | 0 <= i < |log'| - |kept| ensures Forgettable(log', now, i) {
      assert i < |log| - |live| ==> Forgettable(log, now, i);
    }
    PushByExpiry(log, now, w);
    hide ByExpiry, NotBeyond;
  }

  lemma PushByExpiry(log: seq<Write>, now: int, w: Write)
    requires ByExpiry(log) && NotBeyond(log, now) && w.expiresAt == now + LEDGER_TTL_MS
    ensures ByExpiry(log + [w]) && NotBeyond(log + [w], now)
  {
  }

  lemma RegisterRemembers(writes: seq<Write>, log: seq<Write>, before: int, now: int, hash: Hash, nonce: Nonce)
    requires Remembers(writes, log, before) && before <= now
    ensures Remembers(Registered(writes, hash, nonce, now), log + [Write(hash, nonce, now + LEDGER_TTL_MS)], now)
  {
    PruneRemembers(writes, log, before, now);
    hide Prune, Remembers;
    PushRemembers(Prune(writes, now), log, now, Write(hash, nonce, now + LEDGER_TTL_MS));
  }

  /** A write that counts for a query at `now`: among the newest 32, unexpired and matching. */
  predicate Counts(log: seq<Write>, i: int, hash: Hash, lineage: Option<Nonce>, now: int) {
    0 <= i < |log| && i >= |log| - LEDGER_CAPACITY && Matching(log[i], hash, lineage) && log[i].expiresAt > now
  }

  ghost predicate RecentMatch(log: seq<Write>, hash: Hash, lineage: Option<Nonce>, now: int) {
    exists i :: Counts(log, i, hash, lineage, now)
  }

  lemma FoundCounts(live: seq<Write>, log: seq<Write>, now: int, hash: Hash, lineage: Option<Nonce>, i: nat)
    requires Remembers(live, log, now) && live != [] && live[0].expiresAt > now
    requires i < |live| && Matching(live[i], hash, lineage)
    ensures Counts(log, i + |log| - |live|, hash, lineage, now)
  {
    var off := |log| - |live|;
    assert log[off] == live[0] && log[i + off] == live[i];
    assert log[off].expiresAt <= log[i + off].expiresAt;
  }

  lemma CountsFound(live: seq<Write>, log: seq<Write>, now: int, hash: Hash, lineage: Option<Nonce>, i: int)
    requires Remembers(live, log, now) && Counts(log, i, hash, lineage, now)
    ensures Found(live, hash, lineage)
  {
    hide ByExpiry, NotBeyond;
    var off := |log| - |live|;
    assert i < off ==> Forgettable(log, now, i);
    assert live[i - off] == log[i];
  }

  /** A query answers yes exactly when some write among the newest 32 matches and has not expired,
      whatever was registered or queried before. */
  lemma QueryIff(writes: seq<Write>, log: seq<Write>, before: int, now: int, hash: Hash, lineage: Option<Nonce>)
    requires Remembers(writes, log, before) && before <= now
    ensures Found(Prune(writes, now), hash, lineage) <==> RecentMatch(log, hash, lineage, now)
  {
    PruneRemembers(writes, log, before, now);
    var live := Prune(writes, now);
    hide Prune, Remembers, Counts, Matching;
    if Found(live, hash, lineage) {
      var i :| 0 <= i < |live| && Matching(live[i], hash, lineage);
      FoundCounts(live, log, now, hash, lineage, i);
    }
    if RecentMatch(log, hash, lineage, now) {
      var i :| Counts(log, i, hash, lineage, now);
      CountsFound(live, log, now, hash, lineage, i);
    }
  }

  lemma RemembersLater(writes: seq<Write>, log: seq<Write>, before: int, now: int)
    requires Remembers(writes, log, before) && before <= now
    ensures Remembers(writes, log, now)
  {
    hide ByExpiry;
    forall i | 0 <= i < |log| - |writes| ensures Forgettable(log, now, i) {
      assert Forgettable(log, before, i);
    }
  }

  // ----- The ledger object

  class Ledger {
    var writes: seq<Write>
    ghost var log: seq<Write>
    ghost var clock: int

    ghost predicate Valid()
      reads this
    {
      Remembers(writes, log, clock)
    }

    constructor (now: int)
      ensures Valid() && log == [] && clock == now
    {
      writes, log, clock := [], [], now;
    }

    method PruneExpired(now: int)
      requires Valid() && clock <= now
      modifies this
      ensures Valid() && clock == now && log == old(log) && writes == Prune(old(writes), now)
    {
      PruneRemembers(writes, log, clock, now);
      clock := now;
      ghost var was := writes;
      while writes != [] && writes[0].expiresAt <= now
        invariant Prune(writes, now) == Prune(was, now)
        invariant unchanged(this`log) && clock == now
        decreases |writes|
      {
        writes := writes[1..];
      }
    }

    method Register(hash: Hash, nonce: Nonce, now: int)
      requires Valid() && clock <= now
      modifies this
      ensures Valid() && clock == now && log == old(log) + [Write(hash, nonce, now + LEDGER_TTL_MS)]
      ensures writes == Registered(old(writes), hash, nonce, now)
    {
      RegisterRemembers(writes, log, clock, now, hash, nonce);
      hide Prune, Remembers;
      PruneExpired(now);
      if |writes| == LEDGER_CAPACITY {
        writes := writes[1..];
      }
      writes := writes + [Write(hash, nonce, now + LEDGER_TTL_MS)];
      log := log + [Write(hash, nonce, now + LEDGER_TTL_MS)];
    }

    method Matches(hash: Hash, lineage: Option<Nonce>, now: int) returns (found: bool)
      requires Valid() && clock <= now
      modifies this
      ensures Valid() && clock == now && log == old(log)
      ensures found <==> RecentMatch(log, hash, lineage, now)
      ensures found <==> exists i :: 0 <= i < |log| && i >= |log| - 32 && log[i].expiresAt > now &&
                                     (log[i].hash == hash || lineage == Some(log[i].nonce))
    {
      QueryIff(writes, log, clock, now, hash, lineage);
      RecentMatchMeans(log, hash, lineage, now);
      hide Remembers, Prune, RecentMatch, Found, Matching;
      PruneExpired(now);
      found := AnyMatch(writes, hash, lineage);
    }
  }

  lemma RecentMatchMeans(log: seq<Write>, hash: Hash, lineage: Option<Nonce>, now: int)
    ensures RecentMatch(log, hash, lineage, now) <==>
            exists i :: 0 <= i < |log| && i >= |log| - 32 && log[i].expiresAt > now &&
                        (log[i].hash == hash || lineage == Some(log[i].nonce))
  {
    if i :| 0 <= i < |log| && i >= |log| - 32 && log[i].expiresAt > now && (log[i].hash == hash || lineage == Some(log[i].nonce)) {
      assert Counts(log, i, hash, lineage, now);
    }
    if RecentMatch(log, hash, lineage, now) {
      var i :| Counts(log, i, hash, lineage, now);
      assert log[i].expiresAt > now;
    }
  }

  method AnyMatch(entries: seq<Write>, hash: Hash, lineage: Option<Nonce>) returns (found: bool)
    ensures found <==> Found(entries, hash, lineage)
    ensures found <==> exists i :: 0 <= i < |entries| && (entries[i].hash == hash || lineage == Some(entries[i].nonce))
  {
    for i := 0 to |entries|
      invariant forall j :: 0 <= j < i ==> !Matching(entries[j], hash, lineage)
    {
      if Matching(entries[i], hash, lineage) {
        return true;
      }
    }
    return false;
  }

  // ----- The two threads

  /** `writer` names the copy that placed the content, if one of ours did. */
  datatype Content = Content(hash: Hash, writer: Option<Nonce>)

  /** A copy between taking the ledger lock and releasing it. */
  datatype Copier =
    | CopyIdle
    | CopyLocked(nonce: Nonce, hash: Hash)
    | CopyAccepted(nonce: Nonce, hash: Hash)
    | CopyDone

  datatype Reader =
    | ReadIdle
    | HasRead(content: Content)
    | ReadLocked(content: Content)
    | Judged(content: Content, selfWrite: bool)

  datatype Lock = Free | ByCopier | ByReader

  /** `placed`, `registered`, `failed` and `log` are history. */
  datatype State = State(
    clock: int, clipboard: Content, lock: Lock, copier: Copier, reader: Reader, writes: seq<Write>,
    log: seq<Write>, used: map<Nonce, Hash>, registeredAt: map<Nonce, nat>, failed: set<Nonce>)

  function Initial(content: Hash, clock: int): State {
    State(clock, Content(content, None), Free, CopyIdle, ReadIdle, [], [], map[], map[], {})
  }

  datatype Event =
    | Tick(delta: nat)
    | OtherAppWrites(otherHash: Hash)
    | LockForCopy(nonce: Nonce, hash: Hash)
    | WriteAccepted
    | WriteRefused
    | WriteFails(placed: bool)
    | RegisterWrite
    | UnlockCopy
    | Read
    | LockForMatch
    | Match
    | UnlockMatch

  predicate Enabled(s: State, e: Event) {
    match e
    case Tick(_) => true
    case OtherAppWrites(_) => true
    case LockForCopy(nonce, _) => s.lock.Free? && s.copier.CopyIdle? && nonce !in s.used
    case WriteAccepted => s.copier.CopyLocked?
    case WriteRefused => s.copier.CopyLocked?
    case WriteFails(_) => s.copier.CopyLocked?
    case RegisterWrite => s.copier.CopyAccepted?
    case UnlockCopy => s.copier.CopyDone?
    case Read => s.reader.ReadIdle?
    case LockForMatch => s.lock.Free? && s.reader.HasRead?
    case Match => s.reader.ReadLocked?
    case UnlockMatch => s.reader.Judged?
  }

  function WithRegistered(s: State, hash: Hash, nonce: Nonce): State {
    s.(writes := Registered(s.writes, hash, nonce, s.clock),
       log := s.log + [Write(hash, nonce, s.clock + LEDGER_TTL_MS)],
       registeredAt := s.registeredAt[nonce := |s.log|], copier := CopyDone)
  }

  function WithVerdict(s: State, content: Content): State {
    var live := Prune(s.writes, s.clock);
    s.(writes := live, reader := Judged(content, Found(live, content.hash, None)))
  }

  /** A write refused for lack of history exclusion places nothing; one that ends in an error may
      or may not have placed its content. */
  function Apply(s: State, e: Event): State
    requires Enabled(s, e)
  {
    match e
    case Tick(d) => s.(clock := s.clock + d)
    case OtherAppWrites(h) => s.(clipboard := Content(h, None))
    case LockForCopy(nonce, hash) =>
      s.(lock := ByCopier, copier := CopyLocked(nonce, hash), used := s.used[nonce := hash])
    case WriteAccepted =>
      s.(clipboard := Content(s.copier.hash, Some(s.copier.nonce)), copier := CopyAccepted(s.copier.nonce, s.copier.hash))
    case WriteRefused => s.(failed := s.failed + {s.copier.nonce}, copier := CopyDone)
    case WriteFails(placed) =>
      s.(clipboard := if placed then Content(s.copier.hash, Some(s.copier.nonce)) else s.clipboard,
         failed := s.failed + {s.copier.nonce}, copier := CopyDone)
    case RegisterWrite => WithRegistered(s, s.copier.hash, s.copier.nonce)
    case UnlockCopy => s.(lock := Free, copier := CopyIdle)
    case Read => s.(reader := HasRead(s.clipboard))
    case LockForMatch => s.(lock := ByReader, reader := ReadLocked(s.reader.content))
    case Match => WithVerdict(s, s.reader.content)
    case UnlockMatch => s.(lock := Free, reader := ReadIdle)
  }

  predicate InProgress(s: State, nonce: Nonce) {
    (s.copier.CopyLocked? || s.copier.CopyAccepted?) && s.copier.nonce == nonce
  }

  /** Content of ours was placed by a copy that registered it, failed, or still holds the lock. */
  predicate ContentOk(s: State, c: Content) {
    c.writer.Some? ==>
      && c.writer.value in s.used && s.used[c.writer.value] == c.hash
      && (c.writer.value in s.registeredAt || c.writer.value in s.failed || InProgress(s, c.writer.value))
  }

  ghost predicate Inv(s: State) {
    && Remembers(s.writes, s.log, s.clock)
    && (s.lock.ByCopier? <==> !s.copier.CopyIdle?)
    && (s.lock.ByReader? <==> s.reader.ReadLocked? || s.reader.Judged?)
    && ContentOk(s, s.clipboard)
    && (!s.reader.ReadIdle? ==> ContentOk(s, s.reader.content))
    && (s.copier.CopyLocked? || s.copier.CopyAccepted? ==> s.copier.nonce in s.used && s.used[s.copier.nonce] == s.copier.hash)
    && (s.copier.CopyLocked? || s.copier.CopyAccepted? ==> s.copier.nonce !in s.registeredAt && s.copier.nonce !in s.failed)
    && (forall n :: n in s.registeredAt ==> RegisteredOk(s, n))
    && (forall i :: 0 <= i < |s.log| ==> s.log[i].nonce in s.registeredAt && s.registeredAt[s.log[i].nonce] == i)
    && s.failed <= s.used.Keys
  }

  /** A registered write is in the log under its own nonce and hash, and did not fail. */
  predicate RegisteredOk(s: State, n: Nonce)
    requires n in s.registeredAt
  {
    && n in s.used && n !in s.failed && s.registeredAt[n] < |s.log|
    && s.log[s.registeredAt[n]].nonce == n && s.log[s.registeredAt[n]].hash == s.used[n]
  }

  lemma StepPreserves(s: State, e: Event)
    requires Inv(s) && Enabled(s, e)
    ensures Inv(Apply(s, e))
  {
    hide Remembers, Prune, Registered, Found;
    match e
    case Tick(d) => RemembersLater(s.writes, s.log, s.clock, s.clock + d);
    case RegisterWrite => RegisterRemembers(s.writes, s.log, s.clock, s.clock, s.copier.hash, s.copier.nonce);
    case Match => PruneRemembers(s.writes, s.log, s.clock, s.clock);
    case _ =>
  }

  ghost predicate ValidRun(s: State, events: seq<Event>)
    decreases |events|
  {
    events == [] || (Enabled(s, events[0]) && ValidRun(Apply(s, events[0]), events[1..]))
  }

  ghost function Run(s: State, events: seq<Event>): State
    requires ValidRun(s, events)
    decreases |events|
  {
    if events == [] then s else Run(Apply(s, events[0]), events[1..])
  }

  lemma {:induction false} RunPreserves(s: State, events: seq<Event>)
    requires Inv(s) && ValidRun(s, events)
    ensures Inv(Run(s, events))
    decreases |events|
  {
    hide Inv, Apply, Enabled;
    if events != [] {
      StepPreserves(s, events[0]);
      RunPreserves(Apply(s, events[0]), events[1..]);
    }
  }

  /** In every interleaving, content placed by a copy that did not fail is already registered when
      the worker judges it; and it is judged a self-write as long as its entry is among the newest
      32 and unexpired. */
  lemma OwnWriteIsRecognised(hash: Hash, clock: int, events: seq<Event>)
    requires ValidRun(Initial(hash, clock), events)
    requires var s := Run(Initial(hash, clock), events);
             s.reader.ReadLocked? && s.reader.content.writer.Some? && s.reader.content.writer.value !in s.failed
    ensures var s := Run(Initial(hash, clock), events);
            var nonce := s.reader.content.writer.value;
            && nonce in s.registeredAt && s.registeredAt[nonce] < |s.log|
            && (s.log[s.registeredAt[nonce]].expiresAt > s.clock && s.registeredAt[nonce] >= |s.log| - LEDGER_CAPACITY ==>
                  Apply(s, Match).reader == Judged(s.reader.content, true))
  {
    var s := Run(Initial(hash, clock), events);
    InitialInv(hash, clock);
    hide Remembers, Prune, Registered, Found, Inv, Apply, Enabled, Initial;
    RunPreserves(Initial(hash, clock), events);
    JudgedRegistered(s);
    ContentVerdict(s, s.reader.content.writer.value);
    MatchVerdict(s);
  }

  lemma InitialInv(hash: Hash, clock: int)
    ensures Inv(Initial(hash, clock))
  {
  }

  lemma MatchVerdict(s: State)
    requires s.reader.ReadLocked?
    ensures Apply(s, Match).reader == Judged(s.reader.content, Found(Prune(s.writes, s.clock), s.reader.content.hash, None))
  {
    hide Found, Prune;
  }

  /** The lock keeps the worker from judging between a write and its registration. */
  lemma JudgedRegistered(s: State)
    requires Inv(s) && s.reader.ReadLocked? && s.reader.content.writer.Some? && s.reader.content.writer.value !in s.failed
    ensures s.reader.content.writer.value in s.registeredAt && RegisteredOk(s, s.reader.content.writer.value)
  {
    hide Remembers;
  }

  /** The exact verdict on any content: a self-write if and only if a recent registered write has its hash. */
  lemma VerdictIff(s: State)
    requires Inv(s) && Enabled(s, Match)
    ensures Apply(s, Match).reader.selfWrite <==> RecentMatch(s.log, s.reader.content.hash, None, s.clock)
  {
    QueryIff(s.writes, s.log, s.clock, s.clock, s.reader.content.hash, None);
  }

  /** The entry of write `n` is still remembered: registered, among the newest 32 and unexpired. */
  predicate Remembered(s: State, n: Nonce) {
    && n in s.registeredAt && s.registeredAt[n] < |s.log|
    && s.registeredAt[n] >= |s.log| - LEDGER_CAPACITY && s.log[s.registeredAt[n]].expiresAt > s.clock
  }

  /** Another write of the same content counts at this moment. */
  ghost predicate OtherCounts(s: State, n: Nonce, hash: Hash) {
    exists i :: Counts(s.log, i, hash, None, s.clock) && s.log[i].nonce != n
  }

  /** In every interleaving, content placed by write `n` is judged a self-write if and only if the entry
      of `n` is still remembered or another remembered entry has its hash. A write that failed after
      placing its content was never registered, so only another entry can cover it. */
  lemma OwnContentVerdictIff(hash: Hash, clock: int, events: seq<Event>, n: Nonce)
    requires ValidRun(Initial(hash, clock), events)
    requires var s := Run(Initial(hash, clock), events); s.reader.ReadLocked? && s.reader.content.writer == Some(n)
    ensures var s := Run(Initial(hash, clock), events);
            && (Apply(s, Match).reader.selfWrite <==> Remembered(s, n) || OtherCounts(s, n, s.reader.content.hash))
            && (n in s.failed ==> !Remembered(s, n))
  {
    var s := Run(Initial(hash, clock), events);
    InitialInv(hash, clock);
    hide Apply, Enabled, Initial, Inv;
    RunPreserves(Initial(hash, clock), events);
    ContentVerdict(s, n);
  }

  lemma ContentVerdict(s: State, n: Nonce)
    requires Inv(s) && s.reader.ReadLocked? && s.reader.content.writer == Some(n)
    ensures Apply(s, Match).reader.selfWrite <==> Remembered(s, n) || OtherCounts(s, n, s.reader.content.hash)
    ensures n in s.failed ==> !Remembered(s, n)
  {
    VerdictIff(s);
    hide Remembers, Apply, Registered, Found, Prune;
    var hash := s.reader.content.hash;
    if n in s.registeredAt {
      assert RegisteredOk(s, n) && s.used[n] == hash;
      if Remembered(s, n) {
        assert Counts(s.log, s.registeredAt[n], hash, None, s.clock);
      }
    }
    if RecentMatch(s.log, hash, None, s.clock) {
      var i :| Counts(s.log, i, hash, None, s.clock);
      assert s.log[i].nonce == n ==> Remembered(s, n);
    }
  }

  // ----- An undisturbed copy, and content of others

  lemma {:induction false} Extend(s: State, past: seq<Event>, e: Event)
    requires ValidRun(s, past) && Enabled(Run(s, past), e)
    ensures ValidRun(s, past + [e]) && Run(s, past + [e]) == Apply(Run(s, past), e)
    decreases |past|
  {
    hide Apply, Enabled;
    if past == [] {
      assert [] + [e] == [e];
      assert [e][1..] == [];
      assert ValidRun(Apply(s, e), []);
    } else {
      Extend(Apply(s, past[0]), past[1..], e);
      assert (past + [e])[1..] == past[1..] + [e];
    }
  }

  /** A copy that succeeds places its content and registers it, before it gives up the lock. */
  lemma CopyPlacesAndRegisters(s: State, nonce: Nonce, hash: Hash)
    requires s.lock.Free? && s.copier.CopyIdle? && nonce !in s.used
    ensures var steps := [LockForCopy(nonce, hash)] + [WriteAccepted] + [RegisterWrite] + [UnlockCopy];
            && ValidRun(s, steps)
            && var s' := Run(s, steps);
               && s'.clipboard == Content(hash, Some(nonce)) && s'.lock.Free? && s'.copier.CopyIdle? && s'.reader == s.reader
               && s'.log == s.log + [Write(hash, nonce, s.clock + 2_000)] && s'.clock == s.clock
               && s'.writes == Registered(s.writes, hash, nonce, s.clock)
  {
    hide Registered;
    var s1 := s.(lock := ByCopier, copier := CopyLocked(nonce, hash), used := s.used[nonce := hash]);
    var s2 := s1.(clipboard := Content(hash, Some(nonce)), copier := CopyAccepted(nonce, hash));
    assert Apply(s, LockForCopy(nonce, hash)) == s1;
    assert Enabled(s1, WriteAccepted) && Apply(s1, WriteAccepted) == s2;
    assert Enabled(s2, RegisterWrite);
    var s3 := Apply(s2, RegisterWrite);
    assert Enabled(s3, UnlockCopy);
    hide Apply, Enabled;
    assert ValidRun(s, []) && Run(s, []) == s;
    hide ValidRun, Run;
    Extend(s, [], LockForCopy(nonce, hash));
    assert [] + [LockForCopy(nonce, hash)] == [LockForCopy(nonce, hash)];
    Extend(s, [LockForCopy(nonce, hash)], WriteAccepted);
    Extend(s, [LockForCopy(nonce, hash)] + [WriteAccepted], RegisterWrite);
    Extend(s, [LockForCopy(nonce, hash)] + [WriteAccepted] + [RegisterWrite], UnlockCopy);
  }

  /** The worker reads what the clipboard holds, and judges just that. */
  lemma WorkerJudgesClipboard(s: State)
    requires Inv(s) && s.lock.Free? && s.reader.ReadIdle?
    ensures var steps := [Read] + [LockForMatch] + [Match];
            && ValidRun(s, steps)
            && var r := Run(s, steps).reader;
               r.Judged? && r.content == s.clipboard && (r.selfWrite <==> RecentMatch(s.log, s.clipboard.hash, None, s.clock))
  {
    ReadsAndLocks(s);
    hide Apply, Enabled, Inv;
    var s2 := Apply(Apply(s, Read), LockForMatch);
    JudgesContent(s2);
    assert ValidRun(s, []) && Run(s, []) == s;
    hide ValidRun, Run;
    Extend(s, [], Read);
    assert [] + [Read] == [Read];
    Extend(s, [Read], LockForMatch);
    Extend(s, [Read] + [LockForMatch], Match);
  }

  lemma ReadsAndLocks(s: State)
    requires Inv(s) && s.lock.Free? && s.reader.ReadIdle?
    ensures Enabled(s, Read) && Enabled(Apply(s, Read), LockForMatch)
    ensures var s2 := Apply(Apply(s, Read), LockForMatch);
            Inv(s2) && s2 == s.(lock := ByReader, reader := ReadLocked(s.clipboard))
  {
    hide Inv;
    StepPreserves(s, Read);
    StepPreserves(s.(reader := HasRead(s.clipboard)), LockForMatch);
  }

  lemma JudgesContent(s: State)
    requires Inv(s) && s.reader.ReadLocked?
    ensures Enabled(s, Match)
    ensures var r := Apply(s, Match).reader;
            r.Judged? && r.content == s.reader.content && (r.selfWrite <==> RecentMatch(s.log, s.reader.content.hash, None, s.clock))
  {
    VerdictIff(s);
    MatchVerdict(s);
    hide Inv;
  }
}
