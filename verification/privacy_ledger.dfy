/** The hash-chained ledger of capture decisions: a bounded window over an append-only chain. */
module PrivacyLedger {
  import opened Options

  const U64_MAX: nat := 0xFFFF_FFFF_FFFF_FFFF

  type u64 = n: nat | n <= U64_MAX
  type byte = n: nat | n < 256
  type Bytes = seq<byte>
  type Digest = b: Bytes | |b| == 32 witness [0, 0, 0, 0, 0, 0, 0, 0, 0, 0, 0, 0, 0, 0, 0, 0, 0, 0, 0, 0, 0, 0, 0, 0, 0, 0, 0, 0, 0, 0, 0, 0]

  /** The hash primitive, a parameter of everything here. */
  type Hasher = Bytes -> Digest

  datatype Kind = Captured | Skipped | Lost

  datatype Entry = Entry(
    sequence: u64, timestampMs: u64, count: u64, decision: Kind, reason: Bytes, previousHash: Digest, hash: Digest)

  const ZERO: Digest := [0, 0, 0, 0, 0, 0, 0, 0, 0, 0, 0, 0, 0, 0, 0, 0, 0, 0, 0, 0, 0, 0, 0, 0, 0, 0, 0, 0, 0, 0, 0, 0]

  /** "vbuff-privacy-ledger-v1" */
  const DOMAIN: Bytes :=
    [118, 98, 117, 102, 102, 45, 112, 114, 105, 118, 97, 99, 121, 45, 108, 101, 100, 103, 101, 114, 45, 118, 49]

  function SatIncU64(n: u64): u64 { Min(n + 1, U64_MAX) }

  // ----- The preimage

  /** `n` in `width` bytes, most significant first. */
  function BigEndian(n: nat, width: nat): (r: Bytes)
    ensures |r| == width
  {
    if width == 0 then [] else BigEndian(n / 256, width - 1) + [n % 256]
  }

  function KindByte(k: Kind): byte {
    match k
    case Captured => 1
    case Skipped => 2
    case Lost => 3
  }

  function Preimage(sequence: u64, timestampMs: u64, count: u64, decision: Kind, reason: Bytes, previous: Digest): Bytes {
    DOMAIN + previous + BigEndian(sequence, 8) + BigEndian(timestampMs, 8) + BigEndian(count, 8) + [KindByte(decision)] + reason
  }

  function EntryPreimage(e: Entry): Bytes {
    Preimage(e.sequence, e.timestampMs, e.count, e.decision, e.reason, e.previousHash)
  }

  predicate Sealed(h: Hasher, e: Entry) { e.hash == h(EntryPreimage(e)) }

  /** The number some bytes stand for, most significant first. */
  function BytesValue(b: Bytes): nat {
    if b == [] then 0 else 256 * BytesValue(b[..|b| - 1]) + b[|b| - 1]
  }

  lemma {:induction false} BigEndianReadsBack(n: nat, width: nat)
    requires n < Pow256(width)
    ensures BytesValue(BigEndian(n, width)) == n
  {
    if width > 0 {
      BigEndianReadsBack(n / 256, width - 1);
      var b := BigEndian(n, width);
      assert b[..|b| - 1] == BigEndian(n / 256, width - 1);
    }
  }

  /** Where each part of an entry stands in what is hashed. */
  lemma PreimageLayout(e: Entry)
    ensures var b := EntryPreimage(e);
            && |b| == 80 + |e.reason| && b[..23] == DOMAIN && b[23..55] == e.previousHash
            && BytesValue(b[55..63]) == e.sequence && BytesValue(b[63..71]) == e.timestampMs && BytesValue(b[71..79]) == e.count
            && b[79] == (if e.decision.Captured? then 1 else if e.decision.Skipped? then 2 else 3) && b[80..] == e.reason
  {
    U64Fits(e.sequence);
    U64Fits(e.timestampMs);
    U64Fits(e.count);
    hide Pow256, BigEndian, BytesValue;
    BigEndianReadsBack(e.sequence, 8);
    BigEndianReadsBack(e.timestampMs, 8);
    BigEndianReadsBack(e.count, 8);
    LayoutOf(DOMAIN, e.previousHash, BigEndian(e.sequence, 8), BigEndian(e.timestampMs, 8), BigEndian(e.count, 8),
             KindByte(e.decision), e.reason);
  }

  lemma LayoutOf(domain: Bytes, previous: Bytes, s: Bytes, t: Bytes, n: Bytes, kind: byte, reason: Bytes)
    requires |domain| == 23 && |previous| == 32 && |s| == 8 && |t| == 8 && |n| == 8
    ensures var b := domain + previous + s + t + n + [kind] + reason;
            && |b| == 80 + |reason| && b[..23] == domain && b[23..55] == previous && b[55..63] == s && b[63..71] == t
            && b[71..79] == n && b[79] == kind && b[80..] == reason
  {
  }

  lemma {:induction false} BigEndianInjective(a: nat, b: nat, width: nat)
    requires BigEndian(a, width) == BigEndian(b, width) && a < Pow256(width) && b < Pow256(width)
    ensures a == b
  {
    if width > 0 {
      var x, y := BigEndian(a / 256, width - 1), BigEndian(b / 256, width - 1);
      assert (x + [a % 256])[..width - 1] == x && (y + [b % 256])[..width - 1] == y;
      assert (x + [a % 256])[width - 1] == a % 256 && (y + [b % 256])[width - 1] == b % 256;
      BigEndianInjective(a / 256, b / 256, width - 1);
    }
  }

  function Pow256(n: nat): nat { if n == 0 then 1 else 256 * Pow256(n - 1) }

  lemma U64Fits(n: u64)
    ensures n < Pow256(8)
  {
    assert Pow256(4) == 0x1_0000_0000 by {
      assert Pow256(2) == 0x1_0000;
    }
    assert Pow256(8) == 256 * (256 * (256 * (256 * Pow256(4))));
  }

  lemma SplitEqual(a: Bytes, b: Bytes, c: Bytes, d: Bytes)
    requires |a| == |c| && a + b == c + d
    ensures a == c && b == d
  {
    assert a == (a + b)[..|a|] && c == (c + d)[..|c|];
    assert b == (a + b)[|a|..] && d == (c + d)[|c|..];
  }

  /** The encoding of an entry into the preimage loses nothing: every part but the last has a fixed width. */
  lemma PreimageInjective(a: Entry, b: Entry)
    requires EntryPreimage(a) == EntryPreimage(b)
    ensures a == b.(hash := a.hash)
  {
    hide BigEndian;
    var a1, b1 := DOMAIN + a.previousHash, DOMAIN + b.previousHash;
    var a2, b2 := a1 + BigEndian(a.sequence, 8), b1 + BigEndian(b.sequence, 8);
    var a3, b3 := a2 + BigEndian(a.timestampMs, 8), b2 + BigEndian(b.timestampMs, 8);
    var a4, b4 := a3 + BigEndian(a.count, 8), b3 + BigEndian(b.count, 8);
    var a5, b5 := a4 + [KindByte(a.decision)], b4 + [KindByte(b.decision)];
    SplitEqual(a5, a.reason, b5, b.reason);
    SplitEqual(a4, [KindByte(a.decision)], b4, [KindByte(b.decision)]);
    SplitEqual(a3, BigEndian(a.count, 8), b3, BigEndian(b.count, 8));
    SplitEqual(a2, BigEndian(a.timestampMs, 8), b2, BigEndian(b.timestampMs, 8));
    SplitEqual(a1, BigEndian(a.sequence, 8), b1, BigEndian(b.sequence, 8));
    SplitEqual(DOMAIN, a.previousHash, DOMAIN, b.previousHash);
    assert [KindByte(a.decision)][0] == [KindByte(b.decision)][0];
    SameNumber(a.sequence, b.sequence);
    SameNumber(a.timestampMs, b.timestampMs);
    SameNumber(a.count, b.count);
  }

  lemma SameNumber(a: u64, b: u64)
    requires BigEndian(a, 8) == BigEndian(b, 8)
    ensures a == b
  {
    U64Fits(a);
    U64Fits(b);
    hide Pow256;
    BigEndianInjective(a, b, 8);
  }

  // ----- Verification

  /** A chain whose first entry has the given sequence and predecessor. */
  predicate ChainFrom(h: Hasher, entries: seq<Entry>, sequence: u64, previous: Digest)
    decreases |entries|
  {
    entries == [] ||
    (&& entries[0].sequence == sequence && entries[0].previousHash == previous && Sealed(h, entries[0])
     && ChainFrom(h, entries[1..], SatIncU64(sequence), entries[0].hash))
  }

  predicate Verifies(h: Hasher, entries: seq<Entry>) {
    entries == [] || ChainFrom(h, entries, entries[0].sequence, entries[0].previousHash)
  }

  /** Entry by entry: each is sealed, and continues the one before. */
  predicate Linked(h: Hasher, entries: seq<Entry>) {
    && (forall i :: 0 <= i < |entries| ==> Sealed(h, entries[i]))
    && (forall i :: 1 <= i < |entries| ==>
          && entries[i].previousHash == entries[i - 1].hash
          && entries[i].sequence == Min(entries[i - 1].sequence + 1, U64_MAX))
  }

  lemma {:induction false} ChainIsLinked(h: Hasher, entries: seq<Entry>, sequence: u64, previous: Digest)
    ensures ChainFrom(h, entries, sequence, previous) <==>
            Linked(h, entries) && (entries != [] ==> entries[0].sequence == sequence && entries[0].previousHash == previous)
    decreases |entries|
  {
    hide Sealed;
    if entries != [] {
      var tail := entries[1..];
      ChainIsLinked(h, tail, SatIncU64(sequence), entries[0].hash);
      assert forall i :: 0 <= i < |tail| ==> tail[i] == entries[i + 1];
      LinkedSplit(h, entries);
    }
  }

  lemma LinkedSplit(h: Hasher, entries: seq<Entry>)
    requires entries != []
    ensures var tail := entries[1..];
            Linked(h, entries) <==>
            && Sealed(h, entries[0]) && Linked(h, tail)
            && (tail != [] ==> tail[0].previousHash == entries[0].hash && tail[0].sequence == Min(entries[0].sequence + 1, U64_MAX))
  {
    hide Sealed;
    var tail := entries[1..];
    if Sealed(h, entries[0]) && Linked(h, tail) &&
       (tail != [] ==> tail[0].previousHash == entries[0].hash && tail[0].sequence == Min(entries[0].sequence + 1, U64_MAX)) {
      forall i | 0 <= i < |entries| ensures Sealed(h, entries[i]) {
        assert i > 0 ==> entries[i] == tail[i - 1];
      }
      forall i | 1 <= i < |entries|
        ensures entries[i].previousHash == entries[i - 1].hash && entries[i].sequence == Min(entries[i - 1].sequence + 1, U64_MAX)
      {
        assert entries[i] == tail[i - 1] && (i > 1 ==> entries[i - 1] == tail[i - 2]);
      }
    }
    if Linked(h, entries) {
      forall i | 0 <= i < |tail| ensures Sealed(h, tail[i]) {
        assert tail[i] == entries[i + 1];
      }
      forall i | 1 <= i < |tail|
        ensures tail[i].previousHash == tail[i - 1].hash && tail[i].sequence == Min(tail[i - 1].sequence + 1, U64_MAX)
      {
        assert tail[i] == entries[i + 1] && tail[i - 1] == entries[i];
      }
    }
  }

  /** The walk of `verify`, with its two running locals. */
  method Verify(h: Hasher, entries: seq<Entry>) returns (valid: bool)
    ensures valid <==> Verifies(h, entries)
    ensures valid <==> Linked(h, entries)
  {
    if entries != [] {
      ChainIsLinked(h, entries, entries[0].sequence, entries[0].previousHash);
    }
    if entries == [] {
      return true;
    }
    var sequence, previous := entries[0].sequence, entries[0].previousHash;
    var i := 0;
    while i < |entries|
      invariant i <= |entries|
      invariant Verifies(h, entries) <==> ChainFrom(h, entries[i..], sequence, previous)
    {
      var e := entries[i];
      assert entries[i..][0] == e && entries[i..][1..] == entries[i + 1..];
      if e.sequence != sequence || e.previousHash != previous || e.hash != h(EntryPreimage(e)) {
        return false;
      }
      sequence, previous := SatIncU64(sequence), e.hash;
      i := i + 1;
    }
    return true;
  }

  // ----- The ledger

  datatype Outcome = Accepted | Dropped(intentional: bool, reason: Bytes)

  /** "captured" */
  const CAPTURED: Bytes := [99, 97, 112, 116, 117, 114, 101, 100]

  function KindOf(o: Outcome): Kind {
    match o
    case Accepted => Captured
    case Dropped(intentional, _) => if intentional then Skipped else Lost
  }

  function ReasonOf(o: Outcome): Bytes {
    match o
    case Accepted => CAPTURED
    case Dropped(_, reason) => reason
  }

  datatype State = State(capacity: nat, nextSequence: u64, previousHash: Digest, entries: seq<Entry>)

  function NewLedger(capacity: nat): State { State(Max(capacity, 1), 0, ZERO, []) }

  function NextEntry(h: Hasher, s: State, timestampMs: u64, o: Outcome, count: u64): Entry {
    Entry(s.nextSequence, timestampMs, count, KindOf(o), ReasonOf(o), s.previousHash,
          h(Preimage(s.nextSequence, timestampMs, count, KindOf(o), ReasonOf(o), s.previousHash)))
  }

  function Appended(h: Hasher, s: State, timestampMs: u64, o: Outcome, count: u64): State {
    var e := NextEntry(h, s, timestampMs, o, count);
    s.(nextSequence := SatIncU64(s.nextSequence), previousHash := e.hash,
       entries := (if |s.entries| == s.capacity && s.entries != [] then s.entries[1..] else s.entries) + [e])
  }

  class Ledger {
    const h: Hasher
    const capacity: nat
    var nextSequence: u64
    var previousHash: Digest
    var entries: seq<Entry>

    function View(): State
      reads this
    {
      State(capacity, nextSequence, previousHash, entries)
    }

    constructor (h: Hasher, capacity: nat)
      ensures View() == NewLedger(capacity) && this.h == h && Valid(h, View())
    {
      this.h, this.capacity := h, Max(capacity, 1);
      nextSequence, previousHash, entries := 0, ZERO, [];
    }

    method Append(timestampMs: u64, o: Outcome, count: u64) returns (entry: Entry)
      requires Valid(h, View())
      modifies this
      ensures View() == Appended(h, old(View()), timestampMs, o, count) && Valid(h, View())
      ensures entry == NextEntry(h, old(View()), timestampMs, o, count)
      ensures entry.sequence == old(nextSequence) && entry.previousHash == old(previousHash)
      ensures Records(entry, Record(timestampMs, o, count)) && Sealed(h, entry)
      ensures entries == (if |old(entries)| == capacity then old(entries)[1..] else old(entries)) + [entry]
      ensures nextSequence == Min(old(nextSequence) + 1, U64_MAX)
      ensures entries != [] && entries[|entries| - 1] == entry && HeadHash() == entry.hash
    {
      AppendKeeps(h, View(), timestampMs, o, count);
      entry := Entry(nextSequence, timestampMs, count, KindOf(o), ReasonOf(o), previousHash,
                     h(Preimage(nextSequence, timestampMs, count, KindOf(o), ReasonOf(o), previousHash)));
      nextSequence := SatIncU64(nextSequence);
      previousHash := entry.hash;
      if |entries| == capacity {
        entries := entries[1..];
      }
      entries := entries + [entry];
    }

    function HeadHash(): Digest
      reads this
    {
      previousHash
    }
  }

  /** The retained window is a chain that ends at the head hash, and the next entry continues it. */
  ghost predicate Valid(h: Hasher, s: State) {
    && 1 <= s.capacity && |s.entries| <= s.capacity && Verifies(h, s.entries)
    && (s.entries != [] ==> s.previousHash == s.entries[|s.entries| - 1].hash &&
                            s.nextSequence == SatIncU64(s.entries[|s.entries| - 1].sequence))
  }

  lemma {:induction false} ChainExtends(h: Hasher, entries: seq<Entry>, sequence: u64, previous: Digest, e: Entry)
    requires ChainFrom(h, entries, sequence, previous) && Sealed(h, e)
    requires if entries == [] then e.sequence == sequence && e.previousHash == previous
             else e.sequence == SatIncU64(entries[|entries| - 1].sequence) && e.previousHash == entries[|entries| - 1].hash
    ensures ChainFrom(h, entries + [e], sequence, previous)
    decreases |entries|
  {
    if entries == [] {
      assert ([] + [e])[1..] == [];
    } else {
      assert (entries + [e])[1..] == entries[1..] + [e];
      if |entries| > 1 {
        assert entries[1..][|entries| - 2] == entries[|entries| - 1];
      }
      ChainExtends(h, entries[1..], SatIncU64(sequence), entries[0].hash, e);
    }
  }

  lemma AppendKeeps(h: Hasher, s: State, timestampMs: u64, o: Outcome, count: u64)
    requires Valid(h, s)
    ensures Valid(h, Appended(h, s, timestampMs, o, count))
  {
    var e := NextEntry(h, s, timestampMs, o, count);
    var kept := if |s.entries| == s.capacity then s.entries[1..] else s.entries;
    if kept == [] {
      assert kept + [e] == [e];
      assert [e][1..] == [];
    } else {
      assert kept[|kept| - 1] == s.entries[|s.entries| - 1];
      TailVerifies(h, s.entries);
      ChainExtends(h, kept, kept[0].sequence, kept[0].previousHash, e);
    }
  }

  lemma TailVerifies(h: Hasher, entries: seq<Entry>)
    requires Verifies(h, entries) && entries != []
    ensures Verifies(h, entries[1..])
  {
    var tail := entries[1..];
    if tail != [] {
      assert ChainFrom(h, tail, SatIncU64(entries[0].sequence), entries[0].hash);
    }
  }

  // ----- Whole histories

  datatype Record = Record(timestampMs: u64, outcome: Outcome, count: u64)

  function Replay(h: Hasher, capacity: nat, records: seq<Record>): State {
    if records == [] then NewLedger(capacity)
    else
      var r := records[|records| - 1];
      Appended(h, Replay(h, capacity, records[..|records| - 1]), r.timestampMs, r.outcome, r.count)
  }

  predicate Records(e: Entry, r: Record) {
    && e.timestampMs == r.timestampMs && e.count == r.count
    && (r.outcome.Accepted? ==> e.decision == Captured && e.reason == CAPTURED)
    && (r.outcome.Dropped? ==> e.decision == (if r.outcome.intentional then Skipped else Lost) && e.reason == r.outcome.reason)
  }

  /** After any appends at any capacity, past sequence saturation too, the retained window verifies
      and ends at the head hash. */
  lemma {:induction false} WindowVerifies(h: Hasher, capacity: nat, records: seq<Record>)
    ensures Valid(h, Replay(h, capacity, records))
  {
    if records == [] {
    } else {
      hide Appended, Valid;
      var n := |records| - 1;
      var r := records[n];
      WindowVerifies(h, capacity, records[..n]);
      AppendKeeps(h, Replay(h, capacity, records[..n]), r.timestampMs, r.outcome, r.count);
    }
  }

  /** The entries record the last of the records, in order. */
  predicate HoldsLatest(entries: seq<Entry>, records: seq<Record>) {
    && |entries| <= |records|
    && forall i :: 0 <= i < |entries| ==> Records(entries[i], records[|records| - |entries| + i])
  }

  lemma PushHoldsLatest(entries: seq<Entry>, records: seq<Record>, drop: bool, e: Entry, r: Record)
    requires HoldsLatest(entries, records) && Records(e, r) && (drop ==> entries != [])
    ensures HoldsLatest((if drop then entries[1..] else entries) + [e], records + [r])
  {
    hide Records;
  }

  /** The window holds as many of the latest records as fit, in order. */
  lemma {:induction false} WindowHoldsLatest(h: Hasher, capacity: nat, records: seq<Record>)
    ensures var s := Replay(h, capacity, records);
            s.capacity == Max(capacity, 1) && |s.entries| == Min(|records|, s.capacity) && HoldsLatest(s.entries, records)
  {
    if records != [] {
      hide HoldsLatest, Records, NextEntry;
      var n := |records| - 1;
      var r := records[n];
      WindowHoldsLatest(h, capacity, records[..n]);
      var before := Replay(h, capacity, records[..n]);
      NewEntryRecords(h, before, r);
      PushHoldsLatest(before.entries, records[..n], |before.entries| == before.capacity && before.entries != [],
                      NextEntry(h, before, r.timestampMs, r.outcome, r.count), r);
      assert records[..n] + [r] == records;
    }
  }

  lemma NewEntryRecords(h: Hasher, s: State, r: Record)
    ensures Records(NextEntry(h, s, r.timestampMs, r.outcome, r.count), r)
  {
    hide Preimage;
  }

  // ----- Tamper evidence

  /** Two entries whose different preimages the hash maps to one digest. */
  predicate Collide(h: Hasher, a: Entry, b: Entry) {
    EntryPreimage(a) != EntryPreimage(b) && h(EntryPreimage(a)) == h(EntryPreimage(b))
  }

  lemma {:induction false} LastOfChain(h: Hasher, entries: seq<Entry>, sequence: u64, previous: Digest)
    requires ChainFrom(h, entries, sequence, previous) && entries != []
    ensures Sealed(h, entries[|entries| - 1])
    ensures |entries| > 1 ==> entries[|entries| - 1].previousHash == entries[|entries| - 2].hash
    ensures ChainFrom(h, entries[..|entries| - 1], sequence, previous)
    decreases |entries|
  {
    if |entries| > 1 {
      var tail := entries[1..];
      LastOfChain(h, tail, SatIncU64(sequence), entries[0].hash);
      assert tail[|tail| - 1] == entries[|entries| - 1];
      assert entries[..|entries| - 1][1..] == tail[..|tail| - 1];
      if |entries| > 2 {
        assert tail[|tail| - 2] == entries[|entries| - 2];
      }
    }
  }

  /** The last hash pins the whole window: two verifying windows of equal length with the same last hash
      are equal entry by entry, or the entries at some position are a collision of the hash. */
  lemma {:induction false} LastHashPinsWindow(h: Hasher, a: seq<Entry>, b: seq<Entry>)
    requires Verifies(h, a) && Verifies(h, b) && |a| == |b|
    requires a != [] ==> a[|a| - 1].hash == b[|b| - 1].hash
    ensures a == b || exists i :: 0 <= i < |a| && Collide(h, a[i], b[i])
    decreases |a|
  {
    hide EntryPreimage;
    if a != [] {
      var n := |a| - 1;
      LastOfChain(h, a, a[0].sequence, a[0].previousHash);
      LastOfChain(h, b, b[0].sequence, b[0].previousHash);
      if !Collide(h, a[n], b[n]) {
        PreimageInjective(a[n], b[n]);
        if n > 0 {
          assert a[..n][n - 1] == a[n - 1] && b[..n][n - 1] == b[n - 1];
          LastHashPinsWindow(h, a[..n], b[..n]);
        }
        assert a == a[..n] + [a[n]] && b == b[..n] + [b[n]];
      }
    }
  }

  /** So a window changed anywhere, but kept at its length and last hash, fails verification unless a
      changed entry collides with the one it replaced. */
  lemma TamperingIsDetected(h: Hasher, capacity: nat, records: seq<Record>, tampered: seq<Entry>)
    requires records != []
    requires var s := Replay(h, capacity, records);
             && |tampered| == |s.entries| && tampered != s.entries
             && tampered[|tampered| - 1].hash == s.previousHash
    requires var s := Replay(h, capacity, records);
             forall i :: 0 <= i < |s.entries| ==> !Collide(h, tampered[i], s.entries[i])
    ensures !Verifies(h, tampered)
  {
    WindowVerifies(h, capacity, records);
    WindowHoldsLatest(h, capacity, records);
    if Verifies(h, tampered) {
      LastHashPinsWindow(h, tampered, Replay(h, capacity, records).entries);
    }
  }
}
