/** The two reliability policies of the capture worker: byte accounting for its queue, and the
    escalation from re-subscribing to restarting to a degraded pause. */
module Reliability {
  import opened Options

  const USIZE_MAX: nat := 0xFFFF_FFFF_FFFF_FFFF
  const U8_MAX: nat := 255

  type usize = n: nat | n <= USIZE_MAX
  type u8 = n: nat | n <= U8_MAX

  function SatAdd(a: usize, b: usize): usize { Min(a + b, USIZE_MAX) }
  function SatSub(a: usize, b: usize): usize { Max(a - b, 0) }
  function SatIncU8(a: u8): u8 { Min(a + 1, U8_MAX) }

  // ----- Byte accounting

  datatype Admission = Full | Preview(maxBytes: usize) | Shed

  datatype Pressure = Pressure(soft: usize, hard: usize, maxItems: usize, preview: usize, bytes: usize, items: usize)

  function NewPressure(soft: usize, hard: usize, maxItems: usize, preview: usize): Pressure {
    Pressure(Max(soft, 1), Max(hard, Max(soft, 1)), Max(maxItems, 1), Max(preview, 1), 0, 0)
  }

  function Verdict(p: Pressure, payload: usize): Admission {
    if p.items >= p.maxItems || SatAdd(p.bytes, payload) > p.hard then Shed
    else if SatAdd(p.bytes, payload) > p.soft then Preview(Min(p.preview, payload))
    else Full
  }

  /** What an admission charges. */
  function Charge(a: Admission, payload: usize): usize {
    match a
    case Full => payload
    case Preview(n) => n
    case Shed => 0
  }

  function Admitted(p: Pressure, payload: usize): Pressure {
    var a := Verdict(p, payload);
    if a.Shed? then p else p.(bytes := SatAdd(p.bytes, Charge(a, payload)), items := SatAdd(p.items, 1))
  }

  function Released(p: Pressure, charge: usize): Pressure {
    p.(bytes := SatSub(p.bytes, charge), items := SatSub(p.items, 1))
  }

  function Relimited(p: Pressure, soft: usize, hard: usize, preview: usize): Pressure {
    if p.items != 0 then p
    else p.(soft := Max(soft, 1), hard := Max(hard, Max(soft, 1)), preview := Max(preview, 1))
  }

  class ByteBackpressure {
    var soft: usize
    var hard: usize
    var maxItems: usize
    var preview: usize
    var bytes: usize
    var items: usize

    function View(): Pressure
      reads this
    {
      Pressure(soft, hard, maxItems, preview, bytes, items)
    }

    constructor (soft: usize, hard: usize, maxItems: usize, preview: usize)
      ensures View() == NewPressure(soft, hard, maxItems, preview)
      ensures this.soft == Max(soft, 1) && this.hard == Max(hard, this.soft) && this.maxItems == Max(maxItems, 1)
      ensures this.preview == Max(preview, 1) && bytes == 0 && items == 0
    {
      this.soft := Max(soft, 1);
      this.hard := Max(hard, Max(soft, 1));
      this.maxItems, this.preview := Max(maxItems, 1), Max(preview, 1);
      bytes, items := 0, 0;
    }

    method Admit(payload: usize) returns (a: Admission)
      modifies this
      ensures a == Verdict(old(View()), payload) && View() == Admitted(old(View()), payload)
      ensures a.Shed? <==> old(items) >= maxItems || (hard < USIZE_MAX && old(bytes) + payload > hard)
      ensures a.Preview? <==> !a.Shed? && soft < USIZE_MAX && old(bytes) + payload > soft
      ensures a.Preview? ==> a.maxBytes == if preview < payload then preview else payload
      ensures a.Shed? ==> items == old(items) && bytes == old(bytes)
      ensures !a.Shed? ==> items == Min(old(items) + 1, USIZE_MAX) &&
                           bytes == Min(old(bytes) + (if a.Full? then payload else a.maxBytes), USIZE_MAX)
      ensures soft == old(soft) && hard == old(hard) && maxItems == old(maxItems) && preview == old(preview)
    {
      if items >= maxItems || SatAdd(bytes, payload) > hard {
        return Shed;
      }
      if SatAdd(bytes, payload) > soft {
        a := Preview(Min(preview, payload));
      } else {
        a := Full;
      }
      bytes := SatAdd(bytes, Charge(a, payload));
      items := SatAdd(items, 1);
    }

    method Release(charge: usize)
      modifies this
      ensures View() == Released(old(View()), charge)
      ensures bytes == Max(old(bytes) - charge, 0) && items == Max(old(items) - 1, 0)
    {
      bytes := SatSub(bytes, charge);
      items := SatSub(items, 1);
    }

    method UpdateLimits(newSoft: usize, newHard: usize, newPreview: usize) returns (updated: bool)
      modifies this
      ensures View() == Relimited(old(View()), newSoft, newHard, newPreview)
      ensures updated <==> old(items) == 0
      ensures updated ==> soft == Max(newSoft, 1) && hard == Max(newHard, soft) && preview == Max(newPreview, 1)
    {
      if items != 0 {
        return false;
      }
      soft := Max(newSoft, 1);
      hard := Max(newHard, soft);
      preview := Max(newPreview, 1);
      return true;
    }
  }

  /** A caller's run: it releases only charges it was given, each once. */
  datatype QueueOp = AdmitOp(payload: usize) | ReleaseOp(index: nat) | LimitsOp(newSoft: usize, newHard: usize, newPreview: usize)

  datatype Account = Account(p: Pressure, outstanding: seq<usize>)

  predicate Honest(a: Account, op: QueueOp) {
    op.ReleaseOp? ==> op.index < |a.outstanding|
  }

  function Book(a: Account, op: QueueOp): Account
    requires Honest(a, op)
  {
    match op
    case AdmitOp(n) =>
      var v := Verdict(a.p, n);
      Account(Admitted(a.p, n), if v.Shed? then a.outstanding else a.outstanding + [Charge(v, n)])
    case ReleaseOp(i) =>
      Account(Released(a.p, a.outstanding[i]), a.outstanding[..i] + a.outstanding[i + 1..])
    case LimitsOp(s, h, v) => a.(p := Relimited(a.p, s, h, v))
  }

  predicate HonestRun(a: Account, ops: seq<QueueOp>)
    decreases |ops|
  {
    ops == [] || (Honest(a, ops[0]) && HonestRun(Book(a, ops[0]), ops[1..]))
  }

  function BookAll(a: Account, ops: seq<QueueOp>): Account
    requires HonestRun(a, ops)
    decreases |ops|
  {
    if ops == [] then a else BookAll(Book(a, ops[0]), ops[1..])
  }

  function Sum(s: seq<usize>): nat {
    if s == [] then 0 else s[0] + Sum(s[1..])
  }

  lemma {:induction false} SumConcat(a: seq<usize>, b: seq<usize>)
    ensures Sum(a + b) == Sum(a) + Sum(b)
  {
    if a == [] {
      assert a + b == b;
    } else {
      SumConcat(a[1..], b);
      assert (a + b)[1..] == a[1..] + b;
    }
  }

  lemma SumWithout(s: seq<usize>, i: nat)
    requires i < |s|
    ensures Sum(s[..i] + s[i + 1..]) == Sum(s) - s[i] && s[i] <= Sum(s)
  {
    var before, after := s[..i], s[i + 1..];
    SumCons(s[i], after);
    hide Sum;
    assert s == before + ([s[i]] + after);
    SumConcat(before, [s[i]] + after);
    SumConcat(before, after);
  }

  lemma SumCons(x: usize, s: seq<usize>)
    ensures Sum([x] + s) == x + Sum(s)
  {
    assert ([x] + s)[1..] == s;
  }

  /** No sum of charges can reach the ceiling of the integer type unnoticed. */
  predicate NoSaturation(p: Pressure) { p.maxItems == 1 || p.hard < USIZE_MAX }

  ghost predicate Conserved(a: Account) {
    && a.p.bytes == Sum(a.outstanding) && a.p.items == |a.outstanding| <= a.p.maxItems
    && a.p.bytes <= a.p.hard && a.p.maxItems >= 1
  }

  lemma BookConserves(a: Account, op: QueueOp)
    requires Conserved(a) && NoSaturation(a.p) && Honest(a, op)
    ensures Conserved(Book(a, op)) && Book(a, op).p.maxItems == a.p.maxItems
  {
    match op
    case AdmitOp(n) =>
      var v := Verdict(a.p, n);
      SumConcat(a.outstanding, [Charge(v, n)]);
      assert a.p.items == 0 ==> a.outstanding == [];
    case ReleaseOp(i) => SumWithout(a.outstanding, i);
    case LimitsOp(_, _, _) => assert a.p.items == 0 ==> a.outstanding == [];
  }

  predicate OpWithin(op: QueueOp, maxItems: usize) {
    op.LimitsOp? ==> maxItems == 1 || Max(op.newHard, Max(op.newSoft, 1)) < USIZE_MAX
  }

  /** In every run that releases what was admitted, `queued_bytes` is the sum of the outstanding
      charges and stays within the hard limit, provided the queue holds one item or no hard limit
      is the largest integer. */
  lemma {:induction false} QueuedBytesAreOutstanding(a: Account, ops: seq<QueueOp>)
    requires Conserved(a) && NoSaturation(a.p) && HonestRun(a, ops)
    requires forall op :: op in ops ==> OpWithin(op, a.p.maxItems)
    ensures Conserved(BookAll(a, ops))
    decreases |ops|
  {
    if ops != [] {
      assert ops[0] in ops && forall op :: op in ops[1..] ==> op in ops;
      BookConserves(a, ops[0]);
      QueuedBytesAreOutstanding(Book(a, ops[0]), ops[1..]);
    }
  }

  // ----- Exactly when the accounting is exact

  predicate LimitsKept(ops: seq<QueueOp>) { forall op :: op in ops ==> !op.LimitsOp? }

  ghost predicate AlwaysConserved(p: Pressure) {
    forall ops: seq<QueueOp> :: LimitsKept(ops) && HonestRun(Account(p, []), ops) ==> Conserved(BookAll(Account(p, []), ops))
  }

  /** The most that a full queue can be charged stays within the integer type. */
  predicate FullQueueFits(p: Pressure) {
    || p.hard < USIZE_MAX || p.maxItems == 1
    || (p.soft < USIZE_MAX && Max(p.soft, p.preview) + (p.maxItems - 1) * p.preview <= USIZE_MAX)
  }

  /** The outstanding charges admitted in full. */
  function FullSum(s: seq<usize>, full: seq<bool>): nat
    requires |s| == |full|
  {
    if s == [] then 0 else (if full[0] then s[0] else 0) + FullSum(s[1..], full[1..])
  }

  /** Full charges fit the soft limit together, and every other charge fits a preview. */
  ghost predicate Classified(a: Account, full: seq<bool>) {
    && |full| == |a.outstanding| && FullSum(a.outstanding, full) <= a.p.soft
    && forall i :: 0 <= i < |full| && !full[i] ==> a.outstanding[i] <= a.p.preview
  }

  lemma {:induction false} FullSumConcat(s: seq<usize>, t: seq<usize>, full: seq<bool>, more: seq<bool>)
    requires |s| == |full| && |t| == |more|
    ensures FullSum(s + t, full + more) == FullSum(s, full) + FullSum(t, more)
  {
    if s == [] {
      assert s + t == t && full + more == more;
    } else {
      assert (s + t)[1..] == s[1..] + t && (full + more)[1..] == full[1..] + more;
      FullSumConcat(s[1..], t, full[1..], more);
    }
  }

  lemma {:induction false} FullSumBound(s: seq<usize>, full: seq<bool>)
    requires |s| == |full|
    ensures FullSum(s, full) <= Sum(s)
  {
    if s != [] {
      FullSumBound(s[1..], full[1..]);
    }
  }

  /** What `n` charges can come to: one of the larger kind, the rest previews. */
  lemma {:induction false} ChargesBound(s: seq<usize>, full: seq<bool>, preview: nat)
    requires |s| == |full| && s != [] && forall i :: 0 <= i < |s| && !full[i] ==> s[i] <= preview
    ensures Sum(s) <= Max(FullSum(s, full), preview) + (|s| - 1) * preview
    ensures true !in full ==> Sum(s) <= |s| * preview
    ensures true in full ==> Sum(s) <= FullSum(s, full) + (|s| - 1) * preview
  {
    assert full == [full[0]] + full[1..];
    assert (|s| - 1) * preview + preview == |s| * preview;
    if |s| == 1 {
      assert s[1..] == [] && Sum(s[1..]) == 0 && FullSum(s[1..], full[1..]) == 0;
      assert full[1..] == [];
    } else {
      var n := |s| - 1;
      ChargesBound(s[1..], full[1..], preview);
      assert (n - 1) * preview + preview == n * preview;
    }
  }

  lemma AdmitClassifies(a: Account, full: seq<bool>, n: usize) returns (full': seq<bool>)
    requires Conserved(a) && Classified(a, full) && FullQueueFits(a.p)
    ensures Classified(Book(a, AdmitOp(n)), full')
  {
    var v := Verdict(a.p, n);
    full' := if v.Shed? then full else full + [v.Full?];
    FullSumConcat(a.outstanding, [Charge(v, n)], full, [v.Full?]);
    FullSumBound(a.outstanding, full);
    assert FullSum([Charge(v, n)], [v.Full?]) == if v.Full? then Charge(v, n) else 0 by {
      assert [Charge(v, n)][1..] == [] && [v.Full?][1..] == [];
    }
  }

  lemma ReleaseClassifies(a: Account, full: seq<bool>, i: nat) returns (full': seq<bool>)
    requires Conserved(a) && Classified(a, full) && i < |a.outstanding|
    ensures Classified(Book(a, ReleaseOp(i)), full')
  {
    full' := full[..i] + full[i + 1..];
    FullSumWithout(a.outstanding, full, i);
    hide FullSum, Sum;
    var s, s' := a.outstanding, a.outstanding[..i] + a.outstanding[i + 1..];
    assert forall k :: 0 <= k < |s'| ==> s'[k] == s[if k < i then k else k + 1] && full'[k] == full[if k < i then k else k + 1];
  }

  lemma FullSumWithout(s: seq<usize>, full: seq<bool>, i: nat)
    requires |s| == |full| && i < |s|
    ensures FullSum(s[..i] + s[i + 1..], full[..i] + full[i + 1..]) <= FullSum(s, full)
  {
    hide FullSum;
    FullSumConcat(s[..i], s[i + 1..], full[..i], full[i + 1..]);
    FullSumConcat([s[i]], s[i + 1..], [full[i]], full[i + 1..]);
    FullSumConcat(s[..i], [s[i]] + s[i + 1..], full[..i], [full[i]] + full[i + 1..]);
    assert s == s[..i] + ([s[i]] + s[i + 1..]) && full == full[..i] + ([full[i]] + full[i + 1..]);
  }

  lemma AdmitFits(a: Account, full: seq<bool>, n: usize)
    requires Conserved(a) && Classified(a, full) && FullQueueFits(a.p) && !NoSaturation(a.p) && !Verdict(a.p, n).Shed?
    ensures a.p.bytes + Charge(Verdict(a.p, n), n) <= USIZE_MAX
  {
    var v := Verdict(a.p, n);
    if v.Preview? && a.outstanding != [] {
      ChargesBound(a.outstanding, full, a.p.preview);
      hide FullSum, Sum, Verdict;
      OneMorePreview(|a.outstanding|, a.p.maxItems, a.p.preview);
    }
  }

  lemma OneMorePreview(k: nat, n: nat, size: nat)
    requires 1 <= k < n
    ensures (k - 1) * size + size <= (n - 1) * size
  {
    MoreItems(k, n - 1, size);
    assert (k - 1) * size + size == k * size;
  }

  lemma MoreItems(m: nat, n: nat, size: nat)
    requires m <= n
    ensures m * size <= n * size
  {
  }

  lemma FittingConserves(a: Account, full: seq<bool>, op: QueueOp)
    requires Conserved(a) && Classified(a, full) && FullQueueFits(a.p) && Honest(a, op) && !op.LimitsOp?
    ensures Conserved(Book(a, op))
  {
    if NoSaturation(a.p) {
      BookConserves(a, op);
    } else if op.AdmitOp? {
      var v := Verdict(a.p, op.payload);
      SumConcat(a.outstanding, [Charge(v, op.payload)]);
      if !v.Shed? {
        AdmitFits(a, full, op.payload);
      }
    } else {
      SumWithout(a.outstanding, op.index);
    }
  }

  lemma {:induction false} FittingRunConserves(a: Account, full: seq<bool>, ops: seq<QueueOp>)
    requires Conserved(a) && Classified(a, full) && FullQueueFits(a.p) && HonestRun(a, ops) && LimitsKept(ops)
    ensures Conserved(BookAll(a, ops))
    decreases |ops|
  {
    if ops != [] {
      var op := ops[0];
      assert op in ops && forall o :: o in ops[1..] ==> o in ops;
      FittingConserves(a, full, op);
      var next := full;
      match op {
        case AdmitOp(n) => next := AdmitClassifies(a, full, n);
        case ReleaseOp(i) => next := ReleaseClassifies(a, full, i);
        case LimitsOp(_, _, _) => assert false;
      }
      hide Conserved, Classified;
      FittingRunConserves(Book(a, op), next, ops[1..]);
    }
  }

  // ----- Filling the queue

  /** `n` admissions of the largest payload. */
  function Repeated(n: nat): seq<QueueOp> {
    if n == 0 then [] else [AdmitOp(USIZE_MAX)] + Repeated(n - 1)
  }

  lemma {:induction false} RepeatedKeepsLimits(n: nat)
    ensures LimitsKept(Repeated(n))
  {
    if n > 0 {
      RepeatedKeepsLimits(n - 1);
    }
  }

  /** Once the soft limit is passed, each is charged one preview. */
  lemma {:induction false} PreviewsPile(a: Account, n: nat)
    requires a.p.hard == USIZE_MAX && a.p.soft < USIZE_MAX && a.p.items + n <= a.p.maxItems
    ensures HonestRun(a, Repeated(n))
    ensures Sum(BookAll(a, Repeated(n)).outstanding) == Sum(a.outstanding) + n * a.p.preview
    decreases n
  {
    if n > 0 {
      hide Book, Sum;
      PilePreview(a);
      PreviewsPile(Book(a, AdmitOp(USIZE_MAX)), n - 1);
      hide HonestRun, BookAll;
      RunCons(a, AdmitOp(USIZE_MAX), Repeated(n - 1));
      assert (n - 1) * a.p.preview + a.p.preview == n * a.p.preview;
    }
  }

  lemma PilePreview(a: Account)
    requires a.p.hard == USIZE_MAX && a.p.soft < USIZE_MAX && a.p.items < a.p.maxItems
    ensures var next := Book(a, AdmitOp(USIZE_MAX));
            && next.p == a.p.(bytes := next.p.bytes, items := a.p.items + 1)
            && Sum(next.outstanding) == Sum(a.outstanding) + a.p.preview
  {
    SumConcat(a.outstanding, [a.p.preview]);
    assert Sum([a.p.preview]) == a.p.preview;
  }

  lemma RunCons(a: Account, op: QueueOp, ops: seq<QueueOp>)
    requires Honest(a, op) && HonestRun(Book(a, op), ops)
    ensures HonestRun(a, [op] + ops) && BookAll(a, [op] + ops) == BookAll(Book(a, op), ops)
  {
    assert ([op] + ops)[1..] == ops;
  }

  /** The payload whose charge leaves the most, and the rest of the queue behind it. */
  lemma OverfullRun(p: Pressure) returns (ops: seq<QueueOp>)
    requires !FullQueueFits(p) && p.bytes == 0 && p.items == 0 && p.maxItems >= 1 && p.soft >= 1
    ensures LimitsKept(ops) && HonestRun(Account(p, []), ops)
    ensures Sum(BookAll(Account(p, []), ops).outstanding) > USIZE_MAX
  {
    if p.soft == USIZE_MAX {
      ops := TwoFull(p);
    } else {
      ops := OnePlusPreviews(p);
    }
  }

  lemma TwoFull(p: Pressure) returns (ops: seq<QueueOp>)
    requires p.soft == p.hard == USIZE_MAX && p.bytes == 0 && p.items == 0 && p.maxItems >= 2
    ensures LimitsKept(ops) && HonestRun(Account(p, []), ops)
    ensures Sum(BookAll(Account(p, []), ops).outstanding) > USIZE_MAX
  {
    var start := Account(p, []);
    var a1 := Book(start, AdmitOp(USIZE_MAX));
    var a2 := Book(a1, AdmitOp(1));
    assert a1.outstanding == [USIZE_MAX] && a2.outstanding == [USIZE_MAX] + [1];
    hide Book;
    SumCons(USIZE_MAX, [1]);
    SumCons(1, []);
    assert [1] + [] == [1];
    assert HonestRun(a2, []) && BookAll(a2, []) == a2;
    hide HonestRun, BookAll, Sum;
    RunCons(a1, AdmitOp(1), []);
    RunCons(start, AdmitOp(USIZE_MAX), [AdmitOp(1)] + []);
    ops := [AdmitOp(USIZE_MAX)] + ([AdmitOp(1)] + []);
  }

  /** The first admission that charges most: the soft limit in full, or a preview. */
  lemma LargestCharge(p: Pressure) returns (first: QueueOp)
    requires p.hard == USIZE_MAX && 1 <= p.soft < USIZE_MAX && p.bytes == 0 && p.items == 0 && p.maxItems >= 1
    ensures first.AdmitOp?
    ensures var next := Book(Account(p, []), first);
            next.p == p.(bytes := next.p.bytes, items := 1) && Sum(next.outstanding) == Max(p.soft, p.preview)
  {
    var most := Max(p.soft, p.preview);
    first := AdmitOp(if p.soft >= p.preview then p.soft else USIZE_MAX);
    var next := Book(Account(p, []), first);
    assert next.outstanding == [most];
    assert [most][1..] == [];
  }

  lemma PreviewsBehind(a: Account, first: QueueOp, n: nat)
    requires first.AdmitOp?
    requires var next := Book(a, first).p; next.hard == USIZE_MAX && next.soft < USIZE_MAX && next.items + n <= next.maxItems
    ensures var ops := [first] + Repeated(n);
            && LimitsKept(ops) && HonestRun(a, ops)
            && Sum(BookAll(a, ops).outstanding) == Sum(Book(a, first).outstanding) + n * Book(a, first).p.preview
  {
    hide Book, Sum, HonestRun, BookAll, Repeated;
    PreviewsPile(Book(a, first), n);
    RunCons(a, first, Repeated(n));
    RepeatedKeepsLimits(n);
  }

  lemma OnePlusPreviews(p: Pressure) returns (ops: seq<QueueOp>)
    requires p.hard == USIZE_MAX && 1 <= p.soft < USIZE_MAX && p.bytes == 0 && p.items == 0 && p.maxItems >= 1
    requires Max(p.soft, p.preview) + (p.maxItems - 1) * p.preview > USIZE_MAX
    ensures LimitsKept(ops) && HonestRun(Account(p, []), ops)
    ensures Sum(BookAll(Account(p, []), ops).outstanding) > USIZE_MAX
  {
    hide Book, Sum, HonestRun, BookAll, Repeated, LimitsKept;
    var first := LargestCharge(p);
    PreviewsBehind(Account(p, []), first, p.maxItems - 1);
    ops := [first] + Repeated(p.maxItems - 1);
  }

  /** With its limits left alone, the queue accounts for every outstanding byte in every run if and only
      if its hard limit is below the largest integer, or it holds one item, or all it can ever be
      charged fits the integer type. */
  lemma ConservesIff(soft: usize, hard: usize, maxItems: usize, preview: usize)
    ensures var p := NewPressure(soft, hard, maxItems, preview);
            AlwaysConserved(p) <==> FullQueueFits(p)
  {
    var p := NewPressure(soft, hard, maxItems, preview);
    var start := Account(p, []);
    if FullQueueFits(p) {
      forall ops: seq<QueueOp> | LimitsKept(ops) && HonestRun(start, ops) ensures Conserved(BookAll(start, ops)) {
        FittingRunConserves(start, [], ops);
      }
    } else {
      var ops := OverfullRun(p);
      assert !Conserved(BookAll(start, ops));
    }
  }

  // ----- Escalation

  datatype RecoveryAction = NoAction | Resubscribe | RestartBackend | EnterDegraded(retryAfterMs: nat)

  datatype Observation = Healthy | SubscriptionLost | BackendFailed | RecoverySucceeded

  datatype Supervisor = Supervisor(resubscribeLimit: u8, restartLimit: u8, failures: u8, restarts: u8, degradedRetryMs: nat)

  function NewSupervisor(resubscribeLimit: u8, restartLimit: u8, retryMs: nat): Supervisor {
    Supervisor(Max(resubscribeLimit, 1), Max(restartLimit, 1), 0, 0, Max(retryMs, 1_000))
  }

  function RequestRestart(s: Supervisor): (Supervisor, RecoveryAction) {
    var n := SatIncU8(s.restarts);
    if n <= s.restartLimit then (s.(restarts := n), RestartBackend)
    else (s.(restarts := 0), EnterDegraded(s.degradedRetryMs))
  }

  function Observe(s: Supervisor, o: Observation): (Supervisor, RecoveryAction) {
    match o
    case Healthy => (s.(failures := 0, restarts := 0), NoAction)
    case RecoverySucceeded => (s.(failures := 0, restarts := 0), NoAction)
    case SubscriptionLost =>
      var n := SatIncU8(s.failures);
      if n <= s.resubscribeLimit then (s.(failures := n), Resubscribe)
      else RequestRestart(s.(failures := 0))
    case BackendFailed => RequestRestart(s)
  }

  class CaptureSupervisor {
    const resubscribeLimit: u8
    const restartLimit: u8
    const degradedRetryMs: nat
    var failures: u8
    var restarts: u8

    function View(): Supervisor
      reads this
    {
      Supervisor(resubscribeLimit, restartLimit, failures, restarts, degradedRetryMs)
    }

    constructor (resubscribeLimit: u8, restartLimit: u8, retryMs: nat)
      ensures View() == NewSupervisor(resubscribeLimit, restartLimit, retryMs)
      ensures this.resubscribeLimit == Max(resubscribeLimit, 1) && this.restartLimit == Max(restartLimit, 1)
      ensures degradedRetryMs == Max(retryMs, 1_000) && failures == 0 && restarts == 0
    {
      this.resubscribeLimit, this.restartLimit := Max(resubscribeLimit, 1), Max(restartLimit, 1);
      degradedRetryMs, failures, restarts := Max(retryMs, 1_000), 0, 0;
    }

    method Note(o: Observation) returns (action: RecoveryAction)
      modifies this
      ensures (View(), action) == Observe(old(View()), o)
      ensures action.NoAction? <==> o.Healthy? || o.RecoverySucceeded?
      ensures action.NoAction? ==> failures == 0 && restarts == 0
      ensures action.Resubscribe? <==> o.SubscriptionLost? && Min(old(failures) + 1, 255) <= resubscribeLimit
      ensures action.Resubscribe? ==> failures == Min(old(failures) + 1, 255) && restarts == old(restarts)
      ensures action.RestartBackend? ==> Min(old(restarts) + 1, 255) <= restartLimit && restarts == Min(old(restarts) + 1, 255)
      ensures action.EnterDegraded? ==> action.retryAfterMs == degradedRetryMs && restarts == 0 &&
                                        Min(old(restarts) + 1, 255) > restartLimit
    {
      match o {
        case Healthy =>
          failures, restarts := 0, 0;
          return NoAction;
        case RecoverySucceeded =>
          failures, restarts := 0, 0;
          return NoAction;
        case SubscriptionLost =>
          failures := SatIncU8(failures);
          if failures <= resubscribeLimit {
            return Resubscribe;
          }
          failures := 0;
          action := AskRestart();
        case BackendFailed =>
          action := AskRestart();
      }
    }

    method AskRestart() returns (action: RecoveryAction)
      modifies this
      ensures (View(), action) == RequestRestart(old(View()))
      ensures action.RestartBackend? || action.EnterDegraded?
      ensures action.RestartBackend? <==> Min(old(restarts) + 1, 255) <= restartLimit
    {
      restarts := SatIncU8(restarts);
      if restarts <= restartLimit {
        return RestartBackend;
      }
      restarts := 0;
      return EnterDegraded(degradedRetryMs);
    }
  }

  predicate Failing(o: Observation) { o.SubscriptionLost? || o.BackendFailed? }

  predicate WithinLimits(s: Supervisor) {
    1 <= s.resubscribeLimit && 1 <= s.restartLimit && s.failures <= s.resubscribeLimit && s.restarts <= s.restartLimit
  }

  predicate Degrades(s: Supervisor, obs: seq<Observation>)
    decreases |obs|
  {
    obs != [] && (Observe(s, obs[0]).1.EnterDegraded? || Degrades(Observe(s, obs[0]).0, obs[1..]))
  }

  /** How many more failures the supervisor can absorb before it degrades. */
  function Patience(s: Supervisor): int {
    (s.restartLimit - s.restarts) * (s.resubscribeLimit + 1) + (s.resubscribeLimit + 1 - s.failures)
  }

  lemma PatienceDecreases(s: Supervisor, o: Observation)
    requires WithinLimits(s) && s.resubscribeLimit < U8_MAX && s.restartLimit < U8_MAX && Failing(o)
    ensures WithinLimits(Observe(s, o).0)
    ensures !Observe(s, o).1.EnterDegraded? ==> 1 <= Patience(Observe(s, o).0) < Patience(s)
    ensures Observe(s, o).0.resubscribeLimit == s.resubscribeLimit && Observe(s, o).0.restartLimit == s.restartLimit
  {
    RoundOfRetries(s.restartLimit - s.restarts, s.resubscribeLimit + 1);
  }

  lemma RoundOfRetries(rounds: nat, k: nat)
    ensures rounds * k >= 0
    ensures rounds > 0 ==> (rounds - 1) * k == rounds * k - k && (rounds - 1) * k >= 0
  {
  }

  lemma PatiencePositive(s: Supervisor)
    requires WithinLimits(s)
    ensures Patience(s) >= 1
  {
    assert (s.restartLimit - s.restarts) * (s.resubscribeLimit + 1) >= 0;
  }

  lemma {:induction false} DegradesWithinPatience(s: Supervisor, obs: seq<Observation>)
    requires WithinLimits(s) && s.resubscribeLimit < U8_MAX && s.restartLimit < U8_MAX
    requires |obs| >= Patience(s) && forall o :: o in obs ==> Failing(o)
    ensures Degrades(s, obs)
    decreases |obs|
  {
    PatiencePositive(s);
    hide Patience, Observe, WithinLimits;
    assert obs[0] in obs && forall o :: o in obs[1..] ==> o in obs;
    PatienceDecreases(s, obs[0]);
    if !Observe(s, obs[0]).1.EnterDegraded? {
      DegradesWithinPatience(Observe(s, obs[0]).0, obs[1..]);
    }
  }

  lemma {:induction false} NeverDegradesAtCeiling(s: Supervisor, obs: seq<Observation>)
    requires (s.resubscribeLimit == U8_MAX && forall o :: o in obs ==> o.SubscriptionLost?)
          || (s.restartLimit == U8_MAX && forall o :: o in obs ==> o.BackendFailed?)
    ensures !Degrades(s, obs)
    decreases |obs|
  {
    if obs != [] {
      assert obs[0] in obs && forall o :: o in obs[1..] ==> o in obs;
      NeverDegradesAtCeiling(Observe(s, obs[0]).0, obs[1..]);
    }
  }

  /** Every run of that many failures without a recovery ends in a degraded pause. */
  ghost predicate AlwaysEscalates(s: Supervisor, bound: nat) {
    forall obs: seq<Observation> :: |obs| >= bound && (forall o :: o in obs ==> Failing(o)) ==> Degrades(s, obs)
  }

  /** Any mix of failures without a recovery reaches the degraded pause within
      (resubscribe_limit + 1) * (restart_limit + 1) observations if and only if neither limit is 255;
      at 255 the saturating count never exceeds the limit, however many failures follow. */
  lemma EscalatesIff(resubscribeLimit: u8, restartLimit: u8, retryMs: nat)
    ensures var s := NewSupervisor(resubscribeLimit, restartLimit, retryMs);
            var bound := (s.resubscribeLimit + 1) * (s.restartLimit + 1);
            AlwaysEscalates(s, bound) <==> resubscribeLimit < U8_MAX && restartLimit < U8_MAX
  {
    var s := NewSupervisor(resubscribeLimit, restartLimit, retryMs);
    var bound := (s.resubscribeLimit + 1) * (s.restartLimit + 1);
    if resubscribeLimit < U8_MAX && restartLimit < U8_MAX {
      assert Patience(s) == bound;
      forall obs: seq<Observation> | |obs| >= bound && (forall o :: o in obs ==> Failing(o)) ensures Degrades(s, obs) {
        DegradesWithinPatience(s, obs);
      }
    } else {
      var obs := UnansweredFailures(s, bound);
    }
  }

  /** As many failures as wanted that never lead to the pause. */
  lemma UnansweredFailures(s: Supervisor, n: nat) returns (obs: seq<Observation>)
    requires s.resubscribeLimit == U8_MAX || s.restartLimit == U8_MAX
    ensures |obs| == n && (forall o :: o in obs ==> Failing(o)) && !Degrades(s, obs)
  {
    var o := if s.restartLimit == U8_MAX then BackendFailed else SubscriptionLost;
    obs := seq(n, i => o);
    assert forall x :: x in obs ==> x == o;
    NeverDegradesAtCeiling(s, obs);
  }

  /** Backend restarts ordered since the last reset or degraded pause. */
  function RestartsSince(s: Supervisor, obs: seq<Observation>, sofar: nat): nat
    decreases |obs|
  {
    if obs == [] then sofar
    else
      var r := Observe(s, obs[0]);
      RestartsSince(r.0, obs[1..],
        if r.1.NoAction? || r.1.EnterDegraded? then 0 else if r.1.RestartBackend? then sofar + 1 else sofar)
  }

  function After(s: Supervisor, obs: seq<Observation>): Supervisor
    decreases |obs|
  {
    if obs == [] then s else After(Observe(s, obs[0]).0, obs[1..])
  }

  lemma {:induction false} RestartsAreCounted(s: Supervisor, obs: seq<Observation>)
    requires WithinLimits(s) && s.restartLimit < U8_MAX
    ensures RestartsSince(s, obs, s.restarts) == After(s, obs).restarts
    ensures After(s, obs).restartLimit == s.restartLimit && WithinLimits(After(s, obs))
    decreases |obs|
  {
    if obs != [] {
      RestartsAreCounted(Observe(s, obs[0]).0, obs[1..]);
    }
  }

  /** The degraded pause never comes before `restart_limit` restarts since the last reset or pause. */
  lemma DegradesOnlyAfterRestarts(resubscribeLimit: u8, restartLimit: u8, retryMs: nat, obs: seq<Observation>, o: Observation)
    ensures var s := NewSupervisor(resubscribeLimit, restartLimit, retryMs);
            Observe(After(s, obs), o).1.EnterDegraded? ==> RestartsSince(s, obs, 0) == Max(restartLimit, 1)
  {
    var s := NewSupervisor(resubscribeLimit, restartLimit, retryMs);
    LimitsKeep(s, obs);
    if restartLimit < U8_MAX {
      RestartsAreCounted(s, obs);
    }
  }

  lemma {:induction false} LimitsKeep(s: Supervisor, obs: seq<Observation>)
    ensures After(s, obs).restartLimit == s.restartLimit
    decreases |obs|
  {
    if obs != [] {
      LimitsKeep(Observe(s, obs[0]).0, obs[1..]);
    }
  }
}
