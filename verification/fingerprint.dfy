/** Near-duplicate lookup by bands: 64-bit fingerprints, their distance, and the four 16-bit bands. */
module Fingerprint {
  const TWO_64: nat := 0x1_0000_0000_0000_0000
  const BAND: nat := 0x1_0000

  type u64 = n: nat | n < TWO_64
  type u16 = n: nat | n < BAND

  // ----- Distance

  function CountOnes(n: nat): nat {
    if n == 0 then 0 else n % 2 + CountOnes(n / 2)
  }

  function Xor(a: nat, b: nat): nat
    decreases a + b
  {
    if a == 0 && b == 0 then 0 else (if a % 2 == b % 2 then 0 else 1) + 2 * Xor(a / 2, b / 2)
  }

  function HammingDistance(left: nat, right: nat): nat { CountOnes(Xor(left, right)) }

  /** The distance one bit at a time. */
  lemma DistanceStep(a: nat, b: nat)
    ensures HammingDistance(a, b) == (if a % 2 == b % 2 then 0 else 1) + HammingDistance(a / 2, b / 2)
  {
  }

  lemma {:induction false} ZeroDistanceIff(a: nat, b: nat)
    ensures HammingDistance(a, b) == 0 <==> a == b
    decreases a + b
  {
    if a != 0 || b != 0 {
      DistanceStep(a, b);
      ZeroDistanceIff(a / 2, b / 2);
    }
  }

  function Pow2(k: nat): nat
    ensures Pow2(k) > 0
  {
    if k == 0 then 1 else 2 * Pow2(k - 1)
  }

  /** Joining high parts above k low bits adds the distances. */
  lemma {:induction false} DistanceOfJoined(k: nat, p: nat, high: nat, low: nat, high': nat, low': nat)
    requires p == Pow2(k) && low < p && low' < p
    ensures HammingDistance(p * high + low, p * high' + low') ==
            HammingDistance(low, low') + HammingDistance(high, high')
  {
    if k == 0 {
      assert HammingDistance(low, low') == 0;
    } else {
      var q := Pow2(k - 1);
      var a, a' := p * high + low, p * high' + low';
      Halved(q, high, low);
      Halved(q, high', low');
      hide HammingDistance, Xor;
      DistanceStep(a, a');
      DistanceStep(low, low');
      DistanceOfJoined(k - 1, q, high, low / 2, high', low' / 2);
    }
  }

  lemma Halved(q: nat, high: nat, low: nat)
    ensures (2 * q * high + low) / 2 == q * high + low / 2
    ensures (2 * q * high + low) % 2 == low % 2
  {
    var t := q * high;
    assert 2 * q * high == 2 * t;
  }

  // ----- The distance counts the bit positions that differ

  function Bit(n: nat, i: nat): nat { if i == 0 then n % 2 else Bit(n / 2, i - 1) }

  ghost function DifferingBits(a: nat, b: nat, width: nat): set<nat> {
    set i | 0 <= i < width && Bit(a, i) != Bit(b, i)
  }

  lemma {:induction false} DistanceCountsBits(a: nat, b: nat, width: nat)
    requires a < Pow2(width) && b < Pow2(width)
    ensures HammingDistance(a, b) == |DifferingBits(a, b, width)|
  {
    if width == 0 {
      assert DifferingBits(a, b, 0) == {};
    } else {
      DistanceStep(a, b);
      DistanceCountsBits(a / 2, b / 2, width - 1);
      BitsSplit(a, b, width);
      hide HammingDistance, DifferingBits, Pow2;
      var upper := DifferingBits(a / 2, b / 2, width - 1);
      ShiftedSize(upper);
      assert 0 !in Shifted(upper);
    }
  }

  /** The differing bits are the lowest one, if it differs, and those of the halves, one place up. */
  lemma BitsSplit(a: nat, b: nat, width: nat)
    requires width > 0
    ensures DifferingBits(a, b, width) ==
            (if a % 2 == b % 2 then {} else {0}) + Shifted(DifferingBits(a / 2, b / 2, width - 1))
  {
    var upper := DifferingBits(a / 2, b / 2, width - 1);
    forall i: nat
      ensures i in DifferingBits(a, b, width) <==> (i == 0 && a % 2 != b % 2) || i in Shifted(upper)
    {
      if i > 0 {
        assert Bit(a, i) == Bit(a / 2, i - 1) && Bit(b, i) == Bit(b / 2, i - 1);
        assert i in Shifted(upper) <==> i - 1 in upper;
      }
    }
  }

  ghost function Shifted(s: set<nat>): set<nat> { set i | i in s :: i + 1 }

  lemma {:induction false} ShiftedSize(s: set<nat>)
    ensures |Shifted(s)| == |s|
  {
    if s == {} {
      assert Shifted(s) == {};
    } else {
      var x :| x in s;
      ShiftedSize(s - {x});
      forall i | i in Shifted(s)
        ensures i in Shifted(s - {x}) + {x + 1}
      {
        assert i - 1 == x || i - 1 in s - {x};
      }
      assert Shifted(s) == Shifted(s - {x}) + {x + 1};
    }
  }

  lemma {:induction false} Pow2Adds(i: nat, j: nat)
    ensures Pow2(i + j) == Pow2(i) * Pow2(j)
  {
    if i > 0 {
      Pow2Adds(i - 1, j);
      assert Pow2(i) * Pow2(j) == 2 * (Pow2(i - 1) * Pow2(j));
    }
  }

  // ----- Bands

  /** Each entry is a shift followed by a truncating cast to 16 bits. */
  function FingerprintBands(hash: u64): (bands: seq<u16>)
    ensures |bands| == 4
  {
    [hash % BAND, hash / 0x1_0000 % BAND, hash / 0x1_0000_0000 % BAND, hash / 0x1_0000_0000_0000 % BAND]
  }

  function Recomposed(bands: seq<u16>): nat
    requires |bands| == 4
  {
    bands[0] + BAND * (bands[1] + BAND * (bands[2] + BAND * bands[3]))
  }

  lemma BandsRecompose(hash: u64)
    ensures Recomposed(FingerprintBands(hash)) == hash
  {
    var h1, h2, h3 := hash / 0x1_0000, hash / 0x1_0000_0000, hash / 0x1_0000_0000_0000;
    assert h2 == h1 / BAND && h3 == h2 / BAND;
    assert h3 % BAND == h3;
  }

  lemma RecomposedBands(bands: seq<u16>)
    requires |bands| == 4
    ensures Recomposed(bands) < TWO_64 && FingerprintBands(Recomposed(bands)) == bands
  {
    var h := Recomposed(bands);
    assert h / 0x1_0000 == bands[1] + BAND * (bands[2] + BAND * bands[3]);
    assert h / 0x1_0000_0000 == bands[2] + BAND * bands[3];
    assert h / 0x1_0000_0000_0000 == bands[3];
  }

  function BandDistances(a: seq<u16>, b: seq<u16>): nat
    requires |a| == |b| == 4
  {
    HammingDistance(a[0], b[0]) + HammingDistance(a[1], b[1]) +
    HammingDistance(a[2], b[2]) + HammingDistance(a[3], b[3])
  }

  lemma BandIsPow2()
    ensures Pow2(16) == BAND
  {
    assert Pow2(8) == 256;
    Pow2Adds(8, 8);
  }

  lemma DistanceOfRecomposed(a: seq<u16>, b: seq<u16>)
    requires |a| == |b| == 4
    ensures HammingDistance(Recomposed(a), Recomposed(b)) == BandDistances(a, b)
  {
    BandIsPow2();
    hide HammingDistance, Pow2;
    var a2, b2 := a[2] + BAND * a[3], b[2] + BAND * b[3];
    var a1, b1 := a[1] + BAND * a2, b[1] + BAND * b2;
    DistanceOfJoined(16, BAND, a[3], a[2], b[3], b[2]);
    DistanceOfJoined(16, BAND, a2, a[1], b2, b[1]);
    DistanceOfJoined(16, BAND, a1, a[0], b1, b[0]);
  }

  /** The distance of two fingerprints is the sum of the distances of their bands. */
  lemma DistanceIsSumOfBands(left: u64, right: u64)
    ensures HammingDistance(left, right) == BandDistances(FingerprintBands(left), FingerprintBands(right))
  {
    BandsRecompose(left);
    BandsRecompose(right);
    DistanceOfRecomposed(FingerprintBands(left), FingerprintBands(right));
  }

  /** The positions in which two fingerprints fall in the same bucket. */
  ghost function SharedBands(left: u64, right: u64): set<nat> {
    set i | 0 <= i < 4 && FingerprintBands(left)[i] == FingerprintBands(right)[i]
  }

  /** Completeness of the index: at distance d, at least 4 - d bands are shared. So a lookup by bands
      misses no fingerprint within distance 3. */
  lemma BandIndexIsComplete(left: u64, right: u64)
    ensures HammingDistance(left, right) + |SharedBands(left, right)| >= 4
    ensures HammingDistance(left, right) <= 3 ==>
      exists i :: 0 <= i < 4 && FingerprintBands(left)[i] == FingerprintBands(right)[i]
  {
    DistanceIsSumOfBands(left, right);
    var a, b := FingerprintBands(left), FingerprintBands(right);
    forall i | 0 <= i < 4
      ensures HammingDistance(a[i], b[i]) == 0 <==> a[i] == b[i]
    {
      ZeroDistanceIff(a[i], b[i]);
    }
    hide HammingDistance, FingerprintBands;
    SplitShared(left, right);
  }

  lemma SplitShared(left: u64, right: u64)
    ensures var a, b := FingerprintBands(left), FingerprintBands(right);
            |SharedBands(left, right)| == (if a[0] == b[0] then 1 else 0) + (if a[1] == b[1] then 1 else 0) +
                                          (if a[2] == b[2] then 1 else 0) + (if a[3] == b[3] then 1 else 0)
  {
    hide FingerprintBands;
    var a, b := FingerprintBands(left), FingerprintBands(right);
    var s0: set<nat> := if a[0] == b[0] then {0} else {};
    var s1 := s0 + if a[1] == b[1] then {1} else {};
    var s2 := s1 + if a[2] == b[2] then {2} else {};
    var s3 := s2 + if a[3] == b[3] then {3} else {};
    assert SharedBands(left, right) == s3;
  }

  function Flipped(x: u16): u16 { if x % 2 == 0 then x + 1 else x - 1 }

  /** The bound is sharp everywhere: next to every fingerprint lies one at distance 4 sharing no band. */
  lemma DistanceFourCanMiss(hash: u64)
    ensures exists other: u64 :: HammingDistance(hash, other) == 4 && SharedBands(hash, other) == {}
  {
    var a := FingerprintBands(hash);
    var b: seq<u16> := [Flipped(a[0]), Flipped(a[1]), Flipped(a[2]), Flipped(a[3])];
    RecomposedBands(b);
    var other: u64 := Recomposed(b);
    DistanceIsSumOfBands(hash, other);
    forall i | 0 <= i < 4
      ensures HammingDistance(a[i], b[i]) == 1
    {
      FlippedIsOneAway(a[i]);
    }
    hide HammingDistance, Recomposed;
    assert SharedBands(hash, other) == {};
    assert HammingDistance(hash, other) == 4;
  }

  lemma FlippedIsOneAway(x: u16)
    ensures HammingDistance(x, Flipped(x)) == 1
  {
    DistanceStep(x, Flipped(x));
    assert x / 2 == Flipped(x) / 2;
    ZeroDistanceIff(x / 2, x / 2);
  }
}
