/** Clips as the history code sees them, and the expiry filter applied to every
    list that reaches the window. */
module Clips {
  import opened Options

  type ClipId = nat
  type ContentHash = nat

  /** `spilled`: some flavor lives in the blob store. `rest` stands for every field only carried along. */
  datatype Clip = Clip(id: ClipId, contentHash: ContentHash, pinned: bool, expiresAt: Option<int>, spilled: bool, rest: nat)

  predicate Expired(clip: Clip, now: int) {
    clip.expiresAt.Some? && clip.expiresAt.value <= now
  }

  function Active(clips: seq<Clip>, now: int): (r: seq<Clip>)
    ensures |r| <= |clips|
    ensures forall c :: c in r ==> c in clips && !Expired(c, now)
  {
    if clips == [] then []
    else (if Expired(clips[0], now) then [] else [clips[0]]) + Active(clips[1..], now)
  }

  lemma {:induction false} ActiveConcat(a: seq<Clip>, b: seq<Clip>, now: int)
    ensures Active(a + b, now) == Active(a, now) + Active(b, now)
  {
    if a == [] {
      assert a + b == b;
    } else {
      assert (a + b)[0] == a[0] && (a + b)[1..] == a[1..] + b;
      ActiveConcat(a[1..], b, now);
      var head := if Expired(a[0], now) then [] else [a[0]];
      calc {
        Active(a + b, now);
        head + Active(a[1..] + b, now);
        head + (Active(a[1..], now) + Active(b, now));
        (head + Active(a[1..], now)) + Active(b, now);
        Active(a, now) + Active(b, now);
      }
    }
  }

  /** Filtering early and again later is filtering later. */
  lemma {:induction false} ActiveTwice(clips: seq<Clip>, early: int, late: int)
    requires early <= late
    ensures Active(Active(clips, early), late) == Active(clips, late)
  {
    if clips != [] {
      ActiveTwice(clips[1..], early, late);
      ActiveConcat(if Expired(clips[0], early) then [] else [clips[0]], Active(clips[1..], early), late);
      assert Active([clips[0]], late) == (if Expired(clips[0], late) then [] else [clips[0]]);
    }
  }

  lemma {:induction false} ActivePrefix(a: seq<Clip>, b: seq<Clip>, now: int)
    requires a <= b
    ensures Active(a, now) <= Active(b, now)
  {
    assert b == a + b[|a|..];
    ActiveConcat(a, b[|a|..], now);
  }

  lemma {:induction false} ActiveNoneExpired(clips: seq<Clip>, now: int)
    ensures (forall c :: c in clips ==> !Expired(c, now)) <==> Active(clips, now) == clips
  {
    if clips != [] {
      ActiveNoneExpired(clips[1..], now);
      assert clips == [clips[0]] + clips[1..];
      if forall c :: c in clips ==> !Expired(c, now) {
        assert forall c :: c in clips[1..] ==> c in clips;
      }
    }
  }

  lemma {:induction false} ActiveOfFullLength(clips: seq<Clip>, now: int)
    requires |Active(clips, now)| == |clips|
    ensures Active(clips, now) == clips
  {
    if clips != [] {
      ActiveOfFullLength(clips[1..], now);
      assert clips == [clips[0]] + clips[1..];
    }
  }

  lemma {:induction false} ActiveAllExpired(clips: seq<Clip>, now: int)
    ensures (forall c :: c in clips ==> Expired(c, now)) <==> Active(clips, now) == []
  {
    if clips != [] {
      ActiveAllExpired(clips[1..], now);
      assert clips == [clips[0]] + clips[1..];
    }
  }

  lemma {:induction false} ActiveKeeps(clips: seq<Clip>, now: int, c: Clip)
    requires c in clips && !Expired(c, now)
    ensures c in Active(clips, now)
  {
    if c != clips[0] {
      ActiveKeeps(clips[1..], now, c);
    }
  }
}
