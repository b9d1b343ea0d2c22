/** Stable ranking of search hits: sorting by insertion, what makes it the stable sort, and how it
    interacts with cutting to a limit. */
module Ranking {
  import opened Options

  datatype Row = Row(id: nat, pinned: bool, updatedAt: int, inlineBytes: nat)

  datatype Hit = Hit(score: int, clip: Row)

  /** Two orders are in use: within a search pinned then score, and across pages also recency. */
  datatype Order = BySearch | ByRank

  predicate Better(o: Order, a: Hit, b: Hit) {
    if a.clip.pinned != b.clip.pinned then a.clip.pinned
    else if a.score != b.score then a.score > b.score
    else o.ByRank? && a.clip.updatedAt > b.clip.updatedAt
  }

  predicate Tied(o: Order, a: Hit, b: Hit) { !Better(o, a, b) && !Better(o, b, a) }

  ghost predicate Sorted(o: Order, s: seq<Hit>) {
    forall i, j :: 0 <= i < j < |s| ==> !Better(o, s[j], s[i])
  }

  /** `x` goes before the first hit it beats. */
  function Insert(o: Order, x: Hit, s: seq<Hit>): (r: seq<Hit>)
    ensures |r| == |s| + 1
    ensures forall e :: e in r <==> e == x || e in s
  {
    if s == [] then [x]
    else if Better(o, x, s[0]) then [x] + s
    else [s[0]] + Insert(o, x, s[1..])
  }

  function InsertAll(o: Order, s: seq<Hit>, xs: seq<Hit>): (r: seq<Hit>)
    ensures |r| == |s| + |xs|
    ensures forall e :: e in r <==> e in s || e in xs
  {
    if xs == [] then s
    else
      var n := |xs| - 1;
      assert xs == xs[..n] + [xs[n]];
      Insert(o, xs[n], InsertAll(o, s, xs[..n]))
  }

  function Sort(o: Order, s: seq<Hit>): seq<Hit> { InsertAll(o, [], s) }

  // ----- Sorting really sorts

  lemma {:induction false} InsertSorted(o: Order, x: Hit, s: seq<Hit>)
    requires Sorted(o, s)
    ensures Sorted(o, Insert(o, x, s))
  {
    if s != [] && !Better(o, x, s[0]) {
      InsertSorted(o, x, s[1..]);
      var r := Insert(o, x, s[1..]);
      forall j | 0 <= j < |r| ensures !Better(o, r[j], s[0]) {
        assert r[j] in r;
        assert r[j] == x || exists k :: 1 <= k < |s| && s[k] == r[j];
      }
    }
  }

  lemma {:induction false} InsertAllSorted(o: Order, s: seq<Hit>, xs: seq<Hit>)
    requires Sorted(o, s)
    ensures Sorted(o, InsertAll(o, s, xs))
  {
    if xs != [] {
      InsertAllSorted(o, s, xs[..|xs| - 1]);
      InsertSorted(o, xs[|xs| - 1], InsertAll(o, s, xs[..|xs| - 1]));
    }
  }

  // ----- Stability

  function Filter(p: Hit -> bool, s: seq<Hit>): seq<Hit> {
    if s == [] then [] else (if p(s[0]) then [s[0]] else []) + Filter(p, s[1..])
  }

  lemma {:induction false} FilterConcat(p: Hit -> bool, a: seq<Hit>, b: seq<Hit>)
    ensures Filter(p, a + b) == Filter(p, a) + Filter(p, b)
  {
    if a == [] {
      assert a + b == b;
    } else {
      assert (a + b)[1..] == a[1..] + b;
      FilterConcat(p, a[1..], b);
    }
  }

  /** All hits that satisfy `p` rank the same. */
  ghost predicate OneClass(o: Order, p: Hit -> bool) {
    forall a, b :: p(a) && p(b) ==> !Better(o, a, b)
  }

  lemma {:induction false} FilterInsert(o: Order, p: Hit -> bool, x: Hit, s: seq<Hit>)
    requires OneClass(o, p) && Sorted(o, s)
    ensures Filter(p, Insert(o, x, s)) == Filter(p, s + [x])
  {
    FilterConcat(p, s, [x]);
    if s == [] {
    } else if Better(o, x, s[0]) {
      if p(x) {
        NoneInClass(o, p, x, s);
      }
      assert Filter(p, [x] + s) == (if p(x) then [x] else []) + Filter(p, s);
      assert Filter(p, [x]) == if p(x) then [x] else [];
    } else {
      FilterInsert(o, p, x, s[1..]);
      FilterConcat(p, s[1..], [x]);
      var r := Insert(o, x, s[1..]);
      assert ([s[0]] + r)[1..] == r;
    }
  }

  /** When `x` beats the first of a sorted list, nothing in it ranks with `x`. */
  lemma {:induction false} NoneInClass(o: Order, p: Hit -> bool, x: Hit, s: seq<Hit>)
    requires OneClass(o, p) && p(x) && Sorted(o, s) && (s != [] ==> Better(o, x, s[0]))
    ensures Filter(p, s) == []
  {
    if s != [] {
      if |s| > 1 {
        assert !Better(o, s[1], s[0]);
      }
      NoneInClass(o, p, x, s[1..]);
    }
  }

  /** Sorting keeps hits that rank the same in their order of arrival. */
  lemma {:induction false} SortStable(o: Order, p: Hit -> bool, s: seq<Hit>)
    requires OneClass(o, p)
    ensures Filter(p, Sort(o, s)) == Filter(p, s)
  {
    if s != [] {
      var n := |s| - 1;
      SortStable(o, p, s[..n]);
      InsertAllSorted(o, [], s[..n]);
      FilterInsert(o, p, s[n], Sort(o, s[..n]));
      FilterConcat(p, Sort(o, s[..n]), [s[n]]);
      FilterConcat(p, s[..n], [s[n]]);
      assert s == s[..n] + [s[n]];
    }
  }

  function TiedWith(o: Order, x: Hit): Hit -> bool { y => Tied(o, x, y) }

  /** The hits of `s` that rank like `x`, in order. */
  function Class(o: Order, x: Hit, s: seq<Hit>): seq<Hit> { Filter(TiedWith(o, x), s) }

  ghost predicate SameClasses(o: Order, a: seq<Hit>, b: seq<Hit>) {
    forall x :: Class(o, x, a) == Class(o, x, b)
  }

  lemma {:induction false} FilterMember(p: Hit -> bool, s: seq<Hit>)
    ensures (forall e :: e in Filter(p, s) <==> e in s && p(e))
  {
    if s != [] {
      FilterMember(p, s[1..]);
      assert s == [s[0]] + s[1..];
    }
  }

  lemma SameTails(o: Order, a: seq<Hit>, b: seq<Hit>)
    requires a != [] && b != [] && a[0] == b[0] && SameClasses(o, a, b)
    ensures SameClasses(o, a[1..], b[1..])
  {
    forall x ensures Class(o, x, a[1..]) == Class(o, x, b[1..]) {
      var head := if Tied(o, x, a[0]) then [a[0]] else [];
      assert Class(o, x, a) == head + Class(o, x, a[1..]);
      assert Class(o, x, b) == head + Class(o, x, b[1..]);
      assert Class(o, x, a)[|head|..] == Class(o, x, b)[|head|..];
    }
  }

  lemma HeadHasClass(o: Order, s: seq<Hit>)
    requires s != []
    ensures Class(o, s[0], s) != []
  {
  }

  /** There is only one sorted list with given classes in given orders: the stable sort. */
  lemma {:induction false} StableSortUnique(o: Order, a: seq<Hit>, b: seq<Hit>)
    requires Sorted(o, a) && Sorted(o, b) && SameClasses(o, a, b)
    ensures a == b
    decreases |a|
  {
    if a == [] {
      if b != [] {
        HeadHasClass(o, b);
      }
    } else {
      SameHead(o, a, b);
      SameTails(o, a, b);
      StableSortUnique(o, a[1..], b[1..]);
      assert a == [a[0]] + a[1..] && b == [b[0]] + b[1..];
    }
  }

  lemma SameHead(o: Order, a: seq<Hit>, b: seq<Hit>)
    requires Sorted(o, a) && Sorted(o, b) && SameClasses(o, a, b) && a != []
    ensures b != [] && a[0] == b[0]
  {
    var p := TiedWith(o, a[0]);
    assert Class(o, a[0], a)[0] == a[0];
    FilterMember(p, b);
    assert a[0] in Class(o, a[0], b);
    var q := TiedWith(o, b[0]);
    FilterMember(q, a);
    FilterMember(q, b);
    assert b[0] in Class(o, b[0], b);
    assert b[0] in Class(o, b[0], a);
    HeadBeatsNone(o, a, b[0]);
    HeadBeatsNone(o, b, a[0]);
    assert Class(o, a[0], b)[0] == b[0];
  }

  lemma HeadBeatsNone(o: Order, s: seq<Hit>, e: Hit)
    requires Sorted(o, s) && e in s
    ensures !Better(o, e, s[0])
  {
    var i :| 0 <= i < |s| && s[i] == e;
  }

  // ----- Incremental use

  lemma {:induction false} SortedFixed(o: Order, s: seq<Hit>)
    requires Sorted(o, s)
    ensures Sort(o, s) == s
  {
    if s != [] {
      var n := |s| - 1;
      assert forall i :: 0 <= i < n ==> s[..n][i] == s[i];
      SortedFixed(o, s[..n]);
      InsertLast(o, s[n], s[..n]);
      assert s == s[..n] + [s[n]];
    }
  }

  lemma {:induction false} InsertLast(o: Order, x: Hit, s: seq<Hit>)
    requires forall i :: 0 <= i < |s| ==> !Better(o, x, s[i])
    ensures Insert(o, x, s) == s + [x]
  {
    if s != [] {
      InsertLast(o, x, s[1..]);
    }
  }

  lemma {:induction false} InsertAllConcat(o: Order, s: seq<Hit>, a: seq<Hit>, b: seq<Hit>)
    ensures InsertAll(o, s, a + b) == InsertAll(o, InsertAll(o, s, a), b)
  {
    if b == [] {
      assert a + b == a;
    } else {
      var n := |b| - 1;
      InsertAllConcat(o, s, a, b[..n]);
      assert (a + b)[..|a + b| - 1] == a + b[..n];
    }
  }

  /** Adding to a sorted list and sorting again inserts the additions one by one. */
  lemma SortAppended(o: Order, s: seq<Hit>, xs: seq<Hit>)
    requires Sorted(o, s)
    ensures Sort(o, s + xs) == InsertAll(o, s, xs)
  {
    SortedFixed(o, s);
    InsertAllConcat(o, [], s, xs);
  }

  // ----- Cutting to a limit

  function Top(k: nat, s: seq<Hit>): seq<Hit> { s[..Min(|s|, k)] }

  /** Before the first hit it beats in `a`, or else somewhere in `b`. */
  lemma {:induction false} InsertSplit(o: Order, x: Hit, a: seq<Hit>, b: seq<Hit>)
    ensures (exists i :: 0 <= i < |a| && Better(o, x, a[i])) ==> Insert(o, x, a + b) == Insert(o, x, a) + b
    ensures (forall i :: 0 <= i < |a| ==> !Better(o, x, a[i])) ==> Insert(o, x, a + b) == a + Insert(o, x, b)
  {
    if a == [] {
      assert a + b == b;
    } else {
      assert (a + b)[1..] == a[1..] + b && (a + b)[0] == a[0];
      InsertSplit(o, x, a[1..], b);
      if Better(o, x, a[0]) {
        assert [x] + (a + b) == ([x] + a) + b;
      } else {
        assert a == [a[0]] + a[1..];
        if exists i :: 0 <= i < |a| && Better(o, x, a[i]) {
          var i :| 0 <= i < |a| && Better(o, x, a[i]);
          assert a[1..][i - 1] == a[i];
          assert [a[0]] + (Insert(o, x, a[1..]) + b) == ([a[0]] + Insert(o, x, a[1..])) + b;
        } else {
          assert [a[0]] + (a[1..] + Insert(o, x, b)) == a + Insert(o, x, b);
        }
      }
    }
  }

  lemma TopInsert(o: Order, k: nat, x: Hit, s: seq<Hit>)
    ensures Top(k, Insert(o, x, Top(k, s))) == Top(k, Insert(o, x, s))
  {
    if k < |s| {
      assert s == s[..k] + s[k..];
      InsertSplit(o, x, s[..k], s[k..]);
      if forall i :: 0 <= i < k ==> !Better(o, x, s[..k][i]) {
        InsertLast(o, x, s[..k]);
      }
    } else {
      assert Top(k, s) == s;
    }
  }

  /** Inserting one by one, cutting after each. */
  function Capped(o: Order, k: nat, s: seq<Hit>, xs: seq<Hit>): seq<Hit> {
    if xs == [] then s else Top(k, Insert(o, xs[|xs| - 1], Capped(o, k, s, xs[..|xs| - 1])))
  }

  lemma {:induction false} CappedIsTop(o: Order, k: nat, s: seq<Hit>, xs: seq<Hit>)
    ensures Capped(o, k, Top(k, s), xs) == Top(k, InsertAll(o, s, xs))
  {
    if xs != [] {
      CappedIsTop(o, k, s, xs[..|xs| - 1]);
      TopInsert(o, k, xs[|xs| - 1], InsertAll(o, s, xs[..|xs| - 1]));
    }
  }
}
