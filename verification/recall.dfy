/** Paged recall: an incremental bounded ranking over pages of rows, against ranking all hits at once. */
module Recall {
  import opened Options
  import opened Ranking

  const RESULT_BYTES: nat := 33_554_432

  /** A parsed query: the score of a row if it matches, and the scope and expiry test. */
  datatype Query = Query(score: Row -> Option<int>, visible: Row -> bool)

  function Scored(q: Query, rows: seq<Row>): seq<Hit> {
    if rows == [] then []
    else (if q.score(rows[0]).Some? then [Hit(q.score(rows[0]).value, rows[0])] else []) + Scored(q, rows[1..])
  }

  function Visible(q: Query): Hit -> bool { (h: Hit) => q.visible(h.clip) }

  /** The hits of one page in the order the search returns them, invisible ones left out. */
  function PageHits(q: Query, page: seq<Row>): seq<Hit> {
    Filter(Visible(q), Sort(BySearch, Scored(q, page)))
  }

  /** All matching, visible hits in row order. */
  function Matches(q: Query, rows: seq<Row>): seq<Hit> { Filter(Visible(q), Scored(q, rows)) }

  function Flatten(pages: seq<seq<Row>>): seq<Row> {
    if pages == [] then [] else Flatten(pages[..|pages| - 1]) + pages[|pages| - 1]
  }

  // ----- The byte budget

  function Bytes(s: seq<Hit>): nat {
    if s == [] then 0 else Bytes(s[..|s| - 1]) + s[|s| - 1].clip.inlineBytes
  }

  /** How many leading hits are kept: the first always, the next as long as the running total fits. */
  function KeepFrom(s: seq<Hit>, i: nat, total: nat): (n: nat)
    requires i <= |s|
    ensures i <= n <= |s|
    decreases |s| - i
  {
    if i == |s| then i
    else
      var t := total + s[i].clip.inlineBytes;
      if i == 0 || t <= RESULT_BYTES then KeepFrom(s, i + 1, t) else i
  }

  function Cut(s: seq<Hit>): seq<Hit> { s[..KeepFrom(s, 0, 0)] }

  /** `n` hits are within budget, and no more of them are kept. */
  ghost predicate CutAt(s: seq<Hit>, n: nat) {
    && n <= |s| && (s != [] ==> n >= 1)
    && (n >= 2 ==> Bytes(s[..n]) <= RESULT_BYTES)
    && (n < |s| ==> Bytes(s[..n + 1]) > RESULT_BYTES)
  }

  lemma BytesSnoc(s: seq<Hit>, i: nat)
    requires i < |s|
    ensures Bytes(s[..i + 1]) == Bytes(s[..i]) + s[i].clip.inlineBytes
  {
    assert s[..i + 1][..i] == s[..i];
  }

  lemma {:induction false} KeepIsCut(s: seq<Hit>, i: nat)
    requires i <= |s| && (i >= 2 ==> Bytes(s[..i]) <= RESULT_BYTES)
    ensures var n := KeepFrom(s, i, Bytes(s[..i]));
            && (n >= 2 ==> Bytes(s[..n]) <= RESULT_BYTES) && (n < |s| ==> Bytes(s[..n + 1]) > RESULT_BYTES)
            && (i < |s| && i == 0 ==> n >= 1)
    decreases |s| - i
  {
    if i < |s| {
      BytesSnoc(s, i);
      if i == 0 || Bytes(s[..i + 1]) <= RESULT_BYTES {
        KeepIsCut(s, i + 1);
      }
    }
  }

  lemma CutIsCut(s: seq<Hit>)
    ensures CutAt(s, |Cut(s)|)
  {
    KeepIsCut(s, 0);
    assert s[..0] == [];
  }

  lemma {:induction false} BytesMonotone(s: seq<Hit>, i: nat, j: nat)
    requires i <= j <= |s|
    ensures Bytes(s[..i]) <= Bytes(s[..j])
    decreases j
  {
    if i < j {
      BytesSnoc(s, j - 1);
      BytesMonotone(s, i, j - 1);
    }
  }

  /** The cut is determined by its two defining facts. */
  lemma CutUnique(s: seq<Hit>, n: nat)
    requires CutAt(s, n)
    ensures Cut(s) == s[..n]
  {
    CutIsCut(s);
    var m := |Cut(s)|;
    if m < n {
      BytesMonotone(s, m + 1, n);
    } else if n < m {
      BytesMonotone(s, n + 1, m);
    }
  }

  /** What is within budget stays kept when more follows. */
  lemma CutKeepsPrefix(p: seq<Hit>, s: seq<Hit>)
    requires p <= s && CutAt(p, |p|)
    ensures p <= Cut(s)
  {
    CutIsCut(s);
    var m := |Cut(s)|;
    if m < |p| {
      assert p[..m + 1] == s[..m + 1];
      assert p[..|p|] == p;
      BytesMonotone(p, m + 1, |p|);
    }
  }

  lemma CutTwice(s: seq<Hit>)
    ensures Cut(Cut(s)) == Cut(s) && CutAt(Cut(s), |Cut(s)|)
  {
    CutIsCut(s);
    var n := |Cut(s)|;
    assert Cut(s)[..n] == s[..n];
    CutUnique(Cut(s), n);
  }

  // ----- The two results

  /** One round of the loop: add the page's hits, sort, cut to the limit, cut to the budget. */
  function Round(winners: seq<Hit>, page: seq<Hit>, limit: nat): seq<Hit> {
    Cut(Top(limit, Sort(ByRank, winners + page)))
  }

  function Incremental(pages: seq<seq<Hit>>, limit: nat): seq<Hit> {
    if pages == [] then [] else Round(Incremental(pages[..|pages| - 1], limit), pages[|pages| - 1], limit)
  }

  function OneShot(hits: seq<Hit>, limit: nat): seq<Hit> { Cut(Top(limit, Sort(ByRank, hits))) }

  function Concat(pages: seq<seq<Hit>>): seq<Hit> {
    if pages == [] then [] else Concat(pages[..|pages| - 1]) + pages[|pages| - 1]
  }

  // ----- The loop itself

  /** The running total and `take_while` of the budget cut. */
  method CountKept(s: seq<Hit>) returns (keep: nat)
    ensures keep == |Cut(s)| && CutAt(s, keep)
  {
    var bytes: nat := 0;
    keep := 0;
    CutIsCut(s);
    while keep < |s|
      invariant keep <= |s| && KeepFrom(s, keep, bytes) == KeepFrom(s, 0, 0)
      decreases |s| - keep
    {
      bytes := bytes + s[keep].clip.inlineBytes;
      if keep != 0 && bytes > RESULT_BYTES {
        break;
      }
      keep := keep + 1;
    }
  }

  method RankRound(winners: seq<Hit>, found: seq<Hit>, limit: nat) returns (kept: seq<Hit>)
    ensures kept == Round(winners, found, limit)
  {
    kept := Sort(ByRank, winners + found);
    kept := kept[..Min(|kept|, limit)];
    var keep := CountKept(kept);
    kept := kept[..keep];
  }

  /** One pass over the lane and the store's pages. `current(k)` answers the k-th check that the
      request is still the latest; the store's last page is empty and ends the loop. */
  method Collect(query: Option<Query>, lane: seq<Row>, pages: seq<seq<Row>>, limit: nat, current: nat -> bool)
    returns (result: Option<(seq<Row>, nat)>)
    requires 1 <= limit && forall p :: p in pages ==> p != []
    ensures query.None? ==> result == Some(([], 0))
    ensures query.Some? ==>
              (result.Some? <==> AllCurrent(current, 2 * (|pages| + 1)))
    ensures query.Some? && result.Some? ==>
              var hits := HitPages(query.value, [lane] + pages);
              && result.value.0 == Clips(Incremental(hits, limit))
              && result.value.1 == |Concat(hits)|
  {
    if query.None? {
      return Some(([], 0));
    }
    var q := query.value;
    ghost var hits := HitPages(q, [lane] + pages);
    var ranked := RankPages(q, [lane] + pages, hits, limit, current);
    if ranked.None? {
      return None;
    }
    return Some((Clips(ranked.value.0), ranked.value.1));
  }

  /** The loop: `batches[0]` is the volatile lane. */
  method RankPages(q: Query, batches: seq<seq<Row>>, ghost hits: seq<seq<Hit>>, limit: nat, current: nat -> bool)
    returns (result: Option<(seq<Hit>, nat)>)
    requires batches != [] && |hits| == |batches| && HitsOf(q, batches, hits)
    ensures result.Some? <==> AllCurrent(current, 2 * |batches|)
    ensures result.Some? ==> result.value == (Incremental(hits, limit), |Concat(hits)|)
  {
    var winners: seq<Hit> := [];
    var total, round := 0, 0;
    hide Round, PageHits, Incremental, Concat, AllCurrent, HitsOf;
    NothingYet(hits, limit, current);
    while round < |batches|
      invariant round <= |batches|
      invariant winners == Incremental(hits[..round], limit) && total == |Concat(hits[..round])|
      invariant AllCurrent(current, 2 * round)
    {
      OneMoreCheck(current, 2 * round);
      if !current(2 * round) {
        FailedCheck(current, 2 * round, 2 * |batches|);
        return None;
      }
      var found := PageHits(q, batches[round]);
      HitsOfAt(q, batches, hits, round);
      total := total + |found|;
      winners := RankRound(winners, found, limit);
      PrefixSnoc(hits, round, limit);
      OneMoreCheck(current, 2 * round + 1);
      if !current(2 * round + 1) {
        FailedCheck(current, 2 * round + 1, 2 * |batches|);
        return None;
      }
      round := round + 1;
    }
    assert hits[..round] == hits;
    return Some((winners, total));
  }

  /** The hits of each batch. */
  predicate HitsOf(q: Query, batches: seq<seq<Row>>, hits: seq<seq<Hit>>) {
    |hits| == |batches| && forall i :: 0 <= i < |hits| ==> hits[i] == PageHits(q, batches[i])
  }

  lemma HitsOfAt(q: Query, batches: seq<seq<Row>>, hits: seq<seq<Hit>>, i: nat)
    requires HitsOf(q, batches, hits) && i < |batches|
    ensures |hits| == |batches| && hits[i] == PageHits(q, batches[i])
  {
  }

  lemma NothingYet(hits: seq<seq<Hit>>, limit: nat, current: nat -> bool)
    ensures Incremental(hits[..0], limit) == [] && Concat(hits[..0]) == [] && AllCurrent(current, 0)
  {
  }

  lemma PrefixSnoc(hits: seq<seq<Hit>>, n: nat, limit: nat)
    requires n < |hits|
    ensures Incremental(hits[..n + 1], limit) == Round(Incremental(hits[..n], limit), hits[n], limit)
    ensures |Concat(hits[..n + 1])| == |Concat(hits[..n])| + |hits[n]|
  {
    assert hits[..n + 1][..n] == hits[..n];
  }

  /** The first `n` checks all found the request still the latest. */
  ghost predicate AllCurrent(current: nat -> bool, n: nat) {
    forall k: nat :: k < n ==> current(k)
  }

  lemma OneMoreCheck(current: nat -> bool, n: nat)
    ensures AllCurrent(current, n + 1) <==> AllCurrent(current, n) && current(n)
  {
  }

  lemma FailedCheck(current: nat -> bool, k: nat, n: nat)
    requires k < n && !current(k)
    ensures !AllCurrent(current, n)
  {
  }

  lemma Snoc(hits: seq<seq<Hit>>, found: seq<Hit>, limit: nat)
    ensures Incremental(hits + [found], limit) == Round(Incremental(hits, limit), found, limit)
    ensures Concat(hits + [found]) == Concat(hits) + found
  {
    assert (hits + [found])[..|hits|] == hits;
  }

  function HitPages(q: Query, pages: seq<seq<Row>>): (r: seq<seq<Hit>>)
    ensures |r| == |pages| && forall i :: 0 <= i < |pages| ==> r[i] == PageHits(q, pages[i])
  {
    seq(|pages|, i requires 0 <= i < |pages| => PageHits(q, pages[i]))
  }

  function Clips(hits: seq<Hit>): (r: seq<Row>)
    ensures |r| == |hits| && forall i :: 0 <= i < |hits| ==> r[i] == hits[i].clip
  {
    seq(|hits|, i requires 0 <= i < |hits| => hits[i].clip)
  }
}
