/** The incremental result of `Recall` against the one-shot result, over every sequence of pages. */
module RecallTheorems {
  import opened Options
  import opened Ranking
  import opened Recall

  // ----- One insertion

  /** `w` is the incremental list and `g` the same hits ranked without the budget: the part of `g`
      within budget leads `w`, whatever else is in `w` ranks no better than the first hit of `g`
      left out, and nothing else is in `w` when nothing was left out. */
  ghost predicate Agree(w: seq<Hit>, g: seq<Hit>, p: seq<Hit>) {
    && p == Cut(g) && p <= w && p <= g
    && Sorted(ByRank, w) && Sorted(ByRank, g)
    && (|p| < |g| ==> forall e :: e in w[|p|..] ==> !Better(ByRank, e, g[|p|]))
    && (|p| == |g| ==> w == p)
  }

  lemma TopSorted(k: nat, x: Hit, s: seq<Hit>)
    requires Sorted(ByRank, s)
    ensures Sorted(ByRank, Top(k, Insert(ByRank, x, s)))
  {
    InsertSorted(ByRank, x, s);
  }

  lemma SortedTail(s: seq<Hit>, n: nat)
    requires Sorted(ByRank, s) && n < |s|
    ensures forall e :: e in s[n..] ==> !Better(ByRank, e, s[n])
  {
    forall e | e in s[n..] ensures !Better(ByRank, e, s[n]) {
      var i :| 0 <= i < |s[n..]| && s[n..][i] == e;
      assert s[n + i] == e;
    }
  }

  /** Equal lists agree. */
  lemma SameAgree(g: seq<Hit>)
    requires Sorted(ByRank, g)
    ensures Agree(g, g, Cut(g))
  {
    if |Cut(g)| < |g| {
      SortedTail(g, |Cut(g)|);
    }
  }

  lemma {:induction false} BytesInsert(x: Hit, s: seq<Hit>)
    ensures Bytes(Insert(ByRank, x, s)) == Bytes(s) + x.clip.inlineBytes
  {
    BytesFront(Insert(ByRank, x, s));
    if s != [] {
      BytesFront(s);
      if !Better(ByRank, x, s[0]) {
        BytesInsert(x, s[1..]);
        assert Insert(ByRank, x, s)[1..] == Insert(ByRank, x, s[1..]);
      } else {
        assert Insert(ByRank, x, s)[1..] == s;
      }
    }
  }

  lemma {:induction false} BytesFront(s: seq<Hit>)
    requires s != []
    ensures Bytes(s) == s[0].clip.inlineBytes + Bytes(s[1..])
    decreases |s|
  {
    if |s| > 1 {
      var n := |s| - 1;
      BytesFront(s[..n]);
      assert s[..n][1..] == s[1..][..n - 1];
    }
  }

  /** A list that is over budget one past `p` is cut no later than that, whatever follows. */
  lemma CutStops(s: seq<Hit>, n: nat)
    requires 1 <= n < |s| && Bytes(s[..n + 1]) > RESULT_BYTES
    ensures |Cut(s)| <= n
  {
    CutIsCut(s);
    if |Cut(s)| > n {
      BytesMonotone(s, n + 1, |Cut(s)|);
    }
  }

  lemma TopPrefix(k: nat, a: seq<Hit>, b: seq<Hit>)
    requires |a| <= k
    ensures Top(k, a + b)[..|a|] == a && Top(k, a + b)[|a|..] == Top(k - |a|, b)
  {
  }

  /** Two ranked lists that share their first `n` hits, beyond which the cut does not go. */
  lemma SharedStartAgrees(w: seq<Hit>, g: seq<Hit>, n: nat)
    requires Sorted(ByRank, w) && Sorted(ByRank, g) && n <= |w| && n < |g| && w[..n] == g[..n] && |Cut(g)| <= n
    requires forall e :: e in w[n..] ==> !Better(ByRank, e, g[n])
    ensures Agree(w, g, Cut(g))
  {
    var m := |Cut(g)|;
    assert Cut(g) == g[..m] == w[..m] by {
      assert g[..m] == g[..n][..m] && w[..m] == w[..n][..m];
    }
    if m < n {
      assert w[m] == w[..n][m] == g[m];
      SortedTail(w, m);
    }
  }

  /** The new hit lands inside the part within budget: both lists change there alike. */
  lemma LandsInside(w: seq<Hit>, g: seq<Hit>, p: seq<Hit>, x: Hit, k: nat)
    requires Agree(w, g, p) && |w| <= k && |g| <= k && |p| < |g|
    requires exists i :: 0 <= i < |p| && Better(ByRank, x, p[i])
    ensures var w', g' := Top(k, Insert(ByRank, x, w)), Top(k, Insert(ByRank, x, g));
            Agree(w', g', Cut(g'))
  {
    var w', g' := Top(k, Insert(ByRank, x, w)), Top(k, Insert(ByRank, x, g));
    var rest, extra := g[|p|..], w[|p|..];
    assert p == Cut(g) && Sorted(ByRank, w) && Sorted(ByRank, g);
    hide Insert, Sorted, Cut, Better;
    assert g == p + rest && w == p + extra && rest[0] == g[|p|];
    assert forall e :: e in extra ==> !Better(ByRank, e, rest[0]);
    hide Agree;
    InsertSplit(ByRank, x, p, rest);
    InsertSplit(ByRank, x, p, extra);
    var p' := Insert(ByRank, x, p);
    TopSorted(k, x, w);
    TopSorted(k, x, g);
    assert |p'| == |p| + 1;
    InsideParts(w', g', p, p', rest, extra, x, k, g);
  }

  lemma InsideParts(w': seq<Hit>, g': seq<Hit>, p: seq<Hit>, p': seq<Hit>, rest: seq<Hit>, extra: seq<Hit>, x: Hit, k: nat, g: seq<Hit>)
    requires g == p + rest && rest != [] && p == Cut(g) && p' == Insert(ByRank, x, p) && |p'| <= k
    requires w' == Top(k, p' + extra) && g' == Top(k, p' + rest) && Sorted(ByRank, w') && Sorted(ByRank, g')
    requires forall e :: e in extra ==> !Better(ByRank, e, rest[0])
    ensures Agree(w', g', Cut(g'))
  {
    TopPrefix(k, p', rest);
    TopPrefix(k, p', extra);
    var n := |p'|;
    if n == k {
      assert w' == g';
      SameAgree(g');
    } else {
      assert g'[n] == g'[n..][0] == rest[0];
      assert forall e :: e in Top(k - n, extra) ==> e in extra;
      assert g[|p|] == rest[0];
      OverBudgetInside(g, p, x, g', p');
      SharedStartAgrees(w', g', n);
    }
  }

  lemma OverBudgetInside(g: seq<Hit>, p: seq<Hit>, x: Hit, g': seq<Hit>, p': seq<Hit>)
    requires p == Cut(g) && |p| < |g| && p' == Insert(ByRank, x, p)
    requires |p'| < |g'| && g'[..|p'|] == p' && g'[|p'|] == g[|p|]
    ensures |Cut(g')| <= |p'|
  {
    CutIsCut(g);
    BytesSnoc(g, |p|);
    assert g[..|p|] == p;
    BytesInsert(x, p);
    BytesSnoc(g', |p'|);
    CutStops(g', |p'|);
  }

  /** The new hit ranks after everything within budget. */
  lemma LandsAfter(w: seq<Hit>, g: seq<Hit>, p: seq<Hit>, x: Hit, k: nat)
    requires Agree(w, g, p) && |w| <= k && |g| <= k && |p| < |g| && forall i :: 0 <= i < |p| ==> !Better(ByRank, x, p[i])
    ensures var w', g' := Top(k, Insert(ByRank, x, w)), Top(k, Insert(ByRank, x, g));
            Agree(w', g', Cut(g'))
  {
    var w', g' := Top(k, Insert(ByRank, x, w)), Top(k, Insert(ByRank, x, g));
    var rest, extra := g[|p|..], w[|p|..];
    assert p == Cut(g) && Sorted(ByRank, w) && Sorted(ByRank, g);
    hide Sorted, Cut, Better;
    assert g == p + rest && w == p + extra && rest[0] == g[|p|];
    assert forall e :: e in extra ==> !Better(ByRank, e, rest[0]);
    hide Agree;
    InsertSplit(ByRank, x, p, rest);
    InsertSplit(ByRank, x, p, extra);
    TopSorted(k, x, w);
    TopSorted(k, x, g);
    if Better(ByRank, x, rest[0]) {
      assert extra != [] ==> extra[0] in extra && Better(ByRank, x, extra[0]);
      assert Insert(ByRank, x, rest) == [x] + rest && Insert(ByRank, x, extra) == [x] + extra;
      LandsBetween(w', g', p, x, rest, extra, k, g);
    } else {
      assert Insert(ByRank, x, rest)[0] == rest[0];
      AfterParts(w', g', p, Insert(ByRank, x, rest), Insert(ByRank, x, extra), k, g);
    }
  }

  /** Nothing changes up to and including the first hit left out. */
  lemma AfterParts(w': seq<Hit>, g': seq<Hit>, p: seq<Hit>, rest: seq<Hit>, extra: seq<Hit>, k: nat, g: seq<Hit>)
    requires p == Cut(g) && |p| < |g| <= k && p <= g && rest != [] && rest[0] == g[|p|]
    requires w' == Top(k, p + extra) && g' == Top(k, p + rest) && Sorted(ByRank, w') && Sorted(ByRank, g')
    requires forall e :: e in extra ==> !Better(ByRank, e, rest[0])
    ensures Agree(w', g', Cut(g'))
  {
    TopPrefix(k, p, rest);
    TopPrefix(k, p, extra);
    var n := |p|;
    assert g'[n] == g'[n..][0] == rest[0];
    CutIsCut(g);
    BytesSnoc(g, n);
    BytesSnoc(g', n);
    assert g[..n] == p;
    CutStops(g', n);
    assert forall e :: e in Top(k - n, extra) ==> e in extra;
    SharedStartAgrees(w', g', n);
  }

  /** Right behind the part within budget, ahead of the first hit left out. */
  lemma LandsBetween(w': seq<Hit>, g': seq<Hit>, p: seq<Hit>, x: Hit, rest: seq<Hit>, extra: seq<Hit>, k: nat, g: seq<Hit>)
    requires g == p + rest && rest != [] && |g| <= k && |p| + |extra| <= k && p == Cut(g)
    requires g' == Top(k, p + ([x] + rest)) && w' == Top(k, p + ([x] + extra))
    requires Sorted(ByRank, w') && Sorted(ByRank, g') && Better(ByRank, x, rest[0])
    requires forall e :: e in extra ==> !Better(ByRank, e, rest[0])
    ensures Agree(w', g', Cut(g'))
  {
    CutIsCut(g);
    hide Cut, Better, Sorted, Bytes;
    var n := |p|;
    assert g[..n] == p && g'[..n] == p && g'[n] == x;
    assert w'[..n + 1] == p + [x];
    CutIsCut(g');
    CutIsPrefix(g');
    assert |Cut(g')| <= n + 1 by {
      if n + 1 < |g'| {
        assert g'[n + 1] == rest[0];
        BytesSnoc(g, n);
        BytesSnoc(g', n);
        BytesSnoc(g', n + 1);
        CutStops(g', n + 1);
      }
    }
    CutKeepsPrefixAgain(p, g, g');
    if |Cut(g')| == n {
      BetterThanExtras(x, rest[0], extra);
      NeverBetterThanItself(x);
      assert forall e :: e in w'[n..] ==> e == x || e in extra;
    } else {
      assert Cut(g') == p + [x];
      assert forall e :: e in w'[n + 1..] ==> e in extra;
    }
  }

  lemma NeverBetterThanItself(x: Hit)
    ensures !Better(ByRank, x, x)
  {
  }

  lemma CutIsPrefix(s: seq<Hit>)
    ensures |Cut(s)| <= |s| && Cut(s) == s[..|Cut(s)|]
  {
  }

  lemma BetterThanExtras(x: Hit, y: Hit, extra: seq<Hit>)
    requires Better(ByRank, x, y) && forall e :: e in extra ==> !Better(ByRank, e, y)
    ensures forall e :: e in extra ==> !Better(ByRank, e, x)
  {
  }

  lemma CutKeepsPrefixAgain(p: seq<Hit>, g: seq<Hit>, g': seq<Hit>)
    requires p == Cut(g) && p <= g'
    ensures p <= Cut(g')
  {
    CutTwice(g);
    CutKeepsPrefix(p, g');
  }

  lemma InsertAgrees(w: seq<Hit>, g: seq<Hit>, p: seq<Hit>, x: Hit, k: nat)
    requires Agree(w, g, p) && |w| <= k && |g| <= k
    ensures var w', g' := Top(k, Insert(ByRank, x, w)), Top(k, Insert(ByRank, x, g));
            Agree(w', g', Cut(g'))
  {
    hide Insert, Sorted, Cut;
    if |p| == |g| {
      assert w == g;
      assert Sorted(ByRank, g);
      TopSorted(k, x, g);
      SameAgree(Top(k, Insert(ByRank, x, g)));
    } else if exists i :: 0 <= i < |p| && Better(ByRank, x, p[i]) {
      LandsInside(w, g, p, x, k);
    } else {
      LandsAfter(w, g, p, x, k);
    }
  }

  // ----- One page

  lemma {:induction false} PageAgrees(w: seq<Hit>, g: seq<Hit>, page: seq<Hit>, k: nat)
    requires Agree(w, g, Cut(g)) && |w| <= k && |g| <= k
    ensures var w', g' := Capped(ByRank, k, w, page), Capped(ByRank, k, g, page);
            Agree(w', g', Cut(g')) && |w'| <= k && |g'| <= k
  {
    if page != [] {
      var front := page[..|page| - 1];
      PageAgrees(w, g, front, k);
      hide Agree;
      InsertAgrees(Capped(ByRank, k, w, front), Capped(ByRank, k, g, front), Cut(Capped(ByRank, k, g, front)), page[|page| - 1], k);
    }
  }

  /** The budget cut at the end of a round keeps the agreement. */
  lemma CutAgrees(w: seq<Hit>, g: seq<Hit>)
    requires Agree(w, g, Cut(g))
    ensures Agree(Cut(w), g, Cut(g))
  {
    var p := Cut(g);
    CutTwice(g);
    CutKeepsPrefix(p, w);
    if |p| < |g| {
      assert Cut(w)[|p|..] <= w[|p|..];
    }
  }

  lemma RoundAgrees(w: seq<Hit>, all: seq<Hit>, page: seq<Hit>, k: nat)
    requires |w| <= k
    requires var g := Top(k, Sort(ByRank, all)); Agree(w, g, Cut(g))
    ensures var g' := Top(k, Sort(ByRank, all + page));
            Agree(Round(w, page, k), g', Cut(g')) && |Round(w, page, k)| <= k
  {
    var g := Top(k, Sort(ByRank, all));
    PageAgrees(w, g, page, k);
    CappedIsTop(ByRank, k, Sort(ByRank, all), page);
    InsertAllConcat(ByRank, [], all, page);
    assert Top(k, w) == w;
    CappedIsTop(ByRank, k, w, page);
    SortAppended(ByRank, w, page);
    CutAgrees(Capped(ByRank, k, w, page), Capped(ByRank, k, g, page));
  }

  lemma {:induction false} PagesAgree(pages: seq<seq<Hit>>, k: nat)
    ensures var g := Top(k, Sort(ByRank, Concat(pages)));
            Agree(Incremental(pages, k), g, Cut(g)) && |Incremental(pages, k)| <= k
  {
    if pages == [] {
    } else {
      var n := |pages| - 1;
      PagesAgree(pages[..n], k);
      hide Agree, Round;
      RoundAgrees(Incremental(pages[..n], k), Concat(pages[..n]), pages[n], k);
    }
  }

  // ----- The theorems

  /** Whatever the pages, the one-shot result leads the incremental one; the incremental result is
      ranked; and the two are equal whenever the budget drops none of the top hits. */
  lemma OneShotLeads(pages: seq<seq<Hit>>, limit: nat)
    requires 1 <= limit
    ensures OneShot(Concat(pages), limit) <= Incremental(pages, limit)
    ensures Sorted(ByRank, Incremental(pages, limit)) && |Incremental(pages, limit)| <= limit
    ensures OneShot(Concat(pages), limit) == Top(limit, Sort(ByRank, Concat(pages))) ==>
              Incremental(pages, limit) == OneShot(Concat(pages), limit)
  {
    PagesAgree(pages, limit);
  }

  /** Pinned before unpinned, then by score, then by recency. */
  ghost predicate PinnedThenScoreThenRecency(s: seq<Hit>) {
    forall i, j :: 0 <= i < j < |s| ==>
      && (s[j].clip.pinned ==> s[i].clip.pinned)
      && (s[i].clip.pinned == s[j].clip.pinned ==>
            && s[i].score >= s[j].score
            && (s[i].score == s[j].score ==> s[i].clip.updatedAt >= s[j].clip.updatedAt))
  }

  lemma SortedMeans(s: seq<Hit>)
    ensures Sorted(ByRank, s) <==> PinnedThenScoreThenRecency(s)
  {
    if Sorted(ByRank, s) {
      forall i, j | 0 <= i < j < |s|
        ensures s[j].clip.pinned ==> s[i].clip.pinned
        ensures s[i].clip.pinned == s[j].clip.pinned ==>
                  && s[i].score >= s[j].score
                  && (s[i].score == s[j].score ==> s[i].clip.updatedAt >= s[j].clip.updatedAt)
      {
        assert !Better(ByRank, s[j], s[i]);
      }
    }
  }

  /** The winners of every paging, and the one-shot result, come in that order. */
  lemma WinnersInOrder(pages: seq<seq<Hit>>, limit: nat)
    requires 1 <= limit
    ensures PinnedThenScoreThenRecency(Incremental(pages, limit))
    ensures PinnedThenScoreThenRecency(OneShot(Concat(pages), limit))
  {
    OneShotLeads(pages, limit);
    SortedMeans(Incremental(pages, limit));
    hide Incremental, OneShot, Concat;
    assert PinnedThenScoreThenRecency(OneShot(Concat(pages), limit)) by {
      var w, p := Incremental(pages, limit), OneShot(Concat(pages), limit);
      assert forall i :: 0 <= i < |p| ==> p[i] == w[i];
    }
  }

  /** The first winner is the best of all hits, on any page. */
  lemma FirstIsBest(pages: seq<seq<Hit>>, limit: nat, e: Hit)
    requires 1 <= limit && e in Concat(pages)
    ensures Incremental(pages, limit) != [] && !Better(ByRank, e, Incremental(pages, limit)[0])
  {
    var all := Sort(ByRank, Concat(pages));
    InsertAllSorted(ByRank, [], Concat(pages));
    assert e in all;
    HeadBeatsNone(ByRank, all, e);
    OneShotLeads(pages, limit);
    CutIsCut(Top(limit, all));
    assert OneShot(Concat(pages), limit)[0] == all[0];
  }

  // ----- Pages partition the rows

  lemma {:induction false} ScoredConcat(q: Query, a: seq<Row>, b: seq<Row>)
    ensures Scored(q, a + b) == Scored(q, a) + Scored(q, b)
  {
    if a == [] {
      assert a + b == b;
    } else {
      assert (a + b)[1..] == a[1..] + b;
      ScoredConcat(q, a[1..], b);
    }
  }

  lemma MatchesConcat(q: Query, a: seq<Row>, b: seq<Row>)
    ensures Matches(q, a + b) == Matches(q, a) + Matches(q, b)
  {
    ScoredConcat(q, a, b);
    FilterConcat(Visible(q), Scored(q, a), Scored(q, b));
  }

  predicate TiedVisible(q: Query, x: Hit, h: Hit) { Tied(ByRank, x, h) && q.visible(h.clip) }

  function TiedVisibleWith(q: Query, x: Hit): Hit -> bool { h => TiedVisible(q, x, h) }

  lemma {:induction false} FilterBoth(q: Query, x: Hit, s: seq<Hit>)
    ensures Class(ByRank, x, Filter(Visible(q), s)) == Filter(TiedVisibleWith(q, x), s)
  {
    if s != [] {
      FilterBoth(q, x, s[1..]);
      var rest := Filter(Visible(q), s[1..]);
      var head := if q.visible(s[0].clip) then [s[0]] else [];
      assert Filter(Visible(q), s) == head + rest;
      FilterConcat(TiedWith(ByRank, x), head, rest);
      assert Filter(TiedVisibleWith(q, x), s) ==
             (if TiedVisible(q, x, s[0]) then [s[0]] else []) + Filter(TiedVisibleWith(q, x), s[1..]);
    }
  }

  /** The order inside a search result does not show in the final ranking. */
  lemma SearchOrderHidden(q: Query, page: seq<Row>, x: Hit)
    ensures Class(ByRank, x, PageHits(q, page)) == Class(ByRank, x, Matches(q, page))
  {
    var p := TiedVisibleWith(q, x);
    FilterBoth(q, x, Sort(BySearch, Scored(q, page)));
    FilterBoth(q, x, Scored(q, page));
    assert OneClass(BySearch, p);
    SortStable(BySearch, p, Scored(q, page));
  }

  lemma {:induction false} PagesHoldMatches(q: Query, pages: seq<seq<Row>>, x: Hit)
    ensures Class(ByRank, x, Concat(HitPages(q, pages))) == Class(ByRank, x, Matches(q, Flatten(pages)))
  {
    if pages != [] {
      var n := |pages| - 1;
      var hits := HitPages(q, pages);
      PagesHoldMatches(q, pages[..n], x);
      assert hits[..n] == HitPages(q, pages[..n]);
      FilterConcat(TiedWith(ByRank, x), Concat(hits[..n]), hits[n]);
      SearchOrderHidden(q, pages[n], x);
      MatchesConcat(q, Flatten(pages[..n]), pages[n]);
      FilterConcat(TiedWith(ByRank, x), Matches(q, Flatten(pages[..n])), Matches(q, pages[n]));
    }
  }

  lemma SortOneClass(s: seq<Hit>, x: Hit)
    ensures Class(ByRank, x, Sort(ByRank, s)) == Class(ByRank, x, s)
  {
    assert OneClass(ByRank, TiedWith(ByRank, x));
    SortStable(ByRank, TiedWith(ByRank, x), s);
  }

  /** Ranking the hits page by page and ranking the matches of all rows give the same order. */
  lemma RankingIgnoresPages(q: Query, pages: seq<seq<Row>>)
    ensures Sort(ByRank, Concat(HitPages(q, pages))) == Sort(ByRank, Matches(q, Flatten(pages)))
  {
    var a, b := Concat(HitPages(q, pages)), Matches(q, Flatten(pages));
    InsertAllSorted(ByRank, [], a);
    InsertAllSorted(ByRank, [], b);
    forall x ensures Class(ByRank, x, Sort(ByRank, a)) == Class(ByRank, x, Sort(ByRank, b)) {
      SortOneClass(a, x);
      SortOneClass(b, x);
      PagesHoldMatches(q, pages, x);
    }
    StableSortUnique(ByRank, Sort(ByRank, a), Sort(ByRank, b));
  }

  lemma {:induction false} FilterLength(p: Hit -> bool, o: Order, s: seq<Hit>)
    ensures |Filter(p, Sort(o, s))| == |Filter(p, s)|
  {
    if s != [] {
      var n := |s| - 1;
      FilterLength(p, o, s[..n]);
      FilterInsertLength(p, o, s[n], Sort(o, s[..n]));
      FilterConcat(p, s[..n], [s[n]]);
      assert s == s[..n] + [s[n]];
    }
  }

  lemma {:induction false} FilterInsertLength(p: Hit -> bool, o: Order, x: Hit, s: seq<Hit>)
    ensures |Filter(p, Insert(o, x, s))| == |Filter(p, s)| + (if p(x) then 1 else 0)
  {
    if s == [] {
    } else if Better(o, x, s[0]) {
      assert ([x] + s)[1..] == s;
    } else {
      FilterInsertLength(p, o, x, s[1..]);
      assert ([s[0]] + Insert(o, x, s[1..]))[1..] == Insert(o, x, s[1..]);
    }
  }

  /** The reported total is exactly the number of rows that match and are visible. */
  lemma {:induction false} TotalIsExact(q: Query, pages: seq<seq<Row>>)
    ensures |Concat(HitPages(q, pages))| == |Matches(q, Flatten(pages))|
  {
    if pages != [] {
      var n := |pages| - 1;
      var hits := HitPages(q, pages);
      TotalIsExact(q, pages[..n]);
      assert hits[..n] == HitPages(q, pages[..n]);
      FilterLength(Visible(q), BySearch, Scored(q, pages[n]));
      MatchesConcat(q, Flatten(pages[..n]), pages[n]);
    }
  }

  // ----- The two results can differ

  const BEST: Hit := Hit(10, Row(0, false, 0, 1))
  const HUGE: Hit := Hit(9, Row(1, false, 0, RESULT_BYTES))
  const WORST: Hit := Hit(8, Row(2, false, 0, 1))

  /** Ranking and cutting a short list that is already in order. */
  lemma RankedAndCut(s: seq<Hit>, n: nat)
    requires Sorted(ByRank, s) && 2 <= |s| <= 3 && s[0] == BEST
    requires if n == 1 then s[1] == HUGE else n == |s| == 2 && s[1] == WORST
    ensures OneShot(s, 3) == s[..n]
  {
    SortedFixed(ByRank, s);
    CutsTo(s, n);
    hide Sort, Sorted, Cut;
    assert Top(3, s) == s;
  }

  /** A large hit dropped by an early round lets a worse small one in later: the incremental result
      then holds two hits where the one-shot result stops at the first. */
  lemma DroppedHitLetsWorseIn()
    ensures OneShot(Concat([[BEST, HUGE], [WORST]]), 3) == [BEST]
    ensures Incremental([[BEST, HUGE], [WORST]], 3) == [BEST, WORST]
  {
    RankedAndCut([BEST, HUGE], 1);
    RankedAndCut([BEST, HUGE, WORST], 1);
    RankedAndCut([BEST, WORST], 2);
    assert Incremental([], 3) == [] && Concat([]) == [];
    hide Incremental, Concat, OneShot;
    TwoRounds([BEST, HUGE], [WORST]);
    assert [BEST, HUGE] + [WORST] == [BEST, HUGE, WORST] && [BEST] + [WORST] == [BEST, WORST];
  }

  lemma TwoRounds(a: seq<Hit>, b: seq<Hit>)
    requires Incremental([], 3) == [] && Concat([]) == []
    ensures Concat([a, b]) == a + b
    ensures Incremental([a, b], 3) == OneShot(OneShot(a, 3) + b, 3)
  {
    hide Incremental, Concat, Cut, Sort;
    Snoc([], a, 3);
    Snoc([a], b, 3);
    assert [] + [a] == [a] && [a] + [b] == [a, b] && [] + a == a;
  }

  lemma CutsTo(s: seq<Hit>, n: nat)
    requires 2 <= |s| <= 3 && s[0] == BEST
    requires if n == 1 then s[1] == HUGE else n == |s| == 2 && s[1] == WORST
    ensures Cut(s) == s[..n]
  {
    BytesSnoc(s, 0);
    BytesSnoc(s, 1);
    assert s[..0] == [];
    CutUnique(s, n);
  }
}
