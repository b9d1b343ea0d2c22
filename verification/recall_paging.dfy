/** Exactly when paged recall gives the one-shot result, however the rows are divided into pages. */
module RecallPaging {
  import opened Options
  import opened Ranking
  import opened Recall
  import opened RecallTheorems

  /** Of the ranked hits `s`, either the budget drops none within the limit, or no hit ranked behind
      those kept, within the limit or beyond it, would still fit the budget next to them. */
  predicate NothingFitsBehind(s: seq<Hit>, limit: nat) {
    var n := |Cut(Top(limit, s))|;
    n == |Top(limit, s)| || (n <= |s| && forall e :: e in s[n..] ==> Bytes(s[..n]) + e.clip.inlineBytes > RESULT_BYTES)
  }

  // ----- Every winner is one of the hits

  lemma {:induction false} InsertMultiset(o: Order, x: Hit, s: seq<Hit>)
    ensures multiset(Insert(o, x, s)) == multiset(s) + multiset{x}
  {
    hide Better;
    if s != [] && !Better(o, x, s[0]) {
      var rest := s[1..];
      assert s == [s[0]] + rest;
      InsertMultiset(o, x, rest);
    }
  }

  lemma ClipsCons(x: Hit, s: seq<Hit>)
    ensures Clips([x] + s) == [x.clip] + Clips(s)
  {
  }

  lemma {:induction false} InsertClips(o: Order, x: Hit, s: seq<Hit>)
    ensures multiset(Clips(Insert(o, x, s))) == multiset(Clips(s)) + multiset{x.clip}
  {
    hide Better, Clips;
    if s == [] {
      assert [x] + s == [x];
      ClipsCons(x, s);
    } else if Better(o, x, s[0]) {
      ClipsCons(x, s);
    } else {
      var rest := s[1..];
      assert s == [s[0]] + rest;
      InsertClips(o, x, rest);
      ClipsCons(s[0], rest);
      ClipsCons(s[0], Insert(o, x, rest));
    }
  }

  lemma {:induction false} SortMultiset(o: Order, s: seq<Hit>)
    ensures multiset(Sort(o, s)) == multiset(s)
  {
    if s != [] {
      var front, x := s[..|s| - 1], s[|s| - 1];
      assert s == front + [x];
      SortMultiset(o, front);
      InsertMultiset(o, x, Sort(o, front));
    }
  }

  lemma {:induction false} SortClips(o: Order, s: seq<Hit>)
    ensures multiset(Clips(Sort(o, s))) == multiset(Clips(s))
  {
    if s == [] {
      assert Sort(o, s) == s;
    } else {
      var front, x := s[..|s| - 1], s[|s| - 1];
      SortClips(o, front);
      InsertClips(o, x, Sort(o, front));
      assert Sort(o, s) == Insert(o, x, Sort(o, front));
      assert Clips(s) == Clips(front) + [x.clip];
      hide Sort, Insert, Clips;
    }
  }

  lemma RoundFromBoth(w: seq<Hit>, page: seq<Hit>, limit: nat)
    ensures multiset(Round(w, page, limit)) <= multiset(w) + multiset(page)
  {
    hide Sort, Cut;
    var sorted := Sort(ByRank, w + page);
    SortMultiset(ByRank, w + page);
    var top := Top(limit, sorted);
    CutIsPrefix(top);
    PrefixMultiset(top, |Cut(top)|);
    PrefixMultiset(sorted, |top|);
  }

  lemma PrefixMultiset(s: seq<Hit>, n: nat)
    requires n <= |s|
    ensures multiset(s[..n]) <= multiset(s)
  {
    assert s == s[..n] + s[n..];
  }

  lemma {:induction false} WinnersAreHits(pages: seq<seq<Hit>>, limit: nat)
    ensures multiset(Incremental(pages, limit)) <= multiset(Concat(pages))
  {
    hide Round;
    if pages != [] {
      var n := |pages| - 1;
      WinnersAreHits(pages[..n], limit);
      RoundFromBoth(Incremental(pages[..n], limit), pages[n], limit);
    }
  }

  lemma FirstBehind(p: seq<Hit>, w: seq<Hit>, s: seq<Hit>)
    requires p <= w && p <= s && |p| < |w| && multiset(w) <= multiset(s)
    ensures w[|p|] in s[|p|..]
  {
    var extra, behind := w[|p|..], s[|p|..];
    assert w == p + extra && s == p + behind;
    assert extra[0] in multiset(extra);
    assert multiset(w) == multiset(p) + multiset(extra) && multiset(s) == multiset(p) + multiset(behind);
    assert multiset(s)[extra[0]] == multiset(p)[extra[0]] + multiset(behind)[extra[0]];
    assert extra[0] in multiset(behind);
  }

  lemma RoundIsCut(w: seq<Hit>, page: seq<Hit>, limit: nat)
    ensures CutAt(Round(w, page, limit), |Round(w, page, limit)|)
  {
    CutTwice(Top(limit, Sort(ByRank, w + page)));
  }

  // ----- Sufficient

  lemma NothingFitsMeansEqual(pages: seq<seq<Hit>>, limit: nat)
    requires 1 <= limit && NothingFitsBehind(Sort(ByRank, Concat(pages)), limit)
    ensures Incremental(pages, limit) == OneShot(Concat(pages), limit)
  {
    var s := Sort(ByRank, Concat(pages));
    var g, w := Top(limit, s), Incremental(pages, limit);
    var p := Cut(g);
    PagesAgree(pages, limit);
    assert p <= w && p <= g && (|p| == |g| ==> w == p);
    CutIsCut(g);
    WinnersAreHits(pages, limit);
    SortMultiset(ByRank, Concat(pages));
    WinnersFit(pages, limit);
    hide Agree, Sort, Incremental, Cut, Concat;
    if |p| < |g| && |p| < |w| {
      NoneBehind(s, w, limit);
      assert false;
    }
  }

  /** A list of hits that extends what is kept would have to extend it by a hit that fits. */
  lemma NoneBehind(s: seq<Hit>, w: seq<Hit>, limit: nat)
    requires var p := Cut(Top(limit, s)); 1 <= |p| < |Top(limit, s)| && p <= w && |p| < |w|
    requires multiset(w) <= multiset(s) && (|w| >= 2 ==> Bytes(w) <= RESULT_BYTES)
    ensures !NothingFitsBehind(s, limit)
  {
    var g := Top(limit, s);
    var p := Cut(g);
    var n := |p|;
    CutIsPrefix(g);
    hide Cut;
    assert p == g[..n] == s[..n];
    FirstBehind(p, w, s);
    BytesSnoc(w, n);
    BytesMonotone(w, n + 1, |w|);
    assert w[..n] == p && w[..|w|] == w;
  }

  lemma WinnersFit(pages: seq<seq<Hit>>, limit: nat)
    ensures |Incremental(pages, limit)| >= 2 ==> Bytes(Incremental(pages, limit)) <= RESULT_BYTES
  {
    if pages != [] {
      var n := |pages| - 1;
      RoundIsCut(Incremental(pages[..n], limit), pages[n], limit);
      var w := Incremental(pages, limit);
      assert w[..|w|] == w;
    }
  }

  // ----- Necessary

  function Empties(n: nat): seq<seq<Hit>> {
    if n == 0 then [] else Empties(n - 1) + [[]]
  }

  /** The ranked hits one to a page, behind `e` pages without any. */
  function OneByOne(e: nat, s: seq<Hit>): seq<seq<Hit>>
    decreases |s|
  {
    if s == [] then Empties(e) else OneByOne(e, s[..|s| - 1]) + [[s[|s| - 1]]]
  }

  lemma {:induction false} NoHitsNoWinners(e: nat, limit: nat)
    ensures Concat(Empties(e)) == [] && Incremental(Empties(e), limit) == []
  {
    if e > 0 {
      NoHitsNoWinners(e - 1, limit);
      Snoc(Empties(e - 1), [], limit);
      NoHitsRound(limit);
    }
  }

  lemma NoHitsRound(limit: nat)
    ensures Round([], [], limit) == []
  {
    var none: seq<Hit> := [];
    assert none + none == none;
  }

  lemma {:induction false} OneByOneIsAll(e: nat, s: seq<Hit>)
    ensures Concat(OneByOne(e, s)) == s
    decreases |s|
  {
    if s == [] {
      NoHitsNoWinners(e, 0);
    } else {
      var front, x := s[..|s| - 1], s[|s| - 1];
      OneByOneIsAll(e, front);
      Snoc(OneByOne(e, front), [x], 0);
      hide Concat, Incremental;
      assert front + [x] == s;
    }
  }

  /** What is ranked and within budget stays when a hit comes that beats none of it. */
  lemma WinnersStay(w: seq<Hit>, x: Hit, limit: nat)
    requires Sorted(ByRank, w) && |w| <= limit && CutAt(w, |w|) && forall e :: e in w ==> !Better(ByRank, x, e)
    ensures w <= Round(w, [x], limit)
  {
    SortedFixed(ByRank, w + [x]);
    hide Sort, Cut, CutAt, Better;
    CutKeepsPrefix(w, Top(limit, w + [x]));
  }

  lemma FittingHitJoins(s: seq<Hit>, limit: nat, n: nat, j: nat)
    requires Sorted(ByRank, s) && 1 <= n <= j < |s| && n < limit
    requires Bytes(s[..n]) + s[j].clip.inlineBytes <= RESULT_BYTES
    ensures |Round(s[..n], [s[j]], limit)| > n
  {
    var t := s[..n] + [s[j]];
    assert Sorted(ByRank, t);
    hide Sorted, Cut, Better;
    SortedFixed(ByRank, t);
    hide Sort;
    BytesSnoc(t, n);
    assert t[..n] == s[..n] && t[..n + 1] == t;
    CutKeepsPrefix(t, Top(limit, t));
  }

  lemma WinnersAreCut(pages: seq<seq<Hit>>, limit: nat)
    ensures CutAt(Incremental(pages, limit), |Incremental(pages, limit)|)
  {
    if pages != [] {
      RoundIsCut(Incremental(pages[..|pages| - 1], limit), pages[|pages| - 1], limit);
    }
  }

  /** The winners after the first `m` hits: ranked, within the limit, and beaten by no later hit. */
  lemma WinnersSoFar(e: nat, s: seq<Hit>, m: nat, limit: nat)
    requires Sorted(ByRank, s) && m < |s|
    ensures var w := Incremental(OneByOne(e, s[..m]), limit);
            && Sorted(ByRank, w) && |w| <= limit && CutAt(w, |w|) && Cut(Top(limit, s[..m])) <= w
            && forall h :: h in w ==> !Better(ByRank, s[m], h)
  {
    hide OneByOne, Incremental, Concat, Cut, CutAt, Better;
    var pages := OneByOne(e, s[..m]);
    var w := Incremental(pages, limit);
    OneByOneIsAll(e, s[..m]);
    WinnersAreHits(pages, limit);
    WinnersAreCut(pages, limit);
    RankedPrefix(s, m);
    PagesAgree(pages, limit);
    hide Sort;
    forall h | h in w ensures !Better(ByRank, s[m], h) {
      assert h in multiset(w);
      LaterBeatsNone(s, m, h);
    }
  }

  lemma RankedPrefix(s: seq<Hit>, m: nat)
    requires Sorted(ByRank, s) && m <= |s|
    ensures Sort(ByRank, s[..m]) == s[..m]
  {
    SortedFixed(ByRank, s[..m]);
  }

  lemma LaterBeatsNone(s: seq<Hit>, m: nat, h: Hit)
    requires Sorted(ByRank, s) && m < |s| && h in multiset(s[..m])
    ensures !Better(ByRank, s[m], h)
  {
    assert h in s[..m];
    var i :| 0 <= i < |s[..m]| && s[..m][i] == h;
    assert s[i] == h;
  }

  lemma OneMore(e: nat, s: seq<Hit>, m: nat, limit: nat)
    requires m < |s|
    ensures Incremental(OneByOne(e, s[..m + 1]), limit) == Round(Incremental(OneByOne(e, s[..m]), limit), [s[m]], limit)
  {
    assert s[..m + 1][..m] == s[..m] && s[..m + 1][m] == s[m];
    Snoc(OneByOne(e, s[..m]), [s[m]], limit);
  }

  /** Once hit `j` has come by, more is kept than the one-shot cut, and stays kept. */
  lemma {:induction false} KeptBeyondCut(e: nat, s: seq<Hit>, limit: nat, n: nat, j: nat, m: nat)
    requires Sorted(ByRank, s) && 1 <= n < j < m <= |s| && n < limit && CutAt(Top(limit, s), n)
    requires Bytes(s[..n]) + s[j].clip.inlineBytes <= RESULT_BYTES
    ensures |Incremental(OneByOne(e, s[..m]), limit)| > n
    decreases m
  {
    hide Sorted, Cut, CutAt, Incremental, Round, OneByOne, Bytes;
    var w := Incremental(OneByOne(e, s[..m - 1]), limit);
    WinnersSoFar(e, s, m - 1, limit);
    OneMore(e, s, m - 1, limit);
    if m > j + 1 {
      KeptBeyondCut(e, s, limit, n, j, m - 1);
      WinnersStay(w, s[m - 1], limit);
    } else {
      var a, g := Top(limit, s[..j]), Top(limit, s);
      assert a[..n + 1] == s[..n + 1] == g[..n + 1];
      SharedCut(a, g, n);
      assert a[..n] == s[..n];
      if |w| > n {
        WinnersStay(w, s[j], limit);
      } else {
        assert w == s[..n];
        FittingHitJoins(s, limit, n, j);
      }
    }
  }

  /** If some hit behind would fit, taking the ranked hits one by one lets such a hit in. */
  lemma FittingHitGetsIn(e: nat, s: seq<Hit>, limit: nat)
    requires 1 <= limit && Sorted(ByRank, s) && !NothingFitsBehind(s, limit)
    ensures |Incremental(OneByOne(e, s), limit)| > |Cut(Top(limit, s))|
  {
    var g := Top(limit, s);
    var p := Cut(g);
    var n := |p|;
    CutIsCut(g);
    CutIsPrefix(g);
    hide Cut, Sorted, OneByOne, Incremental;
    assert p == s[..n] && n < |g|;
    var x :| x in s[n..] && Bytes(p) + x.clip.inlineBytes <= RESULT_BYTES;
    var i :| 0 <= i < |s[n..]| && s[n..][i] == x;
    BytesSnoc(g, n);
    assert g[..n] == p && g[n] == s[n];
    assert n < n + i;
    KeptBeyondCut(e, s, limit, n, n + i, |s|);
    assert s[..|s|] == s;
  }

  /** Lists that share one hit more than is kept of one are cut alike. */
  lemma SharedCut(a: seq<Hit>, g: seq<Hit>, n: nat)
    requires n < |a| && n < |g| && CutAt(g, n) && a[..n + 1] == g[..n + 1]
    ensures Cut(a) == a[..n]
  {
    hide Cut, Bytes;
    assert a[..n] == a[..n + 1][..n] == g[..n + 1][..n] == g[..n];
    CutUnique(a, n);
  }

  // ----- The condition, on hits

  ghost predicate HarmlessPaging(hits: seq<Hit>, limit: nat) {
    forall pages: seq<seq<Hit>> :: Sort(ByRank, Concat(pages)) == Sort(ByRank, hits) ==>
      Incremental(pages, limit) == OneShot(hits, limit)
  }

  /** However equally ranked hits are divided into pages, the incremental result is the one-shot one, if
      and only if no hit behind those kept would fit the budget next to them. */
  lemma HarmlessIff(hits: seq<Hit>, limit: nat)
    requires 1 <= limit
    ensures HarmlessPaging(hits, limit) <==> NothingFitsBehind(Sort(ByRank, hits), limit)
  {
    var s := Sort(ByRank, hits);
    InsertAllSorted(ByRank, [], hits);
    SortedFixed(ByRank, s);
    hide Sort, Cut, Incremental;
    if NothingFitsBehind(s, limit) {
      forall pages: seq<seq<Hit>> | Sort(ByRank, Concat(pages)) == s ensures Incremental(pages, limit) == OneShot(hits, limit) {
        NothingFitsMeansEqual(pages, limit);
      }
    } else {
      FittingHitGetsIn(0, s, limit);
      OneByOneIsAll(0, s);
      assert Sort(ByRank, Concat(OneByOne(0, s))) == s;
    }
  }

  ghost predicate HarmlessInAnyOrder(hits: seq<Hit>, limit: nat) {
    forall pages: seq<seq<Hit>> :: multiset(Concat(pages)) == multiset(hits) ==>
      Incremental(pages, limit) == OneShot(Concat(pages), limit)
  }

  ghost predicate NothingFitsInAnyOrder(hits: seq<Hit>, limit: nat) {
    forall order: seq<Hit> :: multiset(order) == multiset(hits) ==> NothingFitsBehind(Sort(ByRank, order), limit)
  }

  /** The same over every order in which the hits may come, where ties can fall differently. */
  lemma HarmlessInAnyOrderIff(hits: seq<Hit>, limit: nat)
    requires 1 <= limit
    ensures HarmlessInAnyOrder(hits, limit) <==> NothingFitsInAnyOrder(hits, limit)
  {
    hide NothingFitsBehind, OneShot, Incremental, Sort, Concat;
    if NothingFitsInAnyOrder(hits, limit) {
      forall pages: seq<seq<Hit>> | multiset(Concat(pages)) == multiset(hits)
        ensures Incremental(pages, limit) == OneShot(Concat(pages), limit)
      {
        assert NothingFitsBehind(Sort(ByRank, Concat(pages)), limit);
        NothingFitsMeansEqual(pages, limit);
      }
    } else {
      var order: seq<Hit> :| multiset(order) == multiset(hits) && !NothingFitsBehind(Sort(ByRank, order), limit);
      var pages := LosingSplit(order, limit);
    }
  }

  lemma LosingSplit(hits: seq<Hit>, limit: nat) returns (pages: seq<seq<Hit>>)
    requires 1 <= limit && !NothingFitsBehind(Sort(ByRank, hits), limit)
    ensures Concat(pages) == Sort(ByRank, hits) && multiset(Concat(pages)) == multiset(hits)
    ensures Incremental(pages, limit) != OneShot(Concat(pages), limit)
  {
    var s := Sort(ByRank, hits);
    InsertAllSorted(ByRank, [], hits);
    SortedFixed(ByRank, s);
    SortMultiset(ByRank, hits);
    hide Sort, Cut, Incremental, OneByOne;
    FittingHitGetsIn(0, s, limit);
    OneByOneIsAll(0, s);
    pages := OneByOne(0, s);
  }

  // ----- The condition, on rows

  /** The rows that do not match or are not visible. */
  function Unmatched(q: Query, rows: seq<Row>): seq<Row> {
    if rows == [] then []
    else (if q.score(rows[0]).Some? && q.visible(rows[0]) then [] else [rows[0]]) + Unmatched(q, rows[1..])
  }

  lemma {:induction false} MatchedAndUnmatched(q: Query, rows: seq<Row>)
    ensures multiset(rows) == multiset(Unmatched(q, rows)) + multiset(Clips(Matches(q, rows)))
  {
    if rows == [] {
      assert Clips(Matches(q, rows)) == [];
    } else {
      var row, rest := rows[0], rows[1..];
      assert rows == [row] + rest;
      MatchedAndUnmatched(q, rest);
      MatchesConcat(q, [row], rest);
      OneMatch(q, row);
      hide Matches, Clips;
      if q.score(row).Some? && q.visible(row) {
        ClipsCons(Hit(q.score(row).value, row), Matches(q, rest));
      } else {
        assert [] + Matches(q, rest) == Matches(q, rest);
      }
    }
  }

  lemma {:induction false} UnmatchedHasNone(q: Query, rows: seq<Row>)
    ensures Matches(q, Unmatched(q, rows)) == []
  {
    if rows != [] {
      UnmatchedHasNone(q, rows[1..]);
      MatchesConcat(q, [rows[0]], Unmatched(q, rows[1..]));
      OneMatch(q, rows[0]);
      assert [] + Unmatched(q, rows[1..]) == Unmatched(q, rows[1..]);
      hide Matches;
    }
  }

  lemma {:induction false} MatchesMatch(q: Query, rows: seq<Row>)
    ensures forall h :: h in Matches(q, rows) ==> q.score(h.clip) == Some(h.score) && q.visible(h.clip)
  {
    if rows != [] {
      MatchesMatch(q, rows[1..]);
      MatchesConcat(q, [rows[0]], rows[1..]);
      OneMatch(q, rows[0]);
      assert rows == [rows[0]] + rows[1..];
      hide Matches;
    }
  }

  /** The matches are exactly the visible rows that score, each with its score. */
  lemma {:induction false} MatchesExactly(q: Query, rows: seq<Row>, h: Hit)
    ensures h in Matches(q, rows) <==> h.clip in rows && q.score(h.clip) == Some(h.score) && q.visible(h.clip)
  {
    if rows != [] {
      assert rows == [rows[0]] + rows[1..];
      MatchesExactly(q, rows[1..], h);
      MatchesConcat(q, [rows[0]], rows[1..]);
      OneMatch(q, rows[0]);
      hide Matches;
    }
  }

  lemma OneMatch(q: Query, row: Row)
    ensures Matches(q, [row]) == if q.score(row).Some? && q.visible(row) then [Hit(q.score(row).value, row)] else []
  {
    var one := [row];
    assert one[1..] == [];
    assert Scored(q, one) == if q.score(row).Some? then [Hit(q.score(row).value, row)] else [];
    if q.score(row).Some? {
      var hit := [Hit(q.score(row).value, row)];
      assert hit[1..] == [] && Filter(Visible(q), hit) == (if q.visible(row) then [hit[0]] else []) + Filter(Visible(q), hit[1..]);
    }
  }

  lemma {:induction false} MatchesOfClips(q: Query, s: seq<Hit>)
    requires forall h :: h in s ==> q.score(h.clip) == Some(h.score) && q.visible(h.clip)
    ensures Scored(q, Clips(s)) == s && Filter(Visible(q), s) == s
  {
    if s == [] {
      assert Clips(s) == [];
    } else {
      var rest := s[1..];
      assert s == [s[0]] + rest;
      MatchesOfClips(q, rest);
      ClipsCons(s[0], rest);
      assert s[0] in s && q.score(s[0].clip) == Some(s[0].score) && q.visible(s[0].clip);
      assert Clips(s)[0] == s[0].clip && Clips(s)[1..] == Clips(rest);
      assert Scored(q, Clips(s)) == [Hit(s[0].score, s[0].clip)] + Scored(q, Clips(rest));
      assert Filter(Visible(q), s) == [s[0]] + Filter(Visible(q), rest);
    }
  }

  /** A page made of ranked hits gives them back in that order. */
  lemma PageOfRanked(q: Query, s: seq<Hit>)
    requires Sorted(ByRank, s) && forall h :: h in s ==> q.score(h.clip) == Some(h.score) && q.visible(h.clip)
    ensures PageHits(q, Clips(s)) == s
  {
    MatchesOfClips(q, s);
    assert Sorted(BySearch, s) by {
      forall i, j | 0 <= i < j < |s| ensures !Better(BySearch, s[j], s[i]) {
        assert !Better(ByRank, s[j], s[i]);
      }
    }
    SortedFixed(BySearch, s);
  }

  lemma NoHits(q: Query, page: seq<Row>)
    requires Matches(q, page) == []
    ensures PageHits(q, page) == []
  {
    FilterLength(Visible(q), BySearch, Scored(q, page));
  }

  const LANE_ROWS: nat := 32
  const PAGE_ROWS: nat := 64

  /** Pages as the loop meets them: the lane of at most 32 rows, then pages of one to 64 rows. They hold
      exactly `rows`, and matches that rank alike in the same order. */
  ghost predicate Divides(q: Query, pages: seq<seq<Row>>, rows: seq<Row>) {
    && pages != [] && |pages[0]| <= LANE_ROWS && (forall i :: 1 <= i < |pages| ==> 1 <= |pages[i]| <= PAGE_ROWS)
    && multiset(Flatten(pages)) == multiset(rows)
    && Sort(ByRank, Matches(q, Flatten(pages))) == Sort(ByRank, Matches(q, rows))
  }

  /** End to end: every division of the rows into pages gives the one-shot ranking of all matching
      rows, if and only if no match behind those kept would fit the budget next to them. */
  lemma RecallIsOneShotIff(q: Query, rows: seq<Row>, limit: nat)
    requires 1 <= limit
    ensures (forall pages :: Divides(q, pages, rows) ==>
               Incremental(HitPages(q, pages), limit) == OneShot(Matches(q, rows), limit))
            <==> NothingFitsBehind(Sort(ByRank, Matches(q, rows)), limit)
  {
    var hits := Matches(q, rows);
    var s := Sort(ByRank, hits);
    hide Sort, Cut, Incremental, Matches, HitPages, Flatten;
    if NothingFitsBehind(s, limit) {
      HarmlessIff(hits, limit);
      forall pages | Divides(q, pages, rows) ensures Incremental(HitPages(q, pages), limit) == OneShot(hits, limit) {
        RankingIgnoresPages(q, pages);
      }
    } else {
      var pages := LosingPages(q, rows, limit);
    }
  }

  /** For any one division: the one-shot ranking of all matching rows leads the paged result, and is
      exactly it when no match behind those kept would fit the budget next to them. */
  lemma RecallAgainstOneShot(q: Query, pages: seq<seq<Row>>, limit: nat)
    requires 1 <= limit
    ensures var hits := Matches(q, Flatten(pages));
            && OneShot(hits, limit) <= Incremental(HitPages(q, pages), limit)
            && (NothingFitsBehind(Sort(ByRank, hits), limit) ==> Incremental(HitPages(q, pages), limit) == OneShot(hits, limit))
  {
    RankingIgnoresPages(q, pages);
    hide Sort, Incremental, NothingFitsBehind;
    OneShotLeads(HitPages(q, pages), limit);
    if NothingFitsBehind(Sort(ByRank, Matches(q, Flatten(pages))), limit) {
      NothingFitsMeansEqual(HitPages(q, pages), limit);
    }
  }

  /** The rows one to a page, behind an empty lane. */
  function RowByRow(rows: seq<Row>): seq<seq<Row>> {
    if rows == [] then [[]] else RowByRow(rows[..|rows| - 1]) + [[rows[|rows| - 1]]]
  }

  lemma {:induction false} RowByRowDivides(rows: seq<Row>)
    ensures var pages := RowByRow(rows);
            && |pages| == |rows| + 1 && pages[0] == [] && (forall i :: 1 <= i < |pages| ==> |pages[i]| == 1)
            && Flatten(pages) == rows
  {
    if rows == [] {
      assert RowByRow(rows)[..0] == [];
    } else {
      var front, row := rows[..|rows| - 1], rows[|rows| - 1];
      RowByRowDivides(front);
      assert RowByRow(rows)[..|rows|] == RowByRow(front);
      assert front + [row] == rows;
    }
  }

  lemma HitPagesSnoc(q: Query, pages: seq<seq<Row>>, page: seq<Row>)
    ensures HitPages(q, pages + [page]) == HitPages(q, pages) + [PageHits(q, page)]
  {
    hide PageHits;
  }

  lemma {:induction false} UnmatchedEach(q: Query, rows: seq<Row>)
    ensures forall r :: r in Unmatched(q, rows) ==> Matches(q, [r]) == []
  {
    if rows != [] {
      UnmatchedEach(q, rows[1..]);
      OneMatch(q, rows[0]);
      hide Matches;
    }
  }

  lemma NoHitPages(q: Query, u: seq<Row>)
    requires forall r :: r in u ==> Matches(q, [r]) == []
    ensures HitPages(q, RowByRow(u)) == Empties(|u| + 1)
  {
    if u == [] {
      assert PageHits(q, []) == [];
      assert HitPages(q, [[]]) == [[]];
      assert Empties(1) == Empties(0) + [[]];
    } else {
      var front, row := u[..|u| - 1], u[|u| - 1];
      NoHitPages(q, front);
      NoHits(q, [row]);
      HitPagesSnoc(q, RowByRow(front), [row]);
    }
  }

  /** Rows without hits, then the clips of ranked hits, one by one: their hits come one by one too. */
  lemma {:induction false} HitsRowByRow(q: Query, u: seq<Row>, s: seq<Hit>)
    requires forall r :: r in u ==> Matches(q, [r]) == []
    requires forall h :: h in s ==> q.score(h.clip) == Some(h.score) && q.visible(h.clip)
    ensures HitPages(q, RowByRow(u + Clips(s))) == OneByOne(|u| + 1, s)
    decreases |s|
  {
    if s == [] {
      NoHitPages(q, u);
      assert u + Clips(s) == u;
    } else {
      var front, h := s[..|s| - 1], s[|s| - 1];
      var rows := u + Clips(s);
      HitsRowByRow(q, u, front);
      assert rows[..|rows| - 1] == u + Clips(front) && rows[|rows| - 1] == h.clip;
      assert h in s;
      HitAlone(q, h);
      HitPagesSnoc(q, RowByRow(u + Clips(front)), [h.clip]);
    }
  }

  lemma HitAlone(q: Query, h: Hit)
    requires q.score(h.clip) == Some(h.score) && q.visible(h.clip)
    ensures PageHits(q, [h.clip]) == [h]
  {
    assert Clips([h]) == [h.clip];
    PageOfRanked(q, [h]);
  }

  lemma LosingPages(q: Query, rows: seq<Row>, limit: nat) returns (pages: seq<seq<Row>>)
    requires 1 <= limit && !NothingFitsBehind(Sort(ByRank, Matches(q, rows)), limit)
    ensures Divides(q, pages, rows)
    ensures Incremental(HitPages(q, pages), limit) != OneShot(Matches(q, rows), limit)
  {
    hide Sort, Cut, Incremental, Matches, HitPages, Flatten, Clips, Unmatched, Sorted, RowByRow, OneByOne;
    var s := Sort(ByRank, Matches(q, rows));
    var u := Unmatched(q, rows);
    RankedMatches(q, rows);
    FittingHitGetsIn(|u| + 1, s, limit);
    pages := RowByRow(u + Clips(s));
    UnmatchedEach(q, rows);
    HitsRowByRow(q, u, s);
    RowByRowDivides(u + Clips(s));
    AllRows(q, rows);
  }

  lemma RankedMatches(q: Query, rows: seq<Row>)
    ensures var s := Sort(ByRank, Matches(q, rows));
            Sorted(ByRank, s) && forall h :: h in s ==> q.score(h.clip) == Some(h.score) && q.visible(h.clip)
  {
    InsertAllSorted(ByRank, [], Matches(q, rows));
    MatchesMatch(q, rows);
    hide Matches;
  }

  /** The unmatched rows and the ranked clips are all the rows, with the same matches. */
  lemma AllRows(q: Query, rows: seq<Row>)
    ensures var s := Sort(ByRank, Matches(q, rows));
            var all := Unmatched(q, rows) + Clips(s);
            multiset(all) == multiset(rows) && Sort(ByRank, Matches(q, all)) == s
  {
    var hits := Matches(q, rows);
    var s := Sort(ByRank, hits);
    RankedMatches(q, rows);
    MatchedAndUnmatched(q, rows);
    UnmatchedHasNone(q, rows);
    SortClips(ByRank, hits);
    MatchesConcat(q, Unmatched(q, rows), Clips(s));
    MatchesOfClips(q, s);
    SortedFixed(ByRank, s);
    hide Sort, Scored, Filter, Clips, Unmatched;
    assert [] + s == s;
  }
}
