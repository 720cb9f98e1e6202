/**
 * `sample_pagerank` and `completeSample` (pagerank.py:82-128): a random
 * surfer walks `n` pages and each visit adds 1/n to the page's tally. The
 * random numbers are inputs: the index of the start page and one draw in
 * [0, 1] for every step after the first.
 */
module Sampling {
  import opened Wrappers
  import opened Sums
  import opened Crawl
  import opened Transition

  /** The probability mass of the first `i` pages of `order`. */
  function Cumulative(order: seq<Page>, dist: map<Page, real>, i: nat): real
    requires i <= |order| && forall p :: p in order ==> p in dist
  {
    SumOver(order[..i], dist)
  }

  /**
   * The subtraction scan of pagerank.py:116-121 from position `i`, with
   * `residual` left of the draw: the first page at which the residual
   * drops to 0 or below, or None when no page does.
   */
  function ScanFrom(order: seq<Page>, dist: map<Page, real>, i: nat, residual: real): (next: Option<Page>)
    requires i <= |order| && forall p :: p in order ==> p in dist
    ensures next.Some? ==> next.value in order[i..]
    decreases |order| - i
  {
    if i == |order| then None
    else if residual - dist[order[i]] <= 0.0 then Some(order[i])
    else ScanFrom(order, dist, i + 1, residual - dist[order[i]])
  }

  /** The page the draw `r` selects from the distribution, scanning in key order. */
  function Pick(order: seq<Page>, dist: map<Page, real>, r: real): Option<Page>
    requires forall p :: p in order ==> p in dist
  {
    ScanFrom(order, dist, 0, r)
  }

  /** Position `k` is the first whose cumulative probability reaches `r`. */
  ghost predicate FirstCrossing(order: seq<Page>, dist: map<Page, real>, r: real, k: nat)
    requires forall p :: p in order ==> p in dist
  {
    && k < |order|
    && r <= Cumulative(order, dist, k + 1)
    && forall j :: 0 < j <= k ==> Cumulative(order, dist, j) < r
  }

  /** A scan from position `i` that finds no page saw every cumulative probability stay below the draw. */
  lemma {:induction false} ScanFromNone(order: seq<Page>, dist: map<Page, real>, r: real, i: nat)
    requires i <= |order| && forall p :: p in order ==> p in dist
    requires forall j :: 0 < j <= i ==> Cumulative(order, dist, j) < r
    requires ScanFrom(order, dist, i, r - Cumulative(order, dist, i)).None?
    ensures forall j :: 0 < j <= |order| ==> Cumulative(order, dist, j) < r
    decreases |order| - i
  {
    if i < |order| {
      SumOverPrefixStep(order, dist, i);
      assert r - Cumulative(order, dist, i + 1) == r - Cumulative(order, dist, i) - dist[order[i]];
      ScanFromNone(order, dist, r, i + 1);
    }
  }

  /** A scan from position `i` that finds a page stops at the first crossing at or after `i`. */
  lemma {:induction false} ScanFromSome(order: seq<Page>, dist: map<Page, real>, r: real, i: nat) returns (k: nat)
    requires i <= |order| && forall p :: p in order ==> p in dist
    requires forall j :: 0 < j <= i ==> Cumulative(order, dist, j) < r
    requires ScanFrom(order, dist, i, r - Cumulative(order, dist, i)).Some?
    ensures i <= k < |order| && FirstCrossing(order, dist, r, k)
    ensures ScanFrom(order, dist, i, r - Cumulative(order, dist, i)) == Some(order[k])
    decreases |order| - i
  {
    SumOverPrefixStep(order, dist, i);
    var residual := r - Cumulative(order, dist, i);
    if residual - dist[order[i]] <= 0.0 {
      k := i;
    } else {
      assert r - Cumulative(order, dist, i + 1) == residual - dist[order[i]];
      k := ScanFromSome(order, dist, r, i + 1);
    }
  }

  /**
   * The scan selects no page exactly when every cumulative probability stays
   * below the draw, and it selects the page at position `k` exactly when `k`
   * is the first position whose cumulative probability reaches the draw.
   */
  lemma PickIsFirstCrossing(order: seq<Page>, dist: map<Page, real>, r: real)
    requires Distinct(order) && forall p :: p in order ==> p in dist
    ensures Pick(order, dist, r).None? <==> forall j :: 0 < j <= |order| ==> Cumulative(order, dist, j) < r
    ensures forall k :: 0 <= k < |order| ==> (Pick(order, dist, r) == Some(order[k]) <==> FirstCrossing(order, dist, r, k))
  {
    assert order[..0] == [];
    if Pick(order, dist, r).None? {
      ScanFromNone(order, dist, r, 0);
    } else {
      var found := ScanFromSome(order, dist, r, 0);
      forall k | 0 <= k < |order|
        ensures Pick(order, dist, r) == Some(order[k]) <==> FirstCrossing(order, dist, r, k)
      {
        CrossingUnique(order, dist, r, found, k);
      }
    }
  }

  /** There is at most one first crossing, and a first crossing rules out "every sum below the draw". */
  lemma CrossingUnique(order: seq<Page>, dist: map<Page, real>, r: real, k: nat, k': nat)
    requires Distinct(order) && forall p :: p in order ==> p in dist
    requires FirstCrossing(order, dist, r, k) && k' < |order|
    ensures FirstCrossing(order, dist, r, k') <==> k' == k
    ensures order[k'] == order[k] <==> k' == k
    ensures !forall j :: 0 < j <= |order| ==> Cumulative(order, dist, j) < r
  {
    assert Cumulative(order, dist, k + 1) >= r;
  }

  /**
   * When the distribution sums to 1 a draw of at most 1 always selects a
   * page: the "no page selected" branch of pagerank.py:122-124 is dead
   * under exact arithmetic.
   */
  lemma PickTotal(order: seq<Page>, dist: map<Page, real>, r: real)
    requires forall p :: p in order ==> p in dist
    requires SumOver(order, dist) == 1.0 && r <= 1.0
    ensures Pick(order, dist, r).Some? && Pick(order, dist, r).value in order
  {
    assert order[..0] == [];
    assert order[..|order|] == order;
    assert |order| > 0;
    assert Cumulative(order, dist, |order|) == 1.0;
    if Pick(order, dist, r).None? {
      ScanFromNone(order, dist, r, 0);
    }
  }

  /** A draw of 0 selects the first page when that page's probability is not negative. */
  lemma PickZeroIsFirst(order: seq<Page>, dist: map<Page, real>)
    requires |order| > 0 && forall p :: p in order ==> p in dist
    requires dist[order[0]] >= 0.0
    ensures Pick(order, dist, 0.0) == Some(order[0])
  {
  }

  /** The scan loop of pagerank.py:114-121: subtract each page's probability from the draw in key order. */
  method SelectNext(order: seq<Page>, dist: map<Page, real>, r: real) returns (nextPage: Option<Page>)
    requires forall p :: p in order ==> p in dist
    ensures nextPage == Pick(order, dist, r)
  {
    var whichOne := r;
    nextPage := None;
    var i := 0;
    while i < |order|
      invariant 0 <= i <= |order|
      invariant ScanFrom(order, dist, i, whichOne) == Pick(order, dist, r)
    {
      ghost var before := whichOne;
      whichOne := whichOne - dist[order[i]];
      if whichOne <= 0.0 {
        nextPage := Some(order[i]);
        assert ScanFrom(order, dist, i, before) == nextPage;
        break;
      }
      i := i + 1;
    }
  }

  /** Every draw lies in [0, 1], as `randint(0, 10*SAMPLES)/(10*SAMPLES)` does. */
  predicate ValidDraws(draws: seq<real>) {
    forall i :: 0 <= i < |draws| ==> 0.0 <= draws[i] <= 1.0
  }

  /** The pages the surfer moves to from `current`, one per draw. */
  function Trajectory(c: Corpus, d: real, current: Page, draws: seq<real>): (visits: seq<Page>)
    requires c.Valid() && current in c.links && ValidDraws(draws)
    ensures |visits| == |draws|
    ensures forall p :: p in visits ==> p in c.links
    decreases |draws|
  {
    if |draws| == 0 then []
    else
      var dist := TransitionModel(c, current, d);
      TransitionSumsToOne(c, current, d);
      PickTotal(c.order, dist, draws[0]);
      var next := Pick(c.order, dist, draws[0]).value;
      [next] + Trajectory(c, d, next, draws[1..])
  }

  /** The first draw moves the surfer to the page it selects; the rest of the walk starts there. */
  lemma TrajectoryStep(c: Corpus, d: real, current: Page, draws: seq<real>)
    requires c.Valid() && current in c.links && ValidDraws(draws) && |draws| > 0
    ensures var next := Pick(c.order, TransitionModel(c, current, d), draws[0]);
      && next.Some? && next.value in c.links
      && Trajectory(c, d, current, draws) == [next.value] + Trajectory(c, d, next.value, draws[1..])
  {
    TransitionSumsToOne(c, current, d);
    PickTotal(c.order, TransitionModel(c, current, d), draws[0]);
  }

  /** All pages visited: the start page, then one page per draw. */
  function Visits(c: Corpus, d: real, whichPlace: nat, draws: seq<real>): (visits: seq<Page>)
    requires c.Valid() && whichPlace < |c.order| && ValidDraws(draws)
    ensures |visits| == |draws| + 1 && visits[0] == c.order[whichPlace]
  {
    var start := c.order[whichPlace];
    [start] + Trajectory(c, d, start, draws)
  }

  /**
   * `passDict` after a visit to each page of `visits` in turn, each visit
   * adding `f` to the visited page's entry.
   */
  function Tally(passDict: map<Page, real>, f: real, visits: seq<Page>): (tally: map<Page, real>)
    ensures tally.Keys == passDict.Keys
    decreases |visits|
  {
    if |visits| == 0 then passDict
    else
      var page := visits[0];
      Tally(if page in passDict then passDict[page := passDict[page] + f] else passDict, f, visits[1..])
  }

  /** Each page's entry grows by `f` per visit to that page. */
  lemma {:induction false} TallyPerPage(passDict: map<Page, real>, f: real, visits: seq<Page>, p: Page)
    requires p in passDict && forall q :: q in visits ==> q in passDict
    ensures Tally(passDict, f, visits)[p] == passDict[p] + Times(multiset(visits)[p], f)
    decreases |visits|
  {
    if |visits| > 0 {
      var page, rest := visits[0], visits[1..];
      var bumped := passDict[page := passDict[page] + f];
      assert forall q :: q in rest ==> q in visits;
      TallyPerPage(bumped, f, rest, p);
      assert visits == [page] + rest;
      TimesShift(multiset(rest)[p], f);
      if p == page {
        assert multiset(visits)[p] == multiset(rest)[p] + 1;
      } else {
        assert multiset(visits)[p] == multiset(rest)[p];
      }
    }
  }

  /** Over the pages of a duplicate-free order, the entries grow by `f` per visit in total. */
  lemma {:induction false} TallyTotal(order: seq<Page>, passDict: map<Page, real>, f: real, visits: seq<Page>)
    requires Distinct(order) && forall p :: p in order ==> p in passDict
    requires forall p :: p in visits ==> p in order
    ensures SumOver(order, Tally(passDict, f, visits)) == SumOver(order, passDict) + Times(|visits|, f)
    decreases |visits|
  {
    if |visits| > 0 {
      var page, rest := visits[0], visits[1..];
      assert forall p :: p in rest ==> p in visits;
      assert page in order;
      TallyTotal(order, passDict[page := passDict[page] + f], f, rest);
      SumOverBump(order, passDict, page, f);
      TimesShift(|rest|, f);
    }
  }

  /**
   * The loop of `completeSample` (pagerank.py:106-128): `n` more steps from
   * `startpage`, each adding `increaseFactor` to the page the draw selects.
   */
  method CompleteSample(c: Corpus, d: real, n: nat, startpage: Page, passDict: map<Page, real>,
                        increaseFactor: real, draws: seq<real>)
    returns (tally: map<Page, real>)
    requires c.Valid() && startpage in c.links && passDict.Keys == c.links.Keys
    requires |draws| == n && ValidDraws(draws)
    ensures tally == Tally(passDict, increaseFactor, Trajectory(c, d, startpage, draws))
  {
    tally := passDict;
    var remaining: nat := n;
    var current := startpage;
    var pending := draws;
    while remaining != 0
      invariant |pending| == remaining && current in c.links && ValidDraws(pending) && tally.Keys == passDict.Keys
      invariant Tally(tally, increaseFactor, Trajectory(c, d, current, pending))
                == Tally(passDict, increaseFactor, Trajectory(c, d, startpage, draws))
    {
      var page := NextPage(c, d, current, pending[0], pending);
      SampleStep(c, d, current, pending, tally, increaseFactor, page);
      tally := tally[page := tally[page] + increaseFactor];
      pending := pending[1..];
      remaining := remaining - 1;
      current := page;
    }
  }

  /**
   * One move of the surfer (pagerank.py:113-121): the distribution from
   * `current`, then the scan with the draw `whichOne`, the first of the
   * `pending` draws. The page found is where the rest of the walk starts.
   */
  method NextPage(c: Corpus, d: real, current: Page, whichOne: real, ghost pending: seq<real>) returns (page: Page)
    requires c.Valid() && current in c.links && ValidDraws(pending) && |pending| > 0 && whichOne == pending[0]
    ensures page in c.links && ValidDraws(pending[1..])
    ensures Trajectory(c, d, current, pending) == [page] + Trajectory(c, d, page, pending[1..])
  {
    var fromThere := TransitionModel(c, current, d);
    var nextPage := SelectNext(c.order, fromThere, whichOne);
    TrajectoryStep(c, d, current, pending);
    page := nextPage.value;
  }

  /**
   * One step of `completeSample`: when the walk from `current` goes to
   * `page` first, tallying it is adding `f` to `page` and tallying the rest.
   */
  lemma SampleStep(c: Corpus, d: real, current: Page, pending: seq<real>, tally: map<Page, real>, f: real, page: Page)
    requires c.Valid() && current in c.links && ValidDraws(pending) && |pending| > 0 && tally.Keys == c.links.Keys
    requires page in c.links && ValidDraws(pending[1..])
    requires Trajectory(c, d, current, pending) == [page] + Trajectory(c, d, page, pending[1..])
    ensures Tally(tally, f, Trajectory(c, d, current, pending))
            == Tally(tally[page := tally[page] + f], f, Trajectory(c, d, page, pending[1..]))
  {
    TallyFirst(tally, f, page, Trajectory(c, d, page, pending[1..]));
  }

  /** The first visit of a walk adds `f` to that page's entry before the rest of the walk is tallied. */
  lemma TallyFirst(passDict: map<Page, real>, f: real, page: Page, rest: seq<Page>)
    requires page in passDict
    ensures Tally(passDict, f, [page] + rest) == Tally(passDict[page := passDict[page] + f], f, rest)
  {
    assert ([page] + rest)[1..] == rest;
  }

  /**
   * `sample_pagerank` (pagerank.py:82-101): start at page `whichPlace` with
   * tally 1/n, then take the remaining n-1 steps. Each page's rank is its
   * number of visits over n, and the ranks sum to 1.
   */
  method SamplePagerank(c: Corpus, d: real, n: nat, whichPlace: nat, draws: seq<real>)
    returns (ranks: map<Page, real>)
    requires c.Valid() && 1 <= n && whichPlace < |c.order|
    requires |draws| == n - 1 && ValidDraws(draws)
    ensures ranks.Keys == c.links.Keys
    ensures forall p :: p in ranks ==> ranks[p] == multiset(Visits(c, d, whichPlace, draws))[p] as real / n as real
    ensures forall p :: p in ranks ==> 0.0 <= ranks[p] <= 1.0
    ensures SumOver(c.order, ranks) == 1.0
  {
    var startPage := c.order[whichPlace];
    var passDict := map p | p in c.links :: 0.0;
    passDict := passDict[startPage := 1.0 / n as real];
    var increaseFactor := 1.0 / n as real;
    ranks := CompleteSample(c, d, n - 1, startPage, passDict, increaseFactor, draws);
    ghost var walk := Trajectory(c, d, startPage, draws);
    assert Visits(c, d, whichPlace, draws) == [startPage] + walk;
    RanksAreShares(c.links.Keys, startPage, walk, increaseFactor, passDict, ranks);
    RanksTotal(c.order, startPage, walk, increaseFactor, passDict, ranks);
    SharesOfVisits(ranks, [startPage] + walk, n);
  }

  /** Each page's rank is `f` per visit, the start visit included. */
  lemma RanksAreShares(keys: set<Page>, start: Page, walk: seq<Page>, f: real,
                       passDict: map<Page, real>, ranks: map<Page, real>)
    requires start in keys && passDict == (map p | p in keys :: 0.0)[start := f]
    requires forall p :: p in walk ==> p in keys
    requires ranks == Tally(passDict, f, walk)
    ensures forall p :: p in ranks ==> ranks[p] == Times(multiset([start] + walk)[p], f)
  {
    forall p | p in ranks
      ensures ranks[p] == Times(multiset([start] + walk)[p], f)
    {
      TallyPerPage(passDict, f, walk, p);
      TimesShift(multiset(walk)[p], f);
    }
  }

  /** The ranks add up to `f` per visit: the start visit and one per later step. */
  lemma RanksTotal(order: seq<Page>, start: Page, walk: seq<Page>, f: real,
                   passDict: map<Page, real>, ranks: map<Page, real>)
    requires Distinct(order) && start in order
    requires passDict == (map p | p in Elems(order) :: 0.0)[start := f]
    requires forall p :: p in walk ==> p in passDict
    requires ranks == Tally(passDict, f, walk)
    ensures SumOver(order, ranks) == Times(|walk| + 1, f)
  {
    TallyTotal(order, passDict, f, walk);
    var zeros := map p | p in Elems(order) :: 0.0;
    SumOverAffine(order, zeros, {}, 0.0, 0.0);
    TimesIsProduct(|order|, 0.0);
    TimesIsProduct(CountIn(order, {}), 0.0);
    SumOverUpdate(order, zeros, start, f);
    TimesShift(|walk|, f);
  }

  /**
   * A rank of 1/n per visit, over n visits in all, is the page's number of
   * visits over n: between 0 and 1, and 1 in total.
   */
  lemma SharesOfVisits(ranks: map<Page, real>, visits: seq<Page>, n: nat)
    requires n >= 1 && |visits| == n
    requires forall p :: p in ranks ==> ranks[p] == Times(multiset(visits)[p], 1.0 / n as real)
    ensures forall p :: p in ranks ==> ranks[p] == multiset(visits)[p] as real / n as real
    ensures forall p :: p in ranks ==> 0.0 <= ranks[p] <= 1.0
    ensures Times(n, 1.0 / n as real) == 1.0
  {
    forall p | p in ranks
      ensures ranks[p] == multiset(visits)[p] as real / n as real
      ensures 0.0 <= ranks[p] <= 1.0
    {
      OccurrencesBound(visits, p);
      VisitShare(multiset(visits)[p], n);
    }
    VisitShare(n, n);
  }

  /** `k` visits of 1/n each, out of n, are worth k/n, between 0 and 1. */
  lemma VisitShare(k: nat, n: nat)
    requires 1 <= n && k <= n
    ensures Times(k, 1.0 / n as real) == k as real / n as real
    ensures 0.0 <= k as real / n as real <= 1.0
    ensures k == n ==> k as real / n as real == 1.0
  {
    TimesIsProduct(k, 1.0 / n as real);
  }

  /** A page occurs in a sequence at most as often as the sequence is long. */
  lemma {:induction false} OccurrencesBound(s: seq<Page>, p: Page)
    ensures multiset(s)[p] <= |s|
  {
    if |s| > 0 {
      OccurrencesBound(s[1..], p);
      assert s == [s[0]] + s[1..];
    }
  }
}
