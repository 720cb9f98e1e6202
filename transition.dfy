/**
 * `transition_model` (pagerank.py:51-76): the distribution of the next page
 * of the random surfer, given the current page and the damping factor `d`.
 */
module Transition {
  import opened Sums
  import opened Crawl

  /**
   * A page with no links sends the surfer to every page with probability
   * 1/N; otherwise every page gets (1-d)/N and each linked page d/k more,
   * where N is the number of pages and k the number of links.
   */
  function TransitionModel(c: Corpus, page: Page, d: real): (dist: map<Page, real>)
    requires page in c.links
    ensures dist.Keys == c.links.Keys
  {
    var n := |c.links| as real;
    var linked := c.links[page];
    if |linked| == 0 then
      map p | p in c.links :: 1.0 / n
    else
      map p | p in c.links :: (1.0 - d) / n + (if p in linked then d / |linked| as real else 0.0)
  }

  /** From a page without links the distribution is uniform, whatever the damping factor. */
  lemma SinkIsUniform(c: Corpus, page: Page, d: real, d': real)
    requires page in c.links && c.links[page] == {}
    ensures forall p :: p in c.links ==> TransitionModel(c, page, d)[p] == 1.0 / |c.links| as real
    ensures TransitionModel(c, page, d) == TransitionModel(c, page, d')
  {
  }

  /**
   * From a page with k links, a linked page gets (1-d)/N + d/k and any other
   * page (1-d)/N; for 0 <= d <= 1 no value is negative.
   */
  lemma LinkedValues(c: Corpus, page: Page, d: real)
    requires page in c.links && c.links[page] != {}
    ensures var dist, n, k := TransitionModel(c, page, d), |c.links| as real, |c.links[page]| as real;
      forall p :: p in c.links ==>
        && (p in c.links[page] ==> dist[p] == (1.0 - d) / n + d / k)
        && (p !in c.links[page] ==> dist[p] == (1.0 - d) / n)
  {
  }

  /** For a damping factor in [0, 1] every probability is non-negative. */
  lemma TransitionNonNegative(c: Corpus, page: Page, d: real)
    requires page in c.links && 0.0 <= d <= 1.0
    ensures forall p :: p in c.links ==> TransitionModel(c, page, d)[p] >= 0.0
  {
    var n := |c.links| as real;
    assert n > 0.0;
    assert (1.0 - d) / n >= 0.0;
    if c.links[page] != {} {
      assert d / |c.links[page]| as real >= 0.0;
    }
  }

  /**
   * In a valid corpus the transition values, summed over the pages in order,
   * give exactly 1, for any damping factor.
   */
  lemma TransitionSumsToOne(c: Corpus, page: Page, d: real)
    requires c.Valid() && page in c.links
    ensures SumOver(c.order, TransitionModel(c, page, d)) == 1.0
  {
    var linked := c.links[page];
    CorpusSize(c);
    assert page in c.order;
    if linked == {} {
      SinkIsUniform(c, page, d, d);
      UniformSumsToOne(c.order, TransitionModel(c, page, d), |c.links| as real);
    } else {
      CountInIsCard(c.order, linked);
      assert linked * Elems(c.order) == linked;
      LinkedValues(c, page, d);
      DampedSumsToOne(c.order, TransitionModel(c, page, d), linked, |c.links| as real, |linked| as real, d);
    }
  }

  /** n values of 1/n sum to 1. */
  lemma UniformSumsToOne(order: seq<Page>, dist: map<Page, real>, n: real)
    requires n == |order| as real && n > 0.0
    requires forall p :: p in order ==> p in dist && dist[p] == 1.0 / n
    ensures SumOver(order, dist) == 1.0
  {
    SumOverAffine(order, dist, {}, 1.0 / n, 0.0);
    TimesIsProduct(|order|, 1.0 / n);
    TimesIsProduct(CountIn(order, {}), 0.0);
    assert n * (1.0 / n) == 1.0;
  }

  /** n base values of (1-d)/n plus k bonuses of d/k sum to 1. */
  lemma DampedSumsToOne(order: seq<Page>, dist: map<Page, real>, linked: set<Page>, n: real, k: real, d: real)
    requires n == |order| as real && k == CountIn(order, linked) as real && n > 0.0 && k > 0.0
    requires forall p :: p in order ==> p in dist && dist[p] == (1.0 - d) / n + (if p in linked then d / k else 0.0)
    ensures SumOver(order, dist) == 1.0
  {
    SumOverAffine(order, dist, linked, (1.0 - d) / n, d / k);
    TimesIsProduct(|order|, (1.0 - d) / n);
    TimesIsProduct(CountIn(order, linked), d / k);
    assert n * ((1.0 - d) / n) == 1.0 - d;
    assert k * (d / k) == d;
  }
}
