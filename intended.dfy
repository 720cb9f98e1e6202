/**
 * The standard PageRank update: PR(p) = (1-d)/N + d * sum of
 * PR(i)/NumLinks(i) over the pages i that link to p, where a page without
 * links counts as linking to every page, applied to all pages at once. It
 * keeps the promise of the docstring of `iterate_pagerank`
 * (pagerank.py:142-144) that the values add up to 1, which the pass of
 * pagerank.py:157-177 (Iteration.RelaxationPass) breaks. The comment at
 * pagerank.py:150, read literally, is not this update: started from 1/N
 * it never moves (CommentKeepsUniform).
 */
module Intended {
  import opened Sums
  import opened Crawl
  import opened Iteration

  /**
   * What page `i` passes on to page `p`: d times its value, spread evenly
   * over the pages it links to, or over all pages when it has no links.
   */
  function Share(c: Corpus, d: real, val: map<Page, real>, i: Page, p: Page): real
    requires i in c.links && i in val
  {
    if |c.links[i]| == 0 then d * val[i] / |c.links| as real
    else if p in c.links[i] then d * val[i] / |c.links[i]| as real
    else 0.0
  }

  /** The sum of what the pages of `from` pass on to `p`. */
  function Incoming(c: Corpus, d: real, val: map<Page, real>, from: seq<Page>, p: Page): real
    requires forall i :: i in from ==> i in c.links && i in val
  {
    if |from| == 0 then 0.0
    else Incoming(c, d, val, from[..|from| - 1], p) + Share(c, d, val, from[|from| - 1], p)
  }

  /** One update of every page from the same values. */
  function IntendedPass(c: Corpus, d: real, val: map<Page, real>): (next: map<Page, real>)
    requires Ranked(c, val)
    ensures next.Keys == val.Keys
  {
    map p | p in c.links :: (1.0 - d) / |c.links| as real + Incoming(c, d, val, c.order, p)
  }

  /** What the pages of `from` pass on, page by page. */
  function IncomingMap(c: Corpus, d: real, val: map<Page, real>, from: seq<Page>): map<Page, real>
    requires forall i :: i in from ==> i in c.links && i in val
  {
    map p | p in c.links :: Incoming(c, d, val, from, p)
  }

  /** What page `i` passes on, page by page. */
  function ShareMap(c: Corpus, d: real, val: map<Page, real>, i: Page): map<Page, real>
    requires i in c.links && i in val
  {
    map p | p in c.links :: Share(c, d, val, i, p)
  }

  /** Every value multiplied by `d`. */
  function Scaled(val: map<Page, real>, d: real): map<Page, real> {
    map i | i in val :: d * val[i]
  }

  /**
   * The update keeps the total at 1: the new values add up to 1 - d plus
   * d times the old total.
   */
  lemma IntendedKeepsTotal(c: Corpus, d: real, val: map<Page, real>)
    requires Ranked(c, val) && |c.links| > 0
    ensures SumOver(c.order, IntendedPass(c, d, val)) == (1.0 - d) + d * SumOver(c.order, val)
    ensures SumOver(c.order, val) == 1.0 ==> SumOver(c.order, IntendedPass(c, d, val)) == 1.0
  {
    var n := |c.links| as real;
    var base, incoming := Constant(c, (1.0 - d) / n), IncomingMap(c, d, val, c.order);
    assert SumOver(c.order, IntendedPass(c, d, val)) == SumOver(c.order, base) + SumOver(c.order, incoming) by {
      SumOverAdd(c.order, base, incoming, IntendedPass(c, d, val));
    }
    assert SumOver(c.order, base) == 1.0 - d by {
      ConstantTotal(c, 1.0 - d);
    }
    IncomingScaled(c, d, val);
  }

  /** Over all pages, what all pages pass on adds up to d times the total. */
  lemma IncomingScaled(c: Corpus, d: real, val: map<Page, real>)
    requires Ranked(c, val) && |c.links| > 0
    ensures SumOver(c.order, IncomingMap(c, d, val, c.order)) == d * SumOver(c.order, val)
  {
    IncomingTotal(c, d, val, c.order);
    SumOverScale(c.order, val, d);
  }

  /** The value x/N at every page adds up to x. */
  lemma ConstantTotal(c: Corpus, x: real)
    requires Consistent(c) && |c.links| > 0
    ensures SumOver(c.order, Constant(c, x / |c.links| as real)) == x
  {
    var n := |c.links| as real;
    SumOverAffine(c.order, Constant(c, x / n), {}, x / n, 0.0);
    TimesIsProduct(|c.order|, x / n);
    TimesIsProduct(CountIn(c.order, {}), 0.0);
    Cancel(n, x);
  }

  /** N times x/N is x. */
  lemma Cancel(n: real, x: real)
    requires n > 0.0
    ensures n * (x / n) == x
  {
  }

  /** Multiplying every value by `d` multiplies the sum by `d`. */
  lemma {:induction false} SumOverScale(order: seq<Page>, val: map<Page, real>, d: real)
    requires forall k :: k in order ==> k in val
    ensures SumOver(order, Scaled(val, d)) == d * SumOver(order, val)
  {
    if |order| > 0 {
      var init := order[..|order| - 1];
      assert forall k :: k in init ==> k in order;
      SumOverScale(init, val, d);
      assert order[|order| - 1] in order;
    }
  }

  /**
   * Over all pages, what the pages of `from` pass on adds up to d times
   * their values.
   */
  lemma {:induction false} IncomingTotal(c: Corpus, d: real, val: map<Page, real>, from: seq<Page>)
    requires Ranked(c, val) && |c.links| > 0 && forall i :: i in from ==> i in c.links
    ensures SumOver(c.order, IncomingMap(c, d, val, from)) == SumOver(from, Scaled(val, d))
  {
    if |from| == 0 {
      ConstantTotal(c, 0.0);
      assert IncomingMap(c, d, val, from) == Constant(c, 0.0 / |c.links| as real);
    } else {
      var init, last := from[..|from| - 1], from[|from| - 1];
      assert forall i :: i in init ==> i in from;
      IncomingTotal(c, d, val, init);
      IncomingStep(c, d, val, from);
    }
  }

  /**
   * Adding the last page of `from` adds the same amount, d times its value,
   * to both sides of IncomingTotal.
   */
  lemma IncomingStep(c: Corpus, d: real, val: map<Page, real>, from: seq<Page>)
    requires Ranked(c, val) && |c.links| > 0 && |from| > 0 && forall i :: i in from ==> i in c.links
    ensures var init := from[..|from| - 1];
      && (forall i :: i in init ==> i in c.links)
      && SumOver(c.order, IncomingMap(c, d, val, from)) - SumOver(c.order, IncomingMap(c, d, val, init))
         == SumOver(from, Scaled(val, d)) - SumOver(init, Scaled(val, d))
  {
    var init, last := from[..|from| - 1], from[|from| - 1];
    assert forall i :: i in init ==> i in from;
    IncomingAdd(c, d, val, from);
    SharesTotal(c, d, val, last);
    ScaledStep(from, init, last, val, d);
  }

  /** The pages of `from` pass on what its front passes on plus the shares of its last page. */
  lemma IncomingAdd(c: Corpus, d: real, val: map<Page, real>, from: seq<Page>)
    requires Ranked(c, val) && |from| > 0 && forall i :: i in from ==> i in c.links
    ensures var init, last := from[..|from| - 1], from[|from| - 1];
      last in c.links &&
      SumOver(c.order, IncomingMap(c, d, val, from))
      == SumOver(c.order, IncomingMap(c, d, val, init)) + SumOver(c.order, ShareMap(c, d, val, last))
  {
    var init, last := from[..|from| - 1], from[|from| - 1];
    assert forall i :: i in init ==> i in from;
    assert last in from;
    SumOverAdd(c.order, IncomingMap(c, d, val, init), ShareMap(c, d, val, last), IncomingMap(c, d, val, from));
  }

  /** The scaled values of `from` add up to those of its front plus d times its last value. */
  lemma ScaledStep(from: seq<Page>, init: seq<Page>, last: Page, val: map<Page, real>, d: real)
    requires |from| > 0 && init == from[..|from| - 1] && last == from[|from| - 1]
    requires forall i :: i in from ==> i in val
    ensures forall i :: i in init ==> i in val
    ensures SumOver(from, Scaled(val, d)) == SumOver(init, Scaled(val, d)) + d * val[last]
  {
    assert last in from;
    assert forall i :: i in init ==> i in from;
    var scaled := Scaled(val, d);
    assert scaled[last] == d * val[last];
    assert SumOver(from, scaled) == SumOver(init, scaled) + scaled[last];
  }

  /** Over all pages, the shares of page `i` add up to d times its value. */
  lemma SharesTotal(c: Corpus, d: real, val: map<Page, real>, i: Page)
    requires Ranked(c, val) && i in c.links
    ensures SumOver(c.order, ShareMap(c, d, val, i)) == d * val[i]
  {
    var shares, links, x := ShareMap(c, d, val, i), c.links[i], d * val[i];
    if |links| == 0 {
      SumOverAffine(c.order, shares, {}, x / |c.links| as real, 0.0);
      TimesZero(CountIn(c.order, {}));
      assert |c.order| == |c.links|;
      TimesCancel(|c.links|, x);
    } else {
      SumOverAffine(c.order, shares, links, 0.0, x / |links| as real);
      TimesZero(|c.order|);
      LinksCounted(c, i);
      TimesCancel(|links|, x);
    }
  }

  /** k copies of x/k add up to x. */
  lemma TimesCancel(k: nat, x: real)
    requires k > 0
    ensures Times(k, x / k as real) == x
  {
    TimesIsProduct(k, x / k as real);
    Cancel(k as real, x);
  }

  /** The order lists each page a page links to exactly once. */
  lemma LinksCounted(c: Corpus, i: Page)
    requires Consistent(c) && i in c.links
    ensures CountIn(c.order, c.links[i]) == |c.links[i]|
  {
    OrderCoversKeys(c);
    CountInIsCard(c.order, c.links[i]);
    assert c.links[i] * Elems(c.order) == c.links[i];
  }

  /**
   * The formula of the comment at pagerank.py:150 read literally: (1-d)/N
   * plus d times the average value of the pages `page` links to (of all
   * pages, for a page without links, as the code does).
   */
  ghost function CommentRank(c: Corpus, d: real, s: map<Page, real>, page: Page): real
    requires Ranked(c, s) && page in c.links
  {
    var n := |c.links| as real;
    var mean := if |c.links[page]| == 0 then Average(SumOver(c.order, s), |c.links|)
                else Average(SetSum(c.links[page], s), |c.links[page]|);
    (1.0 - d) / n + d * mean
  }

  /**
   * Read literally, the comment's formula gives back 1/N at every page when
   * all values are 1/N, whatever the links: started from 1/N, as
   * pagerank.py:147-149 does, it never moves, so it cannot be the intended
   * update.
   */
  lemma CommentKeepsUniform(c: Corpus, d: real, s: map<Page, real>, page: Page)
    requires Ranked(c, s) && page in c.links
    requires forall p :: p in s ==> s[p] == 1.0 / |c.links| as real
    ensures CommentRank(c, d, s, page) == 1.0 / |c.links| as real
  {
    var v := 1.0 / |c.links| as real;
    if |c.links[page]| == 0 {
      SumOverAffine(c.order, s, {}, v, 0.0);
      TimesZero(CountIn(c.order, {}));
      AverageOfEqual(|c.links|, v);
      assert |c.order| == |c.links|;
    } else {
      SetSumConstant(c.links[page], s, v);
      AverageOfEqual(|c.links[page]|, v);
    }
    Blend(|c.links| as real, d);
  }

  /** The average of k copies of v is v. */
  lemma AverageOfEqual(k: nat, v: real)
    requires k > 0
    ensures Average(Times(k, v), k) == v
  {
    TimesIsProduct(k, v);
    assert (k as real * v) / k as real == v;
  }

  /** A share 1 - d of 1/N and a share d of 1/N make 1/N. */
  lemma Blend(n: real, d: real)
    requires n > 0.0
    ensures (1.0 - d) / n + d * (1.0 / n) == 1.0 / n
  {
    assert d * (1.0 / n) == d / n;
  }

  /** Equal values over a set add up to one copy per element. */
  lemma {:induction false} SetSumConstant(s: set<Page>, m: map<Page, real>, v: real)
    requires s <= m.Keys && forall k :: k in s ==> m[k] == v
    ensures SetSum(s, m) == Times(|s|, v)
    decreases |s|
  {
    if s != {} {
      var k := Any(s);
      SetSumConstant(s - {k}, m, v);
    }
  }

  /** The values after `k` updates, starting from 1/N everywhere. */
  function IntendedIterate(c: Corpus, d: real, k: nat): (val: map<Page, real>)
    requires Consistent(c) && |c.links| > 0
    ensures val.Keys == c.links.Keys
  {
    if k == 0 then Uniform(c) else IntendedPass(c, d, IntendedIterate(c, d, k - 1))
  }

  /** Starting from 1/N everywhere, the values add up to 1 after any number of updates. */
  lemma {:induction false} IntendedSumsToOne(c: Corpus, d: real, k: nat)
    requires Consistent(c) && |c.links| > 0
    ensures SumOver(c.order, IntendedIterate(c, d, k)) == 1.0
  {
    if k == 0 {
      ConstantTotal(c, 1.0);
    } else {
      IntendedSumsToOne(c, d, k - 1);
      IntendedKeepsTotal(c, d, IntendedIterate(c, d, k - 1));
    }
  }
}
