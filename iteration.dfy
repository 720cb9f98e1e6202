/**
 * `iterate_pagerank` (pagerank.py:137-177). Every page starts at 1/N; a
 * pass walks the pages in key order and overwrites each value in place, so
 * later pages already see the new values of earlier ones (a Gauss-Seidel
 * sweep). A page without links gets the average of all current values plus
 * (1-d)/N, any other page the average of the current values of the pages
 * it links to plus (1-d)/N. `change` records the largest |new - old| of the
 * pass, and passes repeat while it is at least 0.001.
 */
module Iteration {
  import opened Sums
  import opened Crawl

  /** The convergence threshold of the `while` at pagerank.py:156. */
  const Threshold: real := 0.001

  function Abs(x: real): real {
    if x < 0.0 then -x else x
  }

  /**
   * The facts about the corpus the iteration relies on: the order lists
   * every page once and only pages, and every link target is a page. Every
   * valid corpus has them (ConsistentOf).
   */
  predicate Consistent(c: Corpus) {
    && Distinct(c.order)
    && |c.links| == |c.order|
    && (forall p :: p in c.order ==> p in c.links)
    && (forall p :: p in c.links ==> c.links[p] <= c.links.Keys)
  }

  /** Every page has a value, and no other key. */
  predicate Ranked(c: Corpus, val: map<Page, real>) {
    Consistent(c) && val.Keys == c.links.Keys
  }

  lemma ConsistentOf(c: Corpus)
    requires c.Valid()
    ensures Consistent(c)
  {
    CorpusSize(c);
  }

  /** The value a page gets in a pass, given the current values `s`. */
  ghost function Rank(c: Corpus, d: real, s: map<Page, real>, page: Page): real
    requires Ranked(c, s) && page in c.links
  {
    var n := |c.links| as real;
    if |c.links[page]| == 0 then Average(SumOver(c.order, s), |c.links|) + (1.0 - d) / n
    else Average(SetSum(c.links[page], s), |c.links[page]|) + (1.0 - d) / n
  }

  /** A total over `k` items divided by `k`. */
  function Average(total: real, k: nat): real
    requires k > 0
  {
    total / k as real
  }

  /** The keys of `order` occur once each and all have a value. */
  predicate Keyed(order: seq<Page>, val: map<Page, real>) {
    Distinct(order) && forall p :: p in order ==> p in val
  }

  /**
   * The values after the first `i` pages of the pass have been updated, in
   * key order: page `j` gets PassValue(j), which it computes from the values
   * the pass has produced up to its turn.
   */
  ghost function PassState(c: Corpus, d: real, val: map<Page, real>, i: nat): (s: map<Page, real>)
    requires i <= |c.order|
    ensures forall p :: p in val ==> p in s
    decreases i, 0
  {
    if i == 0 then val
    else PassState(c, d, val, i - 1)[c.order[i - 1] := PassValue(c, d, val, i - 1)]
  }

  /**
   * The value page `i` of the order gets at its turn. The values the pass
   * reaches always satisfy Ranked when the initial ones do (PassRanked), so
   * the fallback 0.0 is never taken then (PassTurn).
   */
  ghost function PassValue(c: Corpus, d: real, val: map<Page, real>, i: nat): real
    requires i < |c.order|
    decreases i, 1
  {
    var s := PassState(c, d, val, i);
    if Ranked(c, s) then Rank(c, d, s, c.order[i]) else 0.0
  }

  /** A pass keeps the set of pages that have a value. */
  lemma {:induction false} PassKeys(c: Corpus, d: real, val: map<Page, real>, i: nat)
    requires i <= |c.order| && forall p :: p in c.order ==> p in val
    ensures PassState(c, d, val, i).Keys == val.Keys
  {
    if i > 0 {
      PassKeys(c, d, val, i - 1);
    }
  }

  /** Every state of the pass satisfies Ranked when the initial values do. */
  lemma PassRanked(c: Corpus, d: real, val: map<Page, real>, i: nat)
    requires Ranked(c, val) && i <= |c.order|
    ensures Ranked(c, PassState(c, d, val, i))
  {
    PassKeys(c, d, val, i);
  }

  /** Page `i` of the order gets the Rank of the values reached at its turn. */
  lemma PassTurn(c: Corpus, d: real, val: map<Page, real>, i: nat)
    requires Ranked(c, val) && i < |c.order|
    ensures Ranked(c, PassState(c, d, val, i))
    ensures PassValue(c, d, val, i) == Rank(c, d, PassState(c, d, val, i), c.order[i])
  {
    PassRanked(c, d, val, i);
  }

  /** The sum of the values of `order`, in that order (pagerank.py:161-162). */
  method SumValues(order: seq<Page>, val: map<Page, real>) returns (count: real)
    requires forall k :: k in order ==> k in val
    ensures count == SumOver(order, val)
  {
    count := 0.0;
    var j := 0;
    while j < |order|
      invariant 0 <= j <= |order|
      invariant count == SumOver(order[..j], val)
    {
      SumOverPrefixStep(order, val, j);
      count := count + val[order[j]];
      j := j + 1;
    }
    assert order[..|order|] == order;
  }

  /** The sum of the values of the pages in `targets`, taken in any order (pagerank.py:168-169). */
  method SumTargets(targets: set<Page>, val: map<Page, real>) returns (count: real)
    requires targets <= val.Keys
    ensures count == SetSum(targets, val)
  {
    count := 0.0;
    var rest := targets;
    while rest != {}
      invariant rest <= targets
      invariant count + SetSum(rest, val) == SetSum(targets, val)
      decreases |rest|
    {
      var i :| i in rest;
      SetSumRemove(rest, val, i);
      count := count + val[i];
      rest := rest - {i};
    }
  }

  /** The new value of `page` given the current values (pagerank.py:160-173). */
  method Relax(c: Corpus, d: real, val: map<Page, real>, page: Page) returns (v: real)
    requires Ranked(c, val) && page in c.links
    ensures v == Rank(c, d, val, page)
  {
    var corpusLength := |c.links|;
    if |c.links[page]| == 0 {
      var count := SumValues(c.order, val);
      assert |val| == |val.Keys|;
      count := count / |val| as real;
      v := count + (1.0 - d) / corpusLength as real;
    } else {
      var length := |c.links[page]|;
      var count := SumTargets(c.links[page], val);
      count := count / length as real;
      v := count + (1.0 - d) / corpusLength as real;
    }
  }

  /**
   * The largest |new - old| over the first `i` pages of the pass; each page
   * is compared with its value before the pass, which is the value it still
   * had when its turn came.
   */
  ghost function PassChange(c: Corpus, d: real, val: map<Page, real>, i: nat): real
    requires i <= |c.order| && forall p :: p in c.order ==> p in val
  {
    if i == 0 then 0.0
    else Max(PassChange(c, d, val, i - 1), Abs(PassValue(c, d, val, i - 1) - val[c.order[i - 1]]))
  }

  function Max(a: real, b: real): real {
    if a < b then b else a
  }

  /**
   * One pass of the `while` body (pagerank.py:157-177): the values become
   * those of the Gauss-Seidel sweep, and `change` is the largest distance
   * between a page's new and old value.
   */
  method RelaxationPass(c: Corpus, d: real, val: map<Page, real>) returns (next: map<Page, real>, change: real)
    requires Ranked(c, val)
    ensures next == PassState(c, d, val, |c.order|) && change == PassChange(c, d, val, |c.order|)
    ensures LargestMove(c.order, val, next, change)
  {
    assert Keyed(c.order, val);
    next := val;
    change := 0.0;
    var i := 0;
    while i < |c.order|
      invariant 0 <= i <= |c.order|
      invariant next == PassState(c, d, val, i)
      invariant change == PassChange(c, d, val, i)
    {
      next, change := UpdatePage(c, d, val, next, change, i);
      i := i + 1;
    }
    PassChangeIsLargest(c, d, val);
  }

  /** The `change` test of pagerank.py:174-177 keeps the largest distance seen. */
  method RecordChange(change: real, previousVal: real, newVal: real) returns (largest: real)
    ensures largest == Max(change, Abs(newVal - previousVal))
  {
    largest := change;
    if newVal - previousVal > largest || previousVal - newVal > largest {
      largest := newVal - previousVal;
      if largest < 0.0 {
        largest := largest * -1.0;
      }
    }
  }

  /**
   * The body of the `for page in val.keys()` loop (pagerank.py:158-177):
   * page i of the pass gets its new value, and `change` records how far it
   * moved if that is further than any page before it.
   */
  method UpdatePage(c: Corpus, d: real, val: map<Page, real>, next: map<Page, real>, change: real, i: nat)
    returns (updated: map<Page, real>, largest: real)
    requires Ranked(c, val) && i < |c.order|
    requires next == PassState(c, d, val, i) && change == PassChange(c, d, val, i)
    ensures updated == PassState(c, d, val, i + 1) && largest == PassChange(c, d, val, i + 1)
  {
    var page := c.order[i];
    PassTurn(c, d, val, i);
    PassUntouched(c, d, val, i, i);
    var previousVal := next[page];
    var newVal := Relax(c, d, next, page);
    updated := next[page := newVal];
    largest := RecordChange(change, previousVal, newVal);
  }

  /** A page at position `j` has its original value before its turn. */
  lemma {:induction false} PassUntouched(c: Corpus, d: real, val: map<Page, real>, i: nat, j: nat)
    requires Keyed(c.order, val) && i <= j < |c.order|
    ensures PassState(c, d, val, i)[c.order[j]] == val[c.order[j]]
  {
    if i > 0 {
      PassUntouched(c, d, val, i - 1, j);
    }
  }

  /** A page keeps, for the rest of the pass, the value it got at its turn. */
  lemma {:induction false} PassSettled(c: Corpus, d: real, val: map<Page, real>, j: nat, i: nat)
    requires Keyed(c.order, val) && j < i <= |c.order|
    ensures PassState(c, d, val, i)[c.order[j]] == PassValue(c, d, val, j)
  {
    if i > j + 1 {
      PassSettled(c, d, val, j, i - 1);
    }
  }

  /**
   * `change` is the largest distance between a page's value in `val` and in
   * `next`: it is not negative, no page of `order` moved further, and when
   * there is a page, one of them moved exactly that far.
   */
  predicate LargestMove(order: seq<Page>, val: map<Page, real>, next: map<Page, real>, change: real) {
    && change >= 0.0
    && (forall j :: 0 <= j < |order| ==> order[j] in val && order[j] in next && Abs(next[order[j]] - val[order[j]]) <= change)
    && (|order| > 0 ==> exists j :: 0 <= j < |order| && order[j] in val && order[j] in next && Abs(next[order[j]] - val[order[j]]) == change)
  }

  /**
   * PassChange is the largest |new - old| of the pass: no page moved
   * further, and some page moved exactly that far.
   */
  lemma PassChangeIsLargest(c: Corpus, d: real, val: map<Page, real>)
    requires Keyed(c.order, val)
    ensures LargestMove(c.order, val, PassState(c, d, val, |c.order|), PassChange(c, d, val, |c.order|))
  {
    var n := |c.order|;
    ChangeNonNegative(c, d, val, n);
    forall j | 0 <= j < n
      ensures Abs(PassState(c, d, val, n)[c.order[j]] - val[c.order[j]]) <= PassChange(c, d, val, n)
    {
      PassSettled(c, d, val, j, n);
      ChangeBound(c, d, val, j, n);
    }
    if n > 0 {
      var j := ChangeWitness(c, d, val, n);
      PassSettled(c, d, val, j, n);
    }
  }

  /** PassChange is never negative. */
  lemma {:induction false} ChangeNonNegative(c: Corpus, d: real, val: map<Page, real>, i: nat)
    requires i <= |c.order| && forall p :: p in c.order ==> p in val
    ensures PassChange(c, d, val, i) >= 0.0
  {
    if i > 0 {
      ChangeNonNegative(c, d, val, i - 1);
    }
  }

  /** After `i` updates PassChange bounds the change of page `j` of those. */
  lemma {:induction false} ChangeBound(c: Corpus, d: real, val: map<Page, real>, j: nat, i: nat)
    requires j < i <= |c.order| && forall p :: p in c.order ==> p in val
    ensures Abs(PassValue(c, d, val, j) - val[c.order[j]]) <= PassChange(c, d, val, i)
  {
    if i > j + 1 {
      ChangeBound(c, d, val, j, i - 1);
    }
  }

  /** Some page of the first `i` reaches PassChange. */
  lemma {:induction false} ChangeWitness(c: Corpus, d: real, val: map<Page, real>, i: nat) returns (j: nat)
    requires 0 < i <= |c.order| && forall p :: p in c.order ==> p in val
    ensures j < i && Abs(PassValue(c, d, val, j) - val[c.order[j]]) == PassChange(c, d, val, i)
  {
    if i == 1 || PassChange(c, d, val, i - 1) < Abs(PassValue(c, d, val, i - 1) - val[c.order[i - 1]]) {
      j := i - 1;
    } else {
      j := ChangeWitness(c, d, val, i - 1);
    }
  }

  /** An average of values that are all at least `lo` is at least `lo`. */
  lemma AverageAtLeast(total: real, k: nat, lo: real)
    requires k > 0 && total >= Times(k, lo)
    ensures Average(total, k) >= lo
  {
    TimesIsProduct(k, lo);
    assert Average(total, k) * k as real == total;
  }

  /** Every page of a corpus with these facts is somewhere in the order. */
  lemma OrderCoversKeys(c: Corpus)
    requires Distinct(c.order) && |c.links| == |c.order| && forall p :: p in c.order ==> p in c.links
    ensures forall p :: p in c.links ==> p in c.order
  {
    DistinctCard(c.order);
    var keys, listed := c.links.Keys, Elems(c.order);
    assert listed <= keys;
    assert |keys - listed| == |keys| - |listed|;
    assert keys - listed == {};
    forall p | p in c.links
      ensures p in c.order
    {
      assert p in keys;
      assert p in listed;
    }
  }

  /** A page's new value is at least the smallest current value plus (1-d)/N. */
  lemma RankAtLeast(c: Corpus, d: real, s: map<Page, real>, page: Page, lo: real)
    requires Ranked(c, s) && page in c.links && forall p :: p in s ==> s[p] >= lo
    ensures Rank(c, d, s, page) >= lo + (1.0 - d) / |c.links| as real
  {
    if |c.links[page]| == 0 {
      SumOverAtLeast(c.order, s, lo);
      AverageAtLeast(SumOver(c.order, s), |c.links|, lo);
    } else {
      SetSumAtLeast(c.links[page], s, lo);
      AverageAtLeast(SetSum(c.links[page], s), |c.links[page]|, lo);
    }
  }

  /**
   * For d <= 1 no value drops below a lower bound `lo` of the initial values
   * during a pass, and every page that has had its turn is at least
   * lo + (1-d)/N.
   */
  lemma {:induction false} PassAtLeast(c: Corpus, d: real, val: map<Page, real>, i: nat, lo: real)
    requires Ranked(c, val) && i <= |c.order| && d <= 1.0
    requires forall p :: p in val ==> val[p] >= lo
    ensures forall p :: p in PassState(c, d, val, i) ==> PassState(c, d, val, i)[p] >= lo
    ensures forall j :: 0 <= j < i ==> PassValue(c, d, val, j) >= lo + (1.0 - d) / |c.links| as real
  {
    if i > 0 {
      PassAtLeast(c, d, val, i - 1, lo);
      TurnAtLeast(c, d, val, i - 1, lo);
      Increment(c, d);
    }
  }

  /** The turn of page `j` when all values so far are at least `lo`. */
  lemma TurnAtLeast(c: Corpus, d: real, val: map<Page, real>, j: nat, lo: real)
    requires Ranked(c, val) && j < |c.order|
    requires forall p :: p in PassState(c, d, val, j) ==> PassState(c, d, val, j)[p] >= lo
    ensures PassValue(c, d, val, j) >= lo + (1.0 - d) / |c.links| as real
  {
    PassTurn(c, d, val, j);
    RankAtLeast(c, d, PassState(c, d, val, j), c.order[j], lo);
  }

  /** For d <= 1 the amount (1-d)/N added to every page is not negative. */
  lemma Increment(c: Corpus, d: real)
    requires |c.links| > 0 && d <= 1.0
    ensures (1.0 - d) / |c.links| as real >= 0.0
  {
  }

  /**
   * For d <= 1 a pass raises every value by at least (1-d)/N above the
   * smallest value before the pass.
   */
  lemma PassRaisesMinimum(c: Corpus, d: real, val: map<Page, real>, lo: real)
    requires Ranked(c, val) && d <= 1.0
    requires forall p :: p in val ==> val[p] >= lo
    ensures forall p :: p in val ==> PassState(c, d, val, |c.order|)[p] >= lo + (1.0 - d) / |c.links| as real
  {
    var n := |c.order|;
    OrderCoversKeys(c);
    PassAtLeast(c, d, val, n, lo);
    PassKeys(c, d, val, n);
    forall p | p in val
      ensures PassState(c, d, val, n)[p] >= lo + (1.0 - d) / |c.links| as real
    {
      var j :| 0 <= j < n && c.order[j] == p;
      PassSettled(c, d, val, j, n);
    }
  }

  /** A position of `order` whose value is the smallest. */
  lemma {:induction false} MinPosition(order: seq<Page>, val: map<Page, real>) returns (m: nat)
    requires |order| > 0 && forall p :: p in order ==> p in val
    ensures m < |order| && forall j :: 0 <= j < |order| ==> val[order[m]] <= val[order[j]]
  {
    if |order| == 1 {
      m := 0;
    } else {
      var init := order[..|order| - 1];
      assert forall p :: p in init ==> p in order;
      m := MinPosition(init, val);
      if val[order[|order| - 1]] < val[order[m]] {
        m := |order| - 1;
      }
    }
  }

  /**
   * For d <= 1 every pass changes some page by at least (1-d)/N: the page
   * with the smallest value rises by that much.
   */
  lemma PassChangeAtLeast(c: Corpus, d: real, val: map<Page, real>)
    requires Ranked(c, val) && |c.order| > 0 && d <= 1.0
    ensures PassChange(c, d, val, |c.order|) >= (1.0 - d) / |c.links| as real
  {
    var n := |c.order|;
    var m := MinimumPage(c, val);
    var lo := val[c.order[m]];
    PassAtLeast(c, d, val, n, lo);
    MovedAtLeast(PassValue(c, d, val, m), lo, (1.0 - d) / |c.links| as real);
    ChangeBound(c, d, val, m, n);
  }

  /** A position of the order holding the smallest value of all pages. */
  lemma MinimumPage(c: Corpus, val: map<Page, real>) returns (m: nat)
    requires Ranked(c, val) && |c.order| > 0
    ensures m < |c.order| && forall p :: p in val ==> val[p] >= val[c.order[m]]
  {
    OrderCoversKeys(c);
    m := MinPosition(c.order, val);
    forall p | p in val
      ensures val[p] >= val[c.order[m]]
    {
      var j :| 0 <= j < |c.order| && c.order[j] == p;
    }
  }

  /** A value at least `delta` above `lo` is at distance at least `delta` from it. */
  lemma MovedAtLeast(x: real, lo: real, delta: real)
    requires x >= lo + delta
    ensures Abs(x - lo) >= delta
  {
  }

  /** The value `a` at every page. */
  function Constant(c: Corpus, a: real): map<Page, real> {
    map p | p in c.links :: a
  }

  /** The values before the first pass: 1/N for every page. */
  function Uniform(c: Corpus): map<Page, real>
    requires |c.links| > 0
  {
    Constant(c, 1.0 / |c.links| as real)
  }

  /**
   * The loop of pagerank.py:146-149: every page of the corpus, in key order,
   * gets 1/N.
   */
  method InitialValues(c: Corpus) returns (val: map<Page, real>)
    requires Consistent(c) && |c.links| > 0
    ensures val == Uniform(c)
  {
    var increaseFactor := 1.0 / |c.links| as real;
    val := map[];
    var j := 0;
    while j < |c.order|
      invariant 0 <= j <= |c.order|
      invariant val == map p | p in c.order[..j] :: increaseFactor
    {
      assert c.order[..j + 1] == c.order[..j] + [c.order[j]];
      val := val[c.order[j] := increaseFactor];
      j := j + 1;
    }
    assert c.order[..j] == c.order;
    OrderCoversKeys(c);
  }

  /** The values after `k` complete passes, starting from 1/N everywhere. */
  ghost function Iterate(c: Corpus, d: real, k: nat): (val: map<Page, real>)
    requires Consistent(c) && |c.links| > 0
    ensures val.Keys == c.links.Keys
  {
    if k == 0 then Uniform(c)
    else
      var v := Iterate(c, d, k - 1);
      PassKeys(c, d, v, |c.order|);
      PassState(c, d, v, |c.order|)
  }

  /** The `change` that pass number `k + 1` reports. */
  ghost function IterateChange(c: Corpus, d: real, k: nat): real
    requires Consistent(c) && |c.links| > 0
  {
    var v := Iterate(c, d, k);
    PassChange(c, d, v, |c.order|)
  }

  /**
   * The `change` the outer loop tests after `k` passes: 1 before the first
   * (pagerank.py:151), then what the last pass reported.
   */
  ghost function LastChange(c: Corpus, d: real, k: nat): real
    requires Consistent(c) && |c.links| > 0
  {
    if k == 0 then 1.0 else IterateChange(c, d, k - 1)
  }

  /** Pass number `j + 1` changed some page by at least the threshold. */
  ghost predicate Moved(c: Corpus, d: real, j: nat)
    requires Consistent(c) && |c.links| > 0
  {
    IterateChange(c, d, j) >= Threshold
  }

  /** Every pass before the last of the first `k` changed some page by at least the threshold. */
  ghost predicate MovedBefore(c: Corpus, d: real, k: nat)
    requires Consistent(c) && |c.links| > 0
  {
    forall j: nat :: j + 1 < k ==> Moved(c, d, j)
  }

  /**
   * The outer loop of pagerank.py:151-156 ends after `k` passes: `k` is
   * within the cap, every pass but the last changed some page by at least
   * the threshold, and the `change` tested after the last is below it
   * unless the cap was reached. As `change` starts at 1, a first pass runs
   * unless the cap is 0.
   */
  ghost predicate StopsAfter(c: Corpus, d: real, maxPasses: nat, k: nat)
    requires Consistent(c) && |c.links| > 0
  {
    && k <= maxPasses
    && (LastChange(c, d, k) < Threshold || k == maxPasses)
    && MovedBefore(c, d, k)
  }

  /**
   * The loop stops at the first pass that changes no page by the threshold,
   * so only one number of passes fits StopsAfter.
   */
  lemma StopsAfterIsUnique(c: Corpus, d: real, maxPasses: nat, k: nat, k': nat)
    requires Consistent(c) && |c.links| > 0
    requires StopsAfter(c, d, maxPasses, k) && StopsAfter(c, d, maxPasses, k')
    ensures k == k'
  {
    if k < k' {
      KeepsGoing(c, d, k, k');
    } else if k' < k {
      KeepsGoing(c, d, k', k);
    }
  }

  /**
   * If the passes before pass `k'` all moved a page by the threshold, then
   * at every earlier count the `while` test still holds.
   */
  lemma KeepsGoing(c: Corpus, d: real, k: nat, k': nat)
    requires Consistent(c) && |c.links| > 0
    requires MovedBefore(c, d, k') && k < k'
    ensures LastChange(c, d, k) >= Threshold
  {
    if k > 0 {
      assert Moved(c, d, k - 1);
    }
  }

  /** d <= 1 and the jump term (1-d)/N alone reaches the threshold. */
  ghost predicate JumpReachesThreshold(c: Corpus, d: real)
    requires |c.links| > 0
  {
    d <= 1.0 && (1.0 - d) / |c.links| as real >= Threshold
  }

  /**
   * `iterate_pagerank` (pagerank.py:146-178) with at most `maxPasses`
   * passes: `change` starts at 1, so a first pass always runs unless the
   * cap is 0, and passes run while the last one changed some page by at
   * least the threshold. The result holds the values after the passes run,
   * and the number of passes is the one StopsAfter fixes. When every pass
   * is bound to change some page by the threshold (NeverConverges), only
   * the cap stops the loop.
   */
  method IteratePagerank(c: Corpus, d: real, maxPasses: nat) returns (val: map<Page, real>, passes: nat, change: real)
    requires Consistent(c) && |c.links| > 0
    ensures passes <= maxPasses && val == Iterate(c, d, passes)
    ensures change == LastChange(c, d, passes)
    ensures change < Threshold || passes == maxPasses
    ensures StopsAfter(c, d, maxPasses, passes)
    ensures JumpReachesThreshold(c, d) ==> passes == maxPasses
  {
    val := InitialValues(c);
    change := 1.0;
    passes := 0;
    while change >= Threshold && passes < maxPasses
      invariant passes <= maxPasses && val == Iterate(c, d, passes)
      invariant change == LastChange(c, d, passes)
      invariant MovedBefore(c, d, passes)
      decreases maxPasses - passes
    {
      KeptMoving(c, d, passes, change);
      val, change := NextPass(c, d, val, passes);
      passes := passes + 1;
    }
    LoopStops(c, d, maxPasses, passes, change);
    OnlyCapStops(c, d, maxPasses, passes);
  }

  /** A loop turn that runs after pass `k` extends the passes that moved a page by the threshold. */
  lemma KeptMoving(c: Corpus, d: real, k: nat, change: real)
    requires Consistent(c) && |c.links| > 0
    requires change >= Threshold && change == LastChange(c, d, k)
    requires MovedBefore(c, d, k)
    ensures MovedBefore(c, d, k + 1)
  {
    if k > 0 {
      assert Moved(c, d, k - 1);
    }
  }

  /** The state in which the `while` of IteratePagerank exits is StopsAfter. */
  lemma LoopStops(c: Corpus, d: real, maxPasses: nat, passes: nat, change: real)
    requires Consistent(c) && |c.links| > 0
    requires passes <= maxPasses && (change < Threshold || passes == maxPasses)
    requires change == LastChange(c, d, passes)
    requires MovedBefore(c, d, passes)
    ensures StopsAfter(c, d, maxPasses, passes)
  {
  }

  /**
   * When every pass is bound to change some page by the threshold, a loop
   * that stops as StopsAfter says stops at its cap.
   */
  lemma OnlyCapStops(c: Corpus, d: real, maxPasses: nat, passes: nat)
    requires Consistent(c) && |c.links| > 0
    requires StopsAfter(c, d, maxPasses, passes)
    ensures JumpReachesThreshold(c, d) ==> passes == maxPasses
  {
    if JumpReachesThreshold(c, d) && passes > 0 {
      NeverConverges(c, d, passes - 1);
    }
  }

  /** Pass number `k + 1` of IteratePagerank. */
  method NextPass(c: Corpus, d: real, val: map<Page, real>, ghost k: nat) returns (next: map<Page, real>, change: real)
    requires Consistent(c) && |c.links| > 0 && val == Iterate(c, d, k)
    ensures next == Iterate(c, d, k + 1) && change == IterateChange(c, d, k)
  {
    next, change := RelaxationPass(c, d, val);
  }

  /**
   * For d <= 1 every pass reports a change of at least (1-d)/N. When that
   * is at least the threshold, the `while` of pagerank.py:156 never ends,
   * and IteratePagerank stops only at its cap.
   */
  lemma NeverConverges(c: Corpus, d: real, k: nat)
    requires Consistent(c) && |c.links| > 0 && d <= 1.0
    ensures IterateChange(c, d, k) >= (1.0 - d) / |c.links| as real
  {
    PassChangeAtLeast(c, d, Iterate(c, d, k));
  }

  /** A corpus of two pages that link to each other. */
  function TwoPages(): (c: Corpus)
    ensures c.Valid() && Consistent(c) && |c.links| == 2
  {
    var a, b := "1.html", "2.html";
    assert a != b;
    Corpus([a, b], map[a := {b}, b := {a}])
  }

  /**
   * With d = 0.85 and a corpus of two pages (such as TwoPages), every pass
   * moves some value by at least 0.075, so the loop of `iterate_pagerank`
   * never stops, and after `k` passes the values add up to at least 1 + 0.15k.
   */
  lemma TwoPagesNeverSettle(c: Corpus, k: nat)
    requires Consistent(c) && |c.links| == 2
    ensures IterateChange(c, 0.85, k) >= 0.075 > Threshold
    ensures SumOver(c.order, Iterate(c, 0.85, k)) >= 1.0 + k as real * 0.15
  {
    NeverConverges(c, 0.85, k);
    IterateSum(c, 0.85, k);
    TwoPagesArithmetic(|c.links| as real, k as real);
  }

  /** The two pages of TwoPages, with d = 0.85, never settle. */
  lemma TwoPagesExample(k: nat)
    ensures IterateChange(TwoPages(), 0.85, k) > Threshold
    ensures SumOver(TwoPages().order, Iterate(TwoPages(), 0.85, k)) >= 1.0 + k as real * 0.15
  {
    TwoPagesNeverSettle(TwoPages(), k);
  }

  /** The arithmetic of the two-page example. */
  lemma TwoPagesArithmetic(n: real, k: real)
    requires n == 2.0
    ensures (1.0 - 0.85) / n == 0.075 && k * (1.0 - 0.85) == k * 0.15
  {
  }

  /**
   * For d <= 1, after `k` passes every value is at least 1/N plus k times
   * (1-d)/N: the values only grow.
   */
  lemma {:induction false} IterateAtLeast(c: Corpus, d: real, k: nat)
    requires Consistent(c) && |c.links| > 0 && d <= 1.0
    ensures forall p :: p in c.links ==> Iterate(c, d, k)[p] >= Floor(c, d, k)
  {
    if k > 0 {
      IterateAtLeast(c, d, k - 1);
      var v := Iterate(c, d, k - 1);
      assert Ranked(c, v);
      PassRaisesMinimum(c, d, v, Floor(c, d, k - 1));
    }
  }

  /** 1/N plus `k` times (1-d)/N. */
  function Floor(c: Corpus, d: real, k: nat): real
    requires |c.links| > 0
  {
    1.0 / |c.links| as real + Times(k, (1.0 - d) / |c.links| as real)
  }

  /**
   * For d <= 1, after `k` passes the values add up to at least 1 + k(1-d),
   * so for d < 1 every pass leaves a total above 1.
   */
  lemma IterateSum(c: Corpus, d: real, k: nat)
    requires Consistent(c) && |c.links| > 0 && d <= 1.0
    ensures SumOver(c.order, Iterate(c, d, k)) >= 1.0 + k as real * (1.0 - d)
  {
    IterateAtLeast(c, d, k);
    TotalAtLeast(c, Iterate(c, d, k), Floor(c, d, k));
    FloorTotal(c, d, k);
  }

  /** Values of at least `lo` at every page add up to at least N times `lo`. */
  lemma TotalAtLeast(c: Corpus, v: map<Page, real>, lo: real)
    requires Consistent(c) && forall p :: p in c.links ==> p in v && v[p] >= lo
    ensures SumOver(c.order, v) >= Times(|c.links|, lo)
  {
    assert forall p :: p in c.order ==> p in v && v[p] >= lo;
    SumOverAtLeast(c.order, v, lo);
    assert |c.order| == |c.links|;
  }

  /** N copies of Floor add up to 1 + k(1-d). */
  lemma FloorTotal(c: Corpus, d: real, k: nat)
    requires |c.links| > 0
    ensures Times(|c.links|, Floor(c, d, k)) == 1.0 + k as real * (1.0 - d)
  {
    var n := |c.links| as real;
    TimesIsProduct(|c.links|, Floor(c, d, k));
    TimesIsProduct(k, (1.0 - d) / n);
    assert n * (1.0 / n) == 1.0;
    assert n * (k as real * ((1.0 - d) / n)) == k as real * (1.0 - d);
  }

  /**
   * The pass is a Gauss-Seidel sweep: page `j` gets the Rank of values in
   * which the pages before it already hold their results of this pass and
   * the pages from it on still hold their values from before the pass.
   */
  lemma PassIsSweep(c: Corpus, d: real, val: map<Page, real>)
    requires Ranked(c, val)
    ensures var next := PassState(c, d, val, |c.order|);
      forall j :: 0 <= j < |c.order| ==>
        && Ranked(c, PassState(c, d, val, j))
        && next[c.order[j]] == Rank(c, d, PassState(c, d, val, j), c.order[j])
        && forall k :: 0 <= k < |c.order| ==>
             PassState(c, d, val, j)[c.order[k]] == (if k < j then next[c.order[k]] else val[c.order[k]])
  {
    var n := |c.order|;
    forall j | 0 <= j < n
      ensures Ranked(c, PassState(c, d, val, j))
      ensures PassState(c, d, val, n)[c.order[j]] == Rank(c, d, PassState(c, d, val, j), c.order[j])
      ensures forall k :: 0 <= k < n ==>
        PassState(c, d, val, j)[c.order[k]] == (if k < j then PassState(c, d, val, n)[c.order[k]] else val[c.order[k]])
    {
      PassTurn(c, d, val, j);
      PassSettled(c, d, val, j, n);
      forall k | 0 <= k < n
        ensures PassState(c, d, val, j)[c.order[k]] == (if k < j then PassState(c, d, val, n)[c.order[k]] else val[c.order[k]])
      {
        if k < j {
          PassSettled(c, d, val, k, j);
          PassSettled(c, d, val, k, n);
        } else {
          PassUntouched(c, d, val, j, k);
        }
      }
    }
  }
}
