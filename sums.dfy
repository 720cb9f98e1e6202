/**
 * Exact sums over the pages of a corpus. A Python dict is walked in key
 * order, so a sum of dict values is a sum over a sequence of keys; a Python
 * set is walked in no particular order, so a sum over a set is stated
 * independently of the order (SetSum and SetSumRemove).
 */
module Sums {

  /** A page of the corpus, named by its file name. */
  type Page = string

  /** No key occurs twice in the sequence. */
  predicate Distinct(s: seq<Page>) {
    forall i, j :: 0 <= i < j < |s| ==> s[i] != s[j]
  }

  /** The keys of a sequence as a set. */
  function Elems(s: seq<Page>): set<Page> {
    set k | k in s
  }

  /** Sum of the values of `m` at the keys of `order`, added left to right. */
  function SumOver(order: seq<Page>, m: map<Page, real>): real
    requires forall k :: k in order ==> k in m
  {
    if |order| == 0 then 0.0
    else SumOver(order[..|order| - 1], m) + m[order[|order| - 1]]
  }

  /** Number of positions of `order` whose key lies in `s`. */
  function CountIn(order: seq<Page>, s: set<Page>): nat {
    if |order| == 0 then 0
    else CountIn(order[..|order| - 1], s) + (if order[|order| - 1] in s then 1 else 0)
  }

  /** `k` copies of `f` added up, so that counting stays linear arithmetic. */
  function Times(k: nat, f: real): real {
    if k == 0 then 0.0 else Times(k - 1, f) + f
  }

  /** Adding up `k` copies of `f` is multiplying `f` by `k`. */
  lemma {:induction false} TimesIsProduct(k: nat, f: real)
    ensures Times(k, f) == k as real * f
  {
    if k > 0 {
      TimesIsProduct(k - 1, f);
      assert (k - 1) as real * f + f == k as real * f;
    }
  }

  /** One more copy in front is one more copy. */
  lemma TimesShift(k: nat, f: real)
    ensures Times(k + 1, f) == f + Times(k, f)
  {
  }

  /** Copies of 0 add up to 0. */
  lemma {:induction false} TimesZero(k: nat)
    ensures Times(k, 0.0) == 0.0
  {
    if k > 0 {
      TimesZero(k - 1);
    }
  }

  /** Extending a prefix by one key adds that key's value. */
  lemma SumOverPrefixStep(order: seq<Page>, m: map<Page, real>, i: nat)
    requires i < |order| && forall k :: k in order ==> k in m
    ensures SumOver(order[..i + 1], m) == SumOver(order[..i], m) + m[order[i]]
  {
    assert order[..i + 1][..i] == order[..i];
  }

  /** The keys of a non-empty sequence are those of its front and its last key. */
  lemma ElemsSnoc(s: seq<Page>)
    requires |s| > 0
    ensures Elems(s) == Elems(s[..|s| - 1]) + {s[|s| - 1]}
    ensures Distinct(s) ==> Distinct(s[..|s| - 1]) && s[|s| - 1] !in Elems(s[..|s| - 1])
  {
    assert s == s[..|s| - 1] + [s[|s| - 1]];
  }

  /** The distinct keys of a sequence are as many as its positions. */
  lemma {:induction false} DistinctCard(s: seq<Page>)
    requires Distinct(s)
    ensures |Elems(s)| == |s|
  {
    if |s| > 0 {
      var init := s[..|s| - 1];
      ElemsSnoc(s);
      DistinctCard(init);
    }
  }

  /** Counting the positions of a duplicate-free sequence that lie in `s` counts `s` restricted to the sequence. */
  lemma {:induction false} CountInIsCard(order: seq<Page>, s: set<Page>)
    requires Distinct(order)
    ensures CountIn(order, s) == |s * Elems(order)|
  {
    if |order| > 0 {
      var init, last := order[..|order| - 1], order[|order| - 1];
      var before := s * Elems(init);
      ElemsSnoc(order);
      CountInIsCard(init, s);
      if last in s {
        assert s * Elems(order) == before + {last};
        assert last !in before;
        assert |before + {last}| == |before| + 1;
      } else {
        assert s * Elems(order) == before;
      }
    }
  }

  /**
   * A map whose value at every key of `order` is `a`, plus `b` on the keys
   * in `s`, sums to `a` per position plus `b` per position in `s`.
   */
  lemma {:induction false} SumOverAffine(order: seq<Page>, m: map<Page, real>, s: set<Page>, a: real, b: real)
    requires forall k :: k in order ==> k in m && m[k] == a + (if k in s then b else 0.0)
    ensures SumOver(order, m) == Times(|order|, a) + Times(CountIn(order, s), b)
  {
    if |order| > 0 {
      var init, last := order[..|order| - 1], order[|order| - 1];
      assert forall k :: k in init ==> k in order;
      SumOverAffine(init, m, s, a, b);
      assert last in order;
    }
  }

  /** Summing two maps key by key sums their totals. */
  lemma {:induction false} SumOverAdd(order: seq<Page>, m1: map<Page, real>, m2: map<Page, real>, m: map<Page, real>)
    requires forall k :: k in order ==> k in m1 && k in m2 && k in m && m[k] == m1[k] + m2[k]
    ensures SumOver(order, m) == SumOver(order, m1) + SumOver(order, m2)
  {
    if |order| > 0 {
      var init := order[..|order| - 1];
      assert forall k :: k in init ==> k in order;
      SumOverAdd(init, m1, m2, m);
      assert order[|order| - 1] in order;
    }
  }

  /** Changing the value of one key of a duplicate-free order changes the sum by the difference. */
  lemma {:induction false} SumOverUpdate(order: seq<Page>, m: map<Page, real>, key: Page, v: real)
    requires Distinct(order) && forall k :: k in order ==> k in m
    ensures SumOver(order, m[key := v]) == SumOver(order, m) + (if key in order then v - m[key] else 0.0)
  {
    if |order| > 0 {
      var init, last := order[..|order| - 1], order[|order| - 1];
      assert forall k :: k in init ==> k in order;
      assert order == init + [last];
      assert Distinct(init);
      SumOverUpdate(init, m, key, v);
      assert key in order <==> key in init || key == last;
      assert key == last ==> key !in init;
    }
  }

  /** Adding `f` to the value of one key of a duplicate-free order adds `f` to the sum. */
  lemma SumOverBump(order: seq<Page>, m: map<Page, real>, key: Page, f: real)
    requires Distinct(order) && key in order && forall k :: k in order ==> k in m
    ensures SumOver(order, m[key := m[key] + f]) == SumOver(order, m) + f
  {
    SumOverUpdate(order, m, key, m[key] + f);
  }

  /** Values bounded below by `lo` sum to at least `lo` per position. */
  lemma {:induction false} SumOverAtLeast(order: seq<Page>, m: map<Page, real>, lo: real)
    requires forall k :: k in order ==> k in m && m[k] >= lo
    ensures SumOver(order, m) >= Times(|order|, lo)
  {
    if |order| > 0 {
      var init := order[..|order| - 1];
      assert forall k :: k in init ==> k in order;
      SumOverAtLeast(init, m, lo);
      assert order[|order| - 1] in order;
    }
  }

  /** A fixed element of a non-empty set, used to take sets apart one element at a time. */
  ghost function Any(s: set<Page>): (k: Page)
    requires s != {}
    ensures k in s
  {
    var k :| k in s; k
  }

  /** Sum of the values of `m` at the elements of `s`, in no particular order. */
  ghost function SetSum(s: set<Page>, m: map<Page, real>): real
    requires s <= m.Keys
  {
    if s == {} then 0.0
    else var k := Any(s); m[k] + SetSum(s - {k}, m)
  }

  /** Any element may be taken out first: SetSum does not depend on the order of the walk. */
  lemma {:induction false} SetSumRemove(s: set<Page>, m: map<Page, real>, k: Page)
    requires s <= m.Keys && k in s
    ensures SetSum(s, m) == m[k] + SetSum(s - {k}, m)
    decreases |s|
  {
    var j := Any(s);
    if j != k {
      SetSumRemove(s - {j}, m, k);
      SetSumRemove(s - {k}, m, j);
      assert s - {j} - {k} == s - {k} - {j};
    }
  }

  /** Values bounded below by `lo` sum over a set to at least `lo` per element. */
  lemma {:induction false} SetSumAtLeast(s: set<Page>, m: map<Page, real>, lo: real)
    requires s <= m.Keys && forall k :: k in s ==> m[k] >= lo
    ensures SetSum(s, m) >= Times(|s|, lo)
    decreases |s|
  {
    if s != {} {
      var k := Any(s);
      SetSumAtLeast(s - {k}, m, lo);
    }
  }
}
