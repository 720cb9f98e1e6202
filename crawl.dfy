/**
 * The corpus: the pages of a directory, in the order they were listed, and
 * the set of corpus pages each one links to. `crawl` builds it in two steps:
 * it drops a page's link to itself (pagerank.py:39), then keeps only links
 * to pages of the corpus (pagerank.py:42-46).
 */
module Crawl {
  import opened Sums

  /**
   * `order` is the insertion order of the Python dict (the order `for page in
   * corpus` walks); `links` maps each page to the pages it links to.
   */
  datatype Corpus = Corpus(order: seq<Page>, links: map<Page, set<Page>>) {

    /** Every link target is a page of the corpus, and no page links to itself. */
    predicate Valid() {
      && Distinct(order)
      && links.Keys == Elems(order)
      && forall p :: p in links ==> links[p] <= links.Keys && p !in links[p]
    }
  }

  /**
   * The link filtering of `crawl`: `files` are the HTML files in listing
   * order and `extracted[f]` the link targets found in file `f`.
   */
  function Crawl(files: seq<Page>, extracted: map<Page, set<Page>>): (c: Corpus)
    requires Distinct(files) && forall f :: f in files ==> f in extracted
    ensures c.Valid()
    ensures c.order == files && c.links.Keys == Elems(files)
    ensures forall f :: f in c.links ==> c.links[f] <= extracted[f]
    ensures forall f, l :: f in c.links ==>
              (l in c.links[f] <==> l in extracted[f] && l != f && l in files)
  {
    var pages := map f | f in files :: extracted[f] - {f};
    Corpus(files, map f | f in pages :: set l | l in pages[f] && l in pages)
  }

  /** Filtering a corpus that is already valid changes nothing. */
  lemma CrawlIdempotent(c: Corpus)
    requires c.Valid()
    ensures Crawl(c.order, c.links) == c
  {
    var r := Crawl(c.order, c.links);
    assert forall f :: f in c.links ==> r.links[f] == c.links[f];
  }

  /** A valid corpus has as many pages as its order lists. */
  lemma CorpusSize(c: Corpus)
    requires c.Valid()
    ensures |c.links| == |c.order|
  {
    DistinctCard(c.order);
    assert |c.links| == |c.links.Keys|;
  }
}
