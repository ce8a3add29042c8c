/** Token chains: the pages a snapshot fetched, and when they reach unbroken from the first page to a given token. */
module PageChains {
  import opened Common
  import opened ArchiveTables
  import opened Snapshots

  /** A page as fetched: the token it was asked with, and what came back. */
  datatype Fetched = Fetched(token: Option<string>, page: Page)

  /** A chain starts at the first page, each page was asked with the token of the one before, and ends in `end`. */
  ghost predicate IsChain(log: seq<Fetched>, chain: seq<Fetched>, end: Option<string>)
  {
    && chain != [] && chain[0].token.None?
    && (forall i | 0 <= i < |chain| - 1 :: chain[i].page.next.Some? && chain[i].page.next == chain[i + 1].token)
    && chain[|chain| - 1].page.next == end
    && (forall f | f in chain :: f in log)
  }

  ghost predicate Chained(log: seq<Fetched>, end: Option<string>)
  {
    exists chain :: IsChain(log, chain, end)
  }

  lemma ChainGrows(log: seq<Fetched>, f: Fetched, end: Option<string>)
    requires Chained(log, end)
    ensures Chained(log + [f], end)
  {
    var chain :| IsChain(log, chain, end);
    assert IsChain(log + [f], chain, end);
  }

  /** Fetching with a token whose chain is staged, or with none, extends the chain by the page. */
  lemma ChainExtends(log: seq<Fetched>, token: Option<string>, page: Page)
    requires token.Some? ==> Chained(log, token)
    ensures Chained(log + [Fetched(token, page)], page.next)
  {
    var f := Fetched(token, page);
    if token.None? {
      assert IsChain(log + [f], [f], page.next);
    } else {
      var chain :| IsChain(log, chain, token);
      var longer := chain + [f];
      forall i | 0 <= i < |longer| - 1 ensures longer[i].page.next.Some? && longer[i].page.next == longer[i + 1].token {
        if i == |chain| - 1 {
          assert longer[i] == chain[|chain| - 1] && longer[i + 1] == f;
        } else {
          assert longer[i] == chain[i] && longer[i + 1] == chain[i + 1];
        }
      }
      assert IsChain(log + [f], longer, page.next);
    }
  }

  function UnionOf(log: seq<Fetched>): set<PostId>
  {
    set f, x | f in log && x in f.page.items :: x
  }

  lemma UnionGrows(log: seq<Fetched>, f: Fetched)
    ensures UnionOf(log + [f]) == UnionOf(log) + PostsOf(f.page)
  {
    forall x | x in UnionOf(log) + PostsOf(f.page) ensures x in UnionOf(log + [f]) {
      if x in UnionOf(log) {
        var g :| g in log && x in g.page.items;
        assert g in log + [f];
      } else {
        assert f in log + [f];
      }
    }
  }
}
