/**
 * The frontier: the URLs a run will visit. Listing pages 1..n are asked in
 * turn; each page's URL set, minus the URLs already in the store, is
 * appended to one list in whatever order the set is iterated. Nothing
 * removes a URL that an earlier page already contributed.
 */
module Frontier {
  import opened CrawlTypes

  /**
   * The URLs listing page `page` returned; None stands for a request that
   * raised, which ends the frontier computation before its result is used.
   */
  function Listed(listing: int -> Option<set<Url>>, page: int): set<Url>
  {
    if listing(page).Some? then listing(page).value else {}
  }

  /** The URLs of listing page `page` that are not in the store yet: `urls.difference(existing)`. */
  function Fresh(listing: int -> Option<set<Url>>, existing: set<Url>, page: int): set<Url>
  {
    Listed(listing, page) - existing
  }

  /**
   * `s` is a frontier for pages 1..n: it ends with the fresh URLs of page n,
   * each once and in some order, after a frontier for pages 1..n-1.
   */
  predicate IsFrontier(s: seq<Url>, listing: int -> Option<set<Url>>, existing: set<Url>, n: nat)
    decreases n
  {
    if n == 0 then s == []
    else
      var k := |Fresh(listing, existing, n)|;
      k <= |s| &&
      multiset(s[|s| - k..]) == multiset(Fresh(listing, existing, n)) &&
      IsFrontier(s[..|s| - k], listing, existing, n - 1)
  }

  /**
   * The reference count of what pages 1..n queue: each page's fresh URLs,
   * one each, added up over the pages with multiplicity.
   */
  function FrontierBag(listing: int -> Option<set<Url>>, existing: set<Url>, n: nat): multiset<Url>
  {
    if n == 0 then multiset{}
    else FrontierBag(listing, existing, n - 1) + multiset(Fresh(listing, existing, n))
  }

  /**
   * The URLs of a set, each exactly once, in the order the set is iterated
   * (which nothing fixes): what `list.extend(a_set)` appends.
   */
  method Enumerate(s: set<Url>) returns (e: seq<Url>)
    ensures multiset(e) == multiset(s)
  {
    e := [];
    var rest := s;
    while rest != {}
      invariant multiset(e) + multiset(rest) == multiset(s)
      decreases |rest|
    {
      var u :| u in rest;
      assert rest == (rest - {u}) + {u};
      e := e + [u];
      rest := rest - {u};
    }
  }

  /** Appending an enumeration of page n+1's fresh URLs extends a frontier by one page. */
  lemma FrontierExtend(s: seq<Url>, e: seq<Url>, listing: int -> Option<set<Url>>, existing: set<Url>, n: nat)
    requires IsFrontier(s, listing, existing, n)
    requires multiset(e) == multiset(Fresh(listing, existing, n + 1))
    ensures IsFrontier(s + e, listing, existing, n + 1)
  {
    var page := Fresh(listing, existing, n + 1);
    assert |e| == |page| by {
      assert |multiset(e)| == |e|;
      assert |multiset(page)| == |page|;
    }
    var t := s + e;
    assert t[|t| - |page|..] == e;
    assert t[..|t| - |page|] == s;
  }

  /**
   * How often a URL occurs in a frontier: once for every page that lists
   * it, while it is not stored.
   */
  lemma {:induction false} FrontierCount(s: seq<Url>, listing: int -> Option<set<Url>>, existing: set<Url>, n: nat, u: Url)
    requires IsFrontier(s, listing, existing, n)
    ensures multiset(s)[u] == FrontierBag(listing, existing, n)[u]
    decreases n
  {
    if n > 0 {
      var page := Fresh(listing, existing, n);
      var cut := |s| - |page|;
      var earlier, last := s[..cut], s[cut..];
      assert s == earlier + last;
      assert multiset(s)[u] == multiset(earlier)[u] + multiset(last)[u];
      assert multiset(last) == multiset(page);
      FrontierCount(earlier, listing, existing, n - 1, u);
      var before := FrontierBag(listing, existing, n - 1);
      assert FrontierBag(listing, existing, n) == before + multiset(page);
    }
  }

  /** A frontier holds exactly the bag of fresh URLs of its pages. */
  lemma FrontierIsBag(s: seq<Url>, listing: int -> Option<set<Url>>, existing: set<Url>, n: nat)
    requires IsFrontier(s, listing, existing, n)
    ensures multiset(s) == FrontierBag(listing, existing, n)
  {
    forall u
      ensures multiset(s)[u] == FrontierBag(listing, existing, n)[u]
    {
      FrontierCount(s, listing, existing, n, u);
    }
  }

  /** A URL is queued for some page exactly when some page 1..n lists it and it is not stored. */
  lemma {:induction false} BagPositive(listing: int -> Option<set<Url>>, existing: set<Url>, u: Url, n: nat)
    ensures FrontierBag(listing, existing, n)[u] > 0 <==>
      u !in existing && exists p :: 1 <= p <= n && u in Listed(listing, p)
  {
    if n > 0 {
      BagPositive(listing, existing, u, n - 1);
      if u in Fresh(listing, existing, n) {
        assert 1 <= n <= n && u in Listed(listing, n);
      }
    }
  }

  /** No URL of the frontier is already in the store. */
  lemma FrontierExcludesExisting(s: seq<Url>, listing: int -> Option<set<Url>>, existing: set<Url>, n: nat)
    requires IsFrontier(s, listing, existing, n)
    ensures forall i :: 0 <= i < |s| ==> s[i] !in existing
  {
    forall i | 0 <= i < |s|
      ensures s[i] !in existing
    {
      assert s[i] in multiset(s);
      FrontierCount(s, listing, existing, n, s[i]);
      BagPositive(listing, existing, s[i], n);
    }
  }

  /** A URL is in the frontier if and only if some page lists it and the store does not hold it. */
  lemma FrontierMembership(s: seq<Url>, listing: int -> Option<set<Url>>, existing: set<Url>, n: nat, u: Url)
    requires IsFrontier(s, listing, existing, n)
    ensures u in s <==> u !in existing && exists p :: 1 <= p <= n && u in Listed(listing, p)
  {
    FrontierCount(s, listing, existing, n, u);
    BagPositive(listing, existing, u, n);
    assert u in s <==> u in multiset(s);
  }

  /**
   * The frontier is as long as its bag, which grows by |page set \ existing|
   * per page: duplicates across pages stay.
   */
  lemma FrontierLength(s: seq<Url>, listing: int -> Option<set<Url>>, existing: set<Url>, n: nat)
    requires IsFrontier(s, listing, existing, n)
    ensures |s| == |FrontierBag(listing, existing, n)|
    ensures n > 0 ==> |s| == |FrontierBag(listing, existing, n - 1)| + |Fresh(listing, existing, n)|
  {
    FrontierIsBag(s, listing, existing, n);
    assert |s| == |multiset(s)|;
    if n > 0 {
      var page := Fresh(listing, existing, n);
      assert |multiset(page)| == |page|;
    }
  }

  /** When no page lists any URL, the frontier is empty. */
  lemma EmptyListingsEmptyFrontier(s: seq<Url>, listing: int -> Option<set<Url>>, existing: set<Url>, n: nat)
    requires IsFrontier(s, listing, existing, n)
    requires forall p :: 1 <= p <= n ==> Listed(listing, p) == {}
    ensures s == []
  {
    if s != [] {
      FrontierMembership(s, listing, existing, n, s[0]);
    }
  }

  /**
   * Page 1 lists {A, B} and page 2 lists {B, C}, nothing is stored: the
   * frontier has four entries and B is queued twice.
   */
  lemma CrossPageDuplicateQueuedTwice(s: seq<Url>, listing: int -> Option<set<Url>>)
    requires listing(1) == Some({"A", "B"}) && listing(2) == Some({"B", "C"})
    requires IsFrontier(s, listing, {}, 2)
    ensures |s| == 4
    ensures multiset(s)["B"] == 2
  {
    FrontierLength(s, listing, {}, 2);
    FrontierCount(s, listing, {}, 2, "B");
  }

  /** A larger store never queues a URL more often. */
  lemma {:induction false} BagShrinksAsStoreGrows(listing: int -> Option<set<Url>>, e1: set<Url>, e2: set<Url>, n: nat)
    requires e1 <= e2
    ensures FrontierBag(listing, e2, n) <= FrontierBag(listing, e1, n)
  {
    if n > 0 {
      BagShrinksAsStoreGrows(listing, e1, e2, n - 1);
      assert multiset(Fresh(listing, e2, n)) <= multiset(Fresh(listing, e1, n));
    }
  }

  /**
   * Once a run's frontier is in the store, a later run over the same
   * listings queues nothing.
   */
  lemma NothingRequeuedOnceStored(s1: seq<Url>, s2: seq<Url>, listing: int -> Option<set<Url>>, e1: set<Url>, e2: set<Url>, n: nat)
    requires IsFrontier(s1, listing, e1, n)
    requires IsFrontier(s2, listing, e2, n)
    requires e1 <= e2
    requires forall i :: 0 <= i < |s1| ==> s1[i] in e2
    ensures s2 == []
  {
    if s2 != [] {
      var u := s2[0];
      FrontierMembership(s2, listing, e2, n, u);
      FrontierMembership(s1, listing, e1, n, u);
      assert false;
    }
  }
}
