/**
 * The event log of a run: the listing requests of iter_listing_urls, then
 * each article attempt of run with its outcome, each followed by a wait.
 */
module Trace {
  import opened CrawlTypes
  import opened Articles

  /** What one run records, in order. */
  datatype Event = ListingRequested(page: int) | ArticleAttempted(url: Url, outcome: Outcome) | Waited

  /** Requests for listing pages 1..n, in increasing order. */
  function ListingTrace(n: nat): seq<Event>
  {
    if n == 0 then [] else ListingTrace(n - 1) + [ListingRequested(n)]
  }

  /** The first k attempts with their outcomes, each followed by a wait. */
  function ArticleTraceBy(urls: seq<Url>, os: seq<Outcome>, k: nat): seq<Event>
    requires k <= |urls| == |os|
  {
    if k == 0 then []
    else ArticleTraceBy(urls, os, k - 1) + [ArticleAttempted(urls[k - 1], os[k - 1]), Waited]
  }

  /** Each URL's attempt with its outcome, each followed by a wait. */
  function ArticleTrace(urls: seq<Url>, os: seq<Outcome>): seq<Event>
    requires |urls| == |os|
  {
    ArticleTraceBy(urls, os, |urls|)
  }

  /** The number of waits in a trace. */
  function WaitCount(t: seq<Event>): nat
    decreases |t|
  {
    if t == [] then 0
    else WaitCount(t[..|t| - 1]) + (if t[|t| - 1] == Waited then 1 else 0)
  }

  /** Listing pages 1..n are each requested once, in increasing order. */
  lemma {:induction false} ListingTraceInOrder(n: nat)
    ensures |ListingTrace(n)| == n
    ensures forall i :: 0 <= i < n ==> ListingTrace(n)[i] == ListingRequested(i + 1)
  {
    if n > 0 {
      ListingTraceInOrder(n - 1);
    }
  }

  /** The shape of the first k attempts' trace. */
  lemma {:induction false} ArticleTraceByShape(urls: seq<Url>, os: seq<Outcome>, k: nat)
    requires k <= |urls| == |os|
    ensures |ArticleTraceBy(urls, os, k)| == 2 * k
    ensures forall i :: 0 <= i < k ==>
      ArticleTraceBy(urls, os, k)[2 * i] == ArticleAttempted(urls[i], os[i]) &&
      ArticleTraceBy(urls, os, k)[2 * i + 1] == Waited
  {
    if k > 0 {
      ArticleTraceByShape(urls, os, k - 1);
    }
  }

  /**
   * Every URL is attempted exactly once, in order, whatever the outcome of
   * the attempts before it, and each attempt is directly followed by a wait.
   */
  lemma ArticleTraceShape(urls: seq<Url>, os: seq<Outcome>)
    requires |urls| == |os|
    ensures |ArticleTrace(urls, os)| == 2 * |urls|
    ensures forall i :: 0 <= i < |urls| ==>
      ArticleTrace(urls, os)[2 * i] == ArticleAttempted(urls[i], os[i]) &&
      ArticleTrace(urls, os)[2 * i + 1] == Waited
  {
    ArticleTraceByShape(urls, os, |urls|);
  }

  /** The first k attempts wait exactly k times. */
  lemma {:induction false} WaitsBy(urls: seq<Url>, os: seq<Outcome>, k: nat)
    requires k <= |urls| == |os|
    ensures WaitCount(ArticleTraceBy(urls, os, k)) == k
  {
    if k > 0 {
      var before := ArticleTraceBy(urls, os, k - 1);
      var attempt := ArticleAttempted(urls[k - 1], os[k - 1]);
      var t := before + [attempt, Waited];
      WaitsBy(urls, os, k - 1);
      assert t[..|t| - 1] == before + [attempt];
      assert (before + [attempt])[..|before|] == before;
    }
  }

  /** A run's article phase waits exactly once per URL. */
  lemma WaitsPerAttempt(urls: seq<Url>, os: seq<Outcome>)
    requires |urls| == |os|
    ensures WaitCount(ArticleTrace(urls, os)) == |urls|
  {
    WaitsBy(urls, os, |urls|);
  }
}
