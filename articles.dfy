/**
 * One article attempt: fetch and parse the page, extract a record, append
 * it to the store when it is non-empty. Every failure is caught at the
 * article boundary, and a rate-limit wait follows each attempt.
 */
module Articles {
  import opened CrawlTypes

  /** What a site strategy's extract_data does with a page: returns a dict or None, or raises. */
  datatype Extracted = Returned(data: Option<Record>) | Raised

  /**
   * The collaborators of one run, as their answers. `getSoup(k, url)` is
   * what the page fetcher yields on the k-th article attempt of the run
   * (None for no document, including a fetch that raised);
   * `appendSucceeds(k, r)` says whether appending r on that attempt returned
   * normally; `existing` is the URL set loaded from the store (None when
   * loading it raised).
   */
  datatype World = World(
    existing: Option<set<Url>>,
    getSoup: (nat, Url) -> Option<Doc>,
    appendSucceeds: (nat, Record) -> bool)

  /** Why parsing an article page raised. */
  datatype ParseError = NoDocument | ExtractionRaised

  datatype ArticleResult = Parsed(data: Option<Record>) | ParseFailed(error: ParseError)

  /** How one attempt ended. Only `Written` puts a record in the store. */
  datatype Outcome = FetchFailed | ExtractFailed | EmptyRecord | AppendFailed | Written(record: Record)

  /** Python truthiness of extract_data's result: a dict with at least one key. */
  predicate Truthy(data: Option<Record>)
  {
    data.Some? && data.value != map[]
  }

  /**
   * parse_article_page given the fetcher's answer: without a document it
   * raises; otherwise it hands the document to the strategy and returns
   * what the strategy returns, unchanged.
   */
  function ParseArticlePage(soup: Option<Doc>, extract: Doc -> Extracted): (r: ArticleResult)
    ensures r == ParseFailed(NoDocument) <==> soup.None?
    ensures r == ParseFailed(ExtractionRaised) <==> soup.Some? && extract(soup.value).Raised?
    ensures r.Parsed? ==> soup.Some? && extract(soup.value) == Returned(r.data)
  {
    match soup
    case None => ParseFailed(NoDocument)
    case Some(doc) =>
      match extract(doc)
      case Raised => ParseFailed(ExtractionRaised)
      case Returned(data) => Parsed(data)
  }

  /** The outcome of attempting `url` as the k-th article of a run. */
  function OutcomeAt(world: World, extract: Doc -> Extracted, k: nat, url: Url): (o: Outcome)
    ensures o == FetchFailed <==> world.getSoup(k, url).None?
    ensures o == EmptyRecord <==>
      world.getSoup(k, url).Some? && extract(world.getSoup(k, url).value).Returned? &&
      !Truthy(extract(world.getSoup(k, url).value).data)
    ensures o.Written? <==>
      world.getSoup(k, url).Some? && extract(world.getSoup(k, url).value).Returned? &&
      Truthy(extract(world.getSoup(k, url).value).data) &&
      world.appendSucceeds(k, extract(world.getSoup(k, url).value).data.value)
    ensures o.Written? ==>
      o.record != map[] && extract(world.getSoup(k, url).value) == Returned(Some(o.record))
  {
    match ParseArticlePage(world.getSoup(k, url), extract)
    case ParseFailed(NoDocument) => FetchFailed
    case ParseFailed(ExtractionRaised) => ExtractFailed
    case Parsed(data) =>
      if !Truthy(data) then EmptyRecord
      else if world.appendSucceeds(k, data.value) then Written(data.value)
      else AppendFailed
  }

  /** The outcomes of attempting each URL of a frontier, the k-th as the k-th attempt. */
  function Outcomes(world: World, extract: Doc -> Extracted, urls: seq<Url>): (os: seq<Outcome>)
    ensures |os| == |urls|
  {
    seq(|urls|, k requires 0 <= k < |urls| => OutcomeAt(world, extract, k, urls[k]))
  }

  /** The records the first k attempts append to the store, in attempt order. */
  function WrittenBy(os: seq<Outcome>, k: nat): seq<Record>
    requires k <= |os|
  {
    if k == 0 then []
    else WrittenBy(os, k - 1) + (if os[k - 1].Written? then [os[k - 1].record] else [])
  }

  /** The records that attempts with these outcomes append to the store, in attempt order. */
  function WrittenOf(os: seq<Outcome>): seq<Record>
  {
    WrittenBy(os, |os|)
  }

  /** What the first k attempts write depends only on those attempts. */
  lemma {:induction false} WrittenByPrefix(a: seq<Outcome>, b: seq<Outcome>, k: nat)
    requires k <= |a|
    ensures WrittenBy(a + b, k) == WrittenBy(a, k)
  {
    if k > 0 {
      WrittenByPrefix(a, b, k - 1);
      assert (a + b)[k - 1] == a[k - 1];
    }
  }

  /** After the attempts of `a`, the first k attempts of `b` add what they write on their own. */
  lemma {:induction false} WrittenBySuffix(a: seq<Outcome>, b: seq<Outcome>, k: nat)
    requires k <= |b|
    ensures WrittenBy(a + b, |a| + k) == WrittenOf(a) + WrittenBy(b, k)
  {
    if k == 0 {
      WrittenByPrefix(a, b, |a|);
    } else {
      WrittenBySuffix(a, b, k - 1);
      assert (a + b)[|a| + k - 1] == b[k - 1];
    }
  }

  /** The written records of two stretches of attempts concatenate. */
  lemma WrittenOfAppend(a: seq<Outcome>, b: seq<Outcome>)
    ensures WrittenOf(a + b) == WrittenOf(a) + WrittenOf(b)
  {
    WrittenBySuffix(a, b, |b|);
  }

  /** The first k attempts write at most k records, and k exactly when each of them wrote. */
  lemma {:induction false} WrittenByBound(os: seq<Outcome>, k: nat)
    requires k <= |os|
    ensures |WrittenBy(os, k)| <= k
    ensures |WrittenBy(os, k)| == k <==> forall i :: 0 <= i < k ==> os[i].Written?
  {
    if k > 0 {
      WrittenByBound(os, k - 1);
    }
  }

  /** No more records are written than URLs attempted, and as many only when every attempt wrote. */
  lemma WrittenBound(os: seq<Outcome>)
    ensures |WrittenOf(os)| <= |os|
    ensures |WrittenOf(os)| == |os| <==> forall i :: 0 <= i < |os| ==> os[i].Written?
  {
    WrittenByBound(os, |os|);
  }

  /** A record is among those the first k attempts write exactly when one of them wrote it. */
  lemma {:induction false} WrittenByMembership(os: seq<Outcome>, k: nat, r: Record)
    requires k <= |os|
    ensures r in WrittenBy(os, k) <==> exists i :: 0 <= i < k && os[i] == Written(r)
  {
    if k > 0 {
      WrittenByMembership(os, k - 1, r);
    }
  }

  /** A record is in the store's new part exactly when some attempt wrote it. */
  lemma WrittenMembership(os: seq<Outcome>, r: Record)
    ensures r in WrittenOf(os) <==> Written(r) in os
  {
    WrittenByMembership(os, |os|, r);
  }

  /**
   * The record of a writing attempt i sits, among what the first k attempts
   * write, right after the records of the attempts before it.
   */
  lemma {:induction false} WrittenPosition(os: seq<Outcome>, i: nat, k: nat)
    requires i < k <= |os| && os[i].Written?
    ensures |WrittenBy(os, i)| < |WrittenBy(os, k)|
    ensures WrittenBy(os, k)[|WrittenBy(os, i)|] == os[i].record
  {
    if k > i + 1 {
      WrittenPosition(os, i, k - 1);
    }
  }

  /** Records reach the store in frontier order: a writing attempt's record precedes every later one's. */
  lemma WrittenInOrder(os: seq<Outcome>, i: nat, j: nat)
    requires i < j < |os| && os[i].Written? && os[j].Written?
    ensures |WrittenBy(os, i)| < |WrittenBy(os, j)| < |WrittenOf(os)|
    ensures WrittenOf(os)[|WrittenBy(os, i)|] == os[i].record
    ensures WrittenOf(os)[|WrittenBy(os, j)|] == os[j].record
  {
    WrittenPosition(os, i, j);
    WrittenPosition(os, i, |os|);
    WrittenPosition(os, j, |os|);
  }

  /**
   * A failed or empty attempt writes nothing and changes nothing about what
   * the other attempts write: the records are those of the other attempts.
   */
  lemma FailureIsolated(os: seq<Outcome>, k: nat)
    requires k < |os| && !os[k].Written?
    ensures WrittenOf(os) == WrittenOf(os[..k]) + WrittenOf(os[k + 1..])
  {
    var before, failed, after := os[..k], [os[k]], os[k + 1..];
    assert os == (before + failed) + after;
    WrittenOfAppend(before + failed, after);
    WrittenOfAppend(before, failed);
    assert WrittenOf(failed) == WrittenBy(failed, 0) == [];
    WrittenOfAppend(before, after);
  }

  /** Every record a run appends is non-empty: an empty record is skipped. */
  lemma WrittenRecordsNonEmpty(world: World, extract: Doc -> Extracted, urls: seq<Url>)
    ensures forall r :: r in WrittenOf(Outcomes(world, extract, urls)) ==> r != map[]
  {
    var os := Outcomes(world, extract, urls);
    forall r | r in WrittenOf(os)
      ensures r != map[]
    {
      WrittenMembership(os, r);
      var i :| 0 <= i < |os| && os[i] == Written(r);
      assert os[i] == OutcomeAt(world, extract, i, urls[i]);
    }
  }

  /**
   * Three URLs where the second fetch fails and the other two attempts
   * write: the run writes two records, the first URL's and then the third's.
   */
  lemma SecondFetchFails(world: World, extract: Doc -> Extracted, urls: seq<Url>)
    requires |urls| == 3
    requires world.getSoup(1, urls[1]).None?
    requires OutcomeAt(world, extract, 0, urls[0]).Written? && OutcomeAt(world, extract, 2, urls[2]).Written?
    ensures WrittenOf(Outcomes(world, extract, urls)) ==
      [OutcomeAt(world, extract, 0, urls[0]).record, OutcomeAt(world, extract, 2, urls[2]).record]
  {
    var os := Outcomes(world, extract, urls);
    assert os[1] == FetchFailed;
    assert WrittenBy(os, 2) == WrittenBy(os, 1) == [os[0].record];
  }
}
