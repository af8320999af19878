/**
 * The crawl engine: a Scraper holds a validated configuration and a site
 * strategy (its two abstract methods, given here as functions), and a run
 * computes the frontier and attempts every URL of it against a JSONL store.
 */
module Scraping {
  import opened CrawlTypes
  import opened Config
  import opened Frontier
  import opened Articles
  import opened Trace

  /** Why a run stopped before its article phase: loading the store raised, or a listing page request did. */
  datatype RunError = StoreUnreadable | ListingRaised(page: int)

  /** What a run reports: the store's URL count, the frontier and the number of records written. */
  datatype Summary = Summary(existingCount: nat, newUrls: seq<Url>, written: nat)

  /** Pages 1..n all answer without raising. */
  predicate AllPagesAnswer(listing: int -> Option<set<Url>>, n: int)
  {
    forall p :: 1 <= p <= n ==> listing(p).Some?
  }

  /** Page p is the first of 1..n whose request raises. */
  predicate FirstRaisingPage(listing: int -> Option<set<Url>>, p: int, n: int)
  {
    1 <= p <= n && listing(p).None? && AllPagesAnswer(listing, p - 1)
  }

  /** Once pages 1..i answered, page i+1 answering with a set extends the frontier by that set's fresh URLs. */
  lemma PageExtends(s: seq<Url>, e: seq<Url>, listing: int -> Option<set<Url>>, existing: set<Url>, i: nat)
    requires AllPagesAnswer(listing, i) && IsFrontier(s, listing, existing, i)
    requires listing(i + 1).Some? && multiset(e) == multiset(listing(i + 1).value - existing)
    ensures AllPagesAnswer(listing, i + 1) && IsFrontier(s + e, listing, existing, i + 1)
  {
    FrontierExtend(s, e, listing, existing, i);
  }

  /** The JSONL store of one site: its records, one per line, in append order. */
  class JsonlFile {
    const path: Path
    var records: seq<Record>

    constructor (path: Path, records: seq<Record>)
      ensures this.path == path && this.records == records
    {
      this.path := path;
      this.records := records;
    }

    /** Appends one record as a new line. */
    method Append(r: Record)
      modifies this
      ensures records == old(records) + [r]
    {
      records := records + [r];
    }
  }

  class Scraper {
    const baseUrl: string
    const outDir: Path
    const site: string
    const maxPages: int
    const jsonlFile: Path
    /**
     * The site strategy's parse_listing_page: the article URLs of a listing
     * page, or None when the request raises.
     */
    const listing: int -> Option<set<Url>>
    /** The site strategy's extract_data. */
    const extract: Doc -> Extracted

    /** The URLs already in the store; set at the start of a run. */
    var existingUrls: set<Url>
    /** Whether a run has set `existingUrls` (before that the attribute does not exist). */
    var existingLoaded: bool

    /** Listing requests, article attempts and waits, in the order they happen. */
    ghost var trace: seq<Event>

    ghost predicate Valid()
    {
      baseUrl != [] && site != [] && maxPages >= 1 && jsonlFile == JsonlFileOf(outDir, site)
    }

    constructor (settings: Settings, listing: int -> Option<set<Url>>, extract: Doc -> Extracted)
      requires ValidSettings(settings)
      ensures Valid()
      ensures baseUrl == settings.baseUrl && outDir == settings.outDir
      ensures site == settings.site && maxPages == settings.maxPages
      ensures this.listing == listing && this.extract == extract
      ensures !existingLoaded && trace == []
    {
      baseUrl := settings.baseUrl;
      outDir := settings.outDir;
      site := settings.site;
      maxPages := settings.maxPages;
      jsonlFile := JsonlFileOf(settings.outDir, settings.site);
      this.listing := listing;
      this.extract := extract;
      existingUrls := {};
      existingLoaded := false;
      trace := [];
    }

    /**
     * Constructing a scraper: the arguments are checked in order and the
     * first failed check is the error; on success the fields hold the
     * given values and the store is `out_dir / (site + ".jsonl")`.
     */
    static method Create(baseUrl: PyValue, outDir: PyValue, site: PyValue, maxPages: PyValue, startingPage: PyValue,
                         listing: int -> Option<set<Url>>, extract: Doc -> Extracted)
      returns (r: Result<Scraper, ConfigError>)
      ensures r.Err? <==> Validate(baseUrl, outDir, site, maxPages, startingPage).Err?
      ensures r.Err? ==> r.error == Validate(baseUrl, outDir, site, maxPages, startingPage).error
      ensures r.Ok? ==>
        fresh(r.value) && r.value.Valid() &&
        r.value.baseUrl == baseUrl.s && r.value.outDir == outDir.p &&
        r.value.site == site.s && r.value.maxPages == maxPages.i &&
        r.value.jsonlFile == JsonlFileOf(outDir.p, site.s) &&
        r.value.listing == listing && r.value.extract == extract &&
        !r.value.existingLoaded && r.value.trace == []
    {
      var checked := Validate(baseUrl, outDir, site, maxPages, startingPage);
      match checked {
        case Err(e) =>
          r := Err(e);
        case Ok(settings) =>
          var s := new Scraper(settings, listing, extract);
          r := Ok(s);
      }
    }

    /**
     * iter_listing_urls: asks listing pages 1..max_pages in turn, whether
     * or not a page comes back empty, and appends each page's URLs that are
     * not in the store, in set order, to one list. A request that raises
     * ends it with that page as the error.
     */
    method IterListingUrls() returns (r: Result<seq<Url>, int>)
      requires Valid() && existingLoaded
      modifies this`trace
      ensures r.Ok? ==> AllPagesAnswer(listing, maxPages)
      ensures r.Ok? ==> IsFrontier(r.value, listing, existingUrls, maxPages)
      ensures r.Ok? ==> trace == old(trace) + ListingTrace(maxPages)
      ensures r.Err? ==> FirstRaisingPage(listing, r.error, maxPages)
      ensures r.Err? ==> trace == old(trace) + ListingTrace(r.error)
    {
      // The requests made so far; they enter the trace when the phase ends.
      ghost var requested: seq<Event> := [];
      var existing := existingUrls;
      var newUrls := [];
      for i := 0 to maxPages
        invariant AllPagesAnswer(listing, i)
        invariant IsFrontier(newUrls, listing, existing, i)
        invariant requested == ListingTrace(i) && trace == old(trace)
      {
        requested := requested + [ListingRequested(i + 1)];
        assert requested == ListingTrace(i + 1);
        var urls := listing(i + 1);
        if urls.None? {
          trace := trace + requested;
          return Err(i + 1);
        }
        var ordered := Enumerate(urls.value - existing);
        PageExtends(newUrls, ordered, listing, existing, i);
        newUrls := newUrls + ordered;
      }
      trace := trace + requested;
      return Ok(newUrls);
    }

    /**
     * The article loop of run: attempts each URL once, in order. A failure
     * is caught and the loop goes on; a non-empty record is appended and
     * counted; every attempt is followed by a wait.
     */
    method ScrapeArticles(world: World, file: JsonlFile, newUrls: seq<Url>) returns (written: nat)
      modifies this`trace, file
      ensures trace == old(trace) + ArticleTrace(newUrls, Outcomes(world, extract, newUrls))
      ensures file.records == old(file.records) + WrittenOf(Outcomes(world, extract, newUrls))
      ensures written == |WrittenOf(Outcomes(world, extract, newUrls))| <= |newUrls|
    {
      ghost var os := Outcomes(world, extract, newUrls);
      // The attempts made so far; they enter the trace when the loop ends.
      ghost var attempts: seq<Event> := [];
      written := 0;
      for k := 0 to |newUrls|
        invariant attempts == ArticleTraceBy(newUrls, os, k) && trace == old(trace)
        invariant file.records == old(file.records) + WrittenBy(os, k)
        invariant written == |WrittenBy(os, k)|
      {
        var url := newUrls[k];
        ghost var outcome: Outcome;
        var parsed := ParseArticlePage(world.getSoup(k, url), extract);
        match parsed {
          case ParseFailed(NoDocument) =>
            outcome := FetchFailed;
          case ParseFailed(ExtractionRaised) =>
            outcome := ExtractFailed;
          case Parsed(data) =>
            if Truthy(data) {
              if world.appendSucceeds(k, data.value) {
                file.Append(data.value);
                written := written + 1;
                outcome := Written(data.value);
              } else {
                outcome := AppendFailed;
              }
            } else {
              outcome := EmptyRecord;
            }
        }
        assert outcome == os[k];
        // espera(): the wait follows the attempt, whatever its outcome
        attempts := attempts + [ArticleAttempted(url, outcome), Waited];
      }
      trace := trace + attempts;
      WrittenBound(os);
    }

    /**
     * run: loads the store's URLs and computes the frontier (either step
     * raising ends the run), then runs the article loop over the frontier.
     * The counts the source prints are returned.
     */
    method Run(world: World, file: JsonlFile) returns (r: Result<Summary, RunError>)
      requires Valid() && file.path == jsonlFile
      modifies this`existingUrls, this`existingLoaded, this`trace, file
      ensures world.existing.None? ==>
        r == Err(StoreUnreadable) && trace == old(trace) && file.records == old(file.records) &&
        existingLoaded == old(existingLoaded) && existingUrls == old(existingUrls)
      ensures world.existing.Some? ==> existingLoaded && existingUrls == world.existing.value
      ensures world.existing.Some? && r.Err? ==>
        r.error.ListingRaised? && FirstRaisingPage(listing, r.error.page, maxPages) &&
        trace == old(trace) + ListingTrace(r.error.page) && file.records == old(file.records)
      ensures r.Ok? ==>
        world.existing.Some? && AllPagesAnswer(listing, maxPages) &&
        r.value.existingCount == |world.existing.value| &&
        IsFrontier(r.value.newUrls, listing, world.existing.value, maxPages)
      ensures r.Ok? ==>
        var os := Outcomes(world, extract, r.value.newUrls);
        trace == old(trace) + ListingTrace(maxPages) + ArticleTrace(r.value.newUrls, os) &&
        file.records == old(file.records) + WrittenOf(os) &&
        r.value.written == |WrittenOf(os)| <= |r.value.newUrls|
    {
      if world.existing.None? {
        return Err(StoreUnreadable);
      }
      existingUrls := world.existing.value;
      existingLoaded := true;
      var frontier := IterListingUrls();
      if frontier.Err? {
        return Err(ListingRaised(frontier.error));
      }
      var newUrls := frontier.value;
      var written := ScrapeArticles(world, file, newUrls);
      return Ok(Summary(|existingUrls|, newUrls, written));
    }
  }
}
