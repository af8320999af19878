# Incremental crawl engine — Dafny model

This project models the generic crawl engine of a news-site scraper: the
abstract class `Scraper` in `src/scraping/scraper.py`. It proves properties of
that model. A scraper is built from a base URL, an output directory, a site
name, a page budget and a starting page. It checks these arguments and names
its store `out_dir / (site + ".jsonl")`. A run then does three things:

1. It loads the URLs already in the store.
2. It asks the site strategy for listing pages 1..`max_pages` and keeps each
   page's URLs that are not stored yet. The result is the *frontier*.
3. It attempts every frontier URL in order: fetch, extract a record, append
   the record when it is non-empty. A failure of one URL is caught, and a
   rate-limit wait follows every attempt.

The modules follow that structure:

- `CrawlTypes` (`crawl_types.dfy`): URLs, JSON records, parsed pages, paths,
  `Option` and `Result`.
- `Config` (`config.dfy`): the constructor's argument checks, as a function
  from the caller's values to the settings kept or the first failed check,
  and the store path.
- `Frontier` (`frontier.dfy`): what a frontier is. Page n's fresh URLs are
  appended, each once and in an order nothing fixes, after the frontier of
  pages 1..n-1. Its count, membership and length are proved, and so is the
  absence of cross-page deduplication.
- `Articles` (`articles.dfy`): one article attempt and its outcome
  (`FetchFailed | ExtractFailed | EmptyRecord | AppendFailed | Written`). It
  also holds the records a sequence of attempts writes, with their
  properties.
- `Trace` (`trace.dfy`): the event log of a run. It holds the listing
  requests of the listing phase, then each article attempt followed by its
  wait.
- `Scraping` (`scraper.dfy`): the `Scraper` class with its fields, `Create`,
  `IterListingUrls` (a loop over the pages), `ScrapeArticles` (a loop over
  the frontier) and `Run`. The JSONL store is an append-only `JsonlFile`
  object. A ghost `trace` records listing requests, attempts and waits in
  order.

The collaborators the engine calls are inputs to the model:

- The site strategy's `parse_listing_page` and `extract_data` are functions
  held by the scraper. A listing request that raises is `None`.
- `get_soup`, `load_existing_urls` and the success of `append_on_jsonl` are
  the answers in a `World` value. The page fetch and the append are indexed
  by the attempt number.

## Model

| member | source | states |
|---|---|---|
| Config.Validate | src/scraping/scraper.py:19-36 | construction succeeds iff base_url is a non-empty string, out_dir a Path, site a non-empty string and max_pages and starting_page integers ≥ 1; otherwise the error is the first failed check in source order; on success the kept settings are exactly the given values |
| Config.StartingPageIgnored | src/scraping/scraper.py:28-36 | any two valid starting pages give the same construction result: the starting page is checked but not kept |
| Config.JsonlFileOf | src/scraping/scraper.py:37 | the store path is the output directory with one more component, `site + ".jsonl"` |
| Config.JsonlFileInjective | src/scraping/scraper.py:37 | two different (output directory, site) pairs, with sites that hold no path separator, never share a store path |
| Frontier.Enumerate | src/scraping/scraper.py:71-72 | lists a set's elements, each exactly once (same multiset), in an unspecified order |
| Frontier.FrontierExtend | src/scraping/scraper.py:67-73 | appending an enumeration of page n+1's fresh URLs to a frontier of pages 1..n gives a frontier of pages 1..n+1 |
| Frontier.FrontierCount | src/scraping/scraper.py:67-73 | a URL occurs in the frontier as often as the reference bag counts it: once per page that lists it while it is not stored |
| Frontier.FrontierIsBag | src/scraping/scraper.py:67-73 | the frontier, as a multiset, is the sum of the pages' fresh sets |
| Frontier.BagPositive | src/scraping/scraper.py:69-71 | a URL is queued for some page iff it is not stored and some page 1..n lists it |
| Frontier.FrontierExcludesExisting | src/scraping/scraper.py:71 | no frontier URL is already in the store |
| Frontier.FrontierMembership | src/scraping/scraper.py:67-73 | a URL is in the frontier iff some page 1..n lists it and the store does not hold it |
| Frontier.FrontierLength | src/scraping/scraper.py:67-73 | the frontier's length is the size of the reference bag, and page n adds exactly its number of fresh URLs to the length for pages 1..n-1: the sum over pages of the fresh counts |
| Frontier.EmptyListingsEmptyFrontier | src/scraping/scraper.py:67-73 | when every page lists nothing, the frontier is empty |
| Frontier.CrossPageDuplicateQueuedTwice | src/scraping/scraper.py:72 | page 1 = {A, B} and page 2 = {B, C} with an empty store give a frontier of length 4 with B twice: no deduplication across pages |
| Frontier.BagShrinksAsStoreGrows | src/scraping/scraper.py:71 | a larger store never queues any URL more often |
| Frontier.NothingRequeuedOnceStored | src/scraping/scraper.py:71 | once a run's frontier is in the store, a later run over the same listings queues nothing |
| Articles.ParseArticlePage | src/scraping/scraper.py:83-86 | raises iff the fetcher gave no document, or the strategy raised on it; otherwise returns exactly what extract_data returned for that document |
| Articles.OutcomeAt | src/scraping/scraper.py:97-103 | an attempt writes iff the page was fetched, extraction returned a truthy record and the append returned; an empty record is skipped; a written record is non-empty and is the extracted one |
| Trace.ListingTraceInOrder | src/scraping/scraper.py:68-69 | the listing log requests pages 1..n each once, in increasing order |
| Trace.ArticleTraceByShape | src/scraping/scraper.py:97-105 | the first k attempts log attempt i at position 2i and a wait right after it |
| Trace.ArticleTraceShape | src/scraping/scraper.py:97-105 | every frontier URL is attempted exactly once, in frontier order, whatever earlier attempts did, each followed by one wait |
| Trace.WaitsBy | src/scraping/scraper.py:105 | the first k attempts wait exactly k times |
| Trace.WaitsPerAttempt | src/scraping/scraper.py:105 | the article phase waits exactly once per frontier URL |
| Articles.WrittenByPrefix | src/scraping/scraper.py:97-102 | what the first k attempts write does not depend on later attempts |
| Articles.WrittenBySuffix | src/scraping/scraper.py:97-102 | attempts after a stretch add exactly what they write on their own |
| Articles.WrittenOfAppend | src/scraping/scraper.py:101 | the records written by two consecutive stretches of attempts concatenate |
| Articles.WrittenByBound | src/scraping/scraper.py:96-102 | k attempts write at most k records, and exactly k iff each of them wrote |
| Articles.WrittenBound | src/scraping/scraper.py:96-102 | written_urls ≤ len(new_urls), with equality iff every attempt wrote |
| Articles.WrittenByMembership | src/scraping/scraper.py:99-102 | a record is among those of the first k attempts iff one of them wrote it |
| Articles.WrittenMembership | src/scraping/scraper.py:99-102 | a record is appended iff some attempt wrote it |
| Articles.WrittenPosition | src/scraping/scraper.py:97-102 | a writing attempt's record follows exactly the records of the attempts before it |
| Articles.WrittenInOrder | src/scraping/scraper.py:97-102 | records reach the store in frontier order |
| Articles.FailureIsolated | src/scraping/scraper.py:98-104 | a failed or empty attempt leaves what the other attempts write unchanged |
| Articles.WrittenRecordsNonEmpty | src/scraping/scraper.py:100 | every appended record is non-empty |
| Articles.SecondFetchFails | src/scraping/scraper.py:97-105 | with three URLs where the second fetch fails, the store receives the first and third records, in that order |
| Scraping.PageExtends | src/scraping/scraper.py:68-72 | a page that answers keeps all pages answered so far and extends the frontier by its fresh URLs |
| Scraping.JsonlFile.Append | src/scraping/scraper.py:101 | appending adds exactly one record at the end of the store |
| Scraping.Scraper.constructor | src/scraping/scraper.py:33-37 | the fields hold the validated settings and the store path derived from them; nothing is loaded yet |
| Scraping.Scraper.Create | src/scraping/scraper.py:19-37 | construction fails exactly as the checks say, with the same error; on success a new scraper holds the given values and store path |
| Scraping.Scraper.IterListingUrls | src/scraping/scraper.py:59-73 | requests pages 1..max_pages in order; if all answer, returns a frontier of those pages; if one raises, stops at the first raising page, after requesting exactly the pages up to it |
| Scraping.Scraper.ScrapeArticles | src/scraping/scraper.py:96-105 | attempts each URL once, in order, each followed by a wait; the store grows by exactly the records the attempts wrote, in order; the count returned is their number and at most the number of URLs |
| Scraping.Scraper.Run | src/scraping/scraper.py:88-105 | an unreadable store ends the run with nothing changed; a raising listing page ends it after the listing requests up to that page and before any article; otherwise the loaded URLs become `existingUrls`, the returned URLs are a frontier of pages 1..max_pages over them, each is attempted once in order after all listing requests, and the store grows by exactly the counted records, whose number is at most the frontier length |

## Left out

- `build_session`, `get_soup` and all network I/O: the fetcher is given as its answer per attempt (`World.getSoup`). A `get_soup` that raises and one that returns nothing are one case, since both end the attempt before extraction.
- `load_existing_urls`: its result is given (`World.existing`). How the URL set is read back from the store's records depends on a site-specific key in `utils.constants`, which is not part of this model. So the model does not tie the loaded set to `JsonlFile.records`.
- `append_on_jsonl`: its success is given (`World.appendSucceeds`). A failed append leaves the store unchanged; a partially written line is not modelled.
- `os.makedirs` and `build_session` in the constructor (lines 38-39): either can raise after every argument check has passed, for example when `out_dir` names an existing regular file. That construction failure is not modelled, so `Scraping.Scraper.Create` succeeds whenever `Config.Validate` does.
- `espera`: the real-time sleep is modelled only as a `Waited` event in the ghost trace.
- `tqdm` progress bars and the `print` lines (89, 90, 92, 94, 104, 107-108): presentation only. `Run` returns the counts that those lines print.
- `FetchResult` (lines 11-15): an unused declaration.
- Concrete site strategies: `parse_listing_page` and `extract_data` are functions given to the scraper. They are deterministic in the page and the document, and a listing request's failure is `None`.
- Config.Validate: Python typing quirks are not modelled: `True` passing `isinstance(max_pages, int)`, and `max_pages=0` failing via falsiness as well as `< 1` (both give the same error). Exception message texts are not modelled either.
- Articles.OutcomeAt: `extract_data` is modelled as returning a dictionary or `None`. A truthy non-dictionary value, which `append_on_jsonl` would receive, is not modelled.
- Config.JsonlFileOf: a path is its list of components. pathlib's handling of separators or of an absolute right-hand side is not modelled.
- Config.JsonlFileInjective: holds only for sites without a `/`. pathlib's `/` splits a site such as `b/c` into components, drops `.` components and re-roots on an absolute site, so `Path('a')` with `b/c` and `Path('a/b')` with `c` share `a/b/c.jsonl`. The output directories are taken to be pathlib paths, whose components are already normalised.
- The duplicated `starting_page` check (lines 28-31) is modelled once, since the two checks are identical. The starting page is not kept and pagination starts at page 1 (Config.StartingPageIgnored).
- The comment on line 70 says that only URLs not seen before are added. That holds against the store, but a URL listed on two pages is added twice, and the model follows the code (Frontier.CrossPageDuplicateQueuedTwice).
- Frontier.NothingRequeuedOnceStored: the "never re-scrape a stored URL" guarantee is proved only given that the next run's loaded set holds the earlier frontier. That link goes through `load_existing_urls`, which is outside the model.
- Scraping.Scraper.IterListingUrls: it requires a loaded store (`existingLoaded`). Calling it before `run` raises `AttributeError` in the source, and that path is not modelled.
- Scraping.Scraper.IterListingUrls: the ghost trace receives the listing requests when the listing phase ends, not one at a time. The recorded sequence is the same.
- Scraping.Scraper.ScrapeArticles: the ghost trace receives the attempts and waits when the loop ends, not one at a time. The recorded sequence is the same.
