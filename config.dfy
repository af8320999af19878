/**
 * Construction of a crawler: the checks on its arguments and the path of
 * the JSONL store derived from the output directory and the site name.
 */
module Config {
  import opened CrawlTypes

  /**
   * An argument as the caller passes it. Only the kinds of value that the
   * constructor's checks tell apart are distinguished; `PyNone` is the
   * default of base_url, out_dir and site.
   */
  datatype PyValue = PyNone | PyStr(s: string) | PyInt(i: int) | PyPath(p: Path) | PyOther

  /** The ValueError the constructor raises, one per check. */
  datatype ConfigError = BadBaseUrl | BadOutDir | BadSite | BadMaxPages | BadStartingPage

  /** What a successful construction keeps. The starting page is not among it. */
  datatype Settings = Settings(baseUrl: string, outDir: Path, site: string, maxPages: int)

  /** A string that is not empty (`not v or not isinstance(v, str)` fails). */
  predicate IsNonEmptyString(v: PyValue)
  {
    v.PyStr? && v.s != []
  }

  /** An integer of at least 1 (0 is falsy and also fails `< 1`). */
  predicate IsPositiveInt(v: PyValue)
  {
    v.PyInt? && v.i >= 1
  }

  predicate ValidSettings(s: Settings)
  {
    s.baseUrl != [] && s.site != [] && s.maxPages >= 1
  }

  /**
   * The checks of the constructor, in their order: the first one that fails
   * decides the error. The starting page is checked (twice in the source,
   * with the same condition) but dropped.
   */
  function Validate(baseUrl: PyValue, outDir: PyValue, site: PyValue, maxPages: PyValue, startingPage: PyValue)
    : (r: Result<Settings, ConfigError>)
    ensures r.Ok? <==>
      IsNonEmptyString(baseUrl) && outDir.PyPath? && IsNonEmptyString(site) &&
      IsPositiveInt(maxPages) && IsPositiveInt(startingPage)
    ensures r.Ok? ==> ValidSettings(r.value)
    ensures r.Ok? ==> r.value == Settings(baseUrl.s, outDir.p, site.s, maxPages.i)
    ensures r == Err(BadBaseUrl) <==> !IsNonEmptyString(baseUrl)
    ensures r == Err(BadOutDir) <==> IsNonEmptyString(baseUrl) && !outDir.PyPath?
    ensures r == Err(BadSite) <==>
      IsNonEmptyString(baseUrl) && outDir.PyPath? && !IsNonEmptyString(site)
    ensures r == Err(BadMaxPages) <==>
      IsNonEmptyString(baseUrl) && outDir.PyPath? && IsNonEmptyString(site) && !IsPositiveInt(maxPages)
  {
    if !IsNonEmptyString(baseUrl) then Err(BadBaseUrl)
    else if !outDir.PyPath? then Err(BadOutDir)
    else if !IsNonEmptyString(site) then Err(BadSite)
    else if !IsPositiveInt(maxPages) then Err(BadMaxPages)
    else if !IsPositiveInt(startingPage) then Err(BadStartingPage)
    else Ok(Settings(baseUrl.s, outDir.p, site.s, maxPages.i))
  }

  /** The starting page never changes what a successful construction keeps. */
  lemma StartingPageIgnored(baseUrl: PyValue, outDir: PyValue, site: PyValue, maxPages: PyValue, p1: PyValue, p2: PyValue)
    requires IsPositiveInt(p1) && IsPositiveInt(p2)
    ensures Validate(baseUrl, outDir, site, maxPages, p1) == Validate(baseUrl, outDir, site, maxPages, p2)
  {
  }

  /** The store of a site: `out_dir / (site + ".jsonl")`, one component below the output directory. */
  function JsonlFileOf(outDir: Path, site: string): (p: Path)
    ensures |p.parts| == |outDir.parts| + 1
    ensures p.parts[..|outDir.parts|] == outDir.parts
    ensures p.parts[|outDir.parts|] == site + ".jsonl"
  {
    Path(outDir.parts + [site + ".jsonl"])
  }

  /**
   * Two sites without a path separator, or two output directories, never
   * share a store. A site holding a separator would be split into several
   * components by the join, so it is excluded.
   */
  lemma {:induction false} JsonlFileInjective(d1: Path, s1: string, d2: Path, s2: string)
    requires '/' !in s1 && '/' !in s2
    requires JsonlFileOf(d1, s1) == JsonlFileOf(d2, s2)
    ensures d1 == d2 && s1 == s2
  {
    var p := JsonlFileOf(d1, s1);
    assert |d1.parts| == |d2.parts|;
    assert d1.parts == p.parts[..|d1.parts|] == d2.parts;
    var n1, n2 := s1 + ".jsonl", s2 + ".jsonl";
    assert n1 == n2;
    assert |s1| == |s2|;
    assert s1 == n1[..|s1|] == n2[..|s2|] == s2;
  }
}
