/**
 The gateway's own sitemap: every page the crawler finds on the source site is listed
 under the gateway's base URL with the same path, with defaults filled in, and the
 gateway's homepage is forced to priority 1.0 and daily change frequency.
 */
module MirrorSitemap {
  import opened Wrappers
  import opened Seqs
  import opened Platform
  import opened SitemapCrawler

  const DefaultChangeFrequency: string := "weekly"
  const DefaultPriority: real := 0.5
  const HomeChangeFrequency: string := "daily"
  /** The priority of the `/platform` entry in the basic sitemap. */
  const PlatformPriority: real := 0.8

  /**
   One entry of the emitted sitemap. `lastModified` is the source `lastmod` text, `None`
   standing for the time of generation.
   */
  datatype SitemapEntry = SitemapEntry(url: string, lastModified: Option<string>, changeFrequency: string, priority: real)

  /** `page.changefreq || "weekly"` */
  function ChangeFrequencyOf(page: SitemapPage): (r: string)
    ensures page.changefreq.None? || page.changefreq == Some("") ==> r == DefaultChangeFrequency
    ensures page.changefreq.Some? && page.changefreq.value != "" ==> r == page.changefreq.value
  {
    if page.changefreq.Some? && page.changefreq.value != "" then page.changefreq.value else DefaultChangeFrequency
  }

  /** `page.priority || 0.5`: a missing or zero priority becomes 0.5. */
  function PriorityOrDefault(page: SitemapPage): (r: real)
    ensures page.priority.None? || page.priority == Some(0.0) ==> r == DefaultPriority
    ensures page.priority.Some? && page.priority.value != 0.0 ==> r == page.priority.value
  {
    if page.priority.Some? && page.priority.value != 0.0 then page.priority.value else DefaultPriority
  }

  /** `page.lastmod ? new Date(page.lastmod) : new Date()`: a missing or empty `lastmod` becomes `None`, the time of generation. */
  function LastModifiedOf(page: SitemapPage): (r: Option<string>)
    ensures page.lastmod.None? || page.lastmod == Some("") ==> r.None?
    ensures page.lastmod.Some? && page.lastmod.value != "" ==> r == page.lastmod
  {
    if page.lastmod.Some? && page.lastmod.value != "" then page.lastmod else None
  }

  /** One source page on the gateway: its path under `baseUrl`; `None` where `new URL(page.url)` throws. */
  function MapPage(env: Env, baseUrl: string, page: SitemapPage): (r: Option<SitemapEntry>)
    ensures r.None? <==> env.parseUrl(page.url).None?
    ensures r.Some? && env.parseUrl(page.url).value.pathname == "/" ==> r.value.url == baseUrl
    ensures r.Some? && env.parseUrl(page.url).value.pathname != "/" ==>
              r.value.url == baseUrl + env.parseUrl(page.url).value.pathname
    ensures r.Some? ==> r.value.lastModified == LastModifiedOf(page)
    ensures r.Some? ==> r.value.changeFrequency == ChangeFrequencyOf(page) && r.value.priority == PriorityOrDefault(page)
  {
    match env.parseUrl(page.url)
    case None => None
    case Some(u) =>
      var url := if u.pathname == "/" then baseUrl else baseUrl + u.pathname;
      Some(SitemapEntry(url, LastModifiedOf(page), ChangeFrequencyOf(page), PriorityOrDefault(page)))
  }

  /** The `map` over all source pages; one throwing page makes the whole mapping throw (`None`). */
  function MapPages(env: Env, baseUrl: string, pages: seq<SitemapPage>): (r: Option<seq<SitemapEntry>>)
    ensures r.None? <==> exists i :: 0 <= i < |pages| && MapPage(env, baseUrl, pages[i]).None?
    ensures r.Some? ==> |r.value| == |pages|
    ensures r.Some? ==> forall i :: 0 <= i < |pages| ==> MapPage(env, baseUrl, pages[i]) == Some(r.value[i])
    decreases |pages|
  {
    if pages == [] then Some([])
    else
      assert forall i :: 1 <= i < |pages| ==> pages[i] == pages[1..][i - 1];
      match MapPage(env, baseUrl, pages[0])
      case None => None
      case Some(e) =>
        match MapPages(env, baseUrl, pages[1..])
        case None => None
        case Some(rest) => Some([e] + rest)
  }

  /** The homepage test: `entry.url === baseUrl || entry.url === baseUrl + "/"`. */
  predicate IsHomeEntry(baseUrl: string, e: SitemapEntry) {
    e.url == baseUrl || e.url == baseUrl + "/"
  }

  function HomeEntry(baseUrl: string): SitemapEntry {
    SitemapEntry(baseUrl, None, HomeChangeFrequency, HomePriority)
  }

  /** Holds for the entry `findIndex` selects as the homepage. */
  function HomeTest(baseUrl: string): SitemapEntry -> bool {
    e => IsHomeEntry(baseUrl, e)
  }

  /**
   Forces the first homepage entry to priority 1.0 and daily, leaving every other entry
   unchanged; when there is none, prepends a fresh homepage entry.
   */
  function PromoteHome(baseUrl: string, entries: seq<SitemapEntry>): (r: seq<SitemapEntry>)
    ensures FindIndex(HomeTest(baseUrl), entries).Some? ==>
              var k := FindIndex(HomeTest(baseUrl), entries).value;
              && |r| == |entries|
              && r[k] == entries[k].(priority := HomePriority, changeFrequency := HomeChangeFrequency)
              && (forall i :: 0 <= i < |r| && i != k ==> r[i] == entries[i])
    ensures FindIndex(HomeTest(baseUrl), entries).None? ==> r == [HomeEntry(baseUrl)] + entries
    ensures exists i :: 0 <= i < |r| && IsHomeEntry(baseUrl, r[i])
                        && r[i].priority == HomePriority && r[i].changeFrequency == HomeChangeFrequency
  {
    match FindIndex(HomeTest(baseUrl), entries)
    case Some(k) =>
      var r := entries[k := entries[k].(priority := HomePriority, changeFrequency := HomeChangeFrequency)];
      assert IsHomeEntry(baseUrl, r[k]);
      r
    case None =>
      var r := [HomeEntry(baseUrl)] + entries;
      assert IsHomeEntry(baseUrl, r[0]);
      r
  }

  /** The basic sitemap used when the source pages cannot be mapped. */
  function FallbackSitemap(baseUrl: string): seq<SitemapEntry> {
    [HomeEntry(baseUrl), SitemapEntry(baseUrl + "/platform", None, DefaultChangeFrequency, PlatformPriority)]
  }

  /** A mapped entry is never `baseUrl + "/"`: the root path maps to `baseUrl` itself. */
  lemma {:induction false} NoSlashHome(env: Env, baseUrl: string, pages: seq<SitemapPage>, entries: seq<SitemapEntry>)
    requires MapPages(env, baseUrl, pages) == Some(entries)
    ensures forall i :: 0 <= i < |entries| ==> entries[i].url != baseUrl + "/"
  {
    forall i | 0 <= i < |entries|
      ensures entries[i].url != baseUrl + "/"
    {
      var u := env.parseUrl(pages[i].url).value;
      assert (baseUrl + "/")[|baseUrl|..] == "/";
      if u.pathname != "/" {
        assert (baseUrl + u.pathname)[|baseUrl|..] == u.pathname;
      }
    }
  }

  /**
   The sitemap built from the crawled source pages: the mapped pages with the homepage
   promoted or inserted, or the two-entry basic sitemap when mapping throws. It always
   lists `baseUrl` itself at priority 1.0, daily.
   */
  function MirrorPages(env: Env, baseUrl: string, pages: seq<SitemapPage>): (r: seq<SitemapEntry>)
    ensures MapPages(env, baseUrl, pages).None? ==> r == FallbackSitemap(baseUrl)
    ensures MapPages(env, baseUrl, pages).Some? ==>
              r == PromoteHome(baseUrl, MapPages(env, baseUrl, pages).value)
    ensures MapPages(env, baseUrl, pages).Some? ==> |r| == |pages| || |r| == |pages| + 1
    ensures exists i :: 0 <= i < |r| && r[i].url == baseUrl
                        && r[i].priority == HomePriority && r[i].changeFrequency == HomeChangeFrequency
  {
    match MapPages(env, baseUrl, pages)
    case None =>
      var r := FallbackSitemap(baseUrl);
      assert r[0].url == baseUrl;
      r
    case Some(entries) =>
      NoSlashHome(env, baseUrl, pages, entries);
      var r := PromoteHome(baseUrl, entries);
      match FindIndex(HomeTest(baseUrl), entries)
      case Some(k) =>
        assert HomeTest(baseUrl)(entries[k]);
        assert r[k].url == entries[k].url == baseUrl;
        r
      case None =>
        assert r[0] == HomeEntry(baseUrl);
        r
  }

  /** `sitemap()`: the gateway sitemap for `baseUrl`, mirroring the pages found on `sourceUrl`. */
  function Sitemap(env: Env, baseUrl: string, sourceUrl: string): (r: seq<SitemapEntry>)
    ensures |r| >= 1
    ensures exists i :: 0 <= i < |r| && r[i].url == baseUrl && r[i].priority == HomePriority
  {
    MirrorPages(env, baseUrl, FetchSitemapPages(env, sourceUrl))
  }
}
