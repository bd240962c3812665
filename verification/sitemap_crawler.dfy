/**
 The sitemap crawler: reads `{base}/sitemap.xml` (a sitemap index or a regular
 sitemap in the Sitemaps XML format 0.9), falls back to collecting same-origin links
 from the homepage, and projects the resulting page URLs to route paths.
 */
module SitemapCrawler {
  import opened Wrappers
  import opened Seqs
  import opened Strings
  import opened Platform

  /** At most this many child sitemaps of an index are fetched. */
  const MaxChildSitemaps: nat := 10
  const HomePriority: real := 1.0
  const LinkPriority: real := 0.8

  datatype SitemapPage = SitemapPage(
    url: string,
    priority: Option<real>,
    changefreq: Option<string>,
    lastmod: Option<string>)

  function SitemapUrl(baseUrl: string): string {
    baseUrl + "/sitemap.xml"
  }

  // ---------------------------------------------------------------------------
  // Regular sitemaps

  /** `text || undefined`: the empty text is absent. */
  function TextOrAbsent(text: string): (r: Option<string>)
    ensures r.None? <==> text == ""
    ensures r.Some? ==> r.value == text
  {
    if text == "" then None else Some(text)
  }

  /** `parseFloat(text) || undefined`: a NaN and a zero priority are both absent. */
  function PriorityOf(env: Env, text: string): (r: Option<real>)
    ensures r.None? <==> env.parseFloat(text).None? || env.parseFloat(text).value == 0.0
    ensures r.Some? ==> env.parseFloat(text) == r
  {
    match env.parseFloat(text)
    case None => None
    case Some(v) => if v == 0.0 then None else Some(v)
  }

  predicate HasLoc(e: UrlEntry) {
    e.loc != ""
  }

  function ToPage(env: Env, e: UrlEntry): SitemapPage {
    SitemapPage(e.loc, PriorityOf(env, e.priority), TextOrAbsent(e.changefreq), TextOrAbsent(e.lastmod))
  }

  /**
   The pages of one regular sitemap, pushed one `<url>` at a time: exactly one page per
   entry with a non-empty `loc`, in document order.
   */
  function PagesOf(env: Env, entries: seq<UrlEntry>): (r: seq<SitemapPage>)
    ensures |r| == |Filter(HasLoc, entries)|
    ensures forall i :: 0 <= i < |r| ==> r[i] == ToPage(env, Filter(HasLoc, entries)[i])
    ensures forall i :: 0 <= i < |r| ==> r[i].url != ""
    decreases |entries|
  {
    if entries == [] then []
    else if entries[0].loc != "" then [ToPage(env, entries[0])] + PagesOf(env, entries[1..])
    else PagesOf(env, entries[1..])
  }

  /** `fetchSingleSitemap`; `None` stands for the thrown error of a failed request. */
  function FetchSingleSitemap(env: Env, url: string): (r: Option<seq<SitemapPage>>)
    ensures r.None? <==> Fetch(env, url).None?
    ensures r.Some? ==> forall i :: 0 <= i < |r.value| ==> r.value[i].url != ""
    ensures r.Some? ==>
              var entries := env.parseXml(Fetch(env, url).value).urls;
              |r.value| == |Filter(HasLoc, entries)| &&
              forall i :: 0 <= i < |r.value| ==> r.value[i] == ToPage(env, Filter(HasLoc, entries)[i])
  {
    match Fetch(env, url)
    case None => None
    case Some(body) => Some(PagesOf(env, env.parseXml(body).urls))
  }

  // ---------------------------------------------------------------------------
  // Sitemap indexes

  predicate IsNonEmpty(s: string) {
    s != ""
  }

  /** The child sitemaps that are fetched: the first ten non-empty `sitemap loc` texts. */
  function ChildSitemaps(doc: XmlDoc): (r: seq<string>)
    ensures |r| == Min(MaxChildSitemaps, |Filter(IsNonEmpty, doc.sitemapLocs)|)
    ensures r <= Filter(IsNonEmpty, doc.sitemapLocs)
    ensures forall i :: 0 <= i < |r| ==> r[i] != "" && r[i] in doc.sitemapLocs
  {
    FirstMatching(IsNonEmpty, doc.sitemapLocs, MaxChildSitemaps)
  }

  /** The pages one child contributes: a failed child is logged and contributes nothing. */
  function ChildPages(env: Env, url: string): seq<SitemapPage> {
    FetchSingleSitemap(env, url).GetOr([])
  }

  /** The `for … of` loop over the child sitemaps, appending each child's pages. */
  function CollectChildren(env: Env, urls: seq<string>): seq<SitemapPage>
    decreases |urls|
  {
    if urls == [] then [] else ChildPages(env, urls[0]) + CollectChildren(env, urls[1..])
  }

  /** Children are concatenated in listing order. */
  lemma {:induction false} CollectChildrenAppend(env: Env, a: seq<string>, b: seq<string>)
    ensures CollectChildren(env, a + b) == CollectChildren(env, a) + CollectChildren(env, b)
    decreases |a|
  {
    if a != [] {
      assert (a + b)[0] == a[0];
      assert (a + b)[1..] == a[1..] + b;
      CollectChildrenAppend(env, a[1..], b);
    } else {
      assert a + b == b;
    }
  }

  /** A failing child contributes nothing and does not stop the children after it. */
  lemma FailingChildSkipped(env: Env, before: seq<string>, url: string, after: seq<string>)
    requires Fetch(env, url).None?
    ensures CollectChildren(env, before + [url] + after)
         == CollectChildren(env, before) + CollectChildren(env, after)
  {
    CollectChildrenAppend(env, before + [url], after);
    CollectChildrenAppend(env, before, [url]);
    assert ChildPages(env, url) == [];
    assert [url][1..] == [];
    assert CollectChildren(env, [url]) == [];
    assert CollectChildren(env, before + [url]) == CollectChildren(env, before);
  }

  /** The number of pages collected is the sum of the children's page counts. */
  function ChildCount(env: Env, urls: seq<string>): nat
    decreases |urls|
  {
    if urls == [] then 0 else |ChildPages(env, urls[0])| + ChildCount(env, urls[1..])
  }

  lemma {:induction false} CollectChildrenCount(env: Env, urls: seq<string>)
    ensures |CollectChildren(env, urls)| == ChildCount(env, urls)
    decreases |urls|
  {
    if urls != [] {
      CollectChildrenCount(env, urls[1..]);
    }
  }

  /**
   `fetchSitemapIndex`: `None` is the rethrown error. For an index, the pages of at most
   ten children in listing order; otherwise the document is re-fetched as a regular sitemap.
   */
  function FetchSitemapIndex(env: Env, url: string): (r: Option<seq<SitemapPage>>)
    ensures Fetch(env, url).None? ==> r.None?
    ensures Fetch(env, url).Some? && env.parseXml(Fetch(env, url).value).hasIndexRoot ==>
              r.Some? && |r.value| == ChildCount(env, ChildSitemaps(env.parseXml(Fetch(env, url).value)))
    ensures Fetch(env, url).Some? && env.parseXml(Fetch(env, url).value).hasIndexRoot ==>
              r == Some(CollectChildren(env, ChildSitemaps(env.parseXml(Fetch(env, url).value))))
    ensures Fetch(env, url).Some? && !env.parseXml(Fetch(env, url).value).hasIndexRoot ==>
              r == FetchSingleSitemap(env, url)
    ensures r.Some? ==> forall i :: 0 <= i < |r.value| ==> r.value[i].url != ""
  {
    match Fetch(env, url)
    case None => None
    case Some(body) =>
      var doc := env.parseXml(body);
      if doc.hasIndexRoot then
        var children := ChildSitemaps(doc);
        CollectChildrenCount(env, children);
        CollectChildrenUrls(env, children);
        Some(CollectChildren(env, children))
      else FetchSingleSitemap(env, url)
  }

  lemma {:induction false} CollectChildrenUrls(env: Env, urls: seq<string>)
    ensures forall i :: 0 <= i < |CollectChildren(env, urls)| ==> CollectChildren(env, urls)[i].url != ""
    decreases |urls|
  {
    if urls != [] {
      CollectChildrenUrls(env, urls[1..]);
      var head := ChildPages(env, urls[0]);
      assert forall i :: 0 <= i < |head| ==> head[i].url != "";
    }
  }

  // ---------------------------------------------------------------------------
  // Manual discovery

  function Home(baseUrl: string): SitemapPage {
    SitemapPage(baseUrl, Some(HomePriority), None, None)
  }

  function Discovered(url: string): SitemapPage {
    SitemapPage(url, Some(LinkPriority), None, None)
  }

  /** What one `<a href>` leads to: nothing, an uncaught `new URL` error, or a URL to clean. */
  datatype Link = Skip | Abort | Resolved(fullUrl: string)

  /** The case analysis on one `href`, in the order the crawler tests the prefixes. */
  function ResolveHref(env: Env, baseUrl: string, href: string): (r: Link)
    ensures href == "" ==> r == Skip
    ensures href != "" && StartsWith(href, "http") ==>
              (r == Abort <==> env.parseUrl(href).None? || env.parseUrl(baseUrl).None?)
    ensures StartsWith(href, "http") && r.Resolved? ==>
              r.fullUrl == href && env.parseUrl(href).value.origin == env.parseUrl(baseUrl).value.origin
    ensures (StartsWith(href, "http") && env.parseUrl(href).Some? && env.parseUrl(baseUrl).Some?
             && env.parseUrl(href).value.origin != env.parseUrl(baseUrl).value.origin) ==> r == Skip
    ensures (StartsWith(href, "http") && env.parseUrl(href).Some? && env.parseUrl(baseUrl).Some?
             && env.parseUrl(href).value.origin == env.parseUrl(baseUrl).value.origin) ==> r == Resolved(href)
    ensures StartsWith(href, "#") || StartsWith(href, "?") ==> r == Skip
    ensures r == Abort ==> StartsWith(href, "http") || env.parseUrl(baseUrl).None?
    ensures StartsWith(href, "/") ==>
              r == (if env.parseUrl(baseUrl).None? then Abort else Resolved(env.parseUrl(baseUrl).value.origin + href))
    ensures href != "" && !StartsWith(href, "http") && !StartsWith(href, "/") &&
            !StartsWith(href, "#") && !StartsWith(href, "?") ==>
              r == Resolved(StripTrailingSlash(baseUrl) + "/" + href)
  {
    if href == "" then Skip
    else if StartsWith(href, "http") then
      assert href[0] == 'h';
      match env.parseUrl(href)
      case None => Abort
      case Some(link) =>
        match env.parseUrl(baseUrl)
        case None => Abort
        case Some(base) => if link.origin != base.origin then Skip else Resolved(href)
    else if StartsWith(href, "/") then
      assert href[0] == '/';
      match env.parseUrl(baseUrl)
      case None => Abort
      case Some(base) => Resolved(base.origin + href)
    else if StartsWith(href, "#") || StartsWith(href, "?") then Skip
    else Resolved(StripTrailingSlash(baseUrl) + "/" + href)
  }

  /** `origin + pathname` of a resolved URL, query and fragment dropped; `None` when it does not parse (skipped). */
  function CleanUrl(env: Env, fullUrl: string): (r: Option<string>)
    ensures r.None? <==> env.parseUrl(fullUrl).None?
    ensures r.Some? ==> r.value == env.parseUrl(fullUrl).value.origin + env.parseUrl(fullUrl).value.pathname
  {
    match env.parseUrl(fullUrl)
    case None => None
    case Some(u) => Some(u.origin + u.pathname)
  }

  /**
   The reference list of discovered links: every cleaned URL in document order, with
   repetitions; `None` when some `href` aborts the scan.
   */
  function Links(env: Env, baseUrl: string, hrefs: seq<string>): (r: Option<seq<string>>)
    decreases |hrefs|
  {
    if hrefs == [] then Some([])
    else
      match ResolveHref(env, baseUrl, hrefs[0])
      case Abort => None
      case Skip => Links(env, baseUrl, hrefs[1..])
      case Resolved(full) =>
        match Links(env, baseUrl, hrefs[1..])
        case None => None
        case Some(rest) =>
          match CleanUrl(env, full)
          case None => Some(rest)
          case Some(clean) => Some([clean] + rest)
  }

  /** `x` is the `origin + pathname` of some URL the parser accepts: no query, no fragment. */
  ghost predicate IsCleanUrl(env: Env, x: string) {
    exists full :: env.parseUrl(full).Some? && x == env.parseUrl(full).value.origin + env.parseUrl(full).value.pathname
  }

  /** Every discovered link is a cleaned URL, and there are at most as many links as hrefs. */
  lemma {:induction false} LinksAreClean(env: Env, baseUrl: string, hrefs: seq<string>)
    ensures Links(env, baseUrl, hrefs).Some? ==>
              |Links(env, baseUrl, hrefs).value| <= |hrefs| &&
              forall i :: 0 <= i < |Links(env, baseUrl, hrefs).value| ==> IsCleanUrl(env, Links(env, baseUrl, hrefs).value[i])
    decreases |hrefs|
  {
    if hrefs != [] {
      LinksAreClean(env, baseUrl, hrefs[1..]);
      match ResolveHref(env, baseUrl, hrefs[0])
      case Abort =>
      case Skip =>
      case Resolved(full) =>
        match CleanUrl(env, full)
        case None =>
        case Some(clean) =>
          assert IsCleanUrl(env, clean);
    }
  }

  function UrlsOf(pages: seq<SitemapPage>): set<string> {
    set p | p in pages :: p.url
  }

  function DiscoveredAll(urls: seq<string>): (r: seq<SitemapPage>)
    ensures |r| == |urls|
    ensures forall i :: 0 <= i < |r| ==> r[i] == Discovered(urls[i])
  {
    seq(|urls|, i requires 0 <= i < |urls| => Discovered(urls[i]))
  }

  /**
   The `$("a[href]").each` scan with its `foundUrls` set and `pages` array. `None` is an
   error thrown out of the scan.
   */
  function Scan(env: Env, baseUrl: string, hrefs: seq<string>, found: set<string>, pages: seq<SitemapPage>)
    : Option<seq<SitemapPage>>
    decreases |hrefs|
  {
    if hrefs == [] then Some(pages)
    else
      match ResolveHref(env, baseUrl, hrefs[0])
      case Abort => None
      case Skip => Scan(env, baseUrl, hrefs[1..], found, pages)
      case Resolved(full) =>
        match CleanUrl(env, full)
        case None => Scan(env, baseUrl, hrefs[1..], found, pages)
        case Some(clean) =>
          if clean in found then Scan(env, baseUrl, hrefs[1..], found, pages)
          else Scan(env, baseUrl, hrefs[1..], found + {clean}, pages + [Discovered(clean)])
  }

  /** What the scan should produce: the links, de-duplicated against `found`, appended as priority-0.8 pages. */
  function ScanSpec(env: Env, baseUrl: string, hrefs: seq<string>, found: set<string>, pages: seq<SitemapPage>)
    : Option<seq<SitemapPage>>
  {
    match Links(env, baseUrl, hrefs)
    case None => None
    case Some(links) => Some(pages + DiscoveredAll(Dedup(found, links)))
  }

  /**
   The scan with its `found` set equals the reference de-duplication of the links, as
   long as `found` holds exactly the URLs already listed.
   */
  lemma {:induction false} ScanIsDedup(
    env: Env, baseUrl: string, hrefs: seq<string>, found: set<string>, pages: seq<SitemapPage>)
    requires found == UrlsOf(pages)
    ensures Scan(env, baseUrl, hrefs, found, pages) == ScanSpec(env, baseUrl, hrefs, found, pages)
    decreases |hrefs|
  {
    if hrefs != [] {
      var rest := hrefs[1..];
      match ResolveHref(env, baseUrl, hrefs[0])
      case Abort =>
      case Skip =>
        ScanIsDedup(env, baseUrl, rest, found, pages);
      case Resolved(full) =>
        match CleanUrl(env, full)
        case None =>
          ScanIsDedup(env, baseUrl, rest, found, pages);
        case Some(clean) =>
          if clean in found {
            ScanIsDedup(env, baseUrl, rest, found, pages);
            ScanStepSeen(env, baseUrl, hrefs, clean, found, pages);
          } else {
            var pages' := pages + [Discovered(clean)];
            assert UrlsOf(pages') == found + {clean};
            ScanIsDedup(env, baseUrl, rest, found + {clean}, pages');
            ScanStepNew(env, baseUrl, hrefs, clean, found, pages);
          }
    } else {
      assert Dedup(found, []) == [];
      assert pages + DiscoveredAll([]) == pages;
    }
  }

  /** A link already listed leaves the reference unchanged. */
  lemma ScanStepSeen(env: Env, baseUrl: string, hrefs: seq<string>, clean: string, found: set<string>, pages: seq<SitemapPage>)
    requires hrefs != [] && clean in found
    requires ResolveHref(env, baseUrl, hrefs[0]).Resolved?
    requires CleanUrl(env, ResolveHref(env, baseUrl, hrefs[0]).fullUrl) == Some(clean)
    ensures ScanSpec(env, baseUrl, hrefs, found, pages) == ScanSpec(env, baseUrl, hrefs[1..], found, pages)
  {
    match Links(env, baseUrl, hrefs[1..])
    case None =>
    case Some(links) =>
      assert Links(env, baseUrl, hrefs) == Some([clean] + links);
      assert ([clean] + links)[1..] == links;
  }

  /** A new link is listed next, and the rest is de-duplicated against it too. */
  lemma ScanStepNew(env: Env, baseUrl: string, hrefs: seq<string>, clean: string, found: set<string>, pages: seq<SitemapPage>)
    requires hrefs != [] && clean !in found
    requires ResolveHref(env, baseUrl, hrefs[0]).Resolved?
    requires CleanUrl(env, ResolveHref(env, baseUrl, hrefs[0]).fullUrl) == Some(clean)
    ensures ScanSpec(env, baseUrl, hrefs, found, pages)
         == ScanSpec(env, baseUrl, hrefs[1..], found + {clean}, pages + [Discovered(clean)])
  {
    match Links(env, baseUrl, hrefs[1..])
    case None =>
    case Some(links) =>
      assert Links(env, baseUrl, hrefs) == Some([clean] + links);
      assert ([clean] + links)[1..] == links;
      var d := Dedup(found + {clean}, links);
      assert Dedup(found, [clean] + links) == [clean] + d;
      assert DiscoveredAll([clean] + d) == [Discovered(clean)] + DiscoveredAll(d);
      assert pages + [Discovered(clean)] + DiscoveredAll(d) == pages + DiscoveredAll([clean] + d);
  }

  /** No URL is listed twice. */
  predicate DistinctUrls(pages: seq<SitemapPage>) {
    forall i, j :: 0 <= i < j < |pages| ==> pages[i].url != pages[j].url
  }

  /**
   `discoverPagesManually`: the homepage at priority 1.0 followed by each distinct
   cleaned same-origin link at 0.8, in document order; just the homepage when the
   homepage cannot be fetched or the scan throws.
   */
  function DiscoverPagesManually(env: Env, baseUrl: string): (r: seq<SitemapPage>)
    ensures |r| >= 1 && r[0] == Home(baseUrl)
    ensures forall i :: 1 <= i < |r| ==> r[i].priority == Some(LinkPriority) && r[i].url != baseUrl
    ensures DistinctUrls(r)
    ensures Fetch(env, baseUrl).None? ==> r == [Home(baseUrl)]
    ensures Fetch(env, baseUrl).Some? ==>
              var hrefs := env.parseHtml(Fetch(env, baseUrl).value).anchorHrefs;
              match Links(env, baseUrl, hrefs)
              case None => r == [Home(baseUrl)]
              case Some(links) => r == [Home(baseUrl)] + DiscoveredAll(Dedup({baseUrl}, links))
  {
    match Fetch(env, baseUrl)
    case None => [Home(baseUrl)]
    case Some(html) =>
      var hrefs := env.parseHtml(html).anchorHrefs;
      assert UrlsOf([Home(baseUrl)]) == {baseUrl};
      ScanIsDedup(env, baseUrl, hrefs, {baseUrl}, [Home(baseUrl)]);
      assert Scan(env, baseUrl, hrefs, {baseUrl}, [Home(baseUrl)]) == ScanSpec(env, baseUrl, hrefs, {baseUrl}, [Home(baseUrl)]);
      match Scan(env, baseUrl, hrefs, {baseUrl}, [Home(baseUrl)])
      case None => [Home(baseUrl)]
      case Some(pages) =>
        HomeThenDiscoveredDistinct(baseUrl, Dedup({baseUrl}, Links(env, baseUrl, hrefs).value));
        pages
  }

  lemma HomeThenDiscoveredDistinct(baseUrl: string, urls: seq<string>)
    requires Distinct(urls) && baseUrl !in urls
    ensures DistinctUrls([Home(baseUrl)] + DiscoveredAll(urls))
  {
    var r := [Home(baseUrl)] + DiscoveredAll(urls);
    forall i, j | 0 <= i < j < |r|
      ensures r[i].url != r[j].url
    {
      assert r[j].url == urls[j - 1];
      if i > 0 {
        assert r[i].url == urls[i - 1];
      }
    }
  }

  // ---------------------------------------------------------------------------
  // Entry points

  /**
   `fetchSitemapPages`: the sitemap's pages when there are any; otherwise, and on any
   error, the manual-discovery result. Never empty.
   */
  function FetchSitemapPages(env: Env, baseUrl: string): (r: seq<SitemapPage>)
    ensures |r| >= 1
    ensures var fromSitemap := FetchSitemapIndex(env, SitemapUrl(baseUrl));
            if fromSitemap.Some? && fromSitemap.value != [] then r == fromSitemap.value
            else r == DiscoverPagesManually(env, baseUrl)
  {
    match FetchSitemapIndex(env, SitemapUrl(baseUrl))
    case Some(pages) => if pages != [] then pages else DiscoverPagesManually(env, baseUrl)
    case None => DiscoverPagesManually(env, baseUrl)
  }

  /** The route path of one page: `None` (dropped) when its URL does not parse or is cross-origin. */
  function PathOf(env: Env, baseOrigin: string, page: SitemapPage): (r: Option<string>)
    ensures r.Some? <==> env.parseUrl(page.url).Some? && env.parseUrl(page.url).value.origin == baseOrigin
    ensures r.Some? && env.parseUrl(page.url).value.pathname == "/" ==> r.value == "/"
    ensures r.Some? && env.parseUrl(page.url).value.pathname != "/" ==>
              r.value + (if EndsWithSlash(env.parseUrl(page.url).value.pathname) then "/" else "")
              == env.parseUrl(page.url).value.pathname
  {
    match env.parseUrl(page.url)
    case None => None
    case Some(u) =>
      if u.origin != baseOrigin then None
      else if u.pathname == "/" then Some("/")
      else Some(StripTrailingSlash(u.pathname))
  }

  /** The `map` to paths followed by `filter(path !== null)`. */
  function ProjectedPaths(env: Env, baseOrigin: string, pages: seq<SitemapPage>): (r: seq<string>)
    ensures forall x :: x in r <==> exists i :: 0 <= i < |pages| && PathOf(env, baseOrigin, pages[i]) == Some(x)
    decreases |pages|
  {
    if pages == [] then []
    else
      var rest := ProjectedPaths(env, baseOrigin, pages[1..]);
      assert forall i :: 1 <= i < |pages| ==> pages[i] == pages[1..][i - 1];
      match PathOf(env, baseOrigin, pages[0])
      case None => rest
      case Some(p) => [p] + rest
  }

  /** The projection keeps the pages' order: projecting a concatenation concatenates the projections. */
  lemma {:induction false} ProjectedPathsAppend(env: Env, baseOrigin: string, a: seq<SitemapPage>, b: seq<SitemapPage>)
    ensures ProjectedPaths(env, baseOrigin, a + b) == ProjectedPaths(env, baseOrigin, a) + ProjectedPaths(env, baseOrigin, b)
    decreases |a|
  {
    if a != [] {
      assert (a + b)[0] == a[0];
      assert (a + b)[1..] == a[1..] + b;
      ProjectedPathsAppend(env, baseOrigin, a[1..], b);
    } else {
      assert a + b == b;
    }
  }

  /**
   `getAllPagePaths` over the crawled pages: the same-origin route paths, without
   duplicates, in order of first occurrence. `None` is the error `new URL(baseUrl)` throws.
   */
  function PagePaths(env: Env, baseUrl: string, pages: seq<SitemapPage>): (r: Option<seq<string>>)
    ensures r.None? <==> env.parseUrl(baseUrl).None?
    ensures r.Some? ==> Distinct(r.value)
    ensures r.Some? ==> forall x :: x in r.value <==>
              exists i :: 0 <= i < |pages| && PathOf(env, env.parseUrl(baseUrl).value.origin, pages[i]) == Some(x)
    ensures r.Some? ==> r.value == Dedup({}, ProjectedPaths(env, env.parseUrl(baseUrl).value.origin, pages))
  {
    match env.parseUrl(baseUrl)
    case None => None
    case Some(base) =>
      var paths := ProjectedPaths(env, base.origin, pages);
      KeepFirstOccurrencesDistinct(paths);
      Some(KeepFirstOccurrences(paths, 0))
  }

  /** `getAllPagePaths(baseUrl)`: the paths of the pages `fetchSitemapPages` finds. */
  function GetAllPagePaths(env: Env, baseUrl: string): (r: Option<seq<string>>)
    ensures r.None? <==> env.parseUrl(baseUrl).None?
    ensures r.Some? ==> Distinct(r.value)
  {
    PagePaths(env, baseUrl, FetchSitemapPages(env, baseUrl))
  }
}
