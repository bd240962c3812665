/**
 The SEO content extractor: per-field fallback chains, favicon precedence, bounded
 heading/paragraph/image lists, and the one-hour cache of successful extractions
 keyed by target URL.
 */
module Seo {
  import opened Wrappers
  import opened Seqs
  import opened Strings
  import opened Platform

  /** One hour, in milliseconds. */
  const CacheDuration: int := 3600 * 1000

  const MaxHeadings: nat := 8
  const MaxParagraphs: nat := 3
  const MaxImages: nat := 3
  const MaxAltLength: nat := 100
  const MaxSrcLength: nat := 200
  const Ellipsis: string := "..."

  const DefaultTitle: string := "BWF Ventures"
  const DefaultDescription: string := "Professional investment platform"

  datatype Image = Image(src: string, alt: string)

  datatype SeoContent = SeoContent(
    title: string,
    description: string,
    keywords: string,
    ogImage: string,
    canonical: string,
    favicon: string,
    headings: seq<string>,
    paragraphs: seq<string>,
    images: seq<Image>,
    lastFetched: string,
    error: Option<string>)

  // ---------------------------------------------------------------------------
  // Field fallback chains

  /** `<title>` text, else `og:title`, else the site default. */
  function Title(d: HtmlDoc): (r: string)
    ensures d.titleText != "" ==> r == d.titleText
    ensures d.titleText == "" && Truthy(d.ogTitle) ==> r == d.ogTitle.value
    ensures d.titleText == "" && !Truthy(d.ogTitle) ==> r == DefaultTitle
    ensures r != ""
  {
    if d.titleText != "" then d.titleText else OrElse(d.ogTitle, DefaultTitle)
  }

  /** `description` meta, else `og:description`, else the site default. */
  function Description(d: HtmlDoc): (r: string)
    ensures Truthy(d.description) ==> r == d.description.value
    ensures !Truthy(d.description) && Truthy(d.ogDescription) ==> r == d.ogDescription.value
    ensures !Truthy(d.description) && !Truthy(d.ogDescription) ==> r == DefaultDescription
    ensures r != ""
  {
    OrElse(d.description, OrElse(d.ogDescription, DefaultDescription))
  }

  // ---------------------------------------------------------------------------
  // Favicon

  /** The six favicon selectors' first-match hrefs, in precedence order. */
  function IconCandidates(icons: IconLinks): (r: seq<Option<string>>)
    ensures |r| == 6
  {
    [icons.svg, icons.size32, icons.size16, icons.shortcut, icons.generic, icons.appleTouch]
  }

  /** Makes a favicon href absolute, testing the prefixes `http`, `//` and `/` in that order. */
  function NormalizeIcon(href: string, origin: string): (r: string)
    ensures StartsWith(href, "http") ==> r == href
    ensures !StartsWith(href, "http") && StartsWith(href, "//") ==> r == "https:" + href
    ensures !StartsWith(href, "//") && StartsWith(href, "/") ==> r == origin + href
    ensures !StartsWith(href, "http") && !StartsWith(href, "/") ==> r == origin + "/" + href
  {
    if StartsWith(href, "http") then
      assert href[0] == 'h';
      href
    else if StartsWith(href, "//") then "https:" + href
    else if StartsWith(href, "/") then origin + href
    else origin + "/" + href
  }

  /**
   `extractFavicon`: the normalised href of the first selector, in precedence order, whose
   first match has a non-empty href, else `origin/favicon.ico`.
   */
  function Favicon(icons: IconLinks, origin: string): (r: string)
    ensures Truthy(icons.svg) ==> r == NormalizeIcon(icons.svg.value, origin)
    ensures !Truthy(icons.svg) && Truthy(icons.size32) ==> r == NormalizeIcon(icons.size32.value, origin)
    ensures !Truthy(icons.svg) && !Truthy(icons.size32) && Truthy(icons.size16) ==>
              r == NormalizeIcon(icons.size16.value, origin)
    ensures !Truthy(icons.svg) && !Truthy(icons.size32) && !Truthy(icons.size16) && Truthy(icons.shortcut) ==>
              r == NormalizeIcon(icons.shortcut.value, origin)
    ensures (!Truthy(icons.svg) && !Truthy(icons.size32) && !Truthy(icons.size16) && !Truthy(icons.shortcut)
             && Truthy(icons.generic)) ==> r == NormalizeIcon(icons.generic.value, origin)
    ensures (!Truthy(icons.svg) && !Truthy(icons.size32) && !Truthy(icons.size16) && !Truthy(icons.shortcut)
             && !Truthy(icons.generic) && Truthy(icons.appleTouch)) ==> r == NormalizeIcon(icons.appleTouch.value, origin)
    ensures (!Truthy(icons.svg) && !Truthy(icons.size32) && !Truthy(icons.size16) && !Truthy(icons.shortcut)
             && !Truthy(icons.generic) && !Truthy(icons.appleTouch)) ==> r == origin + "/favicon.ico"
  {
    var candidates := IconCandidates(icons);
    match FindIndex(Truthy, candidates)
    case None =>
      assert !Truthy(candidates[0]) && !Truthy(candidates[1]) && !Truthy(candidates[2]);
      assert !Truthy(candidates[3]) && !Truthy(candidates[4]) && !Truthy(candidates[5]);
      origin + "/favicon.ico"
    case Some(k) =>
      assert candidates[0] == icons.svg && candidates[1] == icons.size32 && candidates[2] == icons.size16;
      assert candidates[3] == icons.shortcut && candidates[4] == icons.generic && candidates[5] == icons.appleTouch;
      assert 0 <= k < 6;
      NormalizeIcon(candidates[k].value, origin)
  }

  /** With an `http(s)` origin every favicon URL is absolute. */
  lemma FaviconIsAbsolute(icons: IconLinks, origin: string)
    requires StartsWith(origin, "http")
    ensures StartsWith(Favicon(icons, origin), "http")
  {
  }

  // ---------------------------------------------------------------------------
  // Headings and paragraphs

  predicate HeadingFits(t: string) {
    2 < |t| < 100
  }

  predicate ParagraphFits(t: string) {
    20 < |t| < 300
  }

  /** `.map(el => $(el).text().trim())` */
  function TrimAll(raws: seq<string>): (r: seq<string>)
    ensures |r| == |raws|
    ensures forall i :: 0 <= i < |r| ==> r[i] == Trim(raws[i])
  {
    seq(|raws|, i requires 0 <= i < |raws| => Trim(raws[i]))
  }

  /**
   Trimmed texts, filtered by `fits`, the first `n` kept: every element is a trimmed
   raw text that fits, the list is a prefix of all fitting texts in document order, and
   a list shorter than `n` holds every fitting text.
   */
  function TextBlocks(raws: seq<string>, fits: string -> bool, n: nat): (r: seq<string>)
    ensures |r| == Min(n, |Filter(fits, TrimAll(raws))|)
    ensures forall i :: 0 <= i < |r| ==> fits(r[i]) && NoEdgeSpace(r[i])
    ensures forall i :: 0 <= i < |r| ==> exists j :: 0 <= j < |raws| && r[i] == Trim(raws[j])
    ensures r <= Filter(fits, TrimAll(raws))
    ensures |r| < n ==> forall j :: 0 <= j < |raws| && fits(Trim(raws[j])) ==> Trim(raws[j]) in r
  {
    var trimmed := TrimAll(raws);
    var r := FirstMatching(fits, trimmed, n);
    assert forall j :: 0 <= j < |raws| ==> Trim(raws[j]) == trimmed[j];
    forall i | 0 <= i < |r|
      ensures NoEdgeSpace(r[i]) && exists j :: 0 <= j < |raws| && r[i] == Trim(raws[j])
    {
      var j :| 0 <= j < |trimmed| && trimmed[j] == r[i];
      assert r[i] == Trim(raws[j]);
    }
    r
  }

  /** `h1, h2, h3` texts: at most 8, each trimmed and 3 to 99 characters long. */
  function Headings(raws: seq<string>): (r: seq<string>)
    ensures |r| == Min(MaxHeadings, |Filter(HeadingFits, TrimAll(raws))|)
    ensures forall i :: 0 <= i < |r| ==> 2 < |r[i]| < 100 && NoEdgeSpace(r[i])
    ensures r <= Filter(HeadingFits, TrimAll(raws))
    ensures |r| < MaxHeadings ==> forall j :: 0 <= j < |raws| && HeadingFits(Trim(raws[j])) ==> Trim(raws[j]) in r
  {
    TextBlocks(raws, HeadingFits, MaxHeadings)
  }

  /** `p` texts: at most 3, each trimmed and 21 to 299 characters long. */
  function Paragraphs(raws: seq<string>): (r: seq<string>)
    ensures |r| == Min(MaxParagraphs, |Filter(ParagraphFits, TrimAll(raws))|)
    ensures forall i :: 0 <= i < |r| ==> 20 < |r[i]| < 300 && NoEdgeSpace(r[i])
    ensures r <= Filter(ParagraphFits, TrimAll(raws))
    ensures |r| < MaxParagraphs ==> forall j :: 0 <= j < |raws| && ParagraphFits(Trim(raws[j])) ==> Trim(raws[j]) in r
  {
    TextBlocks(raws, ParagraphFits, MaxParagraphs)
  }

  // ---------------------------------------------------------------------------
  // Images

  /** The raw `src` is present, non-empty, not a data URI, and at most 200 characters. */
  predicate ImgEligible(a: ImgAttrs) {
    Truthy(a.src) && !StartsWith(a.src.value, "data:") && |a.src.value| <= MaxSrcLength
  }

  /** Image `src` normalisation: unlike favicons there is no `//` case, and other relative paths pass through. */
  function NormalizeImageSrc(src: string, origin: string): (r: string)
    ensures StartsWith(src, "http") ==> r == src
    ensures !StartsWith(src, "http") && StartsWith(src, "/") ==> r == origin + src
    ensures !StartsWith(src, "http") && !StartsWith(src, "/") ==> r == src
  {
    if StartsWith(src, "http") then src
    else if StartsWith(src, "/") then origin + src
    else src
  }

  /** An alt text over 100 characters becomes its first 100 and an ellipsis. */
  function TruncateAlt(alt: string): (r: string)
    ensures |r| <= MaxAltLength + |Ellipsis|
    ensures |alt| <= MaxAltLength ==> r == alt
    ensures |alt| > MaxAltLength ==> |r| == MaxAltLength + |Ellipsis|
    ensures |alt| > MaxAltLength ==> r[..MaxAltLength] == alt[..MaxAltLength] && r[MaxAltLength..] == Ellipsis
  {
    if |alt| > MaxAltLength then alt[..MaxAltLength] + Ellipsis else alt
  }

  function ImageOf(a: ImgAttrs, origin: string): Image
    requires ImgEligible(a)
  {
    Image(NormalizeImageSrc(a.src.value, origin), TruncateAlt(a.alt.GetOr("")))
  }

  /**
   The `$("img").map` callback over all images: `null` results are dropped, so one
   image per eligible `<img>`, in document order.
   */
  function MapImages(imgs: seq<ImgAttrs>, origin: string): (r: seq<Image>)
    ensures |r| == |Filter(ImgEligible, imgs)|
    ensures forall i :: 0 <= i < |r| ==> r[i] == ImageOf(Filter(ImgEligible, imgs)[i], origin)
    decreases |imgs|
  {
    if imgs == [] then []
    else if ImgEligible(imgs[0]) then [ImageOf(imgs[0], origin)] + MapImages(imgs[1..], origin)
    else MapImages(imgs[1..], origin)
  }

  /** The first three eligible images, converted; every alt is at most 103 characters. */
  function Images(imgs: seq<ImgAttrs>, origin: string): (r: seq<Image>)
    ensures |r| == Min(MaxImages, |Filter(ImgEligible, imgs)|)
    ensures forall i :: 0 <= i < |r| ==> r[i] == ImageOf(Filter(ImgEligible, imgs)[i], origin)
    ensures forall i :: 0 <= i < |r| ==> |r[i].alt| <= MaxAltLength + |Ellipsis|
  {
    var all := MapImages(imgs, origin);
    if |all| <= MaxImages then all else all[..MaxImages]
  }

  /** The 200-character bound is on the raw `src`: a root-relative `src` can come out longer. */
  lemma ImageSrcMayExceedBound(origin: string)
    requires origin != ""
    ensures var a := ImgAttrs(Some("/" + seq(199, _ => 'a')), None);
            ImgEligible(a) && |ImageOf(a, origin).src| > MaxSrcLength
  {
    var src := "/" + seq(199, _ => 'a');
    assert src[0] == '/';
    assert !StartsWith(src, "data:") && !StartsWith(src, "http");
  }

  /** A protocol-relative `src` is prefixed with the page origin, where the same favicon href gets `https:`. */
  lemma ProtocolRelativeNormalisationDiffers(src: string, origin: string)
    requires StartsWith(src, "//")
    ensures NormalizeImageSrc(src, origin) == origin + src
    ensures NormalizeIcon(src, origin) == "https:" + src
  {
    assert src[0] == '/' && src[..1] == "/";
  }

  /** A path-relative `src` is left relative, where the same favicon href is resolved against the origin. */
  lemma PathRelativeNormalisationDiffers(src: string, origin: string)
    requires !StartsWith(src, "http") && !StartsWith(src, "/")
    ensures NormalizeImageSrc(src, origin) == src
    ensures NormalizeIcon(src, origin) == origin + "/" + src
  {
  }

  // ---------------------------------------------------------------------------
  // Extraction

  /** The list bounds every served content satisfies. */
  predicate Bounded(c: SeoContent) {
    && |c.headings| <= MaxHeadings
    && (forall i :: 0 <= i < |c.headings| ==> HeadingFits(c.headings[i]))
    && |c.paragraphs| <= MaxParagraphs
    && (forall i :: 0 <= i < |c.paragraphs| ==> ParagraphFits(c.paragraphs[i]))
    && |c.images| <= MaxImages
    && (forall i :: 0 <= i < |c.images| ==> |c.images[i].alt| <= MaxAltLength + |Ellipsis|)
  }

  /** The content extracted from a fetched page of `targetUrl`, whose origin is `origin`. */
  function Extract(targetUrl: string, origin: string, d: HtmlDoc, lastFetched: string): (r: SeoContent)
    ensures Bounded(r) && r.error.None?
    ensures r.keywords == (if Truthy(d.keywords) then d.keywords.value else "")
    ensures r.ogImage == (if Truthy(d.ogImage) then d.ogImage.value else "")
    ensures r.canonical == (if Truthy(d.canonical) then d.canonical.value else targetUrl)
    ensures r.title == Title(d) && r.description == Description(d) && r.favicon == Favicon(d.icons, origin)
    ensures r.headings == Headings(d.headingTexts) && r.paragraphs == Paragraphs(d.paragraphTexts)
    ensures r.images == Images(d.images, origin) && r.lastFetched == lastFetched
  {
    SeoContent(
      Title(d),
      Description(d),
      OrElse(d.keywords, ""),
      OrElse(d.ogImage, ""),
      OrElse(d.canonical, targetUrl),
      Favicon(d.icons, origin),
      Headings(d.headingTexts),
      Paragraphs(d.paragraphTexts),
      Images(d.images, origin),
      lastFetched,
      None)
  }

  const FallbackTitle: string := "BWF Ventures - Professional Investment Platform"
  const FallbackDescription: string :=
    "Access BWF Ventures professional investment platform with advanced portfolio management and analytics."
  const FallbackKeywords: string := "investment, portfolio management, BWF Ventures, financial services"
  const FallbackHeadings: seq<string> := ["BWF Ventures", "Professional Investment Platform", "Portfolio Management"]
  const FallbackParagraphs: seq<string> := ["Professional investment solutions for sophisticated investors."]
  const FallbackError: string := "Failed to fetch content, using fallback data"

  /** The fixed content returned when fetching fails. */
  function Fallback(targetUrl: string, origin: string, lastFetched: string): (r: SeoContent)
    ensures Bounded(r) && r.error.Some?
    ensures r.canonical == targetUrl && r.favicon == origin + "/favicon.ico"
    ensures r.ogImage == "" && r.images == []
  {
    SeoContent(
      FallbackTitle, FallbackDescription, FallbackKeywords, "", targetUrl, origin + "/favicon.ico",
      FallbackHeadings, FallbackParagraphs, [], lastFetched, Some(FallbackError))
  }

  // ---------------------------------------------------------------------------
  // Cache

  datatype CacheEntry = CacheEntry(data: SeoContent, timestamp: int)

  type Cache = map<string, CacheEntry>

  /** The outcome of one call: `content` is `None` when the call rejects; the cache after it. */
  datatype Response = Response(content: Option<SeoContent>, cache: Cache)

  predicate IsFresh(cache: Cache, url: string, now: int) {
    url in cache && now - cache[url].timestamp < CacheDuration
  }

  /** Every cached entry is a successful, bounded extraction. */
  predicate CacheOk(cache: Cache) {
    forall u :: u in cache ==> cache[u].data.error.None? && Bounded(cache[u].data)
  }

  /** A cache miss: fetch and extract, storing only a successful extraction. */
  function Refresh(env: Env, cache: Cache, targetUrl: string, now: int, lastFetched: string): (r: Response)
    ensures Fetch(env, targetUrl).Some? ==>
              r.content.Some? && r.content.value.error.None?
              && r.cache == cache[targetUrl := CacheEntry(r.content.value, now)]
    ensures Fetch(env, targetUrl).Some? ==>
              r.content == Some(Extract(targetUrl, env.parseUrl(targetUrl).value.origin,
                                        env.parseHtml(Fetch(env, targetUrl).value), lastFetched))
    ensures Fetch(env, targetUrl).None? ==> r.cache == cache
    ensures Fetch(env, targetUrl).None? ==> (r.content.None? <==> env.parseUrl(targetUrl).None?)
    ensures Fetch(env, targetUrl).None? && r.content.Some? ==>
              r.content.value == Fallback(targetUrl, env.parseUrl(targetUrl).value.origin, lastFetched)
  {
    match Fetch(env, targetUrl)
    case Some(html) =>
      var origin := env.parseUrl(targetUrl).value.origin;
      var content := Extract(targetUrl, origin, env.parseHtml(html), lastFetched);
      Response(Some(content), cache[targetUrl := CacheEntry(content, now)])
    case None =>
      match env.parseUrl(targetUrl)
      case None => Response(None, cache)
      case Some(u) => Response(Some(Fallback(targetUrl, u.origin, lastFetched)), cache)
  }

  /**
   `fetchSEOContent(targetUrl)` at time `now` (ms): a fresh cache entry is served without a
   request; otherwise the page is fetched and a successful extraction is stored under
   `targetUrl` alone; a failed fetch yields the fallback and leaves the cache as it was.
   */
  function FetchSeoContent(env: Env, cache: Cache, targetUrl: string, now: int, lastFetched: string)
    : (r: Response)
    ensures IsFresh(cache, targetUrl, now) ==> r == Response(Some(cache[targetUrl].data), cache)
    ensures !IsFresh(cache, targetUrl, now) ==> r == Refresh(env, cache, targetUrl, now, lastFetched)
    ensures !IsFresh(cache, targetUrl, now) && Fetch(env, targetUrl).Some? ==>
              r.content.Some? && r.content.value.error.None?
              && r.cache == cache[targetUrl := CacheEntry(r.content.value, now)]
    ensures !IsFresh(cache, targetUrl, now) && Fetch(env, targetUrl).None? ==> r.cache == cache
    ensures forall u :: u != targetUrl ==> (u in r.cache <==> u in cache)
    ensures forall u :: u != targetUrl && u in cache ==> r.cache[u] == cache[u]
  {
    if IsFresh(cache, targetUrl, now) then Response(Some(cache[targetUrl].data), cache)
    else Refresh(env, cache, targetUrl, now, lastFetched)
  }

  /** Only bounded, error-free content is cached, so every served content is bounded. */
  lemma FetchKeepsCacheOk(env: Env, cache: Cache, targetUrl: string, now: int, lastFetched: string)
    requires CacheOk(cache)
    ensures var r := FetchSeoContent(env, cache, targetUrl, now, lastFetched);
            CacheOk(r.cache) && (r.content.Some? ==> Bounded(r.content.value))
  {
  }

  /**
   After a successful fetch, every call within the next hour is served from the cache,
   whatever the network would answer: at most one fetch per URL per hour.
   */
  lemma SecondCallWithinTtlServedFromCache(
    env: Env, env': Env, cache: Cache, targetUrl: string, t1: int, t2: int, s1: string, s2: string)
    requires !IsFresh(cache, targetUrl, t1) && Fetch(env, targetUrl).Some?
    requires t1 <= t2 < t1 + CacheDuration
    ensures var first := FetchSeoContent(env, cache, targetUrl, t1, s1);
            FetchSeoContent(env', first.cache, targetUrl, t2, s2) == first
  {
  }

  /** A failed fetch leaves no trace: the next call tries the network again. */
  lemma FailureIsRetried(
    env: Env, env': Env, cache: Cache, targetUrl: string, t1: int, t2: int, s1: string, s2: string)
    requires !IsFresh(cache, targetUrl, t1) && Fetch(env, targetUrl).None?
    requires t1 <= t2
    ensures var first := FetchSeoContent(env, cache, targetUrl, t1, s1);
            FetchSeoContent(env', first.cache, targetUrl, t2, s2) == FetchSeoContent(env', cache, targetUrl, t2, s2)
  {
  }

  /**
   An entry an hour old or older is never served: the call goes to the network. A success
   replaces the entry with one stamped `now`; a failure serves the fallback, which carries an
   error and so is never a cached extraction.
   */
  lemma StaleEntryNotServed(env: Env, cache: Cache, targetUrl: string, now: int, lastFetched: string)
    requires targetUrl in cache && now - cache[targetUrl].timestamp >= CacheDuration
    ensures var r := FetchSeoContent(env, cache, targetUrl, now, lastFetched);
            r == Refresh(env, cache, targetUrl, now, lastFetched)
    ensures var r := FetchSeoContent(env, cache, targetUrl, now, lastFetched);
            Fetch(env, targetUrl).Some? ==> r.cache[targetUrl].timestamp == now
    ensures var r := FetchSeoContent(env, cache, targetUrl, now, lastFetched);
            Fetch(env, targetUrl).None? && r.content.Some? ==> r.content.value.error.Some?
  {
  }
}
