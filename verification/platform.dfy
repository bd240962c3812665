/**
 The collaborators the core calls but does not implement: the network, the XML and
 HTML parser with its selector queries, the WHATWG `URL` parser and `parseFloat`.
 They enter the model as the fields of an `Env` record, so every operation is a pure
 function of the environment it is given.
 */
module Platform {
  import opened Wrappers

  /** The parts of a parsed `URL` the core reads; the query and fragment are never read, so they are not modelled. */
  datatype UrlParts = UrlParts(origin: string, pathname: string)

  /** One `<url>` element of a sitemap: the `.text()` of its `loc`, `priority`, `changefreq`, `lastmod` children ("" when missing). */
  datatype UrlEntry = UrlEntry(loc: string, priority: string, changefreq: string, lastmod: string)

  /**
   A sitemap XML document as the crawler queries it: whether a `<sitemapindex>` element
   exists, the texts of all `sitemap loc` elements, and all `<url>` elements, in document order.
   */
  datatype XmlDoc = XmlDoc(hasIndexRoot: bool, sitemapLocs: seq<string>, urls: seq<UrlEntry>)

  /**
   The `href` of the first element matching each favicon selector, `None` when nothing
   matches or the match has no `href`: `link[rel="icon"][type="image/svg+xml"]`,
   `link[rel="icon"][sizes*="32"]`, `link[rel="icon"][sizes*="16"]`, `link[rel="shortcut icon"]`,
   `link[rel="icon"]` and `link[rel="apple-touch-icon"]`.
   */
  datatype IconLinks = IconLinks(
    svg: Option<string>,
    size32: Option<string>,
    size16: Option<string>,
    shortcut: Option<string>,
    generic: Option<string>,
    appleTouch: Option<string>)

  /** The `src` and `alt` attributes of one `<img>`. */
  datatype ImgAttrs = ImgAttrs(src: Option<string>, alt: Option<string>)

  /**
   An HTML page as the core queries it. Meta fields hold the `content` (or `href`) of the
   first matching element. Heading and paragraph texts are raw `.text()` values, not yet trimmed.
   */
  datatype HtmlDoc = HtmlDoc(
    titleText: string,
    ogTitle: Option<string>,
    description: Option<string>,
    ogDescription: Option<string>,
    keywords: Option<string>,
    ogImage: Option<string>,
    canonical: Option<string>,
    icons: IconLinks,
    headingTexts: seq<string>,
    paragraphTexts: seq<string>,
    images: seq<ImgAttrs>,
    anchorHrefs: seq<string>)

  /**
   The environment: `fetch` yields the body of a successful (2xx) response and `None`
   for a network failure or an error status; `parseUrl` yields `None` where `new URL`
   throws; `parseFloat` yields `None` for NaN.
   */
  datatype Env = Env(
    fetch: string -> Option<string>,
    parseXml: string -> XmlDoc,
    parseHtml: string -> HtmlDoc,
    parseUrl: string -> Option<UrlParts>,
    parseFloat: string -> Option<real>)

  /** A request as the core sees it: `fetch` rejects a URL that does not parse before any network traffic. */
  function Fetch(env: Env, url: string): (r: Option<string>)
    ensures r.Some? ==> env.parseUrl(url).Some?
  {
    if env.parseUrl(url).None? then None else env.fetch(url)
  }
}
