# SEO mirror gateway: crawler, content extractor and mirrored sitemap in Dafny

This project models the three modules that hold the logic of a Next.js gateway. The gateway mirrors a third-party site for search engines. The three modules are:

- **Sitemap crawler** (`src/lib/sitemap-crawler.ts`), module `SitemapCrawler`. It reads `{base}/sitemap.xml` in the Sitemaps XML format 0.9. For a `<sitemapindex>` it fetches at most ten child sitemaps and concatenates their pages in listing order. For a regular sitemap it turns every `<url>` with a non-empty `loc` into a page. When there is no usable sitemap, it collects the distinct same-origin links of the homepage. `getAllPagePaths` projects the pages to de-duplicated route paths.
- **SEO content extractor** (`src/lib/seo-content.ts`), module `Seo`. It covers:
  - the per-field fallback chains;
  - the six-step favicon precedence and href normalisation;
  - the bounded heading, paragraph and image lists;
  - alt-text truncation;
  - the one-hour cache of successful extractions, keyed by target URL.
- **Mirrored sitemap** (`src/app/sitemap.ts`), module `MirrorSitemap`. It maps every crawled page onto the gateway's base URL with the same path and fills in the defaults `weekly` and `0.5`. It then forces the first homepage entry to priority 1.0 and `daily`, or inserts such an entry at the front.

Supporting modules:

- `Wrappers` defines `Option`.
- `Seqs` defines the JavaScript array idioms: `filter`, `filter` then `slice`, `findIndex`, `indexOf`, and a reference de-duplication.
- `Strings` defines `startsWith`, `trim`, the one-slash `replace(/\/$/, "")`, and string truthiness.
- `Platform` holds everything the core calls without implementing it. These are the fields of an `Env` record:
  - `fetch` returns a successful body, or `None` for a network error or an error status;
  - `parseXml` and `parseHtml` turn a body into the records the selector queries read;
  - `parseUrl` stands for `new URL`, with `None` where it throws;
  - `parseFloat` returns `None` for NaN.

Each operation is a pure function of the `Env`, so a thrown JavaScript error becomes an explicit `None`. The cache is an explicit `map` that each call takes in and returns.

## Model

| member | source | states |
|---|---|---|
| `Platform.Fetch` | src/lib/seo-content.ts:43-57 | A request only succeeds for a URL that `new URL` accepts, so after a successful fetch the URL's origin is always available. |
| `SitemapCrawler.PriorityOf` | src/lib/sitemap-crawler.ts:122-123 | A page's priority is absent exactly when the parsed value is NaN or 0; otherwise it is the parsed value. |
| `SitemapCrawler.TextOrAbsent` | src/lib/sitemap-crawler.ts:124-125 | `changefreq` and `lastmod` are absent exactly when their text is empty, and are the text otherwise. |
| `SitemapCrawler.PagesOf` | src/lib/sitemap-crawler.ts:118-137 | A regular sitemap yields exactly one page per `<url>` with a non-empty `loc`, in document order. The i-th page is built from the i-th such entry, and no page has an empty URL. |
| `SitemapCrawler.FetchSingleSitemap` | src/lib/sitemap-crawler.ts:101-138 | Fails exactly when the request fails. Otherwise it returns one page per `<url>` of the fetched document with a non-empty `loc`, in document order, the i-th page built from the i-th such entry. |
| `SitemapCrawler.ChildSitemaps` | src/lib/sitemap-crawler.ts:66-76 | The fetched children are a prefix of the non-empty `sitemap loc` texts. There are min(10, their number) of them, each taken from the index. |
| `SitemapCrawler.CollectChildrenAppend` | src/lib/sitemap-crawler.ts:78-85 | Child pages are concatenated in listing order: collecting `a + b` gives the pages of `a` followed by those of `b`. |
| `SitemapCrawler.FailingChildSkipped` | src/lib/sitemap-crawler.ts:79-84 | A child whose fetch fails contributes nothing and does not stop the children listed after it. |
| `SitemapCrawler.CollectChildrenCount` | src/lib/sitemap-crawler.ts:65-87 | The number of collected pages is the sum of the children's page counts. |
| `SitemapCrawler.FetchSitemapIndex` | src/lib/sitemap-crawler.ts:43-96 | A failed request is an error. For an index, the result is the children's pages concatenated over the first ten non-empty child locations, and its size is the sum of their page counts. For a regular sitemap, it is that sitemap's pages. Every page has a non-empty URL. |
| `SitemapCrawler.ResolveHref` | src/lib/sitemap-crawler.ts:166-187 | Empty hrefs, hrefs starting with `#` or `?`, and cross-origin absolute links are skipped. An absolute `http` href that does not parse aborts the scan. A same-origin absolute link that parses is kept as the href itself, and every kept absolute link has the base origin. A `/` href resolves to the base origin followed by the href. Any other href resolves to the base URL minus one trailing slash, then `/`, then the href. |
| `SitemapCrawler.CleanUrl` | src/lib/sitemap-crawler.ts:190-201 | A resolved URL is dropped exactly when it does not parse. A kept URL is its origin followed by its pathname, so the query and fragment are gone. |
| `SitemapCrawler.LinksAreClean` | src/lib/sitemap-crawler.ts:166-201 | Every link the scan collects is the origin plus pathname of a URL the parser accepts, so no query or fragment survives. There are never more links than hrefs. |
| `SitemapCrawler.ScanIsDedup` | src/lib/sitemap-crawler.ts:158-202 | The scan with its `foundUrls` set equals the reference: all cleaned links, de-duplicated against the URLs already listed, appended at priority 0.8. An abort anywhere makes the scan throw. |
| `SitemapCrawler.DiscoverPagesManually` | src/lib/sitemap-crawler.ts:143-209 | The first page is the homepage at 1.0, and every later page has priority 0.8 and a URL other than the base. All URLs are pairwise distinct. A failed homepage fetch or an aborted scan gives exactly `[home]`; otherwise the pages are the home followed by the distinct links in document order. |
| `SitemapCrawler.FetchSitemapPages` | src/lib/sitemap-crawler.ts:13-38 | Never empty. Returns the sitemap's pages unchanged when there are any; after an empty result or an error it returns manual discovery. |
| `SitemapCrawler.PathOf` | src/lib/sitemap-crawler.ts:219-236 | A page has a path exactly when its URL parses with the base origin. Pathname `/` gives `/`; any other pathname loses one trailing slash. |
| `SitemapCrawler.ProjectedPaths` | src/lib/sitemap-crawler.ts:218-237 | A path is listed exactly when some page projects to it. |
| `SitemapCrawler.ProjectedPathsAppend` | src/lib/sitemap-crawler.ts:218-237 | `map` then `filter` keeps page order: projecting `a + b` gives the paths of `a` followed by those of `b`. |
| `SitemapCrawler.PagePaths` | src/lib/sitemap-crawler.ts:214-239 | Fails exactly when the base URL does not parse. Otherwise the paths are duplicate-free, are exactly the same-origin projections of the pages, and are in first-occurrence order. |
| `SitemapCrawler.GetAllPagePaths` | src/lib/sitemap-crawler.ts:214-239 | Fails exactly when the base URL does not parse; the paths of the crawled pages are duplicate-free. |
| `Seqs.IndexOf` | src/lib/sitemap-crawler.ts:238 | `indexOf` returns -1 exactly for an absent element, and otherwise the first position holding it. |
| `Seqs.Dedup` | src/lib/sitemap-crawler.ts:194-196 | The reference de-duplication keeps each element not already seen exactly once, and drops everything already seen. |
| `Seqs.KeepFirstOccurrencesIsDedup` | src/lib/sitemap-crawler.ts:238 | The `indexOf(path) === index` filter equals the reference de-duplication against the elements before the scan position. |
| `Seqs.KeepFirstOccurrencesDistinct` | src/lib/sitemap-crawler.ts:238 | The whole `indexOf` filter is duplicate-free, keeps every element of the input, and keeps first occurrences in order. |
| `Seqs.FilterAppend` | src/lib/seo-content.ts:115 | `filter` commutes with concatenation, so kept elements stay in document order. |
| `Seqs.FirstMatching` | src/lib/seo-content.ts:115-116 | `filter` then `slice(0, n)` keeps min(n, number of matches) elements, all matching. They are a prefix of the filtered list and, when fewer than n, include every match. |
| `Seqs.FindIndex` | src/app/sitemap.ts:38-40 | `findIndex` returns `None` exactly when nothing matches; otherwise it returns a matching position with no match before it. |
| `Strings.Trim` | src/lib/seo-content.ts:112 | `trim` removes white space only: the result is the input minus a white-space prefix and a white-space suffix. It has no white space at either end and leaves an already-trimmed text unchanged. |
| `Strings.StripTrailingSlash` | src/lib/sitemap-crawler.ts:230 | Removes exactly one trailing slash when there is one, and otherwise leaves the text unchanged. |
| `Seo.Title` | src/lib/seo-content.ts:63-66 | The title is the non-empty `<title>` text, else a non-empty `og:title`, else `BWF Ventures`, so a title is never empty. |
| `Seo.Description` | src/lib/seo-content.ts:67-70 | The description is a non-empty `description` meta, else a non-empty `og:description`, else `Professional investment platform`, so a description is never empty. |
| `Seo.NormalizeIcon` | src/lib/seo-content.ts:91-99 | The prefixes are tested in order. An `http` href stays as it is; `//` gets `https:`; `/` gets the origin prefixed; anything else becomes `origin + "/" + href`. |
| `Seo.Favicon` | src/lib/seo-content.ts:76-105 | The favicon comes from the first of SVG, 32px, 16px, shortcut, generic and apple-touch icons whose first match has a non-empty href. If there is none, it is `origin/favicon.ico`. |
| `Seo.FaviconIsAbsolute` | src/lib/seo-content.ts:87-104 | With an `http(s)` origin every favicon URL starts with `http`. |
| `Seo.TrimAll` | src/lib/seo-content.ts:110-114 | Each text is the trim of the raw text at the same position. |
| `Seo.TextBlocks` | src/lib/seo-content.ts:110-124 | Each kept text is the trim of some raw text, fits the length filter and has no edge white space. The list is the first min(n, number of fitting texts) fitting trimmed texts in document order, repeats included. |
| `Seo.Headings` | src/lib/seo-content.ts:110-116 | The first min(8, fitting count) trimmed headings with 2 < length < 100, in document order. When there are fewer than 8 it holds every fitting heading. |
| `Seo.Paragraphs` | src/lib/seo-content.ts:118-124 | The first min(3, fitting count) trimmed paragraphs with 20 < length < 300, in document order. When there are fewer than 3 it holds every fitting paragraph. |
| `Seo.NormalizeImageSrc` | src/lib/seo-content.ts:133-137 | An `http` src stays as it is, a `/` src gets the origin prefixed, and any other src passes through unchanged. |
| `Seo.TruncateAlt` | src/lib/seo-content.ts:138 | An alt of at most 100 characters is unchanged. A longer one becomes its first 100 characters followed by `...`, so no alt exceeds 103. |
| `Seo.MapImages` | src/lib/seo-content.ts:126-142 | One image per `<img>` whose raw src is non-empty, not `data:` and at most 200 long, in document order. The i-th image is built from the i-th eligible `<img>`. |
| `Seo.Images` | src/lib/seo-content.ts:126-143 | The first min(3, eligible count) eligible images, converted in order; every alt is at most 103 characters. |
| `Seo.ImageSrcMayExceedBound` | src/lib/seo-content.ts:131-137 | The 200-character bound applies to the raw src. For every non-empty origin, an eligible root-relative src of length 200 comes out longer than 200. |
| `Seo.ProtocolRelativeNormalisationDiffers` | src/lib/seo-content.ts:133-137 | A `//` src gets the page origin prefixed, while the same favicon href gets `https:`. |
| `Seo.PathRelativeNormalisationDiffers` | src/lib/seo-content.ts:133-137 | A path-relative src stays relative, while the same favicon href is resolved against the origin. |
| `Seo.Extract` | src/lib/seo-content.ts:59-156 | An extraction satisfies every list bound and carries no error. Title, description and favicon follow their fallback chains. Keywords and og:image default to "", canonical defaults to the target URL. Headings, paragraphs and images are those lists of the document. |
| `Seo.Fallback` | src/lib/seo-content.ts:169-199 | The fallback satisfies the bounds and carries an error. Its canonical is the target, its favicon is `origin/favicon.ico`, and it has no images or og:image. |
| `Seo.Refresh` | src/lib/seo-content.ts:42-199 | On a cache miss, a successful fetch returns the extraction of the fetched page and stores it at `now` under the target URL. A failed fetch leaves the cache unchanged and yields the fallback, or rejects when the target URL does not parse. |
| `Seo.FetchSeoContent` | src/lib/seo-content.ts:27-32 | An entry younger than one hour is served without a request, and the cache is unchanged. Otherwise only the target URL's entry can change, and only on success. |
| `Seo.FetchKeepsCacheOk` | src/lib/seo-content.ts:145-165 | If every cached entry is bounded and error-free, the cache stays so, and every content served is bounded. |
| `Seo.SecondCallWithinTtlServedFromCache` | src/lib/seo-content.ts:28-31 | After a successful fetch, a call within the next hour returns the same content and cache, whatever the network answers. |
| `Seo.FailureIsRetried` | src/lib/seo-content.ts:166-200 | A failed fetch leaves no trace: the next call behaves as if the failed one had not happened. |
| `Seo.StaleEntryNotServed` | src/lib/seo-content.ts:26-32 | An entry an hour old or older is not served: the call makes a request whatever the network answers. A success replaces the entry with one stamped `now`. A failure serves the fallback, which carries an error and so is not the cached entry. |
| `MirrorSitemap.ChangeFrequencyOf` | src/app/sitemap.ts:29-31 | A missing or empty change frequency becomes `weekly`; any other value passes through. |
| `MirrorSitemap.PriorityOrDefault` | src/app/sitemap.ts:32 | A missing or zero priority becomes 0.5; any other value passes through. |
| `MirrorSitemap.LastModifiedOf` | src/app/sitemap.ts:28 | A missing or empty `lastmod` becomes the time of generation (`None`); any other value passes through. |
| `MirrorSitemap.MapPage` | src/app/sitemap.ts:18-34 | A page maps to `baseUrl` when its pathname is `/`, and to `baseUrl + pathname` otherwise. It applies the `lastmod`, change-frequency and priority defaults, and it fails exactly when its URL does not parse. |
| `MirrorSitemap.MapPages` | src/app/sitemap.ts:18-35 | Mapping fails exactly when some page fails. Otherwise it has one entry per page, in order. |
| `MirrorSitemap.PromoteHome` | src/app/sitemap.ts:37-53 | With a homepage entry, the first one gets 1.0 and `daily`, all others are unchanged, and the length is kept. Without one, a `{baseUrl, daily, 1.0}` entry is prepended. Either way a homepage entry at 1.0 and daily exists. |
| `MirrorSitemap.NoSlashHome` | src/app/sitemap.ts:24-39 | No mapped entry is `baseUrl + "/"`, because the root path maps to `baseUrl` itself. |
| `MirrorSitemap.MirrorPages` | src/app/sitemap.ts:9-74 | If mapping throws, the result is the two-entry basic sitemap. Otherwise it is the promoted list, one entry longer than the source at most. It always lists `baseUrl` itself at 1.0 and daily. |
| `MirrorSitemap.Sitemap` | src/app/sitemap.ts:4-75 | The gateway sitemap is never empty and always lists `baseUrl` at priority 1.0. |
| `Scenarios.TwoPageSitemapPages` | src/lib/sitemap-crawler.ts:101-138 | For `https://example.test` with a sitemap listing `/` (priority 1.0) and `/about` (priority 0.5, `monthly`), the crawl returns exactly those two pages in that order. |
| `Scenarios.TwoPageSitemapPaths` | src/lib/sitemap-crawler.ts:214-239 | The same site projects to the route paths `/` and `/about`. |
| `Scenarios.AcmePageExtraction` | src/lib/seo-content.ts:63-124 | A page with title `Acme`, no description meta, one `Welcome` heading and one 25-character paragraph gives title `Acme` and the default description. Its headings and paragraphs are exactly that heading and that paragraph. |
| `Scenarios.SvgIconBeatsShortcut` | src/lib/seo-content.ts:76-105 | When a page has both an SVG icon and a shortcut icon, the extracted favicon is the SVG one. |

## Source quirks the model keeps

- Image `src` normalisation differs from favicon normalisation. A `//` src gets the page origin prefixed, not `https:`. Any other relative src stays relative (`PathRelativeNormalisationDiffers`).
- The 200-character bound is checked on the raw `src`, so an output `src` can be longer than 200 (`ImageSrcMayExceedBound`).
- A priority of 0 is treated as absent, like NaN. The builder likewise turns a missing or zero priority into 0.5.
- A malformed absolute `http` href is not skipped. Its `new URL` call throws outside the inner `try`, which aborts the whole link scan. Discovery then returns only the homepage.
- Only the raw base URL seeds the de-duplication set. A cleaned homepage form such as `base + "/"` can still be listed as a separate page.
- Only successful extractions are cached. A cache hit therefore never carries an error (`FetchKeepsCacheOk`), and a failed fetch is retried on the next call (`FailureIsRetried`).

## Left out

- Network details: HTTP headers, status codes, the `revalidate` options and time-outs. These all reduce to the `fetch` oracle's `Some`/`None`.
- Fetch of bad URLs: a URL that `new URL` rejects is treated as a failed request, because `fetch` rejects it (`Platform.Fetch`).
- HTML/XML parsing and CSS-selector matching are library code. The model reads pre-parsed records instead.
  - A sitemap is `(hasIndexRoot, sitemapLocs, urls)`.
  - A page is its meta contents, the six favicon hrefs, raw heading and paragraph texts, `img` attributes and `a[href]` values.
- `new URL` and `parseFloat` are library internals and stay uninterpreted. Priorities are exact reals, not IEEE doubles.
- Time and dates: `Date.now()` is one `now` parameter in milliseconds for both uses in one call. `lastFetched` is a timestamp string parameter. `new Date(lastmod)` is kept as the raw non-empty `lastmod` text, with `None` standing for the time of generation.
- Logging through `console` is left out.
- The regular-sitemap branch fetches `sitemap.xml` twice. The deterministic oracle answers both requests the same way, so a change between the two requests is not modelled.
- The second cache check inside the `try` (src/lib/seo-content.ts:35-40) is left out. No `await` separates it from the first check, so it can never fire.
- Environment-variable defaulting of the target, source and base URLs is left out; they are parameters.
- Concurrency is left out: races on the module-level cache and the parallel fan-out elsewhere. Calls are sequential, and the cache is threaded through them.
- String lengths count Unicode scalar values. JavaScript counts UTF-16 code units, so texts with astral characters can be measured differently.
- `DiscoverPagesManually`: does not state that every discovered URL has the base origin. For root-relative and path-relative links, the origin of the resolved URL is decided by the uninterpreted URL parser.
- `GetAllPagePaths`: states only duplicate-freedom and the failure case. The full characterisation is on `PagePaths`, which it applies to the crawled pages.
- The UI components, the HTTP route handlers (bulk export, revalidation, content fetch, diagnostics) and the static configuration are rendering, response shaping or constants, and are not part of this model.
