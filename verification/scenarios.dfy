/**
 Worked examples on concrete documents: a two-page sitemap, a small page for the
 extractor, and a page that offers both an SVG and a shortcut favicon.
 */
module Scenarios {
  import opened Wrappers
  import opened Seqs
  import opened Strings
  import opened Platform
  import SitemapCrawler
  import Seo

  const Origin: string := "https://example.test"
  const HomeLoc: string := "https://example.test/"
  const AboutLoc: string := "https://example.test/about"
  const SitemapBody: string := "<urlset/>"

  /** A sitemap with `/` at priority 1.0 and `/about` at priority 0.5, changed monthly. */
  const TwoPageDoc: XmlDoc := XmlDoc(false, [], [
    UrlEntry(HomeLoc, "1.0", "", ""),
    UrlEntry(AboutLoc, "0.5", "monthly", "")])

  /** A URL parser that knows the example site, its sitemap and its two pages. */
  function ParseExampleUrl(u: string): Option<UrlParts> {
    if u == Origin || u == HomeLoc then Some(UrlParts(Origin, "/"))
    else if u == AboutLoc then Some(UrlParts(Origin, "/about"))
    else if u == SitemapCrawler.SitemapUrl(Origin) then Some(UrlParts(Origin, "/sitemap.xml"))
    else None
  }

  function ParseExampleFloat(t: string): Option<real> {
    if t == "1.0" then Some(1.0) else if t == "0.5" then Some(0.5) else None
  }

  /** The example site: only the sitemap is served, and it is a regular two-page sitemap. */
  const TwoPageSite: Env := Env(
    u => if u == SitemapCrawler.SitemapUrl(Origin) then Some(SitemapBody) else None,
    b => TwoPageDoc,
    b => EmptyPage,
    ParseExampleUrl,
    ParseExampleFloat)

  const HomePage: SitemapCrawler.SitemapPage := SitemapCrawler.SitemapPage(HomeLoc, Some(1.0), None, None)
  const AboutPage: SitemapCrawler.SitemapPage := SitemapCrawler.SitemapPage(AboutLoc, Some(0.5), Some("monthly"), None)

  /** The two sitemap entries come back as two page descriptors, in document order. */
  lemma TwoPageSitemapPages()
    ensures SitemapCrawler.FetchSitemapPages(TwoPageSite, Origin) == [HomePage, AboutPage]
  {
  }

  /** The two pages project to the route paths `/` and `/about`. */
  lemma TwoPageSitemapPaths()
    ensures SitemapCrawler.GetAllPagePaths(TwoPageSite, Origin) == Some(["/", "/about"])
  {
    TwoPageSitemapPages();
    var env := TwoPageSite;
    assert SitemapCrawler.PathOf(env, Origin, HomePage) == Some("/");
    assert SitemapCrawler.PathOf(env, Origin, AboutPage) == Some("/about");
    var pages := [HomePage, AboutPage];
    assert pages[1..] == [AboutPage] && pages[1..][1..] == [];
    var projected := SitemapCrawler.ProjectedPaths(env, Origin, pages);
    assert SitemapCrawler.ProjectedPaths(env, Origin, [AboutPage]) == ["/about"] by {
      assert [AboutPage][0] == AboutPage && [AboutPage][1..] == [];
    }
    assert projected == ["/", "/about"];
    assert Dedup({}, projected) == ["/"] + Dedup({"/"}, ["/about"]);
    assert Dedup({"/"}, ["/about"]) == ["/about"] + Dedup({"/", "/about"}, []);
  }

  const NoIcons: IconLinks := IconLinks(None, None, None, None, None, None)

  const EmptyPage: HtmlDoc := HtmlDoc("", None, None, None, None, None, None, NoIcons, [], [], [], [])

  /** Twenty-five characters of body text. */
  const Body25: string := "Twenty-five characters ok"

  /** `<title>Acme</title>`, no description meta, one `<h1>Welcome</h1>` and one 25-character `<p>`. */
  const AcmePage: HtmlDoc := HtmlDoc("Acme", None, None, None, None, None, None, NoIcons,
                                     ["Welcome"], [Body25], [], [])

  lemma AcmePageExtraction(targetUrl: string, lastFetched: string)
    ensures var c := Seo.Extract(targetUrl, Origin, AcmePage, lastFetched);
            c.title == "Acme" && c.description == Seo.DefaultDescription &&
            c.headings == ["Welcome"] && c.paragraphs == [Body25]
  {
    var c := Seo.Extract(targetUrl, Origin, AcmePage, lastFetched);
    assert c.headings == Seo.Headings(["Welcome"]) by {
      assert AcmePage.headingTexts == ["Welcome"];
    }
    assert c.paragraphs == Seo.Paragraphs([Body25]) by {
      assert AcmePage.paragraphTexts == [Body25];
    }
    assert c.title == "Acme" by {
      assert AcmePage.titleText == "Acme";
    }
    assert c.description == Seo.DefaultDescription by {
      assert !Truthy(AcmePage.description) && !Truthy(AcmePage.ogDescription);
    }
    WelcomeIsTheHeading();
    Body25IsTheParagraph();
  }

  lemma WelcomeIsTheHeading()
    ensures Seo.Headings(["Welcome"]) == ["Welcome"]
  {
    assert NoEdgeSpace("Welcome");
    assert Trim(["Welcome"][0]) == "Welcome";
    assert Seo.HeadingFits("Welcome");
    var r := Seo.Headings(["Welcome"]);
    assert |r| <= 1 by {
      assert |Filter(Seo.HeadingFits, Seo.TrimAll(["Welcome"]))| <= 1;
    }
    assert "Welcome" in r;
  }

  lemma Body25IsTheParagraph()
    ensures Seo.Paragraphs([Body25]) == [Body25]
  {
    assert |Body25| == 25;
    assert NoEdgeSpace(Body25);
    assert Trim([Body25][0]) == Body25;
    assert Seo.ParagraphFits(Body25);
    var r := Seo.Paragraphs([Body25]);
    assert |r| <= 1 by {
      assert |Filter(Seo.ParagraphFits, Seo.TrimAll([Body25]))| <= 1;
    }
    assert Body25 in r;
  }

  /** A page offering both an SVG icon and a shortcut icon gets the SVG one. */
  lemma SvgIconBeatsShortcut(svg: string, shortcut: string, d: HtmlDoc)
    requires svg != "" && shortcut != ""
    requires d.icons == IconLinks(Some(svg), None, None, Some(shortcut), None, None)
    ensures Seo.Extract(HomeLoc, Origin, d, "").favicon == Seo.NormalizeIcon(svg, Origin)
  {
  }
}
