/**
 * The URL list of `buildSitemap` (system/server/src/services/cms.service.ts:234-306):
 * `addPage` normalises a route, follows a redirect, makes it absolute and lists
 * it once; theme pages are filtered before they reach it. `findRedirect`,
 * `resolvePageRoute` and date formatting are parameters.
 */
module Sitemap {
  import opened Wrappers
  import Entities

  datatype RedirectKind = Redirect | Rewrite

  /** What `findRedirect` returns for a path. */
  datatype RedirectRule = RedirectRule(kind: RedirectKind, from: Option<string>, to: Option<string>)

  /**
   * The website URL from the CMS settings, the redirect table lookup, and
   * `format(date, 'yyyy-MM-dd')`.
   */
  datatype SiteConfig = SiteConfig(
    baseUrl: string,
    findRedirect: string -> Option<RedirectRule>,
    formatDate: Entities.Date -> string)

  predicate StartsWith(s: string, prefix: string) {
    |prefix| <= |s| && s[..|prefix|] == prefix
  }

  /** `s.includes(part)`. */
  predicate Contains(s: string, part: string) {
    StartsWith(s, part) || (|s| > 0 && Contains(s[1..], part))
  }

  function WithLeadingSlash(route: string): (path: string)
    ensures StartsWith(path, "/")
    ensures StartsWith(route, "/") ==> path == route
    ensures !StartsWith(route, "/") ==> path == "/" + route
  {
    if StartsWith(route, "/") then route else "/" + route
  }

  predicate IsRewriteFrom404(rule: Option<RedirectRule>) {
    rule.Some? && rule.value.kind == Rewrite && rule.value.from == Some("/404")
  }

  /** A redirect with a non-empty target replaces the route. */
  predicate Redirects(rule: Option<RedirectRule>) {
    rule.Some? && rule.value.kind == Redirect && rule.value.to.Some? && rule.value.to.value != ""
  }

  /** A URL `addPage` may list: under the website URL, or already absolute. */
  predicate IsSiteUrl(url: string, baseUrl: string) {
    StartsWith(url, baseUrl) || StartsWith(url, "http")
  }

  /** The URL `addPage` lists for `route`, or `None` when it returns early on a rewrite from `/404`. */
  function PageUrl(config: SiteConfig, route: string): (r: Option<string>)
    ensures var rule := config.findRedirect(WithLeadingSlash(route));
      && (r.None? <==> IsRewriteFrom404(rule))
      && (r.Some? ==> IsSiteUrl(r.value, config.baseUrl))
      && (r.Some? && !Redirects(rule) ==> r.value == config.baseUrl + WithLeadingSlash(route))
      && (r.Some? && Redirects(rule) ==>
            r.value == if StartsWith(rule.value.to.value, "http") then rule.value.to.value
                       else config.baseUrl + rule.value.to.value)
  {
    var path := WithLeadingSlash(route);
    var rule := config.findRedirect(path);
    var target := if Redirects(rule) then rule.value.to.value else path;
    assert !Redirects(rule) ==> target[0] == '/' && !StartsWith(target, "http");
    if IsRewriteFrom404(rule) then None
    else if StartsWith(target, "http") then Some(target)
    else
      assert (config.baseUrl + target)[..|config.baseUrl|] == config.baseUrl;
      Some(config.baseUrl + target)
  }

  /** The listed URLs and the `<url>` entries written so far. */
  datatype SitemapState = SitemapState(urls: seq<string>, content: string)

  const EmptySitemap := SitemapState([], "")

  /** The arguments of one `addPage` call: a route and the date for its `<lastmod>`. */
  datatype PageEntry = PageEntry(route: string, lastmod: Entities.Date)

  /** What every reachable sitemap satisfies. */
  predicate SitemapValid(s: SitemapState, baseUrl: string) {
    NoDuplicates(s.urls) && forall u :: u in s.urls ==> IsSiteUrl(u, baseUrl)
  }

  function UrlEntry(url: string, lastmod: string): string {
    "  <url>\n    <loc>" + url + "</loc>\n    <lastmod>" + lastmod + "</lastmod>\n  </url>\n"
  }

  /** `addPage(route, updDate)`. */
  function ListPage(config: SiteConfig, s: SitemapState, page: PageEntry): (r: SitemapState)
    ensures SitemapValid(s, config.baseUrl) ==> SitemapValid(r, config.baseUrl)
    ensures IsRewriteFrom404(config.findRedirect(WithLeadingSlash(page.route))) ==> r == s
    ensures PageUrl(config, page.route).Some? ==> PageUrl(config, page.route).value in r.urls
    ensures r != s ==> PageUrl(config, page.route).Some?
    ensures r != s ==>
      var url := PageUrl(config, page.route).value;
      url !in s.urls && r.urls == s.urls + [url] && r.content == s.content + UrlEntry(url, config.formatDate(page.lastmod))
  {
    match PageUrl(config, page.route)
    case None => s
    case Some(url) =>
      if url in s.urls then s
      else SitemapState(s.urls + [url], s.content + UrlEntry(url, config.formatDate(page.lastmod)))
  }

  /** `addPage` applied to each entry in turn. */
  function ListPages(config: SiteConfig, s: SitemapState, pages: seq<PageEntry>): SitemapState
    decreases |pages|
  {
    if pages == [] then s
    else ListPage(config, ListPages(config, s, pages[..|pages| - 1]), pages[|pages| - 1])
  }

  /** A run of `addPage` calls keeps the URL list free of duplicates and made of site URLs. */
  lemma {:induction false} ListPagesValid(config: SiteConfig, s: SitemapState, pages: seq<PageEntry>)
    requires SitemapValid(s, config.baseUrl)
    ensures SitemapValid(ListPages(config, s, pages), config.baseUrl)
    decreases |pages|
  {
    if pages != [] {
      ListPagesValid(config, s, pages[..|pages| - 1]);
    }
  }

  /** A run of `addPage` calls never removes or reorders URLs already listed. */
  lemma {:induction false} ListPagesKeepsListed(config: SiteConfig, s: SitemapState, pages: seq<PageEntry>)
    ensures var r := ListPages(config, s, pages);
      |s.urls| <= |r.urls| && r.urls[..|s.urls|] == s.urls
    decreases |pages|
  {
    if pages != [] {
      var before := ListPages(config, s, pages[..|pages| - 1]);
      ListPagesKeepsListed(config, s, pages[..|pages| - 1]);
      var r := ListPage(config, before, pages[|pages| - 1]);
      assert r.urls[..|before.urls|] == before.urls;
      assert r.urls[..|s.urls|] == before.urls[..|s.urls|];
    }
  }

  /** One more entry is one more `addPage` call. */
  lemma ListPagesStep(config: SiteConfig, s: SitemapState, pages: seq<PageEntry>, page: PageEntry)
    ensures ListPages(config, s, pages + [page]) == ListPage(config, ListPages(config, s, pages), page)
  {
    assert (pages + [page])[..|pages|] == pages;
  }

  lemma {:induction false} ListPagesAppend(config: SiteConfig, s: SitemapState, a: seq<PageEntry>, b: seq<PageEntry>)
    ensures ListPages(config, s, a + b) == ListPages(config, ListPages(config, s, a), b)
    decreases |b|
  {
    if b == [] {
      assert a + b == a;
    } else {
      assert (a + b)[..|a + b| - 1] == a + b[..|b| - 1];
      ListPagesAppend(config, s, a, b[..|b| - 1]);
    }
  }

  /** Every URL a page yields ends up listed, whatever came before or after it. */
  lemma {:induction false} ListPagesListsEveryPage(config: SiteConfig, s: SitemapState, pages: seq<PageEntry>, k: nat)
    requires k < |pages| && PageUrl(config, pages[k].route).Some?
    ensures PageUrl(config, pages[k].route).value in ListPages(config, s, pages).urls
    decreases |pages|
  {
    var last := |pages| - 1;
    var url := PageUrl(config, pages[k].route).value;
    var before := ListPages(config, s, pages[..last]);
    var after := ListPage(config, before, pages[last]);
    assert ListPages(config, s, pages) == after;
    if k < last {
      assert pages[..last][k] == pages[k];
      ListPagesListsEveryPage(config, s, pages[..last], k);
      assert url in before.urls;
      ListPagesKeepsListed(config, before, [pages[last]]);
      assert ListPages(config, before, [pages[last]]) == after by {
        assert [pages[last]][..0] == [];
      }
      assert after.urls[..|before.urls|] == before.urls;
      assert url in after.urls;
    }
  }

  /** A theme page as its config declares it: `route` may be missing. */
  datatype ThemePage = ThemePage(route: Option<string>)

  /** The filter of cms.service.ts:267-269: no dynamic, index or 404 pages. */
  predicate IsListedThemePage(route: Option<string>) {
    && route.Some? && route.value != ""
    && !Contains(route.value, "[slug]") && !Contains(route.value, "[id]")
    && route.value != "index" && route.value != "404"
  }

  /** The `addPage` calls the theme-page loop makes; theme pages take today's date. */
  function ThemeEntries(pages: seq<ThemePage>, today: Entities.Date): (r: seq<PageEntry>)
    ensures |r| <= |pages|
    decreases |pages|
  {
    if pages == [] then []
    else
      var last := pages[|pages| - 1];
      ThemeEntries(pages[..|pages| - 1], today) + if IsListedThemePage(last.route) then [PageEntry(last.route.value, today)] else []
  }

  /**
   * Exactly the listed theme pages are added: every entry comes from an input
   * page that passes the filter and is dated today, and every such page has its entry.
   */
  lemma {:induction false} ThemeEntriesFilter(pages: seq<ThemePage>, today: Entities.Date)
    ensures var r := ThemeEntries(pages, today);
      && (forall e :: e in r ==> e.lastmod == today && IsListedThemePage(Some(e.route)))
      && (forall e :: e in r ==> exists i :: 0 <= i < |pages| && pages[i].route == Some(e.route))
      && (forall i :: 0 <= i < |pages| && IsListedThemePage(pages[i].route) ==> PageEntry(pages[i].route.value, today) in r)
    decreases |pages|
  {
    if pages != [] {
      var init := pages[..|pages| - 1];
      ThemeEntriesFilter(init, today);
      assert forall i :: 0 <= i < |init| ==> init[i] == pages[i];
    }
  }

  /** One more theme page adds at most its own entry. */
  lemma ThemeEntriesStep(pages: seq<ThemePage>, i: nat, today: Entities.Date)
    requires i < |pages|
    ensures ThemeEntries(pages[..i + 1], today)
         == ThemeEntries(pages[..i], today)
            + if IsListedThemePage(pages[i].route) then [PageEntry(pages[i].route.value, today)] else []
  {
    assert pages[..i + 1][..i] == pages[..i];
  }

  /** The theme-page filter keeps the pages' order: it distributes over concatenation. */
  lemma {:induction false} ThemeEntriesAppend(a: seq<ThemePage>, b: seq<ThemePage>, today: Entities.Date)
    ensures ThemeEntries(a + b, today) == ThemeEntries(a, today) + ThemeEntries(b, today)
    decreases |b|
  {
    if b == [] {
      assert a + b == a;
    } else {
      assert (a + b)[..|a + b| - 1] == a + b[..|b| - 1];
      ThemeEntriesAppend(a, b[..|b| - 1], today);
    }
  }

  datatype PageKind = PostPage | ProductPage | CategoryPage | TagPage

  /** The columns `outputEntity` selects from a post, product, category or tag. */
  datatype EntityRecord = EntityRecord(
    id: string, slug: Option<string>, updateDate: Option<Entities.Date>, createDate: Option<Entities.Date>)

  /** The route and date `outputEntity` passes to `addPage` for one entity. */
  function EntityEntry(kind: PageKind, e: EntityRecord, resolvePageRoute: (PageKind, string) -> string, today: Entities.Date): PageEntry {
    PageEntry(resolvePageRoute(kind, e.slug.GetOr(e.id)), e.updateDate.GetOr(e.createDate.GetOr(today)))
  }

  function EntityEntries(kind: PageKind, es: seq<EntityRecord>, resolvePageRoute: (PageKind, string) -> string, today: Entities.Date): (r: seq<PageEntry>)
    ensures |r| == |es|
    ensures forall i :: 0 <= i < |es| ==> r[i] == EntityEntry(kind, es[i], resolvePageRoute, today)
  {
    seq(|es|, i requires 0 <= i < |es| => EntityEntry(kind, es[i], resolvePageRoute, today))
  }

  /** The builder inside `buildSitemap`: the `urls` array and the `content` string. */
  class SitemapBuilder {
    const config: SiteConfig
    var urls: seq<string>
    var content: string

    function State(): SitemapState
      reads this
    {
      SitemapState(urls, content)
    }

    constructor (config: SiteConfig)
      ensures this.config == config && State() == EmptySitemap
    {
      this.config := config;
      urls := [];
      content := "";
    }

    method AddPage(page: PageEntry)
      modifies this
      ensures State() == ListPage(config, old(State()), page)
    {
      var url := PageUrl(config, page.route);
      if url.None? {
        return;
      }
      if url.value in urls {
        return;
      }
      urls := urls + [url.value];
      content := content + UrlEntry(url.value, config.formatDate(page.lastmod));
    }

    /** `configs.themeConfig?.pages?.forEach(...)`. */
    method AddThemePages(pages: seq<ThemePage>, today: Entities.Date)
      modifies this
      ensures State() == ListPages(config, old(State()), ThemeEntries(pages, today))
    {
      var i := 0;
      while i < |pages|
        invariant 0 <= i <= |pages|
        invariant State() == ListPages(config, old(State()), ThemeEntries(pages[..i], today))
      {
        ghost var before := ThemeEntries(pages[..i], today);
        ThemeEntriesStep(pages, i, today);
        if IsListedThemePage(pages[i].route) {
          var page := PageEntry(pages[i].route.value, today);
          ListPagesStep(config, old(State()), before, page);
          AddPage(page);
        } else {
          assert before + [] == before;
        }
        i := i + 1;
      }
      assert pages[..i] == pages;
    }

    /** `outputEntity(repo, pageName)` over the entities the repository found. */
    method AddEntityPages(kind: PageKind, es: seq<EntityRecord>, resolvePageRoute: (PageKind, string) -> string, today: Entities.Date)
      modifies this
      ensures State() == ListPages(config, old(State()), EntityEntries(kind, es, resolvePageRoute, today))
    {
      var i := 0;
      while i < |es|
        invariant 0 <= i <= |es|
        invariant State() == ListPages(config, old(State()), EntityEntries(kind, es[..i], resolvePageRoute, today))
      {
        var entries := EntityEntries(kind, es[..i + 1], resolvePageRoute, today);
        assert entries[..i] == EntityEntries(kind, es[..i], resolvePageRoute, today);
        AddPage(EntityEntry(kind, es[i], resolvePageRoute, today));
        i := i + 1;
      }
      assert es[..i] == es;
    }
  }

  datatype SitemapError = MissingWebsiteUrl

  /** The written `default_sitemap.xml` and the URLs it lists. */
  datatype SitemapFile = SitemapFile(urls: seq<string>, document: string)

  const XmlHead: string := "<?xml version=\"1.0\" encoding=\"UTF-8\"?>\n<urlset xmlns=\"http://www.sitemaps.org/schemas/sitemap/0.9\">\n"
  const XmlTail: string := "\n</urlset>"

  function Document(content: string): string {
    XmlHead + content + XmlTail
  }

  /** Every `addPage` call `buildSitemap` makes, in order: theme pages, posts, products, categories, tags. */
  function SitemapEntries(
    themePages: Option<seq<ThemePage>>, resolvePageRoute: (PageKind, string) -> string,
    posts: seq<EntityRecord>, products: seq<EntityRecord>, categories: seq<EntityRecord>, tags: seq<EntityRecord>,
    today: Entities.Date
  ): seq<PageEntry> {
    ThemeEntries(themePages.GetOr([]), today)
      + EntityEntries(PostPage, posts, resolvePageRoute, today)
      + EntityEntries(ProductPage, products, resolvePageRoute, today)
      + EntityEntries(CategoryPage, categories, resolvePageRoute, today)
      + EntityEntries(TagPage, tags, resolvePageRoute, today)
  }

  /** Five runs of `addPage`, one after the other, are one run over their concatenation. */
  lemma ListPagesInSequence(config: SiteConfig, s: SitemapState, a: seq<PageEntry>, b: seq<PageEntry>,
                            c: seq<PageEntry>, d: seq<PageEntry>, e: seq<PageEntry>)
    ensures ListPages(config, ListPages(config, ListPages(config, ListPages(config, ListPages(config, s, a), b), c), d), e)
         == ListPages(config, s, a + b + c + d + e)
  {
    ListPagesAppend(config, s, a, b);
    ListPagesAppend(config, s, a + b, c);
    ListPagesAppend(config, s, a + b + c, d);
    ListPagesAppend(config, s, a + b + c + d, e);
  }

  /** `buildSitemap` up to the file write; fails when the settings have no website URL. */
  method BuildSitemap(
    siteUrl: Option<string>, findRedirect: string -> Option<RedirectRule>, formatDate: Entities.Date -> string,
    themePages: Option<seq<ThemePage>>, resolvePageRoute: (PageKind, string) -> string,
    posts: seq<EntityRecord>, products: seq<EntityRecord>, categories: seq<EntityRecord>, tags: seq<EntityRecord>,
    today: Entities.Date
  ) returns (r: Result<SitemapFile, SitemapError>)
    ensures r.Failure? <==> siteUrl.None? || siteUrl.value == ""
    ensures r.Success? ==>
      var config := SiteConfig(siteUrl.value, findRedirect, formatDate);
      var final := ListPages(config, EmptySitemap,
                            SitemapEntries(themePages, resolvePageRoute, posts, products, categories, tags, today));
      r.value == SitemapFile(final.urls, Document(final.content))
    ensures r.Success? ==> NoDuplicates(r.value.urls) && forall u :: u in r.value.urls ==> IsSiteUrl(u, siteUrl.value)
  {
    if siteUrl.None? || siteUrl.value == "" {
      return Failure(MissingWebsiteUrl);
    }
    var config := SiteConfig(siteUrl.value, findRedirect, formatDate);
    var builder := new SitemapBuilder(config);
    builder.AddThemePages(themePages.GetOr([]), today);
    builder.AddEntityPages(PostPage, posts, resolvePageRoute, today);
    builder.AddEntityPages(ProductPage, products, resolvePageRoute, today);
    builder.AddEntityPages(CategoryPage, categories, resolvePageRoute, today);
    builder.AddEntityPages(TagPage, tags, resolvePageRoute, today);
    var final := builder.State();
    ghost var entries := SitemapEntries(themePages, resolvePageRoute, posts, products, categories, tags, today);
    ListPagesInSequence(config, EmptySitemap,
      ThemeEntries(themePages.GetOr([]), today),
      EntityEntries(PostPage, posts, resolvePageRoute, today),
      EntityEntries(ProductPage, products, resolvePageRoute, today),
      EntityEntries(CategoryPage, categories, resolvePageRoute, today),
      EntityEntries(TagPage, tags, resolvePageRoute, today));
    ListPagesValid(config, EmptySitemap, entries);
    r := Success(SitemapFile(final.urls, Document(final.content)));
  }
}
