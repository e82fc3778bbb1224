/**
 * The page-view counter of `viewPage` (system/server/src/services/cms.service.ts:411-437),
 * over an in-memory table of page statistics keyed by route.
 */
module PageStats {
  import opened Wrappers

  /** `PageStatsDto`: the page a visitor opened. */
  datatype PageView = PageView(
    pageRoute: Option<string>,
    pageName: Option<string>,
    slug: Option<string>,
    entityType: Option<string>)

  /** A `PageStats` row; its key, the route, is the key of the table. */
  datatype PageStat = PageStat(
    pageName: Option<string>,
    slug: Option<string>,
    entityType: Option<string>,
    views: Option<int>)

  type StatsTable = map<string, PageStat>

  /** `!input?.pageRoute`: an absent input or an absent or empty route is ignored. */
  predicate HasRoute(input: Option<PageView>) {
    input.Some? && input.value.pageRoute.Some? && input.value.pageRoute.value != ""
  }

  /** Recorded views of a route; no row or no count reads as 0. */
  function ViewCount(pages: StatsTable, route: string): int {
    if route in pages then pages[route].views.GetOr(0) else 0
  }

  /** The table after `viewPage(input)`. */
  function Viewed(pages: StatsTable, input: Option<PageView>): (r: StatsTable)
    ensures !HasRoute(input) ==> r == pages
    ensures HasRoute(input) ==>
      var route := input.value.pageRoute.value;
      && r.Keys == pages.Keys + {route}
      && ViewCount(r, route) == ViewCount(pages, route) + 1
      && (forall other :: other in pages && other != route ==> r[other] == pages[other])
      && (route in pages ==> r[route] == pages[route].(views := r[route].views))
      && (route !in pages ==> r[route] == PageStat(input.value.pageName, input.value.slug, input.value.entityType, Some(1)))
  {
    if !HasRoute(input) then pages
    else
      var v := input.value;
      var route := v.pageRoute.value;
      if route in pages then
        var page := pages[route];
        pages[route := page.(views := Some(page.views.GetOr(0) + 1))]
      else
        pages[route := PageStat(v.pageName, v.slug, v.entityType, Some(1))]
  }

  /** The `PageStats` table, updated in place. */
  class PageStatsStore {
    var pages: StatsTable

    constructor ()
      ensures pages == map[]
    {
      pages := map[];
    }

    method ViewPage(input: Option<PageView>)
      modifies this
      ensures pages == Viewed(old(pages), input)
    {
      if input.None? || input.value.pageRoute.None? || input.value.pageRoute.value == "" {
        return;
      }
      var route := input.value.pageRoute.value;
      if route in pages {
        var page := pages[route];
        if page.views.None? || page.views.value == 0 {
          page := page.(views := Some(0));
        }
        page := page.(views := Some(page.views.value + 1));
        pages := pages[route := page];
      } else {
        pages := pages[route := PageStat(input.value.pageName, input.value.slug, input.value.entityType, Some(1))];
      }
    }
  }
}
