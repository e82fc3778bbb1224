# Cromwell CMS: order, sitemap and table-row logic in Dafny

This project models the deterministic data handling of Cromwell CMS's server-side
`CmsService` (system/server/src/services/cms.service.ts) around its store engine
("CStore"), and the selection and rendering rules of one row of the admin panel's
entity table (system/admin-panel/src/components/entity/entityTable/EntityTableItem.tsx).

The store engine prices the cart, resolves attribute variants, applies coupons and
converts currencies. Its source is not part of this model. What it reports
(`getCart()` and `getCartTotal()`) is an `Engine` function passed in as a parameter.
Money is in integer minor units.

Modules, one per concern:

- `Wrappers`: `Option` (JavaScript `undefined`, with `GetOr` as `??`), `Result`, the
  `TypeError` both the clean-up and the table row can throw, and `NoDuplicates`.
- `Entities`: products, categories, attribute instances and cart lines. The shapes
  follow system/core/common/src/types/entities.ts.
- `CartCleanup`: the clean-up `placeOrder` applies to the priced cart.
  - A line with more than 1000 picked attribute keys loses all of them.
  - Otherwise each key is visited and value lists longer than 1000 are deleted.
  - A key whose list is missing or empty is deleted and then read again (`undefined.length`).
    That throws a TypeError out of `placeOrder`. The model keeps this: it is a `Failure` of the
    whole clean-up, not a silent drop.
  - The exception is a key that names a member of `Object.prototype` (`constructor`,
    `toString`, `__proto__`, ...). After the `delete`, the second read finds the inherited
    member, so nothing throws and the key is simply dropped.
  - Products are projected onto the fields an order keeps, and categories onto `{id, name}`.
  - The per-key loop is a method (`CleanPickedAttributes`) proved equal to the function the
    rest of the model uses.
- `OrderTotals`: `calcOrderTotal` (URL/currency fields, engine totals, a missing total read
  as 0, shipping from the settings, the order total as cart total plus shipping, the applied
  coupon codes in the engine's order) and `createPaymentSession` (drop lines without a
  product; reject "Cart is invalid or empty").
- `OrderPlacement`: the coupon objects whose `usedTimes` is incremented in place, the
  order record with status `Pending`, and `placeOrder` as a method over them.
- `Sitemap`: `addPage` over a builder object with the `urls` list and `content` string,
  the theme-page filter, the entity loops and the XML document.
- `SystemUsage`: the `cpuLoads` window of the last 30 samples.
- `PageStats`: the per-route page-view counter of `viewPage`, on an in-memory table.
- `ModuleImages`: the `images` list of `parseModuleConfigImages`.
- `EntityTableItem`: the "select all except" rule, one cell per column, and when the edit
  and delete actions appear.

Injected and opaque things are parameters: `findRedirect`, `resolvePageRoute`, the date
formatting of `lastmod`, the clock, the monitor's usage report, the base64 image read, what the coupon
repository returns, and what the payment plugins answer.

In three places the code does less than an order engine is usually expected to do, and the
model follows the code:

- Attribute entries with no values are not dropped: the code throws (see above), except
  under inherited key names.
- `usedTimes` is not a compare-and-increment at the storage layer. The code loads the
  coupons, increments each in memory and saves it, and logs any error.
- The order total is not floored at zero. The code adds shipping to the engine's cart
  total.

## Model

| member | source | states |
|---|---|---|
| CartCleanup.CleanPickedAttributes | system/server/src/services/cms.service.ts:450-459 | the in-place key loop fails exactly when some key that names no `Object.prototype` member has a missing or empty value list; otherwise exactly the keys whose lists are non-empty and have at most 1000 values survive, with unchanged values, in whatever order the keys are visited |
| CartCleanup.ProjectProduct | system/server/src/services/cms.service.ts:460-478 | the projected product keeps every whitelisted field unchanged, drops every other field, and keeps each category's id and name in order |
| CartCleanup.ProjectProductFixpoint | system/server/src/services/cms.service.ts:460-478 | the projection leaves a product unchanged if and only if it already holds only whitelisted fields |
| CartCleanup.CleanItem | system/server/src/services/cms.service.ts:446-483 | a line fails exactly when it has at most 1000 keys and one of them, not named after an `Object.prototype` member, has a missing or empty list; more than 1000 keys leaves `pickedAttributes` undefined; surviving keys are those with a non-empty list of at most 1000 values, unchanged; amount is kept; the product is projected |
| CartCleanup.CleanCart | system/server/src/services/cms.service.ts:445-484 | the cart fails exactly when some line fails; otherwise it keeps its length and order and line i is the clean-up of input line i |
| CartCleanup.CleanOrderCart | system/server/src/services/cms.service.ts:444-485 | a missing cart is left missing; a present cart is cleaned as above |
| CartCleanup.CleanItemIsClean | system/server/src/services/cms.service.ts:447-478 | every cleaned line is within the caps, has no missing or empty lists and carries a whitelisted product |
| CartCleanup.CleanItemOfClean | system/server/src/services/cms.service.ts:446-483 | a line within the caps with a whitelisted product is left as it is |
| CartCleanup.CleanCartIdempotent | system/server/src/services/cms.service.ts:445-484 | cleaning an already cleaned cart changes nothing |
| OrderTotals.CouponCodes | system/server/src/services/cms.service.ts:609 | the applied coupon codes are the engine coupons' codes, one per coupon, in the engine's order |
| OrderTotals.CalcOrderTotal | system/server/src/services/cms.service.ts:567-617 | a cart that did not parse gives a total with only the URL and currency fields; otherwise the cart total is the engine's total or 0, shipping is the configured default or 0, the order total is their sum, and the engine's cart, old total, quantity and coupon codes are copied |
| OrderTotals.WithProduct | system/server/src/services/cms.service.ts:622 | the filter keeps exactly the lines that have a product |
| OrderTotals.WithProductAppend | system/server/src/services/cms.service.ts:622 | the filter keeps the relative order of lines: it distributes over concatenation |
| OrderTotals.CreatePaymentSession | system/server/src/services/cms.service.ts:620-628 | it rejects with "Cart is invalid or empty" exactly when there is no cart or no line has a product; otherwise the total keeps only lines with a product, its prices still add up, and it carries the plugins' payment options |
| OrderPlacement.Coupon.RecordUse | system/server/src/services/cms.service.ts:493-494 | a used count becomes its old value plus one; an absent or zero count becomes 1 |
| OrderPlacement.IncrementCouponUsage | system/server/src/services/cms.service.ts:492-496 | every coupon in the list gets one more use per occurrence in the list; no other object changes |
| OrderPlacement.DistinctCouponsCountedOnce | system/server/src/services/cms.service.ts:489-495 | when the repository returns each coupon row once, each coupon is counted exactly once |
| OrderPlacement.CreateOrder | system/server/src/services/cms.service.ts:502-521 | the order has status Pending, its coupon codes are the applied coupons, and its totals, cart and customer fields are those of the total and the request |
| OrderPlacement.PlaceOrder | system/server/src/services/cms.service.ts:439-521 | a clean-up failure rejects the order and leaves every coupon unchanged; otherwise the recorded order is built from the cleaned cart, is Pending, lists the applied coupons and its order total is cart total plus shipping; coupons are incremented only when some coupon was applied |
| Sitemap.WithLeadingSlash | system/server/src/services/cms.service.ts:244 | the path starts with a slash, and a route that already has one is unchanged |
| Sitemap.PageUrl | system/server/src/services/cms.service.ts:244-254 | a route is skipped exactly when its redirect is a rewrite from /404; a listed URL starts with the website URL or with http; without a redirect target it is the website URL followed by the slash-prefixed route, with one it is the target, prefixed with the website URL unless it starts with http |
| Sitemap.ListPage | system/server/src/services/cms.service.ts:243-264 | adding a page keeps the URL list free of duplicates and made only of site URLs, leaves it unchanged for a rewrite from /404, and otherwise lists the page's URL, appending it and its entry only when it is new |
| Sitemap.ListPagesValid | system/server/src/services/cms.service.ts:243-264 | a run of addPage calls keeps the URL list free of duplicates and made only of site URLs |
| Sitemap.ListPagesKeepsListed | system/server/src/services/cms.service.ts:256-257 | a run of addPage calls never removes or reorders URLs already listed |
| Sitemap.ListPagesAppend | system/server/src/services/cms.service.ts:292-295 | adding two runs of pages one after the other equals adding their concatenation |
| Sitemap.ListPagesListsEveryPage | system/server/src/services/cms.service.ts:256-257 | every page that yields a URL has that URL listed at the end, whatever pages came before or after it |
| Sitemap.ThemeEntries | system/server/src/services/cms.service.ts:265-274 | the theme-page loop makes at most one addPage call per page |
| Sitemap.ThemeEntriesFilter | system/server/src/services/cms.service.ts:265-274 | every addPage call comes from an input theme page whose route is set, is not index or 404 and contains neither [slug] nor [id], and is dated today; every such page gets its call |
| Sitemap.ThemeEntriesAppend | system/server/src/services/cms.service.ts:265-274 | the filter keeps the theme pages' order: it distributes over concatenation |
| Sitemap.EntityEntries | system/server/src/services/cms.service.ts:277-290 | one addPage call per entity, in order, with the route resolved from its slug or else its id, dated by its update date, else its creation date, else today |
| Sitemap.SitemapBuilder.constructor | system/server/src/services/cms.service.ts:240-241 | the builder starts with no URLs and empty content |
| Sitemap.SitemapBuilder.AddPage | system/server/src/services/cms.service.ts:243-264 | the builder's URLs and content after addPage are those of ListPage |
| Sitemap.SitemapBuilder.AddThemePages | system/server/src/services/cms.service.ts:266-275 | the loop over theme pages adds exactly the filtered theme entries, in order |
| Sitemap.SitemapBuilder.AddEntityPages | system/server/src/services/cms.service.ts:277-290 | the loop over an entity table adds that table's entries, in order |
| Sitemap.BuildSitemap | system/server/src/services/cms.service.ts:234-305 | it fails exactly when the settings lack a website URL; otherwise the document wraps the entries of theme pages, posts, products, categories and tags, in that order, and the listed URLs are distinct and all site URLs |
| SystemUsage.RecentWindow | system/server/src/services/cms.service.ts:771 | the window holds at most 30 samples, is the whole history when that is short enough, and is otherwise its last 30 samples |
| SystemUsage.RecordedSampleIsLast | system/server/src/services/cms.service.ts:765-772 | after a sample the newest entry is that sample and the older entries are the newest previous samples in their order |
| SystemUsage.WindowOfWindow | system/server/src/services/cms.service.ts:765-772 | trimming after every sample gives the same history as keeping the last 30 of all samples |
| SystemUsage.SystemMonitor.GetSystemUsage | system/server/src/services/cms.service.ts:757-778 | a report with a current load appends the sample and trims to the last 30; a report without one leaves the history unchanged; the report's previous loads are the history whenever it has a CPU part |
| PageStats.Viewed | system/server/src/services/cms.service.ts:411-437 | a view without a route changes nothing; otherwise the route's count goes up by exactly one (a missing count reads as 0), a new route gets a row with the view's fields and one view, and no other row changes |
| PageStats.PageStatsStore.ViewPage | system/server/src/services/cms.service.ts:411-437 | the table after viewPage is the one Viewed describes |
| ModuleImages.WithImage | system/server/src/services/cms.service.ts:187-188 | the image ends up in the list, appended only when absent, and the list stays free of duplicates |
| ModuleImages.WithImageIdempotent | system/server/src/services/cms.service.ts:187-188 | adding the same image twice is adding it once |
| ModuleImages.ParseModuleConfigImages | system/server/src/services/cms.service.ts:159-189 | a missing images list becomes empty; a set image is replaced by its base64 content when that could be read and then listed once; nothing changes for a missing module |
| EntityTableItem.IsSelected | system/admin-panel/src/components/entity/entityTable/EntityTableItem.tsx:33-35 | a row is selected if and only if "select all" differs from whether its id is marked |
| EntityTableItem.SelectionIsMembership | system/admin-panel/src/components/entity/entityTable/EntityTableItem.tsx:35 | without "select all", selection is exactly being marked |
| EntityTableItem.MarkExcludesOnlyThatRow | system/admin-panel/src/components/entity/entityTable/EntityTableItem.tsx:34 | with "select all", marking an id deselects that row and leaves every other row as it was |
| EntityTableItem.Cells | system/admin-panel/src/components/entity/entityTable/EntityTableItem.tsx:48-59 | one cell per column, in column order, showing the entity's property or the empty string when it is missing |
| EntityTableItem.EditLink | system/admin-panel/src/components/entity/entityTable/EntityTableItem.tsx:62-63 | the edit link exists if and only if there is a base route and an id, and it targets the base route, a slash and the id |
| EntityTableItem.RenderItem | system/admin-panel/src/components/entity/entityTable/EntityTableItem.tsx:29-78 | rendering fails exactly when there is no entity; otherwise the row's selection follows the rule above; cell i shows column i's property of the entity, or the empty string when it is missing; the edit link exists if and only if there is a non-empty base route and an id, and targets the base route, a slash and the id; the delete action appears if and only if the id is set |

## Left out

- The store engine: attribute variants, coupon validation and stacking, currency conversion and
  cart totals. Its source is not part of this model; what it reports is a parameter.
- JSON parsing of a submitted cart: the request carries the already parsed cart, or none.
- Floating-point rounding with `toFixed` and `parseFloat`: money is integer minor units and
  rounding is the identity. The percentage column width of a table row is left out for the same reason.
- File and OS I/O: uploads, the module icon and the base64 reads, robots.txt, writing the
  sitemap file, and e-mail templating and sending.
- Setting the engine's active currency inside `placeOrder`: it only affects the e-mail, which is left out.
- Database work: repository finds and saves, and the statistics queries. Counters live in
  in-memory objects and maps. A failing lookup in `viewPage` (swallowed, so a new row is created)
  and a failing save inside the coupon loop are not modelled.
- Update and install orchestration, shell commands, restarts, the `setInterval` sitemap
  schedule and all concurrency.
- Date formatting (`format(date, 'yyyy-MM-dd')`), `findRedirect` and `resolvePageRoute`: they are
  uninterpreted parameters.
- `createPaymentSession`'s call to the payment plugins: their answer is a parameter.
- OrderTotals.CalcOrderTotal: does not model `typeof null === 'object'`, which lets a `null` cart
  reach the engine; a cart is either parsed or absent.
- SystemUsage.SystemMonitor.GetSystemUsage: does not tell a `null` current load from an absent one.
  The code tests `!== undefined`, so it would push a `null` load; the model's `None` stands for both
  and skips the sample.
- EntityTableItem.IsSelected: does not model a `null` id, which JavaScript reads as the key `"null"`.
  A missing id is modelled, and reads as the key `"undefined"`.
- ModuleImages.ParseModuleConfigImages: does not model the module icon, because that part is only the base64 file read.
- The `TStoreListItem` type is not part of this model: a cart line carries only the three properties an order keeps.
