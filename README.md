# Galaxus stock scraper: a Dafny model of its scraping core

The scraper reads category menus and product listings of the shop at
`https://www.galaxus.ch` and keeps the products that are in stock for pickup. This
project models its four core files:

- `src/lib/scraping/categories.ts` (module `Categories`): the category crawler. Its two
  module-level counters become the fields of the class `CategoryCrawler`. The retry on a
  missing selector, the choice of selector, the trimming of the first menu and the
  concatenation over links are methods proved against the spec functions `ScrapeRun`,
  `PageRun` and `LinksRun`.
- `src/lib/scraping.ts` (module `Scraping`): the cheerio product-card scraper with its
  own miss counter, modelled by the class `ScrapingSession`. It also holds this file's
  copies of the category code, which run on this file's own counters; the class keeps a
  `CategoryCrawler` of its own for them.
- `src/lib/scraping/products.ts` (module `ScrapingProducts`): the category listing,
  whose record id comes from the product link. It also holds the availability prober,
  which retries transient errors up to three times on the module counter `retryCounter`
  (class `ProductProber`) and accepts a stock line that contains "10 items".
- `src/lib/products.ts` (module `Products`): the other listing, whose id comes from the
  category url. Its prober parses the first number of the stock line and keeps stock
  levels of at least 10 that have a pickup location.

The shared value logic sits in two modules. `Cards` holds the listing address with the
in-stock filter, the id rule, the price normalisation, the card-to-record mapping with
the loop over the cards that both `getProductsDetails` run, and the capped category listing. `Text` holds the JavaScript string operations used:
`includes`, `replace` with a string pattern, `slice`, `/[^-]*$/` and `/\d+/`, and the
first-occurrence search `IndexOf` that `includes` and `replace` are defined by.

The browser is a function parameter throughout:
- `Categories.Site` gives the k-th read of an address with a selector.
- `Scraping.ProductSite` gives the k-th read of a product listing.
- `Cards.ListingSite` gives the page at an address.
- `ScrapingProducts.AttemptSite` gives the k-th attempt at the i-th product.
- `Products.ProbeSite` gives the probe of the i-th product.

Exceptions are oracle answers too. A `Fault` read of `Categories.Site` or
`Scraping.ProductSite` is a `goto`, `content` or `$` that throws. A `NavigationFailed`
or `MissingElement` listing page is the listing's exception, and a `Thrown` attempt the
prober's. The scrapers and the listings catch none of theirs, so each ends the call:
- In the category crawler a throw sets the `thrown` flag of `Scrape` and `Page`. The
  page's `requestCounter++` is skipped, and the miss counter keeps the value it had
  reached. A throw inside `openCategoryLinks` ends the loop, and the results collected
  so far are lost, so its result is `None` (`Categories.LinksThrowLosesCollected`).
- In `scrapeProducts` and in the two listings, whose results are arrays, `None` is the
  exception.

The two probers catch their exceptions: the one in src/lib/scraping/products.ts retries
transient ones (`ProbeRun`), the one in src/lib/products.ts skips the product.

The model follows the code, also where it departs from the code's own doc comments
and types:
- The doc comment of `scrapeCategories` (src/lib/scraping/categories.ts:18-22) promises
  the list of categories after up to 3 retries. A miss followed by a successful retry
  nevertheless returns undefined, because the retry's list is dropped
  (`Categories.ScrapeShape`, `Scraping.RetryPathsDiffer`). In `scrapeProducts` the
  retry's list is returned.
- The same comment says "Retries up to 3 times", but from a counter of 0 a selector
  that never matches is read 3 times in all, which is 2 retries
  (`Categories.PersistentMissGivesUp` with `misses == 0`).
- A present but empty details element gives `details == ""`, the same as an absent one.
- `Product.id` is typed `string | undefined` (src/lib/scraping.ts:19), and only an absent
  href gives undefined: an empty href has the id `""` (`Cards.ProductIdOfEmptyHref`).
- A category without a url makes `url.includes` throw, which ends the whole listing
  (`Cards.Listing`).
- A link without a url is opened at `https://www.galaxus.chundefined` (`Categories.LinkTarget`).
- When a round finds no stock, `getProducts` starts a new round but drops its result,
  so the call yields undefined (`ScrapingProducts.ProductProber.GetProducts`,
  `Products.GetProducts`).

## Model

| member | source | states |
|---|---|---|
| Categories.ToCategories | src/lib/scraping/categories.ts:39-44 | one category per selected anchor, in order, with the anchor's text and href |
| Categories.SpliceLastTwo | src/lib/scraping/categories.ts:62 | `splice(-2, 2)` drops the last two elements (all of a shorter list) and keeps the rest as a prefix |
| Categories.ScrapeRun | src/lib/scraping/categories.ts:24-46 | the specification of `scrapeCategories` from a miss counter and a read index; its properties are the next four lemmas, and `CategoryCrawler.ScrapeCategories` is proved equal to it |
| Categories.ScrapeShape | src/lib/scraping/categories.ts:24-46 | from a miss counter below 3: 1 to 3 - misses reads, the counter stays below 3, no list after a throw, a list exactly when the first read matched, and then the anchors' categories with the counter unchanged |
| Categories.PersistentMissGivesUp | src/lib/scraping/categories.ts:27-37 | a selector that never matches is read 3 - misses times, then the counter is reset to 0 and undefined returned |
| Categories.MissesThenMatch | src/lib/scraping/categories.ts:27-37 | n misses then a match: n + 1 reads, no throw, the counter ends at misses + n, and a list only when n is 0 |
| Categories.MissesThenFault | src/lib/scraping/categories.ts:26-37 | n misses then a throwing read: n + 1 reads, the throw ends the call with no list, and the counter stays at misses + n, not reset |
| Categories.LinkTarget | src/lib/scraping/categories.ts:79 | the opened address is `https://www.galaxus.ch` followed by the link's url, or by "undefined" for a link without one |
| Categories.SelectorFor | src/lib/scraping/categories.ts:59-60 | the navigation selector while `requestCounter` is 0, the sidebar selector once it is positive |
| Categories.PageRun | src/lib/scraping/categories.ts:55-66 | the specification of `openCategoriesPage`; `CategoryCrawler.OpenCategoriesPage` is proved equal to it and states its selector, trimming and counters |
| Categories.LinksRun | src/lib/scraping/categories.ts:74-86 | the specification of `openCategoryLinks`; its properties are `LinksCounters`, `LinksAppend` and `LinksThrowLosesCollected`, and `CategoryCrawler.OpenCategoryLinks` is proved equal to it |
| Categories.LinksCounters | src/lib/scraping/categories.ts:55-86 | each link whose page did not throw adds one to `requestCounter`, so it rises by at most the number of links, and by exactly that number when the call completes; the miss counter stays below 3 |
| Categories.LinksAppend | src/lib/scraping/categories.ts:74-86 | opening a + b collects a's results followed by b's, with the counters threaded through; a throw among a's pages ends the call before b |
| Categories.LinksThrowLosesCollected | src/lib/scraping/categories.ts:74-86 | when the page of the last link throws, the results collected from the earlier links are lost |
| Categories.CategoryCrawler.ScrapeCategories | src/lib/scraping/categories.ts:24-46 | the returned list, the new miss counter and the reads made are those of `ScrapeRun` from the old counter |
| Categories.CategoryCrawler.OpenCategoriesPage | src/lib/scraping/categories.ts:55-66 | the navigation selector on the first call and the sidebar selector after; only the first call's list is trimmed; a throw returns no list and leaves `requestCounter` as it was, otherwise it goes up by one; the miss counter invariant is kept |
| Categories.CategoryCrawler.OpenCategoryLinks | src/lib/scraping/categories.ts:74-86 | the results and the new counters are those of `LinksRun` over the links at `Origin + url`, `None` when a page threw; on completion `requestCounter` has gone up by the number of links |
| Cards.WithStockFilter | src/lib/scraping/products.ts:53-54 | `url + filters`; stated by `StockFilterAppends` and `StockFilterExtendsQuery` |
| Cards.StockFilterAppends | src/lib/scraping/products.ts:53-54 | the url is kept as a prefix, followed by '&' when it already has a '?' and by '?' when it has none, and then the same in-stock filter and sort order |
| Cards.ListingAddress | src/lib/scraping/products.ts:54 | the address `https://www.galaxus.ch` + url + filters; what the filter does to the query is `StockFilterExtendsQuery` |
| Cards.StockFilterExtendsQuery | src/lib/scraping/products.ts:53-54 | the filtered address keeps the path; the filter is appended to an existing query with '&' or starts one with '?' |
| Cards.ProductId | src/lib/scraping/products.ts:72-75 | the id is absent exactly when the href is absent, and has at most 8 characters and no '-' |
| Cards.ProductIdAfterLastDash | src/lib/scraping/products.ts:72-75 | the id is the first min(8, n) characters of the n characters after the last '-' |
| Cards.ProductIdOfListedUrl | src/lib/scraping/products.ts:72-75 | a product link ending in "-12345678" has the id "12345678" |
| Cards.ProductIdOfEmptyHref | src/lib/scraping/products.ts:72-75 | an empty href has the empty id, not an absent one |
| Cards.NormalizePrice | src/lib/scraping/products.ts:65 | the price text before `parseFloat`; its properties are the three lemmas that follow |
| Cards.NormalizePriceLength | src/lib/scraping/products.ts:65 | the text gets three characters shorter exactly when it contains "CHF", and keeps its length otherwise |
| Cards.NormalizePriceKeepsNormalText | src/lib/scraping/products.ts:65 | a price text without "CHF" and ',' is unchanged |
| Cards.NormalizePriceOfSwissPrice | src/lib/scraping/products.ts:65 | "CHF 19,90" becomes " 19.90" |
| Cards.DetailsText | src/lib/scraping/products.ts:66-67 | the details text, `""` without a details element; stated per record by `DetailsRecords` |
| Cards.ToProduct | src/lib/scraping/products.ts:62-76 | the record pushed for one card; `DetailsRecords` states all ten of its fields (id, product, brand, details, price, imageURL, url, category, categoryUrl, scrapedCategory), for both id sources |
| Cards.Details | src/lib/scraping/products.ts:52-80 | the specification of `getProductsDetails` for a page; stated by `DetailsRecords` |
| Cards.DetailsRecords | src/lib/scraping/products.ts:52-80 | a listing is produced exactly when the page loaded and every card had its elements; then it holds one record per card, in order, and each record's ten fields are: the card's product, brand, imageURL, category, category href (as categoryUrl) and href (as url); the details, or "" when absent; the normalised price; the listed address as scrapedCategory; and the id from the chosen source |
| Cards.CardRecords | src/lib/scraping/products.ts:59-79 | the loop over the cards builds exactly `Details` of the loaded page: one record per card in page order, or the exception at the first card with a missing element |
| Cards.Cap | src/lib/scraping/products.ts:30 | `slice(0, n)` keeps the first min(n, length) categories |
| Cards.Listing | src/lib/scraping/products.ts:88-96 | a listing is produced only when every category has a url; its other properties are the lemmas that follow |
| Cards.ListingAppend | src/lib/scraping/products.ts:88-96 | listing a + b gives a's records followed by b's, and fails when either fails |
| Wrappers.Join | src/lib/scraping/products.ts:93 | two results joined: present exactly when both are, and then the first's elements followed by the second's |
| Wrappers.JoinAssociative | src/lib/scraping/products.ts:93 | pushing the records of several categories in turn groups the same way whichever two are joined first |
| Wrappers.JoinEmpty | src/lib/scraping/products.ts:90 | the empty result is neutral on both sides of a join |
| Cards.ListingSkipsEmptyCategory | src/lib/scraping/products.ts:57 | a category whose page shows no card adds no record |
| Cards.ListingProvenance | src/lib/scraping/products.ts:76 | every record's `scrapedCategory` is the url of one of the input categories |
| Text.IndexOfFirst | src/lib/scraping/products.ts:140 | the search under `includes` and `replace` gives the least occurrence at or after `from`, and none when there is none |
| Text.ReplaceFirst | src/lib/scraping/products.ts:65 | `replace` with a string pattern; stated by `ReplaceFirstOccurrence` |
| Text.ReplaceFirstOccurrence | src/lib/scraping/products.ts:65 | without an occurrence the text is unchanged; otherwise the text before the first occurrence is kept, the replacement stands in its place, and the rest follows unchanged |
| Text.IncludesOccurs | src/lib/scraping/products.ts:140 | `includes` holds exactly when the pattern occurs somewhere |
| Text.DashFreeSuffix | src/lib/scraping/products.ts:73 | `/[^-]*$/` matches the longest suffix without '-' |
| Text.FirstDigitRunIsLeftmostMaximal | src/lib/products.ts:84 | `/\d+/` finds nothing exactly when there is no digit, and otherwise the leftmost maximal run of digits |
| Text.DecimalValueAtLeastTen | src/lib/products.ts:86 | a digit run is at least 10 exactly when a non-zero digit comes before its last digit |
| ScrapingProducts.Qualifies | src/lib/scraping/products.ts:140 | the push condition; what it means is `ProbeOutcome` with `Text.IncludesOccurs`, and how it differs from the other prober's rule is `Products.ThresholdRulesDiffer` |
| ScrapingProducts.Transient | src/lib/scraping/products.ts:150 | the catch block's retry test on the error message, passed to `ProbeRun` by the prober; stated by `NonTransientSkips` and `RetriedProbePushesOnce` |
| ScrapingProducts.ProbeRun | src/lib/scraping/products.ts:127-158 | the specification of `openProductPage` for one product, with the retry test as a parameter; its properties are the lemmas that follow, which hold for any retry test, and `ProductProber.OpenProductPage` is proved equal to it for `Transient` |
| ScrapingProducts.ProbeBounds | src/lib/scraping/products.ts:127-158 | from a counter c of at most 3: between 1 and 4 - c attempts, and each retry adds one to `retryCounter` |
| ScrapingProducts.ProbeRetriesOnlyTransient | src/lib/scraping/products.ts:147-155 | every attempt before the last threw an error that passes the retry test, which for `Transient` is the HTTP/2 protocol error or the detached-node error |
| ScrapingProducts.ProbeRetriesWhileAllowed | src/lib/scraping/products.ts:147-155 | the last attempt never threw an error that passes the retry test while `retryCounter` was still below 3: the prober retries whenever it may |
| ScrapingProducts.ProbeOutcome | src/lib/scraping/products.ts:136-155 | the product is pushed exactly when the last attempt showed "10 items" with at least one location |
| ScrapingProducts.NonTransientSkips | src/lib/scraping/products.ts:150 | an error that is neither the HTTP/2 protocol error nor a detached node ends the probe without a push or retry |
| ScrapingProducts.RetriedProbePushesOnce | src/lib/scraping/products.ts:150-155 | two protocol errors then a qualifying stock line: three attempts, one push, counter 2 |
| ScrapingProducts.Available | src/lib/scraping/products.ts:104-116 | the `stocks` built after the first n products, for any retry test; stated by `AvailableIsSubsequence` and `PushedPositionsOrdered` |
| ScrapingProducts.AvailableIsSubsequence | src/lib/scraping/products.ts:104-116 | entry j of `stocks` is the product at the j-th pushed position |
| ScrapingProducts.PushedPositionsOrdered | src/lib/scraping/products.ts:104-116 | the pushed positions strictly increase, so `stocks` keeps the products' order with no repeats, and a position is pushed exactly when its probe pushed |
| ScrapingProducts.GetProductsDetails | src/lib/scraping/products.ts:52-80 | the listing of `Details` at the filtered address; every record's id comes from its own product link |
| ScrapingProducts.GetProductsList | src/lib/scraping/products.ts:88-96 | the categories' records concatenated in order, or failure, as `Listing` |
| ScrapingProducts.ProductProber.OpenProductPage | src/lib/scraping/products.ts:127-158 | `stocks` grows by the product exactly when `ProbeRun` pushed; `retryCounter` and the attempts are those of `ProbeRun`; the invariant `retryCounter <= 3` is kept, so `ProbeBounds` applies to every call |
| ScrapingProducts.ProductProber.GetProductsAvailability | src/lib/scraping/products.ts:104-116 | the result is `Available` over all products, with the counter reset after every product and kept when there is none; the invariant is kept |
| ScrapingProducts.ProductProber.GetProducts | src/lib/scraping/products.ts:24-44 | one round over the first 5 categories: the non-empty availability list, and undefined for a failed listing or an empty result; `retryCounter` is 0 after probing a non-empty product list and unchanged otherwise |
| Scraping.ToSummary | src/lib/scraping.ts:54-65 | one article's record; its id is `SummaryIds` and its price `SummaryPriceKeepsComma` |
| Scraping.ToSummaries | src/lib/scraping.ts:50-66 | one record per article, in order |
| Scraping.ScrapeProductsRun | src/lib/scraping.ts:33-68 | the specification of `scrapeProducts` from a miss counter and a read index; its properties are the lemmas that follow, and `ScrapingSession.ScrapeProducts` is proved equal to it |
| Scraping.ProductScrapeBounds | src/lib/scraping.ts:33-49 | from a miss counter below 3: 1 to 3 - misses reads, and the counter stays below 3 |
| Scraping.PersistentNoArticleGivesUp | src/lib/scraping.ts:38-49 | a page without articles is read 3 - misses times, then the result is [] and the counter is reset |
| Scraping.RetriedArticlesReturned | src/lib/scraping.ts:38-49 | after n misses the retried read's records are returned |
| Scraping.MissesThenFault | src/lib/scraping.ts:37-49 | n misses then a throwing read: n + 1 reads, the exception with no list, and the counter left at misses + n |
| Scraping.RetryPathsDiffer | src/lib/scraping.ts:38-49 | after one miss and then a match, the product scraper returns the records and the category copy returns undefined |
| Scraping.MissOutcomesDiffer | src/lib/scraping.ts:40-48 | after misses only, the product scraper gives [] and the category copy gives undefined, both with the counter reset |
| Scraping.SummaryIds | src/lib/scraping.ts:59-63 | each record's id comes from its href: absent exactly when the href is, at most 8 characters, no '-' |
| Scraping.SummaryPriceKeepsComma | src/lib/scraping.ts:64 | one example: the price "CHF 19,90" becomes " 19,90", so only "CHF" is removed and the decimal comma stays; the general law of the single replacement is `Text.ReplaceFirstOccurrence` |
| Scraping.ScrapingSession.ScrapeProducts | src/lib/scraping.ts:33-68 | the returned list, the new miss counter and the reads made are those of `ScrapeProductsRun` |
| Scraping.ScrapingSession.CheckDisponibility | src/lib/scraping.ts:76-79 | every element is reported unavailable |
| Scraping.ScrapingSession.OpenProductsPage | src/lib/scraping.ts:87-97 | a fresh page is scraped from its first read, as `ScrapeProductsRun`; the counter invariant is kept |
| Scraping.ScrapingSession.ScrapeCategories | src/lib/scraping.ts:105-127 | this file's copy of scrapeCategories, as `ScrapeRun` on this file's counters |
| Scraping.ScrapingSession.OpenCategoriesPage | src/lib/scraping.ts:135-146 | this file's copy of openCategoriesPage, as `PageRun` on this file's counters |
| Scraping.ScrapingSession.OpenCategoryLinks | src/lib/scraping.ts:154-166 | this file's copy of openCategoryLinks, as `LinksRun` on this file's counters |
| Products.StockLevel | src/lib/products.ts:84 | the parsed stock level; stated by `StockLevelDefined`, `StockLevelOfText` and `Text.DecimalValueAtLeastTen` |
| Products.StockLevelDefined | src/lib/products.ts:84 | the stock level is missing (the parse throws) exactly when the stock text has no digit |
| Products.StockLevelOfText | src/lib/products.ts:84 | "25 items in stock" has the stock level 25 |
| Products.Assess | src/lib/products.ts:76-91 | the record one overlay yields; stated by `AssessExactly` |
| Products.AssessExactly | src/lib/products.ts:76-91 | a record is emitted exactly when the overlay showed a location and a first number of at least 10; it carries that number and pickup set; a failing close click does not change this |
| Products.Stocks | src/lib/products.ts:69-99 | the records built after the first n products; stated by `StocksIsSubsequence`, `RecordPositionsOrdered` and `StocksMeetThreshold` |
| Products.StocksIsSubsequence | src/lib/products.ts:69-99 | record j is the record that the product at the j-th recorded position produced |
| Products.RecordPositionsOrdered | src/lib/products.ts:69-99 | the recorded positions strictly increase, so the records keep the products' order with no repeats, and a position is recorded exactly when its probe produced a record |
| Products.StocksMeetThreshold | src/lib/products.ts:85-88 | every record has pickup and a stock level of at least 10 |
| Products.ThresholdRulesDiffer | src/lib/products.ts:86 | "2 of 10 items" with one location passes the "10 items" rule of the other prober but has the stock level 2 |
| Products.CategoryUrlIds | src/lib/products.ts:49-53 | every record of a category page carries that category's url and the id taken from it |
| Products.GetProductsDetails | src/lib/products.ts:29-57 | the listing of `Details` at the filtered address; every record's id comes from the category url |
| Products.GetProductsList | src/lib/products.ts:59-67 | the categories' records concatenated in order, or failure, as `Listing` |
| Products.GetProductsAvailability | src/lib/products.ts:69-99 | the result is `Stocks` over all products, and every record meets the threshold |
| Products.GetProducts | src/lib/products.ts:7-27 | one round over the first 4 categories: the records are `Stocks` over the `Listing` of those categories, undefined for a failed listing or an empty result, and every record returned has pickup and a stock level of at least 10 |
| Products.OnlyFirstCategoriesListed | src/lib/products.ts:13 | categories after the first 4 do not change the listing |

## Left out

- Puppeteer, cheerio and the network are not modelled. The oracle parameters described
  above give every page read and element lookup, and whether the read throws.
- A distinct error object per exception is not modelled: a throwing read of the category
  and product scrapers is one `Fault`, whatever its message.
- The category and product page oracles are keyed by address and read index. The
  availability oracles are keyed by product position: `ScrapingProducts.AttemptSite` also by
  attempt index, `Products.ProbeSite` by position alone. So two openings of the same address,
  or two probings of the same position, read the same; a site that changes between openings
  is not modelled.
- `delay`, the `setTimeout` pauses, `console` output, and browser launch, `newPage` and
  `close` (with their own exceptions) are not modelled.
- `parseFloat` of the normalised price is left out: `price` is kept as the text that
  `parseFloat` would read.
- `parseInt` is modelled on exact naturals. Its double-precision rounding of very long
  digit runs is not modelled.
- Strings are sequences of characters. JavaScript's UTF-16 code units (which `slice(0, 8)`
  counts) and any Unicode handling are not modelled.
- ScrapingProducts.ProductProber.GetProducts: models one round only. The empty-result
  recursion restarts a browser with no bound, and its result is dropped, so the call
  returns undefined; the model returns `None` for that case without running the round.
- Products.GetProducts: models one round only, for the same reason.
- Cards.StockFilterExtendsQuery: stated only for urls without a '#'. With a fragment,
  the filter lands in the fragment.
- On a listing page, a missing element and a failing `getAttribute` are merged into one
  `MissingElement` card. Attributes read with `getAttribute` are `None` when absent.
- In src/lib/products.ts, exceptions from goto, click and `waitForSelector` are merged
  into one `Failed` probe, because this prober catches them all alike.
- The Next.js routes, the UI and everything outside the four files are not modelled.
