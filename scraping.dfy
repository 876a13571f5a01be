/**
 * src/lib/scraping.ts: the product-card scraper with its own selector-miss counter,
 * and this file's own copies of scrapeCategories, openCategoriesPage and
 * openCategoryLinks, which run exactly as in src/lib/scraping/categories.ts but on
 * this file's own module-level counters.
 */
module Scraping {
  import opened Wrappers
  import opened Text
  import Cards
  import Categories

  const MissLimit := 3

  /** The fields cheerio reads from one `article` element; `.text()` of a missing element is "", `.attr()` is undefined. */
  datatype ArticleTag = ArticleTag(
    imageURL: Option<string>,
    brand: string,
    product: string,
    details: string,
    priceText: string,
    href: Option<string>)

  /**
   * One read of the page: an exception from `page.goto`, `page.content()` or `page.$`
   * (none of them is caught in this file); `page.$(selector)` found no article; or the
   * articles cheerio selects, in document order.
   */
  datatype ProductRead = Fault | NoArticle | Articles(tags: seq<ArticleTag>)

  /** The k-th read of the page opened at an address. */
  type ProductSite = (string, nat) -> ProductRead

  /** The `Product` type of this file: `price` is the text with "CHF" removed, still a string. */
  datatype Summary = Summary(
    id: Option<string>,
    brand: string,
    product: string,
    details: string,
    price: string,
    url: Option<string>,
    imageURL: Option<string>)

  function ToSummary(t: ArticleTag): Summary {
    Summary(Cards.ProductId(t.href), t.brand, t.product, t.details,
            ReplaceFirst(t.priceText, "CHF", ""), t.href, t.imageURL)
  }

  function ToSummaries(tags: seq<ArticleTag>): (r: seq<Summary>)
    ensures |r| == |tags|
    ensures forall i :: 0 <= i < |r| ==> r[i] == ToSummary(tags[i])
  {
    seq(|tags|, i requires 0 <= i < |tags| => ToSummary(tags[i]))
  }

  /**
   * The outcome of one scrapeProducts call: its list (None when it threw, since the
   * function otherwise always returns an array), `productRequestCounter` afterwards,
   * and the reads it made.
   */
  datatype ProductScrape = ProductScrape(list: Option<seq<Summary>>, misses: nat, readCount: nat)

  /**
   * scrapeProducts from read k on. Unlike scrapeCategories, a retry's list is
   * returned to the caller; at the third miss the counter is reset and [] returned.
   */
  function ScrapeProductsRun(site: ProductSite, url: string, misses: nat, k: nat): ProductScrape
    decreases if misses < MissLimit then MissLimit - misses else 0
  {
    match site(url, k)
    case Fault => ProductScrape(None, misses, 1)
    case Articles(tags) => ProductScrape(Some(ToSummaries(tags)), misses, 1)
    case NoArticle =>
      if misses + 1 < MissLimit then
        var retry := ScrapeProductsRun(site, url, misses + 1, k + 1);
        ProductScrape(retry.list, retry.misses, retry.readCount + 1)
      else
        ProductScrape(Some([]), 0, 1)
  }

  /** From a counter below 3: 1 to 3 - misses reads, the counter stays below 3. */
  lemma {:induction false} ProductScrapeBounds(site: ProductSite, url: string, misses: nat, k: nat)
    requires misses < MissLimit
    ensures var r := ScrapeProductsRun(site, url, misses, k);
      1 <= r.readCount <= MissLimit - misses && r.misses < MissLimit
    decreases MissLimit - misses
  {
    if site(url, k).NoArticle? && misses + 1 < MissLimit {
      ProductScrapeBounds(site, url, misses + 1, k + 1);
    }
  }

  /** A page that never shows an article is read 3 - misses times; the result is [] and the counter is reset. */
  lemma {:induction false} PersistentNoArticleGivesUp(site: ProductSite, url: string, misses: nat, k: nat)
    requires misses < MissLimit
    requires forall j :: k <= j < k + MissLimit - misses ==> site(url, j) == NoArticle
    ensures ScrapeProductsRun(site, url, misses, k) == ProductScrape(Some([]), 0, MissLimit - misses)
    decreases MissLimit - misses
  {
    assert site(url, k) == NoArticle;
    if misses + 1 < MissLimit {
      PersistentNoArticleGivesUp(site, url, misses + 1, k + 1);
    }
  }

  /** n misses and then articles, within the budget: the retried read's records are what the call returns. */
  lemma {:induction false} RetriedArticlesReturned(site: ProductSite, url: string, misses: nat, k: nat, n: nat)
    requires misses + n < MissLimit
    requires forall j :: k <= j < k + n ==> site(url, j) == NoArticle
    requires site(url, k + n).Articles?
    ensures ScrapeProductsRun(site, url, misses, k)
      == ProductScrape(Some(ToSummaries(site(url, k + n).tags)), misses + n, n + 1)
    decreases n
  {
    if n > 0 {
      assert site(url, k) == NoArticle;
      RetriedArticlesReturned(site, url, misses + 1, k + 1, n - 1);
    }
  }

  /**
   * n misses and then an exception, within the budget: the exception propagates out of
   * every pending retry (nothing is returned) and the counter keeps the n misses.
   */
  lemma {:induction false} MissesThenFault(site: ProductSite, url: string, misses: nat, k: nat, n: nat)
    requires misses + n < MissLimit
    requires forall j :: k <= j < k + n ==> site(url, j) == NoArticle
    requires site(url, k + n) == Fault
    ensures ScrapeProductsRun(site, url, misses, k) == ProductScrape(None, misses + n, n + 1)
    decreases n
  {
    if n > 0 {
      assert site(url, k) == NoArticle;
      MissesThenFault(site, url, misses + 1, k + 1, n - 1);
    }
  }

  /**
   * The two retry paths of this file differ: after one miss and then a match, the
   * product scraper returns the matched records, the category scraper undefined;
   * after misses only, the product scraper returns [], the category scraper undefined.
   */
  lemma RetryPathsDiffer(products: ProductSite, categories: Categories.Site, url: string, selector: string)
    requires products(url, 0) == NoArticle && products(url, 1).Articles?
    requires categories(url, selector, 0) == Categories.Miss && categories(url, selector, 1).Match?
    ensures ScrapeProductsRun(products, url, 0, 0).list == Some(ToSummaries(products(url, 1).tags))
    ensures Categories.ScrapeRun(categories, url, selector, 0, 0).list == None
  {
    RetriedArticlesReturned(products, url, 0, 0, 1);
    Categories.MissesThenMatch(categories, url, selector, 0, 0, 1);
  }

  lemma MissOutcomesDiffer(products: ProductSite, categories: Categories.Site, url: string, selector: string)
    requires forall j :: 0 <= j < MissLimit ==> products(url, j) == NoArticle
    requires forall j :: 0 <= j < MissLimit ==> categories(url, selector, j) == Categories.Miss
    ensures ScrapeProductsRun(products, url, 0, 0) == ProductScrape(Some([]), 0, 3)
    ensures Categories.ScrapeRun(categories, url, selector, 0, 0) == Categories.Scrape(false, None, 0, 3)
  {
    PersistentNoArticleGivesUp(products, url, 0, 0);
    Categories.PersistentMissGivesUp(categories, url, selector, 0, 0);
  }

  /** Each record's id comes from its own href: at most 8 characters, no '-', absent exactly when the href is. */
  lemma SummaryIds(tags: seq<ArticleTag>)
    ensures forall i :: 0 <= i < |tags| ==>
      var r := ToSummaries(tags)[i];
      (r.id.None? <==> tags[i].href.None?) && (r.id.Some? ==> |r.id.value| <= Cards.IdLength && '-' !in r.id.value)
  {
  }

  /** Here `price` keeps its decimal comma: only "CHF" is removed. */
  lemma SummaryPriceKeepsComma()
    ensures ToSummary(ArticleTag(None, "", "", "", "CHF 19,90", None)).price == " 19,90"
  {
    assert OccursAt("CHF 19,90", "CHF", 0);
  }

  /** The module-level counters of this file, as fields. */
  class ScrapingSession {
    var productRequestCounter: nat
    /** `categoryRequestCounter` and `requestCounter` of this file, used by its category copies. */
    const crawler: Categories.CategoryCrawler

    ghost predicate Valid()
      reads this, crawler
    {
      productRequestCounter < MissLimit && crawler.Valid()
    }

    constructor ()
      ensures Valid() && fresh(crawler)
      ensures productRequestCounter == 0 && crawler.State() == Categories.Counters(0, 0)
    {
      productRequestCounter := 0;
      crawler := new Categories.CategoryCrawler();
    }

    /** scrapeProducts(page), at the k-th read of the page opened at `url`; None is an exception that propagates to the caller. */
    method ScrapeProducts(site: ProductSite, url: string, k: nat) returns (list: Option<seq<Summary>>, readCount: nat)
      modifies this`productRequestCounter
      ensures var r := ScrapeProductsRun(site, url, old(productRequestCounter), k);
        list == r.list && productRequestCounter == r.misses && readCount == r.readCount
      decreases if productRequestCounter < MissLimit then MissLimit - productRequestCounter else 0
    {
      match site(url, k)
      case Fault =>
        list, readCount := None, 1;
      case NoArticle =>
        productRequestCounter := productRequestCounter + 1;
        if productRequestCounter < MissLimit {
          var retryCount;
          list, retryCount := ScrapeProducts(site, url, k + 1);
          readCount := retryCount + 1;
        } else {
          productRequestCounter := 0;
          list, readCount := Some([]), 1;
        }
      case Articles(tags) =>
        var found: seq<Summary> := [];
        var i := 0;
        while i < |tags|
          invariant 0 <= i <= |tags|
          invariant found == ToSummaries(tags)[..i]
        {
          found := found + [ToSummary(tags[i])];
          i := i + 1;
        }
        assert ToSummaries(tags)[..i] == ToSummaries(tags);
        list, readCount := Some(found), 1;
    }

    /** checkDisponibility(page, el): a stub that answers false for every element. */
    method CheckDisponibility(el: ArticleTag) returns (available: bool)
      ensures !available
    {
      available := false;
    }

    /** openProductsPage(browser, url): a fresh page at `url`, scraped from its first read (a failing `goto` is that read's exception). */
    method OpenProductsPage(site: ProductSite, url: string) returns (list: Option<seq<Summary>>)
      requires Valid()
      modifies this`productRequestCounter
      ensures Valid()
      ensures var r := ScrapeProductsRun(site, url, old(productRequestCounter), 0);
        list == r.list && productRequestCounter == r.misses
    {
      ProductScrapeBounds(site, url, productRequestCounter, 0);
      var readCount;
      list, readCount := ScrapeProducts(site, url, 0);
    }

    /** This file's scrapeCategories(page, selector): the same rules, on this file's counters. */
    method ScrapeCategories(site: Categories.Site, url: string, selector: string, k: nat)
      returns (thrown: bool, list: Option<seq<Categories.Category>>, readCount: nat)
      modifies crawler`categoryRequestCounter
      ensures var r := Categories.ScrapeRun(site, url, selector, old(crawler.categoryRequestCounter), k);
        thrown == r.thrown && list == r.list && crawler.categoryRequestCounter == r.misses && readCount == r.readCount
    {
      thrown, list, readCount := crawler.ScrapeCategories(site, url, selector, k);
    }

    /** This file's openCategoriesPage: the same rules, on this file's counters. */
    method OpenCategoriesPage(site: Categories.Site, url: string) returns (thrown: bool, list: Option<seq<Categories.Category>>)
      requires Valid()
      modifies crawler
      ensures Valid()
      ensures Categories.Page(thrown, list, crawler.State()) == Categories.PageRun(site, old(crawler.State()), url)
    {
      thrown, list := crawler.OpenCategoriesPage(site, url);
    }

    /** This file's openCategoryLinks: the same rules, on this file's counters. */
    method OpenCategoryLinks(site: Categories.Site, items: seq<Categories.Category>) returns (results: Option<seq<Categories.Category>>)
      requires Valid()
      modifies crawler
      ensures Valid()
      ensures Categories.Links(results, crawler.State()) == Categories.LinksRun(site, old(crawler.State()), items)
    {
      results := crawler.OpenCategoryLinks(site, items);
    }
  }
}
