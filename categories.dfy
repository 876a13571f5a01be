/**
 * src/lib/scraping/categories.ts: category discovery driven by two module-level
 * counters. `categoryRequestCounter` counts selector misses across calls of
 * scrapeCategories; `requestCounter` is the ordinal of the openCategoriesPage call,
 * which picks the selector and whether the last two links are dropped.
 */
module Categories {
  import opened Wrappers

  const Origin := "https://www.galaxus.ch"
  /** The top-level navigation, used by the first call only. */
  const NavSelector := "div.sc-e8cbc69d-0.dKMQVj a"
  /** The in-page sidebar, used by every later call. */
  const SidebarSelector := "ul.sc-1656bbdd-0.gQqszz a"
  const MissLimit := 3

  /** An anchor on the page: its text and its `href` attribute (undefined when absent). */
  datatype Anchor = Anchor(text: string, href: Option<string>)

  /**
   * One read of a page with a selector: an exception from `page.goto`, `page.content()`
   * or `page.$` (none of them is caught in this file); `page.$(selector)` found nothing;
   * or the anchors it selects, in document order.
   */
  datatype Read = Fault | Miss | Match(anchors: seq<Anchor>)

  datatype Category = Category(category: string, url: Option<string>)

  /** The site as the crawler sees it: the k-th read, with a selector, of the page opened at an address. */
  type Site = (string, string, nat) -> Read

  /** The two module-level counters. */
  datatype Counters = Counters(misses: nat, requests: nat)

  /** `{ category: $(el).text(), url: $(el).attr("href") }` for every selected anchor. */
  function ToCategories(anchors: seq<Anchor>): (r: seq<Category>)
    ensures |r| == |anchors|
    ensures forall i :: 0 <= i < |r| ==> r[i] == Category(anchors[i].text, anchors[i].href)
  {
    seq(|anchors|, i requires 0 <= i < |anchors| => Category(anchors[i].text, anchors[i].href))
  }

  /** `"https://www.galaxus.ch" + item.url`: JavaScript writes an undefined url as "undefined". */
  function LinkTarget(url: Option<string>): (r: string)
    ensures |r| >= |Origin| && r[..|Origin|] == Origin
    ensures url.Some? ==> r[|Origin|..] == url.value
    ensures url.None? ==> r[|Origin|..] == "undefined"
  {
    Origin + match url
             case None => "undefined"
             case Some(u) => u
  }

  /**
   * `list.splice(-2, 2)`: the start -2 counts from the end and is clamped to 0, and
   * at most two elements from there on are removed.
   */
  function SpliceLastTwo<T>(s: seq<T>): (r: seq<T>)
    ensures |r| == if |s| >= 2 then |s| - 2 else 0
    ensures r == s[..|r|]
  {
    var start := if |s| - 2 < 0 then 0 else |s| - 2;
    var count := if |s| - start < 2 then |s| - start else 2;
    s[..start] + s[start + count..]
  }

  /** The selector of the openCategoriesPage call with ordinal `requests`. */
  function SelectorFor(requests: nat): (r: string)
    ensures requests == 0 ==> r == NavSelector
    ensures requests > 0 ==> r == SidebarSelector
  {
    if requests > 0 then SidebarSelector else NavSelector
  }

  /**
   * The outcome of one scrapeCategories call: whether it threw, the returned list
   * (undefined when it threw or missed), the miss counter afterwards, and the reads made.
   */
  datatype Scrape = Scrape(thrown: bool, list: Option<seq<Category>>, misses: nat, readCount: nat)

  /**
   * scrapeCategories from read k on, with the miss counter at `misses`. A miss counts,
   * then either retries (whose list is dropped: the call returns undefined, but an
   * exception of the retry propagates) or, at the third miss, resets the counter and
   * gives up.
   */
  function ScrapeRun(site: Site, url: string, selector: string, misses: nat, k: nat): Scrape
    decreases if misses < MissLimit then MissLimit - misses else 0
  {
    match site(url, selector, k)
    case Fault => Scrape(true, None, misses, 1)
    case Match(anchors) => Scrape(false, Some(ToCategories(anchors)), misses, 1)
    case Miss =>
      if misses + 1 < MissLimit then
        var retry := ScrapeRun(site, url, selector, misses + 1, k + 1);
        Scrape(retry.thrown, None, retry.misses, retry.readCount + 1)
      else
        Scrape(false, None, 0, 1)
  }

  /** The outcome of one openCategoriesPage call: whether it threw, its list and the counters afterwards. */
  datatype Page = Page(thrown: bool, list: Option<seq<Category>>, state: Counters)

  /** openCategoriesPage: an exception leaves `requestCounter` as it was, since the increment comes after the scrape. */
  function PageRun(site: Site, s: Counters, url: string): Page {
    var scraped := ScrapeRun(site, url, SelectorFor(s.requests), s.misses, 0);
    if scraped.thrown then Page(true, None, Counters(scraped.misses, s.requests))
    else
      var list := if s.requests < 1 && scraped.list.Some? then Some(SpliceLastTwo(scraped.list.value)) else scraped.list;
      Page(false, list, Counters(scraped.misses, s.requests + 1))
  }

  /**
   * The outcome of openCategoryLinks: the collected categories, or None when a page
   * threw (the exception leaves the loop, and the categories collected so far are
   * lost), and the counters afterwards.
   */
  datatype Links = Links(results: Option<seq<Category>>, state: Counters)

  function LinksRun(site: Site, s: Counters, items: seq<Category>): Links
    decreases |items|
  {
    if items == [] then Links(Some([]), s)
    else
      var page := PageRun(site, s, LinkTarget(items[0].url));
      if page.thrown then Links(None, page.state)
      else
        var rest := LinksRun(site, page.state, items[1..]);
        Links(Join(Some(OrEmpty(page.list)), rest.results), rest.state)
  }

  /**
   * From a counter below 3: one to 3 - misses reads, the counter stays below 3, and
   * the call returns a list exactly when its FIRST read matched (a retry's list is
   * dropped). A list comes with an unchanged counter: a match does not reset it.
   * An exception returns nothing.
   */
  lemma {:induction false} ScrapeShape(site: Site, url: string, selector: string, misses: nat, k: nat)
    requires misses < MissLimit
    ensures var r := ScrapeRun(site, url, selector, misses, k);
      1 <= r.readCount <= MissLimit - misses && r.misses < MissLimit
      && (r.thrown ==> r.list.None?)
      && (r.list.Some? <==> site(url, selector, k).Match?)
      && (r.list.Some? ==> r.misses == misses && r.list == Some(ToCategories(site(url, selector, k).anchors)))
    decreases MissLimit - misses
  {
    if site(url, selector, k).Miss? && misses + 1 < MissLimit {
      ScrapeShape(site, url, selector, misses + 1, k + 1);
    }
  }

  /** A page that never matches is read 3 - misses times; then the counter is reset and nothing is returned. */
  lemma {:induction false} PersistentMissGivesUp(site: Site, url: string, selector: string, misses: nat, k: nat)
    requires misses < MissLimit
    requires forall j :: k <= j < k + MissLimit - misses ==> site(url, selector, j) == Miss
    ensures ScrapeRun(site, url, selector, misses, k) == Scrape(false, None, 0, MissLimit - misses)
    decreases MissLimit - misses
  {
    assert site(url, selector, k) == Miss;
    if misses + 1 < MissLimit {
      PersistentMissGivesUp(site, url, selector, misses + 1, k + 1);
    }
  }

  /**
   * n misses followed by a match, within the budget: n + 1 reads, the counter ends at
   * misses + n (the match does not reset it), and a list only when n == 0.
   */
  lemma {:induction false} MissesThenMatch(site: Site, url: string, selector: string, misses: nat, k: nat, n: nat)
    requires misses + n < MissLimit
    requires forall j :: k <= j < k + n ==> site(url, selector, j) == Miss
    requires site(url, selector, k + n).Match?
    ensures var r := ScrapeRun(site, url, selector, misses, k);
      !r.thrown && r.readCount == n + 1 && r.misses == misses + n
      && r.list == if n == 0 then Some(ToCategories(site(url, selector, k).anchors)) else None
    decreases n
  {
    if n > 0 {
      assert site(url, selector, k) == Miss;
      MissesThenMatch(site, url, selector, misses + 1, k + 1, n - 1);
    }
  }

  /**
   * n misses followed by an exception, within the budget: the exception propagates out
   * of every pending retry, and the counter keeps the n misses.
   */
  lemma {:induction false} MissesThenFault(site: Site, url: string, selector: string, misses: nat, k: nat, n: nat)
    requires misses + n < MissLimit
    requires forall j :: k <= j < k + n ==> site(url, selector, j) == Miss
    requires site(url, selector, k + n) == Fault
    ensures ScrapeRun(site, url, selector, misses, k) == Scrape(true, None, misses + n, n + 1)
    decreases n
  {
    if n > 0 {
      assert site(url, selector, k) == Miss;
      MissesThenFault(site, url, selector, misses + 1, k + 1, n - 1);
    }
  }

  /**
   * The miss counter stays below 3. Every page opened without an exception adds one to
   * `requestCounter`; so after the first page of a run no later page is trimmed. A run
   * that completes adds exactly the number of links.
   */
  lemma {:induction false} LinksCounters(site: Site, s: Counters, items: seq<Category>)
    requires s.misses < MissLimit
    ensures LinksRun(site, s, items).state.misses < MissLimit
    ensures s.requests <= LinksRun(site, s, items).state.requests <= s.requests + |items|
    ensures LinksRun(site, s, items).results.Some? ==> LinksRun(site, s, items).state.requests == s.requests + |items|
    decreases |items|
  {
    if items != [] {
      ScrapeShape(site, LinkTarget(items[0].url), SelectorFor(s.requests), s.misses, 0);
      var page := PageRun(site, s, LinkTarget(items[0].url));
      if !page.thrown {
        LinksCounters(site, page.state, items[1..]);
      }
    }
  }

  /**
   * Opening two runs of links one after the other concatenates their results, in order
   * and without deduplication; an exception in either loses everything, and an
   * exception in the first leaves the second unopened.
   */
  lemma {:induction false} LinksAppend(site: Site, s: Counters, a: seq<Category>, b: seq<Category>)
    ensures var ra := LinksRun(site, s, a);
      var rb := LinksRun(site, ra.state, b);
      LinksRun(site, s, a + b) == if ra.results.None? then ra else Links(Join(ra.results, rb.results), rb.state)
    decreases |a|
  {
    if a == [] {
      assert a + b == b;
      JoinEmpty(LinksRun(site, s, b).results);
    } else {
      assert (a + b)[0] == a[0];
      assert (a + b)[1..] == a[1..] + b;
      var page := PageRun(site, s, LinkTarget(a[0].url));
      if !page.thrown {
        LinksAppend(site, page.state, a[1..], b);
        var ra := LinksRun(site, page.state, a[1..]);
        var rb := LinksRun(site, ra.state, b);
        JoinAssociative(Some(OrEmpty(page.list)), ra.results, rb.results);
      }
    }
  }

  /** An exception on the last link loses the categories of every link before it. */
  lemma LinksThrowLosesCollected(site: Site, s: Counters, a: seq<Category>, last: Category)
    requires LinksRun(site, s, a).results.Some?
    requires PageRun(site, LinksRun(site, s, a).state, LinkTarget(last.url)).thrown
    ensures LinksRun(site, s, a + [last]).results == None
  {
    LinksAppend(site, s, a, [last]);
  }

  lemma LinksUnfold(site: Site, s: Counters, items: seq<Category>, i: nat)
    requires i < |items|
    ensures var page := PageRun(site, s, LinkTarget(items[i].url));
      LinksRun(site, s, items[i..]) ==
        if page.thrown then Links(None, page.state)
        else
          var rest := LinksRun(site, page.state, items[i + 1..]);
          Links(Join(Some(OrEmpty(page.list)), rest.results), rest.state)
  {
    assert items[i..][0] == items[i] && items[i..][1..] == items[i + 1..];
  }

  /** The module's counters, as fields that every call updates in place. */
  class CategoryCrawler {
    var categoryRequestCounter: nat
    var requestCounter: nat

    ghost predicate Valid()
      reads this
    {
      categoryRequestCounter < MissLimit
    }

    ghost function State(): Counters
      reads this
    {
      Counters(categoryRequestCounter, requestCounter)
    }

    /** Both counters start at 0 when the module is loaded. */
    constructor ()
      ensures Valid() && State() == Counters(0, 0)
    {
      categoryRequestCounter := 0;
      requestCounter := 0;
    }

    /** scrapeCategories(page, selector), at the k-th read of the page; `thrown` reports an exception that propagates to the caller. */
    method ScrapeCategories(site: Site, url: string, selector: string, k: nat)
      returns (thrown: bool, list: Option<seq<Category>>, readCount: nat)
      modifies this`categoryRequestCounter
      ensures var r := ScrapeRun(site, url, selector, old(categoryRequestCounter), k);
        thrown == r.thrown && list == r.list && categoryRequestCounter == r.misses && readCount == r.readCount
      decreases if categoryRequestCounter < MissLimit then MissLimit - categoryRequestCounter else 0
    {
      match site(url, selector, k)
      case Fault =>
        thrown, list, readCount := true, None, 1;
      case Miss =>
        categoryRequestCounter := categoryRequestCounter + 1;
        thrown := false;
        if categoryRequestCounter < MissLimit {
          var dropped, retryCount;
          thrown, dropped, retryCount := ScrapeCategories(site, url, selector, k + 1);
          readCount := retryCount + 1;
        } else {
          categoryRequestCounter := 0;
          readCount := 1;
        }
        list := None;
      case Match(anchors) =>
        var found: seq<Category> := [];
        var i := 0;
        while i < |anchors|
          invariant 0 <= i <= |anchors|
          invariant found == ToCategories(anchors)[..i]
        {
          found := found + [Category(anchors[i].text, anchors[i].href)];
          i := i + 1;
        }
        assert ToCategories(anchors)[..i] == ToCategories(anchors);
        thrown, list, readCount := false, Some(found), 1;
    }

    /** openCategoriesPage(browser, url); `thrown` reports an exception that propagates to the caller. */
    method OpenCategoriesPage(site: Site, url: string) returns (thrown: bool, list: Option<seq<Category>>)
      requires Valid()
      modifies this
      ensures Valid()
      ensures Page(thrown, list, State()) == PageRun(site, old(State()), url)
      ensures requestCounter == old(requestCounter) + (if thrown then 0 else 1)
      ensures var r := ScrapeRun(site, url, if old(requestCounter) == 0 then NavSelector else SidebarSelector, old(categoryRequestCounter), 0);
        categoryRequestCounter == r.misses && thrown == r.thrown
        && list == if old(requestCounter) == 0 && r.list.Some? then Some(SpliceLastTwo(r.list.value)) else r.list
    {
      var selector := NavSelector;
      if requestCounter > 0 {
        selector := SidebarSelector;
      }
      ScrapeShape(site, url, selector, categoryRequestCounter, 0);
      var readCount;
      thrown, list, readCount := ScrapeCategories(site, url, selector, 0);
      if thrown {
        return;
      }
      if requestCounter < 1 && list.Some? {
        list := Some(SpliceLastTwo(list.value));
      }
      requestCounter := requestCounter + 1;
    }

    /** openCategoryLinks(browser, list): every link's categories, in the order of the links; None when a page threw. */
    method OpenCategoryLinks(site: Site, items: seq<Category>) returns (results: Option<seq<Category>>)
      requires Valid()
      modifies this
      ensures Valid()
      ensures Links(results, State()) == LinksRun(site, old(State()), items)
      ensures results.Some? ==> requestCounter == old(requestCounter) + |items|
    {
      LinksCounters(site, State(), items);
      ghost var total := LinksRun(site, State(), items);
      JoinEmpty(total.results);
      var collected: seq<Category> := [];
      var i := 0;
      while i < |items|
        invariant 0 <= i <= |items|
        invariant Valid()
        invariant Join(Some(collected), LinksRun(site, State(), items[i..]).results) == total.results
        invariant LinksRun(site, State(), items[i..]).state == total.state
      {
        ghost var before, s := collected, State();
        LinksUnfold(site, s, items, i);
        var thrown, found := OpenCategoriesPage(site, LinkTarget(items[i].url));
        if thrown {
          return None;
        }
        JoinAssociative(Some(before), Some(OrEmpty(found)), LinksRun(site, State(), items[i + 1..]).results);
        collected := collected + OrEmpty(found);
        i := i + 1;
      }
      assert items[i..] == [];
      JoinEmpty(Some(collected));
      results := Some(collected);
    }
  }
}
