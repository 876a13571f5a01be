/**
 * src/lib/scraping/products.ts: the product lister (id taken from each card's
 * product link) and the availability prober whose transient-error retries are
 * counted by the module-level `retryCounter`.
 */
module ScrapingProducts {
  import opened Wrappers
  import opened Text
  import opened Cards
  import Categories

  const CategoryCap := 5
  const RetryLimit := 3
  const ProtocolError := "net::ERR_HTTP2_PROTOCOL_ERROR"
  const DetachedNode := "Node is detached from document"

  /**
   * One attempt at a product page: an exception from goto, the button `$eval`, the
   * click, `waitForSelector` or the stock `$eval`, with its message; no availability
   * element after the wait; or the element with its number of `strong` locations and
   * its stock text.
   */
  datatype Attempt = Thrown(message: string) | NoAvailability | Availability(locations: nat, stockText: string)

  /** The k-th attempt at the i-th product of the list. */
  type AttemptSite = (nat, nat) -> Attempt

  /** `stockLevel.includes("10 items") && locations.length > 0`. */
  predicate Qualifies(stockText: string, locations: nat) {
    Includes(stockText, "10 items") && locations > 0
  }

  predicate Transient(message: string) {
    Includes(message, ProtocolError) || Includes(message, DetachedNode)
  }

  /** The outcome of openProductPage for one product: pushed or not, `retryCounter` afterwards, attempts made. */
  datatype Probe = Probe(pushed: bool, counter: nat, attempts: nat)

  /**
   * openProductPage for the i-th product from its k-th attempt, with `retryCounter == counter`.
   * `retryable` is the catch block's test on the error message; the source's test is
   * `Transient`, and the lemmas below hold for any test.
   */
  function ProbeRun(site: AttemptSite, retryable: string -> bool, i: nat, counter: nat, k: nat): Probe
    decreases if counter < RetryLimit then RetryLimit - counter else 0
  {
    match site(i, k)
    case Availability(locations, text) => Probe(Qualifies(text, locations), counter, 1)
    case NoAvailability => Probe(false, counter, 1)
    case Thrown(message) =>
      if retryable(message) && counter < RetryLimit then
        var retry := ProbeRun(site, retryable, i, counter + 1, k + 1);
        Probe(retry.pushed, retry.counter, retry.attempts + 1)
      else
        Probe(false, counter, 1)
  }

  /** From a counter c <= 3: at most 1 + (3 - c) attempts, so at most 4 from 0, each retry adding one to the counter. */
  lemma {:induction false} ProbeBounds(site: AttemptSite, retryable: string -> bool, i: nat, counter: nat, k: nat)
    requires counter <= RetryLimit
    ensures var p := ProbeRun(site, retryable, i, counter, k);
      1 <= p.attempts <= 1 + RetryLimit - counter
      && p.counter == counter + p.attempts - 1
    decreases RetryLimit - counter
  {
    match site(i, k)
    case Thrown(message) =>
      if retryable(message) && counter < RetryLimit {
        ProbeBounds(site, retryable, i, counter + 1, k + 1);
      }
    case _ =>
  }

  /** Every attempt before the last threw an error that passes the retry test. */
  lemma {:induction false} ProbeRetriesOnlyTransient(site: AttemptSite, retryable: string -> bool, i: nat, counter: nat, k: nat)
    ensures var p := ProbeRun(site, retryable, i, counter, k);
      p.attempts >= 1
      && forall j :: k <= j < k + p.attempts - 1 ==> site(i, j).Thrown? && retryable(site(i, j).message)
    decreases if counter < RetryLimit then RetryLimit - counter else 0
  {
    match site(i, k)
    case Thrown(message) =>
      if retryable(message) && counter < RetryLimit {
        ProbeRetriesOnlyTransient(site, retryable, i, counter + 1, k + 1);
      }
    case _ =>
  }

  /**
   * A retryable error is retried whenever the counter allows it: the probe stops only at
   * an attempt that did not throw one, or once the counter has reached 3.
   */
  lemma {:induction false} ProbeRetriesWhileAllowed(site: AttemptSite, retryable: string -> bool, i: nat, counter: nat, k: nat)
    requires counter <= RetryLimit
    ensures var p := ProbeRun(site, retryable, i, counter, k);
      var last := site(i, k + p.attempts - 1);
      p.attempts >= 1 && !(last.Thrown? && retryable(last.message) && p.counter < RetryLimit)
    decreases RetryLimit - counter
  {
    match site(i, k)
    case Thrown(message) =>
      if retryable(message) && counter < RetryLimit {
        ProbeRetriesWhileAllowed(site, retryable, i, counter + 1, k + 1);
      }
    case _ =>
  }

  /** The product is pushed exactly when the last attempt showed a qualifying stock line. */
  lemma {:induction false} ProbeOutcome(site: AttemptSite, retryable: string -> bool, i: nat, counter: nat, k: nat)
    ensures var p := ProbeRun(site, retryable, i, counter, k);
      var last := site(i, k + p.attempts - 1);
      p.attempts >= 1 && (p.pushed <==> last.Availability? && Qualifies(last.stockText, last.locations))
    decreases if counter < RetryLimit then RetryLimit - counter else 0
  {
    var a := site(i, k);
    if a.Thrown? && retryable(a.message) && counter < RetryLimit {
      ProbeOutcome(site, retryable, i, counter + 1, k + 1);
      var r := ProbeRun(site, retryable, i, counter + 1, k + 1);
      assert ProbeRun(site, retryable, i, counter, k) == Probe(r.pushed, r.counter, r.attempts + 1);
    } else {
      assert ProbeRun(site, retryable, i, counter, k).attempts == 1;
    }
  }

  /** An error that is not one of the two transient ones ends the probe at once, without a push. */
  lemma NonTransientSkips(site: AttemptSite, i: nat, counter: nat, k: nat)
    requires site(i, k).Thrown? && !Transient(site(i, k).message)
    ensures ProbeRun(site, Transient, i, counter, k) == Probe(false, counter, 1)
  {
  }

  /** Two protocol errors and then a qualifying stock line: three attempts and one push. */
  lemma RetriedProbePushesOnce(site: AttemptSite, i: nat)
    requires site(i, 0) == Thrown(ProtocolError) && site(i, 1) == Thrown(ProtocolError)
    requires site(i, 2).Availability? && Qualifies(site(i, 2).stockText, site(i, 2).locations)
    ensures ProbeRun(site, Transient, i, 0, 0) == Probe(true, 2, 3)
  {
    assert OccursAt(ProtocolError, ProtocolError, 0);
  }

  /** The counter each product starts with: the module's value for the first, 0 after every reset. */
  function StartCounter(i: nat, c0: nat): nat {
    if i == 0 then c0 else 0
  }

  /** The `stocks` that getProductsAvailability has built after the first n products. */
  function Available(products: seq<Product>, site: AttemptSite, retryable: string -> bool, c0: nat, n: nat): seq<Product>
    requires n <= |products|
    decreases n
  {
    if n == 0 then []
    else
      Available(products, site, retryable, c0, n - 1)
      + (if ProbeRun(site, retryable, n - 1, StartCounter(n - 1, c0), 0).pushed then [products[n - 1]] else [])
  }

  /** One more probed product extends `stocks` by that product exactly when its probe pushed it. */
  lemma AvailableStep(products: seq<Product>, site: AttemptSite, retryable: string -> bool, c0: nat, i: nat,
                      stocks: seq<Product>, stocks': seq<Product>)
    requires i < |products| && stocks == Available(products, site, retryable, c0, i)
    requires stocks' == stocks + (if ProbeRun(site, retryable, i, StartCounter(i, c0), 0).pushed then [products[i]] else [])
    ensures stocks' == Available(products, site, retryable, c0, i + 1)
  {
  }

  /** The positions of the pushed products among the first n, in increasing order. */
  function PushedPositions(products: seq<Product>, site: AttemptSite, retryable: string -> bool, c0: nat, n: nat): seq<nat>
    requires n <= |products|
    decreases n
  {
    if n == 0 then []
    else
      PushedPositions(products, site, retryable, c0, n - 1)
      + (if ProbeRun(site, retryable, n - 1, StartCounter(n - 1, c0), 0).pushed then [n - 1] else [])
  }

  /** Entry j of `stocks` is the product at position ix[j]. */
  lemma {:induction false} AvailableIsSubsequence(products: seq<Product>, site: AttemptSite, retryable: string -> bool, c0: nat, n: nat)
    requires n <= |products|
    ensures var s, ix := Available(products, site, retryable, c0, n), PushedPositions(products, site, retryable, c0, n);
      |s| == |ix| && forall j :: 0 <= j < |ix| ==> ix[j] < n && s[j] == products[ix[j]]
    decreases n
  {
    if n > 0 {
      AvailableIsSubsequence(products, site, retryable, c0, n - 1);
    }
  }

  /**
   * The pushed positions strictly increase (so `stocks` keeps the products' order and
   * holds each at most once), and a position is there exactly when its probe pushed.
   */
  lemma {:induction false} PushedPositionsOrdered(products: seq<Product>, site: AttemptSite, retryable: string -> bool, c0: nat, n: nat)
    requires n <= |products|
    ensures var ix := PushedPositions(products, site, retryable, c0, n);
      (forall j :: 0 <= j < |ix| ==> ix[j] < n)
      && (forall j, l :: 0 <= j < l < |ix| ==> ix[j] < ix[l])
      && (forall i :: 0 <= i < n ==> (i in ix <==> ProbeRun(site, retryable, i, StartCounter(i, c0), 0).pushed))
    decreases n
  {
    if n > 0 {
      PushedPositionsOrdered(products, site, retryable, c0, n - 1);
    }
  }

  /** getProductsDetails(page, url): the records of the in-stock listing of category `url`. */
  method GetProductsDetails(site: ListingSite, url: string) returns (products: Option<seq<Product>>)
    ensures products == Details(site(ListingAddress(url)), url, FromProductUrl)
    ensures products.Some? ==> forall p :: p in products.value ==>
      p.scrapedCategory == url && p.id == ProductId(p.url)
  {
    var page := site(ListingAddress(url));
    if page.NavigationFailed? {
      return None;
    }
    products := CardRecords(page.articles, url, FromProductUrl);
    DetailsRecords(page, url, FromProductUrl);
  }

  /** getProductsList(page, categories). */
  method GetProductsList(site: ListingSite, categories: seq<Categories.Category>) returns (products: Option<seq<Product>>)
    ensures products == Listing(site, categories, FromProductUrl)
  {
    if |categories| == 0 {
      return Some([]);
    }
    var list: seq<Product> := [];
    var i := 0;
    assert categories[i..] == categories;
    JoinEmpty(Listing(site, categories, FromProductUrl));
    while i < |categories|
      invariant 0 <= i <= |categories|
      invariant Listing(site, categories, FromProductUrl) == Join(Some(list), Listing(site, categories[i..], FromProductUrl))
    {
      assert categories[i..][0] == categories[i] && categories[i..][1..] == categories[i + 1..];
      if categories[i].url.None? {
        return None;
      }
      var found := GetProductsDetails(site, categories[i].url.value);
      if found.None? {
        return None;
      }
      JoinAssociative(Some(list), found, Listing(site, categories[i + 1..], FromProductUrl));
      list := list + found.value;
      i := i + 1;
    }
    assert categories[i..] == [];
    JoinEmpty(Some(list));
    products := Some(list);
  }

  /** The module's `retryCounter`, as a field. */
  class ProductProber {
    var retryCounter: nat

    /** The module's invariant: `retryCounter` is only incremented below 3, and reset to 0. */
    ghost predicate Valid()
      reads this
    {
      retryCounter <= RetryLimit
    }

    constructor ()
      ensures Valid() && retryCounter == 0
    {
      retryCounter := 0;
    }

    /** openProductPage(page, product, stocks), at the k-th attempt of the i-th product; the updated `stocks` is returned. */
    method OpenProductPage(site: AttemptSite, i: nat, product: Product, stocks: seq<Product>, k: nat)
      returns (stocks': seq<Product>, attempts: nat)
      requires Valid()
      modifies this
      ensures Valid()
      ensures var p := ProbeRun(site, Transient, i, old(retryCounter), k);
        stocks' == stocks + (if p.pushed then [product] else [])
        && retryCounter == p.counter && attempts == p.attempts
      decreases if retryCounter < RetryLimit then RetryLimit - retryCounter else 0
    {
      match site(i, k)
      case Availability(locations, text) =>
        stocks' := if Qualifies(text, locations) then stocks + [product] else stocks;
        attempts := 1;
      case NoAvailability =>
        stocks', attempts := stocks, 1;
      case Thrown(message) =>
        if Transient(message) && retryCounter < RetryLimit {
          retryCounter := retryCounter + 1;
          var retried;
          stocks', retried := OpenProductPage(site, i, product, stocks, k + 1);
          attempts := retried + 1;
        } else {
          stocks', attempts := stocks, 1;
        }
    }

    /** getProductsAvailability(page, products). */
    method GetProductsAvailability(site: AttemptSite, products: seq<Product>) returns (stocks: seq<Product>)
      requires Valid()
      modifies this
      ensures Valid()
      ensures stocks == Available(products, site, Transient, old(retryCounter), |products|)
      ensures retryCounter == if |products| == 0 then old(retryCounter) else 0
    {
      ghost var c0 := retryCounter;
      stocks := [];
      var i := 0;
      while i < |products|
        invariant 0 <= i <= |products|
        invariant stocks == Available(products, site, Transient, c0, i)
        invariant c0 <= RetryLimit && retryCounter == if i == 0 then c0 else 0
      {
        var attempts;
        ghost var before := stocks;
        stocks, attempts := OpenProductPage(site, i, products[i], stocks, 0);
        AvailableStep(products, site, Transient, c0, i, before, stocks);
        retryCounter := 0;
        i := i + 1;
      }
    }

    /**
     * getProducts(categories) for one round: the first 5 categories are listed and
     * probed. A listing exception is caught and yields undefined; so does an empty
     * `stocks`, for which the source starts a new round whose result it drops.
     */
    method GetProducts(categories: seq<Categories.Category>, listing: ListingSite, site: AttemptSite)
      returns (stocks: Option<seq<Product>>)
      requires Valid()
      modifies this
      ensures Valid()
      ensures var products := Listing(listing, Cap(categories, CategoryCap), FromProductUrl);
        stocks == if products.None? then None
                  else var s := Available(products.value, site, Transient, old(retryCounter), |products.value|);
                       if s == [] then None else Some(s)
      ensures var products := Listing(listing, Cap(categories, CategoryCap), FromProductUrl);
        retryCounter == if products.None? || products.value == [] then old(retryCounter) else 0
    {
      var temp := Cap(categories, CategoryCap);
      var products := GetProductsList(listing, temp);
      if products.None? {
        return None;
      }
      var s := GetProductsAvailability(site, products.value);
      if |s| == 0 {
        stocks := None;
      } else {
        stocks := Some(s);
      }
    }
  }
}
