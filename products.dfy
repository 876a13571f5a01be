/**
 * src/lib/products.ts: the other product lister (its `id` comes from the category
 * url) and the availability prober with a numeric stock threshold and no retries.
 */
module Products {
  import opened Wrappers
  import opened Text
  import opened Cards
  import Categories
  import ScrapingProducts

  const CategoryCap := 4
  const StockThreshold := 10

  /**
   * One probe of a product page: an exception from goto, the click or the wait; no
   * availability button; `waitForSelector` yielding null; or the overlay with its
   * number of `strong` locations, its stock text (null when the stock `$eval` threw)
   * and whether the final click on the close button throws.
   */
  datatype Probe =
    | Failed
    | NoButton
    | NoOverlay
    | Overlay(locations: nat, stockText: Option<string>, closeFails: bool)

  /** The probe of the i-th product of the list. */
  type ProbeSite = nat -> Probe

  /** `{ ...product, pickup: isPickupAvailable, stockLevel }`. */
  datatype StockRecord = StockRecord(product: Product, pickup: bool, stockLevel: nat)

  /** `parseInt(text.match(/\d+/)[0])`; null when the text has no digit, where `[0]` throws. */
  function StockLevel(text: string): Option<nat> {
    match FirstDigitRun(text)
    case None => None
    case Some(digits) => Some(DecimalValue(digits))
  }

  /** The stock level is missing exactly when the stock text has no digit at all. */
  lemma StockLevelDefined(text: string)
    ensures StockLevel(text).None? <==> forall j :: 0 <= j < |text| ==> !IsDigit(text[j])
  {
    FirstDigitRunIsLeftmostMaximal(text);
  }

  lemma StockLevelOfText(t: string)
    requires t == "25 items in stock"
    ensures StockLevel(t) == Some(25)
  {
    assert IsDigit(t[0]) && IsDigit(t[1]) && !IsDigit(t[2]);
    assert DigitRunEnd(t, 2) == 2;
    assert t[0..2] == "25";
    assert DecimalValue("25") == 25 by {
      assert "25"[..1] == "2";
      assert "2"[..0] == "";
    }
  }

  /** The record that the try block of one product pushes, if any. */
  function Assess(p: Product, probe: Probe): Option<StockRecord> {
    match probe
    case Overlay(locations, Some(text), _) =>
      (match StockLevel(text)
       case None => None
       case Some(level) =>
         if level >= StockThreshold && locations > 0 then Some(StockRecord(p, locations > 0, level)) else None)
    case _ => None
  }

  /**
   * A record is emitted exactly when the overlay showed at least one location and a
   * stock text whose first number is at least 10, and then it carries that number,
   * pickup set, and the product; a failing close click after the push does not undo it.
   */
  lemma AssessExactly(p: Product, probe: Probe)
    ensures Assess(p, probe).Some? <==>
      probe.Overlay? && probe.locations > 0 && probe.stockText.Some?
      && StockLevel(probe.stockText.value).Some? && StockLevel(probe.stockText.value).value >= StockThreshold
    ensures Assess(p, probe).Some? ==>
      Assess(p, probe).value == StockRecord(p, true, StockLevel(probe.stockText.value).value)
    ensures probe.Overlay? ==> Assess(p, probe) == Assess(p, probe.(closeFails := !probe.closeFails))
  {
  }

  /** The `stocks` that getProductsAvailability has built after the first n products. */
  function Stocks(products: seq<Product>, probe: ProbeSite, n: nat): seq<StockRecord>
    requires n <= |products|
    decreases n
  {
    if n == 0 then [] else Stocks(products, probe, n - 1) + Emitted(Assess(products[n - 1], probe(n - 1)))
  }

  function Emitted(r: Option<StockRecord>): seq<StockRecord> {
    match r
    case None => []
    case Some(x) => [x]
  }

  /** The positions of the products among the first n that produced a record, in increasing order. */
  function RecordPositions(products: seq<Product>, probe: ProbeSite, n: nat): seq<nat>
    requires n <= |products|
    decreases n
  {
    if n == 0 then []
    else RecordPositions(products, probe, n - 1) + (if Assess(products[n - 1], probe(n - 1)).Some? then [n - 1] else [])
  }

  /** Record j of the result is the record that the product at position ix[j] produced. */
  lemma {:induction false} StocksIsSubsequence(products: seq<Product>, probe: ProbeSite, n: nat)
    requires n <= |products|
    ensures var s, ix := Stocks(products, probe, n), RecordPositions(products, probe, n);
      |s| == |ix|
      && forall j :: 0 <= j < |ix| ==> ix[j] < n && Assess(products[ix[j]], probe(ix[j])) == Some(s[j])
    decreases n
  {
    if n > 0 {
      StocksIsSubsequence(products, probe, n - 1);
      var a := Assess(products[n - 1], probe(n - 1));
      var s, ix := Stocks(products, probe, n - 1), RecordPositions(products, probe, n - 1);
      if a.Some? {
        assert Stocks(products, probe, n) == s + [a.value];
        assert RecordPositions(products, probe, n) == ix + [n - 1];
      } else {
        assert Stocks(products, probe, n) == s;
        assert RecordPositions(products, probe, n) == ix;
      }
    }
  }

  /**
   * The positions of the records strictly increase (so the result keeps the products'
   * order and holds each at most once), and a position is there exactly when its probe
   * produced a record.
   */
  lemma {:induction false} RecordPositionsOrdered(products: seq<Product>, probe: ProbeSite, n: nat)
    requires n <= |products|
    ensures var ix := RecordPositions(products, probe, n);
      (forall j :: 0 <= j < |ix| ==> ix[j] < n)
      && (forall j, l :: 0 <= j < l < |ix| ==> ix[j] < ix[l])
      && (forall i :: 0 <= i < n ==> (i in ix <==> Assess(products[i], probe(i)).Some?))
    decreases n
  {
    if n > 0 {
      RecordPositionsOrdered(products, probe, n - 1);
    }
  }

  /** Every record of the result has pickup and a stock level of at least 10. */
  lemma {:induction false} StocksMeetThreshold(products: seq<Product>, probe: ProbeSite, n: nat)
    requires n <= |products|
    ensures forall r :: r in Stocks(products, probe, n) ==> r.pickup && r.stockLevel >= StockThreshold
    decreases n
  {
    if n > 0 {
      StocksMeetThreshold(products, probe, n - 1);
      AssessExactly(products[n - 1], probe(n - 1));
    }
  }

  /**
   * The two availability rules differ: a stock line "2 of 10 items" with one location
   * passes the substring rule of src/lib/scraping/products.ts but not this file's
   * numeric rule, whose first number is 2.
   */
  lemma ThresholdRulesDiffer(t: string)
    requires t == "2 of 10 items"
    ensures ScrapingProducts.Qualifies(t, 1)
    ensures StockLevel(t) == Some(2)
  {
    assert OccursAt(t, "10 items", 5);
    IncludesOccurs(t, "10 items");
    assert IsDigit(t[0]) && !IsDigit(t[1]);
    assert DigitRunEnd(t, 1) == 1;
    assert t[0..1] == "2";
    assert DecimalValue("2") == 2 by {
      assert "2"[..0] == "";
    }
  }

  /** In this listing every record of a category page carries the id of the category url itself. */
  lemma CategoryUrlIds(page: ListingPage, url: string)
    ensures var ps := Details(page, url, FromCategoryUrl);
      ps.Some? ==> forall p :: p in ps.value ==> p.scrapedCategory == url && p.id == ProductId(Some(url))
  {
    DetailsRecords(page, url, FromCategoryUrl);
    var ps := Details(page, url, FromCategoryUrl);
    if ps.Some? {
      forall p | p in ps.value
        ensures p.scrapedCategory == url && p.id == ProductId(Some(url))
      {
        var j :| 0 <= j < |ps.value| && ps.value[j] == p;
      }
    }
  }

  /** getProductsDetails(page, url): every record's id is taken from the category url. */
  method GetProductsDetails(site: ListingSite, url: string) returns (products: Option<seq<Product>>)
    ensures products == Details(site(ListingAddress(url)), url, FromCategoryUrl)
    ensures products.Some? ==> forall p :: p in products.value ==>
      p.scrapedCategory == url && p.id == ProductId(Some(url))
  {
    var page := site(ListingAddress(url));
    if page.NavigationFailed? {
      return None;
    }
    products := CardRecords(page.articles, url, FromCategoryUrl);
    CategoryUrlIds(page, url);
  }

  /** getProductsList(page, categories). */
  method GetProductsList(site: ListingSite, categories: seq<Categories.Category>) returns (products: Option<seq<Product>>)
    ensures products == Listing(site, categories, FromCategoryUrl)
  {
    if |categories| == 0 {
      return Some([]);
    }
    var list: seq<Product> := [];
    var i := 0;
    assert categories[i..] == categories;
    JoinEmpty(Listing(site, categories, FromCategoryUrl));
    while i < |categories|
      invariant 0 <= i <= |categories|
      invariant Listing(site, categories, FromCategoryUrl) == Join(Some(list), Listing(site, categories[i..], FromCategoryUrl))
    {
      assert categories[i..][0] == categories[i] && categories[i..][1..] == categories[i + 1..];
      if categories[i].url.None? {
        return None;
      }
      var found := GetProductsDetails(site, categories[i].url.value);
      if found.None? {
        return None;
      }
      JoinAssociative(Some(list), found, Listing(site, categories[i + 1..], FromCategoryUrl));
      list := list + found.value;
      i := i + 1;
    }
    assert categories[i..] == [];
    JoinEmpty(Some(list));
    products := Some(list);
  }

  /** getProductsAvailability(page, products): one probe per product, in order; an exception skips only that product. */
  method GetProductsAvailability(products: seq<Product>, probe: ProbeSite) returns (stocks: seq<StockRecord>)
    ensures stocks == Stocks(products, probe, |products|)
    ensures forall r :: r in stocks ==> r.pickup && r.stockLevel >= StockThreshold
  {
    stocks := [];
    var i := 0;
    while i < |products|
      invariant 0 <= i <= |products|
      invariant stocks == Stocks(products, probe, i)
    {
      match probe(i) {
        case Overlay(locations, stockText, closeFails) =>
          // a null stock text or one without digits throws inside the try block
          if stockText.Some? && StockLevel(stockText.value).Some? {
            var stockLevel := StockLevel(stockText.value).value;
            var isPickupAvailable := locations > 0;
            if stockLevel >= StockThreshold && isPickupAvailable {
              stocks := stocks + [StockRecord(products[i], isPickupAvailable, stockLevel)];
            }
            // closeFails: the close click throws after the push; the catch keeps `stocks`
          }
        case _ =>
      }
      i := i + 1;
    }
    StocksMeetThreshold(products, probe, |products|);
  }

  /**
   * getProducts(categories) for one round: the first 4 categories are listed and
   * probed. A listing exception is caught and yields undefined; so does an empty
   * result, for which the source starts a new round whose result it drops.
   */
  method GetProducts(categories: seq<Categories.Category>, listing: ListingSite, probe: ProbeSite)
    returns (stocks: Option<seq<StockRecord>>)
    ensures var products := Listing(listing, Cap(categories, CategoryCap), FromCategoryUrl);
      stocks == if products.None? then None
                else var s := Stocks(products.value, probe, |products.value|);
                     if s == [] then None else Some(s)
    ensures stocks.Some? ==> stocks.value != [] && forall r :: r in stocks.value ==> r.pickup && r.stockLevel >= StockThreshold
  {
    var temp := Cap(categories, CategoryCap);
    var products := GetProductsList(listing, temp);
    if products.None? {
      return None;
    }
    var s := GetProductsAvailability(products.value, probe);
    if |s| == 0 {
      stocks := None;
    } else {
      stocks := Some(s);
    }
  }

  /** Only the first 4 categories matter: the categories after them never change the outcome. */
  lemma OnlyFirstCategoriesListed(categories: seq<Categories.Category>, more: seq<Categories.Category>, listing: ListingSite)
    requires |categories| >= CategoryCap
    ensures Listing(listing, Cap(categories + more, CategoryCap), FromCategoryUrl)
         == Listing(listing, Cap(categories, CategoryCap), FromCategoryUrl)
  {
    assert Cap(categories + more, CategoryCap) == Cap(categories, CategoryCap);
  }
}
