/**
 * The card and URL string rules shared by the product listing code of
 * src/lib/scraping/products.ts, src/lib/products.ts and src/lib/scraping.ts,
 * and the listing behaviour of getProductsDetails / getProductsList, which the
 * two product files share except for where the `id` comes from.
 */
module Cards {
  import opened Wrappers
  import opened Text
  import Categories

  const FilterAfterQuery := "&filter=t_off%3DInStock&so=15"
  const FilterAsQuery := "?filter=t_off%3DInStock&so=15"
  const IdLength := 8

  /** `url + filters`: the in-stock filter and sort order, appended with '&' when `url` already has a '?'. */
  function WithStockFilter(url: string): string {
    if '?' in url then url + FilterAfterQuery else url + FilterAsQuery
  }

  /** The url is kept; '&' follows it exactly when it already has a '?', and then the same filter. */
  lemma StockFilterAppends(url: string)
    ensures var r := WithStockFilter(url);
      |r| > |url| && r[..|url|] == url
      && r[|url|] == (if '?' in url then '&' else '?')
      && r[|url| + 1..] == FilterAsQuery[1..]
  {
    assert FilterAfterQuery[1..] == FilterAsQuery[1..];
  }

  /** The address a category listing is opened at: `https://www.galaxus.ch${url + filters}`. */
  function ListingAddress(url: string): string {
    Categories.Origin + WithStockFilter(url)
  }

  /**
   * Section 3.4 of RFC 3986: the query component starts after the first '?' and runs to
   * the end of a reference that has no fragment. These two functions split such a reference.
   */
  function PathPart(ref: string): string {
    match IndexOf(ref, "?", 0)
    case None => ref
    case Some(i) => ref[..i]
  }

  function QueryPart(ref: string): Option<string> {
    match IndexOf(ref, "?", 0)
    case None => None
    case Some(i) => Some(ref[i + 1..])
  }

  /** For a one-character pattern, an occurrence is just that character. */
  lemma CharOccurs(s: string, c: char, i: nat)
    ensures OccursAt(s, [c], i) <==> i < |s| && s[i] == c
  {
    if i < |s| && s[i] == c {
      assert s[i..i + 1] == [c];
    }
  }

  /** The first occurrence of a one-character pattern is the first index holding that character. */
  lemma {:induction false} FirstCharIndex(s: string, c: char, i: nat)
    requires i < |s| && s[i] == c && c !in s[..i]
    ensures IndexOf(s, [c], 0) == Some(i)
  {
    CharOccurs(s, c, i);
    IndexOfFirst(s, [c], 0);
    var t := IndexOf(s, [c], 0);
    assert t.Some?;
    CharOccurs(s, c, t.value);
    if t.value < i {
      assert false;
    }
  }

  lemma CharAbsent(s: string, c: char)
    requires c !in s
    ensures IndexOf(s, [c], 0) == None
  {
    IndexOfFirst(s, [c], 0);
    if IndexOf(s, [c], 0).Some? {
      CharOccurs(s, c, IndexOf(s, [c], 0).value);
      assert false;
    }
  }

  /** A pattern whose first character does not appear in `s` does not occur in it. */
  lemma AbsentByFirstChar(s: string, pat: string)
    requires |pat| > 0 && pat[0] !in s
    ensures !Includes(s, pat)
  {
    IncludesOccurs(s, pat);
    if Includes(s, pat) {
      assert false;
    }
  }

  /**
   * Appending the filter keeps the path and puts the filter parameters at the end of
   * the query, starting a query when there was none.
   */
  lemma StockFilterExtendsQuery(url: string)
    requires '#' !in url
    ensures var r := WithStockFilter(url);
      PathPart(r) == PathPart(url)
      && QueryPart(r) == Some(match QueryPart(url)
                              case None => FilterAsQuery[1..]
                              case Some(q) => q + FilterAfterQuery)
  {
    var r := WithStockFilter(url);
    if '?' in url {
      var q :| 0 <= q < |url| && url[q] == '?';
      CharOccurs(url, '?', q);
      IndexOfFirst(url, "?", 0);
      var i := IndexOf(url, "?", 0).value;
      CharOccurs(url, '?', i);
      forall j | 0 <= j < i ensures url[j] != '?' {
        CharOccurs(url, '?', j);
      }
      assert r[..i] == url[..i];
      FirstCharIndex(r, '?', i);
      assert r[i + 1..] == url[i + 1..] + FilterAfterQuery;
    } else {
      CharAbsent(url, '?');
      assert r[..|url|] == url;
      FirstCharIndex(r, '?', |url|);
      assert r[|url| + 1..] == FilterAsQuery[1..];
    }
  }

  /** `productUrl?.match(/[^-]*$/)?.pop()?.slice(0, 8)`. */
  function ProductId(href: Option<string>): (id: Option<string>)
    ensures id.None? <==> href.None?
    ensures id.Some? ==> |id.value| <= IdLength && '-' !in id.value
  {
    match href
    case None => None
    case Some(u) => Some(Prefix(DashFreeSuffix(u), IdLength))
  }

  /** The longest '-'-free suffix starts right after the last '-'. */
  lemma DashFreeSuffixAfter(s: string, k: nat)
    requires 0 < k <= |s| && s[k - 1] == '-' && '-' !in s[k..]
    ensures DashFreeSuffix(s) == s[k..]
  {
    var r := DashFreeSuffix(s);
    if |r| > |s| - k {
      assert false;
    } else if |r| < |s| - k {
      assert false;
    }
  }

  /**
   * The id is the first min(8, n) characters of the n characters after the
   * address's last '-' (of the whole address when it has no '-').
   */
  lemma ProductIdAfterLastDash(u: string)
    ensures exists k :: (0 <= k <= |u| && '-' !in u[k..] && (k == 0 || u[k - 1] == '-')
      && ProductId(Some(u)) == Some(u[k..][..if |u| - k < IdLength then |u| - k else IdLength]))
  {
    var k := |u| - |DashFreeSuffix(u)|;
    assert DashFreeSuffix(u) == u[k..];
    assert u[k..][..|u| - k] == u[k..];
  }

  lemma ProductIdOfListedUrl()
    ensures ProductId(Some("/fr/s1/product/some-item-name-12345678")) == Some("12345678")
  {
    var a := "/fr/s1/product/some-item-name-12345678";
    assert a[29] == '-' && a[30..] == "12345678";
    DashFreeSuffixAfter(a, 30);
  }

  /** An empty href still has an id, the empty string: only an absent href has none. */
  lemma ProductIdOfEmptyHref()
    ensures ProductId(Some("")) == Some("")
  {
  }

  /** `priceSpan.replace("CHF", "").replace(",", ".")`, before `parseFloat`. */
  function NormalizePrice(text: string): string {
    ReplaceFirst(ReplaceFirst(text, "CHF", ""), ",", ".")
  }

  /** Only a price with "CHF" gets shorter, by the three letters; the comma becomes a point in place. */
  lemma NormalizePriceLength(text: string)
    ensures |NormalizePrice(text)| == |text| - (if Includes(text, "CHF") then 3 else 0)
  {
    var t := ReplaceFirst(text, "CHF", "");
    ReplaceFirstOccurrence(text, "CHF", "");
    ReplaceFirstOccurrence(t, ",", ".");
  }

  /** A price text with neither "CHF" nor ',' is left as it is. */
  lemma NormalizePriceKeepsNormalText(text: string)
    requires !Includes(text, "CHF") && ',' !in text
    ensures NormalizePrice(text) == text
  {
    CharAbsent(text, ',');
  }

  /** The currency code goes, the comma becomes a point; the space after "CHF" stays for `parseFloat` to skip. */
  lemma NormalizePriceOfSwissPrice()
    ensures NormalizePrice("CHF 19,90") == " 19.90"
  {
    assert OccursAt("CHF 19,90", "CHF", 0);
    assert ReplaceFirst("CHF 19,90", "CHF", "") == " 19,90";
    FirstCharIndex(" 19,90", ',', 3);
  }

  lemma NormalizePriceOfNormalPrice()
    ensures NormalizePrice("19.90") == "19.90"
  {
    AbsentByFirstChar("19.90", "CHF");
    NormalizePriceKeepsNormalText("19.90");
  }

  /** What the page shows for one product card. Texts read with `textContent`, attributes with `getAttribute` (null when absent). */
  datatype Card = Card(
    product: string,
    brand: string,
    priceText: string,
    details: Option<string>,   // the optional details element, when present, with its text
    imageURL: Option<string>,
    href: Option<string>,
    category: string,
    categoryHref: Option<string>)

  /** A card whose required element is missing makes `article.$eval` throw. */
  datatype CardRead = Complete(card: Card) | MissingElement

  /** The category page after `page.goto`, with the cards `page.$$` found on it. */
  datatype ListingPage = NavigationFailed | Loaded(articles: seq<CardRead>)

  /** The site as the listing code sees it: the page shown at each address. */
  type ListingSite = string -> ListingPage

  /** Where a record's `id` is taken from: the card's product link, or the category page's url. */
  datatype IdSource = FromProductUrl | FromCategoryUrl

  /** A listed product. `price` is the normalised price text; its `parseFloat` is not modelled. */
  datatype Product = Product(
    id: Option<string>,
    product: string,
    brand: string,
    details: string,
    price: string,
    imageURL: Option<string>,
    url: Option<string>,
    category: string,
    categoryUrl: Option<string>,
    scrapedCategory: string)

  /** `detailsTemp ? text : ""`. */
  function DetailsText(details: Option<string>): string {
    match details
    case None => ""
    case Some(t) => t
  }

  function ToProduct(c: Card, url: string, src: IdSource): Product {
    var id := if src == FromProductUrl then ProductId(c.href) else ProductId(Some(url));
    Product(id, c.product, c.brand, DetailsText(c.details), NormalizePrice(c.priceText),
            c.imageURL, c.href, c.category, c.categoryHref, url)
  }

  predicate AllComplete(cards: seq<CardRead>) {
    forall i :: 0 <= i < |cards| ==> cards[i].Complete?
  }

  /** getProductsDetails: one record per card in page order, or the exception of a missing element or a failed navigation. */
  function Details(page: ListingPage, url: string, src: IdSource): Option<seq<Product>> {
    match page
    case NavigationFailed => None
    case Loaded(cards) =>
      if AllComplete(cards) then
        Some(seq(|cards|, i requires 0 <= i < |cards| && cards[i].Complete? => ToProduct(cards[i].card, url, src)))
      else None
  }

  /** What each listed record holds, as the field assignments of getProductsDetails promise. */
  lemma DetailsRecords(page: ListingPage, url: string, src: IdSource)
    ensures Details(page, url, src).Some? <==> page.Loaded? && AllComplete(page.articles)
    ensures Details(page, url, src).Some? ==>
      var ps := Details(page, url, src).value;
      |ps| == |page.articles|
      && forall i :: 0 <= i < |ps| ==>
        var c := page.articles[i].card;
        ps[i].scrapedCategory == url && ps[i].url == c.href
        && ps[i].product == c.product && ps[i].brand == c.brand && ps[i].imageURL == c.imageURL
        && ps[i].category == c.category && ps[i].categoryUrl == c.categoryHref
        && (c.details.None? ==> ps[i].details == "")
        && (c.details.Some? ==> ps[i].details == c.details.value)
        && ps[i].price == NormalizePrice(c.priceText)
        && ps[i].id == (if src == FromProductUrl then ProductId(c.href) else ProductId(Some(url)))
  {
  }

  /**
   * The `for (const article of articles)` loop of getProductsDetails: one record per card in
   * page order, stopped by the exception of the first card with a missing element.
   */
  method CardRecords(cards: seq<CardRead>, url: string, src: IdSource) returns (records: Option<seq<Product>>)
    ensures records == Details(Loaded(cards), url, src)
  {
    var list: seq<Product> := [];
    var i := 0;
    while i < |cards|
      invariant 0 <= i <= |cards|
      invariant forall j :: 0 <= j < i ==> cards[j].Complete?
      invariant |list| == i
      invariant forall j :: 0 <= j < i ==> list[j] == ToProduct(cards[j].card, url, src)
    {
      if cards[i].MissingElement? {
        DetailsOfMissingElement(cards, url, src, i);
        return None;
      }
      RecordsExtend(cards, url, src, list, i);
      list := list + [ToProduct(cards[i].card, url, src)];
      i := i + 1;
    }
    records := Some(list);
    DetailsOfCompleteCards(cards, url, src, list);
  }

  /** Appending the record of the next complete card keeps the list the records of the cards so far. */
  lemma RecordsExtend(cards: seq<CardRead>, url: string, src: IdSource, list: seq<Product>, i: nat)
    requires i < |cards| && |list| == i && cards[i].Complete?
    requires forall j :: 0 <= j < i ==> cards[j].Complete? && list[j] == ToProduct(cards[j].card, url, src)
    ensures var next := list + [ToProduct(cards[i].card, url, src)];
      forall j :: 0 <= j < i + 1 ==> cards[j].Complete? && next[j] == ToProduct(cards[j].card, url, src)
  {
  }

  /** One card with a missing element makes the whole listing fail. */
  lemma DetailsOfMissingElement(cards: seq<CardRead>, url: string, src: IdSource, i: nat)
    requires i < |cards| && cards[i].MissingElement?
    ensures Details(Loaded(cards), url, src) == None
  {
    assert !AllComplete(cards);
  }

  /** A list holding the record of every card, in page order, is the listing of the loaded page. */
  lemma DetailsOfCompleteCards(cards: seq<CardRead>, url: string, src: IdSource, list: seq<Product>)
    requires |list| == |cards|
    requires forall j :: 0 <= j < |list| ==> cards[j].Complete? && list[j] == ToProduct(cards[j].card, url, src)
    ensures Details(Loaded(cards), url, src) == Some(list)
  {
    assert AllComplete(cards);
    assert Details(Loaded(cards), url, src).value == list;
  }

  /** `categories.slice(0, n)`. */
  function Cap<T>(s: seq<T>, n: nat): (r: seq<T>)
    ensures |r| == (if |s| < n then |s| else n) && r == s[..|r|]
  {
    if |s| <= n then s else s[..n]
  }

  /**
   * getProductsList: the per-category records concatenated in input order. An exception
   * anywhere (a category without url makes `url.includes` throw) ends the whole listing.
   */
  function Listing(site: ListingSite, cats: seq<Categories.Category>, src: IdSource): (r: Option<seq<Product>>)
    ensures r.Some? ==> forall c :: c in cats ==> c.url.Some?
    decreases |cats|
  {
    if cats == [] then Some([])
    else
      match cats[0].url
      case None => None
      case Some(u) => Join(Details(site(ListingAddress(u)), u, src), Listing(site, cats[1..], src))
  }

  /** Listing two runs of categories one after the other concatenates their records. */
  lemma {:induction false} ListingAppend(site: ListingSite, a: seq<Categories.Category>, b: seq<Categories.Category>, src: IdSource)
    ensures Listing(site, a + b, src) == Join(Listing(site, a, src), Listing(site, b, src))
    decreases |a|
  {
    if a != [] {
      assert (a + b)[0] == a[0];
      assert (a + b)[1..] == a[1..] + b;
      ListingAppend(site, a[1..], b, src);
      if a[0].url.Some? {
        var u := a[0].url.value;
        JoinAssociative(Details(site(ListingAddress(u)), u, src), Listing(site, a[1..], src), Listing(site, b, src));
      }
    } else {
      assert a + b == b;
      JoinEmpty(Listing(site, b, src));
    }
  }

  /** A category whose listing page shows no card contributes no record. */
  lemma ListingSkipsEmptyCategory(site: ListingSite, c: Categories.Category, rest: seq<Categories.Category>, src: IdSource)
    requires c.url.Some? && site(ListingAddress(c.url.value)) == Loaded([])
    ensures Listing(site, [c] + rest, src) == Listing(site, rest, src)
  {
    assert ([c] + rest)[1..] == rest;
    var d := Details(Loaded([]), c.url.value, src);
    assert d.Some? && d.value == [];
    JoinEmpty(Listing(site, rest, src));
  }

  /** Every listed record names, as `scrapedCategory`, the url of one of the input categories. */
  lemma {:induction false} ListingProvenance(site: ListingSite, cats: seq<Categories.Category>, src: IdSource)
    requires Listing(site, cats, src).Some?
    ensures forall p :: p in Listing(site, cats, src).value ==>
      exists i :: 0 <= i < |cats| && cats[i].url == Some(p.scrapedCategory)
    decreases |cats|
  {
    if cats != [] {
      var u := cats[0].url.value;
      var ps := Details(site(ListingAddress(u)), u, src).value;
      ListingProvenance(site, cats[1..], src);
      DetailsRecords(site(ListingAddress(u)), u, src);
      forall p | p in Listing(site, cats, src).value
        ensures exists i :: 0 <= i < |cats| && cats[i].url == Some(p.scrapedCategory)
      {
        if p in ps {
          var j :| 0 <= j < |ps| && ps[j] == p;
          assert cats[0].url == Some(p.scrapedCategory);
        } else {
          assert p in Listing(site, cats[1..], src).value;
          var i :| 0 <= i < |cats[1..]| && cats[1..][i].url == Some(p.scrapedCategory);
          assert cats[i + 1].url == Some(p.scrapedCategory);
        }
      }
    }
  }
}
