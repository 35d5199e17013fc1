// The home page's product area: the one-line summary of a product, the
// cards built from the product list and from a search, and the search box.
module ProductArea {
  import opened Wrappers
  import opened Strings
  import opened Catalog
  import ProductCache

  const PLACEHOLDER_IMAGE := "/api/placeholder/120/120"
  const UNKNOWN_PRODUCT := "Unknown Product"
  const LOAD_FAILED := "Unable to load products from server. Showing fallback data."

  /** `Window Specifications`: type, material and the two size ranges. */
  datatype WindowSpecs = WindowSpecs(
    specType: Option<string>, material: Option<string>,
    widthRange: Option<string>, heightRange: Option<string>)

  /**
   * `Model Details & Options`, as far as the summary reads it: the window
   * specifications, and the `text` of the first CONSTRUCTION and of the
   * first SUSTAINABLE SOLUTIONS entry, when those exist.
   */
  datatype ModelDetails = ModelDetails(
    windowSpecs: Option<WindowSpecs>,
    constructionText: Option<string>,
    sustainabilityText: Option<string>)

  /** A product as the API returns it; `price` is its text. */
  datatype ApiProduct = ApiProduct(
    id: string,
    productName: Option<string>, name: Option<string>,
    image: Option<string>,
    productKind: Option<string>, productType: Option<string>,
    price: Option<string>,
    details: Option<ModelDetails>)

  /** The summary built from window specifications. */
  function WindowSummary(s: WindowSpecs): string {
    Or(s.specType, "") + " " + Or(s.material, "") + " - Size: " +
    Or(s.widthRange, "") + " \U{00D7} " + Or(s.heightRange, "")
  }

  /** The fallback summary from the price and the type. */
  function FallbackSummary(p: ApiProduct): string {
    "$" + Or(p.price, "Price available") + " - " + Or(p.productKind, "Product") +
    " specifications available in detail view"
  }

  /**
   * `getProductSummary(product)`: window specifications first, then the
   * first construction text, then the first sustainability text, then the
   * price-and-type fallback.
   */
  function Summary(p: ApiProduct): (r: string)
    ensures p.details.Some? && p.details.value.windowSpecs.Some? ==>
              r == WindowSummary(p.details.value.windowSpecs.value)
    ensures p.details.Some? && p.details.value.windowSpecs.None? && Truthy(p.details.value.constructionText) ==>
              r == p.details.value.constructionText.value
    ensures p.details.Some? && p.details.value.windowSpecs.None? && !Truthy(p.details.value.constructionText) &&
            Truthy(p.details.value.sustainabilityText) ==>
              r == p.details.value.sustainabilityText.value
    ensures p.details.None? ||
            (p.details.value.windowSpecs.None? && !Truthy(p.details.value.constructionText) &&
             !Truthy(p.details.value.sustainabilityText)) ==>
              r == FallbackSummary(p)
  {
    match p.details
    case None => FallbackSummary(p)
    case Some(d) =>
      if d.windowSpecs.Some? then WindowSummary(d.windowSpecs.value)
      else if Truthy(d.constructionText) then d.constructionText.value
      else if Truthy(d.sustainabilityText) then d.sustainabilityText.value
      else FallbackSummary(p)
  }

  /** A product card. */
  datatype Card = Card(
    id: string, name: string, specifications: string, image: string,
    cardType: Option<string>, price: Option<string>, originalData: Option<ApiProduct>)

  /** The suggested-product transform. */
  function SuggestedCard(p: ApiProduct): (c: Card)
    ensures c.id == p.id && c.originalData == Some(p) && c.price.None?
    ensures c.name == (if Truthy(p.productName) then p.productName.value
                       else if Truthy(p.name) then p.name.value else UNKNOWN_PRODUCT)
    ensures c.image == (if Truthy(p.image) then p.image.value else PLACEHOLDER_IMAGE)
    ensures c.specifications == Summary(p)
  {
    Card(p.id, Or(FirstTruthy(p.productName, p.name), UNKNOWN_PRODUCT), Summary(p),
         Or(p.image, PLACEHOLDER_IMAGE), FirstTruthy(p.productKind, p.productType), None, Some(p))
  }

  /** A search-result card, with the summary it is given. */
  function SearchCard(item: ApiProduct, specifications: string): (c: Card)
    ensures c.id == item.id && c.originalData == Some(item) && c.price == item.price
    ensures c.name == SuggestedCard(item).name && c.image == SuggestedCard(item).image
    ensures c.specifications == specifications
  {
    Card(item.id, Or(FirstTruthy(item.productName, item.name), UNKNOWN_PRODUCT), specifications,
         Or(item.image, PLACEHOLDER_IMAGE), FirstTruthy(item.productKind, item.productType), item.price, Some(item))
  }

  /**
   * The whole response array read as a product: it has no model details,
   * no price and no type.
   */
  const RESPONSE_ARRAY_AS_PRODUCT := ApiProduct("", None, None, None, None, None, None, None)

  /** The summary every search card gets as written. */
  const ARRAY_SUMMARY := "$" + "Price available" + " - " + "Product" + " specifications available in detail view"

  /** The search transform as written: the summary is taken of the whole response array. */
  function SearchCardsAsWritten(items: seq<ApiProduct>): (r: seq<Card>)
    ensures |r| == |items|
    ensures forall i :: 0 <= i < |r| ==> r[i] == SearchCard(items[i], Summary(RESPONSE_ARRAY_AS_PRODUCT))
  {
    seq(|items|, i requires 0 <= i < |items| => SearchCard(items[i], Summary(RESPONSE_ARRAY_AS_PRODUCT)))
  }

  /** The search transform, each card summarising its own item. */
  function SearchCards(items: seq<ApiProduct>): (r: seq<Card>)
    ensures |r| == |items|
    ensures forall i :: 0 <= i < |r| ==> r[i] == SearchCard(items[i], Summary(items[i]))
  {
    seq(|items|, i requires 0 <= i < |items| => SearchCard(items[i], Summary(items[i])))
  }

  /** As written, every search card carries the same fallback text, whatever its item holds. */
  lemma SearchCardsIgnoreItems(items: seq<ApiProduct>, i: int)
    requires 0 <= i < |items|
    ensures SearchCardsAsWritten(items)[i].specifications == ARRAY_SUMMARY
  {
    assert Summary(RESPONSE_ARRAY_AS_PRODUCT) == FallbackSummary(RESPONSE_ARRAY_AS_PRODUCT);
  }

  /** A window whose specifications the search card does not show as written. */
  lemma SearchSummaryLost()
    ensures var item := ApiProduct("w1", Some("Awning"), None, None, None, None, None,
                                   Some(ModelDetails(Some(WindowSpecs(Some("Awning"), Some("uPVC"), Some("600"), Some("900"))), None, None)));
            SearchCardsAsWritten([item])[0].specifications != SearchCards([item])[0].specifications
  {
    var item := ApiProduct("w1", Some("Awning"), None, None, None, None, None,
                           Some(ModelDetails(Some(WindowSpecs(Some("Awning"), Some("uPVC"), Some("600"), Some("900"))), None, None)));
    var s := SearchCards([item])[0].specifications;
    assert s[0] == 'A';
  }

  /** With each item summarised, a search card says what the suggested card for the same product says. */
  lemma SearchCardsDescribeEachItem(items: seq<ApiProduct>, i: int)
    requires 0 <= i < |items|
    ensures SearchCards(items)[i].specifications == SuggestedCard(items[i]).specifications
    ensures SearchCards(items)[i].name == SuggestedCard(items[i]).name
  {
  }

  /** What View Details puts in the router state. */
  datatype DetailTarget = OriginalProduct(product: ApiProduct) | CardItself(card: Card)

  /** `handleViewDetails(product)`: the detail route and `originalData || product`. */
  function ViewDetails(c: Card): (r: (string, DetailTarget))
    ensures r.0 == "/product-detail/" + c.id
    ensures c.originalData.Some? ==> r.1 == OriginalProduct(c.originalData.value)
    ensures c.originalData.None? ==> r.1 == CardItself(c)
  {
    ("/product-detail/" + c.id, if c.originalData.Some? then OriginalProduct(c.originalData.value) else CardItself(c))
  }

  /** The error text of a failed product-list load. */
  function LoadErrorText(message: string): (r: string)
    ensures r == SESSION_EXPIRED <==> Contains(message, "TOKEN_EXPIRED")
    ensures r != SESSION_EXPIRED ==> r == LOAD_FAILED
  {
    if Contains(message, "TOKEN_EXPIRED") then SESSION_EXPIRED else LOAD_FAILED
  }

  /** A fetched product list: `code`, `data.products` when present, and `message`. */
  datatype ProductsResponse = Fetched(code: int, products: Option<seq<ApiProduct>>, message: Option<string>) | FetchThrew(reason: string)

  /**
   * The home search's re-read as written: the URL query is the one captured
   * when the handler was rendered, and a hit also turns `isSearching` back
   * on, which leaves the search button disabled.
   */
  function ReReadAsWritten(cache: map<string, ProductCache.SearchEntry<seq<Card>>>, renderedUrl: Option<string>,
                           produced: seq<Card>, now: nat): (r: (seq<Card>, bool))
    ensures r.0 == ShownAfterReRead(cache, renderedUrl, "products", produced, now)
    ensures r.1 <==> ProductCache.SearchLookup(cache, ProductCache.SearchKey(UrlKeyText(renderedUrl), "products"), now).Some?
  {
    match ProductCache.SearchLookup(cache, ProductCache.SearchKey(UrlKeyText(renderedUrl), "products"), now)
    case Some(cached) => (cached, true)
    case None => (produced, false)
  }

  /**
   * A home search made while the URL still names an earlier search cached
   * less than five minutes ago shows the earlier results and leaves the
   * search button disabled.
   */
  lemma StaleHomeSearchLocksButton(cache: map<string, ProductCache.SearchEntry<seq<Card>>>, previous: string,
                                   query: string, fetched: seq<Card>, now: nat)
    requires previous != query
    requires ProductCache.SearchLookup(cache, ProductCache.SearchKey(previous, "products"), now).Some?
    ensures var r := ReReadAsWritten(Stored(cache, query, "products", fetched, now), Some(previous), fetched, now);
            r.0 == ProductCache.SearchLookup(cache, ProductCache.SearchKey(previous, "products"), now).value && r.1
  {
    ProductCache.SearchKeyInjective(previous, "products", query, "products");
  }

  /** The search box and the lists it shows. */
  class ProductAreaState {
    /** The shared product cache service. */
    const cache: ProductCache.ProductCacheService<seq<Card>>
    /** The `searchQuery` parameter of the current URL. */
    var urlQuery: Option<string>
    var suggestedProducts: seq<Card>
    var searchQuery: string
    var searchResults: seq<Card>
    var error: Option<string>
    var loading: bool
    var isSearching: bool

    /** The first render: both lists start from the search cached for the URL's query, if any. */
    constructor (cache: ProductCache.ProductCacheService<seq<Card>>, urlQuery: Option<string>, now: nat)
      ensures this.cache == cache && this.urlQuery == urlQuery
      ensures var initial := ProductCache.SearchLookup(cache.searchResultsCache, ProductCache.SearchKey(urlQuery.GetOr(""), "products"), now);
              suggestedProducts == initial.GetOr([]) && searchResults == initial.GetOr([])
      ensures searchQuery == "" && error.None? && loading && !isSearching
    {
      var initial := cache.GetCachedSearchResults(urlQuery.GetOr(""), "products", now);
      this.cache := cache;
      this.urlQuery := urlQuery;
      suggestedProducts := initial.GetOr([]);
      searchResults := initial.GetOr([]);
      searchQuery, error, loading, isSearching := "", None, true, false;
    }

    /**
     * The mount effect, with the products read back from the products cache
     * and the request's outcome as inputs: cached cards win; a good response
     * is transformed; anything else leaves no suggestions and an error.
     */
    method LoadSuggestedProducts(cached: Option<seq<Card>>, response: ProductsResponse)
      modifies this`suggestedProducts, this`error, this`loading
      ensures !loading
      ensures cached.Some? ==> suggestedProducts == cached.value && error.None?
      ensures cached.None? && response.Fetched? && response.code == 200 && response.products.Some? ==>
                error.None? &&
                suggestedProducts == seq(|response.products.value|, i requires 0 <= i < |response.products.value| => SuggestedCard(response.products.value[i]))
      ensures cached.None? && response.Fetched? && !(response.code == 200 && response.products.Some?) ==>
                suggestedProducts == [] &&
                error == Some(LoadErrorText("API returned error: " + Or(response.message, "Unknown error")))
      ensures cached.None? && response.FetchThrew? ==>
                suggestedProducts == [] && error == Some(LoadErrorText(response.reason))
    {
      loading, error := true, None;
      if cached.Some? {
        suggestedProducts := cached.value;
        loading := false;
        return;
      }
      match response {
        case Fetched(code, products, message) =>
          if code == 200 && products.Some? {
            suggestedProducts := seq(|products.value|, i requires 0 <= i < |products.value| => SuggestedCard(products.value[i]));
          } else {
            error := Some(LoadErrorText("API returned error: " + Or(message, "Unknown error")));
            suggestedProducts := [];
          }
        case FetchThrew(message) =>
          error := Some(LoadErrorText(message));
          suggestedProducts := [];
      }
      loading := false;
    }

    /**
     * `handleSearch(query)`: a blank query empties the results without a
     * request; a good response shows one card per item, moves the URL to the
     * trimmed query and caches the cards for five minutes under it; anything
     * else empties the results and sets the error, though results cached for
     * the URL's query still come back at the end.
     */
    method HandleSearch(query: string, response: SearchResponse<ApiProduct>, now: nat)
      modifies this`searchResults, this`error, this`urlQuery, this`isSearching, cache`searchResultsCache
      ensures IsBlank(query) ==>
                searchResults == [] && error == old(error) && urlQuery == old(urlQuery) &&
                isSearching == old(isSearching) && cache.searchResultsCache == old(cache.searchResultsCache)
      ensures !IsBlank(query) ==> !isSearching
      ensures !IsBlank(query) && response.Responded? && response.code == 200 && response.data.Some? ==>
                searchResults == SearchCards(response.data.value) && error.None? &&
                urlQuery == Some(Trim(query)) &&
                cache.searchResultsCache == Stored(old(cache.searchResultsCache), Trim(query), "products", SearchCards(response.data.value), now)
      ensures !IsBlank(query) && !(response.Responded? && response.code == 200 && response.data.Some?) ==>
                urlQuery == old(urlQuery) && cache.searchResultsCache == old(cache.searchResultsCache) &&
                searchResults == ShownAfterReRead(cache.searchResultsCache, urlQuery, "products", [], now) &&
                error == Some(if response.Threw? then SearchErrorText(response.message) else NOT_FOUND)
    {
      BlankIffTrimEmpty(query);
      if Trim(query) == [] {
        searchResults := [];
      } else {
        SearchFor(Trim(query), response, now);
      }
    }

    /** The non-blank branch of `handleSearch`, for the trimmed query. */
    method SearchFor(trimmed: string, response: SearchResponse<ApiProduct>, now: nat)
      modifies this`searchResults, this`error, this`urlQuery, this`isSearching, cache`searchResultsCache
      ensures !isSearching
      ensures response.Responded? && response.code == 200 && response.data.Some? ==>
                searchResults == SearchCards(response.data.value) && error.None? && urlQuery == Some(trimmed) &&
                cache.searchResultsCache == Stored(old(cache.searchResultsCache), trimmed, "products", SearchCards(response.data.value), now)
      ensures !(response.Responded? && response.code == 200 && response.data.Some?) ==>
                urlQuery == old(urlQuery) && cache.searchResultsCache == old(cache.searchResultsCache) &&
                searchResults == ShownAfterReRead(cache.searchResultsCache, urlQuery, "products", [], now) &&
                error == Some(if response.Threw? then SearchErrorText(response.message) else NOT_FOUND)
    {
      isSearching, error := true, None;
      var produced: seq<Card> := [];
      match response {
        case Responded(code, data) =>
          if code == 200 && data.Some? {
            produced := SearchCards(data.value);
            urlQuery := Some(trimmed);
            cache.SetCachedSearchResults(trimmed, "products", produced, now);
            assert ShownAfterSearch(old(cache.searchResultsCache), trimmed, "products", produced, now) == produced;
          } else {
            error := Some(NOT_FOUND);
          }
        case Threw(message) =>
          error := Some(SearchErrorText(message));
      }
      isSearching := false;
      ShowReRead(produced, now);
    }

    /**
     * The handler's last step: the results cached for the URL's query, if
     * live, else `produced`. The URL is the one the handler has just moved
     * to, and a hit leaves the searching flag off (`ReReadAsWritten` is the
     * step as written).
     */
    method ShowReRead(produced: seq<Card>, now: nat)
      modifies this`searchResults
      ensures searchResults == ShownAfterReRead(cache.searchResultsCache, urlQuery, "products", produced, now)
    {
      var cached := cache.GetCachedSearchResults(UrlKeyText(urlQuery), "products", now);
      searchResults := if cached.Some? then cached.value else produced;
    }

    /** `handleSearchInputChange`: a cleared input also clears the results and the error. */
    method HandleSearchInputChange(query: string)
      modifies this`searchQuery, this`searchResults, this`error
      ensures searchQuery == query
      ensures IsBlank(query) ==> searchResults == [] && error.None?
      ensures !IsBlank(query) ==> searchResults == old(searchResults) && error == old(error)
    {
      searchQuery := query;
      BlankIffTrimEmpty(query);
      if Trim(query) == [] {
        searchResults, error := [], None;
      }
    }

    /** `handleSearchSubmit`: searches for the box's text unless it is blank. */
    method HandleSearchSubmit(response: SearchResponse<ApiProduct>, now: nat)
      modifies this`searchResults, this`error, this`urlQuery, this`isSearching, cache`searchResultsCache
      ensures IsBlank(searchQuery) ==>
                searchResults == old(searchResults) && error == old(error) && urlQuery == old(urlQuery) &&
                cache.searchResultsCache == old(cache.searchResultsCache)
      ensures IsBlank(searchQuery) ==> isSearching == old(isSearching)
      ensures !IsBlank(searchQuery) ==> !isSearching
      ensures !IsBlank(searchQuery) && response.Responded? && response.code == 200 && response.data.Some? ==>
                searchResults == SearchCards(response.data.value) && error.None? && urlQuery == Some(Trim(searchQuery)) &&
                cache.searchResultsCache == Stored(old(cache.searchResultsCache), Trim(searchQuery), "products", SearchCards(response.data.value), now)
      ensures !IsBlank(searchQuery) && !(response.Responded? && response.code == 200 && response.data.Some?) ==>
                urlQuery == old(urlQuery) && cache.searchResultsCache == old(cache.searchResultsCache) &&
                searchResults == ShownAfterReRead(cache.searchResultsCache, urlQuery, "products", [], now) &&
                error == Some(if response.Threw? then SearchErrorText(response.message) else NOT_FOUND)
    {
      BlankIffTrimEmpty(searchQuery);
      if Trim(searchQuery) != [] {
        HandleSearch(searchQuery, response, now);
      }
    }
  }
}
