// The doors page: the category filter and its counts, the paged product
// list, and the search box.
module DoorsArea {
  import opened Wrappers
  import opened Strings
  import opened Catalog
  import ProductCache

  const FILTERS := ["all", "interior-doors", "exterior-doors", "patio-doors"]

  /** The type the API is asked for: `all` means every door. */
  function ApiType(filter: string): (t: string)
    ensures filter == "all" ==> t == "doors"
    ensures filter != "all" ==> t == filter
  {
    if filter == "all" then "doors" else filter
  }

  /** A request for a page of doors. */
  datatype Request =
    | Homepage(limit: int)                          // the cached home-page list
    | ByType(apiType: string, page: int, limit: int)

  /** The request the initial load makes for a page and a filter. */
  function LoadRequest(page: int, filter: string): Request {
    var apiType := ApiType(filter);
    if page == 1 && apiType == "doors" then Homepage(ITEMS_PER_PAGE) else ByType(apiType, page, ITEMS_PER_PAGE)
  }

  /** Only page 1 of all doors goes through the home-page cache; every other load names its type and page. */
  lemma HomepageOnlyForFirstPage(page: int, filter: string)
    ensures LoadRequest(page, filter).Homepage? <==> page == 1 && (filter == "all" || filter == "doors")
    ensures !LoadRequest(page, filter).Homepage? ==>
              LoadRequest(page, filter) == ByType(ApiType(filter), page, ITEMS_PER_PAGE)
  {
  }

  /** The count shown on each category button. */
  datatype DoorCounts = DoorCounts(all: int, interior: int, exterior: int, patio: int)

  const ZERO_COUNTS := DoorCounts(0, 0, 0, 0)

  /** The counts fetch: `code`, `data.counts` when present, or a thrown error. */
  datatype CountsResponse = Counted(code: int, counts: Option<map<string, int>>) | CountsThrew

  /** `apiCounts[key] || 0` */
  function CountOf(counts: map<string, int>, key: string): (n: int)
    ensures key in counts ==> n == counts[key]
    ensures key !in counts ==> n == 0
  {
    if key in counts then counts[key] else 0
  }

  /**
   * `loadAllDoorCounts`: `all` is the API's `doors` count, each category its
   * own, a missing one 0; a failed fetch shows 0 everywhere.
   */
  function CountsAfter(response: CountsResponse): (c: DoorCounts)
    ensures !(response.Counted? && response.code == 200 && response.counts.Some?) ==> c == ZERO_COUNTS
    ensures response.Counted? && response.code == 200 && response.counts.Some? ==>
              var m := response.counts.value;
              c.all == CountOf(m, "doors") && c.interior == CountOf(m, "interior-doors") &&
              c.exterior == CountOf(m, "exterior-doors") && c.patio == CountOf(m, "patio-doors")
  {
    match response
    case Counted(code, counts) =>
      if code == 200 && counts.Some? then
        var m := counts.value;
        DoorCounts(CountOf(m, "doors"), CountOf(m, "interior-doors"), CountOf(m, "exterior-doors"), CountOf(m, "patio-doors"))
      else ZERO_COUNTS
    case CountsThrew => ZERO_COUNTS
  }

  /** Counts the API does not report are 0, never stale: `doors` is the only source of `all`. */
  lemma MissingCountsAreZero(m: map<string, int>)
    requires "doors" !in m
    ensures CountsAfter(Counted(200, Some(m))).all == 0
    ensures CountsAfter(Counted(200, Some(m[("interior-doors") := 7]))).interior == 7
  {
  }

  /**
   * A response's `data`: a page fetch answers with an object holding a
   * `products` list, a search with the result array itself.
   */
  datatype ResponseData = ListData(products: seq<CatalogItem>) | ArrayData(items: seq<CatalogItem>)

  /** `data.products`: an array has no such property, so it reads `undefined`. */
  function ProductsProperty(data: ResponseData): (r: Option<seq<CatalogItem>>)
    ensures data.ListData? ==> r == Some(data.products)
    ensures data.ArrayData? ==> r.None?
  {
    if data.ListData? then Some(data.products) else None
  }

  /** The page's list after a successful search, as written: `setProducts(response.data.products)`. */
  function ProductsAfterSearchAsWritten(found: seq<CatalogItem>): Option<seq<CatalogItem>> {
    ProductsProperty(ArrayData(found))
  }

  /**
   * As written, a successful search leaves the page's list `undefined`;
   * clearing the box then hands `undefined` to the list, whose `.length`
   * cannot be read.
   */
  lemma ClearAfterSearchAsWritten(found: seq<CatalogItem>)
    ensures ProductsAfterSearchAsWritten(found).None?
  {
  }

  /** A search that answered 200 with a non-empty array: the only one whose results are shown. */
  predicate Found(response: SearchResponse<CatalogItem>) {
    response.Responded? && response.code == 200 && response.data.Some? && |response.data.value| > 0
  }

  /** The doors page's state. */
  class DoorsPanel {
    /** The shared product cache service. */
    const cache: ProductCache.ProductCacheService<seq<CatalogItem>>
    /** The `searchQuery` parameter of the current URL. */
    var urlQuery: Option<string>
    /** The search cached for the URL's query on the first render. */
    const initialCached: Option<seq<CatalogItem>>
    var searchTerm: string
    var products: seq<CatalogItem>
    var filteredProducts: seq<CatalogItem>
    var loading: bool
    var error: Option<string>
    var activeFilter: string
    var isSearchResult: bool
    var pager: Pager
    var doorCounts: DoorCounts
    /** Every page request made, in order. */
    var requests: seq<Request>

    /** The first render: both lists start from the search cached for the URL's query, if any. */
    constructor (cache: ProductCache.ProductCacheService<seq<CatalogItem>>, urlQuery: Option<string>, now: nat)
      ensures this.cache == cache && this.urlQuery == urlQuery
      ensures initialCached == ProductCache.SearchLookup(cache.searchResultsCache, ProductCache.SearchKey(urlQuery.GetOr(""), "doors"), now)
      ensures products == initialCached.GetOr([]) && filteredProducts == initialCached.GetOr([])
      ensures searchTerm == "" && loading && error.None? && activeFilter == "all" && !isSearchResult
      ensures pager == INITIAL_PAGER && doorCounts == ZERO_COUNTS && requests == []
    {
      var initial := cache.GetCachedSearchResults(urlQuery.GetOr(""), "doors", now);
      this.cache := cache;
      this.urlQuery := urlQuery;
      initialCached := initial;
      products, filteredProducts := initial.GetOr([]), initial.GetOr([]);
      searchTerm, loading, error, activeFilter, isSearchResult := "", true, None, "all", false;
      pager, doorCounts, requests := INITIAL_PAGER, ZERO_COUNTS, [];
    }

    /**
     * The mount effect: with no cached search, load page 1 of all doors
     * through the home-page cache and the counts; with one, show it as
     * search results.
     */
    method Mount(page: ListResponse, counts: CountsResponse)
      modifies this`products, this`filteredProducts, this`loading, this`error, this`isSearchResult,
               this`pager, this`doorCounts, this`requests
      ensures !loading
      ensures initialCached.Some? ==>
                isSearchResult && products == old(products) && filteredProducts == old(filteredProducts) &&
                requests == old(requests) && doorCounts == old(doorCounts) && error == old(error) && pager == old(pager)
      ensures initialCached.None? ==>
                requests == old(requests) + [Homepage(ITEMS_PER_PAGE)] && doorCounts == CountsAfter(counts)
      ensures initialCached.None? && ListOk(page) ==>
                products == page.products.value && filteredProducts == page.products.value &&
                !isSearchResult && error.None? && pager == PagerAfter(old(pager), page.info)
      ensures initialCached.None? && !ListOk(page) ==>
                products == [] && filteredProducts == [] && error == Some(ListError(page)) &&
                isSearchResult == old(isSearchResult) && pager == old(pager)
    {
      if initialCached.None? {
        LoadDoors(1, "all", page);
        doorCounts := CountsAfter(counts);
      } else {
        loading := false;
        isSearchResult := true;
      }
    }

    /** `loadDoors(page, filterType)`: a failed load empties both lists. */
    method LoadDoors(page: int, filter: string, response: ListResponse)
      modifies this`products, this`filteredProducts, this`loading, this`error, this`isSearchResult,
               this`pager, this`requests
      ensures !loading && requests == old(requests) + [LoadRequest(page, filter)]
      ensures ListOk(response) ==>
                products == response.products.value && filteredProducts == response.products.value &&
                !isSearchResult && error.None? && pager == PagerAfter(old(pager), response.info)
      ensures !ListOk(response) ==>
                products == [] && filteredProducts == [] && error == Some(ListError(response)) &&
                isSearchResult == old(isSearchResult) && pager == old(pager)
    {
      loading, error := true, None;
      requests := requests + [LoadRequest(page, filter)];
      if ListOk(response) {
        products, filteredProducts := response.products.value, response.products.value;
        isSearchResult := false;
        pager := PagerAfter(pager, response.info);
      } else {
        error := Some(ListError(response));
        products, filteredProducts := [], [];
      }
      loading := false;
    }

    /** `handleFilterChange(filterType)`: page 1 of that type; a failure keeps the lists and shows the error. */
    method HandleFilterChange(filter: string, response: ListResponse)
      modifies this`activeFilter, this`products, this`filteredProducts, this`loading, this`error,
               this`isSearchResult, this`pager, this`requests
      ensures activeFilter == filter && !loading && !isSearchResult
      ensures requests == old(requests) + [ByType(ApiType(filter), 1, ITEMS_PER_PAGE)]
      ensures ListOk(response) ==>
                products == response.products.value && filteredProducts == response.products.value &&
                error.None? && pager == PagerAfter(old(pager), response.info)
      ensures !ListOk(response) ==>
                products == old(products) && filteredProducts == old(filteredProducts) &&
                error == Some(ListError(response)) && pager == old(pager)
    {
      activeFilter := filter;
      loading, error, isSearchResult := true, None, false;
      requests := requests + [ByType(ApiType(filter), 1, ITEMS_PER_PAGE)];
      if ListOk(response) {
        products, filteredProducts := response.products.value, response.products.value;
        pager := PagerAfter(pager, response.info);
      } else {
        error := Some(ListError(response));
      }
      loading := false;
    }

    /** `handlePageChange(newPage)`: that page of the active filter's type. */
    method HandlePageChange(newPage: int, response: ListResponse)
      modifies this`products, this`filteredProducts, this`loading, this`error, this`pager, this`requests
      ensures !loading
      ensures requests == old(requests) + [ByType(ApiType(activeFilter), newPage, ITEMS_PER_PAGE)]
      ensures ListOk(response) ==>
                products == response.products.value && filteredProducts == response.products.value &&
                error.None? && pager == PagerAfter(old(pager), response.info)
      ensures !ListOk(response) ==>
                products == old(products) && filteredProducts == old(filteredProducts) &&
                error == Some(ListError(response)) && pager == old(pager)
    {
      loading, error := true, None;
      requests := requests + [ByType(ApiType(activeFilter), newPage, ITEMS_PER_PAGE)];
      if ListOk(response) {
        products, filteredProducts := response.products.value, response.products.value;
        pager := PagerAfter(pager, response.info);
      } else {
        error := Some(ListError(response));
      }
      loading := false;
    }

    /**
     * `handleSearch(query)`. A blank query reloads the active filter and
     * then sets the search-result flag to `[]`, which is truthy. Otherwise a
     * non-empty result array is shown, cached for five minutes under the
     * trimmed query, and the URL moves to it; anything else shows nothing
     * and an error. Either way the list then counts as search results, and
     * results cached for the URL's query come back at the end. The page's
     * own list is kept.
     */
    method HandleSearch(query: string, response: SearchResponse<CatalogItem>, reload: ListResponse, now: nat)
      modifies this`activeFilter, this`products, this`filteredProducts, this`loading, this`error,
               this`isSearchResult, this`pager, this`requests, this`urlQuery, cache`searchResultsCache
      ensures isSearchResult
      ensures IsBlank(query) ==>
                requests == old(requests) + [ByType(ApiType(old(activeFilter)), 1, ITEMS_PER_PAGE)] &&
                urlQuery == old(urlQuery) && cache.searchResultsCache == old(cache.searchResultsCache) &&
                (ListOk(reload) ==> products == reload.products.value && filteredProducts == reload.products.value) &&
                (!ListOk(reload) ==> products == old(products) && filteredProducts == old(filteredProducts))
      ensures !IsBlank(query) ==> products == old(products) && requests == old(requests) && pager == old(pager)
      ensures !IsBlank(query) && Found(response) ==>
                filteredProducts == response.data.value && error.None? && urlQuery == Some(Trim(query)) &&
                cache.searchResultsCache == Stored(old(cache.searchResultsCache), Trim(query), "doors", response.data.value, now)
      ensures !IsBlank(query) && !Found(response) ==>
                urlQuery == old(urlQuery) && cache.searchResultsCache == old(cache.searchResultsCache) &&
                filteredProducts == ShownAfterReRead(cache.searchResultsCache, urlQuery, "doors", [], now) &&
                error == Some(if response.Threw? then SearchErrorText(response.message) else NOT_FOUND)
    {
      if IsBlank(query) {
        ReloadForBlankSearch(reload);
      } else {
        var trimmed := Trim(query);
        SearchFor(trimmed, response, now);
      }
    }

    /** The blank branch of `handleSearch`: the active filter again, then the flag set to the truthy `[]`. */
    method ReloadForBlankSearch(reload: ListResponse)
      modifies this`activeFilter, this`products, this`filteredProducts, this`loading, this`error,
               this`isSearchResult, this`pager, this`requests
      ensures isSearchResult && activeFilter == old(activeFilter)
      ensures requests == old(requests) + [ByType(ApiType(old(activeFilter)), 1, ITEMS_PER_PAGE)]
      ensures ListOk(reload) ==> products == reload.products.value && filteredProducts == reload.products.value
      ensures !ListOk(reload) ==> products == old(products) && filteredProducts == old(filteredProducts)
    {
      HandleFilterChange(activeFilter, reload);
      isSearchResult := true;
    }

    /** The non-blank branch of `handleSearch`, for the trimmed query. */
    method SearchFor(trimmed: string, response: SearchResponse<CatalogItem>, now: nat)
      modifies this`filteredProducts, this`error, this`isSearchResult, this`urlQuery, cache`searchResultsCache
      ensures isSearchResult
      ensures Found(response) ==>
                filteredProducts == response.data.value && error.None? && urlQuery == Some(trimmed) &&
                cache.searchResultsCache == Stored(old(cache.searchResultsCache), trimmed, "doors", response.data.value, now)
      ensures !Found(response) ==>
                urlQuery == old(urlQuery) && cache.searchResultsCache == old(cache.searchResultsCache) &&
                filteredProducts == ShownAfterReRead(cache.searchResultsCache, urlQuery, "doors", [], now) &&
                error == Some(if response.Threw? then SearchErrorText(response.message) else NOT_FOUND)
    {
      error := None;
      var produced: seq<CatalogItem> := [];
      match response {
        case Responded(code, data) =>
          if code == 200 && data.Some? && |data.value| > 0 {
            produced := data.value;
            urlQuery := Some(trimmed);
            cache.SetCachedSearchResults(trimmed, "doors", produced, now);
            assert ShownAfterSearch(old(cache.searchResultsCache), trimmed, "doors", produced, now) == produced;
          } else {
            error := Some(NOT_FOUND);
          }
        case Threw(message) =>
          error := Some(SearchErrorText(message));
      }
      isSearchResult := true;
      ShowReRead(produced, now);
    }

    /**
     * The handler's last step: the results cached for the URL's query, if
     * live, else `produced`. The URL is the one the handler has just moved
     * to (`Catalog.ShownAfterSearchAsWritten` is the step as written).
     */
    method ShowReRead(produced: seq<CatalogItem>, now: nat)
      modifies this`filteredProducts
      ensures filteredProducts == ShownAfterReRead(cache.searchResultsCache, urlQuery, "doors", produced, now)
    {
      var cached := cache.GetCachedSearchResults(UrlKeyText(urlQuery), "doors", now);
      filteredProducts := if cached.Some? then cached.value else produced;
    }

    /** `handleSearchInputChange`: a cleared box shows the page's list again, with no error. */
    method HandleSearchInputChange(query: string)
      modifies this`searchTerm, this`filteredProducts, this`error, this`isSearchResult
      ensures searchTerm == query
      ensures IsBlank(query) ==> filteredProducts == products && error.None? && !isSearchResult
      ensures !IsBlank(query) ==>
                filteredProducts == old(filteredProducts) && error == old(error) && isSearchResult == old(isSearchResult)
    {
      searchTerm := query;
      if Trim(query) == [] {
        filteredProducts, error, isSearchResult := products, None, false;
      }
    }
  }
}
