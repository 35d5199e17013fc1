// The windows page: the paged list of windows and the search box.
module WindowsArea {
  import opened Wrappers
  import opened Strings
  import opened Catalog
  import ProductCache

  /** The windows page's state. */
  class WindowsPanel {
    /** The shared product cache service. */
    const cache: ProductCache.ProductCacheService<seq<CatalogItem>>
    /** The `searchQuery` parameter of the current URL. */
    var urlQuery: Option<string>
    /** The search cached for the URL's query on the first render. */
    const initialCached: Option<seq<CatalogItem>>
    var searchTerm: string
    var products: seq<CatalogItem>
    var filteredProducts: seq<CatalogItem>
    var loading: bool
    var error: Option<string>
    var isSearchResult: bool
    var pager: Pager
    /** Every page of windows requested, in order. */
    var requestedPages: seq<int>

    /** The first render: both lists start from the search cached for the URL's query, if any. */
    constructor (cache: ProductCache.ProductCacheService<seq<CatalogItem>>, urlQuery: Option<string>, now: nat)
      ensures this.cache == cache && this.urlQuery == urlQuery
      ensures initialCached == ProductCache.SearchLookup(cache.searchResultsCache, ProductCache.SearchKey(urlQuery.GetOr(""), "windows"), now)
      ensures products == initialCached.GetOr([]) && filteredProducts == initialCached.GetOr([])
      ensures searchTerm == "" && loading && error.None? && !isSearchResult
      ensures pager == INITIAL_PAGER && requestedPages == []
    {
      var initial := cache.GetCachedSearchResults(urlQuery.GetOr(""), "windows", now);
      this.cache := cache;
      this.urlQuery := urlQuery;
      initialCached := initial;
      products, filteredProducts := initial.GetOr([]), initial.GetOr([]);
      searchTerm, loading, error, isSearchResult := "", true, None, false;
      pager, requestedPages := INITIAL_PAGER, [];
    }

    /** The mount effect: page 1 from the API unless a cached search is shown, without any request. */
    method Mount(response: ListResponse)
      modifies this`products, this`filteredProducts, this`loading, this`error, this`isSearchResult,
               this`pager, this`requestedPages
      ensures !loading
      ensures initialCached.Some? ==>
                isSearchResult && requestedPages == old(requestedPages) && products == old(products) &&
                filteredProducts == old(filteredProducts) && error == old(error) && pager == old(pager)
      ensures initialCached.None? ==> requestedPages == old(requestedPages) + [1]
      ensures initialCached.None? && ListOk(response) ==>
                products == response.products.value && filteredProducts == response.products.value &&
                !isSearchResult && error.None? && pager == PagerAfter(old(pager), response.info)
      ensures initialCached.None? && !ListOk(response) ==>
                products == [] && filteredProducts == [] && error == Some(ListError(response)) && pager == old(pager)
    {
      if initialCached.None? {
        LoadWindows(1, response);
      } else {
        loading := false;
        isSearchResult := true;
      }
    }

    /** `loadWindows(page)`: a failed load empties both lists. */
    method LoadWindows(page: int, response: ListResponse)
      modifies this`products, this`filteredProducts, this`loading, this`error, this`isSearchResult,
               this`pager, this`requestedPages
      ensures !loading && requestedPages == old(requestedPages) + [page]
      ensures ListOk(response) ==>
                products == response.products.value && filteredProducts == response.products.value &&
                !isSearchResult && error.None? && pager == PagerAfter(old(pager), response.info)
      ensures !ListOk(response) ==>
                products == [] && filteredProducts == [] && error == Some(ListError(response)) &&
                isSearchResult == old(isSearchResult) && pager == old(pager)
    {
      loading, error := true, None;
      requestedPages := requestedPages + [page];
      if ListOk(response) {
        products, filteredProducts := response.products.value, response.products.value;
        isSearchResult := false;
        pager := PagerAfter(pager, response.info);
      } else {
        error := Some(ListError(response));
        products, filteredProducts := [], [];
      }
      loading := false;
    }

    /** `handlePageChange(newPage)`: a failure keeps the lists and shows the error. */
    method HandlePageChange(newPage: int, response: ListResponse)
      modifies this`products, this`filteredProducts, this`loading, this`error, this`pager, this`requestedPages
      ensures !loading && requestedPages == old(requestedPages) + [newPage]
      ensures ListOk(response) ==>
                products == response.products.value && filteredProducts == response.products.value &&
                error.None? && pager == PagerAfter(old(pager), response.info)
      ensures !ListOk(response) ==>
                products == old(products) && filteredProducts == old(filteredProducts) &&
                error == Some(ListError(response)) && pager == old(pager)
    {
      loading, error := true, None;
      requestedPages := requestedPages + [newPage];
      if ListOk(response) {
        products, filteredProducts := response.products.value, response.products.value;
        pager := PagerAfter(pager, response.info);
      } else {
        error := Some(ListError(response));
      }
      loading := false;
    }

    /**
     * `handleSearch(query)`: a blank query shows the page's list again;
     * otherwise see `SearchFor`.
     */
    method HandleSearch(query: string, response: SearchResponse<CatalogItem>, now: nat)
      modifies this`filteredProducts, this`error, this`isSearchResult, this`urlQuery, cache`searchResultsCache
      ensures IsBlank(query) ==>
                filteredProducts == products && !isSearchResult && error == old(error) &&
                urlQuery == old(urlQuery) && cache.searchResultsCache == old(cache.searchResultsCache)
      ensures !IsBlank(query) ==> isSearchResult
      ensures !IsBlank(query) && response.Responded? && response.code == 200 && response.data.Some? ==>
                filteredProducts == response.data.value && error.None? && urlQuery == Some(query) &&
                cache.searchResultsCache == Stored(old(cache.searchResultsCache), query, "windows", response.data.value, now)
      ensures !IsBlank(query) && !(response.Responded? && response.code == 200 && response.data.Some?) ==>
                urlQuery == old(urlQuery) && cache.searchResultsCache == old(cache.searchResultsCache) &&
                filteredProducts == ShownAfterReRead(cache.searchResultsCache, urlQuery, "windows", [], now) &&
                error == Some(if response.Threw? then SearchErrorText(response.message) else NOT_FOUND)
    {
      if IsBlank(query) {
        ShowPageList();
      } else {
        SearchFor(query, response, now);
      }
    }

    /** The blank branch of `handleSearch`: the page's own list, no longer as search results. */
    method ShowPageList()
      modifies this`filteredProducts, this`isSearchResult
      ensures filteredProducts == products && !isSearchResult
    {
      filteredProducts, isSearchResult := products, false;
    }

    /**
     * The non-blank branch of `handleSearch`. The request uses the trimmed
     * query, but the URL and the cache key use it as typed. A good response,
     * even an empty array, is shown and cached; the expiry the page passes
     * along is ignored by the service, so the entry lives its own five
     * minutes. Anything else shows nothing and an error; either way the
     * list counts as search results, and results cached for the URL's query
     * come back at the end.
     */
    method SearchFor(query: string, response: SearchResponse<CatalogItem>, now: nat)
      modifies this`filteredProducts, this`error, this`isSearchResult, this`urlQuery, cache`searchResultsCache
      ensures isSearchResult
      ensures response.Responded? && response.code == 200 && response.data.Some? ==>
                filteredProducts == response.data.value && error.None? && urlQuery == Some(query) &&
                cache.searchResultsCache == Stored(old(cache.searchResultsCache), query, "windows", response.data.value, now)
      ensures !(response.Responded? && response.code == 200 && response.data.Some?) ==>
                urlQuery == old(urlQuery) && cache.searchResultsCache == old(cache.searchResultsCache) &&
                filteredProducts == ShownAfterReRead(cache.searchResultsCache, urlQuery, "windows", [], now) &&
                error == Some(if response.Threw? then SearchErrorText(response.message) else NOT_FOUND)
    {
      error := None;
      var produced: seq<CatalogItem> := [];
      match response {
        case Responded(code, data) =>
          if code == 200 && data.Some? {
            produced := data.value;
            urlQuery := Some(query);
            cache.SetCachedSearchResults(query, "windows", produced, now);
            assert ShownAfterSearch(old(cache.searchResultsCache), query, "windows", produced, now) == produced;
          } else {
            error := Some(NOT_FOUND);
          }
        case Threw(message) =>
          error := Some(SearchErrorText(message));
      }
      isSearchResult := true;
      ShowReRead(produced, now);
    }

    /**
     * The handler's last step: the results cached for the URL's query, if
     * live, else `produced`. The URL is the one the handler has just moved
     * to (`Catalog.ShownAfterSearchAsWritten` is the step as written).
     */
    method ShowReRead(produced: seq<CatalogItem>, now: nat)
      modifies this`filteredProducts
      ensures filteredProducts == ShownAfterReRead(cache.searchResultsCache, urlQuery, "windows", produced, now)
    {
      var cached := cache.GetCachedSearchResults(UrlKeyText(urlQuery), "windows", now);
      filteredProducts := if cached.Some? then cached.value else produced;
    }

    /** `handleSearchInputChange`: a cleared box shows the page's list again, with no error. */
    method HandleSearchInputChange(query: string)
      modifies this`searchTerm, this`filteredProducts, this`error, this`isSearchResult
      ensures searchTerm == query
      ensures IsBlank(query) ==> filteredProducts == products && error.None? && !isSearchResult
      ensures !IsBlank(query) ==>
                filteredProducts == old(filteredProducts) && error == old(error) && isSearchResult == old(isSearchResult)
    {
      searchTerm := query;
      if IsBlank(query) {
        filteredProducts, error, isSearchResult := products, None, false;
      }
    }

    /** `handleSearchSubmit`: searches for the box's text unless it is blank. */
    method HandleSearchSubmit(response: SearchResponse<CatalogItem>, now: nat)
      modifies this`filteredProducts, this`error, this`isSearchResult, this`urlQuery, cache`searchResultsCache
      ensures IsBlank(searchTerm) ==>
                filteredProducts == old(filteredProducts) && isSearchResult == old(isSearchResult) && error == old(error) &&
                urlQuery == old(urlQuery) && cache.searchResultsCache == old(cache.searchResultsCache)
      ensures !IsBlank(searchTerm) ==> isSearchResult
      ensures !IsBlank(searchTerm) && response.Responded? && response.code == 200 && response.data.Some? ==>
                filteredProducts == response.data.value && error.None? && urlQuery == Some(searchTerm) &&
                cache.searchResultsCache == Stored(old(cache.searchResultsCache), searchTerm, "windows", response.data.value, now)
      ensures !IsBlank(searchTerm) && !(response.Responded? && response.code == 200 && response.data.Some?) ==>
                urlQuery == old(urlQuery) && cache.searchResultsCache == old(cache.searchResultsCache) &&
                filteredProducts == ShownAfterReRead(cache.searchResultsCache, urlQuery, "windows", [], now) &&
                error == Some(if response.Threw? then SearchErrorText(response.message) else NOT_FOUND)
    {
      if !IsBlank(searchTerm) {
        SearchFor(searchTerm, response, now);
      }
    }
  }
}
