// What the doors, windows and home product lists share: the product record
// they render, the type badge and spec tags on each card, the pager under
// the list, the error texts, the detail route and the search handlers'
// final re-read of the search cache.
module Catalog {
  import opened Wrappers
  import opened Strings
  import ProductCache

  const ITEMS_PER_PAGE := 20
  const SESSION_EXPIRED := "Your session has expired. Please log in again."
  const NOT_FOUND := "No products found matching your search."
  const SEARCH_FAILED := "Unable to search products. Please try again."

  /** A JSON object with string values, its entries in insertion order. */
  type Object = seq<(string, string)>

  /** `obj[key]`: the value of the first entry with that key. */
  function Lookup(obj: Object, key: string): (r: Option<string>)
    ensures r.None? <==> forall i :: 0 <= i < |obj| ==> obj[i].0 != key
    ensures r.Some? ==> exists i :: 0 <= i < |obj| && obj[i] == (key, r.value)
  {
    if obj == [] then None
    else if obj[0].0 == key then Some(obj[0].1)
    else
      Lookup(obj[1..], key)
  }

  /** `Object.values(obj)` */
  function Values(obj: Object): (r: seq<string>)
    ensures |r| == |obj| && forall i :: 0 <= i < |obj| ==> r[i] == obj[i].1
  {
    seq(|obj|, i requires 0 <= i < |obj| => obj[i].1)
  }

  /**
   * A product as the catalogue endpoints return it, reduced to the fields
   * the lists read; `doorSpecs` is `Model Details & Options` /
   * `Door Specifications`.
   */
  datatype CatalogItem = CatalogItem(
    id: Option<string>, productName: Option<string>, name: Option<string>,
    image: Option<string>, itemType: Option<string>, productType: Option<string>,
    price: Option<string>, specifications: Option<string>, doorSpecs: Option<Object>)

  /** `s.indexOf(c)`, `None` for -1. */
  function IndexOf(s: string, c: char): (r: Option<nat>)
    ensures r.None? <==> c !in s
    ensures r.Some? ==> r.value < |s| && s[r.value] == c && c !in s[..r.value]
  {
    if s == [] then None
    else if s[0] == c then Some(0)
    else
      var r := IndexOf(s[1..], c);
      if r.None? then None
      else
        assert s[..r.value + 1] == [s[0]] + s[1..][..r.value];
        Some(r.value + 1)
  }

  /** `s.replace(c, d)` with a string pattern: only the first `c` is replaced. */
  function ReplaceFirst(s: string, c: char, d: char): (r: string)
    ensures |r| == |s|
    ensures forall i :: 0 <= i < |s| ==> r[i] == if IndexOf(s, c) == Some(i) then d else s[i]
  {
    var k := IndexOf(s, c);
    if k.None? then s else s[..k.value] + [d] + s[k.value + 1..]
  }

  /**
   * The badge text for a product type: the first hyphen becomes a space,
   * then every space-separated word is capitalised.
   */
  function TypeBadge(t: string): (r: string)
    ensures |r| == |t|
  {
    TitleCase(ReplaceFirst(t, '-', ' '), {' '})
  }

  /**
   * Character by character, the badge is the type with its first hyphen
   * made a space and the first letter of every word upper-cased; later
   * hyphens stay, so `sliding-patio-door` reads `Sliding Patio-door`.
   */
  lemma BadgeAt(t: string, i: int)
    requires 0 <= i < |t|
    ensures var s := ReplaceFirst(t, '-', ' ');
            TypeBadge(t)[i] ==
              if s[i] == ' ' then ' '
              else if i == 0 || s[i - 1] == ' ' then ToUpperChar(s[i])
              else s[i]
    ensures t[i] == '-' ==> (TypeBadge(t)[i] == ' ' <==> IndexOf(t, '-') == Some(i))
  {
    var s := ReplaceFirst(t, '-', ' ');
    assert TypeBadge(t) == SpacedName(s, {' '}, true);
    SpacedNameAt(s, {' '}, true, i);
    assert s[i] == if IndexOf(t, '-') == Some(i) then ' ' else t[i];
    assert ToUpperChar('-') == '-';
  }

  /** The doors badge: the type's badge, or `Door` when the type is missing. */
  function DoorBadge(item: CatalogItem): (r: string)
    ensures Truthy(item.itemType) ==> r == TypeBadge(item.itemType.value)
    ensures !Truthy(item.itemType) ==> r == "Door"
  {
    if Truthy(item.itemType) then TypeBadge(item.itemType.value) else "Door"
  }

  /** The windows badge: the type's badge, else the product type's, else `Window`. */
  function WindowBadge(item: CatalogItem): (r: string)
    ensures Truthy(item.itemType) ==> r == TypeBadge(item.itemType.value)
    ensures !Truthy(item.itemType) && Truthy(item.productType) ==> r == TypeBadge(item.productType.value)
    ensures !Truthy(item.itemType) && !Truthy(item.productType) ==> r == "Window"
  {
    var t := FirstTruthy(item.itemType, item.productType);
    if t.Some? then TypeBadge(t.value) else "Window"
  }

  /** The windows spec tags: the specifications split on `|`, each trimmed; none without specifications. */
  function SpecTags(specs: Option<string>): (r: seq<string>)
    ensures !Truthy(specs) ==> r == []
    ensures Truthy(specs) ==>
              |r| == CountIn(specs.value, {'|'}) + 1 &&
              forall i :: 0 <= i < |r| ==> r[i] == Trim(Split(specs.value, {'|'})[i])
  {
    if Truthy(specs) then
      var pieces := Split(specs.value, {'|'});
      seq(|pieces|, i requires 0 <= i < |pieces| => Trim(pieces[i]))
    else []
  }

  /** No tag holds a bar, and none starts or ends with white space. */
  lemma SpecTagsClean(specs: Option<string>, i: int)
    requires 0 <= i < |SpecTags(specs)|
    ensures '|' !in SpecTags(specs)[i]
    ensures var tag := SpecTags(specs)[i];
            tag == [] || (!IsSpace(tag[0]) && !IsSpace(tag[|tag| - 1]))
  {
    var piece := Split(specs.value, {'|'})[i];
    assert '|' !in piece;
    TrimClean(piece);
  }

  /** When no tag needed trimming, joining the tags with bars gives the specifications back. */
  lemma SpecTagsRoundTrip(specs: string)
    requires specs != []
    requires forall i :: 0 <= i < |Split(specs, {'|'})| ==> Trim(Split(specs, {'|'})[i]) == Split(specs, {'|'})[i]
    ensures Join(SpecTags(Some(specs)), "|") == specs
  {
    var pieces := Split(specs, {'|'});
    TrimmedPiecesUnchanged(pieces);
    assert SpecTags(Some(specs)) == pieces;
    JoinSplit(specs, '|');
  }

  /** Pieces that need no trimming come out of the tag step unchanged. */
  lemma TrimmedPiecesUnchanged(pieces: seq<string>)
    requires forall i :: 0 <= i < |pieces| ==> Trim(pieces[i]) == pieces[i]
    ensures seq(|pieces|, i requires 0 <= i < |pieces| => Trim(pieces[i])) == pieces
  {
  }

  /** `s.split(sep)[0]`: the text before the first occurrence of `sep`. */
  function BeforeFirst(s: string, sep: string): (r: string)
    requires sep != []
    ensures r <= s
    ensures !Contains(s, sep) ==> r == s
    ensures Contains(s, sep) ==> sep <= s[|r|..]
  {
    if sep <= s then []
    else if s == [] then []
    else [s[0]] + BeforeFirst(s[1..], sep)
  }

  /** Text before the first `sep` holds no `sep`. */
  lemma {:induction false} BeforeFirstHasNoSeparator(s: string, sep: string)
    requires sep != []
    ensures !Contains(BeforeFirst(s, sep), sep)
  {
    if !(sep <= s) && s != [] {
      var r := BeforeFirst(s, sep);
      BeforeFirstHasNoSeparator(s[1..], sep);
      assert r[1..] == BeforeFirst(s[1..], sep);
    }
  }

  /**
   * The door quick-spec tags: the material, the style, and the core type
   * up to its first ` or `, each only when present.
   */
  function DoorSpecTags(specs: Object): (r: seq<string>)
    ensures |r| <= 3
    ensures Truthy(Lookup(specs, "Material")) ==> |r| >= 1 && r[0] == Lookup(specs, "Material").value
    ensures !Truthy(Lookup(specs, "Material")) && Truthy(Lookup(specs, "Style")) ==> |r| >= 1 && r[0] == Lookup(specs, "Style").value
    ensures |r| == (if Truthy(Lookup(specs, "Material")) then 1 else 0)
                 + (if Truthy(Lookup(specs, "Style")) then 1 else 0)
                 + (if Truthy(Lookup(specs, "Core Type")) then 1 else 0)
    ensures Truthy(Lookup(specs, "Core Type")) ==> r[|r| - 1] == BeforeFirst(Lookup(specs, "Core Type").value, " or ")
  {
    var material := Lookup(specs, "Material");
    var style := Lookup(specs, "Style");
    var core := Lookup(specs, "Core Type");
    (if Truthy(material) then [material.value] else [])
      + (if Truthy(style) then [style.value] else [])
      + (if Truthy(core) then [BeforeFirst(core.value, " or ")] else [])
  }

  /** The `page`, `totalPages` and `total` a list response reports. */
  datatype PageInfo = PageInfo(page: int, totalPages: int, total: int)

  /** The pager state: current page, page count, item count. */
  datatype Pager = Pager(currentPage: int, totalPages: int, totalItems: int)

  const INITIAL_PAGER := Pager(1, 1, 0)

  /** The pager after a response: what it reports, or unchanged when it reports nothing. */
  function PagerAfter(p: Pager, info: Option<PageInfo>): (r: Pager)
    ensures info.None? ==> r == p
    ensures info.Some? ==> r.currentPage == info.value.page && r.totalPages == info.value.totalPages &&
                           r.totalItems == info.value.total
  {
    if info.Some? then Pager(info.value.page, info.value.totalPages, info.value.total) else p
  }

  /** Previous is disabled on page 1. */
  predicate PrevDisabled(p: Pager) {
    p.currentPage == 1
  }

  /** Next is disabled on the last page. */
  predicate NextDisabled(p: Pager) {
    p.currentPage == p.totalPages
  }

  /** The pager shows only after a good load with more than one page, and never under search results. */
  predicate PagerShown(loading: bool, hasError: bool, p: Pager, isSearchResult: bool) {
    !loading && !hasError && p.totalPages > 1 && !isSearchResult
  }

  /** From a page in range, the pages Previous and Next ask for are in range too. */
  lemma PagerStepsInRange(p: Pager)
    requires 1 <= p.currentPage <= p.totalPages
    ensures !PrevDisabled(p) ==> 1 <= p.currentPage - 1 <= p.totalPages
    ensures !NextDisabled(p) ==> 1 <= p.currentPage + 1 <= p.totalPages
  {
  }

  /** A page fetch: `code`, `data.products` and `data.pagination` when present, and `message`; or the thrown error. */
  datatype ListResponse = Listed(code: int, products: Option<seq<CatalogItem>>, info: Option<PageInfo>, message: Option<string>)
                        | ListThrew(reason: string)

  /** The response carries a product list. */
  predicate ListOk(r: ListResponse) {
    r.Listed? && r.code == 200 && r.products.Some?
  }

  /** The message a failed page fetch leaves: the thrown one, or the API's. */
  function ListError(r: ListResponse): (e: string)
    requires !ListOk(r)
    ensures r.ListThrew? ==> e == r.reason
    ensures r.Listed? ==> e == "API returned error: " + Or(r.message, "Unknown error")
  {
    if r.ListThrew? then r.reason else "API returned error: " + Or(r.message, "Unknown error")
  }

  /** A search: `code` and the result array when present, or the thrown error's message. */
  datatype SearchResponse<T> = Responded(code: int, data: Option<seq<T>>) | Threw(message: string)

  /** The error text of a failed search, by what the error mentions. */
  function SearchErrorText(message: string): (r: string)
    ensures Contains(message, "TOKEN_EXPIRED") ==> r == SESSION_EXPIRED
    ensures !Contains(message, "TOKEN_EXPIRED") && Contains(message, "Product not found") ==> r == NOT_FOUND
    ensures !Contains(message, "TOKEN_EXPIRED") && !Contains(message, "Product not found") ==> r == SEARCH_FAILED
  {
    if Contains(message, "TOKEN_EXPIRED") then SESSION_EXPIRED
    else if Contains(message, "Product not found") then NOT_FOUND
    else SEARCH_FAILED
  }

  /** `URLSearchParams#get('searchQuery')` as it reads inside a cache key: the value, or `null`. */
  function UrlKeyText(urlQuery: Option<string>): (r: string)
    ensures urlQuery.Some? ==> r == urlQuery.value
  {
    if urlQuery.Some? then urlQuery.value else "null"
  }

  /**
   * The last step of every search handler: when the search cache holds live
   * results for the URL's query, those are shown instead of `produced`.
   */
  function ShownAfterReRead<T>(cache: map<string, ProductCache.SearchEntry<seq<T>>>, urlQuery: Option<string>,
                               searchType: string, produced: seq<T>, now: nat): (r: seq<T>)
    ensures ProductCache.SearchLookup(cache, ProductCache.SearchKey(UrlKeyText(urlQuery), searchType), now).None? ==> r == produced
  {
    match ProductCache.SearchLookup(cache, ProductCache.SearchKey(UrlKeyText(urlQuery), searchType), now)
    case Some(cached) => cached
    case None => produced
  }

  /** The search cache after a successful search stored `fetched` under `query`. */
  function Stored<T>(cache: map<string, ProductCache.SearchEntry<seq<T>>>, query: string, searchType: string,
                     fetched: seq<T>, now: nat): map<string, ProductCache.SearchEntry<seq<T>>> {
    cache[ProductCache.SearchKey(query, searchType) := ProductCache.SearchEntry(fetched, now + ProductCache.SEARCH_CACHE_DURATION)]
  }

  /**
   * What a successful search shows as written: the re-read uses the URL
   * query captured when the handler was rendered, not the one it has just
   * navigated to.
   */
  function ShownAfterSearchAsWritten<T>(cache: map<string, ProductCache.SearchEntry<seq<T>>>, renderedUrl: Option<string>,
                                        query: string, searchType: string, fetched: seq<T>, now: nat): seq<T> {
    ShownAfterReRead(Stored(cache, query, searchType, fetched, now), renderedUrl, searchType, fetched, now)
  }

  /**
   * A second search within five minutes of the first shows the first
   * search's results: the re-read finds them under the old URL query.
   */
  lemma StaleSearchShown<T>(cache: map<string, ProductCache.SearchEntry<seq<T>>>, previous: string, query: string,
                            searchType: string, fetched: seq<T>, now: nat)
    requires ':' !in searchType && previous != query
    requires ProductCache.SearchLookup(cache, ProductCache.SearchKey(previous, searchType), now).Some?
    ensures ShownAfterSearchAsWritten(cache, Some(previous), query, searchType, fetched, now)
            == ProductCache.SearchLookup(cache, ProductCache.SearchKey(previous, searchType), now).value
  {
    ProductCache.SearchKeyInjective(previous, searchType, query, searchType);
  }

  /** An example: `oak` searched after `pine` shows pine's doors. */
  lemma StaleSearchExample()
    ensures var pine := [CatalogItem(Some("p1"), Some("Pine Door"), None, None, None, None, None, None, None)];
            var oak := [CatalogItem(Some("o1"), Some("Oak Door"), None, None, None, None, None, None, None)];
            var cache := map[ProductCache.SearchKey("pine", "doors") := ProductCache.SearchEntry(pine, 1000 + ProductCache.SEARCH_CACHE_DURATION)];
            ShownAfterSearchAsWritten(cache, Some("pine"), "oak", "doors", oak, 2000) == pine != oak
  {
    var pine := [CatalogItem(Some("p1"), Some("Pine Door"), None, None, None, None, None, None, None)];
    var oak := [CatalogItem(Some("o1"), Some("Oak Door"), None, None, None, None, None, None, None)];
    var cache := map[ProductCache.SearchKey("pine", "doors") := ProductCache.SearchEntry(pine, 1000 + ProductCache.SEARCH_CACHE_DURATION)];
    StaleSearchShown(cache, "pine", "oak", "doors", oak, 2000);
    assert pine[0] != oak[0];
  }

  /**
   * What a successful search shows once the re-read uses the URL it has
   * navigated to: exactly what it fetched.
   */
  function ShownAfterSearch<T>(cache: map<string, ProductCache.SearchEntry<seq<T>>>, query: string, searchType: string,
                               fetched: seq<T>, now: nat): (r: seq<T>)
    ensures r == fetched
  {
    ProductCache.SearchAfterWrite(cache, ProductCache.SearchKey(query, searchType), fetched, now, now);
    ShownAfterReRead(Stored(cache, query, searchType, fetched, now), Some(query), searchType, fetched, now)
  }

  /** The detail page is routed at `/product-detail/:id`: one non-empty path segment after the prefix. */
  predicate DetailRouted(path: string) {
    var prefix := "/product-detail/";
    prefix <= path && |path| > |prefix| && '/' !in path[|prefix|..]
  }

  /** `${id}` for a product id; a missing one prints as `undefined`. */
  function IdText(id: Option<string>): string {
    id.GetOr("undefined")
  }

  /** `/product-detail/${product.id}` */
  function DetailPath(id: Option<string>): (path: string)
    ensures id.Some? && id.value != "" && '/' !in id.value ==> DetailRouted(path)
  {
    var path := "/product-detail/" + IdText(id);
    assert path[|"/product-detail/"|..] == IdText(id);
    path
  }

  /** The windows fallback navigation as written: the path has no id segment. */
  const WINDOW_FALLBACK_PATH_AS_WRITTEN := "/product-detail"

  /** No route matches the path the windows fallback navigates to. */
  lemma WindowFallbackUnrouted()
    ensures !DetailRouted(WINDOW_FALLBACK_PATH_AS_WRITTEN)
  {
    assert |WINDOW_FALLBACK_PATH_AS_WRITTEN| < |"/product-detail/"|;
  }

  /** What View Details hands the detail page. */
  datatype DetailState =
    | FullDetail(json: string)
    | Fallback(item: CatalogItem, name: Option<string>, imageUrl: Option<string>,
               productType: Option<string>, specifications: Option<string>)

  /**
   * The doors View Details: the full product when the lookup by name
   * answered, else the card's own fields under the detail page's names, its
   * specifications being the door specification values joined by ` | `.
   */
  function DoorDetail(item: CatalogItem, fetched: Option<string>): (r: (string, DetailState))
    ensures r.0 == DetailPath(item.id)
    ensures fetched.Some? ==> r.1 == FullDetail(fetched.value)
    ensures fetched.None? ==> r.1.Fallback? && r.1.item == item && r.1.name == item.productName &&
                              r.1.imageUrl == item.image && r.1.productType == item.itemType
    ensures fetched.None? && item.doorSpecs.Some? ==> r.1.specifications == Some(Join(Values(item.doorSpecs.value), " | "))
    ensures fetched.None? && item.doorSpecs.None? ==> r.1.specifications.None?
  {
    var specs := if item.doorSpecs.Some? then Some(Join(Values(item.doorSpecs.value), " | ")) else None;
    (DetailPath(item.id),
     if fetched.Some? then FullDetail(fetched.value)
     else Fallback(item, item.productName, item.image, item.itemType, specs))
  }

  /** The windows View Details with its fallback sent to the detail route, as the success path is. */
  function WindowDetail(item: CatalogItem, fetched: Option<string>): (r: (string, DetailState))
    ensures r.0 == DetailPath(item.id)
    ensures fetched.Some? ==> r.1 == FullDetail(fetched.value)
    ensures fetched.None? ==>
              r.1 == Fallback(item, FirstTruthy(item.productName, item.name), item.image,
                              Some(Or(FirstTruthy(item.itemType, item.productType), "windows")), item.specifications)
  {
    (DetailPath(item.id),
     if fetched.Some? then FullDetail(fetched.value)
     else Fallback(item, FirstTruthy(item.productName, item.name), item.image,
                   Some(Or(FirstTruthy(item.itemType, item.productType), "windows")), item.specifications))
  }

  /** The windows View Details as written: the fallback goes to a path without an id. */
  function WindowDetailAsWritten(item: CatalogItem, fetched: Option<string>): (r: (string, DetailState))
    ensures fetched.Some? ==> r == WindowDetail(item, fetched)
    ensures fetched.None? ==> r.0 == WINDOW_FALLBACK_PATH_AS_WRITTEN && r.1 == WindowDetail(item, fetched).1
  {
    if fetched.Some? then WindowDetail(item, fetched) else (WINDOW_FALLBACK_PATH_AS_WRITTEN, WindowDetail(item, fetched).1)
  }

  /** With a usable id, both windows outcomes reach the detail route; as written, the fallback never does. */
  lemma WindowDetailRouted(item: CatalogItem, fetched: Option<string>)
    requires item.id.Some? && item.id.value != "" && '/' !in item.id.value
    ensures DetailRouted(WindowDetail(item, fetched).0)
    ensures fetched.None? ==> !DetailRouted(WindowDetailAsWritten(item, fetched).0)
  {
    WindowFallbackUnrouted();
  }
}
