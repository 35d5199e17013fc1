// The product detail page: which product it shows, its image list and the
// zoom viewer's arrows, the keys of the option sections, and the order of
// the overview entries.
module ProductDetail {
  import opened Wrappers
  import opened Strings
  import ProductCache

  const S3_HOST := "s3.ap-southeast-2.amazonaws.com"
  const HTTPS := "https://"

  /**
   * The product memo: a cached detail for the id wins; otherwise the product
   * handed over in the router state is cached under the id and shown.
   */
  method ResolveProduct<R>(cache: ProductCache.ProductCacheService<R>, id: string, locationProduct: Option<string>)
    returns (product: Option<string>)
    modifies cache`productDetailCache
    ensures id in old(cache.productDetailCache) ==>
              product == Some(old(cache.productDetailCache)[id]) &&
              cache.productDetailCache == old(cache.productDetailCache)
    ensures id !in old(cache.productDetailCache) && locationProduct.Some? ==>
              product == locationProduct &&
              cache.productDetailCache == old(cache.productDetailCache)[id := locationProduct.value]
    ensures id !in old(cache.productDetailCache) && locationProduct.None? ==>
              product.None? && cache.productDetailCache == old(cache.productDetailCache)
  {
    product := cache.GetCachedProductDetail(id);
    if product.None? && locationProduct.Some? {
      cache.SetCachedProductDetail(id, locationProduct.value);
      product := locationProduct;
    }
  }

  /**
   * `formatImageUrl(url)`: nothing for a missing or empty URL; an S3 URL
   * gains `https://` unless it has it; any other URL is kept.
   */
  function FormatImageUrl(url: Option<string>): (r: Option<string>)
    ensures url.None? || url.value == "" ==> r.None?
    ensures url.Some? && url.value != "" && !Contains(url.value, S3_HOST) ==> r == url
    ensures url.Some? && url.value != "" && Contains(url.value, S3_HOST) ==>
              r == (if HTTPS <= url.value then url else Some(HTTPS + url.value))
    ensures url.Some? && url.value != "" && Contains(url.value, S3_HOST) ==>
              r.Some? && HTTPS <= r.value && Contains(r.value, S3_HOST)
    ensures r.Some? ==> r.value != ""
  {
    if url.None? || url.value == "" then None
    else if Contains(url.value, S3_HOST) then
      (if HTTPS <= url.value then url else ContainsAfterPrefix(HTTPS, url.value, S3_HOST); Some(HTTPS + url.value))
    else url
  }

  /** Text found in `s` is still found after a prefix is put in front of `s`. */
  lemma {:induction false} ContainsAfterPrefix(prefix: string, s: string, t: string)
    requires Contains(s, t)
    ensures Contains(prefix + s, t)
  {
    if prefix == [] {
      assert prefix + s == s;
    } else {
      ContainsAfterPrefix(prefix[1..], s, t);
      assert (prefix + s)[1..] == prefix[1..] + s;
    }
  }

  /** Formatting a formatted URL changes nothing. */
  lemma FormatImageUrlIdempotent(url: Option<string>)
    ensures FormatImageUrl(FormatImageUrl(url)) == FormatImageUrl(url)
  {
  }

  /** `(product.additionalImages || []).map(img => formatImageUrl(img.url)).filter(Boolean)` */
  function FormattedImages(urls: seq<Option<string>>): (r: seq<string>)
    ensures |r| <= |urls|
    ensures forall i :: 0 <= i < |r| ==> Some(r[i]) == FormatImageUrl(Some(r[i]))
  {
    if urls == [] then []
    else
      var f := FormatImageUrl(urls[0]);
      FormatImageUrlIdempotent(urls[0]);
      (if f.Some? then [f.value] else []) + FormattedImages(urls[1..])
  }

  /** Formatting a concatenation formats each part: the kept images stay in their order. */
  lemma {:induction false} FormattedImagesAppend(a: seq<Option<string>>, b: seq<Option<string>>)
    ensures FormattedImages(a + b) == FormattedImages(a) + FormattedImages(b)
  {
    if a == [] {
      assert a + b == b;
    } else {
      var k := if FormatImageUrl(a[0]).Some? then [FormatImageUrl(a[0]).value] else [];
      assert a + b == [a[0]] + (a[1..] + b);
      assert a == [a[0]] + a[1..];
      calc {
        FormattedImages(a + b);
        { FormattedImagesCons(a[0], a[1..] + b); }
        k + FormattedImages(a[1..] + b);
        { FormattedImagesAppend(a[1..], b); }
        k + (FormattedImages(a[1..]) + FormattedImages(b));
        (k + FormattedImages(a[1..])) + FormattedImages(b);
        { FormattedImagesCons(a[0], a[1..]); }
        FormattedImages(a) + FormattedImages(b);
      }
    }
  }

  /** The first URL is formatted on its own, the rest after it. */
  lemma FormattedImagesCons(url: Option<string>, rest: seq<Option<string>>)
    ensures FormattedImages([url] + rest) == (if FormatImageUrl(url).Some? then [FormatImageUrl(url).value] else []) + FormattedImages(rest)
  {
    assert ([url] + rest)[1..] == rest;
  }

  /** One URL gives its formatted self, or nothing when it formats to nothing. */
  lemma FormattedImagesOne(url: Option<string>)
    ensures FormattedImages([url]) == if FormatImageUrl(url).Some? then [FormatImageUrl(url).value] else []
  {
    assert [url][1..] == [];
  }

  /** The product fields the image list reads. */
  datatype Product = Product(imageUrl: Option<string>, additionalImages: seq<Option<string>>)

  /** The image list: the main image, if any, then the additional images, in order. */
  function ProductImages(product: Option<Product>): (r: seq<string>)
    ensures product.None? ==> r == []
    ensures product.Some? ==> r == FormattedImages([product.value.imageUrl] + product.value.additionalImages)
  {
    if product.None? then []
    else
      var main := FormatImageUrl(product.value.imageUrl);
      FormattedImagesAppend([product.value.imageUrl], product.value.additionalImages);
      FormattedImagesOne(product.value.imageUrl);
      (if main.Some? then [main.value] else []) + FormattedImages(product.value.additionalImages)
  }

  /** Every S3 image in the list is fetched over `https://`, and no entry is empty. */
  lemma ImagesAreSecure(product: Option<Product>, i: int)
    requires 0 <= i < |ProductImages(product)|
    ensures var img := ProductImages(product)[i];
            img != "" && (Contains(img, S3_HOST) ==> HTTPS <= img)
  {
    var r := ProductImages(product);
    if product.Some? {
      var urls := [product.value.imageUrl] + product.value.additionalImages;
      assert r == FormattedImages(urls);
      assert Some(r[i]) == FormatImageUrl(Some(r[i]));
    }
  }

  /** JavaScript's `%`, whose remainder takes the sign of the dividend. */
  function JsRemainder(a: int, n: int): (r: int)
    requires n > 0
    ensures a >= 0 ==> r == a % n
    ensures -n < r < n
  {
    if a >= 0 then a % n else -((-a) % n)
  }

  /** `(prev + 1) % productImages.length` */
  function NextIndex(prev: int, count: int): int
    requires count > 0
  {
    JsRemainder(prev + 1, count)
  }

  /** `(prev - 1 + productImages.length) % productImages.length` */
  function PreviousIndex(prev: int, count: int): int
    requires count > 0
  {
    JsRemainder(prev - 1 + count, count)
  }

  /** Both arrows keep an index into the image list inside it, and each undoes the other. */
  lemma ArrowsAreInverse(i: int, count: int)
    requires 0 <= i < count
    ensures 0 <= NextIndex(i, count) < count && 0 <= PreviousIndex(i, count) < count
    ensures PreviousIndex(NextIndex(i, count), count) == i
    ensures NextIndex(PreviousIndex(i, count), count) == i
  {
    WrapOnce(i + 1, count);
    WrapOnce(i - 1 + count, count);
    var n := NextIndex(i, count);
    var p := PreviousIndex(i, count);
    WrapOnce(n - 1 + count, count);
    WrapOnce(p + 1, count);
  }

  /** A value below twice the modulus wraps at most once. */
  lemma WrapOnce(a: int, n: int)
    requires 0 <= a < 2 * n
    ensures a % n == if a < n then a else a - n
  {
    if a >= n {
      assert a == n + (a - n);
    }
  }

  /** The zoom viewer: the index of the enlarged image and whether it is open. */
  class ImageViewer {
    var activeImage: int
    var showZoom: bool

    predicate Valid()
      reads this
    {
      activeImage >= 0
    }

    constructor ()
      ensures Valid() && activeImage == 0 && !showZoom
    {
      activeImage, showZoom := 0, false;
    }

    method ToggleZoom()
      modifies this`showZoom
      ensures showZoom == !old(showZoom)
    {
      showZoom := !showZoom;
    }

    /** `nextImage`, for a list of `count` images. */
    method NextImage(count: int)
      requires Valid() && count > 0
      modifies this`activeImage
      ensures Valid() && activeImage == NextIndex(old(activeImage), count) && activeImage < count
    {
      activeImage := JsRemainder(activeImage + 1, count);
    }

    /** `previousImage`, for a list of `count` images. */
    method PreviousImage(count: int)
      requires Valid() && count > 0
      modifies this`activeImage
      ensures Valid() && activeImage == PreviousIndex(old(activeImage), count) && activeImage < count
    {
      activeImage := JsRemainder(activeImage - 1 + count, count);
    }
  }

  /** The characters `/[&\s]/` matches. */
  predicate IsKeySeparator(c: char) {
    c == '&' || IsSpace(c)
  }

  /** Drops the separators at the front of `s`. */
  function SkipSeparators(s: string): (r: string)
    ensures |r| <= |s| && (r == [] || !IsKeySeparator(r[0]))
    ensures r == s[|s| - |r|..]
  {
    if s != [] && IsKeySeparator(s[0]) then SkipSeparators(s[1..]) else s
  }

  /** `.replace(/[&\s]+/g, '-')`: each maximal run of separators becomes one `-`. */
  function CollapseSeparators(s: string): (r: string)
    ensures |r| <= |s|
    ensures forall i :: 0 <= i < |r| ==> !IsKeySeparator(r[i]) && (r[i] == '-' || r[i] in s)
    decreases |s|
  {
    if s == [] then []
    else if IsKeySeparator(s[0]) then
      var rest := SkipSeparators(s[1..]);
      ['-'] + CollapseSeparators(rest)
    else [s[0]] + CollapseSeparators(s[1..])
  }

  /** `section.toLowerCase().replace(/[&\s]+/g, '-')` */
  function SectionKey(section: string): (key: string)
    ensures |key| <= |section|
    ensures forall i :: 0 <= i < |key| ==> !IsKeySeparator(key[i]) && ToLowerChar(key[i]) == key[i]
  {
    var lower := Lower(section);
    var key := CollapseSeparators(lower);
    forall i | 0 <= i < |key|
      ensures ToLowerChar(key[i]) == key[i]
    {
      if key[i] != '-' {
        var j :| 0 <= j < |lower| && lower[j] == key[i];
      }
    }
    key
  }

  /** A string without separators is left as it is. */
  lemma {:induction false} CollapseWithoutSeparators(s: string)
    requires forall i :: 0 <= i < |s| ==> !IsKeySeparator(s[i])
    ensures CollapseSeparators(s) == s
  {
    if s != [] {
      CollapseWithoutSeparators(s[1..]);
    }
  }

  /** Lower-casing a string that is already lower case changes nothing. */
  lemma LowerOfLower(s: string)
    requires forall i :: 0 <= i < |s| ==> ToLowerChar(s[i]) == s[i]
    ensures Lower(s) == s
  {
  }

  /** A section key is its own key. */
  lemma SectionKeyIdempotent(section: string)
    ensures SectionKey(SectionKey(section)) == SectionKey(section)
  {
    var key := SectionKey(section);
    LowerOfLower(key);
    CollapseWithoutSeparators(key);
  }

  /** Dropping a run of separators stops at the first character that is not one. */
  lemma {:induction false} SkipRun(run: string, b: string)
    requires forall i :: 0 <= i < |run| ==> IsKeySeparator(run[i])
    requires b == [] || !IsKeySeparator(b[0])
    ensures SkipSeparators(run + b) == b
  {
    if run == [] {
      assert run + b == b;
    } else {
      SkipRun(run[1..], b);
      assert (run + b)[1..] == run[1..] + b;
    }
  }

  /** A maximal run of separators, however long, becomes a single `-`. */
  lemma CollapseRun(run: string, b: string)
    requires run != [] && forall i :: 0 <= i < |run| ==> IsKeySeparator(run[i])
    requires b == [] || !IsKeySeparator(b[0])
    ensures CollapseSeparators(run + b) == ['-'] + CollapseSeparators(b)
  {
    assert (run + b)[0] == run[0];
    assert (run + b)[1..] == run[1..] + b;
    SkipRun(run[1..], b);
  }

  /** An option section: its name and, when its content is an object, how many keys it has. */
  datatype Section = Section(name: string, keyCount: Option<nat>)

  /** Sections with missing or empty content get neither a tab nor a panel. */
  predicate Shown(s: Section) {
    s.keyCount.Some? && s.keyCount.value > 0
  }

  /** The tab keys, one per shown section, in order. */
  function TabKeys(sections: seq<Section>): (r: seq<string>)
    ensures |r| <= |sections|
  {
    if sections == [] then []
    else (if Shown(sections[0]) then [SectionKey(sections[0].name)] else []) + TabKeys(sections[1..])
  }

  /** The sections whose panel is drawn for the active tab. */
  function Panels(sections: seq<Section>, activeTab: string): (r: seq<Section>)
    ensures forall i :: 0 <= i < |r| ==> Shown(r[i]) && SectionKey(r[i].name) == activeTab && r[i] in sections
  {
    if sections == [] then []
    else (if Shown(sections[0]) && SectionKey(sections[0].name) == activeTab then [sections[0]] else [])
         + Panels(sections[1..], activeTab)
  }

  /** A panel is drawn only for a tab that exists, and every shown section's tab draws its panel. */
  lemma {:induction false} PanelsMatchTabs(sections: seq<Section>, activeTab: string)
    ensures Panels(sections, activeTab) != [] <==> activeTab in TabKeys(sections)
  {
    if sections != [] {
      PanelsMatchTabs(sections[1..], activeTab);
    }
  }

  /** `orderMap`: the overview keys with a fixed rank. */
  const ORDER_MAP: map<string, int> := map[
    "PROJECT TYPE" := 1,
    "COLORS & FINISHES" := 2,
    "CONSTRUCTION" := 3,
    "GLASS" := 4,
    "MAINTENANCE LEVEL" := 5,
    "PANEL OPTIONS" := 6,
    "DIVIDED LITES" := 7,
    "EXTRAS" := 8,
    "WARRANTY" := 999
  ]

  const DEFAULT_RANK: int := 500

  /** `orderMap[key] || 500` */
  function Rank(key: string): int {
    if key in ORDER_MAP then ORDER_MAP[key] else DEFAULT_RANK
  }

  predicate SortedByRank(keys: seq<string>) {
    forall i, j :: 0 <= i < j < |keys| ==> Rank(keys[i]) <= Rank(keys[j])
  }

  /** Puts `key` before the first key of a higher or equal rank. */
  function InsertByRank(key: string, sorted: seq<string>): (r: seq<string>)
    ensures multiset(r) == multiset(sorted) + multiset{key}
  {
    if sorted == [] || Rank(key) <= Rank(sorted[0]) then [key] + sorted
    else
      assert sorted == [sorted[0]] + sorted[1..];
      [sorted[0]] + InsertByRank(key, sorted[1..])
  }

  /** Inserting adds `key` and nothing else. */
  lemma {:induction false} InsertedMembers(key: string, sorted: seq<string>)
    ensures forall x :: x in InsertByRank(key, sorted) ==> x == key || x in sorted
  {
    if sorted != [] && Rank(key) > Rank(sorted[0]) {
      InsertedMembers(key, sorted[1..]);
    }
  }

  /** A list whose head ranks no higher than every key of its sorted tail is sorted. */
  lemma ConsSorted(x: string, tail: seq<string>)
    requires SortedByRank(tail) && forall y :: y in tail ==> Rank(x) <= Rank(y)
    ensures SortedByRank([x] + tail)
  {
    var r := [x] + tail;
    forall i, j | 0 <= i < j < |r|
      ensures Rank(r[i]) <= Rank(r[j])
    {
      assert r[j] == tail[j - 1];
      if i > 0 {
        assert r[i] == tail[i - 1];
      }
    }
  }

  /** Inserting into a list sorted by rank keeps it sorted. */
  lemma {:induction false} InsertKeepsSorted(key: string, sorted: seq<string>)
    requires SortedByRank(sorted)
    ensures SortedByRank(InsertByRank(key, sorted))
  {
    if sorted == [] || Rank(key) <= Rank(sorted[0]) {
      forall y | y in sorted
        ensures Rank(key) <= Rank(y)
      {
        var k :| 0 <= k < |sorted| && sorted[k] == y;
        assert Rank(sorted[0]) <= Rank(sorted[k]);
      }
      ConsSorted(key, sorted);
    } else {
      var tail := sorted[1..];
      assert SortedByRank(tail);
      InsertKeepsSorted(key, tail);
      InsertedMembers(key, tail);
      var rest := InsertByRank(key, tail);
      forall y | y in rest
        ensures Rank(sorted[0]) <= Rank(y)
      {
        if y != key {
          var k :| 0 <= k < |tail| && tail[k] == y;
          assert tail[k] == sorted[k + 1];
        }
      }
      ConsSorted(sorted[0], rest);
    }
  }


  /** The comparator sort: ascending rank, a permutation of its input. */
  function SortByRank(keys: seq<string>): (r: seq<string>)
    ensures SortedByRank(r) && multiset(r) == multiset(keys)
  {
    if keys == [] then []
    else
      var rest := SortByRank(keys[1..]);
      assert keys == [keys[0]] + keys[1..];
      InsertKeepsSorted(keys[0], rest);
      InsertByRank(keys[0], rest)
  }

  /** The keys of rank `v`, in their order. */
  function OfRank(keys: seq<string>, v: int): (r: seq<string>)
    ensures forall x :: x in r ==> x in keys && Rank(x) == v
  {
    if keys == [] then []
    else (if Rank(keys[0]) == v then [keys[0]] else []) + OfRank(keys[1..], v)
  }

  /** Inserting passes over lower ranks only, so `key` joins its own rank's keys in front. */
  lemma {:induction false} InsertOfRank(key: string, sorted: seq<string>, v: int)
    ensures OfRank(InsertByRank(key, sorted), v) == (if Rank(key) == v then [key] else []) + OfRank(sorted, v)
  {
    var r := InsertByRank(key, sorted);
    if sorted == [] || Rank(key) <= Rank(sorted[0]) {
      assert r[1..] == sorted;
    } else {
      var tail := sorted[1..];
      InsertOfRank(key, tail, v);
      assert r[1..] == InsertByRank(key, tail);
      assert Rank(sorted[0]) != Rank(key);
    }
  }

  /**
   * The sort is stable, like JavaScript's `Array.prototype.sort`: the keys
   * of any one rank (every unranked key shares rank 500) keep their input
   * order.
   */
  lemma {:induction false} SortByRankStable(keys: seq<string>, v: int)
    ensures OfRank(SortByRank(keys), v) == OfRank(keys, v)
  {
    if keys != [] {
      SortByRankStable(keys[1..], v);
      InsertOfRank(keys[0], SortByRank(keys[1..]), v);
    }
  }

  /** A list all of one rank is its own rank-`v` list. */
  lemma {:induction false} OfRankAll(keys: seq<string>, v: int)
    requires forall x :: x in keys ==> Rank(x) == v
    ensures OfRank(keys, v) == keys
  {
    if keys != [] {
      assert forall x :: x in keys[1..] ==> x in keys;
      OfRankAll(keys[1..], v);
    }
  }

  /** Keys that all share one rank, such as keys none of which has a fixed rank, come back in their input order. */
  lemma SameRankUnchanged(keys: seq<string>, v: int)
    requires forall x :: x in keys ==> Rank(x) == v
    ensures SortByRank(keys) == keys
  {
    var r := SortByRank(keys);
    forall x | x in r
      ensures Rank(x) == v
    {
      assert x in multiset(r);
    }
    OfRankAll(keys, v);
    OfRankAll(r, v);
    SortByRankStable(keys, v);
  }

  /** `.filter(([key]) => key !== 'Image')` */
  function WithoutImage(keys: seq<string>): (r: seq<string>)
    ensures "Image" !in r
    ensures forall k :: k != "Image" ==> multiset(r)[k] == multiset(keys)[k]
  {
    if keys == [] then []
    else
      assert keys == [keys[0]] + keys[1..];
      (if keys[0] == "Image" then [] else [keys[0]]) + WithoutImage(keys[1..])
  }

  /** The overview entries' keys, in display order. */
  function OverviewOrder(keys: seq<string>): (r: seq<string>)
    ensures "Image" !in r
    ensures SortedByRank(r)
    ensures forall k :: k != "Image" ==> multiset(r)[k] == multiset(keys)[k]
  {
    var kept := WithoutImage(keys);
    var r := SortByRank(kept);
    assert "Image" !in multiset(kept);
    r
  }

  /** `WARRANTY` comes after every entry without a fixed rank. */
  lemma WarrantyComesLast(keys: seq<string>, i: int, j: int)
    requires var r := OverviewOrder(keys);
             0 <= i < |r| && 0 <= j < |r| && r[i] == "WARRANTY" && r[j] !in ORDER_MAP
    ensures j < i
  {
    var r := OverviewOrder(keys);
    assert Rank(r[i]) == 999 && Rank(r[j]) == DEFAULT_RANK;
  }
}
