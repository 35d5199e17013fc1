// The page frame: the tab title derived from a route, which routes show the
// AI sidebar and the tab bar, and the route-change effect that opens a tab.
module Layout {
  import opened Strings
  import Tabs

  const HOME_TITLE := "Home"

  /** `titleMap`: route segments with a fixed display title. */
  const TITLE_MAP: map<string, string> := map[
    "faqs" := "FAQs",
    "ai-history" := "AI History",
    "settings" := "Settings",
    "windows" := "Windows",
    "doors" := "Doors",
    "product-detail" := "Product Detail"
  ]

  const NO_AI_SIDEBAR_PAGES: seq<string> := ["/cases/dashboard", "/settings"]
  const NO_TAB_PAGES: seq<string> := ["/login", "/"]
  const ALWAYS_SHOW_TAB_PAGES: seq<string> := ["/faqs", "/settings", "/ai-history", "/windows", "/doors", "/product-detail"]

  /** `.filter(Boolean)` on strings: the non-empty ones, in order. */
  function NonEmpty(pieces: seq<string>): (r: seq<string>)
    ensures |r| <= |pieces|
    ensures forall i :: 0 <= i < |r| ==> r[i] != [] && r[i] in pieces
  {
    if pieces == [] then []
    else if pieces[0] == [] then NonEmpty(pieces[1..])
    else [pieces[0]] + NonEmpty(pieces[1..])
  }

  /** `path.split('/').filter(Boolean)` */
  function Segments(path: string): (r: seq<string>)
    ensures forall i :: 0 <= i < |r| ==> r[i] != [] && '/' !in r[i]
  {
    NonEmpty(Split(path, {'/'}))
  }

  /**
   * `getTitleFromPath(path)`: `'Home'` without segments; the mapped title
   * of a known last segment; otherwise the last segment split on `-`, each
   * word capitalised, joined with spaces.
   */
  function GetTitleFromPath(path: string): (title: string)
    ensures Segments(path) == [] ==> title == HOME_TITLE
    ensures Segments(path) != [] ==>
              var last := Segments(path)[|Segments(path)| - 1];
              (last in TITLE_MAP ==> title == TITLE_MAP[last]) &&
              (last !in TITLE_MAP ==> title == SpacedName(last, {'-'}, true) && |title| == |last|)
  {
    var segments := Segments(path);
    if segments == [] then HOME_TITLE
    else
      var last := segments[|segments| - 1];
      if last in TITLE_MAP then TITLE_MAP[last] else TitleCase(last, {'-'})
  }

  /** A string without separators splits into itself. */
  lemma {:induction false} SplitWithoutSeparator(s: string, seps: set<char>)
    requires forall k :: 0 <= k < |s| ==> s[k] !in seps
    ensures Split(s, seps) == [s]
  {
    if s != [] {
      SplitWithoutSeparator(s[1..], seps);
      assert [s[0]] + s[1..] == s;
    }
  }

  /** Appending a separator and a separator-free piece appends one piece. */
  lemma {:induction false} SplitAppend(a: string, c: char, seg: string, seps: set<char>)
    requires c in seps && forall k :: 0 <= k < |seg| ==> seg[k] !in seps
    ensures Split(a + [c] + seg, seps) == Split(a, seps) + [seg]
  {
    if a == [] {
      assert a + [c] + seg == [c] + seg;
      assert ([c] + seg)[1..] == seg;
      SplitWithoutSeparator(seg, seps);
    } else {
      SplitAppend(a[1..], c, seg, seps);
      var x := a + [c] + seg;
      assert x[0] == a[0] && x[1..] == a[1..] + [c] + seg;
      SplitCons(x, Split(a[1..], seps), seg, seps);
    }
  }

  lemma SplitCons(x: string, rest: seq<string>, seg: string, seps: set<char>)
    requires x != [] && Split(x[1..], seps) == rest + [seg] && |rest| >= 1
    ensures x[0] in seps ==> Split(x, seps) == [[]] + rest + [seg]
    ensures x[0] !in seps ==> Split(x, seps) == [[x[0]] + rest[0]] + rest[1..] + [seg]
  {
    if x[0] !in seps {
      var r := rest + [seg];
      assert r[0] == rest[0] && r[1..] == rest[1..] + [seg];
    }
  }

  lemma {:induction false} NonEmptyAppend(pieces: seq<string>, seg: string)
    requires seg != []
    ensures NonEmpty(pieces + [seg]) == NonEmpty(pieces) + [seg]
  {
    if pieces == [] {
      assert NonEmpty([seg]) == [seg] + NonEmpty([]);
    } else {
      NonEmptyAppend(pieces[1..], seg);
      assert (pieces + [seg])[1..] == pieces[1..] + [seg];
    }
  }

  /** The title of a route is decided by its last segment alone, whatever comes before it. */
  lemma TitleFromLastSegment(prefix: string, seg: string)
    requires seg != [] && '/' !in seg
    ensures GetTitleFromPath(prefix + "/" + seg) ==
              if seg in TITLE_MAP then TITLE_MAP[seg] else TitleCase(seg, {'-'})
  {
    SplitAppend(prefix, '/', seg, {'/'});
    NonEmptyAppend(Split(prefix, {'/'}), seg);
  }

  /** `'/'`, `''` and `'//'` all have the title `'Home'`. */
  lemma RootTitles()
    ensures GetTitleFromPath("/") == HOME_TITLE
    ensures GetTitleFromPath("") == HOME_TITLE
    ensures GetTitleFromPath("//") == HOME_TITLE
  {
    assert Split("/", {'/'}) == ["", ""] by { assert "/"[1..] == ""; }
    assert Split("//", {'/'}) == ["", "", ""] by { assert "//"[1..] == "/"; }
  }

  /** `shouldShowAISidebar` */
  predicate ShowAISidebar(path: string) {
    path !in NO_AI_SIDEBAR_PAGES
  }

  /** `shouldShowTabPanel`, with its always-show clause. */
  predicate ShowTabPanel(path: string) {
    path !in NO_TAB_PAGES || exists i :: 0 <= i < |ALWAYS_SHOW_TAB_PAGES| && ALWAYS_SHOW_TAB_PAGES[i] <= path
  }

  /** The always-show clause never overrides: the tab bar is hidden exactly on `/login` and `/`. */
  lemma TabPanelIff(path: string)
    ensures ShowTabPanel(path) <==> path != "/login" && path != "/"
  {
    if path == "/login" || path == "/" {
      forall i | 0 <= i < |ALWAYS_SHOW_TAB_PAGES|
        ensures !(ALWAYS_SHOW_TAB_PAGES[i] <= path)
      {
        var p := ALWAYS_SHOW_TAB_PAGES[i];
        if |p| <= |path| {
          assert p[1] != path[1];
        }
      }
    }
  }

  /** The route-change effect: `addTab(path, getTitleFromPath(path))` with the default `isFromNavigation`. */
  method OnPathChange(manager: Tabs.TabManager, path: string, now: nat)
    requires manager.Valid() && Tabs.IdsBefore(manager.tabs, now)
    modifies manager`tabs, manager`activeTab, manager.pages`navigationType
    ensures manager.Valid()
    ensures path in Tabs.EXCLUDED_PATHS ==> manager.tabs == old(manager.tabs)
    ensures path !in Tabs.EXCLUDED_PATHS ==>
              manager.tabs == Tabs.TabsAfterAdd(old(manager.tabs), path, GetTitleFromPath(path), false, now)
  {
    manager.AddTab(path, GetTitleFromPath(path), false, now);
  }
}
