// The tab bar: one tab per visited page (except the login and root pages),
// switching between tabs with their saved page state, closing tabs with a
// confirmation for unsaved work, and choosing the tab to show after a close.
module Tabs {
  import opened Wrappers
  import opened PageStates

  /** A tab; its id is the clock reading (milliseconds) when it was opened. */
  datatype Tab = Tab(id: nat, path: string, title: string, isFromNavigation: bool)

  /** A router location, the argument of `navigate`. */
  datatype Location = Location(pathname: string, search: string, hash: string)

  /** `EXCLUDED_PATHS`: pages that never get a tab. */
  const EXCLUDED_PATHS: seq<string> := ["/login", "/"]
  const HOME_PATH := "/home"

  /** `navigate(path)` for a bare path. */
  function PathLocation(path: string): Location { Location(path, "", "") }

  /** `tabs.findIndex(tab => key(tab) === k)`: the first tab whose field `key` reads `k`. */
  function FindFirst<K(==)>(tabs: seq<Tab>, key: Tab -> K, k: K): (r: Option<nat>)
    ensures r.Some? ==> r.value < |tabs| && key(tabs[r.value]) == k
    ensures r.Some? ==> forall j :: 0 <= j < r.value ==> key(tabs[j]) != k
    ensures r.None? ==> forall j :: 0 <= j < |tabs| ==> key(tabs[j]) != k
  {
    if tabs == [] then None
    else if key(tabs[0]) == k then Some(0)
    else match FindFirst(tabs[1..], key, k)
      case None => None
      case Some(i) => Some(i + 1)
  }

  /** `tabs.findIndex(tab => tab.path === path)` */
  function FindByPath(tabs: seq<Tab>, path: string): (r: Option<nat>)
    ensures r.Some? ==> r.value < |tabs| && tabs[r.value].path == path
    ensures r.Some? ==> forall j :: 0 <= j < r.value ==> tabs[j].path != path
    ensures r.None? ==> forall j :: 0 <= j < |tabs| ==> tabs[j].path != path
  {
    FindFirst(tabs, (t: Tab) => t.path, path)
  }

  /** `tabs.findIndex(tab => tab.id === id)` */
  function FindById(tabs: seq<Tab>, id: nat): (r: Option<nat>)
    ensures r.Some? ==> r.value < |tabs| && tabs[r.value].id == id
    ensures r.Some? ==> forall j :: 0 <= j < r.value ==> tabs[j].id != id
    ensures r.None? ==> forall j :: 0 <= j < |tabs| ==> tabs[j].id != id
  {
    FindFirst(tabs, (t: Tab) => t.id, id)
  }

  predicate UniquePaths(tabs: seq<Tab>) {
    forall i, j :: 0 <= i < j < |tabs| ==> tabs[i].path != tabs[j].path
  }

  predicate UniqueIds(tabs: seq<Tab>) {
    forall i, j :: 0 <= i < j < |tabs| ==> tabs[i].id != tabs[j].id
  }

  /** Every tab id is earlier than `now`. */
  predicate IdsBefore(tabs: seq<Tab>, now: nat) {
    forall k :: 0 <= k < |tabs| ==> tabs[k].id < now
  }

  /** The tab list after `addTab`: unchanged when the path already has a tab, else the new tab appended. */
  function TabsAfterAdd(tabs: seq<Tab>, path: string, title: string, isFromNavigation: bool, id: nat): seq<Tab> {
    if FindByPath(tabs, path).Some? then tabs else tabs + [Tab(id, path, title, isFromNavigation)]
  }

  /** The tab made active by `addTab`: the existing tab for the path, else the new one. */
  function ActiveAfterAdd(tabs: seq<Tab>, path: string, id: nat): nat {
    match FindByPath(tabs, path)
    case Some(i) => tabs[i].id
    case None => id
  }

  /** `tabs.filter(tab => tab.id !== id)` */
  function RemoveId(tabs: seq<Tab>, id: nat): (r: seq<Tab>)
    ensures |r| <= |tabs|
    ensures forall k :: 0 <= k < |r| ==> r[k].id != id && r[k] in tabs
  {
    if tabs == [] then []
    else if tabs[0].id == id then RemoveId(tabs[1..], id)
    else [tabs[0]] + RemoveId(tabs[1..], id)
  }

  /**
   * `newTabs[index] || newTabs[index - 1] || newTabs[0]`: the tab shown
   * after closing the active tab at `index`.
   */
  function NextAfterClose(newTabs: seq<Tab>, index: nat): Tab
    requires |newTabs| > 0
  {
    if index < |newTabs| then newTabs[index]
    else if 1 <= index <= |newTabs| then newTabs[index - 1]
    else newTabs[0]
  }

  /** Adding the same page twice opens one tab: the second call changes nothing. */
  lemma AddTabIdempotent(tabs: seq<Tab>, path: string, title: string, title2: string,
                         fromNav: bool, fromNav2: bool, id: nat, id2: nat)
    ensures var once := TabsAfterAdd(tabs, path, title, fromNav, id);
            TabsAfterAdd(once, path, title2, fromNav2, id2) == once &&
            ActiveAfterAdd(once, path, id2) == ActiveAfterAdd(tabs, path, id)
  {
    var once := TabsAfterAdd(tabs, path, title, fromNav, id);
    if FindByPath(tabs, path).None? {
      assert once[|tabs|].path == path;
      var j := FindByPath(once, path).value;
      assert j == |tabs|;
    } else {
      var i := FindByPath(tabs, path).value;
      assert FindByPath(once, path) == Some(i);
    }
  }

  /** Adding keeps paths unique and, with a fresh id, ids unique. */
  lemma AddKeepsUnique(tabs: seq<Tab>, path: string, title: string, fromNav: bool, id: nat)
    requires UniquePaths(tabs) && UniqueIds(tabs) && IdsBefore(tabs, id)
    ensures var after := TabsAfterAdd(tabs, path, title, fromNav, id);
            UniquePaths(after) && UniqueIds(after) && IdsBefore(after, id + 1)
  {
  }

  /** With unique ids, removing a tab's id removes exactly that tab and keeps the others in order. */
  lemma {:induction false} RemoveIdSplices(tabs: seq<Tab>, i: nat)
    requires UniqueIds(tabs) && i < |tabs|
    ensures RemoveId(tabs, tabs[i].id) == tabs[..i] + tabs[i + 1..]
  {
    if i == 0 {
      RemoveAbsent(tabs[1..], tabs[0].id);
    } else {
      RemoveIdSplices(tabs[1..], i - 1);
      assert tabs[1..][i - 1].id == tabs[i].id;
      assert tabs[1..][..i - 1] + tabs[1..][i..] == tabs[1..i] + tabs[i + 1..];
      assert [tabs[0]] + (tabs[1..i] + tabs[i + 1..]) == tabs[..i] + tabs[i + 1..];
    }
  }

  /** Removing an id no tab has changes nothing. */
  lemma {:induction false} RemoveAbsent(tabs: seq<Tab>, id: nat)
    requires forall k :: 0 <= k < |tabs| ==> tabs[k].id != id
    ensures RemoveId(tabs, id) == tabs
  {
    if tabs != [] {
      RemoveAbsent(tabs[1..], id);
      assert tabs == [tabs[0]] + tabs[1..];
    }
  }

  /** Closing a tab keeps the tab-list invariants, and every other tab can still be found by id. */
  lemma RemoveKeepsUnique(tabs: seq<Tab>, i: nat)
    requires UniquePaths(tabs) && UniqueIds(tabs) && i < |tabs|
    requires forall k :: 0 <= k < |tabs| ==> tabs[k].path !in EXCLUDED_PATHS
    ensures var newTabs := RemoveId(tabs, tabs[i].id);
            UniquePaths(newTabs) && UniqueIds(newTabs) &&
            (forall k :: 0 <= k < |newTabs| ==> newTabs[k].path !in EXCLUDED_PATHS) &&
            (forall a :: 0 <= a < |tabs| && a != i ==> FindById(newTabs, tabs[a].id).Some?)
  {
    RemoveIdSplices(tabs, i);
    var newTabs := tabs[..i] + tabs[i + 1..];
    SpliceKeepsInvariants(tabs, i);
    forall a | 0 <= a < |tabs| && a != i
      ensures FindById(newTabs, tabs[a].id).Some?
    {
      if a < i {
        assert newTabs[a] == tabs[a];
      } else {
        assert newTabs[a - 1] == tabs[a];
      }
    }
  }

  /** Cutting one tab out of the list keeps the tab-list invariants. */
  lemma SpliceKeepsInvariants(tabs: seq<Tab>, i: nat)
    requires UniquePaths(tabs) && UniqueIds(tabs) && i < |tabs|
    requires forall k :: 0 <= k < |tabs| ==> tabs[k].path !in EXCLUDED_PATHS
    ensures var newTabs := tabs[..i] + tabs[i + 1..];
            UniquePaths(newTabs) && UniqueIds(newTabs) &&
            (forall k :: 0 <= k < |newTabs| ==> newTabs[k].path !in EXCLUDED_PATHS)
  {
    var newTabs := tabs[..i] + tabs[i + 1..];
    assert forall k :: 0 <= k < |newTabs| ==> newTabs[k] == tabs[if k < i then k else k + 1];
  }

  /** Opening a new page and closing its tab again restores the tab list. */
  lemma AddThenClose(tabs: seq<Tab>, path: string, title: string, fromNav: bool, id: nat)
    requires UniqueIds(tabs) && IdsBefore(tabs, id) && FindByPath(tabs, path).None?
    ensures RemoveId(TabsAfterAdd(tabs, path, title, fromNav, id), id) == tabs
  {
    var after := TabsAfterAdd(tabs, path, title, fromNav, id);
    RemoveIdSplices(after, |tabs|);
    assert after[..|tabs|] == tabs;
  }

  /**
   * Closing the active tab shows its right-hand neighbour, or its left-hand
   * neighbour when it was the last tab.
   */
  lemma NextIsNeighbour(tabs: seq<Tab>, i: nat)
    requires UniqueIds(tabs) && i < |tabs| && |tabs| >= 2
    ensures var newTabs := RemoveId(tabs, tabs[i].id);
            |newTabs| == |tabs| - 1 &&
            NextAfterClose(newTabs, i) == if i + 1 < |tabs| then tabs[i + 1] else tabs[i - 1]
  {
    RemoveIdSplices(tabs, i);
    var newTabs := tabs[..i] + tabs[i + 1..];
    if i + 1 < |tabs| {
      assert newTabs[i] == tabs[i + 1];
    } else {
      assert newTabs[i - 1] == tabs[i - 1];
    }
  }

  class TabManager {
    var tabs: seq<Tab>
    var activeTab: Option<nat>
    var unsavedTabs: set<nat>
    /** The locations passed to `navigate`, oldest first. */
    var navigations: seq<Location>
    /** The page-state store this provider reads and writes. */
    const pages: PageStateStore

    /**
     * Paths and ids are unique, excluded pages have no tab, and the active
     * tab, when there is one, is in the list.
     */
    predicate Valid()
      reads this
    {
      UniquePaths(tabs) && UniqueIds(tabs) &&
      (forall k :: 0 <= k < |tabs| ==> tabs[k].path !in EXCLUDED_PATHS) &&
      (activeTab.Some? ==> FindById(tabs, activeTab.value).Some?)
    }

    constructor (store: PageStateStore)
      ensures Valid() && pages == store
      ensures tabs == [] && activeTab == None && unsavedTabs == {} && navigations == []
    {
      tabs := [];
      activeTab := None;
      unsavedTabs := {};
      navigations := [];
      pages := store;
    }

    /**
     * `addTab(path, title, isFromNavigation)` at clock reading `now`:
     * excluded paths are ignored outright; otherwise the navigation type is
     * recorded and the path's tab (existing or new) becomes active.
     */
    method AddTab(path: string, title: string, isFromNavigation: bool, now: nat)
      requires Valid() && IdsBefore(tabs, now)
      modifies this`tabs, this`activeTab, pages`navigationType
      ensures Valid()
      ensures path in EXCLUDED_PATHS ==>
                tabs == old(tabs) && activeTab == old(activeTab) && pages.navigationType == old(pages.navigationType)
      ensures path !in EXCLUDED_PATHS ==>
                pages.navigationType == (if isFromNavigation then Navigation else TabClick) &&
                tabs == TabsAfterAdd(old(tabs), path, title, isFromNavigation, now) &&
                activeTab == Some(ActiveAfterAdd(old(tabs), path, now))
    {
      if path in EXCLUDED_PATHS {
        return;
      }
      pages.SetNavigationType(if isFromNavigation then Navigation else TabClick);
      var existing := FindByPath(tabs, path);
      if existing.Some? {
        activeTab := Some(tabs[existing.value].id);
        assert FindById(tabs, tabs[existing.value].id).Some?;
        return;
      }
      AddKeepsUnique(tabs, path, title, isFromNavigation, now);
      tabs := tabs + [Tab(now, path, title, isFromNavigation)];
      activeTab := Some(now);
      assert tabs[|tabs| - 1].id == now;
    }

    /**
     * `closeTab(tabId)`, where `confirmed` is the user's answer to the
     * unsaved-changes prompt (asked only for an unsaved tab). When the
     * active tab closes, the next tab is shown, or the home page when none is left.
     */
    method CloseTab(tabId: nat, confirmed: bool)
      requires Valid()
      modifies this`tabs, this`activeTab, this`unsavedTabs, this`navigations
      ensures Valid()
      ensures FindById(old(tabs), tabId).None? || (tabId in old(unsavedTabs) && !confirmed) ==>
                tabs == old(tabs) && activeTab == old(activeTab) &&
                unsavedTabs == old(unsavedTabs) && navigations == old(navigations)
      ensures FindById(old(tabs), tabId).Some? && (tabId !in old(unsavedTabs) || confirmed) ==>
                tabs == RemoveId(old(tabs), tabId) &&
                unsavedTabs == old(unsavedTabs) - {tabId} &&
                (old(activeTab) != Some(tabId) ==> activeTab == old(activeTab) && navigations == old(navigations)) &&
                (old(activeTab) == Some(tabId) && tabs == [] ==>
                   activeTab == None && navigations == old(navigations) + [PathLocation(HOME_PATH)]) &&
                (old(activeTab) == Some(tabId) && tabs != [] ==>
                   var next := NextAfterClose(tabs, FindById(old(tabs), tabId).value);
                   activeTab == Some(next.id) && navigations == old(navigations) + [PathLocation(next.path)])
    {
      var index := FindById(tabs, tabId);
      if index.None? {
        return;
      }
      if tabId in unsavedTabs && !confirmed {
        return;
      }
      var prevTabs := tabs;
      RemoveKeepsUnique(prevTabs, index.value);
      var newTabs := RemoveId(prevTabs, tabId);
      if activeTab == Some(tabId) {
        if |newTabs| > 0 {
          var next := NextAfterClose(newTabs, index.value);
          activeTab := Some(next.id);
          navigations := navigations + [PathLocation(next.path)];
        } else {
          activeTab := None;
          navigations := navigations + [PathLocation(HOME_PATH)];
        }
      } else if activeTab.Some? {
        var a := FindById(prevTabs, activeTab.value).value;
        assert a != index.value;
      }
      tabs := newTabs;
      unsavedTabs := unsavedTabs - {tabId};
    }

    /**
     * `switchTab(tabId)`: activate a known tab and go back to its saved
     * location (returning the saved state whose form values and scroll
     * position are put back), or to its path when nothing was saved.
     */
    method SwitchTab(tabId: nat) returns (restore: Option<PageState>)
      requires Valid()
      modifies this`activeTab, this`navigations
      ensures Valid()
      ensures FindById(tabs, tabId).None? ==>
                activeTab == old(activeTab) && navigations == old(navigations) && restore == None
      ensures FindById(tabs, tabId).Some? ==>
                activeTab == Some(tabId) &&
                (tabId in pages.states ==>
                   var s := pages.states[tabId];
                   restore == Some(s) && navigations == old(navigations) + [Location(s.pathname, s.search, s.hash)]) &&
                (tabId !in pages.states ==>
                   restore == None &&
                   navigations == old(navigations) + [PathLocation(tabs[FindById(tabs, tabId).value].path)])
    {
      var index := FindById(tabs, tabId);
      if index.None? {
        return None;
      }
      activeTab := Some(tabId);
      restore := pages.GetPageState(tabId);
      if restore.Some? {
        var s := restore.value;
        navigations := navigations + [Location(s.pathname, s.search, s.hash)];
      } else {
        navigations := navigations + [PathLocation(tabs[index.value].path)];
      }
    }

    /**
     * The page-state effect: whenever the active tab's path is the current
     * location, that tab's page state is saved with the form values and
     * scroll position read from the document.
     */
    method SyncPageState(location: Location, formData: Option<map<string, string>>, scrollX: int, scrollY: int)
      requires Valid()
      modifies pages`states
      ensures activeTab.Some? && tabs[FindById(tabs, activeTab.value).value].path == location.pathname ==>
                pages.states == old(pages.states)[activeTab.value :=
                  PageState(location.pathname, location.search, location.hash, formData, scrollX, scrollY)]
      ensures !(activeTab.Some? && tabs[FindById(tabs, activeTab.value).value].path == location.pathname) ==>
                pages.states == old(pages.states)
    {
      if activeTab.Some? {
        var current := FindById(tabs, activeTab.value);
        if current.Some? && tabs[current.value].path == location.pathname {
          pages.SavePageState(activeTab.value,
            PageState(location.pathname, location.search, location.hash, formData, scrollX, scrollY));
        }
      }
    }

    /** `markTabUnsaved(tabId, unsaved)` */
    method MarkTabUnsaved(tabId: nat, unsaved: bool)
      modifies this`unsavedTabs
      ensures unsavedTabs == if unsaved then old(unsavedTabs) + {tabId} else old(unsavedTabs) - {tabId}
    {
      if unsaved {
        unsavedTabs := unsavedTabs + {tabId};
      } else {
        unsavedTabs := unsavedTabs - {tabId};
      }
    }

    /** `getActiveTabInfo()`: the active tab, found whenever there is an active tab. */
    method GetActiveTabInfo() returns (r: Option<Tab>)
      requires Valid()
      ensures r.Some? <==> activeTab.Some?
      ensures r.Some? ==> r.value in tabs && r.value.id == activeTab.value
    {
      if activeTab.None? {
        return None;
      }
      var i := FindById(tabs, activeTab.value);
      r := Some(tabs[i.value]);
    }
  }
}
