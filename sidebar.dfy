// The navigation sidebar: which menu item a route highlights, which menu
// groups are expanded, and what clicking an item or a sub-item does.
module Sidebar {
  import opened Strings

  /** `expandedItems`: menu group to expanded flag; a missing group reads as collapsed. */
  type Expansion = map<string, bool>

  const INITIAL_EXPANSION: Expansion := map["products" := true, "management" := false, "cases" := false]

  /** The routes matched exactly before the `/management` test. */
  const TOP_ROUTES: seq<string> := ["/doors", "/windows", "/ai-history", "/settings", "/faqs"]

  /** `getActiveItem()`: the first matching rule wins, and `'products'` is the default. */
  function GetActiveItem(path: string): (item: string)
    ensures path !in TOP_ROUTES && Contains(path, "/management") &&
            path != "/management/users" && path != "/management/documents" ==>
              item == "management"
    ensures path !in TOP_ROUTES && !Contains(path, "/management") && Contains(path, "/cases") &&
            path != "/cases/dashboard" && path != "/cases" ==>
              item == "cases"
    ensures path !in TOP_ROUTES && !Contains(path, "/management") && !Contains(path, "/cases") ==>
              item == "products"
  {
    if path == "/doors" then "doors"
    else if path == "/windows" then "windows"
    else if path == "/ai-history" then "history"
    else if path == "/settings" then "settings"
    else if path == "/faqs" then "faqs"
    else if path == "/management/users" then "user-management"
    else if path == "/management/documents" then "document-management"
    else if Contains(path, "/management") then "management"
    else if path == "/cases/dashboard" then "cases-dashboard"
    else if path == "/cases" then "all-cases"
    else if Contains(path, "/cases") then "cases"
    else if path == "/home" then "products"
    else "products"
  }

  /** None of the exactly matched top-level routes contains `/management` or `/cases`. */
  lemma TopLevelRoutes(path: string)
    requires path in TOP_ROUTES || path == "/home"
    ensures !Contains(path, "/management") && !Contains(path, "/cases")
  {
    assert forall k :: 1 <= k < |path| ==> path[k] != '/';
    assert path[1] in "dwasfh";
    NotContainedAfterStart(path, "/management");
    NotContainedAfterStart(path, "/cases");
  }

  /** When the first character of `t` occurs in `s` only at the start, `t` can only occur as a prefix. */
  lemma NotContainedAfterStart(s: string, t: string)
    requires t != [] && !(t <= s)
    requires forall k :: 1 <= k < |s| ==> s[k] != t[0]
    ensures !Contains(s, t)
  {
    if s != [] {
      NotContainedWithout(s[1..], t);
    }
  }

  lemma {:induction false} NotContainedWithout(s: string, t: string)
    requires t != [] && forall k :: 0 <= k < |s| ==> s[k] != t[0]
    ensures !Contains(s, t)
  {
    if s != [] {
      assert !(t <= s) by { assert s[0] != t[0]; }
      NotContainedWithout(s[1..], t);
    }
  }

  /**
   * The location effect computes the active item with its own `else if`
   * chain over a variable that starts as `'products'`; it agrees with
   * `getActiveItem` on every route.
   */
  method ActiveItemForLocation(path: string) returns (current: string)
    ensures current == GetActiveItem(path)
  {
    current := "products";
    if path == "/doors" { current := "doors"; }
    else if path == "/windows" { current := "windows"; }
    else if path == "/ai-history" { current := "history"; }
    else if path == "/settings" { current := "settings"; }
    else if path == "/faqs" { current := "faqs"; }
    else if path == "/management/users" { current := "user-management"; }
    else if path == "/management/documents" { current := "document-management"; }
    else if Contains(path, "/management") { current := "management"; }
    else if path == "/cases/dashboard" { current := "cases-dashboard"; }
    else if path == "/cases" { current := "all-cases"; }
    else if Contains(path, "/cases") { current := "cases"; }
    else if path == "/home" { current := "products"; }
  }

  /** The group the effect expands for a route, if any. */
  function ExpandedGroup(path: string): (g: string)
    ensures g in {"cases", "management", "products", ""}
  {
    if Contains(path, "/cases") then "cases"
    else if Contains(path, "/management") then "management"
    else if path == "/doors" || path == "/windows" then "products"
    else ""
  }

  /** `setExpandedItems(prev => ({ ...prev, [group]: true }))` for the route's group. */
  function AutoExpanded(m: Expansion, path: string): (r: Expansion)
    ensures ExpandedGroup(path) == "" ==> r == m
    ensures ExpandedGroup(path) != "" ==> r == m[ExpandedGroup(path) := true]
  {
    var g := ExpandedGroup(path);
    if g == "" then m else m[g := true]
  }

  /** Auto-expansion sets at most one group, to true, and never collapses one. */
  lemma AutoExpandNeverCollapses(m: Expansion, path: string)
    ensures var r := AutoExpanded(m, path);
            m.Keys <= r.Keys &&
            (forall k :: k in m && m[k] ==> r[k]) &&
            (forall k :: k in r && k != ExpandedGroup(path) ==> k in m && r[k] == m[k])
  {
  }

  /** `toggleExpanded(item)`: `!prev[item]`, where a missing group reads as collapsed. */
  function Toggled(m: Expansion, item: string): (r: Expansion)
    ensures item in r && r[item] == !(item in m && m[item])
    ensures forall k :: k != item ==> (k in r <==> k in m) && (k in m ==> r[k] == m[k])
  {
    m[item := !(item in m && m[item])]
  }

  /** Toggling a group twice restores it when it was present, and leaves it collapsed otherwise. */
  lemma ToggleTwice(m: Expansion, item: string)
    ensures item in m ==> Toggled(Toggled(m, item), item) == m
    ensures item !in m ==> Toggled(Toggled(m, item), item) == m[item := false]
  {
    var r := Toggled(Toggled(m, item), item);
    if item in m {
      assert r.Keys == m.Keys;
    }
  }

  /** The sidebar's state. */
  class SidebarState {
    var expandedItems: Expansion
    var activeItem: string
    /** Every path passed to `navigate`, in order. */
    var navigations: seq<string>

    constructor (path: string)
      ensures expandedItems == INITIAL_EXPANSION && activeItem == GetActiveItem(path) && navigations == []
    {
      expandedItems := INITIAL_EXPANSION;
      activeItem := GetActiveItem(path);
      navigations := [];
    }

    /** The location effect: highlight the route's item and expand its group. */
    method OnLocationChange(path: string)
      modifies this`activeItem, this`expandedItems
      ensures activeItem == GetActiveItem(path)
      ensures expandedItems == AutoExpanded(old(expandedItems), path)
    {
      activeItem := ActiveItemForLocation(path);
      expandedItems := AutoExpanded(expandedItems, path);
    }

    method ToggleExpanded(item: string)
      modifies this`expandedItems
      ensures expandedItems == Toggled(old(expandedItems), item)
    {
      expandedItems := Toggled(expandedItems, item);
    }

    /** `handleItemClick`: the three groups only toggle; history, FAQs and settings navigate. */
    method HandleItemClick(item: string)
      modifies this`activeItem, this`expandedItems, this`navigations
      ensures activeItem == item
      ensures item in {"products", "management", "cases"} ==>
                expandedItems == Toggled(old(expandedItems), item) && navigations == old(navigations)
      ensures item !in {"products", "management", "cases"} ==> expandedItems == old(expandedItems)
      ensures item == "history" ==> navigations == old(navigations) + ["/ai-history"]
      ensures item == "faqs" ==> navigations == old(navigations) + ["/faqs"]
      ensures item == "settings" ==> navigations == old(navigations) + ["/settings"]
      ensures item !in {"history", "faqs", "settings"} ==> navigations == old(navigations)
    {
      activeItem := item;
      if item == "products" || item == "management" || item == "cases" {
        ToggleExpanded(item);
      } else if item == "history" {
        navigations := navigations + ["/ai-history"];
      } else if item == "faqs" {
        navigations := navigations + ["/faqs"];
      } else if item == "settings" {
        navigations := navigations + ["/settings"];
      }
    }

    /** `handleSubitemClick`: highlight the sub-item and open its route, when it has one. */
    method HandleSubitemClick(subitem: string)
      modifies this`activeItem, this`navigations
      ensures activeItem == subitem
      ensures SubitemRoute(subitem) != "" ==> navigations == old(navigations) + [SubitemRoute(subitem)]
      ensures SubitemRoute(subitem) == "" ==> navigations == old(navigations)
    {
      activeItem := subitem;
      var route := SubitemRoute(subitem);
      if route != "" {
        navigations := navigations + [route];
      }
    }
  }

  /** The route of a sub-item, `""` for sub-items that do not navigate. */
  function SubitemRoute(subitem: string): (route: string)
    ensures route == "" || route[0] == '/'
  {
    if subitem == "doors" then "/doors"
    else if subitem == "windows" then "/windows"
    else if subitem == "cases-dashboard" then "/cases/dashboard"
    else if subitem == "user-management" then "/management/users"
    else if subitem == "document-management" then "/management/documents"
    else ""
  }

  /** Opening a sub-item's route highlights that same sub-item again. */
  lemma SubitemRouteHighlightsSubitem(subitem: string)
    requires SubitemRoute(subitem) != ""
    ensures GetActiveItem(SubitemRoute(subitem)) == subitem
  {
    var route := SubitemRoute(subitem);
    if subitem == "doors" || subitem == "windows" {
      TopLevelRoutes(route);
    } else if subitem == "cases-dashboard" {
      assert route !in TOP_ROUTES;
      if Contains(route, "/management") {
        ContainsHasChars(route, "/management", 'm');
        assert false;
      }
    }
  }
}
