// The per-tab page-state store: what each tab was showing when it was last
// active, and whether the last tab change came from a tab click or from
// ordinary navigation.
module PageStates {
  import opened Wrappers

  /**
   * A saved page: the router location plus the named form values and the
   * scroll offsets read from the document.
   */
  datatype PageState = PageState(
    pathname: string, search: string, hash: string,
    formData: Option<map<string, string>>, scrollX: int, scrollY: int)

  /** `'tab'` or `'navigation'` */
  datatype NavigationType = TabClick | Navigation

  class PageStateStore {
    /** `pageStates.current`, keyed by tab id */
    var states: map<nat, PageState>
    /** `navigationTypeRef.current` */
    var navigationType: NavigationType

    constructor ()
      ensures states == map[] && navigationType == TabClick
    {
      states := map[];
      navigationType := TabClick;
    }

    method SavePageState(tabId: nat, state: PageState)
      modifies this`states
      ensures states == old(states)[tabId := state]
    {
      states := states[tabId := state];
    }

    /** `getPageState(tabId)`: the saved state, `undefined` when there is none. */
    method GetPageState(tabId: nat) returns (r: Option<PageState>)
      ensures r.Some? <==> tabId in states
      ensures r.Some? ==> r.value == states[tabId]
    {
      r := if tabId in states then Some(states[tabId]) else None;
    }

    method ClearPageState(tabId: nat)
      modifies this`states
      ensures states == old(states) - {tabId}
    {
      states := states - {tabId};
    }

    /** `hasPageState(tabId)` agrees with `getPageState`. */
    method HasPageState(tabId: nat) returns (r: bool)
      ensures r <==> tabId in states
    {
      r := tabId in states;
    }

    method SetNavigationType(navType: NavigationType)
      modifies this`navigationType
      ensures navigationType == navType
    {
      navigationType := navType;
    }

    method GetNavigationType() returns (r: NavigationType)
      ensures r == navigationType
    {
      r := navigationType;
    }
  }
}
