/** The SideNav component as an object whose handlers update its fields
    in place. Every handler is proved to perform exactly the transition
    the NavModel functions describe, so the lemmas there apply to it. */
module SideNavComponent {
  import opened Wrappers
  import opened BuildInfo
  import opened NavModel

  /** The browser's persisted navbar preference: one optional boolean. */
  class LocalStorage {
    var navbarCollapsed: Option<bool>

    constructor (initial: Option<bool>)
      ensures navbarCollapsed == initial
    {
      navbarCollapsed := initial;
    }

    /** A missing key reads as "not collapsed". */
    method IsNavbarCollapsed() returns (collapsed: bool)
      ensures collapsed <==> navbarCollapsed == Some(true)
    {
      collapsed := navbarCollapsed.Some? && navbarCollapsed.value;
    }

    method HasNavbarCollapsedKey() returns (present: bool)
      ensures present <==> navbarCollapsed.Some?
    {
      present := navbarCollapsed.Some?;
    }

    method SaveNavbarCollapsed(value: bool)
      modifies this
      ensures navbarCollapsed == Some(value)
    {
      navbarCollapsed := Some(value);
    }
  }

  class SideNav {
    var state: NavState
    var isMounted: bool
    const storage: LocalStorage

    /** The component's observable state. */
    function Snapshot(): Nav
      reads this, storage
    {
      Nav(state, isMounted, storage.navbarCollapsed)
    }

    constructor (storage: LocalStorage)
      ensures this.storage == storage
      ensures Snapshot() == Construct(storage.navbarCollapsed)
      ensures isMounted && state.manualCollapseState == storage.navbarCollapsed.Some?
    {
      this.storage := storage;
      var collapsed := storage.IsNavbarCollapsed();
      var manual := storage.HasNavbarCollapsedKey();
      state := NavState(None, collapsed, false, manual);
      isMounted := true;
    }

    /** setState guarded by the liveness flag; the optional completion
        callback (persisting `collapsed`) runs only if the write happened. */
    method SetStateSafe(patch: Patch, saveCollapsed: bool)
      modifies this`state, storage
      ensures Snapshot() == NavModel.SetStateSafe(old(Snapshot()), patch, saveCollapsed)
      ensures !isMounted ==> unchanged(this, storage)
    {
      if isMounted {
        state := Merge(state, patch);
        if saveCollapsed {
          storage.SaveNavbarCollapsed(state.collapsed);
        }
      }
    }

    /** The synchronous part of componentDidMount. The resize listener it
        registers is never removed; each firing is a call of MaybeResize. */
    method ComponentDidMount(innerWidth: int)
      modifies this`state, storage
      ensures Snapshot() == NavModel.ComponentDidMount(old(Snapshot()), innerWidth)
    {
      MaybeResize(innerWidth);
    }

    /** The continuation of componentDidMount once both remote calls have
        settled, in whichever order and whatever happened meanwhile. */
    method EnrichmentSettled(build: Fetch<BuildInfoResponse>, hub: Fetch<bool>, formatDate: string -> string)
      modifies this`state, storage
      ensures Snapshot() == EnrichmentSettledStep(old(Snapshot()), build, hub, formatDate)
      ensures isMounted ==> state.collapsed == old(state.collapsed) && state.manualCollapseState == old(state.manualCollapseState)
    {
      var displayBuildInfo: Option<DisplayBuildInfo> := None;
      if build.Resolved? {
        displayBuildInfo := Some(Derive(build.value, formatDate));
      }
      var jupyterHubAvailable := false;
      if hub.Resolved? {
        jupyterHubAvailable := hub.value;
      }
      SetStateSafe(Patch(Some(displayBuildInfo), None, Some(jupyterHubAvailable), None), false);
    }

    method ComponentWillUnmount()
      modifies this`isMounted
      ensures !isMounted && state == old(state)
      ensures Snapshot() == NavModel.ComponentWillUnmount(old(Snapshot()))
    {
      isMounted := false;
    }

    /** The chevron handler. React batches its two writes, so both are
        computed from the state as it was before the click. */
    method ToggleNavClicked()
      modifies this`state, storage
      ensures Snapshot() == NavModel.ToggleNavClicked(old(Snapshot()))
      ensures old(isMounted) ==> state.collapsed == !old(state.collapsed) && state.manualCollapseState &&
                                 storage.navbarCollapsed == Some(state.collapsed)
      ensures !old(isMounted) ==> unchanged(this, storage)
    {
      var clickWrite := Patch(None, Some(!state.collapsed), None, Some(true));
      var collapseWrite := CollapsePatch(None, state);
      SetStateSafe(Then(clickWrite, collapseWrite), true);
    }

    method ToggleNavCollapsed(shouldCollapse: Option<bool>)
      modifies this`state, storage
      ensures Snapshot() == NavModel.ToggleNavCollapsed(old(Snapshot()), shouldCollapse)
    {
      SetStateSafe(CollapsePatch(shouldCollapse, state), false);
    }

    method MaybeResize(innerWidth: int)
      modifies this`state, storage
      ensures Snapshot() == NavModel.MaybeResize(old(Snapshot()), innerWidth)
      ensures old(state.manualCollapseState) ==> unchanged(this, storage)
      ensures old(isMounted) && !old(state.manualCollapseState) ==>
                state == old(state).(collapsed := innerWidth < AUTO_COLLAPSE_WIDTH)
    {
      if !state.manualCollapseState {
        ToggleNavCollapsed(Some(innerWidth < AUTO_COLLAPSE_WIDTH));
      }
    }
  }

  /** A window 500 wide, no stored preference: mounting collapses the
      panel, a click expands it and stores the choice, a resize to 300
      leaves it expanded. */
  method NarrowWindowClient() returns (collapsedAfterMount: bool, storedAfterClick: Option<bool>, collapsedAfterResize: bool)
    ensures collapsedAfterMount
    ensures storedAfterClick == Some(false)
    ensures !collapsedAfterResize
  {
    var storage := new LocalStorage(None);
    var nav := new SideNav(storage);
    nav.ComponentDidMount(500);
    collapsedAfterMount := nav.state.collapsed;
    nav.ToggleNavClicked();
    storedAfterClick := storage.navbarCollapsed;
    nav.MaybeResize(300);
    collapsedAfterResize := nav.state.collapsed;
  }
}
