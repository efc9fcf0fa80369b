/** The navigation-visibility controller of SideNav as transition functions
    over the component's observable state: its React state, the liveness
    flag cleared on unmount, and the persisted collapse preference. */
module NavModel {
  import opened Wrappers
  import opened BuildInfo

  /** Viewports narrower than this collapse the panel automatically. */
  const AUTO_COLLAPSE_WIDTH: int := 800

  /** The component's React state. */
  datatype NavState = NavState(
    displayBuildInfo: Option<DisplayBuildInfo>,
    collapsed: bool,
    jupyterHubAvailable: bool,
    manualCollapseState: bool)

  /** A partial state given to setState: a field is written when its entry
      is Some. For displayBuildInfo, Some(None) writes `undefined`. */
  datatype Patch = Patch(
    displayBuildInfo: Option<Option<DisplayBuildInfo>>,
    collapsed: Option<bool>,
    jupyterHubAvailable: Option<bool>,
    manualCollapseState: Option<bool>)

  /** The component as the rest of the page sees it: its state, whether it
      is still mounted, and the persisted preference (None: no key stored). */
  datatype Nav = Nav(state: NavState, mounted: bool, stored: Option<bool>)

  /** What a user or the browser can do to a constructed component. */
  datatype Event =
    | Mount(innerWidth: int)
    | Resize(innerWidth: int)
    | ChevronClick
    | EnrichmentSettled(build: Fetch<BuildInfoResponse>, hub: Fetch<bool>)
    | Unmount

  function Override<T>(current: T, written: Option<T>): T {
    if written.Some? then written.value else current
  }

  /** React's merge of a partial state into the current one. */
  function Merge(s: NavState, p: Patch): NavState {
    NavState(
      Override(s.displayBuildInfo, p.displayBuildInfo),
      Override(s.collapsed, p.collapsed),
      Override(s.jupyterHubAvailable, p.jupyterHubAvailable),
      Override(s.manualCollapseState, p.manualCollapseState))
  }

  /** Two writes batched into one update: the later one wins per field. */
  function Then(first: Patch, second: Patch): Patch {
    Patch(
      if second.displayBuildInfo.Some? then second.displayBuildInfo else first.displayBuildInfo,
      if second.collapsed.Some? then second.collapsed else first.collapsed,
      if second.jupyterHubAvailable.Some? then second.jupyterHubAvailable else first.jupyterHubAvailable,
      if second.manualCollapseState.Some? then second.manualCollapseState else first.manualCollapseState)
  }

  /** Construction seeds the state from the stored preference. */
  function Construct(stored: Option<bool>): Nav {
    Nav(NavState(None, stored == Some(true), false, stored.Some?), true, stored)
  }

  /** setStateSafe: write only while mounted; when `saveCollapsed` is set,
      the completion callback then persists the committed `collapsed`. */
  function SetStateSafe(n: Nav, p: Patch, saveCollapsed: bool): Nav {
    if n.mounted then
      var s := Merge(n.state, p);
      Nav(s, true, if saveCollapsed then Some(s.collapsed) else n.stored)
    else n
  }

  /** The write of _toggleNavCollapsed: the requested value, or the
      negation of `collapsed` in the state it reads. */
  function CollapsePatch(shouldCollapse: Option<bool>, s: NavState): Patch {
    Patch(None, Some(if shouldCollapse.Some? then shouldCollapse.value else !s.collapsed), None, None)
  }

  function ToggleNavCollapsed(n: Nav, shouldCollapse: Option<bool>): Nav {
    SetStateSafe(n, CollapsePatch(shouldCollapse, n.state), false)
  }

  function MaybeResize(n: Nav, innerWidth: int): Nav {
    if !n.state.manualCollapseState then ToggleNavCollapsed(n, Some(innerWidth < AUTO_COLLAPSE_WIDTH))
    else n
  }

  /** The chevron handler. Its two writes are batched by React, so both
      read the pre-click state; the save callback runs after the commit. */
  function ToggleNavClicked(n: Nav): Nav {
    var first := Patch(None, Some(!n.state.collapsed), None, Some(true));
    SetStateSafe(n, Then(first, CollapsePatch(None, n.state)), true)
  }

  /** The synchronous part of componentDidMount: one resize check. */
  function ComponentDidMount(n: Nav, innerWidth: int): Nav {
    MaybeResize(n, innerWidth)
  }

  function ComponentWillUnmount(n: Nav): Nav {
    n.(mounted := false)
  }

  /** The single write made once both remote calls have settled; each
      rejection leaves its field at the default (undefined / false). */
  function EnrichmentPatch(build: Fetch<BuildInfoResponse>, hub: Fetch<bool>, formatDate: string -> string): Patch {
    Patch(Some(BuildInfoShown(build, formatDate)), None, Some(HubShown(hub)), None)
  }

  /** The build info written after the build-info call settled. */
  function BuildInfoShown(build: Fetch<BuildInfoResponse>, formatDate: string -> string): Option<DisplayBuildInfo> {
    if build.Resolved? then Some(Derive(build.value, formatDate)) else None
  }

  /** The hub availability written after the hub probe settled. */
  function HubShown(hub: Fetch<bool>): bool {
    if hub.Resolved? then hub.value else false
  }

  function EnrichmentSettledStep(n: Nav, build: Fetch<BuildInfoResponse>, hub: Fetch<bool>, formatDate: string -> string): Nav {
    SetStateSafe(n, EnrichmentPatch(build, hub, formatDate), false)
  }

  function Step(n: Nav, e: Event, formatDate: string -> string): Nav {
    match e
    case Mount(w) => ComponentDidMount(n, w)
    case Resize(w) => MaybeResize(n, w)
    case ChevronClick => ToggleNavClicked(n)
    case EnrichmentSettled(build, hub) => EnrichmentSettledStep(n, build, hub, formatDate)
    case Unmount => ComponentWillUnmount(n)
  }

  /** The component after a sequence of events, in arrival order. */
  function Run(n: Nav, events: seq<Event>, formatDate: string -> string): Nav
    decreases |events|
  {
    if events == [] then n else Run(Step(n, events[0], formatDate), events[1..], formatDate)
  }

  // ---------------------------------------------------------------------
  // Single transitions

  /** A stored preference is a manual choice: it is restored and locks out
      automatic collapsing; with no key the panel starts expanded and
      automatic. Construction writes nothing to storage. */
  lemma ConstructFromStoredPreference(stored: Option<bool>)
    ensures var n := Construct(stored);
      n.mounted && n.stored == stored &&
      n.state.manualCollapseState == stored.Some? &&
      (stored.Some? ==> n.state.collapsed == stored.value) &&
      (stored.None? ==> !n.state.collapsed) &&
      n.state.displayBuildInfo.None? && !n.state.jupyterHubAvailable
  {
  }

  /** Mounting with no stored preference collapses the panel exactly when
      the viewport is narrower than the threshold, and leaves it automatic. */
  lemma MountWithoutPreference(innerWidth: int, formatDate: string -> string)
    ensures var n := Step(Construct(None), Mount(innerWidth), formatDate);
      n.state.collapsed == (innerWidth < AUTO_COLLAPSE_WIDTH) && !n.state.manualCollapseState &&
      n.mounted && n.stored == None
  {
  }

  /** Mounting with a stored preference keeps the stored value whatever
      the viewport width. */
  lemma MountWithStoredPreference(stored: bool, innerWidth: int, formatDate: string -> string)
    ensures var n := Step(Construct(Some(stored)), Mount(innerWidth), formatDate);
      n.state.collapsed == stored && n.state.manualCollapseState && n.stored == Some(stored)
  {
  }

  /** While no manual choice exists, a resize makes `collapsed` follow the
      width threshold and changes nothing else. */
  lemma ResizeWhileAutomatic(n: Nav, innerWidth: int)
    requires n.mounted && !n.state.manualCollapseState
    ensures MaybeResize(n, innerWidth) == n.(state := n.state.(collapsed := innerWidth < AUTO_COLLAPSE_WIDTH))
  {
  }

  /** After a manual choice a resize is a no-op. */
  lemma ResizeAfterManualChoice(n: Nav, innerWidth: int)
    requires n.state.manualCollapseState
    ensures MaybeResize(n, innerWidth) == n
  {
  }

  /** A click on the chevron while mounted flips `collapsed` exactly once,
      records the manual choice and persists the new value; the
      enrichment fields are untouched. */
  lemma ToggleFlipsAndPersists(n: Nav)
    requires n.mounted
    ensures var m := ToggleNavClicked(n);
      m.state == n.state.(collapsed := !n.state.collapsed, manualCollapseState := true) &&
      m.mounted && m.stored == Some(m.state.collapsed)
  {
  }

  /** Toggling twice restores `collapsed`; the manual flag stays set. */
  lemma ToggleTwiceRestores(n: Nav)
    requires n.mounted
    ensures ToggleNavClicked(ToggleNavClicked(n)).state.collapsed == n.state.collapsed
    ensures ToggleNavClicked(ToggleNavClicked(n)).state.manualCollapseState
  {
    ToggleFlipsAndPersists(n);
    ToggleFlipsAndPersists(ToggleNavClicked(n));
  }

  /** A choice made by a click survives a reload: a component constructed
      from what the click stored shows the same `collapsed` and treats it
      as a manual choice. */
  lemma ClickedChoiceRestoredOnRemount(n: Nav)
    requires n.mounted
    ensures var m := ToggleNavClicked(n);
      var r := Construct(m.stored);
      r.state.collapsed == m.state.collapsed && r.state.manualCollapseState && r.stored == m.stored
  {
    ToggleFlipsAndPersists(n);
  }

  /** Once unmounted, no event changes anything: the state, the liveness
      flag and the stored preference all stay as they are. */
  lemma StepAfterUnmount(n: Nav, e: Event, formatDate: string -> string)
    requires !n.mounted
    ensures Step(n, e, formatDate) == n
  {
  }

  /** The enrichment write touches only the enrichment fields: it never
      changes visibility, the liveness flag or the stored preference. */
  lemma EnrichmentLeavesVisibility(n: Nav, build: Fetch<BuildInfoResponse>, hub: Fetch<bool>, formatDate: string -> string)
    ensures var m := EnrichmentSettledStep(n, build, hub, formatDate);
      m.state.collapsed == n.state.collapsed &&
      m.state.manualCollapseState == n.state.manualCollapseState &&
      m.mounted == n.mounted && m.stored == n.stored
  {
  }

  /** While mounted, a rejected build-info call leaves displayBuildInfo
      undefined and a rejected hub probe leaves jupyterHubAvailable false;
      a resolved call writes its result. */
  lemma EnrichmentOutcomes(n: Nav, build: Fetch<BuildInfoResponse>, hub: Fetch<bool>, formatDate: string -> string)
    requires n.mounted
    ensures var m := EnrichmentSettledStep(n, build, hub, formatDate);
      (build.Rejected? ==> m.state.displayBuildInfo == None) &&
      (build.Resolved? ==> m.state.displayBuildInfo == Some(Derive(build.value, formatDate))) &&
      (hub.Rejected? ==> !m.state.jupyterHubAvailable) &&
      (hub.Resolved? ==> m.state.jupyterHubAvailable == hub.value)
  {
  }

  /** Neither remote call's outcome affects the other's field: a failure
      of one does not block the other's result from being written. */
  lemma EnrichmentFieldsIndependent(n: Nav, build: Fetch<BuildInfoResponse>, build': Fetch<BuildInfoResponse>,
                                     hub: Fetch<bool>, hub': Fetch<bool>, formatDate: string -> string)
    ensures EnrichmentSettledStep(n, build, hub, formatDate).state.displayBuildInfo
         == EnrichmentSettledStep(n, build, hub', formatDate).state.displayBuildInfo
    ensures EnrichmentSettledStep(n, build, hub, formatDate).state.jupyterHubAvailable
         == EnrichmentSettledStep(n, build', hub, formatDate).state.jupyterHubAvailable
  {
  }

  // ---------------------------------------------------------------------
  // Sequences of events

  /** After unmount, no sequence of events changes the component. */
  lemma {:induction false} RunAfterUnmount(n: Nav, events: seq<Event>, formatDate: string -> string)
    requires !n.mounted
    ensures Run(n, events, formatDate) == n
    decreases |events|
  {
    if events != [] {
      StepAfterUnmount(n, events[0], formatDate);
      RunAfterUnmount(n, events[1..], formatDate);
    }
  }

  /** The manual flag is monotonic: once set it survives every event. */
  lemma {:induction false} ManualChoiceIsSticky(n: Nav, events: seq<Event>, formatDate: string -> string)
    requires n.state.manualCollapseState
    ensures Run(n, events, formatDate).state.manualCollapseState
    decreases |events|
  {
    if events != [] {
      ManualChoiceIsSticky(Step(n, events[0], formatDate), events[1..], formatDate);
    }
  }

  /** Once a manual choice exists, whatever happens afterwards, a resize
      never changes anything. */
  lemma ResizeInertAfterManualChoice(n: Nav, events: seq<Event>, innerWidth: int, formatDate: string -> string)
    requires n.state.manualCollapseState
    ensures var m := Run(n, events, formatDate);
      Step(m, Resize(innerWidth), formatDate) == m
  {
    ManualChoiceIsSticky(n, events, formatDate);
  }

  /** Only chevron clicks write the stored preference. */
  lemma {:induction false} StorageWrittenOnlyByClicks(n: Nav, events: seq<Event>, formatDate: string -> string)
    requires forall i :: 0 <= i < |events| ==> !events[i].ChevronClick?
    ensures Run(n, events, formatDate).stored == n.stored
    decreases |events|
  {
    if events != [] {
      StorageWrittenOnlyByClicks(Step(n, events[0], formatDate), events[1..], formatDate);
    }
  }

  /** Without a manual choice, after a run of resizes the panel is
      collapsed exactly when the last width is below the threshold. */
  lemma {:induction false} AutomaticFollowsLastResize(n: Nav, events: seq<Event>, formatDate: string -> string)
    requires n.mounted && !n.state.manualCollapseState
    requires events != [] && forall i :: 0 <= i < |events| ==> events[i].Resize?
    ensures var m := Run(n, events, formatDate);
      m.state.collapsed == (events[|events| - 1].innerWidth < AUTO_COLLAPSE_WIDTH) &&
      !m.state.manualCollapseState && m.mounted
    decreases |events|
  {
    var next := Step(n, events[0], formatDate);
    ResizeWhileAutomatic(n, events[0].innerWidth);
    if |events| > 1 {
      AutomaticFollowsLastResize(next, events[1..], formatDate);
      assert events[1..][|events| - 2] == events[|events| - 1];
    } else {
      assert events[1..] == [];
    }
  }

  /** A run of k chevron clicks while mounted leaves `collapsed` flipped
      k times, the manual flag set if k > 0, and the stored preference
      equal to the displayed state. */
  lemma {:induction false} ClicksFlipParity(n: Nav, events: seq<Event>, formatDate: string -> string)
    requires n.mounted
    requires forall i :: 0 <= i < |events| ==> events[i].ChevronClick?
    ensures var m := Run(n, events, formatDate);
      m.mounted &&
      m.state.collapsed == (if |events| % 2 == 0 then n.state.collapsed else !n.state.collapsed) &&
      m.state.manualCollapseState == (n.state.manualCollapseState || |events| > 0) &&
      (|events| > 0 ==> m.stored == Some(m.state.collapsed)) &&
      m.state.displayBuildInfo == n.state.displayBuildInfo &&
      m.state.jupyterHubAvailable == n.state.jupyterHubAvailable
    decreases |events|
  {
    if events != [] {
      ToggleFlipsAndPersists(n);
      ClicksFlipParity(Step(n, events[0], formatDate), events[1..], formatDate);
    }
  }

  /** Running two event sequences one after the other is running their
      concatenation. */
  lemma {:induction false} RunConcat(n: Nav, a: seq<Event>, b: seq<Event>, formatDate: string -> string)
    ensures Run(n, a + b, formatDate) == Run(Run(n, a, formatDate), b, formatDate)
    decreases |a|
  {
    if a != [] {
      assert (a + b)[0] == a[0] && (a + b)[1..] == a[1..] + b;
      RunConcat(Step(n, a[0], formatDate), a[1..], b, formatDate);
    } else {
      assert a + b == b;
    }
  }

  /** Only the settlement of the remote calls writes the enrichment fields. */
  lemma {:induction false} EnrichmentWrittenOnlyBySettlement(n: Nav, events: seq<Event>, formatDate: string -> string)
    requires forall i :: 0 <= i < |events| ==> !events[i].EnrichmentSettled?
    ensures Run(n, events, formatDate).state.displayBuildInfo == n.state.displayBuildInfo
    ensures Run(n, events, formatDate).state.jupyterHubAvailable == n.state.jupyterHubAvailable
    decreases |events|
  {
    if events != [] {
      EnrichmentWrittenOnlyBySettlement(Step(n, events[0], formatDate), events[1..], formatDate);
    }
  }

  /** In a run with at most one settlement, as componentDidMount gives
      each instance, the enrichment fields are either still what they were
      or exactly what that one settlement wrote: a later event never erases
      or replaces the build info or hub flag. */
  lemma EnrichmentWrittenAtMostOnce(n: Nav, events: seq<Event>, formatDate: string -> string)
    requires forall i, j :: 0 <= i < j < |events| && events[i].EnrichmentSettled? ==> !events[j].EnrichmentSettled?
    ensures var r := Run(n, events, formatDate).state;
      (r.displayBuildInfo == n.state.displayBuildInfo && r.jupyterHubAvailable == n.state.jupyterHubAvailable) ||
      exists i :: 0 <= i < |events| && events[i].EnrichmentSettled? &&
        r.displayBuildInfo == BuildInfoShown(events[i].build, formatDate) &&
        r.jupyterHubAvailable == HubShown(events[i].hub)
  {
    if forall i :: 0 <= i < |events| ==> !events[i].EnrichmentSettled? {
      EnrichmentWrittenOnlyBySettlement(n, events, formatDate);
    } else {
      var i :| 0 <= i < |events| && events[i].EnrichmentSettled?;
      var before, after := events[..i], events[i + 1..];
      assert events == before + ([events[i]] + after);
      RunConcat(n, before, [events[i]] + after, formatDate);
      var m := Run(n, before, formatDate);
      assert forall k :: 0 <= k < |before| ==> !before[k].EnrichmentSettled? by {
        forall k | 0 <= k < |before| ensures !before[k].EnrichmentSettled? {
          assert before[k] == events[k];
        }
      }
      EnrichmentWrittenOnlyBySettlement(n, before, formatDate);
      var settled := Step(m, events[i], formatDate);
      assert Run(m, [events[i]] + after, formatDate) == Run(settled, after, formatDate) by {
        assert ([events[i]] + after)[0] == events[i] && ([events[i]] + after)[1..] == after;
      }
      assert forall k :: 0 <= k < |after| ==> !after[k].EnrichmentSettled? by {
        forall k | 0 <= k < |after| ensures !after[k].EnrichmentSettled? {
          assert after[k] == events[i + 1 + k];
        }
      }
      EnrichmentWrittenOnlyBySettlement(settled, after, formatDate);
    }
  }

  /** A narrow window with no stored preference: mounting collapses the
      panel, a click expands it and makes the choice manual, and a later
      resize to an even narrower window leaves it expanded. */
  lemma NarrowWindowScenario(formatDate: string -> string)
    ensures var mounted := Step(Construct(None), Mount(500), formatDate);
      var clicked := Step(mounted, ChevronClick, formatDate);
      var resized := Step(clicked, Resize(300), formatDate);
      mounted.state.collapsed && !mounted.state.manualCollapseState &&
      !clicked.state.collapsed && clicked.state.manualCollapseState && clicked.stored == Some(false) &&
      resized == clicked
  {
  }
}
