# SideNav navigation-visibility controller, in Dafny

This project models the logic core of the Kubeflow Pipelines web console's
side navigation panel (`frontend/src/components/SideNav.tsx`):

- the **collapse state machine**: `collapsed` and `manualCollapseState` in
  the component state, the `_isMounted` liveness flag, and the persisted
  "navbar collapsed" preference. Construction seeds the state from the
  stored preference. A viewport resize sets `collapsed` to
  `innerWidth < 800` only while no manual choice exists. A chevron click
  flips `collapsed`, sets the sticky manual flag and persists the new value.
  Every write goes through `setStateSafe`, which drops it after unmount;
- the **enrichment write** at the end of `componentDidMount`: the build-info
  response and the JupyterHub probe are taken as inputs (resolved value or
  rejection) and written together in one guarded write;
- the **build-info derivation**: commit hash, link text of at most seven characters,
  commit URL and build date;
- the **active-button predicates**: Experiments highlighting, the Pipelines
  prefix test and the Archive exact-match test.

Files:

- `wrappers.dfy`: `Option` (a TypeScript optional) and `Fetch` (the
  settled outcome of an awaited call).
- `build_info.dfy`: module `BuildInfo`, the pure derivation of
  `DisplayBuildInfo`.
- `active_route.dfy`: module `ActiveRoute`. The router's `RoutePage`
  constants are defined in a file that is not part of this model, so they
  are the fields of a `RoutePages` parameter. `'/recurringrun'` is the
  literal used by the component.
- `nav_model.dfy`: module `NavModel`, the component as transition
  functions over `Nav` (state, liveness flag, stored preference). It has
  an `Event` type, `Step` and `Run` over event sequences, and the lemmas
  about them.
- `side_nav.dfy`: module `SideNavComponent`. `SideNav` is a class whose
  fields the handlers update in place. `LocalStorage` is a class holding
  the stored preference. Every `SideNav` method is proved to take
  `Snapshot()` exactly along the matching `NavModel` function, so the
  `NavModel` lemmas hold of the object.

Modelling decisions:

- `_toggleNavClicked` issues two writes of `collapsed: !this.state.collapsed`
  (lines 350 and 358). React batches the writes of an event handler, so
  both read the pre-click state. The model composes them into one update
  with `Then`, so the net effect is a single flip. The save callback then
  persists the committed `collapsed`. `NavModel.ToggleFlipsAndPersists`
  proves the net effect.
- `componentDidMount` is split in two. `ComponentDidMount(innerWidth)` is
  the synchronous part (listener registration, then one `_maybeResize`).
  `EnrichmentSettled(build, hub, formatDate)` is the continuation after
  both awaits: the single guarded write of line 227. Any events, including
  unmount, may come between the two.
- The resize listener is never removed. `MaybeResize` may be called at
  any time, and only the liveness guard makes a later resize harmless
  (`NavModel.StepAfterUnmount`).
- The two remote calls are awaited one after the other, and both results
  are written in one call. The model has one write after both settle.
- The guards on the hashes and on `buildDate` use JavaScript truthiness,
  so an empty string counts as missing.
- `LocalStorage` is defined in a file that is not part of this model. It
  is modelled as one `Option<bool>`. A missing key reads as "not
  collapsed", and `hasKey` is "the key is present".
- `window.innerWidth` is an `int` parameter, since the browser reports it
  as an integer.

## Model

| member | source | states |
|---|---|---|
| `SideNavComponent.SideNav.constructor` | frontend/src/components/SideNav.tsx:188-198 | the new component is mounted; `collapsed` is the stored value and `manualCollapseState` holds exactly when a preference is stored |
| `NavModel.ConstructFromStoredPreference` | frontend/src/components/SideNav.tsx:188-198 | a stored preference p gives `collapsed == p` and the manual flag set; no stored key gives an expanded, automatic panel; no build info, hub unavailable, storage untouched |
| `SideNavComponent.SideNav.SetStateSafe` | frontend/src/components/SideNav.tsx:368-372 | writes merge into the state only while mounted; the save callback runs only after a write that happened; after unmount nothing changes |
| `SideNavComponent.SideNav.ComponentWillUnmount` | frontend/src/components/SideNav.tsx:230-232 | clears the liveness flag and leaves the state as it was |
| `SideNavComponent.SideNav.ComponentDidMount` | frontend/src/components/SideNav.tsx:200-202 | mounting performs one resize check with the current width |
| `SideNavComponent.SideNav.MaybeResize` | frontend/src/components/SideNav.tsx:362-366 | with a manual choice a resize changes nothing; otherwise, while mounted, `collapsed` becomes `innerWidth < 800` and nothing else changes |
| `SideNavComponent.SideNav.ToggleNavCollapsed` | frontend/src/components/SideNav.tsx:356-360 | writes the requested `collapsed`, or the negation of the current one, through the guarded write |
| `SideNavComponent.SideNav.ToggleNavClicked` | frontend/src/components/SideNav.tsx:348-354 | while mounted, one click flips `collapsed`, sets the manual flag and stores the new `collapsed`; after unmount nothing changes and nothing is stored |
| `SideNavComponent.SideNav.EnrichmentSettled` | frontend/src/components/SideNav.tsx:204-227 | one guarded write of the derived build info (or undefined on rejection) and the hub result (or false on rejection); visibility untouched |
| `SideNavComponent.NarrowWindowClient` | frontend/src/components/SideNav.tsx:348-366 | on the object, width 500 with no stored preference: it returns that mount collapses, that the click stores `false`, and that a resize to 300 leaves the panel expanded |
| `SideNavComponent.LocalStorage.SaveNavbarCollapsed` | frontend/src/components/SideNav.tsx:352 | afterwards the stored preference is the saved value |
| `NavModel.ClickedChoiceRestoredOnRemount` | frontend/src/components/SideNav.tsx:191-197 | what a click stores is read back on the next construction: the restored component shows the clicked `collapsed` and treats it as a manual choice |
| `NavModel.MountWithoutPreference` | frontend/src/components/SideNav.tsx:200-202 | with no stored preference, after mount at any width w the panel is collapsed exactly when w < 800, stays automatic and nothing is stored |
| `NavModel.MountWithStoredPreference` | frontend/src/components/SideNav.tsx:191-202 | with a stored preference p, after mount at any width the panel shows p and the manual flag is set |
| `NavModel.ResizeWhileAutomatic` | frontend/src/components/SideNav.tsx:362-366 | mounted and with no manual choice, a resize sets `collapsed == (w < 800)` (the threshold is the constant of line 185) and changes nothing else |
| `NavModel.ResizeAfterManualChoice` | frontend/src/components/SideNav.tsx:362-366 | with the manual flag set, a resize leaves the component unchanged |
| `NavModel.ToggleFlipsAndPersists` | frontend/src/components/SideNav.tsx:348-360 | the two batched writes of a click flip `collapsed` exactly once, set the manual flag, and the stored preference equals the new `collapsed`; enrichment fields untouched |
| `NavModel.ToggleTwiceRestores` | frontend/src/components/SideNav.tsx:348-353 | two clicks restore `collapsed` and leave the manual flag set |
| `NavModel.StepAfterUnmount` | frontend/src/components/SideNav.tsx:368-372 | once unmounted, no resize, click, enrichment completion or mount changes the state, the flag or the stored preference |
| `NavModel.RunAfterUnmount` | frontend/src/components/SideNav.tsx:230-232 | once unmounted, no sequence of events changes anything |
| `NavModel.ManualChoiceIsSticky` | frontend/src/components/SideNav.tsx:351 | the manual flag, once set, stays set through any sequence of events |
| `NavModel.ResizeInertAfterManualChoice` | frontend/src/components/SideNav.tsx:362-366 | once the manual flag is set, after any sequence of events a resize is a no-op |
| `NavModel.StorageWrittenOnlyByClicks` | frontend/src/components/SideNav.tsx:352 | a sequence of events with no chevron click leaves the stored preference unchanged |
| `NavModel.AutomaticFollowsLastResize` | frontend/src/components/SideNav.tsx:362-366 | mounted and automatic, after a non-empty run of resizes the panel is collapsed exactly when the last width is below 800, and stays automatic |
| `NavModel.ClicksFlipParity` | frontend/src/components/SideNav.tsx:348-354 | k clicks while mounted flip `collapsed` k times, set the manual flag when k > 0, store the displayed value, and leave the enrichment fields alone |
| `NavModel.NarrowWindowScenario` | frontend/src/components/SideNav.tsx:200-366 | width 500, no stored preference: mount collapses; a click expands, sets the manual flag and stores false; a resize to 300 changes nothing |
| `NavModel.EnrichmentLeavesVisibility` | frontend/src/components/SideNav.tsx:227 | the enrichment write never changes `collapsed`, the manual flag, the liveness flag or the stored preference |
| `NavModel.EnrichmentOutcomes` | frontend/src/components/SideNav.tsx:204-227 | a rejected build-info call leaves `displayBuildInfo` undefined, a rejected hub probe leaves `jupyterHubAvailable` false; resolved calls write their results |
| `NavModel.EnrichmentFieldsIndependent` | frontend/src/components/SideNav.tsx:204-227 | the build-info field does not depend on the hub outcome and the hub field does not depend on the build-info outcome |
| `NavModel.EnrichmentWrittenOnlyBySettlement` | frontend/src/components/SideNav.tsx:227 | no resize, click, mount or unmount writes the build info or the hub flag; only the write after both remote calls settle does |
| `NavModel.EnrichmentWrittenAtMostOnce` | frontend/src/components/SideNav.tsx:200-227 | in a run with at most one settlement (one `componentDidMount` per instance), the build info and hub flag are either still their initial values or exactly what that settlement wrote; no later event erases or replaces them |
| `BuildInfo.FirstNonEmptyIsEarliest` | frontend/src/components/SideNav.tsx:208 | the reference "first non-empty" is empty iff every candidate is, and otherwise is the earliest non-empty candidate |
| `BuildInfo.CommitHash` | frontend/src/components/SideNav.tsx:208 | the commit hash is one of the two reported hashes, and empty exactly when both are missing or empty |
| `BuildInfo.CommitHashIsFirstNonEmpty` | frontend/src/components/SideNav.tsx:208 | the commit hash is the first non-empty of the API-server and front-end hashes (the API-server hash wins when present) |
| `BuildInfo.OrEmpty` | frontend/src/components/SideNav.tsx:208 | a missing hash reads as the empty string, which is falsy exactly as a missing one is |
| `BuildInfo.ShortHash` | frontend/src/components/SideNav.tsx:210 | the link text is "unknown" for no hash, and otherwise a prefix of the hash of length min(7, length) |
| `BuildInfo.CommitUrl` | frontend/src/components/SideNav.tsx:211-212 | the link starts with the repository URL; reading the commit back out of it gives the full untruncated hash, or no commit (the repository URL alone) when the hash is empty |
| `BuildInfo.LinkedCommit` | frontend/src/components/SideNav.tsx:211-212 | a commit read from a link is exactly what follows the repository URL and `/commit/` |
| `BuildInfo.Derive` | frontend/src/components/SideNav.tsx:208-213 | the link text is a prefix (at most 7 characters) of the commit the link points to, which is the full commit hash, or "unknown" with a repository-only link; the date is "unknown" when no build date is reported, otherwise `formatDate` of it |
| `BuildInfo.ApiHashOnlyExample` | frontend/src/components/SideNav.tsx:208-213 | API hash `abcdef1234567` with no date gives `abcdef1`, the commit URL of the full hash and date "unknown" |
| `ActiveRoute.HighlightExperimentsButton` | frontend/src/components/SideNav.tsx:339-346 | Experiments is highlighted iff some starting part of the path is one of EXPERIMENTS, RUNS, `/recurringrun` or COMPARE |
| `ActiveRoute.PipelinesActive` | frontend/src/components/SideNav.tsx:260 | Pipelines is active iff some starting part of the path is the PIPELINES route |
| `ActiveRoute.ArchiveActive` | frontend/src/components/SideNav.tsx:301 | Archive is active iff the path starts with the ARCHIVE route and has nothing after it |
| `ActiveRoute.PrefixActiveOnSubpages` | frontend/src/components/SideNav.tsx:260 | a sub-page of a highlighted or Pipelines-active page is highlighted or active too |
| `ActiveRoute.ArchiveOnlyOnExactPage` | frontend/src/components/SideNav.tsx:301 | Archive is active on the archive page plus a suffix iff the suffix is empty; Pipelines is active on every such extension of its page |
| `ActiveRoute.HighlightExamples` | frontend/src/components/SideNav.tsx:339-346 | with the customary route values, `/experiments`, `/experiments/run1`, `/runs/123`, `/recurringrunsmanager` and `/compare?x=1` highlight Experiments and `/pipelines` does not |

## Left out

- Rendering (JSX, tooltips, icons) and the colour and style tables
  (lines 37-164 and 234-337). Only the three active-button tests are
  modelled from the render method.
- `SideNavComponent.LocalStorage.IsNavbarCollapsed` is the assumed reading
  of the preference store, whose file is not part of this model: a stored
  `true` reads as collapsed, anything else as expanded.
- `SideNavComponent.LocalStorage.HasNavbarCollapsedKey` is the assumed
  key test of the same store: true when any value is stored.
- `toLocaleDateString` (line 213) depends on the locale and time zone. It
  is the parameter `formatDate`, applied only when `buildDate` is present
  and non-empty.
- `Apis.getBuildInfo` and `Apis.isJupyterHubAvailable` (lines 207 and 222)
  are network calls. Their outcomes are inputs. A `null` or `undefined`
  response, on which the property reads at line 208 throw inside the
  `try`, is modelled as a rejection. Any other response is a
  `BuildInfoResponse` whose missing or non-string fields are `None`.
- `NavModel.Run` accepts any sequence of events, which over-approximates
  React's lifecycle: `Mount` and `EnrichmentSettled` may repeat or come
  before mounting. Every real run is one of these sequences. The
  once-per-instance enrichment write is a hypothesis of
  `NavModel.EnrichmentWrittenAtMostOnce`, not a property of `Run`.
- `logger.error` (lines 216 and 224) is logging only.
- The `window` event-listener machinery (line 201). Each handler is one
  atomic transition, and the listener is taken to fire at any time.
- React's asynchronous `setState` is modelled as an immediate merge. The
  batching inside the click handler is modelled explicitly.
- JavaScript strings are UTF-16. `substring(0, 7)` counts code units and
  the model counts `char`s.
- `ActiveRoute.HighlightExamples` fixes the route values to the customary
  ones (`/archive`, `/compare`, `/experiments`, `/pipelines`, `/runs`),
  because the router file that defines them is not part of this model.
