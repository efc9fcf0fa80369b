/** Which navigation button is shown as active for the current page path. */
module ActiveRoute {

  /** The route constants of the application's router. Their values are
      defined outside this component, so they are parameters here. */
  datatype RoutePages = RoutePages(
    archive: string,
    compare: string,
    experiments: string,
    pipelines: string,
    runs: string)

  /** Recurring-run pages have no router constant; the component spells
      out their prefix. */
  const RECURRING_RUN_PREFIX: string := "/recurringrun"

  /** `page.startsWith(prefix)`. */
  predicate StartsWith(page: string, prefix: string) {
    prefix <= page
  }

  /** The pages under which the Experiments button is highlighted. */
  function ExperimentsPrefixes(routes: RoutePages): seq<string> {
    [routes.experiments, routes.runs, RECURRING_RUN_PREFIX, routes.compare]
  }

  /** Experiments is highlighted exactly when some starting part of the
      page path is one of its four routes. */
  function HighlightExperimentsButton(page: string, routes: RoutePages): (r: bool)
    ensures r <==> exists k :: 0 <= k <= |page| && page[..k] in ExperimentsPrefixes(routes)
  {
    SomeStartIsListed(page, routes.experiments, routes.runs, RECURRING_RUN_PREFIX, routes.compare);
    StartsWith(page, routes.experiments)
    || StartsWith(page, routes.runs)
    || StartsWith(page, RECURRING_RUN_PREFIX)
    || StartsWith(page, routes.compare)
  }

  /** Pipelines is active when some starting part of the path is its route. */
  function PipelinesActive(page: string, routes: RoutePages): (r: bool)
    ensures r <==> exists k :: 0 <= k <= |page| && page[..k] == routes.pipelines
  {
    SomeStartIs(page, routes.pipelines);
    StartsWith(page, routes.pipelines)
  }

  /** Archive is active only when the path starts with its route and has
      nothing after it. */
  function ArchiveActive(page: string, routes: RoutePages): (r: bool)
    ensures r <==> StartsWith(page, routes.archive) && |page| == |routes.archive|
  {
    assert |page| == |routes.archive| ==> page[..|routes.archive|] == page;
    page == routes.archive
  }

  /** A path starts with a route exactly when one of its starting parts is it. */
  lemma SomeStartIs(page: string, route: string)
    ensures StartsWith(page, route) <==> exists k :: 0 <= k <= |page| && page[..k] == route
  {
    if StartsWith(page, route) { assert page[..|route|] == route; }
  }

  /** A path starts with one of four routes exactly when one of its
      starting parts is among them. */
  lemma SomeStartIsListed(page: string, a: string, b: string, c: string, d: string)
    ensures (StartsWith(page, a) || StartsWith(page, b) || StartsWith(page, c) || StartsWith(page, d)) <==>
            (exists k :: 0 <= k <= |page| && page[..k] in [a, b, c, d])
  {
    if StartsWith(page, a) { assert page[..|a|] == a; }
    else if StartsWith(page, b) { assert page[..|b|] == b; }
    else if StartsWith(page, c) { assert page[..|c|] == c; }
    else if StartsWith(page, d) { assert page[..|d|] == d; }
  }

  /** Prefix tests are closed under descending into sub-pages: a page
      below a highlighted page is highlighted too, and so for Pipelines. */
  lemma PrefixActiveOnSubpages(page: string, suffix: string, routes: RoutePages)
    ensures HighlightExperimentsButton(page, routes) ==> HighlightExperimentsButton(page + suffix, routes)
    ensures PipelinesActive(page, routes) ==> PipelinesActive(page + suffix, routes)
  {
    StartsWithExtends(page, suffix, routes.experiments);
    StartsWithExtends(page, suffix, routes.runs);
    StartsWithExtends(page, suffix, RECURRING_RUN_PREFIX);
    StartsWithExtends(page, suffix, routes.compare);
    StartsWithExtends(page, suffix, routes.pipelines);
  }

  lemma StartsWithExtends(page: string, suffix: string, prefix: string)
    ensures StartsWith(page, prefix) ==> StartsWith(page + suffix, prefix)
  {
    if StartsWith(page, prefix) {
      assert (page + suffix)[..|prefix|] == page[..|prefix|];
    }
  }

  /** Archive is active only on the archive page itself: no proper
      sub-page of it activates the button, unlike Pipelines. */
  lemma ArchiveOnlyOnExactPage(suffix: string, routes: RoutePages)
    ensures ArchiveActive(routes.archive + suffix, routes) <==> suffix == ""
    ensures PipelinesActive(routes.pipelines + suffix, routes)
  {
    if suffix != "" { assert |routes.archive + suffix| != |routes.archive|; }
    assert (routes.pipelines + suffix)[..|routes.pipelines|] == routes.pipelines;
  }

  /** The router's customary route values. */
  predicate StandardRoutes(routes: RoutePages) {
    routes == RoutePages("/archive", "/compare", "/experiments", "/pipelines", "/runs")
  }

  /** Pages that highlight Experiments and a page that does not, under the
      customary route values. */
  lemma HighlightExamples(routes: RoutePages)
    requires StandardRoutes(routes)
    ensures HighlightExperimentsButton("/experiments", routes)
    ensures HighlightExperimentsButton("/experiments/run1", routes)
    ensures HighlightExperimentsButton("/runs/123", routes)
    ensures HighlightExperimentsButton("/recurringrunsmanager", routes)
    ensures HighlightExperimentsButton("/compare?x=1", routes)
    ensures !HighlightExperimentsButton("/pipelines", routes)
    ensures PipelinesActive("/pipelines/details/p1", routes)
    ensures !ArchiveActive("/archive/x", routes)
  {
    assert "/experiments"[..|"/experiments"|] == "/experiments";
    assert "/experiments/run1"[..|"/experiments"|] == "/experiments";
    assert "/runs/123"[..|"/runs"|] == "/runs";
    assert "/recurringrunsmanager"[..|RECURRING_RUN_PREFIX|] == RECURRING_RUN_PREFIX;
    assert "/compare?x=1"[..|"/compare"|] == "/compare";
    assert "/pipelines/details/p1"[..|"/pipelines"|] == "/pipelines";
    assert "/pipelines"[1] != "/experiments"[1];
    assert "/pipelines"[1] != "/runs"[1];
    assert "/pipelines"[1] != RECURRING_RUN_PREFIX[1];
    assert "/pipelines"[1] != "/compare"[1];
  }
}
