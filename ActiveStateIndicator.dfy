/** The strip under the header: the page information looked up from the
    current route (title, icon, workflow step and breadcrumbs) and the
    workflow step circles. */
module ActiveStateIndicator {
  import opened Options

  /** `text` is the crumb's `label`. */
  datatype Crumb = Crumb(text: string, path: string, active: bool)

  datatype PageInfo = PageInfo(title: string, description: string, icon: string, step: int, breadcrumbs: seq<Crumb>)

  const UploadPath: string := "/mri-upload-dashboard"
  const ResultsPath: string := "/analysis-results-display"
  const HistoryPath: string := "/analysis-history-archive"

  /** `getPageInfo`. */
  function PageInfoFor(pathname: string): PageInfo
  {
    if pathname == UploadPath then
      PageInfo("MRI Upload Dashboard", "Upload and manage MRI scans for brain tumor analysis", "Upload", 1,
               [Crumb("Dashboard", UploadPath, true)])
    else if pathname == ResultsPath then
      PageInfo("Analysis Results", "View detailed brain tumor analysis results and confidence metrics", "Activity", 2,
               [Crumb("Dashboard", UploadPath, false), Crumb("Results", ResultsPath, true)])
    else if pathname == HistoryPath then
      PageInfo("Analysis History", "Browse and manage historical analysis records and reports", "Archive", 3,
               [Crumb("Dashboard", UploadPath, false), Crumb("History", HistoryPath, true)])
    else
      PageInfo("NeuroScan AI", "Medical brain tumor analysis platform", "Brain", 1, [])
  }

  lemma ResultsIsNotHistory()
    ensures ResultsPath != HistoryPath && UploadPath != ResultsPath && UploadPath != HistoryPath
  {
    assert ResultsPath[10] != HistoryPath[10];
    assert |UploadPath| != |ResultsPath|;
  }

  /** The step each of the three pages is. */
  function StepOf(pathname: string): (step: int)
    ensures step == PageInfoFor(pathname).step
    ensures pathname == UploadPath ==> step == 1
    ensures pathname == ResultsPath ==> step == 2
    ensures pathname == HistoryPath ==> step == 3
  {
    ResultsIsNotHistory();
    PageInfoFor(pathname).step
  }

  predicate KnownRoute(pathname: string) {
    pathname == UploadPath || pathname == ResultsPath || pathname == HistoryPath
  }

  /** The trail ends at `pathname`, marked active, every earlier crumb is
      inactive, and it starts at the dashboard. */
  predicate TrailEndsAt(cs: seq<Crumb>, pathname: string) {
    && |cs| > 0
    && cs[|cs| - 1].path == pathname && cs[|cs| - 1].active
    && (forall i :: 0 <= i < |cs| - 1 ==> !cs[i].active)
    && cs[0].path == UploadPath
  }

  /** On each known page the trail ends at that page. */
  lemma KnownRouteTrail(pathname: string)
    requires KnownRoute(pathname)
    ensures TrailEndsAt(PageInfoFor(pathname).breadcrumbs, pathname)
  {
    ResultsIsNotHistory();
    if pathname == UploadPath {
      assert PageInfoFor(pathname).breadcrumbs == [Crumb("Dashboard", UploadPath, true)];
    } else if pathname == ResultsPath {
      assert PageInfoFor(pathname).breadcrumbs == [Crumb("Dashboard", UploadPath, false), Crumb("Results", ResultsPath, true)];
    } else {
      assert PageInfoFor(pathname).breadcrumbs == [Crumb("Dashboard", UploadPath, false), Crumb("History", HistoryPath, true)];
    }
  }

  /** Any other path falls back to step 1, no breadcrumbs and the product
      name as title. */
  lemma UnknownRoute(pathname: string)
    requires !KnownRoute(pathname)
    ensures PageInfoFor(pathname).step == 1
    ensures PageInfoFor(pathname).breadcrumbs == []
    ensures PageInfoFor(pathname).title == "NeuroScan AI"
  {
  }

  /** Breadcrumbs are drawn only when asked for and when there are any. */
  predicate BreadcrumbsShown(showBreadcrumbs: bool, pathname: string) {
    showBreadcrumbs && |PageInfoFor(pathname).breadcrumbs| > 0
  }

  lemma BreadcrumbsShownMeaning(showBreadcrumbs: bool, pathname: string)
    ensures BreadcrumbsShown(showBreadcrumbs, pathname) <==>
      showBreadcrumbs && KnownRoute(pathname)
  {
  }

  /** Where a click on a crumb goes: nowhere for the active one. */
  function CrumbTarget(c: Crumb): (r: Option<string>)
    ensures r.Some? <==> !c.active
    ensures r.Some? ==> r.value == c.path
  {
    if c.active then None else Some(c.path)
  }

  datatype Circle = Circle(stepNumber: int, isActive: bool, isCompleted: bool)

  /** `Array.from({ length: totalSteps }, …)`: one circle per step. */
  function Circles(totalSteps: int, currentStep: int): (cs: seq<Circle>)
    ensures |cs| == if totalSteps > 0 then totalSteps else 0
    ensures forall i :: 0 <= i < |cs| ==> cs[i].stepNumber == i + 1
    ensures forall i :: 0 <= i < |cs| ==> (cs[i].isActive <==> i + 1 == currentStep)
    ensures forall i :: 0 <= i < |cs| ==> (cs[i].isCompleted <==> i + 1 < currentStep)
  {
    var n := if totalSteps > 0 then totalSteps else 0;
    seq(n, i => Circle(i + 1, i + 1 == currentStep, i + 1 < currentStep))
  }

  /** No circle is both active and completed; exactly one is active when
      the current step is one of the drawn steps, and then every circle
      before it is completed. */
  lemma CirclesMeaning(totalSteps: int, currentStep: int)
    ensures forall c :: c in Circles(totalSteps, currentStep) ==> !(c.isActive && c.isCompleted)
    ensures 1 <= currentStep <= totalSteps ==>
      var cs := Circles(totalSteps, currentStep);
      cs[currentStep - 1].isActive
      && (forall i :: 0 <= i < |cs| && i != currentStep - 1 ==> !cs[i].isActive)
      && (forall i :: 0 <= i < currentStep - 1 ==> cs[i].isCompleted)
  {
  }
}
