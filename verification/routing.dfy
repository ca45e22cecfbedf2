/**
 * Page routing. `update_page` in aggregated_live_dash.py and
 * live_dashboard_values.py maps a pathname to one of three layouts by exact
 * string comparison, and to the text "404 Page Not Found" otherwise; the copy
 * in dash_bootstrap_test.py knows only two pages. `display_page` in
 * dash_test.py toggles between two pages, and both of its arrows point at the
 * page not shown.
 *
 * A pathname is `Option<string>`: Dash passes `None` before the browser has
 * reported a location.
 */
module Routing {
  import opened Wrappers

  datatype Layout = Page1 | Page2 | Page3

  /** What `update_page` hands to the page container. */
  datatype PageContent = Show(layout: Layout) | NotFound(message: string)

  const NotFoundMessage: string := "404 Page Not Found"

  /** The pathname each layout is served under, as the navbar links it. */
  function PathOf(l: Layout): string {
    match l
    case Page1 => "/page-1"
    case Page2 => "/page-2"
    case Page3 => "/page-3"
  }

  /** `update_page` of the three-page dashboards. */
  function UpdatePage(pathname: Option<string>): (c: PageContent)
    ensures c.Show? ==> pathname == Some(PathOf(c.layout))
    ensures c.NotFound? ==> c.message == NotFoundMessage
    ensures c.NotFound? <==> forall l: Layout :: pathname != Some(PathOf(l))
  {
    if pathname == Some("/page-1") then Show(Page1)
    else if pathname == Some("/page-2") then Show(Page2)
    else if pathname == Some("/page-3") then Show(Page3)
    else NotFound(NotFoundMessage)
  }

  /** Serving a layout's own path shows that layout. */
  lemma RouteRoundTrip(l: Layout)
    ensures UpdatePage(Some(PathOf(l))) == Show(l)
  {
  }

  /** The navbar of the three-page dashboards, in display order. */
  const NavbarHrefs: seq<string> := ["/page-1", "/page-2", "/page-3"]

  /** The pathname the `dcc.Location` of aggregated_live_dash.py (line 100)
      starts with. */
  const InitialPathname: Option<string> := Some("/page-1")

  /** Every navbar link opens a layout, every layout has a navbar link, and
      the initial location of aggregated_live_dash.py opens page 1. */
  lemma NavbarReachesEveryLayout()
    ensures forall i | 0 <= i < |NavbarHrefs| :: UpdatePage(Some(NavbarHrefs[i])).Show?
    ensures forall l: Layout :: PathOf(l) in NavbarHrefs
    ensures UpdatePage(InitialPathname) == Show(Page1)
  {
  }

  /** `update_page` of dash_bootstrap_test.py: two pages only. */
  function UpdatePageTwo(pathname: Option<string>): (c: PageContent)
    ensures c.Show? ==> c.layout != Page3 && pathname == Some(PathOf(c.layout))
    ensures c.NotFound? ==> c.message == NotFoundMessage
    ensures c.NotFound? <==> pathname != Some(PathOf(Page1)) && pathname != Some(PathOf(Page2))
  {
    if pathname == Some("/page-1") then Show(Page1)
    else if pathname == Some("/page-2") then Show(Page2)
    else NotFound(NotFoundMessage)
  }

  /** The two-page router agrees with the three-page one except on "/page-3". */
  lemma TwoPageRouterRestricts(pathname: Option<string>)
    ensures pathname != Some("/page-3") ==> UpdatePageTwo(pathname) == UpdatePage(pathname)
    ensures UpdatePageTwo(Some("/page-3")) == NotFound(NotFoundMessage)
  {
  }

  // ---------------------------------------------------------------- page toggle

  datatype TogglePage = NumbersPage | TextPage

  /** A `dcc.Link` arrow: the arrow character and its target. */
  datatype Arrow = Arrow(glyph: string, href: string)

  /** What `display_page` returns: the content shown and the two arrows. */
  datatype ToggleView = ToggleView(page: TogglePage, left: Arrow, right: Arrow)

  const LeftLabel: string := "←"
  const RightLabel: string := "→"

  function TogglePath(p: TogglePage): string {
    match p
    case NumbersPage => "/page-1"
    case TextPage => "/page-2"
  }

  function Other(p: TogglePage): TogglePage {
    match p
    case NumbersPage => TextPage
    case TextPage => NumbersPage
  }

  /** `display_page` of dash_test.py. */
  function DisplayPage(pathname: Option<string>): (v: ToggleView)
    ensures v.page == TextPage <==> pathname == Some(TogglePath(TextPage))
    ensures v.left.glyph == LeftLabel && v.right.glyph == RightLabel
    ensures v.left.href == v.right.href == TogglePath(Other(v.page))
  {
    if pathname == Some("/page-2") then
      ToggleView(TextPage, Arrow(LeftLabel, "/page-1"), Arrow(RightLabel, "/page-1"))
    else
      ToggleView(NumbersPage, Arrow(LeftLabel, "/page-2"), Arrow(RightLabel, "/page-2"))
  }

  /** Following either arrow opens the other page. */
  lemma FollowArrowToggles(pathname: Option<string>)
    ensures DisplayPage(Some(DisplayPage(pathname).left.href)).page == Other(DisplayPage(pathname).page)
    ensures DisplayPage(Some(DisplayPage(pathname).right.href)).page == Other(DisplayPage(pathname).page)
  {
  }

  /** Following arrows twice, left or right in any mix, returns to the starting page. */
  lemma FollowTwiceReturns(pathname: Option<string>, firstLeft: bool, secondLeft: bool)
    ensures
      var v0 := DisplayPage(pathname);
      var v1 := DisplayPage(Some(if firstLeft then v0.left.href else v0.right.href));
      var v2 := DisplayPage(Some(if secondLeft then v1.left.href else v1.right.href));
      v2.page == v0.page
  {
  }
}
