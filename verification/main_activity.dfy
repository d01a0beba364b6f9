/** Pages, their routes and names, the navigation graph and the theme choice (MainActivity.kt). */
module MainActivity {
  import opened Wrappers
  import R = Resources

  datatype Page = Home | Auth | Settings | Profile
  {
    /** The page's name resource (`nameId`). */
    function NameId(): R.StringId
    {
      match this
      case Home => R.Home
      case Auth => R.Auth
      case Settings => R.Settings
      case Profile => R.Profile
    }

    /** The page's navigation route (`route`). */
    function Route(): string
    {
      match this
      case Home => "home"
      case Auth => "auth"
      case Settings => "settings"
      case Profile => "profile"
    }
  }

  /** The page a route belongs to, if any. */
  function PageOfRoute(route: string): (p: Option<Page>)
    ensures p.Some? ==> p.value.Route() == route
    ensures p.None? ==> forall q: Page :: q.Route() != route
  {
    if route == "home" then Some(Home)
    else if route == "auth" then Some(Auth)
    else if route == "settings" then Some(Settings)
    else if route == "profile" then Some(Profile)
    else None
  }

  /** Every page's route leads back to that page, so no two pages share a route. */
  lemma RouteRoundTrip(p: Page)
    ensures PageOfRoute(p.Route()) == Some(p)
  {
  }

  lemma RouteInjective(p: Page, q: Page)
    ensures p.Route() == q.Route() <==> p == q
  {
    RouteRoundTrip(p);
    RouteRoundTrip(q);
  }

  /** Pages have distinct names too. */
  lemma NameIdInjective(p: Page, q: Page)
    ensures p.NameId() == q.NameId() <==> p == q
  {
  }

  /** The screen composed for a destination. */
  datatype Screen = AuthScreen | HomeScreen | SettingsScreen | ProfileScreen

  /** The screen each page shows. */
  function ScreenOf(p: Page): Screen
  {
    match p
    case Home => HomeScreen
    case Auth => AuthScreen
    case Settings => SettingsScreen
    case Profile => ProfileScreen
  }

  /** The navigation host starts at the sign-in page. */
  const StartDestination := Auth.Route()

  /** The destinations `Navigator` registers, in order. */
  const NavGraph: seq<(string, Screen)> := [
    (Auth.Route(), AuthScreen),
    (Home.Route(), HomeScreen),
    (Settings.Route(), SettingsScreen),
    (Profile.Route(), ProfileScreen)
  ]

  /** The screens registered under a route, in registration order. */
  function Destinations(graph: seq<(string, Screen)>, route: string): (r: seq<Screen>)
    ensures forall s :: s in r <==> (route, s) in graph
  {
    if graph == [] then []
    else if graph[0].0 == route then [graph[0].1] + Destinations(graph[1..], route)
    else Destinations(graph[1..], route)
  }

  /** The start destination is a registered route, the sign-in page's. */
  lemma StartsAtAuth()
    ensures PageOfRoute(StartDestination) == Some(Auth)
    ensures Destinations(NavGraph, StartDestination) == [AuthScreen]
  {
    EachPageRegisteredOnce(Auth);
  }

  /** Every page's route is registered exactly once, to that page's screen. */
  lemma EachPageRegisteredOnce(p: Page)
    ensures Destinations(NavGraph, p.Route()) == [ScreenOf(p)]
  {
    var g := NavGraph;
    assert g[1..][1..][1..][1..] == [];
  }

  /** `darkTheme` in `Wrapper`: dark when the mode says so, or when it follows the system and the
      system is dark. */
  function DarkTheme(uiMode: string, systemInDarkTheme: bool): bool
  {
    uiMode == "dark" || (uiMode == "system" && systemInDarkTheme)
  }

  /** The theme per mode: "dark" is always dark, "system" follows the system, and "light" or any
      other mode is never dark. */
  lemma DarkThemeByMode(uiMode: string, systemInDarkTheme: bool)
    ensures uiMode == "dark" ==> DarkTheme(uiMode, systemInDarkTheme)
    ensures uiMode == "system" ==> DarkTheme(uiMode, systemInDarkTheme) == systemInDarkTheme
    ensures uiMode != "dark" && uiMode != "system" ==> !DarkTheme(uiMode, systemInDarkTheme)
    ensures !DarkTheme("light", systemInDarkTheme)
  {
  }
}
