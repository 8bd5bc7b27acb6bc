/** The shell of client/src/App.js: the route table, the `PrivateRoute`
    guard, and the Navbar's link groups, greeting and menu actions. */
module App {
  import opened Js
  import opened Http
  import opened Storage

  datatype Page = OpportunityListPage | DashboardPage | LoginPage | RegisterPage

  /** What a route element renders: a page, or a redirect. */
  datatype Outcome = Show(page: Page) | RedirectTo(path: string)

  /** `PrivateRoute`: its children when the stored token is truthy, a
      redirect to /login otherwise. */
  function PrivateRoute(s: Session, child: Page): (o: Outcome)
    ensures o == Show(child) <==> HasToken(s)
    ensures o == RedirectTo("/login") <==> !HasToken(s)
  {
    if HasToken(s) then Show(child) else RedirectTo("/login")
  }

  /** The `<Routes>` table; `None` for a path no route matches. Only
      /dashboard is wrapped in the guard. */
  function Route(path: string, s: Session): (o: Option<Outcome>)
    ensures o.Some? <==> path in {"/", "/dashboard", "/login", "/register"}
    ensures path == "/" ==> o == Some(Show(OpportunityListPage))
    ensures path == "/login" ==> o == Some(Show(LoginPage))
    ensures path == "/register" ==> o == Some(Show(RegisterPage))
    ensures path == "/dashboard" ==> o == Some(PrivateRoute(s, DashboardPage))
  {
    if path == "/" then Some(Show(OpportunityListPage))
    else if path == "/dashboard" then Some(PrivateRoute(s, DashboardPage))
    else if path == "/login" then Some(Show(LoginPage))
    else if path == "/register" then Some(Show(RegisterPage))
    else None
  }

  /** The dashboard is shown exactly when the stored token is truthy; every
      other path renders the same thing whatever the store holds. */
  lemma OnlyDashboardIsGuarded(path: string, s: Session, s': Session)
    ensures Route("/dashboard", s) == Some(Show(DashboardPage)) <==> HasToken(s)
    ensures Route("/dashboard", s) == Some(RedirectTo("/login")) <==> !HasToken(s)
    ensures path != "/dashboard" ==> Route(path, s) == Route(path, s')
    ensures path in {"/", "/login", "/register"} ==> Route(path, s).Some? && Route(path, s).value.Show?
  {
  }

  /** The Navbar's open-menu flag (`Boolean(anchorEl)`). */
  datatype Navbar = Navbar(menuOpen: bool)

  /** The two link groups of the Navbar. */
  datatype Links = GuestLinks | MemberLinks(greeting: string)

  /** The menu's greeting: the stored username, or "User" when it is absent
      or empty. */
  function Greeting(s: Session): (g: string)
    ensures Truthy(Item(s.username)) ==> g == "Hi, " + s.username.value
    ensures !Truthy(Item(s.username)) ==> g == "Hi, User"
  {
    "Hi, " + OrElse(Item(s.username), "User")
  }

  /** Which link group the Navbar shows: Login/Register without a truthy
      token, Home/Dashboard/menu with one. */
  function NavLinks(s: Session): (l: Links)
    ensures l.GuestLinks? <==> !HasToken(s)
    ensures l.MemberLinks? ==> l.greeting == Greeting(s)
  {
    if HasToken(s) then MemberLinks(Greeting(s)) else GuestLinks
  }

  /** The Navbar offers the dashboard link exactly when the guard would let
      the user through to it. */
  lemma NavbarAgreesWithGuard(s: Session)
    ensures NavLinks(s).MemberLinks? <==> Route("/dashboard", s) == Some(Show(DashboardPage))
  {
  }

  /** The Navbar, the store and the effects after a menu item is chosen. */
  datatype MenuAction = MenuAction(navbar: Navbar, session: Session, effects: seq<Effect>)

  /** `handleLogout`: both items removed, menu closed, then to /login. */
  function Logout(nav: Navbar, s: Session): (r: MenuAction)
    ensures r.session.token.None? && r.session.username.None?
    ensures !r.navbar.menuOpen
    ensures r.effects == [Navigate("/login")]
  {
    MenuAction(Navbar(false), Cleared, [Navigate("/login")])
  }

  /** After logout the guard refuses the dashboard, the Navbar falls back to
      the guest links, and the greeting would read "User". */
  lemma LogoutLocksDashboard(nav: Navbar, s: Session)
    ensures Route("/dashboard", Logout(nav, s).session) == Some(RedirectTo("/login"))
    ensures NavLinks(Logout(nav, s).session) == GuestLinks
    ensures Greeting(Logout(nav, s).session) == "Hi, User"
  {
  }

  /** The menu's "User Info" item: close the menu and go to /dashboard,
      leaving the store alone. */
  function UserInfo(nav: Navbar, s: Session): (r: MenuAction)
    ensures !r.navbar.menuOpen && r.effects == [Navigate("/dashboard")]
    ensures r.session == s
  {
    MenuAction(Navbar(false), s, [Navigate("/dashboard")])
  }
}
