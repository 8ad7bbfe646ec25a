/** Who may see which page: the role guard on the protected routes
    (src/App.tsx) and the landing page (src/pages/Index.tsx), which sends a
    signed-in user to the page for their role and otherwise shows the login
    and signup forms beside a rotating stock ticker. */
module Routing {
  import opened Js
  import opened Types

  /** What a route renders: the protected page, or a redirect. */
  datatype Outcome = Render | RedirectTo(path: string)

  /** The protected pages. */
  datatype Page = AdminPage | DashboardPage

  /** The path each protected page is mounted under. */
  function PathOf(page: Page): string {
    match page
    case AdminPage => "/admin"
    case DashboardPage => "/dashboard"
  }

  /** The roles each protected route admits. */
  function AllowedRoles(page: Page): (r: seq<UserRole>)
    ensures |r| == 1
    ensures ADMIN in r <==> page == AdminPage
    ensures USER in r <==> page == DashboardPage
  {
    match page
    case AdminPage => [ADMIN]
    case DashboardPage => [USER]
  }

  /** The guard: no user goes to '/', a user whose role is not admitted goes
      to '/', anyone else sees the page. */
  function Guard(user: Option<User>, allowed: seq<UserRole>): (o: Outcome)
    ensures o == Render <==> user.Some? && user.value.role in allowed
    ensures o != Render ==> o == RedirectTo("/")
  {
    if user.None? then RedirectTo("/")
    else if user.value.role !in allowed then RedirectTo("/")
    else Render
  }

  /** Every role is admitted to exactly one protected page. */
  lemma EachRoleOnePage(role: UserRole)
    ensures !(role in AllowedRoles(AdminPage) && role in AllowedRoles(DashboardPage))
    ensures role in AllowedRoles(AdminPage) || role in AllowedRoles(DashboardPage)
    ensures role in AllowedRoles(AdminPage) <==> role == ADMIN
  {
  }

  /** Where the landing page sends a signed-in user: admins to '/admin',
      everyone else to '/dashboard'; without a user it stays. */
  function RedirectPage(user: Option<User>): (p: Option<Page>)
    ensures p.None? <==> user.None?
    ensures p == Some(AdminPage) <==> user.Some? && user.value.role == ADMIN
    ensures p.Some? ==> PathOf(p.value) == (if user.value.role == ADMIN then "/admin" else "/dashboard")
  {
    if user.None? then None
    else if user.value.role == ADMIN || RoleValue(user.value.role) == "admin" then Some(AdminPage)
    else Some(DashboardPage)
  }

  /** The landing page's redirect and the guards agree: the page a signed-in
      user is sent to renders for them, and the other page turns them back. */
  lemma RedirectTargetAdmits(user: Option<User>)
    requires user.Some?
    ensures Guard(user, AllowedRoles(RedirectPage(user).value)) == Render
    ensures var other := if RedirectPage(user).value == AdminPage then DashboardPage else AdminPage;
            Guard(user, AllowedRoles(other)) == RedirectTo("/")
  {
  }

  /** The number of ticker entries. */
  const TickerLength := 4

  class IndexPage {
    var currentStock: int
    var isSignupMode: bool

    predicate Valid()
      reads this
    {
      0 <= currentStock < TickerLength
    }

    constructor ()
      ensures Valid() && currentStock == 0 && !isSignupMode
    {
      currentStock := 0;
      isSignupMode := false;
    }

    /** One tick of the ticker: the next entry, wrapping after the last. */
    method Tick()
      requires Valid()
      modifies this`currentStock
      ensures Valid()
      ensures currentStock == (old(currentStock) + 1) % TickerLength
      ensures old(currentStock) < TickerLength - 1 ==> currentStock == old(currentStock) + 1
      ensures old(currentStock) == TickerLength - 1 ==> currentStock == 0
    {
      currentStock := (currentStock + 1) % TickerLength;
    }

    /** The link under the forms switches between login and signup. */
    method ToggleSignupMode()
      modifies this`isSignupMode
      ensures isSignupMode == !old(isSignupMode)
    {
      isSignupMode := !isSignupMode;
    }
  }

  /** Four ticks bring the ticker back to where it was. */
  method FourTicksReturn(page: IndexPage)
    requires page.Valid()
    modifies page
    ensures page.Valid() && page.currentStock == old(page.currentStock)
  {
    page.Tick();
    page.Tick();
    page.Tick();
    page.Tick();
  }
}
