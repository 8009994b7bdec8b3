/** The route table: the guard around protected pages, the redirects of the
    public pages when signed in, the default route and the catch-all. */
module App {
  import Common
  import AuthContext

  /** What the routes read from the session store. */
  datatype Session = Session(loading: bool, authenticated: bool, admin: bool)

  function SessionOf(a: AuthContext.AuthProvider): Session
    reads a
  {
    Session(a.loading, a.IsAuthenticated(), a.IsAdmin())
  }

  /** The routed paths; anything else is `Unmatched`. */
  datatype Path =
    | AdminLogin | StudentLogin | StudentRegister
    | DashboardPath | AddStudent | EditStudent(id: string)
    | StudentView | Root | Unmatched(url: string)

  datatype Page =
    | AdminLoginPage | StudentLoginPage | StudentRegisterPage
    | DashboardPage | AddStudentPage | EditStudentPage(id: string) | StudentViewPage

  /** What a route element renders: the guard's loading screen, a redirect
      (always with `replace`), or a page. */
  datatype Element = LoadingScreen | Redirect(to: Path) | Render(page: Page)

  /** `ProtectedRoute`. */
  function ProtectedRoute(s: Session, adminOnly: bool, child: Page): Element
  {
    if s.loading then LoadingScreen
    else if !s.authenticated then Redirect(AdminLogin)
    else if adminOnly && !s.admin then Redirect(StudentView)
    else Render(child)
  }

  /** The element of each path. */
  function Route(p: Path, s: Session): Element
  {
    match p
    case AdminLogin => if s.authenticated then Redirect(DashboardPath) else Render(AdminLoginPage)
    case StudentLogin => if s.authenticated then Redirect(StudentView) else Render(StudentLoginPage)
    case StudentRegister => if s.authenticated then Redirect(StudentView) else Render(StudentRegisterPage)
    case DashboardPath => ProtectedRoute(s, true, DashboardPage)
    case AddStudent => ProtectedRoute(s, true, AddStudentPage)
    case EditStudent(id) => ProtectedRoute(s, true, EditStudentPage(id))
    case StudentView => ProtectedRoute(s, false, StudentViewPage)
    case Root =>
      if s.authenticated then (if s.admin then Redirect(DashboardPath) else Redirect(StudentView))
      else Redirect(AdminLogin)
    case Unmatched(_) => Redirect(Root)
  }

  predicate Guarded(p: Path)
  {
    p.DashboardPath? || p.AddStudent? || p.EditStudent? || p.StudentView?
  }

  predicate AdminOnly(p: Path)
  {
    p.DashboardPath? || p.AddStudent? || p.EditStudent?
  }

  /** The guard renders its child exactly when the store has finished
      loading, the user is signed in, and (on admin routes) is an admin;
      otherwise it waits, or sends the visitor to the admin login, or a
      signed-in non-admin to the student view. */
  lemma GuardDecision(s: Session, adminOnly: bool, child: Page)
    ensures ProtectedRoute(s, adminOnly, child).Render? <==> !s.loading && s.authenticated && (!adminOnly || s.admin)
    ensures ProtectedRoute(s, adminOnly, child).Render? ==> ProtectedRoute(s, adminOnly, child).page == child
    ensures s.loading <==> ProtectedRoute(s, adminOnly, child) == LoadingScreen
    ensures ProtectedRoute(s, adminOnly, child) == Redirect(AdminLogin) <==> !s.loading && !s.authenticated
    ensures ProtectedRoute(s, adminOnly, child) == Redirect(StudentView)
            <==> !s.loading && s.authenticated && adminOnly && !s.admin
  {
  }

  /** While the store is loading every guarded path shows the loading
      screen, whatever the session. */
  lemma GuardedPathsWait(p: Path, s: Session)
    requires Guarded(p) && s.loading
    ensures Route(p, s) == LoadingScreen
  {
  }

  /** The public routes, the default route and the catch-all do not read
      `loading`: before hydration they act on the signed-out state. */
  lemma UnguardedPathsIgnoreLoading(p: Path, s: Session)
    requires !Guarded(p)
    ensures Route(p, s) == Route(p, s.(loading := !s.loading))
    ensures Route(p, s) != LoadingScreen
  {
  }

  /** Signed in, the login and registration pages redirect: the admin login
      to the dashboard, the student pages to the student view. */
  lemma SignedInLeavesPublicPages(s: Session)
    requires s.authenticated
    ensures Route(AdminLogin, s) == Redirect(DashboardPath)
    ensures Route(StudentLogin, s) == Redirect(StudentView)
    ensures Route(StudentRegister, s) == Redirect(StudentView)
  {
  }

  /** The default route. */
  lemma RootDecision(s: Session)
    ensures Route(Root, s) == Redirect(DashboardPath) <==> s.authenticated && s.admin
    ensures Route(Root, s) == Redirect(StudentView) <==> s.authenticated && !s.admin
    ensures Route(Root, s) == Redirect(AdminLogin) <==> !s.authenticated
  {
  }

  /** Unknown paths go to the default route. */
  lemma UnmatchedGoesToRoot(url: string, s: Session)
    ensures Route(Unmatched(url), s) == Redirect(Root)
  {
  }

  /** Follow redirects, at most `hops` of them. */
  function Follow(p: Path, s: Session, hops: nat): Element
    decreases hops
  {
    var e := Route(p, s);
    if e.Redirect? && hops > 0 then Follow(e.to, s, hops - 1) else e
  }

  /** An admin page is rendered only to a signed-in admin once loading is
      over, however the visitor got there. */
  lemma {:induction false} AdminPagesNeedAdmin(p: Path, s: Session, hops: nat)
    ensures var e := Follow(p, s, hops);
            e.Render? && (e.page.DashboardPage? || e.page.AddStudentPage? || e.page.EditStudentPage?)
            ==> !s.loading && s.authenticated && s.admin
    ensures Follow(p, s, hops) == Render(StudentViewPage) ==> !s.loading && s.authenticated
    decreases hops
  {
    var e := Route(p, s);
    if e.Redirect? && hops > 0 {
      AdminPagesNeedAdmin(e.to, s, hops - 1);
    }
  }

  /** Once the store has loaded, any path settles on a page within two
      redirects: signed out, the admin login unless a student page was asked
      for; signed in without admin rights, always the student view; an
      admin reaches the dashboard from the login, the root or an unknown
      path. */
  lemma SettlesWithinTwoRedirects(p: Path, s: Session)
    requires !s.loading
    ensures Follow(p, s, 2).Render?
    ensures !s.authenticated && Follow(p, s, 2) != Render(StudentLoginPage) && Follow(p, s, 2) != Render(StudentRegisterPage)
            ==> Follow(p, s, 2) == Render(AdminLoginPage)
    ensures s.authenticated && !s.admin ==> Follow(p, s, 2) == Render(StudentViewPage)
    ensures s.authenticated && s.admin && (p.AdminLogin? || p.DashboardPath? || p.Root? || p.Unmatched?)
            ==> Follow(p, s, 2) == Render(DashboardPage)
  {
  }

  /** Going through the default route from an unknown path lands on the
      home page of the session. */
  lemma UnknownPathLanding(url: string, s: Session)
    requires !s.loading
    ensures Follow(Unmatched(url), s, 3)
            == Render(if !s.authenticated then AdminLoginPage else if s.admin then DashboardPage else StudentViewPage)
  {
  }

  /** After a logout, once loaded, every guarded path ends at the admin
      login. */
  method GuardedAfterLogout(a: AuthContext.AuthProvider, p: Path) returns (e: Element)
    requires Guarded(p) && !a.loading
    modifies a
    ensures e == Follow(p, SessionOf(a), 1) && e == Render(AdminLoginPage)
  {
    a.Logout();
    e := Follow(p, SessionOf(a), 1);
  }

  /** Signing in and opening "/" lands on the dashboard for an admin role
      and on the student view for any other, unless the token is empty, in
      which case the session does not count as signed in and "/" ends at
      the admin login. */
  method RootAfterLogin(a: AuthContext.AuthProvider, u: AuthContext.User, t: string) returns (e: Element)
    requires !a.loading
    modifies a
    ensures a.IsAuthenticated() <==> t != ""
    ensures e == Follow(Root, SessionOf(a), 2)
    ensures t != "" ==> e == Render(if AuthContext.AdminRole(Common.Some(u)) then DashboardPage else StudentViewPage)
    ensures t == "" ==> e == Render(AdminLoginPage)
  {
    a.Login(u, t);
    e := Follow(Root, SessionOf(a), 2);
  }
}
