/** The application shell: which page a path shows for the current user, the
    sidebar entries, and the session kept in local storage (restore at start,
    login, logout). */
module AppShell {
  import opened Base
  import opened Schema

  datatype Page =
    | LoginPage | SignupPage | DashboardPage | ChatPage | NotesPage | YouTubePage
    | PricingPage | ProfilePage | PrivacyPage | AdminPage
    | Redirect(target: string)

  const Home := "/"
  const LoginPath := "/login"
  const SignupPath := "/signup"
  const AdminPath := "/admin"

  predicate IsAdmin(u: Account) { u.role == RoleAdmin }

  /** The page of a signed-in user's path, the admin panel only for admins. */
  function InnerRoute(path: string, u: Account): (p: Page)
    ensures path == Home ==> p == DashboardPage
    ensures path == "/chat" ==> p == ChatPage
    ensures path == "/notes" ==> p == NotesPage
    ensures path == "/youtube" ==> p == YouTubePage
    ensures path == "/pricing" ==> p == PricingPage
    ensures path == "/profile" ==> p == ProfilePage
    ensures path == "/privacy" ==> p == PrivacyPage
    ensures p == AdminPage <==> path == AdminPath && IsAdmin(u)
    ensures p.Redirect? ==> p.target == Home
  {
    if path == Home then DashboardPage
    else if path == "/chat" then ChatPage
    else if path == "/notes" then NotesPage
    else if path == "/youtube" then YouTubePage
    else if path == "/pricing" then PricingPage
    else if path == "/profile" then ProfilePage
    else if path == "/privacy" then PrivacyPage
    else if path == AdminPath && IsAdmin(u) then AdminPage
    else Redirect(Home)
  }

  /** The router: the login and signup pages for a visitor, home for a signed-in
      user who opens them; every other path needs a user, and sends a visitor
      to the login page. */
  function Resolve(path: string, user: Option<Account>): (p: Page)
    ensures user.None? ==> p == LoginPage || p == SignupPage || p == Redirect(LoginPath)
    ensures user.None? ==> (p == LoginPage <==> path == LoginPath) && (p == SignupPage <==> path == SignupPath)
    ensures user.Some? && (path == LoginPath || path == SignupPath) ==> p == Redirect(Home)
    ensures p == AdminPage <==> path == AdminPath && user.Some? && IsAdmin(user.value)
  {
    if path == LoginPath then (if user.None? then LoginPage else Redirect(Home))
    else if path == SignupPath then (if user.None? then SignupPage else Redirect(Home))
    else if user.None? then Redirect(LoginPath)
    else InnerRoute(path, user.value)
  }

  /** Only the paths listed show a page to a signed-in user; any other path
      goes home. */
  lemma UnknownPathGoesHome(path: string, u: Account)
    requires path !in {Home, "/chat", "/notes", "/youtube", "/pricing", "/profile", "/privacy", AdminPath,
                       LoginPath, SignupPath}
    ensures Resolve(path, Some(u)) == Redirect(Home)
  {
  }

  datatype SidebarItem = SidebarItem(caption: string, link: string)

  /** The sidebar; the admin entry only for an admin. */
  function Sidebar(user: Option<Account>): (items: seq<SidebarItem>)
    ensures (exists i :: 0 <= i < |items| && items[i].link == AdminPath) <==> user.Some? && IsAdmin(user.value)
  {
    var common := [SidebarItem("Dashboard", Home), SidebarItem("AI Assistant", "/chat"),
                   SidebarItem("Notes & Data", "/notes"), SidebarItem("YouTube Hub", "/youtube"),
                   SidebarItem("Subscription", "/pricing"), SidebarItem("Profile", "/profile"),
                   SidebarItem("Privacy Policy", "/privacy")];
    assert forall i :: 0 <= i < |common| ==> common[i].link != AdminPath;
    if user.Some? && IsAdmin(user.value) then
      var items := common + [SidebarItem("Admin Panel", AdminPath)];
      assert items[|common|].link == AdminPath;
      items
    else common
  }

  /** Every sidebar entry opens a page for the user it is shown to, never a
      redirect. */
  lemma SidebarEntriesResolve(u: Account)
    ensures forall item :: item in Sidebar(Some(u)) ==> !Resolve(item.link, Some(u)).Redirect?
  {
  }

  /** The session: the `user` state of the app and the `token` and `user` entries
      of local storage. */
  class Session {
    var user: Option<Account>
    var loading: bool
    var storedToken: Option<string>
    var storedUser: Option<Account>

    /** The app before its first effect: no user yet, the spinner showing. */
    constructor (storedToken: Option<string>, storedUser: Option<Account>)
      ensures user.None? && loading
      ensures this.storedToken == storedToken && this.storedUser == storedUser
    {
      user := None;
      loading := true;
      this.storedToken := storedToken;
      this.storedUser := storedUser;
    }

    /** The first effect: a stored user becomes the current user (the stored
        token is not looked at), and the spinner goes. */
    method Restore()
      modifies this
      ensures user == if old(storedUser).Some? then old(storedUser) else old(user)
      ensures !loading
      ensures storedToken == old(storedToken) && storedUser == old(storedUser)
    {
      if storedUser.Some? {
        user := storedUser;
      }
      loading := false;
    }

    /** A successful login or signup stores the token and user and makes that
        user current. */
    method SignIn(token: string, account: Account)
      modifies this
      ensures storedToken == Some(token) && storedUser == Some(account) && user == Some(account)
      ensures loading == old(loading)
    {
      storedToken := Some(token);
      storedUser := Some(account);
      user := Some(account);
    }

    /** `handleLogout`: both storage entries removed, no current user, and the
        browser sent to the login page. */
    method Logout() returns (next: Page)
      modifies this
      ensures storedToken.None? && storedUser.None? && user.None?
      ensures loading == old(loading)
      ensures next == Resolve(LoginPath, user) && next == LoginPage
    {
      storedToken := None;
      storedUser := None;
      user := None;
      next := Resolve(LoginPath, user);
    }
  }

  /** After a logout, reloading the app restores nobody, and every path other
      than login and signup leads to the login page. */
  method LogoutThenReload(token: string, account: Account, path: string) returns (p: Page)
    ensures path != LoginPath && path != SignupPath ==> p == Redirect(LoginPath)
  {
    var s := new Session(None, None);
    s.Restore();
    s.SignIn(token, account);
    var _ := s.Logout();
    var reloaded := new Session(s.storedToken, s.storedUser);
    reloaded.Restore();
    p := Resolve(path, reloaded.user);
  }
}
