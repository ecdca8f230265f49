/** The router: the route table, the guard around protected pages, the root
    redirect, and the one-field session that holds the logged-in user. */
module Routes {
  import opened Wrappers
  import opened Types

  const RootPath := "/"
  const LoginPath := "/login"
  const RegisterPath := "/register"
  const AdminProductsPath := "/admin/products"
  const AdminApprovalsPath := "/admin/approvals"
  const BuyerHomePath := "/buyer/home"
  const BuyerProductPrefix := "/buyer/product/"

  datatype Page =
    | LoginPage
    | RegisterPage
    | ProductManagementPage
    | UserApprovalPage
    | BuyerHomePage
    | BiddingPage(productId: string)

  /** What a route produces: a page, or a redirect to another path. */
  datatype View = Render(page: Page) | Redirect(to: string)

  /** Who may see a page: the login and registration pages are public, the others
      belong to one role. */
  predicate MayView(user: Option<User>, page: Page)
  {
    match page
    case LoginPage => true
    case RegisterPage => true
    case ProductManagementPage => user.Some? && user.value.role == Admin
    case UserApprovalPage => user.Some? && user.value.role == Admin
    case BuyerHomePage => user.Some? && user.value.role == Buyer
    case BiddingPage(_) => user.Some? && user.value.role == Buyer
  }

  /** Where each role starts, after login and from the root path. */
  function HomePath(role: UserRole): string
  {
    if role == Admin then AdminProductsPath else BuyerHomePath
  }

  function HomePage(role: UserRole): Page
  {
    if role == Admin then ProductManagementPage else BuyerHomePage
  }

  /** `ProtectedRoute`: no user goes to the login page, a user of the wrong role goes
      to the root path, anyone else sees the page. */
  function ProtectedRoute(user: Option<User>, requiredRole: Option<UserRole>, page: Page): (v: View)
    ensures user.None? ==> v == Redirect(LoginPath)
    ensures user.Some? && requiredRole.Some? && user.value.role != requiredRole.value ==> v == Redirect(RootPath)
    ensures v.Render? <==> user.Some? && (requiredRole.None? || user.value.role == requiredRole.value)
    ensures v.Render? ==> v.page == page
  {
    if user.None? then Redirect(LoginPath)
    else if requiredRole.Some? && user.value.role != requiredRole.value then Redirect(RootPath)
    else Render(page)
  }

  /** The root path: each role to its home, no user to the login page. */
  function RootRedirect(user: Option<User>): (v: View)
    ensures v.Redirect?
    ensures user.None? ==> v.to == LoginPath
    ensures user.Some? && user.value.role == Admin ==> v.to == AdminProductsPath
    ensures user.Some? && user.value.role == Buyer ==> v.to == BuyerHomePath
  {
    match user
    case None => Redirect(LoginPath)
    case Some(u) => Redirect(HomePath(u.role))
  }

  /** The `:id` of a `/buyer/product/:id` path: one non-empty segment. */
  function ProductIdOf(path: string): (r: Option<string>)
    ensures r.Some? ==> path == BuyerProductPrefix + r.value && r.value != [] && '/' !in r.value
    ensures r.None? ==>
      !(|path| > |BuyerProductPrefix| && path[..|BuyerProductPrefix|] == BuyerProductPrefix &&
        '/' !in path[|BuyerProductPrefix|..])
  {
    var n := |BuyerProductPrefix|;
    if |path| > n && path[..n] == BuyerProductPrefix && '/' !in path[n..] then Some(path[n..]) else None
  }

  /** The path each page is served at; a bidding page's path carries its product id. */
  function PagePath(page: Page): string
  {
    match page
    case LoginPage => LoginPath
    case RegisterPage => RegisterPath
    case ProductManagementPage => AdminProductsPath
    case UserApprovalPage => AdminApprovalsPath
    case BuyerHomePage => BuyerHomePath
    case BiddingPage(id) => BuyerProductPrefix + id
  }

  /** The route table; any path it does not list goes to the root path. */
  function Resolve(path: string, user: Option<User>): (v: View)
    ensures v.Render? ==> MayView(user, v.page) && PagePath(v.page) == path
    ensures path == RootPath ==> v == RootRedirect(user)
    ensures path == LoginPath ==> v == Render(LoginPage)
    ensures path == RegisterPath ==> v == Render(RegisterPage)
    ensures path == AdminProductsPath ==> v == ProtectedRoute(user, Some(Admin), ProductManagementPage)
    ensures path == AdminApprovalsPath ==> v == ProtectedRoute(user, Some(Admin), UserApprovalPage)
    ensures path == BuyerHomePath ==> v == ProtectedRoute(user, Some(Buyer), BuyerHomePage)
    ensures ProductIdOf(path).Some? ==> v == ProtectedRoute(user, Some(Buyer), BiddingPage(ProductIdOf(path).value))
    ensures (path !in {RootPath, LoginPath, RegisterPath, AdminProductsPath, AdminApprovalsPath, BuyerHomePath} &&
             ProductIdOf(path).None?) ==> v == Redirect(RootPath)
    ensures v.Redirect? ==>
      || v.to == RootPath
      || (user.None? && v.to == LoginPath)
      || (user.Some? && v.to == HomePath(user.value.role))
  {
    if path == RootPath then RootRedirect(user)
    else if path == LoginPath then Render(LoginPage)
    else if path == RegisterPath then Render(RegisterPage)
    else if path == AdminProductsPath then ProtectedRoute(user, Some(Admin), ProductManagementPage)
    else if path == AdminApprovalsPath then
      ApprovalsIsNoProductPath();
      ProtectedRoute(user, Some(Admin), UserApprovalPage)
    else if path == BuyerHomePath then ProtectedRoute(user, Some(Buyer), BuyerHomePage)
    else match ProductIdOf(path)
      case Some(id) => ProtectedRoute(user, Some(Buyer), BiddingPage(id))
      case None => Redirect(RootPath)
  }

  /** `/admin/approvals` is as long as a product path could be, but does not start
      like one. */
  lemma ApprovalsIsNoProductPath()
    ensures ProductIdOf(AdminApprovalsPath).None?
  {
    var n := |BuyerProductPrefix|;
    assert AdminApprovalsPath[..n][1] != BuyerProductPrefix[1];
  }

  /** The page reached from `path` after following at most `hops` redirects. */
  function Follow(path: string, user: Option<User>, hops: nat): Option<Page>
    decreases hops
  {
    match Resolve(path, user)
    case Render(p) => Some(p)
    case Redirect(to) => if hops == 0 then None else Follow(to, user, hops - 1)
  }

  /** A product page path names the product it was built from. */
  lemma ProductPathRoundTrip(id: string)
    requires id != [] && '/' !in id
    ensures ProductIdOf(BuyerProductPrefix + id) == Some(id)
  {
    var path := BuyerProductPrefix + id;
    assert path[..|BuyerProductPrefix|] == BuyerProductPrefix;
    assert path[|BuyerProductPrefix|..] == id;
  }

  /** The paths the router redirects to each render in one step or redirect once more
      to the user's home. */
  lemma RedirectTargetsSettle(user: Option<User>)
    ensures user.None? ==> Follow(LoginPath, user, 0) == Some(LoginPage)
    ensures user.None? ==> Follow(RootPath, user, 1) == Some(LoginPage)
    ensures user.Some? ==> Follow(HomePath(user.value.role), user, 0) == Some(HomePage(user.value.role))
    ensures user.Some? ==> Follow(RootPath, user, 1) == Some(HomePage(user.value.role))
  {
    if user.Some? {
      var role := user.value.role;
      assert Resolve(HomePath(role), user) == Render(HomePage(role));
    }
  }

  /** Every path ends on a page the user may see within two redirects; a logged-in
      user who is redirected (wrong role, unknown path, root) lands on their own home,
      and a visitor without a user on the login page. */
  lemma {:induction false} NavigationSettles(path: string, user: Option<User>)
    ensures Follow(path, user, 2).Some?
    ensures MayView(user, Follow(path, user, 2).value)
    ensures Resolve(path, user).Redirect? && user.Some? ==> Follow(path, user, 2) == Some(HomePage(user.value.role))
    ensures Resolve(path, user).Redirect? && user.None? ==> Follow(path, user, 2) == Some(LoginPage)
  {
    RedirectTargetsSettle(user);
    match Resolve(path, user)
    case Render(p) =>
    case Redirect(to) =>
      assert Follow(path, user, 2) == Follow(to, user, 1);
      if to == RootPath {
      } else if user.None? {
        assert Follow(to, user, 1) == Follow(LoginPath, user, 0);
      } else {
        assert Follow(to, user, 1) == Follow(HomePath(user.value.role), user, 0);
      }
  }

  /** The logged-in user, held by the application shell. */
  class Session {
    var user: Option<User>

    /** The first render: no user yet, whatever was remembered. */
    constructor ()
      ensures user == None
    {
      user := None;
    }

    /** The mount effect: a user remembered from an earlier visit, if any, replaces
        the current one; otherwise nothing changes. */
    method Restore(remembered: Option<User>)
      modifies this
      ensures remembered.Some? ==> user == remembered
      ensures remembered.None? ==> user == old(user)
    {
      if remembered.Some? {
        user := remembered;
      }
    }

    /** `handleLogin`. */
    method HandleLogin(u: User)
      modifies this
      ensures user == Some(u)
    {
      user := Some(u);
    }

    /** `handleLogout`. */
    method HandleLogout()
      modifies this
      ensures user == None
    {
      user := None;
    }
  }
}
