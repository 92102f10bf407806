/**
 * The client's route table and its three guards: the login page only for
 * visitors, the profile form only for signed-in users whose profile is
 * incomplete, and the home screen only for users whose profile is
 * complete. Every other path redirects to the home path.
 */
module AppRoutes {

  /** Who `useAuth()` reports: nobody, or a user whose profile is complete or not. */
  datatype Viewer = SignedOut | SignedIn(profileComplete: bool)

  datatype Page = LoginPage | SetupPage | HomePage

  /** What a guarded route produces: the spinner, nothing, a `<Navigate>`, or its page. */
  datatype Outcome = Spinner | Blank | Redirect(to: string) | Show(page: Page)

  const LoginPath: string := "/login"
  const SetupPath: string := "/setup-profile"
  const HomePath: string := "/"

  /** `ProtectedRoute` around the home screen. */
  function Protected(loading: bool, v: Viewer): (r: Outcome)
    ensures loading ==> r == Spinner
    ensures !loading && v.SignedOut? ==> r == Redirect(LoginPath)
    ensures !loading && v.SignedIn? && !v.profileComplete ==> r == Redirect(SetupPath)
    ensures r == Show(HomePage) <==> !loading && v == SignedIn(true)
  {
    if loading then Spinner
    else if v.SignedOut? then Redirect(LoginPath)
    else if !v.profileComplete then Redirect(SetupPath)
    else Show(HomePage)
  }

  /** `SetupRoute` around the profile form. */
  function Setup(loading: bool, v: Viewer): (r: Outcome)
    ensures loading ==> r == Blank
    ensures !loading && v.SignedOut? ==> r == Redirect(LoginPath)
    ensures !loading && v == SignedIn(true) ==> r == Redirect(HomePath)
    ensures r == Show(SetupPage) <==> !loading && v == SignedIn(false)
  {
    if loading then Blank
    else if v.SignedOut? then Redirect(LoginPath)
    else if v.profileComplete then Redirect(HomePath)
    else Show(SetupPage)
  }

  /** `AuthRoute` around the login page. */
  function AuthOnly(loading: bool, v: Viewer): (r: Outcome)
    ensures loading ==> r == Blank
    ensures !loading && v == SignedIn(true) ==> r == Redirect(HomePath)
    ensures !loading && v == SignedIn(false) ==> r == Redirect(SetupPath)
    ensures r == Show(LoginPage) <==> !loading && v.SignedOut?
  {
    if loading then Blank
    else if v.SignedIn? && v.profileComplete then Redirect(HomePath)
    else if v.SignedIn? then Redirect(SetupPath)
    else Show(LoginPage)
  }

  /** The `<Routes>` table: the three guarded paths, and `*` sending everything else home. */
  function Visit(path: string, loading: bool, v: Viewer): (r: Outcome)
    ensures path != LoginPath && path != SetupPath && path != HomePath ==> r == Redirect(HomePath)
  {
    if path == LoginPath then AuthOnly(loading, v)
    else if path == SetupPath then Setup(loading, v)
    else if path == HomePath then Protected(loading, v)
    else Redirect(HomePath)
  }

  /** Following redirects from `path`, at most `hops` of them. */
  function Settle(path: string, v: Viewer, hops: nat): Outcome
    decreases hops
  {
    var o := Visit(path, false, v);
    if o.Redirect? && hops > 0 then Settle(o.to, v, hops - 1) else o
  }

  /** The one page each viewer may see. */
  function PageFor(v: Viewer): Page {
    match v
    case SignedOut => LoginPage
    case SignedIn(complete) => if complete then HomePage else SetupPage
  }

  function PathOf(p: Page): string {
    match p
    case LoginPage => LoginPath
    case SetupPage => SetupPath
    case HomePage => HomePath
  }

  /** Once loading is over, a route renders its page only for the viewer that page belongs to. */
  lemma ExactlyOnePageRenders(v: Viewer, p: Page)
    ensures Visit(PathOf(p), false, v) == Show(p) <==> p == PageFor(v)
    ensures Visit(PathOf(p), false, v).Show? || Visit(PathOf(p), false, v).Redirect?
  {
  }

  /** Once loading is over, every path, after at most two redirects, lands on the viewer's page. */
  lemma EveryPathSettles(path: string, v: Viewer)
    ensures Settle(path, v, 2) == Show(PageFor(v))
  {
    var o := Visit(path, false, v);
    if o.Redirect? {
      var o2 := Visit(o.to, false, v);
      assert o.to in {LoginPath, SetupPath, HomePath};
      if o2.Redirect? {
        assert o2.to in {LoginPath, SetupPath, HomePath};
        assert Visit(o2.to, false, v) == Show(PageFor(v));
      }
    }
  }

  /** While loading, no guarded path renders a page or redirects. */
  lemma LoadingShowsNoPage(path: string, v: Viewer)
    requires path in {LoginPath, SetupPath, HomePath}
    ensures Visit(path, true, v) == Spinner || Visit(path, true, v) == Blank
  {
  }
}
