/** The two route guards, the route tables of the current application and
    of the backup copy, and the back arrow shown above the screens. A
    location is represented by the route pattern it matches. */
module Routes {
  import opened Common
  import opened Entities

  /** The route patterns of the application. */
  datatype Path =
    | Welcome | Login | Register | Verification | Swipe | Map | Chats | Chat
    | Profile | UserProfile | ProfileEdit | BookDetail | MyBooks | Subscription | Settings | Root

  /** The text of each pattern, as the router and the back arrow compare it. */
  function PathText(p: Path): string
  {
    match p
    case Welcome => "/welcome"
    case Login => "/login"
    case Register => "/register"
    case Verification => "/verification"
    case Swipe => "/swipe"
    case Map => "/map"
    case Chats => "/chats"
    case Chat => "/chat/:chatId"
    case Profile => "/profile"
    case UserProfile => "/profile/:userId"
    case ProfileEdit => "/profile/edit"
    case BookDetail => "/book/:bookId"
    case MyBooks => "/my-books"
    case Subscription => "/subscription"
    case Settings => "/settings"
    case Root => "/"
  }

  /** What a guard shows: the loading placeholder, its screen, or a redirect. */
  datatype Outcome = Loading | Render | Redirect(to: Path)

  /** `ProtectedRoute`: wait while loading, then the screen for a signed-in
      user and the welcome screen for anybody else. */
  function ProtectedRoute(loading: bool, user: Option<User>): (r: Outcome)
    ensures loading ==> r == Loading
    ensures !loading ==> (r == Render <==> user.Some?)
    ensures !loading && user.None? ==> r == Redirect(Welcome)
  {
    if loading then Loading
    else if user.Some? then Render
    else Redirect(Welcome)
  }

  /** `PublicRoute`: wait while loading, then the screen for a visitor and
      the swipe screen for a signed-in user. */
  function PublicRoute(loading: bool, user: Option<User>): (r: Outcome)
    ensures loading ==> r == Loading
    ensures !loading ==> (r == Render <==> user.None?)
    ensures !loading && user.Some? ==> r == Redirect(Swipe)
  {
    if loading then Loading
    else if user.None? then Render
    else Redirect(Swipe)
  }

  /** Once loading is over, exactly one of the two guards shows its screen. */
  lemma ExactlyOneGuardRenders(user: Option<User>)
    ensures (ProtectedRoute(false, user) == Render) != (PublicRoute(false, user) == Render)
  {
  }

  datatype Guard = Public | Protected

  /** What a route pattern leads to: a guarded screen, possibly inside the
      bottom navigation, or a fixed redirect. */
  datatype Route = Guarded(guard: Guard, withNav: bool) | Forward(to: Path)

  /** The route tables: the application's, the backup copy's, and the
      application's with the verification screen guarded like the screens
      that need a session. */
  datatype Table = App | Backup | Corrected

  /** The route of the application for a pattern. */
  function AppRoute(p: Path): (r: Route)
    ensures r.Forward? <==> p == Root
    ensures p == Root ==> r == Forward(Welcome)
    ensures r.Guarded? ==> (r.guard == Public <==> p in {Welcome, Login, Register, Verification})
    ensures r.Guarded? ==> (r.withNav <==> p in {Swipe, Map, Chats, Profile, MyBooks, Settings})
  {
    match p
    case Welcome => Guarded(Public, false)
    case Login => Guarded(Public, false)
    case Register => Guarded(Public, false)
    case Verification => Guarded(Public, false)
    case Swipe => Guarded(Protected, true)
    case Map => Guarded(Protected, true)
    case Chats => Guarded(Protected, true)
    case Chat => Guarded(Protected, false)
    case Profile => Guarded(Protected, true)
    case UserProfile => Guarded(Protected, false)
    case ProfileEdit => Guarded(Protected, false)
    case BookDetail => Guarded(Protected, false)
    case MyBooks => Guarded(Protected, true)
    case Subscription => Guarded(Protected, false)
    case Settings => Guarded(Protected, true)
    case Root => Forward(Welcome)
  }

  /** The backup table: the same routes without the catalogue, the settings
      and the other-user profile. */
  function BackupRoute(p: Path): (r: Option<Route>)
    ensures r.None? <==> p in {MyBooks, Settings, UserProfile}
    ensures r.Some? ==> r.value == AppRoute(p)
  {
    match p
    case MyBooks => None
    case Settings => None
    case UserProfile => None
    case _ => Some(AppRoute(p))
  }

  function RouteOf(t: Table, p: Path): Option<Route>
  {
    match t
    case App => Some(AppRoute(p))
    case Backup => BackupRoute(p)
    case Corrected => if p == Verification then Some(Guarded(Protected, false)) else Some(AppRoute(p))
  }

  /** What a table shows at a pattern; `None` when no route matches. */
  function Resolve(t: Table, p: Path, loading: bool, user: Option<User>): (r: Option<Outcome>)
    ensures r.None? <==> RouteOf(t, p).None?
  {
    match RouteOf(t, p)
    case None => None
    case Some(Guarded(Protected, _)) => Some(ProtectedRoute(loading, user))
    case Some(Guarded(Public, _)) => Some(PublicRoute(loading, user))
    case Some(Forward(to)) => Some(Redirect(to))
  }

  predicate IsPublic(t: Table, p: Path)
  {
    RouteOf(t, p).Some? && RouteOf(t, p).value.Guarded? && RouteOf(t, p).value.guard == Public
  }

  predicate HasNav(t: Table, p: Path)
  {
    RouteOf(t, p).Some? && RouteOf(t, p).value.Guarded? && RouteOf(t, p).value.withNav
  }

  /** The public screens of the application and of the backup copy are the
      four entry screens. */
  lemma PublicScreens(p: Path)
    ensures IsPublic(App, p) <==> p in {Welcome, Login, Register, Verification}
    ensures IsPublic(Backup, p) <==> p in {Welcome, Login, Register, Verification}
  {
  }

  /** The bottom navigation wraps six screens, four in the backup copy. */
  lemma NavScreens(p: Path)
    ensures HasNav(App, p) <==> p in {Swipe, Map, Chats, Profile, MyBooks, Settings}
    ensures HasNav(Backup, p) <==> p in {Swipe, Map, Chats, Profile}
  {
  }

  /** The backup table lacks exactly the catalogue, the settings and the
      other-user profile; every other pattern routes as in the application. */
  lemma BackupIsSubset(p: Path)
    ensures RouteOf(Backup, p).None? <==> p in {MyBooks, Settings, UserProfile}
    ensures RouteOf(Backup, p).Some? ==> RouteOf(Backup, p) == RouteOf(App, p)
  {
  }

  /** The root pattern always sends to the welcome screen, loading or not. */
  lemma RootRedirectsToWelcome(loading: bool, user: Option<User>)
    ensures Resolve(App, Root, loading, user) == Some(Redirect(Welcome))
    ensures Resolve(Backup, Root, loading, user) == Some(Redirect(Welcome))
  {
  }

  /** While the session loads, every guarded screen shows the placeholder. */
  lemma LoadingShowsPlaceholder(t: Table, p: Path, user: Option<User>)
    requires RouteOf(t, p).Some? && RouteOf(t, p).value.Guarded?
    ensures Resolve(t, p, true, user) == Some(Loading)
  {
  }

  /** Follows at most `hops` redirects, once loading is over. */
  function Follow(t: Table, p: Path, user: Option<User>, hops: nat): Option<Outcome>
    decreases hops
  {
    match Resolve(t, p, false, user)
    case Some(Redirect(next)) => if hops == 0 then Some(Redirect(next)) else Follow(t, next, user, hops - 1)
    case o => o
  }

  /** The guards cannot send anybody round in circles: every pattern a table
      knows shows a screen after at most two redirects (the root goes to the
      welcome screen, which sends a signed-in user on to swiping), and one
      redirect is not always enough. */
  lemma RedirectsSettle(t: Table, p: Path, user: Option<User>)
    ensures RouteOf(t, p).Some? ==> Follow(t, p, user, 2) == Some(Render)
    ensures RouteOf(t, p).None? ==> Follow(t, p, user, 2) == None
    ensures user.Some? ==> Follow(t, Root, user, 1) == Some(Redirect(Swipe))
  {
    match t
    case App => SettleApp(p, user);
    case Backup => SettleBackup(p, user);
    case Corrected => SettleCorrected(p, user);
  }

  /** `RedirectsSettle` for the application's table. */
  lemma SettleApp(p: Path, user: Option<User>)
    ensures RouteOf(App, p).Some? && Follow(App, p, user, 2) == Some(Render)
    ensures user.Some? ==> Follow(App, Root, user, 1) == Some(Redirect(Swipe))
  {
  }

  /** `RedirectsSettle` for the backup table. */
  lemma SettleBackup(p: Path, user: Option<User>)
    ensures RouteOf(Backup, p).Some? ==> Follow(Backup, p, user, 2) == Some(Render)
    ensures RouteOf(Backup, p).None? ==> Follow(Backup, p, user, 2) == None
    ensures user.Some? ==> Follow(Backup, Root, user, 1) == Some(Redirect(Swipe))
  {
  }

  /** `RedirectsSettle` for the corrected table. */
  lemma SettleCorrected(p: Path, user: Option<User>)
    ensures RouteOf(Corrected, p).Some? && Follow(Corrected, p, user, 2) == Some(Render)
    ensures user.Some? ==> Follow(Corrected, Root, user, 1) == Some(Redirect(Swipe))
  {
  }

  // ---------------------------------------------------------------------
  // The back arrow

  const HideOn: seq<Path> := [Welcome, Login, Register, Verification]

  /** The arrow is drawn on every location outside the hide list. */
  function BackArrowVisible(pathname: Path): (r: bool)
    ensures r <==> pathname !in HideOn
  {
    pathname !in HideOn
  }

  /** The arrow is hidden exactly on the application's public screens. */
  lemma BackArrowHiddenOnPublicScreens(pathname: Path)
    ensures !BackArrowVisible(pathname) <==> IsPublic(App, pathname)
  {
    PublicScreens(pathname);
  }

  datatype BackAction = HistoryBack | NavigateTo(path: Path)

  /** `handleBack`: one step back when there is history, the welcome screen otherwise. */
  function HandleBack(historyLength: int): (r: BackAction)
    ensures r == HistoryBack <==> historyLength > 1
    ensures r != HistoryBack ==> r == NavigateTo(Welcome)
  {
    if historyLength > 1 then HistoryBack else NavigateTo(Welcome)
  }

  // ---------------------------------------------------------------------
  // The verification screen

  /** As written, a just-registered user, now signed in, who is sent to the
      verification screen is redirected to swiping in both tables: the screen
      is never shown after a registration. */
  lemma VerificationSkippedAfterRegister(u: User)
    ensures Resolve(App, Verification, false, Some(u)) == Some(Redirect(Swipe))
    ensures Resolve(Backup, Verification, false, Some(u)) == Some(Redirect(Swipe))
    ensures Follow(App, Verification, Some(u), 1) == Some(Render)
  {
  }

  /** With the verification screen protected, the just-registered user sees
      it, a visitor without a session is sent to the welcome screen, and every
      other pattern behaves as in the application. */
  lemma CorrectedVerificationShown(u: User, p: Path, user: Option<User>, loading: bool)
    ensures Resolve(Corrected, Verification, false, Some(u)) == Some(Render)
    ensures Resolve(Corrected, Verification, false, None) == Some(Redirect(Welcome))
    ensures p != Verification ==> Resolve(Corrected, p, loading, user) == Resolve(App, p, loading, user)
  {
  }

  /** With the verification screen protected, the back arrow's hide list is
      the public screens plus the verification screen. */
  lemma CorrectedPublicScreens(p: Path)
    ensures IsPublic(Corrected, p) <==> p in {Welcome, Login, Register}
    ensures !BackArrowVisible(p) <==> IsPublic(Corrected, p) || p == Verification
  {
  }
}
