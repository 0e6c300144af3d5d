/** The application's route table (`App`) and the broker sidebar's menu,
    combined with the route guard into one navigation step. */
module Routes {
  import opened Wrappers
  import opened Domain
  import Auth
  import opened Guard

  /** What a declared path does: redirect unconditionally, show the sign-in
      page, or show a page behind the guard. */
  datatype Route = Forward(target: string) | SignInPage | Guarded(required: Option<Requirement>)

  /** The root path. */
  const RootPath: string := "/"

  /** The broker workspace routes, in declaration order. */
  const WorkspacePaths: seq<string> := [
    "/dashboard", "/prospects", "/dossiers", "/relances", "/documents",
    "/partenaires", "/commissions", "/automatisations", "/analyses", "/parametres"
  ]

  /** The `<Routes>` table; any other path falls through to the not-found page. */
  const Table: map<string, Route> := map[
    "/" := Forward("/auth"),
    "/auth" := SignInPage,
    "/dashboard" := Guarded(Some(OnlyRole(Courtier))),
    "/prospects" := Guarded(Some(OnlyRole(Courtier))),
    "/dossiers" := Guarded(Some(OnlyRole(Courtier))),
    "/relances" := Guarded(Some(OnlyRole(Courtier))),
    "/documents" := Guarded(Some(OnlyRole(Courtier))),
    "/partenaires" := Guarded(Some(OnlyRole(Courtier))),
    "/commissions" := Guarded(Some(OnlyRole(Courtier))),
    "/automatisations" := Guarded(Some(OnlyRole(Courtier))),
    "/analyses" := Guarded(Some(OnlyRole(Courtier))),
    "/parametres" := Guarded(Some(OnlyRole(Courtier))),
    "/espace-client" := Guarded(Some(OnlyRole(Client)))
  ]

  /** The sidebar's menu paths (`menuItems`). */
  const MenuPaths: seq<string> := [
    "/dashboard", "/prospects", "/dossiers", "/documents",
    "/partenaires", "/analyses", "/commissions", "/parametres"
  ]

  /** What the browser shows after one routing step. */
  datatype Screen = Loading | GoTo(path: string) | Shows(path: string) | NotFound

  /** The sign-in page's effect: once both a user and a profile are known it
      replaces itself with the profile role's landing route. It does not look
      at `loading`. */
  function SignInRedirect(user: Option<Auth.User>, profile: Option<Auth.Profile>): (r: Option<string>)
    ensures r.Some? <==> user.Some? && profile.Some?
    ensures r.Some? ==> r.value == LandingPath(profile.value.role) && r.value != AuthPath
  {
    if user.Some? && profile.Some? then Some(LandingPath(profile.value.role)) else None
  }

  /** Resolve `path` against the table and, for a guarded route, run the
      guard on the current session view. */
  function Visit(path: string, loading: bool, user: Option<Auth.User>, profile: Option<Auth.Profile>): (s: Screen)
    ensures path !in Table ==> s == NotFound
    ensures path == RootPath ==> s == GoTo(AuthPath)
    ensures path == AuthPath ==> (s.GoTo? <==> user.Some? && profile.Some?)
    ensures path == AuthPath && s.GoTo? ==> s.path == LandingPath(profile.value.role)
    ensures path == AuthPath && !s.GoTo? ==> s == Shows(AuthPath)
    ensures s.Shows? ==> s.path == path
  {
    if path !in Table then NotFound
    else match Table[path]
      case Forward(target) => GoTo(target)
      case SignInPage =>
        (match SignInRedirect(user, profile)
         case Some(target) => GoTo(target)
         case None => Shows(path))
      case Guarded(required) =>
        match Decide(loading, user, profile, required)
        case Spinner => Loading
        case Redirect(target) => GoTo(target)
        case Render => Shows(path)
  }

  /** Every workspace route requires the broker role. */
  lemma WorkspaceRequiresCourtier()
    ensures forall i :: 0 <= i < |WorkspacePaths| ==>
              WorkspacePaths[i] in Table && Table[WorkspacePaths[i]] == Guarded(Some(OnlyRole(Courtier)))
  {
  }

  /** The client space requires the client role. */
  lemma EspaceClientRequiresClient()
    ensures EspaceClientPath in Table && Table[EspaceClientPath] == Guarded(Some(OnlyRole(Client)))
  {
  }

  /** Every sidebar entry is a declared route guarded by the broker role. */
  lemma MenuPathsAreCourtierRoutes()
    ensures forall i :: 0 <= i < |MenuPaths| ==>
              MenuPaths[i] in Table && Table[MenuPaths[i]] == Guarded(Some(OnlyRole(Courtier)))
  {
  }

  /** A role's landing route is guarded by that same role. */
  lemma LandingGuardedByOwnRole(role: Role)
    ensures LandingPath(role) in Table && Table[LandingPath(role)] == Guarded(Some(OnlyRole(role)))
  {
  }

  /** A redirect from any declared page other than the root is not followed
      by another: the next step is not a redirect, and once loading is over
      it shows the page redirected to. */
  lemma NoRedirectChain(path: string, loading: bool, user: Option<Auth.User>, profile: Option<Auth.Profile>)
    requires path != RootPath
    requires Visit(path, loading, user, profile).GoTo?
    ensures var target := Visit(path, loading, user, profile).path;
            && !Visit(target, loading, user, profile).GoTo?
            && (!loading ==> Visit(target, loading, user, profile) == Shows(target))
  {
    var target := Visit(path, loading, user, profile).path;
    if target != AuthPath {
      assert user.Some? && profile.Some?;
      LandingGuardedByOwnRole(profile.value.role);
    }
  }

  /** Follow the browser through at most `hops` redirects. */
  function Navigate(path: string, loading: bool, user: Option<Auth.User>, profile: Option<Auth.Profile>, hops: nat): (s: Screen)
    ensures !Visit(path, loading, user, profile).GoTo? ==> s == Visit(path, loading, user, profile)
    ensures s.Shows? ==> s.path in Table
    decreases hops
  {
    var s := Visit(path, loading, user, profile);
    if s.GoTo? && hops > 0 then Navigate(s.path, loading, user, profile, hops - 1) else s
  }

  /** Two redirects are always enough: from any path the browser settles on
      a screen that is not a redirect, and once loading is over every declared
      path ends on a page that shows. */
  lemma RedirectsSettle(path: string, loading: bool, user: Option<Auth.User>, profile: Option<Auth.Profile>)
    ensures !Navigate(path, loading, user, profile, 2).GoTo?
    ensures !loading && path in Table ==> Navigate(path, loading, user, profile, 2).Shows?
  {
    var first := Visit(path, loading, user, profile);
    if first.GoTo? {
      if path == RootPath {
        assert first == GoTo(AuthPath);
        var second := Visit(AuthPath, loading, user, profile);
        if second.GoTo? {
          NoRedirectChain(AuthPath, loading, user, profile);
        }
      } else {
        NoRedirectChain(path, loading, user, profile);
      }
    }
  }

  /** After a successful sign-in, the signed-in role's landing route shows. */
  lemma SignInLandsOnOwnRoute(s: Auth.AuthState, email: string, password: string, role: Role, suffix: string)
    requires Auth.WellShaped(s.store)
    requires !s.loading
    requires Auth.SignIn(s, email, password, role, suffix).Success?
    ensures var t := Auth.SignIn(s, email, password, role, suffix).value;
            Visit(LandingPath(role), t.loading, t.user, t.profile) == Shows(LandingPath(role))
  {
    LandingGuardedByOwnRole(role);
  }

  /** After sign-out, every guarded route sends the browser to the entry
      route, and the entry route shows the sign-in form. */
  lemma SignedOutIsSentToAuth(s: Auth.AuthState, remote: Auth.RemoteOutcome, path: string)
    requires !s.loading
    requires path in Table && Table[path].Guarded?
    ensures var t := Auth.SignOut(s, remote).state;
            && Visit(path, t.loading, t.user, t.profile) == GoTo(AuthPath)
            && Visit(AuthPath, t.loading, t.user, t.profile) == Shows(AuthPath)
  {
  }
}
