/** The route guard (`ProtectedRoute`): from the session store's view of the
    current identity and a route's role requirement, decide whether to show a
    spinner, redirect, or render the guarded page. */
module Guard {
  import opened Wrappers
  import opened Domain
  import Auth

  /** The unauthenticated entry route. */
  const AuthPath: string := "/auth"
  /** The broker's landing route. */
  const DashboardPath: string := "/dashboard"
  /** The client's landing route. */
  const EspaceClientPath: string := "/espace-client"

  /** A route's `requiredRole`: one specific role, or any signed-in role. */
  datatype Requirement = AnyRole | OnlyRole(role: Role)

  datatype Decision = Spinner | Redirect(path: string) | Render

  /** Where a signed-in user of this role belongs. */
  function LandingPath(role: Role): (path: string)
    ensures path != AuthPath
    ensures path == DashboardPath <==> role == Courtier
    ensures path == EspaceClientPath <==> role == Client
  {
    assert |DashboardPath| != |EspaceClientPath|;
    match role
    case Courtier => DashboardPath
    case Client => EspaceClientPath
  }

  /** The requirement lets a profile of this role through. */
  predicate Admits(required: Option<Requirement>, role: Role) {
    match required
    case None => true
    case Some(AnyRole) => true
    case Some(OnlyRole(r)) => r == role
  }

  /** `ProtectedRoute`. */
  function Decide(loading: bool, user: Option<Auth.User>, profile: Option<Auth.Profile>,
                  required: Option<Requirement>): (d: Decision)
    // Still loading: the spinner, whatever else holds.
    ensures loading ==> d == Spinner
    // Not loading and no identity: the entry route.
    ensures !loading && (user.None? || profile.None?) ==> d == Redirect(AuthPath)
    // Signed in: render exactly when the requirement admits the profile's role,
    // and otherwise go to that role's own landing route, never the entry route.
    ensures !loading && user.Some? && profile.Some? ==>
              && (d == Render <==> Admits(required, profile.value.role))
              && (d != Render ==> d == Redirect(LandingPath(profile.value.role)) && d.path != AuthPath)
  {
    if loading then Spinner
    else if user.None? || profile.None? then Redirect(AuthPath)
    else if required.Some? && required.value.OnlyRole? && profile.value.role != required.value.role then
      Redirect(LandingPath(profile.value.role))
    else Render
  }

  /** With no requirement or `'any'`, every signed-in profile is let through. */
  lemma AnyRoleRenders(user: Auth.User, profile: Auth.Profile, required: Option<Requirement>)
    requires required.None? || required == Some(AnyRole)
    ensures Decide(false, Some(user), Some(profile), required) == Render
  {
  }
}
