/** The mock path of the session store (`AuthProvider`): the current user,
    session and profile, the `loading` flag, and the two browser-storage keys
    that keep a fabricated identity across reloads. Every transition is a pure
    function from the old state to the new one. */
module Auth {
  import opened Wrappers
  import opened Text
  import opened Domain

  /** Storage key of the serialized user record. */
  const UserKey: string := "mock_user"
  /** Storage key of the serialized profile record. */
  const ProfileKey: string := "mock_profile"
  /** Every fabricated identifier starts with this. */
  const IdPrefix: string := "mock-"
  /** Display name used when an e-mail address has nothing before its '@'. */
  const FallbackNom: string := "Utilisateur"
  /** Company name given to every fabricated broker profile. */
  const MockEntreprise: string := "Mon Entreprise"

  datatype UserMetadata = UserMetadata(nom: string, role: Role)

  /** The identity-service user record. `role` is the service's own role
      ("authenticated"), not the application role, which is in `metadata`. */
  datatype User = User(
    id: string,
    email: string,
    aud: string,
    role: string,
    phone: string,
    metadata: UserMetadata,
    isAnonymous: bool)

  /** The application profile of a user. */
  datatype Profile = Profile(
    id: string,
    nom: string,
    email: string,
    role: Role,
    telephone: Option<string>,
    entreprise: Option<string>,
    photoProfil: Option<string>)

  /** A session; its expiry instant is a clock reading and is not modelled. */
  datatype Session = Session(
    accessToken: string,
    tokenType: string,
    expiresIn: int,
    refreshToken: string,
    user: User)

  /** The placeholder session the mock path builds around a user. */
  function MockSession(u: User): Session {
    Session("mock-token", "bearer", 3600, "mock-refresh", u)
  }

  /** A stored value: a serialized user, a serialized profile, or text that
      does not parse as JSON. */
  datatype Entry = UserDoc(user: User) | ProfileDoc(profile: Profile) | Unparseable(text: string)

  /** Browser storage: text values under string keys. */
  type Store = map<string, Entry>

  /** `localStorage.getItem(key)` is truthy: the key is set and its text is
      not empty. */
  predicate Present(store: Store, key: string) {
    key in store && store[key] != Unparseable("")
  }

  /** Each of the two keys holds, when it holds a parsed record at all, a
      record of its own kind. */
  predicate WellShaped(store: Store) {
    && (UserKey in store ==> !store[UserKey].ProfileDoc?)
    && (ProfileKey in store ==> !store[ProfileKey].UserDoc?)
  }

  /** Keys other than the two session keys agree between `a` and `b`. */
  ghost predicate OtherKeysUnchanged(a: Store, b: Store) {
    forall k :: k != UserKey && k != ProfileKey ==> (k in a <==> k in b) && (k in a ==> a[k] == b[k])
  }

  datatype AuthState = AuthState(
    user: Option<User>,
    session: Option<Session>,
    profile: Option<Profile>,
    loading: bool,
    store: Store)

  /** The state before the initialisation effect has run. */
  function Boot(store: Store): AuthState {
    AuthState(None, None, None, true, store)
  }

  /** A user and a profile, created or restored together. */
  datatype Identity = Identity(user: User, profile: Profile)

  /** `createMockUser`. `suffix` stands for the timestamp-and-random suffix of
      the identifier. */
  function CreateMockUser(email: string, nom: string, role: Role, suffix: string): (r: Identity)
    ensures r.user.id == r.profile.id
    ensures IdPrefix <= r.user.id && r.user.id[|IdPrefix|..] == suffix
    ensures r.user.email == email && r.profile.email == email
    ensures r.profile.nom == nom && r.profile.role == role
    ensures r.user.metadata == UserMetadata(nom, role)
    ensures r.profile.entreprise.Some? <==> role == Courtier
    ensures r.profile.entreprise.Some? ==> r.profile.entreprise.value == MockEntreprise
  {
    var id := IdPrefix + suffix;
    var user := User(id, email, "authenticated", "authenticated", "", UserMetadata(nom, role), false);
    var profile := Profile(id, nom, email, role, Some(""),
                           if role == Courtier then Some(MockEntreprise) else None, None);
    Identity(user, profile)
  }

  /** Two different suffixes give two different identifiers. */
  lemma MockIdsDistinct(email: string, nom: string, role: Role, suffix: string,
                        email': string, nom': string, role': Role, suffix': string)
    requires suffix != suffix'
    ensures CreateMockUser(email, nom, role, suffix).user.id != CreateMockUser(email', nom', role', suffix').user.id
  {
  }

  /** The display name a sign-in derives from an e-mail address: the text
      before the first '@', or the fallback when that text is empty. */
  function NomFromEmail(email: string): (nom: string)
    ensures nom != ""
    ensures (|email| == 0 || email[0] == '@') ==> nom == FallbackNom
    ensures !(|email| == 0 || email[0] == '@') ==>
              && nom <= email
              && '@' !in nom
              && (|nom| < |email| ==> email[|nom|] == '@')
  {
    var local := BeforeFirst(email, '@');
    if local == "" then FallbackNom else local
  }

  /** Make `id` current and write both of its records to storage. */
  function Install(s: AuthState, id: Identity): AuthState {
    s.(user := Some(id.user),
       profile := Some(id.profile),
       session := Some(MockSession(id.user)),
       store := s.store[UserKey := UserDoc(id.user)][ProfileKey := ProfileDoc(id.profile)])
  }

  /** The state is signed in as someone with this e-mail and role, whose two
      records are exactly what storage holds. */
  predicate SignedInAs(s: AuthState, email: string, role: Role) {
    && s.user.Some? && s.profile.Some?
    && s.session == Some(MockSession(s.user.value))
    && s.profile.value.email == email
    && s.profile.value.role == role
    && UserKey in s.store && s.store[UserKey] == UserDoc(s.user.value)
    && ProfileKey in s.store && s.store[ProfileKey] == ProfileDoc(s.profile.value)
  }

  /** Why a sign-in threw: a stored record that `JSON.parse` rejects. */
  datatype AuthError = StoredProfileUnparseable | StoredUserUnparseable

  /** What a sign-in does with storage: restore the stored identity, or make
      a new one. */
  datatype Resolution = Restore(identity: Identity) | Fabricate

  /** The profile key holds text that does not parse. */
  predicate ProfileCorrupt(store: Store) {
    Present(store, ProfileKey) && store[ProfileKey].Unparseable?
  }

  /** The user key holds text that does not parse. */
  predicate UserCorrupt(store: Store) {
    Present(store, UserKey) && store[UserKey].Unparseable?
  }

  /** The stored profile has exactly this e-mail and role. */
  predicate ProfileMatches(store: Store, email: string, role: Role) {
    && ProfileKey in store && store[ProfileKey].ProfileDoc?
    && store[ProfileKey].profile.email == email
    && store[ProfileKey].profile.role == role
  }

  /** The stored records a sign-in restores or fails on. */
  function ResolveSignIn(store: Store, email: string, role: Role): Result<Resolution, AuthError>
    requires WellShaped(store)
  {
    if !Present(store, ProfileKey) then Success(Fabricate)
    else match store[ProfileKey]
      case Unparseable(_) => Failure(StoredProfileUnparseable)
      // A parsed user record read as a profile has role "authenticated",
      // which is never an application role: no match.
      case UserDoc(_) => Success(Fabricate)
      case ProfileDoc(p) =>
        if p.email == email && p.role == role && Present(store, UserKey) then
          match store[UserKey]
          case Unparseable(_) => Failure(StoredUserUnparseable)
          case UserDoc(u) => Success(Restore(Identity(u, p)))
        else Success(Fabricate)
  }

  /** `signInMock`. The password is accepted whatever it is. */
  function SignIn(s: AuthState, email: string, password: string, role: Role, suffix: string): (r: Result<AuthState, AuthError>)
    requires WellShaped(s.store)
    // The only failures are stored records that do not parse.
    ensures r.Failure? <==> ProfileCorrupt(s.store) || (ProfileMatches(s.store, email, role) && UserCorrupt(s.store))
    ensures r.Success? ==>
              && SignedInAs(r.value, email, role)
              && r.value.loading == s.loading
              && WellShaped(r.value.store)
              && OtherKeysUnchanged(s.store, r.value.store)
    // A matching stored profile with a stored user: restore both, write nothing.
    ensures ProfileMatches(s.store, email, role) && UserKey in s.store && s.store[UserKey].UserDoc? ==>
              && r.Success?
              && r.value.store == s.store
              && r.value.user == Some(s.store[UserKey].user)
              && r.value.profile == Some(s.store[ProfileKey].profile)
    // Otherwise a new identity named after the e-mail's local part.
    ensures !ProfileCorrupt(s.store) && !(ProfileMatches(s.store, email, role) && Present(s.store, UserKey)) ==>
              && r.Success?
              && r.value.profile.value.nom == NomFromEmail(email)
              && r.value.user.value.id == IdPrefix + suffix
              && r.value.user.value.id == r.value.profile.value.id
  {
    match ResolveSignIn(s.store, email, role)
    case Failure(e) => Failure(e)
    case Success(Restore(id)) =>
      Success(s.(user := Some(id.user), profile := Some(id.profile), session := Some(MockSession(id.user))))
    case Success(Fabricate) =>
      Success(Install(s, CreateMockUser(email, NomFromEmail(email), role, suffix)))
  }

  /** The password never changes the outcome of a sign-in. */
  lemma SignInIgnoresPassword(s: AuthState, email: string, password: string, password': string, role: Role, suffix: string)
    requires WellShaped(s.store)
    ensures SignIn(s, email, password, role, suffix) == SignIn(s, email, password', role, suffix)
  {
  }

  /** `signUpMock`: always a new identity, overwriting whatever is stored. */
  function SignUp(s: AuthState, email: string, password: string, nom: string, role: Role, suffix: string): (r: AuthState)
    ensures SignedInAs(r, email, role)
    ensures r.profile.value.nom == nom
    ensures r.user.value.id == IdPrefix + suffix && r.profile.value.id == r.user.value.id
    ensures r.loading == s.loading
    ensures WellShaped(r.store)
    ensures OtherKeysUnchanged(s.store, r.store)
  {
    Install(s, CreateMockUser(email, nom, role, suffix))
  }

  /** How the best-effort remote sign-out call ended. */
  datatype RemoteOutcome = RemoteOk | RemoteThrew

  /** The state after sign-out, and the path it navigates to. */
  datatype SignedOut = SignedOut(state: AuthState, navigateTo: string)

  /** `signOut`: the remote call's outcome is ignored. */
  function SignOut(s: AuthState, remote: RemoteOutcome): (r: SignedOut)
    ensures r.state.user.None? && r.state.session.None? && r.state.profile.None?
    ensures UserKey !in r.state.store && ProfileKey !in r.state.store
    ensures OtherKeysUnchanged(s.store, r.state.store)
    ensures r.state.loading == s.loading
    ensures WellShaped(r.state.store)
    ensures r.navigateTo == "/"
  {
    SignedOut(AuthState(None, None, None, s.loading, s.store - {UserKey, ProfileKey}), "/")
  }

  /** Signing out twice is signing out once. */
  lemma SignOutIdempotent(s: AuthState, remote: RemoteOutcome, remote': RemoteOutcome)
    ensures SignOut(SignOut(s, remote).state, remote') == SignOut(s, remote)
  {
    var once := SignOut(s, remote).state;
    assert once.store - {UserKey, ProfileKey} == once.store;
  }

  /** Result of the initialisation effect's storage check. */
  datatype InitOutcome =
    | MockRestored(state: AuthState)   // both records restored, loading done
    | NeedsRemote(state: AuthState)    // nothing usable stored: the remote path decides

  /** The mock-restore branch of the initialisation effect. A record that
      fails to parse is caught and treated like an absent one. */
  function Init(store: Store): (r: InitOutcome)
    requires WellShaped(store)
    ensures r.MockRestored? <==> UserKey in store && store[UserKey].UserDoc? && ProfileKey in store && store[ProfileKey].ProfileDoc?
    ensures r.MockRestored? ==>
              r.state == AuthState(Some(store[UserKey].user), Some(MockSession(store[UserKey].user)),
                                   Some(store[ProfileKey].profile), false, store)
    ensures r.NeedsRemote? ==> r.state == Boot(store)
  {
    if Present(store, UserKey) && Present(store, ProfileKey) then
      match (store[UserKey], store[ProfileKey])
      case (UserDoc(u), ProfileDoc(p)) => MockRestored(AuthState(Some(u), Some(MockSession(u)), Some(p), false, store))
      case _ => NeedsRemote(Boot(store))
    else NeedsRemote(Boot(store))
  }

  /** After a successful sign-in, a reload restores the same user, profile and
      session without the remote path. */
  lemma ReloadAfterSignIn(s: AuthState, email: string, password: string, role: Role, suffix: string)
    requires WellShaped(s.store)
    requires SignIn(s, email, password, role, suffix).Success?
    ensures var t := SignIn(s, email, password, role, suffix).value;
            Init(t.store) == MockRestored(t.(loading := false))
  {
  }

  /** After a sign-up, a reload restores the new identity. */
  lemma ReloadAfterSignUp(s: AuthState, email: string, password: string, nom: string, role: Role, suffix: string)
    ensures var t := SignUp(s, email, password, nom, role, suffix);
            Init(t.store) == MockRestored(t.(loading := false))
  {
  }

  /** After a sign-out, a reload finds nothing to restore. */
  lemma ReloadAfterSignOut(s: AuthState, remote: RemoteOutcome)
    requires WellShaped(s.store)
    ensures Init(SignOut(s, remote).state.store).NeedsRemote?
  {
  }

  /** Signing in as "b@x.com" with nothing stored makes a client named "b". */
  lemma SignInWithEmptyStore()
    ensures var r := SignIn(AuthState(None, None, None, false, map[]), "b@x.com", "pw", Client, "1");
            && r.Success?
            && r.value.profile.value.nom == "b"
            && r.value.profile.value.role == Client
            && r.value.profile.value.entreprise.None?
  {
    assert "b@x.com"[1..] == "@x.com";
    assert BeforeFirst("b@x.com", '@') == "b";
  }

  /** Signing up as a broker named "Alice", then signing out, leaves no
      identity and neither key. */
  lemma SignUpThenSignOut(s: AuthState)
    ensures var t := SignUp(s, "a@x.com", "pw", "Alice", Courtier, "1");
            && t.profile.value.role == Courtier
            && t.profile.value.nom == "Alice"
            && var u := SignOut(t, RemoteOk).state;
               u.profile.None? && UserKey !in u.store && ProfileKey !in u.store
  {
  }
}
