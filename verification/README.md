# Broker dashboard: session store, route guard and page logic in Dafny

This project models the stateful logic of a small React dashboard for brokers ("courtiers") and their clients:

- the mock session store (`AuthProvider`). It holds the current user, session and profile and a `loading` flag, and it keeps a fabricated identity in browser storage under `mock_user` and `mock_profile`. Its transitions are initialisation, `signInMock`, `signUpMock` and `signOut`;
- the route guard (`ProtectedRoute`) and the route table of `App`, together with the sidebar's menu;
- the list logic inside the pages. This covers case-insensitive search combined with `'Tous'`-means-off filters, the headline sums, and edits that target an id;
- the status mappings of the client space.

Everything is a pure function over immutable datatypes. Browser storage is a `map<string, Entry>`. An entry is a serialized user, a serialized profile, or text that `JSON.parse` rejects. A thrown exception becomes `Result.Failure`. Navigation is a returned path. A page handler is a function from the old page state to the new one.

Modules: `Wrappers` (Option, Result), `Text` (ASCII lower-casing, `includes`, `split(...)[0]`, decimal digits), `Seqs` (filter, order-preserving subsequence, sums), `Filters` (the "Tous"-means-off select filters), `Domain` (the `app_role` and `statut_dossier` enums), `Auth`, `Guard`, `Routes`, and one module per page: `Dossiers`, `Commissions`, `Documents`, `Partenaires`, `EspaceClient`, `Parametres`.

Inputs the source takes from the environment become parameters:

- the `Date.now()`/`Math.random()` suffix of a mock identifier is `suffix: string`;
- the `Math.random()` draw of the temporary password is `draw: real` in [0, 1);
- the outcome of the remote sign-out call is a `RemoteOutcome`.

## Model

| member | source | states |
|---|---|---|
| `Auth.CreateMockUser` | src/contexts/AuthContext.tsx:40-73 | user and profile share one id, which is "mock-" followed by the suffix; both carry the e-mail; the profile has the requested role and name; it has company "Mon Entreprise" exactly when the role is courtier |
| `Auth.MockIdsDistinct` | src/contexts/AuthContext.tsx:41 | different suffixes give different identifiers |
| `Auth.NomFromEmail` | src/contexts/AuthContext.tsx:105 | the name is the text before the first '@' (all of it when there is none), or "Utilisateur" when that text is empty; it is never empty |
| `Auth.SignIn` | src/contexts/AuthContext.tsx:76-122 | fails exactly when the stored profile does not parse, or when it matches and the stored user does not parse. A matching stored profile plus a stored user are restored as they are, and storage is untouched. Every other case fabricates an identity named after the e-mail, with the given suffix. On success both keys hold exactly the current user and profile, the session wraps the current user, and other keys and `loading` are unchanged |
| `Auth.SignInIgnoresPassword` | src/contexts/AuthContext.tsx:76-107 | the password never changes the outcome |
| `Auth.SignUp` | src/contexts/AuthContext.tsx:125-141 | always a fresh identity with the given name used verbatim, even when a matching one is stored; both keys are overwritten with it and the session wraps it |
| `Auth.SignOut` | src/contexts/AuthContext.tsx:227-242 | user, session and profile become empty; both keys are removed and no other key changes; the navigation target is "/" whatever the remote call did |
| `Auth.SignOutIdempotent` | src/contexts/AuthContext.tsx:227-242 | signing out twice gives the same state and target as signing out once |
| `Auth.Init` | src/contexts/AuthContext.tsx:143-168 | restores user, profile and session and ends loading exactly when both keys hold parsed records; otherwise, including a parse failure, it falls through to the remote path with the boot state |
| `Auth.ReloadAfterSignIn` | src/contexts/AuthContext.tsx:145-164 | after a successful sign-in, initialisation from the written storage restores the same user, profile and session |
| `Auth.ReloadAfterSignUp` | src/contexts/AuthContext.tsx:145-164 | after a sign-up, initialisation restores the new identity |
| `Auth.ReloadAfterSignOut` | src/contexts/AuthContext.tsx:234-236 | after a sign-out, initialisation finds nothing to restore |
| `Auth.SignInWithEmptyStore` | src/contexts/AuthContext.tsx:102-107 | signing in as "b@x.com" with nothing stored yields a client named "b" with no company |
| `Auth.SignUpThenSignOut` | src/contexts/AuthContext.tsx:125-141 | signing up as broker "Alice" and then signing out leaves no profile and neither key |
| `Guard.LandingPath` | src/components/ProtectedRoute.tsx:28 | courtier lands on "/dashboard", client on "/espace-client", never on "/auth" |
| `Guard.Decide` | src/components/ProtectedRoute.tsx:10-33 | loading always shows the spinner; with no user or profile it redirects to "/auth"; when signed in it renders exactly when the requirement is absent, 'any' or the profile's role, and otherwise redirects to the profile's own landing route |
| `Guard.AnyRoleRenders` | src/components/ProtectedRoute.tsx:26-32 | with no requirement or 'any', every signed-in profile renders |
| `Routes.SignInRedirect` | src/pages/Auth.tsx:22-27 | the sign-in page redirects exactly when both a user and a profile are present, to the profile role's landing route, never to itself |
| `Routes.Visit` | src/App.tsx:33-151 | "/" forwards to "/auth"; "/auth" redirects to the landing route of a signed-in profile and otherwise shows the form; undeclared paths show the not-found page; a page that shows is the one asked for |
| `Routes.WorkspaceRequiresCourtier` | src/App.tsx:38-137 | every workspace route from "/dashboard" to "/parametres" is guarded by the courtier role |
| `Routes.EspaceClientRequiresClient` | src/App.tsx:140-147 | "/espace-client" is guarded by the client role |
| `Routes.MenuPathsAreCourtierRoutes` | src/components/layout/Sidebar.tsx:20-29 | every sidebar path is a declared route guarded by the courtier role |
| `Routes.LandingGuardedByOwnRole` | src/App.tsx:38-147 | each role's landing route is guarded by that same role |
| `Routes.NoRedirectChain` | src/App.tsx:34-150 | a redirect from any declared page but "/" is never followed by another; once loading is over the page redirected to shows |
| `Routes.Navigate` | src/App.tsx:33-151 | a screen that is not a redirect is where the browser stops; a page that shows is a declared route |
| `Routes.RedirectsSettle` | src/App.tsx:33-151 | after at most two redirects the browser settles; once loading is over every declared path ends on a page that shows |
| `Routes.SignInLandsOnOwnRoute` | src/components/ProtectedRoute.tsx:21-32 | after a successful sign-in, the signed-in role's landing route shows |
| `Routes.SignedOutIsSentToAuth` | src/components/ProtectedRoute.tsx:21-23 | after sign-out every guarded route redirects to "/auth", where the sign-in form shows |
| `Seqs.Filter` | src/pages/Dossiers.tsx:99 | `.filter`, as every page uses it: the result is an order-preserving subsequence of the list, holds only elements satisfying the predicate, and keeps each element's number of occurrences when it satisfies the predicate and none otherwise |
| `Seqs.Sum` | src/pages/Commissions.tsx:73 | `reduce((acc, x) => acc + f(x), 0)`: a sum of non-negative terms is non-negative |
| `Seqs.SumConcat` | src/pages/Partenaires.tsx:187 | the sum over two lists put together is the sum of the two sums |
| `Text.Digits` | src/pages/Dossiers.tsx:121 | the decimal rendering of a number: at least one character, all digits, no leading zero for a positive number |
| `Text.DecimalRoundTrip` | src/pages/Dossiers.tsx:121 | reading the rendered digits back gives the number |
| `Text.Lower` | src/pages/Dossiers.tsx:101-102 | same length; every ASCII capital becomes its small letter, no capital is left, and every other character stays where it was |
| `Text.Contains` | src/pages/Dossiers.tsx:101-102 | the empty term is contained in every text; a term longer than the text never is |
| `Text.ContainsIffOccurs` | src/pages/Dossiers.tsx:101-102 | the search finds the term exactly when the term occurs as a contiguous block at some position of the text |
| `Text.BeforeFirst` | src/contexts/AuthContext.tsx:105 | the result is a prefix of the text that holds no separator and is followed by one, unless it is the whole text |
| `Domain.ParseStatus` | src/integrations/supabase/types.ts:361-366 | a string parses to a status exactly when it is that status's name |
| `Domain.ParseStatusName` | src/integrations/supabase/types.ts:361-366 | every status name parses back to its status |
| `Dossiers.FilterDossiers` | src/pages/Dossiers.tsx:99-107 | the result is an order-preserving subsequence of the list; a dossier is in it exactly when it is in the list, its lower-cased name or e-mail contains the lower-cased term, and the filter is 'Tous' or names its status; every occurrence of a matching dossier is kept |
| `Dossiers.FilterDossiersOff` | src/pages/Dossiers.tsx:99-107 | an empty term with 'Tous' returns the whole list |
| `Dossiers.PipelineCount` | src/pages/Dossiers.tsx:271 | a step's count is at most the number of dossiers, and zero exactly when no dossier has that status |
| `Dossiers.PipelineCountIsMultiplicity` | src/pages/Dossiers.tsx:271 | each pipeline count is the number of occurrences of that status among the dossiers |
| `Dossiers.PipelineCountsCoverAll` | src/pages/Dossiers.tsx:14-20 | when every status is one of the five steps, the five counts add up to the list length |
| `Dossiers.PinFromDraw` | src/pages/Dossiers.tsx:121 | the drawn number is between 1000 and 9999 |
| `Dossiers.TempPassword` | src/pages/Dossiers.tsx:120-123 | "Crt", four digits reading back as the drawn number, then "!": always 8 characters |
| `Dossiers.FindById` | src/pages/Dossiers.tsx:126 | finds nothing exactly when no dossier has the id, and otherwise the first one that has it |
| `Dossiers.CreateAccesClient` | src/pages/Dossiers.tsx:125-158 | an unknown id leaves the list unchanged; the length never changes; dossiers with another id are unchanged; a dossier with the id gains access and credentials with the found dossier's e-mail and the temporary password |
| `Dossiers.CreateAccesClientOwnEmail` | src/pages/Dossiers.tsx:139-149 | with distinct ids, the targeted dossier's credentials carry its own e-mail and nothing else about it changes |
| `Commissions.FilterCommissions` | src/pages/Commissions.tsx:66-71 | order-preserving subsequence; kept exactly when the lower-cased dossier label contains the lower-cased term and each of the status and partner filters is 'Tous' or equal; every occurrence of a matching commission is kept |
| `Commissions.FilterCommissionsOff` | src/pages/Commissions.tsx:66-71 | an empty term with both filters 'Tous' returns the whole list |
| `Commissions.TotalCommissions` | src/pages/Commissions.tsx:73 | with non-negative amounts the total is non-negative |
| `Commissions.Encaisses` | src/pages/Commissions.tsx:74 | with non-negative amounts the received sum lies between zero and the total; it is zero when no commission is 'encaissé' |
| `Commissions.AVenirTotal` | src/pages/Commissions.tsx:75 | with non-negative amounts the due sum lies between zero and the total; it is zero when no commission is 'a_venir' |
| `Commissions.HeadlineSums` | src/pages/Commissions.tsx:73-75 | with non-negative amounts the received and due sums never exceed the total; they make it up when every status is 'encaissé' or 'a_venir' |
| `Commissions.AddCommission` | src/pages/Commissions.tsx:86-93 | the dialog closes; the list and its filtered view do not change |
| `Documents.FilterDocuments` | src/pages/Documents.tsx:69-74 | order-preserving subsequence; kept exactly when the lower-cased name contains the lower-cased term and each of the type and status filters is 'Tous' or equal; every occurrence of a matching document is kept |
| `Documents.FilterDocumentsOff` | src/pages/Documents.tsx:69-74 | an empty term with both filters 'Tous' returns the whole list |
| `Documents.SearchIgnoresTypeAndDossier` | src/pages/Documents.tsx:70 | a document whose name does not contain the term is excluded, whatever its type or dossier text |
| `Documents.Upload` | src/pages/Documents.tsx:104-112 | the dialog closes; the list and its filtered view do not change |
| `Partenaires.FilterPartenaires` | src/pages/Partenaires.tsx:73-77 | order-preserving subsequence; kept exactly when the lower-cased term occurs in the lower-cased name, type or contact name; every occurrence of a matching partner is kept |
| `Partenaires.FilterPartenairesOff` | src/pages/Partenaires.tsx:73-77 | an empty term returns the whole list |
| `Partenaires.SearchIgnoresEmailAndPhone` | src/pages/Partenaires.tsx:73-77 | changing a partner's contact e-mail or telephone never changes whether it is kept |
| `Partenaires.TotalDossiersEnCours` | src/pages/Partenaires.tsx:187 | with non-negative counts the figure is non-negative |
| `Partenaires.TotalCoversFiltered` | src/pages/Partenaires.tsx:187 | the figure is summed over all partners, so with non-negative counts it is at least the sum over the filtered view |
| `Partenaires.AddPartenaire` | src/pages/Partenaires.tsx:92-99 | the dialog closes; the list and the total do not change |
| `EspaceClient.StatusProgress` | src/pages/EspaceClient.tsx:38-47 | the value is one of 0, 20, 40, 60, 100; unknown statuses give 0 and known ones a positive value |
| `EspaceClient.ProgressIncreases` | src/pages/EspaceClient.tsx:40-43 | progress strictly increases along en_attente, documents_recus, en_analyse, accepte |
| `EspaceClient.TerminalStatusesComplete` | src/pages/EspaceClient.tsx:43-45 | exactly the two terminal statuses give 100 |
| `EspaceClient.StatusLabel` | src/pages/EspaceClient.tsx:49-58 | an unknown status is shown as it is |
| `EspaceClient.LabelsDistinct` | src/pages/EspaceClient.tsx:51-55 | the five statuses get five different labels |
| `EspaceClient.StatusColor` | src/pages/EspaceClient.tsx:60-67 | only accepte, refuse and en_analyse get their own classes, one each; every other string gets the secondary class |
| `Parametres.SetField` | src/pages/Parametres.tsx:127-160 | the edited field takes the typed value and the other three keep theirs |
| `Parametres.DeleteMember` | src/pages/Parametres.tsx:69-70 | no remaining member has the id; every member with another id is kept, each occurrence of it; the result is an order-preserving subsequence of the table |
| `Parametres.DeleteAbsentId` | src/pages/Parametres.tsx:70 | deleting an id nobody has leaves the table unchanged |
| `Parametres.DeleteIdempotent` | src/pages/Parametres.tsx:70 | deleting the same id twice equals deleting it once |
| `Parametres.AddMember` | src/pages/Parametres.tsx:60-67 | the dialog closes; the table and the form do not change |
| `Parametres.SaveProfile` | src/pages/Parametres.tsx:52-58 | neither the form nor the table changes |

## Behaviour of the source worth noting

- `signInMock` throws when the stored profile does not parse (src/contexts/AuthContext.tsx:82), because that `JSON.parse` is not guarded. It also throws when the profile matches and the stored user does not parse (src/contexts/AuthContext.tsx:87). Only initialisation treats corrupt storage as absent.
- `signOut` leaves `loading` as it was.
- `signUpMock` uses the given name verbatim. Within the session store, the "Utilisateur" fallback exists only in `signInMock`. The sign-in page's own sign-up (src/pages/Auth.tsx:45) applies `nom || 'Utilisateur'` before calling the remote identity service, a path outside this model.
- The sign-in page redirects a signed-in user without looking at `loading`, so from "/" a signed-in user passes through two redirects before the landing page.

## Left out

- The remote identity path is out: the auth-state listener, `getSession`, `fetchProfile` and the remote sign-out call are network I/O against a library that is not part of this model. `Init` only reports that the remote path takes over. The sign-out call is reduced to an ignored outcome.
- Auth.SignIn: requires `WellShaped(store)`, so a parsed document of the other record kind under a key is not represented. The source would put such an object into the user or profile slot as it is. Every transition preserves `WellShaped`.
- Auth.Init: requires `WellShaped(store)`, for the same reason.
- Routes.Visit: compares a path with the declared routes character for character. The router's own matching, which ignores letter case and accepts a trailing slash (so "/Dashboard" and "/dashboard/" reach the "/dashboard" guard), is not modelled; such spellings show the not-found page in the model. A normalised path hits the same table entry, so the guard and redirect lemmas carry over to it.
- Stored text that parses as JSON but is not a record (such as `null` or `42`) is not represented. `Unparseable` stands for text that `JSON.parse` rejects.
- Timestamps are out: `created_at`, `email_confirmed_at` and the other ISO dates, the session's float `expires_at`, and the credentials' `created_at` are clock readings.
- Dossiers.PinFromDraw: uses exact real arithmetic for `Math.floor(1000 + draw * 9000)`. It does not model IEEE-754 rounding.
- Lower-casing is ASCII only. Unicode case mapping is not modelled.
- The partners' average acceptance rate (`Math.round(sum / length)`) is out. It uses floating division and gives NaN on an empty list.
- Toasts, the credentials modal that `handleCreateAccesClient` opens (`setSelectedDossier`), the `navigate` call and React's state-update scheduling are out. Handlers return new states, and navigation is a returned path.
- A dossier's `documents`, `historique`, `note_interne` and `date_creation` are display-only and are not fields of `Dossier`.
- Badge and icon choices are presentation only: `getStatusColor` in the dossiers page, `getStatutBadge`, `getFileIcon` and `getQualiteColor`.
- `handleExport` and `handleToggleTheme` only show a toast, and the theme is fixed to dark.
- Pages with hard-coded display data only (dashboard, analyses, landing, prospects), the visual components, `handleAuth` in the sign-in page and `fetchDossier` in the client space are outside the modelled core.
