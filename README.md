# viveo-teste: session store, profile form, profile page and feed in Dafny

viveo-teste is a small React social-profile client on top of Supabase. Its
core is described below, one Dafny module per source file.

- **Session store** (`AuthStore`, `LegacyAuthStore`, with `SessionModel`):
  - holds the signed-in identity, the session and a loading flag;
  - restores the session once, follows the auth-change notifications, and
    offers `login`, `signup` and `logout`;
  - comes in two variants, which differ in what `logout` and `signup` do.
- **Route table** (`Routes`): `/`, `/cadastro` and `/lista`. Only the feed
  is guarded, by the presence of an identity.
- **Registration / edit form** (`ProfileForm`, `ProfileFormState`):
  - in edit mode it prefills from the signed-in user's `users` row;
  - it looks up the street, city and state of an eight-digit Brazilian
    postal code (CEP) at ViaCEP;
  - it keeps an avatar and a banner file with their previews;
  - on submit it signs up (create mode), uploads the images to the
    `avatars` and `banners` buckets under `<id>/avatar.<ext>` and
    `<id>/banner.<ext>`, inserts or updates the `users` row, and navigates
    to the feed.
- **Profile page** (`ProfileViewer`):
  - shows either a generated user handed over by the feed, or the `users`
    row of the path's identifier;
  - offers "edit" on one's own page and "connect" on anybody else's.
- **Feed** (`Feed`):
  - lists the registered users, then five generated suggestions from the
    random-user service reached through a CORS relay;
  - each entry links to `/user/<id>`, and a suggestion hands itself over to
    the profile page.

Every call to a service is replaced by the reply it can give, passed in as
a parameter. This covers the authentication service, storage, the table,
ViaCEP and the random-user relay.

Components whose state changes are classes. Their state slots are fields,
and each handler is a method with a `modifies` frame.

Each handler's new state is tied to a pure function:
- `AuthStore.Step`;
- `ProfileViewer.Load`;
- `Feed.Fetched`;
- the submit pipeline `ProfileForm.Submit`, which the imperative
  `ProfileFormState.SubmitSteps` and `ProfileFormState.SaveSteps` are
  proved to follow.

Properties are proved about those functions:
- consistency of identity and session;
- loading that never returns;
- the order of the submit steps, the first failure stopping the rest, and
  a save exactly when no step fails, with every planned call issued;
- the columns written;
- the uniqueness of storage paths;
- CEP normalisation;
- what each page shows.

Where the code's behaviour is surprising, the model follows the code as
written:
- The route table has no loading placeholder. It has no entry for
  `/user/:userId`, so the feed's profile links match none of its routes
  (`Routes.ProfileLinksUnrouted`). The entry file that mounts the router is
  not part of this model.
- The feed's two fetches are not concurrent. They run one after the other
  in a single `try`, so a thrown table query skips the suggestions
  (`Feed.ThrownQuerySkipsSuggestions`).
- `isOwnProfile` is `currentUser?.id === userId` as written. It also holds
  when nobody is signed in and the path has no identifier
  (`ProfileViewer.OwnProfileWithoutIdentifier`).
- Every submit failure, including a sign-up refusal, shows the same
  "Erro ao salvar." message. The service's own message is dropped.

## Model

| member | source | states |
|---|---|---|
| SessionModel.UserOf | src/contexts/AuthContext.tsx:20 | `session?.user ?? null`: an identity exactly when there is a session, and then the session's |
| SessionModel.AfterRestore | src/contexts/AuthContext.tsx:16-26 | a restored session replaces session and identity together (consistent afterwards); a throw keeps both; loading is cleared either way |
| SessionModel.AfterAuthChange | src/contexts/AuthContext.tsx:32-36 | the notified session replaces the session, the identity is derived from it, loading is cleared |
| AuthStore.Step | src/contexts/AuthContext.tsx:15-78 | every event keeps identity and session consistent and never sets loading back; restore and auth-change clear loading; logout clears identity and session only; login and signup change nothing locally |
| AuthStore.Run | src/contexts/AuthContext.tsx:15-78 | the store after a sequence of events; stated by `RunKeepsConsistent`, `LoadingNeverReturns` and `SettledAfterSessionEvent` |
| AuthStore.RunKeepsConsistent | src/contexts/AuthContext.tsx:18-35 | over any sequence of events the identity stays the session's identity |
| AuthStore.ReachableStatesConsistent | src/contexts/AuthContext.tsx:11-13 | from the initial state, every reachable state is consistent: no identity without a session |
| AuthStore.LoadingNeverReturns | src/contexts/AuthContext.tsx:13-35 | once loading is false it stays false whatever events follow |
| AuthStore.SettledAfterSessionEvent | src/contexts/AuthContext.tsx:23-35 | after any sequence containing a restore or an auth-change event, the store is not loading |
| AuthStore.LogoutAlwaysSignsOut | src/contexts/AuthContext.tsx:63-78 | whatever came before and whether `signOut` succeeds, errs or throws, a logout leaves no identity and no session |
| AuthStore.AuthProvider.constructor | src/contexts/AuthContext.tsx:11-13 | starts with no identity, no session, loading |
| AuthStore.AuthProvider.CheckSession | src/contexts/AuthContext.tsx:16-26 | the new state is the restore event's step from the old one |
| AuthStore.AuthProvider.OnAuthStateChange | src/contexts/AuthContext.tsx:32-36 | the new state is the auth-change event's step from the old one |
| AuthStore.AuthProvider.Login | src/contexts/AuthContext.tsx:43-49 | throws exactly the service's error, and only when there is one |
| AuthStore.AuthProvider.SignUp | src/contexts/AuthContext.tsx:51-61 | returns the service's data on success, throws its error otherwise |
| AuthStore.AuthProvider.Logout | src/contexts/AuthContext.tsx:63-78 | the new state is the logout step: identity and session cleared whatever the reply, nothing thrown |
| LegacyAuthStore.Step | viveo-teste/src/contexts/AuthContext.tsx:11-58 | restore and auth-change as in the newer store; login, signup and logout leave the state unchanged; consistency kept, loading never set back |
| LegacyAuthStore.Run | viveo-teste/src/contexts/AuthContext.tsx:11-58 | the older store after a sequence of events; stated by `RunKeepsConsistent` and `LoadingNeverReturns` |
| LegacyAuthStore.RunKeepsConsistent | viveo-teste/src/contexts/AuthContext.tsx:13-32 | every sequence of events keeps identity and session consistent |
| LegacyAuthStore.LoadingNeverReturns | viveo-teste/src/contexts/AuthContext.tsx:9-32 | once loading is false it stays false |
| LegacyAuthStore.OnlyNotificationsSignOut | viveo-teste/src/contexts/AuthContext.tsx:28-58 | a signed-in identity is lost only through an event that reports no session; login, signup and logout never drop it |
| LegacyAuthStore.LogoutVariantsDiffer | viveo-teste/src/contexts/AuthContext.tsx:55-58 | after a failed `signOut` the newer store has nobody signed in while the older keeps identity and session |
| LegacyAuthStore.AuthProvider.constructor | viveo-teste/src/contexts/AuthContext.tsx:7-9 | starts with no identity, no session, loading |
| LegacyAuthStore.AuthProvider.CheckSession | viveo-teste/src/contexts/AuthContext.tsx:13-23 | the new state is the restore step from the old one |
| LegacyAuthStore.AuthProvider.OnAuthStateChange | viveo-teste/src/contexts/AuthContext.tsx:28-32 | the new state is the auth-change step from the old one |
| LegacyAuthStore.AuthProvider.Login | viveo-teste/src/contexts/AuthContext.tsx:39-45 | throws exactly the service's error, and only when there is one |
| LegacyAuthStore.AuthProvider.SignUp | viveo-teste/src/contexts/AuthContext.tsx:47-53 | returns nothing; throws exactly the service's error |
| LegacyAuthStore.AuthProvider.Logout | viveo-teste/src/contexts/AuthContext.tsx:55-58 | a returned or thrown `signOut` error reaches the caller; no local state changes |
| Routes.AppRoutes | src/AppRoutes.tsx:7-16 | `/` and `/cadastro` always render; `/lista` renders the feed exactly when an identity is present and otherwise redirects to `/`; every other path matches nothing |
| Routes.GuardReadsOnlyUser | src/AppRoutes.tsx:8-15 | two states with the same identity route every path alike, loading or not |
| Routes.SignedOutNeverReachesFeed | src/AppRoutes.tsx:14 | with no identity, no path renders the feed |
| Routes.LogoutClosesFeed | src/AppRoutes.tsx:14 | after a logout in the newer store `/lista` redirects to `/` |
| Routes.LegacyLogoutKeepsFeedOpen | src/AppRoutes.tsx:14 | after a logout in the older store `/lista` still renders the feed |
| Routes.ProfileLinksUnrouted | src/AppRoutes.tsx:11-15 | the feed's `/user/<id>` links match no route of this table |
| ProfileForm.StripNonDigits | src/Views/cadastro.tsx:95 | the result is all digits, no longer than the input, and keeps every digit's count |
| ProfileForm.StripNonDigitsAppend | src/Views/cadastro.tsx:95 | stripping distributes over concatenation, so digits keep their order |
| ProfileForm.StripNonDigitsKeepsDigits | src/Views/cadastro.tsx:95 | a string of digits is unchanged |
| ProfileForm.StripNonDigitsIdempotent | src/Views/cadastro.tsx:95 | stripping twice equals stripping once |
| ProfileForm.CepQuery | src/Views/cadastro.tsx:95-96 | a lookup is made exactly when the field has eight digits, and then with exactly those digits |
| ProfileForm.CepQueryIgnoresNonDigit | src/Views/cadastro.tsx:95-96 | inserting a non-digit anywhere in the field does not change the lookup |
| ProfileForm.ApplyCepReply | src/Views/cadastro.tsx:104-119 | `erro` clears street, city and region with "CEP não encontrado."; a good body fills them ("" for missing parts) with no message; a non-ok or failed request keeps the address and says "Falha ao buscar CEP." |
| ProfileForm.FileExtension | src/Views/cadastro.tsx:184 | `split(".").pop()`; stated by `FileExtensionIsLastPart`, `FileExtensionOfUndotted` and `FileExtensionOfDotted` |
| ProfileForm.FileExtensionIsLastPart | src/Views/cadastro.tsx:184 | `split(".").pop()` is the longest dot-free suffix of the name, preceded by a dot unless it is the whole name |
| ProfileForm.FileExtensionOfUndotted | src/Views/cadastro.tsx:184 | a name without a dot is its own extension |
| ProfileForm.FileExtensionOfDotted | src/Views/cadastro.tsx:184 | the extension of `stem.ext` is `ext` for a dot-free `ext` |
| ProfileForm.AvatarObject | src/Views/cadastro.tsx:184-189 | the avatar goes to bucket `avatars` at `<id>/avatar.<ext>` |
| ProfileForm.BannerObject | src/Views/cadastro.tsx:200-205 | the banner goes to bucket `banners` at `<id>/banner.<ext>` |
| ProfileForm.ImagePath | src/Views/cadastro.tsx:185 | `<id>/<stem>.<ext>`; stated by `ImagePathKeepsExtension` and `ImagePathInjective` |
| ProfileForm.ImagePathKeepsExtension | src/Views/cadastro.tsx:184-185 | the stored path has the uploaded file's extension |
| ProfileForm.ImagePathInjective | src/Views/cadastro.tsx:184-205 | two image paths are equal only for the same identity, stem and extension: users never overwrite each other's images, and avatar and banner never share a path |
| ProfileForm.TextRow | src/Views/cadastro.tsx:215-223 | the eight text columns, always written |
| ProfileForm.UrlColumn | src/Views/cadastro.tsx:224-225 | an image column is present exactly when its URL is truthy, with that URL |
| ProfileForm.ProfileData | src/Views/cadastro.tsx:215-226 | the row has the eight text columns plus `photo_url` / `cover_photo_url` exactly when that URL is non-empty, with the form's values |
| ProfileForm.InsertRow | src/Views/cadastro.tsx:237-241 | the insert adds `id` and `email` to the profile columns, keeping the profile's values |
| ProfileForm.PrefilledFields | src/Views/cadastro.tsx:71-78 | the eight text fields from a loaded row, null as ""; stated by `ProfileFetched` and `UnchangedEditWritesBackLoadedText` |
| ProfileForm.UnchangedEditWritesBackLoadedText | src/Views/cadastro.tsx:71-78 | saving a prefilled edit without new images writes back each loaded text column (null as "") and no image column |
| ProfileForm.WriteEffect | src/Views/cadastro.tsx:228-243 | edit mode updates the row filtered by the identifier, create mode inserts with identifier and e-mail; image URLs only when that image was selected and produced a non-empty URL |
| ProfileForm.WrittenRow | src/Views/cadastro.tsx:215-241 | the row an insert or update carries; stated by `WrittenImageColumns`, `WrittenIdentityColumns` and `WrittenTextColumns` |
| ProfileForm.WrittenImageColumns | src/Views/cadastro.tsx:180-226 | the written row has `photo_url` / `cover_photo_url` exactly when that file was selected and uploaded to a non-empty URL, so an edit without a new image keeps the stored URL |
| ProfileForm.WrittenIdentityColumns | src/Views/cadastro.tsx:230-243 | `id` and `email` are written exactly on an insert, with the new identifier and the form's e-mail |
| ProfileForm.WrittenTextColumns | src/Views/cadastro.tsx:215-223 | every text column is written with the form's value |
| ProfileForm.WriteStage | src/Views/cadastro.tsx:228-253 | the write step and the navigations; stated by `WriteStageResult` |
| ProfileForm.BannerStage | src/Views/cadastro.tsx:199-253 | the banner step and what follows; stated by `BannerStageResult` and `BannerStagePlan` |
| ProfileForm.AvatarStage | src/Views/cadastro.tsx:183-253 | the avatar step and what follows; stated by `AvatarStageResult` and `AvatarStagePlan` |
| ProfileForm.WriteInPlan | src/Views/cadastro.tsx:183-253 | the table write is among the calls a submission plans once it has an identifier |
| ProfileForm.WriteStageResult | src/Views/cadastro.tsx:228-253 | saved exactly when the write succeeds, then issuing the write and navigating (`/` or `/lista`, then `/lista`); a failed write aborts at the write with only the write issued |
| ProfileForm.BannerStageResult | src/Views/cadastro.tsx:199-253 | saved exactly when neither a selected cover's upload nor the write fails; a failed cover upload aborts at the banner step; every abort has the failed call last; effects in step order |
| ProfileForm.BannerStagePlan | src/Views/cadastro.tsx:199-253 | the calls issued are a prefix of banner upload (when a cover was selected), write, navigations; all of them when saved |
| ProfileForm.AvatarStageResult | src/Views/cadastro.tsx:183-253 | saved exactly when no selected image's upload and not the write fails; a failed photo upload aborts at the avatar step, a failed cover upload after a good photo at the banner step; every abort has the failed call last; effects in step order |
| ProfileForm.AvatarStagePlan | src/Views/cadastro.tsx:183-253 | the calls issued are a prefix of avatar upload (when a photo was selected), banner upload (when a cover was selected), write, navigations; all of them when saved |
| ProfileForm.Submit | src/Views/cadastro.tsx:161-259 | effects happen in the order sign-up, avatar, banner, write, navigation, and nothing after the first failure; validation fails exactly in create mode with a missing e-mail, password or user name, before any call; edit mode never signs up; each abort names a failed call; success ends at `/lista` |
| ProfileForm.MissingRequired | src/Views/cadastro.tsx:170 | the create-mode validation condition; `Submit` aborts at validation exactly when it holds in create mode |
| ProfileForm.SubmitOnceIdentified | src/Views/cadastro.tsx:166-253 | once the identifier is known (the new account's in create mode, the signed-in user's in edit mode, non-empty), the rest of the submission is the avatar step onwards, behind the sign-up in create mode |
| ProfileForm.SubmitStopsAtFirstFailure | src/Views/cadastro.tsx:166-253 | saved exactly when no step fails; an abort is at the first failing step in the order validation, sign-up, identifier check, avatar upload, banner upload, write (so a refused sign-up aborts at registration and an empty identifier at the identifier check); before an identifier exists at most the sign-up was issued |
| ProfileForm.SubmitFollowsPlan | src/Views/cadastro.tsx:166-253 | with an identifier, the calls issued are a prefix of sign-up (create mode), selected uploads, write, navigations, the failed call last on an abort; a saved submission issued all of them, the write with that identifier among them |
| ProfileFormState.SubmitSteps | src/Views/cadastro.tsx:166-178 | the imperative `try` block issues exactly the pipeline's effects and ends the same way |
| ProfileFormState.SaveSteps | src/Views/cadastro.tsx:180-253 | the uploads, write and navigation, step by step with early exits, are the pipeline from the avatar step on |
| ProfileFormState.CadastroForm.HandleSubmit | src/Views/cadastro.tsx:161-260 | callable only while no submission and no CEP lookup is under way, as the submit button is disabled then (src/Views/cadastro.tsx line 648); issues the pipeline's effects for the form's state; the message is cleared on success and "Erro ao salvar." on any failure; loading ends cleared |
| ProfileFormState.CadastroForm.constructor | src/Views/cadastro.tsx:22-50 | create mode, nothing loading, no error, empty fields, no files or previews |
| ProfileFormState.CadastroForm.UserChanged | src/Views/cadastro.tsx:55-59 | a signed-in user switches to edit mode, starts loading and queries that user's row; no user changes nothing |
| ProfileFormState.CadastroForm.ProfileFetched | src/Views/cadastro.tsx:60-88 | a returned row fills the eight fields (`x \|\| ""`), the e-mail and the previews (`x \|\| null`); otherwise the fields stay; loading ends |
| ProfileFormState.CadastroForm.CepBlur | src/Views/cadastro.tsx:94-99 | the ViaCEP request is made exactly for eight digits, showing the spinner and clearing the error; otherwise nothing changes |
| ProfileFormState.CadastroForm.CepReplied | src/Views/cadastro.tsx:100-122 | the address becomes the reply applied to it, a failure or "not found" sets its message, and the spinner is hidden |
| ProfileFormState.CadastroForm.RemovePhoto | src/Views/cadastro.tsx:125-130 | no avatar file, name or preview remains |
| ProfileFormState.CadastroForm.RemoveCoverPhoto | src/Views/cadastro.tsx:132-137 | no banner file, name or preview remains |
| ProfileFormState.CadastroForm.PhotoFileChange | src/Views/cadastro.tsx:139-148 | the chosen file becomes the avatar with its name and preview; no file removes the avatar; names always match files |
| ProfileFormState.CadastroForm.CoverPhotoFileChange | src/Views/cadastro.tsx:150-159 | the same for the banner |
| ProfileViewer.GeneratedPicture | src/Views/user.tsx:46 | the large picture, or the medium one when the large is empty; empty only when both are |
| ProfileViewer.FromGenerated | src/Views/user.tsx:37-50 | a generated user maps to login name, names, the fixed description, city, country as region, the picture and no cover |
| ProfileViewer.RowQuery | src/Views/user.tsx:37-60 | the row is fetched exactly when no generated user was handed over and the path has an identifier, and for that identifier |
| ProfileViewer.Load | src/Views/user.tsx:36-72 | a generated user is shown at once; with no identifier nothing changes; otherwise a fetched row replaces the profile, a failure keeps it, and loading ends |
| ProfileViewer.IsOwnProfile | src/Views/user.tsx:33 | with an identifier in the path, own exactly when that identity is signed in; without one, own exactly when nobody is signed in |
| ProfileViewer.OwnProfileIffSameIdentity | src/Views/user.tsx:33 | with an identifier in the path, a page is one's own exactly when that identity is signed in |
| ProfileViewer.OwnProfileWithoutIdentifier | src/Views/user.tsx:33 | as written, the comparison also holds with nobody signed in and no identifier |
| ProfileViewer.LocationLine | src/Views/user.tsx:186-194 | a location is shown exactly when city or region is non-empty, with ", " only between two non-empty parts |
| ProfileViewer.View | src/Views/user.tsx:99-202 | "edit" (to `/cadastro`) exactly on one's own page and "connect" exactly elsewhere; the e-mail only on one's own page when present; "Sem descrição." for an empty description |
| ProfileViewer.Render | src/Views/user.tsx:77-97 | loading first, then "not found" with the way back to `/lista` when there is no profile, then the detail view |
| ProfileViewer.FirstLoadOutcome | src/Views/user.tsx:36-97 | on a fresh page, a handed-over generated user is shown without a fetch; no identifier keeps it loading; a failed fetch or null row shows "not found" |
| ProfileViewer.EditOrConnect | src/Views/user.tsx:140-160 | signed in as A, A's page offers edit and not connect, another page offers connect and not edit |
| ProfileViewer.EmailOnlyOnOwnPage | src/Views/user.tsx:197-202 | an e-mail is shown only on the signed-in user's own page and is theirs |
| ProfileViewer.GeneratedProfilePictures | src/Views/user.tsx:37-50 | a generated user is shown with a picture exactly when it has one, and never with a cover |
| ProfileViewer.FailedRefetchKeepsPreviousProfile | src/Views/user.tsx:62-75 | the state is not reset between loads: a failed fetch keeps the profile shown before |
| ProfileViewer.UserPage.constructor | src/Views/user.tsx:30-31 | no profile, loading |
| ProfileViewer.UserPage.GetProfile | src/Views/user.tsx:36-72 | the new state is the load function of the old one, and the row fetched (if any) is the row query |
| Feed.Requests | src/Views/lista.tsx:32-42 | the table query is always made; the suggestions request exactly when the query did not throw |
| Feed.Fetched | src/Views/lista.tsx:30-55 | loading ends; the registered users are the returned rows ([] for null), kept when the query fails; the suggestions are the returned ones when the query did not throw and the request succeeded, kept otherwise |
| Feed.FetchAlwaysSettles | src/Views/lista.tsx:50-54 | loading ends whatever the two calls do |
| Feed.RegisteredUsersIndependentOfSuggestions | src/Views/lista.tsx:32-37 | the registered users are the returned rows (none for null), kept on a failed query, whatever the suggestions do |
| Feed.QueryErrorKeepsSuggestions | src/Views/lista.tsx:36-49 | a returned query error does not stop the suggestions, shown exactly when the request succeeds |
| Feed.ThrownQuerySkipsSuggestions | src/Views/lista.tsx:30-51 | a thrown query skips the suggestions request and keeps both lists |
| Feed.FeedPage.constructor | src/Views/lista.tsx:25-27 | empty lists, loading |
| Feed.FeedPage.FetchData | src/Views/lista.tsx:30-55 | the new state is the fetch function of the old one; the calls made are `Requests` |
| Feed.UserPath | src/Views/lista.tsx:89 | `/user/` followed by the identifier |
| Feed.UserPathInjective | src/Views/lista.tsx:89 | distinct identifiers give distinct profile paths |
| Feed.Handle | src/Views/lista.tsx:107 | `@` and the user name, or `@sem_usuario` when it is missing or empty |
| Feed.MemberItems | src/Views/lista.tsx:78-117 | one placeholder item for no users, otherwise one link per user in order with its path, handle and photo |
| Feed.MemberLinksDistinct | src/Views/lista.tsx:83-89 | users with distinct identifiers get distinct links |
| Feed.SuggestionItems | src/Views/lista.tsx:141-171 | one link per generated user to its `uuid` path, carrying the user as navigation state |
| Feed.SuggestionOpensWithoutFetch | src/Views/lista.tsx:146-148 | following a suggestion shows that generated user on the profile page with no table fetch |
| Feed.RenderFeed | src/Views/lista.tsx:60-66 | loading until fetched, then the two lists of the state |
| Feed.FirstFetchShowsLists | src/Views/lista.tsx:25-118 | after the first fetch the lists show, with the placeholder when no users came back and no suggestions when none came back |

## Left out

- Services: Supabase auth, storage, the table, ViaCEP and the random-user
  relay are not modelled. Each call is a parameter holding the reply it can
  give.
- `URL.createObjectURL` is the `objectUrl` parameter.
- `encodeURIComponent` is the constant `Feed.SuggestionsUrl`.
- `api/random-users.js` (an HTTP proxy) is not part of this model.
- React scheduling is not modelled:
  - effect re-runs on dependency changes;
  - unmounting and the subscription teardown
    (src/contexts/AuthContext.tsx:38-40);
  - the race between the restore and the notifications;
  - interleavings between awaits.

  The store is a sequence of discrete events. Each handler runs to
  completion. The profile fetch is split into `UserChanged` and
  `ProfileFetched`, and the CEP lookup into `CepBlur` and `CepReplied`.
- Routes.AppRoutes takes the path as given and compares it exactly. React
  Router also matches `/Lista` and `/lista/` to the `/lista` entry (paths
  are compared without regard to case or a trailing slash); the model sends
  those to no route.
- ProfileFormState.CadastroForm.HandleSubmit runs atomically. Its
  intermediate `isLoading == true` is not observable in the model.
- The `onChange` setters of the text inputs are plain assignments and are
  not modelled.
- Clearing the file inputs' DOM value (src/Views/cadastro.tsx:129, 136) is
  not modelled.
- `console` logging is not modelled.
- Markup, styling and icons are not modelled. Only the decisions the pages
  make are.
- ProfileFormState.CadastroForm.CepBlur reads the form's `cep` slot. The
  source reads the input element's value, which is that slot because the
  input is controlled.
- Navigation effects are recorded in order: `/` then `/lista` in create
  mode, `/lista` twice in edit mode. What the router does with two
  navigations in a row is not modelled.
- Feed.Fetched: a suggestions body without a `results` field is not
  modelled, because the reply always carries a sequence. A body that fails
  to parse counts as a throw.
- Backend-owned rules are not modelled: user-name uniqueness, password
  policy, storage access and session expiry.
- Files that are not part of this model: src/Views/_header.tsx (menu
  chrome), src/Views/eu.tsx (static content), src/Views/Layout.tsx
  (composition), src/contexts/AuthContextDef.ts (types), `hooks/useAuth`,
  `lib/supabase`, `Views/home`, and the entry file that mounts the router.
