# Session store and navigation guard of the MVA BPO portal

This project models the two pieces of the portal's client that hold decision and
state logic of their own. Everything else they use is hosted by the Supabase
backend.

- **The shared session store** (`useAuth`). It keeps one `AuthState` record with
  the fields `ready`, `loading`, `user`, `session` and `profile`. Five operations
  change it: `loadProfile` (also exported as `refreshProfile`), `init`, the
  `onAuthStateChange` listener that `init` registers, `signInWithPassword` and
  `signOut`. `loadProfile` reads the user's `app_users` row and turns it into an
  `AppUserProfile`, defaulting each field on its own.
- **The navigation guard** (`router.beforeEach` in `main.ts`). It waits for
  `init`, then checks the route's `meta` (`public`, `requiresAdmin`) against the
  session state, first match wins. The result is either "allow" or a redirect to
  `/get-started`, `/login` or `/dashboard`. The first two carry the intended
  full path as the `redirect` query parameter.

Modules and files:

- `js_values.dfy`, module `JsValues`. `Option`, the dynamic values a row can
  hold (`Null`, booleans, strings), and the JavaScript operators the code uses
  on them: `??`, `String(...)` and `Boolean(...)`.
- `profiles.dfy`, module `Profiles`. `AppUserProfile` and the row-to-profile
  conversion, together with its inverse and round-trip lemmas.
- `auth.dfy`, module `Auth`. `AuthState` as a value. Each operation is also a
  pure transition function (`InitStep`, `SignInStep`, ...), and lemmas cover any
  sequence of operations. The class `AuthStore` holds the record's fields and
  updates them in the composable's order. Each of its methods is proved equal to
  its transition function.
- `router.dfy`, module `Router`. The route table, path matching, the decision
  chain (`Decide`), the guard applied to a target location (`Guard`), and
  `BeforeEach`, which runs `AuthStore.Init` and then the guard.

The backend never runs in the model. Each backend call becomes a parameter that
carries the call's answer:

- `getSession` → `SessionResult`
- `signInWithPassword` → `SignInResult`
- `signOut` → an optional error
- the `maybeSingle` lookup in `app_users` → `ProfileLookup`: an error, no row, or
  a row given as a map from column name to value

`AuthStore.LoadProfile` returns the user id it queries, or `None` when it makes
no query. A thrown error is returned as `Some(error)`.

Behaviour of the code that is easy to misread:

- A failed `signOut` does change the state: it resets `loading` to false (the
  code sets it at useAuth.ts:119 before it throws). Everything else is left
  unchanged.
- A failed `init` leaves `loading` true.
- The profile's nullable fields keep whatever value the row held. The type
  assertions at useAuth.ts:66-70 check nothing at run time.
- The guard's `Boolean(profile?.center_id)` treats an empty `center_id` as "no
  center".
- The router is created without the `sensitive` and `strict` options
  (src/main.ts:11-31), so its matching ignores case and allows one trailing
  `/`. A non-admin asking for `/Users` or `/users/` is therefore sent to
  `/dashboard` like one asking for `/users`.

## Model

| member | source | states |
|---|---|---|
| `Profiles.CoerceRow` | src/composables/useAuth.ts:62-71 | a string `user_id` is copied; a missing or null `email` becomes "" and a string one is copied; each of `display_name`, `role`, `center_id`, `is_super_admin`, `lead_vendor` is null when missing or null and the row's value otherwise, each independently |
| `Profiles.ProfileRow` | src/composables/useAuth.ts:9-17 | the row that stores a profile has exactly the seven profile columns |
| `Profiles.CoerceProfileRow` | src/composables/useAuth.ts:62-71 | converting the row that stores a profile gives that same profile back |
| `Profiles.StoredRowRoundTrip` | src/composables/useAuth.ts:62-71 | for a row with string `user_id` and `email` and all nullable columns present, storing the converted profile gives back the row's seven columns |
| `Profiles.CoerceReadsOnlyColumns` | src/composables/useAuth.ts:45-49 | columns beyond the seven, which `select('*')` also returns, do not affect the profile |
| `Profiles.NullAndMissingAgree` | src/composables/useAuth.ts:64-70 | a null column and a missing one convert alike for every column except `user_id`, which gives "null" and "undefined" respectively |
| `Auth.ProfileFor` | src/composables/useAuth.ts:36-71 | without a user there is no profile; a profile is stored exactly when there is a user and the lookup found a row, and it is that row converted; a lookup error and a missing row both give null |
| `Auth.LoadProfileStep` | src/composables/useAuth.ts:36-73 | only `profile` changes; it is set exactly when there is a user and a row, to the converted row; consistency is kept |
| `Auth.InitStep` | src/composables/useAuth.ts:75-87 | no change when already ready; a `getSession` error is returned, setting `loading` and leaving the rest untouched; a fetched session sets `session` and `user` to the session's user or null, reloads the profile, and ends ready and not loading; it succeeds exactly when the store ends ready |
| `Auth.AuthChangeStep` | src/composables/useAuth.ts:88-96 | sets `session` to the pushed session and `user` to its user or null, reloads the profile for that user, ends ready and not loading, and the result is always consistent |
| `Auth.SignInStep` | src/composables/useAuth.ts:99-114 | on rejection the error is returned and only `loading` changes, to false; on success it sets session and user, loads that user's profile, and ends ready and not loading |
| `Auth.SignOutStep` | src/composables/useAuth.ts:116-124 | the backend's error is returned and only `loading` changes, to false; on success session, user and profile all become null, `ready` is unchanged and `loading` is false |
| `Auth.RunKeepsConsistent` | src/composables/useAuth.ts:36-124 | run one after another from a consistent state, any sequence of the five operations ends consistent: no profile without a user, and never ready while loading |
| `Auth.RunKeepsReady` | src/composables/useAuth.ts:76-114 | once ready, no sequence of operations makes the store not ready |
| `Auth.ReachableIsConsistent` | src/composables/useAuth.ts:28-34 | every state reached from the initial record is consistent |
| `Auth.InitIsIdempotent` | src/composables/useAuth.ts:76 | after a successful `init`, a second `init` changes nothing and returns no error, whatever the backend would answer |
| `Auth.InitAgreesWithAuthChange` | src/composables/useAuth.ts:82-96 | a first successful `init` leaves the same state as the auth-change listener given the same session and lookup |
| `Auth.AuthStore.constructor` | src/composables/useAuth.ts:28-34 | the store starts not ready, loading, with no user, session or profile, and with no listener registered |
| `Auth.AuthStore.LoadProfile` | src/composables/useAuth.ts:36-73 | changes only `profile`, as `LoadProfileStep` does; returns the current user's id as the lookup key, or none when there is no user and so no lookup |
| `Auth.AuthStore.Init` | src/composables/useAuth.ts:75-97 | the new state and the error are those of `InitStep`; the listener is registered exactly when a not-yet-ready store succeeds, so there is at most one listener |
| `Auth.AuthStore.OnAuthStateChange` | src/composables/useAuth.ts:88-96 | callable only once registered; the new state is that of `AuthChangeStep` |
| `Auth.AuthStore.SignInWithPassword` | src/composables/useAuth.ts:99-114 | the new state and the error are those of `SignInStep` |
| `Auth.AuthStore.SignOut` | src/composables/useAuth.ts:116-124 | the new state and the error are those of `SignOutStep` |
| `Router.MetaOfPath` | src/main.ts:12-29 | with first-match route resolution under the router's default matching (case-insensitive, one optional trailing `/`), a path whose lower-cased form, less one trailing `/` (a lone `/` is kept), is `/`, `/get-started` or `/login` resolves to public meta, one whose form is `/users` to admin meta, and every other path, matched or not, to no meta |
| `Router.OnlyThreePublicRoutes` | src/main.ts:13-15 | a path is public exactly when, lower-cased, it is `/`, `/get-started` or `/login`, with or without one trailing `/`; so `//` is public and the empty path is not |
| `Router.RootVariants` | src/main.ts:13 | `/` and `//` resolve to the public root record; the empty path and `///` have no meta |
| `Router.OnlyUsersRequiresAdmin` | src/main.ts:20 | a path requires admin exactly when, lower-cased, it is `/users` or `/users/` |
| `Router.UsersVariantsRequireAdmin` | src/main.ts:20 | `/users`, `/users/`, `/Users` and `/USERS/` all resolve to the admin-only route |
| `Router.RedirectTargets` | src/main.ts:13-16 | the redirect targets `/get-started` and `/login` are public and `/dashboard` has no meta |
| `Router.Decide` | src/main.ts:38-65 | over the guard's four tests `IsLoggedIn`, `IsSuperAdmin`, `HasCenter` and `IsAdmin` (src/main.ts:39-43), each outcome has its own condition. Allow exactly when the route is public, or the user is logged in with a center and the route is not admin-only or the user is an admin. `/get-started` with the full path exactly when not public, logged in and without a center. `/login` with the full path exactly when not public and not logged in. `/dashboard` with no query exactly when not public, logged in with a center, admin-only and not admin |
| `Router.Guard` | src/main.ts:38-65 | the decision for a target is `Decide` on the target path's meta (src/main.ts:38) and its full path: one of allow, `/get-started` or `/login` with the full path, or `/dashboard` with no query; allowed exactly when the route is public, or the user is logged in with a center and the route is not admin-only or the user is an admin |
| `Router.PublicPathAllowed` | src/main.ts:38-45 | a navigation to a path matching `/` (so also `//`), `/get-started` or `/login`, in any case and with one optional trailing `/`, is allowed in every state |
| `Router.NoRedirectLoop` | src/main.ts:45-65 | following any redirect the guard returns, in the same state, is allowed, whatever the redirected navigation's full path is |
| `Router.SuperAdminNeedsNoCenter` | src/main.ts:42-49 | a logged-in super-admin with a null `center_id` is never sent to onboarding |
| `Router.OnboardingBeforeAdminCheck` | src/main.ts:47-61 | a logged-in admin who is not super-admin and has no center, asking for any path matching `/users`, is sent to `/get-started` with the full path, not allowed |
| `Router.AdminRouteOutcomes` | src/main.ts:51-61 | on any path matching `/users` (so also `/Users` or `/users/`): an anonymous visitor goes to `/login` with the full path; a logged-in non-admin with a center goes to `/dashboard` with no query; an admin with a center is allowed |
| `Router.SignedOutGoesToLogin` | src/main.ts:63-65 | after a successful sign-out, every non-public path redirects to `/login` with the intended full path |
| `Router.MissingProfileMeansOnboarding` | src/main.ts:47-49 | in any state with a user and no profile, every non-public path redirects to `/get-started` with the full path |
| `Router.FailedLookupMeansOnboarding` | src/main.ts:47-49 | when the profile lookup fails or finds no row, the state left by a first `init` that fetched a session, by the auth-change listener given a session, and by a successful sign-in each redirects every non-public path to `/get-started` with the full path |
| `Router.BeforeEach` | src/main.ts:33-66 | runs `init` first: the new state is `init`'s; an `init` error aborts the navigation with that error; otherwise the decision is the guard's on the initialised state, which is then ready; the listener is registered exactly when a not-yet-ready store initialises successfully |
| `Router.NavigateFollowingRedirect` | src/main.ts:33-66 | the first navigation, the final state and the listener count are those of `BeforeEach` (the second run leaves them as they were); a second navigation happens exactly when the first is a redirect, and it is allowed, whatever the backend would answer then |

## Left out

- `src/lib/attorney-profile.ts`, the attorney-profile accessor, is not part of this
  model. Each of its functions is one pass-through backend call. Keeping the
  other columns intact on a partial update is the backend's job, not this
  code's.
- The Vue wrapping of the store is not modelled: `ref`, `readonly`, and the
  `createSharedComposable` singleton. The store is one `AuthStore` object.
- Asynchronous interleaving is not modelled. Each operation runs to completion
  before the next starts. This leaves out the last-write-wins races: overlapping
  profile loads, and a listener call arriving while `init` is still running.
- The listener's `loadProfile` is not awaited in the source, and its `.catch`
  clears the profile. The model runs that load to completion. A lookup that
  fails is modelled as an error answer (`LookupFailed`), not as a rejected
  promise, so the `.catch` branch never applies.
- A `loadProfile` that rejects inside `init` or `signInWithPassword` would
  propagate. This is not modelled, for the same reason.
- The email and password of `signInWithPassword` go only to the backend. The
  model takes the backend's answer instead of the credentials.
- `Session` carries only its user, and `User` only its id: these are the only
  parts of them the code reads.
- Row values are null, booleans or strings. Numeric columns are not modelled;
  the profile's columns are text, uuid or boolean.
- Logging (`console`), lazy page imports, CSS, the UI plugin, and `createApp` and
  `mount` (src/main.ts:1-9, 68-72) are not modelled.
- Some vue-router behaviour is not modelled:
  - Query-string encoding. `fullPath` is an opaque string.
  - Percent-encoding of the path. `path` is matched as given.
  - Ranking of routes by specificity. The model resolves the first matching
    record instead; no path matches two records of the flattened table. In the
    source's nested table the `/settings` parent (src/main.ts:22) and its
    empty-path child (src/main.ts:25) both match `/settings`; both have empty
    meta, so the outcome is the same.
- The route table is flattened: the children of `/settings` stand under their
  full paths, and their meta is the parent's, which is empty. Each pattern is a
  fixed path or a fixed prefix plus one `:param` segment. These are the only
  shapes in the table.
- Router.NoRedirectLoop: assumes the state does not change between the two
  navigations. A listener run in between could change it.
