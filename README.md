# Session synchronisation and identity mapping — a Dafny model

This project models the authentication core of a React/Supabase application template:

- the **identity mapper** (`mapSupabaseUserToLocalUser`), which turns the backend's raw user
  record into the application's `User`: display-name precedence, role filtering with a `[USER]`
  fallback, and timestamp fallbacks;
- the **session synchroniser** (`AuthProvider`), which owns the canonical `user` slot and the
  `loadingInitial` flag, writes the slot from the one-time initial session fetch and from the
  auth-event subscription, releases the subscription on teardown, and offers `login`, `signUp`,
  `hasRole` and `isAuthenticated`, none of which write the slot;
- the **login page decisions**: where a successful login navigates, what a sign-up reports, and
  when the Enter key or the buttons may submit the form.

Files:

- `wrappers.dfy` — `Option`, standing for JavaScript's `null` / `undefined`.
- `jsstring.dfy` — JavaScript truthiness of strings and `String.prototype.split` for a
  one-character separator, with its round trip through `join`.
- `identity.dfy` — `Role` (values `"user"` and `"admin"`), the raw record, `User`, `MapUser`
  and its properties.
- `session.dfy` — slot transitions as values (`Step`, `StepWrite`, `Apply`, `Run`), the
  `AuthProvider` class with methods `ApplyFetch`, `ApplyEvent` and `Teardown`, and the result
  selection of `login` and `signUp`.
- `loginpage.dfy` — the decisions of `handleLogin`, `handleSignUp`, `onEnterPress` and the
  buttons' `disabled` flag, returning the toast and the navigation as values.

Modelling choices:

- Asynchrony is reduced to order. Each resolution of the initial fetch or of an auth event is
  a `Step`. `Run` applies the steps in a given order, and the slot is last-write-wins.
  `AuthProvider.ApplyFetch` and `AuthProvider.ApplyEvent` perform the same transitions on the
  object's fields.
- The backend is represented only by its responses, passed in as datatypes. When the backend
  throws, the response is the `…Threw` alternative.
- `Date.now()` is the parameter `now`. A `Date` is represented by its constructor argument
  (`Timestamp`).
- Role values `"user"` and `"admin"` are assumed. The `Role` enumeration file is not part of
  this model.
- Three behaviours of the code are easy to misread; the model follows the code:
  - the initial fetch stores the session user even when the response also reports an error
    (src/auth/AuthProvider.tsx:36-41);
  - the email fallback for the name applies only when the part before `@` is non-empty, not
    merely when an email is present (src/auth/AuthProvider.tsx:181);
  - roles are a list that keeps order and duplicates, not a set (src/auth/AuthProvider.tsx:192-194).

## Model

| member | source | states |
|---|---|---|
| `JsString.Split` | src/auth/AuthProvider.tsx:181 | `split('@')` yields at least one piece and no piece contains the separator |
| `JsString.JoinSplit` | src/auth/AuthProvider.tsx:181 | joining the pieces of a split with the separator gives back the original string |
| `JsString.SplitHead` | src/auth/AuthProvider.tsx:181 | the first piece (`split('@')[0]`) is the longest prefix without `@`: it ends at the first `@` or at the end |
| `JsString.FirstRunUnique` | src/auth/AuthProvider.tsx:181 | that longest `@`-free prefix is unique, so the first piece is fully determined |
| `Identity.ParseRole` | src/auth/AuthProvider.tsx:192-194 | a string is accepted as a role only if it is that role's value; a rejected string is no role's value |
| `Identity.ParseRoleValue` | src/auth/AuthProvider.tsx:192-194 | every role's own value is accepted as that role |
| `Identity.NameFromEmail` | src/auth/AuthProvider.tsx:181 | the email-derived fallback name is never empty |
| `Identity.DeriveName` | src/auth/AuthProvider.tsx:181-186 | the derived display name is never empty |
| `Identity.NamePrecedence` | src/auth/AuthProvider.tsx:181-186 | a truthy `full_name` wins; then a truthy `name`; then the text before the first `@` of the email when it is non-empty; otherwise `"User"` |
| `Identity.KeepRole` | src/auth/AuthProvider.tsx:192-193 | the filter callback keeps at most one role per entry, and keeps a role exactly when the entry is that role's value |
| `Identity.FilterRoles` | src/auth/AuthProvider.tsx:192-194 | the filter never yields more roles than there were entries |
| `Identity.FilterRolesAppend` | src/auth/AuthProvider.tsx:192-194 | filtering a concatenation is the concatenation of the filtered parts, so the original order is kept |
| `Identity.FilterRolesCount` | src/auth/AuthProvider.tsx:192-194 | each role occurs in the result exactly as often as its value occurs in the input, so duplicates are kept and unknown values dropped |
| `Identity.FilterRolesEmpty` | src/auth/AuthProvider.tsx:192-195 | the filter yields nothing exactly when no entry is a role value |
| `Identity.DeriveRoles` | src/auth/AuthProvider.tsx:187-196 | the derived role list is never empty |
| `Identity.RolesFallback` | src/auth/AuthProvider.tsx:187-196 | roles are `[USER]` when the field is absent, not an array, or has no valid entry; otherwise they are exactly the filtered entries |
| `Identity.CreatedAt` | src/auth/AuthProvider.tsx:203 | `createdAt` comes from the clock exactly when `created_at` is absent or empty, and is then `now`; otherwise it is `created_at` |
| `Identity.UpdatedAt` | src/auth/AuthProvider.tsx:204-206 | `updatedAt` comes from the clock exactly when both `updated_at` and `created_at` are absent or empty; otherwise it is a truthy `updated_at`, else exactly `createdAt` (a truthy `created_at`, else `now`) |
| `Identity.TimestampFallback` | src/auth/AuthProvider.tsx:203-206 | `createdAt` is `created_at` when truthy, else `now`; `updatedAt` is a truthy `updated_at`, else the same value as `createdAt` |
| `Identity.MappingExamples` | src/auth/AuthProvider.tsx:181-196 | `full_name` "Alice" wins over the email; `bob@x.com` gives "bob"; empty email and hints give "User"; `["admin", "bogus"]` gives `[ADMIN]`; `[]` gives `[USER]` |
| `Identity.MapUserClockOnly` | src/auth/AuthProvider.tsx:198-207 | two mappings of one record differ only in their timestamps, and not at all when `created_at` is present |
| `Identity.MapUser` | src/auth/AuthProvider.tsx:180-208 | the mapped user has the record's `id`, the email or `""`, a non-empty name and a non-empty role list |
| `Session.StepWrite` | src/auth/AuthProvider.tsx:36-61 | every value the fetch or an event writes into the slot is absent or a well-formed user |
| `Session.Apply` | src/auth/AuthProvider.tsx:40-61 | a step that calls `setUser` replaces the slot with the value it writes; any other step leaves the slot alone; a well-formed slot stays well formed |
| `Session.Run` | src/auth/AuthProvider.tsx:49-67 | after the fetch and events resolve in any order, the slot is the initial one or the value some step wrote |
| `Session.FetchTransition` | src/auth/AuthProvider.tsx:30-47 | the fetch writes the mapped session user when there is one, even alongside an error; otherwise, and on an exception, the slot is unchanged |
| `Session.EventTransition` | src/auth/AuthProvider.tsx:52-62 | SIGNED_IN / USER_UPDATED set the mapped session user or clear the slot without one; SIGNED_OUT clears it; every other kind leaves it unchanged |
| `Session.RunWellFormed` | src/auth/AuthProvider.tsx:25-62 | in every interleaving of fetch and events, the slot only ever holds well-formed users |
| `Session.RunWithoutWrites` | src/auth/AuthProvider.tsx:52-62 | steps that do not write leave the slot as it was |
| `Session.LastWriteWins` | src/auth/AuthProvider.tsx:30-62 | in any interleaving, the final slot is the value written by the last writing step |
| `Session.StartupRace` | src/auth/AuthProvider.tsx:49-67 | a SIGNED_IN event for A and the initial fetch for B, in either order, leave whichever resolved last |
| `Session.AuthProvider.constructor` | src/auth/AuthProvider.tsx:25-27 | on mount the slot is empty, loading is in progress and the listener is registered |
| `Session.AuthProvider.ApplyFetch` | src/auth/AuthProvider.tsx:30-47 | the slot becomes the fetch transition of its old value; `loadingInitial` becomes false on every outcome; the subscription is untouched |
| `Session.AuthProvider.ApplyEvent` | src/auth/AuthProvider.tsx:52-66 | the slot becomes the event transition of its old value; nothing else changes |
| `Session.AuthProvider.Teardown` | src/auth/AuthProvider.tsx:69-73 | the listener is released; the slot and the loading flag are unchanged, so the provider stays valid; a second call changes nothing |
| `Session.AuthProvider.HasRole` | src/auth/AuthProvider.tsx:149-155 | false without a user; with a user, true exactly when the role is in its roles |
| `Session.AuthProvider.Context` | src/auth/AuthProvider.tsx:157-171 | nothing is provided while loading; afterwards `isAuthenticated` holds exactly when the slot is non-null |
| `Session.AuthenticatedIffSomeRole` | src/auth/AuthProvider.tsx:149-164 | on a valid provider, `isAuthenticated` holds exactly when `hasRole` holds for some role |
| `Session.SignInResult` | src/auth/AuthProvider.tsx:81-98 | a result exists exactly when the backend answered without error and with a user; it is that user mapped |
| `Session.Login` | src/auth/AuthProvider.tsx:76-99 | a missing or empty password gives null; otherwise the backend's answer decides; any result is well formed |
| `Session.SignUpResult` | src/auth/AuthProvider.tsx:106-122 | a result exists exactly when the backend answered without error and with `data.user`; it is the session's user mapped when there is one, else `data.user` mapped |
| `Session.SignUp` | src/auth/AuthProvider.tsx:101-123 | a missing or empty password gives null; otherwise the backend's answer decides; any result is well formed |
| `Session.PasswordCheckedFirst` | src/auth/AuthProvider.tsx:76-105 | without a password, `login` and `signUp` give null whatever the backend would answer |
| `LoginPage.Destination` | src/features/login/index.tsx:32-39 | the destination is `/admin` or `/dashboard`, and `/admin` exactly when the roles include ADMIN |
| `LoginPage.LoginOutcome` | src/features/login/index.tsx:25-47 | a user gives a success toast and navigation to its destination; null gives an error toast and no navigation |
| `LoginPage.LoginDestinations` | src/features/login/index.tsx:32-39 | ADMIN wins even alongside USER; without ADMIN the login goes to `/dashboard` |
| `LoginPage.SignUpOutcome` | src/features/login/index.tsx:62-84 | sign-up never navigates; the toast is a success exactly when a user was returned |
| `LoginPage.ButtonsDisabled` | src/features/login/index.tsx:161-171 | both buttons are disabled exactly when the email or the password is empty |
| `LoginPage.EnterTriggersLogin` | src/features/login/index.tsx:113-119 | a key press starts a login only for `"Enter"` with a non-empty email and password |
| `LoginPage.EnterMatchesButton` | src/features/login/index.tsx:113-119 | Enter starts a login exactly when the key is `"Enter"` and the Login button is enabled |
| `LoginPage.EnabledFormReachesBackend` | src/features/login/index.tsx:161 | a login from the enabled form is never rejected for a missing password |
| `LoginPage.AdminRecordLandsOnAdmin` | src/features/login/index.tsx:25-33 | a successful login of a record whose roles contain `"admin"` navigates to `/admin` |

## Left out

- `signInWithGoogle` and `logout` (src/auth/AuthProvider.tsx:125-147): they return nothing and do not write the slot; a real sign-out reaches the slot only as a SIGNED_OUT event, which `ApplyEvent` models.
- The default context value and `useAuth` (src/auth/AuthProvider.tsx:14-22, 178): React context plumbing.
- The backend calls themselves and their arguments (the email passed to `login` / `signUp`): the model takes the backend's answer as a parameter.
- Console logging of errors and warnings: it has no effect on state or results.
- The `try`/`catch` around the event handler: nothing in the modelled handler can fail, because the mapper is total.
- The `catch` branches of `handleLogin` and `handleSignUp` (src/features/login/index.tsx:48-57, 85-94): `login` and `signUp` catch every failure themselves, so those branches are not reachable from the modelled results.
- `handleGoogleSignIn` and the admin page: OAuth redirect and an unrelated data query.
- Toast durations, styles and `closable`, and all rendering.
- The form's `setEmail` / `setPassword` state: the field strings are parameters of the decision functions.
- Metadata values that are not strings: a truthy non-string `full_name` or `name` would become the name in the source; the model's hints are strings only. Non-string role entries are rejected by the source's filter and are not representable here.
- Date construction and parsing: a `Timestamp` keeps the argument the `Date` was built from.
- `Identity.MapUser`: uses one `now` for both timestamps, whereas the source reads the clock separately for `createdAt` and `updatedAt` when both timestamps are absent.
- `Session.AuthProvider.ApplyFetch` requires `loadingInitial`: the provider's single `fetchSession` call (src/auth/AuthProvider.tsx:49) is the only writer of that flag, so it is still true when the fetch resolves, and it resolves once per mount.
- Writes after teardown: the source has no guard against a fetch that resolves after unmount, and `ApplyFetch` does not check `subscribed` either. Events are delivered only to a registered listener, so `ApplyEvent` requires `subscribed`.
- A "released exactly once" guarantee: the source only calls `unsubscribe()` when the listener exists; the model only tracks the `subscribed` flag going false.
