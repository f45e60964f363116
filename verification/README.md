# IdeaHub client: a Dafny model of its session, navigation and page logic

This project models the logic of the IdeaHub web client, a React single-page app in
which creators publish ideas, companies show interest in them and an admin manages
accounts. Rendering is left aside. What is kept is the logic:

- the redirect sanitisers;
- how server errors are turned into text;
- the `apiFetch` request and reply rules;
- the `AuthProvider` session machine;
- the route guard;
- the three ways of signing in (password, email-code registration, OAuth);
- the decisions each page makes.

Every page operation is a pure function. It takes the page's state and the server's
reply, and returns:

- the new state;
- the error it lets escape, if any;
- a trace of the effects it caused: requests sent, token stored or cleared, identity
  resolved, navigation, a full-page redirect.

The modules follow the source tree:

| module | file | what it holds |
|---|---|---|
| `Wrappers`, `Strings`, `Url` | `wrappers.dfy`, `strings.dfy`, `url.dfy` | the JavaScript vocabulary the code relies on: `null`/`undefined` as `Option`, string truthiness and `||`, `trim`, `String(n)` and `parseInt`, and a decoded `URLSearchParams` with `get`, `set` and `delete` |
| `Errors` | `errors.dfy` | `humanizeError` |
| `Api` | `api.dfy` | `apiFetch`: the headers it sends, and how its promise settles for each kind of reply |
| `Effects` | `effects.dfy` | the trace vocabulary |
| `Session` | `session.dfy` | `refreshMe`, `loginWithToken`, `logout` and the provider's startup. Identity comes from a `whoami` oracle standing for GET /api/auth/me |
| `SafeNext` | `safe_next.dfy` | the shared `safeNext` and the OAuth callback's private copy |
| `RouteGuard` | `route_guard.dfy` | `ProtectedRoute` |
| `Login`, `Register`, `OAuth` | `login.dfy`, `register.dfy`, `oauth.dfy` | the three sign-in flows |
| `Navbar`, `Notifications`, `Home`, `EditIdea`, `IdeaDetail`, `AdminUsers` | the files of the same names | the page logic |

Where the code behaves differently from what its names and comments suggest, the model
follows the code:

- **Error codes are never seen.** Errors thrown by `apiFetch` carry no `code`. So the
  code-specific sentences of `humanizeError` can never be chosen for a server error (see
  `Api.NotFoundCodeIsNotShown`). Only the message, or "HTTP <status>", is shown.
- **Login is not all-or-nothing.** A successful identity reply whose body does not parse
  still counts as success. The login page then navigates with no user signed in (see
  `Login.NavigatesWithoutUser`).
- **The two sanitisers differ.** The OAuth callback uses its own copy of `safeNext`. That
  copy does not refuse "/login" or "/register". The login, register and OAuth-button
  pages do not sanitise `next` at all.
- **The two pages disagree on who the author is.**
  - The idea page's `isOwner` compares the author with the user's `_id` only.
  - The editor falls back to the untyped `id` (see `IdeaDetail.OwnerMayEdit`).
- **The idea page shows raw messages.** It shows a load failure's raw message instead of
  the humanised text. The two differ only for a transport failure with an empty message
  (`IdeaDetail.EmptyTransportErrorShowsNothing`).
- **The OAuth callback page has no route.** App.tsx maps no path to the callback page,
  and its catch-all route sends any unknown path to "/". So the callback flow (`OAuth.Callback`)
  is modelled as the page's code defines it, but the app as written never mounts it.
- **A NaN page never recovers.** A `page` parameter that does not start with a number
  reads as NaN. Both paging buttons then stay enabled and write "NaN" back, so paging
  never recovers a number (`Home.NaNPageIsSticky`).

## Model

| member | source | states |
|---|---|---|
| SafeNext.SafeNext | src/utils/safeNext.ts:1-12 | The result always starts with "/", is never protocol-relative ("//") and never begins with "/login" or "/register". It is the given target when that target is acceptable, and "/" otherwise. |
| SafeNext.CallbackSafeNext | src/pages/OAuthCallbackPage.tsx:9-15 | The callback's copy keeps any in-site target that is not protocol-relative, and gives "/" otherwise. |
| SafeNext.SafeNextIdempotent | src/utils/safeNext.ts:1-12 | Sanitising an already sanitised target changes nothing. |
| SafeNext.CallbackSafeNextIdempotent | src/pages/OAuthCallbackPage.tsx:9-15 | The same holds for the callback's copy. |
| SafeNext.SharedIsStricter | src/utils/safeNext.ts:8-9 | What the shared sanitiser keeps, the callback's copy keeps too. The two differ exactly on in-site targets other than "/" that begin with "/login" or "/register". |
| SafeNext.LoginPageContrast | src/utils/safeNext.ts:2-11 | Concrete cases: "/login", "/login?x=1", "/registered" and "//evil.com" become "/"; "/ideas/42" is kept; the callback's copy keeps "/login". |
| Errors.Recognise | src/utils/humanizeError.ts:4-15 | A code is recognised exactly when it is one of the five names in the switch. |
| Errors.HumanizeError | src/utils/humanizeError.ts:1-18 | The text is never empty. A falsy error gives "Unknown error". A recognised code gives its fixed sentence, whatever the message. Otherwise the text is the non-empty message, or "Server error.". |
| Api.BuildHeaders | src/api.ts:6-11 | A JSON content type is added only when there is a body and no caller content type. A truthy token always sets `Authorization: Bearer <token>`. Every other header is the caller's, unchanged. |
| Api.Prepare | src/api.ts:4-13 | The URL is the API base followed by the path, and the method and body are the caller's. The request has an Authorization header iff the token is truthy or the caller gave one; a truthy token's header is `Bearer <token>`. It has a content type iff there is a body or the caller gave one, and the caller's content type is never replaced. At most two headers are added. |
| Api.Receive | src/api.ts:13-17 | The promise resolves exactly for a 2xx status, with the parsed body, or with nothing when the body is not JSON. Otherwise it rejects with a code-less error whose message is the body's non-empty `message`, else "HTTP <status>". A transport failure rejects with the transport's error. |
| Api.HttpFailureShowsMessage | src/api.ts:16 | For every HTTP failure, `humanizeError` shows the error's message verbatim, and it is never empty. |
| Api.NotFoundCodeIsNotShown | src/api.ts:16 | A 404 whose body carries the NOT_FOUND code and no message is shown as "HTTP 404", not "Not found.". |
| Session.Initial | src/authContext.tsx:25-26 | The provider starts with no user, still loading, and satisfies the session invariant. |
| Session.RefreshMe | src/authContext.tsx:28-36 | Without a token, the user is cleared and no request is made. With a token, GET /api/auth/me is made once. On success the user becomes the reply's; on failure the state is unchanged and the error escapes. The token and `loading` are never touched. The invariant "a user only alongside a token" is preserved. |
| Session.LoginWithToken | src/authContext.tsx:38-41 | The token is stored first, then identity is resolved with it. An empty token resolves to no user without a request. A failure keeps the new token and the old user. The result always satisfies the invariant. |
| Session.LoginDoesNotNavigate | src/authContext.tsx:38-41 | Logging in with a token never navigates. |
| Session.Logout | src/authContext.tsx:43-46 | Token and user are cleared with no request, and `loading` is kept. |
| Session.Startup | src/authContext.tsx:48-60 | Startup always ends with loading false, and no error escapes. If resolving identity fails, the token is cleared and the session is anonymous. Otherwise the state is that of `refreshMe`. |
| Session.RejectedTokenIsDropped | src/authContext.tsx:48-60 | A stored token that the server rejects ends startup as an anonymous session with no token, after exactly one identity request and one clear. |
| Session.NoTokenStartsAnonymous | src/authContext.tsx:48-60 | Startup without a stored token makes no request and ends anonymous. |
| Session.RunKeepsInvariant | src/authContext.tsx:28-60 | Every sequence of the four operations keeps "a user only alongside a stored token". |
| Session.OnlyStartupChangesLoading | src/authContext.tsx:26-60 | A sequence of operations without startup leaves `loading` as it was. |
| RouteGuard.Guard | src/components/ProtectedRoute.tsx:9-16 | There are exactly three outcomes. The placeholder shows iff loading. The page shows iff loaded with a user. Otherwise the guard redirects, replacing history, to /login with `next` set to the current path and query. |
| RouteGuard.TrailingSlashesMatch | src/App.tsx:47-48 | The /me route matches "/me//", because React Router 6 accepts any run of trailing "/". It does not match "/me/x". |
| RouteGuard.ProtectedPatternsAreAcceptable | src/App.tsx:26-79 | No guarded route pattern, taken as a string, is refused by the shared sanitiser. |
| RouteGuard.GuardedPathsAreAcceptable | src/components/ProtectedRoute.tsx:11-13 | For every concrete pathname that a guarded route of App.tsx:25-79 matches, and any query, the captured `pathname + search` is accepted by the shared sanitiser. So the shared sanitiser would keep the guard's `next` unchanged. The login page itself does not sanitise `next` (see `Login.NextIsNotSanitised`). |
| RouteGuard.EditRouteMatches | src/App.tsx:25-27 | The edit route matches "/ideas/abc/edit" and does not match an empty id, "/ideas//edit". |
| Login.LoginNext | src/pages/LoginPage.tsx:22-29 | `next` is the query's non-empty `next`, else the redirect state's path and query, else "/". |
| Login.GuardRedirectRoundTrip | src/pages/LoginPage.tsx:22-29 | The guard's redirect brings a visitor to a login page whose `next` is exactly the page they were refused. |
| Login.NextIsNotSanitised | src/pages/LoginPage.tsx:29 | A protocol-relative `next`, or one pointing at the register page, is used as given. The shared sanitiser would replace it with "/". |
| Login.SubmitEnabled | src/pages/LoginPage.tsx:103 | The login button's enabling condition: not loading, an identifier that is not blank after trimming, and a non-empty password. `Login.SubmitEnabledExactly` characterises it. |
| Login.SubmitEnabledExactly | src/pages/LoginPage.tsx:103 | Outside loading, the button is enabled iff the password is non-empty and the identifier has a non-whitespace character. |
| Login.Submit | src/pages/LoginPage.tsx:31-51 | The login request always goes first. A failed request shows its humanised error and changes nothing else. Otherwise `loginWithToken` runs with the returned token; when it succeeds the page navigates to `next`, else its error is shown. The page navigates iff no error is shown, and `loading` always ends false. |
| Login.NavigatesWithoutUser | src/pages/LoginPage.tsx:41-43 | A token reply followed by an unparsable 2xx identity reply navigates with no user signed in. |
| OAuth.ServerBase | src/components/OAuthButtons.tsx:5-8 | A blank or missing configured base gives the origin. Otherwise the base is trimmed and exactly one trailing "/" is removed. |
| OAuth.ServerBaseStripsOneSlash | src/components/OAuthButtons.tsx:7 | " x// " gives "x/". |
| OAuth.BlankBaseUsesOrigin | src/components/OAuthButtons.tsx:7 | A whitespace-only base gives the origin. |
| OAuth.InitiationNext | src/components/OAuthButtons.tsx:43-48 | The button's `next` is the query's non-empty `next`, else the current path, else "/". |
| OAuth.InitiationFromLoginPage | src/components/OAuthButtons.tsx:43-48 | On the bare login page, the buttons ask to come back to "/login". |
| OAuth.Go | src/components/OAuthButtons.tsx:50-64 | When the URL can be built, exactly one full-page redirect is made to the provider URL with `next` set and its other parameters kept, and the button stays loading. When it cannot, nothing is navigated and loading resets. |
| OAuth.Callback | src/pages/OAuthCallbackPage.tsx:25-60 | An `error` parameter wins: "error: message" or "error" is shown and the session is untouched. Without error and token, "Missing token in callback URL." is shown. Otherwise `loginWithToken` runs: on success the page navigates, replacing history, to the callback-sanitised `next`; on failure the humanised error is shown. The status is failed iff nothing is navigated, and a failure always shows text. |
| OAuth.InitiationRoundTrip | src/components/OAuthButtons.tsx:43-56 | For every page and every accepted token: if the provider returns the button's `next` unchanged, the token is stored and the callback navigates, replacing history, to that `next` as the callback's sanitiser leaves it. That is the page itself whenever it is an in-site path. |
| OAuth.LoginPageRoundTrip | src/pages/OAuthCallbackPage.tsx:25-52 | An OAuth sign-in started from the bare login page ends on "/login", where the shared sanitiser would give "/". |
| Register.InitialForm | src/pages/RegisterPage.tsx:20-30 | The form starts in START as a creator account, not loading, with no error. |
| Strings.Utf16Length | src/pages/RegisterPage.tsx:91 | `length` counts UTF-16 code units. It lies between the number of characters and twice that. |
| Strings.Utf16LengthOfBmp | src/pages/RegisterPage.tsx:91 | On text without characters above U+FFFF, `length` is the number of characters. |
| Register.CanSend | src/pages/RegisterPage.tsx:91 | Username and email are not blank after trimming, and the password is at least six UTF-16 code units long. |
| Register.CanVerify | src/pages/RegisterPage.tsx:92 | `canSend` and a code that is not blank after trimming. |
| Register.EmojiCountsTwice | src/pages/RegisterPage.tsx:91 | A password of four letters and one emoji is long enough to send. |
| Register.EnablingPredicates | src/pages/RegisterPage.tsx:91-92 | `canVerify` is `canSend` plus a non-blank code. The password length counts spaces. |
| Register.OneSubmitAtATime | src/pages/RegisterPage.tsx:127-208 | Send and Verify are never both enabled. Identity inputs are unlocked when Send is enabled, and locked (with Back enabled) when Verify is. |
| Register.RoleOnlyInVerify | src/pages/RegisterPage.tsx:37-71 | The account kind is never in the start request and always in the verify request. |
| Register.SendCode | src/pages/RegisterPage.tsx:32-55 | Exactly the start request is sent. Success moves to VERIFY with no error. Failure keeps the step and shows the humanised error. Nothing but step, error and loading changes. |
| Register.VerifyRepeatsSentIdentity | src/pages/RegisterPage.tsx:57-71 | After a successful send, the verify request repeats the start request's fields in order and adds role and code. |
| Register.BackToStart | src/pages/RegisterPage.tsx:85-89 | Back returns to START with code and error cleared, keeping username, email, password and kind. |
| Register.RegisterNext | src/pages/RegisterPage.tsx:17 | `next` is the query's non-empty `next`, else "/". |
| Register.VerifyAndCreate | src/pages/RegisterPage.tsx:57-83 | The verify request always goes first. A failure at either stage shows the humanised error. Success navigates to `next`. It navigates iff no error is shown, and the step is unchanged. |
| Register.VerifyNextIsNotSanitised | src/pages/RegisterPage.tsx:17 | A `next` of "/login" is followed, though the shared sanitiser would refuse it. |
| Navbar.Links | src/components/Navbar.tsx:51-83 | Home, New and Me always come first. Notifications shows iff signed in. Company and Admin show by role. Login and Register show iff signed out, each carrying the current page as `next`. |
| Navbar.AccountArea | src/components/Navbar.tsx:84-94 | The name-and-Logout corner shows iff a user is signed in, and it shows that user's username. |
| Navbar.LogoutShowsLoginLinks | src/components/Navbar.tsx:87-92 | After the Logout button runs the session's `logout`, the bar is a visitor's. The account corner and Notifications are gone, and Login and Register are back with the current page as `next`. |
| Navbar.AccountOrLogin | src/components/Navbar.tsx:79-94 | Exactly one of the account corner and the Login link is shown. |
| Navbar.LoginLinkRoundTrip | src/components/Navbar.tsx:18-19 | Following Login from any page brings the visitor back to that page's path and query. |
| Navbar.BadgeLabel | src/components/Navbar.tsx:59-63 | A badge shows iff the count is positive. Above 99 it reads "99+". Otherwise it is the count's decimal digits. |
| Navbar.BadgeReadsBack | src/components/Navbar.tsx:61 | A badge of at most 99 parses back to the count and has at most two characters. |
| Navbar.LoadUnread | src/components/Navbar.tsx:25-36 | The count is requested iff signed in; a visitor gets 0. A failure keeps the previous count. A missing or zero count reads as 0, and otherwise the count is used. |
| Navbar.VisitorHasNoBadge | src/components/Navbar.tsx:25-29 | A visitor never sees a badge. |
| Notifications.ActorName | src/pages/NotificationsPage.tsx:11 | The actor's non-empty username, else "Someone". |
| Notifications.IdeaTitle | src/pages/NotificationsPage.tsx:12 | The idea's non-empty title, else "your idea". |
| Notifications.RenderText | src/pages/NotificationsPage.tsx:10-21 | An unknown type reads "New notification". A known type starts with the actor's name and ends with the quoted title. |
| Notifications.RenderTemplates | src/pages/NotificationsPage.tsx:14-18 | For every notification, each of the four known types reads as its fixed sentence: `<actor> liked "<title>"`, `commented on`, `bookmarked`, `showed interest in`. |
| Notifications.RenderDefaults | src/pages/NotificationsPage.tsx:10-21 | A like with nothing populated reads `Someone liked "your idea"`. An unknown type reads "New notification". |
| Notifications.OpenIdeaLink | src/pages/NotificationsPage.tsx:70-74 | The link shows iff the idea id is non-empty, and leads to /ideas/<id>. |
| Notifications.Load | src/pages/NotificationsPage.tsx:27-35 | A successful load replaces the list. A failure keeps it and escapes. Loading ends false. |
| Notifications.ShowsRead | src/pages/NotificationsPage.tsx:77-81 | The Read button shows while `readAt` is falsy. After a successful mark it no longer shows (see `MarkOne` and `MarkAll`). |
| Notifications.MarkOne | src/pages/NotificationsPage.tsx:39-42 | After success, exactly the items with that id get `readAt` set to the clock reading `now` and keep every other field. The others are unchanged, in place. A failure changes nothing and escapes. |
| Notifications.MarkAll | src/pages/NotificationsPage.tsx:44-47 | After success, every item is read, stamped with the clock reading `now`, and keeps its place. A failure changes nothing and escapes. |
| Notifications.StampEachEffect | src/pages/NotificationsPage.tsx:41 | Marking a list of ids in turn reads exactly the items whose id is in the list. |
| Notifications.MarkAllIsEveryMarkOne | src/pages/NotificationsPage.tsx:39-47 | "Mark all read" has the effect of pressing Read on every listed id. |
| Home.AtLeastOne | src/pages/HomePage.tsx:22 | `Math.max(x, 1)` is NaN iff x is; otherwise it is at least 1 and equals x when x is at least 1. |
| Home.PageOf | src/pages/HomePage.tsx:22 | A missing or empty page reads 1. A numeric page is at least 1. |
| Home.ReadPage | src/pages/HomePage.tsx:22 | A page parameter printed from n ≥ 1 reads back as n. |
| Home.RequestQuery | src/pages/HomePage.tsx:36-42 | The request has exactly the parameters sort, keyword, tag, page and limit, in that order. |
| Home.RequestQueryReads | src/pages/HomePage.tsx:36-42 | Each request parameter carries the address bar's value, with its default, and the limit is "10". |
| Home.RequestCarriesPage | src/pages/HomePage.tsx:40 | The page sent parses back to the page shown, NaN included. |
| Home.SetOrDelete | src/pages/HomePage.tsx:119-125 | A filter becomes its trimmed input, or is removed when blank. Every other parameter reads the same, and every pair with another name is kept in place. |
| Home.Apply | src/pages/HomePage.tsx:115-128 | Apply sets page "1", sets keyword and tag to their trimmed inputs or removes them, and every other parameter reads the same (see `Home.ApplyKeepsOtherPairs` for the pairs themselves). |
| Home.ApplyKeepsOtherPairs | src/pages/HomePage.tsx:115-128 | Apply keeps every pair whose name is not page, keyword or tag, in order and with repeats. |
| Url.DeleteCommutes | src/pages/HomePage.tsx:119-125 | Deleting two parameter names gives the same query in either order. |
| Home.ApplyThenRead | src/pages/HomePage.tsx:115-128 | After Apply, the page reads 1, the filters read as the trimmed inputs and the sort is kept. |
| Home.SortParams | src/pages/HomePage.tsx:81-94 | A sort button leaves only the chosen sort. |
| Home.SortResetsFilters | src/pages/HomePage.tsx:81-94 | After a sort button, the page reads 1 and there are no filters. |
| Home.Step | src/pages/HomePage.tsx:174-193 | Paging writes the page one lower or higher. Every other parameter reads the same, and every pair with another name, repeats included, is kept in place. |
| Home.StepThenRead | src/pages/HomePage.tsx:174-193 | On a numeric page, a step that stays at or above 1 reads back as the page plus the step. |
| Home.PrevDisabled | src/pages/HomePage.tsx:173 | Prev is disabled iff the page is a number at most 1. A NaN page compares false, so Prev stays enabled (see `Home.NaNPageIsSticky`). |
| Home.NextDisabled | src/pages/HomePage.tsx:189 | Next is disabled iff the page is a number at least `totalPages`, and never for a NaN page. |
| Home.PrevThenRead | src/pages/HomePage.tsx:173-178 | An enabled Prev on a numeric page moves back exactly one page. |
| Home.NextThenRead | src/pages/HomePage.tsx:189-193 | Next on a numeric page moves forward exactly one page. |
| Home.PagingKeepsFilters | src/pages/HomePage.tsx:174-193 | Paging keeps the sort, the keyword and the tag. |
| Home.NaNPageIsSticky | src/pages/HomePage.tsx:173-193 | On a NaN page both buttons are enabled, both write "NaN", and the page reads NaN again. |
| Home.NonNumericPage | src/pages/HomePage.tsx:22 | A page of "x" reads as NaN. |
| Home.Load | src/pages/HomePage.tsx:31-60 | Exactly one GET /api/ideas is sent with the request query. Success replaces the ideas (default []) and the page count (default 1, never 0) and clears the error. Failure keeps both and shows the humanised error. Loading ends false. |
| EditIdea.UserId | src/pages/EditIdeaPage.tsx:25 | The user's non-empty `_id`, else the untyped `id`. |
| EditIdea.CanEdit | src/pages/EditIdeaPage.tsx:41-45 | Editing is allowed iff an idea is loaded, the user has an id, and the user is its author (by a non-empty author id) or an admin. |
| EditIdea.OwnerlessIdeaIsAdminOnly | src/pages/EditIdeaPage.tsx:41-45 | An idea with no author id can be edited only by an admin, and never by a visitor. |
| EditIdea.InitForm | src/pages/EditIdeaPage.tsx:55-62 | Each field is filled from the idea, with the defaults "", "public", false and "default". A single tag is shown as itself and no tags as "". |
| EditIdea.TwoTagsJoined | src/pages/EditIdeaPage.tsx:59 | Two tags are shown joined by ", ". |
| EditIdea.Load | src/pages/EditIdeaPage.tsx:47-68 | Without a route id, nothing happens. Otherwise one GET is sent. A loaded idea fills the form. A failure keeps the page and toasts the humanised error. A reply with no idea clears the idea and toasts V8's TypeError text for an `undefined` idea. |
| EditIdea.OnSave | src/pages/EditIdeaPage.tsx:75-108 | The guards apply in order: no route id, then blank title ("Title is required"), then no permission ("Forbidden"); none of them sends. A request is sent iff all guards pass. It navigates to the idea with "Idea updated" iff the PUT succeeds, else the humanised error is toasted. |
| EditIdea.FieldsDisabled | src/pages/EditIdeaPage.tsx:147-199 | The inputs are disabled while saving or without edit permission. |
| EditIdea.SaveDisabled | src/pages/EditIdeaPage.tsx:208 | Save is disabled while saving, without edit permission, or with a blank title. |
| EditIdea.LockedFormIsNeverSent | src/pages/EditIdeaPage.tsx:147-208 | Locked inputs imply a disabled Save. When the lock is missing permission, `onSave` sends nothing. |
| EditIdea.EnabledSaveSends | src/pages/EditIdeaPage.tsx:208 | Pressing an enabled Save always sends the form. |
| EditIdea.SaveAfterLoadRoundTrip | src/pages/EditIdeaPage.tsx:55-98 | Saving straight after loading sends back the loaded title and the monetisation flag. |
| IdeaDetail.WithCount | src/pages/IdeaDetailPage.tsx:75-77 | A missing idea stays missing. Otherwise only the named counter changes, and missing stats spread as nothing. |
| IdeaDetail.Load | src/pages/IdeaDetailPage.tsx:83-96 | One GET is sent. Success replaces the idea, sets liked and bookmarked to whether the reply says true, and clears the error. Failure shows the raw message. Nothing else changes either way: comments, the comment box, `busy` and the interest state are kept, and loading ends false. |
| IdeaDetail.LoadErrorIsHumanized | src/pages/IdeaDetailPage.tsx:91-92 | For every HTTP failure, the raw message equals the humanised text. |
| IdeaDetail.EmptyTransportErrorShowsNothing | src/pages/IdeaDetailPage.tsx:91-92 | A transport failure with an empty message shows nothing, where `humanizeError` would show "Server error.". |
| IdeaDetail.LoadComments | src/pages/IdeaDetailPage.tsx:58-61 | The comments become the reply's, or []. A failure escapes. Nothing else changes. |
| IdeaDetail.SubmitComment | src/pages/IdeaDetailPage.tsx:63-81 | A blank comment sends nothing. Otherwise the text is posted as typed. On success the input is cleared, the new comment goes first with the earlier ones in order, and the comment count becomes the reply's. A failure changes only `busy`. |
| IdeaDetail.PostDisabled | src/pages/IdeaDetailPage.tsx:244 | Post is disabled while busy or with a blank comment. `IdeaDetail.EnabledPostSends` ties it to `submitComment`. |
| IdeaDetail.EnabledPostSends | src/pages/IdeaDetailPage.tsx:244 | An enabled Post always sends, and on success keeps the earlier comments behind the new one. |
| IdeaDetail.Toggle | src/pages/IdeaDetailPage.tsx:98-108 | Like or bookmark sets its own flag and counter from the reply and leaves the other flag and the rest of the page unchanged. A failure changes nothing. |
| IdeaDetail.ReactionsAreIndependent | src/pages/IdeaDetailPage.tsx:98-108 | A like never changes the bookmark count, and a bookmark never the like count. |
| IdeaDetail.ReactionDisabled | src/pages/IdeaDetailPage.tsx:189-198 | Like and Bookmark are disabled for a visitor. |
| IdeaDetail.ReactionsNeedSignIn | src/pages/IdeaDetailPage.tsx:189-198 | The reaction buttons are disabled exactly when the navigation bar offers Login. |
| IdeaDetail.ShowsInterest | src/pages/IdeaDetailPage.tsx:203 | The role condition of the interest panel: company accounts only. The panel also needs a loaded idea (line 134). |
| IdeaDetail.InterestPanelForCompanies | src/pages/IdeaDetailPage.tsx:53 | The panel is offered exactly to the users whose bar has the Company link, and those users can also react. Like the rest of the detail view, the panel renders only once an idea is loaded. |
| IdeaDetail.ToggleInterest | src/pages/IdeaDetailPage.tsx:110-116 | The message is posted. `interested` becomes whether the reply says true, and nothing else changes. |
| IdeaDetail.IsOwner | src/pages/IdeaDetailPage.tsx:125 | The author's id and the user's `_id` are both non-empty and equal. |
| IdeaDetail.OwnerMayEdit | src/pages/IdeaDetailPage.tsx:125 | Whoever the page calls the owner may edit the idea. A user known only by the untyped `id` may edit but is not called the owner. |
| AdminUsers.View | src/pages/AdminUsersPage.tsx:56-57 | "Please login." iff signed out; "Admin only." iff signed in but not an admin; the panel iff an admin. |
| AdminUsers.SearchQuery | src/pages/AdminUsersPage.tsx:27-30 | `q` is the trimmed search text, or absent when blank. Page is "1" and limit is "30". |
| AdminUsers.Load | src/pages/AdminUsersPage.tsx:23-41 | A non-admin sends nothing. An admin sends one search request; success replaces the rows and failure toasts the humanised error. |
| AdminUsers.RemoveId | src/pages/AdminUsersPage.tsx:50 | The remaining rows are exactly those with another id. |
| AdminUsers.RemoveIdAppend | src/pages/AdminUsersPage.tsx:50 | Filtering distributes over concatenation, so order is kept. |
| AdminUsers.RemoveAbsentId | src/pages/AdminUsersPage.tsx:50 | Removing an id no row has changes nothing. |
| AdminUsers.RemoveListedRow | src/pages/AdminUsersPage.tsx:50 | With distinct ids, deleting a listed row removes that row alone and keeps the rest in order. |
| AdminUsers.DeleteDisabled | src/pages/AdminUsersPage.tsx:92 | Delete is disabled on admin rows. |
| AdminUsers.EnabledDeleteKeepsAdmins | src/pages/AdminUsersPage.tsx:45-54 | With distinct ids, a delete through an enabled button never removes an admin row, whatever the reply. |
| AdminUsers.DeleteUser | src/pages/AdminUsersPage.tsx:45-54 | A declined confirmation does nothing. Otherwise one DELETE is sent. Success removes the row and toasts "User deleted"; failure keeps the list and toasts the humanised error. |

## Left out

- Rendering, styling, icons and the text of toasts, except where a page's logic decides it.
- Timers: the navbar's 20-second polling, and the cleanup that cancels it.
- Concurrency: requests in flight at the same time, and state updates arriving after a page has gone.
- React effect scheduling and dependency arrays. For example, the home page reloads its list only when `sort` changes, so Apply and paging rewrite the address bar without a new request. Each `load` is modelled as an operation the caller invokes.
- Percent-encoding and URL parsing. Queries are kept decoded, and `new URL(...)` is an oracle passed to `OAuth.Go`.
- Notifications.MarkAll: the page reads the clock once per item, so the stamps can differ by milliseconds. The model passes one reading `now` to every item.
- OAuth.Go: the scheme and host of the provider URL are left to the `new URL` oracle. A target keeps only the path and the query.
- The browser's `window.confirm` (an input to `AdminUsers.DeleteUser`) and the clock (`now` in `Notifications`).
- The token store (`src/auth.ts`) and the API base (`src/config.ts`), which are not part of this model. The token is an optional string in the session state, and the API base is a parameter of `Api.Prepare`.
- The notification helpers `getUnreadCount`, `listNotifications`, `markNotificationRead` and `markAllNotificationsRead`, which are not part of this model. How each settled is an input to the page logic.
- MePage, CompanyPage and NewIdeaPage, and App.tsx routing beyond the guarded patterns. `RouteGuard.Matches` follows React Router 6: literal characters compared without case, `:name` segments and any run of trailing "/". React Router's ranking between routes that match the same path, and its percent-decoding of paths, are not modelled. The catch-all route that sends unknown paths to "/" is not modelled. Nor is the missing callback route, which makes the modelled OAuth callback unreachable in the app as written.
- `Number`: `parseInt` is modelled on the integers and NaN only. Values beyond the safe-integer range, and a non-numeric `totalPages` from the server, are not modelled.
- Session.LoginWithToken: a reply without a token hands `undefined` to `loginWithToken`. The model hands on "" instead. This assumes that the token store (`src/auth.ts`, not part of this model) reads an `undefined` token back as falsy. If the store keeps the string "undefined", the real app sends a whoami request with `Bearer undefined` and shows the server's error instead of navigating away.
- EditIdea.Load: the missing-idea toast is V8's wording for an `undefined` idea. Other engines word it differently, and an `idea: null` reply reads "of null" in V8.
- IdeaDetail.Load: an error whose `message` is absent sets `err` to `undefined`. The model reads the message of the errors `apiFetch` produces, which always have one.
- EditIdea.InitForm: tags are joined with ", ". The contract states the cases of no tag and one tag; `EditIdea.TwoTagsJoined` covers two.
