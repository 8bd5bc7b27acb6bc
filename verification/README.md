# Job portal client: session, guard and workflow logic in Dafny

This project models the decision logic of the job-portal single-page client
(React). The logic covers these parts:

- the browser-stored session (token and username);
- the shared API client's request interceptor and endpoint helpers;
- the route guard and the Navbar;
- the Login and Register forms;
- the opportunity list and opportunity cards, including stipend and start-date formatting;
- the apply action;
- the dashboard's fetch sequence and its profile update, which is gated on a minimum age of 20.

Every component is a set of pure step functions over immutable records. A
step returns its new state and a list of effects: navigate, send a request,
alert or toast. Requests are values. Replies come back as inputs:
`Ok(data)`, or `Failed(response?)` carrying the status and `message`.

Modules, one per source file plus shared ones:

| module | file | models |
|---|---|---|
| `Js` | js.dfy | JS values (`undefined`/`null`/string), truthiness, `String(v)`, `a \|\| b` |
| `Calendar` | calendar.dfy | dates as integer triples, `calculateAge` arithmetic |
| `Entities` | entities.dfy | Profile, Opportunity, Stipend, BirthDate |
| `Http` | http.dfy | requests, replies, effects, the server-message-or-fallback rule |
| `Storage` | storage.dfy | `localStorage` items "token" and "username" |
| `Api` | api.dfy | client/src/components/services/api.js |
| `App` | app.dfy | client/src/App.js |
| `Auth`, `Login`, `Register` | auth.dfy, login.dfy, register.dfy | client/src/components/Auth/*.js |
| `JsText` | text.dfy | `replace(/\s+/g, " ")` and `replace("/month", "")` |
| `OpportunityCard` | card.dfy | client/src/components/Opportunities/OpportunityCard.js |
| `OpportunityList` | list.dfy | client/src/components/Opportunities/OpportunityList.js |
| `Dashboard` | dashboard.dfy | client/src/components/Dashboard/Dashboard.js |
| `Journeys` | journeys.dfy | how a sign-in's stored token reaches the guard, the dashboard and the cards |

The model follows the code, including these easily missed behaviours:

- **The dashboard fetches in sequence.** It requests the applied-opportunities list only after the profile reply has been handled.
- **The dashboard builds its own Authorization header.** The header is `"Bearer " + String(getItem("token"))`, with no truthiness check, so a missing token is sent as "Bearer null".
- **Only the apply action uses the shared client's interceptor.** Login, Register, the listing and the dashboard call axios directly.
- **A login or register reply without a token still opens the guard.** `setItem` stores the text "undefined", which is truthy.
- **A missing or unparseable date of birth passes the age gate.** `calculateAge` returns NaN, and `NaN < 20` is false, so the PUT is sent (`Dashboard.UnknownBirthDatePasses`).
- **A 400 reply to an apply request is alerted as `String(message)`.** A missing or null message shows "undefined" or "null", where the Login and Register forms would fall back to their own text (`OpportunityCard.ApplyAlertVersusFallback`).
- **Nothing in these files writes the "username" item.** Only logout removes it, so the Navbar greeting always reads "Hi, User" unless something outside these files stores a name.
- **A card reads the token once, at render time.** Its button label and redirect decision come from that read (`isLoggedIn`). The interceptor reads the store again when the apply request is made.

## Model

| member | source | states |
|---|---|---|
| `Js.OrElse` | client/src/components/Auth/Login.js:42 | `a \|\| b` on strings yields `a` exactly when `a` is a non-empty string, else `b` |
| `Js.ItemTruthy` | client/src/components/Opportunities/OpportunityCard.js:7-8 | a stored item is truthy exactly when it is present and non-empty |
| `Calendar.AgeOn` | client/src/components/Dashboard/Dashboard.js:95-105 | the computed age is the number of anniversaries passed: the age-th anniversary is on or before today, the next is not |
| `Calendar.AgeIsUnique` | client/src/components/Dashboard/Dashboard.js:95-105 | any n with that anniversary property equals the computed age |
| `Calendar.AgeByBirthday` | client/src/components/Dashboard/Dashboard.js:98-104 | age is the year difference once this year's birthday has come, one less before it |
| `Calendar.AgeNonNegative` | client/src/components/Dashboard/Dashboard.js:98-104 | a birth date on or before today gives an age of at least 0 |
| `Calendar.AgeMonotone` | client/src/components/Dashboard/Dashboard.js:98-104 | with the birth date fixed, the age never decreases as today moves forward |
| `Calendar.AgeExamples` | client/src/components/Dashboard/Dashboard.js:95-105 | born 2004-06-16 the age on 2024-06-15 is 19; born 2004-06-15 it is 20 |
| `Http.ServerMessageOr` | client/src/components/Auth/Login.js:42 | the error text is the server's non-empty message when present, else the fallback |
| `Storage.StoreToken` | client/src/components/Auth/Login.js:39 | `setItem` stores the string form of the value (a missing token becomes "undefined", a null one "null"); username untouched |
| `Storage.RemoveToken` | client/src/components/services/api.js:26 | after removal the item is absent, so `getItem` yields null and the token is not truthy; username untouched |
| `Api.Intercept` | client/src/components/services/api.js:9-20 | a truthy token sets Authorization to "Bearer " + token; otherwise the request is returned unchanged; no other header or field ever changes |
| `Api.InterceptIdempotent` | client/src/components/services/api.js:9-16 | intercepting twice equals intercepting once |
| `Api.InterceptAuthorizes` | client/src/components/services/api.js:12-14 | the result has an Authorization header iff the token is truthy or the caller set one |
| `Api.SetAuthToken` | client/src/components/services/api.js:22-28 | a truthy argument is stored, a falsy one removes the token; the guard admits afterwards iff the argument was truthy |
| `Api.ApplyPath` | client/src/components/services/api.js:42-44 | the apply path is "/opportunities/", then the id, then "/apply" |
| `Api.ApplyPathRoundTrip` | client/src/components/services/api.js:42-44 | parsing the apply path of an id yields that id |
| `Api.ParseApplyPathSound` | client/src/components/services/api.js:42-44 | any path that parses to an id is that id's apply path |
| `Api.RequestFor` | client/src/components/services/api.js:30-56 | no helper sets a header; the three readers are GETs, the profile update is the only PUT and sends the user object, and only the credential posts and the update carry a body |
| `Api.CallRoundTrip` | client/src/components/services/api.js:30-56 | each endpoint helper's request identifies the helper and its arguments |
| `Api.CallOfSound` | client/src/components/services/api.js:30-56 | a request recognised as a helper's is exactly what that helper builds |
| `Api.Dispatch` | client/src/components/services/api.js:9-44 | a helper's request after interception still identifies the call, and it carries "Bearer token" as its only header iff the token is truthy |
| `App.PrivateRoute` | client/src/App.js:28-31 | children are rendered iff the token is truthy, otherwise a redirect to /login |
| `App.Route` | client/src/App.js:147-152 | on a path as the router compares it (exact text), exactly /, /dashboard, /login and /register have a route; /dashboard goes through the guard, the others show their page directly |
| `App.OnlyDashboardIsGuarded` | client/src/App.js:147-152 | /dashboard is shown iff the token is truthy; /, /login and /register render the same page whatever the store holds |
| `App.Greeting` | client/src/App.js:102 | the greeting uses the stored username, or "User" when it is absent or empty |
| `App.NavLinks` | client/src/App.js:67-117 | exactly one link group is shown: the guest links iff the token is not truthy |
| `App.NavbarAgreesWithGuard` | client/src/App.js:28-31 | the Navbar shows the member links iff the guard admits the dashboard |
| `App.Logout` | client/src/App.js:48-53 | logout removes token and username, closes the menu and navigates to /login |
| `App.LogoutLocksDashboard` | client/src/App.js:48-53 | after logout the guard redirects, the Navbar shows guest links and the greeting falls back to "User" |
| `App.UserInfo` | client/src/App.js:55-58 | the User Info item closes the menu and navigates to /dashboard, leaving the store unchanged |
| `Auth.Settle` | client/src/components/Auth/Login.js:39-43 | success stores `String(token)` (a missing token as "undefined", a null one as "null"), keeps everything else in the store, and navigates to /dashboard; failure sets the message-or-fallback error, keeps the store and navigates nowhere |
| `Auth.SuccessAdmits` | client/src/components/Auth/Login.js:39 | after success the guard admits iff the returned token is not the empty string |
| `Login.Submit` | client/src/components/Auth/Login.js:34-38 | login always sends one POST to /auth/login with exactly email and password and no Authorization header |
| `Login.OnReply` | client/src/components/Auth/Login.js:39-43 | success stores `String(token)` ("undefined" or "null" when the token is missing or null), keeps the username, and navigates to /dashboard; failure shows the server message or "An error occurred during login" and changes neither the store nor the location |
| `Journeys.LoginThenDashboard` | client/src/components/Auth/Login.js:39-40 | after a login with a non-empty token the guard admits the dashboard, the dashboard's first request carries "Bearer " + token, and every card offers "Apply" and authorises its apply request with that token |
| `Register.Submit` | client/src/components/Auth/Register.js:36-48 | nothing is sent iff the passwords differ, and then the error is "Passwords do not match"; otherwise one POST goes out with exactly name, email and password, never confirmPassword |
| `Register.OnReply` | client/src/components/Auth/Register.js:49-55 | success stores `String(token)` ("undefined" or "null" when the token is missing or null), keeps the username, and navigates to /dashboard; failure shows the server message or "An error occurred during registration" and leaves the store alone |
| `Register.MismatchThenCorrected` | client/src/components/Auth/Register.js:36-48 | after a mismatch, correcting the confirmation and resubmitting sends the registration request, while the "Passwords do not match" error stays on the form |
| `Journeys.RegisterThenDashboard` | client/src/components/Auth/Register.js:49-50 | after registering with a non-empty token the guard admits the dashboard, whose first request and every card's apply request carry "Bearer " + token |
| `Journeys.MissingTokenStillSignsIn` | client/src/components/Auth/Login.js:39-40 | a login reply without a token stores "undefined", which opens the dashboard and is sent as "Bearer undefined" |
| `JsText.CollapseWhitespace` | client/src/components/Opportunities/OpportunityCard.js:31 | the result has only plain single spaces as whitespace; it keeps the non-whitespace characters in order, is never longer, and starts with whitespace iff the input does |
| `JsText.CollapseKeepsCollapsed` | client/src/components/Opportunities/OpportunityCard.js:31 | a string already collapsed is returned unchanged |
| `JsText.CollapseIdempotent` | client/src/components/Opportunities/OpportunityCard.js:31 | the collapse is idempotent, and its fixed points are exactly the collapsed strings |
| `JsText.CollapseBlank` | client/src/components/Opportunities/OpportunityCard.js:31 | a non-empty whitespace run collapses to a single space |
| `JsText.CollapseSplitsAtVisible` | client/src/components/Opportunities/OpportunityCard.js:31 | the collapse works run by run: the two sides of a non-whitespace character collapse independently |
| `JsText.IndexFrom` | client/src/components/Opportunities/OpportunityCard.js:31 | the search finds the first occurrence at or after the start index, or proves there is none |
| `JsText.RemoveFirst` | client/src/components/Opportunities/OpportunityCard.js:31 | only the first occurrence is cut out; without an occurrence the string is unchanged; the result is never longer |
| `JsText.LaterOccurrenceSurvives` | client/src/components/Opportunities/OpportunityCard.js:31 | an occurrence after the first one survives, shifted left by the pattern length |
| `JsText.RemoveFirstLength` | client/src/components/Opportunities/OpportunityCard.js:31 | when the pattern occurs, the result is exactly one pattern length shorter |
| `OpportunityCard.Render` | client/src/components/Opportunities/OpportunityCard.js:7-8 | a card is logged in iff the token is truthy when it renders |
| `OpportunityCard.FormatStipend` | client/src/components/Opportunities/OpportunityCard.js:29-34 | a non-string stipend is returned unchanged; a string one is collapsed, then loses its first "/month", and never grows |
| `OpportunityCard.StipendFirstMonthOnly` | client/src/components/Opportunities/OpportunityCard.js:31 | "5000/month/month" is shown as "5000/month": the second occurrence survives |
| `OpportunityCard.StipendMayKeepDoubleSpace` | client/src/components/Opportunities/OpportunityCard.js:31 | "a /month b" is shown as "a  b", so the displayed stipend can contain two spaces in a row |
| `OpportunityCard.FormatStartDate` | client/src/components/Opportunities/OpportunityCard.js:36-41 | the sentinel "Starts Immediately" is shown as given, and only it; everything else goes through locale formatting |
| `OpportunityCard.ButtonLabel` | client/src/components/Opportunities/OpportunityCard.js:95 | the label is "Apply" iff the card is logged in, else "Login to Apply" |
| `OpportunityCard.Click` | client/src/components/Opportunities/OpportunityCard.js:10-17 | without a token at render time, apply navigates to /login and posts nothing; otherwise it sends one POST to the opportunity's apply path, authorised iff the store holds a truthy token |
| `OpportunityCard.LabelAgreesWithClick` | client/src/components/Opportunities/OpportunityCard.js:10-17 | the label is "Apply" iff pressing the button sends a request, and "Login to Apply" iff it only navigates to /login, whatever the store holds at click time |
| `OpportunityCard.OnApplyReply` | client/src/components/Opportunities/OpportunityCard.js:16-26 | success alerts the confirmation; a 400 alerts the server's message verbatim; every other failure alerts the generic message |
| `OpportunityCard.ApplyAlertVersusFallback` | client/src/components/Opportunities/OpportunityCard.js:19-25 | a 400 with a truthy message alerts what the message-or-fallback rule gives; a 400 with a missing, null or empty message alerts its text form, which is never the fallback; any other status alerts the fallback |
| `OpportunityCard.DuplicateApplication` | client/src/components/Opportunities/OpportunityCard.js:19-25 | a 400 with "Already applied" shows exactly that; the same body with status 500 shows the generic text |
| `OpportunityCard.Show` | client/src/components/Opportunities/OpportunityCard.js:80-98 | the card shows the title and company, the formatted stipend, the location and duration as given, the formatted start date, and the button label |
| `OpportunityList.Mount` | client/src/components/Opportunities/OpportunityList.js:45-52 | the initial state is loading, with no error and no items; one unauthenticated GET /opportunities is sent |
| `OpportunityList.OnReply` | client/src/components/Opportunities/OpportunityList.js:52-58 | success sets the list to the response data, failure sets "Error fetching opportunities"; loading ends either way |
| `OpportunityList.Render` | client/src/components/Opportunities/OpportunityList.js:64-85 | loading wins over error, error over the list; an empty list shows "No opportunities available at the moment."; otherwise one card per item, in order |
| `OpportunityList.MountThenReply` | client/src/components/Opportunities/OpportunityList.js:49-85 | after the reply the page never shows loading; it shows the error iff the fetch failed and the empty message iff the data was empty |
| `Dashboard.CalculateAge` | client/src/components/Dashboard/Dashboard.js:95-105 | a known birth date gives the whole years by the anniversary rule; any other value gives NaN |
| `Dashboard.Underage` | client/src/components/Dashboard/Dashboard.js:111 | `age < 20` holds for a whole-year age below 20 and never for NaN |
| `Dashboard.UnderageBeforeTwentieth` | client/src/components/Dashboard/Dashboard.js:110-111 | the gate refuses exactly the known birth dates whose 20th anniversary is still after today; an unknown one is never refused |
| `Dashboard.HandHeaders` | client/src/components/Dashboard/Dashboard.js:66-68 | the hand-built header is always present and is "Bearer null" when no token is stored |
| `Dashboard.HandHeadersVersusInterceptor` | client/src/components/Dashboard/Dashboard.js:66-68 | with a truthy token the hand-built header equals the interceptor's; without one it is still sent where the interceptor sends none |
| `Dashboard.ProfileRequest` | client/src/components/Dashboard/Dashboard.js:66-69 | the profile fetch is the GET /users/profile request, with no body and the hand-built header |
| `Dashboard.AppliedRequest` | client/src/components/Dashboard/Dashboard.js:80-82 | the applied-list fetch is the GET /users/applied-opportunities request, with no body and the hand-built header |
| `Dashboard.Mount` | client/src/components/Dashboard/Dashboard.js:56-69 | the initial state is loading, with no error and no user; the only request is GET /users/profile |
| `Dashboard.OnProfileReply` | client/src/components/Dashboard/Dashboard.js:70-89 | the applied list is requested only after a usable profile has been stored; otherwise loading ends with "Error fetching user data" |
| `Dashboard.OnAppliedReply` | client/src/components/Dashboard/Dashboard.js:80-89 | loading ends; success stores the list, failure sets the single fetch error; the user and dialog are kept |
| `Dashboard.Submit` | client/src/components/Dashboard/Dashboard.js:107-120 | under 20 shows the ineligible-age toast and sends nothing; otherwise exactly one PUT of the current user goes to /users/profile; the state is unchanged |
| `Dashboard.OnUpdateReply` | client/src/components/Dashboard/Dashboard.js:121-134 | success replaces the user with the response and closes the dialog; failure shows "Error updating profile" and changes nothing |
| `Dashboard.StepsKeepValid` | client/src/components/Dashboard/Dashboard.js:56-134 | every step keeps the invariant: the error is empty or the fetch error, an error ends loading, and a clean finish has a user |
| `Dashboard.Render` | client/src/components/Dashboard/Dashboard.js:141-243 | loading wins over error; an empty applied list shows "No opportunities applied."; otherwise one card per item with its company name |
| `Dashboard.FetchSequence` | client/src/components/Dashboard/Dashboard.js:63-93 | with two successful replies the dashboard shows the profile and the list; a failed first reply means no second request and the fetch error is shown |
| `Dashboard.AgeGateExamples` | client/src/components/Dashboard/Dashboard.js:110-114 | born 2004-06-16 on 2024-06-15 the update is refused with the toast; born 2004-06-15 the PUT is sent |
| `Dashboard.UnknownBirthDatePasses` | client/src/components/Dashboard/Dashboard.js:110-111 | a missing or unparseable date of birth (NaN age) is let through the gate |
| `Dashboard.GateStaysOpen` | client/src/components/Dashboard/Dashboard.js:110-114 | once the gate admits a birth date, it admits it on every later day |

## Left out

- App.Route: paths are compared as exact strings. react-router's own matching, which ignores case and a trailing slash (so /Dashboard and /dashboard/ also reach the guard and /login/ shows Login), is not modelled; the model takes the path after that normalisation.

- HTTP transport, the base address http://localhost:5000/api, promises and `async` ordering. Requests are emitted as values and replies are taken as inputs.
- Durability of `localStorage` across reloads. The store is an in-memory record of its two items.
- Parsing and formatting of JS `Date` values. This covers `new Date(...)`, `toISOString().split("T")`, `toLocaleDateString` and time zones. Dates arrive parsed as integer triples, and the ISO normalisation of a known date is taken as the identity. A `null` date of birth is treated as absent. In the source, `new Date(null)` is 1970-01-01, which also passes the gate for any current date.
- Reply bodies hold only strings, `undefined` or `null` at the positions the client reads. Numbers, objects and a `null` response body, on which the source would throw inside a catch handler, are not modelled.
- Opportunity ids are strings. A numeric id is interpolated into the path as its decimal text, which is not modelled.
- Rendering, MUI theming, Masonry layout, hover handlers and toast and alert presentation. Only the chosen message or branch is modelled.
- The Dashboard dialog's open and cancel toggles, its form-field `onChange` edits, and the "Apply?" link to `/`. These are direct state assignments with no decision in them.
- Concurrency and unmounting while a fetch is in flight. The model is sequential, so a store change between mount and the second dashboard fetch is represented by passing the token read at mount.
- `console.error` on apply failure.

