# ColdConnect / Commectr: a verified model of its rules

ColdConnect (branded Commectr on its auth screens) generates personalised
LinkedIn cold messages. A React frontend collects details about a target
person and sends them to a FastAPI backend. The backend authenticates the
caller's Supabase JWT, records the contact, asks a language model for a
message, stores it and returns it. The user keeps a history of generated
messages and checks them off as contacted.

This project models the parts of that system that hold rules:

- **Input validation.** The frontend's required-field and LinkedIn-URL check, the two
  password forms (they run the same tests in opposite orders), the
  forgot-password email guard, and the backend's length bounds on the request body.
- **The Authorization header.** The frontend builds `"Bearer " + token`;
  the backend checks the prefix, extracts the token and checks the claims. A round-trip
  lemma ties the two together.
- **The backend endpoints** over an abstract three-table store:
  - `ensure_app_user` get-or-create;
  - the step order of `generate_message`, and what each failed step leaves behind;
  - the history query and its row flattening.
- **The frontend state.** The form components, the two dashboards (prepend,
  `contacted` toggle, history reload), the profile counters, and the root
  component's session/loading view selection with the login/sign-up toggle.

Modules follow the source files:

- `Routes` (routes.py) over `Tables` (the database);
- `AuthUtils` (auth_utils.py);
- `Api` (api.js), with `BearerRoundTrip` connecting it to `AuthUtils`;
- `GenerateForm` (the form datatype and the check in GenerateMessage.jsx) and `GenerateMessageView` (that component's state);
- `PasswordRules` and `PasswordViews` (SignUp.jsx and ResetPassword.jsx);
- `ForgotPasswordView`;
- `TabbedDashboard` (components/Dashboard.jsx) and `AppDashboard` (src/Dashboard.jsx);
- `Items` (the frontend's history entry) and `Profile`;
- `RootApp` (App.jsx);
- `Js`, for the JavaScript semantics the rules depend on: `.length` counts UTF-16 code units, `!undefined` is `true`, and which characters the regex `.` refuses.

Each async event handler is split at its `await`. `Submit` covers the checks and the call it makes. `Resolve` covers what happens once the call settles. The outcome of every foreign call is a parameter:

- a Supabase call (the session it yields, or the thrown message);
- the backend response;
- the JWT decoder (`decode`);
- the language model's text (`output`);
- each database failure (`Faults`).

An object whose fields the source updates in place is a class. Pure checks are functions, and the lemmas about them carry the properties.

The code does not do any of the following, so the model does not either:

- `App.jsx` selects only among Loading, AuthForm and Dashboard. It shows the dashboard whenever a session exists, with no email-confirmation gate. It has no forgot-password or reset-password views of its own and no routing on a recovery link.
- The auth-change handler stores the notified session for every event kind (`App.jsx:90-92`). No event kind is treated differently.
- `SignUp.jsx` reports Supabase's error message and nothing else. It has no duplicate-account detection.
- There is no `PATCH /contacts/{id}/status` endpoint in `routes.py`, and `toggleContacted` in `components/Dashboard.jsx` is a local update only. So there is no optimistic rollback.

## Model

| member | source | states |
|---|---|---|
| Js.Utf16Length | frontend/src/components/SignUp.jsx:20 | `password.length` counts code units: at least one and at most two per character |
| Js.Utf16LengthOfBmp | frontend/src/components/ResetPassword.jsx:15 | a string without astral characters has as many code units as characters |
| Js.Truthy | frontend/src/components/Profile.jsx:5-7 | an optional flag is truthy exactly when it is present and true |
| Js.Negated | frontend/src/components/Dashboard.jsx:37 | `!item.contacted` is always a present boolean whose truth is the opposite of the old flag's |
| AuthUtils.FirstIndexOf | backend/App/auth_utils.py:31 | the separator search behind `split`: the index of the first occurrence, with no occurrence before it, or none when the character does not occur |
| AuthUtils.SplitOnce | backend/App/auth_utils.py:31 | `split(" ", 1)` yields the whole string when there is no separator, or the text before the first separator and everything after it |
| AuthUtils.ExtractToken | backend/App/auth_utils.py:27-31 | a missing header, an empty one, or one without the "Bearer " prefix fails with 401 "no token provided" (and only those do); otherwise the header is the prefix followed by the returned token |
| AuthUtils.GetCurrentUser | backend/App/auth_utils.py:24-46 | the prefix check comes before decoding; a token that does not decode gives 401 "invalid token"; a missing or empty `sub` gives 401 "invalid token payload"; otherwise the user is `sub` with the optional email, and the id is never empty |
| Api.AuthorizationHeader | frontend/src/api.js:21 | the header is "Bearer " followed by exactly the token |
| Api.BackendRequest | frontend/src/api.js:7-24 | no session fails with "Not authenticated" and builds no request (and only that fails); otherwise the URL is API_BASE followed by the path, verb and body pass through, Authorization is "Bearer " + access token and Content-Type is application/json |
| BearerRoundTrip.HeaderRoundTrip | backend/App/auth_utils.py:27-31 | for every token, including the empty one and tokens with spaces, the header string built passes the prefix check and parses back to exactly that token (string level only; the transport is under Left out) |
| BearerRoundTrip.RequestAuthenticatesSessionToken | frontend/src/api.js:21 | a request built from a session gets the backend's answer for that session's own access token: "invalid token" when it does not decode, "invalid token payload" without a subject, and otherwise the subject and email it carries |
| GenerateForm.With | frontend/src/components/GenerateMessage.jsx:19-21 | `handleChange` sets the named field to the value and leaves every other field as it was |
| GenerateForm.BlankIsEmpty | frontend/src/components/GenerateMessage.jsx:44-54 | the reset form has every field empty |
| GenerateForm.RequiredFilled | frontend/src/components/GenerateMessage.jsx:24 | the required-field test holds iff each of the four required fields is non-empty |
| GenerateForm.After | frontend/src/components/GenerateMessage.jsx:30 | consuming a literal succeeds iff the text starts with it, and the rest is what follows |
| GenerateForm.MatchHostIff | frontend/src/components/GenerateMessage.jsx:30 | the `linkedin\.com/.*$` matcher accepts the host and slash followed by a line without terminators |
| GenerateForm.MatchAfterSchemeIff | frontend/src/components/GenerateMessage.jsx:30 | the optional `(www\.)?` group accepts exactly the heads with and without `www.` |
| GenerateForm.MatchesIff | frontend/src/components/GenerateMessage.jsx:30 | the optional `s` of the scheme: the matcher tries `https://` and `http://` |
| GenerateForm.SchemeBranch | frontend/src/components/GenerateMessage.jsx:30 | with the scheme fixed, the rest of the matcher accepts exactly the two heads with that scheme |
| GenerateForm.PatternFourHeads | frontend/src/components/GenerateMessage.jsx:30 | the reference pattern is the disjunction of its four fixed heads |
| GenerateForm.MatchesLinkedInUrl | frontend/src/components/GenerateMessage.jsx:30 | the regex test, consumed left to right; an accepted URL starts with `http` and is at least as long as `http://linkedin.com/` |
| GenerateForm.MatcherIsPattern | frontend/src/components/GenerateMessage.jsx:30 | the left-to-right matcher accepts a URL iff it is one of `http(s)://`, optionally `www.`, then `linkedin.com/`, and then text with no line terminator |
| GenerateForm.RejectsHostWithoutSlash | frontend/src/components/GenerateMessage.jsx:30 | "https://linkedin.com" without the slash is rejected |
| GenerateForm.RejectsCountrySubdomain | frontend/src/components/GenerateMessage.jsx:30 | "https://uk.linkedin.com/x" is rejected: only `www.` may precede the host |
| GenerateForm.RejectsLineBreak | frontend/src/components/GenerateMessage.jsx:30 | a newline after the host makes the URL fail, since `.` does not match it and `$` is the end of input |
| GenerateForm.AcceptsProfileUrls | frontend/src/components/GenerateMessage.jsx:30 | a `https://www.` profile URL and the bare `http://linkedin.com/` are accepted |
| GenerateForm.Validate | frontend/src/components/GenerateMessage.jsx:24-33 | no error iff the required fields are filled and the URL matches; missing fields give 'Please fill in all required fields' even when the URL is also bad; otherwise a bad URL gives 'Please enter a valid LinkedIn URL' |
| PasswordRules.SignUpCheck | frontend/src/components/SignUp.jsx:15-23 | sign-up proceeds iff the passwords match and are at least 6 code units long; a mismatch is reported first, then the length |
| PasswordRules.ResetCheck | frontend/src/components/ResetPassword.jsx:15-23 | the same acceptance, with the length reported first and the mismatch second |
| PasswordRules.ChecksAgreeExceptOnDoubleFailure | frontend/src/components/ResetPassword.jsx:15-23 | the two forms accept the same pairs, and show different errors exactly when a pair is both mismatched and too short |
| PasswordRules.ShortMismatchedPair | frontend/src/components/SignUp.jsx:15-23 | "abc"/"abd" gets the mismatch error on sign-up and the length error on reset |
| PasswordRules.AstralCharactersCountTwice | frontend/src/components/SignUp.jsx:20 | three emoji are six code units, so they pass the length test |
| Tables.UsersWithUid | backend/App/routes.py:38-43 | the app-user lookup returns exactly the rows with that auth uid, drawn from the table |
| Tables.FirstUserWithUid | backend/App/routes.py:54-55 | the first row returned is the first row in the table with that uid |
| Tables.UsersWithUidAppend | backend/App/routes.py:64-69 | after rows are appended, the earlier matches still come first |
| Tables.ContactById | backend/App/routes.py:193 | the contact a message embeds has the message's contact id, or there is no contact with that id |
| Tables.ContactByIdAppend | backend/App/routes.py:116-121 | inserting a contact with a fresh id changes the result for no existing id, and makes the new id resolve to it |
| Tables.SelectHistory | backend/App/routes.py:188-197 | the history query returns at most one row per message |
| Tables.Join | backend/App/routes.py:191-193 | a joined row keeps the message's id, contact id and creation time |
| Tables.SelectHistoryOnlyOwn | backend/App/routes.py:195 | every returned row is one of the caller's own messages, joined |
| Tables.SelectHistoryComplete | backend/App/routes.py:195 | every one of the caller's messages is returned |
| Tables.SelectHistoryNewestFirst | backend/App/routes.py:196 | creation times strictly decrease along the result, and each one is a stored message's |
| Tables.SelectHistoryJoined | backend/App/routes.py:191-193 | when every message's contact exists, every row carries its contact fields |
| Tables.Database.constructor | backend/App/routes.py:4 | the abstract store (standing in for the Supabase client) in its empty starting state: three empty tables, satisfying the invariant every endpoint assumes |
| Tables.Database.InsertAppUser | backend/App/routes.py:64-69 | a raising insert changes nothing; otherwise exactly one row with a fresh id is appended, and the client hands it back alone or in a list |
| Tables.Database.InsertContact | backend/App/routes.py:116-121 | the same for contacts, keeping every message's contact resolvable |
| Tables.Database.InsertMessage | backend/App/routes.py:150-155 | the same for messages; the store stamps a `created_at` later than every existing one |
| Routes.Violations | backend/App/routes.py:12-21 | no field is refused iff name and role are at most 100, company (if present) 200, experiences and recent post (if present) 2000, education and other notes (if present) 1000, and the goal 1000 |
| Routes.ViolationsMatchBounds | backend/App/routes.py:12-21 | a field is refused iff it is present and longer than its bound: name and role 100, company 200, experiences and recent post 2000, education, other notes and goal 1000 |
| Routes.RequiredOnlyAccepted | backend/App/routes.py:16-20 | a body with the five optional fields absent and the required ones within bounds is accepted |
| Routes.OneOverRefused | backend/App/routes.py:13 | a 101-character name is refused whatever else the body holds |
| Routes.Normalise | backend/App/routes.py:78-80 | a list yields its first element (nothing when empty); a single row yields itself |
| Routes.NormaliseInserted | backend/App/routes.py:130 | whichever shape an insert returns, normalising it gives the inserted row |
| Routes.EmailOrEmpty | backend/App/routes.py:60 | `email or ""`: a present non-empty email is kept; a missing or empty one gives "" |
| Routes.CreatedRowFoundNext | backend/App/routes.py:57-80 | a newly inserted app user is afterwards the only row with its uid |
| Routes.EnsureAppUser | backend/App/routes.py:34-80 | a raising lookup gives 500 "Failed to fetch app user: " plus the trace; an existing row is returned first-found, with nothing inserted; otherwise exactly one row `{auth_uid, email or ""}` is appended and returned, or a raising insert gives 500 "Failed to create app user: "; contacts and messages are never touched |
| Routes.AppUsersSettle | backend/App/routes.py:51-80 | once a call has yielded a row for a uid, the table a later call for that uid leaves is the table the first left, whatever its email or faults |
| Routes.EnsureAppUserTwice | backend/App/routes.py:51-55 | after a successful first call, a second call for the same uid returns the same row, and the table has grown only by what the first call inserted |
| Routes.ContactFor | backend/App/routes.py:103-113 | the contact row belongs to the app user and carries the body's name, role and URL |
| Routes.GenerateMessage | backend/App/routes.py:83-175 | a body out of bounds is refused (422) before anything runs; then authentication errors; a failed app-user lookup gives 500 "Failed to fetch app user: " plus the trace, and a failed app-user insert 500 "Failed to create app user: " plus the trace, with the database unchanged; once authenticated, app_users ends as `ensure_app_user` leaves it (unchanged for an existing uid or a raising lookup or insert, otherwise with exactly the one new row), whatever fails later; a failed contact insert leaves both alone; after the contact is inserted, a generation failure gives 500 "failed to generate message" with no message saved, and a failed save gives 500 "failed to save message"; success iff every step succeeds, and then the one saved message belongs to the app user, points at the contact just inserted, and the response echoes its id, that contact's name, role and URL, the goal, the text and the creation time |
| Routes.Flattened | backend/App/routes.py:209-220 | an item takes the ids, goal, text and time from the row and the name, role and URL from its contact |
| Routes.FlattenHistory | backend/App/routes.py:206-223 | absent data gives an empty list; otherwise there is one item per row, in the same order, each the flattened row; a row without its contact fails |
| Routes.FlattenedNewestFirst | backend/App/routes.py:196 | flattening keeps the rows' newest-first order |
| Routes.History | backend/App/routes.py:178-223 | authentication errors propagate; a failed app-user lookup or insert gives its 500 with the trace, as in `ensure_app_user`, and changes nothing; once authenticated, app_users ends as `ensure_app_user` leaves it, whatever the query does; a failed query gives 500 "failed to fetch message history"; success iff those all pass, and then the items are exactly the caller's messages from the query, each with its contact's fields, newest first; contacts and messages are unchanged |
| Items.FromResponse | backend/App/routes.py:24-32 | a backend item arrives with all its fields and with neither `contacted` nor `replied` present |
| Items.FromResponses | frontend/src/components/Dashboard.jsx:21-22 | a response list becomes one entry per item, in order |
| Profile.Filter | frontend/src/components/Profile.jsx:5-7 | `filter` keeps each element that satisfies the test exactly as many times as it occurs, and drops the rest, so its length is the count the counters need |
| Profile.ContactedSplits | frontend/src/components/Profile.jsx:5-6 | contacted = pending + the number both contacted and replied |
| Profile.ContactedAndRepliedAreReplied | frontend/src/components/Profile.jsx:7 | those both contacted and replied are no more than the replied |
| Profile.StatsOf | frontend/src/components/Profile.jsx:4-7 | total is the history length; contacted and replied are at most the total; pending ≤ contacted, and pending = contacted − #(contacted ∧ replied); contacted ≤ pending + replied |
| Profile.BackendHistoryCountsNothing | frontend/src/components/Profile.jsx:5-7 | history straight from the backend counts its length as total and zero everywhere else, because absent flags are falsy |
| GenerateMessageView.GenerateMessage.constructor | frontend/src/components/GenerateMessage.jsx:5-17 | a blank form, not loading, no error |
| GenerateMessageView.GenerateMessage.HandleChange | frontend/src/components/GenerateMessage.jsx:19-21 | only the named field changes |
| GenerateMessageView.GenerateMessage.Submit | frontend/src/components/GenerateMessage.jsx:23-40 | a form failing the check shows that error, sends nothing, and leaves loading alone; a passing one clears the error, sets loading and is sent unchanged |
| GenerateMessageView.GenerateMessage.Resolve | frontend/src/components/GenerateMessage.jsx:41-59 | on success the callback receives the returned message and the form is reset to blank; on failure the error is set, the form is kept and the callback is not called; loading is false either way |
| PasswordViews.MessageOr | frontend/src/components/SignUp.jsx:35 | `err.message || fallback` shows the message when it is non-empty and the fallback otherwise |
| PasswordViews.SignUp.constructor | frontend/src/components/SignUp.jsx:5-9 | empty fields, no error, not loading |
| PasswordViews.SignUp.SetEmail | frontend/src/components/SignUp.jsx:5 | only the email changes |
| PasswordViews.SignUp.SetPassword | frontend/src/components/SignUp.jsx:6 | only the password changes |
| PasswordViews.SignUp.SetConfirmPassword | frontend/src/components/SignUp.jsx:7 | only the confirmation changes |
| PasswordViews.SignUp.Submit | frontend/src/components/SignUp.jsx:11-29 | `signUp` is called iff the pair is acceptable, with the email and password; otherwise the check's error is shown and loading is never set |
| PasswordViews.SignUp.Resolve | frontend/src/components/SignUp.jsx:29-38 | success passes the session to `onSignupSuccess`; an error shows its message or 'Could not create account. Please try again.', and the callback is not called; loading ends |
| PasswordViews.ResetPassword.constructor | frontend/src/components/ResetPassword.jsx:6-9 | empty fields, no error, not loading |
| PasswordViews.ResetPassword.SetPassword | frontend/src/components/ResetPassword.jsx:6 | only the password changes |
| PasswordViews.ResetPassword.SetConfirmPassword | frontend/src/components/ResetPassword.jsx:7 | only the confirmation changes |
| PasswordViews.ResetPassword.Submit | frontend/src/components/ResetPassword.jsx:11-28 | the update is requested iff the pair is acceptable; otherwise the length-first error is shown and loading is never set |
| PasswordViews.ResetPassword.Resolve | frontend/src/components/ResetPassword.jsx:28-37 | `onResetSuccess` is called (once) iff the update succeeded; a failure shows its message or 'Failed to update password. Link may have expired.'; loading ends |
| ForgotPasswordView.ForgotPassword.constructor | frontend/src/components/ForgotPassword.jsx:6-9 | no email, not sent, not loading, no error |
| ForgotPasswordView.ForgotPassword.SetEmail | frontend/src/components/ForgotPassword.jsx:57 | only the email changes |
| ForgotPasswordView.ForgotPassword.Submit | frontend/src/components/ForgotPassword.jsx:11-18 | an empty email shows 'Please enter your email address', sends nothing and leaves loading and sent alone; otherwise loading starts, the error is cleared and the reset is requested for that email |
| ForgotPasswordView.ForgotPassword.FormOffered | frontend/src/components/ForgotPassword.jsx:48 | the email form is rendered exactly while the link has not been sent |
| ForgotPasswordView.ForgotPassword.Resolve | frontend/src/components/ForgotPassword.jsx:18-23 | success sets sent; failure sets the error to the message and leaves sent; loading ends; once sent, the form is no longer offered |
| TabbedDashboard.ToggledHistory | frontend/src/components/Dashboard.jsx:34-40 | same length and order; items with the id get `contacted` negated; every other item is unchanged |
| TabbedDashboard.ToggledTwice | frontend/src/components/Dashboard.jsx:37 | toggling the same id twice restores every item's contacted truth value and all other fields, and a matching item's flag ends up present |
| TabbedDashboard.UntouchedFlagComesBackFalse | frontend/src/components/Dashboard.jsx:37 | an absent flag toggled twice ends up `false`, not absent |
| TabbedDashboard.ToggleMovesContactedByOne | frontend/src/components/Profile.jsx:5 | when exactly one item has the id, the contacted count falls by one if it was contacted and rises by one otherwise |
| TabbedDashboard.Dashboard.constructor | frontend/src/components/Dashboard.jsx:10-12 | the generate tab, an empty history and no latest message |
| TabbedDashboard.Dashboard.ResultViewShown | frontend/src/components/Dashboard.jsx:86 | the result view is shown only on the result tab with a latest message |
| TabbedDashboard.Dashboard.LoadHistoryResolved | frontend/src/components/Dashboard.jsx:18-26 | a response replaces the history; a failure leaves it |
| TabbedDashboard.Dashboard.HandleMessageGenerated | frontend/src/components/Dashboard.jsx:28-32 | the message becomes the latest and heads the history before the old entries; the result tab is active and the result view shown |
| TabbedDashboard.Dashboard.ToggleContacted | frontend/src/components/Dashboard.jsx:34-40 | the history becomes its toggled version; tab and latest message are unchanged |
| TabbedDashboard.Dashboard.Navigate | frontend/src/components/Dashboard.jsx:51-89 | a navigation button selects its tab only, and the result view is not shown |
| AppDashboard.Dashboard.constructor | frontend/src/Dashboard.jsx:8-23 | a blank form, not loading, no error, nothing generated, empty history |
| AppDashboard.Dashboard.LoadHistoryResolved | frontend/src/Dashboard.jsx:26-33 | a response replaces the history; a failure leaves it |
| AppDashboard.Dashboard.HandleChange | frontend/src/Dashboard.jsx:41-43 | only the named form field changes |
| AppDashboard.Dashboard.BeginGenerate | frontend/src/Dashboard.jsx:46-53 | before the request the error is cleared and loading is set; the form is sent as it stands |
| AppDashboard.Dashboard.FinishGenerate | frontend/src/Dashboard.jsx:53-61 | success makes the item the generated one and prepends it to the history; failure shows "Could not generate message. Please try again." and leaves both; loading ends and the form is untouched |
| AppDashboard.Dashboard.CopyMessage | frontend/src/Dashboard.jsx:64-67 | nothing is copied before a message exists; afterwards its text is |
| RootApp.ViewOf | frontend/src/App.jsx:106-117 | while loading, the Loading view whatever the session; otherwise AuthForm iff there is no session and Dashboard iff there is one |
| RootApp.App.constructor | frontend/src/App.jsx:77-79 | no session, loading, so the Loading view |
| RootApp.App.View | frontend/src/App.jsx:106-117 | the rendered view: Loading while loading, and otherwise Dashboard exactly when there is a session |
| RootApp.App.InitialSessionResolved | frontend/src/App.jsx:83-86 | the looked-up session is stored and loading ends, so the view follows the session |
| RootApp.App.AuthStateChanged | frontend/src/App.jsx:90-92 | every notification stores its session, whatever the event kind |
| RootApp.App.OnAuthed | frontend/src/App.jsx:110 | the auth form's callback stores the session |
| RootApp.App.Logout | frontend/src/App.jsx:114 | the logout handler first asks Supabase to sign out, changing nothing yet |
| RootApp.App.LogoutResolved | frontend/src/App.jsx:115-116 | once sign-out has succeeded the session is cleared, so the AuthForm view is next; if it throws, the session stays |
| RootApp.Toggled | frontend/src/App.jsx:65 | the toggle always changes the mode |
| RootApp.ToggledTwice | frontend/src/App.jsx:65 | toggling twice restores the mode |
| RootApp.AuthForm.constructor | frontend/src/App.jsx:8-11 | login mode, empty fields, no error |
| RootApp.AuthForm.SetEmail | frontend/src/App.jsx:47 | only the email changes |
| RootApp.AuthForm.SetPassword | frontend/src/App.jsx:54 | only the password changes |
| RootApp.AuthForm.ToggleMode | frontend/src/App.jsx:65 | the mode flips; nothing else changes |
| RootApp.AuthForm.Submit | frontend/src/App.jsx:14-23 | the error is cleared; login mode calls signIn and signup mode calls signUp, with the entered email and password |
| RootApp.AuthForm.Resolve | frontend/src/App.jsx:26-30 | the fetched session goes to `onAuthed`; a thrown error shows its message and `onAuthed` is not called |

## Left out

- JWT signature, expiry and algorithm checks: `jwt.decode` is the parameter `decode`, and a token it refuses is `None`.
- Pydantic's `HttpUrl` check of `linkedin_url`: the model accepts any string there and bounds only the lengths. Pydantic's length counts characters, which is Dafny's `|s|`.
- Pydantic's validation of the returned dict against `MessageHistoryItem`.
- `generate_cold_message`, whose module is not part of this model: its text is the parameter `output`, and `None` means it raised.
- The Supabase client. The tables are `Tables.Database`; whether each call raises, and whether inserts come back as lists, is given by `Routes.Faults`.
- The traceback text is the opaque string `Faults.trace`.
- Ids and `created_at`, which are strings in the response schema, are natural numbers drawn from one counter. So newest first is reverse insertion order.
- The store never deletes rows and never returns `None` data or an empty list from an insert. So `res.data or []` and an `IndexError` on an empty insert result do not arise in `Routes.EnsureAppUser`, `Routes.GenerateMessage` or `Routes.History`. `Routes.FlattenHistory` handles `None` data on its own.
- BearerRoundTrip.RequestAuthenticatesSessionToken: this lemma assumes the HTTP transport delivers the Authorization header exactly as built. Browsers and the server's HTTP parser trim leading and trailing whitespace from header values, so an empty token arrives as `Bearer` and gets 401 "no token provided". A token with surrounding whitespace arrives changed, and a CR or LF makes the request throw. None of this is modelled. `BearerRoundTrip.HeaderRoundTrip` is a statement about the strings alone.
- AppDashboard.Dashboard.BeginGenerate, PasswordViews.ResetPassword.Submit, RootApp.AuthForm.Submit: the model starts at the submit handler. The browser's form validation runs before it and is not modelled. In Dashboard.jsx:86-159, an empty `required` field (target_name, target_role, linkedin_url or goal_prompt) stops the submit. In ResetPassword.jsx:54-75, an empty `required` password does too, so the browser's prompt appears instead of 'Password must be at least 6 characters'. In App.jsx:41-43, a malformed `type="email"` address stops it. SignUp.jsx and ForgotPassword.jsx do not wrap their inputs in a `<form>`, so they have no such gate.
- ForgotPassword.jsx imports `sendPasswordReset` and ResetPassword.jsx imports `updatePassword` from auth.js, which exports neither. Neither component is reachable from main.jsx through App.jsx. Their awaited calls are assumed to exist, and their outcomes are the parameters of `Resolve`.
- Printing and `console.error` logging, the `alert` in ResetPassword.jsx, and the clipboard write. `AppDashboard.Dashboard.CopyMessage` returns the text that would be written.
- An error object without a `message` is modelled as the empty message. ForgotPassword.jsx then shows nothing, which matches an `undefined` error being falsy.
- Asynchrony: each handler is split at its `await` into a `Submit` and a `Resolve` event. Interleavings, unmounting, and the `useEffect` calls that start `loadHistory` and the session lookup are not modelled; only their results are.
- The unsubscribe on unmount in App.jsx.
- Login.jsx, History.jsx, MessageResult.jsx and Checklist.jsx are rendering and forwarding only. Checklist.jsx expects `onToggleStatus`, but Dashboard.jsx passes `onToggleContacted`; that wiring is not modelled.
- auth.js, supabase_client.py, main.py and main.jsx are configuration and thin wrappers.
- Rendering, CSS and date formatting.
