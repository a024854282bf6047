# Scholarship portal front end: decision rules and state machines

This project models the logic of the scholarship portal's React front end, stated in Dafny and proved:

- the authentication provider's session. It lives in browser storage under the keys `token`, `user` and `deviceId`, next to the current user and a loading flag. The model covers login, the two second-factor steps, logout and the start-up expiry check.
- the role constants and the role test.
- the route table with its role gates, the home redirect and the navigation bar.
- the login form's dispatch on the server's answer.
- the one-time-password page with its 30-second resend countdown.
- the invitation page where staff set a password.
- the administrator's dashboard: the "Ready for Review" and "History" sections, the card rules, the status colours and the rejection dialog.
- the student's status page: badges, and the per-application map of integrity verdicts.
- the verifier's dashboard: the per-application comment map and the review request.
- the scholarship application form: the multipart body and the error text.

Every HTTP call is an `Outcome`: the response data, or a `Failure` that carries the error body (None when no response arrived) and the error's own message. `localStorage` is a map from key to `Stored`, which holds either plain text or a JSON record. Token decoding and the clock are parameters.

JavaScript semantics are written out where they matter:

- truthiness of text (`""` and `undefined` are falsy);
- `a || b`;
- `String(undefined)` is the text `"undefined"`;
- a missing `exp` claim gives `NaN`, which never compares less.

State that a component changes in place is a class. The session's methods, the countdown tick, the dialog transitions and the status after an invitation request are each proved equal to a pure step function, and the lemmas are stated about those functions. The other page methods state their new state directly in their postconditions.

Routes are matched the way the router does by default: letter case and trailing slashes in the location are ignored.

The application form sends every field as typed. The bank account, identity number and income go out in plain text. No component calls the repository's encryption helper. The model therefore contains no encryption, and `SensitiveFieldsSentInPlain` states what is actually sent.

## Model

| member | source | states |
|---|---|---|
| Js.ToUpper | src/components/Student/ApplicationStatus.jsx:106 | `toUpperCase` keeps the length and upper-cases each character in place (ASCII letters) |
| Js.ToUpperIdempotent | src/components/Student/ApplicationStatus.jsx:106 | upper-casing an upper-cased badge text changes nothing |
| Js.ToLowerIdempotent | src/App.jsx:28-59 | lower-casing a location twice is lower-casing it once |
| Js.ToLowerAppend | src/App.jsx:28-59 | lower-casing a location with a slash appended is lower-casing it and appending the slash |
| Js.ToLowerKeepsLower | src/App.jsx:30-58 | a path with no upper-case letter, such as every declared path, is its own lower-casing |
| Js.ToUpperKeepsUpper | src/components/Student/ApplicationStatus.jsx:106 | text with no lower-case letter, such as the "SUBMITTED" fallback, is unchanged by upper-casing |
| Roles.RolesDistinct | src/utils/roleHelper.js:1-5 | "student", "verifier" and "admin" are pairwise distinct |
| Roles.HasRoleMeaning | src/utils/roleHelper.js:7-9 | `hasRole` is false for a missing user; for a present user it holds exactly when the record's `role` equals the required role |
| Roles.AtMostOneRole | src/utils/roleHelper.js:2-8 | no user satisfies `hasRole` for two of the three roles |
| AuthContext.LoginUser | src/context/AuthContext.jsx:39 | the stored user is the response without `token`: every other field kept and no key added |
| AuthContext.MfaUser | src/context/AuthContext.jsx:54 | the stored user is the response without `token` and `deviceId`: every other field kept and no key added |
| AuthContext.AfterLogout | src/context/AuthContext.jsx:70-74 | logout removes `token` and `user`, clears the user and leaves every other key (so `deviceId`) untouched |
| AuthContext.AfterStartup | src/context/AuthContext.jsx:11-30 | start-up always ends loading, and leaves storage alone or removes exactly `token` and `user` |
| AuthContext.MountedConsistent | src/context/AuthContext.jsx:8-9 | the provider mounts with no user, so the session invariant holds from the start |
| AuthContext.StepsPreserveConsistent | src/context/AuthContext.jsx:11-106 | login, second factor, logout and start-up all keep "a current user implies a stored token" |
| AuthContext.LoginWithToken | src/context/AuthContext.jsx:38-43 | a login answered with a token stores it and the rest of the response as `user`, makes that the current user, and changes no other key |
| AuthContext.LoginWithoutToken | src/context/AuthContext.jsx:38-45 | a login answered without a token changes neither storage nor the current user |
| AuthContext.MfaStorageRule | src/context/AuthContext.jsx:54-61 | `verifyOtp` always writes token (the text "undefined" when missing) and user; it writes `deviceId` only when one was returned, otherwise the old one survives |
| AuthContext.DeviceIdSurvives | src/context/AuthContext.jsx:38-74 | a remembered device survives login, logout and start-up, and is never removed by a second-factor answer |
| AuthContext.StartupRejectsBadToken | src/context/AuthContext.jsx:15-27 | at start-up a token that fails to decode, or whose `exp`*1000 is before now, logs out |
| AuthContext.StartupPrefersStoredUser | src/context/AuthContext.jsx:19-26 | for a valid token a stored user record replaces the decoded claims; without one, or with one that parses to null, false, 0 or "", the claims are the user; any other stored user text logs out, which the source does when that text does not parse |
| AuthContext.StartupWithoutToken | src/context/AuthContext.jsx:12-13 | without a truthy stored token start-up only clears the loading flag |
| AuthContext.LogoutThenStartup | src/context/AuthContext.jsx:70-74 | after logout, from any session, the next start-up brings no user back |
| AuthContext.Session.constructor | src/context/AuthContext.jsx:8-9 | the provider mounts with no user, loading, and the storage as found |
| AuthContext.Session.Startup | src/context/AuthContext.jsx:11-30 | the start-up effect, in place, equals `AfterStartup` |
| AuthContext.Session.Login | src/context/AuthContext.jsx:32-46 | `login` returns the response unchanged and updates the session as `AfterLogin` |
| AuthContext.Session.VerifyOtp | src/context/AuthContext.jsx:48-63 | `verifyOtp` returns the stored user record and updates the session as `AfterMfa` |
| AuthContext.Session.VerifyTotp | src/context/AuthContext.jsx:91-106 | `verifyTotp` takes the JWT from `token` and follows the same storage rule as `verifyOtp` |
| AuthContext.Session.Logout | src/context/AuthContext.jsx:70-74 | `logout`, in place, equals `AfterLogout` |
| HomeRedirect.Target | src/components/Common/HomeRedirect.jsx:9-13 | while loading only the placeholder renders; with no user the redirect is "/login" |
| HomeRedirect.TargetByRole | src/components/Common/HomeRedirect.jsx:15-24 | student, verifier and admin land on their own pages; any other role goes to "/login" |
| Navbar.View | src/components/Common/Navbar.jsx:15 | the bar is hidden exactly when there is no user |
| Navbar.LinksByRole | src/components/Common/Navbar.jsx:24-35 | each known role sees exactly its own link group; an unknown role sees none |
| Navbar.HandleLogout | src/components/Common/Navbar.jsx:10-13 | logout clears the session, then navigates to "/login" |
| LoginPage.DispatchPrecedence | src/components/Auth/Login.jsx:22-28 | a token goes to "/", else a TOTP type goes to "/verify-totp" with the whole response, else a user id goes to "/verify-otp"; with none there is no navigation |
| LoginPage.OtpHandoffCarriesOnlyIdAndEmail | src/components/Auth/Login.jsx:26-27 | the OTP page receives only the user id and e-mail, and only when no token was returned |
| LoginPage.ErrorText | src/components/Auth/Login.jsx:30-34 | no response gives the connection text, otherwise the server message or "Login failed"; never empty |
| LoginPage.LoginForm.constructor | src/components/Auth/Login.jsx:9-10 | the form starts with no error and not loading |
| LoginPage.LoginForm.BeginSubmit | src/components/Auth/Login.jsx:15-19 | submit clears the error, starts loading and reads the stored `deviceId` to send |
| LoginPage.LoginForm.Settle | src/components/Auth/Login.jsx:19-36 | success updates the session as `login` and dispatches, with loading left on; failure shows the error text and resets loading |
| Routes.Find | src/App.jsx:28-60 | the first route declared for a path, or none when no route has that path |
| Routes.TrimSlashesMeaning | src/App.jsx:28-59 | trimming keeps a prefix of the location that does not end in "/", and removes only slashes |
| Routes.NormaliseKeepsCanonical | src/App.jsx:30-58 | a lower-case path that is "/" or does not end in "/" is its own normal form |
| Routes.TablePathsCanonical | src/App.jsx:30-58 | every declared path is in normal form |
| Routes.Resolve | src/App.jsx:30-59 | every location renders a declared route or the catch-all |
| Routes.ResolveIgnoresCaseAndTrailingSlash | src/App.jsx:28-59 | letter case and a trailing slash in the location do not change the page |
| Routes.LoginUpperCase | src/App.jsx:30 | "/LOGIN" renders the login page |
| Routes.LoginTrailingSlash | src/App.jsx:30 | "/login/" renders the login page |
| Routes.NoDuplicatePaths | src/App.jsx:30-59 | no path is declared twice |
| Routes.ResolveDeclared | src/App.jsx:30-58 | a declared path resolves to its own route |
| Routes.ResolveUndeclared | src/App.jsx:59 | a location whose normal form is not declared renders the "404 Not Found" card |
| Routes.PublicPages | src/App.jsx:30-35 | the six authentication pages and "/" sit behind no role check, "/" rendering the home redirect |
| Routes.GatedPages | src/App.jsx:38-51 | the student pages admit only students, the verifier page only verifiers, the admin page only admins |
| Routes.LandingIsGatedToRole | src/App.jsx:38-51 | the page "/" redirects a user to is gated to exactly that user's role |
| Routes.NavbarLinksGatedToRole | src/components/Common/Navbar.jsx:24-35 | every role link in the bar leads to a page gated to that same role |
| Routes.LoginTargetsArePublic | src/components/Auth/Login.jsx:22-28 | the login form navigates only to pages that need no role |
| OtpVerify.TickPreservesInv | src/components/Auth/OTPVerify.jsx:19-29 | a tick keeps the timer within 0..30, decrements it by exactly one while positive, and allows a resend only at 0 |
| OtpVerify.TicksFrom | src/components/Auth/OTPVerify.jsx:19-29 | from t seconds, n ticks leave max(t-n, 0) seconds and allow a resend exactly when n > t |
| OtpVerify.ZeroTicks | src/components/Auth/OTPVerify.jsx:25-26 | once at 0 with resend allowed, ticks change nothing |
| OtpVerify.ResendAfterCountdown | src/components/Auth/OTPVerify.jsx:11-29 | from the initial 30 seconds a resend becomes possible after exactly 31 ticks |
| OtpVerify.Render | src/components/Auth/OTPVerify.jsx:31-34 | without a user id only the invalid-session text renders; the resend button is disabled exactly while no resend is allowed |
| OtpVerify.OtpPage.constructor | src/components/Auth/OTPVerify.jsx:9-17 | the countdown starts at 30 with resend not allowed |
| OtpVerify.OtpPage.RunTimerEffect | src/components/Auth/OTPVerify.jsx:19-29 | one run of the timer effect, in place, equals `Tick` |
| OtpVerify.OtpPage.HandleResend | src/components/Auth/OTPVerify.jsx:49-60 | both texts cleared; success restarts the countdown and shows the sent text; failure changes only the error |
| OtpVerify.OtpPage.HandleSubmit | src/components/Auth/OTPVerify.jsx:36-47 | both texts cleared; success updates the session as `verifyOtp` and goes to "/"; failure shows the server message or the fallback |
| SetupAccount.Settled | src/components/Auth/SetupAccount.jsx:35-50 | once the request settles loading is over and exactly one of success and error is shown, as the outcome decides |
| SetupAccount.Render | src/components/Auth/SetupAccount.jsx:53-58 | without a token in the link only the invalid-link text renders |
| SetupAccount.SetupPage.constructor | src/components/Auth/SetupAccount.jsx:10-19 | the page starts idle (not loading, no texts) with the link's token |
| SetupAccount.SetupPage.Mount | src/components/Auth/SetupAccount.jsx:22-24 | opening the page logs out any session |
| SetupAccount.SetupPage.BeginSubmit | src/components/Auth/SetupAccount.jsx:26-36 | a mismatch sets only the error and sends nothing; a match starts loading, clears both texts and sends token and password |
| SetupAccount.SetupPage.Settle | src/components/Auth/SetupAccount.jsx:37-50 | the status after the request equals `Settled` |
| AdminDashboard.HistoryIsComplement | src/components/Admin/AdminDashboard.jsx:445-512 | the history filter is exactly the negation of the ready filter |
| AdminDashboard.ReadySection | src/components/Admin/AdminDashboard.jsx:464-468 | the ready section holds exactly the fetched applications that pass the ready filter |
| AdminDashboard.HistorySection | src/components/Admin/AdminDashboard.jsx:506-512 | the history section holds exactly the fetched applications that pass the history filter |
| AdminDashboard.SectionsPartition | src/components/Admin/AdminDashboard.jsx:445-512 | every fetched application appears in exactly one section, as often as it was fetched |
| AdminDashboard.ReadyPlaceholderMeaning | src/components/Admin/AdminDashboard.jsx:445-450 | the ready section's placeholder shows exactly when no application is ready |
| AdminDashboard.HistoryBlankWhenAllReady | src/components/Admin/AdminDashboard.jsx:487 | the history placeholder tests the whole list, so when every application is ready the history section shows nothing at all |
| AdminDashboard.BadgeTable | src/components/Admin/AdminDashboard.jsx:533-545 | Approved, Rejected and Verified each have their own colour pair; every other status gets the default pair |
| AdminDashboard.CardRules | src/components/Admin/AdminDashboard.jsx:552-672 | Approve shows exactly for Verified; Reject exactly for ready applications; the warning exactly for pending accounts not yet decided, never together with Reject; opacity 0.7 exactly for Approved and Rejected |
| AdminDashboard.ApproveOfferedInHistory | src/components/Admin/AdminDashboard.jsx:506-660 | every verified application of an unverified student sits in History, still offers Approve, offers no Reject and shows the warning |
| AdminDashboard.ModalTransitions | src/components/Admin/AdminDashboard.jsx:79-186 | the dialog stays well formed; opening resets the reason; Cancel and a successful submit close it; a failed submit leaves it unchanged |
| AdminDashboard.AdminPage.constructor | src/components/Admin/AdminDashboard.jsx:5-15 | the dashboard starts with no applications, loading, no error, no approval data and the dialog closed |
| AdminDashboard.AdminPage.FetchApplications | src/components/Admin/AdminDashboard.jsx:44-53 | loading ends either way; success replaces the list; failure sets the error text |
| AdminDashboard.AdminPage.Approve | src/components/Admin/AdminDashboard.jsx:69-77 | success shows the approval data; failure alerts the server message or "Approval failed"; the list, the dialog, the loading flag and the error text are unchanged |
| AdminDashboard.AdminPage.CloseApproval | src/components/Admin/AdminDashboard.jsx:431 | the Close button clears the approval data; the list, the dialog, the loading flag and the error text are unchanged |
| AdminDashboard.AdminPage.RejectClick | src/components/Admin/AdminDashboard.jsx:79-81 | opens the dialog for that application with an empty reason; the list, the approval data, the loading flag and the error text are unchanged |
| AdminDashboard.AdminPage.TypeReason | src/components/Admin/AdminDashboard.jsx:165-167 | typing in the reason box changes only the reason; the list, the approval data, the loading flag and the error text are unchanged |
| AdminDashboard.AdminPage.Cancel | src/components/Admin/AdminDashboard.jsx:184-186 | closes the dialog and forgets the application; the list, the approval data, the loading flag and the error text are unchanged |
| AdminDashboard.AdminPage.RejectSubmit | src/components/Admin/AdminDashboard.jsx:83-93 | called only while the dialog is open, whose Confirm button exists only then; sends the dialog's id, which is present, and its reason; success closes the dialog, failure leaves it open and alerts the server message or "Rejection failed"; the list, the approval data, the loading flag and the error text are unchanged |
| ApplicationStatus.VerdictOf | src/components/Student/ApplicationStatus.jsx:25-43 | success records the response; failure records status "error" with "Verification failed: " followed by the server message, or else the error's own message |
| ApplicationStatus.IntegrityLabelRule | src/components/Student/ApplicationStatus.jsx:204-206 | "Verified" exactly for a "valid" verdict, "Tampered" otherwise, so a failed request shows "Tampered" |
| ApplicationStatus.SignatureDetails | src/components/Student/ApplicationStatus.jsx:209-226 | signature id and signing time are shown only under a "valid" verdict |
| ApplicationStatus.BadgeTextRule | src/components/Student/ApplicationStatus.jsx:106 | the badge is the status upper-cased, or "SUBMITTED" without one, and is already upper case |
| ApplicationStatus.BadgeColoursAgreeWithDashboard | src/components/Student/ApplicationStatus.jsx:87-102 | the student's badge colours are the dashboard's table, a missing status taking the default pair |
| ApplicationStatus.IntegritySectionAsWrittenMissesApproved | src/components/Student/ApplicationStatus.jsx:163 | as written, an application whose badge shows APPROVED gets no integrity section |
| ApplicationStatus.IntegritySectionMatchesApprovedBadge | src/components/Student/ApplicationStatus.jsx:88-163 | corrected, the section is offered exactly where the badge shows the approved colours |
| ApplicationStatus.StatusPage.constructor | src/components/Student/ApplicationStatus.jsx:5-8 | the page starts with no applications, loading, no error and no verdicts |
| ApplicationStatus.StatusPage.FetchApplications | src/components/Student/ApplicationStatus.jsx:10-23 | loading ends either way; failure sets the error text |
| ApplicationStatus.StatusPage.VerifyIntegrity | src/components/Student/ApplicationStatus.jsx:25-43 | every call overwrites the verdict for its id; every other id keeps its verdict |
| ApplicationStatus.StatusPage.IntegrityBox | src/components/Student/ApplicationStatus.jsx:163-228 | as written: a card shows the verdict box exactly when its status is the lower-case "approved" and a verdict was recorded for its id; the box holds that verdict's label, its message paragraph and its signature details |
| ApplicationStatus.StatusPage.CorrectedIntegrityBox | src/components/Student/ApplicationStatus.jsx:163-228 | corrected: the same box, with the same label, message paragraph and signature details, for status "Approved" |
| ApplicationStatus.FailedCheckBox | src/components/Student/ApplicationStatus.jsx:202-208 | after a failed check the box reads "Tampered", shows no signature details, and its message paragraph carries "Verification failed: " and the reason |
| VerifyApplications.StatusFor | src/components/Verifier/VerifyApplications.jsx:114-120 | Verify sends "verified" and Reject sends "rejected" |
| VerifyApplications.CommentBox | src/components/Verifier/VerifyApplications.jsx:101-106 | the comment box and buttons appear only for pending applications, showing that card's comment or "" |
| VerifyApplications.EditShowsOnlyThere | src/components/Verifier/VerifyApplications.jsx:107-109 | typing into one card's box changes what that card shows and no other |
| VerifyApplications.ResetIsLocal | src/components/Verifier/VerifyApplications.jsx:33 | resetting one comment leaves every other card's comment as it was |
| VerifyApplications.VerifierPage.constructor | src/components/Verifier/VerifyApplications.jsx:5-8 | the dashboard starts with no applications, loading, no error and no comments |
| VerifyApplications.VerifierPage.FetchApplications | src/components/Verifier/VerifyApplications.jsx:10-19 | loading ends either way; failure sets the error text |
| VerifyApplications.VerifierPage.EditComment | src/components/Verifier/VerifyApplications.jsx:107-109 | typing edits only that application's entry |
| VerifyApplications.VerifierPage.HandleVerify | src/components/Verifier/VerifyApplications.jsx:25-38 | sends the decision with the typed comment or ""; success clears only that comment; failure changes nothing; the alert reports which |
| ApplyScholarship.InitialForm | src/components/Student/ApplyScholarship.jsx:9-17 | the form starts with the seven fields, all empty except examType "JEE" |
| ApplyScholarship.FilePartFor | src/components/Student/ApplyScholarship.jsx:40-43 | a document part exists only when that document was chosen |
| ApplyScholarship.TextParts | src/components/Student/ApplyScholarship.jsx:38 | one text part per field, in order, carrying the field's value as typed |
| ApplyScholarship.TextFieldsSent | src/components/Student/ApplyScholarship.jsx:38 | every declared field is in the body under its own name with its value as typed |
| ApplyScholarship.SensitiveFieldsSentInPlain | src/components/Student/ApplyScholarship.jsx:38 | bank details, identity number and income are in the body as typed, unencrypted |
| ApplyScholarship.FilePartsOnlyIfChosen | src/components/Student/ApplyScholarship.jsx:40-43 | a document part is in the body exactly when that document was chosen; the body has at most ten parts |
| ApplyScholarship.JoinLength | src/components/Student/ApplyScholarship.jsx:56-58 | the joined text is as long as all messages plus one separator between each two neighbours |
| ApplyScholarship.JoinAppend | src/components/Student/ApplyScholarship.jsx:56-58 | joining one more message appends the separator and that message, so the messages appear in order, each once |
| ApplyScholarship.JoinStartsWithFirst | src/components/Student/ApplyScholarship.jsx:56-58 | the joined text starts with the first message, followed by the separator when more follow |
| ApplyScholarship.Messages | src/components/Student/ApplyScholarship.jsx:56-57 | one text per validation error, in order; a missing `msg` gives "" |
| ApplyScholarship.SubmitErrorText | src/components/Student/ApplyScholarship.jsx:53-62 | no response gives the connection text; an errors list gives its messages joined with ", "; otherwise the server message or "Submission failed" |
| ApplyScholarship.EmptyErrorListShowsNothing | src/components/Student/ApplyScholarship.jsx:55-59 | an empty errors list is truthy, so the error text is empty |
| ApplyScholarship.ApplyPage.constructor | src/components/Student/ApplyScholarship.jsx:9-21 | the form starts as the initial form, with no documents and both texts empty |
| ApplyScholarship.ApplyPage.HandleChange | src/components/Student/ApplyScholarship.jsx:23-25 | only the named field changes |
| ApplyScholarship.ApplyPage.HandleFileChange | src/components/Student/ApplyScholarship.jsx:27-29 | only the named document changes |
| ApplyScholarship.ApplyPage.BuildBody | src/components/Student/ApplyScholarship.jsx:36-43 | the loop appends every field in order, then each chosen document |
| ApplyScholarship.ApplyPage.HandleSubmit | src/components/Student/ApplyScholarship.jsx:31-64 | both texts cleared, the body sent; success shows the success text; failure shows the selected error text |

## Left out

- The encryption helper (src/utils/encryptionUtils.js) is not part of this model. Every operation in it is a call into a cryptographic library, the public-key fetch is a network call, and no modelled component calls it.
- HTTP transport is not modelled. Each call is an `Outcome` parameter. `register` and `resendOtp` in the provider only forward a request, and the page behaviour around `resendOtp` is modelled.
- `getOtpStatus` in the provider is not modelled. It is called by none of the modelled pages; it returns the server's answer and turns any failure into a remaining time of 0.
- The credentials, OTP code, trust-device flag and form values a request carries are not modelled, except where a rule depends on them.
- `jwtDecode`, `Date.now()` and `JSON.parse`/`JSON.stringify` are not modelled. The decoder is a function parameter and the clock an integer.
- AuthContext.AfterStartup: a stored `user` text is taken to parse to a falsy value only when it is exactly `null`, `false`, `0` or `""`. Other spellings of those values (such as `-0` or surrounding spaces) are treated as parse failures. So are truthy non-record values such as `true`, a number or an array, which the start-up effect would make the current user. A record's JSON is always stored as `Json`; a `Text` whose content is a record's JSON is treated as a parse failure, so start-up logs out where the source would make that record the current user.
- `setInterval`, `setTimeout` and React's effect scheduling are not modelled. The countdown is the explicit `Tick` step, and the delayed navigations after a successful submission are dropped.
- Routes.Resolve: percent-decoding of the location is not modelled, and letters are lower-cased in ASCII only.
- The gating behaviour of `ProtectedRoute` is not modelled. Its source is not part of this model, so only the route table and its allowed roles are.
- Rendering, styling other than the status colours, date formatting, `alert` (except the texts it is given) and console logging are not modelled.
- Register, TOTPVerify and Unauthorized are not modelled: they are form plumbing and static pages.
- The administrator's user-management and onboarding tabs are not modelled.
- Js.ToUpper: upper-cases ASCII letters only, because `toUpperCase`'s full Unicode case mapping is not modelled.
- AdminDashboard.CardFor: takes every application to have a status. The card upper-cases the status without a guard (src/components/Admin/AdminDashboard.jsx:580), so an application without one makes the card throw; the model does not capture that.
- ApplyScholarship.SubmitErrorText: takes every error response to carry a body. The check for validation errors reads the body without a guard (src/components/Student/ApplyScholarship.jsx:55), so a response without one throws inside the error handler and no error text is set; the model does not capture that.
- VerifyApplications.VerifierPage.HandleVerify: does not refetch the list itself. The refetch after success is the separate `FetchApplications` call.
- AdminDashboard.AdminPage.Approve: does not refetch the list itself, for the same reason.
- AdminDashboard.AdminPage.RejectSubmit: does not refetch the list itself. The refetch after a successful rejection (src/components/Admin/AdminDashboard.jsx:90) is the separate `FetchApplications` call.
- HTML constraint validation is not modelled. The browser refuses to submit a form whose `required` fields are empty, or whose password is shorter than its `minLength` of 8 (src/components/Auth/SetupAccount.jsx:85-97). `LoginForm.BeginSubmit`, `OtpPage.HandleSubmit`, `SetupPage.BeginSubmit` and `ApplyPage.HandleSubmit` are modelled on every input, including those the browser would stop before the handler runs.
- ApplyScholarship.ApplyPage.HandleChange: requires the field name to be a declared field. Every input of the form carries one, and this keeps the keys, and so their enumeration order, fixed.

## Findings

| source | as written | input that shows it | evidently intended | confidence | as-written member | corrected member |
|---|---|---|---|---|---|---|
| src/components/Student/ApplicationStatus.jsx:163 | the signed-record section, with its integrity-check button, shows only for status "approved" in lower case | an application with status "Approved", the value the badge (:88) and the administrator's dashboard test: its badge reads APPROVED in the approved colours, but no section appears | show the section for status "Approved" | high; not executed | ApplicationStatus.IntegritySectionAsWrittenMissesApproved | ApplicationStatus.IntegritySectionMatchesApprovedBadge |
