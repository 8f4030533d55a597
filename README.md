# Foodie Market front end, modelled in Dafny

Foodie Market is a front-end prototype of a home-chef marketplace. A static landing page
(`script.js`) rotates taglines, cycles testimonials, offers mock sign-in links and simulates a
payment. A React dashboard app (`hosting/src`) has three role workspaces: buyer, vendor and
admin. Its state is held in three contexts: the role workspace (`RoleContext`), the signed-in
user (`AuthContext`) and a single toast (`ToastContext`). A mock service (`authApi.ts`) builds
users, and a route guard (`DashboardGuard`) checks the role slug. The sign-up page validates
vendor verification details. In the vendor dashboard you keep a checklist, see orders by
status, and send bids on open requests through a three-step wizard.

The model has one module per source file:

| module | file | models |
|---|---|---|
| `Roles` | roles.dfy | `RoleContext.tsx`: role options, stored-role initialiser, role switch and its toast |
| `AuthTypes` | auth_types.dfy | `types/auth.ts`: the user and payload records |
| `AuthApi` | auth_api.dfy | `authApi.ts`: reserved accounts, mock sign-up and sign-in |
| `Session` | session.dfy | `AuthContext.tsx`: the user state, sign-up/in/out, storage mirroring |
| `Toasts` | toasts.dfy | `ToastContext.tsx`: show, expiry callback, clear |
| `Guard` | guard.dfy | `DashboardGuard.tsx`: slug check, redirect or sync, render choice |
| `FileHelpers` | file_helpers.dfy | `fileHelpers.ts`: compressed file name, keep-original decisions |
| `SignUp` | sign_up.dfy | `SignUp.tsx`: vendor requirement checks, payload, file pickers, submit |
| `VendorDashboard` | vendor_dashboard.dfy | `vendor/Dashboard.tsx`: checklist, order columns, bid lifecycle, bid wizard |
| `LandingScript` | landing_script.dfy | `script.js`: tagline, carousel, base path, mock sign-in, payment steps |
| `JsStrings` | js_strings.dfy | the JavaScript string built-ins the code relies on (`trim`, `lastIndexOf`, `startsWith`, `endsWith`) |
| `Wrappers`, `Arith` | wrappers.dfy, arith.dfy | `Option`/`Result`, and small multiplication and remainder facts |

The model takes these forms:

- Components and providers whose handlers reassign state are classes. Each method's
  `ensures` ties the new state to a pure transition function of the old state. The
  properties are lemmas about those functions.
- A JavaScript `null` or `undefined` is an `Option`. A thrown error is a `Result.Err`.
- Browser storage is a field that records what the effects wrote.
- The wall clock, random ids and image encoding are parameters.
- Each timer callback or awaited delay is an explicit event: `FireTimer`,
  `ToastTimerFires`, `BidDelayElapsed`, `CycleTimerFires`.

Two storage keys do not match, and the model records this rather than correcting it. The
landing page stores the role under `foodiemarket_role` (script.js:70). The role context reads
it from `homeplate_role` (hosting/src/context/RoleContext.tsx:21). So a mock sign-in on the
landing page restores the user in the app but not the workspace role
(`LandingScript.StorageKeys`).

## Model

| member | source | states |
|---|---|---|
| `JsStrings.Trim` | hosting/src/pages/auth/SignUp.tsx:28-31 | the trimmed text is the part of the input that follows the leading whitespace and is followed only by whitespace; it is empty exactly when the input is blank, and its ends are not whitespace |
| `JsStrings.TrimIdempotent` | hosting/src/pages/auth/SignUp.tsx:75-76 | trimming an already trimmed text changes nothing |
| `JsStrings.LastIndexOf` | hosting/src/utils/fileHelpers.ts:7 | the result is -1 exactly when the character is absent; otherwise the character is there and occurs nowhere after it |
| `Roles.FindRole` | hosting/src/context/RoleContext.tsx:28 | a match is an option whose value is the string; no match means no option has that value |
| `Roles.ParseRoleValue` | hosting/src/context/RoleContext.tsx:7-11 | each role's value parses back to that role |
| `Roles.ParseRoleExactly` | hosting/src/context/RoleContext.tsx:28 | exactly "buyer", "vendor" and "admin" parse, each to the role with that value |
| `Roles.InitialRole` | hosting/src/context/RoleContext.tsx:25-29 | the stored value is used when there is a window and it is a known role; otherwise the role is buyer |
| `Roles.InitialRoleRestoresPersisted` | hosting/src/context/RoleContext.tsx:25-36 | a role that was persisted is restored unchanged |
| `Roles.FindLabel` | hosting/src/context/RoleContext.tsx:44 | a found label belongs to an option of that role; none found means no option has the role |
| `Roles.RoleLabelIsOptionLabel` | hosting/src/context/RoleContext.tsx:44 | each of the three modelled roles has an option, so its label is "Buyer", "Vendor" or "Admin" and never the raw value; a role string outside the three (see the SignUp.tsx:49 Finding) would take the `?? role` fallback, which the model's `Role` type cannot express |
| `Roles.SwitchedToastInjective` | hosting/src/context/RoleContext.tsx:44-45 | different roles announce different toasts |
| `Roles.RoleProvider.constructor` | hosting/src/context/RoleContext.tsx:25-36 | the role comes from the initialiser; without a toast or hydration, the persist effect writes the role back |
| `Roles.RoleProvider.Hydrate` | hosting/src/context/RoleContext.tsx:38-49 | the first hydration shows "Switched to <label> workspace" for the current role and arms the timer |
| `Roles.SetRoleState` | hosting/src/context/RoleContext.tsx:33-53 | the role becomes the new one and hydration is kept; a changed role is persisted and, once hydrated, announced with a fresh timer; the same role changes nothing; the provider's invariant is kept |
| `Roles.SetRoleSurvivesReload` | hosting/src/context/RoleContext.tsx:25-36 | after a role is set, reloading with the stored value restores that role |
| `Roles.SetRoleIdempotent` | hosting/src/context/RoleContext.tsx:51-53 | setting the same role twice is setting it once |
| `Roles.ToastStep` | hosting/src/context/RoleContext.tsx:42-55 | with the toast effect re-running only on a change of role or hydration (the corrected behaviour, see Findings): the pending timer clears the toast and is consumed, `clearToast` clears it and keeps the timer; role, hydration and storage are untouched |
| `Roles.ToastStepAsWritten` | hosting/src/context/RoleContext.tsx:42-55 | as written: once hydrated, clearing a shown toast makes the toast effect re-run, and the role's toast is shown again with a fresh timer |
| `Roles.ToastNeverLeavesAsWritten` | hosting/src/context/RoleContext.tsx:42-55 | as written, a hydrated provider shows the role toast after any sequence of timer firings and dismissals |
| `Roles.ClearedToastStaysCleared` | hosting/src/context/RoleContext.tsx:42-55 | in the corrected form, a cleared toast stays cleared through any further toast events |
| `Roles.ToastGoesForGood` | hosting/src/context/RoleContext.tsx:42-55 | in the corrected form, after the timer fires or the toast is dismissed, no later toast event brings it back |
| `Roles.RoleProvider.SetRole` | hosting/src/context/RoleContext.tsx:33-53 | the provider's state becomes `SetRoleState` of the old state |
| `Roles.RoleProvider.ToastTimerFires` | hosting/src/context/RoleContext.tsx:47 | the provider's state becomes `ToastStep` of the old state for a timer firing: the corrected behaviour, see Findings |
| `Roles.RoleProvider.ClearToast` | hosting/src/context/RoleContext.tsx:55 | the provider's state becomes `ToastStep` of the old state for a dismissal: the corrected behaviour, see Findings |
| `AuthApi.MockSignUp` | hosting/src/services/authApi.ts:15-30 | a reserved email fails with the reserved-email error; otherwise name, email and role are copied, a vendor is pending with the given id, and everyone else is verified with no id |
| `AuthApi.SignUpRejectsReservedEmail` | hosting/src/services/authApi.ts:3-18 | signing up as admin@foodiemarket.com fails with "This email is reserved by Foodie Market." |
| `AuthApi.MockSignIn` | hosting/src/services/authApi.ts:32-52 | a static email with a wrong password fails with "Invalid credentials" and with the right one returns the static profile; any other email succeeds with that email |
| `AuthApi.SignInResolvesFallbacks` | hosting/src/services/authApi.ts:43-50 | for a non-static email the role is the requested one, else the existing user's, else buyer; the name is the existing one, else "Foodie"; the verification id is carried over |
| `AuthApi.SignInStatusFollowsRequestedRole` | hosting/src/services/authApi.ts:49 | an explicit vendor role gets the existing status or pending; every other request is reported verified |
| `AuthApi.PendingVendorWithoutRoleReportedVerified` | hosting/src/services/authApi.ts:43-50 | a pending vendor who signs in without naming a role comes back as a vendor with status verified |
| `AuthApi.VendorSignUpThenSignIn` | hosting/src/services/authApi.ts:15-52 | a vendor who signs up and then signs in as vendor keeps name, pending status and verification id |
| `AuthApi.SignInIdempotent` | hosting/src/services/authApi.ts:32-52 | signing in again with the result as the existing user gives the same result |
| `Session.SignUpUserIgnoresSecrets` | hosting/src/context/AuthContext.tsx:69-79 | the registered user is name, email and role, and does not depend on password or verification details |
| `Session.SignInAgreesWithService` | hosting/src/context/AuthContext.tsx:81-93 | the context resolves name, email and role exactly as the mock service does for a non-static email |
| `Session.SignInUserIdempotent` | hosting/src/context/AuthContext.tsx:81-93 | signing in twice with the same payload gives the user of one sign-in |
| `Session.AuthProvider.constructor` | hosting/src/context/AuthContext.tsx:46-50 | the user is the stored record when there is a window; storage is left as found |
| `Session.AuthProvider.MirrorStorage` | hosting/src/context/AuthContext.tsx:52-59 | with a window, storage becomes the current user or is removed; without one it is untouched |
| `Session.AuthProvider.PersistUser` | hosting/src/context/AuthContext.tsx:61-67 | the user is replaced and, with a window, stored; the role context's whole state becomes `setRole` of the user's role (hydration kept, toast and timer as `setRole` sets them) |
| `Session.AuthProvider.SignUp` | hosting/src/context/AuthContext.tsx:69-79 | returns and stores the name/email/role user; the role context's whole state becomes `setRole` of that role |
| `Session.AuthProvider.SignIn` | hosting/src/context/AuthContext.tsx:81-93 | returns and stores the user resolved from the payload and the previous user; the role context's whole state becomes `setRole` of its role |
| `Session.AuthProvider.SignOut` | hosting/src/context/AuthContext.tsx:95-97 | the user is removed, and with a window so is its stored record; the role context is untouched |
| `Toasts.Expire` | hosting/src/context/ToastContext.tsx:18 | an expiry clears the message only if it is still the one it was scheduled for |
| `Toasts.ShowSetsMessage` | hosting/src/context/ToastContext.tsx:15-20 | showing puts the message on screen and schedules exactly one expiry when the duration is positive, none otherwise |
| `Toasts.FireClearsOnlyItsOwnMessage` | hosting/src/context/ToastContext.tsx:18 | a firing timer leaves no message exactly when its own message (or none) was showing, and is consumed |
| `Toasts.NewerMessageSurvivesOlderTimer` | hosting/src/context/ToastContext.tsx:15-20 | the timer of an older message does not clear a newer, different one |
| `Toasts.DefaultToastExpires` | hosting/src/context/ToastContext.tsx:15-18 | a message shown with the default 2500 ms is cleared by its own timer |
| `Toasts.StickyToastPersists` | hosting/src/context/ToastContext.tsx:17-18 | a message shown with a duration of zero or less, while no pending timer carries the same text, stays through any sequence of timer firings (a pending timer for the same text would clear it) |
| `Toasts.ToastProvider.constructor` | hosting/src/context/ToastContext.tsx:13 | no message and no timers |
| `Toasts.ToastProvider.ShowToast` | hosting/src/context/ToastContext.tsx:15-20 | the state becomes the shown state, with 2500 ms as the default duration |
| `Toasts.ToastProvider.FireTimer` | hosting/src/context/ToastContext.tsx:18 | the state becomes the state after that timer's callback |
| `Toasts.ToastProvider.ClearToast` | hosting/src/context/ToastContext.tsx:22 | the message is removed and pending timers are kept |
| `Guard.IsRole` | hosting/src/pages/DashboardGuard.tsx:15-17 | true exactly for a present slug equal to one of the three role values |
| `Guard.AbsentSlugIsInert` | hosting/src/pages/DashboardGuard.tsx:24-38 | without a slug the guard does nothing and renders nothing |
| `Guard.InvalidSlugRedirectsToBuyer` | hosting/src/pages/DashboardGuard.tsx:26-29 | an unknown slug redirects to /dashboard/buyer and renders nothing |
| `Guard.ValidSlugRendersItsDashboard` | hosting/src/pages/DashboardGuard.tsx:31-40 | a role slug renders that role's dashboard and syncs the role context only when it differs |
| `Guard.GuardSettles` | hosting/src/pages/DashboardGuard.tsx:24-34 | no action means a dashboard renders; after a sync the guard has nothing more to do and renders that role's dashboard; a redirect goes to the buyer slug, which is not redirected again |
| `Guard.RunGuard` | hosting/src/pages/DashboardGuard.tsx:24-34 | a redirect is returned as the navigation, a sync puts the role context in the state `setRole` of the slug's role gives, and otherwise the role context is unchanged |
| `FileHelpers.BuildCompressedName` | hosting/src/utils/fileHelpers.ts:6-14 | "-compressed" is inserted before the last dot, or appended when there is no dot; the name grows by 11 characters |
| `FileHelpers.CompressedNameKeepsExtension` | hosting/src/utils/fileHelpers.ts:6-14 | the compressed name has the same extension as the original |
| `FileHelpers.CompressedNameKeepsBase` | hosting/src/utils/fileHelpers.ts:11-13 | the compressed name starts with the original base name followed by "-compressed" |
| `FileHelpers.PreferredType` | hosting/src/utils/fileHelpers.ts:36 | PNG stays PNG and everything else is encoded as JPEG |
| `FileHelpers.CompressImageFile` | hosting/src/utils/fileHelpers.ts:16-43 | a non-image is returned as is; an image that cannot be decoded rejects (`None`), and only then; a changed result is the encoder's blob, strictly smaller, under the compressed name |
| `FileHelpers.KeepOriginalExactly` | hosting/src/utils/fileHelpers.ts:17-40 | the original is kept exactly when it is not an image, or it was decoded and there is no canvas context, encoding fails, or the blob is not smaller |
| `FileHelpers.CompressedTypeFollowsInput` | hosting/src/utils/fileHelpers.ts:36-42 | with an encoder that honours the requested type, a compressed PNG stays PNG and any other image becomes JPEG |
| `SignUp.ValidateVendorRequirements` | hosting/src/pages/auth/SignUp.tsx:27-44 | no message exactly when address and landmark are non-blank, media is non-empty and both documents are present; otherwise the message of the first unmet check |
| `SignUp.BlankTextIsMissing` | hosting/src/pages/auth/SignUp.tsx:28-31 | an address or landmark of whitespace only counts as missing |
| `SignUp.BlankAddressReportedFirst` | hosting/src/pages/auth/SignUp.tsx:28-42 | a blank address is reported whatever else is missing |
| `SignUp.MissingMediaReportedBeforeDocuments` | hosting/src/pages/auth/SignUp.tsx:34-42 | with address and landmark given, missing media is reported before missing documents |
| `SignUp.ValidatedPayloadIsComplete` | hosting/src/pages/auth/SignUp.tsx:74-80 | the payload of validated details has non-blank trimmed texts, a positive media count and both documents flagged |
| `SignUp.SelectKitchenMedia` | hosting/src/pages/auth/SignUp.tsx:105 | the first min(n, 6) picked files in order, or none when nothing was picked |
| `SignUp.SelectSingleFile` | hosting/src/pages/auth/SignUp.tsx:110-111 | the first picked file, or none |
| `SignUp.UncheckedRoleParamLetsUnknownRoleIn` | hosting/src/pages/auth/SignUp.tsx:49 | as written, `?role=chef` puts the unknown role "chef" into the form |
| `SignUp.InitialFormRoleAgreesOnValidInput` | hosting/src/pages/auth/SignUp.tsx:49 | the corrected initial role equals the written one for an absent or valid parameter, and is buyer otherwise |
| `SignUp.OnlyVendorsSendVerification` | hosting/src/pages/auth/SignUp.tsx:68-83 | the payload carries verification details exactly when the role is vendor |
| `SignUp.NonVendorsSkipValidation` | hosting/src/pages/auth/SignUp.tsx:69-73 | a non-vendor submission is never stopped by the vendor checks |
| `SignUp.SignedInRedirect` | hosting/src/pages/auth/SignUp.tsx:57-61 | a signed-in user, and only one, is sent to /dashboard/<role> |
| `SignUp.SignUpPage.constructor` | hosting/src/pages/auth/SignUp.tsx:49-55 | empty form with the (validated) initial role, not loading, no error, empty vendor details |
| `SignUp.SignUpPage.ChangeText` | hosting/src/pages/auth/SignUp.tsx:93-96 | only the edited text field changes |
| `SignUp.SignUpPage.ChooseRole` | hosting/src/pages/auth/SignUp.tsx:204 | only the role changes |
| `SignUp.SignUpPage.ChangeVendorText` | hosting/src/pages/auth/SignUp.tsx:98-102 | only the edited address or landmark changes |
| `SignUp.SignUpPage.ChangeKitchenMedia` | hosting/src/pages/auth/SignUp.tsx:104-107 | the media become the kept selection, at most six |
| `SignUp.SignUpPage.ChangeSingleFile` | hosting/src/pages/auth/SignUp.tsx:109-112 | the ID or bill becomes the first picked file or none |
| `SignUp.SignUpPage.HandleSubmit` | hosting/src/pages/auth/SignUp.tsx:63-91 | on a validation error, sign-up is not called, the error is set, and auth, role and toast are untouched; otherwise the user is registered, the role context's whole state becomes `setRole` of the form's role, the welcome toast shows and the page navigates to the role's dashboard; loading ends false |
| `VendorDashboard.ToggleByLabel` | hosting/src/pages/vendor/Dashboard.tsx:51-55 | same length; items with that label have `complete` flipped, all others unchanged |
| `VendorDashboard.ToggleTwiceRestores` | hosting/src/pages/vendor/Dashboard.tsx:51-55 | toggling a label twice restores the list |
| `VendorDashboard.CompletedCount` | hosting/src/pages/vendor/Dashboard.tsx:48 | at most the number of items; 0 exactly when none is complete, all exactly when every item is |
| `VendorDashboard.CompletedCountConcat` | hosting/src/pages/vendor/Dashboard.tsx:48 | the count of a concatenation is the sum of the counts |
| `VendorDashboard.CompletedCountIsNumberCompleted` | hosting/src/pages/vendor/Dashboard.tsx:48 | the count is the number of positions holding a completed item, the length of `filter(item => item.complete)` |
| `VendorDashboard.ChecklistProgress` | hosting/src/pages/vendor/Dashboard.tsx:48-49 | undefined (NaN) exactly for an empty list; otherwise the percentage of completed items rounded half up, within 0..100 |
| `VendorDashboard.ProgressWhenNoneComplete` | hosting/src/pages/vendor/Dashboard.tsx:48-49 | no completed item gives 0% |
| `VendorDashboard.ProgressWhenAllComplete` | hosting/src/pages/vendor/Dashboard.tsx:48-49 | every item completed gives 100% |
| `VendorDashboard.InitialProgress` | hosting/src/pages/vendor/Dashboard.tsx:27-49 | the initial checklist shows 33% |
| `VendorDashboard.ColumnOrders` | hosting/src/pages/vendor/Dashboard.tsx:321-326 | a column holds exactly the orders with its status |
| `VendorDashboard.OrderInExactlyOneColumn` | hosting/src/pages/vendor/Dashboard.tsx:24 | every order appears in the column of its status and in no other |
| `VendorDashboard.ColumnsPartitionOrders` | hosting/src/pages/vendor/Dashboard.tsx:316-326 | the four columns together are the order list as a multiset |
| `VendorDashboard.ColumnCountsAddUp` | hosting/src/pages/vendor/Dashboard.tsx:316-322 | the column counts sum to the number of orders |
| `VendorDashboard.OpenAndCloseReset` | hosting/src/pages/vendor/Dashboard.tsx:57-67 | opening sets the request and clears both flags; closing clears the request and both flags |
| `VendorDashboard.SubmitGuard` | hosting/src/pages/vendor/Dashboard.tsx:69-71 | a bid is ignored exactly when no request is open, one is being submitted, or the bid was sent; otherwise one submission starts |
| `VendorDashboard.SubmitThenComplete` | hosting/src/pages/vendor/Dashboard.tsx:69-75 | a submission followed by its completion ends not submitting, sent, with one bid logged |
| `VendorDashboard.StaleCompletionMarksOtherRequestSent` | hosting/src/pages/vendor/Dashboard.tsx:63-75 | as written, a completion that outlives its modal marks the next request's bid as sent though none was sent for it |
| `VendorDashboard.BidInvariantMeaning` | hosting/src/pages/vendor/Dashboard.tsx:57-75 | under the lifecycle invariant, at most one bid is sent per open, "sent" means this open's bid went out, and nothing is in progress without a request |
| `VendorDashboard.BidStepPreservesInvariant` | hosting/src/pages/vendor/Dashboard.tsx:57-75 | open, close, submit and the corrected completion each keep the lifecycle invariant |
| `VendorDashboard.BidLifecycleSafe` | hosting/src/pages/vendor/Dashboard.tsx:57-75 | the invariant holds after any sequence of opens, closes, submissions and completions |
| `VendorDashboard.BidStepAsWrittenKeepsOneBidPerOpen` | hosting/src/pages/vendor/Dashboard.tsx:57-75 | with the completion as written, open, close, submit and completion each keep bids in session order, none from a later session, and the submit guard closed once this session's bid went out |
| `VendorDashboard.BidLifecycleAsWrittenOneBidPerOpen` | hosting/src/pages/vendor/Dashboard.tsx:57-75 | the source as written sends at most one bid per modal open over any sequence of events |
| `VendorDashboard.WizardStaysInBounds` | hosting/src/pages/vendor/Dashboard.tsx:380-391 | Next and Back keep the step in 0..2; Back undoes Next below the last step; Back at 0 and Next at 2 do not move |
| `VendorDashboard.SendDisabledExactlyWhenIgnored` | hosting/src/pages/vendor/Dashboard.tsx:506 | at the review step the send button is disabled exactly when a bid would be ignored |
| `VendorDashboard.Without` | hosting/src/pages/vendor/Dashboard.tsx:376 | the asset is gone, every other element's membership is kept, nothing changes if it was absent, no duplicates appear |
| `VendorDashboard.ToggleAssetFlipsMembership` | hosting/src/pages/vendor/Dashboard.tsx:374-378 | toggling flips that asset's membership only and keeps a duplicate-free list duplicate-free |
| `VendorDashboard.ToggleAssetTwice` | hosting/src/pages/vendor/Dashboard.tsx:374-378 | toggling twice restores membership, and the exact list when the asset was unselected |
| `VendorDashboard.VendorDashboardPage.constructor` | hosting/src/pages/vendor/Dashboard.tsx:27-34 | the initial checklist, no request, neither flag set |
| `VendorDashboard.VendorDashboardPage.HandleChecklistToggle` | hosting/src/pages/vendor/Dashboard.tsx:51-55 | the checklist becomes the toggled list |
| `VendorDashboard.VendorDashboardPage.OpenRequestModal` | hosting/src/pages/vendor/Dashboard.tsx:57-61 | the bid state becomes the opened state, keeping the invariant |
| `VendorDashboard.VendorDashboardPage.CloseRequestModal` | hosting/src/pages/vendor/Dashboard.tsx:63-67 | the bid state becomes the closed state, keeping the invariant |
| `VendorDashboard.VendorDashboardPage.HandleSubmitBid` | hosting/src/pages/vendor/Dashboard.tsx:69-71 | the guarded start of a submission, keeping the invariant |
| `VendorDashboard.VendorDashboardPage.BidDelayElapsed` | hosting/src/pages/vendor/Dashboard.tsx:72-74 | the oldest pending completion, as intended, keeping the invariant |
| `VendorDashboard.BidRequestModal.constructor` | hosting/src/pages/vendor/Dashboard.tsx:362-366 | step 0, the bid amount from the request's budget, the default notes, "Signature menu.pdf" selected |
| `VendorDashboard.BidRequestModal.SetBidAmount` | hosting/src/pages/vendor/Dashboard.tsx:431 | the bid amount becomes the typed value |
| `VendorDashboard.BidRequestModal.SetNotes` | hosting/src/pages/vendor/Dashboard.tsx:439 | the notes become the typed value |
| `VendorDashboard.BidRequestModal.ToggleAssetSelection` | hosting/src/pages/vendor/Dashboard.tsx:374-378 | the selection becomes the toggled list and stays duplicate-free |
| `VendorDashboard.BidRequestModal.HandlePrimaryAction` | hosting/src/pages/vendor/Dashboard.tsx:380-386 | below the last step it advances and leaves the dashboard alone; at the last step it submits the bid |
| `VendorDashboard.BidRequestModal.HandleBack` | hosting/src/pages/vendor/Dashboard.tsx:388-391 | the step goes back by one, not below 0 |
| `VendorDashboard.BidRequestModal.ClickPrimary` | hosting/src/pages/vendor/Dashboard.tsx:504-506 | a disabled button does nothing; an enabled one advances, or at the review step always starts a submission |
| `VendorDashboard.BidRequestModal.ClickSecondary` | hosting/src/pages/vendor/Dashboard.tsx:500 | disabled while submitting; Cancel at step 0 closes the modal, Back otherwise steps back |
| `LandingScript.NextTaglineIndex` | script.js:92 | the next index stays below 4, advances by one, and wraps from 3 to 0 |
| `LandingScript.StepIndex` | script.js:144 | the new index stays below the story count; next and previous move by one with wrap-around |
| `LandingScript.NextThenPrevious` | script.js:143-145 | next then previous, and previous then next, return to the same story |
| `LandingScript.ForwardIsModular` | script.js:143-153 | k forward steps from index i land on (i + k) mod n |
| `LandingScript.GetAppBasePath` | script.js:221-224 | an absent or empty base gives "./hosting/dist"; a trailing "/" is dropped, otherwise the base is kept |
| `LandingScript.StripsExactlyOneSlash` | script.js:223 | exactly one trailing slash is removed, even from a base ending in two |
| `LandingScript.MockAuthClick` | script.js:226-243 | role defaults to buyer and is kept as given; a known role uses its profile and any other the buyer's; status is always "verified"; the stored role equals the payload's; the destination defaults to base + "/dashboard/" + role |
| `LandingScript.UnknownRoleKeepsItsName` | script.js:231-233 | an unknown role signs in with the buyer profile but its own role string and dashboard path |
| `LandingScript.TestimonialLinksMatchDefaultPaths` | script.js:8-59 | every testimonial's link signs in as its role and goes to the default dashboard path of that role |
| `LandingScript.StorageKeys` | script.js:69-72 | the landing page's auth key is the app's session key, but its role key differs from the role context's |
| `LandingScript.LandingPage.constructor` | script.js:61-62 | both indices start at 0, nothing shown, no timer armed |
| `LandingScript.LandingPage.RotateTagline` | script.js:88-93 | shows the current tagline and advances the index, or does nothing without a tagline element |
| `LandingScript.LandingPage.RenderTestimonial` | script.js:101-104 | the card shows the current story when there is a carousel |
| `LandingScript.LandingPage.RestartTestimonialCycle` | script.js:149-154 | the timer is armed only when there is more than one story |
| `LandingScript.LandingPage.ChangeTestimonial` | script.js:143-147 | the index steps in the given direction, the card shows the new story, and the timer is re-armed when there is more than one story |
| `LandingScript.LandingPage.InitTestimonialCarousel` | script.js:246-255 | with a carousel, the current story is shown and the timer armed only for more than one story |
| `LandingScript.LandingPage.CycleTimerFires` | script.js:152 | the timer advances to the next story and stays armed |
| `LandingScript.StepMessage` | script.js:303 | step i's message for the first four steps, "Processing…" after them |
| `LandingScript.StatusTrace` | script.js:278-309 | "Waiting for input", then each step's message in order, then "Escrow funded successfully" |
| `LandingScript.FourStepTrace` | script.js:265-270 | for four steps the status walks through the four step messages |
| `LandingScript.PaymentForm.constructor` | script.js:257-262 | the form's elements and their start values are as the markup gives them, and nothing has been written to the status yet |
| `LandingScript.PaymentForm.SetStatus` | script.js:278 | the status element shows the text, and the text is appended to the status log |
| `LandingScript.PaymentForm.ResetSteps` | script.js:272-282 | every step is neither active nor completed with badge "Queued", the status is "Waiting for input", and the result is hidden |
| `LandingScript.PaymentForm.RunSteps` | script.js:298-308 | every step ends inactive and completed with badge "Done", and the status shows each step's message in index order |
| `LandingScript.PaymentForm.Submit` | script.js:286-324 | every step ends completed with badge "Done"; the status shows "Waiting for input", each step's message in index order, and ends funded; the result is shown; the button is re-enabled as "Simulate payment" |

## Left out

- `setTimeout` delays and `await`: each delayed callback is a separate event that the caller triggers. Overlapping payment submissions on the landing page are not modelled.
- Browser storage and JSON: storage is a field holding parsed values. A stored record that fails `JSON.parse` (and throws) is not modelled.
- Rendering (JSX, CSS classes, animations), analytics tracking, and the float progress bar of the testimonial carousel (script.js:178-192): these are presentation only.
- The bid trend, total bid volume, maximum bid value and bar focus of the vendor dashboard: they are display values over a constant table.
- The providers' placement: the model composes `AuthProvider` and `ToastProvider` with the role context, as if both were mounted above `App`. The source's hosting/src/main.tsx:9-15 mounts only `RoleProvider`. As written, `ToastViewport` (always rendered by App.tsx:19) and every `useAuth` caller would throw "must be used within a …Provider" on the first render.
- `compressImageFile`'s bitmap scaling, canvas drawing and JPEG quality: the canvas and encoder are a parameter.
- `fileToDataUrl`, `dataUrlToFile`, `crypto.randomUUID` and `Date.now`: the generated id is a parameter of `AuthApi.MockSignUp`.
- script.js event binding, the nav toggle and active-link highlight, `setYear` (clock) and `setInterval` in `initTaglineRotation`: the interval is modelled as repeated `RotateTagline` calls.
- The payment amount display: `Number(...)` and `toLocaleString("en-NG")` formatting are left out.
- `AuthApi.MockSignUp`: the reserved accounts are a map, so an email equal to a key that JavaScript objects inherit (such as "constructor" or "toString") is not reported as reserved, as the `in` test at authApi.ts:16 would; the sign-up and sign-in forms only accept email addresses (`type="email"`), which never equal such a key.
- `AuthApi.MockSignIn`: for the same reason an inherited-key email signs in as a new user, where the source's lookup at authApi.ts:35-38 fails with "Invalid credentials".
- `Roles.RoleProvider.ToastTimerFires`: follows the corrected toast effect; as written the toast is shown again with a new timer (`Roles.ToastStepAsWritten`, see Findings).
- `Roles.RoleProvider.ClearToast`: follows the corrected toast effect; as written the dismissed toast comes back with a new timer (`Roles.ToastStepAsWritten`, see Findings).
- `LandingScript.MockAuthClick`: it looks roles up among the three profiles only. Keys that JavaScript objects inherit (such as "constructor") are not modelled.
- `LandingScript.LandingPage.constructor`: requires at least one testimonial. With none, the source fails while rendering.
- `LandingScript.LandingPage.ChangeTestimonial`: accepts only the directions +1 and -1, the only ones the page passes.
- `VendorDashboard.ChecklistProgress`: the NaN of an empty checklist is `None`. The percentage is exact rational rounding, with no floating-point error.
- `VendorDashboard.BidRequestModal`: the modal's lifetime (unmounted on close, mounted afresh on open) is a new object per open. The dashboard methods use the corrected bid completion.
- `SignUp.SignUpPage.HandleSubmit`: the "Unable to sign up" fallback is left out, because the auth context's sign-up never throws.

## Findings

| source | as written | input that shows it | evidently intended | confidence | as-written member | corrected member |
|---|---|---|---|---|---|---|
| hosting/src/pages/auth/SignUp.tsx:49 | the `role` query parameter is cast to a role without any check, and the unknown role flows on: signing up calls `setRole` with it (AuthContext.tsx:63), the role context persists it (RoleContext.tsx:35) and, finding no label, announces the raw value (RoleContext.tsx:44) | `/auth/sign-up?role=chef` starts the form with role "chef", outside the three roles; submitting it stores "chef" as the workspace role and shows "Switched to chef workspace" | an unknown role falls back to the first option, buyer | not executed | `SignUp.InitialFormRoleAsWritten`, `SignUp.UncheckedRoleParamLetsUnknownRoleIn` | `SignUp.InitialFormRole`, `SignUp.InitialFormRoleAgreesOnValidInput` |
| hosting/src/pages/vendor/Dashboard.tsx:63-75 | the completion after the 900 ms wait sets `bidSent` whatever was opened or closed meanwhile, and the modal's close button stays enabled while submitting | open request A, send the bid, close the modal with the X button within 900 ms, open request B: B shows "Bid sent" though no bid was sent for it | a completion only affects the modal session that submitted it | not executed | `VendorDashboard.CompleteBidAsWritten`, `VendorDashboard.StaleCompletionMarksOtherRequestSent` | `VendorDashboard.CompleteBid`, `VendorDashboard.BidLifecycleSafe` |
| hosting/src/context/RoleContext.tsx:42-49 | the toast effect lists `analytics` among its dependencies, and `useAnalytics` returns a new object on every render (hooks/useAnalytics.ts:17), so the effect re-runs after every re-render of the provider | once hydrated as vendor, wait 2.5 s or dismiss the toast: the provider re-renders, "Switched to Vendor workspace" is shown again, `role_switched` is tracked again and a new 2500 ms timer starts, so the toast never goes | the toast is announced once per role change and cleared for good by its timer or by `clearToast` | not executed | `Roles.ToastStepAsWritten`, `Roles.ToastNeverLeavesAsWritten` | `Roles.ToastStep`, `Roles.ToastGoesForGood` |
