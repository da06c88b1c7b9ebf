# Kantama portal: a verified Dafny model

Kantama is a portal where companies apply for equipment financing (leasing
and sale-leaseback). Financiers answer an application with offers,
information requests and contracts. An administrator forwards applications
to financiers and approves their offers before the customer sees them.

This project models the logic of the portal in Dafny and proves properties
of that model.

The back end's account routes are a class over a table of user rows:
registration, login, e-mail verification, re-sending the link, the
current-user lookup and the password-reset request.

Most of the front end runs in a demo mode that keeps every record in the
browser's `localStorage`. The model holds those tables decoded, as the
`seq` fields of `DemoStorage.DemoStore`. The pages' demo handlers are
methods that update those fields, and each method's `ensures` states the
whole new state. The following are modelled, each as a method, a class or a
lemma:

- The session store.
- The route guard.
- The register lookups.
- The landing page's forms.
- The customer's dashboard.
- The pages that show one application to the customer, to the financier
  and to the administrator.
- The administrator's offer list.
- The contract form and the contract timeline.
- The two notification bells of the demo release.
- The two chat assistants.
- The set-password page.

A handler's branches and messages follow its source. Where a protocol
matters, lemmas beside the methods prove it:

- The round trips of the read-keys.
- The single use of a verification link.
- A list that never becomes empty.
- Sorting as a permutation.

Modules follow the source files:

- `auth` is `backend/app/routes/auth.py`.
- `session`, `route_guard` and `auth_store` are the session code.
- `ytj` is the company register client.
- `labels` is `utils.ts`.
- `landing` is the landing page.
- `customer_dashboard` is the customer's dashboard.
- `customer_detail`, `financier_detail` and `admin_detail` are the three
  application pages.
- `admin_offers` is the administrator's offer list.
- `contract_form` and `contract_timeline` are the contract form and the
  contract timeline.
- `notifications`, `customer_notifications` and `financier_notifications`
  are the two layouts' bells.
- `chatbot`, `portal_assistant` and `keyword_match` are the two assistants
  and their shared matching rule.
- `set_password` is the set-password page.
- `records`, `demo_store`, `common` and `sorting` hold the shared pieces.

The code behaves as follows:

- A duplicate e-mail address is found by exact, case-sensitive equality,
  not case-insensitively.
- A verification link is still accepted at its exact expiry instant.
  Only an expiry strictly before now has passed.
- The password-reset token is stored in the field of the verification
  token. It therefore also verifies the e-mail address (`Auth.ResetTokenVerifies`).
- No reset e-mail is sent.
- A second /verify with the same token fails as a bad link.
- The roles are CUSTOMER, FINANCIER and ADMIN.
- No application state machine is enforced anywhere in the code. The
  handlers set statuses directly.
- The landing page numbers demo applications as `KNT-2024-` followed by
  the number of stored applications plus 4, padded to three digits. There
  is no per-type, per-year sequence.
- `get_current_user` is imported from `app.utils.auth`
  (backend/app/routes/auth.py:9-15) and is not modelled; /me and
  /resend-verification take the authenticated row as given.

## Model

| member | source | states |
|---|---|---|
| Auth.DemoMode | backend/app/routes/auth.py:41-42 | an unset `DEMO_MODE` means demo mode; a set value means demo mode exactly when it lower-cases to "true" |
| Auth.ClaimsOf | backend/app/routes/auth.py:70-73 | the token claims: `sub` is the decimal text of the user's id, plus the e-mail and the role's value |
| Auth.ExpiryBoundary | backend/app/routes/auth.py:134-138 | a link is still accepted at its exact expiry instant, it has expired exactly when the expiry is strictly before now, and a null expiry never expires |
| Auth.UserTable.Register | backend/app/routes/auth.py:22-78 | an existing (case-sensitive) e-mail gives 400 and adds nothing; otherwise exactly one row is added: role CUSTOMER, active, verified exactly in demo mode, no token in demo mode and otherwise the fresh token expiring in 24 hours, and an access token over the new row's claims |
| Auth.UserTable.Login | backend/app/routes/auth.py:81-114 | an unknown e-mail and a wrong password give the same 401 and change nothing; 403 only for an inactive user whose credentials pass; success exactly otherwise, setting only `last_login` to now and returning a token over the user's claims |
| Auth.UserTable.VerifyEmail | backend/app/routes/auth.py:117-145 | no holder of the token gives 400 bad link; an expiry strictly before now gives 400 expired; otherwise only that row changes: verified, token and expiry cleared, so nobody holds the token afterwards |
| Auth.UserTable.ResendVerification | backend/app/routes/auth.py:148-173 | a verified user gets 400 and nothing changes; otherwise only the user's token is replaced by the fresh one expiring in 24 hours |
| Auth.UserTable.GetMe | backend/app/routes/auth.py:176-179 | returns the authenticated user's own row |
| Auth.UserTable.ForgotPassword | backend/app/routes/auth.py:182-201 | the same message whether or not the e-mail exists; an unknown e-mail changes nothing; a known one gets the fresh token in the verification-token field, expiring in 2 hours |
| Auth.VerifyTwice | backend/app/routes/auth.py:140-142 | after a successful verification the same token is a bad link |
| Auth.ResetTokenVerifies | backend/app/routes/auth.py:192-196 | a password-reset token, held by nobody else, is accepted by the e-mail verification route and verifies the account |
| Auth.ResendRevokesOldLink | backend/app/routes/auth.py:160-163 | after a resend the previous link is a bad link |
| Session.GetItem | frontend/src/components/ProtectedRoute.tsx:10-11 | `localStorage.getItem`: a value exactly when the key is stored, and then the stored value |
| Session.ReadSnapshot | frontend/src/components/ProtectedRoute.tsx:14-17 | a parsed `auth-storage` snapshot exists only when that key holds a non-empty text |
| Session.LocalStorage.SetItem | frontend/src/store/authStore.ts:67 | the key is set to the value and no other key changes |
| Session.LocalStorage.RemoveItem | frontend/src/store/authStore.ts:80-81 | the key is removed and no other key changes |
| RouteGuard.Admit | frontend/src/components/ProtectedRoute.tsx:36-49 | the page is shown exactly when the role is allowed; otherwise ADMIN goes to /admin, FINANCIER to /financier, CUSTOMER to /dashboard and any other role to / |
| RouteGuard.SnapshotToken | frontend/src/components/ProtectedRoute.tsx:14-18 | a token recovered from `auth-storage` is never empty |
| RouteGuard.SnapshotRole | frontend/src/components/ProtectedRoute.tsx:55-60 | a role read from `auth-storage` is never empty |
| RouteGuard.EffectiveToken | frontend/src/components/ProtectedRoute.tsx:10-25 | a non-empty `token` key is used as it is; otherwise the token recovered from `auth-storage`, if any |
| RouteGuard.WriteBack | frontend/src/components/ProtectedRoute.tsx:14-21 | a token recovered from `auth-storage` is written back under `token`; otherwise storage is unchanged |
| RouteGuard.Decide | frontend/src/components/ProtectedRoute.tsx:27-83 | no token gives /login; a `demo-token-` token is decided by its upper-cased suffix; any other token by the stored user's role, and /login when there is none; the page is shown only for a non-empty list of allowed roles |
| RouteGuard.DemoTokenAdmitted | frontend/src/components/ProtectedRoute.tsx:33-50 | a stored `demo-token-<suffix>` shows the page exactly when the upper-cased suffix is an allowed role, and otherwise redirects to that role's home |
| RouteGuard.GuardStable | frontend/src/components/ProtectedRoute.tsx:20 | writing the recovered token back changes no later decision, and a second write-back changes nothing |
| RouteGuard.ProtectedRoute | frontend/src/components/ProtectedRoute.tsx:8-84 | the route rendered is the decision on the storage as it was, and the only storage change is the write-back |
| AuthStore.InitialState | frontend/src/store/authStore.ts:27-53 | signed in exactly when the `token` key starts with `demo-token-` and `auth-storage` parses to a snapshot with a user, and then with that user and token; otherwise user and token are null |
| AuthStore.DemoSessionRoundTrip | frontend/src/store/authStore.ts:85-92 | after `setDemoUser(u, t)` with a demo token, reading the initial state gives back user `u` and token `t`, given a lossless JSON codec |
| AuthStore.NonDemoTokenSignedOut | frontend/src/store/authStore.ts:28-29 | without a `demo-token-` token the initial state is signed out whatever `auth-storage` holds |
| AuthStore.Store.constructor | frontend/src/store/authStore.ts:55-61 | the store starts in the initial state read from storage |
| AuthStore.Store.SignIn | frontend/src/store/authStore.ts:66-67 | the shared tail of `login` and `register`: only `token` is written, with the returned access token, and the state is signed in with the returned user |
| AuthStore.Store.Login | frontend/src/store/authStore.ts:63-69 | only `token` is written, with the returned access token, and the state is signed in with the returned user |
| AuthStore.Store.Register | frontend/src/store/authStore.ts:71-77 | only `token` is written, with the returned access token, and the state is signed in with the returned user |
| AuthStore.Store.Logout | frontend/src/store/authStore.ts:79-83 | exactly `token` and `auth-storage` are removed; user and token become null and `isLoading` is kept |
| AuthStore.Store.SetDemoUser | frontend/src/store/authStore.ts:85-92 | `token` and an encoded `auth-storage` snapshot are written, and the state is signed in with the given user and token |
| AuthStore.Store.InitFromStorage | frontend/src/store/authStore.ts:94-97 | the state becomes exactly the initial state read from storage |
| AuthStore.LogoutThenReload | frontend/src/store/authStore.ts:79-97 | after a logout, reloading from storage stays signed out |
| Labels.StatusLabelsNonEmpty | frontend/src/lib/utils.ts:36-53 | every application-status label in the table is non-empty, so `labels[status] || status` always takes the label |
| Labels.StatusColorsAreBadges | frontend/src/lib/utils.ts:58-75 | every colour in the table is a non-empty `badge-` class |
| Labels.OfferStatusLabelsNonEmpty | frontend/src/lib/utils.ts:80-87 | every offer-status label is non-empty |
| Labels.ContractStatusLabelsNonEmpty | frontend/src/lib/utils.ts:92-99 | every contract-status label is non-empty |
| Labels.StatusLabel | frontend/src/lib/utils.ts:35-55 | a mapped status gets its label; an unmapped status is returned unchanged |
| Labels.StatusColor | frontend/src/lib/utils.ts:57-77 | a mapped status gets its colour, any other status `badge-gray`, and every result is a `badge-` class |
| Labels.OfferStatusLabel | frontend/src/lib/utils.ts:79-89 | a mapped offer status gets its label; an unmapped one is returned unchanged |
| Labels.ContractStatusLabel | frontend/src/lib/utils.ts:91-101 | a mapped contract status gets its label; an unmapped one is returned unchanged |
| Labels.OfferAndContractLabels | frontend/src/lib/utils.ts:79-101 | the two tables differ only for SENT ('Lähetetty asiakkaalle' against 'Lähetetty'), besides the entries only one of them has |
| Labels.ApplicationTypeLabel | frontend/src/lib/utils.ts:103-105 | 'Leasing' exactly for LEASING, and 'Sale-Leaseback' for anything else |
| Labels.SliceTo | frontend/src/lib/utils.ts:109 | `str.slice(0, end)`: a negative end counts from the back, and both ends are clamped to the string |
| Labels.Truncate | frontend/src/lib/utils.ts:107-110 | a string no longer than the limit is unchanged; otherwise the first `length` characters followed by '...', of length `length + 3`; a negative limit slices from the back |
| Labels.SizeUnitIndex | frontend/src/lib/utils.ts:116 | for a positive whole size, the unit index is the power of 1024 that the size reaches and does not pass |
| Labels.SizeUnitIndexUnique | frontend/src/lib/utils.ts:116 | that power is the only one bracketing the size |
| Labels.FormatFileSize | frontend/src/lib/utils.ts:112-118 | '0 B' for zero; otherwise the scaled number, a space and the unit of the power of 1024 bracketing the size, 'undefined' past GB |
| Labels.FileSizeUnits | frontend/src/lib/utils.ts:112-118 | sizes from 1 to 1023 are shown in B and from 1024 to 1024 * 1024 - 1 in KB |
| Ytj.FindCurrentOfficial | frontend/src/lib/ytj.ts:59 | `names.find(n => n.type === 1 && !n.endDate)`: an index of a current official name, and none only when no entry is one |
| Ytj.ParseCompanyName | frontend/src/lib/ytj.ts:56-61 | "" for an empty list; otherwise the name of the first type-1 entry without an end date, and the first entry's name when there is none |
| Ytj.Candidates | frontend/src/lib/ytj.ts:98-117 | the mapped search results with both a name and a business id, at most one per company; a one-element list gives the company's mapped result exactly when that result has a name and a business id |
| Ytj.CandidatesAppend | frontend/src/lib/ytj.ts:98-117 | the candidates of two concatenated result lists are the candidates of the first followed by those of the second; with the one-element law this fixes the candidates of every list |
| Ytj.SearchOrderIsTotalPreorder | frontend/src/lib/ytj.ts:120-127 | the comparator (names starting with the query first, then collation) is a total preorder whenever the collation is |
| Ytj.ShapeSearchResults | frontend/src/lib/ytj.ts:68-129 | [] for a query shorter than 3 characters; at most 10 results, each with a name and a business id; every name starting with the lower-cased query comes before every other; sorted by the comparator; drawn without repetition from the candidates, exactly the first min(10, candidates) of them, and every candidate left out comes after every result in the comparator's order |
| Ytj.LastContact | frontend/src/lib/ytj.ts:199-210 | a value exactly when some current entry has one of the types, and then the value of the last such entry |
| Ytj.AuxiliaryNames | frontend/src/lib/ytj.ts:235-242 | the auxiliary names, never more than the names given; a one-element list gives its name exactly when the entry is not type 1 and has no end date |
| Ytj.AuxiliaryNamesAppend | frontend/src/lib/ytj.ts:235-242 | the auxiliary names of two concatenated name lists are those of the first followed by those of the second |
| Ytj.AuxiliaryNamesExact | frontend/src/lib/ytj.ts:238 | every auxiliary name comes from an entry that is not type 1 and has no end date, and every such entry's name is listed |
| Ytj.CompanyStatus | frontend/src/lib/ytj.ts:245-252 | 'Poistettu rekisteristä' when the trade-register status is '2'; otherwise 'Selvitystilassa' when any company situation exists; otherwise 'Aktiivinen' |
| Ytj.CollectAddresses | frontend/src/lib/ytj.ts:181-196 | one parsed address per raw address, in order, or a failure exactly when a first post office is `null` |
| Ytj.CollectContacts | frontend/src/lib/ytj.ts:199-210 | phone is the last current 'Puhelin'/'Matkapuhelin' value and website the last current 'Kotisivun www-osoite' value |
| Ytj.CollectAuxiliaryNames | frontend/src/lib/ytj.ts:235-242 | the loop pushes exactly the auxiliary names, in order |
| Ytj.ParseDetails | frontend/src/lib/ytj.ts:163-269 | no company gives null; so does a null business id or a null post office; otherwise business id, name, registration date, the addresses one for one, phone, website, auxiliary names, liquidations and status of the first company, and its business line and company form with their codes, each the raw field or else '' (the form's text is the first description's name, or the first description itself) |
| Ytj.FormatAddress | frontend/src/lib/ytj.ts:279-282 | street and the trimmed "postCode city" joined by ", ", leaving out whichever part is empty |
| Ytj.HasActiveLiquidation | frontend/src/lib/ytj.ts:287-289 | true exactly when some liquidation's end date is `null` |
| Landing.BusinessIdShape | frontend/src/pages/LandingPage.tsx:26 | a business id passes `^\d{7}-\d$` exactly when it is seven digits, a hyphen and one digit |
| Landing.ValidFormHasEmptyHoneypot | frontend/src/pages/LandingPage.tsx:35 | a form that passes its schema (either one) has an empty honeypot |
| Landing.IntOr | frontend/src/pages/LandingPage.tsx:96 | `n \|\| d` on a number: a present non-zero value, otherwise the default |
| Landing.RealOr | frontend/src/pages/LandingPage.tsx:99 | `n \|\| d` on an amount: a present non-zero value, otherwise the default |
| Landing.ReferenceNumber | frontend/src/pages/LandingPage.tsx:86 | the reference starts with 'KNT-2024-' followed by at least three characters |
| Landing.ReferenceNumberValue | frontend/src/pages/LandingPage.tsx:86 | the part after 'KNT-2024-' is all digits and reads back as the previous count plus 4 |
| Landing.ReferenceNumberInjective | frontend/src/pages/LandingPage.tsx:86 | different previous counts give different reference numbers |
| Landing.NewApplication | frontend/src/pages/LandingPage.tsx:84-102 | the new record has the fresh id, status SUBMITTED, that reference number and the time stamps; the price is `equipment_price` for leasing and `current_value` for sale-leaseback; the term is never 0 (it defaults to 36) |
| Landing.SaveDemoApplication | frontend/src/pages/LandingPage.tsx:82-106 | exactly one record, built from the stored count, is appended to the stored applications; no other table changes |
| Landing.Submit | frontend/src/pages/LandingPage.tsx:108-124 | a form that fails its schema saves nothing; a valid one saves exactly its new record; no other table changes |
| CustomerDashboard.UserApps | release-finland-demo/src/pages/customer/Dashboard.tsx:41-44 | exactly the stored applications whose contact e-mail, lower-cased, equals the user's lower-cased e-mail; a one-element list keeps the application exactly when the e-mails match |
| CustomerDashboard.UserAppsAppend | release-finland-demo/src/pages/customer/Dashboard.tsx:41-44 | the user's applications among two concatenated lists are those of the first followed by those of the second |
| CustomerDashboard.UserEmail | release-finland-demo/src/pages/customer/Dashboard.tsx:41 | the user's e-mail lower-cased, and none without a user |
| CustomerDashboard.UserAppsIgnoreCase | release-finland-demo/src/pages/customer/Dashboard.tsx:41-44 | the same applications are listed whatever the case of the address the user signed in with |
| CustomerDashboard.ListedApps | release-finland-demo/src/pages/customer/Dashboard.tsx:46-52 | since the sample list is empty, the demo user sees exactly their own applications, like every other user |
| CustomerDashboard.LatestContract | release-finland-demo/src/pages/customer/Dashboard.tsx:60-64 | none exactly when no contract has the application's id; otherwise the last stored contract with it |
| CustomerDashboard.LatestOffer | release-finland-demo/src/pages/customer/Dashboard.tsx:73-78 | none exactly when no offer belongs to the application (by id or by its embedded application); otherwise the last such offer |
| CustomerDashboard.ShownStatusRange | release-finland-demo/src/pages/customer/Dashboard.tsx:58-88 | the shown status is CONTRACT_SENT, SIGNED, OFFER_SENT, OFFER_ACCEPTED or the stored status |
| CustomerDashboard.SentContractWins | release-finland-demo/src/pages/customer/Dashboard.tsx:63-66 | a SENT latest contract shows CONTRACT_SENT whatever the offers |
| CustomerDashboard.SignedContractWins | release-finland-demo/src/pages/customer/Dashboard.tsx:67-69 | a SIGNED latest contract shows SIGNED, even after a further offer |
| CustomerDashboard.NewOfferShows | release-finland-demo/src/pages/customer/Dashboard.tsx:77-81 | without a contract, a new SENT offer for the application shows OFFER_SENT |
| CustomerDashboard.UnapprovedOfferHidden | release-finland-demo/src/pages/customer/Dashboard.tsx:85-87 | a latest offer that is not APPROVED, SENT or ACCEPTED leaves the stored status when no contract decides |
| CustomerDashboard.OtherRecordsIrrelevant | release-finland-demo/src/pages/customer/Dashboard.tsx:60-76 | contracts and offers of other applications do not change an application's shown status |
| CustomerDashboard.WithShownStatus | release-finland-demo/src/pages/customer/Dashboard.tsx:58-88 | the same number of applications, in order, each changed only in its status |
| CustomerDashboard.PendingInfoRequests | release-finland-demo/src/pages/customer/Dashboard.tsx:93-98 | exactly the requests for a listed application with status PENDING and sender 'financier'; a one-element list keeps its request exactly when it is one of these |
| CustomerDashboard.PendingInfoRequestsAppend | release-finland-demo/src/pages/customer/Dashboard.tsx:93-98 | the pending requests of two concatenated lists are those of the first followed by those of the second |
| CustomerDashboard.CountStatus | release-finland-demo/src/pages/customer/Dashboard.tsx:104-109 | a status count never exceeds the number of applications; one application counts 1 exactly when its status is in the set, and 0 otherwise |
| CustomerDashboard.CountStatusAppend | release-finland-demo/src/pages/customer/Dashboard.tsx:104-109 | the count over two concatenated lists is the sum of the counts; with the one-element law it is the number of applications whose status is in the set |
| CustomerDashboard.CountDisjoint | release-finland-demo/src/pages/customer/Dashboard.tsx:104-109 | counts over disjoint status sets add up to the count over their union |
| CustomerDashboard.DashboardStats | release-finland-demo/src/pages/customer/Dashboard.tsx:103-109 | the total is the number of applications; pending counts SUBMITTED, SUBMITTED_TO_FINANCIER and INFO_REQUESTED, offers OFFER_SENT, contracts CONTRACT_SENT, completed SIGNED and CLOSED; each counter is at most the total |
| CustomerDashboard.StatsAddUp | release-finland-demo/src/pages/customer/Dashboard.tsx:104-109 | no application is counted twice: pending, offers, contracts and completed add up to at most the total |
| CustomerDashboard.RecentApplications | release-finland-demo/src/pages/customer/Dashboard.tsx:111 | the first three applications, or all of them when there are fewer |
| CustomerDashboard.Build | release-finland-demo/src/pages/customer/Dashboard.tsx:35-109 | the listed applications are exactly the user's stored applications, in order, each with the status it is shown with; the counters and the pending requests are computed over the listed applications |
| CustomerDetail.StepForStatus | frontend/src/pages/customer/ApplicationDetail.tsx:810-823 | SUBMITTED is step 0; SUBMITTED_TO_FINANCIER and INFO_REQUESTED 1; OFFER_RECEIVED 2; OFFER_SENT 3; OFFER_ACCEPTED and CONTRACT_SENT 4; SIGNED and CLOSED 5; any other status 0 |
| CustomerDetail.StepsFollowWorkflow | frontend/src/pages/customer/ApplicationDetail.tsx:810-823 | the steps never go back along the status workflow, from step 0 at SUBMITTED to the last step at CLOSED |
| CustomerDetail.Flags | frontend/src/pages/customer/ApplicationDetail.tsx:865-867 | step i is completed exactly when i is before the current step, current exactly when it is the current step, and active exactly when it is not after it |
| CustomerDetail.FlagsShape | frontend/src/pages/customer/ApplicationDetail.tsx:865-867 | exactly one step is current, the active steps are the completed ones and the current one, and the completed steps form a prefix |
| CustomerDetail.DocumentLabel | frontend/src/pages/customer/ApplicationDetail.tsx:382-389 | every known document type has a non-empty label |
| CustomerDetail.Attached | frontend/src/pages/customer/ApplicationDetail.tsx:379-391 | one attachment per document row with a file, labelled with its type's label or else its key; none exactly when no row has a file; a one-element list gives one attachment exactly when its row has a file |
| CustomerDetail.AttachedAppend | frontend/src/pages/customer/ApplicationDetail.tsx:379-391 | the attachments of two concatenated row lists are those of the first followed by those of the second |
| CustomerDetail.ResponseMessage | frontend/src/pages/customer/ApplicationDetail.tsx:378-398 | without files the trimmed text; with files the "Liitetyt dokumentit:" list is appended after a blank line, or stands alone when the text is blank |
| CustomerDetail.FileListLines | frontend/src/pages/customer/ApplicationDetail.tsx:394 | the file list has exactly one "• label: name" line per attachment |
| CustomerDetail.SignerName | frontend/src/pages/customer/ApplicationDetail.tsx:573-575 | the signed-in user's first and last name separated by a space, or 'Asiakas' without a user |
| CustomerDetail.CustomerPage.LoadFromStorage | frontend/src/pages/customer/ApplicationDetail.tsx:99-105 | without a database the page shows the first stored application with the route's id, and no lists |
| CustomerDetail.CustomerPage.AcceptOffer | frontend/src/pages/customer/ApplicationDetail.tsx:196-238 | the stored offer with the id becomes ACCEPTED; else the copy the page lists is appended as ACCEPTED; the application becomes OFFER_ACCEPTED and is upserted into storage; nothing else changes |
| CustomerDetail.CustomerPage.RejectOffer | frontend/src/pages/customer/ApplicationDetail.tsx:326-343 | only an offer already stored becomes REJECTED, nothing is appended, and the application is untouched |
| CustomerDetail.CustomerPage.RespondToInfoRequest | frontend/src/pages/customer/ApplicationDetail.tsx:367-440 | refused exactly when the text is blank and no file is attached; otherwise the response is appended to the stored request with the id, which becomes RESPONDED and read; an unknown id changes nothing |
| CustomerDetail.CustomerPage.SignContract | frontend/src/pages/customer/ApplicationDetail.tsx:564-612 | the stored contract with the id becomes SIGNED with the time and the signer's name; the application becomes SIGNED and is upserted; nothing else changes |
| CustomerDetail.AcceptedOfferStored | frontend/src/pages/customer/ApplicationDetail.tsx:201-213 | accepting grows the stored offers by at most one, and the offer is then stored, as ACCEPTED, exactly when it was stored or listed |
| FinancierDetail.StepIds | frontend/src/pages/financier/ApplicationDetail.tsx:123-130 | one step of the `reduce` keeps the ids distinct and adds exactly the new offer's id |
| FinancierDetail.DedupeIds | frontend/src/pages/financier/ApplicationDetail.tsx:123-130 | the deduplicated offers have distinct ids, and exactly the ids of the input |
| FinancierDetail.DedupeKeepsLast | frontend/src/pages/financier/ApplicationDetail.tsx:124-127 | for each id the deduplicated list holds the offer that occurs last in the input (the stored copy over the sample) |
| FinancierDetail.DedupeOrder | frontend/src/pages/financier/ApplicationDetail.tsx:123-130 | the ids appear in the order of their first occurrence in the input |
| FinancierDetail.NonBlank | frontend/src/pages/financier/ApplicationDetail.tsx:200 | `filter(item => item.trim())`: exactly the lines that are not blank, in order; a one-element list keeps its element exactly when it passes the test |
| FinancierDetail.NonBlankAppend | frontend/src/pages/financier/ApplicationDetail.tsx:200 | the non-blank lines of two concatenated lists are those of the first followed by those of the second |
| FinancierDetail.RequestedItems | frontend/src/pages/financier/ApplicationDetail.tsx:199-201 | blank input gives []; every item is a non-blank text without a line break |
| FinancierDetail.RequestedItemsAreNonBlankLines | frontend/src/pages/financier/ApplicationDetail.tsx:199-201 | the items are exactly the non-blank '\n'-separated lines, also when the whole input is blank |
| FinancierDetail.BlankLines | frontend/src/pages/financier/ApplicationDetail.tsx:200 | splitting an all-white text gives only all-white pieces |
| FinancierDetail.AllBlankDropped | frontend/src/pages/financier/ApplicationDetail.tsx:200 | lines that are all white are all dropped |
| FinancierDetail.Selected | frontend/src/pages/financier/ApplicationDetail.tsx:369 | exactly the ticked document types, in order; a one-element list keeps its key exactly when it is ticked |
| FinancierDetail.SelectedAppend | frontend/src/pages/financier/ApplicationDetail.tsx:369 | the ticked keys of two concatenated lists are those of the first followed by those of the second |
| FinancierDetail.RequestedDocuments | frontend/src/pages/financier/ApplicationDetail.tsx:390-394 | one requested document per ticked type, in order, with its label and `required` flag |
| FinancierDetail.DocumentItemsText | frontend/src/pages/financier/ApplicationDetail.tsx:442-445 | with no type ticked the production items text is empty |
| FinancierDetail.ItemTextParts | frontend/src/pages/financier/ApplicationDetail.tsx:444 | each item reads back, split at ':', as its key and 'required' or 'optional' |
| FinancierDetail.ChooseApplication | frontend/src/pages/financier/ApplicationDetail.tsx:110-113 | the stored application with the id is preferred over a sample with the same id; any result has that id |
| FinancierDetail.TabFor | frontend/src/pages/financier/ApplicationDetail.tsx:143-151 | a tab is chosen exactly for the statuses SUBMITTED_TO_FINANCIER, INFO_REQUESTED, SUBMITTED, OFFER_SENT, OFFER_ACCEPTED and CONTRACT_SENT |
| FinancierDetail.OptionalAmount | frontend/src/pages/financier/ApplicationDetail.tsx:293-296 | an empty field gives 0, any other the parsed number |
| FinancierDetail.NewInfoRequest | frontend/src/pages/financier/ApplicationDetail.tsx:203-213 | a PENDING request from 'financier' for the application, with the message, the parsed items and no responses |
| FinancierDetail.NewDocumentRequest | frontend/src/pages/financier/ApplicationDetail.tsx:396-405 | a PENDING DOCUMENT_REQUEST from 'financier' listing the ticked documents; an empty message becomes the default text |
| FinancierDetail.NewOffer | frontend/src/pages/financier/ApplicationDetail.tsx:286-303 | a PENDING_ADMIN offer from 'Rahoittaja Oy' carrying the application, with the parsed payment and term and the optional amounts defaulting to 0 |
| FinancierDetail.AcceptedOffer | frontend/src/pages/financier/ApplicationDetail.tsx:483 | an ACCEPTED offer of the list, and none only when no offer is ACCEPTED |
| FinancierDetail.ContractNumber | frontend/src/pages/financier/ApplicationDetail.tsx:488 | 'KNT-SOP-' followed by the last six digits of the time stamp (all of them when there are fewer) |
| FinancierDetail.NewContract | frontend/src/pages/financier/ApplicationDetail.tsx:485-510 | a DRAFT contract from 'Rahoittaja Oy'; the accepted offer's payment and term, else term 36 and zero amounts; fees 300 and 9; empty lessee fields without an application |
| FinancierDetail.MarkSent | frontend/src/pages/financier/ApplicationDetail.tsx:588-590 | the listed contracts with the id become SENT with the time; the others are unchanged |
| FinancierDetail.FinancierPage.Load | frontend/src/pages/financier/ApplicationDetail.tsx:104-152 | the chosen application, its deduplicated offers, its stored contracts and requests, and the tab its status selects, else 'details' |
| FinancierDetail.FinancierPage.SendInfoRequest | frontend/src/pages/financier/ApplicationDetail.tsx:186-235 | a blank message is refused; otherwise the request is always appended, and the application becomes INFO_REQUESTED on the page, and in storage only where it is stored |
| FinancierDetail.FinancierPage.CreateOffer | frontend/src/pages/financier/ApplicationDetail.tsx:273-330 | an empty monthly payment is refused; otherwise the offer is appended and the offer tab opens; the page's application, marked OFFER_RECEIVED, replaces the stored one only where it is stored |
| FinancierDetail.FinancierPage.SendDocumentRequest | frontend/src/pages/financier/ApplicationDetail.tsx:365-425 | nothing without an application; refused with no type ticked; otherwise the request is appended and a stored application becomes INFO_REQUESTED |
| FinancierDetail.FinancierPage.CreateContract | frontend/src/pages/financier/ApplicationDetail.tsx:473-520 | exactly the new draft contract is appended, in storage and on the page |
| FinancierDetail.FinancierPage.SendContract | frontend/src/pages/financier/ApplicationDetail.tsx:575-611 | the stored contract with the id becomes SENT with the time; the application becomes CONTRACT_SENT and is upserted: replaced if stored, appended otherwise |
| AdminDetail.FinancierName | frontend/src/pages/admin/ApplicationDetail.tsx:199-202 | an id with no listed financier gives 'Tuntematon'; otherwise the name comes from a financier with that id |
| AdminDetail.FinancierNameFirst | frontend/src/pages/admin/ApplicationDetail.tsx:200-201 | the name is that of the first financier with the id, and 'Tuntematon' when that name is empty |
| AdminDetail.AvailableFinanciers | frontend/src/pages/admin/ApplicationDetail.tsx:233-236 | exactly the listed financiers that have no assignment for the application; a one-element list keeps the financier exactly when it has no assignment |
| AdminDetail.AvailableFinanciersAppend | frontend/src/pages/admin/ApplicationDetail.tsx:233-236 | the available financiers of two concatenated lists are those of the first followed by those of the second |
| AdminDetail.AssignmentRemovesFinancier | frontend/src/pages/admin/ApplicationDetail.tsx:233-236 | after an assignment its financier is no longer offered, and no financier becomes available that was not before |
| AdminDetail.AssignTouchesOnlyApplication | frontend/src/pages/admin/ApplicationDetail.tsx:142-149 | an assignment changes only the status, and only of the applications with the id; a stored application becomes SUBMITTED_TO_FINANCIER |
| AdminDetail.AdminPage.Load | frontend/src/pages/admin/ApplicationDetail.tsx:81-99 | the application with the id among the samples and the stored ones; the sample financiers; no assignments, contracts or requests; the sample offers of the application |
| AdminDetail.AdminPage.AssignToFinancier | frontend/src/pages/admin/ApplicationDetail.tsx:128-170 | refused with 'Valitse rahoittaja' exactly when no financier is chosen; otherwise the application becomes SUBMITTED_TO_FINANCIER and a PENDING assignment is added; nothing else changes |
| AdminDetail.AdminPage.ApproveOffer | frontend/src/pages/admin/ApplicationDetail.tsx:805-834 | the stored offer becomes SENT with its approval time and the stored application OFFER_SENT, each only where stored; the page's copies follow |
| AdminOffers.FilteredOffers | frontend/src/pages/admin/Offers.tsx:108-115 | exactly the offers passing the status filter and the case-insensitive search on reference number, company and financier name; a one-element list keeps the offer exactly when it passes both tests |
| AdminOffers.FilteredOffersAppend | frontend/src/pages/admin/Offers.tsx:108-115 | the offers listed from two concatenated lists are those of the first followed by those of the second |
| AdminOffers.NoFilterListsAll | frontend/src/pages/admin/Offers.tsx:109-110 | with status 'all' and an empty search every offer is listed, in order |
| AdminOffers.SearchIgnoresCase | frontend/src/pages/admin/Offers.tsx:111-113 | lower-casing the search term does not change the result |
| AdminOffers.PendingCount | frontend/src/pages/admin/Offers.tsx:117 | no more offers are pending than there are offers; one offer counts 1 exactly when it is PENDING_ADMIN |
| AdminOffers.PendingCountAppend | frontend/src/pages/admin/Offers.tsx:117 | the pending count over two concatenated lists is the sum of the counts |
| AdminOffers.PendingCountIsFiltered | frontend/src/pages/admin/Offers.tsx:117 | the pending count equals the number of offers listed under the PENDING_ADMIN filter with no search |
| AdminOffers.OffersPage.Load | frontend/src/pages/admin/Offers.tsx:40-47 | the sample offers followed by the stored ones |
| AdminOffers.OffersPage.Approve | frontend/src/pages/admin/Offers.tsx:63-95 | the stored offer becomes SENT; its application, when it names one and it is stored, becomes OFFER_SENT; the listed offers with the id become SENT |
| ContractForm.PostalIndex | frontend/src/components/contract/ContractForm.tsx:42 | the first postal address, else the first address |
| ContractForm.GetYtjAddress | frontend/src/components/contract/ContractForm.tsx:33-56 | no register data, an unparsable text or no addresses give the empty address; otherwise the fields of the chosen address with their alternative names as fallbacks |
| ContractForm.TextReadsAsObject | frontend/src/components/contract/ContractForm.tsx:38 | register data stored as JSON text gives the same address as the object it encodes |
| ContractForm.OfferTerm | frontend/src/components/contract/ContractForm.tsx:127 | the accepted offer's term, or 60 months when there is no offer or its term is zero |
| ContractForm.FirstLeaseObject | frontend/src/components/contract/ContractForm.tsx:108-116 | the object is new exactly for a LEASING application; the equipment description, serial number and a non-zero year model are copied over |
| ContractForm.InitialForm | frontend/src/components/contract/ContractForm.tsx:70-152 | register address fields win over the application's; one lease object; the instalment count, end and lease period all equal the offer's term; fees 500 and 10; without an offer 60 months and zero amounts |
| ContractForm.Without | frontend/src/components/contract/ContractForm.tsx:158 | exactly the sections other than the removed one |
| ContractForm.Toggle | frontend/src/components/contract/ContractForm.tsx:156-161 | the section flips between open and closed and every other section keeps its state |
| ContractForm.ToggleTwice | frontend/src/components/contract/ContractForm.tsx:156-161 | toggling twice restores the set of open sections, and the very list when the section was closed |
| ContractForm.WithoutAppend | frontend/src/components/contract/ContractForm.tsx:158-159 | removing a section just appended gives back the list before it |
| ContractForm.WithFieldLastWins | frontend/src/components/contract/ContractForm.tsx:167-171 | two edits of the same field leave only the second |
| ContractForm.ChangeLeaseObject | frontend/src/components/contract/ContractForm.tsx:167-171 | only the edited object changes, and only in the edited field |
| ContractForm.AddLeaseObject | frontend/src/components/contract/ContractForm.tsx:174-182 | the objects are kept in order and one blank used object is appended |
| ContractForm.RemoveLeaseObject | frontend/src/components/contract/ContractForm.tsx:184-189 | the last remaining object is never removed; otherwise exactly the object at the index goes |
| ContractForm.NeverEmpty | frontend/src/components/contract/ContractForm.tsx:174-189 | no sequence of adds, removes and changes empties a non-empty object list |
| ContractForm.FormKeepsAnObject | frontend/src/components/contract/ContractForm.tsx:107-117 | the form always has at least one lease object, whatever is edited |
| ContractTimeline.TermMonths | frontend/src/components/ContractTimeline.tsx:54 | never zero: the contract's term, else the offer's, else 36 |
| ContractTimeline.ProgressOf | frontend/src/components/ContractTimeline.tsx:63-68 | elapsed and remaining months are never negative and cover the term; the percentage is exactly min(100, elapsed / term * 100); paid at most the total; the remainder is never negative |
| ContractTimeline.ProgressMonotone | frontend/src/components/ContractTimeline.tsx:65 | for a positive term, more elapsed months never give a smaller percentage |
| ContractTimeline.PaidMonotone | frontend/src/components/ContractTimeline.tsx:67 | for a non-negative monthly payment, more elapsed months never give a smaller paid amount |
| ContractTimeline.CompletedContract | frontend/src/components/ContractTimeline.tsx:64-68 | once the term has run out the progress is 100 percent, no months remain and, without a stored total, nothing remains to pay |
| ContractTimeline.TimelineMonths | frontend/src/components/ContractTimeline.tsx:71-83 | one entry per month of the term, numbered from 1, each with the monthly payment |
| ContractTimeline.TimelineAddsUpToTotal | frontend/src/components/ContractTimeline.tsx:56-83 | without a stored total the timeline's payments add up to the total shown |
| ContractTimeline.SubmitRequest | frontend/src/components/ContractTimeline.tsx:85-121 | refused with 'Kirjoita viesti' exactly when no request is open or the message is blank; a failed insert keeps the dialog; success shows the kind's notice and clears the dialog |
| ContractTimeline.NoDoubleSubmit | frontend/src/components/ContractTimeline.tsx:110-112 | after a sent request a second submit is refused |
| Common.OrElse | frontend/src/components/contract/ContractForm.tsx:46 | JavaScript `x \|\| d` on an optional text: the value when present and non-empty, else the fallback |
| Common.LowerChar | release-finland-demo/src/pages/customer/Dashboard.tsx:41 | lower-cases exactly the letters A to Z and the Latin-1 capitals À to Þ except ×, each to the letter 32 code points up, and leaves every other character alone |
| Common.ToLower | release-finland-demo/src/pages/customer/Dashboard.tsx:41-43 | `toLowerCase` character by character, keeping the length |
| Common.ToLowerIdempotent | release-finland-demo/src/pages/customer/Dashboard.tsx:41-43 | lower-casing twice is lower-casing once |
| Common.ContainsIff | frontend/src/pages/admin/Offers.tsx:111 | `includes` holds exactly when the text occurs at some position |
| Common.ContainsEmpty | frontend/src/pages/admin/Offers.tsx:111 | every text includes the empty text |
| Common.TrimStartShape | frontend/src/pages/financier/ApplicationDetail.tsx:187 | trimming the start leaves nothing exactly for an all-white text, and otherwise starts at a non-white character |
| Common.TrimEndEmpty | frontend/src/pages/financier/ApplicationDetail.tsx:187 | trimming the end leaves nothing exactly for an all-white text |
| Common.BlankIff | frontend/src/pages/financier/ApplicationDetail.tsx:187 | `!s.trim()` holds exactly for the all-white texts |
| Common.Split | frontend/src/pages/financier/ApplicationDetail.tsx:200 | `split` always gives at least one piece |
| Common.SplitPiecesFree | frontend/src/pages/financier/ApplicationDetail.tsx:200 | no piece contains the separator |
| Common.JoinSplit | frontend/src/pages/financier/ApplicationDetail.tsx:200 | joining the pieces with the separator gives back the text |
| Common.SplitNoSep | frontend/src/pages/financier/ApplicationDetail.tsx:200 | a text without the separator is one piece |
| Common.SplitAround | frontend/src/pages/financier/ApplicationDetail.tsx:200 | splitting at the first separator gives the part before it, then the pieces of the rest |
| Common.SplitJoin | frontend/src/pages/customer/ApplicationDetail.tsx:394 | pieces free of the separator, joined and split again, come back unchanged |
| Common.NatToString | frontend/src/pages/LandingPage.tsx:86 | `String(n)`: a non-empty run of digits without a leading zero |
| Common.NatToStringValue | frontend/src/pages/LandingPage.tsx:86 | the digits read back as the number |
| Common.NatToStringInjective | frontend/src/pages/LandingPage.tsx:86 | different numbers print differently |
| Common.IntToString | frontend/src/pages/financier/ApplicationDetail.tsx:111 | `String(i)`: the digits of the magnitude, with '-' for a negative number |
| Common.IntToStringSign | frontend/src/pages/financier/ApplicationDetail.tsx:111 | the printed form starts with '-' exactly for negative numbers |
| Common.IntToStringInjective | frontend/src/pages/financier/ApplicationDetail.tsx:111 | `String(a.id) === id` singles out one id: different integers print differently |
| Common.PrefixedIntInjective | release-finland-demo/src/layouts/FinancierLayout.tsx:137-145 | a fixed prefix followed by a printed integer determines the integer |
| Common.PadStart | frontend/src/pages/LandingPage.tsx:86 | `padStart`: a text at least as wide is unchanged; a shorter one is filled on the left to the width and ends with the text |
| Common.LastChars | frontend/src/pages/financier/ApplicationDetail.tsx:488 | `slice(-n)`: the last n characters, or the whole text when shorter |
| Records.IndexOfId | frontend/src/pages/financier/ApplicationDetail.tsx:228 | `findIndex`: -1 exactly when no record has the id, otherwise the first record with it |
| Records.IndexOfIdAt | frontend/src/pages/financier/ApplicationDetail.tsx:228 | the first record with the id is the one `findIndex` returns |
| Records.LastIndexOfId | release-finland-demo/src/pages/customer/Dashboard.tsx:60-64 | -1 exactly when no record has the id, otherwise the last record with it |
| Records.FindById | frontend/src/pages/financier/ApplicationDetail.tsx:111-112 | `find`: nothing exactly when no record has the id, otherwise the record `findIndex` points at |
| Records.ForApplication | frontend/src/pages/financier/ApplicationDetail.tsx:135 | `filter` by application: exactly the records that belong to the application; a one-element list keeps its record exactly when it belongs to the application |
| Records.ForApplicationAppend | frontend/src/pages/financier/ApplicationDetail.tsx:135 | the records of the application among two concatenated lists are those of the first followed by those of the second |
| Records.UpsertById | frontend/src/pages/financier/ApplicationDetail.tsx:600-605 | a record whose id is stored replaces the first stored record with that id; otherwise it is appended |
| Records.UpsertFinds | frontend/src/pages/financier/ApplicationDetail.tsx:600-605 | after an upsert the record is found by its id, and the list grew by at most one |
| Records.UpsertIdempotent | frontend/src/pages/financier/ApplicationDetail.tsx:600-605 | upserting the same record twice equals upserting it once |
| DemoStorage.DemoStore.constructor | frontend/src/pages/financier/ApplicationDetail.tsx:108-109 | a fresh browser store holds no applications, offers, contracts, requests or read marks (`|| '[]'`) |
| Notifications.NewestFirst | release-finland-demo/src/layouts/DashboardLayout.tsx:109 | the comparator is a total preorder that puts a later creation time first |
| Notifications.Capped | release-finland-demo/src/layouts/DashboardLayout.tsx:111 | `slice(0, 10)`: the first ten notifications, or all of them when fewer |
| Notifications.CappedAreNewest | release-finland-demo/src/layouts/DashboardLayout.tsx:109-111 | in a newest-first order no notification left out of the list is newer than a listed one |
| Notifications.UnreadCount | release-finland-demo/src/layouts/DashboardLayout.tsx:112 | no more unread than notifications |
| Notifications.NoneUnread | release-finland-demo/src/layouts/DashboardLayout.tsx:112 | the count is zero exactly when every notification is read |
| Notifications.UnreadCountAppend | release-finland-demo/src/layouts/DashboardLayout.tsx:112 | the count of a concatenation is the sum of the counts |
| Notifications.UnreadCountPermutation | release-finland-demo/src/layouts/DashboardLayout.tsx:109-112 | sorting does not change the unread count |
| Notifications.MarkedRead | release-finland-demo/src/layouts/DashboardLayout.tsx:155-157 | the notifications with the id become read; nothing else changes |
| Notifications.MarkedReadCount | release-finland-demo/src/layouts/DashboardLayout.tsx:155-158 | with distinct ids, marking an unread notification lowers the unread count by one; marking a read one changes nothing |
| Notifications.AllMarkedRead | release-finland-demo/src/layouts/DashboardLayout.tsx:183-184 | every notification becomes read, so none is unread; nothing else changes |
| Notifications.Decrement | release-finland-demo/src/layouts/DashboardLayout.tsx:158 | `Math.max(0, prev - 1)`: one less, never below zero |
| Notifications.WithKey | release-finland-demo/src/layouts/DashboardLayout.tsx:149-153 | the key is stored afterwards, the earlier keys are kept in order, and a key already stored is not stored twice |
| Notifications.WithKeyIdempotent | release-finland-demo/src/layouts/DashboardLayout.tsx:150-153 | marking the same key twice is marking it once |
| Notifications.RekeyedConcat | release-finland-demo/src/layouts/DashboardLayout.tsx:48-106 | rebuilding each part with new read-keys rebuilds their concatenation |
| CustomerNotifications.ReadKey | release-finland-demo/src/layouts/DashboardLayout.tsx:140-147 | a key is formed exactly for the offer, contract and information-request kinds |
| CustomerNotifications.KeyRevealsKind | release-finland-demo/src/layouts/DashboardLayout.tsx:141-146 | the first character of a key tells its kind |
| CustomerNotifications.ReadKeyInjective | release-finland-demo/src/layouts/DashboardLayout.tsx:57-101 | two notifications with the same read-key have the same kind and id |
| CustomerNotifications.MarkAllKey | release-finland-demo/src/layouts/DashboardLayout.tsx:176-181 | the kind's read-key, and 'notif-' with the id for any other kind |
| CustomerNotifications.MarkAllKeys | release-finland-demo/src/layouts/DashboardLayout.tsx:176-181 | one key per listed notification, in order |
| CustomerNotifications.MarkAsReadKey | release-finland-demo/src/layouts/DashboardLayout.tsx:139-147 | an id not listed gives the empty key; otherwise the key of the first listed notification with the id |
| CustomerNotifications.OfferNotification | release-finland-demo/src/layouts/DashboardLayout.tsx:57-65 | an OFFER_NEW notification with the offer's id and time, read exactly when its key is stored |
| CustomerNotifications.ContractNotification | release-finland-demo/src/layouts/DashboardLayout.tsx:76-84 | a CONTRACT_SENT notification with id 1000 plus the contract's, timed by its sending (else creation), read exactly when its key is stored |
| CustomerNotifications.RequestNotification | release-finland-demo/src/layouts/DashboardLayout.tsx:96-104 | an INFO_REQUEST notification with id 2000 plus the request's, read exactly when its key is stored |
| CustomerNotifications.OfferNotes | release-finland-demo/src/layouts/DashboardLayout.tsx:51-67 | at most one notification per offer, all OFFER_NEW, each read exactly when its key is stored; a one-element list gives a notification exactly when its offer is shown to the user |
| CustomerNotifications.OfferNotesAppend | release-finland-demo/src/layouts/DashboardLayout.tsx:51-67 | the notifications of two concatenated lists are those of the first followed by those of the second |
| CustomerNotifications.OfferNotesMembers | release-finland-demo/src/layouts/DashboardLayout.tsx:51-67 | a notification is listed exactly when it is the notification of some offer shown to the user |
| CustomerNotifications.ContractNotes | release-finland-demo/src/layouts/DashboardLayout.tsx:70-86 | at most one per contract, all CONTRACT_SENT, each read exactly when its key is stored; a one-element list gives a notification exactly when its contract is shown to the user |
| CustomerNotifications.ContractNotesAppend | release-finland-demo/src/layouts/DashboardLayout.tsx:70-86 | the notifications of two concatenated lists are those of the first followed by those of the second |
| CustomerNotifications.ContractNotesMembers | release-finland-demo/src/layouts/DashboardLayout.tsx:70-86 | a notification is listed exactly when it is the notification of some contract shown to the user |
| CustomerNotifications.RequestNotes | release-finland-demo/src/layouts/DashboardLayout.tsx:89-106 | at most one per request, all INFO_REQUEST, each read exactly when its key is stored; a one-element list gives a notification exactly when its request is shown to the user |
| CustomerNotifications.RequestNotesAppend | release-finland-demo/src/layouts/DashboardLayout.tsx:89-106 | the notifications of two concatenated lists are those of the first followed by those of the second |
| CustomerNotifications.RequestNotesMembers | release-finland-demo/src/layouts/DashboardLayout.tsx:89-106 | a notification is listed exactly when it is the notification of some request shown to the user |
| CustomerNotifications.AllNotes | release-finland-demo/src/layouts/DashboardLayout.tsx:43-106 | at most one notification per record, of the customer kinds only, each read exactly when its key is stored |
| CustomerNotifications.AllNotesMembers | release-finland-demo/src/layouts/DashboardLayout.tsx:43-106 | a notification is listed exactly when it belongs to an offer, contract or request of one of the user's applications that is shown |
| CustomerNotifications.OfferNotesRekeyed | release-finland-demo/src/layouts/DashboardLayout.tsx:51-67 | other read-keys change only which offer notifications are read |
| CustomerNotifications.ContractNotesRekeyed | release-finland-demo/src/layouts/DashboardLayout.tsx:70-86 | other read-keys change only which contract notifications are read |
| CustomerNotifications.RequestNotesRekeyed | release-finland-demo/src/layouts/DashboardLayout.tsx:89-106 | other read-keys change only which request notifications are read |
| CustomerNotifications.ReadKeysDecideOnlyIsRead | release-finland-demo/src/layouts/DashboardLayout.tsx:36-106 | building with other read-keys gives the same notifications, differing only in whether each is read |
| CustomerNotifications.MarkThenRebuild | release-finland-demo/src/layouts/DashboardLayout.tsx:136-159 | after one is marked, rebuilding shows exactly that notification read in addition to those read before |
| CustomerNotifications.PushOfferNotes | release-finland-demo/src/layouts/DashboardLayout.tsx:51-67 | the `forEach` loop pushes exactly the offer notifications |
| CustomerNotifications.PushContractNotes | release-finland-demo/src/layouts/DashboardLayout.tsx:70-86 | the `forEach` loop pushes exactly the contract notifications |
| CustomerNotifications.PushRequestNotes | release-finland-demo/src/layouts/DashboardLayout.tsx:89-106 | the `forEach` loop pushes exactly the request notifications |
| CustomerNotifications.Collect | release-finland-demo/src/layouts/DashboardLayout.tsx:30-106 | the collected list is exactly the notifications the stored records and read-keys give |
| CustomerNotifications.ReadAfterMarkAll | release-finland-demo/src/layouts/DashboardLayout.tsx:176-182 | the corrected "mark all": the earlier keys are kept and every notification's key is added |
| CustomerNotifications.MarkAllForgetsUnlisted | release-finland-demo/src/layouts/DashboardLayout.tsx:176-182 | as written, with more than ten notifications, one read before and listed eleventh is unread after "mark all" |
| CustomerNotifications.MarkAllKeepingEarlierReadsAll | release-finland-demo/src/layouts/DashboardLayout.tsx:176-184 | with the corrected keys nothing is unread after rebuilding and no earlier read-key is lost |
| CustomerNotifications.CustomerBell.constructor | release-finland-demo/src/layouts/DashboardLayout.tsx:22-25 | an empty list and no unread notifications |
| CustomerNotifications.CustomerBell.Refresh | release-finland-demo/src/layouts/DashboardLayout.tsx:30-113 | the whole set sorted newest first, a permutation of what the records give; the first ten listed; the unread of the whole set counted |
| CustomerNotifications.CustomerBell.MarkAsRead | release-finland-demo/src/layouts/DashboardLayout.tsx:136-159 | the notification's key is stored once, the listed ones with the id become read and the counter drops by one, not below zero |
| CustomerNotifications.CustomerBell.MarkAllAsRead | release-finland-demo/src/layouts/DashboardLayout.tsx:173-185 | as written: the stored keys are replaced by those of the listed notifications, all of them become read and the counter is zero |
| CustomerNotifications.CustomerBell.MarkAllAsReadKeepingEarlier | release-finland-demo/src/layouts/DashboardLayout.tsx:173-185 | corrected: every notification's key is added to the earlier ones; the list and the counter as before |
| FinancierNotifications.ReadKey | release-finland-demo/src/layouts/FinancierLayout.tsx:102-108 | a key is formed exactly for the new-application and answered-request kinds |
| FinancierNotifications.KeyRevealsKind | release-finland-demo/src/layouts/FinancierLayout.tsx:104-107 | the first character of a key tells its kind |
| FinancierNotifications.ReadKeyInjective | release-finland-demo/src/layouts/FinancierLayout.tsx:42-58 | two notifications with the same read-key have the same kind and id |
| FinancierNotifications.MarkAllKey | release-finland-demo/src/layouts/FinancierLayout.tsx:137-141 | the kind's read-key, and 'notif-' with the id for any other kind |
| FinancierNotifications.MarkAllKeys | release-finland-demo/src/layouts/FinancierLayout.tsx:137-141 | one key per listed notification, in order |
| FinancierNotifications.MarkAsReadKey | release-finland-demo/src/layouts/FinancierLayout.tsx:102-108 | an id not listed gives the empty key; otherwise the key of the first listed notification with the id |
| FinancierNotifications.ApplicationNotification | release-finland-demo/src/layouts/FinancierLayout.tsx:42-51 | an APPLICATION_NEW notification with the application's id and time, naming the company and the equipment (or 'Rahoitushakemus'), read exactly when its key is stored |
| FinancierNotifications.ResponseNotification | release-finland-demo/src/layouts/FinancierLayout.tsx:58-67 | an INFO_RESPONSE notification with id 1000 plus the request's, timed by the answer (else the request), read exactly when its key is stored |
| FinancierNotifications.ApplicationNotes | release-finland-demo/src/layouts/FinancierLayout.tsx:39-52 | at most one notification per application, all APPLICATION_NEW, each read exactly when its key is stored; a one-element list gives a notification exactly when its application is shown |
| FinancierNotifications.ApplicationNotesAppend | release-finland-demo/src/layouts/FinancierLayout.tsx:39-52 | the notifications of two concatenated lists are those of the first followed by those of the second |
| FinancierNotifications.ApplicationNotesMembers | release-finland-demo/src/layouts/FinancierLayout.tsx:39-52 | a notification is listed exactly when it is the notification of some application that is shown |
| FinancierNotifications.ResponseNotes | release-finland-demo/src/layouts/FinancierLayout.tsx:55-68 | at most one per request, all INFO_RESPONSE, each read exactly when its key is stored; a one-element list gives a notification exactly when its answered request is shown |
| FinancierNotifications.ResponseNotesAppend | release-finland-demo/src/layouts/FinancierLayout.tsx:55-68 | the notifications of two concatenated lists are those of the first followed by those of the second |
| FinancierNotifications.ResponseNotesMembers | release-finland-demo/src/layouts/FinancierLayout.tsx:55-68 | a notification is listed exactly when it is the notification of some answered request that is shown |
| FinancierNotifications.AllNotes | release-finland-demo/src/layouts/FinancierLayout.tsx:36-68 | at most one notification per record, of the financier kinds only, each read exactly when its key is stored |
| FinancierNotifications.AllNotesMembers | release-finland-demo/src/layouts/FinancierLayout.tsx:36-68 | a notification is listed exactly when it belongs to a shown application or a shown answered request |
| FinancierNotifications.AnsweredFinancierRequestNotShown | release-finland-demo/src/layouts/FinancierLayout.tsx:56 | a request written on the financier's page and answered by the customer still has sender 'financier', so it never gives an answered-request notification |
| FinancierNotifications.ApplicationNotesRekeyed | release-finland-demo/src/layouts/FinancierLayout.tsx:39-52 | other read-keys change only which application notifications are read |
| FinancierNotifications.ResponseNotesRekeyed | release-finland-demo/src/layouts/FinancierLayout.tsx:55-68 | other read-keys change only which answer notifications are read |
| FinancierNotifications.ReadKeysDecideOnlyIsRead | release-finland-demo/src/layouts/FinancierLayout.tsx:34-68 | building with other read-keys gives the same notifications, differing only in whether each is read |
| FinancierNotifications.MarkThenRebuild | release-finland-demo/src/layouts/FinancierLayout.tsx:98-120 | after one is marked, rebuilding shows exactly that notification read in addition to those read before |
| FinancierNotifications.PushApplicationNotes | release-finland-demo/src/layouts/FinancierLayout.tsx:39-52 | the `forEach` loop pushes exactly the application notifications |
| FinancierNotifications.PushResponseNotes | release-finland-demo/src/layouts/FinancierLayout.tsx:55-68 | the `forEach` loop pushes exactly the answer notifications |
| FinancierNotifications.Collect | release-finland-demo/src/layouts/FinancierLayout.tsx:30-68 | the collected list is exactly the notifications the stored records and read-keys give |
| FinancierNotifications.ReadAfterMarkAll | release-finland-demo/src/layouts/FinancierLayout.tsx:137-142 | the corrected "mark all": the earlier keys are kept and every notification's key is added |
| FinancierNotifications.MarkAllForgetsUnlisted | release-finland-demo/src/layouts/FinancierLayout.tsx:137-142 | as written, with more than ten notifications, one read before and listed eleventh is unread after "mark all" |
| FinancierNotifications.MarkAllKeepingEarlierReadsAll | release-finland-demo/src/layouts/FinancierLayout.tsx:137-144 | with the corrected keys nothing is unread after rebuilding and no earlier read-key is lost |
| FinancierNotifications.FinancierBell.constructor | release-finland-demo/src/layouts/FinancierLayout.tsx:22-25 | an empty list and no unread notifications |
| FinancierNotifications.FinancierBell.Refresh | release-finland-demo/src/layouts/FinancierLayout.tsx:30-75 | the whole set sorted newest first, a permutation of what the records give; the first ten listed; the unread of the whole set counted |
| FinancierNotifications.FinancierBell.MarkAsRead | release-finland-demo/src/layouts/FinancierLayout.tsx:98-120 | the notification's key is stored once, the listed ones with the id become read and the counter drops by one, not below zero |
| FinancierNotifications.FinancierBell.MarkAllAsRead | release-finland-demo/src/layouts/FinancierLayout.tsx:134-146 | as written: the stored keys are replaced by those of the listed notifications, all of them become read and the counter is zero |
| FinancierNotifications.FinancierBell.MarkAllAsReadKeepingEarlier | release-finland-demo/src/layouts/FinancierLayout.tsx:134-146 | corrected: every notification's key is added to the earlier ones; the list and the counter as before |
| Sorting.SwapDown | release-finland-demo/src/layouts/DashboardLayout.tsx:109 | exactly the two neighbours are exchanged; the contents are a permutation |
| Sorting.InsertAt | release-finland-demo/src/layouts/DashboardLayout.tsx:109 | a sorted prefix grows by one element; a permutation; the rest untouched |
| Sorting.InsertionSort | release-finland-demo/src/layouts/DashboardLayout.tsx:109 | `Array.prototype.sort` with a total-preorder comparator, in place: sorted and a permutation of the input |
| Sorting.SortSeq | release-finland-demo/src/layouts/FinancierLayout.tsx:71 | a sorted permutation of the input, of the same length |
| Sorting.SortedPrefix | release-finland-demo/src/layouts/DashboardLayout.tsx:109-111 | a prefix of a sorted list is sorted |
| Sorting.SortedCut | frontend/src/lib/ytj.ts:120-129 | the first n of a sorted list are sorted, are drawn from the list, and every element left out comes after every element kept |
| SetPassword.ErrorsDiffer | frontend/src/pages/SetPasswordPage.tsx:15-21 | the four reports are different messages; the confirmation report alone belongs to `password_confirm` |
| SetPassword.PasswordErrors | frontend/src/pages/SetPasswordPage.tsx:13-22 | each rule reports exactly when broken: under 8 characters, no A–Z letter, no 0–9 digit, an unequal confirmation; no report exactly when the password is accepted; only a mismatch is reported on `password_confirm` |
| SetPassword.RedirectUrl | frontend/src/pages/SetPasswordPage.tsx:37-46 | a non-empty 'redirect' parameter always wins; otherwise ADMIN goes to /admin, FINANCIER to /financier and every other role to /dashboard |
| KeywordMatch.FirstMatchFrom | frontend/src/components/ChatBot.tsx:75-79 | the first entry from the start index whose keywords occur in the question, and none only when no such entry exists |
| KeywordMatch.FirstMatch | frontend/src/components/ChatBot.tsx:75-79 | the loop's early return: the first matching entry, and none exactly when no entry matches |
| KeywordMatch.FirstMatchIs | frontend/src/components/ChatBot.tsx:75-79 | the entry that matches with no earlier match is the one chosen |
| KeywordMatch.FirstMatchSelects | frontend/src/components/ChatBot.tsx:75-79 | every first match is the one chosen |
| KeywordMatch.ContainsTrans | frontend/src/components/ChatBot.tsx:76 | a question containing a keyword also contains every part of that keyword |
| KeywordMatch.Shadowed | frontend/src/components/ChatBot.tsx:75-79 | a keyword containing an earlier entry's keyword always selects that earlier entry or one before it |
| KeywordMatch.Score | frontend/src/components/ChatBot.tsx:76 | the corrected rule's score: the length of the longest keyword occurring in the question, and -1 exactly when none occurs |
| KeywordMatch.ScoreAtMost | frontend/src/components/ChatBot.tsx:76 | no score exceeds the longest keyword |
| KeywordMatch.ScoresAtMost | frontend/src/components/ChatBot.tsx:75-79 | with every keyword at most a bound long, no entry scores above it |
| KeywordMatch.BestMatchFrom | frontend/src/components/ChatBot.tsx:75-79 | the corrected rule from the start index: the highest score, the earliest on ties, and none only when nothing matches |
| KeywordMatch.BestMatch | frontend/src/components/ChatBot.tsx:75-79 | the corrected rule: the entry with the longest matching keyword, and none exactly when no entry matches |
| KeywordMatch.BestIsFirstWhenOneMatches | frontend/src/components/ChatBot.tsx:75-81 | when a single entry matches, both rules choose it |
| KeywordMatch.ContainedLength | frontend/src/components/ChatBot.tsx:76 | a keyword found in a question is no longer than it, and as long only when it is the question |
| KeywordMatch.ScoreAtMostQuestion | frontend/src/components/ChatBot.tsx:76 | a question scores at most its own length, and that only when it is itself a keyword |
| KeywordMatch.LongestKeywordWins | frontend/src/components/ChatBot.tsx:75-79 | under the corrected rule, an entry with a matching keyword that no entry's score exceeds and no earlier entry's score reaches is the one selected |
| KeywordMatch.VerbatimKeywordWins | frontend/src/components/ChatBot.tsx:75-79 | asking exactly a keyword that no earlier entry lists selects its entry under the corrected rule |
| ChatBot.FindTopic | frontend/src/components/ChatBot.tsx:72-81 | the topic of the first entry with a keyword in the lower-cased question, and none exactly when no keyword occurs |
| ChatBot.FindAnswer | frontend/src/components/ChatBot.tsx:72-81 | the first matching entry's answer, and the fallback text when nothing matches |
| ChatBot.CaseInsensitive | frontend/src/components/ChatBot.tsx:73 | lower-casing the question first does not change the topic or the answer |
| ChatBot.LeasingWins | frontend/src/components/ChatBot.tsx:15 | any question mentioning 'leasing' is answered as leasing |
| ChatBot.VuokrausInTakaisinvuokraus | frontend/src/components/ChatBot.tsx:15-19 | the leasing keyword 'vuokraus' occurs in the sale-leaseback keyword 'takaisinvuokraus' |
| ChatBot.SaleLeasebackAnsweredAsLeasing | frontend/src/components/ChatBot.tsx:15-19 | as written, every question about 'takaisinvuokraus' is answered as leasing |
| ChatBot.SuggestedQuestionMisanswered | frontend/src/components/ChatBot.tsx:81 | the fallback's own suggestion 'Mikä on takaisinvuokraus?' gets the leasing answer, and the sale-leaseback one under the corrected rule |
| ChatBot.BestTopic | frontend/src/components/ChatBot.tsx:72-81 | corrected: the topic of an entry with the longest keyword occurring in the question, none exactly when nothing matches |
| ChatBot.BestAnswer | frontend/src/components/ChatBot.tsx:72-81 | corrected: the chosen topic's answer, or the fallback text when nothing matches |
| ChatBot.SaleLeasebackAnsweredCorrectly | frontend/src/components/ChatBot.tsx:19 | under the corrected rule every question about 'takaisinvuokraus' gets the sale-leaseback answer |
| ChatBot.Send | frontend/src/components/ChatBot.tsx:106-119 | a blank input changes nothing; otherwise the user's message, stamped with the send time, is appended, the input is cleared, the typing indicator is on and the question joins the waiting answers |
| ChatBot.Deliver | frontend/src/components/ChatBot.tsx:121-131 | any waiting question's timer may fire next: its answer is appended, stamped with the clock reading plus one, it leaves the waiting list (a multiset with one fewer copy), the input is kept and the typing indicator goes off |
| ChatBot.Ask | frontend/src/components/ChatBot.tsx:106-119 | typing a non-blank question and sending it appends it and adds it to the waiting answers |
| ChatBot.SendClearsInput | frontend/src/components/ChatBot.tsx:107-117 | sending again right after a send changes nothing |
| ChatBot.SendThenDeliver | frontend/src/components/ChatBot.tsx:106-131 | a question answered before the next one is sent gives the question, then its answer, and nothing is left waiting |
| ChatBot.AnswersOutOfOrder | frontend/src/components/ChatBot.tsx:121-131 | two questions sent within the reply delay can be answered in reverse order: Q1, Q2, A2, A1 |
| ChatBot.CountRole | frontend/src/components/ChatBot.tsx:116 | at most the number of messages; one message counts 1 exactly when it is from that side |
| ChatBot.BalancedKept | frontend/src/components/ChatBot.tsx:86-131 | from the greeting on, the user's messages plus one equal the bot's messages plus the waiting answers; sending and delivering keep this |
| PortalAssistant.FindWithStatus | frontend/src/components/PortalAssistant.tsx:55 | `find`: some application with one of the statuses exists exactly when one is returned, and it is one of them |
| PortalAssistant.CountWithStatus | frontend/src/components/PortalAssistant.tsx:48-49 | no more than the applications, and positive exactly when one with the status is found; one application counts 1 exactly when its status is in the set |
| PortalAssistant.CountWithStatusAppend | frontend/src/components/PortalAssistant.tsx:48-49 | the count over two concatenated lists is the sum of the counts |
| PortalAssistant.StatusLines | frontend/src/components/PortalAssistant.tsx:109 | one line per application, in order, naming the company and the label of its status |
| PortalAssistant.Actions | frontend/src/components/PortalAssistant.tsx:44-354 | at most one primary button, only for the topics that have actions, each leading to a page; application status always has one, the next step exactly when there is an application |
| PortalAssistant.FindTopic | frontend/src/components/PortalAssistant.tsx:380-390 | the topic of the first item with a keyword in the lower-cased question, and none exactly when no keyword occurs |
| PortalAssistant.CaseInsensitive | frontend/src/components/PortalAssistant.tsx:381 | lower-casing the question first does not change the topic |
| PortalAssistant.LeaInLeasingTypes | frontend/src/components/PortalAssistant.tsx:170-180 | every keyword of the leasing-types item contains 'lea', a keyword of the earlier leasing item |
| PortalAssistant.LeasingTypesNeverSelected | frontend/src/components/PortalAssistant.tsx:170-180 | as written, no question ever reaches the leasing-types item |
| PortalAssistant.BestTopicSpec | frontend/src/components/PortalAssistant.tsx:380-390 | the corrected matcher falls back exactly when the first-match rule does, and otherwise picks an item with the longest matching keyword |
| PortalAssistant.RahoitusleasingFirstListedAt15 | frontend/src/components/PortalAssistant.tsx:46-180 | no item before leasing types lists 'rahoitusleasing' |
| PortalAssistant.LeasingTypesReachedCorrectly | frontend/src/components/PortalAssistant.tsx:180 | with the corrected matcher, asking 'rahoitusleasing' reaches the leasing-types item |
| PortalAssistant.StatusSuggestionsShape | frontend/src/components/PortalAssistant.tsx:396-405 | at most three context lines, each present exactly when an application has its status, in the order offer, information, contract |
| PortalAssistant.ListedSuggestionsShape | frontend/src/components/PortalAssistant.tsx:396-425 | exactly five suggestions are listed: the context lines, then general ones; the first two general ones always appear |
| PortalAssistant.FallbackActions | frontend/src/components/PortalAssistant.tsx:414-422 | one 'Avaa hakemukseni' button to the first application exactly when there is an application |
| PortalAssistant.ReplyOfFirstMatch | frontend/src/components/PortalAssistant.tsx:383-389 | a matching question gets the first matching item's answer and actions |
| PortalAssistant.ReplyWithoutMatch | frontend/src/components/PortalAssistant.tsx:392-427 | a question nothing matches gets the fallback text with the listed suggestions and the fallback button |
| PortalAssistant.PushStatusSuggestions | frontend/src/components/PortalAssistant.tsx:396-405 | the pushes add exactly the context lines |
| PortalAssistant.FallbackReply | frontend/src/components/PortalAssistant.tsx:392-427 | the built fallback is the fallback text and button |
| PortalAssistant.FindContextualAnswer | frontend/src/components/PortalAssistant.tsx:380-428 | the loop and the fallback together give the reply the matching rule specifies |
| PortalAssistant.PendingWhenWaiting | frontend/src/components/PortalAssistant.tsx:431-462 | there is a pending button exactly when an application has an offer, an information request or a contract waiting |
| PortalAssistant.PendingSuggestionsShape | frontend/src/components/PortalAssistant.tsx:431-462 | at most three primary buttons, each opening one of the applications, in the order offer, information, contract |
| PortalAssistant.SmartSuggestions | frontend/src/components/PortalAssistant.tsx:431-479 | at most three buttons: the pending ones, or the two default questions when none is pending |
| PortalAssistant.DefaultsAreQuestions | frontend/src/components/PortalAssistant.tsx:464-476 | both default buttons contain '?', so pressing one asks it |
| PortalAssistant.Send | frontend/src/components/PortalAssistant.tsx:588-603 | the custom message or else the input; a blank text changes nothing; otherwise the question is appended, the input cleared, the typing indicator on, and the question with its reply joins the waiting replies |
| PortalAssistant.Deliver | frontend/src/components/PortalAssistant.tsx:605-615 | any waiting reply's timer may fire next: it is appended with its buttons, stamped with the clock reading plus one, leaves the waiting list, and the typing indicator goes off |
| PortalAssistant.CustomMessageWins | frontend/src/components/PortalAssistant.tsx:589 | a non-blank custom message is asked, and its reply queued, whatever is typed |
| PortalAssistant.SendThenDeliver | frontend/src/components/PortalAssistant.tsx:588-615 | a question answered before the next one is sent gives the question, then its reply with its buttons |
| PortalAssistant.RepliesOutOfOrder | frontend/src/components/PortalAssistant.tsx:605-615 | two questions sent within the reply delay can be answered in reverse order: Q1, Q2, A2, A1 |
| PortalAssistant.HandleQuickAction | frontend/src/components/PortalAssistant.tsx:618-627 | a label with '?' is sent as a question; any other button only closes the window and leads to its target |
| PortalAssistant.QuestionButtonAsksLabel | frontend/src/components/PortalAssistant.tsx:619-621 | a question button appends its label, queues the reply to it, and clears the input |
| PortalAssistant.ShownWhereButtonsLead | frontend/src/components/PortalAssistant.tsx:629-632 | every page a button opens is one where the assistant is shown |

## Left out

- Framework plumbing is not modelled: FastAPI routing and dependencies, SQLAlchemy sessions and commits, and sending e-mail. They are I/O.
- Password hashing, password checking and access-token signing are functions given to `Auth.UserTable`, and nothing is assumed about them. Their code lives in `app.utils.auth`, outside the modelled routes.
- `get_current_user` is not part of this model. /resend-verification and /me take the authenticated e-mail as a parameter.
- The clock, `Date.now()` ids, ISO timestamps and the generator of verification tokens are parameters.
- The length of the `Math.random()` reply delays and `setInterval` polling are left out. The chat assistants' timers are modelled by `Deliver`, which may answer any waiting question next, so overlapping questions may be answered out of order.
- Every branch that talks to the back-end API or Supabase is left out; only the demo branches are modelled. Those branches are network calls.
- The search and detail fetches of the register client are left out; the model starts from the decoded responses. They are HTTP calls.
- Collation by `localeCompare(…, 'fi')` is an abstract total preorder given as a parameter. Locale collation is outside the model.
- JSON encoding is left out. The stored tables are held decoded. The 'auth-storage' snapshot is an abstract codec whose decode gives nothing where `JSON.parse` throws.
- `toLowerCase`/`toUpperCase` map the ASCII letters and the Latin-1 letters whose case partner is a single Latin-1 letter (ß, ÿ and µ are left unchanged by `toUpperCase` here). Full Unicode case mapping is out of scope.
- Lengths count `char`s, not UTF-16 code units. This matters only outside the Basic Multilingual Plane.
- `formatCurrency`, `formatDate`, `formatDateTime` and `toFixed` are not modelled, because they are locale and floating point formatting.
- Labels.FormatFileSize: the rendering of the scaled number (`parseFloat((bytes / 1024 ** i).toFixed(2))`) is a parameter, as it is floating point formatting. The unit index is the exact one; floating point `log` might round it down at an exact power of 1024. Negative and fractional sizes are not modelled.
- Timeline dates are left out, and the elapsed months are an input: the 30.44-day month division, the `setMonth` arithmetic and the past/current flags of each month all depend on the clock.
- JavaScript numbers are unbounded integers and exact reals in the model; floating point rounding is not modelled.
- The PortalAssistant greeting text (`getInitialGreeting`) and the loading of its context are not modelled. `loadContext` fetches the applications over the network, and it returns without a context when Supabase is not configured. The context is a parameter.
- PortalAssistant's typing indicator, icons and `navigate` calls are not modelled. A button's navigation is its target path.
- Rendering and animation are left out on every page.
- Sorting.InsertionSort: `Array.prototype.sort` is specified only as sorted and a permutation. Stability is not claimed, so among notifications with equal times the ten listed may differ from the browser's choice.
- CustomerDashboard.UserApps: with no signed-in user the source compares `undefined === undefined` and so would list an application stored without a contact address. In the model every stored application has a contact address, so nothing is listed then.
- ContractTimeline.ProgressOf: the lower bound 0 on the percentage is stated only for a positive term, since a negative stored term makes the source's percentage negative too.
- AuxiliaryNamesExact: states membership in both directions only. Order and multiplicity are fixed by AuxiliaryNamesAppend together with the one-element law of AuxiliaryNames.
- CustomerDetail.CustomerPage.RespondToInfoRequest: the response's constant `user` placeholder (`{ email: 'customer@example.com', first_name: 'Asiakas' }`) is not stored; nothing in the modelled pages reads it.
- Ytj.ParseDetails: the registered entries and the raw response object are passed through by the source and are not modelled.
- FinancierNotifications.AnsweredFinancierRequestNotShown: the page of the release on which customers answer requests (and might re-label the sender) is not part of this model. With the pages modelled here, financier requests keep their sender.
- ChatBot.Deliver takes the answering rule as a parameter: `FindAnswer` is the first-match rule the code uses, and the longest-keyword `BestAnswer` of the Findings fits the same slot. PortalAssistant.Send likewise takes the replies, `PortalReplies(ctx)` in the code.
- Not modelled, as they are outside the core, rendering, or network only: the backend scripts, the dashboards and list pages, the demo panels, the login and registration pages of the release, and the network clients.

## Findings

| source | as written | input that shows it | evidently intended | confidence | as-written member | corrected member |
|---|---|---|---|---|---|---|
| release-finland-demo/src/layouts/DashboardLayout.tsx:176-182 | "mark all" replaces the stored read-keys with the keys of the at most ten listed notifications | eleven customer notifications, the eleventh newest already read; press "mark all" and let the bell refresh: that one is unread again | every notification becomes read and no earlier read-key is lost | not executed | CustomerNotifications.MarkAllForgetsUnlisted, CustomerNotifications.CustomerBell.MarkAllAsRead | CustomerNotifications.MarkAllKeepingEarlierReadsAll, CustomerNotifications.CustomerBell.MarkAllAsReadKeepingEarlier |
| release-finland-demo/src/layouts/FinancierLayout.tsx:137-142 | the financier's "mark all" replaces the stored read-keys with the keys of the listed notifications only | eleven applications handed to the financiers, the eleventh newest already read; press "mark all" and let the bell refresh: it is unread again | every notification becomes read and no earlier read-key is lost | not executed | FinancierNotifications.MarkAllForgetsUnlisted, FinancierNotifications.FinancierBell.MarkAllAsRead | FinancierNotifications.MarkAllKeepingEarlierReadsAll, FinancierNotifications.FinancierBell.MarkAllAsReadKeepingEarlier |
| frontend/src/components/ChatBot.tsx:15-19 | the first entry with any keyword in the question wins, and the leasing entry lists 'vuokraus', which occurs inside 'takaisinvuokraus' | the question 'Mikä on takaisinvuokraus?', which the bot's own fallback suggests, gets the leasing answer | the sale-leaseback answer, for instance by letting the longest matching keyword decide | not executed | ChatBot.SuggestedQuestionMisanswered, ChatBot.SaleLeasebackAnsweredAsLeasing | ChatBot.BestTopic, ChatBot.SaleLeasebackAnsweredCorrectly |
| frontend/src/components/PortalAssistant.tsx:170-180 | the leasing item lists 'lea', which occurs in every keyword of the later leasing-types item | 'rahoitusleasing' gets the general leasing answer; no question at all reaches the leasing-types answer | a question naming a leasing type gets the leasing-types answer | not executed | PortalAssistant.LeasingTypesNeverSelected | PortalAssistant.BestTopic, PortalAssistant.LeasingTypesReachedCorrectly |
