# Parcel delivery service — a Dafny model

This project models the back end of a parcel delivery service. Senders create parcels for receivers. A parcel moves through REQUESTED, APPROVED, IN_TRANSIT and DELIVERED, and every change appends an entry to the parcel's status log. Senders may cancel. Receivers may confirm delivery, reschedule or return. Admins set statuses and block or unblock parcels.

Around this lifecycle sit three smaller pieces:
- the authorisation middleware, which finds and checks the access token;
- the login callback, which checks an account and its password;
- the password operations of the auth service.

## Modules

| module | file | contents |
|---|---|---|
| `Common` | `common.dfy` | `Option` and `Result`; the HTTP statuses and `AppError`; the few JavaScript string operations used in messages and in token parsing (`||`, `replace` with a one-character pattern, `split(" ")[1]`, `toLowerCase`) |
| `UserModel` | `user_model.dfy` | account state, role, auth provider, the user record and the user schema's defaults |
| `UserValidation` | `user_validation.dfy` | the create-user and update-user payload validators |
| `ParcelModel` | `parcel_model.dfy` | status, parcel type, status log, address, receiver and parcel info, the parcel record, the parcel schema's defaults, minimums, enum and unique tracking id |
| `ParcelValidation` | `parcel_validation.dfy` | the four parcel payload validators, and parsing an accepted create payload into a draft |
| `ParcelLifecycle` | `parcel_lifecycle.dfy` | every parcel service operation as a function on the store value `Db(parcels, users)`, returning `Rejected(error)` or `Done(newStore)` |
| `ParcelProperties` | `parcel_properties.dfy` | sequences of calls (`Step`, `Run`); the store invariant; the append-only history; DELIVERED as a final status; the block flag; the departures from the schema |
| `ParcelService` | `parcel_service.dfy` | `ParcelStore`, a class holding the two collections; each method runs its checks one by one and then writes, and is proved equal to the `ParcelLifecycle` function |
| `CheckAuth` | `check_auth.dfy` | token extraction (a method assigning `accessToken` step by step) and the account and role cascade |
| `Passport` | `passport.dfy` | the login verify callback |
| `AuthService` | `auth_service.dfy` | change, reset and set password, as functions and as methods of `AuthStore` |

### How the model is set up
- A thrown `AppError` is `Rejected(err)` in `Outcome` or `Err(err)` in `Result`. Nothing is written on those paths.
- Instants are passed in as a `Time` parameter (`now`).
- Some inputs are function parameters:
  - the JWT verifier;
  - the user lookup by email;
  - bcrypt's `hash` and `compare`;
  - zod's email check.
- The fresh parcel id and the fresh tracking id are parameters. Their preconditions say that neither is already used.

### Where the code and its description differ (the model follows the code)
- **Status values.** The status enum declares four values, and so does the schema's enum. The service also writes "Returned" and "Rescheduled" and filters on "Cancelled".
  - `Status` has all seven values.
  - `InSchemaEnum` marks the four that the schema admits.
  - Nothing ever produces "Cancelled". A cancel sets the status back to REQUESTED.
- **Blocked parcels.** A blocked parcel refuses the owner-side calls. The admin status update does not look at the flag at all (`AdminUpdateIgnoresBlock`).
- **Delivery time.** `deliveredAt` is not set only once. An admin may set DELIVERED again on a delivered parcel, and that moves the time (`RedeliveryMovesDeliveredAt`).
- **Status-precondition errors.** These are FORBIDDEN. The one exception is returning a DELIVERED parcel, which is BAD_REQUEST.
- **Account checks.** The parcel service checks only that the caller exists. The account checks (active, not deleted) live in the middleware and in the login callback.
  - The two phrase their messages differently ("User is INACTIVE" against "User is inactive").
  - They refuse the same accounts (`LoginAndMiddlewareRefuseSameAccounts`).
- **The "Unknown" location.** createParcel falls back to "Unknown" when the city is empty, but the schema requires the city, so such a document is refused and the fallback never reaches the store (`CreateMeetsSchema`).
- **The `receiver` field.** The service reads `receiver` from the create body, but the create validator does not list that field. The model carries it in the payload.

## Model

| member | source | states |
|---|---|---|
| Common.OrElse | src/app/modules/parcel/parcel.service.ts:83 | `a \|\| b` on optional strings: the value when present and non-empty, otherwise the fallback |
| Common.ReplaceFirst | src/app/modules/parcel/parcel.service.ts:152-154 | keeps the length; replaces exactly the first occurrence (no earlier occurrence exists); no occurrence leaves the string unchanged |
| Common.SecondWord | src/app/middleware/checkAuth.ts:15 | the result has no space, starts right after the first space, and ends at the next space or at the end of the string |
| Common.ToLower | src/app/modules/parcel/parcel.service.ts:152-153 | same length; each character lower-cased (ASCII letters only) |
| UserModel.ApplyUserDefaults | src/app/modules/user/user.model.ts:4-27 | the stored user keeps every given field; an absent role is USER, an absent isDeleted is false, an absent isActive is ACTIVE, absent parcels and absent linked providers are the empty list |
| UserModel.UniqueEmails | src/app/modules/user/user.model.ts:7 | the unique index on `email`: no two users share an email |
| UserValidation.ParseRole | src/app/modules/user/user.validation.ts:6 | accepts exactly the names ADMIN and USER, and round-trips with `Role.Name` |
| UserValidation.ParseIsActive | src/app/modules/user/user.validation.ts:23 | accepts exactly ACTIVE, INACTIVE and BLOCKED, and round-trips with `IsActive.Name` |
| UserValidation.ParseProvider | src/app/modules/user/user.validation.ts:14 | accepts exactly "credentials" and "google" |
| UserValidation.ParseAuths | src/app/modules/user/user.validation.ts:13-16 | keeps the length; each entry's provider name and id are kept |
| UserValidation.ValidCreateUser | src/app/modules/user/user.validation.ts:3-17 | createUserZodSchema: name at least 1, email check, role ADMIN or USER, password at least 6, address absent or at least 5, providers credentials or google |
| UserValidation.ValidUpdateUser | src/app/modules/user/user.validation.ts:19-30 | updatedUserZodSchema: every field optional; a present name or address at least 1, role and account state in their enums, providers valid |
| UserValidation.ParseCreateUser | src/app/modules/user/user.validation.ts:3-17 | a draft exists iff the payload is valid (name non-empty, email check passes, role valid, password at least 6, address absent or at least 5, valid providers); the draft keeps name, email, password, role, phone and address, carries the parsed providers when given, and leaves the defaults to the schema |
| UserValidation.CreatePayloadMeetsSchema | src/app/modules/user/user.validation.ts:3-17 | an accepted payload with an email becomes a user the schema stores: ACTIVE, not deleted, no parcels |
| UserValidation.UpdateUserFieldsOptional | src/app/modules/user/user.validation.ts:19-30 | the empty update is accepted; an empty name or address is refused; a present isActive is one of the three states |
| ParcelModel.LogSchemaValid | src/app/modules/parcel/parcel.model.ts:4-24 | a status-log entry the sub-schema accepts: status in the four-value enum, location present |
| ParcelModel.ParcelFieldsValid | src/app/modules/parcel/parcel.model.ts:31-106 | the parcel schema's required strings present and its minimums met (weight 0.1, value 0, fee 0) |
| ParcelModel.ParcelSchemaValid | src/app/modules/parcel/parcel.model.ts:31-113 | the whole document passes: fields valid, current status in the enum, every log entry valid |
| ParcelModel.UniqueTrackingIds | src/app/modules/parcel/parcel.model.ts:33-38 | the unique index on `trackingId`: no two parcels share one |
| ParcelModel.NewParcel | src/app/modules/parcel/parcel.model.ts:108-122 | a new document is REQUESTED, not blocked, requested now and not delivered, and keeps the draft's fields |
| ParcelValidation.ValidCreateParcel | src/app/modules/parcel/parcel.validation.ts:3-29 | createParcelZodSchema: parcel type in its enum, weight at least 0.1, value and fee at least 0, log statuses absent or in the enum |
| ParcelValidation.ValidUpdate | src/app/modules/parcel/parcel.validation.ts:31-42 | updateParcelZodSchema: status optional, in the enum when present; log statuses likewise |
| ParcelValidation.ValidDeliveryConfirmation | src/app/modules/parcel/parcel.validation.ts:44-53 | deliveryConfirmationZodSchema: status required and DELIVERED; log statuses DELIVERED |
| ParcelValidation.ValidAdminStatusUpdate | src/app/modules/parcel/parcel.validation.ts:55-65 | adminStatusUpdateZodSchema: status required and in the enum; log statuses required and in the enum |
| ParcelValidation.ParseSchemaStatus | src/app/modules/parcel/parcel.validation.ts:33 | accepts exactly the four enum names; none of the other three statuses parses |
| ParcelValidation.ParseParcelType | src/app/modules/parcel/parcel.validation.ts:17 | accepts exactly DOCUMENT, PACKAGE, FRAGILE and ELECTRONICS |
| ParcelValidation.ParseCreateParcel | src/app/modules/parcel/parcel.validation.ts:3-29 | a draft exists iff the type is valid, weight is at least 0.1, value and fee are at least 0, and log statuses are valid; receiver, type, weight, description, value, fee, name, phone, street, city, state and zip code are the payload's; the country is the payload's or Bangladesh |
| ParcelValidation.SchemaStatusRoundTrip | src/app/modules/parcel/parcel.interface.ts:3-8 | a status is one of the four iff its name parses back to it |
| ParcelValidation.AdminPayloadStatusInEnum | src/app/modules/parcel/parcel.validation.ts:55-65 | an accepted admin payload never carries Returned, Rescheduled or Cancelled |
| ParcelValidation.DeliveryConfirmationHasStatus | src/app/modules/parcel/parcel.validation.ts:44-53 | an accepted delivery confirmation always carries a status, so the service's "status required" branch cannot be reached on that route |
| ParcelValidation.UpdateAdmitsMissingStatus | src/app/modules/parcel/parcel.validation.ts:31-42 | the update validator accepts a body with no status, which is what reaches cancel's BAD_REQUEST branch |
| ParcelValidation.ValidatedDraftMeetsSchema | src/app/modules/parcel/parcel.model.ts:31-122 | a validated create payload with its required strings becomes a document the schema accepts |
| ParcelLifecycle.Guard | src/app/modules/parcel/parcel.service.ts:114-136 | the four shared checks pass iff caller and parcel exist, the parcel is unblocked and the caller is the owner; otherwise the error is that of the first failing check, in order |
| ParcelLifecycle.Create | src/app/modules/parcel/parcel.service.ts:72-107 | stores a parcel iff the document passes the schema's required and minimum checks (non-empty tracking id, receiver name, phone, street, city and country; weight at least 0.1; value and fee at least 0), and otherwise refuses before any user changes; on success adds exactly the new id and leaves other parcels unchanged; the new parcel keeps the draft's fields, is from the caller, REQUESTED, unblocked and requested now, with one REQUESTED entry by the sender located at the city; the id is appended to the receiver's list and then to the sender's, and no other user changes |
| ParcelLifecycle.Cancel | src/app/modules/parcel/parcel.service.ts:109-178 | succeeds iff the guard passes for the sender, a status is given, and the parcel is not IN_TRANSIT or DELIVERED; otherwise the errors follow that precedence; on success only this parcel changes, to REQUESTED with one more entry |
| ParcelLifecycle.Confirm | src/app/modules/parcel/parcel.service.ts:201-268 | succeeds iff the guard passes for the receiver, a status is given, and the parcel is IN_TRANSIT; on success: DELIVERED, delivered now, the old log plus one DELIVERED entry whose note is the payload's first note or the default |
| ParcelLifecycle.Reschedule | src/app/modules/parcel/parcel.service.ts:270-326 | succeeds iff the guard passes for the receiver and the parcel is IN_TRANSIT; status and delivery time unchanged; one Rescheduled entry appended |
| ParcelLifecycle.Return | src/app/modules/parcel/parcel.service.ts:328-387 | succeeds iff the guard passes for the receiver and the parcel is IN_TRANSIT; DELIVERED is BAD_REQUEST before the FORBIDDEN IN_TRANSIT check; on success "Returned" plus one entry |
| ParcelLifecycle.UpdateStatus | src/app/modules/parcel/parcel.service.ts:438-486 | succeeds iff admin and parcel exist and the parcel does not leave DELIVERED; delivery time set exactly when the new status is DELIVERED; one "Admin Office" entry appended |
| ParcelLifecycle.ToggleBlock | src/app/modules/parcel/parcel.service.ts:488-514 | succeeds iff admin and parcel exist; negates the flag; no other field and no log entry changes |
| ParcelLifecycle.Listing | src/app/modules/parcel/parcel.service.ts:32-46 | unknown caller is NOT_FOUND "User not found"; no match is NOT_FOUND; otherwise exactly the matches |
| ParcelLifecycle.MeParcels | src/app/modules/parcel/parcel.service.ts:31-49 | the result is exactly the parcels the caller sent; an empty result is NOT_FOUND |
| ParcelLifecycle.IncomingParcels | src/app/modules/parcel/parcel.service.ts:181-199 | the result is exactly the caller's received parcels not DELIVERED, Returned or Cancelled; an empty result is NOT_FOUND |
| ParcelLifecycle.DeliveryHistory | src/app/modules/parcel/parcel.service.ts:389-408 | the result is exactly the caller's received DELIVERED parcels; an empty result is NOT_FOUND |
| ParcelLifecycle.TrackParcel | src/app/modules/parcel/parcel.service.ts:10-28 | for any existing caller, found iff the tracking id is used; the result is that parcel's status and log; ownership and the block flag are not checked |
| ParcelLifecycle.StatusLogOf | src/app/modules/parcel/parcel.service.ts:51-70 | the log iff the parcel exists and is unblocked; missing is NOT_FOUND, blocked is FORBIDDEN |
| ParcelProperties.Inv | src/app/modules/parcel/parcel.service.ts:92-104 | the store invariant: unique tracking ids; each parcel has a non-empty log, a delivery time exactly when DELIVERED, and is never Cancelled or Rescheduled; every listed id is stored; every parcel is on its existing sender's and receiver's lists |
| ParcelProperties.InitialInv | src/app/modules/user/user.model.ts:22-27 | an empty parcel store beside users with empty lists satisfies the invariant |
| ParcelProperties.OneWriteKeepsInv | src/app/modules/parcel/parcel.service.ts:158-175 | a write confined to one parcel's status, time and log, which keeps that parcel's record and leaves its own invariant intact (non-empty log, a delivery time exactly when DELIVERED, never Cancelled or Rescheduled), keeps the store invariant |
| ParcelProperties.CreateKeepsUniqueTrackingIds | src/app/modules/parcel/parcel.model.ts:33-38 | create with an unused tracking id keeps tracking ids unique |
| ParcelProperties.CreateKeepsUserLists | src/app/modules/parcel/parcel.service.ts:92-104 | after create, every user list still references stored parcels |
| ParcelProperties.CreateListsParcels | src/app/modules/parcel/parcel.service.ts:92-104 | after create, every parcel is listed by its existing sender and receiver |
| ParcelProperties.CreateKeepsInv | src/app/modules/parcel/parcel.service.ts:72-107 | create keeps the store invariant, whether it stores the parcel or the schema refuses it |
| ParcelProperties.StepKeepsInv | src/app/modules/parcel/parcel.service.ts:72-514 | every operation keeps the invariant: unique tracking ids; non-empty logs; a delivery time iff DELIVERED; never Cancelled or Rescheduled as a status; user lists and parcels consistent |
| ParcelProperties.AppendFacts | src/app/modules/parcel/parcel.service.ts:158-175 | appending one entry to a parcel whose record is kept extends its log by exactly that entry; when the entry's status and the new current status are in the widened enum and the entry has a location, the parcel stays within the widened schema |
| ParcelProperties.CancelStep | src/app/modules/parcel/parcel.service.ts:109-178 | a cancel keeps every parcel, its record and earlier log; adds one entry only to the cancelled parcel; never leaves DELIVERED; keeps the widened schema and the invariant |
| ParcelProperties.ConfirmStep | src/app/modules/parcel/parcel.service.ts:201-268 | the same facts for a delivery confirmation |
| ParcelProperties.RescheduleStep | src/app/modules/parcel/parcel.service.ts:270-326 | the same facts for a reschedule |
| ParcelProperties.ReturnStep | src/app/modules/parcel/parcel.service.ts:328-387 | the same facts for a return |
| ParcelProperties.UpdateStatusStep | src/app/modules/parcel/parcel.service.ts:438-486 | the same facts for an admin status update with a status of the enum |
| ParcelProperties.ToggleBlockStep | src/app/modules/parcel/parcel.service.ts:488-514 | the same facts for a block toggle, which appends no entry |
| ParcelProperties.StepKeepsFacts | src/app/modules/parcel/parcel.service.ts:72-514 | whatever the call, each existing parcel survives with its record and earlier log, gains an entry exactly on its own successful transition, stays DELIVERED and stays within the widened schema |
| ParcelProperties.RunKeepsInv | src/app/modules/parcel/parcel.service.ts:72-514 | every feasible sequence of calls keeps the invariant |
| ParcelProperties.StepKeepsHistory | src/app/modules/parcel/parcel.service.ts:158-175 | no call removes a parcel or rewrites its record or its earlier log; the log grows by exactly one iff the call is a successful transition of that parcel |
| ParcelProperties.RunKeepsHistory | src/app/modules/parcel/parcel.service.ts:109-514 | over any sequence, each parcel's earlier log is a prefix of its later log, growing at most one entry per call |
| ParcelProperties.StepKeepsDelivered | src/app/modules/parcel/parcel.service.ts:455-463 | no single call moves a parcel out of DELIVERED |
| ParcelProperties.RunKeepsDelivered | src/app/modules/parcel/parcel.service.ts:455-463 | once DELIVERED, always DELIVERED, and under the invariant always with a delivery time |
| ParcelProperties.BlockedRefusesOwnerCalls | src/app/modules/parcel/parcel.service.ts:124-129 | cancel, confirm, reschedule and return of a blocked parcel are FORBIDDEN for every existing caller |
| ParcelProperties.AdminUpdateIgnoresBlock | src/app/modules/parcel/parcel.service.ts:444-463 | a blocked, undelivered parcel still takes the admin's status |
| ParcelProperties.ToggleTwiceRestores | src/app/modules/parcel/parcel.service.ts:499-503 | toggling twice gives back the original store |
| ParcelProperties.RedeliveryMovesDeliveredAt | src/app/modules/parcel/parcel.service.ts:455-469 | setting DELIVERED again on a delivered parcel succeeds and changes its delivery time |
| ParcelProperties.ReturnLeavesSchemaEnum | src/app/modules/parcel/parcel.service.ts:367-378 | a successful return stores a status the schema's enum does not admit |
| ParcelProperties.RescheduleLogsOutsideSchemaEnum | src/app/modules/parcel/parcel.service.ts:306-316 | a successful reschedule appends an entry the status-log schema does not admit |
| ParcelProperties.CreateMeetsSchema | src/app/modules/parcel/parcel.service.ts:72-90 | create succeeds iff the declared schema accepts the document it builds, and then stores exactly that document; an empty city is refused, so the "Unknown" location is never stored |
| ParcelProperties.StepKeepsWrittenSchema | src/app/modules/parcel/parcel.model.ts:4-24 | with the enum widened to Returned and Rescheduled, every transition keeps a parcel the schema accepts |
| ParcelProperties.CancelInTransitMessage | src/app/modules/parcel/parcel.service.ts:150-155 | the IN_TRANSIT refusal reads "…already in transit." |
| ParcelProperties.CancelDeliveredMessage | src/app/modules/parcel/parcel.service.ts:150-155 | the DELIVERED refusal reads "…already delivered." |
| ParcelProperties.ReceivedViewsPartition | src/app/modules/parcel/parcel.service.ts:187-190 | under the invariant, each received parcel is in exactly one of: the incoming view, the history view, returned |
| ParcelService.ParcelStore.constructor | src/app/modules/parcel/parcel.model.ts:31-127 | an empty parcel store satisfies the invariant |
| ParcelService.ParcelStore.CreateParcel | src/app/modules/parcel/parcel.service.ts:72-107 | the schema check and then the three writes in order leave the store equal to `Create`'s, fail with the same error, and keep the invariant |
| ParcelService.ParcelStore.CheckOwner | src/app/modules/parcel/parcel.service.ts:114-136 | the checks run in order yield `Guard`'s verdict |
| ParcelService.ParcelStore.CancelParcel | src/app/modules/parcel/parcel.service.ts:109-178 | new store equals `Cancel`'s; same error; invariant kept |
| ParcelService.ParcelStore.ConfirmDeliveryParcel | src/app/modules/parcel/parcel.service.ts:201-268 | new store equals `Confirm`'s; same error; invariant kept |
| ParcelService.ParcelStore.RescheduleParcel | src/app/modules/parcel/parcel.service.ts:270-326 | new store equals `Reschedule`'s; same error; invariant kept |
| ParcelService.ParcelStore.ReturnParcel | src/app/modules/parcel/parcel.service.ts:328-387 | new store equals `Return`'s; same error; invariant kept |
| ParcelService.ParcelStore.UpdateParcelStatus | src/app/modules/parcel/parcel.service.ts:438-486 | new store equals `UpdateStatus`'s; same error; invariant kept |
| ParcelService.ParcelStore.ToggleParcelBlock | src/app/modules/parcel/parcel.service.ts:488-514 | new store equals `ToggleBlock`'s; the message names the new flag; invariant kept |
| CheckAuth.TokenOf | src/app/middleware/checkAuth.ts:12-18 | a "Bearer " header gives exactly its second word (`SecondWord`), which has no space and may be empty; otherwise a non-empty cookie; otherwise no token |
| CheckAuth.ExtractToken | src/app/middleware/checkAuth.ts:12-18 | the step-by-step assignment yields `TokenOf` |
| CheckAuth.Authorize | src/app/middleware/checkAuth.ts:25-44 | proceeds with the token iff the user exists, is ACTIVE, is not deleted and has an allowed role; otherwise 400 for a missing user, then 400 for BLOCKED/INACTIVE, then 400 for deleted, then 403 for the role |
| CheckAuth.Check | src/app/middleware/checkAuth.ts:10-48 | no token is 403 before verification and lookup; a token the verifier rejects goes on as that error; otherwise `Authorize` on the verified claims; success implies every check passed |
| CheckAuth.BearerSpaceAt | src/app/middleware/checkAuth.ts:15 | the first space of "Bearer …" is at index 6 |
| CheckAuth.BearerRoundTrip | src/app/middleware/checkAuth.ts:14-15 | "Bearer t", with t free of spaces, yields exactly t whatever the cookie |
| CheckAuth.EmptyBearerShadowsCookie | src/app/middleware/checkAuth.ts:14-21 | the header "Bearer " yields the empty token and a 403, even when the cookie holds a token |
| CheckAuth.CookieOnlyWithoutBearer | src/app/middleware/checkAuth.ts:14-18 | with a "Bearer " header the cookie does not matter |
| Passport.VerifyLogin | src/app/config/passport.ts:14-47 | the outcome is the error exactly when the lookup throws; login iff found, ACTIVE, not deleted and the password matches, returning that user; otherwise the refusal is in this order: missing, inactive, blocked, deleted, wrong password |
| Passport.LoginAndMiddlewareRefuseSameAccounts | src/app/config/passport.ts:22-31 | for an existing user, login's account refusals coincide with the middleware's 400 refusals |
| Passport.LoggedInUserPassesAccountChecks | src/app/config/passport.ts:42 | a user who logs in is refused by the middleware only for the token's role |
| AuthService.ChangedPassword | src/app/modules/auth/auth.service.ts:18-32 | missing user is NOT_FOUND; a mismatch is UNAUTHORIZED; otherwise only this user's password changes, to the hash of the new one |
| AuthService.ResetPassword | src/app/modules/auth/auth.service.ts:34-46 | a foreign id is UNAUTHORIZED before any lookup; a missing user is UNAUTHORIZED; otherwise only this user's password changes, to the hash |
| AuthService.SetPassword | src/app/modules/auth/auth.service.ts:48-65 | missing user is NOT_FOUND; otherwise earlier providers are kept and one credentials entry keyed by the email is appended; the password is the hash |
| AuthService.CredentialsUpdateKeepsEmailsUnique | src/app/modules/user/user.model.ts:7 | the password operations keep emails unique |
| AuthService.ChangeThenChangeAgain | src/app/modules/auth/auth.service.ts:24-31 | after a successful change, the new password passes the next change's check (for a compare that accepts a password against its hash) |
| AuthService.ResetThenLogin | src/app/modules/auth/auth.service.ts:44-45 | after a reset, an active, undeleted account logs in with the new password |
| AuthService.SetPasswordTwiceLinksTwice | src/app/modules/auth/auth.service.ts:61 | setPassword does not deduplicate: two calls append two credentials entries |
| AuthService.AuthStore.constructor | src/app/modules/user/user.model.ts:7 | the store starts with unique emails |
| AuthService.AuthStore.ChangePassword | src/app/modules/auth/auth.service.ts:18-32 | new users equal `ChangedPassword`'s, unchanged on error; same error; emails stay unique |
| AuthService.AuthStore.ResetNewPassword | src/app/modules/auth/auth.service.ts:34-46 | new users equal `ResetPassword`'s, unchanged on error; same error; emails stay unique |
| AuthService.AuthStore.SetUserPassword | src/app/modules/auth/auth.service.ts:48-65 | new users equal `SetPassword`'s, unchanged on error; same error; emails stay unique |

## Left out

- getAllParcel: not modelled. Its search, pagination and count run through the QueryBuilder utility, which is not part of this model.
- generateTrackingId is not part of this model. `Create` takes the tracking id as a parameter that no parcel uses yet, and the parcel id as a fresh parameter too.
- Mongoose validation on updates (`runValidators`) is not enforced by the store. What it would do to Return and Reschedule is stated as lemmas and under Findings. Validation on create is modelled: `Create` refuses a document that fails the required and minimum checks.
- ParcelLifecycle.Create: the status and message the application's error handler gives a Mongoose validation error are not part of this model. The refusal is `CreateRefused`, BAD_REQUEST with Mongoose's "Parcel validation failed" prefix.
- ParcelLifecycle.Create: the document is built from the draft, so a create body is assumed to carry no `currentStatus`, `isBlocked`, `requestedAt` or `deliveredAt` key. The source spreads the whole body into the document, so such keys would reach the schema and override its defaults.
- ParcelLifecycle.Reschedule: `newDate` is the already rendered date string. An invalid date makes `toISOString` throw a RangeError after all checks pass, and then nothing is written; the model always writes.
- UserValidation.ValidCreateUser: string lengths are counted in Unicode scalar values. JavaScript's `length` counts UTF-16 code units, so zod's `min(6)` on the password and `min(5)` on the address accept some strings the model refuses, such as a password of three emoji.
- `trim` on stored strings, ObjectId casting (handleCastError) and the `createdAt`/`updatedAt` timestamps of documents are left out.
- A status log entry keeps one instant: entries are never updated, so the update timestamp always equals it.
- `populate` and `select` projections are left out.
- ParcelLifecycle.MeParcels: returns the set of matching ids, not the ordered, populated documents.
- ParcelLifecycle.IncomingParcels: returns the set of matching ids, not the ordered, populated documents.
- ParcelLifecycle.DeliveryHistory: returns the set of matching ids, not the ordered, populated documents.
- ParcelLifecycle.TrackParcel: is ghost and relies on unique tracking ids (the unique index) to pick the one match.
- Create performs its three writes in sequence. Their atomicity, concurrent calls and a failure partway through are not modelled.
- Dates are inputs:
  - the current instant is `now`;
  - the rendered reschedule date (`toISOString`) is the string `newDate`.
- Role requirements of the routes (ADMIN for status and block, USER otherwise) are routing, not service logic. `UpdateStatus` takes the already parsed status, with the admin validator's guarantee that it is one of the four.
- JWT verification is an input: a `verify` function yielding the claims, or None where the verifier throws.
- credentialsLoginRefresh (refresh-token exchange) is not modelled: its helper is not part of this model.
- CheckAuth.Check: the user lookup is a total function. A lookup that throws is not modelled.
- CheckAuth.Check: attaching the claims to `req.user` is the `Proceed(user)` outcome.
- Common.ToLower: `toLowerCase` is modelled on ASCII letters only. All status names are ASCII.
- The passport strategy registration and serializeUser/deserializeUser are library wiring and are left out.
- The lookup result and the password comparison of the login callback are inputs.
- AuthService.ChangedPassword: bcrypt's salted hash is a deterministic `hash` function, and `compare` is an independent predicate. Facts that relate the two are stated as preconditions where a lemma needs them.
- AuthService.ResetPassword: same abstraction of bcrypt as ChangedPassword.
- AuthService.SetPassword: same abstraction of bcrypt as ChangedPassword. An absent `auths` list is modelled as the empty list, so both source branches are one case.
- The zod email-format check is an input predicate.
- Weights, values and fees are reals. JavaScript number rounding is not modelled.

## Findings

| source | as written | input that shows it | evidently intended | confidence | as-written member | corrected member |
|---|---|---|---|---|---|---|
| src/app/modules/parcel/parcel.service.ts:367-384 | returnParcel writes currentStatus "Returned" with `runValidators: true`, but the schema's status enum (parcel.model.ts:108-112) admits only the four declared statuses, so the update validator refuses the write | a receiver returns their own unblocked IN_TRANSIT parcel | the schema's enum admits Returned, and the return is stored | medium; not executed | ParcelProperties.ReturnLeavesSchemaEnum | ParcelProperties.StepKeepsWrittenSchema |
| src/app/modules/parcel/parcel.service.ts:306-323 | rescheduleParcel pushes a log entry with status "Rescheduled" with `runValidators: true`, but the log schema's enum (parcel.model.ts:6-10) admits only the four declared statuses | a receiver reschedules their own unblocked IN_TRANSIT parcel | the log enum admits Rescheduled, and the entry is stored | medium; not executed | ParcelProperties.RescheduleLogsOutsideSchemaEnum | ParcelProperties.StepKeepsWrittenSchema |
