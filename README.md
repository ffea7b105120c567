# coreservice-accounts, modelled in Dafny

This project models the accounts service of a shared kickboard platform. The service keeps:

- the user record, with its verified phone, driving licence, sign-in methods and sessions;
- the user's notifications and push delivery;
- the point ledger and the level it earns;
- coupons, the "centercoin" balance and referral codes;
- passes (subscriptions) and the pass programs they are bought from;
- the migration of users from the legacy Firestore store.

Beside the controllers, three pieces are modelled. Two scheduled jobs renew passes and recompute levels. The internal-route guard checks the service token.

## How the model is built

- **State.** Every table the controllers touch is one value, `Tables.Tables`: a map per keyed table, plus sequences for the point ledger and the level table. The value is held in the one mutable object `Transactions.Database`.
  - A controller that writes at once is a `method` with `modifies db`.
  - A controller that returns a deferred query (a thunk for `TA`/`$$$`) is a pure function returning a `Transactions.Op`.
  - `Database.Transaction` commits a list of such operations all-or-nothing, as `prisma.$transaction` does.
- **Errors.** Thrown errors are values of `Tables.Failure`:
  - a `WrapperResult` from the result table;
  - a Joi rejection;
  - a Prisma error;
  - a remote service's `InternalError` with its opcode;
  - anything else.
- **The outside world is passed in.** The platform's licence check, Kakao, the payments service, Firestore, Firebase messaging, Joi's e-mail/URI/UUID formats, the clock and random draws are all parameters. Payment-service calls are recorded as a trace of `Call` values, so the order of calls and charges is stated too.
- **Time** is an integer number of seconds. Month boundaries come in as inputs.
- **Retry-until-unused loops** (`generateSessionId`, `generatePassId`, `getUnusedUserId`, `generateReferralCode`) are a `while` loop over a sequence of draws. They require that one of the draws is free.

Where the files disagree with each other or with the service's description, the model follows the callee and the evident intent. Where a call does not match the callee, "## Left out" says what the call does as written:

- `user.ts` passes phone objects where `phone.ts` takes a `phoneId`. The model keys phones by `phoneId`.
- The two files also disagree on when the phone is revoked. `modifyUser` defers the revocation into its batch, while `phone.ts` revokes at once. The model follows each caller.
- `user.ts` calls `setLicense` with a bare string. The model passes the licence string as the call evidently intends.
- Several `RESULT` members the controllers throw are missing from `result.ts`. They are `Failure.Unlisted(tag)`.
- Signup creates neither a referral code nor a level.
- `getPhoneOrThrow` does not look at `usedAt`, so a used phone still resolves.
- A pass with no `requestedAt` is never extendable. Extending a pass that has a validity but no expiry computes an invalid date, which the write refuses.
- `migrateUser` hands signup fields its schema does not list. The model passes the phone record and drops the receive flags.

## Model

| member | source | states |
|---|---|---|
| WrapperResults.NewWrapperResult | src/tools/wrapper.ts:44-54 | status defaults to 500 and is never 0; `details` defaults to `{}`, `args` to `[]`; `reportable` only when given as true; message kept only when given |
| WrapperResults.DetailsOpcode | src/schedulers/passExtend.ts:71 | `details.opcode` of a result is present exactly when the details carry an `opcode` key |
| WrapperResults.OwnOpcode | src/tools/coreservice.ts:58-67 | the opcode an error itself carries: a result's own opcode; none for errors that are neither results nor remote errors |
| Results.Factory | src/tools/result.ts:3-17 | a result built from an entry keeps the entry's opcode, its status when nonzero, reportable only when set, and the lazy details/args |
| Results.Make | src/tools/result.ts:3-40 | a table result carries the table's opcode, status and message key and is never reportable |
| Results.Throw | src/tools/result.ts:19-40 | throwing a table entry yields a result with the entry's opcode and empty details |
| Results.StatusNonzero | src/tools/result.ts:19-40 | no entry has status 0, so the 500 default never applies to table results |
| Results.CodeOfOpcode | src/tools/result.ts:19-40 | an opcode identifies its table entry |
| Results.OpcodesDistinct | src/tools/result.ts:19-40 | two different entries have different opcodes |
| Results.SuccessEntry | src/tools/result.ts:20 | SUCCESS is opcode 0, status 200, without message |
| Results.CatchAllEntries | src/tools/result.ts:25-26 | INVALID_ERROR is 105/500 and FAILED_VALIDATE is 106/400 |
| Results.OnlySuccessSucceeds | src/tools/result.ts:19-40 | a 2xx status belongs exactly to SUCCESS; every other entry is a 4xx or 5xx |
| Wrapper.Envelope | src/tools/wrapper.ts:70-82 | the reply body has `opcode`, `eventId` when reported, the translated `message` when there is one, and every detail, details winning on a clash |
| Wrapper.Handle | src/tools/wrapper.ts:57-85 | reported exactly when the result is reportable; no reply once headers are sent; otherwise the reply has the result's status |
| Wrapper.ThrownResultKept | src/tools/wrapper.ts:63 | a thrown result is answered with its own status and opcode |
| Wrapper.ForeignErrorIsInvalidError | src/tools/wrapper.ts:63-64 | any other error is answered as unreported INVALID_ERROR, 500, opcode 105 |
| Wrapper.ValidationIsFailedValidate | src/tools/wrapper.ts:65-68 | a Joi error is answered as FAILED_VALIDATE, 400, with its details |
| Wrapper.TableResultsNeverReported | src/tools/wrapper.ts:75 | no result thrown from the table is sent to error reporting |
| Transactions.Write.Over | src/controllers/pass.ts:229-234 | a field update either keeps the current value or replaces it |
| Transactions.Database.Execute | src/tools/transactions.ts:8 | one query: on success the tables become its result, on failure nothing changes |
| Transactions.Database.Transaction | src/tools/transactions.ts:6-9 | the batch is committed whole or not at all, and its outputs are returned in order |
| Transactions.Database.Compose | src/tools/transactions.ts:6-9 | a failing preparation aborts before anything is written; otherwise the prepared batch is committed all-or-nothing |
| Transactions.PreparedKeepsOrder | src/tools/transactions.ts:7 | awaiting the prepared thunks succeeds exactly when each succeeds, and keeps their order |
| Transactions.CommittedOne | src/tools/transactions.ts:6-9 | a batch of one operation behaves as the operation alone |
| Transactions.ApplyAllAppend | src/tools/transactions.ts:8 | running a batch is running its prefix, then the rest on the prefix's result |
| Transactions.ApplyAllOutputs | src/tools/transactions.ts:8 | a committed batch returns one output per operation |
| Transactions.OneFailureVoidsBatch | src/tools/transactions.ts:8 | one failing operation fails the batch and leaves the tables as they were |
| Transactions.ApplyAllKeepsKeyed | src/tools/transactions.ts:6-9 | a committed batch keeps every row stored under its own primary key |
| Ids.FirstUnused | src/controllers/session.ts:94-106 | the retry loop returns the first draw not yet taken; every earlier draw was taken |
| Ids.Hex | src/controllers/referral.ts:56 | hex encoding doubles the length and yields only hex digits |
| Ids.Unhex | src/controllers/referral.ts:56 | decoding halves the length |
| Ids.UnhexHex | src/controllers/referral.ts:56 | decoding the hex text gives back the bytes |
| Ids.HexInjective | src/controllers/referral.ts:56 | different byte draws give different codes |
| Phone.CreatePhone | src/controllers/phone.ts:9-16 | an unparsable number is refused; a taken id is a unique violation; otherwise exactly one new unused phone row with the E.164 number |
| Phone.GetPhone | src/controllers/phone.ts:18-20 | found exactly when the id is stored, and it is that row |
| Phone.GetPhoneOrThrow | src/controllers/phone.ts:22-31 | throws NOT_FOUND exactly when the id is unknown; otherwise the stored row |
| Phone.RevokePhone | src/controllers/phone.ts:34-39 | stamps `usedAt` on exactly that row; an unknown id is a missing-record error and changes nothing |
| Phone.RevokedPhoneStillResolves | src/controllers/phone.ts:22-39 | a revoked phone still resolves, now with its `usedAt` stamp |
| Licenses.Split | src/controllers/license.ts:92 | `split('-')` yields at least one part, none containing the separator |
| Licenses.JoinSplit | src/controllers/license.ts:92 | joining the parts with '-' gives back the string |
| Licenses.SplitAt | src/controllers/license.ts:92 | a separator after a free prefix splits off exactly that prefix |
| Licenses.SplitWhole | src/controllers/license.ts:92 | a string without separator is its own single part |
| Licenses.LicenseParts | src/controllers/license.ts:76-92 | a well-formed licence number splits into its four fields |
| Licenses.ValidateLicense | src/controllers/license.ts:67-106 | valid exactly when the name and form pass the schema and the platform answers `isValid` true; every failure is false |
| Licenses.MalformedNeverValid | src/controllers/license.ts:76-77 | a number not of the form `XX-00-000000-00` is never valid |
| Licenses.SetLicense | src/controllers/license.ts:40-65 | refused with INVALID_LICENSE exactly when not bypassed and not valid; otherwise the deferred creation of that licence linked to the user |
| Licenses.GetLicense | src/controllers/license.ts:7-15 | found exactly when the user links to a stored licence, and it is that licence |
| Licenses.GetLicenseOrThrow | src/controllers/license.ts:17-23 | throws REQUIRED_LICENSE exactly when there is no licence |
| Licenses.SetLicenseLinks | src/controllers/license.ts:40-65 | after the deferred creation, the user's licence is the one set |
| Licenses.ClearLicense | src/controllers/license.ts:33-37 | the deferred query only unlinks the user's licence |
| Licenses.DeleteLicense | src/controllers/license.ts:25-38 | deletes the user's licences at once, leaves users untouched, and returns the unlinking query |
| Licenses.DeleteLicenseClears | src/controllers/license.ts:25-38 | after both halves run, the user has no licence |
| Licenses.ValidateLicenseOrThrow | src/controllers/license.ts:108-116 | succeeds exactly when the licence is valid, else INVALID_LICENSE |
| Licenses.ValidateLicenseOrThrowAsWritten | src/controllers/license.ts:113-114 | as written it never throws |
| Licenses.AsWrittenAcceptsInvalid | src/controllers/license.ts:113-114 | an invalid licence passes the as-written check |
| Notifications.CreateNotification | src/controllers/notification.ts:40-78 | refused exactly when the draft fails the schema; otherwise the row with the draft's fields, visible unless told otherwise |
| Notifications.IsAllowPush | src/controllers/notification.ts:31-38 | push allowed exactly when the user accepts pushes or the notification is not advertising |
| Notifications.PushTokens | src/controllers/notification.ts:80-107 | the tokens are exactly the non-empty messaging tokens of the user's sessions |
| Notifications.Truthy | src/controllers/notification.ts:80-107 | a text is sent only when non-empty |
| Notifications.PushFor | src/controllers/notification.ts:80-107 | no push without tokens; otherwise all the user's tokens, with title, body and link when set |
| Notifications.Stamp | src/controllers/notification.ts:80-107 | after delivery only `sendedAt` is written |
| Notifications.SendPush | src/controllers/notification.ts:80-107 | without tokens nothing happens; a failed delivery writes nothing; a delivered push stamps the notification; users and sessions are untouched |
| Notifications.SendNotification | src/controllers/notification.ts:10-29 | an invalid draft writes nothing; a created notification is stored and returned; without push permission nothing else happens |
| Notifications.ModifyNotification | src/controllers/notification.ts:188-218 | refused exactly when the change fails the schema; otherwise the update of that notification |
| Notifications.ModifyKeepsOmitted | src/controllers/notification.ts:188-218 | fields the change omits, and the owner, keep their values |
| Notifications.DeleteNotification | src/controllers/notification.ts:220-225 | deletes exactly that notification |
| Notifications.GetNotification | src/controllers/notification.ts:109-120 | found exactly when the id is stored and belongs to the user |
| Notifications.GetNotificationOrThrow | src/controllers/notification.ts:122-132 | throws CANNOT_FIND_NOTIFICATION exactly when not found; a result belongs to the user |
| Notifications.GetNotifications | src/controllers/notification.ts:134-186 | only the user's notifications, hidden ones only on request, of the requested types, containing the search text in title or description; every matching one is listed |
| Methods.View | src/controllers/method.ts:22-41 | a method's columns, with `identity` exactly when asked for |
| Methods.GetMethods | src/controllers/method.ts:22-41 | all of the user's methods and only those |
| Methods.GetMethod | src/controllers/method.ts:53-73 | none exactly when the user has no method of the provider; otherwise one of them |
| Methods.GetMethodOrThrow | src/controllers/method.ts:43-51 | NOT_CONNECTED_WITH_METHOD exactly when there is none |
| Methods.DisconnectMethod | src/controllers/method.ts:75-83 | NOT_CONNECTED_WITH_METHOD when there is none; otherwise the deletion of the user's method of that provider |
| Methods.GetMethodWithValue | src/controllers/method.ts:85-105 | none exactly when no method holds the provider identity; otherwise one that does |
| Methods.ConnectMethod | src/controllers/method.ts:119-140 | ALREADY_CONNECT_WITH_METHOD exactly when the user has the provider; otherwise the creation of that method |
| Methods.ConnectKeepsOnePerProvider | src/controllers/method.ts:119-140 | connecting keeps at most one method per user and provider |
| Methods.IdentityNotExclusive | src/controllers/method.ts:119-140 | whether a link is accepted does not depend on other users holding the same identity; a user without a method of the provider may always connect |
| Methods.GetUserByMethod | src/controllers/method.ts:150-159 | the owner of the method, when both exist |
| Methods.GetUserByMethodOrThrow | src/controllers/method.ts:142-148 | CANNOT_FIND_USER exactly when there is no owner |
| Methods.KakaoDescription | src/controllers/method.ts:187 | the description starts with the nickname |
| Methods.ConnectKakaoMethod | src/controllers/method.ts:181-189 | a Kakao failure is passed on; otherwise connecting the Kakao identity with its description |
| KakaoLogin.LoginWithKakao | src/controllers/method.ts:107-117 | an identity some method already holds logs in as that method's owner, without writing; otherwise an unknown phone number is NOT_FOUND with no write; otherwise a user holding the number gets the Kakao method and is returned, and a refused connection or failed write leaves the tables as they were |
| Users.GetUserByPhone | src/controllers/user.ts:218-222 | none exactly when no user holds the number; otherwise a stored user holding it |
| Users.GetUserByPhoneOrThrow | src/controllers/user.ts:207-216 | NOT_FOUND exactly when no user holds the number; otherwise a stored user holding it |
| Sessions.LogoutSession | src/controllers/session.ts:18-26 | deletes the given session of the user, or all of the user's sessions |
| Sessions.LogoutEffect | src/controllers/session.ts:18-26 | exactly those sessions disappear; other sessions and users stay |
| Sessions.CreateSession | src/controllers/session.ts:28-39 | a fresh session id for an existing user; an unknown user is a missing-record error |
| Sessions.GetUserBySessionId | src/controllers/session.ts:41-57 | REQUIRED_LOGIN exactly when the session or its owner is missing; otherwise the owner, with `usedAt` stamped |
| Sessions.GetSession | src/controllers/session.ts:59-66 | found exactly when the session exists and belongs to the user |
| Sessions.GetSessionOrThrow | src/controllers/session.ts:68-78 | NOT_FOUND exactly when not found |
| Sessions.SetMessagingToken | src/controllers/session.ts:80-92 | an empty token is refused; otherwise only that session's token changes |
| Points.TotalPoint | src/controllers/point.ts:75-92 | a ledger with no counted row totals 0 |
| Points.TotalPointAppend | src/controllers/point.ts:75-92 | the total over two ledgers is the sum of their totals |
| Points.UncountedRowIgnored | src/controllers/point.ts:86-87 | a row of another user or outside the window does not count |
| Points.CountedRowAdds | src/controllers/point.ts:86-91 | a counted row adds its points |
| Points.GetPointByMonth | src/controllers/point.ts:6-14 | the total over the chosen month, this month by default |
| Points.IncreasePoint | src/controllers/point.ts:59-73 | an unknown type is refused; otherwise one row, 1 point by default, is appended |
| Levels.GetLevelByPoint | src/controllers/level.ts:21-28 | INVALID_ERROR exactly when no level is reached; otherwise the reached level with the highest requirement |
| Levels.LevelMonotone | src/controllers/level.ts:21-28 | more points never give a lower level |
| Levels.SeededLevelSuffices | src/controllers/level.ts:21-28 | with a level requiring 0, every non-negative total has a level |
| Levels.UpdateLevel | src/controllers/level.ts:10-19 | the level earned last month is written only when it differs |
| LevelUpdate.ProcessUser | src/schedulers/levelUpdate.ts:5-33 | a failure or an unchanged level writes nothing; a promotion writes only that user's level; no notification without promotion |
| LevelUpdate.Page | src/schedulers/levelUpdate.ts:41 | a page of one user at the offset |
| LevelUpdate.OnLevelUpdateSchedulerAsWritten | src/schedulers/levelUpdate.ts:35-46 | with users it visits them all and stops; with none it never stops |
| LevelUpdate.OnLevelUpdateScheduler | src/schedulers/levelUpdate.ts:35-46 | every user is visited once, in order, and stops; no user is added or removed |
| Centercoin.AmountOf | src/controllers/centercoin.ts:10-12 | a valid amount is a whole non-negative number |
| Centercoin.AmountsAreWholeAndNonNegative | src/controllers/centercoin.ts:10-12 | the accepted amounts are exactly the non-negative whole numbers, and a missing amount is refused |
| Centercoin.SetBalance | src/controllers/centercoin.ts:5-22 | the balance becomes the amount; nothing else changes |
| Centercoin.IncreaseBalance | src/controllers/centercoin.ts:24-47 | on success the balance grows by the amount; on failure users are untouched |
| Centercoin.DecreaseBalance | src/controllers/centercoin.ts:49-66 | the balance shrinks by the amount; nothing else changes |
| Centercoin.DecreaseCanGoNegative | src/controllers/centercoin.ts:62-65 | for every balance, a decrease subtracts the amount, and the balance goes below zero exactly when the amount exceeds it |
| Coupons.GetCoupon | src/controllers/coupon.ts:35-44 | found exactly when the coupon exists and belongs to the user |
| Coupons.GetCouponOrThrow | src/controllers/coupon.ts:23-33 | NOT_FOUND exactly when not found |
| Coupons.GetCoupons | src/controllers/coupon.ts:46-96 | only the user's coupons, unused ones when asked, matching the search text; every matching coupon is listed |
| Coupons.DefaultQueryListsAll | src/controllers/coupon.ts:46-96 | without filters all of the user's coupons are listed |
| Coupons.ModifyCoupon | src/controllers/coupon.ts:98-128 | refused exactly when the change fails the schema; otherwise the update of that coupon |
| Coupons.ModifyKeepsOwner | src/controllers/coupon.ts:98-128 | the owner and id stay; an omitted `usedAt` stays |
| Coupons.DuplicateCount | src/controllers/coupon.ts:179-185 | the count of the user's coupons of a group is bounded by the coupons |
| Coupons.EnrollCoupon | src/controllers/coupon.ts:130-167 | a group failure is passed on; over the limit is EXCESS_LIMITS; a discount failure is passed on; otherwise an unused coupon of that group with the discount's id and expiry |
| Coupons.OneMoreCoupon | src/controllers/coupon.ts:179-185 | a new coupon raises its group's count by one |
| Coupons.EnrollRespectsLimit | src/controllers/coupon.ts:138-149 | an enrolment raises the count by one and never past a positive limit |
| Referral.GetReferredUser | src/controllers/referral.ts:47-51 | none exactly when no user holds the code; otherwise a holder |
| Referral.GetReferredUserOrThrow | src/controllers/referral.ts:39-45 | INVALID_REFERRAL_CODE exactly when no user holds the code |
| Referral.ReferralUser | src/controllers/referral.ts:7-32 | a malformed code, an existing referrer, an unknown code and one's own code are refused without writing; success records another user as referrer |
| Referral.GetReferredUserCount | src/controllers/referral.ts:34-37 | zero exactly when nobody names the user as referrer |
| Referral.NoneReferred | src/controllers/referral.ts:34-37 | the count is empty exactly when no user has this referrer |
| Referral.Codes | src/controllers/referral.ts:53-65 | every user's code is among the taken codes |
| Referral.HexAll | src/controllers/referral.ts:56 | each draw is hex encoded |
| Referral.GenerateReferralCode | src/controllers/referral.ts:53-65 | six hex digits, held by nobody, made from one of the draws |
| PassPrograms.GetPassProgram | src/controllers/passProgram.ts:6-13 | found exactly when the id is stored |
| PassPrograms.GetPassProgramOrThrow | src/controllers/passProgram.ts:15-21 | CANNOT_FIND_PASS_GROUP exactly when not found |
| PassPrograms.GetPassPrograms | src/controllers/passProgram.ts:23-62 | exactly the programs matching the search and the sale filter |
| PassPrograms.DefaultListsExactlySale | src/controllers/passProgram.ts:46-52 | by default exactly the programs on sale are listed |
| PassPrograms.PassesOf | src/controllers/passProgram.ts:68-70 | the passes bought from the program |
| PassPrograms.DeletePassProgram | src/controllers/passProgram.ts:64-71 | refused, with the count, exactly when passes use the program; otherwise its deletion |
| PassPrograms.DeleteKeepsReferences | src/controllers/passProgram.ts:64-71 | deleting never leaves a pass pointing at a missing program |
| PassPrograms.CreatePassProgram | src/controllers/passProgram.ts:73-117 | refused when the schema fails; a named coupon group is checked first; the created row has the given fields |
| PassPrograms.ModifyPassProgram | src/controllers/passProgram.ts:119-168 | refused when the schema fails; a changed coupon group is checked; otherwise the update of the given fields |
| PassPrograms.ModifyKeepsAbsentFields | src/controllers/passProgram.ts:119-168 | fields the change omits keep their values |
| PassPrograms.PurchasePassProgram | src/controllers/passProgram.ts:170-196 | missing `autoRenew` and programs off sale are refused; a priced program is charged first and a refused charge stops; the pass gets a fresh id |
| Passes.CalculateExpiredAt | src/controllers/pass.ts:237-247 | no program is INVALID_ERROR; no validity means unlimited; otherwise validity added to the later of expiry and now |
| Passes.ExtensionNeverShortens | src/controllers/pass.ts:237-247 | the new expiry is at least a validity past both the old expiry and now |
| Passes.GetExtendablePass | src/controllers/pass.ts:41-62 | exactly the passes expiring within the window and not stamped within the interval |
| Passes.DefaultWindow | src/controllers/pass.ts:48-59 | by default: expiring within 7 days, last stamped 3 or more days ago |
| Passes.StampedPassWaits | src/controllers/pass.ts:48-59 | a pass stamped now is not picked again before the interval passes |
| Passes.CreatePass | src/controllers/pass.ts:160-186 | a coupon is issued only for a program with a coupon group; the pass gets the program's validity and the issued coupon |
| Passes.RotateCoupon | src/controllers/pass.ts:209-216 | deletes the old coupon when there is one and issues one when the program links a group, never charging; writes the group and the issued coupon only then, otherwise keeps both columns; a refused issue fails |
| Passes.ExtendPass | src/controllers/pass.ts:188-221 | missing program, missing user and programs off sale are refused without calls; it charges exactly when priced and not free, and a refused charge stops; then the coupon delete and issue follow the charge; the update writes the new expiry, and the program's group with the issued coupon only when the program links one |
| Passes.ExtendIgnoresDropFailure | src/controllers/pass.ts:210 | a failure to drop the old coupon changes nothing |
| Passes.ExtendWithoutValidityIsUnlimited | src/controllers/pass.ts:208-209 | without validity the extended pass is unlimited |
| Passes.ModifyPass | src/controllers/pass.ts:223-235 | only `autoRenew` and `requestedAt` can change |
| Passes.ModifyPassEffect | src/controllers/pass.ts:223-235 | the pass takes the given fields and keeps the others |
| Passes.GeneratePassId | src/controllers/pass.ts:249-258 | the first draw not taken by a pass |
| Users.GetUser | src/controllers/user.ts:203-205 | found exactly when the id is stored |
| Users.GetUserOrThrow | src/controllers/user.ts:194-201 | NOT_FOUND exactly when not found |
| Users.GetUnusedUserId | src/controllers/user.ts:224-231 | the first draw not taken by a user |
| Users.Optional | src/controllers/user.ts:125-142 | an optional part adds its query only when supplied, and its failure fails signup |
| Users.PrepareSignup | src/controllers/user.ts:79-142 | refused when the schema fails or the phone is unknown; an accepted phone number is not taken; the batch creates the user, then the licence (validated), then the Kakao method |
| Users.SignupUser | src/controllers/user.ts:79-147 | a fresh id; a refused preparation writes nothing; a success returns the created row |
| Users.UserChangesAsWritten | src/controllers/user.ts:174 | as written the birthday is always written when given |
| Users.SameBirthdayDropsLicenseAsWritten | src/controllers/user.ts:174-188 | resubmitting the same birthday drops the licence, as written |
| Users.UserChanges | src/controllers/user.ts:173-182 | a field is written exactly when given, non-empty and different; the phone number exactly when it differs; nothing else changes |
| Users.SameValuesKeepLicense | src/controllers/user.ts:173-188 | resubmitting the same birthday changes nothing and keeps the licence |
| Users.PlanModify | src/controllers/user.ts:154-182 | schema and phone failures refuse; a new phone number is not taken |
| Users.ModifyOps | src/controllers/user.ts:184-188 | the batch starts with the user update |
| Users.ModifyUser | src/controllers/user.ts:149-192 | a refused plan writes nothing; otherwise the batch is committed and the updated user returned |
| Users.EagerDropsLicense | src/controllers/user.ts:186-188 | deleting licences leaves the user without one |
| Users.ModifyDropsLicense | src/controllers/user.ts:186-188 | a name or birthday change removes the licence |
| Users.ModifyKeepsLicense | src/controllers/user.ts:186-188 | otherwise the licences are untouched |
| Users.ModifyRevokesPhone | src/controllers/user.ts:185 | a given phone is marked used |
| PassExtend.Notify | src/schedulers/passExtend.ts:33-37 | silent writes nothing; otherwise the draft must be valid; queued means one notification row for the user |
| PassExtend.TableFailuresNeverRefusedAsWritten | src/schedulers/passExtend.ts:71 | as written, no result from the table is ever taken as a payment refusal |
| PassExtend.ClassifierMissesRefusals | src/schedulers/passExtend.ts:71 | a payment refusal with opcode 221 is missed as written and caught by the opcode |
| PassExtend.Catch | src/schedulers/passExtend.ts:70-91 | a refusal switches auto-renew off with the stamp; any other failure is reported and queues nothing |
| PassExtend.Evaluate | src/schedulers/passExtend.ts:14-91 | a pass is skipped exactly when its program or user is missing |
| PassExtend.UnloadedSkipped | src/schedulers/passExtend.ts:14 | a skipped pass makes no call and no write |
| PassExtend.ReminderOnlyStamps | src/schedulers/passExtend.ts:20-40 | a non-renewing pass is only stamped: no charge, `autoRenew` untouched |
| PassExtend.StoppedWithoutCharge | src/schedulers/passExtend.ts:42-56 | a renewing pass of a program off sale or not renewable is switched off without charge |
| PassExtend.ExtensionCommittedFirst | src/schedulers/passExtend.ts:58-69 | the extension's calls are made and it is committed before its stamp is queued |
| PassExtend.UnclassifiedQueuesNothing | src/schedulers/passExtend.ts:87-90 | an unclassified failure queues nothing, so the pass stays due |
| PassExtend.RefusalSwitchesOff | src/schedulers/passExtend.ts:71-84 | a classified refusal switches auto-renew off |
| PassExtend.QueuedNoticeFollows | src/schedulers/passExtend.ts:33-37 | when notices are written, each reminder, stop and extension adds one notification for the user after its stamp |
| PassExtend.Sweep | src/schedulers/passExtend.ts:13-92 | one verdict per pass unless a notification failure aborts the run |
| PassExtend.AbortSticks | src/schedulers/passExtend.ts:78-82 | once aborted, later passes change nothing |
| PassExtend.Attend | src/schedulers/passExtend.ts:14-91 | one pass is handled as its specification says, and only the extension is written at once |
| PassExtend.Run | src/schedulers/passExtend.ts:13-94 | the loop computes the specified verdicts and stamps, then commits the stamps in one batch unless aborted |
| PassExtend.PassUpdatesKeepNotifications | src/schedulers/passExtend.ts:94 | a batch of pass updates leaves notifications untouched |
| PassExtend.StepUpdatesPasses | src/schedulers/passExtend.ts:32 | without notices, a pass only queues pass updates |
| PassExtend.SweepUpdatesPasses | src/schedulers/passExtend.ts:13-92 | without notices, the run queues only pass updates and writes no notification |
| PassExtend.SilentNeverAborts | src/scheduler.ts:13-68 | without notices the run never aborts |
| PassExtend.SkipsExactlyUnloaded | src/schedulers/passExtend.ts:14 | the i-th verdict is a skip exactly when the i-th pass lacks program or user |
| PassExtend.Handler | src/scheduler.ts:6-71 | every pass gets a verdict; it is a skip exactly when incomplete; only pass updates are committed; no notification |
| PassExtend.OnPassExtendSchedulerAsWritten | src/schedulers/passExtend.ts:6-95 | as written no notification is ever stored |
| PassExtend.OnPassExtendScheduler | src/schedulers/passExtend.ts:6-95 | the corrected run follows its specification with refusals classified by opcode and notices written |
| InternalAuth.Token | src/middlewares/internal/index.ts:12-14 | the header minus its seven-character scheme, else a single query token |
| InternalAuth.BearerToken | src/middlewares/internal/index.ts:12-14 | a `Bearer` header yields exactly its token |
| InternalAuth.QueryTokenUsed | src/middlewares/internal/index.ts:12-14 | without a header a single query token is used; a repeated one is not |
| InternalAuth.JoiText | src/middlewares/internal/index.ts:22-28 | a required string is present and non-empty |
| InternalAuth.JoiTimestamp | src/middlewares/internal/index.ts:26-27 | a timestamp is a number scaled to milliseconds |
| InternalAuth.Validate | src/middlewares/internal/index.ts:22-30 | accepted exactly when `sub` is this service, `iss` and `aud` are strings, `aud` an e-mail, the times numbers and no other claim |
| InternalAuth.HoursBetween | src/middlewares/internal/index.ts:35 | whole hours between the instants, truncated |
| InternalAuth.TooLongFromSevenHours | src/middlewares/internal/index.ts:35 | refused exactly from seven whole hours on |
| InternalAuth.Guard | src/middlewares/internal/index.ts:9-48 | every refusal is REQUIRED_ACCESS_KEY; the payload is set exactly when token and key verify and validate; the call proceeds exactly when it lives at most six hours |
| InternalAuth.InternalMiddlewareAsWritten | src/middlewares/internal/index.ts:26-35 | as written only lifetimes under seven hours of milliseconds are refused |
| InternalAuth.InternalMiddleware | src/middlewares/internal/index.ts:9-48 | a call proceeds only with this service's token living under seven hours |
| InternalAuth.MonthLongTokenAccepted | src/middlewares/internal/index.ts:26-35 | a thirty-day token passes as written and is refused as intended |
| InternalAuth.SixHourTokenAccepted | src/middlewares/internal/index.ts:31-35 | a six-hour token passes |
| InternalAuth.MissingKeyRefused | src/middlewares/internal/index.ts:17-18 | no key or no token is always refused |
| Legacy.Dashed | src/controllers/legacy.ts:55-60 | the rewritten number has 15 characters |
| Legacy.FirstBracket | src/controllers/legacy.ts:55-60 | the leftmost bracketed licence number |
| Legacy.RewriteLicense | src/controllers/legacy.ts:51-61 | only the first bracketed number is rewritten; otherwise the text stays |
| Legacy.Bracketed | src/controllers/legacy.ts:55-60 | the bracketed form of a number has 20 characters |
| Legacy.RewriteBracketed | src/controllers/legacy.ts:51-61 | rewriting a bracketed number gives back the number, a well-formed licence |
| Legacy.DashedIsLicenseNumber | src/controllers/legacy.ts:55-60 | every rewrite is a well-formed licence number |
| Legacy.DashedFormKept | src/controllers/legacy.ts:51-61 | a dashed number is kept as is |
| Legacy.BirthMillis | src/controllers/legacy.ts:41-44 | the birth timestamp in milliseconds |
| Legacy.FromDocument | src/controllers/legacy.ts:26-76 | a missing birth or a non-text licence throws; a failed validation is no user; otherwise the fields mapped |
| Legacy.FlagsDefaultFalse | src/controllers/legacy.ts:64-71 | missing receive flags are false |
| Legacy.FirstWithPhone | src/controllers/legacy.ts:79-96 | the first document with the phone number |
| Legacy.GetUserByPhone | src/controllers/legacy.ts:79-96 | no document is no user; a found user has the phone number |
| Legacy.LinkOp | src/controllers/legacy.ts:143-146 | the update sets only `legacyUserId` |
| Legacy.CompleteMigration | src/controllers/legacy.ts:131-146 | the licence is attempted only when present and its refusal swallowed; Firestore then the cards; a success stores the link |
| Legacy.MigrateUser | src/controllers/legacy.ts:109-147 | an unparsable phone is refused; a failed signup makes no call; a success links the legacy id |

## Left out

- Logging, Sentry reporting and the `eventId` are left out. `Wrapper.Handle` takes the event id as a parameter.
- Localisation of messages is left out. `res.__` is a parameter.
- dayjs formatting and remaining-day texts are left out. Notification texts are inputs (`PassExtend.Notes`).
- Pagination, ordering and `take`/`skip` of list queries are left out. Lists are sets of ids, except for the level scheduler's one-user pages.
- Routes and middleware other than the internal guard are left out. They are plumbing around the controllers.
- Calls into the platform, Kakao, payments, Firestore and Firebase are left out. Their answers are parameters.
- Concurrency between the scheduler and requests is left out, as is the concurrency of the `Promise.all` over one page.
- Wall-clock and time zones are left out. The birthday shift in `validateLicense` is not modelled.
- Licenses.ValidateLicense: the birthday reaches the platform unchanged, without the day shift.
- Notifications.SendNotification: when push is allowed, the contract does not state the push outcome. `Notifications.SendPush` states it.
- Centercoin.IncreaseBalance: the notification it sends is not stated beyond users being untouched on failure.
- Referral.ReferralUser: the notification it sends is not stated.
- KakaoLogin.LoginWithKakao: the `NOT_REGISTERED_USER` check after `getUserByPhoneOrThrow` has no counterpart, because that lookup throws NOT_FOUND instead of answering null. `Phone.getFormattedPhone` is not part of this model; it is a parameter.
- LevelUpdate.OnLevelUpdateSchedulerAsWritten: the endless loop is bounded by a `fuel` parameter, so "never stops" reads "not finished with any fuel".
- Legacy.GetUserByPhone: the Firestore order of the `limit(1)` query is the order of the store sequence.
- Legacy.FromDocument: `class-transformer` conversion of arrays is not modelled. A licence field that is not text fails the transform.
- InternalAuth.Validate: a numeric string is not accepted as a timestamp. Signature and expiry checks are inside `verify`.
- PassExtend.Handler: the scheduler's logging branches have no effect in the model.
- Users.PrepareSignup: `getPhoneOrThrow` is handed the whole phone object rather than its `phoneId`, so as written the lookup gets an object where a string is expected. The model looks the phone up by its `phoneId`.
- Users.PrepareSignup: `setLicense` is handed the bare licence string rather than `{ licenseStr }`. As written the destructured `licenseStr` is undefined, `split` throws inside `validateLicense`, and every signup with a licence is INVALID_LICENSE. The model validates the given string.
- Users.PlanModify: `getPhoneOrThrow` is handed the whole phone object, as in signup. The model looks the phone up by its `phoneId`.
- Users.PrepareSignup: the new user's number is read from the phone record's `phone` column, where `createPhone` stores it. The code reads `phoneNo`, which the record does not have, so as written the number checked and stored would be undefined.
- Users.PlanModify: the changed number is read from the phone record's `phone` column, as in signup. The code reads `phoneNo`, which the record does not have.
- Joi `min`/`max` string lengths are counted in Unicode characters. JavaScript counts UTF-16 code units, so a text with characters outside the Basic Multilingual Plane, such as emoji in notification titles or a long `realname`, may pass here and be refused by the service.
- Legacy.MigrateUser: the signup request carries a phone record (with `phone` and timestamps, no `phoneNo`) and three receive flags the closed signup schema does not list. As written every migration is FAILED_VALIDATE. The model hands signup the phone record's id and number and drops the flags.

## Findings

| source | as written | input that shows it | evidently intended | confidence | as-written member | corrected member |
|---|---|---|---|---|---|---|
| src/schedulers/passExtend.ts:71 | a refusal is recognised by `err.details.opcode` | a payment refusal with opcode 221, as a result or a remote error | recognise by the error's own opcode | not executed | PassExtend.ClassifierMissesRefusals | PassExtend.RefusalSwitchesOff |
| src/schedulers/passExtend.ts:33-37 | the notification queries are built but never run | any reminded pass | the reminder is stored | not executed | PassExtend.OnPassExtendSchedulerAsWritten | PassExtend.QueuedNoticeFollows |
| src/schedulers/levelUpdate.ts:40 | `!total` is true for 0 users | no users | stop when all users were seen | not executed | LevelUpdate.OnLevelUpdateSchedulerAsWritten | LevelUpdate.OnLevelUpdateScheduler |
| src/controllers/license.ts:113-114 | the validation promise is not awaited | an invalid licence | throw INVALID_LICENSE | not executed | Licenses.AsWrittenAcceptsInvalid | Licenses.ValidateLicenseOrThrow |
| src/controllers/user.ts:174 | dates compared with `!==` | the same birthday resubmitted | compare values | not executed | Users.SameBirthdayDropsLicenseAsWritten | Users.SameValuesKeepLicense |
| src/middlewares/internal/index.ts:26-35 | second timestamps read as milliseconds | a token living thirty days | refuse tokens over six hours | not executed | InternalAuth.MonthLongTokenAccepted | InternalAuth.SixHourTokenAccepted |
