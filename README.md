# Gym SaaS backend core, modelled in Dafny

This project models the core of a Django REST backend for gym and fitness
businesses. Organizations run branches. Customers enroll at branches, buy
membership packages and pay for them. Employees manage customers from a
dashboard.

The centre of the model is the phone one-time-password store `MobileOtp`:

- `generate` issues a code for an optional user and a phone number. It stores
  a salted hash of the code with an expiry and overwrites any earlier code for
  the same key.
- `verify` checks a code, in order:
  1. a row exists ("OTP not created");
  2. the row has not expired ("OTP is expired", and the row is deleted);
  3. the hash accepts the code ("OTP is invalid", and the row is kept).

  A code that passes is consumed.

Around this store the model covers:

- **Codes and authentication.** The two code generators and their factory.
  The customer login and phone-change endpoints, each all-or-nothing as one
  database transaction.
- **Settings and caching.** The global-settings table, which keeps at most one
  setting active and invalidates its cached copy. The three memoising
  decorators. The maintenance gate.
- **Notifications.** Validation and channel routing of notifications. The
  audience of SMS groups. The SMS-campaign task and the OTP message texts. The
  notification admin's delivery-method column.
- **Customers and staff.** The per-branch serial-number migration. The
  employees' customer filters. The permission classes and branch scoping. The
  `enroll`, customer `create`, `unbind` and `check_phone_number` endpoints.
  The `superuser` command.
- **Admin and tools.** The admin list-column mini-language `_follow` and
  `make_display`. The periodic-task admin form. The admin sidebar. The
  hour-aligned signed-URL expiry. The browser-side JWT encoder. The
  unused-class analyzer tool.

## How the model is laid out

- Each core source file is one Dafny module in its own file.
- Code that changes state is a class or a method whose `ensures` ties the new
  state to a specification function.
- Pure code is made of functions and lemmas.
- Database tables are maps from row ids to rows. They live in
  `Database.Db`, in `MobileOtp.MobileOtpTable` and in
  `GlobalSettings.SettingsTable`.
- A view that runs in a transaction takes a snapshot of the tables and
  restores it on every error path.
- The clock, random draws, salts, validators and foreign calls (HMAC, JSON
  serialisation, SMS, e-mail and push providers) are parameters, or outputs
  recorded in an outbox.
- Two support modules hold shared helpers. `Wrappers` holds `Option` and
  `Result`. `Text` holds the string built-ins the source relies on.

## Model

| member | source | states |
|---|---|---|
| MobileOtp.TestPhoneOverride | apps/api_auth/models.py:35-41 | the configured test customer's phone always gets the all-zero code whatever the generation feature; any other phone gets the configured generator, and an unknown feature is a configuration error |
| MobileOtp.IssuedCodeShape | apps/api_auth/models.py:41 | with at least one digit, every issued code is exactly `otp_digit_count` decimal digits |
| MobileOtp.VerifyStepMeaning | apps/api_auth/models.py:55-68 | `verify` passes iff a row exists for the key, is not expired and its hash accepts the code; "not created" iff there is no row; "expired" iff the expiry is before now; the row is removed exactly on success or expiry; other keys are untouched |
| MobileOtp.ExpiryBoundary | apps/api_auth/models.py:61-63 | a row whose expiry equals now still verifies; one second later it is expired and removed |
| MobileOtp.IssueVerifyRoundTrip | apps/api_auth/models.py:43-52 | a code just issued passes before its expiry, and the same code verified again fails with "OTP not created" |
| MobileOtp.ReissueInvalidatesOldCode | apps/api_auth/models.py:46-50 | issuing again for the same key overwrites the row: the earlier code is refused as invalid and the new one passes |
| MobileOtp.WrongCodeThenRightCode | apps/api_auth/models.py:65-68 | a wrong code is refused as invalid and keeps the row, so the right code still passes afterwards |
| MobileOtp.BoundAndUnboundKeysIndependent | apps/api_auth/models.py:46-57 | issuing or verifying under `(None, phone)` leaves the row of `(user, phone)` as it was, and the other way round |
| MobileOtp.KeyedStoreMeetsConstraints | apps/api_auth/models.py:78-89 | a store keyed by `(user, phone)` satisfies both conditional unique constraints and holds one row per key |
| MobileOtp.MobileOtpTable.Generate | apps/api_auth/models.py:29-52 | fails, changing nothing, exactly when no generator can be chosen; otherwise returns the chosen generator's code and `now + otp_valid_duration_seconds`, and upserts the hashed code with that expiry under `(user, phone)` |
| MobileOtp.MobileOtpTable.Verify | apps/api_auth/models.py:54-68 | the outcome and the new store are those of the verification step whose meaning `VerifyStepMeaning` states |
| OtpGenerationService.GetOtpGenerationService | apps/api_auth/services/otp_generation_service.py:13-19 | ALL_ZERO selects the all-zero generator, RANDOM the random one, and any other value raises `OperationException` naming the value |
| OtpGenerationService.AllZeroOtpShape | apps/api_auth/services/otp_generation_service.py:32-34 | the all-zero code is exactly `d` characters, each `'0'` |
| OtpGenerationService.RandomOtpShape | apps/api_auth/services/otp_generation_service.py:41-43 | for `d >= 1` and a draw below `10^d`, the random code has length `d`, is all decimal digits and its value is the draw |
| OtpGenerationService.RandomOtpPadsLeft | apps/api_auth/services/otp_generation_service.py:43 | the code ends with the draw's decimal form and is padded with zeros on the left only; a draw of `d` or more digits is returned unpadded |
| OtpGenerationService.ZeroDigitCountEdgeCase | apps/api_auth/services/otp_generation_service.py:34-43 | with zero digits the all-zero generator gives the empty code but the random one gives `"0"` |
| CustomerAuthViews.SmsCodeVerifies | apps/api_auth/apis/customer/views.py:61-62 | the code the login SMS carries verifies against the row the same request stored, until that row expires |
| CustomerAuthViews.LoginSendOtp | apps/api_auth/apis/customer/views.py:54-69 | issues a code under the unbound key of the phone; returns the expiry `generate` returned and `retry_after = now + otp_resend_wait_duration_seconds`, and queues the login SMS with the code; a misconfigured generator changes nothing |
| CustomerAuthViews.LoginVerifyOtp | apps/api_auth/apis/customer/views.py:74-108 | every OTP failure becomes "Unable to log in with provided OTP"; a phone with no user creates a CUSTOMER whose username and phone number are the phone and whose e-mail is empty, unless some user already has the empty e-mail, when the unique `email` column raises `IntegrityError`; an existing non-customer is refused; on any error the OTP table and the user table are as before the call (the deleted OTP row is restored) |
| CustomerAuthViews.ChangePhoneSendOtp | apps/api_auth/apis/customer/views.py:121-149 | a phone equal to the current username is refused with `already_used_phone`; otherwise the code is issued under the user-bound key and the phone-change SMS is queued |
| CustomerAuthViews.ChangePhoneVerifyOtp | apps/api_auth/apis/customer/views.py:154-187 | verifies under the user-bound key; after a pass, a phone already used as a username is refused with `already_used_phone`; otherwise only the user's `phone_number` changes; every error leaves both tables as they were |
| CustomerAuthViews.LoginIgnoresBoundCodes | apps/api_auth/apis/customer/views.py:82 | login verification reads only the unbound row of the phone: a code issued to a user-bound key never logs anyone in |
| GlobalSettings.NewSettingDefaults | apps/dashboard/models.py:73-113 | a setting created with only a name is active, not in maintenance, uses the RANDOM generator, six digits, 300 s validity, 60 s resend wait and no test customer |
| GlobalSettings.Deactivated | apps/dashboard/models.py:178 | the bulk update keeps the same rows, clears `is_active` on every row but the saved one and leaves that one as it was |
| GlobalSettings.SaveActiveIsOnlyActive | apps/dashboard/models.py:176-180 | after saving an active setting it is the only active row |
| GlobalSettings.SaveTouchesOthersOnlyInIsActive | apps/dashboard/models.py:176-180 | a save changes no field of another row except `is_active`, and saving an inactive setting changes no other row at all |
| GlobalSettings.SavePreservesInvariants | apps/dashboard/models.py:176-180 | a save that passes the unique-name check keeps "at most one active" and "names unique" |
| GlobalSettings.FindActive | apps/dashboard/models.py:20 | the `get(is_active=True)` lookup finds the single active row, reports none exactly when no row is active, and reports several only when two distinct rows are active |
| GlobalSettings.FindActiveNeverMultiple | apps/dashboard/models.py:176-178 | under the single-active invariant the lookup never finds several rows |
| GlobalSettings.CacheHitIsCurrent | apps/dashboard/models.py:18-21 | because every save deletes the cache key, a cache hit returns exactly the active row |
| GlobalSettings.SettingsTable.Save | apps/dashboard/models.py:176-180 | the cache key `current_global_settings` is deleted on every save; a duplicate name fails with an integrity error and rolls the table back; otherwise the table is the saved-rows table; both invariants are kept |
| GlobalSettings.SettingsTable.GetCurrentGlobalSettings | apps/dashboard/models.py:18-21 | a live cache hit is returned with nothing changed; otherwise the active row is returned and cached for 60 s, or a row named "Default" with the defaults is created, cached and returned; the cache stays coherent with the table |
| Cache.CacheGet | apps/utils/cache.py:37 | `cache.get` yields a value exactly while the key is stored and its timeout has not passed, and then yields the stored value |
| Cache.GlobalCache.Get | apps/utils/cache.py:37 | reads the backend as `CacheGet` describes |
| Cache.GlobalCache.Set | apps/utils/cache.py:41 | stores the value under the key, expiring `timeout` seconds from now, or never without a timeout |
| Cache.GlobalCache.Delete | apps/dashboard/models.py:179 | removes the key and nothing else |
| Cache.CachedGlobalProperty | apps/utils/cache.py:36-42 | the wrapped function is called exactly when the cache yields nothing (missing, expired or a stored `None`); a hit returns the stored value and changes nothing; a call stores its result under the key with the timeout |
| Cache.GlobalPropertyMissThenHit | apps/utils/cache.py:37-42 | a miss calls the function and returns its value; a later call before the timeout returns that value without calling it |
| Cache.GlobalPropertyNoneRecomputes | apps/utils/cache.py:38 | a `None` result is never served from the cache: the next call runs the function again |
| Cache.GlobalPropertyDeleteRecomputesOnce | apps/utils/cache.py:37-42 | after the key is deleted the next call recomputes and the call after it is a hit |
| Cache.RequestAttrNameInjective | apps/utils/cache.py:81 | two decorated functions share a slot on the same request or serializer exactly when their keys are equal |
| Cache.CachedRequestProperty | apps/utils/cache.py:80-87 | the function is called exactly when the request lacks `_cache_<key>`; the attribute then holds the result; a present attribute is returned as it is, `None` included |
| Cache.RequestPropertyOncePerRequest | apps/utils/cache.py:83-87 | on one request a second call returns the first result without calling the function, even when that result is `None` |
| Cache.RequestPropertyFreshRequestComputes | apps/utils/cache.py:83-86 | a request without the attribute calls the function and stores its value |
| Cache.CachedPerObject | apps/utils/cache.py:120-133 | the per-instance dictionary is created on first use; the method is called exactly when the object id is not in it; a new result is stored under the id |
| Cache.PerObjectOncePerId | apps/utils/cache.py:128-133 | each object id is computed once per serializer instance, and caching one id does not change whether another id computes |
| Notifications.FirstInvalid | apps/notifications/models.py:104-109 | reports nothing exactly when every non-empty segment passes the validator; a reported segment is a non-empty segment the validator rejects |
| Notifications.CleanMeaning | apps/notifications/models.py:97-109 | a notification is valid iff it has a delivery mode, broadcasts neither by SMS nor by e-mail, and every non-empty phone and e-mail entry passes its validator; a reported entry is one the validator rejects |
| Notifications.OnlyPushMayBroadcast | apps/notifications/models.py:97-103 | a valid broadcast notification is push-only |
| Notifications.FullCleanMeaning | apps/notifications/models.py:45-50 | `full_clean` passes iff the title is non-blank and at most 255 characters, the message is non-blank, the type is one of the nine notification types, and `clean` passes; with valid fields its error is that of `clean`, otherwise a field error |
| Notifications.RoutesMeaning | apps/notifications/models.py:115-127 | each direct sender is called exactly for its mode on a non-broadcast notification, the broadcast push exactly for push plus broadcast, no sender twice, and a valid broadcast sends just the topic push |
| Notifications.ChannelsOf | apps/notifications/models.py:115-127 | lists, delivery by delivery, the sender each message went through |
| Notifications.NonEmpty | apps/notifications/models.py:132-153 | `filter(lambda x: x, …)` keeps every non-empty value and only values of the input |
| Notifications.SmsText | apps/notifications/models.py:137 | the SMS body is `sms_message` when non-empty, else `message` |
| Notifications.DerivedPhoneNumbersReachRecipients | apps/notifications/models.py:130-136 | when the phone field was empty, the SMS goes to exactly the recipients' non-empty phone numbers |
| Notifications.DerivedEmailsReachRecipients | apps/notifications/models.py:142-147 | when the e-mail field was empty, the e-mail goes to exactly the recipients' non-empty addresses |
| Notifications.GivenRecipientsKept | apps/notifications/models.py:130-150 | a recipient field that is already set is used as given, never re-derived |
| Notifications.Notification.Save | apps/notifications/models.py:111-113 | `full_clean` runs first: the row is written exactly when its fields and `clean` both pass, and the error is returned otherwise |
| Notifications.Notification.SendSms | apps/notifications/models.py:129-139 | derives and saves the phone field when empty, then hands the SMS text to the provider for those numbers with the organization's mask; a save failing `full_clean` sends nothing and leaves the stored row as it was |
| Notifications.Notification.SendEmail | apps/notifications/models.py:141-147 | derives and saves the e-mail field when empty, then sends the title and message to those addresses; a save failing `full_clean` sends nothing and leaves the stored row as it was |
| Notifications.Notification.SendPush | apps/notifications/models.py:149-156 | derives and saves the device ids from the recipients' devices when empty, then pushes to them; a save failing `full_clean` sends nothing and leaves the stored row as it was |
| Notifications.Notification.SendPushBroadcast | apps/notifications/models.py:158-161 | pushes once to the all-users topic, or to the organization's topic when the notification has one |
| Notifications.Notification.Send | apps/notifications/models.py:115-127 | the outcome is the error of the first failing derived-recipient save, if any; on success the row has every needed field derived and the providers received exactly `Deliveries`; on failure the state is what the direct senders left, as `DirectSend` gives it, and no broadcast is pushed |
| Notifications.Notification.SendDirect | apps/notifications/models.py:116-124 | the SMS, e-mail and push senders run in that order, each only when routed, and a failing save stops the rest; the row, the stored row, the outcome and the messages handed over are those `DirectSend` gives, and on success exactly `DirectDeliveries` |
| Notifications.DirectSendMeaning | apps/notifications/models.py:115-127 | the direct senders end with `SendOutcome`; when every save passes the row is `Sent` and exactly `DirectDeliveries` went out; when a save fails, the messages of the earlier senders went out, a proper prefix of `DirectDeliveries`; only recipient fields change, and a newly stored row passes `full_clean` |
| Notifications.DeliveriesFollowRoutes | apps/notifications/models.py:115-127 | `send` hands one message to each sender the routing names, in that order, and changes only the recipient fields |
| Notifications.DeliveriesCarryText | apps/notifications/models.py:137-161 | the SMS carries the SMS text; the e-mail and the pushes carry `message` |
| Notifications.CustomersMeaning | apps/notifications/models.py:187-216 | a customer is in the audience iff one of the `custom_customers`, or of the group's branch and passing the package, age and gender filters; the hand-assigned and filtered parts never overlap |
| Notifications.ZeroAgeBoundIsUnset | apps/notifications/models.py:196-201 | an age bound of 0 selects exactly the same audience as no bound |
| Notifications.AudienceStaysInBranch | apps/notifications/models.py:242-244 | when every assignment respects the assignment rule, the whole audience belongs to the group's branch |
| Notifications.CleanSmsGroup | apps/notifications/models.py:218-220 | a group is refused exactly when its package belongs to another branch |
| Notifications.CleanAssignmentMeaning | apps/notifications/models.py:240-244 | an assignment is accepted iff the customer is of the group's branch and the (group, customer) pair is new |
| Notifications.CleanSmsCampaign | apps/notifications/models.py:271-273 | a campaign is refused exactly when it is scheduled without a time |
| NotificationTasks.OtpTextsCarryTheCode | apps/notifications/tasks.py:22-34 | the login text is "Your Login OTP for Fitconnect is " followed by the code and the phone-change text "Your OTP for Fitconnect is " followed by the code; each text determines its code, and the two kinds never coincide |
| NotificationTasks.CampaignNotificationIsValid | apps/notifications/tasks.py:152-158 | the notification the campaign task creates (SMS only, type CUSTOM, no broadcast, recipients still to be derived) passes `full_clean` exactly when the campaign's name is a non-blank title of at most 255 characters and its message is non-blank |
| NotificationTasks.CampaignSend | apps/notifications/tasks.py:159-161 | `send` on that notification runs only `send_sms`: its outcome is the `full_clean` of the row with the derived phone numbers, and it hands over that one SMS |
| NotificationTasks.CleanCampaign | apps/notifications/models.py:256-277 | `SmsCampaign.full_clean` passes iff the name is non-blank and at most 127 characters, the message non-blank and at most 160, the cost below 10^9 cents (nine digits, two decimals), and `clean` passes |
| NotificationTasks.CampaignAfterTaskMeaning | apps/notifications/tasks.py:144-170 | an inactive group, a state other than PENDING/SCHEDULED or a notification that fails to save leaves the campaign untouched; otherwise, for a valid campaign, `campaign.save()` stores the attempt unless the cost `sms_cost * count` reaches 10^9 cents: `attempted_at` is recorded; success sets COMPLETED, `message_count` to the recipient count and the cost; a provider error sets FAILED and keeps count and cost |
| NotificationTasks.CampaignTaskIdempotent | apps/notifications/tasks.py:147-168 | both outcomes are terminal: once the campaign task changed a campaign, running it again with any inputs changes nothing |
| NotificationTasks.SendSmsCampaignMessage | apps/notifications/tasks.py:141-170 | the campaign ends as `CampaignAfterTask` describes; an ineligible campaign is not attempted; a notification failing `full_clean` at creation or at `send` raises that error with no SMS sent; a campaign `campaign.save()` rejects raises its error after the one SMS went out; otherwise exactly one SMS, to the recipients' derived numbers, went to the provider |
| EnrollmentSn.CountIn | apps/users/migrations/0003_customerenrollment_sn_and_more.py:8-13 | a branch counter never exceeds the number of rows walked |
| EnrollmentSn.Numbered | apps/users/migrations/0003_customerenrollment_sn_and_more.py:11-15 | every row gets, as its only change, the serial number one more than the earlier rows of its branch |
| EnrollmentSn.PopulateSn | apps/users/migrations/0003_customerenrollment_sn_and_more.py:4-15 | the counter loop leaves the rows exactly as `Numbered` describes |
| EnrollmentSn.PopulateSnReverse | apps/users/migrations/0003_customerenrollment_sn_and_more.py:18-20 | every serial number becomes null and nothing else changes |
| EnrollmentSn.CountInOwnBranch | apps/users/migrations/0003_customerenrollment_sn_and_more.py:12-13 | a branch's counter counts exactly that branch's rows |
| EnrollmentSn.SnCountsOwnBranchOnly | apps/users/migrations/0003_customerenrollment_sn_and_more.py:8-14 | a row's serial number is one more than the number of earlier rows of its own branch; other branches never move it |
| EnrollmentSn.CountInMonotone | apps/users/migrations/0003_customerenrollment_sn_and_more.py:13 | counters only grow along the walk, and strictly when a row of that branch is passed |
| EnrollmentSn.SnUniqueAndBounded | apps/users/migrations/0003_customerenrollment_sn_and_more.py:11-15 | within a branch serial numbers strictly increase in walk order, so `(branch, sn)` is unique, and they lie in `1..k` for a branch of `k` rows |
| EnrollmentSn.SnNoGaps | apps/users/migrations/0003_customerenrollment_sn_and_more.py:11-15 | every number from 1 to a branch's row count is some row's serial number |
| EnrollmentSn.ReverseUndoesNumbering | apps/users/migrations/0003_customerenrollment_sn_and_more.py:4-20 | running the migration and then its reverse changes nothing but clearing the serial numbers |
| CustomerFilters.ActiveMemberships | apps/users/apis/employee/filters.py:23 | the active memberships are exactly the paid-for ones running now |
| CustomerFilters.FutureMemberships | apps/users/apis/employee/filters.py:24 | the future memberships are exactly the paid-for ones yet to start |
| CustomerFilters.MembershipStatusFilter | apps/users/apis/employee/filters.py:16-31 | an empty value returns the queryset unchanged, an unknown value gives nothing, and every result is part of the queryset |
| CustomerFilters.StatusesPartition | apps/users/apis/employee/filters.py:25-30 | ACTIVE, FUTURE and INACTIVE are pairwise disjoint and together cover the queryset; ACTIVE means owning an active membership, FUTURE owning no active but a future one |
| CustomerFilters.AssignedFilter | apps/users/apis/employee/filters.py:33-41 | keeps exactly the customers of the queryset with an active assignment to the given schedule or plan, each once |
| CustomerFilters.DeactivationShrinks | apps/users/apis/employee/filters.py:35-40 | deactivating an assignment can only shrink the filter's result |
| Permissions.IsSameUser | apps/utils/permissions.py:10-12 | holds iff the request is signed in as the object's user |
| Permissions.PermissionHierarchy | apps/utils/permissions.py:18-78 | `EnrolledCustomer` implies `IsCustomer`, `OrganizationAdmin` implies `BranchAdmin`, no request is both a customer's and an employee's, and an anonymous request passes none of them |
| Permissions.CurrentCustomer | apps/utils/permissions.py:81-86 | an enrolled customer gets their enrollment; the helper fails exactly for an anonymous request or a user without one |
| Permissions.CurrentEmpOrganization | apps/utils/permissions.py:89-95 | a branch admin gets their organization; the helper fails exactly for an anonymous request or a user without one |
| Permissions.CurrentEmpBranchIds | apps/utils/permissions.py:98-108 | fails only for an anonymous request; no organization gives no branch; an organization admin gets every branch of the organization; anyone else gets their enrolled branches inside it; the result never leaves the organization |
| Permissions.BranchAdminSeesNoMoreThanOrgAdmin | apps/utils/permissions.py:102-108 | whatever their enrollments, an employee sees at most the branches an organization admin of the same organization sees |
| AdminDisplay.Resolve | apps/utils/admin.py:31-42 | a `=` path yields its text with the `=` signs stripped; any other path is split on `__` and walked part by part (`()` calls, anything else is an attribute lookup defaulting to `None`), stopping at the first `None` |
| AdminDisplay.JoinPieces | apps/utils/admin.py:45-47 | the pieces of a `+` path, each followed on its own, are concatenated as text in order; the first failing piece fails the whole join |
| AdminDisplay.Follow | apps/utils/admin.py:20-50 | `_follow`: a path containing `+` is the join of its pieces, any other path is resolved directly |
| AdminDisplay.JoinedErrorSticks | apps/utils/admin.py:47 | once a prefix of the pieces fails, the join of all pieces fails with the same error |
| Text.StripMeaning | apps/utils/admin.py:33 | `str.strip(c)` keeps a slice of the input whose dropped prefix and suffix are all `c`, and the kept text neither starts nor ends with `c` |
| AdminDisplay.LiteralPath | apps/utils/admin.py:32-33 | a `=` path without `+` always succeeds with `path.strip("=")`: the slice of the path left after dropping its leading and trailing `=`, which neither starts nor ends with `=` |
| AdminDisplay.WalkStopsAtNone | apps/utils/admin.py:40-41 | after a part that yields `None` the rest of the path is never consulted: the walk gives `None` whatever follows |
| AdminDisplay.PlusBeforeLiteral | apps/utils/admin.py:45-50 | `+` is handled before `=`: `"=lit+rest"` is the stripped literal followed by the text of what `rest` resolves to |
| AdminDisplay.HeaderImg | apps/utils/admin.py:8-10 | an empty cell plus a square borderless picture of the given size; a falsy image gets the placeholder URL of that size, a present one its `url` |
| AdminDisplay.Initials | apps/utils/admin.py:15 | the placeholder letters: `?` for empty text, otherwise the first (at most four) characters upper-cased |
| AdminDisplay.HeaderCol | apps/utils/admin.py:13-17 | an empty cell plus a 50×50 square picture whose URL carries the colour without `#` and the initials; succeeds exactly when the colour is a string |
| AdminDisplay.LabelOf | apps/utils/admin.py:100-103 | a label column shows booleans as `Yes`/`No` and every other value unchanged |
| AdminDisplay.Display | apps/utils/admin.py:97-128 | the column function: a failing primary path fails; label columns show the label; plain columns show the primary value; a header with a `None` primary is two empty cells; otherwise primary and secondary cells followed by two cells per configured image and image text |
| PeriodicTaskForm.TasksAsChoices | apps/dashboard/admin.py:37-38 | the offered task choices are exactly the base choices with an empty name or a name ending `_periodic_task`, never more of them |
| PeriodicTaskForm.TasksAsChoicesKeepsOrder | apps/dashboard/admin.py:38 | filtering commutes with concatenation, so the kept choices stay in their original order |
| PeriodicTaskForm.TasksAsChoicesIdempotent | apps/dashboard/admin.py:38 | filtering the filtered choices changes nothing |
| PeriodicTaskForm.InitialScheduleType | apps/dashboard/admin.py:66-75 | the initial schedule type names the first schedule the periodic task has in the order interval, crontab, solar, clocked, and is `none` exactly when it has none |
| PeriodicTaskForm.InitialExpirationType | apps/dashboard/admin.py:77-82 | the initial expiration type is `expire_at` when the periodic task has an expiry date, else `expire_seconds` when it has a duration, else `none` |
| PeriodicTaskForm.Cleaned | apps/dashboard/admin.py:86-98 | the cleaned data keep at most one schedule and at most one expiry: the one the chosen types name, unchanged; every other is cleared, and all are cleared for an unknown type |
| PeriodicTaskForm.CleanIdempotent | apps/dashboard/admin.py:91-96 | cleaning cleaned data changes nothing |
| PeriodicTaskForm.OpenedFormKeepsTask | apps/dashboard/admin.py:66-96 | a form opened on a consistent task and submitted with its initial types keeps the periodic task's schedule and expiry exactly |
| PeriodicTaskForm.TaskForm.constructor | apps/dashboard/admin.py:58-84 | the form's initial schedule type, expiration type and registered task are those the periodic-task instance implies |
| PeriodicTaskForm.TaskForm.Clean | apps/dashboard/admin.py:86-98 | the form's data become their cleaned form and are returned; the initial values stay as they were |
| Maintenance.ProcessRequest | apps/dashboard/middlewares.py:8-25 | an API path under `/api/v1` is answered with 503 `service_unavailable` / `maintenance` exactly when maintenance mode is on, with the configured message or the default one when it is empty; every other request passes |
| Maintenance.DetailNeverEmpty | apps/dashboard/middlewares.py:18-19 | the detail of a maintenance answer is never empty |
| Maintenance.OnlyApiPathsGated | apps/dashboard/middlewares.py:9-11 | paths outside the API always pass, and the answer depends on the settings only through the maintenance flag and message |
| AdminSite.Lookup | config/admin.py:34-37 | the lookup holds exactly the object names some registered model has, and each name maps to a model of that name |
| AdminSite.SectionModels | config/admin.py:43-45 | a section lists at most as many models as it names, each one registered under a name the section gives |
| AdminSite.Sidebar | config/admin.py:40-46 | one sidebar section per configured section, in configured order, with the configured title and that section's registered models |
| AdminSite.BuildLookup | config/admin.py:31-37 | the loop over apps and their models builds the lookup of every registered model, app after app |
| AdminSite.GetAppList | config/admin.py:25-48 | `get_app_list` returns the sidebar of the configured sections over the lookup of all registered models |
| AdminSite.CollectSection | config/admin.py:43-45 | the inner loop collects, in configured order, the registered model of each configured name, skipping unregistered ones: exactly `SectionModels` |
| AdminSite.LastRegistrationWins | config/admin.py:37 | when several models share an object name, the last one registered is the one shown |
| AdminSite.SectionShowsRegistered | config/admin.py:44-45 | every configured name that is registered appears in its section |
| AdminSite.SectionOrder | config/admin.py:43-45 | a section's models follow the configured order of names |
| AdminSite.EmptySectionsListed | config/admin.py:42-46 | a section naming no registered model is still listed, with no models |
| AdminSite.NoneRegisteredShowsNothing | config/admin.py:43-45 | names none of which is registered give an empty model list |
| Storages.ExpireAt | config/storages.py:7-14 | expiries shorter than an hour go to the library unchanged; longer ones become an instant on a whole UTC hour, after now and at most an hour ahead |
| Storages.SameHourSameUrl | config/storages.py:11-14 | two long expiries requested within the same UTC hour give the same instant, the start of the next hour, whatever their lengths |
| Storages.ExpiryMonotone | config/storages.py:13-14 | a later request never gets an earlier expiry |
| NotificationAdmin.Kept | apps/notifications/admin.py:104-112 | the kept labels are among the given labels and never more of them |
| NotificationAdmin.KeptOfLabels | apps/notifications/admin.py:105-112 | over the three delivery labels the kept list is Push, SMS, Email in that order, each exactly when its mode is on |
| NotificationAdmin.DeliveryMethods | apps/notifications/admin.py:103-112 | the column lists each label exactly when its mode is enabled, in the order Push, SMS, Email, without repetition, one per enabled mode |
| NotificationAdmin.NoMethodsIsInvalid | apps/notifications/admin.py:104-112 | a notification that shows no delivery method is one the model's `clean` rejects for having no delivery method |
| JwtEncode.UrlAlphabetBijective | static/jwt_encode.js:2 | the URL-safe alphabet the rewrite produces maps 0..63 one-to-one onto its symbols, so every symbol decodes to the value it encodes |
| JwtEncode.Sextets | static/jwt_encode.js:2 | the bytes cut into 6-bit groups: ⌈4n/3⌉ groups, each below 64 |
| JwtEncode.StdEncode | static/jwt_encode.js:2 | what `btoa` produces is padded to a multiple of four symbols |
| JwtEncode.UrlEncode | static/jwt_encode.js:2 | unpadded Base64url: ⌈4n/3⌉ symbols, all from the URL-safe alphabet |
| JwtEncode.UrlSafeOfStd | static/jwt_encode.js:2 | dropping `=` and replacing `+` by `-` and `/` by `_` turns standard padded Base64 into unpadded Base64url of the same bytes |
| JwtEncode.FromSextets | static/jwt_encode.js:2 | regrouping 6-bit groups into bytes fails exactly when one group is left over |
| JwtEncode.FromSextetsOfSextets | static/jwt_encode.js:2 | regrouping the groups of some bytes gives those bytes back |
| JwtEncode.UrlRoundTrip | static/jwt_encode.js:1-3 | decoding unpadded Base64url gives back exactly the encoded bytes |
| JwtEncode.Btoa | static/jwt_encode.js:2 | `btoa` fails exactly on a string with a character beyond one byte |
| JwtEncode.Base64Url | static/jwt_encode.js:1-3 | `base64url` fails exactly when `btoa` does |
| JwtEncode.Base64UrlMeaning | static/jwt_encode.js:1-3 | on byte-sized text `base64url` is the unpadded Base64url of its bytes and decodes back to them |
| JwtEncode.SignatureMeaning | static/jwt_encode.js:24-27 | rebuilding the digest as a string never makes `btoa` fail, and the signature text is the digest in unpadded Base64url |
| JwtEncode.SetProperty | static/jwt_encode.js:37 | assigning a property replaces the value of an existing key in place and appends a new key last; keys stay distinct |
| JwtEncode.Token | static/jwt_encode.js:39-43 | the token fails exactly when the header or payload text has a character beyond one byte |
| JwtEncode.JwtEncode | static/jwt_encode.js:30-44 | `jwtEncode` sets the payload's `exp` to the current second plus one hour and returns the header, payload and signature token of the updated payload |
| JwtEncode.NoDotInUrlText | static/jwt_encode.js:2 | Base64url text never holds a dot, so it cannot break the token's segments |
| JwtEncode.TokenSegments | static/jwt_encode.js:39-43 | a token splits on dots into exactly three segments: the header bytes, the payload bytes, and the HMAC of the first two segments joined by a dot |
| JwtEncode.ThreeSegments | static/jwt_encode.js:41-43 | three dot-free texts joined by dots split back into those three |
| JwtEncode.ExpiryClaim | static/jwt_encode.js:36-37 | after the stamp the payload has an `exp` claim one hour after the current second, keeps distinct keys, and keeps every other claim |
| UnusedClassAnalyzer.NamesEnding | tools/analyzers/unused_class_def_analyzer.py:17-25 | the imported names kept are exactly those ending with the suffix |
| UnusedClassAnalyzer.UsageOf | tools/analyzers/unused_class_def_analyzer.py:16-31 | a node contributes only names ending with the suffix |
| UnusedClassAnalyzer.DefinitionOf | tools/analyzers/unused_class_def_analyzer.py:35-42 | a node defines a class exactly when it is a class statement with a base, plain or dotted, ending with the suffix, and the name defined is the class's own |
| UnusedClassAnalyzer.DefinitionsOf | tools/analyzers/unused_class_def_analyzer.py:34-42 | the classes a tree defines are exactly those some walked node defines |
| UnusedClassAnalyzer.Record | tools/analyzers/unused_class_def_analyzer.py:39-42 | recording names against a path keeps earlier definitions and maps each recorded name to the new path |
| UnusedClassAnalyzer.Unused | tools/analyzers/unused_class_def_analyzer.py:60 | the unused classes are exactly the defined names never seen as a usage |
| UnusedClassAnalyzer.Analyzer.constructor | tools/analyzers/unused_class_def_analyzer.py:8-12 | a new analyzer keeps the roots and suffixes and starts with no definitions and no usages |
| UnusedClassAnalyzer.Analyzer.FindUsages | tools/analyzers/unused_class_def_analyzer.py:14-31 | the usages grow by exactly the suffixed names of the walked tree's imports, names and attributes |
| UnusedClassAnalyzer.Analyzer.FindDefinitions | tools/analyzers/unused_class_def_analyzer.py:33-42 | the definitions record every class of the tree with a suffixed base against the file path |
| UnusedClassAnalyzer.Analyzer.RecordClass | tools/analyzers/unused_class_def_analyzer.py:36-42 | one class statement is recorded against the path exactly when one of its bases ends with the suffix |
| UnusedClassAnalyzer.Analyzer.Analyze | tools/analyzers/unused_class_def_analyzer.py:44-57 | after analysis the usages and definitions are those of every Python file that parses, per suffix, in walk order; other files are skipped |
| UnusedClassAnalyzer.Analyzer.Report | tools/analyzers/unused_class_def_analyzer.py:59-66 | nothing is reported exactly when no definition is unused; otherwise the header gives their count and there is one line per unused class with its path |
| UnusedClassAnalyzer.RunCommand | tools/analyzers/unused_class_def_analyzer.py:69-79 | without `--suffixes` the command crashes; otherwise it exits with 1 exactly when some definition is unused, and 0 otherwise |
| UnusedClassAnalyzer.SkippedFileAddsNothing | tools/analyzers/unused_class_def_analyzer.py:48-57 | a file that is not Python or does not parse changes neither usages nor definitions |
| UnusedClassAnalyzer.NameStatementIsUsage | tools/analyzers/unused_class_def_analyzer.py:26-28 | a suffixed name used in a top-level expression of an analyzed file is a usage |
| UnusedClassAnalyzer.UnsuffixedNameAlwaysReported | tools/analyzers/unused_class_def_analyzer.py:19-42 | a class with a suffixed base but an unsuffixed name is reported unused even when the same file uses it |
| UnusedClassAnalyzer.LastDefinitionWins | tools/analyzers/unused_class_def_analyzer.py:39-42 | when several files define a class, the path reported is the last analyzed one's |
| SuperuserCommand.Decide | apps/users/management/commands/superuser.py:15-22 | the command creates exactly when no superuser exists and the username is free, and only warns exactly when a superuser exists |
| SuperuserCommand.Handle | apps/users/management/commands/superuser.py:13-22 | with an existing superuser it warns, with a taken username it reports the error, both changing nothing; otherwise `create_superuser` raises `IntegrityError` when the e-mail is taken, changing nothing, and else adds the staff superuser with the hashed password under a fresh id and no other table changes |
| SuperuserCommand.CreatedIsOnlySuperuser | apps/users/management/commands/superuser.py:15-22 | the account created is the only superuser, accepts its password, and a second run only warns |
| SuperuserCommand.NeverASecondSuperuser | apps/users/management/commands/superuser.py:15-16 | the command never leaves two superusers where there was at most one |
| CustomerViews.Matching | apps/users/apis/customer/views.py:67 | the rows `get` sees are exactly the user's enrollments at that branch |
| CustomerViews.Plan | apps/users/apis/customer/views.py:66-73 | no matching row means create; one inactive row means reactivate it; one active row means refuse as already enrolled; several rows mean the `get` error |
| CustomerViews.Enroll | apps/users/apis/customer/views.py:57-77 | a refusal leaves every table unchanged; a reactivation switches that enrollment on and changes nothing else; otherwise one active enrollment is added under a fresh id; the enrollment is returned |
| CustomerViews.EnrollingAgainRefused | apps/users/apis/customer/views.py:68-73 | after a successful enroll the customer has exactly one active enrollment at the branch, and enrolling again is refused |
| CustomerViews.OtherEnrollmentsUntouched | apps/users/apis/customer/views.py:66-73 | enroll leaves every enrollment of another customer or branch as it was |
| EmployeeViews.Listed | apps/users/apis/employee/views.py:67-70 | the listed enrollments are exactly those at the employee's branches |
| EmployeeViews.ListingStaysInOrganization | apps/users/apis/employee/views.py:67-70 | a branch admin lists only enrollments at branches of their own organization, and an organization admin lists all of them |
| EmployeeViews.CreateRefusal | apps/users/apis/employee/views.py:84-90 | create is refused for a branch outside the employee's branches, else for a package of such a branch, else for a discount above the package price, and allowed exactly when none holds |
| EmployeeViews.SignUpPayment | apps/users/apis/employee/views.py:95-103 | the payment is for the new membership, successful, paid now, in LKR, at the package price with the granted discount |
| EmployeeViews.Create | apps/users/apis/employee/views.py:72-107 | an e-mail already in use is refused first (the serializer's unique check), then the view's refusals, then a username already taken (the `IntegrityError` the atomic view rolls back), each changing nothing; otherwise a customer user, an active enrollment at the branch, a membership of the package and a paid payment are added under fresh ids, the discount never exceeds the price, and the new enrollment is in the employee's list |
| EmployeeViews.Unbind | apps/users/apis/employee/views.py:160-172 | the response is always 204; the current membership's access secret is cleared and nothing else changes, or nothing changes when there is none |
| EmployeeViews.AlreadyUsed | apps/users/apis/employee/views.py:181-182 | a number is already used exactly when some customer account has it |
| EmployeeViews.SignedUpNumberIsUsed | apps/users/apis/employee/views.py:182 | signing up a customer with a number no customer had makes exactly that number used |
| Database.Db.CreateUser | apps/users/apis/employee/views.py:92 | a user with a free username and a free e-mail is inserted under a key no table uses, usernames and e-mails stay unique, and no other table changes |
| Database.Db.SetPhoneNumber | apps/api_auth/apis/customer/views.py:177-178 | only the user's phone number changes |
| Database.Db.CreateEnrollment | apps/users/apis/customer/views.py:73 | the enrollment is inserted under a key no table uses and no other table changes |
| Database.Db.ReactivateEnrollment | apps/users/apis/customer/views.py:70-71 | only that enrollment's `is_active` changes, to true |
| Database.Db.CreateMembership | apps/users/apis/employee/views.py:94 | the membership is inserted under a key no table uses and no other table changes |
| Database.Db.CreatePayment | apps/users/apis/employee/views.py:95-103 | the payment is inserted under a key no table uses and no other table changes |
| Database.Db.ClearAccessSecret | apps/users/apis/employee/views.py:169-171 | only that membership's access secret changes, to the empty string |

## Left out

- Password hashing: Argon2 and PBKDF2 are not modelled. A digest is a record of the salt and the secret, and `Hashers.CheckPassword` accepts exactly the secret it was made from.
- Randomness: the `secrets.randbelow` draw, password salts and UUID primary keys are inputs. Fresh keys come from one counter in `Database.Db`.
- Clock: `timezone.now()`, `datetime.now(timezone.utc)` and `Date.now()` are integer parameters.
- Concurrency: races between concurrent upserts, row locking and the database's own enforcement of unique constraints are not modelled. The unique `username` and `email` columns are invariants of a sequential store, and each insert checks them first.
- Task dispatch: `delay` and `delay_on_commit` to Celery are not modelled. The SMS an endpoint queues is returned as a value; the welcome notification queued by `enroll` is not represented.
- Providers: the SMS, e-mail and push providers are recorded as deliveries in an outbox. What they do with a message is not part of this model.
- Token minting: `jwt_encode` in the login response (simplejwt) is not part of this model.
- Web Crypto: HMAC-SHA-256 is an uninterpreted function parameter of `JwtEncode`. Key import and the UTF-8 `TextEncoder` step are folded into it.
- JSON: `JSON.stringify` is a parameter. The ordering JavaScript gives to integer-like property keys is not modelled, and properties are kept in insertion order.
- Foreign validators: the phone and e-mail validators are predicates supplied by the caller.
- Notifications.FullCleanMeaning: `full_clean` is modelled as reporting one error, the first failing field check or else the error of `clean`; Django gathers every field error and the error of `clean` together. Whether it passes is the same. The existence check of the `organization` foreign key and the `data` JSON field are not modelled.
- NotificationTasks.CleanCampaign: `state` holds one of its choices by construction; the integer range of `message_count` depends on the database backend and is not modelled; `group` and `scheduled_task_id` are not modelled.
- Calendar arithmetic: `relativedelta` year arithmetic is supplied as a function from an age to a birth-date bound.
- Membership timing: which memberships are paid for, running or yet to start is computed by the membership queryset. The model takes these as given sets.
- Serializers: the validation a serializer performs before a view body runs (required fields, existing branch and package) appears as the view's preconditions; the unique-e-mail check of `UserCreateEmployeeSerializer` is the first error of `EmployeeViews.Create`. E-mail normalisation is not modelled.
- Enrollment and membership models: apps/users/models.py beyond the `User` class, and the memberships models, are not part of this model. Three defaults follow from this. A created enrollment is taken to be active. A created membership's access secret is taken to be empty. The `sn` an enrollment receives when it is created is not represented.
- `current_membership`: the queryset method is not part of this model. `EmployeeViews.Unbind` receives the membership it finds.
- Migration order: the `order_by("branch_id", "created")` of the serial-number migration is the order of the given array.
- AzureStorage: the storage library's own `_expire_at` is not modelled. `Storages.ExpireAt` reports the call as delegated.
- Celery beat form: the base `PeriodicTaskForm.clean` of the beat library is not modelled. `PeriodicTaskForm.Cleaned` starts from the data it returns.
- AdminDisplay.Display: `textwrap.shorten` is a parameter. The contract states the number of cells and the primary cell; it states the secondary cell only when no secondary path, suffix or shortening is configured, and does not state the text of the image cells.
- Python values: `_follow` works on a small value universe (None, strings, booleans, integers, objects with attributes, a fixed call result and a `str()` text). Attributes of built-in Python values are not modelled.
- Upper-casing: `str.upper` is modelled for ASCII letters only.
- Empty initials: `header_col` on an empty text gives `"?"`. `AdminDisplay.Initials` states this but does not distinguish it from a text that is literally `"?"`.
- Filter results: the employees' customer filters return querysets that may repeat rows. They are modelled as sets, so duplicates are not represented.
- `ast.walk`: `ast.walk` visits nodes breadth-first, while the model walks them depth-first. The usages and definitions found are sets and the file path recorded for a class is the same either way, so the results agree.
- UnusedClassAnalyzer: a file that cannot be decoded as UTF-8 raises `UnicodeDecodeError` and ends the tool. This is not modelled: every file is taken to decode. Statement and expression kinds the tool does not inspect are reduced to the few under which inspected nodes can sit.
- `os.walk`: the walk over the project roots is given as the sequence of files it yields.
