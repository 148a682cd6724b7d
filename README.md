# Card Flow Platform — a verified Dafny model of its service core

Card Flow is a NestJS/Prisma back end for digital business cards. Individuals and company employees publish cards
under public slugs. Visitors view a card, download it as a vCard, and each visit is recorded as an analytics event.
Plans cap how many cards and employees a tenant may have. Company admins can lock card fields so that employees
cannot edit them.

This project models the rule logic of that back end and proves what it promises:

- **Authentication state machine** (`Auth`, `Users`, `JwtStrategies`). The state is a user table, a session table
  and a Redis-style challenge map with expiries. It covers:
  - registration and login, with or without two-factor codes;
  - session issue and rotation, and logout;
  - e-mail verification and password reset;
  - enabling and disabling two-factor, password change, and account anonymisation;
  - the checks the two JWT strategies run on each request.
- **Secret envelope** (`CryptoUtil`): the `iv:cipher:tag` hex format, its parse check, token and code construction.
  AES-256-GCM (NIST SP 800-38D) and SHA-256 (FIPS 180-4) are function-valued parameters. The one law the code
  relies on, that GCM decryption undoes encryption, is a predicate the lemmas assume as a precondition.
- **TTL key-value store and rate limiter** (`Redis`): get/set/del with expiry, the per-user session index, and a
  fixed-window counter.
- **Plans, tenants and cards** (`PlanLimit`, `Cards`, `Companies`). This covers:
  - the effective limit `override ?? plan limit`, where a missing limit means unlimited;
  - the locked-field rules;
  - the card update diff and its history rule;
  - the bounded slug retry loops;
  - company creation and membership.
- **Public card** (`PublicCard`): the vCard 3.0 line builder (RFC 2426), the user-agent classifier, and the
  analytics event written for each view or download.
- **Utilities and request validators** (`Pagination`, `Slug`, `Sanitize`, `RegisterDto`, `CardDto`).

How the model is built:

- **Database.** The database is `Store.Database`, a class with one field `t: Tables`. Every Prisma write is a pure
  function on `Tables` that returns `Result<Tables>`. It fails exactly where a unique constraint or a missing row
  would make Prisma throw.
- **Services.** Each service is a class over that database. Its methods state their whole new state in terms of
  the old one, and they preserve the invariant `Store.Valid`: user ids and e-mails, session ids, card ids and
  slugs, and company ids and slugs are unique, and every session belongs to an existing user.
- **Inputs.** Time, random bytes, generated ids and clock readings are parameters. `now` is milliseconds since
  the epoch.
- **Errors.** An error is `Failure(kind, message)`. The kind is the HTTP exception class the source throws, and
  the message is the source's own text.

## Model

| member | source | states |
|---|---|---|
| Auth.AccessPayloadOf | src/modules/auth/auth.service.ts:466-482 | the access-token claims carry the stored user's id, e-mail and role; null company/employer/department become undefined |
| Auth.ValidateUserIn | src/modules/auth/auth.service.ts:107-122 | a user is returned iff the lower-cased e-mail finds a live (active, not soft-deleted) user whose hash matches the password; otherwise null, never an error |
| Auth.RefreshCheck | src/modules/auth/auth.service.ts:229-235 | refresh proceeds iff the user exists and is live; otherwise "User not found or inactive" |
| Auth.ResetCandidates | src/modules/auth/auth.service.ts:361-367 | exactly the users with a reset token and an expiry later than now |
| Auth.ScanResetCandidates | src/modules/auth/auth.service.ts:369-378 | the loop's answer is `FirstResetMatch`: the first candidate whose decrypted token equals the token hash, every earlier candidate passed over; none iff all are passed over; a decrypt failure surfaces at the first candidate where it happens |
| Auth.FirstResetMatchFrom | src/modules/auth/auth.service.ts:369-378 | the scan as a recursive reference definition: index of the first matching candidate from position i, or the first decrypt failure |
| Auth.WrongCodeBeforeExpiry | src/modules/auth/auth.service.ts:183-191 | a wrong code is reported as "Invalid verification code" even when the code has also expired (mismatch is checked before expiry) |
| Auth.Verify2FASuccess | src/modules/auth/auth.service.ts:162-191 | the 2FA check succeeds iff the pending challenge names an existing user with a code and expiry, the decrypted code equals the one given and now is not past the expiry |
| Auth.ConsumedChallengeFails | src/modules/auth/auth.service.ts:164-168 | once the challenge key is gone, verify2FA fails with "Invalid or expired temporary token" whatever the code |
| Auth.VerifyEmailOnlyFirst | src/modules/auth/auth.service.ts:263-285 | verification succeeds iff the FIRST unverified user has a token that decrypts to hashToken(token) and is unexpired (a null expiry never expires); the verified user is that first one |
| Auth.VerifyEmailSkipsLaterUsers | src/modules/auth/auth.service.ts:266-270 | a later unverified user is never the one verified while an earlier unverified user exists |
| Auth.RegisteredTokenDecrypts | src/modules/auth/auth.service.ts:58-96 | a new user is INDIVIDUAL, unverified and live, and has a verify expiry of now+24h; the stored verify token decrypts to hashToken(raw token) |
| Auth.AuthService.Register | src/modules/auth/auth.service.ts:45-105 | an existing e-mail gives Conflict with no write; a free e-mail without a Basic plan gives BadRequest; otherwise exactly one user and one TRIAL subscription on the Basic plan are appended |
| Auth.AuthService.GenerateTokens | src/modules/auth/auth.service.ts:466-530 | exactly one session is appended whose tokens are the returned pair, lastLoginAt becomes now, and the response has expiresIn 900 and requires2FA false |
| Auth.AuthService.Generate2FACode | src/modules/auth/auth.service.ts:208-221 | stores encrypt(code) with an expiry of now+10 min, where code[i] is the digit bytes[i] % 10 |
| Auth.AuthService.Login | src/modules/auth/auth.service.ts:124-160 | an unverified e-mail is refused before 2FA is considered; with 2FA on, no session is created, the challenge is stored for 300 s and the response carries empty tokens, expiresIn 0 and the temp token; otherwise one session is appended, lastLoginAt is set to now and the access/refresh pair for that session is returned; every refusal leaves the tables unchanged |
| Auth.AuthService.Verify2FA | src/modules/auth/auth.service.ts:162-206 | on any failed check nothing changes; on success the code fields are cleared, the challenge key is deleted (so the same temp token cannot succeed twice) and one session is issued |
| Auth.AuthService.RefreshTokens | src/modules/auth/auth.service.ts:223-246 | a dead user is refused; otherwise the given session is removed when present (a missing one is tolerated) and one new session is issued |
| Auth.AuthService.Logout | src/modules/auth/auth.service.ts:248-261 | with a session id only that session goes, with no owner check; without one every session of the user goes and no other |
| Auth.AuthService.VerifyEmail | src/modules/auth/auth.service.ts:263-297 | on success only the matched user changes: verified, token and expiry cleared; otherwise no change |
| Auth.AuthService.ResendVerification | src/modules/auth/auth.service.ts:299-329 | an unknown e-mail gets the generic message with no write; a verified one gets "Email is already verified"; otherwise a fresh sealed token with a 24 h expiry is stored |
| Auth.AuthService.ForgotPassword | src/modules/auth/auth.service.ts:331-356 | the same message is returned whether or not the account exists; an existing account gets a sealed reset token valid for one hour |
| Auth.AuthService.ResetPassword | src/modules/auth/auth.service.ts:358-402 | follows `FirstResetMatch` over the live candidates: a decrypt failure or no match is returned with no change; on the first match the reset succeeds, that user's hash is replaced, reset fields cleared and all of that user's sessions deleted |
| Auth.CodeOf | src/common/utils/crypto.util.ts:58-68 | the 2FA code has one character per byte, character i being the digit bytes[i] % 10 |
| Users.ApplyProfile | src/modules/users/users.service.ts:96-128 | only firstName, lastName, phone and avatar change, each to the given value when one is given |
| Users.Anonymized | src/modules/users/users.service.ts:301-316 | the e-mail becomes deleted_<id>@deleted.local, the user is inactive and soft-deleted at now, the password hash is empty and the phone, avatar, token and code fields are null |
| Users.AnonymizedLocksOut | src/modules/users/users.service.ts:301-316 | an anonymised user can neither refresh tokens nor pass validateUser |
| Users.SessionsNewestFirst | src/modules/users/users.service.ts:240-254 | exactly the user's sessions, newest first |
| Users.OwnedSession | src/modules/users/users.service.ts:257-262 | found iff a session with that id belongs to that user |
| Users.OwnedSessionIsThatSession | src/modules/users/users.service.ts:257-269 | the owned session found is the very session that is deleted by id |
| Users.AccountDeletionEffect | src/modules/users/users.service.ts:298-347 | the transaction fails iff another account already holds the anonymised address; on success the user's row is the anonymised one and the user has no session left |
| Users.AccountDeletionKeepsOthers | src/modules/users/users.service.ts:298-347 | only that user's sessions and cards are deleted, every other user stays, and the user's subscription, when there is one, is cancelled at now |
| Users.AccountDeletionValid | src/modules/users/users.service.ts:298-347 | account deletion keeps the store invariant |
| Users.UsersService.UpdateProfile | src/modules/users/users.service.ts:96-128 | a missing user gives NotFound; otherwise the stored user becomes ApplyProfile of it |
| Users.UsersService.UpdatePassword | src/modules/users/users.service.ts:130-161 | missing user gives NotFound, wrong current password gives Unauthorized with no change; success stores the new hash and deletes all of the user's sessions |
| Users.UsersService.Enable2FA | src/modules/users/users.service.ts:189-208 | already enabled gives BadRequest; otherwise only twoFactorEnabled is set |
| Users.UsersService.Disable2FA | src/modules/users/users.service.ts:210-238 | "not enabled" is checked before the password; success clears twoFactorEnabled, the code and its expiry |
| Users.UsersService.GetSessions | src/modules/users/users.service.ts:240-254 | exactly the views of the user's sessions (as a multiset), ordered by createdAt descending |
| Users.ViewsOfPermutation | src/modules/users/users.service.ts:240-254 | reordering sessions reorders their views: equal multisets of sessions give equal multisets of views |
| Users.UsersService.DeleteSession | src/modules/users/users.service.ts:256-270 | NotFound unless the session belongs to the user; another user's session is never deleted |
| Users.UsersService.DeleteAllSessions | src/modules/users/users.service.ts:272-278 | all and only the user's sessions are deleted |
| Users.UsersService.DeleteAccount | src/modules/users/users.service.ts:280-352 | missing user gives NotFound and a wrong password gives Unauthorized, both with no change; otherwise the deletion transaction is applied |
| JwtStrategies.RefreshSecret | src/modules/auth/strategies/jwt-refresh.strategy.ts:18-21 | construction fails iff the refresh secret is undefined or empty |
| JwtStrategies.AccessSecret | src/modules/auth/strategies/jwt.strategy.ts:15-18 | construction fails iff the access secret is undefined or empty |
| JwtStrategies.ValidateAccess | src/modules/auth/strategies/jwt.strategy.ts:27-54 | accepted iff the user exists and is live; id, e-mail and role come from the stored user, and null tenant fields map to undefined |
| JwtStrategies.ValidateRefreshOrder | src/modules/auth/strategies/jwt-refresh.strategy.ts:31-68 | refusals in order: no body token, no session, token mismatch, session expired, owner not live; on success sub, sessionId and the presented token are returned unchanged |
| JwtStrategies.IssuedSessionRefreshes | src/modules/auth/strategies/jwt-refresh.strategy.ts:35-67 | a stored, unexpired session of a live user passes refresh validation with its own refresh token (when that token is non-empty) |
| PlanLimit.TenantOf | src/common/guards/plan-limit.guard.ts:80-93 | the tenant is companyId, else employeeOfId, else none |
| PlanLimit.SubscriptionFor | src/common/guards/plan-limit.guard.ts:80-93 | the company's subscription for a tenant user, else the user's own |
| PlanLimit.CurrentCount | src/common/guards/plan-limit.guard.ts:95-120 | employees are counted per company and are 0 without one; the count never exceeds the table size |
| PlanLimit.EffectiveLimit | src/common/guards/plan-limit.guard.ts:58-69 | override ?? plan limit for the chosen type, so an override of 0 stays 0 |
| PlanLimit.CanActivateDecision | src/common/guards/plan-limit.guard.ts:33-78 | no metadata or no user allows; no subscription gives Forbidden; otherwise the guard rejects iff the effective limit is set and count >= limit |
| PlanLimit.ZeroOverrideBlocks | src/common/guards/plan-limit.guard.ts:58-77 | an override of 0 always rejects |
| PlanLimit.UnlimitedNeverBlocks | src/common/guards/plan-limit.guard.ts:58-77 | no override and a null plan limit always allows |
| PlanLimit.SameTenantSameEmployeeDecision | src/common/guards/plan-limit.guard.ts:95-120 | two users of the same tenant get the same employee-limit decision |
| Cards.CheckCardLimit | src/modules/cards/cards.service.ts:354-388 | no subscription gives Forbidden; max = override ?? plan maxCards; rejects iff max is set and the caller's own card count >= max |
| Cards.CardLimitCountsOwnCardsOnly | src/modules/cards/cards.service.ts:365-367 | another member's new card never changes the caller's card-limit decision, although it raises the company's count |
| Cards.ChildKeys | src/modules/cards/cards.service.ts:399-401 | the child-list keys present in the request are exactly those of the lists provided |
| Cards.ProvidedKeys | src/modules/cards/cards.service.ts:399-401 | the provided keys are exactly the defined scalar fields and the provided child lists |
| Cards.ValidateLockedFields | src/modules/cards/cards.service.ts:390-412 | Forbidden iff the employer exists and some provided key is locked; passes when there is no company |
| Cards.LockedKeyBlocks | src/modules/cards/cards.service.ts:403-411 | providing a locked column, or a locked child list, is refused |
| Cards.PhonesFrom | src/modules/cards/cards.service.ts:241-248 | one phone row per input, keeping type, number and label, with order = given order ?? index |
| Cards.EmailsFrom | src/modules/cards/cards.service.ts:249-256 | one e-mail row per input with order = given order ?? index |
| Cards.SocialLinksFrom | src/modules/cards/cards.service.ts:257-264 | one social-link row per input with order = given order ?? index |
| Cards.CustomLinksFrom | src/modules/cards/cards.service.ts:265-272 | one custom-link row per input with order = given order ?? index |
| Cards.StoredPhoneOrdersNonNegative | src/modules/cards/cards.service.ts:61-92 | validated non-negative orders give non-negative stored orders |
| Cards.CreateCheckOrder | src/modules/cards/cards.service.ts:21-28 | the card limit is checked first; the locked-field check runs only for an employee |
| Cards.SlugCandidates | src/modules/cards/cards.service.ts:31-39 | one card slug candidate per generated id |
| Cards.NewCardShape | src/modules/cards/cards.service.ts:41-109 | the new card belongs to the caller and to companyId ‖ employeeOfId, carries exactly the given fields and one CREATE history entry by the caller |
| Cards.Column | src/modules/cards/cards.service.ts:214 | a column reads as the stored value or as absent |
| Cards.UpdateData | src/modules/cards/cards.service.ts:213-218 | the update data holds exactly the fields whose given value is defined and differs from the stored one, with the given value |
| Cards.ChangesOverMeaning | src/modules/cards/cards.service.ts:207-218 | the loop over the field list records a change for a field iff it is listed and differs, with old and new values |
| Cards.DiffMeaning | src/modules/cards/cards.service.ts:203-218 | changes name exactly the differing fields with before and after; no changes iff every given value equals the stored one |
| Cards.UpdateDataSuffices | src/modules/cards/cards.service.ts:237-240 | writing only the differing fields gives the same row as writing all given fields |
| Cards.UpdateHistoryRule | src/modules/cards/cards.service.ts:282-292 | an UPDATE history entry with the diff is appended iff some field differs; child-only edits add no history |
| Cards.UpdatedCardContent | src/modules/cards/cards.service.ts:221-280 | fields are overwritten by the given ones, identity and status are kept, and a child list that is not provided is untouched (a provided one replaces the stored list) |
| Cards.RecentHistory | src/modules/cards/cards.service.ts:340-344 | min(50, n) entries of the card's history (a sub-multiset), newest first, and no entry left out is newer than the last one returned; all of it when there are at most 50 |
| Cards.NewestPrefix | src/modules/cards/cards.service.ts:340-344 | a prefix of a newest-first list is newest first, and every entry after it is no newer than its last entry |
| Cards.CardsService.ChooseSlug | src/modules/cards/cards.service.ts:31-39 | the slug loop returns the first free candidate among at most 6, or the last one when all are taken |
| Cards.CardsService.Create | src/modules/cards/cards.service.ts:21-110 | a failing check leaves the store unchanged; otherwise exactly the new card with the chosen slug is appended |
| Cards.CardsService.FindOne | src/modules/cards/cards.service.ts:154-180 | found iff a card with that id belongs to the caller; otherwise NotFound |
| Cards.UpdateDataOverMeaning | src/modules/cards/cards.service.ts:207-218 | the loop writes a column for a field iff it is listed and differs, with the body's value |
| Cards.UpdateDataOverAll | src/modules/cards/cards.service.ts:203-218 | over the whole field list the loop's columns are exactly the differing fields |
| Cards.CardsService.ComputeChanges | src/modules/cards/cards.service.ts:203-218 | the field loop builds exactly the diff and the update data |
| Cards.CardsService.ApplyUpdate | src/modules/cards/cards.service.ts:221-292 | the transaction body produces the updated card: changed columns, each provided child list replaced, an UPDATE entry only when a column changed |
| Cards.CardsService.Update | src/modules/cards/cards.service.ts:182-298 | NotFound unless the caller owns the card; a locked-field violation changes nothing; otherwise only that card is replaced by its updated version |
| Cards.CardsService.Remove | src/modules/cards/cards.service.ts:300-312 | NotFound unless owned; otherwise exactly that card disappears |
| Cards.CardsService.UpdateStatus | src/modules/cards/cards.service.ts:314-329 | NotFound unless owned; otherwise only isActive of that card changes |
| Cards.CardsService.GetHistory | src/modules/cards/cards.service.ts:331-347 | NotFound unless owned; otherwise `RecentHistory` of the owned card's history |
| Cards.CardsService.CheckSlugAvailability | src/modules/cards/cards.service.ts:349-352 | available iff no card has that slug |
| Companies.EnsureCompanyAdmin | src/modules/companies/companies.service.ts:321-325 | Forbidden iff companyId is absent; otherwise the company id |
| Companies.CurrentCompany | src/modules/companies/companies.service.ts:99-129 | companyId ‖ employeeOfId; no tenant gives "No company associated with user", a missing row "Company not found" |
| Companies.LockedFieldsOf | src/modules/companies/companies.service.ts:164-177 | the tenant company's locked fields, or [] with no tenant or no company |
| Companies.ShownLocksAreEnforced | src/modules/companies/companies.service.ts:164-177 | for an employee, the locks shown are exactly the ones that block a card write |
| Companies.LockableAreFieldNames | src/modules/companies/dto/update-locked-fields.dto.ts:16-31 | the lockable list is the fourteen card columns, in order |
| Companies.LockableAreColumns | src/modules/companies/dto/update-locked-fields.dto.ts:16-31 | a name is lockable iff it is a card column; no child list can be locked |
| Companies.ChildKeysNotLockable | src/modules/companies/dto/update-locked-fields.dto.ts:16-31 | phones, emails, socialLinks and customLinks are not lockable |
| Companies.ValidateLockedFieldsDto | src/modules/companies/dto/update-locked-fields.dto.ts:10-13 | accepted iff at most 50 entries, unchanged |
| Companies.InvalidFields | src/modules/companies/companies.service.ts:183-185 | exactly the entries not in the lockable list |
| Companies.LockedFieldsCheck | src/modules/companies/companies.service.ts:179-191 | non-admin gives Forbidden; otherwise accepted iff every entry is lockable, else BadRequest listing the invalid ones |
| Companies.LocksReachColumnsOnly | src/modules/cards/cards.service.ts:390-412 | when stored locks are lockable names, a card write is refused iff it sets a locked column |
| Companies.MemberOf | src/modules/companies/companies.service.ts:258-263 | found iff a user with that id is employed by the company |
| Companies.Released | src/modules/companies/companies.service.ts:270-277 | a removed member loses employer and department and becomes INDIVIDUAL |
| Companies.RemoveMemberCheck | src/modules/companies/companies.service.ts:250-267 | checks run as: not admin (Forbidden), removing oneself (BadRequest), not a member (NotFound) |
| Companies.DepartmentCheck | src/modules/companies/companies.service.ts:282-311 | not admin, then not a member, then a non-null department that is not the company's gives NotFound; null is accepted |
| Companies.RemovalCountsOneEmployeeFewer | src/modules/companies/companies.service.ts:250-280 | removing a member lowers the company's employee count by exactly one and the member is no longer found in the company |
| Companies.ReleasedNotEmployed | src/modules/companies/companies.service.ts:269-277 | after the release no row with the member's id is an employee of any company |
| Companies.AdministeredCompany | src/modules/companies/companies.service.ts:26-30 | the company the user administers, if any |
| Companies.CompanySlugCandidates | src/modules/companies/companies.service.ts:36-45 | the first candidate is the plain company slug and each retry appends "-" and the clock in base 36 |
| Companies.RetriesDifferByClock | src/modules/companies/companies.service.ts:41-42 | two retries give the same slug iff they read the same clock value |
| Companies.CompanyCreationSteps | src/modules/companies/companies.service.ts:59-94 | the transaction succeeds iff id and slug are free and the user exists, and then equals the three writes in order: company and trial appended, user made admin, the user's own subscriptions deleted |
| Companies.CompanyCreationEffect | src/modules/companies/companies.service.ts:56-94 | the company is appended and found under its id, the user is its ADMIN, every other user stays, and sessions, cards and plans are untouched |
| Companies.CompanyCreationSubscriptions | src/modules/companies/companies.service.ts:59-94 | the company's TRIAL subscription ends now+14 days; the user has no subscription left; every other subscription stays |
| Companies.CompanyCreationValid | src/modules/companies/companies.service.ts:59-94 | company creation keeps the store invariant |
| Companies.CompanyCreationKeepsPlansLinked | src/modules/companies/companies.service.ts:59-94 | every subscription still points at an existing plan |
| Companies.CompaniesService.ChooseSlug | src/modules/companies/companies.service.ts:36-45 | the retry loop returns the first free candidate among at most 6, or the last one |
| Companies.CompaniesService.CreateCompany | src/modules/companies/companies.service.ts:24-97 | an existing company gives BadRequest and a missing Pro plan gives BadRequest, with no write; otherwise the creation transaction is applied with the chosen slug |
| Companies.CompaniesService.UpdateLockedFields | src/modules/companies/companies.service.ts:179-199 | an invalid request changes nothing; otherwise the list is stored exactly as given |
| Companies.CompaniesService.RemoveMember | src/modules/companies/companies.service.ts:250-280 | a failing check changes nothing; otherwise only the member is released |
| Companies.CompaniesService.UpdateMemberDepartment | src/modules/companies/companies.service.ts:282-319 | a failing check changes nothing; otherwise only the member's department is set (null clears it) |
| PublicCard.ParseUserAgentIsPriorityTable | src/modules/public-card/public-card.service.ts:163-193 | device, browser and OS are each the first matching rule of a fixed priority table over the lower-cased agent |
| PublicCard.DevicePriority | src/modules/public-card/public-card.service.ts:171-174 | the device if-chain equals its priority table |
| PublicCard.BrowserPriority | src/modules/public-card/public-card.service.ts:177-182 | the browser if-chain equals its priority table |
| PublicCard.OsPriority | src/modules/public-card/public-card.service.ts:185-190 | the OS if-chain equals its priority table |
| PublicCard.ParseUserAgentIgnoresCase | src/modules/public-card/public-card.service.ts:168 | the classification does not depend on letter case |
| PublicCard.DeviceTypeMeaning | src/modules/public-card/public-card.service.ts:171-174 | tablet iff tablet/ipad; mobile iff not tablet and mobile/android/iphone; desktop otherwise |
| PublicCard.OsPriorityShadows | src/modules/public-card/public-card.service.ts:185-190 | an Android agent containing "linux" is Linux and an iPhone agent containing "mac" is macOS; Android and iOS are reported only without those words |
| PublicCard.BrowserExclusions | src/modules/public-card/public-card.service.ts:177-182 | Chrome only without "edg", Safari only without "chrome", and Edge for agents naming both edg and chrome |
| PublicCard.Truncate | src/modules/public-card/public-card.service.ts:66 | a prefix of at most n characters, the whole string when it fits |
| PublicCard.NewEvent | src/modules/public-card/public-card.service.ts:58-73 | the event stores type and card id, the agent ('' if missing) cut to 500 characters, ip and referer or null, and the parsed device, browser and OS |
| PublicCard.UserAgentOf | src/modules/public-card/public-card.service.ts:58 | the user agent when truthy, otherwise '' |
| PublicCard.Included | src/modules/public-card/public-card.service.ts:13-17 | each child list is a permutation of the stored one ordered by order ascending; nothing else changes |
| PublicCard.CompanyOf | src/modules/public-card/public-card.service.ts:18-28 | the card's company row when companyId is set and the row exists, none without a companyId |
| PublicCard.PublicCardView | src/modules/public-card/public-card.service.ts:10-41 | found iff the card with that slug exists and is active; otherwise "Card not found" |
| PublicCard.VCardFrame | src/modules/public-card/public-card.service.ts:102-107 | the lines start BEGIN:VCARD, VERSION:3.0, FN:first last, N:last;first;;; and end with END:VCARD |
| PublicCard.VCardContentFrame | src/modules/public-card/public-card.service.ts:154-157 | the CRLF-joined content starts with the BEGIN and VERSION lines and ends with CRLF END:VCARD |
| PublicCard.VCardPhonesAndEmails | src/modules/public-card/public-card.service.ts:117-135 | the TEL lines are one per phone in order and the EMAIL lines one per e-mail in order |
| PublicCard.TelLines | src/modules/public-card/public-card.service.ts:117-126 | one TEL line per phone, in the order given |
| PublicCard.EmailLines | src/modules/public-card/public-card.service.ts:128-135 | one EMAIL line per e-mail, in the order given |
| PublicCard.TelRendered | src/modules/public-card/public-card.service.ts:118-125 | a phone renders as TEL;TYPE=<MOBILE→CELL, others kept>:number |
| PublicCard.EmailRendered | src/modules/public-card/public-card.service.ts:129-134 | an e-mail renders as EMAIL;TYPE=<PERSONAL→HOME, others kept>:address |
| PublicCard.HeaderRendered | src/modules/public-card/public-card.service.ts:102-107 | the opening four lines are BEGIN:VCARD, VERSION:3.0, FN:first last and N:last;first;;; |
| PublicCard.TitleRendered | src/modules/public-card/public-card.service.ts:109-111 | TITLE:title when the job title is truthy, no line otherwise |
| PublicCard.OrgRendered | src/modules/public-card/public-card.service.ts:113-115 | ORG:name when the company name is truthy, no line otherwise |
| PublicCard.AddressRendered | src/modules/public-card/public-card.service.ts:137-148 | ADR;TYPE=WORK: and the ';'-joined components when street or city is set |
| PublicCard.PhotoRendered | src/modules/public-card/public-card.service.ts:150-152 | PHOTO;VALUE=uri:url when the photo is truthy |
| PublicCard.EndRendered | src/modules/public-card/public-card.service.ts:154 | the last line is END:VCARD |
| PublicCard.VCardTitleLine | src/modules/public-card/public-card.service.ts:109-111 | a TITLE line appears iff the job title is non-empty |
| PublicCard.VCardOrgLine | src/modules/public-card/public-card.service.ts:113-115 | an ORG line appears iff the company name is non-empty |
| PublicCard.VCardAddressLine | src/modules/public-card/public-card.service.ts:137-148 | an ADR line appears iff street or city is set |
| PublicCard.VCardPhotoLine | src/modules/public-card/public-card.service.ts:150-152 | a PHOTO line appears iff the profile photo is non-empty |
| PublicCard.AddressRoundTrip | src/modules/public-card/public-card.service.ts:138-146 | the address has 7 components, the first two empty, and splitting the joined value on ';' gives them back when no component contains ';' |
| PublicCard.VCardFileName | src/modules/public-card/public-card.service.ts:156-160 | the filename is first-last.vcf and the content type text/vcard |
| PublicCard.BuildLines | src/modules/public-card/public-card.service.ts:102-154 | pushing line by line produces exactly the rendered vCard line list |
| PublicCard.PushTelLines | src/modules/public-card/public-card.service.ts:117-126 | the phone loop appends exactly the rendered TEL lines |
| PublicCard.PushEmailLines | src/modules/public-card/public-card.service.ts:128-135 | the e-mail loop appends exactly the rendered EMAIL lines |
| PublicCard.PushClosing | src/modules/public-card/public-card.service.ts:137-154 | appends the rendered ADR, PHOTO and END lines |
| PublicCard.PublicCardService.TrackEvent | src/modules/public-card/public-card.service.ts:43-76 | NotFound only for a missing card (an inactive card is still tracked); otherwise exactly one event is appended |
| PublicCard.PublicCardService.GetCardBySlug | src/modules/public-card/public-card.service.ts:10-41 | returns the public view; a successful view appends one VIEW event and a refusal writes nothing |
| PublicCard.PublicCardService.GenerateVCard | src/modules/public-card/public-card.service.ts:78-161 | NotFound for an absent or inactive card; otherwise the vCard file of the card and one VCARD_DOWNLOAD event |
| Redis.Lookup | src/redis/redis.service.ts:39-41 | a key is visible iff it is stored and not past its expiry |
| Redis.IncrIn | src/redis/redis.service.ts:74-76 | INCR: succeeds iff the live value is absent, an integer or canonical 64-bit decimal text, below the maximum; the new count is the old one plus 1 (1 when absent), the expiry is kept, every other key is untouched; each refusal carries Redis's message |
| Redis.CounterOf | src/redis/redis.service.ts:74-76 | the counter a value stands for is a signed 64-bit integer; a set stands for none |
| Redis.IncrThenGet | src/redis/redis.service.ts:74-76 | GET right after INCR reads the new count back as decimal text |
| Redis.IncrAfterSetText | src/redis/redis.service.ts:74-76 | INCR on a key SET to the decimal text of n counts on to n + 1 |
| Text.ParseIntegerOfIntToString | src/redis/redis.service.ts:74-76 | reading back the decimal text of an integer gives the integer |
| Text.NatToStringCanonical | src/redis/redis.service.ts:74-76 | the decimal text of a natural number is canonical (no leading zero) and denotes the number |
| Redis.TtlIn | src/redis/redis.service.ts:117-135 | TTL is -2 for a missing key, -1 for a key without expiry, otherwise non-negative |
| Redis.SetIn | src/redis/redis.service.ts:43-49 | a set fails only for a negative TTL |
| Redis.RetryDelay | src/redis/redis.service.ts:15-18 | min(times·50, 2000): never above 2000 ms, linear up to 40 attempts |
| Redis.GetAfterSet | src/redis/redis.service.ts:39-49 | get returns the value set until its TTL runs out; a TTL of 0 or none never runs out |
| Redis.SetStoresExpiry | src/redis/redis.service.ts:43-49 | a truthy TTL stores an expiry and a TTL of 0 or none stores none |
| Redis.SetLeavesOtherKeys | src/redis/redis.service.ts:43-49 | a set changes no other key |
| Redis.GetAfterDel | src/redis/redis.service.ts:51-53 | after del the key reads null and other keys are unchanged |
| Redis.GetJsonAfterSetJson | src/redis/redis.service.ts:60-72 | getJson returns what setJson stored when parse undoes stringify |
| Redis.GetJsonEmpty | src/redis/redis.service.ts:64-72 | an absent or empty value reads as null |
| Redis.KeyspacesDisjoint | src/redis/redis.service.ts:94-117 | session keys, session-index keys and rate-limit keys never collide |
| Redis.SessionKeyInjective | src/redis/redis.service.ts:94-96 | distinct session ids give distinct keys |
| Redis.SetSessionEffect | src/redis/redis.service.ts:94-97 | the session key maps to the user while live and the id is in the user's index |
| Redis.DeleteSessionEffect | src/redis/redis.service.ts:103-106 | the session key is gone and the id is no longer in the index |
| Redis.DeleteAllUserSessionsEffect | src/redis/redis.service.ts:108-114 | every indexed session key and the index itself are deleted, and no other key changes |
| Redis.RunInsideWindow | src/redis/redis.service.ts:117-135 | within one window the i-th further call is allowed iff count+i+1 <= limit |
| Redis.AtMostLimitPerWindow | src/redis/redis.service.ts:117-135 | any run of calls inside one window is allowed at most max(0, limit) times |
| Redis.CountAllowedBound | src/redis/redis.service.ts:117-135 | a run whose i-th answer is allowed iff base+i+1 <= limit allows at most max(0, limit − base) calls |
| Redis.RateLimitAnswer | src/redis/redis.service.ts:117-135 | allowed iff count <= limit, remaining = max(0, limit − count), a positive resetIn, and the expiry set when the counter becomes 1 |
| Redis.RedisService.Set | src/redis/redis.service.ts:43-49 | the store becomes the result of the set |
| Redis.RedisService.Del | src/redis/redis.service.ts:51-53 | the key is removed |
| Redis.RedisService.Increment | src/redis/redis.service.ts:74-76 | the counter is incremented and its new value returned |
| Redis.RedisService.Expire | src/redis/redis.service.ts:78-80 | the store becomes the result of EXPIRE on the key |
| Redis.RedisService.SetSession | src/redis/redis.service.ts:94-97 | stores the session key and adds the id to the user's index |
| Redis.RedisService.DeleteSession | src/redis/redis.service.ts:103-106 | undoes both writes of setSession |
| Redis.RedisService.DeleteAllUserSessions | src/redis/redis.service.ts:108-114 | the loop deletes every listed session key, then the index |
| Redis.RedisService.CheckRateLimit | src/redis/redis.service.ts:117-135 | the store and the answer are those of one rate-limit step |
| CryptoUtil.HexEncode | src/common/utils/crypto.util.ts:30 | two lower-case hex characters per byte |
| CryptoUtil.HexRoundTrip | src/common/utils/crypto.util.ts:42-43 | decoding hex gives back the encoded bytes |
| CryptoUtil.LowerHexHasNoColon | src/common/utils/crypto.util.ts:30 | hex fields never contain ':' |
| CryptoUtil.GetEncryptionKey | src/common/utils/crypto.util.ts:12-18 | fails unless ENCRYPTION_KEY is present and exactly 64 characters long |
| CryptoUtil.GenerateSecureToken | src/common/utils/crypto.util.ts:54-56 | 2n lower-case hex characters that decode to the random bytes |
| CryptoUtil.GenerateNumericCode | src/common/utils/crypto.util.ts:58-68 | the loop yields exactly n decimal digits, digit i being bytes[i] % 10 |
| CryptoUtil.BadKeyFailsBoth | src/common/utils/crypto.util.ts:20-34 | encrypt and decrypt both fail first on a bad key |
| CryptoUtil.EncryptShape | src/common/utils/crypto.util.ts:20-31 | the envelope splits into 3 hex fields, the first being the 16-byte IV as 32 characters |
| CryptoUtil.DecryptFormatCheck | src/common/utils/crypto.util.ts:33-39 | "Invalid encrypted text format" iff the text does not split into exactly 3 parts |
| CryptoUtil.DecryptEncrypt | src/common/utils/crypto.util.ts:20-52 | decrypt(encrypt(x)) == x given the GCM law |
| CryptoUtil.NumericCodeBias | src/common/utils/crypto.util.ts:64 | byte % 10 maps 26 byte values to each digit 0-5 and 25 to each of 6-9 |
| CryptoUtil.BytesMappingToFormula | src/common/utils/crypto.util.ts:64 | among byte values below n, (n + 9 − d) / 10 map to digit d |
| Pagination.PageOf | src/common/utils/pagination.util.ts:14 | page >= 1; absent, 0 or negative becomes 1 |
| Pagination.OrDefault | src/common/utils/pagination.util.ts:14-15 | the `x \|\| d` fallback: d for absent or 0, x otherwise |
| Pagination.CeilDiv | src/common/utils/pagination.util.ts:30 | Math.ceil(a / b) for positive b: the least q with a <= q·b |
| Pagination.LimitOf | src/common/utils/pagination.util.ts:15 | 1 <= limit <= 100; absent or 0 becomes 10, negative becomes 1 |
| Pagination.GetPaginationParams | src/common/utils/pagination.util.ts:13-21 | take = limit and skip = (page−1)·limit, a non-negative multiple of take |
| Pagination.CreatePaginatedResult | src/common/utils/pagination.util.ts:23-45 | data and total unchanged, page and limit normalised as in getPaginationParams |
| Pagination.PaginationMetaMeaning | src/common/utils/pagination.util.ts:30-38 | hasNextPage iff page·limit < total, hasPreviousPage iff page > 1, total 0 gives 0 pages and no next page |
| Pagination.ParamsAgreeWithMeta | src/common/utils/pagination.util.ts:13-29 | both functions normalise page and limit identically |
| Slug.GenerateSlug | src/common/utils/slug.util.ts:4-15 | slugify(text) + '-' + the 6-character id |
| Slug.CardSlugsDifferByIdOnly | src/common/utils/slug.util.ts:25-28 | card slugs start with slugify(first-last) and are equal iff their ids are |
| Slug.ChosenSlugMeaning | src/modules/cards/cards.service.ts:31-39 | the chosen slug is a candidate; when some candidate is free it is the first free one |
| Slug.FirstFreeFrom | src/modules/cards/cards.service.ts:31-39 | the index reached after skipping taken candidates: all before it are taken, and it is free unless it is the last |
| Slug.SlugPatternMeaning | src/common/utils/slug.util.ts:31 | the pattern accepts exactly lower-case letters, digits and single inner hyphens, with no leading, trailing or doubled hyphen |
| Slug.RunAccepts | src/common/utils/slug.util.ts:31 | the matcher for ^[a-z0-9]+(?:-[a-z0-9]+)*$ accepts from a mid-word state iff the rest has only word characters and hyphens, no doubled or trailing hyphen |
| Slug.ValidSlugLength | src/common/utils/slug.util.ts:30-33 | valid slugs are 3 to 100 characters long and well formed |
| Sanitize.NormalizedEmailShape | src/common/utils/sanitize.util.ts:28-30 | the normalised e-mail has no surrounding whitespace and no upper-case letter |
| Sanitize.NormalizeEmailIdempotent | src/common/utils/sanitize.util.ts:28-30 | normalising twice is normalising once |
| Sanitize.NormalizePhoneNumber | src/common/utils/sanitize.util.ts:32-35 | only digits and '+' remain and the result is no longer than the input |
| Sanitize.NormalizePhoneKeepsPhoneChars | src/common/utils/sanitize.util.ts:32-35 | every digit and '+' of the input is kept, as often as it occurs |
| Sanitize.NormalizePhoneIsSubsequence | src/common/utils/sanitize.util.ts:32-35 | the result is an in-order subsequence of the input |
| Sanitize.NormalizePhoneFixpoint | src/common/utils/sanitize.util.ts:32-35 | a string of digits and '+' is returned unchanged |
| Sanitize.NormalizePhoneIdempotent | src/common/utils/sanitize.util.ts:32-35 | normalising twice is normalising once |
| RegisterDto.PasswordAcceptedIffPolicy | src/modules/auth/dto/register.dto.ts:27-36 | no password message iff 8-100 characters with lower, upper, digit and special, all from the allowed set |
| RegisterDto.PasswordWithForeignCharRejected | src/modules/auth/dto/register.dto.ts:31 | a character outside letters, digits and the specials (a space, say) is rejected |
| RegisterDto.ValidateRegister | src/modules/auth/dto/register.dto.ts:13-88 | an accepted DTO has a lower-cased trimmed e-mail, a policy-conforming password, trimmed non-empty names of at most 100, a phone of at most 20 and a language of at most 5 |
| RegisterDto.RegisterAcceptedWhenValid | src/modules/auth/dto/register.dto.ts:13-88 | every input meeting those bounds is accepted |
| RegisterDto.AcceptedRegisterIsNormalized | src/modules/auth/dto/register.dto.ts:19-58 | accepted e-mail and names are trimmed and the e-mail has no upper-case letter |
| CardDto.HexColorIgnoresCase | src/modules/cards/dto/create-card.dto.ts:184 | hex colours are accepted in either case |
| CardDto.HexColorShape | src/modules/cards/dto/create-card.dto.ts:184-190 | a colour is '#' and 3 or 6 hex digits |
| CardDto.ValidateCreateCard | src/modules/cards/dto/create-card.dto.ts:114-227 | accepted iff every field and child passes; the content is transformed and every child list (phones, e-mails, social and custom links) is kept one for one, each element the accepted form of the raw one |
| CardDto.TransformContent | src/modules/cards/dto/create-card.dto.ts:115-127 | the trim transforms keep the same set of given fields |
| CardDto.AcceptedField | src/modules/cards/dto/create-card.dto.ts:114-197 | every given field of an accepted card passes its own field rule after transformation |
| CardDto.AcceptedCardNames | src/modules/cards/dto/create-card.dto.ts:115-127 | accepted names are trimmed, non-empty and at most 100 |
| CardDto.AcceptedCardTextBounds | src/modules/cards/dto/create-card.dto.ts:129-197 | jobTitle <= 200, bio <= 1000, street <= 255, zip <= 20, city/state/country/font <= 100, colours are hex colours |
| CardDto.AcceptedChildBounds | src/modules/cards/dto/create-card.dto.ts:23-51 | phone numbers are 1-30 characters and e-mails 1-255 |
| CardDto.AcceptedChildDefaults | src/modules/cards/dto/create-card.dto.ts:19-45 | a missing phone type is MOBILE, a missing e-mail type WORK, and every given order is >= 0 |
| Store.CreateUser | src/modules/auth/auth.service.ts:76-96 | the insert succeeds iff id and e-mail are new, and appends exactly the user |
| Store.UpdateUser | src/modules/users/users.service.ts:301-316 | the update succeeds iff the user exists and the e-mail stays unique |
| Store.SetUserFound | src/modules/users/users.service.ts:105-125 | after an update the user is found by id with the new content |
| Store.CreateSession | src/modules/auth/auth.service.ts:488-500 | succeeds iff the id is new and the user exists |
| Store.DeleteSession | src/modules/auth/auth.service.ts:238-242 | succeeds iff the session exists and removes exactly it |
| Store.DeleteSessionsOf | src/modules/auth/auth.service.ts:257-259 | removes all and only the user's sessions |
| Store.DeleteCardsOf | src/modules/users/users.service.ts:324-326 | removes all and only the user's cards |
| Store.CreateCard | src/modules/cards/cards.service.ts:42-109 | succeeds iff id and slug are new; a taken slug is a unique-constraint error |
| Store.UpdateCard | src/modules/cards/cards.service.ts:237-280 | succeeds iff the card exists and its slug stays unique; only that row is replaced |
| Store.OwnedCard | src/modules/cards/cards.service.ts:183-195 | found iff a card with that id belongs to that user |
| Store.DeleteCard | src/modules/cards/cards.service.ts:307-309 | succeeds iff the card exists and removes exactly it |
| Store.CreateCompany | src/modules/companies/companies.service.ts:62-77 | succeeds iff id and slug are new |
| Store.UpdateCompany | src/modules/companies/companies.service.ts:193-196 | succeeds iff the company exists and its slug stays unique |
| Store.DeleteSubscriptionsOf | src/modules/companies/companies.service.ts:89-91 | removes all and only the user's subscriptions |
| Store.DepartmentOf | src/modules/companies/companies.service.ts:301-306 | found iff a department with that id belongs to the company |
| Store.CreateUserValid | src/modules/auth/auth.service.ts:76-96 | inserting a user keeps the store invariant |
| Store.UpdateUserValid | src/modules/users/users.service.ts:96-128 | updating a user keeps the store invariant |
| Store.CreateSessionValid | src/modules/auth/auth.service.ts:488-500 | inserting a session keeps the store invariant |
| Store.DeleteSessionValid | src/modules/auth/auth.service.ts:238-242 | deleting a session keeps the store invariant |
| Store.DeleteSessionsOfValid | src/modules/auth/auth.service.ts:257-259 | deleting a user's sessions keeps the store invariant |
| Store.DeleteCardsOfValid | src/modules/users/users.service.ts:324-326 | deleting a user's cards keeps the store invariant |
| Store.CreateCardValid | src/modules/cards/cards.service.ts:42-109 | inserting a card keeps the store invariant |
| Store.UpdateCardValid | src/modules/cards/cards.service.ts:237-280 | updating a card keeps the store invariant |
| Store.DeleteCardValid | src/modules/cards/cards.service.ts:307-309 | deleting a card keeps the store invariant |
| Store.CreateCompanyValid | src/modules/companies/companies.service.ts:62-77 | inserting a company keeps the store invariant |
| Store.UpdateCompanyValid | src/modules/companies/companies.service.ts:193-196 | updating a company keeps the store invariant |
| Store.UpdateCompanyKeepingSlug | src/modules/companies/companies.service.ts:193-196 | an update that keeps the slug always succeeds |
| Text.Split | src/common/utils/crypto.util.ts:35 | split yields at least one part, none containing the separator |
| Text.SplitJoin | src/modules/public-card/public-card.service.ts:146 | splitting a join gives back the parts when none contains the separator |
| Text.Base36RoundTrip | src/modules/companies/companies.service.ts:42 | the base-36 rendering of a number decodes back to it |
| Text.Base36Injective | src/modules/companies/companies.service.ts:42 | distinct numbers have distinct base-36 renderings |
| Text.TrimLowerCommute | src/common/utils/sanitize.util.ts:28-30 | trimming and lower-casing commute |
| Text.Lower | src/common/utils/sanitize.util.ts:29 | same length, each character lower-cased |
| Text.LowerHasNoUpper | src/common/utils/sanitize.util.ts:29 | a lower-cased string has no upper-case letter |
| Text.LowerIdempotent | src/common/utils/sanitize.util.ts:29 | lower-casing twice is lower-casing once |
| Text.TrimIdempotent | src/common/utils/sanitize.util.ts:29 | trimming twice is trimming once |
| Text.SplitCount | src/common/utils/crypto.util.ts:35-39 | split yields one more part than there are separators |
| Text.SplitThree | src/common/utils/crypto.util.ts:30-35 | three separator-free fields joined by ':' split back into those three |
| Text.ToBase36 | src/modules/companies/companies.service.ts:42 | Number.toString(36): non-empty, digits and lower-case letters only |
| Text.Utf16Length | src/common/utils/crypto.util.ts:14 | the JavaScript length is between the code-point count and twice it |
| Wrappers.OrUndefined | src/modules/auth/strategies/jwt.strategy.ts:50-52 | `x \|\| undefined`: present iff x is truthy, then x itself |
| Wrappers.OrElse | src/modules/cards/cards.service.ts:60 | `a \|\| b`: a when truthy, otherwise b |

## Left out

- Controllers, modules, bootstrap, filters, interceptors, configuration and seeding are not part of this model;
  they route requests and format responses.
- The Prisma schema is not part of this model. Column defaults are taken from the code: a new card is active and
  a new company has no locked fields. Unique constraints are those the code relies on (user e-mail, card slug,
  company slug). Foreign keys from cards to companies and the uniqueness of a subscription per owner are not
  tracked; `Store.Valid` checks only that sessions point at users.
- AES-256-GCM, SHA-256, bcrypt, JWT signing, slugify, nanoid and cuid are parameters. Only the law that decryption
  undoes encryption is stated, as a precondition of `CryptoUtil.DecryptEncrypt`.
- Auth.AuthService.Register: validation of the register DTO is a separate function (`RegisterDto.ValidateRegister`)
  and is not re-checked here; calendar arithmetic (`setDate(+14)`) is modelled as 14·86 400 000 ms.
- Companies.CompaniesService.CreateCompany: the same calendar simplification applies. "Already administers a
  company" is read as the user's companyId naming an existing company, the inverse of the `admin` relation the
  query uses. The create-company DTO validation is not part of this model.
- The retry loops take their random ids and their clock readings as parameters (`ids`, `stamps`). Within one
  millisecond, company slug retries repeat the same candidate (`Companies.RetriesDifferByClock`).
- Cards.CheckCardLimit: the count is the caller's own cards, as the code has it, although the subscription is the
  company's. `Cards.CardLimitCountsOwnCardsOnly` states the consequence: another member's card never changes the
  caller's decision.
- Cards.ProvidedKeys: the keys come in a fixed order, the card's columns first and then the child lists; the code
  takes them in the request body's own key order, which the model does not carry. Only the order of the names in
  the locked-fields error message depends on it, not whether the request is refused.
- Card locking: the lockable list holds only card columns, so a company can never lock the child lists (phones,
  e-mails, links); `Companies.LockableAreColumns` states this.
- User-agent classification: an Android agent that also says "linux" is reported as Linux, and an iPhone agent
  that also says "mac" as macOS; `PublicCard.OsPriorityShadows` states the priority as written.
- Text is Unicode code points. `toLowerCase` is modelled for ASCII letters only, and `substring(0, 500)` counts
  code points rather than UTF-16 units; DTO length bounds are applied to the model's code-point length.
- vCard values are written as the code writes them, without the escaping of section 4 of RFC 2426.
- The `|| 'CELL'` and `|| 'WORK'` fallbacks in the vCard type maps are unreachable with the closed phone and
  e-mail enumerations of the model, which maps every enumerator.
- The analytics `metadata` column is always `{}` in the calls and is not stored.
- Read-only projections (getProfile, getCurrentUser, getMembers, the findAll search, the `_count` and branding
  selections of getCurrentCompany and the public card) return records, not the selected column subsets.
  Ties between equal `createdAt` or `order` values may be broken differently.
- updateCompany, updateBranding, updateTemplate and updatePreferences are not part of this model; they copy request fields into one row.
- Redis `keys` and `deletePattern`, `exists`, `getSession` and the connection lifecycle are not part of this
  model; commands are sequential and atomic, and the fire-and-forget `trackEvent` calls complete before the
  caller returns.
- Logger output (including the secrets the code logs) and audit-log anonymisation are I/O outside this model.
- `IsEmail` and `IsUrl` are parameters of the validators.
- An explicit JSON `null` in an update DTO is not distinguished from an absent field.
- An empty-string `departmentId` is treated like any other non-null id when the update is written; only the
  department check skips it, as in the code.
