# Course platform backend: authentication and session pipeline in Dafny

This project models the authentication and session core of a course platform
backend written in TypeScript. It covers:

- **Registration.** The request is checked and an activation token carrying
  the pending user and a four-digit code is minted.
- **Activation.** The token is verified, the code compared, and the user
  created.
- **Login.** The password is checked, an access and a refresh token are
  issued, the session is cached and two cookies are set.
- **The request gate.** The token is taken from the cookie or from a `Bearer`
  header, verified, and the session read from the cache.
- **Logout and refresh.** Logout deletes the session; refresh rotates both
  tokens.
- **Small pieces.** The cache-aside user lookup, the error-to-response
  mapping, the error and response records, and the input sanitizer.
- **The store handlers.** Buying a course, the notification list and its
  read/unread transition, and the twelve-window analytics.

The signature scheme is ideal. `Tokens.Signer` records every token it mints in
order, and the n-th token string is `TokenText(n)`. A string verifies under a
secret exactly when it was minted under that secret. The clock is a parameter
`now`, in seconds. bcrypt is ideal too: a password matches exactly the digest
of its own plain text. The document store and the session cache are classes
whose fields are sequences or maps, updated by their methods.

Each handler returns `Result<Reply<…>, ApiError>`. `Reply` holds the HTTP
status, the cookies set and the JSON body. `ErrorsMiddleware.HandleError`
turns an `ApiError` into the response the client sees.

## Model

| member | source | states |
|---|---|---|
| ApiErrors.NewApiError | server/utils/ApiError.ts:42-61 | status stored as given; message defaults to "Something went wrong...", errors to an empty list; `success` is false and `data` null |
| ApiResponses.NewApiResponse | server/utils/ApiResponse.ts:31-37 | status and data stored as given; message defaults to "Success"; `success` holds iff the status is below 400 |
| ErrorsMiddleware.WithDefaults | server/middleware/errors.middleware.ts:16-17 | a missing or zero status becomes 500 and a missing or empty message "Internal Server Error"; any other status and message are kept |
| ErrorsMiddleware.HandleError | server/middleware/errors.middleware.ts:14-53 | the response is never a success and its HTTP status equals the body's status; an ApiError passes through unchanged; a cast error, a duplicate key, an invalid token or an expired token each become 400 with their own message; any other error keeps its status or gets 500, and keeps its message or gets "Internal Server Error" |
| Env.AccessTokenExpiry | server/utils/jwt.ts:41 | the configured access lifetime, or 300 s when unset |
| Env.RefreshTokenExpiry | server/utils/jwt.ts:42 | the configured refresh lifetime, or 1200 s when unset |
| Tokens.Lookup | server/middleware/auth.middleware.ts:35 | a string names a token iff it is the text of a minted one, and then it names exactly that token |
| Tokens.LookupAfterMint | server/models/user.models.ts:117-127 | minting makes the new text name the new token and changes what no other string names |
| Tokens.Verify | server/middleware/auth.middleware.ts:35 | verification succeeds iff the secret is configured, the token was signed under it and is unexpired, and yields the token's claims; "expired" is reported only for a correctly signed token; an empty string is "jwt must be provided" |
| Tokens.VerifyErrorMessage | server/middleware/auth.middleware.ts:55-56 | an expired token reports "jwt expired"; any other failure reports its own reason |
| Tokens.IdClaim | server/middleware/auth.middleware.ts:43 | `decoded._id` is present iff the claims are identity claims carrying `_id` |
| Tokens.Signer.Sign | server/models/user.models.ts:117-127 | an unset secret fails and mints nothing; with the secret set, an `expiresIn` given as `undefined` fails with the library's option error and mints nothing; otherwise exactly one token with the claims, secret and expiry is appended and its new text is returned |
| Text.TrimEmptyIffBlank | server/controllers/user.controller.ts:29 | `trim()` gives "" iff the string is made only of whitespace |
| Text.ReplaceFirstOfPrefixed | server/middleware/auth.middleware.ts:29 | removing the prefix "Bearer " from "Bearer " + t gives back t |
| Text.ParseDecimalString | server/controllers/user.controller.ts:102 | the decimal text of n reads back as n |
| Text.DecimalStringLength | server/controllers/user.controller.ts:102 | a number between 10^k and 10^(k+1) has k+1 digits |
| Text.ToLower | server/utils/sanitizeAuthInput.ts:36 | each ASCII capital becomes its small letter and every other character is kept, so the length is kept (ASCII only; see Left out) |
| SanitizeAuthInput.EncodeHTMLIsPerCharacter | server/utils/sanitizeAuthInput.ts:56-63 | the chain of six global replacements equals encoding each character on its own, so no entity is escaped twice |
| SanitizeAuthInput.EncodeHTMLOutput | server/utils/sanitizeAuthInput.ts:56-63 | the encoded text holds none of `< > " ' /` and is between one and six times as long as the input |
| SanitizeAuthInput.EncodeHTMLRoundTrip | server/utils/sanitizeAuthInput.ts:56-63 | decoding the entities of the encoded text gives the input back |
| SanitizeAuthInput.MergeField | server/utils/sanitizeAuthInput.ts:23-29 | an absent option takes the default; one spelled out, even as `undefined`, replaces it |
| SanitizeAuthInput.Allowed | server/utils/sanitizeAuthInput.ts:36 | a tag is kept iff its whole lower-cased text is a string entry of the allow list |
| SanitizeAuthInput.StripTagsLeavesNoTag | server/utils/sanitizeAuthInput.ts:32-41 | with no tag allowed, the result contains no tag |
| SanitizeAuthInput.StripTagsWithoutLt | server/utils/sanitizeAuthInput.ts:32-41 | text without `<` is left unchanged by tag stripping |
| SanitizeAuthInput.SanitizeDefault | server/utils/sanitizeAuthInput.ts:21-49 | with default options the result is the encoding of the tag-stripped input and holds none of `< > " ' /` |
| SanitizeAuthInput.SanitizeUnencodedPlainText | server/utils/sanitizeAuthInput.ts:44-48 | with encoding off (false or `undefined`), input without `<` is returned unchanged |
| SanitizeAuthInput.AllowListMatchesWholeTag | server/utils/sanitizeAuthInput.ts:35-40 | the allow entry "b" keeps nothing, "<b>" keeps `<B>`, and an object entry never matches |
| UserModels.IsValidEmailMatchesPattern | server/models/user.models.ts:9 | the email check accepts exactly the strings of the form local@domain.tld, with the regex's character classes and a top-level part of two or more letters |
| UserModels.SchemaViolations | server/models/user.models.ts:36-57 | there is no violation iff the name is given, the email is given and valid, and the password is given with at least 6 characters |
| UserModels.Serialize | server/utils/jwt.ts:38 | the cached session keeps the id and the stored password and has no access token |
| UserModels.PublicView | server/utils/jwt.ts:74 | the selected view drops the password and refresh token and keeps id, name, email, role and courses |
| UserModels.WithoutPassword | server/controllers/user.controller.ts:177 | the selected view drops the password and keeps the id and refresh token |
| UserModels.LoginClaimsCarryId | server/models/user.models.ts:113-146 | both login tokens carry the user's id under `_id`; the access token also carries email and name, the refresh token nothing else |
| UserModels.GenerateAccessToken | server/models/user.models.ts:113-128 | fails without the access secret and mints nothing; otherwise mints exactly the `{_id, email, name}` token under the access secret with the access lifetime |
| UserModels.GenerateRefreshToken | server/models/user.models.ts:133-146 | fails without the refresh secret and mints nothing; otherwise mints exactly the `{_id}` token under the refresh secret with the refresh lifetime |
| UserModels.UserDocument.Create | server/models/user.models.ts:68-84 | a new document has role "user", is unverified, owns no course, has no refresh token and a modified password |
| UserModels.UserDocument.PreSave | server/models/user.models.ts:92-98 | the password is hashed iff it was modified, and is then no longer marked modified |
| UserModels.UserDocument.PushCourse | server/controllers/order.controller.ts:76 | appends the course to the user's list |
| UserModels.ObjectIdInjective | server/models/user.models.ts:35 | distinct documents get distinct ids |
| UserModels.FindByEmailIn | server/controllers/user.controller.ts:34-36 | finds a record with that email, and finds none iff no record has it |
| UserModels.FindByIdIn | server/utils/jwt.ts:74 | finds a record with that id, and finds none iff no record has it |
| UserModels.FoundByKeys | server/models/user.models.ts:41-44 | in a store with unique emails and positional ids, every record is found by its email and by its id |
| UserModels.UserStore.Insert | server/controllers/user.controller.ts:170-174 | the store stays valid, grows by the record, and finds it by id and by email |
| UserModels.UserStore.Replace | server/controllers/order.controller.ts:77 | saving a document under its own id and email keeps the store valid and changes only that position |
| SessionCache.SessionStore.Get | server/middleware/auth.middleware.ts:43 | a hit iff the key is cached, returning the cached value |
| SessionCache.SessionStore.Set | server/utils/jwt.ts:38 | the key now maps to the value and nothing else changes |
| SessionCache.SessionStore.Del | server/controllers/user.controller.ts:261 | the key is removed and nothing else changes |
| SessionTokens.CookieOptionsFollowExpiry | server/utils/jwt.ts:41-64 | both cookies are http-only and same-site "lax", secure iff in production; each expires `expiry` s from now, with `maxAge` the same span in ms |
| SessionTokens.DefaultCookieLifetimes | server/utils/jwt.ts:41-64 | with nothing configured the access cookie lasts 300 s and the refresh cookie 1200 s |
| SessionTokens.LoggedInUser | server/utils/jwt.ts:74 | the returned user has the requested id and carries neither password nor refresh token |
| SessionTokens.CookiesExpireWithTokens | server/utils/jwt.ts:33-47 | each cookie expires at the same moment as the token it carries |
| SessionTokens.IssueLoginTokens | server/utils/jwt.ts:33-34 | a missing secret fails with the first missing secret's message; otherwise exactly the access then the refresh token of the user are minted |
| SessionTokens.SendTokens | server/utils/jwt.ts:23-84 | no user gives 404 and nothing is minted or cached; a missing secret gives 500 with the cache untouched; otherwise two fresh tokens are minted, the whole user is cached under its id, both cookies are set and the reply carries the tokens and the public view |
| SessionTokens.SendTokensTo | server/utils/jwt.ts:31-81 | the same outcome for an existing user |
| AuthMiddleware.ExtractTokenSources | server/middleware/auth.middleware.ts:29 | a non-empty cookie wins; otherwise a `Bearer` header yields its token; with neither there is no token |
| AuthMiddleware.Unauthorized | server/middleware/auth.middleware.ts:55-57 | every gate error is 401 and keeps the inner message, or says "Invalid access token" |
| AuthMiddleware.Gate | server/middleware/auth.middleware.ts:25-58 | every refusal is 401; no token is "Unauthorized request"; acceptance means the token verified under the access secret and its `_id` session is cached, and the request then carries that session |
| AuthMiddleware.VerifyJWT | server/middleware/auth.middleware.ts:25-58 | decides as the gate; sets `req.user` exactly when it accepts and only reads the cache |
| AuthMiddleware.LoginTokenAccepted | server/middleware/auth.middleware.ts:29-54 | a login's unexpired access token, from the cookie or a `Bearer` header, opens the gate while its session is cached |
| AuthMiddleware.LogoutRevokes | server/middleware/auth.middleware.ts:43-47 | once the session is gone an unexpired, correctly signed token is refused |
| AuthMiddleware.ExpiredAndForgedDistinguished | server/middleware/auth.middleware.ts:35-57 | an expired token and a forged string are both refused with 401, under different messages |
| AuthMiddleware.RefreshTokenRefusedAtGate | server/middleware/auth.middleware.ts:35 | a refresh token is refused at the gate with "invalid signature", even with its session cached |
| UserController.RegisterFailure | server/controllers/user.controller.ts:82-84 | registration failures are 400 with the prefix "Something went wrong while registering the user. " |
| UserController.BlankMeansWhitespaceOnly | server/controllers/user.controller.ts:29-31 | a field is refused iff it is present and only whitespace; an absent field passes |
| UserController.FindOneByEmail | server/controllers/user.controller.ts:34-36 | an undefined email matches any user of a non-empty store; a given email finds that user |
| UserController.ActivationCodeFormat | server/controllers/user.controller.ts:102 | the code is four digits without a leading zero and reads back as the drawn number |
| UserController.CreateActivationToken | server/controllers/user.controller.ts:101-117 | without the activation secret it fails and mints nothing; with the secret but no activation expiry the signer refuses `expiresIn: undefined` and nothing is minted; otherwise it mints one token carrying the pending user and a four-digit code, expiring after the configured lifetime, and returns both |
| UserController.RegisterUser | server/controllers/user.controller.ts:20-85 | every failure is 400; a blank field or a taken email fails before anything is minted; success iff no field is blank, the email is new, the secret and the activation expiry are set and the mail went out; success is HTTP 201 whose body says 200 and returns the token; no user is created |
| UserController.ActivationCheck | server/controllers/user.controller.ts:141-198 | every failure is 400; an expired token is "Activation token has expired" and an invalid one "Invalid activation token" |
| UserController.ActivationRoundTrip | server/controllers/user.controller.ts:104-154 | a live token and its own code give back the pending user unchanged; any other code is "Invalid activation code" |
| UserController.ExpiredActivationReported | server/controllers/user.controller.ts:191-193 | an expired token is reported as expired whatever code is sent |
| UserController.NewUser | server/controllers/user.controller.ts:170-174 | a created user has the schema defaults and a password that matches the chosen one |
| UserController.CreateVerifiedUser | server/controllers/user.controller.ts:157-187 | a taken email or a schema violation fails with 400 and no write; a free email and a pending user the schema accepts always succeed, storing exactly one new user and returning it without password |
| UserController.ActivateUser | server/controllers/user.controller.ts:131-199 | every failure is 400 and writes nothing; a failed token or code check gives its own error, a taken email and a schema violation theirs; a user is created exactly when the token verifies with its own code, the email is free and the schema accepts the pending user, and the reply is 201 with the user without password |
| UserController.ActivationIsSingleUse | server/controllers/user.controller.ts:162-167 | replaying a token and code that already activated an account is refused |
| UserController.Authenticate | server/controllers/user.controller.ts:223-238 | login passes iff both fields are given, the email exists and the password matches; missing fields give 400 |
| UserController.LoginOutcomes | server/controllers/user.controller.ts:226-238 | an activated user logs in with their own password; another password gives 401 and an unknown email 400 |
| UserController.LoginUser | server/controllers/user.controller.ts:212-241 | a failed check mints nothing and leaves the cache alone; otherwise the login outcome of `sendTokens` with status 200 |
| UserController.LogoutUser | server/controllers/user.controller.ts:256-269 | both cookies are cleared, the caller's session is deleted, and the reply is 200 "User logged out successfully" |
| UserController.LogoutIsIdempotent | server/controllers/user.controller.ts:256-269 | logging out twice gives the same reply and the same cache as once |
| UserController.RotatedClaims | server/controllers/user.controller.ts:310-316 | the rotated payload `{ id }` has no `_id` |
| UserController.RefreshSession | server/controllers/user.controller.ts:293-307 | every failure is 400; success iff the refresh cookie verifies, carries a non-empty `_id` and that session is cached, and then yields the cached session |
| UserController.Rotate | server/controllers/user.controller.ts:310-325 | a missing secret fails with 400 and the cache untouched, keeping only an access token signed before a missing refresh secret; otherwise two tokens are minted, both cookies set, the session stored again with the new access token, and the new access token returned |
| UserController.UpdateAccessToken | server/controllers/user.controller.ts:291-330 | every failure is 400 and leaves the cache alone; a failed lookup returns its error and mints nothing; a successful lookup rotates both tokens with the payload `{ id }` exactly as Rotate does, so it succeeds whenever both secrets are set |
| UserController.RotatedTokensUnusable | server/controllers/user.controller.ts:299-316 | rotated tokens cannot refresh again and do not pass the gate, even while unexpired and cached |
| UserController.IntendedRotatedClaims | server/controllers/user.controller.ts:310-316 | the intended payload carries `_id` |
| UserController.UpdateAccessTokenIntended | server/controllers/user.controller.ts:291-330 | the refresh handler with the intended payload `{ _id }`: a failed lookup returns its error and mints nothing; a successful lookup rotates exactly as Rotate does and succeeds whenever both secrets are set |
| UserController.IntendedRotatedTokensUsable | server/controllers/user.controller.ts:299-307 | with the intended payload the rotated refresh token refreshes again and the rotated access token passes the gate |
| UserController.LoginRefreshTokenRefreshes | server/controllers/user.controller.ts:296-307 | a login's unexpired refresh token refreshes its cached session |
| UserService.GetUserDetailsById | server/services/user.service.ts:56-78 | a cached user is returned without touching the store; a miss reads the store, caches the public view and returns it; an unknown id is 404 and nothing is cached |
| UserService.SecondLookupHits | server/services/user.service.ts:59-75 | after a successful lookup the next one returns the same user |
| UserService.FillReopensGate | server/services/user.service.ts:75 | a session filled by the lookup lets a live access token through the gate again |
| Documents.SortDescCorrect | server/controllers/order.controller.ts:108 | the newest-first sort is sorted by creation time and a permutation of its input |
| Documents.NewestOrdersFirst | server/controllers/order.controller.ts:108 | the orders, newest first, as a permutation |
| Documents.NewestNotificationsFirst | server/controllers/notification.controller.ts:16 | the notifications, newest first, as a permutation |
| Collections.IndexWhere | server/controllers/order.controller.ts:32 | the position of the first record whose key is the one asked for, or none iff no record has it; this is how `findById` and `findOne` look up users, courses and notifications |
| Documents.OrderStore.Create | server/controllers/order.controller.ts:45 | appends the order |
| Documents.NotificationStore.Create | server/controllers/order.controller.ts:80-84 | appends the notification |
| Documents.NotificationStore.Replace | server/controllers/notification.controller.ts:47 | changes only that position |
| Documents.CourseStore.Replace | server/controllers/order.controller.ts:92 | changes only that position |
| OrderController.IncrementPurchases | server/controllers/order.controller.ts:87-92 | the count rises by one, and a missing or zero count becomes 1 |
| OrderController.OrderNotification | server/models/notification.model.ts:25-29 | the notification is addressed to the buyer, titled "New Order Confirmation", and unread |
| OrderController.OrderCheck | server/controllers/order.controller.ts:22-45 | every failure is 500; an owned course is refused first; an unknown course is refused; success names an existing buyer who does not own the existing course |
| OrderController.RecordPurchase | server/controllers/order.controller.ts:45-92 | exactly one order with course, buyer and payment info; the course joins the buyer's list; one notification; the purchase count rises by one |
| OrderController.CreateOrder | server/controllers/order.controller.ts:17-100 | a failed check writes nothing and gives 500; a passing check always succeeds, changing exactly the four stores as above (the order, the buyer's courses, the confirmation notification, the purchase count) and replying 201 with the updated course; the mail outcome changes nothing |
| OrderController.SecondPurchaseRefused | server/controllers/order.controller.ts:25-28 | buying the same course again is refused with "Dear user, you've already purchased this course." |
| OrderController.GetAllOrdersForAdmin | server/controllers/order.controller.ts:106-114 | 200 with every order, newest first |
| NotificationController.MarkRead | server/controllers/notification.controller.ts:44 | a non-empty status becomes "read"; an empty one stays |
| NotificationController.MarkReadIdempotent | server/controllers/notification.controller.ts:44 | marking twice is marking once, and "read" stays "read" |
| NotificationController.UnreadCountUpdate | server/controllers/notification.controller.ts:44-47 | saving one notification changes the unread count only by that notification |
| NotificationController.MarkReadLowersUnread | server/controllers/notification.controller.ts:44-47 | marking an unread notification lowers the unread count by exactly one |
| NotificationController.NotificationList | server/controllers/notification.controller.ts:16-53 | 200 with every notification, newest first, as a permutation |
| NotificationController.GetAllNotifications | server/controllers/notification.controller.ts:14-25 | the list with the message "Notifications fetched successfully" |
| NotificationController.UpdateNotificationStatus | server/controllers/notification.controller.ts:33-60 | a missing id or an unknown notification gives 500 and no write; a stored notification with an empty status fails the schema's `required` rule on save, 500 with the validation message and no write; otherwise only that notification becomes "read" and the whole list comes back newest first |
| NotificationController.IndexOfAfterSave | server/controllers/notification.controller.ts:40-47 | saving a notification under its own id does not move the lookup |
| NotificationController.MarkingReadTwice | server/controllers/notification.controller.ts:33-53 | a second successful update of the same notification gives the same reply |
| Analytics.CountIn | server/services/analytics/analytics.generator.ts:59-64 | the count of records in a window is at most the number of records, and 0 for an empty window |
| Analytics.WindowsContiguous | server/services/analytics/analytics.generator.ts:35-46 | each window starts where the previous one ends, and the ends increase |
| Analytics.WindowsSpan | server/services/analytics/analytics.generator.ts:29-46 | the newest window ends tomorrow and the twelve span 336 days |
| Analytics.AtMostOneWindow | server/services/analytics/analytics.generator.ts:59-64 | a day lies in at most one window |
| Analytics.CountInSplit | server/services/analytics/analytics.generator.ts:59-64 | counting over [a, c) is counting over [a, b) plus [b, c) |
| Analytics.GenerateLast12MonthsData | server/services/analytics/analytics.generator.ts:20-82 | exactly twelve entries, oldest first; entry k counts window k; together they count every record of the 336 days ending tomorrow once |

## Left out

- Cryptography: jsonwebtoken and bcryptjs are ideal. A token string is known only by the registry that minted it, and a digest matches only its own plain text. Token encoding, header algorithms and key formats are not part of this model.
- `Math.random`: the activation code is an arbitrary choice in [1000, 9999].
- I/O: the document store, the session cache and the mail transport are in-memory state or parameters. Connection handling is not modelled. The mail outcome is the parameter `mailError` for registration and `mailDelivered` for orders, and order mail templating is left out.
- Concurrency: the un-awaited session write in `sendTokens` takes effect at once, and racing requests are not modelled.
- Clock: `now` is a parameter in seconds, and the analytics days are integer ordinals. JavaScript `Date` calendar normalisation and the locale labels of the analytics are not modelled; each label is the window's end day.
- Environment: expiry variables are absent or whole seconds; non-numeric values (`parseInt` giving NaN) are not modelled. The activation expiry is passed to the signer as it is, and an unset or empty one makes the signer refuse it, so registration fails.
- Tokens.Verify: a configured secret is assumed to be a plain string. The activation and refresh handlers read secrets the same way.
- Tokens.Verify: the access, refresh and activation secrets are assumed to be distinct. A secret is its kind, so a token verifies only under the kind it was signed with. If two variables held the same string, the library would accept a token of one kind under the other.
- AuthMiddleware.RefreshTokenRefusedAtGate: holds only because the secrets are assumed distinct. With REFRESH_TOKEN_SECRET equal to ACCESS_TOKEN_SECRET, a refresh token carries `_id` and would pass the gate.
- Text.ToLower: folds only ASCII A-Z. JavaScript `toLowerCase` folds every Unicode letter and can change the length (U+0130 becomes two code units). Strings are sequences of code points, not UTF-16 code units.
- SanitizeAuthInput.Allowed: compares tags after the ASCII-only `Text.ToLower`, so a tag with non-ASCII capitals can be judged differently than by `toLowerCase`.
- UserModels.SchemaViolations: the password `minlength` of 6 counts code points here, while Mongoose counts UTF-16 code units, so a short password with characters outside the Basic Multilingual Plane is judged differently.
- AuthMiddleware.Gate: the "Invalid access token info" branch is not reachable, because verified claims are always an object. `redis.get(undefined)` for claims without `_id` is modelled as a cache miss.
- Store lookups by id: a malformed ObjectId string (a `CastError` from `findById`) is modelled as "not found".
- Sort order: records with equal creation times keep an order chosen by the model, not by the document store.
- Schema validation: Mongoose reports the first failing rule per field, and only the fields this core touches (name, email, password, role, verified flag, courses, refresh token) are modelled. Avatar and the course, order and notification schemas are used only for the defaults cited above.
- Logout: the `catch` that rethrows a cache failure as 400 has no counterpart, because the in-memory cache cannot fail.
- User courses: a user's courses are held as course ids. Pushing a course id into the sub-document array stores it as the sub-document's `_id`, and that is what the ownership check compares.
- Registration and activation wrap error messages with the prefix "Something went wrong while registering the user. ".
- Not modelled: the course controller, routes, `asyncHandler`, the `authorizeRoles` guard, application start-up and the database connection modules.

## Findings

| source | as written | input that shows it | evidently intended | confidence | as-written member | corrected member |
|---|---|---|---|---|---|---|
| server/controllers/user.controller.ts:310-316 | the refresh handler signs the rotated tokens with `{ id: user._id }`, but both the gate (auth.middleware.ts:43) and the refresh handler (user.controller.ts:299-303) read `decoded._id` | log in, refresh once, then send the rotated access token to the gate or the rotated refresh token to the refresh handler: the first gives 401 "Invalid user access or invalid token", the second 400 "Couldn't refresh the token" | sign `{ _id: user._id }`, as the login tokens do | not executed | UserController.RotatedTokensUnusable (with UserController.UpdateAccessToken) | UserController.IntendedRotatedTokensUsable (with UserController.UpdateAccessTokenIntended) |
