# Multilingual FAQ service — a Dafny model

This project models the logic of a small REST service. The service stores
multilingual FAQs and authenticates users. The model covers:

- **the FAQ collection and its caches:**
  - the versioned handlers and service that cache the whole listing under the key `faqs`;
  - the per-FAQ read-through/write-through cache service;
  - the older, language-filtering FAQ service;
- **the FAQ schema:** required trimmed texts, a closed language set defaulting to `en`, the `updateFaq` merge, and `getFaqsByLanguage` (filter, then newest first);
- **the input validators:** the express-validator rules for FAQs, the Joi schemas the auth routes name and the stand-alone Joi helpers;
- **the sliding-window rate limiter**;
- **the three authentication components:**
  - the versioned service (refresh token stored on the user record);
  - the handlers (refresh token in an HTTP-only cookie);
  - the older service (a single login token);
  - the bearer-token and admin guards;
- **the two error handlers and the response envelope builders.**

Each modelled source file has a module of its own, except `Responses`, which covers both response builders. Shared modules hold what several files rely on: `Wrappers`, `Text`, `Crypto`, `Users`, `FaqStore` and `CacheEntry`. The repository keeps several competing versions of the same component, and each is modelled as written.

Modelling conventions:

- `Option.None` is JavaScript `undefined`. A string is falsy when it is `None` or `""` (`Text.Truthy`).
- **The collection.** The FAQ collection is a `map` from identifier to document.
- **Cache entries.** A cache entry carries its expiry instant. A read at `now` hits exactly when `now` is before that instant; this models Redis `EX`/`SETEX`.
- **Store queries.** A ghost counter `storeReads` records every query sent to the collection. A call that mongoose refuses before sending (a failed ObjectId cast, a failed update validator) sends none. Each cache-hit contract then says "the store was not read".
- **Generated values.** ObjectIds, bcrypt salts and the current time are parameters.
- **bcrypt and JWT.** These are idealised in `Crypto`:
  - a digest matches exactly the password it was made from;
  - a token verifies exactly under the secret that signed it and before it expires.
- **Classes for stateful components.** Components that change state are classes whose methods modify the collection, the cache map, the user table or the request log. Each method is proved against a class invariant `Valid()`, for example:
  - a cached listing equals the collection;
  - every per-FAQ cache entry is the stored FAQ;
  - no address has more than ten logged requests;
  - user identifiers and emails are unique.
- **Pure functions.** The validators, error mappings and envelope builders are pure functions.

## Model

| member | source | states |
|---|---|---|
| FaqRecord.ViolationsEmptyIff | src/models/faq.js:6-21 | The schema validators pass exactly when question and answer are non-empty and the language is one of en, es, fr, de, it. |
| FaqRecord.Build | src/models/faq.js:6-30 | A new document is saved iff its trimmed question and answer are non-empty and its language is supported (a missing language becomes "en"). The saved document is well-formed, holds the trimmed texts, and has both timestamps set to now. Otherwise a ValidationError names at least one path. |
| FaqRecord.Merge | src/models/faq.js:40-44 | The merge never changes id or createdAt, and stamps updatedAt with the current time. |
| FaqRecord.MergeEmptyPatch | src/models/faq.js:41-43 | A patch whose fields are all undefined or all "" leaves question, answer and language unchanged. |
| FaqRecord.MergeFieldwise | src/models/faq.js:41-43 | Each field takes the (trimmed) patch value exactly when that value is truthy, and otherwise keeps the old value. |
| FaqRecord.MergeIdempotent | src/models/faq.js:40-44 | Applying the same patch twice equals applying it once. |
| FaqRecord.MergePreservesWellFormed | src/models/faq.js:40-45 | A well-formed document stays well-formed under a patch whose truthy fields pass the schema. |
| FaqRecord.FaqDocument.UpdateFaq | src/models/faq.js:40-47 | The in-memory fields become the merge of the old fields with the patch. The save succeeds exactly when the merged document passes the validators, and then returns it. Otherwise it fails with the failing paths while the fields stay assigned. |
| FaqRecord.WithLanguage | src/models/faq.js:36 | The result holds exactly the documents in the given language. |
| FaqRecord.SortSortsAndPermutes | src/models/faq.js:36 | Sorting by createdAt descending yields a permutation of the input with createdAt non-increasing. |
| FaqRecord.FaqsByLanguage | src/models/faq.js:35-37 | getFaqsByLanguage returns exactly the documents in the language, newest first, as a permutation of the filtered collection. |
| FaqStore.ApplyPatch | src/api/v1/faq/faq.controller.js:109-113 | An update keeps id, createdAt and every field the patch leaves undefined, and stamps updatedAt. |
| FaqStore.ApplyPatchPreservesWellFormed | src/api/v1/faq/faq.controller.js:109-113 | A patch that passes the update validators keeps a well-formed document well-formed. |
| FaqStore.FindById | src/api/v1/faq/faq.controller.js:78 | findById throws a CastError exactly for a non-ObjectId. Otherwise it finds a document exactly when the id is stored, and returns the stored one. |
| FaqStore.FindByIdAndUpdate | src/api/v1/faq/faq.service.js:60-63 | Checks run in this order: the cast, then (with runValidators) the update validators, then the lookup. On success a document is returned exactly when the id is stored, and it is the patched document. |
| CacheEntry.Put | src/api/v1/faq/faq.controller.js:54 | An entry written at now expires 3600 s later. |
| CacheEntry.PutLivesOneHour | src/api/v1/faq/faq.controller.js:54 | An entry written at now is served at a later time exactly when that time is less than now + 3600. |
| FaqController.UpdateTargetAsWritten | src/api/v1/faq/faq.controller.js:98 | updateFAQ's identifier is present exactly when the query string has `id`. |
| FaqController.PathIdIgnoredByUpdate | src/api/v1/faq/faq.controller.js:97-106 | For every PUT whose valid id is only in the path, the id updateFAQ reads is not a valid ObjectId, so updateFAQ answers 400. |
| FaqController.Controller.CreateFaq | src/api/v1/faq/faq.controller.js:13-33 | When a field is missing or empty the reply is 400 and store and cache are untouched. Otherwise a schema failure is forwarded with nothing changed; on success exactly one entry is added, `faqs` is evicted and the reply is 201 with the created FAQ. |
| FaqController.Controller.GetFaqs | src/api/v1/faq/faq.controller.js:40-60 | A live cache entry answers "from cache" with no store read. A miss reads the store once and caches that snapshot for 3600 s. Either way the listing equals the current store. |
| FaqController.Controller.GetFaqById | src/api/v1/faq/faq.controller.js:67-90 | A malformed id gets 400 with no store read. Otherwise the store is read once and the reply is 404 or 200 with the stored FAQ. The cache is never read or written. |
| FaqController.Controller.UpdateTarget | src/api/v1/faq/faq.controller.js:101-128 | An invalid id gets 400 with nothing changed. A rejected patch is forwarded with nothing changed. A missing id gets 404 with no eviction. On success the entry is replaced by the patched FAQ and `faqs` is evicted. |
| FaqController.Controller.UpdateFaq | src/api/v1/faq/faq.controller.js:97-128 | As written: the update targets the query string's id. That id absent or malformed gives 400 and touches nothing. A patch failing the schema is forwarded as a validation error. An unknown id gives 404 with store and cache unchanged. Otherwise the reply is 200 with the patched FAQ, which is stored, and `faqs` is evicted. |
| FaqController.Controller.UpdateFaqByPath | src/api/v1/faq/faq.controller.js:97-128 | As intended: the same update aimed at the path id. A malformed id gives 400, a patch failing the schema is forwarded, an unknown id gives 404 with store and cache unchanged, and otherwise the patched FAQ is stored, returned with 200, and `faqs` is evicted. |
| FaqController.Controller.DeleteFaq | src/api/v1/faq/faq.controller.js:135-161 | A malformed id gets 400 and a missing id 404, both with store and cache unchanged. On success exactly that id is removed and `faqs` is evicted. |
| FaqApiService.Service.CreateFaq | src/api/v1/faq/faq.service.js:9-13 | The entry is stored, `faqs` is evicted and the created FAQ is returned. A validation error is thrown with nothing changed. |
| FaqApiService.Service.GetFaqs | src/api/v1/faq/faq.service.js:19-34 | The result is always the store contents. A hit does no store read. A miss caches exactly that snapshot for 3600 s. |
| FaqApiService.Service.GetFaqById | src/api/v1/faq/faq.service.js:42-50 | The result is the stored FAQ, or "FAQ not found", or a cast error. The cache is untouched, and the store is queried exactly when the id casts. |
| FaqApiService.Service.UpdateFaq | src/api/v1/faq/faq.service.js:59-71 | On success the patched FAQ is returned and stored, and `faqs` is evicted. A missing id throws "FAQ not found" and a validation or cast error is thrown; in those cases store and cache are unchanged. |
| FaqApiService.Service.DeleteFaq | src/api/v1/faq/faq.service.js:79-88 | Returns the removed FAQ, the id is gone, and `faqs` is evicted only on success. |
| FaqApiService.ListTwice | src/api/v1/faq/faq.service.js:19-34 | Two listings within the hour return the same store contents and query the store once. |
| FaqCacheService.KeyPrefixedAndInjective | src/services/cache.service.js:11 | Every key the client sends carries `faq:`, and distinct ids name distinct server keys. |
| FaqCacheService.CoherentPut | src/services/cache.service.js:39 | Caching the stored FAQ under its key keeps every cached FAQ equal to the stored one. |
| FaqCacheService.ClearedAsWritten | src/services/cache.service.js:95-97 | The keys deleted as written are the prefixed server keys prefixed once more. |
| FaqCacheService.ClearAsWrittenKeepsEntries | src/services/cache.service.js:95-97 | Whenever every server key is one the service wrote for a FAQ, clearCache as written deletes no existing key, and every entry survives. |
| FaqCacheService.CacheService.GetFaq | src/services/cache.service.js:21-46 | A live entry is returned with no store read. On a miss the store is read once. An absent id throws "FAQ not found" and writes nothing. A present id is cached for 3600 s and returned. Any success is the stored FAQ. |
| FaqCacheService.CacheService.SetFaq | src/services/cache.service.js:53-68 | The FAQ is saved, then cached under its new id for 3600 s. A failing save leaves store and cache unchanged and is rethrown. |
| FaqCacheService.CacheService.DeleteFaq | src/services/cache.service.js:74-87 | A malformed id is a cast error with nothing changed. Otherwise the id is removed from the store and its key from the cache, and an absent id is no error. |
| FaqCacheService.CacheService.ClearCache | src/services/cache.service.js:92-106 | As intended: afterwards no FAQ key remains, other keys are untouched, and an empty cache stays empty. |
| FaqCacheService.SetThenGet | src/services/cache.service.js:53-63 | getFAQ right after a successful setFAQ is a cache hit equal to the saved FAQ, with no store read. |
| FaqLangService.InLanguage | src/services/faq.service.js:23 | The result holds exactly the stored FAQs in the language. |
| Text.LowerChar | src/services/faq.service.js:72 | A character changes exactly when it is a Latin capital. A-Z and À-Þ (except ×) gain 32, the capital of each Latin Extended-A pair gains 1, and Ÿ becomes ÿ. |
| Text.ContainsIgnoringCaseOfContains | src/services/faq.service.js:72-77 | An exact occurrence of the query is also found when case is ignored. |
| Text.FoldsAccentedCapitals | src/services/faq.service.js:72-77 | Accented capitals fold too: "é" is found in "École" and "œu" in "Œuvre". |
| FaqLangService.Search | src/services/faq.service.js:70-79 | A FAQ is found exactly when it is in the language and its question or answer contains the query, ignoring case. |
| FaqLangService.SearchWithinLanguage | src/services/faq.service.js:73-79 | A search never returns more than its language's listing. |
| FaqLangService.EmptySearchIsListing | src/services/faq.service.js:72-79 | An empty query returns the whole listing of the language. |
| FaqLangService.LanguageOrDefault | src/services/faq.service.js:21 | The language defaults to "en" only when the argument is absent. |
| FaqLangService.CreationFields | src/services/faq.service.js:7-11 | A missing or empty language is replaced by "en", and a truthy one is kept. |
| FaqLangService.CreationDefaultsEmptyLanguage | src/services/faq.service.js:10 | createFAQ saves a FAQ with an empty language where the bare schema would reject it. For an absent language the two agree. |
| FaqLangService.UnvalidatedUpdateCanBreakSchema | src/services/faq.service.js:46 | Without update validators an update can store a blank question and an unsupported language. With validators the same update is rejected. |
| FaqLangService.LangService.CreateFaq | src/services/faq.service.js:4-18 | On success the saved FAQ is well-formed and has a language. Otherwise the failure is "Error creating FAQ: " followed by the cause. |
| FaqLangService.LangService.GetFaqs | src/services/faq.service.js:21-28 | Returns exactly the FAQs in the requested language (default "en"). |
| FaqLangService.LangService.GetFaqById | src/services/faq.service.js:31-41 | An absent id fails with "Error fetching FAQ by ID: FAQ not found". Otherwise it returns the stored FAQ. |
| FaqLangService.LangService.UpdateFaq | src/services/faq.service.js:44-54 | An absent id fails with "Error updating FAQ: FAQ not found". Otherwise it stores and returns the patched FAQ, with no validators run. |
| FaqLangService.LangService.DeleteFaq | src/services/faq.service.js:57-67 | An absent id fails with "Error deleting FAQ: FAQ not found". On success the id is gone. |
| FaqLangService.LangService.SearchFaqs | src/services/faq.service.js:70-84 | The result is exactly `FaqLangService.Search` of the query in the given language, or in "en" when no language is passed, and so never more than that language's listing. |
| FaqValidator.CheckText | src/api/v1/faq/faq.validator.js:8-13 | The chain accepts exactly a trimmed value that is non-empty and within the bound. An empty value and an over-long value each yield their own message. |
| FaqValidator.CheckOptionalText | src/api/v1/faq/faq.validator.js:41-47 | An absent field is not checked. A present one goes through the same chain. |
| FaqValidator.CreateErrors | src/api/v1/faq/faq.validator.js:7-28 | Create is accepted exactly when the trimmed question, answer and language are non-empty and at most 500, 2000 and 50 characters long. |
| FaqValidator.IdErrors | src/api/v1/faq/faq.validator.js:35-39 | The id passes exactly when it is an ObjectId. An empty id yields both "FAQ ID is required" and "Invalid FAQ ID". |
| FaqValidator.UpdateErrors | src/api/v1/faq/faq.validator.js:34-64 | Update is accepted exactly when the id is an ObjectId and every present field, trimmed, is non-empty and within its bound. |
| FaqValidator.HandleValidationErrors | src/api/v1/faq/faq.validator.js:73-87 | next is called exactly when there are no errors. Otherwise the reply is 400 carrying every error. |
| FaqValidator.CreateAcceptedIsTruthy | src/api/v1/faq/faq.validator.js:7-28 | A body accepted by the create rules passes the handler's own presence check. |
| FaqValidator.CreateAcceptedBuildsIffSupported | src/api/v1/faq/faq.validator.js:22-27 | A body accepted by the create rules, handed on as sent, is saved exactly when its language is in the schema's list. |
| FaqValidator.Sanitized | src/api/v1/faq/faq.validator.js:8-27 | Every present field is replaced by its trimmed value and no field is added or dropped. |
| FaqValidator.CreateSanitizedBuildsIffSupported | src/api/v1/faq/faq.validator.js:8-27 | On the route, a body accepted by the create rules is saved exactly when its trimmed language is in the schema's list, with the trimmed texts and language. |
| FaqValidator.UpdateAcceptedLeavesOnlyLanguage | src/api/v1/faq/faq.validator.js:34-64 | After the update rules accept a patch, the store can reject it only on the language. |
| RateLimiter.Prune | src/api/v1/middleware/rateLimiter.js:23-25 | A record survives exactly when its timestamp is at least now − 60000, for every address. |
| RateLimiter.CountAppend | src/api/v1/middleware/rateLimiter.js:42-45 | Logging a request adds one to its own address's count and nothing to any other. |
| RateLimiter.CountSinceAtMostCount | src/api/v1/middleware/rateLimiter.js:28-31 | An address's in-window count never exceeds its total count. |
| RateLimiter.PruneCount | src/api/v1/middleware/rateLimiter.js:23-31 | After pruning, an address's count equals its count of records with timestamp ≥ now − 60000. |
| RateLimiter.PruneKeepsWindow | src/api/v1/middleware/rateLimiter.js:23-25 | A log entirely inside the window survives pruning unchanged. |
| RateLimiter.PruneIdempotent | src/api/v1/middleware/rateLimiter.js:23-25 | Pruning twice at the same instant equals pruning once. |
| RateLimiter.Limiter.Handle | src/api/v1/middleware/rateLimiter.js:14-47 | The log is first pruned to the last 60 s. A request passes exactly when its address had fewer than 10 requests in the window, and then exactly one record (ip, now) is appended. Otherwise the reply is 429 and nothing is added. Other addresses' in-window records are unchanged. No address ever exceeds 10 records. |
| Crypto.HashMatchesOnlyItsPassword | src/api/v1/auth/auth.service.js:38-51 | A digest matches the password it was made from and no other. |
| Crypto.Verify | src/api/v1/auth/auth.service.js:103 | Verification succeeds exactly for a token signed with the same secret that has not expired, and returns its claims. An expired token gives TokenExpiredError. |
| Crypto.VerifySigned | src/api/v1/auth/auth.service.js:13-22 | A signed token verifies under its secret until it expires, and never under another secret. |
| Users.FindFirst | src/api/v1/auth/auth.service.js:59 | findOne returns the first record satisfying the filter, and finds none exactly when no record does. |
| Users.FindByIdUnique | src/api/v1/auth/auth.service.js:105 | With unique ids, a filter on the id finds the one record that has it. |
| Users.ProfileOf | src/services/auth.service.js:33-37 | The projection holds id, name and email, with no password. |
| Users.Redacted | src/api/v1/middleware/authMiddleware.js:21 | The selected user keeps id, email and role, and omits the password digest. |
| AuthService.WithRefreshToken | src/api/v1/auth/auth.service.js:29-31 | Only the record with the id gets the new refresh token. With no such record nothing changes. |
| AuthService.LogoutRevokesRefresh | src/api/v1/auth/auth.service.js:93-106 | After logout no refresh token is accepted for that user. |
| AuthService.ResetTokenSingleUse | src/api/v1/auth/auth.service.js:150-158 | After a reset the used token no longer matches any record. |
| AuthService.Service.Register | src/api/v1/auth/auth.service.js:58-69 | A taken email throws AppError("User already exists", 400) and creates no user. Otherwise exactly one user is created, holding the digest of the password and the issued refresh token. |
| AuthService.Service.Login | src/api/v1/auth/auth.service.js:77-87 | Login fails exactly when the email is unknown or the password does not match, always with AppError("Invalid email or password", 401). On success the refresh token is stored on the record. |
| AuthService.Service.Logout | src/api/v1/auth/auth.service.js:93-95 | The user's stored refresh token becomes null. |
| AuthService.Service.Refresh | src/api/v1/auth/auth.service.js:102-113 | Refresh succeeds exactly when the token verifies and is the one stored on the record it names. A stored-token mismatch gives 401 "Invalid refresh token". |
| AuthService.Service.Forgot | src/api/v1/auth/auth.service.js:120-139 | An unknown email gives 404. Otherwise the reset token is stored before the mail; the mail goes to the user with that token, and the token stays stored when the mailer fails. |
| AuthService.Service.Reset | src/api/v1/auth/auth.service.js:147-161 | Reset succeeds exactly for a verified token equal to the stored one. It then replaces the digest and clears the token, so the same token is refused afterwards. |
| AuthController.SignedIn | src/api/v1/auth/auth.controller.js:40-54 | A signed-in reply carries the access token and sets an httpOnly refreshToken cookie with maxAge 7 days, secure in production. |
| AuthController.LogoutReply | src/api/v1/auth/auth.controller.js:113-123 | Logout returns 200 and clears the cookie. |
| AuthController.RefreshReply | src/api/v1/auth/auth.controller.js:133-155 | A missing or empty cookie gives 401. A token that fails verification gives 403 carrying the verification error. A verified token without userId gives 403 with no error. Otherwise the reply is 200 with a new access token for that userId. |
| AuthController.RefreshCookieOutlivesLogout | src/api/v1/auth/auth.controller.js:113-155 | A refresh cookie keeps producing access tokens after logout until it expires. After that it gets 403 with TokenExpiredError. |
| AuthController.Controller.Register | src/api/v1/auth/auth.controller.js:15-58 | A taken email gets 400 and no user is saved. Otherwise one user with the password digest is saved and the reply is 201 with tokens. |
| AuthController.Controller.Login | src/api/v1/auth/auth.controller.js:68-103 | An unknown email and a wrong password both get 400 "Invalid credentials". Otherwise the reply is 200 with tokens and nothing is stored. |
| AuthController.Controller.Forgot | src/api/v1/auth/auth.controller.js:165-199 | An unknown email gets 404. Otherwise the reset token is saved on the user before the mail is sent. A mailer failure gives 500. |
| AuthController.Controller.Reset | src/api/v1/auth/auth.controller.js:209-236 | A token that fails verification gives 500 carrying the verification error; one carrying a malformed id gives 500. A token without userId, or one whose id and resetToken match no record, gives 400. On success the password digest is replaced and resetToken cleared. |
| AccountService.JwtSecret | src/services/auth.service.js:6 | The secret is JWT_SECRET when truthy and the fixed fallback otherwise. |
| AccountService.LoginClaims | src/services/auth.service.js:59-63 | The login payload carries userId and email. |
| AccountService.VerifyToken | src/services/auth.service.js:80-88 | Succeeds exactly when the token verifies under the secret. Every failure is "Invalid token". |
| AccountService.Service.Register | src/services/auth.service.js:9-41 | A taken email fails with "User already exists" and saves nothing. Otherwise the result is only id, name and email. |
| AccountService.Service.Login | src/services/auth.service.js:44-77 | An unknown email and a wrong password both fail with "Invalid credentials". Otherwise the result is a 1 h token carrying userId and email, plus the profile. |
| AccountService.Service.GetUserById | src/services/auth.service.js:91-105 | An absent id fails with "User not found". Otherwise the result is only id, name and email of the stored user. |
| AccountService.LoginTokenVerifiesForAnHour | src/services/auth.service.js:59-88 | The login token passes verifyToken for one hour and is "Invalid token" afterwards. |
| AccountService.SecretChangeInvalidates | src/services/auth.service.js:6 | A token signed under a configured secret is refused once the fallback secret is in force. |
| AuthValidator.CheckUsername | src/api/v1/auth/auth.validator.js:7-19 | A username is accepted exactly when, after trimming, it is alphanumeric with 3 to 30 characters. The failures, checked in this order, are "Username is required." (absent or blank), "Username must contain only letters and numbers.", "Username must be at least 3 characters long." and "Username cannot exceed 30 characters.". |
| AuthValidator.CheckEmail | src/api/v1/auth/auth.validator.js:21-29 | An email is accepted exactly when, trimmed, it is a non-empty email address. |
| AuthValidator.CheckStrong | src/api/v1/auth/auth.validator.js:31-38 | A password is accepted exactly when it has at least 8 characters, all from [A-Za-z0-9!@#$%^&*], with a lower-case letter, an upper-case letter, a digit and a special character. |
| AuthValidator.CheckConfirmation | src/api/v1/auth/auth.validator.js:40-47 | The confirmation passes exactly when it equals the password. A present mismatch, "" included, gives "Passwords do not match.", and an absent one the required message. |
| AuthValidator.ValidateRegistration | src/api/v1/auth/auth.validator.js:6-48 | Registration is accepted exactly when username, email and password pass and the confirmation equals the password. The first failing key's message is the error, in key order: username, email, then password ("Password is required." when absent or empty, the pattern message otherwise), then the confirmation ("Confirm password is required." when absent, "Passwords do not match." otherwise). |
| AuthValidator.ValidateLogin | src/api/v1/auth/auth.validator.js:53-70 | Login needs an email and a non-empty password, with no strength rule. An email failure gives CheckEmail's message ("Email is required." or "Enter a valid email address."). With a valid email, a missing or empty password gives "Password is required.". |
| AuthValidator.ValidateRefresh | src/api/v1/auth/auth.validator.js:75-82 | A non-empty refreshToken is required. |
| AuthValidator.ValidateForgot | src/api/v1/auth/auth.validator.js:87-97 | Accepted exactly when the email is valid. An absent or blank email gives "Email is required.", and any other invalid one "Enter a valid email address.". |
| AuthValidator.ValidateReset | src/api/v1/auth/auth.validator.js:102-127 | Accepted exactly when oldPassword is present, newPassword is strong and the confirmation equals it. The first failing key's message is the error, in key order: "Old password is required.", then "New password is required." or the new-password pattern message, then "Confirm new password is required." (absent) or "Passwords do not match." (any present mismatch, "" included). |
| AuthValidator.StrongPasswordHasSpecial | src/api/v1/auth/auth.validator.js:32 | Every accepted password has a non-alphanumeric character. |
| Validation.ValidateEmail | src/utlis/validation.js:8-11 | Accepted exactly for a non-empty email address. |
| Validation.ValidatePassword | src/utlis/validation.js:18-24 | Accepts exactly the alphanumeric strings of 8 to 30 characters. |
| Validation.ValidateName | src/utlis/validation.js:31-34 | Accepts exactly the strings of 3 to 30 characters. |
| Validation.ValidateNumber | src/utlis/validation.js:41-44 | Accepts exactly the positive safe integers. |
| Validation.ValidateUserRegistration | src/utlis/validation.js:71-78 | Needs a name of 3 to 30 characters, an email address, and a password of at least 8 characters. The first failing key, in the order name, email, password, is the error's key, with Joi's code for its first failing rule (any.required, string.empty, string.min, string.max or string.email). |
| Validation.ValidateUserLogin | src/utlis/validation.js:85-91 | Needs an email address and a password of at least 8 characters. An email failure is reported before a password failure, each with its key and Joi code. |
| Validation.PasswordRulesDisjoint | src/utlis/validation.js:21 | No password accepted by validatePassword satisfies the registration pattern, and the reverse holds too. |
| AuthMiddleware.BearerToken | src/api/v1/middleware/authMiddleware.js:17 | The token is the text after "Bearer " up to the next space. |
| AuthMiddleware.BearerTokenRoundTrip | src/api/v1/middleware/authMiddleware.js:13-17 | "Bearer " followed by a space-free token reads back that token. |
| AuthMiddleware.Authenticate | src/api/v1/middleware/authMiddleware.js:10-32 | A missing or malformed header gives 401 "missing or malformed". The request passes exactly when the token verifies and names an existing user, who is attached without the digest. Every other failure is 401 "Invalid or expired token". |
| AuthMiddleware.MalformedHeaderSkipsVerification | src/api/v1/middleware/authMiddleware.js:13-15 | A malformed header is refused whatever the token verifier does. |
| AuthMiddleware.Admin | src/api/v1/middleware/authMiddleware.js:38-43 | The admin guard passes exactly for an attached user whose role is "admin". Otherwise it gives 403. |
| AuthMiddleware.NewUsersAreNotAdmins | src/api/v1/middleware/authMiddleware.js:39 | A newly registered user never passes the admin guard. |
| ErrorHandler.DefaultStatus | src/utlis/errorHandler.js:19 | The status is statusCode when truthy, else 500. |
| ErrorHandler.DefaultMessage | src/utlis/errorHandler.js:20 | The message is err.message when truthy, else "Internal Server Error". |
| ErrorHandler.Handle | src/utlis/errorHandler.js:8-51 | ValidationError maps to 400 "Invalid data provided", CastError to 400 "Resource not found", UnauthorizedError to 401. "Rate limit exceeded" maps to 429 and overrides all of these. success is always false. error is null in production and the stack otherwise. |
| ErrorHandler.HandledMessageNonEmpty | src/utlis/errorHandler.js:19-43 | The message is never empty, and a known error name never gets the default 500. |
| ErrorMiddleware.Respond | src/api/v1/middleware/errorHandler.js:1-13 | The status is statusCode or 500 and the message is err.message or the default, both echoed in the body with success false. The stack is sent only when NODE_ENV is "development". |
| ErrorMiddleware.HandlersAgreeOnPlainErrors | src/api/v1/middleware/errorHandler.js:4-5 | For errors no rule singles out, both handlers choose the same status and message. |
| ErrorMiddleware.HandlersDisagreeOnRateLimit | src/api/v1/middleware/errorHandler.js:4 | A rate-limit error is 429 in one handler and 500 in the other. |
| ErrorMiddleware.StackExposure | src/api/v1/middleware/errorHandler.js:11 | Neither handler exposes the stack in production. With NODE_ENV unset, only the utilities' handler sends it. |
| Responses.ApiResponse | src/utlis/apiResponce.js:15-22 | The envelope has status "success" and echoes data, message and statusCode, with defaults {}, "Request successful" and 200. |
| Responses.ErrorResponse | src/utlis/apiResponce.js:32-39 | The envelope has status "error" with defaults "An error occurred", 400 and a null error. |
| Responses.ValidationErrorResponse | src/utlis/apiResponce.js:48-55 | The message is always "Validation failed", the default status is 422, and errors are echoed. |
| Responses.NotFoundResponse | src/utlis/apiResponce.js:64-70 | The defaults are 404 "Resource not found". |
| Responses.ServerErrorResponse | src/utlis/apiResponce.js:79-85 | The defaults are 500 "Internal server error". |
| Responses.ApiError | src/utlis/apiError.js:1-7 | The status is always "error", with defaults "An error occurred", 400 and null, and supplied arguments are echoed. This is the same envelope errorResponse builds for every argument. |
| Responses.OnlyApiResponseHasData | src/utlis/apiResponce.js:15-85 | Only the success builder writes data, and every other builder has status "error". |
| Responses.DefaultsAreTheDocumentedValues | src/utlis/apiResponce.js:15-85 | Omitting an argument equals passing its documented default. |
| Responses.NullIsNotDefaulted | src/utlis/apiResponce.js:15-39 | An explicit null is echoed rather than replaced by the default. |

## Left out

- I/O is not modelled: the network, the database and cache clients, the mailer, logging and the clock. The time is a parameter.
  - Backend failures (the `catch` paths answering 500 for a failed connection) are not modelled. Only the mailer failure and the errors the code itself throws are.
  - Concurrency is not modelled (the rate limiter's count-then-insert race, a listing repopulated during an eviction); every operation runs alone.
- The handlers and the auth guard build replies with `new ApiResponse(...)` and `new ApiError(...)`. Both are arrow functions, so in JavaScript these calls throw a TypeError, and they pass their arguments in another order. The model records the status, message and payload each branch selects, not the envelope object or the TypeError.
- Redis expiry is a logical clock. JSON serialisation of cached snapshots is the identity. The order of `FAQ.find()` results is not modelled (a listing is a map).
- `FaqLangService.Search`: the query is matched as a literal substring. Regex metacharacters, and the error an invalid pattern throws, are not modelled.
- `FaqLangService.Search`: case is folded for the Latin letters only (`Text.LowerChar`: ASCII, Latin-1, Latin Extended-A). MongoDB's `i` flag also folds Greek, Cyrillic and other scripts, and special folds such as `ſ`/`s` and `K` (Kelvin)/`k`; those queries are not found by the model.
- `FaqLangService.LangService.SearchFaqs`: inherits the Latin-only case folding of `FaqLangService.Search`.
- `FaqLangService.LangService.CreateFaq`: the message of a schema failure is abbreviated to "Validation failed"; mongoose spells out each failing path.
- `FaqValidator.CreateErrors`: the model counts code points. express-validator's `isLength` also counts code points, but it leaves out the variation selectors U+FE0E and U+FE0F; the model counts those. The same holds for `FaqValidator.UpdateErrors`.
- `Validation`: Joi's `min` and `max` count UTF-16 code units, so a character outside the Basic Multilingual Plane counts twice there and once in the model. The auth schemas' length rules are unaffected: `alphanum` and the password pattern admit ASCII only.
- `Text.IsObjectId` is express-validator's `isMongoId` (24 hexadecimal digits) and approximates `ObjectId.isValid` and mongoose's ObjectId cast. Those also accept any 12-character string and integers; the model rejects such identifiers.
- The `error` field of `AuthController.Reply` carries only the verification errors. The other catch branches (a cast error in `resetPassword`, a mailer failure in `forgotPassword`) also echo `error.message`; the model leaves their `error` empty. Error messages are represented by the error's class (`TokenExpiredError`, `JsonWebTokenError`), not its text.
- `FaqValidator.UpdateErrors`: the trimmed value the sanitiser writes back into the request body is not carried along the route chain. The handlers see the body as sent.
- `FaqValidator.CreateAcceptedBuildsIffSupported` and `FaqController.Controller.CreateFaq` take the body as sent. On the route the create rules' `trim()` sanitisers run first, so a whitespace-only field reaches `createFAQ` as "" and gets its 400, and a padded language such as " fr " is saved as "fr". `FaqValidator.CreateSanitizedBuildsIffSupported` states the route's behaviour.
- `handleValidationErrors` is not mounted on any route (src/api/v1/faq/faq.routes.js:18-19), so the FAQ rule sets never reject a request there; their only effect on the route is the trim write-back. `FaqValidator.HandleValidationErrors` models the middleware as written.
- `AuthValidator.CheckEmail`: `IsEmailAddress` approximates Joi's and express-validator's email rules. It requires one `@`, a non-empty local part and a dotted domain; the top-level-domain list and length limits are not modelled.
- Joi's rejection of unknown keys, and of values that are not strings, is not modelled. The default Joi message texts are represented by their error codes.
- The Joi schemas of src/api/v1/auth/auth.validator.js are passed to `router.post` in src/api/v1/auth/auth.routes.js:20-30 as if they were request handlers. They are schema objects, not functions, and Express refuses a non-function handler when the routes are declared, so as written they never check a request. The model states what each schema accepts and reports, as if it were applied to the request body.
- `Validation.ValidateNumber`: numeric strings (which Joi converts), `NaN` and `Infinity` are not modelled.
- `validateUrl` and `validateBody` in src/utlis/validation.js are not modelled. The first is a URI grammar; the second is a generic pass-through, modelled through the two schemas that use it.
- `AuthController.Controller.Reset`: a verified token without `userId` is treated as matching no record (400). How the driver treats `_id: undefined` in a filter is not modelled. The same applies to `AuthService.Service.Refresh` and `AuthService.Service.Reset` for a token without `id`.
- `AuthController.Controller.Login`: `bcrypt.compare` with a missing password or a missing digest throws (500). Passwords are always present in the model.
- Token claims of the handlers: src/utils/tokenUtils.js is not part of this model. Its access and refresh tokens are assumed to carry `{ userId }`, which is what `refreshAccessToken` reads.
- The `config.jwt` settings module is not part of this model either. The secrets and lifetimes are parameters.
- src/models/User.js does not declare `name`, `refreshToken`, `resetPasswordToken` or `resetToken`. The model stores them as the services assume; mongoose's strict mode would drop them.
- The same schema requires `username`, which no registration path sets. Its pre-save hook hashes the already hashed password again. None of this is modelled; the user table stores the digest the services compute.
- Import paths that do not resolve (for example `../api/v1/models/faq.js` and `../utils/logger.js`) and `default` imports of named exports are not modelled. Each component is modelled as if its imports resolved.
- Writers other than the versioned handlers and service do not evict `faqs`. The listing invariant is stated per component, for writes through that component.
- The rate limiter's 500 reply on a database failure is not modelled.
- The `success: true` wrapper objects of the older FAQ service are not modelled. Its methods return the FAQ or the listing itself.

## Findings

| source | as written | input that shows it | evidently intended | confidence | as-written member | corrected member |
|---|---|---|---|---|---|---|
| src/api/v1/faq/faq.controller.js:98 | `updateFAQ` reads the identifier from `req.query.id`. The route is `PUT /:id` and its validator checks `param('id')`. | `PUT /api/v1/faq/65a1b2c3d4e5f60718293a4b` without a query string: the identifier is undefined, so the reply is 400 "Invalid FAQ ID", and the same holds for every FAQ. | Read the path parameter `req.params.id`. | high; not executed | FaqController.PathIdIgnoredByUpdate | FaqController.Controller.UpdateFaqByPath |
| src/services/cache.service.js:95-97 | `clearCache` lists `KEYS faq:*` and passes the replies to `DEL`. The client prefixes `DEL`'s keys with `faq:` but not the `KEYS` pattern or its replies. | One FAQ cached under server key `faq:65a1b2c3d4e5f60718293a4b`: the command sent is `DEL faq:faq:65a1b2c3d4e5f60718293a4b`, and the entry stays. The same holds for any set of FAQ entries. | Delete every server key under the prefix. | medium; not executed | FaqCacheService.ClearAsWrittenKeepsEntries | FaqCacheService.CacheService.ClearCache |
