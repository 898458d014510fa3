# Lead-management backend, modelled in Dafny

This project models the backend of a small lead-management application:

- the lead handlers of the user controller: create, list with search and
  paging, and get, update and delete by id;
- the register and login handlers, up to the credential decision;
- the lead schema and the user schema, with their validators, defaults,
  lower-casing of `email`, password-hashing save hook and `comparePassword`;
- the Express error middleware that turns every error into
  `{ success: false, message }` with an HTTP status.

The database is an abstract in-memory collection: a `seq` of leads in
insertion order (class `LeadStore`) and a `map` of users keyed by their
lower-case email (class `UserStore`). The JavaScript library behaviour the
handlers rely on is written out in `JsString`:

- `trim` with the ECMAScript white-space set;
- `Number.parseInt(s, 10)`: leading white space, an optional sign, the
  longest digit prefix, and `NaN` as `None`;
- `toLowerCase`;
- case-insensitive "contains", which is what `new RegExp(term, "i")` tests
  for a term without metacharacters.

The modules follow the program's structure:

| module | file | models |
|---|---|---|
| `Wrappers` | wrappers.dfy | `Option`, `Result` |
| `JsString` | js_string.dfy | `trim`, `parseInt`, `String(n)`, `toLowerCase`, substring test |
| `ErrorMiddleware` | error_middleware.dfy | backend/middlewares/error.js, and `ErrorHandler` |
| `DbErrors` | db_errors.dfy | the cast, duplicate-key and validation errors the database layer raises |
| `LeadModel` | lead_model.dfy | backend/models/lead_model.js |
| `LeadQuery` | lead_query.dfy | the filter, paging and ordering of `getLeads` |
| `LeadController` | lead_controller.dfy | `createLead`, `getLeads`, `getLeadById`, `updateLead`, `deleteLead` |
| `UserModel` | user_model.dfy | backend/models/user_signup_model.js |
| `AuthController` | auth_controller.dfy | `registerUser`, `loginUser` |

Some behaviour of the code worth knowing when reading the model:

- A negative `page` or `limit` is kept as given. `parseInt` keeps the sign,
  and only `0` and `NaN` fall back to the defaults. A negative page with a
  positive limit gives a negative skip, which the database rejects. When
  both are negative the skip is positive: `page=-3&limit=-5` skips 20.
- The free-text search names a `name` path that the lead schema does not
  have. With Mongoose's `strictQuery` off (the default since Mongoose 7),
  the filter reaches the database as built, so a lead is never found by
  its first or last name. A search for "ann" then finds "joann@x.com", but
  not a lead whose only match is the first name "Anna". The model assumes
  this setting; see "Left out".
- Only `q`, `status` and `source` filter the list.
- Registering a taken email answers 400 "Email already exists".
- A schema validation error is not one of the shapes the middleware
  rewrites, so it reaches the client as a 500.

## Model

| member | source | states |
|---|---|---|
| JsString.Trim | backend/controllers/userController.js:103 | the result is empty exactly when the text is all white space; otherwise it starts and ends with a non-white-space character |
| JsString.TrimStartShape | backend/controllers/userController.js:103 | stripping the front removes a white-space prefix and stops at the first other character |
| JsString.TrimEndShape | backend/controllers/userController.js:103 | stripping the end removes a white-space suffix and stops at the last other character |
| JsString.TrimPadded | backend/controllers/userController.js:103 | trimming any white-space padding recovers exactly the text between, so the two clauses of `Trim` determine it |
| JsString.ParseInt | backend/controllers/userController.js:97-98 | `Number.parseInt(s, 10)`: white space, an optional sign, the longest digit run, `None` for NaN; its value on every input is fixed by ParseIntReads and ParseIntNaN |
| JsString.ParseSigned | backend/controllers/userController.js:97-98 | the part of `parseInt` after the white space; fixed by ParseIntReads |
| JsString.ParseIntReads | backend/controllers/userController.js:97-98 | on white space, an optional `+` or `-`, digits, then non-digit text, `parseInt` gives the signed value of the digits; leading zeros and `+` change nothing |
| JsString.ParseIntNaN | backend/controllers/userController.js:97-98 | when no digit follows the white space and the optional sign, `parseInt` gives NaN |
| JsString.ShowNat | backend/controllers/userController.js:97-98 | the decimal digits of a natural number, starting with `0` only for 0 itself, so without leading zeros; ShowNatValue gives their value |
| JsString.Show | backend/controllers/userController.js:97-98 | `String(n)` for an integer, the way a client writes a number into the query string: by ShowSigned a `-` for a negative number and then ShowNat of its magnitude; ParseIntShow reads it back |
| JsString.ParseIntShow | backend/controllers/userController.js:97-98 | `parseInt` reads back every integer `String(n)` writes, whatever non-digit text follows |
| JsString.ParseIntSkipsWhiteSpace | backend/controllers/userController.js:97-98 | leading white space does not change what `parseInt` reads |
| JsString.LowerChar | backend/models/lead_model.js:13 | an upper-case ASCII letter becomes its lower-case letter (code point + 32); every other character is kept |
| JsString.ToLower | backend/models/lead_model.js:13 | each character is lower-cased in place: same length, position by position `LowerChar`, no upper-case letter left |
| JsString.ToLowerOfLower | backend/models/lead_model.js:13 | lower-case text is its own lower-case form, so the setter is idempotent |
| JsString.ContainsInfix | backend/controllers/userController.js:104-105 | a case-insensitive pattern finds the term wherever it occurs |
| JsString.ContainsIgnoreCase | backend/controllers/userController.js:104-105 | `new RegExp(term, "i").test(text)` for a literal term: the lower-cased term occurs in the lower-cased text; ContainsInfix shows every occurrence is found |
| ErrorMiddleware.AppError | backend/controllers/userController.js:36 | an `ErrorHandler` is named "Error", has no code, and carries the given status and message |
| ErrorMiddleware.Interpolate | backend/middlewares/error.js:9 | `${v}` in a template literal, where an undefined value prints "undefined"; HandleError's CastError clause uses it |
| ErrorMiddleware.JoinComma | backend/middlewares/error.js:15 | `String(keys)` of one key is that key; of none it is empty |
| ErrorMiddleware.HandleError | backend/middlewares/error.js:3-35 | every reply has `success: false`. The first matching shape decides it: CastError gives 400 naming the path; code 11000 gives 400 "<keys> already exists", or a throw when `keyValue` is undefined; the JWT errors give 401. Any other error keeps its truthy status and message, otherwise 500 and "Internal Server Error" |
| ErrorMiddleware.AppErrorReply | backend/middlewares/error.js:4-5 | an `ErrorHandler` with a non-zero status and a non-empty message reaches the client unchanged |
| DbErrors.CastFailure | backend/controllers/userController.js:140 | a malformed id raises a CastError naming the `_id` path, without a status |
| DbErrors.DuplicateKey | backend/models/lead_model.js:12 | a unique-index violation has code 11000 and names the key |
| DbErrors.ValidationFailure | backend/models/lead_model.js:3-47 | a validation error has no code and no status; its message is a stand-in naming the prefix and the failing paths |
| DbErrors.ValidationFailureReply | backend/middlewares/error.js:4-5 | a validation error reaches the client as 500 with its own message |
| DbErrors.DuplicateKeyReply | backend/middlewares/error.js:14-17 | a duplicate key reaches the client as 400 "<key> already exists" |
| DbErrors.NegativeSkip | backend/controllers/userController.js:123 | the server's refusal of a negative skip: code 51024, no status, and a message naming the value; GetLeads returns it for a negative skip |
| DbErrors.NegativeSkipReply | backend/middlewares/error.js:4-5 | a refused negative skip reaches the client as 500 with the server's message, since its code is not 11000 |
| DbErrors.CastFailureReply | backend/middlewares/error.js:8-11 | a malformed id reaches the client as 400 "Resource not found. Invalid: <path>" |
| LeadModel.Valid | backend/models/lead_model.js:3-47 | every validator of the schema holds; CreateErrors is empty exactly then |
| LeadModel.Stored | backend/models/lead_model.js:3-47 | what every stored lead satisfies: valid, email lower-case, defaults filled in; NewDocStored and MergeKeepsStored establish it |
| LeadModel.Lowercased | backend/models/lead_model.js:13 | the setter replaces a set `email` by its lower-cased form (`ToLower`), touches no other path, and leaves lower-case input unchanged |
| LeadModel.WithDefaults | backend/models/lead_model.js:24-42 | unset `status`, `last_activity_at` and `is_qualified` become "new", null and false; set values and all other paths are kept |
| LeadModel.PathNames | backend/models/lead_model.js:3-47 | each failing path is reported under its schema name, in order |
| LeadModel.CreateErrors | backend/models/lead_model.js:3-47 | no path fails exactly when the document is valid. Each path is listed exactly when one of its validators fails: `required` on first_name, email, source and createdBy; the enums; score in 0..100 |
| LeadModel.RequiredErrors | backend/models/lead_model.js:4-23 | first_name and email fail when unset or empty; source fails when unset or outside its enum |
| LeadModel.RangeErrors | backend/models/lead_model.js:24-47 | status fails only when set outside its enum, score only when set outside 0..100, and createdBy when unset |
| LeadModel.PatchValid | backend/controllers/userController.js:147-150 | the update validators: each path the body sets meets all of its validators; UpdateErrors is empty exactly then |
| LeadModel.UpdateErrors | backend/controllers/userController.js:147-150 | the update validators check only the paths a body sets; setting first_name or email to "" fails; createdBy is never reported |
| LeadModel.Merge | backend/controllers/userController.js:147 | the `$set` of the paths a body provides, the other paths kept; MergeKeepsStored shows a validated update keeps a lead stored-valid |
| LeadModel.MergeKeepsStored | backend/controllers/userController.js:147-150 | an update that passes its validators keeps a stored lead valid, lower-case and defaulted |
| LeadModel.NewDocStored | backend/models/lead_model.js:3-47 | a new document that passes validation after setters and defaults is one the store may hold |
| LeadModel.EmptyBodyDefaults | backend/models/lead_model.js:24-42 | an empty body gets the three defaults and still fails on first_name, email, source and createdBy |
| LeadQuery.PathValue | backend/controllers/userController.js:104-106 | the value at each search path; the `name` path holds nothing, as the schema has no such path |
| LeadQuery.SearchHit | backend/controllers/userController.js:104-106 | the `$or` of the four case-insensitive patterns on name, email, city and company, as the definition states them; NameIsNotSearched and SearchFindsEmail state the name and email cases |
| LeadQuery.Matches | backend/controllers/userController.js:100-117 | a lead matches the owner, the search and the enum constraints; PageMatches shows every listed lead matches |
| LeadQuery.RequestedQuery | backend/controllers/userController.js:100-117 | the filter a request asks for; QueryShape states its meaning and BuildQuery builds it |
| LeadQuery.EnumConstraint | backend/controllers/userController.js:109-117 | a status or source is used exactly when it is neither empty nor "all", and then as given |
| LeadQuery.QueryShape | backend/controllers/userController.js:100-117 | the owner always comes from the session; a search term is present exactly when `q` has a non-blank character, and it is then `q` trimmed |
| LeadQuery.BuildQuery | backend/controllers/userController.js:100-117 | building the filter step by step yields the requested query |
| LeadQuery.PageParam | backend/controllers/userController.js:95-97 | the page is what `parseInt` reads when that is a non-zero number, and 1 when the parameter is absent, NaN or 0 |
| LeadQuery.LimitParam | backend/controllers/userController.js:95-98 | the limit is what `parseInt` reads, capped at 100, when that is a non-zero number, and 20 when the parameter is absent, NaN or 0 |
| LeadQuery.PageOfNumber | backend/controllers/userController.js:97 | a written number is the page unless it is 0, and negatives are kept |
| LeadQuery.LimitOfNumber | backend/controllers/userController.js:98 | a written number is the limit unless it is 0, capped at 100, and negatives are kept |
| LeadQuery.PagingDefaults | backend/controllers/userController.js:95-98 | absent or non-numeric parameters give page 1 and limit 20 |
| LeadQuery.ZeroAndTextFallBack | backend/controllers/userController.js:97-98 | "0" and "abc" fall back to the defaults |
| LeadQuery.NegativesPassThrough | backend/controllers/userController.js:97-98 | "-3" and "-5" are taken as given |
| LeadQuery.LargeLimitCapped | backend/controllers/userController.js:98 | "250" is capped to 100 |
| LeadQuery.PagePrefixRead | backend/controllers/userController.js:97 | " 7 pages" reads as page 7 |
| LeadQuery.PlusSignRead | backend/controllers/userController.js:97 | "+7" reads as page 7 |
| LeadQuery.LeadingZerosRead | backend/controllers/userController.js:98 | "007" reads as limit 7 |
| LeadQuery.NegativeLeadingZeroRead | backend/controllers/userController.js:97 | "-05" reads as page -5 |
| LeadQuery.NegativePageAndLimit | backend/controllers/userController.js:97-98 | `page=-3&limit=-5` gives the positive skip 20 |
| LeadQuery.Skip | backend/controllers/userController.js:123 | the number of leads before the page, `(page - 1) * limit`; SecondPageParams and NegativePageAndLimit fix it on examples |
| LeadQuery.TotalPages | backend/controllers/userController.js:132 | the page count is the ceiling of total over limit, bounded from both sides for either sign of the limit, and 0 for no leads |
| LeadQuery.Select | backend/controllers/userController.js:120-121 | a lead is selected exactly when it is stored and matches the filter, as many times as it is stored, so the count is that of `countDocuments` |
| LeadQuery.InsertNewest | backend/controllers/userController.js:122 | inserting keeps the same leads, plus one |
| LeadQuery.InsertKeepsOrder | backend/controllers/userController.js:122 | inserting into a newest-first sequence keeps it newest first |
| LeadQuery.SortNewestFirst | backend/controllers/userController.js:122 | the sort is a permutation of its input, newest `created_at` first |
| LeadQuery.Window | backend/controllers/userController.js:123-124 | the page holds the leads from position skip on, at most `|limit|` of them, all if the limit is 0 |
| LeadQuery.PageMatches | backend/controllers/userController.js:119-124 | every lead on a page is stored, matches the filter and belongs to its owner, and the page is newest first |
| LeadQuery.SecondPageParams | backend/controllers/userController.js:95-98 | `?page=2&limit=10` skips 10 |
| LeadQuery.TwentyFiveInPagesOfTen | backend/controllers/userController.js:132 | 25 leads at limit 10 make 3 pages |
| LeadQuery.WindowInside | backend/controllers/userController.js:123-124 | a window that fits holds exactly the leads from skip to skip + limit |
| LeadQuery.ResultsLength | backend/controllers/userController.js:120-124 | sorting the matches keeps their number |
| LeadQuery.SecondPageOfTwentyFive | backend/controllers/userController.js:119-133 | of 25 matching leads, page 2 at limit 10 is the 11th to 20th newest |
| LeadQuery.NameIsNotSearched | backend/controllers/userController.js:104-106 | a lead whose email, city and company miss the term is not found, whatever its name, with the filter sent as built |
| LeadQuery.SearchFindsEmail | backend/controllers/userController.js:104-106 | a lead whose email contains the term, in any letter case, is found |
| LeadController.EmailTaken | backend/models/lead_model.js:12 | the unique index on `email` refuses the write: another lead already holds the email |
| LeadController.WellFormed | backend/models/lead_model.js:3-50 | the store invariant: ids unique, increasing and below the next id, every lead stored-valid, emails distinct; every store method keeps it |
| LeadController.IndexOf | backend/controllers/userController.js:140 | the lookup finds a position holding the id, or reports that no lead holds it |
| LeadController.NewDoc | backend/controllers/userController.js:89 | the owner written after the body wins over any `createdBy` in it |
| LeadController.LeadStore.constructor | backend/models/lead_model.js:52 | an empty collection is well formed |
| LeadController.LeadStore.CreateLead | backend/controllers/userController.js:88-91 | validation is checked first, then email uniqueness. A new lead is appended with the next id, the owner and both timestamps, and is what the handler returns; a failure changes nothing; the store stays well formed |
| LeadController.LeadStore.GetLeads | backend/controllers/userController.js:94-134 | the reply carries the page of the owner's matching leads, newest first, with page, limit, the total of all matches and the page count; a negative skip is an error |
| LeadController.LeadStore.GetLeadById | backend/controllers/userController.js:139-143 | a malformed id is a cast error; the lead is found exactly when some stored lead has the id, otherwise the error is "Lead not found" |
| LeadController.LeadStore.UpdateLead | backend/controllers/userController.js:146-153 | checks run in order: cast, update validators, not found, duplicate email. On success only that lead changes: the body's lower-cased paths are set and `updated_at` is renewed. The ids and the store's invariants are kept |
| LeadController.LeadStore.DeleteLead | backend/controllers/userController.js:156-160 | a found lead is removed and exactly the leads with other ids remain; `Ok(lead)` is the document `findByIdAndDelete` hands the handler, which then replies `{ success: true, message: 'Lead deleted' }`. Otherwise the error is "Lead not found" and nothing changes |
| LeadController.DeleteKeepsWellFormed | backend/controllers/userController.js:157 | removing one lead keeps ids increasing, leads valid and emails unique |
| LeadController.DeleteRemovesId | backend/controllers/userController.js:157 | removing the lead at a position removes exactly the lead with its id |
| LeadController.CreateThenGet | backend/controllers/userController.js:88-143 | a created lead is read back by its id, equal to what the create returned |
| LeadController.NotFoundReply | backend/controllers/userController.js:141 | a missing lead reaches the client as 404 "Lead not found" |
| JsString.Utf16Length | backend/models/user_signup_model.js:18 | JavaScript's `length`, in UTF-16 code units: between one and two per character; Utf16LengthOfChar and Utf16LengthConcat fix it on every input |
| JsString.Utf16LengthOfChar | backend/models/user_signup_model.js:18 | a character at or above U+10000 is two code units, every other character one |
| JsString.Utf16LengthConcat | backend/models/user_signup_model.js:18 | the length of a concatenation is the sum of the lengths |
| JsString.Utf16LengthOfBmp | backend/models/user_signup_model.js:18 | text within the Basic Multilingual Plane has one code unit per character |
| UserModel.ValidSignup | backend/models/user_signup_model.js:4-20 | every validator of the user schema holds, `minlength` counting UTF-16 code units; SignupErrors is empty exactly then |
| UserModel.SignupErrors | backend/models/user_signup_model.js:4-20 | no path fails exactly when name and email are non-empty and the password has at least 6 UTF-16 code units; each of the three paths is reported exactly when it fails |
| UserModel.AstralPasswordAccepted | backend/models/user_signup_model.js:18 | three emoji, six code units, pass `minlength: 6` |
| UserModel.ShortPasswordRefused | backend/models/user_signup_model.js:18 | "abcde" fails on the password alone |
| UserModel.UserDocument.constructor | backend/models/user_signup_model.js:9-14 | a new document keeps name and password, stores the email lower-cased, and marks the password modified |
| UserModel.UserDocument.HashBeforeSave | backend/models/user_signup_model.js:23-27 | the hook hashes the password exactly when it was modified, and touches nothing else |
| UserModel.UserDocument.Save | backend/models/user_signup_model.js:22-27 | saving runs the hook, then clears the modified flag |
| UserModel.UserDocument.ComparePassword | backend/models/user_signup_model.js:30-32 | the verdict is the comparison of the entered password with the stored hash |
| UserModel.SaveTwice | backend/models/user_signup_model.js:23-27 | saving twice hashes once |
| UserModel.SavedPasswordVerifies | backend/models/user_signup_model.js:22-32 | after a save, `comparePassword` accepts exactly the passwords with the same hash |
| AuthController.UserStore.constructor | backend/models/user_signup_model.js:34 | an empty user collection, which is well formed |
| AuthController.UserStore.Register | backend/controllers/userController.js:32-40 | a taken (lower-cased) email is refused with 400, then the fields are validated. On success the user is stored under the lower-case email with the hashed password and the next id. The returned view has no password; a failure changes nothing |
| AuthController.UserStore.Login | backend/controllers/userController.js:43-50 | credentials are accepted exactly when a user has the lower-cased email, a password is given and the comparison accepts it. An unknown email and a refused password give the same 401 error; a known email without a password gives bcrypt's "Illegal arguments" error |
| AuthController.RegisterThenLogin | backend/controllers/userController.js:32-50 | after a registration, the credential check accepts the same email and password, as the same user |
| AuthController.IllegalArgumentsReply | backend/controllers/userController.js:49 | a login without a password, for a known email, reaches the client as 500 "Illegal arguments: undefined, string" |
| AuthController.InvalidCredentialsReply | backend/controllers/userController.js:47-50 | a failed login reaches the client as 401 "Invalid email or password" |
| AuthController.EmailExistsReply | backend/controllers/userController.js:36 | a taken email reaches the client as 400 "Email already exists" |

## Left out

- Session tokens are not modelled: JWT signing and verification, cookies, `sendToken`, logout, `/me` and the authentication middleware. The handlers take the authenticated user's id as a parameter.
- bcrypt is not modelled. Hashing and comparison are the parameters `hash` and `compare`, and the cost factor 12 has no counterpart. `hash` is a function, so bcrypt's random salt is not modelled: the same password always gets the same hash here.
- AuthController.UserStore.Login: stops at the credential decision. On success the handler calls `user.getJwtToken()`, which the user schema does not define, and the cookie and reply after it are not modelled. The email is a string. An absent email, which would reach `findOne` as `undefined`, is not modelled. A password that is present but not a string (a JSON number, say) is also refused by bcrypt, with "Illegal arguments: number, string". The model has only the absent case.
- JsString.ToLower: lower-cases the ASCII letters only, not the full Unicode case mapping of `toLowerCase`.
- JsString.ContainsIgnoreCase: matches the term literally. The handler passes the term to `new RegExp` unescaped, so metacharacters act as a pattern, and a malformed pattern throws. Neither is modelled.
- Numbers are unbounded integers. `parseInt` results beyond 2^53 lose precision in JavaScript, and `Math.ceil` works on a floating-point quotient; neither is modelled. Non-integral `score` or `lead_value` values are not modelled.
- Request bodies hold values of their schema types. The mapper's casting of other types (a number given as a string, an `_id` in an update body, a timestamp in a body) is not modelled, and neither is `null` given for a path.
- Query-string parameters are single strings; repeated parameters, which Express turns into arrays, are not modelled.
- LeadController.LeadStore.UpdateLead: the body is the set of schema paths it provides. The handler passes the request body to `findByIdAndUpdate` as it is, so update operators in it (such as `$inc`) would be applied, and the update validators do not check every operator. A stored score could then leave 0..100. That is not modelled, and the store invariant relies on it.
- AuthController.UserStore.Register: an absent name, email or password is the empty string, so it fails `required`.
- Message wording of the database's own errors is not modelled, beyond the fields the middleware reads. Two such messages reach the client as the body of a 500: the validation message and the refusal of a negative skip. The next two lines cover them.
- DbErrors.ValidationFailure: the message is a stand-in, the prefix and the failing path names joined by commas ("Lead validation failed: first_name,email"). Mongoose writes each path with its validator's message, joined by ", ". Examples are "first_name: Path `first_name` is required." and the user schema's own "Name is required", "Email is required" and "Password is required". Those per-path messages, and so the exact text of a validation 500, are not modelled.
- DbErrors.NegativeSkip: the code 51024 and the message "BSON field 'skip' value must be >= 0, actual value '<skip>'" follow recent MongoDB servers. Other server versions word it differently, for example "Skip value must be non-negative, but received: -10". Only the fact that it is a 500 with the server's own message is independent of the version.
- LeadQuery.PathValue: assumes the filter reaches the database as built, which holds with Mongoose's `strictQuery` off (the default since Mongoose 7). With `strictQuery` on (the Mongoose 6 default), Mongoose drops the `name` path, which is not in the schema, leaving `{}` inside the `$or`. That clause matches every document, so every lead of the owner would match any non-blank `q`. The Mongoose version is not fixed by the source files, so this case is not modelled, and NameIsNotSearched holds only under the assumption.
- The database's ordering of leads with equal `created_at` is not specified. The model keeps insertion order among them, and that order is not part of any stated property.
- Negative skip and limit follow MongoDB: a negative skip is refused with an error, and a negative limit returns at most its absolute value.
- The unique index is checked before each write. Two requests racing on one email are not modelled.
- Nothing is modelled about Express when the middleware itself throws; the model's `Threw` reply stops there. A status outside the valid HTTP range, which `res.status` would reject, is not modelled either.
- The number of leads (`countDocuments`) and the page are read in two steps; concurrent writes between them are not modelled.
- backend/utils/errorHandler.js and backend/middlewares/catchAsync.js are not part of this model. `ErrorHandler` is assumed to be an `Error` subclass that sets `statusCode`, and `catchAsync` is assumed to pass every rejection to `next`.
- Routes, the app and server set-up, backend/models/user_login_model.js and the frontend are not modelled.
