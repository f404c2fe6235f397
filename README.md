# Referral-system registration engine, in Dafny

This project models the core of a referral-tracking service written in Go.
Users register as **generators**, who get a shareable referral code, or as
**contributors**, who redeem a generator's code. The model covers:

- the **registration engine** (`RegisterUser` with `handleCreateReferralLink` and
  `handleAddContribution`): input validation, the duplicate-(email, role) check,
  and one transaction that inserts a user plus either a referral link or a
  contribution;
- **referral-link rotation** (`GenerateReferralLink`): soft-delete a user's links,
  then insert a fresh one, all in one transaction;
- the **helpers**: the 10-character code generator, the `"Nd"` expiry parser,
  and the error-to-HTTP-status classifier;
- the **product use case**: UUID guards, the SKU check before insert, and
  pass-through reads over a product table.

The store is four in-memory tables (users, roles, referral_links,
contributions). A row with `deletedAt` set is soft-deleted: lookups skip it. A
lookup answers `Found`, `NotFound` or `Failed`, so "no such row" is never an
error. A transaction (`Store.Tx`) holds a staged copy of the tables. Writes go
to the copy, `Commit` publishes it, and `Rollback` drops it. `Database.openTx`
counts open transactions, so "every path closes its transaction" is a
postcondition.

The main property is **atomicity**. `Registration.RegisterUserSpec` and
`ReferralLinks.GenerateReferralLinkSpec` state the full outcome of one call.
On every failure path the committed tables are unchanged. On success exactly
the rows of the operation are added. The imperative methods
`UserUsecase.RegisterUser` and `ReferralLinkUsecase.GenerateReferralLink` run
the Go code's steps in order against a `Database`. Each is proved to produce
exactly that outcome and to leave no transaction open.

Things outside the model are parameters, bundled in `Effects.Env`:

- the clock (`now`, in nanoseconds since the Unix epoch);
- the UUIDs from `uuid.NewString`;
- the bcrypt outcome;
- the random draws behind the referral code;
- for each repository or transaction call, the driver error it returns, if any.

`uuid.Parse` is a predicate given to `ProductUsecase`. `time.ParseDuration`
is a function argument of `ParseDurationString`.

Behaviour of the Go code that the model keeps:

- A referral link expires `now + 7 days`, recomputed on every call
  (usecase/user_usecase.go:143, usecase/referral_link_usecase.go:58).
- There is one `RegisterUser`, which takes a role. A contributor must give a
  password too (usecase/user_usecase.go:187-189).
- usecase/user_usecase.go has no self-referral check, no duplicate-contribution
  check and no login.
- The referral-code lookup and the (email, role) lookup run on the plain
  connection, so they read the committed tables, not the open transaction.
- `GetReferralLinkByCode` does not consult a link's expiry
  (repository/referral_link_repository.go:52). A live but expired code is
  accepted.
- The product listing selects no `description` column
  (repository/product_repository.go:18), so listed products carry an empty
  description.

## Model

| member | source | states |
|---|---|---|
| Errors.SentinelTextsDistinct | usecase/errors.go:6-19 | the twelve sentinel errors have pairwise different messages |
| Errors.Text | usecase/errors.go:7-19 | each sentinel has a non-empty message; any other error carries its own text |
| Util.CodeFromDraws | util/util.go:22-32 | the code spelled by ten draws has exactly ten characters, all from the 62-character charset |
| Util.GenerateUniqueCode | util/util.go:22-32 | the buffer-filling loop returns ten characters, the i-th being the charset character at the i-th draw |
| Util.EveryCodeIsGenerated | util/util.go:26-31 | every ten-character string over the charset is what some sequence of draws produces, so the shape stated above is exact |
| Util.IndexInCharset | util/util.go:26 | each charset character sits at the index a draw must return to select it |
| Util.Atoi | util/util.go:40 | strconv.Atoi succeeds exactly on an optional sign followed by at least one digit whose value fits in int64, and returns that signed value |
| Util.AtoiAcceptsSignAndLeadingZeros | util/util.go:40 | "+7", "07" and "-07" are read as 7, 7 and -7; "7a", "" and "-" are rejected |
| Util.DaysDuration | util/util.go:44 | `time.Duration(value) * 24 * time.Hour` is an int64, and exactly value days when \|value\| <= 106751 |
| Util.DigitsRoundTrip | util/util.go:40 | reading back the decimal digits of a natural number gives that number |
| Util.AtoiItoaRoundTrip | util/util.go:40 | Atoi reads back every int64 written in decimal, negative ones included |
| Util.Wrap64 | util/util.go:44 | int64 wrap-around: the result is in range, congruent to the input modulo 2^64, and equal to it when the input is already in range |
| Util.ParseDurationString | util/util.go:35-53 | a 'd'-suffixed string fails exactly when its prefix is not an integer; any other string fails exactly when the standard parser fails; every failure returns the zero time |
| Util.SevenDaySettings | util/util.go:39-44 | "7d", "+7d" and "07d" all give now + 7 days |
| Util.DayCountSetting | util/util.go:39-44 | "Nd" for an int64 N gives now plus N days, wrapped as int64; for \|N\| up to 106751 it is exactly now + N*24h |
| Util.DaySuffixIgnoresStandardParser | util/util.go:39-47 | a string ending in 'd' never reaches time.ParseDuration |
| Util.BareDayUnitIsRejected | util/util.go:40-43 | "d" alone fails with the zero time |
| Util.DayCountOverflowWraps | util/util.go:44 | one day past 106751 overflows silently and yields an instant before now |
| Seqs.FirstIndex | repository/user_repository.go:57-66 | the index of the first element in table order that satisfies the filter, and None exactly when none does; it stands for the row a single-row query returns |
| Store.GetUserByEmailAndRole | repository/user_repository.go:41-67 | Failed on a driver error; otherwise Found gives a live user with this email joined to a role of this name, and NotFound holds exactly when no such user exists |
| Store.GetRoleByName | repository/role_repository.go:22-40 | Found gives a live role of that name; NotFound holds exactly when none is live |
| Store.GetReferralLinkByCode | repository/referral_link_repository.go:42-70 | Found gives a live link with that code; NotFound holds exactly when every link with that code is soft-deleted or absent |
| Store.SoftDeleteLinks | repository/repository.go:18 | the user's links all end up soft-deleted; other users' rows and already-deleted rows are unchanged; only deletedAt changes |
| Store.RotationLeavesOnlyNewLink | usecase/referral_link_usecase.go:46-62 | after soft-delete then insert, the inserted link is the user's only live link |
| Store.RotationKeepsOneActiveLink | usecase/referral_link_usecase.go:46-62 | soft-delete then insert keeps every generator at most one live link |
| Store.InsertForNewGeneratorKeepsOneActiveLink | usecase/user_usecase.go:137-153 | inserting a live link for a generator with no live link keeps the one-live-link invariant |
| Store.Database.constructor | repository/db_transaction_repository.go:15-19 | a database starts with the given tables and no open transaction |
| Store.Database.BeginTx | repository/db_transaction_repository.go:21-33 | on success, a fresh open transaction staged on the committed tables, one more open transaction; on failure the error and nothing opened |
| Store.Tx.constructor | repository/db_transaction_repository.go:27 | a new transaction is open and its staged copy equals the committed tables |
| Store.Tx.CreateUser | repository/user_repository.go:23-39 | appends the user to the staged users, or returns the driver error and stages nothing |
| Store.Tx.CreateReferralLink | repository/referral_link_repository.go:24-40 | appends the link to the staged links, or returns the driver error and stages nothing |
| Store.Tx.CreateContribution | repository/contribution_repository.go:23-39 | appends the contribution to the staged contributions, or returns the driver error and stages nothing |
| Store.Tx.DeleteReferralLinkByUserID | repository/repository.go:18 | soft-deletes the user's staged links, or returns the driver error and stages nothing |
| Store.Tx.Commit | usecase/referral_link_usecase.go:69-73 | ends the transaction; publishes the staged tables on success and nothing on failure |
| Store.Tx.Rollback | usecase/user_usecase.go:96 | ends the transaction and leaves the committed tables unchanged |
| Effects.NewReferralLink | usecase/user_usecase.go:137-146 | the inserted link belongs to the given generator, is live, has a well-shaped code and expires seven days after now |
| Validation.IsValidEmail | usecase/user_usecase.go:183-195 | the check, a split at the first '@' and the last '.', accepts exactly the strings the e-mail regex matches |
| Validation.SplitIsAtFirstAtAndLastDot | usecase/user_usecase.go:183 | a string the regex matches splits only at its first '@' and its last '.' |
| Validation.BadEmailIsRejected | usecase/user_usecase.go:193-195 | "bad-email" does not match the pattern |
| Validation.WellFormedEmailIsAccepted | usecase/user_usecase.go:183 | "test@example.com" matches the pattern |
| Validation.ValidateRegisterUserInput | usecase/user_usecase.go:181-203 | succeeds exactly when all six checks pass, and then names the requested role; every failure is one of the six validation errors |
| Validation.FirstFailingCheckDecides | usecase/user_usecase.go:184-201 | each validation error is returned exactly when its check fails and all earlier checks pass, in the order email, password, role, format, role value, referral code |
| Registration.NewContribution | usecase/user_usecase.go:164-172 | the contribution links the found referral link to the new user, accessed now, live |
| Registration.RoleWrite | usecase/user_usecase.go:100-120 | a generator stages exactly the new link, or fails with the insert error; a contributor fails with the lookup error, with ReferralCodeNotFound when no live link has the code, or with the insert error, and otherwise stages exactly the contribution for that link |
| Registration.RegisterUserSpec | usecase/user_usecase.go:41-135 | a failure leaves the tables unchanged; a generator success adds exactly the user (input email, hashed password, found role id) and one fresh link; a contributor success adds exactly the user and one contribution to the live link of the code, and reports no link |
| Registration.RegisterUserSucceeds | usecase/user_usecase.go:41-135 | a valid input with a free (email, role) pair and a live role succeeds when no call fails; a contributor also needs a live link for the code |
| Registration.RegisterUserSurfacesFirstFailure | usecase/user_usecase.go:53-126 | each failing step returns its own error, in step order (hash, user lookup, role lookup, BeginTx, CreateUser, link insert or code lookup and contribution insert, Commit); failures before BeginTx open no transaction |
| Registration.ValidationFailureTouchesNothing | usecase/user_usecase.go:48-51 | invalid input returns its validation error with no read, no write and no transaction, whatever the environment |
| Registration.BadEmailWritesNothing | usecase/user_usecase.go:193-195 | registering "bad-email" yields InvalidEmail and writes no row |
| Registration.DuplicateEmailRejected | usecase/user_usecase.go:59-66 | a live user with the same email and role gives EmailAlreadyExist with no transaction begun |
| Registration.MissingRoleRejected | usecase/user_usecase.go:68-75 | no live role of the requested name gives InvalidRole with nothing written and no transaction begun |
| Registration.UnknownReferralCodeWritesNothing | usecase/user_usecase.go:155-162 | a contributor code with no live link gives ReferralCodeNotFound; the transaction that inserted the user is rolled back |
| Registration.RegistrationKeepsEmailRoleUnique | usecase/user_usecase.go:59-93 | if no two live users share email and role before, none do after |
| Registration.RegistrationLeavesOtherRolesFree | usecase/user_usecase.go:59-66 | after a registration under one role, the same email is still free under any other role name |
| Registration.GeneratorDoesNotBlockContributor | usecase/user_usecase.go:59 | after a generator registers an email, the same email is still free for the contributor role |
| Registration.ContributorDoesNotBlockGenerator | usecase/user_usecase.go:59 | after a contributor registers an email, the same email is still free for the generator role |
| Registration.RegistrationKeepsOneActiveLink | usecase/user_usecase.go:101-108 | with a fresh user id, a registration keeps every generator at most one live link |
| Registration.UserUsecase.constructor | usecase/user_usecase.go:25-39 | the use case works on the given database |
| Registration.UserUsecase.RegisterUser | usecase/user_usecase.go:41-135 | result and committed tables are exactly those of RegisterUserSpec; a transaction is begun only when the spec says so, and none is left open |
| Registration.UserUsecase.WriteForRole | usecase/user_usecase.go:100-120 | a generator gets exactly a new referral link staged and reported; a contributor gets exactly the contribution for the live link of the code; any failure stages nothing and returns its error |
| Registration.UserUsecase.HandleCreateReferralLink | usecase/user_usecase.go:137-153 | stages exactly the new referral link and returns it, or returns the insert error and stages nothing |
| Registration.UserUsecase.HandleAddContribution | usecase/user_usecase.go:155-179 | lookup error, or ReferralCodeNotFound, or the insert error with nothing staged; otherwise stages exactly the contribution and returns it |
| ReferralLinks.GenerateReferralLinkSpec | usecase/referral_link_usecase.go:33-76 | a failure at any step leaves the tables unchanged; a BeginTx failure begins nothing; success returns a link for the user with a ten-character code expiring now + 7 days, soft-deletes the user's old links and appends the new one |
| ReferralLinks.RotationSucceeds | usecase/referral_link_usecase.go:33-76 | a rotation in which begin, delete, insert and commit all succeed returns the new link |
| ReferralLinks.RotationSurfacesFirstFailure | usecase/referral_link_usecase.go:46-73 | a delete, insert or commit failure returns that error, in step order, with the tables unchanged |
| ReferralLinks.RotationLeavesOnlyTheNewLink | usecase/referral_link_usecase.go:46-69 | after a committed rotation the user's only live link is the returned one |
| ReferralLinks.RotationKeepsInvariant | usecase/referral_link_usecase.go:46-69 | on every path, every generator keeps at most one live link |
| ReferralLinks.RotationLeavesOtherUsersAlone | usecase/referral_link_usecase.go:46 | links of other generators are exactly as before |
| ReferralLinks.FailedInsertKeepsPreviousLink | usecase/referral_link_usecase.go:62-67 | if the insert fails, the previously live link is still live |
| ReferralLinks.ReferralLinkUsecase.constructor | usecase/referral_link_usecase.go:23-31 | the use case works on the given database |
| ReferralLinks.ReferralLinkUsecase.GenerateReferralLink | usecase/referral_link_usecase.go:33-76 | result and committed tables are exactly those of GenerateReferralLinkSpec; no transaction is left open |
| HttpErrors.MapErrorToHTTPResponse | handler/errors.go:30-42 | the body's status equals the response status; 500 exactly for unmapped errors; the message is the error's text for mapped errors and "something went wrong" otherwise |
| HttpErrors.MappedExactlySentinels | handler/errors.go:15-28 | the map holds exactly the twelve sentinel errors |
| HttpErrors.StatusOfEachError | handler/errors.go:15-28 | required fields, invalid email, invalid role and unknown code give 400; duplicate email and multiple submit 409; own code 412; role not found 404; invalid credentials 401 |
| HttpErrors.SameTextIsNotSameError | handler/errors.go:31 | a different error carrying a sentinel's text gives 500 with the fixed message |
| HttpErrors.StatusOfCategory | handler/errors.go:15-41 | validation errors get 400, conflicts 409 or 412, bad credentials 401, anything unmapped 500 |
| HttpErrors.CategoriesGetDistinctStatuses | handler/errors.go:15-41 | validation, conflict, authentication and internal errors never share a status |
| HttpErrors.UnknownCodeSharesValidationStatus | handler/errors.go:21 | an unknown referral code is answered 400, like a validation failure |
| Products.ErrorText | usecase/product_usecase.go:34-60 | the fixed failures (invalid id, duplicate SKU, no rows) have non-empty messages; a driver error carries its own text |
| Products.FixedErrorTextsDistinct | usecase/product_usecase.go:34-60 | the fixed failures have pairwise different messages |
| Products.Listed | repository/product_repository.go:18-27 | a listed product is the stored row with an empty description |
| Products.Page | repository/product_repository.go:18-33 | the page has min(limit, rows left after offset) rows; the i-th is row offset + i with an empty description |
| Products.ReplaceById | repository/product_repository.go:65-72 | every row with the product's id becomes the product; the others are unchanged |
| Products.RemoveById | repository/product_repository.go:74-80 | exactly the rows with another id remain |
| Products.UpdateOfMissingIdChangesNothing | repository/product_repository.go:65-72 | an update matching no row leaves the table unchanged |
| Products.ProductRepository.constructor | repository/product_repository.go:13-15 | the repository starts with the given rows |
| Products.ProductRepository.GetProducts | repository/product_repository.go:17-34 | fails exactly on a driver error or a negative limit or offset; otherwise at most limit rows, each a stored row with an empty description |
| Products.ProductRepository.GetProductByID | repository/product_repository.go:36-44 | with no driver error, returns a row with that id when one exists, and NoRows exactly when none does |
| Products.ProductRepository.GetProductBySKU | repository/product_repository.go:46-54 | with no driver error, returns a row with that SKU when one exists, and NoRows exactly when none does |
| Products.ProductRepository.CreateProduct | repository/product_repository.go:56-63 | appends the product, or returns the driver error and changes nothing |
| Products.ProductRepository.UpdateProduct | repository/product_repository.go:65-72 | replaces the rows with that id, or returns the driver error and changes nothing |
| Products.ProductRepository.DeleteProduct | repository/product_repository.go:74-80 | removes the rows with that id, or returns the driver error and changes nothing |
| Products.ProductUsecase.constructor | usecase/product_usecase.go:17-19 | the use case keeps its repository and its UUID check |
| Products.ProductUsecase.GetProducts | usecase/product_usecase.go:21-29 | exactly the repository's page for limit/offset (descriptions empty), or its error |
| Products.ProductUsecase.GetProductByID | usecase/product_usecase.go:31-37 | a non-UUID id gives "invalid product ID" whatever the table holds; otherwise the repository's answer |
| Products.ProductUsecase.CreateProduct | usecase/product_usecase.go:39-47 | a SKU found on a row with a non-empty id is refused with "product with this SKU already exists" and nothing is inserted; otherwise (a failed lookup counts as absent) the product is inserted once under the fresh id, or the insert error is returned |
| Products.ProductUsecase.UpdateProduct | usecase/product_usecase.go:49-55 | a non-UUID id is refused with "invalid product ID" and the table is unchanged; otherwise the update by id |
| Products.ProductUsecase.DeleteProduct | usecase/product_usecase.go:57-63 | a non-UUID id is refused with "invalid product ID" and the table is unchanged; otherwise the delete by id |

## Left out

- Login, `CheckPasswordHash` and JWT signing: the login flow is not part of usecase/user_usecase.go.
- The self-referral and duplicate-contribution checks: `ErrCantReferralToOwnCode` and `ErrCantMultipleSubmitReferral` are declared but never raised by the code. They appear only in the HTTP mapping.
- bcrypt (`HashPassword`): its outcome, a hash or an error, is the parameter `Env.hashed`. No relation between the password and its hash is modelled.
- `uuid.NewString`: ids come from `Env`. Their uniqueness is a hypothesis of `RegistrationKeepsOneActiveLink`, not a fact of the model.
- `math/rand` and its clock seed: the draws are the parameter `Env.intn`, each an index `r.Intn(62)` can return.
- `time.ParseDuration` and `uuid.Parse`: these are parameters (`parseDuration`, `isUuid`). Their formats are not modelled.
- Several readings of the clock in one call (usecase/user_usecase.go:77, 138, 143, 164): all are the single `Env.now`.
- The repository writes stamp `created_at`/`updated_at` with their own clock reading (repository/referral_link_repository.go:35). The model stores the timestamps the use case sets.
- `DeleteReferralLinkByUserID`: repository/referral_link_repository.go does not implement it; only the interface declares it (repository/repository.go:18). It is modelled as stamping `deleted_at = now` on the user's live links.
- Commit: usecase/referral_link_usecase.go:69 calls a `Commit` that `IDBTransactionRepository` does not declare (repository/repository.go:30-32). usecase/user_usecase.go:122 calls `tx.Commit()` directly. Both are modelled as `Tx.Commit`. A failed commit publishes nothing, and neither caller rolls back after one.
- The product repository's INSERT does not write the `id` column (repository/product_repository.go:57). The model's table keeps the id the use case assigns.
- Products.ProductRepository.GetProducts: a negative LIMIT or OFFSET is modelled as a query error, as PostgreSQL reports. The driver's exact message is not modelled.
- Products.ProductRepository.GetProductByID: the empty product Go returns beside `sql.ErrNoRows` is not modelled. Only the error is.
- `Price float64`: carried as opaque bits and never computed with.
- Concurrency: two registrations racing between the duplicate check and the insert are not modelled. Each call runs alone against the committed tables.
- Logging, `context.Context`, the Echo handlers, the auth middleware, main.go and config.go (environment variables) are not modelled.
- Point lookups (Store.GetUserByEmailAndRole, Store.GetRoleByName, Store.GetReferralLinkByCode, Products.ProductRepository.GetProductByID, Products.ProductRepository.GetProductBySKU): the queries have no ORDER BY (repository/user_repository.go:49-54, repository/role_repository.go:29, repository/referral_link_repository.go:49-53, repository/product_repository.go:38,48). When several live rows match, which one the database returns is unspecified; the model takes the first in table order. Referral codes are random and never checked for uniqueness (util/util.go:22-32), so a contribution may attach to either of two live links sharing a code.
- Util.Atoi, Util.ParseDurationString: Go's `int` is taken to be 64 bits wide, so `strconv.Atoi` accepts exactly the int64 range. On a 32-bit platform it would reject values outside the int32 range, and the model does not cover that.
- Products.Page: the listing query has no ORDER BY (repository/product_repository.go:18), so PostgreSQL may return rows in any order. The model returns them in table order.
- Products.ProductRepository.GetProducts: the scan loop never checks `rows.Err()` (repository/product_repository.go:25-33). A failure part-way through the result set therefore returns the rows read so far with no error. The model does not produce such partial pages.
