# cinescore-server: title ingestion and account lifecycle, in Dafny

This project models two services of the cinescore server.

**Title ingestion (`TitleService.createTitle`).** The service turns one record of an external movie API into:

- a `title` row;
- shared dictionary rows for genres, languages, countries, people and rating sources, each unique by name;
- the join rows that link the title to those entries: genre, language and country links, people under a role, and ratings with their value.

All of this happens inside one all-or-nothing transaction.

**Accounts (`AuthService`).** The server keeps a table of users and changes it through five operations: `register`, `validateAccountVerifyEmail`, `login`, `refreshToken` and `resendAccountVerification`.

The modules follow the program:

| module | file | what it holds |
|---|---|---|
| `Wrappers` | `wrappers.dfy` | `Option`, `Result`, `Outcome` |
| `JsText` | `js_text.dfy` | the JavaScript string primitives the parser relies on: `trim` (with the ECMAScript white-space set), `split`, `join` and `parseInt` |
| `TitleFields` | `title_fields.dfy` | the pure part of `title.service.ts` |
| `TitleStore` | `title_store.dfy` | the tables, as the class `Store`, with the storage calls the service makes: `create`, `createMany`, `findMany` by name, and the rollback |
| `TitleIngest` | `title_ingest.dfy` | each service helper as a function from one database state to the next, and the lemmas about them |
| `TitleService` | `title_service.dfy` | the helpers as methods over a `Store` (the source's `tx`) that run the same queries and inserts in the same order. Each method is proved to produce exactly the state and outcome of its `TitleIngest` function |
| `Credentials` | `credentials.dfy` | `Util.hash` and `Util.match` (argon2), modelled abstractly |
| `Accounts` | `accounts.dfy` | the user table and the five operations |

The account operations are built the same way:

- each one is a function (`RegisterStep`, `VerifyStep`, …) from one table to the next;
- each one has a method of the class `UserTable` proved equal to that function.

Inputs that the code reads from the environment are parameters:

- the clock (`now`, in milliseconds);
- the random verify token;
- the JWT pair that `generateTokens` signs;
- whether `jwtService.verify` accepts a token;
- the outcome of the HTTP fetch (`FetchOutcome`).

Two behaviours of the code are worth stating plainly:

- **A duplicate `imdb_id` is not reported as a conflict.** The unique index makes `tx.title.create` throw a storage error, which the `catch` of `createTitle` turns into `InternalServerError("Failed to create title")` (`DuplicateImdbIdRefused`).
- **Names in one field are not deduplicated.** The list of new names keeps a repeat, and the `createMany` of the dictionary table then violates the unique name. So a name that is not stored yet and is listed twice, as in `"Action, Drama, Action"`, fails the whole ingestion (`ResolveFailsIffNewNameRepeats`, `RepeatedNewGenreFailsIngestion`). A repeated name that is already stored is linked once (`ResolveOnePerName`).

## Model

| member | source | states |
|---|---|---|
| JsText.TrimInfix | src/titles/title.service.ts:339 | `trim` returns a contiguous slice of its input. Everything cut off at either end is white space, and the result has white space at neither end |
| JsText.TrimIdempotent | src/titles/title.service.ts:339 | trimming twice is trimming once |
| JsText.SplitJoin | src/titles/title.service.ts:338 | `split` loses nothing: joining the pieces with the separator gives back the input |
| JsText.SplitConcat | src/titles/title.service.ts:338 | splitting `a + sep + b` gives the pieces of `a` followed by the pieces of `b` |
| JsText.ParseInt | src/titles/title.service.ts:155 | `parseInt(s, 10)` yields a number exactly when, after leading white space and an optional sign, a decimal digit follows (otherwise NaN) |
| JsText.ParseIntDecimal | src/titles/title.service.ts:155 | `parseInt` reads back the decimal numeral of every natural number |
| TitleFields.ParseItemsClean | src/titles/title.service.ts:336-341 | every parsed item is non-empty, contains no comma, and has no white space at either end |
| TitleFields.ParseConcat | src/titles/title.service.ts:336-341 | the items of `a,b` are the items of `a` followed by those of `b`: source order is kept |
| TitleFields.ParseKeepsRepeats | src/titles/title.service.ts:336-341 | `"x, y, x"` parses to `[x, y, x]`: repeated tokens are not removed |
| TitleFields.ParseSingle | src/titles/title.service.ts:336-341 | a comma-free field gives its trimmed text, or nothing when that is blank |
| TitleFields.OrNull | src/titles/title.service.ts:134-148 | an optional column is null exactly when the source value is absent or `'N/A'`, and otherwise holds the source value verbatim |
| TitleFields.BuildTitleData | src/titles/title.service.ts:131-160 | the row built from a record has the following columns: `title`, `imdb_id` and `year` are copied; the twelve optional columns null out `'N/A'`; `type` is movie exactly for `"movie"`; `total_season` is present exactly for a series whose `totalSeasons` is not `'N/A'`, and then holds `parseInt(totalSeasons) \|\| null` |
| TitleFields.MapTitleType | src/titles/title.service.ts:162-164 | `movie` exactly when the type is `"movie"`, `series` for every other value, including an absent one |
| TitleFields.SeasonCount | src/titles/title.service.ts:155 | the count is null exactly when `parseInt` gives NaN or 0; otherwise it is the parsed number |
| TitleFields.MovieHasNoSeasons | src/titles/title.service.ts:152-159 | a movie never carries `total_season`, whatever `totalSeasons` says |
| TitleFields.SeriesStoresSeasonCount | src/titles/title.service.ts:152-157 | a series whose `totalSeasons` is the numeral of a positive n stores n |
| TitleFields.MissingFieldsInOrder | src/titles/title.service.ts:97-98 | the missing fields are listed in the fixed order Title, imdbID, Type, Year, each exactly when its value is absent or empty |
| TitleFields.ValidateMovieData | src/titles/title.service.ts:96-105 | fails exactly when one of the four required fields is absent or empty. The failure is a BadRequest whose message joins the missing field names with `", "` |
| TitleFields.ClassifyFetch | src/titles/title.service.ts:78-91 | an axios failure, or a body with `Response === 'False'`, becomes a BadRequest with the source's message (`Error`, else "Unknown error"); every other body is passed on unchanged |
| TitleFields.MapError | src/titles/title.service.ts:63-67 | a BadRequest is re-thrown unchanged; every other error becomes InternalServerError("Failed to create title") |
| TitleStore.Store.CreateTitleRow | src/titles/title.service.ts:112-114 | `tx.title.create` appends one row under the next id, or fails on a taken `imdb_id` and changes nothing |
| TitleStore.Store.InsertNames | src/titles/title.service.ts:316-320 | a dictionary `createMany` appends one row per name, with consecutive ids. It fails, changing nothing, exactly when the batch repeats a name or names a stored one |
| TitleStore.Store.InsertLinks | src/titles/title.service.ts:328-333 | the link `createMany` appends exactly the given links and touches no other table |
| TitleStore.Store.InsertPersonLinks | src/titles/title.service.ts:249-255 | appends exactly the given title–people links |
| TitleStore.Store.InsertRatings | src/titles/title.service.ts:290-296 | appends exactly the given rating rows |
| TitleStore.Store.Restore | src/titles/title.service.ts:110-128 | a rolled-back transaction puts every table back as it was and keeps the id sequence where it is |
| TitleStore.SelectMembers | src/titles/title.service.ts:308-310 | `findMany({ name: { in: names } })` returns exactly the stored rows whose name is listed |
| TitleStore.UnmatchedMembers | src/titles/title.service.ts:312-313 | the new names are exactly the listed names that are not stored |
| TitleStore.UnmatchedMultiplicity | src/titles/title.service.ts:313 | a name that is not stored appears among the new names as often as in the input: repeats are kept |
| TitleStore.ResolvedCovers | src/titles/title.service.ts:307-325 | after the insert, every listed name has a row, and the old rows are still there, first and unchanged |
| TitleStore.InsertWellFormed | src/titles/title.service.ts:316-320 | inserting distinct new names keeps names unique and ids increasing |
| TitleStore.SelectOnePerName | src/titles/title.service.ts:323-325 | when every listed name is stored, the re-query returns one row per distinct name |
| TitleStore.RepeatedNewNameRepeatsInBatch | src/titles/title.service.ts:312-320 | a new name listed twice makes the `createMany` batch repeat it |
| TitleStore.RatingRowsFor | src/titles/title.service.ts:287-296 | one rating row per entry, in input order. Each row carries the title id, the entry's value and the id of the source named by the entry |
| TitleStore.IdsByName | src/titles/title.service.ts:287 | `sourceMap` has a key for exactly the names of the rows found, and maps each to the id of a row with that name |
| TitleStore.RatingRowsForReference | src/titles/title.service.ts:290-296 | every rating row points to the new title and to a stored rating source |
| TitleIngest.ResolveStep | src/titles/title.service.ts:307-325 | the find, insert-missing, re-find sequence. On success every listed name comes back with a row. On failure the storage error of the dictionary is raised and the state is unchanged |
| TitleIngest.ResolveStepFrame | src/titles/title.service.ts:307-325 | resolution writes only the dictionary it resolves into, and only appends to it |
| TitleIngest.ResolveFailsIffNewNameRepeats | src/titles/title.service.ts:312-320 | resolution fails exactly when a name that is not stored yet is listed twice |
| TitleIngest.ResolveIdempotent | src/titles/title.service.ts:307-325 | resolving the same names again returns the same rows and inserts nothing |
| TitleIngest.ResolveOnePerName | src/titles/title.service.ts:323-333 | the rows found are one per distinct listed name, so a repeated name is linked once. The dictionary stays unique by name |
| TitleIngest.SkippedWritesNothing | src/titles/title.service.ts:171 | an absent, empty or `'N/A'` genre, language, country or people field, and an empty ratings list, change nothing (also lines 189, 207, 226, 263) |
| TitleIngest.FieldStepEffect | src/titles/title.service.ts:166-218 | after `processGenres`, `processLanguages` or `processCountries`, the title is linked in that join table to exactly the rows named in the parsed field |
| TitleIngest.PeopleStepEffect | src/titles/title.service.ts:220-256 | after `processPeople`, the title has, under that role, exactly one link per distinct person named |
| TitleIngest.RatingsStepEffect | src/titles/title.service.ts:258-297 | after `processRatings`, the title's rating rows are exactly one per entry, pointing at the named sources |
| TitleIngest.ProcessorStepFrame | src/titles/title.service.ts:117-125 | each of the seven calls leaves the title table alone, only appends, and writes only its own tables. A people call appends only names not yet stored, and links only under its own role |
| TitleIngest.CreditsFrameKeeps | src/titles/title.service.ts:121-123 | a `processPeople` call for one role leaves the links of the other roles as they were |
| TitleIngest.RunProcessorsRecords | src/titles/title.service.ts:117-125 | when the calls all succeed, every call's relations are recorded for the title, and none is undone by a later call |
| TitleIngest.RelationsRecordedOnSuccess | src/titles/title.service.ts:117-125 | the whole `Promise.all` block, on success, records every relation of the record and only grows the tables |
| TitleIngest.CreateWithRelationsStep | src/titles/title.service.ts:107-129 | on success, the title row is appended under the returned id. On failure, the tables are exactly as before |
| TitleIngest.CreateWithRelationsRecords | src/titles/title.service.ts:107-129 | a committed transaction has recorded every relation of the record for the new title |
| TitleIngest.CreateTitleStep | src/titles/title.service.ts:39-69 | `createTitle` either returns `{ success: true, "Title created successfully", id }` with the next id, or fails with a BadRequest or InternalServerError("Failed to create title") and leaves the tables unchanged |
| TitleIngest.CreateTitleRecordsRelations | src/titles/title.service.ts:39-69 | on a consistent database, a successful `createTitle` appends exactly the built title row, only grows the other tables, and records all its genres, languages, countries, people by role and ratings |
| TitleIngest.DuplicateImdbIdRefused | src/titles/title.service.ts:63-67 | a valid record whose `imdb_id` is taken fails with InternalServerError and changes nothing |
| TitleIngest.InvalidRecordRefused | src/titles/title.service.ts:96-105 | a record missing a required field fails with the BadRequest naming the fields, before any write |
| TitleIngest.RepeatedNewGenreFailsIngestion | src/titles/title.service.ts:166-182 | a genre not stored yet, listed twice, fails the whole ingestion with InternalServerError and leaves the tables unchanged |
| TitleService.Resolve | src/titles/title.service.ts:307-325 | computes `ResolveStep` on the store: the same outcome and the same new tables |
| TitleService.CreateMissing | src/titles/title.service.ts:316-320 | `createMany` is called only when there are new names. It fails exactly when they repeat, and otherwise appends them |
| TitleService.UpsertAndLinkEntities | src/titles/title.service.ts:299-334 | computes `LinkStep` on the store |
| TitleService.ProcessField | src/titles/title.service.ts:166-218 | computes `FieldStep` on the store |
| TitleService.ProcessPeople | src/titles/title.service.ts:220-256 | computes `PeopleStep` on the store |
| TitleService.ProcessRatings | src/titles/title.service.ts:258-297 | computes `RatingsStep` on the store |
| TitleService.InsertRatingRows | src/titles/title.service.ts:287-296 | builds `sourceMap` and appends exactly the rating rows `RatingRowsFor` describes |
| TitleService.ProcessRelations | src/titles/title.service.ts:117-125 | runs the seven calls in order, stops at the first that throws, and computes `RelationsStep` |
| TitleService.CreateTitleWithRelations | src/titles/title.service.ts:107-129 | computes `CreateWithRelationsStep`, rolling the tables back when a relation fails |
| TitleService.CreateTitle | src/titles/title.service.ts:39-69 | computes `CreateTitleStep` |
| Credentials.Hash | src/utils/util.ts:5-8 | a digest is recognisable as one, so `verify` can tell it from any other string |
| Credentials.Match | src/utils/util.ts:10-13 | verifying throws exactly on a string that is not a digest, and succeeds exactly when the digest is that of the candidate |
| Credentials.HashInjective | src/utils/util.ts:5-8 | different inputs have different digests |
| Credentials.MatchHash | src/utils/util.ts:5-13 | `match(hash(a), b)` is `a == b` |
| Credentials.NoSelfMatch | src/utils/util.ts:5-13 | no string verifies against itself |
| Accounts.IndexOfEmail | src/auth/auth.service.ts:30-34 | finds the row with that email, or reports that there is none |
| Accounts.IndexOfId | src/auth/auth.service.ts:62-71 | finds the row with that id, or reports that there is none |
| Accounts.FindByEmail | src/auth/auth.service.ts:107-118 | finds the row with that email only when it is not deleted and its verification flag has the required value |
| Accounts.FindVerifiedById | src/auth/auth.service.ts:153-165 | finds the row with that id only when it is verified and not deleted |
| Accounts.FindByEmailComplete | src/auth/auth.service.ts:107-118 | in a well-formed table the lookup misses exactly when no row with that email is undeleted and has the required verification flag |
| Accounts.FindVerifiedByIdComplete | src/auth/auth.service.ts:153-165 | in a well-formed table the lookup misses exactly when no row with that id is verified and undeleted |
| Accounts.RegisterStep | src/auth/auth.service.ts:29-53 | fails with BadRequest("User already exists") exactly when the email is taken, and changes nothing. Otherwise it appends exactly one user, with the password's digest, the verify token's digest and an expiry 15 minutes ahead, and mails the raw token and the new id |
| Accounts.VerifyStep | src/auth/auth.service.ts:60-103 | NotFound exactly when the user, its token or its expiry is missing. Then: a stored token that is not a digest makes `verify` throw; a token whose digest is not the stored one gives BadRequest("Tokens are not matched"); a matching token past its expiry gives BadRequest("Token is expired"), so the token is matched before the expiry is checked. Succeeds exactly when the stored token is the digest of the presented one and has not expired. Success verifies that user and clears both token fields. Every failure changes nothing |
| Accounts.LoginStep | src/auth/auth.service.ts:105-149 | NotFound exactly when no verified, undeleted user has the email. Then: a stored password that is not a digest makes `verify` throw, and a wrong password gives BadRequest("Credentials not valid"). Succeeds exactly when the password matches. Success stores the refresh token's digest and `resetTokenExp`, leaves `refreshTokenExp` alone, returns the access token, and touches only that user. Every failure changes nothing |
| Accounts.RefreshStep | src/auth/auth.service.ts:151-199 | NotFound exactly when the verified, undeleted user, its refresh token or its expiry is missing. Then: a stored token that is not a digest makes `verify` throw; a token that does not match, or a matching one past its expiry, gives BadRequest("Tokens are not matched or expired"); a matching, unexpired token whose JWT does not verify is rejected. Succeeds exactly when the stored token is the digest of the presented one, has not expired, and the JWT verifies. Success stores the new refresh token and an expiry 7 days ahead. Every failure changes nothing |
| Accounts.ResendStep | src/auth/auth.service.ts:201-250 | NotFound exactly when no unverified, undeleted user with a token and an expiry has the email. BadRequest("Token is valid right now. no need to request new") exactly when that token has not expired yet. Succeeds exactly when it has expired. Success stores a new digest with an expiry 15 minutes ahead and mails that digest. Every failure changes nothing |
| Accounts.RegisterKeepsWellFormed | src/auth/auth.service.ts:29-47 | registering keeps emails unique and ids increasing |
| Accounts.OperationsKeepWellFormed | src/auth/auth.service.ts:24-250 | every operation, whatever its outcome, keeps emails unique and ids increasing |
| Accounts.RegisterThenVerify | src/auth/auth.service.ts:38-98 | the link mailed by a registration verifies the new account at any time up to its expiry |
| Accounts.VerifyTwiceFails | src/auth/auth.service.ts:72-98 | a second verification with the same link fails with NotFound("User not exist") |
| Accounts.UserTable.Register | src/auth/auth.service.ts:24-58 | computes `RegisterStep` on the table and keeps it well formed |
| Accounts.UserTable.ValidateAccountVerifyEmail | src/auth/auth.service.ts:60-103 | computes `VerifyStep` on the table |
| Accounts.UserTable.Login | src/auth/auth.service.ts:105-149 | computes `LoginStep` on the table |
| Accounts.UserTable.RefreshToken | src/auth/auth.service.ts:151-199 | computes `RefreshStep` on the table |
| Accounts.UserTable.ResendAccountVerification | src/auth/auth.service.ts:201-250 | computes `ResendStep` on the table |
| Accounts.RefreshNeedsExpiry | src/auth/auth.service.ts:166-168 | while no user has a refresh-token expiry, `refreshToken` fails with NotFound |
| Accounts.OperationKeepsNoRefreshExpiry | src/auth/auth.service.ts:131-139 | no operation gives a user a refresh-token expiry when none has one |
| Accounts.RefreshNeverSucceeds | src/auth/auth.service.ts:131-189 | whatever calls were made since the table was empty, `refreshToken` fails |
| Accounts.RefreshTwiceFails | src/auth/auth.service.ts:181-189 | after a successful refresh, presenting the new refresh token fails |
| Accounts.ResendLinkNeverVerifies | src/auth/auth.service.ts:226-241 | the link mailed by `resendAccountVerification` fails with "Tokens are not matched" |
| Accounts.LoginIntendedStep | src/auth/auth.service.ts:131-139 | `login` setting `refreshTokenExp`: same guards, and success stores the digest and a 7-day expiry |
| Accounts.LoginIntendedAnswersAlike | src/auth/auth.service.ts:105-149 | the corrected `login` gives the caller exactly the answer the written one gives |
| Accounts.LoginThenRefresh | src/auth/auth.service.ts:131-189 | with the corrected `login`, its refresh token is accepted until it expires |
| Accounts.RefreshIntendedStep | src/auth/auth.service.ts:181-189 | `refreshToken` storing the digest of the new token: same guards and outcome |
| Accounts.RefreshIntendedAnswersAlike | src/auth/auth.service.ts:151-199 | the corrected `refreshToken` gives the caller exactly the answer the written one gives |
| Accounts.RefreshChains | src/auth/auth.service.ts:169-189 | with the corrected `refreshToken`, the refresh token it issues is itself accepted until it expires |
| Accounts.ResendIntendedStep | src/auth/auth.service.ts:226-241 | `resendAccountVerification` mailing the raw token whose digest it stores |
| Accounts.ResendIntendedRefusesAlike | src/auth/auth.service.ts:201-250 | the corrected resend stores the same row as the written one and refuses exactly when it does, with the same error |
| Accounts.ResendThenVerify | src/auth/auth.service.ts:226-241 | with the corrected resend, the mailed link verifies the account until it expires |

## Left out

- The HTTP call of `fetchMovieData` is left out: axios, the URL, the timeout and the API key. Its outcome is an input (`FetchOutcome`); only its classification into BadRequest is modelled.
- The configuration checks of the `TitleService` constructor and all logging are left out.
- The `Promise.all` block is modelled as the seven calls run one after another in the listed order, stopping at the first that throws. In the source they run concurrently on one transaction. The interleavings are not modelled, such as two `processPeople` calls both finding a person missing and both inserting it.
- Prisma is modelled as in-memory tables. `$transaction` is a snapshot, restored when the callback throws. One id counter serves every table, where the database keeps one sequence per table. A failed `createMany` leaves the counter where it was, where a database may have consumed sequence values; ids are only compared for equality and order, so no property depends on their exact values. The counter is not rolled back by a restore, as with a database sequence. The unique indexes on `imdb_id` and on every dictionary name are assumed, because the Prisma schema is not part of this model. Link tables have no unique index.
- A `findMany` result is modelled in insertion order, the order of the stored rows.
- TitleFields.OrNull: an absent optional field gives null. In the source it gives `undefined`, so Prisma omits the column and the database stores the column's default; the two agree only where that default is null.
- TitleFields.SeasonCount: `parseInt` is modelled on unbounded integers (`JsText.ParseInt`). In JavaScript it yields a double, rounded above 2^53 and `Infinity` for very long digit strings, and the width of the `total_season` column is not modelled either.
- Credentials.Hash: the digest here is longer than its input, which argon2's fixed-length digests are not. `Credentials.NoSelfMatch` (no string verifies against itself) is proved from that length law; for argon2 it is an assumption, that a digest is never its own preimage. The findings about `refreshToken` and the resend link rest on it.
- A record whose `Ratings` key is absent is modelled as an empty list, which the source also skips.
- argon2 is modelled as an injective, salt-free digest with a recognisable header (`Credentials`). Real digests are salted, so hashing the same input twice gives different strings. Only `verify` compares them.
- `randomBytes`, JWT signing and verification (`generateTokens`, `jwtService.verify`) and the `JwtRefreshStrategy` are left out. Their results are inputs.
- Mail delivery (`MailService`, the queue, the processors) is left out. A successful `register` or resend returns the mail it would send: recipient, name, token and user id. The protocol and host of the link are not modelled. A mail failure after `register`'s transaction has committed is not modelled either.
- User ids are naturals handed out by a counter. In the database the id is generated by the database.
- Of `RegisterUserDto`, only email, username and password are modelled. The other fields the DTO spreads into the row are left out.
- The clock is the parameter `now`, in milliseconds. `Date` comparisons are integer comparisons.
- Controllers, Nest modules, DTO validation decorators and `app.controller.ts` are left out.
- The corrected account steps listed under Findings are specification functions only. The `UserTable` methods compute the steps as written, defects included.

## Findings

| source | as written | input that shows it | evidently intended | confidence | as-written member | corrected member |
|---|---|---|---|---|---|---|
| src/auth/auth.service.ts:131-139 | `login` stores the new refresh token's expiry in `resetTokenExp`. Nothing ever sets `refreshTokenExp`, which `refreshToken` requires to be non-null | register, verify, login with the right password, then `refreshToken` with the issued refresh token: NotFound("User or refresh token not found") | `login` sets `refreshTokenExp` to now + 7 days | not executed; high | Accounts.RefreshNeverSucceeds | Accounts.LoginThenRefresh |
| src/auth/auth.service.ts:181-189 | `refreshToken` stores the new refresh token itself rather than its digest. The next refresh passes that plain token to `argon.verify` as if it were a digest | a successful refresh issuing token T, then a refresh presenting T: `argon.verify` throws, or at best does not match | store `Util.hash(tokens.refresh_token)`, as `login` does | not executed; high | Accounts.RefreshTwiceFails | Accounts.RefreshChains |
| src/auth/auth.service.ts:226-241 | `resendAccountVerification` mails the digest it stores, not the random token it hashed. Verifying the link compares the stored digest against the digest itself | an unverified user whose token has expired asks for a new one and follows the mailed link: BadRequest("Tokens are not matched") | mail the raw random token and store its digest, as `register` does | not executed; high | Accounts.ResendLinkNeverVerifies | Accounts.ResendThenVerify |
