# e_shop core, modelled in Dafny

This project models the decision logic and query building of the e_shop back end, a Go web service selling catalog items:

- **Catalog query builders** (`src/items/service.go`):
  - `GetItems` turns a list filter into SQL text and its bound arguments.
  - `UpdateItem` turns a patch into a dynamic `UPDATE … SET` statement.
  - The fixed inserts and the delete are also covered: what each binds, and how it passes errors on.
- **Field validators**:
  - items, users and posts (`src/items/model.go`, `src/users/model.go`, `src/posts/model.go`);
  - the email pattern, written as a recognizer and proved equal to the pattern's language.
- **Authentication middleware** (`src/middleware/controller.go`, `src/middleware/auth.go`, `src/middleware/service.go`):
  - `Serialize`, `Authorize` and `GetAccessToken`;
  - the older `Auth-token` gate;
  - the session lookup.
- **Session key scheme**: the account service writes a session under a key (`src/users/service.go`) and the middleware reads it back.
- **Image upload gate**: `InspectImages` (`src/utils/inspect_images.go`).

## Module layout

Each file holds one module.

| Module | File | Contents |
|---|---|---|
| `Errors` | `errors.dfy` | Go's `error` and `(value, error)` pairs, and panics. |
| `Text` | `text.dfy` | `strings.TrimSpace`, `TrimSuffix`, `Split` and `IndexByte`, plus `strconv.Atoi` and `FormatInt`. |
| `Sql` | `sql.dfy` | A query as SQL text plus its arguments, what `Exec` returns, and the alignment predicate (one argument per `?`). |
| `KeyValue` | `key_value.dfy` | The Redis store as a class, holding a map of entries with time-to-live and a connection failure. |
| `Http` | `http.dfy` | Cookies, the header multimap, and classes for the request, the response writer and the next handler. |
| `Tokens` | `tokens.dfy` | Token validation as `Valid(payload) \| Invalid(message)`. Expiry is the message `validate: Token is expired`. |
| `ItemsModel` | `items_model.dfy` | `src/items/model.go` |
| `UsersModel` | `users_model.dfy` | `src/users/model.go` |
| `PostsModel` | `posts_model.dfy` | `src/posts/model.go` |
| `ItemsService` | `items_service.dfy` | `src/items/service.go` |
| `UsersService` | `users_service.dfy` | `src/users/service.go` |
| `MiddlewareService` | `middleware_service.dfy` | `src/middleware/service.go` |
| `MiddlewareController` | `middleware_controller.dfy` | `src/middleware/controller.go` |
| `MiddlewareAuth` | `middleware_auth.dfy` | `src/middleware/auth.go` |
| `Sessions` | `sessions.dfy` | Properties of the key scheme that the writer and the reader share. |
| `InspectImages` | `inspect_images.dfy` | `src/utils/inspect_images.go` |

## How the source is modelled

- **Pure Go code becomes functions.** This covers the validators, constructors, fixed queries and the session lookup.
  - The clock, UUIDs and the database are parameters.
  - The SQL store is a function from the query sent to its result.
- **Code that appends or writes becomes methods, each proved against a specification function.**
  - `GetItems` loops over brand pieces, and `UpdateItem` runs a chain of guarded appends.
  - The middleware writes to the header, the response and `next`. The method's result is a `Handled` value: forwarded, replied or panicked.
  - `CreateSession` writes the key-value store.
  - `InspectImages` loops with early returns. Each file is opened, read into a 512-byte array and rewound.
- **Go panics are explicit outcomes.** There are two kinds:
  - a failed type assertion on a token payload;
  - indexing past the end of a split price range.

## Model

| member | source | states |
|---|---|---|
| Text.TrimSpace | src/items/model.go:54 | The result is empty exactly when every character is Unicode white space. Otherwise it starts and ends with a non-space character. |
| Text.TrimSuffix | src/items/service.go:90 | One copy of the suffix is removed when the string ends with it; otherwise the string is unchanged. |
| Text.TrimSuffixAppended | src/items/service.go:90 | Trimming a suffix that was just appended gives back the original string. |
| Text.Split | src/items/service.go:82 | The pieces number one more than the separators, and no piece contains the separator. |
| Text.JoinSplit | src/items/service.go:82 | Joining the pieces of a split gives back the string. |
| Text.IndexOf | src/users/model.go:39 | The position of the first occurrence of the character, or none when it does not occur. |
| Text.LastIndexOf | src/users/model.go:39 | The position of the last occurrence of the character, or none when it does not occur. |
| Text.ParseDigitsExact | src/items/service.go:84 | A run of characters parses exactly when it is a non-empty string of ASCII digits. It parses to their decimal value. |
| Text.Atoi | src/items/service.go:84 | Every accepted value lies in the 64-bit range. |
| Text.FormatNat | src/users/service.go:48 | A non-empty string of digits whose decimal value is the number. |
| Text.FormatInt | src/users/service.go:48 | Only digits, apart from a leading `-`. |
| Text.AtoiFormatInt | src/users/service.go:48 | `Atoi` reads back exactly what `FormatInt` writes, for every 64-bit integer. |
| Sql.TemplatePlaceholders | src/items/service.go:47 | A template of n fragments that contain no `?` has exactly n - 1 placeholders. |
| Sql.InsertedId | src/items/service.go:48-56 | The result is `(0, err)` for the first error among `Exec` and `LastInsertId`. Otherwise it is the new row's id with a nil error. |
| Sql.AffectedRows | src/items/service.go:147-155 | The result is `(0, err)` for the first error among `Exec` and `RowsAffected`. Otherwise it is the affected-row count with a nil error. |
| ItemsModel.NewItemPost | src/items/model.go:33-36 | Sets only the owner and the creation time; every other field is zero or empty. |
| ItemsModel.CheckItemPost | src/items/model.go:38-58 | Nil exactly when UserId, CategoryId, BrandId, CreatedAt and Price are non-zero and the description is not blank. Otherwise it gives the message of the first failing check in source order. Each message is stated as an if-and-only-if, and only zero is refused, so negative values pass. |
| ItemsModel.FreshItemPostLacksCategory | src/items/model.go:33-43 | A fresh post with an owner and a running clock is refused first for its category. |
| ItemsModel.NewItemPatch | src/items/model.go:73-76 | Sets only the id and the modification time. |
| ItemsModel.CheckItemPatch | src/items/model.go:78-89 | A zero id is reported before everything else. A zero modification time comes next, then "Include fields to be updated." exactly when no field names an update; nil otherwise. |
| ItemsModel.FreshItemPatchNamesNothing | src/items/model.go:73-87 | A fresh patch passes the modification-time check but names nothing to update. |
| UsersModel.NewUser | src/users/model.go:23-26 | Sets only the creation time. |
| UsersModel.EmailRecognizerSound | src/users/model.go:38-41 | Every string the recognizer accepts has the form `L@D.T` of the anchored pattern. |
| UsersModel.EmailRecognizerComplete | src/users/model.go:38-41 | Every string of that form is accepted by the recognizer. |
| UsersModel.EmailRecognizerMatchesPattern | src/users/model.go:38-41 | The recognizer accepts a string if and only if the pattern matches it: L is a non-empty string over `[a-z0-9._%+-]`, D a non-empty string over `[a-z0-9.-]`, and T 2 to 4 letters `a-z`, with the match anchored at both ends. |
| UsersModel.AcceptedEmailCharacters | src/users/model.go:39 | An accepted address contains only local-part characters and exactly one `@`. |
| UsersModel.EmailRejectsUpperCase | src/users/model.go:39 | A string containing an upper-case ASCII letter is rejected. |
| UsersModel.EmailRejectsTwoAts | src/users/model.go:39 | A string containing two `@` characters is rejected. |
| UsersModel.CheckUser | src/users/model.go:28-36 | A zero creation time is reported before the email is checked. The result is nil exactly when the time is set and the email is valid. |
| UsersModel.NotAnEmailIsRefused | src/users/model.go:28-41 | `not-an-email` is refused with "Please enter a valid email.". |
| UsersModel.CreateClaims | src/users/model.go:43-46 | Copies the email, takes the given user id and takes the given fresh session id. |
| PostsModel.NewPost | src/posts/model.go:16-19 | Sets the author and the creation time; title and body are empty. |
| PostsModel.CheckPost | src/posts/model.go:21-35 | Nil exactly when title and body are not blank and both numbers are non-zero. Otherwise it gives the first failing check in the order Title, Body, CreatedAt, UserId. |
| PostsModel.FreshPostLacksTitle | src/posts/model.go:16-24 | A fresh post is refused for its empty title. |
| ItemsService.InsertItemQuery | src/items/service.go:47-48 | Seven arguments for the seven placeholders of the insert, in the order the columns are listed: owner, category, brand, creation time, price, discounted price, description. |
| ItemsService.InsertItem | src/items/service.go:46-57 | The id of the new row, or `(0, err)` where `err` is the store's own error from `Exec` or, failing that, from `LastInsertId`. |
| ItemsService.BrandIdArgsSound | src/items/service.go:82-88 | Every brand argument is the parse of one of the comma-separated pieces. |
| ItemsService.BrandIdArgsComplete | src/items/service.go:82-88 | Every piece that parses as an integer becomes a brand argument. Pieces that do not parse are skipped. |
| ItemsService.AppendBrandIds | src/items/service.go:83-88 | The loop's arguments are the parsed pieces in order, and the query gains one `?, ` for each. |
| ItemsService.AppendBrandFilter | src/items/service.go:80-95 | The brand clause holds one placeholder per parsed id. It disappears entirely when no piece parses. |
| ItemsService.BrandClausePlaceholders | src/items/service.go:81-93 | The brand clause has as many `?` as brand ids. |
| ItemsService.ItemsQueryAligned | src/items/service.go:77-106 | The number of `?` in the listing query equals the number of arguments. |
| ItemsService.ItemsQueryPanics | src/items/service.go:96-99 | The listing panics exactly when there is one price value and it contains no `-`. |
| ItemsService.ItemsQueryLimitLast | src/items/service.go:103-104 | The query ends with ` LIMIT ?;`, the limit is the last argument, and the brand ids come first. |
| ItemsService.UnparsedBrandsIgnored | src/items/service.go:89-90 | A brand filter in which no piece parses gives the same query as no brand filter. |
| ItemsService.SeveralPricesIgnored | src/items/service.go:96 | A price filter is used only when there is exactly one price value. |
| ItemsService.GetItems | src/items/service.go:77-111 | Sends the listing query and returns the store's rows or `(nil, err)`. It panics exactly when the query builder does. |
| ItemsService.KeptFilters | src/items/service.go:116-143 | A column is kept exactly when it is among the columns visited and its guard holds, and the columns stay in order. |
| ItemsService.WrittenExactly | src/items/service.go:116-143 | The update sets a column exactly when its guard holds, in the fixed order category, brand, price, discounted price, description, modified at, deleted at. |
| ItemsService.SetListPlaceholders | src/items/service.go:116-143 | The SET list has one `?` per assigned column. |
| ItemsService.UpdateQueryAligned | src/items/service.go:113-146 | The number of `?` in the update equals the number of parameters, and the item id is the last parameter. |
| ItemsService.UpdateQueryNoTrailingComma | src/items/service.go:144-145 | No `,` stands directly before ` WHERE id = (?);`. |
| ItemsService.CheckedPatchSetsModifiedAt | src/items/service.go:136-139 | A patch that passes validation always sets `modified_at`. |
| ItemsService.DeletedAtWithoutFlagOnlyTouches | src/items/service.go:136-143 | A patch with only a deletion time and no change-deleted flag passes validation, yet sets only `modified_at`. |
| ItemsService.UndeleteAloneRefused | src/items/model.go:85-87 | A patch whose only change is clearing the deletion time is refused as naming nothing, although the builder would set `deleted_at`. |
| ItemsService.AppendAssignment | src/items/service.go:116-143 | One guarded append keeps the query and the parameters equal to the assignments of the columns visited so far whose guards hold. |
| ItemsService.UpdateItem | src/items/service.go:113-156 | Sends exactly the update the patch describes. It returns the affected-row count, or `(0, err)` where `err` is the store's own error from `Exec` or, failing that, from `RowsAffected`. |
| ItemsService.DeleteItemQuery | src/items/service.go:159-160 | One argument, the item id, for the one placeholder. |
| ItemsService.DeleteItem | src/items/service.go:158-169 | The affected-row count, or `(0, err)` where `err` is the store's own error from `Exec` or, failing that, from `RowsAffected`. |
| ItemsService.InsertImageQuery | src/items/service.go:184-185 | One argument, the image URL, for the one placeholder. |
| ItemsService.InsertItemImage | src/items/service.go:183-194 | The id of the new image row, or `(0, err)` where `err` is the store's own error from `Exec` or, failing that, from `LastInsertId`. |
| ItemsService.JunctionQuery | src/items/service.go:197-198 | Three arguments for the three placeholders: item id, image id and display order. |
| ItemsService.InsertItemImageJunction | src/items/service.go:196-207 | The affected-row count, or `(0, err)` where `err` is the store's own error from `Exec` or, failing that, from `RowsAffected`. |
| KeyValue.Lookup | src/repositories/redis_connection.go:38-45 | The stored value. Otherwise it gives `("", err)`, where err is the connection failure, or `redis: nil` for a missing key. |
| KeyValue.ReadYourWrite | src/repositories/redis_connection.go:38-50 | A value written under a key is the value read back under it. |
| KeyValue.WriteIsolated | src/repositories/redis_connection.go:38-50 | A write leaves every other key's lookup unchanged. |
| KeyValue.Store.GetKey | src/repositories/redis_connection.go:38-45 | Reads as `Lookup` and changes nothing. |
| KeyValue.Store.SetKey | src/repositories/redis_connection.go:47-50 | Writes one key with its time-to-live, or returns the failure and writes nothing. |
| UsersService.InsertUserQuery | src/users/service.go:39-40 | Email and password, in that order, for the two placeholders. |
| UsersService.InsertUser | src/users/service.go:38-50 | The decimal form of the new id, which `Atoi` reads back as that id. On any store error it returns `("", err)`. |
| UsersService.PasswordQuery | src/users/service.go:53-54 | One argument, the email, for the one placeholder. |
| UsersService.GetPasswordFromEmail | src/users/service.go:52-59 | The stored hash; a failed lookup gives `("", nil)`, and the error is never returned. |
| UsersService.ClaimsQuery | src/users/service.go:62-63 | One argument, the email, for the one placeholder. |
| UsersService.GetClaimsFromEmail | src/users/service.go:61-68 | The account's claims, or `(nil, err)`. |
| UsersService.CreateSession | src/users/service.go:70-79 | Writes exactly the key `sessions:<userId>:<sessionId>`, with a time-to-live of 720 hours. The store error is returned unchanged, and no other key changes. |
| UsersService.GetSession | src/users/service.go:81-87 | Always reads the fixed key `key1`. |
| MiddlewareService.Decoded | src/middleware/service.go:26-27 | Claims that do not decode leave the fresh claims empty. |
| MiddlewareService.GetSession | src/middleware/service.go:23-32 | Reads exactly the pair's key. A store error gives `(nil, err)`; otherwise the decoded claims with a nil error. |
| MiddlewareService.MalformedRecordGivesEmptyClaims | src/middleware/service.go:26-31 | A stored record that does not decode is found with empty claims and no error. |
| Sessions.KeysAgree | src/users/service.go:71 | The writer and the reader build the same key for a pair. |
| Sessions.ColonSplit | src/middleware/service.go:24 | Splitting at the first colon recovers a colon-free prefix and the rest. |
| Sessions.SessionKeyInjective | src/middleware/service.go:24 | When the user ids contain no `:`, distinct pairs have distinct keys. |
| Sessions.DecimalIdHasNoColon | src/users/service.go:48 | Decimal user ids contain no colon. |
| Sessions.DecimalSessionKeysDistinct | src/users/service.go:48-71 | Sessions of accounts with decimal ids share a key only when they are the same session. |
| Sessions.CreatedSessionIsFound | src/users/service.go:70-79 | The record `CreateSession` writes is the one the middleware's `GetSession` finds. |
| Sessions.OtherSessionsUnchanged | src/users/service.go:71-74 | Writing one session leaves every other session's lookup unchanged. |
| Http.FindCookie | src/middleware/controller.go:69 | The position of the first cookie with the name; no cookie before it has that name. |
| Http.CookieNamed | src/middleware/controller.go:69 | The cookie is absent exactly when no cookie has the name. |
| Http.HeaderGet | src/middleware/controller.go:97 | The first value of the key, whatever values follow it. It is empty exactly when there is none or the first value is empty. |
| Http.HeaderAdd | src/middleware/controller.go:89 | Appends the value to the key and leaves every other key alone. |
| Http.AddKeepsFirst | src/middleware/controller.go:89-97 | After an add, `Get` still returns the first value already present. The added value is returned only when the key had none. |
| Http.Request.AddHeader | src/middleware/controller.go:89 | The header becomes the old header with the value added. |
| Http.ResponseWriter.Send | src/middleware/controller.go:85 | Appends one reply, and leaves the cookies alone. |
| Http.ResponseWriter.SetCookie | src/middleware/controller.go:62 | Appends one cookie, and leaves the replies alone. |
| Http.Handler.ServeHTTP | src/middleware/controller.go:90 | Records the header of the request served. |
| Tokens.Field | src/middleware/controller.go:88 | The member's string value exactly when the payload is an object holding a string member of that name. |
| MiddlewareController.Serialized | src/middleware/controller.go:67-93 | Both of the following call `next` unchanged: a missing access cookie, or an expired token. A valid token forwards with its `userId` added. Any other validation error is a 500 and `next` is not called. No cookie is set and the store is never read. |
| MiddlewareController.Serialize | src/middleware/controller.go:67-93 | Performs exactly the decided effects on the header, `next` and the response. |
| MiddlewareController.Authorized | src/middleware/controller.go:95-105 | `next` is called if and only if `Header.Get("userId")` is not empty; otherwise a 401 "Action requires authorization". |
| MiddlewareController.Authorize | src/middleware/controller.go:95-105 | Performs exactly that decision, leaving the header unchanged. |
| MiddlewareController.ClientUserIdPasses | src/middleware/controller.go:89-98 | A `userId` header sent by the client stays first through `Serialize`, and it is the value `Authorize` accepts. |
| MiddlewareController.Renewed | src/middleware/controller.go:25-65 | The whole decision table. A missing or expired refresh token gives a 302 to the sign-in URL with no cookie; any other validation error gives a 500 with its message. A valid token whose data lacks a string `sessionId` or `userId` panics, and nothing else does. With both ids: a session key absent from the store gives the 302; a store failure gives the 500 with its message (or the 302 when that message is `redis: nil`); a stored session gives a 500 with the signing error, or the 200 with the cookie `accessToken` holding the token signed for the decoded stored claims, on `/`, Secure and HttpOnly, expiring 5 minutes after now. `next` is never involved. |
| MiddlewareController.StoredSessionRenews | src/middleware/controller.go:42-63 | A valid refresh token whose session is stored gets a new access cookie when signing works. The stored claims are not compared with the token's user. |
| MiddlewareController.MissingSessionRedirects | src/middleware/controller.go:44-49 | A session missing from the store gives the sign-in redirect. |
| MiddlewareController.GetAccessToken | src/middleware/controller.go:25-65 | Writes exactly the decided reply and cookie, and reads the store without writing it. |
| MiddlewareAuth.Gate | src/middleware/auth.go:10-24 | A missing `Auth-token` cookie gives a 401 with the cookie error, and that is the only reply. A token whose payload holds a string `userId` forwards with that id added. Every other token panics: an invalid one, and a valid one without a string `userId`. |
| MiddlewareAuth.Authorize | src/middleware/auth.go:10-24 | Performs exactly the gate's effects on the header, the handler and the response. |
| MiddlewareAuth.AccessCookieIsNotEnough | src/middleware/auth.go:12-16 | A request carrying only an `accessToken` cookie gets the 401. |
| InspectImages.Sniffed | src/utils/inspect_images.go:20-25 | The 512 bytes handed to sniffing: the file's first bytes, then zeros. |
| InspectImages.FileVerdict | src/utils/inspect_images.go:12-32 | An oversized file gets a 422 before it is opened; a file of exactly the limit is not oversized. Every refusal is a 422 or 500 with a non-nil error. |
| InspectImages.FilePasses | src/utils/inspect_images.go:12-32 | A file passes exactly when all of these hold: it is within the limit; it opens; it reads at least one byte; it sniffs as `image/jpeg` or `image/png`; and it rewinds. |
| InspectImages.InspectAccepts | src/utils/inspect_images.go:10-34 | The upload gets `(0, nil)` exactly when every file passes. |
| InspectImages.FirstOffenderDecides | src/utils/inspect_images.go:11-33 | The first file that does not pass decides the status and the error, whatever follows it. |
| InspectImages.InspectConcat | src/utils/inspect_images.go:11-34 | A second batch of files is looked at only when the first batch passes. |
| InspectImages.FileHandle.Read | src/utils/inspect_images.go:21 | Copies as many of the next bytes as fit to the front of the buffer and advances. Otherwise it reports the read failure, or `EOF` at the end, and copies nothing. |
| InspectImages.FileHandle.Rewind | src/utils/inspect_images.go:29 | A successful seek puts the file back at offset 0. |
| InspectImages.Open | src/utils/inspect_images.go:15 | A fresh handle at offset 0, or the open failure. |
| InspectImages.InspectFile | src/utils/inspect_images.go:12-32 | The loop body reaches exactly the file's verdict. |
| InspectImages.InspectImages | src/utils/inspect_images.go:10-35 | The loop returns exactly the verdict on the files. |

## Left out

- The database, Redis and Cloud Storage clients (`src/repositories/`) are I/O. The SQL store is a function from query to result, and Redis is a map with a connection failure.
- Expiry in the key-value store is left out: the time-to-live is recorded but never counted down.
- JWT signing and parsing (`src/middleware/jwt_utils.go`, HS256 per section 3.2 of RFC 7518) are a foreign library. Validation and signing are parameters, and an expired token is the error text `validate: Token is expired`.
- JSON decoding of a stored session is a parameter that yields either claims or nothing.
- `http.DetectContentType` (the WHATWG MIME Sniffing Standard) is an uninterpreted parameter from the 512-byte buffer to a MIME type.
- These become parameters: `time.Now()`, `uuid.New()` and the environment. Clock values are whole seconds.
- `fmt.Println` logging is left out.
- The JSON bodies written by `responses.JSONError` and `JSONResponse` are left out; a reply is its message and status.
- Header key canonicalisation is left out. `Header.Add` and `Header.Get` canonicalise the same way, and the one key used is written the same way on both sides.
- MiddlewareController.Serialize: the 500 for a cookie error other than "named cookie not present" (`src/middleware/controller.go:74-76`) is not modelled. `Request.Cookie` returns no other error.
- `defer file.Close()` in `InspectImages` is not modelled; the handles are closed when the function returns.
  - The deferred close is registered before the open error is checked, so a failed open closes a handle that `Open` returned as nil.
- Concurrency between requests is left out; each request is modelled on its own.
- These are left out because each is a single call into a client and holds no logic:
  - `GetItem`;
  - `GetImages`;
  - `UploadItemImage` and `ObjNameFromUrl`.
- The HTTP handlers (`src/*/controller.go`), the routers, `main.go` and `GetEnv` are wiring.
- The request type `UserLogin` is not part of this model. The lookups take its email only.
- The middleware's `UserClaims` (`src/middleware/model.go`) has the same three fields as the account service's. Both are modelled by `UsersModel.UserClaims`.
- Go's `int` and `int64` are modelled as unbounded integers. No value is computed that could overflow.
  - The exception is `strconv.Atoi`, whose 64-bit range check is modelled.
  - Another is the id formatting, whose round trip is stated for 64-bit values.
- ItemsService.UpdateItem: the seven guarded appends are written as seven calls of `AppendAssignment`, one guard per call, in the source order.
- InspectImages.FileHandle.Read: a read returns as many bytes as are left, up to the buffer size. A driver that returns fewer bytes without an error is not modelled.
