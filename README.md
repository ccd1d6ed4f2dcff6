# GoBank request layer in Dafny

A model of the HTTP decision layer of GoBank (`api.go`): which status and JSON body
each request gets, whether the wrapped handler runs, and what the store holds
afterwards. It covers four parts:

- the error wrapper `makeHTTPHandleFunc`, which turns any handler error into one 400
  reply with the `APIError{Error}` envelope;
- the per-route method dispatch of `/account`, `/account/{id}` and `/transfer`;
- the credential code: `createJWT` issues an HS256 token carrying `accountNumber`,
  and `validateJWT` refuses every signing method that is not HMAC;
- the ownership middleware `withJWTAuth`, which runs the wrapped handler only when the
  token is valid, the `{id}` parses, the account exists and its number is the token's
  `accountNumber` claim.

Everything is pure. Each handler is a function from the request and the store to
an `Outcome`: the replies it writes, the error it returns and the store afterwards.
The middleware returns a `Served` value that also records whether the handler ran
and which id it looked up in the store.

Modules:

- `Wrappers`: `Option` and `Result`.
- `StrConv`: `strconv.Atoi` and `strconv.Itoa` for a 64-bit `int`.
- `Strings`: `strings.Split` on one separator character.
- `Storage`: `Account`, and the `Storage` interface over a map from id to account.
  A fault stands for a failing database.
- `Jwt`: golang-jwt v3's `Parse` and `SignedString`. Encoding, signing, verifying and
  claim validation are the functions of a `Lib` value. `Lawful(lib)` states the
  round-trip facts that callers rely on.
- `Api`: the handlers and the wrapper.
- `Auth`: `createJWT`, `validateJWT` and `withJWTAuth`.
- `Routes`: the three routes as `Run` composes them, plus end-to-end scenarios.

Behaviour of the code worth noting:

- A request for a missing account is answered 403 by the middleware, never 404.
- Every handler error is a 400. There is no error taxonomy.
- Deleting an id that has no row succeeds (storage.go:72-82).

## Model

| member | source | states |
|---|---|---|
| `Storage.GetAccountByID` | storage.go:15 | the lookup succeeds exactly when the database is up and a row has the id; it returns that row; it fails with the fault or with `sql: no rows in result set` |
| `Storage.DeleteAccount` | storage.go:12 | on success the new store is exactly the old one without the id (all other rows and the fault unchanged), including when the id was absent; a failing store returns its fault and changes nothing; the id-keying invariant is kept |
| `Api.MakeHTTPHandleFunc` | api.go:26-34 | the handler's replies are kept; a non-nil error adds exactly one reply, `400 APIError{err}`; a nil error adds nothing |
| `Api.WrappedRepliesOnce` | api.go:26-34 | a handler that writes nothing when it fails gets exactly one reply through the wrapper: its 400 envelope on error, its own reply otherwise |
| `StrConv.Atoi` | api.go:171 | succeeds exactly when, after one optional sign, there is a non-empty run of digits only whose signed value fits 64 bits, and then returns that value; digits are read first, so a digit run past the largest uint64 is a range error even before a non-digit; otherwise a missing digit or a non-digit is a syntax error |
| `StrConv.AtoiItoa` | api.go:171 | every 64-bit int written in decimal parses back to itself |
| `StrConv.AtoiRejectsNonDigit` | api.go:171-174 | a non-digit character among the first twenty, other than one leading sign, makes the id a syntax error |
| `StrConv.AtoiOverflowBeforeSyntax` | api.go:171-174 | a run of more than twenty digits not starting with 0 is a range error, whatever follows it |
| `Api.GetIDFromRequest` | api.go:168-177 | an unparsable `{id}` gives `(-1, "Invalid account ID given <text>")`; otherwise it gives the parsed 64-bit value with no error |
| `Api.GetIDFromItoa` | api.go:168-177 | an id written in decimal in the path is read back unchanged |
| `Api.HandleAccount` | api.go:58-67 | GET goes to the list handler and POST to the create handler; any other method returns the "not supported by the API/account" error, writes nothing and leaves the store alone |
| `Api.HandleGetAccountByID` | api.go:114-133 | succeeds exactly when the id parses and the row exists; it then replies 200 with that account field for field; otherwise it returns the id error or the lookup's error (the store's fault or `sql: no rows in result set`); it writes nothing on error and never changes the store |
| `Api.HandleDeleteAccountByID` | api.go:136-147 | succeeds exactly when the id parses and the store is up; it then replies 200 `{"deleted": id}` and the store is exactly the old one minus that id; otherwise it returns the id error or the store's fault, writes nothing and changes nothing |
| `Api.HandleAccountByID` | api.go:102-111 | GET reads and DELETE deletes; any other method returns the "not supported by the API/account/{id}" error with the store untouched; the result is always disciplined (no write on error, one 200 on success) |
| `Api.HandleTransfer` | api.go:150-166 | non-POST is refused with the method error and the store untouched; an undecodable body returns the decode error; otherwise the store and the error are those Transfer leaves; success exactly when the method is POST, the body decodes and Transfer succeeds, and it then echoes the request with 200 |
| `Api.TransferMethodCheckedFirst` | api.go:150-158 | for a non-POST request the outcome does not depend on the body or on the transfer |
| `Jwt.GetSigningMethod` | api.go:239 | the method is HMAC exactly for HS256, HS384 and HS512; unknown names have no method |
| `Jwt.Parse` | api.go:238-244 | Valid holds exactly when there is no error, and exactly when the token has three segments, header and claims decode, the method is registered, the key function gives a key, the claims are valid and the signature verifies under that key; an Invalid error flags exactly the failed claims and signature checks; a string that does not split into three segments is malformed |
| `Jwt.ParseSignedString` | api.go:193-195 | an HMAC-signed token parses back to the same algorithm and claims and is Valid, when the key function returns the signing key |
| `Auth.SigningKey` | api.go:238-243 | the key function returns the secret exactly for HMAC algorithms; every other token gets "Unexpected signing method: <alg>" |
| `Auth.ValidateJWT` | api.go:235-245 | a token is accepted exactly when it is genuine: three segments, an HMAC header, valid claims and a verifying signature; acceptance and Valid coincide; an accepted token names an HMAC algorithm and carries its claims segment |
| `Auth.NonHmacRefused` | api.go:239-241 | a well-formed token whose header is not HMAC is refused with the same unverifiable error, whatever its claims and signature |
| `Auth.IssuedTokenOwnsItsAccount` | api.go:186-196 | createJWT: a token from `createJWT(a)` validates under the same secret with the HS256 header and `accountNumber = a.number`; it owns an account b exactly when `b.number == a.number` |
| `Auth.WithJWTAuth` | api.go:198-233 | the handler runs exactly when all four checks pass; otherwise the store is unchanged and the reply is the single `403 {"permission denied"}`, or no reply when the claim panics; the store is queried only after the token and the id pass, and only for that id |
| `Auth.RefusalsLookAlike` | api.go:205-228 | any two refused requests get identical replies, whichever check each failed |
| `Routes.ServeAccount` | api.go:46 | a method other than GET or POST gets one 400 naming it; with disciplined sub-handlers every request gets exactly one reply |
| `Routes.AccountByID` | api.go:47 | the wrapped `/account/{id}` handler always writes exactly one reply, and only DELETE can change the store |
| `Routes.ServeAccountByID` | api.go:47 | every request gets exactly one reply, or none when the claim panics; only DELETE changes the store |
| `Routes.ServeTransfer` | api.go:48 | exactly one reply; non-POST gets the 400 method error and leaves the store alone |
| `Routes.OwnerIsServed` | api.go:198-233 | with its own token, an account's owner passes the check for every method; GET returns the account, DELETE removes it with `{"deleted": id}`, any other method gets the 400 method error |
| `Routes.ForeignTokenRefused` | api.go:226-229 | a token issued for a opens no account with another number: 403 for every method, the handler does not run and the store is untouched |
| `Routes.DeletedAccountIsForbidden` | api.go:220-224 | after the owner deletes an account, reading it with the same token is refused with 403 |

## Left out

- storage.go's SQL implementation is not modelled. Storage is a map plus a fault. `GetAccounts`, `CreateAccount` and `UpdateAccount` are not modelled.
- `handleGetAccount` and `handleCreateAccount` (JSON decoding, `NewAccount`, and printing the token) are not core. `HandleAccount` receives them as sub-handler parameters.
- `Transfer` is not in the `Storage` interface, and its implementation is not part of this model. `HandleTransfer` takes it as a function from the store to the store it leaves and its error, so what it does to balances is not stated.
- The JSON decoding of request bodies is left out. `HandleTransfer` receives the decoded result.
- JWT cryptography, base64url and JSON are abstract functions of `Jwt.Lib`. Only the facts in `Jwt.Lawful` are assumed, as lemma preconditions.
- `MapClaims.Valid` (the clock-dependent "exp"/"iat"/"nbf" checks) is the abstract `claimsValid`. The custom `expiresAt` claim is never checked by anything.
- The claim's conversion through `float64` (api.go:226) is left out: the claim is an exact integer. Account numbers above 2^53 could therefore compare equal in Go but not in the model.
- The `alg` header is decoded to a string. A missing or non-string `alg` counts as a malformed header rather than golang-jwt's "unspecified" error. The middleware cannot tell these apart.
- Auth.CreateJWT has no contract of its own: golang-jwt's `SignedString` cannot fail for HMAC with a byte-slice key, so the error result is dropped. What the token carries is stated by `Auth.IssuedTokenOwnsItsAccount`.
- Failures of `WriteJSON` itself (encoding or write errors) are not modelled, and neither is the Content-Type header. Such a failure would make the wrapper attempt a second, 400 response after a 200 header.
- The panic from the `accountNumber` type assertion is modelled as "no reply, handler not run". net/http recovers it and drops the connection.
- Routing by gorilla/mux, `Run`, `ListenAndServe` and reading `JWT_SECRET` are left out. The secret is a parameter, the same at issue and at validation. All `log`/`fmt` output is left out.
- Go's `int` is assumed to be 64 bits wide.
- Concurrency and atomicity of storage operations are left out.
