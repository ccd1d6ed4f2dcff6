/**
 * Credentials and the ownership check of api.go: createJWT issues an HS256 token
 * naming an account number, validateJWT parses a token and refuses every signing
 * method but HMAC, and withJWTAuth lets a request through to the handler only when
 * the token is valid and names the number of the account the path addresses.
 */
module Auth {
  import opened Wrappers
  import opened Storage
  import opened Api
  import Jwt
  import Strings

  /** The one reply every refusal of the middleware writes. */
  const PermissionDenied: Reply := Reply(StatusForbidden, ApiError("permission denied"))

  /** The constant "expiresAt" claim of every issued token; nothing reads it back. */
  const ExpiresAt: int := 15000

  /** The claims createJWT signs for an account. */
  function AccountClaims(a: Account): Jwt.Claims
  {
    map["expiresAt" := Jwt.Number(ExpiresAt), "accountNumber" := Jwt.Number(a.number)]
  }

  /** createJWT: the account's claims signed with HS256 under the secret. */
  function CreateJWT(a: Account, secret: string, lib: Jwt.Lib): string
  {
    Jwt.SignedString(Jwt.HMAC("HS256"), AccountClaims(a), secret, lib)
  }

  /**
   * The key function of validateJWT: the secret for a token whose method is HMAC,
   * an "Unexpected signing method" error for every other token, whatever its claims.
   */
  function SigningKey(secret: string, t: Jwt.Token): (k: Result<string, string>)
    ensures k.Success? <==> t.alg in Jwt.HmacAlgs
    ensures k.Success? ==> k.value == secret
    ensures k.Failure? ==> k.error == "Unexpected signing method: " + t.alg
  {
    match Jwt.GetSigningMethod(t.alg)
    case Some(HMAC(_)) => Success(secret)
    case _ => Failure("Unexpected signing method: " + t.alg)
  }

  /** The claims segment of a compact token, when it has three segments and it decodes. */
  function ClaimsOf(tokenString: string, lib: Jwt.Lib): Option<Jwt.Claims>
  {
    var parts := Strings.Split(tokenString, '.');
    if |parts| == 3 then lib.decodeClaims(parts[1]) else None
  }

  /**
   * The token is three segments: a header naming an HMAC algorithm, claims that are
   * currently valid, and a signature that verifies for the first two segments under
   * the secret.
   */
  predicate Genuine(tokenString: string, secret: string, lib: Jwt.Lib)
  {
    var parts := Strings.Split(tokenString, '.');
    && |parts| == 3
    && lib.decodeHeader(parts[0]).Some?
    && lib.decodeHeader(parts[0]).value in Jwt.HmacAlgs
    && lib.decodeClaims(parts[1]).Some?
    && lib.claimsValid(lib.decodeClaims(parts[1]).value)
    && lib.verify(Jwt.HMAC(lib.decodeHeader(parts[0]).value), parts[0] + "." + parts[1], parts[2], secret)
  }

  /**
   * validateJWT: jwt.Parse with the key function above. It succeeds exactly for
   * genuine tokens; a token it accepts is Valid, names an HMAC algorithm, and carries
   * the claims of its claims segment.
   */
  function ValidateJWT(tokenString: string, secret: string, lib: Jwt.Lib): (p: Jwt.Parsed)
    ensures p.err.None? <==> Genuine(tokenString, secret, lib)
    ensures p.err.None? <==> p.valid
    ensures p.valid ==> p.token.Some? && p.token.value.alg in Jwt.HmacAlgs
    ensures p.valid ==> ClaimsOf(tokenString, lib) == Some(p.token.value.claims)
  {
    Jwt.Parse(tokenString, t => SigningKey(secret, t), lib)
  }

  /**
   * A well-formed token whose header names anything but HMAC is refused as
   * unverifiable, with the same error whatever its claims and signature are.
   */
  lemma NonHmacRefused(tokenString: string, secret: string, lib: Jwt.Lib, alg: string)
    requires |Strings.Split(tokenString, '.')| == 3
    requires lib.decodeHeader(Strings.Split(tokenString, '.')[0]) == Some(alg)
    requires lib.decodeClaims(Strings.Split(tokenString, '.')[1]).Some?
    requires alg !in Jwt.HmacAlgs
    ensures !ValidateJWT(tokenString, secret, lib).valid
    ensures ValidateJWT(tokenString, secret, lib).err == Some(Jwt.Unverifiable(
      if Jwt.GetSigningMethod(alg).Some? then "Unexpected signing method: " + alg
      else "signing method (alg) is unavailable."))
  {
  }

  /** The token names this account's number in its "accountNumber" claim. */
  predicate Owns(claims: Jwt.Claims, a: Account)
  {
    "accountNumber" in claims && claims["accountNumber"] == Jwt.Number(a.number)
  }

  /** The "accountNumber" claim is missing or not a number: its type assertion panics. */
  predicate ClaimUnusable(claims: Jwt.Claims)
  {
    "accountNumber" !in claims || !claims["accountNumber"].Number?
  }

  /**
   * The four conditions of the ownership check: the token is genuine, the {id}
   * variable is an integer, the store has an account under that id, and the token's
   * "accountNumber" claim is that account's number.
   */
  predicate Authorized(r: Request, s: Store, secret: string, lib: Jwt.Lib)
  {
    && Genuine(r.token, secret, lib)
    && GetIDFromRequest(r).err.None?
    && GetAccountByID(s, GetIDFromRequest(r).id).Success?
    && ClaimsOf(r.token, lib).Some?
    && Owns(ClaimsOf(r.token, lib).value, s.accounts[GetIDFromRequest(r).id])
  }

  /**
   * The first three conditions hold but the claim cannot be read as a number: the
   * handler goroutine panics, and net/http drops the connection without a response.
   */
  predicate Panics(r: Request, s: Store, secret: string, lib: Jwt.Lib)
  {
    && Genuine(r.token, secret, lib)
    && GetIDFromRequest(r).err.None?
    && GetAccountByID(s, GetIDFromRequest(r).id).Success?
    && ClaimsOf(r.token, lib).Some?
    && ClaimUnusable(ClaimsOf(r.token, lib).value)
  }

  /**
   * What withJWTAuth does for one request: the replies written, the store afterwards,
   * whether the wrapped handler ran, and the id it looked up in the store, if any.
   */
  datatype Served = Served(replies: seq<Reply>, store: Store, handlerInvoked: bool, lookedUp: Option<int>)

  /**
   * withJWTAuth: the wrapped handler runs exactly when the request is Authorized, and
   * then its replies and its store are the result. Every other request leaves the
   * store alone and gets the single PermissionDenied reply, whichever check failed,
   * except that an unreadable claim panics with no reply. The store is consulted only
   * once the token has validated and the id has parsed, and only for that id.
   */
  function WithJWTAuth(handler: HandlerFunc, s: Store, r: Request, secret: string, lib: Jwt.Lib): (x: Served)
    ensures x.handlerInvoked <==> Authorized(r, s, secret, lib)
    ensures x.handlerInvoked ==> x.replies == handler(r, s).replies && x.store == handler(r, s).store
    ensures !x.handlerInvoked ==> x.store == s
    ensures !x.handlerInvoked && !Panics(r, s, secret, lib) ==> x.replies == [PermissionDenied]
    ensures Panics(r, s, secret, lib) ==> !x.handlerInvoked && x.replies == []
    ensures x.lookedUp.Some? <==> Genuine(r.token, secret, lib) && GetIDFromRequest(r).err.None?
    ensures x.lookedUp.Some? ==> x.lookedUp.value == GetIDFromRequest(r).id
  {
    var token := ValidateJWT(r.token, secret, lib);
    if token.err.Some? then Served([PermissionDenied], s, false, None)
    else if !token.valid then Served([PermissionDenied], s, false, None)
    else
      var userID := GetIDFromRequest(r);
      if userID.err.Some? then Served([PermissionDenied], s, false, None)
      else
        match GetAccountByID(s, userID.id)
        case Failure(_) => Served([PermissionDenied], s, false, Some(userID.id))
        case Success(account) =>
          var claims := token.token.value.claims;
          if ClaimUnusable(claims) then
            Served([], s, false, Some(userID.id))
          else if account.number != claims["accountNumber"].value then
            Served([PermissionDenied], s, false, Some(userID.id))
          else
            var done := handler(r, s);
            Served(done.replies, done.store, true, Some(userID.id))
  }

  /** Two refused requests get identical responses, whichever check each one failed. */
  lemma RefusalsLookAlike(
    h1: HandlerFunc, s1: Store, r1: Request,
    h2: HandlerFunc, s2: Store, r2: Request,
    secret: string, lib: Jwt.Lib)
    requires !Authorized(r1, s1, secret, lib) && !Panics(r1, s1, secret, lib)
    requires !Authorized(r2, s2, secret, lib) && !Panics(r2, s2, secret, lib)
    ensures WithJWTAuth(h1, s1, r1, secret, lib).replies == WithJWTAuth(h2, s2, r2, secret, lib).replies
  {
  }

  /**
   * A token issued by createJWT for an account validates under the same secret,
   * carries the HS256 header and that account's claims, and so owns exactly the
   * accounts with the same number.
   */
  lemma IssuedTokenOwnsItsAccount(a: Account, b: Account, secret: string, lib: Jwt.Lib)
    requires Jwt.Lawful(lib)
    ensures ValidateJWT(CreateJWT(a, secret, lib), secret, lib)
         == Jwt.Parsed(Some(Jwt.Token("HS256", AccountClaims(a))), true, None)
    ensures Genuine(CreateJWT(a, secret, lib), secret, lib)
    ensures ClaimsOf(CreateJWT(a, secret, lib), lib) == Some(AccountClaims(a))
    ensures !ClaimUnusable(AccountClaims(a))
    ensures Owns(AccountClaims(a), b) <==> b.number == a.number
  {
    var claims := AccountClaims(a);
    assert Jwt.NoTimeClaims(claims) by {
      assert claims.Keys == {"expiresAt", "accountNumber"};
      assert "exp" != "expiresAt" && "exp" != "accountNumber";
      assert "iat" != "expiresAt" && "iat" != "accountNumber";
      assert "nbf" != "expiresAt" && "nbf" != "accountNumber";
    }
    Jwt.ParseSignedString("HS256", claims, secret, t => SigningKey(secret, t), lib);
  }
}
