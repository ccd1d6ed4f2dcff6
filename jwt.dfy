/**
 * The part of the golang-jwt (v3) library the server relies on: building a signed
 * compact token (NewWithClaims + SignedString) and parsing one back (Parse with a key
 * function). Base64url, JSON and the signature algorithms are not modelled; they are
 * the functions of a Lib value, and Lawful states the few facts about them that the
 * library's callers depend on.
 */
module Jwt {
  import opened Wrappers
  import Strings

  /** A claim value after JSON decoding; only numbers matter to the server. */
  datatype ClaimValue = Number(value: int) | NonNumber

  /** jwt.MapClaims: the claims object of a token, by name. */
  type Claims = map<string, ClaimValue>

  /** The signing methods registered with the library, grouped by kind. */
  datatype SigningMethod = HMAC(alg: string) | Asymmetric(alg: string) | Unsigned

  const HmacAlgs: set<string> := {"HS256", "HS384", "HS512"}
  const AsymmetricAlgs: set<string> :=
    {"RS256", "RS384", "RS512", "PS256", "PS384", "PS512", "ES256", "ES384", "ES512", "EdDSA"}

  /** jwt.GetSigningMethod: the registered method for an "alg" header value, if any. */
  function GetSigningMethod(alg: string): (m: Option<SigningMethod>)
    ensures m.Some? && m.value.HMAC? <==> alg in HmacAlgs
    ensures m.Some? && m.value.HMAC? ==> m.value.alg == alg
    ensures m.None? <==> alg !in HmacAlgs && alg !in AsymmetricAlgs && alg != "none"
  {
    if alg in HmacAlgs then Some(HMAC(alg))
    else if alg in AsymmetricAlgs then Some(Asymmetric(alg))
    else if alg == "none" then Some(Unsigned)
    else None
  }

  /** The "alg" header value a method writes. */
  function Alg(m: SigningMethod): string
  {
    match m
    case HMAC(a) => a
    case Asymmetric(a) => a
    case Unsigned => "none"
  }

  /** A decoded token: the header's "alg" and the claims. */
  datatype Token = Token(alg: string, claims: Claims)

  /**
   * The library's own machinery, left abstract: encoding and decoding of the header
   * (by its "alg") and of the claims as base64url JSON segments, signing and
   * verifying a signing string with a key, and MapClaims.Valid, which checks the
   * registered time claims "exp", "iat" and "nbf" against the current clock.
   * decodeHeader yields None for a segment that is not base64url JSON or whose "alg"
   * is missing or not a string.
   */
  datatype Lib = Lib(
    encodeHeader: string -> string,
    decodeHeader: string -> Option<string>,
    encodeClaims: Claims -> string,
    decodeClaims: string -> Option<Claims>,
    sign: (SigningMethod, string, string) -> string,
    verify: (SigningMethod, string, string, string) -> bool,
    claimsValid: Claims -> bool)

  /** Claims without any of the registered time claims. */
  predicate NoTimeClaims(c: Claims)
  {
    "exp" !in c && "iat" !in c && "nbf" !in c
  }

  /**
   * What callers rely on: segments decode to what was encoded; base64url segments
   * and signatures never contain '.'; an HMAC signature made with a key verifies with
   * that key; claims with no time claims are always valid.
   */
  ghost predicate Lawful(lib: Lib)
  {
    && (forall alg :: lib.decodeHeader(lib.encodeHeader(alg)) == Some(alg))
    && (forall alg :: '.' !in lib.encodeHeader(alg))
    && (forall c :: lib.decodeClaims(lib.encodeClaims(c)) == Some(c))
    && (forall c :: '.' !in lib.encodeClaims(c))
    && (forall m, input, key :: '.' !in lib.sign(m, input, key))
    && (forall a, input, key :: lib.verify(HMAC(a), input, lib.sign(HMAC(a), input, key), key))
    && (forall c :: NoTimeClaims(c) ==> lib.claimsValid(c))
  }

  /** Token.SignedString for jwt.NewWithClaims(m, claims): header.claims.signature. */
  function SignedString(m: SigningMethod, claims: Claims, key: string, lib: Lib): string
  {
    var signing := lib.encodeHeader(Alg(m)) + "." + lib.encodeClaims(claims);
    signing + "." + lib.sign(m, signing, key)
  }

  /** The error kinds of jwt.ValidationError that Parse can report. */
  datatype ValidationError =
    | Malformed
    | Unverifiable(reason: string)
    | Invalid(claimsInvalid: bool, signatureInvalid: bool)

  /** What jwt.Parse returns: the token if it got that far, token.Valid, and the error. */
  datatype Parsed = Parsed(token: Option<Token>, valid: bool, err: Option<ValidationError>)

  /** A key function: the verification key for a token, or the reason to refuse it. */
  type KeyFunc = Token -> Result<string, string>

  /**
   * Everything jwt.Parse demands of a token's segments: there are three, header and
   * claims decode, "alg" names a registered method, the key function gives a key, the
   * claims are currently valid, and the signature verifies for the first two segments
   * under that method and key.
   */
  predicate Verified(parts: seq<string>, keyFunc: KeyFunc, lib: Lib)
  {
    && |parts| == 3
    && lib.decodeHeader(parts[0]).Some?
    && lib.decodeClaims(parts[1]).Some?
    && var t := Token(lib.decodeHeader(parts[0]).value, lib.decodeClaims(parts[1]).value);
    && GetSigningMethod(t.alg).Some?
    && keyFunc(t).Success?
    && lib.claimsValid(t.claims)
    && lib.verify(GetSigningMethod(t.alg).value, parts[0] + "." + parts[1], parts[2], keyFunc(t).value)
  }

  /**
   * jwt.Parse: split into three segments and decode header and claims (Malformed
   * otherwise); look up the signing method named by "alg" and ask the key function
   * for a key (Unverifiable otherwise, and the signature is never checked); then check
   * both the claims and the signature. The token is Valid exactly when there is no
   * error, and only a token whose key function gave a key can be Valid.
   */
  function Parse(s: string, keyFunc: KeyFunc, lib: Lib): (p: Parsed)
    ensures p.valid <==> p.err.None?
    ensures p.valid ==> p.token.Some? && keyFunc(p.token.value).Success?
    ensures p.valid ==> GetSigningMethod(p.token.value.alg).Some?
    ensures p.valid ==> lib.claimsValid(p.token.value.claims)
    ensures |Strings.Split(s, '.')| != 3 ==> p.err == Some(Malformed)
    ensures p.valid <==> Verified(Strings.Split(s, '.'), keyFunc, lib)
    ensures p.err.Some? && p.err.value.Invalid? ==>
      var parts := Strings.Split(s, '.');
      && |parts| == 3 && p.token.Some?
      && GetSigningMethod(p.token.value.alg).Some? && keyFunc(p.token.value).Success?
      && p.err.value.claimsInvalid == !lib.claimsValid(p.token.value.claims)
      && p.err.value.signatureInvalid == !lib.verify(GetSigningMethod(p.token.value.alg).value,
           parts[0] + "." + parts[1], parts[2], keyFunc(p.token.value).value)
  {
    var parts := Strings.Split(s, '.');
    if |parts| != 3 then Parsed(None, false, Some(Malformed))
    else
      match (lib.decodeHeader(parts[0]), lib.decodeClaims(parts[1]))
      case (None, _) => Parsed(None, false, Some(Malformed))
      case (_, None) => Parsed(None, false, Some(Malformed))
      case (Some(alg), Some(claims)) =>
        var t := Token(alg, claims);
        match GetSigningMethod(alg)
        case None => Parsed(Some(t), false, Some(Unverifiable("signing method (alg) is unavailable.")))
        case Some(m) =>
          match keyFunc(t)
          case Failure(reason) => Parsed(Some(t), false, Some(Unverifiable(reason)))
          case Success(key) =>
            var claimsInvalid := !lib.claimsValid(claims);
            var signatureInvalid := !lib.verify(m, parts[0] + "." + parts[1], parts[2], key);
            if claimsInvalid || signatureInvalid then
              Parsed(Some(t), false, Some(Invalid(claimsInvalid, signatureInvalid)))
            else
              Parsed(Some(t), true, None)
  }

  /**
   * Round trip: a token signed with an HMAC method and key parses back to the same
   * header and claims and is Valid, when the key function hands out that key and the
   * claims are currently valid.
   */
  lemma ParseSignedString(a: string, claims: Claims, key: string, keyFunc: KeyFunc, lib: Lib)
    requires Lawful(lib)
    requires a in HmacAlgs
    requires keyFunc(Token(a, claims)) == Success(key)
    requires lib.claimsValid(claims)
    ensures Parse(SignedString(HMAC(a), claims, key, lib), keyFunc, lib)
         == Parsed(Some(Token(a, claims)), true, None)
  {
    var h := lib.encodeHeader(a);
    var c := lib.encodeClaims(claims);
    var sig := lib.sign(HMAC(a), h + "." + c, key);
    assert SignedString(HMAC(a), claims, key, lib) == h + ['.'] + c + ['.'] + sig;
    Strings.SplitThree(h, c, sig, '.');
  }
}
