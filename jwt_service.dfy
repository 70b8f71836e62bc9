/**
 * Token issuance and the read-side probes over a parsed token. Signing and
 * parsing (HMAC keys, compact serialisation) are an opaque pair carried by the
 * service: `sign` turns a payload into a token string and `parse` gives back
 * either a payload or the kind of failure the JWT library raised.
 */
module JwtServices {
  import opened Base
  import opened Uuids

  /** A claim value as it comes out of the token body. */
  datatype ClaimValue = Str(s: string) | StrList(items: seq<string>) | Num(n: int)

  /**
   * A token body: the custom claims (a key that is absent reads as null) and
   * the registered subject, issued-at and expiration claims, in milliseconds.
   */
  datatype Payload = Payload(
    claims: map<string, ClaimValue>,
    subject: Option<string>,
    issuedAt: Option<int>,
    expiration: Option<int>)

  /**
   * Why parsing failed. `EmptyClaims` is raised as IllegalArgumentException;
   * every other kind is a JwtException (`OtherJwt` standing for the subclasses
   * none of the handlers name, such as a premature token).
   */
  datatype ParseFailure = Malformed | Expired | Unsupported | EmptyClaims | BadSignature | OtherJwt

  /** The claims carried by a token; every field is nullable. */
  datatype JwtClaims = JwtClaims(
    userId: Option<Uuid>,
    email: Option<string>,
    role: Option<string>,
    storeId: Option<Uuid>,
    tokenType: Option<string>,
    permissions: Option<seq<string>>)

  datatype JwtService = JwtService(
    accessTokenExpiration: int,
    refreshTokenExpiration: int,
    sign: Payload -> string,
    parse: string -> Result<Payload, ParseFailure>)

  /** Configured lifetimes when none are given: 15 minutes and 7 days. */
  const DefaultAccessTokenExpiration: int := 900000
  const DefaultRefreshTokenExpiration: int := 604800000

  const AccessType: string := "ACCESS"
  const RefreshType: string := "REFRESH"

  function WithDefaults(sign: Payload -> string, parse: string -> Result<Payload, ParseFailure>): (svc: JwtService)
    ensures svc.accessTokenExpiration == 15 * 60 * 1000
    ensures svc.refreshTokenExpiration == 7 * 24 * 60 * 60 * 1000
  {
    JwtService(DefaultAccessTokenExpiration, DefaultRefreshTokenExpiration, sign, parse)
  }

  /** A nullable string claim; the library drops claims whose value is null. */
  function PutNullable(m: map<string, ClaimValue>, key: string, v: Option<string>): map<string, ClaimValue>
  {
    if v.Some? then m[key := Str(v.value)] else m - {key}
  }

  /**
   * The body `buildToken` signs: userId, email, role, storeId, tokenType and,
   * when given, permissions; subject is the user id; expiry is issue time plus
   * the lifetime. A null user or store id dereferenced while building is a
   * NullPointerException.
   */
  function TokenPayload(c: JwtClaims, now: int, lifetime: int, tokenType: string): (r: Result<Payload, Error>)
    ensures r.Failure? <==> c.userId.None? || c.storeId.None?
    ensures r.Failure? ==> r.error == NullPointer
    ensures r.Success? ==>
      var m := r.value.claims;
      && m.Keys <= {"userId", "email", "role", "storeId", "tokenType", "permissions"}
      && "userId" in m && m["userId"] == Str(ToString(c.userId.value))
      && "storeId" in m && m["storeId"] == Str(ToString(c.storeId.value))
      && "tokenType" in m && m["tokenType"] == Str(tokenType)
      && ("email" in m <==> c.email.Some?) && (c.email.Some? ==> m["email"] == Str(c.email.value))
      && ("role" in m <==> c.role.Some?) && (c.role.Some? ==> m["role"] == Str(c.role.value))
      && ("permissions" in m <==> c.permissions.Some?)
      && (c.permissions.Some? ==> m["permissions"] == StrList(c.permissions.value))
    ensures r.Success? ==> r.value.subject == Some(ToString(c.userId.value))
    ensures r.Success? ==> r.value.issuedAt == Some(now) && r.value.expiration == Some(now + lifetime)
  {
    if c.userId.None? || c.storeId.None? then Failure(NullPointer)
    else
      var base := PutNullable(PutNullable(map["userId" := Str(ToString(c.userId.value))], "email", c.email), "role", c.role);
      var withType := base["storeId" := Str(ToString(c.storeId.value))]["tokenType" := Str(tokenType)];
      var m := if c.permissions.Some? then withType["permissions" := StrList(c.permissions.value)] else withType;
      Success(Payload(m, Some(ToString(c.userId.value)), Some(now), Some(now + lifetime)))
  }

  /** The signed token for those claims, or the exception building it raised. */
  function Issue(svc: JwtService, c: JwtClaims, now: int, lifetime: int, tokenType: string): Result<string, Error>
  {
    match TokenPayload(c, now, lifetime, tokenType)
    case Success(p) => Success(svc.sign(p))
    case Failure(e) => Failure(e)
  }

  /** `buildToken`: fills the claim map entry by entry, then signs it. */
  method BuildToken(svc: JwtService, c: JwtClaims, now: int, expirationMs: int, tokenType: string)
    returns (r: Result<string, Error>)
    ensures r == Issue(svc, c, now, expirationMs, tokenType)
  {
    var expiryDate := now + expirationMs;
    if c.userId.None? {
      return Failure(NullPointer);
    }
    var claimsMap: map<string, ClaimValue> := map[];
    claimsMap := claimsMap["userId" := Str(ToString(c.userId.value))];
    claimsMap := PutNullable(claimsMap, "email", c.email);
    claimsMap := PutNullable(claimsMap, "role", c.role);
    if c.storeId.None? {
      return Failure(NullPointer);
    }
    claimsMap := claimsMap["storeId" := Str(ToString(c.storeId.value))];
    claimsMap := claimsMap["tokenType" := Str(tokenType)];
    if c.permissions.Some? {
      claimsMap := claimsMap["permissions" := StrList(c.permissions.value)];
    }
    var payload := Payload(claimsMap, Some(ToString(c.userId.value)), Some(now), Some(expiryDate));
    r := Success(svc.sign(payload));
  }

  method GenerateAccessToken(svc: JwtService, c: JwtClaims, now: int) returns (r: Result<string, Error>)
    ensures r == Issue(svc, c, now, svc.accessTokenExpiration, AccessType)
  {
    r := BuildToken(svc, c, now, svc.accessTokenExpiration, AccessType);
  }

  method GenerateRefreshToken(svc: JwtService, c: JwtClaims, now: int) returns (r: Result<string, Error>)
    ensures r == Issue(svc, c, now, svc.refreshTokenExpiration, RefreshType)
  {
    r := BuildToken(svc, c, now, svc.refreshTokenExpiration, RefreshType);
  }

  /**
   * `claims.get(key, String.class)`: null when absent, the string when it is
   * one, and otherwise the library's RequiredTypeException (a JwtException).
   */
  function StringClaim(m: map<string, ClaimValue>, key: string): (r: Result<Option<string>, Error>)
    ensures r == Success(None) <==> key !in m
    ensures key in m && m[key].Str? ==> r == Success(Some(m[key].s))
    ensures r.Failure? <==> key in m && !m[key].Str?
    ensures r.Failure? ==> r.error == JwtRejected
  {
    if key !in m then Success(None)
    else match m[key]
      case Str(s) => Success(Some(s))
      case _ => Failure(JwtRejected)
  }

  /**
   * `UUID.fromString((String) claims.get(key))`: a null claim is a
   * NullPointerException, a non-string a ClassCastException, and text that
   * is not a UUID an IllegalArgumentException.
   */
  function UuidClaim(m: map<string, ClaimValue>, key: string): (r: Result<Uuid, Error>)
    ensures r.Success? ==> key in m && m[key].Str? && FromString(m[key].s) == Some(r.value)
    ensures key !in m ==> r == Failure(NullPointer)
    ensures key in m && !m[key].Str? ==> r == Failure(ClassCast)
    ensures key in m && m[key].Str? && FromString(m[key].s).None? ==> r == Failure(InvalidArgument)
    ensures key in m && m[key].Str? && Canonical(m[key].s) ==> r.Success?
  {
    if key !in m then Failure(NullPointer)
    else match m[key]
      case Str(s) =>
        (match FromString(s)
         case Some(u) => Success(u)
         case None => Failure(InvalidArgument))
      case _ => Failure(ClassCast)
  }

  /** `(List<String>) claims.get(key)`: null when absent, a ClassCastException for a non-list. */
  function ListClaim(m: map<string, ClaimValue>, key: string): (r: Result<Option<seq<string>>, Error>)
    ensures r == Success(None) <==> key !in m
    ensures key in m && m[key].StrList? ==> r == Success(Some(m[key].items))
    ensures r.Failure? <==> key in m && !m[key].StrList?
    ensures r.Failure? ==> r.error == ClassCast
  {
    if key !in m then Success(None)
    else match m[key]
      case StrList(l) => Success(Some(l))
      case _ => Failure(ClassCast)
  }

  /**
   * The body of `extractClaims`' try block: permissions, userId, email, role,
   * storeId and tokenType, read in that order; the first exception wins.
   */
  function DecodeClaims(p: Payload): (r: Result<JwtClaims, Error>)
    ensures r.Success? ==> r.value.userId.Some? && r.value.storeId.Some?
    ensures var m := p.claims;
      r.Success? <==>
        && ListClaim(m, "permissions").Success? && UuidClaim(m, "userId").Success?
        && StringClaim(m, "email").Success? && StringClaim(m, "role").Success?
        && UuidClaim(m, "storeId").Success? && StringClaim(m, "tokenType").Success?
    ensures var m := p.claims;
      r.Success? ==> r.value == JwtClaims(
        Some(UuidClaim(m, "userId").value), StringClaim(m, "email").value, StringClaim(m, "role").value,
        Some(UuidClaim(m, "storeId").value), StringClaim(m, "tokenType").value, ListClaim(m, "permissions").value)
    // the first reader to fail decides the error
    ensures ListClaim(p.claims, "permissions").Failure? ==> r == Failure(ClassCast)
    ensures ListClaim(p.claims, "permissions").Success? && UuidClaim(p.claims, "userId").Failure? ==>
      r == Failure(UuidClaim(p.claims, "userId").error)
    ensures r.Failure? ==> r.error in {ClassCast, NullPointer, InvalidArgument, JwtRejected}
  {
    var permissions :- ListClaim(p.claims, "permissions");
    var userId :- UuidClaim(p.claims, "userId");
    var email :- StringClaim(p.claims, "email");
    var role :- StringClaim(p.claims, "role");
    var storeId :- UuidClaim(p.claims, "storeId");
    var tokenType :- StringClaim(p.claims, "tokenType");
    Success(JwtClaims(Some(userId), email, role, Some(storeId), tokenType, permissions))
  }

  /**
   * `extractClaims`: any parse failure, and any JwtException or
   * IllegalArgumentException while reading the claims (a malformed UUID, a
   * claim of the wrong type), becomes Unauthorized. A missing id claim
   * (NullPointerException) or a non-string id or non-list permissions
   * (ClassCastException) is not caught and escapes as it is.
   */
  function ExtractClaims(svc: JwtService, token: string): (r: Result<JwtClaims, Error>)
    ensures svc.parse(token).Failure? ==> r == Failure(Unauthorized)
    ensures r.Success? ==> r.value.userId.Some? && r.value.storeId.Some?
    ensures r.Failure? ==> r.error in {Unauthorized, NullPointer, ClassCast}
    ensures svc.parse(token).Success? ==>
      var d := DecodeClaims(svc.parse(token).value);
      && (d.Success? ==> r == d)
      && (d.Failure? && d.error in {JwtRejected, InvalidArgument} ==> r == Failure(Unauthorized))
      && (d.Failure? && d.error !in {JwtRejected, InvalidArgument} ==> r == d)
  {
    match svc.parse(token)
    case Failure(_) => Failure(Unauthorized)
    case Success(p) =>
      match DecodeClaims(p)
      case Success(c) => Success(c)
      case Failure(e) =>
        if e == JwtRejected || e == InvalidArgument then Failure(Unauthorized) else Failure(e)
  }

  /**
   * `validateToken`: true when the token parses; false for the five failure
   * kinds it catches (malformed, expired, unsupported, empty, bad signature);
   * any other JwtException propagates.
   */
  function ValidateToken(svc: JwtService, token: string): (r: Result<bool, Error>)
    ensures r == Success(true) <==> svc.parse(token).Success?
    ensures r == Success(false) <==> svc.parse(token).Failure? && svc.parse(token).error != OtherJwt
    ensures r.Failure? <==> svc.parse(token) == Failure(OtherJwt)
    ensures r.Failure? ==> r.error == JwtRejected
  {
    match svc.parse(token)
    case Success(_) => Success(true)
    case Failure(OtherJwt) => Failure(JwtRejected)
    case Failure(_) => Success(false)
  }

  /**
   * `isTokenExpired` at wall-clock time `now`: true for an expired-token
   * failure; for a parsed token, whether its expiration is before `now`. A
   * parsed token without expiration dereferences null; other parse failures
   * propagate.
   */
  function IsTokenExpired(svc: JwtService, token: string, now: int): (r: Result<bool, Error>)
    ensures svc.parse(token) == Failure(Expired) ==> r == Success(true)
    ensures svc.parse(token).Success? && svc.parse(token).value.expiration.Some? ==>
      r == Success(svc.parse(token).value.expiration.value < now)
    ensures r.Success? ==> svc.parse(token).Success? || svc.parse(token) == Failure(Expired)
    ensures svc.parse(token).Success? && svc.parse(token).value.expiration.None? ==> r == Failure(NullPointer)
    ensures svc.parse(token) == Failure(EmptyClaims) ==> r == Failure(InvalidArgument)
    ensures svc.parse(token).Failure? && svc.parse(token).error !in {Expired, EmptyClaims} ==> r == Failure(JwtRejected)
  {
    match svc.parse(token)
    case Success(p) =>
      (match p.expiration
       case Some(e) => Success(e < now)
       case None => Failure(NullPointer))
    case Failure(Expired) => Success(true)
    case Failure(EmptyClaims) => Failure(InvalidArgument)
    case Failure(_) => Failure(JwtRejected)
  }

  /**
   * `getTokenTypeFromToken`: the stored type (null when absent); every
   * JwtException, expiry included, becomes Unauthorized. An empty token is
   * an IllegalArgumentException, which that handler does not catch.
   */
  function GetTokenTypeFromToken(svc: JwtService, token: string): (r: Result<Option<string>, Error>)
    ensures svc.parse(token).Failure? && svc.parse(token).error != EmptyClaims ==> r == Failure(Unauthorized)
    ensures svc.parse(token) == Failure(EmptyClaims) ==> r == Failure(InvalidArgument)
    ensures r.Success? ==> svc.parse(token).Success?
    ensures svc.parse(token).Success? ==>
      var m := svc.parse(token).value.claims;
      r == if "tokenType" !in m then Success(None)
           else if m["tokenType"].Str? then Success(Some(m["tokenType"].s))
           else Failure(Unauthorized)
  {
    match svc.parse(token)
    case Success(p) =>
      (match StringClaim(p.claims, "tokenType")
       case Success(t) => Success(t)
       case Failure(_) => Failure(Unauthorized))
    case Failure(EmptyClaims) => Failure(InvalidArgument)
    case Failure(_) => Failure(Unauthorized)
  }

  /**
   * Round trip: when parsing a token gives back the payload it was built
   * from, every probe reads back what was issued: the same user, email, role,
   * store and permissions, the stamped token type, and the issue-time expiry.
   */
  lemma {:induction false} IssuedTokenRoundTrip(
    svc: JwtService, c: JwtClaims, now: int, lifetime: int, tokenType: string, p: Payload, token: string, checkedAt: int)
    requires TokenPayload(c, now, lifetime, tokenType) == Success(p)
    requires svc.parse(token) == Success(p)
    ensures ExtractClaims(svc, token) == Success(c.(tokenType := Some(tokenType)))
    ensures ValidateToken(svc, token) == Success(true)
    ensures GetTokenTypeFromToken(svc, token) == Success(Some(tokenType))
    ensures IsTokenExpired(svc, token, checkedAt) == Success(now + lifetime < checkedAt)
  {
    FromToString(c.userId.value);
    FromToString(c.storeId.value);
    assert UuidClaim(p.claims, "userId") == Success(c.userId.value);
    assert UuidClaim(p.claims, "storeId") == Success(c.storeId.value);
  }

  /**
   * A token that parses but whose userId claim is text `UUID.fromString`
   * rejects is refused as Unauthorized, not let through as another exception.
   */
  lemma {:induction false} MalformedUserIdIsUnauthorized(svc: JwtService, token: string)
    requires svc.parse(token).Success?
    requires var m := svc.parse(token).value.claims;
      && ("permissions" !in m || m["permissions"].StrList?)
      && "userId" in m && m["userId"].Str? && !Canonical(m["userId"].s)
    ensures ExtractClaims(svc, token) == Failure(Unauthorized)
  {
    var m := svc.parse(token).value.claims;
    assert UuidClaim(m, "userId") == Failure(InvalidArgument);
  }

  /** Tokens from `generateAccessToken` are typed ACCESS and live 15 minutes by default. */
  lemma AccessTokenClaims(c: JwtClaims, now: int, sign: Payload -> string, parse: string -> Result<Payload, ParseFailure>)
    requires c.userId.Some? && c.storeId.Some?
    ensures var svc := WithDefaults(sign, parse);
      var r := TokenPayload(c, now, svc.accessTokenExpiration, AccessType);
      r.Success? && r.value.claims["tokenType"] == Str("ACCESS") && r.value.expiration == Some(now + 900000)
  {
  }

  /** Tokens from `generateRefreshToken` are typed REFRESH and live 7 days by default. */
  lemma RefreshTokenClaims(c: JwtClaims, now: int, sign: Payload -> string, parse: string -> Result<Payload, ParseFailure>)
    requires c.userId.Some? && c.storeId.Some?
    ensures var svc := WithDefaults(sign, parse);
      var r := TokenPayload(c, now, svc.refreshTokenExpiration, RefreshType);
      r.Success? && r.value.claims["tokenType"] == Str("REFRESH") && r.value.expiration == Some(now + 604800000)
  {
  }
}
