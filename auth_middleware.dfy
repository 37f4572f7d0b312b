/** The API's authentication guard and role check (apps/api/src/middleware/auth.ts).
    Token verification (jsonwebtoken's jwt.verify) is a parameter: it either decodes the
    token or throws one of the library's errors. */
module AuthMiddleware {
  import opened Common

  /** jsonwebtoken's error classes. TokenExpiredError and NotBeforeError are subclasses of
      JsonWebTokenError; anything else thrown in the guard is OtherError. */
  datatype ThrownError = JwtMalformed | JwtExpired | JwtNotBefore | OtherError

  predicate IsJsonWebTokenError(e: ThrownError) {
    e.JwtMalformed? || e.JwtExpired? || e.JwtNotBefore?
  }

  predicate IsTokenExpiredError(e: ThrownError) {
    e.JwtExpired?
  }

  datatype Decoded = Decoded(userId: string, email: string, role: string)

  datatype VerifyResult = Verified(claims: Decoded) | VerifyThrew(error: ThrownError)

  datatype StoredUser = StoredUser(id: string, email: string, role: string, isActive: bool)

  /** req.user as the guard sets it. */
  datatype AuthUser = AuthUser(id: string, email: string, role: string)

  datatype Outcome = Respond(status: int, message: string) | Next(user: AuthUser)

  /** The catch block as written: `instanceof JsonWebTokenError` is tested first, and an expired
      token is also a JsonWebTokenError, so the "Token expired" branch is never taken. */
  function CaughtResponseAsWritten(e: ThrownError): Outcome {
    if IsJsonWebTokenError(e) then Respond(401, "Invalid token")
    else if IsTokenExpiredError(e) then Respond(401, "Token expired")
    else Respond(500, "Authentication error")
  }

  lemma ExpiredTokenReportedAsInvalid()
    ensures CaughtResponseAsWritten(JwtExpired) == Respond(401, "Invalid token")
    ensures forall e :: CaughtResponseAsWritten(e) != Respond(401, "Token expired")
  {
  }

  /** The catch block with the subclass tested before its superclass. */
  function CaughtResponse(e: ThrownError): (r: Outcome)
    ensures IsTokenExpiredError(e) ==> r == Respond(401, "Token expired")
    ensures !IsTokenExpiredError(e) && IsJsonWebTokenError(e) ==> r == Respond(401, "Invalid token")
    ensures !IsJsonWebTokenError(e) ==> r == Respond(500, "Authentication error")
  {
    if IsTokenExpiredError(e) then Respond(401, "Token expired")
    else if IsJsonWebTokenError(e) then Respond(401, "Invalid token")
    else Respond(500, "Authentication error")
  }

  /** The corrected catch block differs from the written one only on expired tokens. */
  lemma CorrectedDiffersOnlyOnExpiry(e: ThrownError)
    ensures CaughtResponse(e) != CaughtResponseAsWritten(e) <==> e == JwtExpired
  {
  }

  /** The guard's steps with the catch block as a parameter. `header` is the Authorization
      header, `jwtSecret` the JWT_SECRET setting, `verify` stands for jwt.verify and `users`
      for the user table; a missing secret throws a plain Error inside the try. */
  function Guard(header: Option<string>, jwtSecret: Option<string>,
                 verify: (string, string) -> VerifyResult, users: map<string, StoredUser>,
                 caught: ThrownError -> Outcome): Outcome
  {
    if !Truthy(header) || !StartsWith(header.value, "Bearer ") then
      Respond(401, "Access denied. No token provided.")
    else
      var token := header.value[7..];
      if !Truthy(jwtSecret) then caught(OtherError)
      else match verify(token, jwtSecret.value)
        case VerifyThrew(e) => caught(e)
        case Verified(claims) =>
          if claims.userId !in users || !users[claims.userId].isActive then
            Respond(401, "User not found or inactive")
          else
            var u := users[claims.userId];
            Next(AuthUser(u.id, u.email, u.role))
  }

  /** authMiddleware as written. */
  function Authenticate(header: Option<string>, jwtSecret: Option<string>,
                        verify: (string, string) -> VerifyResult, users: map<string, StoredUser>): Outcome
  {
    Guard(header, jwtSecret, verify, users, CaughtResponseAsWritten)
  }

  /** authMiddleware with the corrected catch block. */
  function AuthenticateCorrected(header: Option<string>, jwtSecret: Option<string>,
                                 verify: (string, string) -> VerifyResult, users: map<string, StoredUser>): Outcome
  {
    Guard(header, jwtSecret, verify, users, CaughtResponse)
  }

  /** The guard sequence: without a "Bearer " header 401 "Access denied"; without a secret
      500; a token that does not verify answers what the catch block gives for its error; a
      verified token whose user is missing or inactive 401 "User not found or inactive".
      A request passes only past all of these, and then req.user is the stored user's id,
      email and role (not the token's claims). */
  lemma AuthenticateSpec(header: Option<string>, jwtSecret: Option<string>,
                         verify: (string, string) -> VerifyResult, users: map<string, StoredUser>)
    ensures var r := Authenticate(header, jwtSecret, verify, users);
      && (header.None? || !StartsWith(header.value, "Bearer ") ==> r == Respond(401, "Access denied. No token provided."))
      && (header.Some? && StartsWith(header.value, "Bearer ") && !Truthy(jwtSecret) ==>
            r == Respond(500, "Authentication error"))
      && (header.Some? && StartsWith(header.value, "Bearer ") && Truthy(jwtSecret) ==>
            && (verify(header.value[7..], jwtSecret.value).VerifyThrew? ==>
                  r == CaughtResponseAsWritten(verify(header.value[7..], jwtSecret.value).error))
            && (verify(header.value[7..], jwtSecret.value).Verified? ==>
                  var uid := verify(header.value[7..], jwtSecret.value).claims.userId;
                  (uid !in users || !users[uid].isActive) ==> r == Respond(401, "User not found or inactive")))
      && (r.Next? <==>
            && header.Some? && StartsWith(header.value, "Bearer ") && Truthy(jwtSecret)
            && verify(header.value[7..], jwtSecret.value).Verified?
            && var uid := verify(header.value[7..], jwtSecret.value).claims.userId;
               uid in users && users[uid].isActive)
      && (r.Next? ==>
            var u := users[verify(header.value[7..], jwtSecret.value).claims.userId];
            r.user == AuthUser(u.id, u.email, u.role))
  {
  }

  /** Through the whole guard, an expired token is answered 401 "Invalid token" as written and
      401 "Token expired" once corrected; on every other request the two guards agree. */
  lemma ExpiredTokenThroughGuard(header: Option<string>, jwtSecret: Option<string>,
                                 verify: (string, string) -> VerifyResult, users: map<string, StoredUser>)
    ensures var expired := header.Some? && StartsWith(header.value, "Bearer ") && Truthy(jwtSecret)
                           && verify(header.value[7..], jwtSecret.value) == VerifyThrew(JwtExpired);
      && (expired ==> Authenticate(header, jwtSecret, verify, users) == Respond(401, "Invalid token"))
      && (expired ==> AuthenticateCorrected(header, jwtSecret, verify, users) == Respond(401, "Token expired"))
      && (!expired ==> Authenticate(header, jwtSecret, verify, users) == AuthenticateCorrected(header, jwtSecret, verify, users))
  {
    if header.Some? && StartsWith(header.value, "Bearer ") && Truthy(jwtSecret) {
      match verify(header.value[7..], jwtSecret.value)
      case VerifyThrew(e) => CorrectedDiffersOnlyOnExpiry(e);
      case Verified(_) =>
    }
  }

  /** For a header "Bearer " + token, jwt.verify is asked about exactly that token: what the
      guard answers is decided by verify(token, secret) and the user table alone. */
  lemma TokenIsHeaderAfterPrefix(token: string, jwtSecret: Option<string>,
                                 verify: (string, string) -> VerifyResult, users: map<string, StoredUser>)
    ensures var r := Authenticate(Some("Bearer " + token), jwtSecret, verify, users);
      && (Truthy(jwtSecret) && verify(token, jwtSecret.value).VerifyThrew? ==>
            r == CaughtResponseAsWritten(verify(token, jwtSecret.value).error))
      && (Truthy(jwtSecret) && verify(token, jwtSecret.value).Verified? ==>
            var uid := verify(token, jwtSecret.value).claims.userId;
            r == (if uid in users && users[uid].isActive
                  then Next(AuthUser(users[uid].id, users[uid].email, users[uid].role))
                  else Respond(401, "User not found or inactive")))
  {
    var h := "Bearer " + token;
    assert h[..7] == "Bearer ";
    assert h[7..] == token;
  }

  /** requireRole(...roles): 401 without a user, 403 when the user's role is not listed,
      otherwise next() once. */
  function RequireRole(roles: seq<string>, user: Option<AuthUser>): (r: Outcome)
    ensures user.None? <==> r == Respond(401, "Authentication required")
    ensures r.Next? <==> user.Some? && user.value.role in roles
    ensures r.Next? ==> r.user == user.value
    ensures user.Some? && user.value.role !in roles ==> r == Respond(403, "Insufficient permissions")
  {
    if user.None? then Respond(401, "Authentication required")
    else if user.value.role !in roles then Respond(403, "Insufficient permissions")
    else Next(user.value)
  }
}
