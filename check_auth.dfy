/** The authorisation middleware (checkAuth.ts): find the access token in
    the request, verify it, look its user up by email and run the account
    and role checks; only a request that passes them all goes on, carrying
    the verified token as its user. Token verification and the user lookup
    are inputs. */
module CheckAuth {
  import opened Common
  import opened UserModel

  /** The claims a verified access token carries. */
  datatype JwtPayload = JwtPayload(userId: UserId, email: string, role: string)

  /** The parts of the request the middleware reads. */
  datatype Request = Request(authorization: Option<string>, cookieToken: Option<string>)

  /** What the middleware passes to `next`: nothing (the request goes on
      with the verified token as its user), an AppError, or the exception
      the token verifier threw. */
  datatype AuthOutcome = Proceed(user: JwtPayload) | Denied(err: AppError) | TokenRejected

  const BearerPrefix: string := "Bearer "
  const NoToken := AppError(FORBIDDEN, "Unauthorized access: No token provided")
  const UserMissing := AppError(BAD_REQUEST, "User does not exist")
  const UserDeleted := AppError(BAD_REQUEST, "User is deleted")

  predicate HasBearer(req: Request)
  {
    req.authorization.Some? && StartsWith(req.authorization.value, BearerPrefix)
  }

  /** Where the token is taken from: the word after "Bearer " in the
      authorization header when the header has that prefix, even an empty
      word; otherwise the accessToken cookie when it is non-empty. */
  function TokenOf(req: Request): (r: Option<string>)
    ensures HasBearer(req) ==> r == Some(SecondWord(req.authorization.value))
    ensures HasBearer(req) ==> r.Some? && ' ' !in r.value
    ensures !HasBearer(req) && Truthy(req.cookieToken) ==> r == req.cookieToken
    ensures !HasBearer(req) && !Truthy(req.cookieToken) ==> r.None?
  {
    if HasBearer(req) then
      assert req.authorization.value[6] == BearerPrefix[6];
      Some(SecondWord(req.authorization.value))
    else if Truthy(req.cookieToken) then req.cookieToken
    else None
  }

  /** Token extraction as the middleware writes it: `accessToken` starts
      unset and is assigned by the first branch that applies. */
  method ExtractToken(req: Request) returns (accessToken: Option<string>)
    ensures accessToken == TokenOf(req)
  {
    accessToken := None;
    if req.authorization.Some? && StartsWith(req.authorization.value, BearerPrefix) {
      var header := req.authorization.value;
      assert header[6] == ' ';
      accessToken := Some(SecondWord(header));
    } else if req.cookieToken.Some? && req.cookieToken.value != "" {
      accessToken := req.cookieToken;
    }
  }

  /** The account and role checks on the verified token, in order:
      user found, not BLOCKED or INACTIVE, not deleted, role allowed. */
  function Authorize(token: JwtPayload, authRoles: seq<string>, found: Option<User>): (r: AuthOutcome)
    ensures r.Proceed? <==> (found.Some? && found.value.isActive == ACTIVE && !found.value.isDeleted
      && token.role in authRoles)
    ensures r.Proceed? ==> r.user == token
    ensures found.None? ==> r == Denied(UserMissing)
    ensures found.Some? && found.value.isActive != ACTIVE ==>
      r == Denied(AppError(BAD_REQUEST, "User is " + found.value.isActive.Name()))
    ensures found.Some? && found.value.isActive == ACTIVE && found.value.isDeleted ==> r == Denied(UserDeleted)
    ensures (found.Some? && found.value.isActive == ACTIVE && !found.value.isDeleted
      && token.role !in authRoles) ==>
      r == Denied(AppError(FORBIDDEN, "Unauthorized access: Insufficient role " + token.role))
  {
    if found.None? then Denied(UserMissing)
    else
      var u := found.value;
      if u.isActive == BLOCKED || u.isActive == INACTIVE then
        Denied(AppError(BAD_REQUEST, "User is " + u.isActive.Name()))
      else if u.isDeleted then Denied(UserDeleted)
      else if token.role !in authRoles then
        Denied(AppError(FORBIDDEN, "Unauthorized access: Insufficient role " + token.role))
      else Proceed(token)
  }

  /** The whole middleware. `verify` yields the claims of a valid token and
      None where the verifier throws; `findByEmail` is the user lookup. A
      request without a token is refused before the token is verified or any
      user is looked up. */
  method Check(req: Request, authRoles: seq<string>,
               verify: string -> Option<JwtPayload>, findByEmail: string -> Option<User>)
    returns (r: AuthOutcome)
    ensures !Truthy(TokenOf(req)) ==> r == Denied(NoToken)
    ensures Truthy(TokenOf(req)) && verify(TokenOf(req).value).None? ==> r == TokenRejected
    ensures (Truthy(TokenOf(req)) && verify(TokenOf(req).value).Some?) ==>
      (var claims := verify(TokenOf(req).value).value;
       r == Authorize(claims, authRoles, findByEmail(claims.email)))
    ensures r.Proceed? ==> (Truthy(TokenOf(req)) && verify(TokenOf(req).value) == Some(r.user)
      && findByEmail(r.user.email).Some? && findByEmail(r.user.email).value.isActive == ACTIVE
      && !findByEmail(r.user.email).value.isDeleted && r.user.role in authRoles)
  {
    var accessToken := ExtractToken(req);
    if accessToken.None? || accessToken.value == "" {
      return Denied(NoToken);
    }
    var verified := verify(accessToken.value);
    if verified.None? {
      return TokenRejected;
    }
    var claims := verified.value;
    var user := findByEmail(claims.email);
    r := Authorize(claims, authRoles, user);
  }

  /** The index of the first space of "Bearer " followed by a word without spaces. */
  lemma BearerSpaceAt(t: string)
    ensures FirstIndex(BearerPrefix + t, ' ') == 6
  {
    var s := BearerPrefix + t;
    assert s[6] == ' ';
    assert forall j :: 0 <= j < 6 ==> s[j] == BearerPrefix[j];
  }

  /** A header "Bearer <t>" yields exactly `t` when `t` has no space,
      whatever the cookie holds. */
  lemma BearerRoundTrip(t: string, cookie: Option<string>)
    requires ' ' !in t
    ensures TokenOf(Request(Some(BearerPrefix + t), cookie)) == Some(t)
  {
    var s := BearerPrefix + t;
    assert StartsWith(s, BearerPrefix);
    BearerSpaceAt(t);
    assert s[7..] == t;
    var r := SecondWord(s);
    assert StartsWith(t, r);
    if 7 + |r| != |s| {
      assert false;
    }
    assert t[..|r|] == r;
    assert r == t;
    assert HasBearer(Request(Some(s), cookie));
  }

  /** The header "Bearer " with nothing after it yields the empty token, so
      the request is refused as having no token even when the cookie holds
      one: the cookie is consulted only when the header lacks the prefix. */
  lemma EmptyBearerShadowsCookie(cookie: Option<string>)
    ensures TokenOf(Request(Some(BearerPrefix), cookie)) == Some("")
    ensures !Truthy(TokenOf(Request(Some(BearerPrefix), cookie)))
  {
    BearerRoundTrip("", cookie);
    assert BearerPrefix + "" == BearerPrefix;
  }

  /** The cookie decides only when the header does not start with "Bearer ". */
  lemma CookieOnlyWithoutBearer(auth: Option<string>, c1: Option<string>, c2: Option<string>)
    requires auth.Some? && StartsWith(auth.value, BearerPrefix)
    ensures TokenOf(Request(auth, c1)) == TokenOf(Request(auth, c2))
  {
  }
}
