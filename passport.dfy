/** The local login strategy's verify callback (passport.ts): look the user
    up by email, refuse missing, inactive, blocked and deleted accounts in
    that order, then compare the password. The lookup's result and the
    password comparison are inputs. */
module Passport {
  import opened Common
  import opened UserModel
  import opened CheckAuth

  /** The lookup by email either throws or finds zero or one user. */
  datatype Lookup = Threw | Found(user: Option<User>)

  /** What the callback hands to `done`: the user, `false` with a message,
      or the caught error. */
  datatype LoginOutcome = LoggedIn(user: User) | Refused(message: string) | Errored

  /** The checks before the password comparison pass. */
  predicate AccountUsable(u: User)
  {
    u.isActive == ACTIVE && !u.isDeleted
  }

  /** The verify callback. `matches(password, stored)` stands for the hash comparison. */
  function VerifyLogin(lookup: Lookup, password: string, matches: (string, string) -> bool): (r: LoginOutcome)
    ensures r.Errored? <==> lookup.Threw?
    ensures r.LoggedIn? <==> (lookup.Found? && lookup.user.Some? && AccountUsable(lookup.user.value)
      && matches(password, lookup.user.value.password))
    ensures r.LoggedIn? ==> lookup.user == Some(r.user)
    ensures lookup == Found(None) ==> r == Refused("User does not exist")
    ensures lookup.Found? && lookup.user.Some? ==>
      (var u := lookup.user.value;
       && (u.isActive == INACTIVE ==> r == Refused("User is inactive"))
       && (u.isActive == BLOCKED ==> r == Refused("User is blocked"))
       && (u.isActive == ACTIVE && u.isDeleted ==> r == Refused("User is deleted"))
       && (AccountUsable(u) && !matches(password, u.password) ==> r == Refused("Incorrect password")))
  {
    match lookup
    case Threw => Errored
    case Found(None) => Refused("User does not exist")
    case Found(Some(u)) =>
      if u.isActive == INACTIVE then Refused("User is inactive")
      else if u.isActive == BLOCKED then Refused("User is blocked")
      else if u.isDeleted then Refused("User is deleted")
      else if !matches(password, u.password) then Refused("Incorrect password")
      else LoggedIn(u)
  }

  /** Login and the authorisation middleware refuse the same accounts: for a
      user that exists, the login's account checks fail exactly when the
      middleware's account checks (400) fail, although the two phrase the
      inactive and blocked messages differently. */
  lemma LoginAndMiddlewareRefuseSameAccounts(u: User, password: string, matches: (string, string) -> bool,
                                             token: JwtPayload, authRoles: seq<string>)
    ensures var login := VerifyLogin(Found(Some(u)), password, matches);
      var auth := Authorize(token, authRoles, Some(u));
      (login.Refused? && login.message != "Incorrect password") <==>
        (auth.Denied? && auth.err.status == BAD_REQUEST)
  {
    var login := VerifyLogin(Found(Some(u)), password, matches);
    var auth := Authorize(token, authRoles, Some(u));
    if AccountUsable(u) {
      assert login.Refused? ==> login.message == "Incorrect password";
      assert auth.Denied? ==> auth.err.status == FORBIDDEN;
    } else {
      assert login.Refused? && login.message != "Incorrect password";
    }
  }

  /** An account that logs in passes the middleware's account checks, so a
      token issued to it is refused only for its role. */
  lemma LoggedInUserPassesAccountChecks(lookup: Lookup, password: string, matches: (string, string) -> bool,
                                        token: JwtPayload, authRoles: seq<string>)
    requires VerifyLogin(lookup, password, matches).LoggedIn?
    ensures var auth := Authorize(token, authRoles, lookup.user);
      auth.Proceed? <==> token.role in authRoles
  {
  }
}
