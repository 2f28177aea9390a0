/** The password operations of auth.service.ts: change a password after
    checking the current one, reset it for the token's own account, and
    set one while linking the credentials provider. Each looks the user up,
    assigns fields of the found record and saves it. Hashing and the hash
    comparison are inputs. */
module AuthService {
  import opened Common
  import opened UserModel
  import opened CheckAuth
  import opened Passport

  const WrongCurrentPassword := AppError(UNAUTHORIZED, "The current password you entered is incorrect")
  const NotYourAccount := AppError(UNAUTHORIZED, "You can't reset password")
  const ResetUserMissing := AppError(UNAUTHORIZED, "User does not found")

  /** Only user `id` may differ, and in it only the password and the linked providers. */
  predicate OnlyCredentialsOf(users: map<UserId, User>, users': map<UserId, User>, id: UserId)
  {
    && id in users && id in users'
    && users'.Keys == users.Keys
    && (forall k :: k in users && k != id ==> users'[k] == users[k])
    && users'[id].(password := users[id].password, auths := users[id].auths) == users[id]
  }

  /** changePassword on store values. */
  function ChangedPassword(users: map<UserId, User>, oldPassword: string, newPassword: string, userId: UserId,
                           matches: (string, string) -> bool, hash: string -> string): (r: Result<map<UserId, User>>)
    ensures userId !in users ==> r == Err(UserNotFound)
    ensures userId in users && !matches(oldPassword, users[userId].password) ==> r == Err(WrongCurrentPassword)
    ensures r.Ok? <==> userId in users && matches(oldPassword, users[userId].password)
    ensures r.Ok? ==> (OnlyCredentialsOf(users, r.value, userId)
      && r.value[userId].password == hash(newPassword) && r.value[userId].auths == users[userId].auths)
  {
    if userId !in users then Err(UserNotFound)
    else if !matches(oldPassword, users[userId].password) then Err(WrongCurrentPassword)
    else Ok(users[userId := users[userId].(password := hash(newPassword))])
  }

  /** resetNewPassword on store values: the path id must be the token's own
      id, and a missing user is reported as UNAUTHORIZED. */
  function ResetPassword(users: map<UserId, User>, id: UserId, newPassword: string, token: JwtPayload,
                         hash: string -> string): (r: Result<map<UserId, User>>)
    ensures id != token.userId ==> r == Err(NotYourAccount)
    ensures id == token.userId && id !in users ==> r == Err(ResetUserMissing)
    ensures r.Ok? <==> id == token.userId && id in users
    ensures r.Ok? ==> (OnlyCredentialsOf(users, r.value, id)
      && r.value[id].password == hash(newPassword) && r.value[id].auths == users[id].auths)
  {
    if id != token.userId then Err(NotYourAccount)
    else if token.userId !in users then Err(ResetUserMissing)
    else Ok(users[token.userId := users[token.userId].(password := hash(newPassword))])
  }

  /** The provider entry setPassword links: credentials, keyed by the email. */
  function CredentialsEntry(u: User): AuthProvider
  {
    AuthProvider(Credentials, u.email)
  }

  /** setPassword on store values: the credentials entry goes at the end of
      the linked providers, whatever is already there. */
  function SetPassword(users: map<UserId, User>, userId: UserId, plainPassword: string,
                       hash: string -> string): (r: Result<map<UserId, User>>)
    ensures userId !in users ==> r == Err(UserNotFound)
    ensures r.Ok? <==> userId in users
    ensures r.Ok? ==> (OnlyCredentialsOf(users, r.value, userId)
      && r.value[userId].password == hash(plainPassword)
      && |r.value[userId].auths| == |users[userId].auths| + 1
      && r.value[userId].auths[..|users[userId].auths|] == users[userId].auths
      && r.value[userId].auths[|users[userId].auths|] == AuthProvider(Credentials, users[userId].email))
  {
    if userId !in users then Err(UserNotFound)
    else
      var u := users[userId];
      var auths := u.auths + [CredentialsEntry(u)];
      assert auths[..|u.auths|] == u.auths;
      Ok(users[userId := u.(auths := auths, password := hash(plainPassword))])
  }

  /** The store after a call: a rejected call saves nothing. */
  function Saved(users: map<UserId, User>, r: Result<map<UserId, User>>): map<UserId, User>
  {
    if r.Ok? then r.value else users
  }

  /** A successful call changes no email, so the unique email index still holds. */
  lemma CredentialsUpdateKeepsEmailsUnique(users: map<UserId, User>, users': map<UserId, User>, id: UserId)
    requires UniqueEmails(users) && OnlyCredentialsOf(users, users', id)
    ensures UniqueEmails(users')
  {
    forall a, b | a in users' && b in users' && a != b
      ensures users'[a].email != users'[b].email
    {
      assert users'[a].email == users[a].email;
      assert users'[b].email == users[b].email;
    }
  }

  /** With a comparison that accepts every password against its own hash,
      the new password of a successful change is the current password the
      next change asks for. */
  lemma ChangeThenChangeAgain(users: map<UserId, User>, p0: string, p1: string, p2: string, userId: UserId,
                              matches: (string, string) -> bool, hash: string -> string)
    requires forall p :: matches(p, hash(p))
    requires ChangedPassword(users, p0, p1, userId, matches, hash).Ok?
    ensures ChangedPassword(ChangedPassword(users, p0, p1, userId, matches, hash).value, p1, p2, userId, matches, hash).Ok?
  {
    var users' := ChangedPassword(users, p0, p1, userId, matches, hash).value;
    assert users'[userId].password == hash(p1);
  }

  /** After a reset, the account logs in with the new password, provided
      it is active and not deleted (the reset does not touch either). */
  lemma ResetThenLogin(users: map<UserId, User>, newPassword: string, token: JwtPayload,
                       matches: (string, string) -> bool, hash: string -> string)
    requires forall p :: matches(p, hash(p))
    requires token.userId in users && AccountUsable(users[token.userId])
    ensures var r := ResetPassword(users, token.userId, newPassword, token, hash);
      r.Ok? && VerifyLogin(Found(Some(r.value[token.userId])), newPassword, matches) == LoggedIn(r.value[token.userId])
  {
    var r := ResetPassword(users, token.userId, newPassword, token, hash);
    assert r.value[token.userId].password == hash(newPassword);
  }

  /** setPassword does not look for an existing credentials entry: a second
      call links a second one. */
  lemma SetPasswordTwiceLinksTwice(users: map<UserId, User>, userId: UserId, p1: string, p2: string,
                                   hash: string -> string)
    requires userId in users
    ensures var once := SetPassword(users, userId, p1, hash).value;
      var twice := SetPassword(once, userId, p2, hash).value;
      var n := |users[userId].auths|;
      && |twice[userId].auths| == n + 2
      && twice[userId].auths[n] == twice[userId].auths[n + 1] == AuthProvider(Credentials, users[userId].email)
  {
    var once := SetPassword(users, userId, p1, hash).value;
    assert once[userId].email == users[userId].email;
    var twice := SetPassword(once, userId, p2, hash).value;
    var n := |users[userId].auths|;
    assert twice[userId].auths[..n + 1] == once[userId].auths;
    assert twice[userId].auths[n] == once[userId].auths[n];
  }

  /** The user collection as the auth service sees it. */
  class AuthStore {
    var users: map<UserId, User>

    ghost predicate Valid()
      reads this
    {
      UniqueEmails(users)
    }

    constructor (initialUsers: map<UserId, User>)
      requires UniqueEmails(initialUsers)
      ensures Valid() && users == initialUsers
    {
      users := initialUsers;
    }

    /** changePassword: find, compare, assign the new hash, save. */
    method ChangePassword(oldPassword: string, newPassword: string, token: JwtPayload,
                          matches: (string, string) -> bool, hash: string -> string) returns (r: Result<()>)
      requires Valid()
      modifies this
      ensures Valid()
      ensures var o := ChangedPassword(old(users), oldPassword, newPassword, token.userId, matches, hash);
        users == Saved(old(users), o) && (r.Ok? <==> o.Ok?) && (r.Err? ==> r.error == o.error)
    {
      ghost var before := users;
      if token.userId !in users { return Err(UserNotFound); }
      var user := users[token.userId];
      var isOldPasswordMatch := matches(oldPassword, user.password);
      if !isOldPasswordMatch { return Err(WrongCurrentPassword); }
      user := user.(password := hash(newPassword));
      users := users[token.userId := user];
      CredentialsUpdateKeepsEmailsUnique(before, users, token.userId);
      return Ok(());
    }

    /** resetNewPassword: id check, find, assign the new hash, save. */
    method ResetNewPassword(id: UserId, newPassword: string, token: JwtPayload, hash: string -> string)
      returns (r: Result<()>)
      requires Valid()
      modifies this
      ensures Valid()
      ensures var o := ResetPassword(old(users), id, newPassword, token, hash);
        users == Saved(old(users), o) && (r.Ok? <==> o.Ok?) && (r.Err? ==> r.error == o.error)
    {
      ghost var before := users;
      if id != token.userId { return Err(NotYourAccount); }
      if token.userId !in users { return Err(ResetUserMissing); }
      var user := users[token.userId];
      user := user.(password := hash(newPassword));
      users := users[token.userId := user];
      CredentialsUpdateKeepsEmailsUnique(before, users, token.userId);
      return Ok(());
    }

    /** setPassword: find, hash, append the credentials entry, assign, save. */
    method SetUserPassword(userId: UserId, plainPassword: string, hash: string -> string) returns (r: Result<()>)
      requires Valid()
      modifies this
      ensures Valid()
      ensures var o := SetPassword(old(users), userId, plainPassword, hash);
        users == Saved(old(users), o) && (r.Ok? <==> o.Ok?) && (r.Err? ==> r.error == o.error)
    {
      ghost var before := users;
      if userId !in users { return Err(UserNotFound); }
      var user := users[userId];
      var hashPassword := hash(plainPassword);
      var credentialProvider := AuthProvider(Credentials, user.email);
      var auths := user.auths + [credentialProvider];
      user := user.(auths := auths);
      user := user.(password := hashPassword);
      users := users[userId := user];
      CredentialsUpdateKeepsEmailsUnique(before, users, userId);
      return Ok(());
    }
  }
}
