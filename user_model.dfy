/** The user record (user.interface.ts) and the user schema's defaults,
    required fields and uniqueness (user.model.ts). */
module UserModel {
  import opened Common

  type UserId = string
  type ParcelId = string

  /** Account state; the stored value is one of the three names. */
  datatype IsActive = ACTIVE | INACTIVE | BLOCKED
  {
    function Name(): string
    {
      match this
      case ACTIVE => "ACTIVE"
      case INACTIVE => "INACTIVE"
      case BLOCKED => "BLOCKED"
    }
  }

  datatype Role = ADMIN | USER
  {
    function Name(): string
    {
      match this
      case ADMIN => "ADMIN"
      case USER => "USER"
    }
  }

  /** Login providers a user may be linked to. */
  datatype Provider = Credentials | Google
  {
    function Name(): string
    {
      match this
      case Credentials => "credentials"
      case Google => "google"
    }
  }

  datatype AuthProvider = AuthProvider(provider: Provider, providerId: string)

  /** A stored user document: every schema default already applied.
      `auths` is not declared by the user interface or schema but is read and
      written by the password operations; an absent list is the empty list. */
  datatype User = User(
    name: string,
    email: string,
    password: string,
    phone: Option<string>,
    address: Option<string>,
    role: Role,
    isDeleted: bool,
    isActive: IsActive,
    parcels: seq<ParcelId>,
    auths: seq<AuthProvider>)

  /** A user record as it reaches the schema: the optional fields may be absent. */
  datatype UserDraft = UserDraft(
    name: string,
    email: string,
    password: string,
    phone: Option<string>,
    address: Option<string>,
    role: Option<Role>,
    isDeleted: Option<bool>,
    isActive: Option<IsActive>,
    parcels: Option<seq<ParcelId>>,
    auths: Option<seq<AuthProvider>>)

  /** The schema's defaults: role USER, not deleted, ACTIVE, no parcels. */
  function ApplyUserDefaults(d: UserDraft): (u: User)
    ensures u.name == d.name && u.email == d.email && u.password == d.password
    ensures u.phone == d.phone && u.address == d.address
    ensures d.role.None? ==> u.role == USER
    ensures d.role.Some? ==> u.role == d.role.value
    ensures d.isDeleted.None? ==> !u.isDeleted
    ensures d.isDeleted.Some? ==> u.isDeleted == d.isDeleted.value
    ensures d.isActive.None? ==> u.isActive == ACTIVE
    ensures d.isActive.Some? ==> u.isActive == d.isActive.value
    ensures d.parcels.None? ==> u.parcels == []
    ensures d.parcels.Some? ==> u.parcels == d.parcels.value
    ensures d.auths.None? ==> u.auths == []
    ensures d.auths.Some? ==> u.auths == d.auths.value
  {
    User(d.name, d.email, d.password, d.phone, d.address,
         match d.role case Some(r) => r case None => USER,
         match d.isDeleted case Some(b) => b case None => false,
         match d.isActive case Some(a) => a case None => ACTIVE,
         match d.parcels case Some(ps) => ps case None => [],
         match d.auths case Some(xs) => xs case None => [])
  }

  /** Required string fields: a required path rejects a missing or empty string. */
  predicate UserSchemaValid(u: User)
  {
    u.name != "" && u.email != "" && u.password != ""
  }

  /** The unique index on email. */
  ghost predicate UniqueEmails(users: map<UserId, User>)
  {
    forall a, b :: a in users && b in users && a != b ==> users[a].email != users[b].email
  }
}
