/** The create-user and update-user payload validators (user.validation.ts)
    as predicates over raw payloads, and the parse that turns an accepted
    create payload into a user record. Enum-valued fields arrive as strings. */
module UserValidation {
  import opened Common
  import opened UserModel

  datatype RawAuth = RawAuth(provider: string, providerId: string)

  datatype CreateUserPayload = CreateUserPayload(
    name: string,
    email: string,
    role: string,
    password: string,
    phone: Option<string>,
    address: Option<string>,
    auths: Option<seq<RawAuth>>)

  datatype UpdateUserPayload = UpdateUserPayload(
    name: Option<string>,
    phone: Option<string>,
    role: Option<string>,
    isActive: Option<string>,
    isDeleted: Option<bool>,
    address: Option<string>,
    auths: Option<seq<RawAuth>>)

  function ParseRole(s: string): (r: Option<Role>)
    ensures r.Some? ==> r.value.Name() == s
    ensures r.None? ==> s != ADMIN.Name() && s != USER.Name()
  {
    if s == "ADMIN" then Some(ADMIN)
    else if s == "USER" then Some(USER)
    else None
  }

  function ParseIsActive(s: string): (r: Option<IsActive>)
    ensures r.Some? ==> r.value.Name() == s
    ensures r.None? ==> s != ACTIVE.Name() && s != INACTIVE.Name() && s != BLOCKED.Name()
  {
    if s == "ACTIVE" then Some(ACTIVE)
    else if s == "INACTIVE" then Some(INACTIVE)
    else if s == "BLOCKED" then Some(BLOCKED)
    else None
  }

  function ParseProvider(s: string): (r: Option<Provider>)
    ensures r.Some? ==> r.value.Name() == s
    ensures r.None? ==> s != Credentials.Name() && s != Google.Name()
  {
    if s == "credentials" then Some(Credentials)
    else if s == "google" then Some(Google)
    else None
  }

  /** Every auths entry names one of the two providers. */
  predicate ValidAuths(auths: Option<seq<RawAuth>>)
  {
    auths.None? || forall i :: 0 <= i < |auths.value| ==> ParseProvider(auths.value[i].provider).Some?
  }

  /** createUserZodSchema; `isEmail` stands for the library's email-format check. */
  predicate ValidCreateUser(p: CreateUserPayload, isEmail: string -> bool)
  {
    && |p.name| >= 1
    && isEmail(p.email)
    && ParseRole(p.role).Some?
    && |p.password| >= 6
    && (p.address.None? || |p.address.value| >= 5)
    && ValidAuths(p.auths)
  }

  /** updatedUserZodSchema: every field optional, constrained only when present. */
  predicate ValidUpdateUser(p: UpdateUserPayload)
  {
    && (p.name.None? || |p.name.value| >= 1)
    && (p.role.None? || ParseRole(p.role.value).Some?)
    && (p.isActive.None? || ParseIsActive(p.isActive.value).Some?)
    && (p.address.None? || |p.address.value| >= 1)
    && ValidAuths(p.auths)
  }

  function ParseAuths(xs: seq<RawAuth>): (r: seq<AuthProvider>)
    requires forall i :: 0 <= i < |xs| ==> ParseProvider(xs[i].provider).Some?
    ensures |r| == |xs|
    ensures forall i :: 0 <= i < |xs| ==>
      r[i].provider.Name() == xs[i].provider && r[i].providerId == xs[i].providerId
  {
    seq(|xs|, i requires 0 <= i < |xs| && ParseProvider(xs[i].provider).Some? =>
      AuthProvider(ParseProvider(xs[i].provider).value, xs[i].providerId))
  }

  /** The payload the validator lets through, as a user record for the schema. */
  function ParseCreateUser(p: CreateUserPayload, isEmail: string -> bool): (r: Option<UserDraft>)
    ensures r.Some? <==> ValidCreateUser(p, isEmail)
    ensures r.Some? ==> r.value.name == p.name && r.value.email == p.email && r.value.password == p.password
    ensures r.Some? ==> r.value.role.Some? && r.value.role.value.Name() == p.role
    ensures r.Some? ==> r.value.isActive.None? && r.value.isDeleted.None? && r.value.parcels.None?
    ensures r.Some? ==> r.value.phone == p.phone && r.value.address == p.address
    ensures r.Some? && p.auths.None? ==> r.value.auths.None?
    ensures r.Some? && p.auths.Some? ==> r.value.auths == Some(ParseAuths(p.auths.value))
  {
    if !ValidCreateUser(p, isEmail) then None
    else
      Some(UserDraft(p.name, p.email, p.password, p.phone, p.address,
        ParseRole(p.role), None, None, None,
        match p.auths case Some(xs) => Some(ParseAuths(xs)) case None => None))
  }

  /** An accepted create payload with a non-empty email yields a user the
      schema stores: ACTIVE, not deleted, no parcels, required fields present. */
  lemma CreatePayloadMeetsSchema(p: CreateUserPayload, isEmail: string -> bool)
    requires ValidCreateUser(p, isEmail) && p.email != ""
    ensures ParseCreateUser(p, isEmail).Some?
    ensures var u := ApplyUserDefaults(ParseCreateUser(p, isEmail).value);
      UserSchemaValid(u) && u.isActive == ACTIVE && !u.isDeleted && u.parcels == []
  {
  }

  /** Every update field is optional; a present name or address must be
      non-empty and a present account state must be one of the three. */
  lemma UpdateUserFieldsOptional(p: UpdateUserPayload)
    ensures ValidUpdateUser(UpdateUserPayload(None, None, None, None, None, None, None))
    ensures p.name == Some("") ==> !ValidUpdateUser(p)
    ensures p.address == Some("") ==> !ValidUpdateUser(p)
    ensures ValidUpdateUser(p) && p.isActive.Some? ==>
      p.isActive.value in {ACTIVE.Name(), INACTIVE.Name(), BLOCKED.Name()}
  {
  }
}
