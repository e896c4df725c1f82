/**
 * The user record of the account service (model/users/user.js): its fields, the closed role
 * enumeration, the defaults of a new record and the store-wide invariants the schema imposes
 * (required fields, unique email).
 */
module Users {
  import opened Wrappers

  /** A record's identity; the database's object id, modelled as a number handed out in order. */
  type UserId = nat

  /** The collection of user records, keyed by id. */
  type Store = map<UserId, User>

  /** The schema's `enum` for role. */
  datatype Role = Admin | Shipper | Carrier | RegularUser

  /** The string the schema stores for each role. */
  function RoleName(r: Role): string
  {
    match r
    case Admin => "Admin"
    case Shipper => "Shipper"
    case Carrier => "Carrier"
    case RegularUser => "user"
  }

  /** Reads a role from a request string: only the four enumerated names are roles. */
  function ParseRole(s: string): (r: Option<Role>)
    ensures forall role: Role :: RoleName(role) == s <==> r == Some(role)
  {
    if s == "Admin" then Some(Admin)
    else if s == "Shipper" then Some(Shipper)
    else if s == "Carrier" then Some(Carrier)
    else if s == "user" then Some(RegularUser)
    else None
  }

  /**
   * A user record, with the reset fields under the names the controller uses. A date that
   * has been set to null is None.
   */
  datatype User = User(
    name: string,
    email: string,
    password: string,
    role: Role,
    isVerified: bool,
    verificationToken: string,
    verificationTokenExpiresAt: Option<int>,
    resetPasswordToken: string,
    resetPasswordExpiresAt: Option<int>)

  /**
   * A record built from name, email and password alone, every other field at its default:
   * role "user", not verified, empty verification token whose expiry defaults to the creation
   * time, and no reset code.
   */
  function NewUser(name: string, email: string, password: string, createdAt: int): (u: User)
    ensures u.name == name && u.email == email && u.password == password
    ensures u.role == RegularUser && !u.isVerified
    ensures u.verificationToken == "" && u.verificationTokenExpiresAt == Some(createdAt)
    ensures u.resetPasswordToken == "" && u.resetPasswordExpiresAt.None?
  {
    User(name, email, password, RegularUser, false, "", Some(createdAt), "", None)
  }

  /** `required: true` on name, email and password: a saved record has all three non-empty. */
  predicate HasRequiredFields(u: User)
  {
    u.name != "" && u.email != "" && u.password != ""
  }

  /** `unique: true` on email: no two records share one. */
  predicate EmailsUnique(s: Store)
  {
    forall i, j :: i in s && j in s && s[i].email == s[j].email ==> i == j
  }

  /** The store invariant: every record is complete and emails are unique. */
  predicate ValidStore(s: Store)
  {
    EmailsUnique(s) && forall id :: id in s ==> HasRequiredFields(s[id])
  }

  predicate EmailTaken(s: Store, email: string)
  {
    exists id :: id in s && s[id].email == email
  }

  /** Some record other than `self` owns `email`. */
  predicate EmailTakenByOther(s: Store, email: string, self: UserId)
  {
    exists id :: id in s && s[id].email == email && id != self
  }

  /** `findOne({ email })`: exact, case-sensitive match; unique emails make the answer unique. */
  function FindByEmail(s: Store, email: string): (r: Option<UserId>)
    requires EmailsUnique(s)
    ensures r.None? <==> !EmailTaken(s, email)
    ensures r.Some? ==> r.value in s && s[r.value].email == email
    ensures forall id :: id in s && s[id].email == email ==> r == Some(id)
  {
    if EmailTaken(s, email) then
      Some(var id :| id in s && s[id].email == email; id)
    else
      None
  }

  /** Adding a complete record under a fresh id with an unused email keeps the invariant. */
  lemma InsertKeepsValid(s: Store, id: UserId, u: User)
    requires ValidStore(s) && id !in s
    requires HasRequiredFields(u) && !EmailTaken(s, u.email)
    ensures ValidStore(s[id := u])
  {
  }

  /** Replacing a record by a complete one whose email no other record owns keeps the invariant. */
  lemma ReplaceKeepsValid(s: Store, id: UserId, u: User)
    requires ValidStore(s) && id in s
    requires HasRequiredFields(u) && !EmailTakenByOther(s, u.email, id)
    ensures ValidStore(s[id := u])
  {
  }

  /**
   * What a save keeps of a record under the declared schema in its default strict mode: paths
   * the schema does not declare are not persisted, and resetPasswordToken and
   * resetPasswordExpiresAt are not declared (the schema declares sendVerificationToken and
   * sendVerificationTokenExpiresAt instead), so they read back unset.
   */
  function SaveThroughSchema(u: User): (saved: User)
    ensures saved.resetPasswordToken == "" && saved.resetPasswordExpiresAt.None?
    ensures saved.(resetPasswordToken := u.resetPasswordToken,
                   resetPasswordExpiresAt := u.resetPasswordExpiresAt) == u
  {
    u.(resetPasswordToken := "", resetPasswordExpiresAt := None)
  }

  /**
   * As written, a reset code stored on a record does not survive the save: whatever non-empty
   * code a request stores, the reloaded record does not hold it.
   */
  lemma ResetCodeLostOnSave(u: User, code: string, expiresAt: int)
    requires code != ""
    ensures SaveThroughSchema(u.(resetPasswordToken := code,
                                 resetPasswordExpiresAt := Some(expiresAt))).resetPasswordToken != code
  {
  }
}
