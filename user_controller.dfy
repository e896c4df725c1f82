/**
 * The account service (controllers/userController.js): one object owning the user records, one
 * method per request handler. Each handler takes the request's fields, the current time `now`
 * in milliseconds and, where it issues a code, a random draw in [0, 900000); where it sends
 * mail, whether the mail went out. It answers with a Reply (the HTTP status and which message)
 * and changes the records in place.
 */
module UserController {
  import opened Wrappers
  import opened Users
  import opened Externals
  import opened Codes
  import opened Passwords

  /** Why a request was refused; each kind is one of the handlers' messages. */
  datatype Reason =
    | MissingFields        // "All fields are required" and its resetPassword counterpart
    | InvalidEmail         // "Invalid email format"
    | WeakPassword         // the password-policy messages
    | EmailExists          // signUp: "Email already exists, ..."
    | MailFailed           // the mail dependency threw after the record was saved
    | CodeNotFound         // verifyAccount: no record holds the code
    | CodeExpired          // verifyAccount: the code's expiry has passed
    | UnknownEmail         // loginUser and resetPasswordToken: no record has the email
    | WrongPassword        // loginUser: bcrypt.compare failed
    | UserNotFound         // lookups by id
    | ResetCodeMismatch    // resetPassword: "Invalid reset token"
    | ResetCodeExpired     // resetPassword: the reset code's expiry has passed
    | RoleChangeForbidden  // updateProfile: a role supplied by a non-Admin
    | InvalidRole          // updateProfile: a role outside the enumeration
    | EmailTakenByAnother  // updateProfile: the new email belongs to another record

  function StatusOf(why: Reason): int
  {
    match why
    case MailFailed => 500
    case UserNotFound => 404
    case RoleChangeForbidden => 403
    case _ => 400
  }

  datatype Reply = Success(code: int) | Failure(why: Reason)
  {
    function Status(): int
    {
      match this
      case Success(code) => code
      case Failure(why) => StatusOf(why)
    }
  }

  /** The record signUp saves: the defaults, the hashed password and a fresh verification code. */
  function Registration(deps: Deps, name: string, email: string, password: string,
                        now: int, draw: int): (u: User)
    requires Sound(deps) && 0 <= draw < CODE_SPAN
    requires name != "" && email != ""
    ensures HasRequiredFields(u)
    ensures u.name == name && u.email == email && u.role == RegularUser && !u.isVerified
    ensures deps.compare(password, u.password)
    ensures |u.verificationToken| == 6 && AllDigits(u.verificationToken)
    ensures CODE_LOW <= DecimalValue(u.verificationToken) <= 999999
    ensures u.verificationTokenExpiresAt == Some(now + 3600000)
  {
    NewUser(name, email, deps.hash(password), now).(
      verificationToken := IssueCode(draw),
      verificationTokenExpiresAt := Some(ExpiryFrom(now)))
  }

  /** verifyAccount's update: verified, code and expiry cleared, nothing else touched. */
  function Verified(u: User): (v: User)
    ensures v.isVerified && v.verificationToken == "" && v.verificationTokenExpiresAt.None?
    ensures v.(isVerified := u.isVerified, verificationToken := u.verificationToken,
               verificationTokenExpiresAt := u.verificationTokenExpiresAt) == u
  {
    u.(isVerified := true, verificationToken := "", verificationTokenExpiresAt := None)
  }

  /** resetPasswordToken's update: a new reset code and expiry, nothing else touched. */
  function WithResetCode(u: User, code: string, expiresAt: int): (v: User)
    ensures v.resetPasswordToken == code && v.resetPasswordExpiresAt == Some(expiresAt)
    ensures v.(resetPasswordToken := u.resetPasswordToken,
               resetPasswordExpiresAt := u.resetPasswordExpiresAt) == u
  {
    u.(resetPasswordToken := code, resetPasswordExpiresAt := Some(expiresAt))
  }

  /** resetPassword's update: the new hash, the reset code and expiry cleared. */
  function WithNewPassword(u: User, hashed: string): (v: User)
    ensures v.password == hashed && v.resetPasswordToken == "" && v.resetPasswordExpiresAt.None?
    ensures v.(password := u.password, resetPasswordToken := u.resetPasswordToken,
               resetPasswordExpiresAt := u.resetPasswordExpiresAt) == u
  {
    u.(password := hashed, resetPasswordToken := "", resetPasswordExpiresAt := None)
  }

  /** updateProfile's update: each supplied (truthy) field replaces the stored one. */
  function Edited(u: User, name: Option<string>, email: Option<string>, role: Option<Role>): (v: User)
    ensures v.name == (if Truthy(name) then name.value else u.name)
    ensures v.email == (if Truthy(email) then email.value else u.email)
    ensures v.role == (if role.Some? then role.value else u.role)
    ensures v.(name := u.name, email := u.email, role := u.role) == u
  {
    u.(name := if Truthy(name) then name.value else u.name,
       email := if Truthy(email) then email.value else u.email,
       role := if role.Some? then role.value else u.role)
  }

  /** The cookie logout answers with: `token`, empty, HTTP-only, expired at the epoch. */
  datatype Cookie = Cookie(name: string, value: string, httpOnly: bool, expires: int)

  class Accounts {
    var users: Store
    var nextId: UserId
    const deps: Deps

    /** Every record is complete, emails are unique, and every id is below the next one. */
    ghost predicate Valid()
      reads this
    {
      Sound(deps) && ValidStore(users) && forall id :: id in users ==> id < nextId
    }

    constructor (deps: Deps)
      requires Sound(deps)
      ensures Valid() && users == map[] && this.deps == deps
    {
      this.deps := deps;
      users := map[];
      nextId := 0;
    }

    /**
     * signUp: four checks, in order, each refusing with 400 and leaving the records alone;
     * then exactly one new record, saved before the mail goes out, so a mail failure answers
     * 500 with the record kept.
     */
    method SignUp(email: Option<string>, name: Option<string>, password: Option<string>,
                  now: int, draw: int, mailSent: bool) returns (reply: Reply, created: Option<UserId>)
      requires Valid() && 0 <= draw < CODE_SPAN
      modifies this
      ensures Valid()
      ensures reply ==
        if !(Truthy(email) && Truthy(name) && Truthy(password)) then Failure(MissingFields)
        else if !deps.isEmail(email.value) then Failure(InvalidEmail)
        else if !StrongPassword(password.value, deps.isSymbol) then Failure(WeakPassword)
        else if EmailTaken(old(users), email.value) then Failure(EmailExists)
        else if mailSent then Success(201)
        else Failure(MailFailed)
      ensures reply.Status() == 400 ==> users == old(users) && nextId == old(nextId) && created.None?
      ensures reply.Status() != 400 ==>
        && created == Some(old(nextId)) && old(nextId) !in old(users)
        && users == old(users)[old(nextId) := Registration(deps, name.value, email.value,
                                                            password.value, now, draw)]
        && |users| == |old(users)| + 1
    {
      if !(Truthy(email) && Truthy(name) && Truthy(password)) {
        return Failure(MissingFields), None;
      }
      if !deps.isEmail(email.value) {
        return Failure(InvalidEmail), None;
      }
      if !StrongPassword(password.value, deps.isSymbol) {
        return Failure(WeakPassword), None;
      }
      if FindByEmail(users, email.value).Some? {
        return Failure(EmailExists), None;
      }
      var user := Registration(deps, name.value, email.value, password.value, now, draw);
      InsertKeepsValid(users, nextId, user);
      users := users[nextId := user];
      created := Some(nextId);
      nextId := nextId + 1;
      if !mailSent {
        return Failure(MailFailed), created;
      }
      return Success(201), created;
    }

    /**
     * verifyAccount: the lookup by code may match any record holding it; the one matched is
     * returned. A missing match or an expired code refuses with 400 and changes nothing; else
     * that one record is verified and its code cleared.
     */
    method VerifyAccount(code: string, now: int) returns (reply: Reply, matched: Option<UserId>)
      requires Valid()
      modifies this
      ensures Valid() && nextId == old(nextId)
      ensures matched.None? <==> forall id :: id in old(users) ==> old(users)[id].verificationToken != code
      ensures matched.Some? ==>
        matched.value in old(users) && old(users)[matched.value].verificationToken == code
      ensures reply ==
        if matched.None? then Failure(CodeNotFound)
        else if Expired(old(users)[matched.value].verificationTokenExpiresAt, now) then Failure(CodeExpired)
        else Success(200)
      ensures reply.Failure? ==> users == old(users)
      ensures reply.Success? ==>
        users == old(users)[matched.value := Verified(old(users)[matched.value])]
    {
      if id :| id in users && users[id].verificationToken == code {
        matched := Some(id);
        var user := users[id];
        if Expired(user.verificationTokenExpiresAt, now) {
          return Failure(CodeExpired), matched;
        }
        ReplaceKeepsValid(users, id, Verified(user));
        users := users[id := Verified(user)];
        return Success(200), matched;
      }
      return Failure(CodeNotFound), None;
    }

    /**
     * loginUser: refuses with 400 an unknown email (exact match) or a password bcrypt rejects;
     * otherwise issues a session token bound to the record's id. Being verified is not
     * required, and nothing is changed.
     */
    method Login(email: string, password: string) returns (reply: Reply, session: Option<UserId>)
      requires Valid()
      ensures session.Some? <==> reply == Success(200)
      ensures !EmailTaken(users, email) ==> reply == Failure(UnknownEmail)
      ensures forall id :: id in users && users[id].email == email ==>
        reply == (if deps.compare(password, users[id].password) then Success(200)
                  else Failure(WrongPassword))
      ensures session.Some? ==> session.value in users && users[session.value].email == email
    {
      var found := FindByEmail(users, email);
      if found.None? {
        return Failure(UnknownEmail), None;
      }
      var user := users[found.value];
      if !deps.compare(password, user.password) {
        return Failure(WrongPassword), None;
      }
      return Success(200), found;
    }

    /** logoutUser: always 200, with the session cookie cleared; the records are not read. */
    method Logout() returns (reply: Reply, cookie: Cookie)
      ensures reply == Success(200)
      ensures cookie.name == "token" && cookie.value == "" && cookie.httpOnly && cookie.expires == 0
    {
      return Success(200), Cookie("token", "", true, 0);
    }

    /**
     * resetPasswordToken: an unknown email refuses with 400 and changes nothing; otherwise the
     * record's reset code becomes a fresh 6-digit code expiring an hour from now, before the
     * mail goes out, and no other field or record changes.
     */
    method ResetPasswordToken(email: string, now: int, draw: int, mailSent: bool)
      returns (reply: Reply)
      requires Valid() && 0 <= draw < CODE_SPAN
      modifies this
      ensures Valid() && nextId == old(nextId)
      ensures !EmailTaken(old(users), email) ==>
        reply == Failure(UnknownEmail) && users == old(users)
      ensures forall id :: id in old(users) && old(users)[id].email == email ==>
        && reply == (if mailSent then Success(200) else Failure(MailFailed))
        && users == old(users)[id := WithResetCode(old(users)[id], IssueCode(draw), ExpiryFrom(now))]
    {
      var found := FindByEmail(users, email);
      if found.None? {
        return Failure(UnknownEmail);
      }
      var id := found.value;
      var updated := WithResetCode(users[id], IssueCode(draw), ExpiryFrom(now));
      ReplaceKeepsValid(users, id, updated);
      users := users[id := updated];
      if !mailSent {
        return Failure(MailFailed);
      }
      return Success(200);
    }

    /**
     * resetPassword: five checks in order (inputs present, record found, code equal, code not
     * expired, new password strong), each refusing without a change; on success the new hash
     * is stored and the reset code and expiry are cleared.
     */
    method ResetPassword(userId: Option<UserId>, resetToken: Option<string>,
                         newPassword: Option<string>, now: int) returns (reply: Reply)
      requires Valid()
      modifies this
      ensures Valid() && nextId == old(nextId)
      ensures reply ==
        if userId.None? || !Truthy(resetToken) || !Truthy(newPassword) then Failure(MissingFields)
        else if userId.value !in old(users) then Failure(UserNotFound)
        else if old(users)[userId.value].resetPasswordToken != resetToken.value then Failure(ResetCodeMismatch)
        else if Expired(old(users)[userId.value].resetPasswordExpiresAt, now) then Failure(ResetCodeExpired)
        else if !StrongPassword(newPassword.value, deps.isSymbol) then Failure(WeakPassword)
        else Success(200)
      ensures reply.Failure? ==> users == old(users)
      ensures reply.Success? ==>
        users == old(users)[userId.value :=
                            WithNewPassword(old(users)[userId.value], deps.hash(newPassword.value))]
    {
      if userId.None? || !Truthy(resetToken) || !Truthy(newPassword) {
        return Failure(MissingFields);
      }
      var id := userId.value;
      if id !in users {
        return Failure(UserNotFound);
      }
      var user := users[id];
      if user.resetPasswordToken != resetToken.value {
        return Failure(ResetCodeMismatch);
      }
      if Expired(user.resetPasswordExpiresAt, now) {
        return Failure(ResetCodeExpired);
      }
      if !StrongPassword(newPassword.value, deps.isSymbol) {
        return Failure(WeakPassword);
      }
      var updated := WithNewPassword(user, deps.hash(newPassword.value));
      ReplaceKeepsValid(users, id, updated);
      users := users[id := updated];
      return Success(200);
    }

    /**
     * updateProfile, on behalf of a caller with role `callerRole`: a supplied role from a
     * non-Admin is refused (403) before anything else, then a role outside the enumeration
     * (400), then an unknown id (404), then an email owned by another record (400); every
     * refusal persists nothing. Otherwise only the supplied fields change.
     */
    method UpdateProfile(callerRole: Role, userId: UserId, name: Option<string>,
                         email: Option<string>, role: Option<string>) returns (reply: Reply)
      requires Valid()
      modifies this
      ensures Valid() && nextId == old(nextId)
      ensures reply ==
        if Truthy(role) && callerRole != Admin then Failure(RoleChangeForbidden)
        else if Truthy(role) && ParseRole(role.value).None? then Failure(InvalidRole)
        else if userId !in old(users) then Failure(UserNotFound)
        else if Truthy(email) && EmailTakenByOther(old(users), email.value, userId) then Failure(EmailTakenByAnother)
        else Success(200)
      ensures reply.Failure? ==> users == old(users)
      ensures reply.Success? ==>
        users == old(users)[userId := Edited(old(users)[userId], name, email,
                                             if Truthy(role) then ParseRole(role.value) else None)]
    {
      if Truthy(role) && callerRole != Admin {
        return Failure(RoleChangeForbidden);
      }
      var newRole: Option<Role> := None;
      if Truthy(role) {
        newRole := ParseRole(role.value);
        if newRole.None? {
          return Failure(InvalidRole);
        }
      }
      if userId !in users {
        return Failure(UserNotFound);
      }
      if Truthy(email) {
        var existing := FindByEmail(users, email.value);
        if existing.Some? && existing.value != userId {
          return Failure(EmailTakenByAnother);
        }
      }
      var updated := Edited(users[userId], name, email, newRole);
      ReplaceKeepsValid(users, userId, updated);
      users := users[userId := updated];
      return Success(200);
    }

    /** getAllUsers: every record, with 200; nothing changes. */
    method GetAllUsers() returns (reply: Reply, all: Store)
      requires Valid()
      ensures reply == Success(200) && all == users
    {
      return Success(200), users;
    }

    /** getUserById: the record with that id (200), or 404; nothing changes. */
    method GetUserById(userId: UserId) returns (reply: Reply, found: Option<User>)
      requires Valid()
      ensures userId in users ==> reply == Success(200) && found == Some(users[userId])
      ensures userId !in users ==> reply == Failure(UserNotFound) && found.None?
    {
      if userId !in users {
        return Failure(UserNotFound), None;
      }
      return Success(200), Some(users[userId]);
    }

    /** deleteUserbyId: 404 for an unknown id; otherwise exactly that record goes. */
    method DeleteUserById(userId: UserId) returns (reply: Reply)
      requires Valid()
      modifies this
      ensures Valid() && nextId == old(nextId)
      ensures userId !in old(users) ==> reply == Failure(UserNotFound) && users == old(users)
      ensures userId in old(users) ==>
        && reply == Success(200)
        && users == old(users) - {userId}
        && |users| == |old(users)| - 1
    {
      if userId !in users {
        return Failure(UserNotFound);
      }
      users := users - {userId};
      return Success(200);
    }
  }
}
