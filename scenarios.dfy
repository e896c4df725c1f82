/**
 * Callers of the account service that chain several requests, proved from the handlers'
 * contracts alone: the registration walk-through, the single use of verification and reset
 * codes, and logout's idempotence.
 */
module Scenarios {
  import opened Wrappers
  import opened Users
  import opened Externals
  import opened Codes
  import opened Passwords
  import opened UserController

  /**
   * Sign up, fail to verify with a wrong code, verify with the mailed code within the hour,
   * then log in with the right password and fail with a wrong one. Whether the address is
   * well-formed and "!" a symbol is the libraries' business; bcrypt is assumed to reject "wrong".
   */
  method RegistrationWalkthrough(deps: Deps, draw: int, now: int, later: int, wrongCode: string)
    returns (signedUp: Reply, wrong: Reply, right: Reply, login: Reply, badLogin: Reply)
    requires Sound(deps) && 0 <= draw < CODE_SPAN
    requires deps.isEmail("a@x.com") && deps.isSymbol('!')
    requires !deps.compare("wrong", deps.hash("Aa1!aa"))
    requires wrongCode != IssueCode(draw)
    requires now <= later <= now + 3600000
    ensures signedUp == Success(201) && wrong == Failure(CodeNotFound) && right == Success(200)
    ensures login == Success(200) && badLogin == Failure(WrongPassword)
  {
    var service := new Accounts(deps);
    StrongPasswordMeans("Aa1!aa", deps.isSymbol);
    assert IsUpper("Aa1!aa"[0]) && IsLower("Aa1!aa"[1]) && IsDigit("Aa1!aa"[2]);
    assert StrongPassword("Aa1!aa", deps.isSymbol);

    var id;
    signedUp, id := service.SignUp(Some("a@x.com"), Some("A"), Some("Aa1!aa"), now, draw, true);
    assert signedUp == Success(201);
    var code := service.users[id.value].verificationToken;
    assert code == IssueCode(draw);
    assert !service.users[id.value].isVerified;

    var none, matched, session, noSession;
    wrong, none := service.VerifyAccount(wrongCode, later);
    right, matched := service.VerifyAccount(code, later);
    assert matched == id;
    assert service.users[id.value].isVerified;

    login, session := service.Login("a@x.com", "Aa1!aa");
    assert session == id;
    badLogin, noSession := service.Login("a@x.com", "wrong");
  }

  /**
   * A verification code verifies a record at most once: after a success, presenting the same
   * code again cannot match that record (it may only match another record that happens to
   * hold the same code).
   */
  method VerifyTwice(service: Accounts, code: string, now: int, later: int)
    returns (first: Reply, second: Reply, m1: Option<UserId>, m2: Option<UserId>)
    requires service.Valid() && code != ""
    modifies service
    ensures first.Success? ==> m1.Some? && m2 != m1
  {
    first, m1 := service.VerifyAccount(code, now);
    second, m2 := service.VerifyAccount(code, later);
  }

  /** With a single record, the second use of its verification code is refused with 400. */
  method VerifyTwiceSingleRecord(service: Accounts, code: string, now: int, later: int)
    returns (first: Reply, second: Reply)
    requires service.Valid() && code != "" && |service.users| == 1
    modifies service
    ensures first.Success? ==> second == Failure(CodeNotFound) && second.Status() == 400
  {
    var m1, m2;
    first, m1 := service.VerifyAccount(code, now);
    second, m2 := service.VerifyAccount(code, later);
    if first.Success? {
      var others := service.users.Keys - {m1.value};
      assert service.users.Keys == others + {m1.value};
      assert |others| == 0;
      assert service.users.Keys == {m1.value};
    }
  }

  /**
   * The reset flow for an existing email: the code issued at `now` resets the password at
   * any instant up to an hour later, after which bcrypt accepts the new password; the same
   * code then no longer matches. A new password that fails the policy is refused.
   */
  method ResetWithIssuedCode(service: Accounts, id: UserId, draw: int, now: int, later: int,
                             newPassword: string) returns (requested: Reply, reset: Reply, again: Reply)
    requires service.Valid() && id in service.users && 0 <= draw < CODE_SPAN
    requires now <= later <= now + 3600000
    modifies service
    ensures requested == Success(200)
    ensures reset == (if newPassword == "" then Failure(MissingFields)
                      else if !StrongPassword(newPassword, service.deps.isSymbol) then Failure(WeakPassword)
                      else Success(200))
    ensures reset.Success? ==>
      && id in service.users && service.deps.compare(newPassword, service.users[id].password)
      && again == Failure(ResetCodeMismatch)
  {
    var email := service.users[id].email;
    requested := service.ResetPasswordToken(email, now, draw, true);
    var code := IssueCode(draw);
    assert service.users[id].resetPasswordToken == code;

    reset := service.ResetPassword(Some(id), Some(code), Some(newPassword), later);
    again := service.ResetPassword(Some(id), Some(code), Some(newPassword), later);
  }

  /**
   * The reset flow as written: the record reloaded by resetPassword is what the schema kept of
   * the saved one, which holds no reset code, so the mailed code is refused with 400.
   */
  method ResetAsWritten(service: Accounts, id: UserId, draw: int, now: int, later: int,
                        newPassword: string) returns (reset: Reply)
    requires service.Valid() && id in service.users && 0 <= draw < CODE_SPAN
    requires newPassword != ""
    modifies service
    ensures reset == Failure(ResetCodeMismatch)
  {
    var requested := service.ResetPasswordToken(service.users[id].email, now, draw, true);
    var saved := SaveThroughSchema(service.users[id]);
    ReplaceKeepsValid(service.users, id, saved);
    service.users := service.users[id := saved];
    reset := service.ResetPassword(Some(id), Some(IssueCode(draw)), Some(newPassword), later);
  }

  /** A reset code presented after its expiry is refused even though it matches. */
  method ResetAfterExpiry(service: Accounts, id: UserId, draw: int, now: int, later: int,
                          newPassword: string) returns (reset: Reply)
    requires service.Valid() && id in service.users && 0 <= draw < CODE_SPAN
    requires later > now + 3600000 && newPassword != ""
    modifies service
    ensures reset == Failure(ResetCodeExpired)
  {
    var requested := service.ResetPasswordToken(service.users[id].email, now, draw, true);
    reset := service.ResetPassword(Some(id), Some(IssueCode(draw)), Some(newPassword), later);
  }

  /** An Admin caller changes any existing record's role to any of the four roles. */
  method AdminAssignsRole(service: Accounts, id: UserId, target: Role)
    requires service.Valid() && id in service.users
    modifies service
    ensures id in service.users && service.users[id].role == target
  {
    var reply := service.UpdateProfile(Admin, id, None, None, Some(RoleName(target)));
    assert reply == Success(200);
  }

  /** A caller that is not Admin never changes a role, whatever the target. */
  method NonAdminCannotAssignRole(service: Accounts, caller: Role, id: UserId, role: string)
    requires service.Valid() && caller != Admin && role != ""
    modifies service
    ensures service.users == old(service.users)
  {
    var reply := service.UpdateProfile(caller, id, None, None, Some(role));
    assert reply == Failure(RoleChangeForbidden);
  }

  /** Logging out twice answers 200 both times with the same cleared cookie. */
  method LogoutTwice(service: Accounts) returns (first: Reply, second: Reply)
    ensures first == second == Success(200)
  {
    var c1, c2;
    first, c1 := service.Logout();
    second, c2 := service.Logout();
  }
}
