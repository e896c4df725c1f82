/**
 * The access-control gate (middleware/authentification.js): an authentication step that
 * resolves the session cookie to a user record and attaches it to the request, and three role
 * gates over the attached record in which Admin passes every gate.
 */
module Authentification {
  import opened Wrappers
  import opened Users
  import opened Externals

  /** Why a request was stopped; each kind is one of the middleware's messages. */
  datatype Denial =
    | TokenMissing       // "Authorization token is missing"
    | TokenInvalid       // "Invalid or expired token"
    | UserGone           // "User authentication not found"
    | NotAuthenticated   // isAdmin: "User is not authenticated"
    | NoPermission       // "You do not have permission to access this resource"

  /**
   * What a middleware does with a request: call `next` once, answer with a status and never
   * call `next`, or throw (reading the role of a missing user) so that neither happens.
   */
  datatype Verdict = Next | Reject(status: int, why: Denial) | Fault

  /** The parts of an HTTP request the gate reads and writes. */
  class Request {
    /** The `token` cookie, None when the request carries no cookies or no such cookie. */
    const tokenCookie: Option<string>
    /** `req.user`, attached by a successful authentication. */
    var user: Option<User>

    constructor (tokenCookie: Option<string>)
      ensures this.tokenCookie == tokenCookie && user.None?
    {
      this.tokenCookie := tokenCookie;
      user := None;
    }
  }

  /**
   * isAuthenticateUser: no cookie answers 401; a token jsonwebtoken rejects answers 401; a
   * token whose user id has no record answers 404; otherwise the request carries exactly the
   * record found and `next` is called. A stopped request keeps its `user`.
   */
  method IsAuthenticateUser(req: Request, users: Store, deps: Deps) returns (v: Verdict)
    modifies req
    ensures v ==
      if !Truthy(req.tokenCookie) then Reject(401, TokenMissing)
      else match deps.verifyToken(req.tokenCookie.value)
        case None => Reject(401, TokenInvalid)
        case Some(id) => if id in users then Next else Reject(404, UserGone)
    ensures v == Next ==> req.user == Some(users[deps.verifyToken(req.tokenCookie.value).value])
    ensures v != Next ==> req.user == old(req.user)
    ensures v != Fault
  {
    if !Truthy(req.tokenCookie) {
      return Reject(401, TokenMissing);
    }
    var decoded := deps.verifyToken(req.tokenCookie.value);
    if decoded.None? {
      return Reject(401, TokenInvalid);
    }
    var userId := decoded.value;
    if userId !in users {
      return Reject(404, UserGone);
    }
    req.user := Some(users[userId]);
    return Next;
  }

  /** The roles each gate lets through: its own role and Admin. */
  const ADMIN_ROLES: set<Role> := {Admin}
  const SHIPPER_ROLES: set<Role> := {Shipper, Admin}
  const CARRIER_ROLES: set<Role> := {Carrier, Admin}

  /** isAdmin: a missing user is refused with 403 before its role is read. */
  function IsAdmin(user: Option<User>): Verdict
  {
    if user.None? then Reject(403, NotAuthenticated)
    else if user.value.role != Admin then Reject(403, NoPermission)
    else Next
  }

  /** isShipper: reads the role without checking that a user is attached. */
  function IsShipper(user: Option<User>): Verdict
  {
    if user.None? then Fault
    else if user.value.role != Shipper && user.value.role != Admin then Reject(403, NoPermission)
    else Next
  }

  /** isCarrier: reads the role without checking that a user is attached. */
  function IsCarrier(user: Option<User>): Verdict
  {
    if user.None? then Fault
    else if user.value.role != Carrier && user.value.role != Admin then Reject(403, NoPermission)
    else Next
  }

  /** For an attached user, each gate passes exactly the roles of its allow-set and refuses the rest with 403. */
  lemma GatesMatchAllowSets(u: User)
    ensures IsAdmin(Some(u)) == (if u.role in ADMIN_ROLES then Next else Reject(403, NoPermission))
    ensures IsShipper(Some(u)) == (if u.role in SHIPPER_ROLES then Next else Reject(403, NoPermission))
    ensures IsCarrier(Some(u)) == (if u.role in CARRIER_ROLES then Next else Reject(403, NoPermission))
  {
  }

  /** Admin passes every gate. */
  lemma AdminPassesEveryGate(u: User)
    requires u.role == Admin
    ensures IsAdmin(Some(u)) == Next && IsShipper(Some(u)) == Next && IsCarrier(Some(u)) == Next
  {
  }

  /** Passing isAdmin implies passing the other two gates: the gates are nested. */
  lemma AdminGateStrongest(user: Option<User>)
    ensures IsAdmin(user) == Next ==> IsShipper(user) == Next && IsCarrier(user) == Next
  {
  }

  /** Without an attached user no gate calls next: isAdmin answers 403, the other two throw. */
  lemma NoUserNoAccess(user: Option<User>)
    requires user.None?
    ensures IsAdmin(user) == Reject(403, NotAuthenticated)
    ensures IsShipper(user) == Fault && IsCarrier(user) == Fault
  {
  }

  /**
   * The gate chain of the admin routes (authentication, then isAdmin) lets a request through
   * only when its token names an existing Admin record.
   */
  method AdminRoute(req: Request, users: Store, deps: Deps) returns (v: Verdict)
    modifies req
    ensures v == Next <==>
      && Truthy(req.tokenCookie)
      && deps.verifyToken(req.tokenCookie.value).Some?
      && deps.verifyToken(req.tokenCookie.value).value in users
      && users[deps.verifyToken(req.tokenCookie.value).value].role == Admin
  {
    v := IsAuthenticateUser(req, users, deps);
    if v == Next {
      v := IsAdmin(req.user);
    }
  }
}
