// The tenant rules of the login endpoint and the Authorization-header checks
// of `get_current_user`. Password checking, the user store and JWT signing
// are outside the model: their answers are parameters.
module Auth {
  import opened Wrappers
  import Text
  import TenantRegistry
  import TenantManager
  import TenantMiddleware

  datatype LoginRequest = LoginRequest(username: string, password: string, tenantId: Option<string>)

  /** A stored user, as far as the tenant rule is concerned. */
  datatype User = User(username: string, tenantId: Option<string>, isActive: bool)

  datatype LoginOutcome =
    | Rejected(status: int, detail: string)
    | Issued(sub: string, tenantId: Option<string>)

  predicate Truthy(s: Option<string>)
  {
    s.Some? && s.value != ""
  }

  /** The requested tenant: the payload field, else the X-Tenant-ID header, else the middleware's value. */
  function EffectiveTenant(payload: Option<string>, header: Option<string>, fromMiddleware: Option<string>): (t: Option<string>)
    ensures Truthy(payload) ==> t == payload
    ensures !Truthy(payload) && Truthy(header) ==> t == header
    ensures !Truthy(payload) && !Truthy(header) ==> t == fromMiddleware
  {
    if Truthy(payload) then payload else if Truthy(header) then header else fromMiddleware
  }

  /**
   * The login decision once the requested tenant is known. `accessOk` is the
   * access check's answer for that tenant and `user` what authentication
   * returned; the steps run in the source's order.
   */
  function LoginDecision(req: LoginRequest, tenant: Option<string>, accessOk: bool, user: Option<User>): (o: LoginOutcome)
    ensures (req.username == "" || req.password == "") ==> o == Rejected(400, "username and password are required")
    ensures req.username != "" && req.password != "" && Truthy(tenant) && !accessOk ==> o.Rejected? && o.status == 403
    ensures o.Issued? ==> user.Some? && o.sub == user.value.username
    ensures o.Issued? ==> (Truthy(tenant) ==> o.tenantId == tenant) && (!Truthy(tenant) ==> o.tenantId == OrUserTenant(tenant, user.value))
  {
    if req.username == "" || req.password == "" then Rejected(400, "username and password are required")
    else if Truthy(tenant) && !accessOk then Rejected(403, "tenant " + tenant.value + " is unavailable or expired")
    else if user.None? then Rejected(401, "wrong username or password")
    else
      var u := user.value;
      if Truthy(tenant) && Truthy(u.tenantId) then
        if u.tenantId.value != tenant.value then Rejected(403, "user does not belong to the tenant")
        else Issued(u.username, tenant)
      else if Truthy(tenant) then Issued(u.username, tenant)
      else if Truthy(u.tenantId) then Issued(u.username, u.tenantId)
      else Issued(u.username, tenant)
  }

  /** With no requested tenant, the token carries the user's own tenant when the user has one. */
  function OrUserTenant(tenant: Option<string>, u: User): Option<string>
  {
    if Truthy(u.tenantId) then u.tenantId else tenant
  }

  /** A refused tenant is refused before authentication: the user never matters. */
  lemma AccessRefusalPrecedesAuthentication(req: LoginRequest, tenant: Option<string>, u1: Option<User>, u2: Option<User>)
    requires Truthy(tenant)
    ensures LoginDecision(req, tenant, false, u1) == LoginDecision(req, tenant, false, u2)
  {
  }

  /** A user bound to another tenant is refused with 403. */
  lemma TenantMismatchRefused(req: LoginRequest, tenant: string, u: User)
    requires req.username != "" && req.password != "" && tenant != ""
    requires Truthy(u.tenantId) && u.tenantId.value != tenant
    ensures LoginDecision(req, Some(tenant), true, Some(u)) == Rejected(403, "user does not belong to the tenant")
  {
  }

  /** A user with no stored tenant may log in to any requested tenant that passes the access check. */
  lemma UnboundUserMayChoose(req: LoginRequest, tenant: string, u: User)
    requires req.username != "" && req.password != "" && tenant != ""
    requires !Truthy(u.tenantId)
    ensures LoginDecision(req, Some(tenant), true, Some(u)) == Issued(u.username, Some(tenant))
  {
  }

  /** `login`: resolves the tenant, runs the access check (which may expire the tenant), then decides. */
  method Login(reg: TenantRegistry.Registry, req: LoginRequest, header: Option<string>, fromMiddleware: Option<string>,
               user: Option<User>, now: int) returns (o: LoginOutcome)
    requires reg.Valid()
    modifies reg
    ensures reg.Valid()
    ensures var tenant := EffectiveTenant(req.tenantId, header, fromMiddleware);
      var checked := req.username != "" && req.password != "" && Truthy(tenant);
      && (checked ==>
            o == LoginDecision(req, tenant,
                   TenantManager.AccessDecision(old(reg.Get(tenant.value)), now) == TenantManager.Allow, user))
      && (!checked ==> o == LoginDecision(req, tenant, true, user) && unchanged(reg))
  {
    if req.username == "" || req.password == "" {
      return LoginDecision(req, None, true, user);
    }
    var tenant := EffectiveTenant(req.tenantId, header, fromMiddleware);
    var accessOk := true;
    if Truthy(tenant) {
      accessOk := TenantManager.CheckTenantAccess(reg, tenant.value, now);
    }
    o := LoginDecision(req, tenant, accessOk, user);
  }

  /** The claims a verified token carries. */
  datatype Claims = Claims(sub: Option<string>, exp: Option<int>, tenantId: Option<string>)

  /** `verify_token`'s expiry rule: a missing `exp` reads as 0, and `exp < now` is rejected. */
  function CheckExpiry(decoded: Option<Claims>, now: int): (r: Option<Claims>)
    ensures r.Some? ==> decoded == r && OptionOr(r.value.exp, 0) >= now
    ensures decoded.Some? && OptionOr(decoded.value.exp, 0) >= now ==> r == decoded
  {
    if decoded.None? then None
    else if OptionOr(decoded.value.exp, 0) < now then None
    else decoded
  }

  /** The token in a `Bearer <token>` header: everything after the first space. */
  function BearerToken(authorization: Option<string>): (r: Result<string>)
    ensures !Truthy(authorization) ==> r == Err("401: No authorization header")
    ensures r.Ok? ==> (Text.StartsWith(Text.Lower(authorization.value), "bearer ") &&
                       authorization.value == authorization.value[..7] + r.value)
    ensures Truthy(authorization) && Text.StartsWith(Text.Lower(authorization.value), "bearer ") ==> r.Ok?
  {
    if !Truthy(authorization) then Err("401: No authorization header")
    else if !Text.StartsWith(Text.Lower(authorization.value), "bearer ") then Err("401: Invalid authorization format")
    else Ok(authorization.value[7..])
  }

  /** The scheme is matched case-insensitively: any spelling of "bearer" yields the token. */
  lemma BearerSchemeCaseInsensitive(scheme: string, token: string)
    requires Text.Lower(scheme) == "bearer"
    ensures BearerToken(Some(scheme + " " + token)) == Ok(token)
  {
    var h := scheme + " " + token;
    assert |scheme| == 6;
    assert Text.Lower(h)[..7] == "bearer " by {
      forall i | 0 <= i < 7
        ensures Text.Lower(h)[i] == "bearer "[i]
      {
        if i < 6 {
          assert h[i] == scheme[i];
          assert Text.Lower(scheme)[i] == Text.LowerChar(scheme[i]);
        }
      }
    }
    assert h[7..] == token;
  }

  /**
   * `get_current_user`: the header must hold a bearer token that verifies and
   * is unexpired, names a user, and that user must exist and be active. Each
   * failure is a 401.
   */
  function CurrentUser(authorization: Option<string>, decode: string -> Option<Claims>, now: int,
                       lookup: string -> Option<User>): (r: Result<User>)
    ensures r.Ok? ==> r.value.isActive
    ensures r.Ok? ==> BearerToken(authorization).Ok?
    ensures r.Ok? ==> (var c := CheckExpiry(decode(BearerToken(authorization).value), now);
                       c.Some? && Truthy(c.value.sub) && lookup(c.value.sub.value) == Some(r.value))
  {
    match BearerToken(authorization)
    case Err(e) => Err(e)
    case Ok(token) =>
      match CheckExpiry(decode(token), now)
      case None => Err("401: Invalid token")
      case Some(c) =>
        if !Truthy(c.sub) then Err("401: Invalid token")
        else match lookup(c.sub.value)
          case None => Err("401: User not found")
          case Some(u) => if !u.isActive then Err("401: User is inactive") else Ok(u)
  }
}
