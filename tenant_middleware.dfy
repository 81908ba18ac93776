// The request middleware that resolves which tenant a request belongs to
// and refuses requests for tenants that may not be accessed.
module TenantMiddleware {
  import opened Wrappers
  import Text
  import opened TenantRegistry
  import TenantManager

  /** The parts of an HTTP request the middleware reads; absent headers are None. */
  datatype Request = Request(xTenantId: Option<string>, host: Option<string>, queryTenantId: Option<string>)

  /** What the middleware leaves in `request.state`, or the 403 it raises. */
  datatype Dispatch =
    | Forbidden(tenantId: string)
    | Proceed(stateTenantId: Option<string>, context: Option<TenantMetadata>)

  predicate Truthy(s: Option<string>)
  {
    s.Some? && s.value != ""
  }

  /** A host is looked up only when it has at least three dot-separated parts. */
  predicate LooksLikeTenantHost(host: string)
  {
    host != "" && Text.SplitCount(host, '.') >= 3
  }

  /**
   * `_extract_tenant_id`: the X-Tenant-ID header, else the tenant whose domain
   * is the whole host, else the `tenant_id` query parameter, else None.
   */
  function ExtractTenantId(reg: TenantRegistry.Registry, req: Request): (r: Option<string>)
    reads reg
    requires reg.Valid()
    ensures Truthy(req.xTenantId) ==> r == req.xTenantId
    ensures !Truthy(req.xTenantId) && !(req.host.Some? && LooksLikeTenantHost(req.host.value)) ==>
              r == (if Truthy(req.queryTenantId) then req.queryTenantId else None)
    ensures !Truthy(req.xTenantId) && req.host.Some? && LooksLikeTenantHost(req.host.value) ==>
              forall id :: id in reg.tenants && id != "" && reg.tenants[id].domain == req.host ==> r == Some(id)
    ensures !Truthy(req.xTenantId) && req.host.Some? && LooksLikeTenantHost(req.host.value) &&
            (forall id :: id in reg.tenants && id != "" ==> reg.tenants[id].domain != req.host) ==>
              r == (if Truthy(req.queryTenantId) then req.queryTenantId else None)
    ensures r.Some? ==>
              r == req.xTenantId || r == req.queryTenantId ||
              (req.host.Some? && r.value in reg.tenants && reg.tenants[r.value].domain == req.host)
  {
    if Truthy(req.xTenantId) then req.xTenantId
    else
      var host := OptionOr(req.host, "");
      var byHost := if LooksLikeTenantHost(host) then reg.GetByDomain(host) else None;
      if byHost.Some? then Some(byHost.value.tenantId)
      else if Truthy(req.queryTenantId) then req.queryTenantId
      else None
  }

  /** The header beats every other source, whatever the host and the query say. */
  lemma HeaderWins(reg: TenantRegistry.Registry, id: string, host: Option<string>, query: Option<string>)
    requires reg.Valid() && id != ""
    ensures ExtractTenantId(reg, Request(Some(id), host, query)) == Some(id)
  {
  }

  /** A host with fewer than three dot-separated parts (such as "example.com") is never looked up. */
  lemma ShortHostIgnored(reg: TenantRegistry.Registry, host: string, query: Option<string>)
    requires reg.Valid() && Text.SplitCount(host, '.') < 3
    ensures ExtractTenantId(reg, Request(None, Some(host), query))
         == (if Truthy(query) then query else None)
  {
  }

  /** `dispatch`: a resolved tenant must pass the access check, or the request is refused with 403. */
  method DispatchRequest(reg: TenantRegistry.Registry, req: Request, now: int) returns (d: Dispatch)
    requires reg.Valid()
    modifies reg
    ensures reg.Valid()
    ensures var id := old(ExtractTenantId(reg, req));
      && (!Truthy(id) ==> d == Proceed(None, None) && unchanged(reg))
      && (Truthy(id) ==>
            if TenantManager.AccessDecision(old(reg.Get(id.value)), now) == TenantManager.Allow
            then d == Proceed(id, reg.Get(id.value))
            else d == Forbidden(id.value))
  {
    var id := ExtractTenantId(reg, req);
    if Truthy(id) {
      var ok := TenantManager.CheckTenantAccess(reg, id.value, now);
      if !ok {
        return Forbidden(id.value);
      }
      return Proceed(id, reg.Get(id.value));
    }
    return Proceed(None, None);
  }

  /** `require_tenant`: a request without a tenant id is refused with 400. */
  function RequireTenant(stateTenantId: Option<string>): (r: Result<string>)
    ensures r.Ok? <==> Truthy(stateTenantId)
    ensures r.Ok? ==> r.value == stateTenantId.value
  {
    if Truthy(stateTenantId) then Ok(stateTenantId.value) else Err("400: Tenant ID is required")
  }

  /** A request the middleware let through without a tenant fails `require_tenant`. */
  lemma NoTenantThenRequireFails(t: Option<TenantMetadata>)
    ensures RequireTenant(Proceed(None, t).stateTenantId).Err?
  {
  }
}
