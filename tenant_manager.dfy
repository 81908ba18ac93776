// Tenant access control, quota checks, feature flags and the tenant-scoped
// data helpers. The database itself is not modelled: a query or a document
// is the dictionary handed to it, and the helpers are judged by what they
// put into that dictionary.
module TenantManager {
  import opened Wrappers
  import opened Values
  import opened TenantRegistry

  datatype Access = Deny | ExpireAndDeny | Allow

  predicate Usable(s: TenantStatus)
  {
    s == Active || s == Trial
  }

  predicate ExpiredAt(t: TenantMetadata, now: int)
  {
    t.expiresAt.Some? && t.expiresAt.value < now
  }

  /**
   * What `check_tenant_access` decides: unknown tenants and tenants outside
   * ACTIVE/TRIAL are denied; a usable tenant past its expiry is denied and
   * moved to EXPIRED; everyone else is allowed.
   */
  function AccessDecision(t: Option<TenantMetadata>, now: int): (a: Access)
    ensures a == Allow <==> t.Some? && Usable(t.value.status) && !ExpiredAt(t.value, now)
    ensures a == ExpireAndDeny <==> t.Some? && Usable(t.value.status) && ExpiredAt(t.value, now)
  {
    if t.None? then Deny
    else if !Usable(t.value.status) then Deny
    else if ExpiredAt(t.value, now) then ExpireAndDeny
    else Allow
  }

  /**
   * Expiry is applied once: a tenant the check has just expired is denied by
   * every later check, at any time, without a second status change.
   */
  lemma ExpiryIsFinal(t: TenantMetadata, now: int, later: int)
    requires AccessDecision(Some(t), now) == ExpireAndDeny
    ensures AccessDecision(Some(t.(status := Expired, updatedAt := now)), later) == Deny
  {
  }

  /** Access never depends on anything but the status and the expiry instant. */
  lemma AccessIgnoresQuotas(t: TenantMetadata, now: int, users: int, storage: int, calls: int)
    ensures AccessDecision(Some(t.(maxUsers := users, maxStorageGb := storage, maxApiCallsPerDay := calls)), now)
         == AccessDecision(Some(t), now)
  {
  }

  /** `check_tenant_access`, with its lazy expire-on-read side effect. */
  method CheckTenantAccess(reg: TenantRegistry.Registry, id: string, now: int) returns (ok: bool)
    requires reg.Valid()
    modifies reg
    ensures reg.Valid()
    ensures ok <==> AccessDecision(old(reg.Get(id)), now) == Allow
    ensures AccessDecision(old(reg.Get(id)), now) == ExpireAndDeny ==>
      reg.tenants == old(reg.tenants)[id := old(reg.tenants)[id].(status := Expired, updatedAt := now)]
    ensures AccessDecision(old(reg.Get(id)), now) != ExpireAndDeny ==> unchanged(reg)
  {
    var decision := AccessDecision(reg.Get(id), now);
    if decision == ExpireAndDeny {
      var _ := reg.UpdateStatus(id, Expired, now);
      return false;
    }
    return decision == Allow;
  }

  /** `check_user_limit`: strictly below the tenant's user cap; unknown tenants are refused. */
  function CheckUserLimit(reg: TenantRegistry.Registry, id: string, users: int): (ok: bool)
    reads reg
    ensures ok ==> id in reg.tenants
    ensures id in reg.tenants ==> (ok <==> users < reg.tenants[id].maxUsers)
  {
    match reg.Get(id)
    case None => false
    case Some(t) => users < t.maxUsers
  }

  /** `check_storage_limit`: strictly below the storage cap in gigabytes. */
  function CheckStorageLimit(reg: TenantRegistry.Registry, id: string, storageGb: real): (ok: bool)
    reads reg
    ensures ok ==> id in reg.tenants
    ensures id in reg.tenants ==> (ok <==> storageGb < reg.tenants[id].maxStorageGb as real)
  {
    match reg.Get(id)
    case None => false
    case Some(t) => storageGb < t.maxStorageGb as real
  }

  /** `check_api_quota`: strictly below the daily call cap. */
  function CheckApiQuota(reg: TenantRegistry.Registry, id: string, calls: int): (ok: bool)
    reads reg
    ensures ok ==> id in reg.tenants
    ensures id in reg.tenants ==> (ok <==> calls < reg.tenants[id].maxApiCallsPerDay)
  {
    match reg.Get(id)
    case None => false
    case Some(t) => calls < t.maxApiCallsPerDay
  }

  /** A tenant exactly at its cap is refused by each quota check. */
  lemma AtLimitDenied(reg: TenantRegistry.Registry, id: string)
    requires id in reg.tenants
    ensures !CheckUserLimit(reg, id, reg.tenants[id].maxUsers)
    ensures !CheckStorageLimit(reg, id, reg.tenants[id].maxStorageGb as real)
    ensures !CheckApiQuota(reg, id, reg.tenants[id].maxApiCallsPerDay)
  {
  }

  /** `has_feature`: membership in the tenant's feature list. */
  function HasFeature(reg: TenantRegistry.Registry, id: string, feature: string): (ok: bool)
    reads reg
    ensures ok <==> id in reg.tenants && feature in reg.tenants[id].features
  {
    match reg.Get(id)
    case None => false
    case Some(t) => feature in t.features
  }

  /** `get_tenant_collection_name`: the base collection prefixed with the tenant. */
  function CollectionName(id: string, base: string): (r: string)
    ensures |r| == 8 + |id| + |base|
    ensures r[..7] == "tenant_" && r[7..7 + |id|] == id && r[7 + |id|] == '_' && r[8 + |id|..] == base
  {
    "tenant_" + id + "_" + base
  }

  /**
   * The prefix alone does not separate tenants: ids containing '_' can give two
   * tenants the same collection, so isolation rests on the stamped tenant_id.
   */
  lemma CollectionNamesCanCollide()
    ensures CollectionName("a_b", "c") == CollectionName("a", "b_c")
  {
  }

  /** `query["tenant_id"] = tenant_id`: the caller's value, if any, is overwritten. */
  function StampQuery(query: Dict, id: string): (r: Dict)
    ensures Get(r, "tenant_id") == Some(VStr(id))
    ensures forall k :: k != "tenant_id" ==> Get(r, k) == Get(query, k)
    ensures WellFormed(query) ==> WellFormed(r)
  {
    var r := Put(query, "tenant_id", VStr(id));
    PutKeepsWellFormed(query, "tenant_id", VStr(id));
    r
  }

  lemma PutKeepsWellFormed(d: Dict, k: string, v: Value)
    ensures WellFormed(d) ==> WellFormed(Put(d, k, v))
  {
    if WellFormed(d) && !Has(d, k) {
      GetFindsKeys(d, k);
      assert Keys(Put(d, k, v)) == Keys(d) + [k];
    }
  }

  /** Two tenants' stamped queries never agree on tenant_id, whatever the callers passed. */
  lemma StampedQueriesSeparate(q1: Dict, q2: Dict, id1: string, id2: string)
    requires id1 != id2
    ensures Get(StampQuery(q1, id1), "tenant_id") != Get(StampQuery(q2, id2), "tenant_id")
  {
  }

  /** `create_tenant_data`: the document is stamped with the tenant and both timestamps. */
  function StampNewDocument(data: Dict, id: string, now: int): (r: Dict)
    ensures Get(r, "tenant_id") == Some(VStr(id))
    ensures Get(r, "created_at") == Some(VInt(now)) && Get(r, "updated_at") == Some(VInt(now))
    ensures forall k :: k !in {"tenant_id", "created_at", "updated_at"} ==> Get(r, k) == Get(data, k)
  {
    Put(Put(Put(data, "tenant_id", VStr(id)), "created_at", VInt(now)), "updated_at", VInt(now))
  }

  /**
   * `update_tenant_data`: the query is stamped and the update's `$set` gains
   * `updated_at` (an empty `$set` is created first). A `$set` that is not a
   * dictionary makes the item assignment fail.
   */
  function StampUpdate(query: Dict, update: Dict, id: string, now: int): (r: Result<(Dict, Dict)>)
    ensures r.Ok? <==> !Has(update, "$set") || GetV(update, "$set").VObj?
    ensures r.Ok? ==> Get(r.value.0, "tenant_id") == Some(VStr(id))
    ensures r.Ok? ==> (Get(r.value.1, "$set").Some? && Get(r.value.1, "$set").value.VObj? &&
                       Get(Get(r.value.1, "$set").value.entries, "updated_at") == Some(VInt(now)))
    ensures r.Ok? ==> forall k :: k != "$set" ==> Get(r.value.1, k) == Get(update, k)
    ensures r.Ok? ==> forall k :: k != "updated_at" ==>
              Get(GetV(r.value.1, "$set").entries, k) == (if Has(update, "$set") then Get(GetV(update, "$set").entries, k) else None)
  {
    var set0 := if Has(update, "$set") then GetV(update, "$set") else VObj([]);
    if !set0.VObj? then Err("'$set' does not support item assignment")
    else Ok((StampQuery(query, id), Put(update, "$set", VObj(Put(set0.entries, "updated_at", VInt(now))))))
  }

  /** `delete_tenant_data` and `get_tenant_data` stamp the query the same way. */
  lemma DeleteAndReadStampAlike(query: Dict, id: string)
    ensures StampQuery(query, id) == Put(query, "tenant_id", VStr(id))
  {
  }
}
