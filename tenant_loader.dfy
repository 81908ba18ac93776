// Reading tenants from YAML-shaped dictionaries, and the dictionary a tenant
// is exported as.
module TenantLoader {
  import opened Wrappers
  import opened Values
  import opened TenantRegistry
  import Declarative

  function ParseTier(v: Value): (r: Result<TenantTier>)
    ensures r.Ok? ==> v == VStr(TierName(r.value))
    ensures v.VStr? && r.Err? ==> r.error == "'" + v.s + "' is not a valid TenantTier"
  {
    match v
    case VStr("free") => Ok(Free)
    case VStr("basic") => Ok(Basic)
    case VStr("professional") => Ok(Professional)
    case VStr("enterprise") => Ok(Enterprise)
    case VStr(x) => Err("'" + x + "' is not a valid TenantTier")
    case _ => Err("not a valid TenantTier")
  }

  function TierName(t: TenantTier): string
  {
    match t
    case Free => "free"
    case Basic => "basic"
    case Professional => "professional"
    case Enterprise => "enterprise"
  }

  function ParseStatus(v: Value): (r: Result<TenantStatus>)
    ensures r.Ok? ==> v == VStr(StatusName(r.value))
    ensures v.VStr? && r.Err? ==> r.error == "'" + v.s + "' is not a valid TenantStatus"
  {
    match v
    case VStr("active") => Ok(Active)
    case VStr("inactive") => Ok(Inactive)
    case VStr("suspended") => Ok(Suspended)
    case VStr("trial") => Ok(Trial)
    case VStr("expired") => Ok(Expired)
    case VStr(x) => Err("'" + x + "' is not a valid TenantStatus")
    case _ => Err("not a valid TenantStatus")
  }

  function StatusName(s: TenantStatus): string
  {
    match s
    case Active => "active"
    case Inactive => "inactive"
    case Suspended => "suspended"
    case Trial => "trial"
    case Expired => "expired"
  }

  lemma {:induction false} EnumNamesRoundTrip(t: TenantTier, s: TenantStatus)
    ensures ParseTier(VStr(TierName(t))) == Ok(t)
    ensures ParseStatus(VStr(StatusName(s))) == Ok(s)
  {
    match t
    case Free =>
    case Basic =>
    case Professional =>
    case Enterprise =>
  }

  /** `expires_at` as the source reads it: a present key must hold a timestamp, even a null one. */
  function ExpiryAsWritten(d: Dict): Result<Option<int>>
  {
    if Has(d, "expires_at") then
      var e :- Instant(GetV(d, "expires_at"), "expires_at"); Ok(Some(e))
    else Ok(None)
  }

  /** `expires_at` with an exported null read back as "no expiry". */
  function Expiry(d: Dict): Result<Option<int>>
  {
    if Has(d, "expires_at") && GetV(d, "expires_at") != VNull then
      var e :- Instant(GetV(d, "expires_at"), "expires_at"); Ok(Some(e))
    else Ok(None)
  }

  /** The identity fields: id, names, description, domain and owner. */
  function ParseIdentity(d: Dict, now: int): (r: Result<TenantMetadata>)
    ensures !Truthy(GetV(d, "tenant_id")) && !Truthy(GetV(d, "id")) ==> r == Err("Tenant 'tenant_id' is required")
    ensures r.Ok? ==> r.value.tenantId != ""
    ensures r.Ok? ==> VStr(r.value.tenantId) == (if Truthy(GetV(d, "tenant_id")) then GetV(d, "tenant_id") else GetV(d, "id"))
    ensures r.Ok? ==> VStr(r.value.name) == (if Truthy(GetV(d, "name")) then GetV(d, "name") else VStr(r.value.tenantId))
    ensures r.Ok? ==> VStr(r.value.description) == GetOr(d, "description", VStr(""))
    ensures r.Ok? ==> r.value.tier == Free && r.value.status == Trial && r.value.expiresAt == None
  {
    var idv := Or(GetV(d, "tenant_id"), GetV(d, "id"));
    if !Truthy(idv) then Err("Tenant 'tenant_id' is required")
    else
      var id :- AsStr(idv, "tenant_id");
      var name :- StrOr(GetV(d, "name"), id, "name");
      var displayName :- StrOr(Or(GetV(d, "display_name"), GetV(d, "displayName")), name, "display_name");
      var description :- StrField(d, "description", "");
      var domain :- OptStr(GetV(d, "domain"), "domain");
      var ownerId :- OptStr(Or(GetV(d, "owner_id"), GetV(d, "ownerId")), "owner_id");
      Ok(NewTenant(id, name, displayName, description, now).(domain := domain, ownerId := ownerId))
  }

  /** Tier, status, quotas and features, each defaulted when its keys are absent. */
  function ParseLimits(d: Dict, t: TenantMetadata): (r: Result<TenantMetadata>)
    ensures r.Ok? ==> r.value == t.(tier := r.value.tier, status := r.value.status, maxUsers := r.value.maxUsers,
      maxStorageGb := r.value.maxStorageGb, maxApiCallsPerDay := r.value.maxApiCallsPerDay, features := r.value.features)
    ensures r.Ok? ==> VInt(r.value.maxUsers) == Fallback(d, "max_users", "maxUsers", VInt(10))
    ensures r.Ok? ==> VInt(r.value.maxStorageGb) == Fallback(d, "max_storage_gb", "maxStorageGb", VInt(1))
    ensures r.Ok? ==> VInt(r.value.maxApiCallsPerDay) == Fallback(d, "max_api_calls_per_day", "maxApiCallsPerDay", VInt(1000))
    ensures r.Ok? && !Has(d, "tier") ==> r.value.tier == Free
    ensures r.Ok? && !Has(d, "status") ==> r.value.status == Trial
  {
    var tier :- ParseTier(GetOr(d, "tier", VStr("free")));
    var status :- ParseStatus(GetOr(d, "status", VStr("trial")));
    var maxUsers :- AsInt(Fallback(d, "max_users", "maxUsers", VInt(10)), "max_users");
    var maxStorage :- AsInt(Fallback(d, "max_storage_gb", "maxStorageGb", VInt(1)), "max_storage_gb");
    var maxCalls :- AsInt(Fallback(d, "max_api_calls_per_day", "maxApiCallsPerDay", VInt(1000)), "max_api_calls_per_day");
    var features :- StrListField(d, "features");
    Ok(t.(tier := tier, status := status, maxUsers := maxUsers, maxStorageGb := maxStorage,
          maxApiCallsPerDay := maxCalls, features := features))
  }

  /** Creation and update times: the load time when absent. */
  function ParseTimes(d: Dict, t: TenantMetadata, now: int): (r: Result<TenantMetadata>)
    ensures r.Ok? ==> r.value == t.(createdAt := r.value.createdAt, updatedAt := r.value.updatedAt)
    ensures r.Ok? && !Has(d, "created_at") ==> r.value.createdAt == now
    ensures r.Ok? && !Has(d, "updated_at") ==> r.value.updatedAt == now
  {
    var createdAt :- if Has(d, "created_at") then Instant(GetV(d, "created_at"), "created_at") else Ok(now);
    var updatedAt :- if Has(d, "updated_at") then Instant(GetV(d, "updated_at"), "updated_at") else Ok(now);
    Ok(t.(createdAt := createdAt, updatedAt := updatedAt))
  }

  /** Every field except `expires_at`, which the two parsers below read differently. */
  function ParseFields(v: Value, now: int): (r: Result<TenantMetadata>)
    ensures r.Ok? ==> v.VObj? && r.value.tenantId != "" && r.value.expiresAt == None
  {
    var d :- AsDict(v, "tenant item");
    var t :- ParseIdentity(d, now);
    var t :- ParseLimits(d, t);
    ParseTimes(d, t, now)
  }

  /** `_parse_item` as written. */
  function ParseTenantAsWritten(v: Value, now: int): (r: Result<TenantMetadata>)
    ensures r.Ok? ==> ParseFields(v, now).Ok? && r.value.tenantId == ParseFields(v, now).value.tenantId
  {
    var t :- ParseFields(v, now);
    var e :- ExpiryAsWritten(v.entries);
    Ok(t.(expiresAt := e))
  }

  /** `_parse_item` with a null `expires_at` meaning "no expiry". */
  function ParseTenant(v: Value, now: int): (r: Result<TenantMetadata>)
    ensures r.Ok? ==> ParseFields(v, now).Ok? && r.value == ParseFields(v, now).value.(expiresAt := r.value.expiresAt)
  {
    var t :- ParseFields(v, now);
    var e :- Expiry(v.entries);
    Ok(t.(expiresAt := e))
  }

  /** A document that sets no field but `id` (an id under `tenant_id` would do as well). */
  predicate SetsOnlyId(d: Dict)
  {
    && !Has(d, "tenant_id") && !Has(d, "name") && !Has(d, "display_name") && !Has(d, "displayName")
    && !Has(d, "description") && !Has(d, "domain") && !Has(d, "owner_id") && !Has(d, "ownerId")
    && !Has(d, "tier") && !Has(d, "status") && !Has(d, "features")
    && !Has(d, "max_users") && !Has(d, "maxUsers") && !Has(d, "max_storage_gb") && !Has(d, "maxStorageGb")
    && !Has(d, "max_api_calls_per_day") && !Has(d, "maxApiCallsPerDay")
    && !Has(d, "created_at") && !Has(d, "updated_at") && !Has(d, "expires_at")
  }

  /** Optional fields absent: the metadata defaults apply, and both times are the load time. */
  lemma TenantDefaults(d: Dict, id: string, now: int)
    requires SetsOnlyId(d) && id != "" && GetV(d, "id") == VStr(id)
    ensures ParseTenant(VObj(d), now) == Ok(NewTenant(id, id, id, "", now))
  {
    var t := NewTenant(id, id, id, "", now);
    IdentityDefaults(d, id, now);
    LimitDefaults(d, t);
  }

  lemma IdentityDefaults(d: Dict, id: string, now: int)
    requires SetsOnlyId(d) && id != "" && GetV(d, "id") == VStr(id)
    ensures ParseIdentity(d, now) == Ok(NewTenant(id, id, id, "", now))
  {
  }

  lemma LimitDefaults(d: Dict, t: TenantMetadata)
    requires SetsOnlyId(d)
    ensures ParseLimits(d, t) == Ok(t.(tier := Free, status := Trial, maxUsers := 10, maxStorageGb := 1,
                                       maxApiCallsPerDay := 1000, features := []))
  {
  }

  /** `_has_id_field`. */
  predicate HasIdField(d: Dict)
  {
    Has(d, "tenant_id") || Has(d, "id")
  }

  /** `_set_id_field`: writes `tenant_id` only when it is absent. */
  function SetIdField(d: Dict, key: string): (r: Dict)
    ensures Has(d, "tenant_id") ==> r == d
    ensures !Has(d, "tenant_id") ==> Get(r, "tenant_id") == Some(VStr(key))
    ensures forall k :: k != "tenant_id" ==> Get(r, k) == Get(d, k)
  {
    if Has(d, "tenant_id") then d else Put(d, "tenant_id", VStr(key))
  }

  function Hooks(now: int): Declarative.Hooks<TenantMetadata>
  {
    Declarative.Hooks("tenants", (v: Value) => ParseTenant(v, now), HasIdField, SetIdField)
  }

  /** In the object form an item without any id field takes its key as its tenant id. */
  lemma ObjectFormTakesKey(now: int, key: string, item: Dict)
    requires !HasIdField(item) && key != ""
    requires ParseTenant(VObj(Declarative.Prepare(Hooks(now), key, item)), now).Ok?
    ensures ParseTenant(VObj(Declarative.Prepare(Hooks(now), key, item)), now).value.tenantId == key
  {
    var d := Declarative.Prepare(Hooks(now), key, item);
    assert d == SetIdField(item, key);
    assert GetV(d, "tenant_id") == VStr(key);
  }

  /** `TenantMetadata.to_dict` over the fields the model keeps, in the source's key order. */
  function ToDict(t: TenantMetadata): Value
  {
    VObj(IdentityEntries(t) + LimitEntries(t) + TimelineEntries(t))
  }

  function IdentityEntries(t: TenantMetadata): Dict
  {
    [("tenant_id", VStr(t.tenantId)),
     ("name", VStr(t.name)),
     ("display_name", VStr(t.displayName)),
     ("description", VStr(t.description)),
     ("domain", if t.domain.Some? then VStr(t.domain.value) else VNull)]
  }

  function LimitEntries(t: TenantMetadata): Dict
  {
    [("tier", VStr(TierName(t.tier))),
     ("status", VStr(StatusName(t.status))),
     ("max_users", VInt(t.maxUsers)),
     ("max_storage_gb", VInt(t.maxStorageGb)),
     ("max_api_calls_per_day", VInt(t.maxApiCallsPerDay))]
  }

  function TimelineEntries(t: TenantMetadata): Dict
  {
    [("features", Strs(t.features)),
     ("created_at", VInt(t.createdAt)),
     ("updated_at", VInt(t.updatedAt)),
     ("expires_at", if t.expiresAt.Some? then VInt(t.expiresAt.value) else VNull),
     ("owner_id", if t.ownerId.Some? then VStr(t.ownerId.value) else VNull)]
  }

  /** Records the round trip can reproduce: `or`-defaults cannot give back an empty name. */
  predicate Exportable(t: TenantMetadata)
  {
    t.tenantId != "" && t.name != "" && t.displayName != "" && t.ownerId != Some("")
  }

  /** The default tenant has no expiry, and the exported document of such a tenant does not load back. */
  lemma ExportedTenantWithoutExpiryFailsToLoad(t: TenantMetadata, now: int)
    requires Exportable(t) && t.expiresAt == None
    ensures ParseTenantAsWritten(ToDict(t), now).Err?
  {
    ParseFieldsOfExport(t, now);
    ExportGet(t, "expires_at");
  }

  /** With null read as "no expiry", every exportable tenant loads back as itself. */
  lemma ExportThenLoad(t: TenantMetadata, now: int)
    requires Exportable(t)
    ensures ParseTenant(ToDict(t), now) == Ok(t)
  {
    ParseFieldsOfExport(t, now);
    ExportGet(t, "expires_at");
  }

  /** The value under each key of an exported tenant. */
  function ExportedField(t: TenantMetadata, k: string): Option<Value>
  {
    if k == "tenant_id" then Some(VStr(t.tenantId))
    else if k == "name" then Some(VStr(t.name))
    else if k == "display_name" then Some(VStr(t.displayName))
    else if k == "description" then Some(VStr(t.description))
    else if k == "domain" then Some(if t.domain.Some? then VStr(t.domain.value) else VNull)
    else if k == "tier" then Some(VStr(TierName(t.tier)))
    else if k == "status" then Some(VStr(StatusName(t.status)))
    else if k == "max_users" then Some(VInt(t.maxUsers))
    else if k == "max_storage_gb" then Some(VInt(t.maxStorageGb))
    else if k == "max_api_calls_per_day" then Some(VInt(t.maxApiCallsPerDay))
    else if k == "features" then Some(Strs(t.features))
    else if k == "created_at" then Some(VInt(t.createdAt))
    else if k == "updated_at" then Some(VInt(t.updatedAt))
    else if k == "expires_at" then Some(if t.expiresAt.Some? then VInt(t.expiresAt.value) else VNull)
    else if k == "owner_id" then Some(if t.ownerId.Some? then VStr(t.ownerId.value) else VNull)
    else None
  }

  lemma IdentityGet(t: TenantMetadata, k: string)
    ensures Get(IdentityEntries(t), k) ==
      if k in ["tenant_id", "name", "display_name", "description", "domain"] then ExportedField(t, k) else None
  {
    var a := IdentityEntries(t);
    if k == "tenant_id" { GetAt(a, 0); }
    else if k == "name" { GetAt(a, 1); }
    else if k == "display_name" { GetAt(a, 2); }
    else if k == "description" { GetAt(a, 3); }
    else if k == "domain" { GetAt(a, 4); }
    else { GetAbsent(a, k); }
  }

  lemma LimitGet(t: TenantMetadata, k: string)
    ensures Get(LimitEntries(t), k) ==
      if k in ["tier", "status", "max_users", "max_storage_gb", "max_api_calls_per_day"] then ExportedField(t, k) else None
  {
    var b := LimitEntries(t);
    if k == "tier" { GetAt(b, 0); }
    else if k == "status" { GetAt(b, 1); }
    else if k == "max_users" { GetAt(b, 2); }
    else if k == "max_storage_gb" { GetAt(b, 3); }
    else if k == "max_api_calls_per_day" { GetAt(b, 4); }
    else { GetAbsent(b, k); }
  }

  lemma TimelineGet(t: TenantMetadata, k: string)
    ensures Get(TimelineEntries(t), k) ==
      if k in ["features", "created_at", "updated_at", "expires_at", "owner_id"] then ExportedField(t, k) else None
  {
    if k in ["features", "created_at", "updated_at", "expires_at", "owner_id"] {
      TimelineListedGet(t, k);
    } else {
      GetAbsent(TimelineEntries(t), k);
    }
  }

  lemma TimelineListedGet(t: TenantMetadata, k: string)
    requires k in ["features", "created_at", "updated_at", "expires_at", "owner_id"]
    ensures Get(TimelineEntries(t), k) == ExportedField(t, k)
  {
    var c := TimelineEntries(t);
    if k == "features" { GetAt(c, 0); }
    else if k == "created_at" { GetAt(c, 1); }
    else if k == "updated_at" { GetAt(c, 2); }
    else if k == "expires_at" { GetAt(c, 3); }
    else { GetAt(c, 4); }
  }

  lemma ExportGet(t: TenantMetadata, k: string)
    ensures Get(ToDict(t).entries, k) == ExportedField(t, k)
  {
    IdentityGet(t, k);
    LimitGet(t, k);
    TimelineGet(t, k);
    GetAppend(IdentityEntries(t), LimitEntries(t), k);
    GetAppend(IdentityEntries(t) + LimitEntries(t), TimelineEntries(t), k);
  }

  /** The identity stage reads back the exported id, names, description, domain and owner. */
  lemma ParseIdentityOfExport(t: TenantMetadata, now: int)
    requires Exportable(t)
    ensures ParseIdentity(ToDict(t).entries, now)
         == Ok(NewTenant(t.tenantId, t.name, t.displayName, t.description, now).(domain := t.domain, ownerId := t.ownerId))
  {
    ExportGet(t, "tenant_id"); ExportGet(t, "name"); ExportGet(t, "display_name");
    ExportGet(t, "description"); ExportGet(t, "domain"); ExportGet(t, "owner_id"); ExportGet(t, "ownerId");
  }

  /** The limits stage reads back the exported tier, status, quotas and features. */
  lemma ParseLimitsOfExport(t: TenantMetadata, b: TenantMetadata)
    ensures ParseLimits(ToDict(t).entries, b) == Ok(b.(tier := t.tier, status := t.status, maxUsers := t.maxUsers,
      maxStorageGb := t.maxStorageGb, maxApiCallsPerDay := t.maxApiCallsPerDay, features := t.features))
  {
    ExportGet(t, "tier"); ExportGet(t, "status"); ExportGet(t, "max_users"); ExportGet(t, "max_storage_gb");
    ExportGet(t, "max_api_calls_per_day"); ExportGet(t, "features");
    EnumNamesRoundTrip(t.tier, t.status);
    StrsRoundTrip(t.features);
  }

  /** The timeline stage reads back the exported creation and update times. */
  lemma ParseTimesOfExport(t: TenantMetadata, b: TenantMetadata, now: int)
    ensures ParseTimes(ToDict(t).entries, b, now) == Ok(b.(createdAt := t.createdAt, updatedAt := t.updatedAt))
  {
    ExportGet(t, "created_at"); ExportGet(t, "updated_at");
  }

  lemma ParseFieldsOfExport(t: TenantMetadata, now: int)
    requires Exportable(t)
    ensures ParseFields(ToDict(t), now) == Ok(t.(expiresAt := None))
  {
    ParseIdentityOfExport(t, now);
    var b := NewTenant(t.tenantId, t.name, t.displayName, t.description, now).(domain := t.domain, ownerId := t.ownerId);
    ParseLimitsOfExport(t, b);
    var c := b.(tier := t.tier, status := t.status, maxUsers := t.maxUsers,
      maxStorageGb := t.maxStorageGb, maxApiCallsPerDay := t.maxApiCallsPerDay, features := t.features);
    ParseTimesOfExport(t, c, now);
  }

  /** A document exported from exportable tenants loads back as the same tenants, in order. */
  lemma ExportedTenantsLoadBack(items: seq<TenantMetadata>, now: int)
    requires forall t :: t in items ==> Exportable(t)
    ensures Declarative.LoadSpec(Hooks(now), VObj([("tenants", VList(Seqs.Map(ToDict, items)))])) == Ok(items)
  {
    forall t | t in items
      ensures Hooks(now).parse(ToDict(t)) == Ok(t)
    {
      ExportThenLoad(t, now);
    }
    Declarative.ExportThenLoadDocument(Hooks(now), ToDict, items);
  }
}
