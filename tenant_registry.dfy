// The tenant registry: tenant metadata keyed by id, with status, tier and
// domain indexes kept beside the primary map.
module TenantRegistry {
  import opened Wrappers
  import opened Seqs
  import Text
  import opened Index

  datatype TenantStatus = Active | Inactive | Suspended | Trial | Expired
  datatype TenantTier = Free | Basic | Professional | Enterprise

  /** Tenant metadata; timestamps are integers supplied by the caller's clock. */
  datatype TenantMetadata = TenantMetadata(
    tenantId: string,
    name: string,
    displayName: string,
    description: string,
    domain: Option<string>,
    tier: TenantTier,
    status: TenantStatus,
    maxUsers: int,
    maxStorageGb: int,
    maxApiCallsPerDay: int,
    features: seq<string>,
    createdAt: int,
    updatedAt: int,
    expiresAt: Option<int>,
    ownerId: Option<string>)

  /** A tenant record with the field defaults of the metadata class. */
  function NewTenant(id: string, name: string, displayName: string, description: string, now: int): (t: TenantMetadata)
    ensures t.tenantId == id && t.tier == Free && t.status == Trial
    ensures t.maxUsers == 10 && t.maxStorageGb == 1 && t.maxApiCallsPerDay == 1000
    ensures t.features == [] && t.domain == None && t.expiresAt == None && t.ownerId == None
  {
    TenantMetadata(id, name, displayName, description, None, Free, Trial, 10, 1, 1000, [], now, now, None, None)
  }

  /** A domain counts only when it is a non-empty string (Python truthiness). */
  predicate HasDomain(t: TenantMetadata)
  {
    t.domain.Some? && t.domain.value != ""
  }

  ghost function StatusKeys(tenants: map<string, TenantMetadata>): map<string, seq<TenantStatus>>
  {
    map id | id in tenants :: [tenants[id].status]
  }

  ghost function TierKeys(tenants: map<string, TenantMetadata>): map<string, seq<TenantTier>>
  {
    map id | id in tenants :: [tenants[id].tier]
  }

  /**
   * Index/primary consistency: `order` lists each tenant id once, in insertion
   * order; each id sits exactly once in the bucket of its status and of its
   * tier and nowhere else; the domain index maps each domain in use to its one
   * owner.
   */
  ghost predicate Consistent(
    tenants: map<string, TenantMetadata>, order: seq<string>,
    byStatus: map<TenantStatus, seq<string>>, byTier: map<TenantTier, seq<string>>,
    byDomain: map<string, string>)
  {
    && Ordered(order, tenants)
    && (forall id :: id in tenants ==> tenants[id].tenantId == id)
    && Indexed(byStatus, StatusKeys(tenants))
    && Indexed(byTier, TierKeys(tenants))
    && DomainIndexed(tenants, byDomain)
  }

  /** The domain index maps exactly the domains in use, each to the one tenant that has it. */
  ghost predicate DomainIndexed(tenants: map<string, TenantMetadata>, byDomain: map<string, string>)
  {
    && (forall d :: d in byDomain ==>
          byDomain[d] in tenants && HasDomain(tenants[byDomain[d]]) && tenants[byDomain[d]].domain.value == d)
    && (forall id :: id in tenants && HasDomain(tenants[id]) ==>
          tenants[id].domain.value in byDomain && byDomain[tenants[id].domain.value] == id)
  }

  lemma KeysUpdate(tenants: map<string, TenantMetadata>, id: string, t: TenantMetadata)
    ensures StatusKeys(tenants[id := t]) == (StatusKeys(tenants) - {id})[id := [t.status]]
    ensures TierKeys(tenants[id := t]) == (TierKeys(tenants) - {id})[id := [t.tier]]
  {
    StatusKeysUpdate(tenants, id, t);
    TierKeysUpdate(tenants, id, t);
  }

  lemma StatusKeysUpdate(tenants: map<string, TenantMetadata>, id: string, t: TenantMetadata)
    ensures StatusKeys(tenants[id := t]) == (StatusKeys(tenants) - {id})[id := [t.status]]
  {
  }

  lemma TierKeysUpdate(tenants: map<string, TenantMetadata>, id: string, t: TenantMetadata)
    ensures TierKeys(tenants[id := t]) == (TierKeys(tenants) - {id})[id := [t.tier]]
  {
  }

  lemma KeysPut(tenants: map<string, TenantMetadata>, t: TenantMetadata)
    ensures StatusKeys(tenants)[t.tenantId := [t.status]] == StatusKeys(tenants[t.tenantId := t])
    ensures TierKeys(tenants)[t.tenantId := [t.tier]] == TierKeys(tenants[t.tenantId := t])
  {
    StatusKeysPut(tenants, t);
    TierKeysPut(tenants, t);
  }

  lemma StatusKeysPut(tenants: map<string, TenantMetadata>, t: TenantMetadata)
    ensures StatusKeys(tenants)[t.tenantId := [t.status]] == StatusKeys(tenants[t.tenantId := t])
  {
  }

  lemma TierKeysPut(tenants: map<string, TenantMetadata>, t: TenantMetadata)
    ensures TierKeys(tenants)[t.tenantId := [t.tier]] == TierKeys(tenants[t.tenantId := t])
  {
  }

  lemma KeysRemove(tenants: map<string, TenantMetadata>, id: string)
    ensures StatusKeys(tenants - {id}) == StatusKeys(tenants) - {id}
    ensures TierKeys(tenants - {id}) == TierKeys(tenants) - {id}
  {
    StatusKeysRemove(tenants, id);
    TierKeysRemove(tenants, id);
  }

  lemma StatusKeysRemove(tenants: map<string, TenantMetadata>, id: string)
    ensures StatusKeys(tenants - {id}) == StatusKeys(tenants) - {id}
  {
  }

  lemma TierKeysRemove(tenants: map<string, TenantMetadata>, id: string)
    ensures TierKeys(tenants - {id}) == TierKeys(tenants) - {id}
  {
  }

  lemma DomainRegister(tenants: map<string, TenantMetadata>, byDomain: map<string, string>, t: TenantMetadata)
    requires DomainIndexed(tenants, byDomain)
    requires t.tenantId !in tenants && !(HasDomain(t) && t.domain.value in byDomain)
    ensures DomainIndexed(tenants[t.tenantId := t], if HasDomain(t) then byDomain[t.domain.value := t.tenantId] else byDomain)
  {
  }

  lemma DomainSameDomain(tenants: map<string, TenantMetadata>, byDomain: map<string, string>, id: string, t: TenantMetadata)
    requires DomainIndexed(tenants, byDomain)
    requires id in tenants && t.domain == tenants[id].domain
    ensures DomainIndexed(tenants[id := t], byDomain)
  {
  }

  lemma RegisterConsistent(
    tenants: map<string, TenantMetadata>, order: seq<string>,
    byStatus: map<TenantStatus, seq<string>>, byTier: map<TenantTier, seq<string>>,
    byDomain: map<string, string>, t: TenantMetadata)
    requires Consistent(tenants, order, byStatus, byTier, byDomain)
    requires t.tenantId !in tenants && !(HasDomain(t) && t.domain.value in byDomain)
    ensures Consistent(tenants[t.tenantId := t], order + [t.tenantId],
      Add(byStatus, t.status, t.tenantId), Add(byTier, t.tier, t.tenantId),
      if HasDomain(t) then byDomain[t.domain.value := t.tenantId] else byDomain)
  {
    StatusRegistered(tenants, byStatus, t);
    TierRegistered(tenants, byTier, t);
    OrderedAppend(order, tenants, t.tenantId, t);
    DomainRegister(tenants, byDomain, t);
  }

  lemma StatusRegistered(tenants: map<string, TenantMetadata>, byStatus: map<TenantStatus, seq<string>>, t: TenantMetadata)
    requires Indexed(byStatus, StatusKeys(tenants)) && t.tenantId !in tenants
    ensures Indexed(Add(byStatus, t.status, t.tenantId), StatusKeys(tenants[t.tenantId := t]))
  {
    var id := t.tenantId;
    IndexedAddAll(byStatus, StatusKeys(tenants), id, [t.status]);
    AddAllOne(byStatus, t.status, id);
    KeysPut(tenants, t);
  }

  lemma TierRegistered(tenants: map<string, TenantMetadata>, byTier: map<TenantTier, seq<string>>, t: TenantMetadata)
    requires Indexed(byTier, TierKeys(tenants)) && t.tenantId !in tenants
    ensures Indexed(Add(byTier, t.tier, t.tenantId), TierKeys(tenants[t.tenantId := t]))
  {
    var id := t.tenantId;
    IndexedAddAll(byTier, TierKeys(tenants), id, [t.tier]);
    AddAllOne(byTier, t.tier, id);
    KeysPut(tenants, t);
  }

  lemma UnregisterConsistent(
    tenants: map<string, TenantMetadata>, order: seq<string>,
    byStatus: map<TenantStatus, seq<string>>, byTier: map<TenantTier, seq<string>>,
    byDomain: map<string, string>, id: string)
    requires Consistent(tenants, order, byStatus, byTier, byDomain)
    requires id in tenants
    ensures Consistent(tenants - {id}, RemoveFirst(order, id),
      Remove(byStatus, tenants[id].status, id), Remove(byTier, tenants[id].tier, id),
      if HasDomain(tenants[id]) then byDomain - {tenants[id].domain.value} else byDomain)
  {
    StatusUnregistered(tenants, byStatus, id);
    TierUnregistered(tenants, byTier, id);
    DomainUnregister(tenants, byDomain, id);
    OrderedRemove(order, tenants, id);
  }

  lemma StatusUnregistered(tenants: map<string, TenantMetadata>, byStatus: map<TenantStatus, seq<string>>, id: string)
    requires Indexed(byStatus, StatusKeys(tenants)) && id in tenants
    ensures Indexed(Remove(byStatus, tenants[id].status, id), StatusKeys(tenants - {id}))
  {
    IndexedRemoveAll(byStatus, StatusKeys(tenants), id);
    RemoveAllOne(byStatus, tenants[id].status, id);
    StatusKeysRemove(tenants, id);
  }

  lemma TierUnregistered(tenants: map<string, TenantMetadata>, byTier: map<TenantTier, seq<string>>, id: string)
    requires Indexed(byTier, TierKeys(tenants)) && id in tenants
    ensures Indexed(Remove(byTier, tenants[id].tier, id), TierKeys(tenants - {id}))
  {
    IndexedRemoveAll(byTier, TierKeys(tenants), id);
    RemoveAllOne(byTier, tenants[id].tier, id);
    TierKeysRemove(tenants, id);
  }

  lemma DomainUnregister(tenants: map<string, TenantMetadata>, byDomain: map<string, string>, id: string)
    requires DomainIndexed(tenants, byDomain) && id in tenants
    ensures DomainIndexed(tenants - {id}, if HasDomain(tenants[id]) then byDomain - {tenants[id].domain.value} else byDomain)
  {
  }

  lemma UpdateStatusConsistent(
    tenants: map<string, TenantMetadata>, order: seq<string>,
    byStatus: map<TenantStatus, seq<string>>, byTier: map<TenantTier, seq<string>>,
    byDomain: map<string, string>, id: string, status: TenantStatus, now: int)
    requires Consistent(tenants, order, byStatus, byTier, byDomain)
    requires id in tenants
    ensures Consistent(tenants[id := tenants[id].(status := status, updatedAt := now)], order,
      Add(Remove(byStatus, tenants[id].status, id), status, id), byTier, byDomain)
  {
    var tenants' := tenants[id := tenants[id].(status := status, updatedAt := now)];
    StatusReindexed(tenants, byStatus, id, tenants'[id]);
    TierKeysSameTier(tenants, id, tenants'[id]);
    DomainSameDomain(tenants, byDomain, id, tenants'[id]);
    assert Ordered(order, tenants') by {
      assert forall x :: x in tenants' <==> x in tenants;
    }
    assert forall x :: x in tenants' ==> tenants'[x].tenantId == x;
  }

  /** Moving one id from its old status bucket to the bucket of its new status keeps the status index exact. */
  lemma StatusReindexed(tenants: map<string, TenantMetadata>, byStatus: map<TenantStatus, seq<string>>,
                        id: string, t: TenantMetadata)
    requires Indexed(byStatus, StatusKeys(tenants)) && id in tenants
    ensures Indexed(Add(Remove(byStatus, tenants[id].status, id), t.status, id), StatusKeys(tenants[id := t]))
  {
    IndexedRemoveAll(byStatus, StatusKeys(tenants), id);
    RemoveAllOne(byStatus, tenants[id].status, id);
    var removed := Remove(byStatus, tenants[id].status, id);
    IndexedAddAll(removed, StatusKeys(tenants) - {id}, id, [t.status]);
    AddAllOne(removed, t.status, id);
    KeysUpdate(tenants, id, t);
  }

  lemma TierKeysSameTier(tenants: map<string, TenantMetadata>, id: string, t: TenantMetadata)
    requires id in tenants && t.tier == tenants[id].tier
    ensures TierKeys(tenants[id := t]) == TierKeys(tenants)
  {
    var a := TierKeys(tenants[id := t]);
    var b := TierKeys(tenants);
    assert a.Keys == b.Keys;
    forall x | x in a ensures a[x] == b[x] {
    }
  }

  /** The ids `list` starts from: the status bucket, else the tier bucket, else every id. */
  function Candidates(
    order: seq<string>, byStatus: map<TenantStatus, seq<string>>, byTier: map<TenantTier, seq<string>>,
    status: Option<TenantStatus>, tier: Option<TenantTier>): seq<string>
  {
    if status.Some? then Bucket(byStatus, status.value)
    else if tier.Some? then Bucket(byTier, tier.value)
    else order
  }

  predicate Keep(t: TenantMetadata, status: Option<TenantStatus>, tier: Option<TenantTier>, features: seq<string>)
  {
    && (status.Some? ==> t.status == status.value)
    && (tier.Some? ==> t.tier == tier.value)
    && (features != [] ==> HasCommon(features, t.features))
  }

  /** The records `list` returns for the candidate ids, in candidate order; unknown ids are skipped. */
  function Select(
    tenants: map<string, TenantMetadata>, ids: seq<string>,
    status: Option<TenantStatus>, tier: Option<TenantTier>, features: seq<string>): seq<TenantMetadata>
  {
    if ids == [] then []
    else
      var id := ids[|ids| - 1];
      Select(tenants, ids[..|ids| - 1], status, tier, features)
        + (if id in tenants && Keep(tenants[id], status, tier, features) then [tenants[id]] else [])
  }

  /** Everything `list` returns is a registered tenant that passes every given filter. */
  lemma {:induction false} SelectSound(
    tenants: map<string, TenantMetadata>, ids: seq<string>,
    status: Option<TenantStatus>, tier: Option<TenantTier>, features: seq<string>, t: TenantMetadata)
    requires t in Select(tenants, ids, status, tier, features)
    ensures t in tenants.Values && Keep(t, status, tier, features)
  {
    if ids != [] {
      var id := ids[|ids| - 1];
      if t !in Select(tenants, ids[..|ids| - 1], status, tier, features) {
        assert t == tenants[id];
      } else {
        SelectSound(tenants, ids[..|ids| - 1], status, tier, features, t);
      }
    }
  }

  /** A registered candidate that passes the filters is returned. */
  lemma {:induction false} SelectComplete(
    tenants: map<string, TenantMetadata>, ids: seq<string>,
    status: Option<TenantStatus>, tier: Option<TenantTier>, features: seq<string>, id: string)
    requires id in ids && id in tenants && Keep(tenants[id], status, tier, features)
    ensures tenants[id] in Select(tenants, ids, status, tier, features)
  {
    if ids[|ids| - 1] != id {
      SelectComplete(tenants, ids[..|ids| - 1], status, tier, features, id);
    }
  }

  /**
   * On a consistent registry, `list(status=s)` returns exactly the tenants
   * whose status is `s`.
   */
  lemma ListByStatusExact(
    tenants: map<string, TenantMetadata>, order: seq<string>,
    byStatus: map<TenantStatus, seq<string>>, byTier: map<TenantTier, seq<string>>,
    byDomain: map<string, string>, s: TenantStatus, id: string)
    requires Consistent(tenants, order, byStatus, byTier, byDomain)
    requires id in tenants
    ensures tenants[id] in Select(tenants, Candidates(order, byStatus, byTier, Some(s), None), Some(s), None, [])
        <==> tenants[id].status == s
  {
    var ids := Candidates(order, byStatus, byTier, Some(s), None);
    if tenants[id].status == s {
      IndexedFind(byStatus, StatusKeys(tenants), id, s);
      SelectComplete(tenants, ids, Some(s), None, [], id);
    } else if tenants[id] in Select(tenants, ids, Some(s), None, []) {
      SelectSound(tenants, ids, Some(s), None, [], tenants[id]);
    }
  }

  /** The search test: the lower-cased query is a substring of a lower-cased text field. */
  predicate Matches(t: TenantMetadata, query: string)
  {
    var q := Text.Lower(query);
    Text.Contains(Text.Lower(t.name), q) || Text.Contains(Text.Lower(t.displayName), q)
      || Text.Contains(Text.Lower(t.description), q)
  }

  function SearchSpec(tenants: map<string, TenantMetadata>, ids: seq<string>, query: string): (r: seq<TenantMetadata>)
    ensures forall t :: t in r ==> Matches(t, query)
  {
    if ids == [] then []
    else
      var id := ids[|ids| - 1];
      SearchSpec(tenants, ids[..|ids| - 1], query)
        + (if id in tenants && Matches(tenants[id], query) then [tenants[id]] else [])
  }

  /** Search finds every registered tenant that matches. */
  lemma {:induction false} SearchComplete(tenants: map<string, TenantMetadata>, ids: seq<string>, query: string, id: string)
    requires id in ids && id in tenants && Matches(tenants[id], query)
    ensures tenants[id] in SearchSpec(tenants, ids, query)
  {
    if ids[|ids| - 1] != id {
      SearchComplete(tenants, ids[..|ids| - 1], query, id);
    }
  }

  class Registry {
    var tenants: map<string, TenantMetadata>
    var order: seq<string>
    var byStatus: map<TenantStatus, seq<string>>
    var byTier: map<TenantTier, seq<string>>
    var byDomain: map<string, string>

    ghost predicate Valid()
      reads this
    {
      Consistent(tenants, order, byStatus, byTier, byDomain)
    }

    constructor ()
      ensures Valid() && tenants == map[] && byDomain == map[]
    {
      tenants := map[];
      order := [];
      byStatus := map[Active := [], Inactive := [], Suspended := [], Trial := [], Expired := []];
      byTier := map[Free := [], Basic := [], Professional := [], Enterprise := []];
      byDomain := map[];
    }

    /** Whether registering `t` would be refused, and with which message. */
    function RegisterError(t: TenantMetadata): (e: Option<string>)
      reads this
      ensures e.None? <==> t.tenantId !in tenants && !(HasDomain(t) && t.domain.value in byDomain)
    {
      if t.tenantId in tenants then Some("Tenant " + t.tenantId + " already registered")
      else if HasDomain(t) && t.domain.value in byDomain then Some("Domain " + t.domain.value + " already registered")
      else None
    }

    /**
     * Adds a tenant; a duplicate id or a domain already in use is refused
     * before anything changes.
     */
    method Register(t: TenantMetadata, now: int) returns (r: Result<TenantMetadata>)
      requires Valid()
      modifies this
      ensures Valid()
      ensures old(RegisterError(t)).Some? ==> r == Err(old(RegisterError(t)).value) && unchanged(this)
      ensures old(RegisterError(t)).None? ==>
        && r == Ok(t.(updatedAt := now))
        && tenants == old(tenants)[t.tenantId := t.(updatedAt := now)]
        && order == old(order) + [t.tenantId]
        && byStatus == Add(old(byStatus), t.status, t.tenantId)
        && byTier == Add(old(byTier), t.tier, t.tenantId)
        && byDomain == (if HasDomain(t) then old(byDomain)[t.domain.value := t.tenantId] else old(byDomain))
    {
      var e := RegisterError(t);
      if e.Some? {
        return Err(e.value);
      }
      var stored := t.(updatedAt := now);
      assert stored.tenantId == t.tenantId && stored.status == t.status && stored.tier == t.tier;
      assert HasDomain(stored) == HasDomain(t) && stored.domain == t.domain;
      RegisterConsistent(tenants, order, byStatus, byTier, byDomain, stored);
      tenants, order, byStatus, byTier, byDomain :=
        tenants[stored.tenantId := stored], order + [stored.tenantId],
        Add(byStatus, stored.status, stored.tenantId), Add(byTier, stored.tier, stored.tenantId),
        if HasDomain(stored) then byDomain[stored.domain.value := stored.tenantId] else byDomain;
      r := Ok(stored);
    }

    function Get(id: string): (r: Option<TenantMetadata>)
      reads this
      ensures r.Some? <==> id in tenants
      ensures r.Some? ==> r.value == tenants[id]
    {
      if id in tenants then Some(tenants[id]) else None
    }

    /**
     * The tenant registered under `domain`, if any. An empty tenant id in the
     * domain index reads as missing, as the source's truthiness test does.
     */
    function GetByDomain(domain: string): (r: Option<TenantMetadata>)
      reads this
      requires Valid()
      ensures r.Some? ==> r.value in tenants.Values && r.value.domain == Some(domain)
      ensures r.None? ==> forall id :: id in tenants && id != "" ==> tenants[id].domain != Some(domain) || domain == ""
    {
      if domain in byDomain && byDomain[domain] != "" then Get(byDomain[domain]) else None
    }

    /** `list`: walks the candidate ids and keeps the registered tenants that pass every filter. */
    method List(status: Option<TenantStatus>, tier: Option<TenantTier>, features: seq<string>)
      returns (result: seq<TenantMetadata>)
      ensures result == Select(tenants, Candidates(order, byStatus, byTier, status, tier), status, tier, features)
    {
      var ids := Candidates(order, byStatus, byTier, status, tier);
      result := [];
      var i := 0;
      while i < |ids|
        invariant 0 <= i <= |ids|
        invariant result == Select(tenants, ids[..i], status, tier, features)
      {
        var id := ids[i];
        PrefixOfPrefix(ids, i);
        if id in tenants && Keep(tenants[id], status, tier, features) {
          result := result + [tenants[id]];
        }
        i := i + 1;
      }
      FullPrefix(ids);
    }

    /** Removes a tenant from the store and from every index; an unknown id gives false. */
    method Unregister(id: string) returns (removed: bool)
      requires Valid()
      modifies this
      ensures Valid()
      ensures removed == (id in old(tenants))
      ensures !removed ==> unchanged(this)
      ensures removed ==>
        && tenants == old(tenants) - {id}
        && order == RemoveFirst(old(order), id)
        && byStatus == Remove(old(byStatus), old(tenants)[id].status, id)
        && byTier == Remove(old(byTier), old(tenants)[id].tier, id)
        && byDomain == (if HasDomain(old(tenants)[id]) then old(byDomain) - {old(tenants)[id].domain.value} else old(byDomain))
    {
      if id !in tenants {
        return false;
      }
      var t := tenants[id];
      tenants := tenants - {id};
      order := RemoveFirst(order, id);
      byStatus := Remove(byStatus, t.status, id);
      byTier := Remove(byTier, t.tier, id);
      if HasDomain(t) && t.domain.value in byDomain {
        byDomain := byDomain - {t.domain.value};
      }
      UnregisterConsistent(old(tenants), old(order), old(byStatus), old(byTier), old(byDomain), id);
      return true;
    }

    /** Moves a tenant to another status bucket; an unknown id gives false and changes nothing. */
    method UpdateStatus(id: string, status: TenantStatus, now: int) returns (updated: bool)
      requires Valid()
      modifies this
      ensures Valid()
      ensures updated == (id in old(tenants))
      ensures !updated ==> unchanged(this)
      ensures updated ==>
        && tenants == old(tenants)[id := old(tenants)[id].(status := status, updatedAt := now)]
        && order == old(order) && byTier == old(byTier) && byDomain == old(byDomain)
        && byStatus == Add(Remove(old(byStatus), old(tenants)[id].status, id), status, id)
    {
      if id !in tenants {
        return false;
      }
      var oldStatus := tenants[id].status;
      tenants := tenants[id := tenants[id].(status := status, updatedAt := now)];
      byStatus := Add(Remove(byStatus, oldStatus, id), status, id);
      UpdateStatusConsistent(old(tenants), old(order), old(byStatus), old(byTier), old(byDomain), id, status, now);
      return true;
    }

    /** `search`: the tenants, in registration order, whose name, display name or description matches. */
    method Search(query: string) returns (result: seq<TenantMetadata>)
      ensures result == SearchSpec(tenants, order, query)
    {
      result := [];
      var i := 0;
      while i < |order|
        invariant 0 <= i <= |order|
        invariant result == SearchSpec(tenants, order[..i], query)
      {
        PrefixOfPrefix(order, i);
        var id := order[i];
        if id in tenants && Matches(tenants[id], query) {
          result := result + [tenants[id]];
        }
        i := i + 1;
      }
      FullPrefix(order);
    }
  }
}
