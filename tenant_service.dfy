// Declarative import of tenants into the registry: new tenants are
// registered, existing ones are replaced or skipped, and failures are
// collected per tenant.
module TenantService {
  import opened Wrappers
  import opened TenantRegistry
  import opened Declarative

  /** The tenant's domain is already indexed for another tenant. */
  predicate DomainHeldByOther(reg: Registry, t: TenantMetadata)
    reads reg
  {
    HasDomain(t) && t.domain.value in reg.byDomain && reg.byDomain[t.domain.value] != t.tenantId
  }

  /**
   * Replacing a tenant by unregistering it and registering the new record
   * fails exactly when another tenant holds the new record's domain.
   */
  method Replace(reg: Registry, t: TenantMetadata, now: int) returns (r: Result<TenantMetadata>)
    requires reg.Valid() && t.tenantId in reg.tenants
    modifies reg
    ensures reg.Valid()
    ensures old(DomainHeldByOther(reg, t)) <==> r.Err?
    ensures r.Err? ==> reg.tenants == old(reg.tenants) - {t.tenantId}
    ensures r.Ok? ==> reg.tenants == old(reg.tenants)[t.tenantId := t.(updatedAt := now)]
  {
    ghost var before := reg.tenants;
    ReplaceDomainCheck(reg.tenants, reg.byDomain, t);
    var _ := reg.Unregister(t.tenantId);
    assert reg.RegisterError(t).Some? <==> old(DomainHeldByOther(reg, t));
    r := reg.Register(t, now);
    DropThenStore(before, t.tenantId, t.(updatedAt := now));
  }

  /**
   * The end of an update: a changed status is filed again with the update
   * time `now`, which the replaced record already holds.
   */
  method Restatus(reg: Registry, t: TenantMetadata, previous: TenantStatus, now: int)
    requires reg.Valid() && t.tenantId in reg.tenants && reg.tenants[t.tenantId] == t.(updatedAt := now)
    modifies reg
    ensures reg.Valid() && reg.tenants == old(reg.tenants)
  {
    if t.status != previous {
      var _ := reg.UpdateStatus(t.tenantId, t.status, now);
      assert reg.tenants[t.tenantId] == old(reg.tenants)[t.tenantId];
      assert reg.tenants == old(reg.tenants);
    }
  }

  /** Dropping a key and storing it again is storing it. */
  lemma DropThenStore(m: map<string, TenantMetadata>, k: string, v: TenantMetadata)
    ensures (m - {k})[k := v] == m[k := v]
  {
  }

  /** Once the old record's domain is dropped from the index, only another tenant's domain can clash. */
  lemma ReplaceDomainCheck(tenants: map<string, TenantMetadata>, byDomain: map<string, string>, t: TenantMetadata)
    requires DomainIndexed(tenants, byDomain) && t.tenantId in tenants
    ensures var prev := tenants[t.tenantId];
      var after := if HasDomain(prev) then byDomain - {prev.domain.value} else byDomain;
      (HasDomain(t) && t.domain.value in after) <==>
      (HasDomain(t) && t.domain.value in byDomain && byDomain[t.domain.value] != t.tenantId)
  {
  }

  /** One iteration of `_import_items` as written: an update unregisters before it registers. */
  method ImportItemAsWritten(reg: Registry, t: TenantMetadata, updateExisting: bool, now: int)
    returns (o: Outcome)
    requires reg.Valid()
    modifies reg
    ensures reg.Valid()
    ensures old(t.tenantId in reg.tenants) && !updateExisting ==> o == Skipped && unchanged(reg)
    ensures old(t.tenantId !in reg.tenants) && old(reg.RegisterError(t)).Some? ==>
      o == Failed(old(reg.RegisterError(t)).value) && unchanged(reg)
    ensures old(t.tenantId !in reg.tenants) && old(reg.RegisterError(t)).None? ==>
      o == Imported && reg.tenants == old(reg.tenants)[t.tenantId := t.(updatedAt := now)]
    ensures old(t.tenantId in reg.tenants) && updateExisting && !old(DomainHeldByOther(reg, t)) ==>
      o == Updated && reg.tenants == old(reg.tenants)[t.tenantId := t.(updatedAt := now)]
    // The defect: the existing tenant is gone once the new record is refused.
    ensures old(t.tenantId in reg.tenants) && updateExisting && old(DomainHeldByOther(reg, t)) ==>
      o.Failed? && reg.tenants == old(reg.tenants) - {t.tenantId}
  {
    var existing := reg.Get(t.tenantId);
    if existing.Some? {
      if updateExisting {
        var r := Replace(reg, t, now);
        if r.Err? {
          return Failed(r.error);
        }
        Restatus(reg, t, existing.value.status, now);
        return Updated;
      }
      return Skipped;
    }
    var r := reg.Register(t, now);
    if r.Err? {
      return Failed(r.error);
    }
    return Imported;
  }

  /** One iteration with the domain checked first: a refused update leaves the registry as it was. */
  method ImportItem(reg: Registry, t: TenantMetadata, updateExisting: bool, now: int) returns (o: Outcome)
    requires reg.Valid()
    modifies reg
    ensures reg.Valid()
    ensures old(t.tenantId in reg.tenants) && !updateExisting ==> o == Skipped && unchanged(reg)
    ensures old(t.tenantId !in reg.tenants) && old(reg.RegisterError(t)).Some? ==>
      o == Failed(old(reg.RegisterError(t)).value) && unchanged(reg)
    ensures old(t.tenantId !in reg.tenants) && old(reg.RegisterError(t)).None? ==>
      o == Imported && reg.tenants == old(reg.tenants)[t.tenantId := t.(updatedAt := now)]
    ensures old(t.tenantId in reg.tenants) && updateExisting && !old(DomainHeldByOther(reg, t)) ==>
      o == Updated && reg.tenants == old(reg.tenants)[t.tenantId := t.(updatedAt := now)]
    ensures old(t.tenantId in reg.tenants) && updateExisting && old(DomainHeldByOther(reg, t)) ==>
      o.Failed? && unchanged(reg)
  {
    var existing := reg.Get(t.tenantId);
    if existing.Some? {
      if updateExisting {
        if DomainHeldByOther(reg, t) {
          return Failed("Domain " + t.domain.value + " already registered");
        }
        var r := Replace(reg, t, now);
        Restatus(reg, t, existing.value.status, now);
        return Updated;
      }
      return Skipped;
    }
    var r := reg.Register(t, now);
    if r.Err? {
      return Failed(r.error);
    }
    return Imported;
  }

  /**
   * `_import_items`: every item lands in exactly one of the four lists, no
   * tenant registered before the import is lost, and without
   * `updateExisting` no registered tenant is changed.
   */
  method ImportItems(reg: Registry, items: seq<TenantMetadata>, updateExisting: bool, now: int)
    returns (res: ImportResult)
    requires reg.Valid()
    modifies reg
    ensures reg.Valid()
    ensures res.total == |items|
    ensures |res.imported| + |res.updated| + |res.skipped| + |res.errors| == |items|
    ensures !updateExisting ==> res.updated == []
    ensures old(reg.tenants).Keys <= reg.tenants.Keys
    ensures !updateExisting ==> forall id :: id in old(reg.tenants) ==> reg.tenants[id] == old(reg.tenants)[id]
    ensures forall id :: id in res.imported + res.updated + res.skipped ==> id in reg.tenants
    // A batch whose tenants are all registered already is skipped whole, as a second import of it is.
    ensures !updateExisting && AllRegistered(old(reg.tenants), items) ==> res.skipped == Ids(items) && unchanged(reg)
  {
    res := ImportResult([], [], [], [], |items|);
    var i := 0;
    while i < |items|
      invariant 0 <= i <= |items|
      invariant reg.Valid()
      invariant res.total == |items|
      invariant |res.imported| + |res.updated| + |res.skipped| + |res.errors| == i
      invariant !updateExisting ==> res.updated == []
      invariant old(reg.tenants).Keys <= reg.tenants.Keys
      invariant !updateExisting ==> forall id :: id in old(reg.tenants) ==> reg.tenants[id] == old(reg.tenants)[id]
      invariant forall id :: id in res.imported + res.updated + res.skipped ==> id in reg.tenants
      invariant !updateExisting && AllRegistered(old(reg.tenants), items) ==> res.skipped == Ids(items[..i]) && unchanged(reg)
    {
      var t := items[i];
      assert items[..i + 1] == items[..i] + [t];
      var o := ImportItem(reg, t, updateExisting, now);
      res := Record(res, t.tenantId, o);
      i := i + 1;
    }
    Seqs.FullPrefix(items);
  }

  /** The ids of a batch, in order. */
  function Ids(items: seq<TenantMetadata>): (r: seq<string>)
    ensures |r| == |items| && forall i :: 0 <= i < |items| ==> r[i] == items[i].tenantId
  {
    if items == [] then [] else Ids(items[..|items| - 1]) + [items[|items| - 1].tenantId]
  }

  predicate AllRegistered(tenants: map<string, TenantMetadata>, items: seq<TenantMetadata>)
  {
    forall t :: t in items ==> t.tenantId in tenants
  }
}
