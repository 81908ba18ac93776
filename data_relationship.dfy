// Relationships between schemas: a registry of typed links from a field of
// one schema to a field of another, indexed by source and by target schema,
// with reference resolution and a check of two records against a link.
module DataRelationship {
  import opened Wrappers
  import opened Seqs
  import opened Index
  import opened Listing
  import opened Values

  datatype Kind = OneToOne | OneToMany | ManyToOne | ManyToMany | Reference

  /** `DataRelationship`; the creation time is an integer instant. */
  datatype Relationship = Relationship(
    id: string,
    name: string,
    sourceSchemaId: string,
    targetSchemaId: string,
    kind: Kind,
    sourceField: string,
    targetField: string,
    cascadeDelete: bool,
    cascadeUpdate: bool,
    metadata: Dict,
    createdAt: int)

  ghost function SourceKeys(rels: map<string, Relationship>): map<string, seq<string>>
  {
    map id | id in rels :: [rels[id].sourceSchemaId]
  }

  ghost function TargetKeys(rels: map<string, Relationship>): map<string, seq<string>>
  {
    map id | id in rels :: [rels[id].targetSchemaId]
  }

  /**
   * `order` lists each relationship id once, in registration order, and each
   * id sits exactly once in the bucket of its source schema and of its target schema.
   */
  ghost predicate Consistent(
    rels: map<string, Relationship>, order: seq<string>,
    bySource: map<string, seq<string>>, byTarget: map<string, seq<string>>)
  {
    && Ordered(order, rels)
    && (forall id :: id in rels ==> rels[id].id == id)
    && Indexed(bySource, SourceKeys(rels))
    && Indexed(byTarget, TargetKeys(rels))
  }

  lemma SourceRegistered(rels: map<string, Relationship>, bySource: map<string, seq<string>>, r: Relationship)
    requires Indexed(bySource, SourceKeys(rels)) && r.id !in rels
    ensures Indexed(Add(bySource, r.sourceSchemaId, r.id), SourceKeys(rels[r.id := r]))
  {
    IndexedAddAll(bySource, SourceKeys(rels), r.id, [r.sourceSchemaId]);
    AddAllOne(bySource, r.sourceSchemaId, r.id);
    assert SourceKeys(rels[r.id := r]) == SourceKeys(rels)[r.id := [r.sourceSchemaId]];
  }

  lemma TargetRegistered(rels: map<string, Relationship>, byTarget: map<string, seq<string>>, r: Relationship)
    requires Indexed(byTarget, TargetKeys(rels)) && r.id !in rels
    ensures Indexed(Add(byTarget, r.targetSchemaId, r.id), TargetKeys(rels[r.id := r]))
  {
    IndexedAddAll(byTarget, TargetKeys(rels), r.id, [r.targetSchemaId]);
    AddAllOne(byTarget, r.targetSchemaId, r.id);
    assert TargetKeys(rels[r.id := r]) == TargetKeys(rels)[r.id := [r.targetSchemaId]];
  }

  lemma RegisterConsistent(
    rels: map<string, Relationship>, order: seq<string>,
    bySource: map<string, seq<string>>, byTarget: map<string, seq<string>>, r: Relationship)
    requires Consistent(rels, order, bySource, byTarget) && r.id !in rels
    ensures Consistent(rels[r.id := r], order + [r.id],
      Add(bySource, r.sourceSchemaId, r.id), Add(byTarget, r.targetSchemaId, r.id))
  {
    SourceRegistered(rels, bySource, r);
    TargetRegistered(rels, byTarget, r);
    OrderedAppend(order, rels, r.id, r);
  }

  lemma UnregisterConsistent(
    rels: map<string, Relationship>, order: seq<string>,
    bySource: map<string, seq<string>>, byTarget: map<string, seq<string>>, id: string)
    requires Consistent(rels, order, bySource, byTarget) && id in rels
    ensures Consistent(rels - {id}, RemoveFirst(order, id),
      Remove(bySource, rels[id].sourceSchemaId, id), Remove(byTarget, rels[id].targetSchemaId, id))
  {
    IndexedRemoveAll(bySource, SourceKeys(rels), id);
    RemoveAllOne(bySource, rels[id].sourceSchemaId, id);
    assert SourceKeys(rels - {id}) == SourceKeys(rels) - {id};
    IndexedRemoveAll(byTarget, TargetKeys(rels), id);
    RemoveAllOne(byTarget, rels[id].targetSchemaId, id);
    assert TargetKeys(rels - {id}) == TargetKeys(rels) - {id};
    OrderedRemove(order, rels, id);
  }

  /** `[relationships[rid] for rid in ids]`. */
  function Lookup(rels: map<string, Relationship>, ids: seq<string>): (r: seq<Relationship>)
    requires forall id :: id in ids ==> id in rels
    ensures |r| == |ids| && forall i :: 0 <= i < |ids| ==> r[i] == rels[ids[i]]
  {
    if ids == [] then [] else [rels[ids[0]]] + Lookup(rels, ids[1..])
  }

  /** On a consistent registry every id of a bucket is registered. */
  lemma BucketRegistered(b: map<string, seq<string>>, keysOf: map<string, seq<string>>, k: string)
    requires Indexed(b, keysOf)
    ensures forall id :: id in Bucket(b, k) ==> id in keysOf
  {
    forall id | id in Bucket(b, k) ensures id in keysOf {
      IndexedOnly(b, keysOf, id, k);
    }
  }

  /**
   * `get_by_source(s)` holds exactly the registered relationships whose source
   * schema is `s`: each one it returns has that source, and a registered
   * relationship is among them exactly when its source is `s`.
   */
  lemma BySourceExact(
    rels: map<string, Relationship>, order: seq<string>,
    bySource: map<string, seq<string>>, byTarget: map<string, seq<string>>, s: string)
    requires Consistent(rels, order, bySource, byTarget)
    ensures forall id :: id in Bucket(bySource, s) ==> id in rels
    ensures forall i :: 0 <= i < |Bucket(bySource, s)| ==> Lookup(rels, Bucket(bySource, s))[i].sourceSchemaId == s
    ensures forall id :: id in rels ==> (rels[id] in Lookup(rels, Bucket(bySource, s)) <==> rels[id].sourceSchemaId == s)
  {
    var ids := Bucket(bySource, s);
    BucketRegistered(bySource, SourceKeys(rels), s);
    forall i | 0 <= i < |ids| ensures Lookup(rels, ids)[i].sourceSchemaId == s {
      BySourceOnly(rels, bySource, s, ids[i]);
    }
    forall id | id in rels ensures rels[id] in Lookup(rels, ids) ==> rels[id].sourceSchemaId == s {
    }
    forall id | id in rels && rels[id].sourceSchemaId == s ensures rels[id] in Lookup(rels, ids) {
      BySourceFind(rels, bySource, s, id);
      var i :| 0 <= i < |ids| && ids[i] == id;
      assert Lookup(rels, ids)[i] == rels[id];
    }
  }

  lemma BySourceOnly(rels: map<string, Relationship>, bySource: map<string, seq<string>>, s: string, id: string)
    requires Indexed(bySource, SourceKeys(rels)) && id in Bucket(bySource, s)
    ensures id in rels && rels[id].sourceSchemaId == s
  {
    IndexedOnly(bySource, SourceKeys(rels), id, s);
    assert SourceKeys(rels)[id] == [rels[id].sourceSchemaId];
  }

  lemma BySourceFind(rels: map<string, Relationship>, bySource: map<string, seq<string>>, s: string, id: string)
    requires Indexed(bySource, SourceKeys(rels)) && id in rels && rels[id].sourceSchemaId == s
    ensures id in Bucket(bySource, s)
  {
    assert SourceKeys(rels)[id] == [s];
    IndexedFind(bySource, SourceKeys(rels), id, s);
  }

  /**
   * `get_by_target(t)` holds exactly the registered relationships whose target
   * schema is `t`: each one it returns has that target, and a registered
   * relationship is among them exactly when its target is `t`.
   */
  lemma ByTargetExact(
    rels: map<string, Relationship>, order: seq<string>,
    bySource: map<string, seq<string>>, byTarget: map<string, seq<string>>, t: string)
    requires Consistent(rels, order, bySource, byTarget)
    ensures forall id :: id in Bucket(byTarget, t) ==> id in rels
    ensures forall i :: 0 <= i < |Bucket(byTarget, t)| ==> Lookup(rels, Bucket(byTarget, t))[i].targetSchemaId == t
    ensures forall id :: id in rels ==> (rels[id] in Lookup(rels, Bucket(byTarget, t)) <==> rels[id].targetSchemaId == t)
  {
    var ids := Bucket(byTarget, t);
    BucketRegistered(byTarget, TargetKeys(rels), t);
    forall i | 0 <= i < |ids| ensures Lookup(rels, ids)[i].targetSchemaId == t {
      ByTargetOnly(rels, byTarget, t, ids[i]);
    }
    forall id | id in rels ensures rels[id] in Lookup(rels, ids) ==> rels[id].targetSchemaId == t {
    }
    forall id | id in rels && rels[id].targetSchemaId == t ensures rels[id] in Lookup(rels, ids) {
      ByTargetFind(rels, byTarget, t, id);
      var i :| 0 <= i < |ids| && ids[i] == id;
      assert Lookup(rels, ids)[i] == rels[id];
    }
  }

  lemma ByTargetOnly(rels: map<string, Relationship>, byTarget: map<string, seq<string>>, t: string, id: string)
    requires Indexed(byTarget, TargetKeys(rels)) && id in Bucket(byTarget, t)
    ensures id in rels && rels[id].targetSchemaId == t
  {
    IndexedOnly(byTarget, TargetKeys(rels), id, t);
    assert TargetKeys(rels)[id] == [rels[id].targetSchemaId];
  }

  lemma ByTargetFind(rels: map<string, Relationship>, byTarget: map<string, seq<string>>, t: string, id: string)
    requires Indexed(byTarget, TargetKeys(rels)) && id in rels && rels[id].targetSchemaId == t
    ensures id in Bucket(byTarget, t)
  {
    assert TargetKeys(rels)[id] == [t];
    IndexedFind(byTarget, TargetKeys(rels), id, t);
  }

  // ----- Reference resolution -----

  /** The key a resolved reference is stored under. */
  function ResolvedKey(field: string): string
  {
    field + "_resolved"
  }

  function IdObject(v: Value): Value
  {
    VObj([("id", v)])
  }

  /**
   * One relationship of `resolve_references`, reading the result built so
   * far: a truthy single value becomes `{"id": v}`, a list a list of such
   * objects; many-to-many links are not resolved.
   */
  function ResolveStep(result: Dict, r: Relationship): (out: Dict)
    ensures forall k :: k != ResolvedKey(r.sourceField) ==> Get(out, k) == Get(result, k)
  {
    if !Has(result, r.sourceField) then result
    else
      var v := Get(result, r.sourceField).value;
      match r.kind
      case OneToMany =>
        if v.VList? then Put(result, ResolvedKey(r.sourceField), VList(Map(IdObject, v.items))) else result
      case ManyToMany => result
      case _ => if Truthy(v) then Put(result, ResolvedKey(r.sourceField), IdObject(v)) else result
  }

  /** The relationships in order, each step reading the result of the ones before. */
  function ResolveAll(data: Dict, rs: seq<Relationship>): Dict
  {
    if rs == [] then data else ResolveStep(ResolveAll(data, rs[..|rs| - 1]), rs[|rs| - 1])
  }

  /** Resolution writes only the `<field>_resolved` keys of the links: every other key keeps its value. */
  lemma {:induction false} ResolveAllKeeps(data: Dict, rs: seq<Relationship>, k: string)
    requires forall i :: 0 <= i < |rs| ==> k != ResolvedKey(rs[i].sourceField)
    ensures Get(ResolveAll(data, rs), k) == Get(data, k)
  {
    if rs != [] {
      var n := |rs| - 1;
      assert forall i :: 0 <= i < n ==> rs[..n][i] == rs[i];
      ResolveAllKeeps(data, rs[..n], k);
    }
  }

  /** Resolution removes nothing: every key of the data is still there. */
  lemma {:induction false} ResolveAllGrows(data: Dict, rs: seq<Relationship>, k: string)
    requires Has(data, k)
    ensures Has(ResolveAll(data, rs), k)
  {
    if rs != [] {
      var n := |rs| - 1;
      ResolveAllGrows(data, rs[..n], k);
      ResolveStepGrows(ResolveAll(data, rs[..n]), rs[n], k);
    }
  }

  /** One resolution step keeps every key. */
  lemma ResolveStepGrows(result: Dict, r: Relationship, k: string)
    requires Has(result, k)
    ensures Has(ResolveStep(result, r), k)
  {
    if k == ResolvedKey(r.sourceField) {
      var out := ResolveStep(result, r);
      assert out == result || Get(out, k).Some?;
    }
  }

  /** A one-to-one, many-to-one or reference link turns a truthy value the data holds into `{"id": v}`. */
  lemma ResolveSingle(result: Dict, r: Relationship)
    requires r.kind in {OneToOne, ManyToOne, Reference}
    requires Has(result, r.sourceField) && Truthy(Get(result, r.sourceField).value)
    ensures Get(ResolveStep(result, r), ResolvedKey(r.sourceField)) == Some(IdObject(Get(result, r.sourceField).value))
  {
  }

  /** A one-to-many link turns a list into the list of `{"id": item}`, item by item. */
  lemma ResolveList(result: Dict, r: Relationship)
    requires r.kind == OneToMany && Has(result, r.sourceField) && Get(result, r.sourceField).value.VList?
    ensures var items := Get(result, r.sourceField).value.items;
      var out := Get(ResolveStep(result, r), ResolvedKey(r.sourceField));
      out.Some? && out.value.VList? && |out.value.items| == |items| &&
      forall i :: 0 <= i < |items| ==> out.value.items[i] == IdObject(items[i])
  {
  }

  // ----- Checking two records against a link -----

  /** Python's `!=` is the negation of `==`, which is symmetric. */
  lemma {:induction false} PyEqSymmetric(a: Value, b: Value)
    ensures PyEq(a, b) == PyEq(b, a)
  {
    if Num(a).Some? && Num(b).Some? {
    } else if a.VList? && b.VList? && |a.items| == |b.items| {
      forall i | 0 <= i < |a.items| ensures PyEq(a.items[i], b.items[i]) == PyEq(b.items[i], a.items[i]) {
        PyEqSymmetric(a.items[i], b.items[i]);
      }
    }
  }

  /**
   * `validate_relationship`: whether the source record's field and the
   * target record's field agree as the link's kind demands, with the reason
   * when they do not; `show` is `str()` of a value.
   */
  function CheckLink(source: Dict, target: Dict, r: Relationship, show: Value -> string): (out: (bool, Option<string>))
    ensures out.0 <==> out.1.None?
  {
    var sv := GetV(source, r.sourceField);
    var tv := GetV(target, r.targetField);
    var error :=
      match r.kind
      case OneToOne =>
        if !PyEq(sv, tv) then Some(Mismatch("One-to-one", show(sv), show(tv))) else None
      case OneToMany =>
        if !sv.VList? then Some("Source field must be a list for one-to-many relationship")
        else if !PyIn(tv, sv.items) then Some("Target value " + show(tv) + " not in source list")
        else None
      case ManyToOne =>
        if !PyEq(sv, tv) then Some(Mismatch("Many-to-one", show(sv), show(tv))) else None
      case Reference =>
        if !Truthy(sv) || !Truthy(tv) then Some("Reference values cannot be empty") else None
      case ManyToMany => None;
    (error.None?, error)
  }

  /** The message for two values an equality link finds different. */
  function Mismatch(kind: string, sv: string, tv: string): string
  {
    kind + " relationship mismatch: " + sv + " != " + tv
  }

  /** The link as seen from the other side: source and target swapped. */
  function Reversed(r: Relationship): Relationship
  {
    r.(sourceSchemaId := r.targetSchemaId, targetSchemaId := r.sourceSchemaId,
       sourceField := r.targetField, targetField := r.sourceField)
  }

  /** One-to-one and many-to-one checks accept a pair exactly when the reversed link accepts the swapped pair. */
  lemma EqualityLinksSymmetric(source: Dict, target: Dict, r: Relationship, show: Value -> string)
    requires r.kind in {OneToOne, ManyToOne}
    ensures CheckLink(source, target, r, show).0 == CheckLink(target, source, Reversed(r), show).0
  {
    PyEqSymmetric(GetV(source, r.sourceField), GetV(target, r.targetField));
  }

  /** What each kind accepts: equal values, membership in a source list, two truthy values, anything. */
  lemma CheckLinkAccepts(source: Dict, target: Dict, r: Relationship, show: Value -> string)
    ensures var sv, tv := GetV(source, r.sourceField), GetV(target, r.targetField);
      CheckLink(source, target, r, show).0 <==>
        match r.kind
        case OneToOne => PyEq(sv, tv)
        case ManyToOne => PyEq(sv, tv)
        case OneToMany => sv.VList? && PyIn(tv, sv.items)
        case Reference => Truthy(sv) && Truthy(tv)
        case ManyToMany => true
  {
  }

  // ----- The manager -----

  /** `RelationshipManager`: the relationships and their two schema indexes. */
  class Manager {
    var rels: map<string, Relationship>
    var order: seq<string>
    var bySource: map<string, seq<string>>
    var byTarget: map<string, seq<string>>

    ghost predicate Valid()
      reads this
    {
      Consistent(rels, order, bySource, byTarget)
    }

    constructor ()
      ensures Valid() && rels == map[] && order == [] && bySource == map[] && byTarget == map[]
    {
      rels, order, bySource, byTarget := map[], [], map[], map[];
    }

    /**
     * `register`: a known id is refused with nothing changed; otherwise the
     * relationship is stored and filed under its source and target schemas.
     */
    method Register(id: string, name: string, sourceSchemaId: string, targetSchemaId: string, kind: Kind,
                    sourceField: string, targetField: string, cascadeDelete: bool, cascadeUpdate: bool,
                    metadata: Dict, now: int)
      returns (r: Result<Relationship>)
      requires Valid()
      modifies this
      ensures Valid()
      ensures old(id in rels) ==> r == Err("Relationship " + id + " already registered") && unchanged(this)
      ensures !old(id in rels) ==>
        var rel := Relationship(id, name, sourceSchemaId, targetSchemaId, kind, sourceField, targetField,
                                cascadeDelete, cascadeUpdate, metadata, now);
        && r == Ok(rel)
        && rels == old(rels)[id := rel] && order == old(order) + [id]
        && bySource == Add(old(bySource), sourceSchemaId, id)
        && byTarget == Add(old(byTarget), targetSchemaId, id)
    {
      if id in rels {
        return Err("Relationship " + id + " already registered");
      }
      var rel := Relationship(id, name, sourceSchemaId, targetSchemaId, kind, sourceField, targetField,
                              cascadeDelete, cascadeUpdate, metadata, now);
      RegisterConsistent(rels, order, bySource, byTarget, rel);
      rels, order := rels[id := rel], order + [id];
      bySource := Add(bySource, sourceSchemaId, id);
      byTarget := Add(byTarget, targetSchemaId, id);
      r := Ok(rel);
    }

    function Get(id: string): (r: Option<Relationship>)
      reads this
      ensures r.Some? <==> id in rels
      ensures r.Some? ==> r.value == rels[id]
    {
      if id in rels then Some(rels[id]) else None
    }

    /** `get_by_source`: the relationships filed under the schema, in registration order. */
    method GetBySource(schemaId: string) returns (result: seq<Relationship>)
      requires Valid()
      ensures forall id :: id in Bucket(bySource, schemaId) ==> id in rels
      ensures result == Lookup(rels, Bucket(bySource, schemaId))
      ensures forall i :: 0 <= i < |result| ==> result[i].sourceSchemaId == schemaId
      ensures forall id :: id in rels ==> (rels[id] in result <==> rels[id].sourceSchemaId == schemaId)
    {
      BySourceExact(rels, order, bySource, byTarget, schemaId);
      result := Lookup(rels, Bucket(bySource, schemaId));
    }

    /** `get_by_target`: the relationships filed under the schema, in registration order. */
    method GetByTarget(schemaId: string) returns (result: seq<Relationship>)
      requires Valid()
      ensures forall id :: id in Bucket(byTarget, schemaId) ==> id in rels
      ensures result == Lookup(rels, Bucket(byTarget, schemaId))
      ensures forall i :: 0 <= i < |result| ==> result[i].targetSchemaId == schemaId
      ensures forall id :: id in rels ==> (rels[id] in result <==> rels[id].targetSchemaId == schemaId)
    {
      ByTargetExact(rels, order, bySource, byTarget, schemaId);
      result := Lookup(rels, Bucket(byTarget, schemaId));
    }

    /** `list`: every relationship, in registration order. */
    method List() returns (result: seq<Relationship>)
      ensures result == Pick(rels, order, (r: Relationship) => true)
    {
      result := Collect(rels, order, (r: Relationship) => true);
    }

    /** `unregister`: true exactly when the id was registered; it leaves the registry and both indexes. */
    method Unregister(id: string) returns (removed: bool)
      requires Valid()
      modifies this
      ensures Valid()
      ensures removed == (id in old(rels))
      ensures !removed ==> unchanged(this)
      ensures removed ==>
        && rels == old(rels) - {id} && order == RemoveFirst(old(order), id)
        && bySource == Remove(old(bySource), old(rels)[id].sourceSchemaId, id)
        && byTarget == Remove(old(byTarget), old(rels)[id].targetSchemaId, id)
    {
      if id !in rels {
        return false;
      }
      var rel := rels[id];
      UnregisterConsistent(rels, order, bySource, byTarget, id);
      rels, order := rels - {id}, RemoveFirst(order, id);
      bySource := Remove(bySource, rel.sourceSchemaId, id);
      byTarget := Remove(byTarget, rel.targetSchemaId, id);
      return true;
    }

    /**
     * `resolve_references`: a depth of zero or less returns the data as it
     * is; otherwise the schema's outgoing relationships resolved in turn on a copy.
     */
    method ResolveReferences(data: Dict, schemaId: string, depth: int) returns (result: Dict)
      requires Valid()
      ensures depth <= 0 ==> result == data
      ensures depth > 0 ==> result == ResolveAll(data, Lookup(rels, Bucket(bySource, schemaId)))
    {
      if depth <= 0 {
        return data;
      }
      result := data;
      var rs := GetBySource(schemaId);
      var i := 0;
      while i < |rs|
        invariant 0 <= i <= |rs|
        invariant result == ResolveAll(data, rs[..i])
      {
        PrefixOfPrefix(rs, i);
        result := ResolveStep(result, rs[i]);
        i := i + 1;
      }
      FullPrefix(rs);
    }
  }
}
