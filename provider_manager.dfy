// The provider manager: provider records in a database, mirrored into the
// in-memory registry, and the batch import that classifies each provider.
// The database is modelled as a map from provider name to record.
module ProviderManager {
  import opened Wrappers
  import opened Seqs
  import opened Declarative
  import opened ProviderRegistry

  /** A database record: the metadata with credentials and timestamps. */
  datatype Stored = Stored(
    meta: ProviderMetadata,
    apiKey: Option<string>,
    apiSecret: Option<string>,
    createdAt: int,
    updatedAt: int)

  /** A credential left out of `update` keeps its stored value. */
  function Given(o: Option<string>, current: Option<string>): Option<string>
  {
    if o.Some? then o else current
  }

  /**
   * The record after `update`'s `$set`: every metadata field replaced, the
   * update time stamped, credentials replaced only when given, and the
   * creation time kept.
   */
  function Refreshed(rec: Stored, p: ProviderMetadata, apiKey: Option<string>, apiSecret: Option<string>, now: int)
    : (r: Stored)
    ensures r.meta == p && r.createdAt == rec.createdAt && r.updatedAt == now
    ensures apiKey.None? ==> r.apiKey == rec.apiKey
    ensures apiSecret.None? ==> r.apiSecret == rec.apiSecret
  {
    Stored(p, Given(apiKey, rec.apiKey), Given(apiSecret, rec.apiSecret), rec.createdAt, now)
  }

  /** What the manager holds: the database and the registry's providers and order. */
  datatype Store = Store(db: map<string, Stored>, providers: map<string, ProviderMetadata>, order: seq<string>)

  /** Every record sits under its provider's name, and the registry is consistent. */
  ghost predicate Sound(st: Store)
  {
    && (forall n :: n in st.db ==> st.db[n].meta.name == n)
    && Consistent(st.providers, st.order)
  }

  /**
   * `create`: a name already in the database is refused; otherwise the
   * record is inserted, and then registered, which fails when the registry
   * already holds the name -- the inserted record stays.
   */
  function AfterCreate(st: Store, p: ProviderMetadata, apiKey: Option<string>, apiSecret: Option<string>, now: int)
    : (r: (Store, Result<Stored>))
    ensures p.name in st.db ==> r == (st, Err("Provider " + p.name + " already exists"))
    ensures p.name !in st.db ==> r.0.db == st.db[p.name := Stored(p, apiKey, apiSecret, now, now)]
    ensures p.name !in st.db && p.name in st.providers ==>
      r.1 == Err("Provider " + p.name + " already registered") && r.0.providers == st.providers && r.0.order == st.order
    ensures p.name !in st.db && p.name !in st.providers ==>
      r.1 == Ok(Stored(p, apiKey, apiSecret, now, now))
      && r.0.providers == st.providers[p.name := p] && r.0.order == st.order + [p.name]
  {
    if p.name in st.db then (st, Err("Provider " + p.name + " already exists"))
    else
      var rec := Stored(p, apiKey, apiSecret, now, now);
      var db := st.db[p.name := rec];
      if p.name in st.providers then (st.(db := db), Err("Provider " + p.name + " already registered"))
      else (Store(db, st.providers[p.name := p], st.order + [p.name]), Ok(rec))
  }

  /**
   * `update` of a provider under its own name: unknown names are refused;
   * otherwise the record is refreshed and the provider re-registered, which
   * moves it to the end of the registry's order.
   */
  function AfterUpdate(st: Store, p: ProviderMetadata, apiKey: Option<string>, apiSecret: Option<string>, now: int)
    : (r: (Store, Result<Stored>))
    ensures p.name !in st.db ==> r == (st, Err("Provider " + p.name + " not found"))
    ensures p.name in st.db ==>
      && r.1 == Ok(Refreshed(st.db[p.name], p, apiKey, apiSecret, now))
      && r.0.db == st.db[p.name := r.1.value]
      && r.0.providers == st.providers[p.name := p]
      && r.0.order == RemoveFirst(st.order, p.name) + [p.name]
  {
    if p.name !in st.db then (st, Err("Provider " + p.name + " not found"))
    else
      var rec := Refreshed(st.db[p.name], p, apiKey, apiSecret, now);
      (Store(st.db[p.name := rec], (st.providers - {p.name})[p.name := p], RemoveFirst(st.order, p.name) + [p.name]),
       Ok(rec))
  }

  lemma CreateSound(st: Store, p: ProviderMetadata, apiKey: Option<string>, apiSecret: Option<string>, now: int)
    requires Sound(st)
    ensures Sound(AfterCreate(st, p, apiKey, apiSecret, now).0)
  {
    if p.name !in st.db && p.name !in st.providers {
      RegisterConsistent(st.providers, st.order, p);
    }
  }

  lemma UpdateSound(st: Store, p: ProviderMetadata, apiKey: Option<string>, apiSecret: Option<string>, now: int)
    requires Sound(st)
    ensures Sound(AfterUpdate(st, p, apiKey, apiSecret, now).0)
  {
    if p.name in st.db {
      UnregisterConsistent(st.providers, st.order, p.name);
      RegisterConsistent(st.providers - {p.name}, RemoveFirst(st.order, p.name), p);
    }
  }

  /** One provider of `import_batch`: skipped, updated, created, or an error from `create`. */
  function ImportStep(st: Store, p: ProviderMetadata, updateExisting: bool, now: int): (Store, Outcome)
  {
    if p.name in st.db then
      if updateExisting then (AfterUpdate(st, p, None, None, now).0, Updated) else (st, Skipped)
    else
      var (st', r) := AfterCreate(st, p, None, None, now);
      (st', if r.Ok? then Imported else Failed(r.error))
  }

  /** `import_batch`, provider by provider: the state after it and the result lists. */
  function ImportAll(st: Store, ps: seq<ProviderMetadata>, updateExisting: bool, now: int): (Store, ImportResult)
  {
    if ps == [] then (st, ImportResult([], [], [], [], 0))
    else
      var (prev, res) := ImportAll(st, ps[..|ps| - 1], updateExisting, now);
      var last := ps[|ps| - 1];
      var (next, o) := ImportStep(prev, last, updateExisting, now);
      (next, Record(res, last.name, o).(total := |ps|))
  }

  lemma ImportAllStep(st: Store, ps: seq<ProviderMetadata>, updateExisting: bool, now: int, i: nat)
    requires i < |ps|
    ensures var (prev, res) := ImportAll(st, ps[..i], updateExisting, now);
      var (next, o) := ImportStep(prev, ps[i], updateExisting, now);
      ImportAll(st, ps[..i + 1], updateExisting, now) == (next, Record(res, ps[i].name, o).(total := i + 1))
  {
    PrefixOfPrefix(ps, i);
  }

  /**
   * The outcome of one provider: an error exactly when the name is new to
   * the database but already in the registry, creation when it is new to
   * both, and update or skip for a known name as `update_existing` says.
   */
  lemma ImportStepOutcome(st: Store, p: ProviderMetadata, updateExisting: bool, now: int)
    ensures var o := ImportStep(st, p, updateExisting, now).1;
      && (o.Failed? <==> p.name !in st.db && p.name in st.providers)
      && (o.Failed? ==> o.error == "Provider " + p.name + " already registered")
      && (o == Imported <==> p.name !in st.db && p.name !in st.providers)
      && (o == Updated <==> p.name in st.db && updateExisting)
      && (o == Skipped <==> p.name in st.db && !updateExisting)
  {
  }

  /** Every provider lands in exactly one of the four lists, and nothing is updated without `update_existing`. */
  lemma {:induction false} ImportAllPartition(st: Store, ps: seq<ProviderMetadata>, updateExisting: bool, now: int)
    ensures var r := ImportAll(st, ps, updateExisting, now).1;
      && |r.imported| + |r.updated| + |r.skipped| + |r.errors| == |ps|
      && (!updateExisting ==> r.updated == [])
  {
    if ps != [] {
      ImportAllPartition(st, ps[..|ps| - 1], updateExisting, now);
    }
  }

  /** After the import every provider's name is in the database -- those filed as errors included. */
  lemma {:induction false} ImportAllStoresEvery(st: Store, ps: seq<ProviderMetadata>, updateExisting: bool, now: int)
    ensures st.db.Keys <= ImportAll(st, ps, updateExisting, now).0.db.Keys
    ensures forall i :: 0 <= i < |ps| ==> ps[i].name in ImportAll(st, ps, updateExisting, now).0.db
  {
    if ps != [] {
      var prefix := ps[..|ps| - 1];
      ImportAllStoresEvery(st, prefix, updateExisting, now);
      ImportAllLast(st, ps, updateExisting, now);
      ImportStepStores(ImportAll(st, prefix, updateExisting, now).0, ps[|ps| - 1], updateExisting, now);
      forall i | 0 <= i < |ps| - 1
        ensures ps[i].name == prefix[i].name
      {
      }
    }
  }

  /** The state after importing a non-empty list is one step from the state after all but its last provider. */
  lemma ImportAllLast(st: Store, ps: seq<ProviderMetadata>, updateExisting: bool, now: int)
    requires ps != []
    ensures ImportAll(st, ps, updateExisting, now).0
      == ImportStep(ImportAll(st, ps[..|ps| - 1], updateExisting, now).0, ps[|ps| - 1], updateExisting, now).0
  {
  }

  /** One import step keeps every name in the database and adds the provider's own. */
  lemma ImportStepStores(st: Store, p: ProviderMetadata, updateExisting: bool, now: int)
    ensures st.db.Keys <= ImportStep(st, p, updateExisting, now).0.db.Keys
    ensures p.name in ImportStep(st, p, updateExisting, now).0.db
  {
  }

  /** Without `update_existing`, a record in the database before the import is left as it was. */
  lemma {:induction false} ImportAllKeepsExisting(st: Store, ps: seq<ProviderMetadata>, now: int, name: string)
    requires name in st.db
    ensures name in ImportAll(st, ps, false, now).0.db && ImportAll(st, ps, false, now).0.db[name] == st.db[name]
  {
    if ps != [] {
      ImportAllKeepsExisting(st, ps[..|ps| - 1], now, name);
    }
  }

  /** The import keeps the database and the registry sound. */
  lemma {:induction false} ImportAllSound(st: Store, ps: seq<ProviderMetadata>, updateExisting: bool, now: int)
    requires Sound(st)
    ensures Sound(ImportAll(st, ps, updateExisting, now).0)
  {
    if ps != [] {
      var prev := ImportAll(st, ps[..|ps| - 1], updateExisting, now).0;
      var last := ps[|ps| - 1];
      ImportAllSound(st, ps[..|ps| - 1], updateExisting, now);
      CreateSound(prev, last, None, None, now);
      UpdateSound(prev, last, None, None, now);
    }
  }

  class Manager {
    const registry: Registry
    var db: map<string, Stored>

    ghost predicate Valid()
      reads this, registry
    {
      registry.Valid() && forall n :: n in db ==> db[n].meta.name == n
    }

    function State(): Store
      reads this, registry
    {
      Store(db, registry.providers, registry.order)
    }

    constructor (registry: Registry, db: map<string, Stored>)
      requires registry.Valid() && forall n :: n in db ==> db[n].meta.name == n
      ensures Valid() && this.registry == registry && this.db == db
    {
      this.registry := registry;
      this.db := db;
    }

    /** `get`: the stored record under the name, if any. */
    function Get(name: string): (r: Option<Stored>)
      reads this
      ensures r.Some? <==> name in db
      ensures r.Some? ==> r.value == db[name]
    {
      if name in db then Some(db[name]) else None
    }

    method Create(p: ProviderMetadata, apiKey: Option<string>, apiSecret: Option<string>, now: int)
      returns (r: Result<Stored>)
      requires Valid()
      modifies this, registry
      ensures Valid()
      ensures (State(), r) == AfterCreate(old(State()), p, apiKey, apiSecret, now)
    {
      if p.name in db {
        return Err("Provider " + p.name + " already exists");
      }
      var rec := Stored(p, apiKey, apiSecret, now, now);
      db := db[p.name := rec];
      var registered := registry.Register(p);
      if registered.Err? {
        return Err(registered.error);
      }
      return Ok(rec);
    }

    method Update(p: ProviderMetadata, apiKey: Option<string>, apiSecret: Option<string>, now: int)
      returns (r: Result<Stored>)
      requires Valid()
      modifies this, registry
      ensures Valid()
      ensures (State(), r) == AfterUpdate(old(State()), p, apiKey, apiSecret, now)
    {
      if p.name !in db {
        return Err("Provider " + p.name + " not found");
      }
      var rec := Refreshed(db[p.name], p, apiKey, apiSecret, now);
      db := db[p.name := rec];
      var _ := registry.Unregister(p.name);
      var registered := registry.Register(p);
      assert registered.Ok?;
      return Ok(rec);
    }

    /** `delete`: true exactly when a record was deleted; the registry then forgets the name too. */
    method Delete(name: string) returns (deleted: bool)
      requires Valid()
      modifies this, registry
      ensures Valid()
      ensures deleted == (name in old(db))
      ensures !deleted ==> db == old(db) && registry.providers == old(registry.providers)
      ensures !deleted ==> registry.order == old(registry.order)
      ensures deleted ==> db == old(db) - {name} && registry.providers == old(registry.providers) - {name}
      ensures deleted ==> registry.order == RemoveFirst(old(registry.order), name)
    {
      if name !in db {
        return false;
      }
      db := db - {name};
      var _ := registry.Unregister(name);
      return true;
    }

    /** One provider of `import_batch`. */
    method ImportOne(p: ProviderMetadata, updateExisting: bool, now: int) returns (o: Outcome)
      requires Valid()
      modifies this, registry
      ensures Valid()
      ensures (State(), o) == ImportStep(old(State()), p, updateExisting, now)
    {
      if p.name in db {
        if updateExisting {
          var _ := Update(p, None, None, now);
          o := Updated;
        } else {
          o := Skipped;
        }
      } else {
        var created := Create(p, None, None, now);
        o := if created.Ok? then Imported else Failed(created.error);
      }
    }

    /** `import_batch`: each provider skipped, updated, created or filed as an error, in order. */
    method ImportBatch(ps: seq<ProviderMetadata>, updateExisting: bool, now: int) returns (res: ImportResult)
      requires Valid()
      modifies this, registry
      ensures Valid()
      ensures (State(), res) == ImportAll(old(State()), ps, updateExisting, now)
    {
      ghost var st0 := State();
      res := ImportResult([], [], [], [], 0);
      var i := 0;
      while i < |ps|
        invariant 0 <= i <= |ps|
        invariant Valid()
        invariant (State(), res) == ImportAll(st0, ps[..i], updateExisting, now)
      {
        ImportAllStep(st0, ps, updateExisting, now, i);
        var o := ImportOne(ps[i], updateExisting, now);
        res := Record(res, ps[i].name, o).(total := i + 1);
        i := i + 1;
      }
      FullPrefix(ps);
    }
  }
}
