// The data-source manager: one cached adapter per source, adapters ordered
// by preference and priority, and data fetched from the first adapter that
// delivers.
module DataSourceManager {
  import opened Wrappers
  import opened Seqs
  import opened Sorting
  import opened DataSourceRegistry

  /** An adapter instance: the source it serves and the `name` its class gives it. */
  datatype Adapter = Adapter(sourceId: string, name: string)

  /**
   * The adapter classes as the manager sees them, per source id: whether
   * instantiating raises (and with which message), what `is_available()`
   * answers, and the adapter's name.
   */
  datatype Env = Env(construct: string -> Option<string>, available: string -> bool, adapterName: string -> string)

  /** `get_adapter` instantiates the source's adapter class: a registered source, no instance yet, a class. */
  predicate Attempts(instances: map<string, Adapter>, sources: map<string, DataSource>, id: string)
  {
    id in sources && id !in instances && sources[id].hasAdapterClass
  }

  /** ... and the instantiation succeeds. */
  predicate Constructs(instances: map<string, Adapter>, sources: map<string, DataSource>, id: string, env: Env)
  {
    Attempts(instances, sources, id) && env.construct(id).None?
  }

  /** What `get_adapter` returns: the cached instance, else a new one, else None. */
  function Obtain(instances: map<string, Adapter>, sources: map<string, DataSource>, id: string, env: Env)
    : (a: Option<Adapter>)
    ensures a.Some? ==> id in sources && a.value.sourceId == (if id in instances then instances[id].sourceId else id)
    ensures a.Some? <==> id in sources && (id in instances || Constructs(instances, sources, id, env))
  {
    if id !in sources then None
    else if id in instances then Some(instances[id])
    else if Constructs(instances, sources, id, env) then Some(Adapter(id, env.adapterName(id)))
    else None
  }

  /** The record after an instantiation attempt: available, unavailable, or in error with the raised message. */
  function ProbeResult(s: DataSource, env: Env, now: int): (r: DataSource)
    ensures env.construct(s.sourceId).Some? ==> r == Checked(s, Error, env.construct(s.sourceId), now)
    ensures env.construct(s.sourceId).None? && env.available(s.sourceId) ==> r == Checked(s, Available, None, now)
    ensures env.construct(s.sourceId).None? && !env.available(s.sourceId) ==>
      r == Checked(s, Unavailable, Some("Adapter not available"), now)
  {
    match env.construct(s.sourceId)
    case Some(e) => Checked(s, Error, Some(e), now)
    case None =>
      if env.available(s.sourceId) then Checked(s, Available, None, now)
      else Checked(s, Unavailable, Some("Adapter not available"), now)
  }

  /** The records after `get_adapter`. */
  function Probe(sources: map<string, DataSource>, instances: map<string, Adapter>, id: string, env: Env, now: int)
    : map<string, DataSource>
  {
    if Attempts(instances, sources, id) then sources[id := ProbeResult(sources[id], env, now)] else sources
  }

  /** The instances after `get_adapter`. */
  function Cached(instances: map<string, Adapter>, sources: map<string, DataSource>, id: string, env: Env)
    : map<string, Adapter>
  {
    if Constructs(instances, sources, id, env) then instances[id := Adapter(id, env.adapterName(id))] else instances
  }

  /** A second `get_adapter` for a source just instantiated returns the same adapter and changes nothing. */
  lemma SecondCallCached(instances: map<string, Adapter>, sources: map<string, DataSource>, id: string,
                         env: Env, now: int)
    requires Constructs(instances, sources, id, env)
    ensures var sources' := Probe(sources, instances, id, env, now);
      var instances' := Cached(instances, sources, id, env);
      && Obtain(instances', sources', id, env) == Obtain(instances, sources, id, env)
      && !Attempts(instances', sources', id)
  {
  }

  // ----- The order of `get_available_adapters` -----

  /** `priority_map.get(name, 999)`: the last position of the name among the preferred sources. */
  function PrefKey(preferred: seq<string>, name: string): (k: int)
    ensures name in preferred ==>
      0 <= k < |preferred| && preferred[k] == name && forall j :: k < j < |preferred| ==> preferred[j] != name
    ensures name !in preferred ==> k == 999
  {
    if preferred == [] then 999
    else if preferred[|preferred| - 1] == name then |preferred| - 1
    else PrefKey(preferred[..|preferred| - 1], name)
  }

  function PrefKeyFor(preferred: seq<string>): DataSource -> int
  {
    (s: DataSource) => PrefKey(preferred, s.name)
  }

  function IsPreferred(preferred: seq<string>): DataSource -> bool
  {
    (s: DataSource) => s.name in preferred
  }

  function NotPreferred(preferred: seq<string>): DataSource -> bool
  {
    (s: DataSource) => s.name !in preferred
  }

  /** The sources reordered: the preferred ones first, by preferred position, then the others. */
  function Arranged(xs: seq<DataSource>, preferred: seq<string>): seq<DataSource>
  {
    if preferred == [] then xs
    else SortBy(Filter(xs, IsPreferred(preferred)), PrefKeyFor(preferred)) + Filter(xs, NotPreferred(preferred))
  }

  /** A subsequence of a sequence sorted by `key` is sorted by it. */
  lemma {:induction false} FilterSorted(s: seq<DataSource>, p: DataSource -> bool, key: DataSource -> int)
    requires Sorted(s, key)
    ensures Sorted(Filter(s, p), key)
  {
    if s != [] {
      var tail := Filter(s[1..], p);
      FilterSorted(s[1..], p, key);
      forall j | 0 <= j < |tail|
        ensures key(s[0]) <= key(tail[j])
      {
        assert tail[j] in s[1..];
        var i :| 0 <= i < |s[1..]| && s[1..][i] == tail[j];
        assert s[i + 1] == tail[j];
      }
    }
  }

  /** The reordering keeps every source, each as often. */
  lemma ArrangedPermutes(xs: seq<DataSource>, preferred: seq<string>)
    ensures multiset(Arranged(xs, preferred)) == multiset(xs)
  {
    if preferred != [] {
      var pref := Filter(xs, IsPreferred(preferred));
      SortByPermutes(pref, PrefKeyFor(preferred));
      FilterSplit(xs, IsPreferred(preferred), NotPreferred(preferred));
    }
  }

  lemma SortedPreferredMember(xs: seq<DataSource>, preferred: seq<string>, x: DataSource)
    requires x in SortBy(Filter(xs, IsPreferred(preferred)), PrefKeyFor(preferred))
    ensures x.name in preferred
  {
    var pref := Filter(xs, IsPreferred(preferred));
    SortByPermutes(pref, PrefKeyFor(preferred));
    assert x in multiset(SortBy(pref, PrefKeyFor(preferred)));
    FilterMembers(xs, IsPreferred(preferred), x);
  }

  /** The sources before position `n` (the number of preferred ones) are preferred. */
  lemma ArrangedHead(xs: seq<DataSource>, preferred: seq<string>)
    requires preferred != []
    ensures var a := Arranged(xs, preferred);
      var n := |Filter(xs, IsPreferred(preferred))|;
      n <= |a| && forall i :: 0 <= i < n ==> a[i].name in preferred
  {
    var sorted := SortBy(Filter(xs, IsPreferred(preferred)), PrefKeyFor(preferred));
    var a := sorted + Filter(xs, NotPreferred(preferred));
    forall i | 0 <= i < |sorted|
      ensures a[i].name in preferred
    {
      assert a[i] == sorted[i];
      SortedPreferredMember(xs, preferred, sorted[i]);
    }
  }

  /** The sources from position `n` on are not preferred. */
  lemma ArrangedTail(xs: seq<DataSource>, preferred: seq<string>)
    requires preferred != []
    ensures var a := Arranged(xs, preferred);
      var n := |Filter(xs, IsPreferred(preferred))|;
      n <= |a| && forall i :: n <= i < |a| ==> a[i].name !in preferred
  {
    var sorted := SortBy(Filter(xs, IsPreferred(preferred)), PrefKeyFor(preferred));
    var others := Filter(xs, NotPreferred(preferred));
    var a := sorted + others;
    var n := |sorted|;
    forall i | n <= i < |a|
      ensures a[i].name !in preferred
    {
      assert a[i] == others[i - n];
      FilterMembers(xs, NotPreferred(preferred), others[i - n]);
    }
  }

  /** Exactly the preferred sources come first. */
  lemma ArrangedPreferredFirst(xs: seq<DataSource>, preferred: seq<string>)
    requires preferred != []
    ensures var a := Arranged(xs, preferred);
      var n := |Filter(xs, IsPreferred(preferred))|;
      && n <= |a|
      && (forall i :: 0 <= i < |a| ==> (a[i].name in preferred <==> i < n))
  {
    ArrangedHead(xs, preferred);
    ArrangedTail(xs, preferred);
  }

  /** The preferred sources come in the order of their (last) position among the preferred names. */
  lemma ArrangedPreferredOrder(xs: seq<DataSource>, preferred: seq<string>)
    requires preferred != []
    ensures var a := Arranged(xs, preferred);
      var n := |Filter(xs, IsPreferred(preferred))|;
      forall i, j :: 0 <= i < j < n ==> PrefKey(preferred, a[i].name) <= PrefKey(preferred, a[j].name)
  {
    var pref := Filter(xs, IsPreferred(preferred));
    var sorted := SortBy(pref, PrefKeyFor(preferred));
    var a := sorted + Filter(xs, NotPreferred(preferred));
    SortBySorts(pref, PrefKeyFor(preferred));
    forall i, j | 0 <= i < j < |pref|
      ensures PrefKey(preferred, a[i].name) <= PrefKey(preferred, a[j].name)
    {
      assert a[i] == sorted[i] && a[j] == sorted[j];
      assert PrefKeyFor(preferred)(sorted[i]) <= PrefKeyFor(preferred)(sorted[j]);
    }
  }

  /** After the preferred block, a priority-sorted listing stays priority-sorted. */
  lemma ArrangedOthersByPriority(xs: seq<DataSource>, preferred: seq<string>)
    requires preferred != [] && Sorted(xs, Rank)
    ensures var a := Arranged(xs, preferred);
      var n := |Filter(xs, IsPreferred(preferred))|;
      forall i, j :: n <= i < j < |a| ==> a[i].priority >= a[j].priority
  {
    var pref := Filter(xs, IsPreferred(preferred));
    var others := Filter(xs, NotPreferred(preferred));
    var a := SortBy(pref, PrefKeyFor(preferred)) + others;
    var n := |pref|;
    FilterSorted(xs, NotPreferred(preferred), Rank);
    forall i, j | n <= i < j < |a|
      ensures a[i].priority >= a[j].priority
    {
      assert a[i] == others[i - n] && a[j] == others[j - n];
      assert Rank(others[i - n]) <= Rank(others[j - n]);
    }
  }

  /** The adapters `get_available_adapters` collects from the arranged sources. */
  function Usable(xs: seq<DataSource>, instances: map<string, Adapter>, sources: map<string, DataSource>, env: Env)
    : (r: seq<Adapter>)
    ensures |r| <= |xs|
  {
    if xs == [] then []
    else
      var last := xs[|xs| - 1];
      var a := Obtain(instances, sources, last.sourceId, env);
      Usable(xs[..|xs| - 1], instances, sources, env) + (if a.Some? && env.available(last.sourceId) then [a.value] else [])
  }

  /** The records once every id in `seen` has been through `get_adapter`, starting from `sources`. */
  function ProbeAll(sources: map<string, DataSource>, instances: map<string, Adapter>, seen: set<string>,
                    env: Env, now: int): map<string, DataSource>
  {
    map id | id in sources :: if id in seen && Attempts(instances, sources, id) then ProbeResult(sources[id], env, now)
                              else sources[id]
  }

  /** The instances once every id in `seen` has been through `get_adapter`. */
  function BuiltAll(instances: map<string, Adapter>, sources: map<string, DataSource>, seen: set<string>, env: Env)
    : map<string, Adapter>
  {
    map id | id in instances.Keys + seen && (id in instances || Constructs(instances, sources, id, env)) ::
      if id in instances then instances[id] else Adapter(id, env.adapterName(id))
  }

  function SourceIds(xs: seq<DataSource>): set<string>
  {
    set s | s in xs :: s.sourceId
  }

  lemma SourceIdsSnoc(xs: seq<DataSource>, i: int)
    requires 0 <= i < |xs|
    ensures SourceIds(xs[..i + 1]) == SourceIds(xs[..i]) + {xs[i].sourceId}
  {
    assert xs[..i + 1] == xs[..i] + [xs[i]];
  }

  lemma UsableSnoc(xs: seq<DataSource>, i: int, instances: map<string, Adapter>, sources: map<string, DataSource>,
                   env: Env)
    requires 0 <= i < |xs|
    ensures var a := Obtain(instances, sources, xs[i].sourceId, env);
      Usable(xs[..i + 1], instances, sources, env)
      == Usable(xs[..i], instances, sources, env) + (if a.Some? && env.available(xs[i].sourceId) then [a.value] else [])
  {
    PrefixOfPrefix(xs, i);
  }

  lemma ProbeAllEmpty(sources: map<string, DataSource>, instances: map<string, Adapter>, env: Env, now: int)
    ensures ProbeAll(sources, instances, {}, env, now) == sources
    ensures BuiltAll(instances, sources, {}, env) == instances
  {
  }

  /** Probing with what is already cached: the adapter is the one the first state gives. */
  lemma ObtainStep(sources: map<string, DataSource>, instances: map<string, Adapter>, seen: set<string>,
                   env: Env, now: int, id: string)
    ensures Obtain(BuiltAll(instances, sources, seen, env), ProbeAll(sources, instances, seen, env, now), id, env)
            == Obtain(instances, sources, id, env)
  {
  }

  /** A second probe of a source gives what the first gave. */
  lemma ProbeAgain(s: DataSource, env: Env, now: int)
    ensures ProbeResult(ProbeResult(s, env, now), env, now) == ProbeResult(s, env, now)
  {
  }

  /** One more `get_adapter` in the loop: the records advance by that id. */
  lemma ProbeStep(sources: map<string, DataSource>, instances: map<string, Adapter>, seen: set<string>,
                  env: Env, now: int, id: string)
    ensures Probe(ProbeAll(sources, instances, seen, env, now), BuiltAll(instances, sources, seen, env), id, env, now)
            == ProbeAll(sources, instances, seen + {id}, env, now)
  {
    var cur := ProbeAll(sources, instances, seen, env, now);
    var inst := BuiltAll(instances, sources, seen, env);
    var lhs := Probe(cur, inst, id, env, now);
    var rhs := ProbeAll(sources, instances, seen + {id}, env, now);
    assert lhs.Keys == rhs.Keys;
    forall k | k in lhs
      ensures lhs[k] == rhs[k]
    {
      if k == id && Attempts(inst, cur, id) {
        assert Attempts(instances, sources, id);
        if id in seen {
          ProbeAgain(sources[id], env, now);
        }
      }
    }
  }

  /** One more `get_adapter` in the loop: the instances advance by that id. */
  lemma CachedStep(sources: map<string, DataSource>, instances: map<string, Adapter>, seen: set<string>,
                   env: Env, now: int, id: string)
    ensures Cached(BuiltAll(instances, sources, seen, env), ProbeAll(sources, instances, seen, env, now), id, env)
            == BuiltAll(instances, sources, seen + {id}, env)
  {
    var cur := ProbeAll(sources, instances, seen, env, now);
    var inst := BuiltAll(instances, sources, seen, env);
    var lhs := Cached(inst, cur, id, env);
    var rhs := BuiltAll(instances, sources, seen + {id}, env);
    assert lhs.Keys == rhs.Keys;
  }

  // ----- Fetching with fallback -----

  /** What one adapter call does: raise, or return data (possibly empty). */
  datatype Fetch<D> = Raised(error: string) | Returned(data: D)

  /** The adapter delivers: its call returns non-empty data. */
  predicate Serves<D>(a: Adapter, fetch: Adapter -> Fetch<D>, nonEmpty: D -> bool)
  {
    fetch(a).Returned? && nonEmpty(fetch(a).data)
  }

  /** Adapter `i` is the first that delivers. */
  predicate First<D>(adapters: seq<Adapter>, fetch: Adapter -> Fetch<D>, nonEmpty: D -> bool, i: int)
  {
    && 0 <= i < |adapters| && Serves(adapters[i], fetch, nonEmpty)
    && forall j :: 0 <= j < i ==> !Serves(adapters[j], fetch, nonEmpty)
  }

  /** The first adapter's non-empty result, with the adapter's name; None when no adapter delivers. */
  function FirstResult<D>(adapters: seq<Adapter>, fetch: Adapter -> Fetch<D>, nonEmpty: D -> bool)
    : Option<(D, string)>
  {
    if adapters == [] then None
    else if Serves(adapters[0], fetch, nonEmpty) then Some((fetch(adapters[0]).data, adapters[0].name))
    else FirstResult(adapters[1..], fetch, nonEmpty)
  }

  /**
   * The result comes from the first adapter that delivers, every adapter
   * before it raised or returned nothing, and there is no result exactly
   * when no adapter delivers.
   */
  lemma {:induction false} FirstResultSpec<D>(adapters: seq<Adapter>, fetch: Adapter -> Fetch<D>, nonEmpty: D -> bool)
    ensures var r := FirstResult(adapters, fetch, nonEmpty);
      && (r.None? <==> forall i :: 0 <= i < |adapters| ==> !Serves(adapters[i], fetch, nonEmpty))
      && (r.Some? ==> exists i :: First(adapters, fetch, nonEmpty, i) && r.value == (fetch(adapters[i]).data, adapters[i].name))
  {
    if adapters != [] {
      FirstResultSpec(adapters[1..], fetch, nonEmpty);
      var r := FirstResult(adapters, fetch, nonEmpty);
      if !Serves(adapters[0], fetch, nonEmpty) {
        if r.Some? {
          var i :| First(adapters[1..], fetch, nonEmpty, i)
                   && r.value == (fetch(adapters[1..][i]).data, adapters[1..][i].name);
          assert adapters[i + 1] == adapters[1..][i];
          forall j | 0 <= j < i + 1
            ensures !Serves(adapters[j], fetch, nonEmpty)
          {
            if j > 0 {
              assert adapters[j] == adapters[1..][j - 1];
            }
          }
        } else {
          forall i | 0 <= i < |adapters|
            ensures !Serves(adapters[i], fetch, nonEmpty)
          {
            if i > 0 {
              assert adapters[i] == adapters[1..][i - 1];
            }
          }
        }
      } else {
        assert First(adapters, fetch, nonEmpty, 0);
      }
    }
  }

  /** The fallback loop of `get_stock_list` and its siblings. */
  method Fallback<D>(adapters: seq<Adapter>, fetch: Adapter -> Fetch<D>, nonEmpty: D -> bool)
    returns (r: Option<(D, string)>)
    ensures r == FirstResult(adapters, fetch, nonEmpty)
  {
    var i := 0;
    while i < |adapters|
      invariant 0 <= i <= |adapters|
      invariant FirstResult(adapters, fetch, nonEmpty) == FirstResult(adapters[i..], fetch, nonEmpty)
    {
      assert adapters[i..][1..] == adapters[i + 1..];
      var result := fetch(adapters[i]);
      if result.Returned? && nonEmpty(result.data) {
        return Some((result.data, adapters[i].name));
      }
      i := i + 1;
    }
    return None;
  }

  class Manager {
    const registry: Registry
    var instances: map<string, Adapter>
    /** Every successful instantiation, in order. */
    ghost var built: seq<string>

    /** The registry is consistent and each source's adapter was instantiated at most once. */
    ghost predicate Valid()
      reads this, registry
    {
      && registry.Valid()
      && NoDup(built)
      && (forall id :: id in built <==> id in instances)
      && (forall id :: id in instances ==> instances[id].sourceId == id)
    }

    constructor (registry: Registry)
      requires registry.Valid()
      ensures Valid() && this.registry == registry && instances == map[]
    {
      this.registry := registry;
      instances := map[];
      built := [];
    }

    /**
     * `get_adapter`: the cached adapter, else a new instance (cached, and the
     * source's status set from `is_available()`), else None; a failing
     * instantiation marks the source as in error.
     */
    method GetAdapter(sourceId: string, env: Env, now: int) returns (a: Option<Adapter>)
      requires Valid()
      modifies this, registry
      ensures Valid()
      ensures a == Obtain(old(instances), old(registry.sources), sourceId, env)
      ensures instances == Cached(old(instances), old(registry.sources), sourceId, env)
      ensures built == old(built) + (if Constructs(old(instances), old(registry.sources), sourceId, env) then [sourceId] else [])
      ensures registry.sources == Probe(old(registry.sources), old(instances), sourceId, env, now)
      ensures registry.order == old(registry.order) && registry.byType == old(registry.byType)
      ensures registry.byMarket == old(registry.byMarket)
    {
      var metadata := registry.Get(sourceId);
      if metadata.None? {
        return None;
      }
      if sourceId in instances {
        return Some(instances[sourceId]);
      }
      if !metadata.value.hasAdapterClass {
        return None;
      }
      var raised := env.construct(sourceId);
      if raised.Some? {
        var _ := registry.UpdateStatus(sourceId, Error, raised, now);
        return None;
      }
      ghost var instances0, sources0 := instances, registry.sources;
      assert Constructs(instances0, sources0, sourceId, env);
      var adapter := Adapter(sourceId, env.adapterName(sourceId));
      NoDupSnoc(built, sourceId);
      instances := instances[sourceId := adapter];
      built := built + [sourceId];
      assert instances == Cached(instances0, sources0, sourceId, env);
      if env.available(sourceId) {
        var _ := registry.UpdateStatus(sourceId, Available, None, now);
      } else {
        var _ := registry.UpdateStatus(sourceId, Unavailable, Some("Adapter not available"), now);
      }
      return Some(adapter);
    }

    /** The sources `get_available_adapters` walks: available and enabled, arranged by preference. */
    function Candidates(market: Option<string>, preferred: seq<string>): seq<DataSource>
      reads this, registry
    {
      Arranged(Listed(registry.sources, registry.order, registry.byType, registry.byMarket,
                      None, market, Some(Available), Some(true), []), preferred)
    }

    /**
     * `get_available_adapters`: the adapters of the candidate sources, in
     * candidate order, that can be obtained and report themselves available.
     */
    method GetAvailableAdapters(market: Option<string>, preferred: seq<string>, env: Env, now: int)
      returns (adapters: seq<Adapter>)
      requires Valid()
      modifies this, registry
      ensures Valid()
      ensures adapters == Usable(old(Candidates(market, preferred)), old(instances), old(registry.sources), env)
      ensures registry.sources == ProbeAll(old(registry.sources), old(instances),
                                           SourceIds(old(Candidates(market, preferred))), env, now)
      ensures instances == BuiltAll(old(instances), old(registry.sources),
                                    SourceIds(old(Candidates(market, preferred))), env)
    {
      var sources := registry.List(None, market, Some(Available), Some(true), []);
      if preferred != [] {
        sources := Arranged(sources, preferred);
      }
      adapters := ProbeEach(sources, env, now);
    }

    /** The loop of `get_available_adapters`: each source through `get_adapter`, keeping the available adapters. */
    method ProbeEach(sources: seq<DataSource>, env: Env, now: int) returns (adapters: seq<Adapter>)
      requires Valid()
      modifies this, registry
      ensures Valid()
      ensures adapters == Usable(sources, old(instances), old(registry.sources), env)
      ensures registry.sources == ProbeAll(old(registry.sources), old(instances), SourceIds(sources), env, now)
      ensures instances == BuiltAll(old(instances), old(registry.sources), SourceIds(sources), env)
    {
      ghost var s0, i0 := registry.sources, instances;
      ghost var seen: set<string> := {};
      ProbeAllEmpty(s0, i0, env, now);
      assert sources[..0] == [];
      assert SourceIds([]) == {};
      adapters := [];
      var i := 0;
      while i < |sources|
        invariant 0 <= i <= |sources|
        invariant Valid()
        invariant seen == SourceIds(sources[..i])
        invariant registry.sources == ProbeAll(s0, i0, seen, env, now)
        invariant instances == BuiltAll(i0, s0, seen, env)
        invariant adapters == Usable(sources[..i], i0, s0, env)
      {
        var id := sources[i].sourceId;
        ObtainStep(s0, i0, seen, env, now, id);
        ProbeStep(s0, i0, seen, env, now, id);
        CachedStep(s0, i0, seen, env, now, id);
        UsableSnoc(sources, i, i0, s0, env);
        SourceIdsSnoc(sources, i);
        ghost var expected := Usable(sources[..i + 1], i0, s0, env);
        seen := seen + {id};
        var a := GetAdapter(id, env, now);
        if a.Some? && env.available(id) {
          adapters := adapters + [a.value];
        }
        assert adapters == expected;
        i := i + 1;
        assert adapters == Usable(sources[..i], i0, s0, env);
        assert seen == SourceIds(sources[..i]);
      }
      FullPrefix(sources);
    }

    /** `get_stock_list` and its siblings: the available adapters, tried in order until one delivers. */
    method FetchWithFallback<D>(market: Option<string>, preferred: seq<string>, env: Env, now: int,
                                fetch: Adapter -> Fetch<D>, nonEmpty: D -> bool) returns (r: Option<(D, string)>)
      requires Valid()
      modifies this, registry
      ensures Valid()
      ensures r == FirstResult(Usable(old(Candidates(market, preferred)), old(instances), old(registry.sources), env),
                               fetch, nonEmpty)
    {
      var adapters := GetAvailableAdapters(market, preferred, env, now);
      r := Fallback(adapters, fetch, nonEmpty);
    }

    /**
     * `check_availability`: with an adapter, its `is_available()` answer,
     * recorded as the status (clearing any error message); without one, false.
     */
    method CheckAvailability(sourceId: string, env: Env, now: int) returns (available: bool)
      requires Valid()
      modifies this, registry
      ensures Valid()
      ensures available <==> Obtain(old(instances), old(registry.sources), sourceId, env).Some? && env.available(sourceId)
      ensures instances == Cached(old(instances), old(registry.sources), sourceId, env)
      ensures Obtain(old(instances), old(registry.sources), sourceId, env).None? ==>
        registry.sources == Probe(old(registry.sources), old(instances), sourceId, env, now)
      ensures Obtain(old(instances), old(registry.sources), sourceId, env).Some? ==>
        var probed := Probe(old(registry.sources), old(instances), sourceId, env, now);
        registry.sources == probed[sourceId := Checked(probed[sourceId], if env.available(sourceId) then Available
                                                                         else Unavailable, None, now)]
    {
      var a := GetAdapter(sourceId, env, now);
      if a.None? {
        return false;
      }
      available := env.available(sourceId);
      var _ := registry.UpdateStatus(sourceId, if available then Available else Unavailable, None, now);
    }
  }
}
