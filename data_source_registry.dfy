// The data-source registry: market-data sources keyed by id, with a type
// index and a market index, listed highest priority first.
module DataSourceRegistry {
  import opened Wrappers
  import opened Seqs
  import opened Index
  import opened Listing
  import opened Sorting
  import Values
  import Text

  datatype SourceStatus = Registered | Available | Unavailable | Error | Deprecated

  datatype SourceType = Stock | Futures | Forex | Crypto | News | Social | Custom

  /**
   * Data-source metadata. The adapter class is recorded only as present or
   * absent; the adapter instances live in the manager. Timestamps are clock
   * readings.
   */
  datatype DataSource = DataSource(
    sourceId: string,
    name: string,
    displayName: string,
    description: Option<string>,
    sourceType: SourceType,
    version: string,
    author: string,
    priority: int,
    enabled: bool,
    config: Values.Dict,
    supportedMarkets: seq<string>,
    supportedFeatures: seq<string>,
    hasAdapterClass: bool,
    status: SourceStatus,
    lastCheck: Option<int>,
    errorMessage: Option<string>,
    tags: seq<string>,
    website: Option<string>,
    documentationUrl: Option<string>,
    createdAt: int,
    updatedAt: int)

  /**
   * The record `register` builds from its keyword arguments (passed here as
   * the fields of `f`): the status starts at registered, nothing has been
   * checked yet and both timestamps are the registration time.
   */
  function NewRecord(f: DataSource, now: int): (r: DataSource)
    ensures r.status == Registered && r.lastCheck == None && r.errorMessage == None
    ensures r.createdAt == now && r.updatedAt == now
    ensures r.(status := f.status, lastCheck := f.lastCheck, errorMessage := f.errorMessage,
               createdAt := f.createdAt, updatedAt := f.updatedAt) == f
  {
    f.(status := Registered, lastCheck := None, errorMessage := None, createdAt := now, updatedAt := now)
  }

  /** The record after `update_status`: status, check time, error message and update time. */
  function Checked(s: DataSource, status: SourceStatus, errorMessage: Option<string>, now: int): (r: DataSource)
    ensures r.status == status && r.lastCheck == Some(now) && r.errorMessage == errorMessage && r.updatedAt == now
    ensures r.(status := s.status, lastCheck := s.lastCheck, errorMessage := s.errorMessage, updatedAt := s.updatedAt) == s
  {
    s.(status := status, lastCheck := Some(now), errorMessage := errorMessage, updatedAt := now)
  }

  ghost function TypeKeys(sources: map<string, DataSource>): map<string, seq<SourceType>>
  {
    map id | id in sources :: [sources[id].sourceType]
  }

  ghost function MarketKeys(sources: map<string, DataSource>): map<string, seq<string>>
  {
    map id | id in sources :: sources[id].supportedMarkets
  }

  ghost predicate IdsMatch(sources: map<string, DataSource>)
  {
    forall id :: id in sources ==> sources[id].sourceId == id
  }

  /**
   * `order` lists each source once (the key order of `_sources`); each id
   * sits once in the bucket of its type and once per occurrence of a market
   * in that market's bucket.
   */
  ghost predicate Consistent(sources: map<string, DataSource>, order: seq<string>,
                             byType: map<SourceType, seq<string>>, byMarket: map<string, seq<string>>)
  {
    && Ordered(order, sources)
    && IdsMatch(sources)
    && Indexed(byType, TypeKeys(sources))
    && Indexed(byMarket, MarketKeys(sources))
  }

  lemma KeysAfterPut(sources: map<string, DataSource>, s: DataSource)
    ensures TypeKeys(sources)[s.sourceId := [s.sourceType]] == TypeKeys(sources[s.sourceId := s])
    ensures MarketKeys(sources)[s.sourceId := s.supportedMarkets] == MarketKeys(sources[s.sourceId := s])
  {
    TypeKeysAfterPut(sources, s);
    MarketKeysAfterPut(sources, s);
  }

  lemma TypeKeysAfterPut(sources: map<string, DataSource>, s: DataSource)
    ensures TypeKeys(sources)[s.sourceId := [s.sourceType]] == TypeKeys(sources[s.sourceId := s])
  {
  }

  lemma MarketKeysAfterPut(sources: map<string, DataSource>, s: DataSource)
    ensures MarketKeys(sources)[s.sourceId := s.supportedMarkets] == MarketKeys(sources[s.sourceId := s])
  {
  }

  lemma KeysAfterRemove(sources: map<string, DataSource>, id: string)
    ensures TypeKeys(sources) - {id} == TypeKeys(sources - {id})
    ensures MarketKeys(sources) - {id} == MarketKeys(sources - {id})
  {
    TypeKeysAfterRemove(sources, id);
    MarketKeysAfterRemove(sources, id);
  }

  lemma TypeKeysAfterRemove(sources: map<string, DataSource>, id: string)
    ensures TypeKeys(sources) - {id} == TypeKeys(sources - {id})
  {
  }

  lemma MarketKeysAfterRemove(sources: map<string, DataSource>, id: string)
    ensures MarketKeys(sources) - {id} == MarketKeys(sources - {id})
  {
  }

  lemma RegisterConsistent(sources: map<string, DataSource>, order: seq<string>,
                           byType: map<SourceType, seq<string>>, byMarket: map<string, seq<string>>, s: DataSource)
    requires Consistent(sources, order, byType, byMarket) && s.sourceId !in sources
    ensures Consistent(sources[s.sourceId := s], order + [s.sourceId], Add(byType, s.sourceType, s.sourceId),
                       AddAll(byMarket, s.supportedMarkets, s.sourceId))
  {
    IndexedAddAll(byType, TypeKeys(sources), s.sourceId, [s.sourceType]);
    AddAllOne(byType, s.sourceType, s.sourceId);
    IndexedAddAll(byMarket, MarketKeys(sources), s.sourceId, s.supportedMarkets);
    KeysAfterPut(sources, s);
    OrderedAppend(order, sources, s.sourceId, s);
  }

  lemma UnregisterConsistent(sources: map<string, DataSource>, order: seq<string>,
                             byType: map<SourceType, seq<string>>, byMarket: map<string, seq<string>>, id: string)
    requires Consistent(sources, order, byType, byMarket) && id in sources
    ensures Consistent(sources - {id}, RemoveFirst(order, id), Remove(byType, sources[id].sourceType, id),
                       RemoveAll(byMarket, sources[id].supportedMarkets, id))
  {
    IndexedRemoveAll(byType, TypeKeys(sources), id);
    RemoveAllOne(byType, sources[id].sourceType, id);
    IndexedRemoveAll(byMarket, MarketKeys(sources), id);
    KeysAfterRemove(sources, id);
    OrderedRemove(order, sources, id);
  }

  lemma TypeKeysReplace(sources: map<string, DataSource>, s: DataSource)
    requires s.sourceId in sources && s.sourceType == sources[s.sourceId].sourceType
    ensures TypeKeys(sources[s.sourceId := s]) == TypeKeys(sources)
  {
  }

  lemma MarketKeysReplace(sources: map<string, DataSource>, s: DataSource)
    ensures MarketKeys(sources[s.sourceId := s]) == MarketKeys(sources)[s.sourceId := s.supportedMarkets]
  {
  }

  lemma OrderedReplace(order: seq<string>, sources: map<string, DataSource>, s: DataSource)
    requires Ordered(order, sources) && IdsMatch(sources) && s.sourceId in sources
    ensures Ordered(order, sources[s.sourceId := s]) && IdsMatch(sources[s.sourceId := s])
  {
    assert sources[s.sourceId := s].Keys == sources.Keys;
  }

  /** Replacing a record under its own id, with the same type, keeps the order and the type index. */
  lemma ReplaceKeeps(sources: map<string, DataSource>, order: seq<string>,
                     byType: map<SourceType, seq<string>>, byMarket: map<string, seq<string>>, s: DataSource)
    requires Consistent(sources, order, byType, byMarket) && s.sourceId in sources
    requires s.sourceType == sources[s.sourceId].sourceType
    ensures Ordered(order, sources[s.sourceId := s]) && IdsMatch(sources[s.sourceId := s])
    ensures Indexed(byType, TypeKeys(sources[s.sourceId := s]))
    ensures MarketKeys(sources[s.sourceId := s]) == MarketKeys(sources)[s.sourceId := s.supportedMarkets]
  {
    TypeKeysReplace(sources, s);
    MarketKeysReplace(sources, s);
    OrderedReplace(order, sources, s);
  }

  /** Taking an id out of the buckets of its old markets and filing it under the new ones re-indexes it. */
  lemma MarketMoveIndexed(b: map<string, seq<string>>, keys: map<string, seq<string>>, id: string, markets: seq<string>)
    requires Indexed(b, keys) && id in keys
    ensures Indexed(AddAll(RemoveAll(b, keys[id], id), markets, id), keys[id := markets])
  {
    IndexedRemoveAll(b, keys, id);
    IndexedAddAll(RemoveAll(b, keys[id], id), keys - {id}, id, markets);
    assert (keys - {id})[id := markets] == keys[id := markets];
  }

  /** Replacing a record and moving it between market buckets keeps the registry consistent. */
  lemma ReplaceConsistent(sources: map<string, DataSource>, order: seq<string>,
                          byType: map<SourceType, seq<string>>, byMarket: map<string, seq<string>>, s: DataSource)
    requires Consistent(sources, order, byType, byMarket) && s.sourceId in sources
    requires s.sourceType == sources[s.sourceId].sourceType
    ensures Consistent(sources[s.sourceId := s], order, byType,
                       AddAll(RemoveAll(byMarket, sources[s.sourceId].supportedMarkets, s.sourceId),
                              s.supportedMarkets, s.sourceId))
  {
    ReplaceKeeps(sources, order, byType, byMarket, s);
    MarketMoveIndexed(byMarket, MarketKeys(sources), s.sourceId, s.supportedMarkets);
  }

  /** The ids `list` walks: a type's bucket, else a market's bucket, else every source. */
  function Candidates(order: seq<string>, byType: map<SourceType, seq<string>>, byMarket: map<string, seq<string>>,
                      sourceType: Option<SourceType>, market: Option<string>): seq<string>
  {
    if sourceType.Some? then Bucket(byType, sourceType.value)
    else if market.Some? && market.value != "" then Bucket(byMarket, market.value)
    else order
  }

  /** The filters `list` applies to every candidate. */
  predicate Keep(s: DataSource, status: Option<SourceStatus>, enabled: Option<bool>, tags: seq<string>)
  {
    && (status.Some? ==> s.status == status.value)
    && (enabled.Some? ==> s.enabled == enabled.value)
    && (tags != [] ==> HasCommon(tags, s.tags))
  }

  function KeepFor(status: Option<SourceStatus>, enabled: Option<bool>, tags: seq<string>): DataSource -> bool
  {
    (s: DataSource) => Keep(s, status, enabled, tags)
  }

  /** The sort key of `list`: ascending in it is descending in priority. */
  function Rank(s: DataSource): int
  {
    -s.priority
  }

  /** The whole of `list`: the kept candidates, highest priority first, ties in candidate order. */
  function Listed(sources: map<string, DataSource>, order: seq<string>, byType: map<SourceType, seq<string>>,
                  byMarket: map<string, seq<string>>, sourceType: Option<SourceType>, market: Option<string>,
                  status: Option<SourceStatus>, enabled: Option<bool>, tags: seq<string>): seq<DataSource>
  {
    ByPriority(Pick(sources, Candidates(order, byType, byMarket, sourceType, market), KeepFor(status, enabled, tags)))
  }

  /** What a listed source must satisfy: the filters, and the type or else the market it was looked up by. */
  predicate Selected(s: DataSource, sourceType: Option<SourceType>, market: Option<string>,
                     status: Option<SourceStatus>, enabled: Option<bool>, tags: seq<string>)
  {
    && Keep(s, status, enabled, tags)
    && (sourceType.Some? ==> s.sourceType == sourceType.value)
    && (sourceType.None? && market.Some? && market.value != "" ==> market.value in s.supportedMarkets)
  }

  /** On a consistent registry, every source that passes the filters is a candidate. */
  lemma CandidatesCover(sources: map<string, DataSource>, order: seq<string>, byType: map<SourceType, seq<string>>,
                        byMarket: map<string, seq<string>>, sourceType: Option<SourceType>, market: Option<string>,
                        id: string)
    requires Consistent(sources, order, byType, byMarket) && id in sources
    requires sourceType.Some? ==> sources[id].sourceType == sourceType.value
    requires sourceType.None? && market.Some? && market.value != "" ==> market.value in sources[id].supportedMarkets
    ensures id in Candidates(order, byType, byMarket, sourceType, market)
  {
    if sourceType.Some? {
      IndexedFind(byType, TypeKeys(sources), id, sourceType.value);
    } else if market.Some? && market.value != "" {
      IndexedFind(byMarket, MarketKeys(sources), id, market.value);
    }
  }

  /** Every candidate is a source of the type, or else of the market, that was asked for. */
  lemma CandidatesSound(sources: map<string, DataSource>, order: seq<string>, byType: map<SourceType, seq<string>>,
                        byMarket: map<string, seq<string>>, sourceType: Option<SourceType>, market: Option<string>,
                        id: string)
    requires Consistent(sources, order, byType, byMarket) && id in sources
    requires id in Candidates(order, byType, byMarket, sourceType, market)
    ensures sourceType.Some? ==> sources[id].sourceType == sourceType.value
    ensures sourceType.None? && market.Some? && market.value != "" ==> market.value in sources[id].supportedMarkets
  {
    if sourceType.Some? {
      IndexedOnly(byType, TypeKeys(sources), id, sourceType.value);
    } else if market.Some? && market.value != "" {
      IndexedOnly(byMarket, MarketKeys(sources), id, market.value);
    }
  }

  /** The kept candidates are exactly the registered sources that are selected. */
  lemma PickedExact(sources: map<string, DataSource>, order: seq<string>, byType: map<SourceType, seq<string>>,
                    byMarket: map<string, seq<string>>, sourceType: Option<SourceType>, market: Option<string>,
                    status: Option<SourceStatus>, enabled: Option<bool>, tags: seq<string>, s: DataSource)
    requires Consistent(sources, order, byType, byMarket)
    ensures s in Pick(sources, Candidates(order, byType, byMarket, sourceType, market), KeepFor(status, enabled, tags))
            <==> s in sources.Values && Selected(s, sourceType, market, status, enabled, tags)
  {
    var ids := Candidates(order, byType, byMarket, sourceType, market);
    if s in Pick(sources, ids, KeepFor(status, enabled, tags)) {
      PickFrom(sources, ids, KeepFor(status, enabled, tags), s);
      var i :| 0 <= i < |ids| && ids[i] in sources && sources[ids[i]] == s;
      CandidatesSound(sources, order, byType, byMarket, sourceType, market, ids[i]);
    }
    if s in sources.Values && Selected(s, sourceType, market, status, enabled, tags) {
      var id :| id in sources && sources[id] == s;
      CandidatesCover(sources, order, byType, byMarket, sourceType, market, id);
      PickComplete(sources, ids, KeepFor(status, enabled, tags), id);
    }
  }

  /**
   * `list` returns exactly the registered sources that pass the filters and
   * the type (or, with no type, the market) asked for; a market given
   * together with a type is not applied.
   */
  lemma ListExact(sources: map<string, DataSource>, order: seq<string>, byType: map<SourceType, seq<string>>,
                  byMarket: map<string, seq<string>>, sourceType: Option<SourceType>, market: Option<string>,
                  status: Option<SourceStatus>, enabled: Option<bool>, tags: seq<string>, s: DataSource)
    requires Consistent(sources, order, byType, byMarket)
    ensures s in Listed(sources, order, byType, byMarket, sourceType, market, status, enabled, tags)
            <==> s in sources.Values && Selected(s, sourceType, market, status, enabled, tags)
  {
    var picked := Pick(sources, Candidates(order, byType, byMarket, sourceType, market), KeepFor(status, enabled, tags));
    SortByPermutes(picked, Rank);
    assert s in ByPriority(picked) <==> s in multiset(picked);
    PickedExact(sources, order, byType, byMarket, sourceType, market, status, enabled, tags, s);
  }

  /** `result.sort(key=lambda x: x.priority, reverse=True)`. */
  function ByPriority(xs: seq<DataSource>): seq<DataSource>
  {
    SortBy(xs, Rank)
  }

  /**
   * The sorted list is highest priority first, holds each source as often
   * as before, and sources of equal priority keep their order.
   */
  lemma ByPriorityOrders(xs: seq<DataSource>, p: int)
    ensures var r := ByPriority(xs);
      && (forall i, j :: 0 <= i < j < |r| ==> r[i].priority >= r[j].priority)
      && multiset(r) == multiset(xs)
      && WithKey(r, Rank, -p) == WithKey(xs, Rank, -p)
  {
    ByPriorityDescending(xs);
    SortByPermutes(xs, Rank);
    SortByStable(xs, Rank, -p);
  }

  /** Sorting by `Rank` puts higher priorities first. */
  lemma ByPriorityDescending(xs: seq<DataSource>)
    ensures var r := ByPriority(xs); forall i, j :: 0 <= i < j < |r| ==> r[i].priority >= r[j].priority
  {
    var r := ByPriority(xs);
    SortBySorts(xs, Rank);
    forall i, j | 0 <= i < j < |r|
      ensures r[i].priority >= r[j].priority
    {
      assert Rank(r[i]) <= Rank(r[j]);
    }
  }

  /** The search test: the query in the name, display name, description or a tag, ignoring case. */
  predicate Matches(s: DataSource, query: string)
  {
    || Text.QueryMatches(s.name, OptionOr(s.description, ""), s.tags, query)
    || Text.Contains(Text.Lower(s.displayName), Text.Lower(query))
  }

  function MatchFor(query: string): DataSource -> bool
  {
    (s: DataSource) => Matches(s, query)
  }

  /** `search` returns exactly the registered sources that match the query. */
  lemma SearchExact(sources: map<string, DataSource>, order: seq<string>, byType: map<SourceType, seq<string>>,
                    byMarket: map<string, seq<string>>, query: string, s: DataSource)
    requires Consistent(sources, order, byType, byMarket)
    ensures s in Pick(sources, order, MatchFor(query)) <==> s in sources.Values && Matches(s, query)
  {
    if s in sources.Values && Matches(s, query) {
      var id :| id in sources && sources[id] == s;
      PickComplete(sources, order, MatchFor(query), id);
    }
  }

  class Registry {
    var sources: map<string, DataSource>
    var order: seq<string>
    var byType: map<SourceType, seq<string>>
    var byMarket: map<string, seq<string>>

    ghost predicate Valid()
      reads this
    {
      Consistent(sources, order, byType, byMarket)
    }

    /** An empty registry; every type's bucket reads as empty. */
    constructor ()
      ensures Valid() && sources == map[]
    {
      sources, order, byType, byMarket := map[], [], map[], map[];
    }

    /**
     * `register`: stores the new record under its type and each of its
     * markets; a known id is refused.
     */
    method Register(f: DataSource, now: int) returns (r: Result<DataSource>)
      requires Valid()
      modifies this
      ensures Valid()
      ensures old(f.sourceId in sources) ==> r == Err("Data source " + f.sourceId + " already registered") && unchanged(this)
      ensures !old(f.sourceId in sources) ==>
        && r == Ok(NewRecord(f, now))
        && sources == old(sources)[f.sourceId := NewRecord(f, now)]
        && order == old(order) + [f.sourceId]
        && byType == Add(old(byType), f.sourceType, f.sourceId)
        && byMarket == AddAll(old(byMarket), f.supportedMarkets, f.sourceId)
    {
      if f.sourceId in sources {
        return Err("Data source " + f.sourceId + " already registered");
      }
      var s := NewRecord(f, now);
      RegisterConsistent(sources, order, byType, byMarket, s);
      var bm := AddToBuckets(byMarket, s.supportedMarkets, s.sourceId);
      sources, order, byType, byMarket := sources[s.sourceId := s], order + [s.sourceId],
                                          Add(byType, s.sourceType, s.sourceId), bm;
      r := Ok(s);
    }

    function Get(sourceId: string): (r: Option<DataSource>)
      reads this
      ensures r.Some? <==> sourceId in sources
      ensures r.Some? ==> r.value == sources[sourceId]
    {
      if sourceId in sources then Some(sources[sourceId]) else None
    }

    /** `list`: the kept candidates, sorted highest priority first. */
    method List(sourceType: Option<SourceType>, market: Option<string>, status: Option<SourceStatus>,
                enabled: Option<bool>, tags: seq<string>) returns (result: seq<DataSource>)
      ensures result == Listed(sources, order, byType, byMarket, sourceType, market, status, enabled, tags)
    {
      var ids: seq<string>;
      if sourceType.Some? {
        ids := Bucket(byType, sourceType.value);
      } else if market.Some? && market.value != "" {
        ids := Bucket(byMarket, market.value);
      } else {
        ids := order;
      }
      result := Collect(sources, ids, KeepFor(status, enabled, tags));
      result := ByPriority(result);
    }

    /** `unregister`: drops a source and takes it out of its buckets; an unknown id gives false. */
    method Unregister(sourceId: string) returns (removed: bool)
      requires Valid()
      modifies this
      ensures Valid()
      ensures removed == (sourceId in old(sources))
      ensures !removed ==> unchanged(this)
      ensures removed ==>
        && sources == old(sources) - {sourceId}
        && order == RemoveFirst(old(order), sourceId)
        && byType == Remove(old(byType), old(sources)[sourceId].sourceType, sourceId)
        && byMarket == RemoveAll(old(byMarket), old(sources)[sourceId].supportedMarkets, sourceId)
    {
      if sourceId !in sources {
        return false;
      }
      UnregisterConsistent(sources, order, byType, byMarket, sourceId);
      var bm := RemoveFromBuckets(byMarket, sources[sourceId].supportedMarkets, sourceId);
      sources, order, byType, byMarket := sources - {sourceId}, RemoveFirst(order, sourceId),
                                          Remove(byType, sources[sourceId].sourceType, sourceId), bm;
      return true;
    }

    /** `update_status`: status, check time, error message and update time; an unknown id gives false. */
    method UpdateStatus(sourceId: string, status: SourceStatus, errorMessage: Option<string>, now: int)
      returns (updated: bool)
      requires Valid()
      modifies this
      ensures Valid()
      ensures updated == (sourceId in old(sources))
      ensures !updated ==> unchanged(this)
      ensures updated ==>
        && sources == old(sources)[sourceId := Checked(old(sources)[sourceId], status, errorMessage, now)]
        && order == old(order) && byType == old(byType) && byMarket == old(byMarket)
    {
      if sourceId !in sources {
        return false;
      }
      var s := Checked(sources[sourceId], status, errorMessage, now);
      ReplaceKeeps(sources, order, byType, byMarket, s);
      assert MarketKeys(sources)[sourceId := s.supportedMarkets] == MarketKeys(sources);
      sources := sources[sourceId := s];
      return true;
    }

    /**
     * Writes a changed record back under its id and moves the id from the
     * buckets of its old markets to those of its new ones; the type cannot
     * change.
     */
    method Replace(s: DataSource)
      requires Valid() && s.sourceId in sources && s.sourceType == sources[s.sourceId].sourceType
      modifies this
      ensures Valid()
      ensures sources == old(sources)[s.sourceId := s]
      ensures byMarket == AddAll(RemoveAll(old(byMarket), old(sources)[s.sourceId].supportedMarkets, s.sourceId),
                                 s.supportedMarkets, s.sourceId)
      ensures order == old(order) && byType == old(byType)
    {
      ReplaceConsistent(sources, order, byType, byMarket, s);
      var bm := RemoveFromBuckets(byMarket, sources[s.sourceId].supportedMarkets, s.sourceId);
      bm := AddToBuckets(bm, s.supportedMarkets, s.sourceId);
      sources, byMarket := sources[s.sourceId := s], bm;
    }

    /** `search`: the registered sources, in registration order, that match the query. */
    method Search(query: string) returns (result: seq<DataSource>)
      ensures result == Pick(sources, order, MatchFor(query))
    {
      result := Collect(sources, order, MatchFor(query));
    }
  }
}
