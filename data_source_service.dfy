// The data-source service: declarative import of data sources, field-wise
// updates and deletion.
module DataSourceService {
  import opened Wrappers
  import opened Seqs
  import opened Values
  import opened Index
  import opened Listing
  import opened Sorting
  import opened DataSourceRegistry
  import opened Declarative
  import opened Merging

  /** The message Python raises when `register` is handed a whole metadata record. */
  const RegisterTypeError: string :=
    "DataSourceRegistry.register() missing 2 required positional arguments: 'name' and 'display_name'"

  /**
   * The record `_import_sources` leaves behind when it updates an existing
   * source: ten metadata fields come from the imported source and the update
   * time is stamped; id, name, type, version, author, adapter and status
   * stay.
   */
  function Overwritten(existing: DataSource, s: DataSource, now: int): (r: DataSource)
    ensures r.(displayName := existing.displayName, description := existing.description,
               priority := existing.priority, enabled := existing.enabled, config := existing.config,
               supportedMarkets := existing.supportedMarkets, supportedFeatures := existing.supportedFeatures,
               tags := existing.tags, website := existing.website, documentationUrl := existing.documentationUrl,
               updatedAt := existing.updatedAt) == existing
    ensures r.(sourceId := s.sourceId, name := s.name, sourceType := s.sourceType, version := s.version,
               author := s.author, hasAdapterClass := s.hasAdapterClass, status := s.status,
               lastCheck := s.lastCheck, errorMessage := s.errorMessage, createdAt := s.createdAt) == s.(updatedAt := now)
  {
    existing.(displayName := s.displayName, description := s.description, priority := s.priority,
              enabled := s.enabled, config := s.config, supportedMarkets := s.supportedMarkets,
              supportedFeatures := s.supportedFeatures, tags := s.tags, website := s.website,
              documentationUrl := s.documentationUrl, updatedAt := now)
  }

  // ----- `_import_sources` as written -----

  /**
   * One item as written: an update overwrites the registered record in place
   * (and touches no index); a new source is passed whole to `register`,
   * whose keyword signature refuses it, so it is filed as an error.
   */
  function ImportItemAsWritten(sources: map<string, DataSource>, s: DataSource, updateExisting: bool, now: int)
    : (r: (map<string, DataSource>, Outcome))
    ensures s.sourceId !in sources ==> r == (sources, Failed(RegisterTypeError))
    ensures s.sourceId in sources && !updateExisting ==> r == (sources, Skipped)
    ensures s.sourceId in sources && updateExisting ==>
      r == (sources[s.sourceId := Overwritten(sources[s.sourceId], s, now)], Updated)
  {
    if s.sourceId in sources then
      if updateExisting then (sources[s.sourceId := Overwritten(sources[s.sourceId], s, now)], Updated)
      else (sources, Skipped)
    else (sources, Failed(RegisterTypeError))
  }

  /** The records and the result after importing a batch as written. */
  function ImportAsWritten(sources: map<string, DataSource>, items: seq<DataSource>, updateExisting: bool, now: int)
    : (map<string, DataSource>, ImportResult)
  {
    if items == [] then (sources, ImportResult([], [], [], [], 0))
    else
      var (m, res) := ImportAsWritten(sources, items[..|items| - 1], updateExisting, now);
      var last := items[|items| - 1];
      var (m', o) := ImportItemAsWritten(m, last, updateExisting, now);
      (m', Record(res, last.sourceId, o).(total := |items|))
  }

  /**
   * The defect at the registration call: importing into an empty registry
   * registers nothing and files every source as an error.
   */
  lemma {:induction false} AsWrittenRegistersNothing(items: seq<DataSource>, updateExisting: bool, now: int)
    ensures ImportAsWritten(map[], items, updateExisting, now).0 == map[]
    ensures ImportAsWritten(map[], items, updateExisting, now).1.imported == []
    ensures |ImportAsWritten(map[], items, updateExisting, now).1.errors| == |items|
  {
    if items != [] {
      AsWrittenRegistersNothing(items[..|items| - 1], updateExisting, now);
    }
  }

  /**
   * The defect at the update: a record written back in place with a market
   * it did not list before is missing from `list(market=...)` for that
   * market, although it now supports it.
   */
  lemma StaleMarketIndex(sources: map<string, DataSource>, order: seq<string>, byType: map<SourceType, seq<string>>,
                         byMarket: map<string, seq<string>>, r: DataSource, market: string)
    requires Consistent(sources, order, byType, byMarket)
    requires r.sourceId in sources && market != ""
    requires market in r.supportedMarkets && market !in sources[r.sourceId].supportedMarkets
    ensures var after := sources[r.sourceId := r];
      r !in Listed(after, order, byType, byMarket, None, Some(market), None, None, [])
  {
    var after := sources[r.sourceId := r];
    var ids := Bucket(byMarket, market);
    var picked := Pick(after, ids, KeepFor(None, None, []));
    assert Count(ids, r.sourceId) == 0 by {
      assert Count(MarketKeys(sources)[r.sourceId], market) == 0;
    }
    SortByPermutes(picked, Rank);
    if r in picked {
      PickFrom(after, ids, KeepFor(None, None, []), r);
      assert false;
    }
    assert r !in multiset(ByPriority(picked));
  }

  /** The stale index in one import: a re-imported source that adds a market is not listed under it. */
  lemma AsWrittenUpdateMissesMarket(sources: map<string, DataSource>, order: seq<string>,
                                    byType: map<SourceType, seq<string>>, byMarket: map<string, seq<string>>,
                                    s: DataSource, now: int, market: string)
    requires Consistent(sources, order, byType, byMarket)
    requires s.sourceId in sources && market != ""
    requires market in s.supportedMarkets && market !in sources[s.sourceId].supportedMarkets
    ensures var after := ImportItemAsWritten(sources, s, true, now).0;
      && market in after[s.sourceId].supportedMarkets
      && after[s.sourceId] !in Listed(after, order, byType, byMarket, None, Some(market), None, None, [])
  {
    var r := Overwritten(sources[s.sourceId], s, now);
    StaleMarketIndex(sources, order, byType, byMarket, r, market);
  }

  // ----- `_import_sources` with the evident intent -----

  /** The record the registry holds after importing `s` over the records `m`. */
  function StoredOver(m: map<string, DataSource>, s: DataSource, now: int): (r: DataSource)
    ensures s.sourceId in m ==> r == Overwritten(m[s.sourceId], s, now)
    ensures s.sourceId !in m ==> r == NewRecord(s, now)
  {
    if s.sourceId in m then Overwritten(m[s.sourceId], s, now) else NewRecord(s, now)
  }

  function StoreAt(now: int): (map<string, DataSource>, DataSource) -> DataSource
  {
    (m: map<string, DataSource>, s: DataSource) => StoredOver(m, s, now)
  }

  function SourceId(s: DataSource): string
  {
    s.sourceId
  }

  /**
   * One item: an update writes the overwritten record back and re-files it
   * under its markets; a new source is registered with its own fields.
   */
  method ImportItem(reg: Registry, s: DataSource, updateExisting: bool, now: int) returns (o: Outcome)
    requires reg.Valid()
    modifies reg
    ensures reg.Valid()
    ensures o == OutcomeOf(old(reg.sources), s.sourceId, updateExisting)
    ensures reg.sources == Merge(old(reg.sources), s.sourceId, StoredOver(old(reg.sources), s, now), updateExisting)
    ensures o == Skipped ==> unchanged(reg)
  {
    var existing := reg.Get(s.sourceId);
    if existing.Some? {
      if updateExisting {
        reg.Replace(Overwritten(existing.value, s, now));
        return Updated;
      }
      return Skipped;
    }
    var _ := reg.Register(s, now);
    return Imported;
  }

  /**
   * `_import_sources`: the registry ends as the item-by-item merge of the
   * batch, every index kept current, and the result is its summary.
   */
  method ImportSources(reg: Registry, items: seq<DataSource>, updateExisting: bool, now: int)
    returns (res: ImportResult)
    requires reg.Valid()
    modifies reg
    ensures reg.Valid()
    ensures reg.sources == MergeAll(old(reg.sources), items, SourceId, StoreAt(now), updateExisting)
    ensures res == Summary(old(reg.sources), items, SourceId, StoreAt(now), updateExisting)
  {
    ghost var start := reg.sources;
    res := ImportResult([], [], [], [], 0);
    var i := 0;
    while i < |items|
      invariant 0 <= i <= |items|
      invariant reg.Valid()
      invariant reg.sources == MergeAll(start, items[..i], SourceId, StoreAt(now), updateExisting)
      invariant res == Summary(start, items[..i], SourceId, StoreAt(now), updateExisting)
    {
      var s := items[i];
      ghost var prefix := reg.sources;
      var o := ImportItem(reg, s, updateExisting, now);
      assert reg.sources == MergeAll(start, items[..i + 1], SourceId, StoreAt(now), updateExisting) by {
        MergeStep(start, items, SourceId, StoreAt(now), updateExisting, i);
        assert StoreAt(now)(prefix, s) == StoredOver(prefix, s, now);
      }
      assert Record(res, s.sourceId, o).(total := i + 1) == Summary(start, items[..i + 1], SourceId, StoreAt(now), updateExisting) by {
        MergeStep(start, items, SourceId, StoreAt(now), updateExisting, i);
      }
      res := Record(res, s.sourceId, o).(total := i + 1);
      i := i + 1;
    }
    FullPrefix(items);
  }

  // ----- `update_source` and `delete_source` -----

  /** `source.config.update(new)` when "config" is supplied, else the config as it was. */
  function MergedConfig(config: Dict, data: Dict): (r: Result<Dict>)
    ensures !Has(data, "config") ==> r == Ok(config)
    ensures r.Ok? && Has(data, "config") ==> GetV(data, "config").VObj?
    ensures r.Ok? && Has(data, "config") && WellFormed(GetV(data, "config").entries) ==>
      forall k :: Get(r.value, k) == if Has(GetV(data, "config").entries, k) then Get(GetV(data, "config").entries, k)
                                     else Get(config, k)
  {
    if !Has(data, "config") then Ok(config)
    else
      var patch :- AsDict(GetV(data, "config"), "config");
      if WellFormed(patch) then
        forall k ensures Get(Update(config, patch), k) == if Has(patch, k) then Get(patch, k) else Get(config, k) {
          UpdateGet(config, patch, k);
        }
        Ok(Update(config, patch))
      else Ok(Update(config, patch))
  }

  /** Display name, description and the two links: a supplied key replaces the field, an absent one keeps it. */
  function PatchText(s: DataSource, data: Dict): (r: Result<DataSource>)
    ensures r.Ok? ==> r.value.(displayName := s.displayName, description := s.description, website := s.website,
                                documentationUrl := s.documentationUrl) == s
    ensures r.Ok? ==> VStr(r.value.displayName) == GetOr(data, "display_name", VStr(s.displayName))
    ensures r.Ok? ==> OptValue(r.value.description) == GetOr(data, "description", OptValue(s.description))
    ensures r.Ok? ==> OptValue(r.value.website) == GetOr(data, "website", OptValue(s.website))
    ensures r.Ok? ==> OptValue(r.value.documentationUrl) == GetOr(data, "documentation_url", OptValue(s.documentationUrl))
  {
    var displayName :- if Has(data, "display_name") then AsStr(GetV(data, "display_name"), "display_name")
                       else Ok(s.displayName);
    var description :- if Has(data, "description") then OptStr(GetV(data, "description"), "description")
                       else Ok(s.description);
    var website :- if Has(data, "website") then OptStr(GetV(data, "website"), "website") else Ok(s.website);
    var docs :- if Has(data, "documentation_url") then OptStr(GetV(data, "documentation_url"), "documentation_url")
                else Ok(s.documentationUrl);
    Ok(s.(displayName := displayName, description := description, website := website, documentationUrl := docs))
  }

  /** Priority, enabled flag, markets, features and tags, each replaced only when supplied. */
  function PatchSettings(s: DataSource, data: Dict): (r: Result<DataSource>)
    ensures r.Ok? ==> r.value.(priority := s.priority, enabled := s.enabled, supportedMarkets := s.supportedMarkets,
                                supportedFeatures := s.supportedFeatures, tags := s.tags) == s
    ensures r.Ok? ==> VInt(r.value.priority) == GetOr(data, "priority", VInt(s.priority))
    ensures r.Ok? ==> VBool(r.value.enabled) == GetOr(data, "enabled", VBool(s.enabled))
    ensures r.Ok? && !Has(data, "supported_markets") ==> r.value.supportedMarkets == s.supportedMarkets
    ensures r.Ok? && !Has(data, "supported_features") ==> r.value.supportedFeatures == s.supportedFeatures
    ensures r.Ok? && !Has(data, "tags") ==> r.value.tags == s.tags
  {
    var flags :- PatchFlags(s, data);
    PatchLists(flags, data)
  }

  /** Priority and enabled flag, each replaced only when supplied. */
  function PatchFlags(s: DataSource, data: Dict): (r: Result<DataSource>)
    ensures r.Ok? ==> r.value.(priority := s.priority, enabled := s.enabled) == s
    ensures r.Ok? ==> VInt(r.value.priority) == GetOr(data, "priority", VInt(s.priority))
    ensures r.Ok? ==> VBool(r.value.enabled) == GetOr(data, "enabled", VBool(s.enabled))
  {
    var priority :- if Has(data, "priority") then AsInt(GetV(data, "priority"), "priority") else Ok(s.priority);
    var enabled :- if Has(data, "enabled") then AsBool(GetV(data, "enabled"), "enabled") else Ok(s.enabled);
    Ok(s.(priority := priority, enabled := enabled))
  }

  /** Markets, features and tags, each replaced only when supplied. */
  function PatchLists(s: DataSource, data: Dict): (r: Result<DataSource>)
    ensures r.Ok? ==> r.value.(supportedMarkets := s.supportedMarkets, supportedFeatures := s.supportedFeatures,
                                tags := s.tags) == s
    ensures r.Ok? && !Has(data, "supported_markets") ==> r.value.supportedMarkets == s.supportedMarkets
    ensures r.Ok? && !Has(data, "supported_features") ==> r.value.supportedFeatures == s.supportedFeatures
    ensures r.Ok? && !Has(data, "tags") ==> r.value.tags == s.tags
  {
    var markets :- if Has(data, "supported_markets") then AsStrList(GetV(data, "supported_markets"), "supported_markets")
                   else Ok(s.supportedMarkets);
    var features :- if Has(data, "supported_features") then AsStrList(GetV(data, "supported_features"), "supported_features")
                    else Ok(s.supportedFeatures);
    var tags :- if Has(data, "tags") then AsStrList(GetV(data, "tags"), "tags") else Ok(s.tags);
    Ok(s.(supportedMarkets := markets, supportedFeatures := features, tags := tags))
  }

  /** The record `update_source` leaves: the supplied fields changed, config merged, update time stamped. */
  function Patched(s: DataSource, data: Dict, now: int): (r: Result<DataSource>)
    ensures r.Ok? ==> r.value.sourceId == s.sourceId && r.value.sourceType == s.sourceType
    ensures r.Ok? ==> r.value.name == s.name && r.value.status == s.status && r.value.createdAt == s.createdAt
    ensures r.Ok? ==> r.value.updatedAt == now
    ensures r.Ok? ==> MergedConfig(s.config, data) == Ok(r.value.config)
  {
    var text :- PatchText(s, data);
    var settings :- PatchSettings(text, data);
    var config :- MergedConfig(s.config, data);
    Ok(settings.(config := config, updatedAt := now))
  }

  // ----- `update_source` as written -----

  /**
   * What stays written on the registered object when `update_source` stops
   * before the end: the supplied fields are assigned one by one, so when only
   * `config.update` raises, the display name, description, priority and
   * enabled flag assigned before it are already in place.
   */
  function WrittenBeforeRaise(s: DataSource, data: Dict): (r: DataSource)
    ensures r.(displayName := s.displayName, description := s.description, priority := s.priority,
               enabled := s.enabled) == s
    ensures PatchText(s, data).Ok? && PatchSettings(PatchText(s, data).value, data).Ok? ==>
      && VStr(r.displayName) == GetOr(data, "display_name", VStr(s.displayName))
      && OptValue(r.description) == GetOr(data, "description", OptValue(s.description))
      && VInt(r.priority) == GetOr(data, "priority", VInt(s.priority))
      && VBool(r.enabled) == GetOr(data, "enabled", VBool(s.enabled))
  {
    var text := PatchText(s, data);
    if text.Err? then s
    else
      var settings := PatchSettings(text.value, data);
      if settings.Err? then s
      else s.(displayName := settings.value.displayName, description := settings.value.description,
              priority := settings.value.priority, enabled := settings.value.enabled)
  }

  /**
   * `update_source` as written, on the records: the registered object is
   * patched in place, so the new record replaces the old one in the map and
   * no index is touched; when `config.update` raises, the fields written
   * before it stay written.
   */
  function UpdateAsWritten(sources: map<string, DataSource>, sourceId: string, data: Dict, now: int)
    : (r: (map<string, DataSource>, Result<DataSource>))
    ensures sourceId !in sources ==> r == (sources, Err("Data source " + sourceId + " not found"))
    ensures sourceId in sources ==> r.1 == Patched(sources[sourceId], data, now)
    ensures sourceId in sources && r.1.Ok? ==> r.0 == sources[sourceId := r.1.value]
    ensures sourceId in sources && r.1.Err? ==> r.0 == sources[sourceId := WrittenBeforeRaise(sources[sourceId], data)]
  {
    if sourceId !in sources then (sources, Err("Data source " + sourceId + " not found"))
    else
      var s := sources[sourceId];
      match Patched(s, data, now)
      case Ok(p) => (sources[sourceId := p], Ok(p))
      case Err(e) => (sources[sourceId := WrittenBeforeRaise(s, data)], Err(e))
  }

  /**
   * The defect at the market assignment: a patch that adds a market leaves
   * the patched source out of `list(market=...)` for that market.
   */
  lemma AsWrittenUpdateSourceMissesMarket(sources: map<string, DataSource>, order: seq<string>,
                                          byType: map<SourceType, seq<string>>, byMarket: map<string, seq<string>>,
                                          sourceId: string, data: Dict, now: int, market: string)
    requires Consistent(sources, order, byType, byMarket)
    requires sourceId in sources && market != "" && market !in sources[sourceId].supportedMarkets
    requires UpdateAsWritten(sources, sourceId, data, now).1.Ok?
    requires market in UpdateAsWritten(sources, sourceId, data, now).1.value.supportedMarkets
    ensures var (after, r) := UpdateAsWritten(sources, sourceId, data, now);
      after[sourceId] == r.value && r.value !in Listed(after, order, byType, byMarket, None, Some(market), None, None, [])
  {
    var r := UpdateAsWritten(sources, sourceId, data, now).1.value;
    assert r.sourceId == sourceId;
    StaleMarketIndex(sources, order, byType, byMarket, r, market);
  }

  /** The lookups of the patch `{"display_name": name, "config": None}`. */
  lemma NameAndNullConfig(name: string)
    ensures var data := [("display_name", VStr(name)), ("config", VNull)];
      && GetOr(data, "display_name", VNull) == VStr(name) && Has(data, "config") && GetV(data, "config") == VNull
      && !Has(data, "description") && !Has(data, "website") && !Has(data, "documentation_url")
      && !Has(data, "priority") && !Has(data, "enabled") && !Has(data, "supported_markets")
      && !Has(data, "supported_features") && !Has(data, "tags")
  {
    NameAndNullGet(name);
  }

  /** `{"display_name": name, "config": None}` maps exactly those two keys. */
  lemma NameAndNullGet(name: string)
    ensures var data := [("display_name", VStr(name)), ("config", VNull)];
      forall k :: Get(data, k) == if k == "display_name" then Some(VStr(name)) else if k == "config" then Some(VNull) else None
  {
    var data := [("display_name", VStr(name)), ("config", VNull)];
    forall k ensures Get(data, k) == if k == "display_name" then Some(VStr(name)) else if k == "config" then Some(VNull) else None {
      assert data[1..] == [("config", VNull)];
      GetSingle("config", VNull);
    }
  }

  /**
   * The defect at the config update: a patch whose "config" is not a dict
   * raises, but the display name assigned before it stays written.
   */
  lemma AsWrittenConfigRaiseKeepsName(sources: map<string, DataSource>, sourceId: string, name: string, now: int)
    requires sourceId in sources
    ensures var (after, r) := UpdateAsWritten(sources, sourceId, [("display_name", VStr(name)), ("config", VNull)], now);
      r.Err? && after[sourceId].displayName == name
  {
    var data := [("display_name", VStr(name)), ("config", VNull)];
    var s := sources[sourceId];
    NameAndNullConfig(name);
    assert PatchText(s, data) == Ok(s.(displayName := name));
    assert PatchSettings(s.(displayName := name), data) == Ok(s.(displayName := name));
    assert MergedConfig(s.config, data).Err?;
  }

  // ----- `update_source` with the evident intent -----

  /**
   * `update_source`: an unknown id is refused; otherwise the supplied
   * fields are written back and the source is re-filed under its markets.
   */
  method UpdateSource(reg: Registry, sourceId: string, data: Dict, now: int) returns (r: Result<DataSource>)
    requires reg.Valid()
    modifies reg
    ensures reg.Valid()
    ensures sourceId !in old(reg.sources) ==> r == Err("Data source " + sourceId + " not found") && unchanged(reg)
    ensures sourceId in old(reg.sources) ==> r == Patched(old(reg.sources)[sourceId], data, now)
    ensures r.Err? ==> unchanged(reg)
    ensures r.Ok? ==> reg.sources == old(reg.sources)[sourceId := r.value]
  {
    var existing := reg.Get(sourceId);
    if existing.None? {
      return Err("Data source " + sourceId + " not found");
    }
    r := Patched(existing.value, data, now);
    if r.Ok? {
      reg.Replace(r.value);
    }
  }

  /** `delete_source`: unregisters the source. */
  method DeleteSource(reg: Registry, sourceId: string) returns (deleted: bool)
    requires reg.Valid()
    modifies reg
    ensures reg.Valid()
    ensures deleted == (sourceId in old(reg.sources))
    ensures reg.sources == old(reg.sources) - {sourceId}
  {
    deleted := reg.Unregister(sourceId);
  }
}
