// Reading data sources from YAML-shaped dictionaries.
module DataSourceLoader {
  import opened Wrappers
  import opened Values
  import opened DataSourceRegistry
  import Declarative

  function TypeName(t: SourceType): string
  {
    match t
    case Stock => "stock"
    case Futures => "futures"
    case Forex => "forex"
    case Crypto => "crypto"
    case News => "news"
    case Social => "social"
    case Custom => "custom"
  }

  /** `DataSourceType(value)`: one of the seven type names, else a ValueError. */
  function ParseType(v: Value): (r: Result<SourceType>)
    ensures r.Ok? ==> v == VStr(TypeName(r.value))
    ensures v.VStr? && r.Err? ==> r.error == "'" + v.s + "' is not a valid DataSourceType"
  {
    match v
    case VStr("stock") => Ok(Stock)
    case VStr("futures") => Ok(Futures)
    case VStr("forex") => Ok(Forex)
    case VStr("crypto") => Ok(Crypto)
    case VStr("news") => Ok(News)
    case VStr("social") => Ok(Social)
    case VStr("custom") => Ok(Custom)
    case VStr(x) => Err("'" + x + "' is not a valid DataSourceType")
    case _ => Err("source_type is not a valid DataSourceType")
  }

  lemma TypeNamesRoundTrip(t: SourceType)
    ensures ParseType(VStr(TypeName(t))) == Ok(t)
  {
  }

  /** A non-empty string id, a string name and a non-empty string display name. */
  predicate PlainHead(d: Dict)
  {
    && GetV(d, "source_id").VStr? && GetV(d, "source_id").s != ""
    && GetV(d, "name").VStr?
    && GetV(d, "display_name").VStr? && GetV(d, "display_name").s != ""
  }

  /**
   * The required part of `_parse_source`: a falsy `source_id` is refused;
   * `name` defaults to the id and `display_name` (or `displayName`) to the
   * name.
   */
  function ParseHead(d: Dict): (r: Result<(string, string, string)>)
    ensures !Truthy(GetV(d, "source_id")) ==> r == Err("Data source 'source_id' is required")
    ensures r.Ok? ==> GetV(d, "source_id") == VStr(r.value.0) && r.value.0 != ""
    ensures r.Ok? ==> VStr(r.value.1) == (if Truthy(GetV(d, "name")) then GetV(d, "name") else VStr(r.value.0))
    ensures r.Ok? ==> VStr(r.value.2) == Or(Or(GetV(d, "display_name"), GetV(d, "displayName")), VStr(r.value.1))
    ensures PlainHead(d) ==> r.Ok?
  {
    var idv := GetV(d, "source_id");
    if !Truthy(idv) then Err("Data source 'source_id' is required")
    else
      var sourceId :- AsStr(idv, "source_id");
      var name :- StrOr(GetV(d, "name"), sourceId, "name");
      var displayName :- StrOr(Or(GetV(d, "display_name"), GetV(d, "displayName")), name, "display_name");
      Ok((sourceId, name, displayName))
  }

  /** Description, type, version, author, priority and enabled flag, with their defaults. */
  function ParseKind(d: Dict, f: DataSource): (r: Result<DataSource>)
    ensures r.Ok? ==> VStr(TypeName(r.value.sourceType)) == Fallback(d, "source_type", "sourceType", VStr("stock"))
    ensures r.Ok? ==> VBool(r.value.enabled) == Fallback(d, "is_active", "isActive", VBool(true))
    ensures r.Ok? && !Has(d, "priority") ==> r.value.priority == 0
    ensures r.Ok? && !Has(d, "version") ==> r.value.version == "1.0.0"
    ensures r.Ok? && !Has(d, "author") ==> r.value.author == "unknown"
    ensures r.Ok? ==> r.value.sourceId == f.sourceId && r.value.name == f.name && r.value.displayName == f.displayName
    ensures r.Ok? ==> r.value.status == f.status && r.value.hasAdapterClass == f.hasAdapterClass
    ensures r.Ok? ==> r.value.lastCheck == f.lastCheck && r.value.createdAt == f.createdAt && r.value.updatedAt == f.updatedAt
  {
    var description :- OptStr(GetV(d, "description"), "description");
    var sourceType :- ParseType(Fallback(d, "source_type", "sourceType", VStr("stock")));
    var version :- StrField(d, "version", "1.0.0");
    var author :- StrField(d, "author", "unknown");
    var priority :- IntField(d, "priority", 0);
    var enabled :- AsBool(Fallback(d, "is_active", "isActive", VBool(true)), "is_active");
    Ok(f.(description := description, sourceType := sourceType, version := version, author := author,
          priority := priority, enabled := enabled))
  }

  /** Config, markets, features, tags and links; markets and features read snake_case, then camelCase. */
  function ParseLists(d: Dict, f: DataSource): (r: Result<DataSource>)
    ensures r.Ok? && !Truthy(GetV(d, "supported_markets")) && !Truthy(GetV(d, "supportedMarkets")) ==>
      r.value.supportedMarkets == []
    ensures r.Ok? && !Has(d, "config") ==> r.value.config == []
    ensures r.Ok? && !Has(d, "tags") ==> r.value.tags == []
    ensures r.Ok? ==> r.value.(config := f.config, supportedMarkets := f.supportedMarkets,
                                supportedFeatures := f.supportedFeatures, tags := f.tags, website := f.website,
                                documentationUrl := f.documentationUrl) == f
    ensures r.Ok? ==> r.value.sourceId == f.sourceId && r.value.status == f.status && r.value.hasAdapterClass == f.hasAdapterClass
    ensures r.Ok? ==> r.value.lastCheck == f.lastCheck && r.value.createdAt == f.createdAt && r.value.updatedAt == f.updatedAt
  {
    var config :- AsDict(GetOr(d, "config", VObj([])), "config");
    var markets :- StrListOr(Or(GetV(d, "supported_markets"), GetV(d, "supportedMarkets")), "supported_markets");
    var features :- StrListOr(Or(GetV(d, "supported_features"), GetV(d, "supportedFeatures")), "supported_features");
    var tags :- StrListField(d, "tags");
    var website :- OptStr(GetV(d, "website"), "website");
    var docs :- OptStr(Or(GetV(d, "documentation_url"), GetV(d, "documentationUrl")), "documentation_url");
    Ok(f.(config := config, supportedMarkets := markets, supportedFeatures := features, tags := tags,
          website := website, documentationUrl := docs))
  }

  /**
   * `_parse_source`: a fresh metadata record, registered, with no adapter
   * class, stamped with the time of parsing.
   */
  function ParseSource(d: Dict, now: int): (r: Result<DataSource>)
    ensures !Truthy(GetV(d, "source_id")) ==> r == Err("Data source 'source_id' is required")
    ensures r.Ok? ==> GetV(d, "source_id") == VStr(r.value.sourceId)
    ensures r.Ok? ==> r.value.status == Registered && !r.value.hasAdapterClass && r.value.lastCheck == None
    ensures r.Ok? ==> r.value.createdAt == now && r.value.updatedAt == now
  {
    var head :- ParseHead(d);
    var f := DataSource(head.0, head.1, head.2, None, Stock, "1.0.0", "unknown", 0, true, [], [], [], false,
                        Registered, None, None, [], None, None, now, now);
    var k :- ParseKind(d, f);
    ParseLists(d, k)
  }

  function ParseSourceValue(v: Value, now: int): Result<DataSource>
  {
    var d :- AsDict(v, "data source");
    ParseSource(d, now)
  }

  predicate HasSourceId(d: Dict)
  {
    Has(d, "source_id")
  }

  function SetSourceId(d: Dict, key: string): Dict
  {
    Put(d, "source_id", VStr(key))
  }

  /** `DataSourceYAMLLoader`: the generic loader under the root key "data_sources". */
  function SourceHooks(now: int): Declarative.Hooks<DataSource>
  {
    Declarative.Hooks("data_sources", (v: Value) => ParseSourceValue(v, now), HasSourceId, SetSourceId)
  }

  /** `load_from_dict`. */
  function LoadSources(data: Value, now: int): Result<seq<DataSource>>
  {
    Declarative.LoadSpec(SourceHooks(now), data)
  }

  /** In the object form an entry without `source_id` takes its key as the id. */
  lemma ObjectKeyBecomesId(item: Dict, key: string, now: int)
    requires !HasSourceId(item) && key != ""
    ensures var r := ParseSourceValue(VObj(Declarative.Prepare(SourceHooks(now), key, item)), now);
      r.Ok? ==> r.value.sourceId == key
  {
    assert Declarative.Prepare(SourceHooks(now), key, item) == SetSourceId(item, key);
    assert GetV(SetSourceId(item, key), "source_id") == VStr(key);
  }

  /** An entry with no `source_id` of its own and an empty key is refused. */
  lemma EmptyKeyRefused(item: Dict, now: int)
    requires !HasSourceId(item)
    ensures ParseSourceValue(VObj(Declarative.Prepare(SourceHooks(now), "", item)), now)
            == Err("Data source 'source_id' is required")
  {
    assert Declarative.Prepare(SourceHooks(now), "", item) == SetSourceId(item, "");
    assert GetV(SetSourceId(item, ""), "source_id") == VStr("");
  }
}
