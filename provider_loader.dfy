// Reading LLM providers from YAML-shaped dictionaries, and writing them back.
module ProviderLoader {
  import opened Wrappers
  import opened Values
  import opened ProviderRegistry
  import Seqs
  import Declarative

  /** A present value read as an optional string: null is None. */
  function OrStr(d: Dict, k: string, alt: string): Result<Option<string>>
  {
    OptStr(Or(GetV(d, k), GetV(d, alt)), k)
  }

  /**
   * The naming part of `_parse_provider`: a falsy `name` is refused, and
   * `display_name` (or `displayName`) falls back to the name.
   */
  function ParseNames(d: Dict): (r: Result<(string, string)>)
    ensures !Truthy(GetV(d, "name")) ==> r == Err("Provider 'name' is required")
    ensures r.Ok? ==> GetV(d, "name") == VStr(r.value.0) && r.value.0 != ""
    ensures r.Ok? ==> VStr(r.value.1) == Or(Or(GetV(d, "display_name"), GetV(d, "displayName")), VStr(r.value.0))
  {
    var namev := GetV(d, "name");
    if !Truthy(namev) then Err("Provider 'name' is required")
    else
      var name :- AsStr(namev, "name");
      var displayName :- AsStr(Or(Or(GetV(d, "display_name"), GetV(d, "displayName")), VStr(name)), "display_name");
      Ok((name, displayName))
  }

  /** The links: description and website as given, the others snake_case first, then camelCase. */
  function ParseLinks(d: Dict, p: ProviderMetadata): (r: Result<ProviderMetadata>)
    ensures r.Ok? ==> r.value.name == p.name && r.value.displayName == p.displayName
    ensures r.Ok? ==> OptValue(r.value.description) == GetV(d, "description")
    ensures r.Ok? ==> OptValue(r.value.apiDocUrl) == Or(GetV(d, "api_doc_url"), GetV(d, "apiDocUrl"))
  {
    var description :- OptStr(GetV(d, "description"), "description");
    var website :- OptStr(GetV(d, "website"), "website");
    var apiDocUrl :- OrStr(d, "api_doc_url", "apiDocUrl");
    var logoUrl :- OrStr(d, "logo_url", "logoUrl");
    var defaultBaseUrl :- OrStr(d, "default_base_url", "defaultBaseUrl");
    Ok(p.(description := description, website := website, apiDocUrl := apiDocUrl, logoUrl := logoUrl,
          defaultBaseUrl := defaultBaseUrl))
  }

  /** The flags and features, with their defaults. */
  function ParseFlags(d: Dict, p: ProviderMetadata): (r: Result<ProviderMetadata>)
    ensures r.Ok? ==> VBool(r.value.isActive) == Fallback(d, "is_active", "isActive", VBool(true))
    ensures r.Ok? ==> VBool(r.value.isAggregator) == Fallback(d, "is_aggregator", "isAggregator", VBool(false))
    ensures r.Ok? && !Truthy(GetV(d, "supported_features")) && !Truthy(GetV(d, "supportedFeatures")) ==>
      r.value.supportedFeatures == []
    ensures r.Ok? ==> r.value.(isActive := p.isActive, supportedFeatures := p.supportedFeatures,
                                isAggregator := p.isAggregator) == p
  {
    var isActive :- AsBool(Fallback(d, "is_active", "isActive", VBool(true)), "is_active");
    var features :- StrListOr(Or(GetV(d, "supported_features"), GetV(d, "supportedFeatures")), "supported_features");
    var isAggregator :- AsBool(Fallback(d, "is_aggregator", "isAggregator", VBool(false)), "is_aggregator");
    Ok(p.(isActive := isActive, supportedFeatures := features, isAggregator := isAggregator))
  }

  /** The aggregator fields and the extra config, which defaults to an empty dict. */
  function ParseExtras(d: Dict, p: ProviderMetadata): (r: Result<ProviderMetadata>)
    ensures r.Ok? && !Truthy(GetV(d, "extra_config")) && !Truthy(GetV(d, "extraConfig")) ==> r.value.extraConfig == []
    ensures r.Ok? ==> r.value.(aggregatorType := p.aggregatorType, modelNameFormat := p.modelNameFormat,
                                extraConfig := p.extraConfig) == p
  {
    var aggregatorType :- OrStr(d, "aggregator_type", "aggregatorType");
    var modelNameFormat :- OrStr(d, "model_name_format", "modelNameFormat");
    var extra :- AsDict(Or(Or(GetV(d, "extra_config"), GetV(d, "extraConfig")), VObj([])), "extra_config");
    Ok(p.(aggregatorType := aggregatorType, modelNameFormat := modelNameFormat, extraConfig := extra))
  }

  /** `_parse_provider`. */
  function ParseProvider(v: Value): (r: Result<ProviderMetadata>)
    ensures v.VObj? && !Truthy(GetV(v.entries, "name")) ==> r == Err("Provider 'name' is required")
    ensures r.Ok? ==> v.VObj? && GetV(v.entries, "name") == VStr(r.value.name) && r.value.name != ""
  {
    var d :- AsDict(v, "provider");
    var names :- ParseNames(d);
    var p := ProviderMetadata(names.0, names.1, None, None, None, None, true, [], None, false, None, None, []);
    var linked :- ParseLinks(d, p);
    var flagged :- ParseFlags(d, linked);
    ParseExtras(d, flagged)
  }

  predicate HasName(d: Dict)
  {
    Has(d, "name")
  }

  function SetName(d: Dict, key: string): Dict
  {
    Put(d, "name", VStr(key))
  }

  /** `YAMLProviderLoader` follows the generic loader under the root key "providers". */
  function ProviderHooks(): Declarative.Hooks<ProviderMetadata>
  {
    Declarative.Hooks("providers", ParseProvider, HasName, SetName)
  }

  /** `load_from_dict`. */
  function LoadProviders(data: Value): Result<seq<ProviderMetadata>>
  {
    Declarative.LoadSpec(ProviderHooks(), data)
  }

  /** In the object form an entry without a `name` key takes its key as the name. */
  lemma ObjectKeyBecomesName(item: Dict, key: string)
    requires !HasName(item) && key != ""
    ensures var r := ParseProvider(VObj(Declarative.Prepare(ProviderHooks(), key, item)));
      r.Ok? ==> r.value.name == key
  {
    assert Declarative.Prepare(ProviderHooks(), key, item) == SetName(item, key);
    assert GetV(SetName(item, key), "name") == VStr(key);
  }

  /** A `name` key that is present wins over the entry's key, even when it is empty and so refused. */
  lemma PresentNameKept(item: Dict, key: string)
    requires HasName(item)
    ensures Declarative.Prepare(ProviderHooks(), key, item) == item
  {
  }

  // ----- Export -----

  /** `ProviderMetadata.to_dict`, in the source's key order. */
  function ToDict(p: ProviderMetadata): Value
  {
    VObj(NameEntries(p) + LinkEntries(p) + FlagEntries(p))
  }

  function NameEntries(p: ProviderMetadata): Dict
  {
    [("name", VStr(p.name)), ("display_name", VStr(p.displayName)), ("description", OptValue(p.description)),
     ("website", OptValue(p.website)), ("api_doc_url", OptValue(p.apiDocUrl))]
  }

  function LinkEntries(p: ProviderMetadata): Dict
  {
    [("logo_url", OptValue(p.logoUrl)), ("is_active", VBool(p.isActive)),
     ("supported_features", Strs(p.supportedFeatures)), ("default_base_url", OptValue(p.defaultBaseUrl))]
  }

  function FlagEntries(p: ProviderMetadata): Dict
  {
    [("is_aggregator", VBool(p.isAggregator)), ("aggregator_type", OptValue(p.aggregatorType)),
     ("model_name_format", OptValue(p.modelNameFormat)), ("extra_config", VObj(p.extraConfig))]
  }

  /** The value under each key of an exported provider. */
  function ExportedField(p: ProviderMetadata, k: string): Option<Value>
  {
    if k == "name" then Some(VStr(p.name))
    else if k == "display_name" then Some(VStr(p.displayName))
    else if k == "description" then Some(OptValue(p.description))
    else if k == "website" then Some(OptValue(p.website))
    else if k == "api_doc_url" then Some(OptValue(p.apiDocUrl))
    else if k == "logo_url" then Some(OptValue(p.logoUrl))
    else if k == "is_active" then Some(VBool(p.isActive))
    else if k == "supported_features" then Some(Strs(p.supportedFeatures))
    else if k == "default_base_url" then Some(OptValue(p.defaultBaseUrl))
    else if k == "is_aggregator" then Some(VBool(p.isAggregator))
    else if k == "aggregator_type" then Some(OptValue(p.aggregatorType))
    else if k == "model_name_format" then Some(OptValue(p.modelNameFormat))
    else if k == "extra_config" then Some(VObj(p.extraConfig))
    else None
  }

  lemma NameGet(p: ProviderMetadata, k: string)
    ensures Get(NameEntries(p), k) ==
      if k in ["name", "display_name", "description", "website", "api_doc_url"] then ExportedField(p, k) else None
  {
    var d := NameEntries(p);
    if k == "name" { GetAt(d, 0); }
    else if k == "display_name" { GetAt(d, 1); }
    else if k == "description" { GetAt(d, 2); }
    else if k == "website" { GetAt(d, 3); }
    else if k == "api_doc_url" { GetAt(d, 4); }
    else { GetAbsent(d, k); }
  }

  lemma LinkGet(p: ProviderMetadata, k: string)
    ensures Get(LinkEntries(p), k) ==
      if k in ["logo_url", "is_active", "supported_features", "default_base_url"] then ExportedField(p, k) else None
  {
    var d := LinkEntries(p);
    if k == "logo_url" { GetAt(d, 0); }
    else if k == "is_active" { GetAt(d, 1); }
    else if k == "supported_features" { GetAt(d, 2); }
    else if k == "default_base_url" { GetAt(d, 3); }
    else { GetAbsent(d, k); }
  }

  lemma FlagGet(p: ProviderMetadata, k: string)
    ensures Get(FlagEntries(p), k) ==
      if k in ["is_aggregator", "aggregator_type", "model_name_format", "extra_config"] then ExportedField(p, k)
      else None
  {
    var d := FlagEntries(p);
    if k == "is_aggregator" { GetAt(d, 0); }
    else if k == "aggregator_type" { GetAt(d, 1); }
    else if k == "model_name_format" { GetAt(d, 2); }
    else if k == "extra_config" { GetAt(d, 3); }
    else { GetAbsent(d, k); }
  }

  lemma ExportGet(p: ProviderMetadata, k: string)
    ensures Get(ToDict(p).entries, k) == ExportedField(p, k)
  {
    NameGet(p, k);
    LinkGet(p, k);
    FlagGet(p, k);
    GetAppend(NameEntries(p), LinkEntries(p), k);
    GetAppend(NameEntries(p) + LinkEntries(p), FlagEntries(p), k);
  }

  /**
   * Providers the round trip can reproduce: the `or`-defaults cannot give
   * back an empty name or display name, nor an empty string where a
   * camelCase alternative is consulted.
   */
  predicate Exportable(p: ProviderMetadata)
  {
    && p.name != "" && p.displayName != ""
    && p.apiDocUrl != Some("") && p.logoUrl != Some("") && p.defaultBaseUrl != Some("")
    && p.aggregatorType != Some("") && p.modelNameFormat != Some("")
  }

  /** An optional string, exported and read back through `a or b`, is itself unless it is empty. */
  lemma OrStrOfExport(d: Dict, k: string, alt: string, o: Option<string>)
    requires o != Some("") && GetV(d, k) == OptValue(o) && GetV(d, alt) == VNull
    ensures OrStr(d, k, alt) == Ok(o)
  {
  }

  lemma ParseNamesOfExport(p: ProviderMetadata)
    requires Exportable(p)
    ensures ParseNames(ToDict(p).entries) == Ok((p.name, p.displayName))
  {
    ExportGet(p, "name");
    ExportGet(p, "display_name");
    ExportGet(p, "displayName");
  }

  lemma ParseLinksOfExport(p: ProviderMetadata, q: ProviderMetadata)
    requires Exportable(p)
    ensures ParseLinks(ToDict(p).entries, q) == Ok(q.(description := p.description, website := p.website,
      apiDocUrl := p.apiDocUrl, logoUrl := p.logoUrl, defaultBaseUrl := p.defaultBaseUrl))
  {
    var d := ToDict(p).entries;
    assert OptStr(GetV(d, "description"), "description") == Ok(p.description) by { ExportGet(p, "description"); }
    assert OptStr(GetV(d, "website"), "website") == Ok(p.website) by { ExportGet(p, "website"); }
    assert OrStr(d, "api_doc_url", "apiDocUrl") == Ok(p.apiDocUrl) by {
      ExportGet(p, "api_doc_url"); ExportGet(p, "apiDocUrl");
      OrStrOfExport(d, "api_doc_url", "apiDocUrl", p.apiDocUrl);
    }
    assert OrStr(d, "logo_url", "logoUrl") == Ok(p.logoUrl) by {
      ExportGet(p, "logo_url"); ExportGet(p, "logoUrl");
      OrStrOfExport(d, "logo_url", "logoUrl", p.logoUrl);
    }
    assert OrStr(d, "default_base_url", "defaultBaseUrl") == Ok(p.defaultBaseUrl) by {
      ExportGet(p, "default_base_url"); ExportGet(p, "defaultBaseUrl");
      OrStrOfExport(d, "default_base_url", "defaultBaseUrl", p.defaultBaseUrl);
    }
  }

  lemma ParseFlagsOfExport(p: ProviderMetadata, q: ProviderMetadata)
    ensures ParseFlags(ToDict(p).entries, q) == Ok(q.(isActive := p.isActive, supportedFeatures := p.supportedFeatures,
      isAggregator := p.isAggregator))
  {
    ExportGet(p, "is_active"); ExportGet(p, "supported_features"); ExportGet(p, "supportedFeatures");
    ExportGet(p, "is_aggregator");
    StrsRoundTrip(p.supportedFeatures);
  }

  lemma ExtraConfigOfExport(p: ProviderMetadata)
    ensures var d := ToDict(p).entries;
      AsDict(Or(Or(GetV(d, "extra_config"), GetV(d, "extraConfig")), VObj([])), "extra_config") == Ok(p.extraConfig)
  {
    ExportGet(p, "extra_config"); ExportGet(p, "extraConfig");
  }

  lemma ParseExtrasOfExport(p: ProviderMetadata, q: ProviderMetadata)
    requires Exportable(p)
    ensures ParseExtras(ToDict(p).entries, q) == Ok(q.(aggregatorType := p.aggregatorType,
      modelNameFormat := p.modelNameFormat, extraConfig := p.extraConfig))
  {
    var d := ToDict(p).entries;
    ExportGet(p, "aggregator_type"); ExportGet(p, "aggregatorType");
    ExportGet(p, "model_name_format"); ExportGet(p, "modelNameFormat");
    OrStrOfExport(d, "aggregator_type", "aggregatorType", p.aggregatorType);
    OrStrOfExport(d, "model_name_format", "modelNameFormat", p.modelNameFormat);
    ExtraConfigOfExport(p);
  }

  /** Every exportable provider loads back as itself. */
  lemma ExportThenParse(p: ProviderMetadata)
    requires Exportable(p)
    ensures ParseProvider(ToDict(p)) == Ok(p)
  {
    ParseNamesOfExport(p);
    var q := ProviderMetadata(p.name, p.displayName, None, None, None, None, true, [], None, false, None, None, []);
    ParseLinksOfExport(p, q);
    var linked := q.(description := p.description, website := p.website, apiDocUrl := p.apiDocUrl,
                     logoUrl := p.logoUrl, defaultBaseUrl := p.defaultBaseUrl);
    ParseFlagsOfExport(p, linked);
    ParseExtrasOfExport(p, linked.(isActive := p.isActive, supportedFeatures := p.supportedFeatures,
                                   isAggregator := p.isAggregator));
  }

  /** `export_to_yaml` writes `{"providers": [...]}`, which loads back as the same providers, in order. */
  lemma ExportedProvidersLoadBack(items: seq<ProviderMetadata>)
    requires forall p :: p in items ==> Exportable(p)
    ensures LoadProviders(VObj([("providers", VList(Seqs.Map(ToDict, items)))])) == Ok(items)
  {
    forall p | p in items
      ensures ProviderHooks().parse(ToDict(p)) == Ok(p)
    {
      ExportThenParse(p);
    }
    Declarative.ExportThenLoadDocument(ProviderHooks(), ToDict, items);
  }
}
