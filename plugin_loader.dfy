// Reading plugins from YAML-shaped dictionaries, and the dictionary a plugin
// is exported as.
module PluginLoader {
  import opened Wrappers
  import opened Values
  import opened PluginRegistry
  import Seqs
  import Declarative

  function StatusName(s: PluginStatus): string
  {
    match s
    case Registered => "registered"
    case Loaded => "loaded"
    case Active => "active"
    case Inactive => "inactive"
    case Error => "error"
    case Deprecated => "deprecated"
  }

  /** `PluginStatus(v)`: any value that names no status is refused. */
  function ParseStatus(v: Value): (r: Result<PluginStatus>)
    ensures r.Ok? ==> v == VStr(StatusName(r.value))
    ensures v.VStr? && r.Err? ==> r.error == "'" + v.s + "' is not a valid PluginStatus"
  {
    match v
    case VStr("registered") => Ok(Registered)
    case VStr("loaded") => Ok(Loaded)
    case VStr("active") => Ok(Active)
    case VStr("inactive") => Ok(Inactive)
    case VStr("error") => Ok(Error)
    case VStr("deprecated") => Ok(Deprecated)
    case VStr(x) => Err("'" + x + "' is not a valid PluginStatus")
    case _ => Err("not a valid PluginStatus")
  }

  lemma {:induction false} StatusNamesRoundTrip(s: PluginStatus)
    ensures ParseStatus(VStr(StatusName(s))) == Ok(s)
  {
    match s
    case Registered =>
    case Loaded =>
    case Active =>
    case Inactive =>
    case Error =>
    case Deprecated =>
  }

  /** Id, name, version, description, author and entry point: the required and defaulted text fields. */
  function ParseHead(d: Dict, now: int): (r: Result<PluginMetadata>)
    ensures !Truthy(GetV(d, "plugin_id")) && !Truthy(GetV(d, "id")) ==> r == Err("Plugin 'plugin_id' is required")
    ensures r.Ok? ==> VStr(r.value.entryPoint) == Or(GetV(d, "entry_point"), GetV(d, "entryPoint"))
    ensures r.Ok? ==> r.value.pluginId != "" && r.value.entryPoint != ""
    ensures r.Ok? ==> VStr(r.value.pluginId) == Or(GetV(d, "plugin_id"), GetV(d, "id"))
    ensures r.Ok? ==> VStr(r.value.name) == (if Truthy(GetV(d, "name")) then GetV(d, "name") else VStr(r.value.pluginId))
    ensures r.Ok? ==> VStr(r.value.version) == GetOr(d, "version", VStr("1.0.0"))
    ensures r.Ok? ==> VStr(r.value.author) == GetOr(d, "author", VStr("unknown"))
    ensures r.Ok? ==> r.value.status == Registered && r.value.errorMessage == None
  {
    var idv := Or(GetV(d, "plugin_id"), GetV(d, "id"));
    if !Truthy(idv) then Err("Plugin 'plugin_id' is required")
    else
      var id :- AsStr(idv, "plugin_id");
      var name :- StrOr(GetV(d, "name"), id, "name");
      var version :- StrField(d, "version", "1.0.0");
      var description :- StrField(d, "description", "");
      var author :- StrField(d, "author", "unknown");
      var ep := Or(GetV(d, "entry_point"), GetV(d, "entryPoint"));
      if !Truthy(ep) then Err("Plugin 'entry_point' is required")
      else
        var entryPoint :- AsStr(ep, "entry_point");
        Ok(PluginMetadata(id, name, version, description, author, entryPoint, [], [], Registered, None, now, now, None))
  }

  /** Dependencies, tags, status, path, timestamps and the error message. */
  function ParseRest(d: Dict, p: PluginMetadata, now: int): (r: Result<PluginMetadata>)
    ensures r.Ok? ==> r.value == p.(dependencies := r.value.dependencies, tags := r.value.tags,
      status := r.value.status, pluginPath := r.value.pluginPath, createdAt := r.value.createdAt,
      updatedAt := r.value.updatedAt, errorMessage := r.value.errorMessage)
    ensures r.Ok? && !Has(d, "status") ==> r.value.status == Registered
    ensures r.Ok? && !Has(d, "error_message") ==> r.value.errorMessage == p.errorMessage
    ensures r.Ok? && !Has(d, "created_at") ==> r.value.createdAt == now
  {
    var dependencies :- StrListField(d, "dependencies");
    var tags :- StrListField(d, "tags");
    var status :- ParseStatus(GetOr(d, "status", VStr("registered")));
    var pluginPath :- OptStr(Or(GetV(d, "plugin_path"), GetV(d, "pluginPath")), "plugin_path");
    var createdAt :- if Has(d, "created_at") then Instant(GetV(d, "created_at"), "created_at") else Ok(now);
    var updatedAt :- if Has(d, "updated_at") then Instant(GetV(d, "updated_at"), "updated_at") else Ok(now);
    var errorMessage :- if Has(d, "error_message") then OptStr(GetV(d, "error_message"), "error_message")
                        else Ok(p.errorMessage);
    Ok(p.(dependencies := dependencies, tags := tags, status := status, pluginPath := pluginPath,
          createdAt := createdAt, updatedAt := updatedAt, errorMessage := errorMessage))
  }

  /** `_parse_item`. */
  function ParsePlugin(v: Value, now: int): (r: Result<PluginMetadata>)
    ensures r.Ok? ==> v.VObj? && r.value.pluginId != "" && r.value.entryPoint != ""
  {
    var d :- AsDict(v, "plugin item");
    var p :- ParseHead(d, now);
    ParseRest(d, p, now)
  }

  /** A status that names no plugin status fails the load. */
  lemma UnknownStatusFails(d: Dict, now: int)
    requires Has(d, "status") && GetV(d, "status") == VStr("running")
    ensures ParsePlugin(VObj(d), now).Err?
  {
    if ParseHead(d, now).Ok? {
      assert ParseStatus(VStr("running")).Err?;
    }
  }

  /** `_has_id_field`. */
  predicate HasIdField(d: Dict)
  {
    Has(d, "plugin_id") || Has(d, "id")
  }

  /** `_set_id_field`: writes `plugin_id` only when it is absent. */
  function SetIdField(d: Dict, key: string): (r: Dict)
    ensures Has(d, "plugin_id") ==> r == d
    ensures !Has(d, "plugin_id") ==> Get(r, "plugin_id") == Some(VStr(key))
    ensures forall k :: k != "plugin_id" ==> Get(r, k) == Get(d, k)
  {
    if Has(d, "plugin_id") then d else Put(d, "plugin_id", VStr(key))
  }

  function Hooks(now: int): Declarative.Hooks<PluginMetadata>
  {
    Declarative.Hooks("plugins", (v: Value) => ParsePlugin(v, now), HasIdField, SetIdField)
  }

  /** `PluginMetadata.to_dict` over the fields the model keeps, in the source's key order. */
  function ToDict(p: PluginMetadata): Value
  {
    VObj(HeadEntries(p) + RestEntries(p) + TimeEntries(p))
  }

  function HeadEntries(p: PluginMetadata): Dict
  {
    [("plugin_id", VStr(p.pluginId)), ("name", VStr(p.name)), ("version", VStr(p.version)),
     ("description", VStr(p.description)), ("author", VStr(p.author))]
  }

  function RestEntries(p: PluginMetadata): Dict
  {
    [("entry_point", VStr(p.entryPoint)), ("dependencies", Strs(p.dependencies)), ("tags", Strs(p.tags)),
     ("status", VStr(StatusName(p.status))), ("plugin_path", OptValue(p.pluginPath))]
  }

  function TimeEntries(p: PluginMetadata): Dict
  {
    [("created_at", VInt(p.createdAt)), ("updated_at", VInt(p.updatedAt)), ("error_message", OptValue(p.errorMessage))]
  }

  /** The value under each key of an exported plugin. */
  function ExportedField(p: PluginMetadata, k: string): Option<Value>
  {
    if k == "plugin_id" then Some(VStr(p.pluginId))
    else if k == "name" then Some(VStr(p.name))
    else if k == "version" then Some(VStr(p.version))
    else if k == "description" then Some(VStr(p.description))
    else if k == "author" then Some(VStr(p.author))
    else if k == "entry_point" then Some(VStr(p.entryPoint))
    else if k == "dependencies" then Some(Strs(p.dependencies))
    else if k == "tags" then Some(Strs(p.tags))
    else if k == "status" then Some(VStr(StatusName(p.status)))
    else if k == "plugin_path" then Some(OptValue(p.pluginPath))
    else if k == "created_at" then Some(VInt(p.createdAt))
    else if k == "updated_at" then Some(VInt(p.updatedAt))
    else if k == "error_message" then Some(OptValue(p.errorMessage))
    else None
  }

  lemma HeadGet(p: PluginMetadata, k: string)
    ensures Get(HeadEntries(p), k) ==
      if k in ["plugin_id", "name", "version", "description", "author"] then ExportedField(p, k) else None
  {
    var d := HeadEntries(p);
    if k == "plugin_id" { GetAt(d, 0); }
    else if k == "name" { GetAt(d, 1); }
    else if k == "version" { GetAt(d, 2); }
    else if k == "description" { GetAt(d, 3); }
    else if k == "author" { GetAt(d, 4); }
    else { GetAbsent(d, k); }
  }

  lemma RestGet(p: PluginMetadata, k: string)
    ensures Get(RestEntries(p), k) ==
      if k in ["entry_point", "dependencies", "tags", "status", "plugin_path"] then ExportedField(p, k) else None
  {
    var d := RestEntries(p);
    if k == "entry_point" { GetAt(d, 0); }
    else if k == "dependencies" { GetAt(d, 1); }
    else if k == "tags" { GetAt(d, 2); }
    else if k == "status" { GetAt(d, 3); }
    else if k == "plugin_path" { GetAt(d, 4); }
    else { GetAbsent(d, k); }
  }

  lemma TimeGet(p: PluginMetadata, k: string)
    ensures Get(TimeEntries(p), k) ==
      if k in ["created_at", "updated_at", "error_message"] then ExportedField(p, k) else None
  {
    var d := TimeEntries(p);
    if k == "created_at" { GetAt(d, 0); }
    else if k == "updated_at" { GetAt(d, 1); }
    else if k == "error_message" { GetAt(d, 2); }
    else { GetAbsent(d, k); }
  }

  lemma ExportGet(p: PluginMetadata, k: string)
    ensures Get(ToDict(p).entries, k) == ExportedField(p, k)
  {
    HeadGet(p, k);
    RestGet(p, k);
    TimeGet(p, k);
    GetAppend(HeadEntries(p), RestEntries(p), k);
    GetAppend(HeadEntries(p) + RestEntries(p), TimeEntries(p), k);
  }

  /**
   * Records the round trip can reproduce: `or`-defaults cannot give back an
   * empty id, name or entry point, nor an empty plugin path.
   */
  predicate Exportable(p: PluginMetadata)
  {
    p.pluginId != "" && p.name != "" && p.entryPoint != "" && p.pluginPath != Some("")
  }

  lemma ParseHeadOfExport(p: PluginMetadata, now: int)
    requires Exportable(p)
    ensures ParseHead(ToDict(p).entries, now) == Ok(PluginMetadata(p.pluginId, p.name, p.version, p.description,
      p.author, p.entryPoint, [], [], Registered, None, now, now, None))
  {
    ExportGet(p, "plugin_id"); ExportGet(p, "id"); ExportGet(p, "name"); ExportGet(p, "version");
    ExportGet(p, "description"); ExportGet(p, "author"); ExportGet(p, "entry_point"); ExportGet(p, "entryPoint");
  }

  lemma ParseRestOfExport(p: PluginMetadata, b: PluginMetadata, now: int)
    requires Exportable(p)
    ensures ParseRest(ToDict(p).entries, b, now) == Ok(b.(dependencies := p.dependencies, tags := p.tags,
      status := p.status, pluginPath := p.pluginPath, createdAt := p.createdAt, updatedAt := p.updatedAt,
      errorMessage := p.errorMessage))
  {
    ListsOfExport(p);
    StampsOfExport(p);
  }

  /** The exported dependencies, tags and status read back as themselves. */
  lemma ListsOfExport(p: PluginMetadata)
    requires Exportable(p)
    ensures var d := ToDict(p).entries;
      && StrListField(d, "dependencies") == Ok(p.dependencies)
      && StrListField(d, "tags") == Ok(p.tags)
      && ParseStatus(GetOr(d, "status", VStr("registered"))) == Ok(p.status)
  {
    ExportGet(p, "dependencies"); ExportGet(p, "tags"); ExportGet(p, "status");
    StrsRoundTrip(p.dependencies);
    StrsRoundTrip(p.tags);
    StatusNamesRoundTrip(p.status);
  }

  /** The exported path, timestamps and error message are present and read back as themselves. */
  lemma StampsOfExport(p: PluginMetadata)
    requires Exportable(p)
    ensures var d := ToDict(p).entries;
      && OptStr(Or(GetV(d, "plugin_path"), GetV(d, "pluginPath")), "plugin_path") == Ok(p.pluginPath)
      && Has(d, "created_at") && Instant(GetV(d, "created_at"), "created_at") == Ok(p.createdAt)
      && Has(d, "updated_at") && Instant(GetV(d, "updated_at"), "updated_at") == Ok(p.updatedAt)
      && Has(d, "error_message") && OptStr(GetV(d, "error_message"), "error_message") == Ok(p.errorMessage)
  {
    ExportGet(p, "plugin_path"); ExportGet(p, "pluginPath");
    ExportGet(p, "created_at"); ExportGet(p, "updated_at"); ExportGet(p, "error_message");
  }

  /** Every exportable plugin loads back as itself. */
  lemma ExportThenLoad(p: PluginMetadata, now: int)
    requires Exportable(p)
    ensures ParsePlugin(ToDict(p), now) == Ok(p)
  {
    ParseHeadOfExport(p, now);
    ParseRestOfExport(p, PluginMetadata(p.pluginId, p.name, p.version, p.description, p.author, p.entryPoint,
                                        [], [], Registered, None, now, now, None), now);
  }

  /** A document exported from exportable plugins loads back as the same plugins, in order. */
  lemma ExportedPluginsLoadBack(items: seq<PluginMetadata>, now: int)
    requires forall p :: p in items ==> Exportable(p)
    ensures Declarative.LoadSpec(Hooks(now), VObj([("plugins", VList(Seqs.Map(ToDict, items)))])) == Ok(items)
  {
    forall p | p in items
      ensures Hooks(now).parse(ToDict(p)) == Ok(p)
    {
      ExportThenLoad(p, now);
    }
    Declarative.ExportThenLoadDocument(Hooks(now), ToDict, items);
  }
}
