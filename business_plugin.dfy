// Business plugins: a bundle of capabilities with its metadata, the runtime
// object its entry point yields, and the dictionary form it is stored as.
module BusinessModel {
  import opened Wrappers
  import opened Values
  import Seqs
  import Declarative

  datatype PluginStatus = Registered | Loaded | Active | Inactive | Error | Deprecated

  datatype Capability = Analysis | Trading | Screening | Research | Prediction | Custom

  /**
   * The object loading the entry point produced, described by the hooks it
   * offers; the hooks' own effects are not modelled.
   */
  datatype Instance = NoInstance | Instance(hasActivate: bool, hasDeactivate: bool, hasExecute: bool)

  /**
   * A business plugin. The agent, tool, workflow and data-model configurations
   * and the free-form plugin config are not modelled; timestamps come from the
   * caller's clock.
   */
  datatype Plugin = Plugin(
    pluginId: string,
    name: string,
    version: string,
    description: string,
    author: string,
    capabilities: seq<Capability>,
    entryPoint: Option<string>,
    dependencies: seq<string>,
    tags: seq<string>,
    iconUrl: Option<string>,
    documentationUrl: Option<string>,
    status: PluginStatus,
    enabled: bool,
    createdAt: int,
    updatedAt: int,
    instance: Instance)

  function StatusName(s: PluginStatus): string
  {
    match s
    case Registered => "registered"
    case Loaded => "loaded"
    case Active => "active"
    case Inactive => "inactive"
    case Error => "error"
    case Deprecated => "deprecated"
  }

  /** `PluginStatus(v)`: any value that names no status is refused. */
  function ParseStatus(v: Value): (r: Result<PluginStatus>)
    ensures r.Ok? ==> v == VStr(StatusName(r.value))
    ensures v.VStr? && r.Err? ==> r.error == "'" + v.s + "' is not a valid PluginStatus"
  {
    match v
    case VStr("registered") => Ok(Registered)
    case VStr("loaded") => Ok(Loaded)
    case VStr("active") => Ok(Active)
    case VStr("inactive") => Ok(Inactive)
    case VStr("error") => Ok(Error)
    case VStr("deprecated") => Ok(Deprecated)
    case VStr(x) => Err("'" + x + "' is not a valid PluginStatus")
    case _ => Err("not a valid PluginStatus")
  }

  lemma {:induction false} StatusNamesRoundTrip(s: PluginStatus)
    ensures ParseStatus(VStr(StatusName(s))) == Ok(s)
  {
    match s
    case Registered =>
    case Loaded =>
    case Active =>
    case Inactive =>
    case Error =>
    case Deprecated =>
  }

  function CapabilityName(c: Capability): string
  {
    match c
    case Analysis => "analysis"
    case Trading => "trading"
    case Screening => "screening"
    case Research => "research"
    case Prediction => "prediction"
    case Custom => "custom"
  }

  function CapabilityValue(c: Capability): Value
  {
    VStr(CapabilityName(c))
  }

  /** `PluginCapability(v)`: any value that names no capability is refused. */
  function ParseCapability(v: Value): (r: Result<Capability>)
    ensures r.Ok? ==> v == CapabilityValue(r.value)
    ensures v.VStr? && r.Err? ==> r.error == "'" + v.s + "' is not a valid PluginCapability"
  {
    match v
    case VStr("analysis") => Ok(Analysis)
    case VStr("trading") => Ok(Trading)
    case VStr("screening") => Ok(Screening)
    case VStr("research") => Ok(Research)
    case VStr("prediction") => Ok(Prediction)
    case VStr("custom") => Ok(Custom)
    case VStr(x) => Err("'" + x + "' is not a valid PluginCapability")
    case _ => Err("not a valid PluginCapability")
  }

  lemma {:induction false} CapabilityNamesRoundTrip(c: Capability)
    ensures ParseCapability(CapabilityValue(c)) == Ok(c)
  {
    match c
    case Analysis =>
    case Trading =>
    case Screening =>
    case Research =>
    case Prediction =>
    case Custom =>
  }

  /** `data[k]` for a string: a missing key raises `KeyError`. */
  function Required(d: Dict, k: string): (r: Result<string>)
    ensures !Has(d, k) ==> r == Err("KeyError: " + k)
    ensures r.Ok? <==> Has(d, k) && GetV(d, k).VStr?
    ensures r.Ok? ==> r.value == GetV(d, k).s
  {
    if !Has(d, k) then Err("KeyError: " + k) else AsStr(GetV(d, k), k)
  }

  /** `data.get("capabilities", [])`, each element read as a capability. */
  function ParseCapabilities(d: Dict): (r: Result<seq<Capability>>)
    ensures !Has(d, "capabilities") ==> r == Ok([])
    ensures r.Ok? && Has(d, "capabilities") ==> GetV(d, "capabilities") == VList(Seqs.Map(CapabilityValue, r.value))
  {
    var v := GetOr(d, "capabilities", VList([]));
    if !v.VList? then Err("capabilities must be a list")
    else
      var caps :- Declarative.ParseAll(ParseCapability, v.items);
      Declarative.ParseAllInOrder(ParseCapability, v.items);
      Ok(caps)
  }

  /** The keyword arguments a nested configuration dataclass takes: its required fields and its defaulted ones. */
  datatype ConfigShape = ConfigShape(className: string, required: seq<string>, optional: seq<string>)

  const AgentShape := ConfigShape("AgentConfig", ["agent_id", "agent_type"], ["enabled", "config"])
  const ToolShape := ConfigShape("ToolConfig", ["tool_id", "tool_type"], ["enabled", "config"])
  const WorkflowShape := ConfigShape("WorkflowConfig", ["workflow_id", "name"], ["description", "nodes", "edges", "config"])
  const DataModelShape := ConfigShape("DataModelConfig", ["model_id", "model_type"], ["schema", "validation_rules"])

  /** `Shape(**entry)` succeeds exactly when no key is unknown and every required field is given. */
  predicate Fits(e: Dict, shape: ConfigShape)
  {
    && (forall i :: 0 <= i < |e| ==> e[i].0 in shape.required || e[i].0 in shape.optional)
    && (forall k :: k in shape.required ==> Has(e, k))
  }

  /** The TypeError `Shape(**e)` raises for a dict that does not fit: an unknown key first, else a missing field. */
  function Misfit(e: Dict, shape: ConfigShape): (r: Option<string>)
    ensures r.None? <==> Fits(e, shape)
  {
    var unknown := UnknownKey(e, shape);
    if unknown.Some? then
      Some(shape.className + ".__init__() got an unexpected keyword argument '" + unknown.value + "'")
    else
      var missing := MissingField(e, shape.required);
      if missing.Some? then Some(shape.className + ".__init__() missing required argument: '" + missing.value + "'")
      else None
  }

  /** The first key of `e` that the dataclass does not declare. */
  function UnknownKey(e: Dict, shape: ConfigShape): (r: Option<string>)
    ensures r.None? <==> forall i :: 0 <= i < |e| ==> e[i].0 in shape.required || e[i].0 in shape.optional
    ensures r.Some? ==> Has(e, r.value) && r.value !in shape.required && r.value !in shape.optional
  {
    if e == [] then None
    else if e[0].0 !in shape.required && e[0].0 !in shape.optional then Some(e[0].0)
    else UnknownKey(e[1..], shape)
  }

  /** The first required field that `e` does not give. */
  function MissingField(e: Dict, required: seq<string>): (r: Option<string>)
    ensures r.None? <==> forall k :: k in required ==> Has(e, k)
    ensures r.Some? ==> r.value in required && !Has(e, r.value)
  {
    if required == [] then None
    else if !Has(e, required[0]) then Some(required[0])
    else MissingField(e, required[1..])
  }

  /**
   * The list comprehension over `data.get(key, [])`: every dict entry is
   * passed as keyword arguments to the dataclass, any other entry is kept.
   * Iterating a missing key's `[]`, a string or a dict yields no dict; any
   * other non-list value is not iterable.
   */
  function CheckConfigs(d: Dict, key: string, shape: ConfigShape): (r: Result<()>)
    ensures !Has(d, key) ==> r.Ok?
    ensures GetV(d, key).VList? ==>
      (r.Ok? <==> forall i :: 0 <= i < |GetV(d, key).items| ==>
                    GetV(d, key).items[i].VObj? ==> Fits(GetV(d, key).items[i].entries, shape))
  {
    var v := GetOr(d, key, VList([]));
    if v.VStr? || v.VObj? then Ok(())
    else if !v.VList? then Err("TypeError: '" + key + "' is not iterable")
    else
      var bad := FirstMisfit(v.items, shape);
      if bad.Some? then Err("TypeError: " + Misfit(v.items[bad.value].entries, shape).value) else Ok(())
  }

  /** The index of the first dict entry that does not fit the dataclass. */
  function FirstMisfit(items: seq<Value>, shape: ConfigShape): (r: Option<nat>)
    ensures r.None? <==> forall i :: 0 <= i < |items| ==> items[i].VObj? ==> Fits(items[i].entries, shape)
    ensures r.Some? ==> r.value < |items| && items[r.value].VObj? && !Fits(items[r.value].entries, shape)
    ensures r.Some? ==> forall i :: 0 <= i < r.value ==> items[i].VObj? ==> Fits(items[i].entries, shape)
  {
    if items == [] then None
    else if items[0].VObj? && !Fits(items[0].entries, shape) then Some(0)
    else
      var rest := FirstMisfit(items[1..], shape);
      if rest.Some? then Some(rest.value + 1) else None
  }

  /** The four nested-configuration comprehensions, in the order `from_dict` runs them. */
  function CheckAllConfigs(d: Dict): (r: Result<()>)
    ensures r.Ok? <==> (&& CheckConfigs(d, "agents", AgentShape).Ok? && CheckConfigs(d, "tools", ToolShape).Ok?
                        && CheckConfigs(d, "workflows", WorkflowShape).Ok?
                        && CheckConfigs(d, "data_models", DataModelShape).Ok?)
    ensures CheckConfigs(d, "agents", AgentShape).Err? ==> r == CheckConfigs(d, "agents", AgentShape)
  {
    var _ :- CheckConfigs(d, "agents", AgentShape);
    var _ :- CheckConfigs(d, "tools", ToolShape);
    var _ :- CheckConfigs(d, "workflows", WorkflowShape);
    CheckConfigs(d, "data_models", DataModelShape)
  }

  /**
   * The capabilities, the nested configurations, then the five required
   * fields, in the order `from_dict` evaluates them.
   */
  function ParseHead(d: Dict): (r: Result<Plugin>)
    ensures ParseCapabilities(d).Err? ==> r == Err(ParseCapabilities(d).error)
    ensures ParseCapabilities(d).Ok? && CheckAllConfigs(d).Err? ==> r == Err(CheckAllConfigs(d).error)
    ensures ParseCapabilities(d).Ok? && CheckAllConfigs(d).Ok? && !Has(d, "plugin_id") ==>
              r == Err("KeyError: plugin_id")
    ensures r.Ok? ==> Has(d, "plugin_id") && Has(d, "name") && Has(d, "version") && Has(d, "description")
                      && Has(d, "author") && CheckAllConfigs(d).Ok?
    ensures r.Ok? ==> VStr(r.value.pluginId) == GetV(d, "plugin_id") && VStr(r.value.name) == GetV(d, "name")
    ensures r.Ok? ==> Ok(r.value.capabilities) == ParseCapabilities(d)
  {
    var capabilities := ParseCapabilities(d);
    if capabilities.Err? then Err(capabilities.error)
    else
      var configs := CheckAllConfigs(d);
      if configs.Err? then Err(configs.error)
      else ParseRequired(d, capabilities.value)
  }

  /** The five fields `from_dict` reads with `data[...]`. */
  function ParseRequired(d: Dict, capabilities: seq<Capability>): (r: Result<Plugin>)
    ensures !Has(d, "plugin_id") ==> r == Err("KeyError: plugin_id")
    ensures r.Ok? ==> Has(d, "plugin_id") && Has(d, "name") && Has(d, "version") && Has(d, "description")
                      && Has(d, "author")
    ensures r.Ok? ==> VStr(r.value.pluginId) == GetV(d, "plugin_id") && VStr(r.value.name) == GetV(d, "name")
    ensures r.Ok? ==> r.value.capabilities == capabilities
  {
    var pluginId :- Required(d, "plugin_id");
    var name :- Required(d, "name");
    var version :- Required(d, "version");
    var description :- Required(d, "description");
    var author :- Required(d, "author");
    Ok(Plugin(pluginId, name, version, description, author, capabilities, None, [], [], None, None, Registered,
              true, 0, 0, NoInstance))
  }

  /** The optional fields; the timestamps are never read, so both become the load time. */
  function ParseRest(d: Dict, p: Plugin, now: int): (r: Result<Plugin>)
    ensures r.Ok? ==> r.value == p.(entryPoint := r.value.entryPoint, dependencies := r.value.dependencies,
      tags := r.value.tags, iconUrl := r.value.iconUrl, documentationUrl := r.value.documentationUrl,
      status := r.value.status, enabled := r.value.enabled, createdAt := now, updatedAt := now,
      instance := NoInstance)
    ensures r.Ok? && !Has(d, "status") ==> r.value.status == Registered
    ensures r.Ok? && !Has(d, "enabled") ==> r.value.enabled
    ensures r.Ok? && !Has(d, "entry_point") ==> r.value.entryPoint == None
  {
    var entryPoint :- OptStr(GetV(d, "entry_point"), "entry_point");
    var dependencies :- StrListField(d, "dependencies");
    var tags :- StrListField(d, "tags");
    var iconUrl :- OptStr(GetV(d, "icon_url"), "icon_url");
    var documentationUrl :- OptStr(GetV(d, "documentation_url"), "documentation_url");
    var status :- ParseStatus(GetOr(d, "status", VStr("registered")));
    var enabled :- AsBool(GetOr(d, "enabled", VBool(true)), "enabled");
    Ok(p.(entryPoint := entryPoint, dependencies := dependencies, tags := tags, iconUrl := iconUrl,
          documentationUrl := documentationUrl, status := status, enabled := enabled, createdAt := now,
          updatedAt := now, instance := NoInstance))
  }

  /** `BusinessPlugin.from_dict`, at clock reading `now`. */
  function FromDict(v: Value, now: int): (r: Result<Plugin>)
    ensures r.Ok? ==> v.VObj? && r.value.createdAt == now && r.value.updatedAt == now
    ensures r.Ok? ==> r.value.instance == NoInstance
    ensures r.Ok? ==> CheckAllConfigs(v.entries).Ok? && Ok(r.value.capabilities) == ParseCapabilities(v.entries)
  {
    var d :- AsDict(v, "plugin");
    var p :- ParseHead(d);
    ParseRest(d, p, now)
  }

  /** An unknown capability fails the whole read. */
  lemma UnknownCapabilityFails(d: Dict, now: int, i: nat)
    requires Has(d, "capabilities") && GetV(d, "capabilities").VList?
    requires i < |GetV(d, "capabilities").items| && GetV(d, "capabilities").items[i] == VStr("execution")
    ensures FromDict(VObj(d), now).Err?
  {
    var xs := GetV(d, "capabilities").items;
    assert ParseCapability(xs[i]).Err?;
    Declarative.ParseAllAborts(ParseCapability, xs, i);
  }

  /** Capabilities are read before `plugin_id`, so a bad capability is reported even when the id is missing. */
  lemma CapabilityErrorFirst(d: Dict, now: int, x: string)
    requires !Has(d, "plugin_id") && GetV(d, "capabilities") == VList([VStr(x)])
    requires x !in ["analysis", "trading", "screening", "research", "prediction", "custom"]
    ensures FromDict(VObj(d), now) == Err("'" + x + "' is not a valid PluginCapability")
  {
    var xs := [VStr(x)];
    var e := "'" + x + "' is not a valid PluginCapability";
    assert ParseCapability(xs[0]) == Err(e);
    assert xs[..0] == [];
    assert Declarative.ParseAll(ParseCapability, xs) == Err(e);
  }

  /** An `agents` entry with a key `AgentConfig` does not declare fails the whole read. */
  lemma MisfitAgentRefused(d: Dict, now: int, i: nat)
    requires GetV(d, "agents").VList? && i < |GetV(d, "agents").items|
    requires GetV(d, "agents").items[i] == VObj([("agent_id", VStr("a")), ("agent_type", VStr("t")), ("role", VStr("r"))])
    ensures FromDict(VObj(d), now).Err?
  {
    var e := [("agent_id", VStr("a")), ("agent_type", VStr("t")), ("role", VStr("r"))];
    assert e[2].0 !in AgentShape.required && e[2].0 !in AgentShape.optional;
    assert !Fits(e, AgentShape);
  }

  /** `BusinessPlugin.to_dict` over the fields the model keeps, in the source's key order. */
  function ToDict(p: Plugin): Value
  {
    VObj(HeadEntries(p) + RestEntries(p) + StateEntries(p))
  }

  function HeadEntries(p: Plugin): Dict
  {
    [("plugin_id", VStr(p.pluginId)), ("name", VStr(p.name)), ("version", VStr(p.version)),
     ("description", VStr(p.description)), ("author", VStr(p.author)),
     ("capabilities", VList(Seqs.Map(CapabilityValue, p.capabilities)))]
  }

  function RestEntries(p: Plugin): Dict
  {
    [("entry_point", OptValue(p.entryPoint)), ("dependencies", Strs(p.dependencies)), ("tags", Strs(p.tags)),
     ("icon_url", OptValue(p.iconUrl)), ("documentation_url", OptValue(p.documentationUrl))]
  }

  function StateEntries(p: Plugin): Dict
  {
    [("status", VStr(StatusName(p.status))), ("enabled", VBool(p.enabled)), ("created_at", VInt(p.createdAt)),
     ("updated_at", VInt(p.updatedAt))]
  }

  /** The value under each key of an exported plugin. */
  function ExportedField(p: Plugin, k: string): Option<Value>
  {
    if k == "plugin_id" then Some(VStr(p.pluginId))
    else if k == "name" then Some(VStr(p.name))
    else if k == "version" then Some(VStr(p.version))
    else if k == "description" then Some(VStr(p.description))
    else if k == "author" then Some(VStr(p.author))
    else if k == "capabilities" then Some(VList(Seqs.Map(CapabilityValue, p.capabilities)))
    else if k == "entry_point" then Some(OptValue(p.entryPoint))
    else if k == "dependencies" then Some(Strs(p.dependencies))
    else if k == "tags" then Some(Strs(p.tags))
    else if k == "icon_url" then Some(OptValue(p.iconUrl))
    else if k == "documentation_url" then Some(OptValue(p.documentationUrl))
    else if k == "status" then Some(VStr(StatusName(p.status)))
    else if k == "enabled" then Some(VBool(p.enabled))
    else if k == "created_at" then Some(VInt(p.createdAt))
    else if k == "updated_at" then Some(VInt(p.updatedAt))
    else None
  }

  lemma HeadGet(p: Plugin, k: string)
    ensures Get(HeadEntries(p), k) ==
      if k in ["plugin_id", "name", "version", "description", "author", "capabilities"] then ExportedField(p, k)
      else None
  {
    var d := HeadEntries(p);
    if k == "plugin_id" { GetAt(d, 0); }
    else if k == "name" { GetAt(d, 1); }
    else if k == "version" { GetAt(d, 2); }
    else if k == "description" { GetAt(d, 3); }
    else if k == "author" { GetAt(d, 4); }
    else if k == "capabilities" { GetAt(d, 5); }
    else { GetAbsent(d, k); }
  }

  lemma RestGet(p: Plugin, k: string)
    ensures Get(RestEntries(p), k) ==
      if k in ["entry_point", "dependencies", "tags", "icon_url", "documentation_url"] then ExportedField(p, k)
      else None
  {
    var d := RestEntries(p);
    if k == "entry_point" { GetAt(d, 0); }
    else if k == "dependencies" { GetAt(d, 1); }
    else if k == "tags" { GetAt(d, 2); }
    else if k == "icon_url" { GetAt(d, 3); }
    else if k == "documentation_url" { GetAt(d, 4); }
    else { GetAbsent(d, k); }
  }

  lemma StateGet(p: Plugin, k: string)
    ensures Get(StateEntries(p), k) ==
      if k in ["status", "enabled", "created_at", "updated_at"] then ExportedField(p, k) else None
  {
    var d := StateEntries(p);
    if k == "status" { GetAt(d, 0); }
    else if k == "enabled" { GetAt(d, 1); }
    else if k == "created_at" { GetAt(d, 2); }
    else if k == "updated_at" { GetAt(d, 3); }
    else { GetAbsent(d, k); }
  }

  lemma ExportGet(p: Plugin, k: string)
    ensures Get(ToDict(p).entries, k) == ExportedField(p, k)
  {
    HeadGet(p, k);
    RestGet(p, k);
    StateGet(p, k);
    GetAppend(HeadEntries(p), RestEntries(p), k);
    GetAppend(HeadEntries(p) + RestEntries(p), StateEntries(p), k);
  }

  /** The record a plugin is read back as: same fields, fresh timestamps, no runtime instance. */
  function Reloaded(p: Plugin, now: int): Plugin
  {
    p.(createdAt := now, updatedAt := now, instance := NoInstance)
  }

  lemma ParseHeadOfExport(p: Plugin)
    ensures ParseHead(ToDict(p).entries) == Ok(Plugin(p.pluginId, p.name, p.version, p.description, p.author,
      p.capabilities, None, [], [], None, None, Registered, true, 0, 0, NoInstance))
  {
    ExportGet(p, "plugin_id"); ExportGet(p, "name"); ExportGet(p, "version"); ExportGet(p, "description");
    ExportGet(p, "author"); ExportGet(p, "capabilities");
    ExportGet(p, "agents"); ExportGet(p, "tools"); ExportGet(p, "workflows"); ExportGet(p, "data_models");
    forall c | c in p.capabilities
      ensures ParseCapability(CapabilityValue(c)) == Ok(c)
    {
      CapabilityNamesRoundTrip(c);
    }
    Declarative.ParseAllInverse(ParseCapability, CapabilityValue, p.capabilities);
  }

  lemma ParseRestOfExport(p: Plugin, b: Plugin, now: int)
    ensures ParseRest(ToDict(p).entries, b, now) == Ok(b.(entryPoint := p.entryPoint,
      dependencies := p.dependencies, tags := p.tags, iconUrl := p.iconUrl, documentationUrl := p.documentationUrl,
      status := p.status, enabled := p.enabled, createdAt := now, updatedAt := now, instance := NoInstance))
  {
    ExportGet(p, "entry_point"); ExportGet(p, "dependencies"); ExportGet(p, "tags"); ExportGet(p, "icon_url");
    ExportGet(p, "documentation_url"); ExportGet(p, "status"); ExportGet(p, "enabled");
    StrsRoundTrip(p.dependencies);
    StrsRoundTrip(p.tags);
    StatusNamesRoundTrip(p.status);
  }

  /**
   * Every plugin reads back from its dictionary form with all its modelled
   * fields; only the timestamps and the runtime instance are not carried.
   */
  lemma ExportThenLoad(p: Plugin, now: int)
    ensures FromDict(ToDict(p), now) == Ok(Reloaded(p, now))
  {
    ParseHeadOfExport(p);
    ParseRestOfExport(p, Plugin(p.pluginId, p.name, p.version, p.description, p.author, p.capabilities, None, [],
                                [], None, None, Registered, true, 0, 0, NoInstance), now);
  }
}
