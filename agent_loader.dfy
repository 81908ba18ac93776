// Reading agents from YAML-shaped dictionaries, and the dictionary an agent
// is exported as.
module AgentLoader {
  import opened Wrappers
  import opened Values
  import opened AgentRegistry
  import Seqs
  import Declarative

  function TypeName(t: AgentType): string
  {
    match t
    case Analyst => "analyst"
    case Researcher => "researcher"
    case Trader => "trader"
    case RiskManager => "risk_manager"
    case Manager => "manager"
    case Custom => "custom"
  }

  /** `AgentType(s)`, with any value that names no type read as Custom. */
  function TypeOrCustom(v: Value): (t: AgentType)
    ensures t != Custom ==> v == VStr(TypeName(t))
  {
    match v
    case VStr("analyst") => Analyst
    case VStr("researcher") => Researcher
    case VStr("trader") => Trader
    case VStr("risk_manager") => RiskManager
    case VStr("manager") => Manager
    case _ => Custom
  }

  function StatusName(s: AgentStatus): string
  {
    match s
    case Registered => "registered"
    case Active => "active"
    case Inactive => "inactive"
    case Deprecated => "deprecated"
  }

  function ParseStatus(v: Value): (r: Result<AgentStatus>)
    ensures r.Ok? ==> v == VStr(StatusName(r.value))
    ensures v.VStr? && r.Err? ==> r.error == "'" + v.s + "' is not a valid AgentStatus"
  {
    match v
    case VStr("registered") => Ok(Registered)
    case VStr("active") => Ok(Active)
    case VStr("inactive") => Ok(Inactive)
    case VStr("deprecated") => Ok(Deprecated)
    case VStr(x) => Err("'" + x + "' is not a valid AgentStatus")
    case _ => Err("not a valid AgentStatus")
  }

  lemma {:induction false} EnumNamesRoundTrip(t: AgentType, s: AgentStatus)
    ensures TypeOrCustom(VStr(TypeName(t))) == t
    ensures ParseStatus(VStr(StatusName(s))) == Ok(s)
  {
    match s
    case Registered =>
    case Active =>
    case Inactive =>
    case Deprecated =>
  }

  /** Id, name, description, version, type, author and category. */
  function ParseHead(d: Dict, now: int): (r: Result<AgentMetadata>)
    ensures !Truthy(GetV(d, "id")) && !Truthy(GetV(d, "agent_id")) ==> r == Err("Agent 'id' is required")
    ensures r.Ok? ==> r.value.id != ""
    ensures r.Ok? ==> VStr(r.value.id) == (if Truthy(GetV(d, "id")) then GetV(d, "id") else GetV(d, "agent_id"))
    ensures r.Ok? ==> VStr(r.value.version) == GetOr(d, "version", VStr("1.0.0"))
    ensures r.Ok? ==> r.value.agentType == TypeOrCustom(Or(Or(GetV(d, "agent_type"), GetV(d, "agentType")), VStr("custom")))
    ensures r.Ok? ==> r.value.status == Registered && r.value.tags == [] && r.value.capabilities == []
  {
    var idv := Or(GetV(d, "id"), GetV(d, "agent_id"));
    if !Truthy(idv) then Err("Agent 'id' is required")
    else
      var id :- AsStr(idv, "id");
      var name :- StrOr(GetV(d, "name"), id, "name");
      var description :- StrField(d, "description", "");
      var version :- StrField(d, "version", "1.0.0");
      var agentType := TypeOrCustom(Or(Or(GetV(d, "agent_type"), GetV(d, "agentType")), VStr("custom")));
      var author :- StrField(d, "author", "unknown");
      var category :- StrField(d, "category", "general");
      Ok(AgentMetadata(id, name, description, version, agentType, author, category, [], [], Registered, now, now))
  }

  /** Tags, capabilities, status and the two timestamps. */
  function ParseRest(d: Dict, a: AgentMetadata, now: int): (r: Result<AgentMetadata>)
    ensures r.Ok? ==> r.value == a.(tags := r.value.tags, capabilities := r.value.capabilities,
      status := r.value.status, createdAt := r.value.createdAt, updatedAt := r.value.updatedAt)
    ensures r.Ok? && !Has(d, "status") ==> r.value.status == Registered
    ensures r.Ok? && !Has(d, "created_at") ==> r.value.createdAt == now
  {
    var tags :- StrListField(d, "tags");
    var capabilities :- StrListField(d, "capabilities");
    var status :- ParseStatus(GetOr(d, "status", VStr("registered")));
    var createdAt :- if Has(d, "created_at") then Instant(GetV(d, "created_at"), "created_at") else Ok(now);
    var updatedAt :- if Has(d, "updated_at") then Instant(GetV(d, "updated_at"), "updated_at") else Ok(now);
    Ok(a.(tags := tags, capabilities := capabilities, status := status, createdAt := createdAt, updatedAt := updatedAt))
  }

  /** `_parse_item`. */
  function ParseAgent(v: Value, now: int): (r: Result<AgentMetadata>)
    ensures r.Ok? ==> v.VObj? && r.value.id != ""
  {
    var d :- AsDict(v, "agent item");
    var a :- ParseHead(d, now);
    ParseRest(d, a, now)
  }

  /** An unknown type name does not fail the load: the agent becomes a custom agent. */
  lemma UnknownTypeIsCustom(d: Dict, now: int)
    requires ParseAgent(VObj(d), now).Ok?
    requires Has(d, "agent_type") && GetV(d, "agent_type") == VStr("robot")
    ensures ParseAgent(VObj(d), now).value.agentType == Custom
  {
  }

  /** `_has_id_field`. */
  predicate HasIdField(d: Dict)
  {
    Has(d, "id") || Has(d, "agent_id")
  }

  /** `_set_id_field`: writes `id` only when it is absent. */
  function SetIdField(d: Dict, key: string): (r: Dict)
    ensures Has(d, "id") ==> r == d
    ensures !Has(d, "id") ==> Get(r, "id") == Some(VStr(key))
    ensures forall k :: k != "id" ==> Get(r, k) == Get(d, k)
  {
    if Has(d, "id") then d else Put(d, "id", VStr(key))
  }

  function Hooks(now: int): Declarative.Hooks<AgentMetadata>
  {
    Declarative.Hooks("agents", (v: Value) => ParseAgent(v, now), HasIdField, SetIdField)
  }

  /** In the object form an item without an id field takes its key as its id. */
  lemma ObjectFormTakesKey(now: int, key: string, item: Dict)
    requires !HasIdField(item) && key != ""
    requires ParseAgent(VObj(Declarative.Prepare(Hooks(now), key, item)), now).Ok?
    ensures ParseAgent(VObj(Declarative.Prepare(Hooks(now), key, item)), now).value.id == key
  {
    var d := Declarative.Prepare(Hooks(now), key, item);
    assert d == SetIdField(item, key);
    assert GetV(d, "id") == VStr(key);
  }

  /** `AgentMetadata.to_dict` over the fields the model keeps, in the source's key order. */
  function ToDict(a: AgentMetadata): Value
  {
    VObj(HeadEntries(a) + RestEntries(a) + TimeEntries(a))
  }

  function HeadEntries(a: AgentMetadata): Dict
  {
    [("id", VStr(a.id)), ("name", VStr(a.name)), ("description", VStr(a.description)),
     ("version", VStr(a.version)), ("agent_type", VStr(TypeName(a.agentType)))]
  }

  function RestEntries(a: AgentMetadata): Dict
  {
    [("author", VStr(a.author)), ("category", VStr(a.category)), ("tags", Strs(a.tags)),
     ("capabilities", Strs(a.capabilities)), ("status", VStr(StatusName(a.status)))]
  }

  function TimeEntries(a: AgentMetadata): Dict
  {
    [("created_at", VInt(a.createdAt)), ("updated_at", VInt(a.updatedAt))]
  }

  /** The value under each key of an exported agent. */
  function ExportedField(a: AgentMetadata, k: string): Option<Value>
  {
    if k == "id" then Some(VStr(a.id))
    else if k == "name" then Some(VStr(a.name))
    else if k == "description" then Some(VStr(a.description))
    else if k == "version" then Some(VStr(a.version))
    else if k == "agent_type" then Some(VStr(TypeName(a.agentType)))
    else if k == "author" then Some(VStr(a.author))
    else if k == "category" then Some(VStr(a.category))
    else if k == "tags" then Some(Strs(a.tags))
    else if k == "capabilities" then Some(Strs(a.capabilities))
    else if k == "status" then Some(VStr(StatusName(a.status)))
    else if k == "created_at" then Some(VInt(a.createdAt))
    else if k == "updated_at" then Some(VInt(a.updatedAt))
    else None
  }

  lemma HeadGet(a: AgentMetadata, k: string)
    ensures Get(HeadEntries(a), k) ==
      if k in ["id", "name", "description", "version", "agent_type"] then ExportedField(a, k) else None
  {
    var d := HeadEntries(a);
    if k == "id" { GetAt(d, 0); }
    else if k == "name" { GetAt(d, 1); }
    else if k == "description" { GetAt(d, 2); }
    else if k == "version" { GetAt(d, 3); }
    else if k == "agent_type" { GetAt(d, 4); }
    else { GetAbsent(d, k); }
  }

  lemma RestGet(a: AgentMetadata, k: string)
    ensures Get(RestEntries(a), k) ==
      if k in ["author", "category", "tags", "capabilities", "status"] then ExportedField(a, k) else None
  {
    var d := RestEntries(a);
    if k == "author" { GetAt(d, 0); }
    else if k == "category" { GetAt(d, 1); }
    else if k == "tags" { GetAt(d, 2); }
    else if k == "capabilities" { GetAt(d, 3); }
    else if k == "status" { GetAt(d, 4); }
    else { GetAbsent(d, k); }
  }

  lemma TimeGet(a: AgentMetadata, k: string)
    ensures Get(TimeEntries(a), k) == if k in ["created_at", "updated_at"] then ExportedField(a, k) else None
  {
    var d := TimeEntries(a);
    if k == "created_at" { GetAt(d, 0); }
    else if k == "updated_at" { GetAt(d, 1); }
    else { GetAbsent(d, k); }
  }

  lemma ExportGet(a: AgentMetadata, k: string)
    ensures Get(ToDict(a).entries, k) == ExportedField(a, k)
  {
    HeadGet(a, k);
    RestGet(a, k);
    TimeGet(a, k);
    GetAppend(HeadEntries(a), RestEntries(a), k);
    GetAppend(HeadEntries(a) + RestEntries(a), TimeEntries(a), k);
  }

  /** Records the round trip can reproduce: `or`-defaults cannot give back an empty id or name. */
  predicate Exportable(a: AgentMetadata)
  {
    a.id != "" && a.name != ""
  }

  lemma ParseHeadOfExport(a: AgentMetadata, now: int)
    requires Exportable(a)
    ensures ParseHead(ToDict(a).entries, now) == Ok(a.(tags := [], capabilities := [], status := Registered,
                                                      createdAt := now, updatedAt := now))
  {
    ExportGet(a, "id"); ExportGet(a, "name"); ExportGet(a, "description"); ExportGet(a, "version");
    ExportGet(a, "agent_type"); ExportGet(a, "author"); ExportGet(a, "category");
    EnumNamesRoundTrip(a.agentType, a.status);
  }

  lemma ParseRestOfExport(a: AgentMetadata, b: AgentMetadata, now: int)
    ensures ParseRest(ToDict(a).entries, b, now) == Ok(b.(tags := a.tags, capabilities := a.capabilities,
      status := a.status, createdAt := a.createdAt, updatedAt := a.updatedAt))
  {
    ExportGet(a, "tags"); ExportGet(a, "capabilities"); ExportGet(a, "status");
    ExportGet(a, "created_at"); ExportGet(a, "updated_at");
    StrsRoundTrip(a.tags);
    StrsRoundTrip(a.capabilities);
    EnumNamesRoundTrip(a.agentType, a.status);
  }

  /** Every exportable agent loads back as itself. */
  lemma ExportThenLoad(a: AgentMetadata, now: int)
    requires Exportable(a)
    ensures ParseAgent(ToDict(a), now) == Ok(a)
  {
    ParseHeadOfExport(a, now);
    var b := a.(tags := [], capabilities := [], status := Registered, createdAt := now, updatedAt := now);
    ParseRestOfExport(a, b, now);
  }

  /** A document exported from exportable agents loads back as the same agents, in order. */
  lemma ExportedAgentsLoadBack(items: seq<AgentMetadata>, now: int)
    requires forall a :: a in items ==> Exportable(a)
    ensures Declarative.LoadSpec(Hooks(now), VObj([("agents", VList(Seqs.Map(ToDict, items)))])) == Ok(items)
  {
    forall a | a in items
      ensures Hooks(now).parse(ToDict(a)) == Ok(a)
    {
      ExportThenLoad(a, now);
    }
    Declarative.ExportThenLoadDocument(Hooks(now), ToDict, items);
  }
}
