// The MCP tool server: a registry of named tools, the guarded execution of a
// tool with a check of its required parameters, and the running flag.
module McpServer {
  import opened Wrappers
  import opened Seqs
  import opened Index
  import opened Listing
  import opened Values

  datatype ToolType = Function | Api | Database | File | Custom

  /** `ToolType.value`. */
  function ToolTypeName(t: ToolType): string
  {
    match t
    case Function => "function"
    case Api => "api"
    case Database => "database"
    case File => "file"
    case Custom => "custom"
  }

  /** The identity of a tool's handler callable; what calling it does is the server's `invoke`. */
  type Handler = nat

  /** Calling a handler with the parameters as keyword arguments: its result, or the text of what it raised. */
  type Invoke = (Handler, Dict) -> Result<Value>

  /** `MCPTool`. */
  datatype Tool = Tool(
    name: string,
    description: string,
    toolType: ToolType,
    parameters: Dict,
    handler: Option<Handler>,
    metadata: Dict)

  /** `MCPTool.to_dict`: the handler is not exported. */
  function ToolDict(t: Tool): (r: Dict)
    ensures Keys(r) == ["name", "description", "type", "parameters", "metadata"]
  {
    [("name", VStr(t.name)), ("description", VStr(t.description)), ("type", VStr(ToolTypeName(t.toolType))),
     ("parameters", VObj(t.parameters)), ("metadata", VObj(t.metadata))]
  }

  /** `MCPToolRegistry`: tools by name, listed in registration order. */
  class Registry {
    var tools: map<string, Tool>
    var order: seq<string>

    ghost predicate Valid()
      reads this
    {
      Ordered(order, tools) && forall n :: n in tools ==> tools[n].name == n
    }

    constructor ()
      ensures Valid() && tools == map[] && order == []
    {
      tools := map[];
      order := [];
    }

    /** `register`: a taken name is refused with no change; otherwise the new tool is filed under its name. */
    method Register(name: string, description: string, toolType: ToolType, parameters: Option<Dict>,
                    handler: Option<Handler>, metadata: Option<Dict>) returns (r: Result<Tool>)
      requires Valid()
      modifies this
      ensures Valid()
      ensures name in old(tools) <==> r.Err?
      ensures r.Err? ==> r.error == "Tool " + name + " already registered" && unchanged(this)
      ensures r.Ok? ==>
        && r.value == Tool(name, description, toolType, OptionOr(parameters, []), handler, OptionOr(metadata, []))
        && tools == old(tools)[name := r.value] && order == old(order) + [name]
    {
      if name in tools {
        return Err("Tool " + name + " already registered");
      }
      var tool := Tool(name, description, toolType, OptionOr(parameters, []), handler, OptionOr(metadata, []));
      OrderedAppend(order, tools, name, tool);
      tools := tools[name := tool];
      order := order + [name];
      return Ok(tool);
    }

    /** `get`. */
    function Get(name: string): (r: Option<Tool>)
      reads this
      ensures r.Some? <==> name in tools
      ensures r.Some? ==> r.value == tools[name]
    {
      if name in tools then Some(tools[name]) else None
    }

    /** `list`: every tool, in registration order. */
    method List() returns (result: seq<Tool>)
      requires Valid()
      ensures result == Pick(tools, order, (t: Tool) => true)
      ensures forall n :: n in tools ==> tools[n] in result
    {
      result := Collect(tools, order, (t: Tool) => true);
      forall n | n in tools ensures tools[n] in result {
        PickComplete(tools, order, (t: Tool) => true, n);
      }
    }

    /** `unregister`: true exactly when the tool was registered; it is no longer filed. */
    method Unregister(name: string) returns (removed: bool)
      requires Valid()
      modifies this
      ensures Valid()
      ensures removed <==> name in old(tools)
      ensures tools == old(tools) - {name} && order == RemoveFirst(old(order), name)
    {
      removed := name in tools;
      OrderedRemove(order, tools, name);
      tools := tools - {name};
      order := RemoveFirst(order, name);
    }
  }

  // ----- Parameter validation -----

  /** Python's type name of a value, as error messages print it. */
  function TypeName(v: Value): string
  {
    match v
    case VNull => "NoneType"
    case VBool(_) => "bool"
    case VInt(_) => "int"
    case VFloat(_) => "float"
    case VStr(_) => "str"
    case VList(_) => "list"
    case VObj(_) => "dict"
  }

  /**
   * What `for param in required_params` walks: a list's items, a string's
   * characters, a dict's keys; any other value is not iterable.
   */
  function Iterated(v: Value): (r: Result<seq<Value>>)
    ensures r.Err? <==> !(v.VList? || v.VStr? || v.VObj?)
    ensures v.VList? ==> r == Ok(v.items)
  {
    match v
    case VList(items) => Ok(items)
    case VStr(s) => Ok(Map((c: char) => VStr([c]), s))
    case VObj(d) => Ok(Map((k: string) => VStr(k), Keys(d)))
    case _ => Err("'" + TypeName(v) + "' object is not iterable")
  }

  /** The required names a tool declares: `parameters.get("required", [])`. */
  function RequiredOf(t: Tool): Value
  {
    GetOr(t.parameters, "required", VList([]))
  }

  /**
   * `param not in parameters`: a string is looked up among the keys, a list
   * or dict cannot be hashed, and any other value is never a key.
   */
  function Absent(param: Value, params: Dict): (r: Result<bool>)
    ensures r.Err? <==> param.VList? || param.VObj?
    ensures param.VStr? ==> r == Ok(!Has(params, param.s))
  {
    match param
    case VStr(s) => Ok(!Has(params, s))
    case VList(_) => Err("unhashable type: 'list'")
    case VObj(_) => Err("unhashable type: 'dict'")
    case _ => Ok(true)
  }

  /** The loop of `_validate_parameters` from position `i` on: it stops at the first absent or unhashable name. */
  function ValidFrom(required: seq<Value>, params: Dict, i: nat): Result<bool>
    requires i <= |required|
    decreases |required| - i
  {
    if i == |required| then Ok(true)
    else
      match Absent(required[i], params)
      case Err(e) => Err(e)
      case Ok(absent) => if absent then Ok(false) else ValidFrom(required, params, i + 1)
  }

  /** `_validate_parameters`, as a function of the tool and the call's parameters. */
  function ValidParameters(t: Tool, params: Dict): Result<bool>
  {
    var required :- Iterated(RequiredOf(t));
    ValidFrom(required, params, 0)
  }

  /** Every remaining name is a string naming a given parameter. */
  predicate AllGiven(required: seq<Value>, params: Dict, i: nat)
  {
    forall j :: i <= j < |required| ==> required[j].VStr? && Has(params, required[j].s)
  }

  /** The check passes exactly when every remaining required name is a given parameter. */
  lemma {:induction false} ValidFromExact(required: seq<Value>, params: Dict, i: nat)
    requires i <= |required|
    ensures ValidFrom(required, params, i) == Ok(true) <==> AllGiven(required, params, i)
    decreases |required| - i
  {
    if i < |required| {
      ValidFromExact(required, params, i + 1);
    }
  }

  /** Only names that are lists or dicts make the check raise, and only when no earlier name is missing. */
  lemma {:induction false} ValidFromRaises(required: seq<Value>, params: Dict, i: nat)
    requires i <= |required| && ValidFrom(required, params, i).Err?
    ensures exists j :: i <= j < |required| && (required[j].VList? || required[j].VObj?) && AllGiven(required[..j], params, i)
    decreases |required| - i
  {
    if Absent(required[i], params).Err? {
      assert AllGiven(required[..i], params, i);
    } else {
      ValidFromRaises(required, params, i + 1);
      var j :| i + 1 <= j < |required| && (required[j].VList? || required[j].VObj?) && AllGiven(required[..j], params, i + 1);
      assert AllGiven(required[..j], params, i);
    }
  }

  /** A tool with a list of string names accepts a call exactly when every name is among its parameters. */
  lemma ValidParametersExact(t: Tool, params: Dict)
    requires RequiredOf(t).VList? && forall p :: p in RequiredOf(t).items ==> p.VStr?
    ensures ValidParameters(t, params) == Ok(true) <==>
      forall p :: p in RequiredOf(t).items ==> Has(params, p.s)
  {
    ValidFromExact(RequiredOf(t).items, params, 0);
  }

  /** A tool that declares no required names accepts every call. */
  lemma NothingRequired(t: Tool, params: Dict)
    requires !Has(t.parameters, "required")
    ensures ValidParameters(t, params) == Ok(true)
  {
  }

  // ----- The server -----

  /** A failed call's reply: `{"success": False, "error": message}`. */
  function Failure(message: string): Dict
  {
    [("success", VBool(false)), ("error", VStr(message))]
  }

  /** A successful call's reply: `{"success": True, "result": result}`. */
  function Success(result: Value): Dict
  {
    [("success", VBool(true)), ("result", result)]
  }

  /** `execute_tool` as a function of the registered tools and the call. */
  function Executed(tools: map<string, Tool>, invoke: Invoke, name: string, params: Dict): Dict
  {
    if name !in tools then Failure("Tool " + name + " not found")
    else
      var t := tools[name];
      if t.handler.None? then Failure("Tool " + name + " has no handler")
      else match ValidParameters(t, params)
        case Err(e) => Failure(e)
        case Ok(valid) =>
          if !valid then Failure("Invalid parameters")
          else match invoke(t.handler.value, params)
            case Ok(result) => Success(result)
            case Err(e) => Failure(e)
  }

  /** A call succeeds only on a registered tool with a handler whose required parameters are all given, and then carries the handler's result. */
  lemma ExecutedSucceeds(tools: map<string, Tool>, invoke: Invoke, name: string, params: Dict)
    requires Executed(tools, invoke, name, params)[0].1 == VBool(true)
    ensures name in tools && tools[name].handler.Some?
    ensures ValidParameters(tools[name], params) == Ok(true)
    ensures invoke(tools[name].handler.value, params).Ok?
    ensures Executed(tools, invoke, name, params) == Success(invoke(tools[name].handler.value, params).value)
  {
  }

  /** `MCPServer`: a tool registry and whether the server is running. */
  class Server {
    const registry: Registry
    const invoke: Invoke
    var running: bool

    constructor (registry: Registry, invoke: Invoke)
      ensures this.registry == registry && this.invoke == invoke && !running
    {
      this.registry := registry;
      this.invoke := invoke;
      running := false;
    }

    /**
     * `_validate_parameters`: walks the required names in order, false at
     * the first one the call does not give; a list or dict name raises.
     */
    method ValidateParameters(t: Tool, params: Dict) returns (r: Result<bool>)
      ensures r == ValidParameters(t, params)
    {
      var required := Iterated(RequiredOf(t));
      if required.Err? {
        return Err(required.error);
      }
      var items := required.value;
      var i := 0;
      while i < |items|
        invariant 0 <= i <= |items|
        invariant ValidFrom(items, params, 0) == ValidFrom(items, params, i)
      {
        var absent := Absent(items[i], params);
        if absent.Err? {
          return Err(absent.error);
        }
        if absent.value {
          return Ok(false);
        }
        i := i + 1;
      }
      return Ok(true);
    }

    /**
     * `execute_tool`: an unknown tool, a tool without handler, a name check
     * that raises or fails, and a handler that raises each give a failure
     * reply; otherwise the handler's result.
     */
    method ExecuteTool(name: string, params: Dict) returns (r: Dict)
      ensures r == Executed(registry.tools, invoke, name, params)
    {
      var tool := registry.Get(name);
      if tool.None? {
        return Failure("Tool " + name + " not found");
      }
      var t := tool.value;
      if t.handler.None? {
        return Failure("Tool " + name + " has no handler");
      }
      var valid := ValidateParameters(t, params);
      if valid.Err? {
        return Failure(valid.error);
      }
      if !valid.value {
        return Failure("Invalid parameters");
      }
      var result := invoke(t.handler.value, params);
      if result.Err? {
        return Failure(result.error);
      }
      return Success(result.value);
    }

    /** `list_tools`: the exported form of every tool, in registration order. */
    method ListTools() returns (result: seq<Dict>)
      requires registry.Valid()
      ensures result == Map(ToolDict, Pick(registry.tools, registry.order, (t: Tool) => true))
    {
      var tools := registry.List();
      result := Map(ToolDict, tools);
    }

    /** `start`. */
    method Start()
      modifies this
      ensures running
    {
      running := true;
    }

    /** `stop`. */
    method Stop()
      modifies this
      ensures !running
    {
      running := false;
    }

    /** `is_running`. */
    function IsRunning(): bool
      reads this
    {
      running
    }
  }
}
