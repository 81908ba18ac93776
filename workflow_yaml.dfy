// Workflow definitions as they appear in YAML documents: a record of nine
// raw values read from a dict with defaults, written back by `to_dict`, and
// the loader hooks that find or inject the workflow id.
module WorkflowYaml {
  import opened Wrappers
  import opened Values
  import Seqs
  import Declarative

  /** `WorkflowDefinition`: every attribute is whatever the document held. */
  datatype Definition = Definition(
    workflowId: Value,
    name: Value,
    description: Value,
    nodes: Value,
    edges: Value,
    status: Value,
    config: Value,
    createdAt: Value,
    updatedAt: Value)

  /** `WorkflowDefinition(data)`: the id from `workflow_id` or else `id`, and the defaults of the optional keys. */
  function FromDict(d: Dict): (w: Definition)
    ensures Truthy(GetV(d, "workflow_id")) ==> w.workflowId == GetV(d, "workflow_id")
    ensures !Truthy(GetV(d, "workflow_id")) ==> w.workflowId == GetV(d, "id")
    ensures !Has(d, "description") ==> w.description == VStr("")
    ensures !Has(d, "nodes") ==> w.nodes == VList([])
    ensures !Has(d, "edges") ==> w.edges == VList([])
    ensures !Has(d, "status") ==> w.status == VStr("created")
    ensures !Has(d, "config") ==> w.config == VObj([])
  {
    Definition(
      Or(GetV(d, "workflow_id"), GetV(d, "id")),
      GetV(d, "name"),
      GetOr(d, "description", VStr("")),
      GetOr(d, "nodes", VList([])),
      GetOr(d, "edges", VList([])),
      GetOr(d, "status", VStr("created")),
      GetOr(d, "config", VObj([])),
      GetV(d, "created_at"),
      GetV(d, "updated_at"))
  }

  /** `to_dict`: the nine attributes under their own keys, in declaration order. */
  function Entries(w: Definition): Dict
  {
    [("workflow_id", w.workflowId), ("name", w.name), ("description", w.description),
     ("nodes", w.nodes), ("edges", w.edges), ("status", w.status), ("config", w.config),
     ("created_at", w.createdAt), ("updated_at", w.updatedAt)]
  }

  function ToDict(w: Definition): Value
  {
    VObj(Entries(w))
  }

  /** Each key of the exported dict reads back the attribute it was written from. */
  lemma EntriesRead(w: Definition)
    ensures GetV(Entries(w), "workflow_id") == w.workflowId && GetV(Entries(w), "name") == w.name
    ensures Has(Entries(w), "description") && GetV(Entries(w), "description") == w.description
    ensures Has(Entries(w), "nodes") && GetV(Entries(w), "nodes") == w.nodes
    ensures Has(Entries(w), "edges") && GetV(Entries(w), "edges") == w.edges
    ensures Has(Entries(w), "status") && GetV(Entries(w), "status") == w.status
    ensures Has(Entries(w), "config") && GetV(Entries(w), "config") == w.config
    ensures GetV(Entries(w), "created_at") == w.createdAt && GetV(Entries(w), "updated_at") == w.updatedAt
    ensures !Has(Entries(w), "id")
  {
    HeadEntriesRead(w);
    TailEntriesRead(w);
  }

  /** The first five entries: id, name, description, nodes and edges. */
  lemma HeadEntriesRead(w: Definition)
    ensures Get(Entries(w), "workflow_id") == Some(w.workflowId) && Get(Entries(w), "name") == Some(w.name)
    ensures Get(Entries(w), "description") == Some(w.description)
    ensures Get(Entries(w), "nodes") == Some(w.nodes) && Get(Entries(w), "edges") == Some(w.edges)
  {
    var e := Entries(w);
    GetAt(e, 0); GetAt(e, 1); GetAt(e, 2); GetAt(e, 3); GetAt(e, 4);
  }

  /** The last four entries, and no `id` key. */
  lemma TailEntriesRead(w: Definition)
    ensures Get(Entries(w), "status") == Some(w.status) && Get(Entries(w), "config") == Some(w.config)
    ensures Get(Entries(w), "created_at") == Some(w.createdAt) && Get(Entries(w), "updated_at") == Some(w.updatedAt)
    ensures !Has(Entries(w), "id")
  {
    var e := Entries(w);
    GetAt(e, 5); GetAt(e, 6); GetAt(e, 7); GetAt(e, 8);
    GetAbsent(e, "id");
  }

  /**
   * `WorkflowDefinition(w.to_dict())` gives back `w` exactly when its id is
   * truthy or None: a falsy id such as "" falls through to the absent `id`
   * key and comes back as None.
   */
  lemma RoundTrip(w: Definition)
    ensures FromDict(Entries(w)) == w <==> Truthy(w.workflowId) || w.workflowId == VNull
  {
    EntriesRead(w);
  }

  /** `_parse_item`: a definition from a dict; any other item has no `get` and fails. */
  function Parse(v: Value): (r: Result<Definition>)
    ensures r.Ok? <==> v.VObj?
    ensures r.Ok? ==> r.value == FromDict(v.entries)
  {
    var d :- AsDict(v, "workflow item");
    Ok(FromDict(d))
  }

  /** `_has_id_field`. */
  predicate HasIdField(d: Dict)
  {
    Has(d, "workflow_id") || Has(d, "id")
  }

  /** `_set_id_field`: writes `workflow_id` only when it is absent. */
  function SetIdField(d: Dict, key: string): (r: Dict)
    ensures Has(d, "workflow_id") ==> r == d
    ensures !Has(d, "workflow_id") ==> Get(r, "workflow_id") == Some(VStr(key))
    ensures forall k :: k != "workflow_id" ==> Get(r, k) == Get(d, k)
  {
    if Has(d, "workflow_id") then d else Put(d, "workflow_id", VStr(key))
  }

  function Hooks(): Declarative.Hooks<Definition>
  {
    Declarative.Hooks("workflows", Parse, HasIdField, SetIdField)
  }

  /** In the object form an item with neither id key takes its (non-empty) key as its workflow id. */
  lemma ObjectFormTakesKey(key: string, item: Dict)
    requires !HasIdField(item) && key != ""
    ensures Parse(VObj(Declarative.Prepare(Hooks(), key, item))).value.workflowId == VStr(key)
  {
    var d := Declarative.Prepare(Hooks(), key, item);
    assert d == SetIdField(item, key);
    assert GetV(d, "workflow_id") == VStr(key);
  }

  /** An item that carries only `id` keeps it: no `workflow_id` is injected and the id is read from `id`. */
  lemma ObjectFormKeepsId(key: string, item: Dict)
    requires !Has(item, "workflow_id") && Has(item, "id")
    ensures Parse(VObj(Declarative.Prepare(Hooks(), key, item))).value.workflowId == GetV(item, "id")
  {
    assert Declarative.Prepare(Hooks(), key, item) == item;
  }

  /** A document exported from definitions with truthy or None ids loads back as the same definitions, in order. */
  lemma ExportedDefinitionsLoadBack(items: seq<Definition>)
    requires forall w :: w in items ==> Truthy(w.workflowId) || w.workflowId == VNull
    ensures Declarative.LoadSpec(Hooks(), VObj([("workflows", VList(Seqs.Map(ToDict, items)))])) == Ok(items)
  {
    forall w | w in items
      ensures Hooks().parse(ToDict(w)) == Ok(w)
    {
      RoundTrip(w);
    }
    Declarative.ExportThenLoadDocument(Hooks(), ToDict, items);
  }
}
