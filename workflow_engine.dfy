// The workflow engine: workflows held by id, each a list of nodes and a list
// of edges between them that grow in place, and the compiled graph an
// executor runs.
module WorkflowEngine {
  import opened Wrappers
  import opened Seqs
  import opened Index
  import opened Listing
  import opened Values
  import Text

  datatype Status = Created | Running | Completed | Failed | Cancelled | Paused

  /** `WorkflowStatus.value`. */
  function StatusName(s: Status): string
  {
    match s
    case Created => "created"
    case Running => "running"
    case Completed => "completed"
    case Failed => "failed"
    case Cancelled => "cancelled"
    case Paused => "paused"
  }

  /** `WorkflowNode`; the handler maps the graph state to its update. */
  datatype Node = Node(
    nodeId: string,
    name: string,
    nodeType: string,
    handler: Value -> Value,
    config: Dict,
    dependencies: seq<string>)

  /** The compiled state graph: its nodes, its edges and the entry point, the first node. */
  datatype Graph = Graph(nodeIds: seq<string>, edges: seq<(string, string)>, entry: Option<string>)

  /** The id `add_node` gives the node it appends: workflow id, name and position, joined by `_`. */
  function NodeId(workflowId: string, name: string, count: nat): string
  {
    workflowId + "_" + name + "_" + Text.NatToString(count)
  }

  /** `[node.node_id for node in nodes]`. */
  function NodeIds(nodes: seq<Node>): (r: seq<string>)
    ensures |r| == |nodes| && forall i :: 0 <= i < |nodes| ==> r[i] == nodes[i].nodeId
  {
    if nodes == [] then [] else [nodes[0].nodeId] + NodeIds(nodes[1..])
  }

  /** Nodes appended at different positions get different ids, whatever their names. */
  lemma NodeIdsDiffer(workflowId: string, a: string, i: nat, b: string, j: nat)
    requires i != j
    ensures NodeId(workflowId, a, i) != NodeId(workflowId, b, j)
  {
    if NodeId(workflowId, a, i) == NodeId(workflowId, b, j) {
      var di, dj := Text.NatToString(i), Text.NatToString(j);
      assert NodeId(workflowId, a, i) == (workflowId + "_" + a) + ['_'] + di;
      assert NodeId(workflowId, b, j) == (workflowId + "_" + b) + ['_'] + dj;
      Text.LastPartUnique(workflowId + "_" + a, di, workflowId + "_" + b, dj, '_');
      Text.NatToStringInjective(i, j);
    }
  }

  /** The graph `build_graph` compiles: every node, every edge, and the first node as the entry point. */
  function GraphOf(nodes: seq<Node>, edges: seq<(string, string)>): (g: Graph)
    ensures g.entry.Some? <==> nodes != []
    ensures nodes != [] ==> g.entry.value == nodes[0].nodeId
    ensures g.nodeIds == NodeIds(nodes) && g.edges == edges
  {
    Graph(NodeIds(nodes), edges, if nodes != [] then Some(nodes[0].nodeId) else None)
  }

  /** `Workflow`: its nodes, edges, status, timestamps and graph change in place. */
  class Workflow {
    const workflowId: string
    const name: string
    const description: string
    const config: Dict
    const createdAt: int
    var nodes: seq<Node>
    var edges: seq<(string, string)>
    var status: Status
    var updatedAt: int
    var graph: Option<Graph>

    /**
     * Every node carries the id of its position and every edge joins two
     * nodes of the workflow.
     */
    ghost predicate WellBuilt()
      reads this
    {
      && (forall i :: 0 <= i < |nodes| ==> nodes[i].nodeId == NodeId(workflowId, nodes[i].name, i))
      && (forall e :: e in edges ==> e.0 in NodeIds(nodes) && e.1 in NodeIds(nodes))
    }

    /** A new workflow: status created, no nodes, no edges, no graph, both timestamps `now`. */
    constructor (workflowId: string, name: string, description: string, config: Dict, now: int)
      ensures this.workflowId == workflowId && this.name == name && this.description == description
      ensures this.config == config && createdAt == now && updatedAt == now
      ensures nodes == [] && edges == [] && status == Created && graph == None
      ensures WellBuilt()
    {
      this.workflowId := workflowId;
      this.name := name;
      this.description := description;
      this.config := config;
      createdAt := now;
      nodes := [];
      edges := [];
      status := Created;
      updatedAt := now;
      graph := None;
    }

    /** `to_dict`: counts of nodes and edges rather than the lists; `iso` renders an instant. */
    function ToDict(iso: int -> string): (r: Dict)
      reads this
      ensures Keys(r) == ["workflow_id", "name", "description", "node_count", "edge_count",
                          "status", "created_at", "updated_at"]
    {
      [("workflow_id", VStr(workflowId)), ("name", VStr(name)), ("description", VStr(description)),
       ("node_count", VInt(|nodes|)), ("edge_count", VInt(|edges|)),
       ("status", VStr(StatusName(status))),
       ("created_at", VStr(iso(createdAt))), ("updated_at", VStr(iso(updatedAt)))]
    }

    /** `nodes.append(node)` for the node of the next position; the workflow stays well built. */
    method AppendNode(node: Node, now: int)
      requires WellBuilt() && node.nodeId == NodeId(workflowId, node.name, |nodes|)
      modifies this
      ensures WellBuilt()
      ensures nodes == old(nodes) + [node] && updatedAt == now
      ensures edges == old(edges) && status == old(status) && graph == old(graph)
    {
      assert forall i :: 0 <= i < |nodes| ==> NodeIds(nodes + [node])[i] == NodeIds(nodes)[i];
      nodes := nodes + [node];
      updatedAt := now;
    }

    /** `edges.append((a, b))` for two of the workflow's nodes; the workflow stays well built. */
    method AppendEdge(a: string, b: string, now: int)
      requires WellBuilt() && a in NodeIds(nodes) && b in NodeIds(nodes)
      modifies this
      ensures WellBuilt()
      ensures edges == old(edges) + [(a, b)] && updatedAt == now
      ensures nodes == old(nodes) && status == old(status) && graph == old(graph)
    {
      edges := edges + [(a, b)];
      updatedAt := now;
    }

    /** A run of the compiled graph: running, then completed or failed at `now`; the workflow stays well built. */
    method Finish(completed: bool, now: int)
      requires WellBuilt()
      modifies this
      ensures WellBuilt()
      ensures status == (if completed then Completed else Failed) && updatedAt == now
      ensures nodes == old(nodes) && edges == old(edges) && graph == old(graph)
    {
      status := Running;
      if completed {
        status := Completed;
      } else {
        status := Failed;
      }
      updatedAt := now;
    }
  }

  /** In a well-built workflow no two nodes share an id. */
  lemma NodeIdsDistinct(w: Workflow)
    requires w.WellBuilt()
    ensures NoDup(NodeIds(w.nodes))
  {
    forall i, j | 0 <= i < j < |w.nodes| ensures NodeIds(w.nodes)[i] != NodeIds(w.nodes)[j] {
      NodeIdsDiffer(w.workflowId, w.nodes[i].name, i, w.nodes[j].name, j);
    }
  }

  /** `to_dict` reports as many nodes and edges as the workflow holds, and its status by name. */
  lemma ToDictCounts(w: Workflow, iso: int -> string)
    ensures Get(w.ToDict(iso), "node_count") == Some(VInt(|w.nodes|))
    ensures Get(w.ToDict(iso), "edge_count") == Some(VInt(|w.edges|))
    ensures Get(w.ToDict(iso), "status") == Some(VStr(StatusName(w.status)))
  {
    var d := w.ToDict(iso);
    GetAt(d, 3);
    GetAt(d, 4);
    GetAt(d, 5);
  }

  /** `WorkflowStatus(value)`: the status a name stands for. */
  function ParseStatus(name: string): Option<Status>
  {
    if name == "created" then Some(Created)
    else if name == "running" then Some(Running)
    else if name == "completed" then Some(Completed)
    else if name == "failed" then Some(Failed)
    else if name == "cancelled" then Some(Cancelled)
    else if name == "paused" then Some(Paused)
    else None
  }

  /** The name `to_dict` writes for a status reads back as that status, so different statuses have different names. */
  lemma StatusRoundTrip(st: Status)
    ensures ParseStatus(StatusName(st)) == Some(st)
  {
  }

  /**
   * The engine's workflows keep their own id as key, are listed in creation
   * order and are each well built.
   */
  ghost predicate Registered(workflows: map<string, Workflow>, order: seq<string>)
    reads workflows.Values
  {
    && Ordered(order, workflows)
    && forall id :: id in workflows ==> workflows[id].workflowId == id && workflows[id].WellBuilt()
  }

  /** Two ids never share a workflow: each workflow carries the id it is filed under. */
  lemma RegisteredDistinct(workflows: map<string, Workflow>, order: seq<string>, a: string, b: string)
    requires Registered(workflows, order) && a in workflows && b in workflows && a != b
    ensures workflows[a] != workflows[b]
  {
  }

  /** `WorkflowEngine`. */
  class Engine {
    var workflows: map<string, Workflow>
    var order: seq<string>

    ghost predicate Valid()
      reads this, workflows.Values
    {
      Registered(workflows, order)
    }

    constructor ()
      ensures Valid() && workflows == map[] && order == []
    {
      workflows := map[];
      order := [];
    }

    /**
     * `create_workflow`: `id` is the fresh uuid the source draws and `now`
     * the clock reading. A new, empty workflow is filed under `id`.
     */
    method CreateWorkflow(name: string, description: string, config: Option<Dict>, id: string, now: int)
      returns (w: Workflow)
      requires Valid()
      modifies this
      ensures Valid() && fresh(w)
      ensures workflows == old(workflows)[id := w]
      ensures order == if id in old(workflows) then old(order) else old(order) + [id]
      ensures w.workflowId == id && w.name == name && w.description == description
      ensures w.config == OptionOr(config, []) && w.createdAt == now && w.updatedAt == now
      ensures w.nodes == [] && w.edges == [] && w.status == Created && w.graph == None
    {
      w := new Workflow(id, name, description, OptionOr(config, []), now);
      if id !in workflows {
        OrderedAppend(order, workflows, id, w);
        order := order + [id];
      } else {
        assert forall k :: k in order <==> k in workflows[id := w];
      }
      workflows := workflows[id := w];
    }

    /** `get_workflow`. */
    function GetWorkflow(id: string): (r: Option<Workflow>)
      reads this
      ensures r.Some? <==> id in workflows
      ensures r.Some? ==> r.value == workflows[id]
    {
      if id in workflows then Some(workflows[id]) else None
    }

    /** The workflow a call on `id` may change: the one filed under it, if any. */
    function Target(id: string): set<object>
      reads this
    {
      if id in workflows then {workflows[id]} else {}
    }

    /**
     * `add_node`: an unknown workflow is refused with no change; otherwise
     * the node is appended under the id of its position and the workflow's
     * update time is `now`.
     */
    method AddNode(workflowId: string, name: string, nodeType: string, handler: Value -> Value,
                   config: Option<Dict>, dependencies: Option<seq<string>>, now: int)
      returns (r: Result<string>)
      requires Valid()
      modifies Target(workflowId)
      ensures Valid()
      ensures workflowId !in workflows ==> r == Err("Workflow " + workflowId + " not found")
      ensures workflowId in workflows ==>
        var w := workflows[workflowId];
        && r == Ok(NodeId(workflowId, name, |old(w.nodes)|))
        && w.nodes == old(w.nodes) + [Node(r.value, name, nodeType, handler,
                                           OptionOr(config, []), OptionOr(dependencies, []))]
        && w.edges == old(w.edges) && w.status == old(w.status) && w.graph == old(w.graph)
        && w.updatedAt == now
    {
      var found := GetWorkflow(workflowId);
      if found.None? {
        return Err("Workflow " + workflowId + " not found");
      }
      var w := found.value;
      var nodeId := NodeId(workflowId, name, |w.nodes|);
      var node := Node(nodeId, name, nodeType, handler, OptionOr(config, []), OptionOr(dependencies, []));
      w.AppendNode(node, now);
      forall k | k in workflows && k != workflowId ensures workflows[k] != w {
      }
      return Ok(nodeId);
    }

    /**
     * `add_edge`: an unknown workflow or an endpoint that is not one of its
     * nodes is refused with no change; otherwise the edge is appended and
     * the update time is `now`.
     */
    method AddEdge(workflowId: string, fromNode: string, toNode: string, now: int) returns (r: Result<()>)
      requires Valid()
      modifies Target(workflowId)
      ensures Valid()
      ensures workflowId !in workflows ==> r == Err("Workflow " + workflowId + " not found")
      ensures workflowId in workflows ==>
        var w := workflows[workflowId];
        && (r.Ok? <==> fromNode in NodeIds(old(w.nodes)) && toNode in NodeIds(old(w.nodes)))
        && (r.Err? ==> r.error == "Node not found" && unchanged(w))
        && (r.Ok? ==> w.edges == old(w.edges) + [(fromNode, toNode)] && w.updatedAt == now)
        && w.nodes == old(w.nodes) && w.status == old(w.status) && w.graph == old(w.graph)
    {
      var found := GetWorkflow(workflowId);
      if found.None? {
        return Err("Workflow " + workflowId + " not found");
      }
      var w := found.value;
      var nodeIds := NodeIds(w.nodes);
      if fromNode !in nodeIds || toNode !in nodeIds {
        return Err("Node not found");
      }
      w.AppendEdge(fromNode, toNode, now);
      forall k | k in workflows && k != workflowId ensures workflows[k] != w {
      }
      return Ok(());
    }

    /**
     * `build_graph`: `available` says whether the graph library is installed
     * and `compiles` whether it accepts the graph. The graph is stored, and
     * true returned, only when both hold for a known workflow.
     */
    method BuildGraph(workflowId: string, available: bool, compiles: bool, now: int) returns (built: bool)
      requires Valid()
      modifies Target(workflowId)
      ensures Valid()
      ensures built <==> available && workflowId in workflows && compiles
      ensures workflowId in workflows ==>
        var w := workflows[workflowId];
        && (built ==> w.graph == Some(GraphOf(w.nodes, w.edges)) && w.updatedAt == now)
        && (!built ==> unchanged(w))
        && w.nodes == old(w.nodes) && w.edges == old(w.edges) && w.status == old(w.status)
    {
      if !available {
        return false;
      }
      var found := GetWorkflow(workflowId);
      if found.None? {
        return false;
      }
      if !compiles {
        return false;
      }
      var w := found.value;
      w.graph := Some(GraphOf(w.nodes, w.edges));
      w.updatedAt := now;
      forall k | k in workflows && k != workflowId ensures workflows[k] != w {
      }
      return true;
    }

    /** `list_workflows`: every workflow, in creation order. */
    method ListWorkflows() returns (result: seq<Workflow>)
      requires Valid()
      ensures result == Pick(workflows, order, (w: Workflow) => true)
      ensures |result| == |workflows|
      ensures forall id :: id in workflows ==> workflows[id] in result
    {
      result := Collect(workflows, order, (w: Workflow) => true);
      forall id | id in workflows ensures workflows[id] in result {
        PickComplete(workflows, order, (w: Workflow) => true, id);
      }
      ListedOnce(workflows, order);
    }

    /** `delete_workflow`: true exactly when the workflow existed; it is no longer filed. */
    method DeleteWorkflow(id: string) returns (removed: bool)
      requires Valid()
      modifies this
      ensures Valid()
      ensures removed <==> id in old(workflows)
      ensures workflows == old(workflows) - {id}
      ensures order == RemoveFirst(old(order), id)
    {
      removed := id in workflows;
      OrderedRemove(order, workflows, id);
      workflows := workflows - {id};
      order := RemoveFirst(order, id);
    }
  }

  /** Listing every workflow in creation order yields each once. */
  lemma ListedOnce(workflows: map<string, Workflow>, order: seq<string>)
    requires Registered(workflows, order)
    ensures |Pick(workflows, order, (w: Workflow) => true)| == |workflows|
  {
    PickAll(workflows, order);
    OrderedSize(order, workflows);
  }

  lemma {:induction false} PickAll(workflows: map<string, Workflow>, order: seq<string>)
    requires forall id :: id in order ==> id in workflows
    requires NoDup(order)
    ensures |Pick(workflows, order, (w: Workflow) => true)| == |order|
  {
    if order != [] {
      var n := |order| - 1;
      PickAll(workflows, order[..n]);
    }
  }
}
