// Running a workflow's compiled graph and cancelling a running workflow: the
// status moves to running, then to completed or failed; only a running
// workflow can be cancelled.
module WorkflowExecutor {
  import opened Wrappers
  import opened Values
  import opened WorkflowEngine

  /** The reply `execute` returns once the graph has run: the result, or the error's text. */
  function Reply(workflowId: string, outcome: Result<Value>): (r: Dict)
    ensures Get(r, "success") == Some(VBool(outcome.Ok?))
    ensures Get(r, "workflow_id") == Some(VStr(workflowId))
    ensures outcome.Ok? ==> Get(r, "result") == Some(outcome.value) && !Has(r, "error")
    ensures outcome.Err? ==> Get(r, "error") == Some(VStr(outcome.error)) && !Has(r, "result")
  {
    var r := if outcome.Ok? then [("success", VBool(true)), ("result", outcome.value), ("workflow_id", VStr(workflowId))]
             else [("success", VBool(false)), ("error", VStr(outcome.error)), ("workflow_id", VStr(workflowId))];
    GetAt(r, 0); GetAt(r, 1); GetAt(r, 2);
    GetAbsent(r, if outcome.Ok? then "error" else "result");
    r
  }

  /** `WorkflowExecutor`: runs the workflows of one engine. */
  class Executor {
    const engine: Engine

    constructor (engine: Engine)
      ensures this.engine == engine
    {
      this.engine := engine;
    }

    /**
     * `execute`: an unknown workflow or one without a compiled graph is
     * refused with no change. Otherwise the workflow is marked running, the
     * graph is run (`outcome` is what invoking it returned or raised), and
     * the workflow ends completed or failed with its update time `now`.
     */
    method Execute(workflowId: string, outcome: Result<Value>, now: int) returns (r: Result<Dict>)
      requires engine.Valid()
      modifies engine.Target(workflowId)
      ensures engine.Valid()
      ensures workflowId !in engine.workflows ==> r == Err("Workflow " + workflowId + " not found")
      ensures workflowId in engine.workflows ==>
        var w := engine.workflows[workflowId];
        && (old(w.graph).None? ==> r == Err("Workflow " + workflowId + " graph not built") && unchanged(w))
        && (old(w.graph).Some? ==>
              r == Ok(Reply(workflowId, outcome)) && w.updatedAt == now &&
              w.status == if outcome.Ok? then Completed else Failed)
        && w.nodes == old(w.nodes) && w.edges == old(w.edges) && w.graph == old(w.graph)
    {
      var found := engine.GetWorkflow(workflowId);
      if found.None? {
        return Err("Workflow " + workflowId + " not found");
      }
      var w := found.value;
      if w.graph.None? {
        return Err("Workflow " + workflowId + " graph not built");
      }
      w.Finish(outcome.Ok?, now);
      forall k | k in engine.workflows && k != workflowId ensures engine.workflows[k] != w {
      }
      return Ok(Reply(workflowId, outcome));
    }

    /** `cancel`: a running workflow becomes cancelled and true is returned; otherwise false and no change. */
    method Cancel(workflowId: string, now: int) returns (cancelled: bool)
      requires engine.Valid()
      modifies engine.Target(workflowId)
      ensures engine.Valid()
      ensures cancelled <==> workflowId in engine.workflows && old(engine.workflows[workflowId].status) == Running
      ensures cancelled ==>
        engine.workflows[workflowId].status == Cancelled && engine.workflows[workflowId].updatedAt == now
      ensures !cancelled && workflowId in engine.workflows ==> unchanged(engine.workflows[workflowId])
      ensures workflowId in engine.workflows ==>
        var w := engine.workflows[workflowId];
        w.nodes == old(w.nodes) && w.edges == old(w.edges) && w.graph == old(w.graph)
    {
      var found := engine.GetWorkflow(workflowId);
      if found.None? {
        return false;
      }
      var w := found.value;
      if w.status == Running {
        w.status := Cancelled;
        w.updatedAt := now;
        forall k | k in engine.workflows && k != workflowId ensures engine.workflows[k] != w {
        }
        return true;
      }
      return false;
    }
  }
}
