// The lifecycle of running agent instances: creation from an active
// registered agent, start, stop, delete, listing and the heartbeat check.
module AgentManager {
  import opened Wrappers
  import opened Seqs
  import opened Index
  import AgentRegistry

  datatype InstanceStatus = Created | Initializing | Running | Idle | Error | Stopped

  /** An agent instance; its config, metrics and agent object are not modelled. */
  datatype AgentInstance = AgentInstance(
    instanceId: string,
    agentId: string,
    name: string,
    status: InstanceStatus,
    createdAt: int,
    lastHeartbeat: int,
    errorMessage: Option<string>)

  /** What the agent's factory function does when called: absent, returns, or raises. */
  datatype Factory = NoFactory | FactorySucceeds | FactoryFails(error: string)

  /** `s[:n]` on a string. */
  function Prefix(s: string, n: nat): (r: string)
    ensures |r| == if |s| < n then |s| else n
    ensures r <= s
  {
    if |s| <= n then s else s[..n]
  }

  /** The instance name: the given one when non-empty, else the agent's name and the id's first eight characters. */
  function InstanceName(name: Option<string>, agentName: string, instanceId: string): (r: string)
    ensures name.Some? && name.value != "" ==> r == name.value
    ensures (name.None? || name.value == "") ==> r == agentName + "_" + Prefix(instanceId, 8)
  {
    if name.Some? && name.value != "" then name.value else agentName + "_" + Prefix(instanceId, 8)
  }

  /**
   * `_initialize_instance` followed by the caller's handler: the instance
   * runs unless the factory raises, in which case it is in Error carrying the
   * factory's message (the caller overwrites the message set inside).
   */
  function Initialized(inst: AgentInstance, factory: Factory): (r: AgentInstance)
    ensures r.instanceId == inst.instanceId && r.agentId == inst.agentId && r.name == inst.name
    ensures factory.FactoryFails? <==> r.status == Error
    ensures !factory.FactoryFails? ==> r.status == Running && r.errorMessage == inst.errorMessage
    ensures factory.FactoryFails? ==> r.errorMessage == Some(factory.error)
  {
    if factory.FactoryFails? then inst.(status := Error, errorMessage := Some(factory.error))
    else inst.(status := Running)
  }

  /** The heartbeat limit in seconds. */
  const HeartbeatTimeout := 300

  /**
   * One instance in one pass of `_heartbeat_loop` as written: a running
   * instance's heartbeat is refreshed at `refreshAt`, then the clock is read
   * again at `checkAt` and compared with the heartbeat just written.
   */
  function BeatAsWritten(inst: AgentInstance, refreshAt: int, checkAt: int): AgentInstance
  {
    if inst.status != Running then inst
    else
      var refreshed := inst.(lastHeartbeat := refreshAt);
      if checkAt - refreshed.lastHeartbeat > HeartbeatTimeout
      then refreshed.(status := Error, errorMessage := Some("Heartbeat timeout"))
      else refreshed
  }

  /**
   * As written, the timeout branch depends only on the time between two
   * consecutive clock reads, never on how long the instance was silent: the
   * status is never changed.
   */
  lemma HeartbeatTimeoutNeverFires(inst: AgentInstance, refreshAt: int, checkAt: int)
    requires refreshAt <= checkAt <= refreshAt + HeartbeatTimeout
    ensures BeatAsWritten(inst, refreshAt, checkAt).status == inst.status
    ensures inst.status == Running ==> BeatAsWritten(inst, refreshAt, checkAt).lastHeartbeat == refreshAt
  {
  }

  /** A running instance silent for 1000 seconds stays Running under the loop as written. */
  lemma StaleInstanceKeepsRunning()
    ensures var stale := AgentInstance("i", "a", "n", Running, 0, 0, None);
      BeatAsWritten(stale, 1000, 1000).status == Running && Beat(stale, 1000).status == Error
  {
  }

  /**
   * One instance in one pass of the heartbeat check as intended: a running
   * instance whose last heartbeat is more than five minutes before `now`
   * goes to Error with "Heartbeat timeout"; any other instance is unchanged.
   */
  function Beat(inst: AgentInstance, now: int): (r: AgentInstance)
    ensures (inst.status == Running && now - inst.lastHeartbeat > HeartbeatTimeout) ==>
      r == inst.(status := Error, errorMessage := Some("Heartbeat timeout"))
    ensures !(inst.status == Running && now - inst.lastHeartbeat > HeartbeatTimeout) ==> r == inst
  {
    if inst.status == Running && now - inst.lastHeartbeat > HeartbeatTimeout
    then inst.(status := Error, errorMessage := Some("Heartbeat timeout"))
    else inst
  }

  /** After a check at `now`, no running instance has been silent longer than the limit. */
  lemma BeatLeavesNoStaleRunner(inst: AgentInstance, now: int)
    ensures Beat(inst, now).status == Running ==> now - Beat(inst, now).lastHeartbeat <= HeartbeatTimeout
    ensures Beat(Beat(inst, now), now) == Beat(inst, now)
  {
  }

  /** `list_instances`: an empty or absent filter keeps everything. */
  predicate Listed(inst: AgentInstance, agentId: Option<string>, status: Option<InstanceStatus>)
  {
    (agentId.None? || agentId.value == "" || inst.agentId == agentId.value)
    && (status.None? || inst.status == status.value)
  }

  function SelectInstances(instances: map<string, AgentInstance>, ids: seq<string>,
                           agentId: Option<string>, status: Option<InstanceStatus>): (r: seq<AgentInstance>)
    ensures forall x :: x in r ==> x in instances.Values && Listed(x, agentId, status)
  {
    if ids == [] then []
    else
      var rest := SelectInstances(instances, ids[..|ids| - 1], agentId, status);
      var id := ids[|ids| - 1];
      if id in instances && Listed(instances[id], agentId, status) then rest + [instances[id]] else rest
  }

  lemma {:induction false} SelectInstancesComplete(instances: map<string, AgentInstance>, ids: seq<string>,
      agentId: Option<string>, status: Option<InstanceStatus>, id: string)
    requires id in ids && id in instances && Listed(instances[id], agentId, status)
    ensures instances[id] in SelectInstances(instances, ids, agentId, status)
  {
    var last := ids[|ids| - 1];
    if last != id {
      assert id in ids[..|ids| - 1] by {
        var k :| 0 <= k < |ids| && ids[k] == id;
        assert k < |ids| - 1;
        assert ids[..|ids| - 1][k] == id;
      }
      SelectInstancesComplete(instances, ids[..|ids| - 1], agentId, status, id);
    }
  }

  ghost predicate Consistent(instances: map<string, AgentInstance>, order: seq<string>)
  {
    Ordered(order, instances) && forall id :: id in instances ==> instances[id].instanceId == id
  }

  class Manager {
    var instances: map<string, AgentInstance>
    var order: seq<string>

    ghost predicate Valid()
      reads this
    {
      Consistent(instances, order)
    }

    constructor ()
      ensures Valid() && instances == map[]
    {
      instances, order := map[], [];
    }

    /** Stores an instance under its id, keeping its place in iteration order if the id was present. */
    method Put(inst: AgentInstance)
      requires Valid()
      modifies this
      ensures Valid()
      ensures instances == old(instances)[inst.instanceId := inst]
      ensures order == if inst.instanceId in old(instances) then old(order) else old(order) + [inst.instanceId]
    {
      if inst.instanceId !in instances {
        OrderedAppend(order, instances, inst.instanceId, inst);
        order := order + [inst.instanceId];
      }
      instances := instances[inst.instanceId := inst];
    }

    /**
     * `create_instance`: the agent must be registered and Active; the new
     * instance is stored before it is initialised, so a factory failure
     * leaves it stored in Error and is reported.
     */
    method CreateInstance(registry: AgentRegistry.Registry, agentId: string, name: Option<string>,
                          instanceId: string, factory: Factory, now: int)
      returns (r: Result<AgentInstance>)
      requires Valid()
      modifies this
      ensures Valid()
      ensures registry.Get(agentId).None? ==> r == Err("Agent " + agentId + " not found in registry") && unchanged(this)
      ensures registry.Get(agentId).Some? && registry.Get(agentId).value.status != AgentRegistry.Active ==>
        r == Err("Agent " + agentId + " is not active") && unchanged(this)
      ensures registry.Get(agentId).Some? && registry.Get(agentId).value.status == AgentRegistry.Active ==>
        var inst := Initialized(AgentInstance(instanceId, agentId,
                                  InstanceName(name, registry.Get(agentId).value.name, instanceId),
                                  Created, now, now, None), factory);
        && instances == old(instances)[instanceId := inst]
        && order == (if instanceId in old(instances) then old(order) else old(order) + [instanceId])
        && (if factory.FactoryFails? then r == Err(factory.error) else r == Ok(inst))
    {
      var metadata := registry.Get(agentId);
      if metadata.None? {
        return Err("Agent " + agentId + " not found in registry");
      }
      if metadata.value.status != AgentRegistry.Active {
        return Err("Agent " + agentId + " is not active");
      }
      var inst := AgentInstance(instanceId, agentId, InstanceName(name, metadata.value.name, instanceId),
                                Created, now, now, None);
      var ready := StoreAndInitialize(inst, factory);
      assert registry.Get(agentId) == metadata;
      if factory.FactoryFails? {
        return Err(factory.error);
      }
      return Ok(ready);
    }

    /** The instance is stored as created, then stored again once initialised. */
    method StoreAndInitialize(inst: AgentInstance, factory: Factory) returns (ready: AgentInstance)
      requires Valid()
      modifies this
      ensures Valid()
      ensures ready == Initialized(inst, factory)
      ensures instances == old(instances)[inst.instanceId := ready]
      ensures order == if inst.instanceId in old(instances) then old(order) else old(order) + [inst.instanceId]
    {
      ghost var before := instances;
      Put(inst);
      ready := Initialized(inst, factory);
      Put(ready);
      assert instances == before[inst.instanceId := ready];
    }

    /**
     * `start_instance`: an unknown id gives false; a running instance is left
     * alone; any other is re-initialised, and false reports a factory failure.
     */
    method StartInstance(instanceId: string, factory: Factory) returns (ok: bool)
      requires Valid()
      modifies this
      ensures Valid()
      ensures instanceId !in old(instances) ==> !ok && unchanged(this)
      ensures instanceId in old(instances) && old(instances)[instanceId].status == Running ==> ok && unchanged(this)
      ensures instanceId in old(instances) && old(instances)[instanceId].status != Running ==>
        && instances == old(instances)[instanceId := Initialized(old(instances)[instanceId], factory)]
        && ok == !factory.FactoryFails?
      ensures order == old(order)
    {
      if instanceId !in instances {
        return false;
      }
      var inst := instances[instanceId];
      if inst.status == Running {
        return true;
      }
      Put(inst.(status := Initializing));
      Put(Initialized(inst, factory));
      return !factory.FactoryFails?;
    }

    /** `stop_instance`: a known instance becomes Stopped; an unknown id gives false. */
    method StopInstance(instanceId: string) returns (ok: bool)
      requires Valid()
      modifies this
      ensures Valid()
      ensures ok == (instanceId in old(instances))
      ensures !ok ==> unchanged(this)
      ensures ok ==> instances == old(instances)[instanceId := old(instances)[instanceId].(status := Stopped)]
      ensures order == old(order)
    {
      if instanceId !in instances {
        return false;
      }
      Put(instances[instanceId].(status := Stopped));
      return true;
    }

    /** `delete_instance`: stops, then drops a known instance; an unknown id gives false. */
    method DeleteInstance(instanceId: string) returns (ok: bool)
      requires Valid()
      modifies this
      ensures Valid()
      ensures ok == (instanceId in old(instances))
      ensures !ok ==> unchanged(this)
      ensures ok ==> instances == old(instances) - {instanceId}
      ensures ok ==> order == RemoveFirst(old(order), instanceId)
    {
      if instanceId !in instances {
        return false;
      }
      var _ := StopInstance(instanceId);
      OrderedRemove(order, instances, instanceId);
      instances, order := instances - {instanceId}, RemoveFirst(order, instanceId);
      return true;
    }

    function GetInstance(instanceId: string): (r: Option<AgentInstance>)
      reads this
      ensures r.Some? <==> instanceId in instances
      ensures r.Some? ==> r.value == instances[instanceId]
    {
      if instanceId in instances then Some(instances[instanceId]) else None
    }

    /** `list_instances`: the instances, in insertion order, that pass both filters. */
    method ListInstances(agentId: Option<string>, status: Option<InstanceStatus>) returns (result: seq<AgentInstance>)
      requires Valid()
      ensures result == SelectInstances(instances, order, agentId, status)
    {
      result := [];
      var i := 0;
      while i < |order|
        invariant 0 <= i <= |order|
        invariant result == SelectInstances(instances, order[..i], agentId, status)
      {
        PrefixOfPrefix(order, i);
        var inst := instances[order[i]];
        if Listed(inst, agentId, status) {
          result := result + [inst];
        }
        i := i + 1;
      }
      FullPrefix(order);
    }

    /** `update_heartbeat`: records `now` as a known instance's last heartbeat. */
    method UpdateHeartbeat(instanceId: string, now: int)
      requires Valid()
      modifies this
      ensures Valid()
      ensures instanceId !in old(instances) ==> unchanged(this)
      ensures instanceId in old(instances) ==>
        instances == old(instances)[instanceId := old(instances)[instanceId].(lastHeartbeat := now)]
      ensures order == old(order)
    {
      if instanceId in instances {
        Put(instances[instanceId].(lastHeartbeat := now));
      }
    }

    /** One pass of the heartbeat check over every instance, as intended. */
    method CheckHeartbeats(now: int)
      requires Valid()
      modifies this
      ensures Valid()
      ensures instances == map id | id in old(instances) :: Beat(old(instances)[id], now)
      ensures order == old(order)
    {
      ghost var start := instances;
      var i := 0;
      while i < |order|
        invariant 0 <= i <= |order|
        invariant Valid() && order == old(order)
        invariant instances.Keys == start.Keys
        invariant forall id :: id in instances ==>
          instances[id] == if id in order[..i] then Beat(start[id], now) else start[id]
      {
        BeatAt(start, i, now);
        i := i + 1;
      }
      FullPrefix(order);
    }

    /** One pass of the heartbeat loop: the `i`-th instance in order is checked, the others are left as they were. */
    method BeatAt(ghost start: map<string, AgentInstance>, i: nat, now: int)
      requires Valid() && i < |order| && instances.Keys == start.Keys
      requires forall id :: id in instances ==>
        instances[id] == if id in order[..i] then Beat(start[id], now) else start[id]
      modifies this
      ensures Valid() && order == old(order) && instances.Keys == start.Keys
      ensures forall id :: id in instances ==>
        instances[id] == if id in order[..i + 1] then Beat(start[id], now) else start[id]
    {
      var id := order[i];
      assert id !in order[..i] by {
        forall k | 0 <= k < i ensures order[..i][k] != id { assert order[k] != order[i]; }
      }
      assert order[..i + 1] == order[..i] + [id];
      Put(Beat(instances[id], now));
    }
  }
}
