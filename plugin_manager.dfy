// Loading plugins into instances and switching them on and off. Importing
// the plugin's module and calling its hooks are outside the model: their
// outcomes are parameters.
module PluginManager {
  import opened Wrappers
  import opened Seqs
  import opened Index
  import opened Listing
  import PluginRegistry

  datatype InstanceStatus = Loaded | Active | Inactive | Error

  /** A loaded plugin; its config and plugin object are not modelled. */
  datatype PluginInstance = PluginInstance(
    instanceId: string,
    pluginId: string,
    status: InstanceStatus,
    createdAt: int,
    errorMessage: Option<string>)

  /** A dependency can be used when it is registered and Active. */
  predicate Available(plugins: map<string, PluginRegistry.PluginMetadata>, dep: string)
  {
    dep in plugins && plugins[dep].status == PluginRegistry.Active
  }

  /** The first dependency, in declaration order, that cannot be used. */
  function FirstUnavailable(plugins: map<string, PluginRegistry.PluginMetadata>, deps: seq<string>)
    : (r: Option<string>)
    ensures r.Some? ==> r.value in deps && !Available(plugins, r.value)
  {
    if deps == [] then None
    else if !Available(plugins, deps[0]) then Some(deps[0])
    else FirstUnavailable(plugins, deps[1..])
  }

  /** No dependency is reported exactly when every dependency can be used. */
  lemma {:induction false} FirstUnavailableNone(plugins: map<string, PluginRegistry.PluginMetadata>, deps: seq<string>)
    ensures FirstUnavailable(plugins, deps).None? <==> forall d :: d in deps ==> Available(plugins, d)
  {
    if deps != [] {
      FirstUnavailableNone(plugins, deps[1..]);
      assert forall d :: d in deps <==> d == deps[0] || d in deps[1..];
    }
  }

  /** The dependency loop of `load_plugin`. */
  method CheckDependencies(registry: PluginRegistry.Registry, deps: seq<string>) returns (missing: Option<string>)
    ensures missing == FirstUnavailable(registry.plugins, deps)
  {
    var i := 0;
    while i < |deps|
      invariant 0 <= i <= |deps|
      invariant FirstUnavailable(registry.plugins, deps) == FirstUnavailable(registry.plugins, deps[i..])
    {
      var dep := registry.Get(deps[i]);
      if dep.None? || dep.value.status != PluginRegistry.Active {
        return Some(deps[i]);
      }
      assert deps[i..][1..] == deps[i + 1..];
      i := i + 1;
    }
    return None;
  }

  /** `list_instances`: an empty or absent filter keeps everything. */
  predicate Listed(inst: PluginInstance, pluginId: Option<string>, status: Option<InstanceStatus>)
  {
    (pluginId.None? || pluginId.value == "" || inst.pluginId == pluginId.value)
    && (status.None? || inst.status == status.value)
  }

  function ListedFor(pluginId: Option<string>, status: Option<InstanceStatus>): PluginInstance -> bool
  {
    (inst: PluginInstance) => Listed(inst, pluginId, status)
  }

  ghost predicate Consistent(instances: map<string, PluginInstance>, order: seq<string>)
  {
    Ordered(order, instances) && forall id :: id in instances ==> instances[id].instanceId == id
  }

  class Manager {
    var instances: map<string, PluginInstance>
    var order: seq<string>

    ghost predicate Valid()
      reads this
    {
      Consistent(instances, order)
    }

    constructor ()
      ensures Valid() && instances == map[]
    {
      instances, order := map[], [];
    }

    /** Stores an instance under its id, keeping its place in iteration order if the id was present. */
    method Put(inst: PluginInstance)
      requires Valid()
      modifies this
      ensures Valid()
      ensures instances == old(instances)[inst.instanceId := inst]
      ensures order == if inst.instanceId in old(instances) then old(order) else old(order) + [inst.instanceId]
    {
      if inst.instanceId !in instances {
        OrderedAppend(order, instances, inst.instanceId, inst);
        order := order + [inst.instanceId];
      }
      instances := instances[inst.instanceId := inst];
    }

    /**
     * `load_plugin`: the plugin must be registered and every dependency
     * registered and Active. A module that fails to import marks the plugin
     * Error in the registry; otherwise a Loaded instance is stored and the
     * plugin is marked Loaded.
     */
    method LoadPlugin(registry: PluginRegistry.Registry, pluginId: string, instanceId: string,
                      importError: Option<string>, now: int)
      returns (r: Result<PluginInstance>)
      requires Valid() && registry.Valid()
      modifies this, registry
      ensures Valid() && registry.Valid()
      ensures pluginId !in old(registry.plugins) ==>
        r == Err("Plugin " + pluginId + " not found") && unchanged(this) && unchanged(registry)
      ensures pluginId in old(registry.plugins) &&
              FirstUnavailable(old(registry.plugins), old(registry.plugins)[pluginId].dependencies).Some? ==>
        var dep := FirstUnavailable(old(registry.plugins), old(registry.plugins)[pluginId].dependencies).value;
        r == Err("Plugin " + pluginId + " depends on " + dep + " which is not available")
        && unchanged(this) && unchanged(registry)
      ensures pluginId in old(registry.plugins) &&
              FirstUnavailable(old(registry.plugins), old(registry.plugins)[pluginId].dependencies).None? ==>
        if importError.Some? then
          && r == Err(importError.value) && unchanged(this)
          && registry.plugins == old(registry.plugins)[pluginId :=
               PluginRegistry.StatusSet(old(registry.plugins)[pluginId], PluginRegistry.Error, importError, now)]
        else
          && r == Ok(PluginInstance(instanceId, pluginId, Loaded, now, None))
          && instances == old(instances)[instanceId := r.value]
          && order == (if instanceId in old(instances) then old(order) else old(order) + [instanceId])
          && registry.plugins == old(registry.plugins)[pluginId :=
               PluginRegistry.StatusSet(old(registry.plugins)[pluginId], PluginRegistry.Loaded, None, now)]
    {
      var metadata := registry.Get(pluginId);
      if metadata.None? {
        return Err("Plugin " + pluginId + " not found");
      }
      var missing := CheckDependencies(registry, metadata.value.dependencies);
      if missing.Some? {
        return Err("Plugin " + pluginId + " depends on " + missing.value + " which is not available");
      }
      if importError.Some? {
        var _ := registry.UpdateStatus(pluginId, PluginRegistry.Error, importError, now);
        return Err(importError.value);
      }
      var inst := PluginInstance(instanceId, pluginId, Loaded, now, None);
      Put(inst);
      var _ := registry.UpdateStatus(pluginId, PluginRegistry.Loaded, None, now);
      return Ok(inst);
    }

    /**
     * `activate_plugin` (`target` Active) and `deactivate_plugin` (`target`
     * Inactive): an unknown instance gives false; a failing hook puts the
     * instance in Error and gives false; otherwise the instance and its
     * plugin take the target status.
     */
    method Switch(registry: PluginRegistry.Registry, instanceId: string, target: InstanceStatus,
                  hookError: Option<string>, now: int)
      returns (ok: bool)
      requires Valid() && registry.Valid()
      requires target == Active || target == Inactive
      modifies this, registry
      ensures Valid() && registry.Valid()
      ensures instanceId !in old(instances) ==> !ok && unchanged(this) && unchanged(registry)
      ensures instanceId in old(instances) && hookError.Some? ==>
        && !ok && unchanged(registry)
        && instances == old(instances)[instanceId := old(instances)[instanceId].(status := Error, errorMessage := hookError)]
      ensures instanceId in old(instances) && hookError.None? ==>
        var pid := old(instances)[instanceId].pluginId;
        && ok
        && instances == old(instances)[instanceId := old(instances)[instanceId].(status := target)]
        && (pid in old(registry.plugins) ==>
              registry.plugins == old(registry.plugins)[pid :=
                PluginRegistry.StatusSet(old(registry.plugins)[pid], RegistryStatus(target), None, now)])
        && (pid !in old(registry.plugins) ==> unchanged(registry))
      ensures order == old(order)
    {
      if instanceId !in instances {
        return false;
      }
      var inst := instances[instanceId];
      if hookError.Some? {
        Put(inst.(status := Error, errorMessage := hookError));
        return false;
      }
      Put(inst.(status := target));
      var _ := registry.UpdateStatus(inst.pluginId, RegistryStatus(target), None, now);
      return true;
    }

    function GetInstance(instanceId: string): (r: Option<PluginInstance>)
      reads this
      ensures r.Some? <==> instanceId in instances
      ensures r.Some? ==> r.value == instances[instanceId]
    {
      if instanceId in instances then Some(instances[instanceId]) else None
    }

    /** `list_instances`: the instances, in load order, that pass both filters. */
    method ListInstances(pluginId: Option<string>, status: Option<InstanceStatus>) returns (result: seq<PluginInstance>)
      ensures result == Pick(instances, order, ListedFor(pluginId, status))
    {
      result := Collect(instances, order, ListedFor(pluginId, status));
    }
  }

  /** The registry status that goes with an instance status. */
  function RegistryStatus(s: InstanceStatus): PluginRegistry.PluginStatus
  {
    match s
    case Loaded => PluginRegistry.Loaded
    case Active => PluginRegistry.Active
    case Inactive => PluginRegistry.Inactive
    case Error => PluginRegistry.Error
  }

  /** `list_instances` returns exactly the stored instances that pass its filters. */
  lemma ListInstancesExact(instances: map<string, PluginInstance>, order: seq<string>,
                           pluginId: Option<string>, status: Option<InstanceStatus>, inst: PluginInstance)
    requires Consistent(instances, order)
    ensures inst in Pick(instances, order, ListedFor(pluginId, status))
        <==> inst in instances.Values && Listed(inst, pluginId, status)
  {
    if inst in instances.Values && Listed(inst, pluginId, status) {
      var id :| id in instances && instances[id] == inst;
      PickComplete(instances, order, ListedFor(pluginId, status), id);
    }
  }
}
