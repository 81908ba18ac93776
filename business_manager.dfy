// Loading, activating and running business plugins. The manager changes the
// plugin records the registry holds in place: their status, their enabled
// flag and their runtime instance. Importing the entry point and running the
// instance's hooks are outside the model; their outcomes are parameters.
module BusinessManager {
  import opened Wrappers
  import opened Listing
  import opened BusinessModel
  import opened BusinessRegistry

  /** What importing a plugin's entry point does: it yields an instance or raises. */
  datatype ModuleLoad = Yields(instance: Instance) | Raises(error: string)

  /** `if plugin.entry_point:`. */
  predicate HasEntryPoint(p: Plugin)
  {
    p.entryPoint.Some? && p.entryPoint.value != ""
  }

  /** A dependency can be used when it is registered and Active. */
  predicate Available(plugins: map<string, Plugin>, dep: string)
  {
    dep in plugins && plugins[dep].status == Active
  }

  /** The first dependency, in declaration order, that cannot be used. */
  function FirstUnavailable(plugins: map<string, Plugin>, deps: seq<string>): (r: Option<string>)
    ensures r.Some? ==> r.value in deps && !Available(plugins, r.value)
  {
    if deps == [] then None
    else if !Available(plugins, deps[0]) then Some(deps[0])
    else FirstUnavailable(plugins, deps[1..])
  }

  /** No dependency is reported exactly when every dependency can be used. */
  lemma {:induction false} FirstUnavailableNone(plugins: map<string, Plugin>, deps: seq<string>)
    ensures FirstUnavailable(plugins, deps).None? <==> forall d :: d in deps ==> Available(plugins, d)
  {
    if deps != [] {
      FirstUnavailableNone(plugins, deps[1..]);
      assert forall d :: d in deps <==> d == deps[0] || d in deps[1..];
    }
  }

  /**
   * What `load_plugin` returns: the plugin as it is after loading, or the
   * message of the error it raises.
   */
  function LoadOutcome(plugins: map<string, Plugin>, pluginId: string, load: ModuleLoad): (r: Result<Plugin>)
  {
    if pluginId !in plugins then Err("Plugin " + pluginId + " not found")
    else
      var p := plugins[pluginId];
      match FirstUnavailable(plugins, p.dependencies)
      case Some(dep) => Err("Plugin " + pluginId + " depends on " + dep + " which is not available")
      case None =>
        if !HasEntryPoint(p) then Ok(p.(status := Loaded))
        else
          match load
          case Raises(e) => Err("Failed to load plugin " + pluginId + ": " + e)
          case Yields(inst) => Ok(p.(instance := inst, status := Loaded))
  }

  /** The one failure of `load_plugin` that leaves the plugin marked Error. */
  predicate ImportFails(plugins: map<string, Plugin>, pluginId: string, load: ModuleLoad)
  {
    && pluginId in plugins
    && FirstUnavailable(plugins, plugins[pluginId].dependencies).None?
    && HasEntryPoint(plugins[pluginId])
    && load.Raises?
  }

  /**
   * A plugin loads exactly when it is registered, every dependency is
   * registered and Active, and its entry point (if any) imports; it comes out
   * Loaded with everything but its status and instance as before.
   */
  lemma LoadSucceeds(plugins: map<string, Plugin>, pluginId: string, load: ModuleLoad)
    ensures LoadOutcome(plugins, pluginId, load).Ok? <==>
      && pluginId in plugins
      && (forall d :: d in plugins[pluginId].dependencies ==> Available(plugins, d))
      && (HasEntryPoint(plugins[pluginId]) ==> load.Yields?)
    ensures LoadOutcome(plugins, pluginId, load).Ok? ==>
      var q := LoadOutcome(plugins, pluginId, load).value;
      && q.status == Loaded
      && q == plugins[pluginId].(status := Loaded, instance := q.instance)
      && q.instance == if HasEntryPoint(plugins[pluginId]) then load.instance else plugins[pluginId].instance
  {
    if pluginId in plugins {
      FirstUnavailableNone(plugins, plugins[pluginId].dependencies);
    }
  }

  /** `plugin.plugin_instance and hasattr(plugin.plugin_instance, 'activate')`, and the hook raises. */
  predicate ActivateRaises(p: Plugin, hookFails: bool)
  {
    p.instance.Instance? && p.instance.hasActivate && hookFails
  }

  predicate DeactivateRaises(p: Plugin, hookFails: bool)
  {
    p.instance.Instance? && p.instance.hasDeactivate && hookFails
  }

  /**
   * What `execute_capability` runs: the named plugin if it has the
   * capability, else the first Active, enabled plugin with it; that plugin
   * needs an instance with an `execute` method.
   */
  function Executor(plugins: map<string, Plugin>, candidates: seq<Plugin>, capability: Capability,
                    pluginId: Option<string>): (r: Result<Plugin>)
  {
    match Chosen(plugins, candidates, capability, pluginId)
    case Err(e) => Err(e)
    case Ok(p) =>
      if p.instance.Instance? && p.instance.hasExecute then Ok(p)
      else Err(NoExecuteMethod(p.pluginId))
  }

  /** The error raised for a chosen plugin without an `execute` method. */
  function NoExecuteMethod(pluginId: string): (e: string)
    ensures |e| > 0 && e[0] == 'P'
  {
    "Plugin " + pluginId + " does not have execute method"
  }

  /** The plugin `execute_capability` picks, before it looks for an `execute` method. */
  function Chosen(plugins: map<string, Plugin>, candidates: seq<Plugin>, capability: Capability,
                  pluginId: Option<string>): Result<Plugin>
  {
    if pluginId.Some? && pluginId.value != "" then
      if pluginId.value !in plugins || capability !in plugins[pluginId.value].capabilities then
        Err("Plugin " + pluginId.value + " does not support capability " + CapabilityName(capability))
      else Ok(plugins[pluginId.value])
    else if candidates == [] then Err("No active plugin found for capability " + CapabilityName(capability))
    else Ok(candidates[0])
  }

  /** The candidates `execute_capability` asks the registry for. */
  function ActiveWith(order: seq<string>, byCapability: map<Capability, seq<string>>,
                      byTag: map<string, seq<string>>, plugins: map<string, Plugin>, capability: Capability)
    : seq<Plugin>
  {
    Pick(plugins, Candidates(order, byCapability, byTag, Some(capability), []), KeepFor(Some(Active), Some(true)))
  }

  /**
   * Without a plugin id, the plugin that runs is registered, Active, enabled,
   * has the capability and can execute.
   */
  lemma ExecutorChoosesActive(plugins: map<string, Plugin>, order: seq<string>,
                              byCapability: map<Capability, seq<string>>, byTag: map<string, seq<string>>,
                              capability: Capability)
    requires Consistent(plugins, order, byCapability, byTag)
    ensures var r := Executor(plugins, ActiveWith(order, byCapability, byTag, plugins, capability), capability, None);
      r.Ok? ==> r.value in plugins.Values && r.value.status == Active && r.value.enabled
                && capability in r.value.capabilities && r.value.instance.Instance? && r.value.instance.hasExecute
  {
    var cs := ActiveWith(order, byCapability, byTag, plugins, capability);
    if cs != [] {
      ListExact(plugins, order, byCapability, byTag, Some(capability), Some(Active), Some(true), [], cs[0]);
    }
  }

  /**
   * Without a plugin id, "no active plugin" is raised exactly when no
   * registered plugin is Active and enabled with the capability.
   */
  lemma NoActivePluginExactly(plugins: map<string, Plugin>, order: seq<string>,
                              byCapability: map<Capability, seq<string>>, byTag: map<string, seq<string>>,
                              capability: Capability)
    requires Consistent(plugins, order, byCapability, byTag)
    ensures Executor(plugins, ActiveWith(order, byCapability, byTag, plugins, capability), capability, None)
              == Err("No active plugin found for capability " + CapabilityName(capability))
            <==> forall p :: p in plugins.Values ==> !(p.status == Active && p.enabled && capability in p.capabilities)
  {
    if ActiveWith(order, byCapability, byTag, plugins, capability) != [] {
      SomeActiveRuns(plugins, order, byCapability, byTag, capability);
    } else {
      NoneActiveRefused(plugins, order, byCapability, byTag, capability);
    }
  }

  /** With an active candidate, the first one is chosen: it is a registered, active, enabled plugin with the capability. */
  lemma SomeActiveRuns(plugins: map<string, Plugin>, order: seq<string>,
                       byCapability: map<Capability, seq<string>>, byTag: map<string, seq<string>>,
                       capability: Capability)
    requires Consistent(plugins, order, byCapability, byTag)
    requires ActiveWith(order, byCapability, byTag, plugins, capability) != []
    ensures Executor(plugins, ActiveWith(order, byCapability, byTag, plugins, capability), capability, None)
              != Err("No active plugin found for capability " + CapabilityName(capability))
    ensures var p := ActiveWith(order, byCapability, byTag, plugins, capability)[0];
      p in plugins.Values && p.status == Active && p.enabled && capability in p.capabilities
  {
    var cs := ActiveWith(order, byCapability, byTag, plugins, capability);
    ListExact(plugins, order, byCapability, byTag, Some(capability), Some(Active), Some(true), [], cs[0]);
    assert NoExecuteMethod(cs[0].pluginId)[0] != ("No active plugin found for capability " + CapabilityName(capability))[0];
  }

  /** With no active candidate, "no active plugin" is raised and no registered plugin is active and enabled with the capability. */
  lemma NoneActiveRefused(plugins: map<string, Plugin>, order: seq<string>,
                          byCapability: map<Capability, seq<string>>, byTag: map<string, seq<string>>,
                          capability: Capability)
    requires Consistent(plugins, order, byCapability, byTag)
    requires ActiveWith(order, byCapability, byTag, plugins, capability) == []
    ensures Executor(plugins, ActiveWith(order, byCapability, byTag, plugins, capability), capability, None)
              == Err("No active plugin found for capability " + CapabilityName(capability))
    ensures forall p :: p in plugins.Values ==> !(p.status == Active && p.enabled && capability in p.capabilities)
  {
    forall p | p in plugins.Values
      ensures !(p.status == Active && p.enabled && capability in p.capabilities)
    {
      ListExact(plugins, order, byCapability, byTag, Some(capability), Some(Active), Some(true), [], p);
    }
  }

  /** A named plugin runs whatever its status: only its capability and its instance are checked. */
  lemma NamedPluginIgnoresStatus(plugins: map<string, Plugin>, candidates: seq<Plugin>, capability: Capability,
                                 pluginId: string)
    requires pluginId != "" && pluginId in plugins && capability in plugins[pluginId].capabilities
    requires plugins[pluginId].instance.Instance? && plugins[pluginId].instance.hasExecute
    ensures Executor(plugins, candidates, capability, Some(pluginId)) == Ok(plugins[pluginId])
  {
  }

  /** What `activate_plugin` loads: nothing for a plugin already Loaded. */
  function Staged(plugins: map<string, Plugin>, pluginId: string, load: ModuleLoad): Result<Plugin>
    requires pluginId in plugins
  {
    if plugins[pluginId].status == Loaded then Ok(plugins[pluginId]) else LoadOutcome(plugins, pluginId, load)
  }

  /** Activation succeeds when the load does and no `activate` hook raises. */
  predicate Activates(staged: Result<Plugin>, hookFails: bool)
  {
    staged.Ok? && !ActivateRaises(staged.value, hookFails)
  }

  /** The record `activate_plugin` leaves: Active and enabled, or marked Error. */
  function Activated(p: Plugin, staged: Result<Plugin>, hookFails: bool): Plugin
  {
    if Activates(staged, hookFails) then staged.value.(status := Active, enabled := true)
    else (if staged.Ok? then staged.value else p).(status := Error)
  }

  lemma UpdateTwice(m: map<string, Plugin>, k: string, a: Plugin, b: Plugin)
    ensures m[k := a][k := b] == m[k := b]
  {
  }

  /** The dependency loop of `load_plugin`. */
  method CheckDependencies(registry: Registry, deps: seq<string>) returns (missing: Option<string>)
    ensures missing == FirstUnavailable(registry.plugins, deps)
  {
    var i := 0;
    while i < |deps|
      invariant 0 <= i <= |deps|
      invariant FirstUnavailable(registry.plugins, deps) == FirstUnavailable(registry.plugins, deps[i..])
    {
      var dep := registry.Get(deps[i]);
      if dep.None? || dep.value.status != Active {
        return Some(deps[i]);
      }
      assert deps[i..][1..] == deps[i + 1..];
      i := i + 1;
    }
    return None;
  }

  /** Writes a changed record into the registry in place; its id, capabilities and tags stay. */
  method Overwrite(registry: Registry, p: Plugin)
    requires registry.Valid() && p.pluginId in registry.plugins
    requires p.capabilities == registry.plugins[p.pluginId].capabilities
    requires p.tags == registry.plugins[p.pluginId].tags
    modifies registry
    ensures registry.Valid()
    ensures registry.plugins == old(registry.plugins)[p.pluginId := p]
    ensures registry.order == old(registry.order) && registry.byCapability == old(registry.byCapability)
    ensures registry.byTag == old(registry.byTag)
  {
    ReplaceConsistent(registry.plugins, registry.order, registry.byCapability, registry.byTag, p.pluginId, p);
    registry.plugins := registry.plugins[p.pluginId := p];
  }

  /** The `activate` hook on a loaded plugin: it becomes Active and enabled, or Error when the hook raises. */
  method ApplyActivation(registry: Registry, q: Plugin, hookFails: bool) returns (ok: bool)
    requires registry.Valid() && q.pluginId in registry.plugins && registry.plugins[q.pluginId] == q
    modifies registry
    ensures registry.Valid()
    ensures ok == !ActivateRaises(q, hookFails)
    ensures registry.plugins ==
      old(registry.plugins)[q.pluginId := if ok then q.(status := Active, enabled := true) else q.(status := Error)]
    ensures registry.order == old(registry.order) && registry.byCapability == old(registry.byCapability)
    ensures registry.byTag == old(registry.byTag)
  {
    ok := !ActivateRaises(q, hookFails);
    Overwrite(registry, if ok then q.(status := Active, enabled := true) else q.(status := Error));
  }

  class Manager {
    /** `_loaded_plugins`: the instance each imported entry point yielded. */
    var loaded: map<string, Instance>

    constructor ()
      ensures loaded == map[]
    {
      loaded := map[];
    }

    /**
     * `load_plugin`: the result is `LoadOutcome`; the registry then holds the
     * loaded record, or the record marked Error when the import raised.
     */
    method LoadPlugin(registry: Registry, pluginId: string, load: ModuleLoad) returns (r: Result<Plugin>)
      requires registry.Valid()
      modifies this, registry
      ensures registry.Valid()
      ensures registry.order == old(registry.order) && registry.byCapability == old(registry.byCapability)
      ensures registry.byTag == old(registry.byTag)
      ensures r == LoadOutcome(old(registry.plugins), pluginId, load)
      ensures r.Ok? ==> registry.plugins == old(registry.plugins)[pluginId := r.value]
      ensures r.Err? && ImportFails(old(registry.plugins), pluginId, load) ==>
        registry.plugins == old(registry.plugins)[pluginId := old(registry.plugins)[pluginId].(status := Error)]
      ensures r.Err? && !ImportFails(old(registry.plugins), pluginId, load) ==> registry.plugins == old(registry.plugins)
      ensures loaded == if r.Ok? && HasEntryPoint(old(registry.plugins)[pluginId])
                        then old(loaded)[pluginId := load.instance] else old(loaded)
    {
      var found := registry.Get(pluginId);
      if found.None? {
        return Err("Plugin " + pluginId + " not found");
      }
      var p := found.value;
      var missing := CheckDependencies(registry, p.dependencies);
      if missing.Some? {
        return Err("Plugin " + pluginId + " depends on " + missing.value + " which is not available");
      }
      if HasEntryPoint(p) {
        if load.Raises? {
          Overwrite(registry, p.(status := Error));
          return Err("Failed to load plugin " + pluginId + ": " + load.error);
        }
        var q := p.(instance := load.instance, status := Loaded);
        Overwrite(registry, q);
        loaded := loaded[pluginId := load.instance];
        return Ok(q);
      }
      var q := p.(status := Loaded);
      Overwrite(registry, q);
      return Ok(q);
    }

    /**
     * The loading step of `activate_plugin`: any error the load raises leaves
     * the plugin marked Error.
     */
    method Stage(registry: Registry, pluginId: string, load: ModuleLoad) returns (staged: Result<Plugin>)
      requires registry.Valid() && pluginId in registry.plugins
      modifies this, registry
      ensures registry.Valid()
      ensures registry.order == old(registry.order) && registry.byCapability == old(registry.byCapability)
      ensures registry.byTag == old(registry.byTag)
      ensures staged == LoadOutcome(old(registry.plugins), pluginId, load)
      ensures registry.plugins == old(registry.plugins)[pluginId :=
        if staged.Ok? then staged.value else old(registry.plugins)[pluginId].(status := Error)]
      ensures loaded == if staged.Ok? && HasEntryPoint(old(registry.plugins)[pluginId])
                        then old(loaded)[pluginId := load.instance] else old(loaded)
    {
      var p := registry.plugins[pluginId];
      staged := LoadPlugin(registry, pluginId, load);
      if staged.Err? {
        Overwrite(registry, p.(status := Error));
      }
    }

    /**
     * `activate_plugin`: an unknown plugin gives false and an Active one true,
     * both untouched. Otherwise a plugin not yet Loaded is loaded first; a
     * failed load or a raising `activate` hook marks it Error and gives false,
     * and success makes it Active and enabled.
     */
    method ActivatePlugin(registry: Registry, pluginId: string, load: ModuleLoad, hookFails: bool)
      returns (ok: bool)
      requires registry.Valid()
      modifies this, registry
      ensures registry.Valid()
      ensures registry.order == old(registry.order) && registry.byCapability == old(registry.byCapability)
      ensures registry.byTag == old(registry.byTag)
      ensures pluginId !in old(registry.plugins) ==> !ok && unchanged(this) && unchanged(registry)
      ensures pluginId in old(registry.plugins) && old(registry.plugins)[pluginId].status == Active ==>
        ok && unchanged(this) && unchanged(registry)
      ensures pluginId in old(registry.plugins) && old(registry.plugins)[pluginId].status != Active ==>
        var staged := Staged(old(registry.plugins), pluginId, load);
        && ok == Activates(staged, hookFails)
        && registry.plugins ==
             old(registry.plugins)[pluginId := Activated(old(registry.plugins)[pluginId], staged, hookFails)]
        && loaded == if old(registry.plugins)[pluginId].status != Loaded && staged.Ok?
                        && HasEntryPoint(old(registry.plugins)[pluginId])
                     then old(loaded)[pluginId := load.instance] else old(loaded)
    {
      var found := registry.Get(pluginId);
      if found.None? {
        return false;
      }
      var p := found.value;
      if p.status == Active {
        return true;
      }
      ghost var before := registry.plugins;
      var staged := Ok(p);
      if p.status != Loaded {
        staged := Stage(registry, pluginId, load);
        if staged.Err? {
          return false;
        }
      }
      assert staged == Staged(before, pluginId, load);
      ghost var mid := registry.plugins;
      ok := ApplyActivation(registry, staged.value, hookFails);
      UpdateTwice(before, pluginId, mid[pluginId], registry.plugins[pluginId]);
    }

    /**
     * `deactivate_plugin`: an unknown plugin gives false; a raising
     * `deactivate` hook marks it Error and gives false; otherwise it becomes
     * Inactive and disabled.
     */
    method DeactivatePlugin(registry: Registry, pluginId: string, hookFails: bool) returns (ok: bool)
      requires registry.Valid()
      modifies registry
      ensures registry.Valid()
      ensures registry.order == old(registry.order) && registry.byCapability == old(registry.byCapability)
      ensures registry.byTag == old(registry.byTag)
      ensures pluginId !in old(registry.plugins) ==> !ok && unchanged(registry)
      ensures pluginId in old(registry.plugins) ==>
        var p := old(registry.plugins)[pluginId];
        && ok == !DeactivateRaises(p, hookFails)
        && registry.plugins == old(registry.plugins)[pluginId :=
             if ok then p.(status := Inactive, enabled := false) else p.(status := Error)]
    {
      var found := registry.Get(pluginId);
      if found.None? {
        return false;
      }
      var p := found.value;
      if DeactivateRaises(p, hookFails) {
        Overwrite(registry, p.(status := Error));
        return false;
      }
      Overwrite(registry, p.(status := Inactive, enabled := false));
      return true;
    }

    /**
     * `execute_capability` up to the call into the plugin: the plugin whose
     * `execute` method runs, or the error raised instead.
     */
    method ExecuteCapability(registry: Registry, capability: Capability, pluginId: Option<string>)
      returns (r: Result<Plugin>)
      ensures r == Executor(registry.plugins,
                            ActiveWith(registry.order, registry.byCapability, registry.byTag, registry.plugins,
                                       capability),
                            capability, pluginId)
    {
      var chosen := Choose(registry, capability, pluginId);
      if chosen.Err? {
        return Err(chosen.error);
      }
      var p := chosen.value;
      if p.instance.Instance? && p.instance.hasExecute {
        return Ok(p);
      }
      return Err(NoExecuteMethod(p.pluginId));
    }

    /** The plugin `execute_capability` picks: the named one, else the first active candidate. */
    method Choose(registry: Registry, capability: Capability, pluginId: Option<string>) returns (chosen: Result<Plugin>)
      ensures chosen == Chosen(registry.plugins,
                               ActiveWith(registry.order, registry.byCapability, registry.byTag, registry.plugins,
                                          capability),
                               capability, pluginId)
    {
      if pluginId.Some? && pluginId.value != "" {
        var found := registry.Get(pluginId.value);
        if found.None? || capability !in found.value.capabilities {
          chosen := Err("Plugin " + pluginId.value + " does not support capability " + CapabilityName(capability));
        } else {
          chosen := Ok(found.value);
        }
      } else {
        var candidates := registry.List(Some(capability), Some(Active), Some(true), []);
        if candidates == [] {
          chosen := Err("No active plugin found for capability " + CapabilityName(capability));
        } else {
          chosen := Ok(candidates[0]);
        }
      }
    }
  }
}
