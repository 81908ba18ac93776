// The business plugin registry: plugins keyed by id, with a capability index
// and a tag index.
module BusinessRegistry {
  import opened Wrappers
  import opened Seqs
  import opened Index
  import opened Listing
  import opened BusinessModel
  import Text

  ghost function CapabilityKeys(plugins: map<string, Plugin>): map<string, seq<Capability>>
  {
    map id | id in plugins :: plugins[id].capabilities
  }

  ghost function TagKeys(plugins: map<string, Plugin>): map<string, seq<string>>
  {
    map id | id in plugins :: plugins[id].tags
  }

  /**
   * `order` lists each plugin once, and each id sits in a capability's or a
   * tag's bucket once per occurrence of that capability or tag.
   */
  ghost predicate Consistent(plugins: map<string, Plugin>, order: seq<string>,
                             byCapability: map<Capability, seq<string>>, byTag: map<string, seq<string>>)
  {
    && Ordered(order, plugins)
    && (forall id :: id in plugins ==> plugins[id].pluginId == id)
    && Indexed(byCapability, CapabilityKeys(plugins))
    && Indexed(byTag, TagKeys(plugins))
  }

  lemma KeysAfterPut(plugins: map<string, Plugin>, p: Plugin)
    ensures CapabilityKeys(plugins)[p.pluginId := p.capabilities] == CapabilityKeys(plugins[p.pluginId := p])
    ensures TagKeys(plugins)[p.pluginId := p.tags] == TagKeys(plugins[p.pluginId := p])
  {
  }

  lemma KeysAfterRemove(plugins: map<string, Plugin>, id: string)
    ensures CapabilityKeys(plugins) - {id} == CapabilityKeys(plugins - {id})
    ensures TagKeys(plugins) - {id} == TagKeys(plugins - {id})
  {
  }

  lemma RegisterConsistent(plugins: map<string, Plugin>, order: seq<string>,
                           byCapability: map<Capability, seq<string>>, byTag: map<string, seq<string>>, p: Plugin)
    requires Consistent(plugins, order, byCapability, byTag) && p.pluginId !in plugins
    ensures Consistent(plugins[p.pluginId := p], order + [p.pluginId],
                       AddAll(byCapability, p.capabilities, p.pluginId), AddAll(byTag, p.tags, p.pluginId))
  {
    IndexedAddAll(byCapability, CapabilityKeys(plugins), p.pluginId, p.capabilities);
    IndexedAddAll(byTag, TagKeys(plugins), p.pluginId, p.tags);
    KeysAfterPut(plugins, p);
    OrderedAppend(order, plugins, p.pluginId, p);
  }

  lemma UnregisterConsistent(plugins: map<string, Plugin>, order: seq<string>,
                             byCapability: map<Capability, seq<string>>, byTag: map<string, seq<string>>, id: string)
    requires Consistent(plugins, order, byCapability, byTag) && id in plugins
    ensures Consistent(plugins - {id}, RemoveFirst(order, id), RemoveAll(byCapability, plugins[id].capabilities, id),
                       RemoveAll(byTag, plugins[id].tags, id))
  {
    IndexedRemoveAll(byCapability, CapabilityKeys(plugins), id);
    IndexedRemoveAll(byTag, TagKeys(plugins), id);
    KeysAfterRemove(plugins, id);
    OrderedRemove(order, plugins, id);
  }

  /** A change to a plugin that keeps its id, capabilities and tags keeps the registry consistent. */
  lemma ReplaceConsistent(plugins: map<string, Plugin>, order: seq<string>,
                          byCapability: map<Capability, seq<string>>, byTag: map<string, seq<string>>,
                          id: string, p: Plugin)
    requires Consistent(plugins, order, byCapability, byTag) && id in plugins
    requires p.pluginId == id && p.capabilities == plugins[id].capabilities && p.tags == plugins[id].tags
    ensures Consistent(plugins[id := p], order, byCapability, byTag)
  {
    assert CapabilityKeys(plugins[id := p]) == CapabilityKeys(plugins);
    assert TagKeys(plugins[id := p]) == TagKeys(plugins);
    assert forall x :: x in plugins[id := p] <==> x in plugins;
  }

  /** The ids `list` walks: a capability's bucket, else the union of the tags' buckets, else every plugin. */
  function Candidates(order: seq<string>, byCapability: map<Capability, seq<string>>,
                      byTag: map<string, seq<string>>, capability: Option<Capability>, tags: seq<string>)
    : seq<string>
  {
    if capability.Some? then Bucket(byCapability, capability.value)
    else if tags != [] then Union(byTag, tags)
    else order
  }

  /** The filters `list` applies to each candidate; an absent filter lets everything through. */
  predicate Keep(p: Plugin, status: Option<PluginStatus>, enabled: Option<bool>)
  {
    && (status.Some? ==> p.status == status.value)
    && (enabled.Some? ==> p.enabled == enabled.value)
  }

  function KeepFor(status: Option<PluginStatus>, enabled: Option<bool>): Plugin -> bool
  {
    (p: Plugin) => Keep(p, status, enabled)
  }

  /** What the candidate ids select, stated on the plugin itself. */
  predicate Selected(p: Plugin, capability: Option<Capability>, tags: seq<string>)
  {
    if capability.Some? then capability.value in p.capabilities
    else tags != [] ==> HasCommon(tags, p.tags)
  }

  /** On a consistent registry, an id is a candidate exactly when its plugin is selected. */
  lemma CandidatesExact(plugins: map<string, Plugin>, order: seq<string>,
                        byCapability: map<Capability, seq<string>>, byTag: map<string, seq<string>>,
                        capability: Option<Capability>, tags: seq<string>, id: string)
    requires Consistent(plugins, order, byCapability, byTag)
    ensures id in Candidates(order, byCapability, byTag, capability, tags) <==>
            id in plugins && Selected(plugins[id], capability, tags)
  {
    if capability.Some? {
      var c := capability.value;
      if id in Bucket(byCapability, c) {
        IndexedOnly(byCapability, CapabilityKeys(plugins), id, c);
      }
      if id in plugins && c in plugins[id].capabilities {
        IndexedFind(byCapability, CapabilityKeys(plugins), id, c);
      }
    } else if tags != [] {
      UnionMembers(byTag, tags, id);
      if id in Union(byTag, tags) {
        var i :| 0 <= i < |tags| && id in Bucket(byTag, tags[i]);
        IndexedOnly(byTag, TagKeys(plugins), id, tags[i]);
      }
      if id in plugins && HasCommon(tags, plugins[id].tags) {
        var i :| 0 <= i < |tags| && tags[i] in plugins[id].tags;
        IndexedFind(byTag, TagKeys(plugins), id, tags[i]);
      }
    }
  }

  /**
   * `list` returns exactly the registered plugins its candidate ids select
   * that pass the status and enabled filters.
   */
  lemma ListExact(plugins: map<string, Plugin>, order: seq<string>,
                  byCapability: map<Capability, seq<string>>, byTag: map<string, seq<string>>,
                  capability: Option<Capability>, status: Option<PluginStatus>, enabled: Option<bool>,
                  tags: seq<string>, p: Plugin)
    requires Consistent(plugins, order, byCapability, byTag)
    ensures p in Pick(plugins, Candidates(order, byCapability, byTag, capability, tags), KeepFor(status, enabled))
            <==> p in plugins.Values && Selected(p, capability, tags) && Keep(p, status, enabled)
  {
    var ids := Candidates(order, byCapability, byTag, capability, tags);
    if p in Pick(plugins, ids, KeepFor(status, enabled)) {
      PickFrom(plugins, ids, KeepFor(status, enabled), p);
      var i :| 0 <= i < |ids| && ids[i] in plugins && plugins[ids[i]] == p;
      CandidatesExact(plugins, order, byCapability, byTag, capability, tags, ids[i]);
    }
    if p in plugins.Values && Selected(p, capability, tags) && Keep(p, status, enabled) {
      var id :| id in plugins && plugins[id] == p;
      CandidatesExact(plugins, order, byCapability, byTag, capability, tags, id);
      PickComplete(plugins, ids, KeepFor(status, enabled), id);
    }
  }

  /** The search test: the lower-cased query is a substring of the name, the description or a tag. */
  predicate Matches(p: Plugin, query: string)
  {
    Text.QueryMatches(p.name, p.description, p.tags, query)
  }

  function MatchFor(query: string): Plugin -> bool
  {
    (p: Plugin) => Matches(p, query)
  }

  /** `search` returns exactly the registered plugins that match the query. */
  lemma SearchExact(plugins: map<string, Plugin>, order: seq<string>,
                    byCapability: map<Capability, seq<string>>, byTag: map<string, seq<string>>,
                    query: string, p: Plugin)
    requires Consistent(plugins, order, byCapability, byTag)
    ensures p in Pick(plugins, order, MatchFor(query)) <==> p in plugins.Values && Matches(p, query)
  {
    if p in plugins.Values && Matches(p, query) {
      var id :| id in plugins && plugins[id] == p;
      PickComplete(plugins, order, MatchFor(query), id);
    }
  }

  class Registry {
    var plugins: map<string, Plugin>
    var order: seq<string>
    var byCapability: map<Capability, seq<string>>
    var byTag: map<string, seq<string>>

    ghost predicate Valid()
      reads this
    {
      Consistent(plugins, order, byCapability, byTag)
    }

    constructor ()
      ensures Valid() && plugins == map[]
    {
      plugins, order, byCapability, byTag := map[], [], map[], map[];
    }

    /** `register`: files the plugin under each capability and each tag; a known id is refused. */
    method Register(p: Plugin) returns (r: Result<Plugin>)
      requires Valid()
      modifies this
      ensures Valid()
      ensures old(p.pluginId in plugins) ==> r == Err("Plugin " + p.pluginId + " already registered") && unchanged(this)
      ensures !old(p.pluginId in plugins) ==>
        && r == Ok(p)
        && plugins == old(plugins)[p.pluginId := p]
        && order == old(order) + [p.pluginId]
        && byCapability == AddAll(old(byCapability), p.capabilities, p.pluginId)
        && byTag == AddAll(old(byTag), p.tags, p.pluginId)
    {
      if p.pluginId in plugins {
        return Err("Plugin " + p.pluginId + " already registered");
      }
      RegisterConsistent(plugins, order, byCapability, byTag, p);
      var bc := AddToBuckets(byCapability, p.capabilities, p.pluginId);
      var bt := AddToBuckets(byTag, p.tags, p.pluginId);
      plugins, order, byCapability, byTag := plugins[p.pluginId := p], order + [p.pluginId], bc, bt;
      r := Ok(p);
    }

    function Get(pluginId: string): (r: Option<Plugin>)
      reads this
      ensures r.Some? <==> pluginId in plugins
      ensures r.Some? ==> r.value == plugins[pluginId]
    {
      if pluginId in plugins then Some(plugins[pluginId]) else None
    }

    /**
     * `list`: the candidate ids' plugins, in candidate order, that pass the
     * status and enabled filters.
     */
    method List(capability: Option<Capability>, status: Option<PluginStatus>, enabled: Option<bool>,
                tags: seq<string>)
      returns (result: seq<Plugin>)
      ensures result == Pick(plugins, Candidates(order, byCapability, byTag, capability, tags),
                             KeepFor(status, enabled))
    {
      var ids: seq<string>;
      if capability.Some? {
        ids := Bucket(byCapability, capability.value);
      } else if tags != [] {
        ids := UnionOf(byTag, tags);
      } else {
        ids := order;
      }
      result := Collect(plugins, ids, KeepFor(status, enabled));
    }

    /** `unregister`: drops a plugin and takes it out of its buckets; an unknown id gives false. */
    method Unregister(pluginId: string) returns (removed: bool)
      requires Valid()
      modifies this
      ensures Valid()
      ensures removed == (pluginId in old(plugins))
      ensures !removed ==> unchanged(this)
      ensures removed ==>
        && plugins == old(plugins) - {pluginId}
        && order == RemoveFirst(old(order), pluginId)
        && byCapability == RemoveAll(old(byCapability), old(plugins)[pluginId].capabilities, pluginId)
        && byTag == RemoveAll(old(byTag), old(plugins)[pluginId].tags, pluginId)
    {
      if pluginId !in plugins {
        return false;
      }
      UnregisterConsistent(plugins, order, byCapability, byTag, pluginId);
      var bc := RemoveFromBuckets(byCapability, plugins[pluginId].capabilities, pluginId);
      var bt := RemoveFromBuckets(byTag, plugins[pluginId].tags, pluginId);
      plugins, order, byCapability, byTag := plugins - {pluginId}, RemoveFirst(order, pluginId), bc, bt;
      return true;
    }

    /** `update_status`: sets the status and the update time; an unknown id gives false. */
    method UpdateStatus(pluginId: string, status: PluginStatus, now: int) returns (updated: bool)
      requires Valid()
      modifies this
      ensures Valid()
      ensures updated == (pluginId in old(plugins))
      ensures !updated ==> unchanged(this)
      ensures updated ==>
        && plugins == old(plugins)[pluginId := old(plugins)[pluginId].(status := status, updatedAt := now)]
        && order == old(order) && byCapability == old(byCapability) && byTag == old(byTag)
    {
      if pluginId !in plugins {
        return false;
      }
      var p := plugins[pluginId].(status := status, updatedAt := now);
      ReplaceConsistent(plugins, order, byCapability, byTag, pluginId, p);
      plugins := plugins[pluginId := p];
      return true;
    }

    /** `search`: the registered plugins, in registration order, that match the query. */
    method Search(query: string) returns (result: seq<Plugin>)
      ensures result == Pick(plugins, order, MatchFor(query))
    {
      result := Collect(plugins, order, MatchFor(query));
    }
  }
}
