// The plugin registry: plugin metadata keyed by plugin id, with a tag index.
module PluginRegistry {
  import opened Wrappers
  import opened Seqs
  import opened Index
  import opened Listing

  datatype PluginStatus = Registered | Loaded | Active | Inactive | Error | Deprecated

  /** Plugin metadata; the config schema is not modelled and timestamps come from the caller's clock. */
  datatype PluginMetadata = PluginMetadata(
    pluginId: string,
    name: string,
    version: string,
    description: string,
    author: string,
    entryPoint: string,
    dependencies: seq<string>,
    tags: seq<string>,
    status: PluginStatus,
    pluginPath: Option<string>,
    createdAt: int,
    updatedAt: int,
    errorMessage: Option<string>)

  ghost function TagKeys(plugins: map<string, PluginMetadata>): map<string, seq<string>>
  {
    map id | id in plugins :: plugins[id].tags
  }

  /** `order` lists each plugin once, and each id sits in a tag's bucket once per occurrence of the tag. */
  ghost predicate Consistent(plugins: map<string, PluginMetadata>, order: seq<string>, byTag: map<string, seq<string>>)
  {
    && Ordered(order, plugins)
    && (forall id :: id in plugins ==> plugins[id].pluginId == id)
    && Indexed(byTag, TagKeys(plugins))
  }

  lemma RegisterConsistent(plugins: map<string, PluginMetadata>, order: seq<string>, byTag: map<string, seq<string>>,
                           p: PluginMetadata)
    requires Consistent(plugins, order, byTag) && p.pluginId !in plugins
    ensures Consistent(plugins[p.pluginId := p], order + [p.pluginId], AddAll(byTag, p.tags, p.pluginId))
  {
    IndexedAddAll(byTag, TagKeys(plugins), p.pluginId, p.tags);
    assert TagKeys(plugins)[p.pluginId := p.tags] == TagKeys(plugins[p.pluginId := p]);
    OrderedAppend(order, plugins, p.pluginId, p);
  }

  lemma UnregisterConsistent(plugins: map<string, PluginMetadata>, order: seq<string>, byTag: map<string, seq<string>>,
                             id: string)
    requires Consistent(plugins, order, byTag) && id in plugins
    ensures Consistent(plugins - {id}, RemoveFirst(order, id), RemoveAll(byTag, plugins[id].tags, id))
  {
    IndexedRemoveAll(byTag, TagKeys(plugins), id);
    assert TagKeys(plugins) - {id} == TagKeys(plugins - {id});
    OrderedRemove(order, plugins, id);
  }

  /** A change that keeps a plugin's id and tags keeps the registry consistent. */
  lemma ReplaceConsistent(plugins: map<string, PluginMetadata>, order: seq<string>, byTag: map<string, seq<string>>,
                          id: string, p: PluginMetadata)
    requires Consistent(plugins, order, byTag) && id in plugins
    requires p.pluginId == id && p.tags == plugins[id].tags
    ensures Consistent(plugins[id := p], order, byTag)
  {
    assert TagKeys(plugins[id := p]) == TagKeys(plugins);
    assert forall x :: x in plugins[id := p] <==> x in plugins;
  }

  /** On a consistent registry, a tag's bucket holds exactly the plugins carrying that tag. */
  lemma TagBucketExact(plugins: map<string, PluginMetadata>, order: seq<string>, byTag: map<string, seq<string>>,
                       tag: string, id: string)
    requires Consistent(plugins, order, byTag)
    ensures id in Bucket(byTag, tag) <==> id in plugins && tag in plugins[id].tags
  {
    if id in Bucket(byTag, tag) {
      IndexedOnly(byTag, TagKeys(plugins), id, tag);
    }
    if id in plugins && tag in plugins[id].tags {
      IndexedFind(byTag, TagKeys(plugins), id, tag);
    }
  }

  /** The filters of `list`: an absent status or an empty tag list does not filter. */
  predicate Keep(p: PluginMetadata, status: Option<PluginStatus>, tags: seq<string>)
  {
    && (status.Some? ==> p.status == status.value)
    && (tags != [] ==> HasCommon(tags, p.tags))
  }

  function KeepFor(status: Option<PluginStatus>, tags: seq<string>): PluginMetadata -> bool
  {
    (p: PluginMetadata) => Keep(p, status, tags)
  }

  /** `list` returns exactly the registered plugins that pass its filters. */
  lemma ListExact(plugins: map<string, PluginMetadata>, order: seq<string>, byTag: map<string, seq<string>>,
                  status: Option<PluginStatus>, tags: seq<string>, p: PluginMetadata)
    requires Consistent(plugins, order, byTag)
    ensures p in Pick(plugins, order, KeepFor(status, tags)) <==> p in plugins.Values && Keep(p, status, tags)
  {
    if p in plugins.Values && Keep(p, status, tags) {
      var id :| id in plugins && plugins[id] == p;
      PickComplete(plugins, order, KeepFor(status, tags), id);
    }
  }

  class Registry {
    var plugins: map<string, PluginMetadata>
    var order: seq<string>
    var byTag: map<string, seq<string>>

    ghost predicate Valid()
      reads this
    {
      Consistent(plugins, order, byTag)
    }

    constructor ()
      ensures Valid() && plugins == map[]
    {
      plugins, order, byTag := map[], [], map[];
    }

    /** `register`: a new plugin starts Registered and is filed under each of its tags; a known id is refused. */
    method Register(pluginId: string, name: string, version: string, description: string, author: string,
                    entryPoint: string, dependencies: seq<string>, tags: seq<string>, pluginPath: Option<string>,
                    now: int)
      returns (r: Result<PluginMetadata>)
      requires Valid()
      modifies this
      ensures Valid()
      ensures old(pluginId in plugins) ==> r == Err("Plugin " + pluginId + " already registered") && unchanged(this)
      ensures !old(pluginId in plugins) ==>
        && r == Ok(PluginMetadata(pluginId, name, version, description, author, entryPoint, dependencies, tags,
                                  Registered, pluginPath, now, now, None))
        && plugins == old(plugins)[pluginId := r.value]
        && order == old(order) + [pluginId]
        && byTag == AddAll(old(byTag), tags, pluginId)
    {
      if pluginId in plugins {
        return Err("Plugin " + pluginId + " already registered");
      }
      var p := PluginMetadata(pluginId, name, version, description, author, entryPoint, dependencies, tags,
                              Registered, pluginPath, now, now, None);
      RegisterConsistent(plugins, order, byTag, p);
      var b := AddToBuckets(byTag, tags, pluginId);
      plugins, order, byTag := plugins[pluginId := p], order + [pluginId], b;
      r := Ok(p);
    }

    function Get(pluginId: string): (r: Option<PluginMetadata>)
      reads this
      ensures r.Some? <==> pluginId in plugins
      ensures r.Some? ==> r.value == plugins[pluginId]
    {
      if pluginId in plugins then Some(plugins[pluginId]) else None
    }

    /** `list`: every registered plugin, in registration order, that passes the status and tag filters. */
    method List(status: Option<PluginStatus>, tags: seq<string>) returns (result: seq<PluginMetadata>)
      ensures result == Pick(plugins, order, KeepFor(status, tags))
    {
      result := Collect(plugins, order, KeepFor(status, tags));
    }

    /** `unregister`: drops a plugin and takes it out of each of its tags' buckets; an unknown id gives false. */
    method Unregister(pluginId: string) returns (removed: bool)
      requires Valid()
      modifies this
      ensures Valid()
      ensures removed == (pluginId in old(plugins))
      ensures !removed ==> unchanged(this)
      ensures removed ==>
        && plugins == old(plugins) - {pluginId}
        && order == RemoveFirst(old(order), pluginId)
        && byTag == RemoveAll(old(byTag), old(plugins)[pluginId].tags, pluginId)
    {
      if pluginId !in plugins {
        return false;
      }
      UnregisterConsistent(plugins, order, byTag, pluginId);
      var b := RemoveFromBuckets(byTag, plugins[pluginId].tags, pluginId);
      plugins, order, byTag := plugins - {pluginId}, RemoveFirst(order, pluginId), b;
      return true;
    }

    /**
     * `update_status`: sets the status and update time, and the error message
     * only when a non-empty one is given; an unknown id gives false.
     */
    method UpdateStatus(pluginId: string, status: PluginStatus, errorMessage: Option<string>, now: int)
      returns (updated: bool)
      requires Valid()
      modifies this
      ensures Valid()
      ensures updated == (pluginId in old(plugins))
      ensures !updated ==> unchanged(this)
      ensures updated ==>
        && plugins == old(plugins)[pluginId := StatusSet(old(plugins)[pluginId], status, errorMessage, now)]
        && order == old(order) && byTag == old(byTag)
    {
      if pluginId !in plugins {
        return false;
      }
      var p := StatusSet(plugins[pluginId], status, errorMessage, now);
      ReplaceConsistent(plugins, order, byTag, pluginId, p);
      plugins := plugins[pluginId := p];
      return true;
    }
  }

  /** The record after `update_status`. */
  function StatusSet(p: PluginMetadata, status: PluginStatus, errorMessage: Option<string>, now: int)
    : (r: PluginMetadata)
    ensures r.status == status && r.updatedAt == now
    ensures r.errorMessage == if errorMessage.Some? && errorMessage.value != "" then errorMessage else p.errorMessage
    ensures r.(status := p.status, updatedAt := p.updatedAt, errorMessage := p.errorMessage) == p
  {
    var q := p.(status := status, updatedAt := now);
    if errorMessage.Some? && errorMessage.value != "" then q.(errorMessage := errorMessage) else q
  }
}
