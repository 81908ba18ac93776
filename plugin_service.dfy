// Declarative import of plugins: new plugins are registered, existing ones
// are re-registered or skipped, and a status other than Registered is
// applied after registration.
module PluginService {
  import opened Wrappers
  import opened PluginRegistry
  import opened Declarative
  import opened Merging

  /**
   * The record the registry holds after an import of `p`: registration resets
   * both timestamps and drops any error message (registration takes none),
   * and the incoming status is then reapplied.
   */
  function Stored(p: PluginMetadata, now: int): (s: PluginMetadata)
    ensures s.pluginId == p.pluginId && s.status == p.status && s.tags == p.tags && s.entryPoint == p.entryPoint
    ensures s.createdAt == now && s.updatedAt == now && s.errorMessage == None
  {
    p.(createdAt := now, updatedAt := now, errorMessage := None)
  }

  /** Registers `p` under its own fields, then applies its status unless it is the default. */
  method Install(reg: Registry, p: PluginMetadata, now: int)
    requires reg.Valid() && p.pluginId !in reg.plugins
    modifies reg
    ensures reg.Valid()
    ensures reg.plugins == old(reg.plugins)[p.pluginId := Stored(p, now)]
  {
    var r := reg.Register(p.pluginId, p.name, p.version, p.description, p.author, p.entryPoint,
                          p.dependencies, p.tags, p.pluginPath, now);
    if p.status != Registered {
      ghost var mid := reg.plugins;
      var _ := reg.UpdateStatus(p.pluginId, p.status, None, now);
      StatusReapplied(old(reg.plugins), mid, reg.plugins, p, now);
    }
  }

  lemma StatusReapplied(before: map<string, PluginMetadata>, mid: map<string, PluginMetadata>,
                        after: map<string, PluginMetadata>, p: PluginMetadata, now: int)
    requires mid == before[p.pluginId := Stored(p, now).(status := Registered)]
    requires after == mid[p.pluginId := StatusSet(mid[p.pluginId], p.status, None, now)]
    ensures after == before[p.pluginId := Stored(p, now)]
  {
  }

  /** How an imported plugin is stored, for a clock reading `now`. */
  function StoreAt(now: int): (map<string, PluginMetadata>, PluginMetadata) -> PluginMetadata
  {
    (m: map<string, PluginMetadata>, p: PluginMetadata) => Stored(p, now)
  }

  function PluginId(p: PluginMetadata): string
  {
    p.pluginId
  }

  /** One iteration of `_import_items`; registration cannot fail, so no item is ever filed as an error. */
  method ImportItem(reg: Registry, p: PluginMetadata, updateExisting: bool, now: int) returns (o: Outcome)
    requires reg.Valid()
    modifies reg
    ensures reg.Valid()
    ensures o == OutcomeOf(old(reg.plugins), p.pluginId, updateExisting)
    ensures reg.plugins == Merge(old(reg.plugins), p.pluginId, Stored(p, now), updateExisting)
    ensures o == Skipped ==> unchanged(reg)
  {
    var existing := reg.Get(p.pluginId);
    if existing.Some? {
      if updateExisting {
        var _ := reg.Unregister(p.pluginId);
        Install(reg, p, now);
        RemoveThenPut(old(reg.plugins), p.pluginId, Stored(p, now));
        return Updated;
      }
      return Skipped;
    }
    Install(reg, p, now);
    return Imported;
  }

  /**
   * `_import_items`: the registry ends as the item-by-item merge of the
   * batch and the result is its summary (the lemmas of `Merging` say what
   * those guarantee).
   */
  method ImportItems(reg: Registry, items: seq<PluginMetadata>, updateExisting: bool, now: int)
    returns (res: ImportResult)
    requires reg.Valid()
    modifies reg
    ensures reg.Valid()
    ensures reg.plugins == MergeAll(old(reg.plugins), items, PluginId, StoreAt(now), updateExisting)
    ensures res == Summary(old(reg.plugins), items, PluginId, StoreAt(now), updateExisting)
  {
    ghost var start := reg.plugins;
    res := ImportResult([], [], [], [], 0);
    var i := 0;
    while i < |items|
      invariant 0 <= i <= |items|
      invariant reg.Valid()
      invariant reg.plugins == MergeAll(start, items[..i], PluginId, StoreAt(now), updateExisting)
      invariant res == Summary(start, items[..i], PluginId, StoreAt(now), updateExisting)
    {
      res := ImportNext(reg, start, items, i, res, updateExisting, now);
      i := i + 1;
    }
    Seqs.FullPrefix(items);
  }

  /** One pass of the import loop: item `i` is merged into the registry and recorded in the summary. */
  method ImportNext(reg: Registry, ghost start: map<string, PluginMetadata>, items: seq<PluginMetadata>, i: nat,
                    res: ImportResult, updateExisting: bool, now: int) returns (next: ImportResult)
    requires i < |items| && reg.Valid()
    requires reg.plugins == MergeAll(start, items[..i], PluginId, StoreAt(now), updateExisting)
    requires res == Summary(start, items[..i], PluginId, StoreAt(now), updateExisting)
    modifies reg
    ensures reg.Valid()
    ensures reg.plugins == MergeAll(start, items[..i + 1], PluginId, StoreAt(now), updateExisting)
    ensures next == Summary(start, items[..i + 1], PluginId, StoreAt(now), updateExisting)
  {
    var p := items[i];
    MergeStep(start, items, PluginId, StoreAt(now), updateExisting, i);
    assert StoreAt(now)(reg.plugins, p) == Stored(p, now);
    var o := ImportItem(reg, p, updateExisting, now);
    next := Record(res, p.pluginId, o).(total := i + 1);
  }
}
