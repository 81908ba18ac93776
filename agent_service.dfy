// Declarative import of agents: new agents are registered, existing ones
// are re-registered or skipped, and a status other than Registered is
// applied after registration.
module AgentService {
  import opened Wrappers
  import opened AgentRegistry
  import opened Declarative
  import opened Merging

  /**
   * The record the registry holds after an import of `a`: registration resets
   * both timestamps to the import time and the incoming status is then
   * reapplied (re-setting `updatedAt` to the same instant).
   */
  function Stored(a: AgentMetadata, now: int): (s: AgentMetadata)
    ensures s.id == a.id && s.status == a.status && s.tags == a.tags && s.agentType == a.agentType
    ensures s.createdAt == now && s.updatedAt == now
  {
    a.(createdAt := now, updatedAt := now)
  }

  /** Registers `a` under its own fields, then applies its status unless it is the default. */
  method Install(reg: Registry, a: AgentMetadata, now: int)
    requires reg.Valid() && a.id !in reg.agents
    modifies reg
    ensures reg.Valid()
    ensures reg.agents == old(reg.agents)[a.id := Stored(a, now)]
  {
    var r := reg.Register(a.id, a.name, a.description, a.version, a.agentType, a.author, a.category,
                          a.tags, a.capabilities, now);
    if a.status != Registered {
      ghost var mid := reg.agents;
      var _ := reg.UpdateStatus(a.id, a.status, now);
      StatusReapplied(old(reg.agents), mid, reg.agents, a, now);
    }
  }

  lemma StatusReapplied(before: map<string, AgentMetadata>, mid: map<string, AgentMetadata>,
                        after: map<string, AgentMetadata>, a: AgentMetadata, now: int)
    requires mid == before[a.id := Stored(a, now).(status := Registered)]
    requires after == mid[a.id := mid[a.id].(status := a.status, updatedAt := now)]
    ensures after == before[a.id := Stored(a, now)]
  {
  }

  /** How an imported agent is stored, for a clock reading `now`. */
  function StoreAt(now: int): (map<string, AgentMetadata>, AgentMetadata) -> AgentMetadata
  {
    (m: map<string, AgentMetadata>, a: AgentMetadata) => Stored(a, now)
  }

  function AgentId(a: AgentMetadata): string
  {
    a.id
  }

  /** One iteration of `_import_items`. */
  method ImportItem(reg: Registry, a: AgentMetadata, updateExisting: bool, now: int) returns (o: Outcome)
    requires reg.Valid()
    modifies reg
    ensures reg.Valid()
    ensures o == OutcomeOf(old(reg.agents), a.id, updateExisting)
    ensures reg.agents == Merge(old(reg.agents), a.id, Stored(a, now), updateExisting)
    ensures o == Skipped ==> unchanged(reg)
  {
    var existing := reg.Get(a.id);
    if existing.Some? {
      if updateExisting {
        var _ := reg.Unregister(a.id);
        Install(reg, a, now);
        RemoveThenPut(old(reg.agents), a.id, Stored(a, now));
        return Updated;
      }
      return Skipped;
    }
    Install(reg, a, now);
    return Imported;
  }

  /**
   * `_import_items`: the registry ends as the item-by-item merge of the
   * batch and the result is its summary (the lemmas of `Merging` say what
   * those guarantee).
   */
  method ImportItems(reg: Registry, items: seq<AgentMetadata>, updateExisting: bool, now: int)
    returns (res: ImportResult)
    requires reg.Valid()
    modifies reg
    ensures reg.Valid()
    ensures reg.agents == MergeAll(old(reg.agents), items, AgentId, StoreAt(now), updateExisting)
    ensures res == Summary(old(reg.agents), items, AgentId, StoreAt(now), updateExisting)
  {
    ghost var start := reg.agents;
    res := ImportResult([], [], [], [], 0);
    var i := 0;
    while i < |items|
      invariant 0 <= i <= |items|
      invariant reg.Valid()
      invariant reg.agents == MergeAll(start, items[..i], AgentId, StoreAt(now), updateExisting)
      invariant res == Summary(start, items[..i], AgentId, StoreAt(now), updateExisting)
    {
      res := ImportNext(reg, start, items, i, res, updateExisting, now);
      i := i + 1;
    }
    Seqs.FullPrefix(items);
  }

  /** One pass of the import loop: item `i` is merged into the registry and recorded in the summary. */
  method ImportNext(reg: Registry, ghost start: map<string, AgentMetadata>, items: seq<AgentMetadata>, i: nat,
                    res: ImportResult, updateExisting: bool, now: int) returns (next: ImportResult)
    requires i < |items| && reg.Valid()
    requires reg.agents == MergeAll(start, items[..i], AgentId, StoreAt(now), updateExisting)
    requires res == Summary(start, items[..i], AgentId, StoreAt(now), updateExisting)
    modifies reg
    ensures reg.Valid()
    ensures reg.agents == MergeAll(start, items[..i + 1], AgentId, StoreAt(now), updateExisting)
    ensures next == Summary(start, items[..i + 1], AgentId, StoreAt(now), updateExisting)
  {
    var a := items[i];
    MergeStep(start, items, AgentId, StoreAt(now), updateExisting, i);
    assert StoreAt(now)(reg.agents, a) == Stored(a, now);
    var o := ImportItem(reg, a, updateExisting, now);
    next := Record(res, a.id, o).(total := i + 1);
  }
}
