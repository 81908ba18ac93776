// The agent registry: agent metadata keyed by id, with a type index and a
// category index kept beside the primary map.
module AgentRegistry {
  import opened Wrappers
  import opened Seqs
  import Text
  import opened Index

  datatype AgentType = Analyst | Researcher | Trader | RiskManager | Manager | Custom
  datatype AgentStatus = Registered | Active | Inactive | Deprecated

  /** Agent metadata; timestamps are integers supplied by the caller's clock. */
  datatype AgentMetadata = AgentMetadata(
    id: string,
    name: string,
    description: string,
    version: string,
    agentType: AgentType,
    author: string,
    category: string,
    tags: seq<string>,
    capabilities: seq<string>,
    status: AgentStatus,
    createdAt: int,
    updatedAt: int)

  ghost function TypeKeys(agents: map<string, AgentMetadata>): map<string, seq<AgentType>>
  {
    map id | id in agents :: [agents[id].agentType]
  }

  ghost function CategoryKeys(agents: map<string, AgentMetadata>): map<string, seq<string>>
  {
    map id | id in agents :: [agents[id].category]
  }

  /**
   * `order` lists each agent id once, in registration order, and each id sits
   * exactly once in the bucket of its type and of its category.
   */
  ghost predicate Consistent(
    agents: map<string, AgentMetadata>, order: seq<string>,
    byType: map<AgentType, seq<string>>, byCategory: map<string, seq<string>>)
  {
    && Ordered(order, agents)
    && (forall id :: id in agents ==> agents[id].id == id)
    && Indexed(byType, TypeKeys(agents))
    && Indexed(byCategory, CategoryKeys(agents))
  }

  lemma KeysUpdate(agents: map<string, AgentMetadata>, id: string, a: AgentMetadata)
    ensures TypeKeys(agents[id := a]) == (TypeKeys(agents) - {id})[id := [a.agentType]]
    ensures CategoryKeys(agents[id := a]) == (CategoryKeys(agents) - {id})[id := [a.category]]
  {
    TypeKeysUpdate(agents, id, a);
    CategoryKeysUpdate(agents, id, a);
  }

  lemma TypeKeysUpdate(agents: map<string, AgentMetadata>, id: string, a: AgentMetadata)
    ensures TypeKeys(agents[id := a]) == (TypeKeys(agents) - {id})[id := [a.agentType]]
  {
  }

  lemma CategoryKeysUpdate(agents: map<string, AgentMetadata>, id: string, a: AgentMetadata)
    ensures CategoryKeys(agents[id := a]) == (CategoryKeys(agents) - {id})[id := [a.category]]
  {
  }

  lemma KeysPut(agents: map<string, AgentMetadata>, a: AgentMetadata)
    ensures TypeKeys(agents)[a.id := [a.agentType]] == TypeKeys(agents[a.id := a])
    ensures CategoryKeys(agents)[a.id := [a.category]] == CategoryKeys(agents[a.id := a])
  {
    TypeKeysPut(agents, a);
    CategoryKeysPut(agents, a);
  }

  lemma TypeKeysPut(agents: map<string, AgentMetadata>, a: AgentMetadata)
    ensures TypeKeys(agents)[a.id := [a.agentType]] == TypeKeys(agents[a.id := a])
  {
  }

  lemma CategoryKeysPut(agents: map<string, AgentMetadata>, a: AgentMetadata)
    ensures CategoryKeys(agents)[a.id := [a.category]] == CategoryKeys(agents[a.id := a])
  {
  }

  lemma KeysRemove(agents: map<string, AgentMetadata>, id: string)
    ensures TypeKeys(agents - {id}) == TypeKeys(agents) - {id}
    ensures CategoryKeys(agents - {id}) == CategoryKeys(agents) - {id}
  {
    TypeKeysRemove(agents, id);
    CategoryKeysRemove(agents, id);
  }

  lemma TypeKeysRemove(agents: map<string, AgentMetadata>, id: string)
    ensures TypeKeys(agents - {id}) == TypeKeys(agents) - {id}
  {
  }

  lemma CategoryKeysRemove(agents: map<string, AgentMetadata>, id: string)
    ensures CategoryKeys(agents - {id}) == CategoryKeys(agents) - {id}
  {
  }

  lemma TypeRegistered(agents: map<string, AgentMetadata>, byType: map<AgentType, seq<string>>, a: AgentMetadata)
    requires Indexed(byType, TypeKeys(agents)) && a.id !in agents
    ensures Indexed(Add(byType, a.agentType, a.id), TypeKeys(agents[a.id := a]))
  {
    IndexedAddAll(byType, TypeKeys(agents), a.id, [a.agentType]);
    AddAllOne(byType, a.agentType, a.id);
    KeysPut(agents, a);
  }

  lemma CategoryRegistered(agents: map<string, AgentMetadata>, byCategory: map<string, seq<string>>, a: AgentMetadata)
    requires Indexed(byCategory, CategoryKeys(agents)) && a.id !in agents
    ensures Indexed(Add(byCategory, a.category, a.id), CategoryKeys(agents[a.id := a]))
  {
    IndexedAddAll(byCategory, CategoryKeys(agents), a.id, [a.category]);
    AddAllOne(byCategory, a.category, a.id);
    KeysPut(agents, a);
  }

  lemma RegisterConsistent(
    agents: map<string, AgentMetadata>, order: seq<string>,
    byType: map<AgentType, seq<string>>, byCategory: map<string, seq<string>>, a: AgentMetadata)
    requires Consistent(agents, order, byType, byCategory) && a.id !in agents
    ensures Consistent(agents[a.id := a], order + [a.id], Add(byType, a.agentType, a.id), Add(byCategory, a.category, a.id))
  {
    TypeRegistered(agents, byType, a);
    CategoryRegistered(agents, byCategory, a);
    OrderedAppend(order, agents, a.id, a);
  }

  lemma UnregisterConsistent(
    agents: map<string, AgentMetadata>, order: seq<string>,
    byType: map<AgentType, seq<string>>, byCategory: map<string, seq<string>>, id: string)
    requires Consistent(agents, order, byType, byCategory) && id in agents
    ensures Consistent(agents - {id}, RemoveFirst(order, id),
      Remove(byType, agents[id].agentType, id), Remove(byCategory, agents[id].category, id))
  {
    IndexedRemoveAll(byType, TypeKeys(agents), id);
    RemoveAllOne(byType, agents[id].agentType, id);
    IndexedRemoveAll(byCategory, CategoryKeys(agents), id);
    RemoveAllOne(byCategory, agents[id].category, id);
    KeysRemove(agents, id);
    OrderedRemove(order, agents, id);
  }

  /** A status change touches no index. */
  lemma UpdateStatusConsistent(
    agents: map<string, AgentMetadata>, order: seq<string>,
    byType: map<AgentType, seq<string>>, byCategory: map<string, seq<string>>,
    id: string, status: AgentStatus, now: int)
    requires Consistent(agents, order, byType, byCategory) && id in agents
    ensures Consistent(agents[id := agents[id].(status := status, updatedAt := now)], order, byType, byCategory)
  {
    var agents' := agents[id := agents[id].(status := status, updatedAt := now)];
    assert TypeKeys(agents') == TypeKeys(agents);
    assert CategoryKeys(agents') == CategoryKeys(agents);
    assert Ordered(order, agents') by {
      assert forall x :: x in agents' <==> x in agents;
    }
  }

  /** The ids `list` starts from: the type bucket, else the category bucket, else every id. */
  function Candidates(
    order: seq<string>, byType: map<AgentType, seq<string>>, byCategory: map<string, seq<string>>,
    agentType: Option<AgentType>, category: Option<string>): seq<string>
  {
    if agentType.Some? then Bucket(byType, agentType.value)
    else if category.Some? && category.value != "" then Bucket(byCategory, category.value)
    else order
  }

  /** The per-record filters of `list`; type and category only choose the candidates. */
  predicate Keep(a: AgentMetadata, status: Option<AgentStatus>, tags: seq<string>)
  {
    && (status.Some? ==> a.status == status.value)
    && (tags != [] ==> HasCommon(tags, a.tags))
  }

  function Select(agents: map<string, AgentMetadata>, ids: seq<string>, status: Option<AgentStatus>, tags: seq<string>)
    : seq<AgentMetadata>
  {
    if ids == [] then []
    else
      var id := ids[|ids| - 1];
      Select(agents, ids[..|ids| - 1], status, tags)
        + (if id in agents && Keep(agents[id], status, tags) then [agents[id]] else [])
  }

  lemma {:induction false} SelectSound(
    agents: map<string, AgentMetadata>, ids: seq<string>, status: Option<AgentStatus>, tags: seq<string>, a: AgentMetadata)
    requires a in Select(agents, ids, status, tags)
    ensures exists i :: 0 <= i < |ids| && ids[i] in agents && agents[ids[i]] == a
    ensures Keep(a, status, tags)
  {
    var id := ids[|ids| - 1];
    if a !in Select(agents, ids[..|ids| - 1], status, tags) {
      assert a == agents[id];
    } else {
      SelectSound(agents, ids[..|ids| - 1], status, tags, a);
      var i :| 0 <= i < |ids| - 1 && ids[..|ids| - 1][i] in agents && agents[ids[..|ids| - 1][i]] == a;
      assert ids[i] == ids[..|ids| - 1][i];
    }
  }

  lemma {:induction false} SelectComplete(
    agents: map<string, AgentMetadata>, ids: seq<string>, status: Option<AgentStatus>, tags: seq<string>, id: string)
    requires id in ids && id in agents && Keep(agents[id], status, tags)
    ensures agents[id] in Select(agents, ids, status, tags)
  {
    if ids[|ids| - 1] != id {
      SelectComplete(agents, ids[..|ids| - 1], status, tags, id);
    }
  }

  /** On a consistent registry, `list(agent_type=T)` returns exactly the agents of type T. */
  lemma ListByTypeExact(
    agents: map<string, AgentMetadata>, order: seq<string>,
    byType: map<AgentType, seq<string>>, byCategory: map<string, seq<string>>,
    t: AgentType, category: Option<string>, id: string)
    requires Consistent(agents, order, byType, byCategory) && id in agents
    ensures agents[id] in Select(agents, Candidates(order, byType, byCategory, Some(t), category), None, [])
        <==> agents[id].agentType == t
  {
    var ids := Candidates(order, byType, byCategory, Some(t), category);
    if agents[id].agentType == t {
      IndexedFind(byType, TypeKeys(agents), id, t);
      SelectComplete(agents, ids, None, [], id);
    } else if agents[id] in Select(agents, ids, None, []) {
      SelectSound(agents, ids, None, [], agents[id]);
      var i :| 0 <= i < |ids| && ids[i] in agents && agents[ids[i]] == agents[id];
      IndexedOnly(byType, TypeKeys(agents), ids[i], t);
    }
  }

  /** On a consistent registry, `list(category=c)` with a non-empty c returns exactly the agents filed under c. */
  lemma ListByCategoryExact(
    agents: map<string, AgentMetadata>, order: seq<string>,
    byType: map<AgentType, seq<string>>, byCategory: map<string, seq<string>>,
    c: string, id: string)
    requires Consistent(agents, order, byType, byCategory) && id in agents && c != ""
    ensures agents[id] in Select(agents, Candidates(order, byType, byCategory, None, Some(c)), None, [])
        <==> agents[id].category == c
  {
    var ids := Candidates(order, byType, byCategory, None, Some(c));
    if agents[id].category == c {
      IndexedFind(byCategory, CategoryKeys(agents), id, c);
      SelectComplete(agents, ids, None, [], id);
    } else if agents[id] in Select(agents, ids, None, []) {
      SelectSound(agents, ids, None, [], agents[id]);
      var i :| 0 <= i < |ids| && ids[i] in agents && agents[ids[i]] == agents[id];
      IndexedOnly(byCategory, CategoryKeys(agents), ids[i], c);
    }
  }

  /** The search test: the lower-cased query is a substring of the name, the description or a tag. */
  predicate Matches(a: AgentMetadata, query: string)
  {
    Text.QueryMatches(a.name, a.description, a.tags, query)
  }

  function SearchSpec(agents: map<string, AgentMetadata>, ids: seq<string>, query: string): (r: seq<AgentMetadata>)
    ensures forall a :: a in r ==> Matches(a, query) && a in agents.Values
  {
    if ids == [] then []
    else
      var id := ids[|ids| - 1];
      SearchSpec(agents, ids[..|ids| - 1], query)
        + (if id in agents && Matches(agents[id], query) then [agents[id]] else [])
  }

  lemma {:induction false} SearchComplete(agents: map<string, AgentMetadata>, ids: seq<string>, query: string, id: string)
    requires id in ids && id in agents && Matches(agents[id], query)
    ensures agents[id] in SearchSpec(agents, ids, query)
  {
    if ids[|ids| - 1] != id {
      SearchComplete(agents, ids[..|ids| - 1], query, id);
    }
  }

  class Registry {
    var agents: map<string, AgentMetadata>
    var order: seq<string>
    var byType: map<AgentType, seq<string>>
    var byCategory: map<string, seq<string>>

    ghost predicate Valid()
      reads this
    {
      Consistent(agents, order, byType, byCategory)
    }

    constructor ()
      ensures Valid() && agents == map[] && order == [] && byCategory == map[]
    {
      agents := map[];
      order := [];
      byType := map[Analyst := [], Researcher := [], Trader := [], RiskManager := [], Manager := [], Custom := []];
      byCategory := map[];
    }

    /**
     * Registers a new agent with status Registered, filed under its type and
     * its category (whose bucket is created on first use). A known id is refused
     * and nothing changes.
     */
    method Register(id: string, name: string, description: string, version: string, agentType: AgentType,
                    author: string, category: string, tags: seq<string>, capabilities: seq<string>, now: int)
      returns (r: Result<AgentMetadata>)
      requires Valid()
      modifies this
      ensures Valid()
      ensures old(id in agents) ==> r == Err("Agent " + id + " already registered") && unchanged(this)
      ensures !old(id in agents) ==>
        && r == Ok(AgentMetadata(id, name, description, version, agentType, author, category, tags, capabilities,
                                 Registered, now, now))
        && agents == old(agents)[id := r.value]
        && order == old(order) + [id]
        && byType == Add(old(byType), agentType, id)
        && byCategory == Add(old(byCategory), category, id)
    {
      if id in agents {
        return Err("Agent " + id + " already registered");
      }
      var a := AgentMetadata(id, name, description, version, agentType, author, category, tags, capabilities,
                             Registered, now, now);
      RegisterConsistent(agents, order, byType, byCategory, a);
      agents, order := agents[id := a], order + [id];
      byType, byCategory := Add(byType, agentType, id), Add(byCategory, category, id);
      r := Ok(a);
    }

    function Get(id: string): (r: Option<AgentMetadata>)
      reads this
      ensures r.Some? <==> id in agents
      ensures r.Some? ==> r.value == agents[id]
    {
      if id in agents then Some(agents[id]) else None
    }

    /** `list`: walks the candidate ids and keeps the registered agents that pass the status and tag filters. */
    method List(agentType: Option<AgentType>, category: Option<string>, status: Option<AgentStatus>, tags: seq<string>)
      returns (result: seq<AgentMetadata>)
      ensures result == Select(agents, Candidates(order, byType, byCategory, agentType, category), status, tags)
    {
      var ids := Candidates(order, byType, byCategory, agentType, category);
      result := [];
      var i := 0;
      while i < |ids|
        invariant 0 <= i <= |ids|
        invariant result == Select(agents, ids[..i], status, tags)
      {
        var id := ids[i];
        PrefixOfPrefix(ids, i);
        if id in agents && Keep(agents[id], status, tags) {
          result := result + [agents[id]];
        }
        i := i + 1;
      }
      FullPrefix(ids);
    }

    /** Removes an agent and takes it out of its type and category buckets; an unknown id gives false. */
    method Unregister(id: string) returns (removed: bool)
      requires Valid()
      modifies this
      ensures Valid()
      ensures removed == (id in old(agents))
      ensures !removed ==> unchanged(this)
      ensures removed ==>
        && agents == old(agents) - {id}
        && order == RemoveFirst(old(order), id)
        && byType == Remove(old(byType), old(agents)[id].agentType, id)
        && byCategory == Remove(old(byCategory), old(agents)[id].category, id)
    {
      if id !in agents {
        return false;
      }
      var a := agents[id];
      UnregisterConsistent(agents, order, byType, byCategory, id);
      agents, order := agents - {id}, RemoveFirst(order, id);
      byType, byCategory := Remove(byType, a.agentType, id), Remove(byCategory, a.category, id);
      return true;
    }

    /** Sets the status and the update time; no index changes. An unknown id gives false. */
    method UpdateStatus(id: string, status: AgentStatus, now: int) returns (updated: bool)
      requires Valid()
      modifies this
      ensures Valid()
      ensures updated == (id in old(agents))
      ensures !updated ==> unchanged(this)
      ensures updated ==>
        && agents == old(agents)[id := old(agents)[id].(status := status, updatedAt := now)]
        && order == old(order) && byType == old(byType) && byCategory == old(byCategory)
    {
      if id !in agents {
        return false;
      }
      UpdateStatusConsistent(agents, order, byType, byCategory, id, status, now);
      agents := agents[id := agents[id].(status := status, updatedAt := now)];
      return true;
    }

    /** `search`: the agents, in registration order, whose name, description or a tag holds the query. */
    method Search(query: string) returns (result: seq<AgentMetadata>)
      ensures result == SearchSpec(agents, order, query)
    {
      result := [];
      var i := 0;
      while i < |order|
        invariant 0 <= i <= |order|
        invariant result == SearchSpec(agents, order[..i], query)
      {
        PrefixOfPrefix(order, i);
        var id := order[i];
        if id in agents && Matches(agents[id], query) {
          result := result + [agents[id]];
        }
        i := i + 1;
      }
      FullPrefix(order);
    }
  }
}
