// The knowledge-base registry: knowledge-base metadata keyed by id, with a
// status index and a tag index.
module KnowledgeRegistry {
  import opened Wrappers
  import opened Seqs
  import opened Index
  import opened Listing
  import Text

  datatype KbStatus = Active | Inactive | Archived

  /**
   * Knowledge-base metadata; the free-form metadata dictionary is not
   * modelled and timestamps are clock readings, absent until registration.
   */
  datatype KnowledgeBaseMetadata = KnowledgeBaseMetadata(
    kbId: string,
    name: string,
    description: string,
    vectorStoreType: string,
    embeddingModel: string,
    chunkSize: int,
    chunkOverlap: int,
    collectionName: Option<string>,
    persistDirectory: Option<string>,
    status: KbStatus,
    tags: seq<string>,
    createdAt: Option<int>,
    updatedAt: Option<int>)

  /**
   * The defaults `register` fills in: a missing or empty collection name
   * becomes "kb_" + name, missing timestamps become the registration time.
   */
  function Filled(m: KnowledgeBaseMetadata, now: int): (r: KnowledgeBaseMetadata)
    ensures m.collectionName.Some? && m.collectionName.value != "" ==> r.collectionName == m.collectionName
    ensures m.collectionName.None? || m.collectionName == Some("") ==> r.collectionName == Some("kb_" + m.name)
    ensures r.createdAt == (if m.createdAt.Some? then m.createdAt else Some(now))
    ensures r.updatedAt == (if m.updatedAt.Some? then m.updatedAt else Some(now))
    ensures r.(collectionName := m.collectionName, createdAt := m.createdAt, updatedAt := m.updatedAt) == m
    ensures r.kbId == m.kbId && r.status == m.status && r.tags == m.tags
  {
    m.(collectionName := if m.collectionName.None? || m.collectionName == Some("") then Some("kb_" + m.name)
                         else m.collectionName,
       createdAt := if m.createdAt.None? then Some(now) else m.createdAt,
       updatedAt := if m.updatedAt.None? then Some(now) else m.updatedAt)
  }

  ghost function StatusKeys(kbs: map<string, KnowledgeBaseMetadata>): map<string, seq<KbStatus>>
  {
    map id | id in kbs :: [kbs[id].status]
  }

  ghost function TagKeys(kbs: map<string, KnowledgeBaseMetadata>): map<string, seq<string>>
  {
    map id | id in kbs :: kbs[id].tags
  }

  /**
   * `order` lists each knowledge base once; each id sits once in the bucket
   * of its status and once per occurrence of a tag in that tag's bucket.
   */
  ghost predicate Consistent(kbs: map<string, KnowledgeBaseMetadata>, order: seq<string>,
                             byStatus: map<KbStatus, seq<string>>, byTag: map<string, seq<string>>)
  {
    && Ordered(order, kbs)
    && (forall id :: id in kbs ==> kbs[id].kbId == id)
    && Indexed(byStatus, StatusKeys(kbs))
    && Indexed(byTag, TagKeys(kbs))
  }

  lemma KeysAfterPut(kbs: map<string, KnowledgeBaseMetadata>, m: KnowledgeBaseMetadata)
    ensures StatusKeys(kbs)[m.kbId := [m.status]] == StatusKeys(kbs[m.kbId := m])
    ensures TagKeys(kbs)[m.kbId := m.tags] == TagKeys(kbs[m.kbId := m])
  {
    StatusKeysAfterPut(kbs, m);
    TagKeysAfterPut(kbs, m);
  }

  lemma StatusKeysAfterPut(kbs: map<string, KnowledgeBaseMetadata>, m: KnowledgeBaseMetadata)
    ensures StatusKeys(kbs)[m.kbId := [m.status]] == StatusKeys(kbs[m.kbId := m])
  {
  }

  lemma TagKeysAfterPut(kbs: map<string, KnowledgeBaseMetadata>, m: KnowledgeBaseMetadata)
    ensures TagKeys(kbs)[m.kbId := m.tags] == TagKeys(kbs[m.kbId := m])
  {
  }

  lemma KeysAfterRemove(kbs: map<string, KnowledgeBaseMetadata>, id: string)
    ensures StatusKeys(kbs) - {id} == StatusKeys(kbs - {id})
    ensures TagKeys(kbs) - {id} == TagKeys(kbs - {id})
  {
    StatusKeysAfterRemove(kbs, id);
    TagKeysAfterRemove(kbs, id);
  }

  lemma StatusKeysAfterRemove(kbs: map<string, KnowledgeBaseMetadata>, id: string)
    ensures StatusKeys(kbs) - {id} == StatusKeys(kbs - {id})
  {
  }

  lemma TagKeysAfterRemove(kbs: map<string, KnowledgeBaseMetadata>, id: string)
    ensures TagKeys(kbs) - {id} == TagKeys(kbs - {id})
  {
  }

  lemma RegisterConsistent(kbs: map<string, KnowledgeBaseMetadata>, order: seq<string>,
                           byStatus: map<KbStatus, seq<string>>, byTag: map<string, seq<string>>,
                           m: KnowledgeBaseMetadata)
    requires Consistent(kbs, order, byStatus, byTag) && m.kbId !in kbs
    ensures Consistent(kbs[m.kbId := m], order + [m.kbId], Add(byStatus, m.status, m.kbId),
                       AddAll(byTag, m.tags, m.kbId))
  {
    IndexedAddAll(byStatus, StatusKeys(kbs), m.kbId, [m.status]);
    AddAllOne(byStatus, m.status, m.kbId);
    IndexedAddAll(byTag, TagKeys(kbs), m.kbId, m.tags);
    KeysAfterPut(kbs, m);
    OrderedAppend(order, kbs, m.kbId, m);
  }

  lemma UnregisterConsistent(kbs: map<string, KnowledgeBaseMetadata>, order: seq<string>,
                             byStatus: map<KbStatus, seq<string>>, byTag: map<string, seq<string>>, id: string)
    requires Consistent(kbs, order, byStatus, byTag) && id in kbs
    ensures Consistent(kbs - {id}, RemoveFirst(order, id), Remove(byStatus, kbs[id].status, id),
                       RemoveAll(byTag, kbs[id].tags, id))
  {
    IndexedRemoveAll(byStatus, StatusKeys(kbs), id);
    RemoveAllOne(byStatus, kbs[id].status, id);
    IndexedRemoveAll(byTag, TagKeys(kbs), id);
    KeysAfterRemove(kbs, id);
    OrderedRemove(order, kbs, id);
  }

  /** Taking an id out of one status bucket and appending it to another re-indexes its single status. */
  lemma StatusMoveIndexed(b: map<KbStatus, seq<string>>, keys: map<string, seq<KbStatus>>,
                          id: string, s: KbStatus, s': KbStatus)
    requires Indexed(b, keys) && id in keys && keys[id] == [s]
    ensures Indexed(Add(Remove(b, s, id), s', id), keys[id := [s']])
  {
    IndexedRemoveAll(b, keys, id);
    RemoveAllOne(b, s, id);
    var b1 := Remove(b, s, id);
    IndexedAddAll(b1, keys - {id}, id, [s']);
    AddAllOne(b1, s', id);
    assert (keys - {id})[id := [s']] == keys[id := [s']];
  }

  /** Restamping a knowledge base under its own id, with its tags unchanged, keeps all but the status index. */
  lemma RestampKeeps(kbs: map<string, KnowledgeBaseMetadata>, order: seq<string>,
                     byStatus: map<KbStatus, seq<string>>, byTag: map<string, seq<string>>,
                     id: string, m: KnowledgeBaseMetadata)
    requires Consistent(kbs, order, byStatus, byTag) && id in kbs
    requires m.kbId == id && m.tags == kbs[id].tags
    ensures Ordered(order, kbs[id := m])
    ensures Indexed(byTag, TagKeys(kbs[id := m]))
    ensures StatusKeys(kbs[id := m]) == StatusKeys(kbs)[id := [m.status]]
  {
    RestampOrdered(order, kbs, id, m);
    RestampTagKeys(kbs, id, m);
    RestampStatusKeys(kbs, id, m);
  }

  /** The three parts of a restamp: the ids, the tag keys and the status keys. */
  lemma RestampOrdered(order: seq<string>, kbs: map<string, KnowledgeBaseMetadata>, id: string, m: KnowledgeBaseMetadata)
    requires Ordered(order, kbs) && id in kbs
    ensures Ordered(order, kbs[id := m])
  {
    assert forall x :: x in kbs[id := m] <==> x in kbs;
  }

  lemma RestampTagKeys(kbs: map<string, KnowledgeBaseMetadata>, id: string, m: KnowledgeBaseMetadata)
    requires id in kbs && m.tags == kbs[id].tags
    ensures TagKeys(kbs[id := m]) == TagKeys(kbs)
  {
  }

  lemma RestampStatusKeys(kbs: map<string, KnowledgeBaseMetadata>, id: string, m: KnowledgeBaseMetadata)
    requires id in kbs
    ensures StatusKeys(kbs[id := m]) == StatusKeys(kbs)[id := [m.status]]
  {
  }

  /** Moving a knowledge base to another status bucket keeps the registry consistent. */
  lemma StatusMoveConsistent(kbs: map<string, KnowledgeBaseMetadata>, order: seq<string>,
                             byStatus: map<KbStatus, seq<string>>, byTag: map<string, seq<string>>,
                             id: string, m: KnowledgeBaseMetadata)
    requires Consistent(kbs, order, byStatus, byTag) && id in kbs
    requires m.kbId == id && m.tags == kbs[id].tags
    ensures Consistent(kbs[id := m], order, Add(Remove(byStatus, kbs[id].status, id), m.status, id), byTag)
  {
    StatusMoveIndexed(byStatus, StatusKeys(kbs), id, kbs[id].status, m.status);
    RestampKeeps(kbs, order, byStatus, byTag, id, m);
  }

  /** The ids `list` walks: a status's bucket, else the union of the tags' buckets, else every knowledge base. */
  function Candidates(order: seq<string>, byStatus: map<KbStatus, seq<string>>, byTag: map<string, seq<string>>,
                      status: Option<KbStatus>, tags: seq<string>): seq<string>
  {
    if status.Some? then Bucket(byStatus, status.value)
    else if tags != [] then Union(byTag, tags)
    else order
  }

  /** The filters `list` re-applies to every candidate. */
  predicate Keep(m: KnowledgeBaseMetadata, status: Option<KbStatus>, tags: seq<string>)
  {
    && (status.Some? ==> m.status == status.value)
    && (tags != [] ==> HasCommon(tags, m.tags))
  }

  function KeepFor(status: Option<KbStatus>, tags: seq<string>): KnowledgeBaseMetadata -> bool
  {
    (m: KnowledgeBaseMetadata) => Keep(m, status, tags)
  }

  /** On a consistent registry, every knowledge base that passes the filters is a candidate. */
  lemma CandidatesCover(kbs: map<string, KnowledgeBaseMetadata>, order: seq<string>,
                        byStatus: map<KbStatus, seq<string>>, byTag: map<string, seq<string>>,
                        status: Option<KbStatus>, tags: seq<string>, id: string)
    requires Consistent(kbs, order, byStatus, byTag)
    requires id in kbs && Keep(kbs[id], status, tags)
    ensures id in Candidates(order, byStatus, byTag, status, tags)
  {
    if status.Some? {
      IndexedFind(byStatus, StatusKeys(kbs), id, status.value);
    } else if tags != [] {
      var i :| 0 <= i < |tags| && tags[i] in kbs[id].tags;
      IndexedFind(byTag, TagKeys(kbs), id, tags[i]);
      UnionMembers(byTag, tags, id);
    }
  }

  /** `list` returns exactly the registered knowledge bases that pass both filters. */
  lemma ListExact(kbs: map<string, KnowledgeBaseMetadata>, order: seq<string>,
                  byStatus: map<KbStatus, seq<string>>, byTag: map<string, seq<string>>,
                  status: Option<KbStatus>, tags: seq<string>, m: KnowledgeBaseMetadata)
    requires Consistent(kbs, order, byStatus, byTag)
    ensures m in Pick(kbs, Candidates(order, byStatus, byTag, status, tags), KeepFor(status, tags))
            <==> m in kbs.Values && Keep(m, status, tags)
  {
    if m in kbs.Values && Keep(m, status, tags) {
      var id :| id in kbs && kbs[id] == m;
      CandidatesCover(kbs, order, byStatus, byTag, status, tags, id);
      PickComplete(kbs, Candidates(order, byStatus, byTag, status, tags), KeepFor(status, tags), id);
    }
  }

  predicate Matches(m: KnowledgeBaseMetadata, query: string)
  {
    Text.QueryMatches(m.name, m.description, m.tags, query)
  }

  function MatchFor(query: string): KnowledgeBaseMetadata -> bool
  {
    (m: KnowledgeBaseMetadata) => Matches(m, query)
  }

  /** `search` returns exactly the registered knowledge bases that match the query. */
  lemma SearchExact(kbs: map<string, KnowledgeBaseMetadata>, order: seq<string>,
                    byStatus: map<KbStatus, seq<string>>, byTag: map<string, seq<string>>,
                    query: string, m: KnowledgeBaseMetadata)
    requires Consistent(kbs, order, byStatus, byTag)
    ensures m in Pick(kbs, order, MatchFor(query)) <==> m in kbs.Values && Matches(m, query)
  {
    if m in kbs.Values && Matches(m, query) {
      var id :| id in kbs && kbs[id] == m;
      PickComplete(kbs, order, MatchFor(query), id);
    }
  }

  class Registry {
    var kbs: map<string, KnowledgeBaseMetadata>
    var order: seq<string>
    var byStatus: map<KbStatus, seq<string>>
    var byTag: map<string, seq<string>>

    ghost predicate Valid()
      reads this
    {
      Consistent(kbs, order, byStatus, byTag)
    }

    constructor ()
      ensures Valid() && kbs == map[]
    {
      kbs, order, byStatus, byTag := map[], [], map[], map[];
    }

    /**
     * `register`: stores the metadata with its defaults filled in, under its
     * status and each of its tags; a known id is refused.
     */
    method Register(m: KnowledgeBaseMetadata, now: int) returns (r: Result<KnowledgeBaseMetadata>)
      requires Valid()
      modifies this
      ensures Valid()
      ensures old(m.kbId in kbs) ==> r == Err("Knowledge base " + m.kbId + " already registered") && unchanged(this)
      ensures !old(m.kbId in kbs) ==>
        && r == Ok(Filled(m, now))
        && kbs == old(kbs)[m.kbId := Filled(m, now)]
        && order == old(order) + [m.kbId]
        && byStatus == Add(old(byStatus), m.status, m.kbId)
        && byTag == AddAll(old(byTag), m.tags, m.kbId)
    {
      if m.kbId in kbs {
        return Err("Knowledge base " + m.kbId + " already registered");
      }
      var f := Filled(m, now);
      RegisterConsistent(kbs, order, byStatus, byTag, f);
      var bt := AddToBuckets(byTag, f.tags, f.kbId);
      kbs, order, byStatus, byTag := kbs[f.kbId := f], order + [f.kbId], Add(byStatus, f.status, f.kbId), bt;
      r := Ok(f);
    }

    function Get(kbId: string): (r: Option<KnowledgeBaseMetadata>)
      reads this
      ensures r.Some? <==> kbId in kbs
      ensures r.Some? ==> r.value == kbs[kbId]
    {
      if kbId in kbs then Some(kbs[kbId]) else None
    }

    /** `list`: the candidates' knowledge bases, in candidate order, that pass both filters. */
    method List(status: Option<KbStatus>, tags: seq<string>) returns (result: seq<KnowledgeBaseMetadata>)
      ensures result == Pick(kbs, Candidates(order, byStatus, byTag, status, tags), KeepFor(status, tags))
    {
      var ids: seq<string>;
      if status.Some? {
        ids := Bucket(byStatus, status.value);
      } else if tags != [] {
        ids := UnionOf(byTag, tags);
      } else {
        ids := order;
      }
      result := Collect(kbs, ids, KeepFor(status, tags));
    }

    /** `unregister`: drops a knowledge base and takes it out of its buckets; an unknown id gives false. */
    method Unregister(kbId: string) returns (removed: bool)
      requires Valid()
      modifies this
      ensures Valid()
      ensures removed == (kbId in old(kbs))
      ensures !removed ==> unchanged(this)
      ensures removed ==>
        && kbs == old(kbs) - {kbId}
        && order == RemoveFirst(old(order), kbId)
        && byStatus == Remove(old(byStatus), old(kbs)[kbId].status, kbId)
        && byTag == RemoveAll(old(byTag), old(kbs)[kbId].tags, kbId)
    {
      if kbId !in kbs {
        return false;
      }
      UnregisterConsistent(kbs, order, byStatus, byTag, kbId);
      var bt := RemoveFromBuckets(byTag, kbs[kbId].tags, kbId);
      kbs, order, byStatus, byTag := kbs - {kbId}, RemoveFirst(order, kbId),
                                     Remove(byStatus, kbs[kbId].status, kbId), bt;
      return true;
    }

    /**
     * `update_status`: sets the status and the update time and moves the id
     * from its old status bucket to the end of the new one; an unknown id
     * gives false.
     */
    method UpdateStatus(kbId: string, status: KbStatus, now: int) returns (updated: bool)
      requires Valid()
      modifies this
      ensures Valid()
      ensures updated == (kbId in old(kbs))
      ensures !updated ==> unchanged(this)
      ensures updated ==>
        && kbs == old(kbs)[kbId := old(kbs)[kbId].(status := status, updatedAt := Some(now))]
        && byStatus == Add(Remove(old(byStatus), old(kbs)[kbId].status, kbId), status, kbId)
        && order == old(order) && byTag == old(byTag)
    {
      if kbId !in kbs {
        return false;
      }
      var m := kbs[kbId].(status := status, updatedAt := Some(now));
      StatusMoveConsistent(kbs, order, byStatus, byTag, kbId, m);
      byStatus := Add(Remove(byStatus, kbs[kbId].status, kbId), status, kbId);
      kbs := kbs[kbId := m];
      return true;
    }

    /** `search`: the registered knowledge bases, in registration order, that match the query. */
    method Search(query: string) returns (result: seq<KnowledgeBaseMetadata>)
      ensures result == Pick(kbs, order, MatchFor(query))
    {
      result := Collect(kbs, order, MatchFor(query));
    }
  }
}
