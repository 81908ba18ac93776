// Declarative import of knowledge bases: new ones are registered, existing
// ones are re-registered or skipped, and a status that differs from the
// replaced record's is applied once more after registration.
module KnowledgeService {
  import opened Wrappers
  import opened KnowledgeRegistry
  import opened Declarative
  import opened Merging

  /**
   * The record the registry holds after importing `k` over the records `m`:
   * registration fills in the defaults, and re-applying a status that differs
   * from the replaced record's stamps the update time once more.
   */
  function StoredOver(m: map<string, KnowledgeBaseMetadata>, k: KnowledgeBaseMetadata, now: int)
    : (s: KnowledgeBaseMetadata)
    ensures s.kbId == k.kbId && s.status == k.status && s.tags == k.tags && s.name == k.name
    ensures s.createdAt == Filled(k, now).createdAt && s.collectionName == Filled(k, now).collectionName
    ensures k.kbId in m && m[k.kbId].status != k.status ==> s.updatedAt == Some(now)
    ensures !(k.kbId in m && m[k.kbId].status != k.status) ==> s == Filled(k, now)
  {
    if k.kbId in m && m[k.kbId].status != k.status then Filled(k, now).(updatedAt := Some(now))
    else Filled(k, now)
  }

  function StoreAt(now: int): (map<string, KnowledgeBaseMetadata>, KnowledgeBaseMetadata) -> KnowledgeBaseMetadata
  {
    (m: map<string, KnowledgeBaseMetadata>, k: KnowledgeBaseMetadata) => StoredOver(m, k, now)
  }

  function KbId(k: KnowledgeBaseMetadata): string
  {
    k.kbId
  }

  lemma StatusReapplied(before: map<string, KnowledgeBaseMetadata>, mid: map<string, KnowledgeBaseMetadata>,
                        after: map<string, KnowledgeBaseMetadata>, k: KnowledgeBaseMetadata, now: int)
    requires k.kbId in before && before[k.kbId].status != k.status
    requires mid == (before - {k.kbId})[k.kbId := Filled(k, now)]
    requires after == mid[k.kbId := mid[k.kbId].(status := k.status, updatedAt := Some(now))]
    ensures after == before[k.kbId := StoredOver(before, k, now)]
  {
  }

  /** One iteration of `_import_items`; registration cannot fail here, so no item is filed as an error. */
  method ImportItem(reg: Registry, k: KnowledgeBaseMetadata, updateExisting: bool, now: int) returns (o: Outcome)
    requires reg.Valid()
    modifies reg
    ensures reg.Valid()
    ensures o == OutcomeOf(old(reg.kbs), k.kbId, updateExisting)
    ensures reg.kbs == Merge(old(reg.kbs), k.kbId, StoredOver(old(reg.kbs), k, now), updateExisting)
    ensures o == Skipped ==> unchanged(reg)
  {
    var existing := reg.Get(k.kbId);
    if existing.Some? {
      if updateExisting {
        ghost var before := reg.kbs;
        var _ := reg.Unregister(k.kbId);
        var _ := reg.Register(k, now);
        if k.status != existing.value.status {
          ghost var mid := reg.kbs;
          var _ := reg.UpdateStatus(k.kbId, k.status, now);
          StatusReapplied(before, mid, reg.kbs, k, now);
        } else {
          RemoveThenPut(before, k.kbId, Filled(k, now));
        }
        return Updated;
      }
      return Skipped;
    }
    var _ := reg.Register(k, now);
    return Imported;
  }

  /**
   * `_import_items`: the registry ends as the item-by-item merge of the
   * batch and the result is its summary (the lemmas of `Merging` say what
   * those guarantee).
   */
  method ImportItems(reg: Registry, items: seq<KnowledgeBaseMetadata>, updateExisting: bool, now: int)
    returns (res: ImportResult)
    requires reg.Valid()
    modifies reg
    ensures reg.Valid()
    ensures reg.kbs == MergeAll(old(reg.kbs), items, KbId, StoreAt(now), updateExisting)
    ensures res == Summary(old(reg.kbs), items, KbId, StoreAt(now), updateExisting)
  {
    ghost var start := reg.kbs;
    res := ImportResult([], [], [], [], 0);
    var i := 0;
    while i < |items|
      invariant 0 <= i <= |items|
      invariant reg.Valid()
      invariant reg.kbs == MergeAll(start, items[..i], KbId, StoreAt(now), updateExisting)
      invariant res == Summary(start, items[..i], KbId, StoreAt(now), updateExisting)
    {
      var k := items[i];
      MergeStep(start, items, KbId, StoreAt(now), updateExisting, i);
      assert StoreAt(now)(reg.kbs, k) == StoredOver(reg.kbs, k, now);
      var o := ImportItem(reg, k, updateExisting, now);
      res := Record(res, k.kbId, o).(total := i + 1);
      i := i + 1;
    }
    Seqs.FullPrefix(items);
  }

  /** Re-importing a knowledge base with its registered status keeps the import's own update time. */
  lemma SameStatusKeepsStamp(m: map<string, KnowledgeBaseMetadata>, k: KnowledgeBaseMetadata, now: int, t: int)
    requires k.kbId in m && m[k.kbId].status == k.status && k.updatedAt == Some(t)
    ensures Merge(m, k.kbId, StoredOver(m, k, now), true)[k.kbId].updatedAt == Some(t)
  {
  }
}
