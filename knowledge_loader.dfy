// Reading knowledge bases and document metadata from YAML-shaped
// dictionaries, and the dictionary a knowledge base is exported as.
module KnowledgeLoader {
  import opened Wrappers
  import opened Values
  import opened KnowledgeRegistry
  import Seqs
  import Declarative

  function StatusName(s: KbStatus): string
  {
    match s
    case Active => "active"
    case Inactive => "inactive"
    case Archived => "archived"
  }

  /** `KnowledgeBaseStatus(v)`: any value that names no status is refused. */
  function ParseStatus(v: Value): (r: Result<KbStatus>)
    ensures r.Ok? <==> v in {VStr("active"), VStr("inactive"), VStr("archived")}
    ensures r.Ok? ==> v == VStr(StatusName(r.value))
    ensures v.VStr? && r.Err? ==> r.error == "'" + v.s + "' is not a valid KnowledgeBaseStatus"
  {
    match v
    case VStr("active") => Ok(Active)
    case VStr("inactive") => Ok(Inactive)
    case VStr("archived") => Ok(Archived)
    case VStr(x) => Err("'" + x + "' is not a valid KnowledgeBaseStatus")
    case _ => Err("not a valid KnowledgeBaseStatus")
  }

  lemma {:induction false} StatusNamesRoundTrip(s: KbStatus)
    ensures ParseStatus(VStr(StatusName(s))) == Ok(s)
  {
    match s
    case Active =>
    case Inactive =>
    case Archived =>
  }

  /** A timestamp field that stays unset when its key is absent; a present null is refused. */
  function OptInstant(d: Dict, k: string): (r: Result<Option<int>>)
    ensures !Has(d, k) ==> r == Ok(None)
    ensures Has(d, k) ==> (r.Ok? <==> GetV(d, k).VInt?)
    ensures r.Ok? && Has(d, k) ==> r.value == Some(GetV(d, k).i)
  {
    if Has(d, k) then
      var t :- Instant(GetV(d, k), k);
      Ok(Some(t))
    else Ok(None)
  }

  /** Id, name, description, vector store and embedding model; the other fields keep their defaults. */
  function ParseKbHead(d: Dict): (r: Result<KnowledgeBaseMetadata>)
    ensures !Truthy(GetV(d, "kb_id")) && !Truthy(GetV(d, "id")) ==> r == Err("Knowledge base 'kb_id' is required")
    ensures r.Ok? ==> VStr(r.value.kbId) == Or(GetV(d, "kb_id"), GetV(d, "id")) && r.value.kbId != ""
    ensures r.Ok? ==> VStr(r.value.name) == (if Truthy(GetV(d, "name")) then GetV(d, "name") else VStr(r.value.kbId))
    ensures r.Ok? ==> VStr(r.value.description) == GetOr(d, "description", VStr(""))
    ensures r.Ok? ==> VStr(r.value.vectorStoreType) == GetOr(d, "vector_store_type", VStr("chromadb"))
    ensures r.Ok? ==> VStr(r.value.embeddingModel) == GetOr(d, "embedding_model", VStr("text-embedding-3-small"))
  {
    var idv := Or(GetV(d, "kb_id"), GetV(d, "id"));
    if !Truthy(idv) then Err("Knowledge base 'kb_id' is required")
    else
      var kbId :- AsStr(idv, "kb_id");
      var name :- StrOr(GetV(d, "name"), kbId, "name");
      var description :- StrField(d, "description", "");
      var vectorStoreType :- StrField(d, "vector_store_type", "chromadb");
      var embeddingModel :- StrField(d, "embedding_model", "text-embedding-3-small");
      Ok(KnowledgeBaseMetadata(kbId, name, description, vectorStoreType, embeddingModel,
                               1000, 200, None, None, Active, [], None, None))
  }

  /** Chunking parameters, collection, directory, status, tags and timestamps. */
  function ParseKbRest(d: Dict, m: KnowledgeBaseMetadata): (r: Result<KnowledgeBaseMetadata>)
    ensures r.Ok? ==> r.value.(chunkSize := m.chunkSize, chunkOverlap := m.chunkOverlap,
      collectionName := m.collectionName, persistDirectory := m.persistDirectory, status := m.status,
      tags := m.tags, createdAt := m.createdAt, updatedAt := m.updatedAt) == m
    ensures r.Ok? && !Has(d, "chunk_size") ==> r.value.chunkSize == 1000
    ensures r.Ok? && !Has(d, "chunk_overlap") ==> r.value.chunkOverlap == 200
    ensures r.Ok? && !Has(d, "status") ==> r.value.status == Active
    ensures r.Ok? && !Has(d, "collection_name") ==> r.value.collectionName == None
    ensures r.Ok? ==> (r.value.createdAt.Some? <==> Has(d, "created_at"))
    ensures Has(d, "created_at") && GetV(d, "created_at") == VNull ==> r.Err?
  {
    var chunkSize :- IntField(d, "chunk_size", 1000);
    var chunkOverlap :- IntField(d, "chunk_overlap", 200);
    var collectionName :- OptStr(GetV(d, "collection_name"), "collection_name");
    var persistDirectory :- OptStr(GetV(d, "persist_directory"), "persist_directory");
    var status :- ParseStatus(GetOr(d, "status", VStr("active")));
    var tags :- StrListField(d, "tags");
    var createdAt :- OptInstant(d, "created_at");
    var updatedAt :- OptInstant(d, "updated_at");
    Ok(m.(chunkSize := chunkSize, chunkOverlap := chunkOverlap, collectionName := collectionName,
          persistDirectory := persistDirectory, status := status, tags := tags,
          createdAt := createdAt, updatedAt := updatedAt))
  }

  /** `KnowledgeBaseYAMLLoader._parse_item`. */
  function ParseKnowledgeBase(v: Value): (r: Result<KnowledgeBaseMetadata>)
    ensures r.Ok? ==> v.VObj? && r.value.kbId != ""
  {
    var d :- AsDict(v, "knowledge base item");
    var m :- ParseKbHead(d);
    ParseKbRest(d, m)
  }

  /** An item that gives only its id loads with every documented default. */
  lemma IdOnlyDefaults(d: Dict, id: string)
    requires id != "" && GetV(d, "kb_id") == VStr(id)
    requires !Has(d, "name") && !Has(d, "description") && !Has(d, "vector_store_type") && !Has(d, "embedding_model")
    requires !Has(d, "chunk_size") && !Has(d, "chunk_overlap") && !Has(d, "collection_name")
    requires !Has(d, "persist_directory") && !Has(d, "status") && !Has(d, "tags")
    requires !Has(d, "created_at") && !Has(d, "updated_at")
    ensures ParseKnowledgeBase(VObj(d)) ==
      Ok(KnowledgeBaseMetadata(id, id, "", "chromadb", "text-embedding-3-small", 1000, 200, None, None,
                               Active, [], None, None))
  {
  }

  /** `_has_id_field`. */
  predicate HasKbIdField(d: Dict)
  {
    Has(d, "kb_id") || Has(d, "id")
  }

  /** `_set_id_field`: writes `kb_id` only when it is absent. */
  function SetKbIdField(d: Dict, key: string): (r: Dict)
    ensures Has(d, "kb_id") ==> r == d
    ensures !Has(d, "kb_id") ==> Get(r, "kb_id") == Some(VStr(key))
    ensures forall k :: k != "kb_id" ==> Get(r, k) == Get(d, k)
  {
    if Has(d, "kb_id") then d else Put(d, "kb_id", VStr(key))
  }

  function KbHooks(): Declarative.Hooks<KnowledgeBaseMetadata>
  {
    Declarative.Hooks("knowledge_bases", ParseKnowledgeBase, HasKbIdField, SetKbIdField)
  }

  /** An optional timestamp as a value: an unset one is exported as null. */
  function OptTime(t: Option<int>): Value
  {
    if t.Some? then VInt(t.value) else VNull
  }

  /** `KnowledgeBaseMetadata.to_dict` over the fields the model keeps, in the source's key order. */
  function KbToDict(m: KnowledgeBaseMetadata): Value
  {
    VObj(KbHeadEntries(m) + KbRestEntries(m) + KbTimeEntries(m))
  }

  function KbHeadEntries(m: KnowledgeBaseMetadata): Dict
  {
    [("kb_id", VStr(m.kbId)), ("name", VStr(m.name)), ("description", VStr(m.description)),
     ("vector_store_type", VStr(m.vectorStoreType)), ("embedding_model", VStr(m.embeddingModel))]
  }

  function KbRestEntries(m: KnowledgeBaseMetadata): Dict
  {
    [("chunk_size", VInt(m.chunkSize)), ("chunk_overlap", VInt(m.chunkOverlap)),
     ("collection_name", OptValue(m.collectionName)), ("persist_directory", OptValue(m.persistDirectory)),
     ("status", VStr(StatusName(m.status)))]
  }

  function KbTimeEntries(m: KnowledgeBaseMetadata): Dict
  {
    [("tags", Strs(m.tags)), ("created_at", OptTime(m.createdAt)), ("updated_at", OptTime(m.updatedAt))]
  }

  /** The value under each key of an exported knowledge base. */
  function ExportedField(m: KnowledgeBaseMetadata, k: string): Option<Value>
  {
    if k == "kb_id" then Some(VStr(m.kbId))
    else if k == "name" then Some(VStr(m.name))
    else if k == "description" then Some(VStr(m.description))
    else if k == "vector_store_type" then Some(VStr(m.vectorStoreType))
    else if k == "embedding_model" then Some(VStr(m.embeddingModel))
    else if k == "chunk_size" then Some(VInt(m.chunkSize))
    else if k == "chunk_overlap" then Some(VInt(m.chunkOverlap))
    else if k == "collection_name" then Some(OptValue(m.collectionName))
    else if k == "persist_directory" then Some(OptValue(m.persistDirectory))
    else if k == "status" then Some(VStr(StatusName(m.status)))
    else if k == "tags" then Some(Strs(m.tags))
    else if k == "created_at" then Some(OptTime(m.createdAt))
    else if k == "updated_at" then Some(OptTime(m.updatedAt))
    else None
  }

  lemma HeadGet(m: KnowledgeBaseMetadata, k: string)
    ensures Get(KbHeadEntries(m), k) ==
      if k in ["kb_id", "name", "description", "vector_store_type", "embedding_model"] then ExportedField(m, k) else None
  {
    var d := KbHeadEntries(m);
    if k == "kb_id" { GetAt(d, 0); }
    else if k == "name" { GetAt(d, 1); }
    else if k == "description" { GetAt(d, 2); }
    else if k == "vector_store_type" { GetAt(d, 3); }
    else if k == "embedding_model" { GetAt(d, 4); }
    else { GetAbsent(d, k); }
  }

  lemma RestGet(m: KnowledgeBaseMetadata, k: string)
    ensures Get(KbRestEntries(m), k) ==
      if k in ["chunk_size", "chunk_overlap", "collection_name", "persist_directory", "status"] then ExportedField(m, k)
      else None
  {
    var d := KbRestEntries(m);
    if k == "chunk_size" { GetAt(d, 0); }
    else if k == "chunk_overlap" { GetAt(d, 1); }
    else if k == "collection_name" { GetAt(d, 2); }
    else if k == "persist_directory" { GetAt(d, 3); }
    else if k == "status" { GetAt(d, 4); }
    else { GetAbsent(d, k); }
  }

  lemma TimeGet(m: KnowledgeBaseMetadata, k: string)
    ensures Get(KbTimeEntries(m), k) == if k in ["tags", "created_at", "updated_at"] then ExportedField(m, k) else None
  {
    var d := KbTimeEntries(m);
    if k == "tags" { GetAt(d, 0); }
    else if k == "created_at" { GetAt(d, 1); }
    else if k == "updated_at" { GetAt(d, 2); }
    else { GetAbsent(d, k); }
  }

  lemma ExportGet(m: KnowledgeBaseMetadata, k: string)
    ensures Get(KbToDict(m).entries, k) == ExportedField(m, k)
  {
    HeadGet(m, k);
    RestGet(m, k);
    TimeGet(m, k);
    GetAppend(KbHeadEntries(m), KbRestEntries(m), k);
    GetAppend(KbHeadEntries(m) + KbRestEntries(m), KbTimeEntries(m), k);
  }

  /**
   * Records the round trip can reproduce: `or`-defaults cannot give back an
   * empty id or name, and an unset timestamp is exported as null, which the
   * loader refuses.
   */
  predicate Exportable(m: KnowledgeBaseMetadata)
  {
    m.kbId != "" && m.name != "" && m.createdAt.Some? && m.updatedAt.Some?
  }

  lemma ParseHeadOfExport(m: KnowledgeBaseMetadata)
    requires Exportable(m)
    ensures ParseKbHead(KbToDict(m).entries) == Ok(KnowledgeBaseMetadata(m.kbId, m.name, m.description,
      m.vectorStoreType, m.embeddingModel, 1000, 200, None, None, Active, [], None, None))
  {
    ExportGet(m, "kb_id"); ExportGet(m, "id"); ExportGet(m, "name"); ExportGet(m, "description");
    ExportGet(m, "vector_store_type"); ExportGet(m, "embedding_model");
  }

  lemma ParseRestOfExport(m: KnowledgeBaseMetadata, b: KnowledgeBaseMetadata)
    requires Exportable(m)
    ensures ParseKbRest(KbToDict(m).entries, b) == Ok(b.(chunkSize := m.chunkSize, chunkOverlap := m.chunkOverlap,
      collectionName := m.collectionName, persistDirectory := m.persistDirectory, status := m.status,
      tags := m.tags, createdAt := m.createdAt, updatedAt := m.updatedAt))
  {
    ExportGet(m, "chunk_size"); ExportGet(m, "chunk_overlap"); ExportGet(m, "collection_name");
    ExportGet(m, "persist_directory"); ExportGet(m, "status"); ExportGet(m, "tags");
    ExportGet(m, "created_at"); ExportGet(m, "updated_at");
    StrsRoundTrip(m.tags);
    StatusNamesRoundTrip(m.status);
  }

  /** Every exportable knowledge base loads back as itself. */
  lemma ExportThenLoad(m: KnowledgeBaseMetadata)
    requires Exportable(m)
    ensures ParseKnowledgeBase(KbToDict(m)) == Ok(m)
  {
    ParseHeadOfExport(m);
    ParseRestOfExport(m, KnowledgeBaseMetadata(m.kbId, m.name, m.description, m.vectorStoreType,
                                               m.embeddingModel, 1000, 200, None, None, Active, [], None, None));
  }

  /** A knowledge base exported before registration stamped it cannot be loaded back. */
  lemma UnstampedExportFails(m: KnowledgeBaseMetadata)
    requires m.kbId != "" && m.createdAt.None?
    ensures ParseKnowledgeBase(KbToDict(m)).Err?
  {
    ExportGet(m, "created_at");
    var d := KbToDict(m).entries;
    if ParseKbHead(d).Ok? {
      assert Has(d, "created_at") && GetV(d, "created_at") == VNull;
    }
  }

  /** Knowledge bases the registry has stamped, with a non-empty id and name, can be exported and loaded back. */
  lemma FilledExportable(m: KnowledgeBaseMetadata, now: int)
    requires m.kbId != "" && m.name != ""
    ensures Exportable(Filled(m, now))
  {
  }

  /** A document exported from exportable knowledge bases loads back as the same knowledge bases, in order. */
  lemma ExportedKnowledgeBasesLoadBack(items: seq<KnowledgeBaseMetadata>)
    requires forall m :: m in items ==> Exportable(m)
    ensures Declarative.LoadSpec(KbHooks(), VObj([("knowledge_bases", VList(Seqs.Map(KbToDict, items)))])) == Ok(items)
  {
    forall m | m in items
      ensures KbHooks().parse(KbToDict(m)) == Ok(m)
    {
      ExportThenLoad(m);
    }
    Declarative.ExportThenLoadDocument(KbHooks(), KbToDict, items);
  }

  /** Document metadata as the YAML loader keeps it; the free-form metadata dictionary is not modelled. */
  datatype DocumentMetadata = DocumentMetadata(
    documentId: string,
    kbId: string,
    title: string,
    source: string,
    documentType: string,
    contentLength: int,
    chunkCount: int,
    status: string,
    createdAt: Option<int>,
    updatedAt: Option<int>,
    indexedAt: Option<int>)

  /** The item names its document by a non-empty string under `document_id` or `id`. */
  predicate IdGiven(d: Dict)
  {
    var idv := Or(GetV(d, "document_id"), GetV(d, "id"));
    idv.VStr? && Truthy(idv)
  }

  /** Id and owning knowledge base: both are required. */
  function ParseDocHead(d: Dict): (r: Result<(string, string)>)
    ensures !Truthy(GetV(d, "document_id")) && !Truthy(GetV(d, "id")) ==> r == Err("Document 'document_id' is required")
    ensures IdGiven(d) && !Truthy(GetV(d, "kb_id")) ==> r == Err("Document 'kb_id' is required")
    ensures r.Ok? <==> IdGiven(d) && GetV(d, "kb_id").VStr? && Truthy(GetV(d, "kb_id"))
    ensures r.Ok? ==> VStr(r.value.0) == Or(GetV(d, "document_id"), GetV(d, "id")) && VStr(r.value.1) == GetV(d, "kb_id")
  {
    var idv := Or(GetV(d, "document_id"), GetV(d, "id"));
    if !Truthy(idv) then Err("Document 'document_id' is required")
    else
      var documentId :- AsStr(idv, "document_id");
      if !Truthy(GetV(d, "kb_id")) then Err("Document 'kb_id' is required")
      else
        var kbId :- AsStr(GetV(d, "kb_id"), "kb_id");
        Ok((documentId, kbId))
  }

  /** `DocumentYAMLLoader._parse_item`. */
  function ParseDocument(v: Value): (r: Result<DocumentMetadata>)
    ensures r.Ok? ==> v.VObj? && r.value.documentId != "" && r.value.kbId != ""
    ensures r.Ok? ==> ParseDocHead(v.entries) == Ok((r.value.documentId, r.value.kbId))
    ensures r.Ok? && !Has(v.entries, "document_type") ==> r.value.documentType == "txt"
    ensures r.Ok? && !Has(v.entries, "status") ==> r.value.status == "pending"
    ensures r.Ok? && !Has(v.entries, "content_length") ==> r.value.contentLength == 0
    ensures r.Ok? && !Has(v.entries, "chunk_count") ==> r.value.chunkCount == 0
    ensures r.Ok? ==> (r.value.indexedAt.Some? <==> Has(v.entries, "indexed_at"))
  {
    var d :- AsDict(v, "document item");
    var ids :- ParseDocHead(d);
    var title :- StrField(d, "title", "");
    var source :- StrField(d, "source", "");
    var documentType :- StrField(d, "document_type", "txt");
    var contentLength :- IntField(d, "content_length", 0);
    var chunkCount :- IntField(d, "chunk_count", 0);
    var status :- StrField(d, "status", "pending");
    var createdAt :- OptInstant(d, "created_at");
    var updatedAt :- OptInstant(d, "updated_at");
    var indexedAt :- OptInstant(d, "indexed_at");
    Ok(DocumentMetadata(ids.0, ids.1, title, source, documentType, contentLength, chunkCount, status,
                        createdAt, updatedAt, indexedAt))
  }

  /** A document item that names its id but no knowledge base is refused, whatever else it holds. */
  lemma DocumentNeedsKnowledgeBase(d: Dict)
    requires GetV(d, "document_id").VStr? && GetV(d, "document_id").s != "" && !Has(d, "kb_id")
    ensures ParseDocument(VObj(d)) == Err("Document 'kb_id' is required")
  {
  }

  /** `_has_id_field`. */
  predicate HasDocumentIdField(d: Dict)
  {
    Has(d, "document_id") || Has(d, "id")
  }

  /** `_set_id_field`: writes `document_id` only when it is absent. */
  function SetDocumentIdField(d: Dict, key: string): (r: Dict)
    ensures Has(d, "document_id") ==> r == d
    ensures !Has(d, "document_id") ==> Get(r, "document_id") == Some(VStr(key))
    ensures forall k :: k != "document_id" ==> Get(r, k) == Get(d, k)
  {
    if Has(d, "document_id") then d else Put(d, "document_id", VStr(key))
  }

  function DocumentHooks(): Declarative.Hooks<DocumentMetadata>
  {
    Declarative.Hooks("documents", ParseDocument, HasDocumentIdField, SetDocumentIdField)
  }
}
