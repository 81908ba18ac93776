// A knowledge base's documents: the document map, fixed-size chunking with
// overlap, indexing (whose embedding and vector-store calls are outcomes
// supplied by the caller) and the document summary the base reports.
module Knowledge {
  import opened Wrappers
  import opened Seqs
  import opened Listing
  import opened Values
  import Index
  import Text

  datatype DocumentStatus = Pending | Processing | Indexed | Error

  function StatusName(s: DocumentStatus): string
  {
    match s
    case Pending => "pending"
    case Processing => "processing"
    case Indexed => "indexed"
    case Error => "error"
  }

  /** A slice of a document's text; its embedding lives in the vector store and is not modelled. */
  datatype Chunk = Chunk(
    chunkId: string,
    documentId: string,
    content: string,
    metadata: map<string, string>,
    chunkIndex: nat,
    startChar: int,
    endChar: int)

  /** A document; metadata values are modelled as text. */
  datatype Document = Document(
    documentId: string,
    title: string,
    content: string,
    source: string,
    documentType: string,
    status: DocumentStatus,
    metadata: map<string, string>,
    chunks: seq<Chunk>,
    createdAt: int,
    updatedAt: int,
    indexedAt: Option<int>)

  function Min(a: int, b: int): int
  {
    if a <= b then a else b
  }

  /** The document's own metadata, overridden by its title, source and type. */
  function ChunkMetadata(doc: Document): (r: map<string, string>)
    ensures r.Keys == doc.metadata.Keys + {"title", "source", "document_type"}
    ensures r["title"] == doc.title && r["source"] == doc.source && r["document_type"] == doc.documentType
    ensures forall k :: k in doc.metadata && k !in {"title", "source", "document_type"} ==> r[k] == doc.metadata[k]
  {
    doc.metadata + map["title" := doc.title, "source" := doc.source, "document_type" := doc.documentType]
  }

  function ChunkId(documentId: string, index: nat): string
  {
    documentId + "_chunk_" + Text.NatToString(index)
  }

  function MakeChunk(doc: Document, index: nat, start: int, end: int, text: string): Chunk
  {
    Chunk(ChunkId(doc.documentId, index), doc.documentId, text, ChunkMetadata(doc), index, start, end)
  }

  /**
   * The chunks from `start` on, numbered from `index`, for a chunk size
   * larger than a non-negative overlap: each chunk is the next `size`
   * characters (fewer at the end), and the next one starts `overlap`
   * characters before this one ended, until a chunk reaches the end.
   */
  function ChunksFrom(doc: Document, size: int, overlap: int, start: nat, index: nat): seq<Chunk>
    requires 0 <= overlap < size
    decreases |doc.content| - start
  {
    if start >= |doc.content| then []
    else
      var end := Min(start + size, |doc.content|);
      [MakeChunk(doc, index, start, end, doc.content[start..end])]
        + (if end == |doc.content| then [] else ChunksFrom(doc, size, overlap, end - overlap, index + 1))
  }

  function Chunks(doc: Document, size: int, overlap: int): seq<Chunk>
    requires 0 <= overlap < size
  {
    ChunksFrom(doc, size, overlap, 0, 0)
  }

  /** One step of `ChunksFrom`: the chunk at `start`, then the chunks from where the next one starts. */
  lemma ChunksFromStep(doc: Document, size: int, overlap: int, start: nat, index: nat)
    requires 0 <= overlap < size && start < |doc.content|
    ensures var end := Min(start + size, |doc.content|);
      ChunksFrom(doc, size, overlap, start, index)
      == [MakeChunk(doc, index, start, end, doc.content[start..end])]
         + ChunksFrom(doc, size, overlap, if end == |doc.content| then end else end - overlap, index + 1)
  {
  }

  /** A chunk that stops short of the end holds `size` characters and is followed by the chunks from `overlap` before its end. */
  lemma ChunksFromFull(doc: Document, size: int, overlap: int, start: nat, index: nat)
    requires 0 <= overlap < size && start + size < |doc.content|
    ensures ChunksFrom(doc, size, overlap, start, index)
      == [MakeChunk(doc, index, start, start + size, doc.content[start..start + size])]
         + ChunksFrom(doc, size, overlap, start + size - overlap, index + 1)
  {
    ChunksFromStep(doc, size, overlap, start, index);
  }

  /** Chunk `i` of `doc` is the text between its offsets, named and numbered after `i`. */
  predicate ChunkOf(doc: Document, c: Chunk, i: nat)
  {
    && 0 <= c.startChar < c.endChar <= |doc.content|
    && c.content == doc.content[c.startChar..c.endChar]
    && c.chunkIndex == i && c.chunkId == ChunkId(doc.documentId, i)
    && c.documentId == doc.documentId && c.metadata == ChunkMetadata(doc)
  }

  /**
   * The chunks tile the text from `start`: numbered from `index`, the first
   * starts at `start`, the last ends at the end of the text, each but the
   * last holds exactly `size` characters and the next starts `overlap`
   * characters before it ends.
   */
  ghost predicate TilesFrom(doc: Document, size: int, overlap: int, start: nat, index: nat, cs: seq<Chunk>)
  {
    && (cs == [] <==> start >= |doc.content|)
    && (cs != [] ==> cs[0].startChar == start && cs[|cs| - 1].endChar == |doc.content|)
    && (forall i :: 0 <= i < |cs| ==> ChunkOf(doc, cs[i], index + i))
    && (forall i :: 0 <= i < |cs| - 1 ==>
          cs[i].endChar - cs[i].startChar == size && cs[i + 1].startChar == cs[i].endChar - overlap)
  }

  /** A full-size chunk followed by a tiling of the rest of the text is a tiling. */
  lemma TilesCons(doc: Document, size: int, overlap: int, start: nat, index: nat, head: Chunk, rest: seq<Chunk>)
    requires 0 <= overlap < size
    requires ChunkOf(doc, head, index) && head.startChar == start && head.endChar == start + size
    requires head.endChar < |doc.content| && head.endChar - overlap >= 0
    requires TilesFrom(doc, size, overlap, head.endChar - overlap, index + 1, rest)
    ensures TilesFrom(doc, size, overlap, start, index, [head] + rest)
  {
    ConsChunksOf(doc, index, head, rest);
    ConsSteps(size, overlap, head, rest);
  }

  /** Chunk `index` followed by chunks numbered from `index + 1` are numbered from `index`. */
  lemma ConsChunksOf(doc: Document, index: nat, head: Chunk, rest: seq<Chunk>)
    requires ChunkOf(doc, head, index) && forall i :: 0 <= i < |rest| ==> ChunkOf(doc, rest[i], index + 1 + i)
    ensures var cs := [head] + rest; forall i :: 0 <= i < |cs| ==> ChunkOf(doc, cs[i], index + i)
  {
    var cs := [head] + rest;
    forall i | 0 <= i < |cs| ensures ChunkOf(doc, cs[i], index + i) {
      if i > 0 { assert cs[i] == rest[i - 1]; }
    }
  }

  /** A full-size head whose successor starts `overlap` before its end keeps the spacing of the rest. */
  lemma ConsSteps(size: int, overlap: int, head: Chunk, rest: seq<Chunk>)
    requires head.endChar - head.startChar == size && rest != [] && rest[0].startChar == head.endChar - overlap
    requires forall i :: 0 <= i < |rest| - 1 ==>
      rest[i].endChar - rest[i].startChar == size && rest[i + 1].startChar == rest[i].endChar - overlap
    ensures var cs := [head] + rest; forall i :: 0 <= i < |cs| - 1 ==>
      cs[i].endChar - cs[i].startChar == size && cs[i + 1].startChar == cs[i].endChar - overlap
  {
    var cs := [head] + rest;
    forall i | 0 <= i < |cs| - 1
      ensures cs[i].endChar - cs[i].startChar == size && cs[i + 1].startChar == cs[i].endChar - overlap
    {
      if i > 0 { assert cs[i] == rest[i - 1] && cs[i + 1] == rest[i]; }
    }
  }

  /** The chunk the loop cuts at `start`. */
  lemma HeadChunk(doc: Document, size: int, start: nat, index: nat)
    requires size > 0 && start < |doc.content|
    ensures var end := Min(start + size, |doc.content|);
      ChunkOf(doc, MakeChunk(doc, index, start, end, doc.content[start..end]), index)
  {
  }

  /** A last chunk reaching the end of the text is a tiling by itself. */
  lemma TilesOne(doc: Document, size: int, overlap: int, start: nat, index: nat, head: Chunk)
    requires ChunkOf(doc, head, index) && head.startChar == start && head.endChar == |doc.content|
    ensures TilesFrom(doc, size, overlap, start, index, [head])
  {
  }

  /** A full-size chunk at `start` followed by a tiling of the rest of the text tiles the text from `start`. */
  lemma TileStep(doc: Document, size: int, overlap: int, start: nat, index: nat, rest: seq<Chunk>)
    requires 0 <= overlap < size && start + size < |doc.content|
    requires TilesFrom(doc, size, overlap, start + size - overlap, index + 1, rest)
    ensures TilesFrom(doc, size, overlap, start, index,
                      [MakeChunk(doc, index, start, start + size, doc.content[start..start + size])] + rest)
  {
    HeadChunk(doc, size, start, index);
    TilesCons(doc, size, overlap, start, index,
              MakeChunk(doc, index, start, start + size, doc.content[start..start + size]), rest);
  }

  /** A chunk that reaches the end of the text is the last one. */
  lemma TileLast(doc: Document, size: int, overlap: int, start: nat, index: nat)
    requires 0 <= overlap < size && start < |doc.content| <= start + size
    ensures TilesFrom(doc, size, overlap, start, index, ChunksFrom(doc, size, overlap, start, index))
  {
    var end := |doc.content|;
    var head := MakeChunk(doc, index, start, end, doc.content[start..end]);
    assert ChunksFrom(doc, size, overlap, start, index) == [head];
    HeadChunk(doc, size, start, index);
    TilesOne(doc, size, overlap, start, index, head);
  }

  lemma {:induction false} ChunksFromTile(doc: Document, size: int, overlap: int, start: nat, index: nat)
    requires 0 <= overlap < size
    ensures TilesFrom(doc, size, overlap, start, index, ChunksFrom(doc, size, overlap, start, index))
    decreases |doc.content| - start
  {
    if start + size < |doc.content| {
      ChunksFromTile(doc, size, overlap, start + size - overlap, index + 1);
      TileStep(doc, size, overlap, start, index, ChunksFrom(doc, size, overlap, start + size - overlap, index + 1));
      ChunksFromFull(doc, size, overlap, start, index);
    } else if start < |doc.content| {
      TileLast(doc, size, overlap, start, index);
    }
  }

  /** `_chunk_document`'s result tiles the whole text; empty text gives no chunks. */
  lemma ChunksTile(doc: Document, size: int, overlap: int)
    requires 0 <= overlap < size
    ensures TilesFrom(doc, size, overlap, 0, 0, Chunks(doc, size, overlap))
    ensures doc.content == [] <==> Chunks(doc, size, overlap) == []
  {
    ChunksFromTile(doc, size, overlap, 0, 0);
  }

  /** No character is lost: every position of the text lies inside some chunk. */
  lemma ChunksCover(doc: Document, size: int, overlap: int, p: int)
    requires 0 <= overlap < size && 0 <= p < |doc.content|
    ensures exists c :: c in Chunks(doc, size, overlap) && c.startChar <= p < c.endChar
  {
    var cs := Chunks(doc, size, overlap);
    ChunksTile(doc, size, overlap);
    var i := 0;
    while cs[i].endChar <= p
      invariant 0 <= i < |cs| && cs[i].startChar <= p
      decreases |cs| - i
    {
      i := i + 1;
    }
    assert cs[i] in cs;
  }

  /** Python's clamping of a slice bound: negative bounds count from the end. */
  function PyIndex(i: int, n: nat): (r: nat)
    ensures r <= n
    ensures 0 <= i <= n ==> r == i
  {
    if i < 0 then (if n + i < 0 then 0 else n + i) else if i > n then n else i
  }

  /** `s[i:j]`. */
  function PySlice(s: string, i: int, j: int): (r: string)
    ensures 0 <= i <= j <= |s| ==> r == s[i..j]
  {
    var a, b := PyIndex(i, |s|), PyIndex(j, |s|);
    if a < b then s[a..b] else []
  }

  /**
   * `_chunk_document` as written, for any size and overlap: after each chunk
   * the next start is `end - overlap`. Loops are bounded by `fuel`; `None`
   * means the loop had not finished after `fuel` iterations.
   */
  function ChunksAsWritten(doc: Document, size: int, overlap: int, start: int, index: nat, fuel: nat)
    : Option<seq<Chunk>>
    decreases fuel
  {
    if start >= |doc.content| then Some([])
    else if fuel == 0 then None
    else
      var end := Min(start + size, |doc.content|);
      match ChunksAsWritten(doc, size, overlap, end - overlap, index + 1, fuel - 1)
      case None => None
      case Some(rest) => Some([MakeChunk(doc, index, start, end, PySlice(doc.content, start, end))] + rest)
  }

  lemma {:induction false} OverlapNeverFinishesFrom(doc: Document, size: int, overlap: int, start: int, index: nat,
                                                    fuel: nat)
    requires overlap > 0 && start < |doc.content|
    ensures ChunksAsWritten(doc, size, overlap, start, index, fuel) == None
    decreases fuel
  {
    if fuel > 0 {
      var end := Min(start + size, |doc.content|);
      OverlapNeverFinishesFrom(doc, size, overlap, end - overlap, index + 1, fuel - 1);
    }
  }

  /**
   * With any positive overlap the loop as written never ends on a non-empty
   * text: once a chunk reaches the end, the next start is `overlap`
   * characters before it, still inside the text.
   */
  lemma OverlapNeverFinishes(doc: Document, size: int, overlap: int, fuel: nat)
    requires overlap > 0 && doc.content != []
    ensures ChunksAsWritten(doc, size, overlap, 0, 0, fuel) == None
  {
    OverlapNeverFinishesFrom(doc, size, overlap, 0, 0, fuel);
  }

  /** Without overlap the loop as written ends and yields the chunks the corrected loop yields. */
  lemma {:induction false} AsWrittenWithoutOverlap(doc: Document, size: int, start: nat, index: nat, fuel: nat)
    requires size > 0 && fuel > |doc.content| - start
    ensures ChunksAsWritten(doc, size, 0, start, index, fuel) == Some(ChunksFrom(doc, size, 0, start, index))
    decreases |doc.content| - start
  {
    var n := |doc.content|;
    if start < n {
      var end := Min(start + size, n);
      AsWrittenWithoutOverlap(doc, size, end, index + 1, fuel - 1);
    }
  }

  /**
   * What indexing leaves in a document: its chunks, then either Indexed with
   * both stamps, or Error with the failure recorded under "error" when
   * embedding or storing raised `failure`.
   */
  function IndexedDoc(doc: Document, size: int, overlap: int, now: int, failure: Option<string>): (r: Document)
    requires 0 <= overlap < size
    ensures r.chunks == Chunks(doc, size, overlap)
    ensures r.(chunks := doc.chunks, status := doc.status, metadata := doc.metadata, updatedAt := doc.updatedAt,
               indexedAt := doc.indexedAt) == doc
    ensures failure.None? ==> r.status == Indexed && r.indexedAt == Some(now) && r.updatedAt == now
    ensures failure.Some? ==> r.status == Error && r.metadata == doc.metadata["error" := failure.value]
                              && r.updatedAt == doc.updatedAt && r.indexedAt == doc.indexedAt
  {
    var chunked := doc.(chunks := Chunks(doc, size, overlap));
    if failure.None? then chunked.(status := Indexed, indexedAt := Some(now), updatedAt := now)
    else chunked.(status := Error, metadata := doc.metadata["error" := failure.value])
  }

  /** `update_document`'s edits: a missing or empty title or content leaves that field as it was. */
  function Edited(doc: Document, title: Option<string>, content: Option<string>, metadata: map<string, string>,
                  now: int): (r: Document)
    ensures title.None? || title == Some("") ==> r.title == doc.title
    ensures title.Some? && title.value != "" ==> r.title == title.value
    ensures content.None? || content == Some("") ==> r.content == doc.content
    ensures content.Some? && content.value != "" ==> r.content == content.value
    ensures r.metadata.Keys == doc.metadata.Keys + metadata.Keys
    ensures forall k :: k in metadata ==> r.metadata[k] == metadata[k]
    ensures r.updatedAt == now && r.documentId == doc.documentId
    ensures r.(title := doc.title, content := doc.content, metadata := doc.metadata, updatedAt := doc.updatedAt) == doc
  {
    doc.(title := if title.Some? && title.value != "" then title.value else doc.title,
         content := if content.Some? && content.value != "" then content.value else doc.content,
         metadata := doc.metadata + metadata,
         updatedAt := now)
  }

  /** After an update with new content and a successful re-index, the chunks tile the new content. */
  lemma UpdateReindexes(doc: Document, title: Option<string>, text: string, metadata: map<string, string>,
                        now: int, size: int, overlap: int)
    requires 0 <= overlap < size && text != ""
    ensures var d := IndexedDoc(Edited(doc, title, Some(text), metadata, now), size, overlap, now, None);
      d.content == text && d.status == Indexed && TilesFrom(d, size, overlap, 0, 0, d.chunks)
  {
    var e := Edited(doc, title, Some(text), metadata, now);
    ChunksTile(e, size, overlap);
    ChunksTiledAlike(e, IndexedDoc(e, size, overlap, now, None), size, overlap);
  }

  /** Tiling depends only on the text, id and chunk metadata of a document. */
  lemma ChunksTiledAlike(a: Document, b: Document, size: int, overlap: int)
    requires a.content == b.content && a.documentId == b.documentId && ChunkMetadata(a) == ChunkMetadata(b)
    requires 0 <= overlap < size && TilesFrom(a, size, overlap, 0, 0, Chunks(a, size, overlap))
    ensures TilesFrom(b, size, overlap, 0, 0, Chunks(a, size, overlap))
  {
    var cs := Chunks(a, size, overlap);
    forall i | 0 <= i < |cs| ensures ChunkOf(b, cs[i], i) {
      assert ChunkOf(a, cs[i], i);
    }
  }

  lemma UpdateTwice<V>(m: map<string, V>, k: string, a: V, b: V)
    ensures m[k := a][k := b] == m[k := b]
  {
  }

  /** The filters of `list_documents`; an empty type filter lets every type through. */
  predicate Keep(d: Document, documentType: Option<string>, status: Option<DocumentStatus>)
  {
    && (documentType.Some? && documentType.value != "" ==> d.documentType == documentType.value)
    && (status.Some? ==> d.status == status.value)
  }

  function KeepFor(documentType: Option<string>, status: Option<DocumentStatus>): Document -> bool
  {
    (d: Document) => Keep(d, documentType, status)
  }

  /** `content[:100] + "..."` for a long text, the text itself otherwise. */
  function Preview(content: string): (r: string)
    ensures |content| <= 100 ==> r == content
    ensures |content| > 100 ==> |r| == 103 && r[..100] == content[..100] && r[100..] == "..."
  {
    if |content| > 100 then content[..100] + "..." else content
  }

  function OptTime(t: Option<int>): Value
  {
    if t.Some? then VInt(t.value) else VNull
  }

  /** `Document.to_dict` without the free-form metadata, in the source's key order. */
  function ToDict(d: Document): Value
  {
    VObj(DescriptionEntries(d) + StateEntries(d))
  }

  function DescriptionEntries(d: Document): Dict
  {
    [("document_id", VStr(d.documentId)), ("title", VStr(d.title)), ("content", VStr(Preview(d.content))),
     ("source", VStr(d.source)), ("document_type", VStr(d.documentType))]
  }

  function StateEntries(d: Document): Dict
  {
    [("status", VStr(StatusName(d.status))), ("chunk_count", VInt(|d.chunks|)), ("created_at", VInt(d.createdAt)),
     ("updated_at", VInt(d.updatedAt)), ("indexed_at", OptTime(d.indexedAt))]
  }

  /** The summary shows the text's first hundred characters and counts the chunks. */
  lemma SummaryShowsPreview(d: Document)
    ensures Get(ToDict(d).entries, "content") == Some(VStr(Preview(d.content)))
    ensures Get(ToDict(d).entries, "chunk_count") == Some(VInt(|d.chunks|))
  {
    GetAt(DescriptionEntries(d), 2);
    GetAppend(DescriptionEntries(d), StateEntries(d), "content");
    GetAbsent(DescriptionEntries(d), "chunk_count");
    GetAt(StateEntries(d), 1);
    GetAppend(DescriptionEntries(d), StateEntries(d), "chunk_count");
  }

  class KnowledgeBase {
    const name: string
    const chunkSize: int
    const chunkOverlap: int
    var documents: map<string, Document>
    /** The insertion order of `documents`, which `list_documents` follows. */
    var order: seq<string>

    ghost predicate Valid()
      reads this
    {
      && Index.Ordered(order, documents)
      && (forall id :: id in documents ==> documents[id].documentId == id)
      && 0 <= chunkOverlap < chunkSize
    }

    /** The chunking parameters must let the chunking loop advance: the source does not check them. */
    constructor (name: string, chunkSize: int, chunkOverlap: int)
      requires 0 <= chunkOverlap < chunkSize
      ensures Valid() && documents == map[]
      ensures this.name == name && this.chunkSize == chunkSize && this.chunkOverlap == chunkOverlap
    {
      this.name := name;
      this.chunkSize := chunkSize;
      this.chunkOverlap := chunkOverlap;
      documents, order := map[], [];
    }

    /** `_chunk_document`, with the loop stopping once a chunk reaches the end of the text. */
    method ChunkDocument(doc: Document) returns (chunks: seq<Chunk>)
      requires 0 <= chunkOverlap < chunkSize
      ensures chunks == Chunks(doc, chunkSize, chunkOverlap)
    {
      var size, overlap := chunkSize, chunkOverlap;
      chunks := [];
      var start: nat := 0;
      var index: nat := 0;
      while start < |doc.content|
        invariant start <= |doc.content|
        invariant chunks + ChunksFrom(doc, size, overlap, start, index) == Chunks(doc, size, overlap)
        decreases |doc.content| - start
      {
        var end := Min(start + size, |doc.content|);
        var chunk := MakeChunk(doc, index, start, end, doc.content[start..end]);
        var next := if end == |doc.content| then end else end - overlap;
        ChunksFromStep(doc, size, overlap, start, index);
        SnocAppend(chunks, chunk, ChunksFrom(doc, size, overlap, next, index + 1));
        chunks := chunks + [chunk];
        start := next;
        index := index + 1;
      }
    }

    function GetDocument(documentId: string): (r: Option<Document>)
      reads this
      ensures r.Some? <==> documentId in documents
      ensures r.Some? ==> r.value == documents[documentId]
    {
      if documentId in documents then Some(documents[documentId]) else None
    }

    /**
     * `index_document`: chunks the document and records the outcome of
     * embedding and storing its chunks (`failure`); an unknown id gives false.
     */
    method IndexDocument(documentId: string, now: int, failure: Option<string>) returns (ok: bool)
      requires Valid()
      modifies this
      ensures Valid()
      ensures ok <==> documentId in old(documents) && failure.None?
      ensures documentId !in old(documents) ==> unchanged(this)
      ensures documentId in old(documents) ==>
        && documents == old(documents)[documentId := IndexedDoc(old(documents)[documentId], chunkSize, chunkOverlap, now, failure)]
        && order == old(order)
    {
      if documentId !in documents {
        return false;
      }
      var doc := documents[documentId];
      var chunks := ChunkDocument(doc);
      var d := doc.(chunks := chunks);
      if failure.None? {
        d := d.(status := Indexed, indexedAt := Some(now), updatedAt := now);
        ok := true;
      } else {
        d := d.(status := Error, metadata := doc.metadata["error" := failure.value]);
        ok := false;
      }
      documents := documents[documentId := d];
      assert Index.Ordered(order, documents) by {
        assert forall x :: x in documents <==> x in old(documents);
      }
    }

    /**
     * `add_document`: stores a new pending document under the pending id the
     * caller drew and, with `autoIndex`, indexes it at once.
     */
    method AddDocument(documentId: string, title: string, content: string, source: string, documentType: string,
                       metadata: map<string, string>, autoIndex: bool, now: int, failure: Option<string>)
      returns (doc: Document)
      requires Valid()
      modifies this
      ensures Valid()
      ensures var pending := Document(documentId, title, content, source, documentType, Pending, metadata, [], now, now, None);
        documents == old(documents)[documentId := if autoIndex then IndexedDoc(pending, chunkSize, chunkOverlap, now, failure) else pending]
      ensures order == if documentId in old(documents) then old(order) else old(order) + [documentId]
      ensures doc == documents[documentId]
    {
      var pending := Document(documentId, title, content, source, documentType, Pending, metadata, [], now, now, None);
      if documentId !in documents {
        Index.OrderedAppend(order, documents, documentId, pending);
        order := order + [documentId];
      }
      documents := documents[documentId := pending];
      assert Index.Ordered(order, documents);
      if autoIndex {
        var _ := IndexDocument(documentId, now, failure);
        UpdateTwice(old(documents), documentId, pending, IndexedDoc(pending, chunkSize, chunkOverlap, now, failure));
      }
      doc := documents[documentId];
    }

    /** `list_documents`: the documents, in insertion order, that pass both filters. */
    method ListDocuments(documentType: Option<string>, status: Option<DocumentStatus>) returns (result: seq<Document>)
      ensures result == Pick(documents, order, KeepFor(documentType, status))
    {
      result := Collect(documents, order, KeepFor(documentType, status));
    }

    /**
     * `delete_document`: removing an unknown id gives false. The chunks of a
     * chunked document are deleted from the vector store first; `failure` is
     * that call's outcome, and when it raises the document stays and the
     * error propagates.
     */
    method DeleteDocument(documentId: string, failure: Option<string>) returns (r: Result<bool>)
      requires Valid()
      modifies this
      ensures Valid()
      ensures documentId !in old(documents) ==> r == Ok(false) && unchanged(this)
      ensures documentId in old(documents) && old(documents)[documentId].chunks != [] && failure.Some? ==>
        r == Err(failure.value) && unchanged(this)
      ensures r == Ok(true) <==> documentId in old(documents) && (old(documents)[documentId].chunks == [] || failure.None?)
      ensures r == Ok(true) ==>
        documents == old(documents) - {documentId} && order == RemoveFirst(old(order), documentId)
    {
      if documentId !in documents {
        return Ok(false);
      }
      if documents[documentId].chunks != [] && failure.Some? {
        return Err(failure.value);
      }
      Index.OrderedRemove(order, documents, documentId);
      documents, order := documents - {documentId}, RemoveFirst(order, documentId);
      return Ok(true);
    }

    /**
     * `update_document`: edits the document, then re-indexes it when asked;
     * an unknown id gives false. Deleting the old chunks from the vector
     * store (`deleteFailure` when it raises) is outside any try, so a failure
     * keeps the edits, skips the re-index and is raised.
     */
    method UpdateDocument(documentId: string, title: Option<string>, content: Option<string>,
                          metadata: map<string, string>, reindex: bool, now: int,
                          deleteFailure: Option<string>, failure: Option<string>)
      returns (r: Result<bool>)
      requires Valid()
      modifies this
      ensures Valid()
      ensures documentId !in old(documents) ==> r == Ok(false) && unchanged(this)
      ensures documentId in old(documents) ==>
        var e := Edited(old(documents)[documentId], title, content, metadata, now);
        var refused := reindex && old(documents)[documentId].chunks != [] && deleteFailure.Some?;
        && order == old(order)
        && (refused ==> r == Err(deleteFailure.value) && documents == old(documents)[documentId := e])
        && (!refused ==>
              && r == Ok(true)
              && documents == old(documents)[documentId :=
                   if reindex then IndexedDoc(e, chunkSize, chunkOverlap, now, failure) else e])
    {
      if documentId !in documents {
        return Ok(false);
      }
      var e := Edited(documents[documentId], title, content, metadata, now);
      documents := documents[documentId := e];
      assert Index.Ordered(order, documents) by {
        assert forall x :: x in documents <==> x in old(documents);
      }
      if reindex {
        if e.chunks != [] && deleteFailure.Some? {
          return Err(deleteFailure.value);
        }
        var _ := IndexDocument(documentId, now, failure);
        UpdateTwice(old(documents), documentId, e, IndexedDoc(e, chunkSize, chunkOverlap, now, failure));
      }
      return Ok(true);
    }
  }

  /** `list_documents` returns exactly the stored documents that pass both filters. */
  lemma ListDocumentsExact(documents: map<string, Document>, order: seq<string>, documentType: Option<string>,
                           status: Option<DocumentStatus>, d: Document)
    requires Index.Ordered(order, documents)
    ensures d in Pick(documents, order, KeepFor(documentType, status)) <==> d in documents.Values && Keep(d, documentType, status)
  {
    if d in documents.Values && Keep(d, documentType, status) {
      var id :| id in documents && documents[id] == d;
      PickComplete(documents, order, KeepFor(documentType, status), id);
    }
  }
}
