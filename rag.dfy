/**
 * The retrieval-augmented-generation library: PDF ingestion into the vector
 * index (batched embedding, one upsert with per-chunk metadata), retrieval of
 * passages for a query, and the index status record.
 *
 * The embedding service and the vector store are parameters: an embedder maps
 * a batch of texts to a batch of vectors or fails (None stands for a thrown
 * error), the store answers an upsert with success or failure and a query
 * with raw hits or failure.
 */
module Rag {
  import opened Wrappers
  import opened Text

  const IndexName: string := "knowledge_embeddings_v4"
  const EmbeddingDimension: nat := 768
  const EmbeddingModel: string := "text-embedding-004"
  const Provider: string := "PgVector"
  /** Chunks per embedding request. */
  const BatchSize: nat := 30
  const DefaultTopK: int := 5
  const AlreadyExists: string := "already exists"

  /** An embedding; its values are never inspected. */
  type Vector = seq<real>
  type Embedder = seq<string> -> Option<seq<Vector>>

  /** A chunk produced by the document chunker (the chunker itself is not modelled). */
  datatype Chunk = Chunk(text: string)
  datatype ChunkMetadata = ChunkMetadata(text: string, source: string, chunkId: string)
  /** The single `upsert` call that ingestion makes. */
  datatype Upsert = Upsert(indexName: string, vectors: seq<Vector>, metadata: seq<ChunkMetadata>)
  /** The `{ indexName, dimension }` argument of `createIndex`. */
  datatype IndexRequest = IndexRequest(indexName: string, dimension: nat)
  datatype CreateIndexOutcome = IndexCreated | IndexCreateFailed(message: Option<string>)
  datatype IngestOutcome =
    | Ingested(chunkCount: nat, request: Upsert)
    | EmbedFailed
    | UpsertFailed(request: Upsert)

  function Min(a: int, b: int): int
  {
    if a <= b then a else b
  }

  // ---------------------------------------------------------------------
  // Index creation

  /** The note logged when `createIndex` throws; None when nothing is logged. */
  function IndexNote(outcome: CreateIndexOutcome): (note: Option<string>)
  {
    match outcome
    case IndexCreated => None
    case IndexCreateFailed(message) =>
      if message.Some? && Contains(message.value, AlreadyExists) then None
      else Some("Index note: " + (if message.Some? then message.value else "undefined"))
  }

  /** A failure is logged exactly when its message is missing or lacks "already exists". */
  lemma IndexNoteLogged(outcome: CreateIndexOutcome)
    ensures IndexNote(outcome).Some? <==>
      outcome.IndexCreateFailed? &&
      !(outcome.message.Some? && Contains(outcome.message.value, AlreadyExists))
    ensures IndexNote(outcome).Some? && outcome.message.Some? ==>
      EndsWith(IndexNote(outcome).value, outcome.message.value)
  {
  }

  // ---------------------------------------------------------------------
  // Batching

  function Texts(chunks: seq<Chunk>): (texts: seq<string>)
    ensures |texts| == |chunks|
    ensures forall i :: 0 <= i < |chunks| ==> texts[i] == chunks[i].text
  {
    seq(|chunks|, i requires 0 <= i < |chunks| => chunks[i].text)
  }

  /** The embedding batches: consecutive groups of BatchSize texts, the last one shorter. */
  function Batches(texts: seq<string>): seq<seq<string>>
    decreases |texts|
  {
    if |texts| == 0 then []
    else if |texts| <= BatchSize then [texts]
    else [texts[..BatchSize]] + Batches(texts[BatchSize..])
  }

  function Flatten(bs: seq<seq<string>>): seq<string>
    decreases |bs|
  {
    if |bs| == 0 then [] else bs[0] + Flatten(bs[1..])
  }

  /** There are ceil(n / BatchSize) batches. */
  lemma {:induction false} BatchCount(texts: seq<string>)
    ensures |Batches(texts)| == (|texts| + BatchSize - 1) / BatchSize
    decreases |texts|
  {
    if |texts| > BatchSize {
      BatchCount(texts[BatchSize..]);
    }
  }

  /** Batch k is the slice [k * BatchSize, min((k + 1) * BatchSize, n)); it is never empty. */
  lemma {:induction false} BatchSlice(texts: seq<string>, k: nat)
    requires k < |Batches(texts)|
    ensures BatchSize * k < |texts|
    ensures Batches(texts)[k] == texts[BatchSize * k .. Min(BatchSize * k + BatchSize, |texts|)]
    ensures 0 < |Batches(texts)[k]| <= BatchSize
    decreases k
  {
    if k > 0 {
      var rest := texts[BatchSize..];
      BatchSlice(rest, k - 1);
      assert texts[BatchSize * k .. Min(BatchSize * k + BatchSize, |texts|)]
          == rest[BatchSize * (k - 1) .. Min(BatchSize * (k - 1) + BatchSize, |rest|)];
    }
  }

  /** Concatenating the batches gives back the texts, in order. */
  lemma {:induction false} BatchesFlatten(texts: seq<string>)
    ensures Flatten(Batches(texts)) == texts
    decreases |texts|
  {
    if |texts| > BatchSize {
      BatchesFlatten(texts[BatchSize..]);
      assert Batches(texts)[1..] == Batches(texts[BatchSize..]);
      assert texts == texts[..BatchSize] + texts[BatchSize..];
    } else if |texts| > 0 {
      assert Batches(texts)[1..] == [];
    }
  }

  // ---------------------------------------------------------------------
  // Embedding accumulation

  predicate AllEmbedded(bs: seq<seq<string>>, embed: Embedder)
  {
    forall k :: 0 <= k < |bs| ==> embed(bs[k]).Some?
  }

  /** Every embedding call answers with one vector per input text. */
  predicate OneVectorPerInput(bs: seq<seq<string>>, embed: Embedder)
  {
    forall k :: 0 <= k < |bs| ==> embed(bs[k]).Some? && |embed(bs[k]).value| == |bs[k]|
  }

  /** The vectors of all batches, appended in batch order. */
  function Vectors(bs: seq<seq<string>>, embed: Embedder): seq<Vector>
    requires AllEmbedded(bs, embed)
    decreases |bs|
  {
    if |bs| == 0 then [] else embed(bs[0]).value + Vectors(bs[1..], embed)
  }

  lemma {:induction false} VectorsSnoc(bs: seq<seq<string>>, b: seq<string>, embed: Embedder)
    requires AllEmbedded(bs + [b], embed)
    ensures AllEmbedded(bs, embed) && embed(b).Some?
    ensures Vectors(bs + [b], embed) == Vectors(bs, embed) + embed(b).value
    decreases |bs|
  {
    assert forall k :: 0 <= k < |bs| ==> (bs + [b])[k] == bs[k];
    assert (bs + [b])[|bs|] == b;
    if |bs| > 0 {
      assert (bs + [b])[1..] == bs[1..] + [b];
      VectorsSnoc(bs[1..], b, embed);
    }
  }

  /**
   * When every call returns one vector per input, there is one vector per
   * text, and the vector at the global position of input j of call k is the
   * j-th vector that call returned, while the text there is that input.
   */
  lemma {:induction false} VectorsAligned(texts: seq<string>, embed: Embedder, k: nat, j: nat)
    requires OneVectorPerInput(Batches(texts), embed)
    requires k < |Batches(texts)| && j < |Batches(texts)[k]|
    ensures BatchSize * k + j < |texts|
    ensures Batches(texts)[k][j] == texts[BatchSize * k + j]
    ensures |Vectors(Batches(texts), embed)| == |texts|
    ensures Vectors(Batches(texts), embed)[BatchSize * k + j] == embed(Batches(texts)[k]).value[j]
    decreases k
  {
    var bs := Batches(texts);
    VectorsLength(texts, embed);
    if |texts| <= BatchSize {
      assert bs == [texts];
    } else {
      var rest := texts[BatchSize..];
      assert bs[1..] == Batches(rest);
      assert |embed(bs[0]).value| == BatchSize;
      if k > 0 {
        assert bs[k] == Batches(rest)[k - 1];
        assert forall m :: 0 <= m < |Batches(rest)| ==> Batches(rest)[m] == bs[m + 1];
        VectorsAligned(rest, embed, k - 1, j);
        assert BatchSize * k + j == BatchSize + (BatchSize * (k - 1) + j);
      }
    }
  }

  lemma {:induction false} VectorsLength(texts: seq<string>, embed: Embedder)
    requires OneVectorPerInput(Batches(texts), embed)
    ensures |Vectors(Batches(texts), embed)| == |texts|
    decreases |texts|
  {
    var bs := Batches(texts);
    if |texts| > BatchSize {
      var rest := texts[BatchSize..];
      assert bs[1..] == Batches(rest);
      assert forall k :: 0 <= k < |Batches(rest)| ==> Batches(rest)[k] == bs[k + 1];
      VectorsLength(rest, embed);
    } else if |texts| > 0 {
      assert bs[1..] == [];
    }
  }

  // ---------------------------------------------------------------------
  // Metadata records

  function ChunkId(source: string, i: nat): string
  {
    source + "-" + NatToString(i)
  }

  /** The metadata list handed to `upsert`, parallel to the chunks. */
  function Metadata(source: string, chunks: seq<Chunk>): (meta: seq<ChunkMetadata>)
    ensures |meta| == |chunks|
    ensures forall i :: 0 <= i < |chunks| ==> meta[i] == ChunkMetadata(chunks[i].text, source, ChunkId(source, i))
  {
    seq(|chunks|, i requires 0 <= i < |chunks| => ChunkMetadata(chunks[i].text, source, ChunkId(source, i)))
  }

  /** Chunk identifiers are pairwise distinct within one ingestion. */
  lemma ChunkIdsDistinct(source: string, chunks: seq<Chunk>, i: nat, j: nat)
    requires i < j < |chunks|
    ensures Metadata(source, chunks)[i].chunkId != Metadata(source, chunks)[j].chunkId
  {
    if ChunkId(source, i) == ChunkId(source, j) {
      assert source + "-" + NatToString(i) == (source + "-") + NatToString(i);
      assert source + "-" + NatToString(j) == (source + "-") + NatToString(j);
      PrefixCancel(source + "-", NatToString(i), NatToString(j));
      NatToStringInjective(i, j);
    }
  }

  /**
   * With one vector per input, the upsert's vector and metadata lists have the
   * same length, and at the global position of input j of call k both the
   * vector and the metadata belong to the chunk that was that input.
   */
  lemma UpsertAligned(source: string, chunks: seq<Chunk>, embed: Embedder, k: nat, j: nat)
    requires OneVectorPerInput(Batches(Texts(chunks)), embed)
    requires k < |Batches(Texts(chunks))| && j < |Batches(Texts(chunks))[k]|
    ensures BatchSize * k + j < |chunks|
    ensures |Vectors(Batches(Texts(chunks)), embed)| == |Metadata(source, chunks)|
    ensures Batches(Texts(chunks))[k][j] == chunks[BatchSize * k + j].text
    ensures Metadata(source, chunks)[BatchSize * k + j] ==
      ChunkMetadata(Batches(Texts(chunks))[k][j], source, ChunkId(source, BatchSize * k + j))
    ensures Vectors(Batches(Texts(chunks)), embed)[BatchSize * k + j] == embed(Batches(Texts(chunks))[k]).value[j]
  {
    VectorsAligned(Texts(chunks), embed, k, j);
  }

  /** The batches reach the end of the texts. */
  lemma {:induction false} BatchesCover(texts: seq<string>)
    ensures BatchSize * |Batches(texts)| >= |texts|
    decreases |texts|
  {
    if |texts| > BatchSize {
      BatchesCover(texts[BatchSize..]);
    }
  }

  /** The chunks of batch k, mapped to their texts, are batch k. */
  lemma NextBatch(chunks: seq<Chunk>, k: nat)
    requires k < |Batches(Texts(chunks))|
    ensures BatchSize * k < |chunks|
    ensures Texts(chunks[BatchSize * k .. Min(BatchSize * k + BatchSize, |chunks|)]) == Batches(Texts(chunks))[k]
  {
    BatchSlice(Texts(chunks), k);
  }

  // ---------------------------------------------------------------------
  // Ingestion

  /**
   * Ingest one document's chunks: try to create the index (any failure is
   * swallowed), embed the chunk texts batch by batch, stopping at the first
   * failed call, then upsert all vectors with their metadata in one call.
   * `calls` records the inputs of the embedding calls in order, `note` the
   * index note that is logged.
   */
  method IngestPdf(source: string, chunks: seq<Chunk>, createIndex: IndexRequest -> CreateIndexOutcome,
                   embed: Embedder, store: Upsert -> bool)
    returns (outcome: IngestOutcome, indexRequest: IndexRequest, calls: seq<seq<string>>, note: Option<string>)
    ensures indexRequest == IndexRequest(IndexName, EmbeddingDimension)
    ensures note == IndexNote(createIndex(indexRequest))
    ensures |calls| <= |Batches(Texts(chunks))| && calls == Batches(Texts(chunks))[..|calls|]
    ensures forall k :: 0 <= k < |calls| - 1 ==> embed(calls[k]).Some?
    ensures outcome.EmbedFailed? ==> |calls| > 0 && embed(calls[|calls| - 1]).None?
    ensures !outcome.EmbedFailed? ==>
      calls == Batches(Texts(chunks)) &&
      |calls| == (|chunks| + BatchSize - 1) / BatchSize &&
      AllEmbedded(calls, embed) &&
      outcome.request == Upsert(IndexName, Vectors(calls, embed), Metadata(source, chunks)) &&
      outcome.request.indexName == indexRequest.indexName
    ensures outcome.Ingested? <==> !outcome.EmbedFailed? && store(outcome.request)
    ensures outcome.Ingested? ==> outcome.chunkCount == |chunks|
    ensures |chunks| == 0 ==> calls == [] && !outcome.EmbedFailed?
  {
    indexRequest := IndexRequest(IndexName, EmbeddingDimension);
    note := IndexNote(createIndex(indexRequest));
    ghost var batches := Batches(Texts(chunks));
    BatchesCover(Texts(chunks));
    var allEmbeddings: seq<Vector> := [];
    calls := [];
    var i := 0;
    while i < |chunks|
      invariant |calls| <= |batches| && calls == batches[..|calls|]
      invariant i == BatchSize * |calls|
      invariant AllEmbedded(calls, embed)
      invariant allEmbeddings == Vectors(calls, embed)
      decreases |batches| - |calls|
    {
      NextBatch(chunks, |calls|);
      var batchChunks := chunks[i..Min(i + BatchSize, |chunks|)];
      var values := Texts(batchChunks);
      ghost var done := calls;
      assert batches[..|done| + 1] == done + [values];
      calls := calls + [values];
      var reply := embed(values);
      if reply.None? {
        outcome := EmbedFailed;
        return;
      }
      VectorsSnoc(done, values, embed);
      allEmbeddings := allEmbeddings + reply.value;
      i := i + BatchSize;
    }
    BatchCount(Texts(chunks));
    assert calls == batches;
    var request := Upsert(IndexName, allEmbeddings, Metadata(source, chunks));
    if store(request) {
      outcome := Ingested(|chunks|, request);
    } else {
      outcome := UpsertFailed(request);
    }
  }

  // ---------------------------------------------------------------------
  // Retrieval

  datatype RawMetadata = RawMetadata(text: Option<string>, source: Option<string>)
  /** A hit as the vector store returns it; any field may be missing. */
  datatype RawHit = RawHit(metadata: Option<RawMetadata>, score: Option<real>)
  datatype Passage = Passage(text: string, score: real, source: string)
  datatype SourceFilter = SourceFilter(source: string)
  datatype VectorQuery = VectorQuery(indexName: string, queryVector: Vector, topK: int, filter: Option<SourceFilter>)
  type VectorSearch = VectorQuery -> Option<seq<RawHit>>

  function HitText(h: RawHit): Option<string>
  {
    if h.metadata.Some? then h.metadata.value.text else None
  }

  function HitSource(h: RawHit): Option<string>
  {
    if h.metadata.Some? then h.metadata.value.source else None
  }

  /** One raw hit as a passage, with '' / 0 / 'unknown' for falsy fields. */
  function ShapeHit(h: RawHit): (p: Passage)
    ensures Truthy(HitText(h)) ==> p.text == HitText(h).value
    ensures !Truthy(HitText(h)) ==> p.text == ""
    ensures Truthy(HitSource(h)) ==> p.source == HitSource(h).value
    ensures !Truthy(HitSource(h)) ==> p.source == "unknown"
    ensures p.source != ""
    ensures p.score == if h.score.Some? then h.score.value else 0.0
  {
    Passage(OrElse(HitText(h), ""),
            if h.score.Some? && h.score.value != 0.0 then h.score.value else 0.0,
            OrElse(HitSource(h), "unknown"))
  }

  /** The result mapping keeps the number and the order of the hits. */
  function ShapeHits(hits: seq<RawHit>): (ps: seq<Passage>)
    ensures |ps| == |hits|
    ensures forall i :: 0 <= i < |hits| ==> ps[i] == ShapeHit(hits[i])
  {
    seq(|hits|, i requires 0 <= i < |hits| => ShapeHit(hits[i]))
  }

  /** `{ source: sourceFilter }` exactly when the filter is a non-empty string. */
  function QueryFilter(sourceFilter: Option<string>): (f: Option<SourceFilter>)
    ensures f.Some? <==> Truthy(sourceFilter)
    ensures f.Some? ==> f.value.source == sourceFilter.value
  {
    if Truthy(sourceFilter) then Some(SourceFilter(sourceFilter.value)) else None
  }

  function EffectiveTopK(topK: Option<int>): (k: int)
    ensures topK.None? ==> k == DefaultTopK
    ensures topK.Some? ==> k == topK.value
  {
    if topK.Some? then topK.value else DefaultTopK
  }

  /**
   * The store query for a search: the query text is embedded as a one-element
   * batch and element 0 is the query vector. None when the embedding call
   * fails or yields no vector.
   */
  function QueryFor(query: string, topK: Option<int>, sourceFilter: Option<string>, embed: Embedder)
    : (q: Option<VectorQuery>)
    ensures q.Some? <==> embed([query]).Some? && |embed([query]).value| > 0
    ensures q.Some? ==>
      q.value.indexName == IndexName &&
      q.value.queryVector == embed([query]).value[0] &&
      q.value.topK == EffectiveTopK(topK) &&
      q.value.filter == QueryFilter(sourceFilter)
  {
    var reply := embed([query]);
    if reply.Some? && |reply.value| > 0 then
      Some(VectorQuery(IndexName, reply.value[0], EffectiveTopK(topK), QueryFilter(sourceFilter)))
    else None
  }

  /** `retrieveKnowledge`: None stands for a thrown error. */
  function RetrieveKnowledge(query: string, topK: Option<int>, sourceFilter: Option<string>,
                             embed: Embedder, search: VectorSearch): (r: Option<seq<Passage>>)
    ensures r.Some? <==> QueryFor(query, topK, sourceFilter, embed).Some? &&
                         search(QueryFor(query, topK, sourceFilter, embed).value).Some?
    ensures r.Some? ==>
      var hits := search(QueryFor(query, topK, sourceFilter, embed).value).value;
      |r.value| == |hits| &&
      forall i :: 0 <= i < |hits| ==> r.value[i] == ShapeHit(hits[i]) && r.value[i].source != ""
  {
    var q := QueryFor(query, topK, sourceFilter, embed);
    if q.None? then None
    else
      var hits := search(q.value);
      if hits.None? then None else Some(ShapeHits(hits.value))
  }

  // ---------------------------------------------------------------------
  // Status

  datatype KnowledgeBaseStats = KnowledgeBaseStats(
    indexName: string, embeddingModel: string, dimension: nat, provider: string, status: string)

  /** The status record: the same index name and dimension that ingestion uses. */
  function GetKnowledgeBaseStats(): (s: KnowledgeBaseStats)
    ensures s.indexName == IndexName && s.dimension == EmbeddingDimension
    ensures s.indexName == "knowledge_embeddings_v4" && s.dimension == 768
    ensures s.embeddingModel == "text-embedding-004" && s.provider == "PgVector"
    ensures s.status == "connected"
  {
    KnowledgeBaseStats(IndexName, EmbeddingModel, EmbeddingDimension, Provider, "connected")
  }
}
