/**
 * The indexing part of the `retrieve` function built by `create_rag`: the
 * document is cut into overlapping chunks, each chunk gets an id and an
 * embedding, and the query is embedded to search the collection.
 *
 * The embedding service and the vector database are not modelled: an
 * embedding is the pair of the model asked and the text embedded, the
 * collection is the lists handed to `upsert`, and the search itself is
 * represented by the request it receives.
 */
module RagIndex {
  import opened Wrappers
  import opened Strings

  /** The embedding model the chunks are embedded with, as written. */
  const ChunkEmbeddingModel := "text-embedding-ada-002"

  /** The default of `model`, the embedding model of the query. */
  const DefaultModel := "ollama/nomic-embed-text"

  /** The error `range()` raises for a zero step. */
  const ZeroStep := "range() arg 3 must not be zero"

  /** The embedding `litellm.embedding(model=m, input=[text])` returns, kept symbolic. */
  datatype Embedding = Embedding(model: string, text: string)

  /** The three parallel lists passed to `collection.upsert`. */
  datatype Collection = Collection(ids: seq<string>, documents: seq<string>, embeddings: seq<Embedding>)

  /** The search `retrieve` asks of the collection: the query's embedding and the number of results. */
  datatype Search = Search(collection: Collection, queryEmbedding: Embedding, resultCount: int)

  /** The parameters of `create_rag` that `retrieve` uses. */
  datatype RagParams = RagParams(
    document: string,
    model: string,
    resetDb: bool,
    chunkSize: int,
    overlap: int,
    maxResultCount: int)

  /** Python's `s[i:j]` for a non-negative start; a negative stop counts from the end. */
  function Slice(s: string, i: nat, j: int): (r: string)
    ensures |r| <= |s|
    ensures i < |s| && i < j ==> r == s[i..Min(j, |s|)]
    ensures 0 <= j <= i ==> r == ""
  {
    var start := Min(i, |s|);
    var stop := if j < 0 then Max(0, |s| + j) else Min(j, |s|);
    if start < stop then s[start..stop] else ""
  }

  function Min(a: int, b: int): int { if a <= b then a else b }

  function Max(a: int, b: int): int { if a <= b then b else a }

  /** The non-empty slices `document[i:i + chunkSize]` for `i` in `start`, `start + step`, … below `len(document)`. */
  function ChunksFrom(document: string, chunkSize: int, step: int, start: nat): (chunks: seq<string>)
    requires step > 0
    decreases |document| - start
  {
    if start >= |document| then []
    else
      var chunk := Piece(document, start, chunkSize);
      (if |chunk| > 0 then [chunk] else []) + ChunksFrom(document, chunkSize, step, start + step)
  }

  /** The chunks of the first loop of `retrieve`: `range` fails on a zero step and is empty for a negative one. */
  function Chunks(document: string, chunkSize: int, overlap: int): (r: Result<seq<string>, string>)
    ensures r.Failure? <==> chunkSize == overlap
    ensures chunkSize < overlap ==> r == Success([])
  {
    var step := chunkSize - overlap;
    if step == 0 then Failure(ZeroStep)
    else if step < 0 then Success([])
    else Success(ChunksFrom(document, chunkSize, step, 0))
  }

  /** `document[i:i + chunkSize]`; for a positive size, at most `chunkSize` characters from `i`. */
  function Piece(document: string, i: nat, chunkSize: int): (w: string)
    ensures chunkSize > 0 && i < |document| ==> 0 < |w| <= chunkSize && w == document[i..Min(i + chunkSize, |document|)]
  {
    Slice(document, i, i + chunkSize)
  }

  /** For a positive chunk size, the first chunk from a position inside the document is the window there. */
  lemma ChunksFromFirst(document: string, chunkSize: int, step: int, start: nat)
    requires chunkSize > 0 && step > 0 && start < |document|
    ensures ChunksFrom(document, chunkSize, step, start)
            == [Piece(document, start, chunkSize)] + ChunksFrom(document, chunkSize, step, start + step)
  {
  }

  /** Element `k > 0` of `[x] + rest` is element `k - 1` of `rest`. */
  lemma ConsIndex<T>(x: T, rest: seq<T>, k: nat)
    requires 0 < k <= |rest|
    ensures ([x] + rest)[k] == rest[k - 1]
  {
  }

  /** `k * step`, the start of chunk `k` relative to the first one, as `k` repeated additions. */
  function Offset(k: nat, step: int): int
  {
    if k == 0 then 0 else Offset(k - 1, step) + step
  }

  /** `Offset` is the product it stands for. */
  lemma {:induction false} OffsetIsProduct(k: nat, step: int)
    ensures Offset(k, step) == k * step
  {
    if k > 0 {
      OffsetIsProduct(k - 1, step);
      assert k * step == (k - 1) * step + step;
    }
  }

  /**
   * For a positive chunk size, chunk `k` of those from `start` begins at
   * `start + Offset(k, step)`, below the end of the document, and is the window
   * there.
   */
  lemma {:induction false} ChunkFrom(document: string, chunkSize: int, step: int, start: nat, k: nat)
    requires chunkSize > 0 && step > 0
    requires k < |ChunksFrom(document, chunkSize, step, start)|
    ensures 0 <= start + Offset(k, step) < |document|
    ensures ChunksFrom(document, chunkSize, step, start)[k] == Piece(document, start + Offset(k, step), chunkSize)
    decreases k
  {
    var chunks := ChunksFrom(document, chunkSize, step, start);
    var rest := ChunksFrom(document, chunkSize, step, start + step);
    ChunksFromFirst(document, chunkSize, step, start);
    if k > 0 {
      ChunkFrom(document, chunkSize, step, start + step, k - 1);
      ConsIndex(Piece(document, start, chunkSize), rest, k);
      assert start + Offset(k, step) == start + step + Offset(k - 1, step);
    } else {
      assert Offset(0, step) == 0;
      assert chunks[0] == Piece(document, start, chunkSize);
    }
  }

  /** For a positive chunk size, the start positions of the chunks reach the end of the document. */
  lemma {:induction false} ChunksReachEnd(document: string, chunkSize: int, step: int, start: nat)
    requires chunkSize > 0 && step > 0
    ensures start + Offset(|ChunksFrom(document, chunkSize, step, start)|, step) >= |document|
    decreases |document| - start
  {
    if start < |document| {
      ChunksFromFirst(document, chunkSize, step, start);
      ChunksReachEnd(document, chunkSize, step, start + step);
    }
  }

  /** When a chunk is at least a step long, every character from `start` on lies in some chunk. */
  lemma {:induction false} ChunksCoverFrom(document: string, chunkSize: int, step: int, start: nat, j: nat)
    requires 0 < step <= chunkSize
    requires start <= j < |document|
    ensures var chunks := ChunksFrom(document, chunkSize, step, start);
      exists k: nat :: k < |chunks| && start + Offset(k, step) <= j < start + Offset(k, step) + |chunks[k]|
    decreases |document| - start
  {
    var chunks := ChunksFrom(document, chunkSize, step, start);
    var rest := ChunksFrom(document, chunkSize, step, start + step);
    ChunksFromFirst(document, chunkSize, step, start);
    if j < start + step {
      assert start + Offset(0, step) <= j < start + Offset(0, step) + |chunks[0]|;
    } else {
      ChunksCoverFrom(document, chunkSize, step, start + step, j);
      var k: nat :| k < |rest| && start + step + Offset(k, step) <= j < start + step + Offset(k, step) + |rest[k]|;
      assert chunks[k + 1] == rest[k];
      assert start + Offset(k + 1, step) <= j < start + Offset(k + 1, step) + |chunks[k + 1]|;
    }
  }

  /**
   * With a positive chunk size and a positive step, chunk `k` is the slice of
   * the document at `k * step`, non-empty and at most `chunkSize` long, and the
   * start positions `0, step, 2 * step, …` are exactly those below `len(document)`.
   */
  lemma ChunkAt(document: string, chunkSize: int, overlap: int)
    requires chunkSize > 0 && chunkSize - overlap > 0
    ensures var chunks := Chunks(document, chunkSize, overlap).value;
      var step := chunkSize - overlap;
      && (forall k :: 0 <= k < |chunks| ==>
            0 <= k * step < |document|
            && chunks[k] == document[k * step..Min(k * step + chunkSize, |document|)]
            && 0 < |chunks[k]| <= chunkSize)
      && |chunks| * step >= |document|
  {
    var step := chunkSize - overlap;
    var chunks := ChunksFrom(document, chunkSize, step, 0);
    forall k | 0 <= k < |chunks|
      ensures 0 <= k * step < |document| && chunks[k] == document[k * step..Min(k * step + chunkSize, |document|)]
    {
      ChunkFrom(document, chunkSize, step, 0, k);
      OffsetIsProduct(k, step);
      assert chunks[k] == Piece(document, k * step, chunkSize);
    }
    ChunksReachEnd(document, chunkSize, step, 0);
    OffsetIsProduct(|chunks|, step);
  }

  /** Position `j` lies in the chunk that starts at `k * step`, for some `k`. */
  predicate Covered(chunks: seq<string>, step: int, j: int)
  {
    exists k :: 0 <= k < |chunks| && k * step <= j < k * step + |chunks[k]|
  }

  /** When the overlap is not negative, every character of the document lies in some chunk. */
  lemma ChunksCover(document: string, chunkSize: int, overlap: int, j: nat)
    requires chunkSize > 0 && chunkSize - overlap > 0 && overlap >= 0
    requires j < |document|
    ensures Covered(Chunks(document, chunkSize, overlap).value, chunkSize - overlap, j)
  {
    var step := chunkSize - overlap;
    var chunks := ChunksFrom(document, chunkSize, step, 0);
    ChunksCoverFrom(document, chunkSize, step, 0, j);
    var k: nat :| k < |chunks| && 0 + Offset(k, step) <= j < 0 + Offset(k, step) + |chunks[k]|;
    OffsetIsProduct(k, step);
    assert k * step <= j < k * step + |chunks[k]|;
  }

  /** A chunk that is not cut short by the end of the document shares its last `overlap` characters with the next chunk. */
  lemma ChunksOverlap(document: string, chunkSize: int, overlap: int, k: nat)
    requires chunkSize > 0 && chunkSize - overlap > 0 && overlap >= 0
    requires var chunks := Chunks(document, chunkSize, overlap).value;
      k + 1 < |chunks| && |chunks[k]| == chunkSize
    ensures var chunks := Chunks(document, chunkSize, overlap).value;
      |chunks[k + 1]| >= overlap && chunks[k][chunkSize - overlap..] == chunks[k + 1][..overlap]
  {
    var step := chunkSize - overlap;
    var chunks := ChunksFrom(document, chunkSize, step, 0);
    ChunkFrom(document, chunkSize, step, 0, k);
    ChunkFrom(document, chunkSize, step, 0, k + 1);
    assert Offset(k + 1, step) == Offset(k, step) + step;
    assert Offset(k, step) + chunkSize <= |document|;
    PiecesOverlap(document, chunkSize, step, Offset(k, step));
  }

  /** A full piece at `p` and the piece a step later share `chunkSize - step` characters. */
  lemma PiecesOverlap(document: string, chunkSize: int, step: int, p: nat)
    requires 0 < step <= chunkSize && p + chunkSize <= |document|
    ensures |Piece(document, p + step, chunkSize)| >= chunkSize - step
    ensures Piece(document, p, chunkSize)[step..] == Piece(document, p + step, chunkSize)[..chunkSize - step]
  {
    assert Piece(document, p, chunkSize) == document[p..p + chunkSize];
    assert Piece(document, p, chunkSize)[step..] == document[p + step..p + chunkSize];
  }

  /** The id of the chunk at `index`: `f"id{index}"`. */
  function ChunkId(index: nat): string
  {
    "id" + Decimal(index)
  }

  /** Different numbers have different decimal forms. */
  lemma {:induction false} DecimalInjective(a: nat, b: nat)
    requires Decimal(a) == Decimal(b)
    ensures a == b
    decreases a
  {
    if a >= 10 && b >= 10 {
      var da := Decimal(a);
      assert da[..|da| - 1] == Decimal(a / 10) && Decimal(b)[..|da| - 1] == Decimal(b / 10);
      DecimalInjective(a / 10, b / 10);
    }
  }

  /** No two chunks get the same id. */
  lemma ChunkIdsDistinct(i: nat, j: nat)
    requires i != j
    ensures ChunkId(i) != ChunkId(j)
  {
    if ChunkId(i) == ChunkId(j) {
      assert Decimal(i) == ChunkId(i)[2..] == ChunkId(j)[2..] == Decimal(j);
      DecimalInjective(i, j);
    }
  }

  /** The first loop of `retrieve`. */
  method ChunkDocument(document: string, chunkSize: int, overlap: int) returns (r: Result<seq<string>, string>)
    ensures r == Chunks(document, chunkSize, overlap)
  {
    var step := chunkSize - overlap;
    if step == 0 {
      return Failure(ZeroStep);
    }
    var chunks: seq<string> := [];
    if step > 0 {
      var i := 0;
      while i < |document|
        invariant chunks + ChunksFrom(document, chunkSize, step, i) == ChunksFrom(document, chunkSize, step, 0)
        decreases |document| - i
      {
        var chunk := Slice(document, i, i + chunkSize);
        ghost var later := ChunksFrom(document, chunkSize, step, i + step);
        assert ChunksFrom(document, chunkSize, step, i) == (if |chunk| > 0 then [chunk] else []) + later;
        if |chunk| > 0 {
          assert chunks + [chunk] + later == chunks + ([chunk] + later);
          chunks := chunks + [chunk];
        } else {
          assert [] + later == later;
        }
        i := i + step;
      }
      assert chunks + [] == chunks;
    }
    return Success(chunks);
  }

  /**
   * The second loop of `retrieve`: an id, an embedding made with `model` and
   * the chunk itself, for every chunk in order.
   */
  method IndexChunks(chunks: seq<string>, model: string) returns (c: Collection)
    ensures |c.ids| == |c.documents| == |c.embeddings| == |chunks|
    ensures forall k :: 0 <= k < |chunks| ==>
              c.ids[k] == ChunkId(k) && c.documents[k] == chunks[k] && c.embeddings[k] == Embedding(model, chunks[k])
  {
    var ids: seq<string> := [];
    var embeddings: seq<Embedding> := [];
    var documents: seq<string> := [];
    for index := 0 to |chunks|
      invariant |ids| == |documents| == |embeddings| == index
      invariant forall k :: 0 <= k < index ==>
                  ids[k] == ChunkId(k) && documents[k] == chunks[k] && embeddings[k] == Embedding(model, chunks[k])
    {
      var chunk := chunks[index];
      var response := Embedding(model, chunk);
      ids := ids + ["id" + Decimal(index)];
      embeddings := embeddings + [response];
      documents := documents + [chunk];
    }
    return Collection(ids, documents, embeddings);
  }

  /** The collection built from the chunks of `document`, embedded with `model`. */
  function Indexed(chunks: seq<string>, model: string): (c: Collection)
    ensures |c.ids| == |c.documents| == |c.embeddings| == |chunks|
  {
    Collection(seq(|chunks|, k requires 0 <= k => ChunkId(k)), chunks, seq(|chunks|, k requires 0 <= k < |chunks| => Embedding(model, chunks[k])))
  }

  /**
   * What `retrieve(query)` asks the vector database, when the chunks are
   * embedded with `chunkModel`: the collection is rebuilt from the document
   * when the database directory is missing or `reset_db` holds, and is
   * `stored` otherwise.
   */
  function Retrieval(p: RagParams, query: string, dbExists: bool, stored: Collection, chunkModel: string): (r: Result<Search, string>)
  {
    var collection :=
      if !dbExists || p.resetDb then
        match Chunks(p.document, p.chunkSize, p.overlap)
        case Failure(e) => Failure(e)
        case Success(chunks) => Success(Indexed(chunks, chunkModel))
      else Success(stored);
    match collection
    case Failure(e) => Failure(e)
    case Success(c) => Success(Search(c, Embedding(p.model, query), p.maxResultCount))
  }

  /** `retrieve` with the embedding model of the chunks as a parameter. */
  method RetrieveWith(p: RagParams, query: string, dbExists: bool, stored: Collection, chunkModel: string)
    returns (r: Result<Search, string>)
    ensures r == Retrieval(p, query, dbExists, stored, chunkModel)
  {
    var collection := stored;
    if !dbExists || p.resetDb {
      var chunks := ChunkDocument(p.document, p.chunkSize, p.overlap);
      if chunks.Failure? {
        return Failure(chunks.error);
      }
      collection := IndexChunks(chunks.value, chunkModel);
      assert collection == Indexed(chunks.value, chunkModel);
    }
    return Success(Search(collection, Embedding(p.model, query), p.maxResultCount));
  }

  /** `retrieve` as written: the chunks are embedded with `text-embedding-ada-002` whatever `model` is. */
  method RetrieveAsWritten(p: RagParams, query: string, dbExists: bool, stored: Collection)
    returns (r: Result<Search, string>)
    ensures r == Retrieval(p, query, dbExists, stored, ChunkEmbeddingModel)
  {
    r := RetrieveWith(p, query, dbExists, stored, ChunkEmbeddingModel);
  }

  /** `retrieve` corrected: the chunks are embedded with the same `model` as the query. */
  method Retrieve(p: RagParams, query: string, dbExists: bool, stored: Collection)
    returns (r: Result<Search, string>)
    ensures r == Retrieval(p, query, dbExists, stored, p.model)
  {
    r := RetrieveWith(p, query, dbExists, stored, p.model);
  }

  /**
   * The collection is rebuilt exactly when the directory is missing or
   * `reset_db` holds: then it holds one entry per chunk, with ids `id0`, `id1`, …;
   * otherwise the stored collection is searched unchanged. The query is
   * embedded with `model` and the search asks for `max_result_count` results.
   */
  lemma RetrievalIndexes(p: RagParams, query: string, dbExists: bool, stored: Collection, chunkModel: string)
    ensures var r := Retrieval(p, query, dbExists, stored, chunkModel);
      r.Failure? <==> (!dbExists || p.resetDb) && p.chunkSize == p.overlap
    ensures var r := Retrieval(p, query, dbExists, stored, chunkModel);
      r.Success? ==> r.value.queryEmbedding == Embedding(p.model, query) && r.value.resultCount == p.maxResultCount
    ensures var r := Retrieval(p, query, dbExists, stored, chunkModel);
      r.Success? && dbExists && !p.resetDb ==> r.value.collection == stored
    ensures var r := Retrieval(p, query, dbExists, stored, chunkModel);
      r.Success? && (!dbExists || p.resetDb) ==>
        var chunks := Chunks(p.document, p.chunkSize, p.overlap).value;
        && r.value.collection.documents == chunks
        && (forall k :: 0 <= k < |chunks| ==> r.value.collection.ids[k] == ChunkId(k))
        && (forall k :: 0 <= k < |chunks| ==> r.value.collection.embeddings[k] == Embedding(chunkModel, chunks[k]))
  {
  }

  /** Corrected: every embedding in a rebuilt collection comes from the model the query is embedded with. */
  lemma RetrieveSameModel(p: RagParams, query: string, dbExists: bool, stored: Collection)
    requires (!dbExists || p.resetDb) && Retrieval(p, query, dbExists, stored, p.model).Success?
    ensures var s := Retrieval(p, query, dbExists, stored, p.model).value;
      forall k :: 0 <= k < |s.collection.embeddings| ==> s.collection.embeddings[k].model == s.queryEmbedding.model
  {
  }

  /**
   * As written: with any `model` other than the hard-coded one (the default
   * among them) and a non-empty document, the rebuilt collection holds
   * embeddings from a different model than the query's.
   */
  lemma RetrieveAsWrittenMixesModels(p: RagParams, query: string, dbExists: bool, stored: Collection)
    requires (!dbExists || p.resetDb) && p.model != ChunkEmbeddingModel
    requires p.chunkSize > 0 && p.chunkSize - p.overlap > 0 && p.document != ""
    ensures var s := Retrieval(p, query, dbExists, stored, ChunkEmbeddingModel).value;
      |s.collection.embeddings| > 0 && s.collection.embeddings[0].model != s.queryEmbedding.model
  {
    ChunkAt(p.document, p.chunkSize, p.overlap);
    var chunks := Chunks(p.document, p.chunkSize, p.overlap).value;
    assert |chunks| * (p.chunkSize - p.overlap) >= |p.document| > 0;
  }

  /** The default `model` is not the hard-coded chunk model, so the default setting mixes them. */
  lemma DefaultModelDiffers()
    ensures DefaultModel != ChunkEmbeddingModel
  {
    assert ChunkEmbeddingModel[0] != DefaultModel[0];
  }
}
