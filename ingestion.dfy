/** Embedding the chunks in batches and adding them to the Chroma collection. */
module Ingestion {
  import opened Strings
  import opened Gemini
  import opened PdfLoader
  import opened ChunkIds

  /** `batch_size` of the ingestion loop. */
  const BatchSize: nat := 10

  /**
   * `get_gemini_embeddings(texts)` given the response of its one `embed_content` call.
   * The call is made only for non-empty input; an empty embedding list fails at `[0]` and
   * the exception handler turns it, like every other failure, into `[]`.
   */
  function GetGeminiEmbeddings(texts: seq<string>, response: EmbedResponse): (r: seq<Value>)
    ensures r == [] <==> texts == [] || !response.EmbedReply? || response.embedding == []
    ensures r != [] ==> r[0].List?
    ensures r != [] && response.embedding[0].Float? ==> r == [List(response.embedding)]
    ensures r != [] && response.embedding[0].List? ==> r == response.embedding
  {
    if texts == [] then []
    else match response
      case EmbedRaised => []
      case MissingEmbedding => []
      case EmbedReply(embedding) =>
        if embedding == [] then []
        else if embedding[0].Float? then [List(embedding)]
        else embedding
  }

  /** One record of the collection: id, document text, metadata and embedding. */
  datatype StoredRecord = StoredRecord(id: string, text: string, metadata: ChunkMetadata, embedding: Value)

  function Zip(ids: seq<string>, texts: seq<string>, metadatas: seq<ChunkMetadata>, embeddings: seq<Value>): (r: seq<StoredRecord>)
    requires |ids| == |texts| == |metadatas| == |embeddings|
    ensures |r| == |ids|
  {
    seq(|ids|, j requires 0 <= j < |ids| => StoredRecord(ids[j], texts[j], metadatas[j], embeddings[j]))
  }

  function RecordIds(rs: seq<StoredRecord>): seq<string> {
    seq(|rs|, j requires 0 <= j < |rs| => rs[j].id)
  }

  /** The Chroma collection as the builder sees it: its records, in the order they were added. */
  class Collection {
    var records: seq<StoredRecord>

    constructor (initial: seq<StoredRecord>)
      ensures records == initial
    {
      records := initial;
    }

    /** `collection.count()` */
    function Count(): nat
      reads this
    {
      |records|
    }

    /**
     * `collection.add(...)`. Lists of different lengths are refused; `fails` stands for
     * every other error the store raises. Nothing is added when it raises.
     */
    method Add(embeddings: seq<Value>, documents: seq<string>, metadatas: seq<ChunkMetadata>, ids: seq<string>, fails: bool)
      returns (added: bool)
      modifies this
      ensures added <==> !fails && |embeddings| == |documents| == |metadatas| == |ids|
      ensures records == if added then old(records) + Zip(ids, documents, metadatas, embeddings) else old(records)
    {
      added := !fails && |embeddings| == |documents| == |metadatas| == |ids|;
      if added {
        records := records + Zip(ids, documents, metadatas, embeddings);
      }
    }
  }

  /** The three aligned lists built from the documents. */
  datatype Corpus = Corpus(chunks: seq<string>, metadatas: seq<ChunkMetadata>, ids: seq<string>)

  predicate Aligned(c: Corpus) {
    |c.chunks| == |c.metadatas| == |c.ids|
  }

  /** What the remote services do for batch number `b`: the embedding response, and whether `add` raises. */
  datatype BatchOutcomes = BatchOutcomes(embed: nat -> EmbedResponse, addFails: nat -> bool)

  /** `len(range(0, n, BatchSize))` */
  function NumBatches(n: nat): nat {
    (n + BatchSize - 1) / BatchSize
  }

  /** `xs[i:i+batch_size]` for `i = b * batch_size` */
  function Batch<T>(xs: seq<T>, b: nat): seq<T> {
    PySlice(xs, b * BatchSize, b * BatchSize + BatchSize)
  }

  /** The records batch `b` adds: none when its embeddings are empty or `add` raises. */
  function BatchRecords(c: Corpus, o: BatchOutcomes, b: nat): seq<StoredRecord> {
    var texts, metadatas, ids := Batch(c.chunks, b), Batch(c.metadatas, b), Batch(c.ids, b);
    var embeddings := GetGeminiEmbeddings(texts, o.embed(b));
    if embeddings != [] && !o.addFails(b) && |embeddings| == |texts| == |metadatas| == |ids|
    then Zip(ids, texts, metadatas, embeddings)
    else []
  }

  /** The parts of `parts`, concatenated in order. */
  function Flatten<T>(parts: seq<seq<T>>): seq<T> {
    if parts == [] then [] else Flatten(parts[..|parts| - 1]) + parts[|parts| - 1]
  }

  lemma {:induction false} FlattenAppend<T>(a: seq<seq<T>>, b: seq<seq<T>>)
    ensures Flatten(a + b) == Flatten(a) + Flatten(b)
    decreases |b|
  {
    if b == [] {
      assert a + b == a;
    } else {
      var b' := b[..|b| - 1];
      assert (a + b)[..|a + b| - 1] == a + b';
      FlattenAppend(a, b');
    }
  }

  lemma FlattenSingle<T>(part: seq<T>)
    ensures Flatten([part]) == part
  {
    assert [part][..0] == [];
  }

  lemma FlattenPrefixStep<T>(parts: seq<seq<T>>, b: nat)
    requires b < |parts|
    ensures Flatten(parts[..b + 1]) == Flatten(parts[..b]) + parts[b]
  {
    assert parts[..b + 1][..b] == parts[..b];
  }

  lemma FlattenWhole<T>(parts: seq<seq<T>>)
    ensures Flatten(parts[..|parts|]) == Flatten(parts)
  {
    assert parts[..|parts|] == parts;
  }

  /** The records of every batch, batch by batch. */
  function BatchResults(c: Corpus, o: BatchOutcomes): (r: seq<seq<StoredRecord>>)
    ensures |r| == NumBatches(|c.chunks|)
    ensures forall b :: 0 <= b < |r| ==> r[b] == BatchRecords(c, o, b)
  {
    seq(NumBatches(|c.chunks|), b requires 0 <= b => BatchRecords(c, o, b))
  }

  /** Everything one ingestion run into an empty collection adds. */
  function Ingested(c: Corpus, o: BatchOutcomes): seq<StoredRecord> {
    Flatten(BatchResults(c, o))
  }

  /** The records of batch `b`, in terms of the slices the loop takes at offset `b * BatchSize`. */
  lemma BatchAtOffset(c: Corpus, o: BatchOutcomes, b: nat)
    ensures var i := b * BatchSize;
      var texts, metadatas, ids := PySlice(c.chunks, i, i + BatchSize), PySlice(c.metadatas, i, i + BatchSize), PySlice(c.ids, i, i + BatchSize);
      var embeddings := GetGeminiEmbeddings(texts, o.embed(i / BatchSize));
      BatchRecords(c, o, b)
      == if embeddings != [] && !o.addFails(i / BatchSize) && |embeddings| == |texts| == |metadatas| == |ids|
         then Zip(ids, texts, metadatas, embeddings)
         else []
  {
    assert b * BatchSize / BatchSize == b;
  }

  /** The builder's storing step: fill the collection in batches, unless it already holds records. */
  method IngestChunks(collection: Collection, corpus: Corpus, outcomes: BatchOutcomes)
    modifies collection
    ensures collection.records
         == if old(collection.Count()) != 0 then old(collection.records) else Ingested(corpus, outcomes)
  {
    if collection.Count() == 0 {
      var i := 0;
      ghost var b: nat := 0;
      while i < |corpus.chunks|
        invariant i == b * BatchSize && b <= NumBatches(|corpus.chunks|)
        invariant collection.records == Flatten(BatchResults(corpus, outcomes)[..b])
        decreases |corpus.chunks| - i
      {
        var batchChunks := PySlice(corpus.chunks, i, i + BatchSize);
        var batchIds := PySlice(corpus.ids, i, i + BatchSize);
        var batchMetadata := PySlice(corpus.metadatas, i, i + BatchSize);
        var embeddings := GetGeminiEmbeddings(batchChunks, outcomes.embed(i / BatchSize));
        BatchAtOffset(corpus, outcomes, b);
        ghost var before := collection.records;
        if embeddings != [] {
          var _ := collection.Add(embeddings, batchChunks, batchMetadata, batchIds, outcomes.addFails(i / BatchSize));
        }
        FlattenPrefixStep(BatchResults(corpus, outcomes), b);
        i := i + BatchSize;
        b := b + 1;
      }
      assert b == NumBatches(|corpus.chunks|);
      FlattenWhole(BatchResults(corpus, outcomes));
    }
  }

  /** The aligned lists the builder stores for a set of loaded documents. */
  function KnowledgeBase(docs: seq<Document>): Corpus {
    var es := Entries(docs);
    Corpus(Texts(es), Metadatas(es), Ids(es))
  }

  /**
   * The whole builder script: a missing folder is created and the script exits, a folder
   * without usable PDFs exits, otherwise the chunks are built and ingested.
   */
  method PrepareKnowledgeBase(collection: Collection, folderExists: bool, folder: seq<FolderEntry>, outcomes: BatchOutcomes)
    modifies collection
    ensures collection.records
         == if !folderExists || LoadedDocuments(folder) == [] || old(collection.Count()) != 0
            then old(collection.records)
            else Ingested(KnowledgeBase(LoadedDocuments(folder)), outcomes)
  {
    if !folderExists {
      return;
    }
    var rawDocs := LoadPdfDocuments(folder);
    if rawDocs == [] {
      return;
    }
    var allChunks, chunkMetadata, chunkIds := AssembleChunks(rawDocs);
    IngestChunks(collection, Corpus(allChunks, chunkMetadata, chunkIds), outcomes);
  }

  /** The batches `0, ..., k - 1` of `xs`, concatenated. */
  function BatchesUpTo<T>(xs: seq<T>, k: nat): seq<T> {
    if k == 0 then [] else BatchesUpTo(xs, k - 1) + Batch(xs, k - 1)
  }

  /** Batch `b` exists exactly when its first index lies inside the list. */
  lemma BatchStartInside(n: nat, b: nat)
    ensures b < NumBatches(n) <==> b * BatchSize < n
  {}

  lemma {:induction false} BatchesPrefix<T>(xs: seq<T>, k: nat)
    ensures BatchesUpTo(xs, k) == xs[..Min(k * BatchSize, |xs|)]
  {
    if k > 0 {
      BatchesPrefix(xs, k - 1);
      var lo, hi := Min((k - 1) * BatchSize, |xs|), Min(k * BatchSize, |xs|);
      assert Batch(xs, k - 1) == xs[lo..hi];
      assert xs[..lo] + xs[lo..hi] == xs[..hi];
    }
  }

  /** The batches partition the list: concatenated in order they give it back, each element exactly once. */
  lemma BatchesCover<T>(xs: seq<T>)
    ensures BatchesUpTo(xs, NumBatches(|xs|)) == xs
  {
    BatchesPrefix(xs, NumBatches(|xs|));
    if |xs| > 0 {
      BatchStartInside(|xs|, NumBatches(|xs|));
    }
  }

  /** Every batch holds between one and `BatchSize` elements, and all but the last hold exactly `BatchSize`. */
  lemma BatchSizes<T>(xs: seq<T>, b: nat)
    requires b < NumBatches(|xs|)
    ensures 0 < |Batch(xs, b)| <= BatchSize
    ensures b + 1 < NumBatches(|xs|) ==> |Batch(xs, b)| == BatchSize
  {
    BatchStartInside(|xs|, b);
    BatchStartInside(|xs|, b + 1);
  }

  /** Record `r` holds chunk `j` of the corpus with that chunk's own id and metadata. */
  predicate StoresChunk(c: Corpus, j: int, r: StoredRecord) {
    0 <= j < |c.chunks| && j < |c.metadatas| && j < |c.ids|
    && r.text == c.chunks[j] && r.metadata == c.metadatas[j] && r.id == c.ids[j]
  }

  /** Record `k` of batch `b` holds chunk `b * BatchSize + k`: chunk, id and metadata come from the same slice. */
  lemma BatchRecordsAt(c: Corpus, o: BatchOutcomes, b: nat, k: nat)
    requires k < |BatchRecords(c, o, b)|
    ensures StoresChunk(c, b * BatchSize + k, BatchRecords(c, o, b)[k])
  {
    var lo := b * BatchSize;
    assert Batch(c.chunks, b)[k] == c.chunks[lo + k];
    assert Batch(c.metadatas, b)[k] == c.metadatas[lo + k];
    assert Batch(c.ids, b)[k] == c.ids[lo + k];
  }

  /** Part `b` holds at most `BatchSize` records, and its record `m` stores chunk `b * BatchSize + m` of the corpus. */
  predicate PartsFromBatches(c: Corpus, parts: seq<seq<StoredRecord>>) {
    forall b :: 0 <= b < |parts| ==>
      |parts[b]| <= BatchSize && forall m :: 0 <= m < |parts[b]| ==> StoresChunk(c, b * BatchSize + m, parts[b][m])
  }

  /** The batch results are laid out batch by batch. */
  lemma BatchResultsFromBatches(c: Corpus, o: BatchOutcomes)
    ensures PartsFromBatches(c, BatchResults(c, o))
  {
    var r := BatchResults(c, o);
    forall b | 0 <= b < |r|
      ensures |r[b]| <= BatchSize && forall m :: 0 <= m < |r[b]| ==> StoresChunk(c, b * BatchSize + m, r[b][m])
    {
      forall m | 0 <= m < |r[b]| ensures StoresChunk(c, b * BatchSize + m, r[b][m]) {
        BatchRecordsAt(c, o, b, m);
      }
    }
  }

  lemma {:induction false} PartsProvenance(c: Corpus, parts: seq<seq<StoredRecord>>, k: nat)
    requires PartsFromBatches(c, parts)
    requires k < |Flatten(parts)|
    ensures exists j :: j < |parts| * BatchSize && StoresChunk(c, j, Flatten(parts)[k])
    decreases |parts|
  {
    var init, last := parts[..|parts| - 1], parts[|parts| - 1];
    assert PartsFromBatches(c, init) by {
      forall b | 0 <= b < |init| ensures init[b] == parts[b] {}
    }
    var before, all := Flatten(init), Flatten(parts);
    if k < |before| {
      PartsProvenance(c, init, k);
      var j :| j < |init| * BatchSize && StoresChunk(c, j, before[k]);
      assert StoresChunk(c, j, all[k]);
    } else {
      var m := k - |before|;
      assert all[k] == last[m];
      assert StoresChunk(c, |init| * BatchSize + m, all[k]);
    }
  }

  lemma {:induction false} PartsIdsDistinct(c: Corpus, parts: seq<seq<StoredRecord>>)
    requires PartsFromBatches(c, parts)
    requires Distinct(c.ids)
    ensures Distinct(RecordIds(Flatten(parts)))
    decreases |parts|
  {
    if parts != [] {
      var init, last := parts[..|parts| - 1], parts[|parts| - 1];
      assert PartsFromBatches(c, init) by {
        forall b | 0 <= b < |init| ensures init[b] == parts[b] {}
      }
      PartsIdsDistinct(c, init);
      var before, all := Flatten(init), Flatten(parts);
      var base := |init| * BatchSize;
      forall i, j | 0 <= i < j < |all|
        ensures RecordIds(all)[i] != RecordIds(all)[j]
      {
        if j < |before| {
          assert RecordIds(before)[i] != RecordIds(before)[j];
        } else {
          assert all[j] == last[j - |before|];
          assert StoresChunk(c, base + (j - |before|), all[j]);
          if i < |before| {
            PartsProvenance(c, init, i);
            var p :| p < base && StoresChunk(c, p, before[i]);
            assert c.ids[p] != c.ids[base + (j - |before|)];
          } else {
            assert all[i] == last[i - |before|];
            assert StoresChunk(c, base + (i - |before|), all[i]);
          }
        }
      }
    }
  }

  /** Every record ingestion adds holds one chunk of the corpus, together with that chunk's id and metadata. */
  lemma IngestedProvenance(c: Corpus, o: BatchOutcomes, k: nat)
    requires k < |Ingested(c, o)|
    ensures exists j :: StoresChunk(c, j, Ingested(c, o)[k])
  {
    BatchResultsFromBatches(c, o);
    PartsProvenance(c, BatchResults(c, o), k);
  }

  /** Ingesting a corpus whose ids are distinct never stores two records under one id. */
  lemma IngestedIdsDistinct(c: Corpus, o: BatchOutcomes)
    requires Distinct(c.ids)
    ensures Distinct(RecordIds(Ingested(c, o)))
  {
    BatchResultsFromBatches(c, o);
    PartsIdsDistinct(c, BatchResults(c, o));
  }

  /** The knowledge base never stores two records under one id. */
  lemma KnowledgeBaseIdsDistinct(docs: seq<Document>, o: BatchOutcomes)
    ensures Distinct(RecordIds(Ingested(KnowledgeBase(docs), o)))
  {
    IdsDistinct(docs);
    IngestedIdsDistinct(KnowledgeBase(docs), o);
  }

  /** Batch `b` embeds one vector per chunk and its `add` does not raise. */
  predicate BatchSucceeds(c: Corpus, o: BatchOutcomes, b: nat) {
    !o.addFails(b) && |GetGeminiEmbeddings(Batch(c.chunks, b), o.embed(b))| == |Batch(c.chunks, b)|
  }

  /** A batch that succeeds stores all of its chunks. */
  lemma SucceededBatchStored(c: Corpus, o: BatchOutcomes, b: nat)
    requires Aligned(c) && b < NumBatches(|c.chunks|) && BatchSucceeds(c, o, b)
    ensures |BatchRecords(c, o, b)| == |Batch(c.chunks, b)|
  {
    BatchSizes(c.chunks, b);
  }

  lemma {:induction false} PartsComplete(c: Corpus, parts: seq<seq<StoredRecord>>)
    requires PartsFromBatches(c, parts) && |parts| <= NumBatches(|c.chunks|)
    requires forall b :: 0 <= b < |parts| ==> |parts[b]| == |Batch(c.chunks, b)|
    ensures |Flatten(parts)| == Min(|parts| * BatchSize, |c.chunks|)
    ensures forall i :: 0 <= i < |Flatten(parts)| ==> StoresChunk(c, i, Flatten(parts)[i])
    decreases |parts|
  {
    if parts != [] {
      var init, last := parts[..|parts| - 1], parts[|parts| - 1];
      assert PartsFromBatches(c, init) by {
        forall b | 0 <= b < |init| ensures init[b] == parts[b] {}
      }
      PartsComplete(c, init);
      var before, all := Flatten(init), Flatten(parts);
      BatchStartInside(|c.chunks|, |init|);
      BatchSizes(c.chunks, |init|);
      assert |before| == |init| * BatchSize;
      forall i | 0 <= i < |all| ensures StoresChunk(c, i, all[i]) {
        if i >= |before| {
          assert all[i] == last[i - |before|];
        }
      }
    }
  }

  /** When every batch succeeds, the collection holds exactly one record per chunk, in chunk order. */
  lemma AllBatchesStored(c: Corpus, o: BatchOutcomes)
    requires Aligned(c)
    requires forall b: nat :: b < NumBatches(|c.chunks|) ==> BatchSucceeds(c, o, b)
    ensures |Ingested(c, o)| == |c.chunks|
    ensures forall i :: 0 <= i < |c.chunks| ==> StoresChunk(c, i, Ingested(c, o)[i])
  {
    var r := BatchResults(c, o);
    BatchResultsFromBatches(c, o);
    forall b | 0 <= b < |r| ensures |r[b]| == |Batch(c.chunks, b)| {
      SucceededBatchStored(c, o, b);
    }
    PartsComplete(c, r);
    if |c.chunks| > 0 {
      BatchStartInside(|c.chunks|, NumBatches(|c.chunks|));
    }
  }

  /** A batch whose embedding call fails or whose `add` raises yields no records; every other batch is unaffected. */
  lemma FailedBatchResults(c: Corpus, o: BatchOutcomes, o': BatchOutcomes, b: nat)
    requires b < NumBatches(|c.chunks|)
    requires forall b': nat :: b' != b ==> o'.embed(b') == o.embed(b') && o'.addFails(b') == o.addFails(b')
    requires o'.addFails(b) || GetGeminiEmbeddings(Batch(c.chunks, b), o'.embed(b)) == []
    ensures BatchResults(c, o') == BatchResults(c, o)[b := []]
  {
    var r, r' := BatchResults(c, o), BatchResults(c, o');
    forall i | 0 <= i < |r| ensures r'[i] == r[b := []][i] {
      if i == b {
        assert BatchRecords(c, o', b) == [];
      } else {
        assert BatchRecords(c, o', i) == BatchRecords(c, o, i);
      }
    }
  }

  /** Emptying one part of a list of parts removes exactly that part from the concatenation. */
  lemma FlattenAround<T>(r: seq<seq<T>>, b: nat)
    requires b < |r|
    ensures Flatten(r) == Flatten(r[..b]) + r[b] + Flatten(r[b + 1..])
    ensures Flatten(r[b := []]) == Flatten(r[..b]) + Flatten(r[b + 1..])
  {
    var r' := r[b := []];
    SeqSplit(r, b);
    SeqSplit(r', b);
    assert r'[..b] == r[..b] && r'[b + 1..] == r[b + 1..];
    FlattenAppend(r[..b], [r[b]] + r[b + 1..]);
    FlattenAppend([r[b]], r[b + 1..]);
    FlattenAppend(r'[..b], [r'[b]] + r'[b + 1..]);
    FlattenAppend([r'[b]], r'[b + 1..]);
    FlattenSingle(r[b]);
    FlattenSingle(r'[b]);
  }

  /**
   * A batch whose embedding call fails or whose `add` raises loses only its own records:
   * the batches before and after it are stored as they would have been anyway.
   */
  lemma FailedBatchIsolated(c: Corpus, o: BatchOutcomes, o': BatchOutcomes, b: nat)
    requires b < NumBatches(|c.chunks|)
    requires forall b': nat :: b' != b ==> o'.embed(b') == o.embed(b') && o'.addFails(b') == o.addFails(b')
    requires o'.addFails(b) || GetGeminiEmbeddings(Batch(c.chunks, b), o'.embed(b)) == []
    ensures Ingested(c, o)
         == Flatten(BatchResults(c, o)[..b]) + BatchRecords(c, o, b) + Flatten(BatchResults(c, o)[b + 1..])
    ensures Ingested(c, o')
         == Flatten(BatchResults(c, o)[..b]) + Flatten(BatchResults(c, o)[b + 1..])
  {
    FailedBatchResults(c, o, o', b);
    FlattenAround(BatchResults(c, o), b);
  }
}
