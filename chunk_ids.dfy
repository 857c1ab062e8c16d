/** The loop that turns the loaded documents into index-aligned chunk, metadata and id lists. */
module ChunkIds {
  import opened Strings
  import opened Chunker
  import opened PdfLoader

  /** `{"source": ..., "chunk_idx": ...}` */
  datatype ChunkMetadata = ChunkMetadata(source: string, chunkIdx: nat)

  /** A chunk together with where it came from: chunk `chunkIndex` of document `docIndex`. */
  datatype ChunkEntry = ChunkEntry(docIndex: nat, chunkIndex: nat, source: string, text: string)

  /** `f"{source.replace('.pdf', '')}_{docIndex}_{chunkIndex}"` */
  function ChunkId(source: string, docIndex: nat, chunkIndex: nat): string {
    Replace(source, ".pdf", "") + "_" + NatToString(docIndex) + "_" + NatToString(chunkIndex)
  }

  /** `chunk_text(doc["text"])` with its default window. */
  function DocumentChunks(doc: Document): seq<string> {
    Chunks(doc.text, DefaultChunkSize, DefaultOverlap)
  }

  function DocumentEntries(docIndex: nat, doc: Document): seq<ChunkEntry> {
    var chunks := DocumentChunks(doc);
    seq(|chunks|, i requires 0 <= i < |chunks| => ChunkEntry(docIndex, i, doc.source, chunks[i]))
  }

  /** Every chunk of every document, documents numbered in order. */
  function Entries(docs: seq<Document>): seq<ChunkEntry> {
    if docs == [] then []
    else Entries(docs[..|docs| - 1]) + DocumentEntries(|docs| - 1, docs[|docs| - 1])
  }

  function Texts(es: seq<ChunkEntry>): seq<string> {
    seq(|es|, j requires 0 <= j < |es| => es[j].text)
  }

  function Metadatas(es: seq<ChunkEntry>): seq<ChunkMetadata> {
    seq(|es|, j requires 0 <= j < |es| => ChunkMetadata(es[j].source, es[j].chunkIndex))
  }

  function Ids(es: seq<ChunkEntry>): seq<string> {
    seq(|es|, j requires 0 <= j < |es| => ChunkId(es[j].source, es[j].docIndex, es[j].chunkIndex))
  }

  lemma ListsSnoc(es: seq<ChunkEntry>, e: ChunkEntry)
    ensures Texts(es + [e]) == Texts(es) + [e.text]
    ensures Metadatas(es + [e]) == Metadatas(es) + [ChunkMetadata(e.source, e.chunkIndex)]
    ensures Ids(es + [e]) == Ids(es) + [ChunkId(e.source, e.docIndex, e.chunkIndex)]
  {
  }

  /** The builder's chunking step: the nested loop over documents and their chunks, with the document counter. */
  method AssembleChunks(docs: seq<Document>) returns (allChunks: seq<string>, chunkMetadata: seq<ChunkMetadata>, chunkIds: seq<string>)
    ensures allChunks == Texts(Entries(docs))
    ensures chunkMetadata == Metadatas(Entries(docs))
    ensures chunkIds == Ids(Entries(docs))
    ensures Distinct(chunkIds)
  {
    allChunks, chunkMetadata, chunkIds := [], [], [];
    var docIdCounter := 0;
    for d := 0 to |docs|
      invariant docIdCounter == d
      invariant allChunks == Texts(Entries(docs[..d]))
      invariant chunkMetadata == Metadatas(Entries(docs[..d]))
      invariant chunkIds == Ids(Entries(docs[..d]))
    {
      var doc := docs[d];
      var textChunks := ChunkText(doc.text, DefaultChunkSize, DefaultOverlap);
      ghost var done := Entries(docs[..d]);
      ghost var mine := DocumentEntries(d, doc);
      for i := 0 to |textChunks|
        invariant allChunks == Texts(done + mine[..i])
        invariant chunkMetadata == Metadatas(done + mine[..i])
        invariant chunkIds == Ids(done + mine[..i])
      {
        var chunkId := ChunkId(doc.source, docIdCounter, i);
        assert done + mine[..i + 1] == (done + mine[..i]) + [mine[i]];
        ListsSnoc(done + mine[..i], mine[i]);
        allChunks := allChunks + [textChunks[i]];
        chunkMetadata := chunkMetadata + [ChunkMetadata(doc.source, i)];
        chunkIds := chunkIds + [chunkId];
      }
      assert mine[..|textChunks|] == mine;
      assert docs[..d + 1][..d] == docs[..d];
      docIdCounter := docIdCounter + 1;
    }
    assert docs[..|docs|] == docs;
    IdsDistinct(docs);
  }

  /**
   * Entry `j` is chunk `chunkIndex` of document `docIndex`, carries that document's source,
   * and the entries are in strictly increasing (document, chunk) order.
   */
  lemma {:induction false} EntriesShape(docs: seq<Document>)
    ensures forall j :: 0 <= j < |Entries(docs)| ==> EntryOf(docs, Entries(docs)[j])
    ensures forall j1, j2 :: 0 <= j1 < j2 < |Entries(docs)| ==> Precedes(Entries(docs)[j1], Entries(docs)[j2])
    decreases |docs|
  {
    if docs != [] {
      var init := docs[..|docs| - 1];
      EntriesShape(init);
      var es, mine := Entries(init), DocumentEntries(|docs| - 1, docs[|docs| - 1]);
      assert Entries(docs) == es + mine;
      forall j | 0 <= j < |es| ensures EntryOf(docs, es[j]) {
        assert EntryOf(init, es[j]);
        assert docs[es[j].docIndex] == init[es[j].docIndex];
      }
    }
  }

  /** `e` is chunk `e.chunkIndex` of document `e.docIndex` of `docs`, with that document's source. */
  predicate EntryOf(docs: seq<Document>, e: ChunkEntry) {
    && e.docIndex < |docs|
    && e.source == docs[e.docIndex].source
    && e.chunkIndex < |DocumentChunks(docs[e.docIndex])|
    && e.text == DocumentChunks(docs[e.docIndex])[e.chunkIndex]
  }

  predicate Precedes(a: ChunkEntry, b: ChunkEntry) {
    a.docIndex < b.docIndex || (a.docIndex == b.docIndex && a.chunkIndex < b.chunkIndex)
  }

  /** The id can be read back from the right: its last two fields are the chunk and document numbers. */
  lemma ChunkIdParse(source: string, docIndex: nat, chunkIndex: nat)
    ensures AfterLast(ChunkId(source, docIndex, chunkIndex), '_') == NatToString(chunkIndex)
    ensures AfterLast(BeforeLast(ChunkId(source, docIndex, chunkIndex), '_'), '_') == NatToString(docIndex)
    ensures BeforeLast(BeforeLast(ChunkId(source, docIndex, chunkIndex), '_'), '_') == Replace(source, ".pdf", "")
  {
    var stem := Replace(source, ".pdf", "");
    var head := stem + "_" + NatToString(docIndex);
    assert ChunkId(source, docIndex, chunkIndex) == head + ['_'] + NatToString(chunkIndex);
    SplitLastField(head, '_', NatToString(chunkIndex));
    assert head == stem + ['_'] + NatToString(docIndex);
    SplitLastField(stem, '_', NatToString(docIndex));
  }

  /** Two ids are equal only if their document and chunk numbers are, whatever the file names. */
  lemma ChunkIdInjective(s1: string, d1: nat, i1: nat, s2: string, d2: nat, i2: nat)
    requires ChunkId(s1, d1, i1) == ChunkId(s2, d2, i2)
    ensures d1 == d2 && i1 == i2
  {
    ChunkIdParse(s1, d1, i1);
    ChunkIdParse(s2, d2, i2);
    NatToStringInjective(i1, i2);
    NatToStringInjective(d1, d2);
  }

  /** The ids of one run are pairwise distinct. */
  lemma IdsDistinct(docs: seq<Document>)
    ensures Distinct(Ids(Entries(docs)))
  {
    EntriesShape(docs);
    var es := Entries(docs);
    forall j1, j2 | 0 <= j1 < j2 < |es|
      ensures Ids(es)[j1] != Ids(es)[j2]
    {
      assert Precedes(es[j1], es[j2]);
      if Ids(es)[j1] == Ids(es)[j2] {
        ChunkIdInjective(es[j1].source, es[j1].docIndex, es[j1].chunkIndex, es[j2].source, es[j2].docIndex, es[j2].chunkIndex);
        assert false;
      }
    }
  }
}
