/** The sliding-window chunker `chunk_text` of the PDF knowledge-base builder. */
module Chunker {
  import opened Strings

  /** The defaults `chunk_text` is called with. */
  const DefaultChunkSize: int := 700
  const DefaultOverlap: int := 100

  /** The windows `text[start:start+chunkSize]`, `text[start+step:...]`, ... whose start lies inside the text. */
  function ChunksFrom(text: string, chunkSize: int, step: int, start: nat): seq<string>
    requires step > 0
    decreases |text| - start
  {
    if start >= |text| then []
    else [PySlice(text, start, start + chunkSize)] + ChunksFrom(text, chunkSize, step, start + step)
  }

  /** What `chunk_text(text, chunkSize, overlap)` returns; the window advances by `chunkSize - overlap`. */
  function Chunks(text: string, chunkSize: int, overlap: int): seq<string>
    requires chunkSize > overlap
  {
    ChunksFrom(text, chunkSize, chunkSize - overlap, 0)
  }

  /**
   * The loop of `chunk_text`. It terminates only because `chunkSize > overlap`: with a step of zero
   * or less the clamp to 0 would keep `start` from ever reaching the end of non-empty text.
   */
  method ChunkText(text: string, chunkSize: int, overlap: int) returns (chunks: seq<string>)
    requires chunkSize > overlap
    ensures chunks == Chunks(text, chunkSize, overlap)
    ensures chunks == [] <==> text == []
  {
    chunks := [];
    var start: int := 0;
    while start < |text|
      invariant 0 <= start
      invariant chunks + ChunksFrom(text, chunkSize, chunkSize - overlap, start) == Chunks(text, chunkSize, overlap)
      invariant chunks == [] <==> start == 0
      decreases |text| - start
    {
      var end := start + chunkSize;
      var chunk := PySlice(text, start, end);
      chunks := chunks + [chunk];
      start := start + (chunkSize - overlap);
      if start < 0 {
        start := 0;
      }
    }
  }

  lemma {:induction false} ChunksFromAt(text: string, chunkSize: int, step: int, start: nat, k: nat)
    requires step > 0
    requires k < |ChunksFrom(text, chunkSize, step, start)|
    ensures start + k * step < |text|
    ensures ChunksFrom(text, chunkSize, step, start)[k] == PySlice(text, start + k * step, start + k * step + chunkSize)
    decreases k
  {
    if k > 0 {
      ChunksFromAt(text, chunkSize, step, start + step, k - 1);
      MulSucc(k - 1, step);
    }
  }

  /** Chunk `k` is the slice `text[k*step : k*step+chunkSize]`, and its start lies inside the text. */
  lemma ChunkAt(text: string, chunkSize: int, overlap: int, k: nat)
    requires chunkSize > overlap
    requires k < |Chunks(text, chunkSize, overlap)|
    ensures k * (chunkSize - overlap) < |text|
    ensures Chunks(text, chunkSize, overlap)[k]
         == PySlice(text, k * (chunkSize - overlap), k * (chunkSize - overlap) + chunkSize)
  {
    ChunksFromAt(text, chunkSize, chunkSize - overlap, 0, k);
  }

  lemma {:induction false} ChunksFromCount(text: string, chunkSize: int, step: int, start: nat)
    requires step > 0
    ensures |ChunksFrom(text, chunkSize, step, start)| * step >= |text| - start
    ensures start < |text| ==> (|ChunksFrom(text, chunkSize, step, start)| - 1) * step < |text| - start
    decreases |text| - start
  {
    if start < |text| {
      ChunksFromCount(text, chunkSize, step, start + step);
      MulSucc(|ChunksFrom(text, chunkSize, step, start + step)|, step);
    }
  }

  lemma MulSucc(k: int, step: int)
    ensures (k + 1) * step == k * step + step
  {}

  lemma MulMonotone(a: int, b: int, d: int)
    requires a <= b && d > 0
    ensures a * d <= b * d
  {}

  /** Integer division is determined by the multiple of `d` just below `n`. */
  lemma DivUnique(n: int, d: int, q: int)
    requires d > 0
    requires q * d <= n < q * d + d
    ensures n / d == q
  {
    var q' := n / d;
    if q' > q {
      MulMonotone(q + 1, q', d);
      MulSucc(q, d);
      assert false;
    } else if q' < q {
      MulMonotone(q' + 1, q, d);
      MulSucc(q', d);
      assert false;
    }
  }

  /** The number of chunks is `ceil(len(text) / (chunkSize - overlap))`. */
  lemma ChunkCount(text: string, chunkSize: int, overlap: int)
    requires chunkSize > overlap
    ensures |Chunks(text, chunkSize, overlap)| == (|text| + (chunkSize - overlap) - 1) / (chunkSize - overlap)
  {
    var step := chunkSize - overlap;
    ChunksFromCount(text, chunkSize, step, 0);
    var m := |Chunks(text, chunkSize, overlap)|;
    if |text| > 0 {
      MulSucc(m - 1, step);
      DivUnique(|text| + step - 1, step, m);
    } else {
      assert m == 0;
      DivUnique(step - 1, step, 0);
    }
  }

  lemma {:induction false} ChunksFromBounds(text: string, chunkSize: int, step: int, start: nat)
    requires step > 0 && chunkSize > 0
    ensures forall c :: c in ChunksFrom(text, chunkSize, step, start) ==> 0 < |c| <= chunkSize
    decreases |text| - start
  {
    if start < |text| {
      ChunksFromBounds(text, chunkSize, step, start + step);
    }
  }

  /** With a positive window every chunk is non-empty and at most `chunkSize` characters long. */
  lemma ChunkBounds(text: string, chunkSize: int, overlap: int)
    requires chunkSize > overlap && chunkSize > 0
    ensures forall c :: c in Chunks(text, chunkSize, overlap) ==> 0 < |c| <= chunkSize
  {
    ChunksFromBounds(text, chunkSize, chunkSize - overlap, 0);
  }

  /** `chunk[overlap:]` of every chunk, concatenated. */
  function DropOverlaps(chunks: seq<string>, overlap: int): string
    decreases |chunks|
  {
    if chunks == [] then "" else PySliceFrom(chunks[0], overlap) + DropOverlaps(chunks[1..], overlap)
  }

  /** The first chunk followed by every later chunk with its leading `overlap` characters removed. */
  function Reassemble(chunks: seq<string>, overlap: int): string {
    if chunks == [] then "" else chunks[0] + DropOverlaps(chunks[1..], overlap)
  }

  lemma {:induction false} DropOverlapsFrom(text: string, chunkSize: int, overlap: int, s: nat)
    requires 0 <= overlap < chunkSize
    ensures DropOverlaps(ChunksFrom(text, chunkSize, chunkSize - overlap, s + (chunkSize - overlap)), overlap)
         == text[Min(s + chunkSize, |text|)..]
    decreases |text| - s
  {
    var step, n := chunkSize - overlap, |text|;
    var s2 := s + step;
    if s2 < n {
      var e1, e2 := Min(s + chunkSize, n), Min(s2 + chunkSize, n);
      DropOverlapsFrom(text, chunkSize, overlap, s2);
      var c := PySlice(text, s2, s2 + chunkSize);
      assert c == text[s2..e2];
      var rest := ChunksFrom(text, chunkSize, step, s2 + step);
      assert ChunksFrom(text, chunkSize, step, s2) == [c] + rest;
      assert DropOverlaps(rest, overlap) == text[e2..];
      var head := PySliceFrom(c, overlap);
      assert DropOverlaps([c] + rest, overlap) == head + DropOverlaps(rest, overlap);
      assert e1 <= e2;
      assert head == text[e1..e2] by {
        if overlap <= |c| {
          assert head == c[overlap..];
        } else {
          assert e1 == e2 == n;
        }
      }
      assert text[e1..e2] + text[e2..] == text[e1..];
    }
  }

  /** Coverage round trip: the chunks, overlaps removed, give back the text exactly. */
  lemma RoundTrip(text: string, chunkSize: int, overlap: int)
    requires 0 <= overlap < chunkSize
    ensures Reassemble(Chunks(text, chunkSize, overlap), overlap) == text
  {
    if text != [] {
      var step := chunkSize - overlap;
      DropOverlapsFrom(text, chunkSize, overlap, 0);
      assert Chunks(text, chunkSize, overlap) == [PySlice(text, 0, chunkSize)] + ChunksFrom(text, chunkSize, step, step);
    }
  }
}
