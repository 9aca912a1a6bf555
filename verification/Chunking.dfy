/** Fixed-size chunking with overlap: what the chunks are, that nothing is lost, and that short passages
    are never cut. */
module Chunking {
  import opened Optional

  datatype Chunk = Chunk(documentId: string, index: nat, content: string)

  function Min(a: int, b: int): int {
    if a <= b then a else b
  }

  /** Where chunk `i` starts. */
  function Start(i: nat, step: int): int {
    i * step
  }

  lemma {:induction false} NextStart(i: nat, step: int)
    ensures Start(i + 1, step) == Start(i, step) + step && Start(0, step) == 0 && (step > 0 ==> Start(i, step) >= 0)
  {
  }

  /** Where the slice from `start` to `stop` of a text of length `len` ends: a negative `stop` counts from
      the end of the text, and a slice never ends before it starts. */
  function SliceEnd(len: nat, start: nat, stop: int): (end: int)
    requires start <= len
    ensures start <= end <= len && (start <= stop ==> end == Min(len, stop))
  {
    var end := if stop >= 0 then Min(len, stop) else len + stop;
    if end < start then start else end
  }

  /** The window of chunk `i`: it starts at a multiple of the step and is cut off at the end. */
  function Window(content: string, size: int, start: int): string
    requires 0 <= start <= |content|
  {
    content[start..SliceEnd(|content|, start, start + size)]
  }

  /** With chunks of a positive size the window is cut off at the end of the text, and nowhere else. */
  lemma {:induction false} WindowIs(content: string, size: nat, start: nat)
    requires size > 0 && start <= |content|
    ensures Window(content, size, start) == content[start..Min(|content|, start + size)]
  {
  }

  ghost predicate AreChunks(chunks: seq<Chunk>, content: string, size: int, overlap: int)
    requires overlap < size
  {
    var step := size - overlap;
    && (forall i :: 0 <= i < |chunks| ==>
          0 <= Start(i, step) < |content| && chunks[i].index == i
              && chunks[i].content == Window(content, size, Start(i, step)))
    && Start(|chunks|, step) >= |content|
  }

  class FixedSizeChunker {
    const size: int
    const overlap: int

    ghost predicate Valid() {
      overlap < size
    }

    constructor (size: int, overlap: int)
      requires overlap < size
      ensures Valid() && this.size == size && this.overlap == overlap
    {
      this.size, this.overlap := size, overlap;
    }

    /** The check of the configuration: the overlap must be smaller than the chunks. */
    static method Make(size: int, overlap: int) returns (chunker: Option<FixedSizeChunker>)
      ensures chunker.Some? <==> overlap < size
      ensures chunker.Some? ==> chunker.value.Valid() && chunker.value.size == size && chunker.value.overlap == overlap
    {
      if overlap >= size {
        return None;
      }
      var c := new FixedSizeChunker(size, overlap);
      chunker := Some(c);
    }

    method Split(documentId: string, content: string) returns (chunks: seq<Chunk>)
      requires Valid()
      ensures AreChunks(chunks, content, size, overlap)
      ensures forall c :: c in chunks ==> c.documentId == documentId
    {
      chunks := [];
      if content == "" {
        NextStart(0, size - overlap);
        return;
      }
      hide Start, SliceEnd;
      var step := size - overlap;
      var start, index := 0, 0;
      NextStart(0, step);
      while start < |content|
        invariant index == |chunks| && start == Start(index, step) && 0 <= start
        invariant forall i :: 0 <= i < |chunks| ==>
                    0 <= Start(i, step) < |content| && chunks[i].index == i
                        && chunks[i].content == Window(content, size, Start(i, step))
        invariant forall c :: c in chunks ==> c.documentId == documentId
        decreases |content| - start
      {
        var piece := content[start..SliceEnd(|content|, start, start + size)];
        assert piece == Window(content, size, start);
        chunks := chunks + [Chunk(documentId, index, piece)];
        index := index + 1;
        NextStart(index - 1, step);
        start := start + step;
      }
    }
  }

  /** The number of chunks is the length divided by the step, rounded up. */
  lemma {:induction false} ChunkCount(chunks: seq<Chunk>, content: string, size: int, overlap: int)
    requires overlap < size && AreChunks(chunks, content, size, overlap)
    ensures |chunks| == (|content| + (size - overlap) - 1) / (size - overlap)
  {
    var n, step, len := |chunks|, size - overlap, |content|;
    if n > 0 {
      assert chunks[n - 1].index == n - 1;
      NextStart(n - 1, step);
    }
    CeilingIs(n, step, len);
  }

  lemma {:induction false} CeilingIs(n: nat, step: int, len: nat)
    requires step > 0 && n * step >= len && (n > 0 ==> n * step - step < len)
    ensures n == (len + step - 1) / step
  {
    var q := (len + step - 1) / step;
    assert q * step <= len + step - 1 < q * step + step;
    assert q < n ==> (q + 1) * step <= n * step;
    assert q > n ==> (n + 1) * step <= q * step;
  }

  lemma {:induction false} StartsRise(a: nat, b: nat, step: int)
    requires a <= b && step > 0
    ensures Start(a, step) <= Start(b, step)
  {
    assert a * step <= b * step;
  }

  // ---------- nothing is lost ----------

  function Drop(s: string, n: nat): string {
    if n <= |s| then s[n..] else ""
  }

  /** Gluing the chunks together again, without what each repeats of the one before. */
  ghost function Glued(chunks: seq<Chunk>, overlap: nat): string {
    if chunks == [] then ""
    else if |chunks| == 1 then chunks[0].content
    else Glued(chunks[..|chunks| - 1], overlap) + Drop(chunks[|chunks| - 1].content, overlap)
  }

  /** The first `n` chunks glued together are the text up to the end of the last of them. */
  lemma {:induction false} GluedPrefix(chunks: seq<Chunk>, content: string, size: int, overlap: nat, n: nat)
    requires overlap < size && AreChunks(chunks, content, size, overlap) && 1 <= n <= |chunks|
    ensures 0 <= Start(n - 1, size - overlap)
            && Glued(chunks[..n], overlap) == content[..Min(|content|, Start(n - 1, size - overlap) + size)]
  {
    hide Start, Window, SliceEnd, Drop;
    var step, len := size - overlap, |content|;
    NextStart(n - 1, step);
    var start := Start(n - 1, step);
    WindowIs(content, size, start);
    assert chunks[n - 1].content == content[start..Min(len, start + size)];
    if n == 1 {
      NextStart(0, step);
      assert chunks[..1] == [chunks[0]];
    } else {
      GluedPrefix(chunks, content, size, overlap, n - 1);
      NextStart(n - 2, step);
      GluedNext(chunks, overlap, n);
      GlueStep(content, start, Min(len, start + size), overlap);
    }
  }

  lemma {:induction false} GluedNext(chunks: seq<Chunk>, overlap: nat, n: nat)
    requires 2 <= n <= |chunks|
    ensures Glued(chunks[..n], overlap) == Glued(chunks[..n - 1], overlap) + Drop(chunks[n - 1].content, overlap)
  {
    assert chunks[..n][..n - 1] == chunks[..n - 1];
  }

  lemma {:induction false} GlueStep(content: string, start: nat, end: nat, overlap: nat)
    requires start <= end <= |content|
    requires end < start + overlap ==> end == |content|
    ensures content[..Min(|content|, start + overlap)] + Drop(content[start..end], overlap) == content[..end]
  {
  }

  lemma {:induction false} GluedNothing(overlap: nat)
    ensures Glued([], overlap) == ""
  {
  }

  lemma {:induction false} ChunksRestoreContent(chunks: seq<Chunk>, content: string, size: int, overlap: nat)
    requires overlap < size && AreChunks(chunks, content, size, overlap)
    ensures Glued(chunks, overlap) == content
  {
    hide Start, Window, SliceEnd, Glued, Drop;
    var n := |chunks|;
    NextStart(0, size - overlap);
    if n == 0 {
      assert chunks == [] && content == "";
      GluedNothing(overlap);
    } else {
      GluedPrefix(chunks, content, size, overlap, n);
      assert chunks[..n] == chunks;
      NextStart(n - 1, size - overlap);
      assert content[..|content|] == content;
    }
  }

  // ---------- short passages stay whole ----------

  /** The passage at `p` lies in the chunk that starts at `start`. */
  ghost predicate Inside(content: string, size: int, start: int, p: nat, length: nat) {
    start <= p && p + length <= Min(|content|, start + size)
  }

  lemma {:induction false} StartBelow(p: nat, step: int) returns (i: nat)
    requires step > 0
    ensures Start(i, step) <= p < Start(i, step) + step
  {
    i := p / step;
  }

  lemma {:induction false} SliceOfSlice(content: string, a: nat, b: nat, p: nat, q: nat)
    requires a <= p <= q <= b <= |content|
    ensures content[a..b][p - a..q - a] == content[p..q]
  {
    var window := content[a..b];
    var part := window[p - a..q - a];
    assert |part| == q - p;
    forall i | 0 <= i < q - p ensures part[i] == content[p..q][i] {
      assert part[i] == window[p - a + i];
    }
  }

  /** Any passage of at most `overlap + 1` characters lies whole inside some chunk. */
  lemma {:induction false} PassageInChunk(chunks: seq<Chunk>, content: string, size: int, overlap: nat, p: nat,
                                          length: nat)
    returns (i: nat)
    requires overlap < size && AreChunks(chunks, content, size, overlap)
    requires p < |content| && p + length <= |content| && length <= overlap + 1
    ensures i < |chunks| && Inside(content, size, Start(i, size - overlap), p, length)
    ensures var start := Start(i, size - overlap);
            p + length - start <= |chunks[i].content|
                && content[p..p + length] == chunks[i].content[p - start..p + length - start]
  {
    hide Start, Window, SliceEnd;
    i := StartBelow(p, size - overlap);
    NextStart(i, size - overlap);
    var start := Start(i, size - overlap);
    if i >= |chunks| { StartsRise(|chunks|, i, size - overlap); }
    WindowIs(content, size, start);
    SliceOfSlice(content, start, Min(|content|, start + size), p, p + length);
    assert chunks[i].content == content[start..Min(|content|, start + size)];
  }

  /** Some chunk contains the character at `p`. */
  ghost predicate Covered(chunks: seq<Chunk>, content: string, size: int, step: int, p: nat) {
    exists i :: 0 <= i < |chunks| && 0 <= Start(i, step) <= p < |content|
                && p < SliceEnd(|content|, Start(i, step), Start(i, step) + size)
  }

  ghost predicate AllCovered(chunks: seq<Chunk>, content: string, size: int, step: int) {
    forall p: nat | p < |content| :: Covered(chunks, content, size, step, p)
  }

  /** With chunks of a positive size a character is covered by the window it lies in. */
  lemma {:induction false} InsideIsCovered(content: string, size: nat, start: nat, p: nat)
    requires size > 0 && start <= p < |content|
    ensures Inside(content, size, start, p, 1) <==> p < SliceEnd(|content|, start, start + size)
  {
  }

  /** With chunks of no size or less the last character is cut off everywhere. */
  lemma {:induction false} LastNotCovered(chunks: seq<Chunk>, content: string, size: int, step: int)
    requires size <= 0 && content != ""
    ensures !Covered(chunks, content, size, step, |content| - 1)
  {
  }

  /** A negative overlap is accepted too, and so is a size of zero or less.  Every character is in some chunk
      exactly if the overlap is not negative or the text fits one chunk. */
  lemma {:induction false} AllCoveredIff(chunks: seq<Chunk>, content: string, size: int, overlap: int)
    requires overlap < size && AreChunks(chunks, content, size, overlap)
    ensures AllCovered(chunks, content, size, size - overlap)
            <==> overlap >= 0 || |content| <= if size > 0 then size else 0
  {
    hide Start, SliceEnd, Covered, Window;
    var step := size - overlap;
    NextStart(0, step);
    if size <= 0 {
      if content != "" { LastNotCovered(chunks, content, size, step); }
    } else if overlap >= 0 {
      forall p: nat | p < |content| ensures Covered(chunks, content, size, step, p) {
        var i := PassageInChunk(chunks, content, size, overlap, p, 1);
        ShowCovered(chunks, content, size, step, i, p);
      }
    } else if |content| <= size {
      forall p: nat | p < |content| ensures Covered(chunks, content, size, step, p) {
        assert |chunks| > 0;
        ShowCovered(chunks, content, size, step, 0, p);
      }
    } else {
      GapNotCovered(chunks, content, size, step);
    }
  }

  lemma {:induction false} ShowCovered(chunks: seq<Chunk>, content: string, size: nat, step: int, i: nat, p: nat)
    requires size > 0 && i < |chunks| && p < |content| && 0 <= Start(i, step)
             && Inside(content, size, Start(i, step), p, 1)
    ensures Covered(chunks, content, size, step, p)
  {
    hide Start;
    InsideIsCovered(content, size, Start(i, step), p);
  }

  /** The character behind the first chunk, if the next chunk starts after it. */
  lemma {:induction false} GapNotCovered(chunks: seq<Chunk>, content: string, size: nat, step: int)
    requires 0 < size < step && size < |content|
    ensures !Covered(chunks, content, size, step, size)
  {
    hide Start;
    NextStart(0, step);
    NextStart(1, step);
    forall i | 0 <= i < |chunks| && 0 <= Start(i, step) <= size
      ensures size >= SliceEnd(|content|, Start(i, step), Start(i, step) + size)
    {
      if i >= 1 { StartsRise(1, i, step); }
    }
  }
}
