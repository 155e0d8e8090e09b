/**
 * Preparing the enwik8 data (train.py:59-62): read at most 95,000,000 bytes of the
 * decompressed corpus and cut them at byte 90,000,000 into a training prefix and a
 * validation suffix.
 */
module Corpus {

  type Byte = b: int | 0 <= b < 256

  /** `file.read(int(95e6))`: the number of bytes requested. */
  const CORPUS_BYTES := 95_000_000
  /** `np.split(data, [int(90e6)])`: the split offset. */
  const TRAIN_BYTES := 90_000_000

  function Min(a: int, b: int): int { if a <= b then a else b }

  /**
   * `file.read(CORPUS_BYTES)` on the decompressed stream: at most that many bytes, fewer
   * when the stream ends first.
   */
  function ReadCorpus(stream: seq<Byte>): (data: seq<Byte>)
    ensures |data| == Min(CORPUS_BYTES, |stream|)
    ensures data <= stream
  {
    if |stream| <= CORPUS_BYTES then stream else stream[..CORPUS_BYTES]
  }

  /**
   * `np.split(data, [offset])`: the prefix before `offset` and the rest. Like all
   * numpy slicing it clamps an offset beyond the end, leaving the suffix empty.
   */
  function SplitAt(data: seq<Byte>, offset: nat): (parts: (seq<Byte>, seq<Byte>))
    ensures parts.0 + parts.1 == data
    ensures |parts.0| == Min(offset, |data|)
  {
    var cut := Min(offset, |data|);
    (data[..cut], data[cut..])
  }

  /** The script's data preparation: the training and the validation buffer. */
  function LoadCorpus(stream: seq<Byte>): (parts: (seq<Byte>, seq<Byte>))
    ensures parts.0 + parts.1 <= stream
    ensures |parts.0 + parts.1| == Min(CORPUS_BYTES, |stream|)
    ensures |parts.0| == Min(TRAIN_BYTES, |stream|)
  {
    SplitAt(ReadCorpus(stream), TRAIN_BYTES)
  }

  /**
   * The two buffers partition the bytes read: the training buffer is exactly the bytes
   * at positions below the offset and the validation buffer exactly those at or above
   * it, so no byte position is in both.
   */
  lemma {:induction false} SplitPartitions(data: seq<Byte>, offset: nat)
    ensures var (train, valid) := SplitAt(data, offset);
      && (forall i :: 0 <= i < |train| ==> i < offset && train[i] == data[i])
      && (forall j :: 0 <= j < |valid| ==> offset <= |train| + j && valid[j] == data[|train| + j])
      && |train| + |valid| == |data|
  {
    var (train, valid) := SplitAt(data, offset);
    forall j | 0 <= j < |valid| ensures offset <= |train| + j && valid[j] == data[|train| + j] {
      assert data[|train| + j] == (train + valid)[|train| + j];
    }
  }

  /**
   * On a stream of at least 95,000,000 bytes the training buffer is the first
   * 90,000,000 bytes and the validation buffer the next 5,000,000.
   */
  lemma FullCorpusSizes(stream: seq<Byte>)
    requires |stream| >= CORPUS_BYTES
    ensures var (train, valid) := LoadCorpus(stream);
      && |train| == 90_000_000 && |valid| == 5_000_000
      && train == stream[..90_000_000] && valid == stream[90_000_000..95_000_000]
  {
  }
}
