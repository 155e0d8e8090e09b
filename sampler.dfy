/**
 * `TextSamplerDataset` (train.py:64-76): a dataset over a byte buffer whose every
 * item is a random contiguous window of `seq_len + 1` bytes, the model's input and
 * its one-step-shifted target.
 */
module Sampler {
  import opened Results
  import opened Corpus
  import Arith

  /** The exceptions the dataset's two accessors can raise. */
  datatype SamplerError =
    | ZeroWindowLength   // `__len__`: `n // 0` raises ZeroDivisionError
    | EmptyStartRange    // `__getitem__`: `torch.randint(0, n - seq_len)` with an empty range raises

  datatype TextSampler = TextSampler(data: seq<Byte>, seqLen: nat)
  {
    /** Some start offset can be drawn: `[0, n - seq_len)` is not empty. */
    predicate CanSample() {
      |data| > seqLen
    }

    /** `start` is a value `torch.randint(0, n - seq_len, (1,))` can return. */
    predicate StartInRange(start: int) {
      0 <= start < |data| - seqLen
    }

    /**
     * `__len__`: `n // seq_len`, the number of whole windows of `seq_len` bytes in the
     * buffer. It depends only on the buffer length and the window length.
     */
    function Len(): (r: Result<nat, SamplerError>)
      ensures r.Ok? <==> seqLen > 0
      ensures r.Ok? ==> r.value * seqLen <= |data| < (r.value + 1) * seqLen
      ensures r.Err? ==> r.error == ZeroWindowLength
    {
      if seqLen == 0 then Err(ZeroWindowLength) else Ok(|data| / seqLen)
    }

    /**
     * `__getitem__`, with the random start drawn by `torch.randint` passed in as
     * `start`. The index argument is ignored, as in the source. The result is the
     * unaltered window `data[start .. start + seq_len]` (inclusive), widened to int.
     */
    function GetItem(start: int): (r: Result<seq<int>, SamplerError>)
      requires CanSample() ==> StartInRange(start)
      ensures r.Ok? <==> CanSample()
      ensures r.Ok? ==> |r.value| == seqLen + 1 && start + |r.value| <= |data|
      ensures r.Ok? ==> forall k :: 0 <= k < |r.value| ==> r.value[k] == data[start + k]
      ensures r.Ok? ==> forall k :: 0 <= k < |r.value| ==> 0 <= r.value[k] < 256
      ensures r.Err? ==> r.error == EmptyStartRange
    {
      if !CanSample() then Err(EmptyStartRange)
      else Ok(data[start..start + seqLen + 1])
    }
  }

  /** The floor-division characterisation determines the reported length. */
  lemma LenIsUnique(ds: TextSampler, q: nat)
    requires ds.seqLen > 0 && q * ds.seqLen <= |ds.data| < (q + 1) * ds.seqLen
    ensures ds.Len() == Ok(q)
  {
    var r := |ds.data| - q * ds.seqLen;
    assert |ds.data| == q * ds.seqLen + r;
    Arith.DivModUnique(|ds.data|, ds.seqLen, q, r);
  }

  /** `SEQ_LEN`: the window length both datasets are built with. */
  const SEQ_LEN := 2048

  /**
   * On a full corpus both datasets can be sampled, and their reported lengths are
   * 90,000,000 // 2048 == 43945 and 5,000,000 // 2048 == 2441.
   */
  lemma ScriptDatasets(stream: seq<Byte>)
    requires |stream| >= CORPUS_BYTES
    ensures var (train, valid) := LoadCorpus(stream);
      && TextSampler(train, SEQ_LEN).CanSample() && TextSampler(valid, SEQ_LEN).CanSample()
      && TextSampler(train, SEQ_LEN).Len() == Ok(43945)
      && TextSampler(valid, SEQ_LEN).Len() == Ok(2441)
  {
    FullCorpusSizes(stream);
    var (train, valid) := LoadCorpus(stream);
    LenIsUnique(TextSampler(train, SEQ_LEN), 43945);
    LenIsUnique(TextSampler(valid, SEQ_LEN), 2441);
  }
}
