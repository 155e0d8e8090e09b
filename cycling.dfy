/**
 * `cycle(loader)` (train.py:27-29): `while True: yield from loader`. Each pass of the
 * `while` loop re-iterates the finite source from its start, so the stream never ends.
 * The source is a fixed sequence of opaque items (the batches one pass of the data
 * loader yields).
 */
module Cycling {
  import Arith

  /** The `k`-th item the generator yields (counting from 0). */
  function CycleAt<T>(source: seq<T>, k: nat): T
    requires |source| > 0
  {
    source[k % |source|]
  }

  /** The first `n` items the generator yields, one `next()` at a time. */
  function Cycled<T>(source: seq<T>, n: nat): seq<T>
    requires |source| > 0
  {
    if n == 0 then [] else Cycled(source, n - 1) + [CycleAt(source, n - 1)]
  }

  /** What `p` turns of `while True: yield from loader` produce: `p` whole passes. */
  function Passes<T>(source: seq<T>, p: nat): seq<T>
  {
    if p == 0 then [] else Passes(source, p - 1) + source
  }

  /** The `k`-th item of the stream is `source[k mod |source|]`. */
  lemma {:induction false} CycledAt<T>(source: seq<T>, n: nat, k: nat)
    requires |source| > 0 && k < n
    ensures |Cycled(source, n)| == n
    ensures Cycled(source, n)[k] == source[k % |source|]
  {
    CycledLength(source, n - 1);
    if k < n - 1 {
      CycledAt(source, n - 1, k);
    }
  }

  lemma {:induction false} CycledLength<T>(source: seq<T>, n: nat)
    requires |source| > 0
    ensures |Cycled(source, n)| == n
  {
    if n > 0 {
      CycledLength(source, n - 1);
    }
  }

  /**
   * Pulling more items extends what was pulled before: the first `n + m` items are the
   * first `n` followed by the next `m`.
   */
  lemma {:induction false} CycledPrefix<T>(source: seq<T>, n: nat, m: nat)
    requires |source| > 0
    ensures Cycled(source, n) <= Cycled(source, n + m)
  {
    if m > 0 {
      CycledPrefix(source, n, m - 1);
    }
  }

  /** Item `a + j` of the stream, for `a` a pass boundary and `j` inside the pass, is `source[j]`. */
  lemma CycledAtPassOffset<T>(source: seq<T>, a: nat, j: nat)
    requires |source| > 0 && a % |source| == 0 && j < |source|
    ensures |Cycled(source, a + |source|)| == a + |source|
    ensures Cycled(source, a + |source|)[a + j] == source[j]
  {
    CycledAt(source, a + |source|, a + j);
    Arith.DivModUnique(a + j, |source|, a / |source|, j);
  }

  /** From a pass boundary, the next `|source|` items are one whole pass, in order. */
  lemma {:induction false} CycledFullPass<T>(source: seq<T>, a: nat)
    requires |source| > 0 && a % |source| == 0
    ensures Cycled(source, a + |source|) == Cycled(source, a) + source
  {
    var n := |source|;
    var longer := Cycled(source, a + n);
    var shorter := Cycled(source, a);
    CycledLength(source, a);
    CycledLength(source, a + n);
    CycledPrefix(source, a, n);
    assert longer[..a] == shorter;
    forall j | 0 <= j < n ensures longer[a + j] == source[j] {
      CycledAtPassOffset(source, a, j);
    }
    assert longer[a..] == source;
    assert longer == longer[..a] + longer[a..];
  }

  /**
   * The index description agrees with the generator's structure: `p` whole passes
   * are exactly the first `p * |source|` items of the stream.
   */
  lemma {:induction false} PassesAreCycled<T>(source: seq<T>, p: nat)
    requires |source| > 0
    ensures Passes(source, p) == Cycled(source, p * |source|)
  {
    if p > 0 {
      var n := |source|;
      var a := (p - 1) * n;
      PassesAreCycled(source, p - 1);
      Arith.DivModUnique(a, n, p - 1, 0);
      CycledFullPass(source, a);
      assert a + n == p * n;
    }
  }

  /**
   * The running generator: a cursor into the current pass, reset to the start of the
   * source when the pass is exhausted. `count` is the number of items yielded so far.
   */
  class Cycler<T> {
    const source: seq<T>
    var cursor: nat
    ghost var count: nat

    ghost predicate Valid()
      reads this
    {
      if |source| == 0 then cursor == 0 && count == 0 else cursor == count % |source|
    }

    /** The items yielded so far. */
    ghost function Yielded(): seq<T>
      reads this
      requires |source| > 0
    {
      Cycled(source, count)
    }

    constructor (source: seq<T>)
      ensures Valid() && this.source == source && count == 0
    {
      this.source := source;
      cursor := 0;
      count := 0;
    }

    /**
     * `next()` on the generator. With an empty source the generator spins forever
     * without yielding, so a non-empty source is required.
     */
    method Next() returns (x: T)
      requires Valid() && |source| > 0
      modifies this
      ensures Valid() && count == old(count) + 1
      ensures x == CycleAt(source, old(count))
      ensures Yielded() == old(Yielded()) + [x]
    {
      x := source[cursor];
      Arith.ModSucc(count, |source|);
      cursor := cursor + 1;
      if cursor == |source| {
        cursor := 0;
      }
      count := count + 1;
    }
  }
}
