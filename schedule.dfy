/**
 * The schedule of the training loop of train.py (lines 89-122), as functions of the
 * run so far: what the loop hands the opaque model and optimizer, in what order, and
 * how far it advances the two cycled loaders. Every call into those collaborators is
 * an `Event`; the loop itself is in module TrainingLoop.
 */
module Schedule {
  import opened Results
  import opened Arith
  import opened Decoding
  import opened Sampler
  import opened Cycling

  const NUM_BATCHES := 100_000
  const GRADIENT_ACCUMULATE_EVERY := 4
  const VALIDATE_EVERY := 100
  const PRIME_LENGTH := 128
  const GENERATE_EVERY := 250
  const GENERATE_LENGTH := 2048
  /** The threshold `clip_grad_norm_` is called with. */
  const MAX_GRAD_NORM: real := 0.5

  /** A call the loop makes into the opaque model or optimizer. */
  datatype Event<B> =
    | TrainMode                                              // model.train()
    | Forward(batch: B)                                      // model(next(train_loader), memory_replay_backprop = True, ...)
    | ClipAndStep(maxNorm: real)                             // clip_grad_norm_, optim.step(), optim.zero_grad()
    | EvalMode                                               // model.eval()
    | Evaluate(batch: B)                                     // model(next(val_loader), return_loss = True)
    | Generate(prime: seq<int>, primeText: Text, length: nat) // decode_tokens(prime), model.generate(prime, length)

  /** Which of the two loaders a batch handed to the model came from. */
  datatype Loader = TrainLoader | ValLoader

  /** The start offset drawn for iteration `i` is usable wherever the loop samples. */
  predicate DrawOk(valSet: TextSampler, i: nat, start: int) {
    i % GENERATE_EVERY == 0 ==> valSet.StartInRange(start)
  }

  /** The validation dataset the script builds, and start offsets fit for it. */
  predicate ValidDraws(valSet: TextSampler, draws: seq<int>) {
    && valSet.seqLen == SEQ_LEN && valSet.CanSample()
    && forall i :: 0 <= i < |draws| ==> DrawOk(valSet, i, draws[i])
  }

  /**
   * `random.choice(val_dataset)[:PRIME_LENGTH]`: the first PRIME_LENGTH tokens of a
   * validation window. The window has SEQ_LEN + 1 >= PRIME_LENGTH tokens, so the slice
   * is never short.
   */
  function Prime(valSet: TextSampler, start: int): (prime: seq<int>)
    requires valSet.seqLen == SEQ_LEN && valSet.CanSample() && valSet.StartInRange(start)
    ensures |prime| == PRIME_LENGTH
    ensures forall k :: 0 <= k < |prime| ==> prime[k] == valSet.data[start + k]
    ensures forall k :: 0 <= k < |prime| ==> 0 <= prime[k] < 256
  {
    valSet.GetItem(start).value[..PRIME_LENGTH]
  }

  /** The generation call: the prime, its decoded text, and the number of tokens asked for. */
  function GenerationEvent<B>(valSet: TextSampler, start: int): Event<B>
    requires valSet.seqLen == SEQ_LEN && valSet.CanSample() && valSet.StartInRange(start)
  {
    var prime := Prime(valSet, start);
    Generate(prime, DecodeTokens(prime).value, GENERATE_LENGTH)
  }

  /** The first `k` micro-batch calls of an iteration whose first batch is stream item `first`. */
  function AccumulationEvents<B>(trainSrc: seq<B>, first: nat, k: nat): seq<Event<B>>
    requires |trainSrc| > 0
  {
    if k == 0 then [] else AccumulationEvents(trainSrc, first, k - 1) + [Forward(CycleAt(trainSrc, first + k - 1))]
  }

  /** The validation step of iteration `i`: taken when `i % VALIDATE_EVERY == 0`. */
  function ValidationEvents<B>(i: nat, valSrc: seq<B>): seq<Event<B>>
    requires |valSrc| > 0
  {
    if i % VALIDATE_EVERY == 0 then [EvalMode, Evaluate(CycleAt(valSrc, MultiplesBelow(i, VALIDATE_EVERY)))] else []
  }

  /** The generation step of iteration `i`: taken when `i % GENERATE_EVERY == 0`. */
  function GenerationEvents<B>(i: nat, valSet: TextSampler, start: int): seq<Event<B>>
    requires valSet.seqLen == SEQ_LEN && valSet.CanSample() && DrawOk(valSet, i, start)
  {
    if i % GENERATE_EVERY == 0 then [EvalMode, GenerationEvent(valSet, start)] else []
  }

  /**
   * The calls of iteration `i` (counting from 0) of a run that started with fresh
   * loaders: GRADIENT_ACCUMULATE_EVERY training batches, one clipped optimizer step,
   * then the validation and the generation steps.
   */
  function IterationEvents<B>(i: nat, trainSrc: seq<B>, valSrc: seq<B>, valSet: TextSampler, start: int): seq<Event<B>>
    requires |trainSrc| > 0 && |valSrc| > 0
    requires valSet.seqLen == SEQ_LEN && valSet.CanSample() && DrawOk(valSet, i, start)
  {
    [TrainMode]
    + AccumulationEvents(trainSrc, GRADIENT_ACCUMULATE_EVERY * i, GRADIENT_ACCUMULATE_EVERY)
    + [ClipAndStep(MAX_GRAD_NORM)]
    + ValidationEvents(i, valSrc)
    + GenerationEvents(i, valSet, start)
  }

  /** The calls of a run of `|draws|` iterations, `draws[i]` being the start drawn in iteration `i`. */
  function RunLog<B>(trainSrc: seq<B>, valSrc: seq<B>, valSet: TextSampler, draws: seq<int>): seq<Event<B>>
    requires |trainSrc| > 0 && |valSrc| > 0 && ValidDraws(valSet, draws)
  {
    if draws == [] then []
    else
      var n := |draws| - 1;
      RunLog(trainSrc, valSrc, valSet, draws[..n]) + IterationEvents(n, trainSrc, valSrc, valSet, draws[n])
  }

  /** Appending an iteration's calls one part at a time appends the whole iteration. */
  lemma IterationEventsAppend<B>(run: seq<Event<B>>, i: nat, trainSrc: seq<B>, valSrc: seq<B>, valSet: TextSampler, start: int)
    requires |trainSrc| > 0 && |valSrc| > 0
    requires valSet.seqLen == SEQ_LEN && valSet.CanSample() && DrawOk(valSet, i, start)
    ensures run + [TrainMode]
            + AccumulationEvents(trainSrc, GRADIENT_ACCUMULATE_EVERY * i, GRADIENT_ACCUMULATE_EVERY)
            + [ClipAndStep(MAX_GRAD_NORM)] + ValidationEvents(i, valSrc) + GenerationEvents<B>(i, valSet, start)
         == run + IterationEvents(i, trainSrc, valSrc, valSet, start)
  {
  }

  /** A run one iteration longer is the shorter run followed by that iteration. */
  lemma RunLogExtend<B>(trainSrc: seq<B>, valSrc: seq<B>, valSet: TextSampler, draws: seq<int>, start: int)
    requires |trainSrc| > 0 && |valSrc| > 0 && ValidDraws(valSet, draws) && DrawOk(valSet, |draws|, start)
    ensures ValidDraws(valSet, draws + [start])
    ensures RunLog(trainSrc, valSrc, valSet, draws + [start])
         == RunLog(trainSrc, valSrc, valSet, draws) + IterationEvents(|draws|, trainSrc, valSrc, valSet, start)
  {
    assert (draws + [start])[..|draws|] == draws;
  }

  /**
   * The state of the loop after the iterations that drew `draws`: how many items each
   * loader has yielded and the calls made so far.
   */
  ghost predicate RunState<B>(trainSrc: seq<B>, valSrc: seq<B>, valSet: TextSampler, draws: seq<int>,
                              trainCount: nat, valCount: nat, log: seq<Event<B>>)
  {
    && |trainSrc| > 0 && |valSrc| > 0 && ValidDraws(valSet, draws)
    && trainCount == GRADIENT_ACCUMULATE_EVERY * |draws|
    && valCount == MultiplesBelow(|draws|, VALIDATE_EVERY)
    && log == RunLog(trainSrc, valSrc, valSet, draws)
  }

  /** One more iteration takes a run state to the next one. */
  lemma RunStateStep<B>(trainSrc: seq<B>, valSrc: seq<B>, valSet: TextSampler, draws: seq<int>,
                        trainCount: nat, valCount: nat, log: seq<Event<B>>, start: int)
    requires RunState(trainSrc, valSrc, valSet, draws, trainCount, valCount, log)
    requires DrawOk(valSet, |draws|, start)
    ensures RunState(trainSrc, valSrc, valSet, draws + [start],
                     trainCount + GRADIENT_ACCUMULATE_EVERY,
                     valCount + (if |draws| % VALIDATE_EVERY == 0 then 1 else 0),
                     log + IterationEvents(|draws|, trainSrc, valSrc, valSet, start))
  {
    RunLogExtend(trainSrc, valSrc, valSet, draws, start);
  }

  /** The batches handed to the model from `loader`, in order. */
  function BatchesFed<B>(log: seq<Event<B>>, loader: Loader): seq<B>
  {
    if log == [] then []
    else
      var e := log[|log| - 1];
      BatchesFed(log[..|log| - 1], loader)
      + (if (loader == TrainLoader && e.Forward?) || (loader == ValLoader && e.Evaluate?) then [e.batch] else [])
  }

  /** The primes of the generation calls, in order. */
  function Primes<B>(log: seq<Event<B>>): seq<seq<int>>
  {
    if log == [] then [] else Primes(log[..|log| - 1]) + (if log[|log| - 1].Generate? then [log[|log| - 1].prime] else [])
  }

  lemma {:induction false} BatchesFedAppend<B>(a: seq<Event<B>>, b: seq<Event<B>>, loader: Loader)
    ensures BatchesFed(a + b, loader) == BatchesFed(a, loader) + BatchesFed(b, loader)
    ensures Primes(a + b) == Primes(a) + Primes(b)
  {
    if b == [] {
      assert a + b == a;
    } else {
      var n := |b| - 1;
      assert (a + b)[..|a + b| - 1] == a + b[..n];
      assert (a + b)[|a + b| - 1] == b[n];
      BatchesFedAppend(a, b[..n], loader);
    }
  }

  /** The micro-batch loop makes only training forward calls. */
  lemma {:induction false} AccumulationOnlyForwards<B>(trainSrc: seq<B>, first: nat, k: nat)
    requires |trainSrc| > 0
    ensures forall e :: e in AccumulationEvents(trainSrc, first, k) ==> e.Forward?
  {
    if k > 0 {
      AccumulationOnlyForwards(trainSrc, first, k - 1);
    }
  }

  /** The micro-batch loop feeds the next `k` items of the training stream. */
  lemma {:induction false} AccumulationFeeds<B>(trainSrc: seq<B>, first: nat, k: nat)
    requires |trainSrc| > 0
    ensures Cycled(trainSrc, first) + BatchesFed(AccumulationEvents(trainSrc, first, k), TrainLoader) == Cycled(trainSrc, first + k)
    ensures BatchesFed(AccumulationEvents(trainSrc, first, k), ValLoader) == []
    ensures Primes(AccumulationEvents(trainSrc, first, k)) == []
  {
    if k > 0 {
      AccumulationFeeds(trainSrc, first, k - 1);
      var prev := AccumulationEvents(trainSrc, first, k - 1);
      BatchesFedAppend(prev, [Forward(CycleAt(trainSrc, first + k - 1))], TrainLoader);
      BatchesFedAppend(prev, [Forward(CycleAt(trainSrc, first + k - 1))], ValLoader);
      assert BatchesFed([Forward(CycleAt(trainSrc, first + k - 1))], TrainLoader) == [CycleAt(trainSrc, first + k - 1)];
    }
  }

  /** The validation step takes the next validation item exactly when `i % VALIDATE_EVERY == 0`. */
  lemma ValidationFeeds<B>(i: nat, valSrc: seq<B>)
    requires |valSrc| > 0
    ensures Cycled(valSrc, MultiplesBelow(i, VALIDATE_EVERY)) + BatchesFed(ValidationEvents(i, valSrc), ValLoader)
         == Cycled(valSrc, MultiplesBelow(i + 1, VALIDATE_EVERY))
    ensures |BatchesFed(ValidationEvents(i, valSrc), ValLoader)| == (if i % VALIDATE_EVERY == 0 then 1 else 0)
    ensures BatchesFed(ValidationEvents(i, valSrc), TrainLoader) == []
    ensures Primes(ValidationEvents(i, valSrc)) == []
  {
    if i % VALIDATE_EVERY == 0 {
      var e := Evaluate(CycleAt(valSrc, MultiplesBelow(i, VALIDATE_EVERY)));
      BatchesFedAppend<B>([EvalMode], [e], ValLoader);
      BatchesFedAppend<B>([EvalMode], [e], TrainLoader);
    }
  }

  /** The generation step feeds no batch and generates exactly when `i % GENERATE_EVERY == 0`. */
  lemma GenerationFeedsNothing<B>(i: nat, valSet: TextSampler, start: int)
    requires valSet.seqLen == SEQ_LEN && valSet.CanSample() && DrawOk(valSet, i, start)
    ensures forall loader :: BatchesFed(GenerationEvents<B>(i, valSet, start), loader) == []
    ensures |Primes(GenerationEvents<B>(i, valSet, start))| == (if i % GENERATE_EVERY == 0 then 1 else 0)
    ensures i % GENERATE_EVERY == 0 ==> Primes(GenerationEvents<B>(i, valSet, start)) == [Prime(valSet, start)]
  {
    if i % GENERATE_EVERY == 0 {
      var g: Event<B> := GenerationEvent(valSet, start);
      BatchesFedAppend<B>([EvalMode], [g], ValLoader);
      BatchesFedAppend<B>([EvalMode], [g], TrainLoader);
    }
  }

  /** A mode switch or an optimizer step feeds no batch and generates nothing. */
  lemma ControlCallFeedsNothing<B>(e: Event<B>, loader: Loader)
    requires e.TrainMode? || e.ClipAndStep? || e.EvalMode?
    ensures BatchesFed([e], loader) == [] && Primes([e]) == []
  {
    assert [e][..0] == [];
  }

  /** The mode switches and the optimizer step around an iteration's parts feed nothing. */
  lemma {:induction false} IterationShapeFeeds<B>(acc: seq<Event<B>>, validation: seq<Event<B>>, generation: seq<Event<B>>, loader: Loader)
    ensures var events := [TrainMode] + acc + [ClipAndStep(MAX_GRAD_NORM)] + validation + generation;
      && BatchesFed(events, loader) == BatchesFed(acc, loader) + BatchesFed(validation, loader) + BatchesFed(generation, loader)
      && Primes(events) == Primes(acc) + Primes(validation) + Primes(generation)
  {
    var opening: seq<Event<B>> := [TrainMode];
    var closing: seq<Event<B>> := [ClipAndStep(MAX_GRAD_NORM)];
    ControlCallFeedsNothing<B>(TrainMode, loader);
    ControlCallFeedsNothing<B>(ClipAndStep(MAX_GRAD_NORM), loader);
    var trained := opening + acc;
    var stepped := trained + closing;
    var validated := stepped + validation;
    BatchesFedAppend(opening, acc, loader);
    BatchesFedAppend(trained, closing, loader);
    BatchesFedAppend(stepped, validation, loader);
    BatchesFedAppend(validated, generation, loader);
  }

  /** One iteration takes the next GRADIENT_ACCUMULATE_EVERY items of the training stream. */
  lemma {:induction false} IterationTrainFeeds<B>(i: nat, trainSrc: seq<B>, valSrc: seq<B>, valSet: TextSampler, start: int)
    requires |trainSrc| > 0 && |valSrc| > 0
    requires valSet.seqLen == SEQ_LEN && valSet.CanSample() && DrawOk(valSet, i, start)
    ensures Cycled(trainSrc, GRADIENT_ACCUMULATE_EVERY * i) + BatchesFed(IterationEvents(i, trainSrc, valSrc, valSet, start), TrainLoader)
         == Cycled(trainSrc, GRADIENT_ACCUMULATE_EVERY * (i + 1))
  {
    var first := GRADIENT_ACCUMULATE_EVERY * i;
    assert GRADIENT_ACCUMULATE_EVERY * (i + 1) == first + GRADIENT_ACCUMULATE_EVERY;
    var acc := AccumulationEvents(trainSrc, first, GRADIENT_ACCUMULATE_EVERY);
    var validation := ValidationEvents(i, valSrc);
    var generation := GenerationEvents<B>(i, valSet, start);
    ValidationFeeds(i, valSrc);
    GenerationFeedsNothing<B>(i, valSet, start);
    assert BatchesFed(IterationEvents(i, trainSrc, valSrc, valSet, start), TrainLoader) == BatchesFed(acc, TrainLoader) by {
      IterationShapeFeeds(acc, validation, generation, TrainLoader);
    }
    AccumulationFeeds(trainSrc, first, GRADIENT_ACCUMULATE_EVERY);
  }

  /**
   * One iteration takes the next validation item exactly when `i % VALIDATE_EVERY == 0`,
   * and generates exactly when `i % GENERATE_EVERY == 0`.
   */
  lemma {:induction false} IterationValidationFeeds<B>(i: nat, trainSrc: seq<B>, valSrc: seq<B>, valSet: TextSampler, start: int)
    requires |trainSrc| > 0 && |valSrc| > 0
    requires valSet.seqLen == SEQ_LEN && valSet.CanSample() && DrawOk(valSet, i, start)
    ensures var events := IterationEvents(i, trainSrc, valSrc, valSet, start);
      && Cycled(valSrc, MultiplesBelow(i, VALIDATE_EVERY)) + BatchesFed(events, ValLoader)
         == Cycled(valSrc, MultiplesBelow(i + 1, VALIDATE_EVERY))
      && |BatchesFed(events, ValLoader)| == (if i % VALIDATE_EVERY == 0 then 1 else 0)
      && Primes(events) == Primes(GenerationEvents<B>(i, valSet, start))
      && |Primes(events)| == (if i % GENERATE_EVERY == 0 then 1 else 0)
  {
    var acc := AccumulationEvents(trainSrc, GRADIENT_ACCUMULATE_EVERY * i, GRADIENT_ACCUMULATE_EVERY);
    var validation := ValidationEvents(i, valSrc);
    var generation := GenerationEvents<B>(i, valSet, start);
    ValidationFeeds(i, valSrc);
    GenerationFeedsNothing<B>(i, valSet, start);
    AccumulationFeeds(trainSrc, GRADIENT_ACCUMULATE_EVERY * i, GRADIENT_ACCUMULATE_EVERY);
    IterationShapeFeeds(acc, validation, generation, ValLoader);
  }

  /**
   * Over a whole run of `n` iterations the training loader is advanced exactly
   * GRADIENT_ACCUMULATE_EVERY * n times and the validation loader once per multiple of
   * VALIDATE_EVERY below `n`, each handing the model its stream in order with nothing
   * skipped; one generation happens per multiple of GENERATE_EVERY below `n`.
   */
  lemma {:induction false} RunLogFeeds<B>(trainSrc: seq<B>, valSrc: seq<B>, valSet: TextSampler, draws: seq<int>)
    requires |trainSrc| > 0 && |valSrc| > 0 && ValidDraws(valSet, draws)
    ensures var log := RunLog(trainSrc, valSrc, valSet, draws);
      && BatchesFed(log, TrainLoader) == Cycled(trainSrc, GRADIENT_ACCUMULATE_EVERY * |draws|)
      && BatchesFed(log, ValLoader) == Cycled(valSrc, MultiplesBelow(|draws|, VALIDATE_EVERY))
      && |Primes(log)| == MultiplesBelow(|draws|, GENERATE_EVERY)
  {
    if draws != [] {
      var n := |draws| - 1;
      RunLogFeeds(trainSrc, valSrc, valSet, draws[..n]);
      IterationTrainFeeds(n, trainSrc, valSrc, valSet, draws[n]);
      IterationValidationFeeds(n, trainSrc, valSrc, valSet, draws[n]);
      var events := IterationEvents(n, trainSrc, valSrc, valSet, draws[n]);
      BatchesFedAppend(RunLog(trainSrc, valSrc, valSet, draws[..n]), events, TrainLoader);
      BatchesFedAppend(RunLog(trainSrc, valSrc, valSet, draws[..n]), events, ValLoader);
    }
  }

  /** The same counts in closed form: `4 * n`, `ceil(n / 100)` and `ceil(n / 250)`. */
  lemma RunLogCounts<B>(trainSrc: seq<B>, valSrc: seq<B>, valSet: TextSampler, draws: seq<int>)
    requires |trainSrc| > 0 && |valSrc| > 0 && ValidDraws(valSet, draws)
    ensures var log := RunLog(trainSrc, valSrc, valSet, draws);
      && |BatchesFed(log, TrainLoader)| == 4 * |draws|
      && |BatchesFed(log, ValLoader)| == (|draws| + 99) / 100
      && |Primes(log)| == (|draws| + 249) / 250
  {
    RunLogFeeds(trainSrc, valSrc, valSet, draws);
    CycledLength(trainSrc, GRADIENT_ACCUMULATE_EVERY * |draws|);
    CycledLength(valSrc, MultiplesBelow(|draws|, VALIDATE_EVERY));
    MultiplesBelowClosedForm(|draws|, VALIDATE_EVERY);
    MultiplesBelowClosedForm(|draws|, GENERATE_EVERY);
  }

  /**
   * The script's full run of NUM_BATCHES iterations: 400,000 training batches,
   * 1,000 validation batches and 400 generations.
   */
  lemma ScriptTotals<B>(trainSrc: seq<B>, valSrc: seq<B>, valSet: TextSampler, draws: seq<int>)
    requires |trainSrc| > 0 && |valSrc| > 0 && ValidDraws(valSet, draws) && |draws| == NUM_BATCHES
    ensures var log := RunLog(trainSrc, valSrc, valSet, draws);
      && |BatchesFed(log, TrainLoader)| == 400_000
      && |BatchesFed(log, ValLoader)| == 1_000
      && |Primes(log)| == 400
  {
    RunLogCounts(trainSrc, valSrc, valSet, draws);
  }

  /** Iteration 0 validates, on the first batch of the validation stream. */
  lemma FirstIterationValidates<B>(trainSrc: seq<B>, valSrc: seq<B>, valSet: TextSampler, start: int)
    requires |trainSrc| > 0 && |valSrc| > 0 && ValidDraws(valSet, [start])
    ensures BatchesFed(RunLog(trainSrc, valSrc, valSet, [start]), ValLoader) == [valSrc[0]]
  {
    RunLogFeeds(trainSrc, valSrc, valSet, [start]);
    assert MultiplesBelow(1, VALIDATE_EVERY) == 1;
    CycledAt(valSrc, 1, 0);
  }

  /** Iteration 0 generates, from the first PRIME_LENGTH bytes of the drawn validation window. */
  lemma FirstIterationGenerates<B>(trainSrc: seq<B>, valSrc: seq<B>, valSet: TextSampler, start: int)
    requires |trainSrc| > 0 && |valSrc| > 0 && ValidDraws(valSet, [start])
    ensures Primes(RunLog(trainSrc, valSrc, valSet, [start])) == [valSet.data[start..start + PRIME_LENGTH]]
  {
    assert DrawOk(valSet, 0, [start][0]);
    assert RunLog(trainSrc, valSrc, valSet, [start]) == IterationEvents(0, trainSrc, valSrc, valSet, start) by {
      assert [start][..0] == [];
    }
    IterationValidationFeeds(0, trainSrc, valSrc, valSet, start);
    GenerationFeedsNothing<B>(0, valSet, start);
    assert Prime(valSet, start) == valSet.data[start..start + PRIME_LENGTH];
  }

  /**
   * A generation call as the loop makes it: a prime of exactly PRIME_LENGTH tokens
   * copied from a window of the validation buffer, the prime's decoded text, and a
   * request for GENERATE_LENGTH tokens.
   */
  ghost predicate GenerationFaithful<B>(valSet: TextSampler, e: Event<B>) {
    e.Generate? ==>
      && |e.prime| == PRIME_LENGTH
      && (exists start :: valSet.seqLen == SEQ_LEN && valSet.StartInRange(start)
                          && e.prime == valSet.data[start..start + PRIME_LENGTH])
      && DecodeTokens(e.prime) == Ok(e.primeText)
      && e.length == GENERATE_LENGTH
  }

  lemma IterationGenerationsFaithful<B>(i: nat, trainSrc: seq<B>, valSrc: seq<B>, valSet: TextSampler, start: int)
    requires |trainSrc| > 0 && |valSrc| > 0
    requires valSet.seqLen == SEQ_LEN && valSet.CanSample() && DrawOk(valSet, i, start)
    ensures forall e :: e in IterationEvents(i, trainSrc, valSrc, valSet, start) ==> GenerationFaithful(valSet, e)
  {
    var acc := AccumulationEvents(trainSrc, GRADIENT_ACCUMULATE_EVERY * i, GRADIENT_ACCUMULATE_EVERY);
    var validation := ValidationEvents(i, valSrc);
    var generation := GenerationEvents<B>(i, valSet, start);
    AccumulationOnlyForwards(trainSrc, GRADIENT_ACCUMULATE_EVERY * i, GRADIENT_ACCUMULATE_EVERY);
    assert forall e :: e in validation ==> !e.Generate?;
    if i % GENERATE_EVERY == 0 {
      var prime := Prime(valSet, start);
      assert prime == valSet.data[start..start + PRIME_LENGTH];
      assert GenerationFaithful(valSet, GenerationEvent<B>(valSet, start));
    }
    assert forall e :: e in generation ==> GenerationFaithful(valSet, e);
  }

  /** Every generation call of a run is faithful in that sense. */
  lemma {:induction false} RunLogGenerations<B>(trainSrc: seq<B>, valSrc: seq<B>, valSet: TextSampler, draws: seq<int>)
    requires |trainSrc| > 0 && |valSrc| > 0 && ValidDraws(valSet, draws)
    ensures forall e :: e in RunLog(trainSrc, valSrc, valSet, draws) ==> GenerationFaithful(valSet, e)
  {
    if draws != [] {
      var n := |draws| - 1;
      RunLogGenerations(trainSrc, valSrc, valSet, draws[..n]);
      IterationGenerationsFaithful(n, trainSrc, valSrc, valSet, draws[n]);
    }
  }
}
