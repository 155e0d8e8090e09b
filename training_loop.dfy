/**
 * The training loop of train.py (lines 78-122) as a running state: the two cycled
 * loaders, the validation dataset the generation step samples from, the iteration
 * counter and the calls made so far into the opaque model and optimizer.
 */
module TrainingLoop {
  import Arith
  import opened Decoding
  import opened Corpus
  import opened Sampler
  import opened Cycling
  import opened Schedule

  class Trainer<B> {
    const trainLoader: Cycler<B>
    const valLoader: Cycler<B>
    const valSet: TextSampler
    var iteration: nat
    var log: seq<Event<B>>
    /** The start offset drawn in each iteration so far (only generation iterations use theirs). */
    ghost var draws: seq<int>

    ghost predicate Valid()
      reads this, trainLoader, valLoader
    {
      && trainLoader != valLoader
      && trainLoader.Valid() && valLoader.Valid()
      && |trainLoader.source| > 0 && |valLoader.source| > 0
      && iteration == |draws|
      && RunState(trainLoader.source, valLoader.source, valSet, draws, trainLoader.count, valLoader.count, log)
    }

    /**
     * train.py:78-81: the two datasets over the training and the validation buffer,
     * each cycled through its data loader; `trainBatches` and `valBatches` are what
     * one pass of each loader yields.
     */
    constructor (trainBatches: seq<B>, valBatches: seq<B>, valData: seq<Byte>)
      requires |trainBatches| > 0 && |valBatches| > 0 && |valData| > SEQ_LEN
      ensures Valid() && fresh(trainLoader) && fresh(valLoader)
      ensures trainLoader.source == trainBatches && valLoader.source == valBatches
      ensures valSet == TextSampler(valData, SEQ_LEN)
      ensures iteration == 0 && log == []
    {
      trainLoader := new Cycler(trainBatches);
      valLoader := new Cycler(valBatches);
      valSet := TextSampler(valData, SEQ_LEN);
      iteration := 0;
      log := [];
      draws := [];
    }

    /**
     * train.py:93-100: GRADIENT_ACCUMULATE_EVERY forward calls, each on the next batch
     * of the training loader.
     */
    method AccumulateGradients()
      requires trainLoader.Valid() && |trainLoader.source| > 0
      modifies this`log, trainLoader
      ensures trainLoader.Valid() && trainLoader.count == old(trainLoader.count) + GRADIENT_ACCUMULATE_EVERY
      ensures log == old(log) + AccumulationEvents(trainLoader.source, old(trainLoader.count), GRADIENT_ACCUMULATE_EVERY)
    {
      for micro := 0 to GRADIENT_ACCUMULATE_EVERY
        invariant trainLoader.Valid() && trainLoader.count == old(trainLoader.count) + micro
        invariant log == old(log) + AccumulationEvents(trainLoader.source, old(trainLoader.count), micro)
      {
        var batch := trainLoader.Next();
        log := log + [Forward(batch)];
      }
    }

    /** train.py:108-112: an evaluation-mode loss on the next batch of the validation loader. */
    method Validate()
      requires valLoader.Valid() && |valLoader.source| > 0
      modifies this`log, valLoader
      ensures valLoader.Valid() && valLoader.count == old(valLoader.count) + 1
      ensures log == old(log) + [EvalMode, Evaluate(CycleAt(valLoader.source, old(valLoader.count)))]
    {
      var batch := valLoader.Next();
      log := log + [EvalMode, Evaluate(batch)];
    }

    /**
     * train.py:114-120: the prime is the first PRIME_LENGTH tokens of a validation
     * window drawn at `start`, decoded for printing and handed to `model.generate`.
     */
    method GenerateSample(start: int)
      requires valSet.seqLen == SEQ_LEN && valSet.CanSample() && valSet.StartInRange(start)
      modifies this`log
      ensures log == old(log) + [EvalMode, GenerationEvent(valSet, start)]
    {
      var window := valSet.GetItem(start).value;
      var prime := window[..PRIME_LENGTH];
      var text := DecodeTokens(prime).value;
      log := log + [EvalMode, Generate(prime, text, GENERATE_LENGTH)];
    }

    /**
     * train.py:90-106: training mode, the micro-batch loop, then one clipped optimizer
     * step.
     */
    method TrainPhase()
      requires trainLoader.Valid() && |trainLoader.source| > 0
      modifies this`log, trainLoader
      ensures trainLoader.Valid() && trainLoader.count == old(trainLoader.count) + GRADIENT_ACCUMULATE_EVERY
      ensures log == old(log) + [TrainMode]
                     + AccumulationEvents(trainLoader.source, old(trainLoader.count), GRADIENT_ACCUMULATE_EVERY)
                     + [ClipAndStep(MAX_GRAD_NORM)]
    {
      log := log + [TrainMode];
      AccumulateGradients();
      log := log + [ClipAndStep(MAX_GRAD_NORM)];
    }

    /**
     * train.py:108-120: the validation step of iteration `i`, then its generation step;
     * the validation loader has yielded one item per earlier validating iteration.
     */
    method EvalPhase(i: nat, start: int)
      requires valLoader.Valid() && |valLoader.source| > 0 && valLoader.count == Arith.MultiplesBelow(i, VALIDATE_EVERY)
      requires valSet.seqLen == SEQ_LEN && valSet.CanSample() && DrawOk(valSet, i, start)
      modifies this`log, valLoader
      ensures valLoader.Valid()
      ensures valLoader.count == old(valLoader.count) + (if i % VALIDATE_EVERY == 0 then 1 else 0)
      ensures log == old(log) + ValidationEvents(i, valLoader.source) + GenerationEvents<B>(i, valSet, start)
    {
      if i % VALIDATE_EVERY == 0 {
        Validate();
      }
      if i % GENERATE_EVERY == 0 {
        GenerateSample(start);
      }
    }

    /**
     * One iteration `i` of the loop body (train.py:90-122); `start` stands for the
     * random draw behind `random.choice(val_dataset)`, consulted only when the
     * iteration generates.
     */
    method Step(start: int)
      requires Valid() && DrawOk(valSet, iteration, start)
      modifies this, trainLoader, valLoader
      ensures Valid()
      ensures iteration == old(iteration) + 1 && draws == old(draws) + [start]
      ensures trainLoader.count == old(trainLoader.count) + GRADIENT_ACCUMULATE_EVERY
      ensures valLoader.count == old(valLoader.count) + (if old(iteration) % VALIDATE_EVERY == 0 then 1 else 0)
      ensures log == old(log) + IterationEvents(old(iteration), trainLoader.source, valLoader.source, valSet, start)
    {
      var i := iteration;
      ghost var run := log;
      TrainPhase();
      EvalPhase(i, start);
      IterationEventsAppend(run, i, trainLoader.source, valLoader.source, valSet, start);
      RunStateStep(trainLoader.source, valLoader.source, valSet, draws, old(trainLoader.count), old(valLoader.count), run, start);
      iteration := i + 1;
      draws := draws + [start];
    }

    /**
     * `for i in range(len(starts))`: the loop run for `|starts|` iterations, `starts[k]`
     * being the draw of its `k`-th iteration.
     */
    method Train(starts: seq<int>)
      requires Valid()
      requires forall k :: 0 <= k < |starts| ==> DrawOk(valSet, iteration + k, starts[k])
      modifies this, trainLoader, valLoader
      ensures Valid()
      ensures iteration == old(iteration) + |starts| && draws == old(draws) + starts
      ensures log == RunLog(trainLoader.source, valLoader.source, valSet, old(draws) + starts)
    {
      for k := 0 to |starts|
        invariant Valid()
        invariant iteration == old(iteration) + k && draws == old(draws) + starts[..k]
      {
        Step(starts[k]);
        assert starts[..k + 1] == starts[..k] + [starts[k]];
      }
      assert starts[..|starts|] == starts;
    }
  }

  /**
   * The whole script from train.py:59 on: prepare the corpus from the decompressed
   * stream, build the trainer, and run NUM_BATCHES iterations. `trainBatches` and
   * `valBatches` are what one pass of each data loader yields, and `starts[i]` is the
   * start drawn when iteration `i` generates. Any stream longer than TRAIN_BYTES +
   * SEQ_LEN bytes leaves a validation buffer the loop can sample from; a shorter read
   * does not raise, it only shortens the validation buffer.
   */
  method RunScript<B>(stream: seq<Byte>, trainBatches: seq<B>, valBatches: seq<B>, starts: seq<int>)
    returns (trainer: Trainer<B>)
    requires |stream| > TRAIN_BYTES + SEQ_LEN && |trainBatches| > 0 && |valBatches| > 0
    requires |starts| == NUM_BATCHES
    requires forall i :: 0 <= i < |starts| ==> DrawOk(TextSampler(LoadCorpus(stream).1, SEQ_LEN), i, starts[i])
    ensures trainer.Valid() && trainer.iteration == NUM_BATCHES
    ensures trainer.valSet == TextSampler(LoadCorpus(stream).1, SEQ_LEN)
    ensures trainer.log == RunLog(trainBatches, valBatches, trainer.valSet, starts)
    ensures |BatchesFed(trainer.log, TrainLoader)| == 400_000
    ensures |BatchesFed(trainer.log, ValLoader)| == 1_000
    ensures |Primes(trainer.log)| == 400
  {
    var valData := LoadCorpus(stream).1;
    assert |valData| > SEQ_LEN;
    trainer := new Trainer(trainBatches, valBatches, valData);
    assert trainer.draws == [];
    trainer.Train(starts);
    assert trainer.draws == starts;
    assert trainer.trainLoader.source == trainBatches && trainer.valLoader.source == valBatches;
    assert ValidDraws(trainer.valSet, starts);
    ScriptTotals(trainBatches, valBatches, trainer.valSet, starts);
  }
}
