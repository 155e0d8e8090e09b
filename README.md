# enwik8 training script for the Recurrent Memory Transformer, modelled in Dafny

`train.py` trains a character-level Recurrent Memory Transformer on the enwik8
corpus. This project models everything in the script except the network itself:

- **Decoding** (`decoding.dfy`): `decode_token` maps a byte token to the character
  `chr(max(32, token))`, and `decode_tokens` joins those characters. A Python string
  is a sequence of code points, so text is a `seq` of integers below `0x110000`.
  `chr`'s `ValueError` becomes an error value.
- **Corpus** (`corpus.dfy`): up to 95,000,000 bytes are read from the decompressed
  stream and split at byte 90,000,000 into a training buffer and a validation buffer.
- **Sampler** (`sampler.dfy`): `TextSamplerDataset`. `__getitem__` returns the
  `seq_len + 1` bytes starting at a random offset. `__len__` returns `n // seq_len`.
  The random offset is a parameter. The two exceptions these accessors can raise
  are error values.
- **Cycling** (`cycling.dfy`): the `cycle` generator, as a class with a cursor
  that restarts at the end of every pass. It comes with three equivalent
  descriptions of what it yields: item `k` is `source[k % |source|]`; the first
  `n` items; and `p` whole passes.
- **Schedule** (`schedule.dfy`): the loop's calls into the model and optimizer.
  These collaborators are opaque and appear only as a log of `Event`s.
  - `IterationEvents` gives the calls of iteration `i`, and `RunLog` the calls of
    a whole run.
  - Lemmas count what a run feeds the model: 4 training batches per iteration, in
    stream order; one validation batch per multiple of 100; one generation per
    multiple of 250, with a 128-token prime.
- **Training loop** (`training_loop.dfy`): the loop itself, as a `Trainer` class
  holding two `Cycler` objects, the validation dataset, the iteration counter and
  the call log.
  - Every method is proved against the schedule functions.
  - `RunScript` runs the whole script: load the corpus, build the trainer, and
    iterate 100,000 times. It ends with 400,000 training batches, 1,000 validation
    batches and 400 generations.

`results.dfy` holds the `Result` type and `arith.dfy` the division facts the
counting lemmas use.

## Model

| member | source | states |
|---|---|---|
| Decoding.DecodeToken | train.py:31-32 | Succeeds exactly when `max(32, token)` is below 0x110000, and otherwise reports the token as out of range. The code point is 32 for tokens below 32, and the token itself otherwise, so it is never below 32. |
| Decoding.DecodeTokens | train.py:34-35 | Succeeds exactly when every token decodes. On success, the text has the same length as the input, character `k` is `decode_token(tokens[k])`, and every character is at least 32. On failure, the reported error is that of the first undecodable token. |
| Corpus.ReadCorpus | train.py:60 | Returns a prefix of the stream, of length `min(95e6, len(stream))`. |
| Corpus.SplitAt | train.py:61 | The two parts concatenate back to the data. The first part has length `min(offset, len(data))`. |
| Corpus.LoadCorpus | train.py:59-62 | Training buffer followed by validation buffer is a prefix of the stream, of length `min(95e6, len(stream))`. The training buffer has `min(90e6, len(stream))` bytes. |
| Corpus.SplitPartitions | train.py:61 | The split is a partition by position. Training byte `i` is data byte `i`, for `i` below the offset. Validation byte `j` is data byte `len(train) + j`, at or beyond the offset. The lengths sum to the data length, so the parts are disjoint. |
| Corpus.FullCorpusSizes | train.py:59-61 | On a corpus of at least 95e6 bytes, the buffers have 90e6 and 5e6 bytes and are exactly `stream[:90e6]` and `stream[90e6:95e6]`. |
| Sampler.TextSampler.Len | train.py:75-76 | Defined exactly when `seq_len > 0`, and otherwise reports ZeroDivisionError. The value `q` satisfies `q*seq_len <= n < (q+1)*seq_len`, the defining property of `n // seq_len`. |
| Sampler.TextSampler.GetItem | train.py:70-73 | Succeeds exactly when `randint(0, n - seq_len)` has a nonempty range, and otherwise reports it as empty. The window has `seq_len + 1` elements and lies within the buffer. Element `k` is `data[start + k]`, so each element is a byte value. |
| Sampler.LenIsUnique | train.py:75-76 | The floor-division characterisation determines the reported length uniquely. |
| Sampler.ScriptDatasets | train.py:78-79 | On a full corpus, both datasets can be sampled, and their lengths are 43945 and 2441. |
| Arith.MultiplesBelowClosedForm | train.py:108 | The number of `i` in `range(n)` with `i % m == 0` is `(n + m - 1) // m`. |
| Cycling.CycledAt | train.py:27-29 | Item `k` among the first `n` items yielded is `source[k % len(source)]`. |
| Cycling.CycledLength | train.py:27-29 | After `n` calls to `next`, exactly `n` items have been yielded. |
| Cycling.CycledPrefix | train.py:27-29 | The items yielded earlier are a prefix of those yielded later. |
| Cycling.CycledFullPass | train.py:28-29 | From a pass boundary, the next `len(source)` items are the source itself, in order. |
| Cycling.CycledAtPassOffset | train.py:28-29 | Item `a + j` of the stream, for a pass boundary `a` and `j` within the pass, is `source[j]`. |
| Cycling.PassesAreCycled | train.py:27-29 | The first `p * len(source)` items are `p` whole passes over the source. |
| Cycling.Cycler.constructor | train.py:27 | A fresh generator over `source` has yielded nothing. |
| Cycling.Cycler.Next | train.py:28-29 | Yields `source[count % len(source)]` and appends it to the items yielded so far. The cursor stays at `count % len(source)`. |
| Arith.MultiplesBelow | train.py:108 | Definition: the number of `i` in `range(n)` with `i % m == 0`, counted one iteration at a time. |
| Cycling.CycleAt | train.py:27-29 | Definition: item `k` of the cycled stream is `source[k % len(source)]`. |
| Cycling.Cycled | train.py:27-29 | Definition: the first `n` items of the cycled stream, item by item through `CycleAt`. |
| Cycling.Passes | train.py:27-29 | Definition: `p` whole passes of `yield from` over the source, concatenated. |
| Schedule.GenerationEvent | train.py:114-120 | Definition: the generation call with the prime `Prime(valSet, start)`, the prime's `decode_tokens` text (which succeeds, since bytes are below 256), and length 2048. |
| Schedule.AccumulationEvents | train.py:93-98 | Definition: the first `k` forward calls of the micro-batch loop, call `j` on training-stream item `first + j`. |
| Schedule.ValidationEvents | train.py:108-112 | Definition: when `i % 100 == 0`, the `model.eval()` switch and the loss call on the next validation-stream item (item `#{j < i : j % 100 == 0}`); otherwise nothing. |
| Schedule.GenerationEvents | train.py:114-120 | Definition: when `i % 250 == 0`, the `model.eval()` switch and `GenerationEvent` for the drawn start; otherwise nothing. |
| Schedule.IterationEvents | train.py:90-120 | Definition: the calls of iteration `i`, in source order: `model.train()`, 4 forward calls on training items `4i .. 4i+3`, the clip/step/zero-grad step with threshold 0.5, then the validation and generation calls. |
| Schedule.RunLog | train.py:89-122 | Definition: the calls of `len(draws)` iterations, iteration `i` using `draws[i]` as its draw, concatenated in order. |
| Schedule.Prime | train.py:116 | The prime has exactly 128 tokens. Token `k` is byte `start + k` of the validation buffer. |
| Schedule.RunLogExtend | train.py:89-122 | A run one iteration longer is the shorter run followed by that iteration's calls. |
| Schedule.RunStateStep | train.py:89-122 | One iteration adds 4 to the training loader's count. It adds 1 to the validation loader's count exactly when `i % 100 == 0`. The log grows by the iteration's calls. |
| Schedule.BatchesFedAppend | train.py:89-122 | The batches fed and the primes used by two consecutive stretches of the run are those of each stretch, concatenated. |
| Schedule.AccumulationOnlyForwards | train.py:93-98 | The gradient-accumulation loop makes only training forward calls. |
| Schedule.AccumulationFeeds | train.py:93-98 | The accumulation loop feeds the next `k` items of the training stream and nothing from the validation stream. |
| Schedule.ValidationFeeds | train.py:108-112 | The validation step feeds the next validation item when `i % 100 == 0` and none otherwise. It feeds no training item and generates nothing. |
| Schedule.GenerationFeedsNothing | train.py:114-120 | The generation step feeds no batch from either loader. It generates exactly when `i % 250 == 0`, from the prime of the drawn window. |
| Schedule.ControlCallFeedsNothing | train.py:90 | A `model.train()` or `model.eval()` call, or the clip/step/zero-grad call, feeds no batch and generates nothing. |
| Schedule.IterationShapeFeeds | train.py:90-106 | The mode switch and the optimizer step feed nothing. An iteration's batches and primes are those of its accumulation, validation and generation parts. |
| Schedule.IterationTrainFeeds | train.py:89-106 | Iteration `i` feeds training items `4i .. 4i+3` of the stream. |
| Schedule.IterationValidationFeeds | train.py:108-120 | Iteration `i` feeds the next validation item exactly when `i % 100 == 0`, and generates exactly when `i % 250 == 0`. |
| Schedule.RunLogFeeds | train.py:89-122 | A run of `n` iterations feeds exactly the first `4n` items of the training stream, in order. It feeds the first `#{i < n : i % 100 == 0}` items of the validation stream, and generates once per multiple of 250 below `n`. |
| Schedule.RunLogCounts | train.py:89-122 | The same counts in closed form: `4n` training batches, `ceil(n/100)` validation batches and `ceil(n/250)` generations. |
| Schedule.ScriptTotals | train.py:89-114 | The full run of 100,000 iterations feeds 400,000 training batches and 1,000 validation batches, and generates 400 times. |
| Schedule.FirstIterationValidates | train.py:108-111 | Iteration 0 validates, on the first validation item. |
| Schedule.FirstIterationGenerates | train.py:114-116 | Iteration 0 generates. Its prime is the first 128 bytes of the drawn validation window. |
| Schedule.IterationGenerationsFaithful | train.py:114-120 | Every generation call of an iteration meets the following: its prime is 128 consecutive bytes of the validation buffer, starting at a valid offset; its text is `decode_tokens(prime)`; and it asks for 2048 tokens. |
| Schedule.RunLogGenerations | train.py:114-120 | Every generation call of a whole run meets those same conditions. |
| TrainingLoop.Trainer.constructor | train.py:78-81 | Builds two fresh, distinct loaders over the given batches and the validation dataset with `SEQ_LEN`. It starts at iteration 0 with no calls made. |
| TrainingLoop.Trainer.AccumulateGradients | train.py:93-100 | Advances the training loader by 4 and logs one forward call per batch taken, in order. |
| TrainingLoop.Trainer.Validate | train.py:108-112 | Advances the validation loader by 1 and logs the evaluation-mode switch and the loss call on the batch taken. |
| TrainingLoop.Trainer.GenerateSample | train.py:114-120 | Logs the evaluation-mode switch and the generation call built from the window drawn at `start`. |
| TrainingLoop.Trainer.TrainPhase | train.py:90-106 | Advances the training loader by 4. Logs `model.train()`, the 4 forward calls on the batches taken and the clipped optimizer step, in that order. |
| TrainingLoop.Trainer.EvalPhase | train.py:108-120 | Given that the validation loader has yielded one item per earlier validating iteration, it advances that loader by 1 exactly when `i % 100 == 0`. It logs exactly `ValidationEvents(i)` followed by `GenerationEvents(i)`. |
| TrainingLoop.Trainer.Step | train.py:89-122 | One iteration keeps the run invariant: the loader counts are `4i` and `#{j < i : j % 100 == 0}`, and the log is `RunLog` of the draws so far. Its calls are exactly `IterationEvents(i)`. |
| TrainingLoop.Trainer.Train | train.py:89-122 | After `k` iterations, the log is `RunLog` of all draws. The invariant holds. |
| TrainingLoop.RunScript | train.py:59-122 | From any decompressed stream longer than 90,002,048 bytes (`TRAIN_BYTES + SEQ_LEN`), the script's run makes exactly the calls of `RunLog`. It feeds 400,000 training batches and 1,000 validation batches, and generates 400 times. |

## Left out

- The model is not modelled: construction, forward pass, loss, memory-replay backpropagation and `generate`. Calls to it appear only as logged events. The generated sample and its decoding (train.py:120-121) therefore carry no content.
- Adam, `clip_grad_norm_` and `zero_grad` appear only as a single logged step carrying the clipping threshold 0.5. Floating-point arithmetic is not modelled.
- Loss accumulation and `total_loss` are not modelled. All `print` output and the `tqdm` progress bar are not modelled either.
- File I/O is replaced by a byte sequence standing for the decompressed stream: `gzip.open`, `read`, and numpy/torch conversions. A corrupt or truncated gzip file, which would raise, is not modelled.
- `.cuda()` device placement and the `.long()` dtype cast are not modelled. Window values are plain integers.
- Randomness is passed in as parameters. The offset `torch.randint` draws inside `__getitem__`, and the one behind `random.choice(val_dataset)`, become the `start` arguments. The index passed to `random.choice` is ignored, as in the source.
- The DataLoader is not modelled: `BATCH_SIZE`, collation and the number of batches per pass. Each loader is cycled over an opaque sequence of batches given as a parameter.
- Cycling.Cycler: every pass over the source is assumed to yield the same items. `cycle` re-iterates its DataLoader on each pass, and the dataset draws fresh random windows every time. The model captures which item of the pass structure each call takes, not the values of batches re-drawn on later passes.
- Cycling.Cycler.Next: requires a nonempty source. Over an empty iterable, `cycle` loops forever without yielding, and that non-termination is not modelled.
- TrainingLoop.Trainer.constructor: requires a validation buffer longer than `SEQ_LEN`. A shorter buffer never reaches the first generation, because iteration 0 validates (train.py:108-111) before it generates (train.py:114-116). With exactly `SEQ_LEN` bytes, `len(val_dataset)` is 1, and the first `next(val_loader)` calls `__getitem__`, where `torch.randint(0, 0, ...)` raises; the sampler models that error (`GetItem`), but the loop does not. With fewer bytes, `len(val_dataset)` is 0, the DataLoader yields no batch, and that first `next(val_loader)` loops forever inside `cycle` (train.py:28-29).
- `model.train()` / `model.eval()` are logged events only. Their effect on dropout and gradients belongs to the model.
