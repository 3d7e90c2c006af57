# GPT trainer orchestration — a Dafny model

This project models the orchestration logic of `model/gpt.py`, the GPT-style
transformer with its two training regimes. The network itself is abstract.

- **`GPTPretrain`** is the pretraining trainer. It owns a GPTModel, whose
  parameters are the backbone: the embedding table, the decoder blocks and
  the decoder's output projection `decoder.linear`.
  - It trains on next-token targets.
  - It keeps two running counters (`entropy_loss`, `perplexity`), an epoch
    counter and an optional checkpoint path.
  - It saves and loads `{model, optimizer, epoch}` checkpoints.
- **`GPT`** is the fine-tuning trainer. Its model is the backbone followed by
  a classifier head.
  - It reuses the same loop skeleton and checkpoint logic.
  - When it loads weights, it freezes the backbone except `decoder.linear`.
  - It keeps a `training` flag that says whether a full fine-tune checkpoint
    was loaded.
  - It decodes greedily.

The Dafny modules follow that structure:

- `Store` (store.dfy) holds the vocabulary shared by both trainers:
  - opaque tensors, optimizer states and losses, known only by a handle;
  - the parameter groups;
  - the errors the code can raise;
  - the checkpoint store, a `Disk` class whose `files` map stands in for
    `torch.save`, `torch.load` and `os.path.exists`;
  - the optimizer update that leaves frozen groups alone.
- `Training` (training.dfy) is the loop skeleton both `fit` methods share:
  - one abstract step per batch;
  - the report rule `index % mini_batch == mini_batch - 1 or index == T - 1`,
    using Python's remainder;
  - the reset of the running counters after each report;
  - `epoch += 1` after each epoch;
  - lemmas on how many reports there are, where they fall, and what the
    counters hold.
- `Targets` (targets.dfy) is the shifted-target slicing of `pretrain_step`.
- `Decoding` (decoding.dfy) holds the argmax and the greedy decode of
  `predict`.
- `Pretraining` (pretrain.dfy) models `GPTPretrain`:
  - a class `Pretrainer` whose methods update its fields and the disk;
  - each method is proved equal to a pure effect function of the old state;
  - lemmas about those functions.
- `FineTuning` (gpt.dfy) models `GPT` in the same way, through the class
  `FineTuner`. It adds:
  - the freeze policy over the four `requires_grad` flags;
  - `load_pretrained_model`;
  - `sumary`'s reload;
  - `predict`.

The interfaces to the network are abstract:

- **Training step oracle.** It is a function parameter that maps the
  parameters, the optimizer state and the batch to:
  - proposed parameters;
  - a new optimizer state;
  - the step's loss (for pretraining, also a perplexity value).

  A frozen group keeps its tensor whatever the oracle proposes. This is how
  Adam treats a parameter that gets no gradient.
- **Forward pass.** For `predict`, the forward pass is a function parameter
  from the parameters and a token sequence to the last position's logits.
- **Running counters.** Each counter is the sequence of step values added
  since the last reset. Printing a mean divides its sum by `mini_batch`.
- **Printed output.** Printed lines go into a `log` field:
  - `Progress(epoch, batch, window)`;
  - `Saved(path)`;
  - `CheckpointNotFound`;
  - `PretrainedLoaded`.

Error paths are values. A method that can raise returns an
`Outcome<Error>`, and its effect function says what state the object is
left in when it raises. The errors are:

- `load_state_dict` on a record of another layout: `KeyMismatch`;
- `torch.load(None)`: `NoPath`;
- `torch.load` on a missing file: `FileNotFound`;
- `index % 0`: `ZeroDivision`;
- `GPTPretrain.fit` reading `index` after a loop over zero batches:
  `UnboundIndex`;
- `predict` on an empty prompt (`EmptySequence`) or an empty logit vector
  (`EmptyLogits`).

Behaviour that follows the code and is worth knowing:

- **`load_pretrained_model` does not set `training`.** Only a full checkpoint
  load (`__load_model`, model/gpt.py:284) does; `load_pretrained_model`
  (model/gpt.py:310-317) leaves the flag alone. So a `GPT` with no
  checkpoint file reloads the pretrained backbone at the start of every
  `fit`, resetting `decoder.linear` to the pretrained weights (see
  `FineTuning.PretrainedLeavesTrainingUnset`).
- **The second checkpoint load in `GPT.fit`, inside `sumary`, is a no-op.**
  It loads the same record the first load did, and the freeze policy is
  idempotent (`FineTuning.SumaryReloadIsNoop`).
- **Reports per epoch.** Python's `%` takes the sign of the divisor. So:
  - with `mini_batch` M < 0, an epoch reports only at its last batch;
  - with M = 0, the first report check raises, after one step;
  - with M ≥ 1 and T ≥ 1 batches, an epoch prints ceil(T / M) reports.
- **Zero batches, `epochs` ≥ 1.** `GPTPretrain.fit` raises after the first
  `epoch += 1`, because `mean_loss = epoch_loss / (index + 1)` reads an
  unbound `index`. `GPT.fit` just adds `epochs` to the counter.

## Model

| member | source | states |
|---|---|---|
| Store.Update | model/gpt.py:262-272 | The optimizer update keeps the parameter layout. A frozen group keeps its tensor. Every other group takes the proposed tensor. |
| Training.PyMod | model/gpt.py:157 | Python's remainder: it lies in [0, M) for M > 0 and in (M, 0] for M < 0, and equals Dafny's remainder for M > 0. |
| Training.PyModCongruent | model/gpt.py:157 | a - PyMod(a, M) is a multiple of M, which with the range fixes Python's `%` completely. |
| Training.ReportIndices | model/gpt.py:157 | Lists exactly the indices below n that satisfy the report rule, strictly increasing. |
| Training.ReportAt | model/gpt.py:157 | The report rule with Python's remainder. Characterised by ReportIndices, AlignedReports and ReportsPerEpoch. |
| Training.After | model/gpt.py:155-163 | One batch of the inner loop: the step, then a report and reset when ReportAt holds. The `Batch` methods of both trainers are proved equal to it. |
| Training.Steps | model/gpt.py:154-163 | The first batches of an epoch, in order. Both `RunEpoch` methods are proved equal to it; characterised by StepsReports, StepsReportWindows, StepsWindow and StepsKeep. |
| Training.Epochs | model/gpt.py:153-164 | n whole epochs, each followed by `epoch += 1`. Both `Loop` methods are proved equal to it on their passing paths; characterised by EpochsCounters, EpochsLog, EpochsLogPrefix, EpochsSummary and EpochsKeep. |
| Training.Train | model/gpt.py:140-143 | A step adds exactly one value to the running counters. It changes neither the epoch nor the printed lines. |
| Training.TrainAppends | model/gpt.py:140-143 | After a step the model is the one the step returns, the values already in the running counters stay as their prefix, and the value added is the step's loss. |
| Training.AlignedReports | model/gpt.py:157 | Before the last batch, reports fall on the aligned indices: n / M of them for M > 0, none for M < 0. |
| Training.ReportsPerEpoch | model/gpt.py:157-163 | An epoch of T ≥ 1 batches prints ceil(T / M) reports for M > 0 and exactly one for M < 0. The last report is at batch T - 1. |
| Training.StepsReports | model/gpt.py:154-163 | The lines an epoch prefix adds are one Progress line per reporting index, in order, carrying the 1-based epoch and batch. Earlier lines stay unchanged. |
| Training.StepsWindow | model/gpt.py:156-163 | The counters hold as many values as steps since the last report. Before the first report they hold this epoch's steps on top of what they held at its start. |
| Training.StepsReportWindows | model/gpt.py:157-163 | Each Progress line carries as many values as steps since the previous report (the first line of an epoch adds those held when it began), so a short last window covers fewer than mini_batch steps. |
| Training.EpochEndsReset | model/gpt.py:157-163 | After a whole epoch of T ≥ 1 batches the running counters are zero. |
| Training.EpochsCounters | model/gpt.py:153-164 | n epochs add exactly n to `epoch`. They leave the counters at zero when a batch ran. With no batches, only the epoch changes. |
| Training.EpochsLog | model/gpt.py:153-164 | n epochs print n times the per-epoch report count. |
| Training.EpochsLogPrefix | model/gpt.py:153-164 | The epochs only append to what was printed before. |
| Training.EpochsSummary | model/gpt.py:153-164 | n ≥ 1 epochs over T ≥ 1 batches: the epoch rises by n and the counters end at zero. They print n·ceil(T / M) lines for M > 0 and n lines for M < 0. |
| Training.StepsKeep | model/gpt.py:154-155 | A property that each step preserves holds after any epoch prefix. |
| Training.EpochsKeep | model/gpt.py:153-164 | A property that each step preserves holds after any number of epochs. |
| Targets.DropLast | model/gpt.py:126 | `row[:-1]`: length L - 1 (0 on an empty row), and position t holds token t. |
| Targets.DropFirst | model/gpt.py:127 | `row[1:]`: length L - 1 (0 on an empty row), and position t holds token t + 1. |
| Targets.Inputs | model/gpt.py:126 | `data[:, :-1]` row by row, one input row per batch row. |
| Targets.Labels | model/gpt.py:127 | `data[:, 1:]` row by row, one label row per batch row. |
| Targets.ShiftedTargets | model/gpt.py:126-127 | For L ≥ 1, inputs and labels both have length L - 1, with inputs[t] = row[t] and labels[t] = row[t + 1], so labels[t] = inputs[t + 1]. The row is recovered from either. |
| Targets.ShiftedBatch | model/gpt.py:126-127 | A batch of B rows of length L ≥ 1 gives B input rows and B label rows of length L - 1 with the same shift. |
| Decoding.Argmax | model/gpt.py:351-352 | The returned index holds a maximal logit, and no earlier index holds one as large. |
| Decoding.Greedy | model/gpt.py:369-376 | What predict returns after at most n iterations, with its two raising cases. FineTuning.FineTuner.Predict is proved equal to it; characterised by GreedyDecode and GreedyFailure. |
| Decoding.GreedyDecode | model/gpt.py:369-376 | A decoded result keeps the prompt as its prefix and adds at most `limit_tokens` tokens. Each added token is the argmax for the sequence before it and is never `end_token`. It stops early only when the next prediction is `end_token`. |
| Decoding.GreedyFailure | model/gpt.py:346-376 | Decoding fails only on an empty prompt (exactly when at least one iteration runs) or on an empty logit vector. A non-empty prompt always decodes when the network always gives logits. |
| Pretraining.AfterSaveCheckpoint | model/gpt.py:79-86 | `__save_model` as an effect. Pretrainer.SaveCheckpoint is proved equal to it; characterised by CheckpointRoundTrip. |
| Pretraining.AfterLoadCheckpoint | model/gpt.py:88-93 | `__load_model` as an effect. Pretrainer.LoadCheckpoint is proved equal to it; characterised by LoadModelPaths, LoadMissingIsNoop and CheckpointRoundTrip. |
| Pretraining.AfterSaveModel | model/gpt.py:95-102 | `save_model` as an effect. Pretrainer.SaveModel is proved equal to it; characterised by SaveModelPaths and SaveLoadModelRoundTrip. |
| Pretraining.AfterLoadModel | model/gpt.py:104-111 | `load_model` as an effect. Pretrainer.LoadModel is proved equal to it; characterised by LoadModelPaths, LoadMissingIsNoop and SaveLoadModelRoundTrip. |
| Pretraining.AfterInit | model/gpt.py:41-69 | `__init__` as an effect. Pretrainer.Create is proved equal to it. |
| Pretraining.Resume | model/gpt.py:146-147 | The reload at the start of fit. Pretrainer.Fit is proved to run it first. |
| Pretraining.EpochLoop | model/gpt.py:153-165 | The epoch loop with its two raising paths. Pretrainer.Loop is proved equal to it; characterised by EpochLoopPasses and FitFailures. |
| Pretraining.Finish | model/gpt.py:153-173 | The loop, then a save iff a checkpoint is set. Characterised by FitSummary. |
| Pretraining.AfterFit | model/gpt.py:145-173 | `fit` as an effect. Pretrainer.Fit is proved equal to it; characterised by FitKeepsLayout and FitFailures. |
| Pretraining.Initial | model/gpt.py:53-66 | The fields `__init__` sets before any load: the given checkpoint, the fresh model and optimizer, epoch 0, empty counters, nothing printed; well formed for a GPTModel layout. Pretrainer.constructor is proved equal to it, and AfterInit starts from it. |
| Pretraining.Snapshot | model/gpt.py:79-84 | The record `__save_model` writes holds the model's state dict, the optimizer's and the epoch; a well-formed trainer writes GPTModel's layout, the one `__load_model` accepts. AfterSaveCheckpoint writes it; CheckpointRoundTrip reads it back. |
| Pretraining.StepOfShifts | model/gpt.py:124-143 | The step that PretrainStep and the epoch loop use: the oracle gets the batch without its last column as inputs and without its first as labels; the layout is kept and every group takes the proposed tensor, since nothing is frozen; both counters receive the oracle's values. |
| Pretraining.Pretrainer.constructor | model/gpt.py:53-66 | The fresh fields: the given checkpoint, epoch 0, empty counters, nothing printed. |
| Pretraining.Pretrainer.Create | model/gpt.py:41-69 | `__init__` as a whole: the fields, then `load_model(checkpoint)` when a checkpoint is given. |
| Pretraining.Pretrainer.SaveCheckpoint | model/gpt.py:79-86 | Writes {model, optimizer, epoch} at the path and prints "Model Saved". Nothing else changes. |
| Pretraining.Pretrainer.LoadCheckpoint | model/gpt.py:88-93 | A missing file is skipped. A record of another layout raises with nothing changed. Otherwise model, optimizer and epoch come from the record. |
| Pretraining.Pretrainer.SaveModel | model/gpt.py:95-102 | Path selection for saving, as the effect function (see SaveModelPaths). |
| Pretraining.Pretrainer.LoadModel | model/gpt.py:104-111 | Path selection for loading, as the effect function (see LoadModelPaths). |
| Pretraining.Pretrainer.PretrainStep | model/gpt.py:124-143 | One step on the shifted inputs and labels. Both counters grow by the step's values. No group is frozen. |
| Pretraining.Pretrainer.Batch | model/gpt.py:155-163 | The inner-loop body: a step, then a report and reset when the rule holds. With M = 0 it raises after the step. |
| Pretraining.Pretrainer.RunEpoch | model/gpt.py:154-163 | One pass over the T batches equals the spec function `Steps`. With M = 0 it raises after the first step. |
| Pretraining.Pretrainer.Loop | model/gpt.py:153-165 | The epoch loop equals `EpochLoop`: whole epochs, `epoch += 1` each, UnboundIndex on zero batches, ZeroDivision on M = 0. |
| Pretraining.Pretrainer.Fit | model/gpt.py:145-173 | `fit` equals `AfterFit`: the resume load, then the loop, then a save iff a checkpoint is set. |
| Pretraining.SaveModelPaths | model/gpt.py:95-102 | An explicit path is written and becomes the checkpoint. Otherwise the set checkpoint is written and kept. With neither, nothing is written and "Checkpoint not found" is printed. The model, optimizer, epoch and counters never change. |
| Pretraining.LoadModelPaths | model/gpt.py:88-111 | The path used is the explicit one, else the checkpoint. With neither, it only prints "Checkpoint not found". It never writes a file. It raises exactly on a record of another layout, and then changes nothing. Otherwise an explicit path becomes the checkpoint and an existing record's model, optimizer and epoch are taken over. |
| Pretraining.LoadMissingIsNoop | model/gpt.py:88-111 | Loading from a path with no file changes nothing except that an explicit path becomes the checkpoint. |
| Pretraining.CheckpointRoundTrip | model/gpt.py:79-93 | Save then load gives any trainer the saved model, optimizer and epoch, and leaves the rest of it unchanged. |
| Pretraining.SaveLoadModelRoundTrip | model/gpt.py:95-111 | `save_model(p)` then `load_model()` restores the saved state and keeps p as the checkpoint. |
| Pretraining.FitKeepsLayout | model/gpt.py:145-173 | Every fit keeps GPTModel's parameter layout. |
| Pretraining.FitSummary | model/gpt.py:153-173 | After resuming, a fit that returns normally: adds max(epochs, 0) to the epoch; needs batches and M ≠ 0 when an epoch runs; ends with zero counters; prints n·ceil(T / M) reports (n for M < 0); saves iff a checkpoint is set, to that checkpoint. |
| Pretraining.EpochLoopPasses | model/gpt.py:153-165 | The loop returns normally iff no epoch runs, or there are batches and M ≠ 0. It has then run whole epochs. |
| Pretraining.FitFailures | model/gpt.py:153-165 | Zero batches raise after one `epoch += 1`. M = 0 raises after one step, with no report. Neither saves. |
| FineTuning.SetGrad | model/gpt.py:282-283 | Sets one group's `requires_grad` and leaves the others alone. |
| FineTuning.ClearGrad | model/gpt.py:281-282 | Clears `requires_grad` on exactly the groups visited. |
| FineTuning.ApplyFreeze | model/gpt.py:281-283 | Embedding and decoder blocks are frozen, `decoder.linear` is trainable, and the classifier is untouched. |
| FineTuning.FreezeIsLoop | model/gpt.py:281-283 | The freeze loop over the backbone, followed by re-enabling `decoder.linear`, equals the closed-form policy. |
| FineTuning.FrozenSet | model/gpt.py:270 | The groups the optimizer leaves alone are exactly those without `requires_grad`. |
| FineTuning.FreezeIdempotent | model/gpt.py:313-315 | Applying the policy twice is the same as applying it once. |
| FineTuning.FrozenAfterPolicy | model/gpt.py:313-315 | With a trainable classifier, the policy freezes exactly the embedding and the decoder blocks. A fresh model has nothing frozen. |
| FineTuning.AfterSaveCheckpoint | model/gpt.py:294-300 | `__save_model` as an effect. FineTuner.SaveCheckpoint is proved equal to it; characterised by CheckpointRoundTrip. |
| FineTuning.AfterLoadCheckpoint | model/gpt.py:274-284 | `__load_model` as an effect. FineTuner.LoadCheckpoint is proved equal to it; characterised by LoadModelPaths and CheckpointRoundTrip. |
| FineTuning.AfterLoadModel | model/gpt.py:287-292 | `load_model` as an effect. FineTuner.LoadModel is proved equal to it; characterised by LoadModelPaths. |
| FineTuning.AfterSaveModel | model/gpt.py:303-308 | `save_model` as an effect. FineTuner.SaveModel is proved equal to it; characterised by SaveModelPaths. |
| FineTuning.AfterLoadPretrained | model/gpt.py:310-317 | `load_pretrained_model` as an effect. FineTuner.LoadPretrained is proved equal to it; characterised by LoadPretrainedEffect and PretrainCheckpointLoads. |
| FineTuning.AfterInit | model/gpt.py:209-243 | `__init__` as an effect. FineTuner.Create is proved equal to it. |
| FineTuning.Resume | model/gpt.py:322-323 | The checkpoint reload at the start of fit and in sumary. FineTuner.Sumary is proved equal to it; characterised by FitLoadsPretrained and SumaryReloadIsNoop. |
| FineTuning.Prepare | model/gpt.py:324-325 | The pretrained load iff `training` is unset. Characterised by FitLoadsPretrained. |
| FineTuning.Ready | model/gpt.py:322-327 | The start of fit. FineTuner.Begin is proved equal to it; characterised by SumaryReloadIsNoop and FitSummary. |
| FineTuning.EpochLoop | model/gpt.py:329-341 | The epoch loop, raising only for mini_batch 0. FineTuner.Loop is proved equal to it; characterised by EpochLoopPasses and LoopKeepsFrozen. |
| FineTuning.Finish | model/gpt.py:329-344 | The loop, then a save iff a checkpoint is set. Characterised by FinishSummary. |
| FineTuning.AfterFit | model/gpt.py:320-344 | `fit` as an effect. FineTuner.Fit is proved equal to it; characterised by FitSummary and PretrainedLeavesTrainingUnset. |
| FineTuning.Initial | model/gpt.py:221-240 | The fields `__init__` sets before any load: the given checkpoint, the fresh model and optimizer, epoch 0, empty counter, nothing printed, nothing frozen and `training` false; well formed for a GPTFineTune layout. FineTuner.constructor is proved equal to it, and AfterInit starts from it. |
| FineTuning.Snapshot | model/gpt.py:295-299 | The record `__save_model` writes holds the model's state dict, the optimizer's and the epoch; a well-formed trainer writes GPTFineTune's layout, which is not the backbone layout `load_pretrained_model` accepts. AfterSaveCheckpoint writes it; CheckpointRoundTrip reads it back. |
| FineTuning.StepOfMasks | model/gpt.py:262-272 | The step that TrainStep and the epoch loop use: the layout is kept, a frozen group keeps its tensor, every other group takes the proposed one (Store.Update), and the step's loss is the oracle's. |
| FineTuning.FineTuner.constructor | model/gpt.py:221-240 | The fresh fields: epoch 0, everything trainable, `training` false. |
| FineTuning.FineTuner.Create | model/gpt.py:209-243 | `__init__` as a whole, including its `load_model(checkpoint)`. |
| FineTuning.FineTuner.Freeze | model/gpt.py:281-283 | The `requires_grad` loop computes the freeze policy. |
| FineTuning.FineTuner.SaveCheckpoint | model/gpt.py:294-300 | Writes {model, optimizer, epoch} at the path and prints the line. |
| FineTuning.FineTuner.LoadCheckpoint | model/gpt.py:274-284 | A missing file changes nothing. Another layout raises with nothing changed. Otherwise it takes the record, applies the freeze policy and sets `training`. |
| FineTuning.FineTuner.LoadModel | model/gpt.py:287-292 | Path selection for loading, as the effect function (see LoadModelPaths). |
| FineTuning.FineTuner.SaveModel | model/gpt.py:303-308 | Path selection for saving, as the effect function (see SaveModelPaths). |
| FineTuning.FineTuner.LoadPretrained | model/gpt.py:310-317 | `load_pretrained_model`, as the effect function (see LoadPretrainedEffect). |
| FineTuning.FineTuner.Sumary | model/gpt.py:355-358 | Reloads the configured checkpoint, if any. |
| FineTuning.FineTuner.TrainStep | model/gpt.py:262-272 | One step. Frozen groups keep their tensors, and the loss joins the counter. |
| FineTuning.FineTuner.Batch | model/gpt.py:335-340 | The inner-loop body: a step, then a report and reset when the rule holds. With M = 0 it raises. The other fields are unchanged. |
| FineTuning.FineTuner.RunEpoch | model/gpt.py:331-340 | One pass over the T batches equals `Steps` with the groups frozen at its start. The checkpoint, `requires_grad` and `training` are unchanged. |
| FineTuning.FineTuner.Loop | model/gpt.py:329-341 | The epoch loop equals `EpochLoop`. |
| FineTuning.FineTuner.Begin | model/gpt.py:322-327 | The start of `fit`: the resume load, the pretrained load iff `training` is unset, then `sumary`'s reload. |
| FineTuning.FineTuner.Fit | model/gpt.py:320-344 | `fit` equals `AfterFit`: the start, the loop, then a save iff a checkpoint is set. |
| FineTuning.FineTuner.Predict | model/gpt.py:360-376 | The loop with its early break computes the greedy decode for max(limit_tokens, 0) iterations. |
| FineTuning.LoadModelPaths | model/gpt.py:274-292 | The path used is the explicit one, else the checkpoint; with neither, nothing happens. A missing file changes nothing, though an explicit path still becomes the checkpoint. A record of another layout raises with nothing changed. Otherwise the record is taken over, the policy applied and `training` set. |
| FineTuning.SaveModelPaths | model/gpt.py:294-308 | The explicit path (which becomes the checkpoint) or else the configured one is written. With neither, nothing happens. |
| FineTuning.CheckpointRoundTrip | model/gpt.py:274-300 | Save then load restores model, optimizer and epoch, sets `training` and applies the policy. |
| FineTuning.LoadPretrainedEffect | model/gpt.py:310-317 | None and a missing file raise with nothing changed. It passes iff the record has the backbone layout. Then the backbone holds the file's tensors and the classifier keeps its own. `requires_grad` becomes the freeze policy applied to the old flags, and optimizer, epoch, counter, checkpoint and `training` are untouched. A KeyMismatch raise leaves the trainer as it was. |
| FineTuning.PretrainCheckpointLoads | model/gpt.py:310-312 | A GPTPretrain checkpoint loads as a pretrained backbone, but `load_model` rejects it for its layout. |
| FineTuning.SumaryReloadIsNoop | model/gpt.py:355-358 | The reload inside `sumary`, after `fit`'s own loads, changes nothing. |
| FineTuning.FitLoadsPretrained | model/gpt.py:322-325 | After the resume load, `training` is set iff it was set before or a checkpoint file existed. The pretrained load runs iff it is unset, and raises NoPath without a path. |
| FineTuning.PretrainedLeavesTrainingUnset | model/gpt.py:310-325 | Without a checkpoint, a successful fit leaves `training` unset, so the next fit loads the pretrained backbone again. |
| FineTuning.LoopKeepsFrozen | model/gpt.py:329-341 | The epoch loop keeps the layout, the frozen groups' tensors, `requires_grad`, `training` and the checkpoint. |
| FineTuning.FitSummary | model/gpt.py:320-327 | A fit that returns normally is its epoch loop and save run from a well-formed state reached by the first load and the pretrained load alone, with the checkpoint `fit` started with, so FinishSummary's save clause is about that checkpoint. On either route the freeze policy then holds and exactly the embedding and decoder blocks are frozen, so by FinishSummary they keep their tensors through training. |
| FineTuning.FinishSummary | model/gpt.py:329-344 | From there: the epoch rises by max(epochs, 0); the counters end at zero; ceil(T / M) reports per epoch (one for M < 0); frozen groups keep their tensors; the layout is kept; it saves iff a checkpoint is set. |
| FineTuning.EpochLoopPasses | model/gpt.py:329-341 | The loop returns normally iff no epoch runs, there is no batch, or M ≠ 0. It has then run whole epochs with the groups frozen at its start. |

## Left out

- Tensor arithmetic is out: the forward passes of GPTModel and GPTFineTune, the decoder, classifier and embedding, and `generate_mask`. They are library code. Steps and forward passes are oracle parameters.
- Loss values are out: cross-entropy, perplexity, `loss.backward()` and Adam's arithmetic. They are floating-point library code. Losses are opaque handles.
- The printed means (sums divided by `mini_batch`) are out, because they are floating point. The window each mean is taken over is modelled as a sequence of step values, and Training.StepsReportWindows proves how many steps each printed window covers, including the short last window.
- Serialization is out. `torch.save`, `torch.load` and `os.path.exists` are replaced by the `Disk` map.
- A state dict is reduced to one tensor per group. The "pretrained_model." key prefixes are abstracted away.
- A load is checked only as a whole. `load_state_dict` raising on a mismatched key set is modelled as a layout check before anything changes; per-tensor shape checks and optimizer-state mismatches are out. PyTorch's strict `load_state_dict` is not atomic: it copies the tensors whose keys match before it raises. All-or-nothing is exact here only because the layouts that meet share no key: GPTFineTune's keys carry the `pretrained_model.` prefix that GPTModel's lack. A record that overlaps a trainer's layout in part would be loaded in part by the library, and the model does not capture that.
- Decoding.Argmax: logits are integers, where the source's are float tensors, so the ordering of `torch.max` over NaN values is not modelled.
- DataLoader batching and shuffling are out, because the order is nondeterministic. `fit` takes its batches as a given sequence and reuses the same sequence every epoch.
- `build_dataset` and `build_pretrain_dataset` are out for the same reason.
- `model.train()` and `model.eval()` are out. They only switch dropout, which is tensor arithmetic.
- `device` placement and the torchsummary output of `sumary` are out. They have no effect on the orchestration state.
- The unused `epoch_loss` / `mean_loss` values in `GPTPretrain.fit` are out. Only the raise when `index` is unbound is kept.
- The commented-out early stopping and the commented-out preload in `predict` are out, because they are inert.
- The exact text of printed lines is out. Lines are modelled as `Message` values.
- FineTuning.FineTuner.Predict: decodes a single prompt, where the source takes a batch of one. `torch.max` ties are taken to go to the first maximal index.
- The `requires_grad` flags form a record of four booleans, not a dictionary keyed by group. The flags are exactly as before.
- Pretraining.Pretrainer.constructor and FineTuning.FineTuner.constructor set the fields only. `Create` models the whole `__init__` including its load, since a Dafny constructor cannot report an exception. On Fail, the Python object would not exist.
- FineTuning.FitSummary does not restate the loop facts itself. It reduces `fit` to `Finish`, and `FineTuning.FinishSummary` states those facts.
