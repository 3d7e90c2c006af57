/**
 * GPTPretrain: the pretraining trainer. It owns a GPTModel (its
 * parameters are the three backbone groups), an optimizer, the running
 * counters `entropy_loss` and `perplexity`, an epoch counter and an
 * optional checkpoint path; it saves and loads checkpoints and runs the
 * next-token training loop.
 */
module Pretraining {
  import opened Store
  import opened Training
  import opened Targets

  /** What one pretrain_step adds to the running counters. */
  datatype StepLoss = StepLoss(entropy: Loss, perplexity: Loss)

  /** The outcome of the forward pass, cross-entropy, backward pass and Adam step. */
  datatype StepOut = StepOut(params: Params, optimizer: OptState, loss: Loss, perplexity: Loss)

  /** The network and optimizer as an oracle: (params, optimizer, inputs, labels) to StepOut. */
  type Oracle = (Params, OptState, seq<seq<int>>, seq<seq<int>>) -> StepOut

  /**
   * pretrain_step as a step of the training loop: shift the batch into
   * inputs and labels and hand them to the oracle. No group is frozen.
   */
  function StepOf(oracle: Oracle): (ModelState, seq<seq<int>>) -> (ModelState, StepLoss)
  {
    (s: ModelState, batch: seq<seq<int>>) =>
      var out := oracle(s.params, s.optimizer, Inputs(batch), Labels(batch));
      (ModelState(Update(s.params, out.params, {}), out.optimizer), StepLoss(out.loss, out.perplexity))
  }

  /**
   * One pretrain step: the oracle sees the batch without its last column as
   * inputs and without its first as labels; the layout is kept and, with
   * nothing frozen, every group takes the proposed tensor; both counters
   * receive the oracle's values.
   */
  lemma StepOfShifts(oracle: Oracle, s: ModelState, batch: seq<seq<int>>)
    ensures var out := oracle(s.params, s.optimizer, Inputs(batch), Labels(batch));
      var (next, loss) := StepOf(oracle)(s, batch);
      && next.params.Keys == s.params.Keys
      && (forall g :: g in s.params && g in out.params ==> next.params[g] == out.params[g])
      && next.optimizer == out.optimizer
      && loss == StepLoss(out.loss, out.perplexity)
  {
  }

  /** The fields of a GPTPretrain that the orchestration reads or writes. */
  datatype TrainerState = TrainerState(checkpoint: Option<Path>, run: Run<StepLoss>)

  /** What an operation leaves behind: the trainer, the files, and whether it raised. */
  datatype Effect = Effect(state: TrainerState, files: map<Path, Record>, outcome: Outcome<Error>)

  /** The model's parameters have GPTModel's layout. */
  predicate Wellformed(st: TrainerState)
  {
    st.run.model.params.Keys == Backbone
  }

  /**
   * What __save_model writes: the model's and the optimizer's state and the
   * epoch. A well-formed trainer writes GPTModel's layout, the one
   * __load_model accepts.
   */
  function Snapshot(st: TrainerState): (r: Record)
    ensures r.model == st.run.model.params && r.optimizer == st.run.model.optimizer && r.epoch == st.run.epoch
    ensures Wellformed(st) ==> r.model.Keys == Backbone
  {
    Record(st.run.model.params, st.run.model.optimizer, st.run.epoch)
  }

  function Note(st: TrainerState, line: Message<StepLoss>): TrainerState
  {
    st.(run := st.run.(log := st.run.log + [line]))
  }

  /** The fields set by __init__ before it loads anything (lines 53-66). */
  function Initial(init: Params, opt: OptState, checkpoint: Option<Path>): (r: TrainerState)
    ensures r.checkpoint == checkpoint && r.run.model == ModelState(init, opt)
    ensures r.run.epoch == 0 && r.run.window == [] && r.run.log == []
    ensures init.Keys == Backbone ==> Wellformed(r)
  {
    TrainerState(checkpoint, Run(ModelState(init, opt), [], 0, []))
  }

  /** __save_model(p): write {model, optimizer, epoch} at p and say so. */
  function AfterSaveCheckpoint(st: TrainerState, files: map<Path, Record>, p: Path): Effect
  {
    Effect(Note(st, Saved(p)), files[p := Snapshot(st)], Pass)
  }

  /**
   * __load_model(p): nothing happens when no file is at p; a record whose
   * keys are not GPTModel's makes load_state_dict raise before anything is
   * changed; otherwise model, optimizer and epoch come from the record.
   */
  function AfterLoadCheckpoint(st: TrainerState, files: map<Path, Record>, p: Path): Effect
  {
    if p !in files then Effect(st, files, Pass)
    else
      var rec := files[p];
      if rec.model.Keys != Backbone then Effect(st, files, Fail(KeyMismatch))
      else Effect(st.(run := st.run.(model := ModelState(rec.model, rec.optimizer), epoch := rec.epoch)),
                  files, Pass)
  }

  /** save_model(path): an explicit path wins and becomes the checkpoint. */
  function AfterSaveModel(st: TrainerState, files: map<Path, Record>, path: Option<Path>): Effect
  {
    if path.Some? then
      var e := AfterSaveCheckpoint(st, files, path.value);
      e.(state := e.state.(checkpoint := path))
    else if st.checkpoint.Some? then AfterSaveCheckpoint(st, files, st.checkpoint.value)
    else Effect(Note(st, CheckpointNotFound), files, Pass)
  }

  /** load_model(path): as save_model; the path is recorded only once the load returned. */
  function AfterLoadModel(st: TrainerState, files: map<Path, Record>, path: Option<Path>): Effect
  {
    if path.Some? then
      var e := AfterLoadCheckpoint(st, files, path.value);
      if e.outcome.Fail? then e else e.(state := e.state.(checkpoint := path))
    else if st.checkpoint.Some? then AfterLoadCheckpoint(st, files, st.checkpoint.value)
    else Effect(Note(st, CheckpointNotFound), files, Pass)
  }

  /** __init__: the fields, then load_model(checkpoint) when a checkpoint is given. */
  function AfterInit(init: Params, opt: OptState, checkpoint: Option<Path>, files: map<Path, Record>): Effect
  {
    var st := Initial(init, opt, checkpoint);
    if checkpoint.Some? then AfterLoadModel(st, files, checkpoint) else Effect(st, files, Pass)
  }

  /** The start of fit: reload the configured checkpoint, if any. */
  function Resume(st: TrainerState, files: map<Path, Record>): Effect
  {
    if st.checkpoint.Some? then AfterLoadModel(st, files, st.checkpoint) else Effect(st, files, Pass)
  }

  /**
   * The epoch loop of fit over T batches. With no batch the loop body
   * never binds `index`, so `index + 1` after `self.epoch += 1` raises; with
   * mini_batch 0 the first report check raises after the first step.
   */
  function EpochLoop(st: TrainerState, batches: seq<seq<seq<int>>>, epochs: int, m: int, oracle: Oracle)
    : (TrainerState, Outcome<Error>)
  {
    var n := if epochs < 0 then 0 else epochs;
    if n == 0 then (st, Pass)
    else if batches == [] then (st.(run := st.run.(epoch := st.run.epoch + 1)), Fail(UnboundIndex))
    else if m == 0 then (st.(run := Train(st.run, batches[0], StepOf(oracle))), Fail(ZeroDivision))
    else (st.(run := Epochs(st.run, batches, n, m, StepOf(oracle))), Pass)
  }

  /** fit: resume, then the epochs and the final save. */
  function AfterFit(st: TrainerState, files: map<Path, Record>, batches: seq<seq<seq<int>>>,
                    epochs: int, m: int, oracle: Oracle): Effect
  {
    var pre := Resume(st, files);
    if pre.outcome.Fail? then pre
    else Finish(pre.state, pre.files, batches, epochs, m, oracle)
  }

  /** The rest of fit once resumed: the epochs, then a save to the configured checkpoint. */
  function Finish(st: TrainerState, files: map<Path, Record>, batches: seq<seq<seq<int>>>,
                  epochs: int, m: int, oracle: Oracle): Effect
  {
    var (s, outcome) := EpochLoop(st, batches, epochs, m, oracle);
    if outcome.Fail? then Effect(s, files, outcome)
    else if s.checkpoint.Some? then AfterSaveCheckpoint(s, files, s.checkpoint.value)
    else Effect(s, files, Pass)
  }

  class Pretrainer {
    var checkpoint: Option<Path>
    var epoch: int
    var params: Params
    var optimizer: OptState
    /** entropy_loss and perplexity: the step values added since the last reset. */
    var window: seq<StepLoss>
    /** What the trainer has printed. */
    var log: seq<Message<StepLoss>>

    function State(): TrainerState
      reads this
    {
      TrainerState(checkpoint, Run(ModelState(params, optimizer), window, epoch, log))
    }

    ghost predicate Valid()
      reads this
    {
      Wellformed(State())
    }

    /** The field initialisation of __init__. */
    constructor (init: Params, opt: OptState, checkpoint: Option<Path>)
      requires init.Keys == Backbone
      ensures Valid() && State() == Initial(init, opt, checkpoint)
    {
      this.checkpoint := checkpoint;
      params, optimizer := init, opt;
      window, log := [], [];
      epoch := 0;
    }

    /**
     * The whole of __init__, including its load_model(checkpoint). When the
     * outcome is Fail the Python constructor raised and no trainer exists.
     */
    static method Create(disk: Disk, init: Params, opt: OptState, checkpoint: Option<Path>)
      returns (t: Pretrainer, outcome: Outcome<Error>)
      requires init.Keys == Backbone
      ensures fresh(t) && t.Valid()
      ensures var e := AfterInit(init, opt, checkpoint, disk.files);
        t.State() == e.state && outcome == e.outcome
    {
      t := new Pretrainer(init, opt, checkpoint);
      outcome := Pass;
      if checkpoint.Some? {
        outcome := t.LoadModel(disk, checkpoint);
      }
    }

    /** __save_model */
    method SaveCheckpoint(disk: Disk, p: Path)
      requires Valid()
      modifies this, disk
      ensures Valid()
      ensures var e := AfterSaveCheckpoint(old(State()), old(disk.files), p);
        State() == e.state && disk.files == e.files
    {
      disk.files := disk.files[p := Record(params, optimizer, epoch)];
      log := log + [Saved(p)];
    }

    /** __load_model */
    method LoadCheckpoint(disk: Disk, p: Path) returns (outcome: Outcome<Error>)
      requires Valid()
      modifies this
      ensures Valid()
      ensures var e := AfterLoadCheckpoint(old(State()), disk.files, p);
        State() == e.state && outcome == e.outcome
    {
      outcome := Pass;
      if p in disk.files {
        var rec := disk.files[p];
        if rec.model.Keys != Backbone {
          outcome := Fail(KeyMismatch);
          return;
        }
        params := rec.model;
        optimizer := rec.optimizer;
        epoch := rec.epoch;
      }
    }

    /** save_model */
    method SaveModel(disk: Disk, path: Option<Path>)
      requires Valid()
      modifies this, disk
      ensures Valid()
      ensures var e := AfterSaveModel(old(State()), old(disk.files), path);
        State() == e.state && disk.files == e.files
    {
      if path.Some? {
        SaveCheckpoint(disk, path.value);
        checkpoint := path;
      } else if checkpoint.Some? {
        SaveCheckpoint(disk, checkpoint.value);
      } else {
        log := log + [CheckpointNotFound];
      }
    }

    /** load_model */
    method LoadModel(disk: Disk, path: Option<Path>) returns (outcome: Outcome<Error>)
      requires Valid()
      modifies this
      ensures Valid()
      ensures var e := AfterLoadModel(old(State()), disk.files, path);
        State() == e.state && outcome == e.outcome
    {
      if path.Some? {
        outcome := LoadCheckpoint(disk, path.value);
        if outcome.Fail? {
          return;
        }
        checkpoint := path;
      } else if checkpoint.Some? {
        outcome := LoadCheckpoint(disk, checkpoint.value);
      } else {
        log := log + [CheckpointNotFound];
        outcome := Pass;
      }
    }

    /** pretrain_step: shifted targets, one oracle step, both counters grow. */
    method PretrainStep(batch: seq<seq<int>>, oracle: Oracle)
      requires Valid()
      modifies this
      ensures Valid()
      ensures State() == old(State()).(run := Train(old(State()).run, batch, StepOf(oracle)))
    {
      var inputs := Inputs(batch);
      var labels := Labels(batch);
      var out := oracle(params, optimizer, inputs, labels);
      params := Update(params, out.params, {});
      optimizer := out.optimizer;
      window := window + [StepLoss(out.loss, out.perplexity)];
    }

    /**
     * The body of fit's inner loop for batch `index` of `total`: a step,
     * then a report (and reset) when due. With mini_batch 0 the report
     * check raises.
     */
    method Batch(b: seq<seq<int>>, index: int, total: int, miniBatch: int, oracle: Oracle)
      returns (outcome: Outcome<Error>)
      requires Valid()
      modifies this
      ensures Valid() && checkpoint == old(checkpoint)
      ensures miniBatch == 0 ==>
        outcome == Fail(ZeroDivision) && State().run == Train(old(State()).run, b, StepOf(oracle))
      ensures miniBatch != 0 ==>
        outcome == Pass && State().run == After(old(State()).run, b, index, total, miniBatch, StepOf(oracle))
    {
      PretrainStep(b, oracle);
      if miniBatch == 0 {
        return Fail(ZeroDivision);
      }
      if ReportAt(index, total, miniBatch) {
        log := log + [Progress(epoch + 1, index + 1, window)];
        window := [];
      }
      outcome := Pass;
    }

    /** One pass of fit's inner loop over the T batches. */
    method RunEpoch(batches: seq<seq<seq<int>>>, miniBatch: int, oracle: Oracle)
      returns (outcome: Outcome<Error>)
      requires Valid()
      modifies this
      ensures Valid() && checkpoint == old(checkpoint)
      ensures miniBatch != 0 ==>
        outcome == Pass && State().run == Steps(old(State()).run, batches, |batches|, miniBatch, StepOf(oracle))
      ensures miniBatch == 0 && batches != [] ==>
        outcome == Fail(ZeroDivision) && State().run == Train(old(State()).run, batches[0], StepOf(oracle))
      ensures miniBatch == 0 && batches == [] ==> outcome == Pass && State() == old(State())
    {
      ghost var step := StepOf(oracle);
      var total := |batches|;
      var index := 0;
      while index < total
        invariant 0 <= index <= total
        invariant Valid() && checkpoint == old(checkpoint)
        invariant miniBatch == 0 ==> index == 0 && State() == old(State())
        invariant miniBatch != 0 ==> State().run == Steps(old(State()).run, batches[..index], total, miniBatch, step)
      {
        outcome := Batch(batches[index], index, total, miniBatch, oracle);
        if outcome.Fail? {
          return;
        }
        assert batches[..index + 1][..index] == batches[..index];
        index := index + 1;
      }
      assert batches[..total] == batches;
      outcome := Pass;
    }

    /** fit(data, batch_size, epochs, shuffle, mini_batch), the data given as its T batches. */
    method Fit(disk: Disk, batches: seq<seq<seq<int>>>, epochs: int, miniBatch: int, oracle: Oracle)
      returns (outcome: Outcome<Error>)
      requires Valid()
      modifies this, disk
      ensures Valid()
      ensures var e := AfterFit(old(State()), old(disk.files), batches, epochs, miniBatch, oracle);
        State() == e.state && disk.files == e.files && outcome == e.outcome
    {
      ghost var pre := Resume(State(), disk.files);
      outcome := Pass;
      if checkpoint.Some? {
        outcome := LoadModel(disk, checkpoint);
      }
      assert State() == pre.state && outcome == pre.outcome && disk.files == pre.files;
      if outcome.Fail? {
        return;
      }
      ghost var looped := EpochLoop(pre.state, batches, epochs, miniBatch, oracle);
      ghost var finished := Finish(pre.state, pre.files, batches, epochs, miniBatch, oracle);
      outcome := Loop(batches, epochs, miniBatch, oracle);
      assert State() == looped.0 && outcome == looped.1;
      if outcome.Fail? {
        assert finished == Effect(State(), disk.files, outcome);
        return;
      }
      if checkpoint.Some? {
        SaveCheckpoint(disk, checkpoint.value);
      }
      assert State() == finished.state && disk.files == finished.files && outcome == finished.outcome;
    }

    /** The epoch loop of fit. */
    method Loop(batches: seq<seq<seq<int>>>, epochs: int, miniBatch: int, oracle: Oracle)
      returns (outcome: Outcome<Error>)
      requires Valid()
      modifies this
      ensures Valid()
      ensures (State(), outcome) == EpochLoop(old(State()), batches, epochs, miniBatch, oracle)
    {
      var e := 0;
      while e < epochs
        invariant 0 <= e && (e <= epochs || e == 0)
        invariant Valid() && checkpoint == old(checkpoint)
        invariant e > 0 ==> batches != [] && miniBatch != 0
        invariant State().run == Epochs(old(State()).run, batches, e, miniBatch, StepOf(oracle))
      {
        outcome := RunEpoch(batches, miniBatch, oracle);
        if outcome.Fail? {
          return;
        }
        epoch := epoch + 1;
        if batches == [] {
          // the loop variable `index` was never bound
          return Fail(UnboundIndex);
        }
        e := e + 1;
      }
      outcome := Pass;
    }
  }

  // ---------------------------------------------------------------------
  // Checkpoint paths

  /**
   * save_model uses the explicit path when there is one (and then makes it
   * the checkpoint), else the configured checkpoint (unchanged); with
   * neither it writes nothing and prints "Checkpoint not found". The
   * trainer's model, optimizer, epoch and counters never change.
   */
  lemma SaveModelPaths(st: TrainerState, files: map<Path, Record>, path: Option<Path>)
    ensures var e := AfterSaveModel(st, files, path);
      && e.outcome == Pass
      && e.state.run.model == st.run.model && e.state.run.epoch == st.run.epoch
      && e.state.run.window == st.run.window
      && (path.Some? ==>
            e.files == files[path.value := Snapshot(st)] && e.state.checkpoint == path
            && e.state.run.log == st.run.log + [Saved(path.value)])
      && (path.None? && st.checkpoint.Some? ==>
            e.files == files[st.checkpoint.value := Snapshot(st)] && e.state.checkpoint == st.checkpoint
            && e.state.run.log == st.run.log + [Saved(st.checkpoint.value)])
      && (path.None? && st.checkpoint.None? ==>
            e.files == files && e.state.checkpoint == None
            && e.state.run.log == st.run.log + [CheckpointNotFound])
  {
  }

  /**
   * load_model reads the explicit path when there is one, else the
   * configured checkpoint; with neither it only prints "Checkpoint not
   * found". It never writes a file and never prints otherwise; it raises
   * exactly when the file holds another layout, and then changes nothing;
   * otherwise the explicit path becomes the checkpoint and an existing
   * file's model, optimizer and epoch are taken over.
   */
  lemma LoadModelPaths(st: TrainerState, files: map<Path, Record>, path: Option<Path>)
    ensures var e := AfterLoadModel(st, files, path);
      var used := if path.Some? then path else st.checkpoint;
      && e.files == files
      && (used.None? ==> e.outcome == Pass && e.state == Note(st, CheckpointNotFound))
      && (used.Some? ==>
            && e.state.run.log == st.run.log && e.state.run.window == st.run.window
            && (e.outcome.Fail? <==> used.value in files && files[used.value].model.Keys != Backbone)
            && (e.outcome.Fail? ==> e.state == st && e.outcome == Fail(KeyMismatch))
            && (e.outcome.Pass? ==> e.state.checkpoint == used)
            && (e.outcome.Pass? && used.value in files ==>
                  e.state.run.model == ModelState(files[used.value].model, files[used.value].optimizer)
                  && e.state.run.epoch == files[used.value].epoch))
  {
  }

  /**
   * Loading from a path with no file is silently skipped: model, optimizer,
   * epoch and counters stay; only an explicit path becomes the checkpoint.
   */
  lemma LoadMissingIsNoop(st: TrainerState, files: map<Path, Record>, path: Option<Path>)
    requires var used := if path.Some? then path else st.checkpoint;
      used.Some? && used.value !in files
    ensures AfterLoadModel(st, files, path) ==
      Effect(st.(checkpoint := if path.Some? then path else st.checkpoint), files, Pass)
  {
  }

  /**
   * Save then load restores what was saved: whichever trainer loads the
   * file gets the saved model, optimizer state and epoch back, and nothing
   * else of it changes.
   */
  lemma CheckpointRoundTrip(st: TrainerState, files: map<Path, Record>, p: Path, other: TrainerState)
    requires Wellformed(st)
    ensures var saved := AfterSaveCheckpoint(st, files, p);
      var loaded := AfterLoadCheckpoint(other, saved.files, p);
      && loaded.outcome == Pass
      && loaded.state.run.model == st.run.model
      && loaded.state.run.epoch == st.run.epoch
      && loaded.state.run.window == other.run.window
      && loaded.state.run.log == other.run.log
      && loaded.state.checkpoint == other.checkpoint
  {
  }

  /** The same through save_model(path) and a later load_model() on the trainer that saved. */
  lemma SaveLoadModelRoundTrip(st: TrainerState, files: map<Path, Record>, p: Path)
    requires Wellformed(st)
    ensures var saved := AfterSaveModel(st, files, Some(p));
      var loaded := AfterLoadModel(saved.state, saved.files, None);
      && loaded.outcome == Pass
      && loaded.state == saved.state
      && loaded.state.checkpoint == Some(p)
      && loaded.state.run.model == st.run.model && loaded.state.run.epoch == st.run.epoch
  {
    CheckpointRoundTrip(st, files, p, AfterSaveModel(st, files, Some(p)).state);
  }

  // ---------------------------------------------------------------------
  // The training loop

  /** Every step, hence every fit, keeps GPTModel's parameter layout. */
  lemma FitKeepsLayout(st: TrainerState, files: map<Path, Record>, batches: seq<seq<seq<int>>>,
                       epochs: int, m: int, oracle: Oracle)
    requires Wellformed(st)
    ensures Wellformed(AfterFit(st, files, batches, epochs, m, oracle).state)
  {
    var inv := (s: ModelState) => s.params.Keys == Backbone;
    var step := StepOf(oracle);
    forall s: ModelState, b: seq<seq<int>> | inv(s)
      ensures inv(step(s, b).0)
    {
      var out := oracle(s.params, s.optimizer, Inputs(b), Labels(b));
      assert step(s, b).0.params == Update(s.params, out.params, {});
    }
    var pre := Resume(st, files);
    var n := if epochs < 0 then 0 else epochs;
    if pre.outcome.Pass? && n > 0 && batches != [] && m != 0 {
      EpochsKeep(pre.state.run, batches, n, m, step, inv);
    }
  }

  /**
   * Once resumed, a fit that returns normally runs max(epochs, 0) epochs
   * on top of the epoch it resumed from, prints ceil(T / M) reports per
   * epoch (one when M < 0), leaves the running counters at zero when a
   * batch ran, and saves exactly when a checkpoint is configured, to that
   * checkpoint.
   */
  lemma {:induction false} FitSummary(pre: TrainerState, files: map<Path, Record>, batches: seq<seq<seq<int>>>,
                                      epochs: int, m: int, oracle: Oracle)
    requires Finish(pre, files, batches, epochs, m, oracle).outcome == Pass
    ensures var e := Finish(pre, files, batches, epochs, m, oracle);
      var n := if epochs < 0 then 0 else epochs;
      && e.state.checkpoint == pre.checkpoint
      && e.state.run.epoch == pre.run.epoch + n
      && (n > 0 ==> batches != [] && m != 0)
      && (n > 0 ==> e.state.run.window == [])
      && (n > 0 && m > 0 ==>
            |e.state.run.log| == |pre.run.log| + n * ((|batches| + m - 1) / m)
                                 + (if pre.checkpoint.Some? then 1 else 0))
      && (n > 0 && m < 0 ==>
            |e.state.run.log| == |pre.run.log| + n + (if pre.checkpoint.Some? then 1 else 0))
      && (pre.checkpoint.None? ==> e.files == files)
      && (pre.checkpoint.Some? ==> e.files == files[pre.checkpoint.value := Snapshot(e.state)])
  {
    var n := if epochs < 0 then 0 else epochs;
    var step := StepOf(oracle);
    EpochLoopPasses(pre, batches, epochs, m, oracle);
    var s := EpochLoop(pre, batches, epochs, m, oracle).0;
    if n > 0 {
      EpochsSummary(pre.run, batches, n, m, step);
    }
    assert Finish(pre, files, batches, epochs, m, oracle)
        == if s.checkpoint.Some? then AfterSaveCheckpoint(s, files, s.checkpoint.value) else Effect(s, files, Pass);
  }

  /**
   * The epoch loop returns normally exactly when there is no epoch to run
   * or there are batches and mini_batch is not 0; it has then run whole
   * epochs.
   */
  lemma EpochLoopPasses(st: TrainerState, batches: seq<seq<seq<int>>>, epochs: int, m: int, oracle: Oracle)
    ensures var n := if epochs < 0 then 0 else epochs;
      var (s, outcome) := EpochLoop(st, batches, epochs, m, oracle);
      && (outcome.Pass? <==> n == 0 || (batches != [] && m != 0))
      && (outcome.Pass? ==> s == st.(run := Epochs(st.run, batches, n, m, StepOf(oracle))))
  {
  }

  /**
   * The loop's two raising paths: no batch at all (after one `epoch += 1`)
   * and mini_batch 0 (after the first step, before any report). Neither
   * saves.
   */
  lemma FitFailures(st: TrainerState, files: map<Path, Record>, batches: seq<seq<seq<int>>>,
                    epochs: int, m: int, oracle: Oracle)
    requires Resume(st, files).outcome == Pass && epochs >= 1
    ensures var pre := Resume(st, files).state;
      var e := AfterFit(st, files, batches, epochs, m, oracle);
      && (batches == [] ==>
            e.outcome == Fail(UnboundIndex) && e.files == files
            && e.state == pre.(run := pre.run.(epoch := pre.run.epoch + 1)))
      && (batches != [] && m == 0 ==>
            e.outcome == Fail(ZeroDivision) && e.files == files
            && e.state.run.epoch == pre.run.epoch && e.state.run.log == pre.run.log
            && |e.state.run.window| == |pre.run.window| + 1)
  {
  }
}
