/**
 * GPT: the fine-tuning trainer. Its model, GPTFineTune, is a GPTModel
 * backbone followed by a classifier head. It keeps an epoch counter, a
 * running loss, an optional checkpoint path and a `training` flag, and
 * it freezes all of the backbone except the decoder's output projection
 * whenever it loads weights. Greedy decoding is in `Predict`.
 */
module FineTuning {
  import opened Store
  import opened Training
  import opened Decoding
  import Pretraining

  // ---------------------------------------------------------------------
  // The freeze policy

  /** requires_grad of each parameter group. */
  datatype Trainable = Trainable(embedding: bool, decoderLayers: bool, decoderLinear: bool, classifier: bool)

  function Grad(t: Trainable, g: Group): bool
  {
    match g
    case Embedding => t.embedding
    case DecoderLayers => t.decoderLayers
    case DecoderLinear => t.decoderLinear
    case Classifier => t.classifier
  }

  /** `requires_grad = b` on the parameters of group g. */
  function SetGrad(t: Trainable, g: Group, b: bool): (r: Trainable)
    ensures Grad(r, g) == b
    ensures forall h :: h != g ==> Grad(r, h) == Grad(t, h)
  {
    match g
    case Embedding => t.(embedding := b)
    case DecoderLayers => t.(decoderLayers := b)
    case DecoderLinear => t.(decoderLinear := b)
    case Classifier => t.(classifier := b)
  }

  /** A freshly built GPTFineTune: every group takes gradients. */
  const AllTrainable: Trainable := Trainable(true, true, true, true)

  /** The order in which pretrained_model.parameters() visits the groups. */
  const BackboneOrder: seq<Group> := [Embedding, DecoderLayers, DecoderLinear]

  /** `params.requires_grad = False` for each group of gs in turn. */
  function ClearGrad(t: Trainable, gs: seq<Group>): (r: Trainable)
    ensures forall g :: Grad(r, g) == (if g in gs then false else Grad(t, g))
    decreases |gs|
  {
    if gs == [] then t
    else SetGrad(ClearGrad(t, gs[..|gs| - 1]), gs[|gs| - 1], false)
  }

  /**
   * The policy applied by __load_model and load_pretrained_model: the
   * embedding table and the decoder blocks stop taking gradients,
   * decoder.linear takes them, and the classifier head keeps its setting.
   */
  function ApplyFreeze(t: Trainable): (r: Trainable)
    ensures !Grad(r, Embedding) && !Grad(r, DecoderLayers) && Grad(r, DecoderLinear)
    ensures Grad(r, Classifier) == Grad(t, Classifier)
  {
    t.(embedding := false, decoderLayers := false, decoderLinear := true)
  }

  /**
   * The closed form is what the source's loop computes: clear the flag of
   * every backbone parameter in turn, then set decoder.linear's again.
   */
  lemma FreezeIsLoop(t: Trainable)
    ensures SetGrad(ClearGrad(t, BackboneOrder), DecoderLinear, true) == ApplyFreeze(t)
  {
  }

  /** The groups an optimizer step leaves alone. */
  function FrozenSet(t: Trainable): (r: set<Group>)
    ensures forall g :: g in r <==> !Grad(t, g)
  {
    set g | g in AllGroups && !Grad(t, g)
  }

  /** Applying the policy a second time changes nothing. */
  lemma FreezeIdempotent(t: Trainable)
    ensures ApplyFreeze(ApplyFreeze(t)) == ApplyFreeze(t)
  {
  }

  /**
   * On a trainable classifier the policy freezes exactly the embedding and
   * the decoder blocks; a fresh model has nothing frozen.
   */
  lemma FrozenAfterPolicy(t: Trainable)
    requires Grad(t, Classifier)
    ensures FrozenSet(ApplyFreeze(t)) == {Embedding, DecoderLayers}
    ensures FrozenSet(AllTrainable) == {}
  {
  }

  // ---------------------------------------------------------------------
  // Steps and states

  /** One element of the data loader: token sequences and their class labels. */
  datatype FineTuneBatch = FineTuneBatch(inputs: seq<seq<int>>, labels: seq<int>)

  /** The outcome of the forward pass, loss, backward pass and Adam step of train_step. */
  datatype StepOut = StepOut(params: Params, optimizer: OptState, loss: Loss)

  type Oracle = (Params, OptState, FineTuneBatch) -> StepOut

  /** train_step as a step of the training loop: frozen groups keep their tensors. */
  function StepOf(oracle: Oracle, frozen: set<Group>): (ModelState, FineTuneBatch) -> (ModelState, Loss)
  {
    (s: ModelState, b: FineTuneBatch) =>
      var out := oracle(s.params, s.optimizer, b);
      (ModelState(Update(s.params, out.params, frozen), out.optimizer), out.loss)
  }

  /**
   * One train step: the layout is kept, a frozen group keeps its tensor,
   * every other group takes the proposed one, and the step's loss is the
   * oracle's.
   */
  lemma StepOfMasks(oracle: Oracle, frozen: set<Group>, s: ModelState, b: FineTuneBatch)
    ensures var out := oracle(s.params, s.optimizer, b);
      var (next, loss) := StepOf(oracle, frozen)(s, b);
      && next.params.Keys == s.params.Keys
      && (forall g :: g in s.params && g in frozen ==> next.params[g] == s.params[g])
      && (forall g :: g in s.params && g !in frozen && g in out.params ==> next.params[g] == out.params[g])
      && next.optimizer == out.optimizer
      && loss == out.loss
  {
  }

  datatype TrainerState = TrainerState(checkpoint: Option<Path>, run: Run<Loss>,
                                       trainable: Trainable, training: bool)

  datatype Effect = Effect(state: TrainerState, files: map<Path, Record>, outcome: Outcome<Error>)

  /**
   * GPTFineTune's layout, a classifier head that takes gradients (nothing
   * ever freezes it), and: once `training` is set, the freeze policy has
   * been applied.
   */
  predicate Wellformed(st: TrainerState)
  {
    && st.run.model.params.Keys == AllGroups
    && Grad(st.trainable, Classifier)
    && (st.training ==> st.trainable == ApplyFreeze(st.trainable))
  }

  /**
   * What __save_model writes: the model's and the optimizer's state and the
   * epoch. A well-formed trainer writes GPTFineTune's layout, which
   * load_pretrained_model rejects.
   */
  function Snapshot(st: TrainerState): (r: Record)
    ensures r.model == st.run.model.params && r.optimizer == st.run.model.optimizer && r.epoch == st.run.epoch
    ensures Wellformed(st) ==> r.model.Keys == AllGroups && r.model.Keys != Backbone
  {
    Record(st.run.model.params, st.run.model.optimizer, st.run.epoch)
  }

  /** The fields set by __init__ before it loads anything (lines 220-240). */
  function Initial(init: Params, opt: OptState, checkpoint: Option<Path>): (r: TrainerState)
    ensures r.checkpoint == checkpoint && r.run.model == ModelState(init, opt)
    ensures r.run.epoch == 0 && r.run.window == [] && r.run.log == []
    ensures FrozenSet(r.trainable) == {} && !r.training
    ensures init.Keys == AllGroups ==> Wellformed(r)
  {
    TrainerState(checkpoint, Run(ModelState(init, opt), [], 0, []), AllTrainable, false)
  }

  /** __save_model(path) */
  function AfterSaveCheckpoint(st: TrainerState, files: map<Path, Record>, p: Path): Effect
  {
    Effect(st.(run := st.run.(log := st.run.log + [Saved(p)])), files[p := Snapshot(st)], Pass)
  }

  /**
   * __load_model(path): nothing when no file is at the path; a record of
   * another layout raises before anything changes; otherwise model,
   * optimizer and epoch come from the record, the freeze policy is
   * applied and `training` is set.
   */
  function AfterLoadCheckpoint(st: TrainerState, files: map<Path, Record>, p: Path): Effect
  {
    if p !in files then Effect(st, files, Pass)
    else
      var rec := files[p];
      if rec.model.Keys != AllGroups then Effect(st, files, Fail(KeyMismatch))
      else
        var run := st.run.(model := ModelState(rec.model, rec.optimizer), epoch := rec.epoch);
        Effect(TrainerState(st.checkpoint, run, ApplyFreeze(st.trainable), true), files, Pass)
  }

  /** load_model(path): as GPTPretrain's, but silent when there is neither a path nor a checkpoint. */
  function AfterLoadModel(st: TrainerState, files: map<Path, Record>, path: Option<Path>): Effect
  {
    if path.None? && st.checkpoint.Some? then AfterLoadCheckpoint(st, files, st.checkpoint.value)
    else if path.Some? then
      var e := AfterLoadCheckpoint(st, files, path.value);
      if e.outcome.Fail? then e else e.(state := e.state.(checkpoint := path))
    else Effect(st, files, Pass)
  }

  /** save_model(path): as GPTPretrain's, but silent when there is neither a path nor a checkpoint. */
  function AfterSaveModel(st: TrainerState, files: map<Path, Record>, path: Option<Path>): Effect
  {
    if path.None? && st.checkpoint.Some? then AfterSaveCheckpoint(st, files, st.checkpoint.value)
    else if path.Some? then
      var e := AfterSaveCheckpoint(st, files, path.value);
      e.(state := e.state.(checkpoint := path))
    else Effect(st, files, Pass)
  }

  /**
   * load_pretrained_model(path): torch.load raises on None and on a
   * missing file; the record must have GPTModel's layout; its weights
   * replace the backbone (the classifier keeps its own), the freeze policy
   * is applied and a line is printed. Optimizer, epoch and `training` are
   * left as they were.
   */
  function AfterLoadPretrained(st: TrainerState, files: map<Path, Record>, path: Option<Path>): Effect
  {
    if path.None? then Effect(st, files, Fail(NoPath))
    else if path.value !in files then Effect(st, files, Fail(FileNotFound))
    else
      var rec := files[path.value];
      if rec.model.Keys != Backbone then Effect(st, files, Fail(KeyMismatch))
      else
        var run := st.run.(model := st.run.model.(params := st.run.model.params + rec.model),
                           log := st.run.log + [PretrainedLoaded]);
        Effect(st.(run := run, trainable := ApplyFreeze(st.trainable)), files, Pass)
  }

  /** __init__: the fields, then load_model(checkpoint) when a checkpoint is given. */
  function AfterInit(init: Params, opt: OptState, checkpoint: Option<Path>, files: map<Path, Record>): Effect
  {
    var st := Initial(init, opt, checkpoint);
    if checkpoint.Some? then AfterLoadModel(st, files, checkpoint) else Effect(st, files, Pass)
  }

  /** `if self.checkpoint is not None: self.load_model(self.checkpoint)`, at the start of fit and in sumary. */
  function Resume(st: TrainerState, files: map<Path, Record>): Effect
  {
    if st.checkpoint.Some? then AfterLoadModel(st, files, st.checkpoint) else Effect(st, files, Pass)
  }

  /** The pretrained backbone is loaded exactly when `training` is still unset. */
  function Prepare(st: TrainerState, files: map<Path, Record>, pretrained: Option<Path>): Effect
  {
    if st.training then Effect(st, files, Pass) else AfterLoadPretrained(st, files, pretrained)
  }

  /**
   * The epoch loop of fit. Zero batches are harmless here (nothing reads
   * `index` after the loop); mini_batch 0 raises after the first step.
   */
  function EpochLoop(st: TrainerState, batches: seq<FineTuneBatch>, epochs: int, m: int, oracle: Oracle)
    : (TrainerState, Outcome<Error>)
  {
    var n := if epochs < 0 then 0 else epochs;
    var step := StepOf(oracle, FrozenSet(st.trainable));
    if n > 0 && m == 0 && batches != [] then (st.(run := Train(st.run, batches[0], step)), Fail(ZeroDivision))
    else (st.(run := Epochs(st.run, batches, n, m, step)), Pass)
  }

  /**
   * The start of fit, before the data loader is built: resume, load the
   * pretrained backbone if needed, and sumary's second checkpoint load.
   */
  function Ready(st: TrainerState, files: map<Path, Record>, pretrained: Option<Path>): Effect
  {
    var resumed := Resume(st, files);
    if resumed.outcome.Fail? then resumed
    else
      var prepared := Prepare(resumed.state, files, pretrained);
      if prepared.outcome.Fail? then prepared
      else Resume(prepared.state, files)
  }

  /** fit: the start, the epochs, the final save. */
  function AfterFit(st: TrainerState, files: map<Path, Record>, batches: seq<FineTuneBatch>,
                    pretrained: Option<Path>, epochs: int, m: int, oracle: Oracle): Effect
  {
    var ready := Ready(st, files, pretrained);
    if ready.outcome.Fail? then ready
    else Finish(ready.state, files, batches, epochs, m, oracle)
  }

  /** The rest of fit once the weights are in place: the epochs, then the save. */
  function Finish(st: TrainerState, files: map<Path, Record>, batches: seq<FineTuneBatch>,
                  epochs: int, m: int, oracle: Oracle): Effect
  {
    var (s, outcome) := EpochLoop(st, batches, epochs, m, oracle);
    if outcome.Fail? then Effect(s, files, outcome)
    else if s.checkpoint.Some? then AfterSaveCheckpoint(s, files, s.checkpoint.value)
    else Effect(s, files, Pass)
  }

  class FineTuner {
    var checkpoint: Option<Path>
    var epoch: int
    var params: Params
    var optimizer: OptState
    /** entropy_loss: the step losses added since the last reset. */
    var window: seq<Loss>
    var log: seq<Message<Loss>>
    var trainable: Trainable
    var training: bool

    function State(): TrainerState
      reads this
    {
      TrainerState(checkpoint, Run(ModelState(params, optimizer), window, epoch, log), trainable, training)
    }

    ghost predicate Valid()
      reads this
    {
      Wellformed(State())
    }

    /** The field initialisation of __init__. */
    constructor (init: Params, opt: OptState, checkpoint: Option<Path>)
      requires init.Keys == AllGroups
      ensures Valid() && State() == Initial(init, opt, checkpoint)
    {
      this.checkpoint := checkpoint;
      params, optimizer := init, opt;
      window, log := [], [];
      epoch := 0;
      trainable := AllTrainable;
      training := false;
    }

    /** The whole of __init__; on Fail the Python constructor raised. */
    static method Create(disk: Disk, init: Params, opt: OptState, checkpoint: Option<Path>)
      returns (t: FineTuner, outcome: Outcome<Error>)
      requires init.Keys == AllGroups
      ensures fresh(t) && t.Valid()
      ensures var e := AfterInit(init, opt, checkpoint, disk.files);
        t.State() == e.state && outcome == e.outcome
    {
      t := new FineTuner(init, opt, checkpoint);
      outcome := Pass;
      if checkpoint.Some? {
        outcome := t.LoadModel(disk, checkpoint);
      }
    }

    /**
     * The freeze loop over pretrained_model.parameters(), then
     * decoder.linear back on, computed on the requires_grad flags `t`.
     */
    static method Freeze(t: Trainable) returns (r: Trainable)
      ensures r == ApplyFreeze(t)
    {
      r := t;
      for i := 0 to |BackboneOrder|
        invariant r == ClearGrad(t, BackboneOrder[..i])
      {
        assert BackboneOrder[..i + 1][..i] == BackboneOrder[..i];
        r := SetGrad(r, BackboneOrder[i], false);
      }
      assert BackboneOrder[..|BackboneOrder|] == BackboneOrder;
      r := SetGrad(r, DecoderLinear, true);
      FreezeIsLoop(t);
    }

    /** __save_model */
    method SaveCheckpoint(disk: Disk, p: Path)
      requires Valid()
      modifies this, disk
      ensures Valid()
      ensures var e := AfterSaveCheckpoint(old(State()), old(disk.files), p);
        State() == e.state && disk.files == e.files
    {
      disk.files := disk.files[p := Record(params, optimizer, epoch)];
      log := log + [Saved(p)];
    }

    /** __load_model */
    method LoadCheckpoint(disk: Disk, p: Path) returns (outcome: Outcome<Error>)
      requires Valid()
      modifies this
      ensures Valid()
      ensures var e := AfterLoadCheckpoint(old(State()), disk.files, p);
        State() == e.state && outcome == e.outcome
    {
      outcome := Pass;
      if p in disk.files {
        var rec := disk.files[p];
        if rec.model.Keys != AllGroups {
          return Fail(KeyMismatch);
        }
        params := rec.model;
        optimizer := rec.optimizer;
        epoch := rec.epoch;
        trainable := Freeze(trainable);
        training := true;
      }
    }

    /** load_model */
    method LoadModel(disk: Disk, path: Option<Path>) returns (outcome: Outcome<Error>)
      requires Valid()
      modifies this
      ensures Valid()
      ensures var e := AfterLoadModel(old(State()), disk.files, path);
        State() == e.state && outcome == e.outcome
    {
      outcome := Pass;
      if path.None? && checkpoint.Some? {
        outcome := LoadCheckpoint(disk, checkpoint.value);
      } else if path.Some? {
        outcome := LoadCheckpoint(disk, path.value);
        if outcome.Fail? {
          return;
        }
        checkpoint := path;
      }
    }

    /** save_model */
    method SaveModel(disk: Disk, path: Option<Path>)
      requires Valid()
      modifies this, disk
      ensures Valid()
      ensures var e := AfterSaveModel(old(State()), old(disk.files), path);
        State() == e.state && disk.files == e.files
    {
      if path.None? && checkpoint.Some? {
        SaveCheckpoint(disk, checkpoint.value);
      } else if path.Some? {
        SaveCheckpoint(disk, path.value);
        checkpoint := path;
      }
    }

    /** load_pretrained_model */
    method LoadPretrained(disk: Disk, path: Option<Path>) returns (outcome: Outcome<Error>)
      requires Valid()
      modifies this
      ensures Valid()
      ensures var e := AfterLoadPretrained(old(State()), disk.files, path);
        State() == e.state && outcome == e.outcome
    {
      if path.None? {
        return Fail(NoPath);
      }
      if path.value !in disk.files {
        return Fail(FileNotFound);
      }
      var rec := disk.files[path.value];
      if rec.model.Keys != Backbone {
        return Fail(KeyMismatch);
      }
      params := params + rec.model;
      trainable := Freeze(trainable);
      log := log + [PretrainedLoaded];
      outcome := Pass;
    }

    /** sumary: reload the checkpoint, if any (the printed summary is left out). */
    method Sumary(disk: Disk) returns (outcome: Outcome<Error>)
      requires Valid()
      modifies this
      ensures Valid()
      ensures var e := Resume(old(State()), disk.files);
        State() == e.state && outcome == e.outcome
    {
      outcome := Pass;
      if checkpoint.Some? {
        outcome := LoadModel(disk, checkpoint);
      }
    }

    /** train_step: one oracle step; frozen groups keep their tensors; the loss joins the counter. */
    method TrainStep(batch: FineTuneBatch, oracle: Oracle)
      requires Valid()
      modifies this
      ensures Valid()
      ensures State() == old(State()).(run := Train(old(State()).run, batch, StepOf(oracle, FrozenSet(trainable))))
    {
      var frozen := FrozenSet(trainable);
      var out := oracle(params, optimizer, batch);
      params := Update(params, out.params, frozen);
      optimizer := out.optimizer;
      window := window + [out.loss];
    }

    /** The body of fit's inner loop for batch `index` of `total`: a step, then a report when due. */
    method Batch(b: FineTuneBatch, index: int, total: int, miniBatch: int, oracle: Oracle)
      returns (outcome: Outcome<Error>)
      requires Valid()
      modifies this
      ensures Valid() && State() == old(State()).(run := State().run)
      ensures miniBatch == 0 ==>
        outcome == Fail(ZeroDivision) && State().run == Train(old(State()).run, b, StepOf(oracle, FrozenSet(trainable)))
      ensures miniBatch != 0 ==>
        outcome == Pass && State().run == After(old(State()).run, b, index, total, miniBatch, StepOf(oracle, FrozenSet(trainable)))
    {
      TrainStep(b, oracle);
      if miniBatch == 0 {
        return Fail(ZeroDivision);
      }
      if ReportAt(index, total, miniBatch) {
        log := log + [Progress(epoch + 1, index + 1, window)];
        window := [];
      }
      outcome := Pass;
    }

    /** One pass of fit's inner loop over the T batches. */
    method RunEpoch(batches: seq<FineTuneBatch>, miniBatch: int, oracle: Oracle)
      returns (outcome: Outcome<Error>)
      requires Valid()
      modifies this
      ensures Valid() && checkpoint == old(checkpoint) && trainable == old(trainable) && training == old(training)
      ensures miniBatch != 0 ==>
        outcome == Pass
        && State().run == Steps(old(State()).run, batches, |batches|, miniBatch, StepOf(oracle, FrozenSet(trainable)))
      ensures miniBatch == 0 && batches != [] ==>
        outcome == Fail(ZeroDivision)
        && State().run == Train(old(State()).run, batches[0], StepOf(oracle, FrozenSet(trainable)))
      ensures miniBatch == 0 && batches == [] ==> outcome == Pass && State() == old(State())
    {
      ghost var step := StepOf(oracle, FrozenSet(trainable));
      var total := |batches|;
      var index := 0;
      while index < total
        invariant 0 <= index <= total
        invariant Valid() && checkpoint == old(checkpoint) && trainable == old(trainable) && training == old(training)
        invariant miniBatch == 0 ==> index == 0 && State() == old(State())
        invariant miniBatch != 0 ==> State().run == Steps(old(State()).run, batches[..index], total, miniBatch, step)
      {
        outcome := Batch(batches[index], index, total, miniBatch, oracle);
        if outcome.Fail? {
          return;
        }
        assert batches[..index + 1][..index] == batches[..index];
        index := index + 1;
      }
      assert batches[..total] == batches;
      outcome := Pass;
    }

    /** The epoch loop of fit. */
    method Loop(batches: seq<FineTuneBatch>, epochs: int, miniBatch: int, oracle: Oracle)
      returns (outcome: Outcome<Error>)
      requires Valid()
      modifies this
      ensures Valid()
      ensures (State(), outcome) == EpochLoop(old(State()), batches, epochs, miniBatch, oracle)
    {
      ghost var step := StepOf(oracle, FrozenSet(trainable));
      var e := 0;
      while e < epochs
        invariant 0 <= e && (e <= epochs || e == 0)
        invariant Valid() && checkpoint == old(checkpoint)
        invariant trainable == old(trainable) && training == old(training)
        invariant e > 0 && batches != [] ==> miniBatch != 0
        invariant State().run == Epochs(old(State()).run, batches, e, miniBatch, step)
      {
        outcome := RunEpoch(batches, miniBatch, oracle);
        if outcome.Fail? {
          return;
        }
        epoch := epoch + 1;
        e := e + 1;
      }
      outcome := Pass;
    }

    /** The start of fit: resume, the pretrained backbone when `training` is unset, sumary. */
    method Begin(disk: Disk, pretrained: Option<Path>) returns (outcome: Outcome<Error>)
      requires Valid()
      modifies this
      ensures Valid()
      ensures var e := Ready(old(State()), disk.files, pretrained);
        State() == e.state && outcome == e.outcome
    {
      ghost var resumed := Resume(State(), disk.files);
      outcome := Pass;
      if checkpoint.Some? {
        outcome := LoadModel(disk, checkpoint);
      }
      assert State() == resumed.state && outcome == resumed.outcome;
      if outcome.Fail? {
        return;
      }
      if !training {
        outcome := LoadPretrained(disk, pretrained);
        if outcome.Fail? {
          return;
        }
      }
      outcome := Sumary(disk);
    }

    /** fit(inputs, labels, pretrained_path, batch_size, epochs, mini_batch, shuffle_data), given its T batches. */
    method Fit(disk: Disk, batches: seq<FineTuneBatch>, pretrained: Option<Path>,
               epochs: int, miniBatch: int, oracle: Oracle)
      returns (outcome: Outcome<Error>)
      requires Valid()
      modifies this, disk
      ensures Valid()
      ensures var e := AfterFit(old(State()), old(disk.files), batches, pretrained, epochs, miniBatch, oracle);
        State() == e.state && disk.files == e.files && outcome == e.outcome
    {
      outcome := Begin(disk, pretrained);
      if outcome.Fail? {
        return;
      }
      ghost var looped := EpochLoop(State(), batches, epochs, miniBatch, oracle);
      ghost var finished := Finish(State(), disk.files, batches, epochs, miniBatch, oracle);
      outcome := Loop(batches, epochs, miniBatch, oracle);
      assert State() == looped.0 && outcome == looped.1;
      if outcome.Fail? {
        assert finished == Effect(State(), disk.files, outcome);
        return;
      }
      if checkpoint.Some? {
        SaveCheckpoint(disk, checkpoint.value);
      }
      assert State() == finished.state && disk.files == finished.files && outcome == finished.outcome;
    }

    /**
     * predict(data, limit_tokens, end_token) for one prompt: at most
     * limit_tokens greedy steps, stopping before an end_token. The network
     * is `forward`.
     */
    method Predict(data: seq<int>, limitTokens: int, endToken: int, forward: (Params, seq<int>) -> seq<int>)
      returns (r: Result<seq<int>, Error>)
      ensures r == Greedy(forward, params, data, if limitTokens < 0 then 0 else limitTokens, endToken)
    {
      var n := if limitTokens < 0 then 0 else limitTokens;
      var out := data;
      var i := 0;
      while i < n
        invariant 0 <= i <= n
        invariant Greedy(forward, params, out, n - i, endToken) == Greedy(forward, params, data, n, endToken)
      {
        if out == [] {
          return Failure(EmptySequence);
        }
        var logits := forward(params, out);
        if logits == [] {
          return Failure(EmptyLogits);
        }
        var token := Argmax(logits);
        if token == endToken {
          break;
        }
        out := out + [token];
        i := i + 1;
      }
      r := Success(out);
    }
  }

  // ---------------------------------------------------------------------
  // Checkpoints

  /**
   * load_model reads the explicit path when there is one, else the
   * configured checkpoint, and with neither does nothing at all. A load
   * of an existing file of the right layout takes over model, optimizer
   * and epoch, applies the freeze policy and sets `training`; a missing
   * file changes nothing (but an explicit path still becomes the
   * checkpoint); another layout raises and changes nothing.
   */
  lemma LoadModelPaths(st: TrainerState, files: map<Path, Record>, path: Option<Path>)
    ensures var e := AfterLoadModel(st, files, path);
      var used := if path.Some? then path else st.checkpoint;
      && e.files == files && e.state.run.log == st.run.log && e.state.run.window == st.run.window
      && (used.None? ==> e == Effect(st, files, Pass))
      && (used.Some? && used.value !in files ==> e == Effect(st.(checkpoint := used), files, Pass))
      && (used.Some? && used.value in files && files[used.value].model.Keys != AllGroups ==>
            e == Effect(st, files, Fail(KeyMismatch)))
      && (used.Some? && used.value in files && files[used.value].model.Keys == AllGroups ==>
            && e.outcome == Pass && e.state.checkpoint == used && e.state.training
            && e.state.run.model == ModelState(files[used.value].model, files[used.value].optimizer)
            && e.state.run.epoch == files[used.value].epoch
            && e.state.trainable == ApplyFreeze(st.trainable))
  {
  }

  /**
   * save_model writes to the explicit path when there is one (which then
   * becomes the checkpoint), else to the configured checkpoint, and with
   * neither does nothing at all.
   */
  lemma SaveModelPaths(st: TrainerState, files: map<Path, Record>, path: Option<Path>)
    ensures var e := AfterSaveModel(st, files, path);
      var used := if path.Some? then path else st.checkpoint;
      && e.outcome == Pass
      && (used.None? ==> e == Effect(st, files, Pass))
      && (used.Some? ==>
            && e.files == files[used.value := Snapshot(st)]
            && e.state == st.(checkpoint := used, run := st.run.(log := st.run.log + [Saved(used.value)])))
  {
  }

  /** A fine-tune checkpoint saved and loaded again gives back model, optimizer and epoch. */
  lemma CheckpointRoundTrip(st: TrainerState, files: map<Path, Record>, p: Path, other: TrainerState)
    requires Wellformed(st)
    ensures var saved := AfterSaveCheckpoint(st, files, p);
      var loaded := AfterLoadCheckpoint(other, saved.files, p);
      && loaded.outcome == Pass
      && loaded.state.run.model == st.run.model
      && loaded.state.run.epoch == st.run.epoch
      && loaded.state.training
      && loaded.state.trainable == ApplyFreeze(other.trainable)
  {
  }

  /**
   * What a successful load_pretrained_model does: the backbone groups hold
   * the file's tensors, the classifier keeps its own, the policy is
   * applied, and optimizer, epoch, counters, checkpoint and `training` are
   * untouched. None and a missing file raise, and so does another layout;
   * a raise leaves the trainer as it was.
   */
  lemma LoadPretrainedEffect(st: TrainerState, files: map<Path, Record>, path: Option<Path>)
    requires Wellformed(st)
    ensures var e := AfterLoadPretrained(st, files, path);
      && e.files == files
      && (path.None? ==> e.outcome == Fail(NoPath) && e.state == st)
      && (path.Some? && path.value !in files ==> e.outcome == Fail(FileNotFound) && e.state == st)
      && (e.outcome.Pass? <==> path.Some? && path.value in files && files[path.value].model.Keys == Backbone)
      && (e.outcome == Fail(KeyMismatch) ==> e.state == st)
      && (e.outcome.Pass? ==>
            && Wellformed(e.state)
            && (forall g :: g in Backbone ==> e.state.run.model.params[g] == files[path.value].model[g])
            && e.state.run.model.params[Classifier] == st.run.model.params[Classifier]
            && e.state.trainable == ApplyFreeze(st.trainable)
            && e.state.run.model.optimizer == st.run.model.optimizer
            && e.state.run.epoch == st.run.epoch
            && e.state.training == st.training
            && e.state.checkpoint == st.checkpoint
            && e.state.run.window == st.run.window
            && e.state.run.log == st.run.log + [PretrainedLoaded])
  {
  }

  /**
   * A GPTPretrain checkpoint feeds load_pretrained_model: the backbone
   * becomes the pretrained weights. Handed to load_model instead, its
   * layout is rejected.
   */
  lemma PretrainCheckpointLoads(pre: Pretraining.TrainerState, st: TrainerState,
                                files: map<Path, Record>, p: Path)
    requires Pretraining.Wellformed(pre) && Wellformed(st)
    ensures var saved := Pretraining.AfterSaveCheckpoint(pre, files, p).files;
      && AfterLoadPretrained(st, saved, Some(p)).outcome == Pass
      && AfterLoadPretrained(st, saved, Some(p)).state.run.model.params
           == st.run.model.params + pre.run.model.params
      && AfterLoadModel(st, saved, Some(p)) == Effect(st, saved, Fail(KeyMismatch))
  {
  }

  // ---------------------------------------------------------------------
  // fit

  /**
   * The second checkpoint load of fit, inside sumary, changes nothing:
   * the first one either found no file (and the files have not changed)
   * or loaded the same record, and the freeze policy is idempotent.
   */
  lemma {:induction false} SumaryReloadIsNoop(st: TrainerState, files: map<Path, Record>, pretrained: Option<Path>)
    requires Wellformed(st)
    requires Resume(st, files).outcome == Pass
    requires Prepare(Resume(st, files).state, files, pretrained).outcome == Pass
    ensures var prepared := Prepare(Resume(st, files).state, files, pretrained).state;
      Resume(prepared, files) == Effect(prepared, files, Pass)
  {
    var resumed := Resume(st, files);
    var prepared := Prepare(resumed.state, files, pretrained).state;
    if st.checkpoint.Some? {
      var p := st.checkpoint.value;
      assert resumed.state.checkpoint == Some(p);
      if p in files {
        assert resumed.state.training;
        assert prepared == resumed.state;
        FreezeIdempotent(st.trainable);
        var again := AfterLoadCheckpoint(prepared, files, p);
        assert again.state.trainable == prepared.trainable;
        assert again.state == prepared;
      } else {
        assert prepared.checkpoint == Some(p);
      }
    }
  }

  /**
   * fit loads the pretrained backbone exactly when `training` is unset
   * after its first checkpoint load, which happens exactly when no
   * fine-tune checkpoint file was found; it then needs an existing path.
   */
  lemma FitLoadsPretrained(st: TrainerState, files: map<Path, Record>, pretrained: Option<Path>)
    requires Wellformed(st) && Resume(st, files).outcome == Pass
    ensures var resumed := Resume(st, files).state;
      && (resumed.training <==> st.training || (st.checkpoint.Some? && st.checkpoint.value in files))
      && (resumed.training ==> Prepare(resumed, files, pretrained) == Effect(resumed, files, Pass))
      && (!resumed.training ==> Prepare(resumed, files, pretrained) == AfterLoadPretrained(resumed, files, pretrained))
      && (!resumed.training && pretrained.None? ==> Prepare(resumed, files, pretrained).outcome == Fail(NoPath))
  {
  }

  /**
   * load_pretrained_model leaves `training` unset, so a GPT without a
   * checkpoint reloads the pretrained backbone, decoder.linear included,
   * at the start of every fit.
   */
  lemma PretrainedLeavesTrainingUnset(st: TrainerState, files: map<Path, Record>, batches: seq<FineTuneBatch>,
                                      pretrained: Option<Path>, epochs: int, m: int, oracle: Oracle)
    requires Wellformed(st) && st.checkpoint.None? && !st.training
    ensures var e := AfterFit(st, files, batches, pretrained, epochs, m, oracle);
      e.outcome.Pass? ==> !e.state.training && e.files == files && e.state.checkpoint.None?
  {
  }

  /**
   * Through fit's epoch loop the groups frozen at its start keep their
   * tensors, the layout is kept, and trainable and `training` do not change.
   */
  lemma LoopKeepsFrozen(st: TrainerState, batches: seq<FineTuneBatch>, epochs: int, m: int, oracle: Oracle)
    requires Wellformed(st)
    ensures var (s, _) := EpochLoop(st, batches, epochs, m, oracle);
      && Wellformed(s)
      && s.trainable == st.trainable && s.training == st.training && s.checkpoint == st.checkpoint
      && forall g :: g in FrozenSet(st.trainable) ==> s.run.model.params[g] == st.run.model.params[g]
  {
    var frozen := FrozenSet(st.trainable);
    var base := st.run.model.params;
    var step := StepOf(oracle, frozen);
    var inv := (s: ModelState) =>
      s.params.Keys == AllGroups && forall g :: g in frozen ==> s.params[g] == base[g];
    forall s: ModelState, b: FineTuneBatch | inv(s)
      ensures inv(step(s, b).0)
    {
      var out := oracle(s.params, s.optimizer, b);
      assert step(s, b).0.params == Update(s.params, out.params, frozen);
    }
    var n := if epochs < 0 then 0 else epochs;
    if n > 0 && m == 0 && batches != [] {
      assert inv(step(st.run.model, batches[0]).0);
    } else {
      EpochsKeep(st.run, batches, n, m, step, inv);
    }
  }

  /**
   * A fit that returns normally starts its epoch loop from the state its
   * first load and the pretrained load reach (sumary's reload changes
   * nothing). Whichever of the two loads supplied the weights, the freeze
   * policy then holds: exactly the embedding and the decoder blocks are
   * frozen, so by FinishSummary they keep their tensors through training.
   */
  lemma FitSummary(st: TrainerState, files: map<Path, Record>, batches: seq<FineTuneBatch>,
                   pretrained: Option<Path>, epochs: int, m: int, oracle: Oracle)
    requires Wellformed(st)
    requires AfterFit(st, files, batches, pretrained, epochs, m, oracle).outcome == Pass
    ensures var ready := Prepare(Resume(st, files).state, files, pretrained).state;
      && Wellformed(ready)
      && ready.checkpoint == st.checkpoint
      && ready.trainable == ApplyFreeze(ready.trainable)
      && FrozenSet(ready.trainable) == {Embedding, DecoderLayers}
      && AfterFit(st, files, batches, pretrained, epochs, m, oracle) == Finish(ready, files, batches, epochs, m, oracle)
  {
    SumaryReloadIsNoop(st, files, pretrained);
    var resumed := Resume(st, files).state;
    var ready := Prepare(resumed, files, pretrained).state;
    if !resumed.training {
      FreezeIdempotent(resumed.trainable);
    }
    FrozenAfterPolicy(ready.trainable);
  }

  /** What the epochs and the final save of a fit that returns normally leave behind. */
  lemma {:induction false} FinishSummary(ready: TrainerState, files: map<Path, Record>, batches: seq<FineTuneBatch>,
                                         epochs: int, m: int, oracle: Oracle)
    requires Wellformed(ready)
    requires Finish(ready, files, batches, epochs, m, oracle).outcome == Pass
    ensures var e := Finish(ready, files, batches, epochs, m, oracle);
      var n := if epochs < 0 then 0 else epochs;
      && Wellformed(e.state)
      && e.state.checkpoint == ready.checkpoint && e.state.trainable == ready.trainable
      && e.state.run.epoch == ready.run.epoch + n
      && (n > 0 && batches != [] ==> m != 0 && e.state.run.window == [])
      && (n > 0 && batches != [] && m > 0 ==>
            |e.state.run.log| == |ready.run.log| + n * ((|batches| + m - 1) / m)
                                 + (if ready.checkpoint.Some? then 1 else 0))
      && (n > 0 && batches != [] && m < 0 ==>
            |e.state.run.log| == |ready.run.log| + n + (if ready.checkpoint.Some? then 1 else 0))
      && (forall g :: g in FrozenSet(ready.trainable) ==> e.state.run.model.params[g] == ready.run.model.params[g])
      && (ready.checkpoint.None? ==> e.files == files)
      && (ready.checkpoint.Some? ==> e.files == files[ready.checkpoint.value := Snapshot(e.state)])
  {
    LoopKeepsFrozen(ready, batches, epochs, m, oracle);
    EpochLoopPasses(ready, batches, epochs, m, oracle);
    var n := if epochs < 0 then 0 else epochs;
    var step := StepOf(oracle, FrozenSet(ready.trainable));
    var s := EpochLoop(ready, batches, epochs, m, oracle).0;
    if n > 0 && batches != [] {
      EpochsSummary(ready.run, batches, n, m, step);
    } else {
      EpochsCounters(ready.run, batches, n, m, step);
    }
    assert Finish(ready, files, batches, epochs, m, oracle)
        == if s.checkpoint.Some? then AfterSaveCheckpoint(s, files, s.checkpoint.value) else Effect(s, files, Pass);
  }

  /**
   * The epoch loop returns normally exactly when there is no epoch to
   * run, no batch, or a non-zero mini_batch; it has then run whole epochs
   * with the groups frozen at its start.
   */
  lemma EpochLoopPasses(st: TrainerState, batches: seq<FineTuneBatch>, epochs: int, m: int, oracle: Oracle)
    ensures var n := if epochs < 0 then 0 else epochs;
      var (s, outcome) := EpochLoop(st, batches, epochs, m, oracle);
      && (outcome.Pass? <==> n == 0 || batches == [] || m != 0)
      && (outcome.Pass? ==> s == st.(run := Epochs(st.run, batches, n, m, StepOf(oracle, FrozenSet(st.trainable)))))
  {
  }
}
