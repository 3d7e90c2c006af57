/**
 * Vocabulary shared by both trainers: parameter groups, opaque tensors,
 * the errors the orchestration code can raise, and the checkpoint store
 * that stands in for torch.save / torch.load / os.path.exists.
 */
module Store {

  // The numeric values below play no part in the orchestration: each is
  // known only by an uninterpreted handle, and only equality matters.

  /** A parameter tensor. */
  datatype Tensor = Tensor(handle: nat)
  /** An optimizer state dictionary (Adam moments). */
  datatype OptState = OptState(handle: nat)
  /** The loss (or perplexity) value of one training step. */
  datatype Loss = Loss(handle: nat)

  type Path = string

  datatype Option<T> = None | Some(value: T)
  datatype Outcome<E> = Pass | Fail(error: E)
  datatype Result<T, E> = Success(value: T) | Failure(error: E)

  /** The exceptions the core raises (or lets through from the library). */
  datatype Error =
    | KeyMismatch    // load_state_dict: missing or unexpected keys
    | FileNotFound   // torch.load on a path with no file
    | NoPath         // torch.load(None)
    | ZeroDivision   // index % mini_batch with mini_batch == 0
    | UnboundIndex   // `index` read after a loop over zero batches
    | EmptySequence  // outputs[:, -1, :] on a zero-length sequence
    | EmptyLogits    // torch.max over zero classes

  /**
   * Parameter groups. The backbone (GPTModel) is the embedding table, the
   * decoder's blocks and the decoder's output projection `decoder.linear`;
   * the fine-tune model adds the classifier head.
   */
  datatype Group = Embedding | DecoderLayers | DecoderLinear | Classifier

  const Backbone: set<Group> := {Embedding, DecoderLayers, DecoderLinear}
  const AllGroups: set<Group> := Backbone + {Classifier}

  /** A state dictionary: one tensor per parameter group. */
  type Params = map<Group, Tensor>

  /** What __save_model writes: {model_state_dict, optimizer_state_dict, epoch}. */
  datatype Record = Record(model: Params, optimizer: OptState, epoch: int)

  /** The file system as far as checkpoints are concerned. */
  class Disk {
    var files: map<Path, Record>

    constructor (files: map<Path, Record>)
      ensures this.files == files
    {
      this.files := files;
    }
  }

  /**
   * The parameters after one optimizer step: a group that is frozen
   * (requires_grad False, so it gets no gradient and Adam skips it) keeps
   * its tensor; every other group takes the tensor the step proposes.
   */
  function Update(params: Params, proposed: Params, frozen: set<Group>): (r: Params)
    ensures r.Keys == params.Keys
    ensures forall g :: g in params && g in frozen ==> r[g] == params[g]
    ensures forall g :: g in params && g !in frozen && g in proposed ==> r[g] == proposed[g]
  {
    map g | g in params :: if g !in frozen && g in proposed then proposed[g] else params[g]
  }
}
