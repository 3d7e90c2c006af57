/**
 * The shifted-target construction of GPTPretrain.pretrain_step:
 * `inputs = data[:, :-1]` and `labels = data[:, 1:]`, row by row, with
 * Python's slicing (an empty row gives two empty rows).
 */
module Targets {

  /** `row[:-1]`: every token but the last. */
  function DropLast(row: seq<int>): (r: seq<int>)
    ensures |r| == if row == [] then 0 else |row| - 1
    ensures forall t :: 0 <= t < |r| ==> r[t] == row[t]
  {
    if row == [] then [] else row[..|row| - 1]
  }

  /** `row[1:]`: every token but the first. */
  function DropFirst(row: seq<int>): (r: seq<int>)
    ensures |r| == if row == [] then 0 else |row| - 1
    ensures forall t :: 0 <= t < |r| ==> r[t] == row[t + 1]
  {
    if row == [] then [] else row[1..]
  }

  /** The model inputs of a batch: each row without its last token. */
  function Inputs(batch: seq<seq<int>>): (r: seq<seq<int>>)
    ensures |r| == |batch|
    ensures forall i :: 0 <= i < |batch| ==> r[i] == DropLast(batch[i])
  {
    seq(|batch|, i requires 0 <= i < |batch| => DropLast(batch[i]))
  }

  /** The targets of a batch: each row without its first token. */
  function Labels(batch: seq<seq<int>>): (r: seq<seq<int>>)
    ensures |r| == |batch|
    ensures forall i :: 0 <= i < |batch| ==> r[i] == DropFirst(batch[i])
  {
    seq(|batch|, i requires 0 <= i < |batch| => DropFirst(batch[i]))
  }

  /**
   * Next-token targets: for a row of length L >= 1 the inputs and labels
   * both have length L - 1, input t is token t and label t is token t + 1,
   * so label t is the input the model sees one position later; and the
   * row is recovered from either by putting back the token that was dropped.
   */
  lemma ShiftedTargets(row: seq<int>)
    requires |row| >= 1
    ensures var inputs, labels := DropLast(row), DropFirst(row);
      && |inputs| == |labels| == |row| - 1
      && (forall t :: 0 <= t < |row| - 1 ==> inputs[t] == row[t] && labels[t] == row[t + 1])
      && (forall t :: 0 <= t < |row| - 2 ==> labels[t] == inputs[t + 1])
      && inputs + [row[|row| - 1]] == row
      && [row[0]] + labels == row
  {
  }

  /** A batch of B rows of length L >= 1 gives B input rows and B label rows of length L - 1. */
  lemma ShiftedBatch(batch: seq<seq<int>>, len: nat)
    requires len >= 1
    requires forall i :: 0 <= i < |batch| ==> |batch[i]| == len
    ensures |Inputs(batch)| == |Labels(batch)| == |batch|
    ensures forall i :: 0 <= i < |batch| ==>
      |Inputs(batch)[i]| == |Labels(batch)[i]| == len - 1
      && forall t :: 0 <= t < len - 1 ==>
           Inputs(batch)[i][t] == batch[i][t] && Labels(batch)[i][t] == batch[i][t + 1]
  {
  }
}
