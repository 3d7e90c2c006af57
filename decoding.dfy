/**
 * Greedy autoregressive decoding (GPT.predict and GPT.__predict_token).
 * The network is an oracle `forward(params, data)` giving the logits of
 * the last position of `data`; the next token is the index of the largest.
 */
module Decoding {
  import opened Store

  /**
   * `torch.max(predict, dim=-1)` index: the first position holding the
   * largest logit.
   */
  function Argmax(logits: seq<int>): (k: nat)
    requires |logits| > 0
    ensures k < |logits|
    ensures forall j :: 0 <= j < |logits| ==> logits[j] <= logits[k]
    ensures forall j :: 0 <= j < k ==> logits[j] < logits[k]
    decreases |logits|
  {
    if |logits| == 1 then 0
    else
      var k := Argmax(logits[..|logits| - 1]);
      if logits[|logits| - 1] > logits[k] then |logits| - 1 else k
  }

  /**
   * What `predict` returns after at most n more iterations from `data`:
   * stop when no iteration is left or the chosen token is `endToken` (not
   * appended); otherwise append it and go on. A zero-length sequence makes
   * `outputs[:, -1, :]` raise; an empty logit vector makes `torch.max` raise.
   */
  function Greedy(forward: (Params, seq<int>) -> seq<int>, params: Params,
                  data: seq<int>, n: nat, endToken: int): Result<seq<int>, Error>
    decreases n
  {
    if n == 0 then Success(data)
    else if data == [] then Failure(EmptySequence)
    else
      var logits := forward(params, data);
      if logits == [] then Failure(EmptyLogits)
      else
        var token := Argmax(logits);
        if token == endToken then Success(data)
        else Greedy(forward, params, data + [token], n - 1, endToken)
  }

  /**
   * A decode that returns `out` keeps the prompt as a prefix, adds at most
   * n tokens, never appends `endToken`, appends at each position t the
   * argmax of the logits for out[..t], and stops short of n tokens only
   * because the next token predicted for `out` is `endToken`.
   */
  lemma {:induction false} GreedyDecode(forward: (Params, seq<int>) -> seq<int>, params: Params,
                                        data: seq<int>, n: nat, endToken: int, out: seq<int>)
    requires Greedy(forward, params, data, n, endToken) == Success(out)
    ensures |data| <= |out| <= |data| + n
    ensures out[..|data|] == data
    ensures forall t :: |data| <= t < |out| ==>
      out[t] != endToken && forward(params, out[..t]) != []
      && out[t] == Argmax(forward(params, out[..t]))
    ensures |out| < |data| + n ==>
      out != [] && forward(params, out) != [] && Argmax(forward(params, out)) == endToken
    decreases n
  {
    if n > 0 && data != [] {
      var logits := forward(params, data);
      var token := Argmax(logits);
      if token != endToken {
        var next := data + [token];
        GreedyDecode(forward, params, next, n - 1, endToken, out);
        assert out[..|data|] == out[..|next|][..|data|];
        assert out[..|data|] == data && out[|data|] == token;
      }
    }
  }

  /**
   * A decode fails only by raising: on an empty prompt when at least one
   * iteration runs, or on an empty logit vector; when the oracle always
   * gives logits, a non-empty prompt always decodes.
   */
  lemma {:induction false} GreedyFailure(forward: (Params, seq<int>) -> seq<int>, params: Params,
                                         data: seq<int>, n: nat, endToken: int)
    ensures Greedy(forward, params, data, n, endToken) == Failure(EmptySequence)
            <==> data == [] && n > 0
    ensures Greedy(forward, params, data, n, endToken).Failure? ==>
      Greedy(forward, params, data, n, endToken).error in {EmptySequence, EmptyLogits}
    ensures data != [] && (forall s :: s != [] ==> forward(params, s) != []) ==>
      Greedy(forward, params, data, n, endToken).Success?
    decreases n
  {
    if n > 0 && data != [] {
      var logits := forward(params, data);
      if logits != [] {
        GreedyFailure(forward, params, data + [Argmax(logits)], n - 1, endToken);
      }
    }
  }
}
