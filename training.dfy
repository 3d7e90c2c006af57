/**
 * The training-loop skeleton shared by GPTPretrain.fit and GPT.fit: one
 * abstract train step per batch, a progress report every `mini_batch`
 * steps and on the last batch of the epoch (after which the running loss
 * counters are reset), and one increment of the epoch counter per epoch.
 */
module Training {
  import opened Store

  /** The trainable state a step changes: model parameters and optimizer moments. */
  datatype ModelState = ModelState(params: Params, optimizer: OptState)

  /** A line the trainers print. */
  datatype Message<L> =
    | Progress(epoch: int, batch: int, window: seq<L>)  // "Epoch: e Batch: b Loss: ..."
    | Saved(path: Path)                                 // "Model Saved at ..."
    | CheckpointNotFound                                // "Checkpoint not found"
    | PretrainedLoaded                                  // "Loaded Pretrained Model"

  /**
   * The fields a fit loop reads and writes. `window` holds the step losses
   * added to the running counters since they were last reset; the printed
   * means are sums over it divided by mini_batch (left out).
   */
  datatype Run<L> = Run(model: ModelState, window: seq<L>, epoch: int, log: seq<Message<L>>)

  /** Python's `a % m`: the remainder takes the sign of the divisor. */
  function PyMod(a: int, m: int): (r: int)
    requires m != 0
    ensures m > 0 ==> 0 <= r < m
    ensures m < 0 ==> m < r <= 0
    ensures m > 0 ==> r == a % m
  {
    var e := a % m;
    if m < 0 && e != 0 then e + m else e
  }

  /** Python's remainder differs from a by a multiple of the divisor. */
  lemma PyModCongruent(a: int, m: int)
    requires m != 0
    ensures exists q :: a == q * m + PyMod(a, m)
  {
    var e := a % m;
    if m < 0 && e != 0 {
      assert a == (a / m - 1) * m + (e + m);
    } else {
      assert a == (a / m) * m + e;
    }
  }

  /** The report condition `index % mini_batch == mini_batch - 1 or index == total - 1`. */
  predicate ReportAt(index: int, total: int, m: int)
    requires m != 0
  {
    PyMod(index, m) == m - 1 || index == total - 1
  }

  /** The batch indices below n at which a report is printed, in increasing order. */
  function ReportIndices(n: nat, total: int, m: int): (r: seq<nat>)
    requires m != 0 || n == 0
    ensures forall k :: 0 <= k < |r| ==> r[k] < n && ReportAt(r[k], total, m)
    ensures forall i :: 0 <= i < n && ReportAt(i, total, m) ==> i in r
    ensures forall k, k' :: 0 <= k < k' < |r| ==> r[k] < r[k']
  {
    if n == 0 then []
    else ReportIndices(n - 1, total, m) + (if ReportAt(n - 1, total, m) then [n - 1] else [])
  }

  /** One train step, without the report check: the step's loss joins the window. */
  function Train<B, L>(r: Run<L>, b: B, step: (ModelState, B) -> (ModelState, L)): (s: Run<L>)
    ensures s.epoch == r.epoch && s.log == r.log
    ensures |s.window| == |r.window| + 1
  {
    var (model, loss) := step(r.model, b);
    Run(model, r.window + [loss], r.epoch, r.log)
  }

  /**
   * The model is the step's, the values already in the window stay, and
   * the new one is the step's loss.
   */
  lemma TrainAppends<B, L>(r: Run<L>, b: B, step: (ModelState, B) -> (ModelState, L))
    ensures var s := Train(r, b, step);
      && s.model == step(r.model, b).0
      && s.window[..|r.window|] == r.window && s.window[|r.window|] == step(r.model, b).1
  {
  }

  /** Batch `index` of an epoch of `total` batches: train, then report and reset if due. */
  function After<B, L>(r: Run<L>, b: B, index: int, total: int, m: int,
                       step: (ModelState, B) -> (ModelState, L)): Run<L>
    requires m != 0
  {
    var t := Train(r, b, step);
    if ReportAt(index, total, m) then
      t.(window := [], log := t.log + [Progress(t.epoch + 1, index + 1, t.window)])
    else t
  }

  /** The first |bs| batches of an epoch of `total` batches. */
  function Steps<B, L>(r: Run<L>, bs: seq<B>, total: int, m: int,
                       step: (ModelState, B) -> (ModelState, L)): Run<L>
    requires m != 0 || bs == []
    decreases |bs|
  {
    if bs == [] then r
    else After(Steps(r, bs[..|bs| - 1], total, m, step), bs[|bs| - 1], |bs| - 1, total, m, step)
  }

  /** n whole epochs over the batches bs, each followed by `epoch += 1`. */
  function Epochs<B, L>(r: Run<L>, bs: seq<B>, n: nat, m: int,
                        step: (ModelState, B) -> (ModelState, L)): Run<L>
    requires n == 0 || m != 0 || bs == []
  {
    if n == 0 then r
    else
      var s := Steps(Epochs(r, bs, n - 1, m, step), bs, |bs|, m, step);
      s.(epoch := s.epoch + 1)
  }

  // ---------------------------------------------------------------------
  // Report cadence

  lemma DivUnique(n: int, m: int, q: int, rem: int)
    requires m > 0 && 0 <= rem < m && n == q * m + rem
    ensures n / m == q && n % m == rem
  {
    var q', rem' := n / m, n % m;
    assert n == q' * m + rem';
    if q' < q {
      assert (q - q') * m == rem' - rem;
      MulAtLeast(q - q', m);
    } else if q < q' {
      assert (q' - q) * m == rem - rem';
      MulAtLeast(q' - q, m);
    }
  }

  lemma MulAtLeast(a: int, m: int)
    requires a >= 1 && m > 0
    ensures a * m >= m
  {
    assert a * m == (a - 1) * m + m;
  }

  /** (n + 1) / m grows by one exactly when n is the last index of a block of m. */
  lemma DivStep(n: nat, m: int)
    requires m > 0
    ensures (n + 1) / m == n / m + (if n % m == m - 1 then 1 else 0)
  {
    var q, rem := n / m, n % m;
    assert n == q * m + rem;
    if rem == m - 1 {
      DivUnique(n + 1, m, q + 1, 0);
    } else {
      DivUnique(n + 1, m, q, rem + 1);
    }
  }

  /** Before the last batch, reports fall exactly on the aligned indices. */
  lemma {:induction false} AlignedReports(n: nat, total: int, m: int)
    requires m != 0 && n < total
    ensures m > 0 ==> |ReportIndices(n, total, m)| == n / m
    ensures m < 0 ==> ReportIndices(n, total, m) == []
  {
    if n > 0 {
      AlignedReports(n - 1, total, m);
      var prev := ReportIndices(n - 1, total, m);
      assert ReportAt(n - 1, total, m) <==> PyMod(n - 1, m) == m - 1;
      if m > 0 {
        DivStep(n - 1, m);
        if PyMod(n - 1, m) == m - 1 {
          assert ReportIndices(n, total, m) == prev + [n - 1];
        } else {
          assert ReportIndices(n, total, m) == prev;
        }
      } else {
        assert !ReportAt(n - 1, total, m);
        assert ReportIndices(n, total, m) == prev;
      }
    }
  }

  lemma CeilShift(total: int, m: int)
    requires total >= 1 && m > 0
    ensures (total - 1) / m + 1 == (total + m - 1) / m
  {
    var q, rem := (total - 1) / m, (total - 1) % m;
    assert total - 1 == q * m + rem;
    assert total + m - 1 == (q + 1) * m + rem;
    DivUnique(total + m - 1, m, q + 1, rem);
  }

  /**
   * With T >= 1 batches an epoch prints ceil(T / M) reports when M >= 1,
   * and exactly one (at the last batch) when M < 0, since Python's
   * remainder is then never M - 1. The last report is always at T - 1.
   */
  lemma ReportsPerEpoch(total: nat, m: int)
    requires total >= 1 && m != 0
    ensures m > 0 ==> |ReportIndices(total, total, m)| == (total + m - 1) / m
    ensures m < 0 ==> |ReportIndices(total, total, m)| == 1
    ensures ReportIndices(total, total, m)[|ReportIndices(total, total, m)| - 1] == total - 1
  {
    AlignedReports(total - 1, total, m);
    var prev := ReportIndices(total - 1, total, m);
    assert ReportAt(total - 1, total, m);
    assert ReportIndices(total, total, m) == prev + [total - 1];
    if m > 0 {
      CeilShift(total, m);
    }
  }

  // ---------------------------------------------------------------------
  // What one epoch prints and what the counters hold

  /** `lines` are Progress lines for epoch `epoch`, one per index of idx, in order. */
  ghost predicate ProgressLines<L>(lines: seq<Message<L>>, epoch: int, idx: seq<nat>)
  {
    && |lines| == |idx|
    && forall k :: 0 <= k < |idx| ==>
         lines[k].Progress? && lines[k].epoch == epoch && lines[k].batch == idx[k] + 1
  }

  /**
   * The lines an epoch prefix adds are exactly one Progress line per
   * reporting index, in order, carrying the 1-based epoch and batch number;
   * the lines printed before stay as they were.
   */
  lemma {:induction false} StepsReports<B, L>(r: Run<L>, bs: seq<B>, total: int, m: int,
                                              step: (ModelState, B) -> (ModelState, L))
    requires m != 0
    ensures var s := Steps(r, bs, total, m, step);
      && s.epoch == r.epoch
      && |r.log| <= |s.log|
      && s.log[..|r.log|] == r.log
      && ProgressLines(s.log[|r.log|..], r.epoch + 1, ReportIndices(|bs|, total, m))
    decreases |bs|
  {
    if bs != [] {
      var init := bs[..|bs| - 1];
      StepsReports(r, init, total, m, step);
      var p := Steps(r, init, total, m, step);
      var s := Steps(r, bs, total, m, step);
      var idx0 := ReportIndices(|init|, total, m);
      var t := Train(p, bs[|bs| - 1], step);
      if ReportAt(|bs| - 1, total, m) {
        var line := Progress(p.epoch + 1, |bs|, t.window);
        assert s.log == p.log + [line];
        assert s.log[|r.log|..] == p.log[|r.log|..] + [line];
        assert ReportIndices(|bs|, total, m) == idx0 + [|bs| - 1];
      } else {
        assert s.log == p.log;
        assert ReportIndices(|bs|, total, m) == idx0;
      }
    }
  }

  /**
   * Report k covers the steps since report k - 1; the first report of an
   * epoch also covers the `w0` values the counters held when it began.
   */
  ghost predicate WindowSizes<L>(lines: seq<Message<L>>, idx: seq<nat>, w0: nat)
  {
    && |lines| == |idx|
    && forall k :: 0 <= k < |idx| ==>
         lines[k].Progress?
         && |lines[k].window| == if k == 0 then w0 + idx[0] + 1 else idx[k] as int - idx[k - 1]
  }

  lemma WindowSizesSnoc<L>(lines: seq<Message<L>>, idx: seq<nat>, w0: nat, line: Message<L>, i: nat)
    requires WindowSizes(lines, idx, w0) && line.Progress?
    requires |line.window| == if idx == [] then w0 + i + 1 else i - idx[|idx| - 1]
    ensures WindowSizes(lines + [line], idx + [i], w0)
  {
    var ls, ix := lines + [line], idx + [i];
    forall k | 0 <= k < |ix|
      ensures ls[k].Progress? && |ls[k].window| == if k == 0 then w0 + ix[0] + 1 else ix[k] as int - ix[k - 1]
    {
      if k < |idx| {
        assert ls[k] == lines[k] && ix[k] == idx[k];
        if k > 0 {
          assert ix[k - 1] == idx[k - 1];
        }
      }
    }
  }

  /**
   * Each Progress line of an epoch prefix carries one value per step since
   * the previous report, so a short last window is printed over fewer than
   * mini_batch steps.
   */
  lemma {:induction false} StepsReportWindows<B, L>(r: Run<L>, bs: seq<B>, total: int, m: int,
                                                    step: (ModelState, B) -> (ModelState, L))
    requires m != 0
    ensures var s := Steps(r, bs, total, m, step);
      && |r.log| <= |s.log|
      && WindowSizes(s.log[|r.log|..], ReportIndices(|bs|, total, m), |r.window|)
    decreases |bs|
  {
    if bs != [] {
      var init := bs[..|bs| - 1];
      StepsReportWindows(r, init, total, m, step);
      var p := Steps(r, init, total, m, step);
      var s := Steps(r, bs, total, m, step);
      var idx0 := ReportIndices(|init|, total, m);
      StepsLast(r, bs, total, m, step);
      if ReportAt(|bs| - 1, total, m) {
        StepsWindow(r, init, total, m, step);
        assert ReportIndices(|bs|, total, m) == idx0 + [|bs| - 1];
        WindowsExtend(r, p, s, idx0, |bs|);
      } else {
        assert ReportIndices(|bs|, total, m) == idx0;
      }
    }
  }

  /** The inductive step of StepsReportWindows, on the runs before and after the last batch. */
  lemma WindowsExtend<L>(r: Run<L>, p: Run<L>, s: Run<L>, idx0: seq<nat>, n: nat)
    requires n >= 1
    requires |r.log| <= |p.log| && WindowSizes(p.log[|r.log|..], idx0, |r.window|)
    requires |s.log| == |p.log| + 1 && s.log == p.log + [s.log[|p.log|]]
    requires s.log[|p.log|].Progress? && |s.log[|p.log|].window| == |p.window| + 1
    requires |p.window| == if idx0 == [] then |r.window| + n - 1 else n - 2 - idx0[|idx0| - 1]
    ensures |r.log| <= |s.log| && WindowSizes(s.log[|r.log|..], idx0 + [n - 1], |r.window|)
  {
    var line := s.log[|p.log|];
    SliceSnoc(p.log, line, |r.log|);
    WindowSizesSnoc(p.log[|r.log|..], idx0, |r.window|, line, n - 1);
  }

  lemma SliceSnoc<T>(xs: seq<T>, x: T, a: nat)
    requires a <= |xs|
    ensures (xs + [x])[a..] == xs[a..] + [x]
  {
  }

  /**
   * The last batch of an epoch prefix either prints one line, one value
   * longer than the counters before it, and empties the counters, or
   * prints nothing and adds one value to them.
   */
  lemma StepsLast<B, L>(r: Run<L>, bs: seq<B>, total: int, m: int, step: (ModelState, B) -> (ModelState, L))
    requires m != 0 && bs != []
    ensures var p := Steps(r, bs[..|bs| - 1], total, m, step);
      var s := Steps(r, bs, total, m, step);
      && (ReportAt(|bs| - 1, total, m) ==>
            && |s.log| == |p.log| + 1 && s.log == p.log + [s.log[|p.log|]]
            && s.log[|p.log|].Progress? && |s.log[|p.log|].window| == |p.window| + 1
            && s.window == [])
      && (!ReportAt(|bs| - 1, total, m) ==> s.log == p.log && |s.window| == |p.window| + 1)
  {
  }

  /**
   * The running counters hold as many values as steps since the last
   * report: none right after a report, and, before the first one, the
   * steps of this epoch on top of what the counters held when it began.
   */
  lemma {:induction false} StepsWindow<B, L>(r: Run<L>, bs: seq<B>, total: int, m: int,
                                             step: (ModelState, B) -> (ModelState, L))
    requires m != 0
    ensures var s := Steps(r, bs, total, m, step); var idx := ReportIndices(|bs|, total, m);
      |s.window| == if idx == [] then |r.window| + |bs| else |bs| - 1 - idx[|idx| - 1]
    decreases |bs|
  {
    if bs != [] {
      var idx0 := ReportIndices(|bs| - 1, total, m);
      StepsWindow(r, bs[..|bs| - 1], total, m, step);
      StepsLast(r, bs, total, m, step);
      if ReportAt(|bs| - 1, total, m) {
        assert ReportIndices(|bs|, total, m) == idx0 + [|bs| - 1];
      } else {
        assert ReportIndices(|bs|, total, m) == idx0;
      }
    }
  }

  /** After a whole epoch of T >= 1 batches the counters are back to zero. */
  lemma EpochEndsReset<B, L>(r: Run<L>, bs: seq<B>, m: int, step: (ModelState, B) -> (ModelState, L))
    requires m != 0 && |bs| >= 1
    ensures Steps(r, bs, |bs|, m, step).window == []
  {
    StepsWindow(r, bs, |bs|, m, step);
    ReportsPerEpoch(|bs|, m);
  }

  /**
   * n epochs add exactly n to the epoch counter, leave the counters at zero
   * when at least one batch ran, and change nothing but the counter when
   * there are no batches.
   */
  lemma {:induction false} EpochsCounters<B, L>(r: Run<L>, bs: seq<B>, n: nat, m: int,
                                                step: (ModelState, B) -> (ModelState, L))
    requires n == 0 || m != 0 || bs == []
    ensures var e := Epochs(r, bs, n, m, step);
      && e.epoch == r.epoch + n
      && (n >= 1 && bs != [] ==> e.window == [])
      && (bs == [] ==> e == r.(epoch := r.epoch + n))
  {
    if n > 0 {
      EpochsCounters(r, bs, n - 1, m, step);
      var p := Epochs(r, bs, n - 1, m, step);
      if bs != [] {
        StepsReports(p, bs, |bs|, m, step);
        EpochEndsReset(p, bs, m, step);
      }
    }
  }

  /** n epochs print n times the per-epoch report count. */
  lemma {:induction false} EpochsLog<B, L>(r: Run<L>, bs: seq<B>, n: nat, m: int,
                                           step: (ModelState, B) -> (ModelState, L))
    requires m != 0 || bs == []
    ensures |Epochs(r, bs, n, m, step).log| == |r.log| + n * |ReportIndices(|bs|, |bs|, m)|
  {
    if n > 0 {
      EpochsLog(r, bs, n - 1, m, step);
      var p := Epochs(r, bs, n - 1, m, step);
      var s := Steps(p, bs, |bs|, m, step);
      var c := |ReportIndices(|bs|, |bs|, m)|;
      if bs != [] {
        StepsReports(p, bs, |bs|, m, step);
        assert |s.log| == |p.log| + c;
      } else {
        assert s == p;
      }
      assert Epochs(r, bs, n, m, step).log == s.log;
      MulSucc(n, c);
    }
  }

  /** What was printed before the epochs stays at the head of the log. */
  lemma {:induction false} EpochsLogPrefix<B, L>(r: Run<L>, bs: seq<B>, n: nat, m: int,
                                                 step: (ModelState, B) -> (ModelState, L))
    requires m != 0 || bs == []
    ensures |r.log| <= |Epochs(r, bs, n, m, step).log|
    ensures Epochs(r, bs, n, m, step).log[..|r.log|] == r.log
  {
    if n > 0 {
      EpochsLogPrefix(r, bs, n - 1, m, step);
      var p := Epochs(r, bs, n - 1, m, step);
      var s := Steps(p, bs, |bs|, m, step);
      if bs != [] {
        StepsReports(p, bs, |bs|, m, step);
      } else {
        assert s == p;
      }
      assert Epochs(r, bs, n, m, step).log == s.log;
      assert s.log[..|r.log|] == s.log[..|p.log|][..|r.log|];
    }
  }

  /**
   * n >= 1 epochs over T >= 1 batches add n to the epoch counter, leave
   * the running counters at zero, and print n * ceil(T / M) reports when
   * M > 0 and n when M < 0.
   */
  lemma EpochsSummary<B, L>(r: Run<L>, bs: seq<B>, n: nat, m: int,
                            step: (ModelState, B) -> (ModelState, L))
    requires n >= 1 && |bs| >= 1 && m != 0
    ensures var e := Epochs(r, bs, n, m, step);
      && e.epoch == r.epoch + n
      && e.window == []
      && (m > 0 ==> |e.log| == |r.log| + n * ((|bs| + m - 1) / m))
      && (m < 0 ==> |e.log| == |r.log| + n)
  {
    EpochsCounters(r, bs, n, m, step);
    EpochsLog(r, bs, n, m, step);
    ReportsPerEpoch(|bs|, m);
  }

  lemma MulSucc(n: int, c: int)
    ensures n * c == (n - 1) * c + c
  {
  }

  // ---------------------------------------------------------------------
  // Invariants of the step carry over to the whole loop

  lemma {:induction false} StepsKeep<B, L>(r: Run<L>, bs: seq<B>, total: int, m: int,
                                           step: (ModelState, B) -> (ModelState, L),
                                           inv: ModelState -> bool)
    requires m != 0 || bs == []
    requires inv(r.model)
    requires forall s, b :: inv(s) ==> inv(step(s, b).0)
    ensures inv(Steps(r, bs, total, m, step).model)
    decreases |bs|
  {
    if bs != [] {
      StepsKeep(r, bs[..|bs| - 1], total, m, step, inv);
    }
  }

  lemma {:induction false} EpochsKeep<B, L>(r: Run<L>, bs: seq<B>, n: nat, m: int,
                                            step: (ModelState, B) -> (ModelState, L),
                                            inv: ModelState -> bool)
    requires n == 0 || m != 0 || bs == []
    requires inv(r.model)
    requires forall s, b :: inv(s) ==> inv(step(s, b).0)
    ensures inv(Epochs(r, bs, n, m, step).model)
  {
    if n > 0 {
      EpochsKeep(r, bs, n - 1, m, step, inv);
      StepsKeep(Epochs(r, bs, n - 1, m, step), bs, |bs|, m, step, inv);
    }
  }
}
