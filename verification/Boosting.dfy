/** The boosting loops of tools/train_selector_model.py and the additive predictor they
    train.  Over reals. */
module Boosting {
  import opened Stumps

  const MODES: nat := 8

  function Leaf(s: Stump, e: Example): real {
    if GoesLeft(e, s.feature, s.threshold) then s.left else s.right
  }

  /** `predict`, for one mode: its bias plus the leaves of its trees. */
  function Predict(e: Example, mode: nat, bias: real, trees: seq<Stump>): real {
    if trees == [] then bias
    else
      var last := trees[|trees| - 1];
      Predict(e, mode, bias, trees[..|trees| - 1]) + if last.mode == mode then Leaf(last, e) else 0.0
  }

  function Residuals(es: seq<Example>, ps: seq<real>): (rs: seq<real>)
    requires |es| == |ps|
    ensures |rs| == |es|
  {
    seq(|es|, i requires 0 <= i < |es| => es[i].target - ps[i])
  }

  function Raised(es: seq<Example>, ps: seq<real>, s: Stump): (qs: seq<real>)
    requires |es| == |ps|
    ensures |qs| == |es|
  {
    seq(|es|, i requires 0 <= i < |es| => ps[i] + Leaf(s, es[i]))
  }

  /** Training error of the predictions. */
  function Sse(es: seq<Example>, ps: seq<real>): real
    requires |es| == |ps|
  {
    SumSquares(Residuals(es, ps))
  }

  // ---- One round ------------------------------------------------------------------------------------------

  /** After adding a stump the error is the stump's error on the old residuals. */
  lemma {:induction false} RaisedError(es: seq<Example>, rs: seq<real>, qs: seq<real>, s: Stump)
    requires |es| == |rs| == |qs|
    requires forall i :: 0 <= i < |es| ==> qs[i] == rs[i] - Leaf(s, es[i])
    ensures SumSquares(qs) == Error(es, rs, s.feature, s.threshold, s.left, s.right)
  {
    hide Sq;
    if es != [] {
      var n := |es| - 1;
      RaisedError(es[..n], rs[..n], qs[..n], s);
    }
  }

  function Damped(s: Stump, rate: real): Stump {
    s.(left := Scaled(s.left, rate), right := Scaled(s.right, rate))
  }

  lemma RoundIsError(es: seq<Example>, ps: seq<real>, s: Stump)
    requires |es| == |ps|
    ensures Sse(es, Raised(es, ps, s)) == Error(es, Residuals(es, ps), s.feature, s.threshold, s.left, s.right)
  {
    hide Error, SumSquares;
    RaisedError(es, Residuals(es, ps), Residuals(es, Raised(es, ps, s)), s);
  }

  /** A round takes the exact amount `rate * (2 - rate) * (nl * l^2 + nr * r^2)` off the
      error, with `l` and `r` the mean residuals of the two sides; nothing when no split
      separates the examples. */
  lemma RoundEffect(es: seq<Example>, ps: seq<real>, s: Stump, rate: real)
    requires |es| == |ps| && IsBest(es, Residuals(es, ps), s)
    ensures var rs := Residuals(es, ps);
            Sse(es, Raised(es, ps, Damped(s, rate)))
            == Sse(es, ps) - if IsCandidate(es, rs, s) then Gain(es, rs, s.feature, s.threshold, rate) else 0.0
  {
    hide Error, Gain, Scaled, ThresholdsFor, SplitError, Residuals, Raised, SumSquares;
    var rs := Residuals(es, ps);
    RoundIsError(es, ps, Damped(s, rate));
    if IsCandidate(es, rs, s) {
      RoundDrop(es, rs, s.feature, s.threshold, rate);
    } else {
      ScaledZero(rate);
      ZeroLeaves(es, rs, s.feature, s.threshold);
    }
  }

  lemma ScaledZero(rate: real)
    ensures Scaled(0.0, rate) == 0.0
  {
  }

  lemma {:induction false} ZeroLeaves(es: seq<Example>, rs: seq<real>, f: nat, t: real)
    requires |es| == |rs|
    ensures Error(es, rs, f, t, 0.0, 0.0) == SumSquares(rs)
  {
    hide Sq, GoesLeft;
    if es != [] {
      var n := |es| - 1;
      ZeroLeaves(es[..n], rs[..n], f, t);
    }
  }

  /** No round increases the error, for any learning rate from 0 to 2. */
  lemma RoundNeverHurts(es: seq<Example>, ps: seq<real>, s: Stump, rate: real)
    requires |es| == |ps| && IsBest(es, Residuals(es, ps), s) && 0.0 <= rate <= 2.0
    ensures Sse(es, Raised(es, ps, Damped(s, rate))) <= Sse(es, ps)
  {
    hide Sse, Gain, Raised, Residuals, ThresholdsFor, SplitError;
    RoundEffect(es, ps, s, rate);
    var rs := Residuals(es, ps);
    if IsCandidate(es, rs, s) {
      GainNonNegative(es, rs, s.feature, s.threshold, rate);
    }
  }

  // ---- Training one mode ------------------------------------------------------------------------------------

  predicate Descends(xs: seq<real>) {
    forall i :: 0 <= i < |xs| - 1 ==> xs[i + 1] <= xs[i]
  }

  predicate Tracks(es: seq<Example>, ps: seq<real>, mode: nat, bias: real, trees: seq<Stump>) {
    |ps| == |es| && forall i :: 0 <= i < |es| ==> ps[i] == Predict(es[i], mode, bias, trees)
  }

  lemma TracksNext(es: seq<Example>, ps: seq<real>, mode: nat, bias: real, trees: seq<Stump>, s: Stump)
    requires Tracks(es, ps, mode, bias, trees) && s.mode == mode
    ensures Tracks(es, Raised(es, ps, s), mode, bias, trees + [s])
  {
  }

  function Predictions(es: seq<Example>, mode: nat, bias: real, trees: seq<Stump>): (ps: seq<real>)
    ensures |ps| == |es|
  {
    seq(|es|, i requires 0 <= i < |es| => Predict(es[i], mode, bias, trees))
  }

  /** `s` is a best stump on what the trees so far leave, damped by the learning rate. */
  ghost predicate IsRound(es: seq<Example>, mode: nat, bias: real, before: seq<Stump>, s: Stump, rate: real) {
    exists best: Stump ::
      best.mode == mode && IsBest(es, Residuals(es, Predictions(es, mode, bias, before)), best)
      && s == Damped(best, rate)
  }

  /** Every tree is a round on the residuals of the trees before it. */
  ghost predicate Grown(es: seq<Example>, mode: nat, bias: real, trees: seq<Stump>, rate: real) {
    forall k :: 0 <= k < |trees| ==> IsRound(es, mode, bias, trees[..k], trees[k], rate)
  }

  lemma GrownNext(es: seq<Example>, mode: nat, bias: real, trees: seq<Stump>, best: Stump, rate: real, ps: seq<real>)
    requires Grown(es, mode, bias, trees, rate) && Tracks(es, ps, mode, bias, trees) && best.mode == mode
    requires IsBest(es, Residuals(es, ps), best)
    ensures Grown(es, mode, bias, trees + [Damped(best, rate)], rate)
  {
    hide IsBest, Residuals, Damped, Predict;
    var more := trees + [Damped(best, rate)];
    assert ps == Predictions(es, mode, bias, trees);
    forall k | 0 <= k < |more| ensures IsRound(es, mode, bias, more[..k], more[k], rate) {
      if k < |trees| {
        assert more[..k] == trees[..k] && more[k] == trees[k];
      } else {
        assert more[..k] == trees;
      }
    }
  }

  /** The rounds of one mode.  The kept predictions are those of the trees so far, and the
      error, round by round, never goes up. */
  method TrainMode(es: seq<Example>, mode: nat, bias: real, rounds: nat, rate: real)
    returns (trees: seq<Stump>, predictions: seq<real>, ghost errors: seq<real>)
    ensures |trees| == rounds && forall k :: 0 <= k < rounds ==> trees[k].mode == mode
    ensures Tracks(es, predictions, mode, bias, trees) && Grown(es, mode, bias, trees, rate)
    ensures |errors| == rounds + 1 && errors[0] == Sse(es, seq(|es|, _ => bias))
    ensures errors[rounds] == Sse(es, predictions)
    ensures 0.0 <= rate <= 2.0 ==> Descends(errors)
  {
    hide Sse, Raised, Residuals, IsBest, Damped, IsRound;
    trees := [];
    predictions := seq(|es|, _ => bias);
    errors := [Sse(es, predictions)];
    var k := 0;
    while k < rounds
      invariant 0 <= k <= rounds && |trees| == k && forall j :: 0 <= j < k ==> trees[j].mode == mode
      invariant Tracks(es, predictions, mode, bias, trees) && Grown(es, mode, bias, trees, rate)
      invariant |errors| == k + 1 && errors[0] == Sse(es, seq(|es|, _ => bias)) && errors[k] == Sse(es, predictions)
      invariant 0.0 <= rate <= 2.0 ==> Descends(errors)
    {
      var stump := BestStump(es, Residuals(es, predictions), mode);
      var damped := Damped(stump, rate);
      DampedMode(stump, rate);
      if 0.0 <= rate <= 2.0 {
        RoundNeverHurts(es, predictions, stump, rate);
      }
      GrownNext(es, mode, bias, trees, stump, rate, predictions);
      TracksNext(es, predictions, mode, bias, trees, damped);
      trees := trees + [damped];
      predictions := AddLeaves(es, predictions, damped);
      errors := errors + [Sse(es, predictions)];
      k := k + 1;
    }
  }

  lemma DampedMode(s: Stump, rate: real)
    ensures Damped(s, rate).mode == s.mode
  {
  }

  /** The update of the predictions, example by example. */
  method AddLeaves(es: seq<Example>, ps: seq<real>, s: Stump) returns (qs: seq<real>)
    requires |es| == |ps|
    ensures qs == Raised(es, ps, s)
  {
    qs := [];
    for i := 0 to |es|
      invariant |qs| == i && forall j :: 0 <= j < i ==> qs[j] == ps[j] + Leaf(s, es[j])
    {
      qs := qs + [ps[i] + if GoesLeft(es[i], s.feature, s.threshold) then s.left else s.right];
    }
  }

  // ---- Training all modes -------------------------------------------------------------------------------------

  function Of(es: seq<Example>, mode: nat): (r: seq<Example>)
    ensures forall i :: 0 <= i < |r| ==> r[i].mode == mode && r[i] in es
  {
    if es == [] then []
    else Of(es[..|es| - 1], mode) + if es[|es| - 1].mode == mode then [es[|es| - 1]] else []
  }

  function Targets(es: seq<Example>): real {
    if es == [] then 0.0 else Targets(es[..|es| - 1]) + es[|es| - 1].target
  }

  function Mean(es: seq<Example>): real
    requires es != []
  {
    Targets(es) / |es| as real
  }

  /** The prior of a mode: its mean cost, pulled towards the global mean; 10 for a mode
      nobody measured. */
  function Bias(es: seq<Example>, mode: nat, shrink: real): real
    requires es != []
  {
    if Of(es, mode) == [] then 10.0 else (1.0 - shrink) * Mean(Of(es, mode)) + shrink * Mean(es)
  }

  function Squares(es: seq<Example>): real {
    if es == [] then 0.0 else Squares(es[..|es| - 1]) + Sq(es[|es| - 1].target)
  }

  /** `q - 2xt + xxn`. */
  function Parabola(q: real, t: real, n: real, x: real): real {
    q - 2.0 * (x * t) + (x * x) * n
  }

  lemma OneMore(q: real, t: real, n: real, y: real, x: real)
    ensures Parabola(q, t, n, x) + Sq(y - x) == Parabola(q + Sq(y), t + y, n + 1.0, x)
  {
  }

  /** The error of a constant prediction, multiplied out. */
  lemma {:induction false} ConstantError(es: seq<Example>, x: real)
    ensures Sse(es, seq(|es|, _ => x)) == Parabola(Squares(es), Targets(es), |es| as real, x)
  {
    hide Parabola, Sq;
    if es == [] {
      NothingYet(x);
    } else {
      var n := |es| - 1;
      ConstantError(es[..n], x);
      var rs := Residuals(es, seq(|es|, _ => x));
      assert rs[..n] == Residuals(es[..n], seq(n, _ => x));
      OneMore(Squares(es[..n]), Targets(es[..n]), n as real, es[n].target, x);
      assert |es| as real == n as real + 1.0;
    }
  }

  lemma NothingYet(x: real)
    ensures Parabola(0.0, 0.0, 0.0, x) == 0.0
  {
  }

  /** Without shrinkage the prior of a measured mode is the constant that fits its examples
      best; with full shrinkage it is the constant that fits all examples best. */
  lemma PriorIsBest(es: seq<Example>, mode: nat, x: real)
    requires Of(es, mode) != []
    ensures es != []
    ensures var own := Of(es, mode);
            Sse(own, seq(|own|, _ => Bias(es, mode, 0.0))) <= Sse(own, seq(|own|, _ => x))
    ensures Sse(es, seq(|es|, _ => Bias(es, mode, 1.0))) <= Sse(es, seq(|es|, _ => x))
  {
    hide Sse, Of, Targets, Squares;
    var own := Of(es, mode);
    NoneOfNone(es, mode);
    MeanIsBest(own, x);
    MeanIsBest(es, x);
  }

  lemma NoneOfNone(es: seq<Example>, mode: nat)
    requires Of(es, mode) != []
    ensures es != []
  {
  }

  lemma MeanIsBest(es: seq<Example>, x: real)
    requires es != []
    ensures Sse(es, seq(|es|, _ => Mean(es))) <= Sse(es, seq(|es|, _ => x))
  {
    hide Sse, Targets, Squares;
    var n, m := |es| as real, Mean(es);
    ConstantError(es, x);
    ConstantError(es, m);
    assert m * n == Targets(es);
    SideGap(n, Targets(es), m, x);
    NonNegative(n, x - m);
  }

  predicate Free(trees: seq<Stump>, mode: nat) {
    forall i :: 0 <= i < |trees| ==> trees[i].mode != mode
  }

  /** Trees of other modes do not matter. */
  lemma {:induction false} OthersBefore(e: Example, mode: nat, bias: real, others: seq<Stump>, own: seq<Stump>)
    requires Free(others, mode)
    ensures Predict(e, mode, bias, others + own) == Predict(e, mode, bias, own)
    decreases |others| + |own|
  {
    hide Leaf;
    var all := others + own;
    if own != [] {
      assert all[..|all| - 1] == others + own[..|own| - 1];
      OthersBefore(e, mode, bias, others, own[..|own| - 1]);
    } else if others != [] {
      assert all == others;
      assert others[..|others| - 1] + [] == others[..|others| - 1];
      OthersBefore(e, mode, bias, others[..|others| - 1], []);
    }
  }

  lemma {:induction false} OthersAfter(e: Example, mode: nat, bias: real, own: seq<Stump>, others: seq<Stump>)
    requires Free(others, mode)
    ensures Predict(e, mode, bias, own + others) == Predict(e, mode, bias, own)
    decreases |others|
  {
    hide Leaf;
    var all := own + others;
    if others != [] {
      assert all[..|all| - 1] == own + others[..|others| - 1];
      OthersAfter(e, mode, bias, own, others[..|others| - 1]);
    } else {
      assert all == own;
    }
  }

  /** The trees of one mode, in order. */
  function OwnTrees(trees: seq<Stump>, mode: nat): seq<Stump> {
    if trees == [] then []
    else OwnTrees(trees[..|trees| - 1], mode) + if trees[|trees| - 1].mode == mode then [trees[|trees| - 1]] else []
  }

  lemma {:induction false} OwnAfter(trees: seq<Stump>, others: seq<Stump>, mode: nat)
    requires Free(others, mode)
    ensures OwnTrees(trees + others, mode) == OwnTrees(trees, mode)
    decreases |others|
  {
    if others == [] {
      assert trees + others == trees;
    } else {
      assert (trees + others)[..|trees + others| - 1] == trees + others[..|others| - 1];
      OwnAfter(trees, others[..|others| - 1], mode);
    }
  }

  lemma {:induction false} OwnAdded(others: seq<Stump>, own: seq<Stump>, mode: nat)
    requires Free(others, mode) && forall k :: 0 <= k < |own| ==> own[k].mode == mode
    ensures OwnTrees(others + own, mode) == own
    decreases |own|
  {
    if own == [] {
      OwnAfter([], others, mode);
      assert [] + others == others == others + own;
    } else {
      assert (others + own)[..|others + own| - 1] == others + own[..|own| - 1];
      OwnAdded(others, own[..|own| - 1], mode);
      assert own == own[..|own| - 1] + [own[|own| - 1]];
    }
  }

  /** What training promises for one mode: the prior as its bias and, if anybody measured the
      mode, `rounds` trees, each a damped best stump on the residuals of those before it. */
  ghost predicate Trained(es: seq<Example>, mode: nat, biases: seq<real>, trees: seq<Stump>, rounds: nat, shrink: real,
                          rate: real)
    requires es != [] && mode < |biases|
  {
    var own := Of(es, mode);
    && biases[mode] == Bias(es, mode, shrink)
    && (if own == [] then Free(trees, mode)
        else
          && |OwnTrees(trees, mode)| == rounds
          && Grown(own, mode, biases[mode], OwnTrees(trees, mode), rate))
    && (0.0 <= rate <= 2.0 ==> exists ps: seq<real> :: Tracks(own, ps, mode, biases[mode], trees)
                                                      && Sse(own, ps) <= Sse(own, seq(|own|, _ => biases[mode])))
  }

  lemma TracksAmong(es: seq<Example>, ps: seq<real>, mode: nat, bias: real, before: seq<Stump>, own: seq<Stump>)
    requires Tracks(es, ps, mode, bias, own) && Free(before, mode)
    ensures Tracks(es, ps, mode, bias, before + own)
  {
    hide Predict;
    forall i | 0 <= i < |es| ensures ps[i] == Predict(es[i], mode, bias, before + own) {
      OthersBefore(es[i], mode, bias, before, own);
    }
  }

  lemma StillTrained(es: seq<Example>, m: nat, biases: seq<real>, trees: seq<Stump>, biases': seq<real>,
                     more: seq<Stump>, rounds: nat, shrink: real, rate: real)
    requires es != [] && m < |biases| == |biases'| && Trained(es, m, biases, trees, rounds, shrink, rate)
    requires biases'[m] == biases[m] && Free(more, m)
    ensures Trained(es, m, biases', trees + more, rounds, shrink, rate)
  {
    hide Predict, Sse, Of, Bias, IsRound;
    var own := Of(es, m);
    OwnAfter(trees, more, m);
    if 0.0 <= rate <= 2.0 {
      var ps :| Tracks(own, ps, m, biases[m], trees) && Sse(own, ps) <= Sse(own, seq(|own|, _ => biases[m]));
      forall i | 0 <= i < |own| ensures ps[i] == Predict(own[i], m, biases[m], trees + more) {
        OthersAfter(own[i], m, biases[m], trees, more);
      }
      assert Tracks(own, ps, m, biases'[m], trees + more);
    }
  }

  lemma {:induction false} DescendsToEnd(xs: seq<real>, n: nat)
    requires Descends(xs) && n < |xs|
    ensures xs[n] <= xs[0]
  {
    if n > 0 {
      DescendsToEnd(xs, n - 1);
    }
  }

  lemma NowTrained(es: seq<Example>, m: nat, biases: seq<real>, before: seq<Stump>, own: seq<Stump>, ps: seq<real>,
                   errors: seq<real>, rounds: nat, shrink: real, rate: real)
    requires es != [] && m < |biases| && biases[m] == Bias(es, m, shrink) && Of(es, m) != [] && Free(before, m)
    requires Tracks(Of(es, m), ps, m, biases[m], own) && Grown(Of(es, m), m, biases[m], own, rate)
    requires |own| == rounds && forall k :: 0 <= k < rounds ==> own[k].mode == m
    requires |errors| > 0 && errors[0] == Sse(Of(es, m), seq(|Of(es, m)|, _ => biases[m]))
    requires errors[|errors| - 1] == Sse(Of(es, m), ps)
    requires 0.0 <= rate <= 2.0 ==> Descends(errors)
    ensures Trained(es, m, biases, before + own, rounds, shrink, rate)
  {
    hide Predict, Sse, Of, Bias, IsRound;
    OwnAdded(before, own, m);
    TracksAmong(Of(es, m), ps, m, biases[m], before, own);
    if 0.0 <= rate <= 2.0 {
      DescendsToEnd(errors, |errors| - 1);
    }
  }

  /** A mode without examples. */
  lemma Unmeasured(es: seq<Example>, m: nat, biases: seq<real>, trees: seq<Stump>, rounds: nat, shrink: real,
                   rate: real)
    requires es != [] && m < |biases| && biases[m] == Bias(es, m, shrink) && Of(es, m) == [] && Free(trees, m)
    ensures Trained(es, m, biases, trees, rounds, shrink, rate)
  {
    hide Predict;
    assert Tracks([], [], m, biases[m], trees);
    assert seq(0, _ => biases[m]) == [];
  }

  ghost predicate Below(trees: seq<Stump>, m: nat) {
    forall i :: 0 <= i < |trees| ==> trees[i].mode < m
  }

  /** `train`: every measured mode gets its rounds of best stumps, and what `predict` gives with
      all trees together fits that mode's examples at least as well as its bias alone. */
  method Train(es: seq<Example>, rounds: nat, rate: real, shrink: real) returns (biases: seq<real>, trees: seq<Stump>)
    requires es != []
    ensures |biases| == MODES && forall m :: 0 <= m < MODES ==> Trained(es, m, biases, trees, rounds, shrink, rate)
  {
    hide Trained, Bias, Sse, Predict, Mean, Of, Tracks, Grown;
    biases := seq(MODES, _ => 1.0);
    trees := [];
    var m := 0;
    while m < MODES
      invariant 0 <= m <= MODES && |biases| == MODES && Below(trees, m)
      invariant forall k :: 0 <= k < m ==> Trained(es, k, biases, trees, rounds, shrink, rate)
    {
      var own := Of(es, m);
      ghost var biases0, trees0 := biases, trees;
      biases := biases[m := Bias(es, m, shrink)];
      var more := [];
      if own == [] {
        Unmeasured(es, m, biases, trees, rounds, shrink, rate);
        assert trees + more == trees;
      } else {
        var ps;
        ghost var errors;
        more, ps, errors := TrainMode(own, m, biases[m], rounds, rate);
        NowTrained(es, m, biases, trees, more, ps, errors, rounds, shrink, rate);
      }
      forall k | 0 <= k < m ensures Trained(es, k, biases, trees + more, rounds, shrink, rate) {
        StillTrained(es, k, biases0, trees0, biases, more, rounds, shrink, rate);
      }
      trees := trees + more;
      m := m + 1;
    }
  }
}
