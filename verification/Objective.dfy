/** The learned objective of tools/train_selector_model.py: metric normalisation, pairwise
    preferences, the weight update and the cost of a row.  Over reals. */
module Objective {
  import Arith

  const METRICS: nat := 7

  type Vector = v: seq<real> | |v| == METRICS witness seq(METRICS, _ => 0.0)

  // ---- Normalised metrics ---------------------------------------------------------------------------------

  /** One metric of one row, scaled to the range of its workload. */
  function Normal(value: real, lo: real, hi: real): (r: real)
    ensures 0.0 <= r <= 1.0
  {
    if hi <= lo then 0.0
    else
      var q := (value - lo) / (hi - lo);
      if q < 0.0 then 0.0 else if q > 1.0 then 1.0 else q
  }

  /** The clamp never bites on a value of the workload: the best row scores 0, the worst 1,
      and the others in proportion. */
  lemma NormalIsProportion(value: real, lo: real, hi: real)
    requires lo <= value <= hi && lo < hi
    ensures Normal(value, lo, hi) * (hi - lo) == value - lo
  {
  }

  predicate UnitVector(v: Vector) {
    forall i :: 0 <= i < METRICS ==> 0.0 <= v[i] <= 1.0
  }

  // ---- Preferences ------------------------------------------------------------------------------------------

  predicate Wins(x: real, y: real) {
    !(-0.000000001 < x - y < 0.000000001) && x < y
  }

  function Won(a: Vector, b: Vector, n: nat): nat
    requires n <= METRICS
  {
    if n == 0 then 0 else Won(a, b, n - 1) + if Wins(a[n - 1], b[n - 1]) then 1 else 0
  }

  function Preference(a: Vector, b: Vector): int {
    if Won(a, b, METRICS) == Won(b, a, METRICS) then 0
    else if Won(a, b, METRICS) > Won(b, a, METRICS) then -1
    else 1
  }

  /** `majority_preference`. */
  method MajorityPreference(a: Vector, b: Vector) returns (r: int)
    ensures r == Preference(a, b)
    ensures r in {-1, 0, 1}
  {
    var aWins, bWins := 0, 0;
    for i := 0 to METRICS
      invariant aWins == Won(a, b, i) && bWins == Won(b, a, i)
    {
      var d := a[i] - b[i];
      if !(-0.000000001 < d < 0.000000001) {
        if a[i] < b[i] {
          aWins := aWins + 1;
        } else {
          bWins := bWins + 1;
        }
      }
    }
    if aWins == bWins {
      return 0;
    }
    return if aWins > bWins then -1 else 1;
  }

  lemma {:induction false} DominatedNeverWins(a: Vector, b: Vector, n: nat)
    requires n <= METRICS && forall i :: 0 <= i < METRICS ==> a[i] <= b[i]
    ensures Won(b, a, n) == 0
  {
    if n > 0 {
      DominatedNeverWins(a, b, n - 1);
    }
  }

  /** Preferences are antisymmetric, and a row that is no worse in any metric is never the
      one not preferred. */
  lemma PreferenceIsFair(a: Vector, b: Vector)
    ensures Preference(a, b) == -Preference(b, a)
    ensures (forall i :: 0 <= i < METRICS ==> a[i] <= b[i]) ==> Preference(a, b) <= 0
  {
    if forall i :: 0 <= i < METRICS ==> a[i] <= b[i] {
      DominatedNeverWins(a, b, METRICS);
    }
  }

  // ---- Weights ------------------------------------------------------------------------------------------------

  function Sum(v: seq<real>): real {
    if v == [] then 0.0 else Sum(v[..|v| - 1]) + v[|v| - 1]
  }

  function Dot(w: Vector, v: Vector, n: nat): real
    requires n <= METRICS
  {
    if n == 0 then 0.0 else Dot(w, v, n - 1) + Times(w[n - 1], v[n - 1])
  }

  function Times(x: real, y: real): real {
    x * y
  }

  /** Non-negative weights that add up to one. */
  predicate Simplex(w: Vector) {
    Sum(w) == 1.0 && forall i :: 0 <= i < METRICS ==> w[i] >= 0.0
  }

  function Uniform(): Vector {
    seq(METRICS, _ => 1.0 / 7.0)
  }

  lemma UniformIsSimplex()
    ensures Simplex(Uniform())
  {
    SumConstant(Uniform(), 1.0 / 7.0);
  }

  lemma {:induction false} SumConstant(v: seq<real>, x: real)
    requires forall i :: 0 <= i < |v| ==> v[i] == x
    ensures Sum(v) == |v| as real * x
  {
    if v != [] {
      SumConstant(v[..|v| - 1], x);
    }
  }

  lemma {:induction false} SumScaled(v: seq<real>, u: seq<real>, x: real)
    requires |u| == |v| && forall i :: 0 <= i < |v| ==> u[i] == v[i] * x
    ensures Sum(u) == Sum(v) * x
  {
    if v != [] {
      SumScaled(v[..|v| - 1], u[..|v| - 1], x);
    }
  }

  lemma {:induction false} SumNonNegative(v: seq<real>)
    requires forall i :: 0 <= i < |v| ==> v[i] >= 0.0
    ensures Sum(v) >= 0.0
  {
    if v != [] {
      SumNonNegative(v[..|v| - 1]);
    }
  }

  /** Scaling non-negative weights to sum one. */
  function Rescaled(v: Vector, total: real): Vector
    requires total != 0.0
  {
    seq(METRICS, i requires 0 <= i < METRICS => v[i] / total)
  }

  lemma RescaledIsSimplex(v: Vector)
    requires Sum(v) > 0.0 && forall i :: 0 <= i < METRICS ==> v[i] >= 0.0
    ensures Simplex(Rescaled(v, Sum(v)))
  {
    hide Sum;
    var total := Sum(v);
    var u := Rescaled(v, total);
    forall i | 0 <= i < METRICS ensures u[i] == v[i] * (1.0 / total) && u[i] >= 0.0 {
      Quotient(v[i], total);
    }
    SumScaled(v, u, 1.0 / total);
    Quotient(total, total);
  }

  lemma Quotient(x: real, y: real)
    requires y > 0.0
    ensures x / y == x * (1.0 / y)
    ensures x >= 0.0 ==> x / y >= 0.0
    ensures y / y == 1.0
  {
  }

  /** One weight moved by one difference, not below zero. */
  function Clipped(w: real, d: real, rate: real): real {
    var x := w + rate * d;
    if x < 0.0 then 0.0 else x
  }

  function Moved(w: Vector, diff: Vector, rate: real): Vector {
    seq(METRICS, i requires 0 <= i < METRICS => Clipped(w[i], diff[i], rate))
  }

  /** The perceptron step on one pair: nothing when the margin is kept, otherwise a step,
      clipped at zero and scaled back. */
  function Updated(w: Vector, diff: Vector, rate: real): Vector {
    if Dot(w, diff, METRICS) >= 0.025 then w
    else
      var moved := Moved(w, diff, rate);
      if Sum(moved) <= 0.000000000001 then Uniform() else Rescaled(moved, Sum(moved))
  }

  lemma UpdatedIsSimplex(w: Vector, diff: Vector, rate: real)
    requires Simplex(w)
    ensures Simplex(Updated(w, diff, rate))
  {
    hide Updated, Sum;
    UpdatedIsFair(w, diff, rate, 1.0);
  }

  /** A pair whose margin is 0.025 or more teaches nothing; any other leaves weights in
      proportion to the moved ones. */
  lemma LessonIsProportional(w: Vector, diff: Vector, rate: real, i: nat)
    requires i < METRICS
    ensures Dot(w, diff, METRICS) >= 0.025 ==> Updated(w, diff, rate) == w
    ensures Dot(w, diff, METRICS) < 0.025 && Sum(Moved(w, diff, rate)) > 0.000000000001 ==>
              Updated(w, diff, rate)[i] * Sum(Moved(w, diff, rate)) == Moved(w, diff, rate)[i]
  {
    hide Dot, Sum, Moved;
    var total := Sum(Moved(w, diff, rate));
    if Dot(w, diff, METRICS) < 0.025 && total > 0.000000000001 {
      var x := Moved(w, diff, rate)[i];
      assert x / total * total == x;
    }
  }

  lemma MoveHelps(w: real, d: real, rate: real)
    requires w >= 0.0 && rate >= 0.0
    ensures Times(Clipped(w, d, rate), d) >= Times(w, d)
  {
    var x := w + rate * d;
    if x < 0.0 {
      if d >= 0.0 {
        Arith.Product(rate, d);
      }
      Arith.Product(w, -d);
    } else {
      Arith.Spread(d, w, rate * d);
      Arith.Product(rate, d * d);
      assert (rate * d) * d == rate * (d * d);
    }
  }

  /** The lesson of a pair never lowers its margin: the preferred row gains on the other one. */
  lemma {:induction false} LessonHelps(w: Vector, diff: Vector, rate: real, n: nat)
    requires n <= METRICS && rate >= 0.0 && forall i :: 0 <= i < METRICS ==> w[i] >= 0.0
    ensures Dot(Moved(w, diff, rate), diff, n) >= Dot(w, diff, n)
  {
    hide Times, Clipped;
    if n > 0 {
      LessonHelps(w, diff, rate, n - 1);
      MoveHelps(w[n - 1], diff[n - 1], rate);
    }
  }

  function Shrunk(w: Vector, reg: real): Vector {
    seq(METRICS, i requires 0 <= i < METRICS => (1.0 - reg) * w[i] + reg * (1.0 / 7.0))
  }

  lemma {:induction false} SumShrunk(v: seq<real>, u: seq<real>, x: real, y: real)
    requires |u| == |v| && forall i :: 0 <= i < |v| ==> u[i] == x * v[i] + y
    ensures Sum(u) == x * Sum(v) + |v| as real * y
  {
    if v != [] {
      var n := |v| - 1;
      SumShrunk(v[..n], u[..n], x, y);
      Arith.Spread(x, Sum(v[..n]), v[n]);
      Arith.Spread(y, n as real, 1.0);
    }
  }

  /** Shrinking keeps the total at one, so the rescaling after it changes nothing. */
  lemma ShrunkTotal(w: Vector, reg: real)
    requires Sum(w) == 1.0
    ensures Sum(Shrunk(w, reg)) == 1.0 && Rescaled(Shrunk(w, reg), 1.0) == Shrunk(w, reg)
  {
    SumShrunk(w, Shrunk(w, reg), 1.0 - reg, reg * (1.0 / 7.0));
  }

  /** Up to a regularisation of 7/6 shrinking stays on the simplex; up to 1 no metric's
      weight falls below its share of the uniform part. */
  lemma ShrunkIsSimplex(w: Vector, reg: real)
    requires Simplex(w) && 0.0 <= reg && 6.0 * reg <= 7.0
    ensures Simplex(Shrunk(w, reg))
    ensures reg <= 1.0 ==> NotErased(Shrunk(w, reg), reg)
  {
    var u := Shrunk(w, reg);
    ShrunkTotal(w, reg);
    forall i | 0 <= i < METRICS ensures u[i] >= 0.0 && (reg <= 1.0 ==> u[i] >= reg * (1.0 / 7.0)) {
      if reg <= 1.0 {
        Arith.Product(1.0 - reg, w[i]);
      } else {
        AtMostOne(w, i);
        Arith.Product(reg - 1.0, 1.0 - w[i]);
      }
    }
  }

  lemma {:induction false} PartOfSum(v: seq<real>, i: nat)
    requires i < |v| && forall j :: 0 <= j < |v| ==> v[j] >= 0.0
    ensures v[i] <= Sum(v)
  {
    var n := |v| - 1;
    SumNonNegative(v[..n]);
    if i < n {
      PartOfSum(v[..n], i);
    }
  }

  lemma AtMostOne(w: Vector, i: nat)
    requires Simplex(w) && i < METRICS
    ensures w[i] <= 1.0
  {
    PartOfSum(w, i);
  }

  /** The weight of a metric turns negative exactly when its share is too large for the
      regularisation. */
  lemma ShrinkingTooFar(w: Vector, i: nat, reg: real)
    requires i < METRICS
    ensures Shrunk(w, reg)[i] < 0.0 <==> (7.0 * (reg - 1.0)) * w[i] > reg
  {
    assert 7.0 * ((1.0 - reg) * w[i]) == -((7.0 * (reg - 1.0)) * w[i]);
  }

  predicate NotErased(w: Vector, reg: real) {
    forall i :: 0 <= i < METRICS ==> w[i] >= reg * (1.0 / 7.0)
  }

  /** What the loops keep for any regularisation: the total is one; up to 7/6 the weights
      are a probability distribution. */
  predicate Fair(w: Vector, reg: real) {
    Sum(w) == 1.0 && (6.0 * reg <= 7.0 ==> Simplex(w))
  }

  lemma UpdatedIsFair(w: Vector, diff: Vector, rate: real, reg: real)
    requires Fair(w, reg)
    ensures Fair(Updated(w, diff, rate), reg)
  {
    hide Dot, Sum;
    UniformIsSimplex();
    var moved := Moved(w, diff, rate);
    if Sum(moved) > 0.000000000001 {
      RescaledIsSimplex(moved);
    }
  }

  lemma ShrunkIsFair(w: Vector, reg: real)
    requires Fair(w, reg) && reg > 0.0
    ensures Fair(Shrunk(w, reg), reg) && Sum(Shrunk(w, reg)) == 1.0 && Rescaled(Shrunk(w, reg), 1.0) == Shrunk(w, reg)
    ensures reg <= 1.0 ==> NotErased(Shrunk(w, reg), reg)
  {
    hide Sum, Shrunk, Rescaled, NotErased;
    ShrunkTotal(w, reg);
    if 6.0 * reg <= 7.0 {
      ShrunkIsSimplex(w, reg);
    }
  }

  // ---- The learner ----------------------------------------------------------------------------------------------

  /** What a pair teaches: the row not preferred less the preferred one. */
  function Difference(a: Vector, b: Vector): Vector {
    seq(METRICS, i requires 0 <= i < METRICS => if Preference(a, b) == -1 then b[i] - a[i] else a[i] - b[i])
  }

  /** `d` comes from two rows of which one is preferred. */
  ghost predicate Taught(d: Vector) {
    exists a: Vector, b: Vector :: UnitVector(a) && UnitVector(b) && Preference(a, b) != 0 && d == Difference(a, b)
  }

  /** One pass over the first `n` pairs. */
  function Passed(w: Vector, diffs: seq<Vector>, n: nat, rate: real): Vector
    requires n <= |diffs|
  {
    if n == 0 then w else Updated(Passed(w, diffs, n - 1, rate), diffs[n - 1], rate)
  }

  function Epoch(w: Vector, diffs: seq<Vector>, rate: real, reg: real): Vector {
    var u := Passed(w, diffs, |diffs|, rate);
    if reg > 0.0 then Shrunk(u, reg) else u
  }

  /** The weights `learn_objective_model` ends with. */
  function Learned(diffs: seq<Vector>, epochs: nat, rate: real, reg: real): Vector {
    if diffs == [] || epochs == 0 then Uniform() else Epoch(Learned(diffs, epochs - 1, rate, reg), diffs, rate, reg)
  }

  lemma {:induction false} PassedIsFair(w: Vector, diffs: seq<Vector>, n: nat, rate: real, reg: real)
    requires Fair(w, reg) && n <= |diffs|
    ensures Fair(Passed(w, diffs, n, rate), reg)
  {
    hide Fair, Updated;
    if n > 0 {
      PassedIsFair(w, diffs, n - 1, rate, reg);
      UpdatedIsFair(Passed(w, diffs, n - 1, rate), diffs[n - 1], rate, reg);
    }
  }

  /** For any differences, epochs and rate the weights add up to one and, up to a regularisation of
      7/6, are not negative; between 0 and 1 the regularisation keeps every metric alive. */
  lemma {:induction false} LearnedIsFair(diffs: seq<Vector>, epochs: nat, rate: real, reg: real)
    ensures Fair(Learned(diffs, epochs, rate, reg), reg)
    ensures diffs != [] && epochs > 0 && 0.0 < reg <= 1.0 ==> NotErased(Learned(diffs, epochs, rate, reg), reg)
  {
    hide Fair, Passed, Shrunk, NotErased, Uniform;
    UniformIsFair(reg);
    if diffs != [] && epochs > 0 {
      LearnedIsFair(diffs, epochs - 1, rate, reg);
      PassedIsFair(Learned(diffs, epochs - 1, rate, reg), diffs, |diffs|, rate, reg);
      if reg > 0.0 {
        ShrunkIsFair(Passed(Learned(diffs, epochs - 1, rate, reg), diffs, |diffs|, rate), reg);
      }
    }
  }

  /** The epochs of `learn_objective_model` over the differences of the preferred pairs. */
  method LearnWeights(diffs: seq<Vector>, epochs: nat, rate: real, reg: real) returns (w: Vector)
    ensures w == Learned(diffs, epochs, rate, reg)
    ensures Fair(w, reg)
    ensures diffs == [] ==> w == Uniform()
    ensures diffs != [] && epochs > 0 && 0.0 < reg <= 1.0 ==> NotErased(w, reg)
  {
    hide Updated, Uniform, Shrunk, Rescaled, Fair, NotErased;
    LearnedIsFair(diffs, epochs, rate, reg);
    w := Uniform();
    if diffs == [] {
      return;
    }
    var e := 0;
    while e < epochs
      invariant 0 <= e <= epochs && w == Learned(diffs, e, rate, reg)
    {
      ghost var start := w;
      LearnedIsFair(diffs, e, rate, reg);
      for k := 0 to |diffs|
        invariant w == Passed(start, diffs, k, rate)
      {
        w := Updated(w, diffs[k], rate);
      }
      if reg > 0.0 {
        PassedIsFair(start, diffs, |diffs|, rate, reg);
        ShrunkIsFair(w, reg);
        w := Shrunk(w, reg);
        w := Rescaled(w, Sum(w));
      }
      e := e + 1;
    }
  }

  // ---- When the learned weights are a distribution ------------------------------------------------------------------

  /** `x` on the first metric, nothing on the others. */
  function Spike(x: real): Vector {
    seq(METRICS, i => if i == 0 then x else 0.0)
  }

  lemma {:induction false} DotSpike(w: Vector, x: real, n: nat)
    requires n <= METRICS
    ensures Dot(w, Spike(x), n) == if n == 0 then 0.0 else Times(w[0], x)
  {
    if n > 0 {
      DotSpike(w, x, n - 1);
    }
  }

  lemma {:induction false} SumBump(v: seq<real>, u: seq<real>, x: real)
    requires |u| == |v| > 0 && u[0] == v[0] + x && forall i :: 1 <= i < |v| ==> u[i] == v[i]
    ensures Sum(u) == Sum(v) + x
  {
    var n := |v| - 1;
    if n > 0 {
      SumBump(v[..n], u[..n], x);
    } else {
      assert v[..0] == [] && u[..0] == [];
    }
  }

  /** One lesson on the first metric alone, by way of `x`, a step of any size. */
  lemma SpikeLesson(d: real, rate: real)
    requires 0.0 < d <= 0.01 && rate > 0.0
    ensures Updated(Uniform(), Spike(d), rate)[0] == (1.0 / 7.0 + rate * d) / (1.0 + rate * d)
  {
    var x := rate * d;
    assert x > 0.0;
    var w, moved := Uniform(), Moved(Uniform(), Spike(d), rate);
    DotSpike(w, d, METRICS);
    UniformIsSimplex();
    assert rate * 0.0 == 0.0;
    SumBump(w, moved, x);
  }

  /** The two rows that teach it: they differ in the first metric only. */
  lemma SpikeIsTaught(d: real)
    requires 0.001 <= d <= 1.0
    ensures Taught(Spike(d))
  {
    var a, b := Spike(0.0), Spike(d);
    DominatedNeverWins(a, b, METRICS);
    FirstWins(a, b, METRICS);
    assert Preference(a, b) == -1;
    assert Difference(a, b) == Spike(d);
    assert UnitVector(a) && UnitVector(b);
  }

  lemma {:induction false} FirstWins(a: Vector, b: Vector, n: nat)
    requires 0 < n <= METRICS && Wins(a[0], b[0])
    ensures Won(a, b, n) > 0
  {
    if n > 1 {
      FirstWins(a, b, n - 1);
    }
  }

  /** Beyond 7/6 one pair of rows, one epoch and a large enough rate give a negative weight. */
  lemma LearningTooFar(reg: real)
    requires 6.0 * reg > 7.0
    ensures Learned([Spike(0.01)], 1, 200.0 / (6.0 * reg - 7.0), reg)[0] < 0.0
  {
    hide Updated, Shrunk, Spike, Uniform;
    var x := 2.0 / (6.0 * reg - 7.0);
    var rate := 200.0 / (6.0 * reg - 7.0);
    assert rate * 0.01 == x;
    Positive(200.0, 6.0 * reg - 7.0);
    SpikeLesson(0.01, rate);
    var diffs := [Spike(0.01)];
    var u := Updated(Uniform(), Spike(0.01), rate);
    assert Passed(Uniform(), diffs, 1, rate) == u by { assert Passed(Uniform(), diffs, 0, rate) == Uniform(); }
    assert Learned(diffs, 0, rate, reg) == Uniform();
    ShrinkingTooFar(u, 0, reg);
    ShareTooLarge(u[0], x, reg);
  }

  lemma Positive(x: real, y: real)
    requires x > 0.0 && y > 0.0
    ensures x / y > 0.0
  {
    var q := x / y;
    assert q * y == x;
    if q <= 0.0 {
      Arith.Product(-q, y);
    }
  }

  lemma ShareTooLarge(share: real, x: real, reg: real)
    requires 6.0 * reg > 7.0 && x == 2.0 / (6.0 * reg - 7.0) && share == (1.0 / 7.0 + x) / (1.0 + x)
    ensures (7.0 * (reg - 1.0)) * share > reg
  {
    assert x * (6.0 * reg - 7.0) == 2.0;
    assert x > 0.0;
    var y := 1.0 + x;
    assert share * y == 1.0 / 7.0 + x;
    assert (7.0 * (reg - 1.0)) * (share * y) == (reg - 1.0) + 7.0 * (reg * x) - 7.0 * x;
    assert x * (6.0 * reg - 7.0) == 6.0 * (reg * x) - 7.0 * x;
    assert (7.0 * (reg - 1.0)) * (share * y) == reg * y + 1.0;
    var z := (7.0 * (reg - 1.0)) * share;
    assert z * y == reg * y + 1.0;
    assert (z - reg) * y == 1.0;
    if z <= reg {
      Arith.Product(reg - z, y);
    }
  }

  /** The learned weights are a probability distribution for all lessons, epochs and rates
      exactly when the regularisation is at most 7/6; the lessons may be any differences, or
      only those that a preference between two rows teaches. */
  lemma LearnsDistributionExactlyWhen(reg: real)
    ensures (forall diffs: seq<Vector>, epochs: nat, rate: real :: Simplex(Learned(diffs, epochs, rate, reg)))
            <==> 6.0 * reg <= 7.0
    ensures (forall diffs: seq<Vector>, epochs: nat, rate: real ::
               (forall d :: d in diffs ==> Taught(d)) ==> Simplex(Learned(diffs, epochs, rate, reg)))
            <==> 6.0 * reg <= 7.0
  {
    hide Learned, Spike, Taught;
    if 6.0 * reg <= 7.0 {
      forall diffs: seq<Vector>, epochs: nat, rate: real ensures Simplex(Learned(diffs, epochs, rate, reg)) {
        LearnedIsFair(diffs, epochs, rate, reg);
      }
    } else {
      LearningTooFar(reg);
      SpikeIsTaught(0.01);
      var diffs := [Spike(0.01)];
      assert forall d :: d in diffs ==> Taught(d);
      assert !Simplex(Learned(diffs, 1, 200.0 / (6.0 * reg - 7.0), reg));
    }
  }

  /** At a concrete pair: the first row wins four metrics to three, and one epoch with rate 1
      and regularisation 3 makes the weight of the first metric negative. */
  lemma NegativeWeightLearned()
    ensures var a: Vector, b: Vector := [0.0, 0.0, 0.0, 0.0, 1.0, 1.0, 1.0], [0.1, 0.1, 0.1, 0.1, 0.0, 0.0, 0.0];
            Preference(a, b) == -1 && Learned([Difference(a, b)], 1, 1.0, 3.0)[0] < 0.0
  {
    hide Updated, Shrunk, Preference, Uniform;
    var a: Vector, b: Vector := [0.0, 0.0, 0.0, 0.0, 1.0, 1.0, 1.0], [0.1, 0.1, 0.1, 0.1, 0.0, 0.0, 0.0];
    FourToThree();
    var d: Vector := [0.1, 0.1, 0.1, 0.1, -1.0, -1.0, -1.0];
    assert Difference(a, b) == d;
    QuarterLearned();
    assert Passed(Uniform(), [d], 1, 1.0) == Updated(Uniform(), d, 1.0) by {
      assert Passed(Uniform(), [d], 0, 1.0) == Uniform();
    }
    assert Learned([d], 0, 1.0, 3.0) == Uniform();
    ShrinkingTooFar(Updated(Uniform(), d, 1.0), 0, 3.0);
  }

  lemma FourToThree()
    ensures Preference([0.0, 0.0, 0.0, 0.0, 1.0, 1.0, 1.0], [0.1, 0.1, 0.1, 0.1, 0.0, 0.0, 0.0]) == -1
  {
    var a: Vector, b: Vector := [0.0, 0.0, 0.0, 0.0, 1.0, 1.0, 1.0], [0.1, 0.1, 0.1, 0.1, 0.0, 0.0, 0.0];
    assert Won(a, b, 2) == 2 && Won(b, a, 2) == 0;
    assert Won(a, b, 4) == 4 && Won(b, a, 4) == 0;
    assert Won(a, b, 6) == 4 && Won(b, a, 6) == 2;
  }

  lemma Padded(v: seq<real>)
    ensures Sum(v + [0.0]) == Sum(v)
  {
    assert (v + [0.0])[..|v|] == v;
  }

  lemma QuarterLearned()
    ensures Updated(Uniform(), [0.1, 0.1, 0.1, 0.1, -1.0, -1.0, -1.0], 1.0)[0] == 0.25
  {
    var d: Vector := [0.1, 0.1, 0.1, 0.1, -1.0, -1.0, -1.0];
    var w := Uniform();
    assert Dot(w, d, 2) == 0.2 / 7.0;
    assert Dot(w, d, 4) == 0.4 / 7.0;
    assert Dot(w, d, 6) == -1.6 / 7.0;
    var q := 1.0 / 7.0 + 0.1;
    var m: Vector := [q, q, q, q, 0.0, 0.0, 0.0];
    assert Moved(w, d, 1.0) == m;
    SumConstant([q, q, q, q], q);
    Padded([q, q, q, q]);
    Padded([q, q, q, q, 0.0]);
    Padded([q, q, q, q, 0.0, 0.0]);
    assert [q, q, q, q] + [0.0] == [q, q, q, q, 0.0] && [q, q, q, q, 0.0] + [0.0] == [q, q, q, q, 0.0, 0.0];
    assert [q, q, q, q, 0.0, 0.0] + [0.0] == m;
    assert Sum(m) == 4.0 * q;
  }

  lemma UniformIsFair(reg: real)
    ensures Fair(Uniform(), reg)
  {
    hide Sum;
    UniformIsSimplex();
  }

  // ---- Cost of a row ---------------------------------------------------------------------------------------------

  /** `objective_cost`. */
  method ObjectiveCost(w: Vector, v: Vector, invalid: bool) returns (cost: real)
    ensures cost == Dot(w, v, METRICS) + if invalid then 4.0 else 0.0
  {
    cost := 0.0;
    for i := 0 to METRICS
      invariant cost == Dot(w, v, i)
    {
      cost := cost + w[i] * v[i];
    }
    if invalid {
      cost := cost + 4.0;
    }
  }

  lemma {:induction false} DotBounds(w: Vector, v: Vector, n: nat)
    requires n <= METRICS && UnitVector(v) && forall i :: 0 <= i < METRICS ==> w[i] >= 0.0
    ensures 0.0 <= Dot(w, v, n) <= Sum(w[..n])
  {
    hide Times;
    if n > 0 {
      DotBounds(w, v, n - 1);
      assert w[..n][..n - 1] == w[..n - 1];
      Share(w[n - 1], v[n - 1]);
    }
  }

  lemma Share(x: real, y: real)
    requires x >= 0.0 && 0.0 <= y <= 1.0
    ensures 0.0 <= Times(x, y) <= x
  {
  }

  /** Valid rows cost between 0 and 1, so a row that failed validation, at 4 or more,
      loses to every valid one. */
  lemma InvalidRowsLose(w: Vector, good: Vector, bad: Vector)
    requires Simplex(w) && UnitVector(good) && UnitVector(bad)
    ensures 0.0 <= Dot(w, good, METRICS) <= 1.0 < 4.0 <= Dot(w, bad, METRICS) + 4.0 <= 5.0
  {
    hide Dot, Sum;
    DotBounds(w, good, METRICS);
    DotBounds(w, bad, METRICS);
    assert w[..METRICS] == w;
  }

  lemma {:induction false} DotMonotone(w: Vector, a: Vector, b: Vector, n: nat)
    requires n <= METRICS && forall i :: 0 <= i < METRICS ==> w[i] >= 0.0 && a[i] <= b[i]
    ensures Dot(w, a, n) <= Dot(w, b, n)
  {
    if n > 0 {
      DotMonotone(w, a, b, n - 1);
      Arith.Product(w[n - 1], b[n - 1] - a[n - 1]);
      Arith.Spread(w[n - 1], a[n - 1], b[n - 1] - a[n - 1]);
    }
  }

  /** The objective is monotone: worse metrics never cost less. */
  lemma WorseCostsMore(w: Vector, a: Vector, b: Vector)
    requires Simplex(w) && forall i :: 0 <= i < METRICS ==> a[i] <= b[i]
    ensures Dot(w, a, METRICS) <= Dot(w, b, METRICS)
  {
    hide Dot, Sum;
    DotMonotone(w, a, b, METRICS);
  }
}
