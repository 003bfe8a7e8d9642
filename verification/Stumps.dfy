/** One round of the selector trainer, tools/train_selector_model.py: candidate thresholds,
    splits with mean leaves, and the choice of the best stump.  Over reals. */
module Stumps {
  import Arith
  import opened Options

  const FEATURES: nat := 10

  datatype Example = Example(mode: nat, features: seq<real>, target: real)

  datatype Stump = Stump(mode: nat, feature: nat, threshold: real, left: real, right: real)

  function Feature(e: Example, f: nat): real {
    if f < |e.features| then e.features[f] else 0.0
  }

  predicate GoesLeft(e: Example, f: nat, t: real) {
    Feature(e, f) <= t
  }

  // ---- Sums over a split --------------------------------------------------------------------------------

  function CountLeft(es: seq<Example>, f: nat, t: real): nat {
    if es == [] then 0
    else CountLeft(es[..|es| - 1], f, t) + if GoesLeft(es[|es| - 1], f, t) then 1 else 0
  }

  function CountRight(es: seq<Example>, f: nat, t: real): nat {
    if es == [] then 0
    else CountRight(es[..|es| - 1], f, t) + if GoesLeft(es[|es| - 1], f, t) then 0 else 1
  }

  function SumLeft(es: seq<Example>, rs: seq<real>, f: nat, t: real): real
    requires |es| == |rs|
  {
    if es == [] then 0.0
    else SumLeft(es[..|es| - 1], rs[..|es| - 1], f, t) + if GoesLeft(es[|es| - 1], f, t) then rs[|es| - 1] else 0.0
  }

  function SumRight(es: seq<Example>, rs: seq<real>, f: nat, t: real): real
    requires |es| == |rs|
  {
    if es == [] then 0.0
    else SumRight(es[..|es| - 1], rs[..|es| - 1], f, t) + if GoesLeft(es[|es| - 1], f, t) then 0.0 else rs[|es| - 1]
  }

  function Sq(x: real): real {
    x * x
  }

  function SumSquares(rs: seq<real>): real {
    if rs == [] then 0.0 else SumSquares(rs[..|rs| - 1]) + Sq(rs[|rs| - 1])
  }

  /** Squared error left when the split predicts `a` on the left and `b` on the right. */
  function Error(es: seq<Example>, rs: seq<real>, f: nat, t: real, a: real, b: real): real
    requires |es| == |rs|
  {
    if es == [] then 0.0
    else
      Error(es[..|es| - 1], rs[..|es| - 1], f, t, a, b)
        + Sq(rs[|es| - 1] - if GoesLeft(es[|es| - 1], f, t) then a else b)
  }

  /** The error of a split, multiplied out. */
  lemma {:induction false} ErrorExpanded(es: seq<Example>, rs: seq<real>, f: nat, t: real, a: real, b: real)
    requires |es| == |rs|
    ensures Error(es, rs, f, t, a, b)
            == Expanded(SumSquares(rs), SumLeft(es, rs, f, t), SumRight(es, rs, f, t),
                        CountLeft(es, f, t) as real, CountRight(es, f, t) as real, a, b)
  {
    hide GoesLeft, Expanded, Sq;
    NothingExpanded(a, b);
    if es != [] {
      var n := |es| - 1;
      var es', rs', r := es[..n], rs[..n], rs[n];
      ErrorExpanded(es', rs', f, t, a, b);
      var q, x, y := SumSquares(rs'), SumLeft(es', rs', f, t), SumRight(es', rs', f, t);
      var m, k := CountLeft(es', f, t) as real, CountRight(es', f, t) as real;
      assert SumSquares(rs) == q + Sq(r);
      if GoesLeft(es[n], f, t) {
        OneMoreLeft(q, x, y, m, k, a, b, r);
        assert Error(es, rs, f, t, a, b) == Error(es', rs', f, t, a, b) + Sq(r - a);
        assert CountLeft(es, f, t) as real == m + 1.0;
      } else {
        OneMoreRight(q, x, y, m, k, a, b, r);
        assert Error(es, rs, f, t, a, b) == Error(es', rs', f, t, a, b) + Sq(r - b);
        assert CountRight(es, f, t) as real == k + 1.0;
      }
    }
  }

  /** `q - 2ax - 2by + aam + bbk`. */
  function Expanded(q: real, x: real, y: real, m: real, k: real, a: real, b: real): real {
    q - 2.0 * (a * x) - 2.0 * (b * y) + (a * a) * m + (b * b) * k
  }

  lemma NothingExpanded(a: real, b: real)
    ensures Expanded(0.0, 0.0, 0.0, 0.0, 0.0, a, b) == 0.0
  {
  }

  lemma OneMoreLeft(q: real, x: real, y: real, m: real, k: real, a: real, b: real, r: real)
    ensures Expanded(q + Sq(r), x + r, y, m + 1.0, k, a, b) == Expanded(q, x, y, m, k, a, b) + Sq(r - a)
  {
  }

  lemma OneMoreRight(q: real, x: real, y: real, m: real, k: real, a: real, b: real, r: real)
    ensures Expanded(q + Sq(r), x, y + r, m, k + 1.0, a, b) == Expanded(q, x, y, m, k, a, b) + Sq(r - b)
  {
  }

  /** Both sides of the split hold an example. */
  predicate Proper(es: seq<Example>, f: nat, t: real) {
    CountLeft(es, f, t) > 0 && CountRight(es, f, t) > 0
  }

  function LeftMean(es: seq<Example>, rs: seq<real>, f: nat, t: real): real
    requires |es| == |rs| && Proper(es, f, t)
  {
    SumLeft(es, rs, f, t) / CountLeft(es, f, t) as real
  }

  function RightMean(es: seq<Example>, rs: seq<real>, f: nat, t: real): real
    requires |es| == |rs| && Proper(es, f, t)
  {
    SumRight(es, rs, f, t) / CountRight(es, f, t) as real
  }

  lemma MeanTimesCount(es: seq<Example>, rs: seq<real>, f: nat, t: real)
    requires |es| == |rs| && Proper(es, f, t)
    ensures LeftMean(es, rs, f, t) * CountLeft(es, f, t) as real == SumLeft(es, rs, f, t)
    ensures RightMean(es, rs, f, t) * CountRight(es, f, t) as real == SumRight(es, rs, f, t)
  {
    hide SumLeft, SumRight, CountLeft, CountRight;
  }

  function SplitError(es: seq<Example>, rs: seq<real>, f: nat, t: real): real
    requires |es| == |rs| && Proper(es, f, t)
  {
    Error(es, rs, f, t, LeftMean(es, rs, f, t), RightMean(es, rs, f, t))
  }

  // ---- What mean leaves do --------------------------------------------------------------------------------

  /** One side: predicting `a` instead of the mean `m` costs `n * (a - m)^2`. */
  lemma SideGap(n: real, s: real, m: real, a: real)
    requires n > 0.0 && m * n == s
    ensures (-2.0 * (a * s) + (a * a) * n) - (-2.0 * (m * s) + (m * m) * n) == n * ((a - m) * (a - m))
  {
  }

  lemma NonNegative(n: real, d: real)
    requires n >= 0.0
    ensures n * (d * d) >= 0.0
  {
  }

  /** No other leaf values fit a split better than the two means. */
  lemma MeansAreBest(es: seq<Example>, rs: seq<real>, f: nat, t: real, a: real, b: real)
    requires |es| == |rs| && Proper(es, f, t)
    ensures SplitError(es, rs, f, t) <= Error(es, rs, f, t, a, b)
  {
    hide Error, SumSquares, SumLeft, SumRight, CountLeft, CountRight, LeftMean, RightMean;
    MeanTimesCount(es, rs, f, t);
    var l, r := LeftMean(es, rs, f, t), RightMean(es, rs, f, t);
    ErrorExpanded(es, rs, f, t, l, r);
    ErrorExpanded(es, rs, f, t, a, b);
    var nl, nr := CountLeft(es, f, t) as real, CountRight(es, f, t) as real;
    SideGap(nl, SumLeft(es, rs, f, t), l, a);
    SideGap(nr, SumRight(es, rs, f, t), r, b);
    NonNegative(nl, a - l);
    NonNegative(nr, b - r);
  }

  /** What a round with learning rate `rate` takes off the squared error. */
  function Gain(es: seq<Example>, rs: seq<real>, f: nat, t: real, rate: real): real
    requires |es| == |rs| && Proper(es, f, t)
  {
    Drop(CountLeft(es, f, t) as real, CountRight(es, f, t) as real, LeftMean(es, rs, f, t), RightMean(es, rs, f, t),
         rate)
  }

  function Drop(nl: real, nr: real, l: real, r: real, rate: real): real {
    (rate * (2.0 - rate)) * (nl * (l * l) + nr * (r * r))
  }

  function ErrorAfter(es: seq<Example>, rs: seq<real>, f: nat, t: real, rate: real): real
    requires |es| == |rs| && Proper(es, f, t)
  {
    Error(es, rs, f, t, Scaled(LeftMean(es, rs, f, t), rate), Scaled(RightMean(es, rs, f, t), rate))
  }

  function Scaled(x: real, rate: real): real {
    x * rate
  }

  /** The squared error after a round with damped mean leaves. */
  lemma RoundDrop(es: seq<Example>, rs: seq<real>, f: nat, t: real, rate: real)
    requires |es| == |rs| && Proper(es, f, t)
    ensures ErrorAfter(es, rs, f, t, rate) == SumSquares(rs) - Gain(es, rs, f, t, rate)
  {
    hide Error, SumSquares, SumLeft, SumRight, CountLeft, CountRight, Expanded, Drop, LeftMean, RightMean, Scaled;
    MeanTimesCount(es, rs, f, t);
    var l, r := LeftMean(es, rs, f, t), RightMean(es, rs, f, t);
    ErrorExpanded(es, rs, f, t, Scaled(l, rate), Scaled(r, rate));
    var nl, nr := CountLeft(es, f, t) as real, CountRight(es, f, t) as real;
    DropTotal(SumSquares(rs), SumLeft(es, rs, f, t), SumRight(es, rs, f, t), nl, nr, l, r, rate);
  }

  lemma DropTotal(q: real, x: real, y: real, nl: real, nr: real, l: real, r: real, rate: real)
    requires nl > 0.0 && nr > 0.0 && l * nl == x && r * nr == y
    ensures Expanded(q, x, y, nl, nr, Scaled(l, rate), Scaled(r, rate)) == q - Drop(nl, nr, l, r, rate)
  {
  }

  lemma GainNonNegative(es: seq<Example>, rs: seq<real>, f: nat, t: real, rate: real)
    requires |es| == |rs| && Proper(es, f, t) && 0.0 <= rate <= 2.0
    ensures Gain(es, rs, f, t, rate) >= 0.0
  {
    hide SumLeft, SumRight, CountLeft, CountRight, LeftMean, RightMean;
    var l, r := LeftMean(es, rs, f, t), RightMean(es, rs, f, t);
    NonNegative(CountLeft(es, f, t) as real, l);
    NonNegative(CountRight(es, f, t) as real, r);
    Arith.Product(rate, 2.0 - rate);
    Arith.Product(rate * (2.0 - rate), CountLeft(es, f, t) as real * (l * l) + CountRight(es, f, t) as real * (r * r));
  }

  // ---- Candidate thresholds -------------------------------------------------------------------------------

  predicate Ascending(xs: seq<real>) {
    forall i, j :: 0 <= i < j < |xs| ==> xs[i] <= xs[j]
  }

  function Insert(x: real, xs: seq<real>): seq<real> {
    if xs == [] || x <= xs[0] then [x] + xs else [xs[0]] + Insert(x, xs[1..])
  }

  function Sorted(xs: seq<real>): seq<real> {
    if xs == [] then [] else Insert(xs[0], Sorted(xs[1..]))
  }

  lemma {:induction false} InsertKeeps(x: real, xs: seq<real>)
    ensures multiset(Insert(x, xs)) == multiset(xs) + multiset{x}
  {
    if xs != [] && x > xs[0] {
      InsertKeeps(x, xs[1..]);
      assert xs == [xs[0]] + xs[1..];
    }
  }

  lemma {:induction false} InsertAscends(x: real, xs: seq<real>)
    requires Ascending(xs)
    ensures Ascending(Insert(x, xs)) && |Insert(x, xs)| == |xs| + 1
    ensures Insert(x, xs)[0] == if xs != [] && x > xs[0] then xs[0] else x
  {
    if xs != [] && x > xs[0] {
      InsertAscends(x, xs[1..]);
      AscendingCons(xs[0], Insert(x, xs[1..]));
    } else {
      AscendingCons(x, xs);
    }
  }

  lemma AscendingCons(x: real, xs: seq<real>)
    requires Ascending(xs) && (xs != [] ==> x <= xs[0])
    ensures Ascending([x] + xs)
  {
  }

  lemma {:induction false} SortedFacts(xs: seq<real>)
    ensures Ascending(Sorted(xs)) && multiset(Sorted(xs)) == multiset(xs)
  {
    if xs != [] {
      SortedFacts(xs[1..]);
      InsertAscends(xs[0], Sorted(xs[1..]));
      InsertKeeps(xs[0], Sorted(xs[1..]));
      assert xs == [xs[0]] + xs[1..];
    }
  }

  /** Quantiles in percent. */
  const QUANTILES: seq<nat> := [10, 20, 35, 50, 65, 80, 90]

  function Position(q: nat, n: nat): (r: nat)
    requires n > 0 && q <= 100
    ensures r < n
  {
    var r := q * (n - 1) / 100;
    if r < n - 1 then r else n - 1
  }

  function Picks(ordered: seq<real>): (ps: seq<real>)
    requires ordered != []
    ensures |ps| == 7 && forall i :: 0 <= i < 7 ==> ps[i] in ordered
  {
    seq(7, i requires 0 <= i < 7 => ordered[Position(QUANTILES[i], |ordered|)])
  }

  /** An ascending list without its repetitions. */
  function Distinct(xs: seq<real>): seq<real> {
    if |xs| <= 1 then xs
    else if xs[0] == xs[1] then Distinct(xs[1..])
    else [xs[0]] + Distinct(xs[1..])
  }

  predicate Increasing(xs: seq<real>) {
    forall i, j :: 0 <= i < j < |xs| ==> xs[i] < xs[j]
  }

  lemma {:induction false} DistinctFacts(xs: seq<real>)
    requires Ascending(xs)
    ensures Increasing(Distinct(xs)) && forall x :: x in Distinct(xs) <==> x in xs
    ensures xs != [] ==> Distinct(xs) != [] && Distinct(xs)[0] == xs[0]
  {
    if |xs| > 1 {
      DistinctFacts(xs[1..]);
      assert xs == [xs[0]] + xs[1..];
    }
  }

  /** `candidate_thresholds`. */
  function Thresholds(values: seq<real>): seq<real> {
    var ordered := Sorted(values);
    if |ordered| < 2 then ordered else Distinct(Picks(ordered))
  }

  lemma PositionsAscend(i: nat, j: nat, n: nat)
    requires i < j < 7 && n > 0
    ensures Position(QUANTILES[i], n) <= Position(QUANTILES[j], n)
  {
  }

  /** Thresholds are measured values, in increasing order. */
  lemma ThresholdFacts(values: seq<real>)
    ensures Increasing(Thresholds(values)) && forall t :: t in Thresholds(values) ==> t in values
    ensures values != [] ==> Thresholds(values) != []
  {
    hide Distinct, Picks, Sorted;
    var ordered := Sorted(values);
    SortedFacts(values);
    SameElements(ordered, values);
    if |ordered| >= 2 {
      PicksAscend(ordered);
      DistinctFacts(Picks(ordered));
    }
  }

  lemma SameElements(xs: seq<real>, ys: seq<real>)
    requires multiset(xs) == multiset(ys)
    ensures |xs| == |ys| && forall x :: x in xs <==> x in ys
  {
    assert |multiset(xs)| == |xs| && |multiset(ys)| == |ys|;
    forall x ensures x in xs <==> x in ys {
      assert x in multiset(xs) <==> x in multiset(ys);
    }
  }

  lemma PicksAscend(ordered: seq<real>)
    requires Ascending(ordered) && ordered != []
    ensures Ascending(Picks(ordered))
  {
    var ps := Picks(ordered);
    forall i, j | 0 <= i < j < 7 ensures ps[i] <= ps[j] {
      PositionsAscend(i, j, |ordered|);
    }
  }

  /** How many values lie below `t`, or not above it. */
  function Lower(xs: seq<real>, t: real): nat {
    if xs == [] then 0 else (if xs[0] < t then 1 else 0) + Lower(xs[1..], t)
  }

  function UpTo(xs: seq<real>, t: real): nat {
    if xs == [] then 0 else (if xs[0] <= t then 1 else 0) + UpTo(xs[1..], t)
  }

  lemma {:induction false} InsertCounts(x: real, xs: seq<real>, t: real)
    ensures Lower(Insert(x, xs), t) == Lower(xs, t) + if x < t then 1 else 0
    ensures UpTo(Insert(x, xs), t) == UpTo(xs, t) + if x <= t then 1 else 0
  {
    if xs == [] || x <= xs[0] {
      assert ([x] + xs)[1..] == xs;
    } else {
      InsertCounts(x, xs[1..], t);
      assert Insert(x, xs)[1..] == Insert(x, xs[1..]);
    }
  }

  lemma {:induction false} SortedCounts(xs: seq<real>, t: real)
    ensures Lower(Sorted(xs), t) == Lower(xs, t) && UpTo(Sorted(xs), t) == UpTo(xs, t)
  {
    if xs != [] {
      SortedCounts(xs[1..], t);
      InsertCounts(xs[0], Sorted(xs[1..]), t);
    }
  }

  /** In an ascending list the value at position `k` is the one with at most `k` values below
      it and more than `k` not above it. */
  lemma {:induction false} RankInOrder(xs: seq<real>, k: nat, t: real)
    requires Ascending(xs) && k < |xs|
    ensures xs[k] == t <==> Lower(xs, t) <= k < UpTo(xs, t)
  {
    if xs[0] > t {
      NoneLower(xs, t);
    } else if k > 0 {
      RankInOrder(xs[1..], k - 1, t);
      if xs[0] == t {
        NoneBelow(xs[1..], t);
      }
    } else {
      NoneBelow(xs[1..], xs[0]);
    }
  }

  lemma {:induction false} NoneLower(xs: seq<real>, t: real)
    requires forall i :: 0 <= i < |xs| ==> xs[i] > t
    ensures UpTo(xs, t) == 0
  {
    if xs != [] {
      NoneLower(xs[1..], t);
    }
  }

  lemma {:induction false} NoneBelow(xs: seq<real>, t: real)
    requires forall i :: 0 <= i < |xs| ==> xs[i] >= t
    ensures Lower(xs, t) == 0
  {
    if xs != [] {
      NoneBelow(xs[1..], t);
    }
  }

  /** `t` is the value of rank `q` percent: at most that share of the values is below it, and
      more is not above it. */
  predicate AtQuantile(values: seq<real>, t: real, q: nat)
    requires values != []
  {
    Lower(values, t) <= Rank(q, |values|) < UpTo(values, t)
  }

  /** The position, counted from zero, that `q` percent of the way through `n` values is. */
  function Rank(q: nat, n: nat): nat
    requires n > 0
  {
    q * (n - 1) / 100
  }

  lemma PositionIs(q: nat, n: nat)
    requires n > 0 && q <= 100
    ensures Position(q, n) == Rank(q, n)
  {
    var x := q * (n - 1);
    Arith.MulLe(q, 100, n - 1);
    assert x <= 100 * (n - 1);
    assert x / 100 <= n - 1;
  }

  lemma AtPosition(values: seq<real>, t: real, q: nat)
    requires values != [] && q <= 100
    ensures |Sorted(values)| == |values|
    ensures Sorted(values)[Position(q, |values|)] == t <==> AtQuantile(values, t, q)
  {
    hide Sorted, Lower, UpTo, Position, Rank;
    PositionIs(q, |values|);
    SortedFacts(values);
    SameElements(Sorted(values), values);
    SortedCounts(values, t);
    RankInOrder(Sorted(values), Position(q, |values|), t);
  }

  /** The thresholds of two or more values are exactly their quantiles at 10, 20, 35, 50, 65,
      80 and 90 percent. */
  lemma ThresholdsAreQuantiles(values: seq<real>, t: real)
    requires |values| >= 2
    ensures t in Thresholds(values) <==>
            || AtQuantile(values, t, 10) || AtQuantile(values, t, 20) || AtQuantile(values, t, 35)
            || AtQuantile(values, t, 50) || AtQuantile(values, t, 65) || AtQuantile(values, t, 80)
            || AtQuantile(values, t, 90)
  {
    hide Sorted, Distinct, Picks, AtQuantile, Position;
    var ordered := Sorted(values);
    SortedFacts(values);
    SameElements(ordered, values);
    PicksAscend(ordered);
    DistinctFacts(Picks(ordered));
    PickedAt(ordered, t);
    AtPosition(values, t, 10);
    AtPosition(values, t, 20);
    AtPosition(values, t, 35);
    AtPosition(values, t, 50);
    AtPosition(values, t, 65);
    AtPosition(values, t, 80);
    AtPosition(values, t, 90);
  }

  lemma PickedAt(ordered: seq<real>, t: real)
    requires ordered != []
    ensures var n := |ordered|;
            t in Picks(ordered) <==>
            || ordered[Position(10, n)] == t || ordered[Position(20, n)] == t || ordered[Position(35, n)] == t
            || ordered[Position(50, n)] == t || ordered[Position(65, n)] == t || ordered[Position(80, n)] == t
            || ordered[Position(90, n)] == t
  {
    hide Position;
    var ps := Picks(ordered);
    assert ps == [ps[0], ps[1], ps[2], ps[3], ps[4], ps[5], ps[6]];
  }

  // ---- The best stump ---------------------------------------------------------------------------------------

  function Column(es: seq<Example>, f: nat): seq<real> {
    seq(|es|, i requires 0 <= i < |es| => Feature(es[i], f))
  }

  function ThresholdsFor(es: seq<Example>, f: nat): seq<real> {
    Thresholds(Column(es, f))
  }

  /** `s` is a split on a candidate threshold, with its mean leaves. */
  predicate IsCandidate(es: seq<Example>, rs: seq<real>, s: Stump)
    requires |es| == |rs|
  {
    && s.feature < FEATURES && s.threshold in ThresholdsFor(es, s.feature) && Proper(es, s.feature, s.threshold)
    && s.left == LeftMean(es, rs, s.feature, s.threshold) && s.right == RightMean(es, rs, s.feature, s.threshold)
  }

  predicate NoBetter(es: seq<Example>, rs: seq<real>, s: Option<Stump>, f: nat, t: real)
    requires |es| == |rs|
  {
    Proper(es, f, t) ==>
      s.Some? && Proper(es, s.value.feature, s.value.threshold)
      && SplitError(es, rs, s.value.feature, s.value.threshold) <= SplitError(es, rs, f, t)
  }

  /** No candidate split is better, up to threshold `k` of feature `f`. */
  predicate BestUpTo(es: seq<Example>, rs: seq<real>, s: Option<Stump>, f: nat, k: nat)
    requires |es| == |rs|
  {
    && (s.Some? ==> IsCandidate(es, rs, s.value))
    && (forall g, j :: 0 <= g < f && 0 <= j < |ThresholdsFor(es, g)| ==>
          NoBetter(es, rs, s, g, ThresholdsFor(es, g)[j]))
    && (forall j :: 0 <= j < k && j < |ThresholdsFor(es, f)| ==> NoBetter(es, rs, s, f, ThresholdsFor(es, f)[j]))
  }

  /** The leaves of one split and its error; not proper when a side is empty. */
  method TrySplit(es: seq<Example>, rs: seq<real>, f: nat, t: real)
    returns (proper: bool, left: real, right: real, sse: real)
    requires |es| == |rs|
    ensures proper == Proper(es, f, t)
    ensures proper ==>
              left == LeftMean(es, rs, f, t) && right == RightMean(es, rs, f, t) && sse == SplitError(es, rs, f, t)
  {
    var nl, nr, sl, sr := 0, 0, 0.0, 0.0;
    var i := 0;
    while i < |es|
      invariant 0 <= i <= |es|
      invariant nl == CountLeft(es[..i], f, t) && nr == CountRight(es[..i], f, t)
      invariant sl == SumLeft(es[..i], rs[..i], f, t) && sr == SumRight(es[..i], rs[..i], f, t)
    {
      Shorter(es, i);
      Shorter(rs, i);
      if GoesLeft(es[i], f, t) {
        nl, sl := nl + 1, sl + rs[i];
      } else {
        nr, sr := nr + 1, sr + rs[i];
      }
      i := i + 1;
    }
    assert es[..i] == es && rs[..i] == rs;
    left, right, sse := 0.0, 0.0, 0.0;
    proper := nl > 0 && nr > 0;
    if proper {
      left, right := sl / nl as real, sr / nr as real;
      sse := ErrorOf(es, rs, f, t, left, right);
    }
  }

  method ErrorOf(es: seq<Example>, rs: seq<real>, f: nat, t: real, a: real, b: real) returns (sse: real)
    requires |es| == |rs|
    ensures sse == Error(es, rs, f, t, a, b)
  {
    hide Sq;
    sse := 0.0;
    var i := 0;
    while i < |es|
      invariant 0 <= i <= |es| && sse == Error(es[..i], rs[..i], f, t, a, b)
    {
      Shorter(es, i);
      Shorter(rs, i);
      sse := sse + Sq(rs[i] - if GoesLeft(es[i], f, t) then a else b);
      i := i + 1;
    }
    assert es[..i] == es && rs[..i] == rs;
  }

  lemma Shorter<T>(xs: seq<T>, i: nat)
    requires i < |xs|
    ensures xs[..i + 1][..|xs[..i + 1]| - 1] == xs[..i] && xs[..i + 1][i] == xs[i] && xs[..i + 1] != []
  {
  }

  lemma FeatureDone(es: seq<Example>, rs: seq<real>, s: Option<Stump>, f: nat)
    requires |es| == |rs| && BestUpTo(es, rs, s, f, |ThresholdsFor(es, f)|)
    ensures BestUpTo(es, rs, s, f + 1, 0)
  {
  }

  /** `best_stump`: of all candidate splits one with the least squared error; the zero stump
      when no candidate separates the examples. */
  method BestStump(es: seq<Example>, rs: seq<real>, mode: nat) returns (stump: Stump)
    requires |es| == |rs|
    ensures stump.mode == mode && stump.feature < FEATURES
    ensures IsBest(es, rs, stump)
  {
    hide BestUpTo, IsCandidate, NoBetter, SplitError, ThresholdsFor, Proper;
    var best: Option<Stump> := None;
    var bestSse := 0.0;
    var f := 0;
    NothingTried(es, rs);
    while f < FEATURES
      invariant 0 <= f <= FEATURES && BestUpTo(es, rs, best, f, 0)
      invariant best.Some? ==> Fits(es, rs, best.value, mode, bestSse)
    {
      var ts := ThresholdsFor(es, f);
      var k := 0;
      while k < |ts|
        invariant 0 <= k <= |ts| && BestUpTo(es, rs, best, f, k)
        invariant best.Some? ==> Fits(es, rs, best.value, mode, bestSse)
      {
        var proper, left, right, sse := TrySplit(es, rs, f, ts[k]);
        ghost var before := best;
        Tried(es, rs, best, f, k, mode, bestSse);
        if proper && (best.None? || sse < bestSse) {
          best, bestSse := Some(Stump(mode, f, ts[k], left, right)), sse;
        }
        k := k + 1;
      }
      FeatureDone(es, rs, best, f);
      f := f + 1;
    }
    Chosen(es, rs, best);
    stump := if best.None? then Stump(mode, 0, 0.0, 0.0, 0.0) else best.value;
  }

  predicate Fits(es: seq<Example>, rs: seq<real>, s: Stump, mode: nat, sse: real)
    requires |es| == |rs|
  {
    IsCandidate(es, rs, s) && s.mode == mode && sse == SplitError(es, rs, s.feature, s.threshold)
  }

  lemma NothingTried(es: seq<Example>, rs: seq<real>)
    requires |es| == |rs|
    ensures BestUpTo(es, rs, None, 0, 0)
  {
  }

  /** One turn of the search, for both outcomes of the comparison. */
  lemma Tried(es: seq<Example>, rs: seq<real>, s: Option<Stump>, f: nat, k: nat, mode: nat, sse: real)
    requires |es| == |rs| && f < FEATURES && k < |ThresholdsFor(es, f)| && BestUpTo(es, rs, s, f, k)
    requires s.Some? ==> Fits(es, rs, s.value, mode, sse)
    ensures var t := ThresholdsFor(es, f)[k];
            if Proper(es, f, t) && (s.None? || SplitError(es, rs, f, t) < sse)
            then var s' := Stump(mode, f, t, LeftMean(es, rs, f, t), RightMean(es, rs, f, t));
                 BestUpTo(es, rs, Some(s'), f, k + 1) && Fits(es, rs, s', mode, SplitError(es, rs, f, t))
            else BestUpTo(es, rs, s, f, k + 1)
  {
  }

  /** A least-error candidate, or the zero stump when there is no candidate. */
  ghost predicate IsBest(es: seq<Example>, rs: seq<real>, s: Stump)
    requires |es| == |rs|
  {
    if IsCandidate(es, rs, s)
    then forall c: Stump :: IsCandidate(es, rs, c) ==>
           SplitError(es, rs, s.feature, s.threshold) <= SplitError(es, rs, c.feature, c.threshold)
    else s.feature == 0 && s.left == 0.0 && s.right == 0.0 && forall c: Stump :: !IsCandidate(es, rs, c)
  }

  lemma Chosen(es: seq<Example>, rs: seq<real>, s: Option<Stump>)
    requires |es| == |rs| && BestUpTo(es, rs, s, FEATURES, 0)
    ensures s.Some? ==> IsCandidate(es, rs, s.value) && IsBest(es, rs, s.value) && s.value.feature < FEATURES
    ensures s.None? ==> forall c: Stump :: !IsCandidate(es, rs, c)
  {
  }

  /** The chosen stump has the least error of all stumps over the candidate splits,
      whatever their leaf values. */
  lemma BestOverLeaves(es: seq<Example>, rs: seq<real>, s: Stump, f: nat, t: real, a: real, b: real)
    requires |es| == |rs| && IsBest(es, rs, s) && IsCandidate(es, rs, s)
    requires f < FEATURES && t in ThresholdsFor(es, f) && Proper(es, f, t)
    ensures Error(es, rs, s.feature, s.threshold, s.left, s.right) <= Error(es, rs, f, t, a, b)
  {
    hide Error, Proper, ThresholdsFor, LeftMean, RightMean;
    MeansAreBest(es, rs, f, t, a, b);
    assert IsCandidate(es, rs, Stump(0, f, t, LeftMean(es, rs, f, t), RightMean(es, rs, f, t)));
  }
}
