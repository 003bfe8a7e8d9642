/** What the run-time scorer computes: the prediction of the trained model, tree by tree, and
    its values at two concrete feature vectors. */
module ModelScores {
  import opened ModelTables
  import opened ModelSelector
  import Stumps
  import Boosting

  function StumpOf(t: Tree): Stumps.Stump {
    Stumps.Stump(t.mode, t.feature, t.threshold, t.left, t.right)
  }

  /** The first `n` trees of the generated table, as the trainer holds them. */
  function Trees(n: nat): (ts: seq<Stumps.Stump>)
    requires n <= TREE_COUNT
    ensures |ts| == n
  {
    if n == 0 then [] else Trees(n - 1) + [StumpOf(TreeAt(n - 1))]
  }

  lemma {:induction false} ScoreIsPrediction(v: Vector, m: nat, target: real, n: nat)
    requires m < MODES && n <= TREE_COUNT
    ensures Score(v, m, n) == Boosting.Predict(Stumps.Example(m, v, target), m, BiasOf(m), Trees(n))
  {
    hide BiasOf, TreeAt;
    if n > 0 {
      ScoreIsPrediction(v, m, target, n - 1);
      assert Trees(n)[..n - 1] == Trees(n - 1);
    }
  }

  /** The cost the selector predicts for a mode is what the trainer's `predict` gives for the
      generated biases and trees, plus the switching cost for every mode but the present one. */
  lemma CostIsPrediction(v: Vector, m: nat, current: nat, target: real)
    requires m < MODES
    ensures Cost(v, m, current)
            == Boosting.Predict(Stumps.Example(m, v, target), m, BiasOf(m), Trees(TREE_COUNT))
               + if m == current then 0.0 else SWITCH_COST
  {
    hide Score;
    ScoreIsPrediction(v, m, target, TREE_COUNT);
  }

  // ---- Values ---------------------------------------------------------------------------------------------

  /** Tree `k` of mode `m`. */
  function OwnTree(m: nat, k: nat): (t: Tree)
    requires m < 7 && k < PER_MODE
    ensures t.mode == m && t.feature < FEATURES
  {
    RowAt(m, k);
    TREES[m][k]
  }

  /** Bias plus the first `k` trees of mode `m`, read from its own row of the table. */
  function RowScore(v: Vector, m: nat, k: nat): real
    requires m < 7 && k <= PER_MODE
  {
    if k == 0 then BiasOf(m) else RowScore(v, m, k - 1) + Leaf(OwnTree(m, k - 1), v)
  }

  lemma TableOrder(i: nat)
    requires i < TREE_COUNT
    ensures i / PER_MODE < 7 && TreeAt(i) == OwnTree(i / PER_MODE, i % PER_MODE)
  {
  }

  lemma {:induction false} ScoreOverRow(v: Vector, m: nat, n: nat)
    requires m < 7 && n <= TREE_COUNT
    ensures Score(v, m, n) == RowScore(v, m, Used(m, n))
  {
    hide BiasOf, TreeAt, OwnTree, Leaf;
    if n > 0 {
      ScoreOverRow(v, m, n - 1);
      UsedNext(m, n - 1);
      TableOrder(n - 1);
      OwnPosition(m, n - 1);
    }
  }

  lemma OwnPosition(m: nat, i: nat)
    requires m < 7 && i < TREE_COUNT
    ensures m * PER_MODE <= i < (m + 1) * PER_MODE <==> i / PER_MODE == m
    ensures i / PER_MODE == m ==> Used(m, i) == i % PER_MODE
  {
  }

  function Constant(x: real): Vector {
    seq(FEATURES, _ => x)
  }

  /** At the all-zero vector every tree goes left, ties included. */
  lemma ZeroRows0()
    ensures RowScore(Constant(0.0), 0, 10) == 0.18119976611489
    ensures RowScore(Constant(0.0), 1, 10) == 0.18428901527537
  {
  }

  lemma ZeroRows2()
    ensures RowScore(Constant(0.0), 2, 10) == 0.15425449208903
    ensures RowScore(Constant(0.0), 3, 10) == 0.23858866152946
  {
  }

  lemma ZeroRows4()
    ensures RowScore(Constant(0.0), 4, 10) == 0.24465245831934
    ensures RowScore(Constant(0.0), 5, 10) == 0.21599050652034
  {
  }

  lemma ZeroRows6()
    ensures RowScore(Constant(0.0), 6, 10) == 0.19443497985876
  {
  }

  /** At a vector beyond every threshold every tree goes right. */
  lemma HighRows0()
    ensures RowScore(Constant(10000.0), 0, 10) == 0.70954296076305
    ensures RowScore(Constant(10000.0), 1, 10) == 0.67618096710642
    ensures RowScore(Constant(10000.0), 2, 10) == 0.7342027233468
  {
  }

  lemma HighRows3()
    ensures RowScore(Constant(10000.0), 3, 10) == 0.34470905476554
    ensures RowScore(Constant(10000.0), 4, 10) == 0.49436076896174
  {
  }

  lemma HighRows5()
    ensures RowScore(Constant(10000.0), 5, 10) == 0.75510590778063
    ensures RowScore(Constant(10000.0), 6, 10) == 0.33131476346242
  {
  }

  /** The predicted costs, before the cost of switching, at the two vectors. */
  lemma RawValues(m: nat)
    requires m < MODES
    ensures Raw(Constant(0.0), m)
            == [0.18119976611489, 0.18428901527537, 0.15425449208903, 0.23858866152946, 0.24465245831934,
                0.21599050652034, 0.19443497985876, 10.0][m]
    ensures Raw(Constant(10000.0), m)
            == [0.70954296076305, 0.67618096710642, 0.7342027233468, 0.34470905476554, 0.49436076896174,
                0.75510590778063, 0.33131476346242, 10.0][m]
  {
    hide Score, RowScore, Constant, BiasOf;
    ZeroRows0();
    ZeroRows2();
    ZeroRows4();
    ZeroRows6();
    HighRows0();
    HighRows3();
    HighRows5();
    if m < 7 {
      ScoreOverRow(Constant(0.0), m, TREE_COUNT);
      ScoreOverRow(Constant(10000.0), m, TREE_COUNT);
      AllUsed(m);
    } else {
      RawBounds(Constant(0.0), m);
      RawBounds(Constant(10000.0), m);
    }
  }

  lemma AllUsed(m: nat)
    requires m < 7
    ensures Used(m, TREE_COUNT) == 10
  {
  }

  /** With the balanced mode active, a window without any signal chooses the latency mode by
      more than the hysteresis of 0.015; one with every signal at its height would choose the
      large-object mode, but by less. */
  lemma ConcreteChoices()
    ensures Choice(Constant(0.0), 0) == 2 && Confidence(Constant(0.0), 0) == 0.01679273007906
    ensures Choice(Constant(10000.0), 0) == 6 && Confidence(Constant(10000.0), 0) == 0.01339429130312
  {
    hide Raw, Constant, Choice, Confidence;
    RawValues(0);
    RawValues(1);
    RawValues(2);
    RawValues(3);
    RawValues(4);
    RawValues(5);
    RawValues(6);
    RawValues(7);
    ChoiceFacts(Constant(0.0), 0);
    ChoiceFacts(Constant(10000.0), 0);
    assert Cost(Constant(0.0), Choice(Constant(0.0), 0), 0) <= Cost(Constant(0.0), 2, 0);
    assert Cost(Constant(10000.0), Choice(Constant(10000.0), 0), 0) <= Cost(Constant(10000.0), 6, 0);
    assert Confidence(Constant(0.0), 0) <= Cost(Constant(0.0), 0, 0) - Cost(Constant(0.0), 2, 0);
    assert Confidence(Constant(10000.0), 0) <= Cost(Constant(10000.0), 3, 0) - Cost(Constant(10000.0), 6, 0);
  }
}
