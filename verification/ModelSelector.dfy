/** Cost prediction and mode choice of src/adaptive_model_selector.cpp, over reals.  The two
    logarithmic features enter as arbitrary reals. */
module ModelSelector {
  import opened ModelTables

  const HARDENED: nat := 7
  /** 1e100, above every cost. */
  const HUGE: real :=
    10000000000000000000000000000000000000000000000000000000000000000000000000000000000000000000000000000.0
  /** 1e90. */
  const BOUND: real := 1000000000000000000000000000000000000000000000000000000000000000000000000000000000000000000.0

  type Vector = v: seq<real> | |v| == FEATURES witness seq(FEATURES, _ => 0.0)

  function Leaf(t: Tree, v: Vector): real
    requires t.feature < FEATURES
  {
    if v[t.feature] <= t.threshold then t.left else t.right
  }

  /** Bias of mode `m` plus its trees among the first `n`. */
  function Score(v: Vector, m: nat, n: nat): real
    requires m < MODES && n <= TREE_COUNT
  {
    if n == 0 then BiasOf(m)
    else Score(v, m, n - 1) + if TreeAt(n - 1).mode == m then Leaf(TreeAt(n - 1), v) else 0.0
  }

  /** Predicted cost of a mode before the cost of switching to it. */
  function Raw(v: Vector, m: nat): real
    requires m < MODES
  {
    Score(v, m, TREE_COUNT)
  }

  function Cost(v: Vector, m: nat, current: nat): real
    requires m < MODES
  {
    Raw(v, m) + if m != current then SWITCH_COST else 0.0
  }

  /** Trees of mode `m` among the first `n`. */
  function Used(m: nat, n: nat): nat {
    if n <= m * PER_MODE then 0 else if n >= (m + 1) * PER_MODE then PER_MODE else n - m * PER_MODE
  }

  lemma {:induction false} ScoreBounds(v: Vector, m: nat, n: nat)
    requires m < MODES && n <= TREE_COUNT
    ensures BiasOf(m) - 0.16 * Used(m, n) as real <= Score(v, m, n) <= BiasOf(m) + 0.16 * Used(m, n) as real
  {
    hide BiasOf, TreeAt;
    if n > 0 {
      ScoreBounds(v, m, n - 1);
      var t := TreeAt(n - 1);
      assert t.mode == (n - 1) / PER_MODE;
      assert t.mode == m <==> m * PER_MODE <= n - 1 < (m + 1) * PER_MODE;
      UsedNext(m, n - 1);
    }
  }

  lemma UsedNext(m: nat, n: nat)
    ensures Used(m, n + 1) == Used(m, n) + if m * PER_MODE <= n < (m + 1) * PER_MODE then 1 else 0
  {
  }

  /** The debug mode costs 10 on every input, every other mode less than 2. */
  lemma RawBounds(v: Vector, m: nat)
    requires m < MODES
    ensures if m == HARDENED then Raw(v, m) == 10.0 else -2.0 < Raw(v, m) < 2.0
  {
    ScoreBounds(v, m, TREE_COUNT);
    assert m == HARDENED ==> Used(m, TREE_COUNT) == 0;
  }

  /** `predict_cost`. */
  method PredictCost(v: Vector, candidate: nat, current: nat) returns (score: real)
    requires candidate < MODES
    ensures score == Cost(v, candidate, current)
  {
    hide BiasOf, TreeAt;
    score := BiasOf(candidate);
    var i := 0;
    while i < TREE_COUNT
      invariant 0 <= i <= TREE_COUNT && score == Score(v, candidate, i)
    {
      var tree := TreeAt(i);
      if tree.mode == candidate {
        score := score + if v[tree.feature] <= tree.threshold then tree.left else tree.right;
      }
      i := i + 1;
    }
    if candidate != current {
      score := score + SWITCH_COST;
    }
  }

  // ---- The choice -------------------------------------------------------------------------------------

  datatype Pick = Pick(mode: nat, best: real, second: real)

  /** The running choice after the first `n` candidates. */
  function PickAmong(v: Vector, current: nat, n: nat): (p: Pick)
    requires n <= MODES
    ensures p.mode < MODES
  {
    if n == 0 then Pick(0, HUGE, HUGE)
    else
      var p, cost := PickAmong(v, current, n - 1), Cost(v, n - 1, current);
      if cost < p.best then Pick(n - 1, cost, p.best)
      else if cost < p.second then p.(second := cost)
      else p
  }

  function Choice(v: Vector, current: nat): (m: nat)
    ensures m < MODES
  {
    PickAmong(v, current, MODES).mode
  }

  function Confidence(v: Vector, current: nat): real {
    var p := PickAmong(v, current, MODES);
    if p.second < BOUND then p.second - p.best else 0.0
  }

  lemma CostBounds(v: Vector, m: nat, current: nat)
    requires m < MODES
    ensures -2.0 < Cost(v, m, current) < 11.0
  {
    hide Raw;
    RawBounds(v, m);
  }

  /** What the running choice is: the first of the cheapest candidates, and the cheapest
      of the others. */
  lemma {:induction false} PickFacts(v: Vector, current: nat, n: nat)
    requires n <= MODES
    ensures var p := PickAmong(v, current, n);
            && (n > 0 ==> p.mode < n && p.best == Cost(v, p.mode, current))
            && (forall k :: 0 <= k < n ==> p.best <= Cost(v, k, current))
            && (forall k :: 0 <= k < p.mode && k < n ==> p.best < Cost(v, k, current))
            && (forall k :: 0 <= k < n && k != p.mode ==> p.second <= Cost(v, k, current))
            && (n <= 1 ==> p.second == HUGE)
            && (n > 1 ==> exists k :: 0 <= k < n && k != p.mode && p.second == Cost(v, k, current))
  {
    hide Cost;
    if n > 0 {
      PickFacts(v, current, n - 1);
      CostBounds(v, n - 1, current);
      if n > 1 {
        SecondIs(v, current, n);
      }
    }
  }

  lemma SecondIs(v: Vector, current: nat, n: nat)
    requires 1 < n <= MODES
    requires var p := PickAmong(v, current, n - 1);
             && p.mode < n - 1 && p.best == Cost(v, p.mode, current)
             && (n > 2 ==> exists k :: 0 <= k < n - 1 && k != p.mode && p.second == Cost(v, k, current))
             && (n == 2 ==> p.second == HUGE)
    ensures var q := PickAmong(v, current, n);
            exists k :: 0 <= k < n && k != q.mode && q.second == Cost(v, k, current)
  {
    hide Cost;
    var p, q, cost := PickAmong(v, current, n - 1), PickAmong(v, current, n), Cost(v, n - 1, current);
    CostBounds(v, n - 1, current);
    if cost < p.best {
      assert q.second == Cost(v, p.mode, current) && p.mode != q.mode;
    } else if cost < p.second {
      assert q.second == Cost(v, n - 1, current) && n - 1 != q.mode;
    } else {
      var k :| 0 <= k < n - 1 && k != p.mode && p.second == Cost(v, k, current);
      assert q.second == Cost(v, k, current) && k != q.mode;
    }
  }

  /** `adaptive_model_select_mode`. */
  method SelectMode(v: Vector, current: nat) returns (mode: nat, confidence: real, costs: seq<real>)
    ensures mode == Choice(v, current) && confidence == Confidence(v, current)
    ensures |costs| == MODES && forall k :: 0 <= k < MODES ==> costs[k] == Cost(v, k, current)
  {
    hide Cost;
    mode := 0;
    costs := [];
    var best, second := HUGE, HUGE;
    var i := 0;
    while i < MODES
      invariant 0 <= i <= MODES && Pick(mode, best, second) == PickAmong(v, current, i)
      invariant |costs| == i && forall k :: 0 <= k < i ==> costs[k] == Cost(v, k, current)
    {
      var cost := PredictCost(v, i, current);
      costs := costs + [cost];
      if cost < best {
        second := best;
        best := cost;
        mode := i;
      } else if cost < second {
        second := cost;
      }
      i := i + 1;
    }
    confidence := if second < BOUND then second - best else 0.0;
  }

  // ---- What the choice guarantees --------------------------------------------------------------------

  /** The choice is the cheapest mode, and confidence is its lead over every other. */
  lemma ChoiceFacts(v: Vector, current: nat)
    ensures var m, lead := Choice(v, current), Confidence(v, current);
            && (forall k :: 0 <= k < MODES ==> Cost(v, m, current) <= Cost(v, k, current))
            && (forall k :: 0 <= k < MODES && k != m ==> lead <= Cost(v, k, current) - Cost(v, m, current))
            && (exists k :: 0 <= k < MODES && k != m && lead == Cost(v, k, current) - Cost(v, m, current))
  {
    hide Cost;
    PickFacts(v, current, MODES);
    var p := PickAmong(v, current, MODES);
    var k :| 0 <= k < MODES && k != p.mode && p.second == Cost(v, k, current);
    CostBounds(v, k, current);
    assert Confidence(v, current) == Cost(v, k, current) - Cost(v, p.mode, current);
  }

  /** A confident choice of another mode means that the present one is dearer by more than
      the switching cost and the hysteresis together. */
  lemma SwitchMargin(v: Vector, current: nat)
    requires current < MODES && Choice(v, current) != current && Confidence(v, current) > 0.015
    ensures Raw(v, current) > Raw(v, Choice(v, current)) + SWITCH_COST + 0.015
  {
    hide Raw, Choice, Confidence;
    ChoiceFacts(v, current);
    assert Confidence(v, current) <= Cost(v, current, current) - Cost(v, Choice(v, current), current);
  }

  /** Once the chosen mode is the present one, the same features choose it again. */
  lemma ChoiceIsSettled(v: Vector, current: nat)
    requires current < MODES
    ensures Choice(v, Choice(v, current)) == Choice(v, current)
  {
    hide Raw, Choice, Confidence;
    var m := Choice(v, current);
    var again := Choice(v, m);
    ChoiceFacts(v, current);
    ChoiceFacts(v, m);
    assert Cost(v, m, current) <= Cost(v, again, current);
    assert Cost(v, again, m) <= Cost(v, m, m);
    if current == m {
      assert again == m;
    } else if again != m {
      assert false;
    }
  }

  /** No features make the debug mode the cheapest. */
  lemma NeverHardened(v: Vector, current: nat)
    ensures Choice(v, current) != HARDENED
  {
    hide Raw, Choice;
    ChoiceFacts(v, current);
    RawBounds(v, 0);
    RawBounds(v, HARDENED);
    assert Cost(v, Choice(v, current), current) <= Cost(v, 0, current);
  }
}
