/** The cost model of include/my_ptmalloc/generated_selector_model.h: a bias per mode and
    seventy one-split trees, ten for each mode but the last. */
module ModelTables {
  const MODES: nat := 8
  const FEATURES: nat := 10
  const TREE_COUNT: nat := 70
  const PER_MODE: nat := 10
  const SWITCH_COST: real := 0.0101525439468

  datatype Tree = Tree(mode: nat, feature: nat, threshold: real, left: real, right: real)

  const BIAS: seq<real> := [0.280339903849, 0.29428866545, 0.285576343935, 0.303699426589, 0.282038940822,
                            0.296176714338, 0.298555930478, 10.0]

  const TREES: seq<seq<Tree>> := [
    [
      Tree(0, 3, 0.94, -0.0376149267183, 0.143478131863),
      Tree(0, 3, 0.94, -0.0244497023669, 0.0932607857107),
      Tree(0, 3, 0.048, -0.0296103304308, 0.0279023310681),
      Tree(0, 3, 0.94, -0.0122385013959, 0.0508536948381),
      Tree(0, 2, 5375.15, -0.0103469311174, 0.047406332905),
      Tree(0, 3, 0.94, -0.00770254041756, 0.0366763275358),
      Tree(0, 2, 5375.15, -0.00661838337743, 0.0335100055344),
      Tree(0, 4, 1.724, 0.0156339630823, -0.0127330202054),
      Tree(0, 2, 4776.399, -0.00855195859882, 0.0149327944958),
      Tree(0, 4, 0.947, 0.0223591736067, -0.00608432683145)
    ],
    [
      Tree(1, 3, 0.94, -0.0205354729895, 0.143524807261),
      Tree(1, 5, 0.0, -0.0384100360534, 0.0556143080914),
      Tree(1, 5, 0.0, -0.0249665234347, 0.0361493002594),
      Tree(1, 3, 0.94, -0.00926594787021, 0.0611738617969),
      Tree(1, 3, 0.94, -0.00602286611563, 0.039763010168),
      Tree(1, 5, 0.0, -0.0108771553375, 0.0152884667028),
      Tree(1, 3, 0.048, -0.00825550549522, 0.0115179760579),
      Tree(1, 5, 0.0, -0.00591090368196, 0.00821311791772),
      Tree(1, 6, 0.220415537489, 0.0169047402786, -0.0019250119748),
      Tree(1, 5, 0.004, -0.00265997947511, 0.0125724653761)
    ],
    [
      Tree(2, 3, 0.94, -0.0316008115865, 0.145881275706),
      Tree(2, 3, 0.048, -0.0391999582746, 0.0427931657066),
      Tree(2, 3, 0.94, -0.0163864065996, 0.0798452212114),
      Tree(2, 3, 0.94, -0.0106511642897, 0.0518993937874),
      Tree(2, 2, 5375.15, -0.00920301135317, 0.0474131333509),
      Tree(2, 3, 0.94, -0.00700481125578, 0.0369556599354),
      Tree(2, 2, 4776.399, -0.0108558760998, 0.0189671178527),
      Tree(2, 2, 5375.15, -0.00479585992998, 0.0266317293692),
      Tree(2, 3, 0.94, -0.00438764504274, 0.0249326406195),
      Tree(2, 5, 0.184, 0.0027636925859, -0.0266929581273)
    ],
    [
      Tree(3, 2, 124.121, -0.0411574236635, 0.0217730812269),
      Tree(3, 2, 124.121, -0.0267523253813, 0.0141525027975),
      Tree(3, 6, 0.686127744511, 0.0249304030508, -0.00241101133783),
      Tree(3, 3, 0.048, -0.00436788290321, 0.014015089577),
      Tree(3, 4, 2.839, 0.00477836792603, -0.0231826662427),
      Tree(3, 2, 124.121, -0.0166888272876, 0.00451187187),
      Tree(3, 0, 0.599, -0.00203783603922, 0.013244647474),
      Tree(3, 4, 2.839, 0.00246006846556, -0.0180741932904),
      Tree(3, 3, 0.048, -0.00438342798862, 0.00679499321147),
      Tree(3, 5, 0.004, -0.00189188123848, 0.0101853128906)
    ],
    [
      Tree(4, 3, 0.94, -0.0306939230118, 0.114440031376),
      Tree(4, 3, 0.94, -0.0199510499577, 0.0743860203946),
      Tree(4, 3, 0.048, -0.0255383842776, 0.0242317851773),
      Tree(4, 5, 0.184, 0.00325954145439, -0.0577798886644),
      Tree(4, 3, 0.94, -0.00852917177538, 0.0387289489354),
      Tree(4, 4, 0.947, 0.0273408739635, -0.00851999270804),
      Tree(4, 3, 0.048, -0.0112395043359, 0.0132331826061),
      Tree(4, 4, 1.724, 0.0111082636422, -0.00918569902954),
      Tree(4, 2, 5375.15, -0.00481016684427, 0.0266392976912),
      Tree(4, 2, 124.121, 0.0216670386399, -0.00385185763888)
    ],
    [
      Tree(5, 3, 0.94, -0.0197028792094, 0.152406403909),
      Tree(5, 3, 0.94, -0.0128068714861, 0.0990641625407),
      Tree(5, 3, 0.048, -0.0220623696362, 0.0342314618001),
      Tree(5, 5, 0.0, -0.0174226876572, 0.0263599800283),
      Tree(5, 3, 0.94, -0.00618028797751, 0.0431847010115),
      Tree(5, 2, 5375.15, -0.00491922106541, 0.0334822589377),
      Tree(5, 3, 0.94, -0.004535546146, 0.0297917830304),
      Tree(5, 2, 5375.15, -0.00361248007671, 0.0233509094606),
      Tree(5, 3, 0.94, -0.00325660135773, 0.0206290269966),
      Tree(5, 4, 0.947, 0.0143127367946, -0.00357149427227)
    ],
    [
      Tree(6, 2, 124.121, -0.0428340149452, 0.0157517303709),
      Tree(6, 4, 0.947, -0.0231033679175, 0.0120091200204),
      Tree(6, 2, 124.121, -0.0197559309432, 0.00693153268652),
      Tree(6, 5, 0.0, 0.010903070102, -0.00980688601453),
      Tree(6, 2, 124.121, -0.0166574296488, 0.00431366403094),
      Tree(6, 5, 0.0, 0.00741218385244, -0.00788425832027),
      Tree(6, 0, 0.599, -0.00246695509692, 0.0129265430632),
      Tree(6, 2, 124.121, -0.0125581593361, 0.0025152421043),
      Tree(6, 5, 0.0, 0.00477301058852, -0.00581513390527),
      Tree(6, 2, 124.121, -0.00983335727448, 0.00181727894823)
    ]
  ]

  /** Trees of row `m` from position `k` on belong to mode `m`, read an existing feature and
      move the cost by less than 0.16. */
  predicate RowOk(m: nat, k: nat)
    requires m < 7
    decreases PER_MODE - k
  {
    && |TREES| == 7 && |TREES[m]| == PER_MODE
    && (k >= PER_MODE || (TreeOk(TREES[m][k], m) && RowOk(m, k + 1)))
  }

  predicate TreeOk(t: Tree, m: nat) {
    t.mode == m && t.feature < FEATURES && -0.16 < t.left < 0.16 && -0.16 < t.right < 0.16
  }

  lemma RowsOk(m: nat)
    requires m < 7
    ensures RowOk(m, 0)
  {
  }

  lemma {:induction false} RowAt(m: nat, k: nat)
    requires m < 7 && k < PER_MODE
    ensures RowOk(m, k) && TreeOk(TREES[m][k], m)
  {
    hide TreeOk;
    if k == 0 {
      RowsOk(m);
    } else {
      RowAt(m, k - 1);
    }
  }

  /** Tree `i` of the table in its stored order. */
  function TreeAt(i: nat): (t: Tree)
    requires i < TREE_COUNT
    ensures TreeOk(t, i / PER_MODE)
  {
    RowAt(i / PER_MODE, i % PER_MODE);
    TREES[i / PER_MODE][i % PER_MODE]
  }

  function BiasOf(m: nat): (b: real)
    requires m < MODES
    ensures if m == 7 then b == 10.0 else 0.0 < b < 0.31
  {
    BIAS[m]
  }
}
