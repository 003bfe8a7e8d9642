/** Row identifiers of tools/train_selector_model.py.  The normalised rows come out grouped
    by workload and are numbered in that order, while the callers look them up by the
    position of the row in the input. */
module RowOrder {

  /** Workloads in order of first appearance. */
  function Keys(ws: seq<string>, n: nat): seq<string>
    requires n <= |ws|
  {
    if n == 0 then []
    else Keys(ws, n - 1) + if ws[n - 1] in Keys(ws, n - 1) then [] else [ws[n - 1]]
  }

  /** Rows of one workload among the first `n`. */
  function Members(ws: seq<string>, w: string, n: nat): seq<nat>
    requires n <= |ws|
  {
    if n == 0 then []
    else Members(ws, w, n - 1) + if ws[n - 1] == w then [n - 1] else []
  }

  /** The rows of the first `k` workloads. */
  function Concat(ws: seq<string>, k: nat): seq<nat>
    requires k <= |Keys(ws, |ws|)|
  {
    if k == 0 then [] else Concat(ws, k - 1) + Members(ws, Keys(ws, |ws|)[k - 1], |ws|)
  }

  /** Row that stands at each position of the grouped list. */
  function GroupedOrder(ws: seq<string>): seq<nat> {
    Concat(ws, |Keys(ws, |ws|)|)
  }

  /** The grouping of `normalized_metric_rows`. */
  method GroupRows(ws: seq<string>) returns (order: seq<nat>)
    ensures order == GroupedOrder(ws)
  {
    hide Keys, Members;
    var keys: seq<string>, groups: map<string, seq<nat>> := [], map[];
    NothingYet(ws);
    var i := 0;
    while i < |ws|
      invariant 0 <= i <= |ws| && keys == Keys(ws, i) && (forall w :: w in groups <==> w in keys)
      invariant forall w :: w in groups ==> groups[w] == Members(ws, w, i)
    {
      var w := ws[i];
      OneMore(ws, i);
      if w !in groups {
        NoMembers(ws, w, i);
        keys := keys + [w];
        groups := groups[w := []];
      }
      groups := groups[w := groups[w] + [i]];
      i := i + 1;
    }
    order := [];
    var k := 0;
    while k < |keys|
      invariant 0 <= k <= |keys| && order == Concat(ws, k)
    {
      assert keys[k] in keys;
      order := order + groups[keys[k]];
      k := k + 1;
    }
  }

  lemma NothingYet(ws: seq<string>)
    ensures Keys(ws, 0) == []
  {
  }

  lemma {:induction false} OneMore(ws: seq<string>, i: nat)
    requires i < |ws|
    ensures Keys(ws, i + 1) == Keys(ws, i) + if ws[i] in Keys(ws, i) then [] else [ws[i]]
    ensures forall w :: Members(ws, w, i + 1) == Members(ws, w, i) + if ws[i] == w then [i] else []
  {
  }

  lemma {:induction false} KeysHold(ws: seq<string>, n: nat)
    requires n <= |ws|
    ensures forall w :: w in Keys(ws, n) <==> exists i :: 0 <= i < n && ws[i] == w
  {
    if n > 0 {
      KeysHold(ws, n - 1);
      forall w ensures w in Keys(ws, n) <==> exists i :: 0 <= i < n && ws[i] == w {
        if w in Keys(ws, n) && w in Keys(ws, n - 1) {
          var i :| 0 <= i < n - 1 && ws[i] == w;
        }
      }
    }
  }

  lemma {:induction false} NoMembers(ws: seq<string>, w: string, n: nat)
    requires n <= |ws| && w !in Keys(ws, n)
    ensures Members(ws, w, n) == []
  {
    if n > 0 {
      NoMembers(ws, w, n - 1);
      KeysHold(ws, n);
    }
  }

  // ---- What the order is ----------------------------------------------------------------------------------

  /** Position of the first row of the same workload. */
  function First(ws: seq<string>, w: string): (r: nat)
    ensures r <= |ws|
    ensures r < |ws| ==> ws[r] == w
    ensures forall i :: 0 <= i < r ==> ws[i] != w
  {
    if ws == [] then 0
    else if ws[0] == w then 0
    else
      var r := First(ws[1..], w);
      assert forall i :: 1 <= i < r + 1 ==> ws[i] == ws[1..][i - 1];
      r + 1
  }

  function FirstOf(ws: seq<string>, i: nat): nat
    requires i < |ws|
  {
    First(ws, ws[i])
  }

  lemma FirstIs(ws: seq<string>, i: nat)
    requires i < |ws|
    ensures FirstOf(ws, i) <= i && ws[FirstOf(ws, i)] == ws[i]
  {
  }

  /** By first appearance of the workload, then by position. */
  predicate Before(ws: seq<string>, i: nat, j: nat)
    requires i < |ws| && j < |ws|
  {
    FirstOf(ws, i) < FirstOf(ws, j) || (FirstOf(ws, i) == FirstOf(ws, j) && i < j)
  }

  predicate InOrder(ws: seq<string>, order: seq<nat>) {
    && (forall p :: 0 <= p < |order| ==> order[p] < |ws|)
    && (forall p, q :: 0 <= p < q < |order| ==> Before(ws, order[p], order[q]))
  }

  lemma {:induction false} MembersFacts(ws: seq<string>, w: string, n: nat)
    requires n <= |ws|
    ensures forall i: nat :: i in Members(ws, w, n) <==> i < n && ws[i] == w
    ensures forall p, q :: 0 <= p < q < |Members(ws, w, n)| ==> Members(ws, w, n)[p] < Members(ws, w, n)[q]
  {
    if n > 0 {
      MembersFacts(ws, w, n - 1);
      var ms := Members(ws, w, n - 1);
      forall p | 0 <= p < |ms| ensures ms[p] < n - 1 {
        assert ms[p] in ms;
      }
    }
  }

  lemma {:induction false} KeysAscend(ws: seq<string>, n: nat)
    requires n <= |ws|
    ensures forall a :: 0 <= a < |Keys(ws, n)| ==> First(ws, Keys(ws, n)[a]) < n
    ensures forall a, b :: 0 <= a < b < |Keys(ws, n)| ==> First(ws, Keys(ws, n)[a]) < First(ws, Keys(ws, n)[b])
  {
    hide First;
    if n > 0 {
      KeysAscend(ws, n - 1);
      KeysHold(ws, n - 1);
      if ws[n - 1] !in Keys(ws, n - 1) {
        NewKey(ws, n);
      }
    }
  }

  lemma NewKey(ws: seq<string>, n: nat)
    requires 0 < n <= |ws| && forall i :: 0 <= i < n - 1 ==> ws[i] != ws[n - 1]
    ensures First(ws, ws[n - 1]) == n - 1
  {
  }

  lemma {:induction false} ConcatFacts(ws: seq<string>, k: nat)
    requires k <= |Keys(ws, |ws|)|
    ensures InOrder(ws, Concat(ws, k))
    ensures forall i: nat :: i in Concat(ws, k) <==> i < |ws| && ws[i] in Keys(ws, |ws|)[..k]
  {
    hide InOrder, Keys, Members, First, FirstOf;
    if k == 0 {
      EmptyInOrder(ws);
    } else {
      var keys := Keys(ws, |ws|);
      var w := keys[k - 1];
      ConcatFacts(ws, k - 1);
      MembersFacts(ws, w, |ws|);
      KeysAscend(ws, |ws|);
      var xs, ms := Concat(ws, k - 1), Members(ws, w, |ws|);
      JoinInOrder(ws, xs, ms, keys, k - 1);
      Joined(ws, xs, ms, keys, k);
    }
  }

  lemma Joined(ws: seq<string>, xs: seq<nat>, ms: seq<nat>, keys: seq<string>, k: nat)
    requires 0 < k <= |keys|
    requires forall i: nat :: i in xs <==> i < |ws| && ws[i] in keys[..k - 1]
    requires forall i: nat :: i in ms <==> i < |ws| && ws[i] == keys[k - 1]
    ensures forall i: nat :: i in xs + ms <==> i < |ws| && ws[i] in keys[..k]
  {
  }

  lemma EmptyInOrder(ws: seq<string>)
    ensures InOrder(ws, [])
  {
  }

  lemma JoinInOrder(ws: seq<string>, xs: seq<nat>, ms: seq<nat>, keys: seq<string>, k: nat)
    requires InOrder(ws, xs) && k < |keys|
    requires forall a, b :: 0 <= a < b < |keys| ==> First(ws, keys[a]) < First(ws, keys[b])
    requires forall i: nat :: i in xs <==> i < |ws| && ws[i] in keys[..k]
    requires forall i: nat :: i in ms <==> i < |ws| && ws[i] == keys[k]
    requires forall p, q :: 0 <= p < q < |ms| ==> ms[p] < ms[q]
    ensures InOrder(ws, xs + ms)
  {
    hide First;
    var all := xs + ms;
    forall p | 0 <= p < |all| ensures all[p] < |ws| {
      assert p >= |xs| ==> all[p] in ms;
    }
    forall p, q | 0 <= p < q < |all| ensures Before(ws, all[p], all[q]) {
      if q >= |xs| {
        assert all[q] in ms;
        if p >= |xs| {
          assert all[p] in ms;
        } else {
          assert all[p] in xs;
          var a :| 0 <= a < k && keys[a] == ws[all[p]];
        }
      }
    }
  }

  /** Grouping orders the rows by first appearance of their workload, then by position, and
      keeps every row. */
  lemma GroupedFacts(ws: seq<string>)
    ensures InOrder(ws, GroupedOrder(ws)) && forall i: nat :: i in GroupedOrder(ws) <==> i < |ws|
  {
    hide Keys, InOrder, Concat;
    var keys := Keys(ws, |ws|);
    ConcatFacts(ws, |keys|);
    KeysHold(ws, |ws|);
    assert keys[..|keys|] == keys;
    assert forall i: nat :: i < |ws| ==> ws[i] in keys;
  }

  // ---- When the callers' lookup is right ----------------------------------------------------------------------

  /** The rows of each workload are neighbours. */
  predicate Contiguous(ws: seq<string>) {
    forall i, j, k :: 0 <= i < j < k < |ws| && ws[i] == ws[k] ==> ws[j] == ws[i]
  }

  predicate IsIdentity(order: seq<nat>, n: nat) {
    |order| == n && forall k :: 0 <= k < n ==> order[k] == k
  }

  lemma IdentityIsContiguous(ws: seq<string>, order: seq<nat>)
    requires InOrder(ws, order) && IsIdentity(order, |ws|)
    ensures Contiguous(ws)
  {
    hide First;
    forall i, j, k | 0 <= i < j < k < |ws| && ws[i] == ws[k] ensures ws[j] == ws[i] {
      assert Before(ws, order[i], order[j]) && Before(ws, order[j], order[k]);
      FirstIs(ws, i);
      FirstIs(ws, j);
    }
  }

  lemma ContiguousKeepsOrder(ws: seq<string>, i: nat, j: nat)
    requires Contiguous(ws) && i < j < |ws|
    ensures Before(ws, i, j)
  {
  }

  lemma {:induction false} CountsUp(order: seq<nat>, n: nat, k: nat)
    requires (forall p, q :: 0 <= p < q < |order| ==> order[p] < order[q]) && (forall i: nat :: i in order <==> i < n)
    requires k <= n && k <= |order|
    ensures forall p :: 0 <= p < k ==> order[p] == p
  {
    if k > 0 {
      CountsUp(order, n, k - 1);
      assert k - 1 in order;
      var p :| 0 <= p < |order| && order[p] == k - 1;
      assert k > 1 ==> order[k - 2] < order[k - 1];
    }
  }

  lemma AscendingIsIdentity(order: seq<nat>, n: nat)
    requires (forall p, q :: 0 <= p < q < |order| ==> order[p] < order[q]) && (forall i: nat :: i in order <==> i < n)
    ensures IsIdentity(order, n)
  {
    NotLong(order, n);
    CountsUp(order, n, |order|);
    NotThere(order);
  }

  lemma {:induction false} AtLeast(order: seq<nat>, k: nat)
    requires (forall p, q :: 0 <= p < q < |order| ==> order[p] < order[q]) && k < |order|
    ensures order[k] >= k
  {
    if k > 0 {
      AtLeast(order, k - 1);
      assert order[k - 1] < order[k];
    }
  }

  lemma NotLong(order: seq<nat>, n: nat)
    requires (forall p, q :: 0 <= p < q < |order| ==> order[p] < order[q]) && (forall i: nat :: i in order <==> i < n)
    ensures |order| <= n
  {
    if order != [] {
      AtLeast(order, |order| - 1);
      assert order[|order| - 1] in order;
    }
  }

  lemma NotThere(order: seq<nat>)
    requires forall p :: 0 <= p < |order| ==> order[p] == p
    ensures |order| !in order
  {
  }

  /** The number of a normalised row is the position of its input row exactly when the rows
      of every workload are neighbours in the input. */
  lemma LookupIsRightExactlyWhen(ws: seq<string>)
    ensures IsIdentity(GroupedOrder(ws), |ws|) <==> Contiguous(ws)
  {
    hide GroupedOrder, First;
    var order := GroupedOrder(ws);
    GroupedFacts(ws);
    if Contiguous(ws) {
      forall p, q | 0 <= p < q < |order| ensures order[p] < order[q] {
        assert Before(ws, order[p], order[q]);
        if order[q] < order[p] {
          ContiguousKeepsOrder(ws, order[q], order[p]);
        }
      }
      AscendingIsIdentity(order, |ws|);
    } else if IsIdentity(order, |ws|) {
      IdentityIsContiguous(ws, order);
    }
  }

  /** Three rows of two workloads, interleaved: the second and third rows get each other's
      metrics. */
  lemma InterleavedRowsAreMixedUp()
    ensures GroupedOrder(["a", "b", "a"]) == [0, 2, 1]
  {
    var ws := ["a", "b", "a"];
    assert Keys(ws, 1) == ["a"];
    assert Keys(ws, 2) == ["a", "b"];
    assert Keys(ws, 3) == ["a", "b"];
    assert Members(ws, "a", 1) == [0] && Members(ws, "a", 2) == [0] && Members(ws, "a", 3) == [0, 2];
    assert Members(ws, "b", 1) == [] && Members(ws, "b", 2) == [1] && Members(ws, "b", 3) == [1];
    assert Concat(ws, 1) == [0, 2];
    assert Concat(ws, 2) == [0, 2, 1];
  }
}
