/** Where every block is.  One header field, `registry_next`, threads the page free
    lists, the thread-cache bins, the remote-free buckets, the drained chains and
    the registry; here each of those chains is a sequence, and a block changes
    hands only by moving from one sequence to another. */
module Places {
  import opened Types

  datatype Loc =
    | Free(page: Addr)              // AdaptivePage::free_list
    | Cache(owner: Tid, cls: Class) // a TCacheBin of one thread
    | Queue(bucket: nat)            // RemoteQueueBucket::head
    | Registry                      // g_registry_head: the live objects
    | Detached(owner: Tid)          // chain taken out of a bucket by a draining thread
    | Hand(owner: Tid)              // block held by one thread between two critical sections
    | Quarantine                    // retained mappings of the debug mode

  /** `lists` gives the chains, `place` the chain each block is on. */
  datatype Places = Places(lists: map<Loc, seq<Addr>>, place: map<Addr, Loc>)

  function At(p: Places, l: Loc): seq<Addr> {
    if l in p.lists then p.lists[l] else []
  }

  predicate NoDup(xs: seq<Addr>) {
    forall i, j :: 0 <= i < j < |xs| ==> xs[i] != xs[j]
  }

  /** No chain repeats a block, and a block is on chain `l` exactly when its place
      is `l`: so no block is on two chains, and none is on no chain. */
  ghost predicate WellPlaced(p: Places) {
    && (forall l :: NoDup(At(p, l)))
    && (forall l, b :: b in At(p, l) <==> b in p.place && p.place[b] == l)
  }

  function Without(xs: seq<Addr>, b: Addr): seq<Addr> {
    if xs == [] then []
    else if xs[0] == b then xs[1..]
    else [xs[0]] + Without(xs[1..], b)
  }

  lemma {:induction false} WithoutFacts(xs: seq<Addr>, b: Addr)
    requires NoDup(xs)
    ensures NoDup(Without(xs, b))
    ensures forall x :: x in Without(xs, b) <==> x in xs && x != b
    ensures |Without(xs, b)| == if b in xs then |xs| - 1 else |xs|
  {
    if xs != [] {
      var rest := xs[1..];
      assert xs == [xs[0]] + rest;
      if xs[0] != b {
        WithoutFacts(rest, b);
        ConsNoDup(xs[0], Without(rest, b));
      }
    }
  }

  lemma ConsNoDup(b: Addr, xs: seq<Addr>)
    requires NoDup(xs) && b !in xs
    ensures NoDup([b] + xs)
  {
  }

  lemma ConcatNoDup(xs: seq<Addr>, ys: seq<Addr>)
    requires NoDup(xs) && NoDup(ys)
    requires forall x :: x in xs ==> x !in ys
    ensures NoDup(xs + ys)
  {
    forall i, j | 0 <= i < j < |xs + ys| ensures (xs + ys)[i] != (xs + ys)[j] {
      if i < |xs| <= j {
        assert xs[i] in xs && ys[j - |xs|] in ys;
      }
    }
  }

  /** Takes `b` off its chain and pushes it on the front of another one. */
  function Move(p: Places, b: Addr, to: Loc): Places
    requires b in p.place
  {
    var off := p.lists[p.place[b] := Without(At(p, p.place[b]), b)];
    Places(off[to := [b] + At(Places(off, p.place), to)], p.place[b := to])
  }

  lemma MoveWellPlaced(p: Places, b: Addr, to: Loc)
    requires WellPlaced(p) && b in p.place && p.place[b] != to
    ensures var q := Move(p, b, to);
            && WellPlaced(q)
            && At(q, to) == [b] + At(p, to)
            && At(q, p.place[b]) == Without(At(p, p.place[b]), b)
            && |At(q, p.place[b])| == |At(p, p.place[b])| - 1
            && (forall l :: l != to && l != p.place[b] ==> At(q, l) == At(p, l))
  {
    var q := Move(p, b, to);
    var from := p.place[b];
    assert b in At(p, from);
    assert b !in At(p, to);
    WithoutFacts(At(p, from), b);
    ConsNoDup(b, At(p, to));
    forall l ensures NoDup(At(q, l)) {
      assert NoDup(At(p, l));
    }
    forall l, c ensures c in At(q, l) <==> c in q.place && q.place[c] == l {
      assert c in At(p, l) <==> c in p.place && p.place[c] == l;
    }
  }

  /** Takes a whole chain and puts it in front of another one: detaching a bucket
      and putting a partly drained chain back. */
  function Splice(p: Places, from: Loc, to: Loc): Places {
    var xs := At(p, from);
    Places(p.lists[from := []][to := xs + At(p, to)],
           map b | b in p.place :: if b in xs then to else p.place[b])
  }

  lemma SpliceWellPlaced(p: Places, from: Loc, to: Loc)
    requires WellPlaced(p) && from != to
    ensures var q := Splice(p, from, to);
            && WellPlaced(q)
            && q.place.Keys == p.place.Keys
            && At(q, from) == [] && At(q, to) == At(p, from) + At(p, to)
            && (forall l :: l != to && l != from ==> At(q, l) == At(p, l))
  {
    var q := Splice(p, from, to);
    var xs, ys := At(p, from), At(p, to);
    assert At(q, to) == xs + ys;
    assert forall b :: b in xs + ys <==> b in xs || b in ys;
    forall x | x in xs ensures x !in ys {
      assert x in At(p, from);
      assert x in At(p, to) <==> x in p.place && p.place[x] == to;
    }
    ConcatNoDup(xs, ys);
    forall l ensures NoDup(At(q, l)) {
      assert NoDup(At(p, l));
    }
    forall l, b ensures b in At(q, l) <==> b in q.place && q.place[b] == l {
      assert b in At(p, l) <==> b in p.place && p.place[b] == l;
      assert b in At(p, from) <==> b in p.place && p.place[b] == from;
      assert b in At(p, to) <==> b in p.place && p.place[b] == to;
    }
  }

  /** Gives fresh blocks a place: the blocks of a new page on its free list, or a new
      direct mapping in a thread's hand. */
  function Admit(p: Places, blocks: seq<Addr>, l: Loc): Places {
    Places(p.lists[l := blocks], map b | b in p.place.Keys + Elements(blocks) :: if b in blocks then l else p.place[b])
  }

  function Elements(xs: seq<Addr>): set<Addr> {
    set b | b in xs
  }

  lemma AdmitWellPlaced(p: Places, blocks: seq<Addr>, l: Loc)
    requires WellPlaced(p) && NoDup(blocks) && At(p, l) == []
    requires forall b :: b in blocks ==> b !in p.place
    ensures var q := Admit(p, blocks, l);
            && WellPlaced(q)
            && At(q, l) == blocks
            && q.place.Keys == p.place.Keys + Elements(blocks)
            && (forall k :: k != l ==> At(q, k) == At(p, k))
  {
    var q := Admit(p, blocks, l);
    forall k ensures NoDup(At(q, k)) {
      assert NoDup(At(p, k));
    }
    forall k, b ensures b in At(q, k) <==> b in q.place && q.place[b] == k {
      assert b in At(p, k) <==> b in p.place && p.place[b] == k;
    }
  }

  /** Forgets a whole chain: the blocks of an unmapped page, or an unmapped direct
      object. */
  function Evict(p: Places, l: Loc): Places {
    Places(p.lists[l := []], p.place - Elements(At(p, l)))
  }

  lemma EvictWellPlaced(p: Places, l: Loc)
    requires WellPlaced(p)
    ensures var q := Evict(p, l);
            && WellPlaced(q)
            && At(q, l) == []
            && q.place.Keys == p.place.Keys - Elements(At(p, l))
            && (forall k :: k != l ==> At(q, k) == At(p, k))
  {
    var q := Evict(p, l);
    forall k ensures NoDup(At(q, k)) {
      assert NoDup(At(p, k));
    }
    forall k, b ensures b in At(q, k) <==> b in q.place && q.place[b] == k {
      assert b in At(p, k) <==> b in p.place && p.place[b] == k;
    }
  }

  /** The global reading of `WellPlaced`: a placed block sits at exactly one position
      of exactly one chain. */
  lemma ExactlyOnePlace(p: Places, b: Addr)
    requires WellPlaced(p) && b in p.place
    ensures exists i :: 0 <= i < |At(p, p.place[b])| && At(p, p.place[b])[i] == b
    ensures forall l, i, m, j :: 0 <= i < |At(p, l)| && 0 <= j < |At(p, m)| && At(p, l)[i] == b && At(p, m)[j] == b
                                 ==> l == m && i == j
  {
    assert b in At(p, p.place[b]);
    forall l, i, m, j | 0 <= i < |At(p, l)| && 0 <= j < |At(p, m)| && At(p, l)[i] == b && At(p, m)[j] == b
      ensures l == m && i == j
    {
      assert b in At(p, l) && b in At(p, m);
      assert NoDup(At(p, l));
    }
  }

  /** A repetition-free chain inside a repetition-free list of the same length covers
      that list. */
  lemma SameLengthCovers(xs: seq<Addr>, ys: seq<Addr>)
    requires NoDup(xs) && NoDup(ys) && |xs| == |ys|
    requires forall x :: x in xs ==> x in ys
    ensures forall y :: y in ys ==> y in xs
  {
    ElementsCount(xs);
    ElementsCount(ys);
    assert Elements(xs) <= Elements(ys);
    SubsetOfEqualSize(Elements(xs), Elements(ys));
    forall y | y in ys ensures y in xs {
      assert y in Elements(ys);
    }
  }

  lemma SubsetOfEqualSize(s: set<Addr>, t: set<Addr>)
    requires s <= t && |s| == |t|
    ensures s == t
  {
    assert |t - s| == |t| - |s|;
  }

  lemma ElementsCount(xs: seq<Addr>)
    requires NoDup(xs)
    ensures |Elements(xs)| == |xs|
  {
    if xs != [] {
      var rest := xs[1..];
      ElementsCount(rest);
      assert Elements(xs) == Elements(rest) + {xs[0]};
    }
  }
}
