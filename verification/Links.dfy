/** The chains as they are stored: one `registry_next` and one `registry_prev` field per
    header, and a head pointer per chain.  Every method is a pointer manipulation of
    src/adaptive_services.cpp, proved to do to the abstract chains what the state
    machine's step does. */
module Links {
  import opened Types
  import opened Geometry
  import opened Places
  import HeapState
  import HeapSteps

  function Following(xs: seq<Addr>, i: int): Addr {
    if 0 <= i < |xs| - 1 then xs[i + 1] else 0
  }

  function Preceding(xs: seq<Addr>, i: int): Addr {
    if 0 < i < |xs| then xs[i - 1] else 0
  }

  /** `xs` is the chain starting at pointer `h`: acyclic, ending in null. */
  ghost predicate ChainFrom(next: map<Addr, Addr>, h: Addr, xs: seq<Addr>) {
    && h == (if xs == [] then 0 else xs[0])
    && (forall i :: 0 <= i < |xs| ==> xs[i] != 0 && xs[i] in next && next[xs[i]] == Following(xs, i))
  }

  ghost predicate BackLinks(prev: map<Addr, Addr>, xs: seq<Addr>) {
    forall i :: 0 <= i < |xs| ==> xs[i] in prev && prev[xs[i]] == Preceding(xs, i)
  }

  /** Chains threaded through `registry_next`; a block in a hand or in quarantine is on
      none. */
  predicate Threaded(l: Loc) {
    !l.Hand? && !l.Quarantine?
  }

  lemma ChainFrame(next: map<Addr, Addr>, h: Addr, xs: seq<Addr>, b: Addr, n: Addr)
    requires ChainFrom(next, h, xs) && b !in xs
    ensures ChainFrom(next[b := n], h, xs)
  {
  }

  lemma ChainPush(next: map<Addr, Addr>, h: Addr, xs: seq<Addr>, b: Addr)
    requires ChainFrom(next, h, xs) && b !in xs && b != 0
    ensures ChainFrom(next[b := h], b, [b] + xs)
  {
    var ys := [b] + xs;
    forall i | 0 <= i < |ys|
      ensures ys[i] != 0 && ys[i] in next[b := h] && next[b := h][ys[i]] == Following(ys, i)
    {
      if i > 0 {
        assert ys[i] == xs[i - 1];
      }
    }
  }

  lemma ChainPop(next: map<Addr, Addr>, xs: seq<Addr>)
    requires xs != [] && ChainFrom(next, xs[0], xs)
    ensures ChainFrom(next, next[xs[0]], xs[1..])
  {
    var ys := xs[1..];
    assert next[xs[0]] == Following(xs, 0);
    forall i | 0 <= i < |ys| ensures ys[i] != 0 && ys[i] in next && next[ys[i]] == Following(ys, i) {
      assert ys[i] == xs[i + 1];
    }
  }

  /** A chain is determined by its start: the abstract sequence is what the pointers
      spell out. */
  lemma {:induction false} ChainIsUnique(next: map<Addr, Addr>, h: Addr, xs: seq<Addr>, ys: seq<Addr>)
    requires ChainFrom(next, h, xs) && ChainFrom(next, h, ys)
    ensures xs == ys
    decreases |xs|
  {
    if xs != [] && ys != [] {
      ChainPop(next, xs);
      ChainPop(next, ys);
      ChainIsUnique(next, next[h], xs[1..], ys[1..]);
      assert xs == [xs[0]] + xs[1..] && ys == [ys[0]] + ys[1..];
    }
  }

  function HeadOf(heads: map<Loc, Addr>, l: Loc): Addr {
    if l in heads then heads[l] else 0
  }

  function CountOf(counts: map<Loc, nat>, l: Loc): nat {
    if l in counts then counts[l] else 0
  }

  function Next(next: map<Addr, Addr>, b: Addr): Addr {
    if b in next then next[b] else 0
  }

  ghost predicate HeadsSpell(next: map<Addr, Addr>, heads: map<Loc, Addr>, p: Places) {
    forall l :: Threaded(l) ==> ChainFrom(next, HeadOf(heads, l), At(p, l))
  }

  ghost predicate CountsMatch(counts: map<Loc, nat>, p: Places) {
    forall l: Loc :: l.Cache? ==> CountOf(counts, l) == |At(p, l)|
  }

  /** The pointers spell out the chains of `p`. */
  ghost predicate Spells(next: map<Addr, Addr>, prev: map<Addr, Addr>, heads: map<Loc, Addr>, counts: map<Loc, nat>,
                         p: Places) {
    && WellPlaced(p) && 0 !in p.place
    && HeadsSpell(next, heads, p)
    && BackLinks(prev, At(p, Registry))
    && CountsMatch(counts, p)
  }

  /** Rewriting the link of a block that is on no chain, and the head of chain `l`. */
  lemma HeadsAfterPush(next: map<Addr, Addr>, heads: map<Loc, Addr>, p: Places, b: Addr, l: Loc)
    requires WellPlaced(p) && HeadsSpell(next, heads, p) && b in p.place && b != 0 && !Threaded(p.place[b])
    requires Threaded(l)
    ensures HeadsSpell(next[b := HeadOf(heads, l)], heads[l := b], Move(p, b, l))
  {
    MoveWellPlaced(p, b, l);
    var q, next', heads' := Move(p, b, l), next[b := HeadOf(heads, l)], heads[l := b];
    forall k | Threaded(k) ensures ChainFrom(next', HeadOf(heads', k), At(q, k)) {
      assert ChainFrom(next, HeadOf(heads, k), At(p, k));
      assert b in At(p, k) <==> p.place[b] == k;
      if k == l {
        ChainPush(next, HeadOf(heads, l), At(p, l), b);
      } else {
        ChainFrame(next, HeadOf(heads, k), At(p, k), b, HeadOf(heads, l));
      }
    }
  }

  /** Taking the first block off chain `l`, and clearing its link. */
  lemma HeadsAfterPop(next: map<Addr, Addr>, heads: map<Loc, Addr>, p: Places, b: Addr, l: Loc, to: Loc)
    requires WellPlaced(p) && HeadsSpell(next, heads, p) && Threaded(l) && !Threaded(to)
    requires At(p, l) != [] && b == At(p, l)[0] && b in p.place && p.place[b] == l
    ensures HeadsSpell(next[b := 0], heads[l := Next(next, b)], Move(p, b, to))
    ensures b == HeadOf(heads, l)
  {
    MoveWellPlaced(p, b, to);
    var q, next', heads' := Move(p, b, to), next[b := 0], heads[l := Next(next, b)];
    assert ChainFrom(next, HeadOf(heads, l), At(p, l));
    forall k | Threaded(k) ensures ChainFrom(next', HeadOf(heads', k), At(q, k)) {
      assert ChainFrom(next, HeadOf(heads, k), At(p, k));
      assert b in At(p, k) <==> p.place[b] == k;
      if k == l {
        ChainPop(next, At(p, l));
        assert At(q, l) == At(p, l)[1..];
        assert NoDup(At(p, l));
        ChainFrame(next, Next(next, b), At(p, l)[1..], b, 0);
      } else {
        ChainFrame(next, HeadOf(heads, k), At(p, k), b, 0);
      }
    }
  }

  /** Taking the first block off chain `l` and pushing it straight on chain `m`. */
  lemma HeadsAfterTransfer(next: map<Addr, Addr>, heads: map<Loc, Addr>, p: Places, b: Addr, l: Loc, m: Loc)
    requires WellPlaced(p) && HeadsSpell(next, heads, p) && Threaded(l) && Threaded(m) && l != m
    requires At(p, l) != [] && b == At(p, l)[0] && b in p.place && p.place[b] == l && b != 0
    ensures HeadsSpell(next[b := HeadOf(heads, m)], heads[l := Next(next, b)][m := b], Move(p, b, m))
    ensures b == HeadOf(heads, l)
  {
    MoveWellPlaced(p, b, m);
    var q, next', heads' := Move(p, b, m), next[b := HeadOf(heads, m)], heads[l := Next(next, b)][m := b];
    assert ChainFrom(next, HeadOf(heads, l), At(p, l));
    forall k | Threaded(k) ensures ChainFrom(next', HeadOf(heads', k), At(q, k)) {
      assert ChainFrom(next, HeadOf(heads, k), At(p, k));
      assert b in At(p, k) <==> p.place[b] == k;
      if k == l {
        ChainPop(next, At(p, l));
        assert At(q, l) == At(p, l)[1..];
        assert NoDup(At(p, l));
        ChainFrame(next, Next(next, b), At(p, l)[1..], b, HeadOf(heads, m));
      } else if k == m {
        ChainPush(next, HeadOf(heads, m), At(p, m), b);
      } else {
        ChainFrame(next, HeadOf(heads, k), At(p, k), b, HeadOf(heads, m));
      }
    }
  }

  lemma {:induction false} WithoutAt(xs: seq<Addr>, b: Addr, i: nat)
    requires NoDup(xs) && i < |xs| && xs[i] == b
    ensures Without(xs, b) == xs[..i] + xs[i + 1..]
    decreases |xs|
  {
    if i > 0 {
      WithoutAt(xs[1..], b, i - 1);
      assert xs[..i] == [xs[0]] + xs[1..][..i - 1];
      assert xs[i + 1..] == xs[1..][i..];
    }
  }

  function Skip(next: map<Addr, Addr>, before: Addr, b: Addr): map<Addr, Addr> {
    (if before != 0 then next[before := Next(next, b)] else next)[b := 0]
  }

  /** Unlinking position `i` of a doubly linked chain, forward links ... */
  lemma UnlinkForward(next: map<Addr, Addr>, h: Addr, xs: seq<Addr>, i: nat)
    requires ChainFrom(next, h, xs) && NoDup(xs) && i < |xs|
    ensures var b, before := xs[i], Preceding(xs, i);
            ChainFrom(Skip(next, before, b), if before != 0 then h else Next(next, b), xs[..i] + xs[i + 1..])
  {
    var b, before, ys := xs[i], Preceding(xs, i), xs[..i] + xs[i + 1..];
    var next' := Skip(next, before, b);
    assert next[b] == Following(xs, i);
    forall j | 0 <= j < |ys| ensures ys[j] != 0 && ys[j] in next' && next'[ys[j]] == Following(ys, j) {
      NoDupOnly(xs, i);
      NoDupOnly(xs, i - 1);
      ForwardAt(next, h, xs, i, j);
    }
    assert i > 0 ==> xs[i - 1] != 0;
  }

  /** Position `i` holds a value found nowhere else. */
  ghost predicate Only(xs: seq<Addr>, i: int) {
    0 <= i < |xs| ==> forall k :: 0 <= k < |xs| && k != i ==> xs[k] != xs[i]
  }

  lemma NoDupOnly(xs: seq<Addr>, i: int)
    requires NoDup(xs)
    ensures Only(xs, i)
  {
  }

  lemma ForwardAt(next: map<Addr, Addr>, h: Addr, xs: seq<Addr>, i: nat, j: nat)
    requires ChainFrom(next, h, xs) && i < |xs| && j < |xs| - 1 && Only(xs, i) && Only(xs, i - 1)
    ensures var ys, next' := xs[..i] + xs[i + 1..], Skip(next, Preceding(xs, i), xs[i]);
            ys[j] != 0 && ys[j] in next' && next'[ys[j]] == Following(ys, j)
  {
    var ys, next' := xs[..i] + xs[i + 1..], Skip(next, Preceding(xs, i), xs[i]);
    assert next[xs[i]] == Following(xs, i);
    if j + 1 < i {
      assert ys[j] == xs[j] && next[xs[j]] == Following(xs, j);
      assert Following(ys, j) == xs[j + 1];
    } else if j + 1 == i {
      assert ys[j] == xs[j] && xs[j] != 0;
      assert next'[xs[j]] == Following(xs, i);
      assert Following(ys, j) == Following(xs, i);
    } else {
      assert ys[j] == xs[j + 1] && next[xs[j + 1]] == Following(xs, j + 1);
      assert Following(ys, j) == Following(xs, j + 1);
    }
  }

  /** ... and back links. */
  lemma UnlinkBackward(prev: map<Addr, Addr>, xs: seq<Addr>, i: nat)
    requires BackLinks(prev, xs) && NoDup(xs) && i < |xs| && 0 !in xs
    ensures BackLinks(Skip(prev, Following(xs, i), xs[i]), xs[..i] + xs[i + 1..])
  {
    var ys := xs[..i] + xs[i + 1..];
    forall j | 0 <= j < |ys|
      ensures ys[j] in Skip(prev, Following(xs, i), xs[i])
      ensures Skip(prev, Following(xs, i), xs[i])[ys[j]] == Preceding(ys, j)
    {
      NoDupOnly(xs, i);
      NoDupOnly(xs, i + 1);
      BackwardAt(prev, xs, i, j);
    }
  }

  lemma BackwardAt(prev: map<Addr, Addr>, xs: seq<Addr>, i: nat, j: nat)
    requires BackLinks(prev, xs) && i < |xs| && j < |xs| - 1 && Only(xs, i) && Only(xs, i + 1) && 0 !in xs
    ensures var ys, prev' := xs[..i] + xs[i + 1..], Skip(prev, Following(xs, i), xs[i]);
            ys[j] in prev' && prev'[ys[j]] == Preceding(ys, j)
  {
    var ys, prev' := xs[..i] + xs[i + 1..], Skip(prev, Following(xs, i), xs[i]);
    assert prev[xs[i]] == Preceding(xs, i);
    if j < i {
      assert ys[j] == xs[j] && prev[xs[j]] == Preceding(xs, j);
      assert Preceding(ys, j) == Preceding(xs, j);
    } else if j == i {
      assert ys[j] == xs[i + 1] && xs[i + 1] in xs;
      assert prev'[xs[i + 1]] == Preceding(xs, i);
      assert Preceding(ys, j) == Preceding(xs, i);
    } else {
      assert ys[j] == xs[j + 1] && prev[xs[j + 1]] == Preceding(xs, j + 1);
      assert Preceding(ys, j) == xs[j];
    }
  }

  // ---- Value-level effect of each operation ------------------------------------------------------

  lemma RegistryAfterInsert(next: map<Addr, Addr>, prev: map<Addr, Addr>, heads: map<Loc, Addr>, counts: map<Loc, nat>,
                            p: Places, b: Addr)
    requires Spells(next, prev, heads, counts, p) && b in p.place && p.place[b].Hand?
    ensures var h := HeadOf(heads, Registry);
            var prev' := if h != 0 then prev[b := 0][h := b] else prev[b := 0];
            Spells(next[b := h], prev', heads[Registry := b], counts, Move(p, b, Registry))
  {
    MoveWellPlaced(p, b, Registry);
    HeadsAfterPush(next, heads, p, b, Registry);
    var xs := At(p, Registry);
    var h := HeadOf(heads, Registry);
    var prev' := if h != 0 then prev[b := 0][h := b] else prev[b := 0];
    assert ChainFrom(next, h, xs);
    assert b in xs <==> p.place[b] == Registry;
    assert NoDup(xs);
    BackLinksPush(prev, xs, b, h);
  }

  lemma BackLinksPush(prev: map<Addr, Addr>, xs: seq<Addr>, b: Addr, h: Addr)
    requires BackLinks(prev, xs) && NoDup(xs) && b !in xs && 0 !in xs && h == (if xs == [] then 0 else xs[0])
    ensures BackLinks(if h != 0 then prev[b := 0][h := b] else prev[b := 0], [b] + xs)
  {
    var ys := [b] + xs;
    var prev' := if h != 0 then prev[b := 0][h := b] else prev[b := 0];
    assert xs != [] ==> xs[0] in xs;
    forall j | 0 <= j < |ys| ensures ys[j] in prev' && prev'[ys[j]] == Preceding(ys, j) {
      if j > 0 {
        assert ys[j] == xs[j - 1] && prev[xs[j - 1]] == Preceding(xs, j - 1);
      }
    }
  }

  lemma NullIsNowhere(p: Places, l: Loc)
    requires WellPlaced(p) && 0 !in p.place
    ensures 0 !in At(p, l)
  {
    assert forall b :: b in At(p, l) ==> b in p.place;
  }

  lemma RegistryAfterUnlink(next: map<Addr, Addr>, prev: map<Addr, Addr>, h: Addr, xs: seq<Addr>, b: Addr)
    requires ChainFrom(next, h, xs) && BackLinks(prev, xs) && NoDup(xs) && b in xs && 0 !in xs
    ensures b in prev && b in next
    ensures ChainFrom(Skip(next, prev[b], b), if prev[b] != 0 then h else next[b], Without(xs, b))
    ensures BackLinks(Skip(prev, next[b], b), Without(xs, b))
    ensures prev[b] == 0 ==> h == b
  {
    var i :| 0 <= i < |xs| && xs[i] == b;
    assert prev[xs[i]] == Preceding(xs, i) && next[xs[i]] == Following(xs, i);
    WithoutAt(xs, b, i);
    UnlinkForward(next, h, xs, i);
    UnlinkBackward(prev, xs, i);
    assert i > 0 ==> xs[i - 1] in xs;
  }

  lemma HeadsAfterUnlink(next: map<Addr, Addr>, prev: map<Addr, Addr>, heads: map<Loc, Addr>, p: Places, b: Addr,
                         to: Loc)
    requires WellPlaced(p) && 0 !in p.place && HeadsSpell(next, heads, p) && BackLinks(prev, At(p, Registry))
    requires b in p.place && p.place[b] == Registry && !Threaded(to)
    ensures b in prev && b in next
    ensures HeadsSpell(Skip(next, prev[b], b),
                       if prev[b] != 0 then heads else heads[Registry := next[b]], Move(p, b, to))
    ensures prev[b] == 0 ==> HeadOf(heads, Registry) == b
    ensures BackLinks(Skip(prev, next[b], b), At(Move(p, b, to), Registry))
  {
    hide ChainFrom, BackLinks, Skip, Move;
    MoveWellPlaced(p, b, to);
    var xs := At(p, Registry);
    assert b in xs && NoDup(xs);
    NullIsNowhere(p, Registry);
    assert ChainFrom(next, HeadOf(heads, Registry), xs);
    RegistryAfterUnlink(next, prev, HeadOf(heads, Registry), xs, b);
    var q, next', heads' := Move(p, b, to), Skip(next, prev[b], b),
                            if prev[b] != 0 then heads else heads[Registry := next[b]];
    forall k | Threaded(k) ensures ChainFrom(next', HeadOf(heads', k), At(q, k)) {
      assert ChainFrom(next, HeadOf(heads, k), At(p, k));
      if k != Registry {
        UnlinkElsewhere(next, prev, p, b, k, HeadOf(heads, k));
      }
    }
  }

  lemma UnlinkElsewhere(next: map<Addr, Addr>, prev: map<Addr, Addr>, p: Places, b: Addr, k: Loc, h: Addr)
    requires WellPlaced(p) && BackLinks(prev, At(p, Registry)) && b in At(p, Registry) && b in prev && k != Registry
    requires ChainFrom(next, h, At(p, k))
    ensures ChainFrom(Skip(next, prev[b], b), h, At(p, k))
  {
    var xs := At(p, Registry);
    var i :| 0 <= i < |xs| && xs[i] == b;
    assert prev[xs[i]] == Preceding(xs, i);
    assert b in At(p, k) <==> b in p.place && p.place[b] == k;
    assert b in At(p, Registry) <==> b in p.place && p.place[b] == Registry;
    if i > 0 {
      var c := xs[i - 1];
      assert c in At(p, Registry) <==> c in p.place && p.place[c] == Registry;
      assert c in At(p, k) <==> c in p.place && p.place[c] == k;
      if c != 0 {
        ChainFrame(next, h, At(p, k), c, Next(next, b));
        ChainFrame(next[c := Next(next, b)], h, At(p, k), b, 0);
        return;
      }
    }
    ChainFrame(next, h, At(p, k), b, 0);
  }

  lemma CountsAfterMove(counts: map<Loc, nat>, counts': map<Loc, nat>, p: Places, b: Addr, to: Loc)
    requires WellPlaced(p) && CountsMatch(counts, p) && b in p.place && p.place[b] != to
    requires forall l: Loc :: l.Cache? ==>
               CountOf(counts', l) == CountOf(counts, l)
                 + (if l == to then 1 else 0) - (if l == p.place[b] then 1 else 0)
    ensures CountsMatch(counts', Move(p, b, to))
  {
    MoveWellPlaced(p, b, to);
  }

  lemma BackLinksFrame(prev: map<Addr, Addr>, p: Places, b: Addr, n: Addr)
    requires WellPlaced(p) && BackLinks(prev, At(p, Registry)) && (b in p.place ==> p.place[b] != Registry)
    ensures BackLinks(prev[b := n], At(p, Registry))
  {
    assert b in At(p, Registry) <==> b in p.place && p.place[b] == Registry;
  }

  /** `push_tcache`, `enqueue_remote_free` and the free-list push of `deallocate`. */
  lemma AfterPush(next: map<Addr, Addr>, prev: map<Addr, Addr>, heads: map<Loc, Addr>, counts: map<Loc, nat>, p: Places,
                  b: Addr, l: Loc)
    requires Spells(next, prev, heads, counts, p) && b in p.place && p.place[b].Hand?
    requires l.Free? || l.Cache? || l.Queue?
    ensures var counts' := if l.Cache? then counts[l := CountOf(counts, l) + 1] else counts;
            Spells(next[b := HeadOf(heads, l)], prev[b := 0], heads[l := b], counts', Move(p, b, l))
  {
    hide BackLinks, Move;
    MoveWellPlaced(p, b, l);
    HeadsAfterPush(next, heads, p, b, l);
    BackLinksFrame(prev, p, b, 0);
    var counts' := if l.Cache? then counts[l := CountOf(counts, l) + 1] else counts;
    CountsAfterMove(counts, counts', p, b, l);
    KeysAfterMove(p, b, l);
  }

  lemma KeysAfterMove(p: Places, b: Addr, l: Loc)
    requires b in p.place
    ensures Move(p, b, l).place.Keys == p.place.Keys
  {
  }

  /** `pop_tcache` and the free-list pop of the allocation paths. */
  lemma AfterPop(next: map<Addr, Addr>, prev: map<Addr, Addr>, heads: map<Loc, Addr>, counts: map<Loc, nat>, p: Places,
                 l: Loc, to: Loc)
    requires Spells(next, prev, heads, counts, p) && (l.Free? || l.Cache?) && to.Hand? && HeadOf(heads, l) != 0
    ensures var b := HeadOf(heads, l);
            var counts' := if l.Cache? && CountOf(counts, l) > 0 then counts[l := CountOf(counts, l) - 1] else counts;
            && At(p, l) != [] && b == At(p, l)[0] && b in p.place && p.place[b] == l
            && (l.Cache? ==> CountOf(counts, l) > 0)
            && Spells(next[b := 0], prev[b := 0], heads[l := Next(next, b)], counts', Move(p, b, to))
  {
    hide BackLinks, Move;
    var b := HeadOf(heads, l);
    assert ChainFrom(next, HeadOf(heads, l), At(p, l));
    assert b in At(p, l);
    MoveWellPlaced(p, b, to);
    HeadsAfterPop(next, heads, p, b, l, to);
    BackLinksFrame(prev, p, b, 0);
    var counts' := if l.Cache? && CountOf(counts, l) > 0 then counts[l := CountOf(counts, l) - 1] else counts;
    assert l.Cache? ==> CountOf(counts, l) == |At(p, l)|;
    CountsAfterMove(counts, counts', p, b, to);
    KeysAfterMove(p, b, to);
  }

  /** One turn of the refill and drain loops: the head of `l` goes to the front of bin `m`. */
  lemma AfterTransfer(next: map<Addr, Addr>, prev: map<Addr, Addr>, heads: map<Loc, Addr>, counts: map<Loc, nat>,
                      p: Places, l: Loc, m: Loc)
    requires Spells(next, prev, heads, counts, p) && (l.Free? || l.Detached?) && m.Cache? && HeadOf(heads, l) != 0
    ensures var b := HeadOf(heads, l);
            && At(p, l) != [] && b == At(p, l)[0] && b in p.place && p.place[b] == l
            && Spells(next[b := HeadOf(heads, m)], prev[b := 0], heads[l := Next(next, b)][m := b],
                      counts[m := CountOf(counts, m) + 1], Move(p, b, m))
  {
    hide BackLinks, Move, WellPlaced, ChainFrom;
    var b := HeadOf(heads, l);
    HeadIsFirst(next, prev, heads, counts, p, l);
    MoveWellPlaced(p, b, m);
    HeadsAfterTransfer(next, heads, p, b, l, m);
    BackLinksFrame(prev, p, b, 0);
    CountsAfterMove(counts, counts[m := CountOf(counts, m) + 1], p, b, m);
    KeysAfterMove(p, b, m);
  }

  /** `registry_remove`. */
  lemma AfterUnlink(next: map<Addr, Addr>, prev: map<Addr, Addr>, heads: map<Loc, Addr>, counts: map<Loc, nat>,
                    p: Places, b: Addr, to: Loc)
    requires Spells(next, prev, heads, counts, p) && b in p.place && p.place[b] == Registry && to.Hand?
    ensures b in prev && b in next && (prev[b] == 0 ==> HeadOf(heads, Registry) == b)
    ensures Spells(Skip(next, prev[b], b), Skip(prev, next[b], b),
                   if prev[b] != 0 then heads else heads[Registry := next[b]], counts, Move(p, b, to))
  {
    hide BackLinks, Move, Skip;
    MoveWellPlaced(p, b, to);
    HeadsAfterUnlink(next, prev, heads, p, b, to);
    CountsAfterMove(counts, counts, p, b, to);
    KeysAfterMove(p, b, to);
  }

  /** Redirecting the end of one chain to the start of another joins them. */
  lemma ChainJoin(next: map<Addr, Addr>, h: Addr, xs: seq<Addr>, g: Addr, ys: seq<Addr>)
    requires ChainFrom(next, h, xs) && ChainFrom(next, g, ys) && xs != [] && NoDup(xs)
    requires forall x :: x in xs ==> x !in ys
    ensures ChainFrom(next[xs[|xs| - 1] := g], h, xs + ys)
  {
    var last := xs[|xs| - 1];
    var next', zs := next[last := g], xs + ys;
    assert last in xs;
    forall i | 0 <= i < |zs| ensures zs[i] != 0 && zs[i] in next' && next'[zs[i]] == Following(zs, i) {
      if i < |xs| {
        assert zs[i] == xs[i] && next[xs[i]] == Following(xs, i);
      } else {
        assert zs[i] == ys[i - |xs|] && next[ys[i - |xs|]] == Following(ys, i - |xs|) && ys[i - |xs|] in ys;
      }
    }
  }

  /** Detaching a bucket: its head moves to the draining thread's local pointer. */
  lemma AfterDetach(next: map<Addr, Addr>, prev: map<Addr, Addr>, heads: map<Loc, Addr>, counts: map<Loc, nat>,
                    p: Places, from: Loc, to: Loc)
    requires Spells(next, prev, heads, counts, p) && from.Queue? && to.Detached? && At(p, to) == []
    ensures Spells(next, prev, heads[to := HeadOf(heads, from)][from := 0], counts, Splice(p, from, to))
  {
    hide BackLinks, Splice, ChainFrom;
    SpliceWellPlaced(p, from, to);
    var q, heads' := Splice(p, from, to), heads[to := HeadOf(heads, from)][from := 0];
    assert ChainFrom(next, HeadOf(heads, from), At(p, from));
    assert At(p, from) + [] == At(p, from);
    EmptyChain(next);
    forall k | Threaded(k) ensures ChainFrom(next, HeadOf(heads', k), At(q, k)) {
      assert ChainFrom(next, HeadOf(heads, k), At(p, k));
    }
  }

  lemma EmptyChain(next: map<Addr, Addr>)
    ensures ChainFrom(next, 0, [])
  {
  }

  /** Putting the rest of a drained chain in front of what the bucket holds by now. */
  lemma AfterPutBack(next: map<Addr, Addr>, prev: map<Addr, Addr>, heads: map<Loc, Addr>, counts: map<Loc, nat>,
                     p: Places, from: Loc, to: Loc)
    requires Spells(next, prev, heads, counts, p) && from.Detached? && to.Queue? && At(p, from) != []
    ensures var xs := At(p, from);
            Spells(next[xs[|xs| - 1] := HeadOf(heads, to)], prev, heads[to := HeadOf(heads, from)][from := 0], counts,
                   Splice(p, from, to))
  {
    hide BackLinks, Splice, ChainFrom, WellPlaced;
    SpliceWellPlaced(p, from, to);
    ChainsApart(p, from);
    var xs, ys := At(p, from), At(p, to);
    var last := xs[|xs| - 1];
    assert last in At(p, from);
    var q, next', heads' := Splice(p, from, to), next[last := HeadOf(heads, to)],
        heads[to := HeadOf(heads, from)][from := 0];
    assert ChainFrom(next, HeadOf(heads, from), xs) && ChainFrom(next, HeadOf(heads, to), ys);
    ChainJoin(next, HeadOf(heads, from), xs, HeadOf(heads, to), ys);
    EmptyChain(next');
    forall k | Threaded(k) ensures ChainFrom(next', HeadOf(heads', k), At(q, k)) {
      assert ChainFrom(next, HeadOf(heads, k), At(p, k));
      if k != from && k != to {
        ChainFrame(next, HeadOf(heads, k), At(p, k), last, HeadOf(heads, to));
      }
    }
  }

  lemma ChainsApart(p: Places, l: Loc)
    requires WellPlaced(p)
    ensures NoDup(At(p, l)) && forall b, k :: b in At(p, l) && k != l ==> b !in At(p, k)
  {
    forall b, k | b in At(p, l) && k != l ensures b !in At(p, k) {
      assert b in At(p, l) <==> b in p.place && p.place[b] == l;
      assert b in At(p, k) <==> b in p.place && p.place[b] == k;
    }
  }

  /** Putting back nothing. */
  lemma AfterEmptySplice(next: map<Addr, Addr>, prev: map<Addr, Addr>, heads: map<Loc, Addr>, counts: map<Loc, nat>,
                         p: Places, from: Loc, to: Loc)
    requires Spells(next, prev, heads, counts, p) && from.Detached? && to.Queue? && At(p, from) == []
    ensures Spells(next, prev, heads, counts, Splice(p, from, to))
  {
    hide WellPlaced, ChainFrom, Splice, BackLinks;
    SpliceWellPlaced(p, from, to);
    var q := Splice(p, from, to);
    assert At(q, to) == At(p, to);
    forall k | Threaded(k) ensures ChainFrom(next, HeadOf(heads, k), At(q, k)) {
      assert ChainFrom(next, HeadOf(heads, k), At(p, k));
    }
  }

  /** Unmapping forgets a page's free list, or the block in a hand; the links of other chains
      are not touched. */
  lemma AfterEvict(next: map<Addr, Addr>, prev: map<Addr, Addr>, heads: map<Loc, Addr>, counts: map<Loc, nat>,
                   p: Places, l: Loc)
    requires Spells(next, prev, heads, counts, p) && (l.Free? || l.Hand?)
    ensures Spells(next, prev, if l.Free? then heads[l := 0] else heads, counts, Evict(p, l))
  {
    hide WellPlaced, ChainFrom, Evict, BackLinks;
    EvictWellPlaced(p, l);
    EmptyChain(next);
    var q, heads' := Evict(p, l), if l.Free? then heads[l := 0] else heads;
    forall k | Threaded(k) ensures ChainFrom(next, HeadOf(heads', k), At(q, k)) {
      assert ChainFrom(next, HeadOf(heads, k), At(p, k));
    }
  }

  /** A new direct object is in a hand, on no chain. */
  lemma AfterAdmit(next: map<Addr, Addr>, prev: map<Addr, Addr>, heads: map<Loc, Addr>, counts: map<Loc, nat>,
                   p: Places, b: Addr, t: Tid)
    requires Spells(next, prev, heads, counts, p) && b !in p.place && b != 0 && At(p, Hand(t)) == []
    ensures Spells(next[b := 0], prev[b := 0], heads, counts, Admit(p, [b], Hand(t)))
  {
    AdmitWellPlaced(p, [b], Hand(t));
    assert forall k :: b !in At(p, k);
    hide WellPlaced, ChainFrom, Admit;
    var q := Admit(p, [b], Hand(t));
    forall k | Threaded(k) ensures ChainFrom(next[b := 0], HeadOf(heads, k), At(q, k)) {
      assert ChainFrom(next, HeadOf(heads, k), At(p, k));
      ChainFrame(next, HeadOf(heads, k), At(p, k), b, 0);
    }
    assert At(q, Registry) == At(p, Registry);
  }

  /** A quarantined object goes from a hand to no chain. */
  lemma AfterRetire(next: map<Addr, Addr>, prev: map<Addr, Addr>, heads: map<Loc, Addr>, counts: map<Loc, nat>,
                    p: Places, b: Addr)
    requires Spells(next, prev, heads, counts, p) && b in p.place && p.place[b].Hand?
    ensures Spells(next, prev, heads, counts, Move(p, b, Quarantine))
  {
    hide WellPlaced, ChainFrom, Move, BackLinks;
    MoveWellPlaced(p, b, Quarantine);
    KeysAfterMove(p, b, Quarantine);
    var q := Move(p, b, Quarantine);
    forall k | Threaded(k) ensures ChainFrom(next, HeadOf(heads, k), At(q, k)) {
      assert ChainFrom(next, HeadOf(heads, k), At(p, k));
    }
  }

  /** Threading one more block of a new page on its free list. */
  function Adopt(p: Places, b: Addr, l: Loc): Places {
    Places(p.lists[l := [b] + At(p, l)], p.place[b := l])
  }

  lemma AdoptWellPlaced(p: Places, b: Addr, l: Loc)
    requires WellPlaced(p) && b !in p.place
    ensures WellPlaced(Adopt(p, b, l))
    ensures forall k :: b !in At(p, k)
  {
    var q := Adopt(p, b, l);
    forall k ensures b !in At(p, k) {
      assert b in At(p, k) ==> b in p.place;
    }
    forall k ensures NoDup(At(q, k)) {
      assert NoDup(At(p, k)) && b !in At(p, k);
      ConsNoDup(b, At(p, k));
    }
    forall k, x ensures x in At(q, k) <==> x in q.place && q.place[x] == k {
      assert x in At(p, k) <==> x in p.place && p.place[x] == k;
    }
  }

  lemma AfterAdopt(next: map<Addr, Addr>, prev: map<Addr, Addr>, heads: map<Loc, Addr>, counts: map<Loc, nat>,
                   p: Places, b: Addr, l: Loc)
    requires Spells(next, prev, heads, counts, p) && b !in p.place && b != 0 && l.Free?
    ensures Spells(next[b := HeadOf(heads, l)], prev[b := 0], heads[l := b], counts, Adopt(p, b, l))
  {
    AdoptWellPlaced(p, b, l);
    var q, next', heads' := Adopt(p, b, l), next[b := HeadOf(heads, l)], heads[l := b];
    hide WellPlaced, ChainFrom;
    forall k | Threaded(k) ensures ChainFrom(next', HeadOf(heads', k), At(q, k)) {
      assert ChainFrom(next, HeadOf(heads, k), At(p, k)) && b !in At(p, k);
      if k == l {
        ChainPush(next, HeadOf(heads, l), At(p, l), b);
      } else {
        ChainFrame(next, HeadOf(heads, k), At(p, k), b, HeadOf(heads, l));
      }
    }
    assert At(q, Registry) == At(p, Registry) && b !in At(p, Registry);
  }

  lemma AfterOpen(next: map<Addr, Addr>, prev: map<Addr, Addr>, heads: map<Loc, Addr>, counts: map<Loc, nat>, p: Places,
                  l: Loc)
    requires Spells(next, prev, heads, counts, p) && l.Free? && At(p, l) == []
    ensures Spells(next, prev, heads[l := 0], counts, Admit(p, [], l))
  {
    AdmitWellPlaced(p, [], l);
    var q, heads' := Admit(p, [], l), heads[l := 0];
    hide WellPlaced, ChainFrom, Admit;
    EmptyChain(next);
    forall k | Threaded(k) ensures ChainFrom(next, HeadOf(heads', k), At(q, k)) {
      assert ChainFrom(next, HeadOf(heads, k), At(p, k));
    }
  }

  lemma SamePlaces(p: Places, rs: seq<Addr>, b: Addr, l: Loc)
    requires b !in rs && b !in p.place
    ensures Admit(p, rs, l).place[b := l] == Admit(p, [b] + rs, l).place
  {
    var m, n := Admit(p, rs, l).place[b := l], Admit(p, [b] + rs, l).place;
    forall x ensures x in m <==> x in n {
      assert x in [b] + rs <==> x == b || x in rs;
    }
    forall x | x in m ensures m[x] == n[x] {
    }
  }

  /** One more turn of the creation loop is one more block at the front of the list. */
  lemma AdoptAdmits(p: Places, rs: seq<Addr>, b: Addr, l: Loc)
    requires b !in rs && b !in p.place
    ensures b !in Admit(p, rs, l).place
    ensures Adopt(Admit(p, rs, l), b, l) == Admit(p, [b] + rs, l)
  {
    var q, r := Admit(p, rs, l), Admit(p, [b] + rs, l);
    assert At(q, l) == rs;
    assert Adopt(q, b, l).lists == r.lists;
    SamePlaces(p, rs, b, l);
  }

  lemma ReversedLayout(base: Addr, stride: nat, i: nat)
    requires NoDup(Layout(base, stride, i + 1))
    ensures var b, rs := base + FIRST_BLOCK + i * stride, HeapSteps.Reversed(Layout(base, stride, i));
            && b in Layout(base, stride, i + 1)
            && b !in rs
            && HeapSteps.Reversed(Layout(base, stride, i + 1)) == [b] + rs
  {
    var xs, ys := Layout(base, stride, i), Layout(base, stride, i + 1);
    assert ys[i] in ys && ys == xs + [ys[i]];
    var rs := HeapSteps.Reversed(xs);
    forall k | 0 <= k < |rs| ensures rs[k] != ys[i] {
      assert rs[k] == ys[i - 1 - k];
    }
  }

  // ---- What the loops compute --------------------------------------------------------------------------

  /** `refill_tcache_locked`: up to `budget` blocks from page `page` to `t`'s bin. */
  ghost function RefillChains(p: Places, page: Addr, bin: Loc, limit: nat, budget: nat): Places
    decreases budget
  {
    var xs := At(p, Free(page));
    if xs == [] || |At(p, bin)| >= limit || budget == 0 || xs[0] !in p.place then p
    else RefillChains(Move(p, xs[0], bin), page, bin, limit, budget - 1)
  }

  /** The drain loop: up to `budget` blocks from the detached chain to the bins of their
      classes, stopping at the first full bin. */
  ghost function DrainChains(p: Places, t: Tid, classes: map<Addr, Class>, small: nat, medium: nat, budget: nat): Places
    decreases budget
  {
    var xs := At(p, Detached(t));
    if xs == [] || budget == 0 || xs[0] !in p.place || xs[0] !in classes
       || |At(p, Cache(t, classes[xs[0]]))| >= CacheLimit(classes[xs[0]], small, medium) then p
    else DrainChains(Move(p, xs[0], Cache(t, classes[xs[0]])), t, classes, small, medium, budget - 1)
  }

  lemma FirstTaken(p: Places, page: Addr, to: Loc)
    requires WellPlaced(p) && At(p, Free(page)) != [] && to.Cache?
    ensures var b := At(p, Free(page))[0];
            && b in p.place
            && WellPlaced(Move(p, b, to))
            && Move(p, b, to).place.Keys == p.place.Keys
            && |At(Move(p, b, to), Free(page))| == |At(p, Free(page))| - 1
  {
    var b := At(p, Free(page))[0];
    assert b in At(p, Free(page));
    MoveWellPlaced(p, b, to);
    KeysAfterMove(p, b, to);
  }

  lemma TakeParts(s: HeapState.State, t: Tid, page: Addr, b: Addr, to: Loc, o: HeapState.Object, pc: HeapState.Pc)
    requires page in s.pages && b in s.places.place && b in s.objs
    ensures var s' := HeapSteps.Take(s, t, page, b, to, o, pc);
            && s'.places == Move(s.places, b, to) && s'.objs.Keys == s.objs.Keys
            && page in s'.pages && s'.pages[page].liveCount == s.pages[page].liveCount + 1
  {
  }

  /** The refill loop is the list part of the state machine's refill, and the live count
      rises by exactly the blocks moved. */
  lemma {:induction false} RefillAgrees(s: HeapState.State, t: Tid, page: Addr, c: Class, limit: nat, budget: nat)
    requires page in s.pages && WellPlaced(s.places) && s.places.place.Keys == s.objs.Keys
    ensures var s' := HeapSteps.Refill(s, t, page, c, limit, budget);
            && s'.places == RefillChains(s.places, page, Cache(t, c), limit, budget)
            && page in s'.pages
            && s'.pages[page].liveCount + |At(s'.places, Free(page))|
               == s.pages[page].liveCount + |At(s.places, Free(page))|
    decreases budget
  {
    hide WellPlaced, Move, HeapSteps.Take, At;
    var xs := At(s.places, Free(page));
    if xs != [] && |At(s.places, Cache(t, c))| < limit && budget > 0 {
      FirstTaken(s.places, page, Cache(t, c));
      var o, pc := s.objs[xs[0]].(owner := 0), HeapState.PcOf(s.pcs, t);
      var s1 := HeapSteps.Take(s, t, page, xs[0], Cache(t, c), o, pc);
      TakeParts(s, t, page, xs[0], Cache(t, c), o, pc);
      RefillAgrees(s1, t, page, c, limit, budget - 1);
    }
  }

  /** Thread `t` draining alone: cache a block, tick, until a step does something else. */
  ghost function DrainOut(s: HeapState.State, t: Tid, budget: nat): HeapState.State
    decreases budget
  {
    var pc := HeapState.PcOf(s.pcs, t);
    if budget == 0 || !pc.Drain? then s
    else
      var s1 := HeapSteps.GoDrain(s, t, pc);
      var pc1 := HeapState.PcOf(s1.pcs, t);
      if pc1.Tick? then DrainOut(HeapSteps.GoTick(s1, t, pc1), t, budget - 1) else s
  }

  /** The header of each detached block leads to the page of its class. */
  ghost predicate Sorted(s: HeapState.State, t: Tid, classes: map<Addr, Class>) {
    forall b :: b in At(s.places, Detached(t)) ==>
      b in s.objs && b in classes && s.objs[b].page in s.pages && s.pages[s.objs[b].page].cls == classes[b]
  }

  /** The drain loop is the list part of the state machine's drain steps taken in a row. */
  lemma {:induction false} DrainAgrees(s: HeapState.State, t: Tid, classes: map<Addr, Class>)
    requires WellPlaced(s.places) && Sorted(s, t, classes)
    requires var pc := HeapState.PcOf(s.pcs, t); pc.Drain? && pc.n <= DRAIN_LIMIT
    ensures var pc := HeapState.PcOf(s.pcs, t);
            DrainOut(s, t, DRAIN_LIMIT - pc.n).places
            == DrainChains(s.places, t, classes, pc.req.smallLimit, pc.req.mediumLimit, DRAIN_LIMIT - pc.n)
    decreases DRAIN_LIMIT - HeapState.PcOf(s.pcs, t).n
  {
    hide WellPlaced, Sorted, HeapSteps.GoDrain, HeapSteps.GoTick, At, Move;
    var pc := HeapState.PcOf(s.pcs, t);
    var xs := At(s.places, Detached(t));
    DrainStepIs(s, t, classes);
    if xs != [] && pc.n < DRAIN_LIMIT
       && |At(s.places, Cache(t, classes[xs[0]]))| < CacheLimit(classes[xs[0]], pc.req.smallLimit, pc.req.mediumLimit) {
      var s1 := HeapSteps.GoDrain(s, t, pc);
      var s2 := HeapSteps.GoTick(s1, t, HeapState.PcOf(s1.pcs, t));
      DrainAgrees(s2, t, classes);
    }
  }

  /** One drain step and its tick. */
  lemma DrainStepIs(s: HeapState.State, t: Tid, classes: map<Addr, Class>)
    requires WellPlaced(s.places) && Sorted(s, t, classes) && HeapState.PcOf(s.pcs, t).Drain?
    ensures var pc, xs := HeapState.PcOf(s.pcs, t), At(s.places, Detached(t));
            var s1 := HeapSteps.GoDrain(s, t, pc); var pc1 := HeapState.PcOf(s1.pcs, t);
            && (xs != [] ==> xs[0] in classes && xs[0] in s.places.place)
            && (pc1.Tick? <==> xs != [] && pc.n < DRAIN_LIMIT
                               && |At(s.places, Cache(t, classes[xs[0]]))|
                                  < CacheLimit(classes[xs[0]], pc.req.smallLimit, pc.req.mediumLimit))
            && (pc1.Tick? ==> var s2 := HeapSteps.GoTick(s1, t, pc1); var pc2 := HeapState.PcOf(s2.pcs, t);
                              && s2.places == Move(s.places, xs[0], Cache(t, classes[xs[0]]))
                              && pc2.Drain? && pc2.req == pc.req && pc2.n == pc.n + 1
                              && WellPlaced(s2.places) && Sorted(s2, t, classes))
  {
    var xs := At(s.places, Detached(t));
    if xs != [] {
      FirstDrained(s, t, classes);
      hide WellPlaced, Move, At, CacheLimit;
      var b := xs[0];
      assert b in classes;
    }
  }

  lemma FirstDrained(s: HeapState.State, t: Tid, classes: map<Addr, Class>)
    requires WellPlaced(s.places) && Sorted(s, t, classes) && At(s.places, Detached(t)) != []
    ensures var b := At(s.places, Detached(t))[0];
            && b in s.places.place && b in s.objs && b in classes && s.objs[b].page in s.pages
            && s.pages[s.objs[b].page].cls == classes[b]
            && (var q := Move(s.places, b, Cache(t, classes[b]));
                WellPlaced(q) && forall x :: x in At(q, Detached(t)) ==> x in At(s.places, Detached(t)) && x != b)
  {
    var b := At(s.places, Detached(t))[0];
    assert b in At(s.places, Detached(t));
    MoveWellPlaced(s.places, b, Cache(t, classes[b]));
    WithoutFacts(At(s.places, Detached(t)), b);
  }

  // ---- The stored form --------------------------------------------------------------------------------

  class Linked {
    var next: map<Addr, Addr>    // AdaptiveHeader::registry_next
    var prev: map<Addr, Addr>    // AdaptiveHeader::registry_prev
    // free_list, TCacheBin::head, RemoteQueueBucket::head, g_registry_head, a drainer's list
    var heads: map<Loc, Addr>
    var counts: map<Loc, nat>    // TCacheBin::count
    ghost var places: Places

    ghost predicate Valid()
      reads this
    {
      Spells(next, prev, heads, counts, places)
    }

    constructor ()
      ensures Valid() && places == Places(map[], map[])
    {
      next, prev, heads, counts := map[], map[], map[], map[];
      places := Places(map[], map[]);
    }

    /** `registry_insert`. */
    method RegistryInsert(b: Addr)
      requires Valid() && b in places.place && places.place[b].Hand?
      modifies this
      ensures Valid() && places == Move(old(places), b, Registry)
    {
      hide Spells, Move;
      RegistryAfterInsert(next, prev, heads, counts, places, b);
      var head := HeadOf(heads, Registry);
      prev := prev[b := 0];
      next := next[b := head];
      if head != 0 {
        prev := prev[head := b];
      }
      heads := heads[Registry := b];
      places := Move(places, b, Registry);
    }

    /** `registry_remove`, by the thread that frees the object. */
    method RegistryRemove(b: Addr, ghost t: Tid)
      requires Valid() && b in places.place && places.place[b] == Registry
      modifies this
      ensures Valid() && places == Move(old(places), b, Hand(t))
    {
      hide Spells, Move;
      AfterUnlink(next, prev, heads, counts, places, b, Hand(t));
      var before, after := prev[b], next[b];
      if before != 0 {
        next := next[before := after];
      } else if HeadOf(heads, Registry) == b {
        heads := heads[Registry := after];
      }
      if after != 0 {
        prev := prev[after := before];
      }
      prev := prev[b := 0];
      next := next[b := 0];
      places := Move(places, b, Hand(t));
    }

    /** The pushes of `push_tcache`, `enqueue_remote_free` and `deallocate`. */
    method Push(b: Addr, l: Loc)
      requires Valid() && b in places.place && places.place[b].Hand?
      requires l.Free? || l.Cache? || l.Queue?
      modifies this
      ensures Valid() && places == Move(old(places), b, l)
    {
      hide Spells, Move;
      AfterPush(next, prev, heads, counts, places, b, l);
      prev := prev[b := 0];
      next := next[b := HeadOf(heads, l)];
      heads := heads[l := b];
      if l.Cache? {
        counts := counts[l := CountOf(counts, l) + 1];
      }
      places := Move(places, b, l);
    }

    /** `pop_tcache`, and the pop of a page's free list: null exactly when the chain is
        empty, its first block otherwise. */
    method Pop(l: Loc, ghost t: Tid) returns (b: Addr)
      requires Valid() && (l.Free? || l.Cache?)
      modifies this
      ensures Valid()
      ensures b == 0 <==> old(At(places, l)) == []
      ensures b == 0 ==> places == old(places)
      ensures b != 0 ==> b == old(At(places, l))[0] && b in old(places).place && places == Move(old(places), b, Hand(t))
    {
      b := HeadOf(heads, l);
      HeadIsFirst(next, prev, heads, counts, places, l);
      if b == 0 {
        return;
      }
      hide Spells, Move;
      AfterPop(next, prev, heads, counts, places, l, Hand(t));
      heads := heads[l := Next(next, b)];
      if l.Cache? && CountOf(counts, l) > 0 {
        counts := counts[l := CountOf(counts, l) - 1];
      }
      next := next[b := 0];
      prev := prev[b := 0];
      places := Move(places, b, Hand(t));
    }

    /** One turn of the drain loop: the first block of a detached chain goes to a bin. */
    method Transfer(t: Tid, bin: Loc)
      requires Valid() && bin.Cache? && At(places, Detached(t)) != []
      modifies this
      ensures Valid() && At(old(places), Detached(t))[0] in old(places).place
      ensures places == Move(old(places), At(old(places), Detached(t))[0], bin)
    {
      hide Spells, Move;
      HeadIsFirst(next, prev, heads, counts, places, Detached(t));
      AfterTransfer(next, prev, heads, counts, places, Detached(t), bin);
      var b := HeadOf(heads, Detached(t));
      heads := heads[Detached(t) := Next(next, b)];
      next := next[b := HeadOf(heads, bin)];
      prev := prev[b := 0];
      heads := heads[bin := b];
      counts := counts[bin := CountOf(counts, bin) + 1];
      places := Move(places, b, bin);
    }

    /** Unmapping a page, or the direct object in a hand. */
    method Forget(l: Loc)
      requires Valid() && (l.Free? || l.Hand?)
      modifies this
      ensures Valid() && places == Evict(old(places), l)
    {
      hide Spells, Evict;
      AfterEvict(next, prev, heads, counts, places, l);
      if l.Free? {
        heads := heads[l := 0];
      }
      places := Evict(places, l);
    }

    /** The header of a new direct object. */
    method Enter(b: Addr, t: Tid)
      requires Valid() && b !in places.place && b != 0 && At(places, Hand(t)) == []
      modifies this
      ensures Valid() && places == Admit(old(places), [b], Hand(t))
    {
      hide Spells, Admit;
      AfterAdmit(next, prev, heads, counts, places, b, t);
      prev := prev[b := 0];
      next := next[b := 0];
      places := Admit(places, [b], Hand(t));
    }

    /** Quarantining writes no link. */
    method Retire(ghost b: Addr)
      requires Valid() && b in places.place && places.place[b].Hand?
      modifies this
      ensures Valid() && places == Move(old(places), b, Quarantine)
    {
      hide Spells, Move;
      AfterRetire(next, prev, heads, counts, places, b);
      places := Move(places, b, Quarantine);
    }

    /** `refill_tcache_locked`. */
    method Refill(page: Addr, bin: Loc, limit: nat, batch: nat) returns (moved: nat)
      requires Valid() && bin.Cache? && batch > 1
      modifies this
      ensures Valid() && places == RefillChains(old(places), page, bin, limit, batch - 1)
      ensures moved == |old(At(places, Free(page)))| - |At(places, Free(page))|
    {
      hide Spells, Move, RefillChains;
      moved := 0;
      while HeadOf(heads, Free(page)) != 0 && CountOf(counts, bin) < limit && moved + 1 < batch
        invariant Valid() && moved < batch
        invariant RefillChains(old(places), page, bin, limit, batch - 1)
                  == RefillChains(places, page, bin, limit, batch - 1 - moved)
        invariant moved + |At(places, Free(page))| == |old(At(places, Free(page)))|
        decreases batch - moved
      {
        var b := HeadOf(heads, Free(page));
        AfterTransfer(next, prev, heads, counts, places, Free(page), bin);
        RefillTurn(next, prev, heads, counts, places, page, bin, limit, batch - 1 - moved);
        heads := heads[Free(page) := Next(next, b)];
        next := next[b := HeadOf(heads, bin)];
        prev := prev[b := 0];
        heads := heads[bin := b];
        counts := counts[bin := CountOf(counts, bin) + 1];
        places := Move(places, b, bin);
        moved := moved + 1;
      }
      RefillStops(next, prev, heads, counts, places, page, bin, limit, batch - 1 - moved);
    }

    /** The block loop of `create_pool_page`. */
    method BuildFreeList(base: Addr, stride: nat, capacity: nat)
      requires Valid() && base != 0 && At(places, Free(base)) == []
      requires NoDup(Layout(base, stride, capacity))
      requires forall b :: b in Layout(base, stride, capacity) ==> b !in places.place
      modifies this
      ensures Valid() && places == Admit(old(places), HeapSteps.Reversed(Layout(base, stride, capacity)), Free(base))
    {
      hide Spells, Admit, Adopt;
      ghost var l := Free(base);
      AfterOpen(next, prev, heads, counts, places, l);
      heads := heads[Free(base) := 0];
      places := Admit(places, [], l);
      assert HeapSteps.Reversed(Layout(base, stride, 0)) == [];
      var i := 0;
      while i < capacity
        invariant i <= capacity && Valid()
        invariant places == Admit(old(places), HeapSteps.Reversed(Layout(base, stride, i)), Free(base))
      {
        var b := base + FIRST_BLOCK + i * stride;
        LayoutPrefix(base, stride, i + 1, capacity);
        ReversedLayout(base, stride, i);
        AdoptAdmits(old(places), HeapSteps.Reversed(Layout(base, stride, i)), b, Free(base));
        AfterAdopt(next, prev, heads, counts, places, b, Free(base));
        next := next[b := HeadOf(heads, Free(base))];
        prev := prev[b := 0];
        heads := heads[Free(base) := b];
        places := Adopt(places, b, Free(base));
        i := i + 1;
      }
    }

    /** The part of `drain_remote_frees_for` under the bucket mutex: the whole chain of a
        bucket becomes the drainer's local list. */
    method Detach(i: nat, t: Tid)
      requires Valid() && At(places, Detached(t)) == []
      modifies this
      ensures Valid() && places == Splice(old(places), Queue(i), Detached(t))
    {
      hide Spells, Splice;
      AfterDetach(next, prev, heads, counts, places, Queue(i), Detached(t));
      heads := heads[Detached(t) := HeadOf(heads, Queue(i))];
      heads := heads[Queue(i) := 0];
      places := Splice(places, Queue(i), Detached(t));
    }

    /** The drain loop: blocks go to the bins of their classes until the list is empty,
        64 have gone, or a bin is full; in the last case the block keeps its place. */
    method Drain(t: Tid, classes: map<Addr, Class>, small: nat, medium: nat) returns (drained: nat)
      requires Valid() && forall b :: b in At(places, Detached(t)) ==> b in classes
      modifies this
      ensures Valid() && places == DrainChains(old(places), t, classes, small, medium, DRAIN_LIMIT)
      ensures drained == |old(At(places, Detached(t)))| - |At(places, Detached(t))| && drained <= DRAIN_LIMIT
    {
      hide Spells, Move, DrainChains;
      drained := 0;
      while HeadOf(heads, Detached(t)) != 0 && drained < DRAIN_LIMIT
        invariant Valid() && drained <= DRAIN_LIMIT
        invariant forall b :: b in At(places, Detached(t)) ==> b in classes
        invariant DrainChains(old(places), t, classes, small, medium, DRAIN_LIMIT)
                  == DrainChains(places, t, classes, small, medium, DRAIN_LIMIT - drained)
        invariant drained + |At(places, Detached(t))| == |old(At(places, Detached(t)))|
        decreases DRAIN_LIMIT - drained
      {
        var b := HeadOf(heads, Detached(t));
        HeadIsFirst(next, prev, heads, counts, places, Detached(t));
        var c := classes[b];
        var bin := Cache(t, c);
        if CountOf(counts, bin) >= CacheLimit(c, small, medium) {
          DrainFull(next, prev, heads, counts, places, t, classes, small, medium, DRAIN_LIMIT - drained);
          return;
        }
        DrainTurn(next, prev, heads, counts, places, t, classes, small, medium, DRAIN_LIMIT - drained);
        Transfer(t, bin);
        drained := drained + 1;
      }
      DrainStops(next, prev, heads, counts, places, t, classes, small, medium, DRAIN_LIMIT - drained);
    }

    /** Putting the undrained rest back, if any: walk to the end of the list, hook the bucket's
        present chain behind it. */
    method PutBack(t: Tid, i: nat)
      requires Valid()
      modifies this
      ensures Valid() && places == Splice(old(places), Detached(t), Queue(i))
    {
      hide Spells, Splice;
      HeadIsFirst(next, prev, heads, counts, places, Detached(t));
      if HeadOf(heads, Detached(t)) == 0 {
        AfterEmptySplice(next, prev, heads, counts, places, Detached(t), Queue(i));
        places := Splice(places, Detached(t), Queue(i));
        return;
      }
      AfterPutBack(next, prev, heads, counts, places, Detached(t), Queue(i));
      var list := HeadOf(heads, Detached(t));
      ghost var xs := At(places, Detached(t));
      DetachedFirst(next, prev, heads, counts, places, t);
      DetachedChain(next, prev, heads, counts, places, t);
      var tail := list;
      ghost var k := 0;
      while Next(next, tail) != 0
        invariant 0 <= k < |xs| && tail == xs[k]
        decreases |xs| - k
      {
        tail := Next(next, tail);
        k := k + 1;
      }
      next := next[tail := HeadOf(heads, Queue(i))];
      heads := heads[Queue(i) := list];
      heads := heads[Detached(t) := 0];
      places := Splice(places, Detached(t), Queue(i));
    }
  }

  lemma LayoutPrefix(base: Addr, stride: nat, n: nat, capacity: nat)
    requires n <= capacity && NoDup(Layout(base, stride, capacity))
    ensures NoDup(Layout(base, stride, n))
    ensures forall b :: b in Layout(base, stride, n) ==> b in Layout(base, stride, capacity)
  {
    var xs, ys := Layout(base, stride, n), Layout(base, stride, capacity);
    forall j | 0 <= j < n ensures xs[j] in ys && xs[j] == ys[j] {
      assert ys[j] in ys;
    }
  }

  lemma HeadIsFirst(next: map<Addr, Addr>, prev: map<Addr, Addr>, heads: map<Loc, Addr>, counts: map<Loc, nat>,
                    p: Places, l: Loc)
    requires Spells(next, prev, heads, counts, p) && Threaded(l)
    ensures HeadOf(heads, l) == 0 <==> At(p, l) == []
    ensures At(p, l) != [] ==>
              HeadOf(heads, l) == At(p, l)[0] && HeadOf(heads, l) in p.place && p.place[HeadOf(heads, l)] == l
    ensures l.Cache? ==> CountOf(counts, l) == |At(p, l)|
  {
    assert ChainFrom(next, HeadOf(heads, l), At(p, l));
    if At(p, l) != [] {
      assert At(p, l)[0] in At(p, l);
    }
  }

  lemma RefillTurn(next: map<Addr, Addr>, prev: map<Addr, Addr>, heads: map<Loc, Addr>, counts: map<Loc, nat>,
                   p: Places, page: Addr, bin: Loc, limit: nat, budget: nat)
    requires Spells(next, prev, heads, counts, p) && bin.Cache? && budget > 0
    requires HeadOf(heads, Free(page)) != 0 && CountOf(counts, bin) < limit
    ensures var b := HeadOf(heads, Free(page));
            && b in p.place
            && RefillChains(p, page, bin, limit, budget) == RefillChains(Move(p, b, bin), page, bin, limit, budget - 1)
            && |At(Move(p, b, bin), Free(page))| == |At(p, Free(page))| - 1
  {
    HeadIsFirst(next, prev, heads, counts, p, Free(page));
    HeadIsFirst(next, prev, heads, counts, p, bin);
    MoveWellPlaced(p, HeadOf(heads, Free(page)), bin);
  }

  lemma RefillStops(next: map<Addr, Addr>, prev: map<Addr, Addr>, heads: map<Loc, Addr>, counts: map<Loc, nat>,
                    p: Places, page: Addr, bin: Loc, limit: nat, budget: nat)
    requires Spells(next, prev, heads, counts, p) && bin.Cache?
    requires HeadOf(heads, Free(page)) == 0 || CountOf(counts, bin) >= limit || budget == 0
    ensures RefillChains(p, page, bin, limit, budget) == p
  {
    HeadIsFirst(next, prev, heads, counts, p, Free(page));
    HeadIsFirst(next, prev, heads, counts, p, bin);
  }

  lemma DetachedFirst(next: map<Addr, Addr>, prev: map<Addr, Addr>, heads: map<Loc, Addr>, counts: map<Loc, nat>,
                      p: Places, t: Tid)
    requires Spells(next, prev, heads, counts, p)
    ensures At(p, Detached(t)) == [] ==> HeadOf(heads, Detached(t)) == 0
    ensures At(p, Detached(t)) != [] ==>
              HeadOf(heads, Detached(t)) == At(p, Detached(t))[0] && HeadOf(heads, Detached(t)) in p.place
  {
    HeadIsFirst(next, prev, heads, counts, p, Detached(t));
  }

  lemma DetachedChain(next: map<Addr, Addr>, prev: map<Addr, Addr>, heads: map<Loc, Addr>, counts: map<Loc, nat>,
                      p: Places, t: Tid)
    requires Spells(next, prev, heads, counts, p)
    ensures ChainFrom(next, HeadOf(heads, Detached(t)), At(p, Detached(t)))
  {
  }

  lemma DrainTurn(next: map<Addr, Addr>, prev: map<Addr, Addr>, heads: map<Loc, Addr>, counts: map<Loc, nat>, p: Places,
                  t: Tid, classes: map<Addr, Class>, small: nat, medium: nat, budget: nat)
    requires Spells(next, prev, heads, counts, p) && budget > 0 && HeadOf(heads, Detached(t)) != 0
    requires HeadOf(heads, Detached(t)) in classes
    requires var c := classes[HeadOf(heads, Detached(t))]; CountOf(counts, Cache(t, c)) < CacheLimit(c, small, medium)
    ensures var b := HeadOf(heads, Detached(t));
            && b in p.place
            && (var q := Move(p, b, Cache(t, classes[b]));
                && DrainChains(p, t, classes, small, medium, budget)
                   == DrainChains(q, t, classes, small, medium, budget - 1)
                && |At(q, Detached(t))| == |At(p, Detached(t))| - 1
                && forall x :: x in At(q, Detached(t)) ==> x in At(p, Detached(t)))
  {
    var b := HeadOf(heads, Detached(t));
    HeadIsFirst(next, prev, heads, counts, p, Detached(t));
    HeadIsFirst(next, prev, heads, counts, p, Cache(t, classes[b]));
    MoveWellPlaced(p, b, Cache(t, classes[b]));
    WithoutFacts(At(p, Detached(t)), b);
  }

  lemma DrainFull(next: map<Addr, Addr>, prev: map<Addr, Addr>, heads: map<Loc, Addr>, counts: map<Loc, nat>, p: Places,
                  t: Tid, classes: map<Addr, Class>, small: nat, medium: nat, budget: nat)
    requires Spells(next, prev, heads, counts, p) && HeadOf(heads, Detached(t)) != 0
    requires HeadOf(heads, Detached(t)) in classes
    requires var c := classes[HeadOf(heads, Detached(t))]; CountOf(counts, Cache(t, c)) >= CacheLimit(c, small, medium)
    ensures DrainChains(p, t, classes, small, medium, budget) == p
  {
    var b := HeadOf(heads, Detached(t));
    HeadIsFirst(next, prev, heads, counts, p, Detached(t));
    HeadIsFirst(next, prev, heads, counts, p, Cache(t, classes[b]));
  }

  lemma DrainStops(next: map<Addr, Addr>, prev: map<Addr, Addr>, heads: map<Loc, Addr>, counts: map<Loc, nat>,
                   p: Places, t: Tid, classes: map<Addr, Class>, small: nat, medium: nat, budget: nat)
    requires Spells(next, prev, heads, counts, p) && (HeadOf(heads, Detached(t)) == 0 || budget == 0)
    ensures DrainChains(p, t, classes, small, medium, budget) == p
  {
    HeadIsFirst(next, prev, heads, counts, p, Detached(t));
  }
}
