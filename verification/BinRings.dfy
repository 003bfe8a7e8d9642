/** The bin lists of classic/ptmalloc: circular, doubly linked through the `fd` and `bk`
    fields of free chunks, each around a sentinel that lives in the bin array; and the
    singly linked fastbins. */
module BinRings {
  import opened Types
  import opened Places
  import opened Links

  const BINS: nat := 128
  const FASTBINS: nat := 10

  // ---- One ring ---------------------------------------------------------------------------------------

  function First(s: Addr, xs: seq<Addr>): Addr {
    if xs == [] then s else xs[0]
  }

  function Last(s: Addr, xs: seq<Addr>): Addr {
    if xs == [] then s else xs[|xs| - 1]
  }

  function After(s: Addr, xs: seq<Addr>, i: int): Addr {
    if 0 <= i < |xs| - 1 then xs[i + 1] else s
  }

  function Before(s: Addr, xs: seq<Addr>, i: int): Addr {
    if 0 < i < |xs| then xs[i - 1] else s
  }

  ghost predicate Forward(fd: map<Addr, Addr>, s: Addr, xs: seq<Addr>) {
    && s in fd && fd[s] == First(s, xs)
    && forall i :: 0 <= i < |xs| ==> xs[i] in fd && fd[xs[i]] == After(s, xs, i)
  }

  ghost predicate Backward(bk: map<Addr, Addr>, s: Addr, xs: seq<Addr>) {
    && s in bk && bk[s] == Last(s, xs)
    && forall i :: 0 <= i < |xs| ==> xs[i] in bk && bk[xs[i]] == Before(s, xs, i)
  }

  ghost predicate Ring(fd: map<Addr, Addr>, bk: map<Addr, Addr>, s: Addr, xs: seq<Addr>) {
    Forward(fd, s, xs) && Backward(bk, s, xs)
  }

  lemma PushBackForward(fd: map<Addr, Addr>, s: Addr, xs: seq<Addr>, p: Addr)
    requires Forward(fd, s, xs) && p !in xs && s !in xs && p != s && NoDup(xs)
    ensures Forward(fd[p := s][Last(s, xs) := p], s, xs + [p])
  {
  }

  lemma PushBackBackward(bk: map<Addr, Addr>, s: Addr, xs: seq<Addr>, p: Addr)
    requires Backward(bk, s, xs) && p !in xs && s !in xs && p != s
    ensures Backward(bk[p := Last(s, xs)][s := p], s, xs + [p])
  {
  }

  lemma UnlinkForwards(fd: map<Addr, Addr>, s: Addr, xs: seq<Addr>, i: nat)
    requires Forward(fd, s, xs) && s !in xs && NoDup(xs) && i < |xs|
    ensures Forward(fd[Before(s, xs, i) := After(s, xs, i)], s, xs[..i] + xs[i + 1..])
  {
  }

  lemma UnlinkBackwardAt(bk: map<Addr, Addr>, s: Addr, xs: seq<Addr>, i: nat, j: nat)
    requires Backward(bk, s, xs) && s !in xs && i < |xs| && j < |xs| - 1 && Only(xs, i + 1)
    ensures var ys, bk' := xs[..i] + xs[i + 1..], bk[After(s, xs, i) := Before(s, xs, i)];
            ys[j] in bk' && bk'[ys[j]] == Before(s, ys, j)
  {
  }

  lemma UnlinkLast(bk: map<Addr, Addr>, s: Addr, xs: seq<Addr>, i: nat)
    requires Backward(bk, s, xs) && s !in xs && i < |xs|
    ensures var bk' := bk[After(s, xs, i) := Before(s, xs, i)]; s in bk' && bk'[s] == Last(s, xs[..i] + xs[i + 1..])
  {
  }

  lemma UnlinkBackwards(bk: map<Addr, Addr>, s: Addr, xs: seq<Addr>, i: nat)
    requires Backward(bk, s, xs) && s !in xs && NoDup(xs) && i < |xs|
    ensures Backward(bk[After(s, xs, i) := Before(s, xs, i)], s, xs[..i] + xs[i + 1..])
  {
    var ys, bk' := xs[..i] + xs[i + 1..], bk[After(s, xs, i) := Before(s, xs, i)];
    forall j | 0 <= j < |ys| ensures ys[j] in bk' && bk'[ys[j]] == Before(s, ys, j) {
      NoDupOnly(xs, i + 1);
      UnlinkBackwardAt(bk, s, xs, i, j);
    }
    UnlinkLast(bk, s, xs, i);
  }

  // ---- Which chunk is where --------------------------------------------------------------------------

  /** Lists 0..127 are the bins, 128..137 the fastbins. */
  datatype Held = Held(lists: seq<seq<Addr>>, place: map<Addr, nat>)

  ghost predicate WellHeld(h: Held) {
    && |h.lists| == BINS + FASTBINS
    && (forall i :: 0 <= i < |h.lists| ==> NoDup(h.lists[i]))
    && (forall i, x :: 0 <= i < |h.lists| ==> (x in h.lists[i] <==> x in h.place && h.place[x] == i))
    && (forall x :: x in h.place ==> 0 < h.place[x] < BINS + FASTBINS)
  }

  function AddFront(h: Held, x: Addr, i: nat): (r: Held)
    requires i < |h.lists|
    ensures |r.lists| == |h.lists|
  {
    Held(h.lists[i := [x] + h.lists[i]], h.place[x := i])
  }

  function AddBack(h: Held, x: Addr, i: nat): (r: Held)
    requires i < |h.lists|
    ensures |r.lists| == |h.lists|
  {
    Held(h.lists[i := h.lists[i] + [x]], h.place[x := i])
  }

  function Drop(h: Held, x: Addr): (r: Held)
    requires x in h.place && h.place[x] < |h.lists|
    ensures |r.lists| == |h.lists|
  {
    Held(h.lists[h.place[x] := Without(h.lists[h.place[x]], x)], h.place - {x})
  }

  lemma AddHeld(h: Held, x: Addr, i: nat)
    requires WellHeld(h) && 0 < i < BINS + FASTBINS && x !in h.place
    ensures WellHeld(AddFront(h, x, i)) && WellHeld(AddBack(h, x, i))
    ensures forall j :: 0 <= j < |h.lists| ==> x !in h.lists[j]
  {
    forall j | 0 <= j < |h.lists| ensures x !in h.lists[j] {
      assert x in h.lists[j] ==> x in h.place;
    }
    ConsNoDup(x, h.lists[i]);
    ConcatNoDup(h.lists[i], [x]);
    AddMembers(h, x, i);
  }

  lemma AddMembers(h: Held, x: Addr, i: nat)
    requires WellHeld(h) && 0 < i < BINS + FASTBINS && x !in h.place
    ensures forall j, y :: 0 <= j < |h.lists| ==>
              (y in AddFront(h, x, i).lists[j] <==> y in AddFront(h, x, i).place && AddFront(h, x, i).place[y] == j)
    ensures forall j, y :: 0 <= j < |h.lists| ==>
              (y in AddBack(h, x, i).lists[j] <==> y in AddBack(h, x, i).place && AddBack(h, x, i).place[y] == j)
  {
  }

  lemma DropHeld(h: Held, x: Addr)
    requires WellHeld(h) && x in h.place
    ensures WellHeld(Drop(h, x))
    ensures x in h.lists[h.place[x]]
  {
    WithoutFacts(h.lists[h.place[x]], x);
  }

  // ---- All rings and chains ----------------------------------------------------------------------------

  /** Address of the sentinel of bin `i`: two words before the bin's own entry. */
  function Sentinel(origin: Addr, i: nat): Addr {
    origin + 16 * i
  }

  predicate Chunk(origin: Addr, x: Addr) {
    x != 0 && forall i :: 0 <= i < BINS ==> x != Sentinel(origin, i)
  }

  ghost predicate RingsOk(fd: map<Addr, Addr>, bk: map<Addr, Addr>, origin: Addr, lists: seq<seq<Addr>>)
    requires |lists| == BINS + FASTBINS
  {
    forall i :: 0 <= i < BINS ==> Ring(fd, bk, Sentinel(origin, i), lists[i])
  }

  ghost predicate FastsOk(fd: map<Addr, Addr>, fast: seq<Addr>, lists: seq<seq<Addr>>)
    requires |lists| == BINS + FASTBINS && |fast| == FASTBINS
  {
    forall i :: 0 <= i < FASTBINS ==> ChainFrom(fd, fast[i], lists[BINS + i])
  }

  ghost predicate ChunksOk(origin: Addr, place: map<Addr, nat>) {
    origin > 0 && forall x :: x in place ==> Chunk(origin, x)
  }

  /** The pointers spell out `h`. */
  ghost predicate Spelt(fd: map<Addr, Addr>, bk: map<Addr, Addr>, fast: seq<Addr>, origin: Addr, h: Held) {
    && |h.lists| == BINS + FASTBINS && |fast| == FASTBINS
    && WellHeld(h) && ChunksOk(origin, h.place)
    && RingsOk(fd, bk, origin, h.lists) && FastsOk(fd, fast, h.lists)
  }

  /** Key `a` belongs to list `i`, or to no list at all. */
  predicate Inside(h: Held, origin: Addr, i: nat, a: Addr) {
    a == Sentinel(origin, i) || ((a in h.place ==> h.place[a] == i) && Chunk(origin, a))
  }

  lemma Foreign(h: Held, origin: Addr, i: nat, j: nat, a: Addr)
    requires WellHeld(h) && ChunksOk(origin, h.place) && i < BINS && j < BINS + FASTBINS && i != j
    requires Inside(h, origin, i, a)
    ensures a !in h.lists[j] && (j < BINS ==> a != Sentinel(origin, j))
  {
    assert a in h.lists[j] <==> a in h.place && h.place[a] == j;
    assert a in h.place ==> Chunk(origin, a);
  }

  lemma RingFrameAt(fd: map<Addr, Addr>, bk: map<Addr, Addr>, s: Addr, xs: seq<Addr>, a: Addr, v: Addr, b: Addr,
                    w: Addr)
    requires Ring(fd, bk, s, xs) && a !in xs && b !in xs && a != s && b != s
    ensures Ring(fd[a := v], bk[b := w], s, xs)
  {
  }

  /** Changing links of chunks of one list, or of no list, leaves the other rings alone. */
  lemma OtherRings(fd: map<Addr, Addr>, bk: map<Addr, Addr>, origin: Addr, h: Held, i: nat, j: nat,
                   a: Addr, v: Addr, b: Addr, w: Addr)
    requires |h.lists| == BINS + FASTBINS && WellHeld(h) && ChunksOk(origin, h.place) && i < BINS && j < BINS && i != j
    requires Ring(fd, bk, Sentinel(origin, j), h.lists[j])
    requires Inside(h, origin, i, a) && Inside(h, origin, i, b)
    ensures Ring(fd[a := v], bk[b := w], Sentinel(origin, j), h.lists[j])
  {
    hide Ring, WellHeld, ChunksOk, Inside, Sentinel;
    Foreign(h, origin, i, j, a);
    Foreign(h, origin, i, j, b);
    RingFrameAt(fd, bk, Sentinel(origin, j), h.lists[j], a, v, b, w);
  }

  lemma OtherChains(fd: map<Addr, Addr>, origin: Addr, fast: seq<Addr>, h: Held, i: nat, a: Addr, v: Addr)
    requires |h.lists| == BINS + FASTBINS && WellHeld(h) && ChunksOk(origin, h.place) && i < BINS && |fast| == FASTBINS
    requires FastsOk(fd, fast, h.lists) && Inside(h, origin, i, a)
    ensures FastsOk(fd[a := v], fast, h.lists)
  {
    hide WellHeld, ChunksOk, Inside, ChainFrom;
    forall k | 0 <= k < FASTBINS ensures ChainFrom(fd[a := v], fast[k], h.lists[BINS + k]) {
      var xs := h.lists[BINS + k];
      Foreign(h, origin, i, BINS + k, a);
      ChainFrame(fd, fast[k], xs, a, v);
    }
  }

  // ---- What each manipulation does to the whole -----------------------------------------------------------

  /** The members of one list are inside it, and so is its sentinel. */
  lemma Members(h: Held, origin: Addr, i: nat)
    requires WellHeld(h) && ChunksOk(origin, h.place) && i < BINS
    ensures forall k :: 0 <= k < |h.lists[i]| ==> Inside(h, origin, i, h.lists[i][k]) && h.lists[i][k] != 0
    ensures Sentinel(origin, i) !in h.lists[i] && NoDup(h.lists[i])
    ensures Inside(h, origin, i, Sentinel(origin, i))
    ensures Inside(h, origin, i, First(Sentinel(origin, i), h.lists[i]))
    ensures Inside(h, origin, i, Last(Sentinel(origin, i), h.lists[i]))
    ensures First(Sentinel(origin, i), h.lists[i]) != 0 && Last(Sentinel(origin, i), h.lists[i]) != 0
  {
    var xs := h.lists[i];
    forall k | 0 <= k < |xs| ensures Inside(h, origin, i, xs[k]) && xs[k] != Sentinel(origin, i) && xs[k] != 0 {
      assert xs[k] in h.lists[i];
      assert Chunk(origin, xs[k]);
    }
  }

  lemma AfterPushFront(fd: map<Addr, Addr>, bk: map<Addr, Addr>, fast: seq<Addr>, origin: Addr, h: Held, p: Addr,
                       i: nat)
    requires Spelt(fd, bk, fast, origin, h) && 0 < i < BINS && p !in h.place && Chunk(origin, p)
    ensures var s := Sentinel(origin, i);
            && s in fd && (var first := fd[s];
            && first != 0
            && Spelt(fd[p := first][s := p], bk[p := s][first := p], fast, origin, AddFront(h, p, i)))
  {
    hide WellHeld, ChunksOk, Ring, FastsOk, Inside, Sentinel;
    var s := Sentinel(origin, i);
    AddHeld(h, p, i);
    Members(h, origin, i);
    var xs := h.lists[i];
    assert Ring(fd, bk, s, xs);
    FrontRing(fd, bk, s, xs, p);
    FreshInside(h, origin, i, p);
    var first := fd[s];
    var fd', bk', h' := fd[p := first][s := p], bk[p := s][first := p], AddFront(h, p, i);
    forall j | 0 <= j < BINS ensures Ring(fd', bk', Sentinel(origin, j), h'.lists[j]) {
      assert Ring(fd, bk, Sentinel(origin, j), h.lists[j]);
      if j != i {
        OtherRings(fd, bk, origin, h, i, j, p, first, p, s);
        OtherRings(fd[p := first], bk[p := s], origin, h, i, j, s, p, first, p);
      }
    }
    OtherChains(fd, origin, fast, h, i, p, first);
    OtherChains(fd[p := first], origin, fast, h, i, s, p);
    SameFasts(fd', fast, h.lists, h'.lists);
    StillChunks(origin, h.place, p, i);
  }

  lemma StillChunks(origin: Addr, place: map<Addr, nat>, p: Addr, i: nat)
    requires ChunksOk(origin, place) && Chunk(origin, p)
    ensures ChunksOk(origin, place[p := i]) && ChunksOk(origin, place - {p})
  {
  }

  lemma SameFasts(fd: map<Addr, Addr>, fast: seq<Addr>, lists: seq<seq<Addr>>, lists': seq<seq<Addr>>)
    requires |lists| == BINS + FASTBINS && |lists'| == BINS + FASTBINS && |fast| == FASTBINS && FastsOk(fd, fast, lists)
    requires forall k :: BINS <= k < BINS + FASTBINS ==> lists'[k] == lists[k]
    ensures FastsOk(fd, fast, lists')
  {
  }

  lemma FreshInside(h: Held, origin: Addr, i: nat, p: Addr)
    requires p !in h.place && Chunk(origin, p)
    ensures Inside(h, origin, i, p) && (i < BINS ==> p != Sentinel(origin, i))
  {
  }

  lemma FrontRing(fd: map<Addr, Addr>, bk: map<Addr, Addr>, s: Addr, xs: seq<Addr>, p: Addr)
    requires Ring(fd, bk, s, xs) && p !in xs && s !in xs && p != s && NoDup(xs)
    ensures s in fd && fd[s] == First(s, xs)
    ensures Ring(fd[p := fd[s]][s := p], bk[p := s][fd[s] := p], s, [p] + xs)
  {
  }

  lemma LastLink(bk: map<Addr, Addr>, s: Addr, xs: seq<Addr>)
    requires Backward(bk, s, xs)
    ensures s in bk && bk[s] == Last(s, xs)
  {
  }

  lemma BackRing(fd: map<Addr, Addr>, bk: map<Addr, Addr>, s: Addr, xs: seq<Addr>, p: Addr)
    requires Ring(fd, bk, s, xs) && p !in xs && s !in xs && p != s && NoDup(xs)
    ensures s in bk && bk[s] == Last(s, xs)
    ensures Ring(fd[p := s][bk[s] := p], bk[p := bk[s]][s := p], s, xs + [p])
  {
    hide Forward, Backward;
    LastLink(bk, s, xs);
    PushBackForward(fd, s, xs, p);
    PushBackBackward(bk, s, xs, p);
  }

  lemma AfterPushBack(fd: map<Addr, Addr>, bk: map<Addr, Addr>, fast: seq<Addr>, origin: Addr, h: Held, p: Addr, i: nat)
    requires Spelt(fd, bk, fast, origin, h) && 0 < i < BINS && p !in h.place && Chunk(origin, p)
    ensures var s := Sentinel(origin, i);
            && s in bk && (var last := bk[s];
            && last != 0
            && Spelt(fd[p := s][last := p], bk[p := last][s := p], fast, origin, AddBack(h, p, i)))
  {
    hide WellHeld, ChunksOk, Ring, FastsOk, Inside, Sentinel;
    var s := Sentinel(origin, i);
    AddHeld(h, p, i);
    Members(h, origin, i);
    var xs := h.lists[i];
    assert Ring(fd, bk, s, xs);
    BackRing(fd, bk, s, xs, p);
    FreshInside(h, origin, i, p);
    var last := bk[s];
    var fd', bk', h' := fd[p := s][last := p], bk[p := last][s := p], AddBack(h, p, i);
    forall j | 0 <= j < BINS ensures Ring(fd', bk', Sentinel(origin, j), h'.lists[j]) {
      assert Ring(fd, bk, Sentinel(origin, j), h.lists[j]);
      if j != i {
        OtherRings(fd, bk, origin, h, i, j, p, s, p, last);
        OtherRings(fd[p := s], bk[p := last], origin, h, i, j, last, p, s, p);
      }
    }
    OtherChains(fd, origin, fast, h, i, p, s);
    OtherChains(fd[p := s], origin, fast, h, i, last, p);
    SameFasts(fd', fast, h.lists, h'.lists);
    StillChunks(origin, h.place, p, i);
  }

  /** The links around position `k` of a ring, and the ring without it. */
  lemma CutRing(fd: map<Addr, Addr>, bk: map<Addr, Addr>, s: Addr, xs: seq<Addr>, k: nat)
    requires Ring(fd, bk, s, xs) && s !in xs && NoDup(xs) && k < |xs|
    ensures var p := xs[k];
            && p in fd && fd[p] == After(s, xs, k) && p in bk && bk[p] == Before(s, xs, k)
            && fd[p] in bk && bk[fd[p]] == p && bk[p] in fd && fd[bk[p]] == p
            && Ring(fd[bk[p] := fd[p]], bk[fd[p] := bk[p]], s, Without(xs, p))
  {
    UnlinkForwards(fd, s, xs, k);
    UnlinkBackwards(bk, s, xs, k);
    WithoutAt(xs, xs[k], k);
  }

  lemma AfterCut(fd: map<Addr, Addr>, bk: map<Addr, Addr>, fast: seq<Addr>, origin: Addr, h: Held, p: Addr)
    requires Spelt(fd, bk, fast, origin, h) && p in h.place && h.place[p] < BINS
    ensures && p in fd && p in bk && fd[p] != 0 && bk[p] != 0
            && fd[p] in bk && bk[fd[p]] == p && bk[p] in fd && fd[bk[p]] == p
            && Spelt(fd[bk[p] := fd[p]], bk[fd[p] := bk[p]], fast, origin, Drop(h, p))
  {
    var i := h.place[p];
    var s, xs := Sentinel(origin, i), h.lists[i];
    DropHeld(h, p);
    var k :| 0 <= k < |xs| && xs[k] == p;
    CutAt(fd, bk, fast, origin, h, i, k);
  }

  lemma CutAt(fd: map<Addr, Addr>, bk: map<Addr, Addr>, fast: seq<Addr>, origin: Addr, h: Held, i: nat, k: nat)
    requires Spelt(fd, bk, fast, origin, h) && i < BINS && k < |h.lists[i]|
    requires var p := h.lists[i][k]; p in h.place && h.place[p] == i
    ensures var p := h.lists[i][k];
            && p in fd && p in bk && fd[p] != 0 && bk[p] != 0
            && fd[p] in bk && bk[fd[p]] == p && bk[p] in fd && fd[bk[p]] == p
            && Spelt(fd[bk[p] := fd[p]], bk[fd[p] := bk[p]], fast, origin, Drop(h, p))
  {
    hide WellHeld, ChunksOk, Ring, FastsOk, Inside, Sentinel;
    var s, xs := Sentinel(origin, i), h.lists[i];
    var p := xs[k];
    Members(h, origin, i);
    DropHeld(h, p);
    assert Ring(fd, bk, s, xs);
    CutRing(fd, bk, s, xs, k);
    var b, f := bk[p], fd[p];
    assert Inside(h, origin, i, b) && Inside(h, origin, i, f);
    NonNull(origin, h.place, i);
    var fd', bk', h' := fd[b := f], bk[f := b], Drop(h, p);
    forall j | 0 <= j < BINS ensures Ring(fd', bk', Sentinel(origin, j), h'.lists[j]) {
      assert Ring(fd, bk, Sentinel(origin, j), h.lists[j]);
      if j != i {
        OtherRings(fd, bk, origin, h, i, j, b, f, f, b);
      }
    }
    OtherChains(fd, origin, fast, h, i, b, f);
    SameFasts(fd', fast, h.lists, h'.lists);
    FewerChunks(origin, h.place, p);
  }

  lemma FewerChunks(origin: Addr, place: map<Addr, nat>, p: Addr)
    requires ChunksOk(origin, place)
    ensures ChunksOk(origin, place - {p})
  {
  }

  lemma NonNull(origin: Addr, place: map<Addr, nat>, i: nat)
    requires ChunksOk(origin, place)
    ensures Sentinel(origin, i) != 0
  {
  }

  /** Pushing on and unlinking from a fastbin. */
  lemma AfterFastPush(fd: map<Addr, Addr>, bk: map<Addr, Addr>, fast: seq<Addr>, origin: Addr, h: Held, p: Addr, i: nat)
    requires Spelt(fd, bk, fast, origin, h) && i < FASTBINS && p !in h.place && Chunk(origin, p)
    ensures Spelt(fd[p := fast[i]], bk, fast[i := p], origin, AddFront(h, p, BINS + i))
  {
    hide WellHeld, ChunksOk, Ring, Sentinel, ChainFrom;
    AddHeld(h, p, BINS + i);
    var fd', fast', h' := fd[p := fast[i]], fast[i := p], AddFront(h, p, BINS + i);
    forall j | 0 <= j < BINS ensures Ring(fd', bk, Sentinel(origin, j), h'.lists[j]) {
      assert Ring(fd, bk, Sentinel(origin, j), h.lists[j]) && p !in h.lists[j];
      assert p != Sentinel(origin, j);
      ForwardFrame(fd, bk, Sentinel(origin, j), h.lists[j], p, fast[i]);
    }
    forall k | 0 <= k < FASTBINS ensures ChainFrom(fd', fast'[k], h'.lists[BINS + k]) {
      assert ChainFrom(fd, fast[k], h.lists[BINS + k]) && p !in h.lists[BINS + k];
      if k == i {
        ChainPush(fd, fast[i], h.lists[BINS + i], p);
      } else {
        ChainFrame(fd, fast[k], h.lists[BINS + k], p, fast[i]);
      }
    }
    StillChunks(origin, h.place, p, BINS + i);
  }

  lemma ForwardFrame(fd: map<Addr, Addr>, bk: map<Addr, Addr>, s: Addr, xs: seq<Addr>, a: Addr, v: Addr)
    requires Ring(fd, bk, s, xs) && a !in xs && a != s
    ensures Ring(fd[a := v], bk, s, xs)
  {
  }

  lemma SkipKeeping(fd: map<Addr, Addr>, before: Addr, p: Addr)
    requires p in fd && before != p
    ensures Skip(fd, before, p)[p := fd[p]] == if before != 0 then fd[before := fd[p]] else fd
  {
  }

  /** A singly linked chain without position `k`; the cut block keeps its link. */
  lemma CutChain(fd: map<Addr, Addr>, head: Addr, xs: seq<Addr>, k: nat)
    requires ChainFrom(fd, head, xs) && NoDup(xs) && k < |xs| && 0 !in xs
    ensures xs[k] in fd
    ensures var before, after := Preceding(xs, k), fd[xs[k]];
            ChainFrom(if before != 0 then fd[before := after] else fd,
                      if before != 0 then head else after, Without(xs, xs[k]))
  {
    assert xs[k] in fd && Preceding(xs, k) != xs[k];
    CutChainAt(fd, head, xs, k);
  }

  lemma CutChainAt(fd: map<Addr, Addr>, head: Addr, xs: seq<Addr>, k: nat)
    requires ChainFrom(fd, head, xs) && NoDup(xs) && k < |xs| && xs[k] in fd && Preceding(xs, k) != xs[k]
    ensures var before, after := Preceding(xs, k), fd[xs[k]];
            ChainFrom(if before != 0 then fd[before := after] else fd,
                      if before != 0 then head else after, Without(xs, xs[k]))
  {
    hide ChainFrom, NoDup, Without, Skip, Preceding;
    var p, before := xs[k], Preceding(xs, k);
    UnlinkForward(fd, head, xs, k);
    WithoutAt(xs, p, k);
    WithoutFacts(xs, p);
    ChainFrame(Skip(fd, before, p), if before != 0 then head else Next(fd, p), Without(xs, p), p, fd[p]);
    SkipKeeping(fd, before, p);
  }

  lemma AfterFastCut(fd: map<Addr, Addr>, bk: map<Addr, Addr>, fast: seq<Addr>, origin: Addr, h: Held, i: nat, k: nat)
    requires Spelt(fd, bk, fast, origin, h) && i < FASTBINS && k < |h.lists[BINS + i]|
    ensures var xs := h.lists[BINS + i]; var p, before := xs[k], Preceding(xs, k);
            && p in fd && p in h.place && h.place[p] == BINS + i
            && Spelt(if before != 0 then fd[before := fd[p]] else fd, bk,
                     if before != 0 then fast else fast[i := fd[p]], origin, Drop(h, p))
  {
    hide ChunksOk, Ring, Sentinel, ChainFrom, WellHeld;
    var xs := h.lists[BINS + i];
    var p, before := xs[k], Preceding(xs, k);
    assert p in xs && (before != 0 ==> before in xs);
    FastMembers(h, origin, BINS + i);
    DropHeld(h, p);
    assert ChainFrom(fd, fast[i], xs);
    CutChain(fd, fast[i], xs, k);
    var fd', fast', h' := if before != 0 then fd[before := fd[p]] else fd,
                          if before != 0 then fast else fast[i := fd[p]], Drop(h, p);
    forall j | 0 <= j < BINS ensures Ring(fd', bk, Sentinel(origin, j), h'.lists[j]) {
      assert Ring(fd, bk, Sentinel(origin, j), h.lists[j]);
      if before != 0 {
        ForwardFrame(fd, bk, Sentinel(origin, j), h.lists[j], before, fd[p]);
      }
    }
    forall m | 0 <= m < FASTBINS ensures ChainFrom(fd', fast'[m], h'.lists[BINS + m]) {
      assert ChainFrom(fd, fast[m], h.lists[BINS + m]);
      if m != i && before != 0 {
        ChainFrame(fd, fast[m], h.lists[BINS + m], before, fd[p]);
      }
    }
    FewerChunks(origin, h.place, p);
  }

  /** Chunks of one list are on no other, and are no sentinels. */
  lemma FastMembers(h: Held, origin: Addr, i: nat)
    requires WellHeld(h) && ChunksOk(origin, h.place) && i < BINS + FASTBINS
    ensures 0 !in h.lists[i] && NoDup(h.lists[i])
    ensures forall x :: x in h.lists[i] ==> x in h.place && h.place[x] == i
    ensures forall x, j :: x in h.lists[i] && 0 <= j < BINS + FASTBINS && j != i ==> x !in h.lists[j]
    ensures forall x, j :: x in h.lists[i] && 0 <= j < BINS ==> x != Sentinel(origin, j)
  {
    forall x | x in h.lists[i] ensures Chunk(origin, x) {
    }
  }
}
