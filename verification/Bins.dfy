/** The bin manager of classic/ptmalloc: push, unlink, small-bin allocation, best fit over
    the large bins with splitting, the bin map, and the searches for one chunk. */
module Bins {
  import opened Types
  import opened Places
  import opened Links
  import opened BinRings
  import opened BinMap
  import opened LargeBins

  const UNSORTED: nat := 1
  const SMALL_BINS: nat := 64
  const FIRST_SMALL: nat := 2
  const FIRST_LARGE: nat := 66
  const MINSIZE: nat := 32

  /** The size word holds the size and three flag bits. */
  function Size(word: nat): nat {
    word - word % 8
  }

  function Flags(word: nat): nat {
    word % 8
  }

  function WithPrevInUse(flags: nat): nat {
    if flags % 2 == 1 then flags else flags + 1
  }

  function SizeOf(head: map<Addr, nat>, x: Addr): nat {
    if x in head then Size(head[x]) else 0
  }

  /** A set bit for every bin that holds a chunk. */
  ghost predicate MapOk(binmap: seq<bv32>, lists: seq<seq<Addr>>) {
    |binmap| == WORDS && |lists| >= BINS && forall i :: 0 <= i < BINS && lists[i] != [] ==> Marked(binmap, i)
  }

  /** Free chunks occupy disjoint ranges that contain no sentinel. */
  ghost predicate SizesOk(origin: Addr, place: map<Addr, nat>, head: map<Addr, nat>) {
    && (forall x :: x in place ==> x in head && SizeOf(head, x) >= MINSIZE && NoSentinel(origin, x, SizeOf(head, x)))
    && (forall x, y :: x in place && y in place && x != y ==> x + SizeOf(head, x) <= y || y + SizeOf(head, y) <= x)
  }

  predicate NoSentinel(origin: Addr, x: Addr, size: nat) {
    forall i :: 0 <= i < BINS ==> !(x <= Sentinel(origin, i) < x + size)
  }

  /** Chunks of the large bins that exist are where `largebin_index` puts them. */
  ghost predicate Filed(place: map<Addr, nat>, head: map<Addr, nat>) {
    forall x :: x in place && FIRST_LARGE <= place[x] < BINS ==> Index(SizeOf(head, x)) == place[x] - FIRST_LARGE
  }

  predicate Large(place: map<Addr, nat>, x: Addr) {
    x in place && FIRST_LARGE <= place[x] < BINS
  }

  // ---- The bin map -----------------------------------------------------------------------------------------

  lemma MapAfterAdd(binmap: seq<bv32>, lists: seq<seq<Addr>>, lists': seq<seq<Addr>>, i: nat)
    requires MapOk(binmap, lists) && i < BINS && |lists'| == |lists|
    requires forall j :: 0 <= j < BINS && j != i ==> lists'[j] == lists[j]
    ensures MapOk(Set(binmap, i), lists')
  {
    hide Marked, Set;
    forall j | 0 <= j < BINS && lists'[j] != [] ensures Marked(Set(binmap, i), j) {
      MarkedAfter(binmap, i, j);
    }
  }

  lemma MapAfterClear(binmap: seq<bv32>, lists: seq<seq<Addr>>, i: nat)
    requires MapOk(binmap, lists) && i < BINS && lists[i] == []
    ensures MapOk(Clear(binmap, i), lists)
  {
    hide Marked, Clear;
    forall j | 0 <= j < BINS && lists[j] != [] ensures Marked(Clear(binmap, i), j) {
      MarkedAfter(binmap, i, j);
    }
  }

  // ---- Best fit ----------------------------------------------------------------------------------------------

  /** Position `k` holds the best fit among positions `from` on: the smallest size that is
      enough, and of that size the one nearest the back. */
  predicate BestAt(xs: seq<Addr>, head: map<Addr, nat>, nb: nat, from: nat, k: nat) {
    && from <= k < |xs| && SizeOf(head, xs[k]) >= nb
    && (forall j :: from <= j < |xs| && SizeOf(head, xs[j]) >= nb ==> SizeOf(head, xs[k]) <= SizeOf(head, xs[j]))
    && (forall j :: k < j < |xs| ==> SizeOf(head, xs[j]) != SizeOf(head, xs[k]))
  }

  predicate NoFit(xs: seq<Addr>, head: map<Addr, nat>, nb: nat, from: nat) {
    forall j :: from <= j < |xs| ==> SizeOf(head, xs[j]) < nb
  }

  /** The best of one bin is the best of all: bins are ordered by size. */
  lemma BestOverall(h: Held, head: map<Addr, nat>, nb: nat, i: nat, k: nat)
    requires WellHeld(h) && Filed(h.place, head) && FIRST_LARGE <= i < BINS
    requires BestAt(h.lists[i], head, nb, 0, k)
    requires forall x :: x in h.place && FIRST_LARGE + Index(nb) <= h.place[x] < i ==> SizeOf(head, x) < nb
    ensures forall x :: Large(h.place, x) && SizeOf(head, x) >= nb ==> SizeOf(head, h.lists[i][k]) <= SizeOf(head, x)
  {
  }

  // ---- Splitting -----------------------------------------------------------------------------------------------

  /** Headers after a split of `v` at `nb`. */
  function SplitHead(head: map<Addr, nat>, v: Addr, nb: nat): map<Addr, nat>
    requires v in head && SizeOf(head, v) >= nb
  {
    var flags := Flags(head[v]);
    head[v := nb + flags][v + nb := SizeOf(head, v) - nb + WithPrevInUse(flags)]
  }

  /** Sizes are conserved by a split. */
  lemma SplitConserves(head: map<Addr, nat>, v: Addr, nb: nat)
    requires v in head && SizeOf(head, v) >= nb && nb % 8 == 0 && nb > 0
    ensures var head' := SplitHead(head, v, nb);
            && SizeOf(head', v) == nb && SizeOf(head', v) + SizeOf(head', v + nb) == SizeOf(head, v)
            && Flags(head'[v]) == Flags(head[v]) && Flags(head'[v + nb]) == WithPrevInUse(Flags(head[v]))
            && forall x :: x != v && x != v + nb ==> SizeOf(head', x) == SizeOf(head, x)
  {
    var f := Flags(head[v]);
    WordParts(nb, f);
    WordParts(SizeOf(head, v) - nb, WithPrevInUse(f));
  }

  lemma WordParts(size: nat, flags: nat)
    requires size % 8 == 0 && flags < 8
    ensures Size(size + flags) == size && Flags(size + flags) == flags
  {
  }

  /** Inside a free chunk there is no other chunk and no sentinel. */
  lemma InteriorIsFree(origin: Addr, place: map<Addr, nat>, head: map<Addr, nat>, v: Addr, a: Addr)
    requires ChunksOk(origin, place) && SizesOk(origin, place, head) && v in place && v < a < v + SizeOf(head, v)
    ensures a !in place && Chunk(origin, a)
  {
  }

  /** Replacing a chunk by its tail keeps the chunks disjoint. */
  lemma SplitSizes(origin: Addr, place: map<Addr, nat>, head: map<Addr, nat>, v: Addr, nb: nat)
    requires SizesOk(origin, place, head) && v in place && nb % 8 == 0 && 0 < nb && nb + MINSIZE <= SizeOf(head, v)
    requires v + nb !in place
    ensures SizesOk(origin, (place - {v})[v + nb := UNSORTED], SplitHead(head, v, nb))
  {
    hide SplitHead;
    SplitConserves(head, v, nb);
    var place', head' := (place - {v})[v + nb := UNSORTED], SplitHead(head, v, nb);
    InHead(head, v, nb);
    forall x | x in place'
      ensures x in head' && SizeOf(head', x) >= MINSIZE && NoSentinel(origin, x, SizeOf(head', x))
    {
      assert NoSentinel(origin, v, SizeOf(head, v));
      assert x != v + nb ==> NoSentinel(origin, x, SizeOf(head, x));
    }
  }

  lemma InHead(head: map<Addr, nat>, v: Addr, nb: nat)
    requires v in head && SizeOf(head, v) >= nb
    ensures SplitHead(head, v, nb).Keys == head.Keys + {v + nb}
  {
  }

  lemma SplitFiled(place: map<Addr, nat>, head: map<Addr, nat>, v: Addr, nb: nat)
    requires Filed(place, head) && v in head && nb % 8 == 0 && 0 < nb <= SizeOf(head, v)
    ensures Filed((place - {v})[v + nb := UNSORTED], SplitHead(head, v, nb))
  {
  }

  lemma DropSizes(origin: Addr, place: map<Addr, nat>, head: map<Addr, nat>, v: Addr)
    requires SizesOk(origin, place, head) && Filed(place, head)
    ensures SizesOk(origin, place - {v}, head) && Filed(place - {v}, head)
  {
  }

  // ---- The stored form ---------------------------------------------------------------------------------------

  /** Outcome of `alloc_split`.  `Beyond` is the search going on to large bin 62, whose
      place in the bin array is one past its end. */
  datatype Split = Found(victim: Addr, remainder: Addr) | Beyond

  class Manager {
    const origin: Addr               // address of the sentinel of bin 0
    var fd: map<Addr, Addr>          // Chunk::fd, sentinels included
    var bk: map<Addr, Addr>          // Chunk::bk, sentinels included
    var head: map<Addr, nat>         // Chunk::size
    var prevSize: map<Addr, nat>     // Chunk::prev_size
    var fast: seq<Addr>              // fastbins_[i].head
    var binmap: seq<bv32>
    ghost var held: Held

    /** The pointers spell out `held`. */
    ghost predicate Linked()
      reads this
    {
      Spelt(fd, bk, fast, origin, held) && |binmap| == WORDS
    }

    ghost predicate Valid()
      reads this
    {
      Linked() && MapOk(binmap, held.lists)
    }

    /** Every chunk has a size, and large chunks are in their bins. */
    ghost predicate Sorted()
      reads this
    {
      SizesOk(origin, held.place, head) && Filed(held.place, head)
    }

    constructor (at: Addr)
      requires at > 0
      ensures Valid() && Sorted() && held.place == map[]
    {
      hide Spelt, MapOk, SizesOk, Filed, SelfLoops;
      origin := at;
      fd := SelfLoops(at);
      bk := SelfLoops(at);
      head, prevSize := map[], map[];
      fast := seq(FASTBINS, _ => 0);
      binmap := [0, 0, 0, 0];
      held := NothingHeld();
      InitSpelt(at);
    }

    /** `BinList::empty`. */
    predicate Empty(i: nat)
      reads this
      requires Linked() && i < BINS
      ensures Empty(i) <==> held.lists[i] == []
    {
      RingAt(fd, bk, fast, origin, held, i);
      fd[Sentinel(origin, i)] == Sentinel(origin, i)
    }

    /** `BinList::push_front`. */
    method PushFront(i: nat, p: Addr)
      requires Linked() && 0 < i < BINS && p !in held.place && Chunk(origin, p)
      modifies this`fd, this`bk, this`held
      ensures Linked() && held == AddFront(old(held), p, i)
    {
      hide Spelt, Sentinel, AddFront;
      AfterPushFront(fd, bk, fast, origin, held, p, i);
      InRange(fd, bk, fast, origin, held);
      var sentinel := Sentinel(origin, i);
      var first := fd[sentinel];
      fd := fd[p := first];
      bk := bk[p := sentinel];
      fd := fd[sentinel := p];
      if first != 0 {
        bk := bk[first := p];
      }
      held := AddFront(held, p, i);
    }

    /** `BinList::push_back`. */
    method PushBack(i: nat, p: Addr)
      requires Linked() && 0 < i < BINS && p !in held.place && Chunk(origin, p)
      modifies this`fd, this`bk, this`held
      ensures Linked() && held == AddBack(old(held), p, i)
    {
      hide Spelt, Sentinel, AddBack;
      AfterPushBack(fd, bk, fast, origin, held, p, i);
      InRange(fd, bk, fast, origin, held);
      var sentinel := Sentinel(origin, i);
      var last := bk[sentinel];
      fd := fd[p := sentinel];
      bk := bk[p := last];
      bk := bk[sentinel := p];
      if last != 0 {
        fd := fd[last := p];
      }
      held := AddBack(held, p, i);
    }

    /** `BinList::unlink`: on a chunk of a bin its checks hold and it takes out that chunk
        only. */
    method Unlink(p: Addr)
      requires Linked() && p in held.place && held.place[p] < BINS
      modifies this`fd, this`bk, this`held
      ensures Linked() && old(held.place[p]) < |old(held.lists)| && held == Drop(old(held), p)
    {
      hide Spelt, Drop;
      AfterCut(fd, bk, fast, origin, held, p);
      InRange(fd, bk, fast, origin, held);
      var fwd, bck := fd[p], bk[p];
      if fwd != 0 && bk[fwd] == p && bck != 0 && fd[bck] == p {
        bk := bk[fwd := bck];
        fd := fd[bck := fwd];
        held := Drop(held, p);
      }
    }

    /** `BinList::pop_front`. */
    method PopFront(i: nat) returns (p: Addr)
      requires Linked() && i < BINS
      modifies this`fd, this`bk, this`held
      ensures Linked()
      ensures p == 0 <==> old(held.lists[i]) == []
      ensures p == 0 ==> held == old(held)
      ensures p != 0 ==>
                && p == old(held.lists[i])[0] && p in old(held.place) && old(held.place[p]) == i
                && held == Drop(old(held), p)
    {
      if Empty(i) {
        return 0;
      }
      RingAt(fd, bk, fast, origin, held, i);
      p := fd[Sentinel(origin, i)];
      assert p in held.lists[i];
      Unlink(p);
    }

    /** `Fastbin::push`, as one atomic step. */
    method FastPush(i: nat, p: Addr)
      requires Linked() && i < FASTBINS && p !in held.place && Chunk(origin, p)
      modifies this`fd, this`fast, this`held
      ensures Linked() && held == AddFront(old(held), p, BINS + i)
    {
      hide Spelt, AddFront;
      AfterFastPush(fd, bk, fast, origin, held, p, i);
      InRange(fd, bk, fast, origin, held);
      fd := fd[p := fast[i]];
      fast := fast[i := p];
      held := AddFront(held, p, BINS + i);
    }

    // ---- Bin map ---------------------------------------------------------------------------------------------

    /** `mark_bin`. */
    method Mark(i: nat)
      requires |binmap| == WORDS && i < BINS
      modifies this`binmap
      ensures binmap == Set(old(binmap), i)
    {
      binmap := binmap[i / 32 := Or(binmap[i / 32], Mask(i % 32))];
    }

    /** `unmark_bin`: only an empty bin loses its bit. */
    method Unmark(i: nat)
      requires Linked() && i < BINS
      modifies this`binmap
      ensures binmap == if held.lists[i] == [] then Clear(old(binmap), i) else old(binmap)
      ensures old(MapOk(binmap, held.lists)) ==> MapOk(binmap, held.lists)
    {
      if Empty(i) {
        if MapOk(binmap, held.lists) {
          MapAfterClear(binmap, held.lists, i);
        }
        binmap := binmap[i / 32 := AndNot(binmap[i / 32], Mask(i % 32))];
      }
    }

    /** `next_nonempty` never skips a bin that holds a chunk. */
    method NextNonempty(start: nat) returns (r: nat)
      requires Valid()
      ensures r <= BINS && (r < BINS ==> start <= r && Marked(binmap, r))
      ensures forall j :: start <= j < r ==> held.lists[j] == []
    {
      r := NextMarked(binmap, start);
    }

    /** An insertion paired with its mark, as every caller does it. */
    method Insert(i: nat, p: Addr)
      requires Valid() && 0 < i < BINS && p !in held.place && Chunk(origin, p)
      modifies this`fd, this`bk, this`held, this`binmap
      ensures Valid() && held == AddFront(old(held), p, i)
    {
      hide Spelt, Set;
      PushFront(i, p);
      MapAfterAdd(binmap, old(held.lists), held.lists, i);
      Mark(i);
    }

    // ---- Allocation --------------------------------------------------------------------------------------------

    /** Unlinking a chunk of bin `i` and clearing the bit of a bin that became empty. */
    method TakeOut(i: nat, p: Addr)
      requires Valid() && i < BINS && p in held.place && held.place[p] == i
      modifies this`fd, this`bk, this`held, this`binmap
      ensures Valid() && i < |old(held.lists)| && held == Drop(old(held), p)
    {
      hide Spelt, Marked;
      InRange(fd, bk, fast, origin, held);
      MapAfterDrop(binmap, held, p);
      Unlink(p);
      Unmark(i);
    }

    /** `alloc`: the oldest chunk of a small bin, null exactly when the bin is empty. */
    method AllocSmall(idx: nat) returns (p: Addr)
      requires Valid() && idx < SMALL_BINS
      modifies this`fd, this`bk, this`held, this`binmap
      ensures Valid()
      ensures var xs := old(held.lists[FIRST_SMALL + idx]);
              && (p == 0 <==> xs == []) && (p == 0 ==> held == old(held))
              && (p != 0 ==> p == xs[|xs| - 1] && p in old(held.place) && old(held.place[p]) == FIRST_SMALL + idx
                             && held == Drop(old(held), p))
    {
      var i := FIRST_SMALL + idx;
      if Empty(i) {
        return 0;
      }
      RingAt(fd, bk, fast, origin, held, i);
      p := bk[Sentinel(origin, i)];
      assert p in held.lists[i];
      TakeOut(i, p);
    }

    /** The walk of `alloc_split` through one bin, from the back. */
    method BestInBin(i: nat, nb: nat) returns (victim: Addr, ghost at: nat)
      requires Valid() && Sorted() && i < BINS
      ensures victim == 0 ==> NoFit(held.lists[i], head, nb, 0)
      ensures victim != 0 ==>
                BestAt(held.lists[i], head, nb, 0, at) && at < |held.lists[i]| && held.lists[i][at] == victim
    {
      hide Spelt, SizesOk, Filed, MapOk, Sentinel, BestAt, NoFit;
      RingAt(fd, bk, fast, origin, held, i);
      var sentinel := Sentinel(origin, i);
      ghost var xs := held.lists[i];
      var p := bk[sentinel];
      victim, at := 0, 0;
      ghost var k := |xs|;
      NothingBehind(xs, head, nb);
      while p != sentinel
        invariant 0 <= k <= |xs| && p == (if k == 0 then sentinel else xs[k - 1])
        invariant victim == 0 ==> NoFit(xs, head, nb, k)
        invariant victim != 0 ==> BestAt(xs, head, nb, k, at) && at < |xs| && xs[at] == victim
        decreases k
      {
        AllSized(origin, held, head, i, k - 1);
        if victim == 0 {
          Consider(xs, head, nb, k - 1);
        } else {
          Compare(xs, head, nb, k - 1, at);
        }
        var size := Size(head[p]);
        k := k - 1;
        if size >= nb && (victim == 0 || size < Size(head[victim])) {
          victim, at := p, k;
          if size == nb {
            ExactIsBest(xs, head, nb, k);
            break;
          }
        }
        p := bk[p];
      }
    }

    /** The end of `alloc_split`: hand out `v`, already unlinked, and put back what is left
        of it when that is at least the smallest chunk. */
    method Carve(v: Addr, nb: nat, ghost before: Held) returns (remainder: Addr)
      requires Valid() && nb % 16 == 0 && nb >= MINSIZE
      requires WellHeld(before) && ChunksOk(origin, before.place) && SizesOk(origin, before.place, head)
      requires Filed(before.place, head)
      requires v in before.place && SizeOf(head, v) >= nb && held == Drop(before, v)
      modifies this`fd, this`bk, this`held, this`binmap, this`head, this`prevSize
      ensures Valid() && Sorted()
      ensures remainder == (if SizeOf(old(head), v) - nb >= MINSIZE then v + nb else 0)
      ensures remainder == 0 ==> held == old(held) && head == old(head)
      ensures remainder != 0 ==> held == AddFront(old(held), remainder, UNSORTED) && head == SplitHead(old(head), v, nb)
      ensures remainder != 0 ==>
                prevSize == old(prevSize)[remainder := nb]
                                         [remainder + (SizeOf(old(head), v) - nb) := SizeOf(old(head), v) - nb]
    {
      hide Spelt, SizesOk, Filed, MapOk, WellHeld, ChunksOk, SplitHead;
      InRange(fd, bk, fast, origin, held);
      DropSizes(origin, before.place, head, v);
      HasHead(origin, before.place, head, v);
      var size := Size(head[v]);
      var left := size - nb;
      if left >= MINSIZE {
        InteriorIsFree(origin, before.place, head, v, v + nb);
        SplitSizes(origin, before.place, head, v, nb);
        SplitFiled(before.place, head, v, nb);
        SplitIs(head, v, nb);
        var flags := Flags(head[v]);
        head := head[v := nb + flags];
        remainder := v + nb;
        prevSize := prevSize[remainder := nb];
        head := head[remainder := left + WithPrevInUse(flags)];
        prevSize := prevSize[remainder + left := left];
        Insert(UNSORTED, remainder);
        return;
      }
      return 0;
    }

    /** `alloc_split`: the victim is a smallest chunk of at least `nb` bytes over all large
        bins, found exactly when there is one. */
    method AllocSplit(nb: nat) returns (r: Split)
      requires Valid() && Sorted() && nb % 16 == 0 && nb >= MINSIZE
      modifies this`fd, this`bk, this`held, this`binmap, this`head, this`prevSize
      ensures Valid() && Sorted()
      ensures r.Beyond? <==> forall x :: Large(old(held.place), x) ==> SizeOf(old(head), x) < nb
      ensures r.Beyond? ==> held == old(held) && head == old(head) && prevSize == old(prevSize)
      ensures r.Found? ==>
                && Large(old(held.place), r.victim) && SizeOf(old(head), r.victim) >= nb
                && forall x :: Large(old(held.place), x) && SizeOf(old(head), x) >= nb
                               ==> SizeOf(old(head), r.victim) <= SizeOf(old(head), x)
      ensures r.Found? ==> r.remainder == if SizeOf(old(head), r.victim) - nb >= MINSIZE then r.victim + nb else 0
      ensures r.Found? && r.remainder == 0 ==>
                old(held.place[r.victim]) < |old(held.lists)| && held == Drop(old(held), r.victim) && head == old(head)
      ensures r.Found? && r.remainder != 0 ==>
                && old(held.place[r.victim]) < |old(held.lists)| && UNSORTED < |Drop(old(held), r.victim).lists|
                && held == AddFront(Drop(old(held), r.victim), r.remainder, UNSORTED)
                && head == SplitHead(old(head), r.victim, nb)
    {
      hide Spelt, SizesOk, Filed, MapOk, WellHeld, ChunksOk, SplitHead, Index, BestAt, Drop, AddFront;
      InRange(fd, bk, fast, origin, held);
      var i := LargeBinIndex(nb);
      Untried(held, head, nb, i);
      while i < BINS - FIRST_LARGE
        invariant Index(nb) <= i
        invariant forall x :: Large(held.place, x) && held.place[x] < FIRST_LARGE + i ==> SizeOf(head, x) < nb
        invariant held == old(held) && head == old(head) && prevSize == old(prevSize) && Valid() && Sorted()
      {
        if !Empty(FIRST_LARGE + i) {
          var victim, at := BestInBin(FIRST_LARGE + i, nb);
          if victim != 0 {
            VictimIsBest(fd, bk, fast, origin, held, head, nb, FIRST_LARGE + i, at);
            Basics(fd, bk, fast, origin, held);
            ghost var before := held;
            TakeOut(FIRST_LARGE + i, victim);
            var remainder := Carve(victim, nb, before);
            return Found(victim, remainder);
          }
        }
        BinHasNone(fd, bk, fast, origin, held, head, nb, FIRST_LARGE + i);
        i := i + 1;
      }
      return Beyond;
    }

    // ---- Searching for one chunk -----------------------------------------------------------------------------------

    /** One fastbin: where the chunk is, and the chunk before it. */
    method FindInFast(i: nat, p: Addr) returns (found: bool, prev: Addr, ghost at: nat)
      requires Linked() && i < FASTBINS
      ensures found <==> p in held.lists[BINS + i]
      ensures found ==>
                && at < |held.lists[BINS + i]| && held.lists[BINS + i][at] == p
                && prev == Preceding(held.lists[BINS + i], at)
    {
      hide Spelt, MapOk;
      ChainAt(fd, bk, fast, origin, held, i);
      ghost var xs := held.lists[BINS + i];
      var cur := fast[i];
      prev, at, found := 0, 0, false;
      while cur != 0
        invariant 0 <= at <= |xs| && cur == (if at < |xs| then xs[at] else 0) && !found
        invariant prev == (if at == 0 then 0 else xs[at - 1])
        invariant forall j :: 0 <= j < at ==> xs[j] != p
        decreases |xs| - at
      {
        if cur == p {
          found := true;
          break;
        }
        prev := cur;
        assert xs[at] in fd && fd[xs[at]] == Following(xs, at);
        cur := fd[cur];
        at := at + 1;
      }
    }

    /** One bin, walked from the front. */
    method FindInBin(i: nat, p: Addr) returns (found: bool)
      requires Linked() && i < BINS
      ensures found <==> p in held.lists[i]
    {
      hide Spelt, MapOk, Sentinel;
      RingAt(fd, bk, fast, origin, held, i);
      ghost var xs := held.lists[i];
      var sentinel := Sentinel(origin, i);
      var cur := fd[sentinel];
      found := false;
      ghost var k := 0;
      while cur != 0 && cur != sentinel
        invariant 0 <= k <= |xs| && cur == (if k < |xs| then xs[k] else sentinel) && !found
        invariant forall j :: 0 <= j < k ==> xs[j] != p
        decreases |xs| - k
      {
        if cur == p {
          found := true;
          break;
        }
        assert xs[k] in fd && fd[xs[k]] == After(sentinel, xs, k);
        cur := fd[cur];
        k := k + 1;
      }
      assert k < |xs| ==> xs[k] in xs;
    }

    /** `contains_free_chunk`. */
    method ContainsFreeChunk(p: Addr) returns (found: bool)
      requires Linked()
      ensures found <==> p in held.place
    {
      hide Spelt, MapOk;
      Basics(fd, bk, fast, origin, held);
      if p == 0 {
        return false;
      }
      var i := 0;
      while i < FASTBINS
        invariant 0 <= i <= FASTBINS
        invariant forall j :: BINS <= j < BINS + i ==> p !in held.lists[j]
      {
        var prev;
        ghost var at;
        found, prev, at := FindInFast(i, p);
        if found {
          return true;
        }
        i := i + 1;
      }
      i := 1;
      while i < BINS
        invariant 1 <= i <= BINS
        invariant forall j :: 1 <= j < i ==> p !in held.lists[j]
      {
        found := FindInBin(i, p);
        if found {
          return true;
        }
        i := i + 1;
      }
      Nowhere(held, p);
      return false;
    }

    /** `unlink_free_chunk` succeeds exactly on the free chunks, and takes out that chunk
        and nothing else. */
    method UnlinkFreeChunk(p: Addr) returns (found: bool)
      requires Valid()
      modifies this`fd, this`bk, this`fast, this`held, this`binmap
      ensures Valid()
      ensures found <==> p in old(held.place)
      ensures found ==> old(held.place[p]) < |old(held.lists)| && held == Drop(old(held), p)
      ensures !found ==>
                held == old(held) && fd == old(fd) && bk == old(bk) && fast == old(fast) && binmap == old(binmap)
    {
      hide Spelt, MapOk, Drop;
      Basics(fd, bk, fast, origin, held);
      var i := 0;
      while i < FASTBINS
        invariant 0 <= i <= FASTBINS
        invariant held == old(held) && fd == old(fd) && bk == old(bk) && fast == old(fast) && binmap == old(binmap)
        invariant forall j :: BINS <= j < BINS + i ==> p !in held.lists[j]
      {
        var prev;
        ghost var at;
        found, prev, at := FindInFast(i, p);
        if found {
          AfterFastCut(fd, bk, fast, origin, held, i, at);
          MapAfterDrop(binmap, held, p);
          if prev != 0 {
            fd := fd[prev := fd[p]];
          } else {
            fast := fast[i := fd[p]];
          }
          held := Drop(held, p);
          return true;
        }
        i := i + 1;
      }
      i := 1;
      while i < BINS
        invariant 1 <= i <= BINS
        invariant held == old(held) && fd == old(fd) && bk == old(bk) && fast == old(fast) && binmap == old(binmap)
        invariant forall j :: 1 <= j < i ==> p !in held.lists[j]
      {
        found := FindInBin(i, p);
        if found {
          TakeOut(i, p);
          return true;
        }
        i := i + 1;
      }
      Nowhere(held, p);
      return false;
    }

    /** Length of one fastbin. */
    method FastLength(i: nat) returns (n: nat)
      requires Linked() && i < FASTBINS
      ensures n == |held.lists[BINS + i]|
    {
      hide Spelt, MapOk;
      ChainAt(fd, bk, fast, origin, held, i);
      ghost var xs := held.lists[BINS + i];
      assert forall j :: 0 <= j < |xs| ==> xs[j] != 0;
      var cur := fast[i];
      n := 0;
      while cur != 0
        invariant 0 <= n <= |xs| && cur == (if n < |xs| then xs[n] else 0)
        decreases |xs| - n
      {
        assert xs[n] in fd && fd[xs[n]] == Following(xs, n);
        n := n + 1;
        cur := fd[cur];
      }
    }

    /** Length of one bin. */
    method BinLength(i: nat) returns (n: nat)
      requires Linked() && i < BINS
      ensures n == |held.lists[i]|
    {
      hide Spelt, MapOk, Sentinel;
      RingAt(fd, bk, fast, origin, held, i);
      ghost var xs := held.lists[i];
      var sentinel := Sentinel(origin, i);
      assert forall j :: 0 <= j < |xs| ==> xs[j] != 0 && xs[j] != sentinel;
      var cur := fd[sentinel];
      n := 0;
      while cur != 0 && cur != sentinel
        invariant 0 <= n <= |xs| && cur == (if n < |xs| then xs[n] else sentinel)
        decreases |xs| - n
      {
        assert xs[n] in fd && fd[xs[n]] == After(sentinel, xs, n);
        n := n + 1;
        cur := fd[cur];
      }
    }

    /** `free_chunk_count`: every free chunk once. */
    method FreeChunkCount() returns (total: nat)
      requires Linked()
      ensures total == |held.place|
    {
      hide Spelt, MapOk, WellHeld;
      Basics(fd, bk, fast, origin, held);
      total := 0;
      var i := 0;
      while i < FASTBINS
        invariant 0 <= i <= FASTBINS && total == Total(held.lists, BINS, BINS + i)
      {
        TotalNext(held.lists, BINS, BINS + i);
        var n := FastLength(i);
        total := total + n;
        i := i + 1;
      }
      i := 1;
      while i < BINS
        invariant 1 <= i <= BINS && total == Total(held.lists, BINS, BINS + FASTBINS) + Total(held.lists, 1, i)
      {
        TotalNext(held.lists, 1, i);
        var n := BinLength(i);
        total := total + n;
        i := i + 1;
      }
      TotalJoin(held.lists, 1, BINS, BINS + FASTBINS);
      TotalIsCount(held);
    }
  }

  /** In a fresh manager every request takes the search past the end of the bin array. */
  method FreshSearchGoesBeyond(at: Addr, nb: nat) returns (r: Split)
    requires at > 0 && nb % 16 == 0 && nb >= MINSIZE
    ensures r == Beyond
  {
    var bins := new Manager(at);
    r := bins.AllocSplit(nb);
  }

  // ---- Facts the methods use -----------------------------------------------------------------------------------

  lemma MapAfterDrop(binmap: seq<bv32>, h: Held, p: Addr)
    requires MapOk(binmap, h.lists) && p in h.place && h.place[p] < |h.lists|
    ensures MapOk(binmap, Drop(h, p).lists)
  {
  }

  lemma AllSized(origin: Addr, h: Held, head: map<Addr, nat>, i: nat, k: nat)
    requires SizesOk(origin, h.place, head) && i < |h.lists| && k < |h.lists[i]|
    requires forall x :: x in h.lists[i] ==> x in h.place && h.place[x] == i
    ensures forall x :: x in h.lists[i] ==> x in head
    ensures h.lists[i][k] in head
  {
  }

  lemma NothingBehind(xs: seq<Addr>, head: map<Addr, nat>, nb: nat)
    ensures NoFit(xs, head, nb, |xs|)
  {
  }

  /** One more chunk, towards the front, when none so far is enough ... */
  lemma Consider(xs: seq<Addr>, head: map<Addr, nat>, nb: nat, k: nat)
    requires k < |xs| && NoFit(xs, head, nb, k + 1)
    ensures if SizeOf(head, xs[k]) >= nb then BestAt(xs, head, nb, k, k) else NoFit(xs, head, nb, k)
  {
  }

  /** ... and when there is a best one so far. */
  lemma Compare(xs: seq<Addr>, head: map<Addr, nat>, nb: nat, k: nat, at: nat)
    requires k < |xs| && BestAt(xs, head, nb, k + 1, at)
    ensures at < |xs|
    ensures BestAt(xs, head, nb, k, if nb <= SizeOf(head, xs[k]) < SizeOf(head, xs[at]) then k else at)
  {
  }

  lemma HasHead(origin: Addr, place: map<Addr, nat>, head: map<Addr, nat>, v: Addr)
    requires SizesOk(origin, place, head) && v in place
    ensures v in head
  {
  }

  lemma SplitIs(head: map<Addr, nat>, v: Addr, nb: nat)
    requires v in head && SizeOf(head, v) >= nb
    ensures SplitHead(head, v, nb)
            == head[v := nb + Flags(head[v])][v + nb := Size(head[v]) - nb + WithPrevInUse(Flags(head[v]))]
  {
  }

  /** An exact fit ends the search of its bin. */
  lemma ExactIsBest(xs: seq<Addr>, head: map<Addr, nat>, nb: nat, k: nat)
    requires BestAt(xs, head, nb, k, k) && SizeOf(head, xs[k]) == nb
    ensures BestAt(xs, head, nb, 0, k)
  {
  }

  lemma Untried(h: Held, head: map<Addr, nat>, nb: nat, i: nat)
    requires Filed(h.place, head) && i == Index(nb)
    ensures forall x :: Large(h.place, x) && h.place[x] < FIRST_LARGE + i ==> SizeOf(head, x) < nb
  {
  }

  lemma VictimIsBest(fd: map<Addr, Addr>, bk: map<Addr, Addr>, fast: seq<Addr>, origin: Addr, h: Held,
                     head: map<Addr, nat>, nb: nat, i: nat, at: nat)
    requires Spelt(fd, bk, fast, origin, h) && Filed(h.place, head) && FIRST_LARGE <= i < BINS
    requires BestAt(h.lists[i], head, nb, 0, at)
    requires forall x :: Large(h.place, x) && h.place[x] < i ==> SizeOf(head, x) < nb
    ensures var v := h.lists[i][at];
            && v in h.place && h.place[v] == i && Large(h.place, v) && SizeOf(head, v) >= nb
            && forall x :: Large(h.place, x) && SizeOf(head, x) >= nb ==> SizeOf(head, v) <= SizeOf(head, x)
  {
    hide RingsOk, FastsOk, Filed, Index;
    assert h.lists[i][at] in h.lists[i];
    assert forall x :: x in h.place && FIRST_LARGE + Index(nb) <= h.place[x] < i ==> Large(h.place, x);
    BestOverall(h, head, nb, i, at);
  }

  lemma BinHasNone(fd: map<Addr, Addr>, bk: map<Addr, Addr>, fast: seq<Addr>, origin: Addr, h: Held,
                   head: map<Addr, nat>, nb: nat, i: nat)
    requires Spelt(fd, bk, fast, origin, h) && FIRST_LARGE <= i < BINS && NoFit(h.lists[i], head, nb, 0)
    ensures forall x :: x in h.place && h.place[x] == i ==> SizeOf(head, x) < nb
  {
  }

  lemma Basics(fd: map<Addr, Addr>, bk: map<Addr, Addr>, fast: seq<Addr>, origin: Addr, h: Held)
    requires Spelt(fd, bk, fast, origin, h)
    ensures WellHeld(h) && ChunksOk(origin, h.place) && |h.lists| == BINS + FASTBINS && |fast| == FASTBINS
    ensures forall i, x :: 0 <= i < |h.lists| ==> (x in h.lists[i] <==> x in h.place && h.place[x] == i)
    ensures forall x :: x in h.place ==> 0 < h.place[x] < BINS + FASTBINS
    ensures 0 !in h.place
  {
  }

  lemma ChainAt(fd: map<Addr, Addr>, bk: map<Addr, Addr>, fast: seq<Addr>, origin: Addr, h: Held, i: nat)
    requires Spelt(fd, bk, fast, origin, h) && i < FASTBINS
    ensures |h.lists| == BINS + FASTBINS && |fast| == FASTBINS
    ensures ChainFrom(fd, fast[i], h.lists[BINS + i]) && 0 !in h.lists[BINS + i]
  {
  }

  lemma Nowhere(h: Held, p: Addr)
    requires WellHeld(h)
    requires forall j :: 1 <= j < BINS ==> p !in h.lists[j]
    requires forall j :: BINS <= j < BINS + FASTBINS ==> p !in h.lists[j]
    ensures p !in h.place
  {
    assert forall x :: x in h.place ==> x in h.lists[h.place[x]];
  }

  // ---- Counting ----------------------------------------------------------------------------------------------------

  /** Chunks on lists `i` up to `n`. */
  function Total(lists: seq<seq<Addr>>, i: nat, n: nat): nat
    requires i <= n <= |lists|
    decreases n
  {
    if i == n then 0 else Total(lists, i, n - 1) + |lists[n - 1]|
  }

  lemma TotalNext(lists: seq<seq<Addr>>, i: nat, n: nat)
    requires i <= n < |lists|
    ensures Total(lists, i, n + 1) == Total(lists, i, n) + |lists[n]|
  {
  }

  lemma {:induction false} TotalJoin(lists: seq<seq<Addr>>, i: nat, m: nat, n: nat)
    requires i <= m <= n <= |lists|
    ensures Total(lists, i, n) == Total(lists, i, m) + Total(lists, m, n)
    decreases n
  {
    if m < n {
      TotalJoin(lists, i, m, n - 1);
    }
  }

  function Below(place: map<Addr, nat>, n: nat): set<Addr> {
    set x | x in place && place[x] < n
  }

  /** The lists up to `n` hold as many chunks as there are chunks placed below `n`. */
  lemma {:induction false} TotalIs(h: Held, n: nat)
    requires WellHeld(h) && 1 <= n <= |h.lists|
    ensures Total(h.lists, 1, n) == |Below(h.place, n)|
  {
    if n == 1 {
      assert Below(h.place, 1) == {};
    } else {
      TotalIs(h, n - 1);
      BelowNext(h, n - 1);
    }
  }

  lemma BelowNext(h: Held, n: nat)
    requires WellHeld(h) && n < |h.lists|
    ensures |Below(h.place, n + 1)| == |Below(h.place, n)| + |h.lists[n]|
  {
    var xs := Elements(h.lists[n]);
    assert Below(h.place, n + 1) == Below(h.place, n) + xs;
    assert Below(h.place, n) !! xs;
    ElementsCount(h.lists[n]);
  }

  lemma TotalIsCount(h: Held)
    requires WellHeld(h)
    ensures |h.lists| == BINS + FASTBINS && Total(h.lists, 1, BINS + FASTBINS) == |h.place|
  {
    TotalIs(h, BINS + FASTBINS);
    assert Below(h.place, BINS + FASTBINS) == h.place.Keys;
    assert |h.place.Keys| == |h.place|;
  }

  /** Taking a chunk out lowers the count by one. */
  lemma DropCounts(h: Held, p: Addr)
    requires WellHeld(h) && p in h.place
    ensures |Drop(h, p).place| == |h.place| - 1
  {
  }

  /** `init`: every sentinel points to itself. */
  function SelfLoops(origin: Addr): map<Addr, Addr> {
    map i | 0 <= i < BINS :: Sentinel(origin, i) := Sentinel(origin, i)
  }

  function NothingHeld(): Held {
    Held(seq(BINS + FASTBINS, _ => []), map[])
  }

  lemma InitSpelt(origin: Addr)
    requires origin > 0
    ensures Spelt(SelfLoops(origin), SelfLoops(origin), seq(FASTBINS, _ => 0), origin, NothingHeld())
    ensures MapOk([0, 0, 0, 0], NothingHeld().lists)
    ensures NothingHeld().place == map[] && SizesOk(origin, map[], map[]) && Filed(map[], map[])
  {
    hide Marked;
    var m := SelfLoops(origin);
    forall i | 0 <= i < BINS ensures Ring(m, m, Sentinel(origin, i), []) {
      assert Sentinel(origin, i) in m;
    }
  }

  lemma InRange(fd: map<Addr, Addr>, bk: map<Addr, Addr>, fast: seq<Addr>, origin: Addr, h: Held)
    requires Spelt(fd, bk, fast, origin, h)
    ensures |h.lists| == BINS + FASTBINS && |fast| == FASTBINS
    ensures forall x :: x in h.place ==> 0 < h.place[x] < BINS + FASTBINS
  {
  }

  lemma RingAt(fd: map<Addr, Addr>, bk: map<Addr, Addr>, fast: seq<Addr>, origin: Addr, h: Held, i: nat)
    requires Spelt(fd, bk, fast, origin, h) && i < BINS
    ensures |h.lists| == BINS + FASTBINS
    ensures Ring(fd, bk, Sentinel(origin, i), h.lists[i])
    ensures Sentinel(origin, i) !in h.lists[i] && 0 !in h.lists[i] && Sentinel(origin, i) != 0
    ensures forall x :: x in h.lists[i] ==> x in h.place && h.place[x] == i
  {
    hide Ring;
    Members(h, origin, i);
  }
}
