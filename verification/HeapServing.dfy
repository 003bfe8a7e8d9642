/** What the pool section of an allocation does, told without its loops: which page it picks,
    which block the caller gets, and how many blocks go to the thread's bin. */
module HeapServing {
  import Arith
  import opened Types
  import opened Policy
  import opened Options
  import opened Geometry
  import opened Places
  import opened HeapState
  import opened HeapSteps
  import opened HeapPool
  import opened HeapReclaim
  import opened HeapRequests
  import opened HeapTheorems
  import opened HeapOutcomes
  import Links
  import LinkRuns

  // ---- Refilling a bin --------------------------------------------------------------------------------------

  /** As many blocks as the batch, the free list and the room in the bin allow. */
  function MovedTo(free: nat, bin: nat, limit: nat, budget: nat): nat {
    Arith.Min(Arith.Min(budget, free), if limit > bin then limit - bin else 0)
  }

  /** The refill moves that many blocks, one by one from the front of the free list to the
      front of the bin, and touches no other chain. */
  lemma {:induction false} RefillMoves(p: Places, page: Addr, bin: Loc, limit: nat, budget: nat)
    requires WellPlaced(p) && bin.Cache?
    ensures var xs, ys := At(p, Free(page)), At(p, bin);
            var n, q := MovedTo(|xs|, |ys|, limit, budget), Links.RefillChains(p, page, bin, limit, budget);
            && At(q, Free(page)) == xs[n..] && At(q, bin) == Reversed(xs[..n]) + ys
            && forall l :: l != Free(page) && l != bin ==> At(q, l) == At(p, l)
    decreases budget
  {
    hide WellPlaced, Move, At, Reversed, MovedTo;
    var xs, ys := At(p, Free(page)), At(p, bin);
    var n := MovedTo(|xs|, |ys|, limit, budget);
    MovedNext(|xs|, |ys|, limit, budget);
    if xs != [] && |ys| < limit && budget > 0 {
      OneMoved(p, page, bin);
      RefillMoves(Move(p, xs[0], bin), page, bin, limit, budget - 1);
      OneMoreReversed(xs, ys, n);
    } else {
      NoneReversed(xs, ys);
    }
  }

  lemma MovedNext(free: nat, bin: nat, limit: nat, budget: nat)
    ensures MovedTo(free, bin, limit, budget) <= free
    ensures free > 0 && bin < limit && budget > 0 ==>
              MovedTo(free, bin, limit, budget) == 1 + MovedTo(free - 1, bin + 1, limit, budget - 1)
    ensures !(free > 0 && bin < limit && budget > 0) ==> MovedTo(free, bin, limit, budget) == 0
  {
  }

  lemma OneMoved(p: Places, page: Addr, bin: Loc)
    requires WellPlaced(p) && bin.Cache? && At(p, Free(page)) != []
    ensures var xs := At(p, Free(page));
            && xs[0] in p.place
            && var q := Move(p, xs[0], bin);
               && WellPlaced(q) && At(q, Free(page)) == xs[1..] && At(q, bin) == [xs[0]] + At(p, bin)
               && forall l :: l != Free(page) && l != bin ==> At(q, l) == At(p, l)
  {
    hide WellPlaced, Move, At;
    FirstPlace(p, page);
    MoveWellPlaced(p, At(p, Free(page))[0], bin);
    FirstGone(At(p, Free(page)));
  }

  lemma OneMoreReversed(xs: seq<Addr>, ys: seq<Addr>, n: nat)
    requires 0 < n <= |xs|
    ensures xs[1..][n - 1..] == xs[n..]
    ensures Reversed(xs[1..][..n - 1]) + ([xs[0]] + ys) == Reversed(xs[..n]) + ys
  {
    assert xs[1..][..n - 1] == xs[1..n];
    assert Reversed(xs[..n]) == Reversed(xs[1..n]) + [xs[0]];
  }

  lemma NoneReversed(xs: seq<Addr>, ys: seq<Addr>)
    ensures xs[0..] == xs && Reversed(xs[..0]) + ys == ys
  {
  }

  lemma FirstPlace(p: Places, page: Addr)
    requires WellPlaced(p) && At(p, Free(page)) != []
    ensures var b := At(p, Free(page))[0]; b in p.place && p.place[b] == Free(page)
  {
    assert At(p, Free(page))[0] in At(p, Free(page));
  }

  // ---- Taking from a page ---------------------------------------------------------------------------------------

  /** The caller gets the first free block of page `p`, the bin the next `n` of them. */
  ghost predicate Served(s: State, t: Tid, c: Class, p: Addr, n: nat, s': State) {
    && p in s.pages && p in s'.pages
    && var xs, ys, pc := At(s.places, Free(p)), At(s.places, Cache(t, c)), PcOf(s'.pcs, t);
       && 1 + n <= |xs| && pc.Fresh? && pc.b == xs[0] && pc.b in s'.objs && s'.objs[pc.b].page == p
       && At(s'.places, Free(p)) == xs[1 + n..] && At(s'.places, Cache(t, c)) == Reversed(xs[1..1 + n]) + ys
       && s'.pages == s.pages[p := WithLive(s.pages[p], s.pages[p].liveCount + 1 + n)]
       && s'.pool == s.pool
  }

  /** Blocks for the bin besides the one for the caller. */
  function Extra(mode: Mode, storage: Storage, free: nat, bin: nat): nat {
    if UsesBins(mode) && free > 0 then MovedTo(free - 1, bin, BinLimit(mode, storage), Batch(mode) - 1) else 0
  }

  lemma TakenServes(s: State, t: Tid, p: Addr)
    requires Core(s) && t in s.pcs && s.pcs[t].Central? && p in s.pages && At(s.places, Free(p)) != []
    ensures var pc, b := s.pcs[t], At(s.places, Free(p))[0];
            && b in s.places.place && b in s.objs && s.places.place[b] == Free(p)
            && Served(s, t, pc.cls, p, 0,
                      Take(s, t, p, b, Hand(t), Finalized(s.objs[b], pc.req, pc.cls), Fresh(pc.req, pc.src, b)))
  {
    hide Core, Move, Finalized, WellPlaced;
    var pc := s.pcs[t];
    var xs := At(s.places, Free(p));
    FreeHead(s, p);
    PlacesAreWell(s);
    MoveWellPlaced(s.places, xs[0], Hand(t));
    FirstGone(xs);
    BlockStays(s.objs[xs[0]], pc.req, pc.cls);
    NothingReversed(xs, At(s.places, Cache(t, pc.cls)));
  }

  lemma NothingReversed(xs: seq<Addr>, ys: seq<Addr>)
    requires xs != []
    ensures Reversed(xs[1..1]) + ys == ys
  {
  }

  lemma RefillServes(s: State, t: Tid, c: Class, p: Addr, s1: State, limit: nat, budget: nat)
    requires Served(s, t, c, p, 0, s1) && WellPlaced(s1.places) && s1.places.place.Keys == s1.objs.Keys
    ensures Served(s, t, c, p, MovedTo(|At(s.places, Free(p))| - 1, |At(s.places, Cache(t, c))|, limit, budget),
                   Refill(s1, t, p, c, limit, budget))
  {
    hide WellPlaced, Refill, At, Links.RefillChains, MovedTo;
    var xs, ys := At(s.places, Free(p)), At(s.places, Cache(t, c));
    NothingReversed(xs, ys);
    Links.RefillAgrees(s1, t, p, c, limit, budget);
    LinkRuns.RefillPages(s1, t, p, c, limit, budget);
    RefillFrame(s1, t, p, c, limit, budget);
    RefillMoves(s1.places, p, Cache(t, c), limit, budget);
    RefillHeader(s1, t, p, c, limit, budget, xs[0]);
    var n := MovedTo(|xs| - 1, |ys|, limit, budget);
    MovedNext(|xs| - 1, |ys|, limit, budget);
    assert xs[1..][n..] == xs[1 + n..];
    assert xs[1..][..n] == xs[1..1 + n];
  }

  lemma TakeServes(s: State, t: Tid, p: Addr)
    requires Core(s) && t in s.pcs && s.pcs[t].Central? && Planned(t, s.pcs[t])
    requires p in s.pages && At(s.places, Free(p)) != []
    ensures var pc := s.pcs[t];
            var n := Extra(pc.req.mode, pc.cls.storage, |At(s.places, Free(p))|, |At(s.places, Cache(t, pc.cls))|);
            Served(s, t, pc.cls, p, n, TakeFrom(s, t, pc.req, pc.cls, pc.src, p))
  {
    hide Core, Planned, Take, Finalized, Refill, WellPlaced, Served, MovedTo, BinLimit, Batch, CacheLimit;
    var pc := s.pcs[t];
    var b := At(s.places, Free(p))[0];
    RequestFields(t, pc, pc.cls);
    TakenServes(s, t, p);
    if UsesBins(pc.req.mode) {
      LinkRuns.TakenIsPlaced(s, t, p);
      BatchIsMore(pc.req.mode);
      RefillServes(s, t, pc.cls, p,
                   Take(s, t, p, b, Hand(t), Finalized(s.objs[b], pc.req, pc.cls), Fresh(pc.req, pc.src, b)),
                   BinLimit(pc.req.mode, pc.cls.storage), pc.req.batch - 1);
    }
  }

  lemma BatchIsMore(mode: Mode)
    requires UsesBins(mode)
    ensures Batch(mode) > 1
  {
  }

  lemma BlockStays(o: Object, req: Request, c: Class)
    ensures Finalized(o, req, c).page == o.page
  {
  }

  lemma {:induction false} RefillHeader(s: State, t: Tid, p: Addr, c: Class, limit: nat, budget: nat, b: Addr)
    requires p in s.pages && b in s.objs
    ensures var s' := Refill(s, t, p, c, limit, budget); b in s'.objs && s'.objs[b].page == s.objs[b].page
    decreases budget
  {
    hide Move, At;
    var xs := At(s.places, Free(p));
    if !(xs == [] || |At(s.places, Cache(t, c))| >= limit || budget == 0 || xs[0] !in s.places.place
         || xs[0] !in s.objs) {
      RefillHeader(Take(s, t, p, xs[0], Cache(t, c), s.objs[xs[0]].(owner := 0), PcOf(s.pcs, t)), t, p, c, limit,
                   budget - 1, b);
    }
  }

  // ---- Choosing the page ----------------------------------------------------------------------------------------

  /** Page number `i` of the class has a free block and goes before every other that has: the
      first one or, in the packing modes, the first of those with the most live blocks. */
  ghost predicate Preferred(s: State, c: Class, mode: Mode, i: nat) {
    var xs := PoolOf(s.pool, c);
    && i < |xs| && At(s.places, Free(xs[i])) != []
    && forall j :: 0 <= j < |xs| && At(s.places, Free(xs[j])) != [] ==>
         if Packs(mode) then
           && xs[i] in s.pages && xs[j] in s.pages
           && s.pages[xs[j]].liveCount <= s.pages[xs[i]].liveCount
           && (j < i ==> s.pages[xs[j]].liveCount < s.pages[xs[i]].liveCount)
         else i <= j
  }

  lemma {:induction false} FirstIsFirst(xs: seq<Addr>, places: Places) returns (i: nat)
    requires FirstWithFree(xs, places).Some?
    ensures i < |xs| && xs[i] == FirstWithFree(xs, places).value && At(places, Free(xs[i])) != []
    ensures forall j :: 0 <= j < i ==> At(places, Free(xs[j])) == []
  {
    if At(places, Free(xs[0])) != [] {
      i := 0;
    } else {
      var k := FirstIsFirst(xs[1..], places);
      i := k + 1;
      assert forall j :: 1 <= j < i ==> xs[j] == xs[1..][j - 1];
    }
  }

  /** The packing scan from a best page so far: it keeps that page unless a later one has
      strictly more live blocks. */
  lemma {:induction false} FullestIsFirst(xs: seq<Addr>, pages: map<Addr, Page>, places: Places, best: Option<Addr>)
      returns (i: nat)
    requires (forall p :: p in xs ==> p in pages) && (best.Some? ==> Candidate(best.value, pages, places))
    requires Fullest(xs, pages, places, best).Some?
    ensures var r := Fullest(xs, pages, places, best).value;
            && Candidate(r, pages, places)
            && i <= |xs| && (if i < |xs| then xs[i] == r else best == Some(r))
            && (forall j :: 0 <= j < |xs| && Candidate(xs[j], pages, places) ==>
                  && pages[xs[j]].liveCount <= pages[r].liveCount
                  && (j < i < |xs| ==> pages[xs[j]].liveCount < pages[r].liveCount))
            && (best.Some? ==> pages[best.value].liveCount <= pages[r].liveCount)
            && (best.Some? && i < |xs| ==> pages[best.value].liveCount < pages[r].liveCount)
  {
    if xs == [] {
      i := 0;
    } else {
      var better := At(places, Free(xs[0])) != []
                    && (best.None? || pages[xs[0]].liveCount > pages[best.value].liveCount);
      var k := FullestIsFirst(xs[1..], pages, places, if better then Some(xs[0]) else best);
      i := if k < |xs| - 1 then k + 1 else if better then 0 else |xs|;
      assert forall j :: 1 <= j < |xs| ==> xs[j] == xs[1..][j - 1];
    }
  }

  lemma SelectIsPreferred(s: State, t: Tid) returns (i: nat)
    requires Core(s) && t in s.pcs && s.pcs[t].Central? && Planned(t, s.pcs[t])
    requires SelectPage(s, s.pcs[t].cls, s.pcs[t].req.packing).Some?
    ensures var pc := s.pcs[t];
            && Preferred(s, pc.cls, pc.req.mode, i)
            && PoolOf(s.pool, pc.cls)[i] == SelectPage(s, pc.cls, pc.req.packing).value
  {
    hide Core, Planned;
    var pc := s.pcs[t];
    RequestFields(t, pc, pc.cls);
    PoolsHold(s);
    if pc.req.packing {
      i := FullestIsFirst(PoolOf(s.pool, pc.cls), s.pages, s.places, None);
    } else {
      i := FirstIsFirst(PoolOf(s.pool, pc.cls), s.places);
    }
  }

  lemma PoolsHold(s: State)
    requires Core(s)
    ensures PoolsOk(s.pages, s.pool)
  {
  }

  // ---- The whole pool section -----------------------------------------------------------------------------------

  /** When the pool section succeeds: if a page of the class has a free block, it serves from
      the preferred one; otherwise from a new page, which becomes the head of its class, belongs
      to the mode of the request and has all its blocks free, the last one first. */
  lemma CentralServes(s: State, t: Tid, oracle: Oracle)
    requires Inv(s) && t in s.pcs && s.pcs[t].Central? && Planned(t, s.pcs[t])
    requires OracleOk(s.regions, oracle, PageBytes(s.cfg, s.pcs[t].cls))
    requires PcOf(GoCentral(s, t, s.pcs[t], oracle).pcs, t).Fresh?
    ensures var pc := s.pcs[t]; var c, mode, bin := pc.cls, pc.req.mode, |At(s.places, Cache(t, pc.cls))|;
            var s' := GoCentral(s, t, pc, oracle); var pool := PoolOf(s.pool, c);
            if exists p :: p in s.pages && s.pages[p].cls == c && At(s.places, Free(p)) != [] then
              exists i :: 0 <= i < |pool| && Preferred(s, c, mode, i)
                          && Served(s, t, c, pool[i], Extra(mode, c.storage, |At(s.places, Free(pool[i]))|, bin), s')
            else
              && oracle.Maps?
              && var blocks := Layout(oracle.base, Stride(c), Capacity(PageBytes(s.cfg, c), c));
                 exists s1 :: && Served(s1, t, c, oracle.base, Extra(mode, c.storage, |blocks|, bin), s')
                              && At(s1.places, Free(oracle.base)) == Reversed(blocks)
                              && At(s1.places, Cache(t, c)) == At(s.places, Cache(t, c))
                              && s1.pages == s.pages[oracle.base := Page(c, mode, PageBytes(s.cfg, c), blocks, 0)]
                              && PoolOf(s1.pool, c) == [oracle.base] + pool
  {
    hide Core, EmptiesOk, Planned, TakeFrom, Capacity, Layout, AddPage, SelectPage, Served, Preferred, At;
    var pc := s.pcs[t];
    SelectPageFacts(s, pc.cls, pc.req.packing);
    match SelectPage(s, pc.cls, pc.req.packing)
    case Some(p) =>
      var i := SelectIsPreferred(s, t);
      InPool(s, pc.cls, pc.req.mode, i);
      TakeServes(s, t, p);
    case None =>
      assert !exists p :: p in s.pages && s.pages[p].cls == pc.cls && At(s.places, Free(p)) != [];
      NewPageReady(s, t, oracle);
      NewPageChains(s, t, oracle);
      TakeServes(AddPage(s, pc.cls, pc.req.mode, oracle.base, oracle.kept), t, oracle.base);
  }

  lemma InPool(s: State, c: Class, mode: Mode, i: nat)
    requires Preferred(s, c, mode, i)
    ensures i < |PoolOf(s.pool, c)|
  {
  }

  lemma NewPageChains(s: State, t: Tid, oracle: Oracle)
    requires Inv(s) && t in s.pcs && s.pcs[t].Central? && oracle.Maps?
    requires OracleOk(s.regions, oracle, PageBytes(s.cfg, s.pcs[t].cls))
    requires Capacity(PageBytes(s.cfg, s.pcs[t].cls), s.pcs[t].cls) > 0
    ensures var pc := s.pcs[t];
            var c, mode := pc.cls, pc.req.mode;
            var s1 := AddPage(s, c, mode, oracle.base, oracle.kept);
            var blocks := Layout(oracle.base, Stride(c), Capacity(PageBytes(s.cfg, c), c));
            && At(s1.places, Free(oracle.base)) == Reversed(blocks)
            && At(s1.places, Cache(t, c)) == At(s.places, Cache(t, c))
            && s1.pages == s.pages[oracle.base := Page(c, mode, PageBytes(s.cfg, c), blocks, 0)]
            && PoolOf(s1.pool, c) == [oracle.base] + PoolOf(s.pool, c)
  {
    hide Core, EmptiesOk, Capacity, Layout, Reversed;
  }
}
