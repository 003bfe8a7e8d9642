/** The critical section of a pool: choosing a page, taking a block from it and refilling a
    bin. */
module HeapPool {
  import opened Types
  import opened Options
  import opened Geometry
  import opened Places
  import opened HeapState
  import opened HeapSteps
  import opened HeapProofs
  import opened HeapRemote
  import opened HeapLive

  // ---- Counting empty pages -------------------------------------------------------

  lemma CountEmptyMonotone(xs: seq<Addr>, pages: map<Addr, Page>, pages': map<Addr, Page>)
    requires forall p :: p in xs && p in pages' && pages'[p].liveCount == 0 ==> p in pages && pages[p].liveCount == 0
    ensures CountEmpty(xs, pages') <= CountEmpty(xs, pages)
  {
  }

  lemma CountEmptyFrame(xs: seq<Addr>, pages: map<Addr, Page>, pages': map<Addr, Page>)
    requires forall p :: p in xs ==>
               (p in pages' <==> p in pages) && (p in pages ==> pages'[p].liveCount == pages[p].liveCount)
    ensures CountEmpty(xs, pages') == CountEmpty(xs, pages)
  {
  }

  /** Emptying one page of a repetition-free list raises the count by one. */
  lemma {:induction false} CountEmptyGain(xs: seq<Addr>, pages: map<Addr, Page>, p: Addr, page: Page)
    requires NoDup(xs) && p in xs && p in pages && pages[p].liveCount != 0 && page.liveCount == 0
    ensures CountEmpty(xs, pages[p := page]) == CountEmpty(xs, pages) + 1
  {
    if xs[0] == p {
      CountEmptyFrame(xs[1..], pages, pages[p := page]);
    } else {
      CountEmptyGain(xs[1..], pages, p, page);
    }
  }

  /** Dropping an empty page from the list lowers the count by one. */
  lemma {:induction false} CountEmptyDrop(xs: seq<Addr>, pages: map<Addr, Page>, p: Addr)
    requires NoDup(xs) && p in xs && p in pages && pages[p].liveCount == 0
    ensures CountEmpty(Without(xs, p), pages - {p}) == CountEmpty(xs, pages) - 1
  {
    if xs[0] == p {
      CountEmptyFrame(xs[1..], pages, pages - {p});
    } else {
      CountEmptyDrop(xs[1..], pages, p);
      assert Without(xs, p) == [xs[0]] + Without(xs[1..], p);
      assert Without(xs, p)[1..] == Without(xs[1..], p);
    }
  }

  lemma SomeEmptyIsFound(xs: seq<Addr>, pages: map<Addr, Page>)
    ensures CountEmpty(xs, pages) > 0 <==> FirstEmpty(xs, pages).Some?
  {
  }

  // ---- Taking a block from a page -----------------------------------------------------

  lemma FreeHead(s: State, p: Addr)
    requires Core(s) && p in s.pages && At(s.places, Free(p)) != []
    ensures var b := At(s.places, Free(p))[0];
            && b in s.places.place && s.places.place[b] == Free(p) && b in s.objs
            && s.objs[b].pooled && s.objs[b].page == p && s.objs[b].base == p
            && s.objs[b].storage == s.pages[p].cls.storage && s.objs[b].usable == ClassUsable(s.pages[p].cls)
            && !s.objs[b].redzone && s.objs[b].align == 16 && s.objs[b].owner == 0 && !s.objs[b].live
            && s.objs[b].requested == 0
  {
    hide RegionsOk, StoredOk, PoolsOk, PagesOk, HandsOk, PcsOk, LiveCountsOk, BucketsOk, PendingOk, CachesOk,
         LiveGaugeOk, MapGaugeOk, CountedOk, MapCountedOk;
    var b := At(s.places, Free(p))[0];
    assert b in At(s.places, Free(p));
    assert LocOk(s.places.place[b], s.objs[b], s.pages, s.owners);
    assert ObjectOk(b, s.objs[b], s.pages, s.regions);
  }

  function Busier(pages: map<Addr, Page>, p: Addr): map<Addr, Page>
    requires p in pages
  {
    pages[p := WithLive(pages[p], pages[p].liveCount + 1)]
  }

  lemma TakeCounts(s: State, p: Addr, b: Addr, to: Loc)
    requires Core(s) && p in s.pages && b in s.places.place && s.places.place[b] == Free(p) && !to.Free?
    ensures LiveCountsOk(Busier(s.pages, p), Move(s.places, b, to))
    ensures SamePages(s.pages, Busier(s.pages, p))
  {
    hide RegionsOk, StoredOk, PoolsOk, PagesOk, ObjectsOk, WellPlaced, StatusOk, HandsOk, PcsOk, BucketsOk, PendingOk,
         CachesOk, LiveGaugeOk, MapGaugeOk, CountedOk, MapCountedOk, Move;
    MoveWellPlaced(s.places, b, to);
  }

  lemma TakeEmpties(s: State, p: Addr)
    requires EmptiesOk(s.cfg, s.pages, s.pool) && p in s.pages
    ensures EmptiesOk(s.cfg, Busier(s.pages, p), s.pool)
  {
    forall c ensures CountEmpty(PoolOf(s.pool, c), Busier(s.pages, p)) <= EmptyCeiling(s.cfg) {
      CountEmptyMonotone(PoolOf(s.pool, c), s.pages, Busier(s.pages, p));
      assert CountEmpty(PoolOf(s.pool, c), s.pages) <= EmptyCeiling(s.cfg);
    }
  }

  lemma TakeCore(s: State, t: Tid, p: Addr, b: Addr, to: Loc, o: Object, pc: Pc)
    requires Core(s) && p in s.pages && b in s.places.place && s.places.place[b] == Free(p)
    requires !to.Free? && !to.Queue? && !to.Detached? && !pc.Tick? && !PcOf(s.pcs, t).Tick?
    requires MayRelocate(s, t, b, to, o, pc)
    ensures Core(Take(s, t, p, b, to, o, pc))
  {
    hide Core, EmptiesOk, MayRelocate, LiveCountsOk, PendingOk, Move, SamePages;
    TakeCounts(s, p, b, to);
    CorePending(s, t, b, to, pc);
    RelocateCore(s, t, b, to, o, pc, s.pending, Busier(s.pages, p));
    assert Take(s, t, p, b, to, o, pc)
           == Relocate(s, t, b, to, o, pc).(pages := Busier(s.pages, p), pending := s.pending);
  }

  lemma CorePending(s: State, t: Tid, b: Addr, to: Loc, next: Pc)
    requires Core(s) && !PcOf(s.pcs, t).Tick? && !next.Tick? && b in s.places.place
    requires !to.Queue? && !s.places.place[b].Queue? && !s.places.place[b].Detached? && !to.Detached?
    ensures PendingOk(s.pending, Move(s.places, b, to), s.pcs[t := next])
  {
    hide RegionsOk, StoredOk, PoolsOk, PagesOk, ObjectsOk, WellPlaced, StatusOk, HandsOk, PcsOk, LiveCountsOk,
         BucketsOk, CachesOk, LiveGaugeOk, MapGaugeOk, CountedOk, MapCountedOk;
    assert Waiting(Move(s.places, b, to)) == Waiting(s.places);
    assert Ticking(s.pcs[t := next]) == Ticking(s.pcs);
  }

  /** Refilling moves blocks one by one; every intermediate state is consistent. */
  lemma {:induction false} RefillKeeps(s: State, t: Tid, p: Addr, c: Class, limit: nat, budget: nat)
    requires Inv(s) && t in s.pcs && s.pcs[t].Fresh? && p in s.pages && s.pages[p].cls == c && limit <= CacheCeiling(c)
    ensures Inv(Refill(s, t, p, c, limit, budget))
    decreases budget
  {
    hide Core, EmptiesOk;
    var xs := At(s.places, Free(p));
    if xs != [] && |At(s.places, Cache(t, c))| < limit && budget > 0 {
      RefillOne(s, t, p, c);
      RefillKeeps(Take(s, t, p, xs[0], Cache(t, c), s.objs[xs[0]].(owner := 0), PcOf(s.pcs, t)), t, p, c, limit,
                  budget - 1);
    }
  }

  lemma RefillOne(s: State, t: Tid, p: Addr, c: Class)
    requires Inv(s) && t in s.pcs && s.pcs[t].Fresh? && p in s.pages && s.pages[p].cls == c
    requires At(s.places, Free(p)) != [] && |At(s.places, Cache(t, c))| < CacheCeiling(c)
    ensures var b := At(s.places, Free(p))[0];
            && b in s.places.place && b in s.objs
            && Inv(Take(s, t, p, b, Cache(t, c), s.objs[b].(owner := 0), PcOf(s.pcs, t)))
  {
    hide Core, EmptiesOk;
    FreeHead(s, p);
    QuietThread(s, t);
    HeldBlock(s, t);
    var b := At(s.places, Free(p))[0];
    OtherBlockFrame(t, s.pcs[t], s.cfg, s.objs, b, s.objs[b].(owner := 0));
    TakeCore(s, t, p, b, Cache(t, c), s.objs[b].(owner := 0), s.pcs[t]);
    TakeEmpties(s, p);
  }

  lemma OtherBlockFrame(t: Tid, pc: Pc, cfg: Config, objs: map<Addr, Object>, b: Addr, o: Object)
    requires PcOk(t, pc, cfg, objs) && pc.Fresh? && pc.b != b
    ensures PcOk(t, pc, cfg, objs[b := o])
    ensures NewMapping(pc, objs[b := o]) == NewMapping(pc, objs)
  {
  }

  /** The pool section once a page is chosen: the new object in hand, the bin refilled. */
  lemma TakeFromKeeps(s: State, t: Tid, p: Addr)
    requires Core(s) && t in s.pcs && s.pcs[t].Central? && p in s.pages && s.pages[p].cls == s.pcs[t].cls
    requires At(s.places, Free(p)) != [] && EmptiesOk(s.cfg, Busier(s.pages, p), s.pool)
    ensures Inv(TakeFrom(s, t, s.pcs[t].req, s.pcs[t].cls, s.pcs[t].src, p))
  {
    hide Core, EmptiesOk;
    var pc := s.pcs[t];
    var b := At(s.places, Free(p))[0];
    FreeHead(s, p);
    TakeToHand(s, t, p);
    var taken := Take(s, t, p, b, Hand(t), Finalized(s.objs[b], pc.req, pc.cls), Fresh(pc.req, pc.src, b));
    if pc.req.threadCache && pc.req.batch > 1 {
      QuietThread(s, t);
      LimitBelowCeiling(t, pc.req, pc.cls);
      RefillKeeps(taken, t, p, pc.cls, CacheLimit(pc.cls, pc.req.smallLimit, pc.req.mediumLimit), pc.req.batch - 1);
    }
  }

  lemma TakeToHand(s: State, t: Tid, p: Addr)
    requires Core(s) && t in s.pcs && s.pcs[t].Central? && p in s.pages && s.pages[p].cls == s.pcs[t].cls
    requires At(s.places, Free(p)) != [] && EmptiesOk(s.cfg, Busier(s.pages, p), s.pool)
    ensures var pc, b := s.pcs[t], At(s.places, Free(p))[0];
            && b in s.places.place && b in s.objs
            && Inv(Take(s, t, p, b, Hand(t), Finalized(s.objs[b], pc.req, pc.cls), Fresh(pc.req, pc.src, b)))
  {
    hide Core, EmptiesOk;
    var pc, b := s.pcs[t], At(s.places, Free(p))[0];
    FreeHead(s, p);
    QuietThread(s, t);
    TakeCore(s, t, p, b, Hand(t), Finalized(s.objs[b], pc.req, pc.cls), Fresh(pc.req, pc.src, b));
  }

  // ---- Choosing a page -----------------------------------------------------------------

  lemma FirstWithFreeFacts(xs: seq<Addr>, places: Places)
    ensures var r := FirstWithFree(xs, places);
            if r.Some? then r.value in xs && At(places, Free(r.value)) != []
            else forall p :: p in xs ==> At(places, Free(p)) == []
  {
  }

  predicate Candidate(p: Addr, pages: map<Addr, Page>, places: Places) {
    p in pages && At(places, Free(p)) != []
  }

  /** The packing scan returns a page with free blocks and the highest live count. */
  lemma {:induction false} FullestFacts(xs: seq<Addr>, pages: map<Addr, Page>, places: Places, best: Option<Addr>)
    requires best.Some? ==> Candidate(best.value, pages, places)
    ensures var r := Fullest(xs, pages, places, best);
            if r.Some? then
              && Candidate(r.value, pages, places)
              && (r == best || r.value in xs)
              && (best.Some? ==> pages[best.value].liveCount <= pages[r.value].liveCount)
              && (forall p :: p in xs && Candidate(p, pages, places) ==> pages[p].liveCount <= pages[r.value].liveCount)
            else best.None? && forall p :: p in xs ==> !Candidate(p, pages, places)
  {
    if xs != [] {
      var better := xs[0] in pages && At(places, Free(xs[0])) != []
                    && (best.None? || best.value !in pages || pages[xs[0]].liveCount > pages[best.value].liveCount);
      FullestFacts(xs[1..], pages, places, if better then Some(xs[0]) else best);
    }
  }

  /** Selection fails only when every page of the class is full; under packing it picks
      a fullest page. */
  lemma SelectPageFacts(s: State, c: Class, packing: bool)
    requires Core(s)
    ensures var r := SelectPage(s, c, packing);
            if r.Some? then
              && r.value in s.pages && s.pages[r.value].cls == c && At(s.places, Free(r.value)) != []
              && (packing ==> forall p :: p in s.pages && s.pages[p].cls == c && At(s.places, Free(p)) != [] ==>
                                s.pages[p].liveCount <= s.pages[r.value].liveCount)
            else forall p :: p in s.pages && s.pages[p].cls == c ==> At(s.places, Free(p)) == []
  {
    hide RegionsOk, StoredOk, PagesOk, ObjectsOk, WellPlaced, StatusOk, HandsOk, PcsOk, LiveCountsOk, BucketsOk,
         PendingOk, CachesOk, LiveGaugeOk, MapGaugeOk, CountedOk, MapCountedOk;
    FirstWithFreeFacts(PoolOf(s.pool, c), s.places);
    FullestFacts(PoolOf(s.pool, c), s.pages, s.places, None);
    assert forall p :: p in PoolOf(s.pool, c) <==> p in s.pages && s.pages[p].cls == c;
  }
}
