/** What holds in every reachable state of the memory layer. */
module HeapTheorems {
  import opened Types
  import opened Policy
  import opened Geometry
  import opened Places
  import opened HeapState
  import opened HeapSteps
  import opened HeapRemote
  import opened HeapLive
  import opened HeapPool
  import opened HeapPages
  import opened HeapReclaim
  import opened HeapSafety
  import opened HeapFrames
  import opened HeapPayload
  import opened HeapRequests
  import opened HeapBuckets
  import opened Memalign

  // ---- One place per block -----------------------------------------------------------------------

  /** The places a block of page `p` can be in. */
  predicate PlaceOfBlock(s: State, p: Addr, l: Loc) {
    match l
    case Free(q) => q == p
    case Cache(_, c) => p in s.pages && c == s.pages[p].cls
    case Queue(i) => i < BUCKETS
    case Detached(t) => t in s.pcs && Draining(s.pcs[t])
    case Registry => true
    case Hand(t) => t in s.pcs && Held(s.pcs[t]) != []
    case Quarantine => false
  }

  /** Each block of each mapped pool page is in exactly one place, at one position of one
      chain: its page's free list, a bin of its own class, a remote bucket, a chain being
      drained, the registry, or the hand of one thread in the middle of an operation. */
  lemma EveryBlockHasOnePlace(s: State, p: Addr, b: Addr)
    requires Reachable(s) && p in s.pages && b in s.pages[p].blocks
    ensures b in s.places.place && PlaceOfBlock(s, p, s.places.place[b])
    ensures exists i :: 0 <= i < |At(s.places, s.places.place[b])| && At(s.places, s.places.place[b])[i] == b
    ensures forall l, i, m, j ::
              0 <= i < |At(s.places, l)| && 0 <= j < |At(s.places, m)| && At(s.places, l)[i] == b
                && At(s.places, m)[j] == b
              ==> l == m && i == j
  {
    hide Core, EmptiesOk, Reachable, WellPlaced;
    ReachableIsOk(s);
    BlockPlace(s, p, b);
    PlacesAreWell(s);
    ExactlyOnePlace(s.places, b);
  }

  lemma BlockPlace(s: State, p: Addr, b: Addr)
    requires Core(s) && p in s.pages && b in s.pages[p].blocks
    ensures b in s.places.place && PlaceOfBlock(s, p, s.places.place[b])
  {
    hide RegionsOk, StoredOk, PoolsOk, PcsOk, LiveCountsOk, ObjectsOk, BucketsOk, CachesOk, LiveGaugeOk, MapGaugeOk,
         PendingOk, CountedOk, MapCountedOk, Layout, Capacity;
    assert PageOk(p, s.pages[p], s.regions, s.objs);
    assert LocOk(s.places.place[b], s.objs[b], s.pages, s.owners);
    BucketCount(s);
    var l := s.places.place[b];
    assert b in At(s.places, l);
    if l.Hand? {
      assert At(s.places, Hand(l.owner)) == Held(PcOf(s.pcs, l.owner));
    } else if l.Detached? {
      assert At(s.places, Hand(l.owner)) == Held(PcOf(s.pcs, l.owner));
    }
  }

  /** A page's live count is its capacity less its free list; at zero every block is on
      the free list, so unmapping the page loses nothing. */
  lemma LiveCountIsExact(s: State, p: Addr)
    requires Reachable(s) && p in s.pages
    ensures s.pages[p].liveCount == |s.pages[p].blocks| - |At(s.places, Free(p))|
    ensures s.pages[p].liveCount == 0 ==>
              forall b :: b in s.pages[p].blocks ==> b in s.places.place && s.places.place[b] == Free(p)
  {
    hide Core, EmptiesOk, Reachable;
    ReachableIsOk(s);
    CountsHold(s, p);
    if s.pages[p].liveCount == 0 {
      EmptyPageIsAllFree(s, p);
    }
  }

  lemma CountsHold(s: State, p: Addr)
    requires Core(s) && p in s.pages
    ensures s.pages[p].liveCount + |At(s.places, Free(p))| == |s.pages[p].blocks|
  {
    hide RegionsOk, StoredOk, PoolsOk, PcsOk, ObjectsOk, PagesOk, WellPlaced, StatusOk, HandsOk, BucketsOk, CachesOk,
         LiveGaugeOk, MapGaugeOk, PendingOk, CountedOk, MapCountedOk;
  }

  // ---- Pointers -------------------------------------------------------------------------------------

  /** Every live object: the user pointer has the alignment on record (16 at least), the usable
      size covers the size on record, and header, payload and redzone lie inside one current
      mapping without leaving the address space. */
  lemma LiveObjectIsWellFormed(s: State, b: Addr)
    requires Reachable(s) && b in s.places.place && s.places.place[b] == Registry
    ensures b in s.objs
    ensures var o := s.objs[b];
            && o.align >= 16 && (b + HEADER) % o.align == 0
            && o.requested <= o.usable
            && o.base in s.regions && o.base <= b && b + Extent(o) <= o.base + s.regions[o.base].size <= WORD
  {
    hide Core, EmptiesOk, Reachable;
    ReachableIsOk(s);
    RegisteredBlock(s, b);
    ObjectInRegion(s, b);
    ObjectFits(s, b);
    GoodRegions(s, s.objs[b].base);
    ObjectAligned(s, b);
  }

  /** Over whole runs: the object of `malloc(size)` or `memalign(alignment, size)` has exactly
      that size on record and room for it, lies at the alignment asked for (16 at least), and
      belongs to the calling thread and to the mode active when the call started; the object of a growing `realloc` is
      16-aligned, has the new size and the mode of the object it grows. */
  lemma ObjectIsAsAskedFor(s: State, start: Step, during: seq<Step>, s1: State, later: seq<Step>, s2: State)
    requires Inv(s) && Enabled(s, start) && (start.Malloc? || start.Realloc?)
    requires StaysInAllocation(Apply(s, start), during, start.t) && Runs(Apply(s, start), during, s1)
    requires start.t in s1.pcs && s1.pcs[start.t].Note?
    requires Runs(s1, later, s2) && Spares(s1, later, s1.pcs[start.t].b)
    ensures Registered(s2, s1.pcs[start.t].b)
    ensures var b := s1.pcs[start.t].b; var o := s2.objs[b];
            && o.requested == start.size <= o.usable && o.owner == start.t
            && o.align == (if start.Malloc? && start.alignment > 16 then start.alignment else 16)
            && (b + HEADER) % o.align == 0
            && (start.Malloc? ==> o.mode == s.active)
            && (start.Realloc? ==> start.b in s.objs && o.mode == s.objs[start.b].mode)
  {
    hide Core, EmptiesOk, Apply, Enabled, Runs, Spares, MakeRequest;
    ObjectAnswersItsCall(s, start, during, s1, later, s2);
    var b := s1.pcs[start.t].b;
    ObjectAligned(s2, b);
    HasRoom(s2, b);
    if start.Malloc? {
      RequestEchoes(start.size, start.alignment, s.active, start.t, false);
    } else {
      RequestEchoes(start.size, 16, s.objs[start.b].mode, start.t, start.b != 0);
    }
  }

  /** The whole of `memalign(requested, size)` for an alignment above 16: with the alignment `p`
      that `Memalign.RoundAlignment` returns, over whole runs, the object lies at a multiple of
      the least power of two that is not below the requested alignment. */
  lemma MemalignIsAligned(requested: bv64, p: bv64, s: State, start: Step, during: seq<Step>, s1: State,
                          later: seq<Step>, s2: State)
    requires requested > 16 && NextPower(p, requested - 1) && p != 0
    requires Inv(s) && Enabled(s, start) && start.Malloc? && start.alignment == p as nat
    requires StaysInAllocation(Apply(s, start), during, start.t) && Runs(Apply(s, start), during, s1)
    requires start.t in s1.pcs && s1.pcs[start.t].Note?
    requires Runs(s1, later, s2) && Spares(s1, later, s1.pcs[start.t].b)
    ensures PowerOfTwo(p) && NotBelow(p, requested)
    ensures forall q: bv64 :: PowerOfTwo(q) && NotBelow(q, requested) ==> NotBelow(q, p)
    ensures Registered(s2, s1.pcs[start.t].b) && p as nat > 0 && (s1.pcs[start.t].b + HEADER) % (p as nat) == 0
  {
    hide Inv, Apply, Enabled, Runs, Spares, PowerOfTwo, NextPower, NotBelow;
    RoundedIsLeast(requested, p);
    AboveSixteen(p);
    ObjectIsAsAskedFor(s, start, during, s1, later, s2);
  }

  lemma GoodRegions(s: State, r: Addr)
    requires Core(s) && r in s.regions
    ensures GoodRegion(r, s.regions[r].size)
  {
  }

  lemma ObjectAligned(s: State, b: Addr)
    requires Core(s) && b in s.objs
    ensures s.objs[b].align >= 16 && (b + HEADER) % s.objs[b].align == 0
  {
    hide RegionsOk, StoredOk, PoolsOk, PcsOk, WellPlaced, StatusOk, HandsOk, BucketsOk, LiveCountsOk, CachesOk,
         LiveGaugeOk, MapGaugeOk, PendingOk, CountedOk, MapCountedOk, Layout, Capacity;
    var o := s.objs[b];
    assert ObjectOk(b, o, s.pages, s.regions);
    if o.pooled {
      assert PageOk(o.page, s.pages[o.page], s.regions, s.objs);
      GoodRegions(s, o.page);
      var blocks := s.pages[o.page].blocks;
      var i :| 0 <= i < |blocks| && blocks[i] == b;
      LayoutFacts(o.page, s.pages[o.page].cls, s.pages[o.page].mapped);
      BlocksAligned(o.page, s.pages[o.page].cls, s.pages[o.page].mapped, i);
    }
  }

  /** The ranges of two distinct objects, live or not, headers and redzones included, are
      disjoint. */
  lemma LiveObjectsDisjoint(s: State, b: Addr, c: Addr)
    requires Reachable(s) && b in s.objs && c in s.objs && b != c
    ensures Apart(b, Extent(s.objs[b]), c, Extent(s.objs[c]))
  {
    hide Core, EmptiesOk, Reachable;
    ReachableIsOk(s);
    ObjectsNeverOverlap(s, b, c);
  }

  /** The pool section hands out an object unless the class starves or the system
      refuses a new page; both can only happen when every page of the class is full. */
  lemma CentralSucceeds(s: State, t: Tid, oracle: Oracle)
    requires Inv(s) && t in s.pcs && s.pcs[t].Central? && OracleOk(s.regions, oracle, PageBytes(s.cfg, s.pcs[t].cls))
    ensures var c := s.pcs[t].cls;
            PcOf(GoCentral(s, t, s.pcs[t], oracle).pcs, t).Fresh? <==>
            || (exists p :: p in s.pages && s.pages[p].cls == c && At(s.places, Free(p)) != [])
            || (oracle.Maps? && !(c == Class(Span, MEDIUM_CLASSES - 1) && s.cfg.spanSize == 65536))
  {
    hide Core, EmptiesOk, TakeFrom, Capacity, AddPage;
    var pc := s.pcs[t];
    SelectPageFacts(s, pc.cls, pc.req.packing);
    QuietThread(s, t);
    ConfigHolds(s);
    OnlyLargestClassCanStarve(s.cfg, pc.cls);
    match SelectPage(s, pc.cls, pc.req.packing)
    case Some(p) => TakeFromPc(s, t, p);
    case None =>
      if Capacity(PageBytes(s.cfg, pc.cls), pc.cls) > 0 && oracle.Maps? {
        NewPageReady(s, t, oracle);
        TakeFromPc(AddPage(s, pc.cls, pc.req.mode, oracle.base, oracle.kept), t, oracle.base);
      }
  }

  lemma ConfigHolds(s: State)
    requires Core(s)
    ensures ValidConfig(s.cfg)
  {
  }

  lemma NewPageReady(s: State, t: Tid, oracle: Oracle)
    requires Inv(s) && t in s.pcs && s.pcs[t].Central? && oracle.Maps?
    requires OracleOk(s.regions, oracle, PageBytes(s.cfg, s.pcs[t].cls))
    requires Capacity(PageBytes(s.cfg, s.pcs[t].cls), s.pcs[t].cls) > 0
    ensures var pc := s.pcs[t];
            var s' := AddPage(s, pc.cls, pc.req.mode, oracle.base, oracle.kept);
            Core(s') && s'.pcs == s.pcs && oracle.base in s'.pages && At(s'.places, Free(oracle.base)) != []
  {
    hide Core, EmptiesOk, Capacity, Layout, Admit;
    var pc := s.pcs[t];
    QuietThread(s, t);
    FreshBase(s, oracle.base, PageBytes(s.cfg, pc.cls));
    AddPageCore(s, pc.cls, pc.req.mode, oracle.base, oracle.kept);
    NewPageFree(s, pc.cls, pc.req.mode, oracle.base, oracle.kept);
  }

  lemma TakeFromPc(s: State, t: Tid, p: Addr)
    requires Core(s) && t in s.pcs && s.pcs[t].Central? && p in s.pages && At(s.places, Free(p)) != []
    ensures var pc := s.pcs[t]; PcOf(TakeFrom(s, t, pc.req, pc.cls, pc.src, p).pcs, t).Fresh?
  {
    hide Core;
    FreeHead(s, p);
    var pc, b := s.pcs[t], At(s.places, Free(p))[0];
    var taken := Take(s, t, p, b, Hand(t), Finalized(s.objs[b], pc.req, pc.cls), Fresh(pc.req, pc.src, b));
    RefillFrame(taken, t, p, pc.cls, CacheLimit(pc.cls, pc.req.smallLimit, pc.req.mediumLimit),
                if pc.req.batch > 0 then pc.req.batch - 1 else 0);
  }

  // ---- Remote frees -------------------------------------------------------------------------------------

  /** `g_remote_pending` when no thread is between caching a drained block and the
      decrement: exactly the queued and detached blocks. */
  lemma PendingIsExact(s: State)
    requires Reachable(s) && Ticking(s.pcs) == {}
    ensures s.pending == |Waiting(s.places)|
  {
    hide RegionsOk, StoredOk, PoolsOk, PcsOk, LiveCountsOk, ObjectsOk, PagesOk, HandsOk, WellPlaced, StatusOk,
         EmptiesOk, CachesOk, LiveGaugeOk, MapGaugeOk, BucketsOk, CountedOk, MapCountedOk, Reachable;
    ReachableIsOk(s);
  }

  // ---- Bounds ---------------------------------------------------------------------------------------------

  /** No bin of any thread ever holds more than 192 small or 48 medium blocks, and no
      class ever keeps more than max(32, configured limit) empty pages. */
  lemma CachesAndEmptiesAreBounded(s: State, t: Tid, c: Class)
    requires Reachable(s)
    ensures |At(s.places, Cache(t, c))| <= CacheCeiling(c)
    ensures CountEmpty(PoolOf(s.pool, c), s.pages) <= EmptyCeiling(s.cfg)
  {
    hide RegionsOk, StoredOk, PoolsOk, PcsOk, LiveCountsOk, ObjectsOk, PagesOk, HandsOk, WellPlaced, StatusOk,
         PendingOk, LiveGaugeOk, MapGaugeOk, BucketsOk, CountedOk, MapCountedOk, Reachable;
    ReachableIsOk(s);
  }

  // ---- Gauges -----------------------------------------------------------------------------------------------

  ghost predicate AtRest(s: State) {
    forall t :: t in s.pcs ==> s.pcs[t].Idle?
  }

  /** Between operations `live_bytes` is the sum of the usable sizes of the live objects,
      in total and per allocation mode, and `mapped_bytes` the sum of the sizes of all
      current mappings: pool pages, live direct objects and quarantined ones. */
  lemma GaugesAtRest(s: State, m: Mode)
    requires Reachable(s) && AtRest(s)
    ensures var live := Elements(At(s.places, Registry));
            && live <= s.objs.Keys
            && s.gauges.live == Sum(live, Usables(s.objs))
            && Gauge(s.gauges.modeLive, m) == Sum(ObjectsOf(live, s.objs, m), Usables(s.objs))
    ensures s.gauges.mapped == Sum(s.regions.Keys, Sizes(s.regions))
    ensures Gauge(s.gauges.modeMapped, m) == Sum(RegionsOf(s.regions.Keys, s.regions, m), Sizes(s.regions))
  {
    hide RegionsOk, StoredOk, PoolsOk, PcsOk, LiveCountsOk, ObjectsOk, PagesOk, HandsOk, WellPlaced, StatusOk,
         EmptiesOk, PendingOk, BucketsOk, Reachable, CachesOk;
    ReachableIsOk(s);
    assert AllUnreported(s.pcs) == {};
    RegionKeysPositive(s);
    assert s.counted == Elements(At(s.places, Registry));
    assert s.mapCounted == s.regions.Keys;
  }
}
