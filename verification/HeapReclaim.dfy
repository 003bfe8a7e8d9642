/** Giving blocks back and unmapping: a page goes only when none of its blocks is
    live, cached, queued or in a thread's hand. */
module HeapReclaim {
  import Arith
  import opened Types
  import opened Policy
  import opened Geometry
  import opened Places
  import opened HeapState
  import opened HeapSteps
  import opened HeapProofs
  import opened HeapRemote
  import opened HeapLive
  import opened HeapPool
  import opened HeapPages

  // ---- A page with no live block -----------------------------------------------------------

  /** `live_count == 0` means that every block of the page is on its free list: no
      thread holds, caches, queues or uses one. */
  lemma EmptyPageIsAllFree(s: State, p: Addr)
    requires Core(s) && p in s.pages && s.pages[p].liveCount == 0
    ensures forall b :: b in s.pages[p].blocks ==> b in s.places.place && s.places.place[b] == Free(p)
  {
    hide RegionsOk, StoredOk, PoolsOk, HandsOk, PcsOk, BucketsOk, PendingOk, CachesOk, LiveGaugeOk, MapGaugeOk,
         CountedOk, MapCountedOk, Layout;
    var xs, ys := At(s.places, Free(p)), s.pages[p].blocks;
    assert PageOk(p, s.pages[p], s.regions, s.objs);
    forall x | x in xs ensures x in ys {
      assert LocOk(s.places.place[x], s.objs[x], s.pages, s.owners);
      assert ObjectOk(x, s.objs[x], s.pages, s.regions);
    }
    LayoutNoDup(p, s.pages[p].cls, s.pages[p].mapped);
    SameLengthCovers(xs, ys);
    forall b | b in ys ensures b in s.places.place && s.places.place[b] == Free(p) {
      assert b in At(s.places, Free(p));
    }
  }

  /** The headers in an empty page's mapping are exactly the blocks on its free list. */
  lemma EmptyPageObjects(s: State, p: Addr, b: Addr)
    requires Core(s) && p in s.pages && s.pages[p].liveCount == 0 && b in s.objs
    ensures s.objs[b].base == p <==> b in At(s.places, Free(p))
  {
    EmptyPageIsAllFree(s, p);
    hide RegionsOk, StoredOk, PoolsOk, HandsOk, PcsOk, BucketsOk, PendingOk, CachesOk, LiveCountsOk, LiveGaugeOk,
         MapGaugeOk, CountedOk, MapCountedOk, Layout;
    assert PageOk(p, s.pages[p], s.regions, s.objs);
    assert ObjectOk(b, s.objs[b], s.pages, s.regions);
    assert LocOk(s.places.place[b], s.objs[b], s.pages, s.owners);
    assert b in At(s.places, Free(p)) <==> s.places.place[b] == Free(p);
  }

  /** What unmapping an empty page leaves of the headers and their places. */
  lemma ReleaseLeaves(s: State, p: Addr)
    requires Core(s) && p in s.pages && s.pages[p].liveCount == 0
    ensures var s' := ReleasePage(s, p);
            && WellPlaced(s'.places) && OnlyAt(s.places, s'.places, Free(p)) && At(s'.places, Free(p)) == []
            && s'.objs.Keys == s'.places.place.Keys
            && (forall b :: b in s.places.place && s.places.place[b] != Free(p) ==>
                  b in s'.places.place && s'.places.place[b] == s.places.place[b] && b in s'.objs
                    && s'.objs[b] == s.objs[b])
            && (forall b :: b in s'.objs ==> b in s.objs && s'.objs[b] == s.objs[b] && s.objs[b].base != p
                                             && b in s.places.place && s'.places.place[b] == s.places.place[b])
  {
    hide Core, WellPlaced;
    PlacesAreWell(s);
    EvictWellPlaced(s.places, Free(p));
    var s' := ReleasePage(s, p);
    forall b ensures b in s'.objs <==> b in s'.places.place {
      PlacedAreObjects(s, b);
      if b in s.objs {
        EmptyPageObjects(s, p, b);
      }
    }
    forall b | b in s.places.place && s.places.place[b] != Free(p)
      ensures b in s'.places.place && s'.places.place[b] == s.places.place[b] && b in s'.objs
    {
      PlacedAt(s, b);
    }
  }

  lemma PlacesAreWell(s: State)
    requires Core(s)
    ensures WellPlaced(s.places)
  {
  }

  lemma PlacedAt(s: State, b: Addr)
    requires Core(s) && b in s.places.place
    ensures b in s.objs && b in At(s.places, s.places.place[b])
    ensures forall l :: b in At(s.places, l) ==> l == s.places.place[b]
  {
    hide RegionsOk, StoredOk, PoolsOk, PagesOk, ObjectsOk, HandsOk, PcsOk, LiveCountsOk, BucketsOk, CachesOk,
         LiveGaugeOk, MapGaugeOk, PendingOk, CountedOk, MapCountedOk;
  }

  lemma ReleasePageCore(s: State, p: Addr)
    requires Core(s) && p in s.pages && s.pages[p].liveCount == 0
    ensures Core(ReleasePage(s, p))
  {
    hide RegionsOk, StoredOk, PoolsOk, PagesOk, ObjectsOk, WellPlaced, StatusOk, HandsOk, PcsOk, LiveCountsOk,
         BucketsOk, CachesOk, LiveGaugeOk, MapGaugeOk, PendingOk, CountedOk, MapCountedOk, Evict, OnlyAt, KeysOf;
    var s' := ReleasePage(s, p);
    ReleaseLeaves(s, p);
    PageRegion(s, p);
    RegionsDrop(s.regions, s.stored, p, s.pages[p].mapped);
    PoolsDrop(s.pages, s.pool, p);
    PagesDrop(s, s', p);
    ReleaseStatus(s, p);
    ReleaseLists(s, p);
    HandsOnlyAt(s.places, s'.places, Free(p), s.pcs, s.pcs);
    PcsShrink(s, s', p);
    ReleaseGauges(s, p);
  }

  lemma PageRegion(s: State, p: Addr)
    requires Core(s) && p in s.pages
    ensures p in s.regions && s.regions[p] == Region(s.pages[p].mapped, s.pages[p].mode, 0) && p != 0
  {
    hide StoredOk, PoolsOk, ObjectsOk, WellPlaced, StatusOk, HandsOk, PcsOk, LiveCountsOk, BucketsOk, CachesOk,
         LiveGaugeOk, MapGaugeOk, PendingOk, CountedOk, MapCountedOk, Layout;
    assert PageOk(p, s.pages[p], s.regions, s.objs);
    assert GoodRegion(p, s.regions[p].size);
  }

  lemma RegionsDrop(regions: map<Addr, Region>, stored: map<Addr, Addr>, p: Addr, size: nat)
    requires RegionsOk(regions) && StoredOk(stored, regions) && p in regions && regions[p].size == size
    ensures RegionsOk(regions - {p})
    ensures StoredOk(stored - KeysOf(stored, p, size), regions - {p})
  {
  }

  lemma PoolsDrop(pages: map<Addr, Page>, pool: map<Class, seq<Addr>>, p: Addr)
    requires PoolsOk(pages, pool) && p in pages
    ensures PoolsOk(pages - {p}, pool[pages[p].cls := Without(PoolOf(pool, pages[p].cls), p)])
  {
    hide Without, NoDup;
    var c := pages[p].cls;
    var xs := PoolOf(pool, c);
    assert NoDup(xs);
    WithoutFacts(xs, p);
    var pages', pool' := pages - {p}, pool[c := Without(xs, p)];
    assert PoolOf(pool', c) == Without(xs, p);
    assert forall d :: d != c ==> PoolOf(pool', d) == PoolOf(pool, d);
    forall d, q ensures q in PoolOf(pool', d) <==> q in pages' && pages'[q].cls == d {
      assert q in PoolOf(pool, d) <==> q in pages && pages[q].cls == d;
    }
  }

  /** Objects and pages outside a dropped mapping are untouched. */
  lemma PagesDrop(s: State, s': State, p: Addr)
    requires ObjectsOk(s.objs, s.pages, s.regions) && PagesOk(s.pages, s.regions, s.objs)
    requires s'.pages == s.pages - {p} && s'.regions == s.regions - {p}
    requires forall b :: b in s'.objs ==> b in s.objs && s'.objs[b] == s.objs[b] && s.objs[b].base != p
    requires forall b :: b in s.objs && s.objs[b].base != p ==> b in s'.objs
    ensures ObjectsOk(s'.objs, s'.pages, s'.regions) && PagesOk(s'.pages, s'.regions, s'.objs)
  {
  }

  lemma ReleaseStatus(s: State, p: Addr)
    requires Core(s) && p in s.pages && s.pages[p].liveCount == 0
    ensures var s' := ReleasePage(s, p); StatusOk(s'.objs, s'.places, s'.pages, s'.owners)
  {
    hide RegionsOk, StoredOk, PoolsOk, PagesOk, WellPlaced, HandsOk, PcsOk, LiveCountsOk, BucketsOk, CachesOk,
         LiveGaugeOk, MapGaugeOk, PendingOk, CountedOk, MapCountedOk, Evict, OnlyAt, KeysOf;
    var s' := ReleasePage(s, p);
    ReleaseLeaves(s, p);
    forall b | b in s'.objs ensures LocOk(s'.places.place[b], s'.objs[b], s'.pages, s'.owners) {
      assert LocOk(s.places.place[b], s.objs[b], s.pages, s.owners);
      assert ObjectOk(b, s.objs[b], s.pages, s.regions);
    }
  }

  lemma ReleaseLists(s: State, p: Addr)
    requires Core(s) && p in s.pages && s.pages[p].liveCount == 0
    ensures var s' := ReleasePage(s, p);
            && LiveCountsOk(s'.pages, s'.places) && CachesOk(s'.places) && PendingOk(s'.pending, s'.places, s'.pcs)
  {
    hide RegionsOk, StoredOk, PoolsOk, PagesOk, ObjectsOk, WellPlaced, StatusOk, HandsOk, PcsOk, LiveCountsOk,
         BucketsOk, CachesOk, LiveGaugeOk, MapGaugeOk, CountedOk, MapCountedOk, Evict, OnlyAt, KeysOf;
    var s' := ReleasePage(s, p);
    ReleaseLeaves(s, p);
    LiveCountsDrop(s.pages, s.places, p);
    ListsOnlyAt(s.places, s'.places, Free(p), s'.pages);
    assert Waiting(s'.places) == Waiting(s.places);
  }

  lemma LiveCountsDrop(pages: map<Addr, Page>, places: Places, p: Addr)
    requires LiveCountsOk(pages, places)
    ensures LiveCountsOk(pages - {p}, places)
  {
  }

  /** Claimed and held blocks are not on a free list, so they survive the unmapping. */
  lemma PcsShrink(s: State, s': State, p: Addr)
    requires Core(s) && s'.pcs == s.pcs && s'.cfg == s.cfg && s'.owners == s.owners
    requires forall b :: b in s.places.place && s.places.place[b] != Free(p) ==>
               b in s'.places.place && s'.places.place[b] == s.places.place[b] && b in s'.objs
                 && s'.objs[b] == s.objs[b]
    requires forall b :: b in s'.objs ==> b in s.objs && s'.objs[b] == s.objs[b]
    ensures PcsOk(s'.pcs, s'.cfg, s'.objs, s'.places) && BucketsOk(s'.owners, s'.pcs, s'.objs)
    ensures NewMappings(s'.pcs, s'.objs) == NewMappings(s.pcs, s.objs)
  {
    hide RegionsOk, StoredOk, PoolsOk, PagesOk, ObjectsOk, WellPlaced, StatusOk, HandsOk, LiveCountsOk, CachesOk,
         LiveGaugeOk, MapGaugeOk, PendingOk, CountedOk, MapCountedOk, PcOk, ForeignPrefix, Claims;
    forall t | t in s.pcs
      ensures PcOk(t, s.pcs[t], s.cfg, s'.objs) && NewMapping(s.pcs[t], s'.objs) == NewMapping(s.pcs[t], s.objs)
    {
      QuietThread(s, t);
      forall b | b in Held(s.pcs[t]) ensures b in s.places.place && s.places.place[b] == Hand(t) {
        HeldBlock(s, t);
      }
      PcOkExtends(t, s.pcs[t], s.cfg, s.objs, s'.objs);
    }
    hide NewMapping;
  }

  lemma ReleaseGauges(s: State, p: Addr)
    requires Core(s) && p in s.pages && s.pages[p].liveCount == 0
    ensures var s' := ReleasePage(s, p);
            && LiveGaugeOk(s'.gauges, s'.counted, s'.objs) && CountedOk(s'.counted, s'.places, s'.pcs)
            && MapGaugeOk(s'.gauges, s'.mapCounted, s'.regions)
            && MapCountedOk(s'.mapCounted, s'.regions, s'.pcs, s'.objs)
  {
    hide Core, OnlyAt, Evict, KeysOf, LiveGaugeOk, MapGaugeOk, CountedOk, MapCountedOk;
    var s' := ReleasePage(s, p);
    ReleaseLeaves(s, p);
    PageRegion(s, p);
    PcsShrink(s, s', p);
    PageNotPending(s, p);
    RegistrySame(s.places, s'.places, Free(p));
    CountedAreRegistered(s);
    GaugesShrink(s, s', p);
  }

  lemma CountedAreRegistered(s: State)
    requires Core(s)
    ensures forall b :: b in s.counted ==> b in s.places.place && s.places.place[b] == Registry && b in s.objs
  {
  }

  lemma RegistrySame(p: Places, q: Places, l: Loc)
    requires OnlyAt(p, q, l) && l != Registry
    ensures At(q, Registry) == At(p, Registry)
  {
  }

  lemma PageNotPending(s: State, p: Addr)
    requires Core(s) && p in s.pages
    ensures p !in NewMappings(s.pcs, s.objs)
  {
    hide RegionsOk, StoredOk, PoolsOk, PagesOk, WellPlaced, StatusOk, HandsOk, PcsOk, LiveCountsOk, BucketsOk,
         CachesOk, LiveGaugeOk, MapGaugeOk, PendingOk, CountedOk, MapCountedOk;
    PageRegion(s, p);
    forall t | t in s.pcs ensures NewMapping(s.pcs[t], s.objs) != p {
      assert NewMapping(s.pcs[t], s.objs) != 0 ==> ObjectOk(s.pcs[t].b, s.objs[s.pcs[t].b], s.pages, s.regions);
    }
  }

  /** The gauges after a counted region was dropped together with uncounted headers. */
  lemma GaugesShrink(s: State, s': State, r: Addr)
    requires Core(s) && r in s.regions && r !in NewMappings(s.pcs, s.objs)
    requires s'.counted == s.counted && s'.regions == s.regions - {r} && s'.mapCounted == s.mapCounted - {r}
    requires s'.gauges == AddMapped(s.gauges, s.regions[r].mode, -(s.regions[r].size as int))
    requires forall b :: b in s.counted ==> b in s'.objs && b in s.objs && s'.objs[b] == s.objs[b]
    requires At(s'.places, Registry) == At(s.places, Registry) && AllUnreported(s'.pcs) == AllUnreported(s.pcs)
    requires s.regions.Keys - NewMappings(s'.pcs, s'.objs) == s.regions.Keys - NewMappings(s.pcs, s.objs)
    ensures LiveGaugeOk(s'.gauges, s'.counted, s'.objs) && CountedOk(s'.counted, s'.places, s'.pcs)
    ensures MapGaugeOk(s'.gauges, s'.mapCounted, s'.regions) && MapCountedOk(s'.mapCounted, s'.regions, s'.pcs, s'.objs)
  {
    hide RegionsOk, StoredOk, PoolsOk, PagesOk, ObjectsOk, WellPlaced, StatusOk, HandsOk, PcsOk, LiveCountsOk,
         BucketsOk, CachesOk, PendingOk, LiveGaugeOk, MapGaugeOk;
    CountedAreObjects(s);
    GaugeFrame(s.gauges, s.counted, s.objs, s'.objs);
    LiveGaugeIgnoresMapped(s.gauges, s.regions[r].mode, -(s.regions[r].size as int), s.counted, s'.objs);
    UncountMapped(s.gauges, s.mapCounted, s.regions, r);
    MapGaugeFrame(s'.gauges, s.mapCounted - {r}, s.regions, s'.regions);
  }

  // ---- Giving a block back -------------------------------------------------------------------

  /** A block that is not on its page's free list keeps the page's live count positive:
      the guard in `deallocate` never has to stop the decrement. */
  lemma LiveCountPositive(s: State, b: Addr)
    requires Core(s) && b in s.objs && s.objs[b].pooled && b in s.places.place
    requires s.places.place[b] != Free(s.objs[b].page)
    ensures s.objs[b].page in s.pages && s.pages[s.objs[b].page].liveCount > 0
  {
    hide Core;
    PooledPage(s, b);
    if s.pages[s.objs[b].page].liveCount == 0 {
      EmptyPageIsAllFree(s, s.objs[b].page);
    }
  }

  lemma PooledPage(s: State, b: Addr)
    requires Core(s) && b in s.objs && s.objs[b].pooled
    ensures s.objs[b].page in s.pages && b in s.pages[s.objs[b].page].blocks
    ensures PoolOf(s.pool, s.pages[s.objs[b].page].cls) != []
    ensures s.objs[b].page in PoolOf(s.pool, s.pages[s.objs[b].page].cls)
  {
    hide RegionsOk, StoredOk, PagesOk, WellPlaced, StatusOk, HandsOk, PcsOk, LiveCountsOk, BucketsOk, CachesOk,
         PendingOk, LiveGaugeOk, MapGaugeOk, CountedOk, MapCountedOk;
    assert ObjectOk(b, s.objs[b], s.pages, s.regions);
  }

  function Calmer(pages: map<Addr, Page>, p: Addr): map<Addr, Page>
    requires p in pages
  {
    var n := pages[p].liveCount;
    pages[p := WithLive(pages[p], if n > 0 then n - 1 else n)]
  }

  lemma GiveCounts(s: State, t: Tid, p: Addr, b: Addr)
    requires Core(s) && p in s.pages && b in s.places.place && s.places.place[b] == Hand(t) && s.pages[p].liveCount > 0
    ensures LiveCountsOk(Calmer(s.pages, p), Move(s.places, b, Free(p)))
    ensures SamePages(s.pages, Calmer(s.pages, p))
  {
    hide RegionsOk, StoredOk, PoolsOk, PagesOk, ObjectsOk, WellPlaced, StatusOk, HandsOk, PcsOk, BucketsOk, PendingOk,
         CachesOk, LiveGaugeOk, MapGaugeOk, CountedOk, MapCountedOk, Move;
    MoveWellPlaced(s.places, b, Free(p));
  }

  lemma GiveCore(s: State, t: Tid)
    requires Core(s) && t in s.pcs && s.pcs[t].Return?
    ensures s.pcs[t].b in s.places.place && s.pcs[t].b in s.objs && s.objs[s.pcs[t].b].page in s.pages
    ensures Core(Give(s, t, s.pcs[t].b))
  {
    hide Core, Move, LiveCountsOk, PendingOk, SamePages, PlanFree;
    var b := s.pcs[t].b;
    QuietThread(s, t);
    HeldBlock(s, t);
    var p := s.objs[b].page;
    LiveCountPositive(s, b);
    GiveCounts(s, t, p, b);
    CorePending(s, t, b, Free(p), Idle);
    RelocateCore(s, t, b, Free(p), Cleared(s.objs[b]), Idle, s.pending, Calmer(s.pages, p));
    assert Give(s, t, b)
           == Relocate(s, t, b, Free(p), Cleared(s.objs[b]), Idle).(pages := Calmer(s.pages, p), pending := s.pending);
  }

  /** The empty-page counts after one block came back. */
  lemma GiveEmpties(s: State, p: Addr)
    requires Core(s) && p in s.pages && s.pages[p].liveCount > 0
    ensures var c, pages := s.pages[p].cls, Calmer(s.pages, p);
            && CountEmpty(PoolOf(s.pool, c), pages)
               == CountEmpty(PoolOf(s.pool, c), s.pages) + (if s.pages[p].liveCount == 1 then 1 else 0)
            && forall d :: d != c ==> CountEmpty(PoolOf(s.pool, d), pages) == CountEmpty(PoolOf(s.pool, d), s.pages)
  {
    hide RegionsOk, StoredOk, PagesOk, ObjectsOk, WellPlaced, StatusOk, HandsOk, PcsOk, LiveCountsOk, BucketsOk,
         CachesOk, PendingOk, LiveGaugeOk, MapGaugeOk, CountedOk, MapCountedOk;
    var c, pages := s.pages[p].cls, Calmer(s.pages, p);
    var xs := PoolOf(s.pool, c);
    assert p in xs && NoDup(xs);
    if s.pages[p].liveCount == 1 {
      CountEmptyGain(xs, s.pages, p, pages[p]);
    } else {
      CountEmptyStill(xs, s.pages, p, pages[p]);
    }
    forall d | d != c ensures CountEmpty(PoolOf(s.pool, d), pages) == CountEmpty(PoolOf(s.pool, d), s.pages) {
      assert p !in PoolOf(s.pool, d);
      CountEmptyFrame(PoolOf(s.pool, d), s.pages, pages);
    }
  }

  lemma {:induction false} CountEmptyStill(xs: seq<Addr>, pages: map<Addr, Page>, p: Addr, page: Page)
    requires p in pages && pages[p].liveCount != 0 && page.liveCount != 0
    ensures CountEmpty(xs, pages[p := page]) == CountEmpty(xs, pages)
  {
    if xs != [] {
      CountEmptyStill(xs[1..], pages, p, page);
    }
  }

  // ---- Releasing pages -------------------------------------------------------------------------

  lemma ReleaseEmpties(s: State, p: Addr)
    requires PoolsOk(s.pages, s.pool) && p in s.pages && s.pages[p].liveCount == 0
    ensures var c, s' := s.pages[p].cls, ReleasePage(s, p);
            && PoolOf(s'.pool, c) == Without(PoolOf(s.pool, c), p)
            && CountEmpty(PoolOf(s'.pool, c), s'.pages) == CountEmpty(PoolOf(s.pool, c), s.pages) - 1
            && forall d :: d != c ==> PoolOf(s'.pool, d) == PoolOf(s.pool, d)
                                      && CountEmpty(PoolOf(s'.pool, d), s'.pages)
                                         == CountEmpty(PoolOf(s.pool, d), s.pages)
  {
    var c, s' := s.pages[p].cls, ReleasePage(s, p);
    var xs := PoolOf(s.pool, c);
    assert p in xs && NoDup(xs);
    CountEmptyDrop(xs, s.pages, p);
    forall d | d != c ensures CountEmpty(PoolOf(s'.pool, d), s'.pages) == CountEmpty(PoolOf(s.pool, d), s.pages) {
      assert p !in PoolOf(s.pool, d);
      CountEmptyFrame(PoolOf(s.pool, d), s.pages, s'.pages);
    }
  }

  /** `release_empty_locked` keeps the invariant, leaves exactly min(empty, keep) empty
      pages in its class and does not touch any other class. */
  lemma {:induction false} ReleaseEmptyKeeps(s: State, c: Class, keep: nat)
    requires Core(s)
    ensures var s' := ReleaseEmpty(s, c, keep);
            && Core(s') && s'.cfg == s.cfg
            && CountEmpty(PoolOf(s'.pool, c), s'.pages) == Arith.Min(CountEmpty(PoolOf(s.pool, c), s.pages), keep)
            && forall d :: d != c ==> CountEmpty(PoolOf(s'.pool, d), s'.pages) == CountEmpty(PoolOf(s.pool, d), s.pages)
    decreases |PoolOf(s.pool, c)|
  {
    hide Core, ReleasePage, PoolsOk;
    var xs := PoolOf(s.pool, c);
    if CountEmpty(xs, s.pages) > keep {
      SomeEmptyIsFound(xs, s.pages);
      FirstEmptyIsListed(xs, s.pages);
      var p := FirstEmpty(xs, s.pages).value;
      WithoutShorter(xs, p);
      ListedClass(s, c, p);
      ReleasePageCore(s, p);
      ReleaseEmpties(s, p);
      ReleaseKeepsConfig(s, p);
      ReleaseEmptyKeeps(ReleasePage(s, p), c, keep);
    }
  }

  lemma ReleaseKeepsConfig(s: State, p: Addr)
    requires p in s.pages
    ensures ReleasePage(s, p).cfg == s.cfg
  {
  }

  lemma ListedClass(s: State, c: Class, p: Addr)
    requires Core(s) && p in PoolOf(s.pool, c)
    ensures p in s.pages && s.pages[p].cls == c && PoolsOk(s.pages, s.pool)
  {
  }

  /** The pool critical section of `deallocate`. */
  lemma ReturnKeeps(s: State, t: Tid)
    requires Inv(s) && t in s.pcs && s.pcs[t].Return?
    ensures Inv(GoReturn(s, t, s.pcs[t]))
  {
    hide Core, EmptiesOk, ReleasePage, ReleaseEmpty, Give, PlanFree;
    var pc := s.pcs[t];
    QuietThread(s, t);
    GiveCore(s, t);
    HeldBlock(s, t);
    LiveCountPositive(s, pc.b);
    var p := s.objs[pc.b].page;
    var c := s.pages[p].cls;
    var given := Give(s, t, pc.b);
    GiveChanges(s, t, pc.b);
    GiveEmpties(s, p);
    var reclaim := pc.dec.action.Purge? || pc.dec.action.Unmap?;
    ReleaseLimits(s.cfg, s.objs[pc.b].mode, s.objs[pc.b].storage);
    if reclaim && given.pages[p].liveCount == 0 && p in PoolOf(given.pool, c) {
      ListedClass(given, c, p);
      ReleasePageCore(given, p);
      ReleaseEmpties(given, p);
      ReleaseKeepsConfig(given, p);
      ReleasedBound(s, ReleasePage(given, p), c);
    } else {
      var keep := if reclaim then 0 else pc.dec.keep;
      ReleaseEmptyKeeps(given, c, keep);
      KeptBound(s, ReleaseEmpty(given, c, keep), c);
    }
  }

  lemma GiveChanges(s: State, t: Tid, b: Addr)
    requires b in s.places.place && b in s.objs && s.objs[b].page in s.pages
    ensures var s' := Give(s, t, b); s'.pages == Calmer(s.pages, s.objs[b].page) && s'.pool == s.pool && s'.cfg == s.cfg
  {
  }

  lemma ReleasedBound(s: State, s': State, c: Class)
    requires EmptiesOk(s.cfg, s.pages, s.pool) && s'.cfg == s.cfg
    requires CountEmpty(PoolOf(s'.pool, c), s'.pages) <= CountEmpty(PoolOf(s.pool, c), s.pages)
    requires forall d :: d != c ==> CountEmpty(PoolOf(s'.pool, d), s'.pages) == CountEmpty(PoolOf(s.pool, d), s.pages)
    ensures EmptiesOk(s'.cfg, s'.pages, s'.pool)
  {
  }

  lemma KeptBound(s: State, s': State, c: Class)
    requires EmptiesOk(s.cfg, s.pages, s.pool) && s'.cfg == s.cfg
    requires CountEmpty(PoolOf(s'.pool, c), s'.pages) <= EmptyCeiling(s.cfg)
    requires forall d :: d != c ==> CountEmpty(PoolOf(s'.pool, d), s'.pages) == CountEmpty(PoolOf(s.pool, d), s.pages)
    ensures EmptiesOk(s'.cfg, s'.pages, s'.pool)
  {
  }

  // ---- Unmapping a direct object ------------------------------------------------------------------

  ghost predicate MayDrop(s: State, t: Tid, b: Addr) {
    t in s.pcs && s.pcs[t].Doomed? && s.pcs[t].b == b && b in s.objs && !s.objs[b].pooled
  }

  /** The direct object alone lives in its mapping. */
  lemma AloneInRegion(s: State, t: Tid, b: Addr)
    requires Core(s) && MayDrop(s, t, b)
    ensures s.objs[b].base !in s.pages
    ensures forall c :: c in s.objs && c != b ==> s.objs[c].base != s.objs[b].base
  {
    hide StoredOk, PoolsOk, WellPlaced, StatusOk, HandsOk, PcsOk, LiveCountsOk, RegionsOk, BucketsOk, CachesOk,
         PendingOk, LiveGaugeOk, MapGaugeOk, CountedOk, MapCountedOk, Layout;
    assert ObjectOk(b, s.objs[b], s.pages, s.regions);
    assert forall p :: p in s.pages ==> PageOk(p, s.pages[p], s.regions, s.objs);
    assert forall c :: c in s.objs ==> ObjectOk(c, s.objs[c], s.pages, s.regions);
  }

  lemma DropLeaves(s: State, t: Tid, b: Addr)
    requires Core(s) && MayDrop(s, t, b)
    ensures var s' := DropDirect(s, t, b);
            && WellPlaced(s'.places) && OnlyAt(s.places, s'.places, Hand(t)) && At(s'.places, Hand(t)) == []
            && s'.places.place == s.places.place - {b} && s.objs.Keys == s.places.place.Keys
            && s.places.place[b] == Hand(t)
  {
    hide Core, WellPlaced;
    PlacesAreWell(s);
    QuietThread(s, t);
    HeldBlock(s, t);
    EvictWellPlaced(s.places, Hand(t));
    assert Elements([b]) == {b};
    forall c ensures c in s.objs <==> c in s.places.place {
      PlacedAreObjects(s, c);
    }
  }

  lemma DropCore(s: State, t: Tid, b: Addr)
    requires Core(s) && MayDrop(s, t, b)
    ensures Core(DropDirect(s, t, b))
  {
    hide RegionsOk, StoredOk, PoolsOk, PagesOk, ObjectsOk, WellPlaced, StatusOk, HandsOk, PcsOk, LiveCountsOk,
         BucketsOk, CachesOk, LiveGaugeOk, MapGaugeOk, PendingOk, CountedOk, MapCountedOk, Evict, OnlyAt, KeysOf;
    var s' := DropDirect(s, t, b);
    DropLeaves(s, t, b);
    DirectOfCore(s, b);
    AloneInRegion(s, t, b);
    QuietThread(s, t);
    RegionsDrop(s.regions, s.stored, s.objs[b].base, s.objs[b].mapped);
    assert s.pages - {s.objs[b].base} == s.pages;
    PagesDrop(s, s', s.objs[b].base);
    DropStatus(s, t, b);
    ListsOnlyAt(s.places, s'.places, Hand(t), s.pages);
    DropPending(s, t, b);
    HandsOnlyAt(s.places, s'.places, Hand(t), s.pcs, s'.pcs);
    DropPcs(s, t, b);
    DropGauges(s, t, b);
  }

  lemma DirectOfCore(s: State, b: Addr)
    requires Core(s) && b in s.objs && !s.objs[b].pooled
    ensures var o := s.objs[b]; o.base in s.regions && s.regions[o.base] == Region(o.mapped, o.mode, b)
  {
    hide RegionsOk, StoredOk, PoolsOk, PagesOk, WellPlaced, StatusOk, HandsOk, PcsOk, LiveCountsOk, BucketsOk,
         CachesOk, LiveGaugeOk, MapGaugeOk, PendingOk, CountedOk, MapCountedOk;
    assert ObjectOk(b, s.objs[b], s.pages, s.regions);
  }

  lemma DropStatus(s: State, t: Tid, b: Addr)
    requires Core(s) && MayDrop(s, t, b)
    ensures var s' := DropDirect(s, t, b); StatusOk(s'.objs, s'.places, s'.pages, s'.owners)
  {
    hide RegionsOk, StoredOk, PoolsOk, PagesOk, ObjectsOk, WellPlaced, HandsOk, PcsOk, LiveCountsOk, BucketsOk,
         CachesOk, LiveGaugeOk, MapGaugeOk, PendingOk, CountedOk, MapCountedOk, Evict, OnlyAt, KeysOf, LocOk;
    DropLeaves(s, t, b);
  }

  lemma DropPending(s: State, t: Tid, b: Addr)
    requires Core(s) && MayDrop(s, t, b)
    ensures var s' := DropDirect(s, t, b); PendingOk(s'.pending, s'.places, s'.pcs)
  {
    hide RegionsOk, StoredOk, PoolsOk, PagesOk, ObjectsOk, WellPlaced, HandsOk, PcsOk, LiveCountsOk, StatusOk,
         BucketsOk, CachesOk, LiveGaugeOk, MapGaugeOk, CountedOk, MapCountedOk, Evict, OnlyAt, KeysOf, LocOk;
    var s' := DropDirect(s, t, b);
    DropLeaves(s, t, b);
    assert Waiting(s'.places) == Waiting(s.places);
    assert Ticking(s'.pcs) == Ticking(s.pcs);
  }

  /** Nobody else refers to the object in `t`'s hand. */
  lemma OthersUntouched(s: State, t: Tid, b: Addr, u: Tid)
    requires Core(s) && MayDrop(s, t, b) && u in s.pcs && u != t
    ensures PcOk(u, s.pcs[u], s.cfg, s.objs - {b})
    ensures NewMapping(s.pcs[u], s.objs - {b}) == NewMapping(s.pcs[u], s.objs)
    ensures b !in Claims(s.pcs[u]) && b !in Held(s.pcs[u])
  {
    hide Core, PcOk;
    HeldBlock(s, t);
    QuietThread(s, u);
    forall c | c in Held(s.pcs[u]) ensures c in s.places.place && s.places.place[c] == Hand(u) {
      HeldBlock(s, u);
    }
    PcOkExtends(u, s.pcs[u], s.cfg, s.objs, s.objs - {b});
  }

  lemma DropPcs(s: State, t: Tid, b: Addr)
    requires Core(s) && MayDrop(s, t, b)
    ensures var s' := DropDirect(s, t, b);
            PcsOk(s'.pcs, s'.cfg, s'.objs, s'.places) && BucketsOk(s'.owners, s'.pcs, s'.objs)
  {
    hide RegionsOk, StoredOk, PoolsOk, PagesOk, ObjectsOk, WellPlaced, HandsOk, LiveCountsOk, StatusOk, BucketsOk,
         PcsOk, CachesOk, LiveGaugeOk, MapGaugeOk, CountedOk, MapCountedOk, PendingOk, Evict, OnlyAt, KeysOf, LocOk,
         PcOk;
    var s' := DropDirect(s, t, b);
    DropLeaves(s, t, b);
    QuietThread(s, t);
    forall u | u in s.pcs && u != t ensures PcOk(u, s.pcs[u], s.cfg, s'.objs) && Claims(s.pcs[u]) !! Claims(Idle) {
      OthersUntouched(s, t, b, u);
    }
    forall u, c | u in s.pcs && u != t && c in Claims(s.pcs[u])
      ensures c in s'.places.place && s'.places.place[c] == Registry
    {
      QuietThread(s, u);
    }
    IdleIsOk(t, s.cfg, s'.objs);
    PcsAfter(s.pcs, t, Idle, s.cfg, s.objs, s'.objs, s.places, s'.places);
    BucketsSetPc(s.owners, s.pcs, s.objs, t, Idle);
    BucketsShrink(s.owners, s'.pcs, s.objs, s'.objs);
  }

  lemma BucketsShrink(owners: seq<Tid>, pcs: map<Tid, Pc>, objs: map<Addr, Object>, objs': map<Addr, Object>)
    requires BucketsOk(owners, pcs, objs)
    requires forall b :: b in objs' ==> b in objs && objs'[b] == objs[b]
    ensures BucketsOk(owners, pcs, objs')
  {
  }

  lemma DropGauges(s: State, t: Tid, b: Addr)
    requires Core(s) && MayDrop(s, t, b)
    ensures var s' := DropDirect(s, t, b);
            && LiveGaugeOk(s'.gauges, s'.counted, s'.objs) && CountedOk(s'.counted, s'.places, s'.pcs)
            && MapGaugeOk(s'.gauges, s'.mapCounted, s'.regions)
            && MapCountedOk(s'.mapCounted, s'.regions, s'.pcs, s'.objs)
  {
    hide Core, OnlyAt, Evict, KeysOf, LiveGaugeOk, MapGaugeOk, CountedOk, MapCountedOk, PcOk;
    var s' := DropDirect(s, t, b);
    DropLeaves(s, t, b);
    DirectOfCore(s, b);
    RegistrySame(s.places, s'.places, Hand(t));
    CountedAreRegistered(s);
    UnreportedFrame(s.pcs, s'.pcs, t);
    DroppedNotPending(s, t, b);
    DropMappings(s, t, b);
    GaugesShrink(s, s', s.objs[b].base);
  }

  lemma DroppedNotPending(s: State, t: Tid, b: Addr)
    requires Core(s) && MayDrop(s, t, b)
    ensures s.objs[b].base !in NewMappings(s.pcs, s.objs)
  {
    hide Core, PcOk;
    DirectOfCore(s, b);
    RegionKeysPositive(s);
    forall u | u in s.pcs ensures NewMapping(s.pcs[u], s.objs) != s.objs[b].base {
      if u != t && NewMapping(s.pcs[u], s.objs) != 0 {
        DirectOfCore(s, s.pcs[u].b);
        OthersUntouched(s, t, b, u);
        assert s.pcs[u].b in Claims(s.pcs[u]) || s.pcs[u].b in Held(s.pcs[u]);
      }
    }
  }

  lemma DropMappings(s: State, t: Tid, b: Addr)
    requires Core(s) && MayDrop(s, t, b)
    ensures s.regions.Keys - NewMappings(s.pcs[t := Idle], s.objs - {b}) == s.regions.Keys - NewMappings(s.pcs, s.objs)
  {
    hide StoredOk, PoolsOk, PagesOk, ObjectsOk, WellPlaced, HandsOk, LiveCountsOk, StatusOk, PcsOk, BucketsOk,
         RegionsOk, CachesOk, LiveGaugeOk, MapGaugeOk, CountedOk, MapCountedOk, PendingOk, PcOk;
    forall u | u in s.pcs && u != t ensures NewMapping(s.pcs[u], s.objs - {b}) == NewMapping(s.pcs[u], s.objs) {
      OthersUntouched(s, t, b, u);
    }
    NewMappingsFrame(s.regions, s.pcs, s.pcs[t := Idle], s.objs, s.objs - {b}, t);
  }

  /** The block leaves the freeing thread's hand: to its cache, towards the remote queue
      or the pool, into quarantine, or back to the system. */
  lemma DoomedKeeps(s: State, t: Tid)
    requires Inv(s) && t in s.pcs && s.pcs[t].Doomed?
    ensures Inv(GoDoomed(s, t, s.pcs[t]))
  {
    hide Core, EmptiesOk, DropDirect, ForeignPrefix;
    var pc := s.pcs[t];
    QuietThread(s, t);
    HeldBlock(s, t);
    var o := s.objs[pc.b];
    if o.pooled {
      PooledPage(s, pc.b);
      if pc.dec.remoteQueue && o.owner != t {
        EmptyPrefix(s.owners, o.owner);
        SetPcKeeps(s, t, Enqueue(pc.b, pc.dec, 0));
      } else if pc.dec.action.CacheIt? && o.owner == t
                && |At(s.places, Cache(t, s.pages[o.page].cls))|
                   < CacheLimit(s.pages[o.page].cls, pc.dec.smallLimit, pc.dec.mediumLimit) {
        CachePushKeeps(s, t);
      } else {
        SetPcKeeps(s, t, Return(pc.b, pc.dec));
      }
    } else if pc.dec.quarantine || pc.dec.action.QuarantineIt? {
      QuarantineKeeps(s, t);
    } else {
      DropCore(s, t, pc.b);
      DropEmpties(s, t, pc.b);
    }
  }

  lemma EmptyPrefix(owners: seq<Tid>, o: Tid)
    requires |owners| == BUCKETS
    ensures ForeignPrefix(owners, o, 0)
  {
  }

  lemma DropEmpties(s: State, t: Tid, b: Addr)
    requires b in s.objs && EmptiesOk(s.cfg, s.pages, s.pool)
    ensures var s' := DropDirect(s, t, b); EmptiesOk(s'.cfg, s'.pages, s'.pool)
  {
  }
}
