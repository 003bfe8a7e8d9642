/** Mappings coming and going: pool pages and direct objects. */
module HeapPages {
  import opened Types
  import opened Options
  import opened Geometry
  import opened Places
  import opened HeapState
  import opened HeapSteps
  import opened HeapProofs
  import opened HeapRemote
  import opened HeapLive
  import opened HeapPool

  // ---- Every header lies in its mapping -------------------------------------------------

  /** Header, payload and redzone of an object lie inside its mapping. */
  lemma ObjectInRegion(s: State, b: Addr)
    requires Core(s) && b in s.objs
    ensures var o := s.objs[b];
            o.base in s.regions && o.base <= b && b + HEADER + o.usable + Tail(o) <= o.base + s.regions[o.base].size
  {
    hide StoredOk, PoolsOk, StatusOk, WellPlaced, HandsOk, PcsOk, LiveCountsOk, BucketsOk, PendingOk, CachesOk,
         LiveGaugeOk, MapGaugeOk, CountedOk, MapCountedOk, RegionsOk;
    var o := s.objs[b];
    assert ObjectOk(b, o, s.pages, s.regions);
    if o.pooled {
      assert PageOk(o.page, s.pages[o.page], s.regions, s.objs);
      BlockInPage(o.page, s.pages[o.page], b);
    }
  }

  lemma BlockInPage(p: Addr, page: Page, b: Addr)
    requires ValidClass(page.cls) && page.blocks == Layout(p, Stride(page.cls), Capacity(page.mapped, page.cls))
    requires b in page.blocks
    ensures p + FIRST_BLOCK <= b && b + HEADER + ClassUsable(page.cls) <= p + page.mapped
  {
    LayoutFacts(p, page.cls, page.mapped);
  }

  lemma LayoutNoDup(base: Addr, c: Class, bytes: nat)
    requires ValidClass(c)
    ensures NoDup(Layout(base, Stride(c), Capacity(bytes, c)))
  {
    hide Layout, Capacity;
    LayoutFacts(base, c, bytes);
  }

  lemma ReversedFacts(xs: seq<Addr>)
    requires NoDup(xs)
    ensures NoDup(Reversed(xs)) && |Reversed(xs)| == |xs| && Elements(Reversed(xs)) == Elements(xs)
    ensures forall b :: b in Reversed(xs) <==> b in xs
  {
    var ys := Reversed(xs);
    forall b ensures b in ys <==> b in xs {
      if b in xs {
        var i :| 0 <= i < |xs| && xs[i] == b;
        assert ys[|xs| - 1 - i] == b;
      }
      if b in ys {
        var i :| 0 <= i < |ys| && ys[i] == b;
        assert xs[|xs| - 1 - i] == b;
      }
    }
  }

  /** No header lies in a region the system has just handed out. */
  lemma ObjectOutside(s: State, base: Addr, size: nat, b: Addr)
    requires Core(s) && FreshRegion(s.regions, base, size) && b in s.objs
    ensures b < base || base + size <= b
  {
    hide Core;
    ObjectInRegion(s, b);
    assert Apart(s.objs[b].base, s.regions[s.objs[b].base].size, base, size);
  }

  lemma FreeListHasPage(s: State, p: Addr)
    requires Core(s) && At(s.places, Free(p)) != []
    ensures p in s.pages
  {
    hide StoredOk, PoolsOk, HandsOk, PcsOk, LiveCountsOk, BucketsOk, PendingOk, CachesOk, PagesOk, RegionsOk,
         LiveGaugeOk, MapGaugeOk, CountedOk, MapCountedOk;
    var b := At(s.places, Free(p))[0];
    assert b in At(s.places, Free(p));
    assert LocOk(s.places.place[b], s.objs[b], s.pages, s.owners);
    assert ObjectOk(b, s.objs[b], s.pages, s.regions);
  }

  lemma FreshBase(s: State, base: Addr, size: nat)
    requires Core(s) && FreshRegion(s.regions, base, size)
    ensures base !in s.regions && base !in s.pages && At(s.places, Free(base)) == []
  {
    hide StoredOk, PoolsOk, HandsOk, PcsOk, LiveCountsOk, BucketsOk, PendingOk, CachesOk, WellPlaced, StatusOk,
         ObjectsOk, LiveGaugeOk, MapGaugeOk, CountedOk, MapCountedOk, Layout;
    assert forall r :: r in s.regions ==> Apart(r, s.regions[r].size, base, size) && GoodRegion(r, s.regions[r].size);
    assert forall p :: p in s.pages ==> PageOk(p, s.pages[p], s.regions, s.objs);
    if At(s.places, Free(base)) != [] {
      FreeListHasPage(s, base);
    }
  }

  // ---- A new page --------------------------------------------------------------------------

  ghost predicate MayAddPage(s: State, c: Class, base: Addr, kept: set<Addr>) {
    && ValidClass(c) && Capacity(PageBytes(s.cfg, c), c) > 0
    && FreshRegion(s.regions, base, PageBytes(s.cfg, c))
    && forall k :: k in kept ==> k % PAGE_SIZE == 0 && base <= k < base + PageBytes(s.cfg, c)
  }

  lemma AddPageCore(s: State, c: Class, mode: Mode, base: Addr, kept: set<Addr>)
    requires Core(s) && MayAddPage(s, c, base, kept)
    ensures Core(AddPage(s, c, mode, base, kept))
  {
    hide RegionsOk, StoredOk, PoolsOk, PagesOk, ObjectsOk, WellPlaced, StatusOk, HandsOk, PcsOk, LiveCountsOk,
         BucketsOk, CachesOk, LiveGaugeOk, MapGaugeOk, PendingOk, CountedOk, MapCountedOk, Admit, Layout, Capacity;
    FreshBase(s, base, PageBytes(s.cfg, c));
    RegionsAdd(s.regions, s.stored, base, Region(PageBytes(s.cfg, c), mode, 0), kept);
    AddPagePlaces(s, c, mode, base, kept);
    AddPageObjects(s, c, mode, base, kept);
    AddPagePages(s, c, mode, base, kept);
    PoolsAdd(s.pages, s.pool, base, AddPage(s, c, mode, base, kept).pages[base]);
    AddPageStatus(s, c, mode, base, kept);
    AddPagePcs(s, c, mode, base, kept);
    AddPageGauges(s, c, mode, base, kept);
  }

  lemma RegionsAdd(regions: map<Addr, Region>, stored: map<Addr, Addr>, base: Addr, region: Region, kept: set<Addr>)
    requires RegionsOk(regions) && StoredOk(stored, regions) && FreshRegion(regions, base, region.size)
    requires base !in regions
    requires forall k :: k in kept ==> k % PAGE_SIZE == 0 && base <= k < base + region.size
    ensures RegionsOk(regions[base := region])
    ensures StoredOk(stored + (map k | k in kept :: base), regions[base := region])
  {
    var regions' := regions[base := region];
    forall r, q | r in regions' && q in regions' && r != q
      ensures Apart(r, regions'[r].size, q, regions'[q].size)
    {
      if r == base {
        assert Apart(q, regions[q].size, base, region.size);
      } else if q == base {
        assert Apart(r, regions[r].size, base, region.size);
      }
    }
  }

  lemma NewBlocksFresh(s: State, c: Class, base: Addr, kept: set<Addr>)
    requires Core(s) && MayAddPage(s, c, base, kept)
    ensures var blocks := Layout(base, Stride(c), Capacity(PageBytes(s.cfg, c), c));
            && NoDup(blocks) && blocks != []
            && forall b :: b in blocks ==> b !in s.objs && b !in s.places.place && b != 0
  {
    hide Core;
    var bytes := PageBytes(s.cfg, c);
    var blocks := Layout(base, Stride(c), Capacity(bytes, c));
    LayoutFacts(base, c, bytes);
    LayoutNoDup(base, c, bytes);
    forall b | b in blocks ensures b !in s.objs && b !in s.places.place && b != 0 {
      var i :| 0 <= i < |blocks| && blocks[i] == b;
      NotAnObject(s, base, bytes, b);
      PlacedAreObjects(s, b);
    }
  }

  lemma NotAnObject(s: State, base: Addr, size: nat, b: Addr)
    requires Core(s) && FreshRegion(s.regions, base, size) && base <= b < base + size
    ensures b !in s.objs
  {
    hide Core;
    if b in s.objs {
      ObjectOutside(s, base, size, b);
    }
  }

  lemma PlacedAreObjects(s: State, b: Addr)
    requires Core(s)
    ensures b in s.places.place <==> b in s.objs
  {
  }

  /** Only chain `l` differs. */
  ghost predicate OnlyAt(p: Places, q: Places, l: Loc) {
    forall k :: k != l ==> At(q, k) == At(p, k)
  }

  lemma AdmitFacts(p: Places, blocks: seq<Addr>, l: Loc)
    requires WellPlaced(p) && NoDup(blocks) && At(p, l) == [] && !l.Queue? && !l.Detached?
    requires forall b :: b in blocks ==> b !in p.place
    ensures var q := Admit(p, blocks, l);
            && WellPlaced(q) && OnlyAt(p, q, l) && At(q, l) == blocks
            && Waiting(q) == Waiting(p)
            && (forall b :: b in p.place ==> b in q.place && q.place[b] == p.place[b])
  {
    AdmitWellPlaced(p, blocks, l);
    hide WellPlaced;
    assert Waiting(Admit(p, blocks, l)) == Waiting(p);
  }

  lemma ListsOnlyAt(p: Places, q: Places, l: Loc, pages: map<Addr, Page>)
    requires OnlyAt(p, q, l) && LiveCountsOk(pages, p) && CachesOk(p)
    requires !l.Cache? && (l.Free? ==> l.page !in pages)
    ensures LiveCountsOk(pages, q) && CachesOk(q)
  {
  }

  lemma HandsOnlyAt(p: Places, q: Places, l: Loc, pcs: map<Tid, Pc>, pcs': map<Tid, Pc>)
    requires OnlyAt(p, q, l) && HandsOk(p, pcs) && !l.Detached?
    requires if l.Hand? then pcs' == pcs[l.owner := PcOf(pcs', l.owner)] && Held(PcOf(pcs', l.owner)) == At(q, l)
                             && (At(p, Detached(l.owner)) == [] || Draining(PcOf(pcs', l.owner)))
             else pcs' == pcs
    ensures HandsOk(q, pcs')
  {
  }

  /** The chains after the new page's blocks were admitted. */
  lemma AddPagePlaces(s: State, c: Class, mode: Mode, base: Addr, kept: set<Addr>)
    requires Core(s) && MayAddPage(s, c, base, kept) && At(s.places, Free(base)) == [] && base !in s.pages
    ensures var s' := AddPage(s, c, mode, base, kept);
            && WellPlaced(s'.places) && HandsOk(s'.places, s'.pcs) && LiveCountsOk(s'.pages, s'.places)
            && CachesOk(s'.places) && PendingOk(s'.pending, s'.places, s'.pcs)
            && (forall b :: b in s.places.place ==> b in s'.places.place && s'.places.place[b] == s.places.place[b])
            && At(s'.places, Registry) == At(s.places, Registry)
  {
    hide RegionsOk, StoredOk, PoolsOk, PagesOk, ObjectsOk, WellPlaced, StatusOk, PcsOk, BucketsOk, HandsOk, CachesOk,
         LiveGaugeOk, MapGaugeOk, CountedOk, MapCountedOk, Layout, Capacity, Admit;
    NewBlocksFresh(s, c, base, kept);
    var blocks := Layout(base, Stride(c), Capacity(PageBytes(s.cfg, c), c));
    ReversedFacts(blocks);
    hide Reversed;
    var q := Admit(s.places, Reversed(blocks), Free(base));
    AdmitFacts(s.places, Reversed(blocks), Free(base));
    ListsOnlyAt(s.places, q, Free(base), s.pages);
    HandsOnlyAt(s.places, q, Free(base), s.pcs, s.pcs);
  }

  lemma AddPageObjects(s: State, c: Class, mode: Mode, base: Addr, kept: set<Addr>)
    requires Core(s) && MayAddPage(s, c, base, kept) && base !in s.regions && base !in s.pages
    ensures var s' := AddPage(s, c, mode, base, kept);
            && ObjectsOk(s'.objs, s'.pages, s'.regions)
            && (forall b :: b in s.objs ==> b in s'.objs && s'.objs[b] == s.objs[b])
  {
    hide RegionsOk, StoredOk, PoolsOk, PagesOk, ObjectsOk, WellPlaced, StatusOk, HandsOk, PcsOk, LiveCountsOk,
         BucketsOk, CachesOk, LiveGaugeOk, MapGaugeOk, PendingOk, CountedOk, MapCountedOk, Admit, Layout, Capacity;
    NewBlocksFresh(s, c, base, kept);
    var bytes := PageBytes(s.cfg, c);
    var blocks := Layout(base, Stride(c), Capacity(bytes, c));
    AdmitObjects(s, NewBlock(c, mode, bytes, base), base, Page(c, mode, bytes, blocks, 0));
  }

  lemma AdmitObjects(s: State, o: Object, base: Addr, page: Page)
    requires ObjectsOk(s.objs, s.pages, s.regions) && base !in s.regions && base !in s.pages
    requires forall b :: b in page.blocks ==> b !in s.objs && b != 0
    requires o == NewBlock(page.cls, page.mode, page.mapped, base)
    ensures ObjectsOk(s.objs + (map b | b in Elements(page.blocks) :: o), s.pages[base := page],
                      s.regions[base := Region(page.mapped, page.mode, 0)])
  {
  }

  lemma AddPagePages(s: State, c: Class, mode: Mode, base: Addr, kept: set<Addr>)
    requires Core(s) && MayAddPage(s, c, base, kept) && base !in s.regions && base !in s.pages
    ensures var s' := AddPage(s, c, mode, base, kept); PagesOk(s'.pages, s'.regions, s'.objs)
  {
    hide RegionsOk, StoredOk, PoolsOk, ObjectsOk, WellPlaced, StatusOk, HandsOk, PcsOk, LiveCountsOk, BucketsOk,
         CachesOk, LiveGaugeOk, MapGaugeOk, PendingOk, CountedOk, MapCountedOk, Admit, Layout, Capacity;
    NewBlocksFresh(s, c, base, kept);
    var s' := AddPage(s, c, mode, base, kept);
    forall p | p in s'.pages ensures PageOk(p, s'.pages[p], s'.regions, s'.objs) {
      if p != base {
        assert PageOk(p, s.pages[p], s.regions, s.objs);
      }
    }
  }

  lemma PoolsAdd(pages: map<Addr, Page>, pool: map<Class, seq<Addr>>, base: Addr, page: Page)
    requires PoolsOk(pages, pool) && base !in pages
    ensures PoolsOk(pages[base := page], pool[page.cls := [base] + PoolOf(pool, page.cls)])
  {
    var c := page.cls;
    var pages', pool' := pages[base := page], pool[c := [base] + PoolOf(pool, c)];
    assert base !in PoolOf(pool, c);
    ConsNoDup(base, PoolOf(pool, c));
    forall d ensures NoDup(PoolOf(pool', d)) {
      assert NoDup(PoolOf(pool, d));
    }
    forall d, p ensures p in PoolOf(pool', d) <==> p in pages' && pages'[p].cls == d {
      assert p in PoolOf(pool, d) <==> p in pages && pages[p].cls == d;
    }
  }

  lemma AddPageStatus(s: State, c: Class, mode: Mode, base: Addr, kept: set<Addr>)
    requires Core(s) && MayAddPage(s, c, base, kept) && base !in s.pages
    ensures var s' := AddPage(s, c, mode, base, kept); StatusOk(s'.objs, s'.places, s'.pages, s'.owners)
  {
    hide RegionsOk, StoredOk, PoolsOk, PagesOk, ObjectsOk, WellPlaced, StatusOk, HandsOk, PcsOk, LiveCountsOk,
         BucketsOk, CachesOk, LiveGaugeOk, MapGaugeOk, PendingOk, CountedOk, MapCountedOk, Layout, Capacity, Admit;
    NewBlocksFresh(s, c, base, kept);
    var bytes := PageBytes(s.cfg, c);
    var blocks := Layout(base, Stride(c), Capacity(bytes, c));
    AdmitStatus(s, blocks, base, NewBlock(c, mode, bytes, base), Page(c, mode, bytes, blocks, 0));
  }

  lemma AdmitStatus(s: State, blocks: seq<Addr>, base: Addr, o: Object, page: Page)
    requires StatusOk(s.objs, s.places, s.pages, s.owners) && NoDup(blocks) && base !in s.pages
    requires forall b :: b in blocks ==> b !in s.objs
    requires o.pooled && o.page == base && !o.live && o.requested == 0 && o.owner == 0
    ensures StatusOk(s.objs + (map b | b in Elements(blocks) :: o), Admit(s.places, Reversed(blocks), Free(base)),
                     s.pages[base := page], s.owners)
  {
    ReversedFacts(blocks);
    hide Reversed;
    var objs, pages := s.objs + (map b | b in Elements(blocks) :: o), s.pages[base := page];
    var q := Admit(s.places, Reversed(blocks), Free(base));
    forall b | b in objs ensures LocOk(q.place[b], objs[b], pages, s.owners) {
      if b !in blocks {
        assert LocOk(s.places.place[b], s.objs[b], s.pages, s.owners);
      }
    }
  }

  /** Program points only look at headers that are still there. */
  lemma AddPagePcs(s: State, c: Class, mode: Mode, base: Addr, kept: set<Addr>)
    requires Core(s) && MayAddPage(s, c, base, kept) && At(s.places, Free(base)) == [] && base !in s.regions
    requires base !in s.pages
    ensures var s' := AddPage(s, c, mode, base, kept);
            PcsOk(s'.pcs, s'.cfg, s'.objs, s'.places) && BucketsOk(s'.owners, s'.pcs, s'.objs)
  {
    hide Core, Admit, Layout, Capacity;
    AddPagePlaces(s, c, mode, base, kept);
    AddPageObjects(s, c, mode, base, kept);
    PcsExtend(s, AddPage(s, c, mode, base, kept));
  }

  lemma PcOkExtends(t: Tid, pc: Pc, cfg: Config, objs: map<Addr, Object>, objs': map<Addr, Object>)
    requires PcOk(t, pc, cfg, objs)
    requires forall b :: b in objs && (b in Claims(pc) || b in Held(pc)) ==> b in objs' && objs'[b] == objs[b]
    ensures PcOk(t, pc, cfg, objs')
    ensures NewMapping(pc, objs') == NewMapping(pc, objs)
  {
  }

  /** Headers added elsewhere disturb no program point. */
  lemma PcsExtend(s: State, s': State)
    requires Core(s) && s'.pcs == s.pcs && s'.cfg == s.cfg && s'.owners == s.owners
    requires forall b :: b in s.objs ==> b in s'.objs && s'.objs[b] == s.objs[b]
    requires forall b :: b in s.places.place ==> b in s'.places.place && s'.places.place[b] == s.places.place[b]
    ensures PcsOk(s'.pcs, s'.cfg, s'.objs, s'.places) && BucketsOk(s'.owners, s'.pcs, s'.objs)
    ensures NewMappings(s'.pcs, s'.objs) == NewMappings(s.pcs, s.objs)
  {
    hide RegionsOk, StoredOk, PoolsOk, PagesOk, ObjectsOk, WellPlaced, StatusOk, HandsOk, LiveCountsOk, CachesOk,
         LiveGaugeOk, MapGaugeOk, PendingOk, CountedOk, MapCountedOk, PcOk, ForeignPrefix, Claims;
    forall t | t in s.pcs
      ensures PcOk(t, s.pcs[t], s.cfg, s'.objs) && NewMapping(s.pcs[t], s'.objs) == NewMapping(s.pcs[t], s.objs)
    {
      PcOkExtends(t, s.pcs[t], s.cfg, s.objs, s'.objs);
    }
    forall t | t in s.pcs && s.pcs[t].Enqueue? ensures s.pcs[t].b in s.objs {
      EnqueuedIsObject(s, t);
    }
    hide NewMapping;
  }

  lemma EnqueuedIsObject(s: State, t: Tid)
    requires Core(s) && t in s.pcs && s.pcs[t].Enqueue?
    ensures s.pcs[t].b in s.objs
  {
    hide Core;
    HeldBlock(s, t);
  }

  lemma AddPageGauges(s: State, c: Class, mode: Mode, base: Addr, kept: set<Addr>)
    requires Core(s) && MayAddPage(s, c, base, kept) && At(s.places, Free(base)) == [] && base !in s.regions
    requires base !in s.pages
    ensures var s' := AddPage(s, c, mode, base, kept);
            && LiveGaugeOk(s'.gauges, s'.counted, s'.objs) && CountedOk(s'.counted, s'.places, s'.pcs)
            && MapGaugeOk(s'.gauges, s'.mapCounted, s'.regions)
            && MapCountedOk(s'.mapCounted, s'.regions, s'.pcs, s'.objs)
  {
    hide Core, Admit, Layout, Capacity, LiveGaugeOk, MapGaugeOk, CountedOk, MapCountedOk;
    var s' := AddPage(s, c, mode, base, kept);
    AddPagePlaces(s, c, mode, base, kept);
    AddPageObjects(s, c, mode, base, kept);
    GaugesExtend(s, s', base, Region(PageBytes(s.cfg, c), mode, 0));
  }

  /** The gauges after a counted region was added and headers were added elsewhere. */
  lemma GaugesExtend(s: State, s': State, base: Addr, r: Region)
    requires Core(s) && base !in s.regions && base != 0
    requires s'.pcs == s.pcs && s'.cfg == s.cfg && s'.owners == s.owners && s'.counted == s.counted
    requires s'.regions == s.regions[base := r] && s'.mapCounted == s.mapCounted + {base}
    requires s'.gauges == AddMapped(s.gauges, r.mode, r.size)
    requires forall b :: b in s.objs ==> b in s'.objs && s'.objs[b] == s.objs[b]
    requires forall b :: b in s.places.place ==> b in s'.places.place && s'.places.place[b] == s.places.place[b]
    requires At(s'.places, Registry) == At(s.places, Registry)
    ensures LiveGaugeOk(s'.gauges, s'.counted, s'.objs) && CountedOk(s'.counted, s'.places, s'.pcs)
    ensures MapGaugeOk(s'.gauges, s'.mapCounted, s'.regions) && MapCountedOk(s'.mapCounted, s'.regions, s'.pcs, s'.objs)
  {
    hide RegionsOk, StoredOk, PoolsOk, PagesOk, ObjectsOk, WellPlaced, StatusOk, HandsOk, PcsOk, LiveCountsOk,
         BucketsOk, CachesOk, PendingOk, LiveGaugeOk, MapGaugeOk;
    CountedAreObjects(s);
    GaugeFrame(s.gauges, s.counted, s.objs, s'.objs);
    LiveGaugeIgnoresMapped(s.gauges, r.mode, r.size, s.counted, s'.objs);
    MapGaugeFrame(s.gauges, s.mapCounted, s.regions, s'.regions);
    CountMapped(s.gauges, s.mapCounted, s'.regions, base);
    PcsExtend(s, s');
    NewMappingsAreRegions(s, base);
  }

  lemma CountedAreObjects(s: State)
    requires Core(s)
    ensures s.counted <= s.objs.Keys
    ensures s.mapCounted <= s.regions.Keys
  {
  }

  lemma NewMappingsAreRegions(s: State, base: Addr)
    requires Core(s) && base !in s.regions && base != 0
    ensures base !in NewMappings(s.pcs, s.objs)
  {
    hide RegionsOk, StoredOk, PoolsOk, PagesOk, WellPlaced, StatusOk, HandsOk, PcsOk, LiveCountsOk, BucketsOk,
         CachesOk, PendingOk, LiveGaugeOk, MapGaugeOk, CountedOk, MapCountedOk;
    forall t | t in s.pcs ensures NewMapping(s.pcs[t], s.objs) != base {
      assert NewMapping(s.pcs[t], s.objs) != 0 ==> ObjectOk(s.pcs[t].b, s.objs[s.pcs[t].b], s.pages, s.regions);
    }
  }

  // ---- The allocation critical section --------------------------------------------------------

  lemma NewPageEmpties(s: State, c: Class, mode: Mode, base: Addr, kept: set<Addr>)
    requires Core(s) && EmptiesOk(s.cfg, s.pages, s.pool) && MayAddPage(s, c, base, kept) && base !in s.pages
    ensures var s' := AddPage(s, c, mode, base, kept);
            EmptiesOk(s'.cfg, Busier(s'.pages, base), s'.pool)
  {
    hide RegionsOk, StoredOk, PagesOk, ObjectsOk, WellPlaced, StatusOk, HandsOk, PcsOk, LiveCountsOk, BucketsOk,
         CachesOk, LiveGaugeOk, MapGaugeOk, PendingOk, CountedOk, MapCountedOk, Admit, Layout, Capacity;
    var s' := AddPage(s, c, mode, base, kept);
    var pages := Busier(s'.pages, base);
    forall d ensures CountEmpty(PoolOf(s'.pool, d), pages) <= EmptyCeiling(s.cfg) {
      var xs := PoolOf(s.pool, d);
      assert forall p :: p in xs ==> p in s.pages;
      CountEmptyFrame(xs, s.pages, pages);
      assert CountEmpty(xs, s.pages) <= EmptyCeiling(s.cfg);
      if d == c {
        assert PoolOf(s'.pool, d)[1..] == xs;
      }
    }
  }

  lemma CentralKeeps(s: State, t: Tid, oracle: Oracle)
    requires Inv(s) && t in s.pcs && s.pcs[t].Central? && OracleOk(s.regions, oracle, PageBytes(s.cfg, s.pcs[t].cls))
    ensures Inv(GoCentral(s, t, s.pcs[t], oracle))
  {
    hide Core, EmptiesOk, TakeFrom, Capacity;
    var pc := s.pcs[t];
    SelectPageFacts(s, pc.cls, pc.req.packing);
    QuietThread(s, t);
    match SelectPage(s, pc.cls, pc.req.packing)
    case Some(p) =>
      TakeEmpties(s, p);
      TakeFromKeeps(s, t, p);
    case None =>
      if Capacity(PageBytes(s.cfg, pc.cls), pc.cls) == 0 || oracle.MapFails? {
        SetPcKeeps(s, t, Idle);
      } else {
        NewPageKeeps(s, t, oracle);
      }
  }

  lemma NewPageKeeps(s: State, t: Tid, oracle: Oracle)
    requires Inv(s) && t in s.pcs && s.pcs[t].Central? && oracle.Maps?
    requires OracleOk(s.regions, oracle, PageBytes(s.cfg, s.pcs[t].cls))
    requires Capacity(PageBytes(s.cfg, s.pcs[t].cls), s.pcs[t].cls) > 0
    ensures var pc := s.pcs[t];
            Inv(TakeFrom(AddPage(s, pc.cls, pc.req.mode, oracle.base, oracle.kept), t, pc.req, pc.cls, pc.src,
                         oracle.base))
  {
    hide Core, EmptiesOk, TakeFrom, Capacity, Layout, Admit;
    var pc := s.pcs[t];
    QuietThread(s, t);
    FreshBase(s, oracle.base, PageBytes(s.cfg, pc.cls));
    AddPageCore(s, pc.cls, pc.req.mode, oracle.base, oracle.kept);
    NewPageEmpties(s, pc.cls, pc.req.mode, oracle.base, oracle.kept);
    NewPageFree(s, pc.cls, pc.req.mode, oracle.base, oracle.kept);
    TakeFromKeeps(AddPage(s, pc.cls, pc.req.mode, oracle.base, oracle.kept), t, oracle.base);
  }

  lemma NewPageFree(s: State, c: Class, mode: Mode, base: Addr, kept: set<Addr>)
    requires Core(s) && MayAddPage(s, c, base, kept) && At(s.places, Free(base)) == []
    ensures At(AddPage(s, c, mode, base, kept).places, Free(base)) != []
  {
    hide Core, Capacity, Layout;
    NewBlocksFresh(s, c, base, kept);
  }

  // ---- A new direct object ------------------------------------------------------------------------

  ghost predicate MayMap(s: State, t: Tid, req: Request, src: Addr, bytes: nat, base: Addr, kept: set<Addr>) {
    && t in s.pcs && s.pcs[t] == MapNew(req, src)
    && DirectBytes(req.size, req.alignment, req.redzone) == Some(bytes)
    && FreshRegion(s.regions, base, bytes)
    && forall k :: k in kept ==> k % PAGE_SIZE == 0 && base <= k < base + bytes
  }

  lemma MappedHeader(s: State, t: Tid, req: Request, src: Addr, bytes: nat, base: Addr, kept: set<Addr>)
    requires Core(s) && MayMap(s, t, req, src, bytes, base, kept)
    ensures var b := DirectHeader(base, req.alignment);
            && base <= b && b + HEADER + DirectUsable(req.size) + (if req.redzone then REDZONE else 0) <= base + bytes
            && req.size <= DirectUsable(req.size)
            && (b + HEADER) % (if req.alignment > 16 then req.alignment else 16) == 0
            && b !in s.objs && b !in s.places.place && b != 0
  {
    hide Core;
    QuietThread(s, t);
    hide PcOk;
    DirectFits(base, req.size, req.alignment, req.redzone);
    var b := DirectHeader(base, req.alignment);
    NotAnObject(s, base, bytes, b);
    PlacedAreObjects(s, b);
  }

  lemma MapNewCore(s: State, t: Tid, req: Request, src: Addr, bytes: nat, base: Addr, kept: set<Addr>)
    requires Core(s) && MayMap(s, t, req, src, bytes, base, kept)
    ensures Core(AddDirect(s, t, req, src, bytes, base, kept))
  {
    hide RegionsOk, StoredOk, PoolsOk, PagesOk, ObjectsOk, WellPlaced, StatusOk, HandsOk, PcsOk, LiveCountsOk,
         BucketsOk, CachesOk, LiveGaugeOk, MapGaugeOk, PendingOk, CountedOk, MapCountedOk, Admit, DirectBytes,
         DirectHeader;
    FreshBase(s, base, bytes);
    RegionsAdd(s.regions, s.stored, base, Region(bytes, req.mode, DirectHeader(base, req.alignment)), kept);
    MapNewPlaces(s, t, req, src, bytes, base, kept);
    MapNewObjects(s, t, req, src, bytes, base, kept);
    MapNewPages(s, t, req, src, bytes, base, kept);
    MapNewStatus(s, t, req, src, bytes, base, kept);
    MapNewPcs(s, t, req, src, bytes, base, kept);
    MapNewGauges(s, t, req, src, bytes, base, kept);
  }

  lemma MapNewPlaces(s: State, t: Tid, req: Request, src: Addr, bytes: nat, base: Addr, kept: set<Addr>)
    requires Core(s) && MayMap(s, t, req, src, bytes, base, kept)
    ensures var s' := AddDirect(s, t, req, src, bytes, base, kept);
            && WellPlaced(s'.places) && HandsOk(s'.places, s'.pcs) && LiveCountsOk(s'.pages, s'.places)
            && CachesOk(s'.places) && PendingOk(s'.pending, s'.places, s'.pcs)
            && (forall b :: b in s.places.place ==> b in s'.places.place && s'.places.place[b] == s.places.place[b])
            && At(s'.places, Registry) == At(s.places, Registry)
  {
    hide RegionsOk, StoredOk, PoolsOk, PagesOk, ObjectsOk, WellPlaced, StatusOk, PcsOk, BucketsOk, HandsOk, CachesOk,
         LiveCountsOk, LiveGaugeOk, MapGaugeOk, CountedOk, MapCountedOk, DirectBytes, DirectHeader, Admit;
    MappedHeader(s, t, req, src, bytes, base, kept);
    QuietThread(s, t);
    var b := DirectHeader(base, req.alignment);
    var q := Admit(s.places, [b], Hand(t));
    var pcs := s.pcs[t := Fresh(req, src, b)];
    AdmitFacts(s.places, [b], Hand(t));
    ListsOnlyAt(s.places, q, Hand(t), s.pages);
    HandsOnlyAt(s.places, q, Hand(t), s.pcs, pcs);
    assert Ticking(pcs) == Ticking(s.pcs);
  }

  lemma MapNewObjects(s: State, t: Tid, req: Request, src: Addr, bytes: nat, base: Addr, kept: set<Addr>)
    requires Core(s) && MayMap(s, t, req, src, bytes, base, kept) && base !in s.regions
    ensures var s' := AddDirect(s, t, req, src, bytes, base, kept);
            && ObjectsOk(s'.objs, s'.pages, s'.regions)
            && (forall b :: b in s.objs ==> b in s'.objs && s'.objs[b] == s.objs[b])
  {
    hide RegionsOk, StoredOk, PoolsOk, PagesOk, ObjectsOk, WellPlaced, StatusOk, HandsOk, PcsOk, LiveCountsOk,
         BucketsOk, CachesOk, LiveGaugeOk, MapGaugeOk, PendingOk, CountedOk, MapCountedOk, Admit, DirectBytes,
         DirectHeader;
    MappedHeader(s, t, req, src, bytes, base, kept);
    var b := DirectHeader(base, req.alignment);
    ObjectsAddRegion(s, base, Region(bytes, req.mode, b));
    ObjectsAdd(s.objs, s.pages, s.regions[base := Region(bytes, req.mode, b)], b, DirectObject(req, bytes, base));
  }

  lemma ObjectsAddRegion(s: State, base: Addr, region: Region)
    requires ObjectsOk(s.objs, s.pages, s.regions) && base !in s.regions
    ensures ObjectsOk(s.objs, s.pages, s.regions[base := region])
  {
  }

  lemma ObjectsAdd(objs: map<Addr, Object>, pages: map<Addr, Page>, regions: map<Addr, Region>, b: Addr, o: Object)
    requires ObjectsOk(objs, pages, regions) && b != 0 && ObjectOk(b, o, pages, regions)
    ensures ObjectsOk(objs[b := o], pages, regions)
  {
  }

  lemma MapNewPages(s: State, t: Tid, req: Request, src: Addr, bytes: nat, base: Addr, kept: set<Addr>)
    requires Core(s) && MayMap(s, t, req, src, bytes, base, kept) && base !in s.regions
    ensures var s' := AddDirect(s, t, req, src, bytes, base, kept); PagesOk(s'.pages, s'.regions, s'.objs)
  {
    hide RegionsOk, StoredOk, PoolsOk, ObjectsOk, WellPlaced, StatusOk, HandsOk, PcsOk, LiveCountsOk, BucketsOk,
         CachesOk, LiveGaugeOk, MapGaugeOk, PendingOk, CountedOk, MapCountedOk, Admit, DirectBytes, DirectHeader,
         Layout, Capacity;
    MappedHeader(s, t, req, src, bytes, base, kept);
    var s' := AddDirect(s, t, req, src, bytes, base, kept);
    forall p | p in s.pages ensures PageOk(p, s.pages[p], s'.regions, s'.objs) {
      assert PageOk(p, s.pages[p], s.regions, s.objs);
    }
  }

  lemma MapNewStatus(s: State, t: Tid, req: Request, src: Addr, bytes: nat, base: Addr, kept: set<Addr>)
    requires Core(s) && MayMap(s, t, req, src, bytes, base, kept)
    ensures var s' := AddDirect(s, t, req, src, bytes, base, kept); StatusOk(s'.objs, s'.places, s'.pages, s'.owners)
  {
    hide RegionsOk, StoredOk, PoolsOk, PagesOk, ObjectsOk, WellPlaced, HandsOk, PcsOk, LiveCountsOk, BucketsOk,
         CachesOk, LiveGaugeOk, MapGaugeOk, PendingOk, CountedOk, MapCountedOk, DirectBytes, DirectHeader;
    MappedHeader(s, t, req, src, bytes, base, kept);
    QuietThread(s, t);
    hide LocOk;
    DirectInHand(t, req, bytes, base, s.pages, s.owners);
  }

  lemma DirectInHand(t: Tid, req: Request, bytes: nat, base: Addr, pages: map<Addr, Page>, owners: seq<Tid>)
    requires req.thread != 0
    ensures LocOk(Hand(t), DirectObject(req, bytes, base), pages, owners)
  {
  }

  lemma MapNewPcs(s: State, t: Tid, req: Request, src: Addr, bytes: nat, base: Addr, kept: set<Addr>)
    requires Core(s) && MayMap(s, t, req, src, bytes, base, kept) && base !in s.regions
    ensures var s' := AddDirect(s, t, req, src, bytes, base, kept);
            PcsOk(s'.pcs, s'.cfg, s'.objs, s'.places) && BucketsOk(s'.owners, s'.pcs, s'.objs)
  {
    hide Core, Admit, DirectBytes, DirectHeader;
    var s' := AddDirect(s, t, req, src, bytes, base, kept);
    MapNewPlaces(s, t, req, src, bytes, base, kept);
    MapNewObjects(s, t, req, src, bytes, base, kept);
    QuietThread(s, t);
    var before := s'.(pcs := s.pcs);
    PcsExtend(s, before);
    MapNewPcsOk(before, t, s'.pcs[t]);
    BucketsSetPc(before.owners, before.pcs, before.objs, t, s'.pcs[t]);
  }

  lemma MapNewPcsOk(s: State, t: Tid, pc: Pc)
    requires PcsOk(s.pcs, s.cfg, s.objs, s.places) && t in s.pcs && s.pcs[t].MapNew? && pc.Fresh?
    requires pc.src == s.pcs[t].src && pc.req == s.pcs[t].req && pc.b in s.objs && Answers(s.objs[pc.b], pc.req)
    ensures PcsOk(s.pcs[t := pc], s.cfg, s.objs, s.places)
  {
    assert PcOk(t, pc, s.cfg, s.objs);
    hide PcOk;
    assert Claims(pc) == Claims(s.pcs[t]);
    PcsAfter(s.pcs, t, pc, s.cfg, s.objs, s.objs, s.places, s.places);
  }

  lemma MapNewGauges(s: State, t: Tid, req: Request, src: Addr, bytes: nat, base: Addr, kept: set<Addr>)
    requires Core(s) && MayMap(s, t, req, src, bytes, base, kept) && base !in s.regions
    ensures var s' := AddDirect(s, t, req, src, bytes, base, kept);
            && LiveGaugeOk(s'.gauges, s'.counted, s'.objs) && CountedOk(s'.counted, s'.places, s'.pcs)
            && MapGaugeOk(s'.gauges, s'.mapCounted, s'.regions)
            && MapCountedOk(s'.mapCounted, s'.regions, s'.pcs, s'.objs)
  {
    hide RegionsOk, StoredOk, PoolsOk, PagesOk, ObjectsOk, WellPlaced, StatusOk, HandsOk, PcsOk, LiveCountsOk,
         BucketsOk, CachesOk, PendingOk, LiveGaugeOk, MapGaugeOk, Admit, DirectBytes, DirectHeader;
    var s' := AddDirect(s, t, req, src, bytes, base, kept);
    MapNewPlaces(s, t, req, src, bytes, base, kept);
    MapNewObjects(s, t, req, src, bytes, base, kept);
    CountedAreObjects(s);
    GaugeFrame(s.gauges, s.counted, s.objs, s'.objs);
    MapGaugeFrame(s.gauges, s.mapCounted, s.regions, s'.regions);
    UnreportedFrame(s.pcs, s'.pcs, t);
    PcsExtend(s, s'.(pcs := s.pcs));
    NewMappingsAreRegions(s, base);
    RegionKeysPositive(s);
    MapNewMappings(s, s', t, base);
  }

  lemma RegionKeysPositive(s: State)
    requires Core(s)
    ensures 0 !in s.regions
  {
  }

  lemma MapNewMappings(s: State, s': State, t: Tid, base: Addr)
    requires t in s.pcs && NewMapping(s.pcs[t], s.objs) == 0 && 0 !in s.regions && base !in s.regions
    requires s'.pcs == s.pcs[t := PcOf(s'.pcs, t)] && NewMapping(PcOf(s'.pcs, t), s'.objs) == base
    requires forall u :: u in s.pcs ==> NewMapping(s.pcs[u], s'.objs) == NewMapping(s.pcs[u], s.objs)
    ensures s.regions.Keys - NewMappings(s.pcs, s.objs) == s.regions.Keys + {base} - NewMappings(s'.pcs, s'.objs)
  {
    forall r | r in s.regions ensures r in NewMappings(s'.pcs, s'.objs) <==> r in NewMappings(s.pcs, s.objs) {
      if r in NewMappings(s.pcs, s.objs) {
        var u :| u in s.pcs && r == NewMapping(s.pcs[u], s.objs);
        assert u in s'.pcs && r == NewMapping(s'.pcs[u], s'.objs);
      }
      if r in NewMappings(s'.pcs, s'.objs) {
        var u :| u in s'.pcs && r == NewMapping(s'.pcs[u], s'.objs);
        assert u in s.pcs && r == NewMapping(s.pcs[u], s.objs);
      }
    }
    assert t in s'.pcs && base == NewMapping(s'.pcs[t], s'.objs);
  }

  lemma MapNewKeeps(s: State, t: Tid, oracle: Oracle)
    requires Inv(s) && t in s.pcs && s.pcs[t].MapNew? && OracleOk(s.regions, oracle, Wanted(s, t))
    ensures Inv(GoMapNew(s, t, s.pcs[t], oracle))
  {
    hide Core, EmptiesOk, DirectBytes, AddDirect;
    var pc := s.pcs[t];
    QuietThread(s, t);
    var bytes := DirectBytes(pc.req.size, pc.req.alignment, pc.req.redzone);
    if bytes.None? || oracle.MapFails? {
      SetPcKeeps(s, t, Idle);
    } else {
      MapNewCore(s, t, pc.req, pc.src, bytes.value, oracle.base, oracle.kept);
      MapNewEmpties(s, t, pc.req, pc.src, bytes.value, oracle.base, oracle.kept);
    }
  }

  lemma MapNewEmpties(s: State, t: Tid, req: Request, src: Addr, bytes: nat, base: Addr, kept: set<Addr>)
    requires EmptiesOk(s.cfg, s.pages, s.pool)
    ensures var s' := AddDirect(s, t, req, src, bytes, base, kept); EmptiesOk(s'.cfg, s'.pages, s'.pool)
  {
  }
}
