/** Every elementary change keeps the invariant. */
module HeapProofs {
  import opened Types
  import opened Geometry
  import opened Places
  import opened HeapState
  import opened HeapSteps

  // ---- A thread goes on without touching shared state ------------------------

  /** Program points that need nothing new from the shared state. */
  ghost predicate Continues(s: State, t: Tid, pc: Pc) {
    var was := PcOf(s.pcs, t);
    && t != 0
    && Held(pc) == Held(was)
    && Claims(pc) <= Claims(was)
    && (At(s.places, Detached(t)) != [] ==> Draining(pc))
    && PcOk(t, pc, s.cfg, s.objs)
    && (pc.Enqueue? && pc.b in s.objs && |s.owners| == BUCKETS ==> ForeignPrefix(s.owners, s.objs[pc.b].owner, pc.k))
    && (Draining(pc) ==> pc.bucket < |s.owners| && s.owners[pc.bucket] == t)
    && Unreported(pc) == Unreported(was)
    && NewMapping(pc, s.objs) == NewMapping(was, s.objs)
  }

  lemma SetPcKeeps(s: State, t: Tid, pc: Pc)
    requires Inv(s) && Continues(s, t, pc)
    requires !pc.Tick? && !PcOf(s.pcs, t).Tick?
    ensures Inv(SetPc(s, t, pc))
  {
    hide Core, EmptiesOk, Continues;
    assert PendingOk(s.pending, s.places, s.pcs[t := pc]) by {
      PendingSetPc(s, t, pc);
    }
    SetPcPending(s, t, pc, s.pending);
  }

  lemma PendingSetPc(s: State, t: Tid, pc: Pc)
    requires Inv(s) && !pc.Tick? && !PcOf(s.pcs, t).Tick?
    ensures PendingOk(s.pending, s.places, s.pcs[t := pc])
  {
    hide RegionsOk, StoredOk, PoolsOk, PagesOk, ObjectsOk, WellPlaced, StatusOk, HandsOk, PcsOk, LiveCountsOk,
         BucketsOk, CachesOk, EmptiesOk, LiveGaugeOk, MapGaugeOk, CountedOk, MapCountedOk;
    assert Ticking(s.pcs[t := pc]) == Ticking(s.pcs);
  }

  lemma SetPcPending(s: State, t: Tid, pc: Pc, n: nat)
    requires Inv(s) && Continues(s, t, pc) && PendingOk(n, s.places, s.pcs[t := pc])
    ensures Inv(SetPc(s, t, pc).(pending := n))
  {
    hide RegionsOk, StoredOk, PoolsOk, PagesOk, ObjectsOk, WellPlaced, StatusOk, HandsOk, PcsOk, LiveCountsOk,
         CachesOk, EmptiesOk, LiveGaugeOk, MapGaugeOk, PcOk, PendingOk;
    var pcs := s.pcs[t := pc];
    HandsSetPc(s, t, pc);
    PcsSetPc(s, t, pc);
    BucketsSetPc(s.owners, s.pcs, s.objs, t, pc);
    UnreportedFrame(s.pcs, pcs, t);
    NewMappingsFrame(s.regions, s.pcs, pcs, s.objs, s.objs, t);
  }

  lemma HandsSetPc(s: State, t: Tid, pc: Pc)
    requires HandsOk(s.places, s.pcs) && Continues(s, t, pc)
    ensures HandsOk(s.places, s.pcs[t := pc])
  {
  }

  lemma PcsSetPc(s: State, t: Tid, pc: Pc)
    requires PcsOk(s.pcs, s.cfg, s.objs, s.places) && Continues(s, t, pc)
    ensures PcsOk(s.pcs[t := pc], s.cfg, s.objs, s.places)
  {
    hide PcOk;
  }

  lemma BucketsSetPc(owners: seq<Tid>, pcs: map<Tid, Pc>, objs: map<Addr, Object>, t: Tid, pc: Pc)
    requires BucketsOk(owners, pcs, objs)
    requires pc.Enqueue? && pc.b in objs ==> ForeignPrefix(owners, objs[pc.b].owner, pc.k)
    requires Draining(pc) ==> pc.bucket < |owners| && owners[pc.bucket] == t
    ensures BucketsOk(owners, pcs[t := pc], objs)
  {
  }

  lemma UnreportedFrame(pcs: map<Tid, Pc>, pcs': map<Tid, Pc>, t: Tid)
    requires pcs' == pcs[t := PcOf(pcs', t)] && Unreported(PcOf(pcs', t)) == Unreported(PcOf(pcs, t))
    ensures AllUnreported(pcs') == AllUnreported(pcs)
  {
    forall b ensures b in AllUnreported(pcs') <==> b in AllUnreported(pcs) {
      if b in AllUnreported(pcs) {
        var u :| u in pcs && b in Unreported(pcs[u]);
        assert u in pcs' && b in Unreported(pcs'[u]);
      }
      if b in AllUnreported(pcs') {
        var u :| u in pcs' && b in Unreported(pcs'[u]);
        assert u in pcs && b in Unreported(pcs[u]);
      }
    }
  }

  lemma NewMappingsFrame(regions: map<Addr, Region>, pcs: map<Tid, Pc>, pcs': map<Tid, Pc>,
                         objs: map<Addr, Object>, objs': map<Addr, Object>, t: Tid)
    requires RegionsOk(regions)
    requires pcs' == pcs[t := PcOf(pcs', t)]
    requires NewMapping(PcOf(pcs', t), objs') == NewMapping(PcOf(pcs, t), objs)
    requires forall u :: u in pcs && u != t ==> NewMapping(pcs[u], objs') == NewMapping(pcs[u], objs)
    ensures regions.Keys - NewMappings(pcs', objs') == regions.Keys - NewMappings(pcs, objs)
  {
    forall r | r in regions ensures r in NewMappings(pcs', objs') <==> r in NewMappings(pcs, objs) {
      assert r > 0;
      if r in NewMappings(pcs, objs) {
        var u :| u in pcs && r == NewMapping(pcs[u], objs);
        assert u in pcs' && r == NewMapping(pcs'[u], objs');
      }
      if r in NewMappings(pcs', objs') {
        var u :| u in pcs' && r == NewMapping(pcs'[u], objs');
        assert u in pcs && r == NewMapping(pcs[u], objs);
      }
    }
  }

  lemma IdleIsOk(t: Tid, cfg: Config, objs: map<Addr, Object>)
    ensures PcOk(t, Idle, cfg, objs)
  {
  }

  // ---- One block moves between two chains -------------------------------------

  predicate SameShape(o: Object, o': Object) {
    && o.storage == o'.storage && o.pooled == o'.pooled && o.redzone == o'.redzone
    && o.usable == o'.usable && o.mapped == o'.mapped && o.base == o'.base && o.page == o'.page && o.align == o'.align
    && (!o.pooled ==> o.mode == o'.mode)
  }

  /** What a thread must have in order to move block `b`: it holds or claims the block,
      or the block is on one of its own chains, and the header it writes suits the
      chain the block goes to. */
  ghost predicate MayRelocate(s: State, t: Tid, b: Addr, to: Loc, o: Object, pc: Pc) {
    var was := PcOf(s.pcs, t);
    && t != 0
    && b in s.objs && b in s.places.place
    && (var from := s.places.place[b];
        && from != to && !to.Detached?
        && (from.Hand? ==> from.owner == t) && (to.Hand? ==> to.owner == t)
        && (from.Detached? ==> from.owner == t)
        && (if from.Hand? || to.Hand?
            then Held(was) == (if from.Hand? then [b] else []) && Held(pc) == (if to.Hand? then [b] else [])
            else Held(was) == Held(pc))
        && Unreported(was) == (if from.Registry? then {b} else {})
        && Unreported(pc) == (if to.Registry? then {b} else {}))
    && SameShape(s.objs[b], o) && o.requested <= o.usable
    && LocOk(to, o, s.pages, s.owners)
    && (Draining(pc) || At(s.places, Detached(t)) == [])
    && PcOk(t, pc, s.cfg, s.objs[b := o])
    && Claims(pc) - {b} <= Claims(was) && (b in Claims(pc) ==> to.Registry?)
    && !pc.Enqueue?
    && (Draining(pc) ==> pc.bucket < |s.owners| && s.owners[pc.bucket] == t)
    && (to.Cache? ==> |At(s.places, to)| < CacheCeiling(to.cls))
    && NewMapping(pc, s.objs[b := o]) == NewMapping(was, s.objs)
  }

  /** The same pages up to their live counts. */
  predicate SamePages(pages: map<Addr, Page>, pages': map<Addr, Page>) {
    && pages'.Keys == pages.Keys
    && forall p :: p in pages ==> WithLive(pages'[p], 0) == WithLive(pages[p], 0)
  }

  lemma RelocateKeeps(s: State, t: Tid, b: Addr, to: Loc, o: Object, pc: Pc, n: nat)
    requires Inv(s) && MayRelocate(s, t, b, to, o, pc) && b in s.places.place
    requires !to.Free? && !s.places.place[b].Free?
    requires PendingOk(n, Move(s.places, b, to), s.pcs[t := pc])
    ensures Inv(Relocate(s, t, b, to, o, pc).(pending := n))
  {
    hide Core, MayRelocate, LiveCountsOk, PendingOk, EmptiesOk, Move;
    RelocateLiveCounts(s, t, b, to, o, pc);
    RelocateCore(s, t, b, to, o, pc, n, s.pages);
    assert Relocate(s, t, b, to, o, pc).(pending := n) == Relocate(s, t, b, to, o, pc).(pages := s.pages, pending := n);
  }

  lemma RelocateLiveCounts(s: State, t: Tid, b: Addr, to: Loc, o: Object, pc: Pc)
    requires Core(s) && MayRelocate(s, t, b, to, o, pc) && !to.Free? && !s.places.place[b].Free?
    ensures LiveCountsOk(s.pages, Move(s.places, b, to))
  {
    hide RegionsOk, StoredOk, PoolsOk, PagesOk, ObjectsOk, WellPlaced, StatusOk, HandsOk, PcsOk, BucketsOk, CachesOk,
         LiveGaugeOk, MapGaugeOk, PcOk, LocOk, Move, PendingOk, CountedOk, MapCountedOk;
    MoveWellPlaced(s.places, b, to);
  }

  lemma RelocateCore(s: State, t: Tid, b: Addr, to: Loc, o: Object, pc: Pc, n: nat, pages: map<Addr, Page>)
    requires Core(s) && SamePages(s.pages, pages) && MayRelocate(s, t, b, to, o, pc)
    requires PendingOk(n, Move(s.places, b, to), s.pcs[t := pc])
    requires LiveCountsOk(pages, Move(s.places, b, to))
    ensures Core(Relocate(s, t, b, to, o, pc).(pages := pages, pending := n))
  {
    hide RegionsOk, StoredOk, PoolsOk, PagesOk, ObjectsOk, WellPlaced, StatusOk, HandsOk, PcsOk, LiveCountsOk,
         BucketsOk, CachesOk, LiveGaugeOk, MapGaugeOk, PcOk, LocOk, Move, PendingOk, CountedOk, MapCountedOk,
         SamePages;
    MoveWellPlaced(s.places, b, to);
    RelocateObjects(s, b, o);
    RelocatePages(s, b, o);
    RelocateStatus(s, t, b, to, o, pc);
    RelocateHands(s, t, b, to, o, pc);
    RelocatePcs(s, t, b, to, o, pc);
    RelocateCaches(s, t, b, to, o, pc);
    RelocateBuckets(s, t, b, to, o, pc);
    RelocateCounted(s, t, b, to, o, pc);
    RelocateGauges(s, t, b, to, o, pc);
    RelocateMapCounted(s, t, b, to, o, pc);
    SamePagesFrame(s, pages, s.objs[b := o], Move(s.places, b, to));
  }

  lemma SamePagesFrame(s: State, pages: map<Addr, Page>, objs: map<Addr, Object>, places: Places)
    requires SamePages(s.pages, pages)
    requires PoolsOk(s.pages, s.pool) && PagesOk(s.pages, s.regions, objs)
    requires ObjectsOk(objs, s.pages, s.regions) && StatusOk(objs, places, s.pages, s.owners)
    ensures PoolsOk(pages, s.pool) && PagesOk(pages, s.regions, objs)
    ensures ObjectsOk(objs, pages, s.regions) && StatusOk(objs, places, pages, s.owners)
  {
    forall p | p in pages ensures SamePageBut(s.pages, pages, p) {
      assert WithLive(pages[p], 0) == WithLive(s.pages[p], 0);
    }
    hide SamePages, PoolsOk, PagesOk, ObjectsOk, StatusOk;
    SamePagesPools(s.pages, pages, s.pool);
    SamePagesPages(s.pages, pages, s.regions, objs);
    SamePagesObjects(s.pages, pages, s.regions, objs);
    SamePagesStatus(s.pages, pages, objs, places, s.owners);
  }

  predicate SamePageBut(pages: map<Addr, Page>, pages': map<Addr, Page>, p: Addr) {
    && p in pages && p in pages'
    && pages[p].cls == pages'[p].cls && pages[p].mode == pages'[p].mode
    && pages[p].mapped == pages'[p].mapped && pages[p].blocks == pages'[p].blocks
  }

  lemma SamePagesPools(pages: map<Addr, Page>, pages': map<Addr, Page>, pool: map<Class, seq<Addr>>)
    requires pages'.Keys == pages.Keys && forall p :: p in pages' ==> SamePageBut(pages, pages', p)
    requires PoolsOk(pages, pool)
    ensures PoolsOk(pages', pool)
  {
    forall c, p ensures p in PoolOf(pool, c) <==> p in pages' && pages'[p].cls == c {
      assert p in pages' ==> SamePageBut(pages, pages', p);
      assert p in PoolOf(pool, c) <==> p in pages && pages[p].cls == c;
    }
  }

  lemma SamePagesPages(pages: map<Addr, Page>, pages': map<Addr, Page>, regions: map<Addr, Region>,
                       objs: map<Addr, Object>)
    requires pages'.Keys == pages.Keys && forall p :: p in pages' ==> SamePageBut(pages, pages', p)
    requires PagesOk(pages, regions, objs)
    ensures PagesOk(pages', regions, objs)
  {
  }

  lemma SamePagesObjects(pages: map<Addr, Page>, pages': map<Addr, Page>, regions: map<Addr, Region>,
                         objs: map<Addr, Object>)
    requires pages'.Keys == pages.Keys && forall p :: p in pages' ==> SamePageBut(pages, pages', p)
    requires ObjectsOk(objs, pages, regions)
    ensures ObjectsOk(objs, pages', regions)
  {
  }

  lemma SamePagesStatus(pages: map<Addr, Page>, pages': map<Addr, Page>, objs: map<Addr, Object>, places: Places,
                        owners: seq<Tid>)
    requires pages'.Keys == pages.Keys && forall p :: p in pages' ==> SamePageBut(pages, pages', p)
    requires StatusOk(objs, places, pages, owners)
    ensures StatusOk(objs, places, pages', owners)
  {
  }

  lemma RelocateObjects(s: State, b: Addr, o: Object)
    requires ObjectsOk(s.objs, s.pages, s.regions)
    requires b in s.objs && SameShape(s.objs[b], o) && o.requested <= o.usable
    ensures ObjectsOk(s.objs[b := o], s.pages, s.regions)
  {
  }

  lemma RelocatePages(s: State, b: Addr, o: Object)
    requires PagesOk(s.pages, s.regions, s.objs)
    requires b in s.objs && SameShape(s.objs[b], o)
    ensures PagesOk(s.pages, s.regions, s.objs[b := o])
  {
  }

  lemma RelocateStatus(s: State, t: Tid, b: Addr, to: Loc, o: Object, pc: Pc)
    requires StatusOk(s.objs, s.places, s.pages, s.owners) && MayRelocate(s, t, b, to, o, pc)
    ensures StatusOk(s.objs[b := o], Move(s.places, b, to), s.pages, s.owners)
  {
  }

  lemma RelocateHands(s: State, t: Tid, b: Addr, to: Loc, o: Object, pc: Pc)
    requires WellPlaced(s.places) && HandsOk(s.places, s.pcs) && MayRelocate(s, t, b, to, o, pc)
    ensures HandsOk(Move(s.places, b, to), s.pcs[t := pc])
  {
    hide WellPlaced, LocOk, PcOk;
    MoveWellPlaced(s.places, b, to);
    var q, pcs := Move(s.places, b, to), s.pcs[t := pc];
    forall u ensures At(q, Hand(u)) == Held(PcOf(pcs, u)) && (At(q, Detached(u)) != [] ==> Draining(PcOf(pcs, u))) {
      assert At(s.places, Hand(u)) == Held(PcOf(s.pcs, u));
    }
  }

  lemma OthersKeepTheirBlock(s: State, t: Tid, b: Addr, to: Loc, o: Object, pc: Pc, u: Tid)
    requires WellPlaced(s.places) && HandsOk(s.places, s.pcs) && PcsOk(s.pcs, s.cfg, s.objs, s.places)
    requires MayRelocate(s, t, b, to, o, pc) && u in s.pcs && u != t
    ensures b !in Claims(s.pcs[u]) && b !in Held(s.pcs[u])
    ensures PcOk(u, s.pcs[u], s.cfg, s.objs[b := o])
  {
    assert At(s.places, Hand(u)) == Held(PcOf(s.pcs, u));
    assert b in Held(s.pcs[u]) ==> b in At(s.places, Hand(u));
  }

  /** Rechecks the program points after thread `t` went on to `pc`. */
  lemma PcsAfter(pcs: map<Tid, Pc>, t: Tid, pc: Pc, cfg: Config,
                 objs: map<Addr, Object>, objs': map<Addr, Object>, places: Places, places': Places)
    requires PcsOk(pcs, cfg, objs, places)
    requires t != 0 && PcOk(t, pc, cfg, objs')
    requires forall b :: b in Claims(pc) ==> b in places'.place && places'.place[b] == Registry
    requires forall u :: u in pcs && u != t ==> PcOk(u, pcs[u], cfg, objs') && Claims(pcs[u]) !! Claims(pc)
    requires forall u, b :: u in pcs && u != t && b in Claims(pcs[u]) ==>
               b in places'.place && places'.place[b] == Registry
    ensures PcsOk(pcs[t := pc], cfg, objs', places')
  {
    hide PcOk;
  }

  lemma RelocatePcs(s: State, t: Tid, b: Addr, to: Loc, o: Object, pc: Pc)
    requires WellPlaced(s.places) && HandsOk(s.places, s.pcs) && PcsOk(s.pcs, s.cfg, s.objs, s.places)
    requires MayRelocate(s, t, b, to, o, pc)
    ensures PcsOk(s.pcs[t := pc], s.cfg, s.objs[b := o], Move(s.places, b, to))
  {
    hide WellPlaced, LocOk, PcOk, HandsOk;
    var places := Move(s.places, b, to);
    forall u | u in s.pcs && u != t
      ensures b !in Claims(s.pcs[u]) && PcOk(u, s.pcs[u], s.cfg, s.objs[b := o]) && Claims(s.pcs[u]) !! Claims(pc)
    {
      OthersKeepTheirBlock(s, t, b, to, o, pc, u);
    }
    PcsAfter(s.pcs, t, pc, s.cfg, s.objs, s.objs[b := o], s.places, places);
  }

  lemma RelocateCaches(s: State, t: Tid, b: Addr, to: Loc, o: Object, pc: Pc)
    requires WellPlaced(s.places) && CachesOk(s.places) && MayRelocate(s, t, b, to, o, pc)
    ensures CachesOk(Move(s.places, b, to))
  {
    hide WellPlaced, LocOk, PcOk;
    MoveWellPlaced(s.places, b, to);
  }

  lemma RelocateBuckets(s: State, t: Tid, b: Addr, to: Loc, o: Object, pc: Pc)
    requires WellPlaced(s.places) && HandsOk(s.places, s.pcs) && PcsOk(s.pcs, s.cfg, s.objs, s.places)
    requires BucketsOk(s.owners, s.pcs, s.objs) && MayRelocate(s, t, b, to, o, pc)
    ensures BucketsOk(s.owners, s.pcs[t := pc], s.objs[b := o])
  {
    forall u | u in s.pcs && u != t ensures b !in Held(s.pcs[u]) {
      OthersKeepTheirBlock(s, t, b, to, o, pc, u);
    }
    hide WellPlaced, LocOk, PcOk, HandsOk, PcsOk, ForeignPrefix;
  }

  lemma RelocateCounted(s: State, t: Tid, b: Addr, to: Loc, o: Object, pc: Pc)
    requires WellPlaced(s.places) && CountedOk(s.counted, s.places, s.pcs) && MayRelocate(s, t, b, to, o, pc)
    ensures CountedOk(s.counted, Move(s.places, b, to), s.pcs[t := pc])
    ensures b !in s.counted
  {
    hide LocOk, PcOk;
    MoveWellPlaced(s.places, b, to);
    var from, pcs := s.places.place[b], s.pcs[t := pc];
    WithoutFacts(At(s.places, from), b);
    assert b in At(s.places, from);
    assert from.Registry? ==> t in s.pcs && b in Unreported(s.pcs[t]);
    assert to.Registry? ==> b in Unreported(pcs[t]);
    forall c | c != b ensures c in AllUnreported(pcs) <==> c in AllUnreported(s.pcs) {
      UnreportedElsewhere(s.pcs, pcs, t, b, c);
    }
    assert b in Elements(At(s.places, Registry)) <==> from.Registry?;
  }

  lemma UnreportedElsewhere(pcs: map<Tid, Pc>, pcs': map<Tid, Pc>, t: Tid, b: Addr, c: Addr)
    requires pcs' == pcs[t := PcOf(pcs', t)] && c != b
    requires Unreported(PcOf(pcs', t)) <= {b} && Unreported(PcOf(pcs, t)) <= {b}
    ensures c in AllUnreported(pcs') <==> c in AllUnreported(pcs)
  {
    if c in AllUnreported(pcs) {
      var u :| u in pcs && c in Unreported(pcs[u]);
      assert u in pcs' && c in Unreported(pcs'[u]);
    }
    if c in AllUnreported(pcs') {
      var u :| u in pcs' && c in Unreported(pcs'[u]);
      assert u in pcs && c in Unreported(pcs[u]);
    }
  }

  /** Rewriting a header the gauges do not count changes no gauge. */
  lemma GaugeFrame(g: Gauges, counted: set<Addr>, objs: map<Addr, Object>, objs': map<Addr, Object>)
    requires LiveGaugeOk(g, counted, objs) && counted <= objs'.Keys
    requires forall b :: b in counted ==> objs'[b].usable == objs[b].usable && objs'[b].mode == objs[b].mode
    ensures LiveGaugeOk(g, counted, objs')
  {
    SumFrame(counted, Usables(objs), Usables(objs'));
    forall m ensures Gauge(g.modeLive, m) == Sum(ObjectsOf(counted, objs', m), Usables(objs')) {
      assert ObjectsOf(counted, objs', m) == ObjectsOf(counted, objs, m);
      SumFrame(ObjectsOf(counted, objs, m), Usables(objs), Usables(objs'));
    }
  }

  lemma RelocateGauges(s: State, t: Tid, b: Addr, to: Loc, o: Object, pc: Pc)
    requires WellPlaced(s.places) && CountedOk(s.counted, s.places, s.pcs) && MayRelocate(s, t, b, to, o, pc)
    requires LiveGaugeOk(s.gauges, s.counted, s.objs)
    ensures LiveGaugeOk(s.gauges, s.counted, s.objs[b := o])
  {
    RelocateCounted(s, t, b, to, o, pc);
    GaugeFrame(s.gauges, s.counted, s.objs, s.objs[b := o]);
  }

  lemma RelocateMapCounted(s: State, t: Tid, b: Addr, to: Loc, o: Object, pc: Pc)
    requires RegionsOk(s.regions) && MapCountedOk(s.mapCounted, s.regions, s.pcs, s.objs)
    requires MayRelocate(s, t, b, to, o, pc)
    ensures MapCountedOk(s.mapCounted, s.regions, s.pcs[t := pc], s.objs[b := o])
  {
    hide LocOk, PcOk;
    NewMappingsFrame(s.regions, s.pcs, s.pcs[t := pc], s.objs, s.objs[b := o], t);
  }
}
