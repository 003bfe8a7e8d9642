/** Objects coming alive and dying: thread-cache hits, the registry, the gauges, and
    the entry points of the facade. */
module HeapLive {
  import opened Types
  import opened Policy
  import opened Options
  import opened Geometry
  import opened Places
  import opened HeapState
  import opened HeapSteps
  import opened HeapProofs
  import opened HeapRemote

  // ---- Gauges -------------------------------------------------------------------

  lemma CountLive(g: Gauges, counted: set<Addr>, objs: map<Addr, Object>, b: Addr)
    requires LiveGaugeOk(g, counted, objs) && b in objs && b !in counted
    ensures LiveGaugeOk(AddLive(g, objs[b].mode, objs[b].usable), counted + {b}, objs)
  {
    var w := Usables(objs);
    SumTake(counted + {b}, w, b);
    assert counted + {b} - {b} == counted;
    var g' := AddLive(g, objs[b].mode, objs[b].usable);
    forall m ensures Gauge(g'.modeLive, m) == Sum(ObjectsOf(counted + {b}, objs, m), w) {
      var of := ObjectsOf(counted, objs, m);
      if m == objs[b].mode {
        assert ObjectsOf(counted + {b}, objs, m) == of + {b};
        SumTake(of + {b}, w, b);
        assert of + {b} - {b} == of;
      } else {
        assert ObjectsOf(counted + {b}, objs, m) == of;
      }
    }
  }

  lemma UncountLive(g: Gauges, counted: set<Addr>, objs: map<Addr, Object>, b: Addr)
    requires LiveGaugeOk(g, counted, objs) && b in counted
    ensures LiveGaugeOk(AddLive(g, objs[b].mode, -(objs[b].usable as int)), counted - {b}, objs)
  {
    var w := Usables(objs);
    SumTake(counted, w, b);
    var g' := AddLive(g, objs[b].mode, -(objs[b].usable as int));
    forall m ensures Gauge(g'.modeLive, m) == Sum(ObjectsOf(counted - {b}, objs, m), w) {
      var of := ObjectsOf(counted, objs, m);
      if m == objs[b].mode {
        assert ObjectsOf(counted - {b}, objs, m) == of - {b};
        SumTake(of, w, b);
      } else {
        assert ObjectsOf(counted - {b}, objs, m) == of;
      }
    }
  }

  lemma CountMapped(g: Gauges, counted: set<Addr>, regions: map<Addr, Region>, r: Addr)
    requires MapGaugeOk(g, counted, regions) && r in regions && r !in counted
    ensures MapGaugeOk(AddMapped(g, regions[r].mode, regions[r].size), counted + {r}, regions)
  {
    var w := Sizes(regions);
    SumTake(counted + {r}, w, r);
    assert counted + {r} - {r} == counted;
    var g' := AddMapped(g, regions[r].mode, regions[r].size);
    forall m ensures Gauge(g'.modeMapped, m) == Sum(RegionsOf(counted + {r}, regions, m), w) {
      var of := RegionsOf(counted, regions, m);
      if m == regions[r].mode {
        assert RegionsOf(counted + {r}, regions, m) == of + {r};
        SumTake(of + {r}, w, r);
        assert of + {r} - {r} == of;
      } else {
        assert RegionsOf(counted + {r}, regions, m) == of;
      }
    }
  }

  lemma UncountMapped(g: Gauges, counted: set<Addr>, regions: map<Addr, Region>, r: Addr)
    requires MapGaugeOk(g, counted, regions) && r in counted
    ensures MapGaugeOk(AddMapped(g, regions[r].mode, -(regions[r].size as int)), counted - {r}, regions)
  {
    var w := Sizes(regions);
    SumTake(counted, w, r);
    var g' := AddMapped(g, regions[r].mode, -(regions[r].size as int));
    forall m ensures Gauge(g'.modeMapped, m) == Sum(RegionsOf(counted - {r}, regions, m), w) {
      var of := RegionsOf(counted, regions, m);
      if m == regions[r].mode {
        assert RegionsOf(counted - {r}, regions, m) == of - {r};
        SumTake(of, w, r);
      } else {
        assert RegionsOf(counted - {r}, regions, m) == of;
      }
    }
  }

  /** Regions that are not counted may come and go. */
  lemma MapGaugeFrame(g: Gauges, counted: set<Addr>, regions: map<Addr, Region>, regions': map<Addr, Region>)
    requires MapGaugeOk(g, counted, regions) && counted <= regions'.Keys
    requires forall r :: r in counted ==> regions'[r] == regions[r]
    ensures MapGaugeOk(g, counted, regions')
  {
    SumFrame(counted, Sizes(regions), Sizes(regions'));
    forall m ensures Gauge(g.modeMapped, m) == Sum(RegionsOf(counted, regions', m), Sizes(regions')) {
      assert RegionsOf(counted, regions', m) == RegionsOf(counted, regions, m);
      SumFrame(RegionsOf(counted, regions, m), Sizes(regions), Sizes(regions'));
    }
  }

  // ---- Cache hit ------------------------------------------------------------------

  lemma PopKeeps(s: State, t: Tid)
    requires Inv(s) && t in s.pcs && s.pcs[t].Pop?
    ensures Inv(GoPop(s, t, s.pcs[t]))
  {
    hide Core, EmptiesOk;
    var pc := s.pcs[t];
    QuietThread(s, t);
    var xs := At(s.places, Cache(t, pc.cls));
    if xs != [] {
      PopOne(s, t, xs[0]);
    } else {
      SetPcKeeps(s, t, if !pc.again && pc.req.drainRemote then Scan(pc.req, pc.cls, pc.src, true, 0)
                       else Central(pc.req, pc.cls, pc.src));
    }
  }

  lemma CachedBlock(s: State, t: Tid, c: Class, b: Addr)
    requires Inv(s) && b in At(s.places, Cache(t, c))
    ensures b in s.places.place && s.places.place[b] == Cache(t, c) && b in s.objs
    ensures s.objs[b].pooled && s.objs[b].storage == c.storage && s.objs[b].usable == ClassUsable(c)
    ensures s.objs[b].base == s.objs[b].page && !s.objs[b].redzone && s.objs[b].align == 16
  {
    hide RegionsOk, StoredOk, PoolsOk, PagesOk, HandsOk, PcsOk, LiveCountsOk, BucketsOk, PendingOk, CachesOk,
         EmptiesOk, LiveGaugeOk, MapGaugeOk, CountedOk, MapCountedOk;
    assert LocOk(s.places.place[b], s.objs[b], s.pages, s.owners);
    assert ObjectOk(b, s.objs[b], s.pages, s.regions);
  }

  lemma PopOne(s: State, t: Tid, b: Addr)
    requires Inv(s) && t in s.pcs && s.pcs[t].Pop?
    requires At(s.places, Cache(t, s.pcs[t].cls)) != [] && b == At(s.places, Cache(t, s.pcs[t].cls))[0]
    ensures b in s.places.place && b in s.objs
    ensures var pc := s.pcs[t];
            Inv(Relocate(s, t, b, Hand(t), Finalized(s.objs[b], pc.req, pc.cls), Fresh(pc.req, pc.src, b)))
  {
    hide Core, EmptiesOk, Move, MayRelocate, Finalized, PcOk;
    var pc := s.pcs[t];
    QuietThread(s, t);
    assert b in At(s.places, Cache(t, pc.cls));
    CachedBlock(s, t, pc.cls, b);
    PopMay(s, t, b);
    var next := Fresh(pc.req, pc.src, b);
    SamePending(s, t, b, Hand(t), next);
    RelocateKeeps(s, t, b, Hand(t), Finalized(s.objs[b], pc.req, pc.cls), next, s.pending);
  }

  lemma PopMay(s: State, t: Tid, b: Addr)
    requires t != 0 && t in s.pcs && s.pcs[t].Pop? && PcOk(t, s.pcs[t], s.cfg, s.objs)
    requires At(s.places, Detached(t)) == []
    requires b in s.objs && b in s.places.place && s.places.place[b] == Cache(t, s.pcs[t].cls) && b !in Claims(s.pcs[t])
    requires var o, c := s.objs[b], s.pcs[t].cls;
             o.pooled && o.storage == c.storage && o.usable == ClassUsable(c) && o.base == o.page && !o.redzone
               && o.align == 16
    ensures var pc := s.pcs[t];
            MayRelocate(s, t, b, Hand(t), Finalized(s.objs[b], pc.req, pc.cls), Fresh(pc.req, pc.src, b))
  {
  }

  /** Moves that involve no remote chain leave the pending count alone. */
  lemma SamePending(s: State, t: Tid, b: Addr, to: Loc, next: Pc)
    requires Inv(s) && !PcOf(s.pcs, t).Tick? && !next.Tick?
    requires b in s.places.place
    requires !to.Queue? && !to.Detached? && !s.places.place[b].Queue? && !s.places.place[b].Detached?
    ensures PendingOk(s.pending, Move(s.places, b, to), s.pcs[t := next])
  {
    hide RegionsOk, StoredOk, PoolsOk, PagesOk, ObjectsOk, WellPlaced, StatusOk, HandsOk, PcsOk, LiveCountsOk,
         BucketsOk, CachesOk, EmptiesOk, LiveGaugeOk, MapGaugeOk, CountedOk, MapCountedOk;
    assert Waiting(Move(s.places, b, to)) == Waiting(s.places);
    assert Ticking(s.pcs[t := next]) == Ticking(s.pcs);
  }

  // ---- Registry -------------------------------------------------------------------

  lemma FreshKeeps(s: State, t: Tid)
    requires Inv(s) && t in s.pcs && s.pcs[t].Fresh?
    ensures Inv(GoFresh(s, t, s.pcs[t]))
  {
    hide Core, EmptiesOk, ObjectOk;
    var pc := s.pcs[t];
    QuietThread(s, t);
    HeldBlock(s, t);
    var next := Note(pc.req, pc.src, pc.b);
    SamePending(s, t, pc.b, Registry, next);
    assert pc.src != 0 ==> pc.src in Claims(pc);
    HeldFits(s, t);
    RelocateKeeps(s, t, pc.b, Registry, s.objs[pc.b], next, s.pending);
  }

  lemma HeldFits(s: State, t: Tid)
    requires Inv(s) && t in s.pcs && Held(s.pcs[t]) != []
    ensures var b := Held(s.pcs[t])[0]; b in s.objs && s.objs[b].requested <= s.objs[b].usable
  {
    hide Core, EmptiesOk;
    HeldBlock(s, t);
  }

  lemma FreeingKeeps(s: State, t: Tid)
    requires Inv(s) && t in s.pcs && s.pcs[t].Freeing?
    ensures Inv(GoFreeing(s, t, s.pcs[t]))
  {
    hide Core, EmptiesOk;
    var pc := s.pcs[t];
    QuietThread(s, t);
    assert pc.b in Claims(pc);
    RegisteredBlock(s, pc.b);
    var next := Doomed(pc.b, pc.dec);
    SamePending(s, t, pc.b, Hand(t), next);
    RelocateKeeps(s, t, pc.b, Hand(t), s.objs[pc.b], next, s.pending);
  }

  lemma RegisteredBlock(s: State, b: Addr)
    requires Inv(s) && b in s.places.place && s.places.place[b] == Registry
    ensures b in s.objs && s.objs[b].live && s.objs[b].owner != 0 && s.objs[b].requested <= s.objs[b].usable && b != 0
    ensures b in Elements(At(s.places, Registry))
  {
    hide RegionsOk, StoredOk, PoolsOk, PagesOk, HandsOk, PcsOk, LiveCountsOk, BucketsOk, PendingOk, CachesOk,
         EmptiesOk, LiveGaugeOk, MapGaugeOk, CountedOk, MapCountedOk;
    assert LocOk(s.places.place[b], s.objs[b], s.pages, s.owners);
    assert ObjectOk(b, s.objs[b], s.pages, s.regions);
    assert b in At(s.places, Registry);
  }

  // ---- Reporting --------------------------------------------------------------------

  /** `adaptive_telemetry_on_alloc`, with the mapping report before it for a direct
      object; the thread is then done with the new object. */
  function Noted(s: State, t: Tid): State
    requires t in s.pcs && s.pcs[t].Note? && s.pcs[t].b in s.objs
  {
    GoNote(s, t, Note(s.pcs[t].req, 0, s.pcs[t].b))
  }

  function MapReported(s: State, req: Request, o: Object): Gauges {
    if o.pooled then s.gauges else AddMapped(s.gauges, req.mode, o.mapped)
  }

  function MapReportedSet(s: State, o: Object): set<Addr> {
    if o.pooled then s.mapCounted else s.mapCounted + {o.base}
  }

  lemma NotedKeeps(s: State, t: Tid)
    requires Inv(s) && t in s.pcs && s.pcs[t].Note?
    ensures s.pcs[t].b in s.objs && Inv(Noted(s, t))
  {
    hide RegionsOk, StoredOk, PoolsOk, PagesOk, ObjectsOk, WellPlaced, StatusOk, HandsOk, PcsOk, LiveCountsOk,
         BucketsOk, CachesOk, EmptiesOk, LiveGaugeOk, MapGaugeOk, PcOk, ObjectOk, PendingOk, CountedOk, MapCountedOk;
    var pc := s.pcs[t];
    QuietThread(s, t);
    assert pc.b in Claims(pc);
    RegisteredBlock(s, pc.b);
    var o := s.objs[pc.b];
    HandsSetIdle(s, t);
    PendingSetPc(s, t, Idle);
    NotedMapped(s, t);
    var g := MapReported(s, pc.req, o);
    NotedCounted(s, t, g);
    MapGaugeIgnoresLive(g, o.mode, o.usable, MapReportedSet(s, o), s.regions);
    BucketsSetPc(s.owners, s.pcs, s.objs, t, Idle);
  }

  lemma MapGaugeIgnoresLive(g: Gauges, m: Mode, n: int, counted: set<Addr>, regions: map<Addr, Region>)
    requires MapGaugeOk(g, counted, regions)
    ensures MapGaugeOk(AddLive(g, m, n), counted, regions)
  {
  }

  lemma LiveGaugeIgnoresMapped(g: Gauges, m: Mode, n: int, counted: set<Addr>, objs: map<Addr, Object>)
    requires LiveGaugeOk(g, counted, objs)
    ensures LiveGaugeOk(AddMapped(g, m, n), counted, objs)
  {
  }

  lemma NotedMapped(s: State, t: Tid)
    requires Inv(s) && t in s.pcs && s.pcs[t].Note?
    ensures s.pcs[t].b in s.objs
    ensures var o := s.objs[s.pcs[t].b];
            var g := MapReported(s, s.pcs[t].req, o);
            && MapGaugeOk(g, MapReportedSet(s, o), s.regions)
            && MapCountedOk(MapReportedSet(s, o), s.regions, s.pcs[t := Idle], s.objs)
            && LiveGaugeOk(g, s.counted, s.objs)
  {
    hide StoredOk, PoolsOk, PagesOk, ObjectsOk, WellPlaced, StatusOk, HandsOk, PcsOk, LiveCountsOk, BucketsOk,
         CachesOk, EmptiesOk, LiveGaugeOk, MapGaugeOk, PendingOk, CountedOk;
    var pc := s.pcs[t];
    QuietThread(s, t);
    assert pc.b in Claims(pc);
    RegisteredBlock(s, pc.b);
    var o := s.objs[pc.b];
    if o.pooled {
      NewMappingsFrame(s.regions, s.pcs, s.pcs[t := Idle], s.objs, s.objs, t);
    } else {
      DirectRegion(s, pc.b);
      assert NewMapping(s.pcs[t], s.objs) == o.base;
      assert o.base in NewMappings(s.pcs, s.objs);
      LiveGaugeIgnoresMapped(s.gauges, pc.req.mode, o.mapped, s.counted, s.objs);
      CountMapped(s.gauges, s.mapCounted, s.regions, o.base);
      NewMappingGone(s, t);
    }
  }

  lemma DirectRegion(s: State, b: Addr)
    requires Inv(s) && b in s.objs && !s.objs[b].pooled
    ensures var o := s.objs[b]; o.base in s.regions && s.regions[o.base] == Region(o.mapped, o.mode, b) && o.base != 0
  {
    hide StoredOk, PoolsOk, PagesOk, WellPlaced, StatusOk, HandsOk, PcsOk, LiveCountsOk, BucketsOk, CachesOk,
         EmptiesOk, LiveGaugeOk, MapGaugeOk, PendingOk, CountedOk, MapCountedOk;
    assert ObjectOk(b, s.objs[b], s.pages, s.regions);
    assert GoodRegion(s.objs[b].base, s.regions[s.objs[b].base].size);
  }

  /** Once `t` has reported its mapping, nobody else is about to report the same one. */
  lemma NewMappingGone(s: State, t: Tid)
    requires Inv(s) && t in s.pcs && s.pcs[t].Note? && s.pcs[t].b in s.objs && !s.objs[s.pcs[t].b].pooled
    ensures var r := s.objs[s.pcs[t].b].base;
            s.regions.Keys - NewMappings(s.pcs[t := Idle], s.objs) == s.regions.Keys - NewMappings(s.pcs, s.objs) + {r}
  {
    hide Core, EmptiesOk;
    var pcs := s.pcs[t := Idle];
    var r := s.objs[s.pcs[t].b].base;
    DirectRegion(s, s.pcs[t].b);
    forall u | u in s.pcs && u != t ensures NewMapping(s.pcs[u], s.objs) != r {
      OneReporter(s, t, u);
    }
    forall q | q in s.regions ensures q in NewMappings(pcs, s.objs) <==> q in NewMappings(s.pcs, s.objs) && q != r {
      RegionNotNull(s, q);
      if q in NewMappings(s.pcs, s.objs) && q != r {
        var u :| u in s.pcs && q == NewMapping(s.pcs[u], s.objs);
        assert u in pcs && q == NewMapping(pcs[u], s.objs);
      }
      if q in NewMappings(pcs, s.objs) {
        var u :| u in pcs && q == NewMapping(pcs[u], s.objs);
        assert u in s.pcs && q == NewMapping(s.pcs[u], s.objs);
      }
    }
  }

  lemma RegionNotNull(s: State, r: Addr)
    requires Inv(s) && r in s.regions
    ensures r != 0
  {
  }

  lemma OneReporter(s: State, t: Tid, u: Tid)
    requires Inv(s) && t in s.pcs && u in s.pcs && t != u
    requires s.pcs[t].Note? && s.pcs[t].b in s.objs && !s.objs[s.pcs[t].b].pooled
    ensures NewMapping(s.pcs[u], s.objs) != s.objs[s.pcs[t].b].base
  {
    hide Core, EmptiesOk;
    DirectRegion(s, s.pcs[t].b);
    if (s.pcs[u].Fresh? || s.pcs[u].Note?) && s.pcs[u].b in s.objs && !s.objs[s.pcs[u].b].pooled {
      DirectRegion(s, s.pcs[u].b);
      DifferentBlocks(s, t, u);
    }
  }

  /** Two threads never hold or have just registered the same block. */
  lemma DifferentBlocks(s: State, t: Tid, u: Tid)
    requires Inv(s) && t in s.pcs && u in s.pcs && t != u
    requires s.pcs[t].Note? && (s.pcs[u].Fresh? || s.pcs[u].Note?)
    ensures s.pcs[t].b != s.pcs[u].b
  {
    hide Core, EmptiesOk;
    QuietThread(s, t);
    QuietThread(s, u);
    assert s.pcs[t].b in Claims(s.pcs[t]);
    if s.pcs[u].Fresh? {
      HeldBlock(s, u);
    } else {
      NobodyElseReports(s, t);
      assert s.pcs[u].b in Unreported(s.pcs[u]);
    }
  }

  lemma HandsSetIdle(s: State, t: Tid)
    requires Inv(s) && t in s.pcs && Held(s.pcs[t]) == [] && !Draining(s.pcs[t])
    ensures HandsOk(s.places, s.pcs[t := Idle]) && PcsOk(s.pcs[t := Idle], s.cfg, s.objs, s.places)
  {
    hide Core, EmptiesOk;
    QuietThread(s, t);
    HandsIdle(s, t);
    PcsIdle(s, t);
  }

  lemma HandsIdle(s: State, t: Tid)
    requires Inv(s) && t in s.pcs && Held(s.pcs[t]) == [] && !Draining(s.pcs[t])
    ensures HandsOk(s.places, s.pcs[t := Idle])
  {
    hide RegionsOk, StoredOk, PoolsOk, PagesOk, ObjectsOk, WellPlaced, StatusOk, PcsOk, LiveCountsOk, BucketsOk,
         CachesOk, EmptiesOk, LiveGaugeOk, MapGaugeOk, PendingOk, CountedOk, MapCountedOk;
  }

  lemma PcsIdle(s: State, t: Tid)
    requires Inv(s) && t in s.pcs
    ensures PcsOk(s.pcs[t := Idle], s.cfg, s.objs, s.places)
  {
    hide RegionsOk, StoredOk, PoolsOk, PagesOk, ObjectsOk, WellPlaced, StatusOk, HandsOk, LiveCountsOk, BucketsOk,
         CachesOk, EmptiesOk, LiveGaugeOk, MapGaugeOk, PendingOk, CountedOk, MapCountedOk, PcOk;
    IdleIsOk(t, s.cfg, s.objs);
  }

  lemma NotedCounted(s: State, t: Tid, g: Gauges)
    requires Inv(s) && t in s.pcs && s.pcs[t].Note? && LiveGaugeOk(g, s.counted, s.objs)
    ensures var b := s.pcs[t].b;
            && b in s.objs
            && CountedOk(s.counted + {b}, s.places, s.pcs[t := Idle])
            && LiveGaugeOk(AddLive(g, s.objs[b].mode, s.objs[b].usable), s.counted + {b}, s.objs)
  {
    hide RegionsOk, StoredOk, PoolsOk, PagesOk, ObjectsOk, WellPlaced, StatusOk, HandsOk, LiveCountsOk, PcsOk,
         BucketsOk, CachesOk, EmptiesOk, LiveGaugeOk, MapGaugeOk, PendingOk, MapCountedOk, PcOk;
    var pc := s.pcs[t];
    var b := pc.b;
    QuietThread(s, t);
    assert b in Claims(pc);
    RegisteredBlock(s, b);
    assert b in Unreported(s.pcs[t]);
    forall c | c != b ensures c in AllUnreported(s.pcs[t := Idle]) <==> c in AllUnreported(s.pcs) {
      UnreportedElsewhere(s.pcs, s.pcs[t := Idle], t, b, c);
    }
    NobodyElseReports(s, t);
    assert b !in AllUnreported(s.pcs[t := Idle]);
    CountLive(g, s.counted, s.objs, b);
  }

  /** Only one thread can have an object's report outstanding. */
  lemma NobodyElseReports(s: State, t: Tid)
    requires Inv(s) && t in s.pcs && (s.pcs[t].Note? || s.pcs[t].Freeing?)
    ensures forall u :: u in s.pcs && u != t ==> s.pcs[t].b !in Unreported(s.pcs[u])
  {
    hide RegionsOk, StoredOk, PoolsOk, PagesOk, ObjectsOk, WellPlaced, StatusOk, HandsOk, LiveCountsOk, BucketsOk,
         CachesOk, EmptiesOk, LiveGaugeOk, MapGaugeOk, PendingOk, CountedOk, MapCountedOk, PcOk;
    forall u | u in s.pcs && u != t ensures s.pcs[t].b !in Unreported(s.pcs[u]) {
      assert s.pcs[t].b in Claims(s.pcs[t]);
      assert Unreported(s.pcs[u]) <= Claims(s.pcs[u]);
      assert Claims(s.pcs[t]) !! Claims(s.pcs[u]);
    }
  }

  // ---- Starting to free ------------------------------------------------------------

  lemma StartFreeKeeps(s: State, t: Tid, b: Addr)
    requires Inv(s) && t != 0 && PcOf(s.pcs, t).Idle?
    requires b in s.places.place && s.places.place[b] == Registry
    requires forall u :: u in s.pcs ==> b !in Claims(s.pcs[u])
    ensures Inv(StartFree(s, t, b))
  {
    hide RegionsOk, StoredOk, PoolsOk, PagesOk, ObjectsOk, WellPlaced, StatusOk, HandsOk, PcsOk, LiveCountsOk,
         BucketsOk, CachesOk, EmptiesOk, LiveGaugeOk, MapGaugeOk, PcOk, PendingOk, CountedOk, MapCountedOk;
    RegisteredBlock(s, b);
    var o := s.objs[b];
    var next := Freeing(b, PlanFree(s.cfg, o.mode, o.storage));
    StartFreePcs(s, t, b, next);
    PendingSetPc(s, t, next);
    StartFreeCounted(s, t, b, next);
    MapGaugeIgnoresLive(s.gauges, o.mode, -(o.usable as int), s.mapCounted, s.regions);
    BucketsSetPc(s.owners, s.pcs, s.objs, t, next);
    MapCountedFrom(s, t, next);
  }

  lemma StartFreePcs(s: State, t: Tid, b: Addr, next: Pc)
    requires Inv(s) && t != 0 && PcOf(s.pcs, t).Idle? && next.Freeing? && next.b == b
    requires b in s.places.place && s.places.place[b] == Registry && b in s.objs
    requires next.dec == PlanFree(s.cfg, s.objs[b].mode, s.objs[b].storage)
    requires forall u :: u in s.pcs ==> b !in Claims(s.pcs[u])
    ensures HandsOk(s.places, s.pcs[t := next]) && PcsOk(s.pcs[t := next], s.cfg, s.objs, s.places)
  {
    hide RegionsOk, StoredOk, PoolsOk, PagesOk, ObjectsOk, WellPlaced, StatusOk, LiveCountsOk, BucketsOk, CachesOk,
         EmptiesOk, LiveGaugeOk, MapGaugeOk, PendingOk, CountedOk, MapCountedOk, PlanFree, PcOk;
    FreeingPcOk(t, next, s.cfg, s.objs);
    PcsAfter(s.pcs, t, next, s.cfg, s.objs, s.objs, s.places, s.places);
  }

  lemma FreeingPcOk(t: Tid, next: Pc, cfg: Config, objs: map<Addr, Object>)
    requires next.Freeing? && next.b in objs && next.dec == PlanFree(cfg, objs[next.b].mode, objs[next.b].storage)
    ensures PcOk(t, next, cfg, objs)
  {
  }

  lemma StartFreeCounted(s: State, t: Tid, b: Addr, next: Pc)
    requires Inv(s) && PcOf(s.pcs, t).Idle? && next.Freeing? && next.b == b
    requires b in s.places.place && s.places.place[b] == Registry && b in s.objs
    requires forall u :: u in s.pcs ==> b !in Claims(s.pcs[u])
    ensures CountedOk(s.counted - {b}, s.places, s.pcs[t := next])
    ensures LiveGaugeOk(AddLive(s.gauges, s.objs[b].mode, -(s.objs[b].usable as int)), s.counted - {b}, s.objs)
  {
    hide RegionsOk, StoredOk, PoolsOk, PagesOk, ObjectsOk, WellPlaced, StatusOk, HandsOk, PcsOk, LiveCountsOk,
         BucketsOk, CachesOk, EmptiesOk, LiveGaugeOk, MapGaugeOk, PendingOk, MapCountedOk;
    RegisteredBlock(s, b);
    forall c | c != b ensures c in AllUnreported(s.pcs[t := next]) <==> c in AllUnreported(s.pcs) {
      UnreportedElsewhere(s.pcs, s.pcs[t := next], t, b, c);
    }
    assert b in Unreported(s.pcs[t := next][t]);
    forall u | u in s.pcs ensures b !in Unreported(s.pcs[u]) {
      assert Unreported(s.pcs[u]) <= Claims(s.pcs[u]);
    }
    UncountLive(s.gauges, s.counted, s.objs, b);
  }

  lemma NoteKeeps(s: State, t: Tid)
    requires Inv(s) && t in s.pcs && s.pcs[t].Note?
    ensures Inv(GoNote(s, t, s.pcs[t]))
  {
    hide Core, EmptiesOk, PlanFree;
    var pc := s.pcs[t];
    QuietThread(s, t);
    NotedKeeps(s, t);
    if pc.src != 0 {
      assert pc.src in Claims(pc);
      ClaimedOnce(s, t, pc.src);
      StartFreeKeeps(Noted(s, t), t, pc.src);
    }
  }

  lemma ClaimedOnce(s: State, t: Tid, b: Addr)
    requires Inv(s) && t in s.pcs && b in Claims(s.pcs[t])
    ensures forall u :: u in s.pcs && u != t ==> b !in Claims(s.pcs[u])
  {
    hide RegionsOk, StoredOk, PoolsOk, PagesOk, ObjectsOk, WellPlaced, StatusOk, HandsOk, LiveCountsOk, BucketsOk,
         CachesOk, EmptiesOk, LiveGaugeOk, MapGaugeOk, PendingOk, CountedOk, MapCountedOk, PcOk;
  }

  // ---- Disposing of a freed block -----------------------------------------------------

  /** `push_tcache` by the freeing thread. */
  lemma CachePushKeeps(s: State, t: Tid)
    requires Inv(s) && t in s.pcs && s.pcs[t].Doomed? && s.pcs[t].b in s.objs
    requires var o := s.objs[s.pcs[t].b];
             && o.pooled && o.page in s.pages
             && (var c := s.pages[o.page].cls;
                 |At(s.places, Cache(t, c))| < CacheLimit(c, s.pcs[t].dec.smallLimit, s.pcs[t].dec.mediumLimit))
    ensures s.pcs[t].b in s.places.place
    ensures var b := s.pcs[t].b;
            Inv(Relocate(s, t, b, Cache(t, s.pages[s.objs[b].page].cls), Cleared(s.objs[b]), Idle))
  {
    hide Core, EmptiesOk;
    var b := s.pcs[t].b;
    QuietThread(s, t);
    HeldBlock(s, t);
    var c := s.pages[s.objs[b].page].cls;
    ReleaseLimits(s.cfg, s.objs[b].mode, s.objs[b].storage);
    assert CacheLimit(c, s.pcs[t].dec.smallLimit, s.pcs[t].dec.mediumLimit) <= CacheCeiling(c);
    hide PlanFree;
    SamePending(s, t, b, Cache(t, c), Idle);
    RelocateKeeps(s, t, b, Cache(t, c), Cleared(s.objs[b]), Idle, s.pending);
  }

  lemma QuarantineKeeps(s: State, t: Tid)
    requires Inv(s) && t in s.pcs && s.pcs[t].Doomed? && s.pcs[t].b in s.objs && !s.objs[s.pcs[t].b].pooled
    requires s.pcs[t].dec.quarantine || s.pcs[t].dec.action.QuarantineIt?
    ensures s.pcs[t].b in s.places.place
    ensures Inv(Relocate(s, t, s.pcs[t].b, Quarantine, s.objs[s.pcs[t].b].(live := false), Idle))
  {
    hide Core, EmptiesOk, PlanFree;
    var b := s.pcs[t].b;
    QuietThread(s, t);
    HeldBlock(s, t);
    ReleaseLimits(s.cfg, s.objs[b].mode, s.objs[b].storage);
    SamePending(s, t, b, Quarantine, Idle);
    RelocateKeeps(s, t, b, Quarantine, s.objs[b].(live := false), Idle, s.pending);
  }

  // ---- Entry points ---------------------------------------------------------------------

  lemma RequestWithinLimits(size: nat, alignment: nat, mode: Mode, t: Tid, viaRealloc: bool)
    requires size < WORD && alignment < WORD
    ensures RequestOk(t, MakeRequest(size, alignment, mode, t, viaRealloc))
  {
  }

  lemma StartAllocKeeps(s: State, t: Tid, size: nat, alignment: nat, mode: Mode, src: Addr)
    requires Inv(s) && t != 0 && PcOf(s.pcs, t).Idle? && size < WORD && alignment < WORD
    requires src != 0 ==> src in s.places.place && s.places.place[src] == Registry
    requires src != 0 ==> forall u :: u in s.pcs ==> src !in Claims(s.pcs[u])
    ensures Inv(StartAlloc(s, t, size, alignment, mode, src))
  {
    hide Core, EmptiesOk, MakeRequest, Route, ClassFor;
    var viaRealloc := src != 0;
    RequestWithinLimits(size, alignment, mode, t, viaRealloc);
    RoutedClassIsTightest(mode, size, alignment, t, viaRealloc);
    RouteIsDecidedBySize(mode, size, alignment, t, viaRealloc);
    var req := MakeRequest(size, alignment, mode, t, viaRealloc);
    RequestEchoes(size, alignment, mode, t, viaRealloc);
    match ClassFor(Route(mode, size, alignment, t, viaRealloc), size)
    case Some(c) => ClaimSource(s, t, Begin(req, c, src));
    case None => ClaimSource(s, t, MapNew(req, src));
  }

  lemma RequestEchoes(size: nat, alignment: nat, mode: Mode, t: Tid, viaRealloc: bool)
    ensures var req := MakeRequest(size, alignment, mode, t, viaRealloc);
            req.size == size && req.alignment == alignment && req.mode == mode && req.thread == t
  {
  }

  /** An idle thread starts an allocation, claiming the object it reallocates. */
  lemma ClaimSource(s: State, t: Tid, pc: Pc)
    requires Inv(s) && t != 0 && PcOf(s.pcs, t).Idle? && (pc.Begin? || pc.MapNew?) && PcOk(t, pc, s.cfg, s.objs)
    requires pc.src != 0 ==> pc.src in s.places.place && s.places.place[pc.src] == Registry
    requires pc.src != 0 ==> forall u :: u in s.pcs ==> pc.src !in Claims(s.pcs[u])
    ensures Inv(SetPc(s, t, pc))
  {
    hide RegionsOk, StoredOk, PoolsOk, PagesOk, ObjectsOk, WellPlaced, StatusOk, HandsOk, PcsOk, LiveCountsOk,
         BucketsOk, CachesOk, EmptiesOk, LiveGaugeOk, MapGaugeOk, PcOk, PendingOk, CountedOk, MapCountedOk;
    ClaimSourcePcs(s, t, pc);
    PendingSetPc(s, t, pc);
    BucketsSetPc(s.owners, s.pcs, s.objs, t, pc);
    MapCountedFrom(s, t, pc);
    UnreportedFrame(s.pcs, s.pcs[t := pc], t);
    assert CountedOk(s.counted, s.places, s.pcs[t := pc]) by { CountedFrom(s, t, pc); }
  }

  lemma CountedFrom(s: State, t: Tid, pc: Pc)
    requires CountedOk(s.counted, s.places, s.pcs) && Unreported(pc) == Unreported(PcOf(s.pcs, t))
    ensures CountedOk(s.counted, s.places, s.pcs[t := pc])
  {
    UnreportedFrame(s.pcs, s.pcs[t := pc], t);
  }

  lemma ClaimSourcePcs(s: State, t: Tid, pc: Pc)
    requires Inv(s) && t != 0 && PcOf(s.pcs, t).Idle? && (pc.Begin? || pc.MapNew?) && PcOk(t, pc, s.cfg, s.objs)
    requires pc.src != 0 ==> pc.src in s.places.place && s.places.place[pc.src] == Registry
    requires pc.src != 0 ==> forall u :: u in s.pcs ==> pc.src !in Claims(s.pcs[u])
    ensures HandsOk(s.places, s.pcs[t := pc]) && PcsOk(s.pcs[t := pc], s.cfg, s.objs, s.places)
  {
    hide RegionsOk, StoredOk, PoolsOk, PagesOk, ObjectsOk, WellPlaced, StatusOk, LiveCountsOk, BucketsOk, CachesOk,
         EmptiesOk, LiveGaugeOk, MapGaugeOk, PendingOk, CountedOk, MapCountedOk, PcOk;
    PcsAfter(s.pcs, t, pc, s.cfg, s.objs, s.objs, s.places, s.places);
  }
}
