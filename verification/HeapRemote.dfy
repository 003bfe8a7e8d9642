/** The remote-free protocol: claiming buckets, detaching, draining and putting back
    (src/adaptive_services.cpp, enqueue_remote_free and drain_remote_frees_for). */
module HeapRemote {
  import opened Types
  import opened Geometry
  import opened Places
  import opened HeapState
  import opened HeapSteps
  import opened HeapProofs

  lemma SlotDistance(o: Tid, i: nat)
    requires i < BUCKETS
    ensures Distance(o, i) < BUCKETS && Slot(o, Distance(o, i)) == i
  {
  }

  lemma DistanceSlot(o: Tid, k: nat)
    requires k < BUCKETS
    ensures Distance(o, Slot(o, k)) == k
  {
    var s := Start(o);
    assert s < BUCKETS;
    if s + k < BUCKETS {
      assert Slot(o, k) == s + k;
    } else {
      assert Slot(o, k) == s + k - BUCKETS;
    }
  }

  // ---- Chains move between a bucket and its owner -----------------------------

  ghost predicate MaySplice(s: State, t: Tid, from: Loc, to: Loc, pc: Pc) {
    var was := PcOf(s.pcs, t);
    && t != 0
    && ((from.Queue? && to == Detached(t) && from.bucket < |s.owners| && s.owners[from.bucket] == t)
        || (from == Detached(t) && to.Queue? && to.bucket < |s.owners| && s.owners[to.bucket] == t))
    && Held(was) == Held(pc) == []
    && (Draining(pc) <==> to.Detached?)
    && (Draining(pc) ==> pc.bucket < |s.owners| && s.owners[pc.bucket] == t)
    && PcOk(t, pc, s.cfg, s.objs)
    && Claims(pc) <= Claims(was)
    && !pc.Tick? && !was.Tick? && !pc.Enqueue?
    && Unreported(pc) == Unreported(was) == {}
    && NewMapping(pc, s.objs) == NewMapping(was, s.objs) == 0
  }

  lemma SpliceKeeps(s: State, t: Tid, from: Loc, to: Loc, pc: Pc)
    requires Inv(s) && MaySplice(s, t, from, to, pc)
    ensures Inv(SetPc(s, t, pc).(places := Splice(s.places, from, to)))
  {
    hide RegionsOk, StoredOk, PoolsOk, PagesOk, ObjectsOk, WellPlaced, StatusOk, HandsOk, PcsOk, LiveCountsOk,
         CachesOk, EmptiesOk, LiveGaugeOk, MapGaugeOk, PcOk, LocOk, Splice, CountedOk, MapCountedOk, BucketsOk;
    SpliceWellPlaced(s.places, from, to);
    SpliceStatus(s, t, from, to, pc);
    SpliceHands(s, t, from, to, pc);
    SplicePcs(s, t, from, to, pc);
    SpliceLists(s, t, from, to, pc);
    BucketsSetPc(s.owners, s.pcs, s.objs, t, pc);
    SpliceCounted(s, t, from, to, pc);
    MapCountedFrom(s, t, pc);
    SpliceWaiting(s.places, from, to);
    assert Ticking(s.pcs[t := pc]) == Ticking(s.pcs);
  }

  lemma MapCountedFrom(s: State, t: Tid, pc: Pc)
    requires RegionsOk(s.regions) && MapCountedOk(s.mapCounted, s.regions, s.pcs, s.objs)
    requires NewMapping(pc, s.objs) == NewMapping(PcOf(s.pcs, t), s.objs)
    ensures MapCountedOk(s.mapCounted, s.regions, s.pcs[t := pc], s.objs)
  {
    NewMappingsFrame(s.regions, s.pcs, s.pcs[t := pc], s.objs, s.objs, t);
  }

  lemma SpliceStatus(s: State, t: Tid, from: Loc, to: Loc, pc: Pc)
    requires WellPlaced(s.places) && StatusOk(s.objs, s.places, s.pages, s.owners) && MaySplice(s, t, from, to, pc)
    ensures StatusOk(s.objs, Splice(s.places, from, to), s.pages, s.owners)
  {
  }

  lemma SpliceHands(s: State, t: Tid, from: Loc, to: Loc, pc: Pc)
    requires WellPlaced(s.places) && HandsOk(s.places, s.pcs) && MaySplice(s, t, from, to, pc)
    ensures HandsOk(Splice(s.places, from, to), s.pcs[t := pc])
  {
  }

  lemma SplicePcs(s: State, t: Tid, from: Loc, to: Loc, pc: Pc)
    requires WellPlaced(s.places) && PcsOk(s.pcs, s.cfg, s.objs, s.places) && MaySplice(s, t, from, to, pc)
    ensures PcsOk(s.pcs[t := pc], s.cfg, s.objs, Splice(s.places, from, to))
  {
    hide PcOk;
    var q := Splice(s.places, from, to);
    forall b | b in s.places.place && s.places.place[b] == Registry ensures b in q.place && q.place[b] == Registry {
      assert b in At(s.places, from) <==> s.places.place[b] == from;
    }
    hide WellPlaced, Splice;
    PcsAfter(s.pcs, t, pc, s.cfg, s.objs, s.objs, s.places, q);
  }

  lemma SpliceLists(s: State, t: Tid, from: Loc, to: Loc, pc: Pc)
    requires WellPlaced(s.places) && LiveCountsOk(s.pages, s.places) && CachesOk(s.places)
    requires MaySplice(s, t, from, to, pc)
    ensures LiveCountsOk(s.pages, Splice(s.places, from, to)) && CachesOk(Splice(s.places, from, to))
  {
  }

  lemma SpliceCounted(s: State, t: Tid, from: Loc, to: Loc, pc: Pc)
    requires WellPlaced(s.places) && CountedOk(s.counted, s.places, s.pcs) && MaySplice(s, t, from, to, pc)
    ensures CountedOk(s.counted, Splice(s.places, from, to), s.pcs[t := pc])
  {
    hide WellPlaced, PcOk;
    SpliceWellPlaced(s.places, from, to);
    UnreportedFrame(s.pcs, s.pcs[t := pc], t);
  }

  lemma SpliceWaiting(places: Places, from: Loc, to: Loc)
    requires WellPlaced(places)
    requires (from.Queue? && to.Detached?) || (from.Detached? && to.Queue?)
    ensures Waiting(Splice(places, from, to)) == Waiting(places)
  {
  }

  // ---- Claiming a bucket --------------------------------------------------------

  /** A bucket found free or already owned, after a foreign prefix, may be claimed. */
  lemma ClaimKeeps(s: State, o: Tid, k: nat)
    requires Inv(s) && o != 0 && k < BUCKETS
    requires ForeignPrefix(s.owners, o, k)
    requires s.owners[Slot(o, k)] == 0 || s.owners[Slot(o, k)] == o
    ensures Inv(s.(owners := s.owners[Slot(o, k) := o]))
  {
    assert |s.owners| == BUCKETS && 0 !in s.pcs;
    hide RegionsOk, StoredOk, PoolsOk, PagesOk, ObjectsOk, WellPlaced, StatusOk, HandsOk, PcsOk, LiveCountsOk,
         CachesOk, EmptiesOk, LiveGaugeOk, MapGaugeOk, PendingOk, CountedOk, MapCountedOk, BucketsOk, Slot;
    ClaimBuckets(s.owners, s.pcs, s.objs, o, k);
    ClaimStatus(s, o, k);
  }

  lemma ClaimStatus(s: State, o: Tid, k: nat)
    requires StatusOk(s.objs, s.places, s.pages, s.owners) && |s.owners| == BUCKETS
    requires s.owners[Slot(o, k)] == 0 || s.owners[Slot(o, k)] == o
    ensures StatusOk(s.objs, s.places, s.pages, s.owners[Slot(o, k) := o])
  {
  }

  lemma ClaimBuckets(owners: seq<Tid>, pcs: map<Tid, Pc>, objs: map<Addr, Object>, o: Tid, k: nat)
    requires BucketsOk(owners, pcs, objs) && o != 0 && k < BUCKETS && 0 !in pcs
    requires ForeignPrefix(owners, o, k)
    requires owners[Slot(o, k)] == 0 || owners[Slot(o, k)] == o
    ensures BucketsOk(owners[Slot(o, k) := o], pcs, objs)
  {
    var i := Slot(o, k);
    var owners' := owners[i := o];
    if owners[i] == o {
      assert owners' == owners;
      return;
    }
    forall x, n: nat | ForeignPrefix(owners, x, n) ensures ForeignPrefix(owners', x, n) {
      PrefixSurvives(owners, i, o, x, n);
    }
    forall j | 0 <= j < BUCKETS && owners'[j] != 0 ensures ForeignPrefix(owners', owners'[j], Distance(owners'[j], j)) {
      if j == i {
        DistanceSlot(o, k);
        assert ForeignPrefix(owners, o, k);
      } else {
        assert ForeignPrefix(owners, owners[j], Distance(owners[j], j));
      }
    }
  }

  /** Claiming a free bucket disturbs no foreign prefix: the bucket was on none. */
  lemma PrefixSurvives(owners: seq<Tid>, i: nat, o: Tid, x: Tid, n: nat)
    requires |owners| == BUCKETS && i < BUCKETS && owners[i] == 0
    requires ForeignPrefix(owners, x, n)
    ensures ForeignPrefix(owners[i := o], x, n)
  {
  }

  // ---- The critical sections ----------------------------------------------------

  lemma LimitBelowCeiling(t: Tid, req: Request, c: Class)
    requires RequestOk(t, req)
    ensures CacheLimit(c, req.smallLimit, req.mediumLimit) <= CacheCeiling(c)
  {
  }

  lemma BeginKeeps(s: State, t: Tid)
    requires Inv(s) && t in s.pcs && s.pcs[t].Begin?
    ensures Inv(GoBegin(s, t, s.pcs[t]))
  {
    hide Core, EmptiesOk;
    var pc := s.pcs[t];
    var next := if !pc.req.threadCache then Central(pc.req, pc.cls, pc.src)
                else if pc.req.drainRemote && s.pending > 0 then Scan(pc.req, pc.cls, pc.src, false, 0)
                else Pop(pc.req, pc.cls, pc.src, false);
    QuietThread(s, t);
    SetPcKeeps(s, t, next);
  }

  /** Outside a drain a thread has no detached chain. */
  lemma QuietThread(s: State, t: Tid)
    requires Core(s) && t in s.pcs
    ensures t != 0 && PcOk(t, s.pcs[t], s.cfg, s.objs) && |s.owners| == BUCKETS
    ensures At(s.places, Hand(t)) == Held(s.pcs[t])
    ensures forall b :: b in Claims(s.pcs[t]) ==> b in s.places.place && s.places.place[b] == Registry
    ensures !Draining(s.pcs[t]) ==> At(s.places, Detached(t)) == []
    ensures Draining(s.pcs[t]) ==> s.pcs[t].bucket < BUCKETS && s.owners[s.pcs[t].bucket] == t
  {
    hide RegionsOk, StoredOk, PoolsOk, PagesOk, ObjectsOk, WellPlaced, StatusOk, LiveCountsOk, PendingOk, CachesOk,
         EmptiesOk, LiveGaugeOk, MapGaugeOk, CountedOk, MapCountedOk, PcOk;
    assert At(s.places, Hand(t)) == Held(PcOf(s.pcs, t));
  }

  lemma ScanKeeps(s: State, t: Tid)
    requires Inv(s) && t in s.pcs && s.pcs[t].Scan?
    ensures Inv(GoScan(s, t, s.pcs[t]))
  {
    hide Core, EmptiesOk;
    var pc := s.pcs[t];
    QuietThread(s, t);
    if pc.k >= BUCKETS {
      SetPcKeeps(s, t, Pop(pc.req, pc.cls, pc.src, pc.again));
    } else {
      var i := Slot(t, pc.k);
      if s.owners[i] != t || At(s.places, Queue(i)) == [] {
        SetPcKeeps(s, t, Scan(pc.req, pc.cls, pc.src, pc.again, pc.k + 1));
      } else {
        SpliceKeeps(s, t, Queue(i), Detached(t), Drain(pc.req, pc.cls, pc.src, pc.again, i, 0));
      }
    }
  }

  lemma PutBackKeeps(s: State, t: Tid)
    requires Inv(s) && t in s.pcs && s.pcs[t].PutBack?
    ensures Inv(GoPutBack(s, t, s.pcs[t]))
  {
    hide Core, EmptiesOk;
    var pc := s.pcs[t];
    QuietThread(s, t);
    SpliceKeeps(s, t, Detached(t), Queue(pc.bucket), Pop(pc.req, pc.cls, pc.src, pc.again));
  }

  lemma TickKeeps(s: State, t: Tid)
    requires Inv(s) && t in s.pcs && s.pcs[t].Tick?
    ensures Inv(GoTick(s, t, s.pcs[t]))
    ensures s.pending > 0
  {
    hide Core, EmptiesOk, PendingOk;
    var pc := s.pcs[t];
    var next := Drain(pc.req, pc.cls, pc.src, pc.again, pc.bucket, pc.n);
    QuietThread(s, t);
    TickPending(s, t, next);
    SetPcPending(s, t, next, s.pending - 1);
  }

  lemma TickPending(s: State, t: Tid, next: Pc)
    requires Inv(s) && t in s.pcs && s.pcs[t].Tick? && !next.Tick?
    ensures s.pending > 0 && PendingOk(s.pending - 1, s.places, s.pcs[t := next])
  {
    hide RegionsOk, StoredOk, PoolsOk, PagesOk, ObjectsOk, WellPlaced, StatusOk, HandsOk, PcsOk, LiveCountsOk,
         BucketsOk, CachesOk, EmptiesOk, LiveGaugeOk, MapGaugeOk, CountedOk, MapCountedOk;
    assert t in Ticking(s.pcs);
    assert Ticking(s.pcs[t := next]) == Ticking(s.pcs) - {t};
  }

  /** The head of a detached chain, and the bin it would go to. */
  lemma DetachedHead(s: State, t: Tid)
    requires Inv(s) && t in s.pcs && s.pcs[t].Drain? && At(s.places, Detached(t)) != []
    ensures var b := At(s.places, Detached(t))[0];
            && b in s.places.place && s.places.place[b] == Detached(t) && b in s.objs
            && s.objs[b].pooled && s.objs[b].page in s.pages && ValidClass(s.pages[s.objs[b].page].cls)
  {
    hide RegionsOk, StoredOk, PoolsOk, HandsOk, PcsOk, LiveCountsOk, BucketsOk, PendingOk, CachesOk, EmptiesOk,
         LiveGaugeOk, MapGaugeOk, CountedOk, MapCountedOk, Layout;
    var b := At(s.places, Detached(t))[0];
    assert b in At(s.places, Detached(t));
    assert LocOk(s.places.place[b], s.objs[b], s.pages, s.owners);
    assert ObjectOk(b, s.objs[b], s.pages, s.regions);
    assert PageOk(s.objs[b].page, s.pages[s.objs[b].page], s.regions, s.objs);
  }

  lemma DrainKeeps(s: State, t: Tid)
    requires Inv(s) && t in s.pcs && s.pcs[t].Drain?
    ensures Inv(GoDrain(s, t, s.pcs[t]))
  {
    hide Core, EmptiesOk;
    var pc := s.pcs[t];
    QuietThread(s, t);
    var xs := At(s.places, Detached(t));
    var back := PutBack(pc.req, pc.cls, pc.src, pc.again, pc.bucket);
    if xs == [] {
      SetPcKeeps(s, t, Pop(pc.req, pc.cls, pc.src, pc.again));
    } else {
      DetachedHead(s, t);
      var b := xs[0];
      var c := s.pages[s.objs[b].page].cls;
      if pc.n >= DRAIN_LIMIT || |At(s.places, Cache(t, c))| >= CacheLimit(c, pc.req.smallLimit, pc.req.mediumLimit) {
        SetPcKeeps(s, t, back);
      } else {
        DrainOne(s, t, b, c);
      }
    }
  }

  lemma DrainOne(s: State, t: Tid, b: Addr, c: Class)
    requires Inv(s) && t in s.pcs && s.pcs[t].Drain?
    requires At(s.places, Detached(t)) != [] && At(s.places, Detached(t))[0] == b
    requires b in s.objs && s.objs[b].page in s.pages && c == s.pages[s.objs[b].page].cls
    requires |At(s.places, Cache(t, c))| < CacheLimit(c, s.pcs[t].req.smallLimit, s.pcs[t].req.mediumLimit)
    ensures b in s.places.place
    ensures var pc := s.pcs[t];
            Inv(Relocate(s, t, b, Cache(t, c), Cleared(s.objs[b]),
                         Tick(pc.req, pc.cls, pc.src, pc.again, pc.bucket, pc.n + 1)))
  {
    hide Core, EmptiesOk;
    var pc := s.pcs[t];
    var next := Tick(pc.req, pc.cls, pc.src, pc.again, pc.bucket, pc.n + 1);
    QuietThread(s, t);
    DetachedHead(s, t);
    LimitBelowCeiling(t, pc.req, c);
    DrainPending(s, t, b, Cache(t, c), next);
    RelocateKeeps(s, t, b, Cache(t, c), Cleared(s.objs[b]), next, s.pending);
  }

  lemma DrainPending(s: State, t: Tid, b: Addr, to: Loc, next: Pc)
    requires Inv(s) && t in s.pcs && s.pcs[t].Drain? && next.Tick? && to.Cache?
    requires b in s.places.place && s.places.place[b] == Detached(t)
    ensures PendingOk(s.pending, Move(s.places, b, to), s.pcs[t := next])
  {
    hide RegionsOk, StoredOk, PoolsOk, PagesOk, ObjectsOk, WellPlaced, StatusOk, HandsOk, PcsOk, LiveCountsOk,
         BucketsOk, CachesOk, EmptiesOk, LiveGaugeOk, MapGaugeOk, CountedOk, MapCountedOk;
    var q := Move(s.places, b, to);
    assert Waiting(q) == Waiting(s.places) - {b};
    assert Ticking(s.pcs[t := next]) == Ticking(s.pcs) + {t};
    assert t !in Ticking(s.pcs) && b in Waiting(s.places);
  }

  lemma EnqueueKeeps(s: State, t: Tid)
    requires Inv(s) && t in s.pcs && s.pcs[t].Enqueue?
    ensures Inv(GoEnqueue(s, t, s.pcs[t]))
  {
    hide Core, EmptiesOk, ForeignPrefix;
    var pc := s.pcs[t];
    QuietThread(s, t);
    HeldBlock(s, t);
    EnqueuePrefix(s, t);
    var o := s.objs[pc.b];
    if pc.k >= BUCKETS {
      SetPcKeeps(s, t, Return(pc.b, pc.dec));
    } else {
      var i := Slot(o.owner, pc.k);
      if s.owners[i] == 0 || s.owners[i] == o.owner {
        ClaimKeeps(s, o.owner, pc.k);
        var claimed := s.(owners := s.owners[i := o.owner]);
        QueueOne(claimed, t, i);
      } else {
        ForeignPrefixGrows(s.owners, o.owner, pc.k);
        SetPcKeeps(s, t, Enqueue(pc.b, pc.dec, pc.k + 1));
      }
    }
  }

  lemma EnqueuePrefix(s: State, t: Tid)
    requires Inv(s) && t in s.pcs && s.pcs[t].Enqueue?
    ensures s.pcs[t].b in s.objs && |s.owners| == BUCKETS
    ensures ForeignPrefix(s.owners, s.objs[s.pcs[t].b].owner, s.pcs[t].k)
  {
    hide RegionsOk, StoredOk, PoolsOk, PagesOk, ObjectsOk, WellPlaced, StatusOk, HandsOk, LiveCountsOk, PendingOk,
         CachesOk, EmptiesOk, LiveGaugeOk, MapGaugeOk, CountedOk, MapCountedOk, ForeignPrefix;
  }

  lemma ForeignPrefixGrows(owners: seq<Tid>, o: Tid, k: nat)
    requires |owners| == BUCKETS && ForeignPrefix(owners, o, k)
    requires owners[Slot(o, k)] != 0 && owners[Slot(o, k)] != o
    ensures ForeignPrefix(owners, o, k + 1)
  {
  }

  /** A block in a thread's hand is live, in that hand only, and well formed. */
  lemma HeldBlock(s: State, t: Tid)
    requires Core(s) && t in s.pcs && Held(s.pcs[t]) != []
    ensures var b := Held(s.pcs[t])[0];
            && b in s.places.place && s.places.place[b] == Hand(t) && b in s.objs
            && s.objs[b].live && s.objs[b].owner != 0 && b != 0
            && ObjectOk(b, s.objs[b], s.pages, s.regions)
  {
    hide RegionsOk, StoredOk, PoolsOk, PagesOk, PcsOk, LiveCountsOk, BucketsOk, PendingOk, CachesOk, EmptiesOk,
         LiveGaugeOk, MapGaugeOk, CountedOk, MapCountedOk, ObjectOk;
    var b := Held(s.pcs[t])[0];
    assert At(s.places, Hand(t)) == Held(PcOf(s.pcs, t));
    assert b in At(s.places, Hand(t));
    assert LocOk(s.places.place[b], s.objs[b], s.pages, s.owners);
  }

  lemma QueueOne(s: State, t: Tid, i: nat)
    requires Inv(s) && t in s.pcs && s.pcs[t].Enqueue? && i < |s.owners|
    requires s.pcs[t].b in s.objs && s.owners[i] == s.objs[s.pcs[t].b].owner
    ensures s.pcs[t].b in s.places.place
    ensures var b := s.pcs[t].b; Inv(Relocate(s, t, b, Queue(i), Queued(s.objs[b]), Idle).(pending := s.pending + 1))
  {
    hide Core, EmptiesOk;
    var b := s.pcs[t].b;
    QuietThread(s, t);
    HeldBlock(s, t);
    QueuePending(s, t, b, i);
    RelocateKeeps(s, t, b, Queue(i), Queued(s.objs[b]), Idle, s.pending + 1);
  }

  lemma QueuePending(s: State, t: Tid, b: Addr, i: nat)
    requires Inv(s) && t in s.pcs && !s.pcs[t].Tick?
    requires b in s.places.place && s.places.place[b] == Hand(t)
    ensures PendingOk(s.pending + 1, Move(s.places, b, Queue(i)), s.pcs[t := Idle])
  {
    hide RegionsOk, StoredOk, PoolsOk, PagesOk, ObjectsOk, WellPlaced, StatusOk, HandsOk, PcsOk, LiveCountsOk,
         BucketsOk, CachesOk, EmptiesOk, LiveGaugeOk, MapGaugeOk, CountedOk, MapCountedOk;
    var q := Move(s.places, b, Queue(i));
    assert Waiting(q) == Waiting(s.places) + {b};
    assert b !in Waiting(s.places);
    assert Ticking(s.pcs[t := Idle]) == Ticking(s.pcs);
  }
}
