/** What becomes of a freed object, told by its mode, its owner and the state of its pool. */
module HeapReleases {
  import Arith
  import opened Types
  import opened Policy
  import opened Places
  import opened HeapState
  import opened HeapSteps
  import opened HeapRemote
  import opened HeapPool
  import opened HeapReclaim
  import opened HeapSafety
  import opened HeapBuckets
  import HeapRequests
  import Pools
  import PoolRuns

  // ---- Direct objects ------------------------------------------------------------------------------------

  lemma DecisionIs(s: State, t: Tid)
    requires Core(s) && t in s.pcs && (s.pcs[t].Doomed? || s.pcs[t].Enqueue? || s.pcs[t].Return?)
    ensures s.pcs[t].b in s.objs && s.pcs[t].b in s.places.place
    ensures var o := s.objs[s.pcs[t].b]; s.pcs[t].dec == PlanFree(s.cfg, o.mode, o.storage)
    ensures !s.pcs[t].Doomed? ==> s.objs[s.pcs[t].b].pooled
  {
    hide Core, PlanFree;
    QuietThread(s, t);
    HeldBlock(s, t);
  }

  /** Freeing a direct object gives its mapping back to the system in every mode but the debug
      mode: no header and no key in the page table is left of it, and the gauge falls by its
      size.  In the debug mode the object goes into quarantine, with its mapping. */
  lemma DirectIsUnmapped(s: State, t: Tid)
    requires Inv(s) && t in s.pcs && s.pcs[t].Doomed? && s.pcs[t].b in s.objs && !s.objs[s.pcs[t].b].pooled
    ensures var b := s.pcs[t].b; var o, s' := s.objs[b], GoDoomed(s, t, s.pcs[t]);
            && PcOf(s'.pcs, t).Idle? && o.base in s.regions
            && (o.base in s'.regions <==> o.mode.HardenedDebug?)
            && (if o.mode.HardenedDebug? then
                  && b in s'.objs && s'.objs[b] == o.(live := false)
                  && b in s'.places.place && s'.places.place[b] == Quarantine
                  && s'.regions == s.regions && s'.stored == s.stored && s'.gauges == s.gauges
                else
                  && b !in s'.objs && s'.regions == s.regions - {o.base}
                  && (forall k :: k in s'.stored <==> k in s.stored && !(o.base <= k < o.base + o.mapped))
                  && s'.gauges.mapped == s.gauges.mapped - o.mapped)
  {
    hide Core, EmptiesOk, PlanFree, Evict, Move;
    DecisionIs(s, t);
    var o := s.objs[s.pcs[t].b];
    ReleaseLimits(s.cfg, o.mode, o.storage);
    DirectOfCore(s, s.pcs[t].b);
    MovesThere(s.places, s.pcs[t].b, Quarantine);
  }

  lemma MovesThere(p: Places, b: Addr, l: Loc)
    requires b in p.place
    ensures b in Move(p, b, l).place && Move(p, b, l).place[b] == l
  {
  }

  /** In every reachable state only objects of the debug mode are in quarantine. */
  lemma QuarantineIsDebug(s: State, b: Addr)
    requires Reachable(s) && b in s.places.place && s.places.place[b] == Quarantine
    ensures b in s.objs && s.objs[b].mode.HardenedDebug? && !s.objs[b].pooled
  {
    hide RegionsOk, StoredOk, PoolsOk, PcsOk, LiveCountsOk, ObjectsOk, PagesOk, HandsOk, WellPlaced, EmptiesOk,
         PendingOk, LiveGaugeOk, MapGaugeOk, BucketsOk, CountedOk, MapCountedOk, CachesOk, Reachable;
    ReachableIsOk(s);
    assert LocOk(s.places.place[b], s.objs[b], s.pages, s.owners);
  }

  // ---- Pooled blocks ---------------------------------------------------------------------------------------

  /** A freed block of a pool goes, in the cross-thread mode and freed by another thread than
      its owner, to the remote queues; in the modes with bins and freed by its owner, to the
      front of the owner's bin if that has room; and otherwise back to its page. */
  lemma PooledIsSorted(s: State, t: Tid)
    requires Inv(s) && t in s.pcs && s.pcs[t].Doomed? && s.pcs[t].b in s.objs && s.objs[s.pcs[t].b].pooled
    ensures var b := s.pcs[t].b; var o, s' := s.objs[b], GoDoomed(s, t, s.pcs[t]); var pc := PcOf(s'.pcs, t);
            && o.page in s.pages
            && var c := s.pages[o.page].cls; var bin := At(s.places, Cache(t, c));
               && (pc.Enqueue? <==> o.mode.CrossThreadMessage? && o.owner != t)
               && (pc.Idle? <==> UsesBins(o.mode) && o.owner == t && |bin| < BinLimit(o.mode, c.storage))
               && (pc.Return? <==> !pc.Enqueue? && !pc.Idle?)
               && (pc.Enqueue? ==> pc.b == b && pc.k == 0)
               && (pc.Return? ==> pc.b == b)
               && (pc.Idle? ==> At(s'.places, Cache(t, c)) == [b] + bin)
               && (!pc.Idle? ==> s'.places == s.places)
  {
    hide Core, EmptiesOk, PlanFree, Cleared, Move, CacheLimit, BinLimit;
    DecisionIs(s, t);
    HeldBlock(s, t);
    var b := s.pcs[t].b;
    var o := s.objs[b];
    PooledPage(s, b);
    var c := s.pages[o.page].cls;
    PlansAgree(s.cfg, o.mode, 0, 0, o.storage, c);
    PlacesAreWell(s);
    MoveWellPlaced(s.places, b, Cache(t, c));
  }

  /** One probe of a remote free: the bucket takes the block exactly when it is unclaimed or
      belongs to the owner of the block, and is the owner's from then on.  Past the last of the
      256 buckets the block goes back to its page. */
  lemma QueueProbe(s: State, t: Tid)
    requires Inv(s) && t in s.pcs && s.pcs[t].Enqueue?
    ensures var pc := s.pcs[t]; var s' := GoEnqueue(s, t, pc); var pc' := PcOf(s'.pcs, t);
            && pc.b in s.objs && |s.owners| == BUCKETS
            && var o, i := s.objs[pc.b], Slot(s.objs[pc.b].owner, pc.k);
               && (pc'.Idle? <==> pc.k < BUCKETS && (s.owners[i] == 0 || s.owners[i] == o.owner))
               && (pc'.Idle? ==> At(s'.places, Queue(i)) == [pc.b] + At(s.places, Queue(i))
                                 && s'.owners == s.owners[i := o.owner] && s'.pending == s.pending + 1)
               && (pc'.Enqueue? <==> pc.k < BUCKETS && s.owners[i] != 0 && s.owners[i] != o.owner)
               && (pc'.Enqueue? ==> pc' == Enqueue(pc.b, pc.dec, pc.k + 1))
               && (pc'.Return? <==> pc.k >= BUCKETS)
               && (pc'.Return? ==> pc'.b == pc.b)
  {
    hide Core, EmptiesOk, PlanFree, Queued, Move, Slot;
    DecisionIs(s, t);
    HeldBlock(s, t);
    BucketCount(s);
    PlacesAreWell(s);
    MoveWellPlaced(s.places, s.pcs[t].b, Queue(Slot(s.objs[s.pcs[t].b].owner, s.pcs[t].k)));
  }

  // ---- Back to the page ----------------------------------------------------------------------------------------

  /** The block is back at the front of its page's free list, if the page is still there. */
  ghost predicate IsBack(s: State, b: Addr, s': State) {
    && b in s.objs && s.objs[b].page in s.pages
    && var p := s.objs[b].page;
       p in s'.pages ==>
         && At(s'.places, Free(p)) == [b] + At(s.places, Free(p))
         && s'.pages[p].liveCount == s.pages[p].liveCount - 1
  }

  /** The page of the block about to be given back. */
  lemma PageOfBlock(s: State, t: Tid)
    requires Core(s) && t in s.pcs && s.pcs[t].Return?
    ensures s.pcs[t].b in s.objs && s.pcs[t].b in s.places.place && s.places.place[s.pcs[t].b] == Hand(t)
    ensures var o := s.objs[s.pcs[t].b];
            && o.pooled && o.page in s.pages && s.pages[o.page].liveCount > 0
            && o.storage == s.pages[o.page].cls.storage
            && !o.storage.DirectMap? && o.page in PoolOf(s.pool, s.pages[o.page].cls)
            && s.pcs[t].dec == PlanFree(s.cfg, o.mode, o.storage)
  {
    hide Core, PlanFree;
    DecisionIs(s, t);
    HeldBlock(s, t);
    PooledPage(s, s.pcs[t].b);
    LiveCountPositive(s, s.pcs[t].b);
    PoolRuns.ClassOfPage(s, s.objs[s.pcs[t].b].page);
  }

  lemma GiveIsBack(s: State, t: Tid)
    requires Core(s) && t in s.pcs && s.pcs[t].Return?
    ensures s.pcs[t].b in s.places.place && s.pcs[t].b in s.objs && s.objs[s.pcs[t].b].page in s.pages
    ensures IsBack(s, s.pcs[t].b, Give(s, t, s.pcs[t].b))
  {
    hide Core, Give, Move, PlanFree, WellPlaced;
    PageOfBlock(s, t);
    var b := s.pcs[t].b;
    PoolRuns.Given(s, t, b);
    PlacesAreWell(s);
    MoveWellPlaced(s.places, b, Free(s.objs[b].page));
  }

  /** Reclaim leaves the free lists of the pages that stay alone. */
  lemma {:induction false} ReclaimFrame(s: State, c: Class, keep: nat, p: Addr)
    requires Core(s)
    ensures var s' := ReleaseEmpty(s, c, keep);
            p in s'.pages ==>
              p in s.pages && s'.pages[p] == s.pages[p] && At(s'.places, Free(p)) == At(s.places, Free(p))
    decreases |PoolOf(s.pool, c)|
  {
    hide Core, ReleasePage, PoolsOk;
    var xs := PoolOf(s.pool, c);
    if CountEmpty(xs, s.pages) > keep {
      SomeEmptyIsFound(xs, s.pages);
      FirstEmptyIsListed(xs, s.pages);
      var q := FirstEmpty(xs, s.pages).value;
      WithoutShorter(xs, q);
      ListedClass(s, c, q);
      ReleasePageCore(s, q);
      ReleaseEmpties(s, q);
      ReleaseFrame(s, q, p);
      ReclaimFrame(ReleasePage(s, q), c, keep, p);
    }
  }

  lemma ReleaseFrame(s: State, q: Addr, p: Addr)
    requires Core(s) && q in s.pages
    ensures var s' := ReleasePage(s, q);
            && s'.pages == s.pages - {q} && q !in s'.regions
            && (p != q ==> At(s'.places, Free(p)) == At(s.places, Free(p)))
  {
    hide Core, WellPlaced, Evict;
    PlacesAreWell(s);
    EvictWellPlaced(s.places, Free(q));
  }

  /** What the return of block `b` to its page comes to. */
  ghost predicate Returned(s: State, t: Tid, b: Addr, s': State) {
    && IsBack(s, b, s') && PcOf(s'.pcs, t).Idle?
    && var o := s.objs[b]; var p := o.page; var c := s.pages[p].cls;
       var pool, emptied := PoolOf(s.pool, c), s.pages[p].liveCount == 1;
       && PoolRuns.Elsewhere(s, s', c)
       && (if Purges(o.mode) && emptied then
             p !in s'.pages && p !in s'.regions && PoolOf(s'.pool, c) == Without(pool, p)
           else
             Trimmed(s.cfg, o.mode, pool, Calmer(s.pages, p), CountEmpty(pool, s.pages) + (if emptied then 1 else 0),
                     PoolOf(s'.pool, c), s'.pages))
  }

  /** The class keeps no more empty pages than its mode allows, and all occupied ones. */
  ghost predicate Trimmed(cfg: Config, mode: Mode, pool: seq<Addr>, pages: map<Addr, Page>, empties: nat,
                          pool': seq<Addr>, pages': map<Addr, Page>) {
    && CountEmpty(pool', pages') == Arith.Min(empties, if Purges(mode) then 0 else KeepLimit(cfg, mode))
    && Pools.Occupied(pool', pages) == Pools.Occupied(pool, pages)
  }

  lemma ReturnPurges(s: State, t: Tid)
    requires Inv(s) && t in s.pcs && s.pcs[t].Return?
    requires s.pcs[t].b in s.objs && s.objs[s.pcs[t].b].page in s.pages && Purges(s.objs[s.pcs[t].b].mode)
    requires s.pages[s.objs[s.pcs[t].b].page].liveCount == 1
    ensures Returned(s, t, s.pcs[t].b, GoReturn(s, t, s.pcs[t]))
  {
    hide Core, EmptiesOk, PlanFree, Give, ReleasePage, ReleaseEmpty, IsBack, PoolRuns.Elsewhere, CountEmpty, KeepLimit,
         BinLimit, PlanAllocate;
    var pc := s.pcs[t];
    PageOfBlock(s, t);
    GiveCore(s, t);
    var o := s.objs[pc.b];
    var p := o.page;
    var c := s.pages[p].cls;
    PlansAgree(s.cfg, o.mode, 0, 0, o.storage, c);
    var given := Give(s, t, pc.b);
    GiveChanges(s, t, pc.b);
    PoolRuns.PoolsOfCore(s);
    PoolRuns.PoolsOfCore(given);
    PoolRuns.PageChanges(s, given, p, given.pages[p]);
    ReleaseFrame(given, p, p);
    ReleaseEmpties(given, p);
    PoolRuns.PageGoes(given, p);
    PoolRuns.ElsewhereToo(s, given, ReleasePage(given, p), c);
    GoneIsBack(s, pc.b, ReleasePage(given, p));
    ReleasedIdle(given, p);
    GivenIdle(s, t, pc.b);
  }

  lemma ReclaimTrims(s: State, c: Class, mode: Mode, keep: nat)
    requires Core(s) && keep == if Purges(mode) then 0 else KeepLimit(s.cfg, mode)
    ensures var s' := ReleaseEmpty(s, c, keep); var pool := PoolOf(s.pool, c);
            Trimmed(s.cfg, mode, pool, s.pages, CountEmpty(pool, s.pages), PoolOf(s'.pool, c), s'.pages)
  {
    hide Core, ReleaseEmpty, CountEmpty, Pools.Occupied, Pools.Trim, KeepLimit, NoDup;
    PoolRuns.PoolsOfCore(s);
    ReleaseEmptyKeeps(s, c, keep);
    Pools.ReleaseEmptyTrims(s, c, keep);
    Pools.TrimFacts(PoolOf(s.pool, c), s.pages, Pools.Surplus(CountEmpty(PoolOf(s.pool, c), s.pages), keep));
  }

  lemma ReturnTrims(s: State, t: Tid)
    requires Inv(s) && t in s.pcs && s.pcs[t].Return?
    requires s.pcs[t].b in s.objs && s.objs[s.pcs[t].b].page in s.pages
    requires !(Purges(s.objs[s.pcs[t].b].mode) && s.pages[s.objs[s.pcs[t].b].page].liveCount == 1)
    ensures Returned(s, t, s.pcs[t].b, GoReturn(s, t, s.pcs[t]))
  {
    hide Core, EmptiesOk, PlanFree, Give, ReleasePage, ReleaseEmpty, IsBack, PoolRuns.Elsewhere, CountEmpty, KeepLimit,
         BinLimit, PlanAllocate, Trimmed;
    var pc := s.pcs[t];
    PageOfBlock(s, t);
    GiveIsBack(s, t);
    GiveCore(s, t);
    var o := s.objs[pc.b];
    var p := o.page;
    var c := s.pages[p].cls;
    PlansAgree(s.cfg, o.mode, 0, 0, o.storage, c);
    var given := Give(s, t, pc.b);
    GiveChanges(s, t, pc.b);
    GiveEmpties(s, p);
    PoolRuns.PoolsOfCore(s);
    PoolRuns.PoolsOfCore(given);
    PoolRuns.PageChanges(s, given, p, given.pages[p]);
    var keep := if Purges(o.mode) then 0 else KeepLimit(s.cfg, o.mode);
    ReclaimTrims(given, c, o.mode, keep);
    ReclaimFrame(given, c, keep, p);
    StillBack(s, pc.b, given, ReleaseEmpty(given, c, keep));
    PoolRuns.EmptiesGo(given, c, keep);
    PoolRuns.ElsewhereToo(s, given, ReleaseEmpty(given, c, keep), c);
    ReclaimedIdle(given, c, keep);
    GivenIdle(s, t, pc.b);
  }

  /** A block back at its page: in the purging modes the page is unmapped exactly when that
      was its last live block, and then no other page goes; otherwise pages are unmapped until the
      class keeps at most the number of empty pages its mode allows (none in the purging modes),
      and all occupied pages stay, in order.  Other classes see no change. */
  lemma ReturnReclaims(s: State, t: Tid)
    requires Inv(s) && t in s.pcs && s.pcs[t].Return?
    ensures Returned(s, t, s.pcs[t].b, GoReturn(s, t, s.pcs[t]))
  {
    hide Core, EmptiesOk, PlanFree, GoReturn, Returned;
    PageOfBlock(s, t);
    var o := s.objs[s.pcs[t].b];
    if Purges(o.mode) && s.pages[o.page].liveCount == 1 {
      ReturnPurges(s, t);
    } else {
      ReturnTrims(s, t);
    }
  }

  lemma GoneIsBack(s: State, b: Addr, s': State)
    requires b in s.objs && s.objs[b].page in s.pages && s.objs[b].page !in s'.pages
    ensures IsBack(s, b, s')
  {
  }

  lemma StillBack(s: State, b: Addr, given: State, s': State)
    requires IsBack(s, b, given)
    requires var p := s.objs[b].page;
             p in s'.pages ==>
               p in given.pages && s'.pages[p] == given.pages[p] && At(s'.places, Free(p)) == At(given.places, Free(p))
    ensures IsBack(s, b, s')
  {
  }

  lemma GivenIdle(s: State, t: Tid, b: Addr)
    requires b in s.places.place && b in s.objs && s.objs[b].page in s.pages
    ensures PcOf(Give(s, t, b).pcs, t).Idle?
  {
  }

  lemma ReleasedIdle(s: State, p: Addr)
    requires p in s.pages
    ensures ReleasePage(s, p).pcs == s.pcs
  {
  }

  lemma {:induction false} ReclaimedIdle(s: State, c: Class, keep: nat)
    ensures ReleaseEmpty(s, c, keep).pcs == s.pcs
  {
    HeapRequests.ReleaseEmptyFrame(s, c, keep);
  }
}
