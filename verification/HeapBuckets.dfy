/** The remote-free protocol over whole runs: who owns a bucket, and that a scan finds it. */
module HeapBuckets {
  import opened Types
  import opened Policy
  import opened Options
  import opened Geometry
  import opened Places
  import opened HeapState
  import opened HeapSteps
  import opened HeapRemote
  import opened HeapSafety
  import opened HeapFrames
  import opened HeapReclaim
  import opened HeapRequests

  // ---- A claim is for good -----------------------------------------------------------------------------

  /** Claimed buckets keep their owner. */
  ghost predicate ClaimsKept(owners: seq<Tid>, owners': seq<Tid>) {
    |owners'| == |owners| && forall i :: 0 <= i < |owners| && owners[i] != 0 ==> owners'[i] == owners[i]
  }

  lemma CentralOwners(s: State, t: Tid, oracle: Oracle)
    requires PcOf(s.pcs, t).Central?
    ensures GoCentral(s, t, PcOf(s.pcs, t), oracle).owners == s.owners
  {
    hide TakeFrom, SelectPage, Capacity, AddPage;
    var pc := PcOf(s.pcs, t);
    match SelectPage(s, pc.cls, pc.req.packing)
    case Some(p) =>
      if p in s.pages {
        TakeFromFrame(s, t, pc.req, pc.cls, pc.src, p);
      }
    case None =>
      if Capacity(PageBytes(s.cfg, pc.cls), pc.cls) > 0 && oracle.Maps? {
        AddPageFrame(s, pc.cls, pc.req.mode, oracle.base, oracle.kept);
        TakeFromFrame(AddPage(s, pc.cls, pc.req.mode, oracle.base, oracle.kept), t, pc.req, pc.cls, pc.src,
                      oracle.base);
      }
  }

  lemma ReturnOwners(s: State, t: Tid)
    requires PcOf(s.pcs, t).Return?
    ensures GoReturn(s, t, PcOf(s.pcs, t)).owners == s.owners
  {
    hide ReleaseEmpty, Move;
    var pc := PcOf(s.pcs, t);
    if pc.b in s.objs && pc.b in s.places.place && s.objs[pc.b].page in s.pages {
      var given := Give(s, t, pc.b);
      var c := s.pages[s.objs[pc.b].page].cls;
      ReleaseEmptyFrame(given, c, 0);
      ReleaseEmptyFrame(given, c, pc.dec.keep);
    }
  }

  /** A claim takes an unowned bucket only. */
  lemma EnqueueOwners(s: State, t: Tid)
    requires PcOf(s.pcs, t).Enqueue?
    ensures ClaimsKept(s.owners, GoEnqueue(s, t, PcOf(s.pcs, t)).owners)
  {
    hide Relocate, Slot, Queued;
    var pc := PcOf(s.pcs, t);
    if pc.b in s.objs && pc.b in s.places.place {
      var o := s.objs[pc.b];
      var i := Slot(o.owner, pc.k);
      if i < |s.owners| {
        RelocateOwners(s.(owners := s.owners[i := o.owner]), t, pc.b, Queue(i), Queued(o), Idle);
      }
    }
  }

  lemma RelocateOwners(s: State, t: Tid, b: Addr, to: Loc, o: Object, pc: Pc)
    requires b in s.places.place
    ensures Relocate(s, t, b, to, o, pc).owners == s.owners
  {
  }

  lemma SearchOwners(s: State, t: Tid)
    ensures var pc := PcOf(s.pcs, t);
            && (pc.Begin? ==> GoBegin(s, t, pc).owners == s.owners)
            && (pc.Scan? ==> GoScan(s, t, pc).owners == s.owners)
            && (pc.Drain? ==> GoDrain(s, t, pc).owners == s.owners)
            && (pc.Tick? ==> GoTick(s, t, pc).owners == s.owners)
            && (pc.PutBack? ==> GoPutBack(s, t, pc).owners == s.owners)
            && (pc.Pop? ==> GoPop(s, t, pc).owners == s.owners)
  {
    hide Move, Splice, At, Slot, CacheLimit, Finalized, Cleared;
  }

  lemma ObjectOwners(s: State, t: Tid, oracle: Oracle)
    ensures var pc := PcOf(s.pcs, t);
            && (pc.MapNew? ==> GoMapNew(s, t, pc, oracle).owners == s.owners)
            && (pc.Fresh? ==> GoFresh(s, t, pc).owners == s.owners)
            && (pc.Note? ==> GoNote(s, t, pc).owners == s.owners)
            && (pc.Freeing? ==> GoFreeing(s, t, pc).owners == s.owners)
            && (pc.Doomed? ==> GoDoomed(s, t, pc).owners == s.owners)
  {
    hide Move, Admit, Evict, At, DirectBytes, DirectObject, DirectHeader, AddLive, AddMapped, PlanFree, CacheLimit,
         Cleared, KeysOf;
  }

  lemma StepKeepsClaims(s: State, step: Step)
    ensures ClaimsKept(s.owners, Apply(s, step).owners)
  {
    hide GoBegin, GoScan, GoDrain, GoTick, GoPutBack, GoPop, GoCentral, GoMapNew, GoFresh, GoNote, GoFreeing,
         GoDoomed, GoEnqueue, GoReturn, Plausible, PlanFree, AddLive, MakeRequest, Route, ClassFor;
    if step.Advance? {
      var t := step.t;
      SearchOwners(s, t);
      ObjectOwners(s, t, step.oracle);
      match PcOf(s.pcs, t)
      case Central(_, _, _) => CentralOwners(s, t, step.oracle);
      case Enqueue(_, _, _) => EnqueueOwners(s, t);
      case Return(_, _) => ReturnOwners(s, t);
      case _ =>
    }
  }

  /** Over every run a claimed bucket keeps its owner. */
  lemma {:induction false} ClaimIsForGood(s: State, steps: seq<Step>, s': State)
    requires Runs(s, steps, s')
    ensures ClaimsKept(s.owners, s'.owners)
    decreases |steps|
  {
    hide Apply, Enabled;
    if steps != [] {
      StepKeepsClaims(s, steps[0]);
      ClaimIsForGood(Apply(s, steps[0]), steps[1..], s');
    }
  }

  // ---- One bucket per owner ------------------------------------------------------------------------------

  /** The probe path of a thread passes each of the 256 buckets once. */
  lemma PathCovers(o: Tid, i: nat)
    requires i < BUCKETS
    ensures Distance(o, i) < BUCKETS && Slot(o, Distance(o, i)) == i
    ensures forall k :: 0 <= k < BUCKETS && Slot(o, k) == i ==> k == Distance(o, i)
  {
    StartRange(o);
  }

  lemma StartRange(o: Tid)
    ensures Start(o) < 256
  {
  }

  lemma BucketCount(s: State)
    requires Core(s)
    ensures |s.owners| == BUCKETS
  {
  }

  lemma ClaimIsFirst(s: State, i: nat)
    requires Core(s) && i < BUCKETS && |s.owners| == BUCKETS && s.owners[i] != 0
    ensures ForeignPrefix(s.owners, s.owners[i], Distance(s.owners[i], i))
  {
  }

  lemma TwoFirsts(owners: seq<Tid>, o: Tid, k: nat, n: nat)
    requires |owners| == BUCKETS && o != 0
    requires ForeignPrefix(owners, o, k) && owners[Slot(o, k)] == o
    requires ForeignPrefix(owners, o, n) && owners[Slot(o, n)] == o
    ensures k == n
  {
  }

  lemma QueuedOwner(s: State, i: nat, b: Addr)
    requires Core(s) && b in At(s.places, Queue(i))
    ensures b in s.objs && s.objs[b].owner != 0 && i < |s.owners| && s.owners[i] == s.objs[b].owner
  {
    hide RegionsOk, StoredOk, PoolsOk, PcsOk, LiveCountsOk, ObjectsOk, PagesOk, HandsOk, CachesOk, LiveGaugeOk,
         MapGaugeOk, PendingOk, CountedOk, MapCountedOk, BucketsOk;
    assert LocOk(s.places.place[b], s.objs[b], s.pages, s.owners);
  }

  /** No owner has two buckets, full or drained; the bucket is the first on the owner's
      probe path that is not foreign. */
  lemma OneBucketPerOwner(s: State, i: nat, j: nat)
    requires Inv(s) && i < BUCKETS && j < BUCKETS
    ensures |s.owners| == BUCKETS
    ensures s.owners[i] == s.owners[j] != 0 ==> i == j
    ensures s.owners[i] != 0 ==> ForeignPrefix(s.owners, s.owners[i], Distance(s.owners[i], i))
  {
    hide Core, EmptiesOk, ForeignPrefix, Slot, Distance;
    BucketCount(s);
    var o := s.owners[i];
    if o != 0 {
      ClaimIsFirst(s, i);
      if s.owners[j] == o {
        ClaimIsFirst(s, j);
        SlotDistance(o, i);
        SlotDistance(o, j);
        TwoFirsts(s.owners, o, Distance(o, i), Distance(o, j));
      }
    }
  }

  /** Over every run an owner ever claims one bucket only. */
  lemma OneBucketEver(s: State, steps: seq<Step>, s': State, i: nat, j: nat)
    requires Inv(s) && Runs(s, steps, s') && i < BUCKETS && j < BUCKETS && |s.owners| == |s'.owners| == BUCKETS
    ensures s.owners[i] == s'.owners[j] != 0 ==> i == j
  {
    hide Inv, Runs;
    RunKeeps(s, steps, s');
    ClaimIsForGood(s, steps, s');
    OneBucketPerOwner(s', i, j);
  }

  /** All queued blocks of an owner are in its one bucket. */
  lemma OwnersUseOneBucket(s: State, i: nat, b: Addr)
    requires Reachable(s) && b in At(s.places, Queue(i))
    ensures |s.owners| == BUCKETS && i < BUCKETS && b in s.objs && s.objs[b].owner != 0
    ensures s.owners[i] == s.objs[b].owner
    ensures forall j :: 0 <= j < BUCKETS && s.owners[j] == s.objs[b].owner ==> j == i
    ensures ForeignPrefix(s.owners, s.objs[b].owner, Distance(s.objs[b].owner, i))
  {
    hide Core, EmptiesOk, Reachable, ForeignPrefix, Distance;
    ReachableIsOk(s);
    BucketCount(s);
    QueuedOwner(s, i, b);
    forall j | 0 <= j < BUCKETS && s.owners[j] == s.objs[b].owner ensures j == i {
      OneBucketPerOwner(s, i, j);
    }
    OneBucketPerOwner(s, i, i);
  }

  // ---- A scan finds the bucket ------------------------------------------------------------------------------

  /** The owner's scan finds its queued blocks: it passes every earlier bucket on its
      path and at its own bucket detaches the whole chain, in order. */
  lemma ScanReachesBucket(s: State, t: Tid, i: nat)
    requires Inv(s) && t in s.pcs && s.pcs[t].Scan? && i < BUCKETS && |s.owners| == BUCKETS
    requires s.owners[i] == t && At(s.places, Queue(i)) != [] && s.pcs[t].k <= Distance(t, i)
    ensures var pc, s' := s.pcs[t], GoScan(s, t, s.pcs[t]);
            if pc.k < Distance(t, i)
            then s' == SetPc(s, t, Scan(pc.req, pc.cls, pc.src, pc.again, pc.k + 1))
            else PcOf(s'.pcs, t) == Drain(pc.req, pc.cls, pc.src, pc.again, i, 0)
                 && At(s'.places, Detached(t)) == At(s.places, Queue(i)) && At(s'.places, Queue(i)) == []
  {
    hide Core, EmptiesOk, WellPlaced, Slot, Distance, Splice, PcOk;
    QuietThread(s, t);
    ClaimIsFirst(s, i);
    SlotDistance(t, i);
    PlacesAreWell(s);
    SpliceWellPlaced(s.places, Queue(i), Detached(t));
  }

  /** Thread `t` is scanning the buckets in every state of the run. */
  ghost predicate Scanning(s: State, steps: seq<Step>, t: Tid)
    decreases |steps|
  {
    && PcOf(s.pcs, t).Scan?
    && (steps != [] ==> Scanning(Apply(s, steps[0]), steps[1..], t))
  }

  /** Bucket `i` of thread `t` holds block `b`, and the scan has not passed it. */
  ghost predicate Ahead(s: State, t: Tid, i: nat, b: Addr) {
    && i < |s.owners| == BUCKETS && s.owners[i] == t && t != 0
    && b in s.places.place && s.places.place[b] == Queue(i)
    && PcOf(s.pcs, t).Scan? && PcOf(s.pcs, t).k <= Distance(t, i)
  }

  lemma OthersKeepPc(s: State, step: Step, t: Tid)
    requires Enabled(s, step) && (step.SwitchMode? || step.t != t)
    ensures PcOf(Apply(s, step).pcs, t) == PcOf(s.pcs, t)
  {
    hide Go, OracleOk, Addressable, Plausible, PlanFree, AddLive, MakeRequest, Route, ClassFor;
    if step.Advance? {
      GoServes(s, step.t, step.oracle, t, Call(MakeRequest(0, 0, Balanced, 0, false), 0));
    }
  }

  /** A queued block stays where it is until its owner's scan comes by. */
  lemma QueuedStays(s: State, step: Step, t: Tid, i: nat, b: Addr)
    requires Inv(s) && Enabled(s, step) && Ahead(s, t, i, b)
    requires step.Advance? && step.t == t ==> PcOf(s.pcs, t).k < Distance(t, i)
    ensures Undisturbed(s, Apply(s, step), b)
  {
    hide Core, EmptiesOk, Apply, Enabled, ForeignPrefix, Slot, Distance;
    QueuedIsObject(s, b);
    NotFreeing(s, step, b);
    OneBucketPerOwner(s, i, i);
    NotYet(s, t, i);
    StepUndisturbed(s, step, b);
  }

  lemma QueuedIsObject(s: State, b: Addr)
    requires Core(s) && b in s.places.place
    ensures b in s.objs
  {
    hide RegionsOk, StoredOk, PoolsOk, PcsOk, LiveCountsOk, ObjectsOk, PagesOk, HandsOk, WellPlaced, CachesOk,
         LiveGaugeOk, MapGaugeOk, PendingOk, CountedOk, MapCountedOk, BucketsOk;
  }

  lemma NotFreeing(s: State, step: Step, b: Addr)
    requires Core(s) && b in s.places.place && s.places.place[b] != Registry
    ensures !Unregisters(s, step, b)
  {
    hide Core;
    if step.Advance? && step.t in s.pcs {
      QuietThread(s, step.t);
    }
  }

  /** Earlier buckets on the path are foreign. */
  lemma NotYet(s: State, t: Tid, i: nat)
    requires i < |s.owners| == BUCKETS && s.owners[i] == t && ForeignPrefix(s.owners, t, Distance(t, i))
    ensures forall k :: 0 <= k < Distance(t, i) ==> s.owners[Slot(t, k)] != t
  {
    hide Slot, Distance;
  }

  lemma ScanStep(s: State, step: Step, t: Tid, i: nat, b: Addr)
    requires Inv(s) && Enabled(s, step) && Ahead(s, t, i, b) && PcOf(Apply(s, step).pcs, t).Scan?
    ensures Ahead(Apply(s, step), t, i, b)
  {
    hide Core, EmptiesOk, Apply, Enabled, Distance;
    StepKeepsClaims(s, step);
    QueueIsNotEmpty(s, i, b);
    if step.SwitchMode? || step.t != t {
      OthersKeepPc(s, step, t);
    } else {
      OnlyAdvances(s, step);
      OwnScan(s, t, i, step.oracle);
    }
    QueuedStays(s, step, t, i, b);
  }

  lemma QueueIsNotEmpty(s: State, i: nat, b: Addr)
    requires Core(s) && b in s.places.place && s.places.place[b] == Queue(i)
    ensures b in At(s.places, Queue(i))
  {
    hide Core, WellPlaced;
    PlacesAreWell(s);
    ListedThere(s.places, b);
  }

  lemma ListedThere(p: Places, b: Addr)
    requires WellPlaced(p) && b in p.place
    ensures b in At(p, p.place[b])
  {
  }

  lemma OnlyAdvances(s: State, step: Step)
    requires Enabled(s, step) && !step.SwitchMode? && !PcOf(s.pcs, step.t).Idle?
    ensures step.Advance?
  {
  }

  /** The scan's own step, as a step of the machine. */
  lemma OwnScan(s: State, t: Tid, i: nat, oracle: Oracle)
    requires Inv(s) && t in s.pcs && s.pcs[t].Scan? && i < BUCKETS && |s.owners| == BUCKETS
    requires s.owners[i] == t && At(s.places, Queue(i)) != [] && s.pcs[t].k <= Distance(t, i)
    ensures var pc, s' := s.pcs[t], Apply(s, Advance(t, oracle));
            if pc.k < Distance(t, i)
            then PcOf(s'.pcs, t) == Scan(pc.req, pc.cls, pc.src, pc.again, pc.k + 1)
            else PcOf(s'.pcs, t) == Drain(pc.req, pc.cls, pc.src, pc.again, i, 0)
                 && At(s'.places, Detached(t)) == At(s.places, Queue(i)) && At(s'.places, Queue(i)) == []
  {
    hide Core, EmptiesOk, GoScan, Distance;
    ScanReachesBucket(s, t, i);
  }

  lemma {:induction false} ScanKeepsAhead(s: State, steps: seq<Step>, s': State, t: Tid, i: nat, b: Addr)
    requires Inv(s) && Runs(s, steps, s') && Scanning(s, steps, t) && Ahead(s, t, i, b)
    ensures Inv(s') && Ahead(s', t, i, b)
    decreases |steps|
  {
    hide Inv, Apply, Enabled, Ahead;
    if steps != [] {
      StepKeeps(s, steps[0]);
      ScanStep(s, steps[0], t, i, b);
      ScanKeepsAhead(Apply(s, steps[0]), steps[1..], s', t, i, b);
    }
  }

  /** The owner's drain finds its bucket: from the start of a scan, through any interleaving
      for as long as the scan lasts, the bucket stays the owner's and non-empty and the scan
      has not passed it; the scan's next step moves on to the next bucket or takes this one
      out, whole and in order.  So the only way out of the scan is to take it. */
  lemma ScanFindsBucket(s: State, steps: seq<Step>, s': State, t: Tid, i: nat, oracle: Oracle)
    requires Inv(s) && Runs(s, steps, s') && Scanning(s, steps, t) && PcOf(s.pcs, t).k == 0 && t != 0
    requires i < |s.owners| == BUCKETS && s.owners[i] == t && At(s.places, Queue(i)) != []
    ensures |s'.owners| == BUCKETS && s'.owners[i] == t && At(s'.places, Queue(i)) != []
    ensures PcOf(s'.pcs, t).Scan? && PcOf(s'.pcs, t).k <= Distance(t, i)
    ensures var pc, s2 := PcOf(s'.pcs, t), Apply(s', Advance(t, oracle));
            if pc.k < Distance(t, i)
            then PcOf(s2.pcs, t) == Scan(pc.req, pc.cls, pc.src, pc.again, pc.k + 1)
            else PcOf(s2.pcs, t) == Drain(pc.req, pc.cls, pc.src, pc.again, i, 0)
                 && At(s2.places, Detached(t)) == At(s'.places, Queue(i)) && At(s2.places, Queue(i)) == []
  {
    hide Core, EmptiesOk, Apply, Runs, Distance;
    var b := At(s.places, Queue(i))[0];
    assert b in At(s.places, Queue(i));
    QueuedPlace(s, i, b);
    ScanKeepsAhead(s, steps, s', t, i, b);
    QueueIsNotEmpty(s', i, b);
    OwnScan(s', t, i, oracle);
  }

  lemma QueuedPlace(s: State, i: nat, b: Addr)
    requires Core(s) && b in At(s.places, Queue(i))
    ensures b in s.places.place && s.places.place[b] == Queue(i)
  {
    hide RegionsOk, StoredOk, PoolsOk, PcsOk, LiveCountsOk, ObjectsOk, PagesOk, HandsOk, StatusOk, CachesOk,
         LiveGaugeOk, MapGaugeOk, PendingOk, CountedOk, MapCountedOk, BucketsOk;
  }
}
