/** The invariant over whole runs, and what it says about every reachable state. */
module HeapSafety {
  import opened Types
  import opened Geometry
  import opened Places
  import opened HeapState
  import opened HeapSteps
  import opened HeapProofs
  import opened HeapRemote
  import opened HeapLive
  import opened HeapPool
  import opened HeapPages
  import opened HeapReclaim

  lemma InitIsOk(cfg: Config, mode: Mode)
    requires ValidConfig(cfg)
    ensures Inv(Init(cfg, mode))
  {
    var s := Init(cfg, mode);
    assert Waiting(s.places) == {} && Ticking(s.pcs) == {};
    assert ObjectsOf({}, s.objs, Balanced) == {};
    forall m ensures ObjectsOf({}, s.objs, m) == {} && RegionsOf({}, s.regions, m) == {} {
    }
    assert AllUnreported(s.pcs) == {} && NewMappings(s.pcs, s.objs) == {};
  }

  lemma AdvanceKeeps(s: State, t: Tid, oracle: Oracle)
    requires Inv(s) && t in s.pcs && OracleOk(s.regions, oracle, Wanted(s, t))
    ensures Inv(Go(s, t, oracle))
  {
    hide Inv, GoBegin, GoScan, GoDrain, GoTick, GoPutBack, GoPop, GoCentral, GoMapNew, GoFresh, GoNote, GoFreeing,
         GoDoomed, GoEnqueue, GoReturn, OracleOk;
    match s.pcs[t]
    case Idle =>
    case Begin(_, _, _) => BeginKeeps(s, t);
    case Scan(_, _, _, _, _) => ScanKeeps(s, t);
    case Drain(_, _, _, _, _, _) => DrainKeeps(s, t);
    case Tick(_, _, _, _, _, _) => TickKeeps(s, t);
    case PutBack(_, _, _, _, _) => PutBackKeeps(s, t);
    case Pop(_, _, _, _) => PopKeeps(s, t);
    case Central(_, _, _) => CentralKeeps(s, t, oracle);
    case MapNew(_, _) => MapNewKeeps(s, t, oracle);
    case Fresh(_, _, _) => FreshKeeps(s, t);
    case Note(_, _, _) => NoteKeeps(s, t);
    case Freeing(_, _) => FreeingKeeps(s, t);
    case Doomed(_, _) => DoomedKeeps(s, t);
    case Enqueue(_, _, _) => EnqueueKeeps(s, t);
    case Return(_, _) => ReturnKeeps(s, t);
  }

  /** `header_from_user` answers exactly for live objects: for any address the allocator
      wrote a header at, on a page the page table holds, and on which no operation is
      under way, it yields the header if and only if the object is in the registry. */
  lemma HeaderExactlyWhenLive(s: State, b: Addr)
    requires Inv(s) && b in s.objs && Quiet(s, b) && PageKey(b + HEADER) in s.stored
    ensures HeaderFromUser(s, b).Some? <==> s.places.place[b] == Registry
  {
    hide RegionsOk, StoredOk, PoolsOk, LiveCountsOk, PcsOk, EmptiesOk, BucketsOk, CachesOk, LiveGaugeOk, MapGaugeOk,
         PendingOk, CountedOk, MapCountedOk, PagesOk;
    var l := s.places.place[b];
    assert LocOk(l, s.objs[b], s.pages, s.owners);
    assert ObjectOk(b, s.objs[b], s.pages, s.regions);
    ObjectAddresses(s, b);
    if l.Hand? {
      HandIsHeld(s, b);
    }
  }

  lemma HandIsHeld(s: State, b: Addr)
    requires Core(s) && b in s.places.place && s.places.place[b].Hand?
    ensures exists t :: t in s.pcs && b in Held(s.pcs[t])
  {
    hide RegionsOk, StoredOk, PoolsOk, LiveCountsOk, PcsOk, StatusOk, ObjectsOk, BucketsOk, CachesOk, LiveGaugeOk,
         MapGaugeOk, PendingOk, CountedOk, MapCountedOk, PagesOk;
    var t := s.places.place[b].owner;
    assert b in At(s.places, Hand(t));
    assert At(s.places, Hand(t)) == Held(PcOf(s.pcs, t));
    assert t in s.pcs && b in Held(s.pcs[t]);
  }

  lemma ObjectAddresses(s: State, b: Addr)
    requires Core(s) && b in s.objs
    ensures s.objs[b].base != 0 && s.objs[b].mapped >= HEADER && (s.objs[b].pooled ==> s.objs[b].page != 0)
  {
    hide StoredOk, PoolsOk, LiveCountsOk, PcsOk, HandsOk, StatusOk, WellPlaced, RegionsOk, BucketsOk, CachesOk,
         LiveGaugeOk, MapGaugeOk, PendingOk, CountedOk, MapCountedOk, PagesOk;
    ObjectInRegion(s, b);
    RegionKeysPositive(s);
    assert ObjectOk(b, s.objs[b], s.pages, s.regions);
  }

  /** A second free of the same pointer, or a free of any block that is not live, finds
      no header and changes nothing: no pool, cache, queue, registry or gauge. */
  lemma FreeOfDeadIsNoOp(s: State, t: Tid, b: Addr)
    requires Inv(s) && Enabled(s, FreeAt(t, b)) && (b in s.objs ==> s.places.place[b] != Registry)
    ensures Apply(s, FreeAt(t, b)) == s
  {
    hide Inv;
    if b in s.objs && PageKey(b + HEADER) in s.stored {
      HeaderExactlyWhenLive(s, b);
    }
  }

  lemma HeaderMeansRegistered(s: State, b: Addr)
    requires Inv(s) && Addressable(s, b) && HeaderFromUser(s, b).Some?
    ensures b in s.places.place && s.places.place[b] == Registry && b != 0
    ensures forall t :: t in s.pcs ==> b !in Claims(s.pcs[t])
  {
    hide Core, EmptiesOk;
    HeaderExactlyWhenLive(s, b);
    PlacedAreObjects(s, b);
    RegisteredBlock(s, b);
  }

  /** Every step of every thread keeps the invariant. */
  lemma StepKeeps(s: State, step: Step)
    requires Inv(s) && Enabled(s, step)
    ensures Inv(Apply(s, step))
  {
    hide Inv, StartAlloc, StartFree, Go, Plausible, Addressable, OracleOk, Wanted;
    match step
    case SwitchMode(m) => SwitchKeeps(s, m);
    case Malloc(t, size, alignment) => StartAllocKeeps(s, t, size, alignment, s.active, 0);
    case Realloc(t, b, size) =>
      if HeaderFromUser(s, b).Some? && size > s.objs[b].usable {
        HeaderMeansRegistered(s, b);
        StartAllocKeeps(s, t, size, 16, s.objs[b].mode, b);
      }
    case FreeAt(t, b) =>
      if HeaderFromUser(s, b).Some? {
        HeaderMeansRegistered(s, b);
        StartFreeKeeps(s, t, b);
      }
    case Advance(t, oracle) => AdvanceKeeps(s, t, oracle);
  }

  lemma SwitchKeeps(s: State, m: Mode)
    requires Inv(s)
    ensures Inv(s.(active := m))
  {
  }

  /** Over every run, under every interleaving and every answer of the system. */
  lemma {:induction false} RunKeeps(s: State, steps: seq<Step>, s': State)
    requires Inv(s) && Runs(s, steps, s')
    ensures Inv(s')
    decreases |steps|
  {
    hide Inv, Enabled, Apply;
    if steps != [] {
      StepKeeps(s, steps[0]);
      RunKeeps(Apply(s, steps[0]), steps[1..], s');
    }
  }

  ghost predicate Reachable(s: State) {
    exists cfg, mode, steps :: ValidConfig(cfg) && Runs(Init(cfg, mode), steps, s)
  }

  lemma ReachableIsOk(s: State)
    requires Reachable(s)
    ensures Inv(s)
  {
    hide Inv;
    var cfg, mode, steps :| ValidConfig(cfg) && Runs(Init(cfg, mode), steps, s);
    InitIsOk(cfg, mode);
    RunKeeps(Init(cfg, mode), steps, s);
  }
}
