/** What a step leaves alone: the headers and places of live objects and of queued blocks. */
module HeapFrames {
  import opened Types
  import opened Policy
  import opened Options
  import opened Geometry
  import opened Places
  import opened HeapState
  import opened HeapSteps
  import opened HeapProofs
  import opened HeapRemote
  import opened HeapLive
  import opened HeapPool
  import opened HeapPages
  import opened HeapReclaim
  import opened HeapSafety

  /** Object `c` is where it was, under the very same header. */
  ghost predicate Undisturbed(s: State, s': State, c: Addr) {
    && c in s.objs && c in s'.objs && s'.objs[c] == s.objs[c]
    && c in s.places.place && c in s'.places.place && s'.places.place[c] == s.places.place[c]
  }

  predicate Registered(s: State, c: Addr) {
    c in s.places.place && s.places.place[c] == Registry && c in s.objs
  }

  /** A live object, or a block in a remote bucket. */
  predicate Parked(s: State, c: Addr) {
    c in s.places.place && (s.places.place[c].Registry? || s.places.place[c].Queue?) && c in s.objs
  }

  /** Thread `t` is about to take out the bucket that holds `c`. */
  predicate DetachedBy(s: State, t: Tid, c: Addr) {
    var pc := PcOf(s.pcs, t);
    && pc.Scan? && pc.k < BUCKETS && c in s.places.place && s.places.place[c] == Queue(Slot(t, pc.k))
    && Slot(t, pc.k) < |s.owners| && s.owners[Slot(t, pc.k)] == t
  }

  lemma RelocateUndisturbed(s: State, t: Tid, b: Addr, to: Loc, o: Object, pc: Pc, c: Addr)
    requires b in s.places.place && Parked(s, c) && c != b
    ensures Undisturbed(s, Relocate(s, t, b, to, o, pc), c)
  {
  }

  lemma SpliceUndisturbed(p: Places, from: Loc, to: Loc, c: Addr)
    requires WellPlaced(p) && c in p.place && p.place[c] != from
    ensures c in Splice(p, from, to).place && Splice(p, from, to).place[c] == p.place[c]
  {
  }

  lemma {:induction false} RefillUndisturbed(s: State, t: Tid, p: Addr, c: Class, limit: nat, budget: nat, x: Addr)
    requires Inv(s) && t in s.pcs && s.pcs[t].Fresh? && p in s.pages && s.pages[p].cls == c && limit <= CacheCeiling(c)
    requires Parked(s, x)
    ensures Undisturbed(s, Refill(s, t, p, c, limit, budget), x)
    decreases budget
  {
    hide Core, EmptiesOk;
    var xs := At(s.places, Free(p));
    if xs != [] && |At(s.places, Cache(t, c))| < limit && budget > 0 {
      FreeHead(s, p);
      RefillOne(s, t, p, c);
      var o := s.objs[xs[0]].(owner := 0);
      RelocateUndisturbed(s, t, xs[0], Cache(t, c), o, PcOf(s.pcs, t), x);
      var taken := Take(s, t, p, xs[0], Cache(t, c), o, PcOf(s.pcs, t));
      RefillUndisturbed(taken, t, p, c, limit, budget - 1, x);
    }
  }

  lemma TakeFromUndisturbed(s: State, t: Tid, p: Addr, x: Addr)
    requires Core(s) && t in s.pcs && s.pcs[t].Central? && p in s.pages && s.pages[p].cls == s.pcs[t].cls
    requires At(s.places, Free(p)) != [] && EmptiesOk(s.cfg, Busier(s.pages, p), s.pool) && Parked(s, x)
    ensures Undisturbed(s, TakeFrom(s, t, s.pcs[t].req, s.pcs[t].cls, s.pcs[t].src, p), x)
  {
    hide Core, EmptiesOk;
    var pc := s.pcs[t];
    var b := At(s.places, Free(p))[0];
    FreeHead(s, p);
    TakeToHand(s, t, p);
    var o, next := Finalized(s.objs[b], pc.req, pc.cls), Fresh(pc.req, pc.src, b);
    RelocateUndisturbed(s, t, b, Hand(t), o, next, x);
    var taken := Take(s, t, p, b, Hand(t), o, next);
    if pc.req.threadCache && pc.req.batch > 1 {
      QuietThread(s, t);
      LimitBelowCeiling(t, pc.req, pc.cls);
      RefillUndisturbed(taken, t, p, pc.cls, CacheLimit(pc.cls, pc.req.smallLimit, pc.req.mediumLimit),
                        pc.req.batch - 1, x);
    }
  }

  lemma NewPageUndisturbed(s: State, t: Tid, oracle: Oracle, x: Addr)
    requires Inv(s) && t in s.pcs && s.pcs[t].Central? && oracle.Maps? && Parked(s, x)
    requires OracleOk(s.regions, oracle, PageBytes(s.cfg, s.pcs[t].cls))
    requires Capacity(PageBytes(s.cfg, s.pcs[t].cls), s.pcs[t].cls) > 0
    ensures var pc := s.pcs[t];
            var grown := AddPage(s, pc.cls, pc.req.mode, oracle.base, oracle.kept);
            Undisturbed(s, TakeFrom(grown, t, pc.req, pc.cls, pc.src, oracle.base), x)
  {
    hide Core, EmptiesOk, TakeFrom, Capacity, Layout, Admit;
    var pc := s.pcs[t];
    QuietThread(s, t);
    var added := AddPage(s, pc.cls, pc.req.mode, oracle.base, oracle.kept);
    FreshBase(s, oracle.base, PageBytes(s.cfg, pc.cls));
    AddPageCore(s, pc.cls, pc.req.mode, oracle.base, oracle.kept);
    NewPageEmpties(s, pc.cls, pc.req.mode, oracle.base, oracle.kept);
    NewPageFree(s, pc.cls, pc.req.mode, oracle.base, oracle.kept);
    AddPagePlaces(s, pc.cls, pc.req.mode, oracle.base, oracle.kept);
    AddPageObjects(s, pc.cls, pc.req.mode, oracle.base, oracle.kept);
    TakeFromUndisturbed(added, t, oracle.base, x);
  }

  lemma CentralUndisturbed(s: State, t: Tid, oracle: Oracle, x: Addr)
    requires Inv(s) && t in s.pcs && s.pcs[t].Central? && OracleOk(s.regions, oracle, PageBytes(s.cfg, s.pcs[t].cls))
    requires Parked(s, x)
    ensures Undisturbed(s, GoCentral(s, t, s.pcs[t], oracle), x)
  {
    hide Core, EmptiesOk, TakeFrom, Capacity, AddPage;
    var pc := s.pcs[t];
    SelectPageFacts(s, pc.cls, pc.req.packing);
    match SelectPage(s, pc.cls, pc.req.packing)
    case Some(p) =>
      TakeEmpties(s, p);
      TakeFromUndisturbed(s, t, p, x);
    case None =>
      if Capacity(PageBytes(s.cfg, pc.cls), pc.cls) > 0 && oracle.Maps? {
        NewPageUndisturbed(s, t, oracle, x);
      }
  }

  lemma MapNewUndisturbed(s: State, t: Tid, oracle: Oracle, x: Addr)
    requires Inv(s) && t in s.pcs && s.pcs[t].MapNew? && OracleOk(s.regions, oracle, Wanted(s, t)) && Parked(s, x)
    ensures Undisturbed(s, GoMapNew(s, t, s.pcs[t], oracle), x)
  {
    hide Core, EmptiesOk, DirectBytes, DirectHeader, Admit;
    var pc := s.pcs[t];
    var bytes := DirectBytes(pc.req.size, pc.req.alignment, pc.req.redzone);
    if bytes.Some? && oracle.Maps? {
      FreshBase(s, oracle.base, bytes.value);
      MapNewPlaces(s, t, pc.req, pc.src, bytes.value, oracle.base, oracle.kept);
      MapNewObjects(s, t, pc.req, pc.src, bytes.value, oracle.base, oracle.kept);
    }
  }

  lemma ReleaseUndisturbed(s: State, p: Addr, x: Addr)
    requires Core(s) && p in s.pages && s.pages[p].liveCount == 0 && Parked(s, x)
    ensures Undisturbed(s, ReleasePage(s, p), x)
  {
    hide Core, OnlyAt, Evict;
    ReleaseLeaves(s, p);
  }

  lemma {:induction false} ReleaseEmptyUndisturbed(s: State, c: Class, keep: nat, x: Addr)
    requires Core(s) && Parked(s, x)
    ensures Undisturbed(s, ReleaseEmpty(s, c, keep), x)
    decreases |PoolOf(s.pool, c)|
  {
    hide Core, ReleasePage, PoolsOk;
    var xs := PoolOf(s.pool, c);
    if CountEmpty(xs, s.pages) > keep {
      SomeEmptyIsFound(xs, s.pages);
      FirstEmptyIsListed(xs, s.pages);
      var p := FirstEmpty(xs, s.pages).value;
      WithoutShorter(xs, p);
      ListedClass(s, c, p);
      ReleasePageCore(s, p);
      ReleaseUndisturbed(s, p, x);
      ReleaseEmpties(s, p);
      ReleaseEmptyUndisturbed(ReleasePage(s, p), c, keep, x);
    }
  }

  lemma ReturnUndisturbed(s: State, t: Tid, x: Addr)
    requires Inv(s) && t in s.pcs && s.pcs[t].Return? && Parked(s, x)
    ensures Undisturbed(s, GoReturn(s, t, s.pcs[t]), x)
  {
    hide Core, EmptiesOk, ReleasePage, ReleaseEmpty, PlanFree;
    var pc := s.pcs[t];
    QuietThread(s, t);
    GiveCore(s, t);
    HeldBlock(s, t);
    var p := s.objs[pc.b].page;
    var c := s.pages[p].cls;
    var given := Give(s, t, pc.b);
    RelocateUndisturbed(s, t, pc.b, Free(p), Cleared(s.objs[pc.b]), Idle, x);
    var reclaim := pc.dec.action.Purge? || pc.dec.action.Unmap?;
    if reclaim && given.pages[p].liveCount == 0 && p in PoolOf(given.pool, c) {
      ReleaseUndisturbed(given, p, x);
    } else {
      ReleaseEmptyUndisturbed(given, c, if reclaim then 0 else pc.dec.keep, x);
    }
  }

  /** The steps that move at most one block, which is not `x`. */
  lemma SimpleUndisturbed(s: State, t: Tid, x: Addr)
    requires Inv(s) && t in s.pcs && Parked(s, x)
    ensures s.pcs[t].Begin? ==> Undisturbed(s, GoBegin(s, t, s.pcs[t]), x)
    ensures s.pcs[t].Tick? ==> Undisturbed(s, GoTick(s, t, s.pcs[t]), x)
    ensures s.pcs[t].Fresh? ==> Undisturbed(s, GoFresh(s, t, s.pcs[t]), x)
    ensures s.pcs[t].Freeing? && s.pcs[t].b != x ==> Undisturbed(s, GoFreeing(s, t, s.pcs[t]), x)
  {
    hide Core, EmptiesOk;
    QuietThread(s, t);
    if s.pcs[t].Fresh? {
      HeldBlock(s, t);
    }
  }

  lemma NoteUndisturbed(s: State, t: Tid, x: Addr)
    requires t in s.pcs && s.pcs[t].Note? && Parked(s, x)
    ensures Undisturbed(s, GoNote(s, t, s.pcs[t]), x)
  {
    hide AddMapped, AddLive, PlanFree;
  }

  lemma RemoteUndisturbed(s: State, t: Tid, x: Addr)
    requires Inv(s) && t in s.pcs && Parked(s, x)
    ensures s.pcs[t].Scan? && !DetachedBy(s, t, x) ==> Undisturbed(s, GoScan(s, t, s.pcs[t]), x)
    ensures s.pcs[t].PutBack? ==> Undisturbed(s, GoPutBack(s, t, s.pcs[t]), x)
  {
    hide Core, EmptiesOk, WellPlaced, Slot;
    PlacesAreWell(s);
    if s.pcs[t].Scan? && s.places.place[x] != Queue(Slot(t, s.pcs[t].k)) {
      SpliceUndisturbed(s.places, Queue(Slot(t, s.pcs[t].k)), Detached(t), x);
    }
    if s.pcs[t].PutBack? {
      SpliceUndisturbed(s.places, Detached(t), Queue(s.pcs[t].bucket), x);
    }
  }

  lemma ChainUndisturbed(s: State, t: Tid, x: Addr)
    requires Inv(s) && t in s.pcs && Parked(s, x)
    ensures s.pcs[t].Drain? ==> Undisturbed(s, GoDrain(s, t, s.pcs[t]), x)
    ensures s.pcs[t].Pop? ==> Undisturbed(s, GoPop(s, t, s.pcs[t]), x)
  {
    hide Core, EmptiesOk;
    if s.pcs[t].Drain? && At(s.places, Detached(t)) != [] {
      DetachedHead(s, t);
    }
    if s.pcs[t].Pop? && At(s.places, Cache(t, s.pcs[t].cls)) != [] {
      assert At(s.places, Cache(t, s.pcs[t].cls))[0] in At(s.places, Cache(t, s.pcs[t].cls));
      CachedBlock(s, t, s.pcs[t].cls, At(s.places, Cache(t, s.pcs[t].cls))[0]);
    }
  }

  lemma DoomedUndisturbed(s: State, t: Tid, x: Addr)
    requires Inv(s) && t in s.pcs && s.pcs[t].Doomed? && Parked(s, x)
    ensures Undisturbed(s, GoDoomed(s, t, s.pcs[t]), x)
  {
    hide Core, EmptiesOk, Evict, AddMapped, KeysOf;
    QuietThread(s, t);
    HeldBlock(s, t);
    if !s.objs[s.pcs[t].b].pooled {
      DropLeaves(s, t, s.pcs[t].b);
    }
  }

  lemma EnqueueUndisturbed(s: State, t: Tid, x: Addr)
    requires Inv(s) && t in s.pcs && s.pcs[t].Enqueue? && Parked(s, x)
    ensures Undisturbed(s, GoEnqueue(s, t, s.pcs[t]), x)
  {
    hide Core, EmptiesOk, Slot;
    HeldBlock(s, t);
  }

  /** No step of any thread rewrites the header of a registered object or of a queued block;
      only the registry removal of its own free takes an object off the registry, and only
      the owner's drain takes a block out of its bucket. */
  lemma AdvanceUndisturbed(s: State, t: Tid, oracle: Oracle, x: Addr)
    requires Inv(s) && t in s.pcs && OracleOk(s.regions, oracle, Wanted(s, t)) && Parked(s, x)
    requires !(s.pcs[t].Freeing? && s.pcs[t].b == x) && !DetachedBy(s, t, x)
    ensures Undisturbed(s, Go(s, t, oracle), x)
  {
    hide Inv, GoBegin, GoScan, GoDrain, GoTick, GoPutBack, GoPop, GoCentral, GoMapNew, GoFresh, GoNote, GoFreeing,
         GoDoomed, GoEnqueue, GoReturn, OracleOk;
    match s.pcs[t]
    case Idle =>
    case Begin(_, _, _) => SimpleUndisturbed(s, t, x);
    case Scan(_, _, _, _, _) => RemoteUndisturbed(s, t, x);
    case Drain(_, _, _, _, _, _) => ChainUndisturbed(s, t, x);
    case Tick(_, _, _, _, _, _) => SimpleUndisturbed(s, t, x);
    case PutBack(_, _, _, _, _) => RemoteUndisturbed(s, t, x);
    case Pop(_, _, _, _) => ChainUndisturbed(s, t, x);
    case Central(_, _, _) => CentralUndisturbed(s, t, oracle, x);
    case MapNew(_, _) => MapNewUndisturbed(s, t, oracle, x);
    case Fresh(_, _, _) => SimpleUndisturbed(s, t, x);
    case Note(_, _, _) => NoteUndisturbed(s, t, x);
    case Freeing(_, _) => SimpleUndisturbed(s, t, x);
    case Doomed(_, _) => DoomedUndisturbed(s, t, x);
    case Enqueue(_, _, _) => EnqueueUndisturbed(s, t, x);
    case Return(_, _) => ReturnUndisturbed(s, t, x);
  }

  lemma StepUndisturbed(s: State, step: Step, x: Addr)
    requires Inv(s) && Enabled(s, step) && Parked(s, x) && !Unregisters(s, step, x) && !Detaches(s, step, x)
    ensures Undisturbed(s, Apply(s, step), x)
  {
    hide Inv, Go, OracleOk, Addressable, Plausible, PlanFree, AddLive, MakeRequest, Route, ClassFor;
    if step.Advance? {
      AdvanceUndisturbed(s, step.t, step.oracle, x);
    }
  }

  /** The step takes `x` off the registry: the second half of its own free. */
  predicate Unregisters(s: State, step: Step, x: Addr) {
    step.Advance? && PcOf(s.pcs, step.t).Freeing? && PcOf(s.pcs, step.t).b == x
  }

  /** The step is the owner's drain of the bucket that holds `x`. */
  predicate Detaches(s: State, step: Step, x: Addr) {
    step.Advance? && DetachedBy(s, step.t, x)
  }

  /** No step of the run takes `x` off the registry. */
  ghost predicate Spares(s: State, steps: seq<Step>, x: Addr)
    decreases |steps|
  {
    steps != [] ==> !Unregisters(s, steps[0], x) && Spares(Apply(s, steps[0]), steps[1..], x)
  }

  /** Over any run that does not free it, a live object keeps its header: mode, owner,
      sizes and mapping are those of its allocation, whatever modes are switched to and
      whatever other threads do. */
  lemma {:induction false} LiveHeaderIsStable(s: State, steps: seq<Step>, s': State, x: Addr)
    requires Inv(s) && Runs(s, steps, s') && Registered(s, x) && Spares(s, steps, x)
    ensures Undisturbed(s, s', x)
    decreases |steps|
  {
    hide Inv, Enabled, Apply;
    if steps != [] {
      StepKeeps(s, steps[0]);
      StepUndisturbed(s, steps[0], x);
      LiveHeaderIsStable(Apply(s, steps[0]), steps[1..], s', x);
    }
  }
}
