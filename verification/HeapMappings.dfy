/** Nothing the allocator has mapped is lost: in every reachable state each mapping is a pool
    page or that of one direct object. */
module HeapMappings {
  import opened Types
  import opened Policy
  import opened Geometry
  import opened Places
  import opened HeapState
  import opened HeapSteps
  import opened HeapRemote
  import opened HeapLive
  import opened HeapPool
  import opened HeapPages
  import opened HeapReclaim
  import opened HeapSafety
  import opened HeapTheorems

  /** The mapping at `r` is a pool page, or holds a direct object. */
  ghost predicate Owned(s: State, r: Addr)
    requires r in s.regions
  {
    || r in s.pages
    || (var h := s.regions[r].holder; h in s.objs && !s.objs[h].pooled && s.objs[h].base == r)
  }

  ghost predicate AllOwned(s: State) {
    forall r :: r in s.regions ==> Owned(s, r)
  }

  /** A direct object is still there, in its mapping. */
  ghost predicate StillDirect(objs: map<Addr, Object>, objs': map<Addr, Object>, b: Addr) {
    b in objs && !objs[b].pooled ==> b in objs' && !objs'[b].pooled && objs'[b].base == objs[b].base
  }

  ghost predicate KeepsOwners(s: State, s': State) {
    && s'.regions == s.regions && s.pages.Keys <= s'.pages.Keys
    && forall b :: StillDirect(s.objs, s'.objs, b)
  }

  lemma KeptOwned(s: State, s': State)
    requires AllOwned(s) && KeepsOwners(s, s')
    ensures AllOwned(s')
  {
    forall r | r in s'.regions ensures Owned(s', r) {
      assert Owned(s, r);
      assert StillDirect(s.objs, s'.objs, s.regions[r].holder);
    }
  }

  // ---- Steps that map and unmap nothing -------------------------------------------------------------------

  lemma RelocateKeepsOwners(s: State, t: Tid, b: Addr, to: Loc, o: Object, pc: Pc)
    requires b in s.places.place && b in s.objs
    requires s.objs[b].pooled || (!o.pooled && o.base == s.objs[b].base)
    ensures KeepsOwners(s, Relocate(s, t, b, to, o, pc))
  {
    hide Move;
  }

  lemma SearchOwned(s: State, t: Tid)
    requires t in s.pcs
    ensures var pc := s.pcs[t];
            && (pc.Begin? ==> KeepsOwners(s, GoBegin(s, t, pc)))
            && (pc.Scan? ==> KeepsOwners(s, GoScan(s, t, pc)))
            && (pc.Tick? ==> KeepsOwners(s, GoTick(s, t, pc)))
            && (pc.PutBack? ==> KeepsOwners(s, GoPutBack(s, t, pc)))
  {
    hide Splice, At, Slot;
  }

  lemma DrainOwned(s: State, t: Tid)
    requires Inv(s) && t in s.pcs && s.pcs[t].Drain?
    ensures KeepsOwners(s, GoDrain(s, t, s.pcs[t]))
  {
    hide Core, EmptiesOk, Relocate, At, CacheLimit;
    var xs := At(s.places, Detached(t));
    if xs != [] {
      DetachedHead(s, t);
      var c := s.pages[s.objs[xs[0]].page].cls;
      var pc := s.pcs[t];
      RelocateKeepsOwners(s, t, xs[0], Cache(t, c), Cleared(s.objs[xs[0]]),
                          Tick(pc.req, pc.cls, pc.src, pc.again, pc.bucket, pc.n + 1));
    }
  }

  lemma PopOwned(s: State, t: Tid)
    requires Inv(s) && t in s.pcs && s.pcs[t].Pop?
    ensures KeepsOwners(s, GoPop(s, t, s.pcs[t]))
  {
    hide Core, EmptiesOk, Relocate, At, Finalized;
    var pc := s.pcs[t];
    var xs := At(s.places, Cache(t, pc.cls));
    if xs != [] {
      CachedBlock(s, t, pc.cls, xs[0]);
      RelocateKeepsOwners(s, t, xs[0], Hand(t), Finalized(s.objs[xs[0]], pc.req, pc.cls),
                          Fresh(pc.req, pc.src, xs[0]));
    }
  }

  lemma ObjectOwned(s: State, t: Tid)
    requires t in s.pcs
    ensures var pc := s.pcs[t];
            && (pc.Fresh? ==> KeepsOwners(s, GoFresh(s, t, pc)))
            && (pc.Freeing? ==> KeepsOwners(s, GoFreeing(s, t, pc)))
  {
    hide Relocate;
    var pc := s.pcs[t];
    if (pc.Fresh? || pc.Freeing?) && pc.b in s.objs && pc.b in s.places.place {
      if pc.Fresh? {
        RelocateKeepsOwners(s, t, pc.b, Registry, s.objs[pc.b], Note(pc.req, pc.src, pc.b));
      } else {
        RelocateKeepsOwners(s, t, pc.b, Hand(t), s.objs[pc.b], Doomed(pc.b, pc.dec));
      }
    }
  }

  lemma StartFreeOwners(s: State, t: Tid, b: Addr)
    ensures KeepsOwners(s, StartFree(s, t, b))
  {
    hide AddLive, PlanFree;
  }

  lemma NoteOwned(s: State, t: Tid)
    requires t in s.pcs && s.pcs[t].Note?
    ensures KeepsOwners(s, GoNote(s, t, s.pcs[t]))
  {
    hide AddLive, AddMapped, StartFree;
    var pc := s.pcs[t];
    if pc.b in s.objs {
      var o := s.objs[pc.b];
      var mapped := if o.pooled then s
                    else s.(gauges := AddMapped(s.gauges, pc.req.mode, o.mapped),
                            mapCounted := s.mapCounted + {o.base});
      var noted := mapped.(gauges := AddLive(mapped.gauges, o.mode, o.usable), counted := s.counted + {pc.b},
                           pcs := s.pcs[t := Idle]);
      StartFreeOwners(noted, t, pc.src);
    }
  }

  lemma EnqueueOwned(s: State, t: Tid)
    requires t in s.pcs && s.pcs[t].Enqueue?
    ensures KeepsOwners(s, GoEnqueue(s, t, s.pcs[t]))
  {
    hide Move, Slot;
  }

  // ---- Mapping -----------------------------------------------------------------------------------------------

  lemma {:induction false} RefillOwners(s: State, t: Tid, p: Addr, c: Class, limit: nat, budget: nat)
    requires p in s.pages
    ensures KeepsOwners(s, Refill(s, t, p, c, limit, budget))
    decreases budget
  {
    hide Move, At;
    var xs := At(s.places, Free(p));
    if !(xs == [] || |At(s.places, Cache(t, c))| >= limit || budget == 0 || xs[0] !in s.places.place
         || xs[0] !in s.objs) {
      var s1 := Take(s, t, p, xs[0], Cache(t, c), s.objs[xs[0]].(owner := 0), PcOf(s.pcs, t));
      RefillOwners(s1, t, p, c, limit, budget - 1);
      KeepsBoth(s, s1, Refill(s1, t, p, c, limit, budget - 1));
    }
  }

  lemma KeepsBoth(s: State, s1: State, s2: State)
    requires KeepsOwners(s, s1) && KeepsOwners(s1, s2)
    ensures KeepsOwners(s, s2)
  {
    forall b ensures StillDirect(s.objs, s2.objs, b) {
      assert StillDirect(s.objs, s1.objs, b) && StillDirect(s1.objs, s2.objs, b);
    }
  }

  lemma TakeFromOwners(s: State, t: Tid, p: Addr)
    requires Core(s) && t in s.pcs && s.pcs[t].Central? && p in s.pages && At(s.places, Free(p)) != []
    ensures var pc := s.pcs[t]; KeepsOwners(s, TakeFrom(s, t, pc.req, pc.cls, pc.src, p))
  {
    hide Core, Move, Refill, At, Finalized, KeepsOwners, CacheLimit;
    var pc := s.pcs[t];
    FreeHead(s, p);
    var b := At(s.places, Free(p))[0];
    var taken := Take(s, t, p, b, Hand(t), Finalized(s.objs[b], pc.req, pc.cls), Fresh(pc.req, pc.src, b));
    TakenOwners(s, t, p, b, Finalized(s.objs[b], pc.req, pc.cls), Fresh(pc.req, pc.src, b));
    if pc.req.batch > 1 {
      var limit := CacheLimit(pc.cls, pc.req.smallLimit, pc.req.mediumLimit);
      RefillOwners(taken, t, p, pc.cls, limit, pc.req.batch - 1);
      KeepsBoth(s, taken, Refill(taken, t, p, pc.cls, limit, pc.req.batch - 1));
    }
  }

  lemma TakenOwners(s: State, t: Tid, p: Addr, b: Addr, o: Object, pc: Pc)
    requires p in s.pages && b in s.places.place && b in s.objs && s.objs[b].pooled
    ensures KeepsOwners(s, Take(s, t, p, b, Hand(t), o, pc))
  {
    hide Move;
  }

  lemma AddPageOwned(s: State, t: Tid, oracle: Oracle)
    requires Inv(s) && AllOwned(s) && t in s.pcs && s.pcs[t].Central? && oracle.Maps?
    requires OracleOk(s.regions, oracle, PageBytes(s.cfg, s.pcs[t].cls))
    requires Capacity(PageBytes(s.cfg, s.pcs[t].cls), s.pcs[t].cls) > 0
    ensures var pc := s.pcs[t]; AllOwned(AddPage(s, pc.cls, pc.req.mode, oracle.base, oracle.kept))
  {
    hide Core, EmptiesOk, Capacity, Layout, Admit;
    var pc := s.pcs[t];
    QuietThread(s, t);
    NewBlocksFresh(s, pc.cls, oracle.base, oracle.kept);
    var s' := AddPage(s, pc.cls, pc.req.mode, oracle.base, oracle.kept);
    forall r | r in s'.regions ensures Owned(s', r) {
      if r != oracle.base {
        assert Owned(s, r);
      }
    }
  }

  lemma CentralOwned(s: State, t: Tid, oracle: Oracle)
    requires Inv(s) && AllOwned(s) && t in s.pcs && s.pcs[t].Central?
    requires OracleOk(s.regions, oracle, PageBytes(s.cfg, s.pcs[t].cls))
    ensures AllOwned(GoCentral(s, t, s.pcs[t], oracle))
  {
    hide Core, EmptiesOk, TakeFrom, Capacity, AddPage, SelectPage, AllOwned, KeepsOwners, At;
    var pc := s.pcs[t];
    SelectPageFacts(s, pc.cls, pc.req.packing);
    match SelectPage(s, pc.cls, pc.req.packing)
    case Some(p) =>
      TakeFromOwners(s, t, p);
      KeptOwned(s, TakeFrom(s, t, pc.req, pc.cls, pc.src, p));
    case None =>
      if Capacity(PageBytes(s.cfg, pc.cls), pc.cls) > 0 && oracle.Maps? {
        NewPageReady(s, t, oracle);
        AddPageOwned(s, t, oracle);
        var s1 := AddPage(s, pc.cls, pc.req.mode, oracle.base, oracle.kept);
        TakeFromOwners(s1, t, oracle.base);
        KeptOwned(s1, TakeFrom(s1, t, pc.req, pc.cls, pc.src, oracle.base));
      } else {
        SetPcOwned(s, t);
      }
  }

  lemma SetPcOwned(s: State, t: Tid)
    requires AllOwned(s)
    ensures AllOwned(SetPc(s, t, Idle))
  {
    KeptOwned(s, SetPc(s, t, Idle));
  }

  lemma MapNewOwned(s: State, t: Tid, oracle: Oracle)
    requires Inv(s) && AllOwned(s) && t in s.pcs && s.pcs[t].MapNew? && OracleOk(s.regions, oracle, Wanted(s, t))
    ensures AllOwned(GoMapNew(s, t, s.pcs[t], oracle))
  {
    hide Core, EmptiesOk, DirectBytes, DirectHeader, Admit;
    var pc := s.pcs[t];
    QuietThread(s, t);
    var bytes := DirectBytes(pc.req.size, pc.req.alignment, pc.req.redzone);
    if bytes.Some? && oracle.Maps? {
      MappedHeader(s, t, pc.req, pc.src, bytes.value, oracle.base, oracle.kept);
      var s' := AddDirect(s, t, pc.req, pc.src, bytes.value, oracle.base, oracle.kept);
      forall r | r in s'.regions ensures Owned(s', r) {
        if r != oracle.base {
          assert Owned(s, r);
        }
      }
    } else {
      SetPcOwned(s, t);
    }
  }

  // ---- Unmapping -----------------------------------------------------------------------------------------------

  lemma DoomedOwned(s: State, t: Tid)
    requires Inv(s) && AllOwned(s) && t in s.pcs && s.pcs[t].Doomed?
    ensures AllOwned(GoDoomed(s, t, s.pcs[t]))
  {
    hide Core, EmptiesOk, At, CacheLimit, Relocate, DropDirect, KeepsOwners, AllOwned, PlanFree;
    var pc := s.pcs[t];
    HeldBlock(s, t);
    var o := s.objs[pc.b];
    if o.pooled {
      PooledPage(s, pc.b);
      var c := s.pages[o.page].cls;
      RelocateKeepsOwners(s, t, pc.b, Cache(t, c), Cleared(o), Idle);
      KeptOwned(s, Relocate(s, t, pc.b, Cache(t, c), Cleared(o), Idle));
      PcOwned(s, t, Enqueue(pc.b, pc.dec, 0));
      PcOwned(s, t, Return(pc.b, pc.dec));
    } else {
      RelocateKeepsOwners(s, t, pc.b, Quarantine, o.(live := false), Idle);
      KeptOwned(s, Relocate(s, t, pc.b, Quarantine, o.(live := false), Idle));
      DropOwned(s, t, pc.b);
    }
  }

  lemma PcOwned(s: State, t: Tid, pc: Pc)
    requires AllOwned(s)
    ensures AllOwned(SetPc(s, t, pc))
  {
    KeptOwned(s, SetPc(s, t, pc));
  }

  lemma DropOwned(s: State, t: Tid, b: Addr)
    requires AllOwned(s) && b in s.objs
    ensures AllOwned(DropDirect(s, t, b))
  {
    hide Evict, KeysOf, AddMapped;
    var s' := DropDirect(s, t, b);
    forall r | r in s'.regions ensures Owned(s', r) {
      assert Owned(s, r);
    }
  }

  lemma ReleaseOwned(s: State, p: Addr)
    requires AllOwned(s) && p in s.pages
    ensures AllOwned(ReleasePage(s, p))
  {
    hide Evict, KeysOf, AddMapped, Without;
    var s' := ReleasePage(s, p);
    forall r | r in s'.regions ensures Owned(s', r) {
      assert Owned(s, r);
    }
  }

  lemma {:induction false} ReclaimOwned(s: State, c: Class, keep: nat)
    requires AllOwned(s)
    ensures AllOwned(ReleaseEmpty(s, c, keep))
    decreases |PoolOf(s.pool, c)|
  {
    hide AllOwned;
    var xs := PoolOf(s.pool, c);
    if CountEmpty(xs, s.pages) > keep && FirstEmpty(xs, s.pages).Some? {
      var p := FirstEmpty(xs, s.pages).value;
      FirstEmptyIsListed(xs, s.pages);
      WithoutShorter(xs, p);
      if s.pages[p].cls == c {
        ReleaseOwned(s, p);
        ReclaimOwned(ReleasePage(s, p), c, keep);
      }
    }
  }

  lemma GiveOwned(s: State, t: Tid, b: Addr)
    requires AllOwned(s) && b in s.places.place && b in s.objs && s.objs[b].page in s.pages
    ensures AllOwned(Give(s, t, b))
  {
    hide Move;
    KeptOwned(s, Give(s, t, b));
  }

  lemma ReturnOwned(s: State, t: Tid)
    requires Inv(s) && AllOwned(s) && t in s.pcs && s.pcs[t].Return?
    ensures AllOwned(GoReturn(s, t, s.pcs[t]))
  {
    hide Core, EmptiesOk, Give, ReleasePage, ReleaseEmpty, AllOwned;
    var pc := s.pcs[t];
    GiveCore(s, t);
    GiveOwned(s, t, pc.b);
    var given := Give(s, t, pc.b);
    var p := s.objs[pc.b].page;
    var c := s.pages[p].cls;
    GiveChanges(s, t, pc.b);
    ReclaimOwned(given, c, 0);
    ReclaimOwned(given, c, pc.dec.keep);
    ReleaseOwned(given, p);
  }

  // ---- Runs ----------------------------------------------------------------------------------------------------

  lemma AdvanceOwned(s: State, t: Tid, oracle: Oracle)
    requires Inv(s) && AllOwned(s) && t in s.pcs && OracleOk(s.regions, oracle, Wanted(s, t))
    ensures AllOwned(Go(s, t, oracle))
  {
    hide Inv, AllOwned, KeepsOwners, GoBegin, GoScan, GoDrain, GoTick, GoPutBack, GoPop, GoCentral, GoMapNew, GoFresh,
         GoNote, GoFreeing, GoDoomed, GoEnqueue, GoReturn, OracleOk;
    var pc := s.pcs[t];
    SameOwners(s);
    SearchOwned(s, t);
    ObjectOwned(s, t);
    match pc
    case Central(_, _, _) => CentralOwned(s, t, oracle);
    case MapNew(_, _) => MapNewOwned(s, t, oracle);
    case Doomed(_, _) => DoomedOwned(s, t);
    case Return(_, _) => ReturnOwned(s, t);
    case Drain(_, _, _, _, _, _) => DrainOwned(s, t); KeptOwned(s, Go(s, t, oracle));
    case Pop(_, _, _, _) => PopOwned(s, t); KeptOwned(s, Go(s, t, oracle));
    case Note(_, _, _) => NoteOwned(s, t); KeptOwned(s, Go(s, t, oracle));
    case Enqueue(_, _, _) => EnqueueOwned(s, t); KeptOwned(s, Go(s, t, oracle));
    case _ => KeptOwned(s, Go(s, t, oracle));
  }

  lemma SameOwners(s: State)
    ensures KeepsOwners(s, s)
  {
  }

  lemma EntryOwners(s: State, step: Step)
    requires !step.Advance?
    ensures KeepsOwners(s, Apply(s, step))
  {
    hide StartAlloc, StartFree, Plausible, KeepsOwners;
    SameOwners(s);
    match step
    case SwitchMode(_) => SwitchOwners(s, step.mode);
    case Malloc(t, size, alignment) => StartAllocOwners(s, t, size, alignment, s.active, 0);
    case Realloc(t, b, size) =>
      if b in s.objs {
        StartAllocOwners(s, t, size, 16, s.objs[b].mode, b);
      }
    case FreeAt(t, b) => StartFreeOwners(s, t, b);
  }

  lemma SwitchOwners(s: State, mode: Mode)
    ensures KeepsOwners(s, s.(active := mode))
  {
  }

  lemma StartAllocOwners(s: State, t: Tid, size: nat, alignment: nat, mode: Mode, src: Addr)
    ensures KeepsOwners(s, StartAlloc(s, t, size, alignment, mode, src))
  {
    hide MakeRequest, Route, ClassFor;
  }

  lemma {:induction false} RunOwned(s: State, steps: seq<Step>, s': State)
    requires Inv(s) && AllOwned(s) && Runs(s, steps, s')
    ensures AllOwned(s')
    decreases |steps|
  {
    hide Inv, Apply, AllOwned, OracleOk, Wanted, Addressable;
    if steps != [] {
      StepKeeps(s, steps[0]);
      StepOwned(s, steps[0]);
      RunOwned(Apply(s, steps[0]), steps[1..], s');
    }
  }

  lemma StepOwned(s: State, step: Step)
    requires Inv(s) && AllOwned(s) && Enabled(s, step)
    ensures AllOwned(Apply(s, step))
  {
    hide Inv, AllOwned, KeepsOwners, OracleOk, Wanted, Addressable, Go, StartAlloc, StartFree, Plausible;
    if step.Advance? {
      AdvanceOwned(s, step.t, step.oracle);
    } else {
      EntryOwners(s, step);
      KeptOwned(s, Apply(s, step));
    }
  }

  /** In every reachable state a mapping belongs to the allocator exactly if it is a pool page or
      that of a direct object: one that is live or in a thread's hand, or in quarantine. */
  lemma NoMappingIsLost(s: State, r: Addr)
    requires Reachable(s)
    ensures r in s.regions <==> r in s.pages || exists b :: b in s.objs && !s.objs[b].pooled && s.objs[b].base == r
  {
    hide Core, EmptiesOk, Owned;
    var cfg, mode, steps :| ValidConfig(cfg) && Runs(Init(cfg, mode), steps, s);
    InitIsOk(cfg, mode);
    RunOwned(Init(cfg, mode), steps, s);
    ReachableIsOk(s);
    if r in s.regions {
      OwnerIs(s, r);
    }
    if r in s.pages {
      PageRegion(s, r);
    }
    if b :| b in s.objs && !s.objs[b].pooled && s.objs[b].base == r {
      DirectOfCore(s, b);
    }
  }

  lemma OwnerIs(s: State, r: Addr)
    requires r in s.regions && Owned(s, r)
    ensures r in s.pages || exists b :: b in s.objs && !s.objs[b].pooled && s.objs[b].base == r
  {
  }
}
