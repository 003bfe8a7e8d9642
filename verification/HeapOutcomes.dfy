/** What the steps of an operation achieve, told by mode, size and alignment: where a call
    enters, when an allocation succeeds, and what becomes of a freed block. */
module HeapOutcomes {
  import opened Types
  import opened Policy
  import opened Options
  import opened Geometry
  import opened Places
  import opened HeapState
  import opened HeapSteps
  import opened HeapRemote
  import opened HeapLive
  import opened HeapReclaim
  import opened HeapSafety
  import opened HeapRequests
  import opened HeapBuckets
  import opened HeapProgress

  // ---- Entering an operation ----------------------------------------------------------------------------

  /** The requests that get a mapping of their own. */
  predicate GoesDirect(mode: Mode, size: nat, alignment: nat) {
    alignment > 16 || size > MEDIUM_MAX || IsolatesObject(mode, size)
  }

  /** An allocation is under way as it was planned: the request is the one its mode makes of
      size and alignment, and it is served from a mapping of its own or from the tightest class. */
  ghost predicate Planned(t: Tid, pc: Pc) {
    CallOf(pc).Some? ==>
      var req, src := CallOf(pc).value.req, CallOf(pc).value.src;
      && req == MakeRequest(req.size, req.alignment, req.mode, t, src != 0)
      && (pc.MapNew? ==> GoesDirect(req.mode, req.size, req.alignment))
      && (Drains(pc) ==> req.drainRemote)
      && (ClassOf(pc).Some? ==>
            && !GoesDirect(req.mode, req.size, req.alignment)
            && Tightest(ClassOf(pc).value, req.size)
            && (ClassOf(pc).value.storage.SizeClass? <==> req.size <= SMALL_MAX))
  }

  ghost predicate AllPlanned(s: State) {
    forall t :: t in s.pcs ==> Planned(t, s.pcs[t])
  }

  /** Where an allocation of the given size, alignment and mode stands after its entry. */
  ghost predicate Entered(pc: Pc, t: Tid, size: nat, alignment: nat, mode: Mode, src: Addr) {
    && (pc.Begin? || pc.MapNew?)
    && (pc.MapNew? <==> GoesDirect(mode, size, alignment))
    && pc.req.size == size && pc.req.alignment == alignment && pc.req.mode == mode && pc.src == src
    && Planned(t, pc)
  }

  lemma EntryIsPlanned(s: State, t: Tid, size: nat, alignment: nat, mode: Mode, src: Addr)
    ensures Entered(PcOf(StartAlloc(s, t, size, alignment, mode, src).pcs, t), t, size, alignment, mode, src)
  {
    hide MakeRequest, Route, ClassFor, Tightest;
    RouteIsDecidedBySize(mode, size, alignment, t, src != 0);
    RoutedClassIsTightest(mode, size, alignment, t, src != 0);
    RequestEchoes(size, alignment, mode, t, src != 0);
  }

  /** `malloc` and `memalign` always enter an allocation, for a mapping of its own or for the
      tightest class. */
  lemma MallocEnters(s: State, t: Tid, size: nat, alignment: nat)
    ensures Entered(PcOf(Apply(s, Malloc(t, size, alignment)).pcs, t), t, size, alignment, s.active, 0)
  {
    hide StartAlloc, Entered;
    EntryIsPlanned(s, t, size, alignment, s.active, 0);
  }

  /** A live object on a page the page table holds, which no operation works on. */
  ghost predicate Findable(s: State, b: Addr) {
    b in s.objs && b in s.places.place && s.places.place[b] == Registry && PageKey(b + HEADER) in s.stored
  }

  lemma FoundExactly(s: State, b: Addr)
    requires Inv(s) && Addressable(s, b)
    ensures HeaderFromUser(s, b).Some? <==> Findable(s, b)
  {
    hide Core, EmptiesOk, Plausible;
    if b in s.objs && PageKey(b + HEADER) in s.stored {
      HeaderExactlyWhenLive(s, b);
      PlacedExactly(s, b);
    }
  }

  lemma PlacedExactly(s: State, b: Addr)
    requires Core(s)
    ensures b in s.objs <==> b in s.places.place
  {
    hide RegionsOk, StoredOk, PoolsOk, PcsOk, LiveCountsOk, ObjectsOk, PagesOk, HandsOk, WellPlaced, BucketsOk,
         CachesOk, LiveGaugeOk, MapGaugeOk, PendingOk, CountedOk, MapCountedOk, LocOk;
  }

  /** `realloc` of a live object stays in place exactly when its usable size covers the new
      size; otherwise it enters an allocation of the new size, 16-aligned, under the mode of
      the object.  For anything else it does nothing. */
  lemma ReallocEnters(s: State, t: Tid, b: Addr, size: nat)
    requires Inv(s) && Enabled(s, Realloc(t, b, size))
    ensures var s' := Apply(s, Realloc(t, b, size)); var pc := PcOf(s'.pcs, t);
            if Findable(s, b) then
              && (pc.Idle? <==> size <= s.objs[b].usable)
              && (pc.Idle? ==> s' == s)
              && (!pc.Idle? ==> Entered(pc, t, size, 16, s.objs[b].mode, b))
            else s' == s
  {
    hide Inv, StartAlloc, Entered, Addressable, HeaderFromUser;
    FoundExactly(s, b);
    if Findable(s, b) {
      HeaderIs(s, b);
      EntryIsPlanned(s, t, size, 16, s.objs[b].mode, b);
      EnteredNotIdle(PcOf(StartAlloc(s, t, size, 16, s.objs[b].mode, b).pcs, t), t, size, 16, s.objs[b].mode, b);
    }
  }

  lemma HeaderIs(s: State, b: Addr)
    ensures HeaderFromUser(s, b).Some? ==> HeaderFromUser(s, b) == Some(b)
  {
    hide Plausible;
  }

  lemma EnteredNotIdle(pc: Pc, t: Tid, size: nat, alignment: nat, mode: Mode, src: Addr)
    requires Entered(pc, t, size, alignment, mode, src)
    ensures !pc.Idle?
  {
    hide Planned;
  }

  /** `free` of a live object starts to free that object; of anything else it does nothing. */
  lemma FreeEnters(s: State, t: Tid, b: Addr)
    requires Inv(s) && Enabled(s, FreeAt(t, b))
    ensures var s' := Apply(s, FreeAt(t, b)); var pc := PcOf(s'.pcs, t);
            if Findable(s, b) then pc.Freeing? && pc.b == b else s' == s
  {
    hide Inv, Addressable, HeaderFromUser, PlanFree, AddLive;
    FoundExactly(s, b);
  }

  // ---- Plans are kept --------------------------------------------------------------------------------------

  lemma OnwardIsPlanned(t: Tid, pc: Pc, pc': Pc)
    requires Planned(t, pc) && Onward(pc, pc')
    ensures Planned(t, pc')
  {
    hide MakeRequest, Tightest, Rank;
  }

  lemma StepPlanned(s: State, step: Step)
    requires Inv(s) && AllPlanned(s) && Enabled(s, step)
    ensures AllPlanned(Apply(s, step))
  {
    hide Inv, Apply, Enabled, Onward, Planned;
    var s' := Apply(s, step);
    forall t | t in s'.pcs ensures Planned(t, s'.pcs[t]) {
      if PcOf(s.pcs, t).Idle? {
        IdleStep(s, step, t);
      } else {
        StepOnward(s, step, t);
        if step.Advance? && step.t == t {
          OnwardIsPlanned(t, s.pcs[t], s'.pcs[t]);
        }
      }
    }
  }

  lemma IdleStep(s: State, step: Step, t: Tid)
    requires Inv(s) && Enabled(s, step) && PcOf(s.pcs, t).Idle?
    ensures Planned(t, PcOf(Apply(s, step).pcs, t))
  {
    hide Inv, Planned, Addressable, OracleOk, StartAlloc, StartFree, Go, HeaderFromUser;
    NothingPlanned(t);
    if step.SwitchMode? || step.t != t {
      OthersKeepPc(s, step, t);
    } else {
      match step
      case Malloc(_, size, alignment) =>
        MallocEnters(s, t, size, alignment);
      case Realloc(_, b, size) =>
        ReallocEnters(s, t, b, size);
      case FreeAt(_, b) =>
        FreeEnters(s, t, b);
        FreeingPlanned(t, PcOf(Apply(s, step).pcs, t));
      case Advance(_, oracle) =>
        StaysIdle(s, t, oracle);
    }
  }

  lemma NothingPlanned(t: Tid)
    ensures Planned(t, Idle)
  {
  }

  lemma FreeingPlanned(t: Tid, pc: Pc)
    ensures pc.Freeing? ==> Planned(t, pc)
  {
  }

  lemma StaysIdle(s: State, t: Tid, oracle: Oracle)
    requires PcOf(s.pcs, t).Idle?
    ensures Go(s, t, oracle) == s
  {
  }

  lemma {:induction false} RunPlanned(s: State, steps: seq<Step>, s': State)
    requires Inv(s) && AllPlanned(s) && Runs(s, steps, s')
    ensures AllPlanned(s')
    decreases |steps|
  {
    hide Inv, Apply, Enabled, AllPlanned;
    if steps != [] {
      StepKeeps(s, steps[0]);
      StepPlanned(s, steps[0]);
      RunPlanned(Apply(s, steps[0]), steps[1..], s');
    }
  }

  /** In every reachable state every allocation under way is as planned. */
  lemma ReachableIsPlanned(s: State)
    requires Reachable(s)
    ensures AllPlanned(s)
  {
    hide Inv, Planned;
    var cfg, mode, steps :| ValidConfig(cfg) && Runs(Init(cfg, mode), steps, s);
    InitIsOk(cfg, mode);
    RunPlanned(Init(cfg, mode), steps, s);
  }

  // ---- Looking for a block ------------------------------------------------------------------------------------

  lemma RequestFields(t: Tid, pc: Pc, c: Class)
    requires Planned(t, pc) && CallOf(pc).Some?
    ensures var req := CallOf(pc).value.req;
            && (req.threadCache <==> UsesBins(req.mode)) && (req.drainRemote <==> req.mode.CrossThreadMessage?)
            && (req.packing <==> Packs(req.mode)) && (req.redzone <==> req.mode.HardenedDebug?)
            && (req.threadCache ==> req.batch == Batch(req.mode))
            && CacheLimit(c, req.smallLimit, req.mediumLimit) == BinLimit(req.mode, c.storage)
            && (Drains(pc) ==> req.mode.CrossThreadMessage?)
  {
    hide PlanAllocate, PlanFree, BinLimit, Batch, Tightest, CacheLimit;
    var req := CallOf(pc).value.req;
    PlansAgree(Config(0, 0, 0), req.mode, req.size, req.alignment, c.storage, c);
  }

  /** An allocation from a class looks into the thread's bin exactly in the modes with bins,
      and drains remote frees before that exactly in the cross-thread mode, if any wait. */
  lemma BeginLeads(s: State, t: Tid)
    requires t in s.pcs && s.pcs[t].Begin? && Planned(t, s.pcs[t])
    ensures var mode, pc := s.pcs[t].req.mode, PcOf(GoBegin(s, t, s.pcs[t]).pcs, t);
            && (pc.Central? <==> !UsesBins(mode))
            && (pc.Scan? <==> mode.CrossThreadMessage? && s.pending > 0)
            && (pc.Pop? <==> UsesBins(mode) && !(mode.CrossThreadMessage? && s.pending > 0))
            && (pc.Scan? ==> pc.k == 0)
  {
    hide Planned;
    RequestFields(t, s.pcs[t], s.pcs[t].cls);
  }

  /** The thread's bin serves the request exactly when it is not empty, with the block cached
      last; only the cross-thread mode looks at its bucket before going to the pool. */
  lemma PopTakes(s: State, t: Tid)
    requires Inv(s) && t in s.pcs && s.pcs[t].Pop? && Planned(t, s.pcs[t])
    ensures var pc := s.pcs[t]; var s' := GoPop(s, t, pc);
            var bin, pc' := At(s.places, Cache(t, pc.cls)), PcOf(s'.pcs, t);
            && (pc'.Fresh? <==> bin != [])
            && (pc'.Fresh? ==> pc'.b == bin[0] && At(s'.places, Cache(t, pc.cls)) == bin[1..])
            && (pc'.Scan? <==> bin == [] && pc.req.mode.CrossThreadMessage? && !pc.again)
            && (pc'.Central? <==> bin == [] && !(pc.req.mode.CrossThreadMessage? && !pc.again))
  {
    hide Core, EmptiesOk, Planned, Finalized, Move;
    var pc := s.pcs[t];
    var bin := At(s.places, Cache(t, pc.cls));
    RequestFields(t, pc, pc.cls);
    if bin != [] {
      CachedBlock(s, t, pc.cls, bin[0]);
      PlacesAreWell(s);
      MoveWellPlaced(s.places, bin[0], Hand(t));
      FirstGone(bin);
    }
  }

  lemma FirstGone(xs: seq<Addr>)
    requires xs != []
    ensures Without(xs, xs[0]) == xs[1..]
  {
  }

  /** One turn of the drain: the first detached block goes to the bin of its class, unless 64
      have gone, none is left, or that bin holds 96 small or 24 medium blocks. */
  lemma DrainTurns(s: State, t: Tid)
    requires Inv(s) && t in s.pcs && s.pcs[t].Drain? && Planned(t, s.pcs[t])
    ensures var pc := s.pcs[t]; var s' := GoDrain(s, t, pc);
            var xs, pc' := At(s.places, Detached(t)), PcOf(s'.pcs, t);
            if xs == [] then pc'.Pop? && s'.places == s.places
            else
              && xs[0] in s.objs && s.objs[xs[0]].page in s.pages
              && var c := s.pages[s.objs[xs[0]].page].cls;
                 if pc.n < 64 && |At(s.places, Cache(t, c))| < (if c.storage.SizeClass? then 96 else 24) then
                   && pc'.Tick? && pc'.n == pc.n + 1 && At(s'.places, Detached(t)) == xs[1..]
                   && At(s'.places, Cache(t, c)) == [xs[0]] + At(s.places, Cache(t, c))
                 else pc'.PutBack? && pc'.bucket == pc.bucket && s'.places == s.places
  {
    hide Core, EmptiesOk, Planned, Cleared, Move;
    var pc := s.pcs[t];
    var xs := At(s.places, Detached(t));
    if xs != [] {
      DetachedHead(s, t);
      var c := s.pages[s.objs[xs[0]].page].cls;
      RequestFields(t, pc, c);
      PlacesAreWell(s);
      MoveWellPlaced(s.places, xs[0], Cache(t, c));
      FirstGone(xs);
    }
  }

  /** What was not drained goes back in front of the bucket it came from. */
  lemma PutBackReturns(s: State, t: Tid)
    requires Inv(s) && t in s.pcs && s.pcs[t].PutBack?
    ensures var i := s.pcs[t].bucket; var s' := GoPutBack(s, t, s.pcs[t]);
            && At(s'.places, Queue(i)) == At(s.places, Detached(t)) + At(s.places, Queue(i))
            && At(s'.places, Detached(t)) == [] && PcOf(s'.pcs, t).Pop?
  {
    hide Core, EmptiesOk, Splice;
    PlacesAreWell(s);
    SpliceWellPlaced(s.places, Detached(t), Queue(s.pcs[t].bucket));
  }

  // ---- A mapping of its own ---------------------------------------------------------------------------------

  /** What a direct object needs: header, payload, redzone and alignment slack. */
  function DirectTotal(mode: Mode, size: nat, alignment: nat): nat {
    HEADER + DirectUsable(size) + (if mode.HardenedDebug? then REDZONE else 0)
    + (if alignment > 16 then alignment else 0)
  }

  lemma Rounded(size: nat)
    ensures DirectUsable(size) % 16 == 0
    ensures size <= DirectUsable(size) < (if size == 0 then 1 else size) + 16
  {
    AlignUpFacts(if size == 0 then 1 else size, 16);
  }

  lemma FirstAligned(base: Addr, alignment: nat)
    ensures base <= DirectHeader(base, alignment) < base + if alignment > 16 then alignment else 1
  {
    if alignment > 16 {
      AlignUpFacts(base + HEADER, alignment);
    }
  }

  /** The step yields an object exactly when the system maps the region and the size, rounded
      up to a page, fits in a word; otherwise nothing changes.  The object has the mapping to
      itself, the least number of pages that holds it, and lies at the first place in it that
      has the alignment. */
  lemma MapNewSucceeds(s: State, t: Tid, oracle: Oracle)
    requires Inv(s) && t in s.pcs && s.pcs[t].MapNew? && Planned(t, s.pcs[t])
    requires OracleOk(s.regions, oracle, Wanted(s, t))
    ensures var req := s.pcs[t].req;
            var total := DirectTotal(req.mode, req.size, req.alignment);
            var s' := GoMapNew(s, t, s.pcs[t], oracle); var pc := PcOf(s'.pcs, t);
            && (pc.Fresh? <==> oracle.Maps? && total + PAGE_SIZE - 1 < WORD)
            && (!pc.Fresh? ==> pc.Idle? && s' == SetPc(s, t, Idle))
            && (pc.Fresh? ==>
                  && pc.b in s'.objs && oracle.base in s'.regions
                  && var o := s'.objs[pc.b];
                     && o.base == oracle.base && !o.pooled && (o.redzone <==> req.mode.HardenedDebug?)
                     && o.usable == DirectUsable(req.size) && o.usable % 16 == 0
                     && req.size <= o.usable < (if req.size == 0 then 1 else req.size) + 16
                     && o.base <= pc.b < o.base + (if req.alignment > 16 then req.alignment else 1)
                     && total <= o.mapped < total + PAGE_SIZE && o.mapped % PAGE_SIZE == 0
                     && s'.regions[oracle.base] == Region(o.mapped, req.mode, pc.b)
                     && forall k :: k in oracle.kept ==> k in s'.stored)
  {
    hide Core, EmptiesOk, Planned, DirectBytes, DirectUsable, DirectHeader, Admit;
    var pc := s.pcs[t];
    QuietThread(s, t);
    RequestFields(t, pc, Class(SizeClass, 0));
    Rounded(pc.req.size);
    if oracle.Maps? {
      FirstAligned(oracle.base, pc.req.alignment);
    }
    DirectBytesExact(pc.req.size, pc.req.alignment, pc.req.redzone);
  }
}
