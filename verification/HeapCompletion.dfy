/** Whole calls, under any interleaving: an allocation ends with an object whenever the system
    maps what it asks for, and a free ends with the object gone. */
module HeapCompletion {
  import opened Types
  import opened Policy
  import opened Options
  import opened Geometry
  import opened Places
  import opened HeapState
  import opened HeapSteps
  import opened HeapRemote
  import opened HeapLive
  import opened HeapReclaim
  import opened HeapSafety
  import opened HeapRequests
  import opened HeapFrames
  import opened HeapProgress
  import opened HeapTheorems
  import opened HeapOutcomes
  import opened HeapReleases
  import PoolRuns

  // ---- The configuration never changes --------------------------------------------------------------------

  lemma SearchConfig(s: State, t: Tid, pc: Pc)
    ensures pc.Begin? ==> GoBegin(s, t, pc).cfg == s.cfg
    ensures pc.Scan? ==> GoScan(s, t, pc).cfg == s.cfg
    ensures pc.Drain? ==> GoDrain(s, t, pc).cfg == s.cfg
    ensures pc.Tick? ==> GoTick(s, t, pc).cfg == s.cfg
    ensures pc.PutBack? ==> GoPutBack(s, t, pc).cfg == s.cfg
    ensures pc.Pop? ==> GoPop(s, t, pc).cfg == s.cfg
  {
    hide Move, Splice, At, Slot, CacheLimit, Cleared, Finalized;
  }

  lemma ObjectConfig(s: State, t: Tid, pc: Pc, oracle: Oracle)
    ensures pc.MapNew? ==> GoMapNew(s, t, pc, oracle).cfg == s.cfg
    ensures pc.Fresh? ==> GoFresh(s, t, pc).cfg == s.cfg
    ensures pc.Note? ==> GoNote(s, t, pc).cfg == s.cfg
  {
    hide Move, Admit, AddLive, AddMapped, PlanFree, DirectBytes, DirectHeader, DirectObject;
  }

  lemma FreeConfig(s: State, t: Tid, pc: Pc)
    ensures pc.Freeing? ==> GoFreeing(s, t, pc).cfg == s.cfg
    ensures pc.Doomed? ==> GoDoomed(s, t, pc).cfg == s.cfg
    ensures pc.Enqueue? ==> GoEnqueue(s, t, pc).cfg == s.cfg
  {
    hide Move, Evict, AddMapped, KeysOf, At, Slot, CacheLimit, Cleared, Queued;
  }

  lemma CentralConfig(s: State, t: Tid, pc: Pc, oracle: Oracle)
    requires pc.Central?
    ensures GoCentral(s, t, pc, oracle).cfg == s.cfg
  {
    hide TakeFrom, SelectPage, Capacity, Admit, Layout, KeysOf, AddMapped;
    match SelectPage(s, pc.cls, pc.req.packing)
    case Some(p) =>
      if p in s.pages {
        TakeFromFrame(s, t, pc.req, pc.cls, pc.src, p);
      }
    case None =>
      if Capacity(PageBytes(s.cfg, pc.cls), pc.cls) > 0 && oracle.Maps? {
        TakeFromFrame(AddPage(s, pc.cls, pc.req.mode, oracle.base, oracle.kept), t, pc.req, pc.cls, pc.src,
                      oracle.base);
      }
  }

  lemma ReturnConfig(s: State, t: Tid)
    requires Inv(s) && t in s.pcs && s.pcs[t].Return?
    ensures GoReturn(s, t, s.pcs[t]).cfg == s.cfg
  {
    hide Core, EmptiesOk, Give, ReleasePage, ReleaseEmpty;
    var pc := s.pcs[t];
    GiveCore(s, t);
    GiveChanges(s, t, pc.b);
    var given := Give(s, t, pc.b);
    var c := s.pages[s.objs[pc.b].page].cls;
    ReleaseEmptyKeeps(given, c, 0);
    ReleaseEmptyKeeps(given, c, pc.dec.keep);
    ReleaseKeepsConfig(given, s.objs[pc.b].page);
  }

  lemma StepConfig(s: State, step: Step)
    requires Inv(s) && Enabled(s, step)
    ensures Apply(s, step).cfg == s.cfg
  {
    hide Inv, GoBegin, GoScan, GoDrain, GoTick, GoPutBack, GoPop, GoCentral, GoMapNew, GoFresh, GoNote, GoFreeing,
         GoDoomed, GoEnqueue, GoReturn, Addressable, OracleOk, MakeRequest, Route, ClassFor, AddLive, PlanFree,
         Plausible;
    if step.Advance? {
      var pc := s.pcs[step.t];
      SearchConfig(s, step.t, pc);
      ObjectConfig(s, step.t, pc, step.oracle);
      FreeConfig(s, step.t, pc);
      if pc.Central? {
        CentralConfig(s, step.t, pc, step.oracle);
      } else if pc.Return? {
        ReturnConfig(s, step.t);
      }
    }
  }

  // ---- Allocations succeed ----------------------------------------------------------------------------------

  /** Nothing in the request itself rules it out: a direct object fits in a word, and the
      largest medium class, for sizes above 64512, is not kept in spans of 64 KiB. */
  predicate CanServe(cfg: Config, mode: Mode, size: nat, alignment: nat) {
    if GoesDirect(mode, size, alignment) then DirectTotal(mode, size, alignment) + PAGE_SIZE - 1 < WORD
    else !(size > 64512 && cfg.spanSize == 65536)
  }

  /** Whenever thread `t` asks the system for memory, it gets it. */
  ghost predicate SystemServes(steps: seq<Step>, t: Tid) {
    forall i :: 0 <= i < |steps| && steps[i].Advance? && steps[i].t == t ==> steps[i].oracle.Maps?
  }

  /** The allocation is under way and can be served. */
  ghost predicate Underway(cfg: Config, t: Tid, pc: Pc) {
    && CallOf(pc).Some? && Planned(t, pc)
    && var req := CallOf(pc).value.req; CanServe(cfg, req.mode, req.size, req.alignment)
  }

  /** It then never fails: a step of the thread leads to another point of the allocation. */
  lemma NeverFails(s: State, t: Tid, oracle: Oracle)
    requires Inv(s) && t in s.pcs && Underway(s.cfg, t, s.pcs[t]) && !s.pcs[t].Note?
    requires oracle.Maps? && OracleOk(s.regions, oracle, Wanted(s, t))
    ensures CallOf(PcOf(Go(s, t, oracle).pcs, t)).Some?
  {
    hide Core, EmptiesOk, GoBegin, GoScan, GoDrain, GoTick, GoPutBack, GoPop, GoCentral, GoMapNew, GoFresh, DirectTotal,
         OracleOk, Tightest;
    var pc := s.pcs[t];
    StillTrying(s, t, pc);
    if pc.Scan? {
      StillScanning(s, t, pc);
    } else if pc.Drain? {
      StillDraining(s, t, pc);
    } else if pc.Central? {
      LargestBySize(pc.cls, pc.req.size);
      CentralSucceeds(s, t, oracle);
    } else if pc.MapNew? {
      MapNewSucceeds(s, t, oracle);
    } else if pc.Fresh? {
      HeldBlock(s, t);
      ObjectOnward(s, t, pc);
    }
  }

  lemma LargestBySize(c: Class, size: nat)
    requires Tightest(c, size)
    ensures c == Class(Span, MEDIUM_CLASSES - 1) ==> size > 64512
  {
  }

  lemma InCall(pc: Pc)
    requires pc.Scan? || pc.Drain? || pc.Tick? || pc.PutBack? || pc.Pop? || pc.Central? || pc.Fresh?
    ensures CallOf(pc).Some?
  {
  }

  lemma StillScanning(s: State, t: Tid, pc: Pc)
    requires pc.Scan?
    ensures CallOf(PcOf(GoScan(s, t, pc).pcs, t)).Some?
  {
    hide Splice, At, Slot, CallOf;
    InCall(PcOf(GoScan(s, t, pc).pcs, t));
  }

  lemma StillDraining(s: State, t: Tid, pc: Pc)
    requires pc.Drain?
    ensures CallOf(PcOf(GoDrain(s, t, pc).pcs, t)).Some?
  {
    hide Move, At, CacheLimit, Cleared, CallOf;
    InCall(PcOf(GoDrain(s, t, pc).pcs, t));
  }

  lemma StillTrying(s: State, t: Tid, pc: Pc)
    ensures pc.Begin? ==> CallOf(PcOf(GoBegin(s, t, pc).pcs, t)).Some?
    ensures pc.Tick? ==> CallOf(PcOf(GoTick(s, t, pc).pcs, t)).Some?
    ensures pc.PutBack? ==> CallOf(PcOf(GoPutBack(s, t, pc).pcs, t)).Some?
    ensures pc.Pop? ==> CallOf(PcOf(GoPop(s, t, pc).pcs, t)).Some?
  {
    hide Move, Splice, At, Finalized;
  }

  lemma StepUnderway(s: State, step: Step, t: Tid)
    requires Inv(s) && Enabled(s, step) && Underway(s.cfg, t, PcOf(s.pcs, t)) && !PcOf(s.pcs, t).Note?
    requires step.Advance? && step.t == t ==> step.oracle.Maps?
    ensures Underway(s.cfg, t, PcOf(Apply(s, step).pcs, t))
  {
    hide Inv, Go, Onward, Planned, CanServe, OracleOk, Addressable, StartAlloc, StartFree, Plausible, Wanted;
    var pc, pc' := PcOf(s.pcs, t), PcOf(Apply(s, step).pcs, t);
    StepOnward(s, step, t);
    if step.Advance? && step.t == t {
      NeverFails(s, t, step.oracle);
      OnwardIsPlanned(t, pc, pc');
      OnwardCalls(pc, pc');
    }
  }

  lemma OnwardCalls(pc: Pc, pc': Pc)
    requires Onward(pc, pc') && CallOf(pc').Some?
    ensures CallOf(pc') == CallOf(pc)
  {
  }

  /** Thread `t` goes through the run up to some point in its allocation, and there it has just
      registered the new object. */
  ghost predicate Completes(s: State, steps: seq<Step>, t: Tid) {
    exists k, s1 :: 0 <= k <= |steps| && CompletesAt(s, steps, t, k, s1)
  }

  ghost predicate CompletesAt(s: State, steps: seq<Step>, t: Tid, k: nat, s1: State) {
    && k <= |steps| && Runs(s, steps[..k], s1) && StaysInAllocation(s, steps[..k], t)
    && t in s1.pcs && s1.pcs[t].Note?
  }

  lemma {:induction false} AllocationCompletes(s: State, steps: seq<Step>, s': State, t: Tid)
    requires Inv(s) && Runs(s, steps, s') && Underway(s.cfg, t, PcOf(s.pcs, t)) && SystemServes(steps, t)
    requires OwnSteps(steps, t) + 261 >= Rank(PcOf(s.pcs, t))
    ensures Completes(s, steps, t)
    decreases |steps|
  {
    hide Inv, Apply, Enabled, Planned, CanServe, Rank, Onward;
    var pc := PcOf(s.pcs, t);
    if pc.Note? {
      assert steps[..0] == [];
      assert CompletesAt(s, steps, t, 0, s);
    } else {
      NotYetNote(pc);
      assert steps != [];
      assert steps[0].Advance? && steps[0].t == t ==> steps[0].oracle.Maps?;
      StepOnward(s, steps[0], t);
      StepUnderway(s, steps[0], t);
      StepKeeps(s, steps[0]);
      StepConfig(s, steps[0]);
      OnwardRank(pc, PcOf(Apply(s, steps[0]).pcs, t));
      AllocationCompletes(Apply(s, steps[0]), steps[1..], s', t);
      var k, s1 :| 0 <= k <= |steps| - 1 && CompletesAt(Apply(s, steps[0]), steps[1..], t, k, s1);
      OneEarlier(s, steps, t, k, s1);
    }
  }

  lemma OnwardRank(pc: Pc, pc': Pc)
    ensures Onward(pc, pc') ==> Rank(pc') < Rank(pc)
  {
  }

  lemma NotYetNote(pc: Pc)
    requires CallOf(pc).Some? && !pc.Note?
    ensures Rank(pc) > 261
  {
  }

  lemma OneEarlier(s: State, steps: seq<Step>, t: Tid, k: nat, s1: State)
    requires steps != [] && k < |steps| && Enabled(s, steps[0]) && CallOf(PcOf(s.pcs, t)).Some?
    requires CompletesAt(Apply(s, steps[0]), steps[1..], t, k, s1)
    ensures CompletesAt(s, steps, t, k + 1, s1)
  {
    hide Apply, Enabled;
    assert steps[..k + 1][0] == steps[0] && steps[..k + 1][1..] == steps[1..][..k];
  }

  /** Every `malloc` and `memalign` that can be served, and for which the system maps what is
      asked of it, has its object registered after at most 780 steps of its own thread, under
      any interleaving: with room for the size, at the alignment asked for. */
  lemma MallocSucceeds(s: State, start: Step, steps: seq<Step>, s': State)
    requires Inv(s) && Enabled(s, start) && start.Malloc? && CanServe(s.cfg, s.active, start.size, start.alignment)
    requires Runs(Apply(s, start), steps, s') && SystemServes(steps, start.t) && OwnSteps(steps, start.t) >= 780
    ensures exists k, s1 :: && CompletesAt(Apply(s, start), steps, start.t, k, s1)
                            && Registered(s1, s1.pcs[start.t].b)
                            && Delivered(s1.pcs[start.t].b, s1.objs[s1.pcs[start.t].b], start, s.active)
  {
    hide Inv, Apply, Enabled, CanServe, Runs, Rank, SystemServes, OwnSteps;
    MallocEnters(s, start.t, start.size, start.alignment);
    CallCompletes(s, start, steps, s', start.alignment, s.active, 0);
    var k, s1 :| 0 <= k <= |steps| && CompletesAt(Apply(s, start), steps, start.t, k, s1);
    NothingMore(s1, s1.pcs[start.t].b);
    ObjectIsAsAskedFor(s, start, steps[..k], s1, [], s1);
  }

  /** The object a call asked for. */
  predicate Delivered(b: Addr, o: Object, start: Step, mode: Mode)
    requires start.Malloc?
  {
    && o.requested == start.size <= o.usable && o.mode == mode && o.owner == start.t
    && (b + HEADER) % (if start.alignment > 16 then start.alignment else 16) == 0
  }

  lemma NothingMore(s: State, b: Addr)
    ensures Runs(s, [], s) && Spares(s, [], b)
  {
  }

  lemma CallCompletes(s: State, start: Step, steps: seq<Step>, s': State, alignment: nat, mode: Mode, src: Addr)
    requires Inv(s) && Enabled(s, start) && (start.Malloc? || start.Realloc?)
    requires CanServe(s.cfg, mode, start.size, alignment)
    requires Entered(PcOf(Apply(s, start).pcs, start.t), start.t, start.size, alignment, mode, src)
    requires Runs(Apply(s, start), steps, s') && SystemServes(steps, start.t) && OwnSteps(steps, start.t) >= 780
    ensures Completes(Apply(s, start), steps, start.t)
  {
    hide Inv, Apply, Enabled, CanServe, Runs, Rank, Completes, SystemServes, Planned, OwnSteps;
    StepKeeps(s, start);
    StepConfig(s, start);
    var pc := PcOf(Apply(s, start).pcs, start.t);
    RankBound(pc);
    AllocationCompletes(Apply(s, start), steps, s', start.t);
  }

  /** So does every `realloc` that has to grow: it ends with the new object, or was answered in
      place. */
  lemma ReallocSucceeds(s: State, start: Step, steps: seq<Step>, s': State)
    requires Inv(s) && Enabled(s, start) && start.Realloc? && Findable(s, start.b)
    requires start.size > s.objs[start.b].usable && CanServe(s.cfg, s.objs[start.b].mode, start.size, 16)
    requires Runs(Apply(s, start), steps, s') && SystemServes(steps, start.t) && OwnSteps(steps, start.t) >= 780
    ensures Completes(Apply(s, start), steps, start.t)
  {
    hide Inv, Apply, CanServe, Runs, Rank, Completes, SystemServes, Entered, OwnSteps;
    ReallocEnters(s, start.t, start.b, start.size);
    CallCompletes(s, start, steps, s', 16, s.objs[start.b].mode, start.b);
  }

  // ---- Frees succeed --------------------------------------------------------------------------------------------

  /** There is no live object at `b`. */
  predicate Gone(s: State, b: Addr) {
    b in s.objs ==> !s.objs[b].live
  }

  lemma ListedIsGone(s: State, b: Addr, l: Loc)
    requires Core(s) && b in At(s.places, l) && (l.Free? || l.Cache? || l.Queue?)
    ensures Gone(s, b)
  {
    hide RegionsOk, StoredOk, PoolsOk, PcsOk, LiveCountsOk, ObjectsOk, PagesOk, HandsOk, BucketsOk,
         CachesOk, LiveGaugeOk, MapGaugeOk, PendingOk, CountedOk, MapCountedOk;
    if b in s.objs {
      assert LocOk(s.places.place[b], s.objs[b], s.pages, s.owners);
    }
  }

  lemma {:induction false} ReclaimHeaders(s: State, c: Class, keep: nat, b: Addr)
    ensures var s' := ReleaseEmpty(s, c, keep); b in s'.objs ==> b in s.objs && s'.objs[b] == s.objs[b]
    decreases |PoolOf(s.pool, c)|
  {
    var xs := PoolOf(s.pool, c);
    if CountEmpty(xs, s.pages) > keep && FirstEmpty(xs, s.pages).Some? {
      var p := FirstEmpty(xs, s.pages).value;
      FirstEmptyIsListed(xs, s.pages);
      WithoutShorter(xs, p);
      if s.pages[p].cls == c {
        ReclaimHeaders(ReleasePage(s, p), c, keep, b);
      }
    }
  }

  lemma ReturnHeader(s: State, t: Tid)
    requires Inv(s) && t in s.pcs && s.pcs[t].Return?
    ensures var b := s.pcs[t].b; var s' := GoReturn(s, t, s.pcs[t]);
            && b in s.objs
            && (b in s'.objs ==> s'.objs[b].pooled && s'.objs[b].page == s.objs[b].page)
  {
    hide Core, EmptiesOk, Move, ReleaseEmpty, CountEmpty, PlanFree, Evict, KeysOf, AddMapped;
    var pc := s.pcs[t];
    PageOfBlock(s, t);
    var given := Give(s, t, pc.b);
    var c := s.pages[s.objs[pc.b].page].cls;
    ReclaimHeaders(given, c, 0, pc.b);
    ReclaimHeaders(given, c, pc.dec.keep, pc.b);
  }

  lemma ReturnedIsGone(s: State, t: Tid)
    requires Inv(s) && t in s.pcs && s.pcs[t].Return? && Inv(GoReturn(s, t, s.pcs[t]))
    ensures Gone(GoReturn(s, t, s.pcs[t]), s.pcs[t].b)
  {
    hide Core, EmptiesOk, GoReturn, PoolRuns.Elsewhere, Trimmed;
    ReturnReclaims(s, t);
    ReturnHeader(s, t);
    var b := s.pcs[t].b;
    var s' := GoReturn(s, t, s.pcs[t]);
    var p := s.objs[b].page;
    if b in s'.objs {
      PooledHasPage(s', b);
      assert b in At(s'.places, Free(p));
      ListedIsGone(s', b, Free(p));
    }
  }

  lemma PooledHasPage(s: State, b: Addr)
    requires Core(s) && b in s.objs && s.objs[b].pooled
    ensures s.objs[b].page in s.pages
  {
    hide RegionsOk, StoredOk, PoolsOk, PcsOk, LiveCountsOk, PagesOk, HandsOk, BucketsOk, WellPlaced, StatusOk,
         CachesOk, LiveGaugeOk, MapGaugeOk, PendingOk, CountedOk, MapCountedOk;
    assert ObjectOk(b, s.objs[b], s.pages, s.regions);
  }

  lemma SortedIsGone(s: State, t: Tid)
    requires Inv(s) && t in s.pcs && s.pcs[t].Doomed? && Inv(GoDoomed(s, t, s.pcs[t]))
    ensures var s' := GoDoomed(s, t, s.pcs[t]); PcOf(s'.pcs, t).Idle? ==> Gone(s', s.pcs[t].b)
  {
    hide Core, EmptiesOk, GoDoomed, At, BinLimit;
    DecisionIs(s, t);
    var b := s.pcs[t].b;
    var s' := GoDoomed(s, t, s.pcs[t]);
    if s.objs[b].pooled {
      PooledIsSorted(s, t);
      var c := s.pages[s.objs[b].page].cls;
      if PcOf(s'.pcs, t).Idle? {
        assert b in At(s'.places, Cache(t, c));
        ListedIsGone(s', b, Cache(t, c));
      }
    } else {
      DirectIsUnmapped(s, t);
    }
  }

  lemma QueuedIsGone(s: State, t: Tid)
    requires Inv(s) && t in s.pcs && s.pcs[t].Enqueue? && Inv(GoEnqueue(s, t, s.pcs[t]))
    ensures var s' := GoEnqueue(s, t, s.pcs[t]); PcOf(s'.pcs, t).Idle? ==> Gone(s', s.pcs[t].b)
  {
    hide Core, EmptiesOk, GoEnqueue, At, Slot;
    QueueProbe(s, t);
    var b := s.pcs[t].b;
    var s' := GoEnqueue(s, t, s.pcs[t]);
    var i := Slot(s.objs[b].owner, s.pcs[t].k);
    if PcOf(s'.pcs, t).Idle? {
      assert b in At(s'.places, Queue(i));
      ListedIsGone(s', b, Queue(i));
    }
  }

  /** A step of a free goes on with the same block or ends with it gone. */
  lemma FreeGoesOn(s: State, t: Tid, oracle: Oracle)
    requires Inv(s) && t in s.pcs && FreedBy(s.pcs[t]).Some? && OracleOk(s.regions, oracle, Wanted(s, t))
    ensures var b := s.pcs[t].b; var s' := Go(s, t, oracle); var pc := PcOf(s'.pcs, t);
            FreedBy(pc) == Some(b) || (pc.Idle? && Gone(s', b))
  {
    hide Inv, GoFreeing, GoDoomed, GoEnqueue, GoReturn, Gone, OracleOk, Wanted, Rank;
    var pc := s.pcs[t];
    AdvanceKeeps(s, t, oracle);
    OwnStep(s, t, oracle);
    match pc
    case Freeing(_, _) => FreeingGoesOn(s, t);
    case Doomed(_, _) => SortedIsGone(s, t); DoomedGoesOn(s, t);
    case Enqueue(_, _, _) => QueuedIsGone(s, t); QueueProbe(s, t);
    case Return(_, _) => ReturnedIsGone(s, t);
  }

  lemma FreeingGoesOn(s: State, t: Tid)
    requires Inv(s) && t in s.pcs && s.pcs[t].Freeing?
    ensures PcOf(GoFreeing(s, t, s.pcs[t]).pcs, t) == Doomed(s.pcs[t].b, s.pcs[t].dec)
  {
    hide Core, EmptiesOk, PlanFree, Move;
    QuietThread(s, t);
    assert s.pcs[t].b in Claims(s.pcs[t]);
    RegisteredBlock(s, s.pcs[t].b);
  }

  lemma DoomedGoesOn(s: State, t: Tid)
    requires Inv(s) && t in s.pcs && s.pcs[t].Doomed?
    ensures var pc := PcOf(GoDoomed(s, t, s.pcs[t]).pcs, t); pc.Idle? || FreedBy(pc) == Some(s.pcs[t].b)
  {
    hide Core, EmptiesOk, GoDoomed, At, BinLimit;
    DecisionIs(s, t);
    if s.objs[s.pcs[t].b].pooled {
      PooledIsSorted(s, t);
    } else {
      DirectIsUnmapped(s, t);
    }
  }

  /** Thread `t` frees block `b` up to some state of the run in which the operation is over and
      the object gone. */
  ghost predicate EndsFree(s: State, steps: seq<Step>, t: Tid, b: Addr)
    decreases |steps|
  {
    || (PcOf(s.pcs, t).Idle? && Gone(s, b))
    || (FreedBy(PcOf(s.pcs, t)) == Some(b) && steps != [] && EndsFree(Apply(s, steps[0]), steps[1..], t, b))
  }

  lemma {:induction false} FreeCompletes(s: State, steps: seq<Step>, s': State, t: Tid, b: Addr)
    requires Inv(s) && Runs(s, steps, s') && FreedBy(PcOf(s.pcs, t)) == Some(b)
    requires OwnSteps(steps, t) >= Rank(PcOf(s.pcs, t))
    ensures EndsFree(s, steps, t, b)
    decreases |steps|
  {
    hide Inv, Enabled, Rank, Onward, Gone, Go, StartAlloc, StartFree, HeaderFromUser;
    var pc := PcOf(s.pcs, t);
    RankBound(pc);
    var s1 := Apply(s, steps[0]);
    StepOnward(s, steps[0], t);
    StepKeeps(s, steps[0]);
    OnwardRank(pc, PcOf(s1.pcs, t));
    if steps[0].Advance? && steps[0].t == t {
      EnabledAdvance(s, t, steps[0].oracle);
      FreeGoesOn(s, t, steps[0].oracle);
    }
    if FreedBy(PcOf(s1.pcs, t)) == Some(b) {
      FreeCompletes(s1, steps[1..], s', t, b);
    }
  }

  lemma EnabledAdvance(s: State, t: Tid, oracle: Oracle)
    requires Enabled(s, Advance(t, oracle))
    ensures t in s.pcs && OracleOk(s.regions, oracle, Wanted(s, t))
  {
  }

  /** Every `free` of a live object has the object gone, off the registry and with a dead header
      or none, after at most 260 steps of its own thread, under any interleaving. */
  lemma FreeSucceeds(s: State, start: Step, steps: seq<Step>, s': State)
    requires Inv(s) && Enabled(s, start) && start.FreeAt? && Findable(s, start.b)
    requires Runs(Apply(s, start), steps, s') && OwnSteps(steps, start.t) >= 260
    ensures EndsFree(Apply(s, start), steps, start.t, start.b)
  {
    hide Inv, Apply, Enabled, Runs, EndsFree, OwnSteps, Findable;
    FreeEnters(s, start.t, start.b);
    StepKeeps(s, start);
    FreeCompletes(Apply(s, start), steps, s', start.t, start.b);
  }
}
