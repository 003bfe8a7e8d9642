/** Operations end.  Each step of a thread brings it nearer to the end of its operation,
    whatever the other threads do in between, and an allocation goes on as it was planned. */
module HeapProgress {
  import opened Types
  import opened Policy
  import opened Options
  import opened Geometry
  import opened Places
  import opened HeapState
  import opened HeapSteps
  import opened HeapRemote
  import opened HeapReclaim
  import opened HeapSafety
  import opened HeapRequests
  import opened HeapBuckets

  // ---- How far an operation is from its end -------------------------------------------------------------

  /** Steps left at the entry of the drain loop after `n` blocks. */
  function DrainsLeft(n: nat): nat {
    if n < DRAIN_LIMIT then 2 * (DRAIN_LIMIT - n) else 0
  }

  /** Steps left when a bin is looked at for the first or the second time. */
  function PopRank(again: bool): nat {
    if again then 264 else 653
  }

  /** An upper bound on the steps a thread still has to take. */
  function Rank(pc: Pc): nat {
    match pc
    case Idle => 0
    case Return(_, _) => 1
    case Enqueue(_, _, k) => if k < BUCKETS then 2 + BUCKETS - k else 2
    case Doomed(_, _) => 259
    case Freeing(_, _) => 260
    case Note(_, _, _) => 261
    case Fresh(_, _, _) => 262
    case Central(_, _, _) => 263
    case MapNew(_, _) => 263
    case Pop(_, _, _, again) => PopRank(again)
    case PutBack(_, _, _, again, _) => PopRank(again) + 1
    case Drain(_, _, _, again, _, n) => PopRank(again) + 2 + DrainsLeft(n)
    case Tick(_, _, _, again, _, n) => PopRank(again) + 3 + DrainsLeft(n)
    case Scan(_, _, _, again, k) => PopRank(again) + 131 + if k < BUCKETS then BUCKETS - k else 0
    case Begin(_, _, _) => LONGEST
  }

  /** No operation takes more steps. */
  const LONGEST: nat := 1041

  lemma RankBound(pc: Pc)
    ensures Rank(pc) <= LONGEST
    ensures Rank(pc) == 0 <==> pc.Idle?
  {
  }

  function ClassOf(pc: Pc): Option<Class> {
    match pc
    case Begin(_, c, _) => Some(c)
    case Scan(_, c, _, _, _) => Some(c)
    case Drain(_, c, _, _, _, _) => Some(c)
    case Tick(_, c, _, _, _, _) => Some(c)
    case PutBack(_, c, _, _, _) => Some(c)
    case Pop(_, c, _, _) => Some(c)
    case Central(_, c, _) => Some(c)
    case _ => None
  }

  /** The block being freed. */
  function FreedBy(pc: Pc): Option<Addr> {
    if pc.Freeing? || pc.Doomed? || pc.Enqueue? || pc.Return? then Some(pc.b) else None
  }

  /** The thread is at work on remote frees. */
  predicate Drains(pc: Pc) {
    pc.Scan? || Draining(pc)
  }

  /** One step of the thread itself: nearer to the end, the same call for the same class, the
      same block freed, remote frees drained only for a request that says so; only the end of
      a `realloc` turns from allocating to freeing. */
  predicate Onward(pc: Pc, pc': Pc) {
    && Rank(pc') < Rank(pc)
    && (CallOf(pc').Some? ==> CallOf(pc') == CallOf(pc) && !pc'.Begin? && !pc'.MapNew?)
    && (ClassOf(pc').Some? ==> ClassOf(pc') == ClassOf(pc))
    && (Drains(pc') ==> Drains(pc) || (CallOf(pc).Some? && CallOf(pc).value.req.drainRemote))
    && (FreedBy(pc').Some? ==> FreedBy(pc') == FreedBy(pc) || (pc.Note? && pc.src != 0 && pc'.b == pc.src))
  }

  // ---- One step of the thread itself ----------------------------------------------------------------------

  lemma BeginOnward(s: State, t: Tid, pc: Pc)
    requires pc.Begin?
    ensures Onward(pc, PcOf(GoBegin(s, t, pc).pcs, t))
  {
  }

  lemma FromScan(pc: Pc, i: nat)
    requires pc.Scan?
    ensures Onward(pc, Pop(pc.req, pc.cls, pc.src, pc.again))
    ensures pc.k < BUCKETS ==> Onward(pc, Scan(pc.req, pc.cls, pc.src, pc.again, pc.k + 1))
    ensures Onward(pc, Drain(pc.req, pc.cls, pc.src, pc.again, i, 0))
  {
  }

  lemma ScanOnward(s: State, t: Tid, pc: Pc)
    requires pc.Scan?
    ensures Onward(pc, PcOf(GoScan(s, t, pc).pcs, t))
  {
    hide Splice, At, Slot, Onward;
    FromScan(pc, Slot(t, pc.k));
  }

  lemma FromDrain(pc: Pc)
    requires pc.Drain?
    ensures Onward(pc, Pop(pc.req, pc.cls, pc.src, pc.again))
    ensures Onward(pc, PutBack(pc.req, pc.cls, pc.src, pc.again, pc.bucket))
    ensures pc.n < DRAIN_LIMIT ==> Onward(pc, Tick(pc.req, pc.cls, pc.src, pc.again, pc.bucket, pc.n + 1))
  {
  }

  lemma DrainOnward(s: State, t: Tid, pc: Pc)
    requires pc.Drain?
    ensures Onward(pc, PcOf(GoDrain(s, t, pc).pcs, t))
  {
    hide Move, At, CacheLimit, Cleared, Onward;
    FromDrain(pc);
  }

  lemma TickOnward(s: State, t: Tid, pc: Pc)
    requires pc.Tick?
    ensures Onward(pc, PcOf(GoTick(s, t, pc).pcs, t))
  {
  }

  lemma PutBackOnward(s: State, t: Tid, pc: Pc)
    requires pc.PutBack?
    ensures Onward(pc, PcOf(GoPutBack(s, t, pc).pcs, t))
  {
    hide Splice;
  }

  lemma FromPop(pc: Pc, b: Addr)
    requires pc.Pop?
    ensures Onward(pc, Fresh(pc.req, pc.src, b)) && Onward(pc, Central(pc.req, pc.cls, pc.src))
    ensures !pc.again && pc.req.drainRemote ==> Onward(pc, Scan(pc.req, pc.cls, pc.src, true, 0))
  {
  }

  lemma PopOnward(s: State, t: Tid, pc: Pc)
    requires pc.Pop?
    ensures Onward(pc, PcOf(GoPop(s, t, pc).pcs, t))
  {
    hide Move, At, Finalized, Onward;
    var xs := At(s.places, Cache(t, pc.cls));
    FromPop(pc, if xs == [] then 0 else xs[0]);
  }

  lemma FromCentral(pc: Pc)
    requires pc.Central? || pc.MapNew?
    ensures Onward(pc, Idle) && forall b :: Onward(pc, Fresh(pc.req, pc.src, b))
  {
  }

  lemma TakeOnward(s: State, t: Tid, pc: Pc, p: Addr)
    requires pc.Central? && p in s.pages
    ensures Onward(pc, PcOf(TakeFrom(s, t, pc.req, pc.cls, pc.src, p).pcs, t))
  {
    hide TakeFrom, Onward;
    FromCentral(pc);
    TakeFromFrame(s, t, pc.req, pc.cls, pc.src, p);
  }

  lemma CentralOnward(s: State, t: Tid, pc: Pc, oracle: Oracle)
    requires pc.Central?
    ensures Onward(pc, PcOf(GoCentral(s, t, pc, oracle).pcs, t))
  {
    hide TakeFrom, SelectPage, Capacity, AddPage, Onward, SetPc;
    FromCentral(pc);
    NowAt(s, t, Idle);
    match SelectPage(s, pc.cls, pc.req.packing)
    case Some(p) =>
      if p in s.pages {
        TakeOnward(s, t, pc, p);
      }
    case None =>
      if Capacity(PageBytes(s.cfg, pc.cls), pc.cls) > 0 && oracle.Maps? {
        AddPageFrame(s, pc.cls, pc.req.mode, oracle.base, oracle.kept);
        TakeOnward(AddPage(s, pc.cls, pc.req.mode, oracle.base, oracle.kept), t, pc, oracle.base);
      }
  }

  lemma MapNewOnward(s: State, t: Tid, pc: Pc, oracle: Oracle)
    requires pc.MapNew?
    ensures Onward(pc, PcOf(GoMapNew(s, t, pc, oracle).pcs, t))
  {
    hide DirectBytes, DirectHeader, DirectObject, Admit, Onward;
    FromCentral(pc);
  }

  lemma FromObject(pc: Pc)
    ensures pc.Fresh? ==> Onward(pc, Note(pc.req, pc.src, pc.b))
    ensures pc.Note? ==> Onward(pc, Idle) && (pc.src != 0 ==> forall dec :: Onward(pc, Freeing(pc.src, dec)))
    ensures pc.Freeing? ==> Onward(pc, Doomed(pc.b, pc.dec))
  {
  }

  lemma ObjectOnward(s: State, t: Tid, pc: Pc)
    requires (pc.Fresh? || pc.Note? || pc.Freeing?) ==> pc.b in s.objs && pc.b in s.places.place
    ensures pc.Fresh? ==> Onward(pc, PcOf(GoFresh(s, t, pc).pcs, t)) && PcOf(GoFresh(s, t, pc).pcs, t).Note?
    ensures pc.Note? ==> Onward(pc, PcOf(GoNote(s, t, pc).pcs, t))
    ensures pc.Freeing? ==> Onward(pc, PcOf(GoFreeing(s, t, pc).pcs, t))
  {
    hide Move, AddLive, AddMapped, PlanFree, Onward;
    FromObject(pc);
  }

  lemma FromDoomed(pc: Pc)
    requires pc.Doomed?
    ensures Onward(pc, Enqueue(pc.b, pc.dec, 0)) && Onward(pc, Return(pc.b, pc.dec)) && Onward(pc, Idle)
  {
  }

  lemma DoomedOnward(s: State, t: Tid, pc: Pc)
    requires pc.Doomed? && pc.b in s.objs && pc.b in s.places.place
    ensures Onward(pc, PcOf(GoDoomed(s, t, pc).pcs, t))
  {
    hide Relocate, DropDirect, SetPc, At, CacheLimit, Cleared, Onward;
    FromDoomed(pc);
    NowAt(s, t, Enqueue(pc.b, pc.dec, 0));
    NowAt(s, t, Return(pc.b, pc.dec));
    var o := s.objs[pc.b];
    RelocatePcs(s, t, pc.b, Quarantine, o.(live := false), Idle);
    DropDirectPcs(s, t, pc.b);
    if o.page in s.pages {
      RelocatePcs(s, t, pc.b, Cache(t, s.pages[o.page].cls), Cleared(o), Idle);
    }
  }

  lemma FromEnqueue(pc: Pc)
    requires pc.Enqueue?
    ensures Onward(pc, Return(pc.b, pc.dec)) && Onward(pc, Idle)
    ensures pc.k < BUCKETS ==> Onward(pc, Enqueue(pc.b, pc.dec, pc.k + 1))
  {
  }

  lemma EnqueueOnward(s: State, t: Tid, pc: Pc)
    requires pc.Enqueue? && pc.b in s.objs && pc.b in s.places.place
    ensures Onward(pc, PcOf(GoEnqueue(s, t, pc).pcs, t))
  {
    hide Move, Queued, Slot, Onward;
    FromEnqueue(pc);
  }

  lemma ReturnOnward(s: State, t: Tid, pc: Pc)
    requires pc.Return? && pc.b in s.objs && pc.b in s.places.place && s.objs[pc.b].page in s.pages
    ensures PcOf(GoReturn(s, t, pc).pcs, t).Idle?
  {
    hide ReleaseEmpty, Move, Evict, KeysOf, AddMapped, CountEmpty;
    var given := Give(s, t, pc.b);
    var c := s.pages[s.objs[pc.b].page].cls;
    ReleaseEmptyFrame(given, c, 0);
    ReleaseEmptyFrame(given, c, pc.dec.keep);
  }

  /** Every step of a thread in an operation brings it onward. */
  lemma OwnStep(s: State, t: Tid, oracle: Oracle)
    requires Inv(s) && t in s.pcs && !s.pcs[t].Idle?
    ensures Onward(s.pcs[t], PcOf(Go(s, t, oracle).pcs, t))
  {
    hide Core, EmptiesOk, Onward, GoBegin, GoScan, GoDrain, GoTick, GoPutBack, GoPop, GoCentral, GoMapNew, GoFresh,
         GoNote, GoFreeing, GoDoomed, GoEnqueue, GoReturn, PlanFree;
    var pc := s.pcs[t];
    QuietThread(s, t);
    if Held(pc) != [] {
      HeldBlock(s, t);
    }
    assert pc.Note? || pc.Freeing? ==> pc.b in Claims(pc);
    ObjectOnward(s, t, pc);
    match pc
    case Begin(_, _, _) => BeginOnward(s, t, pc);
    case Scan(_, _, _, _, _) => ScanOnward(s, t, pc);
    case Drain(_, _, _, _, _, _) => DrainOnward(s, t, pc);
    case Tick(_, _, _, _, _, _) => TickOnward(s, t, pc);
    case PutBack(_, _, _, _, _) => PutBackOnward(s, t, pc);
    case Pop(_, _, _, _) => PopOnward(s, t, pc);
    case Doomed(_, _) => DoomedOnward(s, t, pc);
    case Enqueue(_, _, _) => EnqueueOnward(s, t, pc);
    case Central(_, _, _) => CentralOnward(s, t, pc, oracle);
    case MapNew(_, _) => MapNewOnward(s, t, pc, oracle);
    case Return(_, _) =>
      GiveCore(s, t);
      ReturnOnward(s, t, pc);
      ToTheEnd(pc);
    case _ =>
  }

  lemma ToTheEnd(pc: Pc)
    requires !pc.Idle?
    ensures Onward(pc, Idle)
  {
  }

  // ---- Runs -----------------------------------------------------------------------------------------------------

  /** Steps that thread `t` itself takes. */
  function OwnSteps(steps: seq<Step>, t: Tid): nat {
    if steps == [] then 0
    else (if steps[0].Advance? && steps[0].t == t then 1 else 0) + OwnSteps(steps[1..], t)
  }

  /** In some state of the run thread `t` is between operations. */
  ghost predicate ComesToRest(s: State, steps: seq<Step>, t: Tid)
    decreases |steps|
  {
    PcOf(s.pcs, t).Idle? || (steps != [] && ComesToRest(Apply(s, steps[0]), steps[1..], t))
  }

  /** The program point of `t` after a step: its own brings it onward, any other leaves it. */
  lemma StepOnward(s: State, step: Step, t: Tid)
    requires Inv(s) && Enabled(s, step) && !PcOf(s.pcs, t).Idle?
    ensures var pc, pc' := PcOf(s.pcs, t), PcOf(Apply(s, step).pcs, t);
            if step.Advance? && step.t == t then Onward(pc, pc') else pc' == pc
  {
    hide Inv, Go, Onward, Addressable, OracleOk, StartAlloc, StartFree, Plausible;
    if step.SwitchMode? || step.t != t {
      OthersKeepPc(s, step, t);
    } else {
      OnlyAdvances(s, step);
      OwnStep(s, t, step.oracle);
    }
  }

  /** Under any interleaving, an operation is over after at most 1041 steps of its thread. */
  lemma {:induction false} OperationsEnd(s: State, steps: seq<Step>, s': State, t: Tid)
    requires Inv(s) && Runs(s, steps, s') && OwnSteps(steps, t) >= Rank(PcOf(s.pcs, t))
    ensures ComesToRest(s, steps, t)
    decreases |steps|
  {
    hide Inv, Apply, Enabled, Rank;
    RankBound(PcOf(s.pcs, t));
    if !PcOf(s.pcs, t).Idle? {
      StepOnward(s, steps[0], t);
      StepKeeps(s, steps[0]);
      OperationsEnd(Apply(s, steps[0]), steps[1..], s', t);
    }
  }
}
