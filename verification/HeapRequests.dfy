/** An allocation serves the call it started with: the same request, for the same object,
    until it ends, whatever other threads do. */
module HeapRequests {
  import opened Types
  import opened Policy
  import opened Options
  import opened Geometry
  import opened Places
  import opened HeapState
  import opened HeapSteps
  import opened HeapRemote
  import opened HeapSafety
  import opened HeapFrames

  /** What was asked for, and the object to be reallocated (zero for none). */
  datatype Call = Call(req: Request, src: Addr)

  /** The thread is in the middle of serving `call`. */
  predicate Serving(pc: Pc, call: Call) {
    CallOf(pc) == Some(call)
  }

  function CallOf(pc: Pc): Option<Call> {
    match pc
    case Begin(req, _, src) => Some(Call(req, src))
    case Scan(req, _, src, _, _) => Some(Call(req, src))
    case Drain(req, _, src, _, _, _) => Some(Call(req, src))
    case Tick(req, _, src, _, _, _) => Some(Call(req, src))
    case PutBack(req, _, src, _, _) => Some(Call(req, src))
    case Pop(req, _, src, _) => Some(Call(req, src))
    case Central(req, _, src) => Some(Call(req, src))
    case MapNew(req, src) => Some(Call(req, src))
    case Fresh(req, src, _) => Some(Call(req, src))
    case Note(req, src, _) => Some(Call(req, src))
    case _ => None
  }

  // ---- What the pool section and reclaim leave alone -----------------------------------------------------

  /** Same configuration, mappings, page table, bucket owners, headers and pages. */
  ghost predicate SameFrame(s: State, s': State) {
    && s'.cfg == s.cfg && s'.regions == s.regions && s'.stored == s.stored && s'.owners == s.owners
    && s'.objs.Keys == s.objs.Keys && s'.pages.Keys == s.pages.Keys
  }

  lemma {:induction false} RefillFrame(s: State, t: Tid, p: Addr, c: Class, limit: nat, budget: nat)
    requires p in s.pages
    ensures var r := Refill(s, t, p, c, limit, budget);
            SameFrame(s, r) && forall u :: PcOf(r.pcs, u) == PcOf(s.pcs, u)
    decreases budget
  {
    hide Move, At;
    var xs := At(s.places, Free(p));
    if !(xs == [] || |At(s.places, Cache(t, c))| >= limit || budget == 0 || xs[0] !in s.places.place
         || xs[0] !in s.objs) {
      RefillFrame(Take(s, t, p, xs[0], Cache(t, c), s.objs[xs[0]].(owner := 0), PcOf(s.pcs, t)), t, p, c, limit,
                  budget - 1);
    }
  }

  lemma TakeFromFrame(s: State, t: Tid, req: Request, c: Class, src: Addr, p: Addr)
    requires p in s.pages
    ensures var r := TakeFrom(s, t, req, c, src, p);
            && SameFrame(s, r) && (forall u :: u != t ==> PcOf(r.pcs, u) == PcOf(s.pcs, u))
            && (|| PcOf(r.pcs, t).Idle?
                || (PcOf(r.pcs, t).Fresh? && PcOf(r.pcs, t).req == req && PcOf(r.pcs, t).src == src))
  {
    hide Refill, Finalized, Move, At;
    var xs := At(s.places, Free(p));
    if xs != [] && xs[0] in s.places.place && xs[0] in s.objs && req.threadCache && req.batch > 1 {
      var taken := Take(s, t, p, xs[0], Hand(t), Finalized(s.objs[xs[0]], req, c), Fresh(req, src, xs[0]));
      RefillFrame(taken, t, p, c, CacheLimit(c, req.smallLimit, req.mediumLimit), req.batch - 1);
    }
  }

  lemma {:induction false} ReleaseEmptyFrame(s: State, c: Class, keep: nat)
    ensures var r := ReleaseEmpty(s, c, keep);
            r.pcs == s.pcs && r.owners == s.owners && r.objs.Keys <= s.objs.Keys && r.pages.Keys <= s.pages.Keys
    decreases |PoolOf(s.pool, c)|
  {
    var xs := PoolOf(s.pool, c);
    if CountEmpty(xs, s.pages) > keep && FirstEmpty(xs, s.pages).Some? {
      var p := FirstEmpty(xs, s.pages).value;
      FirstEmptyIsListed(xs, s.pages);
      WithoutShorter(xs, p);
      if s.pages[p].cls == c {
        ReleaseEmptyFrame(ReleasePage(s, p), c, keep);
      }
    }
  }

  // ---- Program points ----------------------------------------------------------------------------------------

  /** What a step of thread `t` may do to the program points: nothing to those of others, and
      an allocation goes on serving its call or ends. */
  predicate Serves(pcs: map<Tid, Pc>, pcs': map<Tid, Pc>, t: Tid, u: Tid, call: Call) {
    && (u != t ==> PcOf(pcs', u) == PcOf(pcs, u))
    && (Serving(PcOf(pcs, t), call) ==> CallOf(PcOf(pcs', t)).None? || Serving(PcOf(pcs', t), call))
  }

  lemma SetServes(pcs: map<Tid, Pc>, t: Tid, pc: Pc, u: Tid, call: Call)
    requires CallOf(pc).None? || CallOf(pc) == CallOf(PcOf(pcs, t))
    ensures Serves(pcs, pcs[t := pc], t, u, call)
  {
  }

  lemma RelocatePcs(s: State, t: Tid, b: Addr, to: Loc, o: Object, pc: Pc)
    requires b in s.places.place
    ensures Relocate(s, t, b, to, o, pc).pcs == s.pcs[t := pc]
  {
  }

  lemma DropDirectPcs(s: State, t: Tid, b: Addr)
    requires b in s.objs
    ensures DropDirect(s, t, b).pcs == s.pcs[t := Idle]
  {
  }

  lemma TakeFromServes(s: State, t: Tid, p: Addr, u: Tid, call: Call)
    requires PcOf(s.pcs, t).Central? && p in s.pages
    ensures var pc := PcOf(s.pcs, t); Serves(s.pcs, TakeFrom(s, t, pc.req, pc.cls, pc.src, p).pcs, t, u, call)
  {
    hide TakeFrom;
    var pc := PcOf(s.pcs, t);
    TakeFromFrame(s, t, pc.req, pc.cls, pc.src, p);
  }

  lemma CentralServes(s: State, t: Tid, oracle: Oracle, u: Tid, call: Call)
    requires PcOf(s.pcs, t).Central?
    ensures Serves(s.pcs, GoCentral(s, t, PcOf(s.pcs, t), oracle).pcs, t, u, call)
  {
    hide TakeFrom, SelectPage, Capacity, AddPage, Serves;
    var pc := PcOf(s.pcs, t);
    SetServes(s.pcs, t, Idle, u, call);
    match SelectPage(s, pc.cls, pc.req.packing)
    case Some(p) =>
      if p in s.pages {
        TakeFromServes(s, t, p, u, call);
      }
    case None =>
      if Capacity(PageBytes(s.cfg, pc.cls), pc.cls) > 0 && oracle.Maps? {
        AddPageFrame(s, pc.cls, pc.req.mode, oracle.base, oracle.kept);
        TakeFromServes(AddPage(s, pc.cls, pc.req.mode, oracle.base, oracle.kept), t, oracle.base, u, call);
      }
  }

  lemma AddPageFrame(s: State, c: Class, mode: Mode, base: Addr, kept: set<Addr>)
    ensures var r := AddPage(s, c, mode, base, kept); r.pcs == s.pcs && r.owners == s.owners && base in r.pages
  {
  }

  lemma ReturnServes(s: State, t: Tid, u: Tid, call: Call)
    requires PcOf(s.pcs, t).Return?
    ensures Serves(s.pcs, GoReturn(s, t, PcOf(s.pcs, t)).pcs, t, u, call)
  {
    hide ReleaseEmpty, Move;
    var pc := PcOf(s.pcs, t);
    if pc.b in s.objs && pc.b in s.places.place && s.objs[pc.b].page in s.pages {
      var given := Give(s, t, pc.b);
      var c := s.pages[s.objs[pc.b].page].cls;
      ReleaseEmptyFrame(given, c, 0);
      ReleaseEmptyFrame(given, c, pc.dec.keep);
    }
  }

  lemma BeginServes(s: State, t: Tid, u: Tid, call: Call)
    requires PcOf(s.pcs, t).Begin?
    ensures Serves(s.pcs, GoBegin(s, t, PcOf(s.pcs, t)).pcs, t, u, call)
  {
  }

  lemma ScanServes(s: State, t: Tid, u: Tid, call: Call)
    requires PcOf(s.pcs, t).Scan?
    ensures Serves(s.pcs, GoScan(s, t, PcOf(s.pcs, t)).pcs, t, u, call)
  {
    hide Serves, Splice, At, Slot;
    var pc := PcOf(s.pcs, t);
    SetServes(s.pcs, t, Pop(pc.req, pc.cls, pc.src, pc.again), u, call);
    SetServes(s.pcs, t, Scan(pc.req, pc.cls, pc.src, pc.again, pc.k + 1), u, call);
    SetServes(s.pcs, t, Drain(pc.req, pc.cls, pc.src, pc.again, Slot(t, pc.k), 0), u, call);
  }

  lemma DrainServes(s: State, t: Tid, u: Tid, call: Call)
    requires PcOf(s.pcs, t).Drain?
    ensures Serves(s.pcs, GoDrain(s, t, PcOf(s.pcs, t)).pcs, t, u, call)
  {
    hide Serves, Move, At, CacheLimit, Cleared;
    var pc := PcOf(s.pcs, t);
    var next := PcOf(GoDrain(s, t, pc).pcs, t);
    assert GoDrain(s, t, pc).pcs == s.pcs[t := next];
    SetServes(s.pcs, t, next, u, call);
  }

  lemma TickServes(s: State, t: Tid, u: Tid, call: Call)
    requires PcOf(s.pcs, t).Tick?
    ensures Serves(s.pcs, GoTick(s, t, PcOf(s.pcs, t)).pcs, t, u, call)
  {
  }

  lemma PutBackServes(s: State, t: Tid, u: Tid, call: Call)
    requires PcOf(s.pcs, t).PutBack?
    ensures Serves(s.pcs, GoPutBack(s, t, PcOf(s.pcs, t)).pcs, t, u, call)
  {
  }

  lemma PopServes(s: State, t: Tid, u: Tid, call: Call)
    requires PcOf(s.pcs, t).Pop?
    ensures Serves(s.pcs, GoPop(s, t, PcOf(s.pcs, t)).pcs, t, u, call)
  {
    hide Serves, Move, At, Finalized;
    var pc := PcOf(s.pcs, t);
    var next := PcOf(GoPop(s, t, pc).pcs, t);
    assert GoPop(s, t, pc).pcs == s.pcs[t := next];
    SetServes(s.pcs, t, next, u, call);
  }

  lemma EnqueueServes(s: State, t: Tid, u: Tid, call: Call)
    requires PcOf(s.pcs, t).Enqueue?
    ensures Serves(s.pcs, GoEnqueue(s, t, PcOf(s.pcs, t)).pcs, t, u, call)
  {
    hide Serves, Move, Slot, Queued;
    var pc := PcOf(s.pcs, t);
    var next := PcOf(GoEnqueue(s, t, pc).pcs, t);
    assert GoEnqueue(s, t, pc).pcs == s.pcs[t := next];
    SetServes(s.pcs, t, next, u, call);
  }

  lemma DoomedServes(s: State, t: Tid, u: Tid, call: Call)
    requires PcOf(s.pcs, t).Doomed?
    ensures Serves(s.pcs, GoDoomed(s, t, PcOf(s.pcs, t)).pcs, t, u, call)
  {
    hide Serves, Relocate, DropDirect, CacheLimit, At, Cleared;
    var pc := PcOf(s.pcs, t);
    SetServes(s.pcs, t, Idle, u, call);
    SetServes(s.pcs, t, Enqueue(pc.b, pc.dec, 0), u, call);
    SetServes(s.pcs, t, Return(pc.b, pc.dec), u, call);
    NoChange(s.pcs, t, u, call);
    if pc.b in s.objs && pc.b in s.places.place {
      var o := s.objs[pc.b];
      RelocatePcs(s, t, pc.b, Quarantine, o.(live := false), Idle);
      DropDirectPcs(s, t, pc.b);
      if o.page in s.pages {
        RelocatePcs(s, t, pc.b, Cache(t, s.pages[o.page].cls), Cleared(o), Idle);
      }
    }
  }

  lemma NoChange(pcs: map<Tid, Pc>, t: Tid, u: Tid, call: Call)
    ensures Serves(pcs, pcs, t, u, call)
  {
  }

  lemma MapNewServes(s: State, t: Tid, oracle: Oracle, u: Tid, call: Call)
    requires PcOf(s.pcs, t).MapNew?
    ensures Serves(s.pcs, GoMapNew(s, t, PcOf(s.pcs, t), oracle).pcs, t, u, call)
  {
  }

  lemma FreshServes(s: State, t: Tid, u: Tid, call: Call)
    requires PcOf(s.pcs, t).Fresh? || PcOf(s.pcs, t).Freeing?
    ensures var pc := PcOf(s.pcs, t);
            Serves(s.pcs, if pc.Fresh? then GoFresh(s, t, pc).pcs else GoFreeing(s, t, pc).pcs, t, u, call)
  {
  }

  lemma NoteServes(s: State, t: Tid, u: Tid, call: Call)
    requires PcOf(s.pcs, t).Note?
    ensures Serves(s.pcs, GoNote(s, t, PcOf(s.pcs, t)).pcs, t, u, call)
  {
  }

  lemma GoServes(s: State, t: Tid, oracle: Oracle, u: Tid, call: Call)
    ensures Serves(s.pcs, Go(s, t, oracle).pcs, t, u, call)
  {
    hide GoBegin, GoScan, GoDrain, GoTick, GoPutBack, GoPop, GoCentral, GoMapNew, GoFresh, GoNote, GoFreeing,
         GoDoomed, GoEnqueue, GoReturn;
    match PcOf(s.pcs, t)
    case Idle =>
    case Begin(_, _, _) => BeginServes(s, t, u, call);
    case Scan(_, _, _, _, _) => ScanServes(s, t, u, call);
    case Drain(_, _, _, _, _, _) => DrainServes(s, t, u, call);
    case Tick(_, _, _, _, _, _) => TickServes(s, t, u, call);
    case PutBack(_, _, _, _, _) => PutBackServes(s, t, u, call);
    case Pop(_, _, _, _) => PopServes(s, t, u, call);
    case Central(_, _, _) => CentralServes(s, t, oracle, u, call);
    case MapNew(_, _) => MapNewServes(s, t, oracle, u, call);
    case Fresh(_, _, _) => FreshServes(s, t, u, call);
    case Note(_, _, _) => NoteServes(s, t, u, call);
    case Freeing(_, _) => FreshServes(s, t, u, call);
    case Doomed(_, _) => DoomedServes(s, t, u, call);
    case Enqueue(_, _, _) => EnqueueServes(s, t, u, call);
    case Return(_, _) => ReturnServes(s, t, u, call);
  }

  lemma StepServes(s: State, step: Step, t: Tid, call: Call)
    requires Enabled(s, step) && Serving(PcOf(s.pcs, t), call)
    ensures var pc := PcOf(Apply(s, step).pcs, t); CallOf(pc).None? || Serving(pc, call)
  {
    hide Go, OracleOk, Addressable, Plausible, PlanFree, AddLive, MakeRequest, Route, ClassFor;
    if step.Advance? {
      GoServes(s, step.t, step.oracle, t, call);
    }
  }

  /** Thread `t` is in an allocation in every state of the run. */
  ghost predicate StaysInAllocation(s: State, steps: seq<Step>, t: Tid)
    decreases |steps|
  {
    && CallOf(PcOf(s.pcs, t)).Some?
    && (steps != [] ==> StaysInAllocation(Apply(s, steps[0]), steps[1..], t))
  }

  lemma {:induction false} AllocationKeepsCall(s: State, steps: seq<Step>, s': State, t: Tid, call: Call)
    requires Runs(s, steps, s') && Serving(PcOf(s.pcs, t), call) && StaysInAllocation(s, steps, t)
    ensures Serving(PcOf(s'.pcs, t), call)
    decreases |steps|
  {
    hide Apply, Enabled;
    if steps != [] {
      StepServes(s, steps[0], t, call);
      AllocationKeepsCall(Apply(s, steps[0]), steps[1..], s', t, call);
    }
  }

  /** What the entry step asks for: a `malloc` under the active mode, a growing `realloc`
      under the mode of the object it grows. */
  function CallOfStep(s: State, step: Step): Call
    requires step.Malloc? || (step.Realloc? && step.b in s.objs)
  {
    if step.Malloc? then Call(MakeRequest(step.size, step.alignment, s.active, step.t, false), 0)
    else Call(MakeRequest(step.size, 16, s.objs[step.b].mode, step.t, step.b != 0), step.b)
  }

  lemma AllocationStarts(s: State, step: Step)
    requires Enabled(s, step) && (step.Malloc? || step.Realloc?)
    ensures var pc := PcOf(Apply(s, step).pcs, step.t);
            pc.Idle? || ((step.Realloc? ==> step.b in s.objs) && Serving(pc, CallOfStep(s, step)))
  {
    hide StartAlloc, Plausible, Serving, Addressable, MakeRequest;
    if step.Malloc? {
      Starts(s, step.t, step.size, step.alignment, s.active, 0);
    } else if HeaderFromUser(s, step.b).Some? {
      Starts(s, step.t, step.size, 16, s.objs[step.b].mode, step.b);
    }
  }

  lemma Starts(s: State, t: Tid, size: nat, alignment: nat, mode: Mode, src: Addr)
    ensures var pc := PcOf(StartAlloc(s, t, size, alignment, mode, src).pcs, t);
            pc.Idle? || Serving(pc, Call(MakeRequest(size, alignment, mode, t, src != 0), src))
  {
    hide Route, ClassFor, MakeRequest, SetPc;
    var req := MakeRequest(size, alignment, mode, t, src != 0);
    var storage := Route(mode, size, alignment, t, src != 0);
    match ClassFor(storage, size)
    case Some(c) => NowAt(s, t, Begin(req, c, src));
    case None => NowAt(s, t, if storage.DirectMap? then MapNew(req, src) else Idle);
  }

  lemma NowAt(s: State, t: Tid, pc: Pc)
    ensures PcOf(SetPc(s, t, pc).pcs, t) == pc
  {
  }

  /** At any moment of an allocation the thread serves the call of its entry step. */
  lemma ServesItsCall(s: State, start: Step, during: seq<Step>, s1: State)
    requires Enabled(s, start) && (start.Malloc? || start.Realloc?)
    requires StaysInAllocation(Apply(s, start), during, start.t) && Runs(Apply(s, start), during, s1)
    ensures (start.Realloc? ==> start.b in s.objs) && Serving(PcOf(s1.pcs, start.t), CallOfStep(s, start))
  {
    hide Apply, Enabled, Runs, MakeRequest;
    AllocationStarts(s, start);
    AllocationKeepsCall(Apply(s, start), during, s1, start.t, CallOfStep(s, start));
  }

  /** The object an allocation has registered answers its request. */
  lemma NewObjectAnswers(s: State, t: Tid, call: Call)
    requires Inv(s) && t in s.pcs && s.pcs[t].Note? && Serving(s.pcs[t], call)
    ensures Registered(s, s.pcs[t].b) && Answers(s.objs[s.pcs[t].b], call.req)
  {
    hide Core, EmptiesOk;
    QuietThread(s, t);
    assert s.pcs[t].b in Claims(s.pcs[t]);
  }

  /** Over whole runs: from the start of an allocation, through its steps and any interleaved
      ones, to any later moment before the object is freed, the header answers the call of
      the entry step.  Switching modes in between changes nothing. */
  lemma ObjectAnswersItsCall(s: State, start: Step, during: seq<Step>, s1: State, later: seq<Step>, s2: State)
    requires Inv(s) && Enabled(s, start) && (start.Malloc? || start.Realloc?)
    requires StaysInAllocation(Apply(s, start), during, start.t) && Runs(Apply(s, start), during, s1)
    requires start.t in s1.pcs && s1.pcs[start.t].Note?
    requires Runs(s1, later, s2) && Spares(s1, later, s1.pcs[start.t].b)
    ensures (start.Realloc? ==> start.b in s.objs) && Inv(s2)
    ensures var b := s1.pcs[start.t].b; Registered(s2, b) && Answers(s2.objs[b], CallOfStep(s, start).req)
  {
    hide Inv, Apply, Enabled, Runs, Spares, MakeRequest, Answers;
    var t := start.t;
    ServesItsCall(s, start, during, s1);
    StepKeeps(s, start);
    RunKeeps(Apply(s, start), during, s1);
    RunKeeps(s1, later, s2);
    NewObjectAnswers(s1, t, CallOfStep(s, start));
    LiveHeaderIsStable(s1, later, s2, s1.pcs[t].b);
  }
}
