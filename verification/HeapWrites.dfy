/** The write set of `HeapPayload.Writes` covers what the state machine changes: headers, page
    structures and chains. */
module HeapWrites {
  import opened Types
  import opened Policy
  import opened Options
  import opened Geometry
  import opened Places
  import opened HeapState
  import opened HeapSteps
  import opened HeapRemote
  import opened HeapSafety
  import opened HeapRequests
  import opened HeapPayload

  /** Every header and every page structure is one the state had before, or lies in the range
      from `base` to `end`. */
  ghost predicate OldOrIn(s: State, s': State, base: Addr, end: Addr) {
    && (forall h :: h in s'.objs ==> h in s.objs || (base <= h && h + HEADER <= end))
    && (forall p :: p in s'.pages ==> p in s.pages || (base <= p && p + FIRST_BLOCK <= end))
  }

  lemma AddPageIn(s: State, c: Class, mode: Mode, base: Addr, kept: set<Addr>)
    requires ValidClass(c) && Capacity(PageBytes(s.cfg, c), c) > 0
    ensures OldOrIn(s, AddPage(s, c, mode, base, kept), base, base + PageBytes(s.cfg, c))
    ensures base in AddPage(s, c, mode, base, kept).pages
  {
    hide Layout, Admit, Reversed;
    var bytes := PageBytes(s.cfg, c);
    var blocks := Layout(base, Stride(c), Capacity(bytes, c));
    LayoutFacts(base, c, bytes);
    hide Capacity;
    forall h | h in blocks ensures base <= h && h + HEADER <= base + bytes {
      var i :| 0 <= i < |blocks| && blocks[i] == h;
    }
  }

  /** Nothing new. */
  predicate NoNew(s: State, s': State) {
    s'.objs.Keys <= s.objs.Keys && s'.pages.Keys <= s.pages.Keys
  }

  lemma CentralIn(s: State, t: Tid, oracle: Oracle)
    requires Inv(s) && t in s.pcs && s.pcs[t].Central?
    ensures var s' := GoCentral(s, t, s.pcs[t], oracle);
            NoNew(s, s') || (oracle.Maps? && OldOrIn(s, s', oracle.base, oracle.base + PageBytes(s.cfg, s.pcs[t].cls)))
  {
    hide Core, EmptiesOk, TakeFrom, SelectPage, Capacity, AddPage;
    var pc := s.pcs[t];
    QuietThread(s, t);
    match SelectPage(s, pc.cls, pc.req.packing)
    case Some(p) =>
      if p in s.pages {
        TakeFromFrame(s, t, pc.req, pc.cls, pc.src, p);
      }
    case None =>
      if Capacity(PageBytes(s.cfg, pc.cls), pc.cls) > 0 && oracle.Maps? {
        AddPageIn(s, pc.cls, pc.req.mode, oracle.base, oracle.kept);
        TakeFromFrame(AddPage(s, pc.cls, pc.req.mode, oracle.base, oracle.kept), t, pc.req, pc.cls, pc.src,
                      oracle.base);
      }
  }

  lemma MapNewIn(s: State, t: Tid, oracle: Oracle)
    requires Inv(s) && t in s.pcs && s.pcs[t].MapNew? && OracleOk(s.regions, oracle, Wanted(s, t))
    ensures var s' := GoMapNew(s, t, s.pcs[t], oracle);
            NoNew(s, s') || (oracle.Maps? && OldOrIn(s, s', oracle.base, oracle.base + Wanted(s, t)))
  {
    hide Core, EmptiesOk, DirectBytes, DirectHeader, Admit, DirectObject;
    var pc := s.pcs[t];
    QuietThread(s, t);
    var bytes := DirectBytes(pc.req.size, pc.req.alignment, pc.req.redzone);
    if bytes.Some? && oracle.Maps? {
      DirectFits(oracle.base, pc.req.size, pc.req.alignment, pc.req.redzone);
    }
  }

  lemma SearchOld(s: State, t: Tid)
    ensures var pc := PcOf(s.pcs, t);
            && (pc.Begin? ==> NoNew(s, GoBegin(s, t, pc)))
            && (pc.Scan? ==> NoNew(s, GoScan(s, t, pc)))
            && (pc.Drain? ==> NoNew(s, GoDrain(s, t, pc)))
            && (pc.Tick? ==> NoNew(s, GoTick(s, t, pc)))
  {
    hide Move, Splice, At, Slot, CacheLimit, Cleared;
  }

  lemma ChainOld(s: State, t: Tid)
    ensures var pc := PcOf(s.pcs, t);
            && (pc.PutBack? ==> NoNew(s, GoPutBack(s, t, pc)))
            && (pc.Pop? ==> NoNew(s, GoPop(s, t, pc)))
  {
    hide Move, Splice, At, Finalized;
  }

  lemma ObjectOld(s: State, t: Tid)
    ensures var pc := PcOf(s.pcs, t);
            && (pc.Fresh? ==> NoNew(s, GoFresh(s, t, pc)))
            && (pc.Note? ==> NoNew(s, GoNote(s, t, pc)))
            && (pc.Freeing? ==> NoNew(s, GoFreeing(s, t, pc)))
  {
    hide Move, AddLive, AddMapped, PlanFree;
  }

  lemma FreeOld(s: State, t: Tid)
    ensures var pc := PcOf(s.pcs, t);
            && (pc.Doomed? ==> NoNew(s, GoDoomed(s, t, pc)))
            && (pc.Enqueue? ==> NoNew(s, GoEnqueue(s, t, pc)))
  {
    hide Move, Evict, At, Slot, AddMapped, CacheLimit, Cleared, Queued, KeysOf;
  }

  lemma ReturnOld(s: State, t: Tid)
    requires PcOf(s.pcs, t).Return?
    ensures NoNew(s, GoReturn(s, t, PcOf(s.pcs, t)))
  {
    hide ReleaseEmpty, Move;
    var pc := PcOf(s.pcs, t);
    if pc.b in s.objs && pc.b in s.places.place && s.objs[pc.b].page in s.pages {
      var given := Give(s, t, pc.b);
      var c := s.pages[s.objs[pc.b].page].cls;
      ReleaseEmptyFrame(given, c, 0);
      ReleaseEmptyFrame(given, c, pc.dec.keep);
    }
  }

  /** A step makes new headers and page structures only inside the mapping it obtained. */
  lemma NewOnlyInMapping(s: State, step: Step)
    requires Inv(s) && Enabled(s, step)
    ensures var s' := Apply(s, step);
            || NoNew(s, s')
            || (step.Advance? && step.oracle.Maps?
                && OldOrIn(s, s', step.oracle.base, step.oracle.base + Wanted(s, step.t)))
  {
    hide Core, EmptiesOk, GoBegin, GoScan, GoDrain, GoTick, GoPutBack, GoPop, GoCentral, GoMapNew, GoFresh, GoNote,
         GoFreeing, GoDoomed, GoEnqueue, GoReturn, OracleOk, Addressable, StartAlloc, StartFree, Plausible, OldOrIn,
         NoNew;
    SameIsOld(s, s);
    if step.Advance? {
      var t := step.t;
      SearchOld(s, t);
      ChainOld(s, t);
      ObjectOld(s, t);
      FreeOld(s, t);
      match s.pcs[t]
      case Central(_, _, _) => CentralIn(s, t, step.oracle);
      case MapNew(_, _) => MapNewIn(s, t, step.oracle);
      case Return(_, _) => ReturnOld(s, t);
      case _ =>
    } else {
      EntryChangesNothing(s, step);
      SameIsOld(s, Apply(s, step));
    }
  }

  /** The header at `h`, or the chain its block is on, is not what it was. */
  ghost predicate HeaderChanged(s: State, s': State, h: Addr) {
    && h in s'.objs
    && (h !in s.objs || s'.objs[h] != s.objs[h]
        || (h in s.places.place && h in s'.places.place && s'.places.place[h] != s.places.place[h]))
  }

  ghost predicate PageChanged(s: State, s': State, p: Addr) {
    p in s'.pages && (p !in s.pages || s'.pages[p] != s.pages[p])
  }

  /** Only the steps of threads change headers, pages and chains. */
  lemma EntryChangesNothing(s: State, step: Step)
    requires !step.Advance?
    ensures Same(s, Apply(s, step))
  {
    hide StartAlloc, StartFree, Plausible;
    match step
    case Malloc(t, size, alignment) => StartAllocSame(s, t, size, alignment, s.active, 0);
    case Realloc(t, b, size) =>
      if HeaderFromUser(s, b).Some? {
        StartAllocSame(s, t, size, 16, s.objs[b].mode, b);
      }
    case FreeAt(t, b) => StartFreeSame(s, t, b);
    case SwitchMode(_) =>
  }

  predicate Same(s: State, s': State) {
    s'.objs == s.objs && s'.pages == s.pages && s'.places == s.places
  }

  lemma SameIsOld(s: State, s': State)
    requires Same(s, s')
    ensures NoNew(s, s')
  {
  }

  lemma StartAllocSame(s: State, t: Tid, size: nat, alignment: nat, mode: Mode, src: Addr)
    ensures Same(s, StartAlloc(s, t, size, alignment, mode, src))
  {
    hide MakeRequest, Route, ClassFor;
  }

  lemma StartFreeSame(s: State, t: Tid, b: Addr)
    ensures Same(s, StartFree(s, t, b))
  {
    hide AddLive, PlanFree;
  }

  /** Whatever header or page structure a step creates or changes, and whatever block it moves
      to another chain, lies inside the write set of the step. */
  lemma ChangesAreWrites(s: State, step: Step, x: Addr, a: Addr)
    requires Inv(s) && Enabled(s, step)
    ensures HeaderChanged(s, Apply(s, step), x) && x <= a < x + HEADER ==> Writes(s, step, a)
    ensures PageChanged(s, Apply(s, step), x) && x <= a < x + FIRST_BLOCK ==> Writes(s, step, a)
  {
    hide Inv, Enabled, Apply, Wanted, WritesPayload;
    if step.Advance? {
      NewOnlyInMapping(s, step);
    } else {
      EntryChangesNothing(s, step);
    }
  }
}
