/** The byte view: which addresses a step writes, and what that means for the
    payloads of live objects and for realloc. */
module HeapPayload {
  import opened Types
  import opened Policy
  import opened Geometry
  import opened Places
  import opened HeapState
  import opened HeapSteps
  import opened HeapProofs
  import opened HeapRemote
  import opened HeapLive
  import opened HeapPages
  import opened HeapReclaim
  import opened HeapSafety
  import opened HeapFrames
  import opened HeapRequests

  function Extent(o: Object): nat {
    HEADER + o.usable + Tail(o)
  }

  // ---- Geometry of all objects at once --------------------------------------------------------

  /** Header, payload and redzone of two objects never overlap, live or not. */
  lemma ObjectsNeverOverlap(s: State, b: Addr, c: Addr)
    requires Core(s) && b in s.objs && c in s.objs && b != c
    ensures Apart(b, Extent(s.objs[b]), c, Extent(s.objs[c]))
  {
    hide Core;
    ObjectInRegion(s, b);
    ObjectInRegion(s, c);
    if s.objs[b].base != s.objs[c].base {
      RegionsApart(s, s.objs[b].base, s.objs[c].base);
    } else {
      SameMapping(s, b, c);
      BlocksApart(s, b, c);
    }
  }

  lemma RegionsApart(s: State, r: Addr, q: Addr)
    requires Core(s) && r in s.regions && q in s.regions && r != q
    ensures Apart(r, s.regions[r].size, q, s.regions[q].size)
  {
    hide StoredOk, PoolsOk, PagesOk, ObjectsOk, WellPlaced, StatusOk, HandsOk, PcsOk, LiveCountsOk, BucketsOk,
         CachesOk, LiveGaugeOk, MapGaugeOk, PendingOk, CountedOk, MapCountedOk;
  }

  /** Two objects in one mapping are blocks of one page. */
  lemma SameMapping(s: State, b: Addr, c: Addr)
    requires Core(s) && b in s.objs && c in s.objs && b != c && s.objs[b].base == s.objs[c].base
    ensures var p := s.objs[b].page;
            && s.objs[b].pooled && s.objs[c].pooled && p == s.objs[c].page && p in s.pages
            && b in s.pages[p].blocks && c in s.pages[p].blocks
            && s.objs[b].usable == s.objs[c].usable == ClassUsable(s.pages[p].cls)
            && Tail(s.objs[b]) == Tail(s.objs[c]) == 0
  {
    hide RegionsOk, StoredOk, PoolsOk, WellPlaced, StatusOk, HandsOk, PcsOk, LiveCountsOk, BucketsOk, CachesOk,
         LiveGaugeOk, MapGaugeOk, PendingOk, CountedOk, MapCountedOk, Layout;
    assert ObjectOk(b, s.objs[b], s.pages, s.regions);
    assert ObjectOk(c, s.objs[c], s.pages, s.regions);
    assert forall p :: p in s.pages ==> PageOk(p, s.pages[p], s.regions, s.objs);
  }

  lemma BlocksApart(s: State, b: Addr, c: Addr)
    requires Core(s) && b in s.objs && c in s.objs && b != c
    requires s.objs[b].page in s.pages && b in s.pages[s.objs[b].page].blocks && c in s.pages[s.objs[b].page].blocks
    ensures var n := Stride(s.pages[s.objs[b].page].cls); Apart(b, n, c, n)
  {
    hide RegionsOk, StoredOk, PoolsOk, WellPlaced, StatusOk, HandsOk, PcsOk, LiveCountsOk, ObjectsOk, BucketsOk,
         CachesOk, LiveGaugeOk, MapGaugeOk, PendingOk, CountedOk, MapCountedOk, Layout;
    var p := s.objs[b].page;
    assert PageOk(p, s.pages[p], s.regions, s.objs);
    LayoutFacts(p, s.pages[p].cls, s.pages[p].mapped);
    var xs := s.pages[p].blocks;
    var i :| 0 <= i < |xs| && xs[i] == b;
    var j :| 0 <= j < |xs| && xs[j] == c;
    if i < j {
      assert xs[i] + Stride(s.pages[p].cls) <= xs[j];
    } else {
      assert xs[j] + Stride(s.pages[p].cls) <= xs[i];
    }
  }

  /** No object overlaps a page structure. */
  lemma PageStructureApart(s: State, p: Addr, b: Addr)
    requires Core(s) && p in s.pages && b in s.objs
    ensures Apart(p, FIRST_BLOCK, b, Extent(s.objs[b]))
  {
    hide Core, Capacity, Layout;
    PageRegion(s, p);
    PageStart(s, p);
    ObjectInRegion(s, b);
    if s.objs[b].base != p {
      RegionsApart(s, p, s.objs[b].base);
    } else {
      AfterStructure(s, p, b);
    }
  }

  lemma PageStart(s: State, p: Addr)
    requires Core(s) && p in s.pages
    ensures FIRST_BLOCK <= s.pages[p].mapped && ValidClass(s.pages[p].cls)
    ensures s.pages[p].blocks == Layout(p, Stride(s.pages[p].cls), Capacity(s.pages[p].mapped, s.pages[p].cls))
  {
    hide RegionsOk, StoredOk, PoolsOk, WellPlaced, StatusOk, HandsOk, PcsOk, LiveCountsOk, ObjectsOk, BucketsOk,
         CachesOk, LiveGaugeOk, MapGaugeOk, PendingOk, CountedOk, MapCountedOk;
    assert PageOk(p, s.pages[p], s.regions, s.objs);
  }

  lemma AfterStructure(s: State, p: Addr, b: Addr)
    requires Core(s) && p in s.pages && b in s.objs && s.objs[b].base == p
    ensures p + FIRST_BLOCK <= b
  {
    hide RegionsOk, StoredOk, PoolsOk, WellPlaced, StatusOk, HandsOk, PcsOk, LiveCountsOk, BucketsOk, CachesOk,
         LiveGaugeOk, MapGaugeOk, PendingOk, CountedOk, MapCountedOk, Layout, Capacity;
    assert ObjectOk(b, s.objs[b], s.pages, s.regions);
    assert PageOk(p, s.pages[p], s.regions, s.objs);
    BlockInPage(p, s.pages[p], b);
  }

  // ---- Writes --------------------------------------------------------------------------------------

  ghost predicate InSomeHeader(s: State, a: Addr) {
    exists h :: h in s.objs && h <= a < h + HEADER
  }

  ghost predicate InSomePageStructure(s: State, a: Addr) {
    exists p :: p in s.pages && p <= a < p + FIRST_BLOCK
  }

  function CopyLength(s: State, pc: Pc): nat
    requires pc.Note?
  {
    if pc.src == 0 || pc.src !in s.objs then 0
    else if s.objs[pc.src].usable < pc.req.size then s.objs[pc.src].usable else pc.req.size
  }

  /** Payload bytes written by the allocator itself: poison over the object being
      freed, and the copy of `reallocate` into the new object. */
  predicate WritesPayload(s: State, pc: Pc, a: Addr) {
    || (pc.Doomed? && pc.dec.poison && pc.b in s.objs && pc.b + HEADER <= a < pc.b + HEADER + s.objs[pc.b].usable)
    || (pc.Note? && pc.b + HEADER <= a < pc.b + HEADER + CopyLength(s, pc))
  }

  /** Every address a step may write: headers (of the block and of its list neighbours),
      page structures, a mapping it has just obtained (page structure, headers, redzone),
      and the payload bytes above. */
  ghost predicate Writes(s: State, step: Step, a: Addr) {
    step.Advance? &&
    (|| InSomeHeader(s, a)
     || InSomePageStructure(s, a)
     || (step.oracle.Maps? && step.oracle.base <= a < step.oracle.base + Wanted(s, step.t))
     || WritesPayload(s, PcOf(s.pcs, step.t), a))
  }

  /** The object a realloc copies into is the only live object whose payload a step may
      touch. */
  predicate FillsPayload(s: State, step: Step, c: Addr) {
    step.Advance? && PcOf(s.pcs, step.t).Note? && PcOf(s.pcs, step.t).b == c
  }

  lemma PayloadOutsideHeaders(s: State, c: Addr, a: Addr)
    requires Core(s) && c in s.objs && c + HEADER <= a < c + HEADER + s.objs[c].usable
    ensures !InSomeHeader(s, a) && !InSomePageStructure(s, a)
  {
    hide Core;
    forall h | h in s.objs ensures !(h <= a < h + HEADER) {
      if h != c {
        ObjectsNeverOverlap(s, h, c);
      }
    }
    forall p | p in s.pages ensures !(p <= a < p + FIRST_BLOCK) {
      PageStructureApart(s, p, c);
    }
  }

  /** No step writes inside the payload of a live object, its own realloc target aside. */
  lemma NoForeignWrites(s: State, step: Step, c: Addr, a: Addr)
    requires Inv(s) && Enabled(s, step) && Registered(s, c) && !FillsPayload(s, step, c)
    requires c + HEADER <= a < c + HEADER + s.objs[c].usable
    ensures !Writes(s, step, a)
  {
    hide Core, EmptiesOk, InSomeHeader, InSomePageStructure, Wanted;
    if step.Advance? {
      PayloadOutsideHeaders(s, c, a);
      OutsideNewMapping(s, step, c, a);
      NotItsPayload(s, step.t, c, a);
    }
  }

  lemma OutsideNewMapping(s: State, step: Step, c: Addr, a: Addr)
    requires Core(s) && Enabled(s, step) && step.Advance? && c in s.objs
    requires c + HEADER <= a < c + HEADER + s.objs[c].usable
    ensures !(step.oracle.Maps? && step.oracle.base <= a < step.oracle.base + Wanted(s, step.t))
  {
    hide Core, Wanted;
    ObjectInRegion(s, c);
    assert step.oracle.Maps? ==> Apart(s.objs[c].base, s.regions[s.objs[c].base].size, step.oracle.base,
                                       Wanted(s, step.t));
  }

  lemma NotItsPayload(s: State, t: Tid, c: Addr, a: Addr)
    requires Core(s) && t in s.pcs && Registered(s, c) && !(s.pcs[t].Note? && s.pcs[t].b == c)
    requires c + HEADER <= a < c + HEADER + s.objs[c].usable
    ensures !WritesPayload(s, s.pcs[t], a)
  {
    hide Core;
    var pc := s.pcs[t];
    if pc.Doomed? {
      HeldBlock(s, t);
      ObjectsNeverOverlap(s, pc.b, c);
    } else if pc.Note? {
      QuietThread(s, t);
      NoteFits(s, t);
      ObjectsNeverOverlap(s, pc.b, c);
    }
  }

  /** The copy of a realloc stays inside the new object. */
  lemma NoteFits(s: State, t: Tid)
    requires Core(s) && t in s.pcs && s.pcs[t].Note?
    ensures s.pcs[t].b in s.objs && CopyLength(s, s.pcs[t]) <= s.objs[s.pcs[t].b].usable
  {
    hide Core;
    QuietThread(s, t);
    ObjectFits(s, s.pcs[t].b);
  }

  lemma ObjectFits(s: State, b: Addr)
    requires Core(s) && b in s.objs
    ensures s.objs[b].requested <= s.objs[b].usable
  {
    hide RegionsOk, StoredOk, PoolsOk, WellPlaced, StatusOk, HandsOk, PcsOk, LiveCountsOk, PagesOk, BucketsOk,
         CachesOk, LiveGaugeOk, MapGaugeOk, PendingOk, CountedOk, MapCountedOk;
    assert ObjectOk(b, s.objs[b], s.pages, s.regions);
  }

  // ---- Memory over runs --------------------------------------------------------------------------------

  type Memory = Addr -> bv8

  /** Byte `i` of the payload of the object at `b`. */
  function Byte(m: Memory, b: Addr, i: nat): bv8 {
    m(b + HEADER + i)
  }

  datatype Event = Did(step: Step, after: Memory) | Client(target: Addr, after: Memory)

  /** One event: a step of the allocator, which writes only where `Writes` allows and
      copies the payload when a realloc completes, or a client storing into a live
      object it owns. */
  ghost predicate Happens(s: State, m: Memory, e: Event) {
    match e
    case Did(step, m') =>
      && Enabled(s, step)
      && (forall a: Addr :: !Writes(s, step, a) ==> m'(a) == m(a))
      && (step.Advance? && PcOf(s.pcs, step.t).Note? ==>
            var pc := PcOf(s.pcs, step.t);
            forall i: nat :: i < CopyLength(s, pc) ==> Byte(m', pc.b, i) == Byte(m, pc.src, i))
    case Client(c, m') =>
      && Registered(s, c)
      && (forall a: Addr :: !(c + HEADER <= a < c + HEADER + s.objs[c].usable) ==> m'(a) == m(a))
  }

  function After(s: State, e: Event): State {
    match e
    case Did(step, _) => Apply(s, step)
    case Client(_, _) => s
  }

  /** A run with memory contents. */
  ghost predicate MemoryRuns(s: State, m: Memory, es: seq<Event>, s': State, m': Memory)
    decreases |es|
  {
    if es == [] then s == s' && m == m'
    else Happens(s, m, es[0]) && MemoryRuns(After(s, es[0]), es[0].after, es[1..], s', m')
  }

  /** The event neither frees object `c` nor stores into it. */
  predicate LeavesAlone(s: State, e: Event, c: Addr) {
    match e
    case Did(step, _) => !Unregisters(s, step, c) && !FillsPayload(s, step, c)
    case Client(d, _) => d != c
  }

  ghost predicate AllLeaveAlone(s: State, es: seq<Event>, c: Addr)
    decreases |es|
  {
    es != [] ==> LeavesAlone(s, es[0], c) && AllLeaveAlone(After(s, es[0]), es[1..], c)
  }

  ghost predicate SamePayload(s: State, c: Addr, m: Memory, m': Memory)
    requires c in s.objs
  {
    forall i: nat :: i < s.objs[c].usable ==> Byte(m', c, i) == Byte(m, c, i)
  }

  lemma EventKeepsPayload(s: State, m: Memory, e: Event, c: Addr)
    requires Inv(s) && Happens(s, m, e) && Registered(s, c) && LeavesAlone(s, e, c)
    ensures Inv(After(s, e)) && Undisturbed(s, After(s, e), c) && SamePayload(s, c, m, e.after)
  {
    hide Core, EmptiesOk, Writes, Enabled, Apply;
    match e
    case Did(step, m') =>
      StepKeeps(s, step);
      StepUndisturbed(s, step, c);
      forall i: nat | i < s.objs[c].usable ensures Byte(m', c, i) == Byte(m, c, i) {
        NoForeignWrites(s, step, c, c + HEADER + i);
      }
    case Client(d, m') =>
      ObjectsNeverOverlap(s, d, c);
  }

  /** Through any interleaving of other threads and other clients, a live object keeps
      its header and every byte of its payload. */
  lemma {:induction false} PayloadKept(s: State, m: Memory, es: seq<Event>, s': State, m': Memory, c: Addr)
    requires Inv(s) && MemoryRuns(s, m, es, s', m') && Registered(s, c) && AllLeaveAlone(s, es, c)
    ensures Inv(s') && Undisturbed(s, s', c) && SamePayload(s, c, m, m')
    decreases |es|
  {
    hide Inv, Happens, LeavesAlone, Byte;
    if es != [] {
      EventKeepsPayload(s, m, es[0], c);
      PayloadKept(After(s, es[0]), es[0].after, es[1..], s', m', c);
    }
  }

  // ---- Realloc --------------------------------------------------------------------------------------------

  /** Thread `t` is inside a realloc of `c` throughout the run, and the client stores
      nothing into `c` meanwhile. */
  ghost predicate Reallocating(s: State, es: seq<Event>, t: Tid, c: Addr)
    decreases |es|
  {
    && t in s.pcs && Source(s.pcs[t]) == c
    && (es != [] ==> (es[0].Client? ==> es[0].target != c) && Reallocating(After(s, es[0]), es[1..], t, c))
  }

  /** While it is being reallocated, nobody frees or fills the old object. */
  lemma ClaimedIsLeftAlone(s: State, t: Tid, c: Addr, e: Event)
    requires Inv(s) && t in s.pcs && Source(s.pcs[t]) == c && c != 0
    requires e.Client? ==> e.target != c
    requires e.Did? ==> Enabled(s, e.step)
    ensures Registered(s, c) && LeavesAlone(s, e, c)
  {
    hide Core, EmptiesOk, OracleOk, Wanted;
    QuietThread(s, t);
    assert c in Claims(s.pcs[t]);
    RegisteredBlock(s, c);
    ClaimedOnce(s, t, c);
    if e.Did? && e.step.Advance? {
      var u := e.step.t;
      var pc := PcOf(s.pcs, u);
      if u != t {
        assert c !in Claims(s.pcs[u]);
      } else if pc.Note? {
        NoteTargetIsNew(s, t);
      }
    }
  }

  lemma NoteTargetIsNew(s: State, t: Tid)
    requires Core(s) && t in s.pcs && s.pcs[t].Note?
    ensures s.pcs[t].b != s.pcs[t].src
  {
    hide RegionsOk, StoredOk, PoolsOk, WellPlaced, StatusOk, HandsOk, LiveCountsOk, PagesOk, ObjectsOk, BucketsOk,
         CachesOk, LiveGaugeOk, MapGaugeOk, PendingOk, CountedOk, MapCountedOk;
  }

  lemma {:induction false} SourceIsLeftAlone(s: State, m: Memory, es: seq<Event>, s': State, m': Memory, t: Tid,
                                             c: Addr)
    requires Inv(s) && MemoryRuns(s, m, es, s', m') && Reallocating(s, es, t, c) && c != 0
    ensures Registered(s, c) && AllLeaveAlone(s, es, c)
    decreases |es|
  {
    hide Inv, LeavesAlone, Apply, Enabled;
    if es == [] {
      ClaimedIsLeftAlone(s, t, c, Client(0, m));
    } else {
      ClaimedIsLeftAlone(s, t, c, es[0]);
      EventKeepsPayload(s, m, es[0], c);
      SourceIsLeftAlone(After(s, es[0]), es[0].after, es[1..], s', m', t, c);
    }
  }

  /** The shorter of the old payload and the new request. */
  function Kept(o: Object, size: nat): nat {
    if o.usable < size then o.usable else size
  }

  /** A realloc that finds a new object: after any interleaving up to the copy, the new
      payload starts with the first min(old usable, new size) bytes the old object had
      when the realloc began, and the old object is now being freed. */
  lemma ReallocCopiesPayload(s: State, m: Memory, es: seq<Event>, s1: State, m1: Memory, t: Tid, c: Addr, e: Event)
    requires Inv(s) && MemoryRuns(s, m, es, s1, m1) && Reallocating(s, es, t, c) && c != 0
    requires t in s1.pcs && s1.pcs[t].Note? && s1.pcs[t].src == c
    requires Happens(s1, m1, e) && e.Did? && e.step.Advance? && e.step.t == t
    ensures c in s.objs && c in s1.objs && s1.objs[c] == s.objs[c]
    ensures var b := s1.pcs[t].b;
            forall i: nat :: i < Kept(s.objs[c], s1.pcs[t].req.size) ==> Byte(e.after, b, i) == Byte(m, c, i)
    ensures PcOf(After(s1, e).pcs, t).Freeing? && PcOf(After(s1, e).pcs, t).b == c
  {
    hide Inv, Happens, AllLeaveAlone, Reallocating, MemoryRuns, Byte, Apply;
    SourceIsLeftAlone(s, m, es, s1, m1, t, c);
    PayloadKept(s, m, es, s1, m1, c);
    NoteStartsFree(s1, t, e.step.oracle);
    CopyHappens(s1, m1, t, e);
    var b := s1.pcs[t].b;
    forall i: nat | i < Kept(s.objs[c], s1.pcs[t].req.size) ensures Byte(e.after, b, i) == Byte(m, c, i) {
      assert Byte(e.after, b, i) == Byte(m1, c, i);
    }
  }

  /** Through the events of a realloc the thread serves the same call. */
  lemma {:induction false} ReallocKeepsCall(s: State, m: Memory, es: seq<Event>, s': State, m': Memory, t: Tid, c: Addr,
                                            call: Call)
    requires MemoryRuns(s, m, es, s', m') && Reallocating(s, es, t, c) && c != 0 && Serving(PcOf(s.pcs, t), call)
    ensures Serving(PcOf(s'.pcs, t), call)
    decreases |es|
  {
    hide Apply, Enabled, Writes, Byte;
    if es != [] {
      if es[0].Did? {
        StepServes(s, es[0].step, t, call);
        SourceServes(PcOf(Apply(s, es[0].step).pcs, t));
      }
      ReallocKeepsCall(After(s, es[0]), es[0].after, es[1..], s', m', t, c, call);
    }
  }

  lemma SourceServes(pc: Pc)
    requires Source(pc) != 0
    ensures CallOf(pc).Some? && CallOf(pc).value.src == Source(pc)
  {
  }

  /** The whole call: `realloc(c, size)` starts, runs interleaved with anything until it copies
      (event `e`), and goes on, interleaved with anything that leaves the new object alone, to
      its return and beyond.  At any such moment the new object is live, has the size asked
      for, and starts with the first min(old usable, size) bytes that the old object had when
      the call was made. */
  lemma ReallocKeepsPayload(s0: State, m0: Memory, start: Event, es: seq<Event>, s1: State, m1: Memory, e: Event,
                            more: seq<Event>, s2: State, m2: Memory)
    requires Inv(s0) && Happens(s0, m0, start) && start.Did? && start.step.Realloc?
    requires var t, c := start.step.t, start.step.b;
             && c != 0 && Reallocating(After(s0, start), es, t, c)
             && MemoryRuns(After(s0, start), start.after, es, s1, m1)
             && t in s1.pcs && s1.pcs[t].Note? && Happens(s1, m1, e) && e.Did? && e.step.Advance? && e.step.t == t
    requires var b := s1.pcs[start.step.t].b;
             MemoryRuns(After(s1, e), e.after, more, s2, m2) && AllLeaveAlone(After(s1, e), more, b)
    ensures var c, size, b := start.step.b, start.step.size, s1.pcs[start.step.t].b;
            && c in s0.objs && Registered(s2, b) && s2.objs[b].requested == size <= s2.objs[b].usable
            && forall i: nat :: i < Kept(s0.objs[c], size) ==> Byte(m2, b, i) == Byte(m0, c, i)
  {
    hide Inv, Happens, AllLeaveAlone, Reallocating, MemoryRuns, Byte, Apply, Kept;
    var c, b := start.step.b, s1.pcs[start.step.t].b;
    ReallocCopied(s0, m0, start, es, s1, m1, e);
    PayloadKept(After(s1, e), e.after, more, s2, m2, b);
    forall i: nat | i < Kept(s0.objs[c], start.step.size) ensures Byte(m2, b, i) == Byte(m0, c, i) {
      KeptWithin(s0.objs[c], start.step.size);
    }
  }

  lemma KeptWithin(o: Object, size: nat)
    ensures Kept(o, size) <= size
  {
  }

  /** ... up to the copy. */
  lemma ReallocCopied(s0: State, m0: Memory, start: Event, es: seq<Event>, s1: State, m1: Memory, e: Event)
    requires Inv(s0) && Happens(s0, m0, start) && start.Did? && start.step.Realloc?
    requires var t, c := start.step.t, start.step.b;
             && c != 0 && Reallocating(After(s0, start), es, t, c)
             && MemoryRuns(After(s0, start), start.after, es, s1, m1)
             && t in s1.pcs && s1.pcs[t].Note? && Happens(s1, m1, e) && e.Did? && e.step.Advance? && e.step.t == t
    ensures var c, size, b, s := start.step.b, start.step.size, s1.pcs[start.step.t].b, After(s1, e);
            && c in s0.objs && Inv(s) && Registered(s, b) && s.objs[b].requested == size <= s.objs[b].usable
            && forall i: nat :: i < Kept(s0.objs[c], size) ==> Byte(e.after, b, i) == Byte(m0, c, i)
  {
    hide Inv, Happens, Reallocating, MemoryRuns, Byte, Apply, Enabled, MakeRequest, Kept;
    var t, c := start.step.t, start.step.b;
    var s := After(s0, start);
    ReallocBegins(s0, m0, start, es);
    ReallocKeepsCall(s, start.after, es, s1, m1, t, c, CallOfStep(s0, start.step));
    RequestEchoes(start.step.size, 16, s0.objs[c].mode, t, true);
    ReallocCopiesPayload(s, start.after, es, s1, m1, t, c, e);
    SourceIsLeftAlone(s, start.after, es, s1, m1, t, c);
    PayloadKept(s, start.after, es, s1, m1, c);
    NewObjectAnswers(s1, t, CallOfStep(s0, start.step));
    CopyKeepsTarget(s1, m1, t, e);
    HasRoom(s1, s1.pcs[t].b);
  }

  lemma HasRoom(s: State, b: Addr)
    requires Inv(s) && b in s.objs
    ensures s.objs[b].requested <= s.objs[b].usable
  {
    hide RegionsOk, StoredOk, PoolsOk, PcsOk, PagesOk, WellPlaced, StatusOk, HandsOk, BucketsOk, LiveCountsOk,
         EmptiesOk, CachesOk, LiveGaugeOk, MapGaugeOk, PendingOk, CountedOk, MapCountedOk;
    assert ObjectOk(b, s.objs[b], s.pages, s.regions);
  }

  /** The entry step writes nothing, changes no header and starts the call. */
  lemma ReallocBegins(s: State, m: Memory, start: Event, es: seq<Event>)
    requires Inv(s) && Happens(s, m, start) && start.Did? && start.step.Realloc? && start.step.b != 0
    requires Reallocating(After(s, start), es, start.step.t, start.step.b)
    ensures var t, c, s' := start.step.t, start.step.b, After(s, start);
            && Inv(s') && c in s.objs && s'.objs == s.objs && Serving(PcOf(s'.pcs, t), CallOfStep(s, start.step))
            && forall i: nat :: Byte(start.after, c, i) == Byte(m, c, i)
  {
    hide Inv, Apply, Enabled, MakeRequest;
    StepKeeps(s, start.step);
    AllocationStarts(s, start.step);
    ReallocKeepsHeaders(s, start.step);
    assert forall a: Addr :: !Writes(s, start.step, a);
  }

  lemma ReallocKeepsHeaders(s: State, step: Step)
    requires step.Realloc?
    ensures Apply(s, step).objs == s.objs
  {
    hide MakeRequest, Route, ClassFor, Plausible;
  }

  lemma CopyKeepsTarget(s: State, m: Memory, t: Tid, e: Event)
    requires Inv(s) && t in s.pcs && s.pcs[t].Note? && Registered(s, s.pcs[t].b)
    requires Happens(s, m, e) && e.Did? && e.step.Advance? && e.step.t == t
    ensures Inv(After(s, e)) && Undisturbed(s, After(s, e), s.pcs[t].b)
  {
    hide Inv, Apply, Enabled, Writes;
    StepKeeps(s, e.step);
    StepUndisturbed(s, e.step, s.pcs[t].b);
  }

  lemma CopyHappens(s: State, m: Memory, t: Tid, e: Event)
    requires t in s.pcs && s.pcs[t].Note? && Happens(s, m, e) && e.Did? && e.step.Advance? && e.step.t == t
    ensures forall i: nat :: i < CopyLength(s, s.pcs[t]) ==> Byte(e.after, s.pcs[t].b, i) == Byte(m, s.pcs[t].src, i)
  {
  }

  lemma NoteStartsFree(s: State, t: Tid, oracle: Oracle)
    requires Inv(s) && t in s.pcs && s.pcs[t].Note? && s.pcs[t].src != 0
    ensures var pc := PcOf(Apply(s, Advance(t, oracle)).pcs, t); pc.Freeing? && pc.b == s.pcs[t].src
  {
    hide Core, EmptiesOk, AddMapped, AddLive, PlanFree, PcOk;
    QuietThread(s, t);
    assert s.pcs[t].src in Claims(s.pcs[t]);
    RegisteredBlock(s, s.pcs[t].src);
    NoteFits(s, t);
  }

  /** A realloc that fails, because the class starves or the system refuses memory,
      leaves the old object live with its header and payload unchanged. */
  lemma ReallocFailureKeepsObject(s: State, m: Memory, es: seq<Event>, s1: State, m1: Memory, t: Tid, c: Addr, e: Event)
    requires Inv(s) && MemoryRuns(s, m, es, s1, m1) && Reallocating(s, es, t, c) && c != 0
    requires t in s1.pcs && Source(s1.pcs[t]) == c
    requires Happens(s1, m1, e) && e.Did? && e.step.Advance? && e.step.t == t
    requires PcOf(After(s1, e).pcs, t).Idle?
    ensures Undisturbed(s, After(s1, e), c) && SamePayload(s, c, m, e.after)
  {
    hide Inv, Writes, Enabled, AllLeaveAlone, Reallocating, MemoryRuns, Happens, After, LeavesAlone, Byte;
    SourceIsLeftAlone(s, m, es, s1, m1, t, c);
    PayloadKept(s, m, es, s1, m1, c);
    HappensEnabled(s1, m1, e);
    ClaimedIsLeftAlone(s1, t, c, e);
    EventKeepsPayload(s1, m1, e, c);
  }

  lemma HappensEnabled(s: State, m: Memory, e: Event)
    requires Happens(s, m, e)
    ensures e.Did? ==> Enabled(s, e.step)
  {
  }
}
