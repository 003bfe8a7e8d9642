/** The memory layer as a state machine.  A step is one critical section of one
    thread (a bucket, registry or class mutex held, or work on the thread's own
    cache); threads interleave freely between steps. */
module HeapSteps {
  import opened Types
  import opened Policy
  import opened Options
  import opened Geometry
  import opened Places
  import opened HeapState

  /** The system's answer to `mmap`, and the page keys that found a free slot when
      the region was registered in the page table. */
  datatype Oracle = MapFails | Maps(base: Addr, kept: set<Addr>)

  predicate FreshRegion(regions: map<Addr, Region>, base: Addr, size: nat) {
    GoodRegion(base, size) && forall r :: r in regions ==> Apart(r, regions[r].size, base, size)
  }

  ghost predicate OracleOk(regions: map<Addr, Region>, oracle: Oracle, size: nat) {
    oracle.Maps? ==>
      && FreshRegion(regions, oracle.base, size)
      && forall k :: k in oracle.kept ==> k % PAGE_SIZE == 0 && oracle.base <= k < oracle.base + size
  }

  // ---- Elementary changes ---------------------------------------------------

  function SetPc(s: State, t: Tid, pc: Pc): State {
    s.(pcs := s.pcs[t := pc])
  }

  /** Thread `t` moves block `b` to another chain, rewrites its header and goes on. */
  function Relocate(s: State, t: Tid, b: Addr, to: Loc, o: Object, pc: Pc): State
    requires b in s.places.place
  {
    s.(places := Move(s.places, b, to), objs := s.objs[b := o], pcs := s.pcs[t := pc])
  }

  /** Header writes of a freed block. */
  function Cleared(o: Object): Object {
    o.(live := false, requested := 0, owner := 0)
  }

  function Queued(o: Object): Object {
    o.(live := false, requested := 0)
  }

  /** `finalize_pooled_header`. */
  function Finalized(o: Object, req: Request, c: Class): Object {
    Object(true, c.storage, req.mode, true, false, req.size, ClassUsable(c), o.mapped, o.page, o.page, req.thread, 16)
  }

  function WithLive(page: Page, n: nat): Page {
    page.(liveCount := n)
  }

  /** Takes block `b` off its page's free list. */
  function Take(s: State, t: Tid, p: Addr, b: Addr, to: Loc, o: Object, pc: Pc): State
    requires b in s.places.place && p in s.pages
  {
    Relocate(s, t, b, to, o, pc).(pages := s.pages[p := WithLive(s.pages[p], s.pages[p].liveCount + 1)])
  }

  /** Puts the block in `t`'s hand back on its page's free list. */
  function Give(s: State, t: Tid, b: Addr): State
    requires b in s.places.place && b in s.objs && s.objs[b].page in s.pages
  {
    var p := s.objs[b].page;
    var n := s.pages[p].liveCount;
    Relocate(s, t, b, Free(p), Cleared(s.objs[b]), Idle)
      .(pages := s.pages[p := WithLive(s.pages[p], if n > 0 then n - 1 else n)])
  }

  function AddLive(g: Gauges, m: Mode, n: int): Gauges {
    g.(live := g.live + n, modeLive := g.modeLive[m := Gauge(g.modeLive, m) + n])
  }

  function AddMapped(g: Gauges, m: Mode, n: int): Gauges {
    g.(mapped := g.mapped + n, modeMapped := g.modeMapped[m := Gauge(g.modeMapped, m) + n])
  }

  function NewBlock(c: Class, mode: Mode, bytes: nat, base: Addr): Object {
    Object(false, c.storage, mode, true, false, 0, ClassUsable(c), bytes, base, base, 0, 16)
  }

  /** The blocks of a page in free-list order: the creation loop pushes each block in
      front of the previous one. */
  function Reversed(xs: seq<Addr>): seq<Addr> {
    seq(|xs|, i requires 0 <= i < |xs| => xs[|xs| - 1 - i])
  }

  /** `create_pool_page` followed by linking the page at the head of its pool. */
  function AddPage(s: State, c: Class, mode: Mode, base: Addr, kept: set<Addr>): State {
    var bytes := PageBytes(s.cfg, c);
    var blocks := Layout(base, Stride(c), Capacity(bytes, c));
    s.(pages := s.pages[base := Page(c, mode, bytes, blocks, 0)],
       pool := s.pool[c := [base] + PoolOf(s.pool, c)],
       places := Admit(s.places, Reversed(blocks), Free(base)),
       objs := s.objs + (map b | b in Elements(blocks) :: NewBlock(c, mode, bytes, base)),
       regions := s.regions[base := Region(bytes, mode, 0)],
       stored := s.stored + (map k | k in kept :: base),
       gauges := AddMapped(s.gauges, mode, bytes),
       mapCounted := s.mapCounted + {base})
  }

  function KeysOf(stored: map<Addr, Addr>, base: Addr, size: nat): set<Addr> {
    set k | k in stored && base <= k < base + size
  }

  /** Unmaps everything at `base`: all headers in the mapping vanish with it. */
  function ReleasePage(s: State, p: Addr): State
    requires p in s.pages
  {
    var page := s.pages[p];
    s.(pages := s.pages - {p},
       pool := s.pool[page.cls := Without(PoolOf(s.pool, page.cls), p)],
       places := Evict(s.places, Free(p)),
       objs := map b | b in s.objs && s.objs[b].base != p :: s.objs[b],
       regions := s.regions - {p},
       stored := s.stored - KeysOf(s.stored, p, page.mapped),
       gauges := AddMapped(s.gauges, page.mode, -(page.mapped as int)),
       mapCounted := s.mapCounted - {p})
  }

  /** The header that `allocate_direct_map` writes. */
  function DirectObject(req: Request, bytes: nat, base: Addr): Object {
    Object(true, DirectMap, req.mode, false, req.redzone, req.size, DirectUsable(req.size), bytes, base, 0, req.thread,
           AlignmentOf(req))
  }

  function AddDirect(s: State, t: Tid, req: Request, src: Addr, bytes: nat, base: Addr, kept: set<Addr>): State {
    var b := DirectHeader(base, req.alignment);
    s.(places := Admit(s.places, [b], Hand(t)),
       objs := s.objs[b := DirectObject(req, bytes, base)],
       regions := s.regions[base := Region(bytes, req.mode, b)],
       stored := s.stored + (map k | k in kept :: base),
       pcs := s.pcs[t := Fresh(req, src, b)])
  }

  /** Unmaps the direct object in `t`'s hand. */
  function DropDirect(s: State, t: Tid, b: Addr): State
    requires b in s.objs
  {
    var o := s.objs[b];
    s.(places := Evict(s.places, Hand(t)),
       objs := s.objs - {b},
       regions := s.regions - {o.base},
       stored := s.stored - KeysOf(s.stored, o.base, o.mapped),
       gauges := AddMapped(s.gauges, o.mode, -(o.mapped as int)),
       mapCounted := s.mapCounted - {o.base},
       pcs := s.pcs[t := Idle])
  }

  // ---- Page selection and reclaim -------------------------------------------

  function FirstWithFree(xs: seq<Addr>, places: Places): Option<Addr> {
    if xs == [] then None
    else if At(places, Free(xs[0])) != [] then Some(xs[0])
    else FirstWithFree(xs[1..], places)
  }

  /** The packing scan: `best` is replaced only by a page with strictly more live
      blocks. */
  function Fullest(xs: seq<Addr>, pages: map<Addr, Page>, places: Places, best: Option<Addr>): Option<Addr> {
    if xs == [] then best
    else
      var better := xs[0] in pages && At(places, Free(xs[0])) != []
                    && (best.None? || best.value !in pages || pages[xs[0]].liveCount > pages[best.value].liveCount);
      Fullest(xs[1..], pages, places, if better then Some(xs[0]) else best)
  }

  function SelectPage(s: State, c: Class, packing: bool): Option<Addr> {
    if packing then Fullest(PoolOf(s.pool, c), s.pages, s.places, None) else FirstWithFree(PoolOf(s.pool, c), s.places)
  }

  function FirstEmpty(xs: seq<Addr>, pages: map<Addr, Page>): Option<Addr> {
    if xs == [] then None
    else if xs[0] in pages && pages[xs[0]].liveCount == 0 then Some(xs[0])
    else FirstEmpty(xs[1..], pages)
  }

  lemma FirstEmptyIsListed(xs: seq<Addr>, pages: map<Addr, Page>)
    ensures FirstEmpty(xs, pages).Some? ==>
              FirstEmpty(xs, pages).value in xs && FirstEmpty(xs, pages).value in pages
              && pages[FirstEmpty(xs, pages).value].liveCount == 0
  {
  }

  lemma WithoutShorter(xs: seq<Addr>, b: Addr)
    requires b in xs
    ensures |Without(xs, b)| == |xs| - 1
  {
  }

  /** `release_empty_locked`: unmap first empty pages until at most `keep` remain. */
  function ReleaseEmpty(s: State, c: Class, keep: nat): State
    decreases |PoolOf(s.pool, c)|
  {
    var xs := PoolOf(s.pool, c);
    if CountEmpty(xs, s.pages) <= keep then s
    else
      match FirstEmpty(xs, s.pages)
      case None => s
      case Some(p) =>
        FirstEmptyIsListed(xs, s.pages);
        WithoutShorter(xs, p);
        if s.pages[p].cls == c then ReleaseEmpty(ReleasePage(s, p), c, keep) else s
  }

  /** `refill_tcache_locked`: at most `budget` blocks go from the page to `t`'s bin. */
  function Refill(s: State, t: Tid, p: Addr, c: Class, limit: nat, budget: nat): State
    requires p in s.pages
    decreases budget
  {
    var xs := At(s.places, Free(p));
    if xs == [] || |At(s.places, Cache(t, c))| >= limit || budget == 0 || xs[0] !in s.places.place
       || xs[0] !in s.objs then s
    else
      Refill(Take(s, t, p, xs[0], Cache(t, c), s.objs[xs[0]].(owner := 0), PcOf(s.pcs, t)), t, p, c, limit, budget - 1)
  }

  /** The pool critical section once a page with a free block is chosen. */
  function TakeFrom(s: State, t: Tid, req: Request, c: Class, src: Addr, p: Addr): State
    requires p in s.pages
  {
    var xs := At(s.places, Free(p));
    if xs == [] || xs[0] !in s.places.place || xs[0] !in s.objs then SetPc(s, t, Idle)
    else
      var b := xs[0];
      var taken := Take(s, t, p, b, Hand(t), Finalized(s.objs[b], req, c), Fresh(req, src, b));
      if req.threadCache && req.batch > 1
      then Refill(taken, t, p, c, CacheLimit(c, req.smallLimit, req.mediumLimit), req.batch - 1)
      else taken
  }

  // ---- Critical sections, by program point -----------------------------------

  function GoBegin(s: State, t: Tid, pc: Pc): State
    requires pc.Begin?
  {
    SetPc(s, t,
      if !pc.req.threadCache then Central(pc.req, pc.cls, pc.src)
      else if pc.req.drainRemote && s.pending > 0 then Scan(pc.req, pc.cls, pc.src, false, 0)
      else Pop(pc.req, pc.cls, pc.src, false))
  }

  function GoScan(s: State, t: Tid, pc: Pc): State
    requires pc.Scan?
  {
    if pc.k >= BUCKETS then SetPc(s, t, Pop(pc.req, pc.cls, pc.src, pc.again))
    else
      var i := Slot(t, pc.k);
      if i >= |s.owners| || s.owners[i] != t || At(s.places, Queue(i)) == []
      then SetPc(s, t, Scan(pc.req, pc.cls, pc.src, pc.again, pc.k + 1))
      else SetPc(s, t, Drain(pc.req, pc.cls, pc.src, pc.again, i, 0))
             .(places := Splice(s.places, Queue(i), Detached(t)))
  }

  function GoDrain(s: State, t: Tid, pc: Pc): State
    requires pc.Drain?
  {
    var xs := At(s.places, Detached(t));
    if xs == [] then SetPc(s, t, Pop(pc.req, pc.cls, pc.src, pc.again))
    else if pc.n >= DRAIN_LIMIT || xs[0] !in s.places.place || xs[0] !in s.objs || s.objs[xs[0]].page !in s.pages
    then SetPc(s, t, PutBack(pc.req, pc.cls, pc.src, pc.again, pc.bucket))
    else
      var c := s.pages[s.objs[xs[0]].page].cls;
      if |At(s.places, Cache(t, c))| >= CacheLimit(c, pc.req.smallLimit, pc.req.mediumLimit)
      then SetPc(s, t, PutBack(pc.req, pc.cls, pc.src, pc.again, pc.bucket))
      else Relocate(s, t, xs[0], Cache(t, c), Cleared(s.objs[xs[0]]),
                    Tick(pc.req, pc.cls, pc.src, pc.again, pc.bucket, pc.n + 1))
  }

  function GoTick(s: State, t: Tid, pc: Pc): State
    requires pc.Tick?
  {
    SetPc(s, t, Drain(pc.req, pc.cls, pc.src, pc.again, pc.bucket, pc.n))
      .(pending := if s.pending > 0 then s.pending - 1 else s.pending)
  }

  function GoPutBack(s: State, t: Tid, pc: Pc): State
    requires pc.PutBack?
  {
    SetPc(s, t, Pop(pc.req, pc.cls, pc.src, pc.again)).(places := Splice(s.places, Detached(t), Queue(pc.bucket)))
  }

  function GoPop(s: State, t: Tid, pc: Pc): State
    requires pc.Pop?
  {
    var xs := At(s.places, Cache(t, pc.cls));
    if xs != [] && xs[0] in s.places.place && xs[0] in s.objs
    then Relocate(s, t, xs[0], Hand(t), Finalized(s.objs[xs[0]], pc.req, pc.cls), Fresh(pc.req, pc.src, xs[0]))
    else SetPc(s, t, if !pc.again && pc.req.drainRemote then Scan(pc.req, pc.cls, pc.src, true, 0)
                     else Central(pc.req, pc.cls, pc.src))
  }

  function GoCentral(s: State, t: Tid, pc: Pc, oracle: Oracle): State
    requires pc.Central?
  {
    match SelectPage(s, pc.cls, pc.req.packing)
    case Some(p) => if p in s.pages then TakeFrom(s, t, pc.req, pc.cls, pc.src, p) else SetPc(s, t, Idle)
    case None =>
      if Capacity(PageBytes(s.cfg, pc.cls), pc.cls) == 0 || oracle.MapFails? then SetPc(s, t, Idle)
      else TakeFrom(AddPage(s, pc.cls, pc.req.mode, oracle.base, oracle.kept), t, pc.req, pc.cls, pc.src, oracle.base)
  }

  function GoMapNew(s: State, t: Tid, pc: Pc, oracle: Oracle): State
    requires pc.MapNew?
  {
    var bytes := DirectBytes(pc.req.size, pc.req.alignment, pc.req.redzone);
    if bytes.None? || oracle.MapFails? then SetPc(s, t, Idle)
    else AddDirect(s, t, pc.req, pc.src, bytes.value, oracle.base, oracle.kept)
  }

  function GoFresh(s: State, t: Tid, pc: Pc): State
    requires pc.Fresh?
  {
    if pc.b in s.places.place && pc.b in s.objs
    then Relocate(s, t, pc.b, Registry, s.objs[pc.b], Note(pc.req, pc.src, pc.b))
    else s
  }

  /** Reports the allocation; `reallocate` then copies the payload and reports the
      free of the old object. */
  function GoNote(s: State, t: Tid, pc: Pc): State
    requires pc.Note?
  {
    if pc.b !in s.objs then s
    else
      var o := s.objs[pc.b];
      var mapped := if o.pooled then s
                    else s.(gauges := AddMapped(s.gauges, pc.req.mode, o.mapped),
                            mapCounted := s.mapCounted + {o.base});
      var noted := mapped.(gauges := AddLive(mapped.gauges, o.mode, o.usable), counted := s.counted + {pc.b},
                           pcs := s.pcs[t := Idle]);
      if pc.src == 0 then noted else StartFree(noted, t, pc.src)
  }

  /** `adaptive_telemetry_on_free_begin` and the policy's decision. */
  function StartFree(s: State, t: Tid, b: Addr): State {
    if b !in s.objs then s
    else
      var o := s.objs[b];
      s.(gauges := AddLive(s.gauges, o.mode, -(o.usable as int)), counted := s.counted - {b},
         pcs := s.pcs[t := Freeing(b, PlanFree(s.cfg, o.mode, o.storage))])
  }

  function GoFreeing(s: State, t: Tid, pc: Pc): State
    requires pc.Freeing?
  {
    if pc.b in s.places.place && pc.b in s.objs
    then Relocate(s, t, pc.b, Hand(t), s.objs[pc.b], Doomed(pc.b, pc.dec))
    else s
  }

  function GoDoomed(s: State, t: Tid, pc: Pc): State
    requires pc.Doomed?
  {
    if pc.b !in s.objs || pc.b !in s.places.place then s
    else
      var o := s.objs[pc.b];
      if o.pooled then
        var remote := o.owner != t;
        if pc.dec.remoteQueue && remote then SetPc(s, t, Enqueue(pc.b, pc.dec, 0))
        else if pc.dec.action.CacheIt? && !remote && o.page in s.pages
                && |At(s.places, Cache(t, s.pages[o.page].cls))|
                   < CacheLimit(s.pages[o.page].cls, pc.dec.smallLimit, pc.dec.mediumLimit)
        then Relocate(s, t, pc.b, Cache(t, s.pages[o.page].cls), Cleared(o), Idle)
        else SetPc(s, t, Return(pc.b, pc.dec))
      else if pc.dec.quarantine || pc.dec.action.QuarantineIt?
      then Relocate(s, t, pc.b, Quarantine, o.(live := false), Idle)
      else DropDirect(s, t, pc.b)
  }

  function GoEnqueue(s: State, t: Tid, pc: Pc): State
    requires pc.Enqueue?
  {
    if pc.b !in s.objs || pc.b !in s.places.place || pc.k >= BUCKETS then SetPc(s, t, Return(pc.b, pc.dec))
    else
      var o := s.objs[pc.b];
      var i := Slot(o.owner, pc.k);
      if i < |s.owners| && (s.owners[i] == 0 || s.owners[i] == o.owner)
      then Relocate(s.(owners := s.owners[i := o.owner]), t, pc.b, Queue(i), Queued(o), Idle).(pending := s.pending + 1)
      else SetPc(s, t, Enqueue(pc.b, pc.dec, pc.k + 1))
  }

  function GoReturn(s: State, t: Tid, pc: Pc): State
    requires pc.Return?
  {
    if pc.b !in s.objs || pc.b !in s.places.place || s.objs[pc.b].page !in s.pages then s
    else
      var p := s.objs[pc.b].page;
      var c := s.pages[p].cls;
      var given := Give(s, t, pc.b);
      var reclaim := pc.dec.action.Purge? || pc.dec.action.Unmap?;
      if reclaim && given.pages[p].liveCount == 0 && p in PoolOf(given.pool, c)
      then ReleasePage(given, p)
      else ReleaseEmpty(given, c, if reclaim then 0 else pc.dec.keep)
  }

  function Go(s: State, t: Tid, oracle: Oracle): State {
    var pc := PcOf(s.pcs, t);
    match pc
    case Idle => s
    case Begin(_, _, _) => GoBegin(s, t, pc)
    case Scan(_, _, _, _, _) => GoScan(s, t, pc)
    case Drain(_, _, _, _, _, _) => GoDrain(s, t, pc)
    case Tick(_, _, _, _, _, _) => GoTick(s, t, pc)
    case PutBack(_, _, _, _, _) => GoPutBack(s, t, pc)
    case Pop(_, _, _, _) => GoPop(s, t, pc)
    case Central(_, _, _) => GoCentral(s, t, pc, oracle)
    case MapNew(_, _) => GoMapNew(s, t, pc, oracle)
    case Fresh(_, _, _) => GoFresh(s, t, pc)
    case Note(_, _, _) => GoNote(s, t, pc)
    case Freeing(_, _) => GoFreeing(s, t, pc)
    case Doomed(_, _) => GoDoomed(s, t, pc)
    case Enqueue(_, _, _) => GoEnqueue(s, t, pc)
    case Return(_, _) => GoReturn(s, t, pc)
  }

  /** Bytes the next `mmap` of thread `t` would ask for. */
  function Wanted(s: State, t: Tid): nat {
    var pc := PcOf(s.pcs, t);
    match pc
    case Central(_, c, _) => PageBytes(s.cfg, c)
    case MapNew(req, _) =>
      (match DirectBytes(req.size, req.alignment, req.redzone)
       case Some(n) => n
       case None => 0)
    case _ => 0
  }

  // ---- Entry points -----------------------------------------------------------

  function PageKey(a: Addr): Addr {
    a / PAGE_SIZE * PAGE_SIZE
  }

  /** `header_plausible`, on a header at address `b`. */
  predicate Plausible(o: Object) {
    && o.live
    && o.requested <= o.usable
    && (if o.pooled then o.page != 0 && o.base == o.page else o.base != 0 && o.mapped >= HEADER)
  }

  /** `header_from_user(b + HEADER)`. */
  function HeaderFromUser(s: State, b: Addr): Option<Addr> {
    if PageKey(b + HEADER) in s.stored && b in s.objs && Plausible(s.objs[b]) then Some(b) else None
  }

  function StartAlloc(s: State, t: Tid, size: nat, alignment: nat, mode: Mode, src: Addr): State {
    var viaRealloc := src != 0;
    var req := MakeRequest(size, alignment, mode, t, viaRealloc);
    var storage := Route(mode, size, alignment, t, viaRealloc);
    match ClassFor(storage, size)
    case Some(c) => SetPc(s, t, Begin(req, c, src))
    case None => SetPc(s, t, if storage.DirectMap? then MapNew(req, src) else Idle)
  }

  datatype Step =
    | SwitchMode(mode: Mode)
    | Malloc(t: Tid, size: nat, alignment: nat)
    | Realloc(t: Tid, b: Addr, size: nat)
    | FreeAt(t: Tid, b: Addr)
    | Advance(t: Tid, oracle: Oracle)

  /** No operation on the object is under way: what a client may free or resize. */
  ghost predicate Quiet(s: State, b: Addr) {
    forall t :: t in s.pcs ==> b !in Claims(s.pcs[t]) && b !in Held(s.pcs[t])
  }

  /** The header is either one the allocator wrote or on a page it does not look at. */
  ghost predicate Addressable(s: State, b: Addr) {
    if b in s.objs then Quiet(s, b) else PageKey(b + HEADER) !in s.stored
  }

  ghost predicate Enabled(s: State, step: Step) {
    match step
    case SwitchMode(_) => true
    case Malloc(t, size, alignment) => t != 0 && PcOf(s.pcs, t).Idle? && size < WORD && alignment < WORD
    case Realloc(t, b, size) => t != 0 && PcOf(s.pcs, t).Idle? && 0 < size < WORD && Addressable(s, b)
    case FreeAt(t, b) => t != 0 && PcOf(s.pcs, t).Idle? && Addressable(s, b)
    case Advance(t, oracle) => t in s.pcs && OracleOk(s.regions, oracle, Wanted(s, t))
  }

  function Apply(s: State, step: Step): State {
    match step
    case SwitchMode(m) => s.(active := m)
    case Malloc(t, size, alignment) => StartAlloc(s, t, size, alignment, s.active, 0)
    case Realloc(t, b, size) =>
      if HeaderFromUser(s, b).None? || size <= s.objs[b].usable then s
      else StartAlloc(s, t, size, 16, s.objs[b].mode, b)
    case FreeAt(t, b) =>
      if HeaderFromUser(s, b).None? then s else StartFree(s, t, b)
    case Advance(t, oracle) => Go(s, t, oracle)
  }

  function Init(cfg: Config, mode: Mode): State {
    State(cfg, mode, map[], map[], Places(map[], map[]), map[], map[], map[], seq(BUCKETS, _ => 0), 0, map[],
          Gauges(0, map[], 0, map[]), {}, {})
  }

  /** The steps are enabled one after the other and lead from `s` to `s'`. */
  ghost predicate Runs(s: State, steps: seq<Step>, s': State)
    decreases |steps|
  {
    if steps == [] then s == s' else Enabled(s, steps[0]) && Runs(Apply(s, steps[0]), steps[1..], s')
  }
}
