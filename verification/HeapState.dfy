/** State of the shared memory layer and the invariant that every critical section
    keeps (src/adaptive_services.cpp). */
module HeapState {
  import opened Types
  import opened Policy
  import opened Geometry
  import opened Places

  /** An AdaptiveHeader without its two links: `live` is `magic == ADAPTIVE_MAGIC`;
      `align` remembers the alignment the object was placed with. */
  datatype Object = Object(
    live: bool,
    storage: Storage,
    mode: Mode,
    pooled: bool,
    redzone: bool,
    requested: nat,
    usable: nat,
    mapped: nat,
    base: Addr,
    page: Addr,
    owner: Tid,
    align: nat)

  /** An AdaptivePage.  `blocks` is its layout; its capacity is `|blocks|`. */
  datatype Page = Page(cls: Class, mode: Mode, mapped: nat, blocks: seq<Addr>, liveCount: nat)

  /** A mapping obtained from the system, the mode it is accounted to, and the header
      of the direct object in it (zero for a pool page). */
  datatype Region = Region(size: nat, mode: Mode, holder: Addr)

  /** Where a thread is between two critical sections.  `src` is the object being
      reallocated, or zero for a plain allocation. */
  datatype Pc =
    | Idle
    | Begin(req: Request, cls: Class, src: Addr)
    | Scan(req: Request, cls: Class, src: Addr, again: bool, k: nat)
    | Drain(req: Request, cls: Class, src: Addr, again: bool, bucket: nat, n: nat)
    | Tick(req: Request, cls: Class, src: Addr, again: bool, bucket: nat, n: nat)
    | PutBack(req: Request, cls: Class, src: Addr, again: bool, bucket: nat)
    | Pop(req: Request, cls: Class, src: Addr, again: bool)
    | Central(req: Request, cls: Class, src: Addr)
    | MapNew(req: Request, src: Addr)
    | Fresh(req: Request, src: Addr, b: Addr)
    | Note(req: Request, src: Addr, b: Addr)
    | Freeing(b: Addr, dec: Decision)
    | Doomed(b: Addr, dec: Decision)
    | Enqueue(b: Addr, dec: Decision, k: nat)
    | Return(b: Addr, dec: Decision)

  datatype Gauges = Gauges(live: int, modeLive: map<Mode, int>, mapped: int, modeMapped: map<Mode, int>)

  /** `stored` holds the page keys in the page table, each with the mapping it was
      registered for; `counted` and `mapCounted` record which objects and mappings
      the gauges have been told about. */
  datatype State = State(
    cfg: Config,
    active: Mode,
    pages: map<Addr, Page>,
    pool: map<Class, seq<Addr>>,
    places: Places,
    objs: map<Addr, Object>,
    regions: map<Addr, Region>,
    stored: map<Addr, Addr>,
    owners: seq<Tid>,
    pending: nat,
    pcs: map<Tid, Pc>,
    gauges: Gauges,
    counted: set<Addr>,
    mapCounted: set<Addr>)

  function PcOf(pcs: map<Tid, Pc>, t: Tid): Pc {
    if t in pcs then pcs[t] else Idle
  }

  function PoolOf(pool: map<Class, seq<Addr>>, c: Class): seq<Addr> {
    if c in pool then pool[c] else []
  }

  /** The block a thread holds outside every chain. */
  function Held(pc: Pc): seq<Addr> {
    if pc.Fresh? || pc.Doomed? || pc.Enqueue? || pc.Return? then [pc.b] else []
  }

  function Source(pc: Pc): Addr {
    if pc.Idle? || pc.Freeing? || pc.Doomed? || pc.Enqueue? || pc.Return? then 0 else pc.src
  }

  /** The object being reallocated or freed that is still in the registry, and the
      one just inserted there. */
  function Claims(pc: Pc): set<Addr> {
    (if Source(pc) != 0 then {Source(pc)} else {}) + (if pc.Note? || pc.Freeing? then {pc.b} else {})
  }

  predicate Draining(pc: Pc) {
    pc.Drain? || pc.Tick? || pc.PutBack?
  }

  // ---- Invariant, component by component -----------------------------------

  predicate Within(r: Addr, region: Region, a: Addr) {
    r <= a < r + region.size
  }

  predicate Apart(r: Addr, size: nat, q: Addr, size': nat) {
    r + size <= q || q + size' <= r
  }

  predicate GoodRegion(r: Addr, size: nat) {
    0 < r && r % PAGE_SIZE == 0 && 0 < size && size % PAGE_SIZE == 0 && r + size <= WORD
  }

  ghost predicate RegionsOk(regions: map<Addr, Region>) {
    && (forall r :: r in regions ==> GoodRegion(r, regions[r].size))
    && (forall r, q :: r in regions && q in regions && r != q ==> Apart(r, regions[r].size, q, regions[q].size))
  }

  /** Keys in the page table belong to current mappings. */
  ghost predicate StoredOk(stored: map<Addr, Addr>, regions: map<Addr, Region>) {
    forall k :: k in stored ==> k % PAGE_SIZE == 0 && stored[k] in regions && Within(stored[k], regions[stored[k]], k)
  }

  ghost predicate PoolsOk(pages: map<Addr, Page>, pool: map<Class, seq<Addr>>) {
    && (forall c :: NoDup(PoolOf(pool, c)))
    && (forall c, p :: p in PoolOf(pool, c) <==> p in pages && pages[p].cls == c)
  }

  ghost predicate PageOk(p: Addr, page: Page, regions: map<Addr, Region>, objs: map<Addr, Object>) {
    && ValidClass(page.cls)
    && p in regions && regions[p] == Region(page.mapped, page.mode, 0)
    && page.blocks == Layout(p, Stride(page.cls), Capacity(page.mapped, page.cls))
    && page.blocks != []
    && (forall b :: b in page.blocks ==> b in objs && objs[b].pooled && objs[b].page == p)
  }

  ghost predicate PagesOk(pages: map<Addr, Page>, regions: map<Addr, Region>, objs: map<Addr, Object>) {
    forall p :: p in pages ==> PageOk(p, pages[p], regions, objs)
  }

  function Tail(o: Object): nat {
    if o.redzone then REDZONE else 0
  }

  ghost predicate ObjectOk(b: Addr, o: Object, pages: map<Addr, Page>, regions: map<Addr, Region>) {
    && o.requested <= o.usable
    && o.base in regions && o.mapped == regions[o.base].size
    && (o.pooled ==>
          && o.page in pages && o.base == o.page
          && b in pages[o.page].blocks
          && o.storage == pages[o.page].cls.storage
          && o.usable == ClassUsable(pages[o.page].cls)
          && !o.redzone && o.align == 16)
    && (!o.pooled ==>
          && o.storage.DirectMap? && o.page == 0
          && regions[o.base].mode == o.mode && regions[o.base].holder == b
          && o.align >= 16 && (b + HEADER) % o.align == 0
          && o.base <= b && b + HEADER + o.usable + Tail(o) <= o.base + o.mapped)
  }

  /** Every object lies in its mapping; a direct mapping holds one object. */
  ghost predicate ObjectsOk(objs: map<Addr, Object>, pages: map<Addr, Page>, regions: map<Addr, Region>) {
    forall b :: b in objs ==> b != 0 && ObjectOk(b, objs[b], pages, regions)
  }

  /** What a header says on each chain. */
  predicate LocOk(l: Loc, o: Object, pages: map<Addr, Page>, owners: seq<Tid>) {
    match l
    case Free(p) => o.pooled && o.page == p && !o.live && o.requested == 0 && o.owner == 0
    case Cache(_, c) => o.pooled && o.page in pages && pages[o.page].cls == c && !o.live && o.requested == 0
                        && o.owner == 0
    case Queue(i) => o.pooled && !o.live && o.requested == 0 && o.owner != 0 && i < |owners| && owners[i] == o.owner
    case Detached(t) => o.pooled && !o.live && o.requested == 0 && o.owner != 0 && o.owner == t
    case Registry => o.live && o.owner != 0
    case Hand(_) => o.live && o.owner != 0
    case Quarantine => !o.pooled && !o.live && o.mode.HardenedDebug?
  }

  ghost predicate StatusOk(objs: map<Addr, Object>, places: Places, pages: map<Addr, Page>, owners: seq<Tid>) {
    && objs.Keys == places.place.Keys
    && (forall b :: b in objs ==> LocOk(places.place[b], objs[b], pages, owners))
  }

  ghost predicate HandsOk(places: Places, pcs: map<Tid, Pc>) {
    forall t :: At(places, Hand(t)) == Held(PcOf(pcs, t)) && (At(places, Detached(t)) != [] ==> Draining(PcOf(pcs, t)))
  }

  predicate RequestOk(t: Tid, req: Request) {
    && req.thread == t
    && req.smallLimit <= 192 && req.mediumLimit <= 48
    && req.size < WORD && req.alignment < WORD
  }

  predicate PooledOk(t: Tid, req: Request, c: Class) {
    RequestOk(t, req) && ValidClass(c) && req.size <= ClassUsable(c) && req.alignment <= 16
  }

  /** The alignment a request is entitled to. */
  function AlignmentOf(req: Request): nat {
    if req.alignment > 16 then req.alignment else 16
  }

  /** The header says what the request asked for. */
  predicate Answers(o: Object, req: Request) {
    o.mode == req.mode && o.requested == req.size && o.align == AlignmentOf(req) && o.owner == req.thread
  }

  ghost predicate PcOk(t: Tid, pc: Pc, cfg: Config, objs: map<Addr, Object>) {
    match pc
    case Idle => true
    case Begin(req, c, _) => PooledOk(t, req, c)
    case Scan(req, c, _, _, k) => PooledOk(t, req, c) && k <= BUCKETS
    case Drain(req, c, _, _, i, _) => PooledOk(t, req, c) && i < BUCKETS
    case Tick(req, c, _, _, i, _) => PooledOk(t, req, c) && i < BUCKETS
    case PutBack(req, c, _, _, i) => PooledOk(t, req, c) && i < BUCKETS
    case Pop(req, c, _, _) => PooledOk(t, req, c)
    case Central(req, c, _) => PooledOk(t, req, c)
    case MapNew(req, _) => RequestOk(t, req)
    case Fresh(req, _, b) => RequestOk(t, req) && b in objs && Answers(objs[b], req)
    case Note(req, src, b) => RequestOk(t, req) && b != src && b in objs && Answers(objs[b], req)
    case Freeing(b, dec) => b in objs && dec == PlanFree(cfg, objs[b].mode, objs[b].storage)
    case Doomed(b, dec) => b in objs && dec == PlanFree(cfg, objs[b].mode, objs[b].storage)
    case Enqueue(b, dec, k) => b in objs && dec == PlanFree(cfg, objs[b].mode, objs[b].storage) && objs[b].pooled
                               && k <= BUCKETS
    case Return(b, dec) => b in objs && dec == PlanFree(cfg, objs[b].mode, objs[b].storage) && objs[b].pooled
  }

  /** Claimed objects are live and claimed by one thread only. */
  ghost predicate PcsOk(pcs: map<Tid, Pc>, cfg: Config, objs: map<Addr, Object>, places: Places) {
    && (forall t :: t in pcs ==> t != 0 && PcOk(t, pcs[t], cfg, objs))
    && (forall t, b :: t in pcs && b in Claims(pcs[t]) ==> b in places.place && places.place[b] == Registry)
    && (forall t, u :: t in pcs && u in pcs && t != u ==> Claims(pcs[t]) !! Claims(pcs[u]))
  }

  ghost predicate LiveCountsOk(pages: map<Addr, Page>, places: Places) {
    forall p :: p in pages ==> pages[p].liveCount + |At(places, Free(p))| == |pages[p].blocks|
  }

  /** `remote_bucket_index`: only the low bytes of the three words matter modulo 256. */
  function Start(o: Tid): nat {
    (((o % 256) as bv8) ^ ((o / 0x2_0000 % 256) as bv8) ^ ((o / 0x2_0000_0000 % 256) as bv8)) as nat
  }

  function Slot(o: Tid, k: nat): (r: nat)
    ensures r < BUCKETS
  {
    (Start(o) + k) % BUCKETS
  }

  /** The first `k` buckets on `o`'s probe path belong to other threads. */
  ghost predicate ForeignPrefix(owners: seq<Tid>, o: Tid, k: nat)
    requires |owners| == BUCKETS
  {
    forall j :: 0 <= j < k ==> owners[Slot(o, j)] != 0 && owners[Slot(o, j)] != o
  }

  /** The position of bucket `i` on `o`'s probe path. */
  function Distance(o: Tid, i: nat): nat {
    (i + BUCKETS - Start(o)) % BUCKETS
  }

  /** A claimed bucket is the first on its owner's probe path that is not foreign. */
  ghost predicate BucketsOk(owners: seq<Tid>, pcs: map<Tid, Pc>, objs: map<Addr, Object>) {
    && |owners| == BUCKETS
    && (forall i :: 0 <= i < BUCKETS && owners[i] != 0 ==> ForeignPrefix(owners, owners[i], Distance(owners[i], i)))
    && (forall t :: t in pcs && pcs[t].Enqueue? && pcs[t].b in objs ==>
          ForeignPrefix(owners, objs[pcs[t].b].owner, pcs[t].k))
    && (forall t :: t in pcs && Draining(pcs[t]) ==> pcs[t].bucket < BUCKETS && owners[pcs[t].bucket] == t)
  }

  function Waiting(places: Places): set<Addr> {
    set b | b in places.place && (places.place[b].Queue? || places.place[b].Detached?)
  }

  function Ticking(pcs: map<Tid, Pc>): set<Tid> {
    set t | t in pcs && pcs[t].Tick?
  }

  /** `g_remote_pending` counts the queued and detached blocks, plus one for each
      thread that has cached a block but not yet decremented the counter. */
  ghost predicate PendingOk(pending: nat, places: Places, pcs: map<Tid, Pc>) {
    pending == |Waiting(places)| + |Ticking(pcs)|
  }

  ghost predicate CachesOk(places: Places) {
    forall t, c :: |At(places, Cache(t, c))| <= CacheCeiling(c)
  }

  function CountEmpty(xs: seq<Addr>, pages: map<Addr, Page>): nat {
    if xs == [] then 0
    else (if xs[0] in pages && pages[xs[0]].liveCount == 0 then 1 else 0) + CountEmpty(xs[1..], pages)
  }

  function EmptyCeiling(cfg: Config): nat {
    if cfg.emptyLimit > 32 then cfg.emptyLimit else 32
  }

  ghost predicate EmptiesOk(cfg: Config, pages: map<Addr, Page>, pool: map<Class, seq<Addr>>) {
    forall c :: CountEmpty(PoolOf(pool, c), pages) <= EmptyCeiling(cfg)
  }

  // ---- Gauges ---------------------------------------------------------------

  ghost function Sum(s: set<Addr>, w: map<Addr, nat>): nat
    requires s <= w.Keys
  {
    if s == {} then 0
    else
      var b :| b in s;
      w[b] + Sum(s - {b}, w)
  }

  lemma SumTake(s: set<Addr>, w: map<Addr, nat>, b: Addr)
    requires b in s && s <= w.Keys
    ensures Sum(s, w) == w[b] + Sum(s - {b}, w)
  {
    var a :| a in s && Sum(s, w) == w[a] + Sum(s - {a}, w);
    if a != b {
      SumTake(s - {a}, w, b);
      SumTake(s - {b}, w, a);
      assert s - {a} - {b} == s - {b} - {a};
    }
  }

  lemma SumFrame(s: set<Addr>, w: map<Addr, nat>, w': map<Addr, nat>)
    requires s <= w.Keys && s <= w'.Keys
    requires forall b :: b in s ==> w[b] == w'[b]
    ensures Sum(s, w) == Sum(s, w')
  {
  }

  ghost function Usables(objs: map<Addr, Object>): map<Addr, nat> {
    map b | b in objs :: objs[b].usable
  }

  ghost function Sizes(regions: map<Addr, Region>): map<Addr, nat> {
    map r | r in regions :: regions[r].size
  }

  function ObjectsOf(s: set<Addr>, objs: map<Addr, Object>, m: Mode): set<Addr> {
    set b | b in s && b in objs && objs[b].mode == m
  }

  function RegionsOf(s: set<Addr>, regions: map<Addr, Region>, m: Mode): set<Addr> {
    set r | r in s && r in regions && regions[r].mode == m
  }

  function Gauge(g: map<Mode, int>, m: Mode): int {
    if m in g then g[m] else 0
  }

  /** `live_bytes` is the sum of the usable sizes of the counted objects, in total and
      per allocation mode. */
  ghost predicate LiveGaugeOk(g: Gauges, counted: set<Addr>, objs: map<Addr, Object>) {
    && counted <= objs.Keys
    && g.live == Sum(counted, Usables(objs))
    && (forall m :: Gauge(g.modeLive, m) == Sum(ObjectsOf(counted, objs, m), Usables(objs)))
  }

  ghost predicate MapGaugeOk(g: Gauges, counted: set<Addr>, regions: map<Addr, Region>) {
    && counted <= regions.Keys
    && g.mapped == Sum(counted, Sizes(regions))
    && (forall m :: Gauge(g.modeMapped, m) == Sum(RegionsOf(counted, regions, m), Sizes(regions)))
  }

  /** The registered object whose allocation is not yet reported, or whose free is
      already reported. */
  function Unreported(pc: Pc): set<Addr> {
    if pc.Note? || pc.Freeing? then {pc.b} else {}
  }

  function AllUnreported(pcs: map<Tid, Pc>): set<Addr> {
    set t, b | t in pcs && b in Unreported(pcs[t]) :: b
  }

  ghost predicate CountedOk(counted: set<Addr>, places: Places, pcs: map<Tid, Pc>) {
    counted == Elements(At(places, Registry)) - AllUnreported(pcs)
  }

  /** The direct mapping whose `adaptive_telemetry_on_mapped` is still to come. */
  function NewMapping(pc: Pc, objs: map<Addr, Object>): Addr {
    if (pc.Fresh? || pc.Note?) && pc.b in objs && !objs[pc.b].pooled then objs[pc.b].base else 0
  }

  function NewMappings(pcs: map<Tid, Pc>, objs: map<Addr, Object>): set<Addr> {
    set t | t in pcs :: NewMapping(pcs[t], objs)
  }

  ghost predicate MapCountedOk(counted: set<Addr>, regions: map<Addr, Region>, pcs: map<Tid, Pc>,
                               objs: map<Addr, Object>) {
    counted == regions.Keys - NewMappings(pcs, objs)
  }

  /** Everything but the bound on empty pages, which the pool critical section
      suspends while it holds the class mutex. */
  ghost predicate Core(s: State) {
    && ValidConfig(s.cfg)
    && RegionsOk(s.regions)
    && StoredOk(s.stored, s.regions)
    && PoolsOk(s.pages, s.pool)
    && PagesOk(s.pages, s.regions, s.objs)
    && ObjectsOk(s.objs, s.pages, s.regions)
    && WellPlaced(s.places)
    && StatusOk(s.objs, s.places, s.pages, s.owners)
    && HandsOk(s.places, s.pcs)
    && PcsOk(s.pcs, s.cfg, s.objs, s.places)
    && LiveCountsOk(s.pages, s.places)
    && BucketsOk(s.owners, s.pcs, s.objs)
    && PendingOk(s.pending, s.places, s.pcs)
    && CachesOk(s.places)
    && LiveGaugeOk(s.gauges, s.counted, s.objs)
    && CountedOk(s.counted, s.places, s.pcs)
    && MapGaugeOk(s.gauges, s.mapCounted, s.regions)
    && MapCountedOk(s.mapCounted, s.regions, s.pcs, s.objs)
  }

  ghost predicate Inv(s: State) {
    Core(s) && EmptiesOk(s.cfg, s.pages, s.pool)
  }
}
