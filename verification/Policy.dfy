/** The eight mode policies (src/adaptive_modes.cpp) and the mutually recursive
    storage routing of the memory layer (src/adaptive_services.cpp). */
module Policy {
  import opened Types

  /** `align_up` for the power-of-two alignments it is called with: masking off
      the low bits of `v + a - 1` is rounding it down to a multiple of `a`. */
  function AlignUp(v: nat, a: nat): nat
    requires a > 0
  {
    (v + a - 1) / a * a
  }

  function FragmentationPrefersDirect(size: nat, alignment: nat): bool {
    if alignment > 16 || size >= 96 * 1024 then true
    else if size <= 1024 || size > 64 * 1024 then false
    else
      var rounded := AlignUp(size, 1024);
      if rounded <= size then false
      else size >= 16 * 1024 && (rounded - size) * 100 >= size * 20
  }

  function PlanAllocate(mode: Mode, size: nat, alignment: nat): Plan {
    match mode
    case Balanced =>
      Plan(if alignment > 16 then PreferDirectMap else PreferAuto,
           false, false, false, false, false, 16, 0, 0, 64 * 1024)
    case ThroughputCache =>
      var storage := if alignment > 16 then PreferDirectMap
                     else if size <= 1024 then PreferSizeClass
                     else if size <= 64 * 1024 then PreferSpan
                     else PreferAuto;
      Plan(storage, true, false, false, false, false, 96, 192, 48, 256 * 1024)
    case DeterministicLatency =>
      Plan(if alignment > 16 then PreferDirectMap else PreferAuto,
           true, false, false, false, false, 8, 16, 6, 256 * 1024)
    case CompactRSS =>
      var storage := if alignment > 16 || size > 96 * 1024 then PreferDirectMap else PreferAuto;
      Plan(storage, false, false, storage.PreferDirectMap?, false, true, 4, 0, 0, 96 * 1024)
    case FragmentationStable =>
      var storage := if FragmentationPrefersDirect(size, alignment) then PreferDirectMap else PreferAuto;
      Plan(storage, false, false, storage.PreferDirectMap?, false, true, 8, 0, 0, 96 * 1024)
    case CrossThreadMessage =>
      Plan(if alignment > 16 then PreferDirectMap else PreferAuto,
           true, false, false, true, false, 64, 96, 24, 256 * 1024)
    case LargeObjectStreaming =>
      var storage := if alignment > 16 || size >= 4 * 1024 then PreferDirectMap else PreferSizeClass;
      Plan(storage, false, false, storage.PreferDirectMap?, false, false, 1, 0, 0, 4 * 1024)
    case HardenedDebug =>
      Plan(PreferDirectMap, false, true, true, false, false, 1, 0, 0, 0)
  }

  function PlanFree(cfg: Config, mode: Mode, storage: Storage): Decision {
    match mode
    case Balanced => Decision(ReturnToCentralPool, false, false, false, false, cfg.emptyLimit, 0, 0)
    case ThroughputCache => Decision(CacheIt, false, false, false, false, 32, 192, 48)
    case DeterministicLatency => Decision(CacheIt, false, false, false, false, 6, 16, 6)
    case CompactRSS =>
      if storage.DirectMap? then Decision(Unmap, false, false, false, false, 0, 0, 0)
      else Decision(Purge, false, false, false, false, 0, 0, 0)
    case FragmentationStable =>
      if storage.DirectMap? then Decision(Unmap, false, false, false, false, 0, 0, 0)
      else Decision(ReturnToCentralPool, false, false, false, false, 1, 0, 0)
    case CrossThreadMessage => Decision(CacheIt, false, false, false, true, 8, 96, 24)
    case LargeObjectStreaming =>
      if storage.DirectMap? then Decision(Unmap, false, false, false, false, 0, 0, 0)
      else Decision(Purge, false, false, false, false, 0, 0, 0)
    case HardenedDebug => Decision(QuarantineIt, true, true, true, false, 0, 0, 0)
  }

  /** `request_from_plan` of the facade (`viaRealloc` false) and the request that
      `reallocate` builds, which does not fold the storage preference into
      `prefer_direct_map` (`viaRealloc` true). */
  function MakeRequest(size: nat, alignment: nat, mode: Mode, t: Tid, viaRealloc: bool): Request {
    var plan := PlanAllocate(mode, size, alignment);
    Request(size, alignment, mode, t, plan.threadCache,
            plan.preferDirect || (!viaRealloc && plan.storage.PreferDirectMap?),
            plan.redzone, plan.drainRemote, plan.packing, plan.batch,
            plan.smallLimit, plan.mediumLimit, plan.directThreshold)
  }

  // ---- Routing -------------------------------------------------------------

  function AutoStorageFor(req: Request): Storage {
    if req.alignment > 16 || req.preferDirect then DirectMap
    else if req.size <= SMALL_MAX then SizeClass
    else if req.size <= MEDIUM_MAX then Span
    else DirectMap
  }

  predicate SizeClassRedirects(req: Request) {
    req.alignment > 16 || req.size > SMALL_MAX
  }

  predicate SpanRedirects(req: Request) {
    req.alignment > 16 || req.size <= SMALL_MAX || req.size > MEDIUM_MAX
  }

  /** The storage that finally serves a request entered at `allocate_auto`. */
  function RouteAuto(req: Request): Storage
    decreases 1
  {
    match AutoStorageFor(req)
    case SizeClass => RouteSizeClass(req)
    case Span => RouteSpan(req)
    case DirectMap => DirectMap
  }

  /** ... entered at `allocate_size_class`, which may bounce to `allocate_auto`. */
  function RouteSizeClass(req: Request): Storage
    decreases if SizeClassRedirects(req) then 2 else 0
  {
    if SizeClassRedirects(req) then RouteAuto(req) else SizeClass
  }

  /** ... entered at `allocate_span`, which may bounce to `allocate_auto`. */
  function RouteSpan(req: Request): Storage
    decreases if SpanRedirects(req) then 2 else 0
  {
    if SpanRedirects(req) then RouteAuto(req) else Span
  }

  function RouteRequest(preference: Preference, req: Request): Storage {
    match preference
    case PreferSizeClass => RouteSizeClass(req)
    case PreferSpan => RouteSpan(req)
    case PreferExtent => DirectMap
    case PreferDirectMap => DirectMap
    case PreferAuto => RouteAuto(req)
  }

  /** The storage serving an allocation of the facade or of `reallocate`. */
  function Route(mode: Mode, size: nat, alignment: nat, t: Tid, viaRealloc: bool): Storage {
    RouteRequest(PlanAllocate(mode, size, alignment).storage, MakeRequest(size, alignment, mode, t, viaRealloc))
  }

  /** The modes that send a pool-sized object to its own mapping. */
  predicate IsolatesObject(mode: Mode, size: nat) {
    mode.HardenedDebug? || (mode.LargeObjectStreaming? && size >= 4096)
  }

  /** Rounding a medium size up to its span class wastes less than 1024 bytes, so
      the 20 % waste test of `fragmentation_prefers_direct` never fires: the mode
      sends an object to a direct mapping only for alignment or for 96 KiB and up. */
  lemma WasteTestNeverFires(size: nat, alignment: nat)
    ensures FragmentationPrefersDirect(size, alignment) <==> alignment > 16 || size >= 96 * 1024
  {
  }

  /** Two bounces at most: the recursion ends where `auto_storage_for` points,
      unless the entry point itself accepts the request. */
  lemma RouteEnds(req: Request)
    ensures RouteAuto(req) == AutoStorageFor(req)
    ensures RouteSizeClass(req) == if SizeClassRedirects(req) then AutoStorageFor(req) else SizeClass
    ensures RouteSpan(req) == if SpanRedirects(req) then AutoStorageFor(req) else Span
  {
  }

  /** Whatever the mode's preference and wherever the request enters the mutual
      recursion, the storage reached is decided by size, alignment and the two
      isolating modes alone; `malloc` and `realloc` agree on it although they fill
      `prefer_direct_map` differently. */
  lemma RouteIsDecidedBySize(mode: Mode, size: nat, alignment: nat, t: Tid, viaRealloc: bool)
    ensures Route(mode, size, alignment, t, viaRealloc).DirectMap? <==>
            alignment > 16 || size > MEDIUM_MAX || IsolatesObject(mode, size)
    ensures Route(mode, size, alignment, t, viaRealloc).SizeClass? <==>
            alignment <= 16 && size <= SMALL_MAX && !mode.HardenedDebug?
    ensures Route(mode, size, alignment, t, viaRealloc) == Route(mode, size, alignment, t, !viaRealloc)
  {
    WasteTestNeverFires(size, alignment);
    RouteEnds(MakeRequest(size, alignment, mode, t, viaRealloc));
    RouteEnds(MakeRequest(size, alignment, mode, t, !viaRealloc));
  }

  /** The release decisions a policy can return: the empty-page keep limit, the
      thread-cache limits, and the fact that no large-object mapping is ever handed
      to the extent cache, which therefore stays empty. */
  lemma ReleaseLimits(cfg: Config, mode: Mode, storage: Storage)
    ensures var d := PlanFree(cfg, mode, storage);
            && d.keep <= (if cfg.emptyLimit > 32 then cfg.emptyLimit else 32)
            && d.smallLimit <= 192 && d.mediumLimit <= 48
            && !(d.action.CacheIt? && mode.LargeObjectStreaming?)
            && (d.quarantine <==> mode.HardenedDebug?)
            && (d.quarantine <==> d.action.QuarantineIt?)
  {
  }

  // ---- What the plans of a mode have in common --------------------------------------------------

  /** The modes that keep freed blocks in the thread that allocated them. */
  predicate UsesBins(mode: Mode) {
    mode.ThroughputCache? || mode.DeterministicLatency? || mode.CrossThreadMessage?
  }

  /** How many blocks a bin takes under each mode. */
  function BinLimit(mode: Mode, storage: Storage): nat {
    match mode
    case ThroughputCache => (match storage case SizeClass => 192 case Span => 48 case DirectMap => 0)
    case DeterministicLatency => (match storage case SizeClass => 16 case Span => 6 case DirectMap => 0)
    case CrossThreadMessage => (match storage case SizeClass => 96 case Span => 24 case DirectMap => 0)
    case _ => 0
  }

  /** Blocks taken from a page at once: one for the caller, the rest for the bin. */
  function Batch(mode: Mode): nat {
    match mode
    case ThroughputCache => 96
    case DeterministicLatency => 8
    case CrossThreadMessage => 64
    case _ => 1
  }

  /** The modes that look for the fullest page. */
  predicate Packs(mode: Mode) {
    mode.CompactRSS? || mode.FragmentationStable?
  }

  /** The modes that give an empty page back at once. */
  predicate Purges(mode: Mode) {
    mode.CompactRSS? || mode.LargeObjectStreaming?
  }

  /** Empty pages a class may keep after a free under each mode. */
  function KeepLimit(cfg: Config, mode: Mode): nat {
    match mode
    case Balanced => cfg.emptyLimit
    case ThroughputCache => 32
    case DeterministicLatency => 6
    case CrossThreadMessage => 8
    case FragmentationStable => 1
    case _ => 0
  }

  /** A mode plans its allocations and its frees alike: it takes blocks from bins exactly if
      it puts them there, up to the same limit, and drains remote frees exactly if it queues
      them.  Only the debug mode has redzones, poison and quarantine; batches matter only
      with bins. */
  lemma PlansAgree(cfg: Config, mode: Mode, size: nat, alignment: nat, storage: Storage, c: Class)
    requires c.storage == storage
    ensures var p, d := PlanAllocate(mode, size, alignment), PlanFree(cfg, mode, storage);
            && (p.threadCache <==> UsesBins(mode)) && (d.action.CacheIt? <==> UsesBins(mode))
            && CacheLimit(c, p.smallLimit, p.mediumLimit) == BinLimit(mode, storage)
            && CacheLimit(c, d.smallLimit, d.mediumLimit) == BinLimit(mode, storage)
            && (p.drainRemote <==> mode.CrossThreadMessage?) && (d.remoteQueue <==> mode.CrossThreadMessage?)
            && (p.packing <==> Packs(mode))
            && (p.threadCache ==> p.batch == Batch(mode))
            && (p.redzone <==> mode.HardenedDebug?) && (d.checkRedzone <==> mode.HardenedDebug?)
            && (d.poison <==> mode.HardenedDebug?) && (d.quarantine <==> mode.HardenedDebug?)
            && (d.action.QuarantineIt? <==> mode.HardenedDebug?)
    ensures !storage.DirectMap? ==>
              var d := PlanFree(cfg, mode, storage);
              && (d.action.Purge? || d.action.Unmap? <==> Purges(mode))
              && (!Purges(mode) ==> d.keep == KeepLimit(cfg, mode))
  {
  }
}
