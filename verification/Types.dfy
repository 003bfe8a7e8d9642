/** Shared vocabulary of the adaptive allocator: modes, storage kinds, requests,
    plans and release decisions (include/my_ptmalloc/adaptive_types.h,
    adaptive_services.h, adaptive_mode.h). */
module Types {

  /** Machine words are 64 bits wide; sums that could leave this range are
      guarded explicitly wherever the allocator guards them. */
  const WORD: nat := 0x1_0000_0000_0000_0000

  const PAGE_SIZE: nat := 4096
  /** Distance from a header to the user pointer. */
  const HEADER: nat := 112
  /** sizeof(AdaptivePage) rounded up to 16. */
  const FIRST_BLOCK: nat := 64
  const REDZONE: nat := 16
  const SMALL_MAX: nat := 1024
  const MEDIUM_MAX: nat := 65536
  const SMALL_CLASSES: nat := 64
  const MEDIUM_CLASSES: nat := 63
  const BUCKETS: nat := 256
  const DRAIN_LIMIT: nat := 64

  /** A header or mapping address; zero is the null pointer. */
  type Addr = nat

  /** A thread token (`pthread_self`); zero never names a thread. */
  type Tid = nat

  datatype Storage = SizeClass | Span | DirectMap

  datatype Mode =
    | Balanced
    | ThroughputCache
    | DeterministicLatency
    | CompactRSS
    | FragmentationStable
    | CrossThreadMessage
    | LargeObjectStreaming
    | HardenedDebug

  datatype Preference = PreferAuto | PreferSizeClass | PreferSpan | PreferExtent | PreferDirectMap

  datatype Action = CacheIt | ReturnToCentralPool | Purge | Unmap | QuarantineIt

  datatype Plan = Plan(
    storage: Preference,
    threadCache: bool,
    redzone: bool,
    preferDirect: bool,
    drainRemote: bool,
    packing: bool,
    batch: nat,
    smallLimit: nat,
    mediumLimit: nat,
    directThreshold: nat)

  datatype Decision = Decision(
    action: Action,
    poison: bool,
    checkRedzone: bool,
    quarantine: bool,
    remoteQueue: bool,
    keep: nat,
    smallLimit: nat,
    mediumLimit: nat)

  datatype Request = Request(
    size: nat,
    alignment: nat,
    mode: Mode,
    thread: Tid,
    threadCache: bool,
    preferDirect: bool,
    redzone: bool,
    drainRemote: bool,
    packing: bool,
    batch: nat,
    smallLimit: nat,
    mediumLimit: nat,
    directThreshold: nat)

  /** The part of the runtime configuration that the memory layer reads.  The
      bounds are the clamps of `init_once`. */
  datatype Config = Config(smallPage: nat, spanSize: nat, emptyLimit: nat)

  predicate ValidConfig(cfg: Config) {
    && 16384 <= cfg.smallPage <= 1048576
    && cfg.smallPage % PAGE_SIZE == 0
    && 65536 <= cfg.spanSize <= 4194304
    && cfg.spanSize % PAGE_SIZE == 0
    && cfg.emptyLimit <= 128
  }

  /** A pooled size class: the small classes of `g_small_pages` or the medium
      classes of `g_medium_pages`. */
  datatype Class = Class(storage: Storage, index: nat)

  predicate ValidClass(c: Class) {
    || (c.storage.SizeClass? && c.index < SMALL_CLASSES)
    || (c.storage.Span? && c.index < MEDIUM_CLASSES)
  }

  /** Usable bytes of every block of a class. */
  function ClassUsable(c: Class): nat {
    if c.storage.SizeClass? then (c.index + 1) * 16 else SMALL_MAX + (c.index + 1) * 1024
  }

  function Stride(c: Class): nat {
    HEADER + ClassUsable(c)
  }

  /** Size of the mapping used for a fresh page of the class. */
  function PageBytes(cfg: Config, c: Class): nat {
    if c.storage.SizeClass? then cfg.smallPage else cfg.spanSize
  }

  /** Per-bin ceiling of the thread caches over all modes. */
  function CacheCeiling(c: Class): nat {
    if c.storage.SizeClass? then 192 else 48
  }

  /** `tcache_limit_for`: the request's or decision's limit for a class, clamped
      to 16 bits. */
  function CacheLimit(c: Class, smallLimit: nat, mediumLimit: nat): nat {
    var limit := if c.storage.SizeClass? then smallLimit else if c.storage.Span? then mediumLimit else 0;
    if limit > 65535 then 65535 else limit
  }
}
