/** Counters and windows of src/adaptive_telemetry.cpp, as serial steps.  The counters form
    one vector; a window is the difference of two readings of it. */
module Telemetry {

  const SCALARS: nat := 9       // malloc, free, invalid, double, corruption, slow, mmap, remote, same
  const STORAGES: nat := 3
  const SIZES: nat := 10
  const COUNTERS: nat := 44

  const MALLOCS: nat := 0
  const FREES: nat := 1
  const INVALID: nat := 2
  const DOUBLE: nat := 3
  const CORRUPT: nat := 4
  const SLOW: nat := 5
  const MMAPS: nat := 6
  const REMOTE: nat := 7
  const SAME: nat := 8
  const ALLOCS: nat := 9        // per storage
  const REQUESTED: nat := 12    // per storage
  const USABLE: nat := 15       // per storage
  const HITS: nat := 18         // per storage
  const MISSES: nat := 21       // per storage
  const HISTOGRAM: nat := 24    // per size bucket
  const BYTES: nat := 34        // per size bucket

  type Counts = c: seq<nat> | |c| == COUNTERS witness seq(COUNTERS, _ => 0)

  function Zero(): Counts {
    seq(COUNTERS, _ => 0)
  }

  /** `size_histogram_index`. */
  function Bucket(size: nat): (b: nat)
    ensures b < SIZES
  {
    if size <= 32 then 0
    else if size <= 64 then 1
    else if size <= 128 then 2
    else if size <= 256 then 3
    else if size <= 1024 then 4
    else if size <= 4096 then 5
    else if size <= 65536 then 6
    else if size <= 262144 then 7
    else if size <= 1048576 then 8
    else 9
  }

  /** `delta_u64`. */
  function Delta(current: nat, base: nat): nat {
    if current >= base then current - base else current
  }

  /** `delta_counters`. */
  function Difference(current: Counts, base: Counts): Counts {
    seq(COUNTERS, i requires 0 <= i < COUNTERS => Delta(current[i], base[i]))
  }

  // ---- Steps ----------------------------------------------------------------------------------------------

  datatype Event =
    | Count(counter: nat)   // a call, an error or a free: one scalar goes up
    | Alloc(storage: nat, requested: nat, usable: nat, fromCache: bool, usedMmap: bool, slowPath: bool)
    | Window                // adaptive_extract_window_features
    | Reset                 // adaptive_stats_reset

  /** An allocation result of the memory layer has room for what was asked. */
  predicate Sane(e: Event) {
    match e
    case Count(i) => i < SCALARS
    case Alloc(i, requested, usable, _, _, _) => i < STORAGES && requested <= usable
    case _ => true
  }

  function If(b: bool): nat {
    if b then 1 else 0
  }

  function StorageAdded(k: nat, requested: nat, usable: nat, fromCache: bool, i: nat): nat {
    if k >= STORAGES then 0
    else if i == ALLOCS + k then 1
    else if i == REQUESTED + k then requested
    else if i == USABLE + k then usable
    else if i == HITS + k then If(fromCache)
    else if i == MISSES + k then If(!fromCache)
    else 0
  }

  /** What one event adds to each counter. */
  function Added(e: Event, i: nat): nat
    requires i < COUNTERS
  {
    match e
    case Count(k) => If(i == k)
    case Alloc(k, requested, usable, fromCache, usedMmap, slowPath) =>
      if i == SLOW then If(slowPath)
      else if i == MMAPS then If(usedMmap)
      else if i < HISTOGRAM then StorageAdded(k, requested, usable, fromCache, i)
      else if i == HISTOGRAM + Bucket(requested) then 1
      else if i == BYTES + Bucket(requested) then requested
      else 0
    case _ => 0
  }

  function Add(c: Counts, e: Event): Counts {
    seq(COUNTERS, i requires 0 <= i < COUNTERS => c[i] + Added(e, i))
  }

  datatype State = State(stats: Counts, base: Counts, windows: seq<Counts>)

  function Init(): State {
    State(Zero(), Zero(), [])
  }

  function Step(s: State, e: Event): State {
    match e
    case Window => State(s.stats, s.stats, s.windows + [Difference(s.stats, s.base)])
    case Reset => State(Zero(), Zero(), [])
    case _ => s.(stats := Add(s.stats, e))
  }

  function Exec(s: State, es: seq<Event>): State
    decreases |es|
  {
    if es == [] then s else Exec(Step(s, es[0]), es[1..])
  }

  // ---- Windows add up ---------------------------------------------------------------------------------------

  function Total(ws: seq<Counts>, i: nat): nat
    requires i < COUNTERS
  {
    if ws == [] then 0 else Total(ws[..|ws| - 1], i) + ws[|ws| - 1][i]
  }

  /** The windows so far account for the base reading, and the base is not ahead. */
  ghost predicate AddsUp(s: State) {
    forall i :: 0 <= i < COUNTERS ==> Total(s.windows, i) == s.base[i] <= s.stats[i]
  }

  lemma StepAddsUp(s: State, e: Event)
    requires AddsUp(s)
    ensures AddsUp(Step(s, e))
  {
    hide Added;
    var s' := Step(s, e);
    forall i | 0 <= i < COUNTERS ensures Total(s'.windows, i) == s'.base[i] <= s'.stats[i] {
      assert Total(s.windows, i) == s.base[i] <= s.stats[i];
      if e.Window? {
        assert s'.windows[..|s'.windows| - 1] == s.windows;
      }
    }
  }

  /** Over every run, the windows since the last reset and the part not yet in a window add
      up to the counter. */
  lemma {:induction false} WindowsAddUp(s: State, es: seq<Event>)
    requires AddsUp(s)
    ensures AddsUp(Exec(s, es))
    ensures var s' := Exec(s, es);
            forall i :: 0 <= i < COUNTERS ==> Total(s'.windows, i) + Difference(s'.stats, s'.base)[i] == s'.stats[i]
    decreases |es|
  {
    if es != [] {
      StepAddsUp(s, es[0]);
      WindowsAddUp(Step(s, es[0]), es[1..]);
    } else {
      forall i | 0 <= i < COUNTERS ensures Total(s.windows, i) + Difference(s.stats, s.base)[i] == s.stats[i] {
        assert Total(s.windows, i) == s.base[i] <= s.stats[i];
      }
    }
  }

  // ---- Every window is consistent -----------------------------------------------------------------------------

  /** Sum of `n` neighbouring counters. */
  function Sum(c: Counts, at: nat, n: nat): nat
    requires at + n <= COUNTERS
  {
    if n == 0 then 0 else Sum(c, at, n - 1) + c[at + n - 1]
  }

  /** Each allocation is in one storage, one size bucket, and either a hit or a miss. */
  ghost predicate Consistent(c: Counts) {
    && Sum(c, ALLOCS, STORAGES) == Sum(c, HISTOGRAM, SIZES)
    && Sum(c, REQUESTED, STORAGES) == Sum(c, BYTES, SIZES) <= Sum(c, USABLE, STORAGES)
    && Sum(c, HITS, STORAGES) + Sum(c, MISSES, STORAGES) == Sum(c, ALLOCS, STORAGES)
  }

  /** A sum over counters of which one may have risen. */
  lemma {:induction false} SumAdds(c: Counts, c': Counts, at: nat, n: nat, k: nat, rise: nat)
    requires at + n <= COUNTERS && k < n
    requires forall i :: at <= i < at + n ==> c'[i] == c[i] + if i == at + k then rise else 0
    ensures Sum(c', at, n) == Sum(c, at, n) + rise
  {
    if k == n - 1 {
      SumSame(c, c', at, n - 1);
    } else {
      SumAdds(c, c', at, n - 1, k, rise);
    }
  }

  lemma {:induction false} SumSame(c: Counts, c': Counts, at: nat, n: nat)
    requires at + n <= COUNTERS
    requires forall i :: at <= i < at + n ==> c'[i] == c[i]
    ensures Sum(c', at, n) == Sum(c, at, n)
  {
    if n > 0 {
      SumSame(c, c', at, n - 1);
    }
  }

  lemma ScalarConsistent(c: Counts, e: Event)
    requires Consistent(c) && Sane(e) && e.Count?
    ensures Consistent(Add(c, e))
  {
    var c' := Add(c, e);
    hide Sum;
    SumSame(c, c', ALLOCS, STORAGES);
    SumSame(c, c', HISTOGRAM, SIZES);
    SumSame(c, c', REQUESTED, STORAGES);
    SumSame(c, c', BYTES, SIZES);
    SumSame(c, c', USABLE, STORAGES);
    SumSame(c, c', HITS, STORAGES);
    SumSame(c, c', MISSES, STORAGES);
  }

  lemma AllocStorages(c: Counts, e: Event)
    requires Sane(e) && e.Alloc?
    ensures var c' := Add(c, e);
            && Sum(c', ALLOCS, STORAGES) == Sum(c, ALLOCS, STORAGES) + 1
            && Sum(c', REQUESTED, STORAGES) == Sum(c, REQUESTED, STORAGES) + e.requested
            && Sum(c', USABLE, STORAGES) == Sum(c, USABLE, STORAGES) + e.usable
  {
    hide Sum, Bucket;
    var c' := Add(c, e);
    SumAdds(c, c', ALLOCS, STORAGES, e.storage, 1);
    SumAdds(c, c', REQUESTED, STORAGES, e.storage, e.requested);
    SumAdds(c, c', USABLE, STORAGES, e.storage, e.usable);
  }

  lemma AllocOutcome(c: Counts, e: Event)
    requires Sane(e) && e.Alloc?
    ensures var c' := Add(c, e);
            && Sum(c', HITS, STORAGES) == Sum(c, HITS, STORAGES) + If(e.fromCache)
            && Sum(c', MISSES, STORAGES) == Sum(c, MISSES, STORAGES) + If(!e.fromCache)
  {
    hide Sum, Bucket;
    var c' := Add(c, e);
    SumAdds(c, c', HITS, STORAGES, e.storage, If(e.fromCache));
    SumAdds(c, c', MISSES, STORAGES, e.storage, If(!e.fromCache));
  }

  lemma AllocSizes(c: Counts, e: Event)
    requires Sane(e) && e.Alloc?
    ensures var c' := Add(c, e);
            && Sum(c', HISTOGRAM, SIZES) == Sum(c, HISTOGRAM, SIZES) + 1
            && Sum(c', BYTES, SIZES) == Sum(c, BYTES, SIZES) + e.requested
  {
    hide Sum, Bucket;
    var c' := Add(c, e);
    SumAdds(c, c', HISTOGRAM, SIZES, Bucket(e.requested), 1);
    SumAdds(c, c', BYTES, SIZES, Bucket(e.requested), e.requested);
  }

  lemma AddConsistent(c: Counts, e: Event)
    requires Consistent(c) && Sane(e) && (e.Count? || e.Alloc?)
    ensures Consistent(Add(c, e))
  {
    if e.Count? {
      ScalarConsistent(c, e);
    } else {
      hide Sum, Add;
      AllocStorages(c, e);
      AllocOutcome(c, e);
      AllocSizes(c, e);
    }
  }

  /** An event moves the window's counters just as it moves the totals. */
  lemma DifferenceAdds(stats: Counts, base: Counts, e: Event)
    requires forall i :: 0 <= i < COUNTERS ==> base[i] <= stats[i]
    ensures Difference(Add(stats, e), base) == Add(Difference(stats, base), e)
  {
  }

  lemma {:induction false} NoneAtAll(c: Counts, at: nat, n: nat)
    requires at + n <= COUNTERS && forall i :: 0 <= i < COUNTERS ==> c[i] == 0
    ensures Sum(c, at, n) == 0
  {
    if n > 0 {
      NoneAtAll(c, at, n - 1);
    }
  }

  lemma EmptyConsistent(c: Counts)
    requires forall i :: 0 <= i < COUNTERS ==> c[i] == 0
    ensures Consistent(c)
  {
    hide Sum;
    NoneAtAll(c, ALLOCS, STORAGES);
    NoneAtAll(c, HISTOGRAM, SIZES);
    NoneAtAll(c, REQUESTED, STORAGES);
    NoneAtAll(c, BYTES, SIZES);
    NoneAtAll(c, USABLE, STORAGES);
    NoneAtAll(c, HITS, STORAGES);
    NoneAtAll(c, MISSES, STORAGES);
  }

  /** The totals, the window being filled and every window taken are consistent. */
  ghost predicate AllConsistent(s: State) {
    && Consistent(s.stats) && Consistent(Difference(s.stats, s.base))
    && forall k :: 0 <= k < |s.windows| ==> Consistent(s.windows[k])
  }

  lemma StepConsistent(s: State, e: Event)
    requires AddsUp(s) && AllConsistent(s) && Sane(e)
    ensures AllConsistent(Step(s, e))
  {
    hide Consistent, Difference, Add, Total;
    match e
    case Window =>
      NothingSince(s.stats);
      EmptyConsistent(Difference(s.stats, s.stats));
    case Reset =>
      NothingSince(Zero());
      EmptyConsistent(Zero());
      EmptyConsistent(Difference(Zero(), Zero()));
    case _ =>
      assert forall i :: 0 <= i < COUNTERS ==> s.base[i] <= s.stats[i];
      DifferenceAdds(s.stats, s.base, e);
      AddConsistent(s.stats, e);
      AddConsistent(Difference(s.stats, s.base), e);
  }

  lemma NothingSince(c: Counts)
    ensures forall i :: 0 <= i < COUNTERS ==> Difference(c, c)[i] == 0
  {
  }

  /** Over every run every window is consistent. */
  lemma {:induction false} WindowsAreConsistent(s: State, es: seq<Event>)
    requires AddsUp(s) && AllConsistent(s) && forall k :: 0 <= k < |es| ==> Sane(es[k])
    ensures AllConsistent(Exec(s, es))
    decreases |es|
  {
    hide AddsUp, AllConsistent;
    if es != [] {
      StepAddsUp(s, es[0]);
      StepConsistent(s, es[0]);
      WindowsAreConsistent(Step(s, es[0]), es[1..]);
    }
  }

  lemma InitConsistent()
    ensures AddsUp(Init()) && AllConsistent(Init())
  {
    hide Consistent;
    EmptyConsistent(Zero());
    NothingSince(Zero());
    EmptyConsistent(Difference(Zero(), Zero()));
  }

  // ---- What a window tells about its events -------------------------------------------------------------------

  /** Sizes keep their order in the histogram; buckets 0 to 4 hold exactly the sizes up to
      1024, 5 to 7 those above up to 262144, 8 and 9 the larger ones. */
  lemma BucketFacts(size: nat, other: nat)
    ensures size <= other ==> Bucket(size) <= Bucket(other)
    ensures Bucket(size) <= 4 <==> size <= 1024
    ensures 5 <= Bucket(size) <= 7 <==> 1024 < size <= 262144
    ensures Bucket(size) >= 8 <==> size > 262144
  {
  }

  /** A window's events: nothing but counts and allocations. */
  predicate Plain(es: seq<Event>) {
    forall k :: 0 <= k < |es| ==> Sane(es[k]) && (es[k].Count? || es[k].Alloc?)
  }

  /** The counters after the events, from zero. */
  function Counted(es: seq<Event>): Counts {
    if es == [] then Zero() else Add(Counted(es[..|es| - 1]), es[|es| - 1])
  }

  /** The sum of a weight over the events. */
  function Tally(es: seq<Event>, w: Event -> nat): nat {
    if es == [] then 0 else Tally(es[..|es| - 1], w) + w(es[|es| - 1])
  }

  lemma {:induction false} CountedAt(es: seq<Event>, i: nat)
    requires i < COUNTERS
    ensures Counted(es)[i] == Tally(es, e => Added(e, i))
  {
    hide Added;
    if es != [] {
      CountedAt(es[..|es| - 1], i);
    }
  }

  /** The window taken after plain events holds exactly what they count. */
  lemma {:induction false} WindowCountsEvents(s: State, es: seq<Event>)
    requires Plain(es)
    ensures Exec(s, es).base == s.base
    ensures forall i :: 0 <= i < COUNTERS ==> Exec(s, es).stats[i] == s.stats[i] + Counted(es)[i]
    decreases |es|
  {
    hide Added;
    if es != [] {
      var n := |es| - 1;
      WindowCountsEvents(s, es[..n]);
      ExecLast(s, es);
    }
  }

  /** Between two readings, the window holds exactly what the events in between count. */
  lemma WindowHoldsItsEvents(s: State, es: seq<Event>)
    requires Plain(es)
    ensures var s' := Exec(Step(s, Window), es); Difference(s'.stats, s'.base) == Counted(es)
  {
    hide Exec, Counted;
    WindowCountsEvents(Step(s, Window), es);
  }

  lemma {:induction false} ExecLast(s: State, es: seq<Event>)
    requires es != []
    ensures Exec(s, es) == Step(Exec(s, es[..|es| - 1]), es[|es| - 1])
    decreases |es|
  {
    hide Step;
    if |es| > 1 {
      var n := |es| - 1;
      ExecLast(Step(s, es[0]), es[1..]);
      assert es[..n][0] == es[0] && es[..n][1..] == es[1..][..n - 1];
    }
  }

  // ---- Features -----------------------------------------------------------------------------------------------

  function Ratio(num: nat, den: nat): real {
    if den == 0 then 0.0 else num as real / den as real
  }

  datatype Profile = Profile(requested: nat, usable: nat, small: real, medium: real, large: real, largeBytes: real,
                             cacheHits: real, remoteFrees: real, internalFrag: real, slowPath: real, safety: real)

  function ProfileOf(c: Counts): Profile {
    var bytes := Sum(c, BYTES, SIZES);
    var requested := if bytes > 0 then bytes else Sum(c, REQUESTED, STORAGES);
    var usable, hits, misses := Sum(c, USABLE, STORAGES), Sum(c, HITS, STORAGES), Sum(c, MISSES, STORAGES);
    var small, medium, large := Sum(c, HISTOGRAM, 5), Sum(c, HISTOGRAM + 5, 3), Sum(c, HISTOGRAM + 8, 2);
    var count := small + medium + large;
    Profile(requested, usable, Ratio(small, count), Ratio(medium, count), Ratio(large, count),
            Ratio(Sum(c, BYTES + 8, 2), requested), Ratio(hits, hits + misses), Ratio(c[REMOTE], c[REMOTE] + c[SAME]),
            if usable > requested then Ratio(usable - requested, requested) else 0.0,
            Ratio(c[SLOW] + c[MMAPS] + misses, c[MALLOCS]),
            Ratio(c[INVALID] + c[DOUBLE] + c[CORRUPT], c[FREES] + c[MALLOCS]))
  }

  /** The loops of `features_from_counters`. */
  method ReadProfile(c: Counts) returns (p: Profile)
    ensures p == ProfileOf(c)
  {
    var requested, usable, hits, misses := 0, 0, 0, 0;
    for i := 0 to STORAGES
      invariant requested == Sum(c, REQUESTED, i) && usable == Sum(c, USABLE, i)
      invariant hits == Sum(c, HITS, i) && misses == Sum(c, MISSES, i)
    {
      requested := requested + c[REQUESTED + i];
      usable := usable + c[USABLE + i];
      hits := hits + c[HITS + i];
      misses := misses + c[MISSES + i];
    }
    var bySize := 0;
    for i := 0 to SIZES
      invariant bySize == Sum(c, BYTES, i)
    {
      bySize := bySize + c[BYTES + i];
    }
    if bySize > 0 {
      requested := bySize;
    }
    var small, medium, large, largeBytes := 0, 0, 0, 0;
    for i := 0 to SIZES
      invariant small == Sum(c, HISTOGRAM, if i < 5 then i else 5)
      invariant medium == Sum(c, HISTOGRAM + 5, if i < 5 then 0 else if i < 8 then i - 5 else 3)
      invariant large == Sum(c, HISTOGRAM + 8, if i < 8 then 0 else i - 8)
      invariant largeBytes == Sum(c, BYTES + 8, if i < 8 then 0 else i - 8)
    {
      if i <= 4 {
        small := small + c[HISTOGRAM + i];
      } else if i < 8 {
        medium := medium + c[HISTOGRAM + i];
      } else {
        large := large + c[HISTOGRAM + i];
        largeBytes := largeBytes + c[BYTES + i];
      }
    }
    var count := small + medium + large;
    p := Profile(requested, usable, Ratio(small, count), Ratio(medium, count), Ratio(large, count),
                 Ratio(largeBytes, requested), Ratio(hits, hits + misses), Ratio(c[REMOTE], c[REMOTE] + c[SAME]),
                 if usable > requested then Ratio(usable - requested, requested) else 0.0,
                 Ratio(c[SLOW] + c[MMAPS] + misses, c[MALLOCS]),
                 Ratio(c[INVALID] + c[DOUBLE] + c[CORRUPT], c[FREES] + c[MALLOCS]));
  }

  lemma {:induction false} SumJoin(c: Counts, at: nat, m: nat, n: nat)
    requires at + m + n <= COUNTERS
    ensures Sum(c, at, m + n) == Sum(c, at, m) + Sum(c, at + m, n)
  {
    if n > 0 {
      SumJoin(c, at, m, n - 1);
    }
  }

  lemma RatioBounds(a: nat, b: nat)
    ensures 0.0 <= Ratio(a, b)
    ensures a <= b ==> Ratio(a, b) <= 1.0
    ensures b > 0 ==> Ratio(a, b) * b as real == a as real
  {
  }

  /** Three parts of a whole. */
  lemma RatioSum(a: nat, b: nat, c: nat)
    requires a + b + c > 0
    ensures Ratio(a, a + b + c) + Ratio(b, a + b + c) + Ratio(c, a + b + c) == 1.0
  {
  }

  /** In every consistent window the ratios are proper: the three size shares add up to
      one as soon as anything was allocated, and the requested bytes by size are those by
      storage. */
  lemma ProfileIsProper(c: Counts)
    requires Consistent(c)
    ensures var p := ProfileOf(c);
            && p.requested == Sum(c, REQUESTED, STORAGES) <= p.usable
            && 0.0 <= p.largeBytes <= 1.0 && 0.0 <= p.cacheHits <= 1.0 && 0.0 <= p.remoteFrees <= 1.0
            && (Sum(c, ALLOCS, STORAGES) > 0 ==> p.small + p.medium + p.large == 1.0)
            && (p.requested > 0 ==> (1.0 + p.internalFrag) * p.requested as real == p.usable as real)
  {
    hide Sum, Ratio;
    SumJoin(c, HISTOGRAM, 5, 3);
    SumJoin(c, HISTOGRAM, 8, 2);
    SumJoin(c, BYTES, 8, 2);
    var small, medium, large := Sum(c, HISTOGRAM, 5), Sum(c, HISTOGRAM + 5, 3), Sum(c, HISTOGRAM + 8, 2);
    if Sum(c, ALLOCS, STORAGES) > 0 {
      RatioSum(small, medium, large);
    }
    var p := ProfileOf(c);
    RatioBounds(Sum(c, BYTES + 8, 2), p.requested);
    RatioBounds(Sum(c, HITS, STORAGES), Sum(c, HITS, STORAGES) + Sum(c, MISSES, STORAGES));
    RatioBounds(c[REMOTE], c[REMOTE] + c[SAME]);
    RatioBounds(p.usable - p.requested, p.requested);
  }

  // ---- A profile tells what the events did ----------------------------------------------------------------------

  /** What one event adds to `n` neighbouring counters together. */
  function AddedTo(e: Event, at: nat, n: nat): nat
    requires at + n <= COUNTERS
  {
    if n == 0 then 0 else AddedTo(e, at, n - 1) + Added(e, at + n - 1)
  }

  lemma {:induction false} SumAfter(c: Counts, e: Event, at: nat, n: nat)
    requires at + n <= COUNTERS
    ensures Sum(Add(c, e), at, n) == Sum(c, at, n) + AddedTo(e, at, n)
  {
    hide Added;
    if n > 0 {
      SumAfter(c, e, at, n - 1);
    }
  }

  /** A group of counters sums a weight of the events. */
  lemma {:induction false} GroupTally(es: seq<Event>, at: nat, n: nat, w: Event -> nat)
    requires Plain(es) && at + n <= COUNTERS
    requires forall e :: Sane(e) && (e.Count? || e.Alloc?) ==> AddedTo(e, at, n) == w(e)
    ensures Sum(Counted(es), at, n) == Tally(es, w)
  {
    hide AddedTo, Sane;
    if es == [] {
      NoneAtAll(Zero(), at, n);
    } else {
      var k := |es| - 1;
      GroupTally(es[..k], at, n, w);
      SumAfter(Counted(es[..k]), es[k], at, n);
    }
  }

  function Allocations(e: Event): nat {
    If(e.Alloc?)
  }

  function Requested(e: Event): nat {
    if e.Alloc? then e.requested else 0
  }

  function Granted(e: Event): nat {
    if e.Alloc? then e.usable else 0
  }

  function Small(e: Event): nat {
    If(e.Alloc? && e.requested <= 1024)
  }

  function Medium(e: Event): nat {
    If(e.Alloc? && 1024 < e.requested <= 262144)
  }

  function Large(e: Event): nat {
    If(e.Alloc? && e.requested > 262144)
  }

  function LargeBytes(e: Event): nat {
    if e.Alloc? && e.requested > 262144 then e.requested else 0
  }

  function Cached(e: Event): nat {
    If(e.Alloc? && e.fromCache)
  }

  function Missed(e: Event): nat {
    If(e.Alloc? && !e.fromCache)
  }

  function Slow(e: Event): nat {
    If(e == Count(SLOW) || (e.Alloc? && e.slowPath))
  }

  function Mapped(e: Event): nat {
    If(e == Count(MMAPS) || (e.Alloc? && e.usedMmap))
  }

  lemma ThreeTogether(e: Event, at: nat)
    requires at + 3 <= COUNTERS
    ensures AddedTo(e, at, STORAGES) == Added(e, at) + Added(e, at + 1) + Added(e, at + 2)
  {
    hide Added;
    assert AddedTo(e, at, 1) == Added(e, at);
    assert AddedTo(e, at, 2) == AddedTo(e, at, 1) + Added(e, at + 1);
  }

  lemma StorageWeights(e: Event)
    requires Sane(e) && (e.Count? || e.Alloc?)
    ensures AddedTo(e, ALLOCS, STORAGES) == Allocations(e)
    ensures AddedTo(e, REQUESTED, STORAGES) == Requested(e)
    ensures AddedTo(e, USABLE, STORAGES) == Granted(e)
    ensures AddedTo(e, HITS, STORAGES) == Cached(e)
    ensures AddedTo(e, MISSES, STORAGES) == Missed(e)
  {
    hide Bucket, AddedTo;
    ThreeTogether(e, ALLOCS);
    ThreeTogether(e, REQUESTED);
    ThreeTogether(e, USABLE);
    ThreeTogether(e, HITS);
    ThreeTogether(e, MISSES);
  }

  /** A group of size buckets takes the allocations whose bucket is in it. */
  lemma {:induction false} SizeWeight(e: Event, from: nat, n: nat)
    requires Sane(e) && (e.Count? || e.Alloc?) && from + n <= SIZES
    ensures var inside := e.Alloc? && from <= Bucket(e.requested) < from + n;
            && AddedTo(e, HISTOGRAM + from, n) == If(inside)
            && AddedTo(e, BYTES + from, n) == if inside then e.requested else 0
  {
    hide Bucket, StorageAdded;
    if n > 0 {
      SizeWeight(e, from, n - 1);
    }
  }

  lemma SizeWeights(e: Event)
    requires Sane(e) && (e.Count? || e.Alloc?)
    ensures AddedTo(e, HISTOGRAM, 5) == Small(e) && AddedTo(e, HISTOGRAM + 5, 3) == Medium(e)
    ensures AddedTo(e, HISTOGRAM + 8, 2) == Large(e) && AddedTo(e, BYTES + 8, 2) == LargeBytes(e)
    ensures AddedTo(e, BYTES, SIZES) == Requested(e)
  {
    hide Bucket, AddedTo;
    SizeWeight(e, 0, 5);
    SizeWeight(e, 5, 3);
    SizeWeight(e, 8, 2);
    SizeWeight(e, 0, SIZES);
    if e.Alloc? {
      BucketFacts(e.requested, 0);
    }
  }

  lemma ScalarWeights(e: Event, i: nat)
    requires Sane(e) && (e.Count? || e.Alloc?) && i < SCALARS && i != SLOW && i != MMAPS
    ensures Added(e, i) == If(e == Count(i))
    ensures Added(e, SLOW) == Slow(e) && Added(e, MMAPS) == Mapped(e)
  {
    hide Bucket;
  }

  lemma {:induction false} TallySame(es: seq<Event>, w: Event -> nat, u: Event -> nat)
    requires Plain(es) && forall e :: Sane(e) && (e.Count? || e.Alloc?) ==> w(e) == u(e)
    ensures Tally(es, w) == Tally(es, u)
  {
    hide Sane;
    if es != [] {
      TallySame(es[..|es| - 1], w, u);
    }
  }

  lemma StorageSums(es: seq<Event>)
    requires Plain(es)
    ensures Sum(Counted(es), REQUESTED, STORAGES) == Tally(es, Requested)
    ensures Sum(Counted(es), USABLE, STORAGES) == Tally(es, Granted)
    ensures Sum(Counted(es), HITS, STORAGES) == Tally(es, Cached)
    ensures Sum(Counted(es), MISSES, STORAGES) == Tally(es, Missed)
  {
    hide Sum, AddedTo, Counted, Tally, Plain, Sane, Requested, Granted, Cached, Missed;
    forall e: Event | Sane(e) && (e.Count? || e.Alloc?)
      ensures AddedTo(e, REQUESTED, STORAGES) == Requested(e) && AddedTo(e, USABLE, STORAGES) == Granted(e)
      ensures AddedTo(e, HITS, STORAGES) == Cached(e) && AddedTo(e, MISSES, STORAGES) == Missed(e)
    {
      StorageWeights(e);
    }
    GroupTally(es, REQUESTED, STORAGES, Requested);
    GroupTally(es, USABLE, STORAGES, Granted);
    GroupTally(es, HITS, STORAGES, Cached);
    GroupTally(es, MISSES, STORAGES, Missed);
  }

  lemma SizeSums(es: seq<Event>)
    requires Plain(es)
    ensures Sum(Counted(es), HISTOGRAM, 5) == Tally(es, Small)
    ensures Sum(Counted(es), HISTOGRAM + 5, 3) == Tally(es, Medium)
    ensures Sum(Counted(es), HISTOGRAM + 8, 2) == Tally(es, Large)
    ensures Sum(Counted(es), BYTES + 8, 2) == Tally(es, LargeBytes)
    ensures Sum(Counted(es), BYTES, SIZES) == Tally(es, Requested)
  {
    hide Sum, AddedTo, Counted, Tally, Plain, Sane, Small, Medium, Large, LargeBytes, Requested;
    forall e: Event | Sane(e) && (e.Count? || e.Alloc?)
      ensures AddedTo(e, HISTOGRAM, 5) == Small(e) && AddedTo(e, HISTOGRAM + 5, 3) == Medium(e)
      ensures AddedTo(e, HISTOGRAM + 8, 2) == Large(e) && AddedTo(e, BYTES + 8, 2) == LargeBytes(e)
      ensures AddedTo(e, BYTES, SIZES) == Requested(e)
    {
      SizeWeights(e);
    }
    GroupTally(es, HISTOGRAM, 5, Small);
    GroupTally(es, HISTOGRAM + 5, 3, Medium);
    GroupTally(es, HISTOGRAM + 8, 2, Large);
    GroupTally(es, BYTES + 8, 2, LargeBytes);
    GroupTally(es, BYTES, SIZES, Requested);
  }

  lemma ScalarIs(es: seq<Event>, i: nat, w: Event -> nat)
    requires Plain(es) && i < COUNTERS
    requires forall e :: Sane(e) && (e.Count? || e.Alloc?) ==> Added(e, i) == w(e)
    ensures Counted(es)[i] == Tally(es, w)
  {
    hide Counted, Tally, Plain, Sane, Added;
    CountedAt(es, i);
    TallySame(es, e => Added(e, i), w);
  }

  /** How many events are the notification `i`. */
  function Notified(es: seq<Event>, i: nat): nat {
    if es == [] then 0 else Notified(es[..|es| - 1], i) + If(es[|es| - 1] == Count(i))
  }

  lemma {:induction false} NotifiedIs(es: seq<Event>, i: nat)
    requires Plain(es) && i < SCALARS && i != SLOW && i != MMAPS
    ensures Counted(es)[i] == Notified(es, i)
  {
    hide Added;
    if es != [] {
      NotifiedIs(es[..|es| - 1], i);
      ScalarWeights(es[|es| - 1], i);
    }
  }

  lemma {:induction false} EveryAllocation(es: seq<Event>)
    requires Plain(es)
    ensures Tally(es, Small) + Tally(es, Medium) + Tally(es, Large) == Tally(es, Allocations)
    ensures Tally(es, Cached) + Tally(es, Missed) == Tally(es, Allocations)
    ensures Tally(es, Requested) <= Tally(es, Granted)
  {
    if es != [] {
      EveryAllocation(es[..|es| - 1]);
    }
  }

  /** The profile of a window says of its events: the shares of small, medium and large
      requests and of large bytes, the share served from a cache, the share of remote frees,
      the exact surplus of usable over requested bytes, and the rates of slow allocations and of
      errors per call. */
  lemma ProfileTellsEvents(es: seq<Event>)
    requires Plain(es)
    ensures var p, n := ProfileOf(Counted(es)), Tally(es, Allocations);
            && p.requested == Tally(es, Requested) && p.usable == Tally(es, Granted)
            && p.small == Ratio(Tally(es, Small), n) && p.medium == Ratio(Tally(es, Medium), n)
            && p.large == Ratio(Tally(es, Large), n)
            && p.largeBytes == Ratio(Tally(es, LargeBytes), Tally(es, Requested))
            && p.cacheHits == Ratio(Tally(es, Cached), n)
            && p.remoteFrees == Ratio(Notified(es, REMOTE), Notified(es, REMOTE) + Notified(es, SAME))
            && Tally(es, Requested) <= Tally(es, Granted)
            && p.internalFrag == Ratio(Tally(es, Granted) - Tally(es, Requested), Tally(es, Requested))
    ensures var p := ProfileOf(Counted(es));
            && p.slowPath == Ratio(Tally(es, Slow) + Tally(es, Mapped) + Tally(es, Missed), Notified(es, MALLOCS))
            && p.safety == Ratio(Notified(es, INVALID) + Notified(es, DOUBLE) + Notified(es, CORRUPT),
                                 Notified(es, FREES) + Notified(es, MALLOCS))
  {
    hide Sum, Counted, Tally, Plain, Notified, Added;
    StorageSums(es);
    SizeSums(es);
    EveryAllocation(es);
    NotifiedIs(es, REMOTE);
    NotifiedIs(es, SAME);
    NotifiedIs(es, MALLOCS);
    NotifiedIs(es, FREES);
    NotifiedIs(es, INVALID);
    NotifiedIs(es, DOUBLE);
    NotifiedIs(es, CORRUPT);
    forall e: Event | Sane(e) && (e.Count? || e.Alloc?)
      ensures Added(e, SLOW) == Slow(e) && Added(e, MMAPS) == Mapped(e)
    {
      ScalarWeights(e, MALLOCS);
    }
    ScalarIs(es, SLOW, Slow);
    ScalarIs(es, MMAPS, Mapped);
  }

  // ---- The stored form --------------------------------------------------------------------------------------------

  class Recorder {
    const stats: array<nat>            // g_stats and the histograms
    var base: Counts                   // g_window_base
    ghost var windows: seq<Counts>

    ghost predicate Valid()
      reads this, stats
    {
      stats.Length == COUNTERS
    }

    ghost function View(): State
      reads this, stats
      requires Valid()
    {
      State(stats[..], base, windows)
    }

    constructor ()
      ensures Valid() && View() == Init() && fresh(stats)
    {
      stats := new nat[COUNTERS](_ => 0);
      base := Zero();
      windows := [];
      new;
      assert stats[..] == Zero();
    }

    /** The single-counter notifications. */
    method OnCount(i: nat)
      requires Valid() && i < SCALARS
      modifies stats
      ensures Valid() && View() == Step(old(View()), Count(i))
    {
      stats[i] := stats[i] + 1;
      assert stats[..] == Add(old(stats[..]), Count(i));
    }

    method Raise(i: nat, n: nat)
      requires Valid() && i < COUNTERS
      modifies stats
      ensures forall j :: 0 <= j < COUNTERS ==> stats[j] == old(stats[j]) + if j == i then n else 0
    {
      stats[i] := stats[i] + n;
    }

    /** The storage part of `adaptive_telemetry_on_alloc`. */
    method CountStorage(storage: nat, requested: nat, usable: nat, fromCache: bool)
      requires Valid() && storage < STORAGES
      modifies stats
      ensures forall j :: 0 <= j < COUNTERS ==>
                stats[j] == old(stats[j]) + StorageAdded(storage, requested, usable, fromCache, j)
    {
      Raise(ALLOCS + storage, 1);
      Raise(REQUESTED + storage, requested);
      Raise(USABLE + storage, usable);
      if fromCache {
        Raise(HITS + storage, 1);
      } else {
        Raise(MISSES + storage, 1);
      }
    }

    /** `adaptive_telemetry_on_alloc`, without the gauges. */
    method OnAlloc(storage: nat, requested: nat, usable: nat, fromCache: bool, usedMmap: bool, slowPath: bool)
      requires Valid() && storage < STORAGES
      modifies stats
      ensures Valid() && View() == Step(old(View()), Alloc(storage, requested, usable, fromCache, usedMmap, slowPath))
    {
      hide Bucket;
      CountStorage(storage, requested, usable, fromCache);
      if usedMmap {
        Raise(MMAPS, 1);
      }
      if slowPath {
        Raise(SLOW, 1);
      }
      var b := Bucket(requested);
      Raise(HISTOGRAM + b, 1);
      Raise(BYTES + b, requested);
      assert stats[..] == Add(old(stats[..]), Alloc(storage, requested, usable, fromCache, usedMmap, slowPath));
    }

    /** `adaptive_extract_window_features`, up to the entropy and the gauges. */
    method ExtractWindow() returns (p: Profile)
      requires Valid()
      modifies this
      ensures Valid() && View() == Step(old(View()), Window)
      ensures p == ProfileOf(Difference(old(View()).stats, old(View()).base))
    {
      var current: Counts := stats[..];
      var delta := Difference(current, base);
      base := current;
      windows := windows + [delta];
      p := ReadProfile(delta);
    }
  }
}
