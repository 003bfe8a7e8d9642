/** Large-bin indexing of classic/ptmalloc/bins.cpp. */
module LargeBins {
  const LARGE_BINS: nat := 63

  /** Smallest size and first size beyond each large bin, seven bins a row. */
  const RANGES: seq<seq<(nat, nat)>> := [
    [(1024, 1088), (1088, 1152), (1152, 1216), (1216, 1280), (1280, 1344), (1344, 1408), (1408, 1472)],
    [(1472, 1536), (1536, 1600), (1600, 1664), (1664, 1728), (1728, 1792), (1792, 1856), (1856, 1920)],
    [(1920, 1984), (1984, 2048), (2048, 2176), (2176, 2304), (2304, 2432), (2432, 2560), (2560, 2688)],
    [(2688, 2816), (2816, 2944), (2944, 3072), (3072, 3328), (3328, 3584), (3584, 3840), (3840, 4096)],
    [(4096, 4608), (4608, 5120), (5120, 5632), (5632, 6144), (6144, 6656), (6656, 7168), (7168, 7680)],
    [(7680, 8192), (8192, 9216), (9216, 10240), (10240, 11264), (11264, 12288), (12288, 14336), (14336, 16384)],
    [(16384, 18432), (18432, 20480), (20480, 24576), (24576, 28672), (28672, 32768), (32768, 40960), (40960, 49152)],
    [(49152, 57344), (57344, 65536), (65536, 81920), (81920, 98304), (98304, 114688), (114688, 131072),
     (131072, 163840)],
    [(163840, 196608), (196608, 229376), (229376, 262144), (262144, 327680), (327680, 393216), (393216, 458752),
     (458752, 524288)]
  ]

  lemma RowsAreFull()
    ensures |RANGES| == 9 && forall r :: 0 <= r < 9 ==> |RANGES[r]| == 7
  {
  }

  function Range(i: nat): (nat, nat)
    requires i < LARGE_BINS
  {
    RowsAreFull();
    RANGES[i / 7][i % 7]
  }

  function UpTo(i: nat): nat
    requires i < LARGE_BINS
  {
    Range(i).1
  }

  /** The bin that takes chunks of size `s`: the first whose range ends above `s`, the last
      bin if there is none. */
  function IndexFrom(s: nat, i: nat): (r: nat)
    requires i <= LARGE_BINS
    ensures r < LARGE_BINS
    ensures forall j :: i <= j < r ==> UpTo(j) <= s
    ensures i <= r ==> s < UpTo(r) || r == LARGE_BINS - 1
    ensures i < LARGE_BINS ==> i <= r
    decreases LARGE_BINS - i
  {
    if i == LARGE_BINS then LARGE_BINS - 1
    else if s < UpTo(i) then i
    else IndexFrom(s, i + 1)
  }

  function Index(s: nat): nat {
    IndexFrom(s, 0)
  }

  /** `largebin_index`. */
  method LargeBinIndex(s: nat) returns (i: nat)
    ensures i == Index(s)
  {
    hide UpTo;
    i := 0;
    while i < LARGE_BINS
      invariant i <= LARGE_BINS && Index(s) == IndexFrom(s, i)
    {
      if s < UpTo(i) {
        return;
      }
      i := i + 1;
    }
    return LARGE_BINS - 1;
  }

  /** Bins are ordered by size: a chunk of a lower bin is smaller than one of a higher bin. */
  lemma LowerBinIsSmaller(s: nat, t: nat)
    requires Index(s) < Index(t)
    ensures s < t
  {
  }

  lemma IndexMonotone(s: nat, t: nat)
    requires s <= t
    ensures Index(s) <= Index(t)
  {
  }

  predicate MeetFrom(i: nat)
    decreases LARGE_BINS - i
  {
    i >= LARGE_BINS - 1 || (Range(i).0 < Range(i).1 == Range(i + 1).0 < Range(i + 1).1 && MeetFrom(i + 1))
  }

  lemma UpperMeet()
    ensures MeetFrom(28)
  {
    assert MeetFrom(56);
    assert MeetFrom(49);
    assert MeetFrom(42);
    assert MeetFrom(35);
  }

  lemma AllMeet()
    ensures MeetFrom(0)
  {
    UpperMeet();
    assert MeetFrom(21);
    assert MeetFrom(14);
    assert MeetFrom(7);
  }

  lemma {:induction false} MeetAt(i: nat)
    requires i < LARGE_BINS
    ensures MeetFrom(i)
  {
    hide Range;
    if i == 0 {
      AllMeet();
    } else {
      MeetAt(i - 1);
    }
  }

  /** The table leaves no gap and no overlap. */
  lemma RangesMeet(i: nat)
    requires i < LARGE_BINS - 1
    ensures Range(i).0 < Range(i).1 == Range(i + 1).0 < Range(i + 1).1
  {
    hide Range;
    MeetAt(i);
  }

  lemma {:induction false} RangesAscend(i: nat, j: nat)
    requires i <= j < LARGE_BINS
    ensures Range(i).0 <= Range(j).0 && Range(i).1 <= Range(j).1 && Range(j).0 < Range(j).1
    ensures i < j ==> Range(i).1 <= Range(j).0
    decreases j - i
  {
    hide Range;
    if i < j {
      RangesMeet(j - 1);
      RangesAscend(i, j - 1);
    } else if i + 1 < LARGE_BINS {
      RangesMeet(i);
    } else {
      RangesMeet(i - 1);
    }
  }

  /** From 1024 up to 524288 the index is the bin whose range holds the size. */
  lemma IndexIsRange(s: nat, i: nat)
    requires Range(0).0 <= s < Range(LARGE_BINS - 1).1 && i < LARGE_BINS
    ensures Index(s) == i <==> Range(i).0 <= s < Range(i).1
  {
    hide Range;
    var r := Index(s);
    RangesAscend(0, r);
    RangesAscend(if i < r then i else r, if i < r then r else i);
    if r > 0 {
      RangesMeet(r - 1);
      assert UpTo(r - 1) <= s;
    }
    assert s < UpTo(r) || r == LARGE_BINS - 1;
    assert Range(r).0 <= s < Range(r).1;
  }

  // ---- The table in closed form -----------------------------------------------------------------------------

  /** First bin, first size and width of the bins around bin `i`; the width doubles from zone
      to zone. */
  function Zone(i: nat): (nat, nat, nat) {
    if i < 16 then (0, 1024, 64)
    else if i < 24 then (16, 2048, 128)
    else if i < 28 then (24, 3072, 256)
    else if i < 36 then (28, 4096, 512)
    else if i < 40 then (36, 8192, 1024)
    else if i < 44 then (40, 12288, 2048)
    else if i < 47 then (44, 20480, 4096)
    else if i < 51 then (47, 32768, 8192)
    else if i < 55 then (51, 65536, 16384)
    else if i < 59 then (55, 131072, 32768)
    else (59, 262144, 65536)
  }

  function Lowest(i: nat): nat {
    var (first, size, width) := Zone(i);
    if i < first then size else size + (i - first) * width
  }

  predicate ClosedFrom(i: nat)
    decreases LARGE_BINS - i
  {
    i >= LARGE_BINS || (Range(i) == (Lowest(i), Lowest(i) + Zone(i).2) && ClosedFrom(i + 1))
  }

  lemma UpperClosed()
    ensures ClosedFrom(28)
  {
    assert ClosedFrom(56);
    assert ClosedFrom(49);
    assert ClosedFrom(42);
    assert ClosedFrom(35);
  }

  lemma AllClosed()
    ensures ClosedFrom(0)
  {
    UpperClosed();
    assert ClosedFrom(21);
    assert ClosedFrom(14);
    assert ClosedFrom(7);
  }

  lemma {:induction false} ClosedAt(i: nat)
    requires i < LARGE_BINS
    ensures ClosedFrom(i) && Range(i) == (Lowest(i), Lowest(i) + Zone(i).2)
  {
    hide Range, Lowest, Zone;
    if i == 0 {
      AllClosed();
    } else {
      ClosedAt(i - 1);
    }
  }

  /** The index computed instead of searched. */
  function Computed(s: nat): nat
    requires 1024 <= s
  {
    if s < 2048 then (s - 1024) / 64
    else if s < 3072 then 16 + (s - 2048) / 128
    else if s < 4096 then 24 + (s - 3072) / 256
    else if s < 8192 then 28 + (s - 4096) / 512
    else if s < 12288 then 36 + (s - 8192) / 1024
    else if s < 20480 then 40 + (s - 12288) / 2048
    else if s < 32768 then 44 + (s - 20480) / 4096
    else if s < 65536 then 47 + (s - 32768) / 8192
    else if s < 131072 then 51 + (s - 65536) / 16384
    else if s < 262144 then 55 + (s - 131072) / 32768
    else 59 + (s - 262144) / 65536
  }

  lemma ComputedHolds(s: nat)
    requires 1024 <= s < 524288
    ensures Computed(s) < LARGE_BINS && Lowest(Computed(s)) <= s < Lowest(Computed(s)) + Zone(Computed(s)).2
  {
  }

  /** The linear scan gives, from 1024 up to 524288, what the closed form computes. */
  lemma IndexIsComputed(s: nat)
    requires 1024 <= s < 524288
    ensures Index(s) == Computed(s)
  {
    hide Range, Index, Computed, Lowest, Zone;
    ComputedHolds(s);
    ClosedAt(Computed(s));
    EndsOfTable();
    IndexIsRange(s, Computed(s));
  }

  lemma EndsOfTable()
    ensures Range(0).0 == 1024 && Range(LARGE_BINS - 1).1 == 524288
  {
  }
}
