/** The page table of src/adaptive_services.cpp: open addressing over 262144 slots, sixteen
    probes, tombstones.  It is a lossy set of page keys: a page whose sixteen slots are all
    taken is silently left out, and everything else is exact. */
module PageTable {
  import opened Types
  import opened HeapSteps

  const SLOTS: nat := 262144
  const PROBES: nat := 16
  const TOMBSTONE: Addr := WORD - 1

  predicate IsKey(v: Addr) {
    v != 0 && v % PAGE_SIZE == 0
  }

  function Index(page: Addr): nat {
    page / PAGE_SIZE % SLOTS
  }

  /** Slot `k` of a page's wrapped probe path. */
  function Probe(page: Addr, k: nat): (i: nat)
    requires k < PROBES
    ensures i < SLOTS
  {
    (Index(page) + k) % SLOTS
  }

  /** How far along the probe path of `page` slot `i` lies. */
  function Offset(page: Addr, i: nat): nat
    requires i < SLOTS
  {
    if i >= Index(page) then i - Index(page) else i + SLOTS - Index(page)
  }

  lemma ProbeOffset(page: Addr, k: nat)
    requires k < PROBES
    ensures Offset(page, Probe(page, k)) == k
  {
  }

  lemma OffsetProbe(page: Addr, i: nat)
    requires i < SLOTS && Offset(page, i) < PROBES
    ensures Probe(page, Offset(page, i)) == i
  {
  }

  /** The pages of a mapping start at neighbouring slots, and no two pages less than 1 GiB apart
      start at the same one. */
  lemma StartsApart(page: Addr, other: Addr)
    requires IsKey(page) && IsKey(other) && page < other < page + SLOTS * PAGE_SIZE
    ensures Index(page) != Index(other)
    ensures other == page + PAGE_SIZE ==> Index(other) == (Index(page) + 1) % SLOTS
  {
    var i, j := page / PAGE_SIZE, other / PAGE_SIZE;
    assert page == i * PAGE_SIZE && other == j * PAGE_SIZE;
    assert i < j < i + SLOTS;
  }

  // ---- The table as a value ---------------------------------------------------------------------------

  predicate Shaped(tab: seq<Addr>) {
    |tab| == SLOTS && forall i :: 0 <= i < |tab| ==> tab[i] == 0 || tab[i] == TOMBSTONE || IsKey(tab[i])
  }

  /** The key in slot `i` is within reach of its probe path, with no empty slot before it. */
  predicate InReach(tab: seq<Addr>, i: nat)
    requires |tab| == SLOTS && i < SLOTS
  {
    IsKey(tab[i]) ==> Offset(tab[i], i) < PROBES && NoGap(tab, tab[i], Offset(tab[i], i))
  }

  /** No empty slot among the first `k` of the path. */
  predicate NoGap(tab: seq<Addr>, page: Addr, k: nat)
    requires |tab| == SLOTS && k <= PROBES
  {
    forall j :: 0 <= j < k ==> tab[Probe(page, j)] != 0
  }

  predicate Unrepeated(tab: seq<Addr>) {
    forall i, j :: 0 <= i < j < |tab| && IsKey(tab[i]) ==> tab[i] != tab[j]
  }

  ghost predicate Ok(tab: seq<Addr>) {
    && Shaped(tab) && Unrepeated(tab)
    && forall i :: 0 <= i < SLOTS ==> InReach(tab, i)
  }

  /** The set the table stands for. */
  ghost function Stored(tab: seq<Addr>): set<Addr> {
    set i | 0 <= i < |tab| && IsKey(tab[i]) :: tab[i]
  }

  /** Some slot of the page's path can take a key. */
  predicate Room(tab: seq<Addr>, page: Addr)
    requires |tab| == SLOTS
  {
    exists k :: 0 <= k < PROBES && Vacant(tab[Probe(page, k)])
  }

  predicate Vacant(v: Addr) {
    v == 0 || v == TOMBSTONE
  }

  /** A page is stored exactly when its probe path holds it. */
  lemma StoredOnPath(tab: seq<Addr>, page: Addr)
    requires Ok(tab) && IsKey(page)
    ensures page in Stored(tab) <==> exists k :: 0 <= k < PROBES && tab[Probe(page, k)] == page
    ensures forall k :: 0 <= k < PROBES && tab[Probe(page, k)] == page ==> NoGap(tab, page, k)
  {
    if page in Stored(tab) {
      var i :| 0 <= i < |tab| && IsKey(tab[i]) && tab[i] == page;
      assert InReach(tab, i);
      OffsetProbe(page, i);
    }
    forall k | 0 <= k < PROBES && tab[Probe(page, k)] == page ensures page in Stored(tab) && NoGap(tab, page, k) {
      assert InReach(tab, Probe(page, k));
      ProbeOffset(page, k);
    }
  }

  /** Filling a vacant slot that no gap precedes adds the page and nothing else. */
  lemma PutKeeps(tab: seq<Addr>, page: Addr, k: nat)
    requires Ok(tab) && IsKey(page) && page !in Stored(tab) && k < PROBES
    requires Vacant(tab[Probe(page, k)]) && NoGap(tab, page, k)
    ensures Ok(tab[Probe(page, k) := page])
    ensures Stored(tab[Probe(page, k) := page]) == Stored(tab) + {page}
  {
    var i0 := Probe(page, k);
    var tab' := tab[i0 := page];
    ProbeOffset(page, k);
    forall i | 0 <= i < SLOTS ensures InReach(tab', i) {
      assert InReach(tab, i);
    }
    PutStored(tab, i0, page);
  }

  lemma PutStored(tab: seq<Addr>, i0: nat, page: Addr)
    requires |tab| == SLOTS && i0 < SLOTS && Vacant(tab[i0]) && IsKey(page)
    ensures Stored(tab[i0 := page]) == Stored(tab) + {page}
  {
    var tab' := tab[i0 := page];
    assert tab'[i0] == page;
    forall p | p in Stored(tab) ensures p in Stored(tab') {
      var i :| 0 <= i < |tab| && IsKey(tab[i]) && tab[i] == p;
      assert tab'[i] == p;
    }
  }

  /** Overwriting a key by a tombstone removes that page and nothing else. */
  lemma ClearKeeps(tab: seq<Addr>, i0: nat)
    requires Ok(tab) && i0 < SLOTS && IsKey(tab[i0])
    ensures Ok(tab[i0 := TOMBSTONE])
    ensures Stored(tab[i0 := TOMBSTONE]) == Stored(tab) - {tab[i0]}
  {
    var tab' := tab[i0 := TOMBSTONE];
    forall i | 0 <= i < SLOTS ensures InReach(tab', i) {
      assert InReach(tab, i);
    }
    forall p | p in Stored(tab) && p != tab[i0] ensures p in Stored(tab') {
      var i :| 0 <= i < |tab| && IsKey(tab[i]) && tab[i] == p;
      assert tab'[i] == p;
    }
    forall p | p in Stored(tab') ensures p in Stored(tab) && p != tab[i0] {
      var i :| 0 <= i < |tab'| && IsKey(tab'[i]) && tab'[i] == p;
      assert tab[i] == p && i != i0;
    }
  }

  lemma EmptyTableOk(tab: seq<Addr>)
    requires |tab| == SLOTS && forall i :: 0 <= i < SLOTS ==> tab[i] == 0
    ensures Ok(tab) && Stored(tab) == {}
  {
  }

  /** The answer of a lookup: exact for every page but the lowest, whose key is the
      empty marker itself. */
  ghost predicate Owned(tab: seq<Addr>, ptr: Addr)
    requires |tab| == SLOTS
  {
    ptr != 0 && if PageKey(ptr) == 0 then exists k :: 0 <= k < PROBES && tab[k] == 0 else PageKey(ptr) in Stored(tab)
  }

  /** The lookup answers "maybe owned" for a pointer into the lowest page although nothing
      was ever registered. */
  lemma LowestPageIsMistaken(tab: seq<Addr>)
    requires |tab| == SLOTS && forall i :: 0 <= i < SLOTS ==> tab[i] == 0
    ensures Owned(tab, 8) && Stored(tab) == {}
  {
    assert PageKey(8) == 0 && tab[0] == 0;
  }

  /** A lookup is right about a pointer exactly when the pointer is not in the lowest
      page or the first sixteen slots are all taken. */
  lemma LookupIsRightExactlyWhen(tab: seq<Addr>, ptr: Addr)
    requires Ok(tab) && ptr != 0
    ensures (Owned(tab, ptr) <==> PageKey(ptr) in Stored(tab))
            <==> (ptr >= PAGE_SIZE || forall k :: 0 <= k < PROBES ==> tab[k] != 0)
  {
  }

  // ---- Registering and unregistering one page ----------------------------------------------------------

  /** The probe at which registration stops: a vacant slot, or the page itself. */
  function Landing(tab: seq<Addr>, page: Addr, k: nat): (r: nat)
    requires |tab| == SLOTS && k <= PROBES
    ensures k <= r <= PROBES
    ensures r < PROBES ==> Vacant(tab[Probe(page, r)]) || tab[Probe(page, r)] == page
    ensures forall j :: k <= j < r ==> !Vacant(tab[Probe(page, j)]) && tab[Probe(page, j)] != page
    decreases PROBES - k
  {
    if k == PROBES || Vacant(tab[Probe(page, k)]) || tab[Probe(page, k)] == page then k else Landing(tab, page, k + 1)
  }

  function Registered(tab: seq<Addr>, page: Addr): (r: seq<Addr>)
    requires |tab| == SLOTS
    ensures |r| == SLOTS
  {
    var k := Landing(tab, page, 0);
    if k < PROBES then tab[Probe(page, k) := page] else tab
  }

  /** No tombstone lies before the page on its path. */
  predicate Shielded(tab: seq<Addr>, page: Addr)
    requires |tab| == SLOTS
  {
    forall j, k :: 0 <= j < k < PROBES && tab[Probe(page, k)] == page ==> tab[Probe(page, j)] != TOMBSTONE
  }

  /** Registering adds the page exactly when its path has room (or holds it already),
      and changes no other page's membership. */
  lemma RegisteredFacts(tab: seq<Addr>, page: Addr)
    requires |tab| == SLOTS && Ok(tab) && IsKey(page) && (page in Stored(tab) ==> Shielded(tab, page))
    ensures Ok(Registered(tab, page))
    ensures Stored(Registered(tab, page)) == Stored(tab) + (if Room(tab, page) then {page} else {})
  {
    hide Ok, Stored, Probe, Landing;
    var k := Landing(tab, page, 0);
    StoredOnPath(tab, page);
    if page in Stored(tab) {
      var m :| 0 <= m < PROBES && tab[Probe(page, m)] == page;
      assert k <= m;
      assert tab[Probe(page, k)] == page;
      assert Registered(tab, page) == tab;
    } else if k < PROBES {
      assert Vacant(tab[Probe(page, k)]);
      PutKeeps(tab, page, k);
    }
  }

  /** Registering a page that is stored behind a tombstone stores it twice: the table stays
      sound exactly when that is not the case. */
  lemma RegisteringTwice(tab: seq<Addr>, page: Addr)
    requires Ok(tab) && IsKey(page)
    ensures Ok(Registered(tab, page)) <==> (page in Stored(tab) ==> Shielded(tab, page))
  {
    if page in Stored(tab) && !Shielded(tab, page) {
      var j, m :| 0 <= j < m < PROBES && tab[Probe(page, m)] == page && tab[Probe(page, j)] == TOMBSTONE;
      var k := Landing(tab, page, 0);
      assert k <= j;
      StoredOnPath(tab, page);
      TwoProbes(page, k, m);
      assert tab[Probe(page, k)] != page by { SameKeySameSlot(tab, Probe(page, k), Probe(page, m)); }
      var tab' := Registered(tab, page);
      assert tab'[Probe(page, k)] == page && tab'[Probe(page, m)] == page;
      assert !Unrepeated(tab') by { Repeated(tab', Probe(page, k), Probe(page, m)); }
    } else {
      RegisteredFacts(tab, page);
    }
  }

  /** Page 4096 in the second slot of its path, behind a tombstone. */
  function BehindTombstone(): seq<Addr> {
    seq(SLOTS, (i: nat) => if i == 1 then TOMBSTONE else if i == 2 then 4096 else 0)
  }

  /** A sound table in which registering a stored page stores it a second time. */
  lemma SecondRegistrationRepeats()
    ensures Ok(BehindTombstone()) && 4096 in Stored(BehindTombstone()) && !Ok(Registered(BehindTombstone(), 4096))
  {
    var tab := BehindTombstone();
    assert Index(4096) == 1 && Probe(4096, 0) == 1 && Probe(4096, 1) == 2;
    assert tab[2] == 4096 && tab[1] == TOMBSTONE;
    forall i | 0 <= i < SLOTS ensures InReach(tab, i) {
      assert IsKey(tab[i]) ==> i == 2;
    }
    assert !Shielded(tab, 4096) by { assert tab[Probe(4096, 1)] == 4096 && tab[Probe(4096, 0)] == TOMBSTONE; }
    RegisteringTwice(tab, 4096);
  }

  lemma TwoProbes(page: Addr, j: nat, k: nat)
    requires j < PROBES && k < PROBES && j != k
    ensures Probe(page, j) != Probe(page, k)
  {
    ProbeOffset(page, j);
    ProbeOffset(page, k);
  }

  lemma SameKeySameSlot(tab: seq<Addr>, i: nat, j: nat)
    requires Unrepeated(tab) && i < |tab| && j < |tab| && i != j && IsKey(tab[j])
    ensures tab[i] != tab[j]
  {
  }

  lemma Repeated(tab: seq<Addr>, i: nat, j: nat)
    requires i < |tab| && j < |tab| && i != j && IsKey(tab[i]) && tab[i] == tab[j]
    ensures !Unrepeated(tab)
  {
    var a, b := if i < j then i else j, if i < j then j else i;
    assert tab[a] == tab[b];
  }

  /** The probe at which unregistration and lookup stop: the page, or a gap. */
  function Seeking(tab: seq<Addr>, page: Addr, k: nat): (r: nat)
    requires |tab| == SLOTS && k <= PROBES
    ensures k <= r <= PROBES
    ensures r < PROBES ==> tab[Probe(page, r)] == 0 || tab[Probe(page, r)] == page
    ensures forall j :: k <= j < r ==> tab[Probe(page, j)] != 0 && tab[Probe(page, j)] != page
    decreases PROBES - k
  {
    if k == PROBES || tab[Probe(page, k)] == 0 || tab[Probe(page, k)] == page then k else Seeking(tab, page, k + 1)
  }

  function Unregistered(tab: seq<Addr>, page: Addr): (r: seq<Addr>)
    requires |tab| == SLOTS
    ensures |r| == SLOTS
  {
    var k := Seeking(tab, page, 0);
    if k < PROBES && tab[Probe(page, k)] == page then tab[Probe(page, k) := TOMBSTONE] else tab
  }

  lemma SeekingFinds(tab: seq<Addr>, page: Addr)
    requires |tab| == SLOTS && Ok(tab) && IsKey(page)
    ensures var k := Seeking(tab, page, 0);
            page in Stored(tab) <==> k < PROBES && tab[Probe(page, k)] == page
  {
    hide Ok, Stored, Probe, Seeking;
    StoredOnPath(tab, page);
    var k := Seeking(tab, page, 0);
    if page in Stored(tab) {
      var m :| 0 <= m < PROBES && tab[Probe(page, m)] == page;
      assert k <= m;
      assert tab[Probe(page, k)] != 0;
    }
  }

  lemma UnregisteredFacts(tab: seq<Addr>, page: Addr)
    requires Ok(tab) && IsKey(page)
    ensures Ok(Unregistered(tab, page))
    ensures Stored(Unregistered(tab, page)) == Stored(tab) - {page}
  {
    SeekingFinds(tab, page);
    var k := Seeking(tab, page, 0);
    if k < PROBES && tab[Probe(page, k)] == page {
      ClearKeeps(tab, Probe(page, k));
    }
  }

  /** Unregistering undoes registering: every page answers as before. */
  lemma RoundTrip(tab: seq<Addr>, page: Addr)
    requires Ok(tab) && IsKey(page) && page !in Stored(tab)
    ensures Ok(Unregistered(Registered(tab, page), page))
    ensures Stored(Unregistered(Registered(tab, page), page)) == Stored(tab)
  {
    RegisteredFacts(tab, page);
    UnregisteredFacts(Registered(tab, page), page);
  }

  /** A place given up is taken again: after unregistering a stored page its path has room, and
      registering it brings every answer back. */
  lemma PlaceIsReused(tab: seq<Addr>, page: Addr)
    requires |tab| == SLOTS && Ok(tab) && IsKey(page) && page in Stored(tab)
    ensures Room(Unregistered(tab, page), page)
    ensures Ok(Registered(Unregistered(tab, page), page))
    ensures Stored(Registered(Unregistered(tab, page), page)) == Stored(tab)
  {
    hide Ok, Stored, Probe, Seeking, Registered;
    SeekingFinds(tab, page);
    UnregisteredFacts(tab, page);
    var tab' := Unregistered(tab, page);
    var k := Seeking(tab, page, 0);
    assert Vacant(tab'[Probe(page, k)]);
    RegisteredFacts(tab', page);
  }

  // ---- Regions ------------------------------------------------------------------------------------------

  /** Pages of a region, from the page of its first byte to the page of its last. */
  function PageCount(base: Addr, size: nat): nat
    requires size > 0
  {
    (PageKey(base + size - 1) - PageKey(base)) / PAGE_SIZE + 1
  }

  lemma CountPages(base: Addr, size: nat)
    requires size > 0
    ensures PageKey(base + size - 1) == PageKey(base) + (PageCount(base, size) - 1) * PAGE_SIZE <= base + size - 1
  {
    var i, j := base / PAGE_SIZE, (base + size - 1) / PAGE_SIZE;
    assert i <= j;
    assert PageKey(base) == i * PAGE_SIZE && PageKey(base + size - 1) == j * PAGE_SIZE;
    assert PageCount(base, size) == j - i + 1;
  }

  function RegisteredRun(tab: seq<Addr>, page: Addr, n: nat): (r: seq<Addr>)
    requires |tab| == SLOTS
    ensures |r| == SLOTS
  {
    if n == 0 then tab else Registered(RegisteredRun(tab, page, n - 1), page + (n - 1) * PAGE_SIZE)
  }

  function UnregisteredRun(tab: seq<Addr>, page: Addr, n: nat): (r: seq<Addr>)
    requires |tab| == SLOTS
    ensures |r| == SLOTS
  {
    if n == 0 then tab else Unregistered(UnregisteredRun(tab, page, n - 1), page + (n - 1) * PAGE_SIZE)
  }

  function NthPage(page: Addr, i: nat): Addr {
    page + i * PAGE_SIZE
  }

  lemma {:induction false} RegisteredNext(tab: seq<Addr>, page: Addr, n: nat)
    requires |tab| == SLOTS
    ensures RegisteredRun(tab, page, n + 1) == Registered(RegisteredRun(tab, page, n), page + n * PAGE_SIZE)
    ensures RegisteredRun(tab, page, 0) == tab
  {
  }

  /** Registering a region adds exactly those of its pages that found room at their turn,
      and touches no other page's answer. */
  lemma {:induction false} RegionRegistered(tab: seq<Addr>, page: Addr, n: nat)
    requires |tab| == SLOTS && Ok(tab) && IsKey(page)
    requires forall i :: 0 <= i < n ==> NthPage(page, i) !in Stored(tab)
    ensures var tab' := RegisteredRun(tab, page, n);
            && Ok(tab') && Stored(tab) <= Stored(tab')
            && (forall k :: k in Stored(tab') && k !in Stored(tab) ==>
                  k % PAGE_SIZE == 0 && page <= k < page + n * PAGE_SIZE)
            && (forall i :: 0 <= i < n ==>
                 (NthPage(page, i) in Stored(tab') <==> Room(RegisteredRun(tab, page, i), NthPage(page, i))))
  {
    hide Ok, Stored, Registered, Room;
    if n > 0 {
      RegionRegistered(tab, page, n - 1);
      var mid, last := RegisteredRun(tab, page, n - 1), NthPage(page, n - 1);
      assert last % PAGE_SIZE == 0;
      assert last !in Stored(mid);
      RegisteredFacts(mid, last);
      assert RegisteredRun(tab, page, n) == Registered(mid, last);
    }
  }

  lemma {:induction false} UnregisteredNext(tab: seq<Addr>, page: Addr, n: nat)
    requires |tab| == SLOTS
    ensures UnregisteredRun(tab, page, n + 1) == Unregistered(UnregisteredRun(tab, page, n), page + n * PAGE_SIZE)
    ensures UnregisteredRun(tab, page, 0) == tab
  {
  }

  /** Unregistering a region removes exactly its pages. */
  lemma {:induction false} RegionUnregistered(tab: seq<Addr>, page: Addr, n: nat)
    requires |tab| == SLOTS && Ok(tab) && IsKey(page)
    ensures var tab' := UnregisteredRun(tab, page, n);
            && Ok(tab')
            && forall k :: k in Stored(tab') <==> k in Stored(tab) && !(page <= k < page + n * PAGE_SIZE)
  {
    hide Ok, Stored, Unregistered;
    if n > 0 {
      RegionUnregistered(tab, page, n - 1);
      var mid, last := UnregisteredRun(tab, page, n - 1), NthPage(page, n - 1);
      assert last % PAGE_SIZE == 0;
      UnregisteredFacts(mid, last);
      StoredAreKeys(tab);
      forall k | k in Stored(tab) && last <= k < last + PAGE_SIZE ensures k == last {
        NearestKey(k, last);
      }
    }
  }

  lemma StoredAreKeys(tab: seq<Addr>)
    ensures forall k :: k in Stored(tab) ==> k % PAGE_SIZE == 0
  {
  }

  lemma NearestKey(k: Addr, last: Addr)
    requires k % PAGE_SIZE == 0 && last % PAGE_SIZE == 0 && last <= k < last + PAGE_SIZE
    ensures k == last
  {
  }

  // ---- The stored form ----------------------------------------------------------------------------------

  class Table {
    const slots: array<Addr>

    ghost predicate Valid()
      reads this, slots
    {
      slots.Length == SLOTS && Ok(slots[..])
    }

    constructor ()
      ensures Valid() && fresh(slots) && Stored(slots[..]) == {}
    {
      slots := new Addr[SLOTS](_ => 0);
      new;
      EmptyTableOk(slots[..]);
    }

    /** The probe loop of `register_region`. */
    method Register(page: Addr)
      requires slots.Length == SLOTS
      modifies slots
      ensures slots[..] == Registered(old(slots[..]), page)
    {
      var k := 0;
      while k < PROBES
        invariant 0 <= k <= PROBES && slots[..] == old(slots[..])
        invariant Landing(slots[..], page, 0) == Landing(slots[..], page, k)
      {
        var i := Probe(page, k);
        var expected := slots[i];
        if expected == 0 {
          slots[i] := page;
          return;
        } else if expected == page {
          assert old(slots[..])[i := page] == old(slots[..]);
          return;
        }
        if expected == TOMBSTONE {
          slots[i] := page;
          return;
        }
        k := k + 1;
      }
    }

    /** The probe loop of `unregister_region`. */
    method Unregister(page: Addr)
      requires slots.Length == SLOTS
      modifies slots
      ensures slots[..] == Unregistered(old(slots[..]), page)
    {
      var k := 0;
      while k < PROBES
        invariant 0 <= k <= PROBES && slots[..] == old(slots[..])
        invariant Seeking(slots[..], page, 0) == Seeking(slots[..], page, k)
      {
        var i := Probe(page, k);
        if slots[i] == page {
          slots[i] := TOMBSTONE;
          return;
        }
        if slots[i] == 0 {
          return;
        }
        k := k + 1;
      }
    }

    /** `page_maybe_owned`. */
    method MaybeOwned(ptr: Addr) returns (owned: bool)
      requires Valid()
      ensures owned == Owned(slots[..], ptr)
    {
      if ptr == 0 {
        return false;
      }
      var page := PageKey(ptr);
      ghost var tab := slots[..];
      var k := 0;
      owned := false;
      while k < PROBES
        invariant 0 <= k <= PROBES && slots[..] == tab && !owned
        invariant Seeking(tab, page, 0) == Seeking(tab, page, k)
      {
        var value := slots[Probe(page, k)];
        if value == page {
          owned := true;
          break;
        }
        if value == 0 {
          break;
        }
        k := k + 1;
      }
      Answer(tab, ptr);
    }

    /** `register_region`. */
    method RegisterRegion(base: Addr, size: nat)
      requires slots.Length == SLOTS && base + size <= WORD
      modifies slots
      ensures base == 0 || size == 0 ==> slots[..] == old(slots[..])
      ensures base != 0 && size > 0 ==>
                slots[..] == RegisteredRun(old(slots[..]), PageKey(base), PageCount(base, size))
    {
      hide Registered, RegisteredRun, PageKey, PageCount;
      if base == 0 || size == 0 {
        return;
      }
      CountPages(base, size);
      var page, end := PageKey(base), PageKey(base + size - 1);
      ghost var begin, n := page, 0;
      RegisteredNext(slots[..], begin, 0);
      while page <= end
        invariant page == begin + n * PAGE_SIZE && n <= PageCount(base, size)
        invariant slots[..] == RegisteredRun(old(slots[..]), begin, n)
        decreases end + PAGE_SIZE - page
      {
        RegisteredNext(old(slots[..]), begin, n);
        Register(page);
        n := n + 1;
        if page > WORD - 1 - PAGE_SIZE {
          break;
        }
        page := page + PAGE_SIZE;
      }
    }

    /** `unregister_region`. */
    method UnregisterRegion(base: Addr, size: nat)
      requires slots.Length == SLOTS && base + size <= WORD
      modifies slots
      ensures base == 0 || size == 0 ==> slots[..] == old(slots[..])
      ensures base != 0 && size > 0 ==>
                slots[..] == UnregisteredRun(old(slots[..]), PageKey(base), PageCount(base, size))
    {
      hide Unregistered, UnregisteredRun, PageKey, PageCount;
      if base == 0 || size == 0 {
        return;
      }
      CountPages(base, size);
      var page, end := PageKey(base), PageKey(base + size - 1);
      ghost var begin, n := page, 0;
      UnregisteredNext(slots[..], begin, 0);
      while page <= end
        invariant page == begin + n * PAGE_SIZE && n <= PageCount(base, size)
        invariant slots[..] == UnregisteredRun(old(slots[..]), begin, n)
        decreases end + PAGE_SIZE - page
      {
        UnregisteredNext(old(slots[..]), begin, n);
        Unregister(page);
        n := n + 1;
        if page > WORD - 1 - PAGE_SIZE {
          break;
        }
        page := page + PAGE_SIZE;
      }
    }
  }

  lemma Answer(tab: seq<Addr>, ptr: Addr)
    requires |tab| == SLOTS && Ok(tab) && ptr != 0
    ensures var page := PageKey(ptr); var k := Seeking(tab, page, 0);
            Owned(tab, ptr) <==> k < PROBES && tab[Probe(page, k)] == page
  {
    hide Ok, Stored, Seeking, Probe;
    if PageKey(ptr) == 0 {
      LowestAnswer(tab);
    } else {
      SeekingFinds(tab, PageKey(ptr));
    }
  }

  lemma LowestAnswer(tab: seq<Addr>)
    requires |tab| == SLOTS
    ensures var k := Seeking(tab, 0, 0);
            (exists j :: 0 <= j < PROBES && tab[j] == 0) <==> k < PROBES && tab[Probe(0, k)] == 0
  {
    hide Seeking, Probe;
    LowestProbes();
    var k := Seeking(tab, 0, 0);
    if k < PROBES {
      assert tab[k] == tab[Probe(0, k)];
    } else {
      forall j | 0 <= j < PROBES ensures tab[j] != 0 {
        assert tab[Probe(0, j)] != 0;
      }
    }
  }

  lemma LowestProbes()
    ensures forall j :: 0 <= j < PROBES ==> Probe(0, j) == j
  {
  }
}
