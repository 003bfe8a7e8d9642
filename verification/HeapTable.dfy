/** The page table beneath the heap: the registrations of the slot-level table are answers the
    state machine admits, and the table goes on holding exactly the keys of the heap state. */
module HeapTable {
  import opened Types
  import opened HeapState
  import opened HeapSteps
  import opened PageTable

  /** The table stands for the keys of the heap state. */
  ghost predicate Backs(tab: seq<Addr>, stored: map<Addr, Addr>) {
    |tab| == SLOTS && Ok(tab) && Stored(tab) == stored.Keys
  }

  /** The keys of a new region that find a slot. */
  ghost function Found(tab: seq<Addr>, base: Addr, bytes: nat): set<Addr>
    requires |tab| == SLOTS
  {
    Stored(RegisteredRun(tab, base, bytes / PAGE_SIZE)) - Stored(tab)
  }

  lemma Whole(bytes: nat)
    requires bytes % PAGE_SIZE == 0
    ensures bytes / PAGE_SIZE * PAGE_SIZE == bytes
  {
  }

  /** Pages of a fresh region are not in the table. */
  lemma FreshIsUnknown(tab: seq<Addr>, stored: map<Addr, Addr>, regions: map<Addr, Region>, base: Addr, bytes: nat,
                       i: nat)
    requires Backs(tab, stored) && StoredOk(stored, regions) && FreshRegion(regions, base, bytes)
    requires i < bytes / PAGE_SIZE
    ensures NthPage(base, i) !in Stored(tab)
  {
    hide Ok, Stored;
    Whole(bytes);
  }

  /** Registering a fresh region in the table is an answer that the state machine admits, and
      afterwards the table holds the old keys and those that found a slot: what `AddPage` and
      `AddDirect` make of the heap state. */
  lemma RegistrationIsAdmitted(tab: seq<Addr>, stored: map<Addr, Addr>, regions: map<Addr, Region>, base: Addr,
                               bytes: nat)
    requires Backs(tab, stored) && StoredOk(stored, regions) && FreshRegion(regions, base, bytes)
    ensures OracleOk(regions, Maps(base, Found(tab, base, bytes)), bytes)
    ensures Backs(RegisteredRun(tab, base, bytes / PAGE_SIZE), stored + (map k | k in Found(tab, base, bytes) :: base))
  {
    hide Ok, Stored, RegisteredRun, Room;
    var n := bytes / PAGE_SIZE;
    Whole(bytes);
    forall i | 0 <= i < n ensures NthPage(base, i) !in Stored(tab) {
      FreshIsUnknown(tab, stored, regions, base, bytes, i);
    }
    RegionRegistered(tab, base, n);
  }

  /** Unregistering a region leaves the keys that `ReleasePage` and `DropDirect` leave. */
  lemma UnregistrationAgrees(tab: seq<Addr>, stored: map<Addr, Addr>, base: Addr, bytes: nat)
    requires Backs(tab, stored) && GoodRegion(base, bytes)
    ensures Backs(UnregisteredRun(tab, base, bytes / PAGE_SIZE), stored - KeysOf(stored, base, bytes))
  {
    hide Ok, Stored, UnregisteredRun;
    Whole(bytes);
    RegionUnregistered(tab, base, bytes / PAGE_SIZE);
  }

  /** The page loops of `register_region` and `unregister_region` make that many turns. */
  lemma LoopCount(base: Addr, bytes: nat)
    requires GoodRegion(base, bytes)
    ensures PageKey(base) == base && PageCount(base, bytes) == bytes / PAGE_SIZE
  {
    CountPages(base, bytes);
    Whole(bytes);
  }

  /** A lookup in the table is the membership test of the state machine, for every pointer
      outside the lowest page. */
  lemma LookupAgrees(tab: seq<Addr>, stored: map<Addr, Addr>, ptr: Addr)
    requires Backs(tab, stored) && ptr >= PAGE_SIZE
    ensures Owned(tab, ptr) <==> PageKey(ptr) in stored
  {
    LookupIsRightExactlyWhen(tab, ptr);
  }
}
