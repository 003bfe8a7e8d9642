/** The whole memory layer on pointers: the blocks' chains and, for each size class, the
    list of its pages.  Over every run they spell out the state of the machine. */
module PoolRuns {
  import opened Types
  import opened Policy
  import opened Options
  import opened Geometry
  import opened Places
  import opened HeapState
  import opened HeapSteps
  import opened HeapRemote
  import opened HeapPool
  import opened HeapPages
  import opened HeapReclaim
  import opened HeapSafety
  import opened Links
  import opened LinkRuns
  import Pools

  /** The list and the page records of a pool are those of class `c`. */
  ghost predicate Shows(list: seq<Addr>, own: map<Addr, Page>, c: Class, pages: map<Addr, Page>,
                        pool: map<Class, seq<Addr>>) {
    list == PoolOf(pool, c) && forall p :: p in list ==> p in own && p in pages && own[p] == pages[p]
  }

  ghost predicate Lists(pool: Pools.Pool, c: Class, s: State)
    reads pool
  {
    pool.Valid() && Shows(pool.list, pool.pages, c, s.pages, s.pool)
  }

  /** One pool for each class, and all pointers agree with `s`. */
  ghost predicate Mirrors(links: Linked, pools: map<Class, Pools.Pool>, s: State)
    reads links, pools.Values
  {
    && Follows(links, s)
    && (forall c :: c in pools <==> ValidClass(c))
    && (forall c, d :: c in pools && d in pools && pools[c] == pools[d] ==> c == d)
    && (forall c :: c in pools ==> Lists(pools[c], c, s))
  }

  // ---- Two views of the same pages ----------------------------------------------------------------------

  ghost predicate Agree(xs: seq<Addr>, own: map<Addr, Page>, pages: map<Addr, Page>) {
    forall p :: p in xs ==> p in own && p in pages && own[p] == pages[p]
  }

  lemma {:induction false} SameFullest(xs: seq<Addr>, own: map<Addr, Page>, pages: map<Addr, Page>, places: Places,
                                       best: Option<Addr>)
    requires Agree(xs, own, pages) && (best.Some? ==> Agree([best.value], own, pages))
    ensures Fullest(xs, own, places, best) == Fullest(xs, pages, places, best)
  {
    if xs != [] {
      assert best.Some? ==> best.value in [best.value];
      var better := At(places, Free(xs[0])) != []
                    && (best.None? || pages[xs[0]].liveCount > pages[best.value].liveCount);
      SameFullest(xs[1..], own, pages, places, if better then Some(xs[0]) else best);
    }
  }

  lemma {:induction false} SameTrim(xs: seq<Addr>, own: map<Addr, Page>, pages: map<Addr, Page>, k: nat)
    requires Agree(xs, own, pages)
    ensures Pools.Trim(xs, own, k) == Pools.Trim(xs, pages, k)
  {
    if xs != [] {
      SameTrim(xs[1..], own, pages, k);
      if k > 0 {
        SameTrim(xs[1..], own, pages, k - 1);
      }
    }
  }

  /** The pool list of every class but `c`, and the pages on it, are as they were. */
  ghost predicate Elsewhere(s: State, s': State, c: Class) {
    forall d :: d != c ==>
      && PoolOf(s'.pool, d) == PoolOf(s.pool, d)
      && forall q :: q in PoolOf(s.pool, d) ==> q in s.pages && q in s'.pages && s'.pages[q] == s.pages[q]
  }

  // ---- The pool section of an allocation ------------------------------------------------------------------

  lemma NewPage(s: State, c: Class, mode: Mode, base: Addr, kept: set<Addr>)
    ensures var bytes := PageBytes(s.cfg, c); var s' := AddPage(s, c, mode, base, kept);
            && s'.pages == s.pages[base := Page(c, mode, bytes, Layout(base, Stride(c), Capacity(bytes, c)), 0)]
            && s'.pool == s.pool[c := [base] + PoolOf(s.pool, c)] && s'.pcs == s.pcs
            && s'.places == Admit(s.places, Reversed(Layout(base, Stride(c), Capacity(bytes, c))), Free(base))
  {
  }

  lemma PoolsOfCore(s: State)
    requires Core(s)
    ensures PoolsOk(s.pages, s.pool)
  {
  }

  lemma ElsewhereToo(s: State, s1: State, s2: State, c: Class)
    requires Elsewhere(s, s1, c) && Elsewhere(s1, s2, c)
    ensures Elsewhere(s, s2, c)
  {
  }

  /** A page record of class `c` changes: no list does, and no other class sees it. */
  lemma PageChanges(s: State, s': State, p: Addr, page: Page)
    requires PoolsOk(s.pages, s.pool) && p in s.pages && s'.pages == s.pages[p := page] && s'.pool == s.pool
    ensures Elsewhere(s, s', s.pages[p].cls)
  {
    hide NoDup;
  }

  /** A new page at the head of its class. */
  lemma PageComes(s: State, s': State, base: Addr, page: Page)
    requires PoolsOk(s.pages, s.pool) && base !in s.pages && s'.pages == s.pages[base := page]
    requires s'.pool == s.pool[page.cls := [base] + PoolOf(s.pool, page.cls)]
    ensures Elsewhere(s, s', page.cls)
  {
    hide NoDup;
  }

  /** Taking blocks from a page of the pool. */
  method Take(links: Linked, pool: Pools.Pool, s: State, t: Tid, p: Addr)
    requires Core(s) && t in s.pcs && s.pcs[t].Central? && p in s.pages && s.pages[p].cls == s.pcs[t].cls
    requires At(s.places, Free(p)) != [] && Follows(links, s) && Lists(pool, s.pcs[t].cls, s)
    modifies links, pool
    ensures var pc := s.pcs[t]; var s' := TakeFrom(s, t, pc.req, pc.cls, pc.src, p);
            Follows(links, s') && Lists(pool, pc.cls, s') && Elsewhere(s, s', pc.cls)
  {
    hide Core, TakeFrom, Spells, ChainFrom, NoDup, Elsewhere, At;
    PoolsOfCore(s);
    assert p in PoolOf(s.pool, s.pcs[t].cls);
    var taken := TakeBlocks(links, s, t, p);
    var page := WithLive(pool.pages[p], pool.pages[p].liveCount + taken);
    PageChanges(s, TakeFrom(s, t, s.pcs[t].req, s.pcs[t].cls, s.pcs[t].src, p), p, page);
    pool.SetPage(p, page);
  }

  /** Cutting a fresh mapping into blocks and linking it at the head of the pool. */
  method Grow(links: Linked, pool: Pools.Pool, s: State, c: Class, mode: Mode, base: Addr, ghost kept: set<Addr>)
    requires Core(s) && MayAddPage(s, c, base, kept) && Follows(links, s) && Lists(pool, c, s)
    modifies links, pool
    ensures var s' := AddPage(s, c, mode, base, kept);
            && Core(s') && Follows(links, s') && Lists(pool, c, s') && Elsewhere(s, s', c)
            && base in s'.pages && s'.pages[base].cls == c && At(s'.places, Free(base)) != [] && s'.pcs == s.pcs
  {
    hide Core, Capacity, Layout, Spells, Admit, ChainFrom, NoDup, Elsewhere, At, AddPage, Reversed;
    var bytes := PageBytes(s.cfg, c);
    var page := Page(c, mode, bytes, Layout(base, Stride(c), Capacity(bytes, c)), 0);
    PoolsOfCore(s);
    FreshBase(s, base, bytes);
    NewBlocksFresh(s, c, base, kept);
    AddPageCore(s, c, mode, base, kept);
    NewPageFree(s, c, mode, base, kept);
    NewPage(s, c, mode, base, kept);
    PageComes(s, AddPage(s, c, mode, base, kept), base, page);
    links.BuildFreeList(base, Stride(c), Capacity(bytes, c));
    assert base !in pool.pages;
    pool.Add(base, page);
  }

  /** The walk picks the page that the machine picks. */
  lemma SamePage(s: State, c: Class, packing: bool, own: map<Addr, Page>)
    requires Shows(PoolOf(s.pool, c), own, c, s.pages, s.pool)
    ensures SelectPage(s, c, packing)
            == if packing then Fullest(PoolOf(s.pool, c), own, s.places, None)
               else FirstWithFree(PoolOf(s.pool, c), s.places)
  {
    SameFullest(PoolOf(s.pool, c), own, s.pages, s.places, None);
  }

  method Central(links: Linked, pool: Pools.Pool, s: State, t: Tid, oracle: Oracle)
    requires Inv(s) && t in s.pcs && s.pcs[t].Central? && Follows(links, s) && Lists(pool, s.pcs[t].cls, s)
    requires OracleOk(s.regions, oracle, PageBytes(s.cfg, s.pcs[t].cls))
    modifies links, pool
    ensures var s' := GoCentral(s, t, s.pcs[t], oracle);
            && Follows(links, s') && Lists(pool, s.pcs[t].cls, s') && Elsewhere(s, s', s.pcs[t].cls)
  {
    hide Core, EmptiesOk, TakeFrom, Capacity, Layout, Spells, ChainFrom, NoDup, Fullest, FirstWithFree, AddPage,
         Elsewhere, SelectPage, At;
    var pc := s.pcs[t];
    QuietThread(s, t);
    SelectPageFacts(s, pc.cls, pc.req.packing);
    SamePage(s, pc.cls, pc.req.packing, pool.pages);
    var p := pool.Select(links, pc.req.packing);
    if p != 0 {
      Take(links, pool, s, t, p);
    } else if Capacity(PageBytes(s.cfg, pc.cls), pc.cls) > 0 && oracle.Maps? {
      Grow(links, pool, s, pc.cls, pc.req.mode, oracle.base, oracle.kept);
      var grown := AddPage(s, pc.cls, pc.req.mode, oracle.base, oracle.kept);
      Take(links, pool, grown, t, oracle.base);
      ElsewhereToo(s, grown, TakeFrom(grown, t, pc.req, pc.cls, pc.src, oracle.base), pc.cls);
    } else {
      PoolsOfCore(s);
      NothingChanges(s, SetPc(s, t, Idle), pc.cls);
    }
  }

  lemma NothingChanges(s: State, s': State, c: Class)
    requires PoolsOk(s.pages, s.pool) && s'.pages == s.pages && s'.pool == s.pool
    ensures Elsewhere(s, s', c)
  {
    hide NoDup;
  }

  // ---- The pool section of a free --------------------------------------------------------------------------

  /** Unmapping a page of class `c`. */
  lemma PageGoes(s: State, p: Addr)
    requires PoolsOk(s.pages, s.pool) && p in s.pages
    ensures Elsewhere(s, ReleasePage(s, p), s.pages[p].cls)
  {
    hide NoDup, Without;
  }

  ghost predicate Fewer(pages: map<Addr, Page>, pages': map<Addr, Page>) {
    forall p :: p in pages' ==> p in pages && pages'[p] == pages[p]
  }

  lemma {:induction false} EmptiesGo(s: State, c: Class, keep: nat)
    requires PoolsOk(s.pages, s.pool)
    ensures var s' := ReleaseEmpty(s, c, keep);
            PoolsOk(s'.pages, s'.pool) && Elsewhere(s, s', c) && Fewer(s.pages, s'.pages)
    decreases |PoolOf(s.pool, c)|
  {
    hide ReleasePage, Elsewhere, NoDup;
    var xs := PoolOf(s.pool, c);
    NothingChanges(s, s, c);
    if CountEmpty(xs, s.pages) > keep {
      SomeEmptyIsFound(xs, s.pages);
      FirstEmptyIsListed(xs, s.pages);
      var p := FirstEmpty(xs, s.pages).value;
      WithoutShorter(xs, p);
      Pools.ReleasedPools(s, p);
      ReleaseEmpties(s, p);
      PageGoes(s, p);
      EmptiesGo(ReleasePage(s, p), c, keep);
      ElsewhereToo(s, ReleasePage(s, p), ReleaseEmpty(ReleasePage(s, p), c, keep), c);
    }
  }

  /** Trimming the pool is what the machine does to the class. */
  lemma Trimmed(s: State, c: Class, keep: nat, own: map<Addr, Page>, list': seq<Addr>, own': map<Addr, Page>)
    requires PoolsOk(s.pages, s.pool) && Shows(PoolOf(s.pool, c), own, c, s.pages, s.pool)
    requires var xs := PoolOf(s.pool, c);
             && list' == Pools.Trim(xs, own, Pools.Surplus(CountEmpty(xs, own), keep))
             && Pools.Untouched(xs, own, list', own')
    requires forall p :: p in list' <==> p in own'
    ensures var s' := ReleaseEmpty(s, c, keep); Shows(list', own', c, s'.pages, s'.pool)
  {
    hide ReleaseEmpty, CountEmpty, NoDup, Elsewhere;
    var xs := PoolOf(s.pool, c);
    Pools.ReleaseEmptyTrims(s, c, keep);
    EmptiesGo(s, c, keep);
    CountEmptyFrame(xs, s.pages, own);
    SameTrim(xs, own, s.pages, Pools.Surplus(CountEmpty(xs, own), keep));
  }

  /** Putting a block back lowers its page's live count. */
  method Restore(links: Linked, pool: Pools.Pool, s: State, t: Tid, b: Addr, p: Addr)
    requires Core(s) && b in s.places.place && b in s.objs && s.objs[b].page == p && p in s.pages
    requires s.places.place[b] == Hand(t) && At(s.places, Hand(t)) == [b] && b != 0
    requires Follows(links, s) && Lists(pool, s.pages[p].cls, s)
    modifies links, pool
    ensures var s' := Give(s, t, b);
            && Follows(links, s') && Lists(pool, s.pages[p].cls, s') && Elsewhere(s, s', s.pages[p].cls)
            && p in s'.pages && s'.pages[p].cls == s.pages[p].cls && p in pool.list
  {
    hide Core, Spells, Move, ChainFrom, NoDup, Elsewhere, Give;
    PoolsOfCore(s);
    Given(s, t, b);
    assert p in PoolOf(s.pool, s.pages[p].cls);
    links.Push(b, Free(p));
    var n := pool.pages[p].liveCount;
    var page := WithLive(pool.pages[p], if n > 0 then n - 1 else n);
    PageChanges(s, Give(s, t, b), p, page);
    pool.SetPage(p, page);
  }

  /** `release_target_empty_locked` on an empty page of the pool. */
  method Retire(links: Linked, pool: Pools.Pool, s: State, p: Addr)
    requires PoolsOk(s.pages, s.pool) && p in s.pages && s.pages[p].liveCount == 0
    requires Follows(links, s) && Lists(pool, s.pages[p].cls, s)
    modifies links, pool
    ensures var s' := ReleasePage(s, p);
            Follows(links, s') && Lists(pool, s.pages[p].cls, s') && Elsewhere(s, s', s.pages[p].cls)
  {
    hide ReleasePage, Spells, Evict, ChainFrom, NoDup, Without, Elsewhere;
    assert p in PoolOf(s.pool, s.pages[p].cls);
    var found, prev, i := pool.FindPage(p);
    ReleasedPlaces(s, p);
    PageGoes(s, p);
    Unlisted(s, p);
    links.Forget(Free(p));
    pool.Unlink(p, prev, i);
  }

  /** `release_empty_locked`. */
  method Shed(links: Linked, pool: Pools.Pool, s: State, c: Class, keep: nat)
    requires Core(s) && Follows(links, s) && Lists(pool, c, s)
    modifies links, pool
    ensures var s' := ReleaseEmpty(s, c, keep); Follows(links, s') && Lists(pool, c, s') && Elsewhere(s, s', c)
  {
    hide Core, ReleaseEmpty, Spells, ChainFrom, NoDup, Elsewhere, Pools.Trim, CountEmpty, Pools.Untouched;
    PoolsOfCore(s);
    ghost var own := pool.pages;
    ForgetEmpty(links, s, c, keep);
    pool.ReleaseEmpty(keep);
    Trimmed(s, c, keep, own, pool.list, pool.pages);
    EmptiesGo(s, c, keep);
  }

  method Return(links: Linked, pool: Pools.Pool, s: State, t: Tid)
    requires Inv(s) && t in s.pcs && s.pcs[t].Return? && Follows(links, s)
    requires s.pcs[t].b in s.objs && s.objs[s.pcs[t].b].page in s.pages
    requires Lists(pool, s.pages[s.objs[s.pcs[t].b].page].cls, s)
    modifies links, pool
    ensures var s' := GoReturn(s, t, s.pcs[t]); var c := s.pages[s.objs[s.pcs[t].b].page].cls;
            Follows(links, s') && Lists(pool, c, s') && Elsewhere(s, s', c)
  {
    hide Core, EmptiesOk, ReleasePage, ReleaseEmpty, Spells, ChainFrom, NoDup, Elsewhere, Give, PlanFree, At,
         ObjectOk;
    var pc := s.pcs[t];
    GiveCore(s, t);
    HeldBlock(s, t);
    QuietThread(s, t);
    var p := s.objs[pc.b].page;
    var c := s.pages[p].cls;
    var given := Give(s, t, pc.b);
    Restore(links, pool, s, t, pc.b, p);
    PoolsOfCore(given);
    var reclaim := pc.dec.action.Purge? || pc.dec.action.Unmap?;
    if reclaim && pool.pages[p].liveCount == 0 {
      Retire(links, pool, given, p);
      ElsewhereToo(s, given, ReleasePage(given, p), c);
    } else {
      var keep := if reclaim then 0 else pc.dec.keep;
      Shed(links, pool, given, c, keep);
      ElsewhereToo(s, given, ReleaseEmpty(given, c, keep), c);
    }
  }

  lemma Given(s: State, t: Tid, b: Addr)
    requires b in s.places.place && b in s.objs && s.objs[b].page in s.pages
    ensures var p := s.objs[b].page; var n := s.pages[p].liveCount; var s' := Give(s, t, b);
            && s'.places == Move(s.places, b, Free(p)) && s'.pool == s.pool
            && s'.pages == s.pages[p := WithLive(s.pages[p], if n > 0 then n - 1 else n)]
  {
  }

  lemma Unlisted(s: State, p: Addr)
    requires PoolsOk(s.pages, s.pool) && p in s.pages
    ensures var c := s.pages[p].cls; var s' := ReleasePage(s, p);
            && PoolOf(s'.pool, c) == Without(PoolOf(s.pool, c), p) && s'.pages == s.pages - {p}
            && p !in PoolOf(s'.pool, c)
  {
    WithoutFacts(PoolOf(s.pool, s.pages[p].cls), p);
  }

  // ---- Steps and runs ------------------------------------------------------------------------------------------

  ghost predicate PagesKept(s: State, s': State) {
    s'.pages == s.pages && s'.pool == s.pool
  }

  lemma SearchSections(s: State, t: Tid, pc: Pc)
    ensures pc.Begin? ==> PagesKept(s, GoBegin(s, t, pc))
    ensures pc.Scan? ==> PagesKept(s, GoScan(s, t, pc))
    ensures pc.Drain? ==> PagesKept(s, GoDrain(s, t, pc))
  {
    hide Move, Splice, At, Slot, CacheLimit, Cleared;
  }

  lemma BinSections(s: State, t: Tid, pc: Pc)
    ensures pc.Tick? ==> PagesKept(s, GoTick(s, t, pc))
    ensures pc.PutBack? ==> PagesKept(s, GoPutBack(s, t, pc))
    ensures pc.Pop? ==> PagesKept(s, GoPop(s, t, pc))
  {
    hide Move, Splice, At, Finalized;
  }

  lemma MapSections(s: State, t: Tid, pc: Pc, oracle: Oracle)
    ensures pc.MapNew? ==> PagesKept(s, GoMapNew(s, t, pc, oracle))
    ensures pc.Fresh? ==> PagesKept(s, GoFresh(s, t, pc))
  {
    hide Move, Admit, DirectBytes, DirectHeader, DirectObject;
  }

  lemma FreeEntry(s: State, t: Tid, b: Addr)
    ensures StartFree(s, t, b).places == s.places && PagesKept(s, StartFree(s, t, b))
  {
    hide AddLive, PlanFree;
  }

  lemma NoteSection(s: State, t: Tid, pc: Pc)
    ensures pc.Note? ==> PagesKept(s, GoNote(s, t, pc))
  {
    hide AddLive, AddMapped, StartFree;
    if pc.Note? && pc.b in s.objs {
      var o := s.objs[pc.b];
      var mapped := if o.pooled then s
                    else s.(gauges := AddMapped(s.gauges, pc.req.mode, o.mapped),
                            mapCounted := s.mapCounted + {o.base});
      FreeEntry(mapped.(gauges := AddLive(mapped.gauges, o.mode, o.usable), counted := s.counted + {pc.b},
                        pcs := s.pcs[t := Idle]), t, pc.src);
    }
  }

  lemma FreeSections(s: State, t: Tid, pc: Pc)
    ensures pc.Doomed? ==> PagesKept(s, GoDoomed(s, t, pc))
  {
    hide Move, At, CacheLimit, Cleared, DropDirect;
    if pc.Doomed? && pc.b in s.objs {
      DropKeeps(s, t, pc.b);
    }
  }

  lemma DropKeeps(s: State, t: Tid, b: Addr)
    requires b in s.objs
    ensures PagesKept(s, DropDirect(s, t, b))
  {
    hide Evict, AddMapped, KeysOf;
  }

  lemma QueueSection(s: State, t: Tid, pc: Pc)
    ensures pc.Freeing? ==> PagesKept(s, GoFreeing(s, t, pc))
    ensures pc.Enqueue? ==> PagesKept(s, GoEnqueue(s, t, pc))
  {
    hide Move, Slot, Queued;
  }

  /** Only the two pool sections touch pages and page lists. */
  lemma OtherSections(s: State, t: Tid, oracle: Oracle)
    requires t in s.pcs && !s.pcs[t].Central? && !s.pcs[t].Return?
    ensures PagesKept(s, Go(s, t, oracle))
  {
    hide GoBegin, GoScan, GoDrain, GoTick, GoPutBack, GoPop, GoCentral, GoMapNew, GoFresh, GoNote, GoFreeing,
         GoDoomed, GoEnqueue, GoReturn;
    SearchSections(s, t, s.pcs[t]);
    BinSections(s, t, s.pcs[t]);
    MapSections(s, t, s.pcs[t], oracle);
    NoteSection(s, t, s.pcs[t]);
    FreeSections(s, t, s.pcs[t]);
    QueueSection(s, t, s.pcs[t]);
  }

  /** What a pool section leaves, for another class. */
  lemma OtherClass(pool: Pools.Pool, d: Class, s: State, s': State, c: Class)
    requires Lists(pool, d, s) && Elsewhere(s, s', c) && d != c
    ensures Lists(pool, d, s')
  {
    hide ChainFrom, NoDup;
  }

  lemma SameClass(pool: Pools.Pool, c: Class, s: State, s': State)
    requires Lists(pool, c, s) && PagesKept(s, s')
    ensures Lists(pool, c, s')
  {
    hide ChainFrom, NoDup;
  }

  method Allocate(links: Linked, pools: map<Class, Pools.Pool>, s: State, t: Tid, oracle: Oracle)
    requires Inv(s) && Enabled(s, Step.Advance(t, oracle)) && s.pcs[t].Central? && Mirrors(links, pools, s)
    modifies links, pools.Values
    ensures Mirrors(links, pools, Go(s, t, oracle))
  {
    hide Inv, Go, Lists, OracleOk, Elsewhere, Follows, GoCentral;
    var c := s.pcs[t].cls;
    CentralStep(s, t, oracle);
    OwnPool(links, pools, s, c);
    Central(links, pools[c], s, t, oracle);
    forall d | d in pools
      ensures Lists(pools[d], d, Go(s, t, oracle))
    {
      if d != c {
        OtherClass(pools[d], d, s, Go(s, t, oracle), c);
      }
    }
  }

  method Reclaim(links: Linked, pools: map<Class, Pools.Pool>, s: State, t: Tid, oracle: Oracle)
    requires Inv(s) && t in s.pcs && s.pcs[t].Return? && Mirrors(links, pools, s)
    modifies links, pools.Values
    ensures Mirrors(links, pools, Go(s, t, oracle))
  {
    hide Inv, Go, Lists, OracleOk, Elsewhere, Follows, GoReturn;
    ReturnStep(s, t, oracle);
    var c := s.pages[s.objs[s.pcs[t].b].page].cls;
    OwnPool(links, pools, s, c);
    Return(links, pools[c], s, t);
    forall d | d in pools
      ensures Lists(pools[d], d, Go(s, t, oracle))
    {
      if d != c {
        OtherClass(pools[d], d, s, Go(s, t, oracle), c);
      }
    }
  }

  method Advance(links: Linked, pools: map<Class, Pools.Pool>, s: State, t: Tid, oracle: Oracle)
    requires Inv(s) && Enabled(s, Step.Advance(t, oracle)) && Mirrors(links, pools, s)
    modifies links, pools.Values
    ensures Mirrors(links, pools, Go(s, t, oracle))
  {
    hide Inv, Go, Lists, OracleOk, Follows, PagesKept;
    if s.pcs[t].Central? {
      Allocate(links, pools, s, t, oracle);
    } else if s.pcs[t].Return? {
      Reclaim(links, pools, s, t, oracle);
    } else {
      OtherSections(s, t, oracle);
      LinkRuns.Advance(links, s, t, oracle);
      forall c | c in pools
        ensures Lists(pools[c], c, Go(s, t, oracle))
      {
        SameClass(pools[c], c, s, Go(s, t, oracle));
      }
    }
  }

  lemma OwnPool(links: Linked, pools: map<Class, Pools.Pool>, s: State, c: Class)
    requires Mirrors(links, pools, s) && ValidClass(c)
    ensures c in pools && Follows(links, s)
    ensures forall d :: d in pools ==> Lists(pools[d], d, s)
    ensures forall d :: d in pools && d != c ==> pools[d] != pools[c]
  {
    hide Follows, Lists;
  }

  lemma CentralStep(s: State, t: Tid, oracle: Oracle)
    requires Inv(s) && Enabled(s, Step.Advance(t, oracle)) && s.pcs[t].Central?
    ensures ValidClass(s.pcs[t].cls) && Go(s, t, oracle) == GoCentral(s, t, s.pcs[t], oracle)
    ensures OracleOk(s.regions, oracle, PageBytes(s.cfg, s.pcs[t].cls))
  {
    hide Core, EmptiesOk, GoCentral, OracleOk;
    QuietThread(s, t);
  }

  lemma ReturnStep(s: State, t: Tid, oracle: Oracle)
    requires Inv(s) && t in s.pcs && s.pcs[t].Return?
    ensures s.pcs[t].b in s.objs && s.objs[s.pcs[t].b].page in s.pages
    ensures ValidClass(s.pages[s.objs[s.pcs[t].b].page].cls) && Go(s, t, oracle) == GoReturn(s, t, s.pcs[t])
  {
    hide Core, EmptiesOk, GoReturn, PlanFree;
    GiveCore(s, t);
    ClassOfPage(s, s.objs[s.pcs[t].b].page);
  }

  lemma ClassOfPage(s: State, p: Addr)
    requires Core(s) && p in s.pages
    ensures ValidClass(s.pages[p].cls)
  {
    hide RegionsOk, StoredOk, PoolsOk, PcsOk, LiveCountsOk, ObjectsOk, HandsOk, WellPlaced, StatusOk, CachesOk,
         LiveGaugeOk, MapGaugeOk, PendingOk, CountedOk, MapCountedOk, BucketsOk;
    assert PageOk(p, s.pages[p], s.regions, s.objs);
  }

  /** One step of the machine, on the pointers. */
  method Perform(links: Linked, pools: map<Class, Pools.Pool>, s: State, step: Step)
    requires Inv(s) && Enabled(s, step) && Mirrors(links, pools, s)
    modifies links, pools.Values
    ensures Mirrors(links, pools, Apply(s, step))
  {
    hide Inv, Spells, Go, OracleOk, Addressable, StartAlloc, StartFree, Plausible, Lists, Enabled;
    match step
    case Advance(t, oracle) => Advance(links, pools, s, t, oracle);
    case _ =>
      EntryPoints(s, step);
      forall c | c in pools
        ensures Lists(pools[c], c, Apply(s, step))
      {
        SameClass(pools[c], c, s, Apply(s, step));
      }
  }

  lemma AllocEntry(s: State, t: Tid, size: nat, alignment: nat, mode: Mode, src: Addr)
    ensures var s' := StartAlloc(s, t, size, alignment, mode, src); s'.places == s.places && PagesKept(s, s')
  {
    hide MakeRequest, Route, ClassFor;
  }

  /** Entering an operation moves nothing. */
  lemma EntryPoints(s: State, step: Step)
    requires !step.Advance?
    ensures Apply(s, step).places == s.places && PagesKept(s, Apply(s, step))
  {
    hide StartAlloc, StartFree, Plausible;
    match step
    case SwitchMode(_) =>
    case Malloc(t, size, alignment) => AllocEntry(s, t, size, alignment, s.active, 0);
    case Realloc(t, b, size) =>
      if b in s.objs {
        AllocEntry(s, t, size, 16, s.objs[b].mode, b);
      }
    case FreeAt(t, b) => FreeEntry(s, t, b);
  }

  /** Over every run, under every interleaving, the pointers spell out the chains, and the
      page lists the pools. */
  method PerformAll(links: Linked, pools: map<Class, Pools.Pool>, s: State, steps: seq<Step>, ghost s': State)
    requires Inv(s) && Runs(s, steps, s') && Mirrors(links, pools, s)
    modifies links, pools.Values
    ensures Mirrors(links, pools, s')
  {
    hide Inv, Spells, Enabled, Apply, Mirrors;
    var now := s;
    var i := 0;
    while i < |steps|
      invariant 0 <= i <= |steps| && Inv(now) && Runs(now, steps[i..], s') && Mirrors(links, pools, now)
    {
      assert steps[i..][0] == steps[i] && steps[i..][1..] == steps[i + 1..];
      StepKeeps(now, steps[i]);
      Perform(links, pools, now, steps[i]);
      now := Apply(now, steps[i]);
      i := i + 1;
    }
  }

  /** Classes in the order the pools are set up. */
  function Rank(c: Class): nat {
    if c.storage.SizeClass? then c.index else SMALL_CLASSES + c.index
  }

  /** An empty list for every class. */
  method NewPools() returns (pools: map<Class, Pools.Pool>)
    ensures fresh(pools.Values) && forall c :: c in pools <==> ValidClass(c)
    ensures forall c, d :: c in pools && d in pools && pools[c] == pools[d] ==> c == d
    ensures forall c :: c in pools ==> pools[c].Valid() && pools[c].list == []
  {
    hide ChainFrom, NoDup;
    pools := map[];
    var i := 0;
    while i < SMALL_CLASSES + MEDIUM_CLASSES
      invariant i <= SMALL_CLASSES + MEDIUM_CLASSES && fresh(pools.Values)
      invariant forall c :: c in pools <==> ValidClass(c) && Rank(c) < i
      invariant forall c, d :: c in pools && d in pools && pools[c] == pools[d] ==> c == d
      invariant forall c :: c in pools ==> pools[c].Valid() && pools[c].list == []
    {
      var pool := new Pools.Pool();
      var c := if i < SMALL_CLASSES then Class(SizeClass, i) else Class(Span, i - SMALL_CLASSES);
      assert pools[c := pool].Values <= pools.Values + {pool};
      assert forall d :: d in pools ==> pools[d] in pools.Values;
      pools := pools[c := pool];
      i := i + 1;
    }
  }

  /** From the empty heap, any sequence of enabled steps can be carried out on pointers. */
  method Run(cfg: Config, mode: Mode, steps: seq<Step>, ghost s': State)
    returns (links: Linked, pools: map<Class, Pools.Pool>)
    requires ValidConfig(cfg) && Runs(Init(cfg, mode), steps, s')
    ensures Mirrors(links, pools, s')
  {
    hide Inv, Runs, Spells, ChainFrom, NoDup;
    InitIsOk(cfg, mode);
    links := new Linked();
    pools := NewPools();
    PerformAll(links, pools, Init(cfg, mode), steps, s');
  }
}
