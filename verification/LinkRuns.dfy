/** The pointers follow the state machine: every step that moves a block has a pointer
    operation that does to the chains what the step does. */
module LinkRuns {
  import opened Types
  import opened Policy
  import opened Geometry
  import opened Places
  import opened HeapState
  import opened HeapSteps
  import opened HeapRemote
  import opened HeapLive
  import opened HeapPool
  import opened HeapPages
  import opened HeapReclaim
  import opened Links

  /** The pointers spell out the chains of `s`. */
  ghost predicate Follows(links: Linked, s: State)
    reads links
  {
    links.Valid() && links.places == s.places
  }

  // ---- Searching and draining --------------------------------------------------------------------------

  method Scan(links: Linked, s: State, t: Tid)
    requires Inv(s) && t in s.pcs && s.pcs[t].Scan? && Follows(links, s)
    modifies links
    ensures Follows(links, GoScan(s, t, s.pcs[t]))
  {
    hide Core, EmptiesOk, Spells, Splice, Slot, PcOk;
    var pc := s.pcs[t];
    QuietThread(s, t);
    if pc.k < BUCKETS {
      var i := Slot(t, pc.k);
      HeadIsFirst(links.next, links.prev, links.heads, links.counts, links.places, Queue(i));
      if i < |s.owners| && s.owners[i] == t && HeadOf(links.heads, Queue(i)) != 0 {
        links.Detach(i, t);
      }
    }
  }

  method Drain(links: Linked, s: State, t: Tid)
    requires Inv(s) && t in s.pcs && s.pcs[t].Drain? && Follows(links, s)
    modifies links
    ensures Follows(links, GoDrain(s, t, s.pcs[t]))
  {
    hide Core, EmptiesOk, Spells, Move, CacheLimit, Cleared;
    var pc := s.pcs[t];
    var b := HeadOf(links.heads, Detached(t));
    HeadIsFirst(links.next, links.prev, links.heads, links.counts, links.places, Detached(t));
    if b != 0 && pc.n < DRAIN_LIMIT {
      DetachedHead(s, t);
      var c := s.pages[s.objs[b].page].cls;
      HeadIsFirst(links.next, links.prev, links.heads, links.counts, links.places, Cache(t, c));
      if CountOf(links.counts, Cache(t, c)) < CacheLimit(c, pc.req.smallLimit, pc.req.mediumLimit) {
        links.Transfer(t, Cache(t, c));
      }
    }
  }

  method Pop(links: Linked, s: State, t: Tid)
    requires Inv(s) && t in s.pcs && s.pcs[t].Pop? && Follows(links, s)
    modifies links
    ensures Follows(links, GoPop(s, t, s.pcs[t]))
  {
    hide Core, EmptiesOk, Spells, Move, Finalized;
    ghost var xs := At(s.places, Cache(t, s.pcs[t].cls));
    if xs != [] {
      CachedBlock(s, t, s.pcs[t].cls, xs[0]);
    }
    var b := links.Pop(Cache(t, s.pcs[t].cls), t);
  }

  // ---- The pool section ------------------------------------------------------------------------------------

  /** The page's live count rises by the blocks taken. */
  method TakeBlocks(links: Linked, s: State, t: Tid, p: Addr) returns (taken: nat)
    requires Core(s) && t in s.pcs && s.pcs[t].Central? && p in s.pages && At(s.places, Free(p)) != []
    requires Follows(links, s)
    modifies links
    ensures var pc := s.pcs[t]; var s' := TakeFrom(s, t, pc.req, pc.cls, pc.src, p);
            && Follows(links, s') && s'.pool == s.pool
            && s'.pages == s.pages[p := WithLive(s.pages[p], s.pages[p].liveCount + taken)]
  {
    hide Core, Spells, Move, Finalized, Refill, RefillChains, CacheLimit, At;
    var pc := s.pcs[t];
    taken := 1;
    FreeHead(s, p);
    ghost var b := At(s.places, Free(p))[0];
    ghost var s1 := Take(s, t, p, b, Hand(t), Finalized(s.objs[b], pc.req, pc.cls), Fresh(pc.req, pc.src, b));
    var block := links.Pop(Free(p), t);
    if pc.req.threadCache && pc.req.batch > 1 {
      var limit := CacheLimit(pc.cls, pc.req.smallLimit, pc.req.mediumLimit);
      TakenIsPlaced(s, t, p);
      RefillAgrees(s1, t, p, pc.cls, limit, pc.req.batch - 1);
      RefillPages(s1, t, p, pc.cls, limit, pc.req.batch - 1);
      var moved := links.Refill(p, Cache(t, pc.cls), limit, pc.req.batch);
      taken := taken + moved;
    }
  }

  lemma {:induction false} RefillPages(s: State, t: Tid, p: Addr, c: Class, limit: nat, budget: nat)
    requires p in s.pages
    ensures var s' := Refill(s, t, p, c, limit, budget);
            p in s'.pages && s'.pages == s.pages[p := WithLive(s.pages[p], s'.pages[p].liveCount)] && s'.pool == s.pool
    decreases budget
  {
    hide Move, At;
    var xs := At(s.places, Free(p));
    if !(xs == [] || |At(s.places, Cache(t, c))| >= limit || budget == 0 || xs[0] !in s.places.place
         || xs[0] !in s.objs) {
      RefillPages(Take(s, t, p, xs[0], Cache(t, c), s.objs[xs[0]].(owner := 0), PcOf(s.pcs, t)), t, p, c, limit,
                  budget - 1);
    }
  }

  lemma TakenIsPlaced(s: State, t: Tid, p: Addr)
    requires Core(s) && t in s.pcs && s.pcs[t].Central? && p in s.pages && At(s.places, Free(p)) != []
    requires var b := At(s.places, Free(p))[0]; b in s.places.place && b in s.objs && s.places.place[b] == Free(p)
    ensures var pc, b := s.pcs[t], At(s.places, Free(p))[0];
            var s' := Take(s, t, p, b, Hand(t), Finalized(s.objs[b], pc.req, pc.cls), Fresh(pc.req, pc.src, b));
            p in s'.pages && WellPlaced(s'.places) && s'.places.place.Keys == s'.objs.Keys
  {
    hide Core, Move, WellPlaced, Finalized;
    PlacesAreWell(s);
    var b := At(s.places, Free(p))[0];
    MoveWellPlaced(s.places, b, Hand(t));
    KeysAfterMove(s.places, b, Hand(t));
    SameKeys(s);
  }

  lemma SameKeys(s: State)
    requires Core(s)
    ensures s.places.place.Keys == s.objs.Keys
  {
    hide RegionsOk, StoredOk, PoolsOk, PcsOk, LiveCountsOk, ObjectsOk, PagesOk, HandsOk, WellPlaced, CachesOk,
         LiveGaugeOk, MapGaugeOk, PendingOk, CountedOk, MapCountedOk, BucketsOk;
  }

  method MapNew(links: Linked, s: State, t: Tid, oracle: Oracle)
    requires Inv(s) && t in s.pcs && s.pcs[t].MapNew? && OracleOk(s.regions, oracle, Wanted(s, t)) && Follows(links, s)
    modifies links
    ensures Follows(links, GoMapNew(s, t, s.pcs[t], oracle))
  {
    hide Core, EmptiesOk, DirectBytes, DirectHeader, DirectObject, Spells, Admit;
    var pc := s.pcs[t];
    QuietThread(s, t);
    var bytes := DirectBytes(pc.req.size, pc.req.alignment, pc.req.redzone);
    if bytes.Some? && oracle.Maps? {
      MappedHeader(s, t, pc.req, pc.src, bytes.value, oracle.base, oracle.kept);
      links.Enter(DirectHeader(oracle.base, pc.req.alignment), t);
    }
  }

  // ---- Registering and freeing ------------------------------------------------------------------------------

  method Register(links: Linked, s: State, t: Tid)
    requires Inv(s) && t in s.pcs && s.pcs[t].Fresh? && Follows(links, s)
    modifies links
    ensures Follows(links, GoFresh(s, t, s.pcs[t]))
  {
    hide Core, EmptiesOk, Spells, Move;
    HeldBlock(s, t);
    links.RegistryInsert(s.pcs[t].b);
  }

  method Unregister(links: Linked, s: State, t: Tid)
    requires Inv(s) && t in s.pcs && s.pcs[t].Freeing? && Follows(links, s)
    modifies links
    ensures Follows(links, GoFreeing(s, t, s.pcs[t]))
  {
    hide Core, EmptiesOk, Spells, Move;
    QuietThread(s, t);
    assert s.pcs[t].b in Claims(s.pcs[t]);
    RegisteredBlock(s, s.pcs[t].b);
    links.RegistryRemove(s.pcs[t].b, t);
  }

  method Doomed(links: Linked, s: State, t: Tid)
    requires Inv(s) && t in s.pcs && s.pcs[t].Doomed? && Follows(links, s)
    modifies links
    ensures Follows(links, GoDoomed(s, t, s.pcs[t]))
  {
    hide Core, EmptiesOk, Spells, Move, Evict, CacheLimit, Cleared, AddMapped, KeysOf;
    var pc := s.pcs[t];
    HeldBlock(s, t);
    var o := s.objs[pc.b];
    if o.pooled {
      var c := s.pages[o.page].cls;
      HeadIsFirst(links.next, links.prev, links.heads, links.counts, links.places, Cache(t, c));
      if !(pc.dec.remoteQueue && o.owner != t) && pc.dec.action.CacheIt? && o.owner == t
         && CountOf(links.counts, Cache(t, c)) < CacheLimit(c, pc.dec.smallLimit, pc.dec.mediumLimit) {
        links.Push(pc.b, Cache(t, c));
      }
    } else if pc.dec.quarantine || pc.dec.action.QuarantineIt? {
      links.Retire(pc.b);
    } else {
      links.Forget(Hand(t));
    }
  }

  method Enqueue(links: Linked, s: State, t: Tid)
    requires Inv(s) && t in s.pcs && s.pcs[t].Enqueue? && Follows(links, s)
    modifies links
    ensures Follows(links, GoEnqueue(s, t, s.pcs[t]))
  {
    hide Core, EmptiesOk, Spells, Move, Slot, Queued;
    var pc := s.pcs[t];
    HeldBlock(s, t);
    if pc.k < BUCKETS {
      var o := s.objs[pc.b];
      var i := Slot(o.owner, pc.k);
      if i < |s.owners| && (s.owners[i] == 0 || s.owners[i] == o.owner) {
        links.Push(pc.b, Queue(i));
      }
    }
  }

  /** Unmapping the surplus empty pages of a class. */
  method ForgetEmpty(links: Linked, s: State, c: Class, keep: nat)
    requires Core(s) && Follows(links, s)
    modifies links
    ensures Follows(links, ReleaseEmpty(s, c, keep))
    decreases |PoolOf(s.pool, c)|
  {
    hide Core, Spells, ReleasePage, PoolsOk;
    var xs := PoolOf(s.pool, c);
    if CountEmpty(xs, s.pages) > keep {
      SomeEmptyIsFound(xs, s.pages);
      FirstEmptyIsListed(xs, s.pages);
      var p := FirstEmpty(xs, s.pages).value;
      WithoutShorter(xs, p);
      ListedClass(s, c, p);
      ReleasePageCore(s, p);
      ReleaseEmpties(s, p);
      ReleasedPlaces(s, p);
      links.Forget(Free(p));
      ForgetEmpty(links, ReleasePage(s, p), c, keep);
    }
  }

  lemma ReleasedPlaces(s: State, p: Addr)
    requires p in s.pages
    ensures ReleasePage(s, p).places == Evict(s.places, Free(p))
  {
  }

  /** The steps that move no block, and the splice of a put-back. */
  lemma OtherPlaces(s: State, t: Tid)
    ensures var pc := PcOf(s.pcs, t);
            && (pc.Begin? ==> GoBegin(s, t, pc).places == s.places)
            && (pc.Tick? ==> GoTick(s, t, pc).places == s.places)
            && (pc.Note? ==> GoNote(s, t, pc).places == s.places)
            && (pc.PutBack? ==> GoPutBack(s, t, pc).places == Splice(s.places, Detached(t), Queue(pc.bucket)))
  {
    hide AddLive, AddMapped, PlanFree, Splice;
  }

  /** Every critical section but the two that hold a pool's mutex. */
  method Advance(links: Linked, s: State, t: Tid, oracle: Oracle)
    requires Inv(s) && Enabled(s, Step.Advance(t, oracle)) && Follows(links, s)
    requires !s.pcs[t].Central? && !s.pcs[t].Return?
    modifies links
    ensures Follows(links, Go(s, t, oracle))
  {
    hide Inv, Spells, GoBegin, GoScan, GoDrain, GoTick, GoPutBack, GoPop, GoCentral, GoMapNew, GoFresh, GoNote,
         GoFreeing, GoDoomed, GoEnqueue, GoReturn, OracleOk, Splice;
    OtherPlaces(s, t);
    match s.pcs[t]
    case Scan(_, _, _, _, _) => Scan(links, s, t);
    case Drain(_, _, _, _, _, _) => Drain(links, s, t);
    case PutBack(_, _, _, _, i) => links.PutBack(t, i);
    case Pop(_, _, _, _) => Pop(links, s, t);
    case MapNew(_, _) => MapNew(links, s, t, oracle);
    case Fresh(_, _, _) => Register(links, s, t);
    case Freeing(_, _) => Unregister(links, s, t);
    case Doomed(_, _) => Doomed(links, s, t);
    case Enqueue(_, _, _) => Enqueue(links, s, t);
    case _ =>
  }
}
