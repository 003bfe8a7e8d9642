/** The results about pools and remote frees are not empty: a run from the empty heap to a
    pool page, and on to a block in a remote bucket. */
module HeapRemoteWitness {
  import opened Types
  import opened Policy
  import opened Options
  import opened Geometry
  import opened Places
  import opened HeapState
  import opened HeapSteps
  import opened HeapRemote
  import opened HeapSafety
  import opened HeapRequests
  import opened HeapBuckets
  import opened HeapTheorems
  import opened HeapLive
  import opened HeapPayload

  const BASE: Addr := 1048576

  function Asked(): Request {
    MakeRequest(16, 16, CrossThreadMessage, 1, false)
  }

  function Smallest(): Class {
    Class(SizeClass, 0)
  }

  function Empty(cfg: Config): State {
    Init(cfg, CrossThreadMessage)
  }

  /** The empty heap with thread 1 at `pc`. */
  function At1(cfg: Config, pc: Pc): State {
    SetPc(Empty(cfg), 1, pc)
  }

  lemma {:induction false} RunsOn(s: State, steps: seq<Step>, s': State, step: Step)
    requires Runs(s, steps, s') && Enabled(s', step)
    ensures Runs(s, steps + [step], Apply(s', step))
    decreases |steps|
  {
    hide Apply, Enabled;
    var all := steps + [step];
    if steps == [] {
      assert all[1..] == [];
    } else {
      RunsOn(Apply(s, steps[0]), steps[1..], s', step);
      assert all[0] == steps[0] && all[1..] == steps[1..] + [step];
    }
  }

  lemma ReachOn(s: State, step: Step)
    requires Reachable(s) && Enabled(s, step)
    ensures Reachable(Apply(s, step))
  {
    hide Apply, Enabled, Init, Runs;
    var cfg, mode, steps :| ValidConfig(cfg) && Runs(Init(cfg, mode), steps, s);
    RunsOn(Init(cfg, mode), steps, s, step);
  }

  lemma EmptyReached(cfg: Config)
    requires ValidConfig(cfg)
    ensures Reachable(Empty(cfg))
  {
    assert Runs(Init(cfg, CrossThreadMessage), [], Empty(cfg));
  }

  lemma Asking()
    ensures var r := Asked();
            r.size == 16 && r.alignment == 16 && r.mode == CrossThreadMessage && r.thread == 1 && r.threadCache
              && r.drainRemote
    ensures ClassFor(Route(CrossThreadMessage, 16, 16, 1, false), 16) == Some(Smallest())
  {
  }

  // ---- Up to the pool section ------------------------------------------------------------------------------

  lemma Begins(cfg: Config)
    requires ValidConfig(cfg)
    ensures Reachable(At1(cfg, Begin(Asked(), Smallest(), 0)))
  {
    hide Reachable, Route, ClassFor, MakeRequest;
    EmptyReached(cfg);
    Asking();
    ReachOn(Empty(cfg), Malloc(1, 16, 16));
  }

  /** Thread 1 goes from `pc` to `next` while the heap is empty. */
  lemma Moves(cfg: Config, pc: Pc, next: Pc)
    requires Reachable(At1(cfg, pc)) && !pc.Central? && !pc.MapNew?
    requires Go(At1(cfg, pc), 1, MapFails) == At1(cfg, next)
    ensures Reachable(At1(cfg, next))
  {
    hide Reachable, Go;
    ReachOn(At1(cfg, pc), Advance(1, MapFails));
  }

  lemma {:induction false} Scans(cfg: Config, k: nat)
    requires Reachable(At1(cfg, Scan(Asked(), Smallest(), 0, true, 0))) && k <= BUCKETS
    ensures Reachable(At1(cfg, Scan(Asked(), Smallest(), 0, true, k)))
  {
    hide Reachable, MakeRequest, Slot;
    if k > 0 {
      Scans(cfg, k - 1);
      Moves(cfg, Scan(Asked(), Smallest(), 0, true, k - 1), Scan(Asked(), Smallest(), 0, true, k));
    }
  }

  lemma AtPool(cfg: Config)
    requires ValidConfig(cfg)
    ensures Reachable(At1(cfg, Central(Asked(), Smallest(), 0)))
  {
    hide Reachable, MakeRequest;
    Asking();
    Begins(cfg);
    Moves(cfg, Begin(Asked(), Smallest(), 0), Pop(Asked(), Smallest(), 0, false));
    Moves(cfg, Pop(Asked(), Smallest(), 0, false), Scan(Asked(), Smallest(), 0, true, 0));
    Scans(cfg, BUCKETS);
    Moves(cfg, Scan(Asked(), Smallest(), 0, true, BUCKETS), Pop(Asked(), Smallest(), 0, true));
    Moves(cfg, Pop(Asked(), Smallest(), 0, true), Central(Asked(), Smallest(), 0));
  }

  // ---- A pool page ------------------------------------------------------------------------------------------

  function Keys(bytes: nat): set<Addr> {
    set k: nat | BASE <= k < BASE + bytes && k % PAGE_SIZE == 0
  }

  function Answer(cfg: Config): Oracle {
    Maps(BASE, Keys(cfg.smallPage))
  }

  /** The heap holds one mapping, a pool page, which the page table knows, and nobody but
      thread 1 is at work. */
  ghost predicate OnePage(cfg: Config, s: State) {
    && s.cfg == cfg && s.regions == map[BASE := Region(cfg.smallPage, CrossThreadMessage, 0)]
    && s.stored.Keys == Keys(cfg.smallPage) && BASE in s.pages
    && |s.owners| == BUCKETS && (forall i :: 0 <= i < BUCKETS ==> s.owners[i] == 0)
    && forall u :: u != 1 ==> PcOf(s.pcs, u).Idle?
  }

  lemma PageAppears(cfg: Config)
    requires ValidConfig(cfg)
    ensures var s := Apply(At1(cfg, Central(Asked(), Smallest(), 0)), Advance(1, Answer(cfg)));
            && Reachable(s) && OnePage(cfg, s)
            && PcOf(s.pcs, 1).Fresh? && PcOf(s.pcs, 1).req == Asked() && PcOf(s.pcs, 1).src == 0
  {
    hide Reachable, MakeRequest, TakeFrom, Inv, Capacity, Keys, AddPage;
    var pc := Central(Asked(), Smallest(), 0);
    var s := At1(cfg, pc);
    AtPool(cfg);
    ReachableIsOk(s);
    Fits(cfg);
    ReachOn(s, Advance(1, Answer(cfg)));
    OnlyLargestClassCanStarve(cfg, Smallest());
    CentralSucceeds(s, 1, Answer(cfg));
    var added := AddPage(s, Smallest(), CrossThreadMessage, BASE, Keys(cfg.smallPage));
    Asking();
    PageAdded(cfg, s);
    assert Go(s, 1, Answer(cfg)) == TakeFrom(added, 1, Asked(), Smallest(), 0, BASE);
    TakeFromFrame(added, 1, Asked(), Smallest(), 0, BASE);
  }

  lemma PageAdded(cfg: Config, s: State)
    requires s.cfg == cfg && s.regions == map[] && s.stored == map[]
    ensures var r := AddPage(s, Smallest(), CrossThreadMessage, BASE, Keys(cfg.smallPage));
            && r.regions == map[BASE := Region(cfg.smallPage, CrossThreadMessage, 0)]
            && r.stored.Keys == Keys(cfg.smallPage)
            && BASE in r.pages && r.owners == s.owners && r.pcs == s.pcs && r.cfg == s.cfg
  {
    hide Keys, Layout, Capacity, Admit;
  }

  lemma Fits(cfg: Config)
    requires ValidConfig(cfg)
    ensures OracleOk(map[], Answer(cfg), cfg.smallPage)
  {
  }

  // ---- A live pool object --------------------------------------------------------------------------------------

  /** Object `b` is in the page, belongs to the message-passing mode, and is at `l`. */
  ghost predicate Holds(cfg: Config, s: State, b: Addr, l: Loc) {
    && OnePage(cfg, s) && b in s.objs && s.objs[b].pooled && s.objs[b].mode == CrossThreadMessage
    && b in s.places.place && s.places.place[b] == l
  }

  lemma PooledHere(cfg: Config, s: State, b: Addr)
    requires Inv(s) && OnePage(cfg, s) && b in s.objs
    ensures s.objs[b].pooled && s.objs[b].usable > 0
  {
    hide StoredOk, PoolsOk, PcsOk, LiveCountsOk, PagesOk, HandsOk, WellPlaced, StatusOk, EmptiesOk, RegionsOk,
         CachesOk, LiveGaugeOk, MapGaugeOk, PendingOk, CountedOk, MapCountedOk, BucketsOk;
    assert ObjectOk(b, s.objs[b], s.pages, s.regions);
  }

  lemma FreshHeld(cfg: Config, s: State)
    requires Inv(s) && OnePage(cfg, s) && 1 in s.pcs && s.pcs[1].Fresh? && s.pcs[1].req == Asked()
    ensures Holds(cfg, s, s.pcs[1].b, Hand(1))
  {
    hide Core, EmptiesOk, Reachable, MakeRequest, OnePage;
    HeldBlock(s, 1);
    QuietThread(s, 1);
    PooledHere(cfg, s, s.pcs[1].b);
    Asking();
  }

  lemma Registers(cfg: Config, s: State)
    requires Reachable(s) && 1 in s.pcs && s.pcs[1].Fresh? && s.pcs[1].src == 0 && Holds(cfg, s, s.pcs[1].b, Hand(1))
    ensures var s' := Apply(s, Advance(1, MapFails)); var b := s.pcs[1].b;
            Reachable(s') && Holds(cfg, s', b, Registry) && s'.pcs == s.pcs[1 := Note(s.pcs[1].req, 0, b)]
  {
    hide Reachable, Keys;
    var s' := Apply(s, Advance(1, MapFails));
    ReachOn(s, Advance(1, MapFails));
    var pc := s.pcs[1];
    assert s' == Relocate(s, 1, pc.b, Registry, s.objs[pc.b], Note(pc.req, pc.src, pc.b));
    assert forall u :: u != 1 ==> PcOf(s'.pcs, u) == PcOf(s.pcs, u);
  }

  lemma Reports(cfg: Config, s: State, b: Addr)
    requires Reachable(s) && 1 in s.pcs && s.pcs[1].Note? && s.pcs[1].src == 0 && s.pcs[1].b == b
    requires Holds(cfg, s, b, Registry)
    ensures var s' := Apply(s, Advance(1, MapFails)); Reachable(s') && Holds(cfg, s', b, Registry) && AtRest(s')
  {
    hide Reachable, Keys, AddLive, AddMapped;
    ReachOn(s, Advance(1, MapFails));
    assert forall u :: u in s.pcs && u != 1 ==> PcOf(s.pcs, u).Idle?;
  }

  // ---- Freed by another thread ---------------------------------------------------------------------------------

  lemma IsKnown(cfg: Config, s: State, b: Addr)
    requires Reachable(s) && Holds(cfg, s, b, Registry) && AtRest(s)
    ensures Inv(s) && Quiet(s, b) && HeaderFromUser(s, b).Some? && s.objs[b].owner != 0
  {
    hide Core, EmptiesOk, Reachable, Keys;
    ReachableIsOk(s);
    LiveObjectIsWellFormed(s, b);
    RegisteredBlock(s, b);
    PooledHere(cfg, s, b);
    KeyInside(cfg, s, b);
    HeaderExactlyWhenLive(s, b);
  }

  lemma KeyInside(cfg: Config, s: State, b: Addr)
    requires OnePage(cfg, s) && b in s.objs && s.objs[b].base in s.regions && s.objs[b].base <= b
    requires b + Extent(s.objs[b]) <= s.objs[b].base + s.regions[s.objs[b].base].size && s.objs[b].usable > 0
    ensures PageKey(b + HEADER) in s.stored
  {
  }

  /** Thread `u` has got as far as `pc` with the free of `b`. */
  ghost predicate FreeingAt(cfg: Config, s: State, b: Addr, u: Tid, l: Loc, pc: Pc) {
    && Reachable(s) && b in s.objs && s.objs[b].pooled && s.objs[b].mode == CrossThreadMessage && s.objs[b].owner != u
    && u != 0
    && b in s.places.place && s.places.place[b] == l && u in s.pcs && s.pcs[u] == pc
    && |s.owners| == BUCKETS && (forall i :: 0 <= i < BUCKETS ==> s.owners[i] == 0)
  }

  function Decided(cfg: Config, s: Storage): Decision {
    PlanFree(cfg, CrossThreadMessage, s)
  }

  lemma FreeStarts(cfg: Config, s: State, b: Addr, u: Tid)
    requires Reachable(s) && Holds(cfg, s, b, Registry) && AtRest(s) && u != 0 && u != s.objs[b].owner
    ensures FreeingAt(cfg, Apply(s, FreeAt(u, b)), b, u, Registry, Freeing(b, Decided(cfg, s.objs[b].storage)))
    ensures Apply(s, FreeAt(u, b)).objs == s.objs
  {
    hide Inv, Reachable, Keys, PlanFree, AddLive;
    IsKnown(cfg, s, b);
    assert u in s.pcs ==> s.pcs[u].Idle?;
    ReachOn(s, FreeAt(u, b));
  }

  lemma FreeUnregisters(cfg: Config, s: State, b: Addr, u: Tid, dec: Decision)
    requires FreeingAt(cfg, s, b, u, Registry, Freeing(b, dec))
    ensures var s' := Apply(s, Advance(u, MapFails));
            FreeingAt(cfg, s', b, u, Hand(u), Doomed(b, dec)) && s'.objs[b] == s.objs[b]
  {
    hide Reachable;
    ReachOn(s, Advance(u, MapFails));
    assert Apply(s, Advance(u, MapFails)) == Relocate(s, u, b, Hand(u), s.objs[b], Doomed(b, dec));
  }

  lemma FreeGoesRemote(cfg: Config, s: State, b: Addr, u: Tid, dec: Decision)
    requires FreeingAt(cfg, s, b, u, Hand(u), Doomed(b, dec)) && dec.remoteQueue
    ensures var s' := Apply(s, Advance(u, MapFails));
            FreeingAt(cfg, s', b, u, Hand(u), Enqueue(b, dec, 0)) && s'.objs[b] == s.objs[b]
  {
    hide Reachable;
    ReachOn(s, Advance(u, MapFails));
    assert Apply(s, Advance(u, MapFails)) == SetPc(s, u, Enqueue(b, dec, 0));
  }

  lemma FreeQueues(cfg: Config, s: State, b: Addr, u: Tid, dec: Decision)
    requires FreeingAt(cfg, s, b, u, Hand(u), Enqueue(b, dec, 0))
    ensures var s' := Apply(s, Advance(u, MapFails));
            Reachable(s') && b in s'.places.place && s'.places.place[b] == Queue(Slot(s.objs[b].owner, 0))
  {
    hide Reachable, Slot;
    ReachOn(s, Advance(u, MapFails));
  }

  /** Some reachable state has a pool page, and some reachable state has a block in a remote
      bucket. */
  lemma ABlockCanBeQueued(cfg: Config)
    requires ValidConfig(cfg)
    ensures exists s :: Reachable(s) && BASE in s.pages
    ensures exists s, b :: Reachable(s) && b in s.places.place && s.places.place[b].Queue?
  {
    hide Reachable, Apply, OnePage, MakeRequest, Slot, AtRest, PlanFree;
    PageAppears(cfg);
    var s0 := Apply(At1(cfg, Central(Asked(), Smallest(), 0)), Advance(1, Answer(cfg)));
    HasPage(cfg, s0);
    var b := s0.pcs[1].b;
    FreshHeld(cfg, s0);
    Registers(cfg, s0);
    var s1 := Apply(s0, Advance(1, MapFails));
    Reports(cfg, s1, b);
    var s2 := Apply(s1, Advance(1, MapFails));
    var u := s2.objs[b].owner + 1;
    var dec := Decided(cfg, s2.objs[b].storage);
    FreeStarts(cfg, s2, b, u);
    var s3 := Apply(s2, FreeAt(u, b));
    FreeUnregisters(cfg, s3, b, u, dec);
    var s4 := Apply(s3, Advance(u, MapFails));
    GoesRemote(cfg, s2.objs[b].storage);
    FreeGoesRemote(cfg, s4, b, u, dec);
    FreeQueues(cfg, Apply(s4, Advance(u, MapFails)), b, u, dec);
  }

  lemma HasPage(cfg: Config, s: State)
    requires Reachable(s) && OnePage(cfg, s) && PcOf(s.pcs, 1).Fresh?
    ensures Inv(s) && BASE in s.pages && 1 in s.pcs
  {
    hide Reachable, Inv;
    ReachableIsOk(s);
  }

  lemma GoesRemote(cfg: Config, storage: Storage)
    ensures Decided(cfg, storage).remoteQueue
  {
  }
}
