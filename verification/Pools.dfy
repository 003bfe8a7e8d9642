/** The page list of one pool, as it is stored: `AdaptivePage::next` links from the pool's
    head.  The walks of src/adaptive_services.cpp over that list, proved against the
    selection and reclaim functions of the state machine. */
module Pools {
  import Arith
  import opened Types
  import opened Options
  import opened Geometry
  import opened Places
  import opened HeapState
  import opened HeapSteps
  import opened HeapPool
  import HeapReclaim
  import opened Links

  predicate Empty(pages: map<Addr, Page>, p: Addr) {
    p in pages && pages[p].liveCount == 0
  }

  /** The list without its first `k` empty pages, in one pass. */
  function Trim(xs: seq<Addr>, pages: map<Addr, Page>, k: nat): seq<Addr> {
    if xs == [] then []
    else if Empty(pages, xs[0]) && k > 0 then Trim(xs[1..], pages, k - 1)
    else [xs[0]] + Trim(xs[1..], pages, k)
  }

  function Occupied(xs: seq<Addr>, pages: map<Addr, Page>): seq<Addr> {
    if xs == [] then []
    else if Empty(pages, xs[0]) then Occupied(xs[1..], pages)
    else [xs[0]] + Occupied(xs[1..], pages)
  }

  function Surplus(empty: nat, keep: nat): nat {
    if empty > keep then empty - keep else 0
  }

  lemma {:induction false} TrimNothing(xs: seq<Addr>, pages: map<Addr, Page>)
    ensures Trim(xs, pages, 0) == xs
  {
    if xs != [] {
      TrimNothing(xs[1..], pages);
      assert xs == [xs[0]] + xs[1..];
    }
  }

  lemma {:induction false} TrimFrame(xs: seq<Addr>, pages: map<Addr, Page>, p: Addr, k: nat)
    requires p !in xs
    ensures Trim(xs, pages - {p}, k) == Trim(xs, pages, k)
  {
    if xs != [] {
      TrimFrame(xs[1..], pages, p, k);
      if k > 0 {
        TrimFrame(xs[1..], pages, p, k - 1);
      }
    }
  }

  /** Trimming keeps every page that has a live block, in order, and leaves exactly
      `k` empty pages fewer. */
  lemma {:induction false} TrimFacts(xs: seq<Addr>, pages: map<Addr, Page>, k: nat)
    requires k <= CountEmpty(xs, pages)
    ensures Occupied(Trim(xs, pages, k), pages) == Occupied(xs, pages)
    ensures CountEmpty(Trim(xs, pages, k), pages) == CountEmpty(xs, pages) - k
  {
    if xs != [] {
      if Empty(pages, xs[0]) && k > 0 {
        TrimFacts(xs[1..], pages, k - 1);
      } else {
        TrimFacts(xs[1..], pages, k);
        var ys := Trim(xs, pages, k);
        assert ys[0] == xs[0] && ys[1..] == Trim(xs[1..], pages, k);
      }
    }
  }

  /** Unmapping the first empty page is the first step of the trim. */
  lemma {:induction false} TrimStep(xs: seq<Addr>, pages: map<Addr, Page>, p: Addr, k: nat)
    requires NoDup(xs) && FirstEmpty(xs, pages) == Some(p) && k > 0
    ensures Trim(xs, pages, k) == Trim(Without(xs, p), pages - {p}, k - 1)
  {
    if Empty(pages, xs[0]) {
      TrimFrame(xs[1..], pages, p, k - 1);
    } else {
      FirstEmptyIsListed(xs[1..], pages);
      TrimStep(xs[1..], pages, p, k);
      var ys := Without(xs, p);
      assert ys[0] == xs[0] && ys[1..] == Without(xs[1..], p);
    }
  }

  /** The state machine's reclaim leaves exactly the trimmed list in the pool. */
  lemma {:induction false} ReleaseEmptyTrims(s: State, c: Class, keep: nat)
    requires PoolsOk(s.pages, s.pool)
    ensures var xs := PoolOf(s.pool, c);
            PoolOf(ReleaseEmpty(s, c, keep).pool, c) == Trim(xs, s.pages, Surplus(CountEmpty(xs, s.pages), keep))
    decreases |PoolOf(s.pool, c)|
  {
    hide ReleasePage;
    var xs := PoolOf(s.pool, c);
    var n := CountEmpty(xs, s.pages);
    if n > keep {
      SomeEmptyIsFound(xs, s.pages);
      FirstEmptyIsListed(xs, s.pages);
      var p := FirstEmpty(xs, s.pages).value;
      WithoutShorter(xs, p);
      ReleasedPools(s, p);
      HeapReclaim.ReleaseEmpties(s, p);
      TrimStep(xs, s.pages, p, n - keep);
      ReleaseEmptyTrims(ReleasePage(s, p), c, keep);
    } else {
      TrimNothing(xs, s.pages);
    }
  }

  lemma ReleasedPools(s: State, p: Addr)
    requires PoolsOk(s.pages, s.pool) && p in s.pages
    ensures var s' := ReleasePage(s, p); PoolsOk(s'.pages, s'.pool) && s'.pages == s.pages - {p}
  {
    HeapReclaim.PoolsDrop(s.pages, s.pool, p);
  }

  /** What reclaiming down to `keep` empty pages has still to do, and what it left alone:
      `xs` and `pages` are a stage of the trim of `ys` and `were`. */
  ghost predicate Stage(ys: seq<Addr>, were: map<Addr, Page>, xs: seq<Addr>, pages: map<Addr, Page>, keep: nat) {
    && Trim(ys, were, Surplus(CountEmpty(ys, were), keep)) == Trim(xs, pages, Surplus(CountEmpty(xs, pages), keep))
    && Arith.Min(CountEmpty(ys, were), keep) == Arith.Min(CountEmpty(xs, pages), keep)
    && Untouched(ys, were, xs, pages)
  }

  /** Only empty pages of the list are gone; every other page is as it was. */
  ghost predicate Untouched(ys: seq<Addr>, were: map<Addr, Page>, xs: seq<Addr>, pages: map<Addr, Page>) {
    && (forall p :: p in xs ==> p in ys)
    && (forall p :: p in pages ==> p in were && pages[p] == were[p])
    && (forall p :: p in were && p !in pages ==> were[p].liveCount == 0 && p in ys && p !in xs)
  }

  lemma NextStage(ys: seq<Addr>, were: map<Addr, Page>, xs: seq<Addr>, pages: map<Addr, Page>, keep: nat, p: Addr)
    requires Stage(ys, were, xs, pages, keep) && NoDup(xs) && CountEmpty(xs, pages) > keep
    requires FirstEmpty(xs, pages) == Some(p)
    ensures Stage(ys, were, Without(xs, p), pages - {p}, keep)
    ensures CountEmpty(Without(xs, p), pages - {p}) == CountEmpty(xs, pages) - 1
  {
    hide CountEmpty, Trim;
    FirstEmptyIsListed(xs, pages);
    TrimStep(xs, pages, p, CountEmpty(xs, pages) - keep);
    CountEmptyDrop(xs, pages, p);
    WithoutFacts(xs, p);
  }

  lemma PageUnlinked(next: map<Addr, Addr>, head: Addr, xs: seq<Addr>, pages: map<Addr, Page>, i: nat)
    requires ChainFrom(next, head, xs) && NoDup(xs) && (forall p :: p in xs <==> p in pages) && i < |xs|
    ensures xs[i] in pages && xs[i] in next
    ensures var p, prev, ys := xs[i], Preceding(xs, i), Without(xs, xs[i]);
            && ChainFrom((if prev != 0 then next[prev := next[p]] else next)[p := 0],
                         if prev != 0 then head else next[p], ys)
            && NoDup(ys) && forall q :: q in ys <==> q in pages - {p}
  {
    assert xs[i] in xs;
    UnlinkForward(next, head, xs, i);
    WithoutAt(xs, xs[i], i);
    WithoutFacts(xs, xs[i]);
  }

  /** One step along the list. */
  lemma WalkOn(next: map<Addr, Addr>, page: Addr, xs: seq<Addr>, i: nat)
    requires i <= |xs| && ChainFrom(next, page, xs[i..]) && page != 0
    ensures i < |xs| && xs[i] == page && xs[i..][0] == page && xs[i..][1..] == xs[i + 1..] && page in xs
    ensures page in next && ChainFrom(next, next[page], xs[i + 1..])
  {
    ChainPop(next, xs[i..]);
  }

  lemma WalkEnds(next: map<Addr, Addr>, xs: seq<Addr>)
    requires ChainFrom(next, 0, xs)
    ensures xs == []
  {
  }

  // ---- The walks -------------------------------------------------------------------------------------

  class Pool {
    var head: Addr
    var next: map<Addr, Addr>
    var pages: map<Addr, Page>
    ghost var list: seq<Addr>

    ghost predicate Valid()
      reads this
    {
      && ChainFrom(next, head, list) && NoDup(list)
      && forall p :: p in list <==> p in pages
    }

    constructor ()
      ensures Valid() && list == [] && pages == map[]
    {
      head, next, pages, list := 0, map[], map[], [];
    }

    /** Linking a new page at the head of the pool. */
    method Add(base: Addr, page: Page)
      requires Valid() && base != 0 && base !in pages
      modifies this
      ensures Valid() && list == [base] + old(list) && pages == old(pages)[base := page]
    {
      ChainPush(next, head, list, base);
      next := next[base := head];
      head := base;
      pages := pages[base := page];
      ConsNoDup(base, list);
      list := [base] + list;
    }

    /** `count_empty_locked`. */
    method Empties() returns (count: nat)
      requires Valid()
      ensures count == CountEmpty(list, pages)
    {
      count := 0;
      var page := head;
      ghost var i := 0;
      while page != 0
        invariant 0 <= i <= |list| && ChainFrom(next, page, list[i..])
        invariant count + CountEmpty(list[i..], pages) == CountEmpty(list, pages)
        decreases |list| - i
      {
        assert list[i..][0] == list[i] && list[i..][1..] == list[i + 1..];
        ChainPop(next, list[i..]);
        if pages[page].liveCount == 0 {
          count := count + 1;
        }
        page := next[page];
        i := i + 1;
      }
    }

    /** The plain scan: the first page with a free block. */
    method SelectFirst(links: Linked) returns (selected: Addr)
      requires Valid() && links.Valid()
      ensures FirstWithFree(list, links.places) == if selected == 0 then None else Some(selected)
    {
      hide ChainFrom, NoDup, Spells;
      selected := head;
      ghost var i := 0;
      assert list[0..] == list;
      while selected != 0
        invariant 0 <= i <= |list| && ChainFrom(next, selected, list[i..])
        invariant FirstWithFree(list, links.places) == FirstWithFree(list[i..], links.places)
        decreases |list| - i
      {
        WalkOn(next, selected, list, i);
        HeadIsFirst(links.next, links.prev, links.heads, links.counts, links.places, Free(selected));
        if HeadOf(links.heads, Free(selected)) != 0 {
          return;
        }
        selected := next[selected];
        i := i + 1;
      }
      WalkEnds(next, list[i..]);
    }

    /** The packing scan. */
    method SelectFullest(links: Linked) returns (selected: Addr)
      requires Valid() && links.Valid()
      ensures Fullest(list, pages, links.places, None) == if selected == 0 then None else Some(selected)
    {
      hide ChainFrom, NoDup, Spells;
      selected := 0;
      var page, bestLive := head, 0;
      ghost var i := 0;
      assert list[0..] == list;
      while page != 0
        invariant 0 <= i <= |list| && ChainFrom(next, page, list[i..])
        invariant selected != 0 ==> selected in pages && bestLive == pages[selected].liveCount
        invariant Fullest(list, pages, links.places, None)
                  == Fullest(list[i..], pages, links.places, if selected == 0 then None else Some(selected))
        decreases |list| - i
      {
        WalkOn(next, page, list, i);
        HeadIsFirst(links.next, links.prev, links.heads, links.counts, links.places, Free(page));
        if HeadOf(links.heads, Free(page)) != 0 && (selected == 0 || pages[page].liveCount > bestLive) {
          selected := page;
          bestLive := pages[page].liveCount;
        }
        page := next[page];
        i := i + 1;
      }
      WalkEnds(next, list[i..]);
    }

    /** `select_pool_page_locked`: null when no page has a free block, otherwise the
        page the state machine picks. */
    method Select(links: Linked, packing: bool) returns (selected: Addr)
      requires Valid() && links.Valid()
      ensures (if packing then Fullest(list, pages, links.places, None) else FirstWithFree(list, links.places))
              == if selected == 0 then None else Some(selected)
    {
      if packing {
        selected := SelectFullest(links);
      } else {
        selected := SelectFirst(links);
      }
    }

    /** The inner walk of `release_empty_locked`: the first empty page and the page
        before it. */
    method FindEmpty() returns (page: Addr, prev: Addr, ghost i: nat)
      requires Valid()
      ensures FirstEmpty(list, pages) == if page == 0 then None else Some(page)
      ensures page != 0 ==> i < |list| && list[i] == page && prev == Preceding(list, i)
    {
      prev, page, i := 0, head, 0;
      while page != 0 && pages[page].liveCount != 0
        invariant 0 <= i <= |list| && ChainFrom(next, page, list[i..])
        invariant i > 0 ==> prev == list[i - 1]
        invariant i == 0 ==> prev == 0
        invariant FirstEmpty(list, pages) == FirstEmpty(list[i..], pages)
        decreases |list| - i
      {
        assert list[i..][0] == list[i] && list[i..][1..] == list[i + 1..];
        ChainPop(next, list[i..]);
        prev := page;
        page := next[page];
        i := i + 1;
      }
      assert page != 0 ==> list[i..][0] == list[i];
    }

    /** The walk of `release_target_empty_locked`: the page before `target`. */
    method FindPage(target: Addr) returns (found: bool, prev: Addr, ghost i: nat)
      requires Valid()
      ensures found <==> target in list
      ensures found ==> i < |list| && list[i] == target && prev == Preceding(list, i)
    {
      var page := head;
      found, prev, i := false, 0, 0;
      if target == 0 {
        return;
      }
      while page != 0 && page != target
        invariant 0 <= i <= |list| && ChainFrom(next, page, list[i..])
        invariant i > 0 ==> prev == list[i - 1]
        invariant i == 0 ==> prev == 0
        invariant forall j :: 0 <= j < i ==> list[j] != target
        decreases |list| - i
      {
        assert list[i..][0] == list[i] && list[i..][1..] == list[i + 1..];
        ChainPop(next, list[i..]);
        prev := page;
        page := next[page];
        i := i + 1;
      }
      assert page != 0 ==> list[i..][0] == list[i];
      assert page == 0 ==> i == |list|;
      found := page == target;
    }

    /** The updates of `live_count`. */
    method SetPage(p: Addr, page: Page)
      requires Valid() && p in pages
      modifies this`pages
      ensures Valid() && pages == old(pages)[p := page]
    {
      pages := pages[p := page];
    }

    /** `release_page_locked`. */
    method Unlink(page: Addr, prev: Addr, ghost i: nat)
      requires Valid() && i < |list| && list[i] == page && prev == Preceding(list, i)
      requires pages[page].liveCount == 0
      modifies this
      ensures Valid() && list == Without(old(list), page) && pages == old(pages) - {page}
    {
      hide ChainFrom, NoDup, Without, Preceding;
      PageUnlinked(next, head, list, pages, i);
      if prev != 0 {
        next := next[prev := next[page]];
      } else {
        head := next[page];
      }
      next := next[page := 0];
      pages := pages - {page};
      list := Without(list, page);
    }

    /** `release_empty_locked`. */
    method ReleaseEmpty(keep: nat)
      requires Valid()
      modifies this
      ensures Valid()
      ensures list == Trim(old(list), old(pages), Surplus(CountEmpty(old(list), old(pages)), keep))
      ensures CountEmpty(list, pages) == Arith.Min(CountEmpty(old(list), old(pages)), keep)
      ensures Untouched(old(list), old(pages), list, pages)
    {
      hide CountEmpty, Trim, FirstEmpty, Untouched, Preceding;
      assert Untouched(list, pages, list, pages) by { UntouchedAtFirst(list, pages); }
      var empty := Empties();
      while empty > keep
        invariant Valid() && empty == CountEmpty(list, pages)
        invariant Stage(old(list), old(pages), list, pages, keep)
      {
        SomeEmptyIsFound(list, pages);
        FirstEmptyIsListed(list, pages);
        var page, prev, i := FindEmpty();
        if page == 0 {
          break;
        }
        NextStage(old(list), old(pages), list, pages, keep, page);
        Unlink(page, prev, i);
        empty := empty - 1;
      }
      TrimNothing(list, pages);
    }
  }

  lemma UntouchedAtFirst(xs: seq<Addr>, pages: map<Addr, Page>)
    ensures Untouched(xs, pages, xs, pages)
  {
  }
}
