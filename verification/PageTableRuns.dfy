/** The page table under concurrency: every atomic access to a slot is a step, and threads
    registering, unregistering and looking up pages interleave freely. */
module PageTableRuns {
  import opened Types
  import opened PageTable

  datatype Pc =
    | Idle
    | Put(page: Addr, k: nat)      // before the compare-exchange against an empty slot
    | Reuse(page: Addr, k: nat)    // before the compare-exchange against a tombstone
    | Seek(page: Addr, k: nat)     // before the load of an unregistration
    | Bury(page: Addr, k: nat)     // before the store of the tombstone
    | Ask(page: Addr, k: nat)      // before the load of a lookup
    | Told(page: Addr, owned: bool) // a lookup has answered

  datatype State = State(tab: seq<Addr>, pcs: map<Tid, Pc>)

  datatype Step =
    | Register(t: Tid, page: Addr)
    | Unregister(t: Tid, page: Addr)
    | Lookup(t: Tid, page: Addr)
    | Advance(t: Tid)

  function PcOf(s: State, t: Tid): Pc {
    if t in s.pcs then s.pcs[t] else Idle
  }

  predicate Busy(pc: Pc) {
    pc.Put? || pc.Reuse? || pc.Seek? || pc.Bury?
  }

  predicate Resting(pc: Pc) {
    pc.Idle? || pc.Told?
  }

  function Goto(s: State, t: Tid, pc: Pc): State {
    s.(pcs := s.pcs[t := pc])
  }

  function Write(s: State, t: Tid, page: Addr, k: nat, v: Addr): State
    requires |s.tab| == SLOTS && k < PROBES
  {
    State(s.tab[Probe(page, k) := v], s.pcs[t := Idle])
  }

  /** The next atomic access of thread `t`. */
  function Go(s: State, t: Tid): State
    requires |s.tab| == SLOTS
  {
    match PcOf(s, t)
    case Idle => s
    case Told(_, _) => Goto(s, t, Idle)
    case Put(page, k) =>
      if k >= PROBES then Goto(s, t, Idle)
      else
        var v := s.tab[Probe(page, k)];
        if v == 0 then Write(s, t, page, k, page)
        else if v == page then Goto(s, t, Idle)
        else if v == TOMBSTONE then Goto(s, t, Reuse(page, k))
        else Goto(s, t, Put(page, k + 1))
    case Reuse(page, k) =>
      if k >= PROBES then Goto(s, t, Idle)
      else if s.tab[Probe(page, k)] == TOMBSTONE then Write(s, t, page, k, page)
      else Goto(s, t, Put(page, k + 1))
    case Seek(page, k) =>
      if k >= PROBES then Goto(s, t, Idle)
      else
        var v := s.tab[Probe(page, k)];
        if v == page then Goto(s, t, Bury(page, k))
        else if v == 0 then Goto(s, t, Idle)
        else Goto(s, t, Seek(page, k + 1))
    case Bury(page, k) => if k >= PROBES then Goto(s, t, Idle) else Write(s, t, page, k, TOMBSTONE)
    case Ask(page, k) =>
      if k >= PROBES then Goto(s, t, Told(page, false))
      else
        var v := s.tab[Probe(page, k)];
        if v == page then Goto(s, t, Told(page, true))
        else if v == 0 then Goto(s, t, Told(page, false))
        else Goto(s, t, Ask(page, k + 1))
  }

  ghost predicate Claimed(s: State, page: Addr) {
    exists t :: t in s.pcs && Busy(s.pcs[t]) && s.pcs[t].page == page
  }

  /** Callers register a page only when it is not registered and nobody is working on
      it: regions come from `mmap` and leave the table before `munmap`. */
  ghost predicate Enabled(s: State, step: Step) {
    match step
    case Register(t, page) => Resting(PcOf(s, t)) && IsKey(page) && page !in Stored(s.tab) && !Claimed(s, page)
    case Unregister(t, page) => Resting(PcOf(s, t)) && IsKey(page) && !Claimed(s, page)
    case Lookup(t, page) => Resting(PcOf(s, t)) && IsKey(page)
    case Advance(_) => true
  }

  function Apply(s: State, step: Step): State
    requires |s.tab| == SLOTS
  {
    match step
    case Register(t, page) => Goto(s, t, Put(page, 0))
    case Unregister(t, page) => Goto(s, t, Seek(page, 0))
    case Lookup(t, page) => Goto(s, t, Ask(page, 0))
    case Advance(t) => Go(s, t)
  }

  /** None of the first `k` slots of the path holds the page. */
  predicate PassedBy(tab: seq<Addr>, page: Addr, k: nat)
    requires |tab| == SLOTS && k <= PROBES
  {
    forall j :: 0 <= j < k ==> tab[Probe(page, j)] != page
  }

  /** What a thread in the middle of an operation may rely on. */
  ghost predicate PcOk(tab: seq<Addr>, pc: Pc)
    requires |tab| == SLOTS
  {
    match pc
    case Put(page, k) => IsKey(page) && k <= PROBES && page !in Stored(tab) && NoGap(tab, page, k)
    case Reuse(page, k) => IsKey(page) && k < PROBES && page !in Stored(tab) && NoGap(tab, page, k + 1)
    case Seek(page, k) => IsKey(page) && k <= PROBES && PassedBy(tab, page, k)
    case Bury(page, k) => IsKey(page) && k < PROBES && tab[Probe(page, k)] == page
    case Ask(page, k) => IsKey(page) && k <= PROBES
    case Idle => true
    case Told(page, _) => IsKey(page)
  }

  ghost predicate PcsOk(tab: seq<Addr>, pcs: map<Tid, Pc>)
    requires |tab| == SLOTS
  {
    forall t :: t in pcs ==> PcOk(tab, pcs[t])
  }

  ghost predicate Exclusive(pcs: map<Tid, Pc>) {
    forall t, u :: t in pcs && u in pcs && t != u && Busy(pcs[t]) && Busy(pcs[u]) ==> pcs[t].page != pcs[u].page
  }

  ghost predicate Inv(s: State) {
    |s.tab| == SLOTS && Ok(s.tab) && PcsOk(s.tab, s.pcs) && Exclusive(s.pcs)
  }

  // ---- Every step keeps the invariant -----------------------------------------------------------------

  lemma GotoKeeps(s: State, t: Tid, pc: Pc)
    requires Inv(s) && PcOk(s.tab, pc)
    requires Busy(pc) ==> forall u :: u in s.pcs && u != t && Busy(s.pcs[u]) ==> s.pcs[u].page != pc.page
    ensures Inv(Goto(s, t, pc))
  {
  }

  /** Writing `v` where a thread stands disturbs no other thread: nobody relies on the
      slot being empty, and the page written belongs to the writer. */
  lemma WriteFrame(tab: seq<Addr>, i: nat, page: Addr, v: Addr, pc: Pc)
    requires |tab| == SLOTS && i < SLOTS && IsKey(page) && (v == page || v == TOMBSTONE) && PcOk(tab, pc)
    requires Busy(pc) ==> pc.page != page
    requires IsKey(tab[i]) ==> tab[i] == page
    requires Stored(tab[i := v]) <= Stored(tab) + {page}
    ensures PcOk(tab[i := v], pc)
  {
    hide Stored;
  }

  lemma WriteKeeps(s: State, t: Tid, page: Addr, k: nat, v: Addr)
    requires Inv(s) && k < PROBES && t in s.pcs && Busy(s.pcs[t]) && s.pcs[t].page == page
    requires var i := Probe(page, k);
             && Ok(s.tab[i := v]) && (v == page || v == TOMBSTONE)
             && (IsKey(s.tab[i]) ==> s.tab[i] == page)
             && Stored(s.tab[i := v]) <= Stored(s.tab) + {page}
    ensures Inv(Write(s, t, page, k, v))
  {
    hide Ok, Stored;
    var i := Probe(page, k);
    assert PcOk(s.tab, s.pcs[t]);
    forall u | u in s.pcs && u != t ensures PcOk(s.tab[i := v], s.pcs[u]) {
      assert PcOk(s.tab, s.pcs[u]);
      assert Busy(s.pcs[u]) ==> s.pcs[u].page != page;
      WriteFrame(s.tab, i, page, v, s.pcs[u]);
    }
  }

  lemma PutStep(s: State, t: Tid)
    requires Inv(s) && PcOf(s, t).Put?
    ensures Inv(Go(s, t))
  {
    hide Ok, Stored;
    var pc := s.pcs[t];
    var page, k := pc.page, pc.k;
    assert PcOk(s.tab, pc);
    if k >= PROBES {
      GotoKeeps(s, t, Idle);
    } else if s.tab[Probe(page, k)] == 0 {
      PutKeeps(s.tab, page, k);
      WriteKeeps(s, t, page, k, page);
    } else if s.tab[Probe(page, k)] == page {
      GotoKeeps(s, t, Idle);
    } else if s.tab[Probe(page, k)] == TOMBSTONE {
      GotoKeeps(s, t, Reuse(page, k));
    } else {
      GotoKeeps(s, t, Put(page, k + 1));
    }
  }

  lemma ReuseStep(s: State, t: Tid)
    requires Inv(s) && PcOf(s, t).Reuse?
    ensures Inv(Go(s, t))
  {
    hide Ok, Stored;
    var pc := s.pcs[t];
    assert PcOk(s.tab, pc);
    if s.tab[Probe(pc.page, pc.k)] == TOMBSTONE {
      PutKeeps(s.tab, pc.page, pc.k);
      WriteKeeps(s, t, pc.page, pc.k, pc.page);
    } else {
      GotoKeeps(s, t, Put(pc.page, pc.k + 1));
    }
  }

  lemma SeekStep(s: State, t: Tid)
    requires Inv(s) && (PcOf(s, t).Seek? || PcOf(s, t).Bury?)
    ensures Inv(Go(s, t))
  {
    hide Ok, Stored;
    var pc := s.pcs[t];
    var page, k := pc.page, pc.k;
    assert PcOk(s.tab, pc);
    if pc.Bury? {
      ClearKeeps(s.tab, Probe(page, k));
      WriteKeeps(s, t, page, k, TOMBSTONE);
    } else if k >= PROBES {
      GotoKeeps(s, t, Idle);
    } else if s.tab[Probe(page, k)] == page {
      GotoKeeps(s, t, Bury(page, k));
    } else if s.tab[Probe(page, k)] == 0 {
      GotoKeeps(s, t, Idle);
    } else {
      GotoKeeps(s, t, Seek(page, k + 1));
    }
  }

  lemma AskStep(s: State, t: Tid)
    requires Inv(s) && !Busy(PcOf(s, t))
    ensures Inv(Go(s, t)) && Go(s, t).tab == s.tab
  {
  }

  lemma StepKeeps(s: State, step: Step)
    requires Inv(s) && Enabled(s, step)
    ensures Inv(Apply(s, step))
  {
    hide Ok, Stored, PcsOk, Go;
    match step
    case Register(t, page) => GotoKeeps(s, t, Put(page, 0));
    case Unregister(t, page) => GotoKeeps(s, t, Seek(page, 0));
    case Lookup(t, page) => GotoKeeps(s, t, Ask(page, 0));
    case Advance(t) =>
      match PcOf(s, t)
      case Put(_, _) => PutStep(s, t);
      case Reuse(_, _) => ReuseStep(s, t);
      case Seek(_, _) => SeekStep(s, t);
      case Bury(_, _) => SeekStep(s, t);
      case _ => AskStep(s, t);
  }

  // ---- Runs ---------------------------------------------------------------------------------------------

  ghost predicate Runs(s: State, steps: seq<Step>)
    requires |s.tab| == SLOTS
    decreases |steps|
  {
    steps == [] || (Enabled(s, steps[0]) && |Apply(s, steps[0]).tab| == SLOTS && Runs(Apply(s, steps[0]), steps[1..]))
  }

  ghost function After(s: State, steps: seq<Step>): State
    requires |s.tab| == SLOTS && Runs(s, steps)
    decreases |steps|
  {
    if steps == [] then s else After(Apply(s, steps[0]), steps[1..])
  }

  /** Over every interleaving: no key lies beyond a gap of its probe path, and no key is
      stored twice. */
  lemma {:induction false} RunKeeps(s: State, steps: seq<Step>)
    requires Inv(s) && Runs(s, steps)
    ensures Inv(After(s, steps))
    decreases |steps|
  {
    hide Ok, PcsOk, Exclusive, Apply, Enabled;
    if steps != [] {
      StepKeeps(s, steps[0]);
      RunKeeps(Apply(s, steps[0]), steps[1..]);
    }
  }

  lemma InitOk(tab: seq<Addr>)
    requires |tab| == SLOTS && forall i :: 0 <= i < SLOTS ==> tab[i] == 0
    ensures Inv(State(tab, map[]))
  {
  }

  // ---- What a step changes --------------------------------------------------------------------------------

  /** A step changes the membership of no page but the one its thread works on. */
  lemma StepTouchesOwnPage(s: State, step: Step, q: Addr)
    requires Inv(s) && (step.Advance? && Busy(PcOf(s, step.t)) ==> PcOf(s, step.t).page != q)
    ensures |Apply(s, step).tab| == SLOTS && (q in Stored(Apply(s, step).tab) <==> q in Stored(s.tab))
  {
    hide Ok, Stored;
    if step.Advance? && Busy(PcOf(s, step.t)) {
      WriteTouchesOwnPage(s, step.t);
    }
  }

  /** What a working thread's step does to the set: it adds or removes its page, or nothing. */
  lemma WriteTouchesOwnPage(s: State, t: Tid)
    requires Inv(s) && Busy(PcOf(s, t))
    ensures |Go(s, t).tab| == SLOTS
    ensures var page, tab, tab' := PcOf(s, t).page, s.tab, Go(s, t).tab;
            Stored(tab') == Stored(tab) || Stored(tab') == Stored(tab) + {page} || Stored(tab') == Stored(tab) - {page}
  {
    hide Ok, Stored;
    var pc := s.pcs[t];
    assert PcOk(s.tab, pc);
    if pc.Bury? {
      ClearKeeps(s.tab, Probe(pc.page, pc.k));
    } else if !pc.Seek? && pc.k < PROBES && Vacant(s.tab[Probe(pc.page, pc.k)]) {
      PutKeeps(s.tab, pc.page, pc.k);
    }
  }

  /** Nobody works on the page in any state of the run. */
  ghost predicate LeftAlone(s: State, steps: seq<Step>, page: Addr)
    requires |s.tab| == SLOTS && Runs(s, steps)
    decreases |steps|
  {
    !Claimed(s, page) && (steps != [] ==> LeftAlone(Apply(s, steps[0]), steps[1..], page))
  }

  /** Over every run: as long as nobody works on a page, its membership stays as it is, whatever
      is registered and unregistered around it. */
  lemma {:induction false} MembershipIsConstant(s: State, steps: seq<Step>, page: Addr)
    requires Inv(s) && Runs(s, steps) && LeftAlone(s, steps, page)
    ensures page in Stored(After(s, steps).tab) <==> page in Stored(s.tab)
    decreases |steps|
  {
    hide Ok, PcsOk, Exclusive, Apply, Enabled, Stored;
    if steps != [] {
      StepKeeps(s, steps[0]);
      NotClaimed(s, steps[0], page);
      StepTouchesOwnPage(s, steps[0], page);
      MembershipIsConstant(Apply(s, steps[0]), steps[1..], page);
    }
  }

  lemma NotClaimed(s: State, step: Step, page: Addr)
    requires !Claimed(s, page)
    ensures step.Advance? && Busy(PcOf(s, step.t)) ==> PcOf(s, step.t).page != page
  {
  }

  // ---- Completed operations --------------------------------------------------------------------------------

  predicate Unregistering(pc: Pc, page: Addr) {
    (pc.Seek? || pc.Bury?) && pc.page == page
  }

  predicate Registering(pc: Pc, page: Addr) {
    (pc.Put? || pc.Reuse?) && pc.page == page
  }

  /** The step that ends an unregistration leaves the page out of the table. */
  lemma UnregisterEnds(s: State, t: Tid, page: Addr)
    requires Inv(s) && Unregistering(PcOf(s, t), page) && PcOf(Go(s, t), t).Idle?
    ensures |Go(s, t).tab| == SLOTS && page !in Stored(Go(s, t).tab)
  {
    hide Ok, Stored;
    var pc := s.pcs[t];
    assert PcOk(s.tab, pc);
    if pc.Bury? {
      ClearKeeps(s.tab, Probe(page, pc.k));
    } else {
      StoredOnPath(s.tab, page);
      NotOnPath(s.tab, page, pc.k);
    }
  }

  lemma NotOnPath(tab: seq<Addr>, page: Addr, k: nat)
    requires |tab| == SLOTS && IsKey(page) && k <= PROBES && PassedBy(tab, page, k)
    requires k < PROBES ==> tab[Probe(page, k)] == 0
    requires forall j :: 0 <= j < PROBES && tab[Probe(page, j)] == page ==> NoGap(tab, page, j)
    ensures forall j :: 0 <= j < PROBES ==> tab[Probe(page, j)] != page
  {
    hide Probe;
  }

  /** Thread `t` is unregistering the page in every state of the run. */
  ghost predicate StaysUnregistering(s: State, steps: seq<Step>, t: Tid, page: Addr)
    requires |s.tab| == SLOTS && Runs(s, steps)
    decreases |steps|
  {
    Unregistering(PcOf(s, t), page) && (steps != [] ==> StaysUnregistering(Apply(s, steps[0]), steps[1..], t, page))
  }

  ghost predicate StaysRegistering(s: State, steps: seq<Step>, t: Tid, page: Addr)
    requires |s.tab| == SLOTS && Runs(s, steps)
    decreases |steps|
  {
    Registering(PcOf(s, t), page) && (steps != [] ==> StaysRegistering(Apply(s, steps[0]), steps[1..], t, page))
  }

  lemma {:induction false} StillUnregistering(s: State, steps: seq<Step>, t: Tid, page: Addr)
    requires |s.tab| == SLOTS && Runs(s, steps) && StaysUnregistering(s, steps, t, page)
    ensures Unregistering(PcOf(After(s, steps), t), page)
    decreases |steps|
  {
    hide Apply, Enabled;
    if steps != [] {
      StillUnregistering(Apply(s, steps[0]), steps[1..], t, page);
    }
  }

  /** Over every run: an unregistration that starts, works through any interleaving and ends
      leaves the page out of the table, and it stays out while nobody works on it. */
  lemma UnregistrationCompletes(s: State, t: Tid, page: Addr, steps: seq<Step>, later: seq<Step>)
    requires Inv(s) && Enabled(s, Unregister(t, page))
    requires var s1 := Apply(s, Unregister(t, page));
             Runs(s1, steps) && StaysUnregistering(s1, steps, t, page) && |After(s1, steps).tab| == SLOTS
    requires var s2 := Go(After(Apply(s, Unregister(t, page)), steps), t);
             PcOf(s2, t).Idle? && |s2.tab| == SLOTS && Runs(s2, later) && LeftAlone(s2, later, page)
    ensures var s2 := Go(After(Apply(s, Unregister(t, page)), steps), t);
            page !in Stored(s2.tab) && page !in Stored(After(s2, later).tab)
  {
    hide Ok, PcsOk, Exclusive, Apply, Enabled, Stored, Go;
    var s1 := Apply(s, Unregister(t, page));
    StepKeeps(s, Unregister(t, page));
    RunKeeps(s1, steps);
    StillUnregistering(s1, steps, t, page);
    var last := After(s1, steps);
    UnregisterEnds(last, t, page);
    AdvanceKeeps(last, t);
    MembershipIsConstant(Go(last, t), later, page);
  }

  lemma AdvanceKeeps(s: State, t: Tid)
    requires Inv(s)
    ensures Inv(Go(s, t))
  {
    hide Ok, PcsOk, Exclusive, Stored, Go;
    StepKeeps(s, Advance(t));
  }

  /** At some moment of the run thread `t`, working on slot `j` of the page's path, sees a
      foreign key in it. */
  ghost predicate SawTaken(s: State, steps: seq<Step>, t: Tid, page: Addr, j: nat)
    requires |s.tab| == SLOTS && Runs(s, steps) && j < PROBES
    decreases |steps|
  {
    steps != [] &&
    (|| (steps[0] == Advance(t) && Registering(PcOf(s, t), page) && PcOf(s, t).k == j && Foreign(s.tab, page, j))
     || SawTaken(Apply(s, steps[0]), steps[1..], t, page, j))
  }

  predicate Foreign(tab: seq<Addr>, page: Addr, j: nat)
    requires |tab| == SLOTS && j < PROBES
  {
    IsKey(tab[Probe(page, j)]) && tab[Probe(page, j)] != page
  }

  /** A registration moves on from a slot only after seeing a foreign key in it. */
  lemma RegisterStep(s: State, t: Tid, page: Addr)
    requires Inv(s) && Registering(PcOf(s, t), page)
    ensures var pc, s' := PcOf(s, t), Go(s, t); var pc' := PcOf(s', t);
            && |s'.tab| == SLOTS && pc.k <= PROBES
            && (Registering(pc', page) || pc'.Idle?)
            && (Registering(pc', page) ==>
                  pc'.k == pc.k || (pc'.k == pc.k + 1 && pc.k < PROBES && Foreign(s.tab, page, pc.k)))
            && (pc'.Idle? ==> pc.k == PROBES || page in Stored(s'.tab))
  {
    hide Stored;
    var pc := s.pcs[t];
    assert PcOk(s.tab, pc);
    StoredOnPath(s.tab, page);
    if pc.k < PROBES && Vacant(s.tab[Probe(page, pc.k)]) {
      PutKeeps(s.tab, page, pc.k);
    }
  }

  lemma {:induction false} SawAllTaken(s: State, steps: seq<Step>, t: Tid, page: Addr)
    requires Inv(s) && Runs(s, steps) && StaysRegistering(s, steps, t, page)
    ensures var pc, pc' := PcOf(s, t), PcOf(After(s, steps), t);
            && Registering(pc', page) && pc.k <= pc'.k <= PROBES
            && forall j :: pc.k <= j < pc'.k ==> SawTaken(s, steps, t, page, j)
    decreases |steps|
  {
    hide Ok, PcsOk, Exclusive, Enabled, Stored, Go, Foreign;
    RegisterStep(s, t, page);
    if steps != [] {
      var s' := Apply(s, steps[0]);
      StepKeeps(s, steps[0]);
      if steps[0].t == t {
        OnlyAdvancesBusy(s, steps[0]);
      } else {
        OtherKeepsPc(s, steps[0], t);
      }
      SawAllTaken(s', steps[1..], t, page);
    }
  }

  lemma OnlyAdvancesBusy(s: State, step: Step)
    requires Enabled(s, step) && Busy(PcOf(s, step.t))
    ensures step == Advance(step.t)
  {
  }

  /** Over every run: a registration that starts, works through any interleaving and ends
      leaves the page stored, unless it saw each of the sixteen slots of the page's path taken
      by another page; and a stored page stays stored while nobody works on it. */
  lemma RegistrationCompletes(s: State, t: Tid, page: Addr, steps: seq<Step>, later: seq<Step>)
    requires Inv(s) && Enabled(s, Register(t, page))
    requires var s1 := Apply(s, Register(t, page));
             Runs(s1, steps) && StaysRegistering(s1, steps, t, page) && |After(s1, steps).tab| == SLOTS
    requires var s2 := Go(After(Apply(s, Register(t, page)), steps), t);
             PcOf(s2, t).Idle? && |s2.tab| == SLOTS && Runs(s2, later) && LeftAlone(s2, later, page)
    ensures var s1 := Apply(s, Register(t, page)); var s2 := Go(After(s1, steps), t);
            || (page in Stored(s2.tab) && page in Stored(After(s2, later).tab))
            || forall j :: 0 <= j < PROBES ==> SawTaken(s1, steps, t, page, j)
  {
    hide Ok, PcsOk, Exclusive, Apply, Enabled, Stored, Go;
    var s1 := Apply(s, Register(t, page));
    StepKeeps(s, Register(t, page));
    RunKeeps(s1, steps);
    SawAllTaken(s1, steps, t, page);
    var last := After(s1, steps);
    RegisterStep(last, t, page);
    AdvanceKeeps(last, t);
    MembershipIsConstant(Go(last, t), later, page);
    StartsAtZero(s, t, page);
  }

  lemma StartsAtZero(s: State, t: Tid, page: Addr)
    requires |s.tab| == SLOTS
    ensures PcOf(Apply(s, Register(t, page)), t) == Put(page, 0)
  {
  }

  // ---- What a lookup answers ----------------------------------------------------------------------------

  /** The page is a member (or is not one) in every state of the run. */
  ghost predicate Throughout(s: State, steps: seq<Step>, page: Addr, member: bool)
    requires |s.tab| == SLOTS && Runs(s, steps)
    decreases |steps|
  {
    && (page in Stored(s.tab)) == member
    && (steps != [] ==> Throughout(Apply(s, steps[0]), steps[1..], page, member))
  }

  /** The first answer thread `t` gets in the run, if any. */
  ghost function FirstAnswer(s: State, steps: seq<Step>, t: Tid): (r: seq<bool>)
    requires |s.tab| == SLOTS && Runs(s, steps)
    ensures |r| <= 1
    decreases |steps|
  {
    if PcOf(s, t).Told? then [PcOf(s, t).owned]
    else if steps == [] then []
    else FirstAnswer(Apply(s, steps[0]), steps[1..], t)
  }

  /** The asking thread has not passed the page. */
  ghost predicate Ahead(tab: seq<Addr>, page: Addr, k: nat)
    requires |tab| == SLOTS
  {
    page in Stored(tab) ==> exists m :: k <= m < PROBES && tab[Probe(page, m)] == page
  }

  /** A step of another thread. */
  lemma OtherKeepsPc(s: State, step: Step, t: Tid)
    requires |s.tab| == SLOTS && step.t != t
    ensures PcOf(Apply(s, step), t) == PcOf(s, t)
  {
  }

  /** While a page stays stored it stays in its slot. */
  lemma OtherKeepsAhead(s: State, step: Step, page: Addr, k: nat)
    requires Inv(s) && Enabled(s, step) && IsKey(page) && k <= PROBES && Ahead(s.tab, page, k)
    requires |Apply(s, step).tab| == SLOTS
    requires page in Stored(s.tab) <==> page in Stored(Apply(s, step).tab)
    ensures Ahead(Apply(s, step).tab, page, k)
  {
  }

  lemma OwnStep(s: State, t: Tid, page: Addr, k: nat)
    requires Inv(s) && PcOf(s, t) == Ask(page, k) && Ahead(s.tab, page, k)
    ensures var s' := Go(s, t);
            && s'.tab == s.tab
            && (PcOf(s', t) == Told(page, page in Stored(s.tab))
                || (k < PROBES && PcOf(s', t) == Ask(page, k + 1) && Ahead(s.tab, page, k + 1)))
  {
    assert PcOk(s.tab, s.pcs[t]);
    StoredOnPath(s.tab, page);
    if page in Stored(s.tab) {
      var m :| k <= m < PROBES && s.tab[Probe(page, m)] == page;
      assert NoGap(s.tab, page, m);
      assert k < m ==> s.tab[Probe(page, k)] != 0;
    }
  }

  lemma {:induction false} AnswerFrom(s: State, steps: seq<Step>, t: Tid, page: Addr, k: nat, member: bool)
    requires Inv(s) && Runs(s, steps) && PcOf(s, t) == Ask(page, k)
    requires IsKey(page) && k <= PROBES && Ahead(s.tab, page, k) && Throughout(s, steps, page, member)
    ensures FirstAnswer(s, steps, t) == [] || FirstAnswer(s, steps, t) == [member]
    decreases |steps|
  {
    hide Ok, PcsOk, Exclusive, Ahead, Enabled, Go, Stored;
    if steps != [] {
      var s' := Apply(s, steps[0]);
      StepKeeps(s, steps[0]);
      if steps[0].t == t {
        assert steps[0] == Advance(t) by { OnlyAdvances(s, steps[0]); }
        OwnStep(s, t, page, k);
        if PcOf(s', t) == Ask(page, k + 1) {
          AnswerFrom(s', steps[1..], t, page, k + 1, member);
        }
      } else {
        OtherKeepsPc(s, steps[0], t);
        OtherKeepsAhead(s, steps[0], page, k);
        AnswerFrom(s', steps[1..], t, page, k, member);
      }
    }
  }

  lemma OnlyAdvances(s: State, step: Step)
    requires Enabled(s, step) && PcOf(s, step.t).Ask?
    ensures step == Advance(step.t)
  {
  }

  /** A lookup that overlaps any other operations answers exactly: "owned" when the page was
      stored all along, "not owned" when it was not stored at any moment. */
  lemma LookupIsExact(s: State, steps: seq<Step>, t: Tid, page: Addr, member: bool)
    requires Inv(s) && Enabled(s, Lookup(t, page)) && Runs(s, [Lookup(t, page)] + steps)
    requires Throughout(s, [Lookup(t, page)] + steps, page, member)
    ensures var s' := Apply(s, Lookup(t, page));
            Runs(s', steps) && (FirstAnswer(s', steps, t) == [] || FirstAnswer(s', steps, t) == [member])
  {
    var all := [Lookup(t, page)] + steps;
    assert all[0] == Lookup(t, page) && all[1..] == steps;
    StoredOnPath(s.tab, page);
    StepKeeps(s, all[0]);
    AnswerFrom(Apply(s, all[0]), steps, t, page, 0, member);
  }
}
