/** The control loop: rule selection and switching of src/adaptive_selector.cpp over the mode
    states of src/adaptive_runtime.cpp, as serial steps. */
module Control {
  import Arith
  import opened ModelTables
  import opened ModelSelector
  import opened Events

  datatype Kind = Rule | Model | Fixed | Manual

  /** The bounds are the clamps of `init_once`. */
  datatype Settings = Settings(kind: Kind, window: nat, cooldown: nat)

  predicate ValidSettings(cfg: Settings) {
    64 <= cfg.window <= 1048576 && cfg.cooldown <= 1024
  }

  datatype Features = Features(vector: Vector, remoteFrees: nat, sameFrees: nat, requested: nat, mapped: nat,
                               allocs: nat)

  datatype ModeState = Inactive | Active | Retired

  // ---- Rule selection ---------------------------------------------------------------------------------

  /** `adaptive_select_mode`; `forced` is the debug environment switch. */
  function RuleChoice(f: Features, forced: bool): (m: nat)
    ensures m < MODES
  {
    var v := f.vector;
    if forced || v[7] > 0.01 then 7
    else if v[1] > 0.20 && f.remoteFrees + f.sameFrees >= 64 then 5
    else if v[0] > 0.50 && f.requested > 1048576 then 6
    else if v[2] > 8.0 && f.mapped > 4194304 then 3
    else if v[3] > 0.35 && f.allocs > 256 then 2
    else if v[4] > 2.2 && v[5] > 0.20 then 4
    else if v[6] > 0.70 && v[1] < 0.05 && v[2] < 6.0 && f.allocs > 512 then 1
    else 0
  }

  /** `selector_reason_for_candidate`. */
  function RuleReason(m: nat, f: Features, forced: bool): string {
    if forced || f.vector[7] > 0.01 then "safety"
    else if m == 5 then "remote_free_ratio"
    else if m == 6 then "large_bytes_ratio"
    else if m == 3 then "mapped_live_ratio"
    else if m == 2 then "slow_path_ratio"
    else if m == 4 then "fragmentation"
    else if m == 1 then "cache_reuse"
    else if m == 7 then "safety"
    else "balanced_default"
  }

  // ---- The rules, condition by condition ----------------------------------------------------------------

  predicate Unsafe(f: Features, forced: bool) {
    forced || f.vector[7] > 0.01
  }

  predicate ManyRemoteFrees(f: Features) {
    f.vector[1] > 0.20 && f.remoteFrees + f.sameFrees >= 64
  }

  predicate MostlyLargeBytes(f: Features) {
    f.vector[0] > 0.50 && f.requested > 1048576
  }

  predicate FarOverMapped(f: Features) {
    f.vector[2] > 8.0 && f.mapped > 4194304
  }

  predicate SlowPathHeavy(f: Features) {
    f.vector[3] > 0.35 && f.allocs > 256
  }

  predicate Fragmenting(f: Features) {
    f.vector[4] > 2.2 && f.vector[5] > 0.20
  }

  predicate CacheFriendly(f: Features) {
    f.vector[6] > 0.70 && f.vector[1] < 0.05 && f.vector[2] < 6.0 && f.allocs > 512
  }

  /** Each mode is the answer of the rules exactly when its condition holds and none of
      higher rank does; the balanced mode when none holds. */
  lemma RuleByCondition(f: Features, forced: bool)
    ensures RuleChoice(f, forced) == 7 <==> Unsafe(f, forced)
    ensures RuleChoice(f, forced) == 5 <==> ManyRemoteFrees(f) && !Unsafe(f, forced)
    ensures RuleChoice(f, forced) == 6 <==> MostlyLargeBytes(f) && !ManyRemoteFrees(f) && !Unsafe(f, forced)
    ensures RuleChoice(f, forced) == 3 <==>
            FarOverMapped(f) && !MostlyLargeBytes(f) && !ManyRemoteFrees(f) && !Unsafe(f, forced)
    ensures RuleChoice(f, forced) == 2 <==>
            && SlowPathHeavy(f) && !FarOverMapped(f) && !MostlyLargeBytes(f) && !ManyRemoteFrees(f)
            && !Unsafe(f, forced)
    ensures RuleChoice(f, forced) == 4 <==>
            && Fragmenting(f) && !SlowPathHeavy(f) && !FarOverMapped(f) && !MostlyLargeBytes(f)
            && !ManyRemoteFrees(f) && !Unsafe(f, forced)
    ensures RuleChoice(f, forced) == 1 <==>
            && CacheFriendly(f) && !Fragmenting(f) && !SlowPathHeavy(f) && !FarOverMapped(f)
            && !MostlyLargeBytes(f) && !Unsafe(f, forced)
    ensures RuleChoice(f, forced) == 0 <==>
            && !CacheFriendly(f) && !Fragmenting(f) && !SlowPathHeavy(f) && !FarOverMapped(f)
            && !MostlyLargeBytes(f) && !ManyRemoteFrees(f) && !Unsafe(f, forced)
  {
  }

  /** The reason given with the answer of the rules names a condition that holds, and the
      default exactly when none does. */
  lemma ReasonHolds(f: Features, forced: bool)
    ensures var reason := RuleReason(RuleChoice(f, forced), f, forced);
            && (reason == "safety" <==> Unsafe(f, forced))
            && (reason == "remote_free_ratio" ==> ManyRemoteFrees(f))
            && (reason == "large_bytes_ratio" ==> MostlyLargeBytes(f))
            && (reason == "mapped_live_ratio" ==> FarOverMapped(f))
            && (reason == "slow_path_ratio" ==> SlowPathHeavy(f))
            && (reason == "fragmentation" ==> Fragmenting(f))
            && (reason == "cache_reuse" ==> CacheFriendly(f))
            && (reason == "balanced_default" <==> RuleChoice(f, forced) == 0)
            && reason in {"safety", "remote_free_ratio", "large_bytes_ratio", "mapped_live_ratio", "slow_path_ratio",
                          "fragmentation", "cache_reuse", "balanced_default"}
  {
  }

  /** `selector_backend_name`. */
  function BackendName(kind: Kind): string {
    match kind
    case Model => "model"
    case Fixed => "fixed"
    case Manual => "manual"
    case Rule => "rule"
  }

  // ---- One observation ----------------------------------------------------------------------------------

  datatype State = State(active: nat, previous: nat, states: seq<ModeState>, counter: nat, until: nat, switches: nat,
                         log: seq<Event<Features>>)

  predicate Shaped(s: State) {
    s.active < MODES && |s.states| == MODES
  }

  function Init(mode: nat): State
    requires mode < MODES
  {
    State(mode, mode, seq(MODES, i => if i == mode then Active else Inactive), 0, 0, 0, [])
  }

  /** `adaptive_activate_mode`; identifiers of no mode are ignored. */
  function Activate(s: State, mode: nat): (r: State)
    requires Shaped(s)
    ensures Shaped(r)
  {
    if mode >= MODES || mode == s.active then s
    else s.(previous := s.active, active := mode, states := s.states[s.active := Retired][mode := Active],
            switches := s.switches + 1)
  }

  /** The mode the configured selector proposes. */
  function Candidate(cfg: Settings, active: nat, f: Features, forced: bool): (m: nat)
    ensures m < MODES
  {
    if cfg.kind.Rule? then RuleChoice(f, forced) else Choice(f.vector, active)
  }

  /** The hysteresis test. */
  predicate ExpectsGain(cfg: Settings, active: nat, f: Features, next: nat) {
    var v := f.vector;
    if cfg.kind.Rule?
    then next == HARDENED || v[1] > 0.25 || v[0] > 0.60 || v[3] > 0.45 || v[5] > 0.30 || v[6] > 0.80
    else Confidence(v, active) > 0.015
  }

  /** The observation ends a window. */
  predicate Looks(cfg: Settings, s: State)
    requires cfg.window > 0
  {
    (cfg.kind.Rule? || cfg.kind.Model?) && (s.counter + 1) % cfg.window == 0
  }

  /** The observation switches the mode. */
  predicate Switches(cfg: Settings, s: State, f: Features, forced: bool)
    requires cfg.window > 0
  {
    var next := Candidate(cfg, s.active, f, forced);
    Looks(cfg, s) && s.counter + 1 >= s.until && next != s.active && ExpectsGain(cfg, s.active, f, next)
  }

  function Report(cfg: Settings, s: State, f: Features, forced: bool): Entry<Features>
    requires cfg.window > 0
  {
    var next := Candidate(cfg, s.active, f, forced);
    var reason :=
      if s.counter + 1 < s.until then "cooldown"
      else if next != s.active && !ExpectsGain(cfg, s.active, f, next) then "hysteresis"
      else if cfg.kind.Rule? then RuleReason(next, f, forced)
      else "model_cost";
    Entry(s.previous, s.active, next, Switches(cfg, s, f, forced), reason, BackendName(cfg.kind),
          next, Choice(f.vector, s.active), Confidence(f.vector, s.active), f)
  }

  function Logged(s: State, e: Entry<Features>): State {
    s.(log := s.log + [Event(|s.log| + 1, e)])
  }

  /** `adaptive_selector_maybe_switch`. */
  function Observe(cfg: Settings, s: State, f: Features, forced: bool): (r: State)
    requires cfg.window > 0 && Shaped(s)
    ensures Shaped(r)
  {
    if cfg.kind.Fixed? || cfg.kind.Manual? then s
    else if !Looks(cfg, s) then s.(counter := s.counter + 1)
    else if !Switches(cfg, s, f, forced) then Logged(s.(counter := s.counter + 1), Report(cfg, s, f, forced))
    else
      var n := s.counter + 1;
      Logged(Activate(s, Candidate(cfg, s.active, f, forced)).(counter := n, until := n + cfg.cooldown * cfg.window),
             Report(cfg, s, f, forced))
  }

  // ---- Runs ---------------------------------------------------------------------------------------------

  datatype Input = Look(f: Features, forced: bool) | SetMode(mode: nat)

  function Step(cfg: Settings, s: State, x: Input): (r: State)
    requires cfg.window > 0 && Shaped(s)
    ensures Shaped(r)
  {
    match x
    case Look(f, forced) => Observe(cfg, s, f, forced)
    case SetMode(mode) => Activate(s, mode)
  }

  function Exec(cfg: Settings, s: State, xs: seq<Input>): (r: State)
    requires cfg.window > 0 && Shaped(s)
    ensures Shaped(r)
    decreases |xs|
  {
    if xs == [] then s else Exec(cfg, Step(cfg, s, xs[0]), xs[1..])
  }

  /** Modes active at some moment of the run. */
  function EverActive(cfg: Settings, s: State, xs: seq<Input>): set<nat>
    requires cfg.window > 0 && Shaped(s)
    decreases |xs|
  {
    {s.active} + if xs == [] then {} else EverActive(cfg, Step(cfg, s, xs[0]), xs[1..])
  }

  /** A mode is active if it is the active one, retired if it was active before, and
      inactive otherwise. */
  ghost predicate StatesSay(s: State, ever: set<nat>) {
    && Shaped(s) && s.active in ever && (forall m :: m in ever ==> m < MODES)
    && forall m :: 0 <= m < MODES ==>
         s.states[m] == if m == s.active then Active else if m in ever then Retired else Inactive
  }

  lemma ActivateSays(s: State, mode: nat, ever: set<nat>)
    requires StatesSay(s, ever)
    ensures StatesSay(Activate(s, mode), ever + {Activate(s, mode).active})
  {
  }

  lemma StepSays(cfg: Settings, s: State, x: Input, ever: set<nat>)
    requires cfg.window > 0 && StatesSay(s, ever)
    ensures StatesSay(Step(cfg, s, x), ever + {Step(cfg, s, x).active})
  {
    hide Candidate, Report, Switches, Looks, Activate;
    assert ever + {s.active} == ever;
    if x.Look? {
      ActivateSays(s, Candidate(cfg, s.active, x.f, x.forced), ever);
    } else {
      ActivateSays(s, x.mode, ever);
    }
  }

  lemma {:induction false} RunSays(cfg: Settings, s: State, xs: seq<Input>, ever: set<nat>)
    requires cfg.window > 0 && StatesSay(s, ever)
    ensures StatesSay(Exec(cfg, s, xs), ever + EverActive(cfg, s, xs))
    decreases |xs|
  {
    hide Step, StatesSay;
    InEver(s, ever);
    if xs == [] {
      assert ever + EverActive(cfg, s, xs) == ever;
    } else {
      var s' := Step(cfg, s, xs[0]);
      StepSays(cfg, s, xs[0], ever);
      Exec1(cfg, s, xs);
      RunSays(cfg, s', xs[1..], ever + {s'.active});
      StartsActive(cfg, s', xs[1..]);
      assert ever + {s'.active} + EverActive(cfg, s', xs[1..]) == ever + EverActive(cfg, s, xs);
    }
  }

  lemma InEver(s: State, ever: set<nat>)
    requires StatesSay(s, ever)
    ensures Shaped(s) && s.active in ever
  {
  }

  lemma Exec1(cfg: Settings, s: State, xs: seq<Input>)
    requires cfg.window > 0 && Shaped(s) && xs != []
    ensures Exec(cfg, s, xs) == Exec(cfg, Step(cfg, s, xs[0]), xs[1..])
  {
  }

  lemma StartsActive(cfg: Settings, s: State, xs: seq<Input>)
    requires cfg.window > 0 && Shaped(s)
    ensures s.active in EverActive(cfg, s, xs)
  {
  }

  /** Over every run exactly the active mode is in state active, and the retired modes are
      those that were active earlier. */
  lemma ModesOverRuns(cfg: Settings, mode: nat, xs: seq<Input>)
    requires cfg.window > 0 && mode < MODES
    ensures StatesSay(Exec(cfg, Init(mode), xs), EverActive(cfg, Init(mode), xs))
  {
    hide Exec;
    RunSays(cfg, Init(mode), xs, {mode});
    StartsActive(cfg, Init(mode), xs);
    assert {mode} + EverActive(cfg, Init(mode), xs) == EverActive(cfg, Init(mode), xs);
  }

  function RetiredAmong(states: seq<ModeState>, n: nat): set<nat>
    requires n <= |states|
  {
    set m | 0 <= m < n && states[m] == Retired
  }

  /** The retired count is the number of modes ever active, less one. */
  lemma RetiredCount(s: State, ever: set<nat>)
    requires StatesSay(s, ever)
    ensures |RetiredAmong(s.states, MODES)| == |ever| - 1
  {
    assert RetiredAmong(s.states, MODES) == ever - {s.active};
  }

  // ---- How often it switches ----------------------------------------------------------------------------

  /** The observations of the run that switched the mode. */
  function SwitchTimes(cfg: Settings, s: State, xs: seq<Input>): seq<nat>
    requires cfg.window > 0 && Shaped(s)
    decreases |xs|
  {
    if xs == [] then []
    else
      (if xs[0].Look? && Switches(cfg, s, xs[0].f, xs[0].forced) then [s.counter + 1] else [])
      + SwitchTimes(cfg, Step(cfg, s, xs[0]), xs[1..])
  }

  function Gap(cfg: Settings): nat {
    (if cfg.cooldown > 1 then cfg.cooldown else 1) * cfg.window
  }

  /** All later switches end windows, after the present cooldown. */
  ghost predicate Spaced(cfg: Settings, ts: seq<nat>, counter: nat, until: nat, last: nat)
    requires cfg.window > 0
  {
    && (forall i :: 0 <= i < |ts| ==> counter < ts[i] <= last && until <= ts[i] && ts[i] % cfg.window == 0)
    && (forall i, j :: 0 <= i < j < |ts| ==> ts[i] + (j - i) * Gap(cfg) <= ts[j])
  }

  lemma NextMultiple(n: nat, m: nat, w: nat)
    requires w > 0 && n % w == 0 && m % w == 0 && n < m
    ensures n + w <= m
  {
    assert n == n / w * w && m == m / w * w;
    var a, b := n / w, m / w;
    if b <= a {
      Arith.MulLe(b, a, w);
      assert false;
    }
    Arith.MulLe(a + 1, b, w);
    assert (a + 1) * w == a * w + w;
  }

  /** A switch at `n` followed by spaced ones. */
  lemma SpacedCons(cfg: Settings, n: nat, ts: seq<nat>, last: nat)
    requires cfg.window > 0 && n > 0 && n % cfg.window == 0 && n <= last
    requires Spaced(cfg, ts, n, n + cfg.cooldown * cfg.window, last)
    ensures forall j :: 0 <= j < |ts| ==> n + (j + 1) * Gap(cfg) <= ts[j]
  {
    hide Gap;
    forall j | 0 <= j < |ts| ensures n + (j + 1) * Gap(cfg) <= ts[j] {
      FirstGap(cfg, n, ts[0]);
      if j > 0 {
        assert ts[0] + (j - 0) * Gap(cfg) <= ts[j];
        assert (j + 1) * Gap(cfg) == j * Gap(cfg) + Gap(cfg);
      }
    }
  }

  lemma FirstGap(cfg: Settings, n: nat, t: nat)
    requires cfg.window > 0 && n % cfg.window == 0 && t % cfg.window == 0 && n < t && n + cfg.cooldown * cfg.window <= t
    ensures n + Gap(cfg) <= t
  {
    NextMultiple(n, t, cfg.window);
  }

  lemma SpacedJoin(cfg: Settings, n: nat, ts: seq<nat>, counter: nat, until: nat, last: nat)
    requires cfg.window > 0 && n % cfg.window == 0 && counter < n <= last && until <= n
    requires Spaced(cfg, ts, n, n + cfg.cooldown * cfg.window, last)
    ensures Spaced(cfg, [n] + ts, counter, until, last)
  {
    hide Gap;
    SpacedCons(cfg, n, ts, last);
    var us := [n] + ts;
    forall i | 0 <= i < |us| ensures counter < us[i] <= last && until <= us[i] && us[i] % cfg.window == 0 {
      if i > 0 {
        assert us[i] == ts[i - 1];
      }
    }
    forall i, j | 0 <= i < j < |us| ensures us[i] + (j - i) * Gap(cfg) <= us[j] {
      if i == 0 {
        assert us[j] == ts[j - 1];
        assert n + ((j - 1) + 1) * Gap(cfg) <= ts[j - 1];
      } else {
        assert ts[i - 1] + ((j - 1) - (i - 1)) * Gap(cfg) <= ts[j - 1];
      }
    }
  }

  lemma SpacedWeaken(cfg: Settings, ts: seq<nat>, counter: nat, counter': nat, until: nat, last: nat)
    requires cfg.window > 0 && Spaced(cfg, ts, counter', until, last) && counter <= counter'
    ensures Spaced(cfg, ts, counter, until, last)
  {
  }

  lemma {:induction false} CounterGrows(cfg: Settings, s: State, xs: seq<Input>)
    requires cfg.window > 0 && Shaped(s)
    ensures s.counter <= Exec(cfg, s, xs).counter
    decreases |xs|
  {
    hide Report, Candidate, Switches, Looks;
    if xs != [] {
      CounterGrows(cfg, Step(cfg, s, xs[0]), xs[1..]);
    }
  }

  /** Over every run, whatever the features and manual switches, selector switches are at
      least max(1, cooldown) windows apart. */
  lemma {:induction false} SwitchesAreSpaced(cfg: Settings, s: State, xs: seq<Input>)
    requires cfg.window > 0 && Shaped(s)
    ensures Spaced(cfg, SwitchTimes(cfg, s, xs), s.counter, s.until, Exec(cfg, s, xs).counter)
    decreases |xs|
  {
    hide Spaced, Report, Candidate, ExpectsGain;
    if xs == [] {
      NothingSpaced(cfg, s.counter, s.until, s.counter);
    } else {
      var s' := Step(cfg, s, xs[0]);
      Exec1(cfg, s, xs);
      SwitchesAreSpaced(cfg, s', xs[1..]);
      var last := Exec(cfg, s, xs).counter;
      CounterGrows(cfg, s', xs[1..]);
      var ts := SwitchTimes(cfg, s', xs[1..]);
      if xs[0].Look? && Switches(cfg, s, xs[0].f, xs[0].forced) {
        SpacedJoin(cfg, s.counter + 1, ts, s.counter, s.until, last);
      } else {
        SpacedWeaken(cfg, ts, s.counter, s'.counter, s.until, last);
        assert [] + ts == ts;
      }
    }
  }

  lemma NothingSpaced(cfg: Settings, counter: nat, until: nat, last: nat)
    requires cfg.window > 0
    ensures Spaced(cfg, [], counter, until, last)
  {
  }

  /** So the number of switches after n observations is bounded. */
  lemma SwitchesAreFew(cfg: Settings, mode: nat, xs: seq<Input>)
    requires cfg.window > 0 && mode < MODES && SwitchTimes(cfg, Init(mode), xs) != []
    ensures var k := |SwitchTimes(cfg, Init(mode), xs)|;
            cfg.window + (k - 1) * Gap(cfg) <= Exec(cfg, Init(mode), xs).counter
  {
    hide Gap, SwitchTimes, Exec;
    SwitchesAreSpaced(cfg, Init(mode), xs);
    var ts := SwitchTimes(cfg, Init(mode), xs);
    var k := |ts|;
    NextMultiple(0, ts[0], cfg.window);
    if k > 1 {
      assert ts[0] + ((k - 1) - 0) * Gap(cfg) <= ts[k - 1];
    }
  }

  // ---- When it switches -----------------------------------------------------------------------------------

  /** Signals strong enough for a switch by the rules. */
  predicate StrongSignal(f: Features) {
    || f.vector[1] > 0.25 || f.vector[0] > 0.60 || f.vector[3] > 0.45 || f.vector[5] > 0.30
    || f.vector[6] > 0.80
  }

  /** What the configured selector would switch to, and whether it thinks the switch pays. */
  predicate Wants(cfg: Settings, active: nat, f: Features, forced: bool, next: nat) {
    if cfg.kind.Rule? then
      RuleChoice(f, forced) == next && next != active && (Unsafe(f, forced) || StrongSignal(f))
    else
      Choice(f.vector, active) == next && next != active && Confidence(f.vector, active) > 0.015
  }

  function Observations(xs: seq<Input>): nat {
    if xs == [] then 0 else (if xs[0].Look? then 1 else 0) + Observations(xs[1..])
  }

  /** Over every run the counter is the number of observations, and the cooldown ends
      `cooldown` windows after the latest switch by the selector. */
  lemma {:induction false} CooldownIsExact(cfg: Settings, s: State, xs: seq<Input>)
    requires cfg.window > 0 && Shaped(s)
    ensures var ts := SwitchTimes(cfg, s, xs);
            Exec(cfg, s, xs).until == if ts == [] then s.until else ts[|ts| - 1] + cfg.cooldown * cfg.window
    ensures Exec(cfg, s, xs).counter == s.counter + if cfg.kind.Rule? || cfg.kind.Model? then Observations(xs) else 0
    decreases |xs|
  {
    hide Report, Candidate, ExpectsGain;
    if xs != [] {
      var s' := Step(cfg, s, xs[0]);
      Exec1(cfg, s, xs);
      CooldownIsExact(cfg, s', xs[1..]);
      var ts, us := SwitchTimes(cfg, s, xs), SwitchTimes(cfg, s', xs[1..]);
      assert us != [] ==> ts[|ts| - 1] == us[|us| - 1];
      if !(xs[0].Look? && Switches(cfg, s, xs[0].f, xs[0].forced)) {
        assert ts == us;
      }
    }
  }

  /** After any run, the next observation switches exactly when it ends a window, the latest
      switch is `cooldown` windows back, and the selector wants another mode; it then switches
      to that mode. */
  lemma SwitchesExactlyWhen(cfg: Settings, mode: nat, xs: seq<Input>, f: Features, forced: bool)
    requires cfg.window > 0 && mode < MODES && (cfg.kind.Rule? || cfg.kind.Model?)
    ensures var s, ts, n := Exec(cfg, Init(mode), xs), SwitchTimes(cfg, Init(mode), xs), Observations(xs) + 1;
            var s' := Observe(cfg, s, f, forced);
            forall next: nat :: next != s.active ==>
              (s'.active == next <==>
               && n % cfg.window == 0
               && (ts == [] || n >= ts[|ts| - 1] + cfg.cooldown * cfg.window)
               && Wants(cfg, s.active, f, forced, next))
  {
    hide Report, Choice, Confidence, RuleChoice, Exec, SwitchTimes;
    CooldownIsExact(cfg, Init(mode), xs);
    RuleHardensExactly(f, forced);
  }

  /** How often the mode changed in the run, and the mode before the latest change. */
  function Changes(cfg: Settings, s: State, xs: seq<Input>): nat
    requires cfg.window > 0 && Shaped(s)
    decreases |xs|
  {
    if xs == [] then 0
    else
      var s' := Step(cfg, s, xs[0]);
      (if s'.active != s.active then 1 else 0) + Changes(cfg, s', xs[1..])
  }

  function Predecessor(cfg: Settings, s: State, xs: seq<Input>, before: nat): nat
    requires cfg.window > 0 && Shaped(s)
    decreases |xs|
  {
    if xs == [] then before
    else
      var s' := Step(cfg, s, xs[0]);
      Predecessor(cfg, s', xs[1..], if s'.active != s.active then s.active else before)
  }

  lemma StepCounts(cfg: Settings, s: State, x: Input)
    requires cfg.window > 0 && Shaped(s)
    ensures var s' := Step(cfg, s, x);
            && s'.switches == s.switches + (if s'.active != s.active then 1 else 0)
            && s'.previous == if s'.active != s.active then s.active else s.previous
  {
    hide Report, Candidate, ExpectsGain, Looks;
  }

  /** Over every run the switch count is the number of changes of mode, manual ones included,
      and the previous mode is the one before the latest change. */
  lemma {:induction false} SwitchesAreCounted(cfg: Settings, s: State, xs: seq<Input>)
    requires cfg.window > 0 && Shaped(s)
    ensures Exec(cfg, s, xs).switches == s.switches + Changes(cfg, s, xs)
    ensures Exec(cfg, s, xs).previous == Predecessor(cfg, s, xs, s.previous)
    decreases |xs|
  {
    hide Step;
    if xs != [] {
      StepCounts(cfg, s, xs[0]);
      Exec1(cfg, s, xs);
      SwitchesAreCounted(cfg, Step(cfg, s, xs[0]), xs[1..]);
    }
  }

  /** An observation that ends a window logs one entry, and no other does: it tells the modes
      before the observation, the features, whether the mode changed and, if so, to which. */
  lemma LookIsLogged(cfg: Settings, s: State, f: Features, forced: bool)
    requires cfg.window > 0 && Shaped(s)
    ensures var s' := Observe(cfg, s, f, forced);
            if Looks(cfg, s) then
              && |s'.log| == |s.log| + 1 && s'.log[..|s.log|] == s.log
              && s'.log[|s.log|].Event? && s'.log[|s.log|].sequence == |s.log| + 1
              && var e := s'.log[|s.log|].entry;
                 && e.previous == s.previous && e.current == s.active && e.features == f
                 && (e.switched <==> s'.active != s.active)
                 && (e.switched ==> s'.active == e.candidate && e.reason !in {"cooldown", "hysteresis"})
                 && (!e.switched && e.candidate != s.active ==>
                       e.reason == if s.counter + 1 < s.until then "cooldown" else "hysteresis")
                 && (cfg.kind.Model? ==> e.backend == "model" && e.candidate == Choice(f.vector, s.active))
                 && (cfg.kind.Rule? ==> e.backend == "rule" && e.candidate == RuleChoice(f, forced))
                 && e.modelCandidate == Choice(f.vector, s.active) && e.confidence == Confidence(f.vector, s.active)
            else s'.log == s.log && s'.active == s.active
  {
    hide Choice, Confidence, RuleChoice, ExpectsGain;
  }

  // ---- Stability ------------------------------------------------------------------------------------------

  /** Every look of the run sees the same features, and nobody sets the mode by hand. */
  predicate Constant(xs: seq<Input>, f: Features, forced: bool) {
    forall i :: 0 <= i < |xs| ==> xs[i] == Look(f, forced)
  }

  /** The proposal for the proposed mode is that mode again. */
  lemma CandidateIsSettled(cfg: Settings, active: nat, f: Features, forced: bool)
    requires active < MODES
    ensures Candidate(cfg, Candidate(cfg, active, f, forced), f, forced) == Candidate(cfg, active, f, forced)
  {
    hide Choice;
    ChoiceIsSettled(f.vector, active);
  }

  lemma {:induction false} NoSwitchWhenSettled(cfg: Settings, s: State, xs: seq<Input>, f: Features, forced: bool)
    requires cfg.window > 0 && Shaped(s) && Constant(xs, f, forced) && Candidate(cfg, s.active, f, forced) == s.active
    ensures SwitchTimes(cfg, s, xs) == []
    decreases |xs|
  {
    hide Report, Candidate, ExpectsGain;
    if xs != [] {
      NoSwitchWhenSettled(cfg, Step(cfg, s, xs[0]), xs[1..], f, forced);
    }
  }

  /** Under unchanged features no window after a switch switches again. */
  lemma {:induction false} AtMostOneSwitch(cfg: Settings, s: State, xs: seq<Input>, f: Features, forced: bool)
    requires cfg.window > 0 && Shaped(s) && Constant(xs, f, forced)
    ensures |SwitchTimes(cfg, s, xs)| <= 1
    decreases |xs|
  {
    hide Report, Candidate, ExpectsGain;
    if xs != [] {
      var s' := Step(cfg, s, xs[0]);
      if Switches(cfg, s, f, forced) {
        CandidateIsSettled(cfg, s.active, f, forced);
        NoSwitchWhenSettled(cfg, s', xs[1..], f, forced);
      } else {
        AtMostOneSwitch(cfg, s', xs[1..], f, forced);
      }
    }
  }

  /** A switch of the model selector pays for itself, and never enters the debug mode. */
  lemma ModelSwitchPays(cfg: Settings, s: State, f: Features, forced: bool)
    requires cfg.window > 0 && cfg.kind.Model? && Shaped(s) && Switches(cfg, s, f, forced)
    ensures var m := Observe(cfg, s, f, forced).active;
            && m != s.active && m != HARDENED
            && Raw(f.vector, s.active) > Raw(f.vector, m) + SWITCH_COST + 0.015
  {
    hide Choice, Confidence, Raw, Report;
    SwitchMargin(f.vector, s.active);
    NeverHardened(f.vector, s.active);
  }

  /** The rules pick the debug mode exactly for forced debugging or safety errors. */
  lemma RuleHardensExactly(f: Features, forced: bool)
    ensures RuleChoice(f, forced) == HARDENED <==> forced || f.vector[7] > 0.01
  {
  }

  // ---- The stored form --------------------------------------------------------------------------------------

  class Controller {
    const cfg: Settings
    var active: nat                    // g_active_mode
    var previous: nat                  // g_previous_mode
    const states: array<ModeState>     // g_mode_states
    var counter: nat                   // g_selector_counter
    var until: nat                     // g_cooldown_until
    var switches: nat                  // mode_switches
    const events: EventRing<Features>

    ghost predicate Valid()
      reads this, states, events, events.slots
    {
      && ValidSettings(cfg) && states.Length == MODES && active < MODES
      && events.Valid()
    }

    ghost function View(): State
      reads this, states, events
    {
      State(active, previous, states[..], counter, until, switches, events.log)
    }

    /** The tail of `init_once`. */
    constructor (cfg: Settings, mode: nat)
      requires ValidSettings(cfg) && mode < MODES
      ensures Valid() && View() == Init(mode) && fresh(states) && fresh(events) && fresh(events.slots)
    {
      this.cfg := cfg;
      active, previous := mode, mode;
      counter, until, switches := 0, 0, 0;
      states := new ModeState[MODES](_ => Inactive);
      events := new EventRing<Features>();
      new;
      states[mode] := Active;
      assert states[..] == Init(mode).states;
    }

    /** `adaptive_activate_mode`. */
    method ActivateMode(mode: nat)
      requires Valid()
      modifies this, states
      ensures Valid() && View() == Activate(old(View()), mode)
    {
      if mode >= MODES || active == mode {
        return;
      }
      states[active] := Retired;
      previous := active;
      active := mode;
      states[mode] := Active;
      switches := switches + 1;
    }

    /** `adaptive_retired_mode_count`. */
    method CountRetired() returns (count: nat)
      requires Valid()
      ensures count == |RetiredAmong(View().states, MODES)|
    {
      count := 0;
      var i := 0;
      while i < MODES
        invariant 0 <= i <= MODES && count == |RetiredAmong(states[..], i)|
      {
        RetiredNext(states[..], i);
        if states[i] == Retired {
          count := count + 1;
        }
        i := i + 1;
      }
    }

    /** `adaptive_selector_maybe_switch`. */
    method MaybeSwitch(f: Features, forced: bool)
      requires Valid()
      modifies this, states, events, events.slots
      ensures Valid() && View() == Observe(cfg, old(View()), f, forced)
    {
      hide Choice, Confidence, RuleChoice, RuleReason, Mirrors;
      if cfg.kind.Fixed? || cfg.kind.Manual? {
        return;
      }
      ghost var before := View();
      counter := counter + 1;
      var n := counter;
      if n % cfg.window != 0 {
        return;
      }
      var modelCandidate, confidence, costs := SelectMode(f.vector, active);
      var next := modelCandidate;
      var reason := "model_cost";
      if cfg.kind.Rule? {
        next := RuleChoice(f, forced);
        reason := RuleReason(next, f, forced);
      }
      var was, current := previous, active;
      var backend := BackendName(cfg.kind);
      if n < until {
        events.Record(Entry(was, current, next, false, "cooldown", backend, next, modelCandidate, confidence, f));
        return;
      }
      if next == current {
        events.Record(Entry(was, current, next, false, reason, backend, next, modelCandidate, confidence, f));
        return;
      }
      var gain := ExpectsGain(cfg, current, f, next);
      if !gain {
        events.Record(Entry(was, current, next, false, "hysteresis", backend, next, modelCandidate, confidence, f));
        return;
      }
      ActivateMode(next);
      until := n + cfg.cooldown * cfg.window;
      events.Record(Entry(was, current, next, true, reason, backend, next, modelCandidate, confidence, f));
    }
  }

  lemma RetiredNext(states: seq<ModeState>, i: nat)
    requires i < |states|
    ensures |RetiredAmong(states, i + 1)| == |RetiredAmong(states, i)| + if states[i] == Retired then 1 else 0
  {
    if states[i] == Retired {
      assert RetiredAmong(states, i + 1) == RetiredAmong(states, i) + {i};
    } else {
      assert RetiredAmong(states, i + 1) == RetiredAmong(states, i);
    }
  }
}
