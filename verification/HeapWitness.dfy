/** The results about live objects are not empty: a run from the empty heap to a live object
    that is found by its pointer. */
module HeapWitness {
  import opened Types
  import opened Options
  import opened Policy
  import opened Geometry
  import opened Places
  import opened HeapState
  import opened HeapSteps
  import opened HeapSafety

  const BASE: Addr := 1048576
  const BYTES: nat := 200704

  function AskedFor(): Request {
    MakeRequest(200000, 16, Balanced, 1, false)
  }

  function Empty(cfg: Config): State {
    Init(cfg, Balanced)
  }

  function Mapping(cfg: Config): State {
    SetPc(Empty(cfg), 1, MapNew(AskedFor(), 0))
  }

  function Mapped(cfg: Config): State {
    AddDirect(Mapping(cfg), 1, AskedFor(), 0, BYTES, BASE, {BASE})
  }

  lemma Starts(cfg: Config)
    ensures Apply(Empty(cfg), Malloc(1, 200000, 16)) == Mapping(cfg)
  {
    hide Route, MakeRequest;
    RouteIsDecidedBySize(Balanced, 200000, 16, 1, false);
  }

  lemma Asked()
    ensures var r := AskedFor();
            r.size == 200000 && r.alignment == 16 && !r.redzone && r.mode == Balanced && r.thread == 1
    ensures DirectBytes(200000, 16, false) == Some(BYTES) && DirectHeader(BASE, 16) == BASE
  {
  }

  lemma Maps(cfg: Config)
    ensures var s := Mapping(cfg);
            && Enabled(s, Advance(1, Oracle.Maps(BASE, {BASE})))
            && Apply(s, Advance(1, Oracle.Maps(BASE, {BASE}))) == Mapped(cfg)
  {
    hide DirectBytes, MakeRequest, AddDirect;
    Asked();
  }

  lemma MappedIs(cfg: Config)
    ensures var s := Mapped(cfg);
            && s.places.place == map[BASE := Hand(1)] && s.objs == map[BASE := DirectObject(AskedFor(), BYTES, BASE)]
            && s.stored == map[BASE := BASE] && s.pcs == map[1 := Fresh(AskedFor(), 0, BASE)]
  {
    hide DirectBytes, MakeRequest, DirectHeader, DirectObject;
    Asked();
    assert DirectHeader(BASE, AskedFor().alignment) == BASE;
  }

  lemma Registers(cfg: Config)
    ensures var s := Mapped(cfg); var s' := Apply(s, Advance(1, MapFails));
            && Enabled(s, Advance(1, MapFails))
            && BASE in s'.places.place && s'.places.place[BASE] == Registry
            && s'.objs == s.objs && s'.stored == s.stored
  {
    hide Mapped, AskedFor, DirectObject, Wanted, GoFresh;
    MappedIs(cfg);
    Lists(Mapped(cfg), AskedFor());
  }

  lemma Lists(s: State, req: Request)
    requires s.places.place == map[BASE := Hand(1)] && BASE in s.objs && s.pcs == map[1 := Fresh(req, 0, BASE)]
    ensures var s' := GoFresh(s, 1, s.pcs[1]);
            && BASE in s'.places.place && s'.places.place[BASE] == Registry && s'.objs == s.objs
            && s'.stored == s.stored
  {
    assert s.objs[BASE := s.objs[BASE]] == s.objs;
  }

  lemma Found(s: State)
    requires s.objs == map[BASE := DirectObject(AskedFor(), BYTES, BASE)] && s.stored == map[BASE := BASE]
    ensures HeaderFromUser(s, BASE) == Some(BASE)
  {
    hide MakeRequest;
    Asked();
    assert PageKey(BASE + HEADER) == BASE;
  }

  /** Some reachable state has a live object. */
  lemma AnObjectCanLive(cfg: Config)
    requires ValidConfig(cfg)
    ensures exists s :: Reachable(s) && BASE in s.places.place && s.places.place[BASE] == Registry
                        && HeaderFromUser(s, BASE) == Some(BASE)
  {
    hide Apply, Init, HeaderFromUser;
    Starts(cfg);
    Maps(cfg);
    Registers(cfg);
    MappedIs(cfg);
    Found(Apply(Mapped(cfg), Advance(1, MapFails)));
    var steps := [Malloc(1, 200000, 16), Advance(1, Oracle.Maps(BASE, {BASE})), Advance(1, MapFails)];
    var s := Apply(Mapped(cfg), Advance(1, MapFails));
    assert Runs(s, [], s);
    assert steps[2..][1..] == [];
    assert Runs(Mapped(cfg), steps[2..], s);
    assert steps[1..][1..] == steps[2..];
    assert Runs(Mapping(cfg), steps[1..], s);
    assert Runs(Empty(cfg), steps, s) by { StartEnabled(cfg); }
  }

  lemma StartEnabled(cfg: Config)
    ensures Enabled(Empty(cfg), Malloc(1, 200000, 16))
  {
  }
}
