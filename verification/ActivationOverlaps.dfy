/** What overlapping does to activation: runs in which journal calls of one runtime overlap, and in which two calls of the
    verb do. */
module ActivationOverlaps {
  import opened DepositTypes
  import J = ActivationJournal
  import R = ActivationJournalRuns
  import E = PortableInboxRuns
  import opened ActivationRuns
  import L = ActivationLimits

  // ---- One call of the verb, with overlapping journal calls ----

  /** Runtime 0 with these journal calls in flight. */
  function InFlight(s: State, ops: seq<R.Op>): State
    requires s.runtimes != []
  {
    Set(s, 0, s.runtimes[0].(ops := ops))
  }

  function Op(r: J.Record, landed: bool): R.Op {
    R.Op(Some(r), false, landed)
  }

  /** Behind a slow write, another call is begun. */
  lemma Overtakes(c: Config, s: State, call: J.Call, slow: J.Record, r: J.Record)
    requires Exists(s, 0) && s.runtimes[0].hydrated && !call.Hydrate? && !call.Restart?
    requires J.Wanted(R.Remembered(View(s, 0)), call) == Some(r)
    ensures Calls(InFlight(s, [Op(slow, false)]), 0, call) == InFlight(s, [Op(slow, false), Op(r, false)])
  {
    hide J.Wanted;
    var t := InFlight(s, [Op(slow, false)]);
    assert R.Step(View(t, 0), R.Begin(call)).ops == [Op(slow, false), Op(r, false)];
  }

  /** And lands, and returns. */
  lemma OvertakesAndLands(c: Config, s: State, slow: J.Record, r: J.Record)
    requires Exists(s, 0) && s.runtimes[0].hydrated
    ensures Step(c, InFlight(s, [Op(slow, false), Op(r, false)]), Completes(0, R.Land(1)))
      == InFlight(s, [Op(slow, false), Op(r, true)]).(disk := J.Serialized(r))
  {
    var t := InFlight(s, [Op(slow, false), Op(r, false)]);
    assert R.Step(View(t, 0), R.Land(1)).ops == [Op(slow, false), Op(r, true)];
    assert Viewed(t, 0, R.Step(View(t, 0), R.Land(1))) == InFlight(s, [Op(slow, false), Op(r, true)]).(disk := J.Serialized(r));
  }

  lemma OvertakesAndReturns(c: Config, s: State, slow: J.Record, r: J.Record)
    requires Exists(s, 0) && s.runtimes[0].hydrated
    ensures Step(c, InFlight(s, [Op(slow, false), Op(r, true)]).(disk := J.Serialized(r)), Completes(0, R.Return(1)))
      == if r.phase.Ready? then EnterCommit(c, InFlight(L.Written(s, 0, r), [Op(slow, false)]), 0)
         else InFlight(L.Written(s, 0, r), [Op(slow, false)])
  {
    hide J.Serialized;
    var t := InFlight(s, [Op(slow, false), Op(r, true)]).(disk := J.Serialized(r));
    assert R.Step(View(t, 0), R.Return(1)).ops == [Op(slow, false)];
    assert Viewed(t, 0, R.Step(View(t, 0), R.Return(1))) == InFlight(L.Written(s, 0, r), [Op(slow, false)]);
  }

  function Idling(m: Option<J.Record>): State {
    L.One(m, Polling, NoCommit, NoFanout)
  }

  /** Two syncs start bootstrapping at once, and the write of the second is slow. */
  lemma BootstrapsTwice(c: Config)
    requires c.certId != ""
    ensures var r := Begun(c);
      var acts := [Boots(0, 1), Boots(0, 1), L.LAND, L.RETURNED];
      && Run(c, Idling(None), acts) == InFlight(Idling(Some(r)), [Op(r, false)])
      && KnownAlong(c, Idling(None), acts)
  {
    var s, r := Idling(None), Begun(c);
    L.Writes(c, s, Boots(0, 1), 0, r);
    assert L.Writing(s, 0, r) == InFlight(s, [Op(r, false)]);
    Overtakes(c, s, J.EnsureBootstrapping(c.certId, 1), r, r);
    FirstOfTwo(c, r);
    hide Step;
    L.FourSteps(c, s, Boots(0, 1), Boots(0, 1), L.LAND, L.RETURNED);
  }

  function Begun(c: Config): J.Record {
    L.Begun(c.certId)
  }

  lemma FirstOfTwo(c: Config, r: J.Record)
    requires r.phase.Bootstrapping?
    ensures Step(c, Step(c, InFlight(Idling(None), [Op(r, false), Op(r, false)]), L.LAND), L.RETURNED)
      == InFlight(Idling(Some(r)), [Op(r, false)])
  {
    var t := InFlight(Idling(None), [Op(r, false), Op(r, false)]);
    var u := InFlight(Idling(None), [Op(r, true), Op(r, false)]).(disk := J.Serialized(r));
    assert R.Step(View(t, 0), R.Land(0)).ops == [Op(r, true), Op(r, false)];
    assert Viewed(t, 0, R.Step(View(t, 0), R.Land(0))) == u;
    assert R.Step(View(u, 0), R.Return(0)).ops == [Op(r, false)];
    assert Viewed(u, 0, R.Step(View(u, 0), R.Return(0))) == InFlight(Idling(Some(r)), [Op(r, false)]);
  }

  function Heard(c: Config): J.Record {
    L.Heard(c.certId)
  }

  /** The state of the run: the slow write of the first record is in flight throughout. */
  function Midway(c: Config, m: J.Record, commit: Commit, e: E.State): State {
    InFlight(L.One(Some(m), Polling, commit, NoFanout), [Op(Begun(c), false)]).(e := e)
  }

  function Lone(e: E.Establisher): E.State {
    E.FRESH.(team := [e])
  }

  lemma HearsBehind(c: Config)
    requires c.enabled
    ensures var s := Midway(c, Begun(c), NoCommit, Lone(E.Establisher(E.Idle, 0, None)));
      var acts := [Marker(0, "", 0), Completes(0, R.Land(1)), Completes(0, R.Return(1)), L.Fly(0)];
      && Run(c, s, acts) == Midway(c, Heard(c), Establishing, Lone(E.Establisher(E.ReadingPortable, 1, None)))
      && KnownAlong(c, s, acts)
  {
    var s, r, r' := Idling(Some(Begun(c))), Begun(c), Heard(c);
    Overtakes(c, s, J.MarkReady("", 0), r, r');
    OvertakesAndLands(c, s, r, r');
    OvertakesAndReturns(c, s, r, r');
    var t := EnterCommit(c, InFlight(L.Written(s, 0, r'), [Op(r, false)]), 0);
    assert t == Midway(c, r', Establishing, Lone(E.Establisher(E.Hydrating, 1, None)));
    L.FlightGoesOn(c, t, 0, L.OK);
    assert s.runtimes[0] == Runtime(Some(r), true, [], true, Polling, NoCommit, NoFanout);
    assert InFlight(s, [Op(r, false)]) == Midway(c, r, NoCommit, Lone(E.Establisher(E.Idle, 0, None)));
    assert Step(c, InFlight(s, [Op(r, false)]), Marker(0, "", 0)) == InFlight(s, [Op(r, false), Op(r', false)]);
    hide Step;
    L.FourSteps(c, InFlight(s, [Op(r, false)]), Marker(0, "", 0), Completes(0, R.Land(1)), Completes(0, R.Return(1)), L.Fly(0));
  }

  /** The inbox is recorded, and then claimed, leased and given. */
  function Claiming(id: string): E.State {
    L.Gone(E.Connecting(id), id).(team := [E.Establisher(E.Claiming(id), 1, None)])
  }

  function Given(id: string): E.State {
    E.State(E.Durable({id}, map[id := 0], Some(id), {id}), [E.Establisher(E.Idle, 0, Some(id))], {id}, {id}, {id})
  }

  lemma EstablishesBehind(c: Config, id: string)
    requires c.bootstrap != Some(id)
    ensures var s := Midway(c, Heard(c), Establishing, Lone(E.Establisher(E.ReadingPortable, 1, None)));
      var acts := [L.Mint(0, id), L.Fly(0), L.Fly(0), L.Fly(0)];
      && Run(c, s, acts) == Midway(c, Heard(c), Establishing, Claiming(id))
      && KnownAlong(c, s, acts)
  {
    var s := Midway(c, Heard(c), Establishing, Lone(E.Establisher(E.ReadingPortable, 1, None)));
    L.EstablisherRecords(c.bootstrap, id);
    L.FlightGoesOn(c, s, 0, L.OK.(key := id));
    L.FlightGoesOn(c, s.(e := L.Gone(E.Persisting(id), id)), 0, L.OK);
    L.FlightGoesOn(c, s.(e := L.Gone(E.Recording(id), id)), 0, L.OK);
    L.FlightGoesOn(c, s.(e := L.Gone(E.Connecting(id), id)), 0, L.OK);
    assert E.Step(c.bootstrap, L.Gone(E.Connecting(id), id), E.Go(0, L.OK)) == Claiming(id);
    hide Step, E.Step;
    L.FourSteps(c, s, L.Mint(0, id), L.Fly(0), L.Fly(0), L.Fly(0));
  }

  lemma EstablisherFinishes(bootstrap: Option<string>, id: string)
    ensures var e1 := E.Step(bootstrap, Claiming(id), E.Go(0, L.OK));
      var e2 := E.Step(bootstrap, e1, E.Go(0, L.OK));
      && |e1.team| == 1 && e1.team[0].flight == E.Leasing(id) && |e2.team| == 1 && e2.team[0].flight == E.Closing(id, true)
      && E.Step(bootstrap, e2, E.Go(0, L.OK)) == Given(id)
  {
  }

  lemma PublishesBehind(c: Config, id: string)
    ensures var s := Midway(c, Heard(c), Establishing, Claiming(id));
      var acts := [L.Fly(0), L.Fly(0), L.Fly(0), CommitStep(0, Done, 1)];
      && Run(c, s, acts) == Midway(c, Heard(c), Republishing, Given(id)).(published := {id})
      && KnownAlong(c, s, acts)
  {
    var s := Midway(c, Heard(c), Establishing, Claiming(id));
    var e1 := E.Step(c.bootstrap, Claiming(id), E.Go(0, L.OK));
    var e2 := E.Step(c.bootstrap, e1, E.Go(0, L.OK));
    EstablisherFinishes(c.bootstrap, id);
    L.FlightGoesOn(c, s, 0, L.OK);
    L.FlightGoesOn(c, s.(e := e1), 0, L.OK);
    FlightGives(c, s.(e := e2), id);
    assert Step(c, Midway(c, Heard(c), Publishing(id), Given(id)), CommitStep(0, Done, 1))
      == Midway(c, Heard(c), Republishing, Given(id)).(published := {id});
    hide Step, E.Step;
    L.FourSteps(c, s, L.Fly(0), L.Fly(0), L.Fly(0), CommitStep(0, Done, 1));
  }

  lemma FlightGives(c: Config, s: State, id: string)
    requires s == Midway(c, Heard(c), Establishing, s.e) && s.e.team != [] && !s.e.team[0].flight.Idle?
    requires E.Step(c.bootstrap, s.e, E.Go(0, L.OK)) == Given(id)
    ensures Step(c, s, L.Fly(0)) == Midway(c, Heard(c), Publishing(id), Given(id))
  {
    hide E.Step;
  }

  lemma BeginsRecording(c: Config, e: E.State, published: set<string>)
    requires e.team != []
    ensures var s := Midway(c, Heard(c), Republishing, e).(published := published);
      var t := L.One(Some(Heard(c)), Polling, NoCommit, NoFanout).(e := e, published := published);
      && Step(c, Step(c, s, CommitStep(0, Done, 1)), CommitStep(0, Done, 1))
           == InFlight(t, [Op(Begun(c), false), Op(Heard(c).(phase := J.Active), false)])
  {
    var s := Midway(c, Heard(c), Republishing, e).(published := published);
    var t := L.One(Some(Heard(c)), Polling, NoCommit, NoFanout).(e := e, published := published);
    Overtakes(c, t, J.MarkActive(1), Begun(c), Heard(c).(phase := J.Active));
    hide J.Serialized, R.Step;
    var s1 := Midway(c, Heard(c), Recording, e).(published := published);
    assert Step(c, s, CommitStep(0, Done, 1)) == s1;
    assert Step(c, s1, CommitStep(0, Done, 1)) == Calls(InFlight(t, [Op(Begun(c), false)]), 0, J.MarkActive(1));
  }

  /** ACTIVE lands and is remembered, and the slow write is still in flight. */
  lemma RecordsBehind(c: Config, e: E.State, published: set<string>)
    requires e.team != []
    ensures var s := Midway(c, Heard(c), Republishing, e).(published := published);
      var acts := [CommitStep(0, Done, 1), CommitStep(0, Done, 1), Completes(0, R.Land(1)), Completes(0, R.Return(1))];
      && Run(c, s, acts) == Midway(c, Heard(c).(phase := J.Active), NoCommit, e).(published := published)
      && KnownAlong(c, s, acts)
  {
    var s := Midway(c, Heard(c), Republishing, e).(published := published);
    var r, r' := Begun(c), Heard(c).(phase := J.Active);
    var t := L.One(Some(Heard(c)), Polling, NoCommit, NoFanout).(e := e, published := published);
    BeginsRecording(c, e, published);
    OvertakesAndLands(c, t, r, r');
    OvertakesAndReturns(c, t, r, r');
    assert InFlight(L.Written(t, 0, r'), [Op(r, false)]) == Midway(c, r', NoCommit, e).(published := published);
    hide Step, Midway, InFlight, J.Serialized;
    L.FourSteps(c, s, CommitStep(0, Done, 1), CommitStep(0, Done, 1), Completes(0, R.Land(1)), Completes(0, R.Return(1)));
  }

  /** The slow write lands over ACTIVE, and the verb returns on what memory says. */
  lemma ReturnsBehind(c: Config, id: string, published: set<string>)
    ensures var s := Midway(c, Heard(c).(phase := J.Active), NoCommit, Given(id)).(published := published);
      var acts := [L.LAND, VerbStep(0, Done), VerbStep(0, Done), VerbStep(0, Done)];
      && Run(c, s, acts).handed == [Return(id, false)]
      && KnownAlong(c, s, acts)
  {
    var s := Midway(c, Heard(c).(phase := J.Active), NoCommit, Given(id)).(published := published);
    J.RehydrationIsFaithful(Begun(c), J.Absent);
    hide E.Step;
    L.FourSteps(c, s, L.LAND, VerbStep(0, Done), VerbStep(0, Done), VerbStep(0, Done));
  }

  /** A single call of the verb, polling only over records, returns while the journal on disk says BOOTSTRAPPING: a slow
      first write lands after ACTIVE. */
  lemma OverlappingJournalReturnsEarly(c: Config, id: string) returns (acts: seq<Action>)
    requires c.enabled && c.certId != "" && c.bootstrap != Some(id)
    ensures KnownAlong(c, FRESH, acts) && Run(c, FRESH, acts).handed == [Return(id, false)]
  {
    var a2, a3, a4 := [Boots(0, 1), Boots(0, 1), L.LAND, L.RETURNED],
      [Marker(0, "", 0), Completes(0, R.Land(1)), Completes(0, R.Return(1)), L.Fly(0)],
      [L.Mint(0, id), L.Fly(0), L.Fly(0), L.Fly(0)];
    var a5, a6, a7 := [L.Fly(0), L.Fly(0), L.Fly(0), CommitStep(0, Done, 1)],
      [CommitStep(0, Done, 1), CommitStep(0, Done, 1), Completes(0, R.Land(1)), Completes(0, R.Return(1))],
      [L.LAND, VerbStep(0, Done), VerbStep(0, Done), VerbStep(0, Done)];
    L.Up(c);
    BootstrapsTwice(c);
    HearsBehind(c);
    EstablishesBehind(c, id);
    PublishesBehind(c, id);
    RecordsBehind(c, Given(id), {id});
    ReturnsBehind(c, id, {id});
    assert InFlight(Idling(Some(Begun(c))), [Op(Begun(c), false)])
      == Midway(c, Begun(c), NoCommit, Lone(E.Establisher(E.Idle, 0, None)));
    hide Run, KnownAlong, Midway, Given, Claiming;
    acts := L.UP + a2 + a3 + a4 + a5 + a6 + a7;
    L.RunConcat(c, FRESH, L.UP, a2);
    L.RunConcat(c, FRESH, L.UP + a2, a3);
    L.RunConcat(c, FRESH, L.UP + a2 + a3, a4);
    L.RunConcat(c, FRESH, L.UP + a2 + a3 + a4, a5);
    L.RunConcat(c, FRESH, L.UP + a2 + a3 + a4 + a5, a6);
    L.RunConcat(c, FRESH, L.UP + a2 + a3 + a4 + a5 + a6, a7);
  }

  // ---- Two calls of the verb ----

  /** The first call has timed out with its establishment in flight; the second goes on. */
  function Pair(c: Config, commit: Commit, second: Runtime, disk: J.Raw, e: E.State): State {
    FRESH.(disk := disk, e := e,
           runtimes := [Runtime(Some(Heard(c)), true, [], false, NotRunning, commit, NoFanout), second])
  }

  function Second(m: Option<J.Record>, verb: Verb, commit: Commit): Runtime {
    Runtime(m, true, [], true, verb, commit, NoFanout)
  }

  /** Two establishers, the first suspended with its own claim minted. */
  function Duo(id: string, second: E.Establisher, d: E.Durable, returned: set<string>, minted: set<string>,
               recorded: set<string>): E.State
  {
    E.State(d, [E.Establisher(E.Persisting(id), 1, None), second], returned, minted, recorded)
  }

  const NOTHING := E.Durable({}, map[], None, {})

  function Minted(a: string): E.State {
    Duo(a, E.Establisher(E.Idle, 0, None), NOTHING, {}, {a}, {})
  }

  function Entering(a: string): E.State {
    Duo(a, E.Establisher(E.Hydrating, 1, None), NOTHING, {}, {a}, {})
  }

  function Connects(a: string, b: string): E.State {
    Duo(a, E.Establisher(E.Connecting(b), 1, None), E.Durable({b}, map[], Some(b), {}), {}, {a, b}, {b})
  }

  function SecondGiven(a: string, b: string): E.State {
    Duo(a, E.Establisher(E.Idle, 0, Some(b)), E.Durable({b}, map[b := 0], Some(b), {b}), {b}, {a, b}, {b})
  }

  lemma SecondRecords(bootstrap: Option<string>, a: string, b: string)
    requires a != b && bootstrap != Some(b)
    ensures var e1 := E.Step(bootstrap, Entering(a), E.Go(1, L.OK));
      var e2 := E.Step(bootstrap, e1, E.Go(1, L.OK.(key := b)));
      var e3 := E.Step(bootstrap, e2, E.Go(1, L.OK));
      && |e1.team| == |e2.team| == |e3.team| == 2
      && !e1.team[1].flight.Idle? && !e2.team[1].flight.Idle? && !e3.team[1].flight.Idle?
      && E.Step(bootstrap, e3, E.Go(1, L.OK)) == Connects(a, b)
  {
    var e2 := E.Step(bootstrap, E.Step(bootstrap, Entering(a), E.Go(1, L.OK)), E.Go(1, L.OK.(key := b)));
    assert e2 == Duo(a, E.Establisher(E.Persisting(b), 1, None), NOTHING, {}, {a, b}, {});
    assert E.Step(bootstrap, e2, E.Go(1, L.OK))
      == Duo(a, E.Establisher(E.Recording(b), 1, None), E.Durable({b}, map[], None, {}), {}, {a, b}, {});
  }

  lemma SecondFinishes(bootstrap: Option<string>, a: string, b: string)
    ensures var e1 := E.Step(bootstrap, Connects(a, b), E.Go(1, L.OK));
      var e2 := E.Step(bootstrap, e1, E.Go(1, L.OK));
      var e3 := E.Step(bootstrap, e2, E.Go(1, L.OK));
      && |e1.team| == |e2.team| == |e3.team| == 2
      && !e1.team[1].flight.Idle? && !e2.team[1].flight.Idle? && !e3.team[1].flight.Idle?
      && E.Step(bootstrap, e3, E.Go(1, L.OK)) == SecondGiven(a, b)
  {
    var e3 := E.Step(bootstrap, E.Step(bootstrap, E.Step(bootstrap, Connects(a, b), E.Go(1, L.OK)), E.Go(1, L.OK)), E.Go(1, L.OK));
    assert e3 == Duo(a, E.Establisher(E.Closing(b, true), 1, None), E.Durable({b}, map[b := 0], Some(b), {b}), {}, {a, b}, {b});
  }

  /** The first goes on over what the second has recorded. */
  function FirstLeasing(a: string, b: string): E.State {
    E.State(E.Durable({a, b}, map[b := 0], Some(a), {a, b}),
            [E.Establisher(E.Leasing(a), 1, None), E.Establisher(E.Idle, 0, Some(b))], {b}, {a, b}, {a, b})
  }

  function FirstGiven(a: string, b: string): E.State {
    E.State(E.Durable({a, b}, map[a := 0, b := 0], Some(a), {a, b}),
            [E.Establisher(E.Idle, 0, Some(a)), E.Establisher(E.Idle, 0, Some(b))], {a, b}, {a, b}, {a, b})
  }

  lemma FirstOverwrites(bootstrap: Option<string>, a: string, b: string)
    requires a != b && bootstrap != Some(a)
    ensures var e1 := E.Step(bootstrap, SecondGiven(a, b), E.Go(0, L.OK));
      var e2 := E.Step(bootstrap, e1, E.Go(0, L.OK));
      var e3 := E.Step(bootstrap, e2, E.Go(0, L.OK));
      && |e1.team| == |e2.team| == |e3.team| == 2
      && !e1.team[0].flight.Idle? && !e2.team[0].flight.Idle? && !e3.team[0].flight.Idle?
      && E.Step(bootstrap, e3, E.Go(0, L.OK)) == FirstLeasing(a, b)
  {
    var e2 := E.Step(bootstrap, E.Step(bootstrap, SecondGiven(a, b), E.Go(0, L.OK)), E.Go(0, L.OK));
    assert e2 == E.State(E.Durable({a, b}, map[b := 0], Some(a), {b}),
      [E.Establisher(E.Connecting(a), 1, None), E.Establisher(E.Idle, 0, Some(b))], {b}, {a, b}, {a, b});
  }

  lemma FirstFinishes(bootstrap: Option<string>, a: string, b: string)
    requires a != b
    ensures var e1 := E.Step(bootstrap, FirstLeasing(a, b), E.Go(0, L.OK));
      && |e1.team| == 2 && !e1.team[0].flight.Idle?
      && E.Step(bootstrap, e1, E.Go(0, L.OK)) == FirstGiven(a, b)
  {
  }

  /** Four moves of a flight that goes on. */
  lemma Flies(c: Config, s: State, i: nat, k1: E.Answer, k2: E.Answer, k3: E.Answer, k4: E.Answer)
    requires Exists(s, i)
    requires var e1 := E.Step(c.bootstrap, s.e, E.Go(i, k1));
      var e2 := E.Step(c.bootstrap, e1, E.Go(i, k2));
      var e3 := E.Step(c.bootstrap, e2, E.Go(i, k3));
      && |e1.team| == |e2.team| == |e3.team| == |s.e.team|
      && !e1.team[i].flight.Idle? && !e2.team[i].flight.Idle? && !e3.team[i].flight.Idle?
    ensures var e3 := E.Step(c.bootstrap, E.Step(c.bootstrap, E.Step(c.bootstrap, s.e, E.Go(i, k1)), E.Go(i, k2)), E.Go(i, k3));
      var acts := [FlightStep(i, k1), FlightStep(i, k2), FlightStep(i, k3), FlightStep(i, k4)];
      && Run(c, s, acts) == Step(c, s.(e := e3), FlightStep(i, k4))
      && KnownAlong(c, s, acts)
  {
    var e1 := E.Step(c.bootstrap, s.e, E.Go(i, k1));
    var e2 := E.Step(c.bootstrap, e1, E.Go(i, k2));
    L.FlightGoesOn(c, s, i, k1);
    L.FlightGoesOn(c, s.(e := e1), i, k2);
    L.FlightGoesOn(c, s.(e := e2), i, k3);
    hide Step, E.Step;
    L.FourSteps(c, s, FlightStep(i, k1), FlightStep(i, k2), FlightStep(i, k3), FlightStep(i, k4));
  }

  lemma TimesOut(c: Config, a: string)
    requires c.bootstrap != Some(a)
    ensures var s := L.One(Some(Heard(c)), Polling, Establishing, NoFanout).(e := Lone(E.Establisher(E.ReadingPortable, 1, None)));
      var acts := [L.Mint(0, a), DeadlinePasses(0), VerbStep(0, Done), Invoke];
      && Run(c, s, acts) == Pair(c, Establishing, NEW, J.Serialized(Heard(c)), Minted(a))
      && KnownAlong(c, s, acts)
  {
    var s := L.One(Some(Heard(c)), Polling, Establishing, NoFanout).(e := Lone(E.Establisher(E.ReadingPortable, 1, None)));
    L.EstablisherRecords(c.bootstrap, a);
    L.FlightGoesOn(c, s, 0, L.OK.(key := a));
    hide R.Step, J.Normalize, J.Serialized, FlightNext;
    L.FourSteps(c, s, L.Mint(0, a), DeadlinePasses(0), VerbStep(0, Done), Invoke);
  }

  lemma SecondHydrates(c: Config, s: State)
    requires s == Pair(c, Establishing, Second(None, Polling, NoCommit).(hydrated := false), J.Serialized(Heard(c)), s.e)
    requires |s.e.team| == 2
    ensures Step(c, Step(c, s, Hydrates(1)), Completes(1, R.Return(0)))
      == Pair(c, Establishing, Second(Some(Heard(c)), Polling, NoCommit), s.disk, s.e)
  {
    J.RehydrationIsFaithful(Heard(c), J.Absent);
    hide J.Normalize, J.Serialized;
    var t := Step(c, s, Hydrates(1));
    assert R.Step(View(s, 1), R.Begin(J.Hydrate)).ops == [R.Op(Some(Heard(c)), true, true)];
    assert t == Set(s, 1, s.runtimes[1].(ops := [R.Op(Some(Heard(c)), true, true)]));
    assert R.Step(View(t, 1), R.Return(0)).ops == [];
    assert Viewed(t, 1, R.Step(View(t, 1), R.Return(0)))
      == Pair(c, Establishing, Second(Some(Heard(c)), Polling, NoCommit), s.disk, s.e);
  }

  lemma SecondEnters(c: Config, a: string)
    requires c.enabled
    ensures var s := Pair(c, Establishing, NEW, J.Serialized(Heard(c)), Minted(a));
      var acts := [VerbStep(1, Done), Hydrates(1), Completes(1, R.Return(0)), StartCommit(1)];
      && Run(c, s, acts) == Pair(c, Establishing, Second(Some(Heard(c)), Polling, Establishing), s.disk, Entering(a))
      && KnownAlong(c, s, acts)
  {
    var s := Pair(c, Establishing, NEW, J.Serialized(Heard(c)), Minted(a));
    var t := Pair(c, Establishing, Second(None, Polling, NoCommit).(hydrated := false), s.disk, Minted(a));
    J.RehydrationIsFaithful(Heard(c), J.Absent);
    assert Step(c, s, VerbStep(1, Done)) == t;
    SecondHydrates(c, t);
    var u := Pair(c, Establishing, Second(Some(Heard(c)), Polling, NoCommit), s.disk, Minted(a));
    assert Step(c, u, StartCommit(1)) == Pair(c, Establishing, Second(Some(Heard(c)), Polling, Establishing), s.disk, Entering(a));
    hide Step;
    L.FourSteps(c, s, VerbStep(1, Done), Hydrates(1), Completes(1, R.Return(0)), StartCommit(1));
  }

  lemma SecondEstablishes(c: Config, a: string, b: string)
    requires a != b && c.bootstrap != Some(b)
    ensures var s := Pair(c, Establishing, Second(Some(Heard(c)), Polling, Establishing), J.Serialized(Heard(c)), Entering(a));
      var acts := [L.Fly(1), L.Mint(1, b), L.Fly(1), L.Fly(1)];
      && Run(c, s, acts) == s.(e := Connects(a, b))
      && KnownAlong(c, s, acts)
  {
    var s := Pair(c, Establishing, Second(Some(Heard(c)), Polling, Establishing), J.Serialized(Heard(c)), Entering(a));
    SecondRecords(c.bootstrap, a, b);
    Flies(c, s, 1, L.OK, L.OK.(key := b), L.OK, L.OK);
    var e2 := E.Step(c.bootstrap, E.Step(c.bootstrap, s.e, E.Go(1, L.OK)), E.Go(1, L.OK.(key := b)));
    var e3 := E.Step(c.bootstrap, e2, E.Go(1, L.OK));
    L.FlightGoesOn(c, s.(e := e3), 1, L.OK);
  }

  function Active(c: Config): J.Record {
    Heard(c).(phase := J.Active)
  }

  lemma SecondIsGiven(c: Config, a: string, b: string)
    ensures var s := Pair(c, Establishing, Second(Some(Heard(c)), Polling, Establishing), J.Serialized(Heard(c)), Connects(a, b));
      var acts := [L.Fly(1), L.Fly(1), L.Fly(1), L.Fly(1)];
      && Run(c, s, acts) == Pair(c, Establishing, Second(Some(Heard(c)), Polling, Publishing(b)), s.disk, SecondGiven(a, b))
      && KnownAlong(c, s, acts)
  {
    var s := Pair(c, Establishing, Second(Some(Heard(c)), Polling, Establishing), J.Serialized(Heard(c)), Connects(a, b));
    SecondFinishes(c.bootstrap, a, b);
    Flies(c, s, 1, L.OK, L.OK, L.OK, L.OK);
    var e3 := E.Step(c.bootstrap, E.Step(c.bootstrap, E.Step(c.bootstrap, s.e, E.Go(1, L.OK)), E.Go(1, L.OK)), E.Go(1, L.OK));
    hide E.Step;
    assert Step(c, s.(e := e3), L.Fly(1))
      == Pair(c, Establishing, Second(Some(Heard(c)), Polling, Publishing(b)), s.disk, SecondGiven(a, b));
  }

  /** The second call publishes, and ACTIVE is on disk. */
  lemma SecondPublishes(c: Config, a: string, b: string)
    ensures var s := Pair(c, Establishing, Second(Some(Heard(c)), Polling, Publishing(b)), J.Serialized(Heard(c)), SecondGiven(a, b));
      var acts := [CommitStep(1, Done, 1), CommitStep(1, Done, 1), CommitStep(1, Done, 1), Completes(1, R.Land(0))];
      && Run(c, s, acts)
           == L.Landed(Published(c, Second(Some(Heard(c)), Polling, NoCommit), s.disk, SecondGiven(a, b), b), 1, Active(c))
      && KnownAlong(c, s, acts)
  {
    var s := Pair(c, Establishing, Second(Some(Heard(c)), Polling, Publishing(b)), J.Serialized(Heard(c)), SecondGiven(a, b));
    var t := Published(c, Second(Some(Heard(c)), Polling, NoCommit), s.disk, SecondGiven(a, b), b);
    var u := Published(c, Second(Some(Heard(c)), Polling, Recording), s.disk, SecondGiven(a, b), b);
    Records(c, s, b, u);
    assert Set(u, 1, u.runtimes[1].(commit := NoCommit)) == t;
    L.Writes(c, u, CommitStep(1, Done, 1), 1, Active(c));
    L.Lands(c, t, 1, Active(c));
    hide Step, Pair;
    L.FourSteps(c, s, CommitStep(1, Done, 1), CommitStep(1, Done, 1), CommitStep(1, Done, 1), Completes(1, R.Land(0)));
  }

  function Published(c: Config, second: Runtime, disk: J.Raw, e: E.State, id: string): State {
    Pair(c, Establishing, second, disk, e).(published := {id})
  }

  lemma Records(c: Config, s: State, b: string, u: State)
    requires s == Pair(c, Establishing, Second(Some(Heard(c)), Polling, Publishing(b)), s.disk, s.e) && |s.e.team| == 2
    requires u == Published(c, Second(Some(Heard(c)), Polling, Recording), s.disk, s.e, b)
    ensures Step(c, Step(c, s, CommitStep(1, Done, 1)), CommitStep(1, Done, 1)) == u
  {
    var t := Step(c, s, CommitStep(1, Done, 1));
    assert t == Published(c, Second(Some(Heard(c)), Polling, Republishing), s.disk, s.e, b);
  }

  function Stopped(c: Config, a: string, b: string): State {
    Published(c, Second(Some(Active(c)), NotRunning, NoCommit).(up := false), J.Serialized(Active(c)), SecondGiven(a, b), b).(
      handed := [Return(b, true)])
  }

  /** And the second call returns its inbox. */
  lemma SecondReturns(c: Config, a: string, b: string)
    ensures var t := Published(c, Second(Some(Heard(c)), Polling, NoCommit), J.Serialized(Heard(c)), SecondGiven(a, b), b);
      var s := L.Landed(t, 1, Active(c));
      var acts := [Completes(1, R.Return(0)), VerbStep(1, Done), VerbStep(1, Done), VerbStep(1, Done)];
      && Run(c, s, acts) == Stopped(c, a, b)
      && KnownAlong(c, s, acts)
  {
    var t := Published(c, Second(Some(Heard(c)), Polling, NoCommit), J.Serialized(Heard(c)), SecondGiven(a, b), b);
    L.Returns(c, t, 1, Active(c));
    J.RehydrationIsFaithful(Active(c), J.Absent);
    var u := Published(c, Second(Some(Active(c)), Polling, NoCommit), J.Serialized(Active(c)), SecondGiven(a, b), b);
    assert L.Written(t, 1, Active(c)) == u;
    assert DiskActive(u);
    hide J.Serialized, J.Normalize, DiskActive;
    VerbFinishes(c, u, b);
    hide Step, L.Landed;
    L.FourSteps(c, L.Landed(t, 1, Active(c)), Completes(1, R.Return(0)), VerbStep(1, Done), VerbStep(1, Done), VerbStep(1, Done));
  }

  lemma VerbFinishes(c: Config, s: State, b: string)
    requires s == Pair(c, Establishing, Second(Some(Active(c)), Polling, NoCommit), s.disk, s.e).(published := s.published)
    requires |s.e.team| == 2 && s.e.d.portable == Some(b) && DiskActive(s)
    ensures Step(c, Step(c, Step(c, s, VerbStep(1, Done)), VerbStep(1, Done)), VerbStep(1, Done))
      == Set(s, 1, s.runtimes[1].(up := false, verb := NotRunning)).(handed := [Return(b, true)])
    ensures Known(s, VerbStep(1, Done)) && Known(Step(c, s, VerbStep(1, Done)), VerbStep(1, Done))
    ensures Known(Step(c, Step(c, s, VerbStep(1, Done)), VerbStep(1, Done)), VerbStep(1, Done))
  {
    hide J.Normalize;
    assert Step(c, s, VerbStep(1, Done)) == Set(s, 1, s.runtimes[1].(verb := Stopping(true, false)));
  }

  lemma FirstGoesOn(c: Config, a: string, b: string)
    requires a != b && c.bootstrap != Some(a)
    ensures var acts := [L.Fly(0), L.Fly(0), L.Fly(0), L.Fly(0)];
      && Run(c, Stopped(c, a, b), acts) == Stopped(c, a, b).(e := FirstLeasing(a, b))
      && KnownAlong(c, Stopped(c, a, b), acts)
  {
    var s := Stopped(c, a, b);
    FirstOverwrites(c.bootstrap, a, b);
    Flies(c, s, 0, L.OK, L.OK, L.OK, L.OK);
    var e3 := E.Step(c.bootstrap, E.Step(c.bootstrap, E.Step(c.bootstrap, s.e, E.Go(0, L.OK)), E.Go(0, L.OK)), E.Go(0, L.OK));
    hide E.Step;
    L.FlightGoesOn(c, s.(e := e3), 0, L.OK);
  }

  lemma FirstPublishes(c: Config, a: string, b: string)
    requires a != b
    ensures var s := Stopped(c, a, b).(e := FirstLeasing(a, b));
      var acts := [L.Fly(0), L.Fly(0), CommitStep(0, Done, 1)];
      var t := Run(c, s, acts);
      && t.handed == s.handed && t.disk == s.disk && t.published == {a, b} && t.e == FirstGiven(a, b)
      && KnownAlong(c, s, acts)
  {
    var s := Stopped(c, a, b).(e := FirstLeasing(a, b));
    FirstFinishes(c.bootstrap, a, b);
    L.FlightGoesOn(c, s, 0, L.OK);
    var e1 := E.Step(c.bootstrap, s.e, E.Go(0, L.OK));
    var u := s.(e := FirstGiven(a, b), runtimes := [s.runtimes[0].(commit := Publishing(a)), s.runtimes[1]]);
    assert Step(c, s.(e := e1), L.Fly(0)) == u by { hide J.Serialized; }
    hide R.Step, J.Serialized, J.Normalize, FlightNext;
    L.ThreeSteps(c, s, L.Fly(0), L.Fly(0), CommitStep(0, Done, 1));
  }

  /** Two calls of the verb, with no journal calls overlapping and only records polled: the first times out with its claim
      minted; the second publishes and returns its inbox, over an ACTIVE journal; then the first, still in flight, makes
      its own inbox the portable primary and publishes it. */
  lemma TwoCallsPublishTwo(c: Config, a: string, b: string) returns (acts: seq<Action>)
    requires c.enabled && c.certId != "" && a != b && c.bootstrap != Some(a) && c.bootstrap != Some(b)
    ensures KnownAlong(c, FRESH, acts)
    ensures var s := Run(c, FRESH, acts);
      s.handed == [Return(b, true)] && s.published == {a, b} && s.e.d.leased == {a, b} && s.e.d.portable == Some(a)
  {
    var first := L.UP + [Boots(0, 1), L.LAND, L.RETURNED, VerbStep(0, Done)] + [Marker(0, "", 0), L.LAND, L.RETURNED, L.Fly(0)];
    FirstCommits(c);
    var a4, a5, a6 := [L.Mint(0, a), DeadlinePasses(0), VerbStep(0, Done), Invoke],
      [VerbStep(1, Done), Hydrates(1), Completes(1, R.Return(0)), StartCommit(1)], [L.Fly(1), L.Mint(1, b), L.Fly(1), L.Fly(1)];
    var a7, a8 := [L.Fly(1), L.Fly(1), L.Fly(1), L.Fly(1)],
      [CommitStep(1, Done, 1), CommitStep(1, Done, 1), CommitStep(1, Done, 1), Completes(1, R.Land(0))];
    var a9, a10, a11 := [Completes(1, R.Return(0)), VerbStep(1, Done), VerbStep(1, Done), VerbStep(1, Done)],
      [L.Fly(0), L.Fly(0), L.Fly(0), L.Fly(0)], [L.Fly(0), L.Fly(0), CommitStep(0, Done, 1)];
    TimesOut(c, a);
    SecondEnters(c, a);
    SecondEstablishes(c, a, b);
    SecondIsGiven(c, a, b);
    SecondPublishes(c, a, b);
    SecondReturns(c, a, b);
    FirstGoesOn(c, a, b);
    FirstPublishes(c, a, b);
    hide Run, KnownAlong, Pair, Published, L.Landed;
    L.RunConcat(c, FRESH, first, a4);
    L.RunConcat(c, FRESH, first + a4, a5);
    L.RunConcat(c, FRESH, first + a4 + a5, a6);
    L.RunConcat(c, FRESH, first + a4 + a5 + a6, a7);
    L.RunConcat(c, FRESH, first + a4 + a5 + a6 + a7, a8);
    L.RunConcat(c, FRESH, first + a4 + a5 + a6 + a7 + a8, a9);
    L.RunConcat(c, FRESH, first + a4 + a5 + a6 + a7 + a8 + a9, a10);
    L.RunConcat(c, FRESH, first + a4 + a5 + a6 + a7 + a8 + a9 + a10, a11);
    acts := first + a4 + a5 + a6 + a7 + a8 + a9 + a10 + a11;
  }

  lemma FirstCommits(c: Config)
    requires c.enabled && c.certId != ""
    ensures var acts := L.UP + [Boots(0, 1), L.LAND, L.RETURNED, VerbStep(0, Done)]
        + [Marker(0, "", 0), L.LAND, L.RETURNED, L.Fly(0)];
      && Run(c, FRESH, acts) == L.One(Some(Heard(c)), Polling, Establishing, NoFanout).(
           e := Lone(E.Establisher(E.ReadingPortable, 1, None)))
      && KnownAlong(c, FRESH, acts)
  {
    var a2, a3 := [Boots(0, 1), L.LAND, L.RETURNED, VerbStep(0, Done)], [Marker(0, "", 0), L.LAND, L.RETURNED, L.Fly(0)];
    L.Up(c);
    L.GovernedComesUp(c);
    L.GovernedCommits(c, Polling);
    hide Run, KnownAlong, L.One;
    L.RunConcat(c, FRESH, L.UP, a2);
    L.RunConcat(c, FRESH, L.UP + a2, a3);
  }

  /** Whether or not the status is known, and even with one call of the verb: a return stands for an ACTIVE journal exactly
      where bundles are not published, unless journal calls are kept apart; and what is returned stays the portable
      primary, unless calls of the verb are. */
  lemma ReturnNeedsOrder(c: Config)
    requires c.certId != ""
    ensures (forall acts, r :: KnownAlong(c, FRESH, acts) && r in Run(c, FRESH, acts).handed ==> r.diskActive) <==> !c.enabled
    ensures (forall acts, r :: KnownAlong(c, FRESH, acts) && r in Run(c, FRESH, acts).handed ==>
              Run(c, FRESH, acts).e.d.portable == Some(r.id)) <==> !c.enabled
  {
    if c.enabled {
      var a, b := L.Other(c.bootstrap), L.Other(c.bootstrap) + "'";
      if c.bootstrap == Some(b) { b := a + "''"; }
      var acts := OverlappingJournalReturnsEarly(c, a);
      assert Return(a, false) in Run(c, FRESH, acts).handed;
      var acts' := TwoCallsPublishTwo(c, a, b);
      assert Return(b, true) in Run(c, FRESH, acts').handed;
    } else {
      L.ReturnNeedsAKnownStatus(c);
    }
  }
}
