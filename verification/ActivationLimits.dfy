/** Where activation's promises stop: the configurations under which they fail, with runs that show it. */
module ActivationLimits {
  import opened DepositTypes
  import J = ActivationJournal
  import R = ActivationJournalRuns
  import E = PortableInboxRuns
  import opened ActivationRuns
  import opened ActivationSafety

  lemma {:induction false} RunConcat(c: Config, s: State, xs: seq<Action>, ys: seq<Action>)
    ensures Run(c, s, xs + ys) == Run(c, Run(c, s, xs), ys)
    ensures OrderlyAlong(c, s, xs + ys) <==> OrderlyAlong(c, s, xs) && OrderlyAlong(c, Run(c, s, xs), ys)
    ensures KnownAlong(c, s, xs + ys) <==> KnownAlong(c, s, xs) && KnownAlong(c, Run(c, s, xs), ys)
    decreases |xs|
  {
    hide Step, Orderly, Known;
    if xs == [] {
      assert xs + ys == ys;
    } else {
      assert (xs + ys)[1..] == xs[1..] + ys;
      RunConcat(c, Step(c, s, xs[0]), xs[1..], ys);
    }
  }

  /** Four steps that need only be looked at one by one. */
  lemma FourSteps(c: Config, s: State, a1: Action, a2: Action, a3: Action, a4: Action)
    ensures var s1, s2, s3 := Step(c, s, a1), Step(c, Step(c, s, a1), a2), Step(c, Step(c, Step(c, s, a1), a2), a3);
      && Run(c, s, [a1, a2, a3, a4]) == Step(c, s3, a4)
      && (Orderly(c, s, a1) && Orderly(c, s1, a2) && Orderly(c, s2, a3) && Orderly(c, s3, a4) ==>
            OrderlyAlong(c, s, [a1, a2, a3, a4]))
      && (Known(s, a1) && Known(s1, a2) && Known(s2, a3) && Known(s3, a4) ==> KnownAlong(c, s, [a1, a2, a3, a4]))
  {
    hide Step, Orderly, Known;
    var s1 := Step(c, s, a1);
    var s2 := Step(c, s1, a2);
    var s3 := Step(c, s2, a3);
    var t2, t3, t4 := [a2, a3, a4], [a3, a4], [a4];
    assert [a1, a2, a3, a4][1..] == t2 && t2[1..] == t3 && t3[1..] == t4 && t4[1..] == [];
    assert Run(c, s3, t4) == Run(c, Step(c, s3, a4), []) == Step(c, s3, a4);
    assert Run(c, s2, t3) == Run(c, s3, t4) && Run(c, s1, t2) == Run(c, s2, t3);
    assert OrderlyAlong(c, s3, t4) <==> Orderly(c, s3, a4);
    assert OrderlyAlong(c, s2, t3) <==> Orderly(c, s2, a3) && OrderlyAlong(c, s3, t4);
    assert OrderlyAlong(c, s1, t2) <==> Orderly(c, s1, a2) && OrderlyAlong(c, s2, t3);
    assert KnownAlong(c, s3, t4) <==> Known(s3, a4);
    assert KnownAlong(c, s2, t3) <==> Known(s2, a3) && KnownAlong(c, s3, t4);
    assert KnownAlong(c, s1, t2) <==> Known(s1, a2) && KnownAlong(c, s2, t3);
  }

  // ---- Journal calls one at a time ----

  /** Runtime `i` with one write in flight. */
  function Writing(s: State, i: nat, r: J.Record): State
    requires i < |s.runtimes|
  {
    Set(s, i, s.runtimes[i].(ops := [R.Op(Some(r), false, false)]))
  }

  function Landed(s: State, i: nat, r: J.Record): State
    requires i < |s.runtimes|
  {
    Set(s, i, s.runtimes[i].(ops := [R.Op(Some(r), false, true)])).(disk := J.Serialized(r))
  }

  function Written(s: State, i: nat, r: J.Record): State
    requires i < |s.runtimes|
  {
    Set(s, i, s.runtimes[i].(memory := Some(r))).(disk := J.Serialized(r))
  }

  /** A call that is alone in its runtime begins a write, which lands and then returns. */
  lemma Writes(c: Config, s: State, a: Action, i: nat, r: J.Record)
    requires Exists(s, i) && s.runtimes[i].ops == [] && s.runtimes[i].hydrated
    requires CallOf(c, s, a).Some? && !CallOf(c, s, a).value.Hydrate? && !CallOf(c, s, a).value.Restart? && a.i == i
    requires J.Wanted(R.Remembered(View(s, i)), CallOf(c, s, a).value) == Some(r)
    ensures !a.CommitStep? ==> Step(c, s, a) == Writing(s, i, r)
    ensures a.CommitStep? ==> Step(c, s, a) == Writing(Set(s, i, s.runtimes[i].(commit := NoCommit)), i, r)
    ensures Orderly(c, s, a)
  {
    hide J.Wanted;
    var call := CallOf(c, s, a).value;
    assert R.Step(View(s, i), R.Begin(call)).ops == [R.Op(Some(r), false, false)];
    assert Calls(s, i, call) == Writing(s, i, r);
    if a.CommitStep? {
      var t := Set(s, i, s.runtimes[i].(commit := NoCommit));
      assert View(t, i) == View(s, i);
      assert Calls(t, i, call) == Writing(t, i, r);
    }
  }

  lemma Lands(c: Config, s: State, i: nat, r: J.Record)
    requires Exists(s, i) && s.runtimes[i].ops == [] && s.runtimes[i].hydrated
    ensures Step(c, Writing(s, i, r), Completes(i, R.Land(0))) == Landed(s, i, r)
  {
    var t := Writing(s, i, r);
    assert R.Step(View(t, i), R.Land(0)).ops == [R.Op(Some(r), false, true)];
    assert Viewed(t, i, R.Step(View(t, i), R.Land(0))) == Landed(s, i, r);
  }

  lemma Returns(c: Config, s: State, i: nat, r: J.Record)
    requires Exists(s, i) && s.runtimes[i].ops == [] && s.runtimes[i].hydrated
    ensures Step(c, Landed(s, i, r), Completes(i, R.Return(0)))
      == if r.phase.Ready? then EnterCommit(c, Written(s, i, r), i) else Written(s, i, r)
  {
    hide J.Serialized;
    var t := Landed(s, i, r);
    assert R.Step(View(t, i), R.Return(0)).ops == [];
    assert Viewed(t, i, R.Step(View(t, i), R.Return(0))) == Written(s, i, r);
  }

  // ---- The first call of the verb comes up over an empty storage ----

  const OK := E.OK
  const UP := [Invoke, VerbStep(0, Done), Hydrates(0), Completes(0, R.Return(0))]

  /** One runtime, whose memory is what the disk holds. */
  function One(m: Option<J.Record>, verb: Verb, commit: Commit, fanout: Fanout): State {
    FRESH.(disk := if m.Some? then J.Serialized(m.value) else J.Absent,
           runtimes := [Runtime(m, true, [], true, verb, commit, fanout)],
           e := E.FRESH.(team := [E.Establisher(E.Idle, 0, None)]))
  }

  lemma Up(c: Config)
    ensures Run(c, FRESH, UP) == One(None, Polling, NoCommit, NoFanout)
    ensures OrderlyAlong(c, FRESH, UP) && KnownAlong(c, FRESH, UP)
  {
    FourSteps(c, FRESH, Invoke, VerbStep(0, Done), Hydrates(0), Completes(0, R.Return(0)));
    assert R.Step(R.Live(None, false, J.Absent, [R.Op(None, true, true)]), R.Return(0)).ops == [];
  }

  lemma ThreeSteps(c: Config, s: State, a1: Action, a2: Action, a3: Action)
    ensures var s1, s2 := Step(c, s, a1), Step(c, Step(c, s, a1), a2);
      && Run(c, s, [a1, a2, a3]) == Step(c, s2, a3)
      && (Orderly(c, s, a1) && Orderly(c, s1, a2) && Orderly(c, s2, a3) ==> OrderlyAlong(c, s, [a1, a2, a3]))
      && (Known(s, a1) && Known(s1, a2) && Known(s2, a3) ==> KnownAlong(c, s, [a1, a2, a3]))
  {
    hide Step, Orderly, Known;
    var s1 := Step(c, s, a1);
    var s2 := Step(c, s1, a2);
    assert [a1, a2, a3][1..] == [a2, a3] && [a2, a3][1..] == [a3];
    LastStep(c, s2, a3);
    assert Run(c, s1, [a2, a3]) == Run(c, s2, [a3]);
    assert OrderlyAlong(c, s1, [a2, a3]) <==> Orderly(c, s1, a2) && OrderlyAlong(c, s2, [a3]);
    assert KnownAlong(c, s1, [a2, a3]) <==> Known(s1, a2) && KnownAlong(c, s2, [a3]);
  }

  lemma LastStep(c: Config, s: State, a: Action)
    ensures Run(c, s, [a]) == Step(c, s, a)
    ensures (OrderlyAlong(c, s, [a]) <==> Orderly(c, s, a)) && (KnownAlong(c, s, [a]) <==> Known(s, a))
  {
    hide Step, Orderly, Known;
    assert [a][1..] == [] && Run(c, Step(c, s, a), []) == Step(c, s, a);
  }

  // ---- A status without a record lets the verb return early ----

  const LAND := Completes(0, R.Land(0))
  const RETURNED := Completes(0, R.Return(0))

  function Fly(i: nat): Action {
    FlightStep(i, OK)
  }

  function Mint(i: nat, id: string): Action {
    FlightStep(i, OK.(key := id))
  }

  function Begun(certId: string): J.Record {
    J.Record(certId, J.Bootstrapping, 1, "", 0)
  }

  function Heard(certId: string): J.Record {
    J.Record(certId, J.Ready, 1, "", 0)
  }

  /** The runtime starts bootstrapping. */
  lemma Bootstraps(c: Config, verb: Verb)
    requires c.certId != ""
    ensures var s := One(None, verb, NoCommit, NoFanout);
      && Step(c, Step(c, Step(c, s, Boots(0, 1)), LAND), RETURNED) == One(Some(Begun(c.certId)), verb, NoCommit, NoFanout)
      && Orderly(c, s, Boots(0, 1))
  {
    var s, r := One(None, verb, NoCommit, NoFanout), Begun(c.certId);
    Writes(c, s, Boots(0, 1), 0, r);
    Lands(c, s, 0, r);
    Returns(c, s, 0, r);
    assert Written(s, 0, r).runtimes == One(Some(r), verb, NoCommit, NoFanout).runtimes;
  }

  lemma GovernedBegins(c: Config)
    requires c.certId != ""
    ensures var acts := [VerbStep(0, Done), Boots(0, 1), LAND, RETURNED];
      && Run(c, One(None, Polling, NoCommit, NoFanout), acts)
           == One(Some(Begun(c.certId)), Stopping(true, true), NoCommit, NoFanout)
      && OrderlyAlong(c, One(None, Polling, NoCommit, NoFanout), acts)
  {
    var s := One(None, Polling, NoCommit, NoFanout);
    Bootstraps(c, Stopping(true, true));
    assert Step(c, s, VerbStep(0, Done)) == One(None, Stopping(true, true), NoCommit, NoFanout);
    FourSteps(c, s, VerbStep(0, Done), Boots(0, 1), LAND, RETURNED);
    hide Step;
  }

  lemma GovernedComesUp(c: Config)
    requires c.certId != ""
    ensures var acts := [Boots(0, 1), LAND, RETURNED, VerbStep(0, Done)];
      && Run(c, One(None, Polling, NoCommit, NoFanout), acts) == One(Some(Begun(c.certId)), Polling, NoCommit, NoFanout)
      && KnownAlong(c, One(None, Polling, NoCommit, NoFanout), acts)
  {
    var r := Begun(c.certId);
    Bootstraps(c, Polling);
    assert Step(c, One(Some(r), Polling, NoCommit, NoFanout), VerbStep(0, Done)) == One(Some(r), Polling, NoCommit, NoFanout);
    FourSteps(c, One(None, Polling, NoCommit, NoFanout), Boots(0, 1), LAND, RETURNED, VerbStep(0, Done));
    hide Step;
  }

  /** The marker has been heard: the commit begins, by establishing the inbox where bundles are published. */
  function Entered(certId: string, enabled: bool, verb: Verb): State {
    One(Some(Heard(certId)), verb, if enabled then Establishing else Republishing, NoFanout).(
      e := E.FRESH.(team := [if enabled then E.Establisher(E.Hydrating, 1, None) else E.Establisher(E.Idle, 0, None)]))
  }

  lemma Hears(c: Config, verb: Verb)
    ensures var s := One(Some(Begun(c.certId)), verb, NoCommit, NoFanout);
      && Step(c, Step(c, Step(c, s, Marker(0, "", 0)), LAND), RETURNED) == Entered(c.certId, c.enabled, verb)
      && Orderly(c, s, Marker(0, "", 0))
  {
    var s, r := One(Some(Begun(c.certId)), verb, NoCommit, NoFanout), Heard(c.certId);
    Writes(c, s, Marker(0, "", 0), 0, r);
    Lands(c, s, 0, r);
    Returns(c, s, 0, r);
    assert EnterCommit(c, Written(s, 0, r), 0).runtimes == Entered(c.certId, c.enabled, verb).runtimes;
  }

  lemma GovernedCommits(c: Config, verb: Verb)
    requires c.enabled
    ensures var acts := [Marker(0, "", 0), LAND, RETURNED, Fly(0)];
      var s := One(Some(Begun(c.certId)), verb, NoCommit, NoFanout);
      && Run(c, s, acts) == One(Some(Heard(c.certId)), verb, Establishing, NoFanout).(
           e := E.FRESH.(team := [E.Establisher(E.ReadingPortable, 1, None)]))
      && OrderlyAlong(c, s, acts) && KnownAlong(c, s, acts)
  {
    var s := One(Some(Begun(c.certId)), verb, NoCommit, NoFanout);
    Hears(c, verb);
    FlightGoesOn(c, Entered(c.certId, c.enabled, verb), 0, OK);
    hide Step;
    FourSteps(c, s, Marker(0, "", 0), LAND, RETURNED, Fly(0));
  }

  /** A flight that does not settle concerns the establishers alone. */
  lemma FlightGoesOn(c: Config, s: State, i: nat, a: E.Answer)
    requires Exists(s, i)
    requires var e' := E.Step(c.bootstrap, s.e, E.Go(i, a)); i < |e'.team| && !e'.team[i].flight.Idle?
    ensures Step(c, s, FlightStep(i, a)) == s.(e := E.Step(c.bootstrap, s.e, E.Go(i, a)))
  {
    assert Set(s, i, s.runtimes[i]) == s;
  }

  /** Where one establisher has got to with its own inbox, over storage nobody else has touched. */
  function Gone(f: E.Flight, id: string): E.State {
    E.State(E.Durable(if f.Persisting? then {} else {id}, map[], if f.Connecting? then Some(id) else None, {}),
            [E.Establisher(f, 1, None)], {}, {id}, if f.Connecting? then {id} else {})
  }

  lemma EstablisherRecords(bootstrap: Option<string>, id: string)
    requires bootstrap != Some(id)
    ensures var e := E.FRESH.(team := [E.Establisher(E.ReadingPortable, 1, None)]);
      && E.Step(bootstrap, e, E.Go(0, OK.(key := id))) == Gone(E.Persisting(id), id)
      && E.Step(bootstrap, Gone(E.Persisting(id), id), E.Go(0, OK)) == Gone(E.Recording(id), id)
      && E.Step(bootstrap, Gone(E.Recording(id), id), E.Go(0, OK)) == Gone(E.Connecting(id), id)
  {
  }

  /** Up to the verb's last read, with the establishment recorded but not finished. */
  lemma RecordsWhileStopping(c: Config, m: Option<J.Record>, commit: Commit, fanout: Fanout, id: string)
    requires c.bootstrap != Some(id)
    ensures var acts := [Mint(0, id), Fly(0), Fly(0), VerbStep(0, Done)];
      var s := One(m, Stopping(true, true), commit, fanout).(e := E.FRESH.(team := [E.Establisher(E.ReadingPortable, 1, None)]));
      var t := One(m, ReadingInbox(true), commit, fanout).(e := Gone(E.Connecting(id), id));
      && Run(c, s, acts) == t.(runtimes := [t.runtimes[0].(up := false)])
      && OrderlyAlong(c, s, acts)
  {
    var s := One(m, Stopping(true, true), commit, fanout).(e := E.FRESH.(team := [E.Establisher(E.ReadingPortable, 1, None)]));
    EstablisherRecords(c.bootstrap, id);
    FlightGoesOn(c, s, 0, OK.(key := id));
    var s1 := s.(e := Gone(E.Persisting(id), id));
    FlightGoesOn(c, s1, 0, OK);
    var s2 := s.(e := Gone(E.Recording(id), id));
    FlightGoesOn(c, s2, 0, OK);
    hide R.Step, J.Normalize, J.Serialized, FlightNext, E.Step;
    FourSteps(c, s, Mint(0, id), Fly(0), Fly(0), VerbStep(0, Done));
  }

  /** The verb reads the inbox while the journal on disk is not ACTIVE. */
  lemma HandsOutEarly(c: Config, m: Option<J.Record>, commit: Commit, fanout: Fanout, id: string)
    requires m.Some? ==> !m.value.phase.Active?
    ensures var t := One(m, ReadingInbox(true), commit, fanout).(e := Gone(E.Connecting(id), id));
      var s := t.(runtimes := [t.runtimes[0].(up := false)]);
      Run(c, s, [VerbStep(0, Done)]).handed == [Return(id, false)] && OrderlyAlong(c, s, [VerbStep(0, Done)])
  {
    var t := One(m, ReadingInbox(true), commit, fanout).(e := Gone(E.Connecting(id), id));
    LastStep(c, t.(runtimes := [t.runtimes[0].(up := false)]), VerbStep(0, Done));
    if m.Some? { J.RehydrationIsFaithful(m.value, J.Absent); }
  }

  /** A device whose certificate chain names its activation: the baseline arrives after the status. */
  lemma GovernedReturnsEarly(c: Config, id: string) returns (acts: seq<Action>)
    requires c.enabled && c.certId != "" && c.bootstrap != Some(id)
    ensures OrderlyAlong(c, FRESH, acts) && Run(c, FRESH, acts).handed == [Return(id, false)]
  {
    var a2, a3, a4, a5 := [VerbStep(0, Done), Boots(0, 1), LAND, RETURNED], [Marker(0, "", 0), LAND, RETURNED, Fly(0)],
      [Mint(0, id), Fly(0), Fly(0), VerbStep(0, Done)], [VerbStep(0, Done)];
    Up(c);
    GovernedBegins(c);
    GovernedCommits(c, Stopping(true, true));
    RecordsWhileStopping(c, Some(Heard(c.certId)), Establishing, NoFanout, id);
    HandsOutEarly(c, Some(Heard(c.certId)), Establishing, NoFanout, id);
    hide Run, OrderlyAlong;
    acts := UP + a2 + a3 + a4 + a5;
    RunConcat(c, FRESH, UP, a2);
    RunConcat(c, FRESH, UP + a2, a3);
    RunConcat(c, FRESH, UP + a2 + a3, a4);
    RunConcat(c, FRESH, UP + a2 + a3 + a4, a5);
  }

  /** A device whose chain names none: the connect path publishes. */
  lemma UngovernedPublishes(c: Config)
    requires c.enabled && c.certId == ""
    ensures var acts := [VerbStep(0, Done), StartFanout(0), Fly(0)];
      var s := One(None, Polling, NoCommit, NoFanout);
      && Run(c, s, acts) == One(None, Stopping(true, true), NoCommit, FanEstablishing).(
           e := E.FRESH.(team := [E.Establisher(E.ReadingPortable, 1, None)]))
      && OrderlyAlong(c, s, acts)
  {
    hide R.Step, J.Normalize, J.Serialized;
    var s := One(None, Polling, NoCommit, NoFanout);
    var s1 := One(None, Stopping(true, true), NoCommit, NoFanout);
    var s2 := One(None, Stopping(true, true), NoCommit, FanEstablishing).(
      e := E.FRESH.(team := [E.Establisher(E.Hydrating, 1, None)]));
    assert Step(c, s, VerbStep(0, Done)) == s1;
    assert Step(c, s1, StartFanout(0)) == s2;
    FlightGoesOn(c, s2, 0, OK);
    hide Step;
    ThreeSteps(c, s, VerbStep(0, Done), StartFanout(0), Fly(0));
  }

  lemma UngovernedReturnsEarly(c: Config, id: string) returns (acts: seq<Action>)
    requires c.enabled && c.certId == "" && c.bootstrap != Some(id)
    ensures OrderlyAlong(c, FRESH, acts) && Run(c, FRESH, acts).handed == [Return(id, false)]
  {
    var a2, a3, a4 := [VerbStep(0, Done), StartFanout(0), Fly(0)],
      [Mint(0, id), Fly(0), Fly(0), VerbStep(0, Done)], [VerbStep(0, Done)];
    Up(c);
    UngovernedPublishes(c);
    RecordsWhileStopping(c, None, NoCommit, FanEstablishing, id);
    HandsOutEarly(c, None, NoCommit, FanEstablishing, id);
    hide Run, OrderlyAlong;
    acts := UP + a2 + a3 + a4;
    RunConcat(c, FRESH, UP, a2);
    RunConcat(c, FRESH, UP + a2, a3);
    RunConcat(c, FRESH, UP + a2 + a3, a4);
  }

  // ---- Where bundles are not published ----

  /** Nothing establishes an inbox, and nothing is handed out. */
  ghost predicate Nothing(s: State) {
    && s.e.d.portable.None? && s.handed == []
    && (forall i :: 0 <= i < |s.e.team| ==> s.e.team[i].flight.Idle?)
  }

  lemma StepGivesNothing(c: Config, s: State, a: Action)
    requires !c.enabled && Nothing(s)
    ensures Nothing(Step(c, s, a))
  {
    hide R.Step, J.Normalize;
  }

  lemma {:induction false} NothingIsEverHandedOut(c: Config, s: State, acts: seq<Action>)
    requires !c.enabled && Nothing(s)
    ensures Nothing(Run(c, s, acts))
    decreases |acts|
  {
    if acts != [] {
      StepGivesNothing(c, s, acts[0]);
      hide Step, Nothing;
      NothingIsEverHandedOut(c, Step(c, s, acts[0]), acts[1..]);
    }
  }

  /** An id that is not the bootstrap inbox. */
  function Other(bootstrap: Option<string>): (id: string)
    ensures bootstrap != Some(id)
  {
    if bootstrap == Some("a") then "b" else "a"
  }

  /** Without asking for a record behind the status, a return still stands for an ACTIVE journal exactly where bundles are
      not published, and there because no call ever returns. */
  lemma ReturnNeedsAKnownStatus(c: Config)
    ensures (forall acts, r :: OrderlyAlong(c, FRESH, acts) && r in Run(c, FRESH, acts).handed ==> r.diskActive) <==> !c.enabled
    ensures !c.enabled ==> forall acts :: Run(c, FRESH, acts).handed == []
  {
    if c.enabled {
      var id := Other(c.bootstrap);
      var acts;
      if c.certId != "" { acts := GovernedReturnsEarly(c, id); } else { acts := UngovernedReturnsEarly(c, id); }
      assert Return(id, false) in Run(c, FRESH, acts).handed;
    } else {
      forall acts ensures Run(c, FRESH, acts).handed == [] {
        NothingIsEverHandedOut(c, FRESH, acts);
      }
    }
  }

  /** The commit of a device that does not publish. */
  lemma UnpublishedCommits(c: Config)
    requires !c.enabled
    ensures var s := One(Some(Begun(c.certId)), Polling, NoCommit, NoFanout);
      var acts := [Marker(0, "", 0), LAND, RETURNED, CommitStep(0, Done, 1)];
      Run(c, s, acts) == One(Some(Heard(c.certId)), Polling, Recording, NoFanout)
  {
    var s := One(Some(Begun(c.certId)), Polling, NoCommit, NoFanout);
    Hears(c, Polling);
    assert Step(c, Entered(c.certId, c.enabled, Polling), CommitStep(0, Done, 1))
      == One(Some(Heard(c.certId)), Polling, Recording, NoFanout);
    hide Step;
    FourSteps(c, s, Marker(0, "", 0), LAND, RETURNED, CommitStep(0, Done, 1));
  }

  lemma UnpublishedRecords(c: Config)
    ensures var s := One(Some(Heard(c.certId)), Polling, Recording, NoFanout);
      var t := Run(c, s, [CommitStep(0, Done, 1), LAND, RETURNED]);
      DiskActive(t) && t.e.d.portable.None?
  {
    var s, r := One(Some(Heard(c.certId)), Polling, Recording, NoFanout), Heard(c.certId).(phase := J.Active);
    var t := Set(s, 0, s.runtimes[0].(commit := NoCommit));
    Writes(c, s, CommitStep(0, Done, 1), 0, r);
    Lands(c, t, 0, r);
    Returns(c, t, 0, r);
    J.RehydrationIsFaithful(r, J.Absent);
    hide Step;
    ThreeSteps(c, s, CommitStep(0, Done, 1), LAND, RETURNED);
  }

  lemma UnpublishedIsActive(c: Config) returns (acts: seq<Action>)
    requires !c.enabled && c.certId != ""
    ensures DiskActive(Run(c, FRESH, acts)) && Run(c, FRESH, acts).e.d.portable.None?
  {
    var a2, a3, a4 := [Boots(0, 1), LAND, RETURNED, VerbStep(0, Done)], [Marker(0, "", 0), LAND, RETURNED, CommitStep(0, Done, 1)],
      [CommitStep(0, Done, 1), LAND, RETURNED];
    Up(c);
    GovernedComesUp(c);
    UnpublishedCommits(c);
    UnpublishedRecords(c);
    hide Run, OrderlyAlong, DiskActive;
    acts := UP + a2 + a3 + a4;
    RunConcat(c, FRESH, UP, a2);
    RunConcat(c, FRESH, UP + a2, a3);
    RunConcat(c, FRESH, UP + a2 + a3, a4);
  }

  /** Whatever overlaps, ACTIVE on disk always comes with a portable primary exactly where bundles are published. */
  lemma ActiveHasAnInboxIffPublishing(c: Config)
    requires c.certId != ""
    ensures (forall acts :: DiskActive(Run(c, FRESH, acts)) ==> Run(c, FRESH, acts).e.d.portable.Some?) <==> c.enabled
  {
    if c.enabled {
      forall acts | DiskActive(Run(c, FRESH, acts)) ensures Run(c, FRESH, acts).e.d.portable.Some? {
        OnlyALeasedInboxIsPublished(c, acts, "");
      }
    } else {
      var acts := UnpublishedIsActive(c);
    }
  }
}
