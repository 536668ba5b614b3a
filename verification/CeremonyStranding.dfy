/** Two runs in which recovery drops a row on the home's denial although the leaf is, or is about to be, out. */
module CeremonyStranding {
  import opened DepositTypes
  import opened CeremonyJournal
  import opened CeremonyRuns
  import S = CeremonySafety

  const OK := Answer(Done, 0, [], true)

  lemma {:induction false} RunConcat(s: State, xs: seq<Action>, ys: seq<Action>)
    ensures Run(s, xs + ys) == Run(Run(s, xs), ys)
    decreases |xs|
  {
    hide Step;
    if xs == [] {
      assert xs + ys == ys;
    } else {
      assert (xs + ys)[1..] == xs[1..] + ys;
      RunConcat(Step(s, xs[0]), xs[1..], ys);
    }
  }

  lemma FourSteps(s: State, a1: Action, a2: Action, a3: Action, a4: Action)
    ensures Run(s, [a1, a2, a3, a4]) == Step(Step(Step(Step(s, a1), a2), a3), a4)
  {
    hide Step;
    var s1 := Step(s, a1);
    var s2 := Step(s1, a2);
    var s3 := Step(s2, a3);
    assert [a1, a2, a3, a4][1..] == [a2, a3, a4] && [a2, a3, a4][1..] == [a3, a4];
    assert [a3, a4][1..] == [a4] && [a4][1..] == [];
    assert Run(s3, [a4]) == Step(s3, a4);
    assert Run(s2, [a3, a4]) == Run(s3, [a4]);
    assert Run(s1, [a2, a3, a4]) == Run(s2, [a3, a4]);
  }

  predicate Stranded(s: State, it: Item) {
    && it.1.cert in s.h.drops && s.h.drops[it.1.cert]
    && it.1.sealed in s.d.slots && it.0 !in s.d.rows && it.1.cert !in s.d.revoked
  }

  /** Persist; die before registering; resume puts the response; die before labelling it. */
  function CutRun(it: Item): seq<Action> {
    [Begin(it), CeremonyStep(OK), Crash, SweepTick(OK.(work := [it]))]
    + [SweepStep(OK), SweepStep(OK), Crash, SweepTick(OK.(work := [it]))]
    + DeadlinePasses(it)
  }

  /** The sweep finds the row past its deadline, is told BAD_TARGET, and deletes it. */
  function DeadlinePasses(it: Item): seq<Action> {
    var late := OK.(now := it.1.expiresAtMs, work := [it]);
    [SweepStep(late), SweepStep(late), SweepStep(OK), SweepStep(OK)]
    + [SweepStep(OK), SweepStep(OK), SweepStep(OK), SweepStep(OK)]
  }

  function Resumed(it: Item): State {
    State(Durable(map[it.0 := it.1], map[], {}, {it.1.sealed}),
          History({it.1.cert}, {it.1.cert}, {}, {}, map[]), Resuming([it]), NoCeremony)
  }

  lemma CutRunResumes(it: Item)
    requires it.1.state.Pending? && it.1.expiresAtMs > 0
    ensures Run(FRESH, [Begin(it), CeremonyStep(OK), Crash, SweepTick(OK.(work := [it]))]
                       + [SweepStep(OK), SweepStep(OK), Crash, SweepTick(OK.(work := [it]))]) == Resumed(it)
  {
    var first := [Begin(it), CeremonyStep(OK), Crash, SweepTick(OK.(work := [it]))];
    RunConcat(FRESH, first, [SweepStep(OK), SweepStep(OK), Crash, SweepTick(OK.(work := [it]))]);
    FourSteps(FRESH, Begin(it), CeremonyStep(OK), Crash, SweepTick(OK.(work := [it])));
    var mid := State(Durable(map[it.0 := it.1], map[], {}, {}),
                     History({it.1.cert}, {}, {}, {}, map[]), Resuming([it]), NoCeremony);
    assert Run(FRESH, first) == mid;
    FourSteps(mid, SweepStep(OK), SweepStep(OK), Crash, SweepTick(OK.(work := [it])));
  }

  /** Every label of a dropped row is honest, and still its response is out: the put was never followed by its label. */
  lemma CutLabelStrandsALeaf(it: Item)
    requires it.1.state.Pending? && it.1.expiresAtMs > 0
    ensures var s := Run(FRESH, CutRun(it)); Stranded(s, it) && !LabelsFollow(FRESH, CutRun(it), it.1.cert) && it.0 !in s.d.bound
  {
    CutRunResumes(it);
    RunConcat(FRESH, [Begin(it), CeremonyStep(OK), Crash, SweepTick(OK.(work := [it]))]
                     + [SweepStep(OK), SweepStep(OK), Crash, SweepTick(OK.(work := [it]))], DeadlinePasses(it));
    var late := OK.(now := it.1.expiresAtMs, work := [it]);
    RunConcat(Resumed(it), [SweepStep(late), SweepStep(late), SweepStep(OK), SweepStep(OK)],
              [SweepStep(OK), SweepStep(OK), SweepStep(OK), SweepStep(OK)]);
    FourSteps(Resumed(it), SweepStep(late), SweepStep(late), SweepStep(OK), SweepStep(OK));
    var mid := Resumed(it).(sweeper := Asking(it, []), d := Moved(Resumed(it).d, Done, it.0, Expired));
    assert Step(Resumed(it), SweepStep(late)) == Resumed(it).(sweeper := Resuming([]));
    assert Step(Resumed(it).(sweeper := Resuming([])), SweepStep(late)) == Resumed(it).(sweeper := Compensating([it]));
    assert Run(Resumed(it), [SweepStep(late), SweepStep(late), SweepStep(OK), SweepStep(OK)]) == mid;
    FourSteps(mid, SweepStep(OK), SweepStep(OK), SweepStep(OK), SweepStep(OK));
    S.OutWithoutLabel(CutRun(it), it.1.cert);
  }

  /** A ceremony starts under a running sweep and has not registered its device when its deadline passes. */
  function OverlapRun(it: Item): seq<Action> {
    var late := OK.(now := it.1.expiresAtMs, work := [it]);
    [SweepTick(OK), Begin(it), CeremonyStep(OK), SweepStep(late)]
    + [SweepStep(OK), SweepStep(OK), SweepStep(OK), SweepStep(OK)]
    + [SweepStep(OK), CeremonyStep(OK), CeremonyStep(OK), CeremonyStep(OK)]
  }

  function Condemned(it: Item): State {
    State(Durable(map[it.0 := it.1.(state := Expired)], map[], {}, {}),
          FRESH.h.(minted := {it.1.cert}, denied := {it.1.cert}), Deleting(it, true, []), Adding(it))
  }

  lemma OverlapCondemns(it: Item)
    requires it.1.state.Pending?
    ensures var late := OK.(now := it.1.expiresAtMs, work := [it]);
      Run(FRESH, [SweepTick(OK), Begin(it), CeremonyStep(OK), SweepStep(late)]
                 + [SweepStep(OK), SweepStep(OK), SweepStep(OK), SweepStep(OK)]) == Condemned(it)
  {
    var late := OK.(now := it.1.expiresAtMs, work := [it]);
    var xs, ys := [SweepTick(OK), Begin(it), CeremonyStep(OK), SweepStep(late)],
      [SweepStep(OK), SweepStep(OK), SweepStep(OK), SweepStep(OK)];
    RunConcat(FRESH, xs, ys);
    FourSteps(FRESH, SweepTick(OK), Begin(it), CeremonyStep(OK), SweepStep(late));
    var s1 := State(Durable(map[it.0 := it.1], map[], {}, {}), FRESH.h.(minted := {it.1.cert}), Compensating([it]), Adding(it));
    assert Run(FRESH, xs) == s1;
    FourSteps(s1, SweepStep(OK), SweepStep(OK), SweepStep(OK), SweepStep(OK));
    var s2 := s1.(d := Moved(s1.d, Done, it.0, Expired), h := s1.h.(denied := {it.1.cert}), sweeper := Deleting(it, true, []));
    var e := s1.(d := Moved(s1.d, Done, it.0, Expired));
    assert Step(s1, SweepStep(OK)) == s1.(sweeper := Expiring(it, []));
    assert Step(s1.(sweeper := Expiring(it, [])), SweepStep(OK)) == e.(sweeper := Asking(it, []));
    assert Step(e.(sweeper := Asking(it, [])), SweepStep(OK)) == e.(sweeper := Submitting(it, []));
    assert Step(e.(sweeper := Submitting(it, [])), SweepStep(OK)) == s2;
    assert s2.d.rows == map[it.0 := it.1.(state := Expired)];
  }

  /** The home's denial was true when it was given; the registration commits and is released after the row is gone. */
  lemma OverlapStrandsALiveLeaf(it: Item)
    requires it.1.state.Pending?
    ensures var s := Run(FRESH, OverlapRun(it));
      Stranded(s, it) && s.ceremony.NoCeremony? && it.0 in s.d.bound && s.d.bound[it.0] == it.1.cert
  {
    var late := OK.(now := it.1.expiresAtMs, work := [it]);
    OverlapCondemns(it);
    RunConcat(FRESH, [SweepTick(OK), Begin(it), CeremonyStep(OK), SweepStep(late)]
                     + [SweepStep(OK), SweepStep(OK), SweepStep(OK), SweepStep(OK)],
              [SweepStep(OK), CeremonyStep(OK), CeremonyStep(OK), CeremonyStep(OK)]);
    FourSteps(Condemned(it), SweepStep(OK), CeremonyStep(OK), CeremonyStep(OK), CeremonyStep(OK));
  }
}
