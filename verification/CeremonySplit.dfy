/** The ceremony system with every journal call cut at its await: a row is read, and what is then written over it or deleted
    rests on that reading.  The sweep and a ceremony may both be between the two. */
module CeremonySplit {
  import opened DepositTypes
  import opened CeremonyJournal
  import opened CeremonyRuns
  import S = CeremonySafety
  import T = CeremonyStranding

  /** `swept` and `begun` are the rows read by the sweep's and the ceremony's journal call in flight, absent ones included;
      `gone` are the certs whose row ever went, `confirmed` those whose row ever was. */
  datatype Split = Split(
    s: State, swept: Option<Option<Row>>, begun: Option<Option<Row>>, gone: set<string>, confirmed: set<string>)

  function RowOf(d: Durable, device: string): Option<Row> {
    if device in d.rows then Some(d.rows[device]) else None
  }

  function Restored(s: State, device: string, r: Option<Row>): State {
    s.(d := s.d.(rows := if r.Some? then s.d.rows[device := r.value] else s.d.rows - {device}))
  }

  /** The next step of the sweep is a journal call. */
  predicate SweepCalls(s: State) {
    s.sweeper.Publishing? || s.sweeper.Expiring? || s.sweeper.Deleting?
  }

  /** What it reads lets it write. */
  predicate SweepMay(s: State)
    requires SweepCalls(s)
  {
    match s.sweeper
    case Publishing(it, _) => CanMove(s.d, it.0, Published)
    case Expiring(it, _) => CanMove(s.d, it.0, Expired)
    case Deleting(it, onDenial, _) => HasRow(s.d, it) && (onDenial ==> !Out(s.d.rows[it.0].state))
  }

  predicate CeremonyCalls(s: State) {
    s.ceremony.Persisting? || s.ceremony.Marking? || s.ceremony.Confirming?
  }

  predicate CeremonyMay(s: State)
    requires CeremonyCalls(s)
  {
    match s.ceremony
    case Persisting(it) => !(it.0 in s.d.rows && !s.d.rows[it.0].state.Confirmed?)
    case Marking(it) => CanMove(s.d, it.0, Published)
    case Confirming(it) => CanMove(s.d, it.0, Confirmed)
  }

  /** One step of the sweep: a read that throws, a read, a refusal, or a write resting on what was read. */
  function SweepSplit(x: Split, a: Answer): Split {
    if !SweepCalls(x.s) then x.(s := SweepNext(x.s, a))
    else if x.swept.None? then
      if !a.io.Done? then x.(s := SweepNext(x.s, a.(io := Lost)))
      else if SweepMay(x.s) then x.(swept := Some(RowOf(x.s.d, x.s.sweeper.it.0)))
      else x.(s := SweepNext(x.s, a))
    else
      var t := if a.io.Lost? then x.s else Restored(x.s, x.s.sweeper.it.0, x.swept.value);
      x.(s := SweepNext(t, a), swept := None)
  }

  /** A ceremony the new device never answered makes no last call. */
  function CeremonyStepSplit(x: Split, a: Answer): Split {
    if !CeremonyCalls(x.s) || (x.s.ceremony.Confirming? && x.begun.None? && !a.accepted) then x.(s := CeremonyNext(x.s, a))
    else if x.begun.None? then
      if !a.io.Done? then x.(s := CeremonyNext(x.s, a.(io := Lost)))
      else if CeremonyMay(x.s) then x.(begun := Some(RowOf(x.s.d, x.s.ceremony.it.0)))
      else x.(s := CeremonyNext(x.s, a))
    else
      var t := if a.io.Lost? then x.s else Restored(x.s, x.s.ceremony.it.0, x.begun.value);
      x.(s := CeremonyNext(t, a.(accepted := true)), begun := None)
  }

  function Moves(x: Split, a: Action): Split {
    match a
    case SweepStep(b) => SweepSplit(x, b)
    case CeremonyStep(b) => CeremonyStepSplit(x, b)
    case Crash => x.(s := CeremonyRuns.Step(x.s, a), swept := None, begun := None)
    case _ => x.(s := CeremonyRuns.Step(x.s, a))
  }

  function Certs(d: Durable): set<string> {
    set e | e in d.rows :: d.rows[e].cert
  }

  function ConfirmedCerts(d: Durable): set<string> {
    set e | e in d.rows && d.rows[e].state.Confirmed? :: d.rows[e].cert
  }

  function Step(x: Split, a: Action): Split {
    var y := Moves(x, a);
    y.(gone := x.gone + (Certs(x.s.d) - Certs(y.s.d)), confirmed := x.confirmed + ConfirmedCerts(y.s.d))
  }

  function Run(x: Split, acts: seq<Action>): Split
    decreases |acts|
  {
    if acts == [] then x else Run(Step(x, acts[0]), acts[1..])
  }

  const NONE := Split(CeremonyRuns.FRESH, None, None, {}, {})

  // ---- When the cut makes no difference ----

  /** Each call in flight still rests on the row as it is. */
  predicate InSync(x: Split) {
    && (x.swept.Some? ==> SweepCalls(x.s) && SweepMay(x.s) && x.swept.value == RowOf(x.s.d, x.s.sweeper.it.0))
    && (x.begun.Some? ==> CeremonyCalls(x.s) && CeremonyMay(x.s) && x.begun.value == RowOf(x.s.d, x.s.ceremony.it.0))
  }

  /** A write or a deletion that lands on a row the other party has read and not yet written. */
  predicate Collides(x: Split, a: Action) {
    && x.swept.Some? && x.begun.Some? && SweepCalls(x.s) && CeremonyCalls(x.s)
    && (a.SweepStep? || a.CeremonyStep?) && !a.a.io.Lost?
    && x.s.sweeper.it.0 == x.s.ceremony.it.0
  }

  ghost predicate Apart(x: Split, acts: seq<Action>)
    decreases |acts|
  {
    acts == [] || (!Collides(x, acts[0]) && Apart(Step(x, acts[0]), acts[1..]))
  }

  /** The action of the uncut system a step amounts to; a read amounts to none. */
  function Amounts(x: Split, a: Action): seq<Action> {
    match a
    case SweepStep(b) =>
      if SweepCalls(x.s) && x.swept.None? then
        if !b.io.Done? then [SweepStep(b.(io := Lost))] else if SweepMay(x.s) then [] else [a]
      else [a]
    case CeremonyStep(b) =>
      if CeremonyCalls(x.s) && x.begun.None? && (x.s.ceremony.Confirming? ==> b.accepted) then
        if !b.io.Done? then [CeremonyStep(b.(io := Lost))] else if CeremonyMay(x.s) then [] else [a]
      else if CeremonyCalls(x.s) && x.begun.Some? then [CeremonyStep(b.(accepted := true))]
      else [a]
    case _ => [a]
  }

  function Uncut(x: Split, acts: seq<Action>): seq<Action>
    decreases |acts|
  {
    if acts == [] then [] else Amounts(x, acts[0]) + Uncut(Step(x, acts[0]), acts[1..])
  }

  /** A step with every call in flight resting on the row as it is does what the uncut system does. */
  lemma StepAmounts(x: Split, a: Action)
    requires InSync(x)
    ensures Step(x, a).s == CeremonyRuns.Run(x.s, Amounts(x, a))
  {
    hide SweepNext, CeremonyNext;
    if x.swept.Some? { assert Restored(x.s, x.s.sweeper.it.0, x.swept.value).d.rows == x.s.d.rows; }
    if x.begun.Some? { assert Restored(x.s, x.s.ceremony.it.0, x.begun.value).d.rows == x.s.d.rows; }
    var acts := Amounts(x, a);
    if acts != [] {
      assert acts[1..] == [];
      assert CeremonyRuns.Run(x.s, acts) == CeremonyRuns.Run(CeremonyRuns.Step(x.s, acts[0]), []);
    }
  }

  lemma SweepLeaves(s: State, a: Answer)
    ensures var s' := SweepNext(s, a);
      && s'.ceremony == s.ceremony
      && forall e :: !(SweepCalls(s) && e == s.sweeper.it.0) ==> RowOf(s'.d, e) == RowOf(s.d, e)
    ensures a.io.Lost? ==> SweepNext(s, a).d.rows == s.d.rows
    ensures SweepCalls(s) && SweepMay(s) && !a.io.Lost? ==> RowOf(SweepNext(s, a).d, s.sweeper.it.0) != RowOf(s.d, s.sweeper.it.0)
    ensures SweepCalls(s) && !SweepMay(s) ==> SweepNext(s, a).d.rows == s.d.rows
  {
  }

  lemma CeremonyLeaves(s: State, a: Answer)
    requires s.ceremony.Persisting? ==> s.ceremony.it.1.state.Pending?
    ensures var s' := CeremonyNext(s, a);
      && s'.sweeper == s.sweeper
      && forall e :: !(CeremonyCalls(s) && e == s.ceremony.it.0) ==> RowOf(s'.d, e) == RowOf(s.d, e)
    ensures a.io.Lost? ==> CeremonyNext(s, a).d.rows == s.d.rows
    ensures CeremonyCalls(s) && CeremonyMay(s) && !a.io.Lost? && a.accepted ==>
      RowOf(CeremonyNext(s, a).d, s.ceremony.it.0) != RowOf(s.d, s.ceremony.it.0)
    ensures CeremonyCalls(s) && !CeremonyMay(s) ==> CeremonyNext(s, a).d.rows == s.d.rows
  {
  }

  lemma CeremonyBegins(s: State)
    requires S.Inv(s)
    ensures s.ceremony.Persisting? ==> s.ceremony.it.1.state.Pending?
  {
  }

  lemma SweepSyncs(x: Split, a: Answer)
    requires InSync(x)
    ensures InSync(Step(x, SweepStep(a))) <==> !Collides(x, SweepStep(a))
  {
    if x.swept.Some? { assert Restored(x.s, x.s.sweeper.it.0, x.swept.value).d.rows == x.s.d.rows; }
    SweepLeaves(x.s, a);
    SweepLeaves(x.s, a.(io := Lost));
    hide SweepNext, CanMove, HasRow;
    RowsDecide(x.s, Step(x, SweepStep(a)).s);
  }

  lemma CeremonySyncs(x: Split, a: Answer)
    requires InSync(x) && (x.s.ceremony.Persisting? ==> x.s.ceremony.it.1.state.Pending?)
    ensures InSync(Step(x, CeremonyStep(a))) <==> !Collides(x, CeremonyStep(a))
  {
    if x.begun.Some? { assert Restored(x.s, x.s.ceremony.it.0, x.begun.value).d.rows == x.s.d.rows; }
    CeremonyLeaves(x.s, a);
    CeremonyLeaves(x.s, a.(io := Lost));
    CeremonyLeaves(x.s, a.(accepted := true));
    hide CeremonyNext, CanMove, HasRow;
    RowsDecide(x.s, Step(x, CeremonyStep(a)).s);
  }

  /** What a call may do is decided by its row. */
  lemma RowsDecide(s: State, s': State)
    ensures SweepCalls(s) && s'.sweeper == s.sweeper && RowOf(s.d, s.sweeper.it.0) == RowOf(s'.d, s.sweeper.it.0) ==>
      (SweepMay(s) <==> SweepMay(s'))
    ensures CeremonyCalls(s) && s'.ceremony == s.ceremony && RowOf(s.d, s.ceremony.it.0) == RowOf(s'.d, s.ceremony.it.0) ==>
      (CeremonyMay(s) <==> CeremonyMay(s'))
  {
  }

  /** One step keeps every call in flight resting on its row if and only if it does not collide. */
  lemma SyncExactly(x: Split, a: Action)
    requires S.Inv(x.s) && InSync(x)
    ensures InSync(Step(x, a)) <==> !Collides(x, a)
  {
    CeremonyBegins(x.s);
    hide S.Inv;
    if a.SweepStep? {
      SweepSyncs(x, a.a);
    } else if a.CeremonyStep? {
      CeremonySyncs(x, a.a);
    } else {
      RowsDecide(x.s, Step(x, a).s);
    }
  }

  /** A certificate whose row goes in the uncut system is dropped, or its row was confirmed. */
  lemma UncutStepDrops(s: State, a: Action, k: string)
    requires S.Inv(s) && k in Certs(s.d) && k !in Certs(CeremonyRuns.Step(s, a).d)
    ensures k in CeremonyRuns.Step(s, a).h.drops || k in ConfirmedCerts(s.d)
  {
    var e :| e in s.d.rows && s.d.rows[e].cert == k;
    var s' := CeremonyRuns.Step(s, a);
    assert e in s'.d.rows ==> s'.d.rows[e].cert in Certs(s'.d);
    assert s.d.rows[e].state.Confirmed? ==> k in ConfirmedCerts(s.d);
  }

  lemma UncutStepKeepsDrops(s: State, a: Action)
    ensures s.h.drops.Keys <= CeremonyRuns.Step(s, a).h.drops.Keys
  {
  }

  ghost predicate Accounted(x: Split) {
    && ConfirmedCerts(x.s.d) <= x.confirmed
    && forall k :: k in x.gone ==> k in x.s.h.drops || k in x.confirmed
  }

  lemma StepAccounts(x: Split, a: Action)
    requires S.Inv(x.s) && InSync(x) && Accounted(x)
    ensures S.Inv(Step(x, a).s) && Accounted(Step(x, a))
  {
    StepAmounts(x, a);
    S.RunKeeps(x.s, Amounts(x, a));
    var acts, y := Amounts(x, a), Step(x, a);
    assert |acts| <= 1;
    if acts != [] {
      assert acts[1..] == [] && CeremonyRuns.Run(CeremonyRuns.Step(x.s, acts[0]), []) == CeremonyRuns.Step(x.s, acts[0]);
      UncutStepKeepsDrops(x.s, acts[0]);
      forall k | k in Certs(x.s.d) - Certs(y.s.d) ensures k in y.s.h.drops || k in y.confirmed {
        UncutStepDrops(x.s, acts[0], k);
      }
    }
    hide S.Inv, InSync, Moves, CeremonyRuns.Step, Certs, ConfirmedCerts;
  }

  lemma {:induction false} RunIsUncut(x: Split, acts: seq<Action>)
    requires S.Inv(x.s) && InSync(x) && Accounted(x) && Apart(x, acts)
    ensures Run(x, acts).s == CeremonyRuns.Run(x.s, Uncut(x, acts))
    ensures Accounted(Run(x, acts))
    decreases |acts|
  {
    if acts != [] {
      SyncExactly(x, acts[0]);
      StepAmounts(x, acts[0]);
      StepAccounts(x, acts[0]);
      hide Step, S.Inv, InSync, Accounted, Collides, Amounts;
      RunIsUncut(Step(x, acts[0]), acts[1..]);
      T.RunConcat(x.s, Amounts(x, acts[0]), Uncut(Step(x, acts[0]), acts[1..]));
    }
  }

  // ---- Main results ----

  /** As long as no call lands on a row the other party has read and not yet written, cutting the calls makes no difference:
      whatever holds of every run of the uncut system holds here, and a row that was never confirmed goes only with one of
      the two proofs. */
  lemma ApartMeansUncut(acts: seq<Action>, k: string)
    requires Apart(NONE, acts)
    ensures Run(NONE, acts).s == CeremonyRuns.Run(CeremonyRuns.FRESH, Uncut(NONE, acts))
    ensures var x := Run(NONE, acts);
      k in x.gone && k !in x.confirmed ==>
        k in x.s.h.drops && if x.s.h.drops[k] then k in x.s.h.denied && k !in x.s.h.labelled else k in x.s.d.revoked
  {
    RunIsUncut(NONE, acts);
    S.DeletedOnlyWithProof(Uncut(NONE, acts), k);
  }

  // ---- A collision loses a registration ----

  lemma {:induction false} RunConcat(x: Split, xs: seq<Action>, ys: seq<Action>)
    ensures Run(x, xs + ys) == Run(Run(x, xs), ys)
    decreases |xs|
  {
    hide Step;
    if xs == [] {
      assert xs + ys == ys;
    } else {
      assert (xs + ys)[1..] == xs[1..] + ys;
      RunConcat(Step(x, xs[0]), xs[1..], ys);
    }
  }

  lemma FourSteps(x: Split, a1: Action, a2: Action, a3: Action, a4: Action)
    ensures Run(x, [a1, a2, a3, a4]) == Step(Step(Step(Step(x, a1), a2), a3), a4)
  {
    hide Step;
    var x1 := Step(x, a1);
    var x2 := Step(x1, a2);
    var x3 := Step(x2, a3);
    var t2, t3, t4 := [a2, a3, a4], [a3, a4], [a4];
    assert [a1, a2, a3, a4][1..] == t2 && t2[1..] == t3 && t3[1..] == t4 && t4[1..] == [];
    assert Run(x3, t4) == Run(Step(x3, a4), []) == Step(x3, a4);
    assert Run(x2, t3) == Run(x3, t4) && Run(x1, t2) == Run(x2, t3);
  }

  const C := CeremonyStep(T.OK)
  const W := SweepStep(T.OK)

  /** Two registrations of one device, the second after the first was confirmed. */
  predicate Pair(x: Item, y: Item) {
    x.0 == y.0 && x.1.cert != y.1.cert && x.1.state.Pending? && y.1.state.Pending?
  }

  function As(it: Item, l: Label): Item {
    (it.0, it.1.(state := l))
  }

  /** The state after each stretch: the first is registered and released, revoked by the sweep, then confirmed. */
  function Registered(x: Item): Split {
    NONE.(s := FRESH.(d := FRESH.d.(rows := map[x.0 := x.1]), h := FRESH.h.(minted := {x.1.cert}),
                      sweeper := Resuming([]), ceremony := Adding(x)))
  }

  function Out1(x: Item, w: Sweeper, bound: map<string, string>, revoked: set<string>): Split {
    NONE.(s := State(Durable(map[x.0 := As(x, Published).1], bound, revoked, {x.1.sealed}),
                     History({x.1.cert}, {x.1.cert}, {x.1.cert}, {}, map[]), w, Confirming(x)))
  }

  function Read(x: Item): Split {
    var p := Out1(x, Deleting(As(x, Published), false, []), map[], {x.1.cert});
    p.(s := p.s.(d := p.s.d.(rows := map[x.0 := As(x, Confirmed).1]), ceremony := NoCeremony),
       swept := Some(Some(As(x, Confirmed).1)), confirmed := {x.1.cert})
  }

  function Lost1(x: Item, y: Item): Split {
    Split(State(Durable(map[], map[], {x.1.cert}, {x.1.sealed}),
                History({x.1.cert, y.1.cert}, {x.1.cert}, {x.1.cert}, {}, map[x.1.cert := false]), Compensating([]), Adding(y)),
          None, None, {x.1.cert, y.1.cert}, {x.1.cert})
  }

  lemma Registers(x: Item)
    requires x.1.state.Pending?
    ensures Run(NONE, [SweepTick(T.OK), Begin(x), C, C]) == Registered(x)
  {
    FourSteps(NONE, SweepTick(T.OK), Begin(x), C, C);
  }

  lemma Releases1(x: Item)
    requires x.1.state.Pending?
    ensures Run(Registered(x), [C, C, C, C]) == Out1(x, Resuming([]), map[x.0 := x.1.cert], {})
  {
    FourSteps(Registered(x), C, C, C, C);
  }

  function Late(x: Item): Action {
    SweepStep(T.OK.(now := x.1.expiresAtMs, work := [As(x, Published)]))
  }

  lemma RevokedByTheSweep(x: Item)
    ensures Run(Out1(x, Resuming([]), map[x.0 := x.1.cert], {}), [Late(x), W, W, W])
      == Out1(x, Rereading(As(x, Published), []), map[], {x.1.cert})
  {
    var p, b := As(x, Published), map[x.0 := x.1.cert];
    var s1 := Out1(x, Compensating([p]), b, {});
    assert [p][1..] == [];
    assert Step(Out1(x, Resuming([]), b, {}), Late(x)) == s1;
    assert Step(s1, W) == Out1(x, Asking(p, []), b, {});
    assert Step(Out1(x, Asking(p, []), b, {}), W) == Out1(x, Submitting(p, []), b, {});
    assert b - {x.0} == map[];
    assert Step(Out1(x, Submitting(p, []), b, {}), W) == Out1(x, Rereading(p, []), map[], {x.1.cert});
    hide Step;
    FourSteps(Out1(x, Resuming([]), b, {}), Late(x), W, W, W);
  }

  lemma CertsOfOne(d: Durable, device: string, r: Row)
    requires d.rows == map[device := r]
    ensures Certs(d) == {r.cert} && ConfirmedCerts(d) == if r.state.Confirmed? then {r.cert} else {}
  {
    assert device in d.rows;
  }

  lemma ConfirmedAndRead(x: Item)
    ensures Run(Out1(x, Rereading(As(x, Published), []), map[], {x.1.cert}), [W, C, C, W]) == Read(x)
  {
    var p, c := As(x, Published), As(x, Confirmed);
    var s1 := Out1(x, Deleting(p, false, []), map[], {x.1.cert});
    var s2, s3 := s1.(begun := Some(Some(p.1))), Read(x).(swept := None);
    assert Step(Out1(x, Rereading(p, []), map[], {x.1.cert}), W) == s1;
    assert Step(s1, C) == s2;
    CertsOfOne(s2.s.d, x.0, p.1);
    CertsOfOne(s3.s.d, x.0, c.1);
    assert Moves(s2, C).s.d.rows == s3.s.d.rows;
    assert Step(s2, C) == s3;
    assert Step(s3, W) == Read(x);
    hide Step;
    FourSteps(Out1(x, Rereading(p, []), map[], {x.1.cert}), W, C, C, W);
  }

  /** The second registration has read the confirmed row, and so has the sweep. */
  function BothRead(x: Item, y: Item): Split {
    var r := Read(x);
    r.(s := r.s.(h := r.s.h.(minted := {x.1.cert, y.1.cert}), ceremony := Persisting(y)), begun := Some(Some(As(x, Confirmed).1)))
  }

  function Overwritten(x: Item, y: Item): Split {
    var b := BothRead(x, y);
    b.(s := b.s.(d := b.s.d.(rows := map[x.0 := y.1]), ceremony := Adding(y)), begun := None, gone := {x.1.cert})
  }

  lemma SecondReads(x: Item, y: Item)
    requires Pair(x, y)
    ensures Step(Step(Read(x), Begin(y)), C) == BothRead(x, y)
  {
    var b := BothRead(x, y);
    CertsOfOne(b.s.d, x.0, As(x, Confirmed).1);
    assert Step(Read(x), Begin(y)) == b.(begun := None);
  }

  lemma SecondOverwrites(x: Item, y: Item)
    requires Pair(x, y)
    ensures Step(BothRead(x, y), C) == Overwritten(x, y) && Collides(BothRead(x, y), C)
  {
    var b, o := BothRead(x, y), Overwritten(x, y);
    CertsOfOne(b.s.d, x.0, As(x, Confirmed).1);
    CertsOfOne(o.s.d, x.0, y.1);
    assert Moves(b, C).s.d.rows == o.s.d.rows;
    assert Moves(b, C).s == o.s;
  }

  lemma SweepTakesIt(x: Item, y: Item)
    requires Pair(x, y)
    ensures Step(Overwritten(x, y), W) == Lost1(x, y)
  {
    var o := Overwritten(x, y);
    CertsOfOne(o.s.d, x.0, y.1);
    assert Moves(o, W).s.d.rows == map[];
    assert Moves(o, W).s == Lost1(x, y).s;
    assert Certs(Lost1(x, y).s.d) == {} && ConfirmedCerts(Lost1(x, y).s.d) == {};
  }

  /** The second registration is written over the confirmed row, and the sweep's deletion takes it. */
  lemma SecondIsLost(x: Item, y: Item)
    requires Pair(x, y)
    ensures Run(Read(x), [Begin(y), C, C, W]) == Lost1(x, y)
  {
    SecondReads(x, y);
    SecondOverwrites(x, y);
    SweepTakesIt(x, y);
    hide Step;
    FourSteps(Read(x), Begin(y), C, C, W);
  }

  lemma SecondGoesOut(x: Item, y: Item)
    requires Pair(x, y)
    ensures var z := Run(Lost1(x, y), [C, C, C, W]);
      && z.s.d == Durable(map[], map[y.0 := y.1.cert], {x.1.cert}, {x.1.sealed, y.1.sealed})
      && z.s.h.drops == map[x.1.cert := false] && z.s.h.denied == {}
      && z.gone == {x.1.cert, y.1.cert} && z.confirmed == {x.1.cert}
  {
    FourSteps(Lost1(x, y), C, C, C, W);
  }

  function LostRun(x: Item, y: Item): seq<Action> {
    [SweepTick(T.OK), Begin(x), C, C] + [C, C, C, C] + [Late(x), W, W, W] + [W, C, C, W] + [Begin(y), C, C, W] + [C, C, C, W]
  }

  /** A sweep has read a confirmed row it is about to delete when the device is registered again.  The deletion takes the
      new registration's row, which is then added and released: a live leaf that is neither revoked nor denied, and no row. */
  lemma CollisionLosesARegistration(x: Item, y: Item)
    requires Pair(x, y)
    ensures var z := Run(NONE, LostRun(x, y));
      && y.1.cert in z.gone && y.1.cert !in z.confirmed && y.1.cert !in z.s.h.drops
      && y.1.cert !in z.s.d.revoked && y.1.cert !in z.s.h.denied
      && z.s.d.rows == map[] && z.s.d.bound == map[y.0 := y.1.cert] && y.1.sealed in z.s.d.slots
    ensures !Apart(NONE, LostRun(x, y))
  {
    var a1, a2, a3 := [SweepTick(T.OK), Begin(x), C, C], [C, C, C, C], [Late(x), W, W, W];
    var a4, a5, a6 := [W, C, C, W], [Begin(y), C, C, W], [C, C, C, W];
    Registers(x);
    Releases1(x);
    RevokedByTheSweep(x);
    ConfirmedAndRead(x);
    SecondIsLost(x, y);
    SecondGoesOut(x, y);
    hide Run, Registered, Out1, Read, Lost1;
    RunConcat(NONE, a1, a2);
    RunConcat(NONE, a1 + a2, a3);
    RunConcat(NONE, a1 + a2 + a3, a4);
    RunConcat(NONE, a1 + a2 + a3 + a4, a5);
    RunConcat(NONE, a1 + a2 + a3 + a4 + a5, a6);
    if Apart(NONE, LostRun(x, y)) {
      ApartMeansUncut(LostRun(x, y), y.1.cert);
    }
  }
}
