/** When a deposit that was already processed can be handed to decryption a second time. */
module Redecryption {
  import opened DepositTypes
  import opened ApplyOutbox
  import opened InboundProtocol
  import opened InboundSafety
  import PL = ProcessedLog

  /** Every deposit that was ever marked, and that the node can still offer, still carries its marker. */
  ghost predicate MarkersHold(s: State) {
    forall id :: id in s.h.everMarked && Listable(s.d, id) ==> id in s.d.markers
  }

  /** The two storage calls the guard rests on succeed: the marker lookup and the marker write. */
  predicate LogAnswers(s: State, a: Action) {
    a.WorkerStep? && (s.v.worker.Looking? || s.v.worker.Marking?) ==> a.a.io.Done?
  }

  /** The quarantine branch forgets a marker that was written while the drain was counting the failure. */
  predicate ForgetsLiveMarker(s: State, a: Action) {
    && a.PullerStep? && !a.a.io.Lost?
    && s.v.puller.ForgettingMarker? && Seq(s.v.puller.n) in s.d.markers && Seq(s.v.puller.n) in s.h.everMarked
  }

  lemma LookMarks(c: Config, s: State, a: Answer)
    requires MarkersHold(s) && s.v.worker.Looking? && a.io.Done?
    ensures MarkersHold(WorkerNext(c, s, a)) && WorkerNext(c, s, a).h.rehanded == s.h.rehanded
  {
    hide Finish, StartJob;
  }

  lemma MarkMarks(c: Config, s: State, a: Answer)
    requires MarkersHold(s) && s.v.worker.Marking?
    ensures MarkersHold(WorkerNext(c, s, a)) && WorkerNext(c, s, a).h.rehanded == s.h.rehanded
  {
    hide Finish, StartJob;
  }

  /** The other steps leave the markers and what makes a deposit listable alone. */
  predicate MarksUntouched(s: State, s': State) {
    && s'.d.markers == s.d.markers && s'.d.acked == s.d.acked && s'.d.cursor == s.d.cursor
    && s'.h.everMarked == s.h.everMarked && s'.h.rehanded == s.h.rehanded
  }

  lemma ProcessingLeavesMarks(c: Config, s: State, a: Answer)
    requires s.v.worker.Opening? || s.v.worker.Staging? || s.v.worker.Applying? || s.v.worker.PlainApplying? || s.v.worker.Reconciling?
    ensures MarksUntouched(s, WorkerNext(c, s, a))
  {
    hide Normalised;
  }

  lemma RetryLeavesMarks(c: Config, s: State, a: Answer)
    requires s.v.worker.Idle? || s.v.worker.RetryListing? || s.v.worker.RetryPicking? || s.v.worker.RetryApplying?
      || s.v.worker.RetryClearing? || s.v.worker.RetryCounting? || s.v.worker.RetryDropping?
    ensures MarksUntouched(s, WorkerNext(c, s, a))
  {
    hide StartJob, PoisonedApply;
  }

  lemma OtherMarks(c: Config, s: State, a: Answer)
    requires MarkersHold(s) && !s.v.worker.Looking? && !s.v.worker.Marking?
    ensures MarkersHold(WorkerNext(c, s, a)) && WorkerNext(c, s, a).h.rehanded == s.h.rehanded
  {
    hide WorkerNext, MarkersHold;
    if s.v.worker.Opening? || s.v.worker.Staging? || s.v.worker.Applying? || s.v.worker.PlainApplying? || s.v.worker.Reconciling? {
      ProcessingLeavesMarks(c, s, a);
    } else {
      RetryLeavesMarks(c, s, a);
    }
    SameMarks(s, WorkerNext(c, s, a));
  }

  lemma SameMarks(s: State, s': State)
    requires MarkersHold(s) && s.d.markers <= s'.d.markers && s'.d.acked == s.d.acked && s'.d.cursor == s.d.cursor
    requires s'.h.everMarked == s.h.everMarked
    ensures MarkersHold(s')
  {
  }

  lemma PullerMarks(c: Config, s: State, a: Answer)
    requires Inv(s) && MarkersHold(s)
    ensures MarkersHold(PullerNext(c, s, a)) <==> !ForgetsLiveMarker(s, PullerStep(a))
    ensures PullerNext(c, s, a).h.rehanded == s.h.rehanded
  {
    hide WorkerOk, HomeOk, ReplyOk, Safe;
    var s' := PullerNext(c, s, a);
    if s.v.puller.ForgettingMarker? {
      var n := s.v.puller.n;
      assert n > s.d.cursor;
      assert s'.d.markers == if a.io.Lost? then s.d.markers else s.d.markers - {Seq(n)};
      assert ForgetsLiveMarker(s, PullerStep(a)) ==> Listable(s'.d, Seq(n)) && Seq(n) in s'.h.everMarked && Seq(n) !in s'.d.markers;
    } else if s.v.puller.ForgettingConsumed? && s.v.puller.todo != [] {
      assert s.v.puller.todo[0] in s.v.puller.todo;
    }
  }

  /** One step keeps the guard exactly unless it is such a forget. */
  lemma StepMarks(c: Config, s: State, a: Action)
    requires Inv(s) && MarkersHold(s) && LogAnswers(s, a)
    ensures MarkersHold(Step(c, s, a)) <==> !ForgetsLiveMarker(s, a)
    ensures Step(c, s, a).h.rehanded == s.h.rehanded
  {
    hide Inv, WorkerNext, PullerNext;
    match a
    case WorkerStep(b) =>
      if s.v.worker.Looking? { LookMarks(c, s, b); }
      else if s.v.worker.Marking? { MarkMarks(c, s, b); }
      else { OtherMarks(c, s, b); }
    case PullerStep(b) => PullerMarks(c, s, b);
    case _ =>
  }

  /** The log answers all along the run. */
  ghost predicate LogAnswersAlong(c: Config, s: State, acts: seq<Action>)
    decreases |acts|
  {
    acts == [] || (LogAnswers(s, acts[0]) && LogAnswersAlong(c, Step(c, s, acts[0]), acts[1..]))
  }

  /** ... and no quarantine forgets a live marker on it. */
  ghost predicate Undisturbed(c: Config, s: State, acts: seq<Action>)
    decreases |acts|
  {
    acts == [] || (!ForgetsLiveMarker(s, acts[0]) && Undisturbed(c, Step(c, s, acts[0]), acts[1..]))
  }

  lemma {:induction false} NothingRehanded(c: Config, s: State, acts: seq<Action>)
    requires Inv(s) && MarkersHold(s) && LogAnswersAlong(c, s, acts) && Undisturbed(c, s, acts)
    ensures Run(c, s, acts).h.rehanded == s.h.rehanded && MarkersHold(Run(c, s, acts))
    decreases |acts|
  {
    hide Inv, MarkersHold, Step, LogAnswers, ForgetsLiveMarker;
    if acts != [] {
      StepKeeps(c, s, acts[0]);
      StepMarks(c, s, acts[0]);
      NothingRehanded(c, Step(c, s, acts[0]), acts[1..]);
    }
  }

  /** Decryption is never offered a processed deposit twice, as long as the log answers and
      no quarantine forgets a live marker. */
  lemma DecryptedAtMostOnce(c: Config, acts: seq<Action>)
    requires LogAnswersAlong(c, FRESH, acts) && Undisturbed(c, FRESH, acts)
    ensures Run(c, FRESH, acts).h.rehanded == {}
  {
    NothingRehanded(c, FRESH, acts);
  }

  // ---- Running by pieces ----

  lemma {:induction false} RunConcat(c: Config, s: State, xs: seq<Action>, ys: seq<Action>)
    ensures Run(c, s, xs + ys) == Run(c, Run(c, s, xs), ys)
    ensures LogAnswersAlong(c, s, xs) && LogAnswersAlong(c, Run(c, s, xs), ys) ==> LogAnswersAlong(c, s, xs + ys)
    decreases |xs|
  {
    hide Step;
    if xs == [] {
      assert xs + ys == ys;
    } else {
      assert (xs + ys)[1..] == xs[1..] + ys;
      RunConcat(c, Step(c, s, xs[0]), xs[1..], ys);
    }
  }

  lemma FourSteps(c: Config, s: State, a1: Action, a2: Action, a3: Action, a4: Action)
    ensures var s1 := Step(c, s, a1); var s2 := Step(c, s1, a2); var s3 := Step(c, s2, a3);
      && Run(c, s, [a1, a2, a3, a4]) == Step(c, s3, a4)
      && (LogAnswers(s, a1) && LogAnswers(s1, a2) && LogAnswers(s2, a3) && LogAnswers(s3, a4)
          ==> LogAnswersAlong(c, s, [a1, a2, a3, a4]))
      && (!ForgetsLiveMarker(s, a1) && !ForgetsLiveMarker(s1, a2) && !ForgetsLiveMarker(s2, a3) && !ForgetsLiveMarker(s3, a4)
          ==> Undisturbed(c, s, [a1, a2, a3, a4]))
  {
    hide Step, LogAnswers, ForgetsLiveMarker;
    var s1 := Step(c, s, a1);
    var s2 := Step(c, s1, a2);
    var s3 := Step(c, s2, a3);
    OneMore(c, s3, a4, []);
    OneMore(c, s2, a3, [a4]);
    OneMore(c, s1, a2, [a3, a4]);
    OneMore(c, s, a1, [a2, a3, a4]);
    assert [a1] + [a2, a3, a4] == [a1, a2, a3, a4] && [a2] + [a3, a4] == [a2, a3, a4] && [a3] + [a4] == [a3, a4];
    assert [a4] + [] == [a4];
  }

  lemma OneMore(c: Config, s: State, a: Action, rest: seq<Action>)
    ensures Run(c, s, [a] + rest) == Run(c, Step(c, s, a), rest)
    ensures LogAnswersAlong(c, s, [a] + rest) <==> LogAnswers(s, a) && LogAnswersAlong(c, Step(c, s, a), rest)
    ensures Undisturbed(c, s, [a] + rest) <==> !ForgetsLiveMarker(s, a) && Undisturbed(c, Step(c, s, a), rest)
  {
    hide Step, LogAnswers, ForgetsLiveMarker;
    assert ([a] + rest)[1..] == rest;
  }

  // ---- The branch that breaks it, and exactly when ----

  const OK := Answer(Done, UNREADABLE, 1, Event(""), [], [], false, false)

  /** A live push offers the deposit again after a restart: start the job, find no marker, decrypt. */
  function PushedAgain(id: Id): seq<Action> {
    [Crash, PushFrame(Frame(id, true)), WorkerStep(OK), WorkerStep(OK)]
  }

  lemma UnmarkedIsRehanded(c: Config, s: State, id: Id)
    requires id in s.h.everMarked && Listable(s.d, id) && id !in s.d.markers
    ensures LogAnswersAlong(c, s, PushedAgain(id)) && Undisturbed(c, s, PushedAgain(id))
    ensures id in Run(c, s, PushedAgain(id)).h.rehanded
  {
    FourSteps(c, s, Crash, PushFrame(Frame(id, true)), WorkerStep(OK), WorkerStep(OK));
  }

  /** From a reachable state whose history is clean so far, a continuation on which the log answers and
      no quarantine forgets a live marker can still hand a processed deposit to decryption
      exactly when some processed deposit that is still on offer has lost its marker. */
  lemma RehandedExactlyWhenUnmarked(c: Config, s: State)
    requires Inv(s) && s.h.rehanded == {}
    ensures (exists more :: LogAnswersAlong(c, s, more) && Undisturbed(c, s, more) && Run(c, s, more).h.rehanded != {})
       <==> !MarkersHold(s)
  {
    if MarkersHold(s) {
      forall more | LogAnswersAlong(c, s, more) && Undisturbed(c, s, more)
        ensures Run(c, s, more).h.rehanded == {}
      {
        NothingRehanded(c, s, more);
      }
    } else {
      var id :| id in s.h.everMarked && Listable(s.d, id) && id !in s.d.markers;
      UnmarkedIsRehanded(c, s, id);
    }
  }

  const W := WorkerStep(OK)
  const P := PullerStep(OK)
  const RACE_CONFIG := Config(Bounds(1, 1), 4, 4)
  const F1 := Frame(Seq(1), true)
  const G1 := Page([1], 0, 0, [], true, false)

  /** The states the race goes through, four actions apart. */
  const R0 := FRESH.(d := FRESH.d.(log := {1}), v := REST.(worker := RetryPicking(map[]), puller := AwaitRetry))
  const R1 := R0.(v := REST.(worker := Looking(F1, Fresh(Drain)), puller := AwaitSubmit(G1, 1)))
  const R2 := R0.(v := REST.(pending := [Retained(F1, 0)], puller := Counting(G1, 1)))
  const D3 := R0.d.(counters := map[Seq(1) := PL.Counter(1, 1)])
  const H3 := FRESH.h.(failures := map[Seq(1) := 1])
  const V3 := R2.v.(worker := Opening(F1, Redrain([], false, None)), puller := Bounding(G1, 1, 1, 1))
  const HI := Opened(true, true, Some("hi"))
  const H4 := H3.(surfaced := map[Seq(1) := "hi"], applyFailures := map[Seq(1) := 0])
  const D4 := D3.(outbox := map[Seq(1) := Entry("hi", 0, 1)], store := {"hi"})
  const V4 := V3.(worker := Reconciling(F1, Redrain([], false, None), HI, true, true))
  const D5 := D4.(outbox := map[], markers := {Seq(1)}, counters := map[])
  const H5 := H4.(everMarked := {Seq(1)}, givenUp := map[Seq(1) := Drop(1, 1)])
  const V5 := REST.(puller := ForgettingMarker(G1, 1))

  lemma RaceBegins()
    ensures Run(RACE_CONFIG, FRESH, [Deposit(1), RequestDrain, W, W]) == R0
    ensures LogAnswersAlong(RACE_CONFIG, FRESH, [Deposit(1), RequestDrain, W, W])
  {
    FourSteps(RACE_CONFIG, FRESH, Deposit(1), RequestDrain, W, W);
  }

  lemma RaceSubmits()
    ensures Run(RACE_CONFIG, R0, [W, PullerStep(OK.(items := [1])), P, W]) == R1
    ensures LogAnswersAlong(RACE_CONFIG, R0, [W, PullerStep(OK.(items := [1])), P, W])
  {
    assert Step(RACE_CONFIG, R0, W) == R0.(v := REST.(puller := Choosing));
    assert IsPage(R0.d, [1]);
    var s2 := R0.(v := REST.(puller := Item(G1)));
    assert Step(RACE_CONFIG, R0.(v := REST.(puller := Choosing)), PullerStep(OK.(items := [1]))) == s2;
    assert Step(RACE_CONFIG, s2, P) == R0.(v := REST.(puller := AwaitSubmit(G1, 1), queue := [Submit(F1, Drain)]));
    hide IsPage, PullerNext;
    FourSteps(RACE_CONFIG, R0, W, PullerStep(OK.(items := [1])), P, W);
  }

  lemma RaceFails()
    ensures Run(RACE_CONFIG, R1, [W, W, W, W]) == R2
    ensures LogAnswersAlong(RACE_CONFIG, R1, [W, W, W, W])
  {
    FourSteps(RACE_CONFIG, R1, W, W, W, W);
  }

  lemma RaceCounts()
    ensures Run(RACE_CONFIG, R2, [P, SweepTick, W, W]) == State(D3, H3, V3)
    ensures LogAnswersAlong(RACE_CONFIG, R2, [P, SweepTick, W, W])
  {
    FourSteps(RACE_CONFIG, R2, P, SweepTick, W, W);
    assert Frames(R2.v.pending) == [F1];
  }

  lemma RaceDelivers()
    ensures Run(RACE_CONFIG, State(D3, H3, V3), [WorkerStep(OK.(st := HI)), W, W, W]) == State(D4, H4, V4)
    ensures LogAnswersAlong(RACE_CONFIG, State(D3, H3, V3), [WorkerStep(OK.(st := HI)), W, W, W])
  {
    FourSteps(RACE_CONFIG, State(D3, H3, V3), WorkerStep(OK.(st := HI)), W, W, W);
  }

  const V4M := V3.(worker := Marking(F1, Redrain([], false, None), HI, true, true, true))
  const D5M := D4.(outbox := map[], markers := {Seq(1)})
  const H5M := H4.(everMarked := {Seq(1)})
  const V5M := REST.(puller := Bounding(G1, 1, 1, 1))

  lemma RaceMarks()
    ensures Step(RACE_CONFIG, State(D4, H4, V4), W) == State(D4.(outbox := map[]), H4, V4M)
    ensures Step(RACE_CONFIG, State(D4.(outbox := map[]), H4, V4M), W) == State(D5M, H5M, V5M)
  {
    assert D4.outbox - {Seq(1)} == map[];
    assert Without(R2.v.pending, Seq(1)) == [];
  }

  lemma RaceBounds()
    ensures Step(RACE_CONFIG, State(D5M, H5M, V5M), P) == State(D5M, H5, V5M.(puller := ClearingCounter(G1, 1)))
    ensures Step(RACE_CONFIG, State(D5M, H5, V5M.(puller := ClearingCounter(G1, 1))), P) == State(D5, H5, V5)
  {
    assert D5M.counters - {Seq(1)} == map[];
  }

  lemma RaceQuarantines()
    ensures Run(RACE_CONFIG, State(D4, H4, V4), [W, W, P, P]) == State(D5, H5, V5)
    ensures LogAnswersAlong(RACE_CONFIG, State(D4, H4, V4), [W, W, P, P])
  {
    RaceMarks();
    RaceBounds();
    hide Step;
    FourSteps(RACE_CONFIG, State(D4, H4, V4), W, W, P, P);
  }

  lemma RaceForgets()
    ensures var s := Run(RACE_CONFIG, State(D5, H5, V5), [P]);
      !MarkersHold(s) && "hi" in s.d.store && Seq(1) in s.h.givenUp && s.h.rehanded == {}
    ensures var s := Run(RACE_CONFIG, State(D5, H5, V5), [P]);
      LogAnswersAlong(RACE_CONFIG, s, PushedAgain(Seq(1))) && Seq(1) in Run(RACE_CONFIG, s, PushedAgain(Seq(1))).h.rehanded
    ensures LogAnswersAlong(RACE_CONFIG, State(D5, H5, V5), [P])
  {
    var s := Step(RACE_CONFIG, State(D5, H5, V5), P);
    assert Run(RACE_CONFIG, s, []) == s;
    assert Listable(s.d, Seq(1)) && Seq(1) in s.h.everMarked && Seq(1) !in s.d.markers;
    UnmarkedIsRehanded(RACE_CONFIG, s, Seq(1));
  }

  const RACE: seq<Action> :=
    [Deposit(1), RequestDrain, W, W]
    + [W, PullerStep(OK.(items := [1])), P, W]
    + [W, W, W, W]
    + [P, SweepTick, W, W]
    + [WorkerStep(OK.(st := HI)), W, W, W]
    + [W, W, P, P]
    + [P]

  lemma Then(c: Config, xs: seq<Action>, s: State, ys: seq<Action>)
    requires Run(c, FRESH, xs) == s && LogAnswersAlong(c, FRESH, xs) && LogAnswersAlong(c, s, ys)
    ensures Run(c, FRESH, xs + ys) == Run(c, s, ys) && LogAnswersAlong(c, FRESH, xs + ys)
  {
    hide Step, LogAnswers;
    RunConcat(c, FRESH, xs, ys);
  }

  /** The race itself.  The drain sees seq 1 fail and goes to count the failure; meanwhile a sweep
      re-feeds it, it decrypts, is applied and marked; the drain then quarantines it and forgets the
      marker, while the cursor has not passed it.  After a restart a push offers it again, and it is decrypted again. */
  lemma QuarantineForgetsADeliveredDeposit()
    ensures RACE_CONFIG.Valid() && LogAnswersAlong(RACE_CONFIG, FRESH, RACE + PushedAgain(Seq(1)))
    ensures var s := Run(RACE_CONFIG, FRESH, RACE);
      !MarkersHold(s) && "hi" in s.d.store && Seq(1) in s.h.givenUp && s.h.rehanded == {}
    ensures Seq(1) in Run(RACE_CONFIG, FRESH, RACE + PushedAgain(Seq(1))).h.rehanded
  {
    RaceBegins();
    RaceSubmits();
    RaceFails();
    RaceCounts();
    RaceDelivers();
    RaceQuarantines();
    RaceForgets();
    hide Step, Run, LogAnswersAlong, MarkersHold, PushedAgain;
    var c := RACE_CONFIG;
    var x0 := [Deposit(1), RequestDrain, W, W];
    var x1 := x0 + [W, PullerStep(OK.(items := [1])), P, W];
    var x2 := x1 + [W, W, W, W];
    var x3 := x2 + [P, SweepTick, W, W];
    var x4 := x3 + [WorkerStep(OK.(st := HI)), W, W, W];
    var x5 := x4 + [W, W, P, P];
    Then(c, x0, R0, [W, PullerStep(OK.(items := [1])), P, W]);
    Then(c, x1, R1, [W, W, W, W]);
    Then(c, x2, R2, [P, SweepTick, W, W]);
    Then(c, x3, State(D3, H3, V3), [WorkerStep(OK.(st := HI)), W, W, W]);
    Then(c, x4, State(D4, H4, V4), [W, W, P, P]);
    Then(c, x5, State(D5, H5, V5), [P]);
    Then(c, RACE, Run(c, FRESH, RACE), PushedAgain(Seq(1)));
  }
}
