/** The protocol's awaits, taken one after another for one deposit, come to what the pipeline's method computes. */
module ProcessingRefinement {
  import opened DepositTypes
  import DP = DepositProcessing
  import opened InboundProtocol

  function StoresOf(d: Durable): DP.Stores {
    DP.Stores(d.markers, d.outbox, d.store)
  }

  /** The worker alone, answer by answer. */
  function Work(c: Config, s: State, answers: seq<Answer>): State
    decreases |answers|
  {
    if answers == [] then s else Work(c, WorkerNext(c, s, answers[0]), answers[1..])
  }

  function Says(io: Io, st: Opened, now: int): Answer {
    Answer(io, st, now, Event(""), [], [], false, false)
  }

  /** The answers the worker meets when the calls of one deposit end as `calls` says. */
  function Answers(hit: bool, st: Opened, calls: DP.Calls, now: int): seq<Answer> {
    if hit then [Says(calls.look, st, now)]
    else
      [Says(calls.look, st, now), Says(Done, st, now)]
      + (if st.msg.Some? then [Says(calls.stage, st, now), Says(calls.apply, st, now)] else [])
      + [Says(calls.plain, st, now)]
      + (if st.msg.Some? && calls.stage.Done? then [Says(calls.reconcile, st, now)] else [])
      + [Says(calls.mark, st, now)]
  }

  function WorkerSteps(answers: seq<Answer>): seq<Action> {
    seq(|answers|, i requires 0 <= i < |answers| => WorkerStep(answers[i]))
  }

  /** That is a run of the protocol in which nothing else happens. */
  lemma {:induction false} WorkIsRun(c: Config, s: State, answers: seq<Answer>)
    ensures Run(c, s, WorkerSteps(answers)) == Work(c, s, answers)
    decreases |answers|
  {
    hide WorkerNext;
    if answers != [] {
      var rest := answers[1..];
      assert WorkerSteps(answers)[1..] == WorkerSteps(rest);
      WorkIsRun(c, WorkerNext(c, s, answers[0]), rest);
    }
  }

  lemma WorkOn(c: Config, s: State, a: Answer, rest: seq<Answer>)
    ensures Work(c, s, [a] + rest) == Work(c, WorkerNext(c, s, a), rest)
  {
    hide WorkerNext;
    assert ([a] + rest)[1..] == rest;
  }

  /** What happens to a finished deposit does not depend on where the worker stood. */
  lemma FinishIgnoresWorker(c: Config, v: Volatile, w: Worker, f: Frame, task: Task, r: Result)
    ensures Finish(c, v.(worker := w), f, task, r) == Finish(c, v, f, task, r)
  {
  }

  /** The end of the line: reconcile if staged, mark if due, finish. */
  lemma Conclude(c: Config, s: State, f: Frame, task: Task, st: Opened, staged: bool, userApplied: bool, calls: DP.Calls, now: int)
    requires s.v.worker == PlainApplying(f, task, st, staged, userApplied)
    requires st.msg.Some? ==> staged == calls.stage.Done? && userApplied == calls.apply.Done?
    ensures var answers := [Says(calls.plain, st, now)]
              + (if st.msg.Some? && calls.stage.Done? then [Says(calls.reconcile, st, now)] else []) + [Says(calls.mark, st, now)];
      var s' := Work(c, s, answers);
      var t := if st.msg.Some? then DP.Reconciled(StoresOf(s.d), f.id, calls) else StoresOf(s.d);
      && StoresOf(s'.d) == (if st.decryptOk && (st.msg.Some? ==> DP.Durable(st, calls))
                            then t.(markers := Written(calls.mark, t.markers, t.markers + {f.id})) else t)
      && s'.d == s.d.(markers := s'.d.markers, outbox := s'.d.outbox)
      && s'.v == Finish(c, s.v, f, task,
           Result(st.consumed, st.decryptOk, false, calls.plain.Done? && (st.msg.Some? ==> userApplied), DP.Durable(st, calls)))
  {
    hide Finish;
    var plain, reconcile, mark := Says(calls.plain, st, now), Says(calls.reconcile, st, now), Says(calls.mark, st, now);
    var s1 := WorkerNext(c, s, plain);
    if st.msg.Some? && calls.stage.Done? {
      assert [plain] + [reconcile] + [mark] == [plain] + ([reconcile] + ([mark] + []));
      WorkOn(c, s, plain, [reconcile] + ([mark] + []));
      WorkOn(c, s1, reconcile, [mark] + []);
      WorkOn(c, WorkerNext(c, s1, reconcile), mark, []);
      FinishIgnoresWorker(c, s.v, WorkerNext(c, s1, reconcile).v.worker, f, task,
        Result(st.consumed, st.decryptOk, false, calls.plain.Done? && userApplied, DP.Durable(st, calls)));
    } else {
      assert [plain] + [] + [mark] == [plain] + ([mark] + []);
      WorkOn(c, s, plain, [mark] + []);
      WorkOn(c, s1, mark, []);
      FinishIgnoresWorker(c, s.v, s1.v.worker, f, task,
        Result(st.consumed, st.decryptOk, false, calls.plain.Done? && (st.msg.Some? ==> userApplied), DP.Durable(st, calls)));
    }
  }

  /** The way in: nothing found, decryption reports, and a message is staged and applied. */
  function Entered(c: Config, s: State, st: Opened, calls: DP.Calls, now: int): State {
    var opened2 := WorkerNext(c, WorkerNext(c, s, Says(calls.look, st, now)), Says(Done, st, now));
    if st.msg.Some? then WorkerNext(c, WorkerNext(c, opened2, Says(calls.stage, st, now)), Says(calls.apply, st, now))
    else opened2
  }

  function WayIn(st: Opened, calls: DP.Calls, now: int): seq<Answer> {
    [Says(calls.look, st, now), Says(Done, st, now)]
    + (if st.msg.Some? then [Says(calls.stage, st, now), Says(calls.apply, st, now)] else [])
  }

  function WayOut(st: Opened, calls: DP.Calls, now: int): seq<Answer> {
    [Says(calls.plain, st, now)]
    + (if st.msg.Some? && calls.stage.Done? then [Says(calls.reconcile, st, now)] else []) + [Says(calls.mark, st, now)]
  }

  lemma EnterRuns(c: Config, s: State, st: Opened, calls: DP.Calls, now: int, rest: seq<Answer>)
    ensures Work(c, s, WayIn(st, calls, now) + rest) == Work(c, Entered(c, s, st, calls, now), rest)
  {
    hide WorkerNext, Work, Says;
    var look, open := Says(calls.look, st, now), Says(Done, st, now);
    var s1 := WorkerNext(c, s, look);
    var s2 := WorkerNext(c, s1, open);
    if st.msg.Some? {
      var stage, apply := Says(calls.stage, st, now), Says(calls.apply, st, now);
      assert WayIn(st, calls, now) + rest == [look] + ([open] + ([stage] + ([apply] + rest)));
      WorkOn(c, s, look, [open] + ([stage] + ([apply] + rest)));
      WorkOn(c, s1, open, [stage] + ([apply] + rest));
      WorkOn(c, s2, stage, [apply] + rest);
      WorkOn(c, WorkerNext(c, s2, stage), apply, rest);
    } else {
      assert WayIn(st, calls, now) + rest == [look] + ([open] + rest);
      WorkOn(c, s, look, [open] + rest);
      WorkOn(c, s1, open, rest);
    }
  }

  lemma OpenedState(c: Config, s: State, f: Frame, task: Task, st: Opened, calls: DP.Calls, now: int)
    requires s.v.worker == Looking(f, task) && Normalised(s.h, f.id, st) == st
    requires !DP.Hit(StoresOf(s.d), f.id, calls)
    ensures var s2 := WorkerNext(c, WorkerNext(c, s, Says(calls.look, st, now)), Says(Done, st, now));
      && s2.d == s.d
      && s2.v == s.v.(worker := if st.msg.Some? then Staging(f, task, st, st.msg.value) else PlainApplying(f, task, st, true, false))
  {
    hide Finish;
    var s1 := WorkerNext(c, s, Says(calls.look, st, now));
    assert s1.h.surfaced == s.h.surfaced && s1.v == s.v.(worker := Opening(f, task)) && s1.d == s.d;
  }

  lemma EnterMeans(c: Config, s: State, f: Frame, task: Task, st: Opened, calls: DP.Calls, now: int)
    requires s.v.worker == Looking(f, task) && Normalised(s.h, f.id, st) == st
    requires !DP.Hit(StoresOf(s.d), f.id, calls)
    ensures var m, mid := st.msg.Some?, Entered(c, s, st, calls, now);
      && mid.v == s.v.(worker := PlainApplying(f, task, st, m ==> calls.stage.Done?, m && calls.apply.Done?))
      && StoresOf(mid.d) == (if m then DP.StagedAndApplied(StoresOf(s.d), f.id, st.msg.value, calls, now) else StoresOf(s.d))
      && mid.d == s.d.(outbox := mid.d.outbox, store := mid.d.store)
  {
    hide Normalised, Finish;
    OpenedState(c, s, f, task, st, calls, now);
    if st.msg.Some? {
      var s2 := WorkerNext(c, WorkerNext(c, s, Says(calls.look, st, now)), Says(Done, st, now));
      StageThenApply(c, s2, f, task, st, calls, now);
    }
  }

  lemma StageThenApply(c: Config, s: State, f: Frame, task: Task, st: Opened, calls: DP.Calls, now: int)
    requires st.msg.Some? && s.v.worker == Staging(f, task, st, st.msg.value)
    ensures var mid := WorkerNext(c, WorkerNext(c, s, Says(calls.stage, st, now)), Says(calls.apply, st, now));
      && mid.v == s.v.(worker := PlainApplying(f, task, st, calls.stage.Done?, calls.apply.Done?))
      && StoresOf(mid.d) == DP.StagedAndApplied(StoresOf(s.d), f.id, st.msg.value, calls, now)
      && mid.d == s.d.(outbox := mid.d.outbox, store := mid.d.store)
  {
  }

  /** A run of the protocol in which only the worker moves, through the awaits of one deposit, leaves the stores as
      `ProcessOne` does and hands on its result. */
  lemma StepsRefineProcessOne(c: Config, s: State, f: Frame, task: Task, st: Opened, calls: DP.Calls, now: int)
    requires s.v.worker == Looking(f, task) && Normalised(s.h, f.id, st) == st
    ensures var before := StoresOf(s.d);
      var s' := Run(c, s, WorkerSteps(Answers(DP.Hit(before, f.id, calls), st, calls, now)));
      && StoresOf(s'.d) == DP.Processed(before, f.id, st, calls, now)
      && s'.v == Finish(c, s.v, f, task, DP.Reported(before, f.id, st, calls))
      && s'.d == s.d.(markers := s'.d.markers, outbox := s'.d.outbox, store := s'.d.store)
  {
    WorkIsRun(c, s, Answers(DP.Hit(StoresOf(s.d), f.id, calls), st, calls, now));
    if DP.Hit(StoresOf(s.d), f.id, calls) {
      HitRefines(c, s, f, task, st, calls, now);
    } else {
      MissRefines(c, s, f, task, st, calls, now);
    }
  }

  lemma HitRefines(c: Config, s: State, f: Frame, task: Task, st: Opened, calls: DP.Calls, now: int)
    requires s.v.worker == Looking(f, task) && DP.Hit(StoresOf(s.d), f.id, calls)
    ensures var s' := Work(c, s, Answers(true, st, calls, now));
      s' == s.(v := Finish(c, s.v, f, task, DP.Reported(StoresOf(s.d), f.id, st, calls)))
  {
    hide Finish;
    var look := Says(calls.look, st, now);
    assert [look] == [look] + [];
    WorkOn(c, s, look, []);
  }

  lemma MissRefines(c: Config, s: State, f: Frame, task: Task, st: Opened, calls: DP.Calls, now: int)
    requires s.v.worker == Looking(f, task) && Normalised(s.h, f.id, st) == st
    requires !DP.Hit(StoresOf(s.d), f.id, calls)
    ensures var before := StoresOf(s.d);
      var s' := Work(c, s, Answers(false, st, calls, now));
      && StoresOf(s'.d) == DP.Processed(before, f.id, st, calls, now)
      && s'.v == Finish(c, s.v, f, task, DP.Reported(before, f.id, st, calls))
      && s'.d == s.d.(markers := s'.d.markers, outbox := s'.d.outbox, store := s'.d.store)
  {
    hide WorkerNext, Finish, Work, Normalised, Entered;
    var m, mid := st.msg.Some?, Entered(c, s, st, calls, now);
    assert Answers(false, st, calls, now) == WayIn(st, calls, now) + WayOut(st, calls, now);
    EnterRuns(c, s, st, calls, now, WayOut(st, calls, now));
    EnterMeans(c, s, f, task, st, calls, now);
    Conclude(c, mid, f, task, st, m ==> calls.stage.Done?, m && calls.apply.Done?, calls, now);
    FinishIgnoresWorker(c, s.v, mid.v.worker, f, task, DP.Reported(StoresOf(s.d), f.id, st, calls));
  }
}
