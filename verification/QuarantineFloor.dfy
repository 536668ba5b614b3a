/** Nothing is given up before real failures were on record: whatever the clock reads,
    however often the process restarts and whichever bookkeeping write is torn. */
module QuarantineFloor {
  import opened DepositTypes
  import opened ApplyOutbox
  import opened InboundProtocol

  ghost predicate HomeCounts(c: Config, d: Durable, h: History) {
    && (forall id :: id in d.counters ==> d.counters[id].attempts <= Key(h.failures, id))
    && (forall id :: id in d.outbox ==> d.outbox[id].attempts <= Key(h.applyFailures, id))
    && (forall id :: id in h.givenUp ==> c.bounds.Floor() <= h.givenUp[id].recorded <= h.givenUp[id].actual)
  }

  /** An apply has failed that the outbox entry does not show yet. */
  ghost predicate Owed(d: Durable, h: History, id: Id) {
    id in d.outbox ==> d.outbox[id].attempts + 1 <= Key(h.applyFailures, id)
  }

  ghost predicate WorkerCounts(d: Durable, h: History, w: Worker) {
    match w
    case PlainApplying(f, _, st, _, userApplied) => st.msg.Some? && !userApplied ==> Owed(d, h, f.id)
    case Reconciling(f, _, st, userApplied, _) => !userApplied ==> Owed(d, h, f.id)
    case RetryCounting(id, _) => Owed(d, h, id)
    case _ => true
  }

  ghost predicate PullerCounts(h: History, p: Puller) {
    match p
    case Bounding(_, n, attempts, _) => attempts <= Key(h.failures, Seq(n))
    case RelayBounding(e, _, attempts, _) => attempts <= Key(h.failures, Event(e))
    case _ => true
  }

  ghost predicate Counts(c: Config, s: State) {
    HomeCounts(c, s.d, s.h) && WorkerCounts(s.d, s.h, s.v.worker) && PullerCounts(s.h, s.v.puller)
  }

  lemma FinishCounts(c: Config, d: Durable, h: History, v: Volatile, f: Frame, task: Task, r: Result)
    requires PullerCounts(h, v.puller)
    ensures WorkerCounts(d, h, Finish(c, v, f, task, r).worker)
    ensures PullerCounts(h, Finish(c, v, f, task, r).puller)
  {
  }

  /** The steps of a deposit that stage or apply. */
  lemma ApplyStepCounts(c: Config, s: State, a: Answer)
    requires Counts(c, s)
    requires s.v.worker.Staging? || s.v.worker.Applying? || s.v.worker.PlainApplying? || s.v.worker.Reconciling?
    ensures Counts(c, WorkerNext(c, s, a))
  {
    hide Finish, StartJob;
  }

  lemma RetryStepCounts(c: Config, s: State, a: Answer)
    requires c.bounds.Valid() && Counts(c, s)
    requires s.v.worker.RetryApplying? || s.v.worker.RetryClearing? || s.v.worker.RetryDropping?
    ensures Counts(c, WorkerNext(c, s, a))
  {
    hide Finish, StartJob;
  }

  lemma RetryCountCounts(c: Config, s: State, a: Answer, id: Id, todo: map<Id, Msg>)
    requires c.bounds.Valid() && Counts(c, s) && s.v.worker == RetryCounting(id, todo)
    ensures Counts(c, RetryCount(c, s, a, id, todo))
  {
    var after := Failed(s.d.outbox, id);
    assert forall j :: j in after ==> after[j].attempts <= Key(s.h.applyFailures, j);
  }

  lemma LookCounts(c: Config, s: State, a: Answer, f: Frame, task: Task)
    requires Counts(c, s)
    ensures Counts(c, Look(c, s, a, f, task))
  {
    FinishCounts(c, s.d, s.h, s.v, f, task, Result(true, false, true, false, true));
  }

  lemma MarkCounts(c: Config, s: State, a: Answer, f: Frame, task: Task, st: Opened, g: bool, u: bool, p: bool)
    requires Counts(c, s)
    ensures Counts(c, Mark(c, s, a, f, task, st, g, u, p))
  {
    FinishCounts(c, Mark(c, s, a, f, task, st, g, u, p).d, s.h, s.v, f, task, ResultOf(st, g, u, p));
  }

  lemma QueueStepCounts(c: Config, s: State, a: Answer)
    requires Counts(c, s)
    requires s.v.worker.Opening? || s.v.worker.RetryListing? || s.v.worker.RetryPicking?
    ensures Counts(c, WorkerNext(c, s, a))
  {
  }

  lemma StartJobCounts(c: Config, s: State)
    requires Counts(c, s) && s.v.worker.Idle?
    ensures Counts(c, s.(v := StartJob(s.v)))
  {
    hide HomeCounts;
  }

  lemma WorkerStepCounts(c: Config, s: State, a: Answer)
    requires c.bounds.Valid() && Counts(c, s)
    ensures Counts(c, WorkerNext(c, s, a))
  {
    hide Counts, StartJob, RetryCount, Look, Mark;
    var w := s.v.worker;
    if w.Idle? { StartJobCounts(c, s); }
    else if w.Looking? { LookCounts(c, s, a, w.f, w.task); }
    else if w.Marking? { MarkCounts(c, s, a, w.f, w.task, w.st, w.staged, w.userApplied, w.applied); }
    else if w.Staging? || w.Applying? || w.PlainApplying? || w.Reconciling? { ApplyStepCounts(c, s, a); }
    else if w.RetryApplying? || w.RetryClearing? || w.RetryDropping? { RetryStepCounts(c, s, a); }
    else if w.RetryCounting? { RetryCountCounts(c, s, a, w.id, w.todo); }
    else { QueueStepCounts(c, s, a); }
  }

  lemma CountingStepCounts(c: Config, s: State, a: Answer)
    requires c.bounds.Valid() && Counts(c, s)
    requires s.v.puller.Counting? || s.v.puller.RelayCounting? || s.v.puller.Bounding? || s.v.puller.RelayBounding?
    ensures Counts(c, PullerNext(c, s, a))
  {
  }

  lemma OtherStepCounts(c: Config, s: State, a: Answer)
    requires Counts(c, s)
    requires !(s.v.puller.Counting? || s.v.puller.RelayCounting? || s.v.puller.Bounding? || s.v.puller.RelayBounding?)
    ensures Counts(c, PullerNext(c, s, a))
  {
    hide IsPage, Counts;
    var s' := PullerNext(c, s, a);
    assert s'.d.outbox == s.d.outbox && s'.h == s.h && s'.v.worker == s.v.worker;
    assert exists gone :: s'.d.counters == s.d.counters - gone by {
      assert s.d.counters == s.d.counters - {};
      if s.v.puller.ClearingCounter? { assert s'.d.counters == Written(a.io, s.d.counters, s.d.counters - {Seq(s.v.puller.n)}); }
    }
    assert !s'.v.puller.Bounding? && !s'.v.puller.RelayBounding?;
    FewerCounters(c, s, s');
  }

  lemma FewerCounters(c: Config, s: State, s': State)
    requires Counts(c, s) && s'.d.outbox == s.d.outbox && s'.h == s.h && s'.v.worker == s.v.worker
    requires exists gone :: s'.d.counters == s.d.counters - gone
    requires !s'.v.puller.Bounding? && !s'.v.puller.RelayBounding?
    ensures Counts(c, s')
  {
  }

  lemma PullerStepCounts(c: Config, s: State, a: Answer)
    requires c.bounds.Valid() && Counts(c, s)
    ensures Counts(c, PullerNext(c, s, a))
  {
    hide *;
    var p := s.v.puller;
    if p.Counting? || p.RelayCounting? || p.Bounding? || p.RelayBounding? { CountingStepCounts(c, s, a); }
    else { OtherStepCounts(c, s, a); }
  }

  lemma StepCounts(c: Config, s: State, a: Action)
    requires c.bounds.Valid() && Counts(c, s)
    ensures Counts(c, Step(c, s, a))
  {
    hide WorkerNext, PullerNext;
    match a
    case WorkerStep(b) => WorkerStepCounts(c, s, b);
    case PullerStep(b) => PullerStepCounts(c, s, b);
    case _ =>
  }

  lemma {:induction false} RunCounts(c: Config, s: State, acts: seq<Action>)
    requires c.bounds.Valid() && Counts(c, s)
    ensures Counts(c, Run(c, s, acts))
    decreases |acts|
  {
    hide Counts, Step;
    if acts != [] {
      StepCounts(c, s, acts[0]);
      RunCounts(c, Step(c, s, acts[0]), acts[1..]);
    }
  }

  /** At least `Floor` failures on record, and each of them really happened since the record began. */
  lemma GivenUpOnlyAfterRealFailures(c: Config, acts: seq<Action>, id: Id)
    requires c.bounds.Valid() && id in Run(c, FRESH, acts).h.givenUp
    ensures var drop := Run(c, FRESH, acts).h.givenUp[id];
      c.bounds.Floor() <= drop.recorded <= drop.actual
  {
    RunCounts(c, FRESH, acts);
  }
}
