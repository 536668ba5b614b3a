/** The promise chain behind `submit`, the sweep and the outbox retry: each job is hung off the tail promise and becomes
    the new tail.  Nothing else orders the jobs, so FIFO order, mutual exclusion and freedom from lost updates have to
    follow from the chain.  A job is any number of steps between awaits; it may end anywhere, and so may the process. */
module SerialQueue {

  /** One stretch of a job between two awaits: from its local variables and what is stored to both as it leaves them. */
  type Stretch<!V, !L> = (L, V) -> (L, V)

  datatype Phase<L> =
    | Waiting            // its promise is not due yet
    | Running(l: L)      // suspended at an await, with its local variables
    | Settled            // returned, threw, or died with the process

  /** `did` are the stretches it has run; `after` is the job it is hung off, -1 for a resolved promise. */
  datatype Job<!V, !L> = Job(start: L, after: int, phase: Phase<L>, did: seq<Stretch<V, L>>)

  /** Jobs from `base` on are those of the living process; `tail` is the tail of its chain. */
  datatype Queue<!V, !L> = Queue(jobs: seq<Job<V, L>>, base: nat, tail: int, stored: V)

  datatype Action<!V, !L> =
    | Submit(start: L)
    | Start(i: nat)                     // the scheduler runs a due reaction
    | Move(i: nat, f: Stretch<V, L>)    // a job runs on to its next await, whatever it does
    | Settle(i: nat)
    | Crash                             // what is stored survives

  predicate Due<V, L>(q: Queue<V, L>, i: nat)
    requires i < |q.jobs|
  {
    var a := q.jobs[i].after;
    q.jobs[i].phase.Waiting? && (a < 0 || (a < |q.jobs| && q.jobs[a].phase.Settled?))
  }

  function At<V, L>(q: Queue<V, L>, i: nat, p: Phase<L>): Queue<V, L>
    requires i < |q.jobs|
  {
    q.(jobs := q.jobs[i := q.jobs[i].(phase := p)])
  }

  function Dead<V, L>(jobs: seq<Job<V, L>>): seq<Job<V, L>> {
    seq(|jobs|, i requires 0 <= i < |jobs| => jobs[i].(phase := Settled))
  }

  function Step<V, L>(q: Queue<V, L>, a: Action<V, L>): Queue<V, L> {
    match a
    case Submit(l) => q.(jobs := q.jobs + [Job(l, q.tail, Waiting, [])], tail := |q.jobs|)
    case Start(i) => if i < |q.jobs| && Due(q, i) then At(q, i, Running(q.jobs[i].start)) else q
    case Move(i, f) =>
      if i < |q.jobs| && q.jobs[i].phase.Running? then
        var (l, v) := f(q.jobs[i].phase.l, q.stored);
        q.(jobs := q.jobs[i := q.jobs[i].(phase := Running(l), did := q.jobs[i].did + [f])], stored := v)
      else q
    case Settle(i) => if i < |q.jobs| && q.jobs[i].phase.Running? then At(q, i, Settled) else q
    case Crash => q.(jobs := Dead(q.jobs), base := |q.jobs|, tail := -1)
  }

  function Run<V, L>(q: Queue<V, L>, acts: seq<Action<V, L>>): Queue<V, L>
    decreases |acts|
  {
    if acts == [] then q else Run(Step(q, acts[0]), acts[1..])
  }

  /** One job, run alone. */
  function Alone<V, L>(did: seq<Stretch<V, L>>, l: L, v: V): (L, V)
    decreases |did|
  {
    if did == [] then (l, v)
    else
      var (l', v') := Alone(did[..|did| - 1], l, v);
      did[|did| - 1](l', v')
  }

  /** What is stored had the jobs run one after the other, in submission order, each as far as it got. */
  function InTurn<V, L>(jobs: seq<Job<V, L>>, init: V): V {
    if jobs == [] then init
    else
      var j := jobs[|jobs| - 1];
      Alone(j.did, j.start, InTurn(jobs[..|jobs| - 1], init)).1
  }

  ghost predicate Chained<V, L>(q: Queue<V, L>) {
    && q.base <= |q.jobs| && q.tail == (if q.base == |q.jobs| then -1 else |q.jobs| - 1)
    && (forall i :: 0 <= i < q.base ==> q.jobs[i].phase.Settled?)
    && (forall i :: q.base <= i < |q.jobs| ==> q.jobs[i].after == if i == q.base then -1 else i - 1)
    && (forall i, j :: 0 <= i < j < |q.jobs| && !q.jobs[j].phase.Waiting? ==> q.jobs[i].phase.Settled?)
    && (forall i :: 0 <= i < |q.jobs| && q.jobs[i].phase.Waiting? ==> q.jobs[i].did == [])
  }

  /** The local variables of the running job are what they would be had it run alone. */
  ghost predicate Undisturbed<V, L>(q: Queue<V, L>, init: V) {
    forall i :: 0 <= i < |q.jobs| && q.jobs[i].phase.Running? ==>
      Alone(q.jobs[i].did, q.jobs[i].start, InTurn(q.jobs[..i], init)) == (q.jobs[i].phase.l, q.stored)
  }

  ghost predicate Inv<V, L>(q: Queue<V, L>, init: V) {
    Chained(q) && q.stored == InTurn(q.jobs, init) && Undisturbed(q, init)
  }

  /** Only what the jobs did counts, and jobs that have done nothing do not. */
  lemma {:induction false} SameDeeds<V, L>(jobs: seq<Job<V, L>>, jobs': seq<Job<V, L>>, init: V)
    requires |jobs| <= |jobs'|
    requires forall i :: 0 <= i < |jobs| ==> jobs'[i].did == jobs[i].did && jobs'[i].start == jobs[i].start
    requires forall i :: |jobs| <= i < |jobs'| ==> jobs'[i].did == []
    ensures InTurn(jobs', init) == InTurn(jobs, init)
    decreases |jobs'|
  {
    if |jobs| < |jobs'| {
      SameDeeds(jobs, jobs'[..|jobs'| - 1], init);
    } else if jobs != [] {
      SameDeeds(jobs[..|jobs| - 1], jobs'[..|jobs'| - 1], init);
    }
  }

  /** The one job whose turn it is. */
  lemma DueIsNext<V, L>(q: Queue<V, L>, i: nat)
    requires Chained(q) && i < |q.jobs| && (q.jobs[i].phase.Running? || Due(q, i))
    ensures forall j :: 0 <= j < i ==> q.jobs[j].phase.Settled?
    ensures forall j :: i < j < |q.jobs| ==> q.jobs[j].phase.Waiting? && q.jobs[j].did == []
  {
    if Due(q, i) && i > q.base {
      assert q.jobs[i - 1].phase.Settled?;
    }
  }

  /** With nothing done after job `i`, what is stored is what it made of what the earlier ones left. */
  lemma UpTo<V, L>(jobs: seq<Job<V, L>>, i: nat, init: V)
    requires i < |jobs| && forall j :: i < j < |jobs| ==> jobs[j].did == []
    ensures InTurn(jobs, init) == Alone(jobs[i].did, jobs[i].start, InTurn(jobs[..i], init)).1
  {
    SameDeeds(jobs[..i + 1], jobs, init);
    assert jobs[..i + 1][..i] == jobs[..i];
  }

  /** The one running job has been replaced, and it and what is stored are what it would be had it run alone. */
  lemma OneRuns<V, L>(q: Queue<V, L>, q': Queue<V, L>, i: nat, init: V)
    requires Inv(q, init) && i < |q.jobs| && (q.jobs[i].phase.Running? || Due(q, i))
    requires i < |q'.jobs| && q' == q.(jobs := q.jobs[i := q'.jobs[i]], stored := q'.stored)
    requires q'.jobs[i].after == q.jobs[i].after && !q'.jobs[i].phase.Waiting?
    requires Alone(q'.jobs[i].did, q'.jobs[i].start, InTurn(q.jobs[..i], init)).1 == q'.stored
    requires q'.jobs[i].phase.Running? ==>
      Alone(q'.jobs[i].did, q'.jobs[i].start, InTurn(q.jobs[..i], init)).0 == q'.jobs[i].phase.l
    ensures Inv(q', init)
  {
    DueIsNext(q, i);
    assert forall j :: 0 <= j < |q.jobs| && j != i ==> q'.jobs[j] == q.jobs[j];
    assert q'.jobs[..i] == q.jobs[..i];
    UpTo(q'.jobs, i, init);
    hide InTurn, Alone;
    assert Chained(q');
  }

  /** A phase changes and nothing is done. */
  lemma TurnKeeps<V, L>(q: Queue<V, L>, i: nat, p: Phase<L>, init: V)
    requires Inv(q, init) && i < |q.jobs| && (q.jobs[i].phase.Running? || Due(q, i))
    requires p == Settled || (p == Running(q.jobs[i].start) && Due(q, i))
    ensures Inv(At(q, i, p), init)
  {
    DueIsNext(q, i);
    UpTo(q.jobs, i, init);
    OneRuns(q, At(q, i, p), i, init);
  }

  /** Whatever a job does up to its next await is the next stretch of the jobs run in turn. */
  lemma StretchIsNext<V, L>(q: Queue<V, L>, i: nat, f: Stretch<V, L>, init: V)
    requires Inv(q, init) && i < |q.jobs| && q.jobs[i].phase.Running?
    ensures Inv(Step(q, Move(i, f)), init)
  {
    var q' := Step(q, Move(i, f));
    var did := q'.jobs[i].did;
    assert did[..|did| - 1] == q.jobs[i].did;
    hide InTurn;
    OneRuns(q, q', i, init);
  }

  lemma SubmitKeeps<V, L>(q: Queue<V, L>, l: L, init: V)
    requires Inv(q, init)
    ensures Inv(Step(q, Submit(l)), init)
  {
    var q' := Step(q, Submit(l));
    SameDeeds(q.jobs, q'.jobs, init);
    assert forall i :: 0 <= i < |q.jobs| ==> q'.jobs[..i] == q.jobs[..i];
  }

  lemma CrashKeeps<V, L>(q: Queue<V, L>, init: V)
    requires Inv(q, init)
    ensures Inv(Step(q, Crash), init)
  {
    SameDeeds(q.jobs, Dead(q.jobs), init);
  }

  lemma StepKeeps<V, L>(q: Queue<V, L>, a: Action<V, L>, init: V)
    requires Inv(q, init)
    ensures Inv(Step(q, a), init)
  {
    match a
    case Submit(l) => SubmitKeeps(q, l, init);
    case Start(i) => if i < |q.jobs| && Due(q, i) { TurnKeeps(q, i, Running(q.jobs[i].start), init); }
    case Move(i, f) => if i < |q.jobs| && q.jobs[i].phase.Running? { StretchIsNext(q, i, f, init); }
    case Settle(i) => if i < |q.jobs| && q.jobs[i].phase.Running? { TurnKeeps(q, i, Settled, init); }
    case Crash => CrashKeeps(q, init);
  }

  lemma {:induction false} RunKeeps<V, L>(q: Queue<V, L>, acts: seq<Action<V, L>>, init: V)
    requires Inv(q, init)
    ensures Inv(Run(q, acts), init)
    decreases |acts|
  {
    if acts != [] {
      StepKeeps(q, acts[0], init);
      hide Inv, Step;
      RunKeeps(Step(q, acts[0]), acts[1..], init);
    }
  }

  function Empty<V, L>(init: V): Queue<V, L> {
    Queue([], 0, -1, init)
  }

  /** Over every schedule, crashes included: jobs begin in submission order, a job begins only when every earlier one has
      settled, so no two overlap; and what is stored, and what the running job has in its variables, is what running the
      jobs one after the other gives, each as far as it got. */
  lemma JobsRunOneAtATimeInOrder<V, L>(init: V, acts: seq<Action<V, L>>)
    ensures var q := Run(Empty<V, L>(init), acts);
      && (forall i, j :: 0 <= i < j < |q.jobs| && !q.jobs[j].phase.Waiting? ==> q.jobs[i].phase.Settled?)
      && (forall i, j :: 0 <= i < |q.jobs| && 0 <= j < |q.jobs| && q.jobs[i].phase.Running? && q.jobs[j].phase.Running? ==> i == j)
      && q.stored == InTurn(q.jobs, init)
      && Undisturbed(q, init)
  {
    RunKeeps(Empty<V, L>(init), acts, init);
  }

  /** `get`, and then `set` of an edit of what was got. */
  function GetThenSet<V>(edit: V -> V): seq<Stretch<V, V>> {
    [(l, v) => (v, v), (l, v) => (l, edit(l))]
  }

  function Edited<V>(edits: seq<V -> V>, init: V): V {
    if edits == [] then init else edits[|edits| - 1](Edited(edits[..|edits| - 1], init))
  }

  lemma {:induction false} EditsInTurn<V>(jobs: seq<Job<V, V>>, edits: seq<V -> V>, init: V)
    requires |edits| == |jobs| && forall i :: 0 <= i < |jobs| ==> jobs[i].did == GetThenSet(edits[i])
    ensures InTurn(jobs, init) == Edited(edits, init)
    decreases |jobs|
  {
    if jobs != [] {
      var n := |jobs| - 1;
      EditsInTurn(jobs[..n], edits[..n], init);
      var did, before := jobs[n].did, InTurn(jobs[..n], init);
      assert did[..1][..0] == [] && did[..1] == [did[0]];
      assert Alone(did[..1], jobs[n].start, before) == did[0](jobs[n].start, before);
    }
  }

  /** Over every schedule after which every job has run its `get` and its `set`, what is stored is all the edits, in
      submission order: none is lost. */
  lemma NoEditIsLost<V>(init: V, acts: seq<Action<V, V>>, edits: seq<V -> V>)
    requires var jobs := Run(Empty<V, V>(init), acts).jobs;
      |edits| == |jobs| && forall i :: 0 <= i < |jobs| ==> jobs[i].did == GetThenSet(edits[i])
    ensures Run(Empty<V, V>(init), acts).stored == Edited(edits, init)
  {
    JobsRunOneAtATimeInOrder(init, acts);
    EditsInTurn(Run(Empty<V, V>(init), acts).jobs, edits, init);
  }
}
