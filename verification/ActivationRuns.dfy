/** The whole activation of a delegated device as a step system.  Every call of the verb builds its own enrollment
    runtime, journal and establisher over the one storage; nothing keeps two calls apart, and stopping a runtime waits
    for nothing it has in flight.  Inside a runtime the sync, the baseline marker, the commit and the connect path's
    publication run between each other's awaits, and the process can be killed at any of them. */
module ActivationRuns {
  import opened DepositTypes
  import J = ActivationJournal
  import R = ActivationJournalRuns
  import E = PortableInboxRuns

  /** `certId` is the activation id read from the certificate chain, empty when there is none; `enabled` says that
      these runtimes publish bundles at all. */
  datatype Config = Config(certId: string, enabled: bool, bootstrap: Option<string>)

  datatype Commit = NoCommit | Establishing | Publishing(id: string) | Republishing | Recording

  datatype Fanout = NoFanout | FanEstablishing | FanPublishing(id: string)

  datatype Verb =
    | NotRunning
    | ReadingState
    | Polling
    | Stopping(active: bool, unknown: bool)    // what the last status said; `unknown`: there was no record behind it
    | ReadingInbox(unknown: bool)

  /** One call of the verb with its runtime. */
  datatype Runtime = Runtime(
    memory: Option<J.Record>, hydrated: bool, ops: seq<R.Op>,   // its journal
    up: bool, verb: Verb, commit: Commit, fanout: Fanout)

  /** A normal return: the id handed out, and whether the journal on disk was ACTIVE then. */
  datatype Return = Return(id: string, diskActive: bool)

  datatype State = State(
    disk: J.Raw,                 // the journal, durable
    e: E.State,                  // storage and establishers, one per runtime
    published: set<string>,      // inboxes any bundle of this device ever carried
    runtimes: seq<Runtime>,
    handed: seq<Return>)

  datatype Action =
    | Invoke
    | VerbStep(i: nat, io: Io)
    | DeadlinePasses(i: nat)
    | Hydrates(i: nat)                                       // any service entry point does so first
    | Observes(i: nat, now: int)                             // a sync finds this device in the home's set
    | Boots(i: nat, now: int)                                // a sync starts or resumes bootstrapping
    | Marker(i: nat, origin: string, horizon: int)           // the baseline marker
    | Completes(i: nat, act: R.Act)                          // a journal call in flight goes on
    | StartCommit(i: nat)                                    // a sync finds the journal READY
    | CommitStep(i: nat, io: Io, now: int)
    | StartFanout(i: nat)                                    // the connect path is told to publish
    | FanoutStep(i: nat, io: Io)
    | FlightStep(i: nat, a: E.Answer)                        // the establisher's flight goes on
    | Kill

  // ---- The journal of one runtime ----

  function View(s: State, i: nat): R.Live
    requires i < |s.runtimes|
  {
    R.Live(s.runtimes[i].memory, s.runtimes[i].hydrated, s.disk, s.runtimes[i].ops)
  }

  function Viewed(s: State, i: nat, j: R.Live): State
    requires i < |s.runtimes|
  {
    s.(disk := j.disk, runtimes := s.runtimes[i := s.runtimes[i].(memory := j.memory, hydrated := j.hydrated, ops := j.ops)])
  }

  function Calls(s: State, i: nat, c: J.Call): State
    requires i < |s.runtimes|
  {
    Viewed(s, i, R.Step(View(s, i), R.Begin(c)))
  }

  predicate Remembers(x: Runtime, p: J.Phase) {
    x.hydrated && x.memory.Some? && x.memory.value.phase == p
  }

  predicate DiskActive(s: State) {
    J.Rank(J.Normalize(s.disk)) == 3
  }

  function Set(s: State, i: nat, x: Runtime): State
    requires i < |s.runtimes|
  {
    s.(runtimes := s.runtimes[i := x])
  }

  // ---- The verb ----

  function Hand(s: State, i: nat, id: string): State
    requires i < |s.runtimes|
  {
    Set(s, i, s.runtimes[i].(verb := NotRunning)).(handed := s.handed + [Return(id, DiskActive(s))])
  }

  function VerbNext(s: State, i: nat, io: Io): State
    requires i < |s.runtimes|
  {
    var x := s.runtimes[i];
    match x.verb
    case NotRunning => s
    case ReadingState =>
      if !io.Done? then Set(s, i, x.(verb := NotRunning))
      else if DiskActive(s) then
        if s.e.d.portable.Some? then Hand(s, i, s.e.d.portable.value) else Set(s, i, x.(verb := NotRunning))
      else Set(s, i, x.(verb := Polling, up := true))
    case Polling =>
      if !x.hydrated then s
      else if x.memory.None? then Set(s, i, x.(verb := Stopping(true, true)))
      else if Remembers(x, J.Active) then Set(s, i, x.(verb := Stopping(true, false)))
      else s
    case Stopping(active, unknown) =>
      Set(s, i, x.(up := false, verb := if active then ReadingInbox(unknown) else NotRunning))
    case ReadingInbox(_) =>
      if io.Done? && s.e.d.portable.Some? then Hand(s, i, s.e.d.portable.value) else Set(s, i, x.(verb := NotRunning))
  }

  // ---- Commit and publication ----

  /** `publishOwnBundle` begins by establishing the inbox, and does nothing where bundles are not published. */
  function EnterCommit(c: Config, s: State, i: nat): State
    requires i < |s.runtimes| && i < |s.e.team|
  {
    var x := s.runtimes[i];
    if !x.commit.NoCommit? then s
    else if c.enabled then Set(s, i, x.(commit := Establishing)).(e := E.Called(s.e, i))
    else Set(s, i, x.(commit := Republishing))
  }

  function Publish(s: State, io: Io, id: string): State {
    if io.Lost? then s else s.(published := s.published + {id})
  }

  function CommitNext(s: State, i: nat, io: Io, now: int): State
    requires i < |s.runtimes|
  {
    var x := s.runtimes[i];
    match x.commit
    case NoCommit => s
    case Establishing => s
    case Publishing(id) => Publish(Set(s, i, x.(commit := if io.Done? then Republishing else NoCommit)), io, id)
    case Republishing => Set(s, i, x.(commit := if io.Done? then Recording else NoCommit))
    case Recording => Calls(Set(s, i, x.(commit := NoCommit)), i, J.MarkActive(now))
  }

  function FanoutNext(s: State, i: nat, io: Io): State
    requires i < |s.runtimes|
  {
    var x := s.runtimes[i];
    if x.fanout.FanPublishing? then Publish(Set(s, i, x.(fanout := NoFanout)), io, x.fanout.id) else s
  }

  /** Sync lets the connect path publish when the device is active, or when no activation governs it. */
  predicate MayFanOut(c: Config, x: Runtime) {
    Remembers(x, J.Active) || (x.hydrated && x.memory.None? && c.certId == "")
  }

  /** What the settled flight gave goes to whoever of this runtime was waiting for it. */
  function Deliver(x: Runtime, id: Option<string>): Runtime {
    x.(commit := if !x.commit.Establishing? then x.commit else if id.Some? then Publishing(id.value) else NoCommit,
       fanout := if !x.fanout.FanEstablishing? then x.fanout else if id.Some? then FanPublishing(id.value) else NoFanout)
  }

  function FlightNext(c: Config, s: State, i: nat, a: E.Answer): State
    requires i < |s.runtimes| && i < |s.e.team|
  {
    var e' := E.Step(c.bootstrap, s.e, E.Go(i, a));
    var settled := !s.e.team[i].flight.Idle? && i < |e'.team| && e'.team[i].flight.Idle?;
    Set(s, i, if settled then Deliver(s.runtimes[i], e'.team[i].last) else s.runtimes[i]).(e := e')
  }

  /** A journal call goes on; the marker's, once it has returned, commits. */
  function Completed(c: Config, s: State, i: nat, act: R.Act): State
    requires i < |s.runtimes| && i < |s.e.team|
  {
    var t := Viewed(s, i, R.Step(View(s, i), act));
    var x := s.runtimes[i];
    if act.Return? && act.i < |x.ops| && x.ops[act.i].landed && !x.ops[act.i].read && R.Height(R.KindOf(x.ops[act.i].rec)) == 2
    then EnterCommit(c, t, i) else t
  }

  const NEW := Runtime(None, false, [], false, ReadingState, NoCommit, NoFanout)

  predicate Exists(s: State, i: nat) {
    i < |s.runtimes| && i < |s.e.team|
  }

  /** The journal call an action begins. */
  function CallOf(c: Config, s: State, a: Action): Option<J.Call> {
    match a
    case Hydrates(i) => if Exists(s, i) && s.runtimes[i].up then Some(J.Hydrate) else None
    case Observes(i, now) =>
      if Exists(s, i) && s.runtimes[i].up && s.runtimes[i].hydrated && s.published != {} then Some(J.MarkActive(now)) else None
    case Boots(i, now) =>
      if Exists(s, i) && s.runtimes[i].up && s.runtimes[i].hydrated then Some(J.EnsureBootstrapping(c.certId, now)) else None
    case Marker(i, origin, horizon) =>
      if Exists(s, i) && s.runtimes[i].up && s.runtimes[i].hydrated then Some(J.MarkReady(origin, horizon)) else None
    case CommitStep(i, io, now) => if Exists(s, i) && s.runtimes[i].commit.Recording? then Some(J.MarkActive(now)) else None
    case _ => None
  }

  function Step(c: Config, s: State, a: Action): State {
    match a
    case Invoke => s.(runtimes := s.runtimes + [NEW], e := E.Step(c.bootstrap, s.e, E.Open))
    case Kill => s.(runtimes := [], e := E.Step(c.bootstrap, s.e, E.Kill))
    case VerbStep(i, io) => if Exists(s, i) then VerbNext(s, i, io) else s
    case DeadlinePasses(i) =>
      if Exists(s, i) && s.runtimes[i].verb.Polling? then Set(s, i, s.runtimes[i].(verb := Stopping(false, false))) else s
    case Completes(i, act) => if Exists(s, i) && !act.Begin? && !act.Die? then Completed(c, s, i, act) else s
    case StartCommit(i) =>
      if Exists(s, i) && s.runtimes[i].up && Remembers(s.runtimes[i], J.Ready) then EnterCommit(c, s, i) else s
    case CommitStep(i, io, now) => if Exists(s, i) then CommitNext(s, i, io, now) else s
    case StartFanout(i) =>
      if Exists(s, i) && s.runtimes[i].up && s.runtimes[i].fanout.NoFanout? && MayFanOut(c, s.runtimes[i]) && c.enabled then
        Set(s, i, s.runtimes[i].(fanout := FanEstablishing)).(e := E.Called(s.e, i))
      else s
    case FanoutStep(i, io) => if Exists(s, i) then FanoutNext(s, i, io) else s
    case FlightStep(i, b) => if Exists(s, i) then FlightNext(c, s, i, b) else s
    case _ => if CallOf(c, s, a).Some? then Calls(s, a.i, CallOf(c, s, a).value) else s
  }

  function Run(c: Config, s: State, acts: seq<Action>): State
    decreases |acts|
  {
    if acts == [] then s else Run(c, Step(c, s, acts[0]), acts[1..])
  }

  const FRESH := State(J.Absent, E.FRESH, {}, [], [])

  // ---- Conditions on actions ----

  /** This call of the verb is over, and nothing it started is in flight. */
  predicate Over(s: State, i: nat) {
    && Exists(s, i)
    && var x := s.runtimes[i];
    && x.verb.NotRunning? && !x.up && x.ops == [] && x.commit.NoCommit? && x.fanout.NoFanout?
    && s.e.team[i].flight.Idle?
  }

  /** The verb is called only when no earlier call has anything in flight, and no journal call begins while one of
      another kind is in flight. */
  predicate Orderly(c: Config, s: State, a: Action) {
    && (a.Invoke? ==> forall i :: 0 <= i < |s.runtimes| ==> Over(s, i))
    && (CallOf(c, s, a).Some? ==> !R.Conflict(View(s, a.i), R.Begin(CallOf(c, s, a).value)))
  }

  /** No status is answered without a record behind it. */
  predicate Known(s: State, a: Action) {
    a.VerbStep? && Exists(s, a.i) && s.runtimes[a.i].verb.Polling? && s.runtimes[a.i].hydrated ==> s.runtimes[a.i].memory.Some?
  }

  /** No empty read of the portable primary overlaps another's. */
  predicate MintsApart(c: Config, s: State, a: Action) {
    a.FlightStep? ==> !E.Overlaps(c.bootstrap, s.e, E.Go(a.i, a.a))
  }

  ghost predicate OrderlyAlong(c: Config, s: State, acts: seq<Action>)
    decreases |acts|
  {
    acts == [] || (Orderly(c, s, acts[0]) && OrderlyAlong(c, Step(c, s, acts[0]), acts[1..]))
  }

  ghost predicate KnownAlong(c: Config, s: State, acts: seq<Action>)
    decreases |acts|
  {
    acts == [] || (Known(s, acts[0]) && KnownAlong(c, Step(c, s, acts[0]), acts[1..]))
  }

  ghost predicate MintsApartAlong(c: Config, s: State, acts: seq<Action>)
    decreases |acts|
  {
    acts == [] || (MintsApart(c, s, acts[0]) && MintsApartAlong(c, Step(c, s, acts[0]), acts[1..]))
  }
}
