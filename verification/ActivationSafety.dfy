/** What holds over every run of the activation system: what is ever published, and what a return of the verb means. */
module ActivationSafety {
  import opened DepositTypes
  import J = ActivationJournal
  import R = ActivationJournalRuns
  import E = PortableInboxRuns
  import opened ActivationRuns

  // ---- Publication ----

  /** No runtime has, or is about to write, ACTIVE, and none is past publishing. */
  ghost predicate Unpublished(s: State) {
    && !DiskActive(s)
    && forall i :: 0 <= i < |s.runtimes| ==>
         !R.HasActive(View(s, i)) && !s.runtimes[i].commit.Republishing? && !s.runtimes[i].commit.Recording?
  }

  /** What is published, or about to be, is leased; and publishing runtimes record ACTIVE only after a bundle was out. */
  ghost predicate PubInv(c: Config, s: State) {
    && E.Inv(c.bootstrap, s.e) && |s.e.team| == |s.runtimes|
    && s.published <= s.e.d.leased
    && (forall i :: 0 <= i < |s.runtimes| && s.runtimes[i].commit.Publishing? ==> s.runtimes[i].commit.id in s.e.d.leased)
    && (forall i :: 0 <= i < |s.runtimes| && s.runtimes[i].fanout.FanPublishing? ==> s.runtimes[i].fanout.id in s.e.d.leased)
    && (c.enabled && s.published == {} ==> Unpublished(s))
  }

  lemma CalledIsACall(c: Config, s: State, i: nat)
    requires E.Inv(c.bootstrap, s.e) && i < |s.e.team|
    ensures E.Inv(c.bootstrap, E.Called(s.e, i)) && E.Called(s.e, i).d == s.e.d && |E.Called(s.e, i).team| == |s.e.team|
    ensures E.One(s.e) ==> E.One(E.Called(s.e, i))
  {
    E.StepInv(c.bootstrap, s.e, E.Call(i));
    if E.One(s.e) { E.StepOne(c.bootstrap, s.e, E.Call(i)); }
  }

  lemma EnterKeepsPub(c: Config, s: State, i: nat)
    requires PubInv(c, s) && i < |s.runtimes|
    ensures PubInv(c, EnterCommit(c, s, i))
  {
    CalledIsACall(c, s, i);
    hide E.Inv, E.Called, R.HasActive, J.Normalize;
    var s' := EnterCommit(c, s, i);
    assert forall k :: 0 <= k < |s.runtimes| ==> View(s', k) == View(s, k);
  }

  /** Journal calls publish nothing, and record ACTIVE only as `markActive`, which is called only after a publication. */
  lemma JournalKeepsPub(c: Config, s: State, i: nat, act: R.Act)
    requires PubInv(c, s) && i < |s.runtimes| && (act.Begin? && act.c.MarkActive? && c.enabled ==> s.published != {})
    ensures PubInv(c, Viewed(s, i, R.Step(View(s, i), act)))
  {
    var j := R.Step(View(s, i), act);
    var s' := Viewed(s, i, j);
    if c.enabled && s.published == {} {
      if R.HasActive(j) { R.ActiveIsMarked(View(s, i), act); }
      forall k | 0 <= k < |s.runtimes| ensures !R.HasActive(View(s', k)) {
        if k == i { assert View(s', i) == j; } else { assert !R.HasActive(View(s, k)); }
      }
      assert !DiskActive(s') by { assert R.Height(R.OnDisk(j)) != 3; }
    }
  }

  /** Runtime `i` is replaced by one with the same journal, further on in a way that is already justified. */
  lemma SetKeepsPub(c: Config, s: State, i: nat, x: Runtime)
    requires PubInv(c, s) && i < |s.runtimes|
    requires var y := s.runtimes[i]; x.memory == y.memory && x.hydrated == y.hydrated && x.ops == y.ops
    requires x.commit.Publishing? ==> x.commit.id in s.e.d.leased
    requires x.fanout.FanPublishing? ==> x.fanout.id in s.e.d.leased
    requires c.enabled && s.published == {} ==> !x.commit.Republishing? && !x.commit.Recording?
    ensures PubInv(c, Set(s, i, x))
  {
    hide E.Inv, R.HasActive, J.Normalize;
    assert forall k :: 0 <= k < |s.runtimes| ==> View(Set(s, i, x), k) == View(s, k);
  }

  lemma PublishKeepsPub(c: Config, s: State, io: Io, id: string)
    requires PubInv(c, s) && id in s.e.d.leased
    ensures PubInv(c, Publish(s, io, id))
  {
    hide E.Inv, R.HasActive, J.Normalize;
    assert forall k :: 0 <= k < |s.runtimes| ==> View(Publish(s, io, id), k) == View(s, k);
  }

  lemma CommitKeepsPub(c: Config, s: State, i: nat, io: Io, now: int)
    requires PubInv(c, s) && i < |s.runtimes|
    ensures PubInv(c, CommitNext(s, i, io, now))
  {
    PastPublishing(c, s, i);
    hide PubInv, R.Step;
    var x := s.runtimes[i];
    match x.commit
    case NoCommit =>
    case Establishing =>
    case Publishing(id) =>
      PublishKeepsPub(c, s, io, id);
      var x' := x.(commit := if io.Done? then Republishing else NoCommit);
      SetKeepsPub(c, Publish(s, io, id), i, x');
      assert Set(Publish(s, io, id), i, x') == Publish(Set(s, i, x'), io, id);
    case Republishing =>
      SetKeepsPub(c, s, i, x.(commit := if io.Done? then Recording else NoCommit));
    case Recording =>
      var t := Set(s, i, x.(commit := NoCommit));
      SetKeepsPub(c, s, i, x.(commit := NoCommit));
      JournalKeepsPub(c, t, i, R.Begin(J.MarkActive(now)));
  }

  lemma PastPublishing(c: Config, s: State, i: nat)
    requires PubInv(c, s) && i < |s.runtimes|
    ensures s.runtimes[i].commit.Republishing? || s.runtimes[i].commit.Recording? ==> !c.enabled || s.published != {}
    ensures s.runtimes[i].commit.Publishing? ==> s.runtimes[i].commit.id in s.e.d.leased
    ensures s.runtimes[i].fanout.FanPublishing? ==> s.runtimes[i].fanout.id in s.e.d.leased
  {
  }

  lemma FanoutKeepsPub(c: Config, s: State, i: nat, io: Io)
    requires PubInv(c, s) && i < |s.runtimes|
    ensures PubInv(c, FanoutNext(s, i, io))
  {
    PastPublishing(c, s, i);
    hide PubInv;
    var x := s.runtimes[i];
    if x.fanout.FanPublishing? {
      PublishKeepsPub(c, s, io, x.fanout.id);
      SetKeepsPub(c, Publish(s, io, x.fanout.id), i, x.(fanout := NoFanout));
    }
  }

  /** The establisher moves: what was leased stays leased. */
  lemma EstablisherKeepsPub(c: Config, s: State, a: E.Action)
    requires PubInv(c, s) && !a.Open? && !a.Kill?
    ensures PubInv(c, s.(e := E.Step(c.bootstrap, s.e, a)))
  {
    E.StepInv(c.bootstrap, s.e, a);
    TeamStays(c, s.e, a);
    hide E.Inv, E.Step, R.HasActive, J.Normalize;
    var s' := s.(e := E.Step(c.bootstrap, s.e, a));
    assert forall k :: 0 <= k < |s.runtimes| ==> View(s', k) == View(s, k);
  }

  lemma TeamStays(c: Config, e: E.State, a: E.Action)
    requires !a.Open? && !a.Kill?
    ensures |E.Step(c.bootstrap, e, a).team| == |e.team|
    ensures forall k :: 0 <= k < |e.team| && !(a.Go? && a.i == k) && !(a.Call? && a.i == k) ==>
      E.Step(c.bootstrap, e, a).team[k] == e.team[k]
  {
  }

  lemma FlightKeepsPub(c: Config, s: State, i: nat, a: E.Answer)
    requires PubInv(c, s) && i < |s.runtimes|
    ensures PubInv(c, FlightNext(c, s, i, a))
  {
    var e' := E.Step(c.bootstrap, s.e, E.Go(i, a));
    EstablisherKeepsPub(c, s, E.Go(i, a));
    if !s.e.team[i].flight.Idle? { E.SettledIsLeased(c.bootstrap, s.e, i, a); }
    var t := s.(e := e');
    assert E.Next(c.bootstrap, s.e, i, a) == e';
    TeamStays(c, s.e, E.Go(i, a));
    PastPublishing(c, t, i);
    hide PubInv, E.Next, E.Step;
    var x := s.runtimes[i];
    if !s.e.team[i].flight.Idle? && e'.team[i].flight.Idle? {
      SetKeepsPub(c, t, i, Deliver(x, e'.team[i].last));
      assert Set(t, i, Deliver(x, e'.team[i].last)) == FlightNext(c, s, i, a);
    } else {
      assert Set(t, i, x) == t;
      assert FlightNext(c, s, i, a) == t;
    }
  }

  lemma HandedIsFree(c: Config, s: State, handed: seq<Return>)
    requires PubInv(c, s)
    ensures PubInv(c, s.(handed := handed))
  {
    hide E.Inv, R.HasActive, J.Normalize;
    assert forall k :: 0 <= k < |s.runtimes| ==> View(s.(handed := handed), k) == View(s, k);
  }

  lemma VerbKeepsPub(c: Config, s: State, i: nat, io: Io)
    requires PubInv(c, s) && i < |s.runtimes|
    ensures PubInv(c, VerbNext(s, i, io))
  {
    PastPublishing(c, s, i);
    var s' := VerbNext(s, i, io);
    hide PubInv, J.Normalize;
    SetKeepsPub(c, s, i, s'.runtimes[i]);
    HandedIsFree(c, Set(s, i, s'.runtimes[i]), s'.handed);
    assert Set(s, i, s'.runtimes[i]).(handed := s'.handed) == s';
  }

  lemma PopulationKeepsPub(c: Config, s: State, a: Action)
    requires PubInv(c, s) && (a.Invoke? || a.Kill?)
    ensures PubInv(c, Step(c, s, a))
  {
    E.StepInv(c.bootstrap, s.e, if a.Invoke? then E.Open else E.Kill);
    hide E.Inv;
    var s' := Step(c, s, a);
    assert forall k :: 0 <= k < |s.runtimes| && a.Invoke? ==> View(s', k) == View(s, k);
  }

  lemma StepKeepsPub(c: Config, s: State, a: Action)
    requires PubInv(c, s)
    ensures PubInv(c, Step(c, s, a))
  {
    assert |s.e.team| == |s.runtimes|;
    if CallOf(c, s, a).Some? {
      assert a.Observes? ==> s.published != {};
      if !a.CommitStep? { JournalKeepsPub(c, s, a.i, R.Begin(CallOf(c, s, a).value)); }
    }
    hide PubInv, FlightNext, VerbNext, CommitNext, FanoutNext, R.Step, E.Step;
    match a
    case Invoke => PopulationKeepsPub(c, s, a);
    case Kill => PopulationKeepsPub(c, s, a);
    case VerbStep(i, io) => if i < |s.runtimes| { VerbKeepsPub(c, s, i, io); }
    case DeadlinePasses(i) =>
      if i < |s.runtimes| {
        PastPublishing(c, s, i);
        SetKeepsPub(c, s, i, s.runtimes[i].(verb := Stopping(false, false)));
      }
    case Completes(i, act) =>
      if i < |s.runtimes| && !act.Begin? && !act.Die? {
        JournalKeepsPub(c, s, i, act);
        EnterKeepsPub(c, Viewed(s, i, R.Step(View(s, i), act)), i);
      }
    case StartCommit(i) => if i < |s.runtimes| { EnterKeepsPub(c, s, i); }
    case CommitStep(i, io, now) => if i < |s.runtimes| { CommitKeepsPub(c, s, i, io, now); }
    case StartFanout(i) =>
      if i < |s.runtimes| {
        PastPublishing(c, s, i);
        SetKeepsPub(c, s, i, s.runtimes[i].(fanout := FanEstablishing));
        FanoutCalls(c, Set(s, i, s.runtimes[i].(fanout := FanEstablishing)), i);
      }
    case FanoutStep(i, io) => if i < |s.runtimes| { FanoutKeepsPub(c, s, i, io); }
    case FlightStep(i, b) => if i < |s.runtimes| { FlightKeepsPub(c, s, i, b); }
    case _ =>
  }

  lemma FanoutCalls(c: Config, s: State, i: nat)
    requires PubInv(c, s) && i < |s.runtimes|
    ensures PubInv(c, s.(e := E.Called(s.e, i)))
  {
    EstablisherKeepsPub(c, s, E.Call(i));
  }

  lemma {:induction false} RunKeepsPub(c: Config, s: State, acts: seq<Action>)
    requires PubInv(c, s)
    ensures PubInv(c, Run(c, s, acts))
    decreases |acts|
  {
    hide PubInv, Step;
    if acts != [] {
      StepKeepsPub(c, s, acts[0]);
      RunKeepsPub(c, Step(c, s, acts[0]), acts[1..]);
    }
  }

  /** However calls of the verb, kills, journal calls and establishments overlap, no bundle ever names an inbox the portable
      provider has not accepted; and publishing runtimes have ACTIVE on disk only once some bundle was out. */
  lemma OnlyALeasedInboxIsPublished(c: Config, acts: seq<Action>, id: string)
    ensures var s := Run(c, FRESH, acts);
      && (id in s.published ==> id in s.e.d.leased && id in s.e.recorded && c.bootstrap != Some(id))
      && (c.enabled && DiskActive(s) ==> s.published != {} && s.e.d.portable.Some?)
  {
    E.FreshIsAtRest(c.bootstrap);
    RunKeepsPub(c, FRESH, acts);
    var s := Run(c, FRESH, acts);
    if s.published != {} {
      var x :| x in s.published;
    }
  }

  lemma {:induction false} RunKeepsOne(c: Config, s: State, acts: seq<Action>)
    requires PubInv(c, s) && E.One(s.e) && MintsApartAlong(c, s, acts)
    ensures E.One(Run(c, s, acts).e)
    decreases |acts|
  {
    if acts != [] {
      StepKeepsPub(c, s, acts[0]);
      StepKeepsOne(c, s, acts[0]);
      hide PubInv, Step, E.One, MintsApart;
      RunKeepsOne(c, Step(c, s, acts[0]), acts[1..]);
    }
  }

  /** What an action does to the establishers, if anything. */
  function Establishes(c: Config, s: State, a: Action): Option<E.Action> {
    match a
    case Invoke => Some(E.Open)
    case Kill => Some(E.Kill)
    case FlightStep(i, b) => if Exists(s, i) then Some(E.Go(i, b)) else None
    case StartFanout(i) => if Exists(s, i) then Some(E.Call(i)) else None
    case StartCommit(i) => if Exists(s, i) then Some(E.Call(i)) else None
    case Completes(i, _) => if Exists(s, i) then Some(E.Call(i)) else None
    case _ => None
  }

  lemma StepEstablishes(c: Config, s: State, a: Action)
    ensures || Step(c, s, a).e == s.e
            || (Establishes(c, s, a).Some? && Step(c, s, a).e == E.Step(c.bootstrap, s.e, Establishes(c, s, a).value))
  {
    hide E.Next, R.Step, J.Normalize;
  }

  lemma StepKeepsOne(c: Config, s: State, a: Action)
    requires E.Inv(c.bootstrap, s.e) && E.One(s.e) && MintsApart(c, s, a)
    ensures E.One(Step(c, s, a).e)
    ensures s.e.d.portable.Some? ==> Step(c, s, a).e.d.portable == s.e.d.portable
  {
    StepEstablishes(c, s, a);
    if Establishes(c, s, a).Some? {
      hide Step, E.Step, E.One, E.Inv;
      E.StepOne(c.bootstrap, s.e, Establishes(c, s, a).value);
    }
  }

  /** While no two empty reads of the portable primary overlap, that inbox is the portable primary. */
  lemma OnlyThePortableInboxIsPublished(c: Config, acts: seq<Action>, id: string)
    requires MintsApartAlong(c, FRESH, acts)
    ensures var s := Run(c, FRESH, acts);
      && (id in s.published ==> s.e.d.portable == Some(id))
      && (c.enabled && DiskActive(s) ==> s.e.d.portable.Some? && s.e.d.portable.value in s.published)
  {
    E.FreshIsAtRest(c.bootstrap);
    RunKeepsPub(c, FRESH, acts);
    RunKeepsOne(c, FRESH, acts);
    var s := Run(c, FRESH, acts);
    if s.published != {} {
      var x :| x in s.published;
    }
  }

  // ---- What a return means ----

  /** The last status said ACTIVE. */
  predicate SawActive(v: Verb) {
    (v.Stopping? && v.active) || v.ReadingInbox?
  }

  ghost predicate LastOk(s: State, i: nat)
    requires i < |s.runtimes|
  {
    && R.NotAhead(View(s, i))
    && (SawActive(s.runtimes[i].verb) ==> R.Height(R.KindOf(s.runtimes[i].memory)) == 3)
  }

  /** Only the last call of the verb does anything, its memory is not ahead of the disk, and what was handed out was
      handed out over an ACTIVE disk. */
  ghost predicate ReturnInv(c: Config, s: State) {
    && E.Inv(c.bootstrap, s.e) && E.One(s.e) && |s.e.team| == |s.runtimes|
    && (forall i :: 0 <= i < |s.runtimes| - 1 ==> Over(s, i))
    && (s.runtimes != [] ==> LastOk(s, |s.runtimes| - 1))
    && (forall r :: r in s.handed ==> r.diskActive && s.e.d.portable == Some(r.id))
  }

  /** Which call of the verb an action belongs to. */
  function Of(a: Action): Option<nat> {
    if a.Invoke? || a.Kill? then None else Some(a.i)
  }

  /** Nothing happens in a call that is over. */
  lemma OverIsOver(c: Config, s: State, a: Action)
    requires Of(a).Some? && Over(s, a.i)
    ensures Step(c, s, a) == s
  {
    var i := a.i;
    assert Set(s, i, s.runtimes[i]) == s;
    if a.Completes? { assert R.Step(View(s, i), a.act) == View(s, i) || a.act.Begin? || a.act.Die?; }
  }

  lemma JournalKeepsReturn(c: Config, s: State, i: nat, act: R.Act)
    requires ReturnInv(c, s) && i == |s.runtimes| - 1 && !R.Conflict(View(s, i), act) && !act.Die?
    ensures ReturnInv(c, Viewed(s, i, R.Step(View(s, i), act)))
  {
    R.StepNotAhead(View(s, i), act);
    R.MemoryGrows(View(s, i), act);
    hide E.Inv, E.One, R.Step, R.NotAhead, R.Conflict, J.Normalize;
    var j := R.Step(View(s, i), act);
    var s' := Viewed(s, i, j);
    assert View(s', i) == j;
    assert forall k :: 0 <= k < i ==> Over(s, k) && s'.runtimes[k] == s.runtimes[k];
  }

  lemma SetKeepsReturn(c: Config, s: State, i: nat, x: Runtime)
    requires ReturnInv(c, s) && i == |s.runtimes| - 1
    requires var y := s.runtimes[i]; x.memory == y.memory && x.hydrated == y.hydrated && x.ops == y.ops
    requires SawActive(x.verb) ==> R.Height(R.KindOf(x.memory)) == 3
    ensures ReturnInv(c, Set(s, i, x))
  {
    hide E.Inv, E.One, R.NotAhead, J.Normalize;
    assert View(Set(s, i, x), i) == View(s, i);
    assert forall k :: 0 <= k < i ==> Over(s, k) && Set(s, i, x).runtimes[k] == s.runtimes[k];
  }

  lemma HandKeepsReturn(c: Config, s: State, i: nat, id: string)
    requires ReturnInv(c, s) && i == |s.runtimes| - 1 && DiskActive(s) && s.e.d.portable == Some(id)
    ensures ReturnInv(c, Hand(s, i, id))
  {
    var x := s.runtimes[i].(verb := NotRunning);
    SetKeepsReturn(c, s, i, x);
    hide E.Inv, E.One, R.NotAhead, J.Normalize;
    var t := Set(s, i, x);
    assert View(Hand(s, i, id), i) == View(t, i);
    assert forall k :: 0 <= k < i ==> Over(t, k) && Hand(s, i, id).runtimes[k] == t.runtimes[k];
  }

  lemma SawActiveMeansDiskActive(c: Config, s: State, i: nat)
    requires ReturnInv(c, s) && i == |s.runtimes| - 1
    ensures R.Height(R.KindOf(s.runtimes[i].memory)) == 3 ==> DiskActive(s)
    ensures SawActive(s.runtimes[i].verb) ==> R.Height(R.KindOf(s.runtimes[i].memory)) == 3
    ensures s.runtimes[i].hydrated || s.runtimes[i].memory.None?
  {
  }

  lemma VerbKeepsReturn(c: Config, s: State, i: nat, io: Io)
    requires ReturnInv(c, s) && i == |s.runtimes| - 1 && i < |s.e.team| && Known(s, VerbStep(i, io))
    ensures ReturnInv(c, VerbNext(s, i, io))
  {
    SawActiveMeansDiskActive(c, s, i);
    hide ReturnInv, J.Normalize, DiskActive;
    var s' := VerbNext(s, i, io);
    if s'.handed != s.handed {
      HandKeepsReturn(c, s, i, s.e.d.portable.value);
    } else if s' != s {
      SetKeepsReturn(c, s, i, s'.runtimes[i]);
    }
  }

  /** The establisher of the last call moves. */
  lemma EstablisherKeepsReturn(c: Config, s: State, a: E.Action)
    requires ReturnInv(c, s) && (a.Call? || a.Go?) && a.i == |s.runtimes| - 1
    ensures ReturnInv(c, s.(e := E.Step(c.bootstrap, s.e, a)))
  {
    E.StepInv(c.bootstrap, s.e, a);
    AloneMintsApart(c, s, a);
    E.StepOne(c.bootstrap, s.e, a);
    TeamStays(c, s.e, a);
    hide E.Inv, E.One, E.Step, R.NotAhead, J.Normalize;
    var s' := s.(e := E.Step(c.bootstrap, s.e, a));
    assert View(s', a.i) == View(s, a.i);
    forall k | 0 <= k < a.i ensures Over(s', k) {
      assert Over(s, k) && s'.e.team[k] == s.e.team[k] && s'.runtimes[k] == s.runtimes[k];
    }
  }

  lemma AloneMintsApart(c: Config, s: State, a: E.Action)
    requires ReturnInv(c, s) && (a.Go? ==> a.i == |s.runtimes| - 1)
    ensures !E.Overlaps(c.bootstrap, s.e, a)
  {
    forall k | 0 <= k < |s.e.team|
      ensures a.Go? && a.i < |s.e.team| && s.e.team[a.i].flight.ReadingPortable? ==> !E.Minting(s.e.team[k].flight)
    {
      if k < |s.runtimes| - 1 { assert Over(s, k); }
    }
  }

  lemma EnterKeepsReturn(c: Config, s: State, i: nat)
    requires ReturnInv(c, s) && i == |s.runtimes| - 1 && i < |s.e.team|
    ensures ReturnInv(c, EnterCommit(c, s, i))
  {
    var x := s.runtimes[i];
    SawActiveMeansDiskActive(c, s, i);
    hide ReturnInv;
    if x.commit.NoCommit? {
      var y := x.(commit := if c.enabled then Establishing else Republishing);
      SetKeepsReturn(c, s, i, y);
      if c.enabled { EstablisherKeepsReturn(c, Set(s, i, y), E.Call(i)); }
    }
  }

  lemma CommitKeepsReturn(c: Config, s: State, i: nat, io: Io, now: int)
    requires ReturnInv(c, s) && i == |s.runtimes| - 1 && i < |s.e.team| && Orderly(c, s, CommitStep(i, io, now))
    ensures ReturnInv(c, CommitNext(s, i, io, now))
  {
    SawActiveMeansDiskActive(c, s, i);
    var x := s.runtimes[i];
    hide ReturnInv, R.Step, J.Normalize;
    match x.commit
    case NoCommit =>
    case Establishing =>
    case Publishing(id) =>
      var y := x.(commit := if io.Done? then Republishing else NoCommit);
      SetKeepsReturn(c, s, i, y);
      PublishedIsFree(c, Set(s, i, y), io, id);
    case Republishing => SetKeepsReturn(c, s, i, x.(commit := if io.Done? then Recording else NoCommit));
    case Recording =>
      var t := Set(s, i, x.(commit := NoCommit));
      SetKeepsReturn(c, s, i, x.(commit := NoCommit));
      assert View(t, i) == View(s, i);
      JournalKeepsReturn(c, t, i, R.Begin(J.MarkActive(now)));
  }

  lemma PublishedIsFree(c: Config, s: State, io: Io, id: string)
    requires ReturnInv(c, s)
    ensures ReturnInv(c, Publish(s, io, id))
  {
    hide E.Inv, E.One, R.NotAhead, J.Normalize;
    var s' := Publish(s, io, id);
    assert s.runtimes != [] ==> View(s', |s.runtimes| - 1) == View(s, |s.runtimes| - 1);
    assert forall k :: 0 <= k < |s.runtimes| - 1 ==> Over(s, k) && s'.runtimes[k] == s.runtimes[k];
  }

  lemma FanoutKeepsReturn(c: Config, s: State, i: nat, io: Io)
    requires ReturnInv(c, s) && i == |s.runtimes| - 1
    ensures ReturnInv(c, FanoutNext(s, i, io))
  {
    SawActiveMeansDiskActive(c, s, i);
    var x := s.runtimes[i];
    hide ReturnInv, J.Normalize;
    if x.fanout.FanPublishing? {
      SetKeepsReturn(c, s, i, x.(fanout := NoFanout));
      PublishedIsFree(c, Set(s, i, x.(fanout := NoFanout)), io, x.fanout.id);
    }
  }

  lemma FlightKeepsReturn(c: Config, s: State, i: nat, a: E.Answer)
    requires ReturnInv(c, s) && i == |s.runtimes| - 1 && i < |s.e.team|
    ensures ReturnInv(c, FlightNext(c, s, i, a))
  {
    EstablisherKeepsReturn(c, s, E.Go(i, a));
    var e' := E.Step(c.bootstrap, s.e, E.Go(i, a));
    var t, s' := s.(e := e'), FlightNext(c, s, i, a);
    SawActiveMeansDiskActive(c, s, i);
    hide ReturnInv, E.Step;
    SetKeepsReturn(c, t, i, s'.runtimes[i]);
    assert s' == Set(t, i, s'.runtimes[i]);
  }

  lemma PopulationKeepsReturn(c: Config, s: State, a: Action)
    requires ReturnInv(c, s) && (a.Invoke? || a.Kill?) && Orderly(c, s, a)
    ensures ReturnInv(c, Step(c, s, a))
  {
    var b := if a.Invoke? then E.Open else E.Kill;
    E.StepInv(c.bootstrap, s.e, b);
    E.StepOne(c.bootstrap, s.e, b);
    hide E.Inv, E.One;
    var s' := Step(c, s, a);
    if a.Invoke? {
      assert forall k :: 0 <= k < |s.runtimes| ==> Over(s, k) && s'.runtimes[k] == s.runtimes[k] && s'.e.team[k] == s.e.team[k];
    }
  }

  /** An orderly action of the last call with a record behind its status. */
  lemma LastKeepsReturn(c: Config, s: State, a: Action)
    requires ReturnInv(c, s) && Of(a) == Some(|s.runtimes| - 1) && Orderly(c, s, a) && Known(s, a)
    ensures ReturnInv(c, Step(c, s, a))
  {
    var i := a.i;
    assert i < |s.e.team|;
    SawActiveMeansDiskActive(c, s, i);
    if CallOf(c, s, a).Some? && !a.CommitStep? { JournalKeepsReturn(c, s, i, R.Begin(CallOf(c, s, a).value)); }
    hide ReturnInv, FlightNext, VerbNext, CommitNext, FanoutNext, R.Step, E.Step, R.Conflict, Orderly;
    match a
    case VerbStep(_, io) => VerbKeepsReturn(c, s, i, io);
    case DeadlinePasses(_) => SetKeepsReturn(c, s, i, s.runtimes[i].(verb := Stopping(false, false)));
    case Completes(_, act) =>
      if !act.Begin? && !act.Die? {
        CompletionsDoNotConflict(s, i, act);
        JournalKeepsReturn(c, s, i, act);
        EnterKeepsReturn(c, Viewed(s, i, R.Step(View(s, i), act)), i);
      }
    case StartCommit(_) => EnterKeepsReturn(c, s, i);
    case CommitStep(_, io, now) => CommitKeepsReturn(c, s, i, io, now);
    case StartFanout(_) =>
      SetKeepsReturn(c, s, i, s.runtimes[i].(fanout := FanEstablishing));
      FanoutCallsReturn(c, Set(s, i, s.runtimes[i].(fanout := FanEstablishing)), i);
    case FanoutStep(_, io) => FanoutKeepsReturn(c, s, i, io);
    case FlightStep(_, b) => FlightKeepsReturn(c, s, i, b);
    case _ =>
  }

  lemma CompletionsDoNotConflict(s: State, i: nat, act: R.Act)
    requires i < |s.runtimes| && !act.Begin?
    ensures !R.Conflict(View(s, i), act)
  {
  }

  lemma FanoutCallsReturn(c: Config, s: State, i: nat)
    requires ReturnInv(c, s) && i == |s.runtimes| - 1 && i < |s.e.team|
    ensures ReturnInv(c, s.(e := E.Called(s.e, i)))
  {
    EstablisherKeepsReturn(c, s, E.Call(i));
  }

  lemma StepKeepsReturn(c: Config, s: State, a: Action)
    requires ReturnInv(c, s) && Orderly(c, s, a) && Known(s, a)
    ensures ReturnInv(c, Step(c, s, a))
  {
    if Of(a).None? {
      PopulationKeepsReturn(c, s, a);
    } else if a.i + 1 == |s.runtimes| {
      LastKeepsReturn(c, s, a);
    } else if a.i < |s.runtimes| {
      assert Over(s, a.i);
      OverIsOver(c, s, a);
    }
  }

  lemma {:induction false} RunKeepsReturn(c: Config, s: State, acts: seq<Action>)
    requires ReturnInv(c, s) && OrderlyAlong(c, s, acts) && KnownAlong(c, s, acts)
    ensures ReturnInv(c, Run(c, s, acts))
    decreases |acts|
  {
    hide ReturnInv, Step, Orderly, Known;
    if acts != [] {
      StepKeepsReturn(c, s, acts[0]);
      RunKeepsReturn(c, Step(c, s, acts[0]), acts[1..]);
    }
  }

  /** Over any kills and reruns in which the verb is called only once an earlier call has nothing in flight, no journal
      calls of different kinds overlap and no status is answered without a record: every normal return hands out the
      portable primary over an ACTIVE journal, and it is the portable primary ever after. */
  lemma ReturnMeansActive(c: Config, acts: seq<Action>, r: Return)
    requires OrderlyAlong(c, FRESH, acts) && KnownAlong(c, FRESH, acts)
    requires r in Run(c, FRESH, acts).handed
    ensures r.diskActive && Run(c, FRESH, acts).e.d.portable == Some(r.id)
  {
    E.FreshIsAtRest(c.bootstrap);
    RunKeepsReturn(c, FRESH, acts);
  }
}
