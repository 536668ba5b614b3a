/** Establishing the portable inbox as a step system: any number of establishers over one storage, each sharing its one
    flight among any number of callers; kills at every await, reruns, torn writes, and a provider that may accept a claim
    without being heard. */
module PortableInboxRuns {
  import opened DepositTypes

  datatype Durable = Durable(
    claims: set<string>, leases: map<string, int>, portable: Option<string>,
    leased: set<string>)     // at the portable provider

  /** The one in-flight establishment of an establisher, by the await it is suspended at. */
  datatype Flight =
    | Idle
    | Hydrating
    | ReadingPortable
    | Persisting(id: string)
    | Recording(id: string)       // the portable primary
    | Connecting(id: string)
    | Claiming(id: string)
    | Leasing(id: string)         // the accepted lease goes on record
    | Closing(id: string, ok: bool)

  /** `waiting` callers share the flight; `last` is what the last settled one gave them. */
  datatype Establisher = Establisher(flight: Flight, waiting: nat, last: Option<string>)

  datatype State = State(
    d: Durable,
    team: seq<Establisher>,
    returned: set<string>,      // ids any call has ever returned
    minted: set<string>,        // ids of all claims ever minted or held
    recorded: set<string>)      // ids that were ever the portable primary

  datatype Answer = Answer(io: Io, now: int, key: string, expiresAtMs: int)

  datatype Action =
    | Open                       // another establisher, the older ones living on
    | Call(i: nat)
    | Go(i: nat, a: Answer)
    | Kill                       // the process dies, with all of them

  function Moved(s: State, i: nat, f: Flight): State
    requires i < |s.team|
  {
    s.(team := s.team[i := s.team[i].(flight := f)])
  }

  function Settle(s: State, i: nat, id: Option<string>): State
    requires i < |s.team|
  {
    s.(team := s.team[i := Establisher(Idle, 0, id)],
       returned := if id.Some? && s.team[i].waiting > 0 then s.returned + {id.value} else s.returned)
  }

  /** The checks between naming the inbox and using the network. */
  function Proceed(bootstrap: Option<string>, s: State, i: nat, now: int, id: string): State
    requires i < |s.team|
  {
    if bootstrap == Some(id) then Settle(s, i, None)
    else if id in s.d.leases && now < s.d.leases[id] then Settle(s, i, Some(id))
    else Moved(s, i, Connecting(id))
  }

  /** A random claimant key: its inbox is none that was ever minted or held, nor the bootstrap inbox. */
  predicate Fresh(bootstrap: Option<string>, s: State, id: string) {
    id !in s.minted && bootstrap != Some(id)
  }

  function ReadPortable(bootstrap: Option<string>, s: State, i: nat, a: Answer): State
    requires i < |s.team|
  {
    if !a.io.Done? then Settle(s, i, None)
    else if s.d.portable.None? then
      if Fresh(bootstrap, s, a.key) then Moved(s, i, Persisting(a.key)).(minted := s.minted + {a.key}) else s
    else if s.d.portable.value !in s.d.claims then Settle(s, i, None)
    else Proceed(bootstrap, s, i, a.now, s.d.portable.value)
  }

  function Persist(s: State, i: nat, a: Answer, id: string): State
    requires i < |s.team|
  {
    var s' := s.(d := s.d.(claims := Written(a.io, s.d.claims, s.d.claims + {id})));
    if a.io.Done? then Moved(s', i, Recording(id)) else Settle(s', i, None)
  }

  function Record(bootstrap: Option<string>, s: State, i: nat, a: Answer, id: string): State
    requires i < |s.team|
  {
    var s' := if a.io.Lost? then s else s.(d := s.d.(portable := Some(id)), recorded := s.recorded + {id});
    if a.io.Done? then Proceed(bootstrap, s', i, a.now, id) else Settle(s', i, None)
  }

  function Claim(s: State, i: nat, a: Answer, id: string): State
    requires i < |s.team|
  {
    var s' := s.(d := s.d.(leased := Written(a.io, s.d.leased, s.d.leased + {id})));
    Moved(s', i, if a.io.Done? then Leasing(id) else Closing(id, false))
  }

  function Lease(s: State, i: nat, a: Answer, id: string): State
    requires i < |s.team|
  {
    Moved(s.(d := s.d.(leases := Written(a.io, s.d.leases, s.d.leases[id := a.expiresAtMs]))), i, Closing(id, true))
  }

  function Next(bootstrap: Option<string>, s: State, i: nat, a: Answer): State
    requires i < |s.team|
  {
    match s.team[i].flight
    case Idle => s
    case Hydrating => if a.io.Done? then Moved(s, i, ReadingPortable) else Settle(s, i, None)
    case ReadingPortable => ReadPortable(bootstrap, s, i, a)
    case Persisting(id) => Persist(s, i, a, id)
    case Recording(id) => Record(bootstrap, s, i, a, id)
    case Connecting(id) => Moved(s, i, if a.io.Done? then Claiming(id) else Closing(id, false))
    case Claiming(id) => Claim(s, i, a, id)
    case Leasing(id) => Lease(s, i, a, id)
    case Closing(id, ok) => Settle(s, i, if ok then Some(id) else None)
  }

  function Called(s: State, i: nat): State
    requires i < |s.team|
  {
    var e := s.team[i];
    s.(team := s.team[i := e.(flight := if e.flight.Idle? then Hydrating else e.flight, waiting := e.waiting + 1)])
  }

  function Step(bootstrap: Option<string>, s: State, a: Action): State {
    match a
    case Open => s.(team := s.team + [Establisher(Idle, 0, None)])
    case Call(i) => if i < |s.team| then Called(s, i) else s
    case Go(i, b) => if i < |s.team| then Next(bootstrap, s, i, b) else s
    case Kill => s.(team := [])
  }

  function Run(bootstrap: Option<string>, s: State, acts: seq<Action>): State
    decreases |acts|
  {
    if acts == [] then s else Run(bootstrap, Step(bootstrap, s, acts[0]), acts[1..])
  }

  // ---- The condition on actions ----

  /** Between the read that found no portable primary and the write that records one. */
  predicate Minting(f: Flight) {
    f.Persisting? || f.Recording?
  }

  /** An establisher finds no portable primary and mints while another is between its own empty read and its write. */
  predicate Overlaps(bootstrap: Option<string>, s: State, a: Action) {
    && a.Go? && a.i < |s.team| && s.team[a.i].flight.ReadingPortable? && a.a.io.Done? && s.d.portable.None?
    && Fresh(bootstrap, s, a.a.key)
    && exists k :: 0 <= k < |s.team| && Minting(s.team[k].flight)
  }

  ghost predicate Apart(bootstrap: Option<string>, s: State, acts: seq<Action>)
    decreases |acts|
  {
    acts == [] || (!Overlaps(bootstrap, s, acts[0]) && Apart(bootstrap, Step(bootstrap, s, acts[0]), acts[1..]))
  }

  // ---- The invariants ----

  predicate Usable(bootstrap: Option<string>, s: State, id: string) {
    id in s.recorded && id in s.d.claims && bootstrap != Some(id)
  }

  ghost predicate FlightOk(bootstrap: Option<string>, s: State, f: Flight) {
    match f
    case Persisting(id) => id in s.minted && id !in s.recorded && bootstrap != Some(id)
    case Recording(id) => id in s.minted && id !in s.recorded && bootstrap != Some(id) && id in s.d.claims
    case Connecting(id) => Usable(bootstrap, s, id)
    case Claiming(id) => Usable(bootstrap, s, id)
    case Leasing(id) => Usable(bootstrap, s, id) && id in s.d.leased
    case Closing(id, ok) => Usable(bootstrap, s, id) && (ok ==> id in s.d.leased)
    case _ => true
  }

  /** What holds however many establishers there are: only a recorded inbox is ever leased, put on record or returned. */
  ghost predicate Inv(bootstrap: Option<string>, s: State) {
    && (forall i :: 0 <= i < |s.team| ==> FlightOk(bootstrap, s, s.team[i].flight))
    && (forall i, k :: 0 <= i < k < |s.team| && Minting(s.team[i].flight) && Minting(s.team[k].flight) ==>
          s.team[i].flight.id != s.team[k].flight.id)
    && s.recorded <= s.minted && s.d.claims <= s.minted
    && (s.d.portable.None? <==> s.recorded == {})
    && (s.d.portable.Some? ==> s.d.portable.value in s.recorded)
    && (forall id :: id in s.d.leased ==> Usable(bootstrap, s, id))
    && s.returned <= s.d.leased && s.d.leases.Keys <= s.d.leased
  }

  /** What holds as well while no empty reads have overlapped: one minter at most, and one inbox. */
  ghost predicate One(s: State) {
    && (forall i, k :: 0 <= i < k < |s.team| ==> !Minting(s.team[i].flight) || !Minting(s.team[k].flight))
    && (forall i :: 0 <= i < |s.team| && Minting(s.team[i].flight) ==> s.d.portable.None?)
    && (forall id :: id in s.recorded ==> s.d.portable == Some(id))
  }

  /** Establisher `i` goes on to `f`; what was minted, recorded, claimed and leased only grows. */
  ghost predicate Grows(s: State, s': State) {
    && s.minted <= s'.minted && s.recorded <= s'.recorded && s.d.claims <= s'.d.claims && s.d.leased <= s'.d.leased
    && s.returned <= s'.returned
  }

  lemma ReadInv(bootstrap: Option<string>, s: State, i: nat, a: Answer)
    requires Inv(bootstrap, s) && i < |s.team| && s.team[i].flight.ReadingPortable?
    ensures Inv(bootstrap, ReadPortable(bootstrap, s, i, a)) && Grows(s, ReadPortable(bootstrap, s, i, a))
  {
  }

  lemma PersistInv(bootstrap: Option<string>, s: State, i: nat, a: Answer, id: string)
    requires Inv(bootstrap, s) && i < |s.team| && s.team[i].flight == Persisting(id)
    ensures Inv(bootstrap, Persist(s, i, a, id)) && Grows(s, Persist(s, i, a, id))
  {
  }

  lemma RecordInv(bootstrap: Option<string>, s: State, i: nat, a: Answer, id: string)
    requires Inv(bootstrap, s) && i < |s.team| && s.team[i].flight == Recording(id)
    ensures Inv(bootstrap, Record(bootstrap, s, i, a, id)) && Grows(s, Record(bootstrap, s, i, a, id))
  {
  }

  lemma ClaimInv(bootstrap: Option<string>, s: State, i: nat, a: Answer, id: string)
    requires Inv(bootstrap, s) && i < |s.team| && s.team[i].flight == Claiming(id)
    ensures Inv(bootstrap, Claim(s, i, a, id)) && Grows(s, Claim(s, i, a, id))
  {
  }

  lemma LeaseInv(bootstrap: Option<string>, s: State, i: nat, a: Answer, id: string)
    requires Inv(bootstrap, s) && i < |s.team| && s.team[i].flight == Leasing(id)
    ensures Inv(bootstrap, Lease(s, i, a, id)) && Grows(s, Lease(s, i, a, id))
  {
  }

  lemma RestInv(bootstrap: Option<string>, s: State, i: nat, a: Answer)
    requires Inv(bootstrap, s) && i < |s.team|
    requires s.team[i].flight.Idle? || s.team[i].flight.Hydrating? || s.team[i].flight.Connecting? || s.team[i].flight.Closing?
    ensures Inv(bootstrap, Next(bootstrap, s, i, a)) && Grows(s, Next(bootstrap, s, i, a))
  {
  }

  lemma StepInv(bootstrap: Option<string>, s: State, a: Action)
    requires Inv(bootstrap, s)
    ensures Inv(bootstrap, Step(bootstrap, s, a)) && Grows(s, Step(bootstrap, s, a))
  {
    hide ReadPortable, Persist, Record, Claim, Lease;
    if a.Go? && a.i < |s.team| {
      match s.team[a.i].flight
      case ReadingPortable => ReadInv(bootstrap, s, a.i, a.a);
      case Persisting(id) => PersistInv(bootstrap, s, a.i, a.a, id);
      case Recording(id) => RecordInv(bootstrap, s, a.i, a.a, id);
      case Claiming(id) => ClaimInv(bootstrap, s, a.i, a.a, id);
      case Leasing(id) => LeaseInv(bootstrap, s, a.i, a.a, id);
      case _ => RestInv(bootstrap, s, a.i, a.a);
    }
  }

  lemma OverlapSplits(bootstrap: Option<string>, s: State, a: Action)
    requires Inv(bootstrap, s) && Overlaps(bootstrap, s, a)
    ensures !One(Step(bootstrap, s, a))
  {
    var s' := Step(bootstrap, s, a);
    var k :| 0 <= k < |s.team| && Minting(s.team[k].flight);
    assert s'.team[k] == s.team[k] && Minting(s'.team[a.i].flight);
  }

  lemma ReadOne(bootstrap: Option<string>, s: State, i: nat, a: Answer)
    requires Inv(bootstrap, s) && One(s) && i < |s.team| && s.team[i].flight.ReadingPortable? && !Overlaps(bootstrap, s, Go(i, a))
    ensures One(ReadPortable(bootstrap, s, i, a)) && ReadPortable(bootstrap, s, i, a).d.portable == s.d.portable
  {
  }

  lemma RecordOne(bootstrap: Option<string>, s: State, i: nat, a: Answer, id: string)
    requires Inv(bootstrap, s) && One(s) && i < |s.team| && s.team[i].flight == Recording(id)
    ensures One(Record(bootstrap, s, i, a, id)) && s.d.portable.None?
  {
  }

  lemma RestOne(bootstrap: Option<string>, s: State, i: nat, a: Answer)
    requires Inv(bootstrap, s) && One(s) && i < |s.team| && !s.team[i].flight.ReadingPortable? && !s.team[i].flight.Recording?
    ensures One(Next(bootstrap, s, i, a)) && Next(bootstrap, s, i, a).d.portable == s.d.portable
  {
  }

  /** One action keeps the inbox one if and only if it is not an overlapping empty read. */
  lemma StepOne(bootstrap: Option<string>, s: State, a: Action)
    requires Inv(bootstrap, s) && One(s)
    ensures One(Step(bootstrap, s, a)) <==> !Overlaps(bootstrap, s, a)
    ensures !Overlaps(bootstrap, s, a) && s.d.portable.Some? ==> Step(bootstrap, s, a).d.portable == s.d.portable
  {
    if Overlaps(bootstrap, s, a) {
      OverlapSplits(bootstrap, s, a);
    } else if a.Go? && a.i < |s.team| {
      hide Inv, One, Overlaps, ReadPortable, Record;
      match s.team[a.i].flight
      case ReadingPortable => ReadOne(bootstrap, s, a.i, a.a);
      case Recording(id) => RecordOne(bootstrap, s, a.i, a.a, id);
      case _ => RestOne(bootstrap, s, a.i, a.a);
    }
  }

  // ---- Whole runs ----

  /** Storage as some earlier processes left it, with nothing running. */
  ghost predicate AtRest(bootstrap: Option<string>, s: State) {
    s.team == [] && Inv(bootstrap, s) && One(s)
  }

  const FRESH := State(Durable({}, map[], None, {}), [], {}, {}, {})

  lemma FreshIsAtRest(bootstrap: Option<string>)
    ensures AtRest(bootstrap, FRESH)
  {
  }

  lemma {:induction false} RunInv(bootstrap: Option<string>, s: State, acts: seq<Action>)
    requires Inv(bootstrap, s)
    ensures Inv(bootstrap, Run(bootstrap, s, acts)) && Grows(s, Run(bootstrap, s, acts))
    decreases |acts|
  {
    hide Step, Inv;
    if acts != [] {
      StepInv(bootstrap, s, acts[0]);
      RunInv(bootstrap, Step(bootstrap, s, acts[0]), acts[1..]);
    }
  }

  lemma {:induction false} RunOne(bootstrap: Option<string>, s: State, acts: seq<Action>)
    requires Inv(bootstrap, s) && One(s) && Apart(bootstrap, s, acts)
    ensures One(Run(bootstrap, s, acts))
    ensures s.d.portable.Some? ==> Run(bootstrap, s, acts).d.portable == s.d.portable
    decreases |acts|
  {
    hide Step, Inv, One, Overlaps;
    if acts != [] {
      StepInv(bootstrap, s, acts[0]);
      StepOne(bootstrap, s, acts[0]);
      RunOne(bootstrap, Step(bootstrap, s, acts[0]), acts[1..]);
    }
  }

  lemma {:induction false} RunConcat(bootstrap: Option<string>, s: State, xs: seq<Action>, ys: seq<Action>)
    ensures Run(bootstrap, s, xs + ys) == Run(bootstrap, Run(bootstrap, s, xs), ys)
    ensures Apart(bootstrap, s, xs + ys) <==> Apart(bootstrap, s, xs) && Apart(bootstrap, Run(bootstrap, s, xs), ys)
    decreases |xs|
  {
    hide Step, Overlaps;
    if xs == [] {
      assert xs + ys == ys;
    } else {
      assert (xs + ys)[1..] == xs[1..] + ys;
      RunConcat(bootstrap, Step(bootstrap, s, xs[0]), xs[1..], ys);
    }
  }

  /** A flight that settles with an inbox settles with a leased one. */
  lemma SettledIsLeased(bootstrap: Option<string>, s: State, i: nat, a: Answer)
    requires Inv(bootstrap, s) && i < |s.team| && !s.team[i].flight.Idle?
    ensures var e := Next(bootstrap, s, i, a).team[i];
      e.flight.Idle? && e.last.Some? ==> e.last.value in Next(bootstrap, s, i, a).d.leased
  {
  }

  predicate Served(s: State, id: string) {
    id in s.d.leased || id in s.d.leases || id in s.returned
  }

  // ---- Main results ----

  /** Whatever overlaps: a claim that was never recorded as the portable primary is never leased, never put on record as
      leased and never returned; nor is the bootstrap inbox. */
  lemma OrphansStayInvisible(bootstrap: Option<string>, s: State, acts: seq<Action>, id: string)
    requires AtRest(bootstrap, s)
    ensures var s' := Run(bootstrap, s, acts); Served(s', id) ==> id in s'.recorded && id in s'.d.claims && bootstrap != Some(id)
  {
    RunInv(bootstrap, s, acts);
  }

  /** Over any establishers, callers, kills and reruns among which no two empty reads overlap, everything leased, on
      record or returned is the one portable primary. */
  lemma OneInboxForEver(bootstrap: Option<string>, s: State, acts: seq<Action>, id: string)
    requires AtRest(bootstrap, s) && Apart(bootstrap, s, acts)
    ensures var s' := Run(bootstrap, s, acts);
      Served(s', id) ==> s'.d.portable == Some(id) && id in s'.d.claims && id in s'.d.leased && bootstrap != Some(id)
  {
    RunInv(bootstrap, s, acts);
    RunOne(bootstrap, s, acts);
  }

  /** And it outlives every later such run: what was returned before is what is returned after. */
  lemma PortableIsWrittenOnce(bootstrap: Option<string>, s: State, before: seq<Action>, after: seq<Action>, id: string, id': string)
    requires AtRest(bootstrap, s) && Apart(bootstrap, s, before + after)
    requires id in Run(bootstrap, s, before).returned && id' in Run(bootstrap, s, before + after).returned
    ensures id == id'
  {
    RunConcat(bootstrap, s, before, after);
    OneInboxForEver(bootstrap, s, before, id);
    OneInboxForEver(bootstrap, s, before + after, id');
    RunInv(bootstrap, s, before);
    RunOne(bootstrap, s, before);
    RunOne(bootstrap, Run(bootstrap, s, before), after);
  }

  /** One establisher at a time: another is opened only over a dead process. */
  ghost predicate Alone(bootstrap: Option<string>, s: State, acts: seq<Action>)
    decreases |acts|
  {
    acts == [] || ((acts[0].Open? ==> s.team == []) && Alone(bootstrap, Step(bootstrap, s, acts[0]), acts[1..]))
  }

  /** However many callers share it, a lone establisher never overlaps an empty read: all of the above holds for it. */
  lemma {:induction false} AloneIsApart(bootstrap: Option<string>, s: State, acts: seq<Action>)
    requires |s.team| <= 1 && Alone(bootstrap, s, acts)
    ensures Apart(bootstrap, s, acts)
    decreases |acts|
  {
    if acts != [] {
      TeamStaysOne(bootstrap, s, acts[0]);
      AloneIsApart(bootstrap, Step(bootstrap, s, acts[0]), acts[1..]);
    }
  }

  lemma TeamStaysOne(bootstrap: Option<string>, s: State, a: Action)
    requires |s.team| <= 1 && (a.Open? ==> s.team == [])
    ensures |Step(bootstrap, s, a).team| <= 1 && !Overlaps(bootstrap, s, a)
  {
  }

  // ---- Exactly: what an overlap can do ----

  ghost predicate TwoInboxes(s: State) {
    exists x, y :: x in s.d.leased && y in s.d.leased && x != y
  }

  const OK := Answer(Done, 0, "", 0)

  /** A minter, left to itself, records and leases what it minted, whatever has been recorded meanwhile. */
  lemma MinterLeases(bootstrap: Option<string>, s: State, i: nat) returns (more: seq<Action>)
    requires Inv(bootstrap, s) && i < |s.team| && Minting(s.team[i].flight)
    ensures var s' := Run(bootstrap, s, more);
      && Apart(bootstrap, s, more) && Inv(bootstrap, s') && Grows(s, s') && s.team[i].flight.id in s'.d.leased
      && |s'.team| == |s.team| && forall k :: 0 <= k < |s.team| && k != i ==> s'.team[k] == s.team[k]
  {
    var go := Go(i, OK);
    if s.team[i].flight.Persisting? {
      var t := Step(bootstrap, s, go);
      StepInv(bootstrap, s, go);
      var rest := MinterLeases1(bootstrap, t, i);
      more := [go] + rest;
      assert more[1..] == rest;
    } else {
      more := MinterLeases1(bootstrap, s, i);
    }
  }

  lemma MinterLeases1(bootstrap: Option<string>, s: State, i: nat) returns (more: seq<Action>)
    requires Inv(bootstrap, s) && i < |s.team| && s.team[i].flight.Recording?
    ensures var s' := Run(bootstrap, s, more);
      && Apart(bootstrap, s, more) && Inv(bootstrap, s') && Grows(s, s') && s.team[i].flight.id in s'.d.leased
      && |s'.team| == |s.team| && forall k :: 0 <= k < |s.team| && k != i ==> s'.team[k] == s.team[k]
  {
    var go := Go(i, OK);
    var s1 := Step(bootstrap, s, go);
    var s2 := Step(bootstrap, s1, go);
    var s3 := Step(bootstrap, s2, go);
    StepInv(bootstrap, s, go);
    StepInv(bootstrap, s1, go);
    StepInv(bootstrap, s2, go);
    assert s1.team[i].flight == Connecting(s.team[i].flight.id);
    assert s2.team[i].flight == Claiming(s.team[i].flight.id);
    more := [go, go, go];
    assert more[1..] == [go, go] && more[1..][1..] == [go] && [go][1..] == [];
    hide Step, Inv;
    assert Run(bootstrap, s3, []) == s3 && Run(bootstrap, s2, [go]) == s3 && Run(bootstrap, s1, [go, go]) == s3;
    assert Apart(bootstrap, s3, []) && Apart(bootstrap, s2, [go]) && Apart(bootstrap, s1, [go, go]);
  }

  lemma OverlapCanLeaseTwo(bootstrap: Option<string>, s: State, a: Action) returns (more: seq<Action>)
    requires Inv(bootstrap, s) && Overlaps(bootstrap, s, a)
    ensures Apart(bootstrap, Step(bootstrap, s, a), more) && TwoInboxes(Run(bootstrap, Step(bootstrap, s, a), more))
  {
    var k :| 0 <= k < |s.team| && Minting(s.team[k].flight);
    var t := Step(bootstrap, s, a);
    StepInv(bootstrap, s, a);
    assert t.team[k] == s.team[k] && Minting(t.team[a.i].flight) && k != a.i;
    var x, y := t.team[k].flight.id, t.team[a.i].flight.id;
    assert x != y;
    var first := MinterLeases(bootstrap, t, k);
    var u := Run(bootstrap, t, first);
    var second := MinterLeases(bootstrap, u, a.i);
    more := first + second;
    RunConcat(bootstrap, t, first, second);
    assert x in u.d.leased && x in Run(bootstrap, u, second).d.leased && y in Run(bootstrap, u, second).d.leased;
  }

  /** Some continuation without a further overlap leases two inboxes. */
  ghost predicate CanLeaseTwo(bootstrap: Option<string>, s: State) {
    exists more :: Apart(bootstrap, s, more) && TwoInboxes(Run(bootstrap, s, more))
  }

  /** From a state with one inbox, an action can lead to two leased ones without any further overlap if and only if it is
      an empty read that overlaps another. */
  lemma OverlapBreaksExactly(bootstrap: Option<string>, s: State, a: Action)
    requires Inv(bootstrap, s) && One(s)
    ensures CanLeaseTwo(bootstrap, Step(bootstrap, s, a)) <==> Overlaps(bootstrap, s, a)
  {
    hide Step, Overlaps, Inv, One;
    if Overlaps(bootstrap, s, a) {
      var more := OverlapCanLeaseTwo(bootstrap, s, a);
      assert Apart(bootstrap, Step(bootstrap, s, a), more) && TwoInboxes(Run(bootstrap, Step(bootstrap, s, a), more));
    } else {
      var t := Step(bootstrap, s, a);
      StepInv(bootstrap, s, a);
      StepOne(bootstrap, s, a);
      forall more | Apart(bootstrap, t, more) ensures !TwoInboxes(Run(bootstrap, t, more)) {
        RunInv(bootstrap, t, more);
        RunOne(bootstrap, t, more);
        OneMeansOneLeased(bootstrap, Run(bootstrap, t, more));
      }
    }
  }

  lemma OneMeansOneLeased(bootstrap: Option<string>, s: State)
    requires Inv(bootstrap, s) && One(s)
    ensures !TwoInboxes(s)
  {
  }

  // ---- Two activations at once ----

  function Gets(key: string): Answer {
    OK.(key := key)
  }

  lemma FourSteps(bootstrap: Option<string>, s: State, a1: Action, a2: Action, a3: Action, a4: Action)
    ensures Run(bootstrap, s, [a1, a2, a3, a4]) == Step(bootstrap, Step(bootstrap, Step(bootstrap, Step(bootstrap, s, a1), a2), a3), a4)
  {
    hide Step;
    var s1 := Step(bootstrap, s, a1);
    var s2 := Step(bootstrap, s1, a2);
    var s3 := Step(bootstrap, s2, a3);
    assert [a1, a2, a3, a4][1..] == [a2, a3, a4] && [a2, a3, a4][1..] == [a3, a4];
    assert [a3, a4][1..] == [a4] && [a4][1..] == [];
    assert Run(bootstrap, s3, [a4]) == Step(bootstrap, s3, a4);
    assert Run(bootstrap, s2, [a3, a4]) == Run(bootstrap, s3, [a4]);
    assert Run(bootstrap, s1, [a2, a3, a4]) == Run(bootstrap, s2, [a3, a4]);
  }

  function BothRead(a: string, b: string): seq<Action> {
    [Open, Call(0), Open, Call(1)] + [Go(0, OK), Go(1, OK), Go(0, Gets(a)), Go(1, Gets(b))]
  }

  function Team(f: Flight, g: Flight): seq<Establisher> {
    [Establisher(f, 1, None), Establisher(g, 1, None)]
  }

  lemma BothMint(bootstrap: Option<string>, a: string, b: string)
    requires a != b && bootstrap != Some(a) && bootstrap != Some(b)
    ensures Run(bootstrap, FRESH, BothRead(a, b)) == FRESH.(team := Team(Persisting(a), Persisting(b)), minted := {a, b})
  {
    var xs, ys := [Open, Call(0), Open, Call(1)], [Go(0, OK), Go(1, OK), Go(0, Gets(a)), Go(1, Gets(b))];
    RunConcat(bootstrap, FRESH, xs, ys);
    FourSteps(bootstrap, FRESH, Open, Call(0), Open, Call(1));
    var s1 := FRESH.(team := Team(Hydrating, Hydrating));
    assert Run(bootstrap, FRESH, xs) == s1;
    FourSteps(bootstrap, s1, Go(0, OK), Go(1, OK), Go(0, Gets(a)), Go(1, Gets(b)));
  }

  function SecondFinishes(): seq<Action> {
    [Go(1, OK), Go(1, OK), Go(1, OK), Go(1, OK)] + [Go(1, OK), Go(1, OK), Go(0, OK), Go(0, OK)]
  }

  /** The storage after the second has finished and the first has overwritten its record. */
  function Overwritten(a: string, b: string): State {
    State(Durable({a, b}, map[b := 0], Some(a), {b}),
          [Establisher(Connecting(a), 1, None), Establisher(Idle, 0, Some(b))], {b}, {a, b}, {a, b})
  }

  lemma SecondWins(bootstrap: Option<string>, a: string, b: string)
    requires a != b && bootstrap != Some(a) && bootstrap != Some(b)
    ensures Run(bootstrap, FRESH.(team := Team(Persisting(a), Persisting(b)), minted := {a, b}), SecondFinishes()) == Overwritten(a, b)
  {
    var s1 := FRESH.(team := Team(Persisting(a), Persisting(b)), minted := {a, b});
    var go := Go(1, OK);
    RunConcat(bootstrap, s1, [go, go, go, go], [go, go, Go(0, OK), Go(0, OK)]);
    FourSteps(bootstrap, s1, go, go, go, go);
    var s2 := State(Durable({b}, map[], Some(b), {b}), Team(Persisting(a), Leasing(b)), {}, {a, b}, {b});
    assert Run(bootstrap, s1, [go, go, go, go]) == s2;
    FourSteps(bootstrap, s2, go, go, Go(0, OK), Go(0, OK));
  }

  /** Two establishers both find nothing and mint.  The second records, leases and returns its inbox; the first then
      overwrites the record and leases its own. */
  lemma TwoEstablishersLeaseTwo(bootstrap: Option<string>, a: string, b: string)
    requires a != b && bootstrap != Some(a) && bootstrap != Some(b)
    ensures var s := Run(bootstrap, FRESH, BothRead(a, b) + SecondFinishes() + [Go(0, OK), Go(0, OK)]);
      s.returned == {b} && s.d.leased == {a, b} && s.d.portable == Some(a)
  {
    BothMint(bootstrap, a, b);
    SecondWins(bootstrap, a, b);
    RunConcat(bootstrap, FRESH, BothRead(a, b), SecondFinishes());
    RunConcat(bootstrap, FRESH, BothRead(a, b) + SecondFinishes(), [Go(0, OK), Go(0, OK)]);
    var s := Overwritten(a, b);
    var t := Step(bootstrap, s, Go(0, OK));
    assert [Go(0, OK), Go(0, OK)][1..] == [Go(0, OK)] && [Go(0, OK)][1..] == [];
    assert Run(bootstrap, t, [Go(0, OK)]) == Run(bootstrap, Step(bootstrap, t, Go(0, OK)), []) == Step(bootstrap, t, Go(0, OK));
  }
}
