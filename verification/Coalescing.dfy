/** The two "one pass plus one dirty bit" schedulers.  Both run a loop `do { dirty = false; pass } while (dirty)`; they
    differ in how the loop lets go.  The inbox drain clears its busy flag in the same turn as the last test, but a pass
    may throw; the mobile converge pass never throws, but clears its flag one microtask after the last test. */
module Coalescing {

  datatype Kind = InboxDrain | MobileConverge

  /** Where the loop is: nowhere, inside a pass, or past its last test with the busy flag still up. */
  datatype Loop = Asleep | InPass | LettingGo

  datatype Scheduler = Scheduler(
    busy: bool, dirty: bool, loop: Loop,
    made: nat,               // requests so far, numbered in order
    started: nat,            // passes so far
    waiting: set<nat>)       // requests after which no pass has started yet

  datatype Event =
    | Request
    | PassReturns
    | PassThrows             // the drain only
    | LetGo                  // the microtask that lowers the converge flag

  const IDLE := Scheduler(false, false, Asleep, 0, 0, {})

  function StartPass(s: Scheduler): Scheduler {
    s.(busy := true, dirty := false, loop := InPass, started := s.started + 1, waiting := {})
  }

  function Made(s: Scheduler): Scheduler {
    s.(made := s.made + 1, waiting := s.waiting + {s.made})
  }

  function Step(kind: Kind, s: Scheduler, e: Event): Scheduler {
    match e
    case Request => if s.busy then Made(s).(dirty := true) else StartPass(Made(s))
    case PassReturns =>
      if !s.loop.InPass? then s
      else if s.dirty then StartPass(s)
      else if kind.InboxDrain? then s.(busy := false, loop := Asleep)
      else s.(loop := LettingGo)
    case PassThrows => if kind.InboxDrain? && s.loop.InPass? then s.(busy := false, loop := Asleep) else s
    case LetGo => if s.loop.LettingGo? then s.(busy := false, loop := Asleep) else s
  }

  function Run(kind: Kind, s: Scheduler, es: seq<Event>): Scheduler
    decreases |es|
  {
    if es == [] then s else Run(kind, Step(kind, s, es[0]), es[1..])
  }

  /** The fields as the services hold them, turned over by the same events. */
  class PassScheduler {
    const kind: Kind
    var busy: bool
    var dirty: bool
    ghost var loop: Loop
    ghost var made: nat
    ghost var started: nat
    ghost var waiting: set<nat>

    ghost function Value(): Scheduler
      reads this
    {
      Scheduler(busy, dirty, loop, made, started, waiting)
    }

    constructor (kind: Kind)
      ensures this.kind == kind && Value() == IDLE
    {
      this.kind, busy, dirty := kind, false, false;
      loop, made, started, waiting := Asleep, 0, 0, {};
    }

    method BeginPass()
      modifies this
      ensures Value() == StartPass(old(Value()))
    {
      busy, dirty := true, false;
      loop, started, waiting := InPass, started + 1, {};
    }

    /** `requestDrain`, `#requestConverge`: coalesce, or start the loop. */
    method Ask()
      modifies this
      ensures Value() == Step(kind, old(Value()), Request)
    {
      made, waiting := made + 1, waiting + {made};
      if busy {
        dirty := true;
      } else {
        BeginPass();
      }
    }

    /** The turn in which the awaited pass has settled; `again` when the loop goes round. */
    method Settle(threw: bool) returns (again: bool)
      requires loop.InPass? && (threw ==> kind.InboxDrain?)
      modifies this
      ensures Value() == Step(kind, old(Value()), if threw then PassThrows else PassReturns)
      ensures again <==> !threw && old(dirty)
    {
      again := !threw && dirty;
      if again {
        BeginPass();
      } else if kind.InboxDrain? {
        busy, loop := false, Asleep;
      } else {
        loop := LettingGo;
      }
    }

    method Release()
      requires loop.LettingGo?
      modifies this
      ensures Value() == Step(kind, old(Value()), LetGo)
    {
      busy, loop := false, Asleep;
    }
  }

  // ---- Exactly which requests are left without a pass ----

  /** The event leaves requests behind: a throw over a raised bit, or the end of a gap in which one came in. */
  predicate Strands(kind: Kind, s: Scheduler, e: Event) {
    || (e.PassThrows? && kind.InboxDrain? && s.loop.InPass? && s.dirty)
    || (e.LetGo? && s.loop.LettingGo? && s.dirty)
  }

  /** A request comes in between the last test and the lowering of the flag. */
  predicate InTheGap(s: Scheduler, e: Event) {
    e.Request? && s.loop.LettingGo?
  }

  ghost predicate Inv(kind: Kind, s: Scheduler) {
    && (s.busy <==> !s.loop.Asleep?)
    && (kind.InboxDrain? ==> !s.loop.LettingGo?)
    && (s.busy ==> (s.dirty <==> s.waiting != {}))
    && (s.waiting != {} ==> s.dirty)
    && (forall r :: r in s.waiting ==> r < s.made)
    && s.started + (if s.dirty then 1 else 0) <= s.made
  }

  lemma StepKeeps(kind: Kind, s: Scheduler, e: Event)
    requires Inv(kind, s)
    ensures Inv(kind, Step(kind, s, e))
    // one pass at a time: a pass starts only when none is running, and each event starts at most one
    ensures Step(kind, s, e).started <= s.started + 1
    ensures Step(kind, s, e).started > s.started && e.Request? ==> s.loop.Asleep?
    // the loop falls asleep over waiting requests exactly on the stranding events
    ensures Step(kind, s, e).loop.Asleep? && !s.loop.Asleep? ==>
      (Step(kind, s, e).waiting != {} <==> Strands(kind, s, e))
  {
    var s' := Step(kind, s, e);
    if e.Request? && s.busy {
      assert s.made in s'.waiting;
    }
  }

  lemma {:induction false} RunKeeps(kind: Kind, s: Scheduler, es: seq<Event>)
    requires Inv(kind, s)
    ensures Inv(kind, Run(kind, s, es))
    decreases |es|
  {
    if es != [] {
      StepKeeps(kind, s, es[0]);
      RunKeeps(kind, Step(kind, s, es[0]), es[1..]);
    }
  }

  /** No pass throws, and no request falls into the gap. */
  ghost predicate Calm(kind: Kind, s: Scheduler, es: seq<Event>)
    decreases |es|
  {
    es == [] || (es[0] != PassThrows && !InTheGap(s, es[0]) && Calm(kind, Step(kind, s, es[0]), es[1..]))
  }

  ghost predicate Awake(s: Scheduler) {
    && (s.waiting != {} ==> s.loop.InPass? && s.dirty)
    && (s.dirty ==> s.loop.InPass?)
  }

  lemma {:induction false} CalmRunCoversAll(kind: Kind, s: Scheduler, es: seq<Event>)
    requires Inv(kind, s) && Awake(s) && Calm(kind, s, es)
    ensures Awake(Run(kind, s, es))
    decreases |es|
  {
    if es != [] {
      StepKeeps(kind, s, es[0]);
      CalmRunCoversAll(kind, Step(kind, s, es[0]), es[1..]);
    }
  }

  /** Over any calm history, a request still waiting is waiting on a running pass with the bit raised, so the end of
      that pass starts the one that covers it; whenever the loop is asleep every request has been covered. */
  lemma EveryRequestIsCovered(kind: Kind, es: seq<Event>)
    requires Calm(kind, IDLE, es)
    ensures var s := Run(kind, IDLE, es);
      && (s.waiting != {} ==> s.loop.InPass? && Step(kind, s, PassReturns).waiting == {} && Step(kind, s, PassReturns).loop.InPass?)
      && (s.loop.Asleep? ==> s.waiting == {})
  {
    RunKeeps(kind, IDLE, []);
    CalmRunCoversAll(kind, IDLE, es);
  }

  function Burst(n: nat): seq<Event>
  {
    if n == 0 then [] else [Request] + Burst(n - 1)
  }

  /** However many requests fall into a pass, they add one further pass, and it covers them all. */
  lemma {:induction false} BurstAddsOnePass(kind: Kind, s: Scheduler, n: nat)
    requires Inv(kind, s) && s.loop.InPass? && n > 0
    ensures var s' := Run(kind, s, Burst(n));
      && s'.loop.InPass? && s'.started == s.started && s'.made == s.made + n && s'.dirty
      && Step(kind, s', PassReturns).started == s.started + 1
      && Step(kind, s', PassReturns).waiting == {}
      && Step(kind, Step(kind, s', PassReturns), PassReturns).started == s.started + 1
    decreases n
  {
    var s1 := Step(kind, s, Request);
    assert Burst(n)[0] == Request && Burst(n)[1..] == Burst(n - 1);
    StepKeeps(kind, s, Request);
    if n > 1 {
      BurstAddsOnePass(kind, s1, n - 1);
    } else {
      assert Run(kind, s1, Burst(0)) == s1;
    }
  }

  /** What a request in the gap gets: nothing, until somebody asks again. */
  lemma WakeInTheGapIsLost(kind: Kind, s: Scheduler)
    requires Inv(kind, s) && s.loop.LettingGo?
    ensures var s' := Run(kind, s, [Request, LetGo]);
      s'.loop.Asleep? && s.made in s'.waiting && s'.started == s.started
    ensures Run(kind, IDLE, [Request, PassReturns]).loop.LettingGo? <==> kind.MobileConverge?
  {
    assert [Request, LetGo][1..] == [LetGo] && [LetGo][1..] == [];
    assert Run(kind, Step(kind, s, Request), [LetGo]) == Step(kind, Step(kind, s, Request), LetGo);
    assert [Request, PassReturns][1..] == [PassReturns] && [PassReturns][1..] == [];
    assert Run(kind, Step(kind, IDLE, Request), [PassReturns]) == Step(kind, Step(kind, IDLE, Request), PassReturns);
  }

  /** What a throwing drain leaves: the bit stays up over an idle loop, and the next request clears it with a pass. */
  lemma ThrowStrandsTheBit(s: Scheduler)
    requires Inv(InboxDrain, s) && s.loop.InPass? && s.dirty
    ensures var s' := Step(InboxDrain, s, PassThrows);
      && s'.loop.Asleep? && s'.dirty && s'.waiting == s.waiting != {}
      && Step(InboxDrain, s', Request).waiting == {} && !Step(InboxDrain, s', Request).dirty
  {
  }
}
