/** The account-control channel: an account session exists only while bounded work needs it, and for an idle
    window after. Each method below is what runs between two awaits, so the machine's events interleave freely. */
module IdleClose {
  import opened DepositTypes

  /** One channel, with the history that tells which sessions were torn down. */
  datatype Channel = Channel(
    client: Option<nat>,       // the open account session, sessions being numbered as they are made
    connecting: bool,          // one shared connect attempt is in flight
    inFlight: nat,             // executions not yet finished
    timer: bool,               // the idle timer is armed
    closed: bool,
    sessions: nat,             // sessions made so far
    joined: nat,               // of the executions in flight, those waiting for the connect
    working: seq<nat>,    // and those running, by session
    torn: set<nat>,            // sessions torn down
    accepted: nat)             // executions let in so far

  datatype Event =
    | Execute
    | ConnectSettles(ok: bool)
    | WorkEnds(i: nat)             // the i-th running work returns or throws
    | TimerFires
    | Suspend
    | Close

  const NEW := Channel(None, false, 0, false, false, 0, 0, [], {}, 0)

  function Repeat(session: nat, n: nat): (r: seq<nat>)
    ensures |r| == n && forall i :: 0 <= i < n ==> r[i] == session
  {
    seq(n, _ => session)
  }

  function TornDown(c: Channel): Channel {
    if c.client.None? then c else c.(client := None, torn := c.torn + {c.client.value})
  }

  function Finished(c: Channel): Channel {
    if c.inFlight == 0 && c.client.Some? then c.(timer := true) else c
  }

  function Step(c: Channel, e: Event): Channel {
    match e
    case Execute =>
      if c.closed then c
      else
        var d := c.(timer := false, inFlight := c.inFlight + 1, accepted := c.accepted + 1);
        if c.client.Some? then d.(working := c.working + [c.client.value])
        else d.(connecting := true, joined := c.joined + 1)
    case ConnectSettles(ok) =>
      if !c.connecting then c
      else if ok then
        c.(connecting := false, client := Some(c.sessions), sessions := c.sessions + 1,
           joined := 0, working := c.working + Repeat(c.sessions, c.joined))
      else
        var left := if c.inFlight >= c.joined then c.inFlight - c.joined else 0;
        Finished(c.(connecting := false, joined := 0, inFlight := left))
    case WorkEnds(i) =>
      if i >= |c.working| || c.inFlight == 0 then c
      else Finished(c.(working := c.working[..i] + c.working[i + 1..], inFlight := c.inFlight - 1))
    case TimerFires => if c.timer then TornDown(c.(timer := false)) else c
    case Suspend =>
      if c.closed || c.inFlight > 0 then c
      else TornDown(c.(timer := false))
    case Close => TornDown(c.(closed := true, timer := false))
  }

  function Run(c: Channel, es: seq<Event>): Channel
    decreases |es|
  {
    if es == [] then c else Run(Step(c, es[0]), es[1..])
  }

  // ---- The invariant ----

  ghost predicate Sound(c: Channel) {
    && (c.timer <==> c.client.Some? && c.inFlight == 0)
    && c.inFlight == c.joined + |c.working|
    && (c.connecting <==> c.joined > 0)
    && (c.connecting ==> c.client.None? && c.working == [])
    && (c.client.Some? ==> c.client.value < c.sessions && c.client.value !in c.torn)
    && (forall i :: 0 <= i < |c.working| ==> c.working[i] < c.sessions)
    && (forall k :: k in c.torn ==> k < c.sessions)
    && (!c.closed ==> forall i :: 0 <= i < |c.working| ==> c.client == Some(c.working[i]))
  }

  lemma StepKeeps(c: Channel, e: Event)
    requires Sound(c)
    ensures Sound(Step(c, e))
  {
    match e
    case Execute =>
      assert !c.closed && c.working != [] ==> c.client == Some(c.working[0]);
    case _ =>
  }

  datatype Suspension = Suspended | ChannelClosed | WorkInFlight | NoSession

  class AccountControlChannel {
    var client: Option<nat>
    var connecting: bool
    var inFlight: nat
    var timer: bool
    var closed: bool
    var executeCount: nat
    ghost var sessions: nat
    ghost var joined: nat
    ghost var working: seq<nat>
    ghost var torn: set<nat>

    ghost function Value(): Channel
      reads this
    {
      Channel(client, connecting, inFlight, timer, closed, sessions, joined, working, torn, executeCount)
    }

    ghost predicate Valid()
      reads this
    {
      Sound(Value())
    }

    constructor ()
      ensures Valid() && Value() == NEW
    {
      client, connecting, inFlight, timer, closed, executeCount := None, false, 0, false, false, 0;
      sessions, joined, working, torn := 0, 0, [], {};
    }

    /** Up to the first await of `execute`; refused exactly on a closed channel. */
    method Execute() returns (refused: bool)
      requires Valid()
      modifies this
      ensures Valid() && Value() == Step(old(Value()), Event.Execute)
      ensures refused == old(closed)
    {
      hide Sound;
      StepKeeps(Value(), Event.Execute);
      if closed { return true; }
      executeCount := executeCount + 1;
      timer := false;
      inFlight := inFlight + 1;
      if client.Some? {
        working := working + [client.value];
      } else {
        connecting, joined := true, joined + 1;
      }
      refused := false;
    }

    /** The shared connect has come to an end, well or badly, for everyone who joined it. */
    method ConnectSettles(ok: bool, ghost waiters: nat, session: nat)
      requires Valid() && connecting && waiters == joined && session == sessions
      modifies this
      ensures Valid() && Value() == Step(old(Value()), Event.ConnectSettles(ok))
    {
      StepKeeps(Value(), Event.ConnectSettles(ok));
      assert inFlight == joined;
      hide Sound;
      connecting := false;
      joined := 0;
      if ok {
        client := Some(session);
        sessions, working := sessions + 1, working + Repeat(session, waiters);
      } else {
        inFlight := 0;   // all in flight were waiters: see `Sound`
      }
    }

    /** The `finally` of `execute` once its work has run. */
    method WorkEnds(ghost i: nat)
      requires Valid() && i < |working|
      modifies this
      ensures Valid() && Value() == Step(old(Value()), Event.WorkEnds(i))
    {
      StepKeeps(Value(), Event.WorkEnds(i));
      assert inFlight > 0;
      hide Sound;
      inFlight := inFlight - 1;
      working := working[..i] + working[i + 1..];
      if inFlight == 0 && client.Some? { timer := true; }
    }

    method Teardown()
      modifies this`client, this`torn
      ensures Value() == TornDown(old(Value()))
    {
      if client.Some? {
        torn := torn + {client.value};
        client := None;
      }
    }

    method TimerFires()
      requires Valid() && timer
      modifies this
      ensures Valid() && Value() == Step(old(Value()), Event.TimerFires)
    {
      timer := false;
      Teardown();
    }

    method SuspendNow() returns (r: Suspension)
      requires Valid()
      modifies this
      ensures Valid() && Value() == Step(old(Value()), Suspend)
      ensures r.Suspended? <==> old(client.Some? && inFlight == 0 && !closed)
      ensures closed == old(closed)
    {
      if closed { return ChannelClosed; }
      if inFlight > 0 { return WorkInFlight; }
      timer := false;
      if client.None? && !connecting { return NoSession; }
      Teardown();
      r := Suspended;
    }

    method CloseNow()
      requires Valid()
      modifies this
      ensures Valid() && Value() == Step(old(Value()), Close) && client.None? && closed
    {
      closed := true;
      timer := false;
      Teardown();
    }
  }
  // ---- Main results ----

  lemma {:induction false} RunKeeps(c: Channel, es: seq<Event>)
    requires Sound(c)
    ensures Sound(Run(c, es))
    decreases |es|
  {
    hide Sound, Step;
    if es != [] {
      StepKeeps(c, es[0]);
      RunKeeps(Step(c, es[0]), es[1..]);
    }
  }

  /** At every await point the timer is armed exactly when a session is open with no work in flight, and until the
      channel is closed all running work is on the one open session, which nobody has torn down. */
  lemma TimerArmedExactlyWhenIdle(es: seq<Event>)
    ensures var c := Run(NEW, es);
      && (c.timer <==> c.client.Some? && c.inFlight == 0)
      && (!c.closed ==> forall i :: 0 <= i < |c.working| ==> c.client == Some(c.working[i]) && c.working[i] !in c.torn)
  {
    RunKeeps(NEW, es);
  }

  /** Neither the timer nor a suspension ever tears a session down while any execution is in flight. */
  lemma NeverTornUnderWork(es: seq<Event>, e: Event)
    requires e.TimerFires? || e.Suspend?
    ensures var c := Run(NEW, es);
      Step(c, e).torn != c.torn ==> c.inFlight == 0 && c.working == [] && !c.connecting
  {
    RunKeeps(NEW, es);
  }

  lemma {:induction false} ClosedIffAsked(c: Channel, es: seq<Event>)
    ensures Run(c, es).closed <==> c.closed || Close in es
    decreases |es|
  {
    if es != [] {
      ClosedIffAsked(Step(c, es[0]), es[1..]);
      assert Close in es <==> es[0] == Close || Close in es[1..];
    }
  }

  /** An execution is let in exactly when the channel has never been closed, however often it was suspended. */
  lemma SuspendLeavesExecutePossible(es: seq<Event>)
    ensures var c := Run(NEW, es);
      Step(c, Execute).accepted == c.accepted + (if Close in es then 0 else 1)
  {
    ClosedIffAsked(NEW, es);
  }

  /** `close` is meant to be the end of the session, and it is, exactly unless a connect is in flight: that one still
      opens a session on the closed channel, for the work that was waiting, until its idle timer fires. */
  lemma CloseIsFinalUnlessConnecting(c: Channel)
    requires Sound(c)
    ensures (exists es :: Run(Step(c, Close), es).client.Some?) <==> c.connecting
  {
    var d := Step(c, Close);
    if c.connecting {
      var es := [ConnectSettles(true)];
      assert es[1..] == [];
      assert Run(Step(d, es[0]), es[1..]) == Step(d, es[0]);
      assert Run(d, es).client.Some?;
    } else {
      StepKeeps(c, Close);
      forall es ensures Run(d, es).client.None? {
        StaysShut(d, es);
      }
    }
  }

  lemma {:induction false} StaysShut(c: Channel, es: seq<Event>)
    requires c.closed && c.client.None? && !c.connecting
    ensures Run(c, es).client.None?
    decreases |es|
  {
    if es != [] {
      StaysShut(Step(c, es[0]), es[1..]);
    }
  }
}
