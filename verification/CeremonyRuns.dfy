/** Device-link registrations as a step system: a live ceremony and a recovery sweep take turns, a step being one put, one
    home call or one whole journal call; each may fail or be torn, and a crash may fall between any two.  (`CeremonySplit`
    cuts the journal calls.)  The sweep defers to a ceremony that is already running, but nothing stops one from starting
    under it. */
module CeremonyRuns {
  import opened DepositTypes
  import opened CeremonyJournal

  type Item = (string, Row)

  datatype Durable = Durable(rows: Rows, bound: map<string, string>, revoked: set<string>, slots: set<string>)

  datatype History = History(
    minted: set<string>,       // certs of all ceremonies ever begun
    put: set<string>,          // certs whose response has reached its slot
    labelled: set<string>,     // certs whose row was ever labelled published
    denied: set<string>,       // certs the home has refused as not bound
    drops: map<string, bool>)  // certs whose row was deleted: was it on a denial?

  datatype Sweeper =
    | Resting
    | Resuming(todo: seq<Item>)
    | Putting(it: Item, todo: seq<Item>)
    | Publishing(it: Item, todo: seq<Item>)
    | Compensating(todo: seq<Item>)
    | Expiring(it: Item, todo: seq<Item>)
    | Asking(it: Item, todo: seq<Item>)
    | Submitting(it: Item, todo: seq<Item>)
    | Rereading(it: Item, todo: seq<Item>)
    | Deleting(it: Item, onDenial: bool, todo: seq<Item>)

  datatype Ceremony =
    | NoCeremony
    | Persisting(it: Item)
    | Adding(it: Item)
    | Releasing(it: Item)
    | Marking(it: Item)
    | Confirming(it: Item)

  datatype State = State(d: Durable, h: History, sweeper: Sweeper, ceremony: Ceremony)

  datatype Answer = Answer(io: Io, now: int, work: seq<Item>, accepted: bool)

  datatype Action =
    | Begin(it: Item)              // a new ceremony, with a freshly minted leaf
    | CeremonyStep(a: Answer)
    | SweepTick(a: Answer)
    | SweepStep(a: Answer)
    | HomeRevokes(device: string)  // the account owner revokes a device
    | Crash

  // ---- Journal calls ----

  predicate HasRow(d: Durable, it: Item) {
    it.0 in d.rows && d.rows[it.0].cert == it.1.cert
  }

  predicate CanMove(d: Durable, device: string, to: Label) {
    device in d.rows && Allowed(d.rows[device].state, to)
  }

  function Moved(d: Durable, io: Io, device: string, to: Label): Durable
    requires device in d.rows
  {
    d.(rows := Written(io, d.rows, d.rows[device := d.rows[device].(state := to)]))
  }

  /** `markPublished` after a put. */
  function Publish(s: State, io: Io, it: Item): State {
    if CanMove(s.d, it.0, Published) && !io.Lost? then
      s.(d := Moved(s.d, io, it.0, Published), h := s.h.(labelled := s.h.labelled + {s.d.rows[it.0].cert}))
    else s
  }

  function Put(s: State, io: Io, it: Item): State {
    s.(d := s.d.(slots := Written(io, s.d.slots, s.d.slots + {it.1.sealed})),
       h := if io.Lost? then s.h else s.h.(put := s.h.put + {it.1.cert}))
  }

  // ---- The sweep ----

  predicate Listed(d: Durable, work: seq<Item>) {
    forall it :: it in work ==> it.0 in d.rows && d.rows[it.0] == it.1
  }

  function Next(s: State, todo: seq<Item>): State {
    s.(sweeper := Compensating(todo))
  }

  function TakeResume(s: State, a: Answer, todo: seq<Item>): State {
    if todo == [] then
      if Listed(s.d, a.work) && (forall it :: it in a.work ==> it.1.Due(a.now)) then Next(s, a.work) else s
    else if todo[0].1.expiresAtMs <= a.now then s.(sweeper := Resuming(todo[1..]))
    else s.(sweeper := Putting(todo[0], todo[1..]))
  }

  function SweepPut(s: State, a: Answer, it: Item, todo: seq<Item>): State {
    Put(s, a.io, it).(sweeper := if a.io.Done? then Publishing(it, todo) else Resuming(todo))
  }

  function SweepPublish(s: State, a: Answer, it: Item, todo: seq<Item>): State {
    Publish(s, a.io, it).(sweeper := Resuming(todo))
  }

  function TakeDue(s: State, todo: seq<Item>): State {
    if todo == [] then s.(sweeper := Resting)
    else s.(sweeper := if todo[0].1.state.Pending? then Expiring(todo[0], todo[1..]) else Asking(todo[0], todo[1..]))
  }

  function Expire(s: State, a: Answer, it: Item, todo: seq<Item>): State {
    if !CanMove(s.d, it.0, Expired) then Next(s, todo)
    else s.(d := Moved(s.d, a.io, it.0, Expired), sweeper := if a.io.Done? then Asking(it, todo) else Compensating(todo))
  }

  function Ask(s: State, a: Answer, it: Item, todo: seq<Item>): State {
    if !a.io.Done? then Next(s, todo)
    else s.(sweeper := if it.1.cert in s.d.revoked then Deleting(it, false, todo) else Submitting(it, todo))
  }

  function Revoke(s: State, a: Answer, it: Item, todo: seq<Item>): State {
    s.(d := if a.io.Lost? then s.d else s.d.(bound := s.d.bound - {it.0}, revoked := s.d.revoked + {it.1.cert}),
       sweeper := if a.accepted then Rereading(it, todo) else Compensating(todo))
  }

  function Deny(s: State, it: Item, todo: seq<Item>): State {
    s.(h := s.h.(denied := s.h.denied + {it.1.cert}),
       sweeper := if it.1.state.Pending? || it.1.state.Expired? then Deleting(it, true, todo) else Compensating(todo))
  }

  /** The cert-bound revoke: only the home's BAD_TARGET counts as a denial, and it says so only when it is true. */
  function SubmitRevoke(s: State, a: Answer, it: Item, todo: seq<Item>): State {
    if it.0 in s.d.bound && s.d.bound[it.0] == it.1.cert then Revoke(s, a, it, todo)
    else if a.io.Done? then Deny(s, it, todo)
    else s.(sweeper := if a.accepted then Rereading(it, todo) else Compensating(todo))
  }

  function Reread(s: State, a: Answer, it: Item, todo: seq<Item>): State {
    if a.io.Done? && it.1.cert in s.d.revoked then s.(sweeper := Deleting(it, false, todo)) else Next(s, todo)
  }

  function Delete(s: State, a: Answer, it: Item, onDenial: bool, todo: seq<Item>): State {
    if HasRow(s.d, it) && (onDenial ==> !Out(s.d.rows[it.0].state)) && !a.io.Lost? then
      State(s.d.(rows := s.d.rows - {it.0}), s.h.(drops := s.h.drops[it.1.cert := onDenial]), Compensating(todo), s.ceremony)
    else Next(s, todo)
  }

  function SweepNext(s: State, a: Answer): State {
    match s.sweeper
    case Resting => s
    case Resuming(todo) => TakeResume(s, a, todo)
    case Putting(it, todo) => SweepPut(s, a, it, todo)
    case Publishing(it, todo) => SweepPublish(s, a, it, todo)
    case Compensating(todo) => TakeDue(s, todo)
    case Expiring(it, todo) => Expire(s, a, it, todo)
    case Asking(it, todo) => Ask(s, a, it, todo)
    case Submitting(it, todo) => SubmitRevoke(s, a, it, todo)
    case Rereading(it, todo) => Reread(s, a, it, todo)
    case Deleting(it, onDenial, todo) => Delete(s, a, it, onDenial, todo)
  }

  // ---- The ceremony: persist, register, release, label, confirm ----

  function Persist(s: State, a: Answer, it: Item): State {
    if it.0 in s.d.rows && !s.d.rows[it.0].state.Confirmed? then s.(ceremony := NoCeremony)
    else s.(d := s.d.(rows := Written(a.io, s.d.rows, s.d.rows[it.0 := it.1])),
            ceremony := if a.io.Done? then Adding(it) else NoCeremony)
  }

  function Add(s: State, a: Answer, it: Item): State {
    s.(d := s.d.(bound := Written(a.io, s.d.bound, s.d.bound[it.0 := it.1.cert])),
       ceremony := if a.io.Done? then Releasing(it) else NoCeremony)
  }

  function Release(s: State, a: Answer, it: Item): State {
    Put(s, a.io, it).(ceremony := if a.io.Done? then Marking(it) else NoCeremony)
  }

  function Mark(s: State, a: Answer, it: Item): State {
    Publish(s, a.io, it).(ceremony := if a.io.Done? && CanMove(s.d, it.0, Published) then Confirming(it) else NoCeremony)
  }

  /** The new device answered, or never did (`accepted` is false). */
  function Confirm(s: State, a: Answer, it: Item): State {
    if a.accepted && CanMove(s.d, it.0, Confirmed) then
      s.(d := Moved(s.d, a.io, it.0, Confirmed), ceremony := NoCeremony)
    else s.(ceremony := NoCeremony)
  }

  function CeremonyNext(s: State, a: Answer): State {
    match s.ceremony
    case NoCeremony => s
    case Persisting(it) => Persist(s, a, it)
    case Adding(it) => Add(s, a, it)
    case Releasing(it) => Release(s, a, it)
    case Marking(it) => Mark(s, a, it)
    case Confirming(it) => Confirm(s, a, it)
  }

  // ---- The system ----

  function Step(s: State, a: Action): State {
    match a
    case Begin(it) =>
      if s.ceremony.NoCeremony? && it.1.cert !in s.h.minted && it.1.state.Pending? then
        s.(h := s.h.(minted := s.h.minted + {it.1.cert}), ceremony := Persisting(it))
      else s
    case CeremonyStep(b) => CeremonyNext(s, b)
    case SweepTick(b) =>
      if s.sweeper.Resting? && s.ceremony.NoCeremony? && Listed(s.d, b.work)
        && (forall it :: it in b.work ==> it.1.state.Pending?)
      then s.(sweeper := Resuming(b.work)) else s
    case SweepStep(b) => SweepNext(s, b)
    case HomeRevokes(device) =>
      if device in s.d.bound then
        s.(d := s.d.(bound := s.d.bound - {device}, revoked := s.d.revoked + {s.d.bound[device]}))
      else s
    case Crash => s.(sweeper := Resting, ceremony := NoCeremony)
  }

  function Run(s: State, acts: seq<Action>): State
    decreases |acts|
  {
    if acts == [] then s else Run(Step(s, acts[0]), acts[1..])
  }

  const FRESH := State(Durable(map[], map[], {}, {}), History({}, {}, {}, {}, map[]), Resting, NoCeremony)

  // ---- A response whose label does not follow ----

  /** A party has put the response of `k` and is about to label its row. */
  predicate Labelling(s: State, k: string) {
    || (s.sweeper.Publishing? && s.sweeper.it.1.cert == k)
    || (s.ceremony.Marking? && s.ceremony.it.1.cert == k)
  }

  /** A party is about to put it. */
  predicate Releases(s: State, a: Action, k: string) {
    || (a.SweepStep? && s.sweeper.Putting? && s.sweeper.it.1.cert == k)
    || (a.CeremonyStep? && s.ceremony.Releasing? && s.ceremony.it.1.cert == k)
  }

  /** The label of `it` cannot be written: the call is lost, or the journal refuses the transition. */
  predicate LabelFails(s: State, io: Io, it: Item) {
    io.Lost? || !CanMove(s.d, it.0, Published)
  }

  /** An action after which the response of `k` is out and its label will not follow: a put that is torn, a label that
      fails, or a crash between the two. */
  predicate CutsShort(s: State, a: Action, k: string) {
    || (Releases(s, a, k) && a.a.io.Landed?)
    || (a.SweepStep? && s.sweeper.Publishing? && s.sweeper.it.1.cert == k && LabelFails(s, a.a.io, s.sweeper.it))
    || (a.CeremonyStep? && s.ceremony.Marking? && s.ceremony.it.1.cert == k && LabelFails(s, a.a.io, s.ceremony.it))
    || (a.Crash? && Labelling(s, k))
  }

  ghost predicate LabelsFollow(s: State, acts: seq<Action>, k: string)
    decreases |acts|
  {
    acts == [] || (!CutsShort(s, acts[0], k) && LabelsFollow(Step(s, acts[0]), acts[1..], k))
  }
}
