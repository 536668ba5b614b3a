/** The inbound delivery protocol as a step system: the serialised pipeline, the
    catch-up drain and the push bridge run between each other's awaits, any
    storage or network call may fail, and a crash may fall at any step.

    A step is a function of the state and of an action that carries every answer
    of the environment, so a run is simply a sequence of actions. */
module InboundProtocol {
  import opened DepositTypes
  import opened ApplyOutbox
  import PL = ProcessedLog

  datatype Config = Config(bounds: Bounds, maxPending: nat, maxRetain: nat) {
    predicate Valid() {
      bounds.Valid() && maxPending > 0 && maxRetain > 0
    }
  }

  /** A deposit as the pipeline receives it; only one that carries ciphertext can be re-fed. */
  datatype Frame = Frame(id: Id, hasCiphertext: bool)

  // ---- What survives a crash ----

  datatype Durable = Durable(
    markers: set<Id>,        // processed markers
    counters: PL.Counters,   // failed-attempt counters
    outbox: Entries,         // decrypted, not yet applied
    store: set<Msg>,         // the message store
    cursor: nat,             // the device cursor held by the node
    log: set<nat>,           // the node's deposit log
    acked: set<Id>)          // relay copies deleted by an ack

  // ---- History variables: never read by a step's decision ----

  /** One giving-up: the failures on record, and those that really happened since the record began. */
  datatype Drop = Drop(recorded: nat, actual: nat)

  datatype History = History(
    surfaced: map<Id, Msg>,          // user messages some decryption has surfaced
    handled: set<Id>,              // deposits the peer-link layer consumed without a user message
    givenUp: map<Id, Drop>,        // deposits dropped under a poison bound
    everMarked: set<Id>,           // deposits that were ever marked processed
    rehanded: set<Id>,             // handed to decryption after being marked, while still listable
    failures: map<Id, nat>,        // failed submits seen by the drain since the counter began
    applyFailures: map<Id, nat>)   // failed applies since the outbox entry was staged

  // ---- What a crash loses ----

  datatype Source = Push | Drain

  datatype Job = Submit(f: Frame, src: Source) | Sweep | Retry

  datatype Reply = Reply(id: Id, src: Source, r: Result)

  /** Whom the deposit now being processed is for. */
  datatype Task =
    | Fresh(src: Source)
    | Redrain(todo: seq<Frame>, progress: bool, reply: Option<Reply>)

  datatype Retained = Retained(f: Frame, attempts: nat)

  /** The job at the head of the serialised queue, by the await it is suspended at. */
  datatype Worker =
    | Idle
    | Looking(f: Frame, task: Task)
    | Opening(f: Frame, task: Task)
    | Staging(f: Frame, task: Task, st: Opened, msg: Msg)
    | Applying(f: Frame, task: Task, st: Opened, msg: Msg, staged: bool)
    | PlainApplying(f: Frame, task: Task, st: Opened, staged: bool, userApplied: bool)
    | Reconciling(f: Frame, task: Task, st: Opened, userApplied: bool, applied: bool)
    | Marking(f: Frame, task: Task, st: Opened, staged: bool, userApplied: bool, applied: bool)
    | RetryListing
    | RetryPicking(todo: map<Id, Msg>)
    | RetryApplying(id: Id, msg: Msg, todo: map<Id, Msg>)
    | RetryClearing(id: Id, msg: Msg, todo: map<Id, Msg>)
    | RetryCounting(id: Id, todo: map<Id, Msg>)
    | RetryDropping(id: Id, todo: map<Id, Msg>)

  /** One page of a durable drain: items below `k` have been dealt with. */
  datatype Page = Page(items: seq<nat>, k: nat, through: nat, consumed: seq<nat>, contiguous: bool, blocked: bool)

  datatype Puller =
    | Off
    | AwaitRetry
    | Choosing
    | Item(p: Page)
    | AwaitSubmit(p: Page, n: nat)
    | Counting(p: Page, n: nat)
    | Bounding(p: Page, n: nat, attempts: nat, now: int)
    | ClearingCounter(p: Page, n: nat)
    | ForgettingMarker(p: Page, n: nat)
    | AckingCursor(p: Page)
    | ForgettingConsumed(todo: seq<nat>, blocked: bool)
    | RelayItem(rest: seq<string>)
    | RelayAwait(e: string, rest: seq<string>)
    | RelayCounting(e: string, rest: seq<string>)
    | RelayBounding(e: string, rest: seq<string>, attempts: nat, now: int)
    | RelayAcking(e: string, rest: seq<string>)
    | RelayForgetting(e: string, rest: seq<string>)
    | RelayClearing(e: string, rest: seq<string>)

  datatype Volatile = Volatile(
    queue: seq<Job>,
    worker: Worker,
    pending: seq<Retained>,
    puller: Puller,
    dirty: bool,
    backoff: map<Id, int>,
    replies: seq<Reply>)     // resolved pushes the bridge has not reacted to yet

  datatype State = State(d: Durable, h: History, v: Volatile)

  /** The environment's answer at one await. */
  datatype Answer = Answer(
    io: Io,
    st: Opened,          // what decryption reports
    now: int,            // the clock
    pick: Id,            // which outbox entry a retry pass takes next
    items: seq<nat>,     // a page of a durable node
    relay: seq<string>,  // a page of a legacy node
    legacy: bool,        // the node does not advertise the durable inbox
    flag: bool)          // an item without a usable seq; a last relay page; a fetch without ciphertext

  datatype Action =
    | Deposit(n: nat)
    | PushFrame(f: Frame)
    | SweepTick
    | RequestDrain
    | WorkerStep(a: Answer)
    | PullerStep(a: Answer)
    | Bridge(i: nat, a: Answer)
    | Crash

  // ---- The ids a step talks about ----

  function Key(d: map<Id, nat>, id: Id): nat {
    if id in d then d[id] else 0
  }

  /** The node can still offer this deposit again. */
  predicate Listable(d: Durable, id: Id) {
    match id
    case Seq(n) => n > d.cursor
    case Event(_) => id !in d.acked
  }

  predicate IsPage(d: Durable, items: seq<nat>) {
    && (forall i, j :: 0 <= i < j < |items| ==> items[i] < items[j])
    && (forall i :: 0 <= i < |items| ==> items[i] in d.log && items[i] > d.cursor)
    && (forall n, i :: n in d.log && 0 <= i < |items| && d.cursor < n <= items[i] ==> n in items)
    && (items == [] ==> forall n :: n in d.log ==> n <= d.cursor)
  }

  // ---- The retry buffer ----

  function Without(pending: seq<Retained>, id: Id): seq<Retained> {
    if pending == [] then []
    else if pending[0].f.id == id then Without(pending[1..], id)
    else [pending[0]] + Without(pending[1..], id)
  }

  predicate Holds(pending: seq<Retained>, id: Id) {
    exists i :: 0 <= i < |pending| && pending[i].f.id == id
  }

  function Retain(c: Config, pending: seq<Retained>, f: Frame, r: Result): seq<Retained> {
    if r.consumed || r.already then Without(pending, f.id)
    else if !f.hasCiphertext || Holds(pending, f.id) then pending
    else (if |pending| >= c.maxPending && pending != [] then pending[1..] else pending) + [Retained(f, 0)]
  }

  function Bump(c: Config, pending: seq<Retained>, id: Id): seq<Retained> {
    if pending == [] then []
    else if pending[0].f.id == id then
      if pending[0].attempts + 1 >= c.maxRetain then pending[1..]
      else [pending[0].(attempts := pending[0].attempts + 1)] + pending[1..]
    else [pending[0]] + Bump(c, pending[1..], id)
  }

  function Frames(pending: seq<Retained>): seq<Frame> {
    if pending == [] then [] else [pending[0].f] + Frames(pending[1..])
  }

  // ---- The serialised worker ----

  /** Resolve the promise of a submit: the drain is resumed, a push reaches the bridge. */
  function Deliver(v: Volatile, p: Reply): Volatile {
    match p.src
    case Push => v.(replies := v.replies + [p])
    case Drain =>
      v.(puller := match v.puller
        case AwaitSubmit(g, n) =>
          if p.id == Seq(n) then
            if AckSafe(p.r) then Item(ItemDone(g, n)) else Counting(g, n)
          else v.puller
        case RelayAwait(e, todo) =>
          if p.id == Event(e) then
            if AckSafe(p.r) then RelayAcking(e, todo) else RelayCounting(e, todo)
          else v.puller
        case _ => v.puller)
  }

  /** An ack-safe item: only a gap-free run moves the watermark. */
  function ItemDone(g: Page, n: nat): Page {
    if g.contiguous then g.(k := g.k + 1, through := n, consumed := g.consumed + [n])
    else g.(k := g.k + 1)
  }

  /** A quarantined item: skipped on purpose, so it does not break contiguity. */
  function ItemSkipped(g: Page, n: nat): Page {
    if g.contiguous then g.(k := g.k + 1, through := n) else g.(k := g.k + 1)
  }

  function ItemGap(g: Page): Page {
    g.(k := g.k + 1, blocked := true, contiguous := false)
  }

  function StartPass(v: Volatile, todo: seq<Frame>, reply: Option<Reply>): Volatile {
    if todo != [] then v.(worker := Looking(todo[0], Redrain(todo[1..], false, reply)))
    else if reply.Some? then Deliver(v.(worker := Idle), reply.value)
    else v.(worker := Idle)
  }

  /** The deposit at hand has its result: update the buffer, then heal, continue the re-drain, or resolve. */
  function Finish(c: Config, v: Volatile, f: Frame, task: Task, r: Result): Volatile {
    match task
    case Fresh(src) =>
      var v' := v.(pending := Retain(c, v.pending, f, r));
      if r.consumed && !r.already && v'.pending != [] then
        StartPass(v', Frames(v'.pending), Some(Reply(f.id, src, r)))
      else Deliver(v'.(worker := Idle), Reply(f.id, src, r))
    case Redrain(todo, progress, reply) =>
      var hit := r.consumed || r.already;
      var v' := v.(pending := if hit then Without(v.pending, f.id) else Bump(c, v.pending, f.id));
      if todo != [] then v'.(worker := Looking(todo[0], Redrain(todo[1..], progress || hit, reply)))
      else if progress || hit then StartPass(v', Frames(v'.pending), reply)
      else StartPass(v', [], reply)
  }

  // ---- History ----

  function ApplyFailing(h: History, id: Id): History {
    h.(applyFailures := h.applyFailures[id := Key(h.applyFailures, id) + 1])
  }

  /** A failed submit has reached the drain: one more real failure since the counter began. */
  function Failing(d: Durable, h: History, id: Id): History {
    h.(failures := h.failures[id := (if id in d.counters then Key(h.failures, id) else 0) + 1])
  }

  function GivingUp(h: History, id: Id, drop: Drop): History {
    h.(givenUp := h.givenUp[id := drop])
  }

  /** The environment's report on one deposit, made consistent with what the peer-link layer returns:
      a user message is always a successful decrypt, a successful decrypt is always consumed, and a
      second opening, where one is possible at all, gives the plaintext of the first. */
  function Normalised(h: History, id: Id, st: Opened): Opened {
    if (st.msg.Some? ==> st.decryptOk) && (st.decryptOk ==> st.consumed)
      && (st.msg.Some? && id in h.surfaced ==> st.msg.value == h.surfaced[id])
    then st else UNREADABLE
  }

  function ResultOf(st: Opened, staged: bool, userApplied: bool, applied: bool): Result {
    Result(st.consumed, st.decryptOk, false, applied,
           if st.msg.Some? then staged || userApplied else st.consumed)
  }

  function StartJob(v: Volatile): Volatile {
    if v.queue == [] then v
    else
      var v' := v.(queue := v.queue[1..]);
      match v.queue[0]
      case Submit(f, src) => v'.(worker := Looking(f, Fresh(src)))
      case Sweep => StartPass(v', Frames(v'.pending), None)
      case Retry => v'.(worker := RetryListing)
  }

  function RetryDone(v: Volatile): Volatile {
    v.(worker := Idle, puller := if v.puller.AwaitRetry? then Choosing else v.puller)
  }

  function OutboxList(m: Entries): map<Id, Msg> {
    map id | id in m :: m[id].msg
  }

  // One function per await of `#processOne`, in its order.

  function Look(c: Config, s: State, a: Answer, f: Frame, task: Task): State {
    if a.io.Done? && f.id in s.d.markers then
      s.(v := Finish(c, s.v, f, task, Result(true, false, true, false, true)))
    else
      State(s.d,
            if f.id in s.h.everMarked && Listable(s.d, f.id) then s.h.(rehanded := s.h.rehanded + {f.id}) else s.h,
            s.v.(worker := Opening(f, task)))
  }

  function Open(s: State, a: Answer, f: Frame, task: Task): State {
    var st := Normalised(s.h, f.id, a.st);
    if st.msg.Some? then
      s.(h := s.h.(surfaced := s.h.surfaced[f.id := st.msg.value]), v := s.v.(worker := Staging(f, task, st, st.msg.value)))
    else
      s.(h := if st.consumed then s.h.(handled := s.h.handled + {f.id}) else s.h,
         v := s.v.(worker := PlainApplying(f, task, st, true, false)))
  }

  function Stage(s: State, a: Answer, f: Frame, task: Task, st: Opened, msg: Msg): State {
    State(s.d.(outbox := Written(a.io, s.d.outbox, Staged(s.d.outbox, f.id, msg, a.now))),
          if f.id in s.d.outbox then s.h else s.h.(applyFailures := s.h.applyFailures[f.id := 0]),
          s.v.(worker := Applying(f, task, st, msg, a.io.Done?)))
  }

  function Apply(s: State, a: Answer, f: Frame, task: Task, st: Opened, msg: Msg, staged: bool): State {
    State(s.d.(store := Written(a.io, s.d.store, s.d.store + {msg})),
          if a.io.Done? then s.h else ApplyFailing(s.h, f.id),
          s.v.(worker := PlainApplying(f, task, st, staged, a.io.Done?)))
  }

  function PlainApply(s: State, a: Answer, f: Frame, task: Task, st: Opened, staged: bool, userApplied: bool): State {
    var applied := a.io.Done? && (st.msg.Some? ==> userApplied);
    s.(v := s.v.(worker := if st.msg.Some? && staged then Reconciling(f, task, st, userApplied, applied)
                           else Marking(f, task, st, staged, userApplied, applied)))
  }

  function Reconcile(s: State, a: Answer, f: Frame, task: Task, st: Opened, userApplied: bool, applied: bool): State {
    var after := if userApplied then Applied(s.d.outbox, f.id) else Failed(s.d.outbox, f.id);
    s.(d := s.d.(outbox := Written(a.io, s.d.outbox, after)),
       v := s.v.(worker := Marking(f, task, st, true, userApplied, applied)))
  }

  function Mark(c: Config, s: State, a: Answer, f: Frame, task: Task, st: Opened,
                staged: bool, userApplied: bool, applied: bool): State {
    var shouldMark := st.decryptOk && (st.msg.Some? ==> staged || userApplied);
    var v' := Finish(c, s.v, f, task, ResultOf(st, staged, userApplied, applied));
    if shouldMark && !a.io.Lost? then
      State(s.d.(markers := s.d.markers + {f.id}), s.h.(everMarked := s.h.everMarked + {f.id}), v')
    else s.(v := v')
  }

  // The outbox retry job.

  function RetryList(s: State, a: Answer): State {
    if a.io.Done? then s.(v := s.v.(worker := RetryPicking(OutboxList(s.d.outbox)))) else s.(v := RetryDone(s.v))
  }

  function RetryPick(s: State, a: Answer, todo: map<Id, Msg>): State {
    if |todo| == 0 then s.(v := RetryDone(s.v))
    else if a.pick in todo then s.(v := s.v.(worker := RetryApplying(a.pick, todo[a.pick], todo - {a.pick})))
    else s
  }

  function RetryApply(s: State, a: Answer, id: Id, msg: Msg, todo: map<Id, Msg>): State {
    State(s.d.(store := Written(a.io, s.d.store, s.d.store + {msg})),
          if a.io.Done? then s.h else ApplyFailing(s.h, id),
          s.v.(worker := if a.io.Done? then RetryClearing(id, msg, todo) else RetryCounting(id, todo)))
  }

  function RetryRemove(s: State, a: Answer, id: Id, todo: map<Id, Msg>): State {
    s.(d := s.d.(outbox := Written(a.io, s.d.outbox, Applied(s.d.outbox, id))),
       v := s.v.(worker := RetryPicking(todo)))
  }

  function RetryCount(c: Config, s: State, a: Answer, id: Id, todo: map<Id, Msg>): State {
    var after := Failed(s.d.outbox, id);
    var known := a.io.Done? && id in after;
    var attempts := if known then after[id].attempts else 0;
    var first := if known then Some(after[id].firstStagedAtMs) else None;
    var d' := s.d.(outbox := Written(a.io, s.d.outbox, after));
    if PoisonedApply(c.bounds, attempts, first, a.now) then
      State(d', GivingUp(s.h, id, Drop(attempts, Key(s.h.applyFailures, id))), s.v.(worker := RetryDropping(id, todo)))
    else State(d', s.h, s.v.(worker := RetryPicking(todo)))
  }

  function WorkerNext(c: Config, s: State, a: Answer): State {
    match s.v.worker
    case Idle => s.(v := StartJob(s.v))
    case Looking(f, task) => Look(c, s, a, f, task)
    case Opening(f, task) => Open(s, a, f, task)
    case Staging(f, task, st, msg) => Stage(s, a, f, task, st, msg)
    case Applying(f, task, st, msg, staged) => Apply(s, a, f, task, st, msg, staged)
    case PlainApplying(f, task, st, staged, userApplied) => PlainApply(s, a, f, task, st, staged, userApplied)
    case Reconciling(f, task, st, userApplied, applied) => Reconcile(s, a, f, task, st, userApplied, applied)
    case Marking(f, task, st, staged, userApplied, applied) => Mark(c, s, a, f, task, st, staged, userApplied, applied)
    case RetryListing => RetryList(s, a)
    case RetryPicking(todo) => RetryPick(s, a, todo)
    case RetryApplying(id, msg, todo) => RetryApply(s, a, id, msg, todo)
    case RetryClearing(id, msg, todo) => RetryRemove(s, a, id, todo)
    case RetryCounting(id, todo) => RetryCount(c, s, a, id, todo)
    case RetryDropping(id, todo) => RetryRemove(s, a, id, todo)
  }

  // ---- The catch-up drain ----

  function BeginDrain(v: Volatile): Volatile {
    v.(dirty := false, puller := AwaitRetry, queue := v.queue + [Retry])
  }

  function Requested(v: Volatile): Volatile {
    if v.puller.Off? then BeginDrain(v) else v.(dirty := true)
  }

  /** A drain pass returned normally: one more pass if a request came in meanwhile. */
  function PassDone(v: Volatile): Volatile {
    if v.dirty then BeginDrain(v) else v.(puller := Off)
  }

  predicate HeldBack(v: Volatile, id: Id, now: int) {
    id in v.backoff && now < v.backoff[id]
  }

  function Throttled(v: Volatile, id: Id, attempts: nat, now: int): Volatile {
    if attempts >= BACKOFF_AFTER_ATTEMPTS then v.(backoff := v.backoff[id := now + BACKOFF_MS]) else v
  }

  // One function per await of `#drainDurable` and of the legacy drain.

  function Choose(s: State, a: Answer): State {
    var v := s.v;
    if !a.io.Done? then s.(v := v.(puller := Off))   // `list` threw: the dirty bit stays as it is
    else if a.legacy then s.(v := if a.relay == [] then PassDone(v) else v.(puller := RelayItem(a.relay)))
    else if !IsPage(s.d, a.items) then s             // not an answer this node can give
    else if a.items == [] then s.(v := PassDone(v))
    else s.(v := v.(puller := Item(Page(a.items, 0, 0, [], true, false))))
  }

  function TakeItem(s: State, a: Answer, g: Page): State {
    var v := s.v;
    if g.k < |g.items| && !a.flag then
      var n := g.items[g.k];
      if HeldBack(v, Seq(n), a.now) then s.(v := v.(puller := Item(ItemGap(g))))
      else s.(v := v.(puller := AwaitSubmit(g, n), queue := v.queue + [Submit(Frame(Seq(n), true), Drain)]))
    else
      var g' := if g.k < |g.items| then g.(blocked := true) else g;
      s.(v := if g.through > 0 then v.(puller := AckingCursor(g'))
              else if g'.blocked then PassDone(v)
              else v.(puller := Choosing))
  }

  function Count(s: State, a: Answer, g: Page, n: nat): State {
    var id := Seq(n);
    var counted := PL.Attempted(s.d.counters, id, a.now);
    State(s.d.(counters := Written(a.io, s.d.counters, counted)), Failing(s.d, s.h, id),
          s.v.(puller := if a.io.Done? then Bounding(g, n, PL.Attempts(counted, id), a.now) else Item(ItemGap(g))))
  }

  function Bound(c: Config, s: State, a: Answer, g: Page, n: nat, attempts: nat, now: int): State {
    var id := Seq(n);
    var first := if a.io.Done? then PL.FirstSeen(s.d.counters, id) else 0;
    if Poisoned(c.bounds, attempts, first, now) then
      s.(h := GivingUp(s.h, id, Drop(attempts, Key(s.h.failures, id))), v := s.v.(puller := ClearingCounter(g, n)))
    else s.(v := Throttled(s.v, id, attempts, now).(puller := Item(ItemGap(g))))
  }

  function ClearCounter(s: State, a: Answer, id: Id, next: Puller): State {
    s.(d := s.d.(counters := Written(a.io, s.d.counters, s.d.counters - {id})), v := s.v.(puller := next))
  }

  function ForgetMarker(s: State, a: Answer, id: Id, next: Puller): State {
    s.(d := s.d.(markers := Written(a.io, s.d.markers, s.d.markers - {id})),
       v := s.v.(backoff := s.v.backoff - {id}, puller := next))
  }

  function AckCursor(s: State, a: Answer, g: Page): State {
    var moved := if g.through > s.d.cursor then g.through else s.d.cursor;
    s.(d := s.d.(cursor := Written(a.io, s.d.cursor, moved)),
       v := if a.io.Done? then s.v.(puller := ForgettingConsumed(g.consumed, g.blocked)) else PassDone(s.v))
  }

  function ForgetConsumed(s: State, a: Answer, todo: seq<nat>, blocked: bool): State {
    if todo == [] then s.(v := if blocked then PassDone(s.v) else s.v.(puller := Choosing))
    else ForgetMarker(s, a, Seq(todo[0]), ForgettingConsumed(todo[1..], blocked))
  }

  function RelayTake(s: State, a: Answer, rest: seq<string>): State {
    var v := s.v;
    if rest == [] then s.(v := if a.flag then PassDone(v) else v.(puller := Choosing))
    else if rest[0] == "" || HeldBack(v, Event(rest[0]), a.now) then s.(v := v.(puller := RelayItem(rest[1..])))
    else if !a.io.Done? then s.(v := v.(puller := Off))      // `fetch` threw
    else s.(v := v.(puller := RelayAwait(rest[0], rest[1..]),
                    queue := v.queue + [Submit(Frame(Event(rest[0]), !a.flag), Drain)]))
  }

  function RelayCount(s: State, a: Answer, e: string, rest: seq<string>): State {
    var id := Event(e);
    var counted := PL.Attempted(s.d.counters, id, a.now);
    State(s.d.(counters := Written(a.io, s.d.counters, counted)), Failing(s.d, s.h, id),
          s.v.(puller := if a.io.Done? then RelayBounding(e, rest, PL.Attempts(counted, id), a.now) else RelayItem(rest)))
  }

  function RelayBound(c: Config, s: State, a: Answer, e: string, rest: seq<string>, attempts: nat, now: int): State {
    var id := Event(e);
    var first := if a.io.Done? then PL.FirstSeen(s.d.counters, id) else 0;
    if Poisoned(c.bounds, attempts, first, now) then
      s.(h := GivingUp(s.h, id, Drop(attempts, Key(s.h.failures, id))), v := s.v.(puller := RelayAcking(e, rest)))
    else s.(v := Throttled(s.v, id, attempts, now).(puller := RelayItem(rest)))
  }

  function RelayAck(s: State, a: Answer, e: string, rest: seq<string>): State {
    s.(d := s.d.(acked := Written(a.io, s.d.acked, s.d.acked + {Event(e)})),
       v := s.v.(backoff := s.v.backoff - {Event(e)},
                 puller := if a.io.Done? then RelayForgetting(e, rest) else RelayItem(rest)))
  }

  function PullerNext(c: Config, s: State, a: Answer): State {
    match s.v.puller
    case Off => s
    case AwaitRetry => s
    case AwaitSubmit(_, _) => s
    case RelayAwait(_, _) => s
    case Choosing => Choose(s, a)
    case Item(g) => TakeItem(s, a, g)
    case Counting(g, n) => Count(s, a, g, n)
    case Bounding(g, n, attempts, now) => Bound(c, s, a, g, n, attempts, now)
    case ClearingCounter(g, n) => ClearCounter(s, a, Seq(n), ForgettingMarker(g, n))
    case ForgettingMarker(g, n) => ForgetMarker(s, a, Seq(n), Item(ItemSkipped(g, n)))
    case AckingCursor(g) => AckCursor(s, a, g)
    case ForgettingConsumed(todo, blocked) => ForgetConsumed(s, a, todo, blocked)
    case RelayItem(rest) => RelayTake(s, a, rest)
    case RelayCounting(e, rest) => RelayCount(s, a, e, rest)
    case RelayBounding(e, rest, attempts, now) => RelayBound(c, s, a, e, rest, attempts, now)
    case RelayAcking(e, rest) => RelayAck(s, a, e, rest)
    case RelayForgetting(e, rest) => ForgetMarker(s, a, Event(e), RelayClearing(e, rest))
    case RelayClearing(e, rest) => ClearCounter(s, a, Event(e), RelayItem(rest))
  }

  // ---- The whole system ----

  function BridgeNext(s: State, i: nat, a: Answer): State {
    if i >= |s.v.replies| then s
    else
      var p := s.v.replies[i];
      var v := s.v.(replies := s.v.replies[..i] + s.v.replies[i + 1..]);
      if !AckSafe(p.r) then s.(v := v)
      else if !a.legacy then s.(v := Requested(v))
      else if p.id.Event? then State(s.d.(acked := Written(a.io, s.d.acked, s.d.acked + {p.id})), s.h, v)
      else s.(v := v)
  }

  predicate Redraining(w: Worker) {
    && (w.Looking? || w.Opening? || w.Staging? || w.Applying? || w.PlainApplying? || w.Reconciling? || w.Marking?)
    && w.task.Redrain?
  }

  const REST := Volatile([], Idle, [], Off, false, map[], [])

  const FRESH := State(
    Durable({}, map[], map[], {}, 0, {}, {}),
    History(map[], {}, map[], {}, {}, map[], map[]),
    REST)

  function Step(c: Config, s: State, a: Action): State {
    match a
    case Deposit(n) => if n > s.d.cursor && (forall m :: m in s.d.log ==> m < n) then s.(d := s.d.(log := s.d.log + {n})) else s
    case PushFrame(f) => s.(v := s.v.(queue := s.v.queue + [Submit(f, Push)]))
    case SweepTick =>
      if s.v.pending == [] || Redraining(s.v.worker) then s
      else s.(v := s.v.(queue := s.v.queue + [Sweep]))
    case RequestDrain => s.(v := Requested(s.v))
    case WorkerStep(b) => WorkerNext(c, s, b)
    case PullerStep(b) => PullerNext(c, s, b)
    case Bridge(i, b) => BridgeNext(s, i, b)
    case Crash => s.(v := REST)
  }

  function Run(c: Config, s: State, acts: seq<Action>): State
    decreases |acts|
  {
    if acts == [] then s else Run(c, Step(c, s, acts[0]), acts[1..])
  }
}
