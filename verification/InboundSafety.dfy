/** No deposit is lost silently: over every run, whatever fails and wherever a crash
    falls, a deposit the cursor has passed or whose relay copy was deleted is applied,
    staged, consumed as a protocol body, or was given up under a poison bound. */
module InboundSafety {
  import opened DepositTypes
  import opened ApplyOutbox
  import opened InboundProtocol

  ghost predicate Safe(d: Durable, h: History, id: Id) {
    || id in h.givenUp
    || id in h.handled
    || (id in h.surfaced && (h.surfaced[id] in d.store || id in d.outbox))
  }

  // ---- The invariant ----

  ghost predicate HomeOk(d: Durable, h: History) {
    && (forall id :: id in d.outbox ==> id in h.surfaced && d.outbox[id].msg == h.surfaced[id])
    && (forall id :: id in d.markers ==> Safe(d, h, id))
    && (forall id :: id in d.acked ==> Safe(d, h, id))
    && PassedOk(d, h, d.cursor)
  }

  ghost predicate PassedOk(d: Durable, h: History, through: nat) {
    forall n :: n in d.log && n <= through ==> Safe(d, h, Seq(n))
  }

  ghost predicate ReplyOk(d: Durable, h: History, p: Reply) {
    AckSafe(p.r) ==> Safe(d, h, p.id)
  }

  ghost predicate TaskOk(d: Durable, h: History, t: Task) {
    t.Redrain? && t.reply.Some? ==> ReplyOk(d, h, t.reply.value)
  }

  /** What the pipeline knows about the deposit at hand once decryption has reported on it. */
  ghost predicate StatusOk(h: History, id: Id, st: Opened) {
    && (st.msg.Some? ==> st.consumed && st.decryptOk && id in h.surfaced && h.surfaced[id] == st.msg.value)
    && (st.msg.None? ==> (st.decryptOk ==> st.consumed) && (st.consumed ==> id in h.handled))
  }

  ghost predicate TodoOk(h: History, todo: map<Id, Msg>) {
    forall id :: id in todo ==> id in h.surfaced && h.surfaced[id] == todo[id]
  }

  ghost predicate WorkerOk(d: Durable, h: History, w: Worker) {
    match w
    case Idle => true
    case Looking(f, t) => TaskOk(d, h, t)
    case Opening(f, t) => TaskOk(d, h, t)
    case Staging(f, t, st, msg) => TaskOk(d, h, t) && StatusOk(h, f.id, st) && st.msg == Some(msg)
    case Applying(f, t, st, msg, staged) =>
      TaskOk(d, h, t) && StatusOk(h, f.id, st) && st.msg == Some(msg) && (staged ==> f.id in d.outbox)
    case PlainApplying(f, t, st, staged, userApplied) =>
      && TaskOk(d, h, t) && StatusOk(h, f.id, st)
      && (st.msg.Some? && staged ==> f.id in d.outbox)
      && (userApplied ==> st.msg.Some? && st.msg.value in d.store)
    case Reconciling(f, t, st, userApplied, _) =>
      && TaskOk(d, h, t) && StatusOk(h, f.id, st) && st.msg.Some? && f.id in d.outbox
      && (userApplied ==> st.msg.value in d.store)
    case Marking(f, t, st, staged, userApplied, _) =>
      && TaskOk(d, h, t) && StatusOk(h, f.id, st)
      && (st.msg.Some? && (staged || userApplied) ==> Safe(d, h, f.id))
    case RetryListing => true
    case RetryPicking(todo) => TodoOk(h, todo)
    case RetryApplying(id, msg, todo) => TodoOk(h, todo) && id in h.surfaced && h.surfaced[id] == msg
    case RetryClearing(id, msg, todo) =>
      TodoOk(h, todo) && id in h.surfaced && h.surfaced[id] == msg && msg in d.store
    case RetryCounting(id, todo) => TodoOk(h, todo)
    case RetryDropping(id, todo) => TodoOk(h, todo) && id in h.givenUp
  }

  /** A page is gap-free above the cursor, and everything up to its watermark is accounted for. */
  ghost predicate PageOk(d: Durable, h: History, g: Page) {
    && g.k <= |g.items| && g.items != [] && IsPage(d, g.items)
    && PassedOk(d, h, g.through)
    && (g.through == 0 || g.through in g.items)
    && (g.contiguous ==> g.through == if g.k == 0 then 0 else g.items[g.k - 1])
    && (forall n :: n in g.consumed ==> n <= g.through)
  }

  ghost predicate AtItem(d: Durable, h: History, g: Page, n: nat) {
    PageOk(d, h, g) && g.k < |g.items| && g.items[g.k] == n
  }

  ghost predicate PullerOk(d: Durable, h: History, p: Puller) {
    match p
    case Off => true
    case AwaitRetry => true
    case Choosing => true
    case Item(g) => PageOk(d, h, g)
    case AwaitSubmit(g, n) => AtItem(d, h, g, n)
    case Counting(g, n) => AtItem(d, h, g, n)
    case Bounding(g, n, _, _) => AtItem(d, h, g, n)
    case ClearingCounter(g, n) => AtItem(d, h, g, n) && Seq(n) in h.givenUp
    case ForgettingMarker(g, n) => AtItem(d, h, g, n) && Seq(n) in h.givenUp
    case AckingCursor(g) => PageOk(d, h, g)
    case ForgettingConsumed(todo, _) => forall n :: n in todo ==> n <= d.cursor
    case RelayItem(_) => true
    case RelayAwait(_, _) => true
    case RelayCounting(_, _) => true
    case RelayBounding(_, _, _, _) => true
    case RelayAcking(e, _) => Safe(d, h, Event(e))
    case RelayForgetting(e, _) => Event(e) in d.acked
    case RelayClearing(e, _) => true
  }

  ghost predicate VolatileOk(d: Durable, h: History, v: Volatile) {
    && WorkerOk(d, h, v.worker)
    && PullerOk(d, h, v.puller)
    && (forall p :: p in v.replies ==> ReplyOk(d, h, p))
  }

  ghost predicate Inv(s: State) {
    HomeOk(s.d, s.h) && VolatileOk(s.d, s.h, s.v)
  }

  // ---- Stability: what one party does leaves the others' knowledge true ----

  /** Nothing that was accounted for stops being so, and nothing given up or deleted comes back. */
  ghost predicate Keeps(d: Durable, h: History, d': Durable, h': History) {
    && (forall id :: Safe(d, h, id) ==> Safe(d', h', id))
    && h.givenUp.Keys <= h'.givenUp.Keys
    && d.acked <= d'.acked
  }

  lemma PullerStable(d: Durable, h: History, d': Durable, h': History, p: Puller)
    requires PullerOk(d, h, p) && Keeps(d, h, d', h') && d.cursor == d'.cursor && d.log == d'.log
    ensures PullerOk(d', h', p)
  {
  }

  lemma WorkerStable(d: Durable, h: History, d': Durable, h': History, w: Worker)
    requires WorkerOk(d, h, w) && Keeps(d, h, d', h')
    requires d.outbox == d'.outbox && d.store == d'.store
    requires h.surfaced == h'.surfaced && h.handled == h'.handled
    ensures WorkerOk(d', h', w)
  {
  }

  lemma RepliesStable(d: Durable, h: History, d': Durable, h': History, ps: seq<Reply>)
    requires (forall p :: p in ps ==> ReplyOk(d, h, p)) && Keeps(d, h, d', h')
    ensures forall p :: p in ps ==> ReplyOk(d', h', p)
  {
  }

  // ---- The worker ----

  lemma WatermarkMoves(d: Durable, h: History, g: Page, n: nat)
    requires AtItem(d, h, g, n) && Safe(d, h, Seq(n)) && PassedOk(d, h, d.cursor)
    ensures PageOk(d, h, ItemDone(g, n)) && PageOk(d, h, ItemSkipped(g, n))
  {
    if g.contiguous {
      forall m | m in d.log && m <= n ensures Safe(d, h, Seq(m)) {
        if m > d.cursor {
          assert m in g.items;
          var i :| 0 <= i < |g.items| && g.items[i] == m;
          assert i <= g.k;
          assert i < g.k ==> g.items[i] <= g.items[g.k - 1];
        }
      }
    }
  }

  lemma DeliverOk(d: Durable, h: History, v: Volatile, p: Reply)
    requires HomeOk(d, h) && VolatileOk(d, h, v) && ReplyOk(d, h, p)
    ensures VolatileOk(d, h, Deliver(v, p))
  {
    if p.src.Drain? && v.puller.AwaitSubmit? && p.id == Seq(v.puller.n) && AckSafe(p.r) {
      WatermarkMoves(d, h, v.puller.p, v.puller.n);
    }
  }

  lemma StartPassOk(d: Durable, h: History, v: Volatile, todo: seq<Frame>, reply: Option<Reply>)
    requires HomeOk(d, h) && VolatileOk(d, h, v.(worker := Idle))
    requires reply.Some? ==> ReplyOk(d, h, reply.value)
    ensures VolatileOk(d, h, StartPass(v, todo, reply))
  {
    if todo == [] && reply.Some? {
      DeliverOk(d, h, v.(worker := Idle), reply.value);
    }
  }

  lemma FinishOk(c: Config, d: Durable, h: History, v: Volatile, f: Frame, task: Task, r: Result)
    requires HomeOk(d, h) && VolatileOk(d, h, v.(worker := Idle)) && TaskOk(d, h, task)
    requires AckSafe(r) ==> Safe(d, h, f.id)
    ensures VolatileOk(d, h, Finish(c, v, f, task, r))
  {
    match task
    case Fresh(src) =>
      var v' := v.(pending := Retain(c, v.pending, f, r));
      var p := Reply(f.id, src, r);
      if r.consumed && !r.already && v'.pending != [] {
        StartPassOk(d, h, v', Frames(v'.pending), Some(p));
      } else {
        DeliverOk(d, h, v'.(worker := Idle), p);
      }
    case Redrain(todo, progress, reply) =>
      var hit := r.consumed || r.already;
      var v' := v.(pending := if hit then Without(v.pending, f.id) else Bump(c, v.pending, f.id));
      if todo == [] {
        StartPassOk(d, h, v', if progress || hit then Frames(v'.pending) else [], reply);
      }
  }

  /** A step that re-establishes the invariant and forgets nothing that was accounted for. */
  ghost predicate Good(s: State, s': State) {
    Inv(s') && Keeps(s.d, s.h, s'.d, s'.h)
  }

  /** After its own step the worker's neighbours still hold. */
  lemma WorkerMoved(s: State, s': State)
    requires Inv(s) && Keeps(s.d, s.h, s'.d, s'.h) && s.d.cursor == s'.d.cursor && s.d.log == s'.d.log
    requires HomeOk(s'.d, s'.h) && WorkerOk(s'.d, s'.h, s'.v.worker)
    requires s'.v.puller == s.v.puller && s'.v.replies == s.v.replies
    ensures Good(s, s')
  {
    PullerStable(s.d, s.h, s'.d, s'.h, s.v.puller);
    RepliesStable(s.d, s.h, s'.d, s'.h, s.v.replies);
  }

  lemma LookGood(c: Config, s: State, a: Answer, f: Frame, task: Task)
    requires Inv(s) && s.v.worker == Looking(f, task)
    ensures Good(s, Look(c, s, a, f, task))
  {
    if a.io.Done? && f.id in s.d.markers {
      FinishOk(c, s.d, s.h, s.v, f, task, Result(true, false, true, false, true));
    } else {
      WorkerMoved(s, Look(c, s, a, f, task));
    }
  }

  lemma OpenGood(s: State, a: Answer, f: Frame, task: Task)
    requires Inv(s) && s.v.worker == Opening(f, task)
    ensures Good(s, Open(s, a, f, task))
  {
    var s' := Open(s, a, f, task);
    assert Keeps(s.d, s.h, s'.d, s'.h);
    WorkerMoved(s, s');
  }

  lemma StageGood(s: State, a: Answer, f: Frame, task: Task, st: Opened, msg: Msg)
    requires Inv(s) && s.v.worker == Staging(f, task, st, msg)
    ensures Good(s, Stage(s, a, f, task, st, msg))
  {
    var s' := Stage(s, a, f, task, st, msg);
    assert Keeps(s.d, s.h, s'.d, s'.h);
    WorkerMoved(s, s');
  }

  lemma ApplyGood(s: State, a: Answer, f: Frame, task: Task, st: Opened, msg: Msg, staged: bool)
    requires Inv(s) && s.v.worker == Applying(f, task, st, msg, staged)
    ensures Good(s, Apply(s, a, f, task, st, msg, staged))
  {
    var s' := Apply(s, a, f, task, st, msg, staged);
    assert Keeps(s.d, s.h, s'.d, s'.h);
    WorkerMoved(s, s');
  }

  lemma PlainApplyGood(s: State, a: Answer, f: Frame, task: Task, st: Opened, staged: bool, userApplied: bool)
    requires Inv(s) && s.v.worker == PlainApplying(f, task, st, staged, userApplied)
    ensures Good(s, PlainApply(s, a, f, task, st, staged, userApplied))
  {
    var s' := PlainApply(s, a, f, task, st, staged, userApplied);
    assert Keeps(s.d, s.h, s'.d, s'.h);
    WorkerMoved(s, s');
  }

  lemma ReconcileGood(s: State, a: Answer, f: Frame, task: Task, st: Opened, userApplied: bool, applied: bool)
    requires Inv(s) && s.v.worker == Reconciling(f, task, st, userApplied, applied)
    ensures Good(s, Reconcile(s, a, f, task, st, userApplied, applied))
  {
    var s' := Reconcile(s, a, f, task, st, userApplied, applied);
    assert Keeps(s.d, s.h, s'.d, s'.h);
    WorkerMoved(s, s');
  }

  lemma RetryListGood(s: State, a: Answer)
    requires Inv(s) && s.v.worker == RetryListing
    ensures Good(s, RetryList(s, a))
  {
  }

  lemma RetryPickGood(s: State, a: Answer, todo: map<Id, Msg>)
    requires Inv(s) && s.v.worker == RetryPicking(todo)
    ensures Good(s, RetryPick(s, a, todo))
  {
  }

  lemma RetryApplyGood(s: State, a: Answer, id: Id, msg: Msg, todo: map<Id, Msg>)
    requires Inv(s) && s.v.worker == RetryApplying(id, msg, todo)
    ensures Good(s, RetryApply(s, a, id, msg, todo))
  {
    var s' := RetryApply(s, a, id, msg, todo);
    assert Keeps(s.d, s.h, s'.d, s'.h);
    WorkerMoved(s, s');
  }

  lemma RetryClearGood(s: State, a: Answer, id: Id, msg: Msg, todo: map<Id, Msg>)
    requires Inv(s) && s.v.worker == RetryClearing(id, msg, todo)
    ensures Good(s, RetryRemove(s, a, id, todo))
  {
    var s' := RetryRemove(s, a, id, todo);
    assert Keeps(s.d, s.h, s'.d, s'.h);
    WorkerMoved(s, s');
  }

  lemma RetryDropGood(s: State, a: Answer, id: Id, todo: map<Id, Msg>)
    requires Inv(s) && s.v.worker == RetryDropping(id, todo)
    ensures Good(s, RetryRemove(s, a, id, todo))
  {
    var s' := RetryRemove(s, a, id, todo);
    assert Keeps(s.d, s.h, s'.d, s'.h);
    WorkerMoved(s, s');
  }

  lemma RetryCountGood(c: Config, s: State, a: Answer, id: Id, todo: map<Id, Msg>)
    requires Inv(s) && s.v.worker == RetryCounting(id, todo)
    ensures Good(s, RetryCount(c, s, a, id, todo))
  {
    hide PoisonedApply;
    var s' := RetryCount(c, s, a, id, todo);
    assert Keeps(s.d, s.h, s'.d, s'.h);
    WorkerMoved(s, s');
  }

  lemma MarkGood(c: Config, s: State, a: Answer, f: Frame, task: Task, st: Opened,
                 staged: bool, userApplied: bool, applied: bool)
    requires Inv(s) && s.v.worker == Marking(f, task, st, staged, userApplied, applied)
    ensures Good(s, Mark(c, s, a, f, task, st, staged, userApplied, applied))
  {
    var s' := Mark(c, s, a, f, task, st, staged, userApplied, applied);
    assert Keeps(s.d, s.h, s'.d, s'.h);
    WorkerMoved(s, s'.(v := s.v.(worker := Idle)));
    FinishOk(c, s'.d, s'.h, s.v, f, task, ResultOf(st, staged, userApplied, applied));
  }

  lemma StartJobGood(s: State)
    requires Inv(s) && s.v.worker.Idle?
    ensures Good(s, s.(v := StartJob(s.v)))
  {
    if s.v.queue != [] && s.v.queue[0].Sweep? {
      var v' := s.v.(queue := s.v.queue[1..]);
      StartPassOk(s.d, s.h, v', Frames(v'.pending), None);
    }
  }

  lemma RetryGood(c: Config, s: State, a: Answer)
    requires Inv(s)
    requires s.v.worker.RetryListing? || s.v.worker.RetryPicking? || s.v.worker.RetryApplying?
          || s.v.worker.RetryClearing? || s.v.worker.RetryCounting? || s.v.worker.RetryDropping?
    ensures Good(s, WorkerNext(c, s, a))
  {
    hide Inv, Good, RetryList, RetryPick, RetryApply, RetryRemove, RetryCount;
    match s.v.worker
    case RetryListing => RetryListGood(s, a);
    case RetryPicking(todo) => RetryPickGood(s, a, todo);
    case RetryApplying(id, msg, todo) => RetryApplyGood(s, a, id, msg, todo);
    case RetryClearing(id, msg, todo) => RetryClearGood(s, a, id, msg, todo);
    case RetryCounting(id, todo) => RetryCountGood(c, s, a, id, todo);
    case RetryDropping(id, todo) => RetryDropGood(s, a, id, todo);
  }

  lemma WorkerGood(c: Config, s: State, a: Answer)
    requires Inv(s)
    ensures Good(s, WorkerNext(c, s, a))
  {
    hide Inv, Good, Look, Open, Stage, Apply, PlainApply, Reconcile, Mark, StartJob;
    match s.v.worker
    case Idle => StartJobGood(s);
    case Looking(f, t) => LookGood(c, s, a, f, t);
    case Opening(f, t) => OpenGood(s, a, f, t);
    case Staging(f, t, st, msg) => StageGood(s, a, f, t, st, msg);
    case Applying(f, t, st, msg, g) => ApplyGood(s, a, f, t, st, msg, g);
    case PlainApplying(f, t, st, g, u) => PlainApplyGood(s, a, f, t, st, g, u);
    case Reconciling(f, t, st, u, p) => ReconcileGood(s, a, f, t, st, u, p);
    case Marking(f, t, st, g, u, p) => MarkGood(c, s, a, f, t, st, g, u, p);
    case _ => hide WorkerNext; RetryGood(c, s, a);
  }

  // ---- The drain ----

  /** After its own step the drain's neighbours still hold. */
  lemma PullerMoved(s: State, s': State)
    requires Inv(s) && Keeps(s.d, s.h, s'.d, s'.h)
    requires s.d.outbox == s'.d.outbox && s.d.store == s'.d.store
    requires s.h.surfaced == s'.h.surfaced && s.h.handled == s'.h.handled
    requires s.v.worker == s'.v.worker && s.v.replies == s'.v.replies
    requires HomeOk(s'.d, s'.h) && PullerOk(s'.d, s'.h, s'.v.puller)
    ensures Good(s, s')
  {
    WorkerStable(s.d, s.h, s'.d, s'.h, s.v.worker);
    RepliesStable(s.d, s.h, s'.d, s'.h, s.v.replies);
  }

  /** A step of the drain that touches no durable state. */
  lemma PullerOnly(s: State, v': Volatile)
    requires Inv(s) && v'.worker == s.v.worker && v'.replies == s.v.replies && PullerOk(s.d, s.h, v'.puller)
    ensures Good(s, s.(v := v'))
  {
    hide WorkerOk, PullerOk, ReplyOk, HomeOk, Safe;
  }

  /** What accounts for deposits: everything except markers, counters and their bookkeeping. */
  ghost predicate SameLedger(s: State, s': State) {
    && s'.d.outbox == s.d.outbox && s'.d.store == s.d.store && s'.d.cursor == s.d.cursor
    && s'.d.log == s.d.log && s'.d.acked == s.d.acked && s'.d.markers <= s.d.markers
    && s'.h.surfaced == s.h.surfaced && s'.h.handled == s.h.handled && s'.h.givenUp.Keys >= s.h.givenUp.Keys
    && s'.v.worker == s.v.worker && s'.v.replies == s.v.replies
  }

  lemma LedgerMoved(s: State, s': State, p: Puller)
    requires Inv(s) && SameLedger(s, s') && PullerOk(s.d, s.h, p)
    ensures Keeps(s.d, s.h, s'.d, s'.h) && HomeOk(s'.d, s'.h) && PullerOk(s'.d, s'.h, p)
    ensures s'.v.puller == p ==> Good(s, s')
  {
    assert Keeps(s.d, s.h, s'.d, s'.h);
    PullerStable(s.d, s.h, s'.d, s'.h, p);
    if s'.v.puller == p { PullerMoved(s, s'); }
  }

  lemma ChooseGood(s: State, a: Answer)
    requires Inv(s) && s.v.puller == Choosing
    ensures Good(s, Choose(s, a))
  {
    hide WorkerOk, ReplyOk, HomeOk, Safe, Good, IsPage;
    assert forall g: Page :: g == Page(a.items, 0, 0, [], true, false) && IsPage(s.d, a.items) && a.items != [] ==>
      PullerOk(s.d, s.h, Item(g)) by { NothingPassed(s.d, s.h); }
    PullerOnly(s, Choose(s, a).v);
  }

  lemma NothingPassed(d: Durable, h: History)
    requires HomeOk(d, h)
    ensures PassedOk(d, h, 0)
  {
  }

  lemma TakeItemGood(s: State, a: Answer, g: Page)
    requires Inv(s) && s.v.puller == Item(g)
    ensures Good(s, TakeItem(s, a, g))
  {
    hide WorkerOk, ReplyOk, HomeOk, Safe, Good, IsPage, PassedOk;
    PullerOnly(s, TakeItem(s, a, g).v);
  }

  lemma CountGood(s: State, a: Answer, g: Page, n: nat)
    requires Inv(s) && s.v.puller == Counting(g, n)
    ensures Good(s, Count(s, a, g, n))
  {
    hide WorkerOk, ReplyOk, HomeOk, Safe, Good, IsPage, PassedOk;
    LedgerMoved(s, Count(s, a, g, n), Count(s, a, g, n).v.puller);
  }

  lemma BoundGood(c: Config, s: State, a: Answer, g: Page, n: nat, attempts: nat, now: int)
    requires Inv(s) && s.v.puller == Bounding(g, n, attempts, now)
    ensures Good(s, Bound(c, s, a, g, n, attempts, now))
  {
    hide WorkerOk, ReplyOk, HomeOk, Good, IsPage, PassedOk, Safe;
    var s' := Bound(c, s, a, g, n, attempts, now);
    if s'.v.puller == Item(ItemGap(g)) {
      LedgerMoved(s, s', Item(ItemGap(g)));
    } else {
      LedgerMoved(s, s', Counting(g, n));
      PullerMoved(s, s');
    }
  }

  lemma ClearingCounterGood(s: State, a: Answer, g: Page, n: nat)
    requires Inv(s) && s.v.puller == ClearingCounter(g, n)
    ensures Good(s, ClearCounter(s, a, Seq(n), ForgettingMarker(g, n)))
  {
    hide WorkerOk, ReplyOk, HomeOk, Safe, Good, IsPage, PassedOk;
    LedgerMoved(s, ClearCounter(s, a, Seq(n), ForgettingMarker(g, n)), ForgettingMarker(g, n));
  }

  lemma ForgettingMarkerGood(s: State, a: Answer, g: Page, n: nat)
    requires Inv(s) && s.v.puller == ForgettingMarker(g, n)
    ensures Good(s, ForgetMarker(s, a, Seq(n), Item(ItemSkipped(g, n))))
  {
    hide WorkerOk, ReplyOk, Good, IsPage, PassedOk;
    WatermarkMoves(s.d, s.h, g, n);
    LedgerMoved(s, ForgetMarker(s, a, Seq(n), Item(ItemSkipped(g, n))), Item(ItemSkipped(g, n)));
  }

  lemma AckCursorGood(s: State, a: Answer, g: Page)
    requires Inv(s) && s.v.puller == AckingCursor(g)
    ensures Good(s, AckCursor(s, a, g))
  {
    var s' := AckCursor(s, a, g);
    assert Keeps(s.d, s.h, s'.d, s'.h);
    PullerMoved(s, s');
  }

  lemma ForgetConsumedGood(s: State, a: Answer, todo: seq<nat>, blocked: bool)
    requires Inv(s) && s.v.puller == ForgettingConsumed(todo, blocked)
    ensures Good(s, ForgetConsumed(s, a, todo, blocked))
  {
    hide WorkerOk, ReplyOk, HomeOk, Safe, Good, IsPage, PassedOk;
    if todo == [] {
      PullerOnly(s, ForgetConsumed(s, a, todo, blocked).v);
    } else {
      assert forall n :: n in todo[1..] ==> n in todo;
      LedgerMoved(s, ForgetConsumed(s, a, todo, blocked), ForgettingConsumed(todo[1..], blocked));
    }
  }

  lemma RelayTakeGood(s: State, a: Answer, rest: seq<string>)
    requires Inv(s) && s.v.puller == RelayItem(rest)
    ensures Good(s, RelayTake(s, a, rest))
  {
    hide WorkerOk, ReplyOk, HomeOk, Safe, Good;
    PullerOnly(s, RelayTake(s, a, rest).v);
  }

  lemma RelayCountGood(s: State, a: Answer, e: string, rest: seq<string>)
    requires Inv(s) && s.v.puller == RelayCounting(e, rest)
    ensures Good(s, RelayCount(s, a, e, rest))
  {
    hide WorkerOk, ReplyOk, HomeOk, Safe, Good;
    LedgerMoved(s, RelayCount(s, a, e, rest), RelayCount(s, a, e, rest).v.puller);
  }

  lemma RelayBoundGood(c: Config, s: State, a: Answer, e: string, rest: seq<string>, attempts: nat, now: int)
    requires Inv(s) && s.v.puller == RelayBounding(e, rest, attempts, now)
    ensures Good(s, RelayBound(c, s, a, e, rest, attempts, now))
  {
    hide WorkerOk, ReplyOk, HomeOk, Good;
    var s' := RelayBound(c, s, a, e, rest, attempts, now);
    if s'.v.puller == RelayItem(rest) {
      LedgerMoved(s, s', RelayItem(rest));
    } else {
      LedgerMoved(s, s', RelayItem(rest));
      PullerMoved(s, s');
    }
  }

  lemma RelayAckGood(s: State, a: Answer, e: string, rest: seq<string>)
    requires Inv(s) && s.v.puller == RelayAcking(e, rest)
    ensures Good(s, RelayAck(s, a, e, rest))
  {
    var s' := RelayAck(s, a, e, rest);
    assert Keeps(s.d, s.h, s'.d, s'.h);
    PullerMoved(s, s');
  }

  lemma RelayForgetGood(s: State, a: Answer, e: string, rest: seq<string>)
    requires Inv(s)
    ensures Good(s, ForgetMarker(s, a, Event(e), RelayClearing(e, rest)))
    ensures Good(s, ClearCounter(s, a, Event(e), RelayItem(rest)))
  {
    hide WorkerOk, ReplyOk, HomeOk, Safe, Good;
    LedgerMoved(s, ForgetMarker(s, a, Event(e), RelayClearing(e, rest)), RelayClearing(e, rest));
    LedgerMoved(s, ClearCounter(s, a, Event(e), RelayItem(rest)), RelayItem(rest));
  }

  lemma PullerGood(c: Config, s: State, a: Answer)
    requires Inv(s)
    ensures Good(s, PullerNext(c, s, a))
  {
    hide Inv, Good, Choose, TakeItem, Count, Bound, ClearCounter, ForgetMarker, AckCursor, ForgetConsumed;
    hide RelayTake, RelayCount, RelayBound, RelayAck;
    match s.v.puller
    case Choosing => ChooseGood(s, a);
    case Item(g) => TakeItemGood(s, a, g);
    case Counting(g, n) => CountGood(s, a, g, n);
    case Bounding(g, n, attempts, now) => BoundGood(c, s, a, g, n, attempts, now);
    case ClearingCounter(g, n) => ClearingCounterGood(s, a, g, n);
    case ForgettingMarker(g, n) => ForgettingMarkerGood(s, a, g, n);
    case AckingCursor(g) => AckCursorGood(s, a, g);
    case ForgettingConsumed(todo, blocked) => ForgetConsumedGood(s, a, todo, blocked);
    case RelayItem(rest) => RelayTakeGood(s, a, rest);
    case RelayCounting(e, rest) => RelayCountGood(s, a, e, rest);
    case RelayBounding(e, rest, attempts, now) => RelayBoundGood(c, s, a, e, rest, attempts, now);
    case RelayAcking(e, rest) => RelayAckGood(s, a, e, rest);
    case RelayForgetting(e, rest) => RelayForgetGood(s, a, e, rest);
    case RelayClearing(e, rest) => RelayForgetGood(s, a, e, rest);
    case _ => StillGood(s);
  }

  lemma StillGood(s: State)
    requires Inv(s)
    ensures Good(s, s)
  {
  }

  // ---- Every step, every run ----

  lemma BridgeGood(s: State, i: nat, a: Answer)
    requires Inv(s)
    ensures Good(s, BridgeNext(s, i, a))
  {
    var s' := BridgeNext(s, i, a);
    assert i < |s.v.replies| ==> s.v.replies[i] in s.v.replies;
    assert Keeps(s.d, s.h, s'.d, s'.h);
    WorkerStable(s.d, s.h, s'.d, s'.h, s.v.worker);
    PullerStable(s.d, s.h, s'.d, s'.h, s.v.puller);
    RepliesStable(s.d, s.h, s'.d, s'.h, s'.v.replies);
  }

  /** A new deposit is numbered above everything the node has logged, so it breaks no listing. */
  lemma PageGrows(d: Durable, h: History, d': Durable, n: nat, g: Page)
    requires PageOk(d, h, g) && n > d.cursor && forall m :: m in d.log ==> m < n
    requires d' == d.(log := d.log + {n})
    ensures PageOk(d', h, g)
  {
    assert forall id :: Safe(d, h, id) ==> Safe(d', h, id);
  }

  lemma DepositGood(s: State, n: nat)
    requires Inv(s) && n > s.d.cursor && forall m :: m in s.d.log ==> m < n
    ensures Good(s, s.(d := s.d.(log := s.d.log + {n})))
  {
    hide IsPage, PageOk;
    var d' := s.d.(log := s.d.log + {n});
    assert Keeps(s.d, s.h, d', s.h);
    var p := s.v.puller;
    if p.Item? || p.AwaitSubmit? || p.Counting? || p.Bounding? || p.ClearingCounter? || p.ForgettingMarker? || p.AckingCursor? {
      PageGrows(s.d, s.h, d', n, p.p);
    }
    WorkerStable(s.d, s.h, d', s.h, s.v.worker);
    RepliesStable(s.d, s.h, d', s.h, s.v.replies);
  }

  lemma StepKeeps(c: Config, s: State, a: Action)
    requires Inv(s)
    ensures Inv(Step(c, s, a))
    ensures forall id :: Safe(s.d, s.h, id) ==> Safe(Step(c, s, a).d, Step(c, s, a).h, id)
  {
    hide WorkerNext, PullerNext, BridgeNext, IsPage, PassedOk, WorkerOk, PageOk;
    match a
    case Deposit(n) => if Step(c, s, a) != s { DepositGood(s, n); }
    case WorkerStep(b) => WorkerGood(c, s, b);
    case PullerStep(b) => PullerGood(c, s, b);
    case Bridge(i, b) => BridgeGood(s, i, b);
    case _ => QuietGood(c, s, a);
  }

  lemma QuietGood(c: Config, s: State, a: Action)
    requires Inv(s) && (a.PushFrame? || a.SweepTick? || a.RequestDrain? || a.Crash?)
    ensures Good(s, Step(c, s, a))
  {
  }

  lemma {:induction false} RunKeeps(c: Config, s: State, acts: seq<Action>)
    requires Inv(s)
    ensures Inv(Run(c, s, acts))
    ensures forall id :: Safe(s.d, s.h, id) ==> Safe(Run(c, s, acts).d, Run(c, s, acts).h, id)
    decreases |acts|
  {
    hide Inv, Safe, Step;
    if acts != [] {
      StepKeeps(c, s, acts[0]);
      RunKeeps(c, Step(c, s, acts[0]), acts[1..]);
    }
  }

  // ---- The theorem ----

  /** What a user can still get at, or was told about. */
  ghost predicate Accounted(s: State, id: Id) {
    || (id in s.h.surfaced && s.h.surfaced[id] in s.d.store)                                     // applied
    || (id in s.h.surfaced && id in s.d.outbox && s.d.outbox[id].msg == s.h.surfaced[id])        // staged, plaintext intact
    || id in s.h.handled                                                                         // a protocol deposit
    || id in s.h.givenUp                                                                         // quarantined
  }

  lemma NoSilentLoss(c: Config, acts: seq<Action>)
    ensures var s := Run(c, FRESH, acts);
      && (forall n :: n in s.d.log && n <= s.d.cursor ==> Accounted(s, Seq(n)))
      && (forall id :: id in s.d.acked ==> Accounted(s, id))
      && (forall id :: id in s.d.markers ==> Accounted(s, id))
  {
    RunKeeps(c, FRESH, acts);
  }

  /** And what was accounted for once is accounted for after any further run. */
  lemma AccountedForEver(c: Config, acts: seq<Action>, more: seq<Action>, id: Id)
    requires Accounted(Run(c, FRESH, acts), id)
    ensures Accounted(Run(c, Run(c, FRESH, acts), more), id)
  {
    RunKeeps(c, FRESH, acts);
    RunKeeps(c, Run(c, FRESH, acts), more);
    assert Safe(Run(c, FRESH, acts).d, Run(c, FRESH, acts).h, id);
  }
}
