/** What a deleted registration row may leave behind: proofs over every run of the ceremony system. */
module CeremonySafety {
  import opened DepositTypes
  import opened CeremonyJournal
  import opened CeremonyRuns

  ghost predicate RowsOk(d: Durable, h: History) {
    && (forall a, b :: a in d.rows && b in d.rows && d.rows[a].cert == d.rows[b].cert ==> a == b)
    && (forall a :: a in d.rows ==> d.rows[a].cert in h.minted && d.rows[a].cert !in h.drops)
    // a published or confirmed label belongs to a response that was put, bytes and all
    && (forall a :: a in d.rows ==> (Out(d.rows[a].state) <==> d.rows[a].cert in h.labelled))
    && (forall a :: a in d.rows && Out(d.rows[a].state) ==> d.rows[a].sealed in d.slots)
    && h.labelled <= h.put <= h.minted
  }

  ghost predicate DropOk(d: Durable, h: History, k: string)
    requires k in h.drops
  {
    && k in h.minted
    && if h.drops[k] then k in h.denied && k !in h.labelled else k in d.revoked
  }

  ghost predicate DropsOk(d: Durable, h: History) {
    forall k :: k in h.drops ==> DropOk(d, h, k)
  }

  /** A deletion stays justified while nothing is labelled under its cert. */
  lemma DropsStable(d: Durable, h: History, d': Durable, h': History)
    requires DropsOk(d, h) && h'.drops == h.drops
    requires h.minted <= h'.minted && h.denied <= h'.denied && d.revoked <= d'.revoked
    requires forall k :: k in h.drops && k in h'.labelled ==> k in h.labelled
    ensures DropsOk(d', h')
  {
  }

  /** The item a party holds and the row it came from differ in nothing but the label. */
  ghost predicate SameRow(d: Durable, it: Item) {
    HasRow(d, it) ==> d.rows[it.0] == it.1.(state := d.rows[it.0].state)
  }

  ghost predicate ToResumeOk(d: Durable, c: Ceremony, it: Item) {
    && HasRow(d, it) && SameRow(d, it) && !d.rows[it.0].state.Confirmed?
    && (!c.NoCeremony? ==> c.it.1.cert != it.1.cert)
  }

  ghost predicate DueOk(d: Durable, h: History, c: Ceremony, it: Item) {
    SameRow(d, it) && it.1.cert in h.minted && (c.Persisting? ==> c.it.1.cert != it.1.cert)
  }

  ghost predicate SweeperOk(d: Durable, h: History, w: Sweeper, c: Ceremony) {
    match w
    case Resting => true
    case Resuming(todo) => forall x :: x in todo ==> ToResumeOk(d, c, x)
    case Putting(it, todo) => ToResumeOk(d, c, it) && forall x :: x in todo ==> ToResumeOk(d, c, x)
    case Publishing(it, todo) =>
      && ToResumeOk(d, c, it) && it.1.sealed in d.slots && it.1.cert in h.put
      && forall x :: x in todo ==> ToResumeOk(d, c, x)
    case Compensating(todo) => forall x :: x in todo ==> DueOk(d, h, c, x)
    case Expiring(it, todo) => DueOk(d, h, c, it) && forall x :: x in todo ==> DueOk(d, h, c, x)
    case Asking(it, todo) => DueOk(d, h, c, it) && forall x :: x in todo ==> DueOk(d, h, c, x)
    case Submitting(it, todo) => DueOk(d, h, c, it) && forall x :: x in todo ==> DueOk(d, h, c, x)
    case Rereading(it, todo) => DueOk(d, h, c, it) && forall x :: x in todo ==> DueOk(d, h, c, x)
    case Deleting(it, onDenial, todo) =>
      && DueOk(d, h, c, it) && (if onDenial then it.1.cert in h.denied else it.1.cert in d.revoked)
      && forall x :: x in todo ==> DueOk(d, h, c, x)
  }

  ghost predicate CeremonyOk(d: Durable, h: History, c: Ceremony) {
    !c.NoCeremony? ==>
      && c.it.1.cert in h.minted
      && if c.Persisting? then
           && c.it.1.state.Pending? && c.it.1.cert !in h.put && c.it.1.cert !in h.drops
           && forall a :: a in d.rows ==> d.rows[a].cert != c.it.1.cert
         else
           && (c.it.0 in d.rows ==> HasRow(d, c.it)) && SameRow(d, c.it)
           && (c.Marking? ==> c.it.1.cert in h.put && c.it.1.sealed in d.slots)
  }

  ghost predicate Inv(s: State) {
    && RowsOk(s.d, s.h)
    && DropsOk(s.d, s.h)
    && SweeperOk(s.d, s.h, s.sweeper, s.ceremony)
    && CeremonyOk(s.d, s.h, s.ceremony)
  }

  /** What the sweep knows survives whatever leaves its items alone. */
  lemma SweeperStable(d: Durable, h: History, c: Ceremony, d': Durable, h': History, c': Ceremony, w: Sweeper)
    requires SweeperOk(d, h, w, c)
    requires d.slots <= d'.slots && d.revoked <= d'.revoked && h.put <= h'.put && h.denied <= h'.denied
    requires forall x :: ToResumeOk(d, c, x) ==> ToResumeOk(d', c', x)
    requires forall x :: DueOk(d, h, c, x) ==> DueOk(d', h', c', x)
    ensures SweeperOk(d', h', w, c')
  {
    hide ToResumeOk, DueOk;
  }

  /** Labelling a response that has been put keeps the books, whoever does it. */
  lemma PublishKeepsBooks(s: State, io: Io, it: Item)
    requires RowsOk(s.d, s.h) && DropsOk(s.d, s.h)
    requires it.1.cert in s.h.put && it.1.sealed in s.d.slots
    requires it.0 in s.d.rows ==> HasRow(s.d, it) && SameRow(s.d, it)
    ensures var s' := Publish(s, io, it);
      && RowsOk(s'.d, s'.h) && DropsOk(s'.d, s'.h)
      && s'.h == s.h.(labelled := s'.h.labelled) && s'.d == s.d.(rows := s'.d.rows)
      && s'.sweeper == s.sweeper && s'.ceremony == s.ceremony
      && s.h.labelled <= s'.h.labelled <= s.h.labelled + {it.1.cert}
      && (it.1.cert in s'.h.labelled <==> it.1.cert in s.h.labelled || (!io.Lost? && CanMove(s.d, it.0, Published)))
      && s'.d.rows.Keys == s.d.rows.Keys
      && forall e :: e in s.d.rows ==>
           (s'.d.rows[e] == s.d.rows[e]
           || (s.d.rows[e].state.Pending? && s'.d.rows[e] == s.d.rows[e].(state := Published)))
  {
    hide DropsOk;
    var s' := Publish(s, io, it);
    DropsStable(s.d, s.h, s'.d, s'.h);
  }

  // ---- The sweep ----

  lemma TakeResumeKeeps(s: State, a: Answer, todo: seq<Item>)
    requires Inv(s) && s.sweeper == Resuming(todo)
    ensures Inv(TakeResume(s, a, todo))
  {
  }

  lemma SweepPutKeeps(s: State, a: Answer, it: Item, todo: seq<Item>)
    requires Inv(s) && s.sweeper == Putting(it, todo)
    ensures Inv(SweepPut(s, a, it, todo))
  {
    hide DropsOk;
    var s' := SweepPut(s, a, it, todo);
    DropsStable(s.d, s.h, s'.d, s'.h);
  }

  lemma SweepPublishKeeps(s: State, a: Answer, it: Item, todo: seq<Item>)
    requires Inv(s) && s.sweeper == Publishing(it, todo)
    ensures Inv(SweepPublish(s, a, it, todo))
  {
    hide DropsOk, RowsOk, Publish;
    PublishKeepsBooks(s, a.io, it);
  }

  lemma TakeDueKeeps(s: State, todo: seq<Item>)
    requires Inv(s) && s.sweeper == Compensating(todo)
    ensures Inv(TakeDue(s, todo))
  {
  }

  lemma ExpireKeeps(s: State, a: Answer, it: Item, todo: seq<Item>)
    requires Inv(s) && s.sweeper == Expiring(it, todo)
    ensures Inv(Expire(s, a, it, todo))
  {
    hide DropsOk;
    var s' := Expire(s, a, it, todo);
    DropsStable(s.d, s.h, s'.d, s'.h);
  }

  lemma AskKeeps(s: State, a: Answer, it: Item, todo: seq<Item>)
    requires Inv(s) && s.sweeper == Asking(it, todo)
    ensures Inv(Ask(s, a, it, todo))
  {
  }

  lemma RevokeKeeps(s: State, a: Answer, it: Item, todo: seq<Item>)
    requires Inv(s) && s.sweeper == Submitting(it, todo)
    ensures Inv(Revoke(s, a, it, todo))
  {
    hide DropsOk;
    var s' := Revoke(s, a, it, todo);
    DropsStable(s.d, s.h, s'.d, s'.h);
  }

  lemma DenyKeeps(s: State, it: Item, todo: seq<Item>)
    requires Inv(s) && s.sweeper == Submitting(it, todo)
    ensures Inv(Deny(s, it, todo))
  {
    hide DropsOk;
    var s' := Deny(s, it, todo);
    DropsStable(s.d, s.h, s'.d, s'.h);
  }

  lemma SubmitRevokeKeeps(s: State, a: Answer, it: Item, todo: seq<Item>)
    requires Inv(s) && s.sweeper == Submitting(it, todo)
    ensures Inv(SubmitRevoke(s, a, it, todo))
  {
    hide Revoke, Deny, RowsOk, DropsOk, CeremonyOk;
    RevokeKeeps(s, a, it, todo);
    DenyKeeps(s, it, todo);
  }

  lemma RereadKeeps(s: State, a: Answer, it: Item, todo: seq<Item>)
    requires Inv(s) && s.sweeper == Rereading(it, todo)
    ensures Inv(Reread(s, a, it, todo))
  {
  }

  lemma DeleteKeeps(s: State, a: Answer, it: Item, onDenial: bool, todo: seq<Item>)
    requires Inv(s) && s.sweeper == Deleting(it, onDenial, todo)
    ensures Inv(Delete(s, a, it, onDenial, todo))
  {
  }

  // ---- The ceremony ----

  lemma PersistKeeps(s: State, a: Answer, it: Item)
    requires Inv(s) && s.ceremony == Persisting(it)
    ensures Inv(Persist(s, a, it))
  {
    hide SweeperOk, DropsOk;
    var s' := Persist(s, a, it);
    DropsStable(s.d, s.h, s'.d, s'.h);
    SweeperStable(s.d, s.h, s.ceremony, s'.d, s'.h, s'.ceremony, s.sweeper);
  }

  lemma AddKeeps(s: State, a: Answer, it: Item)
    requires Inv(s) && s.ceremony == Adding(it)
    ensures Inv(Add(s, a, it))
  {
    hide SweeperOk, DropsOk;
    var s' := Add(s, a, it);
    DropsStable(s.d, s.h, s'.d, s'.h);
    SweeperStable(s.d, s.h, s.ceremony, s'.d, s'.h, s'.ceremony, s.sweeper);
  }

  lemma ReleaseKeeps(s: State, a: Answer, it: Item)
    requires Inv(s) && s.ceremony == Releasing(it)
    ensures Inv(Release(s, a, it))
  {
    hide SweeperOk, DropsOk;
    var s' := Release(s, a, it);
    DropsStable(s.d, s.h, s'.d, s'.h);
    SweeperStable(s.d, s.h, s.ceremony, s'.d, s'.h, s'.ceremony, s.sweeper);
  }

  lemma MarkKeeps(s: State, a: Answer, it: Item)
    requires Inv(s) && s.ceremony == Marking(it)
    ensures Inv(Mark(s, a, it))
  {
    hide SweeperOk, DropsOk, RowsOk, Publish;
    PublishKeepsBooks(s, a.io, it);
    var s' := Mark(s, a, it);
    SweeperStable(s.d, s.h, s.ceremony, s'.d, s'.h, s'.ceremony, s.sweeper);
  }

  lemma ConfirmKeeps(s: State, a: Answer, it: Item)
    requires Inv(s) && s.ceremony == Confirming(it)
    ensures Inv(Confirm(s, a, it))
  {
    hide SweeperOk, DropsOk;
    var s' := Confirm(s, a, it);
    DropsStable(s.d, s.h, s'.d, s'.h);
    SweeperStable(s.d, s.h, s.ceremony, s'.d, s'.h, s'.ceremony, s.sweeper);
  }

  // ---- The system ----

  lemma BeginKeeps(s: State, it: Item)
    requires Inv(s)
    ensures Inv(Step(s, Begin(it)))
  {
    hide SweeperOk, DropsOk;
    var s' := Step(s, Begin(it));
    if s' != s {
      DropsStable(s.d, s.h, s'.d, s'.h);
      DropsMinted(s.d, s.h);
      SweeperStable(s.d, s.h, s.ceremony, s'.d, s'.h, s'.ceremony, s.sweeper) by {
        ItemsMinted(s);
      }
    }
  }

  lemma DropsMinted(d: Durable, h: History)
    requires DropsOk(d, h)
    ensures forall k :: k in h.drops ==> k in h.minted
  {
  }

  lemma ItemsMinted(s: State)
    requires Inv(s)
    ensures forall x :: ToResumeOk(s.d, s.ceremony, x) ==> x.1.cert in s.h.minted
  {
  }

  lemma HomeRevokesKeeps(s: State, device: string)
    requires Inv(s)
    ensures Inv(Step(s, HomeRevokes(device)))
  {
    hide SweeperOk, DropsOk;
    var s' := Step(s, HomeRevokes(device));
    DropsStable(s.d, s.h, s'.d, s'.h);
    SweeperStable(s.d, s.h, s.ceremony, s'.d, s'.h, s'.ceremony, s.sweeper);
  }

  lemma TickAndCrashKeep(s: State, a: Action)
    requires Inv(s) && (a.SweepTick? || a.Crash?)
    ensures Inv(Step(s, a))
  {
    hide DropsOk;
  }

  lemma SweepKeeps(s: State, a: Answer)
    requires Inv(s)
    ensures Inv(SweepNext(s, a))
  {
    hide Inv, TakeResume, SweepPut, SweepPublish, TakeDue, Expire, Ask, SubmitRevoke, Reread, Delete;
    match s.sweeper
    case Resting =>
    case Resuming(todo) => TakeResumeKeeps(s, a, todo);
    case Putting(it, todo) => SweepPutKeeps(s, a, it, todo);
    case Publishing(it, todo) => SweepPublishKeeps(s, a, it, todo);
    case Compensating(todo) => TakeDueKeeps(s, todo);
    case Expiring(it, todo) => ExpireKeeps(s, a, it, todo);
    case Asking(it, todo) => AskKeeps(s, a, it, todo);
    case Submitting(it, todo) => SubmitRevokeKeeps(s, a, it, todo);
    case Rereading(it, todo) => RereadKeeps(s, a, it, todo);
    case Deleting(it, onDenial, todo) => DeleteKeeps(s, a, it, onDenial, todo);
  }

  lemma CeremonyKeeps(s: State, a: Answer)
    requires Inv(s)
    ensures Inv(CeremonyNext(s, a))
  {
    hide Inv, Persist, Add, Release, Mark, Confirm;
    match s.ceremony
    case NoCeremony =>
    case Persisting(it) => PersistKeeps(s, a, it);
    case Adding(it) => AddKeeps(s, a, it);
    case Releasing(it) => ReleaseKeeps(s, a, it);
    case Marking(it) => MarkKeeps(s, a, it);
    case Confirming(it) => ConfirmKeeps(s, a, it);
  }

  lemma {:induction false} RunKeeps(s: State, acts: seq<Action>)
    requires Inv(s)
    ensures Inv(Run(s, acts))
    decreases |acts|
  {
    hide Inv, Step;
    if acts != [] {
      StepKeeps(s, acts[0]);
      RunKeeps(Step(s, acts[0]), acts[1..]);
    }
  }

  lemma StepKeeps(s: State, a: Action)
    requires Inv(s)
    ensures Inv(Step(s, a))
  {
    hide Inv, SweepNext, CeremonyNext;
    match a
    case Begin(it) => BeginKeeps(s, it);
    case CeremonyStep(b) => CeremonyKeeps(s, b);
    case SweepTick(b) => TickAndCrashKeep(s, a);
    case SweepStep(b) => SweepKeeps(s, b);
    case HomeRevokes(device) => HomeRevokesKeeps(s, device);
    case Crash => TickAndCrashKeep(s, a);
  }

  // ---- What is out without its label ----

  /** What an action says about the response of `k`: when it comes out, and what becomes of its label. */
  ghost predicate PutsAsSaid(s: State, a: Action, s': State, k: string) {
    && s.h.put <= s'.h.put && s.h.labelled <= s'.h.labelled
    && (k in s'.h.put && k !in s.h.put ==> Labelling(s', k) || CutsShort(s, a, k))
    && (CutsShort(s, a, k) ==> k in s'.h.put)
    && (Labelling(s, k) && !CutsShort(s, a, k) ==> Labelling(s', k) || k in s'.h.labelled)
    && (Labelling(s', k) || k in s'.h.labelled ==> k in s'.h.put)
  }

  lemma CeremonyPuts(s: State, a: Answer, k: string)
    requires Inv(s) && Inv(CeremonyNext(s, a))
    ensures PutsAsSaid(s, CeremonyStep(a), CeremonyNext(s, a), k)
  {
    hide DropsOk;
    if s.ceremony.Marking? {
      PublishKeepsBooks(s, a.io, s.ceremony.it);
      hide Publish, RowsOk;
    }
  }

  lemma SweepPuts(s: State, a: Answer, k: string)
    requires Inv(s) && Inv(SweepNext(s, a))
    ensures PutsAsSaid(s, SweepStep(a), SweepNext(s, a), k)
  {
    hide DropsOk;
    if s.sweeper.Publishing? {
      PublishKeepsBooks(s, a.io, s.sweeper.it);
      hide Publish, RowsOk;
    }
  }

  lemma StepPuts(s: State, a: Action, k: string)
    requires Inv(s)
    ensures PutsAsSaid(s, a, Step(s, a), k)
  {
    StepKeeps(s, a);
    if a.CeremonyStep? {
      CeremonyPuts(s, a.a, k);
    } else if a.SweepStep? {
      SweepPuts(s, a.a, k);
    } else {
      hide DropsOk;
    }
  }

  /** The response of `k` is out, without a label and with nobody about to write one. */
  predicate Adrift(s: State, k: string) {
    k in s.h.put && k !in s.h.labelled && !Labelling(s, k)
  }

  lemma {:induction false} RunPuts(s: State, acts: seq<Action>, k: string)
    requires Inv(s)
    ensures Inv(Run(s, acts)) && s.h.put <= Run(s, acts).h.put
    ensures LabelsFollow(s, acts, k) && !Adrift(s, k) ==> !Adrift(Run(s, acts), k)
    ensures !LabelsFollow(s, acts, k) ==> k in Run(s, acts).h.put
    ensures Labelling(Run(s, acts), k) || k in Run(s, acts).h.labelled ==> k in Run(s, acts).h.put
    decreases |acts|
  {
    RunKeeps(s, acts);
    if acts == [] {
      LabellingIsPut(s, k);
    } else {
      StepKeeps(s, acts[0]);
      StepPuts(s, acts[0], k);
      hide Inv, Step, CutsShort, Labelling;
      RunPuts(Step(s, acts[0]), acts[1..], k);
    }
  }

  lemma LabellingIsPut(s: State, k: string)
    requires Inv(s)
    ensures Labelling(s, k) || k in s.h.labelled ==> k in s.h.put
  {
    hide DropsOk;
  }

  // ---- Main results ----

  /** Over every run a row is deleted only when its cert is in the home's revoked set, or the home has denied the
      binding and the row's label never came out. */
  lemma DeletedOnlyWithProof(acts: seq<Action>, k: string)
    ensures var s := Run(FRESH, acts);
      k in s.h.drops ==> if s.h.drops[k] then k in s.h.denied && k !in s.h.labelled else k in s.d.revoked
  {
    RunKeeps(FRESH, acts);
  }

  /** A row labelled published or confirmed, by the ceremony or by the worker's resume, has had its exact stored
      response put to the slot; and every label is backed by a put. */
  lemma LabelledMeansPut(acts: seq<Action>, device: string)
    ensures var s := Run(FRESH, acts);
      && (device in s.d.rows && Out(s.d.rows[device].state) ==> s.d.rows[device].sealed in s.d.slots)
      && s.h.labelled <= s.h.put
  {
    RunKeeps(FRESH, acts);
  }

  /** A response is out exactly when its label is out too, or is about to be written, or was cut short along the run. */
  lemma OutWithoutLabel(acts: seq<Action>, k: string)
    ensures var s := Run(FRESH, acts);
      k in s.h.put <==> k in s.h.labelled || Labelling(s, k) || !LabelsFollow(FRESH, acts, k)
  {
    RunPuts(FRESH, acts, k);
  }

  /** The ceremony of `k` is registered or registering, and has not released the response yet. */
  predicate MayRelease(s: State, k: string) {
    (s.ceremony.Adding? || s.ceremony.Releasing?) && s.ceremony.it.1.cert == k
  }

  /** Dropped on a denial, in no slot, and past any release. */
  ghost predicate Buried(s: State, k: string) {
    k in s.h.drops && k !in s.h.put && !MayRelease(s, k)
  }

  lemma BuriedUnderCeremony(s: State, a: Answer, k: string)
    requires Inv(s) && Buried(s, k)
    ensures Buried(CeremonyNext(s, a), k)
  {
    hide DropsOk, SweeperOk;
  }

  lemma BuriedUnderSweep(s: State, a: Answer, k: string)
    requires Inv(s) && Buried(s, k)
    ensures Buried(SweepNext(s, a), k)
  {
    hide DropsOk, CeremonyOk;
  }

  lemma BuriedStays(s: State, a: Action, k: string)
    requires Inv(s) && Buried(s, k)
    ensures Buried(Step(s, a), k)
  {
    if a.CeremonyStep? {
      BuriedUnderCeremony(s, a.a, k);
    } else if a.SweepStep? {
      BuriedUnderSweep(s, a.a, k);
    } else {
      DropsMinted(s.d, s.h);
      hide Inv;
    }
  }

  lemma {:induction false} BuriedForGood(s: State, more: seq<Action>, k: string)
    requires Inv(s) && Buried(s, k)
    ensures k !in Run(s, more).h.put
    decreases |more|
  {
    if more != [] {
      StepKeeps(s, more[0]);
      BuriedStays(s, more[0], k);
      hide Inv, Step, Buried;
      BuriedForGood(Step(s, more[0]), more[1..], k);
    }
  }

  const OK := Answer(Done, 0, [], true)

  lemma ReleaseEscapes(s: State, k: string)
    requires MayRelease(s, k)
    ensures var c := CeremonyStep(OK); k in Run(s, [c]).h.put || k in Run(s, [c, c]).h.put
  {
    var c := CeremonyStep(OK);
    assert [c][1..] == [] && [c, c][1..] == [c];
    assert Run(Step(s, c), []) == Step(s, c) && Run(Step(s, c), [c]) == Run(Step(Step(s, c), c), []);
  }

  /** What recovery drops on the home's denial: its response gets out, now or by some continuation, if and only if its label was
      cut short along the run, or its ceremony or a sweep is about to write the label, or its ceremony has still to release. */
  lemma DeniedNeverEscapes(acts: seq<Action>, k: string)
    ensures var s := Run(FRESH, acts);
      k in s.h.drops && s.h.drops[k] ==>
        ((exists more :: k in Run(s, more).h.put) <==>
          !LabelsFollow(FRESH, acts, k) || Labelling(s, k) || MayRelease(s, k))
  {
    var s := Run(FRESH, acts);
    RunKeeps(FRESH, acts);
    OutWithoutLabel(acts, k);
    if k in s.h.drops && s.h.drops[k] {
      DeletedOnlyWithProof(acts, k);
      if k in s.h.put {
        assert Run(s, []) == s;
      } else if MayRelease(s, k) {
        ReleaseEscapes(s, k);
      } else {
        forall more ensures k !in Run(s, more).h.put {
          BuriedForGood(s, more, k);
        }
      }
    }
  }
}
