/** Processing one deposit, and retrying what was staged, as the pipeline's methods over its three stores.
    Nothing here depends on who calls in what order: the contracts hold for every outcome of every call. */
module DepositProcessing {
  import opened DepositTypes
  import opened ApplyOutbox
  import opened ProcessedLog

  /** What the three stores hold for one mailbox. */
  datatype Stores = Stores(markers: set<Id>, entries: Entries, messages: set<Msg>)

  /** How the calls of one run ended; `Done` for those that were not made. */
  datatype Calls = Calls(look: Io, stage: Io, apply: Io, plain: Io, reconcile: Io, mark: Io)

  const CLEAN := Calls(Done, Done, Done, Done, Done, Done)

  predicate Hit(s: Stores, id: Id, calls: Calls) {
    calls.look.Done? && id in s.markers
  }

  /** Staged-or-applied: either is enough for a user message. */
  predicate Durable(st: Opened, calls: Calls) {
    if st.msg.Some? then calls.stage.Done? || calls.apply.Done? else st.consumed
  }

  function StagedAndApplied(s: Stores, id: Id, m: Msg, calls: Calls, now: int): Stores {
    s.(entries := Written(calls.stage, s.entries, Staged(s.entries, id, m, now)),
       messages := Written(calls.apply, s.messages, s.messages + {m}))
  }

  function Reconciled(s: Stores, id: Id, calls: Calls): Stores {
    if !calls.stage.Done? then s
    else s.(entries := Written(calls.reconcile, s.entries,
                               if calls.apply.Done? then Applied(s.entries, id) else Failed(s.entries, id)))
  }

  /** What one run of `#processOne` leaves, decryption having reported `st`. */
  function Processed(s: Stores, id: Id, st: Opened, calls: Calls, now: int): Stores {
    if Hit(s, id, calls) then s
    else
      var t := if st.msg.Some? then Reconciled(StagedAndApplied(s, id, st.msg.value, calls, now), id, calls) else s;
      if st.decryptOk && (st.msg.Some? ==> Durable(st, calls)) then
        t.(markers := Written(calls.mark, t.markers, t.markers + {id}))
      else t
  }

  function Reported(s: Stores, id: Id, st: Opened, calls: Calls): Result {
    if Hit(s, id, calls) then Result(true, false, true, false, true)
    else Result(st.consumed, st.decryptOk, false, calls.plain.Done? && (st.msg.Some? ==> calls.apply.Done?), Durable(st, calls))
  }

  class MessageStore {
    var messages: set<Msg>

    method ApplyUserMessage(m: Msg) returns (io: Io)
      modifies this
      ensures messages == Written(io, old(messages), old(messages) + {m})
    {
      io := *;
      if !io.Lost? { messages := messages + {m}; }
    }
  }

  class InboundDepositPipeline {
    const log: ProcessedDepositLog
    const outbox: InboundApplyOutbox
    const store: MessageStore

    constructor (log: ProcessedDepositLog, outbox: InboundApplyOutbox, store: MessageStore)
      ensures this.log == log && this.outbox == outbox && this.store == store
    {
      this.log, this.outbox, this.store := log, outbox, store;
    }

    function Value(): Stores
      reads log, outbox, store
    {
      Stores(log.markers, outbox.Contents(), store.messages)
    }

    /** `st` is what decryption will report, if it comes to that. */
    method ProcessOne(id: Id, st: Opened, now: int) returns (r: Result, ghost calls: Calls)
      modifies log`markers, outbox, store
      ensures Value() == Processed(old(Value()), id, st, calls, now)
      ensures r == Reported(old(Value()), id, st, calls)
    {
      calls := CLEAN;
      var io, hit := log.Has(id);
      calls := calls.(look := io);
      if io.Done? && hit {
        return Result(true, false, true, false, true), calls;
      }
      var staged, userApplied, applied := true, false, true;
      if st.msg.Some? {
        var isNew;
        io, isNew := outbox.Stage(id, st.msg.value, now);
        calls := calls.(stage := io);
        staged := io.Done?;
        io := store.ApplyUserMessage(st.msg.value);
        calls := calls.(apply := io);
        userApplied := io.Done?;
        applied := userApplied;
      }
      io := *;                                   // the handlers of plain deposits
      calls := calls.(plain := io);
      if !io.Done? { applied := false; }
      if st.msg.Some? && staged {
        if userApplied {
          io := outbox.MarkApplied(id);
        } else {
          var attempts, first;
          io, attempts, first := outbox.RecordApplyFailure(id);
        }
        calls := calls.(reconcile := io);
      }
      var durable := if st.msg.Some? then staged || userApplied else st.consumed;
      if st.decryptOk && (st.msg.Some? ==> durable) {
        io := log.Mark(id);
        calls := calls.(mark := io);
      }
      r := Result(st.consumed, st.decryptOk, false, applied, durable);
    }

    /** One staged entry: apply it and take it out, or count the failure and drop it once it is poison. */
    method RetryEntry(id: Id, e: Entry, b: Bounds, now: int) returns (fate: Fate, ghost clean: bool)
      requires b.Valid() && id in outbox.Contents() && outbox.Contents()[id] == e
      modifies outbox, store
      ensures outbox.Contents() - {id} == old(outbox.Contents()) - {id}
      ensures id in outbox.Contents() ==> outbox.Contents()[id] in {e, e.(attempts := e.attempts + 1)}
      ensures id !in outbox.Contents() ==> !fate.Kept?
      ensures fate.Reapplied? ==> e.msg in store.messages
      ensures fate.Dropped? ==> PoisonedApply(b, e.attempts + 1, Some(e.firstStagedAtMs), now)
      ensures old(store.messages) <= store.messages <= old(store.messages) + {e.msg}
      ensures clean ==> fate.Reapplied? && id !in outbox.Contents()
    {
      clean := false;
      var io := store.ApplyUserMessage(e.msg);
      if io.Done? {
        io := outbox.MarkApplied(id);
        return Reapplied, io.Done?;
      }
      var attempts, first;
      io, attempts, first := outbox.RecordApplyFailure(id);
      if !io.Done? { attempts, first := 0, None; }
      fate := Kept;
      if PoisonedApply(b, attempts, first, now) {
        io := outbox.MarkApplied(id);
        fate := Dropped;
      }
    }

    /** Re-apply every staged entry once; drop the ones that have become poison and report them. */
    method RetryApplyOutbox(b: Bounds, now: int) returns (applied: set<Id>, quarantined: set<Id>, ghost clean: bool)
      requires b.Valid()
      modifies outbox, store
      ensures Retried(b, now, old(outbox.Contents()), outbox.Contents(), store.messages, applied, quarantined)
      ensures old(store.messages) <= store.messages
      ensures clean ==> outbox.Contents() == map[] && quarantined == {}
    {
      hide Retried, PoisonedApply, Value;
      applied, quarantined, clean := {}, {}, true;
      var pending := outbox.ListPending();
      var todo := pending.Keys;
      NothingRetried(b, now, pending, store.messages);
      while todo != {}
        invariant todo <= pending.Keys && pending == old(outbox.Contents())
        invariant Retried(b, now, pending, outbox.Contents(), store.messages, applied, quarantined)
        invariant forall id :: id in todo ==> id in outbox.Contents() && outbox.Contents()[id] == pending[id]
        invariant todo !! applied && todo !! quarantined && old(store.messages) <= store.messages
        invariant clean ==> quarantined == {} && forall x :: x in outbox.Contents() ==> x in todo
        decreases |todo|
      {
        var id :| id in todo;
        ghost var before, messages, was, out := outbox.Contents(), store.messages, applied, quarantined;
        ghost var ok;
        var fate;
        fate, ok := RetryEntry(id, pending[id], b, now);
        clean := clean && ok;
        if fate.Reapplied? { applied := applied + {id}; }
        if fate.Dropped? { quarantined := quarantined + {id}; }
        Elsewhere(before, outbox.Contents(), id);
        OneMoreRetried(b, now, pending, before, outbox.Contents(), messages, store.messages, was, out, id, fate);
        todo := todo - {id};
      }
      assert clean ==> outbox.Contents() == map[];
    }
  }

  /** What became of one staged entry in a retry. */
  datatype Fate = Reapplied | Dropped | Kept

  lemma Elsewhere(before: Entries, after: Entries, id: Id)
    requires before - {id} == after - {id}
    ensures forall x :: x != id ==> (x in before <==> x in after) && (x in before ==> before[x] == after[x])
  {
    forall x | x != id ensures (x in before <==> x in after) && (x in before ==> before[x] == after[x]) {
      assert x in before <==> x in before - {id};
      assert x in after <==> x in after - {id};
    }
  }

  lemma NothingRetried(b: Bounds, now: int, entries: Entries, messages: set<Msg>)
    ensures Retried(b, now, entries, entries, messages, {}, {})
  {
  }

  lemma OneMoreRetried(b: Bounds, now: int, start: Entries, before: Entries, after: Entries, messages: set<Msg>, messages': set<Msg>,
                       applied: set<Id>, quarantined: set<Id>, id: Id, fate: Fate)
    requires Retried(b, now, start, before, messages, applied, quarantined) && messages <= messages'
    requires id in before && id in start && before[id] == start[id] && id !in applied && id !in quarantined
    requires forall x :: x != id ==> (x in before <==> x in after) && (x in before ==> before[x] == after[x])
    requires id in after ==> after[id] in {start[id], start[id].(attempts := start[id].attempts + 1)}
    requires id !in after ==> !fate.Kept?
    requires fate.Reapplied? ==> start[id].msg in messages'
    requires fate.Dropped? ==> PoisonedApply(b, start[id].attempts + 1, Some(start[id].firstStagedAtMs), now)
    ensures Retried(b, now, start, after, messages', if fate.Reapplied? then applied + {id} else applied,
                    if fate.Dropped? then quarantined + {id} else quarantined)
  {
    hide PoisonedApply;
  }

  /** Whatever fails, every staged entry is afterwards still staged, payload and first time intact and at most one
      failure more on record, or its message is in the store, or it was given up with poisonous accounting. */
  ghost predicate Retried(b: Bounds, now: int, before: Entries, after: Entries, messages: set<Msg>,
                          applied: set<Id>, quarantined: set<Id>) {
    && after.Keys <= before.Keys && applied !! quarantined
    && (forall id :: id in before && id !in after ==> before[id].msg in messages || id in quarantined)
    && (forall id :: id in applied ==> id in before && before[id].msg in messages)
    && (forall id :: id in quarantined ==>
          id in before && PoisonedApply(b, before[id].attempts + 1, Some(before[id].firstStagedAtMs), now))
    && (forall id :: id in after ==> after[id] == before[id] || after[id] == before[id].(attempts := before[id].attempts + 1))
  }
}
