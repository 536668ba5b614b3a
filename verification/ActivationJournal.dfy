/** The durable record of how far this device's activation has come, and its calls one at a time. */
module ActivationJournal {
  import opened DepositTypes

  datatype Phase = Bootstrapping | Ready | Active

  datatype Record = Record(activationId: string, phase: Phase, startedAtMs: int, baselineOrigin: string, horizon: int)

  /** What a storage slot can hold: anything at all, since it is read back untyped. */
  datatype Raw = Absent | Garbage | Object(id: Option<string>, state: string, started: Option<int>,
                                           origin: Option<string>, lamport: Option<int>)

  function PhaseName(p: Phase): string {
    match p
    case Bootstrapping => "BOOTSTRAPPING"
    case Ready => "READY"
    case Active => "ACTIVE"
  }

  function Or<T>(o: Option<T>, t: T): T {
    if o.Some? then o.value else t
  }

  function Normalize(raw: Raw): Option<Record> {
    if !raw.Object? then None
    else if raw.state == "BOOTSTRAPPING" then Some(Fields(raw, Bootstrapping))
    else if raw.state == "READY" then Some(Fields(raw, Ready))
    else if raw.state == "ACTIVE" then Some(Fields(raw, Active))
    else None
  }

  function Fields(raw: Raw, p: Phase): Record
    requires raw.Object?
  {
    Record(Or(raw.id, ""), p, Or(raw.started, 0), Or(raw.origin, ""), Or(raw.lamport, 0))
  }

  /** A record as it is written; a field set later is read back as its default until then. */
  function Serialized(r: Record): Raw {
    Object(Some(r.activationId), PhaseName(r.phase), Some(r.startedAtMs), Some(r.baselineOrigin), Some(r.horizon))
  }

  /** Writing a record and reading it back is the identity; reading is idempotent. */
  lemma RehydrationIsFaithful(r: Record, raw: Raw)
    ensures Normalize(Serialized(r)) == Some(r)
    ensures Normalize(raw).Some? ==> Normalize(Serialized(Normalize(raw).value)) == Normalize(raw)
  {
    assert "READY"[0] == 'R' && "ACTIVE"[0] == 'A' && "BOOTSTRAPPING"[0] == 'B';
  }

  function Rank(r: Option<Record>): nat {
    if r.None? then 0 else match r.value.phase case Bootstrapping => 1 case Ready => 2 case Active => 3
  }

  /** The journal as a value: what this process remembers, and what the disk holds. */
  datatype Journal = Journal(memory: Option<Record>, hydrated: bool, disk: Raw)

  datatype Call =
    | Restart
    | Hydrate
    | EnsureBootstrapping(id: string, now: int)
    | MarkReady(origin: string, horizon: int)
    | MarkActive(now: int)

  /** The record a call wants on disk next, if it is legal and has anything to write. */
  function Wanted(j: Journal, c: Call): Option<Record> {
    if !j.hydrated then None
    else match c
      case Restart => None
      case Hydrate => None
      case EnsureBootstrapping(id, now) =>
        if j.memory.Some? || id == "" then None else Some(Record(id, Bootstrapping, now, "", 0))
      case MarkReady(origin, horizon) =>
        if j.memory.Some? && j.memory.value.phase.Bootstrapping? then
          Some(j.memory.value.(phase := Ready, baselineOrigin := origin, horizon := horizon))
        else None
      case MarkActive(now) =>
        if j.memory.None? then Some(Record("", Active, now, "", 0))
        else if j.memory.value.phase.Active? then None
        else Some(j.memory.value.(phase := Active))
  }

  /** The disk is written before the memory; a torn write changes the disk alone. */
  function After(j: Journal, c: Call, io: Io): Journal {
    if c.Restart? then j.(memory := None, hydrated := false)
    else if c.Hydrate? then
      if j.hydrated || !io.Done? then j else j.(memory := Normalize(j.disk), hydrated := true)
    else
      var w := Wanted(j, c);
      if w.None? then j
      else j.(disk := Written(io, j.disk, Serialized(w.value)), memory := if io.Done? then w else j.memory)
  }

  class KeyValueSlot {
    var raw: Raw

    method Set(r: Raw) returns (io: Io)
      modifies this
      ensures raw == Written(io, old(raw), r)
    {
      io := *;
      if !io.Lost? { raw := r; }
    }

    method Get() returns (io: Io, r: Raw)
      ensures r == raw
    {
      io, r := *, raw;
    }
  }

  datatype Outcome = Threw | Answer(r: Option<Record>)

  class DeviceActivationJournal {
    const kv: KeyValueSlot
    var record: Option<Record>
    var hydrated: bool

    function Value(): Journal
      reads this, kv
    {
      Journal(record, hydrated, kv.raw)
    }

    constructor (kv: KeyValueSlot)
      ensures this.kv == kv && Value() == Journal(None, false, kv.raw)
    {
      this.kv, record, hydrated := kv, None, false;
    }

    method HydrateFromDisk() returns (io: Io)
      modifies this
      ensures Value() == old(After(Value(), Hydrate, io))
    {
      if hydrated { return Done; }
      var raw;
      io, raw := kv.Get();
      if io.Done? { record, hydrated := Normalize(raw), true; }
    }

    method Persist(r: Record) returns (io: Io)
      modifies this`record, kv
      ensures kv.raw == Written(io, old(kv.raw), Serialized(r)) && record == if io.Done? then Some(r) else old(record)
    {
      io := kv.Set(Serialized(r));
      if io.Done? { record := Some(r); }
    }

    method Ensure(activationId: string, now: int) returns (o: Outcome, io: Io)
      modifies this`record, kv
      ensures Value() == old(After(Value(), EnsureBootstrapping(activationId, now), io))
      ensures o.Threw? <==>
        || !hydrated || activationId == "" || !io.Done?
        || (old(record).Some? && old(record).value.activationId != activationId)
      ensures o.Answer? ==> o.r == record && record.Some? && record.value.activationId == activationId
    {
      io := Done;
      if !hydrated || activationId == "" { return Threw, io; }
      if record.Some? {
        return if record.value.activationId != activationId then Threw else Answer(record), io;
      }
      io := Persist(Record(activationId, Bootstrapping, now, "", 0));
      o := if io.Done? then Answer(record) else Threw;
    }

    method Ready(origin: string, horizon: int) returns (o: Outcome, io: Io)
      modifies this`record, kv
      ensures Value() == old(After(Value(), MarkReady(origin, horizon), io))
      ensures o.Threw? <==>
        !hydrated || !io.Done? || old(record).None? || !old(record).value.phase.Bootstrapping?
      ensures o.Answer? ==> o.r == record && Rank(record) == 2
    {
      io := Done;
      if !hydrated || record.None? || !record.value.phase.Bootstrapping? { return Threw, io; }
      io := Persist(record.value.(phase := Phase.Ready, baselineOrigin := origin, horizon := horizon));
      o := if io.Done? then Answer(record) else Threw;
    }

    method Active(now: int) returns (o: Outcome, io: Io)
      modifies this`record, kv
      ensures Value() == old(After(Value(), MarkActive(now), io))
      ensures o.Threw? <==> !hydrated || !io.Done?
      ensures o.Answer? ==> o.r == record && Rank(record) == 3
    {
      io := Done;
      if !hydrated { return Threw, io; }
      if record.None? {
        io := Persist(Record("", Phase.Active, now, "", 0));
      } else if !record.value.phase.Active? {
        io := Persist(record.value.(phase := Phase.Active));
      }
      o := if io.Done? then Answer(record) else Threw;
    }
  }

  // ---- One call after another ----

  function Run(j: Journal, calls: seq<(Call, Io)>): Journal
    decreases |calls|
  {
    if calls == [] then j else Run(After(j, calls[0].0, calls[0].1), calls[1..])
  }

  /** Memory is never ahead of the disk, and both are about the same activation. */
  ghost predicate Behind(j: Journal) {
    && (!j.hydrated ==> j.memory.None?)
    && Rank(j.memory) <= Rank(Normalize(j.disk))
    && (j.memory.Some? ==> Normalize(j.disk).value.activationId == j.memory.value.activationId)
  }

  /** The branches that turn the disk back: this process has not seen how far the disk already is. */
  ghost predicate TurnsBack(j: Journal, c: Call, io: Io) {
    && j.hydrated && !io.Lost?
    && match c
       case EnsureBootstrapping(id, _) => id != "" && j.memory.None? && Rank(Normalize(j.disk)) >= 2
       case MarkReady(_, _) => j.memory.Some? && j.memory.value.phase.Bootstrapping? && Rank(Normalize(j.disk)) == 3
       case _ => false
  }

  /** One call that nothing interrupts: memory stays behind the disk and never moves back, and the disk moves
      back exactly on those branches. */
  lemma CallMovesForward(j: Journal, c: Call, io: Io)
    requires Behind(j)
    ensures Behind(After(j, c, io))
    ensures Rank(Normalize(After(j, c, io).disk)) < Rank(Normalize(j.disk)) <==> TurnsBack(j, c, io)
    ensures !c.Restart? ==> Rank(After(j, c, io).memory) >= Rank(j.memory)
    ensures j.memory.Some? ==>
      Normalize(After(j, c, io).disk).Some?
      && Normalize(After(j, c, io).disk).value.activationId == j.memory.value.activationId
  {
    var w := Wanted(j, c);
    if w.Some? { RehydrationIsFaithful(w.value, j.disk); }
  }

  /** A fresh process over any disk. */
  function Booted(disk: Raw): Journal {
    Journal(None, false, disk)
  }

  /** The disk does turn back: the bundle is seen published, recording it is torn, and then the baseline marker arrives. */
  lemma TornWriteTurnsTheDiskBack(id: string)
    requires id != ""
    ensures var before := [(Hydrate, Done), (EnsureBootstrapping(id, 1), Done), (MarkActive(2), Landed)];
      && Rank(Normalize(Run(Booted(Absent), before).disk)) == 3
      && Rank(Normalize(After(Run(Booted(Absent), before), MarkReady("", 0), Done).disk)) == 2
  {
    var j0 := Booted(Absent);
    var j1 := After(j0, Hydrate, Done);
    var j2 := After(j1, EnsureBootstrapping(id, 1), Done);
    var j3 := After(j2, MarkActive(2), Landed);
    var calls := [(Hydrate, Done), (EnsureBootstrapping(id, 1), Done), (MarkActive(2), Landed)];
    assert calls[1..][1..][1..] == [];
    assert Run(j3, []) == j3 && Run(j2, calls[1..][1..]) == j3 && Run(j1, calls[1..]) == j3;
    RehydrationIsFaithful(Record(id, Active, 1, "", 0), Absent);
    RehydrationIsFaithful(Record(id, Ready, 1, "", 0), Absent);
  }
}
