/** The durable post-decrypt staging area: one key-value entry per mailbox, holding a map of staged payloads. */
module ApplyOutbox {
  import opened DepositTypes

  datatype Entry = Entry(msg: Msg, attempts: nat, firstStagedAtMs: int)

  type Entries = map<Id, Entry>

  /** Re-staging keeps the entry: a redelivery does not reset the poison accounting. */
  function Staged(m: Entries, id: Id, msg: Msg, now: int): Entries {
    if id in m then m else m[id := Entry(msg, 0, now)]
  }

  function Applied(m: Entries, id: Id): Entries {
    m - {id}
  }

  function Failed(m: Entries, id: Id): Entries {
    if id in m then m[id := m[id].(attempts := m[id].attempts + 1)] else m
  }

  class InboundApplyOutbox {
    var slot: Option<Entries>   // the mailbox's one stored value

    function Contents(): Entries
      reads this
    {
      if slot.Some? then slot.value else map[]
    }

    constructor ()
      ensures Contents() == map[]
    {
      slot := None;
    }

    /** One atomic write; an empty map deletes the key. */
    method SaveMap(m: Entries) returns (io: Io)
      modifies this
      ensures Contents() == Written(io, old(Contents()), m)
    {
      io := *;
      if !io.Lost? {
        slot := if |m| == 0 then None else Some(m);
      }
    }

    /** `isNew` when an entry was written; an entry already there is left alone. */
    method Stage(id: Id, msg: Msg, now: int) returns (io: Io, isNew: bool)
      modifies this
      ensures Contents() == Written(io, old(Contents()), Staged(old(Contents()), id, msg, now))
      ensures id in old(Contents()) ==> io.Done? && !isNew && Contents() == old(Contents())
      ensures isNew ==> io.Done?
    {
      var m := Contents();
      if id in m { return Done, false; }
      m := m[id := Entry(msg, 0, now)];
      io := SaveMap(m);
      isNew := io.Done?;
    }

    method MarkApplied(id: Id) returns (io: Io)
      modifies this
      ensures Contents() == Written(io, old(Contents()), Applied(old(Contents()), id))
    {
      var m := Contents();
      if id !in m {
        assert m - {id} == m;
        return Done;
      }
      m := m - {id};
      io := SaveMap(m);
    }

    /** The new count and the time of first staging; nothing when there is no such entry. */
    method RecordApplyFailure(id: Id) returns (io: Io, attempts: nat, firstStaged: Option<int>)
      modifies this
      ensures Contents() == Written(io, old(Contents()), Failed(old(Contents()), id))
      ensures id !in old(Contents()) ==> attempts == 0 && firstStaged == None
      ensures id in old(Contents()) ==>
        attempts == old(Contents())[id].attempts + 1 && firstStaged == Some(old(Contents())[id].firstStagedAtMs)
    {
      var m := Contents();
      if id !in m { return Done, 0, None; }
      attempts, firstStaged := m[id].attempts + 1, Some(m[id].firstStagedAtMs);
      m := m[id := m[id].(attempts := attempts)];
      io := SaveMap(m);
    }

    method ListPending() returns (entries: Entries)
      ensures entries == Contents()
    {
      entries := Contents();
    }
  }
}
