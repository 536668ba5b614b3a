/** Processed markers and failed-attempt counters. */
module ProcessedLog {
  import opened DepositTypes

  datatype Counter = Counter(attempts: nat, firstSeenAtMs: int)

  type Counters = map<Id, Counter>

  function Attempts(cs: Counters, id: Id): nat {
    if id in cs then cs[id].attempts else 0
  }

  function FirstSeen(cs: Counters, id: Id): int {
    if id in cs then cs[id].firstSeenAtMs else 0
  }

  function Attempted(cs: Counters, id: Id, now: int): Counters {
    cs[id := Counter(Attempts(cs, id) + 1, if id in cs then cs[id].firstSeenAtMs else now)]
  }

  /** The calls that write a marker key. */
  datatype MarkerCall = Marks(id: Id) | Forgets(id: Id)

  function Called(markers: set<Id>, c: MarkerCall, io: Io): set<Id> {
    Written(io, markers, if c.Marks? then markers + {c.id} else markers - {c.id})
  }

  function AfterCalls(markers: set<Id>, calls: seq<(MarkerCall, Io)>): set<Id> {
    if calls == [] then markers
    else Called(AfterCalls(markers, calls[..|calls| - 1]), calls[|calls| - 1].0, calls[|calls| - 1].1)
  }

  /** A call about `id` that reached the disk, torn or not, and none after it did. */
  ghost predicate LastWord(calls: seq<(MarkerCall, Io)>, id: Id, i: int) {
    && 0 <= i < |calls| && calls[i].0.id == id && !calls[i].1.Lost?
    && forall k :: i < k < |calls| && calls[k].0.id == id ==> calls[k].1.Lost?
  }

  /** Over every history of calls, lost and torn ones included: a deposit is marked exactly when the last call about it that
      reached the disk marked it, or none did and it was marked before. */
  lemma {:induction false} MarkedIsTheLastWord(markers: set<Id>, calls: seq<(MarkerCall, Io)>, id: Id)
    ensures (forall i :: !LastWord(calls, id, i)) ==> (id in AfterCalls(markers, calls) <==> id in markers)
    ensures forall i :: LastWord(calls, id, i) ==> (id in AfterCalls(markers, calls) <==> calls[i].0.Marks?)
    decreases |calls|
  {
    if calls != [] {
      var n := |calls| - 1;
      var pre := calls[..n];
      MarkedIsTheLastWord(markers, pre, id);
      if calls[n].0.id == id && !calls[n].1.Lost? {
        assert LastWord(calls, id, n);
      } else {
        forall i ensures LastWord(calls, id, i) <==> LastWord(pre, id, i) {
          assert forall k :: 0 <= k < n ==> pre[k] == calls[k];
        }
      }
    }
  }

  /** The two key families of the log inside the chat server's key-value store. */
  class ProcessedDepositLog {
    var markers: set<Id>
    var counters: Counters

    constructor ()
      ensures markers == {} && counters == map[]
    {
      markers, counters := {}, map[];
    }

    method Has(id: Id) returns (io: Io, hit: bool)
      ensures io.Done? ==> hit == (id in markers)
    {
      io := *;
      hit := io.Done? && id in markers;
    }

    method Mark(id: Id) returns (io: Io)
      modifies `markers
      ensures markers == Called(old(markers), Marks(id), io)
    {
      io := *;
      if !io.Lost? { markers := markers + {id}; }
    }

    method Forget(id: Id) returns (io: Io)
      modifies `markers
      ensures markers == Called(old(markers), Forgets(id), io)
    {
      io := *;
      if !io.Lost? { markers := markers - {id}; }
    }

    /** The first failure fixes `firstSeenAtMs`; later ones only count. */
    method RecordAttempt(id: Id, now: int) returns (io: Io, attempts: nat)
      modifies `counters
      ensures counters == Written(io, old(counters), Attempted(old(counters), id, now))
      ensures attempts == Attempts(old(counters), id) + 1
    {
      var prev := if id in counters then counters[id].attempts else 0;
      var first := if id in counters then counters[id].firstSeenAtMs else now;
      attempts := prev + 1;
      io := *;
      if !io.Lost? { counters := counters[id := Counter(attempts, first)]; }
    }

    method FirstSeenAtMs(id: Id) returns (io: Io, at: int)
      ensures io.Done? ==> at == FirstSeen(counters, id)
    {
      io := *;
      at := if io.Done? && id in counters then counters[id].firstSeenAtMs else 0;
    }

    method ClearAttempts(id: Id) returns (io: Io)
      modifies `counters
      ensures counters == Written(io, old(counters), old(counters) - {id})
    {
      io := *;
      if !io.Lost? { counters := counters - {id}; }
    }
  }
}
