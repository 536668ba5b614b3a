/** What a history of outbox calls leaves behind, whichever of them were torn and wherever a crash fell. */
module OutboxHistory {
  import opened DepositTypes
  import opened ApplyOutbox

  /** A mutation that reached the disk; the ones that did not leave no trace. */
  datatype Op = Stage(id: Id, msg: Msg, now: int) | Remove(id: Id) | Fail(id: Id)

  function Apply(m: Entries, op: Op): Entries {
    match op
    case Stage(id, msg, now) => Staged(m, id, msg, now)
    case Remove(id) => Applied(m, id)
    case Fail(id) => Failed(m, id)
  }

  function Replay(ops: seq<Op>): Entries {
    if ops == [] then map[] else Apply(Replay(ops[..|ops| - 1]), ops[|ops| - 1])
  }

  predicate Stages(op: Op, id: Id) {
    op.Stage? && op.id == id
  }

  /** Where the present life of an entry can begin: just after the deposit's last removal. */
  function Birth(ops: seq<Op>, id: Id): (r: nat)
    ensures r <= |ops| && (r > 0 ==> ops[r - 1] == Remove(id))
    ensures forall i :: r <= i < |ops| ==> ops[i] != Remove(id)
  {
    if ops == [] then 0
    else if ops[|ops| - 1] == Remove(id) then |ops|
    else Birth(ops[..|ops| - 1], id)
  }

  /** The staging that counts: the first one since the deposit was last removed. */
  ghost predicate FirstStaging(ops: seq<Op>, id: Id, i: int) {
    && Birth(ops, id) <= i < |ops| && Stages(ops[i], id)
    && forall j :: Birth(ops, id) <= j < i ==> !Stages(ops[j], id)
  }

  function Fails(ops: seq<Op>, id: Id): nat {
    if ops == [] then 0 else Fails(ops[..|ops| - 1], id) + (if ops[|ops| - 1] == Fail(id) then 1 else 0)
  }

  /** `listPending` shows a deposit exactly when it was staged since its last removal; the entry carries the payload
      and the time of the first such staging and counts every failure recorded after it. */
  lemma {:induction false} PendingIsStagedAndNotRemoved(ops: seq<Op>, id: Id)
    ensures id in Replay(ops) <==> exists i :: Birth(ops, id) <= i < |ops| && Stages(ops[i], id)
    ensures forall i :: FirstStaging(ops, id, i) ==>
      id in Replay(ops) && Replay(ops)[id] == Entry(ops[i].msg, Fails(ops[i + 1..], id), ops[i].now)
    decreases |ops|
  {
    if ops != [] {
      var n := |ops| - 1;
      var pre, op := ops[..n], ops[n];
      PendingIsStagedAndNotRemoved(pre, id);
      if op != Remove(id) {
        assert Birth(ops, id) == Birth(pre, id);
        forall i | Birth(ops, id) <= i < |ops| && Stages(ops[i], id) ensures id in Replay(ops) {
          if i < n { assert Stages(pre[i], id); }
        }
        forall i | FirstStaging(ops, id, i)
          ensures id in Replay(ops) && Replay(ops)[id] == Entry(ops[i].msg, Fails(ops[i + 1..], id), ops[i].now)
        {
          FirstStagingValue(ops, id, i);
        }
        if id in Replay(ops) && !Stages(op, id) {
          var i :| Birth(pre, id) <= i < n && Stages(pre[i], id);
          assert Stages(ops[i], id);
        }
      }
    }
  }

  lemma FirstStagingValue(ops: seq<Op>, id: Id, i: int)
    requires FirstStaging(ops, id, i)
    requires var pre := ops[..|ops| - 1];
      && (id in Replay(pre) <==> exists i :: Birth(pre, id) <= i < |pre| && Stages(pre[i], id))
      && (forall i :: FirstStaging(pre, id, i) ==>
            id in Replay(pre) && Replay(pre)[id] == Entry(pre[i].msg, Fails(pre[i + 1..], id), pre[i].now))
    ensures id in Replay(ops) && Replay(ops)[id] == Entry(ops[i].msg, Fails(ops[i + 1..], id), ops[i].now)
  {
    var n := |ops| - 1;
    var pre, op := ops[..n], ops[n];
    assert Birth(ops, id) == Birth(pre, id);
    if i < n {
      assert FirstStaging(pre, id, i);
      FailsGrow(ops, id, i);
      hide Birth, FirstStaging, Fails;
      assert Replay(ops) == Apply(Replay(pre), op);
    } else {
      assert ops[n + 1..] == [];
      assert forall j :: Birth(pre, id) <= j < n ==> !Stages(ops[j], id);
      hide Birth, FirstStaging;
      assert id !in Replay(pre);
    }
  }

  lemma FailsGrow(ops: seq<Op>, id: Id, i: nat)
    requires i < |ops| - 1
    ensures Fails(ops[i + 1..], id)
      == Fails(ops[..|ops| - 1][i + 1..], id) + (if ops[|ops| - 1] == Fail(id) then 1 else 0)
  {
    assert ops[i + 1..][..|ops| - i - 2] == ops[..|ops| - 1][i + 1..];
  }
}
