/** The self-healing retry buffer: whatever order deposits arrive in, the pipeline ends up
    having consumed the least set closed under "what this deposit was waiting for is there". */
module RedrainClosure {
  import opened DepositTypes
  import opened InboundProtocol

  function Ids(p: seq<Retained>): set<Id> {
    set i | 0 <= i < |p| :: p[i].f.id
  }

  predicate Distinct(p: seq<Retained>) {
    forall i, j :: 0 <= i < j < |p| ==> p[i].f.id != p[j].f.id
  }

  lemma {:induction false} WithoutDrops(p: seq<Retained>, id: Id)
    requires Distinct(p)
    ensures Ids(Without(p, id)) == Ids(p) - {id} && Distinct(Without(p, id))
    ensures |Without(p, id)| == |p| - (if id in Ids(p) then 1 else 0)
  {
    if p != [] {
      WithoutDrops(p[1..], id);
      SplitIds(p);
      if p[0].f.id != id { SplitIds(Without(p, id)); }
    }
  }

  lemma SplitIds(p: seq<Retained>)
    requires p != []
    ensures Ids(p) == {p[0].f.id} + Ids(p[1..])
    ensures Distinct(p) ==> p[0].f.id !in Ids(p[1..]) && Distinct(p[1..])
    ensures Distinct(p[1..]) && p[0].f.id !in Ids(p[1..]) ==> Distinct(p)
  {
    forall id | id in Ids(p) ensures id in {p[0].f.id} + Ids(p[1..]) {
      var i :| 0 <= i < |p| && p[i].f.id == id;
      if i > 0 { assert p[1..][i - 1].f.id == id; }
    }
    forall i | 0 <= i < |p[1..]| ensures p[1..][i].f.id in Ids(p) {
      assert p[1..][i] == p[i + 1];
    }
    if Distinct(p[1..]) && p[0].f.id !in Ids(p[1..]) {
      forall i, j | 0 <= i < j < |p| ensures p[i].f.id != p[j].f.id {
        assert p[j] == p[1..][j - 1];
        if i > 0 { assert p[i] == p[1..][i - 1]; }
      }
    }
  }

  /** Counting a failed re-attempt either leaves the entry in place or drops it at the cap. */
  lemma {:induction false} BumpKeeps(c: Config, p: seq<Retained>, id: Id)
    requires Distinct(p)
    ensures Distinct(Bump(c, p, id)) && |Bump(c, p, id)| <= |p|
    ensures Ids(Bump(c, p, id)) == Ids(p) || Ids(Bump(c, p, id)) == Ids(p) - {id}
  {
    if p != [] {
      SplitIds(p);
      BumpKeeps(c, p[1..], id);
      var b := Bump(c, p, id);
      if p[0].f.id != id {
        assert b == [p[0]] + Bump(c, p[1..], id);
        SplitIds(b);
      } else if b != p[1..] {
        SplitIds(b);
      }
    }
  }

  class InboundDepositPipeline {
    const c: Config
    /** The peer-link layer: can this deposit be consumed once those have been? */
    const unlocks: (Id, set<Id>) -> bool

    var pending: seq<Retained>
    var redraining: bool
    var consumed: set<Id>

    ghost var arrived: set<Id>   // every deposit submitted with its ciphertext, or consumed at once
    ghost var dropped: set<Id>   // of those, what the size cap or the attempt cap threw out

    ghost predicate Monotone() {
      forall id, s, t :: s <= t && unlocks(id, s) ==> unlocks(id, t)
    }

    /** `s` contains every arrived deposit it unlocks. */
    ghost predicate Closed(s: set<Id>)
      reads this
    {
      forall id :: id in arrived && unlocks(id, s) ==> id in s
    }

    ghost predicate Valid()
      reads this
    {
      && Monotone() && c.Valid()
      && Distinct(pending) && Ids(pending) !! consumed
      && arrived == consumed + Ids(pending) + dropped
      && (forall s :: Closed(s) ==> consumed <= s)
    }

    /** No retained deposit can be consumed now. */
    ghost predicate Quiet()
      reads this
    {
      forall id :: id in Ids(pending) ==> !unlocks(id, consumed)
    }

    constructor (c: Config, unlocks: (Id, set<Id>) -> bool)
      requires c.Valid() && forall id, s, t :: s <= t && unlocks(id, s) ==> unlocks(id, t)
      ensures Valid() && Quiet() && !redraining && arrived == {} && dropped == {} && consumed == {}
    {
      this.c, this.unlocks := c, unlocks;
      pending, redraining, consumed, arrived, dropped := [], false, {}, {}, {};
    }

    /** `#processOne` as the buffer sees it. */
    method ProcessOne(f: Frame) returns (r: Result)
      modifies `consumed
      ensures r.already == (f.id in old(consumed))
      ensures r.consumed == (f.id in old(consumed) || unlocks(f.id, old(consumed)))
      ensures consumed == if r.consumed then old(consumed) + {f.id} else old(consumed)
    {
      if f.id in consumed {
        r := Result(true, false, true, false, true);
      } else if unlocks(f.id, consumed) {
        consumed := consumed + {f.id};
        r := Result(true, true, false, true, true);
      } else {
        r := Result(false, false, false, true, false);
      }
    }

    /** One entry of a pass.  Consuming a retained deposit keeps the consumed set inside every closed set. */
    method Refeed(f: Frame) returns (hit: bool)
      requires Valid() && f.id in Ids(pending)
      modifies `pending, `consumed, `dropped
      ensures Valid() && arrived == old(arrived) && old(dropped) <= dropped
      ensures Ids(old(pending)) - {f.id} <= Ids(pending) <= Ids(old(pending))
      ensures hit == unlocks(f.id, old(consumed))
      ensures consumed == if hit then old(consumed) + {f.id} else old(consumed)
      ensures if hit then |pending| < |old(pending)| else |pending| <= |old(pending)|
    {
      ghost var before := pending;
      var r := ProcessOne(f);
      hit := r.consumed || r.already;
      if hit {
        WithoutDrops(pending, f.id);
        pending := Without(pending, f.id);
        forall s | Closed(s) ensures consumed <= s {
          assert old(consumed) <= s && unlocks(f.id, s);
        }
      } else {
        BumpKeeps(c, pending, f.id);
        pending := Bump(c, pending, f.id);
        dropped := dropped + (Ids(before) - Ids(pending));
      }
    }

    /** Passes over the buffer until one makes no progress.  Every progressing pass shrinks the buffer. */
    method RedrainPending()
      requires Valid()
      modifies this
      ensures Valid() && Quiet() && !redraining && arrived == old(arrived)
      ensures old(consumed) <= consumed && old(dropped) <= dropped
    {
      redraining := true;
      var progress := true;
      while progress
        invariant Valid() && arrived == old(arrived) && old(consumed) <= consumed && old(dropped) <= dropped
        invariant !progress ==> Quiet()
        decreases if progress then |pending| + 1 else 0
      {
        progress := false;
        var snapshot := pending;
        ghost var at := consumed;
        var i := 0;
        while i < |snapshot|
          invariant 0 <= i <= |snapshot| && Valid()
          invariant arrived == old(arrived) && old(consumed) <= consumed && old(dropped) <= dropped
          invariant Ids(pending) <= Ids(snapshot) && |pending| <= |snapshot|
          invariant forall j :: i <= j < |snapshot| ==> snapshot[j].f.id in Ids(pending)
          invariant progress ==> |pending| < |snapshot|
          invariant !progress ==> consumed == at && forall j :: 0 <= j < i ==> !unlocks(snapshot[j].f.id, at)
        {
          var hit := Refeed(snapshot[i].f);
          if hit { progress := true; }
          i := i + 1;
        }
      }
      redraining := false;
    }

    /** `#updatePending`: retain what could not be consumed, bounded by the size cap. */
    method UpdatePending(f: Frame, r: Result)
      requires Valid() && !r.consumed && !r.already && f.id !in consumed
      modifies `pending, `arrived, `dropped
      ensures Valid() && pending == Retain(c, old(pending), f, r)
      ensures arrived == old(arrived) + (if f.hasCiphertext then {f.id} else {})
      ensures old(dropped) <= dropped && Ids(pending) <= Ids(old(pending)) + {f.id}
      ensures |old(pending)| < c.maxPending ==> dropped == old(dropped)
    {
      if !f.hasCiphertext { return; }
      arrived := arrived + {f.id};
      if Holds(pending, f.id) { return; }
      if |pending| >= c.maxPending && pending != [] {
        SplitIds(pending);
        dropped := dropped + {pending[0].f.id};
        pending := pending[1..];
      }
      AppendIds(pending, Retained(f, 0));
      pending := pending + [Retained(f, 0)];
    }

    /** `submit`: process one deposit and, if it was newly consumed, re-feed whatever waited on it. */
    method Submit(f: Frame) returns (r: Result)
      requires Valid() && Quiet() && !redraining
      modifies this
      ensures Valid() && Quiet() && !redraining
      ensures r.already == (f.id in old(consumed))
      ensures r.consumed == (f.id in old(consumed) || unlocks(f.id, old(consumed)))
      ensures arrived == old(arrived) + (if f.hasCiphertext || r.consumed then {f.id} else {})
      ensures old(consumed) <= consumed && old(dropped) <= dropped
    {
      r := ProcessOne(f);
      if r.consumed || r.already {
        WithoutDrops(pending, f.id);
        pending := Without(pending, f.id);
        arrived := arrived + {f.id};
        forall s | Closed(s) ensures consumed <= s {
          assert forall id :: id in old(arrived) && unlocks(id, s) ==> id in s;
          assert old(consumed) <= s;
        }
        if !r.already && |pending| > 0 && !redraining {
          RedrainPending();
        }
      } else {
        UpdatePending(f, r);
      }
    }

    /** A sweep tick: re-feed the buffer even though nothing new has arrived. */
    method Sweep()
      requires Valid() && !redraining
      modifies this
      ensures Valid() && !redraining && arrived == old(arrived) && old(consumed) <= consumed
      ensures old(pending) != [] || old(Quiet()) ==> Quiet()
    {
      if |pending| == 0 || redraining { return; }
      RedrainPending();
    }

    /** The consumed set is closed, hence the least closed set, as long as neither cap threw anything out. */
    lemma ConsumedIsLeastClosed()
      requires Valid() && Quiet() && dropped == {}
      ensures Closed(consumed) && forall s :: Closed(s) ==> consumed <= s
    {
      forall id | id in arrived && unlocks(id, consumed) ensures id in consumed {
        assert id in Ids(pending) || id in consumed;
      }
    }
  }

  lemma AppendIds(p: seq<Retained>, e: Retained)
    requires Distinct(p)
    ensures Ids(p + [e]) == Ids(p) + {e.f.id}
    ensures e.f.id !in Ids(p) ==> Distinct(p + [e])
  {
    var q := p + [e];
    forall i | 0 <= i < |p| ensures p[i].f.id in Ids(q) {
      assert q[i] == p[i];
    }
    assert q[|p|] == e;
  }

  /** Two pipelines with the same unlocking that have received the same deposits, in whatever order and
      with whatever re-deliveries and sweeps between, have consumed the same ones. */
  lemma ArrivalOrderIsIrrelevant(p: InboundDepositPipeline, q: InboundDepositPipeline)
    requires p.Valid() && p.Quiet() && p.dropped == {}
    requires q.Valid() && q.Quiet() && q.dropped == {}
    requires p.arrived == q.arrived && p.unlocks == q.unlocks
    ensures p.consumed == q.consumed
  {
    p.ConsumedIsLeastClosed();
    q.ConsumedIsLeastClosed();
    assert p.Closed(q.consumed) && q.Closed(p.consumed);
  }
}
