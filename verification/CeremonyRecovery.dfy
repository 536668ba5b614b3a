/** The recovery sweep over the registration journal: resume what is in time, compensate what is not. */
module CeremonyRecovery {
  import opened DepositTypes
  import opened CeremonyJournal

  /** Everything a sweep reads and writes: the journal, and the account's home. */
  datatype World = World(
    rows: Rows,
    bound: map<string, string>,   // the cert the home has bound to each device
    revoked: set<string>,         // the account's revoked certs
    slots: set<string>)           // responses put to their rendezvous slots

  /** Each leaf cert belongs to one registration, and the home binds no revoked cert. */
  ghost predicate Sound(w: World) {
    && (forall d, e :: d in w.bound && e in w.bound && w.bound[d] == w.bound[e] ==> d == e)
    && (forall d, e :: d in w.rows && e in w.rows && w.rows[d].cert == w.rows[e].cert ==> d == e)
    && (forall d :: d in w.bound ==> w.bound[d] !in w.revoked)
  }

  predicate Bound(w: World, d: string) {
    d in w.rows && d in w.bound && w.bound[d] == w.rows[d].cert
  }

  // ---- What recovery is for: the outcome, row by row ----

  predicate ToRevoke(w: World, now: int, d: string) {
    d in w.rows && w.rows[d].Due(now) && Bound(w, d)
  }

  /** An expired row stays only when it is labelled published and the home denies its binding. */
  predicate Stays(w: World, now: int, d: string) {
    && d in w.rows
    && (w.rows[d].Due(now) ==> w.rows[d].state.Published? && w.rows[d].cert !in w.revoked && !Bound(w, d))
  }

  predicate ToResume(w: World, now: int, d: string) {
    d in w.rows && w.rows[d].state.Pending? && w.rows[d].expiresAtMs > now
  }

  function RowAfter(w: World, now: int, d: string): Row
    requires d in w.rows
  {
    if ToResume(w, now, d) then w.rows[d].(state := Published) else w.rows[d]
  }

  function RowsAfter(w: World, now: int): Rows {
    map d | d in w.rows && Stays(w, now, d) :: RowAfter(w, now, d)
  }

  function BoundAfter(w: World, now: int): map<string, string> {
    map d | d in w.bound && !ToRevoke(w, now, d) :: w.bound[d]
  }

  function OwedCerts(w: World, now: int): set<string> {
    set d | d in w.rows && ToRevoke(w, now, d) :: w.rows[d].cert
  }

  function OwedSlots(w: World, now: int): set<string> {
    set d | d in w.rows && ToResume(w, now, d) :: w.rows[d].sealed
  }

  /** The state a sweep with a reachable home must reach. */
  function Final(w: World, now: int): World {
    World(RowsAfter(w, now), BoundAfter(w, now), w.revoked + OwedCerts(w, now), w.slots + OwedSlots(w, now))
  }

  /** Two worlds whose rows differ in nothing that matters have the same outcome. */
  lemma SameOutcome(w: World, w': World, now: int)
    requires forall e :: Stays(w, now, e) <==> Stays(w', now, e)
    requires forall e :: Stays(w, now, e) && Stays(w', now, e) ==> RowAfter(w, now, e) == RowAfter(w', now, e)
    requires forall e :: (e in w.bound && !ToRevoke(w, now, e)) <==> (e in w'.bound && !ToRevoke(w', now, e))
    requires forall e :: e in w.bound && e in w'.bound ==> w.bound[e] == w'.bound[e]
    requires w.revoked + OwedCerts(w, now) == w'.revoked + OwedCerts(w', now)
    requires w.slots + OwedSlots(w, now) == w'.slots + OwedSlots(w', now)
    ensures Final(w, now) == Final(w', now)
  {
    hide OwedCerts, OwedSlots, Stays, RowAfter, ToRevoke;
    assert forall e :: Stays(w, now, e) ==> e in w.rows by { StaysMeans(w, now); }
    assert forall e :: Stays(w', now, e) ==> e in w'.rows by { StaysMeans(w', now); }
    assert RowsAfter(w, now) == RowsAfter(w', now);
    assert BoundAfter(w, now) == BoundAfter(w', now);
  }

  lemma StaysMeans(w: World, now: int)
    ensures forall e :: Stays(w, now, e) ==> e in w.rows
  {
  }

  /** What is owed depends on which rows are owed it, and on their certs and responses. */
  lemma SameOwed(w: World, w': World, now: int)
    requires forall e :: e in w.rows && e in w'.rows ==> w.rows[e].cert == w'.rows[e].cert && w.rows[e].sealed == w'.rows[e].sealed
    ensures (forall e :: ToRevoke(w, now, e) <==> ToRevoke(w', now, e)) ==> OwedCerts(w, now) == OwedCerts(w', now)
    ensures (forall e :: ToResume(w, now, e) <==> ToResume(w', now, e)) ==> OwedSlots(w, now) == OwedSlots(w', now)
  {
    hide ToRevoke, ToResume;
    OwedMeans(w, now);
    OwedMeans(w', now);
  }

  lemma OwedMeans(w: World, now: int)
    ensures forall e :: ToRevoke(w, now, e) || ToResume(w, now, e) ==> e in w.rows
  {
  }

  lemma OneLessOwed(w: World, w': World, now: int, d: string)
    requires d in w.rows && forall e :: e in w.rows && e in w'.rows ==>
      w.rows[e].cert == w'.rows[e].cert && w.rows[e].sealed == w'.rows[e].sealed
    ensures ToRevoke(w, now, d) && (forall e :: ToRevoke(w', now, e) <==> e != d && ToRevoke(w, now, e)) ==>
      OwedCerts(w, now) == OwedCerts(w', now) + {w.rows[d].cert}
    ensures ToResume(w, now, d) && (forall e :: ToResume(w', now, e) <==> e != d && ToResume(w, now, e)) ==>
      OwedSlots(w, now) == OwedSlots(w', now) + {w.rows[d].sealed}
  {
    hide ToRevoke, ToResume;
    OwedMeans(w, now);
    OwedMeans(w', now);
  }

  // ---- The sweep's effects, one at a time: none of them changes the outcome ----

  function Relabelled(w: World, d: string, l: Label): World
    requires d in w.rows
  {
    w.(rows := w.rows[d := w.rows[d].(state := l)])
  }

  lemma ExpiringIsNeutral(w: World, now: int, d: string)
    requires Sound(w) && d in w.rows && w.rows[d].state.Pending? && w.rows[d].Due(now)
    ensures Sound(Relabelled(w, d, Expired)) && Final(Relabelled(w, d, Expired), now) == Final(w, now)
  {
    hide Final, OwedCerts, OwedSlots;
    SameOwed(w, Relabelled(w, d, Expired), now);
    SameOutcome(w, Relabelled(w, d, Expired), now);
  }

  lemma PuttingIsNeutral(w: World, now: int, d: string)
    requires Sound(w) && ToResume(w, now, d)
    ensures var w' := w.(slots := w.slots + {w.rows[d].sealed}); Sound(w') && Final(w', now) == Final(w, now)
  {
    hide Final;
    var w' := w.(slots := w.slots + {w.rows[d].sealed});
    SameOwed(w, w', now);
    SameOutcome(w, w', now);
  }

  lemma PublishingIsNeutral(w: World, now: int, d: string)
    requires Sound(w) && ToResume(w, now, d) && w.rows[d].sealed in w.slots
    ensures Sound(Relabelled(w, d, Published)) && Final(Relabelled(w, d, Published), now) == Final(w, now)
  {
    hide Final, OwedCerts, OwedSlots;
    var w' := Relabelled(w, d, Published);
    SameOwed(w, w', now);
    OneLessOwed(w, w', now, d);
    SameOutcome(w, w', now);
  }

  function Revoked(w: World, d: string): World
    requires d in w.rows
  {
    w.(bound := w.bound - {d}, revoked := w.revoked + {w.rows[d].cert})
  }

  lemma RevokingIsNeutral(w: World, now: int, d: string)
    requires Sound(w) && ToRevoke(w, now, d)
    ensures Sound(Revoked(w, d)) && Final(Revoked(w, d), now) == Final(w, now)
  {
    hide Final, OwedCerts, OwedSlots;
    var w' := Revoked(w, d);
    SameOwed(w, w', now);
    OneLessOwed(w, w', now, d);
    SameOutcome(w, w', now);
  }

  lemma DeletingIsNeutral(w: World, now: int, d: string)
    requires Sound(w) && d in w.rows && !Stays(w, now, d) && !ToRevoke(w, now, d)
    ensures var w' := w.(rows := w.rows - {d}); Sound(w') && Final(w', now) == Final(w, now)
  {
    hide Final, OwedCerts, OwedSlots;
    var w' := w.(rows := w.rows - {d});
    SameOwed(w, w', now);
    SameOutcome(w, w', now);
  }

  /** Nothing is left to do for this device. */
  ghost predicate Quiet(w: World, now: int, d: string) {
    !ToResume(w, now, d) && (d in w.rows ==> Stays(w, now, d))
  }

  lemma QuietWorldIsFinal(w: World, now: int)
    requires Sound(w) && forall d :: Quiet(w, now, d)
    ensures Final(w, now) == w
  {
    forall d ensures !ToRevoke(w, now, d) && !ToResume(w, now, d) && (d in w.rows ==> Stays(w, now, d)) {
      assert Quiet(w, now, d);
    }
    assert RowsAfter(w, now) == w.rows;
    assert BoundAfter(w, now) == w.bound;
    assert OwedCerts(w, now) == {} && OwedSlots(w, now) == {};
  }

  // ---- The clock moves between sweeps ----

  /** The registration of `d` with its cert: its row if it still has one is due, and no other row has that cert. */
  ghost predicate Owns(w: World, now: int, d: string, cert: string) {
    && (d in w.rows ==> w.rows[d].cert == cert && w.rows[d].Due(now))
    && (forall e :: e in w.rows && e != d ==> w.rows[e].cert != cert)
  }

  /** The same row, or none; the same binding; and revoked in both or in neither. */
  ghost predicate Agree(x: World, y: World, d: string, cert: string) {
    && (d in x.rows <==> d in y.rows) && (d in x.rows ==> x.rows[d] == y.rows[d])
    && (d in x.bound <==> d in y.bound) && (d in x.bound ==> x.bound[d] == y.bound[d])
    && (cert in x.revoked <==> cert in y.revoked)
  }

  /** Rows go or change label; none is confirmed. */
  ghost predicate Narrows(before: Rows, after: Rows) {
    forall d :: d in after ==>
      && d in before && after[d].cert == before[d].cert && after[d].expiresAtMs == before[d].expiresAtMs
      && (after[d].state.Confirmed? <==> before[d].state.Confirmed?)
  }

  lemma OutcomeOf(w: World, now: int, d: string, cert: string)
    ensures d in Final(w, now).rows <==> Stays(w, now, d)
    ensures Stays(w, now, d) ==> d in w.rows && Final(w, now).rows[d] == RowAfter(w, now, d)
    ensures d in Final(w, now).bound <==> d in w.bound && !ToRevoke(w, now, d)
    ensures d in Final(w, now).bound ==> Final(w, now).bound[d] == w.bound[d]
    ensures cert in Final(w, now).revoked <==>
      cert in w.revoked || exists e :: e in w.rows && ToRevoke(w, now, e) && w.rows[e].cert == cert
  {
  }

  /** A registration that is due has the same outcome at every later reading. */
  lemma DueOutcomeIsFixed(w: World, t: int, now: int, d: string, cert: string)
    requires Owns(w, t, d, cert) && t <= now
    ensures Agree(Final(w, t), Final(w, now), d, cert)
  {
    OutcomeOf(w, t, d, cert);
    OutcomeOf(w, now, d, cert);
    hide Final;
  }

  /** Whatever a phase at some reading does, a registration due at an earlier one is owed what it was owed. */
  lemma PhaseKeepsDue(w: World, w': World, t: int, now: int, d: string, cert: string)
    requires Narrows(w.rows, w'.rows) && Final(w, now) == Final(w', now) && t <= now && Owns(w, t, d, cert)
    ensures Owns(w', t, d, cert) && Agree(Final(w', t), Final(w, t), d, cert)
  {
    hide Final;
    DueOutcomeIsFixed(w, t, now, d, cert);
    DueOutcomeIsFixed(w', t, now, d, cert);
  }

  /** Where nothing due is left to do, the state is what was owed. */
  lemma NothingDueIsLeft(w: World, t: int, now: int, d: string, cert: string)
    requires Owns(w, t, d, cert) && t <= now && (d in w.rows ==> Stays(w, now, d))
    ensures Agree(w, Final(w, t), d, cert)
  {
    OutcomeOf(w, t, d, cert);
    hide Final;
  }

  /** A later reading changes the outcome of a row if and only if the row becomes due in between and then does not stay. */
  lemma LaterReadingChangesExactly(w: World, t: int, now: int, d: string)
    requires Sound(w) && d in w.rows && t <= now
    ensures !Agree(Final(w, t), Final(w, now), d, w.rows[d].cert) <==>
      && !w.rows[d].Due(t) && w.rows[d].Due(now)
      && (!w.rows[d].state.Published? || w.rows[d].cert in w.revoked || Bound(w, d))
  {
    OutcomeOf(w, t, d, w.rows[d].cert);
    OutcomeOf(w, now, d, w.rows[d].cert);
    hide Final;
  }

  /** A sweep in between makes a difference to the later one if and only if it publishes, still in time, the response of a
      registration that the home neither binds nor has revoked. */
  lemma SweepInBetweenMattersExactly(w: World, t: int, now: int, d: string)
    requires Sound(w) && d in w.rows && t <= now
    ensures !Agree(Final(Final(w, t), now), Final(w, now), d, w.rows[d].cert) <==>
      w.rows[d].state.Pending? && t < w.rows[d].expiresAtMs <= now && !Bound(w, d) && w.rows[d].cert !in w.revoked
  {
    var cert := w.rows[d].cert;
    OutcomeOf(w, t, d, cert);
    OutcomeOf(w, now, d, cert);
    OutcomeOf(Final(w, t), now, d, cert);
    OutcomeCerts(w, t);
    hide Final;
  }

  /** The rows of the outcome are rows of the start, with their certs. */
  lemma OutcomeCerts(w: World, t: int)
    ensures forall e :: e in Final(w, t).rows ==> e in w.rows && Final(w, t).rows[e].cert == w.rows[e].cert
  {
  }

  datatype Reply = Accepted | Declined | BadTarget | Threw

  class AccountHome {
    var bound: map<string, string>
    var revoked: set<string>
    var slots: set<string>

    method Put(sealed: string) returns (io: Io)
      modifies `slots
      ensures slots == Written(io, old(slots), old(slots) + {sealed})
    {
      io := *;
      if !io.Lost? { slots := slots + {sealed}; }
    }

    /** A cert-bound revoke: it can only ever revoke that very registration.  The answer may be lost, and a success
        may be reported for nothing; but BAD_TARGET is only said of a cert that is not the one bound. */
    method SubmitRevoke(device: string, cert: string) returns (a: Reply, ghost truthful: bool)
      modifies `bound, `revoked
      ensures (bound, revoked) == old((bound, revoked))
        || (device in old(bound) && old(bound)[device] == cert
            && (bound, revoked) == old((bound - {device}, revoked + {cert})))
      ensures a.BadTarget? ==> bound == old(bound) && !(device in bound && bound[device] == cert)
      ensures truthful ==> if device in old(bound) && old(bound)[device] == cert then a.Accepted? && cert in revoked
                           else a.BadTarget?
    {
      var lost: bool := *;
      truthful := !lost;
      if device in bound && bound[device] == cert {
        var commits: bool := *;
        if !lost || commits {
          bound, revoked := bound - {device}, revoked + {cert};
        }
        a := *;
        if !lost || a.BadTarget? { a := Accepted; }
      } else {
        a := *;
        if !lost { a := BadTarget; }
      }
    }

    method AuthorityState() returns (readable: bool, certs: set<string>)
      ensures readable ==> certs == revoked
    {
      readable := *;
      certs := revoked;
    }
  }

  /** What the home has let the worker conclude. */
  datatype Proof = AlreadyGone | Committed | Denied | Unproven

  datatype Outcome = AlreadyRevoked | RevokedNow | Disproven | Retained

  class CeremonyRecoveryWorker {
    const journal: PendingCeremonyStore
    const home: AccountHome
    ghost var faults: nat   // calls that failed, or were not answered truthfully

    function W(): World
      reads this, journal, home
    {
      World(journal.rows, home.bound, home.revoked, home.slots)
    }

    constructor (journal: PendingCeremonyStore, home: AccountHome)
      ensures this.journal == journal && this.home == home && faults == 0
    {
      this.journal, this.home, faults := journal, home, 0;
    }

    /** Republish the exact stored response, then record that it is out.  Whatever fails, the outcome is unchanged. */
    method Resume(d: string, row: Row, now: int) returns (ok: bool)
      requires Sound(W()) && ToResume(W(), now, d) && W().rows[d] == row
      modifies journal, home`slots, this`faults
      ensures Sound(W()) && Final(W(), now) == old(Final(W(), now))
      ensures journal.rows == old(journal.rows) || W().rows == old(Relabelled(W(), d, Published)).rows
      ensures journal.rows != old(journal.rows) ==> row.sealed in home.slots
      ensures home.slots == old(home.slots) || home.slots == old(home.slots) + {row.sealed}
      ensures faults >= old(faults) && (faults == old(faults) ==> ok && !ToResume(W(), now, d))
    {
      ghost var w := W();
      var io := home.Put(row.sealed);
      PuttingIsNeutral(w, now, d);
      if !io.Done? {
        faults := faults + 1;
        return false;
      }
      w := W();
      var r := journal.Transition(d, Published);
      PublishingIsNeutral(w, now, d);
      ok := r == Attempted(Done);
      if !ok { faults := faults + 1; }
    }

    method CertIsRevoked(cert: string) returns (readable: bool, yes: bool)
      modifies this`faults
      ensures readable ==> yes == (cert in home.revoked) && faults == old(faults)
      ensures !readable ==> faults == old(faults) + 1
    {
      var certs;
      readable, certs := home.AuthorityState();
      yes := cert in certs;
      if !readable { faults := faults + 1; }
    }

    /** What the home can prove about a due registration; the journal is not touched. */
    method AskHome(d: string, row: Row, now: int) returns (p: Proof)
      requires Sound(W()) && d in W().rows && W().rows[d].cert == row.cert && W().rows[d].Due(now)
      modifies home`bound, home`revoked, this`faults
      ensures Sound(W()) && Final(W(), now) == old(Final(W(), now)) && faults >= old(faults)
      ensures home.bound - {d} == old(home.bound) - {d} && old(home.revoked) <= home.revoked <= old(home.revoked) + {row.cert}
      ensures p.AlreadyGone? || p.Committed? ==> row.cert in home.revoked
      ensures p.Denied? ==> !Bound(W(), d) && row.cert !in home.revoked
      ensures p.Unproven? ==> faults > old(faults)
    {
      hide Final, Sound;
      ghost var w := W();
      var readable, yes := CertIsRevoked(row.cert);
      if !readable { return Unproven; }
      if yes { return AlreadyGone; }
      ghost var truthful;
      var a;
      a, truthful := home.SubmitRevoke(d, row.cert);
      if W() != w {
        RevokingIsNeutral(w, now, d);
      }
      if !truthful { faults := faults + 1; }
      match a
      case Threw => p := Unproven;
      case Declined => p := Unproven;
      case BadTarget => p := Denied;
      case Accepted =>
        readable, yes := CertIsRevoked(row.cert);
        p := if readable && yes then Committed else Unproven;
    }

    /** Compensate one expired, unconfirmed registration; `Retained` stands for every throw.  A row disappears only when
        its cert is revoked, or when the home denies the binding and the label never came out. */
    method Compensate(d: string, row: Row, now: int) returns (o: Outcome)
      requires Sound(W()) && d in W().rows && W().rows[d] == row && row.Due(now)
      modifies journal, home`bound, home`revoked, this`faults
      ensures Sound(W()) && Final(W(), now) == old(Final(W(), now))
      ensures journal.rows - {d} == old(journal.rows) - {d}
      ensures d in journal.rows ==> journal.rows[d] == row || (row.state.Pending? && journal.rows[d] == row.(state := Expired))
      ensures d !in journal.rows ==>
        row.cert in home.revoked || (!(d in home.bound && home.bound[d] == row.cert) && !Out(row.state))
      ensures home.bound - {d} == old(home.bound) - {d} && old(home.revoked) <= home.revoked <= old(home.revoked) + {row.cert}
      ensures faults >= old(faults)
      ensures faults == old(faults) ==> Quiet(W(), now, d) && (o.Retained? <==> d in journal.rows)
    {
      hide Final, Sound;
      if row.state.Pending? {
        ExpiringIsNeutral(W(), now, d);
        var r := journal.Transition(d, Expired);
        if r != Attempted(Done) {
          faults := faults + 1;
          return Retained;
        }
      }
      var p := AskHome(d, row, now);
      if p.Unproven? || (p.Denied? && !row.state.Pending? && !row.state.Expired?) {
        return Retained;
      }
      var gone := Delete(d, row.cert, now, !p.Denied?);
      o := if !gone then Retained else if p.Denied? then Disproven else if p.Committed? then RevokedNow else AlreadyRevoked;
    }

    /** The two deletions, each with the proof it demands. */
    method Delete(d: string, cert: string, now: int, revokeCommitted: bool) returns (gone: bool)
      requires Sound(W()) && d in W().rows && W().rows[d].cert == cert && W().rows[d].Due(now)
      requires if revokeCommitted then cert in home.revoked else !Bound(W(), d) && W().rows[d].state.Expired?
      modifies journal, this`faults
      ensures Sound(W()) && Final(W(), now) == old(Final(W(), now))
      ensures journal.rows == old(journal.rows) || journal.rows == old(journal.rows) - {d}
      ensures faults >= old(faults) && (faults == old(faults) ==> gone) && (gone ==> d !in journal.rows)
    {
      DeletingIsNeutral(W(), now, d);
      var r;
      if revokeCommitted {
        r := journal.DeleteAfterRevoke(d, true, cert);
      } else {
        r := journal.DeleteAfterDisprovenCommit(d, true, true, cert);
      }
      gone := r == Attempted(Done);
      if !gone { faults := faults + 1; }
    }

    /** The rows still as listed: nothing but the sweep itself writes the journal. */
    ghost predicate StillListed(work: seq<(string, Row)>, i: nat)
      reads journal
    {
      && (forall j, k :: 0 <= j < k < |work| ==> work[j].0 != work[k].0)
      && forall j :: i <= j < |work| ==> work[j].0 in journal.rows && journal.rows[work[j].0] == work[j].1
    }

    /** The first phase: every pending row still in time. */
    method ResumeAll(skip: set<string>, now: int) returns (republished: seq<string>, retained: seq<string>)
      requires Sound(W())
      modifies journal, home`slots, this`faults
      ensures Sound(W()) && Final(W(), now) == old(Final(W(), now)) && faults >= old(faults)
      ensures faults == old(faults) ==> retained == [] && forall d :: d !in skip ==> !ToResume(W(), now, d)
      // a label that came out here belongs to a response that was put
      ensures OnlyPublished(old(journal.rows), journal.rows, home.slots)
    {
      hide Final, Sound;
      republished, retained := [], [];
      var work := journal.List(now, true);
      var i := 0;
      while i < |work|
        invariant i <= |work| && StillListed(work, i) && OnlyPublished(old(journal.rows), journal.rows, home.slots)
        invariant Sound(W()) && Final(W(), now) == old(Final(W(), now)) && faults >= old(faults)
        invariant old(home.slots) <= home.slots
        invariant forall j :: 0 <= j < |work| ==> work[j].1.state.Pending?
        invariant forall d :: d in journal.rows && journal.rows[d] != old(journal.rows[d]) ==>
          journal.rows[d].sealed in home.slots
        invariant faults == old(faults) ==> retained == []
        invariant faults == old(faults) ==> forall d :: ToResume(W(), now, d) && d !in skip ==>
          exists j :: i <= j < |work| && work[j].0 == d
      {
        var d, row := work[i].0, work[i].1;
        if d !in skip && row.expiresAtMs > now {
          var ok := Resume(d, row, now);
          if ok { republished := republished + [d]; } else { retained := retained + [d]; }
        }
        i := i + 1;
      }
    }

    /** The second phase: every due row, whatever its label. */
    method CompensateAll(skip: set<string>, now: int)
      returns (revoked: seq<string>, disproven: seq<string>, retained: seq<string>)
      requires Sound(W())
      modifies journal, home`bound, home`revoked, this`faults
      ensures Sound(W()) && Final(W(), now) == old(Final(W(), now)) && faults >= old(faults)
      ensures GoneWithProof(old(journal.rows), journal.rows, home.revoked, home.bound)
      ensures faults == old(faults) ==> forall d :: d !in skip && d in journal.rows ==> Stays(W(), now, d)
      ensures OnlyExpired(old(journal.rows), journal.rows)
      ensures faults == old(faults) && skip == {} ==>
        forall d :: d in retained <==> d in journal.rows && journal.rows[d].Due(now)
    {
      hide Final, Sound, Stays, GoneWithProof, OnlyExpired;
      DueOrStays(W(), now);
      NothingGone(journal.rows, home.revoked, home.bound);
      revoked, disproven, retained := [], [], [];
      var work := journal.List(now, false);
      var i := 0;
      while i < |work|
        invariant i <= |work| && StillListed(work, i)
        invariant Sound(W()) && Final(W(), now) == old(Final(W(), now)) && faults >= old(faults)
        invariant GoneWithProof(old(journal.rows), journal.rows, home.revoked, home.bound)
        invariant forall j :: 0 <= j < |work| ==> work[j].1.Due(now)
        invariant forall j :: 0 <= j < |work| ==> work[j].0 in old(journal.rows) && old(journal.rows)[work[j].0] == work[j].1
        invariant OnlyExpired(old(journal.rows), journal.rows)
        invariant faults == old(faults) ==> forall j :: 0 <= j < i && work[j].0 !in skip && work[j].0 in journal.rows ==>
          Stays(W(), now, work[j].0) && work[j].0 in retained
        invariant forall j :: i <= j < |work| ==> work[j].0 !in retained
        invariant faults == old(faults) ==> forall d :: d in retained ==> d in journal.rows && journal.rows[d].Due(now)
      {
        var d, row := work[i].0, work[i].1;
        if d !in skip {
          ghost var w, before, revokedBefore, boundBefore := W(), journal.rows, home.revoked, home.bound;
          var o := Compensate(d, row, now);
          OthersUntouched(before, journal.rows, d);
          ProofsAddUp(old(journal.rows), before, journal.rows, revokedBefore, home.revoked, boundBefore, home.bound, d);
          StaysElsewhere(w, W(), now, d);
          OneMoreExpired(old(journal.rows), before, journal.rows, d);
          match o
          case Disproven => disproven := disproven + [d];
          case Retained => retained := retained + [d];
          case _ => revoked := revoked + [d];
          if faults == old(faults) { assert Quiet(W(), now, d); }
        }
        i := i + 1;
      }
      hide *;
      if faults == old(faults) {
        forall d | d !in skip && d in journal.rows
          ensures Stays(W(), now, d) && (journal.rows[d].Due(now) ==> d in retained)
        {
          OnlyExpiredMeans(old(journal.rows), journal.rows, now);
          DueOrStays(W(), now);
          if journal.rows[d].Due(now) {
            assert (d, old(journal.rows)[d]) in work;
          }
        }
      }
    }

    /** One sweep, which reads the clock once for each phase.  Whatever fails and wherever it dies, every registration due
        at an earlier reading is still owed the same; when nothing fails, it has got it.  With one reading for both
        phases that goes for the whole state.  A row goes only with one of the two proofs. */
    method Sweep(skip: set<string>, now: int, later: int)
      returns (republished: seq<string>, revoked: seq<string>, disproven: seq<string>, retained: seq<string>)
      requires Sound(W()) && now <= later
      modifies journal, home, this`faults
      ensures Sound(W()) && faults >= old(faults)
      ensures forall t, d, cert :: t <= now && Owns(old(W()), t, d, cert) ==>
        Owns(W(), t, d, cert) && Agree(Final(W(), t), Final(old(W()), t), d, cert)
      ensures faults == old(faults) && skip == {} ==> forall t, d, cert :: t <= now && Owns(old(W()), t, d, cert) ==>
        Agree(W(), Final(old(W()), t), d, cert)
      ensures now == later ==> Final(W(), now) == old(Final(W(), now))
      ensures now == later && faults == old(faults) && skip == {} ==> W() == old(Final(W(), now))
      ensures faults == old(faults) && skip == {} ==>
        forall d :: d in retained <==> d in journal.rows && journal.rows[d].Due(later)
      ensures forall d :: d in old(journal.rows) && d !in journal.rows ==>
        var row := old(journal.rows)[d];
        row.cert in home.revoked || (!(d in home.bound && home.bound[d] == row.cert) && !Out(row.state))
    {
      hide Final, Sound, Owns, Agree;
      ghost var first, f := W(), faults;
      var stuck, left;
      republished, stuck := ResumeAll(skip, now);
      ghost var mid := W();
      PublishingNarrows(first.rows, mid.rows, home.slots);
      revoked, disproven, left := CompensateAll(skip, later);
      ExpiringNarrows(mid.rows, journal.rows);
      retained := stuck + left;
      forall t, d, cert | t <= now && Owns(first, t, d, cert)
        ensures Owns(W(), t, d, cert) && Agree(Final(W(), t), Final(first, t), d, cert)
        ensures faults == f && skip == {} ==> Agree(W(), Final(first, t), d, cert)
      {
        PhaseKeepsDue(first, mid, t, now, d, cert);
        PhaseKeepsDue(mid, W(), t, later, d, cert);
        AgreeTwice(Final(W(), t), Final(mid, t), Final(first, t), d, cert);
        if faults == f && skip == {} {
          NothingDueIsLeft(W(), t, later, d, cert);
          AgreeTwice(W(), Final(W(), t), Final(first, t), d, cert);
        }
      }
      if now == later && faults == f && skip == {} {
        forall d ensures Quiet(W(), now, d) {
          assert !ToResume(mid, now, d);
        }
        QuietWorldIsFinal(W(), now);
      }
    }

    /** Sweeps go on being scheduled while the clock moves, each of them possibly killed anywhere.  Whatever was due at the
        first reading stays owed what it was owed then, and a last sweep that meets no fault completes it. */
    method SweepUntilClean(readings: seq<(int, int)>) returns (ghost clean: bool)
      requires Sound(W()) && readings != [] && Clock(readings)
      modifies journal, home, this`faults
      ensures Sound(W())
      ensures forall d :: d in old(journal.rows) && old(journal.rows)[d].Due(readings[0].0) ==>
        var was, cert := old(W()), old(journal.rows)[d].cert;
        && Agree(Final(W(), readings[0].0), Final(was, readings[0].0), d, cert)
        && (clean ==> Agree(W(), Final(was, readings[0].0), d, cert))
    {
      hide Final, Sound, Agree, Clock;
      ghost var was, t0 := W(), readings[0].0;
      forall d | d in was.rows && was.rows[d].Due(t0) ensures Owns(was, t0, d, was.rows[d].cert) {
        DueOwns(was, t0, d);
      }
      forall d, cert ensures Agree(Final(was, t0), Final(was, t0), d, cert) { AgreesItself(Final(was, t0), d, cert); }
      hide Owns;
      clean := false;
      var i := 0;
      while i < |readings|
        invariant i <= |readings| && Sound(W())
        invariant forall d, cert :: Owns(was, t0, d, cert) ==>
          Owns(W(), t0, d, cert) && Agree(Final(W(), t0), Final(was, t0), d, cert)
        invariant clean ==> forall d, cert :: Owns(was, t0, d, cert) ==> Agree(W(), Final(was, t0), d, cert)
      {
        ghost var w, f := W(), faults;
        ClockMeans(readings, i);
        var _, _, _, _ := Sweep({}, readings[i].0, readings[i].1);
        clean := faults == f;
        forall d, cert | Owns(was, t0, d, cert)
          ensures Owns(W(), t0, d, cert) && Agree(Final(W(), t0), Final(was, t0), d, cert)
          ensures clean ==> Agree(W(), Final(was, t0), d, cert)
        {
          assert Owns(w, t0, d, cert);
          AgreeTwice(Final(W(), t0), Final(w, t0), Final(was, t0), d, cert);
          if clean { AgreeTwice(W(), Final(w, t0), Final(was, t0), d, cert); }
        }
        i := i + 1;
      }
    }
  }

  /** The readings of successive sweeps, two each, never go back. */
  ghost predicate Clock(readings: seq<(int, int)>) {
    && (forall i :: 0 <= i < |readings| ==> readings[i].0 <= readings[i].1)
    && (forall i, k :: 0 <= i < k < |readings| ==> readings[i].1 <= readings[k].0)
  }

  lemma ClockMeans(readings: seq<(int, int)>, i: nat)
    requires Clock(readings) && i < |readings|
    ensures readings[0].0 <= readings[i].0 <= readings[i].1
  {
  }

  lemma DueOwns(w: World, now: int, d: string)
    requires Sound(w) && d in w.rows && w.rows[d].Due(now)
    ensures Owns(w, now, d, w.rows[d].cert)
  {
  }

  lemma AgreesItself(x: World, d: string, cert: string)
    ensures Agree(x, x, d, cert)
  {
  }

  lemma AgreeTwice(x: World, y: World, z: World, d: string, cert: string)
    requires Agree(x, y, d, cert) && Agree(y, z, d, cert)
    ensures Agree(x, z, d, cert)
  {
  }

  lemma PublishingNarrows(before: Rows, after: Rows, slots: set<string>)
    requires OnlyPublished(before, after, slots)
    ensures Narrows(before, after)
  {
  }

  lemma ExpiringNarrows(before: Rows, after: Rows)
    requires OnlyExpired(before, after)
    ensures Narrows(before, after)
  {
  }

  lemma OnlyExpiredMeans(before: Rows, after: Rows, now: int)
    requires OnlyExpired(before, after)
    ensures forall d :: d in after ==> d in before && (after[d].Due(now) ==> before[d].Due(now))
  {
  }

  /** Labels come out, and only those of rows whose exact stored response has been put. */
  ghost predicate OnlyPublished(before: Rows, after: Rows, slots: set<string>) {
    && before.Keys == after.Keys
    && forall d :: d in after ==>
         (after[d] == before[d]
          || (before[d].state.Pending? && after[d] == before[d].(state := Published) && before[d].sealed in slots))
  }

  /** Every row that went had its cert revoked, or was denied by the home without its label ever having come out. */
  ghost predicate GoneWithProof(before: Rows, after: Rows, revoked: set<string>, bound: map<string, string>) {
    forall d :: d in before && d !in after ==>
      before[d].cert in revoked || (!(d in bound && bound[d] == before[d].cert) && !Out(before[d].state))
  }

  /** Rows go or expire; nothing else happens to them. */
  ghost predicate OnlyExpired(before: Rows, after: Rows) {
    forall d :: d in after ==>
      d in before && (after[d] == before[d] || (before[d].state.Pending? && after[d] == before[d].(state := Expired)))
  }

  lemma NothingGone(rows: Rows, revoked: set<string>, bound: map<string, string>)
    ensures GoneWithProof(rows, rows, revoked, bound) && OnlyExpired(rows, rows)
  {
  }

  lemma OneMoreExpired(start: Rows, before: Rows, after: Rows, d: string)
    requires OnlyExpired(start, before) && d in start && d in before && start[d] == before[d]
    requires forall e :: e != d ==> (e in before <==> e in after) && (e in before ==> before[e] == after[e])
    requires d in after ==>
      after[d] == before[d] || (before[d].state.Pending? && after[d] == before[d].(state := Expired))
    ensures OnlyExpired(start, after)
  {
  }

  lemma ProofsAddUp(start: Rows, before: Rows, after: Rows, revoked: set<string>, revoked': set<string>,
                    bound: map<string, string>, bound': map<string, string>, d: string)
    requires GoneWithProof(start, before, revoked, bound) && revoked <= revoked' && bound - {d} == bound' - {d}
    requires d in start && d in before && before[d] == start[d] && before - {d} == after - {d}
    requires d !in after ==> start[d].cert in revoked' || (!(d in bound' && bound'[d] == start[d].cert) && !Out(start[d].state))
    ensures GoneWithProof(start, after, revoked', bound')
  {
    OthersUntouched(before, after, d);
    forall e | e != d && e in bound' ensures e in bound && bound[e] == bound'[e] {
      assert e in bound' - {d} && e in bound - {d};
    }
  }

  lemma DueOrStays(w: World, now: int)
    ensures forall d :: d in w.rows && !Stays(w, now, d) ==> w.rows[d].Due(now)
  {
  }

  /** Compensating one device does not unsettle another. */
  lemma StaysElsewhere(w: World, w': World, now: int, d: string)
    requires Sound(w) && d in w.rows && w.rows - {d} == w'.rows - {d}
    requires w'.revoked <= w.revoked + {w.rows[d].cert} && w.bound - {d} == w'.bound - {d}
    ensures forall e :: e != d && Stays(w, now, e) ==> Stays(w', now, e)
  {
    OthersUntouched(w.rows, w'.rows, d);
    forall e | e != d && e in w'.bound ensures e in w.bound && w.bound[e] == w'.bound[e] {
      assert e in w'.bound - {d} && e in w.bound - {d};
    }
  }

  lemma OthersUntouched(before: Rows, after: Rows, d: string)
    requires before - {d} == after - {d}
    ensures forall e :: e != d ==> (e in before <==> e in after) && (e in before ==> before[e] == after[e])
  {
    forall e | e != d ensures (e in before <==> e in after) && (e in before ==> before[e] == after[e]) {
      assert e in before <==> e in before - {d};
      assert e in after <==> e in after - {d};
    }
  }
}
