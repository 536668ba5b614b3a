/** The journal of device-link registrations: one row per device, labels that only move forward. */
module CeremonyJournal {
  import opened DepositTypes

  datatype Label = Pending | Published | Confirmed | Expired

  /** `cert` names the minted leaf; `sealed` is the exact response that may be published. */
  datatype Row = Row(cert: string, sealed: string, expiresAtMs: int, state: Label) {
    /** Past its deadline and never confirmed: owed a compensating revoke. */
    predicate Due(now: int) {
      !state.Confirmed? && expiresAtMs <= now
    }
  }

  type Rows = map<string, Row>

  predicate Allowed(from: Label, to: Label) {
    match from
    case Pending => to.Published? || to.Expired?
    case Published => to.Confirmed?
    case Confirmed => false
    case Expired => false
  }

  predicate Out(l: Label) {
    l.Published? || l.Confirmed?
  }

  /** A label history: every step is an allowed transition. */
  ghost predicate History(ls: seq<Label>) {
    forall i :: 0 <= i < |ls| - 1 ==> Allowed(ls[i], ls[i + 1])
  }

  /** Once out, always out; and an expired row is at the end of its history, so it never comes out afterwards. */
  lemma {:induction false} LabelsNeverReturn(ls: seq<Label>, i: nat, j: nat)
    requires History(ls) && i <= j < |ls|
    ensures Out(ls[i]) ==> Out(ls[j])
    ensures ls[i].Expired? ==> i == j == |ls| - 1
    decreases j
  {
    if i < j {
      LabelsNeverReturn(ls, i, j - 1);
      assert Allowed(ls[j - 1], ls[j]);
    } else if i < |ls| - 1 {
      assert Allowed(ls[i], ls[i + 1]);
    }
  }

  /** How a journal call ends: refused by a rule, or attempted. */
  datatype Outcome = Refused | Attempted(io: Io)

  class PendingCeremonyStore {
    var rows: Rows

    constructor ()
      ensures rows == map[]
    {
      rows := map[];
    }

    /** No clobber: only a device without a row, or with a confirmed one, can be registered. */
    method CreatePending(device: string, cert: string, sealed: string, expiresAtMs: int) returns (r: Outcome)
      modifies this
      ensures r.Refused? <==> device in old(rows) && !old(rows)[device].state.Confirmed?
      ensures r.Refused? ==> rows == old(rows)
      ensures r.Attempted? ==>
        rows == Written(r.io, old(rows), old(rows)[device := Row(cert, sealed, expiresAtMs, Pending)])
    {
      if device in rows && !rows[device].state.Confirmed? { return Refused; }
      var io: Io := *;
      if !io.Lost? { rows := rows[device := Row(cert, sealed, expiresAtMs, Pending)]; }
      r := Attempted(io);
    }

    /** Forward only; everything but the label is immutable. */
    method Transition(device: string, to: Label) returns (r: Outcome)
      modifies this
      ensures r.Attempted? <==> device in old(rows) && Allowed(old(rows)[device].state, to)
      ensures r.Refused? ==> rows == old(rows)
      ensures r.Attempted? ==> rows == Written(r.io, old(rows), old(rows)[device := old(rows)[device].(state := to)])
    {
      if device !in rows || !Allowed(rows[device].state, to) { return Refused; }
      var io: Io := *;
      if !io.Lost? { rows := rows[device := rows[device].(state := to)]; }
      r := Attempted(io);
    }

    /** Removal demands a committed revoke naming this row's cert. */
    method DeleteAfterRevoke(device: string, revokeCommitted: bool, revokedCert: string) returns (r: Outcome)
      modifies this
      ensures r.Refused? ==> rows == old(rows)
      ensures r.Attempted? ==> rows == Written(r.io, old(rows), old(rows) - {device})
      ensures r.Attempted? && device in old(rows) ==> revokeCommitted && old(rows)[device].cert == revokedCert
      ensures revokeCommitted && (device !in old(rows) || old(rows)[device].cert == revokedCert) ==> r.Attempted?
    {
      if !revokeCommitted { return Refused; }
      if device !in rows {
        assert rows - {device} == rows;
        return Attempted(Done);
      }
      if rows[device].cert != revokedCert { return Refused; }
      var io: Io := *;
      if !io.Lost? { rows := rows - {device}; }
      r := Attempted(io);
    }

    /** Removal of a registration that never took effect demands both proofs, this cert, and a label that is not out. */
    method DeleteAfterDisprovenCommit(device: string, homeRejected: bool, neverPublished: bool, cert: string)
      returns (r: Outcome)
      modifies this
      ensures r.Refused? ==> rows == old(rows)
      ensures r.Attempted? ==> rows == Written(r.io, old(rows), old(rows) - {device})
      ensures r.Attempted? && device in old(rows) ==>
        homeRejected && neverPublished && old(rows)[device].cert == cert && !Out(old(rows)[device].state)
      ensures (homeRejected && neverPublished && device in old(rows) && old(rows)[device].cert == cert
               && !Out(old(rows)[device].state)) ==> r.Attempted?
    {
      if !homeRejected || !neverPublished { return Refused; }
      if device !in rows {
        assert rows - {device} == rows;
        return Attempted(Done);
      }
      if rows[device].cert != cert || Out(rows[device].state) { return Refused; }
      var io: Io := *;
      if !io.Lost? { rows := rows - {device}; }
      r := Attempted(io);
    }

    /** The rows a predicate selects, in the store's key order. */
    method List(now: int, resumable: bool) returns (out: seq<(string, Row)>)
      ensures forall i, j :: 0 <= i < j < |out| ==> out[i].0 != out[j].0
      ensures forall d, row :: (d, row) in out <==>
        d in rows && rows[d] == row && (if resumable then row.state.Pending? else row.Due(now))
    {
      out := [];
      var keys := rows.Keys;
      while keys != {}
        invariant keys <= rows.Keys
        invariant forall i, j :: 0 <= i < j < |out| ==> out[i].0 != out[j].0
        invariant forall d, row :: (d, row) in out <==>
          d in rows && d !in keys && rows[d] == row && (if resumable then row.state.Pending? else row.Due(now))
        decreases |keys|
      {
        var d :| d in keys;
        var row := rows[d];
        assert forall i :: 0 <= i < |out| ==> out[i] in out;
        if (if resumable then row.state.Pending? else row.Due(now)) {
          out := out + [(d, row)];
        }
        keys := keys - {d};
      }
    }
  }
}
