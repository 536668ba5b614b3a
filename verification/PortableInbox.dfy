/** The portable per-device inbox: minted once, recorded once as the portable primary, leased only as that. */
module PortableInbox {
  import opened DepositTypes

  /** The host storage both the enrollment session and the steady-state boot live in. */
  class DeviceStorage {
    var claims: set<string>          // inboxes whose claimant keys are held
    var leases: map<string, int>     // accepted leases on record, by expiry
    var portable: Option<string>      // the portable primary
    var primary: Option<string>      // the single-transport primary

    constructor ()
      ensures claims == {} && leases == map[] && portable == None && primary == None
    {
      claims, leases, portable, primary := {}, map[], None, None;
    }

    method PersistClaim(id: string) returns (io: Io)
      modifies `claims
      ensures claims == Written(io, old(claims), old(claims) + {id})
    {
      io := *;
      if !io.Lost? { claims := claims + {id}; }
    }

    method SetPortable(id: string) returns (io: Io)
      modifies `portable
      ensures portable == Written(io, old(portable), Some(id))
    {
      io := *;
      if !io.Lost? { portable := Some(id); }
    }

    method SetPrimary(id: string) returns (io: Io)
      modifies `primary
      ensures primary == Written(io, old(primary), Some(id))
    {
      io := *;
      if !io.Lost? { primary := Some(id); }
    }

    method RecordLease(id: string, expiresAtMs: int) returns (io: Io)
      modifies `leases
      ensures leases == Written(io, old(leases), old(leases)[id := expiresAtMs])
    {
      io := *;
      if !io.Lost? { leases := leases[id := expiresAtMs]; }
    }
  }

  /** The portable provider, as far as addresses go. */
  class Provider {
    var leased: set<string>

    constructor ()
      ensures leased == {}
    {
      leased := {};
    }

    /** One claim round-trip; a failed one may still have been accepted. */
    method Claim(id: string) returns (io: Io)
      modifies this
      ensures leased == Written(io, old(leased), old(leased) + {id})
    {
      io := *;
      if !io.Lost? { leased := leased + {id}; }
    }
  }

  datatype Leased = Current | Accepted

  datatype Established = Failed | Inbox(id: string, lease: Leased)

  class PortableInboxEstablisher {
    const storage: DeviceStorage
    const provider: Provider
    const bootstrap: Option<string>

    constructor (storage: DeviceStorage, provider: Provider, bootstrap: Option<string>)
      ensures this.storage == storage && this.provider == provider && this.bootstrap == bootstrap
    {
      this.storage, this.provider, this.bootstrap := storage, provider, bootstrap;
    }

    /** Nothing ever reached the provider, or was recorded as leased, but the portable primary. */
    ghost predicate Valid()
      reads this, storage, provider
    {
      && (forall id :: id in provider.leased ==> storage.portable == Some(id))
      && (forall id :: id in storage.leases ==> id in provider.leased)
    }

    /** `registerInboxClaimOnSession`: the lease goes on record only after the provider has accepted it; failing to
        record it is not an error. */
    method RegisterClaim(id: string) returns (io: Io, ghost recorded: Io)
      modifies provider, storage`leases
      ensures provider.leased == Written(io, old(provider.leased), old(provider.leased) + {id})
      ensures forall x :: x in storage.leases ==> x in old(storage.leases) || (x == id && io.Done?)
      ensures storage.leases - {id} == old(storage.leases) - {id}
      ensures io.Done? && recorded.Done? ==> id in storage.leases
    {
      var expiresAtMs: int := *;
      recorded := Done;
      io := provider.Claim(id);
      if io.Done? {
        var kept := storage.RecordLease(id, expiresAtMs);
        recorded := kept;
      }
    }

    /** Names the inbox this device will publish: minted on first use, and not returned before the provider has leased it. */
    method Ensure(now: int, minted: string) returns (r: Established, ghost clean: bool)
      requires Valid()
      modifies storage`claims, storage`portable, storage`leases, provider
      ensures Valid() && old(storage.claims) <= storage.claims
      // the portable primary is recorded once; a claim is minted only while there is none
      ensures old(storage.portable).Some? ==> storage.portable == old(storage.portable) && storage.claims == old(storage.claims)
      ensures storage.claims <= old(storage.claims) + {minted}
      ensures r.Inbox? ==> storage.portable == Some(r.id) && r.id in storage.claims && Some(r.id) != bootstrap
      // what a success stands for: an unexpired lease on record, or one accepted just now
      ensures r.Inbox? && r.lease.Current? ==> r.id in storage.leases && now < storage.leases[r.id]
      ensures r.Inbox? ==> r.id in provider.leased
      ensures provider.leased <= old(provider.leased) + (if storage.portable.Some? then {storage.portable.value} else {})
      // a lease on record and unexpired is answered without the network
      ensures var p := old(storage.portable);
        p.Some? && p.value in old(storage.claims) && p != bootstrap && p.value in old(storage.leases) && now < old(storage.leases)[p.value]
        ==> r == Inbox(p.value, Current) && provider.leased == old(provider.leased)
      // with every call answered it fails only on a lost claim or on the bootstrap inbox
      ensures clean && r.Failed? ==>
        storage.portable.Some? && (storage.portable == bootstrap || storage.portable.value !in old(storage.claims))
    {
      clean := true;
      var id;
      if storage.portable.Some? {
        id := storage.portable.value;
        if id !in storage.claims { return Failed, clean; }
      } else {
        var io := storage.PersistClaim(minted);
        if !io.Done? { return Failed, false; }
        io := storage.SetPortable(minted);
        if !io.Done? { return Failed, false; }
        id := minted;
      }
      if bootstrap == Some(id) { return Failed, clean; }
      if id in storage.leases && now < storage.leases[id] {
        return Inbox(id, Current), clean;
      }
      var connected: bool := *;
      if !connected { return Failed, false; }
      ghost var recorded;
      var io;
      io, recorded := RegisterClaim(id);
      clean := io.Done?;
      r := if io.Done? then Inbox(id, Accepted) else Failed;
    }
  }

  datatype Role = Legacy | Enrollment | Portable

  datatype Boot = Refused | Claimed(id: string)

  class InboxClaimant {
    const storage: DeviceStorage

    constructor (storage: DeviceStorage)
      ensures this.storage == storage
    {
      this.storage := storage;
    }

    /** Which inbox this boot will claim.  The ceremony's inbox may seed an enrollment or a single-transport boot; it is
        never what a portable boot falls back to, and never becomes the portable primary. */
    method Bootstrap(role: Role, ceremony: Option<string>, minted: string) returns (b: Boot, ghost clean: bool)
      modifies storage`claims, storage`primary
      ensures old(storage.claims) <= storage.claims
      ensures role.Portable? ==>
        && storage.claims == old(storage.claims) && storage.primary == old(storage.primary)
        && (b.Claimed? <==>
              storage.portable.Some? && storage.portable.value in storage.claims && storage.portable != ceremony)
        && (b.Claimed? ==> storage.portable == Some(b.id))
      ensures role.Enrollment? ==> storage.primary == old(storage.primary) && (b.Claimed? ==> ceremony == Some(b.id))
      ensures role.Legacy? ==>
        && (old(storage.primary).Some? && ceremony.Some? && old(storage.primary) != ceremony ==> b.Refused?)
        && (b.Claimed? ==> b.id == if old(storage.primary).Some? then old(storage.primary).value
                                   else if ceremony.Some? then ceremony.value else minted)
      ensures b.Claimed? ==> b.id in storage.claims
      // a single-transport boot records what it mints, and nothing else
      ensures role.Legacy? && b.Claimed? ==>
        storage.primary == if b.id in old(storage.claims) && (old(storage.primary).Some? || ceremony.Some?)
                           then old(storage.primary) else Some(b.id)
      // with every call answered it refuses only for want of a ceremony, or over a contradicting one
      ensures clean && role.Enrollment? ==> (b.Refused? <==> ceremony.None?)
      ensures clean && role.Legacy? ==>
        (b.Refused? <==> old(storage.primary).Some? && ceremony.Some? && old(storage.primary) != ceremony)
    {
      clean := true;
      match role
      case Enrollment =>
        if ceremony.None? { return Refused, clean; }
        var id := ceremony.value;
        if id !in storage.claims {
          var io := storage.PersistClaim(id);
          if !io.Done? { return Refused, false; }
        }
        return Claimed(id), clean;
      case Portable =>
        if storage.portable.None? { return Refused, clean; }
        var id := storage.portable.value;
        if id !in storage.claims || ceremony == Some(id) { return Refused, clean; }
        return Claimed(id), clean;
      case Legacy =>
        if storage.primary.Some? && ceremony.Some? && storage.primary != ceremony { return Refused, clean; }
        var target := if storage.primary.Some? then storage.primary else ceremony;
        if target.Some? && target.value in storage.claims { return Claimed(target.value), clean; }
        var id := if target.Some? then target.value else minted;
        var io := storage.PersistClaim(id);
        if !io.Done? { return Refused, false; }
        io := storage.SetPrimary(id);
        if !io.Done? { return Refused, false; }
        return Claimed(id), clean;
    }
  }
}
