/** Shared vocabulary of the inbound delivery model. */
module DepositTypes {
  /** How a storage or network call ends.  `Landed` is the torn case: the
      effect happened, but the caller saw an exception. */
  datatype Io = Done | Lost | Landed

  /** A write that throws may or may not have reached the disk. */
  function Written<T>(io: Io, before: T, after: T): T {
    if io.Lost? then before else after
  }

  datatype Option<+T> = None | Some(value: T)

  /** The dedup identity of a deposit: a per-inbox sequence number on a durable
      node, the relay's event id on a legacy node (see DepositIdentity). */
  datatype Id = Seq(n: nat) | Event(e: string)

  /** A decrypted user message, as the message store sees it. */
  type Msg = string

  /** What the peer-link layer reports about one deposit, after the pipeline's
      normalisation of a missing or thrown status. */
  datatype Opened = Opened(consumed: bool, decryptOk: bool, msg: Option<Msg>)

  const UNREADABLE := Opened(false, false, None)

  /** The status object `submit` resolves with. */
  datatype Result = Result(consumed: bool, decryptOk: bool, already: bool, applied: bool, durable: bool)

  /** The consume layers' test before they move a cursor or delete a relay copy. */
  predicate AckSafe(r: Result) {
    r.durable || r.already
  }

  /** The poison knobs of the catch-up service. */
  datatype Bounds = Bounds(maxAttempts: nat, maxAgeMs: nat) {
    predicate Valid() {
      maxAttempts > 0 && maxAgeMs > 0
    }

    /** The fewest recorded failures after which anything may be given up. */
    function Floor(): nat {
      if maxAttempts < MIN_ATTEMPTS_FOR_AGE then maxAttempts else MIN_ATTEMPTS_FOR_AGE
    }
  }

  const MIN_ATTEMPTS_FOR_AGE := 3
  const BACKOFF_AFTER_ATTEMPTS := 3
  const BACKOFF_MS := 15000

  /** The drain's poison rule.  `firstSeen` is 0 when no first failure could be read. */
  predicate Poisoned(b: Bounds, attempts: nat, firstSeen: int, now: int) {
    || attempts >= b.maxAttempts
    || (firstSeen > 0 && now - firstSeen >= b.maxAgeMs && attempts >= MIN_ATTEMPTS_FOR_AGE)
  }

  /** The outbox's poison rule; a failed bookkeeping write reports 0 attempts and no first-staged time. */
  predicate PoisonedApply(b: Bounds, attempts: nat, firstStaged: Option<int>, now: int) {
    var age := if firstStaged.Some? && now > firstStaged.value then now - firstStaged.value else 0;
    || attempts >= b.maxAttempts
    || (age >= b.maxAgeMs && attempts >= MIN_ATTEMPTS_FOR_AGE)
  }
}
