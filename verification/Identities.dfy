/** Two identities that have to be exact: what names a deposit, and what names a set of message fingerprints. */
module Identities {
  import opened DepositTypes

  // ---- Decimal numerals ----

  function Digit(d: nat): char
    requires d < 10
  {
    '0' + d as char
  }

  function Decimal(n: nat): (s: string)
    ensures |s| > 0 && (|s| == 1 <==> n < 10)
  {
    if n < 10 then [Digit(n)] else Decimal(n / 10) + [Digit(n % 10)]
  }

  lemma {:induction false} DecimalIsInjective(m: nat, n: nat)
    requires Decimal(m) == Decimal(n)
    ensures m == n
    decreases m
  {
    var s, t := Decimal(m), Decimal(n);
    assert s[|s| - 1] == t[|t| - 1];
    assert m % 10 == n % 10;
    if m >= 10 {
      assert s[..|s| - 1] == Decimal(m / 10) && t[..|t| - 1] == Decimal(n / 10);
      DecimalIsInjective(m / 10, n / 10);
    }
  }

  // ---- The dedup identity of a deposit ----

  /** The body of a frame: a usable sequence number or none, and the relay's event id, trimmed. */
  datatype Body = Body(sequence: Option<nat>, eventId: string)

  function DepositIdentity(b: Body): string {
    if b.sequence.Some? then "seq:" + Decimal(b.sequence.value) else b.eventId
  }

  /** The event id is itself written as the sequence identity of `n`. */
  predicate Poses(eventId: string, n: nat) {
    eventId == "seq:" + Decimal(n)
  }

  /** Two frames are one deposit exactly when their sequence numbers agree, or both have none and their event ids agree,
      or the event id of one spells the sequence identity of the other. */
  lemma SameDepositExactly(a: Body, b: Body)
    ensures DepositIdentity(a) == DepositIdentity(b) <==>
      || (a.sequence.Some? && a.sequence == b.sequence)
      || (a.sequence.None? && b.sequence.None? && a.eventId == b.eventId)
      || (a.sequence.None? && b.sequence.Some? && Poses(a.eventId, b.sequence.value))
      || (a.sequence.Some? && b.sequence.None? && Poses(b.eventId, a.sequence.value))
  {
    if a.sequence.Some? && b.sequence.Some? && DepositIdentity(a) == DepositIdentity(b) {
      var m, n := a.sequence.value, b.sequence.value;
      assert ("seq:" + Decimal(m))[4..] == Decimal(m) && ("seq:" + Decimal(n))[4..] == Decimal(n);
      DecimalIsInjective(m, n);
    }
  }

  // ---- The digest of a fingerprint set, before hashing ----

  predicate Below(a: string, b: string) {
    b != "" && (a == "" || a[0] < b[0] || (a[0] == b[0] && Below(a[1..], b[1..])))
  }

  lemma {:induction false} BelowIsTotal(a: string, b: string)
    ensures Below(a, b) || a == b || Below(b, a)
    ensures !(Below(a, b) && (a == b || Below(b, a)))
    decreases |a|
  {
    if a != "" && b != "" {
      BelowIsTotal(a[1..], b[1..]);
      assert a == [a[0]] + a[1..] && b == [b[0]] + b[1..];
    }
  }

  lemma {:induction false} BelowIsTransitive(a: string, b: string, c: string)
    requires Below(a, b) && Below(b, c)
    ensures Below(a, c)
    decreases |a|
  {
    if a != "" && a[0] == b[0] && b[0] == c[0] {
      BelowIsTransitive(a[1..], b[1..], c[1..]);
    }
  }

  predicate Ordered(fs: seq<string>) {
    forall i, j :: 0 <= i < j < |fs| ==> Below(fs[i], fs[j])
  }

  function Elements(fs: seq<string>): set<string> {
    set f | f in fs
  }

  /** Put one fingerprint in its place, unless it is there. */
  function Insert(f: string, fs: seq<string>): seq<string> {
    if fs == [] || Below(f, fs[0]) then [f] + fs
    else if f == fs[0] then fs
    else [fs[0]] + Insert(f, fs[1..])
  }

  /** Drop what is empty, then sort and deduplicate. */
  function Canonical(fs: seq<string>): seq<string> {
    if fs == [] then []
    else if fs[0] == "" then Canonical(fs[1..])
    else Insert(fs[0], Canonical(fs[1..]))
  }

  lemma ElementsCons(f: string, fs: seq<string>)
    ensures Elements([f] + fs) == {f} + Elements(fs)
  {
  }

  lemma {:induction false} InsertAddsOne(f: string, fs: seq<string>)
    ensures Elements(Insert(f, fs)) == Elements(fs) + {f}
    decreases |fs|
  {
    if fs == [] || Below(f, fs[0]) {
      ElementsCons(f, fs);
    } else if f != fs[0] {
      InsertAddsOne(f, fs[1..]);
      ElementsCons(fs[0], fs[1..]);
      ElementsCons(fs[0], Insert(f, fs[1..]));
      assert fs == [fs[0]] + fs[1..];
    }
  }

  /** Ordered, taken from the front. */
  lemma OrderedCons(f: string, fs: seq<string>)
    ensures Ordered([f] + fs) <==> Ordered(fs) && forall g :: g in Elements(fs) ==> Below(f, g)
  {
    var r := [f] + fs;
    if Ordered(r) {
      forall i, j | 0 <= i < j < |fs| ensures Below(fs[i], fs[j]) {
        assert Below(r[i + 1], r[j + 1]);
      }
      forall g | g in Elements(fs) ensures Below(f, g) {
        var j :| 0 <= j < |fs| && fs[j] == g;
        assert Below(r[0], r[j + 1]);
      }
    }
    if Ordered(fs) && forall g :: g in Elements(fs) ==> Below(f, g) {
      forall i, j | 0 <= i < j < |r| ensures Below(r[i], r[j]) {
        assert r[j] == fs[j - 1] && fs[j - 1] in Elements(fs);
        if i > 0 { assert r[i] == fs[i - 1]; }
      }
    }
  }

  lemma {:induction false} InsertKeepsOrder(f: string, fs: seq<string>)
    requires Ordered(fs)
    ensures Ordered(Insert(f, fs)) && Elements(Insert(f, fs)) == Elements(fs) + {f}
    decreases |fs|
  {
    InsertAddsOne(f, fs);
    if fs == [] {
    } else if Below(f, fs[0]) {
      forall g | g in Elements(fs) ensures Below(f, g) {
        var i :| 0 <= i < |fs| && fs[i] == g;
        if i > 0 { BelowIsTransitive(f, fs[0], g); }
      }
      OrderedCons(f, fs);
    } else if f != fs[0] {
      assert fs == [fs[0]] + fs[1..];
      BelowIsTotal(f, fs[0]);
      OrderedCons(fs[0], fs[1..]);
      InsertKeepsOrder(f, fs[1..]);
      OrderedCons(fs[0], Insert(f, fs[1..]));
    }
  }

  function NonEmpty(fs: seq<string>): set<string> {
    set f | f in fs && f != ""
  }

  lemma {:induction false} CanonicalIsTheSet(fs: seq<string>)
    ensures Ordered(Canonical(fs)) && Elements(Canonical(fs)) == NonEmpty(fs)
    decreases |fs|
  {
    if fs != [] {
      CanonicalIsTheSet(fs[1..]);
      assert fs == [fs[0]] + fs[1..];
      if fs[0] != "" { InsertKeepsOrder(fs[0], Canonical(fs[1..])); }
    }
  }

  /** A set has one ordered listing. */
  lemma {:induction false} OrderedListingIsUnique(a: seq<string>, b: seq<string>)
    requires Ordered(a) && Ordered(b) && Elements(a) == Elements(b)
    ensures a == b
    decreases |a|
  {
    NothingListedIffEmpty(a);
    NothingListedIffEmpty(b);
    if a != [] {
      LeastIsFirst(a, b);
      LeastIsFirst(b, a);
      BelowIsTotal(a[0], b[0]);
      TailElements(a);
      TailElements(b);
      OrderedListingIsUnique(a[1..], b[1..]);
      assert a == [a[0]] + a[1..] && b == [b[0]] + b[1..];
    }
  }

  lemma NothingListedIffEmpty(a: seq<string>)
    ensures Elements(a) == {} <==> a == []
  {
    if a != [] { assert a[0] in Elements(a); }
  }

  lemma LeastIsFirst(a: seq<string>, b: seq<string>)
    requires Ordered(a) && Elements(a) == Elements(b) && a != [] && b != []
    ensures a[0] == b[0] || Below(a[0], b[0])
  {
    assert b[0] in Elements(a);
    var i :| 0 <= i < |a| && a[i] == b[0];
  }

  lemma TailElements(a: seq<string>)
    requires Ordered(a) && a != []
    ensures Ordered(a[1..]) && Elements(a[1..]) == Elements(a) - {a[0]}
  {
    forall i | 0 <= i < |a[1..]| ensures a[1..][i] != a[0] {
      BelowIsTotal(a[0], a[i + 1]);
    }
    assert a == [a[0]] + a[1..];
  }

  function Join(fs: seq<string>): string {
    if fs == [] then "" else if |fs| == 1 then fs[0] else fs[0] + "\n" + Join(fs[1..])
  }

  /** What is hashed. */
  function DigestInput(fs: seq<string>): string {
    Join(Canonical(fs))
  }

  predicate Plain(fs: seq<string>) {
    forall i :: 0 <= i < |fs| ==> fs[i] != "" && '\n' !in fs[i]
  }

  /** Joined lines can be taken apart again. */
  lemma {:induction false} JoinIsInjective(a: seq<string>, b: seq<string>)
    requires Plain(a) && Plain(b) && Join(a) == Join(b)
    ensures a == b
    decreases |a|
  {
    NothingJoinedIffEmpty(a);
    NothingJoinedIffEmpty(b);
    if a != [] {
      FirstLine(a);
      FirstLine(b);
      assert |a[0]| == |b[0]|;
      assert a[0] == Join(a)[..|a[0]|] == b[0];
      if |a| > 1 {
        assert Join(a[1..]) == Join(a)[|a[0]| + 1..] == Join(b[1..]);
        JoinIsInjective(a[1..], b[1..]);
      }
      assert a == [a[0]] + a[1..] && b == [b[0]] + b[1..];
    }
  }

  lemma NothingJoinedIffEmpty(a: seq<string>)
    requires Plain(a)
    ensures Join(a) == "" <==> a == []
  {
    if a != [] { assert |a[0]| > 0; }
  }

  lemma FirstLine(a: seq<string>)
    requires a != []
    ensures |Join(a)| >= |a[0]| && Join(a)[..|a[0]|] == a[0]
    ensures |a| == 1 ==> Join(a) == a[0]
    ensures |a| > 1 ==> |Join(a)| > |a[0]| && Join(a)[|a[0]|] == '\n' && Join(a)[|a[0]| + 1..] == Join(a[1..])
  {
  }

  /** Two lists of newline-free fingerprints hash the same string exactly when they are the same set. */
  lemma SameDigestInputExactly(a: seq<string>, b: seq<string>)
    requires forall i :: 0 <= i < |a| ==> '\n' !in a[i]
    requires forall i :: 0 <= i < |b| ==> '\n' !in b[i]
    ensures DigestInput(a) == DigestInput(b) <==> NonEmpty(a) == NonEmpty(b)
  {
    CanonicalIsTheSet(a);
    CanonicalIsTheSet(b);
    PlainCanonical(a);
    PlainCanonical(b);
    if NonEmpty(a) == NonEmpty(b) {
      OrderedListingIsUnique(Canonical(a), Canonical(b));
    }
    if DigestInput(a) == DigestInput(b) {
      JoinIsInjective(Canonical(a), Canonical(b));
    }
  }

  lemma PlainCanonical(a: seq<string>)
    requires forall i :: 0 <= i < |a| ==> '\n' !in a[i]
    ensures Plain(Canonical(a))
  {
    CanonicalIsTheSet(a);
    forall i | 0 <= i < |Canonical(a)| ensures Canonical(a)[i] != "" && '\n' !in Canonical(a)[i] {
      assert Canonical(a)[i] in Elements(Canonical(a));
    }
  }

  // ---- With line breaks in the fingerprints ----

  /** A string cut at its line breaks. */
  function Lines(s: string): (ls: seq<string>)
    ensures ls != []
  {
    if s == "" then [""]
    else
      var ls := Lines(s[1..]);
      if s[0] == '\n' then [""] + ls else [[s[0]] + ls[0]] + ls[1..]
  }

  function AllLines(fs: seq<string>): seq<string> {
    if fs == [] then [] else Lines(fs[0]) + AllLines(fs[1..])
  }

  lemma {:induction false} LinesOfTwo(a: string, b: string)
    ensures Lines(a + "\n" + b) == Lines(a) + Lines(b)
    decreases |a|
  {
    var s := a + "\n" + b;
    if a == "" {
      assert s[1..] == b;
    } else {
      assert s[1..] == a[1..] + "\n" + b;
      LinesOfTwo(a[1..], b);
    }
  }

  lemma {:induction false} LinesOfJoin(fs: seq<string>)
    requires fs != []
    ensures Lines(Join(fs)) == AllLines(fs)
    decreases |fs|
  {
    if |fs| == 1 {
      assert AllLines(fs[1..]) == [];
    } else {
      LinesOfTwo(fs[0], Join(fs[1..]));
      LinesOfJoin(fs[1..]);
    }
  }

  /** Cutting loses nothing. */
  lemma {:induction false} LinesJoinBack(s: string)
    ensures Join(Lines(s)) == s
    decreases |s|
  {
    if s != "" {
      LinesJoinBack(s[1..]);
      var ls := Lines(s[1..]);
      if s[0] == '\n' {
        assert ([""] + ls)[1..] == ls;
      } else {
        assert ([[s[0]] + ls[0]] + ls[1..])[1..] == ls[1..];
      }
    }
  }

  lemma CanonicalHasNoEmpty(fs: seq<string>)
    ensures Canonical(fs) != [] ==> Join(Canonical(fs)) != ""
  {
    CanonicalIsTheSet(fs);
    if Canonical(fs) != [] {
      assert Canonical(fs)[0] in Elements(Canonical(fs));
      FirstLine(Canonical(fs));
    }
  }

  /** Any two lists hash the same string exactly when their ordered sets, read line by line, are the same. */
  lemma SharedDigestExactly(a: seq<string>, b: seq<string>)
    ensures DigestInput(a) == DigestInput(b) <==> AllLines(Canonical(a)) == AllLines(Canonical(b))
  {
    var x, y := Canonical(a), Canonical(b);
    CanonicalHasNoEmpty(a);
    CanonicalHasNoEmpty(b);
    if x != [] { LinesOfJoin(x); }
    if y != [] { LinesOfJoin(y); }
    if x != [] && y != [] && AllLines(x) == AllLines(y) {
      LinesJoinBack(Join(x));
      LinesJoinBack(Join(y));
    }
  }

  /** So two different sets can share a digest. */
  lemma NewlineBreaksTheDigest()
    ensures DigestInput(["a\nb"]) == DigestInput(["a", "b"]) && NonEmpty(["a\nb"]) != NonEmpty(["a", "b"])
  {
    assert ["a\nb"][1..] == [] && ["a", "b"][1..] == ["b"] && ["b"][1..] == [];
    assert Canonical(["b"]) == ["b"] && Canonical(["a\nb"]) == ["a\nb"];
    assert Below("a", "b");
    assert Canonical(["a", "b"]) == ["a"] + ["b"];
    assert "a" in NonEmpty(["a", "b"]) && "a" !in NonEmpty(["a\nb"]);
  }
}
