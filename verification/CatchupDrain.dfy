/** The drain of a durable inbox: page after page through the serialised pipeline, moving the
    server-held cursor over the longest gap-free prefix of each page and over nothing else. */
module CatchupDrain {
  import opened DepositTypes
  import opened ProcessedLog

  predicate Ascending(log: seq<nat>) {
    forall i, j :: 0 <= i < j < |log| ==> log[i] < log[j]
  }

  /** How many entries of the log the cursor has passed. */
  function Rank(log: seq<nat>, cursor: nat): (r: nat)
    ensures r <= |log|
    ensures forall i :: 0 <= i < r ==> log[i] <= cursor
    ensures r < |log| ==> log[r] > cursor
  {
    if log == [] || log[0] > cursor then 0 else 1 + Rank(log[1..], cursor)
  }

  lemma RankGrows(log: seq<nat>, a: nat, b: nat)
    requires Ascending(log) && a <= b
    ensures Rank(log, a) <= Rank(log, b)
    ensures forall i :: Rank(log, a) <= i < |log| && log[i] <= b ==> i < Rank(log, b)
  {
    if Rank(log, b) < |log| {
      assert forall i :: Rank(log, b) < i < |log| ==> log[Rank(log, b)] < log[i];
    }
  }

  lemma RankIsMonotone(log: seq<nat>, a: nat, b: nat)
    requires Ascending(log) && a <= b
    ensures Rank(log, a) <= Rank(log, b)
  {
    RankGrows(log, a, b);
  }

  /** The next stretch of the log above the cursor, some of it possibly without a usable seq. */
  predicate IsPage(log: seq<nat>, cursor: nat, items: seq<Option<nat>>) {
    var r := Rank(log, cursor);
    && r + |items| <= |log|
    && forall i :: 0 <= i < |items| ==> items[i] == None || items[i] == Some(log[r + i])
  }

  /** The cursor after acks, each of which may have been lost or torn. */
  function Acked(cursor: nat, acks: seq<(nat, Io)>): (c: nat)
    decreases |acks|
  {
    if acks == [] then cursor
    else
      var c := Acked(cursor, acks[..|acks| - 1]);
      var (through, io) := acks[|acks| - 1];
      Written(io, c, if through > c then through else c)
  }

  /** The cursor is the highest of where it was and what any ack that reached the node named: it never goes back, and
      neither the order of the acks nor their repetition matters. */
  lemma {:induction false} CursorIsTheHighestAck(cursor: nat, acks: seq<(nat, Io)>)
    ensures Acked(cursor, acks) >= cursor
    ensures forall i :: 0 <= i < |acks| && !acks[i].1.Lost? ==> Acked(cursor, acks) >= acks[i].0
    ensures Acked(cursor, acks) == cursor || exists i :: 0 <= i < |acks| && !acks[i].1.Lost? && acks[i].0 == Acked(cursor, acks)
    decreases |acks|
  {
    if acks != [] {
      var n := |acks| - 1;
      var pre := acks[..n];
      CursorIsTheHighestAck(cursor, pre);
      assert forall i :: 0 <= i < n ==> pre[i] == acks[i];
    }
  }

  lemma OneAck(cursor: nat, through: nat, io: Io)
    ensures Acked(cursor, [(through, io)]) == Written(io, cursor, if through > cursor then through else cursor)
  {
    assert [(through, io)][..0] == [];
  }

  /** Repeating and reordering acks changes nothing. */
  lemma AcksInAnyOrder(cursor: nat, acks: seq<(nat, Io)>, acks': seq<(nat, Io)>)
    requires forall a :: a in acks <==> a in acks'
    ensures Acked(cursor, acks) == Acked(cursor, acks')
  {
    CursorIsTheHighestAck(cursor, acks);
    CursorIsTheHighestAck(cursor, acks');
    if Acked(cursor, acks) != cursor {
      var i :| 0 <= i < |acks| && !acks[i].1.Lost? && acks[i].0 == Acked(cursor, acks);
      assert acks[i] in acks';
    }
    if Acked(cursor, acks') != cursor {
      var i :| 0 <= i < |acks'| && !acks'[i].1.Lost? && acks'[i].0 == Acked(cursor, acks');
      assert acks'[i] in acks;
    }
  }

  /** The home node of one inbox.  `log` is all the mail there will ever be; `arrived` of it is there so far. */
  class DurableNode {
    const log: seq<nat>
    var arrived: nat
    var cursor: nat

    ghost predicate Valid()
      reads this
    {
      Ascending(log) && (forall n :: n in log ==> n > 0) && arrived <= |log|
    }

    constructor (log: seq<nat>)
      requires Ascending(log) && forall n :: n in log ==> n > 0
      ensures Valid() && this.log == log && cursor == 0
    {
      this.log, arrived, cursor := log, 0, 0;
    }

    /** The next page strictly after the cursor.  More mail may have come in; an item may lack a usable seq. */
    method List(limit: nat) returns (io: Io, items: seq<Option<nat>>)
      requires Valid() && limit > 0
      modifies `arrived
      ensures Valid() && arrived >= old(arrived)
      ensures io.Done? ==>
        IsPage(log, cursor, items) && |items| <= limit && (items == [] <==> arrived <= Rank(log, cursor))
    {
      var more: int := *;
      if 0 < more <= |log| - arrived { arrived := arrived + more; }
      io := *;
      var bad: set<nat> := *;
      var r := Rank(log, cursor);
      var n := if arrived <= r then 0 else if arrived - r <= limit then arrived - r else limit;
      items := seq(n, i requires 0 <= i < n => if i in bad then None else Some(log[r + i]));
      assert |items| == n;
    }

    method CursorAck(through: nat) returns (io: Io)
      modifies `cursor
      ensures cursor == Acked(old(cursor), [(through, io)])
    {
      io := *;
      if !io.Lost? && through > cursor { cursor := through; }
    }
  }

  datatype Ending = CaughtUp | Blocked | Faulted

  /** What a page decided about one item. */
  datatype Verdict = Durable | Quarantined | Gap

  /** `k` cuts the verdicts at their first gap, or at the end when there is none. */
  predicate CutsAtGap(vs: seq<Verdict>, k: nat) {
    k <= |vs| && Gap !in vs[..k] && (k < |vs| ==> vs[k] == Gap)
  }

  /** The prefixes without a gap are those up to the cut, so the cut is the longest of them. */
  lemma CutIsLongest(vs: seq<Verdict>, k: nat, j: nat)
    requires CutsAtGap(vs, k) && j <= |vs|
    ensures Gap !in vs[..j] <==> j <= k
  {
    if j <= k {
      assert vs[..j] == vs[..k][..j];
    } else {
      assert vs[..j][k] == Gap;
    }
  }

  /** Every verdict is about an item with a usable seq. */
  predicate Judges(items: seq<Option<nat>>, vs: seq<Verdict>) {
    |vs| <= |items| && forall i :: 0 <= i < |vs| ==> items[i].Some?
  }

  /** The seqs that got a given verdict, in page order. */
  function Ones(items: seq<Option<nat>>, vs: seq<Verdict>, v: Verdict): seq<nat>
    requires Judges(items, vs)
    decreases |vs|
  {
    if vs == [] then []
    else
      var n := |vs| - 1;
      Ones(items, vs[..n], v) + (if vs[n] == v then [items[n].value] else [])
  }

  lemma {:induction false} OnesAreThose(items: seq<Option<nat>>, vs: seq<Verdict>, v: Verdict, n: nat)
    requires Judges(items, vs)
    ensures n in Ones(items, vs, v) <==> exists i :: 0 <= i < |vs| && items[i] == Some(n) && vs[i] == v
    decreases |vs|
  {
    if vs != [] {
      OnesAreThose(items, vs[..|vs| - 1], v, n);
    }
  }

  function Ids(ns: seq<nat>): set<Id> {
    set n | n in ns :: Seq(n)
  }

  /** The watermark of a page: the last seq of its longest gap-free prefix, 0 when that is empty. */
  function Watermark(items: seq<Option<nat>>, vs: seq<Verdict>, k: nat): nat
    requires Judges(items, vs) && CutsAtGap(vs, k)
  {
    if k == 0 then 0 else items[k - 1].value
  }

  lemma IndexBetween(log: seq<nat>, cursor: nat, n: nat, last: nat) returns (j: nat)
    requires Ascending(log) && last < |log| && n in log && cursor < n <= log[last]
    ensures Rank(log, cursor) <= j <= last && log[j] == n
  {
    j :| 0 <= j < |log| && log[j] == n;
  }

  lemma PageItem(log: seq<nat>, cursor: nat, items: seq<Option<nat>>, i: nat)
    requires Ascending(log) && IsPage(log, cursor, items) && i < |items| && items[i].Some?
    ensures Rank(log, cursor) + i < |log| && items[i] == Some(log[Rank(log, cursor) + i]) && items[i].value > cursor
  {
    var r := Rank(log, cursor);
    assert i > 0 ==> log[r] < log[r + i];
  }

  lemma ItemsAscend(log: seq<nat>, cursor: nat, items: seq<Option<nat>>, i: nat, j: nat)
    requires Ascending(log) && IsPage(log, cursor, items) && i <= j < |items| && items[i].Some? && items[j].Some?
    ensures items[i].value <= items[j].value
  {
    PageItem(log, cursor, items, i);
    PageItem(log, cursor, items, j);
    hide IsPage;
  }

  lemma ItemsDiffer(log: seq<nat>, cursor: nat, items: seq<Option<nat>>, i: nat)
    requires Ascending(log) && IsPage(log, cursor, items) && 0 < i < |items| && items[i].Some?
    ensures items[0].Some? ==> items[0].value != items[i].value
  {
    PageItem(log, cursor, items, i);
    if items[0].Some? { PageItem(log, cursor, items, 0); }
  }

  lemma ItemListed(log: seq<nat>, cursor: nat, items: seq<Option<nat>>, last: nat, n: nat)
    requires Ascending(log) && IsPage(log, cursor, items) && last < |items|
    requires forall i :: 0 <= i <= last ==> items[i].Some?
    requires n in log && cursor < n <= items[last].value
    ensures exists i :: 0 <= i <= last && items[i] == Some(n)
  {
    PageItem(log, cursor, items, last);
    var r := Rank(log, cursor);
    var j := IndexBetween(log, cursor, n, r + last);
    PageItem(log, cursor, items, j - r);
    hide IsPage, Ascending;
    assert items[j - r] == Some(n);
  }

  /** Between the cursor and the watermark lie exactly the items before the cut; an ack of it leaves fewer entries ahead. */
  lemma WatermarkCovers(log: seq<nat>, cursor: nat, items: seq<Option<nat>>, vs: seq<Verdict>, k: nat)
    requires Ascending(log) && IsPage(log, cursor, items) && Judges(items, vs) && CutsAtGap(vs, k)
    ensures k > 0 ==> Watermark(items, vs, k) > cursor && Rank(log, Watermark(items, vs, k)) >= Rank(log, cursor) + k
    ensures forall n :: n in log && cursor < n <= Watermark(items, vs, k) ==>
      exists i :: 0 <= i < k && items[i] == Some(n)
    ensures forall i :: 0 <= i < k ==> items[i].value <= Watermark(items, vs, k)
    ensures k == 0 ==> Watermark(items, vs, k) == 0
  {
    assert k <= |vs| <= |items|;
    var w := Watermark(items, vs, k);
    if k > 0 {
      PageItem(log, cursor, items, k - 1);
      RankGrows(log, cursor, w);
      hide CutsAtGap, IsPage, Ascending;
      forall n | n in log && cursor < n <= w ensures exists i :: 0 <= i < k && items[i] == Some(n) {
        ItemListed(log, cursor, items, k - 1, n);
      }
      forall i | 0 <= i < k ensures items[i].value <= w {
        ItemsAscend(log, cursor, items, i, k - 1);
      }
    }
  }

  /** The cursor moved over settled entries only. */
  ghost predicate PassesOnly(log: seq<nat>, from: nat, to: nat, settled: set<nat>) {
    forall n :: n in log && from < n <= to ==> n in settled
  }

  lemma PassesOnlyChain(log: seq<nat>, a: nat, b: nat, c: nat, s: set<nat>, s': set<nat>)
    requires PassesOnly(log, a, b, s) && PassesOnly(log, b, c, s') && s <= s'
    ensures PassesOnly(log, a, c, s')
  {
  }

  /** The markers that went were those of passed seqs and of seqs quarantined since, with a notice. */
  ghost predicate MarkersKept(before: set<Id>, after: set<Id>, cursor: nat, notices: seq<nat>, notices': seq<nat>) {
    && notices <= notices'
    && forall id :: id in before && id !in after ==> id.Seq? && (id.n <= cursor || id.n in notices'[|notices|..])
  }

  lemma MarkersKeptChain(m: set<Id>, m': set<Id>, m'': set<Id>, cursor: nat, cursor': nat,
                         n: seq<nat>, n': seq<nat>, n'': seq<nat>)
    requires cursor <= cursor' && MarkersKept(m, m', cursor, n, n') && MarkersKept(m', m'', cursor', n', n'')
    ensures MarkersKept(m, m'', cursor', n, n'')
  {
    assert n''[|n|..] == n'[|n|..] + n''[|n'|..];
  }

  lemma ConsumedArePassed(items: seq<Option<nat>>, vs: seq<Verdict>, k: nat)
    requires Judges(items, vs) && CutsAtGap(vs, k)
    requires forall i :: 0 <= i < k ==> items[i].value <= Watermark(items, vs, k)
    ensures forall n :: n in Ones(items, vs[..k], Durable) ==> n <= Watermark(items, vs, k)
  {
    forall n | n in Ones(items, vs[..k], Durable) ensures n <= Watermark(items, vs, k) {
      OnesAreThose(items, vs[..k], Durable, n);
    }
  }

  lemma CountersElsewhere(a: Counters, b: Counters, id: Id)
    requires a - {id} == b - {id}
    ensures forall x :: x != id ==> Attempts(a, x) == Attempts(b, x)
  {
    forall x | x != id ensures Attempts(a, x) == Attempts(b, x) {
      assert x in a <==> x in a - {id};
      assert x in b <==> x in b - {id};
    }
  }

  /** What was not a gap is settled. */
  ghost predicate Settles(items: seq<Option<nat>>, vs: seq<Verdict>, settled: set<nat>) {
    Judges(items, vs) && forall i :: 0 <= i < |vs| && !vs[i].Gap? ==> items[i].value in settled
  }

  /** What the page loop's variables mean after the verdicts `vs`. */
  predicate Tallied(items: seq<Option<nat>>, vs: seq<Verdict>, k: nat,
                    through: nat, consumed: seq<nat>, contiguous: bool, blocked: bool) {
    && Judges(items, vs) && CutsAtGap(vs, k)
    && through == Watermark(items, vs, k) && consumed == Ones(items, vs[..k], Durable)
    && (contiguous <==> k == |vs|) && (blocked <==> Gap in vs)
  }

  lemma NothingTallied(items: seq<Option<nat>>)
    ensures Tallied(items, [], 0, 0, [], true, false) && Judges(items, []) && forall v :: Ones(items, [], v) == []
  {
  }

  lemma TallyMeans(items: seq<Option<nat>>, vs: seq<Verdict>, k: nat)
    ensures forall through, consumed, contiguous, blocked :: Tallied(items, vs, k, through, consumed, contiguous, blocked) ==>
      && Judges(items, vs) && CutsAtGap(vs, k)
      && through == Watermark(items, vs, k) && consumed == Ones(items, vs[..k], Durable) && (blocked <==> Gap in vs)
  {
  }

  lemma TalliedGap(items: seq<Option<nat>>, vs: seq<Verdict>, k: nat,
                   through: nat, consumed: seq<nat>, contiguous: bool, blocked: bool)
    requires Tallied(items, vs, k, through, consumed, contiguous, blocked) && |vs| < |items| && items[|vs|].Some?
    ensures Tallied(items, vs + [Gap], k, through, consumed, false, true)
  {
    assert (vs + [Gap])[..k] == vs[..k];
    assert (vs + [Gap])[|vs|] == Gap;
  }

  lemma TalliedPast(items: seq<Option<nat>>, vs: seq<Verdict>, v: Verdict, k: nat,
                    through: nat, consumed: seq<nat>, contiguous: bool, blocked: bool)
    requires Tallied(items, vs, k, through, consumed, contiguous, blocked) && |vs| < |items| && items[|vs|].Some?
    requires !v.Gap?
    ensures if contiguous then
              var n := items[|vs|].value;
              Tallied(items, vs + [v], k + 1, n, if v.Durable? then consumed + [n] else consumed, true, blocked)
            else Tallied(items, vs + [v], k, through, consumed, false, blocked)
  {
    var vs' := vs + [v];
    assert vs'[..k] == vs[..k] && vs[..|vs|] == vs;
    assert forall x :: x in vs' <==> x in vs || x == v;
    assert Gap in vs ==> Gap in vs';
    if contiguous {
      assert vs'[..k + 1] == vs';
      assert vs'[..k] == vs;
      assert CutsAtGap(vs', k + 1);
    } else {
      assert k < |vs| && vs'[k] == vs[k];
    }
  }

  /** One more item for every list of seqs. */
  lemma OnesGrow(items: seq<Option<nat>>, vs: seq<Verdict>, v: Verdict)
    requires Judges(items, vs + [v])
    ensures Judges(items, vs)
    ensures forall w :: Ones(items, vs + [v], w) == Ones(items, vs, w) + (if v == w then [items[|vs|].value] else [])
  {
    assert (vs + [v])[..|vs|] == vs;
    assert forall i :: 0 <= i < |vs| ==> (vs + [v])[i] == vs[i];
  }

  /** How often a seq occurs in a record of events. */
  function Times(ns: seq<nat>, n: nat): nat {
    multiset(ns)[n]
  }

  /** Only entries above the cursor. */
  ghost predicate Above(log: seq<nat>, cursor: nat, ns: seq<nat>) {
    forall n :: n in ns ==> n in log && n > cursor
  }

  /** What a pass has done about the head, the first entry above the cursor it started from: `sent` are the seqs it has
      submitted, `waited` those it found held back, `cut` whether a page ended at an item without a usable seq. */
  ghost predicate HeadFate(b: Bounds, log: seq<nat>, cursor: nat, arrived: nat, counters: Counters, held: map<Id, int>,
                           faultless: bool, sent: seq<nat>, waited: seq<nat>, cut: bool, cursor': nat, counters': Counters) {
    var r := Rank(log, cursor);
    && Above(log, cursor, sent) && Above(log, cursor, waited)
    && (r < |log| ==>
          var head := log[r];
          var k := Times(sent, head);
          && k + Times(waited, head) <= 1
          && (head in waited ==> Seq(head) in held)
          && (k == 0 ==> cursor' == cursor && Attempts(counters', Seq(head)) == Attempts(counters, Seq(head)))
          && (faultless && cursor' < head ==> Attempts(counters', Seq(head)) == Attempts(counters, Seq(head)) + k)
          && (faultless && cursor' < head && k > 0 ==> Attempts(counters', Seq(head)) < b.maxAttempts)
          && (faultless && k == 0 && r < arrived <= |log| ==> cut || head in waited))
  }

  /** What a page's records say of its first item. */
  ghost predicate FirstItem(b: Bounds, counters: Counters, held: map<Id, int>, faultless: bool, counters': Counters,
                            items: seq<Option<nat>>, vs: seq<Verdict>, sent: seq<nat>, waited: seq<nat>) {
    && |vs| <= |items|
    && (forall n :: n in sent || n in waited ==> Some(n) in items)
    && (vs == [] ==> sent == [] && waited == [] && counters' == counters)
    && (vs != [] ==> items[0].Some?)
    && (vs != [] ==>
          var h := items[0].value;
          && Times(sent, h) + Times(waited, h) == 1
          && (h in waited ==> vs[0].Gap? && Seq(h) in held && Attempts(counters', Seq(h)) == Attempts(counters, Seq(h)))
          && (h in sent && vs[0].Gap? && faultless ==>
                Attempts(counters', Seq(h)) == Attempts(counters, Seq(h)) + 1 < b.maxAttempts))
  }

  /** The head is the first item of the page. */
  lemma PageDecidesHead(b: Bounds, log: seq<nat>, cursor: nat, arrived: nat, counters: Counters, held: map<Id, int>,
                        faultless: bool, sent: seq<nat>, waited: seq<nat>, cursor': nat, counters': Counters,
                        items: seq<Option<nat>>, vs: seq<Verdict>, k: nat)
    requires Ascending(log) && IsPage(log, cursor, items) && items != [] && Judges(items, vs) && CutsAtGap(vs, k)
    requires |vs| < |items| ==> items[|vs|] == None
    requires FirstItem(b, counters, held, faultless, counters', items, vs, sent, waited)
    requires faultless && k > 0 ==> cursor' >= Watermark(items, vs, k)
    requires k == 0 ==> cursor' == cursor
    ensures HeadFate(b, log, cursor, arrived, counters, held, faultless, sent, waited, |vs| < |items|, cursor', counters')
    ensures Above(log, cursor, sent) && Above(log, cursor, waited)
  {
    forall n | n in sent || n in waited ensures n in log && n > cursor {
      var i :| 0 <= i < |items| && items[i] == Some(n);
      PageItem(log, cursor, items, i);
    }
    if vs != [] {
      assert items[0] == Some(log[Rank(log, cursor)]);
      if !vs[0].Gap? {
        assert k > 0;
        WatermarkCovers(log, cursor, items, vs, k);
      }
    }
  }

  lemma NotAbove(log: seq<nat>, cursor: nat, ns: seq<nat>, n: nat)
    requires Above(log, cursor, ns) && n <= cursor
    ensures n !in ns && Times(ns, n) == 0
  {
  }

  /** Once the head is passed, later pages have nothing to do with it. */
  lemma HeadStaysPassed(b: Bounds, log: seq<nat>, cursor: nat, arrived: nat, counters: Counters, held: map<Id, int>,
                        faultless: bool, sent: seq<nat>, waited: seq<nat>, cut: bool, c: nat, cs: Counters,
                        faultless': bool, sent': seq<nat>, waited': seq<nat>, cut': bool, cursor': nat, counters': Counters)
    requires HeadFate(b, log, cursor, arrived, counters, held, faultless, sent, waited, cut, c, cs)
    requires Rank(log, c) > Rank(log, cursor) && cursor <= c <= cursor' && Above(log, c, sent') && Above(log, c, waited')
    ensures HeadFate(b, log, cursor, arrived, counters, held, faultless', sent + sent', waited + waited', cut', cursor', counters')
  {
    if Rank(log, cursor) < |log| {
      var head := log[Rank(log, cursor)];
      NotAbove(log, c, sent', head);
      NotAbove(log, c, waited', head);
      TimesAddUp(sent, sent', head);
      TimesAddUp(waited, waited', head);
    }
  }

  /** An ack of the watermark passes items before the cut only, and those were settled. */
  lemma PagePasses(log: seq<nat>, cursor: nat, cursor': nat, settled: set<nat>,
                   items: seq<Option<nat>>, vs: seq<Verdict>, k: nat)
    requires Ascending(log) && IsPage(log, cursor, items) && Judges(items, vs) && CutsAtGap(vs, k)
    requires Settles(items, vs, settled)
    requires cursor' == cursor || cursor' == Watermark(items, vs, k)
    ensures PassesOnly(log, cursor, cursor', settled)
  {
    WatermarkCovers(log, cursor, items, vs, k);
    forall n | n in log && cursor < n <= cursor' ensures n in settled {
      var i :| 0 <= i < k && items[i] == Some(n);
      assert vs[..k][i] == vs[i];
    }
  }

  /** A window that submits nothing leaves nothing to explain. */
  lemma IdleWindow(b: Bounds, log: seq<nat>, cursor: nat, arrived: nat, counters: Counters, held: map<Id, int>,
                   faultless: bool, settled: set<nat>, m: set<Id>, q: seq<nat>)
    requires faultless ==> arrived <= Rank(log, cursor)
    ensures PassesOnly(log, cursor, cursor, settled) && MarkersKept(m, m, cursor, q, q)
    ensures HeadFate(b, log, cursor, arrived, counters, held, faultless, [], [], false, cursor, counters)
    ensures Above(log, cursor, [])
  {
  }

  lemma UnblockedPageIsWhole(log: seq<nat>, cursor: nat, cursor': nat, items: seq<Option<nat>>, vs: seq<Verdict>, k: nat)
    requires Ascending(log) && IsPage(log, cursor, items) && Judges(items, vs) && CutsAtGap(vs, k)
    requires items != [] && Gap !in vs && |vs| == |items| && cursor' >= Watermark(items, vs, k)
    ensures Rank(log, cursor') > Rank(log, cursor) && Watermark(items, vs, k) > 0
  {
    assert k == |vs|;
    WatermarkCovers(log, cursor, items, vs, k);
    RankGrows(log, Watermark(items, vs, k), cursor');
  }

  /** A page loses the markers of what it quarantined, and pruning those of what the cursor has passed. */
  lemma PageKeepsMarkers(m: set<Id>, m': set<Id>, m'': set<Id>, notices: seq<nat>, notices': seq<nat>, consumed: seq<nat>, cursor: nat)
    requires notices <= notices' && m - Ids(notices'[|notices|..]) <= m'
    requires m' <= m'' || (m' - Ids(consumed) <= m'' && forall n :: n in consumed ==> n <= cursor)
    ensures MarkersKept(m, m'', cursor, notices, notices')
  {
  }

  /** What a service has done and recorded so far. */
  datatype Snapshot = Snapshot(
    notices: seq<nat>, settled: set<nat>, markers: set<Id>, counters: Counters, backoff: map<Id, int>, faults: nat,
    submitted: seq<nat>, heldBack: seq<nat>)

  /** From `x` to `y` a page has been drained as far as its verdicts go: notices for exactly the quarantined, everything but
      the gaps settled, markers lost to quarantine only, and each item submitted or held back. */
  ghost predicate PageSoFar(b: Bounds, x: Snapshot, y: Snapshot, items: seq<Option<nat>>, vs: seq<Verdict>,
                            sent: seq<nat>, waited: seq<nat>) {
    && Judges(items, vs)
    && y.notices == x.notices + Ones(items, vs, Quarantined)
    && x.settled <= y.settled && Settles(items, vs, y.settled)
    && x.markers - Ids(Ones(items, vs, Quarantined)) <= y.markers
    && y.submitted == x.submitted + sent && y.heldBack == x.heldBack + waited
    && y.faults >= x.faults && (vs == [] ==> y.backoff == x.backoff)
    && FirstItem(b, x.counters, x.backoff, y.faults == x.faults, y.counters, items, vs, sent, waited)
  }

  lemma PageBegins(b: Bounds, x: Snapshot, items: seq<Option<nat>>)
    ensures PageSoFar(b, x, x, items, [], [], [])
  {
    assert x.notices + [] == x.notices && x.submitted + [] == x.submitted && x.heldBack + [] == x.heldBack;
  }

  /** What submitting one item, or holding it back, has changed. */
  ghost predicate ItemDone(b: Bounds, y: Snapshot, z: Snapshot, n: nat, v: Verdict, now: int, r: Option<Result>) {
    && (r.None? ==> v.Gap? && Seq(n) in y.backoff && z.counters == y.counters)
    && z.settled == y.settled + (if v.Gap? then {} else {n})
    && z.notices == y.notices + (if v.Quarantined? then [n] else [])
    && y.markers - (if v.Quarantined? then {Seq(n)} else {}) <= z.markers
    && z.submitted == y.submitted + (if r.Some? then [n] else []) && z.heldBack == y.heldBack + (if r.None? then [n] else [])
    && z.counters - {Seq(n)} == y.counters - {Seq(n)} && z.faults >= y.faults
    && (r.Some? && v.Gap? && z.faults == y.faults ==>
          Attempts(z.counters, Seq(n)) == Attempts(y.counters, Seq(n)) + 1 < b.maxAttempts)
  }

  lemma FirstItemGoesOn(b: Bounds, x: Snapshot, y: Snapshot, z: Snapshot, items: seq<Option<nat>>, vs: seq<Verdict>, v: Verdict,
                        sent: seq<nat>, waited: seq<nat>, now: int, r: Option<Result>)
    requires PageSoFar(b, x, y, items, vs, sent, waited) && |vs| < |items| && items[|vs|].Some?
    requires ItemDone(b, y, z, items[|vs|].value, v, now, r)
    requires vs != [] && items[0].Some? ==> items[0].value != items[|vs|].value
    ensures FirstItem(b, x.counters, x.backoff, z.faults == x.faults, z.counters, items, vs + [v],
                      sent + (if r.Some? then [items[|vs|].value] else []), waited + (if r.None? then [items[|vs|].value] else []))
  {
    hide Settles, Ones, Ids;
    assert items[|vs|] in items;
    CountersElsewhere(y.counters, z.counters, Seq(items[|vs|].value));
  }

  lemma PageGoesOn(b: Bounds, x: Snapshot, y: Snapshot, z: Snapshot, items: seq<Option<nat>>, vs: seq<Verdict>, v: Verdict,
                   sent: seq<nat>, waited: seq<nat>, now: int, r: Option<Result>)
    requires PageSoFar(b, x, y, items, vs, sent, waited) && |vs| < |items| && items[|vs|].Some?
    requires ItemDone(b, y, z, items[|vs|].value, v, now, r)
    requires vs != [] && items[0].Some? ==> items[0].value != items[|vs|].value
    ensures PageSoFar(b, x, z, items, vs + [v], sent + (if r.Some? then [items[|vs|].value] else []),
                      waited + (if r.None? then [items[|vs|].value] else []))
  {
    FirstItemGoesOn(b, x, y, z, items, vs, v, sent, waited, now, r);
    var n, ones := items[|vs|].value, Ones(items, vs, Quarantined);
    OnesGrow(items, vs, v);
    hide FirstItem, Ones, Ids, Settles, Attempts;
    SettlesNext(items, vs, v, y.settled, z.settled);
    MarkersGo(x.markers, y.markers, z.markers, ones, v, n);
    Longer(x.notices, ones, if v.Quarantined? then [n] else []);
    Longer(x.submitted, sent, if r.Some? then [n] else []);
    Longer(x.heldBack, waited, if r.None? then [n] else []);
  }

  lemma Longer(a: seq<nat>, b: seq<nat>, c: seq<nat>)
    ensures (a + b) + c == a + (b + c)
  {
  }

  lemma SettlesNext(items: seq<Option<nat>>, vs: seq<Verdict>, v: Verdict, before: set<nat>, after: set<nat>)
    requires Settles(items, vs, before) && |vs| < |items| && items[|vs|].Some?
    requires after == before + (if v.Gap? then {} else {items[|vs|].value})
    ensures Settles(items, vs + [v], after)
  {
  }

  /** The markers that have gone are those of the quarantined seqs. */
  lemma MarkersGo(m: set<Id>, m': set<Id>, m'': set<Id>, quarantined: seq<nat>, v: Verdict, n: nat)
    requires m - Ids(quarantined) <= m' && m' - (if v.Quarantined? then {Seq(n)} else {}) <= m''
    ensures m - Ids(quarantined + (if v.Quarantined? then [n] else [])) <= m''
  {
    assert v.Quarantined? ==> n in quarantined + [n] && forall x :: x in quarantined ==> x in quarantined + [n];
  }

  lemma PageCounts(b: Bounds, x: Snapshot, y: Snapshot, items: seq<Option<nat>>, vs: seq<Verdict>, sent: seq<nat>, waited: seq<nat>)
    requires PageSoFar(b, x, y, items, vs, sent, waited)
    ensures y.submitted == x.submitted + sent && y.heldBack == x.heldBack + waited && y.faults >= x.faults
    ensures x.settled <= y.settled && x.notices <= y.notices
  {
  }

  /** A page has been drained, its watermark acked or not, and its markers pruned or not. */
  lemma WindowDone(b: Bounds, log: seq<nat>, cursor: nat, cursor': nat, arrived: nat, x: Snapshot, y: Snapshot, z: Snapshot,
                   items: seq<Option<nat>>, vs: seq<Verdict>, k: nat, sent: seq<nat>, waited: seq<nat>)
    requires Ascending(log) && IsPage(log, cursor, items) && items != [] && Judges(items, vs) && CutsAtGap(vs, k)
    requires |vs| < |items| ==> items[|vs|] == None
    requires PageSoFar(b, x, y, items, vs, sent, waited)
    requires z.notices == y.notices && z.settled == y.settled && z.counters == y.counters && z.faults >= y.faults
    requires cursor' == cursor || cursor' == Watermark(items, vs, k)
    requires k == 0 ==> cursor' == cursor
    requires z.faults == y.faults ==> cursor' >= Watermark(items, vs, k)
    requires || y.markers <= z.markers
             || (y.markers - Ids(Ones(items, vs[..k], Durable)) <= z.markers && cursor' >= Watermark(items, vs, k))
    ensures PassesOnly(log, cursor, cursor', z.settled)
    ensures MarkersKept(x.markers, z.markers, cursor', x.notices, z.notices)
    ensures HeadFate(b, log, cursor, arrived, x.counters, x.backoff, z.faults == x.faults, sent, waited, |vs| < |items|,
                     cursor', z.counters)
    ensures Above(log, cursor, sent) && Above(log, cursor, waited)
  {
    var consumed := Ones(items, vs[..k], Durable);
    hide PassesOnly, MarkersKept, HeadFate, Above, PageSoFar, FirstItem, Ones, CutsAtGap, Watermark, IsPage, Ascending, Ids, Settles, Judges;
    PageMeans(b, x, y, items, vs, sent, waited);
    PagePasses(log, cursor, cursor', z.settled, items, vs, k);
    WatermarkCovers(log, cursor, items, vs, k);
    ConsumedArePassed(items, vs, k);
    PageKeepsMarkers(x.markers, y.markers, z.markers, x.notices, z.notices, consumed, cursor');
    FirstItemFaults(b, x, y, z.faults == x.faults, items, vs, sent, waited);
    PageDecidesHead(b, log, cursor, arrived, x.counters, x.backoff, z.faults == x.faults, sent, waited, cursor', z.counters,
                    items, vs, k);
  }

  lemma PageMeans(b: Bounds, x: Snapshot, y: Snapshot, items: seq<Option<nat>>, vs: seq<Verdict>, sent: seq<nat>, waited: seq<nat>)
    requires PageSoFar(b, x, y, items, vs, sent, waited)
    ensures Judges(items, vs) && Settles(items, vs, y.settled) && y.faults >= x.faults
    ensures x.markers - Ids(Ones(items, vs, Quarantined)) <= y.markers
    ensures x.notices <= y.notices && y.notices[|x.notices|..] == Ones(items, vs, Quarantined)
  {
    hide Ones, Ids, Settles, FirstItem;
  }

  lemma FirstItemFaults(b: Bounds, x: Snapshot, y: Snapshot, faultless: bool, items: seq<Option<nat>>, vs: seq<Verdict>,
                        sent: seq<nat>, waited: seq<nat>)
    requires PageSoFar(b, x, y, items, vs, sent, waited) && (faultless ==> y.faults == x.faults)
    ensures FirstItem(b, x.counters, x.backoff, faultless, y.counters, items, vs, sent, waited)
  {
  }

  class InboxCatchupService {
    const bounds: Bounds
    const pageLimit: nat
    const node: DurableNode
    const processed: ProcessedDepositLog
    var backoff: map<Id, int>

    ghost var notices: seq<nat>   // quarantine notices shown to the user
    ghost var settled: set<nat>   // submitted and found durable, or quarantined with a notice
    ghost var faults: nat         // failed `list`, `cursorAck` and attempt-counter writes
    ghost var submitted: seq<nat> // handed to the pipeline
    ghost var heldBack: seq<nat>  // not handed over, because of their backoff
    ghost var cutShort: nat       // pages ended by an item without a usable seq

    ghost function Snap(): Snapshot
      reads this, processed
    {
      Snapshot(notices, settled, processed.markers, processed.counters, backoff, faults, submitted, heldBack)
    }

    ghost predicate Valid()
      reads this, node
    {
      node.Valid() && bounds.Valid() && pageLimit > 0
    }

    constructor (bounds: Bounds, pageLimit: nat, node: DurableNode, processed: ProcessedDepositLog)
      requires node.Valid() && bounds.Valid() && pageLimit > 0
      ensures Valid() && this.node == node && this.processed == processed && this.bounds == bounds
      ensures settled == {} && notices == [] && faults == 0 && submitted == [] && heldBack == [] && cutShort == 0
    {
      this.bounds, this.pageLimit, this.node, this.processed := bounds, pageLimit, node, processed;
      backoff, notices, settled, faults := map[], [], {}, 0;
      submitted, heldBack, cutShort := [], [], 0;
    }

    /** The pipeline, between the awaits of which pushes may be processed too: it only ever adds markers. */
    method Submit(n: nat) returns (r: Result)
      modifies processed`markers, this`submitted
      ensures submitted == old(submitted) + [n]
      ensures old(processed.markers) <= processed.markers
      ensures r.already ==> Seq(n) in processed.markers
    {
      var others: set<Id> := *;
      r := *;
      submitted := submitted + [n];
      processed.markers := processed.markers + others + (if r.already then {Seq(n)} else {});
    }

    /** True when the seq is to be skipped: its recorded failures are poison, and the user has been told.  `now` is the
        clock that was read, `first` the first-failure time as far as it could be read, `counted` whether the failure
        is on record. */
    method HandleDurableFailure(n: nat) returns (skip: bool, ghost now: int, ghost first: int, ghost counted: bool)
      requires Valid()
      modifies this`backoff, this`notices, this`faults, processed
      ensures skip <==> counted && Poisoned(bounds, Attempts(old(processed.counters), Seq(n)) + 1, first, now)
      ensures counted ==> first == 0 || first == FirstSeen(Attempted(old(processed.counters), Seq(n), now), Seq(n))
      ensures faults == old(faults) + (if counted then 0 else 1)
      // what is on record afterwards: one more failure, and nothing when the seq is skipped and clearing worked
      ensures processed.counters - {Seq(n)} == old(processed.counters) - {Seq(n)}
      ensures counted && !skip ==> processed.counters == Attempted(old(processed.counters), Seq(n), now)
      ensures notices == old(notices) + (if skip then [n] else [])
      ensures old(processed.markers) - (if skip then {Seq(n)} else {}) <= processed.markers <= old(processed.markers)
      ensures backoff ==
        if skip then old(backoff) - {Seq(n)}
        else if counted && Attempts(processed.counters, Seq(n)) >= BACKOFF_AFTER_ATTEMPTS then old(backoff)[Seq(n) := now + BACKOFF_MS]
        else old(backoff)
    {
      var id := Seq(n);
      var clock: int := *;
      var io, attempts := processed.RecordAttempt(id, clock);
      now, first, counted := clock, 0, io.Done?;
      if !io.Done? {
        faults := faults + 1;
        return false, now, first, counted;
      }
      var io2, firstSeen := processed.FirstSeenAtMs(id);
      if !io2.Done? { firstSeen := 0; }
      first := firstSeen;
      if Poisoned(bounds, attempts, firstSeen, clock) {
        notices := notices + [n];
        var _ := processed.ClearAttempts(id);
        var _ := processed.Forget(id);
        backoff := backoff - {id};
        return true, now, first, counted;
      }
      if attempts >= BACKOFF_AFTER_ATTEMPTS {
        backoff := backoff[id := clock + BACKOFF_MS];
      }
      skip := false;
    }

    /** The body of the page loop for an item with a usable seq: held back, or submitted and judged by the result. */
    method DrainItem(n: nat) returns (v: Verdict, ghost now: int, ghost r: Option<Result>)
      requires Valid()
      modifies this`backoff, this`notices, this`faults, this`settled, this`submitted, this`heldBack, processed
      ensures r.None? <==> Seq(n) in old(backoff) && now < old(backoff)[Seq(n)]
      ensures submitted == old(submitted) + (if r.Some? then [n] else [])
      ensures heldBack == old(heldBack) + (if r.None? then [n] else [])
      ensures r.None? ==> v.Gap?
      ensures v.Durable? <==> r.Some? && AckSafe(r.value)
      ensures settled == old(settled) + (if v.Gap? then {} else {n})
      ensures notices == old(notices) + (if v.Quarantined? then [n] else [])
      ensures old(processed.markers) - (if v.Quarantined? then {Seq(n)} else {}) <= processed.markers
      ensures processed.counters - {Seq(n)} == old(processed.counters) - {Seq(n)}
      ensures v.Durable? || r.None? ==> processed.counters == old(processed.counters) && backoff == old(backoff)
      ensures v.Quarantined? ==> Attempts(old(processed.counters), Seq(n)) + 1 >= bounds.Floor()
      ensures faults >= old(faults)
      ensures r.Some? && v.Gap? && faults == old(faults) ==>
        Attempts(processed.counters, Seq(n)) == Attempts(old(processed.counters), Seq(n)) + 1 < bounds.maxAttempts
    {
      var clock: int := *;
      now, r := clock, None;
      if Seq(n) in backoff && clock < backoff[Seq(n)] {
        heldBack := heldBack + [n];
        return Gap, now, r;
      }
      var result := Submit(n);
      r := Some(result);
      if AckSafe(result) {
        settled := settled + {n};
        return Durable, now, r;
      }
      ghost var at, first, counted;
      var skip;
      skip, at, first, counted := HandleDurableFailure(n);
      if skip {
        settled := settled + {n};
        v := Quarantined;
      } else {
        v := Gap;
      }
    }

    /** One page, up to the end or to an item without a usable seq.  `vs` are the verdicts, `k` cuts them at the first gap. */
    method DrainPage(items: seq<Option<nat>>)
      returns (through: nat, consumed: seq<nat>, blocked: bool, ghost vs: seq<Verdict>, ghost k: nat,
               ghost sent: seq<nat>, ghost waited: seq<nat>)
      requires Valid() && IsPage(node.log, node.cursor, items)
      modifies this`backoff, this`notices, this`faults, this`settled, this`submitted, this`heldBack, this`cutShort, processed
      ensures Judges(items, vs) && (|vs| < |items| ==> items[|vs|] == None) && CutsAtGap(vs, k)
      ensures through == Watermark(items, vs, k) && consumed == Ones(items, vs[..k], Durable)
      ensures blocked <==> Gap in vs || |vs| < |items|
      ensures PageSoFar(bounds, old(Snap()), Snap(), items, vs, sent, waited)
      ensures cutShort == old(cutShort) + (if |vs| < |items| then 1 else 0)
    {
      hide Tallied, Ones, CutsAtGap, Watermark, PageSoFar, IsPage, Ascending, AckSafe, Attempts;
      through, consumed, blocked, vs, k, sent, waited := 0, [], false, [], 0, [], [];
      var contiguous := true;
      NothingTallied(items);
      PageBegins(bounds, Snap(), items);
      var i := 0;
      while i < |items|
        invariant |vs| == i <= |items| && Tallied(items, vs, k, through, consumed, contiguous, blocked)
        invariant PageSoFar(bounds, old(Snap()), Snap(), items, vs, sent, waited) && cutShort == old(cutShort)
      {
        if items[i].None? {
          blocked := true;
          cutShort := cutShort + 1;
          break;
        }
        var n := items[i].value;
        if i > 0 { ItemsDiffer(node.log, node.cursor, items, i); }
        ghost var before := Snap();
        var v;
        ghost var now, result;
        v, now, result := DrainItem(n);
        PageGoesOn(bounds, old(Snap()), before, Snap(), items, vs, v, sent, waited, now, result);
        sent, waited := sent + (if result.Some? then [n] else []), waited + (if result.None? then [n] else []);
        if v.Gap? {
          TalliedGap(items, vs, k, through, consumed, contiguous, blocked);
          blocked := true;
          contiguous := false;
        } else {
          TalliedPast(items, vs, v, k, through, consumed, contiguous, blocked);
          if contiguous {
            through, k := n, k + 1;
            if v.Durable? { consumed := consumed + [n]; }
          }
        }
        vs := vs + [v];
        i := i + 1;
      }
      TallyMeans(items, vs, k);
    }

    /** `#forgetConsumedSeqs`: their markers are dead weight once the cursor is past them. */
    method ForgetConsumed(consumed: seq<nat>)
      modifies this`backoff, processed`markers
      ensures old(processed.markers) - Ids(consumed) <= processed.markers
    {
      var i := 0;
      while i < |consumed|
        invariant 0 <= i <= |consumed|
        invariant old(processed.markers) - Ids(consumed) <= processed.markers
      {
        backoff := backoff - {Seq(consumed[i])};
        assert Seq(consumed[i]) in Ids(consumed);
        var _ := processed.Forget(Seq(consumed[i]));
        i := i + 1;
      }
    }

    /** One turn of the drain's outer loop: list, drain the page, ack its watermark, prune. */
    method DrainWindow() returns (end: Option<Ending>, ghost sent: seq<nat>, ghost waited: seq<nat>)
      requires Valid()
      modifies this`backoff, this`notices, this`faults, this`settled, this`submitted, this`heldBack, this`cutShort
      modifies processed, node`arrived, node`cursor
      ensures Valid() && node.cursor >= old(node.cursor) && faults >= old(faults) && node.arrived >= old(node.arrived)
      ensures submitted == old(submitted) + sent && heldBack == old(heldBack) + waited && cutShort >= old(cutShort)
      ensures old(settled) <= settled && old(notices) <= notices
      ensures PassesOnly(node.log, old(node.cursor), node.cursor, settled)
      ensures MarkersKept(old(processed.markers), processed.markers, node.cursor, old(notices), notices)
      ensures Above(node.log, old(node.cursor), sent) && Above(node.log, old(node.cursor), waited)
      ensures end.None? ==> Rank(node.log, node.cursor) > Rank(node.log, old(node.cursor))
      ensures end == Some(CaughtUp) ==> node.arrived <= Rank(node.log, node.cursor) && sent == []
      ensures end == Some(Faulted) ==> faults > old(faults)
      ensures HeadFate(bounds, node.log, old(node.cursor), old(node.arrived), old(processed.counters), old(backoff),
                       faults == old(faults), sent, waited, cutShort > old(cutShort), node.cursor, processed.counters)
    {
      hide PassesOnly, MarkersKept, HeadFate, Above, PageSoFar, Ones, CutsAtGap, IsPage, Acked, Ascending, Watermark, AckSafe;
      sent, waited := [], [];
      var io, items := node.List(pageLimit);
      if !io.Done? {
        faults := faults + 1;
        IdleWindow(bounds, node.log, node.cursor, old(node.arrived), processed.counters, backoff,
                   false, settled, processed.markers, notices);
        return Some(Faulted), sent, waited;
      }
      if items == [] {
        IdleWindow(bounds, node.log, node.cursor, old(node.arrived), processed.counters, backoff,
                   true, settled, processed.markers, notices);
        return Some(CaughtUp), sent, waited;
      }
      ghost var c, before := node.cursor, Snap();
      var through, consumed, blocked;
      ghost var vs, k;
      through, consumed, blocked, vs, k, sent, waited := DrainPage(items);
      ghost var mid := Snap();
      WatermarkCovers(node.log, c, items, vs, k);
      PageCounts(bounds, before, mid, items, vs, sent, waited);
      io := Done;
      if through > 0 {
        io := node.CursorAck(through);
        OneAck(c, through, io);
        if io.Done? {
          ForgetConsumed(consumed);
        } else {
          faults := faults + 1;
        }
      }
      WindowDone(bounds, node.log, c, node.cursor, old(node.arrived), before, mid, Snap(), items, vs, k, sent, waited);
      if io.Done? && !blocked {
        UnblockedPageIsWhole(node.log, c, node.cursor, items, vs, k);
      }
      if !io.Done? {
        return Some(Faulted), sent, waited;
      }
      end := if blocked then Some(Blocked) else None;
    }

    /** A whole pass.  It terminates, since every page that is not blocked moves the cursor on.  The cursor passes
        nothing but what was found durable or quarantined with a notice; above the cursor a marker goes only with a
        quarantine; and the head of the inbox is submitted once at most, which passes it or is counted. */
    method DrainDurable() returns (end: Ending, ghost sent: seq<nat>, ghost waited: seq<nat>)
      requires Valid()
      modifies this`backoff, this`notices, this`faults, this`settled, this`submitted, this`heldBack, this`cutShort
      modifies processed, node`arrived, node`cursor
      ensures Valid() && node.cursor >= old(node.cursor) && faults >= old(faults) && node.arrived >= old(node.arrived)
      ensures submitted == old(submitted) + sent && heldBack == old(heldBack) + waited && cutShort >= old(cutShort)
      ensures old(settled) <= settled && old(notices) <= notices
      ensures PassesOnly(node.log, old(node.cursor), node.cursor, settled)
      ensures MarkersKept(old(processed.markers), processed.markers, node.cursor, old(notices), notices)
      ensures end == CaughtUp ==> node.arrived <= Rank(node.log, node.cursor)
      ensures end == Faulted ==> faults > old(faults)
      ensures HeadFate(bounds, node.log, old(node.cursor), old(node.arrived), old(processed.counters), old(backoff),
                       faults == old(faults), sent, waited, cutShort > old(cutShort), node.cursor, processed.counters)
    {
      hide PassesOnly, MarkersKept, HeadFate, Above, Ascending;
      var turn;
      turn, sent, waited := DrainWindow();
      while turn.None?
        invariant Valid() && node.cursor >= old(node.cursor) && faults >= old(faults) && node.arrived >= old(node.arrived)
        invariant submitted == old(submitted) + sent && heldBack == old(heldBack) + waited && cutShort >= old(cutShort)
        invariant old(settled) <= settled && old(notices) <= notices
        invariant PassesOnly(node.log, old(node.cursor), node.cursor, settled)
        invariant MarkersKept(old(processed.markers), processed.markers, node.cursor, old(notices), notices)
        invariant HeadFate(bounds, node.log, old(node.cursor), old(node.arrived), old(processed.counters), old(backoff),
                           faults == old(faults), sent, waited, cutShort > old(cutShort), node.cursor, processed.counters)
        invariant turn.None? ==> Rank(node.log, node.cursor) > Rank(node.log, old(node.cursor))
        invariant turn == Some(CaughtUp) ==> node.arrived <= Rank(node.log, node.cursor)
        invariant turn == Some(Faulted) ==> faults > old(faults)
        decreases turn.None?, |node.log| - Rank(node.log, node.cursor)
      {
        ghost var c, s, ms, ns, cs, f, n := node.cursor, settled, processed.markers, notices, processed.counters, faults, cutShort;
        ghost var more, longer;
        turn, more, longer := DrainWindow();
        PassesOnlyChain(node.log, old(node.cursor), c, node.cursor, s, settled);
        MarkersKeptChain(old(processed.markers), ms, processed.markers, c, node.cursor, old(notices), ns, notices);
        RankIsMonotone(node.log, c, node.cursor);
        HeadStaysPassed(bounds, node.log, old(node.cursor), old(node.arrived), old(processed.counters), old(backoff),
                        f == old(faults), sent, waited, n > old(cutShort), c, cs,
                        faults == old(faults), more, longer, cutShort > old(cutShort), node.cursor, processed.counters);
        sent, waited := sent + more, waited + longer;
      }
      end := turn.value;
    }

    /** Passes go on being run, and none meets a fault.  While the head is not passed, each submission of it counts once.
        A head that is there is submitted by every pass but those cut short by an item without a usable seq or holding it
        back; so it is passed within as many other passes as the attempt cap leaves for it. */
    method DrainRepeatedly(passes: nat) returns (ghost sent: seq<nat>, ghost waited: seq<nat>)
      requires Valid() && Rank(node.log, node.cursor) < |node.log|
      modifies this`backoff, this`notices, this`faults, this`settled, this`submitted, this`heldBack, this`cutShort
      modifies processed, node`arrived, node`cursor
      ensures Valid() && node.cursor >= old(node.cursor) && faults >= old(faults)
      ensures submitted == old(submitted) + sent && heldBack == old(heldBack) + waited && cutShort >= old(cutShort)
      ensures PassesOnly(node.log, old(node.cursor), node.cursor, settled)
      ensures var head := Head(node.log, old(node.cursor));
        faults == old(faults) && node.cursor < head ==>
          && Attempts(processed.counters, Seq(head)) == Attempts(old(processed.counters), Seq(head)) + Times(sent, head)
          && Times(sent, head) < TriesLeft(bounds, old(processed.counters), head)
          && (old(node.arrived) > Rank(node.log, old(node.cursor)) ==>
                passes <= Times(sent, head) + Times(waited, head) + (cutShort - old(cutShort)))
      ensures var head := Head(node.log, old(node.cursor));
        faults == old(faults) && cutShort == old(cutShort) && head !in waited
        && old(node.arrived) > Rank(node.log, old(node.cursor))
        && passes >= TriesLeft(bounds, old(processed.counters), head) ==>
          node.cursor >= head
    {
      hide PassesOnly, MarkersKept, HeadFate;
      ghost var head, counters, start := Head(node.log, node.cursor), processed.counters, node.cursor;
      sent, waited := [], [];
      var i := 0;
      assert PassesOnly(node.log, start, start, settled) by { NothingPassed(node.log, start, settled); }
      while i < passes
        invariant Valid() && i <= passes && node.cursor >= start && faults >= old(faults) && node.arrived >= old(node.arrived)
        invariant submitted == old(submitted) + sent && heldBack == old(heldBack) + waited && cutShort >= old(cutShort)
        invariant PassesOnly(node.log, start, node.cursor, settled)
        invariant faults == old(faults) && node.cursor < head ==>
          && Attempts(processed.counters, Seq(head)) == Attempts(counters, Seq(head)) + Times(sent, head)
          && (Times(sent, head) > 0 ==> Attempts(processed.counters, Seq(head)) < bounds.maxAttempts)
          && (old(node.arrived) > Rank(node.log, start) ==>
                i <= Times(sent, head) + Times(waited, head) + (cutShort - old(cutShort)))
      {
        ghost var f, c, cs, held, s, there, n := faults, node.cursor, processed.counters, backoff, settled, node.arrived, cutShort;
        ghost var more, longer;
        var end;
        end, more, longer := DrainDurable();
        PassesOnlyChain(node.log, start, c, node.cursor, s, settled);
        if faults == f && c < head {
          SameHead(node.log, start, c);
          HeadFateMeans(bounds, node.log, c, there, cs, held, more, longer, cutShort > n, node.cursor, processed.counters);
        }
        TimesAddUp(sent, more, head);
        TimesAddUp(waited, longer, head);
        sent, waited := sent + more, waited + longer;
        i := i + 1;
      }
    }
  }

  /** The first entry above the cursor. */
  function Head(log: seq<nat>, cursor: nat): nat
    requires Rank(log, cursor) < |log|
  {
    log[Rank(log, cursor)]
  }

  /** How often the head can still be submitted before it is poison by count. */
  function TriesLeft(b: Bounds, counters: Counters, head: nat): nat {
    if Attempts(counters, Seq(head)) < b.maxAttempts then b.maxAttempts - Attempts(counters, Seq(head)) else 1
  }

  lemma NothingPassed(log: seq<nat>, cursor: nat, settled: set<nat>)
    ensures PassesOnly(log, cursor, cursor, settled)
  {
  }

  /** A cursor that has not passed the head still has it in front. */
  lemma SameHead(log: seq<nat>, from: nat, cursor: nat)
    requires Ascending(log) && Rank(log, from) < |log| && from <= cursor < Head(log, from)
    ensures Rank(log, cursor) == Rank(log, from)
  {
    RankGrows(log, from, cursor);
  }

  /** What a pass without a fault means for the head in front of it. */
  lemma HeadFateMeans(b: Bounds, log: seq<nat>, cursor: nat, arrived: nat, counters: Counters, held: map<Id, int>,
                      sent: seq<nat>, waited: seq<nat>, cut: bool, cursor': nat, counters': Counters)
    requires Rank(log, cursor) < |log|
    requires HeadFate(b, log, cursor, arrived, counters, held, true, sent, waited, cut, cursor', counters')
    ensures var head := Head(log, cursor);
      cursor' < head ==>
        && Attempts(counters', Seq(head)) == Attempts(counters, Seq(head)) + Times(sent, head)
        && (Times(sent, head) > 0 ==> Attempts(counters', Seq(head)) < b.maxAttempts)
        && (Rank(log, cursor) < arrived <= |log| ==> Times(sent, head) + Times(waited, head) > 0 || cut)
  {
  }

  lemma TimesAddUp(xs: seq<nat>, ys: seq<nat>, n: nat)
    ensures Times(xs + ys, n) == Times(xs, n) + Times(ys, n)
  {
  }
}
