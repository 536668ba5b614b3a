/** The activation journal under concurrency: its calls suspend at the storage call between computing what to write and
    remembering it, and nothing keeps two of them apart. */
module ActivationJournalRuns {
  import opened DepositTypes
  import opened ActivationJournal

  /** A journal call suspended at its storage call: a write, or a hydration that has read `rec`. */
  datatype Op = Op(rec: Option<Record>, read: bool, landed: bool)

  datatype Live = Live(memory: Option<Record>, hydrated: bool, disk: Raw, ops: seq<Op>)

  datatype Act =
    | Die                   // the process is killed
    | Begin(c: Call)        // a call, up to its storage call
    | Land(i: nat)          // the write reaches the disk
    | Return(i: nat)        // the storage call has returned: remember
    | Lose(i: nat)          // it throws, nothing written; or the read throws
    | Tear(i: nat)          // it throws although the write is on the disk

  function Remembered(j: Live): Journal {
    Journal(j.memory, j.hydrated, j.disk)
  }

  function Without(ops: seq<Op>, i: nat): seq<Op>
    requires i < |ops|
  {
    ops[..i] + ops[i + 1..]
  }

  /** The storage operation a call starts, if any. */
  function Started(j: Live, c: Call): Option<Op> {
    if c.Hydrate? then (if j.hydrated then None else Some(Op(Normalize(j.disk), true, true)))
    else
      var w := Wanted(Remembered(j), c);
      if w.None? then None else Some(Op(w, false, false))
  }

  function Step(j: Live, a: Act): Live {
    match a
    case Die => Live(None, false, j.disk, [])
    case Begin(c) =>
      if c.Restart? || Started(j, c).None? then j else j.(ops := j.ops + [Started(j, c).value])
    case Land(i) =>
      if i < |j.ops| && !j.ops[i].landed && j.ops[i].rec.Some? then
        j.(disk := Serialized(j.ops[i].rec.value), ops := j.ops[i := j.ops[i].(landed := true)])
      else j
    case Return(i) =>
      if i < |j.ops| && j.ops[i].landed then j.(memory := j.ops[i].rec, hydrated := true, ops := Without(j.ops, i)) else j
    case Lose(i) => if i < |j.ops| && (j.ops[i].read || !j.ops[i].landed) then j.(ops := Without(j.ops, i)) else j
    case Tear(i) => if i < |j.ops| && j.ops[i].landed && !j.ops[i].read then j.(ops := Without(j.ops, i)) else j
  }

  function Run(j: Live, acts: seq<Act>): Live
    decreases |acts|
  {
    if acts == [] then j else Run(Step(j, acts[0]), acts[1..])
  }

  /** A process over any disk. */
  function Booting(disk: Raw): Live {
    Live(None, false, disk, [])
  }

  /** What matters about a record: its phase, and which activation it is about. */
  datatype Kind = Nothing | About(phase: Phase, activationId: string)

  function KindOf(r: Option<Record>): Kind {
    if r.None? then Nothing else About(r.value.phase, r.value.activationId)
  }

  function Height(k: Kind): nat {
    if k.Nothing? then 0 else match k.phase case Bootstrapping => 1 case Ready => 2 case Active => 3
  }

  function OnDisk(j: Live): Kind {
    KindOf(Normalize(j.disk))
  }

  /** A write begins while another journal call, of another kind, is in flight. */
  predicate Conflict(j: Live, a: Act) {
    && a.Begin? && !a.c.Restart? && Started(j, a.c).Some?
    && exists i :: 0 <= i < |j.ops| && KindOf(j.ops[i].rec) != KindOf(Started(j, a.c).value.rec)
  }

  // ---- The invariants ----

  /** All calls in flight write, or have read, one kind. */
  ghost predicate OneKind(j: Live) {
    forall i, k :: 0 <= i < |j.ops| && 0 <= k < |j.ops| ==> KindOf(j.ops[i].rec) == KindOf(j.ops[k].rec)
  }

  /** Memory is never ahead of the disk, nor of what is being written; a write that has landed is what the disk says. */
  ghost predicate NotAhead(j: Live) {
    && OneKind(j)
    && (!j.hydrated ==> j.memory.None? && forall i :: 0 <= i < |j.ops| ==> j.ops[i].read)
    && Height(KindOf(j.memory)) <= Height(OnDisk(j))
    && (j.memory.Some? ==> OnDisk(j).activationId == j.memory.value.activationId)
    && (forall i :: 0 <= i < |j.ops| ==>
          && (j.ops[i].read ==> j.ops[i].landed)
          && (!j.ops[i].read ==> j.ops[i].rec.Some?)
          && (j.ops[i].landed ==> OnDisk(j) == KindOf(j.ops[i].rec))
          && Height(KindOf(j.memory)) <= Height(KindOf(j.ops[i].rec))
          && (j.memory.Some? ==> KindOf(j.ops[i].rec).activationId == j.memory.value.activationId))
  }

  /** Without torn writes more is true: the disk says what memory says, or what is being written. */
  ghost predicate InStep(j: Live) {
    && NotAhead(j)
    && (j.hydrated && OnDisk(j) != KindOf(j.memory) ==> exists i :: 0 <= i < |j.ops| && j.ops[i].landed && !j.ops[i].read)
    && (forall i :: 0 <= i < |j.ops| ==> Height(OnDisk(j)) <= Height(KindOf(j.ops[i].rec)))
    && (OnDisk(j).About? ==> forall i :: 0 <= i < |j.ops| ==>
          KindOf(j.ops[i].rec) == About(KindOf(j.ops[i].rec).phase, OnDisk(j).activationId))
  }

  lemma DiskIsWritten(r: Record)
    ensures KindOf(Normalize(Serialized(r))) == KindOf(Some(r))
  {
    RehydrationIsFaithful(r, Absent);
  }

  lemma WithoutElements(ops: seq<Op>, i: nat)
    requires i < |ops|
    ensures forall k :: 0 <= k < |Without(ops, i)| ==> Without(ops, i)[k] == ops[if k < i then k else k + 1]
  {
  }

  /** What a call starts goes further than memory, and stays with its activation. */
  lemma StartedGoesFurther(j: Live, c: Call)
    requires NotAhead(j) && !c.Restart? && Started(j, c).Some?
    ensures var op := Started(j, c).value;
      && (op.read <==> !j.hydrated) && (op.read ==> op.landed && KindOf(op.rec) == OnDisk(j))
      && (!op.read ==> op.rec.Some? && !op.landed && Height(KindOf(op.rec)) > Height(KindOf(j.memory)))
      && (j.memory.Some? ==> KindOf(op.rec).activationId == j.memory.value.activationId)
  {
  }

  lemma BeginNotAhead(j: Live, c: Call)
    requires NotAhead(j) && !Conflict(j, Begin(c))
    ensures NotAhead(Step(j, Begin(c)))
  {
    if !c.Restart? && Started(j, c).Some? {
      StartedGoesFurther(j, c);
      hide Started, Normalize;
    }
  }

  lemma LandNotAhead(j: Live, i: nat)
    requires NotAhead(j)
    ensures NotAhead(Step(j, Land(i)))
  {
    if i < |j.ops| && !j.ops[i].landed && j.ops[i].rec.Some? {
      DiskIsWritten(j.ops[i].rec.value);
      hide Normalize, Serialized;
    }
  }

  lemma GoneNotAhead(j: Live, a: Act)
    requires NotAhead(j) && (a.Return? || a.Lose? || a.Tear?)
    ensures NotAhead(Step(j, a))
  {
    hide Normalize;
    if a.i < |j.ops| { WithoutElements(j.ops, a.i); }
  }

  /** One event keeps memory from getting ahead, torn writes and kills included, unless it is a conflicting call. */
  lemma StepNotAhead(j: Live, a: Act)
    requires NotAhead(j) && !Conflict(j, a)
    ensures NotAhead(Step(j, a))
  {
    match a
    case Die =>
    case Begin(c) => BeginNotAhead(j, c);
    case Land(i) => LandNotAhead(j, i);
    case _ => GoneNotAhead(j, a);
  }

  /** What is remembered never falls back while the process lives. */
  lemma MemoryGrows(j: Live, a: Act)
    requires NotAhead(j) && !a.Die?
    ensures Height(KindOf(Step(j, a).memory)) >= Height(KindOf(j.memory))
  {
    hide Normalize, Started;
  }

  /** A record of ACTIVE in memory, on disk or in flight. */
  ghost predicate HasActive(j: Live) {
    Height(KindOf(j.memory)) == 3 || Height(OnDisk(j)) == 3 || exists i :: 0 <= i < |j.ops| && Height(KindOf(j.ops[i].rec)) == 3
  }

  /** ACTIVE comes from `markActive` alone. */
  lemma ActiveIsMarked(j: Live, a: Act)
    requires HasActive(Step(j, a)) && !(a.Begin? && a.c.MarkActive?)
    ensures HasActive(j)
  {
    var j' := Step(j, a);
    match a
    case Die =>
    case Begin(c) => if j' != j { assert forall i :: 0 <= i < |j.ops| ==> j'.ops[i] == j.ops[i]; }
    case Land(i) =>
      if j' != j {
        DiskIsWritten(j.ops[i].rec.value);
        hide Normalize, Serialized;
        assert KindOf(j.ops[i].rec) == KindOf(j'.ops[i].rec);
      }
    case _ =>
      hide Normalize;
      if a.i < |j.ops| { WithoutElements(j.ops, a.i); }
  }

  /** The disk has moved on or stayed, and is still about the same activation. */
  ghost predicate Onwards(j: Live, j': Live) {
    && Height(OnDisk(j)) <= Height(OnDisk(j'))
    && (OnDisk(j).About? ==> OnDisk(j').About? && OnDisk(j').activationId == OnDisk(j).activationId)
  }

  lemma BeginInStep(j: Live, c: Call)
    requires InStep(j)
    ensures InStep(Step(j, Begin(c))) <==> !Conflict(j, Begin(c))
    ensures Onwards(j, Step(j, Begin(c)))
  {
    var j' := Step(j, Begin(c));
    if Conflict(j, Begin(c)) {
      var i :| 0 <= i < |j.ops| && KindOf(j.ops[i].rec) != KindOf(Started(j, c).value.rec);
      assert j'.ops[i] == j.ops[i] && j'.ops[|j.ops|] == Started(j, c).value;
      assert !OneKind(j');
    } else if !c.Restart? && Started(j, c).Some? {
      BeginNotAhead(j, c);
      StartedGoesFurther(j, c);
      hide Started, Normalize, Conflict;
      assert forall i :: 0 <= i < |j.ops| ==> j'.ops[i] == j.ops[i];
    }
  }

  lemma LandInStep(j: Live, i: nat)
    requires InStep(j)
    ensures InStep(Step(j, Land(i))) && Onwards(j, Step(j, Land(i)))
  {
    LandNotAhead(j, i);
    if i < |j.ops| && !j.ops[i].landed && j.ops[i].rec.Some? {
      DiskIsWritten(j.ops[i].rec.value);
      hide Normalize, Serialized;
      assert Step(j, Land(i)).ops[i].landed;
    }
  }

  lemma GoneInStep(j: Live, a: Act)
    requires InStep(j) && (a.Return? || a.Lose?)
    ensures InStep(Step(j, a)) && Onwards(j, Step(j, a))
  {
    GoneNotAhead(j, a);
    hide Normalize;
    var j' := Step(j, a);
    if a.i < |j.ops| && j' != j {
      WithoutElements(j.ops, a.i);
      if j'.hydrated && OnDisk(j') != KindOf(j'.memory) {
        var k :| 0 <= k < |j.ops| && j.ops[k].landed && !j.ops[k].read;
        assert k != a.i;
        assert j'.ops[if k < a.i then k else k - 1] == j.ops[k];
      }
    }
  }

  lemma StepInStep(j: Live, a: Act)
    requires InStep(j) && !a.Tear?
    ensures InStep(Step(j, a)) <==> !Conflict(j, a)
    ensures Onwards(j, Step(j, a))
  {
    match a
    case Die =>
    case Begin(c) => BeginInStep(j, c);
    case Land(i) => LandInStep(j, i);
    case _ => GoneInStep(j, a);
  }

  // ---- Whole histories ----

  /** No call conflicts with one in flight. */
  ghost predicate Apart(j: Live, acts: seq<Act>)
    decreases |acts|
  {
    acts == [] || (!Conflict(j, acts[0]) && Apart(Step(j, acts[0]), acts[1..]))
  }

  ghost predicate Untorn(acts: seq<Act>) {
    forall i :: 0 <= i < |acts| ==> !acts[i].Tear?
  }

  lemma {:induction false} RunInStep(j: Live, acts: seq<Act>)
    requires InStep(j) && Apart(j, acts) && Untorn(acts)
    ensures InStep(Run(j, acts)) && Onwards(j, Run(j, acts))
    decreases |acts|
  {
    hide InStep, Step, Conflict;
    if acts != [] {
      assert forall i :: 0 <= i < |acts[1..]| ==> acts[1..][i] == acts[i + 1];
      StepInStep(j, acts[0]);
      RunInStep(Step(j, acts[0]), acts[1..]);
    }
  }

  /** Nothing is in flight, and memory and disk differ. */
  ghost predicate OutOfStep(j: Live) {
    j.hydrated && j.ops == [] && OnDisk(j) != KindOf(j.memory)
  }

  /** Over any interleaving of calls, completions and kills in which no write is torn and no call begins while one of
      another kind is in flight: the disk only moves BOOTSTRAPPING, READY, ACTIVE, for one activation, and whenever
      nothing is in flight memory says what the disk says. */
  lemma ActivationRunsForward(disk: Raw, acts: seq<Act>, more: seq<Act>)
    requires Apart(Booting(disk), acts + more) && Untorn(acts + more)
    ensures var j, j' := Run(Booting(disk), acts), Run(Booting(disk), acts + more);
      Onwards(j, j') && !OutOfStep(j')
  {
    RunConcat(Booting(disk), acts, more);
    assert forall i :: 0 <= i < |acts| ==> acts[i] == (acts + more)[i];
    assert forall i :: 0 <= i < |more| ==> more[i] == (acts + more)[|acts| + i];
    RunInStep(Booting(disk), acts);
    RunInStep(Run(Booting(disk), acts), more);
  }

  lemma {:induction false} RunConcat(j: Live, xs: seq<Act>, ys: seq<Act>)
    ensures Run(j, xs + ys) == Run(Run(j, xs), ys)
    ensures Apart(j, xs + ys) ==> Apart(j, xs) && Apart(Run(j, xs), ys)
    decreases |xs|
  {
    hide Step, Conflict;
    if xs == [] {
      assert xs + ys == ys;
    } else {
      assert (xs + ys)[1..] == xs[1..] + ys;
      RunConcat(Step(j, xs[0]), xs[1..], ys);
    }
  }

  /** With torn writes too, as long as no call conflicts, memory is never ahead of the disk. */
  lemma {:induction false} MemoryIsNeverAhead(j: Live, acts: seq<Act>)
    requires NotAhead(j) && Apart(j, acts)
    ensures NotAhead(Run(j, acts)) && Height(KindOf(Run(j, acts).memory)) <= Height(OnDisk(Run(j, acts)))
    decreases |acts|
  {
    if acts != [] {
      hide NotAhead, Step, Conflict;
      StepNotAhead(j, acts[0]);
      MemoryIsNeverAhead(Step(j, acts[0]), acts[1..]);
    }
  }

  // ---- Exactly: what a conflicting call can do ----

  /** Nothing but the completion of what is in flight. */
  predicate Completing(acts: seq<Act>) {
    forall i :: 0 <= i < |acts| ==> acts[i].Land? || acts[i].Return? || acts[i].Lose?
  }

  function LandFrom(i: nat, n: nat): (acts: seq<Act>)
    requires i <= n
    ensures Completing(acts)
    decreases n - i
  {
    if i == n then [] else [Land(i)] + LandFrom(i + 1, n)
  }

  function ReturnDown(n: nat): (acts: seq<Act>)
    ensures Completing(acts)
  {
    if n == 0 then [] else [Return(n - 1)] + ReturnDown(n - 1)
  }

  lemma {:induction false} AllLand(j: Live, i: nat)
    requires i < |j.ops| && !j.ops[|j.ops| - 1].landed && j.ops[|j.ops| - 1].rec.Some?
    requires forall k :: 0 <= k < |j.ops| ==> j.ops[k].landed || (i <= k && j.ops[k].rec.Some?)
    ensures var j' := Run(j, LandFrom(i, |j.ops|));
      && |j'.ops| == |j.ops| && j'.disk == Serialized(j.ops[|j.ops| - 1].rec.value)
      && (forall k :: 0 <= k < |j.ops| ==> j'.ops[k] == j.ops[k].(landed := true))
    decreases |j.ops| - i
  {
    var s := Step(j, Land(i));
    var n := |j.ops|;
    assert LandFrom(i, n)[0] == Land(i) && LandFrom(i, n)[1..] == LandFrom(i + 1, n);
    if i + 1 < n {
      AllLand(s, i + 1);
    } else {
      assert LandFrom(n, n) == [] && Run(s, []) == s;
    }
  }

  lemma {:induction false} AllReturn(j: Live)
    requires j.ops != [] && forall k :: 0 <= k < |j.ops| ==> j.ops[k].landed
    ensures var j' := Run(j, ReturnDown(|j.ops|));
      j'.ops == [] && j'.disk == j.disk && j'.memory == j.ops[0].rec && j'.hydrated
    decreases |j.ops|
  {
    var n := |j.ops|;
    var s := Step(j, Return(n - 1));
    assert ReturnDown(n)[0] == Return(n - 1) && ReturnDown(n)[1..] == ReturnDown(n - 1);
    assert s.ops == j.ops[..n - 1];
    if n > 1 {
      AllReturn(s);
    } else {
      assert ReturnDown(0) == [] && Run(s, []) == s;
    }
  }

  lemma ConflictCanBreak(j: Live, c: Call) returns (finish: seq<Act>)
    requires InStep(j) && Conflict(j, Begin(c))
    ensures Completing(finish) && OutOfStep(Run(Step(j, Begin(c)), finish))
  {
    var s := Step(j, Begin(c));
    var n := |s.ops|;
    StartedGoesFurther(j, c);
    assert forall k :: 0 <= k < n - 1 ==> s.ops[k] == j.ops[k];
    var i :| 0 <= i < |j.ops| && KindOf(j.ops[i].rec) != KindOf(Started(j, c).value.rec);
    AllLand(s, 0);
    var t := Run(s, LandFrom(0, n));
    AllReturn(t);
    finish := LandFrom(0, n) + ReturnDown(n);
    RunConcat(s, LandFrom(0, n), ReturnDown(n));
    DiskIsWritten(s.ops[n - 1].rec.value);
    assert KindOf(j.ops[0].rec) == KindOf(j.ops[i].rec);
  }

  /** From a journal in step, a call can leave memory and disk apart, by nothing but completions, if and only if one of
      another kind is in flight when it begins. */
  lemma OverlapBreaksExactly(j: Live, c: Call)
    requires InStep(j)
    ensures (exists finish :: Completing(finish) && OutOfStep(Run(Step(j, Begin(c)), finish))) <==> Conflict(j, Begin(c))
  {
    if Conflict(j, Begin(c)) {
      var finish := ConflictCanBreak(j, c);
    } else {
      BeginInStep(j, c);
      forall finish | Completing(finish) ensures !OutOfStep(Run(Step(j, Begin(c)), finish)) {
        CompletionsStayApart(Step(j, Begin(c)), finish);
        RunInStep(Step(j, Begin(c)), finish);
      }
    }
  }

  lemma {:induction false} CompletionsStayApart(j: Live, acts: seq<Act>)
    requires Completing(acts)
    ensures Apart(j, acts) && Untorn(acts)
    decreases |acts|
  {
    if acts != [] {
      assert forall i :: 0 <= i < |acts[1..]| ==> acts[1..][i] == acts[i + 1];
      CompletionsStayApart(Step(j, acts[0]), acts[1..]);
    }
  }

  // ---- A call that is not interrupted is the journal's method ----

  /** How a lone call ends, by the outcome of its storage call. */
  function Ending(read: bool, io: Io): seq<Act> {
    match io
    case Done => if read then [Return(0)] else [Land(0), Return(0)]
    case Lost => [Lose(0)]
    case Landed => if read then [Lose(0)] else [Land(0), Tear(0)]
  }

  lemma UninterruptedCallIsTheMethod(j: Live, c: Call, io: Io)
    requires j.ops == [] && !c.Restart?
    ensures var s := Step(j, Begin(c));
      var j' := if s.ops == [] then s else Run(s, Ending(s.ops[0].read, io));
      j'.ops == [] && Remembered(j') == After(Remembered(j), c, io)
  {
    var s := Step(j, Begin(c));
    if s.ops != [] {
      assert [Land(0), Return(0)][1..] == [Return(0)] && [Land(0), Tear(0)][1..] == [Tear(0)];
      assert [Return(0)][1..] == [] && [Lose(0)][1..] == [] && [Tear(0)][1..] == [];
      var e := Ending(s.ops[0].read, io);
      assert Run(Step(s, e[0]), e[1..]) == Run(s, e);
      if |e| == 2 {
        var t := Step(s, e[0]);
        assert Run(t, e[1..]) == Run(Step(t, e[1]), []);
      }
    }
  }

  // ---- The overlap that turns the disk back ----

  /** A sync sees the device in the home's set while the baseline marker arrives: both calls see BOOTSTRAPPING, ACTIVE
      lands, READY lands over it, and the first to return says ACTIVE. */
  lemma OverlapTurnsTheDiskBack(id: string)
    requires id != ""
    ensures var j := Live(Some(Record(id, Bootstrapping, 1, "", 0)), true, Serialized(Record(id, Bootstrapping, 1, "", 0)), []);
      var acts := [Begin(MarkActive(2)), Begin(MarkReady("", 0)), Land(0), Land(1), Return(0)];
      && InStep(j) && Untorn(acts) && Height(OnDisk(Run(j, acts[..3]))) == 3
      && Height(OnDisk(Run(j, acts))) == 2 && Height(KindOf(Run(j, acts).memory)) == 3
  {
    var r1 := Record(id, Bootstrapping, 1, "", 0);
    var a, r := Record(id, Active, 1, "", 0), Record(id, Ready, 1, "", 0);
    var j := Live(Some(r1), true, Serialized(r1), []);
    DiskIsWritten(r1);
    DiskIsWritten(a);
    DiskIsWritten(r);
    var acts := [Begin(MarkActive(2)), Begin(MarkReady("", 0)), Land(0), Land(1), Return(0)];
    var j2 := j.(ops := [Op(Some(a), false, false), Op(Some(r), false, false)]);
    assert Step(Step(j, acts[0]), acts[1]) == j2;
    var j3 := j2.(disk := Serialized(a), ops := [Op(Some(a), false, true), Op(Some(r), false, false)]);
    var j4 := j3.(disk := Serialized(r), ops := [Op(Some(a), false, true), Op(Some(r), false, true)]);
    assert Step(j2, acts[2]) == j3 && Step(j3, acts[3]) == j4;
    hide Step, Normalize;
    Unroll(j, acts[0], acts[1], acts[2..3]);
    assert acts[..3] == [acts[0], acts[1]] + acts[2..3] && acts[2..3] == [acts[2]] + [];
    assert Run(j2, acts[2..3]) == Run(j3, []) by { assert acts[2..3][1..] == []; }
    assert acts == [acts[0], acts[1]] + [acts[2], acts[3], acts[4]];
    Unroll(j, acts[0], acts[1], [acts[2], acts[3], acts[4]]);
    assert [acts[2], acts[3], acts[4]] == [acts[2], acts[3]] + [acts[4]];
    Unroll(j2, acts[2], acts[3], [acts[4]]);
    assert Run(j4, [acts[4]]) == Run(Step(j4, acts[4]), []) by { assert [acts[4]][1..] == []; }
    LastReturn(j4, a);
  }

  lemma Unroll(j: Live, a: Act, b: Act, rest: seq<Act>)
    ensures Run(j, [a, b] + rest) == Run(Step(Step(j, a), b), rest)
  {
    hide Step;
    assert ([a, b] + rest)[1..] == [b] + rest && ([b] + rest)[1..] == rest;
  }

  lemma LastReturn(j: Live, a: Record)
    requires j.ops != [] && j.ops[0] == Op(Some(a), false, true)
    ensures Step(j, Return(0)).memory == Some(a) && Step(j, Return(0)).disk == j.disk
  {
  }
}
