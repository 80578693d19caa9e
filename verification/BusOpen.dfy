// Opening a connection, clock by clock: two reset symbols at an arbitrary distance, for a core
// in whatever state the last connection left it.
module BusOpen {
  import opened Escaping
  import opened BusMaster
  import opened BusCore
  import opened BusRefinement
  import opened BusRuns
  import opened BusCalls

  // The second symbol comes at the last edge but one: at the last one the core is reset.
  predicate OnlySecond(ins: seq<In>) {
    && |ins| >= 2
    && forall k :: 0 <= k < |ins| ==> ins[k].offered == (k == |ins| - 2) && (ins[k].offered ==> ins[k].b == RESET)
  }

  // The first symbol comes at the first edge.
  predicate Reopens(ins: seq<In>) {
    |ins| >= 3 && ins[0].offered && ins[0].b == RESET && OnlySecond(ins[1..])
  }

  predicate OnlyResets(ins: seq<In>) { forall k :: 0 <= k < |ins| && ins[k].offered ==> ins[k].b == RESET }

  // ---- Core and master stay in step ----

  // Between the first symbol and the reset by the second one.
  predicate Opening(cfg: Config, r: Run) {
    && Tracks(cfg, r) && !r.x.stage.escaping
    && (r.x.stage.valid ==> Fresh(cfg, r.x.sys.c) && r.x.stage.data == RESET)
  }

  // The far side as the host could see it.
  function FarOf(cfg: Config, r: Run): Far { Far(r.x.stage.escaping, Ahead(cfg, r.m, r.x.stage), 0) }

  lemma FirstTaken(cfg: Config, r: Run, i: In)
    requires InStep(cfg, r) && i.offered && i.b == RESET
    ensures Opening(cfg, Go(cfg, r, i))
  {
    var p := PinsOf(r.x.stage, i);
    GoTracks(cfg, r, i);
    if p.valid {
      DrainedIsFree(cfg, r.x.sys, r.m);
    }
    FreshStep(cfg, r.x.sys, r.m, p);
  }

  lemma OpeningStep(cfg: Config, r: Run, i: In)
    requires Opening(cfg, r) && (i.offered ==> i.b == RESET)
    ensures Opening(cfg, Go(cfg, r, i)) && !Go(cfg, r, i).x.stage.valid
  {
    GoTracks(cfg, r, i);
  }

  // ---- After the reset ----

  predicate Clean(cfg: Config, r: Run) {
    && Tracks(cfg, r) && InFlight(cfg, r.x.sys) == [] && r.m == ResetMaster(cfg, r.m)
    && !r.x.stage.valid && !r.x.stage.escaping
  }

  lemma ResetIsClean(cfg: Config, r: Run, i: In)
    requires Opening(cfg, r) && (i.offered ==> i.b == RESET) && Resets(cfg, r.x.stage, i)
    ensures Clean(cfg, Go(cfg, r, i))
  {
    OpeningStep(cfg, r, i);
    var s, p := r.x.sys, PinsOf(r.x.stage, i);
    ResetInStep(cfg, SysStep(cfg, s, p), MasterStep(cfg, r.m, s, p));
  }

  lemma CleanStep(cfg: Config, r: Run, i: In)
    requires Clean(cfg, r) && (i.offered ==> i.b == RESET)
    ensures var n := Go(cfg, r, i);
            Clean(cfg, n) && n.m == r.m && n.out == r.out && n.trace == r.trace
  {
    GoTracks(cfg, r, i);
    var n := Go(cfg, r, i);
    assert Delivered(r.x.sys.c.t, PinsOf(r.x.stage, i)) == [];
    assert n.out == r.out && r.out + [] == r.out;
  }

  lemma {:induction false} CleanRun(cfg: Config, r: Run, ins: seq<In>)
    requires Clean(cfg, r) && OnlyResets(ins)
    ensures var n := RunAll(cfg, r, ins);
            Clean(cfg, n) && n.m == r.m && n.out == r.out && n.trace == r.trace
    decreases |ins|
  {
    if |ins| == 0 {
    } else {
      CleanStep(cfg, r, ins[0]);
      CleanRun(cfg, Go(cfg, r, ins[0]), ins[1..]);
    }
  }

  // ---- The core is reset and in step ----

  lemma SecondTaken(cfg: Config, r: Run, i: In, last: In)
    requires Opening(cfg, r) && i.offered && i.b == RESET && !last.offered
    ensures var n := Go(cfg, Go(cfg, r, i), last);
            Clean(cfg, n) && InStep(cfg, n)
  {
    OpeningStep(cfg, r, i);
    ResetIsClean(cfg, Go(cfg, r, i), last);
  }

  lemma {:induction false} OpeningRun(cfg: Config, r: Run, ins: seq<In>)
    requires Opening(cfg, r) && OnlySecond(ins)
    ensures InStep(cfg, RunAll(cfg, r, ins)) && Clean(cfg, RunAll(cfg, r, ins))
    decreases |ins|
  {
    if |ins| == 2 {
      SecondTaken(cfg, r, ins[0], ins[1]);
      RunTwo(cfg, r, ins[0], ins[1]);
      assert ins == [ins[0], ins[1]];
    } else {
      OpeningStep(cfg, r, ins[0]);
      OpeningRun(cfg, Go(cfg, r, ins[0]), ins[1..]);
    }
  }

  lemma RunFirst(cfg: Config, r: Run, i: In, rest: seq<In>)
    requires Formed(cfg, r.x.sys.c)
    ensures RunAll(cfg, r, [i] + rest) == RunAll(cfg, Go(cfg, r, i), rest)
  {
    assert ([i] + rest)[1..] == rest;
  }

  lemma RunTwo(cfg: Config, r: Run, i: In, last: In)
    requires Formed(cfg, r.x.sys.c)
    ensures RunAll(cfg, r, [i, last]) == Go(cfg, Go(cfg, r, i), last)
  {
    RunFirst(cfg, r, i, [last]);
    RunFirst(cfg, Go(cfg, r, i), last, []);
    assert [i] + [last] == [i, last] && [last] + [] == [last];
  }

  // ---- What the bus has seen and what has been handed over ----

  // A byte that the core will lose means nothing to an idle core.
  predicate Harmless(r: Run) { r.x.stage.valid ==> r.x.stage.data == RESET || !Busy(r.x.sys.c.f) }

  lemma NextMaster(cfg: Config, r: Run, i: In)
    requires Tracks(cfg, r) && Harmless(r)
    ensures var s, p, a := r.x.sys, PinsOf(r.x.stage, i), Ahead(cfg, r.m, r.x.stage);
            MasterStep(cfg, r.m, s, p) == if r.m.phase.Waiting? && Answers(s.w, p) then Answered(cfg, a, Response(p.rty || p.err, p.dat)) else a
    ensures Answers(r.x.sys.w, PinsOf(r.x.stage, i)) ==> r.m.phase.Waiting?
  {
    if r.x.sys.w.cycstb {
      CycleIsAsked(cfg, r.x.sys, r.m);
    }
  }

  // a after the answer of the bus, when there has been one.
  function Later(cfg: Config, a: Master, answered: bool, slave: nat -> Response): Master {
    if answered && a.phase.Waiting? then Answered(cfg, a, slave(|a.done|)) else a
  }

  // The master was a and the bus has answered at most once since then.
  predicate Since(cfg: Config, a: Master, m: Master, trace: seq<Access>, slave: nat -> Response) {
    && |a.done| <= |trace| <= |a.done| + 1
    && (|trace| > |a.done| ==> a.phase.Waiting?)
    && m == Later(cfg, a, |trace| > |a.done|, slave)
  }

  lemma SinceStep(cfg: Config, a: Master, r: Run, i: In, slave: nat -> Response)
    requires Tracks(cfg, r) && Harmless(r) && Since(cfg, a, Ahead(cfg, r.m, r.x.stage), r.trace, slave)
    requires Agrees(slave, Go(cfg, r, i).trace, |r.trace|)
    ensures Since(cfg, a, MasterStep(cfg, r.m, r.x.sys, PinsOf(r.x.stage, i)), Go(cfg, r, i).trace, slave)
  {
    NextMaster(cfg, r, i);
  }

  predicate WillReset(r: Run, ins: seq<In>) { OnlyResets(ins) && (OnlySecond(ins) || (r.x.stage.reset && |ins| > 0)) }

  // The outcome of an opening that started from a.
  predicate ResetAfter(cfg: Config, a: Master, r: Run, n: Run, slave: nat -> Response) {
    var e := Later(cfg, a, |n.trace| > |a.done|, slave);
    && |a.done| <= |n.trace| && r.out <= n.out && n.out <= e.answers
    && n.m == ResetMaster(cfg, e).(answers := n.out)
  }

  lemma ResetEdge(cfg: Config, a: Master, r: Run, i: In, rest: seq<In>, slave: nat -> Response)
    requires Tracks(cfg, r) && Since(cfg, a, MasterStep(cfg, r.m, r.x.sys, PinsOf(r.x.stage, i)), Go(cfg, r, i).trace, slave)
    requires Tolerated(cfg, r.x.sys.c, PinsOf(r.x.stage, i)) && Resets(cfg, r.x.stage, i)
    requires Clean(cfg, Go(cfg, r, i)) && OnlyResets(rest)
    ensures ResetAfter(cfg, a, r, RunAll(cfg, Go(cfg, r, i), rest), slave)
  {
    CleanRun(cfg, Go(cfg, r, i), rest);
    HandedOverIsOwed(cfg, r, i);
  }

  lemma HandedOverIsOwed(cfg: Config, r: Run, i: In)
    requires Tracks(cfg, r) && Tolerated(cfg, r.x.sys.c, PinsOf(r.x.stage, i))
    ensures r.out <= Go(cfg, r, i).out <= MasterStep(cfg, r.m, r.x.sys, PinsOf(r.x.stage, i)).answers
  {
    var s, p := r.x.sys, PinsOf(r.x.stage, i);
    var n, k := SysStep(cfg, s, p), MasterStep(cfg, r.m, s, p);
    StepFollows(cfg, s, r.m, p);
    Suffix(r.m.answers, k.answers, Delivered(s.c.t, p), InFlight(cfg, n), InFlight(cfg, s));
  }

  lemma {:induction false} TraceGrows(cfg: Config, r: Run, ins: seq<In>)
    requires Formed(cfg, r.x.sys.c)
    ensures r.trace <= RunAll(cfg, r, ins).trace
    decreases |ins|
  {
    if |ins| == 0 {
    } else {
      TraceGrows(cfg, Go(cfg, r, ins[0]), ins[1..]);
    }
  }

  lemma OpeningGoesOn(cfg: Config, a: Master, r: Run, i: In, slave: nat -> Response)
    requires Opening(cfg, r) && (i.offered ==> i.b == RESET) && Since(cfg, a, Ahead(cfg, r.m, r.x.stage), r.trace, slave)
    requires Agrees(slave, Go(cfg, r, i).trace, |r.trace|) && !Resets(cfg, r.x.stage, i)
    ensures var n := Go(cfg, r, i);
            Opening(cfg, n) && Since(cfg, a, Ahead(cfg, n.m, n.x.stage), n.trace, slave) && r.out <= n.out
  {
    SinceStep(cfg, a, r, i, slave);
    OpeningStep(cfg, r, i);
  }

  lemma WillResetStill(cfg: Config, r: Run, ins: seq<In>)
    requires Formed(cfg, r.x.sys.c) && WillReset(r, ins) && !r.x.stage.escaping && !Resets(cfg, r.x.stage, ins[0])
    ensures WillReset(Go(cfg, r, ins[0]), ins[1..])
  {
  }

  lemma OpeningResets(cfg: Config, a: Master, r: Run, i: In, rest: seq<In>, slave: nat -> Response)
    requires Opening(cfg, r) && (i.offered ==> i.b == RESET) && Since(cfg, a, Ahead(cfg, r.m, r.x.stage), r.trace, slave)
    requires Agrees(slave, Go(cfg, r, i).trace, |r.trace|) && Resets(cfg, r.x.stage, i) && OnlyResets(rest)
    ensures ResetAfter(cfg, a, r, RunAll(cfg, Go(cfg, r, i), rest), slave)
  {
    SinceStep(cfg, a, r, i, slave);
    ResetIsClean(cfg, r, i);
    ResetEdge(cfg, a, r, i, rest, slave);
  }

  lemma {:induction false} OpeningAnswers(cfg: Config, a: Master, r: Run, ins: seq<In>, slave: nat -> Response)
    requires Opening(cfg, r) && WillReset(r, ins) && Since(cfg, a, Ahead(cfg, r.m, r.x.stage), r.trace, slave)
    requires Agrees(slave, RunAll(cfg, r, ins).trace, |r.trace|)
    ensures ResetAfter(cfg, a, r, RunAll(cfg, r, ins), slave)
    decreases |ins|
  {
    var i, n := ins[0], Go(cfg, r, ins[0]);
    TraceGrows(cfg, n, ins[1..]);
    AgreesLater(slave, n.trace, RunAll(cfg, r, ins).trace, |r.trace|);
    if Resets(cfg, r.x.stage, i) {
      OpeningResets(cfg, a, r, i, ins[1..], slave);
    } else {
      OpeningGoesOn(cfg, a, r, i, slave);
      WillResetStill(cfg, r, ins);
      OpeningAnswers(cfg, a, n, ins[1..], slave);
    }
  }

  lemma FirstResets(cfg: Config, r: Run, i: In)
    requires InStep(cfg, r) && i.offered && i.b == RESET && Resets(cfg, r.x.stage, i)
    ensures Clean(cfg, Go(cfg, r, i))
  {
    var s, p := r.x.sys, PinsOf(r.x.stage, i);
    FirstTaken(cfg, r, i);
    ResetInStep(cfg, SysStep(cfg, s, p), MasterStep(cfg, r.m, s, p));
  }

  lemma StartIsHarmless(cfg: Config, r: Run)
    requires InStep(cfg, r)
    ensures Harmless(r)
  {
    if r.x.stage.valid {
      DrainedIsFree(cfg, r.x.sys, r.m);
    }
  }

  lemma SymbolArrives(cfg: Config, b: Master, m: Master, trace: seq<Access>, slave: nat -> Response)
    requires Since(cfg, b, m, trace, slave)
    ensures Since(cfg, FirstSymbol(cfg, Far(true, b, 0)), if m.phase.Waiting? then m else ByteIn(cfg, m, RESET), trace, slave)
  {
  }

  lemma StartSince(cfg: Config, r: Run, i: In, slave: nat -> Response)
    requires InStep(cfg, r) && Agrees(slave, Go(cfg, r, i).trace, |r.trace|)
    ensures Since(cfg, Ahead(cfg, r.m, r.x.stage), MasterStep(cfg, r.m, r.x.sys, PinsOf(r.x.stage, i)), Go(cfg, r, i).trace, slave)
  {
    StartIsHarmless(cfg, r);
    SinceStep(cfg, Ahead(cfg, r.m, r.x.stage), r, i, slave);
  }

  lemma FirstSince(cfg: Config, r: Run, i: In, slave: nat -> Response)
    requires InStep(cfg, r) && i.offered && i.b == RESET && Agrees(slave, Go(cfg, r, i).trace, |r.trace|)
    ensures var a, n := FirstSymbol(cfg, FarOf(cfg, r)), Go(cfg, r, i);
            if r.x.stage.escaping then Since(cfg, a, Ahead(cfg, n.m, n.x.stage), n.trace, slave)
            else Since(cfg, a, MasterStep(cfg, r.m, r.x.sys, PinsOf(r.x.stage, i)), n.trace, slave)
  {
    StartSince(cfg, r, i, slave);
    if r.x.stage.escaping {
      SymbolArrives(cfg, Ahead(cfg, r.m, r.x.stage), Go(cfg, r, i).m, Go(cfg, r, i).trace, slave);
    }
  }

  lemma OpenAnswers(cfg: Config, r: Run, ins: seq<In>, slave: nat -> Response)
    requires InStep(cfg, r) && Reopens(ins) && Agrees(slave, RunAll(cfg, r, ins).trace, |r.trace|)
    ensures ResetAfter(cfg, FirstSymbol(cfg, FarOf(cfg, r)), r, RunAll(cfg, r, ins), slave)
  {
    var n, i, rest := Go(cfg, r, ins[0]), ins[0], ins[1..];
    var a := FirstSymbol(cfg, FarOf(cfg, r));
    TraceGrows(cfg, n, rest);
    AgreesLater(slave, n.trace, RunAll(cfg, r, ins).trace, |r.trace|);
    FirstSince(cfg, r, i, slave);
    FirstTaken(cfg, r, i);
    if Resets(cfg, r.x.stage, i) {
      FirstResets(cfg, r, i);
      ResetEdge(cfg, a, r, i, rest, slave);
    } else {
      HandedOverIsOwed(cfg, r, i);
      OpeningAnswers(cfg, a, n, rest, slave);
    }
  }

  // The core is reset and in step, nothing is on its way, and what has been handed over since
  // the first symbol is the beginning of what was owed, as ResetFar says.
  predicate Opened(cfg: Config, r: Run, n: Run, slave: nat -> Response) {
    var far, t := FarOf(cfg, r), Timing(|n.trace| > |r.trace|, |n.out|);
    && InStep(cfg, n) && InFlight(cfg, n.x.sys) == [] && r.out <= n.out
    && t.handed <= |BeforeReset(cfg, far, t.answered, slave).answers|
    && FarOf(cfg, n) == ResetFar(cfg, far, t, slave).(mark := 0)
  }

  lemma ResetAfterOpens(cfg: Config, a: Master, r: Run, n: Run, slave: nat -> Response)
    requires InStep(cfg, n) && Clean(cfg, n) && ResetAfter(cfg, a, r, n, slave)
    requires InStep(cfg, r) && a == FirstSymbol(cfg, FarOf(cfg, r))
    ensures Opened(cfg, r, n, slave)
  {
    assert |a.done| == |r.trace|;
    var answered := |n.trace| > |r.trace|;
    assert Later(cfg, a, answered, slave) == BeforeReset(cfg, FarOf(cfg, r), answered, slave);
    assert FarOf(cfg, n) == Far(false, n.m, 0);
  }

  lemma OpenEnds(cfg: Config, r: Run, ins: seq<In>)
    requires InStep(cfg, r) && Reopens(ins)
    ensures InStep(cfg, RunAll(cfg, r, ins)) && Clean(cfg, RunAll(cfg, r, ins))
  {
    FirstTaken(cfg, r, ins[0]);
    OpeningRun(cfg, Go(cfg, r, ins[0]), ins[1..]);
    RunFirst(cfg, r, ins[0], ins[1..]);
    assert [ins[0]] + ins[1..] == ins;
  }

  // From every state that a run can reach, with an access going on or answers on their way,
  // and for two reset symbols at any distance with any timing of bus and uplink.
  lemma OpenRun(cfg: Config, r: Run, ins: seq<In>, slave: nat -> Response)
    requires InStep(cfg, r) && Reopens(ins) && Agrees(slave, RunAll(cfg, r, ins).trace, |r.trace|)
    ensures Opened(cfg, r, RunAll(cfg, r, ins), slave)
  {
    OpenEnds(cfg, r, ins);
    OpenAnswers(cfg, r, ins, slave);
    ResetAfterOpens(cfg, FirstSymbol(cfg, FarOf(cfg, r)), r, RunAll(cfg, r, ins), slave);
  }
}
