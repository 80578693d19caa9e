// When a reset comes too late: how far the next answer is from being handed over, and exactly
// when one is handed over between the two reset symbols.
module BusStray {
  import opened Bytes
  import opened Numbers
  import opened Escaping
  import opened BusMaster
  import opened BusCore
  import opened BusRefinement
  import opened BusRuns
  import opened BusCalls
  import opened BusOpen
  import opened BusEndToEnd

  // The next answer: there is none; so many edges until its access is on the bus, and then it
  // waits for the bus; so many edges until it is in the output register, and then it waits for
  // the uplink.
  datatype Way = Nothing | Before(edges: nat) | After(edges: nat)

  function Closer(w: Way, answered: bool): Way {
    match w
    case Nothing => Nothing
    case Before(n) => if n > 0 then Before(n - 1) else if answered then After(2) else w
    case After(n) => if n > 0 then After(n - 1) else w
  }

  // ---- The way that is left in the core ----

  function AccessWay(b: Bus, w: Wb): Way {
    if w.readDone || w.writeDone then After(2) else if w.cycstb then Before(0) else if b.startRead || b.startWrite then Before(1) else Before(2)
  }

  function CoreWay(s: Sys): Way {
    if s.c.t.upValid then After(0)
    else
      match s.c.f.state
      case ReadWidth => After(1)
      case ReadAccess => if s.c.f.waitResponse then AccessWay(s.c.b, s.w) else After(1)
      case WriteAccess =>
        if s.c.f.writeBusy then After(1) else if s.c.f.waitResponse then AccessWay(s.c.b, s.w) else Nothing
      case _ => Nothing
  }

  // What a byte in front of the core starts.
  function ByteWay(cfg: Config, f: Fsm, b: Byte): Way {
    match f.state
    case IdleS =>
      if b == READ_WIDTHS then After(2)
      else if cfg.readWidth > 0 && (b == READ_LOCK || b == READ_UNLOCK) then Before(2)
      else Nothing
    case WriteAccess => if f.received + 1 == Size(cfg, WriteData(false)) then Before(3) else Nothing
    case _ => Nothing
  }

  function InWay(cfg: Config, s: Sys, valid: bool, b: Byte): Way {
    if CoreWay(s) != Nothing || !valid then CoreWay(s) else ByteWay(cfg, s.c.f, b)
  }

  predicate Overdue(w: Way, upReady: bool) { w == After(0) && upReady }

  lemma IdleWay(cfg: Config, s: Sys, m: Master, p: Pins)
    requires Formed(cfg, s.c) && Rel(cfg, s, m) && !Busy(s.c.f) && s.c.f.state != WriteAccess
    requires !Overdue(InWay(cfg, s, p.valid, p.b), p.upReady)
    ensures CoreWay(SysStep(cfg, s, p)) == Closer(InWay(cfg, s, p.valid, p.b), p.ack || p.rty || p.err)
  {
  }

  lemma WidthsWay(cfg: Config, s: Sys, m: Master, p: Pins)
    requires Formed(cfg, s.c) && Rel(cfg, s, m) && s.c.f.state == ReadWidth
    requires !Overdue(InWay(cfg, s, p.valid, p.b), p.upReady)
    ensures CoreWay(SysStep(cfg, s, p)) == Closer(InWay(cfg, s, p.valid, p.b), p.ack || p.rty || p.err)
  {
  }

  lemma ReadWay(cfg: Config, s: Sys, m: Master, p: Pins)
    requires Formed(cfg, s.c) && Rel(cfg, s, m) && s.c.f.state == ReadAccess
    requires !Overdue(InWay(cfg, s, p.valid, p.b), p.upReady)
    ensures CoreWay(SysStep(cfg, s, p)) == Closer(InWay(cfg, s, p.valid, p.b), p.ack || p.rty || p.err)
  {
  }

  lemma WriteWay(cfg: Config, s: Sys, m: Master, p: Pins)
    requires Formed(cfg, s.c) && Rel(cfg, s, m) && Tolerated(cfg, s.c, p) && s.c.f.state == WriteAccess
    requires !Overdue(InWay(cfg, s, p.valid, p.b), p.upReady)
    ensures CoreWay(SysStep(cfg, s, p)) == Closer(InWay(cfg, s, p.valid, p.b), p.ack || p.rty || p.err)
  {
  }

  // Every edge brings the next answer as much closer as Closer says.
  lemma CoreWayStep(cfg: Config, s: Sys, m: Master, p: Pins)
    requires Formed(cfg, s.c) && Rel(cfg, s, m) && Tolerated(cfg, s.c, p)
    requires !Overdue(InWay(cfg, s, p.valid, p.b), p.upReady)
    ensures CoreWay(SysStep(cfg, s, p)) == Closer(InWay(cfg, s, p.valid, p.b), p.ack || p.rty || p.err)
  {
    match s.c.f.state {
      case ReadWidth => WidthsWay(cfg, s, m, p);
      case ReadAccess => ReadWay(cfg, s, m, p);
      case WriteAccess => WriteWay(cfg, s, m, p);
      case _ => IdleWay(cfg, s, m, p);
    }
  }

  // ---- Runs ----

  predicate Answering(i: In) { i.ack || i.rty || i.err }

  function WayOf(cfg: Config, r: Run): Way { InWay(cfg, r.x.sys, r.x.stage.valid, r.x.stage.data) }

  // In front of the first symbol, which may complete a write.
  function StartWay(cfg: Config, r: Run): Way {
    if WayOf(cfg, r) == Nothing && StaleWrite(cfg, FarOf(cfg, r)) then Before(4) else WayOf(cfg, r)
  }

  // Some answer is handed over before the core is reset.
  predicate InTime(cfg: Config, w: Way, e: Stage, ins: seq<In>)
    decreases |ins|
  {
    |ins| > 0
    && (Overdue(w, ins[0].upReady)
        || (!Resets(cfg, e, ins[0])
            && InTime(cfg, Closer(w, Answering(ins[0])), StageStep(e, ins[0].offered, ins[0].b, true), ins[1..])))
  }

  lemma {:induction false} OutGrows(cfg: Config, r: Run, ins: seq<In>)
    requires Formed(cfg, r.x.sys.c)
    ensures r.out <= RunAll(cfg, r, ins).out
    decreases |ins|
  {
    if |ins| == 0 {
    } else {
      OutGrows(cfg, Go(cfg, r, ins[0]), ins[1..]);
    }
  }

  lemma OverdueIsDelivered(cfg: Config, r: Run, i: In)
    requires Formed(cfg, r.x.sys.c)
    ensures |Go(cfg, r, i).out| == |r.out| + if Overdue(WayOf(cfg, r), i.upReady) then 1 else 0
  {
  }

  lemma WayGoesOn(cfg: Config, r: Run, i: In)
    requires Opening(cfg, r) && (i.offered ==> i.b == RESET) && !Resets(cfg, r.x.stage, i) && !Overdue(WayOf(cfg, r), i.upReady)
    ensures WayOf(cfg, Go(cfg, r, i)) == Closer(WayOf(cfg, r), Answering(i))
  {
    CoreWayStep(cfg, r.x.sys, r.m, PinsOf(r.x.stage, i));
  }

  lemma {:induction false} OpeningInTime(cfg: Config, r: Run, ins: seq<In>)
    requires Opening(cfg, r) && WillReset(r, ins)
    ensures |RunAll(cfg, r, ins).out| > |r.out| <==> InTime(cfg, WayOf(cfg, r), r.x.stage, ins)
    decreases |ins|
  {
    var i, n := ins[0], Go(cfg, r, ins[0]);
    OverdueIsDelivered(cfg, r, i);
    if Overdue(WayOf(cfg, r), i.upReady) {
      OutGrows(cfg, n, ins[1..]);
    } else if Resets(cfg, r.x.stage, i) {
      ResetIsClean(cfg, r, i);
      CleanRun(cfg, n, ins[1..]);
    } else {
      OpeningStep(cfg, r, i);
      WillResetStill(cfg, r, ins);
      WayGoesOn(cfg, r, i);
      OpeningInTime(cfg, n, ins[1..]);
    }
  }

  // A write in front of its last byte is collecting it.
  lemma StaleIsCollecting(cfg: Config, r: Run)
    requires InStep(cfg, r) && r.x.stage.escaping && CoreWay(r.x.sys) == Nothing
    ensures StaleWrite(cfg, FarOf(cfg, r)) <==> ByteWay(cfg, r.x.sys.c.f, RESET) == Before(3)
    ensures ByteWay(cfg, r.x.sys.c.f, RESET) in {Nothing, Before(3)}
  {
  }

  lemma QuietKeepsFsm(cfg: Config, s: Sys, p: Pins)
    requires Formed(cfg, s.c) && CoreWay(s) == Nothing && !p.valid
    ensures ByteWay(cfg, SysStep(cfg, s, p).c.f, RESET) == ByteWay(cfg, s.c.f, RESET)
  {
  }

  lemma FirstWayIdle(cfg: Config, r: Run, i: In)
    requires InStep(cfg, r) && i.offered && i.b == RESET && !Resets(cfg, r.x.stage, i) && r.x.stage.escaping && CoreWay(r.x.sys) == Nothing
    ensures WayOf(cfg, Go(cfg, r, i)) == Closer(StartWay(cfg, r), Answering(i))
  {
    var s, p := r.x.sys, PinsOf(r.x.stage, i);
    CoreWayStep(cfg, s, r.m, p);
    StaleIsCollecting(cfg, r);
    QuietKeepsFsm(cfg, s, p);
  }

  lemma FirstWay(cfg: Config, r: Run, i: In)
    requires InStep(cfg, r) && i.offered && i.b == RESET && !Resets(cfg, r.x.stage, i) && !Overdue(StartWay(cfg, r), i.upReady)
    ensures WayOf(cfg, Go(cfg, r, i)) == Closer(StartWay(cfg, r), Answering(i))
  {
    if r.x.stage.escaping && CoreWay(r.x.sys) == Nothing {
      FirstWayIdle(cfg, r, i);
    } else {
      CoreWayStep(cfg, r.x.sys, r.m, PinsOf(r.x.stage, i));
    }
  }

  // Whether anything is handed over from the first symbol on: exactly when the next answer
  // that is owed, or that the first symbol causes, comes in time.
  lemma StrayIffInTime(cfg: Config, r: Run, ins: seq<In>)
    requires InStep(cfg, r) && Reopens(ins)
    ensures |RunAll(cfg, r, ins).out| > |r.out| <==> InTime(cfg, StartWay(cfg, r), r.x.stage, ins)
  {
    var i, n := ins[0], Go(cfg, r, ins[0]);
    OverdueIsDelivered(cfg, r, i);
    if Overdue(StartWay(cfg, r), i.upReady) {
      OutGrows(cfg, n, ins[1..]);
    } else if Resets(cfg, r.x.stage, i) {
      FirstResets(cfg, r, i);
      CleanRun(cfg, n, ins[1..]);
    } else {
      FirstTaken(cfg, r, i);
      FirstWay(cfg, r, i);
      OpeningInTime(cfg, n, ins[1..]);
    }
  }

  // ---- A host that has all its answers ----

  // No access is going on and everything the host is owed has been handed over.
  predicate Drained(cfg: Config, r: Run) {
    var m := Ahead(cfg, r.m, r.x.stage);
    !m.phase.Waiting? && r.out == m.answers
  }

  lemma DrainedWay(cfg: Config, r: Run)
    requires InStep(cfg, r) && Drained(cfg, r)
    ensures WayOf(cfg, r) == Nothing
  {
    assert |r.out| + |InFlight(cfg, r.x.sys)| == |r.m.answers|;
    DrainedIsFree(cfg, r.x.sys, r.m);
  }

  lemma DrainedSound(cfg: Config, r: Run)
    requires InStep(cfg, r) && Drained(cfg, r)
    ensures Sound(cfg, Ahead(cfg, r.m, r.x.stage))
  {
  }

  lemma OpenedStray(cfg: Config, r: Run, n: Run, slave: nat -> Response)
    requires InStep(cfg, r) && Drained(cfg, r) && Opened(cfg, r, n, slave)
    ensures n.out == r.out || (StaleWrite(cfg, FarOf(cfg, r)) && n.out == r.out + [if slave(|r.trace|).error then NACK else ACK])
  {
    DrainedSound(cfg, r);
    var far, t := FarOf(cfg, r), Timing(|n.trace| > |r.trace|, |n.out|);
    StrayAnswer(cfg, far, t, slave);
    var answers := ResetFar(cfg, far, t, slave).master.answers;
    assert answers == n.out && answers == r.out + answers[|r.out|..];
  }

  // Then a stray answer comes in one case only: the first symbol completes a write, the bus
  // answers it, and its verdict is handed over before the second symbol resets the core.
  lemma DrainedStray(cfg: Config, r: Run, ins: seq<In>, slave: nat -> Response)
    requires InStep(cfg, r) && Drained(cfg, r) && Reopens(ins) && Agrees(slave, RunAll(cfg, r, ins).trace, |r.trace|)
    ensures RunAll(cfg, r, ins).out
         == r.out + if StaleWrite(cfg, FarOf(cfg, r)) && InTime(cfg, Before(4), r.x.stage, ins)
                    then [if slave(|r.trace|).error then NACK else ACK] else []
  {
    OpenRun(cfg, r, ins, slave);
    OpenedStray(cfg, r, RunAll(cfg, r, ins), slave);
    DrainedInTime(cfg, r, ins);
  }

  lemma DrainedInTime(cfg: Config, r: Run, ins: seq<In>)
    requires InStep(cfg, r) && Drained(cfg, r) && Reopens(ins)
    ensures |RunAll(cfg, r, ins).out| > |r.out| <==> StaleWrite(cfg, FarOf(cfg, r)) && InTime(cfg, Before(4), r.x.stage, ins)
  {
    DrainedWay(cfg, r);
    StrayIffInTime(cfg, r, ins);
    NothingInTime(cfg, r.x.stage, ins);
  }

  lemma {:induction false} NothingInTime(cfg: Config, e: Stage, ins: seq<In>)
    ensures !InTime(cfg, Nothing, e, ins)
    decreases |ins|
  {
    if |ins| == 0 {
    } else {
      NothingInTime(cfg, StageStep(e, ins[0].offered, ins[0].b, true), ins[1..]);
    }
  }

  // ---- How many edges it takes ----

  // Edges up to and with the one that hands the answer over, when bus and uplink never wait.
  function Edges(w: Way): nat {
    match w
    case Nothing => 0
    case Before(n) => n + 4
    case After(n) => n + 1
  }

  // The last edge is too late for an asynchronous reset.
  function Usable(cfg: Config, ins: seq<In>): nat { if cfg.asyncReset && |ins| > 0 then |ins| - 1 else |ins| }

  predicate Prompt(ins: seq<In>) { forall k :: 0 <= k < |ins| ==> Answering(ins[k]) && ins[k].upReady }

  lemma {:induction false} TooLate(cfg: Config, w: Way, e: Stage, ins: seq<In>)
    requires w != Nothing && OnlySecond(ins) && !e.escaping && Usable(cfg, ins) < Edges(w)
    ensures !InTime(cfg, w, e, ins)
    decreases |ins|
  {
    var i, m := ins[0], StageStep(e, ins[0].offered, ins[0].b, true);
    var v := Closer(w, Answering(i));
    if |ins| == 2 {
      assert !InTime(cfg, v, m, ins[1..]) || Resets(cfg, e, i) by {
        assert ins[1..][1..] == [];
        assert !InTime(cfg, Closer(v, Answering(ins[1])), StageStep(m, ins[1].offered, ins[1].b, true), []);
      }
    } else {
      TooLate(cfg, v, m, ins[1..]);
    }
  }

  lemma {:induction false} PromptInTime(cfg: Config, w: Way, e: Stage, ins: seq<In>)
    requires w != Nothing && OnlySecond(ins) && !e.escaping && !e.reset && Prompt(ins) && Edges(w) <= Usable(cfg, ins)
    ensures InTime(cfg, w, e, ins)
    decreases |ins|
  {
    if w == After(0) || |ins| == 2 {
    } else {
      PromptInTime(cfg, Closer(w, true), StageStep(e, ins[0].offered, ins[0].b, true), ins[1..]);
    }
  }

  // A stale write: seven edges are needed after the one that takes the first symbol. With
  // fewer nothing is handed over, whatever bus and uplink do; with as many the verdict is,
  // when neither of them waits.
  lemma StaleTiming(cfg: Config, e: Stage, ins: seq<In>)
    requires e.escaping && !e.reset && Reopens(ins)
    ensures Usable(cfg, ins) < 8 ==> !InTime(cfg, Before(4), e, ins)
    ensures Usable(cfg, ins) >= 8 && Prompt(ins) ==> InTime(cfg, Before(4), e, ins)
  {
    var m := StageStep(e, true, RESET, true);
    if Usable(cfg, ins) < 8 {
      TooLate(cfg, Before(3), m, ins[1..]);
    } else if Prompt(ins) {
      PromptInTime(cfg, Before(3), m, ins[1..]);
    }
  }

  // ---- A sender that stops in front of the last byte of a write ----

  // Every host that keeps the rules and stops after the escape symbol in front of the last
  // data byte leaves such a core behind, and it has all its answers.
  lemma StaleOnTheBus(cfg: Config, r: Run, ins: seq<In>, d: seq<Byte>)
    requires InStep(cfg, r) && AtRest(r) && r.m.phase.Idle? && !r.x.stage.escaping && r.out == r.m.answers
    requires |d| + 1 == RoundUp(cfg.writeWidth)
    requires AllDisciplined(cfg, r, ins) && Offered(ins) == [WRITE_UNLOCK] + Escape(d) + [ESCAPE]
    ensures var n := RunAll(cfg, r, ins);
            InStep(cfg, n) && StaleWrite(cfg, FarOf(cfg, n)) && Drained(cfg, n)
  {
    var n := RunAll(cfg, r, ins);
    var slave := (k: nat) => if k < |n.trace| then n.trace[k].response else Response(false, 0);
    RunInStep(cfg, r, ins);
    RunFeeds(cfg, r, ins, slave);
    DisciplinedSendsNoReset(cfg, r, ins);
    ArriveIsFeed(cfg, FarOf(cfg, r), Offered(ins), slave);
    StaleIsReachable(cfg, FarOf(cfg, r), d, slave);
    OutGrows(cfg, r, ins);
    assert n.out <= n.m.answers;
  }
}
