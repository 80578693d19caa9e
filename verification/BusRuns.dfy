// The whole far side of the connection: escaping stage, core and Wishbone master on one clock,
// for whole runs.
module BusRuns {
  import opened Bytes
  import opened Numbers
  import opened Escaping
  import opened BusMaster
  import opened BusCore
  import opened BusRefinement

  datatype Full = Full(stage: Stage, sys: Sys)

  // A byte may be offered; upReady: the uplink takes a byte; ack, rty, err, dat: the bus.
  datatype In = In(offered: bool, b: Byte, upReady: bool, ack: bool, rty: bool, err: bool, dat: nat)

  function PinsOf(s: Stage, i: In): Pins { Pins(s.valid, s.data, i.upReady, i.ack, i.rty, i.err, i.dat) }

  // The reset of the core and of the bus master; other keeps what the reset leaves undefined.
  function ResetSys(cfg: Config, other: Sys): Sys {
    var c := other.c;
    Sys(Core(c.f.(state := IdleS, word := 0), c.t.(upValid := false),
             c.r.(valid := false, latch := NoField, address := 0, strobe := Pow2(cfg.strobeWidth) - 1, misc := cfg.miscInit),
             Bus(false, false, false)),
        other.w.(cycstb := false, lck := false, readDone := false, writeDone := false))
  }

  // Whether the core is reset at this edge, or (by an asynchronous reset) right after it.
  predicate Resets(cfg: Config, s: Stage, i: In) { s.reset || (cfg.asyncReset && StageStep(s, i.offered, i.b, true).reset) }

  // The core is always ready for a byte. The shift register has no reset.
  function FullStep(cfg: Config, x: Full, i: In): Full
    requires Formed(cfg, x.sys.c)
  {
    var n := SysStep(cfg, x.sys, PinsOf(x.stage, i));
    Full(StageStep(x.stage, i.offered, i.b, true), if Resets(cfg, x.stage, i) then ResetSys(cfg, n) else n)
  }

  // A reset brings the core in step with a reset master; answers still on their way are dropped.
  lemma ResetInStep(cfg: Config, s: Sys, m: Master)
    requires Formed(cfg, s.c)
    ensures Formed(cfg, ResetSys(cfg, s).c) && Rel(cfg, ResetSys(cfg, s), ResetMaster(cfg, m)) && InFlight(cfg, ResetSys(cfg, s)) == []
    ensures var n := ResetSys(cfg, s); n.c.b == Bus(false, false, false) && !n.w.cycstb && !n.w.lck
  {
  }

  // ---- The host's view ----

  // The master after the byte that is still in the escaping stage.
  function Ahead(cfg: Config, m: Master, s: Stage): Master {
    if s.valid && !m.phase.Waiting? then ByteIn(cfg, m, s.data) else m
  }

  // out: what has been handed over to the host; trace: the accesses seen on the bus.
  datatype Run = Run(x: Full, m: Master, out: seq<Byte>, trace: seq<Access>)

  // Core and master agree, and so do their answers and accesses.
  predicate Tracks(cfg: Config, r: Run) {
    && Formed(cfg, r.x.sys.c) && Rel(cfg, r.x.sys, r.m)
    && r.out + InFlight(cfg, r.x.sys) == r.m.answers
    && r.trace == r.m.done
  }

  predicate InStep(cfg: Config, r: Run) {
    && Tracks(cfg, r) && Fresh(cfg, r.x.sys.c)
    && !r.x.stage.reset && !(r.x.stage.valid && r.x.stage.escaping)
    && (r.x.stage.valid ==> !r.m.phase.Waiting? && InFlight(cfg, r.x.sys) == [])
  }

  // Every run can start after a reset, from whatever state core and bus master were in: the
  // answers that were still on their way are dropped.
  lemma ResetStarts(cfg: Config, s: Sys, m: Master, any: Byte)
    requires Formed(cfg, s.c)
    ensures InStep(cfg, Run(Full(Stage(false, false, any, false), ResetSys(cfg, s)), ResetMaster(cfg, m), m.answers, m.done))
  {
    ResetInStep(cfg, s, m);
    assert m.answers + [] == m.answers;
  }

  // The host sends only when no access is going on and it has all the answers to what it sent
  // before; it sends no reset symbol.
  predicate Disciplined(cfg: Config, r: Run, i: In) {
    i.offered ==>
      var h := Ahead(cfg, r.m, r.x.stage);
      !h.phase.Waiting? && r.out == h.answers && (i.b == RESET ==> r.x.stage.escaping)
  }

  // Any byte at any time. After a reset no more answers are owed.
  function Go(cfg: Config, r: Run, i: In): (n: Run)
    requires Formed(cfg, r.x.sys.c)
    ensures Formed(cfg, n.x.sys.c)
  {
    var p, s := PinsOf(r.x.stage, i), r.x.sys;
    var m, out := MasterStep(cfg, r.m, s, p), r.out + Delivered(s.c.t, p);
    Run(FullStep(cfg, r.x, i), if Resets(cfg, r.x.stage, i) then ResetMaster(cfg, m).(answers := out) else m, out,
        if Answers(s.w, p) then r.trace + [Observed(s, p)] else r.trace)
  }

  lemma Suffix(a: seq<Byte>, b: seq<Byte>, d: seq<Byte>, f: seq<Byte>, g: seq<Byte>)
    requires a <= b && d + f == g + b[|a|..]
    ensures forall out: seq<Byte> :: out + g == a ==> (out + d) + f == b
  {
    forall out: seq<Byte> | out + g == a ensures (out + d) + f == b {
      assert (out + d) + f == out + (d + f);
      assert out + (g + b[|a|..]) == (out + g) + b[|a|..];
    }
  }

  lemma GoTracks(cfg: Config, r: Run, i: In)
    requires Tracks(cfg, r) && Tolerated(cfg, r.x.sys.c, PinsOf(r.x.stage, i))
    ensures Tracks(cfg, Go(cfg, r, i))
  {
    var s, p := r.x.sys, PinsOf(r.x.stage, i);
    var n, k := SysStep(cfg, s, p), MasterStep(cfg, r.m, s, p);
    StepFollows(cfg, s, r.m, p);
    Suffix(r.m.answers, k.answers, Delivered(s.c.t, p), InFlight(cfg, n), InFlight(cfg, s));
    if Resets(cfg, r.x.stage, i) {
      var out := r.out + Delivered(s.c.t, p);
      ResetInStep(cfg, n, k.(answers := out));
      assert out + [] == out;
    }
  }

  lemma GoInStep(cfg: Config, r: Run, i: In)
    requires InStep(cfg, r) && Disciplined(cfg, r, i)
    ensures InStep(cfg, Go(cfg, r, i)) && !Resets(cfg, r.x.stage, i)
  {
    var s, p := r.x.sys, PinsOf(r.x.stage, i);
    GoTracks(cfg, r, i);
    if p.valid {
      DrainedIsFree(cfg, s, r.m);
    }
    FreshStep(cfg, s, r.m, p);
    if i.offered {
      var n := Go(cfg, r, i);
      assert n.m == Ahead(cfg, r.m, r.x.stage);
      assert |r.out| + |Delivered(s.c.t, p)| + |InFlight(cfg, n.x.sys)| == |n.m.answers| == |r.out|;
    }
  }

  function RunAll(cfg: Config, r: Run, ins: seq<In>): (n: Run)
    requires Formed(cfg, r.x.sys.c)
    ensures Formed(cfg, n.x.sys.c)
    decreases |ins|
  {
    if |ins| == 0 then r else RunAll(cfg, Go(cfg, r, ins[0]), ins[1..])
  }

  predicate AllDisciplined(cfg: Config, r: Run, ins: seq<In>)
    requires Formed(cfg, r.x.sys.c)
    decreases |ins|
  {
    |ins| == 0 || (Disciplined(cfg, r, ins[0]) && AllDisciplined(cfg, Go(cfg, r, ins[0]), ins[1..]))
  }

  // Over every run of a host that keeps the rule, with any timing of the bytes, the bus and the
  // uplink: the accesses on the bus are the master's, with their address, data, strobe, misc
  // and lock, and the host receives the master's answers, in order.
  lemma {:induction false} RunInStep(cfg: Config, r: Run, ins: seq<In>)
    requires InStep(cfg, r) && AllDisciplined(cfg, r, ins)
    ensures InStep(cfg, RunAll(cfg, r, ins)) && r.trace <= RunAll(cfg, r, ins).trace
    decreases |ins|
  {
    if |ins| == 0 {
    } else {
      GoInStep(cfg, r, ins[0]);
      RunInStep(cfg, Go(cfg, r, ins[0]), ins[1..]);
    }
  }

  // ---- The run as a function of the bytes sent ----

  function Offered(ins: seq<In>): seq<Byte> {
    if |ins| == 0 then [] else (if ins[0].offered then [ins[0].b] else []) + Offered(ins[1..])
  }

  // slave answers the accesses that are still to come as the bus did in this run.
  ghost predicate Agrees(slave: nat -> Response, trace: seq<Access>, from: nat) {
    forall k: nat :: from <= k < |trace| ==> slave(k) == trace[k].response
  }

  function View(cfg: Config, r: Run, slave: nat -> Response): Master {
    Settle(cfg, Ahead(cfg, r.m, r.x.stage), slave)
  }

  function Arrives(r: Run, i: In): seq<Byte> {
    if i.offered && Symbols(r.x.stage.escaping, i.b) == [Data(i.b)] then [i.b] else []
  }

  lemma GoFeeds(cfg: Config, r: Run, i: In, slave: nat -> Response)
    requires InStep(cfg, r) && Disciplined(cfg, r, i) && Agrees(slave, Go(cfg, r, i).trace, |r.trace|)
    ensures View(cfg, Go(cfg, r, i), slave) == Feed(cfg, View(cfg, r, slave), Arrives(r, i), slave)
  {
    var h, v := Ahead(cfg, r.m, r.x.stage), View(cfg, r, slave);
    var n := Go(cfg, r, i);
    if Arrives(r, i) == [i.b] {
      assert v == h == n.m && n.x.stage.valid && n.x.stage.data == i.b;
      assert Feed(cfg, v, [i.b], slave) == Settle(cfg, ByteIn(cfg, v, i.b), slave) by { assert [i.b][1..] == []; }
    } else {
      assert !n.x.stage.valid;
      assert Feed(cfg, v, [], slave) == v;
    }
  }

  lemma AgreesLater(slave: nat -> Response, trace: seq<Access>, longer: seq<Access>, from: nat)
    requires trace <= longer && from <= |trace| && Agrees(slave, longer, from)
    ensures Agrees(slave, trace, from) && Agrees(slave, longer, |trace|)
  {
  }

  lemma DataArrives(r: Run, i: In, rest: seq<Byte>)
    requires !(i.offered && i.b == RESET && !r.x.stage.escaping)
    ensures var bytes := (if i.offered then [i.b] else []) + rest;
            var e := StageStep(r.x.stage, i.offered, i.b, true).escaping;
            DataOf(Decode(r.x.stage.escaping, bytes)) == Arrives(r, i) + DataOf(Decode(e, rest))
  {
    var e := r.x.stage.escaping;
    if i.offered {
      assert ([i.b] + rest)[1..] == rest;
      var first := Symbols(e, i.b);
      var later := Decode(EscapedAfter(e, i.b), rest);
      assert Decode(e, [i.b] + rest) == first + later;
      if |first| == 0 {
        assert first + later == later;
      } else {
        assert (first + later)[1..] == later;
      }
    } else {
      assert [] + rest == rest;
    }
  }

  // All that matters is which bytes were sent, not when: the host's view of the master is the
  // one that has been fed the decoded bytes, with the answers the bus gave.
  lemma {:induction false} RunFeeds(cfg: Config, r: Run, ins: seq<In>, slave: nat -> Response)
    requires InStep(cfg, r) && AllDisciplined(cfg, r, ins) && Agrees(slave, RunAll(cfg, r, ins).trace, |r.trace|)
    ensures View(cfg, RunAll(cfg, r, ins), slave)
         == Feed(cfg, View(cfg, r, slave), DataOf(Decode(r.x.stage.escaping, Offered(ins))), slave)
    decreases |ins|
  {
    if |ins| == 0 {
    } else {
      var n := Go(cfg, r, ins[0]);
      GoInStep(cfg, r, ins[0]);
      RunInStep(cfg, n, ins[1..]);
      AgreesLater(slave, n.trace, RunAll(cfg, r, ins).trace, |r.trace|);
      GoFeeds(cfg, r, ins[0], slave);
      RunFeeds(cfg, n, ins[1..], slave);
      DataArrives(r, ins[0], Offered(ins[1..]));
      FeedConcat(cfg, View(cfg, r, slave), Arrives(r, ins[0]), DataOf(Decode(n.x.stage.escaping, Offered(ins[1..]))), slave);
    }
  }
}
