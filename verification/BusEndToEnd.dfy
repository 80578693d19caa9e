// Host calls, escaping, core and bus together.
module BusEndToEnd {
  import opened Bytes
  import opened Numbers
  import opened Escaping
  import opened BusMaster
  import opened BusCore
  import opened BusRefinement
  import opened BusRuns
  import opened BusCalls

  lemma {:induction false} ArriveIsFeed(cfg: Config, far: Far, s: seq<Byte>, slave: nat -> Response)
    requires !far.master.phase.Waiting? && NoReset(far.escaping, s)
    ensures var n := ArriveAll(cfg, far, s, slave);
            n.master == Feed(cfg, far.master, DataOf(Decode(far.escaping, s)), slave) && n.escaping == Escaped(far.escaping, s)
    decreases |s|
  {
    if |s| == 0 {
    } else {
      DecodeFirst(far.escaping, s);
      var n := Arrive(cfg, far, s[0], slave);
      ArriveIsFeed(cfg, n, s[1..], slave);
      var rest := DataOf(Decode(n.escaping, s[1..]));
      assert ([s[0]] + rest)[1..] == rest;
    }
  }

  lemma {:induction false} DisciplinedSendsNoReset(cfg: Config, r: Run, ins: seq<In>)
    requires InStep(cfg, r) && AllDisciplined(cfg, r, ins)
    ensures NoReset(r.x.stage.escaping, Offered(ins))
    ensures RunAll(cfg, r, ins).x.stage.escaping == Escaped(r.x.stage.escaping, Offered(ins))
    decreases |ins|
  {
    if |ins| == 0 {
    } else {
      GoInStep(cfg, r, ins[0]);
      DisciplinedSendsNoReset(cfg, Go(cfg, r, ins[0]), ins[1..]);
      if ins[0].offered {
        assert Offered(ins)[1..] == Offered(ins[1..]);
      } else {
        assert Offered(ins) == Offered(ins[1..]);
      }
    }
  }

  // A run at rest: nothing in the escaping stage and no access going on.
  predicate AtRest(r: Run) { !r.x.stage.valid && !r.m.phase.Waiting? }

  lemma RestingView(cfg: Config, r: Run, slave: nat -> Response)
    requires AtRest(r)
    ensures View(cfg, r, slave) == r.m
  {
  }

  lemma SessionReachesMaster(cfg: Config, r: Run, ins: seq<In>, shadow: seq<Byte>, calls: seq<Call>, slave: nat -> Response)
    requires InStep(cfg, r) && AtRest(r) && Agreed(cfg, Far(r.x.stage.escaping, r.m, 0), shadow)
    requires forall c :: c in calls ==> Callable(cfg, c)
    requires AllDisciplined(cfg, r, ins) && Offered(ins) == SessionBytes(cfg, shadow, calls)
    requires AtRest(RunAll(cfg, r, ins)) && Agrees(slave, RunAll(cfg, r, ins).trace, |r.trace|)
    ensures RunAll(cfg, r, ins).m == ArriveAll(cfg, Far(r.x.stage.escaping, r.m, 0), SessionBytes(cfg, shadow, calls), slave).master
  {
    RunFeeds(cfg, r, ins, slave);
    DisciplinedSendsNoReset(cfg, r, ins);
    ArriveIsFeed(cfg, Far(r.x.stage.escaping, r.m, 0), Offered(ins), slave);
    RestingView(cfg, r, slave);
    RestingView(cfg, RunAll(cfg, r, ins), slave);
  }

  // From a host whose address cache agrees with the core, for every sequence of calls and every
  // timing: when the bytes of the calls have gone down and the core has come to rest, the
  // accesses seen on the bus are those of the ideal master, the host has received the ideal
  // answers but for those still on their way up, and cache and address register agree again,
  // at once or (while the last byte of the address is still in front of it) one edge later.
  lemma SessionOnTheBus(cfg: Config, r: Run, ins: seq<In>, shadow: seq<Byte>, calls: seq<Call>, slave: nat -> Response)
    requires InStep(cfg, r) && AtRest(r) && Agreed(cfg, Far(r.x.stage.escaping, r.m, 0), shadow)
    requires forall c :: c in calls ==> Callable(cfg, c)
    requires AllDisciplined(cfg, r, ins) && Offered(ins) == SessionBytes(cfg, shadow, calls)
    requires AtRest(RunAll(cfg, r, ins)) && Agrees(slave, RunAll(cfg, r, ins).trace, |r.trace|)
    ensures var n, ideal := RunAll(cfg, r, ins), IdealSession(cfg, r.m, calls, slave);
            && n.trace == ideal.done
            && n.out + InFlight(cfg, n.x.sys) == ideal.answers
            && Latched(cfg, n.x.sys.c.r, ToAddress, Address, n.x.sys.c.r.address) == Field(cfg.addressWidth, LastShadow(cfg, shadow, calls))
            && (!n.x.sys.c.r.valid ==> n.x.sys.c.r.address == Field(cfg.addressWidth, LastShadow(cfg, shadow, calls)))
  {
    var far := Far(r.x.stage.escaping, r.m, 0);
    RunInStep(cfg, r, ins);
    SessionReachesMaster(cfg, r, ins, shadow, calls, slave);
    SessionCarried(cfg, far, shadow, calls, slave);
  }

  // ---- The bus lock ----

  predicate LastLocked(trace: seq<Access>) { |trace| > 0 && trace[|trace| - 1].request.lock }

  predicate LockSpans(r: Run) {
    && r.m.held == LastLocked(r.trace)
    && r.x.sys.w.lck == (LastLocked(r.trace) || (r.x.sys.w.cycstb && r.x.sys.c.b.lock))
  }

  lemma LockLevels(cfg: Config, r: Run)
    requires InStep(cfg, r) && r.m.held == LastLocked(r.trace)
    ensures LockSpans(r)
  {
  }

  lemma HeldIsLast(cfg: Config, r: Run, i: In)
    requires InStep(cfg, r) && Disciplined(cfg, r, i) && r.m.held == LastLocked(r.trace)
    ensures Go(cfg, r, i).m.held == LastLocked(Go(cfg, r, i).trace)
  {
    StepFollows(cfg, r.x.sys, r.m, PinsOf(r.x.stage, i));
  }

  // Over every run, lock_o is '1' exactly from the start of a locked access to the end of the
  // next unlocked one: while no access is going on it tells whether the last one was locked.
  lemma {:induction false} LockSpan(cfg: Config, r: Run, ins: seq<In>)
    requires InStep(cfg, r) && AllDisciplined(cfg, r, ins) && r.m.held == LastLocked(r.trace)
    ensures LockSpans(RunAll(cfg, r, ins))
    decreases |ins|
  {
    if |ins| == 0 {
      LockLevels(cfg, r);
    } else {
      GoInStep(cfg, r, ins[0]);
      HeldIsLast(cfg, r, ins[0]);
      LockSpan(cfg, Go(cfg, r, ins[0]), ins[1..]);
    }
  }

  // A read_modify_write whose read is acknowledged: the bus sees the locked read and then the
  // unlocked write with the lock held during both; LockSpan adds the time between them. When
  // the read fails the write is left out, and the lock stays until some later unlocked access.
  lemma ReadModifyWriteLocks(cfg: Config, m: Master, a: seq<Byte>, d: seq<Byte>, slave: nat -> Response)
    requires m.phase.Idle? && Callable(cfg, Write(a, d, false)) && Callable(cfg, Read(a, true))
    ensures var n := IdealSession(cfg, m, [Read(a, true), Write(a, d, false)], slave);
            var first := |m.done|;
            && |n.done| == first + 2 && n.done[..first] == m.done
            && !n.done[first].request.write && n.done[first].held && LastLocked(n.done[..first + 1])
            && n.done[first + 1].request.write && n.done[first + 1].held && !n.held
            && n.done[first].request.address == n.done[first + 1].request.address
    ensures IdealSession(cfg, m, [Read(a, true)], slave).held
  {
    var calls := [Read(a, true), Write(a, d, false)];
    assert calls[1..] == [Write(a, d, false)] && [Write(a, d, false)][1..] == [] && [Read(a, true)][1..] == [];
    var one := Ideal(cfg, m, calls[0], slave);
    var two := Ideal(cfg, one, calls[1], slave);
    assert IdealSession(cfg, two, [], slave) == two && IdealSession(cfg, one, calls[1..], slave) == two;
  }
}
