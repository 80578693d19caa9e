// A whole use of the waveform generator on one clock: the bytes of an upload, and after it the
// byte that orders the playback.
module WaveProgram {
  import opened Bytes
  import opened Numbers
  import opened WaveController
  import opened WaveUpload
  import opened WavePlayback
  import opened WaveCommands
  import B = WaveBytes
  import E = WaveEndToEnd
  import H = WaveHost
  import M = WaveMemory
  import R = WaveRuns
  import S = Escaping
  import W = WaveSwitch

  function ForCoreAll(ins: seq<In>): (rs: seq<R.In>)
    ensures |rs| == |ins|
  {
    if |ins| == 0 then [] else [ForCore(ins[0])] + ForCoreAll(ins[1..])
  }

  lemma ForCoreFirst(i: In, rest: seq<In>)
    ensures ForCoreAll([i] + rest) == [ForCore(i)] + ForCoreAll(rest)
  {
    assert ([i] + rest)[1..] == rest;
  }

  lemma {:induction false} BoardFirst(cfg: Widths, d: Board, i: In, rest: seq<In>)
    requires M.Sized(Mem(cfg), d.m)
    ensures BoardRun(cfg, d, [i] + rest) == BoardRun(cfg, BoardStep(cfg, d, i), rest)
    decreases |rest|
  {
    if |rest| == 0 {
      BoardLast(cfg, d, [], i);
      assert [i] + rest == [] + [i];
    } else {
      var r, j := rest[..|rest| - 1], rest[|rest| - 1];
      assert rest == r + [j] && [i] + rest == ([i] + r) + [j];
      BoardFirst(cfg, d, i, r);
      BoardLast(cfg, d, [i] + r, j);
      BoardLast(cfg, BoardStep(cfg, d, i), r, j);
    }
  }

  // ---- The player during an upload ----

  // The player is idle, and no order is on its way to it.
  predicate IdlePlayer(c: Controller, m: M.Memory) {
    && Plays(m.r.p, Off(false)) && Unordered(m) && !c.s.start && !c.s.stop && !c.s.oneShot
  }

  // Controller and memory are those of an upload.
  predicate OnBoard(cfg: Widths, d: Board, r: Run, target: bool) {
    && WaveUpload.InStep(cfg, r, target) && d.c == r.s.c && M.Sized(Mem(cfg), d.m) && W.Beside(d.m, r.s)
    && IdlePlayer(d.c, d.m) && !d.x.reset
  }

  lemma IdleStep(cfg: Widths, c: Controller, m: M.Memory, t: M.In)
    requires M.Sized(Mem(cfg), m) && IdlePlayer(c, m) && !t.start && !t.stop && !t.oneShot && t.outEnable
    ensures var n := M.MemoryStep(Mem(cfg), m, t); Plays(n.r.p, Off(false)) && Unordered(n)
  {
    PlayerFollows(Mem(cfg), m.r.p, Off(false), m.r.next, M.OrdersOf(m.r.latched, m.w, t));
  }

  // No byte of an upload orders anything.
  lemma UploadOrdersNothing(cfg: Widths, s: Side, u: Upload, p: Pins, target: bool)
    requires Rel(cfg, s, u, target) && Expected(u, p)
    ensures var n := ControllerStep(cfg, s.c, p).s; !n.start && !n.stop && !n.oneShot
  {
    OrderOfByte(cfg, s.c, p);
  }

  lemma OnBoardStep(cfg: Widths, d: Board, r: Run, i: In, target: bool)
    requires OnBoard(cfg, d, r, target) && Expected(r.u, R.PinsOf(d.x, ForCore(i)))
    requires !S.StageStep(d.x, i.offered, i.b, true).reset
    ensures OnBoard(cfg, BoardStep(cfg, d, i), Go(cfg, r, R.PinsOf(d.x, ForCore(i))), target)
  {
    var p := R.PinsOf(d.x, ForCore(i));
    GoInStep(cfg, r, p, target);
    UploadOrdersNothing(cfg, r.s, r.u, p, target);
    IdleStep(cfg, d.c, d.m, Told(d.c, i));
    W.BesideStep(cfg, r.s, d.m, p);
  }

  lemma NoResetFirst(x: S.Stage, i: In, rest: seq<In>)
    requires S.NoReset(x.escaping, R.Offered(ForCoreAll([i] + rest)))
    ensures var n := S.StageStep(x, i.offered, i.b, true);
            !n.reset && S.NoReset(n.escaping, R.Offered(ForCoreAll(rest)))
  {
    ForCoreFirst(i, rest);
    R.OfferedIsRest(ForCore(i), ForCoreAll(rest));
  }

  lemma {:induction false} StageOnBoard(cfg: Widths, d: Board, ins: seq<In>)
    requires M.Sized(Mem(cfg), d.m)
    ensures BoardRun(cfg, d, ins).x == R.StageEnd(d.x, ForCoreAll(ins))
    decreases |ins|
  {
    if |ins| == 0 {
    } else {
      var i, rest := ins[0], ins[1..];
      assert ins == [i] + rest;
      ForCoreFirst(i, rest);
      BoardFirst(cfg, d, i, rest);
      StageOnBoard(cfg, BoardStep(cfg, d, i), rest);
    }
  }

  // The board goes through the upload as controller and memory do behind the stage.
  lemma {:induction false} UploadOnBoard(cfg: Widths, d: Board, r: Run, ins: seq<In>, target: bool)
    requires OnBoard(cfg, d, r, target) && S.NoReset(d.x.escaping, R.Offered(ForCoreAll(ins)))
    requires AllExpected(cfg, r.u, R.Seen(d.x, ForCoreAll(ins)))
    ensures OnBoard(cfg, BoardRun(cfg, d, ins), RunAll(cfg, r, R.Seen(d.x, ForCoreAll(ins))), target)
    decreases |ins|
  {
    if |ins| == 0 {
    } else {
      var i, rest := ins[0], ins[1..];
      assert ins == [i] + rest;
      ForCoreFirst(i, rest);
      NoResetFirst(d.x, i, rest);
      BoardFirst(cfg, d, i, rest);
      OnBoardStep(cfg, d, r, i, target);
      UploadOnBoard(cfg, BoardStep(cfg, d, i), Go(cfg, r, R.PinsOf(d.x, ForCore(i))), rest, target);
    }
  }

  // ---- From the samples of a program to the output ----

  // The core waits for an upload, with an idle player.
  predicate Awaits(cfg: Widths, d: Board, r: Run, target: bool) {
    OnBoard(cfg, d, r, target) && r.u.mode == Ready && !d.x.valid && !d.x.escaping
  }

  // The bytes are through the stage, the samples are stored and published, and the controller
  // has its answer in the output register.
  predicate Over(cfg: Widths, d: Board) {
    && !d.x.valid && d.c.f.state == Init
    && !d.c.s.validEarly && !d.c.s.valid && !M.WeCom(Mem(cfg), d.m.w) && !d.m.w.nextStb
  }

  lemma UploadedOnBoard(cfg: Widths, d: Board, r: Run, ins: seq<In>, target: bool, ds: seq<seq<Byte>>, n: Board, k: Run)
    requires Awaits(cfg, d, r, target) && Fits(cfg) && 0 < |ds| <= Pow2(cfg.addr) && B.Sizes(DataSize(cfg), ds)
    requires R.Offered(ForCoreAll(ins)) == B.UploadEscaped(cfg, ds) && n == BoardRun(cfg, d, ins) && !n.x.valid
    requires k == RunAll(cfg, r, R.Seen(d.x, ForCoreAll(ins)))
    ensures OnBoard(cfg, n, k, target) && !n.x.escaping
    ensures k.u.mode == Finished && k.u.samples == B.Fields(cfg.data, ds) && k.u.last == |ds| - 1
  {
    StageOnBoard(cfg, d, ins);
    R.UploadHasNoReset(cfg, ds);
    R.UploadPasses(cfg, d.x, ForCoreAll(ins), ds);
    B.FeedUpload(cfg, r.u, ds);
    B.UploadRuns(cfg, r, R.Seen(d.x, ForCoreAll(ins)), target);
    UploadOnBoard(cfg, d, r, ins, target);
  }

  lemma OverIsResting(cfg: Widths, n: Board, k: Run, target: bool)
    requires OnBoard(cfg, n, k, target) && !n.x.escaping && k.u.mode == Finished && Over(cfg, n)
    ensures Resting(cfg, n, M.Next(k.u.last, target), k.u.samples)
  {
    UploadComplete(cfg, k, target);
  }

  // The samples of WriteSamples, and then the byte for one shot or start, in any clocks: what
  // comes out are the samples modulo 2**DATA_WIDTH, once or again and again, from the clock of
  // the order on, which follows the byte by two clocks, and by five for start.
  lemma WrittenSamplesArePlayed(cfg: Widths, d: Board, r: Run, ins: seq<In>, target: bool, vs: seq<int>, n: Board,
                                once: bool, orders: seq<In>, at: nat, hi: nat, clocks: int)
    requires Awaits(cfg, d, r, target) && Fits(cfg) && cfg.data <= 64 && 0 < |vs| <= Pow2(cfg.addr)
    requires R.Offered(ForCoreAll(ins)) == B.UploadEscaped(cfg, H.AllSampleBytes(cfg.data, vs))
    requires n == BoardRun(cfg, d, ins) && Over(cfg, n)
    requires Commands(orders, CommandByte(once)) && Synced(cfg, once, orders, at) && |orders| == hi + 3
    requires clocks == hi - Delay(once) - at && clocks > 0 && E.Fitting(once, hi - Delay(once), |vs|)
    ensures E.ShowsTurn(BoardRun(cfg, n, orders).m.a, once, clocks, E.Residues(cfg.data, vs))
  {
    var k := RunAll(cfg, r, R.Seen(d.x, ForCoreAll(ins)));
    UploadedOnBoard(cfg, d, r, ins, target, H.AllSampleBytes(cfg.data, vs), n, k);
    E.SamplesAreResidues(cfg.data, vs);
    OverIsResting(cfg, n, k, target);
    CommandIsPlayed(cfg, n, M.Next(k.u.last, target), k.u.samples, once, orders, at, hi, clocks);
  }
}
