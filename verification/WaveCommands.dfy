// The command bytes start, stop and one shot, from the escaping stage to the output.
module WaveCommands {
  import opened Bytes
  import opened Numbers
  import S = Escaping
  import opened WaveController
  import opened WaveUpload
  import opened WavePlayback
  import E = WaveEndToEnd
  import M = WaveMemory
  import R = WaveRuns

  // ---- What a byte orders ----

  // Start, stop and one shot are ordered by one byte each, received in init, and by no other
  // byte and in no other state; so is the other buffer, by the byte in front of the samples.
  lemma OrderOfByte(cfg: Widths, c: Controller, p: Pins)
    ensures var i, command := ToMemory(ControllerStep(cfg, c, p)), c.f.state == Init && p.valid;
            && (i.start <==> command && p.b == 0xF0)
            && (i.stop <==> command && p.b == 0xF1)
            && (i.oneShot <==> command && p.b == 0xF6)
            && (i.ifReset <==> command && p.b == 0xF3)
  {
  }

  // ---- Stage, controller and memory on one clock ----

  datatype Board = Board(x: S.Stage, c: Controller, m: M.Memory)

  // A byte may be offered, and sync_in come; upReady and enabled are for the answers.
  datatype In = In(offered: bool, b: Byte, upReady: bool, enabled: bool, sync: bool)

  function Told(c: Controller, i: In): M.In { ToMemory(c).(syncIn := i.sync) }

  function ForCore(i: In): R.In { R.In(i.offered, i.b, i.upReady, i.enabled) }

  // The reset symbol resets the controller, not the memory.
  function BoardStep(cfg: Widths, d: Board, i: In): Board
    requires M.Sized(Mem(cfg), d.m)
  {
    Board(S.StageStep(d.x, i.offered, i.b, true),
          if d.x.reset then R.ResetController(d.c) else ControllerStep(cfg, d.c, R.PinsOf(d.x, ForCore(i))),
          M.MemoryStep(Mem(cfg), d.m, Told(d.c, i)))
  }

  function BoardRun(cfg: Widths, d: Board, ins: seq<In>): (n: Board)
    requires M.Sized(Mem(cfg), d.m)
    ensures M.Sized(Mem(cfg), n.m)
    decreases |ins|
  {
    if |ins| == 0 then d else BoardStep(cfg, BoardRun(cfg, d, ins[..|ins| - 1]), ins[|ins| - 1])
  }

  // What the memory is told.
  function Tolds(cfg: Widths, d: Board, ins: seq<In>): (ts: seq<M.In>)
    requires M.Sized(Mem(cfg), d.m)
    ensures |ts| == |ins|
    decreases |ins|
  {
    if |ins| == 0 then []
    else Tolds(cfg, d, ins[..|ins| - 1]) + [Told(BoardRun(cfg, d, ins[..|ins| - 1]).c, ins[|ins| - 1])]
  }

  lemma BoardLast(cfg: Widths, d: Board, a: seq<In>, i: In)
    requires M.Sized(Mem(cfg), d.m)
    ensures BoardRun(cfg, d, a + [i]) == BoardStep(cfg, BoardRun(cfg, d, a), i)
    ensures Tolds(cfg, d, a + [i]) == Tolds(cfg, d, a) + [Told(BoardRun(cfg, d, a).c, i)]
  {
    assert (a + [i])[..|a|] == a;
  }

  lemma {:induction false} BoardMemory(cfg: Widths, d: Board, ins: seq<In>)
    requires M.Sized(Mem(cfg), d.m)
    ensures BoardRun(cfg, d, ins).m == MemoryRun(Mem(cfg), d.m, Tolds(cfg, d, ins))
    decreases |ins|
  {
    if |ins| == 0 {
    } else {
      var a, i := ins[..|ins| - 1], ins[|ins| - 1];
      assert ins == a + [i];
      BoardMemory(cfg, d, a);
      BoardLast(cfg, d, a, i);
      MemoryLast(Mem(cfg), d.m, Tolds(cfg, d, a), Told(BoardRun(cfg, d, a).c, i));
    }
  }

  lemma {:induction false} ToldFirst(cfg: Widths, d: Board, a: seq<In>, rest: seq<In>)
    requires M.Sized(Mem(cfg), d.m)
    ensures Tolds(cfg, d, a) <= Tolds(cfg, d, a + rest)
    decreases |rest|
  {
    if |rest| == 0 {
      assert a + rest == a;
    } else {
      var r, i := rest[..|rest| - 1], rest[|rest| - 1];
      assert a + rest == (a + r) + [i];
      ToldFirst(cfg, d, a, r);
      BoardLast(cfg, d, a + r, i);
    }
  }

  lemma ToldIn(cfg: Widths, d: Board, ins: seq<In>, before: seq<In>, i: In, rest: seq<In>)
    requires M.Sized(Mem(cfg), d.m) && ins == (before + [i]) + rest
    ensures |before| < |ins| && Tolds(cfg, d, ins)[|before|] == Told(BoardRun(cfg, d, before).c, i)
  {
    ToldFirst(cfg, d, before + [i], rest);
    BoardLast(cfg, d, before, i);
  }

  lemma ToldAt(cfg: Widths, d: Board, ins: seq<In>, k: nat, before: seq<In>)
    requires M.Sized(Mem(cfg), d.m) && k < |ins| && before == ins[..k]
    ensures Tolds(cfg, d, ins)[k] == Told(BoardRun(cfg, d, before).c, ins[k])
  {
    var rest := ins[k..][1..];
    assert ins == (before + [ins[k]]) + rest;
    ToldIn(cfg, d, ins, before, ins[k], rest);
  }

  // ---- One command byte ----

  predicate NoData(s: Strobes) { !s.validEarly && !s.lastEarly && !s.valid && !s.ifReset }

  predicate IsCommand(b: Byte) { b == 0xF0 || b == 0xF1 || b == 0xF6 }

  // Stage and controller n clocks after the command byte b was offered to them.
  predicate Commanded(x: S.Stage, c: Controller, b: Byte, n: nat) {
    && !x.escaping && !x.reset && c.f.state == Init && NoData(c.s)
    && x.valid == (n == 1) && (n == 1 ==> x.data == b)
    && c.s.start == (n == 2 && b == 0xF0) && c.s.stop == (n == 2 && b == 0xF1) && c.s.oneShot == (n == 2 && b == 0xF6)
  }

  // The first clock offers the command, and no byte comes after it.
  predicate Commands(ins: seq<In>, b: Byte) {
    && |ins| > 0 && ins[0].offered && ins[0].b == b && IsCommand(b)
    && forall k :: 0 < k < |ins| ==> !ins[k].offered
  }

  lemma CommandedStep(cfg: Widths, d: Board, b: Byte, n: nat, i: In)
    requires M.Sized(Mem(cfg), d.m) && Commanded(d.x, d.c, b, n) && IsCommand(b)
    requires if n == 0 then i.offered && i.b == b else !i.offered
    ensures Commanded(BoardStep(cfg, d, i).x, BoardStep(cfg, d, i).c, b, n + 1)
  {
  }

  lemma CommandsBefore(ins: seq<In>, b: Byte, k: nat)
    requires Commands(ins, b) && k < |ins|
    ensures k > 0 ==> Commands(ins[..k], b)
    ensures if k == 0 then ins[k].offered && ins[k].b == b else !ins[k].offered
  {
  }

  lemma {:induction false} CommandedRun(cfg: Widths, d: Board, ins: seq<In>, b: Byte)
    requires M.Sized(Mem(cfg), d.m) && Commanded(d.x, d.c, b, 0) && (|ins| > 0 ==> Commands(ins, b))
    ensures Commanded(BoardRun(cfg, d, ins).x, BoardRun(cfg, d, ins).c, b, |ins|)
    decreases |ins|
  {
    if |ins| == 0 {
    } else {
      var a, i := ins[..|ins| - 1], ins[|ins| - 1];
      assert ins == a + [i];
      CommandsBefore(ins, b, |a|);
      CommandedRun(cfg, d, a, b);
      BoardLast(cfg, d, a, i);
      CommandedStep(cfg, BoardRun(cfg, d, a), b, |a|, i);
    }
  }

  // The memory gets exactly this order, two clocks later.
  predicate TellsOnce(t: M.In, b: Byte, k: nat) {
    && !t.valid && !t.ifReset && t.outEnable
    && t.start == (k == 2 && b == 0xF0) && t.stop == (k == 2 && b == 0xF1) && t.oneShot == (k == 2 && b == 0xF6)
  }

  lemma ToldOnce(x: S.Stage, c: Controller, b: Byte, k: nat, i: In)
    requires Commanded(x, c, b, k)
    ensures TellsOnce(Told(c, i), b, k) && Told(c, i).syncIn == i.sync
  {
  }

  lemma CommandTold(cfg: Widths, d: Board, ins: seq<In>, b: Byte, k: nat)
    requires M.Sized(Mem(cfg), d.m) && Commanded(d.x, d.c, b, 0) && Commands(ins, b) && k < |ins|
    ensures TellsOnce(Tolds(cfg, d, ins)[k], b, k) && Tolds(cfg, d, ins)[k].syncIn == ins[k].sync
  {
    var before := ins[..k];
    CommandsBefore(ins, b, k);
    ToldAt(cfg, d, ins, k, before);
    CommandedRun(cfg, d, before, b);
    ToldOnce(BoardRun(cfg, d, before).x, BoardRun(cfg, d, before).c, b, k, ins[k]);
  }

  // ---- Runs in two parts ----

  lemma {:induction false} MemoryConcat(cfg: M.Config, m: M.Memory, a: seq<M.In>, b: seq<M.In>)
    requires M.Sized(cfg, m)
    ensures MemoryRun(cfg, m, a + b) == MemoryRun(cfg, MemoryRun(cfg, m, a), b)
    ensures Edges(cfg, m, a + b) == Edges(cfg, m, a) + Edges(cfg, MemoryRun(cfg, m, a), b)
    decreases |b|
  {
    if |b| == 0 {
      assert a + b == a;
      assert Edges(cfg, m, a) + [] == Edges(cfg, m, a);
    } else {
      var c, i := b[..|b| - 1], b[|b| - 1];
      var n := MemoryRun(cfg, m, a);
      assert b == c + [i] && a + b == (a + c) + [i];
      MemoryConcat(cfg, m, a, c);
      MemoryLast(cfg, m, a + c, i);
      MemoryLast(cfg, n, c, i);
      EdgesJoin(Edges(cfg, m, a), Edges(cfg, n, c), EdgeOf(MemoryRun(cfg, n, c), i));
    }
  }

  lemma EdgesJoin(a: seq<Edge>, b: seq<Edge>, e: Edge)
    ensures (a + b) + [e] == a + (b + [e])
  {
  }

  // ---- What the player is told ----

  predicate Unordered(m: M.Memory) {
    && !m.w.start0 && !m.w.start1 && !m.w.start2
    && !m.r.latched.start && !m.r.latched.stop && !m.r.latched.oneShot
  }

  // Start comes three clocks late, for the address of the last sample.
  predicate OrdersArrive(m: M.Memory, ts: seq<M.In>) {
    && m.w.start0 == (|ts| >= 1 && ts[|ts| - 1].start)
    && m.w.start1 == (|ts| >= 2 && ts[|ts| - 2].start)
    && m.w.start2 == (|ts| >= 3 && ts[|ts| - 3].start)
    && !m.r.latched.start && !m.r.latched.stop && !m.r.latched.oneShot
  }

  lemma OrdersStep(cfg: M.Config, m: M.Memory, a: seq<M.In>, t: M.In)
    requires M.Sized(cfg, m) && OrdersArrive(m, a) && t.outEnable
    ensures OrdersArrive(M.MemoryStep(cfg, m, t), a + [t])
  {
  }

  lemma {:induction false} OrdersMove(cfg: M.Config, m: M.Memory, ts: seq<M.In>)
    requires M.Sized(cfg, m) && Unordered(m) && Enabled(ts)
    ensures OrdersArrive(MemoryRun(cfg, m, ts), ts)
    decreases |ts|
  {
    if |ts| == 0 {
    } else {
      var a, t := ts[..|ts| - 1], ts[|ts| - 1];
      assert ts == a + [t];
      OrdersMove(cfg, m, a);
      MemoryLast(cfg, m, a, t);
      OrdersStep(cfg, MemoryRun(cfg, m, a), a, t);
    }
  }

  lemma EdgeAt(cfg: M.Config, m: M.Memory, ts: seq<M.In>, k: nat, before: seq<M.In>)
    requires M.Sized(cfg, m) && k < |ts| && before == ts[..k]
    ensures Edges(cfg, m, ts)[k] == EdgeOf(MemoryRun(cfg, m, before), ts[k])
  {
    var t := ts[k];
    assert ts == (before + [t]) + ts[k + 1..];
    MemoryConcat(cfg, m, before + [t], ts[k + 1..]);
    MemoryLast(cfg, m, before, t);
  }

  lemma EdgeOrders(m: M.Memory, before: seq<M.In>, t: M.In, late: bool)
    requires OrdersArrive(m, before) && late == (|before| >= 3 && before[|before| - 3].start)
    ensures EdgeOf(m, t).o == M.Orders(late, t.stop, t.oneShot, t.syncIn)
  {
  }

  lemma EnabledBefore(ts: seq<M.In>, k: nat)
    requires Enabled(ts) && k < |ts|
    ensures Enabled(ts[..k]) && ts[k].outEnable
  {
  }

  // At every clock: stop, one shot and sync at once, start three clocks late.
  lemma PlayerTold(cfg: M.Config, m: M.Memory, ts: seq<M.In>, k: nat, late: bool)
    requires M.Sized(cfg, m) && Unordered(m) && Enabled(ts) && k < |ts| && late == (k >= 3 && ts[k - 3].start)
    ensures Edges(cfg, m, ts)[k].o == M.Orders(late, ts[k].stop, ts[k].oneShot, ts[k].syncIn)
  {
    var before := ts[..k];
    EnabledBefore(ts, k);
    EdgeAt(cfg, m, ts, k, before);
    OrdersMove(cfg, m, before);
    LateStart(ts, k, before, late);
    EdgeOrders(MemoryRun(cfg, m, before), before, ts[k], late);
  }

  lemma LateStart(ts: seq<M.In>, k: nat, before: seq<M.In>, late: bool)
    requires k < |ts| && before == ts[..k] && late == (k >= 3 && ts[k - 3].start)
    ensures late == (|before| >= 3 && before[|before| - 3].start)
  {
  }

  // ---- Playback from the command byte on ----

  // Stage and controller wait for a command, none is on its way, and the waveform is stored.
  predicate Resting(cfg: Widths, d: Board, wave: M.Next, samples: seq<nat>) {
    && M.Sized(Mem(cfg), d.m) && E.Holds(Mem(cfg), d.m, wave, samples) && Unordered(d.m)
    && !d.x.valid && !d.x.escaping && !d.x.reset && d.c.f.state == Init && NoData(d.c.s)
    && !d.c.s.start && !d.c.s.stop && !d.c.s.oneShot
  }

  predicate NoneOrdered(es: seq<Edge>) { forall k :: 0 <= k < |es| ==> !es[k].o.start && !es[k].o.oneShot }

  // Until the order arrives the player stays idle.
  lemma {:induction false} StaysOff(cfg: M.Config, es: seq<Edge>)
    requires NoneOrdered(es)
    ensures IdealRun(cfg, Off(false), es) == Off(false)
    decreases |es|
  {
    if |es| == 0 {
    } else {
      StaysOff(cfg, es[1..]);
    }
  }

  lemma OffIsPlayable(cfg: M.Config, es: seq<Edge>)
    requires NoneOrdered(es)
    ensures AllPlayable(cfg, Off(false), es)
  {
    forall k | 0 <= k <= |es| ensures Playable(cfg, IdealRun(cfg, Off(false), es[..k])) {
      StaysOff(cfg, es[..k]);
    }
  }

  lemma OffBefore(cfg: M.Config, m: M.Memory, ts: seq<M.In>)
    requires M.Sized(cfg, m) && Plays(m.r.p, Off(false)) && Enabled(ts) && NoneOrdered(Edges(cfg, m, ts))
    ensures Plays(MemoryRun(cfg, m, ts).r.p, Off(false))
  {
    OffIsPlayable(cfg, Edges(cfg, m, ts));
    StaysOff(cfg, Edges(cfg, m, ts));
    RunFollows(cfg, m, ts, Off(false));
  }

  // The clocks from the offered byte to the order: through the stage and the controller, and
  // for start three more.
  function Delay(once: bool): nat { if once then 2 else 5 }

  function CommandByte(once: bool): Byte { if once then 0xF6 else 0xF0 }

  // The player begins at the order, or without SYNC_MASTER at the first sync_in after it.
  predicate Synced(cfg: Widths, once: bool, ins: seq<In>, at: nat) {
    && Delay(once) + at < |ins|
    && (if once || cfg.syncMaster then at == 0
        else at > 0 && ins[5 + at].sync && forall k :: 5 < k < 5 + at ==> !ins[k].sync)
  }

  lemma AllEnabled(cfg: Widths, d: Board, ins: seq<In>, b: Byte)
    requires M.Sized(Mem(cfg), d.m) && Commanded(d.x, d.c, b, 0) && Commands(ins, b)
    ensures Enabled(Tolds(cfg, d, ins)) && E.Undisturbed(Tolds(cfg, d, ins))
  {
    var ts := Tolds(cfg, d, ins);
    forall j | 0 <= j < |ts| ensures ts[j].outEnable && !ts[j].valid && !ts[j].ifReset {
      CommandTold(cfg, d, ins, b, j);
    }
  }

  // What the player is told by a command byte and sync_in.
  function OrdersFor(b: Byte, k: nat, sync: bool): M.Orders {
    M.Orders(k == 5 && b == 0xF0, k == 2 && b == 0xF1, k == 2 && b == 0xF6, sync)
  }

  lemma LateCommand(cfg: Widths, d: Board, ins: seq<In>, b: Byte, k: nat, ts: seq<M.In>)
    requires M.Sized(Mem(cfg), d.m) && Commanded(d.x, d.c, b, 0) && Commands(ins, b) && k < |ins| && ts == Tolds(cfg, d, ins)
    ensures (k >= 3 && ts[k - 3].start) == (k == 5 && b == 0xF0)
  {
    if k >= 3 {
      CommandTold(cfg, d, ins, b, k - 3);
    }
  }

  lemma OrderAt(cfg: Widths, d: Board, ins: seq<In>, b: Byte, k: nat, ts: seq<M.In>)
    requires M.Sized(Mem(cfg), d.m) && Unordered(d.m) && Commanded(d.x, d.c, b, 0) && Commands(ins, b) && k < |ins|
    requires ts == Tolds(cfg, d, ins)
    ensures Edges(Mem(cfg), d.m, ts)[k].o == OrdersFor(b, k, ins[k].sync)
  {
    AllEnabled(cfg, d, ins, b);
    LateCommand(cfg, d, ins, b, k, ts);
    PlayerTold(Mem(cfg), d.m, ts, k, k == 5 && b == 0xF0);
    CommandTold(cfg, d, ins, b, k);
  }

  lemma MemoryLater(cfg: M.Config, m: M.Memory, ts: seq<M.In>, i: M.In, j: M.In, k: M.In)
    requires M.Sized(cfg, m)
    ensures MemoryRun(cfg, m, ts + [i, j, k]) == Later(cfg, MemoryRun(cfg, m, ts), i, j, k)
    ensures Edges(cfg, m, ts) <= Edges(cfg, m, ts + [i, j, k])
  {
    MemoryLast(cfg, m, ts, i);
    MemoryLast(cfg, m, ts + [i], j);
    MemoryLast(cfg, m, (ts + [i]) + [j], k);
    assert ((ts + [i]) + [j]) + [k] == ts + [i, j, k];
  }

  // A run in three parts: until the order arrives, from then on, and three clocks for the RAM.
  predicate InParts(ts: seq<M.In>, a: seq<M.In>, b: seq<M.In>, i: M.In, j: M.In, k: M.In) { ts == a + (b + [i, j, k]) }

  lemma RunInParts(cfg: M.Config, m: M.Memory, n: M.Memory, ts: seq<M.In>, a: seq<M.In>, b: seq<M.In>, i: M.In, j: M.In, k: M.In)
    requires M.Sized(cfg, m) && InParts(ts, a, b, i, j, k) && n == MemoryRun(cfg, m, a)
    ensures MemoryRun(cfg, m, ts) == Later(cfg, MemoryRun(cfg, n, b), i, j, k)
    ensures Edges(cfg, m, a) + Edges(cfg, n, b) <= Edges(cfg, m, ts)
  {
    MemoryConcat(cfg, m, a, b + [i, j, k]);
    MemoryLater(cfg, n, b, i, j, k);
  }

  // The edges from the order on.
  lemma OrderedFrom(cfg: Widths, es: seq<Edge>, ins: seq<In>, once: bool, at: nat, before: seq<Edge>, later: seq<Edge>)
    requires before + later <= es && |es| == |ins| && |before| == Delay(once) && Synced(cfg, once, ins, at) && at < |later|
    requires forall k :: 0 <= k < |es| ==> es[k].o == OrdersFor(CommandByte(once), k, ins[k].sync)
    ensures NoneOrdered(before) && E.Ordered(Mem(cfg), once, later, at)
  {
    assert forall k :: 0 <= k < |before| ==> before[k] == es[k];
    assert forall k :: 0 <= k < |later| ==> later[k] == es[|before| + k];
  }

  lemma PlaysFrom(cfg: Widths, m: M.Memory, wave: M.Next, samples: seq<nat>, ts: seq<M.In>, ins: seq<In>, once: bool, at: nat,
                  a: seq<M.In>, b: seq<M.In>, i: M.In, j: M.In, k: M.In, clocks: int)
    requires M.Sized(Mem(cfg), m) && E.Holds(Mem(cfg), m, wave, samples) && Plays(m.r.p, Off(false))
    requires InParts(ts, a, b, i, j, k) && |ts| == |ins| && E.Undisturbed(a) && E.Undisturbed(b) && k.outEnable
    requires Synced(cfg, once, ins, at) && |a| == Delay(once) && at < |b| && clocks == |b| - at && E.Fitting(once, |b|, |samples|)
    requires var es := Edges(Mem(cfg), m, ts);
             forall x :: 0 <= x < |es| ==> es[x].o == OrdersFor(CommandByte(once), x, ins[x].sync)
    ensures clocks > 0 && E.ShowsTurn(MemoryRun(Mem(cfg), m, ts).a, once, clocks, samples)
  {
    var n := MemoryRun(Mem(cfg), m, a);
    RunInParts(Mem(cfg), m, n, ts, a, b, i, j, k);
    OrderedFrom(cfg, Edges(Mem(cfg), m, ts), ins, once, at, Edges(Mem(cfg), m, a), Edges(Mem(cfg), n, b));
    OffBefore(Mem(cfg), m, a);
    E.StoredStays(Mem(cfg), m, wave, samples, a);
    E.MemoryKeeps(Mem(cfg), m, a);
    E.HoldsPlays(Mem(cfg), n, wave, samples, once, b, at, i, j, k, clocks);
  }

  lemma PartsOf(ts: seq<M.In>, lo: nat, hi: nat, a: seq<M.In>, b: seq<M.In>)
    requires lo <= hi && |ts| == hi + 3 && a == ts[..lo] && b == ts[lo..hi]
    ensures InParts(ts, a, b, ts[hi], ts[hi + 1], ts[hi + 2])
    ensures E.Undisturbed(ts) ==> E.Undisturbed(a) && E.Undisturbed(b)
  {
  }

  // From the byte of the host on: a one-shot puts every sample out once, and start puts them out
  // again and again, in every clock from the order on, as E.UploadIsPlayed says of the order;
  // hi is three clocks ago.
  lemma CommandIsPlayed(cfg: Widths, d: Board, wave: M.Next, samples: seq<nat>, once: bool, ins: seq<In>, at: nat,
                        hi: nat, clocks: int)
    requires Resting(cfg, d, wave, samples) && Plays(d.m.r.p, Off(false)) && Commands(ins, CommandByte(once))
    requires |ins| == hi + 3 && clocks == hi - Delay(once) - at && clocks > 0 && Synced(cfg, once, ins, at)
    requires E.Fitting(once, hi - Delay(once), |samples|)
    ensures E.ShowsTurn(BoardRun(cfg, d, ins).m.a, once, clocks, samples)
  {
    var ts := Tolds(cfg, d, ins);
    var a, b := ts[..Delay(once)], ts[Delay(once)..hi];
    BoardMemory(cfg, d, ins);
    AllEnabled(cfg, d, ins, CommandByte(once));
    PartsOf(ts, Delay(once), hi, a, b);
    forall x | 0 <= x < |ins| ensures Edges(Mem(cfg), d.m, ts)[x].o == OrdersFor(CommandByte(once), x, ins[x].sync) {
      OrderAt(cfg, d, ins, CommandByte(once), x, ts);
    }
    PlaysFrom(cfg, d.m, wave, samples, ts, ins, once, at, a, b, ts[hi], ts[hi + 1], ts[hi + 2], clocks);
  }

  // ---- Stop ----

  predicate Halts(es: seq<Edge>, at: nat) {
    && at < |es| && es[at].o.stop && Unstopped(es[..at]) && NoneOrdered(es)
  }

  lemma HaltsAt(cfg: M.Config, es: seq<Edge>, at: nat, wave: M.Next, index: nat)
    requires Halts(es, at) && E.AllNext(es, wave) && index <= wave.last && 1 <= wave.last < cfg.n
    ensures AllPlayable(cfg, Playing(false, index, wave), es) && IdealRun(cfg, Playing(false, index, wave), es) == Off(false)
  {
    forall k | 0 <= k <= |es| ensures PlaysOrHalted(cfg, IdealRun(cfg, Playing(false, index, wave), es[..k]), wave, k <= at) {
      HaltedAfter(cfg, es, at, wave, index, k);
    }
    assert es[..|es|] == es;
  }

  predicate PlaysOrHalted(cfg: M.Config, q: Ideal, wave: M.Next, plays: bool) {
    if plays then q.Playing? && !q.once && q.wave == wave && q.index <= wave.last else q == Off(false)
  }

  lemma {:induction false} HaltedAfter(cfg: M.Config, es: seq<Edge>, at: nat, wave: M.Next, index: nat, k: nat)
    requires Halts(es, at) && E.AllNext(es, wave) && index <= wave.last && k <= |es|
    ensures PlaysOrHalted(cfg, IdealRun(cfg, Playing(false, index, wave), es[..k]), wave, k <= at)
    decreases k
  {
    if k == 0 {
    } else {
      HaltedAfter(cfg, es, at, wave, index, k - 1);
      RunSnoc(cfg, Playing(false, index, wave), es[..k]);
      assert es[..k][..k - 1] == es[..k - 1];
      if k - 1 < at {
        assert es[..at][k - 1] == es[k - 1];
      }
    }
  }

  lemma HaltsFrom(es: seq<Edge>, all: seq<Edge>, ins: seq<In>)
    requires es <= all && 3 <= |es| && |all| == |ins|
    requires forall x :: 0 <= x < |all| ==> all[x].o == OrdersFor(0xF1, x, ins[x].sync)
    ensures Halts(es, 2)
  {
    assert forall x :: 0 <= x < |es| ==> es[x] == all[x];
  }

  // The stop byte ends repeated playback: three clocks after the order reaches the player, for
  // the RAM, nothing comes out any more.
  lemma StopIsObeyed(cfg: Widths, d: Board, wave: M.Next, samples: seq<nat>, index: nat, ins: seq<In>, hi: nat)
    requires Resting(cfg, d, wave, samples) && Plays(d.m.r.p, Playing(false, index, wave)) && index <= wave.last
    requires 1 <= wave.last < Pow2(cfg.addr) && Commands(ins, 0xF1) && |ins| == hi + 3 && hi > 2
    ensures var a := BoardRun(cfg, d, ins).m.a; !a.enabled && a.data == 0
  {
    var ts := Tolds(cfg, d, ins);
    var b, i, j, k := ts[..hi], ts[hi], ts[hi + 1], ts[hi + 2];
    BoardMemory(cfg, d, ins);
    AllEnabled(cfg, d, ins, 0xF1);
    PartsOf(ts, 0, hi, [], b);
    MemoryLater(Mem(cfg), d.m, b, i, j, k);
    assert ts == b + [i, j, k];
    forall x | 0 <= x < |ins| ensures Edges(Mem(cfg), d.m, ts)[x].o == OrdersFor(0xF1, x, ins[x].sync) {
      OrderAt(cfg, d, ins, 0xF1, x, ts);
    }
    HaltsFrom(Edges(Mem(cfg), d.m, b), Edges(Mem(cfg), d.m, ts), ins);
    E.MemoryKeeps(Mem(cfg), d.m, b);
    HaltsAt(Mem(cfg), Edges(Mem(cfg), d.m, b), 2, wave, index);
    PlaybackComesOut(Mem(cfg), d.m, b, Playing(false, index, wave), i, j, k);
  }
}
