// What the waveform generator answers to the commands for its sizes and its status, under any
// behaviour of the uplink.
module WaveAnswers {
  import opened Bytes
  import opened Numbers
  import opened WaveController
  import opened WaveUpload

  // No byte comes.
  predicate Silent(ps: seq<Pins>) { forall i :: 0 <= i < |ps| ==> !ps[i].valid }

  function After(cfg: Widths, c: Controller, ps: seq<Pins>): Controller
    decreases |ps|
  {
    if |ps| == 0 then c else After(cfg, ControllerStep(cfg, c, ps[0]), ps[1..])
  }

  // The bytes that the uplink takes.
  function Sent(cfg: Widths, c: Controller, ps: seq<Pins>): seq<Byte>
    decreases |ps|
  {
    if |ps| == 0 then [] else Delivered(c.t, ps[0]) + Sent(cfg, ControllerStep(cfg, c, ps[0]), ps[1..])
  }

  // What the controller still has to put into the output register, if enabled does not change.
  function Owed(cfg: Widths, f: Fsm, enabled: bool): seq<Byte> {
    match f.state
    case ReturnSizes =>
      if f.sizeCounter < 4 then ToBytes(4 - f.sizeCounter, f.sizes) + ToBytes(4, cfg.addr)
      else if f.sizeCounter < 8 then ToBytes(8 - f.sizeCounter, f.sizes)
      else []
    case ReturnStatus => [(if enabled then 1 else 0) + (if cfg.double then 2 else 0)]
    case _ => []
  }

  predicate Answering(f: Fsm) { f.state == Init || f.state == ReturnStatus || (f.state == ReturnSizes && f.sizeCounter < 8) }

  lemma OwedStep(cfg: Widths, c: Controller, p: Pins)
    requires Answering(c.f) && !p.valid
    ensures var n := ControllerStep(cfg, c, p);
            Answering(n.f) && Puts(cfg, c, p) + Owed(cfg, n.f, p.enabled) == Owed(cfg, c.f, p.enabled)
  {
    if c.f.state == ReturnSizes && UpFree(c.t, p) {
      var s := c.f.sizeCounter;
      if s < 4 {
        assert ToBytes(4 - s, c.f.sizes) == [c.f.sizes % 256] + ToBytes(3 - s, c.f.sizes / 256);
        if s == 3 {
          assert ToBytes(0, c.f.sizes / 256) == [];
        }
      } else {
        assert ToBytes(8 - s, c.f.sizes) == [c.f.sizes % 256] + ToBytes(7 - s, c.f.sizes / 256);
      }
    }
  }

  predicate Steady(ps: seq<Pins>, enabled: bool) { forall i :: 0 <= i < |ps| ==> ps[i].enabled == enabled }

  // Sent, in the output register and owed: together always the same bytes.
  lemma {:induction false} AnswerConserved(cfg: Widths, c: Controller, ps: seq<Pins>, enabled: bool)
    requires Answering(c.f) && Silent(ps) && Steady(ps, enabled)
    ensures var n := After(cfg, c, ps);
            Answering(n.f) && (Sent(cfg, c, ps) + Up(n.t)) + Owed(cfg, n.f, enabled) == Up(c.t) + Owed(cfg, c.f, enabled)
    decreases |ps|
  {
    if |ps| == 0 {
      assert [] + Up(c.t) == Up(c.t);
    } else {
      var p, d := ps[0], ControllerStep(cfg, c, ps[0]);
      OwedStep(cfg, c, p);
      PutsGoUp(cfg, c, p);
      AnswerConserved(cfg, d, ps[1..], enabled);
      var n := After(cfg, d, ps[1..]);
      Join(Delivered(c.t, p), Sent(cfg, d, ps[1..]), Up(n.t), Owed(cfg, n.f, enabled), Up(d.t), Owed(cfg, d.f, enabled),
           Up(c.t), Puts(cfg, c, p), Owed(cfg, c.f, enabled));
    }
  }

  lemma Join(first: seq<Byte>, rest: seq<Byte>, up: seq<Byte>, owed: seq<Byte>, upNext: seq<Byte>, owedNext: seq<Byte>,
             before: seq<Byte>, puts: seq<Byte>, all: seq<Byte>)
    requires (rest + up) + owed == upNext + owedNext && first + upNext == before + puts && puts + owedNext == all
    ensures ((first + rest) + up) + owed == before + all
  {
    assert ((first + rest) + up) + owed == first + ((rest + up) + owed);
    assert first + (upNext + owedNext) == (first + upNext) + owedNext;
    assert (before + puts) + owedNext == before + (puts + owedNext);
  }

  // The command byte 0xF2 is answered by DATA_WIDTH and ADDR_WIDTH, four bytes each, and 0xF5 by
  // one byte with the bits enabled and DOUBLE_BUFFER: when the controller is back in init, that
  // and no more has been sent or is in the output register, behind what was there before.
  lemma Answered(cfg: Widths, c: Controller, p: Pins, ps: seq<Pins>, enabled: bool)
    requires c.f.state == Init && p.valid && (p.b == 0xF2 || p.b == 0xF5) && Silent(ps) && Steady(ps, enabled)
    ensures var n := After(cfg, c, [p] + ps);
            n.f.state == Init ==>
              Sent(cfg, c, [p] + ps) + Up(n.t)
              == Up(c.t) + if p.b == 0xF2 then ToBytes(4, cfg.data) + ToBytes(4, cfg.addr)
                           else [(if enabled then 1 else 0) + (if cfg.double then 2 else 0)]
  {
    var d := ControllerStep(cfg, c, p);
    var n := After(cfg, d, ps);
    assert ([p] + ps)[1..] == ps;
    PutsGoUp(cfg, c, p);
    AnswerConserved(cfg, d, ps, enabled);
    Join(Delivered(c.t, p), Sent(cfg, d, ps), Up(n.t), Owed(cfg, n.f, enabled), Up(d.t), Owed(cfg, d.f, enabled),
         Up(c.t), [], Owed(cfg, d.f, enabled));
    if n.f.state == Init {
      assert ((Delivered(c.t, p) + Sent(cfg, d, ps)) + Up(n.t)) + [] == (Delivered(c.t, p) + Sent(cfg, d, ps)) + Up(n.t);
    }
  }

  function Left(f: Fsm): int {
    if f.state == ReturnSizes then 8 - f.sizeCounter else if f.state == ReturnStatus then 1 else 0
  }

  // And it is back there after eight edges at which the uplink is ready.
  lemma {:induction false} AnswersSoon(cfg: Widths, c: Controller, ps: seq<Pins>)
    requires Answering(c.f) && Silent(ps) && (forall i :: 0 <= i < |ps| ==> ps[i].upReady) && |ps| >= Left(c.f)
    ensures After(cfg, c, ps).f.state == Init
    decreases |ps|
  {
    if |ps| == 0 {
    } else {
      AnswersSoon(cfg, ControllerStep(cfg, c, ps[0]), ps[1..]);
    }
  }

  // ---- The alive messages of an upload ----

  // While the samples come in, one alive message for every 64 bytes; the last byte has the final
  // answer instead.
  predicate Exact(u: Upload, state: State, q: seq<Byte>) {
    match u.mode
    case Writing => u.timeout < 64 && Alive(q, u.rounds) && |q| == u.rounds
    case Finished =>
      && Total(u) > 0 && u.timeout < 64
      && (if state == Init then |q| == MostAlive(u) + 1 && q[|q| - 1] == DONE && Alive(q[..|q| - 1], MostAlive(u))
          else |q| == MostAlive(u) && Alive(q, MostAlive(u)))
    case _ => q == []
  }

  lemma ExactWriting(cfg: Widths, s: Side, u: Upload, p: Pins, target: bool, q: seq<Byte>)
    requires Rel(cfg, s, u, target) && p.upReady && u.mode == Writing && Exact(u, s.c.f.state, q)
    ensures Exact(UploadStep(cfg, u, p), SideStep(cfg, s, p).c.f.state, q + Puts(cfg, s.c, p))
  {
    WritingFsm(cfg, s, u, p, target);
    if Puts(cfg, s.c, p) == [] {
      assert q + [] == q;
    }
  }

  lemma ExactFinished(cfg: Widths, s: Side, u: Upload, p: Pins, target: bool, q: seq<Byte>)
    requires Rel(cfg, s, u, target) && Expected(u, p) && p.upReady && u.mode == Finished && Exact(u, s.c.f.state, q)
    ensures Exact(UploadStep(cfg, u, p), SideStep(cfg, s, p).c.f.state, q + Puts(cfg, s.c, p))
  {
    var put := Puts(cfg, s.c, p);
    if put == [DONE] {
      assert (q + put)[..|q + put| - 1] == q;
    } else {
      assert q + put == q;
    }
  }

  lemma ExactStep(cfg: Widths, s: Side, u: Upload, p: Pins, target: bool, q: seq<Byte>)
    requires Rel(cfg, s, u, target) && Expected(u, p) && p.upReady && Exact(u, s.c.f.state, q)
    ensures Exact(UploadStep(cfg, u, p), SideStep(cfg, s, p).c.f.state, q + Puts(cfg, s.c, p))
  {
    match u.mode
    case Writing => ExactWriting(cfg, s, u, p, target, q);
    case Finished => ExactFinished(cfg, s, u, p, target, q);
    case _ => assert q + [] == q;
  }

  lemma GoExact(cfg: Widths, r: Run, p: Pins, target: bool)
    requires InStep(cfg, r, target) && Expected(r.u, p) && p.upReady && Exact(r.u, r.s.c.f.state, r.out + Up(r.s.c.t))
    ensures var n := Go(cfg, r, p); Exact(n.u, n.s.c.f.state, n.out + Up(n.s.c.t))
  {
    ExactStep(cfg, r.s, r.u, p, target, r.out + Up(r.s.c.t));
    PutsGoUp(cfg, r.s.c, p);
    Conveyed(r.out, Up(r.s.c.t), Puts(cfg, r.s.c, p), Delivered(r.s.c.t, p), Up(SideStep(cfg, r.s, p).c.t));
  }

  // With an uplink that is always ready, the host gets exactly one alive message for every 64
  // bytes of the samples but the last, and then the final answer.
  lemma {:induction false} AliveExactly(cfg: Widths, r: Run, ps: seq<Pins>, target: bool)
    requires InStep(cfg, r, target) && AllExpected(cfg, r.u, ps) && Exact(r.u, r.s.c.f.state, r.out + Up(r.s.c.t))
    requires forall i :: 0 <= i < |ps| ==> ps[i].upReady
    ensures var n := RunAll(cfg, r, ps); Exact(n.u, n.s.c.f.state, n.out + Up(n.s.c.t))
    decreases |ps|
  {
    if |ps| == 0 {
    } else {
      GoInStep(cfg, r, ps[0], target);
      GoExact(cfg, r, ps[0], target);
      AliveExactly(cfg, Go(cfg, r, ps[0]), ps[1..], target);
    }
  }
}
