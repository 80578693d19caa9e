// From the samples the host writes to the output of the waveform generator.
module WaveEndToEnd {
  import opened Numbers
  import opened WaveUpload
  import opened WavePlayback
  import B = WaveBytes
  import C = WaveController
  import H = WaveHost
  import M = WaveMemory
  import R = WaveRuns

  // The memory after an upload, with the player idle.
  predicate Loaded(cfg: C.Widths, r: WaveUpload.Run, target: bool, m: M.Memory) {
    && WaveUpload.InStep(cfg, r, target) && r.u.mode == Finished && Settled(cfg, r.s) && !r.s.w.nextStb
    && m.w == r.s.w && m.ram == r.s.ram && m.ram2 == r.s.ram2 && m.r.next == r.s.next
    && M.Sized(Mem(cfg), m) && Plays(m.r.p, Off(false))
  }

  // Nothing is written meanwhile.
  predicate Undisturbed(ins: seq<M.In>) {
    forall i :: 0 <= i < |ins| ==> ins[i].outEnable && !ins[i].valid && !ins[i].ifReset
  }

  // The first order starts the playback with the clock at; repeated playback is not stopped. A
  // generator that is not the master waits for the first sync_in after the order.
  predicate Ordered(cfg: M.Config, once: bool, es: seq<Edge>, at: nat) {
    && at < |es|
    && (if once then at == 0 && es[0].o.oneShot
        else
          && es[0].o.start && !es[0].o.oneShot && Unstopped(es[at + 1..])
          && (if cfg.syncMaster then at == 0
              else at > 0 && es[at].o.sync && forall i :: 0 < i < at ==> !es[i].o.sync))
  }

  predicate AllNext(es: seq<Edge>, wave: M.Next) { forall i :: 0 <= i < |es| ==> es[i].next == wave }

  lemma {:induction false} MemoryKeeps(cfg: M.Config, m: M.Memory, ins: seq<M.In>)
    requires M.Sized(cfg, m) && !m.w.we && !m.w.we2 && !m.w.nextStb && Undisturbed(ins)
    ensures var n := MemoryRun(cfg, m, ins);
            && n.ram == m.ram && n.ram2 == m.ram2 && n.r.next == m.r.next && !n.w.we && !n.w.we2 && !n.w.nextStb
            && AllNext(Edges(cfg, m, ins), m.r.next)
    decreases |ins|
  {
    if |ins| == 0 {
    } else {
      MemoryKeeps(cfg, m, ins[..|ins| - 1]);
    }
  }

  // The sample that is played some clocks after the start: a one-shot plays each once, repeated
  // playback begins again after the last.
  function Turn(once: bool, clocks: nat, samples: nat): nat
    requires clocks > 0 && samples > 0
  {
    if once then clocks - 1 else (clocks - 1) % samples
  }

  // Until sync_in comes.
  lemma {:induction false} Waits(cfg: M.Config, es: seq<Edge>)
    requires forall i :: 0 <= i < |es| ==> !es[i].o.sync
    ensures IdealRun(cfg, Off(true), es) == Off(true)
    decreases |es|
  {
    if |es| == 0 {
    } else {
      Waits(cfg, es[1..]);
    }
  }

  lemma Begins(cfg: M.Config, once: bool, es: seq<Edge>, at: nat)
    requires Ordered(cfg, once, es, at)
    ensures IdealRun(cfg, Off(false), es[..at]) == Off(at > 0)
    ensures IdealRun(cfg, Off(false), es[..at + 1]) == Playing(once, 0, es[at].next)
  {
    if at > 0 {
      assert es[..at][0] == es[0];
      Waits(cfg, es[..at][1..]);
    }
    RunSnoc(cfg, Off(false), es[..at + 1]);
    assert es[..at + 1][..at] == es[..at];
  }

  // What the ideal player does after the order.
  lemma PlaysNext(cfg: M.Config, once: bool, wave: M.Next, es: seq<Edge>, at: nat)
    requires Ordered(cfg, once, es, at) && AllNext(es, wave)
    requires once ==> |es| <= wave.last + 1
    ensures IdealRun(cfg, Off(false), es) == Playing(once, Turn(once, |es| - at, wave.last + 1), wave)
  {
    Begins(cfg, once, es, at);
    RunConcat(cfg, Off(false), es[..at + 1], es[at + 1..]);
    assert es == es[..at + 1] + es[at + 1..];
    if once {
      RepetitionIsWhole(cfg, once, wave, es[at + 1..]);
    } else {
      PlaysCyclically(cfg, wave, es[at + 1..]);
    }
  }

  lemma OneShotEnds(cfg: M.Config, wave: M.Next, es: seq<Edge>)
    requires Ordered(cfg, true, es, 0) && |es| == wave.last + 2 && es[0].next == wave
    ensures IdealRun(cfg, Off(false), es) == Off(false)
  {
    RepetitionEnds(cfg, true, wave, es[1..]);
  }

  lemma BeforeTheStart(cfg: M.Config, once: bool, es: seq<Edge>, at: nat, k: nat)
    requires Ordered(cfg, once, es, at) && k <= at
    ensures IdealRun(cfg, Off(false), es[..k]).Off?
  {
    if k > 0 {
      assert es[..k][0] == es[0];
      Waits(cfg, es[..k][1..]);
    }
  }

  lemma PlaysNextPlayable(cfg: M.Config, once: bool, wave: M.Next, es: seq<Edge>, at: nat)
    requires Ordered(cfg, once, es, at) && AllNext(es, wave)
    requires wave.last < cfg.n && (if once then |es| <= wave.last + 2 else wave.last >= 1)
    ensures AllPlayable(cfg, Off(false), es)
  {
    forall k | 0 <= k <= |es| ensures Playable(cfg, IdealRun(cfg, Off(false), es[..k])) {
      if k <= at {
        BeforeTheStart(cfg, once, es, at, k);
      } else {
        assert es[..k][at + 1..] == es[at + 1..][..k - at - 1];
        if once && k == wave.last + 2 {
          OneShotEnds(cfg, wave, es[..k]);
        } else {
          PlaysNext(cfg, once, wave, es[..k], at);
        }
      }
    }
  }

  // The samples of a waveform are in its buffer.
  predicate Stores(cfg: M.Config, m: M.Memory, wave: M.Next, samples: seq<nat>) {
    |samples| == wave.last + 1 <= |RamOf(cfg, m, wave.buffer)| && RamOf(cfg, m, wave.buffer)[..|samples|] == samples
  }

  // What the player finds: the last address, the buffer, the samples.
  predicate Holds(cfg: M.Config, m: M.Memory, wave: M.Next, samples: seq<nat>) {
    && !m.w.we && !m.w.we2 && !m.w.nextStb && m.r.next == wave
    && Stores(cfg, m, wave, samples)
  }

  lemma StoredStays(cfg: M.Config, m: M.Memory, wave: M.Next, samples: seq<nat>, ins: seq<M.In>)
    requires M.Sized(cfg, m) && Holds(cfg, m, wave, samples) && Undisturbed(ins)
    ensures Stores(cfg, MemoryRun(cfg, m, ins), wave, samples) && AllNext(Edges(cfg, m, ins), wave)
  {
    MemoryKeeps(cfg, m, ins);
  }

  lemma LoadedHolds(cfg: C.Widths, r: WaveUpload.Run, target: bool, m: M.Memory)
    requires Loaded(cfg, r, target, m)
    ensures Holds(Mem(cfg), m, M.Next(r.u.last, target), r.u.samples)
  {
    UploadComplete(cfg, r, target);
  }

  // The output shows the sample whose turn it is; after the last sample of a one-shot, nothing.
  predicate ShowsTurn(a: M.Align, once: bool, clocks: nat, samples: seq<nat>)
    requires clocks > 0 && |samples| > 0 && (once ==> clocks <= |samples| + 1)
  {
    if once && clocks == |samples| + 1 then !a.enabled && a.data == 0
    else
      var k := Turn(once, clocks, |samples|);
      a.enabled && a.first == (k == 0) && a.data == samples[k]
  }

  // What the ideal player is at.
  function Played(once: bool, clocks: nat, wave: M.Next): Ideal
    requires clocks > 0
  {
    if once && clocks == wave.last + 2 then Off(false) else Playing(once, Turn(once, clocks, wave.last + 1), wave)
  }

  lemma PlaysTurn(cfg: M.Config, once: bool, wave: M.Next, es: seq<Edge>, at: nat)
    requires Ordered(cfg, once, es, at) && AllNext(es, wave)
    requires once ==> |es| <= wave.last + 2
    ensures IdealRun(cfg, Off(false), es) == Played(once, |es| - at, wave)
  {
    if once && |es| == wave.last + 2 {
      OneShotEnds(cfg, wave, es);
    } else {
      PlaysNext(cfg, once, wave, es, at);
    }
  }

  lemma ShownTurn(cfg: M.Config, a: M.Align, m: M.Memory, once: bool, clocks: nat, wave: M.Next, samples: seq<nat>)
    requires M.Sized(cfg, m) && clocks > 0 && (once ==> clocks <= |samples| + 1) && Shows(cfg, a, m, Played(once, clocks, wave))
    requires Stores(cfg, m, wave, samples)
    ensures ShowsTurn(a, once, clocks, samples)
  {
    if !(once && clocks == |samples| + 1) {
      var turn := Turn(once, clocks, |samples|);
      assert RamOf(cfg, m, wave.buffer)[..|samples|][turn] == samples[turn];
    }
  }

  predicate Fitting(once: bool, clocks: nat, samples: nat) { if once then clocks <= samples + 1 else samples >= 2 }

  lemma TurnsPlayable(cfg: M.Config, m: M.Memory, wave: M.Next, samples: seq<nat>, once: bool, ins: seq<M.In>, at: nat)
    requires M.Sized(cfg, m) && Holds(cfg, m, wave, samples) && Undisturbed(ins)
    requires Ordered(cfg, once, Edges(cfg, m, ins), at) && Fitting(once, |ins|, |samples|)
    ensures AllPlayable(cfg, Off(false), Edges(cfg, m, ins))
  {
    MemoryKeeps(cfg, m, ins);
    PlaysNextPlayable(cfg, once, wave, Edges(cfg, m, ins), at);
  }

  lemma TurnShown(cfg: M.Config, a: M.Align, n: M.Memory, es: seq<Edge>, wave: M.Next, samples: seq<nat>, once: bool, at: nat,
                  clocks: int)
    requires M.Sized(cfg, n) && clocks == |es| - at && Ordered(cfg, once, es, at) && AllNext(es, wave) && Fitting(once, |es|, |samples|)
    requires Stores(cfg, n, wave, samples) && Shows(cfg, a, n, IdealRun(cfg, Off(false), es))
    ensures clocks > 0 && ShowsTurn(a, once, clocks, samples)
  {
    PlaysTurn(cfg, once, wave, es, at);
    ShownTurn(cfg, a, n, once, clocks, wave, samples);
  }

  lemma HeldTurnShown(cfg: M.Config, a: M.Align, m: M.Memory, wave: M.Next, samples: seq<nat>, once: bool, ins: seq<M.In>, at: nat,
                      n: M.Memory, es: seq<Edge>, clocks: int)
    requires M.Sized(cfg, m) && Holds(cfg, m, wave, samples) && Undisturbed(ins)
    requires n == MemoryRun(cfg, m, ins) && es == Edges(cfg, m, ins) && |es| == |ins| && clocks == |es| - at
    requires Ordered(cfg, once, es, at) && Fitting(once, |es|, |samples|) && Shows(cfg, a, n, IdealRun(cfg, Off(false), es))
    ensures clocks > 0 && ShowsTurn(a, once, clocks, samples)
  {
    StoredStays(cfg, m, wave, samples, ins);
    TurnShown(cfg, a, n, es, wave, samples, once, at, clocks);
  }

  lemma HoldsPlays(cfg: M.Config, m: M.Memory, wave: M.Next, samples: seq<nat>, once: bool, ins: seq<M.In>, at: nat,
                   i: M.In, j: M.In, k: M.In, clocks: int)
    requires M.Sized(cfg, m) && Holds(cfg, m, wave, samples) && Plays(m.r.p, Off(false)) && clocks == |ins| - at
    requires Undisturbed(ins) && k.outEnable && Ordered(cfg, once, Edges(cfg, m, ins), at) && Fitting(once, |ins|, |samples|)
    ensures clocks > 0 && ShowsTurn(Later(cfg, MemoryRun(cfg, m, ins), i, j, k).a, once, clocks, samples)
  {
    TurnsPlayable(cfg, m, wave, samples, once, ins, at);
    PlaybackComesOut(cfg, m, ins, Off(false), i, j, k);
    HeldTurnShown(cfg, Later(cfg, MemoryRun(cfg, m, ins), i, j, k).a, m, wave, samples, once, ins, at,
                  MemoryRun(cfg, m, ins), Edges(cfg, m, ins), clocks);
  }

  // A one-shot puts the samples of the upload out once, each in its clock, and then nothing;
  // repeated playback of at least two samples puts them out again and again. The output is
  // three clocks behind, for the RAM, and first_sample marks sample 0.
  lemma UploadIsPlayed(cfg: C.Widths, r: WaveUpload.Run, target: bool, m: M.Memory, once: bool, ins: seq<M.In>, at: nat,
                       i: M.In, j: M.In, k: M.In)
    requires Loaded(cfg, r, target, m) && Undisturbed(ins) && k.outEnable && Ordered(Mem(cfg), once, Edges(Mem(cfg), m, ins), at)
    requires |r.u.samples| > 0 && Fitting(once, |ins|, |r.u.samples|)
    ensures ShowsTurn(Later(Mem(cfg), MemoryRun(Mem(cfg), m, ins), i, j, k).a, once, |ins| - at, r.u.samples)
  {
    LoadedHolds(cfg, r, target, m);
    HoldsPlays(Mem(cfg), m, M.Next(r.u.last, target), r.u.samples, once, ins, at, i, j, k, |ins| - at);
  }

  // ---- From the samples of a program ----

  function Residue(bits: nat, v: int): nat { v % Pow2(bits) }

  function Residues(bits: nat, vs: seq<int>): (f: seq<nat>)
    ensures |f| == |vs| && forall i :: 0 <= i < |vs| ==> f[i] == vs[i] % Pow2(bits)
  {
    seq(|vs|, i requires 0 <= i < |vs| => Residue(bits, vs[i]))
  }

  lemma SamplesAreResidues(bits: nat, vs: seq<int>)
    requires 0 < bits <= 64
    ensures B.Fields(bits, H.AllSampleBytes(bits, vs)) == Residues(bits, vs)
  {
    forall i | 0 <= i < |vs| ensures B.Fields(bits, H.AllSampleBytes(bits, vs))[i] == vs[i] % Pow2(bits) {
      H.SampleField(bits, vs[i]);
    }
  }

  // The bytes of H.WriteSamples, going through the clocked escaping stage at any time and with
  // any behaviour of the uplink, leave sample i modulo 2**DATA_WIDTH at address i.
  lemma WrittenSamplesAreStored(cfg: C.Widths, r: R.Total, ins: seq<R.In>, u: Upload, target: bool, vs: seq<int>)
    requires InStep(cfg, Run(r.x.s, u, r.out), target) && u.mode == Ready && Fits(cfg) && cfg.data <= 64
    requires !r.x.stage.reset && !r.x.stage.valid && !r.x.stage.escaping && 0 < |vs| <= Pow2(cfg.addr)
    requires R.Offered(ins) == B.UploadEscaped(cfg, H.AllSampleBytes(cfg.data, vs)) && !R.FullRun(cfg, r, ins).x.stage.valid
    ensures var s := R.FullRun(cfg, r, ins).x.s;
            Settled(cfg, s) ==>
              && |TargetRam(cfg, s, target)| >= |vs| && TargetRam(cfg, s, target)[..|vs|] == Residues(cfg.data, vs)
              && s.w.next == M.Next(|vs| - 1, target) && OtherRam(cfg, s, target) == OtherRam(cfg, r.x.s, target)
  {
    R.EscapedUpload(cfg, r, ins, u, target, H.AllSampleBytes(cfg.data, vs));
    SamplesAreResidues(cfg.data, vs);
  }

  // The memory that is played from holds what a run has written, with the player idle.
  predicate Plugged(cfg: C.Widths, s: Side, m: M.Memory) {
    && Settled(cfg, s) && !s.w.nextStb
    && m.w == s.w && m.ram == s.ram && m.ram2 == s.ram2 && m.r.next == s.next
    && M.Sized(Mem(cfg), m) && Plays(m.r.p, Off(false))
  }

  // And these are the samples that come out.
  lemma WrittenSamplesArePlayed(cfg: C.Widths, r: R.Total, ins: seq<R.In>, u: Upload, target: bool, vs: seq<int>,
                                m: M.Memory, once: bool, orders: seq<M.In>, at: nat, i: M.In, j: M.In, k: M.In)
    requires InStep(cfg, Run(r.x.s, u, r.out), target) && u.mode == Ready && Fits(cfg) && cfg.data <= 64
    requires !r.x.stage.reset && !r.x.stage.valid && !r.x.stage.escaping && 0 < |vs| <= Pow2(cfg.addr)
    requires R.Offered(ins) == B.UploadEscaped(cfg, H.AllSampleBytes(cfg.data, vs)) && !R.FullRun(cfg, r, ins).x.stage.valid
    requires Plugged(cfg, R.FullRun(cfg, r, ins).x.s, m)
    requires Undisturbed(orders) && k.outEnable && Ordered(Mem(cfg), once, Edges(Mem(cfg), m, orders), at)
    requires Fitting(once, |orders|, |vs|)
    ensures ShowsTurn(Later(Mem(cfg), MemoryRun(Mem(cfg), m, orders), i, j, k).a, once, |orders| - at, Residues(cfg.data, vs))
  {
    R.EscapedUpload(cfg, r, ins, u, target, H.AllSampleBytes(cfg.data, vs));
    SamplesAreResidues(cfg.data, vs);
    UploadIsPlayed(cfg, RunAll(cfg, Run(r.x.s, u, r.out), R.Seen(r.x.stage, ins)), target, m, once, orders, at, i, j, k);
  }
}
