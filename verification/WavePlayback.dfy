// What WaveformGeneratorMemory plays, with a sample in every clock (data_out_enable = '1').
module WavePlayback {
  import opened Numbers
  import opened WaveMemory

  // ---- An ideal player ----

  datatype Ideal = Off(waiting: bool) | Playing(once: bool, index: nat, wave: Next)

  // Samples 0 .. last of one waveform, once or again and again; a new waveform is only taken
  // up between two repetitions, and stop ends the playback at once.
  function IdealStep(cfg: Config, s: Ideal, next: Next, o: Orders): Ideal {
    match s
    case Off(waiting) =>
      if waiting then if o.sync then Playing(false, 0, next) else s
      else if o.oneShot then Playing(true, 0, next)
      else if !o.start then s
      else if cfg.syncMaster then Playing(false, 0, next)
      else Off(true)
    case Playing(once, index, wave) =>
      if !once && o.stop then Off(false)
      else if index < wave.last then Playing(once, index + 1, wave)
      else if once then Off(false)
      else Playing(false, 0, next)
  }

  // Repeated playback takes at least two samples.
  predicate Playable(cfg: Config, s: Ideal) {
    s.Playing? ==> s.index <= s.wave.last < cfg.n && (!s.once ==> s.wave.last >= 1)
  }

  // sync_out announces the last sample one address ahead.
  predicate Plays(p: Player, s: Ideal) {
    match s
    case Off(waiting) => p.state == (if waiting then WaitSync else Idle) && !p.enable
    case Playing(once, index, wave) =>
      && p.state == (if once then OneShot else Running) && p.enable
      && p.address == index && p.last == wave.last && p.buffer == wave.buffer
      && p.first == (index == 0)
      && p.syncOut == (!once && index == wave.last)
  }

  lemma PlayerFollows(cfg: Config, p: Player, s: Ideal, next: Next, o: Orders)
    requires p.address < cfg.n && Plays(p, s) && Playable(cfg, s) && Playable(cfg, IdealStep(cfg, s, next, o))
    ensures Plays(PlayStep(cfg, p, next, o), IdealStep(cfg, s, next, o))
  {
  }

  // With a single sample the comparison one address ahead fails: repeated playback starts with
  // sample 0 and goes on to address 1. So for repeated playback, the second address is the
  // ideal one exactly when there are at least two samples.
  lemma OneSampleRunsOn(cfg: Config, p: Player, next: Next, o: Orders)
    requires cfg.n >= 2 && !o.stop && p.last < cfg.n
    requires p.state == Running && p.enable && p.address == 0 && p.first && !p.syncOut
    ensures var q := PlayStep(cfg, p, next, o);
            Plays(q, IdealStep(cfg, Playing(false, 0, Next(p.last, p.buffer)), next, o)) <==> p.last >= 1
    ensures PlayStep(cfg, p, next, o).address == 1
  {
  }

  // A stop that meets the last sample of a repetition, and nothing else, leaves a first_sample
  // behind with nothing playing.
  predicate StopsAtTheEnd(s: Ideal, o: Orders) { s.Playing? && !s.once && s.index == s.wave.last && o.stop }

  lemma FirstWithoutSample(cfg: Config, p: Player, s: Ideal, next: Next, o: Orders)
    requires p.address < cfg.n && Plays(p, s) && Playable(cfg, s)
    ensures var q := PlayStep(cfg, p, next, o);
            q.first && !q.enable <==> StopsAtTheEnd(s, o)
  {
  }

  // ---- Whole repetitions ----

  datatype Edge = Edge(next: Next, o: Orders)

  function IdealRun(cfg: Config, s: Ideal, es: seq<Edge>): Ideal
    decreases |es|
  {
    if |es| == 0 then s else IdealRun(cfg, IdealStep(cfg, s, es[0].next, es[0].o), es[1..])
  }

  lemma {:induction false} RunSnoc(cfg: Config, s: Ideal, es: seq<Edge>)
    requires |es| > 0
    ensures IdealRun(cfg, s, es) == IdealStep(cfg, IdealRun(cfg, s, es[..|es| - 1]), es[|es| - 1].next, es[|es| - 1].o)
    decreases |es|
  {
    if |es| == 1 {
    } else {
      RunSnoc(cfg, IdealStep(cfg, s, es[0].next, es[0].o), es[1..]);
      assert es[1..][..|es| - 2] == es[..|es| - 1][1..];
    }
  }

  predicate Unstopped(es: seq<Edge>) { forall i :: 0 <= i < |es| ==> !es[i].o.stop }

  // Whatever is written meanwhile, a repetition plays its own waveform from the first to the
  // last sample.
  lemma {:induction false} RepetitionIsWhole(cfg: Config, once: bool, wave: Next, es: seq<Edge>)
    requires |es| <= wave.last && (once || Unstopped(es))
    ensures IdealRun(cfg, Playing(once, 0, wave), es) == Playing(once, |es|, wave)
    decreases |es|
  {
    if |es| == 0 {
    } else {
      RepetitionIsWhole(cfg, once, wave, es[..|es| - 1]);
      RunSnoc(cfg, Playing(once, 0, wave), es);
    }
  }

  // The next repetition takes the waveform that is next at that moment; a one-shot ends.
  lemma RepetitionEnds(cfg: Config, once: bool, wave: Next, es: seq<Edge>)
    requires |es| == wave.last + 1 && (once || Unstopped(es))
    ensures IdealRun(cfg, Playing(once, 0, wave), es) == if once then Off(false) else Playing(false, 0, es[wave.last].next)
  {
    RepetitionIsWhole(cfg, once, wave, es[..wave.last]);
    RunSnoc(cfg, Playing(once, 0, wave), es);
    assert es[..|es| - 1] == es[..wave.last];
  }

  // So an unchanged waveform is repeated with period last + 1, until stop.
  lemma {:induction false} PlaysCyclically(cfg: Config, wave: Next, es: seq<Edge>)
    requires Unstopped(es) && forall i :: 0 <= i < |es| ==> es[i].next == wave
    ensures IdealRun(cfg, Playing(false, 0, wave), es) == Playing(false, |es| % (wave.last + 1), wave)
    decreases |es|
  {
    var length := wave.last + 1;
    if |es| < length {
      RepetitionIsWhole(cfg, false, wave, es);
      ModIs(|es|, length, 0, |es|);
    } else {
      RepetitionEnds(cfg, false, wave, es[..length]);
      RunConcat(cfg, Playing(false, 0, wave), es[..length], es[length..]);
      assert es == es[..length] + es[length..];
      PlaysCyclically(cfg, wave, es[length..]);
      ModAddMultiple(|es| - length, 1, length);
    }
  }

  lemma {:induction false} RunConcat(cfg: Config, s: Ideal, a: seq<Edge>, b: seq<Edge>)
    ensures IdealRun(cfg, s, a + b) == IdealRun(cfg, IdealRun(cfg, s, a), b)
    decreases |a|
  {
    if |a| == 0 {
      assert a + b == b;
    } else {
      RunConcat(cfg, IdealStep(cfg, s, a[0].next, a[0].o), a[1..], b);
      assert (a + b)[1..] == a[1..] + b;
    }
  }

  // ---- The outputs, three clocks behind the address ----

  function RamOf(cfg: Config, m: Memory, buffer: bool): seq<nat> { if Second(cfg, buffer) then m.ram2 else m.ram }

  predicate Outputs(cfg: Config, a: Align, p: Player, ram: seq<nat>)
    requires p.address < |ram|
  {
    a.enabled == p.enable && a.first == p.first && a.data == if p.enable then ram[p.address] else 0
  }

  // The registers that go with the sample wait exactly as long as the RAM needs.
  lemma OutputsAreAligned(cfg: Config, m: Memory, i: In, j: In, k: In)
    requires Sized(cfg, m) && k.outEnable
    ensures Outputs(cfg, MemoryStep(cfg, MemoryStep(cfg, MemoryStep(cfg, m, i), j), k).a, m.r.p, RamOf(cfg, m, m.r.p.buffer))
  {
  }

  function MemoryRun(cfg: Config, m: Memory, ins: seq<In>): (n: Memory)
    requires Sized(cfg, m)
    ensures Sized(cfg, n)
    decreases |ins|
  {
    if |ins| == 0 then m else MemoryStep(cfg, MemoryRun(cfg, m, ins[..|ins| - 1]), ins[|ins| - 1])
  }

  // What the player is told at an edge.
  function EdgeOf(m: Memory, i: In): Edge { Edge(m.r.next, OrdersOf(m.r.latched, m.w, i)) }

  function Edges(cfg: Config, m: Memory, ins: seq<In>): (es: seq<Edge>)
    requires Sized(cfg, m)
    ensures |es| == |ins|
    decreases |ins|
  {
    if |ins| == 0 then []
    else Edges(cfg, m, ins[..|ins| - 1]) + [EdgeOf(MemoryRun(cfg, m, ins[..|ins| - 1]), ins[|ins| - 1])]
  }

  lemma MemoryLast(cfg: Config, m: Memory, a: seq<In>, i: In)
    requires Sized(cfg, m)
    ensures MemoryRun(cfg, m, a + [i]) == MemoryStep(cfg, MemoryRun(cfg, m, a), i)
    ensures Edges(cfg, m, a + [i]) == Edges(cfg, m, a) + [EdgeOf(MemoryRun(cfg, m, a), i)]
  {
    assert (a + [i])[..|a|] == a;
  }

  predicate AllPlayable(cfg: Config, s: Ideal, es: seq<Edge>) {
    forall k :: 0 <= k <= |es| ==> Playable(cfg, IdealRun(cfg, s, es[..k]))
  }

  predicate Enabled(ins: seq<In>) { forall i :: 0 <= i < |ins| ==> ins[i].outEnable }

  lemma PlayableBefore(cfg: Config, s: Ideal, es: seq<Edge>, e: Edge)
    requires AllPlayable(cfg, s, es + [e])
    ensures AllPlayable(cfg, s, es) && Playable(cfg, IdealRun(cfg, s, es)) && Playable(cfg, IdealRun(cfg, s, es + [e]))
  {
    var all := es + [e];
    assert forall k :: 0 <= k <= |es| ==> all[..k] == es[..k];
    assert all[..|all|] == all && es[..|es|] == es;
    assert Playable(cfg, IdealRun(cfg, s, all[..|all|])) && Playable(cfg, IdealRun(cfg, s, all[..|es|]));
  }

  // For every run, with uploads going on or not: the player is the ideal one.
  lemma {:induction false} RunFollows(cfg: Config, m: Memory, ins: seq<In>, s: Ideal)
    requires Sized(cfg, m) && Plays(m.r.p, s) && Enabled(ins) && AllPlayable(cfg, s, Edges(cfg, m, ins))
    ensures Plays(MemoryRun(cfg, m, ins).r.p, IdealRun(cfg, s, Edges(cfg, m, ins)))
    decreases |ins|
  {
    if |ins| == 0 {
    } else {
      var k := |ins| - 1;
      var before, last := Edges(cfg, m, ins[..k]), EdgeOf(MemoryRun(cfg, m, ins[..k]), ins[k]);
      var es := before + [last];
      PlayableBefore(cfg, s, before, last);
      RunFollows(cfg, m, ins[..k], s);
      assert es[..|es| - 1] == before;
      RunSnoc(cfg, s, es);
      PlayerFollows(cfg, MemoryRun(cfg, m, ins[..k]).r.p, IdealRun(cfg, s, before), last.next, last.o);
    }
  }

  function Later(cfg: Config, m: Memory, i: In, j: In, k: In): Memory
    requires Sized(cfg, m)
  {
    MemoryStep(cfg, MemoryStep(cfg, MemoryStep(cfg, m, i), j), k)
  }

  predicate Shows(cfg: Config, a: Align, m: Memory, played: Ideal) {
    if played.Off? then !a.enabled && a.data == 0
    else
      && a.enabled && a.first == (played.index == 0)
      && played.index < |RamOf(cfg, m, played.wave.buffer)| && a.data == RamOf(cfg, m, played.wave.buffer)[played.index]
  }

  // At every clock the outputs are sample, first_sample and output_active of the ideal player
  // three clocks before.
  lemma PlaybackComesOut(cfg: Config, m: Memory, ins: seq<In>, s: Ideal, i: In, j: In, k: In)
    requires Sized(cfg, m) && Plays(m.r.p, s) && Enabled(ins) && AllPlayable(cfg, s, Edges(cfg, m, ins)) && k.outEnable
    ensures var n := MemoryRun(cfg, m, ins);
            Shows(cfg, Later(cfg, n, i, j, k).a, n, IdealRun(cfg, s, Edges(cfg, m, ins)))
  {
    var n, es := MemoryRun(cfg, m, ins), Edges(cfg, m, ins);
    RunFollows(cfg, m, ins, s);
    OutputsAreAligned(cfg, n, i, j, k);
    assert es[..|es|] == es && Playable(cfg, IdealRun(cfg, s, es[..|es|]));
    OutputsShow(cfg, Later(cfg, n, i, j, k).a, n, IdealRun(cfg, s, es));
  }

  lemma OutputsShow(cfg: Config, a: Align, m: Memory, played: Ideal)
    requires Sized(cfg, m) && Plays(m.r.p, played) && Playable(cfg, played) && Outputs(cfg, a, m.r.p, RamOf(cfg, m, m.r.p.buffer))
    ensures Shows(cfg, a, m, played)
  {
  }

  // On the outputs: first_sample without output_active four clocks after a stop that met the
  // last sample of a repetition, and at no other time.
  lemma FirstWithoutSampleComesOut(cfg: Config, m: Memory, ins: seq<In>, s: Ideal, x: In, i: In, j: In, k: In)
    requires Sized(cfg, m) && Plays(m.r.p, s) && Enabled(ins) && x.outEnable && k.outEnable
    requires AllPlayable(cfg, s, Edges(cfg, m, ins))
    ensures var n := MemoryRun(cfg, m, ins);
            var a := Later(cfg, MemoryStep(cfg, n, x), i, j, k).a;
            a.first && !a.enabled <==> StopsAtTheEnd(IdealRun(cfg, s, Edges(cfg, m, ins)), EdgeOf(n, x).o)
  {
    var n, es := MemoryRun(cfg, m, ins), Edges(cfg, m, ins);
    RunFollows(cfg, m, ins, s);
    assert es[..|es|] == es && Playable(cfg, IdealRun(cfg, s, es[..|es|]));
    FirstWithoutSample(cfg, n.r.p, IdealRun(cfg, s, es), n.r.next, EdgeOf(n, x).o);
    OutputsAreAligned(cfg, MemoryStep(cfg, n, x), i, j, k);
  }

  // Nothing is written to this buffer.
  predicate WritesElsewhere(cfg: Config, w: Writer, buffer: bool) {
    cfg.double && w.buffer != buffer && (if buffer then !w.we2 else !w.we)
  }

  // With two buffers, samples that arrive during playback do not touch the buffer in use.
  lemma {:induction false} PlayedBufferIsUntouched(cfg: Config, m: Memory, ins: seq<In>, buffer: bool)
    requires Sized(cfg, m) && WritesElsewhere(cfg, m.w, buffer) && forall i :: 0 <= i < |ins| ==> !ins[i].ifReset
    ensures WritesElsewhere(cfg, MemoryRun(cfg, m, ins).w, buffer)
    ensures RamOf(cfg, MemoryRun(cfg, m, ins), buffer) == RamOf(cfg, m, buffer)
    decreases |ins|
  {
    if |ins| == 0 {
    } else {
      PlayedBufferIsUntouched(cfg, m, ins[..|ins| - 1], buffer);
    }
  }
}
