// An upload while a waveform is played from the other buffer: the playback goes on, and the new
// waveform is taken up between two repetitions.
module WaveSwitch {
  import opened Bytes
  import opened Numbers
  import opened WaveController
  import opened WaveUpload
  import opened WavePlayback
  import B = WaveBytes
  import E = WaveEndToEnd
  import M = WaveMemory

  // ---- Controller and memory on one clock ----

  // The memory has the write process and the buffers of s.
  predicate Beside(m: M.Memory, s: Side) { m.w == s.w && m.ram == s.ram && m.ram2 == s.ram2 && m.r.next == s.next }

  function Together(cfg: Widths, r: Run, m: M.Memory, ps: seq<Pins>): (n: M.Memory)
    requires Formed(cfg, r.s) && M.Sized(Mem(cfg), m)
    ensures M.Sized(Mem(cfg), n)
    decreases |ps|
  {
    if |ps| == 0 then m else Together(cfg, Go(cfg, r, ps[0]), M.MemoryStep(Mem(cfg), m, ToMemory(r.s.c)), ps[1..])
  }

  lemma BesideStep(cfg: Widths, s: Side, m: M.Memory, p: Pins)
    requires Formed(cfg, s) && M.Sized(Mem(cfg), m) && Beside(m, s)
    ensures Beside(M.MemoryStep(Mem(cfg), m, ToMemory(s.c)), SideStep(cfg, s, p))
  {
  }

  // ---- What is published ----

  // The waveform to play next is the old one until the last sample of the new one is stored.
  predicate Announced(s: Side, u: Upload, current: M.Next, coming: M.Next) {
    if u.mode == Finished then (s.w.nextStb ==> s.w.next == coming) && (s.next == current || s.next == coming)
    else !s.w.nextStb && s.next == current
  }

  lemma AnnouncedStep(cfg: Widths, s: Side, u: Upload, p: Pins, target: bool, current: M.Next, coming: M.Next)
    requires Rel(cfg, s, u, target) && Expected(u, p) && Announced(s, u, current, coming)
    requires UploadStep(cfg, u, p).mode == Finished ==> coming == M.Next(UploadStep(cfg, u, p).last, target)
    ensures Announced(SideStep(cfg, s, p), UploadStep(cfg, u, p), current, coming)
  {
    StepRel(cfg, s, u, p, target);
  }

  lemma {:induction false} FinishedStays(cfg: Widths, u: Upload, ps: seq<Pins>)
    requires u.mode == Finished && AllExpected(cfg, u, ps)
    ensures FeedAll(cfg, u, BytesOf(ps)) == u
    decreases |ps|
  {
    if |ps| == 0 {
    } else {
      FinishedStays(cfg, u, ps[1..]);
      assert BytesOf(ps) == BytesOf(ps[1..]);
    }
  }

  // ---- The player meanwhile ----

  predicate NoStop(m: M.Memory, c: Controller) { !m.r.latched.stop && !c.s.stop }

  lemma NoStopStep(cfg: Widths, s: Side, u: Upload, m: M.Memory, p: Pins, target: bool)
    requires Rel(cfg, s, u, target) && Expected(u, p) && M.Sized(Mem(cfg), m)
    ensures NoStop(M.MemoryStep(Mem(cfg), m, ToMemory(s.c)), SideStep(cfg, s, p).c)
  {
  }

  function IdealBeside(cfg: Widths, q: Ideal, m: M.Memory, c: Controller): Ideal {
    IdealStep(Mem(cfg), q, m.r.next, M.OrdersOf(m.r.latched, m.w, ToMemory(c)))
  }

  function IdealTogether(cfg: Widths, r: Run, m: M.Memory, q: Ideal, ps: seq<Pins>): Ideal
    requires Formed(cfg, r.s) && M.Sized(Mem(cfg), m)
    decreases |ps|
  {
    if |ps| == 0 then q
    else IdealTogether(cfg, Go(cfg, r, ps[0]), M.MemoryStep(Mem(cfg), m, ToMemory(r.s.c)), IdealBeside(cfg, q, m, r.s.c), ps[1..])
  }

  // Repeated playback of the one or the other.
  predicate Repeats(q: Ideal, current: M.Next, coming: M.Next) {
    q.Playing? && !q.once && q.index <= q.wave.last && (q.wave == current || q.wave == coming)
  }

  predicate Repeatable(cfg: M.Config, wave: M.Next) { 1 <= wave.last < cfg.n }

  lemma PlayerBeside(cfg: Widths, s: Side, m: M.Memory, q: Ideal, current: M.Next, coming: M.Next)
    requires M.Sized(Mem(cfg), m) && NoStop(m, s.c) && (m.r.next == current || m.r.next == coming)
    requires Plays(m.r.p, q) && Repeats(q, current, coming) && Repeatable(Mem(cfg), current) && Repeatable(Mem(cfg), coming)
    ensures var k := IdealBeside(cfg, q, m, s.c);
            Plays(M.MemoryStep(Mem(cfg), m, ToMemory(s.c)).r.p, k) && Repeats(k, current, coming)
  {
    PlayerFollows(Mem(cfg), m.r.p, q, m.r.next, M.OrdersOf(m.r.latched, m.w, ToMemory(s.c)));
  }

  // Everything that is kept at every clock of the upload.
  predicate Along(cfg: Widths, r: Run, m: M.Memory, q: Ideal, target: bool, current: M.Next, coming: M.Next) {
    && WaveUpload.InStep(cfg, r, target) && M.Sized(Mem(cfg), m) && Beside(m, r.s) && Announced(r.s, r.u, current, coming)
    && NoStop(m, r.s.c) && Plays(m.r.p, q) && Repeats(q, current, coming)
  }

  lemma AlongStep(cfg: Widths, r: Run, m: M.Memory, q: Ideal, p: Pins, target: bool, current: M.Next, coming: M.Next)
    requires Along(cfg, r, m, q, target, current, coming) && Expected(r.u, p)
    requires Repeatable(Mem(cfg), current) && Repeatable(Mem(cfg), coming)
    requires UploadStep(cfg, r.u, p).mode == Finished ==> coming == M.Next(UploadStep(cfg, r.u, p).last, target)
    ensures Along(cfg, Go(cfg, r, p), M.MemoryStep(Mem(cfg), m, ToMemory(r.s.c)), IdealBeside(cfg, q, m, r.s.c), target, current, coming)
  {
    GoInStep(cfg, r, p, target);
    BesideStep(cfg, r.s, m, p);
    AnnouncedStep(cfg, r.s, r.u, p, target, current, coming);
    NoStopStep(cfg, r.s, r.u, m, p, target);
    PlayerBeside(cfg, r.s, m, q, current, coming);
  }

  lemma EndIsKnown(cfg: Widths, u: Upload, p: Pins, rest: seq<Pins>, last: nat)
    requires AllExpected(cfg, UploadStep(cfg, u, p), rest) && FeedAll(cfg, UploadStep(cfg, u, p), BytesOf(rest)).last == last
    ensures UploadStep(cfg, u, p).mode == Finished ==> UploadStep(cfg, u, p).last == last
  {
    if UploadStep(cfg, u, p).mode == Finished {
      FinishedStays(cfg, UploadStep(cfg, u, p), rest);
    }
  }

  lemma BytesFirst(cfg: Widths, u: Upload, ps: seq<Pins>)
    requires |ps| > 0
    ensures FeedAll(cfg, u, BytesOf(ps)) == FeedAll(cfg, UploadStep(cfg, u, ps[0]), BytesOf(ps[1..]))
  {
    if ps[0].valid {
      assert BytesOf(ps)[1..] == BytesOf(ps[1..]);
    } else {
      assert BytesOf(ps) == BytesOf(ps[1..]);
    }
  }

  lemma {:induction false} AlongRun(cfg: Widths, r: Run, m: M.Memory, q: Ideal, ps: seq<Pins>, target: bool, current: M.Next, coming: M.Next)
    requires Along(cfg, r, m, q, target, current, coming) && AllExpected(cfg, r.u, ps)
    requires Repeatable(Mem(cfg), current) && Repeatable(Mem(cfg), coming)
    requires coming == M.Next(FeedAll(cfg, r.u, BytesOf(ps)).last, target)
    ensures Along(cfg, RunAll(cfg, r, ps), Together(cfg, r, m, ps), IdealTogether(cfg, r, m, q, ps), target, current, coming)
    decreases |ps|
  {
    if |ps| == 0 {
    } else {
      BytesFirst(cfg, r.u, ps);
      EndIsKnown(cfg, r.u, ps[0], ps[1..], coming.last);
      AlongStep(cfg, r, m, q, ps[0], target, current, coming);
      AlongRun(cfg, Go(cfg, r, ps[0]), M.MemoryStep(Mem(cfg), m, ToMemory(r.s.c)), IdealBeside(cfg, q, m, r.s.c), ps[1..], target, current, coming);
    }
  }

  // ---- The boundary ----

  // The clocks until the repetition is over.
  function Rest(q: Ideal): nat
    requires q.Playing? && q.index <= q.wave.last
  {
    q.wave.last + 1 - q.index
  }

  // The repetition is played to its end, and then the new waveform again and again.
  function AfterBoundary(q: Ideal, coming: M.Next, clocks: nat): Ideal
    requires q.Playing? && q.index <= q.wave.last
  {
    if clocks < Rest(q) then Playing(false, q.index + clocks, q.wave)
    else Playing(false, (clocks - Rest(q)) % (coming.last + 1), coming)
  }

  lemma {:induction false} RunsOver(cfg: M.Config, q: Ideal, coming: M.Next, es: seq<Edge>)
    requires q.Playing? && !q.once && q.index <= q.wave.last && Unstopped(es) && E.AllNext(es, coming)
    ensures IdealRun(cfg, q, es) == AfterBoundary(q, coming, |es|)
    decreases |es|
  {
    if |es| == 0 {
    } else if q.index < q.wave.last {
      RunsOver(cfg, Playing(false, q.index + 1, q.wave), coming, es[1..]);
    } else {
      PlaysCyclically(cfg, coming, es[1..]);
    }
  }

  lemma RunsPlayable(cfg: M.Config, q: Ideal, coming: M.Next, es: seq<Edge>)
    requires q.Playing? && !q.once && q.index <= q.wave.last && Unstopped(es) && E.AllNext(es, coming)
    requires Repeatable(cfg, q.wave) && Repeatable(cfg, coming)
    ensures AllPlayable(cfg, q, es)
  {
    forall k | 0 <= k <= |es| ensures Playable(cfg, IdealRun(cfg, q, es[..k])) {
      RunsOver(cfg, q, coming, es[..k]);
    }
  }

  // What comes out clocks after q, when the buffer in use holds before.
  predicate ShowsBoundary(a: M.Align, q: Ideal, before: seq<nat>, samples: seq<nat>, clocks: nat)
    requires q.Playing? && q.index <= q.wave.last && |before| == q.wave.last + 1 && |samples| > 0
  {
    if clocks < Rest(q) then a.enabled && a.first == (q.index + clocks == 0) && a.data == before[q.index + clocks]
    else
      var k := (clocks - Rest(q)) % |samples|;
      a.enabled && a.first == (k == 0) && a.data == samples[k]
  }

  lemma BoundaryShown(cfg: M.Config, a: M.Align, n: M.Memory, q: Ideal, coming: M.Next, before: seq<nat>, samples: seq<nat>, clocks: nat)
    requires M.Sized(cfg, n) && q.Playing? && q.index <= q.wave.last && Shows(cfg, a, n, AfterBoundary(q, coming, clocks))
    requires E.Stores(cfg, n, q.wave, before)
    requires E.Stores(cfg, n, coming, samples)
    ensures ShowsBoundary(a, q, before, samples, clocks)
  {
    if clocks < Rest(q) {
      assert RamOf(cfg, n, q.wave.buffer)[..|before|][q.index + clocks] == before[q.index + clocks];
    } else {
      var k := (clocks - Rest(q)) % |samples|;
      assert RamOf(cfg, n, coming.buffer)[..|samples|][k] == samples[k];
    }
  }

  // The new waveform is there, and the one being played still is.
  predicate Switchable(cfg: M.Config, m: M.Memory, q: Ideal, coming: M.Next, before: seq<nat>, samples: seq<nat>) {
    && M.Sized(cfg, m) && E.Holds(cfg, m, coming, samples) && Repeatable(cfg, coming)
    && Plays(m.r.p, q) && q.Playing? && !q.once && q.index <= q.wave.last && Repeatable(cfg, q.wave)
    && E.Stores(cfg, m, q.wave, before)
  }

  lemma SwitchableRuns(cfg: M.Config, m: M.Memory, q: Ideal, coming: M.Next, before: seq<nat>, samples: seq<nat>, ins: seq<M.In>)
    requires Switchable(cfg, m, q, coming, before, samples) && E.Undisturbed(ins) && Unstopped(Edges(cfg, m, ins))
    ensures AllPlayable(cfg, q, Edges(cfg, m, ins)) && IdealRun(cfg, q, Edges(cfg, m, ins)) == AfterBoundary(q, coming, |ins|)
  {
    E.MemoryKeeps(cfg, m, ins);
    RunsPlayable(cfg, q, coming, Edges(cfg, m, ins));
    RunsOver(cfg, q, coming, Edges(cfg, m, ins));
  }

  lemma SwitchableShown(cfg: M.Config, a: M.Align, m: M.Memory, q: Ideal, coming: M.Next, before: seq<nat>, samples: seq<nat>, ins: seq<M.In>)
    requires Switchable(cfg, m, q, coming, before, samples) && E.Undisturbed(ins)
    requires Shows(cfg, a, MemoryRun(cfg, m, ins), AfterBoundary(q, coming, |ins|))
    ensures ShowsBoundary(a, q, before, samples, |ins|)
  {
    E.MemoryKeeps(cfg, m, ins);
    BoundaryShown(cfg, a, MemoryRun(cfg, m, ins), q, coming, before, samples, |ins|);
  }

  lemma SwitchesAtBoundary(cfg: M.Config, m: M.Memory, q: Ideal, coming: M.Next, before: seq<nat>, samples: seq<nat>, ins: seq<M.In>,
                           i: M.In, j: M.In, k: M.In)
    requires Switchable(cfg, m, q, coming, before, samples) && E.Undisturbed(ins) && Unstopped(Edges(cfg, m, ins)) && k.outEnable
    ensures ShowsBoundary(Later(cfg, MemoryRun(cfg, m, ins), i, j, k).a, q, before, samples, |ins|)
  {
    SwitchableRuns(cfg, m, q, coming, before, samples, ins);
    PlaybackComesOut(cfg, m, ins, q, i, j, k);
    SwitchableShown(cfg, Later(cfg, MemoryRun(cfg, m, ins), i, j, k).a, m, q, coming, before, samples, ins);
  }

  // ---- The upload of a whole waveform during playback ----

  // What the buffer in use holds when the upload is over; q may be at the new waveform already.
  function InUse(q: Ideal, current: M.Next, before: seq<nat>, samples: seq<nat>): seq<nat>
    requires q.Playing?
  {
    if q.wave == current then before else samples
  }

  lemma UploadedIsSwitchable(cfg: Widths, n: Run, m: M.Memory, q: Ideal, target: bool, current: M.Next, before: seq<nat>, samples: seq<nat>)
    requires cfg.double && current.buffer == !target && Repeatable(Mem(cfg), current) && |samples| >= 2
    requires Along(cfg, n, m, q, target, current, M.Next(|samples| - 1, target)) && Settled(cfg, n.s) && !n.s.w.nextStb
    requires n.u.mode == Finished && n.u.samples == samples && n.u.last == |samples| - 1
    requires |before| == current.last + 1 <= |OtherRam(cfg, n.s, target)| && OtherRam(cfg, n.s, target)[..|before|] == before
    ensures Switchable(Mem(cfg), m, q, M.Next(|samples| - 1, target), InUse(q, current, before, samples), samples)
  {
    UploadComplete(cfg, n, target);
  }

  // While one waveform of at least two samples is played again and again from one buffer, the
  // bytes of an upload, in any clocks, leave the new samples in the other one; the playback
  // follows the ideal player all the time, and when the upload is settled, the output goes on to
  // the end of the repetition and then shows the new waveform from its sample 0 on, for ever.
  lemma UploadSwitches(cfg: Widths, r: Run, m: M.Memory, q: Ideal, ps: seq<Pins>, target: bool, before: seq<nat>, ds: seq<seq<Byte>>,
                       n: Run, t: M.Memory, p: Ideal, ins: seq<M.In>, i: M.In, j: M.In, k: M.In)
    requires |ds| >= 2 && cfg.double && Fits(cfg) && q.Playing? && q.wave.buffer == !target && Repeatable(Mem(cfg), q.wave)
    requires Along(cfg, r, m, q, target, q.wave, M.Next(|ds| - 1, target)) && r.u.mode == Ready
    requires |ds| <= Pow2(cfg.addr) && B.Sizes(DataSize(cfg), ds) && BytesOf(ps) == B.UploadBytes(cfg, ds)
    requires |before| == q.wave.last + 1 <= |OtherRam(cfg, r.s, target)| && OtherRam(cfg, r.s, target)[..|before|] == before
    requires n == RunAll(cfg, r, ps) && t == Together(cfg, r, m, ps) && p == IdealTogether(cfg, r, m, q, ps)
    requires Settled(cfg, n.s) && !n.s.w.nextStb && E.Undisturbed(ins) && Unstopped(Edges(Mem(cfg), t, ins)) && k.outEnable
    ensures var samples := B.Fields(cfg.data, ds);
            && Plays(t.r.p, p) && Repeats(p, q.wave, M.Next(|ds| - 1, target))
            && ShowsBoundary(Later(Mem(cfg), MemoryRun(Mem(cfg), t, ins), i, j, k).a, p, InUse(p, q.wave, before, samples), samples, |ins|)
  {
    UploadAlong(cfg, r, m, q, ps, target, ds);
    UploadedIsSwitchable(cfg, n, t, p, target, q.wave, before, B.Fields(cfg.data, ds));
    SwitchesAtBoundary(Mem(cfg), t, p, M.Next(|ds| - 1, target), InUse(p, q.wave, before, B.Fields(cfg.data, ds)), B.Fields(cfg.data, ds),
                       ins, i, j, k);
  }

  lemma UploadAlong(cfg: Widths, r: Run, m: M.Memory, q: Ideal, ps: seq<Pins>, target: bool, ds: seq<seq<Byte>>)
    requires |ds| >= 2 && Fits(cfg) && q.Playing? && Repeatable(Mem(cfg), q.wave)
    requires Along(cfg, r, m, q, target, q.wave, M.Next(|ds| - 1, target)) && r.u.mode == Ready
    requires |ds| <= Pow2(cfg.addr) && B.Sizes(DataSize(cfg), ds) && BytesOf(ps) == B.UploadBytes(cfg, ds)
    ensures var n := RunAll(cfg, r, ps);
            && Along(cfg, n, Together(cfg, r, m, ps), IdealTogether(cfg, r, m, q, ps), target, q.wave, M.Next(|ds| - 1, target))
            && n.u.mode == Finished && n.u.samples == B.Fields(cfg.data, ds) && n.u.last == |ds| - 1
            && OtherRam(cfg, n.s, target) == OtherRam(cfg, r.s, target)
  {
    B.FeedUpload(cfg, r.u, ds);
    B.UploadRuns(cfg, r, ps, target);
    AlongRun(cfg, r, m, q, ps, target, q.wave, M.Next(|ds| - 1, target));
  }
}
