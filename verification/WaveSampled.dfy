// Playback with data_out_enable in any pattern: the player goes on only at enabled clocks, and
// an order that comes between two of them is kept for the later one.
module WaveSampled {
  import opened WaveMemory
  import opened WavePlayback

  // What the player is told at the enabled clocks.
  function SampledEdges(cfg: Config, m: Memory, ins: seq<In>): seq<Edge>
    requires Sized(cfg, m)
    decreases |ins|
  {
    if |ins| == 0 then []
    else
      var a, i := ins[..|ins| - 1], ins[|ins| - 1];
      SampledEdges(cfg, m, a) + if i.outEnable then [EdgeOf(MemoryRun(cfg, m, a), i)] else []
  }

  lemma SampledLast(cfg: Config, m: Memory, a: seq<In>, i: In)
    requires Sized(cfg, m)
    ensures SampledEdges(cfg, m, a + [i])
         == SampledEdges(cfg, m, a) + if i.outEnable then [EdgeOf(MemoryRun(cfg, m, a), i)] else []
  {
    assert (a + [i])[..|a|] == a;
  }

  // ---- The player ----

  lemma SampledStep(cfg: Config, n: Memory, q: Ideal, i: In)
    requires Sized(cfg, n) && Plays(n.r.p, q) && Playable(cfg, q)
    requires i.outEnable ==> Playable(cfg, IdealStep(cfg, q, n.r.next, EdgeOf(n, i).o))
    ensures Plays(MemoryStep(cfg, n, i).r.p, if i.outEnable then IdealStep(cfg, q, n.r.next, EdgeOf(n, i).o) else q)
  {
    if i.outEnable {
      PlayerFollows(cfg, n.r.p, q, n.r.next, EdgeOf(n, i).o);
    }
  }

  lemma LastPlayable(cfg: Config, s: Ideal, es: seq<Edge>, e: Edge)
    requires AllPlayable(cfg, s, es + [e])
    ensures AllPlayable(cfg, s, es) && Playable(cfg, IdealRun(cfg, s, es))
    ensures IdealRun(cfg, s, es + [e]) == IdealStep(cfg, IdealRun(cfg, s, es), e.next, e.o)
    ensures Playable(cfg, IdealRun(cfg, s, es + [e]))
  {
    PlayableBefore(cfg, s, es, e);
    RunSnoc(cfg, s, es + [e]);
    assert (es + [e])[..|es|] == es;
  }

  lemma PlayableNow(cfg: Config, s: Ideal, es: seq<Edge>)
    requires AllPlayable(cfg, s, es)
    ensures Playable(cfg, IdealRun(cfg, s, es))
  {
    assert es[..|es|] == es;
  }

  // For every pattern of data_out_enable the player is the ideal one at the enabled clocks.
  lemma {:induction false} SampledFollows(cfg: Config, m: Memory, ins: seq<In>, s: Ideal)
    requires Sized(cfg, m) && Plays(m.r.p, s) && AllPlayable(cfg, s, SampledEdges(cfg, m, ins))
    ensures Plays(MemoryRun(cfg, m, ins).r.p, IdealRun(cfg, s, SampledEdges(cfg, m, ins)))
    decreases |ins|
  {
    if |ins| == 0 {
    } else {
      var a, i := ins[..|ins| - 1], ins[|ins| - 1];
      var n, es := MemoryRun(cfg, m, a), SampledEdges(cfg, m, a);
      assert ins == a + [i];
      MemoryLast(cfg, m, a, i);
      SampledLast(cfg, m, a, i);
      if i.outEnable {
        LastPlayable(cfg, s, es, EdgeOf(n, i));
      } else {
        assert es + [] == es;
        PlayableNow(cfg, s, es);
      }
      SampledFollows(cfg, m, a, s);
      SampledStep(cfg, n, IdealRun(cfg, s, es), i);
    }
  }

  // The outputs at an enabled clock are sample, first_sample and output_active of the player as
  // it was three clocks before.
  lemma SampledComesOut(cfg: Config, m: Memory, ins: seq<In>, s: Ideal, i: In, j: In, k: In)
    requires Sized(cfg, m) && Plays(m.r.p, s) && AllPlayable(cfg, s, SampledEdges(cfg, m, ins)) && k.outEnable
    ensures var n := MemoryRun(cfg, m, ins);
            Shows(cfg, Later(cfg, n, i, j, k).a, n, IdealRun(cfg, s, SampledEdges(cfg, m, ins)))
  {
    var n, es := MemoryRun(cfg, m, ins), SampledEdges(cfg, m, ins);
    SampledFollows(cfg, m, ins, s);
    OutputsAreAligned(cfg, n, i, j, k);
    PlayableNow(cfg, s, es);
    OutputsShow(cfg, Later(cfg, n, i, j, k).a, n, IdealRun(cfg, s, es));
  }

  // Without data_out_enable the outputs stay as they are.
  lemma OutputsStay(cfg: Config, m: Memory, i: In)
    requires Sized(cfg, m) && !i.outEnable
    ensures var a := MemoryStep(cfg, m, i).a; a.first == m.a.first && a.enabled == m.a.enabled && a.data == m.a.data
  {
  }

  // ---- The orders in between ----

  datatype Order = Start | Stop | Once

  predicate Given(o: Orders, order: Order) {
    match order
    case Start => o.start
    case Stop => o.stop
    case Once => o.oneShot
  }

  predicate Kept(l: Latches, order: Order) {
    match order
    case Start => l.start
    case Stop => l.stop
    case Once => l.oneShot
  }

  // The order comes at this clock; start is three clocks late.
  predicate Comes(w: Writer, i: In, order: Order) {
    match order
    case Start => w.start2
    case Stop => i.stop
    case Once => i.oneShot
  }

  predicate ComesAt(cfg: Config, m: Memory, ins: seq<In>, order: Order, k: nat)
    requires Sized(cfg, m) && k < |ins|
  {
    Comes(MemoryRun(cfg, m, ins[..k]).w, ins[k], order)
  }

  predicate DisabledFrom(ins: seq<In>, k: nat) { forall j :: k <= j < |ins| ==> !ins[j].outEnable }

  // It came at a clock from which on no clock was enabled.
  ghost predicate CameSince(cfg: Config, m: Memory, ins: seq<In>, order: Order)
    requires Sized(cfg, m)
  {
    exists k: nat | k < |ins| :: ComesAt(cfg, m, ins, order, k) && DisabledFrom(ins, k)
  }

  lemma KeptStep(cfg: Config, n: Memory, i: In, order: Order)
    requires Sized(cfg, n)
    ensures Kept(MemoryStep(cfg, n, i).r.latched, order) <==> !i.outEnable && (Kept(n.r.latched, order) || Comes(n.w, i, order))
  {
  }

  lemma ComesEarlier(cfg: Config, m: Memory, a: seq<In>, i: In, order: Order, k: nat)
    requires Sized(cfg, m) && k < |a|
    ensures ComesAt(cfg, m, a + [i], order, k) == ComesAt(cfg, m, a, order, k)
  {
    assert (a + [i])[..k] == a[..k];
  }

  lemma DisabledEarlier(a: seq<In>, i: In, k: nat)
    requires k <= |a|
    ensures DisabledFrom(a + [i], k) <==> DisabledFrom(a, k) && !i.outEnable
  {
    var ins := a + [i];
    if DisabledFrom(ins, k) {
      assert !ins[|a|].outEnable;
      assert forall j :: k <= j < |a| ==> a[j] == ins[j];
    }
  }

  lemma CameBefore(cfg: Config, m: Memory, a: seq<In>, i: In, order: Order)
    requires Sized(cfg, m) && CameSince(cfg, m, a + [i], order)
    ensures !i.outEnable && (CameSince(cfg, m, a, order) || Comes(MemoryRun(cfg, m, a).w, i, order))
  {
    var k: nat :| k <= |a| && ComesAt(cfg, m, a + [i], order, k) && DisabledFrom(a + [i], k);
    DisabledEarlier(a, i, k);
    if k < |a| {
      ComesEarlier(cfg, m, a, i, order, k);
    } else {
      assert (a + [i])[..|a|] == a;
    }
  }

  lemma CameLast(cfg: Config, m: Memory, a: seq<In>, i: In, order: Order)
    requires Sized(cfg, m)
    ensures CameSince(cfg, m, a + [i], order)
       <==> !i.outEnable && (CameSince(cfg, m, a, order) || Comes(MemoryRun(cfg, m, a).w, i, order))
  {
    if CameSince(cfg, m, a + [i], order) {
      CameBefore(cfg, m, a, i, order);
    } else if !i.outEnable && Comes(MemoryRun(cfg, m, a).w, i, order) {
      assert (a + [i])[..|a|] == a;
      assert ComesAt(cfg, m, a + [i], order, |a|) && DisabledFrom(a + [i], |a|);
    } else if !i.outEnable && CameSince(cfg, m, a, order) {
      var k: nat :| k < |a| && ComesAt(cfg, m, a, order, k) && DisabledFrom(a, k);
      ComesEarlier(cfg, m, a, i, order, k);
      DisabledEarlier(a, i, k);
    }
  }

  lemma {:induction false} KeptIffCame(cfg: Config, m: Memory, ins: seq<In>, order: Order)
    requires Sized(cfg, m) && !Kept(m.r.latched, order)
    ensures Kept(MemoryRun(cfg, m, ins).r.latched, order) <==> CameSince(cfg, m, ins, order)
    decreases |ins|
  {
    if |ins| == 0 {
    } else {
      var a, i := ins[..|ins| - 1], ins[|ins| - 1];
      assert ins == a + [i];
      KeptIffCame(cfg, m, a, order);
      MemoryLast(cfg, m, a, i);
      KeptStep(cfg, MemoryRun(cfg, m, a), i, order);
      CameLast(cfg, m, a, i, order);
    }
  }

  // At a clock the player is given an order exactly if it comes now or came at a clock after
  // the last enabled one.
  lemma GivenIffCame(cfg: Config, m: Memory, ins: seq<In>, i: In, order: Order)
    requires Sized(cfg, m) && !Kept(m.r.latched, order)
    ensures var n := MemoryRun(cfg, m, ins);
            Given(EdgeOf(n, i).o, order) <==> Comes(n.w, i, order) || CameSince(cfg, m, ins, order)
  {
    KeptIffCame(cfg, m, ins, order);
  }
}
