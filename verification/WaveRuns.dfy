// The escaping stage in front of the waveform generator: controller, write process and
// memories see what the stage makes of the bytes, on the same clock.
module WaveRuns {
  import opened Bytes
  import opened Numbers
  import opened Escaping
  import opened WaveController
  import opened WaveUpload
  import opened WaveBytes

  datatype Full = Full(stage: Stage, s: Side)

  // A byte may be offered; upReady: the uplink takes a byte; enabled: something is playing.
  datatype In = In(offered: bool, b: Byte, upReady: bool, enabled: bool)

  function PinsOf(x: Stage, i: In): Pins { Pins(x.valid, x.data, i.upReady, i.enabled) }

  function ResetController(c: Controller): Controller {
    c.(f := c.f.(state := Init, byteCounter := 0, timeout := 0, sizeCounter := 0), t := c.t.(valid := false),
       h := c.h.(toLast := false, toData := false), s := c.s.(validEarly := false, lastEarly := false, valid := false, last := false))
  }

  // One clock after a reset, whatever was going on, the next upload can start.
  lemma ResetStarts(cfg: Widths, s: Side, p: Pins)
    requires Formed(cfg, s) && cfg.data > 0 && cfg.addr > 0 && s.c.h.last < Pow2(cfg.addr) && !p.valid
    ensures var n := SideStep(cfg, s.(c := ResetController(s.c)), p);
            InStep(cfg, Run(n, Upload(Ready, 0, n.c.h.last, n.c.h.data, [], 0, 0), []), !n.w.buffer)
  {
    UploadStarts(cfg, SideStep(cfg, s.(c := ResetController(s.c)), p));
  }

  // The reset symbol resets the controller, not the memory. The controller is always ready.
  function FullStep(cfg: Widths, x: Full, i: In): (n: Full)
    requires Formed(cfg, x.s)
    ensures Formed(cfg, n.s)
  {
    var s := SideStep(cfg, x.s, PinsOf(x.stage, i));
    Full(StageStep(x.stage, i.offered, i.b, true), if x.stage.reset then s.(c := ResetController(x.s.c)) else s)
  }

  // out: what the host has received.
  datatype Total = Total(x: Full, out: seq<Byte>)

  function FullRun(cfg: Widths, r: Total, ins: seq<In>): (n: Total)
    requires Formed(cfg, r.x.s)
    ensures Formed(cfg, n.x.s)
    decreases |ins|
  {
    if |ins| == 0 then r
    else FullRun(cfg, Total(FullStep(cfg, r.x, ins[0]), r.out + Delivered(r.x.s.c.t, PinsOf(r.x.stage, ins[0]))), ins[1..])
  }

  function Offered(ins: seq<In>): seq<Byte> {
    if |ins| == 0 then [] else (if ins[0].offered then [ins[0].b] else []) + Offered(ins[1..])
  }

  // What the controller sees.
  function Seen(x: Stage, ins: seq<In>): seq<Pins>
    decreases |ins|
  {
    if |ins| == 0 then []
    else [PinsOf(x, ins[0])] + Seen(StageStep(x, ins[0].offered, ins[0].b, true), ins[1..])
  }

  function Held(x: Stage): seq<Byte> { if x.valid then [x.data] else [] }

  // The byte taken in at an edge.
  lemma StageTakes(x: Stage, i: In, rest: seq<Byte>)
    requires !(i.offered && i.b == RESET && !x.escaping)
    ensures var n := StageStep(x, i.offered, i.b, true);
            && !n.reset
            && DataOf(Decode(x.escaping, (if i.offered then [i.b] else []) + rest)) == Held(n) + DataOf(Decode(n.escaping, rest))
  {
    if i.offered {
      DecodeFirst(x.escaping, [i.b] + rest);
      assert ([i.b] + rest)[1..] == rest;
    } else {
      assert [] + rest == rest;
    }
  }

  function StageEnd(x: Stage, ins: seq<In>): Stage
    decreases |ins|
  {
    if |ins| == 0 then x else StageEnd(StageStep(x, ins[0].offered, ins[0].b, true), ins[1..])
  }

  lemma StageFirst(x: Stage, i: In, rest: seq<In>)
    ensures Offered([i] + rest) == (if i.offered then [i.b] else []) + Offered(rest)
    ensures BytesOf(Seen(x, [i] + rest)) == Held(x) + BytesOf(Seen(StageStep(x, i.offered, i.b, true), rest))
    ensures StageEnd(x, [i] + rest) == StageEnd(StageStep(x, i.offered, i.b, true), rest)
  {
    assert ([i] + rest)[1..] == rest;
    assert Seen(x, [i] + rest)[1..] == Seen(StageStep(x, i.offered, i.b, true), rest);
  }

  lemma OfferedIsRest(i: In, rest: seq<In>)
    ensures i.offered ==> Offered([i] + rest)[0] == i.b && Offered([i] + rest)[1..] == Offered(rest)
    ensures !i.offered ==> Offered([i] + rest) == Offered(rest)
  {
    assert ([i] + rest)[1..] == rest;
  }

  // The bytes behind the stage are the decoded ones, but for one the stage still holds.
  lemma {:induction false} StageBytes(x: Stage, ins: seq<In>)
    requires !x.reset && NoReset(x.escaping, Offered(ins))
    ensures BytesOf(Seen(x, ins)) + Held(StageEnd(x, ins)) == Held(x) + DataOf(Decode(x.escaping, Offered(ins)))
    ensures StageEnd(x, ins).escaping == Escaped(x.escaping, Offered(ins)) && !StageEnd(x, ins).reset
    decreases |ins|
  {
    if |ins| == 0 {
      assert Held(x) + [] == Held(x);
    } else {
      var i, rest := ins[0], ins[1..];
      var n := StageStep(x, i.offered, i.b, true);
      assert ins == [i] + rest;
      OfferedIsRest(i, rest);
      StageFirst(x, i, rest);
      StageTakes(x, i, Offered(rest));
      StageBytes(n, rest);
      assert Held(x) + (BytesOf(Seen(n, rest)) + Held(StageEnd(n, rest))) == (Held(x) + BytesOf(Seen(n, rest))) + Held(StageEnd(n, rest));
    }
  }

  // Without a reset symbol a run is a run of controller and memory on the pins behind the stage.
  lemma {:induction false} FullIsRun(cfg: Widths, r: Total, ins: seq<In>, u: Upload)
    requires Formed(cfg, r.x.s) && !r.x.stage.reset && NoReset(r.x.stage.escaping, Offered(ins))
    ensures var n, k := FullRun(cfg, r, ins), RunAll(cfg, Run(r.x.s, u, r.out), Seen(r.x.stage, ins));
            n.x == Full(StageEnd(r.x.stage, ins), k.s) && n.out == k.out
    decreases |ins|
  {
    if |ins| == 0 {
    } else {
      var x, i := r.x.stage, ins[0];
      assert i.offered ==> Offered(ins)[0] == i.b && Offered(ins)[1..] == Offered(ins[1..]);
      assert !i.offered ==> Offered(ins) == Offered(ins[1..]);
      StageTakes(x, i, Offered(ins[1..]));
      FullIsRun(cfg, Total(FullStep(cfg, r.x, i), r.out + Delivered(r.x.s.c.t, PinsOf(x, i))), ins[1..], UploadStep(cfg, u, PinsOf(x, i)));
      assert Seen(x, ins)[1..] == Seen(StageStep(x, i.offered, i.b, true), ins[1..]);
    }
  }

  lemma CommandHasNoReset(command: Byte, d: seq<Byte>)
    requires command != ESCAPE && command != RESET
    ensures NoReset(false, [command] + Escape(d)) && !Escaped(false, [command] + Escape(d))
  {
    assert ([command] + Escape(d))[1..] == Escape(d);
    NoResetEscape(d);
    DecodeEscape(d);
  }

  lemma UploadHasNoReset(cfg: Widths, ds: seq<seq<Byte>>)
    requires |ds| > 0
    ensures NoReset(false, UploadEscaped(cfg, ds)) && !Escaped(false, UploadEscaped(cfg, ds))
  {
    var number := Reverse(ToBytes(AddrSize(cfg), |ds| - 1));
    CommandHasNoReset(NUMBER_OF_SAMPLES, number);
    CommandHasNoReset(WRITE_SAMPLES, Concat(ds));
    NoResetConcat(false, [NUMBER_OF_SAMPLES] + Escape(number), [WRITE_SAMPLES] + Escape(Concat(ds)));
    EscapedConcat(false, [NUMBER_OF_SAMPLES] + Escape(number), [WRITE_SAMPLES] + Escape(Concat(ds)));
  }

  lemma UploadPasses(cfg: Widths, x: Stage, ins: seq<In>, ds: seq<seq<Byte>>)
    requires !x.reset && !x.valid && !x.escaping && |ds| > 0
    requires Offered(ins) == UploadEscaped(cfg, ds) && !StageEnd(x, ins).valid
    ensures BytesOf(Seen(x, ins)) == UploadBytes(cfg, ds) && !StageEnd(x, ins).escaping
  {
    UploadHasNoReset(cfg, ds);
    UploadDecodes(cfg, ds);
    StageBytes(x, ins);
    assert BytesOf(Seen(x, ins)) + [] == BytesOf(Seen(x, ins)) && [] + UploadBytes(cfg, ds) == UploadBytes(cfg, ds);
  }

  // The escaped bytes of an upload, offered in any clocks, under any behaviour of the uplink:
  // when the stage has passed them on, the samples are stored as WaveformUploaded says.
  lemma EscapedUpload(cfg: Widths, r: Total, ins: seq<In>, u: Upload, target: bool, ds: seq<seq<Byte>>)
    requires InStep(cfg, Run(r.x.s, u, r.out), target) && u.mode == Ready
    requires !r.x.stage.reset && !r.x.stage.valid && !r.x.stage.escaping
    requires 0 < |ds| <= Pow2(cfg.addr) && Sizes(DataSize(cfg), ds)
    requires Offered(ins) == UploadEscaped(cfg, ds) && !FullRun(cfg, r, ins).x.stage.valid
    ensures var n, k := FullRun(cfg, r, ins), RunAll(cfg, Run(r.x.s, u, r.out), Seen(r.x.stage, ins));
            n.x.s == k.s && n.out == k.out && !n.x.stage.escaping && UploadEnds(cfg, r.x.s, k, target, ds)
  {
    UploadHasNoReset(cfg, ds);
    FullIsRun(cfg, r, ins, u);
    UploadPasses(cfg, r.x.stage, ins, ds);
    WaveformUploaded(cfg, Run(r.x.s, u, r.out), Seen(r.x.stage, ins), target, ds);
  }
}
