// An upload: the controller shifts the bytes in, the memory stores the samples, for every
// timing of the bytes and of the uplink.
module WaveUpload {
  import opened Bytes
  import opened Numbers
  import opened WaveController
  import M = WaveMemory

  // ---- The upload byte by byte, without clocks ----

  // Broken: the address has more bytes than the controller can count.
  datatype Mode = Ready | Numbering | Writing | Finished | Broken

  // count: bytes of the current field; value: the sample register; rounds, timeout: bytes
  // received, in units of 64 and the rest.
  datatype Upload = Upload(mode: Mode, count: nat, last: nat, value: nat, samples: seq<nat>, rounds: nat, timeout: nat)

  function Received(cfg: Widths, u: Upload, b: Byte): Upload {
    var value := ShiftIn(cfg.data, u.value, b);
    var v := u.(value := value, rounds := if u.timeout == 63 then u.rounds + 1 else u.rounds,
                timeout := if u.timeout == 63 then 0 else u.timeout + 1);
    if u.count + 1 < DataSize(cfg) then v.(count := u.count + 1)
    else v.(count := 0, samples := u.samples + [value], mode := if |u.samples| == u.last then Finished else Writing)
  }

  function ByteIn(cfg: Widths, u: Upload, b: Byte): Upload {
    match u.mode
    case Ready =>
      if b == NUMBER_OF_SAMPLES then u.(mode := Numbering, count := 0)
      else if b == WRITE_SAMPLES then u.(mode := Writing, count := 0, samples := [], rounds := 0, timeout := 0)
      else u
    case Numbering =>
      u.(last := ShiftIn(cfg.addr, u.last, b), count := u.count + 1,
         mode := if u.count + 1 == AddrSize(cfg) then Ready else if u.count + 1 > DataSize(cfg) then Broken else Numbering)
    case Writing => Received(cfg, u, b)
    case Finished => u
    case Broken => u
  }

  // addr_size_s counts to addr_size - 1 and is declared up to data_size.
  predicate Fits(cfg: Widths) { AddrSize(cfg) <= DataSize(cfg) + 1 }

  // ---- The clocked upload ----

  // next: what readFsm has latched as the waveform to play next.
  datatype Side = Side(c: Controller, w: M.Writer, ram: seq<nat>, ram2: seq<nat>, next: M.Next)

  function Mem(cfg: Widths): M.Config { M.Config(Pow2(cfg.addr), cfg.double, cfg.syncMaster) }

  predicate Formed(cfg: Widths, s: Side) {
    |s.ram| == |s.ram2| == Pow2(cfg.addr) && s.w.address < Pow2(cfg.addr)
  }

  function ToMemory(c: Controller): M.In {
    M.In(c.h.data, c.s.valid, c.s.ifReset, c.s.last, c.s.start, c.s.stop, c.s.oneShot, true, false)
  }

  function SideStep(cfg: Widths, s: Side, p: Pins): (n: Side)
    requires Formed(cfg, s)
    ensures Formed(cfg, n)
  {
    Side(ControllerStep(cfg, s.c, p), M.WriterStep(Mem(cfg), s.w, ToMemory(s.c)),
         if s.w.we then s.ram[s.w.address := s.w.data] else s.ram,
         if cfg.double && s.w.we2 then s.ram2[s.w.address := s.w.data] else s.ram2,
         if s.w.nextStb then s.w.next else s.next)
  }

  // ---- Samples on their way into the memory ----

  function Pending(cfg: Widths, h: Shift): nat { if h.toData then ShiftIn(cfg.data, h.data, h.delayed) else h.data }

  function One(b: bool): nat { if b then 1 else 0 }

  // Of the samples received, the youngest may still be in the shift register, at the output of
  // the controller and at the write port; the others are in the memory. The last one carries
  // the flag that publishes its address.
  predicate Pipeline(cfg: Widths, h: Shift, s: Strobes, w: M.Writer, ram: seq<nat>, samples: seq<nat>, finished: bool) {
    var e, v, we := One(s.validEarly), One(s.valid), One(M.WeCom(Mem(cfg), w));
    var k := |samples|;
    && e + v + we <= k <= |ram| == Pow2(cfg.addr)
    && (s.validEarly ==> h.toData && Pending(cfg, h) == samples[k - 1])
    && (s.valid ==> h.data == samples[k - e - 1])
    && (M.WeCom(Mem(cfg), w) ==> w.data == samples[k - e - v - 1])
    && ram[..k - e - v - we] == samples[..k - e - v - we]
    && s.lastEarly == (s.validEarly && finished)
    && (s.valid ==> s.last == (finished && e == 0))
    && (M.WeCom(Mem(cfg), w) ==> w.last == (finished && e == 0 && v == 0))
    && (finished ==> k > 0)
    && (finished && e + v + we == 0 ==> w.next == M.Next(k - 1, w.buffer))
  }

  // The next write address.
  predicate Positioned(cfg: Widths, s: Strobes, w: M.Writer, samples: seq<nat>) {
    var stored := |samples| - One(s.validEarly) - One(s.valid) - One(M.WeCom(Mem(cfg), w));
    stored >= 0 && w.address == Wrap(stored, Pow2(cfg.addr))
  }

  function StrobesNext(s: Strobes, completes: bool, ends: bool, reset: bool): Strobes {
    Strobes(completes, ends, s.validEarly, s.lastEarly, reset, false, false, false)
  }

  function TargetNext(cfg: Widths, w: M.Writer, ram: seq<nat>): seq<nat>
    requires w.address < |ram|
  {
    if M.WeCom(Mem(cfg), w) then ram[w.address := w.data] else ram
  }

  lemma PositionMoves(cfg: Widths, c: Controller, w: M.Writer, samples: seq<nat>, completes: bool, ends: bool, next: seq<nat>)
    requires Positioned(cfg, c.s, w, samples) && !c.s.ifReset && w.address < Pow2(cfg.addr)
    requires |samples| <= Pow2(cfg.addr) && |next| == |samples| + One(completes) <= Pow2(cfg.addr)
    ensures Positioned(cfg, StrobesNext(c.s, completes, ends, false), M.WriterStep(Mem(cfg), w, ToMemory(c)), next)
  {
  }

  // The samples that are in the memory for good after this edge.
  lemma StoredMoves(cfg: Widths, c: Controller, w: M.Writer, ram: seq<nat>, samples: seq<nat>, finished: bool)
    requires Pipeline(cfg, c.h, c.s, w, ram, samples, finished) && Positioned(cfg, c.s, w, samples)
    requires w.address < Pow2(cfg.addr)
    ensures var stored := |samples| - One(c.s.validEarly) - One(c.s.valid);
            stored >= 0 && TargetNext(cfg, w, ram)[..stored] == samples[..stored]
  {
  }

  lemma PipelineMoves(cfg: Widths, c: Controller, w: M.Writer, ram: seq<nat>, samples: seq<nat>, finished: bool,
                      valid: bool, b: Byte, completes: bool, ends: bool, next: seq<nat>)
    requires Pipeline(cfg, c.h, c.s, w, ram, samples, finished) && Positioned(cfg, c.s, w, samples) && !c.s.ifReset
    requires w.address < Pow2(cfg.addr)
    requires completes ==> valid && !finished && |samples| < Pow2(cfg.addr)
    requires ends ==> completes
    requires next == if completes then samples + [ShiftIn(cfg.data, Pending(cfg, c.h), b)] else samples
    ensures var s2 := StrobesNext(c.s, completes, ends, false);
            var w2 := M.WriterStep(Mem(cfg), w, ToMemory(c));
            && Pipeline(cfg, ShiftStep(cfg, c.h, b, false, valid), s2, w2, TargetNext(cfg, w, ram), next, finished || ends)
            && Positioned(cfg, s2, w2, next)
  {
    PositionMoves(cfg, c, w, samples, completes, ends, next);
    StoredMoves(cfg, c, w, ram, samples, finished);
    var stored := |samples| - One(c.s.validEarly) - One(c.s.valid);
    assert next[..stored] == samples[..stored];
  }

  // The first clock of an upload: the memory starts at address 0 of the other buffer.
  lemma PipelineStarts(cfg: Widths, c: Controller, w: M.Writer, ram: seq<nat>, valid: bool, b: Byte, completes: bool, ends: bool, next: seq<nat>)
    requires c.s.ifReset && !c.s.validEarly && !c.s.lastEarly && !c.s.valid && !w.we && !w.we2 && |ram| == Pow2(cfg.addr)
    requires w.address < Pow2(cfg.addr)
    requires completes ==> valid
    requires ends ==> completes
    requires next == if completes then [ShiftIn(cfg.data, Pending(cfg, c.h), b)] else []
    ensures var s2 := StrobesNext(c.s, completes, ends, false);
            var w2 := M.WriterStep(Mem(cfg), w, ToMemory(c));
            && Pipeline(cfg, ShiftStep(cfg, c.h, b, false, valid), s2, w2, ram, next, ends)
            && Positioned(cfg, s2, w2, next)
  {
  }

  // ---- The relation ----

  function TargetRam(cfg: Widths, s: Side, target: bool): seq<nat> { if M.Second(Mem(cfg), target) then s.ram2 else s.ram }
  function OtherRam(cfg: Widths, s: Side, target: bool): seq<nat> { if M.Second(Mem(cfg), target) then s.ram else s.ram2 }

  predicate Quiet(s: Strobes, w: M.Writer) { !s.validEarly && !s.lastEarly && !s.valid && !w.we && !w.we2 }

  predicate Registers(cfg: Widths, h: Shift, u: Upload) {
    && Pending(cfg, h) == u.value
    && (if h.toLast then ShiftIn(cfg.addr, h.last, h.delayed) else h.last) == u.last
  }

  predicate Filling(cfg: Widths, s: Side, u: Upload, target: bool) {
    && s.w.buffer == target && !s.c.s.ifReset
    && (s.w.we ==> !M.Second(Mem(cfg), target)) && (s.w.we2 ==> M.Second(Mem(cfg), target))
    && Pipeline(cfg, s.c.h, s.c.s, s.w, TargetRam(cfg, s, target), u.samples, u.mode == Finished)
    && Positioned(cfg, s.c.s, s.w, u.samples)
  }

  predicate ByMode(cfg: Widths, s: Side, u: Upload, target: bool) {
    var f := s.c.f;
    match u.mode
    case Ready => f.state == Init && !s.c.s.ifReset && Quiet(s.c.s, s.w) && s.w.buffer != target
    case Numbering =>
      && f.state == SetNumber && !s.c.s.ifReset && Quiet(s.c.s, s.w) && s.w.buffer != target
      && f.addrBytes == u.count < AddrSize(cfg) && f.addrBytes <= DataSize(cfg)
    case Broken => f.state == OutOfRange && !s.c.s.ifReset && Quiet(s.c.s, s.w) && s.w.buffer != target && !Fits(cfg)
    case Writing =>
      && f.state == WriteSamples && !s.c.h.toLast
      && f.byteCounter == u.count < DataSize(cfg) && f.timeout == u.timeout && f.sampleCounter == |u.samples| <= u.last
      && (if s.c.s.ifReset then u.samples == [] && Quiet(s.c.s, s.w) && s.w.buffer != target else Filling(cfg, s, u, target))
    case Finished => (f.state == SendLastAck || f.state == Init) && |u.samples| == u.last + 1 && Filling(cfg, s, u, target)
  }

  predicate Settled(cfg: Widths, s: Side) { !s.c.s.validEarly && !s.c.s.valid && !M.WeCom(Mem(cfg), s.w) }

  predicate Published(cfg: Widths, s: Side) { Settled(cfg, s) ==> s.w.nextStb || s.next == s.w.next }

  predicate Rel(cfg: Widths, s: Side, u: Upload, target: bool) {
    && (u.mode == Finished ==> Published(cfg, s))
    && Formed(cfg, s) && cfg.data > 0 && cfg.addr > 0 && u.last < Pow2(cfg.addr)
    && Registers(cfg, s.c.h, u)
    && ByMode(cfg, s, u, target)
  }

  predicate Expected(u: Upload, p: Pins) {
    p.valid ==> u.mode != Finished && (u.mode == Ready ==> p.b == NUMBER_OF_SAMPLES || p.b == WRITE_SAMPLES)
  }

  function UploadStep(cfg: Widths, u: Upload, p: Pins): Upload { if p.valid then ByteIn(cfg, u, p.b) else u }

  lemma RegistersStep(cfg: Widths, s: Side, u: Upload, p: Pins, target: bool)
    requires Rel(cfg, s, u, target) && Expected(u, p)
    ensures Registers(cfg, SideStep(cfg, s, p).c.h, UploadStep(cfg, u, p)) && UploadStep(cfg, u, p).last < Pow2(cfg.addr)
  {
  }

  // No sample has come in.
  predicate Early(m: Mode) { m == Ready || m == Numbering || m == Broken }

  lemma ReadyStep(cfg: Widths, s: Side, u: Upload, p: Pins, target: bool)
    requires Rel(cfg, s, u, target) && Expected(u, p) && Early(u.mode)
    ensures ByMode(cfg, SideStep(cfg, s, p), UploadStep(cfg, u, p), target)
    ensures SideStep(cfg, s, p).ram == s.ram && SideStep(cfg, s, p).ram2 == s.ram2
  {
  }

  lemma FinishedStep(cfg: Widths, s: Side, u: Upload, p: Pins, target: bool)
    requires Rel(cfg, s, u, target) && Expected(u, p) && u.mode == Finished
    ensures ByMode(cfg, SideStep(cfg, s, p), UploadStep(cfg, u, p), target)
    ensures OtherRam(cfg, SideStep(cfg, s, p), target) == OtherRam(cfg, s, target)
  {
    PipelineMoves(cfg, s.c, s.w, TargetRam(cfg, s, target), u.samples, true, false, p.b, false, false, u.samples);
  }

  // What the parts of the machine do while samples come in.
  lemma WritingParts(cfg: Widths, s: Side, p: Pins, target: bool)
    requires Formed(cfg, s) && s.c.f.state == WriteSamples
    requires (s.w.we ==> !M.Second(Mem(cfg), target)) && (s.w.we2 ==> M.Second(Mem(cfg), target))
    ensures var n := SideStep(cfg, s, p);
            && n.c.s == StrobesNext(s.c.s, Completes(cfg, s.c.f, p), Ends(cfg, s.c.f, s.c.h, p), false)
            && n.c.h == ShiftStep(cfg, s.c.h, p.b, false, p.valid)
            && n.w == M.WriterStep(Mem(cfg), s.w, ToMemory(s.c))
            && TargetRam(cfg, n, target) == TargetNext(cfg, s.w, TargetRam(cfg, s, target))
            && OtherRam(cfg, n, target) == OtherRam(cfg, s, target)
  {
  }

  lemma WritingFsm(cfg: Widths, s: Side, u: Upload, p: Pins, target: bool)
    requires Rel(cfg, s, u, target) && u.mode == Writing
    ensures var f, n := SideStep(cfg, s, p).c.f, UploadStep(cfg, u, p);
            && !SideStep(cfg, s, p).c.h.toLast
            && (n.mode == Finished) == Ends(cfg, s.c.f, s.c.h, p)
            && (if n.mode == Finished then f.state == SendLastAck && |n.samples| == n.last + 1
                else n.mode == Writing && f.state == WriteSamples && f.byteCounter == n.count < DataSize(cfg) && f.timeout == n.timeout
                     && f.sampleCounter == |n.samples| <= n.last)
            && n.samples == if Completes(cfg, s.c.f, p) then u.samples + [ShiftIn(cfg.data, Pending(cfg, s.c.h), p.b)] else u.samples
  {
  }

  lemma WritingStarts(cfg: Widths, s: Side, u: Upload, p: Pins, target: bool, n: Upload)
    requires Formed(cfg, s) && s.c.f.state == WriteSamples && u.mode == Writing && |u.samples| < Pow2(cfg.addr)
    requires s.c.s.ifReset && u.samples == [] && Quiet(s.c.s, s.w) && s.w.buffer != target
    requires n.samples == if Completes(cfg, s.c.f, p) then u.samples + [ShiftIn(cfg.data, Pending(cfg, s.c.h), p.b)] else u.samples
    requires (n.mode == Finished) == Ends(cfg, s.c.f, s.c.h, p)
    ensures Filling(cfg, SideStep(cfg, s, p), n, target)
  {
    var completes, ends := Completes(cfg, s.c.f, p), Ends(cfg, s.c.f, s.c.h, p);
    WritingParts(cfg, s, p, target);
    assert completes ==> n.samples == [ShiftIn(cfg.data, Pending(cfg, s.c.h), p.b)];
    PipelineStarts(cfg, s.c, s.w, TargetRam(cfg, s, target), p.valid, p.b, completes, ends, n.samples);
  }

  lemma WritingFills(cfg: Widths, s: Side, u: Upload, p: Pins, target: bool, n: Upload)
    requires Formed(cfg, s) && s.c.f.state == WriteSamples && u.mode == Writing && |u.samples| < Pow2(cfg.addr)
    requires Filling(cfg, s, u, target)
    requires n.samples == if Completes(cfg, s.c.f, p) then u.samples + [ShiftIn(cfg.data, Pending(cfg, s.c.h), p.b)] else u.samples
    requires (n.mode == Finished) == Ends(cfg, s.c.f, s.c.h, p)
    ensures Filling(cfg, SideStep(cfg, s, p), n, target)
  {
    var completes, ends := Completes(cfg, s.c.f, p), Ends(cfg, s.c.f, s.c.h, p);
    WritingParts(cfg, s, p, target);
    PipelineMoves(cfg, s.c, s.w, TargetRam(cfg, s, target), u.samples, false, p.valid, p.b, completes, ends, n.samples);
  }

  lemma WritingStep(cfg: Widths, s: Side, u: Upload, p: Pins, target: bool)
    requires Rel(cfg, s, u, target) && u.mode == Writing
    ensures ByMode(cfg, SideStep(cfg, s, p), UploadStep(cfg, u, p), target)
    ensures OtherRam(cfg, SideStep(cfg, s, p), target) == OtherRam(cfg, s, target)
  {
    WritingFsm(cfg, s, u, p, target);
    WritingParts(cfg, s, p, target);
    if s.c.s.ifReset {
      WritingStarts(cfg, s, u, p, target, UploadStep(cfg, u, p));
    } else {
      WritingFills(cfg, s, u, p, target, UploadStep(cfg, u, p));
    }
  }

  lemma PublishedStep(cfg: Widths, s: Side, u: Upload, p: Pins, target: bool)
    requires Rel(cfg, s, u, target) && Expected(u, p) && UploadStep(cfg, u, p).mode == Finished
    ensures Published(cfg, SideStep(cfg, s, p))
  {
  }

  lemma StepRel(cfg: Widths, s: Side, u: Upload, p: Pins, target: bool)
    requires Rel(cfg, s, u, target) && Expected(u, p)
    ensures Rel(cfg, SideStep(cfg, s, p), UploadStep(cfg, u, p), target)
    ensures OtherRam(cfg, SideStep(cfg, s, p), target) == OtherRam(cfg, s, target)
  {
    RegistersStep(cfg, s, u, p, target);
    if UploadStep(cfg, u, p).mode == Finished {
      PublishedStep(cfg, s, u, p, target);
    }
    match u.mode {
      case Ready => ReadyStep(cfg, s, u, p, target);
      case Numbering => ReadyStep(cfg, s, u, p, target);
      case Broken => ReadyStep(cfg, s, u, p, target);
      case Writing => WritingStep(cfg, s, u, p, target);
      case Finished => FinishedStep(cfg, s, u, p, target);
    }
  }

  // ---- The answers ----

  predicate Alive(q: seq<Byte>, most: int) { |q| <= most && forall i :: 0 <= i < |q| ==> q[i] == ALIVE }

  // Bytes received of the samples, and how many of them can be answered by an alive message:
  // every 64th, but not the last one.
  function Total(u: Upload): nat { 64 * u.rounds + u.timeout }
  function MostAlive(u: Upload): int { (Total(u) - 1) / 64 }

  // q: what the host has received and what is in the output register.
  predicate Answered(u: Upload, state: State, q: seq<Byte>) {
    match u.mode
    case Writing => u.timeout < 64 && Alive(q, u.rounds)
    case Finished =>
      && Total(u) > 0 && u.timeout < 64
      && (if state == Init then |q| > 0 && q[|q| - 1] == DONE && Alive(q[..|q| - 1], MostAlive(u)) else Alive(q, MostAlive(u)))
    case _ => q == []
  }

  function Up(t: Tx): seq<Byte> { if t.valid then [t.data] else [] }
  function Delivered(t: Tx, p: Pins): seq<Byte> { if t.valid && p.upReady then [t.data] else [] }

  lemma PutsGoUp(cfg: Widths, c: Controller, p: Pins)
    ensures Delivered(c.t, p) + Up(ControllerStep(cfg, c, p).t) == Up(c.t) + Puts(cfg, c, p)
  {
  }

  lemma AnsweredStep(cfg: Widths, s: Side, u: Upload, p: Pins, target: bool, q: seq<Byte>)
    requires Rel(cfg, s, u, target) && Expected(u, p) && Answered(u, s.c.f.state, q)
    ensures Answered(UploadStep(cfg, u, p), SideStep(cfg, s, p).c.f.state, q + Puts(cfg, s.c, p))
  {
    var put := Puts(cfg, s.c, p);
    if u.mode == Finished && put == [DONE] {
      assert (q + put)[..|q + put| - 1] == q;
    }
    if put == [] {
      assert q + put == q;
    }
  }

  // ---- Runs ----

  datatype Run = Run(s: Side, u: Upload, out: seq<Byte>)

  predicate InStep(cfg: Widths, r: Run, target: bool) {
    Rel(cfg, r.s, r.u, target) && Answered(r.u, r.s.c.f.state, r.out + Up(r.s.c.t))
  }

  // Every upload can start when controller and write process are at rest, whatever their other
  // registers and the memories hold.
  lemma UploadStarts(cfg: Widths, s: Side)
    requires Formed(cfg, s) && cfg.data > 0 && cfg.addr > 0
    requires s.c.f.state == Init && !s.c.t.valid && !s.c.s.ifReset && Quiet(s.c.s, s.w)
    requires !s.c.h.toLast && !s.c.h.toData && s.c.h.last < Pow2(cfg.addr)
    ensures InStep(cfg, Run(s, Upload(Ready, 0, s.c.h.last, s.c.h.data, [], 0, 0), []), !s.w.buffer)
  {
  }

  function Go(cfg: Widths, r: Run, p: Pins): Run
    requires Formed(cfg, r.s)
  {
    Run(SideStep(cfg, r.s, p), UploadStep(cfg, r.u, p), r.out + Delivered(r.s.c.t, p))
  }

  lemma Conveyed(out: seq<Byte>, up: seq<Byte>, puts: seq<Byte>, delivered: seq<Byte>, next: seq<Byte>)
    requires up + puts == delivered + next
    ensures (out + delivered) + next == (out + up) + puts
  {
    assert (out + delivered) + next == out + (delivered + next);
    assert (out + up) + puts == out + (up + puts);
  }

  lemma GoAnswered(cfg: Widths, r: Run, p: Pins, target: bool)
    requires InStep(cfg, r, target) && Expected(r.u, p)
    ensures var n := SideStep(cfg, r.s, p).c;
            Answered(UploadStep(cfg, r.u, p), n.f.state, (r.out + Delivered(r.s.c.t, p)) + Up(n.t))
  {
    AnsweredStep(cfg, r.s, r.u, p, target, r.out + Up(r.s.c.t));
    PutsGoUp(cfg, r.s.c, p);
    Conveyed(r.out, Up(r.s.c.t), Puts(cfg, r.s.c, p), Delivered(r.s.c.t, p), Up(SideStep(cfg, r.s, p).c.t));
  }

  lemma GoInStep(cfg: Widths, r: Run, p: Pins, target: bool)
    requires InStep(cfg, r, target) && Expected(r.u, p)
    ensures InStep(cfg, Go(cfg, r, p), target) && OtherRam(cfg, Go(cfg, r, p).s, target) == OtherRam(cfg, r.s, target)
  {
    StepRel(cfg, r.s, r.u, p, target);
    GoAnswered(cfg, r, p, target);
  }

  function RunAll(cfg: Widths, r: Run, ps: seq<Pins>): (n: Run)
    requires Formed(cfg, r.s)
    ensures Formed(cfg, n.s)
    decreases |ps|
  {
    if |ps| == 0 then r else RunAll(cfg, Go(cfg, r, ps[0]), ps[1..])
  }

  predicate AllExpected(cfg: Widths, u: Upload, ps: seq<Pins>)
    decreases |ps|
  {
    |ps| == 0 || (Expected(u, ps[0]) && AllExpected(cfg, UploadStep(cfg, u, ps[0]), ps[1..]))
  }

  function BytesOf(ps: seq<Pins>): seq<Byte> {
    if |ps| == 0 then [] else (if ps[0].valid then [ps[0].b] else []) + BytesOf(ps[1..])
  }

  function FeedAll(cfg: Widths, u: Upload, s: seq<Byte>): Upload
    decreases |s|
  {
    if |s| == 0 then u else FeedAll(cfg, ByteIn(cfg, u, s[0]), s[1..])
  }

  // For every timing: the controller and the memory do what the bytes alone say.
  lemma {:induction false} RunUploads(cfg: Widths, r: Run, ps: seq<Pins>, target: bool)
    requires InStep(cfg, r, target) && AllExpected(cfg, r.u, ps)
    ensures var n := RunAll(cfg, r, ps);
            && InStep(cfg, n, target) && n.u == FeedAll(cfg, r.u, BytesOf(ps))
            && OtherRam(cfg, n.s, target) == OtherRam(cfg, r.s, target)
    decreases |ps|
  {
    if |ps| == 0 {
    } else {
      GoInStep(cfg, r, ps[0], target);
      RunUploads(cfg, Go(cfg, r, ps[0]), ps[1..], target);
      if ps[0].valid {
        assert BytesOf(ps)[1..] == BytesOf(ps[1..]);
      } else {
        assert BytesOf(ps) == BytesOf(ps[1..]);
      }
    }
  }

  // ---- The end of an upload ----

  // At most three clocks after the last byte (SettlesSoon) the memory holds all samples:
  // sample i is at address i; the address of the last sample and the buffer are published; the
  // other buffer is untouched (RunUploads); the host got at most one alive message for every 64
  // bytes but the last, and then exactly one final answer.
  lemma UploadComplete(cfg: Widths, r: Run, target: bool)
    requires InStep(cfg, r, target) && r.u.mode == Finished && Settled(cfg, r.s)
    ensures TargetRam(cfg, r.s, target)[..|r.u.samples|] == r.u.samples && |r.u.samples| == r.u.last + 1
    ensures r.s.w.next == M.Next(r.u.last, target) && (!r.s.w.nextStb ==> r.s.next == M.Next(r.u.last, target))
    ensures r.s.c.f.state == Init && !r.s.c.t.valid ==>
              && |r.out| > 0 && r.out[|r.out| - 1] == DONE && Alive(r.out[..|r.out| - 1], MostAlive(r.u))
  {
    assert r.out + [] == r.out;
  }

  // Clocks until the last sample is in the memory.
  function Depth(cfg: Widths, s: Side): nat {
    if s.c.s.validEarly then 3 else if s.c.s.valid then 2 else if M.WeCom(Mem(cfg), s.w) then 1 else 0
  }

  lemma Drains(cfg: Widths, s: Side, p: Pins)
    requires Formed(cfg, s) && !p.valid && (s.c.f.state == SendLastAck || s.c.f.state == Init)
    ensures Depth(cfg, SideStep(cfg, s, p)) == if Depth(cfg, s) > 0 then Depth(cfg, s) - 1 else 0
  {
  }

  lemma {:induction false} SettlesSoon(cfg: Widths, r: Run, ps: seq<Pins>, target: bool)
    requires InStep(cfg, r, target) && r.u.mode == Finished && AllExpected(cfg, r.u, ps) && |ps| >= Depth(cfg, r.s)
    ensures Settled(cfg, RunAll(cfg, r, ps).s) && RunAll(cfg, r, ps).u == r.u
    decreases |ps|
  {
    if |ps| == 0 {
    } else {
      GoInStep(cfg, r, ps[0], target);
      Drains(cfg, r.s, ps[0]);
      SettlesSoon(cfg, Go(cfg, r, ps[0]), ps[1..], target);
    }
  }

  // The next upload may begin when the host has its final answer; it takes the other buffer.
  lemma NextUpload(cfg: Widths, r: Run, target: bool)
    requires InStep(cfg, r, target) && r.u.mode == Finished && Settled(cfg, r.s) && r.s.c.f.state == Init && !r.s.c.t.valid
    ensures InStep(cfg, Run(r.s, r.u.(mode := Ready), []), !target)
  {
  }

  // An upload that breaks stores nothing and is never answered.
  lemma {:induction false} BrokenStoresNothing(cfg: Widths, r: Run, ps: seq<Pins>, target: bool)
    requires InStep(cfg, r, target) && AllExpected(cfg, r.u, ps) && RunAll(cfg, r, ps).u.mode == Broken
    ensures var n := RunAll(cfg, r, ps);
            Early(r.u.mode) && n.s.ram == r.s.ram && n.s.ram2 == r.s.ram2 && n.out + Up(n.s.c.t) == []
    decreases |ps|
  {
    if |ps| == 0 {
    } else {
      GoInStep(cfg, r, ps[0], target);
      BrokenStoresNothing(cfg, Go(cfg, r, ps[0]), ps[1..], target);
      ReadyStep(cfg, r.s, r.u, ps[0], target);
    }
  }

  // Every counter is inside its declared range unless the machine has stopped with a range
  // error, and that happens only when the address takes more than one byte more than a sample.
  lemma CountersFit(cfg: Widths, s: Side, u: Upload, target: bool)
    requires Rel(cfg, s, u, target)
    ensures u.mode == Writing ==> s.c.f.byteCounter <= DataSize(cfg)
    ensures u.mode == Numbering ==> s.c.f.addrBytes <= DataSize(cfg)
    ensures s.c.f.state == OutOfRange <==> u.mode == Broken
    ensures u.mode == Broken ==> !Fits(cfg)
  {
  }
}
