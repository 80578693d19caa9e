// LogicAnalyserController while it reads a capture out, together with the memory: the two
// clocked processes step at the same edge and see each other's registers as they were before.
module LaReadout {
  import opened LaMemory
  import opened LaCapture

  type Octet = s: seq<bool> | |s| == 8 witness [false, false, false, false, false, false, false, false]
  const ZERO: Octet := [false, false, false, false, false, false, false, false]

  datatype Output = Begin | Store | Shift | GetNext

  // reading: the controller is in state data_output, else in init.
  datatype Controller = Controller(
    reading: bool, output: Output, byteCount: nat, temporary: Word,
    ending: bool, theEnd: bool, upValid: bool, upData: Octet,
    request: bool, triggerActive: bool, fire: bool)

  datatype CtlIn = CtlIn(full: bool, data: Word, dataValid: bool, finish: bool,
                         ready: bool, activate: bool, fire: bool, any: Octet)

  // Bytes per sample, for samples of w bits.
  function BytesPer(w: nat): nat { (w + 7) / 8 }

  // The low byte of the sample register and what the register holds after it is sent; the
  // bits shifted in are undefined.
  function LowByte(w: nat, t: Word): Octet
    requires |t| == w
  {
    if w <= 8 then t + ZERO[w..] else t[..8]
  }

  function Shifted(w: nat, t: Word, any: Octet): (r: Word)
    requires |t| == w
    ensures |r| == w
  {
    if w <= 8 then any[..w] else t[8..] + any
  }

  predicate UpFree(c: Controller, ready: bool) { !c.upValid || ready }

  // The bytes of the sample are sent one by one.
  function StoreStep(w: nat, c: Controller, t: Controller, i: CtlIn): (r: Controller)
    requires |c.temporary| == w && |t.temporary| == w
    ensures |r.temporary| == w
  {
    var u := t.(request := false);
    if !UpFree(c, i.ready) then u
    else
      var v := u.(upValid := true, upData := LowByte(w, c.temporary), temporary := Shifted(w, c.temporary, i.any));
      if c.byteCount == BytesPer(w) - 1 then v.(output := Shift) else v.(byteCount := c.byteCount + 1)
  }

  // What state data_output does to the registers t, given what they were before the edge (c).
  function OutputStep(w: nat, c: Controller, t: Controller, i: CtlIn): (r: Controller)
    requires |c.temporary| == w && |t.temporary| == w && |i.data| == w
    ensures |r.temporary| == w
  {
    match c.output
    case Begin =>
      if i.dataValid then t.(temporary := i.data, byteCount := 0, output := Store) else t
    case Store => StoreStep(w, c, t, i)
    case Shift =>
      if !i.dataValid then t.(request := true, output := GetNext) else t
    case GetNext =>
      var u := if c.ending then t.(theEnd := true) else t;
      if i.dataValid then u.(byteCount := 0, temporary := i.data, output := Store) else u
  }

  // The request falls with the first clock of a sample, also while the uplink is not ready.
  lemma StoreLowersRequest(w: nat, c: Controller, t: Controller, i: CtlIn)
    requires |c.temporary| == w && |t.temporary| == w && |i.data| == w && c.output.Store?
    ensures !OutputStep(w, c, t, i).request
  {
  }

  // What a readout does in every state of data_output: the end of the capture is seen, and
  // then the end of the readout.
  function EndStep(c: Controller, i: CtlIn): Controller {
    c.(upValid := c.upValid && !i.ready, triggerActive := c.triggerActive && !i.finish, fire := c.fire && !i.finish,
       ending := c.ending || i.finish, reading := !c.theEnd, output := if c.theEnd then Begin else c.output)
  }

  function InitStep(c: Controller, i: CtlIn): Controller {
    var t := c.(upValid := c.upValid && !i.ready, output := Begin, triggerActive := c.triggerActive || i.activate, fire := c.fire || i.fire);
    if i.full then t.(request := true, reading := true, ending := false, theEnd := false) else t
  }

  function CtlStep(w: nat, c: Controller, i: CtlIn): (r: Controller)
    requires w >= 1 && |c.temporary| == w && |i.data| == w
    ensures |r.temporary| == w
  {
    if !c.reading then InitStep(c, i) else OutputStep(w, c, EndStep(c, i), i)
  }

  // ---- Controller and memory ----

  // groups: the bytes put into the output register, one group per sample taken from the
  // memory; sent: the bytes the uplink has taken.
  datatype System = System(cap: Capture, ctl: Controller, groups: seq<seq<Octet>>, sent: seq<Octet>)

  datatype In = In(sampleEnable: bool, probe: Word, trigger: bool, delay: nat, ready: bool, any: Octet)

  function MemSees(s: System, i: In): MemIn {
    MemIn(i.sampleEnable, i.probe, s.ctl.triggerActive, i.trigger, i.delay, s.ctl.request)
  }

  // No command of the host arrives during a capture.
  function CtlSees(s: System, i: In): CtlIn {
    var c := s.cap.m.c;
    CtlIn(c.full, c.data, c.dataValid, c.finish, i.ready, false, false, i.any)
  }

  // All words are w bits wide.
  predicate Wide(w: nat, p: Pipe) {
    && (forall k :: 0 <= k < |p.ram| ==> |p.ram[k]| == w)
    && |p.writeData| == w && |p.wdDly| == w && |p.readNext| == w && |p.readData| == w
  }

  predicate Shaped(n: nat, w: nat, s: System) {
    && w >= 1 && Sized(n, s.cap.m) && Wide(w, s.cap.m.p)
    && |s.ctl.temporary| == w && |s.cap.m.c.data| == w
  }

  predicate Proper(n: nat, w: nat, i: In) { i.delay < n && |i.probe| == w }

  predicate Takes(s: System) {
    s.ctl.reading && (s.ctl.output.Begin? || s.ctl.output.GetNext?) && s.cap.m.c.dataValid
  }

  predicate Produces(s: System, i: In) {
    s.ctl.reading && s.ctl.output.Store? && UpFree(s.ctl, i.ready)
  }

  function Step(n: nat, w: nat, s: System, i: In): System
    requires Shaped(n, w, s)
  {
    System(
      CaptureStep(n, s.cap, MemSees(s, i)),
      CtlStep(w, s.ctl, CtlSees(s, i)),
      if Takes(s) then s.groups + [[]]
      else if Produces(s, i) && |s.groups| > 0
      then s.groups[|s.groups| - 1 := s.groups[|s.groups| - 1] + [LowByte(w, s.ctl.temporary)]]
      else s.groups,
      if s.ctl.upValid && i.ready then s.sent + [s.ctl.upData] else s.sent)
  }

  lemma PipeWidth(n: nat, w: nat, p: Pipe, i: MemIn, records: bool, readAddress: nat)
    requires SizedPipe(n, p) && Wide(w, p) && |i.probe| == w
    ensures Wide(w, PipeStep(n, p, i, records, readAddress))
  {
  }

  lemma StepShaped(n: nat, w: nat, s: System, i: In)
    requires Shaped(n, w, s) && Proper(n, w, i)
    ensures Shaped(n, w, Step(n, w, s, i))
  {
    var m := s.cap.m;
    MemStepSized(n, m, MemSees(s, i));
    PipeWidth(n, w, m.p, MemSees(s, i), Records(m.c, MemSees(s, i)), m.c.readAddress);
  }

  // ---- What the two agree on ----

  predicate Live(c: Control) { !c.state.WaitAckFinish? && !c.state.Idle? }

  // The end of a readout, step by step: the memory has just raised finish, the controller has
  // seen it, the memory is idle again, and it has lowered finish and full.
  predicate Ended(c: Control, t: Controller, k: nat) {
    && !c.dataValid
    && match k
       case 0 => c.state.WaitAckFinish? && c.finish && c.full && t.triggerActive && (t.reading ==> !t.ending)
       case 1 => c.state.WaitAckFinish? && c.finish && c.full && !t.triggerActive && t.ending
       case 2 => c.state.Idle? && c.finish && c.full && !t.triggerActive && t.ending
       case _ => c.state.Idle? && !c.finish && !c.full && !t.triggerActive && t.ending
  }

  // Where the readout of n samples is when e samples were shown by the memory.
  predicate Stages(n: nat, c: Control, t: Controller, e: nat) {
    if Live(c) then
      && t.triggerActive && (t.reading ==> !t.ending)
      && c.dataValid == c.state.DrainHandshake? && !c.finish && c.full == !Recording(c)
      && (Recording(c) ==> e == 0)
      && (!Recording(c) ==> e <= n && c.counter == n - e)
      && (c.state.Drain? ==> e < n)
    else
      e == n && (Ended(c, t, 0) || Ended(c, t, 1) || Ended(c, t, 2) || Ended(c, t, 3))
  }

  // The handshake when the controller has taken g samples.
  predicate Handshake(n: nat, w: nat, c: Control, t: Controller, e: nat, g: nat) {
    if !t.reading then
      || (Recording(c) && g == 0)
      || (c.state.Drain? && c.dataReady == 0 && e == 0 && g == 0)
      || (Ended(c, t, 3) && g == n)
    else
      && !Recording(c)
      && (t.theEnd ==> t.output.GetNext? && (Ended(c, t, 2) || Ended(c, t, 3)))
      && match t.output
         case Begin => Live(c) && t.request && g == 0 && e == if c.dataValid then 1 else 0
         case Store => g > 0 && e == g && t.byteCount < BytesPer(w)
                       && (t.request ==> c.state.DrainHandshake? && t.byteCount == 0)
                       && (c.state.Drain? ==> c.dataReady == 0)
         case Shift => g > 0 && e == g && !t.request && (c.state.Drain? ==> c.dataReady == 0)
         case GetNext => g > 0 && t.request && !Ended(c, t, 0) && e == g + if c.dataValid then 1 else 0
  }

  // Byte b of a sample, least significant first; a sample narrower than a byte is zero
  // extended, bits of the last byte beyond a wider sample are undefined.
  predicate ByteOf(w: nat, sample: Word, b: nat, octet: Octet)
    requires |sample| == w
  {
    forall t :: 0 <= t < 8 ==>
      (8 * b + t < w ==> octet[t] == sample[8 * b + t]) && (w < 8 && t >= w ==> !octet[t])
  }

  predicate Serializes(w: nat, sample: Word, octets: seq<Octet>) {
    && |sample| == w && |octets| <= BytesPer(w)
    && forall b :: 0 <= b < |octets| ==> ByteOf(w, sample, b, octets[b])
  }

  // What is left of a sample after k of its bytes.
  predicate Remains(w: nat, sample: Word, temporary: Word, k: nat) {
    && |sample| == w && |temporary| == w
    && forall t :: 0 <= t && 8 * k + t < w ==> temporary[t] == sample[8 * k + t]
  }

  // The groups of bytes of the samples taken so far; storing: the last one is being sent.
  predicate Bytewise(w: nat, window: seq<Word>, groups: seq<seq<Octet>>, storing: bool, byteCount: nat, temporary: Word) {
    var g := |groups|;
    && g <= |window|
    && (forall k :: 0 <= k < g ==> Serializes(w, window[k], groups[k]))
    && (forall k :: 0 <= k < g - 1 ==> |groups[k]| == BytesPer(w))
    && (g > 0 && !storing ==> |groups[g - 1]| == BytesPer(w))
    && (g > 0 && storing ==>
          |groups[g - 1]| == byteCount < BytesPer(w) && Remains(w, window[g - 1], temporary, byteCount))
  }

  predicate Storing(t: Controller) { t.reading && t.output.Store? }

  predicate Sending(n: nat, w: nat, s: System) {
    if |s.groups| == 0 then true
    else
      && |s.cap.recorded| >= n && !Recording(s.cap.m.c)
      && Bytewise(w, Window(n, s.cap), s.groups, Storing(s.ctl), s.ctl.byteCount, s.ctl.temporary)
  }

  // While the memory is live its capture invariant holds; afterwards the result stays.
  predicate Captured(n: nat, d: nat, s: System) {
    if Live(s.cap.m.c) then CaptureInv(n, d, s.cap)
    else
      && |s.cap.triggers| == |s.cap.recorded| >= n
      && TriggerAt(d, s.cap.triggers, |s.cap.recorded| + d - n)
      && s.cap.emitted == Window(n, s.cap)
  }

  predicate Synchronous(n: nat, w: nat, s: System) {
    && Stages(n, s.cap.m.c, s.ctl, |s.cap.emitted|)
    && Handshake(n, w, s.cap.m.c, s.ctl, |s.cap.emitted|, |s.groups|)
  }

  predicate Inv(n: nat, w: nat, d: nat, s: System) {
    && Shaped(n, w, s) && d < n
    && Captured(n, d, s) && Synchronous(n, w, s)
    && (forall k :: 0 <= k < |s.cap.recorded| ==> |s.cap.recorded[k]| == w)
    && Sending(n, w, s)
  }

  // The inputs of the two processes belong to the same edge.
  predicate Wired(c: Control, t: Controller, mi: MemIn, ci: CtlIn) {
    && mi.triggerActive == t.triggerActive && mi.request == t.request
    && ci.full == c.full && ci.dataValid == c.dataValid && ci.finish == c.finish && !ci.activate && !ci.fire
  }

  predicate Comparators(n: nat, c: Control) {
    && (Recording(c) ==> c.dataReady == 0)
    && ((c.state.FillUp? || c.state.WaitTrigger?) && c.nearMax ==> c.counter == n - 1)
  }

  lemma LiveStages(n: nat, w: nat, c: Control, t: Controller, e: nat, g: nat,
                   mi: MemIn, ci: CtlIn, writeAddress: nat, readData: Word)
    requires SizedControl(n, c) && w >= 1 && |t.temporary| == w && |ci.data| == w && Live(c)
    requires Stages(n, c, t, e) && Handshake(n, w, c, t, e, g) && Comparators(n, c) && Wired(c, t, mi, ci)
    ensures Stages(n, ControlStep(n, c, mi, writeAddress, readData), CtlStep(w, t, ci), if Emits(c, mi) then e + 1 else e)
  {
  }

  lemma EndStages(n: nat, w: nat, c: Control, t: Controller, e: nat, g: nat,
                  mi: MemIn, ci: CtlIn, writeAddress: nat, readData: Word)
    requires SizedControl(n, c) && w >= 1 && |t.temporary| == w && |ci.data| == w && !Live(c)
    requires Stages(n, c, t, e) && Handshake(n, w, c, t, e, g) && Wired(c, t, mi, ci)
    ensures Stages(n, ControlStep(n, c, mi, writeAddress, readData), CtlStep(w, t, ci), e) && !Emits(c, mi)
  {
  }

  predicate TakesSample(c: Control, t: Controller) {
    t.reading && (t.output.Begin? || t.output.GetNext?) && c.dataValid
  }

  lemma HandshakeBegins(n: nat, w: nat, c: Control, t: Controller, e: nat, g: nat,
                        mi: MemIn, ci: CtlIn, writeAddress: nat, readData: Word)
    requires SizedControl(n, c) && w >= 1 && |t.temporary| == w && |ci.data| == w && !t.reading
    requires Stages(n, c, t, e) && Handshake(n, w, c, t, e, g) && Comparators(n, c) && Wired(c, t, mi, ci)
    ensures Handshake(n, w, ControlStep(n, c, mi, writeAddress, readData), CtlStep(w, t, ci), e, g)
    ensures !Emits(c, mi)
  {
  }

  // While the controller waits for a sample.
  lemma HandshakeTakes(n: nat, w: nat, c: Control, t: Controller, e: nat, g: nat,
                       mi: MemIn, ci: CtlIn, writeAddress: nat, readData: Word)
    requires SizedControl(n, c) && w >= 1 && |t.temporary| == w && |ci.data| == w && t.reading && (t.output.Begin? || t.output.GetNext?)
    requires Stages(n, c, t, e) && Handshake(n, w, c, t, e, g) && Wired(c, t, mi, ci)
    ensures Handshake(n, w, ControlStep(n, c, mi, writeAddress, readData), CtlStep(w, t, ci),
                      if Emits(c, mi) then e + 1 else e, if TakesSample(c, t) then g + 1 else g)
  {
  }

  // While it sends one.
  lemma HandshakeSends(n: nat, w: nat, c: Control, t: Controller, e: nat, g: nat,
                       mi: MemIn, ci: CtlIn, writeAddress: nat, readData: Word)
    requires SizedControl(n, c) && w >= 1 && |t.temporary| == w && |ci.data| == w && t.reading && (t.output.Store? || t.output.Shift?)
    requires Stages(n, c, t, e) && Handshake(n, w, c, t, e, g) && Wired(c, t, mi, ci)
    ensures Handshake(n, w, ControlStep(n, c, mi, writeAddress, readData), CtlStep(w, t, ci), if Emits(c, mi) then e + 1 else e, g)
  {
  }

  lemma HandshakeStep(n: nat, w: nat, c: Control, t: Controller, e: nat, g: nat,
                      mi: MemIn, ci: CtlIn, writeAddress: nat, readData: Word)
    requires SizedControl(n, c) && w >= 1 && |t.temporary| == w && |ci.data| == w && t.reading
    requires Stages(n, c, t, e) && Handshake(n, w, c, t, e, g) && Wired(c, t, mi, ci)
    ensures Handshake(n, w, ControlStep(n, c, mi, writeAddress, readData), CtlStep(w, t, ci),
                      if Emits(c, mi) then e + 1 else e, if TakesSample(c, t) then g + 1 else g)
  {
    if t.output.Begin? || t.output.GetNext? {
      HandshakeTakes(n, w, c, t, e, g, mi, ci, writeAddress, readData);
    } else {
      HandshakeSends(n, w, c, t, e, g, mi, ci, writeAddress, readData);
    }
  }

  lemma ComparatorsHold(n: nat, d: nat, s: Capture)
    requires CaptureInv(n, d, s)
    ensures Comparators(n, s.m.c)
  {
  }

  lemma StepParts(n: nat, w: nat, s: System, i: In)
    requires Shaped(n, w, s)
    ensures var t := Step(n, w, s, i);
            var m := s.cap.m;
            && t.cap.m.c == ControlStep(n, m.c, MemSees(s, i), m.p.writeAddress, m.p.readData)
            && t.ctl == CtlStep(w, s.ctl, CtlSees(s, i))
            && |t.cap.emitted| == (if Emits(m.c, MemSees(s, i)) then |s.cap.emitted| + 1 else |s.cap.emitted|)
            && |t.groups| == (if Takes(s) then |s.groups| + 1 else |s.groups|)
            && Wired(m.c, s.ctl, MemSees(s, i), CtlSees(s, i))
  {
  }

  lemma SynchronousKeeps(n: nat, w: nat, s: System, i: In)
    requires Shaped(n, w, s) && Synchronous(n, w, s) && Comparators(n, s.cap.m.c)
    ensures Synchronous(n, w, Step(n, w, s, i))
  {
    var m := s.cap.m;
    var e, g := |s.cap.emitted|, |s.groups|;
    var mi, ci := MemSees(s, i), CtlSees(s, i);
    StepParts(n, w, s, i);
    if Live(m.c) {
      LiveStages(n, w, m.c, s.ctl, e, g, mi, ci, m.p.writeAddress, m.p.readData);
    } else {
      EndStages(n, w, m.c, s.ctl, e, g, mi, ci, m.p.writeAddress, m.p.readData);
    }
    if s.ctl.reading {
      HandshakeStep(n, w, m.c, s.ctl, e, g, mi, ci, m.p.writeAddress, m.p.readData);
    } else {
      HandshakeBegins(n, w, m.c, s.ctl, e, g, mi, ci, m.p.writeAddress, m.p.readData);
    }
  }

  lemma Finished(n: nat, d: nat, t: Capture)
    requires CaptureInv(n, d, t) && t.m.c.state.WaitAckFinish?
    ensures |t.triggers| == |t.recorded| >= n
    ensures TriggerAt(d, t.triggers, |t.recorded| + d - n)
    ensures t.emitted == Window(n, t)
  {
    assert EmittedPrefix(n, t);
    assert Window(n, t)[..n] == Window(n, t);
  }

  lemma LiveKeeps(n: nat, d: nat, s: Capture, i: MemIn)
    requires CaptureInv(n, d, s) && i.triggerActive && i.delay < n
    ensures var t := CaptureStep(n, s, i);
            if Live(t.m.c) then CaptureInv(n, d, t)
            else |t.triggers| == |t.recorded| >= n && TriggerAt(d, t.triggers, |t.recorded| + d - n) && t.emitted == Window(n, t)
  {
    CaptureStepKeeps(n, d, s, i);
    var t := CaptureStep(n, s, i);
    if !Live(t.m.c) {
      Finished(n, d, t);
    }
  }

  lemma LiveSees(n: nat, w: nat, s: System, i: In)
    requires Synchronous(n, w, s) && Live(s.cap.m.c)
    ensures MemSees(s, i).triggerActive && MemSees(s, i).delay == i.delay
  {
  }

  lemma LiveCaptured(n: nat, w: nat, d: nat, s: System, i: In)
    requires Shaped(n, w, s) && Captured(n, d, s) && Synchronous(n, w, s) && Proper(n, w, i) && Live(s.cap.m.c)
    ensures Captured(n, d, Step(n, w, s, i))
  {
    LiveSees(n, w, s, i);
    LiveKeeps(n, d, s.cap, MemSees(s, i));
  }

  lemma EndedKeeps(n: nat, w: nat, d: nat, s: System, i: In)
    requires Shaped(n, w, s) && Captured(n, d, s) && Synchronous(n, w, s) && !Live(s.cap.m.c)
    ensures Captured(n, d, Step(n, w, s, i))
  {
    var t := CaptureStep(n, s.cap, MemSees(s, i));
    assert !Live(t.m.c);
    assert t.recorded == s.cap.recorded && t.triggers == s.cap.triggers && t.emitted == s.cap.emitted;
  }

  lemma CapturedKeeps(n: nat, w: nat, d: nat, s: System, i: In)
    requires Shaped(n, w, s) && Captured(n, d, s) && Synchronous(n, w, s) && Proper(n, w, i)
    ensures Captured(n, d, Step(n, w, s, i))
  {
    if Live(s.cap.m.c) {
      LiveCaptured(n, w, d, s, i);
    } else {
      EndedKeeps(n, w, d, s, i);
    }
  }

  // One more byte of a sample.
  lemma ByteOut(w: nat, sample: Word, octets: seq<Octet>, temporary: Word, any: Octet)
    requires w >= 1 && Serializes(w, sample, octets) && |octets| < BytesPer(w)
    requires Remains(w, sample, temporary, |octets|)
    ensures Serializes(w, sample, octets + [LowByte(w, temporary)])
    ensures Remains(w, sample, Shifted(w, temporary, any), |octets| + 1)
  {
    assert ByteOf(w, sample, |octets|, LowByte(w, temporary));
  }

  lemma ByteSent(w: nat, window: seq<Word>, groups: seq<seq<Octet>>, byteCount: nat, temporary: Word, any: Octet)
    requires w >= 1 && |groups| > 0 && Bytewise(w, window, groups, true, byteCount, temporary)
    ensures var g := |groups| - 1;
            Bytewise(w, window, groups[g := groups[g] + [LowByte(w, temporary)]],
                     byteCount != BytesPer(w) - 1, byteCount + 1, Shifted(w, temporary, any))
  {
    var g := |groups| - 1;
    ByteOut(w, window[g], groups[g], temporary, any);
  }

  lemma SampleTaken(w: nat, window: seq<Word>, groups: seq<seq<Octet>>, byteCount: nat, temporary: Word, sample: Word)
    requires w >= 1 && (|groups| > 0 ==> Bytewise(w, window, groups, false, byteCount, temporary))
    requires |groups| < |window| && sample == window[|groups|] && |sample| == w
    ensures Bytewise(w, window, groups + [[]], true, 0, sample)
  {
  }

  // Samples are recorded only before the readout, and they are w bits wide.
  lemma RecordedKeeps(n: nat, w: nat, s: System, i: In)
    requires Shaped(n, w, s) && Proper(n, w, i)
    requires forall k :: 0 <= k < |s.cap.recorded| ==> |s.cap.recorded[k]| == w
    ensures var t := Step(n, w, s, i);
            && (forall k :: 0 <= k < |t.cap.recorded| ==> |t.cap.recorded[k]| == w)
            && (!Recording(s.cap.m.c) ==> t.cap.recorded == s.cap.recorded)
  {
  }

  // The sample the memory shows is the next one of the window.
  lemma ShownSample(n: nat, w: nat, d: nat, s: System)
    requires Inv(n, w, d, s) && Takes(s)
    ensures |s.cap.recorded| >= n && |s.groups| < n && !Recording(s.cap.m.c)
    ensures s.cap.m.c.data == Window(n, s.cap)[|s.groups|]
  {
    assert CaptureInv(n, d, s.cap);
    assert EmittedPrefix(n, s.cap);
  }

  lemma NotRecordingStays(n: nat, w: nat, s: System, i: In)
    requires Shaped(n, w, s) && Synchronous(n, w, s) && !Recording(s.cap.m.c)
    ensures !Recording(Step(n, w, s, i).cap.m.c)
  {
  }

  lemma CtlTakes(w: nat, t: Controller, i: CtlIn)
    requires w >= 1 && |t.temporary| == w && |i.data| == w
    requires t.reading && (t.output.Begin? || t.output.GetNext?) && i.dataValid && !t.theEnd
    ensures var u := CtlStep(w, t, i); Storing(u) && u.byteCount == 0 && u.temporary == i.data
  {
  }

  lemma TakingStep(n: nat, w: nat, s: System, i: In)
    requires Shaped(n, w, s) && Takes(s) && !s.ctl.theEnd && !Recording(s.cap.m.c)
    ensures var t := Step(n, w, s, i);
            && t.cap.recorded == s.cap.recorded && t.groups == s.groups + [[]]
            && Storing(t.ctl) && t.ctl.byteCount == 0 && t.ctl.temporary == s.cap.m.c.data
  {
    CtlTakes(w, s.ctl, CtlSees(s, i));
  }

  lemma TakingKeeps(n: nat, w: nat, s: System, i: In)
    requires Shaped(n, w, s) && Proper(n, w, i) && Takes(s) && !s.ctl.theEnd && Sending(n, w, s)
    requires |s.cap.recorded| >= n && |s.groups| < n && !Recording(s.cap.m.c)
    requires s.cap.m.c.data == Window(n, s.cap)[|s.groups|]
    requires s.groups == [] || !Storing(s.ctl)
    requires !Recording(Step(n, w, s, i).cap.m.c)
    ensures Sending(n, w, Step(n, w, s, i))
  {
    TakingStep(n, w, s, i);
    SampleTaken(w, Window(n, s.cap), s.groups, s.ctl.byteCount, s.ctl.temporary, s.cap.m.c.data);
  }

  // What the controller does to the bytes while it takes no sample.
  lemma CtlBytes(w: nat, t: Controller, i: CtlIn)
    requires w >= 1 && |t.temporary| == w && |i.data| == w
    requires t.reading && (t.output.Begin? || t.output.GetNext?) ==> !i.dataValid
    requires t.reading && t.theEnd ==> !Storing(t)
    ensures var u := CtlStep(w, t, i);
            if Storing(t) && UpFree(t, i.ready) then
              && u.temporary == Shifted(w, t.temporary, i.any)
              && Storing(u) == (t.byteCount != BytesPer(w) - 1)
              && (Storing(u) ==> u.byteCount == t.byteCount + 1)
            else Storing(u) == Storing(t) && u.byteCount == t.byteCount && u.temporary == t.temporary
  {
  }

  lemma SendingKeeps(n: nat, w: nat, d: nat, s: System, i: In)
    requires Inv(n, w, d, s) && Proper(n, w, i)
    ensures Sending(n, w, Step(n, w, s, i))
  {
    if Takes(s) {
      ShownSample(n, w, d, s);
      NotRecordingStays(n, w, s, i);
      TakingKeeps(n, w, s, i);
    } else if |s.groups| > 0 {
      StoringKeeps(n, w, s, i);
    }
  }

  lemma BytesKept(w: nat, window: seq<Word>, groups: seq<seq<Octet>>, t: Controller, i: CtlIn)
    requires w >= 1 && |t.temporary| == w && |i.data| == w
    requires t.reading && (t.output.Begin? || t.output.GetNext?) ==> !i.dataValid
    requires t.reading && t.theEnd ==> !Storing(t)
    requires |groups| > 0 && Bytewise(w, window, groups, Storing(t), t.byteCount, t.temporary)
    ensures var u := CtlStep(w, t, i);
            var g := |groups| - 1;
            var next := if Storing(t) && UpFree(t, i.ready) then groups[g := groups[g] + [LowByte(w, t.temporary)]] else groups;
            Bytewise(w, window, next, Storing(u), u.byteCount, u.temporary)
  {
    CtlBytes(w, t, i);
    if Storing(t) && UpFree(t, i.ready) {
      ByteSent(w, window, groups, t.byteCount, t.temporary, i.any);
    }
  }

  // The groups after an edge at which no sample is taken.
  function GroupsNext(w: nat, s: System, i: In): seq<seq<Octet>>
    requires |s.ctl.temporary| == w && |s.groups| > 0
  {
    var g := |s.groups| - 1;
    if Storing(s.ctl) && UpFree(s.ctl, i.ready) then s.groups[g := s.groups[g] + [LowByte(w, s.ctl.temporary)]]
    else s.groups
  }

  lemma StoringParts(n: nat, w: nat, s: System, i: In)
    requires Shaped(n, w, s) && Proper(n, w, i) && Synchronous(n, w, s) && !Recording(s.cap.m.c)
    requires !Takes(s) && |s.groups| > 0
    ensures var t := Step(n, w, s, i);
            && t.cap.recorded == s.cap.recorded && !Recording(t.cap.m.c)
            && t.ctl == CtlStep(w, s.ctl, CtlSees(s, i)) && t.groups == GroupsNext(w, s, i)
            && (s.ctl.reading && s.ctl.theEnd ==> !Storing(s.ctl))
  {
    NotRecordingStays(n, w, s, i);
  }

  lemma SendingAt(n: nat, w: nat, s: System, t: System, window: seq<Word>)
    requires t.cap.recorded == s.cap.recorded && |s.cap.recorded| >= n && window == Window(n, s.cap)
    requires !Recording(t.cap.m.c)
    requires Bytewise(w, window, t.groups, Storing(t.ctl), t.ctl.byteCount, t.ctl.temporary)
    ensures Sending(n, w, t)
  {
  }

  lemma StoringKeeps(n: nat, w: nat, s: System, i: In)
    requires Shaped(n, w, s) && Proper(n, w, i) && Synchronous(n, w, s) && Sending(n, w, s)
    requires !Takes(s) && |s.groups| > 0
    ensures Sending(n, w, Step(n, w, s, i))
  {
    StoringParts(n, w, s, i);
    BytesKept(w, Window(n, s.cap), s.groups, s.ctl, CtlSees(s, i));
    SendingAt(n, w, s, Step(n, w, s, i), Window(n, s.cap));
  }

  lemma StepKeeps(n: nat, w: nat, d: nat, s: System, i: In)
    requires Inv(n, w, d, s) && Proper(n, w, i)
    ensures Inv(n, w, d, Step(n, w, s, i))
  {
    assert Comparators(n, s.cap.m.c) by {
      if Live(s.cap.m.c) {
        ComparatorsHold(n, d, s.cap);
      }
    }
    StepShaped(n, w, s, i);
    CapturedKeeps(n, w, d, s, i);
    SynchronousKeeps(n, w, s, i);
    RecordedKeeps(n, w, s, i);
    SendingKeeps(n, w, d, s, i);
  }

  // ---- Every run of a capture ----

  predicate AllProper(n: nat, w: nat, ins: seq<In>) { forall k :: 0 <= k < |ins| ==> Proper(n, w, ins[k]) }

  lemma RestProper(n: nat, w: nat, ins: seq<In>)
    requires AllProper(n, w, ins) && |ins| > 0
    ensures Proper(n, w, ins[0]) && AllProper(n, w, ins[1..])
  {
  }

  function Run(n: nat, w: nat, s: System, ins: seq<In>): System
    requires Shaped(n, w, s) && AllProper(n, w, ins)
    decreases |ins|
  {
    if |ins| == 0 then s
    else
      RestProper(n, w, ins);
      StepShaped(n, w, s, ins[0]);
      Run(n, w, Step(n, w, s, ins[0]), ins[1..])
  }

  lemma {:induction false} RunKeeps(n: nat, w: nat, d: nat, s: System, ins: seq<In>)
    requires Inv(n, w, d, s) && AllProper(n, w, ins)
    ensures Inv(n, w, d, Run(n, w, s, ins))
    decreases |ins|
  {
    if |ins| == 0 {
    } else {
      RestProper(n, w, ins);
      StepKeeps(n, w, d, s, ins[0]);
      RunKeeps(n, w, d, Step(n, w, s, ins[0]), ins[1..]);
    }
  }

  predicate Startable(n: nat, w: nat, m: Memory, t: Controller) {
    && w >= 1 && Sized(n, m) && Wide(w, m.p) && |t.temporary| == w && |m.c.data| == w
    && m.c.state.Idle? && !m.c.full && !m.c.dataValid && !m.c.finish
    && !t.reading && t.triggerActive
  }

  // The edge at which an idle memory first sees trigger_active, whatever the RAM and the
  // other registers hold and whether the last request is still raised.
  function Activated(n: nat, w: nat, m: Memory, t: Controller, i: In): (s: System)
    requires Startable(n, w, m, t) && Proper(n, w, i)
    ensures Shaped(n, w, s)
  {
    var mi := MemIn(i.sampleEnable, i.probe, t.triggerActive, i.trigger, i.delay, t.request);
    MemStepSized(n, m, mi);
    PipeWidth(n, w, m.p, mi, false, m.c.readAddress);
    System(Arm(n, m, mi),
           CtlStep(w, t, CtlIn(m.c.full, m.c.data, m.c.dataValid, m.c.finish, i.ready, false, false, i.any)),
           [], [])
  }

  lemma ActivatedInv(n: nat, w: nat, m: Memory, t: Controller, i: In)
    requires Startable(n, w, m, t) && Proper(n, w, i)
    ensures Inv(n, w, i.delay, Activated(n, w, m, t, i))
  {
    var mi := MemIn(i.sampleEnable, i.probe, t.triggerActive, i.trigger, i.delay, t.request);
    ArmEstablishes(n, m, mi);
  }

  // The controller is back in init after a readout.
  predicate Done(s: System) { !s.ctl.reading && !Live(s.cap.m.c) }

  // The samples of a window have been sent completely, in order.
  predicate AllSent(w: nat, window: seq<Word>, groups: seq<seq<Octet>>) {
    && |window| == |groups|
    && forall k :: 0 <= k < |window| ==> |groups[k]| == BytesPer(w) && Serializes(w, window[k], groups[k])
  }

  // On return to init all n samples have been sent completely, in order, starting d samples
  // before the one that triggered, and full is already '0', so no second readout starts.
  lemma ReadoutComplete(n: nat, w: nat, m: Memory, t: Controller, i: In, ins: seq<In>)
    requires Startable(n, w, m, t) && Proper(n, w, i) && AllProper(n, w, ins)
    requires Done(Run(n, w, Activated(n, w, m, t, i), ins))
    ensures var s := Run(n, w, Activated(n, w, m, t, i), ins);
            && !s.cap.m.c.full && !s.ctl.triggerActive
            && |s.cap.recorded| >= n && TriggerAt(i.delay, s.cap.triggers, |s.cap.recorded| - n + i.delay)
            && AllSent(w, s.cap.recorded[|s.cap.recorded| - n..], s.groups)
  {
    ActivatedInv(n, w, m, t, i);
    RunKeeps(n, w, i.delay, Activated(n, w, m, t, i), ins);
    DoneSent(n, w, i.delay, Run(n, w, Activated(n, w, m, t, i), ins));
  }

  lemma DoneSent(n: nat, w: nat, d: nat, s: System)
    requires Inv(n, w, d, s) && Done(s)
    ensures !s.cap.m.c.full && !s.ctl.triggerActive
    ensures |s.cap.recorded| >= n && TriggerAt(d, s.cap.triggers, |s.cap.recorded| - n + d)
    ensures AllSent(w, s.cap.recorded[|s.cap.recorded| - n..], s.groups)
  {
    assert Ended(s.cap.m.c, s.ctl, 3) && |s.groups| == n;
  }

  lemma DoneStays(n: nat, w: nat, d: nat, s: System, i: In)
    requires Inv(n, w, d, s) && Proper(n, w, i) && Done(s)
    ensures var u := Step(n, w, s, i);
            Done(u) && !u.cap.m.c.full && u.groups == s.groups && u.cap.recorded == s.cap.recorded
  {
  }

  // ---- The uplink ----

  function Flat(groups: seq<seq<Octet>>): seq<Octet> {
    if |groups| == 0 then [] else Flat(groups[..|groups| - 1]) + groups[|groups| - 1]
  }

  function Pending(t: Controller): seq<Octet> { if t.upValid then [t.upData] else [] }

  // Under any pattern of uplink_ready the uplink takes exactly the bytes of the groups, after
  // a byte that was still waiting when the capture began.
  predicate Uplink(s: System, lead: seq<Octet>) {
    s.sent + Pending(s.ctl) == lead + Flat(s.groups)
  }

  lemma FlatNext(groups: seq<seq<Octet>>, octet: Octet)
    ensures Flat(groups + [[]]) == Flat(groups)
    ensures |groups| > 0 ==>
              Flat(groups[|groups| - 1 := groups[|groups| - 1] + [octet]]) == Flat(groups) + [octet]
  {
    assert (groups + [[]])[..|groups|] == groups;
    if |groups| > 0 {
      var g := |groups| - 1;
      var h := groups[g := groups[g] + [octet]];
      assert h[..g] == groups[..g];
    }
  }

  lemma OutputUplink(w: nat, c: Controller, t: Controller, i: CtlIn)
    requires w >= 1 && |c.temporary| == w && |t.temporary| == w && |i.data| == w && c.output.Store?
    requires t.upData == c.upData && t.upValid == (c.upValid && !i.ready)
    ensures var u := OutputStep(w, c, t, i);
            if UpFree(c, i.ready) then u.upValid && u.upData == LowByte(w, c.temporary) else u.upValid == t.upValid && u.upData == c.upData
  {
  }

  lemma CtlUplink(w: nat, t: Controller, i: CtlIn)
    requires w >= 1 && |t.temporary| == w && |i.data| == w
    ensures var u := CtlStep(w, t, i);
            if t.reading && t.output.Store? && UpFree(t, i.ready) then u.upValid && u.upData == LowByte(w, t.temporary)
            else u.upValid == (t.upValid && !i.ready) && u.upData == t.upData
  {
    if t.reading && t.output.Store? {
      OutputUplink(w, t, EndStep(t, i), i);
    }
  }

  lemma UplinkInto(w: nat, s: System, t: System, ready: bool, produces: bool, octet: Octet, lead: seq<Octet>)
    requires Uplink(s, lead) && (produces ==> !s.ctl.upValid || ready)
    requires t.sent == s.sent + (if ready then Pending(s.ctl) else [])
    requires Pending(t.ctl) == if produces then [octet] else if ready then [] else Pending(s.ctl)
    requires Flat(t.groups) == Flat(s.groups) + (if produces then [octet] else [])
    ensures Uplink(t, lead)
  {
    assert t.sent + Pending(t.ctl) == (s.sent + Pending(s.ctl)) + (if produces then [octet] else []);
    assert lead + Flat(t.groups) == (lead + Flat(s.groups)) + (if produces then [octet] else []);
  }

  lemma UplinkKeeps(n: nat, w: nat, s: System, i: In, lead: seq<Octet>)
    requires Shaped(n, w, s) && Synchronous(n, w, s) && Uplink(s, lead)
    ensures Uplink(Step(n, w, s, i), lead)
  {
    CtlUplink(w, s.ctl, CtlSees(s, i));
    FlatNext(s.groups, LowByte(w, s.ctl.temporary));
    UplinkInto(w, s, Step(n, w, s, i), i.ready, Produces(s, i), LowByte(w, s.ctl.temporary), lead);
  }

  lemma {:induction false} UplinkRun(n: nat, w: nat, d: nat, s: System, ins: seq<In>, lead: seq<Octet>)
    requires Inv(n, w, d, s) && Uplink(s, lead) && AllProper(n, w, ins)
    ensures Uplink(Run(n, w, s, ins), lead)
    decreases |ins|
  {
    if |ins| == 0 {
    } else {
      RestProper(n, w, ins);
      StepKeeps(n, w, d, s, ins[0]);
      UplinkKeeps(n, w, s, ins[0], lead);
      UplinkRun(n, w, d, Step(n, w, s, ins[0]), ins[1..], lead);
    }
  }

  lemma {:induction false} FlatLength(groups: seq<seq<Octet>>, size: nat)
    requires forall k :: 0 <= k < |groups| ==> |groups[k]| == size
    ensures |Flat(groups)| == |groups| * size
  {
    if |groups| == 0 {
    } else {
      FlatLength(groups[..|groups| - 1], size);
      assert |groups| * size == (|groups| - 1) * size + size;
    }
  }

  lemma SentLength(n: nat, w: nat, d: nat, s: System)
    requires Inv(n, w, d, s) && Done(s)
    ensures |Flat(s.groups)| == n * BytesPer(w)
  {
    DoneSent(n, w, d, s);
    FlatLength(s.groups, BytesPer(w));
  }

  // A capture sends exactly n * BytesPer(w) bytes.
  lemma ByteTotal(n: nat, w: nat, m: Memory, t: Controller, i: In, ins: seq<In>)
    requires Startable(n, w, m, t) && Proper(n, w, i)
    requires AllProper(n, w, ins)
    requires Done(Run(n, w, Activated(n, w, m, t, i), ins))
    ensures var a := Activated(n, w, m, t, i);
            var s := Run(n, w, a, ins);
            && s.sent + Pending(s.ctl) == Pending(a.ctl) + Flat(s.groups)
            && |Flat(s.groups)| == n * BytesPer(w)
  {
    var a := Activated(n, w, m, t, i);
    ActivatedInv(n, w, m, t, i);
    UplinkRun(n, w, i.delay, a, ins, Pending(a.ctl));
    RunKeeps(n, w, i.delay, a, ins);
    SentLength(n, w, i.delay, Run(n, w, a, ins));
  }

  // ---- Termination ----

  function Weight(w: nat): nat { BytesPer(w) + 9 }

  // Edges still needed at most for the sample in hand, not counting those at which the uplink
  // holds a byte back.
  function InHand(w: nat, c: Control, t: Controller): int {
    if !t.reading then if Live(c) then 8 else 0
    else
      match t.output
      case Store => 7 + BytesPer(w) - t.byteCount + (if t.request then 1 else 0)
      case Shift => if c.dataValid then 7 else 6
      case _ => if !Live(c) then (if t.theEnd then 1 else 4) else if c.dataValid then 1 else 5 - c.dataReady
  }

  function Times(k: int, w: nat): nat
    decreases if k < 0 then 0 else k
  {
    if k <= 0 then 0 else Weight(w) + Times(k - 1, w)
  }

  lemma {:induction false} TimesIsProduct(k: nat, w: nat)
    ensures Times(k, w) == k * Weight(w)
  {
    if k == 0 {
    } else {
      TimesIsProduct(k - 1, w);
      assert k * Weight(w) == (k - 1) * Weight(w) + Weight(w);
    }
  }

  lemma {:induction false} TimesGrows(k: nat, l: nat, w: nat)
    requires k <= l
    ensures Times(k, w) <= Times(l, w)
    ensures k < l ==> Times(k, w) + Weight(w) <= Times(l, w)
  {
    if k == l {
    } else {
      TimesGrows(k, l - 1, w);
    }
  }

  function Left(n: nat, w: nat, c: Control, t: Controller, g: nat): int {
    Times(n - g, w) + InHand(w, c, t)
  }

  lemma InHandDecreases(n: nat, w: nat, c: Control, t: Controller, e: nat, g: nat,
                        mi: MemIn, ci: CtlIn, writeAddress: nat, readData: Word)
    requires SizedControl(n, c) && w >= 1 && |t.temporary| == w && |ci.data| == w
    requires Stages(n, c, t, e) && Handshake(n, w, c, t, e, g) && Wired(c, t, mi, ci)
    requires !Recording(c) && t.reading
    ensures var after := InHand(w, ControlStep(n, c, mi, writeAddress, readData), CtlStep(w, t, ci));
            if TakesSample(c, t) then after < InHand(w, c, t) + Weight(w)
            else after <= InHand(w, c, t) && (ci.ready ==> after < InHand(w, c, t))
  {
  }

  lemma LeftDecreases(n: nat, w: nat, c: Control, t: Controller, e: nat, g: nat,
                      mi: MemIn, ci: CtlIn, writeAddress: nat, readData: Word)
    requires SizedControl(n, c) && w >= 1 && |t.temporary| == w && |ci.data| == w
    requires Stages(n, c, t, e) && Handshake(n, w, c, t, e, g) && Wired(c, t, mi, ci)
    requires !Recording(c) && (t.reading || Live(c))
    ensures var c' := ControlStep(n, c, mi, writeAddress, readData);
            var t' := CtlStep(w, t, ci);
            var g' := if TakesSample(c, t) then g + 1 else g;
            && Left(n, w, c', t', g') <= Left(n, w, c, t, g)
            && (ci.ready ==> Left(n, w, c', t', g') < Left(n, w, c, t, g))
  {
    if t.reading {
      InHandDecreases(n, w, c, t, e, g, mi, ci, writeAddress, readData);
      assert TakesSample(c, t) ==> n - g > 0;
    }
  }

  lemma LeftStep(n: nat, w: nat, d: nat, s: System, i: In)
    requires Inv(n, w, d, s) && Proper(n, w, i) && !Recording(s.cap.m.c) && !Done(s)
    ensures var u := Step(n, w, s, i);
            var before := Left(n, w, s.cap.m.c, s.ctl, |s.groups|);
            var after := Left(n, w, u.cap.m.c, u.ctl, |u.groups|);
            after <= before && (i.ready ==> after < before)
  {
    var m := s.cap.m;
    StepParts(n, w, s, i);
    LeftDecreases(n, w, m.c, s.ctl, |s.cap.emitted|, |s.groups|, MemSees(s, i), CtlSees(s, i), m.p.writeAddress, m.p.readData);
  }

  lemma LeftPositive(n: nat, w: nat, c: Control, t: Controller, e: nat, g: nat)
    requires w >= 1 && c.dataReady < 4 && Stages(n, c, t, e) && Handshake(n, w, c, t, e, g) && !Recording(c)
    requires t.reading || Live(c)
    ensures 0 < Left(n, w, c, t, g) <= Times(n, w) + 8
  {
    TimesGrows(n - g, n, w);
  }

  function ReadyEdges(ins: seq<In>): nat {
    if |ins| == 0 then 0 else (if ins[0].ready then 1 else 0) + ReadyEdges(ins[1..])
  }

  function LeftOf(n: nat, w: nat, s: System): int { Left(n, w, s.cap.m.c, s.ctl, |s.groups|) }

  lemma ReadoutStep(n: nat, w: nat, d: nat, s: System, i: In)
    requires Inv(n, w, d, s) && Proper(n, w, i) && !Recording(s.cap.m.c)
    ensures var u := Step(n, w, s, i);
            && Inv(n, w, d, u) && !Recording(u.cap.m.c)
            && (Done(s) ==> Done(u))
            && (!Done(s) ==> LeftOf(n, w, u) <= LeftOf(n, w, s) && (i.ready ==> LeftOf(n, w, u) < LeftOf(n, w, s)))
  {
    StepKeeps(n, w, d, s, i);
    NotRecordingStays(n, w, s, i);
    if Done(s) {
      DoneStays(n, w, d, s, i);
    } else {
      LeftStep(n, w, d, s, i);
    }
  }

  // left bounds the edges that are still needed.
  predicate Within(n: nat, w: nat, d: nat, s: System, left: int) {
    Inv(n, w, d, s) && !Recording(s.cap.m.c) && (Done(s) || 0 < LeftOf(n, w, s) <= left)
  }

  lemma WithinStep(n: nat, w: nat, d: nat, s: System, i: In, left: int)
    requires Within(n, w, d, s, left) && Proper(n, w, i)
    ensures Within(n, w, d, Step(n, w, s, i), if i.ready then left - 1 else left)
  {
    ReadoutStep(n, w, d, s, i);
    if !Done(Step(n, w, s, i)) {
      LeftBound(n, w, d, Step(n, w, s, i));
    }
  }

  lemma {:induction false} WithinRun(n: nat, w: nat, d: nat, s: System, ins: seq<In>, left: int)
    requires Within(n, w, d, s, left)
    requires AllProper(n, w, ins)
    ensures Within(n, w, d, Run(n, w, s, ins), left - ReadyEdges(ins))
    decreases |ins|
  {
    if |ins| == 0 {
    } else {
      RestProper(n, w, ins);
      WithinStep(n, w, d, s, ins[0], left);
      WithinRun(n, w, d, Step(n, w, s, ins[0]), ins[1..], if ins[0].ready then left - 1 else left);
    }
  }

  // Every readout ends: from the edge at which the memory is full, n * (BytesPer(w) + 9) + 8 edges
  // with uplink_ready are enough, however many others there are in between.
  lemma ReadoutTerminates(n: nat, w: nat, d: nat, s: System, ins: seq<In>)
    requires Inv(n, w, d, s) && !Recording(s.cap.m.c)
    requires AllProper(n, w, ins)
    requires ReadyEdges(ins) >= n * Weight(w) + 8
    ensures Done(Run(n, w, s, ins))
  {
    if !Done(s) {
      LeftBound(n, w, d, s);
    }
    WithinRun(n, w, d, s, ins, Times(n, w) + 8);
    TimesIsProduct(n, w);
  }

  lemma LeftBound(n: nat, w: nat, d: nat, s: System)
    requires Inv(n, w, d, s) && !Recording(s.cap.m.c) && !Done(s)
    ensures 0 < Left(n, w, s.cap.m.c, s.ctl, |s.groups|) <= Times(n, w) + 8
  {
    LeftPositive(n, w, s.cap.m.c, s.ctl, |s.cap.emitted|, |s.groups|);
  }
}
