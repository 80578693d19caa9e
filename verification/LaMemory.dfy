// LogicAnalyserMemory: a ring of samples with a history before the trigger, its look-ahead
// comparators, and the read pipeline to the controller. The number of samples (2**ADDR_WIDTH)
// is the parameter n; nothing below needs it to be a power of two. The RAM is PdpRam with
// its output register.
module LaMemory {
  import opened Bytes

  type Word = seq<bool>

  datatype Buffering = Idle | Armed | WaitTrigger | FillUp | Drain | DrainHandshake | WaitAckFinish

  datatype Control = Control(
    state: Buffering, counter: nat, dataReady: nat, readAddress: nat,
    full: bool, dataValid: bool, data: Word, finish: bool,
    delay: nat, nearMax: bool, nearDelay: bool)

  // The write register, one stage before the RAM, the RAM and its two output registers.
  datatype Pipe = Pipe(
    writeEnable: bool, writeAddress: nat, writeData: Word,
    weDly: bool, waSlv: nat, wdDly: Word, raSlv: nat,
    ram: seq<Word>, readNext: Word, readData: Word)

  datatype Memory = Memory(c: Control, p: Pipe)

  // What the memory sees at one enabled clock edge.
  datatype MemIn = MemIn(sampleEnable: bool, probe: Word, triggerActive: bool, trigger: bool, delay: nat, request: bool)

  predicate SizedControl(n: nat, c: Control) {
    n >= 2 && c.readAddress < n && c.counter < 2 * n && c.dataReady < 4 && c.delay < n
  }

  predicate SizedPipe(n: nat, p: Pipe) {
    n >= 2 && |p.ram| == n && p.writeAddress < n && p.waSlv < n && p.raSlv < n
  }

  predicate Sized(n: nat, m: Memory) { SizedControl(n, m.c) && SizedPipe(n, m.p) }

  // A sample is recorded at this edge.
  predicate Records(c: Control, i: MemIn) {
    (c.state.Armed? || c.state.WaitTrigger? || c.state.FillUp?) && i.sampleEnable
  }

  function PipeStep(n: nat, p: Pipe, i: MemIn, records: bool, readAddress: nat): Pipe
    requires SizedPipe(n, p)
  {
    Pipe(
      records,
      if i.sampleEnable then Wrap(p.writeAddress + 1, n) else p.writeAddress,
      if i.sampleEnable then i.probe else p.writeData,
      p.writeEnable, p.writeAddress, p.writeData, readAddress,
      if p.weDly then p.ram[p.waSlv := p.wdDly] else p.ram,
      p.ram[p.raSlv], p.readNext)
  }

  // The buffering state machine.
  function BufferStep(n: nat, c: Control, i: MemIn, writeAddress: nat, readData: Word): Control
    requires SizedControl(n, c)
  {
    match c.state
    case Idle =>
      c.(finish := false, counter := 0, full := false, delay := i.delay, nearMax := false, dataReady := 0,
         nearDelay := i.delay == 1,
         state := if !i.triggerActive then Idle else if i.delay == 0 then WaitTrigger else Armed)
    case Armed =>
      if !i.sampleEnable then c
      else c.(counter := Wrap(c.counter + 1, 2 * n),
              nearMax := c.counter == n - 2,
              nearDelay := Wrap(c.counter + 2, 2 * n) == c.delay,
              state := if c.nearDelay then WaitTrigger else Armed)
    case WaitTrigger =>
      if !i.sampleEnable || !i.trigger then c
      else if c.nearMax then
        c.(counter := Wrap(c.counter + 1, 2 * n), readAddress := Wrap(writeAddress + 2, n), state := Drain, full := true)
      else
        c.(counter := Wrap(c.counter + 1, 2 * n), nearMax := c.counter == n - 2, state := FillUp)
    case FillUp =>
      if !i.sampleEnable then c
      else if c.nearMax then
        c.(counter := Wrap(c.counter + 1, 2 * n), nearMax := c.counter == n - 2,
           readAddress := Wrap(writeAddress + 2, n), state := Drain, full := true)
      else
        c.(counter := Wrap(c.counter + 1, 2 * n), nearMax := c.counter == n - 2)
    case Drain =>
      if !i.request then c
      else if c.dataReady == 3 then
        c.(dataValid := true, counter := if c.counter == 0 then 2 * n - 1 else c.counter - 1, data := readData,
           state := DrainHandshake, dataReady := 0)
      else c.(dataReady := c.dataReady + 1)
    case DrainHandshake =>
      if i.request then c.(dataReady := 0)
      else c.(dataReady := 0, dataValid := false, readAddress := Wrap(c.readAddress + 1, n),
              state := if c.counter == 0 then WaitAckFinish else Drain,
              finish := c.finish || c.counter == 0)
    case WaitAckFinish => c
  }

  function ControlStep(n: nat, c: Control, i: MemIn, writeAddress: nat, readData: Word): Control
    requires SizedControl(n, c)
  {
    var d := BufferStep(n, c, i, writeAddress, readData);
    if i.triggerActive then d else d.(state := Idle)
  }

  function MemStep(n: nat, m: Memory, i: MemIn): Memory
    requires Sized(n, m)
  {
    Memory(ControlStep(n, m.c, i, m.p.writeAddress, m.p.readData),
           PipeStep(n, m.p, i, Records(m.c, i), m.c.readAddress))
  }

  lemma FillSized(n: nat, c: Control, i: MemIn, writeAddress: nat, readData: Word)
    requires SizedControl(n, c) && i.delay < n && writeAddress < n
    requires c.state.Idle? || c.state.Armed? || c.state.WaitTrigger? || c.state.FillUp?
    ensures SizedControl(n, BufferStep(n, c, i, writeAddress, readData))
  {
  }

  lemma DrainSized(n: nat, c: Control, i: MemIn, writeAddress: nat, readData: Word)
    requires SizedControl(n, c) && (c.state.Drain? || c.state.DrainHandshake? || c.state.WaitAckFinish?)
    ensures SizedControl(n, BufferStep(n, c, i, writeAddress, readData))
  {
  }

  lemma ControlStepSized(n: nat, c: Control, i: MemIn, writeAddress: nat, readData: Word)
    requires SizedControl(n, c) && i.delay < n && writeAddress < n
    ensures SizedControl(n, ControlStep(n, c, i, writeAddress, readData))
  {
    if c.state.Drain? || c.state.DrainHandshake? || c.state.WaitAckFinish? {
      DrainSized(n, c, i, writeAddress, readData);
    } else {
      FillSized(n, c, i, writeAddress, readData);
    }
  }

  lemma PipeStepSized(n: nat, p: Pipe, i: MemIn, records: bool, readAddress: nat)
    requires SizedPipe(n, p) && readAddress < n
    ensures SizedPipe(n, PipeStep(n, p, i, records, readAddress))
  {
  }

  lemma MemStepSized(n: nat, m: Memory, i: MemIn)
    requires Sized(n, m) && i.delay < n
    ensures Sized(n, MemStep(n, m, i))
  {
    ControlStepSized(n, m.c, i, m.p.writeAddress, m.p.readData);
    PipeStepSized(n, m.p, i, Records(m.c, i), m.c.readAddress);
  }

  // ---- The ring ----

  // The RAM once the writes in the pipeline have arrived.
  function Settled(n: nat, p: Pipe): (r: seq<Word>)
    requires SizedPipe(n, p)
    ensures |r| == n
  {
    var r := if p.weDly then p.ram[p.waSlv := p.wdDly] else p.ram;
    if p.writeEnable then r[p.writeAddress := p.writeData] else r
  }

  lemma SettledStep(n: nat, p: Pipe, i: MemIn, records: bool, readAddress: nat)
    requires SizedPipe(n, p) && readAddress < n && (records ==> i.sampleEnable)
    ensures var t := PipeStep(n, p, i, records, readAddress);
            && SizedPipe(n, t)
            && Settled(n, t) == if records then Settled(n, p)[Wrap(p.writeAddress + 1, n) := i.probe]
                                else Settled(n, p)
  {
  }

  // The address k places before a in the ring.
  function Back(n: nat, a: nat, k: nat): (r: int)
    requires a < n && k <= n
    ensures 0 <= r <= n && (k < n ==> r < n)
  {
    if a >= k then a - k else a + n - k
  }

  // The ring holds the youngest samples, the last one at the write address.
  predicate Holds(n: nat, ring: seq<Word>, last: nat, recorded: seq<Word>) {
    && |ring| == n && last < n
    && forall k :: 0 <= k < n && k < |recorded| ==> ring[Back(n, last, k)] == recorded[|recorded| - 1 - k]
  }

  lemma HoldsNext(n: nat, ring: seq<Word>, last: nat, recorded: seq<Word>, w: Word)
    requires n >= 2 && Holds(n, ring, last, recorded)
    ensures Holds(n, ring[Wrap(last + 1, n) := w], Wrap(last + 1, n), recorded + [w])
  {
    var at := Wrap(last + 1, n);
    forall k | 0 <= k < n && k < |recorded| + 1
      ensures ring[at := w][Back(n, at, k)] == (recorded + [w])[|recorded| - k]
    {
      if k > 0 {
        assert Back(n, at, k) == Back(n, last, k - 1) && Back(n, at, k) != at;
      }
    }
  }
}
