// The clocked processes of the logic analyser: the memory with its RAM written in place, and
// the readout part of the controller. r is what the registers hold before the edge; the last
// assignment wins.
module LogicAnalyser {
  import opened Bytes
  import opened LaMemory
  import opened LaReadout

  class LogicAnalyserMemory {
    const n: nat
    const ram: array<Word>
    var regs: Control
    var writeEnable: bool
    var writeAddress: nat
    var writeData: Word
    var weDly: bool
    var waSlv: nat
    var wdDly: Word
    var raSlv: nat
    var readNext: Word
    var readData: Word

    function State(): Memory
      reads this, ram
    {
      Memory(regs, Pipe(writeEnable, writeAddress, writeData, weDly, waSlv, wdDly, raSlv, ram[..], readNext, readData))
    }

    predicate Valid()
      reads this, ram
    {
      ram.Length == n && Sized(n, State())
    }

    // After reset the state machine is idle and nothing else is defined.
    constructor (size: nat, power: Memory)
      requires Sized(size, power)
      ensures n == size && Valid() && fresh(ram)
      ensures State() == power.(c := power.c.(state := Idle, full := false, dataValid := false, finish := false),
                                p := power.p.(writeEnable := false))
    {
      n := size;
      ram := new Word[size](i requires 0 <= i < size => power.p.ram[i]);
      regs := power.c.(state := Idle, full := false, dataValid := false, finish := false);
      writeEnable, writeAddress, writeData := false, power.p.writeAddress, power.p.writeData;
      weDly, waSlv, wdDly, raSlv := power.p.weDly, power.p.waSlv, power.p.wdDly, power.p.raSlv;
      readNext, readData := power.p.readNext, power.p.readData;
      new;
      assert ram[..] == power.p.ram;
    }

    method Clock(i: MemIn)
      requires Valid() && i.delay < n
      modifies this, ram
      ensures Valid() && State() == MemStep(n, old(State()), i)
    {
      ghost var before := State();
      MemStepSized(n, before, i);
      var records := Records(regs, i);
      var raNow := regs.readAddress;
      regs := Buffer(regs, i, writeAddress, readData);
      Ram(i, records, raNow);
    }

    // The stage in front of the RAM, and the RAM with its output registers.
    method Ram(i: MemIn, records: bool, readAddress: nat)
      requires ram.Length == n && SizedPipe(n, State().p)
      modifies this`writeEnable, this`writeAddress, this`writeData, this`weDly, this`waSlv, this`wdDly, this`raSlv,
               this`readNext, this`readData, ram
      ensures State().p == PipeStep(n, old(State().p), i, records, readAddress)
    {
      Block();
      weDly, waSlv, wdDly, raSlv := writeEnable, writeAddress, writeData, readAddress;
      writeEnable := records;
      if i.sampleEnable {
        writeAddress := Wrap(writeAddress + 1, n);
        writeData := i.probe;
      }
    }

    // A read during a write gets the old word.
    method Block()
      requires ram.Length == n && SizedPipe(n, State().p)
      modifies this`readNext, this`readData, ram
      ensures readData == old(readNext) && readNext == old(ram[raSlv])
      ensures ram[..] == if weDly then old(ram[..])[waSlv := wdDly] else old(ram[..])
    {
      readData := readNext;
      readNext := ram[raSlv];
      if weDly {
        ram[waSlv] := wdDly;
      }
    }

    method Buffer(r: Control, i: MemIn, writeAddress: nat, readData: Word) returns (c: Control)
      requires SizedControl(n, r)
      ensures c == ControlStep(n, r, i, writeAddress, readData)
    {
      match r.state {
        case Idle => c := Prepare(r, i);
        case Armed => c := FillHistory(r, i);
        case WaitTrigger => c := Await(r, i, writeAddress);
        case FillUp => c := Complete(r, i, writeAddress);
        case Drain => c := Read(r, i, readData);
        case DrainHandshake => c := Acknowledge(r, i);
        case WaitAckFinish => c := r;
      }
      if !i.triggerActive {
        c := c.(state := Idle);
      }
    }

    method Prepare(r: Control, i: MemIn) returns (c: Control)
      requires SizedControl(n, r) && r.state.Idle?
      ensures forall wa, rd :: c == BufferStep(n, r, i, wa, rd)
    {
      c := r.(finish := false, counter := 0, full := false, delay := i.delay, nearMax := false);
      if i.triggerActive {
        c := c.(state := if i.delay == 0 then WaitTrigger else Armed);
      }
      c := c.(dataReady := 0, nearDelay := i.delay == 1);
    }

    method FillHistory(r: Control, i: MemIn) returns (c: Control)
      requires SizedControl(n, r) && r.state.Armed?
      ensures forall wa, rd :: c == BufferStep(n, r, i, wa, rd)
    {
      c := r;
      if i.sampleEnable {
        c := c.(nearMax := false, counter := Wrap(r.counter + 1, 2 * n), nearDelay := false);
        if r.nearDelay {
          c := c.(state := WaitTrigger);
        }
        if r.counter == n - 2 {
          c := c.(nearMax := true);
        }
        c := c.(nearDelay := Wrap(r.counter + 2, 2 * n) == r.delay);
      }
    }

    method Await(r: Control, i: MemIn, writeAddress: nat) returns (c: Control)
      requires SizedControl(n, r) && r.state.WaitTrigger?
      ensures forall rd :: c == BufferStep(n, r, i, writeAddress, rd)
    {
      c := r;
      if i.sampleEnable && i.trigger {
        c := c.(counter := Wrap(r.counter + 1, 2 * n));
        if r.nearMax {
          c := c.(readAddress := Wrap(writeAddress + 2, n), state := Drain, full := true);
        } else {
          c := c.(state := FillUp);
        }
        if r.counter == n - 2 {
          c := c.(nearMax := true);
        }
      }
    }

    method Complete(r: Control, i: MemIn, writeAddress: nat) returns (c: Control)
      requires SizedControl(n, r) && r.state.FillUp?
      ensures forall rd :: c == BufferStep(n, r, i, writeAddress, rd)
    {
      c := r;
      if i.sampleEnable {
        c := c.(nearMax := false, counter := Wrap(r.counter + 1, 2 * n));
        if r.nearMax {
          c := c.(readAddress := Wrap(writeAddress + 2, n), state := Drain, full := true);
        }
        if r.counter == n - 2 {
          c := c.(nearMax := true);
        }
      }
    }

    method Read(r: Control, i: MemIn, readData: Word) returns (c: Control)
      requires SizedControl(n, r) && r.state.Drain?
      ensures forall wa :: c == BufferStep(n, r, i, wa, readData)
    {
      c := r;
      if i.request {
        if r.dataReady == 3 {
          c := c.(dataValid := true, counter := if r.counter == 0 then 2 * n - 1 else r.counter - 1,
                  data := readData, state := DrainHandshake, dataReady := 0);
        } else {
          c := c.(dataReady := r.dataReady + 1);
        }
      }
    }

    method Acknowledge(r: Control, i: MemIn) returns (c: Control)
      requires SizedControl(n, r) && r.state.DrainHandshake?
      ensures forall wa, rd :: c == BufferStep(n, r, i, wa, rd)
    {
      c := r;
      if !i.request {
        c := c.(dataValid := false, readAddress := Wrap(r.readAddress + 1, n));
        if r.counter == 0 {
          c := c.(state := WaitAckFinish, finish := true);
        } else {
          c := c.(state := Drain);
        }
      }
      c := c.(dataReady := 0);
    }
  }

  class LogicAnalyserController {
    const w: nat
    var regs: Controller

    predicate Valid()
      reads this
    {
      w >= 1 && |regs.temporary| == w
    }

    constructor (width: nat, power: Controller)
      requires width >= 1 && |power.temporary| == width
      ensures w == width && Valid() && regs == power
    {
      w, regs := width, power;
    }

    method Clock(i: CtlIn)
      requires Valid() && |i.data| == w
      modifies this
      ensures Valid() && regs == CtlStep(w, old(regs), i)
    {
      var n := regs;
      if i.ready {
        n := n.(upValid := false);
      }
      if !regs.reading {
        regs := Init(n, i);
      } else {
        if i.finish {
          n := n.(triggerActive := false, fire := false, ending := true);
        }
        if regs.theEnd {
          n := n.(reading := false, output := Begin);
        }
        regs := DataOutput(regs, n, i);
      }
    }

    method Init(n: Controller, i: CtlIn) returns (c: Controller)
      ensures var t := n.(output := Begin, triggerActive := n.triggerActive || i.activate, fire := n.fire || i.fire);
              c == if i.full then t.(request := true, reading := true, ending := false, theEnd := false) else t
    {
      c := n.(output := Begin);
      if i.full {
        c := c.(request := true, reading := true, ending := false, theEnd := false);
      }
      if i.activate {
        c := c.(triggerActive := true);
      }
      if i.fire {
        c := c.(fire := true);
      }
    }

    // Its state store_s: the next byte goes to the uplink.
    method StoreByte(r: Controller, n: Controller, i: CtlIn) returns (c: Controller)
      requires w >= 1 && |r.temporary| == w && |i.data| == w && |n.temporary| == w && r.reading && r.output.Store?
      requires n.byteCount == r.byteCount
      ensures c == OutputStep(w, r, n, i)
    {
      c := n.(request := false);
      if UpFree(r, i.ready) {
        c := c.(upValid := true, upData := LowByte(w, r.temporary), temporary := Shifted(w, r.temporary, i.any));
        if r.byteCount == BytesPer(w) - 1 {
          c := c.(output := Shift);
        } else {
          c := c.(byteCount := r.byteCount + 1);
        }
      }
    }

    // The case statement of data_output: r before the edge, n assigned so far.
    method DataOutput(r: Controller, n: Controller, i: CtlIn) returns (c: Controller)
      requires w >= 1 && |r.temporary| == w && |i.data| == w && |n.temporary| == w && r.reading
      requires n.byteCount == r.byteCount
      ensures c == OutputStep(w, r, n, i)
    {
      c := n;
      match r.output {
        case Begin =>
          if i.dataValid {
            c := c.(temporary := i.data, byteCount := 0, output := Store);
          }
        case Store => c := StoreByte(r, n, i);
        case Shift =>
          if !i.dataValid {
            c := c.(request := true, output := GetNext);
          }
        case GetNext =>
          if r.ending {
            c := c.(theEnd := true);
          }
          if i.dataValid {
            c := c.(byteCount := 0, temporary := i.data, output := Store);
          }
      }
    }
  }
}
