// WaveformGeneratorController: one enabled clk edge.
module WaveController {
  import opened Bytes
  import opened Numbers

  const START: Byte := 0xF0
  const STOP: Byte := 0xF1
  const SIZES: Byte := 0xF2
  const WRITE_SAMPLES: Byte := 0xF3
  const NUMBER_OF_SAMPLES: Byte := 0xF4
  const STATUS: Byte := 0xF5
  const ONE_SHOT: Byte := 0xF6
  const ALIVE: Byte := 0xFA
  const DONE: Byte := 0xFB

  // OutOfRange is not a state of the source: addr_size_s, declared natural range 0 to data_size,
  // was assigned a value beyond that range, which ends a simulation with an error.
  datatype State = Init | SetNumber | WriteSamples | ReturnSizes | ReturnStatus | SendLastAck | OutOfRange

  datatype Fsm = Fsm(state: State, byteCounter: nat, timeout: nat, addrBytes: nat, sizeCounter: nat, sizes: nat, sampleCounter: nat)
  datatype Tx = Tx(valid: bool, data: Byte)
  // The byte of the clock before and the two shift-in registers.
  datatype Shift = Shift(delayed: Byte, toLast: bool, toData: bool, last: nat, data: nat)
  datatype Strobes = Strobes(validEarly: bool, lastEarly: bool, valid: bool, last: bool, ifReset: bool, start: bool, stop: bool, oneShot: bool)
  datatype Controller = Controller(f: Fsm, t: Tx, h: Shift, s: Strobes)

  // The generics DATA_WIDTH, ADDR_WIDTH, DOUBLE_BUFFER and SYNC_MASTER.
  datatype Widths = Widths(data: nat, addr: nat, double: bool, syncMaster: bool)

  datatype Pins = Pins(valid: bool, b: Byte, upReady: bool, enabled: bool)

  function DataSize(cfg: Widths): nat { RoundUp(cfg.data) }
  function AddrSize(cfg: Widths): nat { RoundUp(cfg.addr) }

  // A byte shifted in from the right.
  function ShiftIn(width: nat, v: nat, b: Byte): nat { (v * 256 + b) % Pow2(width) }

  predicate UpFree(t: Tx, p: Pins) { !t.valid || p.upReady }

  function ShiftStep(cfg: Widths, h: Shift, b: Byte, toLast: bool, toData: bool): Shift {
    Shift(b, toLast, toData, if h.toLast then ShiftIn(cfg.addr, h.last, h.delayed) else h.last,
          if h.toData then ShiftIn(cfg.data, h.data, h.delayed) else h.data)
  }

  // The last byte of a sample, and of the last sample.
  predicate Completes(cfg: Widths, f: Fsm, p: Pins) { p.valid && f.byteCounter + 1 == DataSize(cfg) }
  predicate Ends(cfg: Widths, f: Fsm, h: Shift, p: Pins) { Completes(cfg, f, p) && f.sampleCounter == h.last }

  function FsmStep(cfg: Widths, c: Controller, p: Pins): Fsm {
    var f := c.f;
    match f.state
    case Init =>
      if !p.valid then f
      else
        var g := f.(addrBytes := 0, byteCounter := 0, timeout := 0);
        if p.b == SIZES then g.(sizeCounter := 0, sizes := cfg.data, state := ReturnSizes)
        else if p.b == STATUS then g.(state := ReturnStatus)
        else if p.b == WRITE_SAMPLES then g.(sampleCounter := 0, state := WriteSamples)
        else if p.b == NUMBER_OF_SAMPLES then g.(state := SetNumber)
        else g
    case ReturnSizes =>
      if !UpFree(c.t, p) then f
      else f.(sizes := if f.sizeCounter == 3 then cfg.addr else f.sizes / 256,
              state := if f.sizeCounter == 7 then Init else ReturnSizes,
              sizeCounter := if f.sizeCounter == 7 then 7 else f.sizeCounter + 1)
    case ReturnStatus => if UpFree(c.t, p) then f.(state := Init) else f
    case WriteSamples =>
      if !p.valid then f
      else f.(timeout := if f.timeout == 63 then 0 else f.timeout + 1,
              byteCounter := if Completes(cfg, f, p) then 0 else f.byteCounter + 1,
              sampleCounter := if Completes(cfg, f, p) then Wrap(f.sampleCounter + 1, Pow2(cfg.addr)) else f.sampleCounter,
              state := if Ends(cfg, f, c.h, p) then SendLastAck else WriteSamples)
    case SendLastAck => if UpFree(c.t, p) then f.(state := Init) else f
    case SetNumber =>
      if !p.valid then f
      else if f.addrBytes + 1 == AddrSize(cfg) then f.(state := Init)
      else if f.addrBytes + 1 > DataSize(cfg) then f.(state := OutOfRange)
      else f.(addrBytes := f.addrBytes + 1)
    case OutOfRange => f
  }

  // The byte put into the output register.
  function Puts(cfg: Widths, c: Controller, p: Pins): seq<Byte> {
    if !UpFree(c.t, p) then []
    else match c.f.state
      case ReturnSizes => [c.f.sizes % 256]
      case ReturnStatus => [(if p.enabled then 1 else 0) + (if cfg.double then 2 else 0)]
      case WriteSamples => if p.valid && c.f.timeout == 63 && !Ends(cfg, c.f, c.h, p) then [ALIVE] else []
      case SendLastAck => [DONE]
      case _ => []
  }

  function ControllerStep(cfg: Widths, c: Controller, p: Pins): Controller {
    var puts, init, writing := Puts(cfg, c, p), c.f.state == Init && p.valid, c.f.state == WriteSamples;
    Controller(FsmStep(cfg, c, p),
               if puts == [] then Tx(c.t.valid && !p.upReady, c.t.data) else Tx(true, puts[0]),
               ShiftStep(cfg, c.h, p.b, c.f.state == SetNumber && p.valid, writing && p.valid),
               Strobes(writing && Completes(cfg, c.f, p), writing && Ends(cfg, c.f, c.h, p), c.s.validEarly, c.s.lastEarly,
                       init && p.b == WRITE_SAMPLES, init && p.b == START, init && p.b == STOP, init && p.b == ONE_SHOT))
  }

  class WaveformGeneratorController {
    const cfg: Widths
    var f: Fsm
    var t: Tx
    var h: Shift
    var s: Strobes

    function State(): Controller
      reads this
    {
      Controller(f, t, h, s)
    }

    constructor (cfg: Widths, power: Controller)
      ensures this.cfg == cfg
      ensures State() == power.(f := power.f.(state := Init, byteCounter := 0, timeout := 0, sizeCounter := 0),
                                t := power.t.(valid := false),
                                h := power.h.(toLast := false, toData := false),
                                s := power.s.(validEarly := false, lastEarly := false, valid := false, last := false))
    {
      this.cfg := cfg;
      f := power.f.(state := Init, byteCounter := 0, timeout := 0, sizeCounter := 0);
      t := power.t.(valid := false);
      h := power.h.(toLast := false, toData := false);
      s := power.s.(validEarly := false, lastEarly := false, valid := false, last := false);
    }

    method Clock(p: Pins)
      modifies this
      ensures State() == ControllerStep(cfg, old(State()), p)
    {
      var c := State();
      var fsm, strobes, up, toLast, toData := c.f, Strobes(false, false, c.s.validEarly, c.s.lastEarly, false, false, false, false), [], false, false;
      match c.f.state {
        case Init => fsm, strobes := ReceiveCommand(c, strobes, p);
        case ReturnSizes => fsm, up := SendSizes(c, p);
        case ReturnStatus =>
          if UpFree(c.t, p) {
            up := [(if p.enabled then 1 else 0) + (if cfg.double then 2 else 0)];
            fsm := fsm.(state := Init);
          }
        case WriteSamples =>
          var early, last;
          fsm, up, early, last := ReceiveSample(c, p);
          strobes := strobes.(validEarly := early, lastEarly := last);
          toData := p.valid;
        case SendLastAck =>
          if UpFree(c.t, p) {
            up := [DONE];
            fsm := fsm.(state := Init);
          }
        case SetNumber =>
          if p.valid {
            if c.f.addrBytes + 1 == AddrSize(cfg) {
              fsm := fsm.(state := Init);
            } else if c.f.addrBytes + 1 > DataSize(cfg) {
              fsm := fsm.(state := OutOfRange);
            } else {
              fsm := fsm.(addrBytes := c.f.addrBytes + 1);
            }
            toLast := true;
          }
        case OutOfRange =>
      }
      h := ShiftRegisters(c.h, p.b, toLast, toData);
      f, s := fsm, strobes;
      t := if up != [] then Tx(true, up[0]) else Tx(c.t.valid && !p.upReady, c.t.data);
    }

    // set_addr_of_last_sample and set_dataouts.
    method ShiftRegisters(b: Shift, byte: Byte, toLast: bool, toData: bool) returns (n: Shift)
      ensures n == ShiftStep(cfg, b, byte, toLast, toData)
    {
      n := b.(delayed := byte, toLast := toLast, toData := toData);
      if b.toLast {
        n := n.(last := (b.last * 256 + b.delayed) % Pow2(cfg.addr));
      }
      if b.toData {
        n := n.(data := (b.data * 256 + b.delayed) % Pow2(cfg.data));
      }
    }

    method ReceiveCommand(c: Controller, d: Strobes, p: Pins) returns (f: Fsm, s: Strobes)
      requires c.f.state == Init && !d.start && !d.stop && !d.oneShot && !d.ifReset
      ensures f == FsmStep(cfg, c, p)
      ensures s == if p.valid then d.(ifReset := p.b == WRITE_SAMPLES, start := p.b == START, stop := p.b == STOP, oneShot := p.b == ONE_SHOT)
                   else d
    {
      f, s := c.f, d;
      if p.valid {
        if p.b == START {
          s := s.(start := true);
        }
        if p.b == STOP {
          s := s.(stop := true);
        }
        if p.b == ONE_SHOT {
          s := s.(oneShot := true);
        }
        if p.b == SIZES {
          f := f.(sizeCounter := 0, sizes := cfg.data, state := ReturnSizes);
        }
        if p.b == STATUS {
          f := f.(state := ReturnStatus);
        }
        if p.b == WRITE_SAMPLES {
          s := s.(ifReset := true);
          f := f.(sampleCounter := 0, state := WriteSamples);
        }
        if p.b == NUMBER_OF_SAMPLES {
          f := f.(state := SetNumber);
        }
        f := f.(addrBytes := 0, byteCounter := 0, timeout := 0);
      }
    }

    method SendSizes(c: Controller, p: Pins) returns (f: Fsm, up: seq<Byte>)
      requires c.f.state == ReturnSizes
      ensures f == FsmStep(cfg, c, p) && up == Puts(cfg, c, p)
    {
      f, up := c.f, [];
      if UpFree(c.t, p) {
        up := [c.f.sizes % 256];
        f := f.(sizes := c.f.sizes / 256);
        if c.f.sizeCounter == 3 {
          f := f.(sizes := cfg.addr);
        }
        if c.f.sizeCounter == 7 {
          f := f.(state := Init, sizeCounter := 7);
        } else {
          f := f.(sizeCounter := c.f.sizeCounter + 1);
        }
      }
    }

    method ReceiveSample(c: Controller, p: Pins) returns (g: Fsm, up: seq<Byte>, early: bool, last: bool)
      requires c.f.state == WriteSamples
      ensures g == FsmStep(cfg, c, p) && up == Puts(cfg, c, p)
      ensures early == Completes(cfg, c.f, p) && last == Ends(cfg, c.f, c.h, p)
    {
      g, up, early, last := c.f, [], false, false;
      if p.valid {
        if c.f.timeout == 63 {
          g := g.(timeout := 0);
          // alive message, not with the last byte, dropped if the host is busy
          if UpFree(c.t, p) && !(c.f.byteCounter + 1 == DataSize(cfg) && c.f.sampleCounter == c.h.last) {
            up := [ALIVE];
          }
        } else {
          g := g.(timeout := c.f.timeout + 1);
        }
        if c.f.byteCounter + 1 == DataSize(cfg) {
          early := true;
          g := g.(sampleCounter := Wrap(c.f.sampleCounter + 1, Pow2(cfg.addr)), byteCounter := 0);
          if c.f.sampleCounter == c.h.last {
            g := g.(state := SendLastAck);
            last := true;
          }
        } else {
          g := g.(byteCounter := c.f.byteCounter + 1);
        }
      }
    }
  }
}
