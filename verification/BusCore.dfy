// BusAccessStatemachine and the wishbone_control process of WbMaster: one enabled clk edge.
// Vectors of whole bytes are byte sequences, the last element being the leftmost byte.
module BusCore {
  import opened Bytes
  import opened Numbers
  import opened BusMaster

  datatype State = IdleS | ReadWidth | WriteAccess | ReadAccess | SetAddressS | SetMiscS | SetStrobeS

  // Which field register takes the bytes received (data_in_reg_laddr, _lmisc, _lstrb, _lwdat).
  datatype Latch = NoField | ToAddress | ToMisc | ToStrobe | ToWriteData

  datatype Fsm = Fsm(state: State, word: nat, received: nat, expected: nat, transmitted: nat,
                     nextLock: bool, writeBusy: bool, waitResponse: bool)
  datatype Tx = Tx(upValid: bool, upData: Byte, respPending: bool, respData: Byte, readData: seq<Byte>)
  datatype Rx = Rx(data: Byte, valid: bool, latch: Latch, low: seq<Byte>,
                   address: nat, writeData: nat, strobe: nat, misc: nat)
  datatype Bus = Bus(startWrite: bool, startRead: bool, lock: bool)
  datatype Core = Core(f: Fsm, t: Tx, r: Rx, b: Bus)

  datatype Wb = Wb(cycstb: bool, we: bool, lck: bool, readData: nat, readDone: bool, writeDone: bool, accessError: bool)

  // valid, b: the byte from the escaping stage; upReady: uplink_ready; ack, rty, err, dat: the bus.
  datatype Pins = Pins(valid: bool, b: Byte, upReady: bool, ack: bool, rty: bool, err: bool, dat: nat)

  function Max(a: nat, b: nat): nat { if a < b then b else a }

  // MAX_BYTES_RECEIVE; rx_sr without its top byte, which is data_in_reg.
  function MaxBytes(cfg: Config): nat {
    RoundUp(Max(Max(cfg.addressWidth, cfg.writeWidth), Max(cfg.strobeWidth, cfg.miscWidth)))
  }

  // The ranges of bytes_received and bytes_transmitted.
  function ReceiveRange(cfg: Config): nat { PowerAtLeast(MaxBytes(cfg) + 1, 1) }
  function TransmitRange(cfg: Config): nat { PowerAtLeast(Max(cfg.readWidth + 1, 4), 1) }

  function Received(cfg: Config, f: Fsm): nat { Wrap(f.received + 1, ReceiveRange(cfg)) }
  function Transmitted(cfg: Config, f: Fsm): nat { Wrap(f.transmitted + 1, TransmitRange(cfg)) }

  function LowSize(cfg: Config): nat { if MaxBytes(cfg) <= 1 then 0 else MaxBytes(cfg) - 1 }

  predicate Formed(cfg: Config, c: Core) {
    && |c.r.low| == LowSize(cfg)
    && |c.t.readData| == RoundUp(cfg.readWidth)
    && c.f.word < 6
  }

  predicate UpFree(t: Tx, p: Pins) { !t.upValid || p.upReady }

  predicate Answers(w: Wb, p: Pins) { w.cycstb && (p.ack || p.rty || p.err) }

  // ---- rx_regs ----

  // The last bytes of rx_sr, from SR_BASE_IDX upwards.
  function Top(r: Rx, n: nat): seq<Byte> {
    var sr := r.low + [r.data];
    if n <= |sr| then sr[|sr| - n..] else sr
  }

  function Latched(cfg: Config, r: Rx, l: Latch, k: Kind, old_: nat): nat {
    if r.valid && r.latch == l then Field(Width(cfg, k), Top(r, Size(cfg, k))) else old_
  }

  function RxStep(cfg: Config, r: Rx): (n: Rx)
    ensures |n.low| == |r.low|
  {
    r.(valid := false, latch := NoField,
       low := if r.valid then (r.low + [r.data])[1..] else r.low,
       address := Latched(cfg, r, ToAddress, Address, r.address),
       writeData := Latched(cfg, r, ToWriteData, WriteData(false), r.writeData),
       strobe := Latched(cfg, r, ToStrobe, Strobe, r.strobe),
       misc := Latched(cfg, r, ToMisc, Misc, r.misc))
  }

  // ---- The state machine; n holds the default assignments of this edge ----

  function IdleStep(cfg: Config, n: Core, p: Pins): Core {
    var f := n.f.(received := 0, transmitted := 0, writeBusy := false, waitResponse := false, word := 0);
    var m := n.(f := f, t := n.t.(respPending := false));
    if !p.valid then m
    else if p.b == READ_WIDTHS then m.(f := f.(state := ReadWidth))
    else if cfg.writeWidth > 0 && (p.b == WRITE_LOCK || p.b == WRITE_UNLOCK) then
      m.(f := f.(state := WriteAccess, nextLock := p.b % 2 == 0))
    else if cfg.readWidth > 0 && (p.b == READ_LOCK || p.b == READ_UNLOCK) then
      m.(f := f.(state := ReadAccess, waitResponse := true), b := Bus(n.b.startWrite, true, p.b % 2 == 0))
    else if cfg.addressWidth > 0 && p.b == SET_ADDRESS then m.(f := f.(state := SetAddressS, expected := Size(cfg, Address) - 1))
    else if cfg.miscWidth > 0 && p.b == SET_MISC then m.(f := f.(state := SetMiscS, expected := Size(cfg, Misc) - 1))
    else if cfg.strobeWidth > 0 && p.b == SET_STROBE then m.(f := f.(state := SetStrobeS, expected := Size(cfg, Strobe) - 1))
    else m
  }

  function ReadWidthStep(cfg: Config, c: Core, n: Core, p: Pins): Core
    requires Formed(cfg, c)
  {
    if !UpFree(c.t, p) then n
    else
      var byte := ToBytes(4, WidthWords(cfg)[c.f.word])[c.f.transmitted % 4];
      var last := c.f.transmitted % 4 == 3;
      n.(t := n.t.(upValid := true, upData := byte),
         f := n.f.(transmitted := if last then 0 else Transmitted(cfg, c.f),
                   word := if !last then c.f.word else if c.f.word == 5 then 0 else c.f.word + 1,
                   state := if last && c.f.word == 5 then IdleS else ReadWidth))
  }

  function ReadAccessStep(cfg: Config, c: Core, n: Core, w: Wb, p: Pins): Core
    requires Formed(cfg, c)
  {
    if c.f.waitResponse then
      if !w.readDone then n
      else n.(f := n.f.(waitResponse := false),
              t := n.t.(respPending := true, respData := if w.accessError then NACK else ACK,
                        readData := ToBytes(RoundUp(cfg.readWidth), w.readData)))
    else if !UpFree(c.t, p) then n
    else if c.t.respPending then n.(t := n.t.(upValid := true, respPending := false, upData := c.t.respData))
    else if |c.t.readData| == 0 then n.(t := n.t.(upValid := true)) // no read data: never reached
    else
      var last := c.f.transmitted + 1 == RoundUp(cfg.readWidth);
      n.(t := n.t.(upValid := true, upData := c.t.readData[0],
                   readData := c.t.readData[1..] + [c.t.readData[|c.t.readData| - 1]]),
         f := n.f.(transmitted := if last then 0 else Transmitted(cfg, c.f),
                   state := if last then IdleS else ReadAccess))
  }

  predicate CompletesWrite(cfg: Config, f: Fsm, p: Pins) { p.valid && f.received + 1 == Size(cfg, WriteData(false)) }

  function CollectFsm(cfg: Config, f: Fsm, p: Pins): Fsm {
    f.(received := if p.valid then Received(cfg, f) else f.received, waitResponse := f.waitResponse || CompletesWrite(cfg, f, p))
  }

  function CollectRx(cfg: Config, f: Fsm, r: Rx, p: Pins): Rx {
    r.(valid := p.valid, data := if p.valid then p.b else r.data, latch := if CompletesWrite(cfg, f, p) then ToWriteData else NoField)
  }

  // c: before the edge; f, t: with the assignments so far.
  function AnswerFsm(c: Core, f: Fsm, w: Wb, p: Pins): Fsm {
    var answered := c.f.waitResponse && w.writeDone;
    f.(waitResponse := f.waitResponse && !answered, writeBusy := f.writeBusy || answered,
       state := if c.f.writeBusy && UpFree(c.t, p) then IdleS else f.state)
  }

  function AnswerTx(c: Core, t: Tx, w: Wb, p: Pins): Tx {
    var up := c.f.writeBusy && UpFree(c.t, p);
    t.(respData := if c.f.waitResponse && w.writeDone then if w.accessError then NACK else ACK else t.respData,
       upValid := up || t.upValid, upData := if up then c.t.respData else t.upData)
  }

  function WriteAccessStep(cfg: Config, c: Core, n: Core, w: Wb, p: Pins): Core {
    Core(AnswerFsm(c, CollectFsm(cfg, n.f, p), w, p), AnswerTx(c, n.t, w, p), CollectRx(cfg, n.f, n.r, p),
         Bus(c.r.latch == ToWriteData, false, if c.r.latch == ToWriteData then c.f.nextLock else c.b.lock))
  }

  function LatchOf(s: State): Latch {
    match s
    case SetAddressS => ToAddress
    case SetMiscS => ToMisc
    case _ => ToStrobe
  }

  function SetStep(cfg: Config, c: Core, n: Core, p: Pins): Core {
    if !p.valid then n
    else
      var last := c.f.received == c.f.expected;
      n.(f := n.f.(received := Received(cfg, c.f), state := if last then IdleS else c.f.state),
         r := n.r.(data := p.b, valid := true, latch := if last then LatchOf(c.f.state) else NoField))
  }

  function Defaults(cfg: Config, c: Core, p: Pins): Core {
    c.(t := c.t.(upValid := c.t.upValid && !p.upReady), r := RxStep(cfg, c.r), b := Bus(false, false, c.b.lock))
  }

  function CoreStep(cfg: Config, c: Core, w: Wb, p: Pins): (n: Core)
    requires Formed(cfg, c)
    ensures Formed(cfg, n)
  {
    var n := Defaults(cfg, c, p);
    match c.f.state
    case IdleS => IdleStep(cfg, n, p)
    case ReadWidth => ReadWidthStep(cfg, c, n, p)
    case ReadAccess => ReadAccessStep(cfg, c, n, w, p)
    case WriteAccess => WriteAccessStep(cfg, c, n, w, p)
    case _ => SetStep(cfg, c, n, p)
  }

  // ---- wishbone_control ----

  function WbStep(w: Wb, b: Bus, p: Pins): Wb {
    var n := w.(readDone := false, writeDone := false);
    if !w.cycstb then
      if b.startWrite || b.startRead then n.(cycstb := true, we := b.startWrite, lck := b.lock || w.lck) else n
    else if Answers(w, p) then
      n.(cycstb := false, readDone := !w.we, writeDone := w.we, lck := b.lock && w.lck, accessError := p.rty || p.err,
         readData := if w.we then w.readData else p.dat)
    else n
  }

  // A write leaves the data of the last read alone.
  lemma WriteKeepsReadData(w: Wb, b: Bus, p: Pins)
    requires w.we || !w.cycstb
    ensures WbStep(w, b, p).readData == w.readData
  {
  }

  // ---- The processes ----

  class BusAccessStatemachine {
    const cfg: Config
    var regs: Core

    constructor (cfg: Config, power: Core)
      requires Formed(cfg, power)
      ensures this.cfg == cfg && regs == power
    {
      this.cfg, regs := cfg, power;
    }

    // Every process reads the registers before the edge, c; the last assignment wins.
    method Clock(w: Wb, p: Pins)
      requires Formed(cfg, regs)
      modifies this
      ensures regs == CoreStep(cfg, old(regs), w, p)
    {
      var c := regs;
      var r := RxRegs(c.r);
      var n := c.(t := c.t.(upValid := c.t.upValid && !p.upReady), r := r, b := Bus(false, false, c.b.lock));
      match c.f.state {
        case IdleS => n := ReceiveCommand(n, p);
        case ReadWidth => n := SendWidths(c, n, p);
        case ReadAccess => n := Read(c, n, w, p);
        case WriteAccess => n := Write(c, n, w, p);
        case _ => n := Set(c, n, p);
      }
      regs := n;
    }

    method ReceiveCommand(d: Core, p: Pins) returns (n: Core)
      ensures n == IdleStep(cfg, d, p)
    {
      n := d.(f := d.f.(received := 0, transmitted := 0, writeBusy := false, waitResponse := false, word := 0),
              t := d.t.(respPending := false));
      if p.valid {
        if p.b == READ_WIDTHS {
          n := n.(f := n.f.(state := ReadWidth));
        }
        if cfg.writeWidth > 0 && (p.b == WRITE_LOCK || p.b == WRITE_UNLOCK) {
          n := n.(f := n.f.(state := WriteAccess, nextLock := p.b % 2 == 0));
        }
        if cfg.readWidth > 0 && (p.b == READ_LOCK || p.b == READ_UNLOCK) {
          n := n.(f := n.f.(state := ReadAccess, waitResponse := true), b := n.b.(lock := p.b % 2 == 0, startRead := true));
        }
        if cfg.addressWidth > 0 && p.b == SET_ADDRESS {
          n := n.(f := n.f.(state := SetAddressS, expected := RoundUp(cfg.addressWidth) - 1));
        }
        if cfg.miscWidth > 0 && p.b == SET_MISC {
          n := n.(f := n.f.(state := SetMiscS, expected := RoundUp(cfg.miscWidth) - 1));
        }
        if cfg.strobeWidth > 0 && p.b == SET_STROBE {
          n := n.(f := n.f.(state := SetStrobeS, expected := RoundUp(cfg.strobeWidth) - 1));
        }
      }
    }

    method SendWidths(c: Core, d: Core, p: Pins) returns (n: Core)
      requires Formed(cfg, c) && c.f.state == d.f.state == ReadWidth && c.f.word == d.f.word
      ensures n == ReadWidthStep(cfg, c, d, p)
    {
      n := d;
      if UpFree(c.t, p) {
        n := n.(t := n.t.(upData := ToBytes(4, WidthWords(cfg)[c.f.word])[c.f.transmitted % 4], upValid := true));
        n := n.(f := n.f.(transmitted := Transmitted(cfg, c.f)));
        if c.f.transmitted % 4 == 3 {
          n := n.(f := n.f.(transmitted := 0));
          if c.f.word == 5 {
            n := n.(f := n.f.(word := 0, state := IdleS));
          } else {
            n := n.(f := n.f.(word := c.f.word + 1));
          }
        }
      }
    }

    method Read(c: Core, d: Core, w: Wb, p: Pins) returns (n: Core)
      requires Formed(cfg, c) && c.f == d.f && c.f.state == ReadAccess
      ensures n == ReadAccessStep(cfg, c, d, w, p)
    {
      n := d;
      if c.f.waitResponse {
        if w.readDone {
          n := n.(f := n.f.(waitResponse := false),
                  t := n.t.(respPending := true, respData := if w.accessError then NACK else ACK,
                            readData := ToBytes(RoundUp(cfg.readWidth), w.readData)));
        }
      } else if UpFree(c.t, p) {
        n := n.(t := n.t.(upValid := true));
        if c.t.respPending {
          n := n.(t := n.t.(respPending := false, upData := c.t.respData));
        } else if |c.t.readData| > 0 {
          n := n.(f := n.f.(transmitted := Transmitted(cfg, c.f)),
                  t := n.t.(upData := c.t.readData[0], readData := c.t.readData[1..] + [c.t.readData[|c.t.readData| - 1]]));
          if c.f.transmitted == RoundUp(cfg.readWidth) - 1 {
            n := n.(f := n.f.(transmitted := 0, state := IdleS));
          }
        }
      }
    }

    method Write(c: Core, d: Core, w: Wb, p: Pins) returns (n: Core)
      requires !d.r.valid && d.r.latch == NoField && d.b == Bus(false, false, c.b.lock)
      ensures n == WriteAccessStep(cfg, c, d, w, p)
    {
      var f, r := CollectData(d.f, d.r, p);
      var b := d.b;
      if c.r.latch == ToWriteData {
        b := b.(startWrite := true, lock := c.f.nextLock);
      }
      var t;
      f, t := AnswerWrite(c, f, d.t, w, p);
      n := Core(f, t, r, b);
    }

    method CollectData(df: Fsm, dr: Rx, p: Pins) returns (f: Fsm, r: Rx)
      requires !dr.valid && dr.latch == NoField
      ensures f == CollectFsm(cfg, df, p) && r == CollectRx(cfg, df, dr, p)
    {
      f, r := df, dr;
      if p.valid {
        f := f.(received := Received(cfg, df));
        r := r.(data := p.b, valid := true);
        if df.received == RoundUp(cfg.writeWidth) - 1 {
          r := r.(latch := ToWriteData);
          f := f.(waitResponse := true);
        }
      }
    }

    // The answer of the bus is stored and put into the output register.
    method AnswerWrite(c: Core, df: Fsm, dt: Tx, w: Wb, p: Pins) returns (f: Fsm, t: Tx)
      ensures f == AnswerFsm(c, df, w, p) && t == AnswerTx(c, dt, w, p)
    {
      f, t := df, dt;
      if c.f.waitResponse && w.writeDone {
        t := t.(respData := if w.accessError then NACK else ACK);
        f := f.(waitResponse := false, writeBusy := true);
      }
      if c.f.writeBusy && UpFree(c.t, p) {
        t := t.(upValid := true, upData := c.t.respData);
        f := f.(state := IdleS);
      }
    }

    method Set(c: Core, d: Core, p: Pins) returns (n: Core)
      requires c.f == d.f && d.r.latch == NoField
      ensures n == SetStep(cfg, c, d, p)
    {
      n := d;
      if p.valid {
        n := n.(f := n.f.(received := Received(cfg, c.f)), r := n.r.(data := p.b, valid := true));
        if c.f.received == c.f.expected {
          n := n.(f := n.f.(state := IdleS));
          match c.f.state {
            case SetAddressS => n := n.(r := n.r.(latch := ToAddress));
            case SetMiscS => n := n.(r := n.r.(latch := ToMisc));
            case _ => n := n.(r := n.r.(latch := ToStrobe));
          }
        }
      }
    }

    // The shift register and the four field registers behind it.
    method RxRegs(r: Rx) returns (n: Rx)
      ensures n == RxStep(cfg, r)
    {
      n := r.(valid := false, latch := NoField);
      if r.valid {
        n := n.(low := (r.low + [r.data])[1..]);
        match r.latch {
          case NoField =>
          case ToAddress => n := n.(address := Field(cfg.addressWidth, Top(r, RoundUp(cfg.addressWidth))));
          case ToWriteData => n := n.(writeData := Field(cfg.writeWidth, Top(r, RoundUp(cfg.writeWidth))));
          case ToStrobe => n := n.(strobe := Field(cfg.strobeWidth, Top(r, RoundUp(cfg.strobeWidth))));
          case ToMisc => n := n.(misc := Field(cfg.miscWidth, Top(r, RoundUp(cfg.miscWidth))));
        }
      }
    }
  }

  // wishbone_control of WbMaster.
  class WbMaster {
    var cycstb: bool
    var we: bool
    var lck: bool
    var readData: nat
    var readDone: bool
    var writeDone: bool
    var accessError: bool

    function State(): Wb
      reads this
    {
      Wb(cycstb, we, lck, readData, readDone, writeDone, accessError)
    }

    constructor (power: Wb)
      ensures State() == power.(cycstb := false, lck := false, readDone := false, writeDone := false)
    {
      cycstb, we, lck, readData := false, power.we, false, power.readData;
      readDone, writeDone, accessError := false, false, power.accessError;
    }

    method Clock(b: Bus, p: Pins)
      modifies this
      ensures State() == WbStep(old(State()), b, p)
    {
      var answer := p.ack || p.rty || p.err;
      readDone, writeDone := false, false;
      if !cycstb {
        if b.startWrite || b.startRead {
          cycstb, we := true, b.startWrite;
          if b.lock {
            lck := true;
          }
        }
      } else if answer {
        cycstb := false;
        if !we {
          readDone := true;
          readData := p.dat;
        } else {
          writeDone := true;
        }
        if !b.lock {
          lck := false;
        }
        accessError := p.rty || p.err;
      }
    }
  }
}
