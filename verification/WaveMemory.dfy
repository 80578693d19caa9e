// WaveformGeneratorMemory: writeFsm, the sample memories (PdpRam with output register) and
// readFsm. n is 2**ADDR_WIDTH; samples are numbers below 2**DATA_WIDTH.
module WaveMemory {
  import opened Bytes

  datatype Writer = Writer(
    start0: bool, start1: bool, start2: bool,               // start_sreg
    we: bool, we2: bool, address: nat, data: nat, buffer: bool, last: bool,
    nextStb: bool, next: Next)

  datatype PlayState = Idle | Running | OneShot | WaitSync

  datatype Player = Player(state: PlayState, address: nat, first: bool, enable: bool, buffer: bool, syncOut: bool, last: nat)

  // The waveform to play next: the address of its last sample, and its buffer.
  datatype Next = Next(last: nat, buffer: bool)
  datatype Latches = Latches(start: bool, stop: bool, oneShot: bool)
  datatype Reader = Reader(p: Player, next: Next, latched: Latches)

  // What the player is told: start (three clocks late), stop, one_shot, sync_in.
  datatype Orders = Orders(start: bool, stop: bool, oneShot: bool, sync: bool)

  // Three registers wait for the RAM; read, read2 are the outputs of the two RAMs.
  datatype Tags = Tags(first: bool, enable: bool, buffer: bool)
  datatype Align = Align(tags: Tags, tags2: Tags, readNext: nat, readNext2: nat, read: nat, read2: nat,
                         first: bool, enabled: bool, data: nat)

  datatype Config = Config(n: nat, double: bool, syncMaster: bool)

  datatype In = In(samples: nat, valid: bool, ifReset: bool, last: bool,       // from the controller
                   start: bool, stop: bool, oneShot: bool, outEnable: bool, syncIn: bool)

  datatype Memory = Memory(w: Writer, r: Reader, a: Align, ram: seq<nat>, ram2: seq<nat>)

  predicate Sized(cfg: Config, m: Memory) {
    && |m.ram| == |m.ram2| == cfg.n && m.w.address < cfg.n && m.r.p.address < cfg.n
  }

  predicate WeCom(cfg: Config, w: Writer) { w.we || (cfg.double && w.we2) }

  predicate Second(cfg: Config, buffer: bool) { cfg.double && buffer }

  function WriterStep(cfg: Config, w: Writer, i: In): (n: Writer)
    requires w.address < cfg.n
    ensures n.address < cfg.n
  {
    var publish := WeCom(cfg, w) && w.last;
    Writer(i.start, w.start0, w.start1,
           i.valid && !Second(cfg, w.buffer), i.valid && Second(cfg, w.buffer),
           if i.ifReset then 0 else if WeCom(cfg, w) then Wrap(w.address + 1, cfg.n) else w.address,
           i.samples, if i.ifReset then !w.buffer else w.buffer, if i.valid then i.last else w.last,
           publish, if publish then Next(w.address, w.buffer) else w.next)
  }

  function OrdersOf(l: Latches, w: Writer, i: In): Orders {
    Orders(l.start || w.start2, l.stop || i.stop, l.oneShot || i.oneShot, i.syncIn)
  }

  // One step of the playback with data_out_enable.
  function PlayStep(cfg: Config, p: Player, next: Next, o: Orders): (q: Player)
    requires p.address < cfg.n
    ensures q.address < cfg.n
  {
    var resting := Player(p.state, 0, false, false, next.buffer, false, next.last);
    match p.state
    case Idle =>
      if o.oneShot then resting.(state := OneShot, first := true, enable := true)
      else if !o.start then resting
      else if cfg.syncMaster then resting.(state := Running, first := true, enable := true)
      else resting.(state := WaitSync)
    case WaitSync => if o.sync then resting.(state := Running, first := true, enable := true) else resting
    case Running =>
      Player(if o.stop then Idle else Running, if p.syncOut then 0 else Wrap(p.address + 1, cfg.n), p.syncOut,
             p.enable && !o.stop, if p.syncOut then next.buffer else p.buffer,
             Wrap(p.address + 1, cfg.n) == p.last, if p.syncOut then next.last else p.last)
    case OneShot =>
      p.(address := Wrap(p.address + 1, cfg.n), first := false, syncOut := false,
         state := if p.address == p.last then Idle else OneShot, enable := p.enable && p.address != p.last)
  }

  function ReaderStep(cfg: Config, r: Reader, w: Writer, i: In): (n: Reader)
    requires r.p.address < cfg.n
    ensures n.p.address < cfg.n
  {
    Reader(if i.outEnable then PlayStep(cfg, r.p, r.next, OrdersOf(r.latched, w, i)) else r.p,
           if w.nextStb then w.next else r.next,
           if i.outEnable then Latches(false, false, false)
           else Latches(r.latched.start || w.start2, r.latched.stop || i.stop, r.latched.oneShot || i.oneShot))
  }

  function AlignStep(cfg: Config, a: Align, r: Player, ram: seq<nat>, ram2: seq<nat>, outEnable: bool): Align
    requires |ram| == |ram2| == cfg.n && r.address < cfg.n
  {
    var b := Align(Tags(r.first, r.enable, r.buffer), a.tags, ram[r.address], ram2[r.address], a.readNext, a.readNext2,
                   a.first, a.enabled, a.data);
    if outEnable then
      b.(first := a.tags2.first, enabled := a.tags2.enable,
         data := if !a.tags2.enable then 0 else if Second(cfg, a.tags2.buffer) then a.read2 else a.read)
    else b
  }

  function MemoryStep(cfg: Config, m: Memory, i: In): (n: Memory)
    requires Sized(cfg, m)
    ensures Sized(cfg, n)
  {
    Memory(WriterStep(cfg, m.w, i), ReaderStep(cfg, m.r, m.w, i), AlignStep(cfg, m.a, m.r.p, m.ram, m.ram2, i.outEnable),
           if m.w.we then m.ram[m.w.address := m.w.data] else m.ram,
           if cfg.double && m.w.we2 then m.ram2[m.w.address := m.w.data] else m.ram2)
  }

  // The reset leaves the state of the playback and the contents of the memories alone.
  function ResetReader(r: Reader): Reader {
    r.(p := r.p.(first := false, enable := false, buffer := false, syncOut := false), next := r.next.(buffer := false))
  }

  class WaveformGeneratorMemory {
    const cfg: Config
    const samples: array<nat>
    const samples2: array<nat>
    var w: Writer
    var r: Reader
    var a: Align

    function State(): Memory
      reads this, samples, samples2
    {
      Memory(w, r, a, samples[..], samples2[..])
    }

    predicate Valid()
      reads this, samples, samples2
    {
      samples != samples2 && Sized(cfg, State())
    }

    constructor (cfg: Config, power: Memory)
      requires Sized(cfg, power)
      ensures this.cfg == cfg && Valid() && fresh(samples) && fresh(samples2)
      ensures State() == power.(r := ResetReader(power.r),
                                a := power.a.(tags := Tags(false, false, false), tags2 := Tags(false, false, false), enabled := false))
    {
      this.cfg := cfg;
      samples := new nat[cfg.n](i requires 0 <= i < cfg.n => power.ram[i]);
      samples2 := new nat[cfg.n](i requires 0 <= i < cfg.n => power.ram2[i]);
      w := power.w;
      r := ResetReader(power.r);
      a := power.a.(tags := Tags(false, false, false), tags2 := Tags(false, false, false), enabled := false);
      new;
      assert samples[..] == power.ram && samples2[..] == power.ram2;
    }

    method Clock(i: In)
      requires Valid()
      modifies this, samples, samples2
      ensures Valid() && State() == MemoryStep(cfg, old(State()), i)
    {
      var wBefore, rBefore := w, r;
      w := WriteFsm(wBefore, i);
      r := ReadFsm(rBefore, wBefore, i);
      a := AlignStep(cfg, a, rBefore.p, samples[..], samples2[..], i.outEnable);
      if wBefore.we {
        samples[wBefore.address] := wBefore.data;
      }
      if cfg.double && wBefore.we2 {
        samples2[wBefore.address] := wBefore.data;
      }
    }

    method WriteFsm(b: Writer, i: In) returns (n: Writer)
      requires b.address < cfg.n
      ensures n == WriterStep(cfg, b, i)
    {
      var weCom := b.we || (cfg.double && b.we2);
      var we, we2, address, buffer, last := false, false, b.address, b.buffer, b.last;
      if i.ifReset {
        address := 0;
        buffer := !b.buffer;
      } else if weCom {
        address := Wrap(b.address + 1, cfg.n);
      }
      if i.valid {
        last := i.last;
        if !cfg.double || !b.buffer {
          we := true;
        } else {
          we2 := true;
        }
      }
      var nextStb, next := false, b.next;
      if weCom && b.last {
        next, nextStb := Next(b.address, b.buffer), true;
      }
      n := Writer(i.start, b.start0, b.start1, we, we2, address, i.samples, buffer, last, nextStb, next);
    }

    method ReadFsm(b: Reader, write: Writer, i: In) returns (n: Reader)
      requires b.p.address < cfg.n
      ensures n == ReaderStep(cfg, b, write, i)
    {
      n := b;
      if write.nextStb {
        n := n.(next := write.next);
      }
      if i.outEnable {
        n := n.(latched := Latches(false, false, false));
      } else {
        n := n.(latched := Latches(b.latched.start || write.start2, b.latched.stop || i.stop, b.latched.oneShot || i.oneShot));
      }
      if i.outEnable {
        var p := Play(b.p, b.next, OrdersOf(b.latched, write, i));
        n := n.(p := p);
      }
    }

    method Play(b: Player, next: Next, o: Orders) returns (n: Player)
      requires b.address < cfg.n
      ensures n == PlayStep(cfg, b, next, o)
    {
      n := b.(syncOut := false, first := false, address := Wrap(b.address + 1, cfg.n));
      match b.state {
        case Idle =>
          n := n.(address := 0, buffer := next.buffer, last := next.last, enable := false);
          if o.oneShot {
            n := n.(state := OneShot, first := true, enable := true);
          } else if o.start {
            if cfg.syncMaster {
              n := n.(state := Running, first := true, enable := true);
            } else {
              n := n.(state := WaitSync);
            }
          }
        case WaitSync =>
          n := n.(address := 0, buffer := next.buffer, last := next.last, enable := false);
          if o.sync {
            n := n.(state := Running, first := true, enable := true);
          }
        case Running =>
          if Wrap(b.address + 1, cfg.n) == b.last {
            n := n.(syncOut := true);
          }
          if b.syncOut {
            n := n.(address := 0, first := true, buffer := next.buffer, last := next.last);
          }
          if o.stop {
            n := n.(state := Idle, enable := false);
          }
        case OneShot =>
          if b.address == b.last {
            n := n.(state := Idle, enable := false);
          }
      }
    }
  }
}
