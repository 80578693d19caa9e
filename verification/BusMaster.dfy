// What a BusAccess core is for, byte by byte: the commands and fields that come down, the bus
// accesses they cause and the answers that go up, without clocks.
module BusMaster {
  import opened Bytes
  import opened Numbers

  const READ_WIDTHS: Byte := 0xAB
  const WRITE_LOCK: Byte := 0xBE
  const WRITE_UNLOCK: Byte := 0xBF
  const READ_LOCK: Byte := 0xCE
  const READ_UNLOCK: Byte := 0xCF
  const SET_ADDRESS: Byte := 0xD0
  const SET_MISC: Byte := 0xE5
  const SET_STROBE: Byte := 0x92
  const ACK: Byte := 0x55
  const NACK: Byte := 0x33
  const PROTOCOL_ID: Byte := 0x1D

  datatype Config = Config(addressWidth: nat, readWidth: nat, writeWidth: nat, miscWidth: nat, strobeWidth: nat,
                           coreType: Byte, miscInit: nat, asyncReset: bool)

  // ---- Accesses ----

  datatype Request = Request(write: bool, address: nat, data: nat, strobe: nat, misc: nat, lock: bool)
  datatype Response = Response(error: bool, data: nat)

  // held: the level of the bus lock during the access.
  datatype Access = Access(request: Request, held: bool, response: Response)

  datatype Kind = Address | Misc | Strobe | WriteData(lock: bool)
  datatype Phase = Idle | Collecting(kind: Kind, got: seq<Byte>) | Waiting(request: Request)

  datatype Master = Master(phase: Phase, address: nat, strobe: nat, misc: nat, held: bool,
                           done: seq<Access>, answers: seq<Byte>)

  function Width(cfg: Config, k: Kind): nat {
    match k
    case Address => cfg.addressWidth
    case Misc => cfg.miscWidth
    case Strobe => cfg.strobeWidth
    case WriteData(_) => cfg.writeWidth
  }

  function Size(cfg: Config, k: Kind): nat { RoundUp(Width(cfg, k)) }

  // A collection is never complete and never empty-sized.
  predicate Sound(cfg: Config, m: Master) {
    m.phase.Collecting? ==> |m.phase.got| < Size(cfg, m.phase.kind)
  }

  function ResetMaster(cfg: Config, m: Master): Master {
    m.(phase := Idle, address := 0, strobe := Pow2(cfg.strobeWidth) - 1, misc := cfg.miscInit, held := false)
  }

  // VERSION_AND_ID and the five widths, four bytes each.
  function WidthWords(cfg: Config): seq<nat> {
    [PROTOCOL_ID + 0x10000 * cfg.coreType, cfg.writeWidth, cfg.readWidth, cfg.addressWidth, cfg.miscWidth, cfg.strobeWidth]
  }

  function WordBytes(words: seq<nat>): (s: seq<Byte>)
    ensures |s| == 4 * |words|
  {
    if |words| == 0 then [] else ToBytes(4, words[0]) + WordBytes(words[1..])
  }

  lemma {:induction false} WordSlice(words: seq<nat>, i: nat)
    requires i < |words|
    ensures WordBytes(words)[4 * i..4 * i + 4] == ToBytes(4, words[i])
    decreases i
  {
    if i == 0 {
    } else {
      WordSlice(words[1..], i - 1);
      assert WordBytes(words)[4..] == WordBytes(words[1..]);
      assert WordBytes(words)[4 * i..4 * i + 4] == WordBytes(words)[4..][4 * (i - 1)..4 * (i - 1) + 4];
    }
  }

  lemma IdBytes(coreType: Byte)
    ensures ToBytes(4, 0x1D + 0x10000 * coreType) == [0x1D, 0x00, coreType, 0x00]
  {
    var v := 0x1D + 0x10000 * coreType;
    assert v % 256 == 0x1D && v / 256 == 0x100 * coreType;
    assert v / 256 % 256 == 0 && v / 256 / 256 == coreType;
    assert ToBytes(4, v) == [0x1D] + ToBytes(3, v / 256);
    assert ToBytes(3, v / 256) == [0x00] + ToBytes(2, coreType);
    assert ToBytes(2, coreType) == [coreType] + ToBytes(1, 0);
    assert ToBytes(1, 0) == [0] + ToBytes(0, 0);
  }

  // The 24 bytes that answer the width query: protocol ID, version 0, core type and 0, and then
  // the widths of write data, read data, address, misc and strobe.
  lemma WidthsOnTheWire(cfg: Config, m: Master)
    requires m.phase.Idle?
    ensures var a := ByteIn(cfg, m, 0xAB).answers;
            var k := |m.answers|;
            && |a| == k + 24 && a[..k] == m.answers
            && a[k..k + 4] == [0x1D, 0x00, cfg.coreType, 0x00]
            && a[k + 4..k + 8] == ToBytes(4, cfg.writeWidth)
            && a[k + 8..k + 12] == ToBytes(4, cfg.readWidth)
            && a[k + 12..k + 16] == ToBytes(4, cfg.addressWidth)
            && a[k + 16..k + 20] == ToBytes(4, cfg.miscWidth)
            && a[k + 20..k + 24] == ToBytes(4, cfg.strobeWidth)
  {
    var words, k := WidthWords(cfg), |m.answers|;
    IdBytes(cfg.coreType);
    WordOnTheWire(m.answers, words, 0, 0, 4, k, k + 4);
    WordOnTheWire(m.answers, words, 1, 4, 8, k + 4, k + 8);
    WordOnTheWire(m.answers, words, 2, 8, 12, k + 8, k + 12);
    WordOnTheWire(m.answers, words, 3, 12, 16, k + 12, k + 16);
    WordOnTheWire(m.answers, words, 4, 16, 20, k + 16, k + 20);
    WordOnTheWire(m.answers, words, 5, 20, 24, k + 20, k + 24);
  }

  lemma WordOnTheWire(before: seq<Byte>, words: seq<nat>, i: nat, lo: nat, hi: nat, k: nat, l: nat)
    requires i < |words| && lo == 4 * i && hi == lo + 4 && k == |before| + lo && l == |before| + hi
    ensures l <= |before + WordBytes(words)| && (before + WordBytes(words))[k..l] == ToBytes(4, words[i])
  {
    WordSlice(words, i);
    SliceBehind(before, WordBytes(words), lo, hi, k, l);
  }

  lemma SliceBehind(before: seq<Byte>, s: seq<Byte>, lo: nat, hi: nat, k: nat, l: nat)
    requires lo <= hi <= |s| && k == |before| + lo && l == |before| + hi
    ensures (before + s)[k..l] == s[lo..hi]
  {
  }

  function Answer(cfg: Config, r: Request, a: Response): seq<Byte> {
    [if a.error then NACK else ACK] + (if r.write then [] else ToBytes(RoundUp(cfg.readWidth), a.data))
  }

  // Acknowledged or not, and for a read the data of the bus, also of an access that failed.
  lemma AnswerOnTheWire(cfg: Config, r: Request, a: Response)
    requires a.data < Pow2(8 * RoundUp(cfg.readWidth))
    ensures var s := Answer(cfg, r, a);
            && |s| > 0 && s[0] == (if a.error then 0x33 else 0x55)
            && (if r.write then |s| == 1 else |s| == 1 + RoundUp(cfg.readWidth) && Value(s[1..]) == a.data)
  {
    ToBytesValue(RoundUp(cfg.readWidth), a.data);
    assert !r.write ==> Answer(cfg, r, a)[1..] == ToBytes(RoundUp(cfg.readWidth), a.data);
  }

  // The access that a command or a complete write asks for.
  function Asked(m: Master, write: bool, data: nat, lock: bool): Phase {
    Waiting(Request(write, m.address, data, m.strobe, m.misc, lock))
  }

  function Command(cfg: Config, m: Master, b: Byte): Master {
    if b == READ_WIDTHS then m.(answers := m.answers + WordBytes(WidthWords(cfg)))
    else if cfg.writeWidth > 0 && (b == WRITE_LOCK || b == WRITE_UNLOCK) then m.(phase := Collecting(WriteData(b == WRITE_LOCK), []))
    else if cfg.readWidth > 0 && (b == READ_LOCK || b == READ_UNLOCK) then m.(phase := Asked(m, false, 0, b == READ_LOCK))
    else if cfg.addressWidth > 0 && b == SET_ADDRESS then m.(phase := Collecting(Address, []))
    else if cfg.miscWidth > 0 && b == SET_MISC then m.(phase := Collecting(Misc, []))
    else if cfg.strobeWidth > 0 && b == SET_STROBE then m.(phase := Collecting(Strobe, []))
    else m
  }

  // The commands that have a field: set address, misc and strobe, and write with and without lock.
  predicate Collects(cfg: Config, b: Byte, k: Kind) {
    match k
    case Address => b == 0xD0 && cfg.addressWidth > 0
    case Misc => b == 0xE5 && cfg.miscWidth > 0
    case Strobe => b == 0x92 && cfg.strobeWidth > 0
    case WriteData(lock) => b == (if lock then 0xBE else 0xBF) && cfg.writeWidth > 0
  }

  // Which byte is which command; a command for a field that does not exist does nothing.
  lemma CommandsOnTheWire(cfg: Config, m: Master, b: Byte, k: Kind)
    requires m.phase.Idle?
    ensures var n := Command(cfg, m, b);
            && (n.phase == Collecting(k, []) <==> Collects(cfg, b, k))
            && (n.phase.Waiting? <==> cfg.readWidth > 0 && (b == 0xCE || b == 0xCF))
            && (n.phase.Waiting? ==> n.phase.request == Request(false, m.address, 0, m.strobe, m.misc, b == 0xCE))
            && (n.phase.Idle? && b != 0xAB ==> n == m)
            && n == m.(phase := n.phase, answers := n.answers) && (b != 0xAB ==> n.answers == m.answers)
  {
  }

  function Complete(cfg: Config, m: Master, k: Kind, got: seq<Byte>): Master {
    var v := Field(Width(cfg, k), got);
    match k
    case Address => m.(phase := Idle, address := v)
    case Misc => m.(phase := Idle, misc := v)
    case Strobe => m.(phase := Idle, strobe := v)
    case WriteData(lock) => m.(phase := Asked(m, true, v, lock))
  }

  function Collect(cfg: Config, m: Master, k: Kind, got: seq<Byte>): Master {
    if |got| < Size(cfg, k) then m.(phase := Collecting(k, got)) else Complete(cfg, m, k, got)
  }

  function ByteIn(cfg: Config, m: Master, b: Byte): Master
    requires !m.phase.Waiting?
  {
    if m.phase.Idle? then Command(cfg, m, b) else Collect(cfg, m, m.phase.kind, m.phase.got + [b])
  }

  // The bus answers. The lock stays only after a locked access.
  function Answered(cfg: Config, m: Master, a: Response): Master
    requires m.phase.Waiting?
  {
    var r := m.phase.request;
    m.(phase := Idle, done := m.done + [Access(r, m.held || r.lock, a)], held := r.lock,
       answers := m.answers + Answer(cfg, r, a))
  }

  // ---- Sequences of bytes ----

  // slave(k) is the answer of the bus to its k-th access.
  function Settle(cfg: Config, m: Master, slave: nat -> Response): (n: Master)
    ensures !n.phase.Waiting?
  {
    if m.phase.Waiting? then Answered(cfg, m, slave(|m.done|)) else m
  }

  function Feed(cfg: Config, m: Master, s: seq<Byte>, slave: nat -> Response): (n: Master)
    requires !m.phase.Waiting?
    ensures !n.phase.Waiting?
    decreases |s|
  {
    if |s| == 0 then m else Feed(cfg, Settle(cfg, ByteIn(cfg, m, s[0]), slave), s[1..], slave)
  }

  lemma {:induction false} FeedConcat(cfg: Config, m: Master, s: seq<Byte>, t: seq<Byte>, slave: nat -> Response)
    requires !m.phase.Waiting?
    ensures Feed(cfg, m, s + t, slave) == Feed(cfg, Feed(cfg, m, s, slave), t, slave)
    decreases |s|
  {
    if |s| == 0 {
      assert s + t == t;
    } else {
      FeedConcat(cfg, Settle(cfg, ByteIn(cfg, m, s[0]), slave), s[1..], t, slave);
      assert (s + t)[1..] == s[1..] + t;
    }
  }

  // A whole field.
  lemma {:induction false} FeedField(cfg: Config, m: Master, k: Kind, got: seq<Byte>, s: seq<Byte>, slave: nat -> Response)
    requires m.phase == Collecting(k, got) && |s| > 0 && |got| + |s| == Size(cfg, k)
    ensures Feed(cfg, m, s, slave) == Settle(cfg, Complete(cfg, m, k, got + s), slave)
    decreases |s|
  {
    var n := m.(phase := Collecting(k, got + [s[0]]));
    if |s| == 1 {
      assert s == [s[0]];
      assert s[1..] == [];
    } else {
      FeedField(cfg, n, k, got + [s[0]], s[1..], slave);
      assert (got + [s[0]]) + s[1..] == got + s;
      assert Complete(cfg, n, k, got + s) == Complete(cfg, m, k, got + s);
    }
  }
}
