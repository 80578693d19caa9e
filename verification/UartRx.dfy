// IpdbgUartRx with PARITY = 0: the majority counter and the receiver, one step per sample
// (CLOCKS_PER_ONE_SIXTEENTH_BIT enabled clocks). Times are in samples; sample k sees the line
// at time k. The synchronizer only shifts all samples by the same time.
module UartRx {
  import opened Bytes

  datatype RxState = Idle | Start | Data | Stop

  datatype Counter = Counter(sr: seq<bool>, cnt: int, major: bool) // sr[0] is the youngest sample

  datatype Receiver = Receiver(
    state: RxState, sampleCounter: nat, sample: bool, bitCounter: nat,
    reg: seq<bool>, data: seq<bool>, dataValid: bool) // reg[0] is the least significant bit

  predicate Shaped(r: Receiver) { |r.reg| == 8 && r.sampleCounter < 16 && r.bitCounter < 8 }

  function CounterStep(c: Counter, rxd: bool): (n: Counter)
    requires |c.sr| == 16
    ensures |n.sr| == 16
  {
    var cnt := if rxd && !c.sr[15] && c.cnt < 16 then c.cnt + 1
               else if !rxd && c.sr[15] && c.cnt > 0 then c.cnt - 1
               else c.cnt;
    Counter([rxd] + c.sr[..15], cnt, c.cnt >= 8)
  }

  // major is the register in front of the receiver, as it was before the edge.
  function ReceiverStep(r: Receiver, rxd: bool, major: bool): (n: Receiver)
    requires Shaped(r)
    ensures Shaped(n)
  {
    var s := r.(dataValid := false, sample := r.sampleCounter == 15,
                sampleCounter := if r.sampleCounter == 15 then 0 else r.sampleCounter + 1);
    match r.state
    case Idle => s.(bitCounter := 0, sampleCounter := 1, state := if rxd then Idle else Start)
    case Start => if !r.sample then s else s.(state := if major then Idle else Data)
    case Data =>
      if !r.sample then s
      else
        s.(state := if r.bitCounter == 7 then Stop else Data,
           bitCounter := if r.bitCounter == 7 then 0 else r.bitCounter + 1,
           reg := r.reg[1..] + [major])
    case Stop => s.(state := Idle, data := r.reg, dataValid := true)
  }

  class IpdbgUartRx {
    var counter: Counter
    var receiver: Receiver

    predicate Valid()
      reads this
    {
      |counter.sr| == 16 && Shaped(receiver)
    }

    // After reset the receiver is idle; nothing else is defined.
    constructor (powerCounter: Counter, power: Receiver)
      requires |powerCounter.sr| == 16 && Shaped(power)
      ensures Valid() && counter == powerCounter
      ensures receiver == power.(state := Idle, dataValid := false)
    {
      counter, receiver := powerCounter, power.(state := Idle, dataValid := false);
    }

    // Both processes run on the registers before the edge.
    method Sample(rxd: bool)
      requires Valid()
      modifies this
      ensures Valid() && counter == CounterStep(old(counter), rxd)
      ensures receiver == ReceiverStep(old(receiver), rxd, old(counter.major))
    {
      var major := counter.major;
      MajorityCounter(rxd);
      Receive(rxd, major);
    }

    method MajorityCounter(rxd: bool)
      requires |counter.sr| == 16
      modifies this`counter
      ensures counter == CounterStep(old(counter), rxd)
    {
      var c := counter;
      counter := counter.(major := c.cnt >= 8, sr := [rxd] + c.sr[..15]);
      if rxd && !c.sr[15] && c.cnt < 16 {
        counter := counter.(cnt := c.cnt + 1);
      } else if !rxd && c.sr[15] && c.cnt > 0 {
        counter := counter.(cnt := c.cnt - 1);
      }
    }

    method Receive(rxd: bool, major: bool)
      requires Shaped(receiver)
      modifies this`receiver
      ensures receiver == ReceiverStep(old(receiver), rxd, major)
    {
      var r := receiver;
      receiver := r.(dataValid := false, sample := false);
      if r.sampleCounter == 15 {
        receiver := receiver.(sampleCounter := 0, sample := true);
      } else {
        receiver := receiver.(sampleCounter := r.sampleCounter + 1);
      }
      match r.state {
        case Idle =>
          receiver := receiver.(bitCounter := 0, sampleCounter := 1);
          if !rxd { // falling edge
            receiver := receiver.(state := Start);
          }
        case Start =>
          if r.sample {
            receiver := receiver.(state := if major then Idle else Data); // or just a glitch
          }
        case Data =>
          if r.sample {
            if r.bitCounter == 7 {
              receiver := receiver.(state := Stop);
            }
            receiver := receiver.(bitCounter := (r.bitCounter + 1) % 8, reg := r.reg[1..] + [major]);
          }
        case Stop =>
          receiver := receiver.(state := Idle, data := r.reg, dataValid := true);
      }
    }
  }

  // ---- The majority counter ----

  // The counter always equals the number of ones in the window: its limits never hold it back.
  lemma CounterCounts(c: Counter, rxd: bool)
    requires |c.sr| == 16 && c.cnt == Count(c.sr)
    ensures CounterStep(c, rxd).cnt == Count(CounterStep(c, rxd).sr)
  {
    CountAppend([rxd], c.sr[..15]);
    CountAppend(c.sr[..15], c.sr[15..]);
    assert c.sr == c.sr[..15] + c.sr[15..];
    assert Count([rxd]) == if rxd then 1 else 0;
    assert Count(c.sr[15..]) == if c.sr[15] then 1 else 0;
    CountBounds(c.sr[..15]);
  }

  // Nine equal samples in the window decide.
  lemma MajorityOf(s: seq<bool>, lo: nat, hi: nat, b: bool)
    requires |s| == 16 && lo + 9 <= hi <= 16
    requires forall i :: lo <= i < hi ==> s[i] == b
    ensures (Count(s) >= 8) == b
  {
    assert s == s[..lo] + s[lo..hi] + s[hi..];
    CountAppend(s[..lo] + s[lo..hi], s[hi..]);
    CountAppend(s[..lo], s[lo..hi]);
    CountBounds(s[..lo]);
    CountBounds(s[lo..hi]);
    CountBounds(s[hi..]);
  }

  // The window in front of sample k, youngest sample first.
  ghost function Window(line: int -> bool, k: int): seq<bool> {
    seq(16, j requires 0 <= j < 16 => line(k - 1 - j))
  }

  // In front of sample k the counter holds the window, its number of ones and the majority of
  // the window one sample earlier.
  ghost predicate Watching(c: Counter, line: int -> bool, k: int) {
    c.sr == Window(line, k) && c.cnt == Count(c.sr) && c.major == (Count(Window(line, k - 1)) >= 8)
  }

  lemma KeepsWatching(c: Counter, line: int -> bool, k: int)
    requires Watching(c, line, k)
    ensures Watching(CounterStep(c, line(k)), line, k + 1)
  {
    CounterCounts(c, line(k));
    assert CounterStep(c, line(k)).sr == Window(line, k + 1);
    assert Window(line, k + 1 - 1) == Window(line, k);
  }

  // ---- The line ----

  // A frame begins at some real time; bit 0 is sent first.
  datatype Frame = Frame(start: real, bits: seq<bool>)

  // Start bit, eight data bits, stop bit.
  function Level(f: Frame, i: nat): bool
    requires |f.bits| == 8 && i < 10
  {
    if i == 0 then false else if i <= 8 then f.bits[i - 1] else true
  }

  // When the i-th bit time of a frame begins.
  function Begin(start: real, bitTime: real, i: nat): real {
    if i == 0 then start else Begin(start, bitTime, i - 1) + bitTime
  }

  ghost predicate Holds(line: int -> bool, from: real, to: real, b: bool) {
    forall k: int {:trigger line(k)} :: from <= k as real < to ==> line(k) == b
  }

  ghost predicate Drives(line: int -> bool, bitTime: real, f: Frame) {
    && |f.bits| == 8
    && forall i :: 0 <= i < 10 ==> Holds(line, Begin(f.start, bitTime, i), Begin(f.start, bitTime, i + 1), Level(f, i))
  }

  // From sample k to sample l, whenever an idle receiver sees a low sample, at least eight of
  // the sample before it, itself and the fourteen after it are high. Then sixteen samples later
  // the receiver goes back, and may see the next low sample after that.
  ghost predicate Rejects(line: int -> bool, k: int, l: int)
    decreases l - k
  {
    || k == l
    || (k < l && line(k) && Rejects(line, k + 1, l))
    || (k + 17 <= l && !line(k) && Count(Window(line, k + 15)) >= 8 && Rejects(line, k + 17, l))
  }

  // The first sample at or after a time.
  function Ceil(t: real): (k: int)
    ensures k as real - 1.0 < t <= k as real
  {
    -((-t).Floor)
  }

  // From time `since` on the line has no low level but rejected ones until the first frame,
  // which is followed by the others, each beginning at or after the end of the stop bit of the
  // one before.
  ghost predicate Carries(line: int -> bool, bitTime: real, since: real, frames: seq<Frame>)
    decreases |frames|
  {
    |frames| == 0 ||
    (var f := frames[0];
     && since <= f.start
     && Rejects(line, Ceil(since), Ceil(f.start))
     && Drives(line, bitTime, f)
     && Carries(line, bitTime, Begin(f.start, bitTime, 10), frames[1..]))
  }

  // Within 2/9 of a sample of 16 samples per bit, which is 1.38 %.
  predicate Tolerable(bitTime: real) { 16.0 - 2.0 / 9.0 <= bitTime <= 16.0 + 2.0 / 9.0 }

  lemma {:induction false} BeginBounds(start: real, bitTime: real, i: nat)
    requires Tolerable(bitTime)
    ensures -2.0 / 9.0 * (i as real) <= Begin(start, bitTime, i) - start - 16.0 * (i as real) <= 2.0 / 9.0 * (i as real)
  {
    if i == 0 {
    } else {
      BeginBounds(start, bitTime, i - 1);
    }
  }

  // Twelve samples of each bit are surely inside it: counted from the sample that sees the
  // falling edge, these are 16 * i + 2 .. 16 * i + 13.
  lemma SamplesInBit(line: int -> bool, bitTime: real, f: Frame, i: nat, k: int)
    requires Tolerable(bitTime) && Drives(line, bitTime, f) && i < 9
    requires Ceil(f.start) + 16 * i + 2 <= k <= Ceil(f.start) + 16 * i + 13
    ensures line(k) == Level(f, i)
  {
    BeginBounds(f.start, bitTime, i);
    BeginBounds(f.start, bitTime, i + 1);
    assert 16.0 * (i as real) + 2.0 <= k as real - Ceil(f.start) as real <= 16.0 * (i as real) + 13.0;
    assert i as real <= 8.0 && (i + 1) as real == i as real + 1.0;
    assert Holds(line, Begin(f.start, bitTime, i), Begin(f.start, bitTime, i + 1), Level(f, i));
  }

  // The majority 16 samples later is that bit.
  lemma MajorityInBit(line: int -> bool, bitTime: real, f: Frame, i: nat, c: Counter)
    requires Tolerable(bitTime) && Drives(line, bitTime, f) && i < 9
    requires Watching(c, line, Ceil(f.start) + 16 * (i + 1))
    ensures c.major == Level(f, i)
  {
    var k := Ceil(f.start) + 16 * (i + 1);
    var s := Window(line, k - 1);
    forall j | 1 <= j < 13 ensures s[j] == Level(f, i) {
      SamplesInBit(line, bitTime, f, i, k - 2 - j);
    }
    MajorityOf(s, 1, 13, Level(f, i));
  }

  // ---- One frame ----

  datatype Rx = Rx(c: Counter, r: Receiver)

  ghost predicate Sees(x: Rx, line: int -> bool, k: int) { Watching(x.c, line, k) && Shaped(x.r) }

  function Next(x: Rx, rxd: bool): (n: Rx)
    requires |x.c.sr| == 16 && Shaped(x.r)
  {
    Rx(CounterStep(x.c, rxd), ReceiverStep(x.r, rxd, x.c.major))
  }

  // The last b bits shifted in are the first b bits of the frame.
  predicate Taken(reg: seq<bool>, bits: seq<bool>, b: nat)
    requires |reg| == 8 && |bits| == 8 && b <= 8
  {
    reg[8 - b..] == bits[..b]
  }

  // The receiver 16 * i + p samples after the one that saw the falling edge.
  predicate Phase(r: Receiver, f: Frame, i: nat, p: nat)
    requires Shaped(r) && |f.bits| == 8
  {
    && i <= 9 && p < 16 && 1 <= 16 * i + p <= 145
    && r.sampleCounter == p && r.sample == (p == 0)
    && !r.dataValid
    && (var b := if p == 0 then i - 2 else i - 1;
        if b < 0 then r.state == Start && r.bitCounter == 0
        else if b == 8 then r.state == Stop && r.reg == f.bits
        else r.state == Data && r.bitCounter == b && Taken(r.reg, f.bits, b))
  }

  lemma TakenStep(reg: seq<bool>, bits: seq<bool>, b: nat)
    requires |reg| == 8 && |bits| == 8 && b < 8 && Taken(reg, bits, b)
    ensures Taken(reg[1..] + [bits[b]], bits, b + 1)
    ensures b == 7 ==> reg[1..] + [bits[b]] == bits
  {
    var n := reg[1..] + [bits[b]];
    assert n[8 - (b + 1)..] == reg[8 - b..] + [bits[b]];
    assert bits[..b + 1] == bits[..b] + [bits[b]];
    if b == 7 {
      assert n == n[0..];
      assert bits[..8] == bits;
    }
  }

  // A step inside a bit time, which takes nothing.
  lemma PhaseCounts(r: Receiver, f: Frame, i: nat, p: nat, rxd: bool, major: bool)
    requires Shaped(r) && |f.bits| == 8 && Phase(r, f, i, p) && p >= 1 && 16 * i + p < 145
    ensures if p == 15 then Phase(ReceiverStep(r, rxd, major), f, i + 1, 0)
            else Phase(ReceiverStep(r, rxd, major), f, i, p + 1)
  {
  }

  // The step that decides about the start bit or takes a data bit.
  lemma PhaseTakes(r: Receiver, f: Frame, i: nat, rxd: bool, major: bool)
    requires Shaped(r) && |f.bits| == 8 && 1 <= i && Phase(r, f, i, 0) && major == Level(f, i - 1)
    ensures Phase(ReceiverStep(r, rxd, major), f, i, 1)
  {
    if i >= 2 {
      TakenStep(r.reg, f.bits, i - 2);
    }
  }

  // ---- Runs ----

  predicate Formed(x: Rx) { |x.c.sr| == 16 && Shaped(x.r) }

  function After(x: Rx, line: int -> bool, k: int, n: nat): (y: Rx)
    requires Formed(x)
    ensures Formed(y)
    decreases n
  {
    if n == 0 then x else After(Next(x, line(k)), line, k + 1, n - 1)
  }

  // What comes out with data_valid.
  function Words(x: Rx, line: int -> bool, k: int, n: nat): seq<seq<bool>>
    requires Formed(x)
    decreases n
  {
    if n == 0 then []
    else
      var y := Next(x, line(k));
      (if y.r.dataValid then [y.r.data] else []) + Words(y, line, k + 1, n - 1)
  }

  lemma RunFirst(x: Rx, y: Rx, line: int -> bool, k: int, n: nat, l: int, m: nat)
    requires Formed(x) && y == Next(x, line(k)) && l == k + 1 && n == m + 1
    ensures After(x, line, k, n) == After(y, line, l, m)
    ensures Words(x, line, k, n) == (if y.r.dataValid then [y.r.data] else []) + Words(y, line, l, m)
  {
  }

  // All samples are n from k on and, from z on, m more from l on.
  predicate Splits(x: Rx, z: Rx, line: int -> bool, k: int, n: nat, l: int, m: nat, all: nat)
    requires Formed(x) && Formed(z)
  {
    After(x, line, k, all) == After(z, line, l, m) && Words(x, line, k, all) == Words(x, line, k, n) + Words(z, line, l, m)
  }

  lemma SplitsFirst(x: Rx, y: Rx, z: Rx, line: int -> bool, k: int, n: nat, l: int, m: nat, all: nat, k1: int, n1: nat, all1: nat)
    requires Formed(x) && Formed(z) && y == Next(x, line(k)) && k1 == k + 1 && n == n1 + 1 && all == all1 + 1
    requires Splits(y, z, line, k1, n1, l, m, all1)
    ensures Splits(x, z, line, k, n, l, m, all)
  {
    RunFirst(x, y, line, k, n, k1, n1);
    RunFirst(x, y, line, k, all, k1, all1);
    var first, rest, later := if y.r.dataValid then [y.r.data] else [], Words(y, line, k1, n1), Words(z, line, l, m);
    assert first + (rest + later) == (first + rest) + later;
  }

  lemma {:induction false} RunSplits(x: Rx, z: Rx, line: int -> bool, k: int, n: nat, l: int, m: nat, all: nat)
    requires Formed(x) && z == After(x, line, k, n) && l == k + n && all == n + m
    ensures Splits(x, z, line, k, n, l, m, all)
    decreases n
  {
    if n == 0 {
      assert [] + Words(z, line, l, m) == Words(z, line, l, m);
    } else {
      RunFirst(x, Next(x, line(k)), line, k, n, k + 1, n - 1);
      RunSplits(Next(x, line(k)), z, line, k + 1, n - 1, l, m, all - 1);
      SplitsFirst(x, Next(x, line(k)), z, line, k, n, l, m, all, k + 1, n - 1, all - 1);
    }
  }

  ghost predicate Ready(x: Rx, line: int -> bool, k: int) {
    Sees(x, line, k) && x.r.state == Idle && x.r.sampleCounter < 15
  }

  lemma StepReady(x: Rx, line: int -> bool, k: int)
    requires Ready(x, line, k) && line(k)
    ensures Ready(Next(x, line(k)), line, k + 1) && !Next(x, line(k)).r.dataValid
  {
    KeepsWatching(x.c, line, k);
  }

  // m samples of a high line have been seen by an idle receiver.
  predicate Filled(x: Rx, m: nat) {
    && Formed(x) && x.r.state == Idle && x.c.cnt == Count(x.c.sr)
    && (forall j :: 0 <= j < 16 && j < m ==> x.c.sr[j])
    && (m >= 1 ==> x.r.sampleCounter == 1)
    && (m >= 17 ==> x.c.major)
  }

  lemma FillStep(x: Rx, m: nat)
    requires Filled(x, m)
    ensures Filled(Next(x, true), m + 1) && !Next(x, true).r.dataValid
  {
    CounterCounts(x.c, true);
    CountBounds(x.c.sr);
  }

  lemma {:induction false} Fills(x: Rx, line: int -> bool, k: int, m: nat, n: nat)
    requires Filled(x, m) && forall j :: k <= j < k + n ==> line(j)
    ensures Filled(After(x, line, k, n), m + n) && Words(x, line, k, n) == []
    decreases n
  {
    if n == 0 {
    } else {
      FillStep(x, m);
      Fills(Next(x, line(k)), line, k + 1, m + 1, n - 1);
    }
  }

  // Whatever the window and the idle receiver hold, as long as the counter counts its ones:
  // after 17 samples of a high line the receiver is ready, and nothing was received.
  lemma QuietLineIsReady(x: Rx, line: int -> bool, k: int, n: nat)
    requires Formed(x) && x.r.state == Idle && x.c.cnt == Count(x.c.sr)
    requires n >= 17 && forall j :: k <= j < k + n ==> line(j)
    ensures Ready(After(x, line, k, n), line, k + n) && Words(x, line, k, n) == []
  {
    Fills(x, line, k, 0, n);
    CountBounds(Window(line, k + n - 1));
    assert After(x, line, k, n).c.sr == Window(line, k + n);
  }

  // ---- Low levels that are no start bit ----

  // p samples after the low one at sample g.
  ghost predicate Starting(x: Rx, line: int -> bool, g: int, p: nat) {
    && Sees(x, line, g + p) && 1 <= p <= 16
    && x.r.state == Start && x.r.sampleCounter == p % 16 && x.r.sample == (p == 16)
  }

  lemma StartBegins(x: Rx, line: int -> bool, g: int)
    requires Ready(x, line, g) && !line(g)
    ensures Starting(Next(x, line(g)), line, g, 1) && !Next(x, line(g)).r.dataValid
  {
    KeepsWatching(x.c, line, g);
  }

  lemma StartWaits(x: Rx, line: int -> bool, g: int, p: nat)
    requires Starting(x, line, g, p) && p < 16
    ensures Starting(Next(x, line(g + p)), line, g, p + 1) && !Next(x, line(g + p)).r.dataValid
  {
    KeepsWatching(x.c, line, g + p);
  }

  lemma {:induction false} StartRuns(x: Rx, line: int -> bool, g: int, p: nat, k: int, n: nat)
    requires Starting(x, line, g, p) && k == g + p && p + n <= 16
    ensures Starting(After(x, line, k, n), line, g, p + n) && Words(x, line, k, n) == []
    decreases n
  {
    if n == 0 {
    } else {
      StartWaits(x, line, g, p);
      StartRuns(Next(x, line(k)), line, g, p + 1, k + 1, n - 1);
    }
  }

  // The receiver takes a byte.
  predicate Taking(r: Receiver) { r.state == Data || r.state == Stop }

  lemma StartDecides(x: Rx, line: int -> bool, g: int, k: int)
    requires Starting(x, line, g, 16) && k == g + 16
    ensures var y := Next(x, line(k));
            !y.r.dataValid && if Count(Window(line, g + 15)) >= 8 then Ready(y, line, k + 1) else Taking(y.r)
  {
    KeepsWatching(x.c, line, k);
  }

  // A byte that is being taken comes out some day.
  lemma {:induction false} TakingEnds(x: Rx, line: int -> bool, k: int, n: nat)
    requires Formed(x) && Taking(x.r)
    ensures Taking(After(x, line, k, n).r) || Words(x, line, k, n) != []
    decreases n
  {
    if n == 0 {
    } else if x.r.state == Data {
      TakingEnds(Next(x, line(k)), line, k + 1, n - 1);
    }
  }

  // The receiver is ready again after n samples and nothing came out.
  ghost predicate Passes(x: Rx, line: int -> bool, k: int, n: nat, l: int)
    requires Formed(x)
  {
    Ready(After(x, line, k, n), line, l) && Words(x, line, k, n) == []
  }

  lemma LowTooShort(x: Rx, line: int -> bool, g: int, n: nat, l: int)
    requires Ready(x, line, g) && !line(g) && 0 < n < 17 && l == g + n
    ensures !Passes(x, line, g, n, l)
  {
    StartBegins(x, line, g);
    RunFirst(x, Next(x, line(g)), line, g, n, g + 1, n - 1);
    StartRuns(Next(x, line(g)), line, g, 1, g + 1, n - 1);
  }

  // What seventeen samples from a low one on do.
  lemma LowSeventeen(x: Rx, line: int -> bool, g: int)
    requires Ready(x, line, g) && !line(g)
    ensures Words(x, line, g, 17) == []
    ensures var y := After(x, line, g, 17);
            if Count(Window(line, g + 15)) >= 8 then Ready(y, line, g + 17) else Taking(y.r)
  {
    var y := Next(x, line(g));
    StartBegins(x, line, g);
    StartRuns(y, line, g, 1, g + 1, 15);
    var z := After(y, line, g + 1, 15);
    StartDecides(z, line, g, g + 16);
    RunFirst(z, Next(z, line(g + 16)), line, g + 16, 1, g + 17, 0);
    RunSplits(y, z, line, g + 1, 15, g + 16, 1, 16);
    RunFirst(x, y, line, g, 17, g + 1, 16);
  }

  lemma PassesLater(x: Rx, y: Rx, line: int -> bool, k: int, n: nat, m: int, rest: nat, l: int, all: nat)
    requires Formed(x) && y == After(x, line, k, n) && Words(x, line, k, n) == [] && m == k + n && all == n + rest
    ensures Passes(x, line, k, all, l) <==> Passes(y, line, m, rest, l)
  {
    RunSplits(x, y, line, k, n, m, rest, all);
    assert [] + Words(y, line, m, rest) == Words(y, line, m, rest);
  }

  lemma HighPasses(x: Rx, line: int -> bool, k: int, n: nat, l: int)
    requires Ready(x, line, k) && line(k) && n > 0
    ensures Passes(x, line, k, n, l) <==> Passes(Next(x, line(k)), line, k + 1, n - 1, l)
  {
    StepReady(x, line, k);
    RunFirst(x, Next(x, line(k)), line, k, n, k + 1, n - 1);
  }

  lemma RejectsFirst(line: int -> bool, k: int, l: int, next: int)
    requires k < l && next == if line(k) then k + 1 else k + 17
    ensures Rejects(line, k, l) <==> next <= l && (line(k) || Count(Window(line, k + 15)) >= 8) && Rejects(line, next, l)
  {
  }

  lemma LowPasses(x: Rx, y: Rx, line: int -> bool, k: int, n: nat, m: int, rest: nat, l: int)
    requires Ready(x, line, k) && !line(k) && y == After(x, line, k, 17) && m == k + 17 && n == rest + 17
    requires Ready(y, line, m) ==> (Passes(y, line, m, rest, l) <==> Rejects(line, m, l))
    requires l == m + rest
    ensures Passes(x, line, k, n, l) <==> Rejects(line, k, l)
  {
    LowSeventeen(x, line, k);
    PassesLater(x, y, line, k, 17, m, rest, l, n);
    RejectsFirst(line, k, l, m);
    if Count(Window(line, k + 15)) < 8 {
      TakingEnds(y, line, m, rest);
    }
  }

  // Exactly then a ready receiver delivers nothing and is ready again.
  lemma {:induction false} PassesIffRejects(x: Rx, line: int -> bool, k: int, n: nat, l: int)
    requires Ready(x, line, k) && l == k + n
    ensures Passes(x, line, k, n, l) <==> Rejects(line, k, l)
    decreases n
  {
    if n == 0 {
    } else if line(k) {
      StepReady(x, line, k);
      HighPasses(x, line, k, n, l);
      PassesIffRejects(Next(x, line(k)), line, k + 1, n - 1, l);
      RejectsFirst(line, k, l, k + 1);
    } else if n < 17 {
      LowTooShort(x, line, k, n, l);
      RejectsFirst(line, k, l, k + 17);
    } else {
      var y := After(x, line, k, 17);
      if Ready(y, line, k + 17) {
        PassesIffRejects(y, line, k + 17, n - 17, l);
      }
      LowPasses(x, y, line, k, n, k + 17, n - 17, l);
    }
  }

  // In particular on a line that stays high.
  lemma {:induction false} HighIsRejected(line: int -> bool, k: int, l: int, m: int)
    requires k <= l <= m && (forall j :: k <= j < l ==> line(j)) && Rejects(line, l, m)
    ensures Rejects(line, k, m)
    decreases l - k
  {
    if k == l {
    } else {
      HighIsRejected(line, k + 1, l, m);
    }
  }

  // n high samples, m low ones, and a last high one.
  lemma PulseCount(s: seq<bool>, n: nat, m: nat)
    requires |s| == n + m + 1
    requires (forall i :: 0 <= i < n ==> s[i]) && (forall i :: n <= i < n + m ==> !s[i]) && s[n + m]
    ensures Count(s) == n + 1
  {
    CountAppend(s[..n], s[n..]);
    CountAppend(s[n..n + m], s[n + m..]);
    CountBounds(s[..n]);
    CountBounds(s[n..n + m]);
    assert s[..n] + s[n..] == s && s[n..n + m] + s[n + m..] == s[n..];
    assert s[n + m..] == [true] && [true][1..] == [];
  }

  // A pulse of m low samples on a line that is high otherwise is rejected exactly if there are
  // at most eight of them.
  lemma PulseIsRejected(line: int -> bool, k: int, g: int, m: nat, l: int)
    requires k < g && g + m + 16 <= l && m > 0
    requires forall j :: k <= j < l ==> line(j) == !(g <= j < g + m)
    ensures Rejects(line, k, l) <==> m <= 8
  {
    var s := Window(line, g + 15);
    if m <= 8 {
      PulseCount(s, 15 - m, m);
      HighIsRejected(line, g + 17, l, l);
      HighIsRejected(line, k, g, l);
    } else {
      MajorityOf(s, if m < 15 then 15 - m else 0, 15, false);
      LowIsSeen(line, k, g, l);
    }
  }

  lemma {:induction false} LowIsSeen(line: int -> bool, k: int, g: int, l: int)
    requires k <= g < l && (forall j :: k <= j < g ==> line(j)) && !line(g)
    ensures Rejects(line, k, l) ==> Rejects(line, g, l)
    decreases g - k
  {
    if k == g {
    } else {
      LowIsSeen(line, k + 1, g, l);
    }
  }

  // One step inside a frame: the phase moves on and nothing is delivered, until the last step
  // delivers the byte.
  lemma StepInFrame(x: Rx, line: int -> bool, bitTime: real, f: Frame, i: nat, p: nat)
    requires Tolerable(bitTime) && Drives(line, bitTime, f)
    requires Sees(x, line, Ceil(f.start) + 16 * i + p) && Phase(x.r, f, i, p)
    ensures var k := Ceil(f.start) + 16 * i + p;
            var y := Next(x, line(k));
            && Sees(y, line, k + 1)
            && (if 16 * i + p == 145 then Ready(y, line, k + 1) && y.r.dataValid && y.r.data == f.bits
                else if p == 15 then Phase(y.r, f, i + 1, 0)
                else Phase(y.r, f, i, p + 1))
  {
    var k := Ceil(f.start) + 16 * i + p;
    KeepsWatching(x.c, line, k);
    if p == 0 {
      MajorityInBit(line, bitTime, f, i - 1, x.c);
      PhaseTakes(x.r, f, i, line(k), x.c.major);
    } else if 16 * i + p < 145 {
      PhaseCounts(x.r, f, i, p, line(k), x.c.major);
    }
  }

  // After n samples the receiver is ready again and has delivered just these bits.
  ghost predicate Ends(x: Rx, line: int -> bool, k: int, n: nat, bits: seq<bool>)
    requires Formed(x)
  {
    Ready(After(x, line, k, n), line, k + n) && Words(x, line, k, n) == [bits]
  }

  lemma EndsLater(x: Rx, y: Rx, line: int -> bool, k: int, n: nat, l: int, m: nat, bits: seq<bool>)
    requires Formed(x) && y == Next(x, line(k)) && l == k + 1 && n == m + 1 && !y.r.dataValid && Ends(y, line, l, m, bits)
    ensures Ends(x, line, k, n, bits)
  {
  }

  lemma EndsNow(x: Rx, line: int -> bool, k: int)
    requires Formed(x) && Next(x, line(k)).r.dataValid && Ready(Next(x, line(k)), line, k + 1)
    ensures Ends(x, line, k, 1, Next(x, line(k)).r.data)
  {
    var y := Next(x, line(k));
    assert After(y, line, k + 1, 0) == y && Words(y, line, k + 1, 0) == [];
  }

  // Sample q of a frame comes next.
  predicate InFrame(r: Receiver, f: Frame, k: int, q: nat)
    requires Shaped(r) && |f.bits| == 8
  {
    q < 146 && k == Ceil(f.start) + q && Phase(r, f, q / 16, q % 16)
  }

  lemma NextInFrame(x: Rx, y: Rx, line: int -> bool, bitTime: real, f: Frame, q: nat, k: int, l: int)
    requires Tolerable(bitTime) && Drives(line, bitTime, f) && Sees(x, line, k) && InFrame(x.r, f, k, q)
    requires q < 145 && y == Next(x, line(k)) && l == k + 1
    ensures Sees(y, line, l) && InFrame(y.r, f, l, q + 1) && !y.r.dataValid
  {
    StepInFrame(x, line, bitTime, f, q / 16, q % 16);
  }

  lemma LastInFrame(x: Rx, line: int -> bool, bitTime: real, f: Frame, k: int)
    requires Tolerable(bitTime) && Drives(line, bitTime, f) && Sees(x, line, k) && InFrame(x.r, f, k, 145)
    ensures Ends(x, line, k, 1, f.bits)
  {
    StepInFrame(x, line, bitTime, f, 9, 1);
    EndsNow(x, line, k);
  }

  lemma {:induction false} FrameEnds(x: Rx, line: int -> bool, bitTime: real, f: Frame, q: nat, k: int, n: nat)
    requires Tolerable(bitTime) && Drives(line, bitTime, f)
    requires n == 146 - q && Sees(x, line, k) && InFrame(x.r, f, k, q)
    ensures Ends(x, line, k, n, f.bits)
    decreases n
  {
    if n == 1 {
      LastInFrame(x, line, bitTime, f, k);
    } else {
      var y := Next(x, line(k));
      NextInFrame(x, y, line, bitTime, f, q, k, k + 1);
      FrameEnds(y, line, bitTime, f, q + 1, k + 1, n - 1);
      EndsLater(x, y, line, k, n, k + 1, n - 1, f.bits);
    }
  }

  lemma FallingEdge(x: Rx, line: int -> bool, bitTime: real, f: Frame, k: int)
    requires Tolerable(bitTime) && Drives(line, bitTime, f) && k == Ceil(f.start) && Ready(x, line, k)
    ensures Sees(Next(x, line(k)), line, k + 1)
    ensures Phase(Next(x, line(k)).r, f, 0, 1) && !Next(x, line(k)).r.dataValid
  {
    assert !line(k) by {
      assert Holds(line, Begin(f.start, bitTime, 0), Begin(f.start, bitTime, 1), Level(f, 0));
      assert Begin(f.start, bitTime, 1) == f.start + bitTime;
    }
    KeepsWatching(x.c, line, k);
  }

  // A frame met by an idle receiver is received; 146 samples after the first low sample the
  // receiver is idle again.
  lemma FrameReceived(x: Rx, line: int -> bool, bitTime: real, f: Frame, k: int, n: nat)
    requires Tolerable(bitTime) && Drives(line, bitTime, f)
    requires k == Ceil(f.start) && k + n == Ceil(f.start) + 146 && Ready(x, line, k)
    ensures Ready(After(x, line, k, n), line, k + n) && Words(x, line, k, n) == [f.bits]
  {
    FallingEdge(x, line, bitTime, f, k);
    FrameEnds(Next(x, line(k)), line, bitTime, f, 1, k + 1, n - 1);
    EndsLater(x, Next(x, line(k)), line, k, n, k + 1, n - 1, f.bits);
  }

  // That moment is inside the stop bit, so the line is high from there on to its end.
  lemma BackInStopBit(line: int -> bool, bitTime: real, f: Frame)
    requires Tolerable(bitTime) && Drives(line, bitTime, f)
    ensures Begin(f.start, bitTime, 9) <= (Ceil(f.start) + 146) as real < Begin(f.start, bitTime, 10)
    ensures Holds(line, (Ceil(f.start) + 146) as real, Begin(f.start, bitTime, 10), true)
  {
    BeginBounds(f.start, bitTime, 9);
    BeginBounds(f.start, bitTime, 10);
    assert Holds(line, Begin(f.start, bitTime, 9), Begin(f.start, bitTime, 10), Level(f, 9));
  }

  lemma CarriesEarlier(line: int -> bool, bitTime: real, from: real, since: real, frames: seq<Frame>)
    requires from <= since && Holds(line, from, since, true) && Carries(line, bitTime, since, frames)
    ensures Carries(line, bitTime, from, frames)
  {
    if |frames| > 0 {
      HighIsRejected(line, Ceil(from), Ceil(since), Ceil(frames[0].start));
    }
  }

  // The first sample for which the receiver is idle again after the last frame.
  function End(k: int, frames: seq<Frame>): int {
    if |frames| == 0 then k else Ceil(frames[|frames| - 1].start) + 146
  }

  predicate Delivers(words: seq<seq<bool>>, frames: seq<Frame>) {
    |words| == |frames| && forall i :: 0 <= i < |frames| ==> words[i] == frames[i].bits
  }

  // The stream came out as exactly the bytes of its frames and the receiver is idle again,
  // inside the last stop bit.
  ghost predicate Receives(x: Rx, line: int -> bool, bitTime: real, k: int, frames: seq<Frame>)
    requires Formed(x)
  {
    var end := End(k, frames);
    && k <= end
    && Delivers(Words(x, line, k, end - k), frames)
    && Ready(After(x, line, k, end - k), line, end)
    && (|frames| > 0 ==> Begin(frames[|frames| - 1].start, bitTime, 9) <= end as real < Begin(frames[|frames| - 1].start, bitTime, 10))
  }

  lemma ReceivedAfterWait(x: Rx, y: Rx, line: int -> bool, k: int, wait: nat, from: int, n: nat, all: nat, l: int, w: seq<bool>)
    requires Formed(x) && y == After(x, line, k, wait) && Words(x, line, k, wait) == [] && from == k + wait && all == wait + n
    requires Ends(y, line, from, n, w) && l == from + n
    ensures Ready(After(x, line, k, all), line, l) && Words(x, line, k, all) == [w]
  {
    RunSplits(x, y, line, k, wait, from, n, all);
    assert [] + [w] == [w];
  }

  lemma FirstReceived(x: Rx, line: int -> bool, bitTime: real, k: int, f: Frame, wait: nat, n: nat, all: nat, l: int)
    requires Tolerable(bitTime) && Drives(line, bitTime, f) && Ready(x, line, k)
    requires k + wait == Ceil(f.start) && n == 146 && all == wait + n && l == k + all
    requires Rejects(line, k, Ceil(f.start))
    ensures Ready(After(x, line, k, all), line, l) && Words(x, line, k, all) == [f.bits]
  {
    PassesIffRejects(x, line, k, wait, Ceil(f.start));
    var y := After(x, line, k, wait);
    FrameReceived(y, line, bitTime, f, Ceil(f.start), n);
    ReceivedAfterWait(x, y, line, k, wait, Ceil(f.start), n, all, l, f.bits);
  }

  lemma DeliversFirst(f: Frame, words: seq<seq<bool>>, rest: seq<Frame>)
    requires Delivers(words, rest)
    ensures Delivers([f.bits] + words, [f] + rest)
  {
  }

  lemma EndOfFirst(k: int, f: Frame, rest: seq<Frame>)
    ensures End(k, [f] + rest) == End(Ceil(f.start) + 146, rest)
  {
  }

  lemma Joined(x: Rx, line: int -> bool, bitTime: real, k: int, n: nat, frames: seq<Frame>, l: int)
    requires Formed(x) && |frames| > 0 && Words(x, line, k, n) == [frames[0].bits]
    requires l == k + n == Ceil(frames[0].start) + 146
    requires Begin(frames[0].start, bitTime, 9) <= l as real < Begin(frames[0].start, bitTime, 10)
    requires Receives(After(x, line, k, n), line, bitTime, l, frames[1..])
    ensures Receives(x, line, bitTime, k, frames)
  {
    var f, rest := frames[0], frames[1..];
    var m := End(l, rest) - l;
    assert frames == [f] + rest;
    EndOfFirst(k, f, rest);
    RunSplits(x, After(x, line, k, n), line, k, n, l, m, End(k, frames) - k);
    DeliversFirst(f, Words(After(x, line, k, n), line, l, m), rest);
  }

  lemma NextCarries(line: int -> bool, bitTime: real, f: Frame, rest: seq<Frame>, k: int)
    requires Tolerable(bitTime) && Drives(line, bitTime, f) && k == Ceil(f.start) + 146
    requires Carries(line, bitTime, Begin(f.start, bitTime, 10), rest)
    ensures Carries(line, bitTime, k as real, rest)
    ensures Begin(f.start, bitTime, 9) <= k as real < Begin(f.start, bitTime, 10)
  {
    BackInStopBit(line, bitTime, f);
    CarriesEarlier(line, bitTime, k as real, Begin(f.start, bitTime, 10), rest);
  }

  // For any start phases and any bit time within 2/9 sample of 16, an idle receiver turns every
  // stream of frames, back to back or with pauses, and whatever low levels the pauses have that
  // are rejected, into exactly their bytes.
  lemma {:induction false} StreamReceived(x: Rx, line: int -> bool, bitTime: real, k: int, frames: seq<Frame>)
    requires Tolerable(bitTime) && Ready(x, line, k) && Carries(line, bitTime, k as real, frames)
    ensures Receives(x, line, bitTime, k, frames)
    decreases |frames|
  {
    if |frames| == 0 {
    } else {
      var f, rest := frames[0], frames[1..];
      var later := Ceil(f.start) + 146;
      FirstReceived(x, line, bitTime, k, f, Ceil(f.start) - k, 146, later - k, later);
      NextCarries(line, bitTime, f, rest, later);
      StreamReceived(After(x, line, k, later - k), line, bitTime, later, rest);
      Joined(x, line, bitTime, k, later - k, frames, later);
    }
  }
}
