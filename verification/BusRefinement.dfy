// The clocked core with its Wishbone master, for every timing of the bytes, of the bus and of
// the uplink, is the byte-wise master of BusMaster. A byte that comes while the core is busy is
// lost; one such byte for each write does no harm.
module BusRefinement {
  import opened Bytes
  import opened Numbers
  import opened BusMaster
  import opened BusCore

  datatype Sys = Sys(c: Core, w: Wb)

  function SysStep(cfg: Config, s: Sys, p: Pins): Sys
    requires Formed(cfg, s.c)
  {
    Sys(CoreStep(cfg, s.c, s.w, p), WbStep(s.w, s.c.b, p))
  }

  // The access that can be seen on the bus when it ends.
  function Observed(s: Sys, p: Pins): Access {
    Access(Request(s.w.we, s.c.r.address, if s.w.we then s.c.r.writeData else 0, s.c.r.strobe, s.c.r.misc, s.c.b.lock),
           s.w.lck, Response(p.rty || p.err, p.dat))
  }

  // The core sends an answer or waits for the bus: a byte that comes now is lost.
  predicate Busy(f: Fsm) {
    f.state == ReadWidth || f.state == ReadAccess || (f.state == WriteAccess && (f.waitResponse || f.writeBusy))
  }

  function MasterStep(cfg: Config, m: Master, s: Sys, p: Pins): Master {
    if m.phase.Waiting? then
      if Answers(s.w, p) then Answered(cfg, m, Response(p.rty || p.err, p.dat)) else m
    else if p.valid && !Busy(s.c.f) then ByteIn(cfg, m, p.b)
    else m
  }

  // ---- Answers on their way up ----

  function Verdict(error: bool): Byte { if error then NACK else ACK }

  function Queue(cfg: Config, s: Sys): seq<Byte>
    requires Formed(cfg, s.c)
  {
    var f, t := s.c.f, s.c.t;
    match f.state
    case ReadWidth => if f.transmitted < 4 then WordBytes(WidthWords(cfg))[4 * f.word + f.transmitted..] else []
    case ReadAccess =>
      if f.waitResponse then
        if s.w.readDone then [Verdict(s.w.accessError)] + ToBytes(RoundUp(cfg.readWidth), s.w.readData) else []
      else
        (if t.respPending then [t.respData] else [])
        + (if f.transmitted <= |t.readData| then t.readData[..|t.readData| - f.transmitted] else [])
    case WriteAccess => if f.writeBusy then [t.respData] else if s.w.writeDone then [Verdict(s.w.accessError)] else []
    case _ => []
  }

  function Up(t: Tx): seq<Byte> { if t.upValid then [t.upData] else [] }

  function InFlight(cfg: Config, s: Sys): seq<Byte>
    requires Formed(cfg, s.c)
  {
    Up(s.c.t) + Queue(cfg, s)
  }

  function Delivered(t: Tx, p: Pins): seq<Byte> { if t.upValid && p.upReady then [t.upData] else [] }

  // ---- The relation ----

  // The youngest bytes received are got.
  predicate Remembers(r: Rx, got: seq<Byte>) {
    var h := if r.valid then r.low + [r.data] else r.low;
    |got| <= |h| && h[|h| - |got|..] == got
  }

  // The field registers, or what they are about to take, are the master's.
  predicate FieldsAgree(cfg: Config, r: Rx, m: Master) {
    && Latched(cfg, r, ToAddress, Address, r.address) == m.address
    && Latched(cfg, r, ToStrobe, Strobe, r.strobe) == m.strobe
    && Latched(cfg, r, ToMisc, Misc, r.misc) == m.misc
    && (!r.valid ==> r.latch == NoField)
  }

  predicate NoStart(b: Bus) { !b.startWrite && !b.startRead }
  predicate NoDone(w: Wb) { !w.readDone && !w.writeDone }
  predicate Quiet(b: Bus, w: Wb) { NoStart(b) && NoDone(w) && !w.cycstb }

  predicate WellAsked(m: Master) {
    m.phase.Waiting? ==>
      var q := m.phase.request;
      q.address == m.address && q.strobe == m.strobe && q.misc == m.misc && (!q.write ==> q.data == 0)
  }

  predicate Latching(cfg: Config, f: Fsm, r: Rx, q: Request) {
    r.valid && r.latch == ToWriteData && q.data == Field(cfg.writeWidth, Top(r, Size(cfg, WriteData(false)))) && q.lock == f.nextLock
  }

  predicate Carries(r: Rx, b: Bus, q: Request) { r.latch == NoField && b.lock == q.lock && (q.write ==> r.writeData == q.data) }

  predicate Starting(r: Rx, b: Bus, w: Wb, q: Request) {
    Carries(r, b, q) && b.startWrite == q.write && b.startRead == !q.write && NoDone(w) && !w.cycstb
  }

  predicate Cycling(r: Rx, b: Bus, w: Wb, q: Request) {
    Carries(r, b, q) && w.cycstb && w.we == q.write && NoStart(b) && NoDone(w)
  }

  function LockLevel(m: Master, w: Wb): bool { m.held || (w.cycstb && m.phase.Waiting? && m.phase.request.lock) }

  predicate Finished(b: Bus, w: Wb, write: bool) { NoStart(b) && !w.cycstb && w.readDone == !write && w.writeDone == write }

  predicate RelRead(cfg: Config, s: Sys, m: Master) {
    var f, r, b, w := s.c.f, s.c.r, s.c.b, s.w;
    && cfg.readWidth > 0 && !r.valid
    && (if f.waitResponse then
          && f.transmitted == 0
          && (if m.phase.Waiting? then !m.phase.request.write && (Starting(r, b, w, m.phase.request) || Cycling(r, b, w, m.phase.request))
              else m.phase.Idle? && Finished(b, w, false))
        else m.phase.Idle? && Quiet(b, w) && f.transmitted < RoundUp(cfg.readWidth) && (s.c.t.respPending ==> f.transmitted == 0))
  }

  predicate CollectsWrite(cfg: Config, f: Fsm, r: Rx, phase: Phase) {
    && phase.Collecting? && phase.kind == WriteData(f.nextLock)
    && |phase.got| == f.received < Size(cfg, WriteData(false)) && Remembers(r, phase.got)
  }

  predicate RelWrite(cfg: Config, s: Sys, m: Master) {
    var f, r, b, w := s.c.f, s.c.r, s.c.b, s.w;
    && cfg.writeWidth > 0
    && (if f.writeBusy then !f.waitResponse && m.phase.Idle? && Quiet(b, w) && r.latch == NoField
        else if f.waitResponse then
          if m.phase.Waiting? then
            && m.phase.request.write
            && ((Latching(cfg, f, r, m.phase.request) && Quiet(b, w)) || Starting(r, b, w, m.phase.request) || Cycling(r, b, w, m.phase.request))
          else m.phase.Idle? && Finished(b, w, true) && r.latch == NoField
        else
          Quiet(b, w) && r.latch == NoField && CollectsWrite(cfg, f, r, m.phase))
  }

  function KindOf(s: State): Kind {
    match s
    case SetAddressS => Address
    case SetMiscS => Misc
    case _ => Strobe
  }

  predicate SetsField(s: State) { s == SetAddressS || s == SetMiscS || s == SetStrobeS }

  predicate RelSet(cfg: Config, s: Sys, m: Master) {
    var f := s.c.f;
    && Quiet(s.c.b, s.w) && s.c.r.latch == NoField
    && m.phase.Collecting? && m.phase.kind == KindOf(f.state)
    && |m.phase.got| == f.received <= f.expected == Size(cfg, KindOf(f.state)) - 1
    && Remembers(s.c.r, m.phase.got)
  }

  predicate Rel(cfg: Config, s: Sys, m: Master)
    requires Formed(cfg, s.c)
  {
    && FieldsAgree(cfg, s.c.r, m)
    && WellAsked(m)
    && s.w.lck == LockLevel(m, s.w)
    && match s.c.f.state
       case IdleS => m.phase.Idle? && Quiet(s.c.b, s.w) && s.c.r.latch != ToWriteData
       case ReadWidth => m.phase.Idle? && Quiet(s.c.b, s.w) && s.c.r.latch != ToWriteData && s.c.f.transmitted < 4
       case ReadAccess => RelRead(cfg, s, m)
       case WriteAccess => RelWrite(cfg, s, m)
       case _ => RelSet(cfg, s, m)
  }

  // ---- One edge ----

  // No byte has been lost during this write. A byte that is lost is counted all the same; the
  // counter may wrap, and the one after it could complete the write a second time.
  predicate Fresh(cfg: Config, c: Core) {
    c.f.state == WriteAccess && Busy(c.f) ==> c.f.received == Size(cfg, WriteData(false))
  }

  predicate Tolerated(cfg: Config, c: Core, p: Pins) { p.valid ==> Fresh(cfg, c) }

  // What went up, what is on its way and what the master answers at this edge.
  predicate Conserves(cfg: Config, s: Sys, m: Master, p: Pins)
    requires Formed(cfg, s.c)
  {
    var n, k := SysStep(cfg, s, p), MasterStep(cfg, m, s, p);
    && m.answers <= k.answers
    && Delivered(s.c.t, p) + InFlight(cfg, n) == InFlight(cfg, s) + k.answers[|m.answers|..]
  }

  lemma FieldsSettle(cfg: Config, r: Rx, m: Master)
    requires FieldsAgree(cfg, r, m)
    ensures FieldsAgree(cfg, RxStep(cfg, r), m)
  {
  }

  lemma IdleFields(cfg: Config, s: Sys, m: Master, p: Pins)
    requires Formed(cfg, s.c) && Rel(cfg, s, m) && s.c.f.state == IdleS
    ensures var n, k := SysStep(cfg, s, p), MasterStep(cfg, m, s, p);
            FieldsAgree(cfg, n.c.r, k) && WellAsked(k) && n.w.lck == LockLevel(k, n.w) && NoDone(n.w) && !n.w.cycstb
    ensures !SysStep(cfg, s, p).c.r.valid
  {
    FieldsSettle(cfg, s.c.r, m);
  }

  predicate Commands(cfg: Config, p: Pins, a: Byte, b: Byte, width: nat) { p.valid && width > 0 && (p.b == a || p.b == b) }

  lemma IdleWrites(cfg: Config, s: Sys, m: Master, p: Pins)
    requires Formed(cfg, s.c) && Rel(cfg, s, m) && s.c.f.state == IdleS && Commands(cfg, p, WRITE_LOCK, WRITE_UNLOCK, cfg.writeWidth)
    ensures var n := SysStep(cfg, s, p);
            n.c.f.state == WriteAccess && RelWrite(cfg, n, MasterStep(cfg, m, s, p))
  {
  }

  lemma IdleReads(cfg: Config, s: Sys, m: Master, p: Pins)
    requires Formed(cfg, s.c) && Rel(cfg, s, m) && s.c.f.state == IdleS && Commands(cfg, p, READ_LOCK, READ_UNLOCK, cfg.readWidth)
    ensures var n := SysStep(cfg, s, p);
            n.c.f.state == ReadAccess && RelRead(cfg, n, MasterStep(cfg, m, s, p))
  {
  }

  lemma IdleElse(cfg: Config, s: Sys, m: Master, p: Pins)
    requires Formed(cfg, s.c) && Rel(cfg, s, m) && s.c.f.state == IdleS
    requires !Commands(cfg, p, WRITE_LOCK, WRITE_UNLOCK, cfg.writeWidth) && !Commands(cfg, p, READ_LOCK, READ_UNLOCK, cfg.readWidth)
    ensures var n, k := SysStep(cfg, s, p), MasterStep(cfg, m, s, p);
            if SetsField(n.c.f.state) then RelSet(cfg, n, k)
            else n.c.f.state in {IdleS, ReadWidth} && k.phase.Idle? && n.c.r.latch != ToWriteData && n.c.f.transmitted < 4 && NoStart(n.c.b)
  {
  }

  lemma IdleRel(cfg: Config, s: Sys, m: Master, p: Pins)
    requires Formed(cfg, s.c) && Rel(cfg, s, m) && s.c.f.state == IdleS
    ensures Rel(cfg, SysStep(cfg, s, p), MasterStep(cfg, m, s, p))
  {
    IdleFields(cfg, s, m, p);
    if Commands(cfg, p, WRITE_LOCK, WRITE_UNLOCK, cfg.writeWidth) {
      IdleWrites(cfg, s, m, p);
    } else if Commands(cfg, p, READ_LOCK, READ_UNLOCK, cfg.readWidth) {
      IdleReads(cfg, s, m, p);
    } else {
      IdleElse(cfg, s, m, p);
    }
  }

  lemma IdleQueue(cfg: Config, s: Sys, m: Master, p: Pins)
    requires Formed(cfg, s.c) && Rel(cfg, s, m) && s.c.f.state == IdleS
    ensures var n, k := SysStep(cfg, s, p), MasterStep(cfg, m, s, p);
            && Hands(s.c.t, n.c.t, p, []) && Queue(cfg, s) == []
            && m.answers <= k.answers && Queue(cfg, n) == k.answers[|m.answers|..]
  {
  }

  lemma IdleConserves(cfg: Config, s: Sys, m: Master, p: Pins)
    requires Formed(cfg, s.c) && Rel(cfg, s, m) && Tolerated(cfg, s.c, p) && s.c.f.state == IdleS
    ensures Conserves(cfg, s, m, p)
  {
    var n, k := SysStep(cfg, s, p), MasterStep(cfg, m, s, p);
    IdleQueue(cfg, s, m, p);
    HandsOver(s.c.t, [], n.c.t, Queue(cfg, n), p, [], k.answers[|m.answers|..]);
  }

  lemma ReadWidthRel(cfg: Config, s: Sys, m: Master, p: Pins)
    requires Formed(cfg, s.c) && Rel(cfg, s, m) && Tolerated(cfg, s.c, p) && s.c.f.state == ReadWidth
    ensures Rel(cfg, SysStep(cfg, s, p), MasterStep(cfg, m, s, p))
  {
    FieldsSettle(cfg, s.c.r, m);
  }

  lemma {:induction false} WordByte(words: seq<nat>, i: nat, j: nat)
    requires i < |words| && j < 4
    ensures WordBytes(words)[4 * i + j] == ToBytes(4, words[i])[j]
    decreases i
  {
    if i == 0 {
    } else {
      WordByte(words[1..], i - 1, j);
    }
  }

  // The queue hands put (at most one byte) to the output register, which is free then.
  predicate Hands(t: Tx, n: Tx, p: Pins, put: seq<Byte>) {
    if |put| == 0 then Up(n) == (if p.upReady then [] else Up(t))
    else |put| == 1 && UpFree(t, p) && Up(n) == put
  }

  lemma HandsOver(t: Tx, queue: seq<Byte>, n: Tx, rest: seq<Byte>, p: Pins, put: seq<Byte>, fresh_: seq<Byte>)
    requires Hands(t, n, p, put) && put + rest == queue + fresh_
    ensures Delivered(t, p) + (Up(n) + rest) == (Up(t) + queue) + fresh_
  {
    assert Delivered(t, p) + Up(n) == Up(t) + put;
    assert (Up(t) + put) + rest == Up(t) + (put + rest);
    assert Delivered(t, p) + (Up(n) + rest) == (Delivered(t, p) + Up(n)) + rest;
  }

  lemma ConservesBy(cfg: Config, s: Sys, m: Master, p: Pins, put: seq<Byte>, fresh_: seq<Byte>)
    requires Formed(cfg, s.c) && Hands(s.c.t, SysStep(cfg, s, p).c.t, p, put)
    requires put + Queue(cfg, SysStep(cfg, s, p)) == Queue(cfg, s) + fresh_
    requires m.answers <= MasterStep(cfg, m, s, p).answers && MasterStep(cfg, m, s, p).answers[|m.answers|..] == fresh_
    ensures Conserves(cfg, s, m, p)
  {
    var n := SysStep(cfg, s, p);
    HandsOver(s.c.t, Queue(cfg, s), n.c.t, Queue(cfg, n), p, put, fresh_);
  }

  // The byte of the width answer that is next.
  function WidthByte(cfg: Config, f: Fsm): Byte
    requires f.word < 6 && f.transmitted < 4
  {
    ToBytes(4, WidthWords(cfg)[f.word])[f.transmitted]
  }

  function WidthPut(cfg: Config, c: Core, p: Pins): seq<Byte>
    requires c.f.word < 6 && c.f.transmitted < 4
  {
    if UpFree(c.t, p) then [WidthByte(cfg, c.f)] else []
  }

  lemma ReadWidthHands(cfg: Config, s: Sys, p: Pins)
    requires Formed(cfg, s.c) && s.c.f.state == ReadWidth && s.c.f.transmitted < 4
    ensures Hands(s.c.t, SysStep(cfg, s, p).c.t, p, WidthPut(cfg, s.c, p))
  {
  }

  lemma FirstOf(all: seq<Byte>, i: nat)
    requires i < |all|
    ensures all[i..] == [all[i]] + all[i + 1..]
  {
  }

  function WidthIndex(f: Fsm): nat { 4 * f.word + f.transmitted }

  lemma ReadWidthIndex(cfg: Config, s: Sys, p: Pins)
    requires Formed(cfg, s.c) && s.c.f.state == ReadWidth && s.c.f.transmitted < 4
    ensures var f := SysStep(cfg, s, p).c.f;
            if !UpFree(s.c.t, p) then f == s.c.f
            else if WidthIndex(s.c.f) == 23 then f.state == IdleS
            else f.state == ReadWidth && f.transmitted < 4 && WidthIndex(f) == WidthIndex(s.c.f) + 1
  {
  }

  lemma WidthsLeft(cfg: Config, s: Sys, all: seq<Byte>)
    requires Formed(cfg, s.c) && all == WordBytes(WidthWords(cfg))
    ensures s.c.f.state == ReadWidth && s.c.f.transmitted < 4 ==> Queue(cfg, s) == all[WidthIndex(s.c.f)..]
    ensures s.c.f.state == IdleS ==> Queue(cfg, s) == []
  {
  }

  lemma ReadWidthQueue(cfg: Config, s: Sys, p: Pins)
    requires Formed(cfg, s.c) && s.c.f.state == ReadWidth && s.c.f.transmitted < 4
    ensures WidthPut(cfg, s.c, p) + Queue(cfg, SysStep(cfg, s, p)) == Queue(cfg, s)
  {
    var all := WordBytes(WidthWords(cfg));
    WordByte(WidthWords(cfg), s.c.f.word, s.c.f.transmitted);
    FirstOf(all, WidthIndex(s.c.f));
    WidthsLeft(cfg, s, all);
    WidthsLeft(cfg, SysStep(cfg, s, p), all);
    ReadWidthIndex(cfg, s, p);
  }

  lemma ReadWidthConserves(cfg: Config, s: Sys, m: Master, p: Pins)
    requires Formed(cfg, s.c) && Rel(cfg, s, m) && Tolerated(cfg, s.c, p) && s.c.f.state == ReadWidth
    ensures Conserves(cfg, s, m, p)
  {
    ReadWidthHands(cfg, s, p);
    ReadWidthQueue(cfg, s, p);
    assert MasterStep(cfg, m, s, p) == m;
    ConservesBy(cfg, s, m, p, WidthPut(cfg, s.c, p), []);
  }

  lemma ReadAccessRel(cfg: Config, s: Sys, m: Master, p: Pins)
    requires Formed(cfg, s.c) && Rel(cfg, s, m) && Tolerated(cfg, s.c, p) && s.c.f.state == ReadAccess
    ensures Rel(cfg, SysStep(cfg, s, p), MasterStep(cfg, m, s, p))
  {
    FieldsSettle(cfg, s.c.r, m);
  }

  lemma ReadAnswerArrives(cfg: Config, s: Sys, m: Master, p: Pins)
    requires Formed(cfg, s.c) && RelRead(cfg, s, m) && s.c.f.state == ReadAccess && s.c.f.waitResponse
    ensures var n, k := SysStep(cfg, s, p), MasterStep(cfg, m, s, p);
            && Hands(s.c.t, n.c.t, p, [])
            && m.answers <= k.answers && Queue(cfg, n) == Queue(cfg, s) + k.answers[|m.answers|..]
  {
    var n, k := SysStep(cfg, s, p), MasterStep(cfg, m, s, p);
    if m.phase.Waiting? {
      if Answers(s.w, p) {
        assert k.answers[|m.answers|..] == Answer(cfg, m.phase.request, Response(p.rty || p.err, p.dat));
      }
    } else {
      assert n.c.t.readData[..|n.c.t.readData|] == n.c.t.readData;
    }
  }

  // What is put in the output register while the answer is sent.
  function ReadPut(t: Tx, p: Pins): seq<Byte> {
    if !UpFree(t, p) then [] else if t.respPending then [t.respData] else if |t.readData| > 0 then [t.readData[0]] else []
  }

  lemma ReadDataShifts(d: seq<Byte>, sent: nat)
    requires sent < |d|
    ensures d[..|d| - sent] == [d[0]] + (d[1..] + [d[|d| - 1]])[..|d| - (sent + 1)]
  {
  }

  predicate SendsRead(cfg: Config, s: Sys, m: Master)
    requires Formed(cfg, s.c)
  {
    s.c.f.state == ReadAccess && !s.c.f.waitResponse && RelRead(cfg, s, m)
  }

  lemma ReadPutHands(cfg: Config, s: Sys, m: Master, p: Pins)
    requires Formed(cfg, s.c) && SendsRead(cfg, s, m)
    ensures Hands(s.c.t, SysStep(cfg, s, p).c.t, p, ReadPut(s.c.t, p))
  {
  }

  lemma ReadMoves(cfg: Config, s: Sys, m: Master, p: Pins)
    requires Formed(cfg, s.c) && SendsRead(cfg, s, m)
    ensures var n, d, sent := SysStep(cfg, s, p).c, s.c.t.readData, s.c.f.transmitted;
            if !UpFree(s.c.t, p) || s.c.t.respPending then
              && n.f == s.c.f && n.t.readData == d && n.t.respData == s.c.t.respData
              && n.t.respPending == (s.c.t.respPending && !UpFree(s.c.t, p))
            else
              && n.t.respPending == s.c.t.respPending && n.t.readData == d[1..] + [d[|d| - 1]]
              && (if sent + 1 == |d| then n.f.state == IdleS else n.f == s.c.f.(transmitted := sent + 1))
  {
  }

  lemma ReadPutQueue(cfg: Config, s: Sys, m: Master, p: Pins)
    requires Formed(cfg, s.c) && SendsRead(cfg, s, m)
    ensures ReadPut(s.c.t, p) + Queue(cfg, SysStep(cfg, s, p)) == Queue(cfg, s)
  {
    ReadMoves(cfg, s, m, p);
    ReadDataShifts(s.c.t.readData, s.c.f.transmitted);
  }

  lemma ReadAnswerSent(cfg: Config, s: Sys, m: Master, p: Pins)
    requires Formed(cfg, s.c) && SendsRead(cfg, s, m)
    ensures var n := SysStep(cfg, s, p);
            Hands(s.c.t, n.c.t, p, ReadPut(s.c.t, p)) && ReadPut(s.c.t, p) + Queue(cfg, n) == Queue(cfg, s)
  {
    ReadPutHands(cfg, s, m, p);
    ReadPutQueue(cfg, s, m, p);
  }

  lemma ReadAccessConserves(cfg: Config, s: Sys, m: Master, p: Pins)
    requires Formed(cfg, s.c) && Rel(cfg, s, m) && Tolerated(cfg, s.c, p) && s.c.f.state == ReadAccess
    ensures Conserves(cfg, s, m, p)
  {
    var n, k := SysStep(cfg, s, p), MasterStep(cfg, m, s, p);
    if s.c.f.waitResponse {
      ReadAnswerArrives(cfg, s, m, p);
      HandsOver(s.c.t, Queue(cfg, s), n.c.t, Queue(cfg, n), p, [], k.answers[|m.answers|..]);
    } else {
      ReadAnswerSent(cfg, s, m, p);
      HandsOver(s.c.t, Queue(cfg, s), n.c.t, Queue(cfg, n), p, ReadPut(s.c.t, p), []);
    }
  }

  // One more byte in the shift register.
  function Shifted(cfg: Config, r: Rx, b: Byte, l: Latch): Rx { RxStep(cfg, r).(data := b, valid := true, latch := l) }

  lemma RemembersNext(cfg: Config, r: Rx, got: seq<Byte>, b: Byte, l: Latch)
    requires Remembers(r, got) && |got| <= |r.low|
    ensures Remembers(Shifted(cfg, r, b, l), got + [b])
    ensures Top(Shifted(cfg, r, b, l), |got| + 1) == got + [b]
  {
    var low := RxStep(cfg, r).low;
    assert low[|low| - |got|..] == got by {
      if r.valid {
        var sr := r.low + [r.data];
        assert sr[|sr| - |got|..] == sr[1..][|low| - |got|..];
      }
    }
    assert (low + [b])[|low| + 1 - (|got| + 1)..] == low[|low| - |got|..] + [b];
  }

  lemma FieldFits(cfg: Config, k: Kind)
    ensures Size(cfg, k) <= LowSize(cfg) + 1
    ensures Size(cfg, k) < ReceiveRange(cfg)
  {
  }

  lemma CountsByte(cfg: Config, f: Fsm, p: Pins)
    requires p.valid && !f.waitResponse && f.received < Size(cfg, WriteData(false))
    ensures CollectFsm(cfg, f, p) == f.(received := f.received + 1, waitResponse := f.received + 1 == Size(cfg, WriteData(false)))
  {
    FieldFits(cfg, WriteData(false));
  }

  lemma WriteCollectsFsm(cfg: Config, s: Sys, m: Master, p: Pins)
    requires Formed(cfg, s.c) && RelWrite(cfg, s, m) && s.c.f.state == WriteAccess && m.phase.Collecting? && p.valid
    ensures var n, last := SysStep(cfg, s, p), s.c.f.received + 1 == Size(cfg, WriteData(false));
            && n.c.f == s.c.f.(received := s.c.f.received + 1, waitResponse := last)
            && n.c.r == Shifted(cfg, s.c.r, p.b, if last then ToWriteData else NoField)
            && Quiet(n.c.b, n.w)
  {
    CountsByte(cfg, s.c.f, p);
  }

  lemma WriteCollects(cfg: Config, s: Sys, m: Master, p: Pins)
    requires Formed(cfg, s.c) && RelWrite(cfg, s, m) && s.c.f.state == WriteAccess && m.phase.Collecting? && p.valid
    ensures RelWrite(cfg, SysStep(cfg, s, p), MasterStep(cfg, m, s, p))
  {
    WriteCollectsFsm(cfg, s, m, p);
    FieldFits(cfg, m.phase.kind);
    RemembersNext(cfg, s.c.r, m.phase.got, p.b, if s.c.f.received + 1 == Size(cfg, WriteData(false)) then ToWriteData else NoField);
  }

  lemma RemembersWaits(cfg: Config, r: Rx, got: seq<Byte>)
    requires Remembers(r, got) && |got| <= |r.low|
    ensures Remembers(RxStep(cfg, r), got)
  {
    if r.valid {
      var sr := r.low + [r.data];
      assert sr[|sr| - |got|..] == sr[1..][|sr| - 1 - |got|..];
    }
  }

  lemma WriteWaits(cfg: Config, s: Sys, m: Master, p: Pins)
    requires Formed(cfg, s.c) && Quiet(s.c.b, s.w) && s.c.f.state == WriteAccess && m.phase.Collecting? && !p.valid
    requires !s.c.f.waitResponse && !s.c.f.writeBusy && s.c.r.latch == NoField
    ensures var n := SysStep(cfg, s, p);
            n.c.f == s.c.f && n.c.r == RxStep(cfg, s.c.r) && Quiet(n.c.b, n.w)
    ensures MasterStep(cfg, m, s, p) == m
  {
  }

  lemma CollectionWaits(cfg: Config, f: Fsm, r: Rx, phase: Phase)
    requires CollectsWrite(cfg, f, r, phase) && |r.low| == LowSize(cfg)
    ensures CollectsWrite(cfg, f, RxStep(cfg, r), phase)
  {
    FieldFits(cfg, phase.kind);
    RemembersWaits(cfg, r, phase.got);
  }

  lemma WriteCollectionWaits(cfg: Config, s: Sys, m: Master, p: Pins)
    requires Formed(cfg, s.c) && RelWrite(cfg, s, m) && s.c.f.state == WriteAccess && m.phase.Collecting? && !p.valid
    ensures RelWrite(cfg, SysStep(cfg, s, p), MasterStep(cfg, m, s, p))
  {
    WriteWaits(cfg, s, m, p);
    CollectionWaits(cfg, s.c.f, s.c.r, m.phase);
  }

  // The request goes from the shift register to the start pulse to the bus cycle.
  lemma WriteRequestMoves(cfg: Config, s: Sys, m: Master, p: Pins, q: Request)
    requires Formed(cfg, s.c) && RelWrite(cfg, s, m) && s.c.f.state == WriteAccess && m.phase == Waiting(q)
    requires !Answers(s.w, p) && Tolerated(cfg, s.c, p)
    ensures var n := SysStep(cfg, s, p);
            && n.c.f == s.c.f.(received := n.c.f.received)
            && (if s.c.r.latch == ToWriteData then Starting(n.c.r, n.c.b, n.w, q) else Cycling(n.c.r, n.c.b, n.w, q))
  {
  }

  lemma WriteRequestEnds(cfg: Config, s: Sys, m: Master, p: Pins, q: Request)
    requires Formed(cfg, s.c) && RelWrite(cfg, s, m) && s.c.f.state == WriteAccess && m.phase == Waiting(q)
    requires Answers(s.w, p) && Tolerated(cfg, s.c, p)
    ensures var n := SysStep(cfg, s, p);
            && n.c.f == s.c.f.(received := n.c.f.received) && n.c.r.latch == NoField && Finished(n.c.b, n.w, true)
  {
  }

  lemma WriteProceeds(cfg: Config, s: Sys, m: Master, p: Pins)
    requires Formed(cfg, s.c) && RelWrite(cfg, s, m) && s.c.f.state == WriteAccess
    requires Tolerated(cfg, s.c, p) && (p.valid ==> Busy(s.c.f))
    ensures SysStep(cfg, s, p).c.f.state in {IdleS, WriteAccess}
    ensures SysStep(cfg, s, p).c.f.state == WriteAccess ==> RelWrite(cfg, SysStep(cfg, s, p), MasterStep(cfg, m, s, p))
    ensures SysStep(cfg, s, p).c.f.state == IdleS ==>
              m.phase.Idle? && Quiet(SysStep(cfg, s, p).c.b, SysStep(cfg, s, p).w) && SysStep(cfg, s, p).c.r.latch != ToWriteData
  {
    match m.phase {
      case Collecting(_, _) => WriteCollectionWaits(cfg, s, m, p);
      case Waiting(q) =>
        if Answers(s.w, p) {
          WriteRequestEnds(cfg, s, m, p, q);
        } else {
          WriteRequestMoves(cfg, s, m, p, q);
        }
      case Idle =>
    }
  }

  lemma WriteAccessFields(cfg: Config, s: Sys, m: Master, p: Pins)
    requires Formed(cfg, s.c) && Rel(cfg, s, m) && Tolerated(cfg, s.c, p) && s.c.f.state == WriteAccess
    ensures FieldsAgree(cfg, SysStep(cfg, s, p).c.r, MasterStep(cfg, m, s, p))
  {
    FieldsSettle(cfg, s.c.r, m);
  }

  lemma WriteAccessLock(cfg: Config, s: Sys, m: Master, p: Pins)
    requires Formed(cfg, s.c) && Rel(cfg, s, m) && Tolerated(cfg, s.c, p) && s.c.f.state == WriteAccess
    ensures var n, k := SysStep(cfg, s, p), MasterStep(cfg, m, s, p);
            n.w.lck == LockLevel(k, n.w) && WellAsked(k)
  {
  }

  lemma WriteAccessRel(cfg: Config, s: Sys, m: Master, p: Pins)
    requires Formed(cfg, s.c) && Rel(cfg, s, m) && Tolerated(cfg, s.c, p) && s.c.f.state == WriteAccess
    ensures Rel(cfg, SysStep(cfg, s, p), MasterStep(cfg, m, s, p))
  {
    WriteAccessFields(cfg, s, m, p);
    WriteAccessLock(cfg, s, m, p);
    if p.valid && !Busy(s.c.f) {
      WriteCollects(cfg, s, m, p);
    } else {
      WriteProceeds(cfg, s, m, p);
    }
  }

  function WritePut(c: Core, p: Pins): seq<Byte> { if c.f.writeBusy && UpFree(c.t, p) then [c.t.respData] else [] }

  lemma WriteHands(cfg: Config, s: Sys, p: Pins)
    requires Formed(cfg, s.c) && s.c.f.state == WriteAccess
    ensures Hands(s.c.t, SysStep(cfg, s, p).c.t, p, WritePut(s.c, p))
  {
  }

  function WriteAnswers(s: Sys, m: Master, p: Pins): seq<Byte> {
    if m.phase.Waiting? && Answers(s.w, p) then [Verdict(p.rty || p.err)] else []
  }

  lemma WriteQueue(cfg: Config, s: Sys, m: Master, p: Pins)
    requires Formed(cfg, s.c) && RelWrite(cfg, s, m) && s.c.f.state == WriteAccess
    ensures WritePut(s.c, p) + Queue(cfg, SysStep(cfg, s, p)) == Queue(cfg, s) + WriteAnswers(s, m, p)
  {
  }

  lemma WriteAccessConserves(cfg: Config, s: Sys, m: Master, p: Pins)
    requires Formed(cfg, s.c) && Rel(cfg, s, m) && Tolerated(cfg, s.c, p) && s.c.f.state == WriteAccess
    ensures Conserves(cfg, s, m, p)
  {
    WriteHands(cfg, s, p);
    WriteQueue(cfg, s, m, p);
    assert MasterStep(cfg, m, s, p).answers == m.answers + WriteAnswers(s, m, p);
    ConservesBy(cfg, s, m, p, WritePut(s.c, p), WriteAnswers(s, m, p));
  }

  lemma FieldCollected(cfg: Config, r: Rx, m: Master, state: State, got: seq<Byte>, b: Byte, l: Latch)
    requires FieldsAgree(cfg, r, m) && Remembers(r, got) && |got| <= |r.low|
    requires SetsField(state) && l == if |got| + 1 == Size(cfg, KindOf(state)) then LatchOf(state) else NoField
    requires |got| < Size(cfg, KindOf(state))
    ensures FieldsAgree(cfg, Shifted(cfg, r, b, l), Collect(cfg, m, KindOf(state), got + [b]))
  {
    FieldsSettle(cfg, r, m);
    RemembersNext(cfg, r, got, b, l);
  }

  lemma SetCollects(cfg: Config, s: Sys, m: Master, p: Pins)
    requires Formed(cfg, s.c) && RelSet(cfg, s, m) && SetsField(s.c.f.state) && p.valid
    ensures var n, k := SysStep(cfg, s, p), MasterStep(cfg, m, s, p);
            && Quiet(n.c.b, n.w) && n.w.lck == s.w.lck && k.held == m.held
            && (if n.c.f.state == IdleS then k.phase.Idle? && n.c.r.latch != ToWriteData
                else n.c.f.state == s.c.f.state && RelSet(cfg, n, k))
  {
    FieldFits(cfg, m.phase.kind);
    var l := if s.c.f.received == s.c.f.expected then LatchOf(s.c.f.state) else NoField;
    RemembersNext(cfg, s.c.r, m.phase.got, p.b, l);
    assert SysStep(cfg, s, p).c.r == Shifted(cfg, s.c.r, p.b, l);
  }

  lemma SetCollectsFields(cfg: Config, s: Sys, m: Master, p: Pins)
    requires Formed(cfg, s.c) && FieldsAgree(cfg, s.c.r, m) && RelSet(cfg, s, m) && SetsField(s.c.f.state) && p.valid
    ensures FieldsAgree(cfg, SysStep(cfg, s, p).c.r, MasterStep(cfg, m, s, p)) && WellAsked(MasterStep(cfg, m, s, p))
  {
    FieldFits(cfg, m.phase.kind);
    var l := if s.c.f.received == s.c.f.expected then LatchOf(s.c.f.state) else NoField;
    FieldCollected(cfg, s.c.r, m, s.c.f.state, m.phase.got, p.b, l);
    assert SysStep(cfg, s, p).c.r == Shifted(cfg, s.c.r, p.b, l);
  }

  lemma SetWaits(cfg: Config, s: Sys, m: Master, p: Pins)
    requires Formed(cfg, s.c) && Quiet(s.c.b, s.w) && SetsField(s.c.f.state) && !p.valid && m.phase.Collecting?
    ensures var n := SysStep(cfg, s, p);
            n.c.f == s.c.f && n.c.r == RxStep(cfg, s.c.r) && Quiet(n.c.b, n.w) && n.w.lck == s.w.lck
    ensures MasterStep(cfg, m, s, p) == m
  {
  }

  lemma SetWaitsRel(cfg: Config, s: Sys, m: Master, p: Pins)
    requires Formed(cfg, s.c) && RelSet(cfg, s, m) && SetsField(s.c.f.state) && !p.valid
    ensures RelSet(cfg, SysStep(cfg, s, p), m)
  {
    SetWaits(cfg, s, m, p);
    FieldFits(cfg, m.phase.kind);
    RemembersWaits(cfg, s.c.r, m.phase.got);
  }

  lemma SetWaitsAll(cfg: Config, s: Sys, m: Master, p: Pins)
    requires Formed(cfg, s.c) && Rel(cfg, s, m) && SetsField(s.c.f.state) && !p.valid
    ensures Rel(cfg, SysStep(cfg, s, p), m) && MasterStep(cfg, m, s, p) == m
  {
    SetWaits(cfg, s, m, p);
    SetWaitsRel(cfg, s, m, p);
    FieldsSettle(cfg, s.c.r, m);
  }

  lemma SetCollectsAll(cfg: Config, s: Sys, m: Master, p: Pins)
    requires Formed(cfg, s.c) && Rel(cfg, s, m) && SetsField(s.c.f.state) && p.valid
    ensures Rel(cfg, SysStep(cfg, s, p), MasterStep(cfg, m, s, p))
  {
    SetCollectsFields(cfg, s, m, p);
    SetCollects(cfg, s, m, p);
  }

  lemma SetSaysNothing(cfg: Config, s: Sys, m: Master, p: Pins)
    requires Formed(cfg, s.c) && RelSet(cfg, s, m) && SetsField(s.c.f.state)
    ensures Hands(s.c.t, SysStep(cfg, s, p).c.t, p, [])
    ensures Queue(cfg, s) == [] && Queue(cfg, SysStep(cfg, s, p)) == [] && MasterStep(cfg, m, s, p).answers == m.answers
  {
  }

  lemma SetConserves(cfg: Config, s: Sys, m: Master, p: Pins)
    requires Formed(cfg, s.c) && Rel(cfg, s, m) && SetsField(s.c.f.state)
    ensures Conserves(cfg, s, m, p)
  {
    SetSaysNothing(cfg, s, m, p);
    ConservesBy(cfg, s, m, p, [], []);
  }

  lemma FreshCollects(cfg: Config, s: Sys, m: Master, p: Pins)
    requires Formed(cfg, s.c) && RelWrite(cfg, s, m) && s.c.f.state == WriteAccess && !Busy(s.c.f)
    ensures Fresh(cfg, SysStep(cfg, s, p).c)
  {
    if p.valid {
      WriteCollectsFsm(cfg, s, m, p);
    } else {
      WriteWaits(cfg, s, m, p);
    }
  }

  lemma FreshStays(cfg: Config, s: Sys, p: Pins)
    requires Formed(cfg, s.c) && Fresh(cfg, s.c)
    requires s.c.f.state == WriteAccess ==> Busy(s.c.f) && !p.valid
    ensures Fresh(cfg, SysStep(cfg, s, p).c)
  {
  }

  lemma FreshStep(cfg: Config, s: Sys, m: Master, p: Pins)
    requires Formed(cfg, s.c) && Rel(cfg, s, m) && Fresh(cfg, s.c) && (p.valid ==> !Busy(s.c.f))
    ensures Fresh(cfg, SysStep(cfg, s, p).c)
  {
    if s.c.f.state == WriteAccess && !Busy(s.c.f) {
      FreshCollects(cfg, s, m, p);
    } else {
      FreshStays(cfg, s, p);
    }
  }

  // Once the host has all its answers the core takes every byte.
  lemma DrainedIsFree(cfg: Config, s: Sys, m: Master)
    requires Formed(cfg, s.c) && Rel(cfg, s, m) && !m.phase.Waiting? && InFlight(cfg, s) == []
    ensures !Busy(s.c.f)
  {
  }

  // While a bus cycle is going on, it is the one asked for.
  lemma CycleIsAsked(cfg: Config, s: Sys, m: Master)
    requires Formed(cfg, s.c) && Rel(cfg, s, m) && s.w.cycstb
    ensures m.phase.Waiting? && Cycling(s.c.r, s.c.b, s.w, m.phase.request)
  {
  }

  lemma EndsAsAsked(cfg: Config, s: Sys, m: Master, p: Pins)
    requires Formed(cfg, s.c) && Rel(cfg, s, m) && Tolerated(cfg, s.c, p)
    ensures MasterStep(cfg, m, s, p).done == if Answers(s.w, p) then m.done + [Observed(s, p)] else m.done
  {
    if Answers(s.w, p) {
      CycleIsAsked(cfg, s, m);
      ObservedIsAsked(cfg, s, m, p);
    }
  }

  lemma ObservedIsAsked(cfg: Config, s: Sys, m: Master, p: Pins)
    requires FieldsAgree(cfg, s.c.r, m) && WellAsked(m) && s.w.lck == LockLevel(m, s.w)
    requires Answers(s.w, p) && m.phase.Waiting? && Cycling(s.c.r, s.c.b, s.w, m.phase.request)
    ensures MasterStep(cfg, m, s, p).done == m.done + [Observed(s, p)]
  {
  }

  // The relation is kept, no answer is lost, doubled or reordered, and what ends on the bus is
  // what was asked for.
  lemma StepFollows(cfg: Config, s: Sys, m: Master, p: Pins)
    requires Formed(cfg, s.c) && Rel(cfg, s, m) && Tolerated(cfg, s.c, p)
    ensures Rel(cfg, SysStep(cfg, s, p), MasterStep(cfg, m, s, p)) && Conserves(cfg, s, m, p)
    ensures MasterStep(cfg, m, s, p).done == if Answers(s.w, p) then m.done + [Observed(s, p)] else m.done
  {
    EndsAsAsked(cfg, s, m, p);
    match s.c.f.state {
      case IdleS => IdleRel(cfg, s, m, p); IdleConserves(cfg, s, m, p);
      case ReadWidth => ReadWidthRel(cfg, s, m, p); ReadWidthConserves(cfg, s, m, p);
      case ReadAccess => ReadAccessRel(cfg, s, m, p); ReadAccessConserves(cfg, s, m, p);
      case WriteAccess => WriteAccessRel(cfg, s, m, p); WriteAccessConserves(cfg, s, m, p);
      case _ =>
        if p.valid {
          SetCollectsAll(cfg, s, m, p);
        } else {
          SetWaitsAll(cfg, s, m, p);
        }
        SetConserves(cfg, s, m, p);
    }
  }
}
