// The hub and a JTAG host that obeys the xoff/xon rules: clk edges interleaved
// with DR scans. A scan is Capture (the hub's word is loaded into the data
// register), 13 shifts, and Update (the host's word is there); its update request
// reaches the clk side some edges later.
module JtagProtocol {
  import opened JtagHub

  // Settling(k): k edges after the edge at which the synchronized update request rose;
  // the fourth of them completes everything the word causes.
  datatype Phase = Settling(since: nat) | Captured | Updated

  type Streams = s: seq<seq<Octet>> | |s| == 7 witness [[], [], [], [], [], [], []]
  const SILENT: Streams := [[], [], [], [], [], [], []]

  datatype System = System(
    hub: Hub, phase: Phase,
    word: HostWord, got: HubWord,                 // the words of the current scan
    stopped: Flags, last: Function, before: Function, // host: xoff state, channel of the last valid word, and the one before the scan
    sent: Streams, delivered: Streams,            // downwards, per channel
    handed: Streams, received: Streams)           // upwards, per channel

  datatype Event = Edge(pins: Pins, request: bool) | Capture | Update(word: HostWord)

  // The message by which the hub lets the host send to channel n again.
  predicate XonFor(w: HubWord, n: nat) {
    n < 7 && w.valid && w.func == HUB && !w.data[7] && w.data[n]
  }

  // A scan starts when the word before is completely processed, and a host does not
  // send to a channel it was told to stop; resetting the hub again is not part of a run.
  predicate Legal(s: System, e: Event) {
    match e
    case Edge(_, request) => request ==> s.phase.Updated?
    case Capture => s.phase == Settling(4)
    case Update(w) => s.phase.Captured? && (w.valid ==> w.func < HUB && !s.stopped[w.func])
  }

  // The host's side of a scan: the xoff bit belongs to the last valid word it sent
  // before this one.
  function StoppedAfter(s: System, n: nat): bool
    requires n < 7
  {
    (s.got.xoff && s.last == n) || (s.stopped[n] && !XonFor(s.got, n))
  }

  function DeliveredAfter(fc: Flags, s: System, p: Pins, n: nat): seq<Octet>
    requires n < 7
  {
    s.delivered[n] + CoreTakes(fc, s.hub, p, n)
  }

  function HandedAfter(s: System, p: Pins, n: nat): seq<Octet>
    requires n < 7
  {
    s.handed[n] + CoreHands(s.hub, p, n)
  }

  function Step(fc: Flags, s: System, e: Event): System {
    match e
    case Edge(p, request) =>
      s.(hub := HubStep(fc, s.hub, p, request, Dr(s.word, s.got.xoff, s.got.valid)),
         phase := if s.phase.Updated? && request then Settling(0)
                  else if s.phase.Settling? && s.phase.since < 4 then Settling(s.phase.since + 1)
                  else s.phase,
         delivered := seq(7, n requires 0 <= n < 7 => DeliveredAfter(fc, s, p, n)),
         handed := seq(7, n requires 0 <= n < 7 => HandedAfter(s, p, n)))
    case Capture =>
      var a := s.hub.arbiter;
      s.(phase := Captured, got := HubWord(a.valid, s.hub.upXoff, a.func, a.data))
    case Update(w) =>
      s.(phase := Updated, word := w,
         stopped := seq(7, n requires 0 <= n < 7 => StoppedAfter(s, n)),
         last := if w.valid then w.func else s.last,
         before := s.last,
         sent := if w.valid && w.func < 7 then s.sent[w.func := s.sent[w.func] + [w.data]] else s.sent,
         received := if s.got.valid && s.got.func < 7
                     then s.received[s.got.func := s.received[s.got.func] + [s.got.data]] else s.received)
  }

  predicate LegalRun(fc: Flags, s: System, es: seq<Event>)
    decreases |es|
  {
    |es| == 0 || (Legal(s, es[0]) && LegalRun(fc, Step(fc, s, es[0]), es[1..]))
  }

  function Run(fc: Flags, s: System, es: seq<Event>): System
    decreases |es|
  {
    if |es| == 0 then s else Run(fc, Step(fc, s, es[0]), es[1..])
  }

  // ---- The invariant ----

  // The update request is still on its way to the buffers.
  predicate Early(p: Phase) { p.Updated? || (p.Settling? && p.since <= 1) }

  // Bytes of channel n the host has sent that are not in its output stage yet.
  function InFlight(fc: Flags, s: System, n: nat): seq<Octet>
    requires n < 7
  {
    if Early(s.phase) && s.word.valid && s.word.func == n then [s.word.data]
    else if fc[n] && s.hub.channels[n].selected then [s.hub.common]
    else []
  }

  function Queued(fc: Flags, s: System, n: nat): seq<Octet>
    requires n < 7
  {
    if fc[n] then Queue(s.hub.channels[n])
    else if s.hub.channels[n].valid then [s.hub.common]
    else []
  }

  // Bytes of channel n its core has handed over that the host has not received.
  function Unreceived(s: System, n: nat): seq<Octet>
    requires n < 7
  {
    if s.hub.empty[n] || (Early(s.phase) && s.got.valid && s.got.func == n) then [] else [s.hub.slots[n]]
  }

  predicate AtPhase(s: System, k: nat) { s.phase == Settling(k) }

  // Which registers hold what, phase by phase.
  predicate Registers(fc: Flags, s: System) {
    var h := s.hub;
    && (s.phase.Settling? ==> s.phase.since <= 4)
    && !h.clear
    && h.enable == AtPhase(s, 0)
    && h.doUpdate == AtPhase(s, 1)
    && (AtPhase(s, 1) ==> h.xfer == s.word && h.xoffSent == s.got.xoff && h.validSent == s.got.valid)
    && (AtPhase(s, 2) ==> h.common == s.word.data)
    && (s.phase.Updated? || s.phase.Settling? ==> s.word.valid ==> s.word.func < HUB)
    && (Early(s.phase) ==> h.xoffSel == s.before && s.last == if s.word.valid then s.word.func else s.before)
    && (!Early(s.phase) ==> h.xoffSel == s.last)
    && (s.phase.Captured? && s.got.xoff ==> s.last < 7 && fc[s.last])
    && (Early(s.phase) && s.got.xoff ==> s.before < 7 && fc[s.before])
  }

  // The word for the host stays as it was captured until it is retired, and a word of
  // a core is the content of that core's slot.
  predicate UpWord(fc: Flags, s: System) {
    var a := s.hub.arbiter;
    && ((s.phase.Captured? || Early(s.phase)) && s.got.valid ==>
          a.valid && a.func == s.got.func && a.data == s.got.data)
    && (a.valid && a.func < 7 ==> !s.hub.empty[a.func] && a.data == s.hub.slots[a.func])
    && (a.valid && a.func == HUB && !a.data[7] ==> a.data[..7] == a.xonData)
    && (!FlowControl(fc) ==> a.xonData == NONE && a.state < 7 && !a.clearBitsValid && (a.valid && a.func == HUB ==> a.data[7]))
    && (a.clearBitsValid == (FlowControl(fc) && AtPhase(s, 2) && s.got.valid && s.got.func == HUB && !s.got.data[7]))
    && (a.clearBitsValid ==> a.clearBits == s.got.data[..7] && a.xonData == NONE)
  }

  // The xoff state of the hub and the host's own; they differ only while a word is processed.
  predicate Mirrors(fc: Flags, s: System, n: nat)
    requires n < 7
  {
    && (fc[n] ==> s.hub.channels[n].selected == (AtPhase(s, 2) && s.word.valid && s.word.func == n))
    && (!fc[n] ==> s.hub.channels[n].valid == (AtPhase(s, 2) && s.word.valid && s.word.func == n))
    && (!fc[n] ==> !s.stopped[n] && !s.hub.xoffState[n])
    && s.hub.xoffHostSet[n] == (AtPhase(s, 2) && s.got.xoff && s.before == n)
    && s.stopped[n] == if Early(s.phase) || AtPhase(s, 2)
                       then (s.got.xoff && s.before == n) || (s.hub.xoffState[n] && !XonFor(s.got, n))
                       else s.hub.xoffState[n]
  }

  // How full a flow-controlled channel can be.
  predicate Filling(fc: Flags, s: System, n: nat)
    requires n < 7
  {
    var q := |Queued(fc, s, n)|;
    var f := |InFlight(fc, s, n)|;
    && Contiguous(s.hub.channels[n])
    && q + f <= (if s.stopped[n] then 3 else if s.last == n then 2 else 1)
    && (f > 0 ==> !s.hub.xoffState[n])
  }

  // An xon for a channel is prepared only when it has room again.
  predicate XonRoom(fc: Flags, s: System, n: nat)
    requires n < 7
  {
    var q := |Queued(fc, s, n)|;
    var f := |InFlight(fc, s, n)|;
    && (s.hub.arbiter.xonData[n] ==> s.hub.xoffState[n] && q <= 1 && f == 0)
    && (AtPhase(s, 4) && s.last == n ==> (!s.hub.upXoff ==> q <= 1) && (s.hub.arbiter.xonData[n] ==> !s.hub.upXoff))
    && (s.phase.Captured? && s.last == n ==> (!s.got.xoff ==> q <= 1) && (XonFor(s.got, n) ==> !s.got.xoff))
  }

  predicate UpXoff(fc: Flags, s: System) {
    AtPhase(s, 4) && s.hub.upXoff ==> s.last < 7 && fc[s.last]
  }

  predicate ConservedDown(fc: Flags, s: System, n: nat)
    requires n < 7
  {
    s.sent[n] == s.delivered[n] + (Queued(fc, s, n) + InFlight(fc, s, n))
  }

  predicate ConservedUp(s: System, n: nat)
    requires n < 7
  {
    s.handed[n] == s.received[n] + Unreceived(s, n)
  }

  predicate ChannelInv(fc: Flags, s: System, n: nat)
    requires n < 7
  {
    && Mirrors(fc, s, n)
    && (fc[n] ==> Filling(fc, s, n) && XonRoom(fc, s, n))
    && (s.hub.arbiter.xonData[n] ==> fc[n])
    && ConservedDown(fc, s, n) && ConservedUp(s, n)
  }

  predicate Inv(fc: Flags, s: System) {
    && Registers(fc, s) && UpWord(fc, s) && UpXoff(fc, s)
    && forall n :: 0 <= n < 7 ==> ChannelInv(fc, s, n)
  }

  // ---- Every event keeps it ----

  lemma CaptureKeeps(fc: Flags, s: System)
    requires Inv(fc, s) && Legal(s, Capture)
    ensures Inv(fc, Step(fc, s, Capture))
  {
    var t := Step(fc, s, Capture);
    forall n | 0 <= n < 7
      ensures ChannelInv(fc, t, n)
    {
      assert ChannelInv(fc, s, n);
    }
  }

  lemma UpdateKeeps(fc: Flags, s: System, w: HostWord)
    requires Inv(fc, s) && Legal(s, Update(w))
    ensures Inv(fc, Step(fc, s, Update(w)))
  {
    var t := Step(fc, s, Update(w));
    forall n | 0 <= n < 7
      ensures ChannelInv(fc, t, n)
    {
      assert ChannelInv(fc, s, n);
    }
  }

  lemma EdgeKeepsRegisters(fc: Flags, s: System, p: Pins, request: bool)
    requires Inv(fc, s) && Legal(s, Edge(p, request))
    ensures var t := Step(fc, s, Edge(p, request)); Registers(fc, t) && UpXoff(fc, t)
  {
  }

  lemma EdgeKeepsUpWord(fc: Flags, s: System, p: Pins, request: bool)
    requires Inv(fc, s) && Legal(s, Edge(p, request))
    ensures UpWord(fc, Step(fc, s, Edge(p, request)))
  {
  }

  lemma EdgeKeepsMirrors(fc: Flags, s: System, p: Pins, request: bool, n: nat)
    requires Inv(fc, s) && Legal(s, Edge(p, request)) && n < 7
    ensures Mirrors(fc, Step(fc, s, Edge(p, request)), n)
  {
    assert ChannelInv(fc, s, n);
  }

  lemma InFlightStep(fc: Flags, s: System, p: Pins, request: bool, n: nat)
    requires Inv(fc, s) && Legal(s, Edge(p, request)) && n < 7 && fc[n]
    ensures InFlight(fc, Step(fc, s, Edge(p, request)), n) == if AtPhase(s, 2) then [] else InFlight(fc, s, n)
  {
    assert ChannelInv(fc, s, n);
    EdgeKeepsMirrors(fc, s, p, request, n);
  }

  lemma EdgeKeepsFilling(fc: Flags, s: System, p: Pins, request: bool, n: nat)
    requires Inv(fc, s) && Legal(s, Edge(p, request)) && n < 7 && fc[n]
    ensures Filling(fc, Step(fc, s, Edge(p, request)), n)
  {
    assert ChannelInv(fc, s, n);
    InFlightStep(fc, s, p, request, n);
    StageIsQueue(s.hub.channels[n], Selects(s.hub, n), p.ready[n], s.hub.common, p.any);
  }

  // With the host stopped, no byte in flight and at most one queued, nothing is added.
  lemma EdgeOnlyDrains(fc: Flags, s: System, p: Pins, request: bool, n: nat)
    requires Inv(fc, s) && Legal(s, Edge(p, request)) && n < 7 && fc[n]
    ensures var t := Step(fc, s, Edge(p, request));
            && (!s.hub.channels[n].o0 && InFlight(fc, s, n) == [] ==> |Queued(fc, t, n)| <= 1 && InFlight(fc, t, n) == [])
            && (|Queued(fc, s, n)| <= 1 <==> !s.hub.channels[n].o0)
            && (AtPhase(t, 4) || t.phase.Captured? ==> !s.hub.channels[n].selected)
  {
    assert ChannelInv(fc, s, n);
    InFlightStep(fc, s, p, request, n);
    StageIsQueue(s.hub.channels[n], Selects(s.hub, n), p.ready[n], s.hub.common, p.any);
  }

  lemma EdgeSetsXonData(fc: Flags, s: System, p: Pins, request: bool, n: nat)
    requires Inv(fc, s) && Legal(s, Edge(p, request)) && n < 7 && fc[n]
    ensures var t := Step(fc, s, Edge(p, request));
            t.hub.arbiter.xonData[n] ==>
              && s.hub.xoffState[n] && t.hub.xoffState[n]
              && !s.hub.channels[n].o0 && InFlight(fc, s, n) == []
  {
    assert ChannelInv(fc, s, n);
  }

  lemma EdgeKeepsXonRoom(fc: Flags, s: System, p: Pins, request: bool, n: nat)
    requires Inv(fc, s) && Legal(s, Edge(p, request)) && n < 7 && fc[n]
    ensures XonRoom(fc, Step(fc, s, Edge(p, request)), n)
  {
    var t := Step(fc, s, Edge(p, request));
    EdgeOnlyDrains(fc, s, p, request, n);
    EdgeSetsXonData(fc, s, p, request, n);
    assert ChannelInv(fc, s, n);
    if AtPhase(t, 4) && t.last == n {
      assert t.hub.upXoff == s.hub.channels[n].o0;
      assert InFlight(fc, s, n) == [];
    }
  }

  lemma StageConserves(c: Channel, select: bool, ready: bool, common: Octet, any: Octet)
    requires Contiguous(c)
    requires c.selected ==> |Queue(c)| < 4
    ensures Taken(c, ready) + Queue(FlowControlledStep(c, false, select, ready, common, any))
         == Queue(c) + (if c.selected then [common] else [])
  {
    StageIsQueue(c, select, ready, common, any);
  }

  // The byte in flight moves one register on, or into the output stage.
  lemma EdgeMovesByte(fc: Flags, s: System, p: Pins, request: bool, n: nat)
    requires Inv(fc, s) && Legal(s, Edge(p, request)) && n < 7 && fc[n]
    ensures var t := Step(fc, s, Edge(p, request));
            CoreTakes(fc, s.hub, p, n) + (Queued(fc, t, n) + InFlight(fc, t, n))
            == Queued(fc, s, n) + InFlight(fc, s, n)
  {
    assert ChannelInv(fc, s, n);
    assert Filling(fc, s, n);
    InFlightStep(fc, s, p, request, n);
    var t := Step(fc, s, Edge(p, request));
    var c := s.hub.channels[n];
    StageConserves(c, Selects(s.hub, n), p.ready[n], s.hub.common, p.any);
    Regroup(Taken(c, p.ready[n]), Queue(t.hub.channels[n]), InFlight(fc, t, n));
  }

  lemma EdgeMovesPlainByte(fc: Flags, s: System, p: Pins, request: bool, n: nat)
    requires Inv(fc, s) && Legal(s, Edge(p, request)) && n < 7 && !fc[n]
    ensures var t := Step(fc, s, Edge(p, request));
            CoreTakes(fc, s.hub, p, n) + (Queued(fc, t, n) + InFlight(fc, t, n))
            == Queued(fc, s, n) + InFlight(fc, s, n)
  {
    assert ChannelInv(fc, s, n);
    EdgeKeepsMirrors(fc, s, p, request, n);
  }

  // No byte disappears between the host and the core of channel n at an edge.
  lemma EdgeConservesDown(fc: Flags, s: System, p: Pins, request: bool, n: nat)
    requires Inv(fc, s) && Legal(s, Edge(p, request)) && n < 7
    ensures ConservedDown(fc, Step(fc, s, Edge(p, request)), n)
  {
    assert ChannelInv(fc, s, n);
    if fc[n] {
      EdgeMovesByte(fc, s, p, request, n);
    } else {
      EdgeMovesPlainByte(fc, s, p, request, n);
    }
    Regroup(s.delivered[n], CoreTakes(fc, s.hub, p, n),
            Queued(fc, Step(fc, s, Edge(p, request)), n) + InFlight(fc, Step(fc, s, Edge(p, request)), n));
  }

  lemma Regroup(a: seq<Octet>, b: seq<Octet>, c: seq<Octet>)
    ensures a + (b + c) == (a + b) + c
  {
  }

  lemma EdgeConservesUp(fc: Flags, s: System, p: Pins, request: bool, n: nat)
    requires Inv(fc, s) && Legal(s, Edge(p, request)) && n < 7
    ensures ConservedUp(Step(fc, s, Edge(p, request)), n)
  {
    assert ChannelInv(fc, s, n);
    SlotMoves(fc, s, p, request, n);
    Regroup(s.received[n], Unreceived(s, n), CoreHands(s.hub, p, n));
  }

  // A slot takes a byte only while it is empty, and loses it only to the host.
  lemma SlotMoves(fc: Flags, s: System, p: Pins, request: bool, n: nat)
    requires Inv(fc, s) && Legal(s, Edge(p, request)) && n < 7
    ensures Unreceived(Step(fc, s, Edge(p, request)), n) == Unreceived(s, n) + CoreHands(s.hub, p, n)
  {
    assert ChannelInv(fc, s, n);
  }

  lemma EdgeKeepsXonFlags(fc: Flags, s: System, p: Pins, request: bool, n: nat)
    requires Inv(fc, s) && Legal(s, Edge(p, request)) && n < 7
    ensures Step(fc, s, Edge(p, request)).hub.arbiter.xonData[n] ==> fc[n]
  {
    assert ChannelInv(fc, s, n);
  }

  lemma EdgeKeepsChannel(fc: Flags, s: System, p: Pins, request: bool, n: nat)
    requires Inv(fc, s) && Legal(s, Edge(p, request)) && n < 7
    ensures ChannelInv(fc, Step(fc, s, Edge(p, request)), n)
  {
    EdgeKeepsMirrors(fc, s, p, request, n);
    if fc[n] {
      EdgeKeepsFilling(fc, s, p, request, n);
      EdgeKeepsXonRoom(fc, s, p, request, n);
    }
    EdgeKeepsXonFlags(fc, s, p, request, n);
    EdgeConservesDown(fc, s, p, request, n);
    EdgeConservesUp(fc, s, p, request, n);
  }

  lemma StepKeeps(fc: Flags, s: System, e: Event)
    requires Inv(fc, s) && Legal(s, e)
    ensures Inv(fc, Step(fc, s, e))
  {
    match e
    case Capture => CaptureKeeps(fc, s);
    case Update(w) => UpdateKeeps(fc, s, w);
    case Edge(p, request) =>
      EdgeKeepsRegisters(fc, s, p, request);
      EdgeKeepsUpWord(fc, s, p, request);
      forall n | 0 <= n < 7
        ensures ChannelInv(fc, Step(fc, s, Edge(p, request)), n)
      {
        EdgeKeepsChannel(fc, s, p, request, n);
      }
  }

  lemma {:induction false} RunKeeps(fc: Flags, s: System, es: seq<Event>)
    requires Inv(fc, s) && LegalRun(fc, s, es)
    ensures Inv(fc, Run(fc, s, es))
    decreases |es|
  {
    if |es| == 0 {
    } else {
      StepKeeps(fc, s, es[0]);
      RunKeeps(fc, Step(fc, s, es[0]), es[1..]);
    }
  }

  // ---- The start: a word to channel 7 ----

  // The hub at the edge after clear: everything dropped, its first word announces
  // which channels have flow control.
  predicate Cleared(fc: Flags, h: Hub) {
    && !h.enable && !h.doUpdate && !h.clear
    && (forall n :: 0 <= n < 7 ==> Queue(h.channels[n]) == [])
    && (forall n :: 0 <= n < 7 && fc[n] ==> Contiguous(h.channels[n]) && !h.channels[n].selected)
    && h.xoffSel == HUB && h.xoffHostSet == NONE && h.xoffState == NONE
    && (forall n :: 0 <= n < 7 ==> h.empty[n])
    && h.arbiter.state == 0 && h.arbiter.func == HUB && h.arbiter.data == fc + [true] && h.arbiter.valid
    && !h.arbiter.clearBitsValid && h.arbiter.xonData == NONE
  }

  function Start(h: Hub, word: HostWord, got: HubWord): System {
    System(h, Settling(3), word, got, NONE, HUB, HUB, SILENT, SILENT, SILENT, SILENT)
  }

  // Whatever state the hub is in, a valid word to channel 7 brings it to the start.
  lemma ClearDropsEverything(fc: Flags, h: Hub, p: Pins, q: Pins, dr: Dr)
    requires h.doUpdate && !h.enable && h.xfer.valid && h.xfer.func == HUB
    ensures Cleared(fc, HubStep(fc, HubStep(fc, h, p, false, dr), q, false, dr))
  {
    var g := HubStep(fc, h, p, false, dr);
    var k := HubStep(fc, g, q, false, dr);
    assert g.clear && !g.doUpdate;
    forall n | 0 <= n < 7
      ensures Queue(k.channels[n]) == []
      ensures fc[n] ==> Contiguous(k.channels[n]) && !k.channels[n].selected
      ensures !k.xoffState[n] && !k.xoffHostSet[n]
    {
      assert k.channels[n] == ChannelStep(fc, g, q, n);
      assert g.channels[n] == ChannelStep(fc, h, p, n);
    }
    assert k.xoffState == NONE && k.xoffHostSet == NONE;
  }

  lemma StartInv(fc: Flags, h: Hub, word: HostWord, got: HubWord)
    requires Cleared(fc, h) && !word.valid
    ensures Inv(fc, Start(h, word, got))
  {
    var s := Start(h, word, got);
    forall n | 0 <= n < 7
      ensures ChannelInv(fc, s, n)
    {
      assert Queue(h.channels[n]) == [];
    }
  }

  // ---- What every run guarantees ----

  // No byte to a channel is ever dropped: whatever the order of the channels, the
  // scans without data and the readiness of the cores, each core has taken exactly
  // the bytes sent to it, in order, except for those still in its output stage or in
  // flight; with flow control these are at most three, one less than there is room for.
  lemma NothingLostDownwards(fc: Flags, h: Hub, word: HostWord, got: HubWord, es: seq<Event>, n: nat)
    requires Cleared(fc, h) && !word.valid && n < 7
    requires LegalRun(fc, Start(h, word, got), es)
    ensures var s := Run(fc, Start(h, word, got), es);
            && s.sent[n] == s.delivered[n] + (Queued(fc, s, n) + InFlight(fc, s, n))
            && (fc[n] ==> |Queued(fc, s, n)| + |InFlight(fc, s, n)| <= 3)
            && (fc[n] ==> !s.hub.channels[n].o2)
  {
    StartInv(fc, h, word, got);
    RunKeeps(fc, Start(h, word, got), es);
    assert ChannelInv(fc, Run(fc, Start(h, word, got), es), n);
  }

  // Every byte a core hands over reaches the host exactly once and in order; at most
  // one per channel is still in the hub.
  lemma ExactlyOnceUpwards(fc: Flags, h: Hub, word: HostWord, got: HubWord, es: seq<Event>, n: nat)
    requires Cleared(fc, h) && !word.valid && n < 7
    requires LegalRun(fc, Start(h, word, got), es)
    ensures var s := Run(fc, Start(h, word, got), es);
            && s.handed[n] == s.received[n] + Unreceived(s, n)
            && |Unreceived(s, n)| <= 1
  {
    StartInv(fc, h, word, got);
    RunKeeps(fc, Start(h, word, got), es);
    assert ChannelInv(fc, Run(fc, Start(h, word, got), es), n);
  }

  // An edge never retires a word that was not captured: with nothing captured the
  // word for the host stays where it is, and a captured one is retired only once.
  lemma OnlyCapturedWordsRetire(fc: Flags, s: System, p: Pins, request: bool)
    requires Inv(fc, s) && Legal(s, Edge(p, request))
    requires s.hub.arbiter.valid
    ensures var t := Step(fc, s, Edge(p, request)).hub.arbiter;
            && (!t.valid <==> AtPhase(s, 1) && s.got.valid)
            && (!t.valid ==> s.got.func == s.hub.arbiter.func && s.got.data == s.hub.arbiter.data)
            && (t.valid ==> t.func == s.hub.arbiter.func && t.data == s.hub.arbiter.data)
  {
  }

  // The xon message for channel n is being put together, loaded, or on its way.
  predicate XonPending(s: System, n: nat)
    requires n < 7
  {
    || s.hub.arbiter.xonData[n]
    || (s.hub.arbiter.valid && XonFor(HubWord(true, false, s.hub.arbiter.func, s.hub.arbiter.data), n))
    || (s.phase.Captured? && XonFor(s.got, n))
  }

  // The hub's picture of the host is right: after each processed scan its xoff state
  // is the host's own, and while an xon for a channel is under way (and the host has not
  // received it yet) the host is stopped, nothing is in flight and at most one byte queued.
  lemma XoffAgreement(fc: Flags, h: Hub, word: HostWord, got: HubWord, es: seq<Event>, n: nat)
    requires Cleared(fc, h) && !word.valid && n < 7
    requires LegalRun(fc, Start(h, word, got), es)
    ensures var s := Run(fc, Start(h, word, got), es);
            && (s.phase == Settling(4) || s.phase.Captured? ==> s.hub.xoffState[n] == s.stopped[n])
            && (XonPending(s, n) ==>
                  && fc[n] && |Queued(fc, s, n)| <= 1 && InFlight(fc, s, n) == []
                  && (s.stopped[n] || (Early(s.phase) && XonFor(s.got, n))))
  {
    StartInv(fc, h, word, got);
    RunKeeps(fc, Start(h, word, got), es);
    var s := Run(fc, Start(h, word, got), es);
    assert ChannelInv(fc, s, n);
    assert s.hub.arbiter.valid && s.hub.arbiter.func == HUB && !s.hub.arbiter.data[7]
      ==> s.hub.arbiter.data[n] == s.hub.arbiter.data[..7][n];
  }

  // The hub never tells the host to stop and to go on with the same channel in one word.
  lemma XoffAndXonExclude(fc: Flags, s: System, n: nat)
    requires Inv(fc, s) && s.phase.Captured? && n < 7 && XonFor(s.got, n) && s.got.xoff
    ensures s.last != n
  {
    assert ChannelInv(fc, s, n);
    assert fc[s.last];
  }
}
