// IpdbgClockDomainCrossing: a byte crosses between two unrelated clocks with a
// four-phase request/acknowledge handshake, each flag going through a chain of
// synchronizer flip-flops of arbitrary length (MFF_LENGTH).
module ClockCrossing {
  import opened Bytes

  // The registers of one direction. The first four belong to the clock of the
  // side that sends the byte, the others to the clock of the side that gets it.
  datatype Link = Link(
    request: bool, busy: bool, transfer: Byte, ackChain: seq<bool>,
    acknowledge: bool, valid: bool, data: Byte, reqChain: seq<bool>)

  function Synced(input: bool, chain: seq<bool>): bool {
    if |chain| == 0 then input else chain[|chain| - 1]
  }

  function Shifted(input: bool, chain: seq<bool>): (r: seq<bool>)
    ensures |r| == |chain|
  {
    if |chain| == 0 then [] else [input] + chain[..|chain| - 1]
  }

  // One edge of the sending clock: a byte is offered or not.
  function SenderStep(l: Link, offered: bool, byte: Byte): Link {
    var synced := Synced(l.acknowledge, l.ackChain);
    var chain := Shifted(l.acknowledge, l.ackChain);
    if !l.busy then
      if offered then l.(transfer := byte, request := true, busy := true, ackChain := chain)
      else l.(ackChain := chain)
    else
      l.(request := l.request && !synced, busy := l.request || synced, ackChain := chain)
  }

  // One edge of the receiving clock: the consumer is ready or not.
  function ReceiverStep(l: Link, ready: bool): Link {
    var synced := Synced(l.request, l.reqChain);
    var chain := Shifted(l.request, l.reqChain);
    if l.valid then
      l.(valid := !ready, acknowledge := l.acknowledge || ready, reqChain := chain)
    else if synced && !l.acknowledge then
      l.(data := l.transfer, valid := true, reqChain := chain)
    else
      l.(acknowledge := l.acknowledge && synced, reqChain := chain)
  }

  // Which clocks have an edge at an instant; both may have one at the same time
  // and then read each other's registers as they were before.
  datatype Edge =
    | Sender(offered: bool, byte: Byte)
    | Receiver(ready: bool)
    | Both(offered: bool, byte: Byte, ready: bool)

  function LinkStep(l: Link, e: Edge): Link {
    match e
    case Sender(offered, byte) => SenderStep(l, offered, byte)
    case Receiver(ready) => ReceiverStep(l, ready)
    case Both(offered, byte, ready) =>
      var r := ReceiverStep(l, ready);
      SenderStep(l, offered, byte).(acknowledge := r.acknowledge, valid := r.valid, data := r.data, reqChain := r.reqChain)
  }

  predicate SenderEdge(e: Edge) { !e.Receiver? }

  predicate ReadyEdge(e: Edge) { !e.Sender? && e.ready }

  // The bytes the sending side accepts and the receiving side hands over at an edge.
  function Accepted(l: Link, e: Edge): seq<Byte> {
    if SenderEdge(e) && !l.busy && e.offered then [e.byte] else []
  }

  function Delivered(l: Link, e: Edge): seq<Byte> {
    if ReadyEdge(e) && l.valid then [l.data] else []
  }

  // A link together with everything it has accepted and delivered so far.
  datatype Run = Run(link: Link, accepted: seq<Byte>, delivered: seq<Byte>)

  function RunStep(r: Run, e: Edge): Run {
    Run(LinkStep(r.link, e), r.accepted + Accepted(r.link, e), r.delivered + Delivered(r.link, e))
  }

  function RunAll(r: Run, es: seq<Edge>): Run
    decreases |es|
  {
    if |es| == 0 then r else RunAll(RunStep(r, es[0]), es[1..])
  }

  predicate AtReset(l: Link) {
    && !l.request && !l.busy && !l.acknowledge && !l.valid
    && |l.reqChain| == |l.ackChain|
    && (forall i :: 0 <= i < |l.reqChain| ==> !l.reqChain[i] && !l.ackChain[i])
  }

  // ---- Safety ----

  predicate Level(s: seq<bool>, b: bool) { forall i :: 0 <= i < |s| ==> s[i] == b }

  // Once a '1' has been reached, everything before it is '1' too (b = true),
  // or the same for '0' (b = false): a front of b moves along the chain.
  predicate Front(s: seq<bool>, b: bool) {
    forall i, j :: 0 <= i < j < |s| && s[j] == b ==> s[i] == b
  }

  // request, the request chain, acknowledge and the acknowledge chain form a ring
  // along which one front moves: of '1' while request is '1', else of '0'.
  predicate Wave(l: Link) {
    && Front(l.reqChain, l.request) && Front(l.ackChain, l.request)
    && (l.acknowledge == l.request ==> Level(l.reqChain, l.request))
    && (l.acknowledge != l.request ==> Level(l.ackChain, !l.request))
  }

  predicate LinkInv(l: Link) {
    && |l.reqChain| == |l.ackChain|
    && Wave(l)
    && (l.request ==> l.busy)
    && (!l.busy ==> !l.acknowledge && Level(l.ackChain, false))
    && (l.valid ==> l.request && !l.acknowledge && Level(l.reqChain, true) && l.data == l.transfer)
  }

  // The byte that was accepted but not handed over yet.
  function InFlight(l: Link): (r: seq<Byte>)
    ensures |r| <= 1
  {
    if l.request && !l.acknowledge then [l.transfer] else []
  }

  predicate RunInv(r: Run) {
    LinkInv(r.link) && r.accepted == r.delivered + InFlight(r.link)
  }

  lemma FrontSynced(input: bool, chain: seq<bool>, b: bool)
    requires Front(chain, b)
    requires Synced(input, chain) == b
    requires |chain| == 0 ==> input == b
    ensures Level(chain, b)
  {
  }

  lemma SenderKeeps(l: Link, offered: bool, byte: Byte)
    requires LinkInv(l)
    ensures LinkInv(SenderStep(l, offered, byte))
  {
    if Synced(l.acknowledge, l.ackChain) == l.request {
      FrontSynced(l.acknowledge, l.ackChain, l.request);
    }
  }

  lemma ReceiverKeeps(l: Link, ready: bool)
    requires LinkInv(l)
    ensures LinkInv(ReceiverStep(l, ready))
  {
    if Synced(l.request, l.reqChain) == l.request {
      FrontSynced(l.request, l.reqChain, l.request);
    }
  }

  lemma BothKeep(l: Link, e: Edge)
    requires LinkInv(l) && e.Both?
    ensures LinkInv(LinkStep(l, e))
  {
    SenderKeeps(l, e.offered, e.byte);
    ReceiverKeeps(l, e.ready);
    if Synced(l.acknowledge, l.ackChain) == l.request {
      FrontSynced(l.acknowledge, l.ackChain, l.request);
    }
    if Synced(l.request, l.reqChain) == l.request {
      FrontSynced(l.request, l.reqChain, l.request);
    }
  }

  lemma LinkStepKeeps(l: Link, e: Edge)
    requires LinkInv(l)
    ensures LinkInv(LinkStep(l, e))
  {
    match e
    case Sender(offered, byte) => SenderKeeps(l, offered, byte);
    case Receiver(ready) => ReceiverKeeps(l, ready);
    case Both(_, _, _) => BothKeep(l, e);
  }

  lemma RunStepKeeps(r: Run, e: Edge)
    requires RunInv(r)
    ensures RunInv(RunStep(r, e))
  {
    LinkStepKeeps(r.link, e);
    if Synced(r.link.acknowledge, r.link.ackChain) == r.link.request {
      FrontSynced(r.link.acknowledge, r.link.ackChain, r.link.request);
    }
  }

  // Whatever the interleaving of the clocks, the length of the chains, the bytes
  // offered and the readiness of the consumer: what comes out is what went in,
  // in order, except for the at most one byte that is still on its way.
  lemma {:induction false} Lossless(r: Run, es: seq<Edge>)
    requires RunInv(r)
    ensures var f := RunAll(r, es);
            && RunInv(f)
            && f.delivered <= f.accepted
            && |f.accepted| <= |f.delivered| + 1
            && (!f.link.busy ==> f.delivered == f.accepted)
    decreases |es|
  {
    if |es| == 0 {
    } else {
      RunStepKeeps(r, es[0]);
      Lossless(RunStep(r, es[0]), es[1..]);
    }
  }

  lemma {:induction false} LosslessFromReset(l: Link, es: seq<Edge>)
    requires AtReset(l)
    ensures var f := RunAll(Run(l, [], []), es);
            f.delivered <= f.accepted && |f.accepted| <= |f.delivered| + 1
  {
    Lossless(Run(l, [], []), es);
  }

  // The receiving clock copies transfer_register at an edge.
  predicate Samples(l: Link, e: Edge) {
    !e.Sender? && !l.valid && Synced(l.request, l.reqChain) && !l.acknowledge
  }

  // transfer_register is stable whenever it is sampled: it holds the last byte
  // accepted, which was not handed over before, and the sending clock does not
  // load it at the same instant.
  lemma {:induction false} TransferStableWhenSampled(r: Run, es: seq<Edge>, e: Edge)
    requires RunInv(r)
    requires Samples(RunAll(r, es).link, e)
    ensures var f := RunAll(r, es);
            && f.accepted == f.delivered + [f.link.transfer]
            && LinkStep(f.link, e).transfer == f.link.transfer
            && LinkStep(f.link, e).data == f.link.transfer
  {
    Lossless(r, es);
  }

  // ---- Progress ----

  // How far the front still has to go round the ring, twice, until busy is '0'.
  function Remaining(l: Link): int {
    if !l.busy then 0
    else if l.request then
      2 * (|l.reqChain| + |l.ackChain| + 2) - Count(l.reqChain) - Count(l.ackChain)
      - (if l.acknowledge then 1 else 0) + (if l.valid || l.acknowledge then 0 else 1)
    else
      1 + Count(l.reqChain) + Count(l.ackChain) + (if l.acknowledge then 1 else 0)
  }

  lemma CountShifted(input: bool, chain: seq<bool>)
    ensures Count(Shifted(input, chain))
         == Count(chain) + (if input then 1 else 0) - (if Synced(input, chain) then 1 else 0)
  {
    if |chain| != 0 {
      var k := |chain| - 1;
      CountAppend([input], chain[..k]);
      CountAppend(chain[..k], chain[k..]);
      assert chain == chain[..k] + chain[k..];
      assert Count([input]) == if input then 1 else 0;
    }
  }

  lemma RemainingBounds(l: Link)
    requires LinkInv(l)
    ensures 0 <= Remaining(l) <= 4 * |l.reqChain| + 5
    ensures Remaining(l) == 0 <==> !l.busy
  {
    CountBounds(l.reqChain);
    CountBounds(l.ackChain);
  }

  // While request and acknowledge differ the front is on the receiving side.
  predicate ReceiverMoves(l: Link) { l.request != l.acknowledge }

  // No edge moves the front back, and the edge of the side that has the front
  // moves it on; the other side cannot take the front away.
  lemma EdgeAdvances(l: Link, e: Edge)
    requires LinkInv(l) && l.busy && LinkStep(l, e).busy
    ensures var m := LinkStep(l, e);
            && Remaining(m) <= Remaining(l)
            && (ReadyEdge(e) && ReceiverMoves(l) ==> Remaining(m) < Remaining(l))
            && (SenderEdge(e) && !ReceiverMoves(l) ==> Remaining(m) < Remaining(l))
            && (Remaining(m) == Remaining(l) ==> ReceiverMoves(m) == ReceiverMoves(l))
  {
    LinkStepKeeps(l, e);
    CountBounds(l.reqChain);
    CountBounds(l.ackChain);
    CountShifted(l.acknowledge, l.ackChain);
    CountShifted(l.request, l.reqChain);
    if Synced(l.acknowledge, l.ackChain) == l.request {
      FrontSynced(l.acknowledge, l.ackChain, l.request);
    }
    if Synced(l.request, l.reqChain) == l.request {
      FrontSynced(l.request, l.reqChain, l.request);
    }
  }

  function LinkAll(l: Link, es: seq<Edge>): Link
    decreases |es|
  {
    if |es| == 0 then l else LinkAll(LinkStep(l, es[0]), es[1..])
  }

  predicate BusyThroughout(l: Link, es: seq<Edge>)
    decreases |es|
  {
    l.busy && (|es| == 0 || BusyThroughout(LinkStep(l, es[0]), es[1..]))
  }

  // A round: at least one edge of the sending clock and at least one edge of the
  // receiving clock with a ready consumer, in any order, with any others between.
  predicate IsRound(es: seq<Edge>) {
    && (exists i :: 0 <= i < |es| && SenderEdge(es[i]))
    && (exists i :: 0 <= i < |es| && ReadyEdge(es[i]))
  }

  lemma {:induction false} SegmentAdvances(l: Link, es: seq<Edge>)
    requires LinkInv(l) && BusyThroughout(l, es)
    ensures LinkInv(LinkAll(l, es)) && LinkAll(l, es).busy
    ensures Remaining(LinkAll(l, es)) <= Remaining(l)
    ensures (ReceiverMoves(l) && exists i :: 0 <= i < |es| && ReadyEdge(es[i])) ==>
              Remaining(LinkAll(l, es)) < Remaining(l)
    ensures (!ReceiverMoves(l) && exists i :: 0 <= i < |es| && SenderEdge(es[i])) ==>
              Remaining(LinkAll(l, es)) < Remaining(l)
    ensures |LinkAll(l, es).reqChain| == |l.reqChain|
    decreases |es|
  {
    if |es| == 0 {
    } else {
      var m := LinkStep(l, es[0]);
      LinkStepKeeps(l, es[0]);
      EdgeAdvances(l, es[0]);
      SegmentAdvances(m, es[1..]);
      assert forall i :: 1 <= i < |es| ==> es[i] == es[1..][i - 1];
    }
  }

  predicate BusyThroughRounds(l: Link, rounds: seq<seq<Edge>>)
    decreases |rounds|
  {
    |rounds| == 0 || (BusyThroughout(l, rounds[0]) && BusyThroughRounds(LinkAll(l, rounds[0]), rounds[1..]))
  }

  lemma {:induction false} RoundsUseUp(l: Link, rounds: seq<seq<Edge>>)
    requires LinkInv(l) && (l.busy || |rounds| == 0)
    requires BusyThroughRounds(l, rounds)
    requires forall i :: 0 <= i < |rounds| ==> IsRound(rounds[i])
    ensures |rounds| <= Remaining(l)
    ensures l.busy ==> |rounds| < Remaining(l)
    decreases |rounds|
  {
    RemainingBounds(l);
    if |rounds| == 0 {
    } else {
      SegmentAdvances(l, rounds[0]);
      RoundsUseUp(LinkAll(l, rounds[0]), rounds[1..]);
    }
  }

  // A transfer never lasts 4 * MFF_LENGTH + 5 rounds: by then busy has been '0'.
  lemma TransferEnds(l: Link, rounds: seq<seq<Edge>>)
    requires LinkInv(l) && l.busy
    requires forall i :: 0 <= i < |rounds| ==> IsRound(rounds[i])
    requires |rounds| >= 4 * |l.reqChain| + 5
    ensures !BusyThroughRounds(l, rounds)
  {
    if BusyThroughRounds(l, rounds) {
      RoundsUseUp(l, rounds);
      RemainingBounds(l);
    }
  }

  // ---- The clocked processes ----

  // One direction. SenderClock and ReceiverClock are the two clocked processes of
  // data_dwn_block (and, with the clocks exchanged, of data_up_block).
  class Handshake {
    var request: bool
    var busy: bool
    var transfer: Byte
    var ackChain: seq<bool>
    var acknowledge: bool
    var valid: bool
    var data: Byte
    var reqChain: seq<bool>

    function State(): Link reads this {
      Link(request, busy, transfer, ackChain, acknowledge, valid, data, reqChain)
    }

    // After reset; transfer_register and the data output are undefined.
    constructor (mffLength: nat, anyTransfer: Byte, anyData: Byte)
      ensures AtReset(State()) && |reqChain| == mffLength
      ensures LinkInv(State())
    {
      request, busy, acknowledge, valid := false, false, false, false;
      transfer, data := anyTransfer, anyData;
      reqChain, ackChain := seq(mffLength, _ => false), seq(mffLength, _ => false);
    }

    // The clocked process of the sending side.
    method SenderProcess(offered: bool, byte: Byte) returns (taken: seq<Byte>)
      modifies `request, `busy, `transfer, `ackChain
      ensures State() == SenderStep(old(State()), offered, byte)
      ensures taken == Accepted(old(State()), Sender(offered, byte))
    {
      var acknowledgeSynced := Synced(acknowledge, ackChain);
      ackChain := Shifted(acknowledge, ackChain);
      taken := [];
      if !busy {
        if offered {
          transfer := byte;
          request := true;
          busy := true;
          taken := [byte];
        }
      } else {
        var requestBefore := request;
        if acknowledgeSynced {
          request := false;
        }
        if !requestBefore && !acknowledgeSynced {
          busy := false;
        }
      }
    }

    // The clocked process of the receiving side; it sees the sending side as
    // requestSeen and transferSeen.
    method ReceiverProcess(ready: bool, requestSeen: bool, transferSeen: Byte) returns (handedOver: seq<Byte>)
      modifies `acknowledge, `valid, `data, `reqChain
      ensures State() == ReceiverStep(old(State()).(request := requestSeen, transfer := transferSeen), ready)
                           .(request := request, transfer := transfer)
      ensures handedOver == Delivered(old(State()), Receiver(ready))
    {
      var requestSynced := Synced(requestSeen, reqChain);
      reqChain := Shifted(requestSeen, reqChain);
      handedOver := [];
      if valid {
        if ready {
          handedOver := [data];
          valid := false;
          acknowledge := true;
        }
      } else if requestSynced && !acknowledge {
        data := transferSeen; // stable while request = '1'
        valid := true;
      } else if !requestSynced {
        acknowledge := false;
      }
    }

    // The edges of one instant: both processes see the other's registers as they
    // were before the instant.
    method Clock(e: Edge) returns (taken: seq<Byte>, handedOver: seq<Byte>)
      modifies this
      ensures State() == LinkStep(old(State()), e)
      ensures taken == Accepted(old(State()), e)
      ensures handedOver == Delivered(old(State()), e)
    {
      taken, handedOver := [], [];
      var requestSeen, transferSeen := request, transfer;
      if SenderEdge(e) {
        taken := SenderProcess(e.offered, e.byte);
      }
      if !e.Sender? {
        handedOver := ReceiverProcess(e.ready, requestSeen, transferSeen);
      }
    }
  }

  // What the two clocks see and drive at one instant; any of the two edges may be missing.
  datatype Instant = Instant(
    host: bool, core: bool,
    downOffered: bool, downByte: Byte, downReady: bool,
    upOffered: bool, upByte: Byte, upReady: bool)

  function DownEdges(i: Instant): seq<Edge> {
    if i.host && i.core then [Both(i.downOffered, i.downByte, i.downReady)]
    else if i.host then [Sender(i.downOffered, i.downByte)]
    else if i.core then [Receiver(i.downReady)]
    else []
  }

  function UpEdges(i: Instant): seq<Edge> {
    if i.host && i.core then [Both(i.upOffered, i.upByte, i.upReady)]
    else if i.core then [Sender(i.upOffered, i.upByte)]
    else if i.host then [Receiver(i.upReady)]
    else []
  }

  // Both directions over one pair of clocks. The host clock sends downwards and
  // receives upwards, the function clock the other way round.
  class ClockDomainCrossing {
    const down: Handshake
    const up: Handshake

    constructor (mffLength: nat, a: Byte, b: Byte, c: Byte, d: Byte)
      ensures fresh(down) && fresh(up) && down != up
      ensures AtReset(down.State()) && AtReset(up.State())
    {
      down := new Handshake(mffLength, a, b);
      up := new Handshake(mffLength, c, d);
    }

    method Clocks(i: Instant) returns (toFunction: seq<Byte>, toHost: seq<Byte>)
      requires down != up
      modifies down, up
      ensures DownEdges(i) == [] ==> down.State() == old(down.State()) && toFunction == []
      ensures DownEdges(i) != [] ==> down.State() == LinkStep(old(down.State()), DownEdges(i)[0])
                                     && toFunction == Delivered(old(down.State()), DownEdges(i)[0])
      ensures UpEdges(i) == [] ==> up.State() == old(up.State()) && toHost == []
      ensures UpEdges(i) != [] ==> up.State() == LinkStep(old(up.State()), UpEdges(i)[0])
                                   && toHost == Delivered(old(up.State()), UpEdges(i)[0])
    {
      toFunction, toHost := [], [];
      if DownEdges(i) != [] {
        var _, handedOver := down.Clock(DownEdges(i)[0]);
        toFunction := handedOver;
      }
      if UpEdges(i) != [] {
        var _, handedOver := up.Clock(UpEdges(i)[0]);
        toHost := handedOver;
      }
    }
  }

  function CrossingRun(down: Run, up: Run, instants: seq<Instant>): (Run, Run)
    decreases |instants|
  {
    if |instants| == 0 then (down, up)
    else CrossingRun(RunAll(down, DownEdges(instants[0])), RunAll(up, UpEdges(instants[0])), instants[1..])
  }

  // Both directions at once, over every run of the two clocks.
  lemma {:induction false} CrossingLossless(down: Run, up: Run, instants: seq<Instant>)
    requires RunInv(down) && RunInv(up)
    ensures var (d, u) := CrossingRun(down, up, instants);
            && RunInv(d) && RunInv(u)
            && d.delivered <= d.accepted && |d.accepted| <= |d.delivered| + 1
            && u.delivered <= u.accepted && |u.accepted| <= |u.delivered| + 1
    decreases |instants|
  {
    if |instants| == 0 {
    } else {
      Lossless(down, DownEdges(instants[0]));
      Lossless(up, UpEdges(instants[0]));
      CrossingLossless(RunAll(down, DownEdges(instants[0])), RunAll(up, UpEdges(instants[0])), instants[1..]);
    }
  }
}
