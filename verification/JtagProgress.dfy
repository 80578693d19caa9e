// Progress of the hub, over every legal run: a byte in a slot reaches the host within one round
// of words, and a channel that was stopped is released as long as the host scans.
module JtagProgress {
  import opened JtagHub
  import opened JtagProtocol
  import opened JtagArbiter

  // ---- Upwards: the byte in a slot ----

  // The word for the host has not been received yet.
  predicate Unheard(s: System) { s.hub.arbiter.valid && !(Early(s.phase) && s.got.valid) }

  // How many words are received at most, up to and with the one of channel n.
  function WordsLeft(fc: Flags, s: System, n: nat): int
    requires n < 7
  {
    var a := s.hub.arbiter;
    if Unheard(s) && a.func == n then 1 else (if Unheard(s) then 1 else 0) + Ahead(fc, a.state, n) + 1
  }

  predicate Hears(s: System, e: Event) { e.Update? && s.got.valid }

  // The words that the host receives.
  function HeardIn(fc: Flags, s: System, es: seq<Event>): nat
    decreases |es|
  {
    if |es| == 0 then 0 else (if Hears(s, es[0]) then 1 else 0) + HeardIn(fc, Step(fc, s, es[0]), es[1..])
  }

  // Within one round; without flow control the announcement after a clear comes in addition.
  lemma OneRound(fc: Flags, s: System, n: nat)
    requires InTurn(fc, s.hub.arbiter) && n < 7
    ensures 1 <= WordsLeft(fc, s, n) <= if s.hub.arbiter.valid && s.hub.arbiter.func >= Sources(fc) then Sources(fc) + 1 else Sources(fc)
  {
  }

  lemma HostEventWords(fc: Flags, s: System, e: Event, n: nat)
    requires Inv(fc, s) && Legal(s, e) && n < 7 && Unreceived(s, n) != [] && !e.Edge?
    ensures var t := Step(fc, s, e);
            if Hears(s, e) && s.got.func == n then t.received[n] == s.received[n] + Unreceived(s, n)
            else
              && t.received[n] == s.received[n] && Unreceived(t, n) == Unreceived(s, n)
              && WordsLeft(fc, t, n) == WordsLeft(fc, s, n) - if Hears(s, e) then 1 else 0
  {
  }

  lemma EdgeWords(fc: Flags, s: System, p: Pins, request: bool, n: nat)
    requires Inv(fc, s) && InTurn(fc, s.hub.arbiter) && Legal(s, Edge(p, request)) && n < 7 && Unreceived(s, n) != []
    ensures var t := Step(fc, s, Edge(p, request));
            t.received[n] == s.received[n] && Unreceived(t, n) == Unreceived(s, n) && WordsLeft(fc, t, n) <= WordsLeft(fc, s, n)
  {
    SlotMoves(fc, s, p, request, n);
  }

  lemma ReceivedStays(fc: Flags, s: System, e: Event, n: nat)
    requires n < 7
    ensures s.received[n] <= Step(fc, s, e).received[n]
  {
  }

  lemma {:induction false} ReceivedGrows(fc: Flags, s: System, es: seq<Event>, n: nat)
    requires n < 7
    ensures s.received[n] <= Run(fc, s, es).received[n]
    decreases |es|
  {
    if |es| == 0 {
    } else {
      ReceivedStays(fc, s, es[0], n);
      ReceivedGrows(fc, Step(fc, s, es[0]), es[1..], n);
    }
  }

  // From any state of a run: when the host has received WordsLeft words, the byte in the slot of
  // channel n is among what it has received.
  lemma {:induction false} ByteIsHeard(fc: Flags, s: System, es: seq<Event>, n: nat)
    requires Inv(fc, s) && InTurn(fc, s.hub.arbiter) && LegalRun(fc, s, es) && n < 7 && Unreceived(s, n) != []
    requires HeardIn(fc, s, es) >= WordsLeft(fc, s, n)
    ensures s.received[n] + Unreceived(s, n) <= Run(fc, s, es).received[n]
    decreases |es|
  {
    if |es| == 0 {
      OneRound(fc, s, n);
    } else {
      var e, t := es[0], Step(fc, s, es[0]);
      StepKeeps(fc, s, e);
      EventKeepsTurn(fc, s, e);
      match e {
        case Edge(p, request) => EdgeWords(fc, s, p, request, n);
        case _ => HostEventWords(fc, s, e, n);
      }
      if Hears(s, e) && s.got.func == n {
        ReceivedGrows(fc, t, es[1..], n);
      } else {
        ByteIsHeard(fc, t, es[1..], n);
      }
    }
  }

  // In every run from a clear on, a byte that a core has handed over reaches the host within one
  // round of words, whatever the other channels do.
  lemma HeardWithinOneRound(fc: Flags, h: Hub, word: HostWord, got: HubWord, before: seq<Event>, es: seq<Event>, n: nat)
    requires Cleared(fc, h) && !word.valid && n < 7
    requires LegalRun(fc, Start(h, word, got), before)
    requires var s := Run(fc, Start(h, word, got), before);
             LegalRun(fc, s, es) && HeardIn(fc, s, es) >= Sources(fc) + if s.hub.arbiter.func < Sources(fc) then 0 else 1
    ensures var s := Run(fc, Start(h, word, got), before);
            s.received[n] + Unreceived(s, n) <= Run(fc, s, es).received[n]
  {
    var s := Run(fc, Start(h, word, got), before);
    StartInv(fc, h, word, got);
    RunKeeps(fc, Start(h, word, got), before);
    RunInTurn(fc, h, word, got, before);
    if Unreceived(s, n) == [] {
      ReceivedGrows(fc, s, es, n);
      assert s.received[n] + [] == s.received[n];
    } else {
      OneRound(fc, s, n);
      ByteIsHeard(fc, s, es, n);
    }
  }

  // ---- Downwards: a channel that was stopped ----

  // How many steps it takes until what the last words said has arrived in the hub.
  function Landing(p: Phase): nat {
    match p
    case Updated => 4
    case Settling(k) => if k < 3 then 3 - k else 0
    case Captured => 0
  }

  function Load(fc: Flags, s: System, n: nat): nat
    requires n < 7
  {
    |Queued(fc, s, n)| + |InFlight(fc, s, n)|
  }

  // The hub knows that the host has stopped, and no byte is on its way any more.
  predicate Landed(fc: Flags, s: System, n: nat)
    requires n < 7
  {
    s.hub.xoffState[n] && InFlight(fc, s, n) == []
  }

  predicate Drained(fc: Flags, s: System, n: nat)
    requires n < 7
  {
    Landed(fc, s, n) && Load(fc, s, n) <= 1
  }

  // The hub has the xon for channel n ready.
  predicate Prepared(s: System, n: nat)
    requires n < 7
  {
    var a := s.hub.arbiter;
    a.xonData[n] && !(a.valid && a.func == HUB && a.data[7])
  }

  // Steps left at most until the host receives the xon: words it receives, and edges at which
  // no word waits for it.
  function Rank(fc: Flags, s: System, n: nat): int
    requires n < 7
  {
    var a := s.hub.arbiter;
    var unheard := if Unheard(s) then 1 else 0;
    if !Drained(fc, s, n) then
      30 + (if Landed(fc, s, n) then 0 else Landing(s.phase)) + (if Load(fc, s, n) > 1 then Load(fc, s, n) - 1 else 0)
    else if Prepared(s, n) then
      if a.valid && a.func == HUB then 1 else unheard + 2 * Ahead(fc, a.state, HUB) + 2
    else
      18 + (if a.state == HUB then 5 else 0) + (if a.clearBitsValid then 2 else 0)
      + (if a.valid then unheard + if a.func == HUB then 2 else 0 else 0)
  }

  // A scan has begun, and the step that it brings is still to come.
  predicate Due(fc: Flags, s: System, n: nat)
    requires n < 7
  {
    && Landed(fc, s, n)
    && (((s.phase.Captured? || s.phase.Updated?) && (Load(fc, s, n) > 1 || !s.hub.arbiter.valid))
        || (s.phase.Captured? && s.got.valid))
  }

  // Beside the turns: the bits to clear are there only at the edge after a word of the hub.
  predicate Turning(fc: Flags, a: Arbiter) { InTurn(fc, a) && (a.clearBitsValid ==> !a.valid && a.state == 0) }

  // The word just received does not say both stop and go on.
  predicate Definite(s: System) { Early(s.phase) && s.got.xoff ==> !XonFor(s.got, s.before) }

  predicate Progressing(fc: Flags, s: System) { Inv(fc, s) && Turning(fc, s.hub.arbiter) && Definite(s) }

  lemma EventProgresses(fc: Flags, s: System, e: Event)
    requires Progressing(fc, s) && Legal(s, e)
    ensures Progressing(fc, Step(fc, s, e))
  {
    StepKeeps(fc, s, e);
    EventKeepsTurn(fc, s, e);
    if e.Update? && s.got.xoff && XonFor(s.got, s.last) {
      XoffAndXonExclude(fc, s, s.last);
    }
  }

  predicate Stalled(fc: Flags, s: System, n: nat) { n < 7 && fc[n] && Progressing(fc, s) && s.stopped[n] }

  lemma CaptureIsDue(fc: Flags, s: System, n: nat)
    requires Stalled(fc, s, n) && Legal(s, Capture)
    ensures var t := Step(fc, s, Capture);
            Rank(fc, t, n) == Rank(fc, s, n) && Due(fc, t, n) && !Due(fc, s, n)
  {
    assert ChannelInv(fc, s, n);
  }

  lemma UpdateRank(fc: Flags, s: System, w: HostWord, n: nat)
    requires Stalled(fc, s, n) && Legal(s, Update(w)) && Step(fc, s, Update(w)).stopped[n]
    ensures var t := Step(fc, s, Update(w));
            && Rank(fc, t, n) <= Rank(fc, s, n)
            && (Due(fc, s, n) ==> Due(fc, t, n) || Rank(fc, t, n) < Rank(fc, s, n))
  {
    assert ChannelInv(fc, s, n);
  }

  // At an edge with a ready core.
  predicate Edges(fc: Flags, s: System, p: Pins, request: bool, n: nat) {
    Stalled(fc, s, n) && Legal(s, Edge(p, request)) && p.ready[n]
  }

  lemma EdgeStaysLanded(fc: Flags, s: System, p: Pins, request: bool, n: nat)
    requires Edges(fc, s, p, request, n) && Landed(fc, s, n)
    ensures Landed(fc, Step(fc, s, Edge(p, request)), n)
  {
    assert ChannelInv(fc, s, n);
    InFlightStep(fc, s, p, request, n);
    if s.hub.arbiter.clearBitsValid && s.hub.arbiter.clearBits[n] {
      assert s.got.data[..7][n] == s.got.data[n];
    }
  }

  lemma EdgeLands(fc: Flags, s: System, p: Pins, request: bool, n: nat)
    requires Edges(fc, s, p, request, n) && !Landed(fc, s, n)
    ensures var t := Step(fc, s, Edge(p, request));
            Landing(s.phase) > 0 && (Landed(fc, t, n) || 0 < Landing(t.phase) <= Landing(s.phase))
  {
    var t := Step(fc, s, Edge(p, request));
    assert ChannelInv(fc, s, n);
    EdgeKeepsChannel(fc, s, p, request, n);
    InFlightStep(fc, s, p, request, n);
  }

  lemma EdgeUnloads(fc: Flags, s: System, p: Pins, request: bool, n: nat)
    requires Edges(fc, s, p, request, n)
    ensures var t := Step(fc, s, Edge(p, request));
            Load(fc, t, n) <= Load(fc, s, n) && (Queued(fc, s, n) != [] ==> Load(fc, t, n) == Load(fc, s, n) - 1)
  {
    assert ChannelInv(fc, s, n);
    EdgeMovesByte(fc, s, p, request, n);
  }

  // While a word waits for the host, or its received word is retired.
  lemma EdgeWaits(fc: Flags, s: System, p: Pins, request: bool, n: nat)
    requires Edges(fc, s, p, request, n) && s.hub.arbiter.valid
    requires Drained(fc, s, n) && Drained(fc, Step(fc, s, Edge(p, request)), n)
    ensures Rank(fc, Step(fc, s, Edge(p, request)), n) <= Rank(fc, s, n)
  {
    assert ChannelInv(fc, s, n);
    var a := s.hub.arbiter;
    if a.func == HUB && !a.data[7] {
      assert a.data[n] == a.data[..7][n];
    }
  }

  // While none does, the arbiter goes on.
  lemma EdgeTurns(fc: Flags, s: System, p: Pins, request: bool, n: nat)
    requires Edges(fc, s, p, request, n) && !s.hub.arbiter.valid
    requires Drained(fc, s, n) && Drained(fc, Step(fc, s, Edge(p, request)), n)
    ensures Rank(fc, Step(fc, s, Edge(p, request)), n) < Rank(fc, s, n)
  {
    assert ChannelInv(fc, s, n);
  }

  lemma DrainedRank(fc: Flags, s: System, n: nat)
    requires Stalled(fc, s, n)
    ensures Drained(fc, s, n) ==> 1 <= Rank(fc, s, n) <= 28
    ensures !Drained(fc, s, n) ==> 31 <= Rank(fc, s, n) <= 36
  {
    assert ChannelInv(fc, s, n);
  }

  lemma EdgeRank(fc: Flags, s: System, p: Pins, request: bool, n: nat)
    requires Edges(fc, s, p, request, n) && Step(fc, s, Edge(p, request)).stopped[n]
    ensures var t := Step(fc, s, Edge(p, request));
            && Rank(fc, t, n) <= Rank(fc, s, n)
            && (Due(fc, s, n) ==> Due(fc, t, n) || Rank(fc, t, n) < Rank(fc, s, n))
  {
    var t := Step(fc, s, Edge(p, request));
    EventProgresses(fc, s, Edge(p, request));
    DrainedRank(fc, s, n);
    DrainedRank(fc, t, n);
    EdgeUnloads(fc, s, p, request, n);
    if !Landed(fc, s, n) {
      EdgeLands(fc, s, p, request, n);
    } else {
      EdgeStaysLanded(fc, s, p, request, n);
      if Drained(fc, s, n) {
        if s.hub.arbiter.valid {
          EdgeWaits(fc, s, p, request, n);
        } else {
          EdgeTurns(fc, s, p, request, n);
        }
      }
    }
  }

  // ---- The xon comes ----

  // Every edge of the run finds the core of channel n ready.
  predicate CoreReady(es: seq<Event>, n: nat)
    requires n < 7
  {
    forall i :: 0 <= i < |es| && es[i].Edge? ==> es[i].pins.ready[n]
  }

  function Scans(es: seq<Event>): nat {
    if |es| == 0 then 0 else (if es[0].Capture? then 1 else 0) + Scans(es[1..])
  }

  // At some point of the run the host receives the xon for channel n, and goes on.
  predicate Released(fc: Flags, s: System, es: seq<Event>, n: nat)
    requires n < 7
    decreases |es|
  {
    |es| > 0
    && ((es[0].Update? && XonFor(s.got, n) && !Step(fc, s, es[0]).stopped[n]) || Released(fc, Step(fc, s, es[0]), es[1..], n))
  }

  // Only an xon lets the host go on.
  lemma OnlyXonReleases(fc: Flags, s: System, e: Event, n: nat)
    requires n < 7 && s.stopped[n] && !Step(fc, s, e).stopped[n]
    ensures e.Update? && XonFor(s.got, n)
  {
  }

  lemma {:induction false} ScansArePaid(fc: Flags, s: System, es: seq<Event>, n: nat, due: bool)
    requires Stalled(fc, s, n) && LegalRun(fc, s, es) && CoreReady(es, n) && (due ==> Due(fc, s, n))
    requires !Released(fc, s, es, n)
    ensures Scans(es) + (if due then 1 else 0) <= Rank(fc, s, n) + 1
    decreases |es|
  {
    DrainedRank(fc, s, n);
    if |es| == 0 {
    } else {
      var e, t := es[0], Step(fc, s, es[0]);
      EventProgresses(fc, s, e);
      if !t.stopped[n] {
        OnlyXonReleases(fc, s, e, n);
      }
      match e {
        case Capture => CaptureIsDue(fc, s, n);
        case Update(w) => UpdateRank(fc, s, w, n);
        case Edge(p, request) => EdgeRank(fc, s, p, request, n);
      }
      ScansArePaid(fc, t, es[1..], n, if e.Capture? then true else due && Due(fc, t, n));
    }
  }

  // A channel that the host was told to stop is released: as long as its core takes its bytes and
  // the host scans, the host receives the xon within 38 scans, whatever the other channels do.
  lemma XonComes(fc: Flags, h: Hub, word: HostWord, got: HubWord, before: seq<Event>, es: seq<Event>, n: nat)
    requires Cleared(fc, h) && !word.valid && n < 7
    requires LegalRun(fc, Start(h, word, got), before)
    requires var s := Run(fc, Start(h, word, got), before);
             s.stopped[n] && LegalRun(fc, s, es) && CoreReady(es, n) && Scans(es) >= 38
    ensures Released(fc, Run(fc, Start(h, word, got), before), es, n)
  {
    var s := Run(fc, Start(h, word, got), before);
    StartInv(fc, h, word, got);
    RunProgresses(fc, Start(h, word, got), before);
    assert ChannelInv(fc, s, n);
    if !Released(fc, s, es, n) {
      ScansArePaid(fc, s, es, n, false);
      DrainedRank(fc, s, n);
    }
  }

  lemma {:induction false} RunProgresses(fc: Flags, s: System, es: seq<Event>)
    requires Progressing(fc, s) && LegalRun(fc, s, es)
    ensures Progressing(fc, Run(fc, s, es))
    decreases |es|
  {
    if |es| == 0 {
    } else {
      EventProgresses(fc, s, es[0]);
      RunProgresses(fc, Step(fc, s, es[0]), es[1..]);
    }
  }
}
