// Fairness of the uplink arbiter of JtagCdc.
module JtagArbiter {
  import opened JtagHub
  import P = JtagProtocol

  // What the arbiter sees at one edge without clear.
  datatype Turn = Turn(retire: bool, empty: Flags, slots: Octets, xonWanted: Flags, any: Flags)

  function Next(fc: Flags, a: Arbiter, t: Turn): Arbiter {
    ArbiterStep(fc, a, false, t.retire, t.empty, t.slots, t.xonWanted, t.any)
  }

  // How many sources take turns: the hub itself is one of them with flow control.
  function Sources(fc: Flags): nat { if FlowControl(fc) then 8 else 7 }

  function After(fc: Flags, source: nat): nat { if source + 1 >= Sources(fc) then 0 else source + 1 }

  // How many turns pass before source n has its turn.
  function Ahead(fc: Flags, state: nat, n: nat): int {
    if state <= n then n - state else n + Sources(fc) - state
  }

  // The word for the host came from the source before the one whose turn it is.
  predicate InTurn(fc: Flags, a: Arbiter) {
    && a.state < Sources(fc)
    && (a.valid ==> a.state == After(fc, a.func))
  }

  // Whatever the arbiter is told, also by a clear.
  lemma StepInTurn(fc: Flags, a: Arbiter, clear: bool, t: Turn)
    requires clear || InTurn(fc, a)
    ensures InTurn(fc, ArbiterStep(fc, a, clear, t.retire, t.empty, t.slots, t.xonWanted, t.any))
  {
  }

  // So it holds in every run of the hub that begins with a clear.
  lemma RunInTurn(fc: Flags, h: Hub, word: HostWord, got: HubWord, es: seq<P.Event>)
    requires P.Cleared(fc, h) && P.LegalRun(fc, P.Start(h, word, got), es)
    ensures InTurn(fc, P.Run(fc, P.Start(h, word, got), es).hub.arbiter)
  {
    RunKeepsTurn(fc, P.Start(h, word, got), es);
  }

  lemma {:induction false} RunKeepsTurn(fc: Flags, s: P.System, es: seq<P.Event>)
    requires InTurn(fc, s.hub.arbiter) && P.LegalRun(fc, s, es)
    ensures InTurn(fc, P.Run(fc, s, es).hub.arbiter)
    decreases |es|
  {
    if |es| == 0 {
    } else {
      EventKeepsTurn(fc, s, es[0]);
      RunKeepsTurn(fc, P.Step(fc, s, es[0]), es[1..]);
    }
  }

  lemma EventKeepsTurn(fc: Flags, s: P.System, e: P.Event)
    requires InTurn(fc, s.hub.arbiter)
    ensures InTurn(fc, P.Step(fc, s, e).hub.arbiter)
  {
    if e.Edge? {
      var h := s.hub;
      StepInTurn(fc, h.arbiter, h.clear, Turn(Retires(h), h.empty, h.slots, XonWanted(fc, h), e.pins.any[..7]));
    }
  }

  predicate Loads(a: Arbiter, b: Arbiter) { !a.valid && b.valid }

  // The sources whose words are loaded until the one of channel n is.
  function Passes(fc: Flags, a: Arbiter, n: nat, ts: seq<Turn>): seq<nat>
    decreases |ts|
  {
    if |ts| == 0 then []
    else
      var b := Next(fc, a, ts[0]);
      if !Loads(a, b) then Passes(fc, b, n, ts[1..])
      else if b.func == n then []
      else [b.func] + Passes(fc, b, n, ts[1..])
  }

  // Edges at which no word is waiting for the host, until the word of channel n is loaded.
  function FreeEdges(fc: Flags, a: Arbiter, n: nat, ts: seq<Turn>): nat
    decreases |ts|
  {
    if |ts| == 0 then 0
    else
      var b := Next(fc, a, ts[0]);
      if Loads(a, b) && b.func == n then 1
      else (if a.valid then 0 else 1) + FreeEdges(fc, b, n, ts[1..])
  }

  predicate Waiting(n: nat, ts: seq<Turn>) {
    n < 7 && forall i :: 0 <= i < |ts| ==> !ts[i].empty[n]
  }

  lemma TurnMoves(fc: Flags, a: Arbiter, t: Turn, n: nat)
    requires InTurn(fc, a) && n < 7 && !t.empty[n]
    ensures var b := Next(fc, a, t);
            && InTurn(fc, b)
            && (a.valid ==> b.state == a.state)
            && (!a.valid ==> b.state == After(fc, a.state) && (b.valid ==> b.func == a.state))
            && (!a.valid && a.state == n ==> b.valid)
  {
  }

  lemma AheadMoves(fc: Flags, state: nat, n: nat)
    requires state < Sources(fc) && n < 7 && state != n
    ensures Ahead(fc, After(fc, state), n) == Ahead(fc, state, n) - 1
  {
  }

  // Sources other than n whose turns come before that of n, nearer and nearer to it.
  predicate Descending(fc: Flags, p: seq<nat>, n: nat, bound: int) {
    && (forall i :: 0 <= i < |p| ==> p[i] < Sources(fc) && p[i] != n && Ahead(fc, p[i], n) <= bound)
    && (forall i, j :: 0 <= i < j < |p| ==> Ahead(fc, p[j], n) < Ahead(fc, p[i], n))
  }

  lemma {:induction false} PassesDescend(fc: Flags, a: Arbiter, n: nat, ts: seq<Turn>)
    requires InTurn(fc, a) && Waiting(n, ts)
    ensures Descending(fc, Passes(fc, a, n, ts), n, Ahead(fc, a.state, n))
    decreases |ts|
  {
    if |ts| == 0 {
    } else {
      var b := Next(fc, a, ts[0]);
      TurnMoves(fc, a, ts[0], n);
      PassesDescend(fc, b, n, ts[1..]);
      if a.state != n {
        AheadMoves(fc, a.state, n);
      }
    }
  }

  // A channel that waits is passed by at most one word of each other source; the word
  // already loaded when it starts to wait counts as the one of its source (without flow control
  // the announcement after a clear is one of the hub itself, which takes no turns).
  lemma PassedAtMostOnce(fc: Flags, a: Arbiter, n: nat, ts: seq<Turn>)
    requires InTurn(fc, a) && Waiting(n, ts)
    requires a.valid ==> a.func != n
    ensures var p := (if a.valid then [a.func as nat] else []) + Passes(fc, a, n, ts);
            && n !in p
            && (forall i, j :: 0 <= i < j < |p| ==> p[i] != p[j])
  {
    PassesDescend(fc, a, n, ts);
    if a.valid && a.func < Sources(fc) {
      AheadMoves(fc, a.func, n);
    }
  }

  // And it does not wait longer than the arbiter needs to ask every source once.
  lemma {:induction false} AskedWithinOneRound(fc: Flags, a: Arbiter, n: nat, ts: seq<Turn>)
    requires InTurn(fc, a) && Waiting(n, ts)
    ensures FreeEdges(fc, a, n, ts) <= Ahead(fc, a.state, n) + 1 <= Sources(fc)
    decreases |ts|
  {
    if |ts| == 0 {
    } else {
      var b := Next(fc, a, ts[0]);
      TurnMoves(fc, a, ts[0], n);
      AskedWithinOneRound(fc, b, n, ts[1..]);
      if a.state != n {
        AheadMoves(fc, a.state, n);
      }
    }
  }
}
