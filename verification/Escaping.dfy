// IpdbgEscaping: the downstream register stage with the escape and reset symbols, and the
// sender's side of the escaping.
module Escaping {
  import opened Bytes

  const ESCAPE: Byte := 0x55
  const RESET: Byte := 0xEE

  // ---- The register stage ----

  datatype Stage = Stage(escaping: bool, valid: bool, data: Byte, reset: bool)

  function InReady(s: Stage, ready: bool): bool { !s.valid || ready }

  function StageStep(s: Stage, offered: bool, b: Byte, ready: bool): Stage {
    var n := s.(reset := false, valid := s.valid && !ready);
    if !offered || !InReady(s, ready) then n
    else if s.escaping then n.(escaping := false, valid := true, data := b)
    else if b == ESCAPE then n.(escaping := true)
    else if b == RESET then n.(reset := true, valid := false)
    else n.(valid := true, data := b)
  }

  class IpdbgEscaping {
    var escaping: bool
    var valid: bool
    var data: Byte
    var reset: bool

    function State(): Stage
      reads this
    {
      Stage(escaping, valid, data, reset)
    }

    // rst also resets the core behind; the data register is undefined.
    constructor (any: Byte)
      ensures State() == Stage(false, false, any, true)
    {
      escaping, valid, data, reset := false, false, any, true;
    }

    method Clock(offered: bool, b: Byte, ready: bool)
      modifies this
      ensures State() == StageStep(old(State()), offered, b, ready)
    {
      var inReady := !valid || ready;
      reset := false;
      if ready {
        valid := false;
      }
      if offered && inReady {
        if escaping {
          escaping := false;
          valid := true;
          data := b;
        } else if b == ESCAPE {
          escaping := true;
        } else if b == RESET {
          reset := true;
          valid := false;
        } else {
          valid := true;
          data := b;
        }
      }
    }
  }

  // ---- What a byte stream means ----

  datatype Symbol = Data(b: Byte) | Reset

  function Symbols(escaping: bool, b: Byte): seq<Symbol> {
    if escaping then [Data(b)] else if b == ESCAPE then [] else if b == RESET then [Reset] else [Data(b)]
  }

  predicate EscapedAfter(escaping: bool, b: Byte) { !escaping && b == ESCAPE }

  // Whether the decoder is between an escape symbol and the byte it protects.
  predicate Escaped(escaping: bool, s: seq<Byte>)
    decreases |s|
  {
    if |s| == 0 then escaping else Escaped(EscapedAfter(escaping, s[0]), s[1..])
  }

  function Decode(escaping: bool, s: seq<Byte>): seq<Symbol>
    decreases |s|
  {
    if |s| == 0 then [] else Symbols(escaping, s[0]) + Decode(EscapedAfter(escaping, s[0]), s[1..])
  }

  function Plain(d: seq<Byte>): (s: seq<Symbol>)
    ensures |s| == |d| && forall i :: 0 <= i < |d| ==> s[i] == Data(d[i])
  {
    seq(|d|, i requires 0 <= i < |d| => Data(d[i]))
  }

  // The bytes a core takes that ignores resets.
  function DataOf(s: seq<Symbol>): seq<Byte> {
    if |s| == 0 then [] else (if s[0].Data? then [s[0].b] else []) + DataOf(s[1..])
  }

  function EscapeByte(b: Byte): seq<Byte> { if b == ESCAPE || b == RESET then [ESCAPE, b] else [b] }

  function Escape(d: seq<Byte>): seq<Byte> {
    if |d| == 0 then [] else EscapeByte(d[0]) + Escape(d[1..])
  }

  lemma {:induction false} EscapedConcat(e: bool, s: seq<Byte>, t: seq<Byte>)
    ensures Escaped(e, s + t) == Escaped(Escaped(e, s), t)
    decreases |s|
  {
    if |s| == 0 {
      assert s + t == t;
    } else {
      EscapedConcat(EscapedAfter(e, s[0]), s[1..], t);
      assert (s + t)[1..] == s[1..] + t;
    }
  }

  lemma DecodeNext(e: bool, b: Byte, s: seq<Byte>)
    ensures Escaped(e, [b] + s) == Escaped(EscapedAfter(e, b), s)
    ensures Decode(e, [b] + s) == Symbols(e, b) + Decode(EscapedAfter(e, b), s)
  {
    assert ([b] + s)[1..] == s;
  }

  lemma Associates(a: seq<Symbol>, b: seq<Symbol>, c: seq<Symbol>)
    ensures a + (b + c) == (a + b) + c
  {
  }

  lemma DecodeStep(e: bool, b: Byte, s: seq<Byte>, t: seq<Byte>)
    requires Decode(EscapedAfter(e, b), s + t) == Decode(EscapedAfter(e, b), s) + Decode(Escaped(EscapedAfter(e, b), s), t)
    ensures Decode(e, [b] + (s + t)) == Decode(e, [b] + s) + Decode(Escaped(e, [b] + s), t)
  {
    var n := EscapedAfter(e, b);
    DecodeNext(e, b, s);
    DecodeNext(e, b, s + t);
    Associates(Symbols(e, b), Decode(n, s), Decode(Escaped(n, s), t));
  }

  lemma {:induction false} DecodeConcat(e: bool, s: seq<Byte>, t: seq<Byte>)
    ensures Escaped(e, s + t) == Escaped(Escaped(e, s), t)
    ensures Decode(e, s + t) == Decode(e, s) + Decode(Escaped(e, s), t)
    decreases |s|
  {
    EscapedConcat(e, s, t);
    if |s| == 0 {
      assert s + t == t;
    } else {
      DecodeConcat(EscapedAfter(e, s[0]), s[1..], t);
      DecodeStep(e, s[0], s[1..], t);
      assert s == [s[0]] + s[1..] && s + t == [s[0]] + (s[1..] + t);
    }
  }

  lemma DecodeOne(e: bool, b: Byte)
    ensures Escaped(e, [b]) == EscapedAfter(e, b) && Decode(e, [b]) == Symbols(e, b)
  {
  }

  lemma DecodeEscapedByte(b: Byte)
    ensures !Escaped(false, EscapeByte(b)) && Decode(false, EscapeByte(b)) == [Data(b)]
  {
    DecodeOne(false, b);
    DecodeOne(true, b);
    if b == ESCAPE || b == RESET {
      assert [ESCAPE, b][1..] == [b];
    }
  }

  lemma PlainFirst(d: seq<Byte>)
    requires |d| > 0
    ensures Plain(d) == [Data(d[0])] + Plain(d[1..])
  {
  }

  // Escaped data decodes to itself, with no reset, and leaves the decoder as it was.
  lemma {:induction false} DecodeEscape(d: seq<Byte>)
    ensures !Escaped(false, Escape(d)) && Decode(false, Escape(d)) == Plain(d)
    decreases |d|
  {
    if |d| == 0 {
    } else {
      var first, rest := EscapeByte(d[0]), Escape(d[1..]);
      DecodeEscape(d[1..]);
      DecodeEscapedByte(d[0]);
      DecodeConcat(false, first, rest);
      PlainFirst(d);
      assert Escape(d) == first + rest;
    }
  }

  lemma {:induction false} DataOfPlain(d: seq<Byte>)
    ensures DataOf(Plain(d)) == d
  {
    if |d| == 0 {
    } else {
      DataOfPlain(d[1..]);
      assert Plain(d)[1..] == Plain(d[1..]);
    }
  }

  lemma DataOfFirst(first: Symbol, rest: seq<Symbol>)
    ensures DataOf([first] + rest) == (if first.Data? then [first.b] else []) + DataOf(rest)
  {
    assert ([first] + rest)[1..] == rest;
  }

  lemma {:induction false} DataOfConcat(s: seq<Symbol>, t: seq<Symbol>)
    ensures DataOf(s + t) == DataOf(s) + DataOf(t)
    decreases |s|
  {
    if |s| == 0 {
      assert s + t == t;
    } else {
      DataOfConcat(s[1..], t);
      DataOfFirst(s[0], s[1..]);
      DataOfFirst(s[0], s[1..] + t);
      assert [s[0]] + s[1..] == s && [s[0]] + (s[1..] + t) == s + t;
    }
  }

  lemma {:induction false} EscapeAppend(d: seq<Byte>, b: Byte)
    ensures Escape(d + [b]) == Escape(d) + EscapeByte(b)
    decreases |d|
  {
    if |d| == 0 {
      assert d + [b] == [b] && [b][1..] == [];
    } else {
      EscapeAppend(d[1..], b);
      assert (d + [b])[1..] == d[1..] + [b];
    }
  }

  // s contains no reset symbol for a decoder in this state.
  predicate NoReset(escaping: bool, s: seq<Byte>)
    decreases |s|
  {
    |s| == 0 || ((s[0] == RESET ==> escaping) && NoReset(EscapedAfter(escaping, s[0]), s[1..]))
  }

  lemma DecodeFirst(escaping: bool, s: seq<Byte>)
    requires |s| > 0 && (s[0] == RESET ==> escaping)
    ensures var rest := DataOf(Decode(EscapedAfter(escaping, s[0]), s[1..]));
            DataOf(Decode(escaping, s)) == if !escaping && s[0] == ESCAPE then rest else [s[0]] + rest
  {
    var first, later := Symbols(escaping, s[0]), Decode(EscapedAfter(escaping, s[0]), s[1..]);
    if |first| == 0 {
      assert first + later == later;
    } else {
      assert (first + later)[1..] == later;
    }
  }

  lemma {:induction false} NoResetConcat(e: bool, s: seq<Byte>, t: seq<Byte>)
    requires NoReset(e, s) && NoReset(Escaped(e, s), t)
    ensures NoReset(e, s + t)
    decreases |s|
  {
    if |s| == 0 {
      assert s + t == t;
    } else {
      NoResetConcat(EscapedAfter(e, s[0]), s[1..], t);
      assert (s + t)[1..] == s[1..] + t;
    }
  }

  lemma {:induction false} NoResetEscape(d: seq<Byte>)
    ensures NoReset(false, Escape(d))
  {
    if |d| == 0 {
    } else {
      var first := EscapeByte(d[0]);
      NoResetEscape(d[1..]);
      DecodeEscapedByte(d[0]);
      assert NoReset(false, first) by {
        if |first| == 2 {
          assert first[1..] == [d[0]] && [d[0]][1..] == [];
        }
      }
      NoResetConcat(false, first, Escape(d[1..]));
    }
  }

  lemma TwoResets(e: bool)
    ensures !Escaped(e, [RESET, RESET])
    ensures Decode(e, [RESET, RESET]) == [if e then Data(RESET) else Reset, Reset]
  {
    DecodeOne(e, RESET);
    DecodeOne(false, RESET);
    DecodeConcat(e, [RESET], [RESET]);
    assert [RESET, RESET] == [RESET] + [RESET];
  }

  // The two symbols, and that only they are protected.
  lemma EscapedOnTheWire(b: Byte)
    ensures Escape([b]) == if b == 0x55 || b == 0xEE then [0x55, b] else [b]
    ensures Decode(false, [0xEE]) == [Reset] && Decode(false, [0x55]) == [] && Decode(true, [b]) == [Data(b)]
  {
    assert [b][1..] == [];
    DecodeOne(false, RESET);
    DecodeOne(false, ESCAPE);
    DecodeOne(true, b);
  }

  // Two reset symbols end in a reset and a decoder in step with the sender, whatever came
  // before; only a decoder in the middle of an escape sequence passes the first one as data.
  lemma TwoResetsResynchronize(e: bool, before: seq<Byte>, d: seq<Byte>)
    ensures Decode(e, before + ([RESET, RESET] + Escape(d)))
         == Decode(e, before) + ([if Escaped(e, before) then Data(RESET) else Reset, Reset] + Plain(d))
  {
    DecodeConcat(e, before, [RESET, RESET] + Escape(d));
    DecodeConcat(Escaped(e, before), [RESET, RESET], Escape(d));
    TwoResets(Escaped(e, before));
    DecodeEscape(d);
  }

  // ---- The stage for every schedule of its two handshakes ----

  datatype Edge = Edge(offered: bool, b: Byte, ready: bool)

  function StageRun(s: Stage, es: seq<Edge>): Stage
    decreases |es|
  {
    if |es| == 0 then s else StageRun(StageStep(s, es[0].offered, es[0].b, es[0].ready), es[1..])
  }

  // The bytes the stage takes.
  function Accepted(s: Stage, es: seq<Edge>): seq<Byte>
    decreases |es|
  {
    if |es| == 0 then []
    else
      var e := es[0];
      (if e.offered && InReady(s, e.ready) then [e.b] else []) + Accepted(StageStep(s, e.offered, e.b, e.ready), es[1..])
  }

  // An empty stage takes an offered byte whether the core is ready or not, and a full one
  // exactly when the core takes the byte in it.
  lemma TakesWhenEmptyOrPassedOn(s: Stage, b: Byte, ready: bool)
    ensures Accepted(s, [Edge(true, b, ready)]) == if s.valid && !ready then [] else [b]
  {
    assert [Edge(true, b, ready)][1..] == [];
  }

  function AllOffered(es: seq<Edge>): seq<Byte> {
    if |es| == 0 then [] else (if es[0].offered then [es[0].b] else []) + AllOffered(es[1..])
  }

  // So behind an empty stage, with a core that is ready whenever the stage holds a byte, every
  // byte is taken when it is offered.
  predicate PassedOn(s: Stage, es: seq<Edge>)
    decreases |es|
  {
    |es| > 0 ==> (s.valid ==> es[0].ready) && PassedOn(StageStep(s, es[0].offered, es[0].b, es[0].ready), es[1..])
  }

  lemma {:induction false} NoByteWaits(s: Stage, es: seq<Edge>)
    requires PassedOn(s, es)
    ensures Accepted(s, es) == AllOffered(es)
    decreases |es|
  {
    if |es| == 0 {
    } else {
      NoByteWaits(StageStep(s, es[0].offered, es[0].b, es[0].ready), es[1..]);
    }
  }

  // What the core behind sees at an edge: a byte that it takes, a reset.
  function SeenAt(s: Stage, ready: bool): seq<Symbol> {
    (if s.valid && ready then [Data(s.data)] else []) + (if s.reset then [Reset] else [])
  }

  function Seen(s: Stage, es: seq<Edge>): seq<Symbol>
    decreases |es|
  {
    if |es| == 0 then []
    else SeenAt(s, es[0].ready) + Seen(StageStep(s, es[0].offered, es[0].b, es[0].ready), es[1..])
  }

  function Pending(s: Stage): seq<Symbol> {
    (if s.valid then [Data(s.data)] else []) + (if s.reset then [Reset] else [])
  }

  lemma StageConserves(s: Stage, e: Edge)
    requires !(s.valid && s.reset)
    ensures var n := StageStep(s, e.offered, e.b, e.ready);
            && !(n.valid && n.reset)
            && (if e.offered && InReady(s, e.ready)
                then SeenAt(s, e.ready) + Pending(n) == Pending(s) + Symbols(s.escaping, e.b)
                     && n.escaping == (!s.escaping && e.b == ESCAPE)
                else SeenAt(s, e.ready) + Pending(n) == Pending(s) && n.escaping == s.escaping)
  {
  }

  lemma Regroup(seen: seq<Symbol>, later: seq<Symbol>, held: seq<Symbol>, between: seq<Symbol>, first: seq<Symbol>, rest: seq<Symbol>)
    requires seen + between == first && later + held == between + rest
    ensures (seen + later) + held == first + rest
  {
    assert (seen + later) + held == seen + (later + held);
    assert seen + (between + rest) == (seen + between) + rest;
  }

  predicate Conserved(s: Stage, n: Stage, seen: seq<Symbol>, accepted: seq<Byte>) {
    && !(n.valid && n.reset)
    && seen + Pending(n) == Pending(s) + Decode(s.escaping, accepted)
    && n.escaping == Escaped(s.escaping, accepted)
  }

  lemma ConservedTaking(s: Stage, e: Edge, n: Stage, seen: seq<Symbol>, accepted: seq<Byte>)
    requires !(s.valid && s.reset) && e.offered && InReady(s, e.ready)
    requires Conserved(StageStep(s, e.offered, e.b, e.ready), n, seen, accepted)
    ensures Conserved(s, n, SeenAt(s, e.ready) + seen, [e.b] + accepted)
  {
    var m := StageStep(s, e.offered, e.b, e.ready);
    StageConserves(s, e);
    DecodeNext(s.escaping, e.b, accepted);
    assert ([e.b] + accepted)[1..] == accepted;
    var meant := Symbols(s.escaping, e.b);
    Regroup(SeenAt(s, e.ready), seen, Pending(n), Pending(m), Pending(s) + meant, Decode(m.escaping, accepted));
  }

  lemma ConservedWaiting(s: Stage, e: Edge, n: Stage, seen: seq<Symbol>, accepted: seq<Byte>)
    requires !(s.valid && s.reset) && !(e.offered && InReady(s, e.ready))
    requires Conserved(StageStep(s, e.offered, e.b, e.ready), n, seen, accepted)
    ensures Conserved(s, n, SeenAt(s, e.ready) + seen, accepted)
  {
    StageConserves(s, e);
    Regroup(SeenAt(s, e.ready), seen, Pending(n), Pending(StageStep(s, e.offered, e.b, e.ready)), Pending(s),
            Decode(s.escaping, accepted));
  }

  // Nothing is lost, duplicated or reordered: what the core has seen and what the stage still
  // holds is what the accepted bytes mean. A reset symbol is a symbol of its own in that
  // stream, so it never takes the place of an earlier byte.
  lemma {:induction false} StageDecodes(s: Stage, es: seq<Edge>)
    requires !(s.valid && s.reset)
    ensures Conserved(s, StageRun(s, es), Seen(s, es), Accepted(s, es))
    decreases |es|
  {
    if |es| == 0 {
    } else {
      var e := es[0];
      var m := StageStep(s, e.offered, e.b, e.ready);
      StageConserves(s, e);
      StageDecodes(m, es[1..]);
      if e.offered && InReady(s, e.ready) {
        ConservedTaking(s, e, StageRun(m, es[1..]), Seen(m, es[1..]), Accepted(m, es[1..]));
      } else {
        ConservedWaiting(s, e, StageRun(m, es[1..]), Seen(m, es[1..]), Accepted(m, es[1..]));
        assert [] + Accepted(m, es[1..]) == Accepted(m, es[1..]);
      }
    }
  }

  // End to end: data the sender escapes arrives unchanged and without a reset.
  lemma EscapedDataArrives(s: Stage, es: seq<Edge>, d: seq<Byte>)
    requires !s.escaping && !s.valid && !s.reset && Accepted(s, es) == Escape(d)
    ensures Seen(s, es) + Pending(StageRun(s, es)) == Plain(d)
  {
    StageDecodes(s, es);
    DecodeEscape(d);
  }
}
