// JtagCdc, the data register in the JTAG clock domain, and the synchronizer that
// brings the update request to clk. The length of the register is a parameter; bit 0
// is shifted first, the last two bits are xoff and valid.
module JtagScan {

  // One edge of DRCLK: Capture-DR, Shift-DR with a bit from the host, or any other.
  datatype DrEdge = Capture(load: seq<bool>) | Shift(tdi: bool) | Other

  datatype DataRegister = DataRegister(
    dr: seq<bool>, counter: nat,
    xoffCe: bool, validCe: bool, xoffSent: bool, validSent: bool)

  function DrStep(r: DataRegister, e: DrEdge): (n: DataRegister)
    requires |r.dr| > 0
    ensures !e.Capture? ==> |n.dr| == |r.dr|
  {
    var xoff := if r.xoffCe then r.dr[0] else r.xoffSent;
    var valid := if r.validCe then r.dr[0] else r.validSent;
    match e
    case Capture(load) => DataRegister(load, |r.dr|, false, false, xoff, valid)
    case Shift(tdi) =>
      DataRegister(r.dr[1..] + [tdi], if r.counter != 0 then r.counter - 1 else 0,
                   r.counter == 3, r.counter == 2, xoff, valid)
    case Other => r.(xoffCe := false, validCe := false, xoffSent := xoff, validSent := valid)
  }

  // jtag_dr with TDI_HAS_EXT_REGISTER = false; the flip-flops of the shift register are an array.
  class JtagDr {
    const dr: array<bool>
    var counter: nat
    var xoffCe: bool
    var validCe: bool
    var xoffSent: bool
    var validSent: bool

    function State(): DataRegister
      reads this, dr
    {
      DataRegister(dr[..], counter, xoffCe, validCe, xoffSent, validSent)
    }

    constructor (power: DataRegister)
      ensures State() == power && fresh(dr)
    {
      dr := new bool[|power.dr|](i requires 0 <= i < |power.dr| => power.dr[i]);
      counter, xoffCe, validCe, xoffSent, validSent := power.counter, power.xoffCe, power.validCe, power.xoffSent, power.validSent;
      new;
      assert dr[..] == power.dr;
    }

    // The processes run on the registers before the edge: the latches of the xoff and the valid
    // bit first, then the counter, then the shift register.
    method Edge(e: DrEdge)
      requires dr.Length > 0 && (e.Capture? ==> |e.load| == dr.Length)
      modifies this, dr
      ensures State() == DrStep(old(State()), e)
    {
      if xoffCe {
        xoffSent := dr[0];
      }
      if validCe {
        validSent := dr[0];
      }
      xoffCe, validCe := false, false;
      match e {
        case Capture(load) => counter := dr.Length;
        case Shift(_) =>
          xoffCe, validCe := counter == 3, counter == 2;
          if counter != 0 {
            counter := counter - 1;
          }
        case Other =>
      }
      ShiftRegister(e);
    }

    // Flip-flop i loads bit i, or takes its neighbour; the last one takes TDI.
    method ShiftRegister(e: DrEdge)
      requires dr.Length > 0 && (e.Capture? ==> |e.load| == dr.Length)
      modifies dr
      ensures dr[..] == match e case Capture(load) => load case Shift(tdi) => old(dr[..])[1..] + [tdi] case Other => old(dr[..])
    {
      if e.Other? {
        return;
      }
      for i := 0 to dr.Length
        invariant forall k :: i <= k < dr.Length ==> dr[k] == old(dr[k])
        invariant forall k :: 0 <= k < i ==>
                    dr[k] == if e.Capture? then e.load[k] else if k + 1 < dr.Length then old(dr[k + 1]) else e.tdi
      {
        if e.Capture? {
          dr[i] := e.load[i];
        } else if i + 1 < dr.Length {
          dr[i] := dr[i + 1];
        } else {
          dr[i] := e.tdi;
        }
      }
    }
  }

  // The bits the host shifts in, and the edges between which the scan may pause.
  function Bits(es: seq<DrEdge>): seq<bool> {
    if |es| == 0 then []
    else (if es[0].Shift? then [es[0].tdi] else []) + Bits(es[1..])
  }

  predicate NoCapture(es: seq<DrEdge>) { forall i :: 0 <= i < |es| ==> !es[i].Capture? }

  function AfterScan(r: DataRegister, es: seq<DrEdge>): (f: DataRegister)
    requires |r.dr| > 0 && NoCapture(es)
    ensures |f.dr| == |r.dr|
    decreases |es|
  {
    if |es| == 0 then r else AfterScan(DrStep(r, es[0]), es[1..])
  }

  // The bits the host sees at TDO while it shifts.
  function TdoBits(r: DataRegister, es: seq<DrEdge>): seq<bool>
    requires |r.dr| > 0 && NoCapture(es)
    decreases |es|
  {
    if |es| == 0 then []
    else (if es[0].Shift? then [r.dr[0]] else []) + TdoBits(DrStep(r, es[0]), es[1..])
  }

  // After k of the n shifts of a scan that loaded these bits.
  predicate MidScan(r: DataRegister, load: seq<bool>, shifted: seq<bool>) {
    var n := |load|;
    var k := |shifted|;
    && n >= 3 && k <= n
    && r.dr == load[k..] + shifted
    && r.counter == n - k
    && (r.validCe ==> k == n - 1) && (r.xoffCe ==> k == n - 2)
    && (k == n - 1 ==> r.validCe || r.validSent == load[n - 1])
    && (k == n ==> r.validSent == load[n - 1])
    && (k == n - 2 ==> r.xoffCe || r.xoffSent == load[n - 2])
    && (k > n - 2 ==> r.xoffSent == load[n - 2])
  }

  lemma MidScanStep(r: DataRegister, load: seq<bool>, shifted: seq<bool>, e: DrEdge)
    requires MidScan(r, load, shifted) && !e.Capture?
    requires e.Shift? ==> |shifted| < |load|
    ensures MidScan(DrStep(r, e), load, shifted + Bits([e]))
    ensures e.Shift? ==> r.dr[0] == load[|shifted|]
  {
    assert Bits([e]) == if e.Shift? then [e.tdi] else [];
    if e.Shift? {
      assert r.dr[1..] + [e.tdi] == load[|shifted| + 1..] + (shifted + [e.tdi]);
    } else {
      assert shifted + [] == shifted;
    }
  }

  lemma ScanFirst(r: DataRegister, e: DrEdge, rest: seq<DrEdge>)
    requires |r.dr| > 1 && NoCapture([e] + rest) && NoCapture(rest)
    ensures AfterScan(r, [e] + rest) == AfterScan(DrStep(r, e), rest)
    ensures TdoBits(r, [e] + rest) == (if e.Shift? then [r.dr[0]] else []) + TdoBits(DrStep(r, e), rest)
    ensures Bits([e] + rest) == Bits([e]) + Bits(rest)
  {
    assert ([e] + rest)[1..] == rest && [e][1..] == [];
  }

  lemma {:induction false} ScanFrom(r: DataRegister, load: seq<bool>, shifted: seq<bool>, es: seq<DrEdge>)
    requires MidScan(r, load, shifted) && NoCapture(es)
    requires |shifted| + |Bits(es)| == |load|
    ensures MidScan(AfterScan(r, es), load, shifted + Bits(es))
    ensures TdoBits(r, es) == load[|shifted|..]
    decreases |es|
  {
    if |es| == 0 {
      assert shifted + [] == shifted;
    } else {
      var e, rest := es[0], es[1..];
      assert es == [e] + rest;
      ScanFirst(r, e, rest);
      MidScanStep(r, load, shifted, e);
      ScanFrom(DrStep(r, e), load, shifted + Bits([e]), rest);
      assert (shifted + Bits([e])) + Bits(rest) == shifted + Bits(es);
      if e.Shift? {
        assert load[|shifted|..] == [load[|shifted|]] + load[|shifted| + 1..];
      }
    }
  }

  // A scan exchanges two words, whatever the length of the register and however often
  // it pauses: the hub gets the host's word, the host gets the captured one, bit 0
  // first, and the latched sent bits are the captured xoff and valid bits.
  lemma ScanExchange(r: DataRegister, load: seq<bool>, es: seq<DrEdge>)
    requires |load| == |r.dr| >= 3 && NoCapture(es) && |Bits(es)| == |load|
    ensures var c := DrStep(r, Capture(load));
            var f := AfterScan(c, es);
            && f.dr == Bits(es) && TdoBits(c, es) == load
            && f.validSent == load[|load| - 1] && f.xoffSent == load[|load| - 2]
  {
    ScanFrom(DrStep(r, Capture(load)), load, [], es);
    assert [] + Bits(es) == Bits(es);
  }

  // ---- TDI_HAS_EXT_REGISTER ----

  // TDI passes one more flip-flop outside; the first shift after a capture takes the
  // last local flip-flop, later ones take TDI, and the valid bit is taken from TDI at
  // the edge after the last shift.
  datatype ExtRegister = ExtRegister(core: DataRegister, tdi: bool, skipFirst: bool, shiftBefore: bool, valid: bool)

  function ExtStep(x: ExtRegister, e: DrEdge, tdi: bool): (n: ExtRegister)
    requires |x.core.dr| > 1
    ensures !e.Capture? ==> |n.core.dr| == |x.core.dr|
  {
    var n := |x.core.dr|;
    var c := DrStep(x.core, match e case Shift(_) => Shift(x.tdi) case Capture(l) => Capture(l) case Other => Other);
    ExtRegister(
      if e.Shift? && x.skipFirst then c.(dr := x.core.dr[1..n - 1] + [x.tdi, x.tdi]) else c,
      tdi,
      if e.Capture? then false else if e.Shift? then true else x.skipFirst,
      e.Shift?,
      if !e.Shift? && x.shiftBefore then x.tdi else x.valid)
  }

  // An edge between Capture-DR and the end of the scan, with the level of TDI.
  datatype ExtEdge = ExtEdge(shift: bool, tdi: bool)

  function ExtNext(x: ExtRegister, e: ExtEdge): (n: ExtRegister)
    requires |x.core.dr| > 1
    ensures |n.core.dr| == |x.core.dr|
  {
    ExtStep(x, if e.shift then Shift(e.tdi) else Other, e.tdi)
  }

  function AfterExtScan(x: ExtRegister, es: seq<ExtEdge>): (f: ExtRegister)
    requires |x.core.dr| > 1
    ensures |f.core.dr| == |x.core.dr|
    decreases |es|
  {
    if |es| == 0 then x else AfterExtScan(ExtNext(x, es[0]), es[1..])
  }

  function ExtTdoBits(x: ExtRegister, es: seq<ExtEdge>): seq<bool>
    requires |x.core.dr| > 1
    decreases |es|
  {
    if |es| == 0 then []
    else (if es[0].shift then [x.core.dr[0]] else []) + ExtTdoBits(ExtNext(x, es[0]), es[1..])
  }

  // The bits the host shifts in.
  function ShiftedIn(es: seq<ExtEdge>): seq<bool> {
    if |es| == 0 then [] else (if es[0].shift then [es[0].tdi] else []) + ShiftedIn(es[1..])
  }

  // What TDI was one edge before each shift; before is its level before all of them.
  function EdgeBefore(before: bool, es: seq<ExtEdge>): (s: seq<bool>)
    ensures |s| == |ShiftedIn(es)|
    decreases |es|
  {
    if |es| == 0 then [] else (if es[0].shift then [before] else []) + EdgeBefore(es[0].tdi, es[1..])
  }

  // seen: what the flip-flop outside held at each shift so far.
  predicate MidExtScan(x: ExtRegister, load: seq<bool>, shifted: seq<bool>, seen: seq<bool>) {
    var n := |load|;
    var k := |shifted|;
    && n >= 3 && k <= n && |x.core.dr| == n && |seen| == k
    && (k == 0 ==> x.core.dr == load)
    && (forall i :: 0 <= i < n - 1 ==> x.core.dr[i] == if i + k < n then load[i + k] else seen[i + k - n + 1])
    && x.core.counter == n - k && x.skipFirst == (k > 0)
    && (x.shiftBefore ==> k > 0 && x.tdi == shifted[k - 1])
    && (!x.shiftBefore && k > 0 ==> x.valid == shifted[k - 1])
    && MidSent(x.core, load, k)
  }

  predicate MidSent(r: DataRegister, load: seq<bool>, k: nat)
    requires |load| >= 3
  {
    var n := |load|;
    && (r.validCe ==> k == n - 1) && (r.xoffCe ==> k == n - 2)
    && (k == n - 1 ==> r.validCe || r.validSent == load[n - 1])
    && (k == n ==> r.validSent == load[n - 1])
    && (k == n - 2 ==> r.xoffCe || r.xoffSent == load[n - 2])
    && (k > n - 2 ==> r.xoffSent == load[n - 2])
  }

  lemma MidExtStep(x: ExtRegister, load: seq<bool>, shifted: seq<bool>, seen: seq<bool>, e: ExtEdge)
    requires MidExtScan(x, load, shifted, seen) && (e.shift ==> |shifted| < |load|)
    ensures if e.shift then MidExtScan(ExtNext(x, e), load, shifted + [e.tdi], seen + [x.tdi]) && x.core.dr[0] == load[|shifted|]
            else MidExtScan(ExtNext(x, e), load, shifted, seen)
    ensures ExtNext(x, e).tdi == e.tdi
  {
  }

  lemma ExtFirst(x: ExtRegister, before: bool, e: ExtEdge, rest: seq<ExtEdge>)
    requires |x.core.dr| > 1
    ensures AfterExtScan(x, [e] + rest) == AfterExtScan(ExtNext(x, e), rest)
    ensures ExtTdoBits(x, [e] + rest) == (if e.shift then [x.core.dr[0]] else []) + ExtTdoBits(ExtNext(x, e), rest)
    ensures ShiftedIn([e] + rest) == (if e.shift then [e.tdi] else []) + ShiftedIn(rest)
    ensures EdgeBefore(before, [e] + rest) == (if e.shift then [before] else []) + EdgeBefore(e.tdi, rest)
  {
    assert ([e] + rest)[1..] == rest;
  }

  lemma Grown(s: seq<bool>, b: bool, rest: seq<bool>)
    ensures (s + [b]) + rest == s + ([b] + rest)
  {
  }

  lemma {:induction false} ExtScanFrom(x: ExtRegister, load: seq<bool>, shifted: seq<bool>, seen: seq<bool>, es: seq<ExtEdge>,
                                       allShifted: seq<bool>, allSeen: seq<bool>)
    requires MidExtScan(x, load, shifted, seen) && |shifted| + |ShiftedIn(es)| == |load|
    requires allShifted == shifted + ShiftedIn(es) && allSeen == seen + EdgeBefore(x.tdi, es)
    ensures MidExtScan(AfterExtScan(x, es), load, allShifted, allSeen)
    decreases |es|
  {
    if |es| == 0 {
      assert allShifted == shifted && allSeen == seen;
    } else {
      var e, rest := es[0], es[1..];
      assert es == [e] + rest;
      ExtFirst(x, x.tdi, e, rest);
      MidExtStep(x, load, shifted, seen, e);
      if e.shift {
        Grown(shifted, e.tdi, ShiftedIn(rest));
        Grown(seen, x.tdi, EdgeBefore(e.tdi, rest));
        ExtScanFrom(ExtNext(x, e), load, shifted + [e.tdi], seen + [x.tdi], rest, allShifted, allSeen);
      } else {
        ExtScanFrom(ExtNext(x, e), load, shifted, seen, rest, allShifted, allSeen);
      }
    }
  }

  lemma {:induction false} ExtScanOut(x: ExtRegister, load: seq<bool>, shifted: seq<bool>, seen: seq<bool>, es: seq<ExtEdge>)
    requires MidExtScan(x, load, shifted, seen) && |shifted| + |ShiftedIn(es)| == |load|
    ensures ExtTdoBits(x, es) == load[|shifted|..]
    decreases |es|
  {
    if |es| == 0 {
    } else {
      var e, rest := es[0], es[1..];
      assert es == [e] + rest;
      ExtFirst(x, x.tdi, e, rest);
      MidExtStep(x, load, shifted, seen, e);
      if e.shift {
        ExtScanOut(ExtNext(x, e), load, shifted + [e.tdi], seen + [x.tdi], rest);
        assert load[|shifted|..] == [load[|shifted|]] + load[|shifted + [e.tdi]|..];
      } else {
        ExtScanOut(ExtNext(x, e), load, shifted, seen, rest);
      }
    }
  }

  // The word that a scan with the flip-flop outside delivers.
  function ToHub(g: ExtRegister): seq<bool>
    requires |g.core.dr| > 0
  {
    g.core.dr[..|g.core.dr| - 1] + [g.valid]
  }

  lemma ExtExit(f: ExtRegister, tdo: seq<bool>, load: seq<bool>, bits: seq<bool>, seen: seq<bool>, tdi: bool)
    requires MidExtScan(f, load, bits, seen) && |bits| == |load| && tdo == load
    ensures Delivers(f, tdo, load, bits, seen, tdi)
  {
    assert f.core.dr[..|bits| - 1] == seen[1..];
  }

  lemma ExtCaptured(x: ExtRegister, load: seq<bool>, tdi: bool)
    requires |load| == |x.core.dr| >= 3 && !x.shiftBefore
    ensures MidExtScan(ExtStep(x, Capture(load), tdi), load, [], [])
  {
  }

  // The level of TDI at the edge in front of a shift is the bit shifted last: true without a
  // pause, and with a pause if its last edge still has the bit. first: nothing shifted yet.
  predicate Held(first: bool, bit: bool, before: bool, es: seq<ExtEdge>)
    decreases |es|
  {
    if |es| == 0 then true
    else if es[0].shift then (first || before == bit) && Held(false, es[0].tdi, es[0].tdi, es[1..])
    else Held(first, bit, es[0].tdi, es[1..])
  }

  predicate Matches(first: bool, bit: bool, seen: seq<bool>, bits: seq<bool>)
    requires |seen| == |bits|
  {
    |bits| == 0 || ((first || seen[0] == bit) && seen[1..] == bits[..|bits| - 1])
  }

  lemma MatchesFirst(first: bool, bit: bool, before: bool, tdi: bool, seen: seq<bool>, bits: seq<bool>)
    requires |seen| == |bits|
    ensures Matches(first, bit, [before] + seen, [tdi] + bits) <==> (first || before == bit) && Matches(false, tdi, seen, bits)
  {
    assert ([before] + seen)[1..] == seen;
    if |bits| > 0 {
      assert ([tdi] + bits)[..|bits|] == [tdi] + bits[..|bits| - 1] && seen == [seen[0]] + seen[1..];
    }
  }

  lemma {:induction false} HeldExactly(first: bool, bit: bool, before: bool, es: seq<ExtEdge>)
    ensures Held(first, bit, before, es) <==> Matches(first, bit, EdgeBefore(before, es), ShiftedIn(es))
    decreases |es|
  {
    if |es| == 0 {
    } else if es[0].shift {
      HeldExactly(false, es[0].tdi, es[0].tdi, es[1..]);
      MatchesFirst(first, bit, before, es[0].tdi, EdgeBefore(es[0].tdi, es[1..]), ShiftedIn(es[1..]));
    } else {
      HeldExactly(first, bit, es[0].tdi, es[1..]);
      assert ShiftedIn(es) == ShiftedIn(es[1..]) && EdgeBefore(before, es) == EdgeBefore(es[0].tdi, es[1..]);
    }
  }

  // However often the scan pauses, the host gets the captured word and the sent bits are
  // latched; the hub gets the host's word exactly if TDI still has the last bit at the edge in
  // front of every further shift. Without a pause it has (NoPauseHolds).
  lemma ExtScanExchange(x: ExtRegister, load: seq<bool>, es: seq<ExtEdge>, tdiBefore: bool, tdiAfter: bool)
    requires |load| == |x.core.dr| == |ShiftedIn(es)| >= 3 && !x.shiftBefore
    ensures var c := ExtStep(x, Capture(load), tdiBefore);
            var g := ExtStep(AfterExtScan(c, es), Other, tdiAfter);
            && (ToHub(g) == ShiftedIn(es) <==> Held(true, false, tdiBefore, es))
            && ExtTdoBits(c, es) == load
            && g.core.validSent == load[|load| - 1] && g.core.xoffSent == load[|load| - 2]
  {
    var c, bits := ExtStep(x, Capture(load), tdiBefore), ShiftedIn(es);
    ExtScanDelivers(x, load, es, tdiBefore, tdiAfter);
    HeldExactly(true, false, tdiBefore, es);
    LastSplits(bits, EdgeBefore(tdiBefore, es)[1..]);
  }

  // What hub and host get from a scan that ends in f.
  predicate Delivers(f: ExtRegister, tdo: seq<bool>, load: seq<bool>, bits: seq<bool>, seen: seq<bool>, tdiAfter: bool) {
    var n := |load|;
    && |f.core.dr| == n == |bits| == |seen| >= 3 && tdo == load
    && (var g := ExtStep(f, Other, tdiAfter);
        ToHub(g) == seen[1..] + [bits[n - 1]] && g.core.validSent == load[n - 1] && g.core.xoffSent == load[n - 2])
  }

  lemma ExtScanFromCaptured(c: ExtRegister, load: seq<bool>, es: seq<ExtEdge>, tdiAfter: bool)
    requires MidExtScan(c, load, [], []) && |ShiftedIn(es)| == |load|
    ensures Delivers(AfterExtScan(c, es), ExtTdoBits(c, es), load, ShiftedIn(es), EdgeBefore(c.tdi, es), tdiAfter)
  {
    ExtScanWhole(c, load, es);
    ExtExit(AfterExtScan(c, es), ExtTdoBits(c, es), load, ShiftedIn(es), EdgeBefore(c.tdi, es), tdiAfter);
  }

  lemma ExtScanDelivers(x: ExtRegister, load: seq<bool>, es: seq<ExtEdge>, tdiBefore: bool, tdiAfter: bool)
    requires |load| == |x.core.dr| == |ShiftedIn(es)| >= 3 && !x.shiftBefore
    ensures var c := ExtStep(x, Capture(load), tdiBefore);
            |c.core.dr| > 1 && Delivers(AfterExtScan(c, es), ExtTdoBits(c, es), load, ShiftedIn(es), EdgeBefore(tdiBefore, es), tdiAfter)
  {
    ExtCaptured(x, load, tdiBefore);
    ExtScanFromCaptured(ExtStep(x, Capture(load), tdiBefore), load, es, tdiAfter);
  }

  lemma ExtScanWhole(c: ExtRegister, load: seq<bool>, es: seq<ExtEdge>)
    requires MidExtScan(c, load, [], []) && |ShiftedIn(es)| == |load|
    ensures MidExtScan(AfterExtScan(c, es), load, ShiftedIn(es), EdgeBefore(c.tdi, es)) && ExtTdoBits(c, es) == load
  {
    assert ShiftedIn(es) == [] + ShiftedIn(es) && EdgeBefore(c.tdi, es) == [] + EdgeBefore(c.tdi, es) && load[0..] == load;
    ExtScanFrom(c, load, [], [], es, ShiftedIn(es), EdgeBefore(c.tdi, es));
    ExtScanOut(c, load, [], [], es);
  }

  lemma LastSplits(bits: seq<bool>, front: seq<bool>)
    requires |bits| > 0 && |front| == |bits| - 1
    ensures front + [bits[|bits| - 1]] == bits <==> front == bits[..|bits| - 1]
  {
    assert bits == bits[..|bits| - 1] + [bits[|bits| - 1]];
    assert (front + [bits[|bits| - 1]])[..|bits| - 1] == front;
  }

  lemma {:induction false} NoPauseHolds(first: bool, bit: bool, before: bool, es: seq<ExtEdge>)
    requires (first || before == bit) && forall i :: 0 <= i < |es| ==> es[i].shift
    ensures Held(first, bit, before, es)
    decreases |es|
  {
    if |es| == 0 {
    } else {
      NoPauseHolds(false, es[0].tdi, es[0].tdi, es[1..]);
    }
  }

  // One pause with another level of TDI is enough to lose a bit.
  lemma PauseLosesABit(x: ExtRegister, load: seq<bool>, b0: bool, b1: bool, b2: bool, tdi: bool)
    requires |load| == |x.core.dr| == 3 && !x.shiftBefore
    ensures var es := [ExtEdge(true, b0), ExtEdge(false, !b0), ExtEdge(true, b1), ExtEdge(true, b2)];
            ToHub(ExtStep(AfterExtScan(ExtStep(x, Capture(load), tdi), es), Other, tdi)) == [!b0, b1, b2]
  {
    PausedBits(b0, b1, b2, tdi);
    ExtScanDelivers(x, load, [ExtEdge(true, b0), ExtEdge(false, !b0), ExtEdge(true, b1), ExtEdge(true, b2)], tdi, tdi);
  }

  lemma PausedBits(b0: bool, b1: bool, b2: bool, tdi: bool)
    ensures var es := [ExtEdge(true, b0), ExtEdge(false, !b0), ExtEdge(true, b1), ExtEdge(true, b2)];
            ShiftedIn(es) == [b0, b1, b2] && EdgeBefore(tdi, es) == [tdi, !b0, b1]
  {
    var d, c, b, a := ExtEdge(true, b2), ExtEdge(true, b1), ExtEdge(false, !b0), ExtEdge(true, b0);
    OneMore(b1, d, []);
    OneMore(!b0, c, [d]);
    OneMore(b0, b, [c, d]);
    OneMore(tdi, a, [b, c, d]);
    assert [c] + [d] == [c, d] && [b] + [c, d] == [b, c, d] && [a] + [b, c, d] == [a, b, c, d];
    assert [d] + [] == [d];
  }

  lemma OneMore(before: bool, e: ExtEdge, rest: seq<ExtEdge>)
    ensures ShiftedIn([e] + rest) == (if e.shift then [e.tdi] else []) + ShiftedIn(rest)
    ensures EdgeBefore(before, [e] + rest) == (if e.shift then [before] else []) + EdgeBefore(e.tdi, rest)
  {
    assert ([e] + rest)[1..] == rest;
  }

  // ---- The update request ----

  datatype Synchronizer = Synchronizer(mff: seq<bool>, previous: bool, enable: bool, doUpdate: bool)

  function Synced(s: Synchronizer, level: bool): bool {
    if |s.mff| == 0 then level else s.mff[|s.mff| - 1]
  }

  // The synchronized request rises at this edge of clk.
  predicate Rises(s: Synchronizer, level: bool) { Synced(s, level) && !s.previous }

  function SyncStep(s: Synchronizer, level: bool): Synchronizer {
    Synchronizer(
      if |s.mff| == 0 then [] else [level] + s.mff[..|s.mff| - 1],
      Synced(s, level), Rises(s, level), s.enable)
  }

  function SyncAll(s: Synchronizer, levels: seq<bool>): Synchronizer {
    if |levels| == 0 then s else SyncStep(SyncAll(s, levels[..|levels| - 1]), levels[|levels| - 1])
  }

  // The level of the request at the i-th edge, '0' before the first.
  predicate At(levels: seq<bool>, i: int) { 0 <= i < |levels| && levels[i] }

  predicate Started(levels: seq<bool>, i: int) { At(levels, i) && !At(levels, i - 1) }

  function Quiet(length: nat): Synchronizer {
    Synchronizer(seq(length, _ => false), false, false, false)
  }

  // Stage k holds the level of k edges before.
  predicate Stages(mff: seq<bool>, levels: seq<bool>) {
    forall k :: 0 <= k < |mff| ==> mff[k] == At(levels, |levels| - 1 - k)
  }

  predicate Chained(s: Synchronizer, length: nat, levels: seq<bool>) {
    var t := |levels|;
    && |s.mff| == length && Stages(s.mff, levels)
    && s.previous == At(levels, t - 1 - length)
    && s.enable == Started(levels, t - 1 - length)
    && s.doUpdate == Started(levels, t - 2 - length)
  }

  lemma StagesStep(mff: seq<bool>, levels: seq<bool>, level: bool)
    requires |mff| > 0 && Stages(mff, levels)
    ensures Stages([level] + mff[..|mff| - 1], levels + [level])
  {
    var next := [level] + mff[..|mff| - 1];
    forall k | 0 <= k < |mff| ensures next[k] == At(levels + [level], |levels| - k) {
      AtAppend(levels, level, |levels| - k);
    }
  }

  lemma LastStage(mff: seq<bool>, levels: seq<bool>)
    requires |mff| > 0 && Stages(mff, levels)
    ensures mff[|mff| - 1] == At(levels, |levels| - |mff|)
  {
  }

  lemma AtAppend(levels: seq<bool>, level: bool, i: int)
    requires i <= |levels|
    ensures At(levels + [level], i) == if i == |levels| then level else At(levels, i)
  {
  }

  lemma StartedAppend(levels: seq<bool>, level: bool, i: int)
    requires i < |levels|
    ensures Started(levels + [level], i) == Started(levels, i)
  {
    AtAppend(levels, level, i);
    AtAppend(levels, level, i - 1);
  }

  lemma SyncedIs(s: Synchronizer, levels: seq<bool>, level: bool, i: int)
    requires Stages(s.mff, levels) && i == |levels| - |s.mff|
    ensures Synced(s, level) == At(levels + [level], i)
  {
    AtAppend(levels, level, i);
    if |s.mff| > 0 {
      LastStage(s.mff, levels);
    }
  }

  lemma ChainStep(s: Synchronizer, length: nat, levels: seq<bool>, level: bool)
    requires Chained(s, length, levels)
    ensures Chained(SyncStep(s, level), length, levels + [level])
  {
    var i := |levels| - length;
    SyncedIs(s, levels, level, i);
    AtAppend(levels, level, i - 1);
    StartedAppend(levels, level, i - 1);
    if length > 0 {
      StagesStep(s.mff, levels, level);
    }
  }

  // A chain of any length delays the level by its length.
  lemma {:induction false} ChainHolds(length: nat, levels: seq<bool>)
    ensures Chained(SyncAll(Quiet(length), levels), length, levels)
    decreases |levels|
  {
    if |levels| == 0 {
    } else {
      var k := |levels| - 1;
      ChainHolds(length, levels[..k]);
      ChainStep(SyncAll(Quiet(length), levels[..k]), length, levels[..k], levels[k]);
      assert levels[..k] + [levels[k]] == levels;
    }
  }

  // Each rise of the update request, however long it lasts and whatever MFF_LENGTH is,
  // gives exactly one edge with dwn_enable and one with dwn_do_update right after it,
  // MFF_LENGTH + 1 and MFF_LENGTH + 2 edges after the first edge that sees it.
  lemma OneUpdatePerRequest(length: nat, levels: seq<bool>, t: nat)
    requires t < |levels|
    ensures var s := SyncAll(Quiet(length), levels[..t]);
            && Rises(s, levels[t]) == Started(levels, t - length)
            && s.enable == Started(levels, t - 1 - length)
            && s.doUpdate == Started(levels, t - 2 - length)
  {
    ChainHolds(length, levels[..t]);
    assert forall i :: i < t ==> At(levels[..t], i) == At(levels, i);
  }
}
