// The clocked processes of JtagCdc, clk side, one method per process; each reads the
// registers as they were before the edge (h) and the last assignment wins.
module JtagCdc {
  import opened JtagHub

  class ClkSide {
    const fc: Flags
    var regs: Hub

    constructor (flowControl: Flags, power: Hub)
      ensures fc == flowControl && regs == power
    {
      fc := flowControl;
      regs := power;
    }

    // All processes run on the registers before the edge, then all registers are loaded.
    method Edge(p: Pins, request: bool, dr: Dr)
      modifies this
      ensures regs == HubStep(fc, old(regs), p, request, dr)
    {
      regs := Processes(regs, p, request, dr);
    }

    method Processes(h: Hub, p: Pins, request: bool, dr: Dr) returns (n: Hub)
      ensures n == HubStep(fc, h, p, request, dr)
    {
      n := h.(enable := request, doUpdate := h.enable, common := h.xfer.data);
      if h.enable {
        n := n.(xfer := dr.word, xoffSent := dr.xoff, validSent := dr.valid);
      }
      var clear := InternalOutput(h);
      var channels := OutputStages(h, p);
      var sel, xoff, hostSet := XoffLogic(h);
      var states := XoffStates(h);
      var empty, slots := InputBuffering(h, p);
      var arbiter := Arbitrate(h, p);
      n := n.(clear := clear, channels := channels, xoffSel := sel, upXoff := xoff, xoffHostSet := hostSet,
              xoffState := states, empty := empty, slots := slots, arbiter := arbiter);
    }

    method InternalOutput(h: Hub) returns (c: bool)
      ensures c == Selects(h, HUB)
    {
      c := false;
      if h.doUpdate {
        if h.xfer.valid && h.xfer.func == HUB {
          c := true;
        }
      }
    }

    // One flow-controlled output stage.
    static method Stage(c: Channel, clear: bool, select: bool, ready: bool, common: Octet, any: Octet) returns (n: Channel)
      ensures n == FlowControlledStep(c, clear, select, ready, common, any)
    {
      n := c.(selected := false);
      if clear {
        n := n.(valid := false, o0 := false, o1 := false, o2 := false);
      } else {
        if select {
          n := n.(selected := true);
        }
        var canWrite := ready || !c.valid;
        if canWrite {
          n := n.(local := c.b0, b0 := c.b1, b1 := c.b2, b2 := any);
          n := n.(valid := c.o0, o0 := c.o1, o1 := c.o2, o2 := false);
        }
        if c.selected {
          if !c.o0 && canWrite {
            n := n.(local := common, valid := true);
          } else if !c.o0 || (!c.o1 && canWrite) {
            n := n.(b0 := common, o0 := true);
          } else if !c.o1 || (!c.o2 && canWrite) {
            n := n.(b1 := common, o1 := true);
          } else if !c.o2 || canWrite {
            n := n.(b2 := common, o2 := true);
          }
        }
      }
    }

    method OutputStages(h: Hub, p: Pins) returns (c: Channels)
      ensures c == ChannelsNext(fc, h, p)
    {
      c := h.channels;
      for i := 0 to 7
        invariant forall n :: 0 <= n < i ==> c[n] == ChannelStep(fc, h, p, n)
        invariant forall n :: i <= n < 7 ==> c[n] == h.channels[n]
      {
        if fc[i] {
          var stage := Stage(h.channels[i], h.clear, Selects(h, i), p.ready[i], h.common, p.any);
          c := c[i := stage];
        } else {
          c := c[i := h.channels[i].(valid := Selects(h, i))];
        }
      }
    }

    method XoffLogic(h: Hub) returns (sel: Function, xoff: bool, hostSet: Flags)
      ensures sel == if h.clear then HUB else if h.doUpdate && h.xfer.valid then h.xfer.func else h.xoffSel
      ensures xoff == (FlowControl(fc) && NearFull(fc, h, h.xoffSel))
      ensures hostSet == XoffHostSetNext(h)
    {
      sel, hostSet := h.xoffSel, NONE;
      xoff := h.xoffSel < 7 && fc[h.xoffSel] && h.channels[h.xoffSel].o0;
      if h.clear {
        sel := HUB;
      } else if h.doUpdate {
        if h.xfer.valid {
          sel := h.xfer.func;
        }
        if h.xoffSent {
          for i := 0 to 7
            invariant forall n :: 0 <= n < 7 ==> hostSet[n] == (n < i && n == h.xoffSel)
          {
            if i == h.xoffSel {
              hostSet := hostSet[i := true];
            }
          }
        }
      }
    }

    method XoffStates(h: Hub) returns (x: Flags)
      ensures x == XoffStatesNext(fc, h)
    {
      x := h.xoffState;
      for i := 0 to 7
        invariant forall n :: 0 <= n < i ==> x[n] == XoffStateNext(fc, h, n)
        invariant forall n :: i <= n < 7 ==> x[n] == h.xoffState[n]
      {
        if !fc[i] || h.clear {
          x := x[i := false];
        } else if h.xoffHostSet[i] {
          x := x[i := true];
        } else if h.arbiter.clearBitsValid && h.arbiter.clearBits[i] {
          x := x[i := false];
        }
      }
    }

    method InputBuffering(h: Hub, p: Pins) returns (e: Flags, b: Octets)
      ensures e == EmptiesNext(h, p) && b == SlotsNext(h, p)
    {
      e, b := h.empty, h.slots;
      for i := 0 to 7
        invariant forall n :: 0 <= n < i ==> e[n] == EmptyNext(h, p, n) && b[n] == SlotNext(h, p, n)
        invariant forall n :: i <= n < 7 ==> e[n] == h.empty[n] && b[n] == h.slots[n]
      {
        if h.clear {
          e := e[i := true];
          b := b[i := p.any];
        } else {
          if h.empty[i] && p.offered[i] {
            e := e[i := false];
            b := b[i := p.bytes[i]];
          }
          if h.doUpdate && h.validSent && i == h.arbiter.func {
            e := e[i := true]; // the word was transmitted
          }
        }
      }
    }

    method Arbitrate(h: Hub, p: Pins) returns (n: Arbiter)
      ensures n == ArbiterStep(fc, h.arbiter, h.clear, Retires(h), h.empty, h.slots, XonWanted(fc, h), p.any[..7])
    {
      var a := h.arbiter;
      n := a.(clearBitsValid := false);
      if h.clear {
        n := Arbiter(0, HUB, fc + [true], true, false, p.any[..7], NONE);
      } else if a.valid {
        if h.doUpdate && h.validSent {
          n := n.(valid := false);
          if FlowControl(fc) && a.func == HUB {
            if !a.data[7] {
              n := n.(clearBitsValid := true);
            }
            n := n.(clearBits := a.data[..7], xonData := NONE);
          }
        }
      } else if !FlowControl(fc) {
        var source := if a.state < 7 then a.state else 0;
        n := a.(state := if source == 6 then 0 else source + 1);
        if !h.empty[source] {
          n := n.(data := h.slots[source], func := source, valid := true);
        }
      } else {
        n := n.(func := a.state);
        if a.state == HUB {
          n := n.(state := 0);
          if AnySet(a.xonData) {
            n := n.(data := a.xonData + [false], valid := true);
          }
        } else {
          n := n.(state := a.state + 1);
          if !h.empty[a.state] {
            n := n.(data := h.slots[a.state], valid := true);
          }
          var xon := a.xonData;
          for i := 0 to 7
            invariant forall k :: 0 <= k < i ==> xon[k] == (a.xonData[k] || (XonWanted(fc, h)[k] && !a.clearBitsValid))
            invariant forall k :: i <= k < 7 ==> xon[k] == a.xonData[k]
          {
            if fc[i] && h.xoffState[i] && !a.clearBitsValid && !h.channels[i].o0 {
              xon := xon[i := true];
            }
          }
          n := n.(xonData := xon);
        }
      }
    }
  }
}
