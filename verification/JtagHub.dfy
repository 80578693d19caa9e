// JtagCdc, the clk side: seven byte channels share one JTAG data register.
// Downwards each flow-controlled channel has an output register and three more
// slots; upwards each channel has one slot and a round-robin arbiter picks the
// word of the next scan. HubStep is one enabled edge of clk.
module JtagHub {

  const HUB: nat := 7      // the function number of the hub itself, and how many channels there are

  type Octet = s: seq<bool> | |s| == 8 witness [false, false, false, false, false, false, false, false]
  const ZERO: Octet := [false, false, false, false, false, false, false, false]
  type Octets = s: seq<Octet> | |s| == 7 witness [ZERO, ZERO, ZERO, ZERO, ZERO, ZERO, ZERO]
  type Flags = s: seq<bool> | |s| == 7 witness [false, false, false, false, false, false, false]
  const NONE: Flags := [false, false, false, false, false, false, false]
  type Function = n: nat | n < 8

  // A word of the host in the transfer registers, and a word for the host.
  datatype HostWord = HostWord(valid: bool, func: Function, data: Octet)
  datatype HubWord = HubWord(valid: bool, xoff: bool, func: Function, data: Octet)

  // ---- Downwards: the output stage of one channel ----

  // The output register, three slots and their occupied bits. A channel without
  // flow control has only the valid bit.
  datatype Channel = Channel(
    valid: bool, local: Octet,
    b0: Octet, b1: Octet, b2: Octet,
    o0: bool, o1: bool, o2: bool,
    selected: bool)

  const EMPTY: Channel := Channel(false, ZERO, ZERO, ZERO, ZERO, false, false, false, false)
  type Channels = s: seq<Channel> | |s| == 7 witness [EMPTY, EMPTY, EMPTY, EMPTY, EMPTY, EMPTY, EMPTY]

  function CanWrite(c: Channel, ready: bool): bool { ready || !c.valid }

  function Advance(c: Channel, any: Octet): Channel {
    c.(local := c.b0, b0 := c.b1, b1 := c.b2, b2 := any, valid := c.o0, o0 := c.o1, o1 := c.o2, o2 := false)
  }

  // The first place that is free once the stage has moved on.
  function Push(before: Channel, c: Channel, canWrite: bool, byte: Octet): Channel {
    if !before.o0 && canWrite then c.(local := byte, valid := true)
    else if !before.o0 || (!before.o1 && canWrite) then c.(b0 := byte, o0 := true)
    else if !before.o1 || (!before.o2 && canWrite) then c.(b1 := byte, o1 := true)
    else if !before.o2 || canWrite then c.(b2 := byte, o2 := true)
    else c
  }

  function FlowControlledStep(c: Channel, clear: bool, select: bool, ready: bool, common: Octet, any: Octet): Channel {
    if clear then c.(selected := false, valid := false, o0 := false, o1 := false, o2 := false)
    else
      var moved := if CanWrite(c, ready) then Advance(c, any) else c;
      var pushed := if c.selected then Push(c, moved, CanWrite(c, ready), common) else moved;
      pushed.(selected := select)
  }

  // The bytes in the stage, the one in the output register first.
  function Queue(c: Channel): seq<Octet> {
    if !c.valid then []
    else if !c.o0 then [c.local]
    else if !c.o1 then [c.local, c.b0]
    else if !c.o2 then [c.local, c.b0, c.b1]
    else [c.local, c.b0, c.b1, c.b2]
  }

  predicate Contiguous(c: Channel) {
    (c.o2 ==> c.o1) && (c.o1 ==> c.o0) && (c.o0 ==> c.valid)
  }

  function Taken(c: Channel, ready: bool): seq<Octet> {
    if c.valid && ready then [c.local] else []
  }

  // The stage is a queue of capacity 4: an edge removes the byte the core takes and
  // then appends the selected byte, which is lost only if four others stay behind.
  lemma StageIsQueue(c: Channel, select: bool, ready: bool, common: Octet, any: Octet)
    requires Contiguous(c)
    ensures var n := FlowControlledStep(c, false, select, ready, common, any);
            var rest := Queue(c)[|Taken(c, ready)|..];
            && Contiguous(n) && n.selected == select
            && Taken(c, ready) == Queue(c)[..|Taken(c, ready)|]
            && Queue(n) == if c.selected && |rest| < 4 then rest + [common] else rest
  {
  }

  // ---- Upwards: the arbiter ----

  datatype Arbiter = Arbiter(
    state: Function, func: Function, data: Octet, valid: bool,
    clearBitsValid: bool, clearBits: Flags, xonData: Flags)

  predicate FlowControl(fc: Flags) { exists i :: 0 <= i < 7 && fc[i] }

  predicate AnySet(s: Flags) { exists i :: 0 <= i < 7 && s[i] }

  // xonWanted: the channels whose host is stopped and that have room again.
  function ArbiterStep(fc: Flags, a: Arbiter, clear: bool, retire: bool,
                       empty: Flags, slots: Octets, xonWanted: Flags, any: Flags): Arbiter
  {
    if clear then
      Arbiter(0, HUB, fc + [true], true, false, any, NONE)
    else if a.valid then
      if !retire then a.(clearBitsValid := false)
      else if FlowControl(fc) && a.func == HUB then
        a.(valid := false, clearBitsValid := !a.data[7], clearBits := a.data[..7], xonData := NONE)
      else a.(valid := false, clearBitsValid := false)
    else if !FlowControl(fc) then
      var source := if a.state < 7 then a.state else 0;
      var next := if source == 6 then 0 else source + 1;
      if empty[source] then a.(state := next)
      else a.(state := next, data := slots[source], func := source, valid := true)
    else if a.state == HUB then
      if AnySet(a.xonData) then
        a.(state := 0, func := HUB, data := a.xonData + [false], valid := true, clearBitsValid := false)
      else a.(state := 0, func := HUB, clearBitsValid := false)
    else
      var b := a.(state := a.state + 1, func := a.state, clearBitsValid := false,
                  xonData := seq(7, i requires 0 <= i < 7 => a.xonData[i] || (xonWanted[i] && !a.clearBitsValid)));
      if empty[a.state] then b else b.(data := slots[a.state], valid := true)
  }

  // ---- All clk registers, and one edge ----

  datatype Hub = Hub(
    enable: bool, doUpdate: bool, xfer: HostWord, xoffSent: bool, validSent: bool,
    clear: bool, common: Octet, channels: Channels,
    xoffSel: Function, xoffHostSet: Flags, upXoff: bool, xoffState: Flags,
    empty: Flags, slots: Octets, arbiter: Arbiter)

  // What the cores drive at an edge, whether an update request arrives through the
  // synchronizer, and what the flip-flops of the other clock hold.
  datatype Pins = Pins(ready: Flags, offered: Flags, bytes: Octets, any: Octet)
  datatype Dr = Dr(word: HostWord, xoff: bool, valid: bool)

  predicate Selects(h: Hub, n: nat) { h.doUpdate && h.xfer.valid && h.xfer.func == n }

  predicate NearFull(fc: Flags, h: Hub, n: nat) { n < 7 && fc[n] && h.channels[n].o0 }

  predicate Retires(h: Hub) { h.doUpdate && h.validSent }

  function ChannelStep(fc: Flags, h: Hub, p: Pins, n: nat): Channel
    requires n < 7
  {
    if fc[n] then FlowControlledStep(h.channels[n], h.clear, Selects(h, n), p.ready[n], h.common, p.any)
    else h.channels[n].(valid := Selects(h, n))
  }

  function XoffStateNext(fc: Flags, h: Hub, n: nat): bool
    requires n < 7
  {
    fc[n] && !h.clear
    && (h.xoffHostSet[n] || (h.xoffState[n] && !(h.arbiter.clearBitsValid && h.arbiter.clearBits[n])))
  }

  function EmptyNext(h: Hub, p: Pins, n: nat): bool
    requires n < 7
  {
    h.clear || (Retires(h) && h.arbiter.func == n) || (h.empty[n] && !p.offered[n])
  }

  function SlotNext(h: Hub, p: Pins, n: nat): Octet
    requires n < 7
  {
    if h.clear then p.any
    else if h.empty[n] && p.offered[n] then p.bytes[n]
    else h.slots[n]
  }

  function XonWanted(fc: Flags, h: Hub): Flags {
    seq(7, i requires 0 <= i < 7 => fc[i] && h.xoffState[i] && !NearFull(fc, h, i))
  }

  function ChannelsNext(fc: Flags, h: Hub, p: Pins): Channels {
    seq(7, i requires 0 <= i < 7 => ChannelStep(fc, h, p, i))
  }

  function XoffHostSetNext(h: Hub): Flags {
    seq(7, i => !h.clear && h.doUpdate && h.xoffSent && h.xoffSel == i)
  }

  function XoffStatesNext(fc: Flags, h: Hub): Flags {
    seq(7, i requires 0 <= i < 7 => XoffStateNext(fc, h, i))
  }

  function EmptiesNext(h: Hub, p: Pins): Flags {
    seq(7, i requires 0 <= i < 7 => EmptyNext(h, p, i))
  }

  function SlotsNext(h: Hub, p: Pins): Octets {
    seq(7, i requires 0 <= i < 7 => SlotNext(h, p, i))
  }

  function HubStep(fc: Flags, h: Hub, p: Pins, edge: bool, dr: Dr): Hub {
    Hub(
      edge, h.enable,
      if h.enable then dr.word else h.xfer,
      if h.enable then dr.xoff else h.xoffSent,
      if h.enable then dr.valid else h.validSent,
      Selects(h, HUB),
      h.xfer.data,
      ChannelsNext(fc, h, p),
      if h.clear then HUB else if h.doUpdate && h.xfer.valid then h.xfer.func else h.xoffSel,
      XoffHostSetNext(h),
      FlowControl(fc) && NearFull(fc, h, h.xoffSel),
      XoffStatesNext(fc, h),
      EmptiesNext(h, p),
      SlotsNext(h, p),
      ArbiterStep(fc, h.arbiter, h.clear, Retires(h), h.empty, h.slots, XonWanted(fc, h), p.any[..7]))
  }

  // The transfer registers load at the edge after the synchronized request only.
  lemma TransferHolds(fc: Flags, h: Hub, p: Pins, edge: bool, dr: Dr)
    requires !h.enable
    ensures var n := HubStep(fc, h, p, edge, dr); n.xfer == h.xfer && n.xoffSent == h.xoffSent && n.validSent == h.validSent
  {
  }

  // The bytes the cores take and hand over at an edge.
  function CoreTakes(fc: Flags, h: Hub, p: Pins, n: nat): seq<Octet>
    requires n < 7
  {
    if fc[n] then Taken(h.channels[n], p.ready[n])
    else if h.channels[n].valid then [h.common]
    else []
  }

  function CoreHands(h: Hub, p: Pins, n: nat): seq<Octet>
    requires n < 7
  {
    if h.empty[n] && p.offered[n] then [p.bytes[n]] else []
  }
}
