// The BusAccess host library (sw/BusAccess/BusAccess.c) on an ideal byte stream: what is sent
// arrives, and a receive waits for bytes that are owed. The far end is BusCalls.Far; how it is
// reset when a connection is opened is a parameter, BusCalls.Timing.
module BusHost {
  import opened Bytes
  import opened Numbers
  import opened Escaping
  import opened BusMaster
  import opened BusCalls

  // VHDL naturals.
  predicate Portable(cfg: Config) {
    && cfg.addressWidth < 0x8000_0000 && cfg.readWidth < 0x8000_0000 && cfg.writeWidth < 0x8000_0000
    && cfg.miscWidth < 0x8000_0000 && cfg.strobeWidth < 0x8000_0000
  }

  class Connection {
    const cfg: Config
    const slave: nat -> Response
    const early: nat -> Far   // where the k-th byte leaves a core that it reaches too early
    var far: Far
    var consumed: nat         // answer bytes received so far
    var sent: seq<Byte>       // everything sent so far

    // A new connection: answers to the last one may still be on their way.
    constructor (cfg: Config, slave: nat -> Response, early: nat -> Far, far: Far, consumed: nat)
      ensures this.cfg == cfg && this.slave == slave && this.early == early
      ensures this.far == far && this.consumed == consumed && sent == []
    {
      this.cfg, this.slave, this.early, this.far, this.consumed, sent := cfg, slave, early, far, consumed, [];
    }

    // All answers of the core since its last reset have been received.
    predicate Drained()
      reads this
    {
      !far.master.phase.Waiting? && consumed <= |far.master.answers| && (consumed == |far.master.answers| || far.mark == |far.master.answers|)
    }

    // A byte that comes before the host has its answers may find the core busy. Where it
    // leaves the core is not part of this model.
    method Send(b: Byte)
      modifies this`far, this`sent
      ensures far == if old(Drained()) then Arrive(cfg, old(far), b, slave) else early(|old(sent)|)
      ensures sent == old(sent) + [b]
    {
      far := if Drained() then Arrive(cfg, far, b, slave) else early(|sent|);
      sent := sent + [b];
    }

    // Both reset symbols in one piece. t: when the second one reaches the core.
    method SendResets(t: Timing)
      requires consumed <= t.handed <= |BeforeReset(cfg, far, t.answered, slave).answers|
      modifies this`far, this`sent
      ensures far == ResetFar(cfg, old(far), t, slave) && sent == old(sent) + [RESET, RESET]
    {
      far := ResetFar(cfg, far, t, slave);
      sent := sent + [RESET, RESET];
    }

    method Receive() returns (b: Byte)
      requires consumed < |far.master.answers|
      modifies this`consumed
      ensures b == far.master.answers[old(consumed)] && consumed == old(consumed) + 1
    {
      b := far.master.answers[consumed];
      consumed := consumed + 1;
    }
  }

  datatype Ret = RetOk | RetAck | RetNak | RetError

  datatype Widths = Widths(address: nat, readData: nat, writeData: nat, misc: nat, strobe: nat)

  function WidthsOf(cfg: Config): Widths {
    Widths(cfg.addressWidth, cfg.readWidth, cfg.writeWidth, cfg.miscWidth, cfg.strobeWidth)
  }

  // ROUND_UP on uint32_t.
  function RoundUp32(width: nat): nat { ((width + 7) % 0x1_0000_0000) / 8 }

  function InBytes(w: Widths): Widths {
    Widths(RoundUp32(w.address), RoundUp32(w.readData), RoundUp32(w.writeData), RoundUp32(w.misc), RoundUp32(w.strobe))
  }

  function BytesOf(cfg: Config): Widths {
    Widths(RoundUp(cfg.addressWidth), RoundUp(cfg.readWidth), RoundUp(cfg.writeWidth), RoundUp(cfg.miscWidth), RoundUp(cfg.strobeWidth))
  }

  lemma PortableWidth(width: nat)
    requires width < 0x8000_0000
    ensures RoundUp32(width) == RoundUp(width)
  {
    assert (width + 7) % 0x1_0000_0000 == width + 7;
  }

  lemma PortableBytes(cfg: Config)
    requires Portable(cfg)
    ensures InBytes(WidthsOf(cfg)) == BytesOf(cfg)
  {
    PortableWidth(cfg.addressWidth);
    PortableWidth(cfg.readWidth);
    PortableWidth(cfg.writeWidth);
    PortableWidth(cfg.miscWidth);
    PortableWidth(cfg.strobeWidth);
  }

  // The six words of a width answer, in the order of WidthWords.
  function Word(buf: seq<Byte>, i: nat): nat
    requires |buf| == 24 && i < 6
  {
    Value(buf[4 * i..4 * i + 4])
  }

  function Decoded(buf: seq<Byte>): Widths
    requires |buf| == 24
  {
    Widths(Word(buf, 3), Word(buf, 2), Word(buf, 1), Word(buf, 4), Word(buf, 5))
  }

  function MaxOf(a: nat, b: nat): nat { if a > b then a else b }

  function BufferSize(b: Widths): nat {
    MaxOf(MaxOf(MaxOf(MaxOf(b.address, b.readData), b.writeData), b.misc), b.strobe)
  }

  class BusAccess {
    const link: Connection
    var versionAndId: nat
    var widths: Widths
    var bytes: Widths
    var buffer: array<Byte>
    var addressShadow: array<Byte>

    constructor (link: Connection)
      ensures this.link == link && fresh(buffer) && fresh(addressShadow)
    {
      this.link := link;
      versionAndId, widths, bytes := 0, Widths(0, 0, 0, 0, 0), Widths(0, 0, 0, 0, 0);
      buffer, addressShadow := new Byte[0], new Byte[0];
    }

    // ---- Byte transport ----

    // The core waits for the bytes of a field, and the host has all its answers.
    ghost predicate Expects(length: nat)
      reads link
    {
      && !link.far.escaping && link.consumed == |link.far.master.answers|
      && link.far.master.phase.Collecting? && link.far.master.phase.got == []
      && length == Size(link.cfg, link.far.master.phase.kind)
    }

    // One more byte of a field.
    static lemma PayloadStep(cfg: Config, start: Far, data: seq<Byte>, i: nat, slave: nat -> Response)
      requires start.master.phase.Collecting? && start.master.phase.got == [] && !start.escaping
      requires i < |data| == Size(cfg, start.master.phase.kind)
      ensures var k := start.master.phase.kind;
              var before := start.(master := start.master.(phase := Collecting(k, data[..i])));
              var n := ArriveAll(cfg, before, EscapeByte(data[i]), slave);
              && (ArriveAll(cfg, start, Escape(data[..i]), slave) == before ==> ArriveAll(cfg, start, Escape(data[..i + 1]), slave) == n)
              && (i + 1 < |data| ==> n == start.(master := start.master.(phase := Collecting(k, data[..i + 1]))))
    {
      var before := start.(master := start.master.(phase := Collecting(start.master.phase.kind, data[..i])));
      EscapedByteArrives(cfg, before, data[i], slave);
      ArriveConcat(cfg, start, Escape(data[..i]), EscapeByte(data[i]), slave);
      EscapeAppend(data[..i], data[i]);
      assert data[..i + 1] == data[..i] + [data[i]];
    }

    method SendPayload(payload: Byte)
      modifies link`far, link`sent
      ensures link.sent == old(link.sent) + EscapeByte(payload)
      ensures old(!link.far.escaping && link.far.master.phase.Collecting? && link.consumed == |link.far.master.answers|) ==>
                link.far == ArriveAll(link.cfg, old(link.far), EscapeByte(payload), link.slave)
    {
      if link.Drained() && !link.far.escaping {
        EscapedByteArrives(link.cfg, link.far, payload, link.slave);
      }
      if payload == RESET || payload == ESCAPE {
        link.Send(ESCAPE);
      }
      link.Send(payload);
    }

    method SendWithEscaping(data: seq<Byte>)
      modifies link`far, link`sent
      ensures old(Expects(|data|)) ==> link.far == ArriveAll(link.cfg, old(link.far), Escape(data), link.slave)
      ensures link.sent == old(link.sent) + Escape(data)
    {
      ghost var start, expected := link.far, Expects(|data|);
      var i := 0;
      while i < |data|
        invariant 0 <= i <= |data|
        invariant expected ==> link.far == ArriveAll(link.cfg, start, Escape(data[..i]), link.slave)
        invariant expected && i < |data| ==>
                    link.far == start.(master := start.master.(phase := Collecting(start.master.phase.kind, data[..i])))
        invariant link.sent == old(link.sent) + Escape(data[..i])
      {
        if expected {
          PayloadStep(link.cfg, start, data, i, link.slave);
        }
        EscapeAppend(data[..i], data[i]);
        assert data[..i + 1] == data[..i] + [data[i]];
        SendPayload(data[i]);
        i := i + 1;
      }
      assert data[..i] == data;
    }

    method ReceiveInto(buf: array<Byte>, offset: nat, n: nat)
      requires offset + n <= buf.Length && link.consumed + n <= |link.far.master.answers|
      modifies link`consumed, buf
      ensures link.consumed == old(link.consumed) + n
      ensures buf[offset..offset + n] == link.far.master.answers[old(link.consumed)..link.consumed]
      ensures buf[..offset] == old(buf[..offset])
    {
      var received := 0;
      while received < n
        invariant 0 <= received <= n && link.consumed == old(link.consumed) + received
        invariant buf[offset..offset + received] == link.far.master.answers[old(link.consumed)..link.consumed]
        invariant buf[..offset] == old(buf[..offset])
      {
        var b := link.Receive();
        buf[offset + received] := b;
        received := received + 1;
      }
    }

    // ---- The address cache ----

    function Shadow(): seq<Byte>
      reads this, addressShadow
    {
      if bytes.address <= addressShadow.Length then addressShadow[..bytes.address] else []
    }

    predicate Fits()
      reads this
    {
      && widths == WidthsOf(link.cfg) && bytes == BytesOf(link.cfg)
      && buffer.Length == BufferSize(bytes) + 1 && addressShadow.Length == MaxOf(bytes.address, 1)
      && buffer != addressShadow
    }

    // Open, all answers received, and the cache agrees with the core.
    predicate InSync()
      reads this, link, addressShadow
    {
      && Fits() && link.consumed == |link.far.master.answers| && Agreed(link.cfg, link.far, Shadow())
    }

    // The core waits for a command, and the host has all its answers.
    ghost predicate Idles()
      reads link
    {
      !link.far.escaping && link.far.master.phase.Idle? && link.consumed == |link.far.master.answers|
    }

    // A command and its field.
    method SendField(command: Byte, data: seq<Byte>, ghost k: Kind)
      requires command != ESCAPE && command != RESET && !k.WriteData?
      modifies link`far, link`sent
      ensures old(Idles() && |data| == Size(link.cfg, k) > 0
                  && Command(link.cfg, link.far.master, command) == link.far.master.(phase := Collecting(k, []))) ==>
                link.far == old(link.far).(master := Complete(link.cfg, old(link.far.master), k, data))
      ensures link.sent == old(link.sent) + ([command] + Escape(data))
    {
      if Idles() && |data| == Size(link.cfg, k) > 0
         && Command(link.cfg, link.far.master, command) == link.far.master.(phase := Collecting(k, [])) {
        FieldFollows(link.cfg, link.far, k, command, data, link.slave);
      }
      link.Send(command);
      SendWithEscaping(data);
    }

    method SendAddress(address: seq<Byte>)
      requires |address| >= bytes.address
      modifies link`far, link`sent
      ensures old(Fits() && Idles()) ==>
                link.far == old(link.far).(master := if bytes.address == 0 then old(link.far.master)
                                                     else old(link.far.master).(address := Field(widths.address, address[..bytes.address])))
      ensures link.sent == old(link.sent) + (if bytes.address == 0 then [] else [SET_ADDRESS] + Escape(address[..bytes.address]))
    {
      if bytes.address == 0 {
        return;
      }
      SendField(SET_ADDRESS, address[..bytes.address], Address);
    }

    method SetAddress(address: seq<Byte>)
      requires InSync() && |address| >= bytes.address
      modifies link`far, link`sent, addressShadow
      ensures InSync() && Shadow() == address[..bytes.address]
      ensures link.far == old(link.far).(master := old(link.far.master).(address := Field(widths.address, address[..bytes.address])))
      ensures link.sent == old(link.sent) + AddressBytes(link.cfg, old(Shadow()), address)
    {
      AddressArrives(link.cfg, link.far, Shadow(), address, link.slave);
      if bytes.address == 0 || address[..bytes.address] == addressShadow[..bytes.address] {
        assert address[..bytes.address] == Shadow();
        return;
      }
      SendAddress(address);
      forall i | 0 <= i < bytes.address {
        addressShadow[i] := address[i];
      }
      assert Shadow() == address[..bytes.address];
    }
 
    // ---- Accesses ----

    // The call was carried out as the ideal bus master does it, its bytes were sent and its
    // answer was received.
    twostate predicate Performed(c: Call)
      reads this, link, addressShadow
    {
      && Callable(link.cfg, c) && old(link.far.master.phase.Idle?)
      && link.far.master == Ideal(link.cfg, old(link.far.master), c, link.slave)
      && link.sent == old(link.sent) + CallBytes(link.cfg, old(Shadow()), c)
      && Shadow() == ShadowAfter(link.cfg, old(Shadow()), c)
    }

    method RequestWrite(address: seq<Byte>, data: seq<Byte>, locked: bool)
      requires InSync() && |address| >= bytes.address && |data| >= bytes.writeData > 0
      modifies link`far, link`sent, addressShadow
      ensures Fits() && Agreed(link.cfg, link.far, Shadow())
      ensures Performed(Write(address, data, locked))
    {
      ghost var before := link.far.master;
      ghost var c := Write(address, data, locked);
      WriteBytes(link.cfg, link.sent, Shadow(), c);
      SetAddress(address);
      WriteFollows(link.cfg, link.far, before, c, link.slave);
      SendWriteData(data, locked);
    }

    method SendWriteData(data: seq<Byte>, locked: bool)
      requires Fits() && !link.far.escaping && link.far.master.phase.Idle? && link.consumed == |link.far.master.answers|
      requires |data| >= bytes.writeData > 0
      modifies link`far, link`sent
      ensures link.far == ArriveAll(link.cfg, Arrive(link.cfg, old(link.far), if locked then WRITE_LOCK else WRITE_UNLOCK, link.slave),
                                    Escape(data[..bytes.writeData]), link.slave)
      ensures link.sent == old(link.sent) + [if locked then WRITE_LOCK else WRITE_UNLOCK] + Escape(data[..bytes.writeData])
    {
      link.Send(if locked then WRITE_LOCK else WRITE_UNLOCK);
      SendWithEscaping(data[..bytes.writeData]);
    }

    method RequestRead(address: seq<Byte>, locked: bool)
      requires InSync() && |address| >= bytes.address && bytes.readData > 0
      modifies link`far, link`sent, addressShadow
      ensures Fits() && Agreed(link.cfg, link.far, Shadow())
      ensures Performed(Read(address, locked))
    {
      ghost var before := link.far.master;
      SetAddress(address);
      ReadFollows(link.cfg, link.far, before, Read(address, locked), link.slave);
      link.Send(if locked then READ_LOCK else READ_UNLOCK);
    }
 
    // What a write answers: ACK or NACK.
    method ReceiveVerdict(ghost error: bool) returns (ret: Ret)
      requires Fits() && link.consumed + 1 == |link.far.master.answers|
      requires link.far.master.answers[link.consumed] == if error then NACK else ACK
      modifies link`consumed, buffer
      ensures link.consumed == |link.far.master.answers| && ret == if error then RetNak else RetAck
    {
      ReceiveInto(buffer, 0, 1);
      assert buffer[0] == buffer[0..1][0];
      if buffer[0] == ACK {
        return RetAck;
      }
      if buffer[0] == NACK {
        return RetNak;
      }
      return RetError; // not an answer of this core
    }

    method WriteCtrlLock(address: seq<Byte>, data: seq<Byte>, locked: bool) returns (ret: Ret)
      requires InSync() && |address| >= bytes.address && |data| >= bytes.writeData
      modifies link`far, link`sent, link`consumed, buffer, addressShadow
      ensures InSync()
      ensures if bytes.writeData == 0 then ret == RetError && unchanged(link) && Shadow() == old(Shadow())
              else Performed(Write(address, data, locked))
                   && ret == if link.slave(|old(link.far.master.done)|).error then RetNak else RetAck
    {
      if bytes.writeData == 0 {
        return RetError;
      }
      ghost var error := link.slave(|link.far.master.done|).error;
      RequestWrite(address, data, locked);
      ret := ReceiveVerdict(error);
    }

    // What a read answers: ACK or NACK, and the data either way.
    method ReceiveRead(ghost error: bool, ghost data: nat) returns (ret: Ret, result: seq<Byte>)
      requires Fits() && link.consumed + bytes.readData + 1 == |link.far.master.answers|
      requires link.far.master.answers[link.consumed..] == [if error then NACK else ACK] + ToBytes(bytes.readData, data)
      modifies link`consumed, buffer
      ensures link.consumed == |link.far.master.answers|
      ensures ret == (if error then RetNak else RetAck) && result == ToBytes(bytes.readData, data)
    {
      ReceiveInto(buffer, 0, bytes.readData + 1);
      assert buffer[0..bytes.readData + 1] == [if error then NACK else ACK] + ToBytes(bytes.readData, data);
      assert buffer[0] == buffer[0..bytes.readData + 1][0];
      if buffer[0] == ACK {
        ret := RetAck;
      } else if buffer[0] == NACK {
        ret := RetNak;
      } else {
        return RetError, []; // not an answer of this core
      }
      result := buffer[1..bytes.readData + 1];
      assert result == buffer[0..bytes.readData + 1][1..];
    }

    method ReadCtrlLock(address: seq<Byte>, locked: bool) returns (ret: Ret, result: seq<Byte>)
      requires InSync() && |address| >= bytes.address
      modifies link`far, link`sent, link`consumed, buffer, addressShadow
      ensures InSync()
      ensures if bytes.readData == 0 then ret == RetError && unchanged(link) && Shadow() == old(Shadow())
              else
                var a := link.slave(|old(link.far.master.done)|);
                && Performed(Read(address, locked))
                && ret == (if a.error then RetNak else RetAck)
                && result == ToBytes(bytes.readData, a.data)
    {
      if bytes.readData == 0 {
        return RetError, [];
      }
      ghost var a := link.slave(|link.far.master.done|);
      RequestRead(address, locked);
      ret, result := ReceiveRead(a.error, a.data);
    }
 
    method ReadModifyWrite(address: seq<Byte>, edit: seq<Byte> -> seq<Byte>) returns (ret: Ret)
      requires InSync() && |address| >= bytes.address
      requires forall s :: |s| == bytes.readData ==> |edit(s)| == |s|
      modifies link`far, link`sent, link`consumed, buffer, addressShadow
      ensures InSync()
      ensures widths.readData != widths.writeData || bytes.readData == 0 ==> ret == RetError && unchanged(link)
      ensures widths.readData == widths.writeData && bytes.readData > 0 ==>
                var m, first := old(link.far.master), link.slave(|old(link.far.master.done)|);
                var read := Ideal(link.cfg, m, Read(address, true), link.slave);
                if first.error then ret == RetNak && link.far.master == read
                else
                  && link.far.master == Ideal(link.cfg, read, Write(address, edit(ToBytes(bytes.readData, first.data)), false), link.slave)
                  && ret == if link.slave(|read.done|).error then RetNak else RetAck
    {
      if widths.readData != widths.writeData {
        return RetError;
      }
      var data;
      ret, data := ReadCtrlLock(address, true);
      if ret != RetAck {
        return;
      }
      data := edit(data);
      ret := WriteCtrlLock(address, data, false);
    }

    method SetMiscellaneousData(data: seq<Byte>) returns (ret: Ret)
      requires InSync() && |data| >= bytes.misc
      modifies link`far, link`sent
      ensures InSync()
      ensures if bytes.misc == 0 then ret == RetError && unchanged(link) else ret == RetOk && Performed(SetMiscellaneous(data))
    {
      if bytes.misc == 0 {
        return RetError;
      }
      SendField(SET_MISC, data[..bytes.misc], Misc);
      return RetOk;
    }

    method SetStrobe(data: seq<Byte>) returns (ret: Ret)
      requires InSync() && |data| >= bytes.strobe
      modifies link`far, link`sent
      ensures InSync()
      ensures if bytes.strobe == 0 then ret == RetError && unchanged(link) else ret == RetOk && Performed(SetStrobeTo(data))
    {
      if bytes.strobe == 0 {
        return RetError;
      }
      SendField(SET_STROBE, data[..bytes.strobe], Strobe);
      return RetOk;
    }
 
    // ---- Opening the connection ----

    static method Words(buf: array<Byte>) returns (tmp: seq<nat>)
      requires buf.Length == 24
      ensures |tmp| == 6 && forall i :: 0 <= i < 6 ==> tmp[i] == Word(buf[..], i)
    {
      tmp := [];
      for i := 0 to 6
        invariant |tmp| == i && forall k :: 0 <= k < i ==> tmp[k] == Word(buf[..], k)
      {
        assert buf[..][4 * i..4 * i + 4] == buf[4 * i..4 * i + 4];
        ValueOfFour(buf[4 * i..4 * i + 4]);
        tmp := tmp + [LittleEndian(buf[i * 4], buf[i * 4 + 1], buf[i * 4 + 2], buf[i * 4 + 3])];
      }
    }

    // What the host receives after it has asked for the widths: first what is left of before.
    ghost function WidthAnswer(): (s: seq<Byte>)
      requires link.consumed <= |link.far.master.answers|
      reads link
      ensures |s| >= 24
    {
      link.far.master.answers[link.consumed..] + WordBytes(WidthWords(link.cfg))
    }

    static lemma WidthsAsked(cfg: Config, far: Far, consumed: nat, slave: nat -> Response)
      requires !far.escaping && far.master.phase.Idle? && consumed <= |far.master.answers|
      ensures var n, widths := Arrive(cfg, far, READ_WIDTHS, slave), WordBytes(WidthWords(cfg));
              && n == far.(master := far.master.(answers := far.master.answers + widths))
              && n.master.answers[consumed..] == far.master.answers[consumed..] + widths
    {
    }

    method RequestWidths()
      requires !link.far.escaping && link.far.master.phase.Idle? && link.Drained()
      modifies link`far, link`sent
      ensures link.far == old(link.far).(master := old(link.far.master).(answers := old(link.far.master.answers) + WordBytes(WidthWords(link.cfg))))
      ensures link.far.master.answers[link.consumed..] == old(WidthAnswer())
      ensures link.sent == old(link.sent) + [READ_WIDTHS]
    {
      WidthsAsked(link.cfg, link.far, link.consumed, link.slave);
      link.Send(READ_WIDTHS);
    }

    // The version word first; the rest only from a BusAccess core.
    method ReceiveSizes(buf: array<Byte>) returns (ok: bool)
      requires buf.Length == 24 && link.consumed + 24 <= |link.far.master.answers|
      modifies link`consumed, buf
      ensures ok == (link.far.master.answers[old(link.consumed)..][0] == PROTOCOL_ID)
      ensures ok ==> link.consumed == old(link.consumed) + 24 && buf[..] == link.far.master.answers[old(link.consumed)..][..24]
    {
      ghost var a, c := link.far.master.answers, link.consumed;
      ReceiveInto(buf, 0, 4);
      ghost var first := buf[..4];
      assert buf[0..4] == first && buf[0] == first[0] == a[c..c + 4][0] == a[c..][0];
      var word := LittleEndian(buf[0], buf[1], buf[2], buf[3]);
      LowByte(buf[0], buf[1], buf[2], buf[3]);
      if word % 256 != PROTOCOL_ID {
        return false;
      }
      ReceiveInto(buf, 4, 20);
      assert buf[..] == buf[..4] + buf[4..24];
      assert a[c..][..24] == a[c..c + 4] + a[c + 4..c + 24];
      return true;
    }

    method StoreSizes(buf: array<Byte>)
      requires buf.Length == 24
      modifies `versionAndId, `widths, `bytes
      ensures versionAndId == Word(buf[..], 0) && widths == Decoded(buf[..]) && bytes == InBytes(widths)
    {
      var tmp := Words(buf);
      versionAndId := tmp[0];
      widths := Widths(tmp[3], tmp[2], tmp[1], tmp[4], tmp[5]);
      bytes := InBytes(widths);
    }

    method GetSizes() returns (ret: Ret)
      requires !link.far.escaping && link.far.master.phase.Idle? && link.Drained()
      modifies link`far, link`sent, link`consumed, `versionAndId, `widths, `bytes
      ensures link.far == old(link.far).(master := old(link.far.master).(answers := old(link.far.master.answers) + WordBytes(WidthWords(link.cfg))))
      ensures link.sent == old(link.sent) + [READ_WIDTHS]
      ensures ret == if old(WidthAnswer())[0] == PROTOCOL_ID then RetOk else RetError
      ensures ret == RetOk ==>
                && link.consumed == old(link.consumed) + 24
                && versionAndId == Word(old(WidthAnswer())[..24], 0) && widths == Decoded(old(WidthAnswer())[..24]) && bytes == InBytes(widths)
    {
      var buf := new Byte[24];
      ghost var all := WidthAnswer();
      RequestWidths();
      var ok := ReceiveSizes(buf);
      if !ok {
        return RetError;
      }
      assert buf[..] == all[..24];
      StoreSizes(buf);
      return RetOk;
    }

    static lemma WordDecoded(cfg: Config, i: nat)
      requires Portable(cfg) && i < 6
      ensures Word(WordBytes(WidthWords(cfg)), i) == WidthWords(cfg)[i]
    {
      WordSlice(WidthWords(cfg), i);
      FourBytes(WidthWords(cfg)[i]);
    }

    // The widths of the core come out when nothing else comes before.
    static lemma WidthsDecoded(cfg: Config)
      requires Portable(cfg)
      ensures Decoded(WordBytes(WidthWords(cfg))) == WidthsOf(cfg)
    {
      WordDecoded(cfg, 3);
      WordDecoded(cfg, 2);
      WordDecoded(cfg, 1);
      WordDecoded(cfg, 4);
      WordDecoded(cfg, 5);
    }

    static lemma StartsWithId(cfg: Config)
      ensures WordBytes(WidthWords(cfg))[0] == PROTOCOL_ID
    {
      var all, id := WordBytes(WidthWords(cfg)), WidthWords(cfg)[0];
      WordSlice(WidthWords(cfg), 0);
      assert all[0] == all[0..4][0];
      ToBytesAt(4, id, 0);
      assert id % 256 == PROTOCOL_ID;
    }

    // What reaches the new connection although it belongs to the last one: the answers that
    // had been handed over, or were before the core was reset.
    ghost function Stray(t: Timing): seq<Byte>
      requires link.consumed <= t.handed <= |BeforeReset(link.cfg, link.far, t.answered, link.slave).answers|
      reads link
    {
      BeforeReset(link.cfg, link.far, t.answered, link.slave).answers[link.consumed..t.handed]
    }

    method SendReset(t: Timing)
      requires link.consumed <= t.handed <= |BeforeReset(link.cfg, link.far, t.answered, link.slave).answers|
      modifies link`far, link`sent
      ensures link.far == ResetFar(link.cfg, old(link.far), t, link.slave) && link.sent == old(link.sent) + [RESET, RESET]
      ensures link.far.master.answers[link.consumed..] == old(Stray(t))
    {
      link.SendResets(t);
    }

    method AllocateBuffers()
      modifies `buffer, `addressShadow
      ensures fresh(buffer) && fresh(addressShadow) && buffer != addressShadow
      ensures buffer.Length == BufferSize(bytes) + 1 && addressShadow.Length == MaxOf(bytes.address, 1)
      ensures forall i :: 0 <= i < addressShadow.Length ==> addressShadow[i] == 0
    {
      buffer := new Byte[BufferSize(bytes) + 1];
      addressShadow := new Byte[MaxOf(bytes.address, 1)](_ => 0);
    }

    // When the last connection had all its answers and no access is going on, exactly one thing
    // makes opening fail (but for a core without fields): the first symbol completes a write,
    // and its verdict is handed over before the second symbol resets the core.
    static lemma DrainedOpening(cfg: Config, far: Far, t: Timing, slave: nat -> Response)
      requires !far.master.phase.Waiting? && Sound(cfg, far.master)
      requires |far.master.answers| <= t.handed <= |BeforeReset(cfg, far, t.answered, slave).answers|
      ensures var stray := BeforeReset(cfg, far, t.answered, slave).answers[|far.master.answers|..t.handed];
              if StaleWrite(cfg, far) && t.answered && t.handed == |far.master.answers| + 1
              then (stray + WordBytes(WidthWords(cfg)))[0] != PROTOCOL_ID
              else stray == []
    {
      var n := ResetFar(cfg, far, t, slave).master.answers;
      StrayAnswer(cfg, far, t, slave);
      assert n[|far.master.answers|..] == BeforeReset(cfg, far, t.answered, slave).answers[|far.master.answers|..t.handed];
    }

    // What the library reports: GET_PROTOCOL_ID, GET_PROTOCOL_VERSION and GET_CORE_TYPE of the
    // version word, whose highest byte is 0.
    ghost predicate Identified()
      reads this
    {
      Identifies(versionAndId, link.cfg.coreType)
    }

    static predicate Identifies(v: nat, coreType: Byte) {
      v % 0x100 == 0x1D && v / 0x100 % 0x100 == 0 && v / 0x1_0000 % 0x100 == coreType && v / 0x100_0000 == 0
    }

    static lemma CoreIdentified(cfg: Config)
      requires Portable(cfg)
      ensures Identifies(Word(WordBytes(WidthWords(cfg)), 0), cfg.coreType)
    {
      var v := 0x1D + 0x1_0000 * cfg.coreType;
      WordDecoded(cfg, 0);
      assert v % 0x100 == 0x1D && v / 0x100 == 0x100 * cfg.coreType && v / 0x1_0000 == cfg.coreType && v / 0x100_0000 == 0;
    }

    // In sync, with the core as its reset leaves it, and identified.
    ghost predicate FreshlyOpen()
      reads this, link, addressShadow
    {
      && InSync() && !link.far.master.held && Identified()
      && link.far.master.strobe == Pow2(link.cfg.strobeWidth) - 1 && link.far.master.misc == link.cfg.miscInit
    }

    // The identity and the widths of the core, and nothing of the last connection before them.
    ghost predicate Measured()
      reads this, link
    {
      && link.consumed == |link.far.master.answers| && widths == WidthsOf(link.cfg) && bytes == BytesOf(link.cfg)
      && Identified()
    }

    method Reset(t: Timing) returns (ret: Ret)
      requires Portable(link.cfg)
      requires link.consumed <= t.handed <= |BeforeReset(link.cfg, link.far, t.answered, link.slave).answers|
      modifies link`far, link`sent, link`consumed, `versionAndId, `widths, `bytes
      ensures var all := old(Stray(t)) + WordBytes(WidthWords(link.cfg));
              && ret == (if all[0] == PROTOCOL_ID then RetOk else RetError)
              && (ret == RetOk ==> link.consumed == old(link.consumed) + 24 && widths == Decoded(all[..24]) && bytes == InBytes(widths))
      ensures old(Stray(t)) == [] ==> ret == RetOk && Measured()
      ensures var r := ResetFar(link.cfg, old(link.far), t, link.slave);
              link.far == r.(master := r.master.(answers := r.master.answers + WordBytes(WidthWords(link.cfg))))
    {
      ghost var own := WordBytes(WidthWords(link.cfg));
      WidthsDecoded(link.cfg);
      CoreIdentified(link.cfg);
      StartsWithId(link.cfg);
      PortableBytes(link.cfg);
      SendReset(t);
      assert WidthAnswer() == old(Stray(t)) + own;
      assert own[..24] == own && [] + own == own;
      ret := GetSizes();
    }

    // The address that the cache stands for at first is sent.
    method InitAddress()
      modifies `buffer, `addressShadow, link`far, link`sent
      ensures fresh(buffer) && fresh(addressShadow)
      ensures old(Measured() && Idles() && link.far.master.address == 0) ==>
                InSync() && link.far == old(link.far).(master := old(link.far.master).(address := link.far.master.address))
    {
      AllocateBuffers();
      SendAddress(addressShadow[..]);
      assert addressShadow[..][..bytes.address] == Shadow();
    }

    // On a new connection, whatever state decoder and core were left in, with an access going
    // on or answers on their way, and whenever the resets arrive. The first byte that is
    // received and the widths decoded decide about success; without a stray answer the
    // connection is in sync, and with one it is not even if opening succeeds: as many bytes of
    // the width answer are left over.
    method Open(t: Timing) returns (ret: Ret)
      requires Portable(link.cfg)
      requires link.consumed <= t.handed <= |BeforeReset(link.cfg, link.far, t.answered, link.slave).answers|
      modifies this, link`far, link`sent, link`consumed
      ensures var all := old(Stray(t)) + WordBytes(WidthWords(link.cfg));
              && ret == (if all[0] == PROTOCOL_ID && BufferSize(InBytes(Decoded(all[..24]))) != 0 then RetOk else RetError)
              && (ret == RetOk ==> link.consumed == old(link.consumed) + 24 && widths == Decoded(all[..24]))
      ensures old(Stray(t)) == [] ==> ret == if BufferSize(BytesOf(link.cfg)) != 0 then RetOk else RetError
      ensures ret == RetOk ==> fresh(buffer) && fresh(addressShadow)
      ensures ret == RetOk && old(Stray(t)) == [] ==> FreshlyOpen()
    {
      ret := Reset(t);
      if ret != RetOk {
        return;
      }
      if BufferSize(bytes) == 0 {
        return RetError;
      }
      InitAddress();
      return RetOk;
    }
  }
}
