// The calls of the BusAccess host library as bytes on the wire, and what they do on the bus.
module BusCalls {
  import opened Bytes
  import opened Numbers
  import opened Escaping
  import opened BusMaster

  // Decoder and core behind an ideal byte stream; mark: how many answers there were when the
  // core was last reset.
  datatype Far = Far(escaping: bool, master: Master, mark: nat)

  function Taken(cfg: Config, far: Far, b: Byte, slave: nat -> Response): Far
    requires !far.master.phase.Waiting?
  {
    far.(escaping := false, master := Settle(cfg, ByteIn(cfg, far.master, b), slave))
  }

  function Arrive(cfg: Config, far: Far, b: Byte, slave: nat -> Response): (n: Far)
    requires !far.master.phase.Waiting?
    ensures !n.master.phase.Waiting?
  {
    if far.escaping then Taken(cfg, far, b, slave)
    else if b == ESCAPE then far.(escaping := true)
    else if b == RESET then Far(false, ResetMaster(cfg, far.master), |far.master.answers|)
    else Taken(cfg, far, b, slave)
  }

  function ArriveAll(cfg: Config, far: Far, s: seq<Byte>, slave: nat -> Response): (n: Far)
    requires !far.master.phase.Waiting?
    ensures !n.master.phase.Waiting?
    decreases |s|
  {
    if |s| == 0 then far else ArriveAll(cfg, Arrive(cfg, far, s[0], slave), s[1..], slave)
  }

  lemma {:induction false} ArriveConcat(cfg: Config, far: Far, s: seq<Byte>, t: seq<Byte>, slave: nat -> Response)
    requires !far.master.phase.Waiting?
    ensures ArriveAll(cfg, far, s + t, slave) == ArriveAll(cfg, ArriveAll(cfg, far, s, slave), t, slave)
    decreases |s|
  {
    if |s| == 0 {
      assert s + t == t;
    } else {
      ArriveConcat(cfg, Arrive(cfg, far, s[0], slave), s[1..], t, slave);
      assert (s + t)[1..] == s[1..] + t;
    }
  }

  lemma ArriveOne(cfg: Config, far: Far, b: Byte, slave: nat -> Response)
    requires !far.master.phase.Waiting?
    ensures ArriveAll(cfg, far, [b], slave) == Arrive(cfg, far, b, slave)
  {
    assert [b][1..] == [];
  }

  lemma EscapedByteArrives(cfg: Config, far: Far, b: Byte, slave: nat -> Response)
    requires !far.master.phase.Waiting? && !far.escaping
    ensures ArriveAll(cfg, far, EscapeByte(b), slave) == Taken(cfg, far, b, slave)
  {
    if b == ESCAPE || b == RESET {
      assert [ESCAPE, b][1..] == [b];
      ArriveOne(cfg, far.(escaping := true), b, slave);
    } else {
      ArriveOne(cfg, far, b, slave);
    }
  }

  // Escaped payload arrives as it was.
  lemma {:induction false} PayloadArrives(cfg: Config, far: Far, d: seq<Byte>, slave: nat -> Response)
    requires !far.master.phase.Waiting? && !far.escaping
    ensures ArriveAll(cfg, far, Escape(d), slave) == far.(master := Feed(cfg, far.master, d, slave))
    decreases |d|
  {
    if |d| == 0 {
    } else {
      ArriveConcat(cfg, far, EscapeByte(d[0]), Escape(d[1..]), slave);
      EscapedByteArrives(cfg, far, d[0], slave);
      PayloadArrives(cfg, Taken(cfg, far, d[0], slave), d[1..], slave);
    }
  }

  // Part of a field.
  lemma {:induction false} FeedPart(cfg: Config, m: Master, k: Kind, got: seq<Byte>, s: seq<Byte>, slave: nat -> Response)
    requires m.phase == Collecting(k, got) && |got| + |s| < Size(cfg, k)
    ensures Feed(cfg, m, s, slave) == m.(phase := Collecting(k, got + s))
    decreases |s|
  {
    if |s| == 0 {
      assert got + s == got;
    } else {
      FeedPart(cfg, m.(phase := Collecting(k, got + [s[0]])), k, got + [s[0]], s[1..], slave);
      assert (got + [s[0]]) + s[1..] == got + s;
    }
  }

  // ---- Calls ----

  datatype Call =
    | Write(address: seq<Byte>, data: seq<Byte>, locked: bool)
    | Read(address: seq<Byte>, locked: bool)
    | SetMiscellaneous(data: seq<Byte>)
    | SetStrobeTo(data: seq<Byte>)

  // The field exists and the caller's buffers are long enough.
  predicate Callable(cfg: Config, c: Call) {
    match c
    case Write(a, d, _) => cfg.writeWidth > 0 && |a| >= RoundUp(cfg.addressWidth) && |d| >= RoundUp(cfg.writeWidth)
    case Read(a, _) => cfg.readWidth > 0 && |a| >= RoundUp(cfg.addressWidth)
    case SetMiscellaneous(d) => cfg.miscWidth > 0 && |d| >= RoundUp(cfg.miscWidth)
    case SetStrobeTo(d) => cfg.strobeWidth > 0 && |d| >= RoundUp(cfg.strobeWidth)
  }

  function Prefix(s: seq<Byte>, n: nat): seq<Byte>
    requires n <= |s|
  {
    s[..n]
  }

  // The address is only sent when it is not the one sent before.
  function AddressBytes(cfg: Config, shadow: seq<Byte>, address: seq<Byte>): seq<Byte>
    requires |address| >= RoundUp(cfg.addressWidth)
  {
    var a := Prefix(address, RoundUp(cfg.addressWidth));
    if |a| == 0 || a == shadow then [] else [SET_ADDRESS] + Escape(a)
  }

  function AccessBytes(cfg: Config, c: Call): seq<Byte>
    requires Callable(cfg, c) && (c.Write? || c.Read?)
  {
    if c.Write? then [if c.locked then WRITE_LOCK else WRITE_UNLOCK] + Escape(Prefix(c.data, RoundUp(cfg.writeWidth)))
    else [if c.locked then READ_LOCK else READ_UNLOCK]
  }

  // What a call sends.
  function CallBytes(cfg: Config, shadow: seq<Byte>, c: Call): seq<Byte>
    requires Callable(cfg, c)
  {
    match c
    case SetMiscellaneous(d) => [SET_MISC] + Escape(Prefix(d, RoundUp(cfg.miscWidth)))
    case SetStrobeTo(d) => [SET_STROBE] + Escape(Prefix(d, RoundUp(cfg.strobeWidth)))
    case _ => AddressBytes(cfg, shadow, c.address) + AccessBytes(cfg, c)
  }

  // The bytes of an access as numbers: the address with its command, unless it is the one sent
  // before, and the command of the access with or without lock.
  lemma AccessOnTheWire(cfg: Config, shadow: seq<Byte>, c: Call)
    requires Callable(cfg, c) && (c.Write? || c.Read?)
    ensures var a := c.address[..RoundUp(cfg.addressWidth)];
            CallBytes(cfg, shadow, c)
            == (if a == [] || a == shadow then [] else [0xD0] + Escape(a))
               + if c.Write? then [if c.locked then 0xBE else 0xBF] + Escape(c.data[..RoundUp(cfg.writeWidth)])
                 else [if c.locked then 0xCE else 0xCF]
  {
  }

  lemma FieldOnTheWire(cfg: Config, shadow: seq<Byte>, c: Call)
    requires Callable(cfg, c) && !c.Write? && !c.Read?
    ensures CallBytes(cfg, shadow, c) == if c.SetMiscellaneous? then [0xE5] + Escape(c.data[..RoundUp(cfg.miscWidth)])
                                         else [0x92] + Escape(c.data[..RoundUp(cfg.strobeWidth)])
  {
  }

  function ShadowAfter(cfg: Config, shadow: seq<Byte>, c: Call): seq<Byte>
    requires Callable(cfg, c)
  {
    if c.Write? || c.Read? then Prefix(c.address, RoundUp(cfg.addressWidth)) else shadow
  }

  // ---- The ideal bus master: every call carries its own address ----

  function IdealAccess(cfg: Config, m: Master, write: bool, address: seq<Byte>, data: nat, lock: bool, slave: nat -> Response): Master {
    var request := Request(write, Field(cfg.addressWidth, address), data, m.strobe, m.misc, lock);
    var response := slave(|m.done|);
    m.(address := request.address, held := lock, done := m.done + [Access(request, m.held || lock, response)],
       answers := m.answers + Answer(cfg, request, response))
  }

  function Ideal(cfg: Config, m: Master, c: Call, slave: nat -> Response): (n: Master)
    requires Callable(cfg, c) && m.phase.Idle?
    ensures n.phase.Idle?
  {
    match c
    case SetMiscellaneous(d) => m.(misc := Field(cfg.miscWidth, Prefix(d, RoundUp(cfg.miscWidth))))
    case SetStrobeTo(d) => m.(strobe := Field(cfg.strobeWidth, Prefix(d, RoundUp(cfg.strobeWidth))))
    case Write(a, d, lock) =>
      IdealAccess(cfg, m, true, Prefix(a, RoundUp(cfg.addressWidth)), Field(cfg.writeWidth, Prefix(d, RoundUp(cfg.writeWidth))), lock, slave)
    case Read(a, lock) => IdealAccess(cfg, m, false, Prefix(a, RoundUp(cfg.addressWidth)), 0, lock, slave)
  }

  // The cache agrees with the register on the far side.
  predicate Agreed(cfg: Config, far: Far, shadow: seq<Byte>) {
    && !far.escaping && far.master.phase.Idle?
    && |shadow| == RoundUp(cfg.addressWidth) && far.master.address == Field(cfg.addressWidth, shadow)
  }

  lemma CommandArrives(cfg: Config, far: Far, b: Byte, s: seq<Byte>, slave: nat -> Response)
    requires !far.escaping && !far.master.phase.Waiting? && b != ESCAPE && b != RESET
    ensures ArriveAll(cfg, far, [b] + s, slave) == ArriveAll(cfg, Taken(cfg, far, b, slave), s, slave)
  {
    assert ([b] + s)[1..] == s;
  }

  lemma FieldArrives(cfg: Config, far: Far, k: Kind, command: Byte, d: seq<Byte>, slave: nat -> Response)
    requires !far.escaping && far.master.phase.Idle? && command != ESCAPE && command != RESET
    requires Command(cfg, far.master, command) == far.master.(phase := Collecting(k, []))
    requires |d| == Size(cfg, k) > 0
    ensures ArriveAll(cfg, far, [command] + Escape(d), slave) == far.(master := Settle(cfg, Complete(cfg, far.master, k, d), slave))
  {
    CommandArrives(cfg, far, command, Escape(d), slave);
    var n := Taken(cfg, far, command, slave);
    PayloadArrives(cfg, n, d, slave);
    FeedField(cfg, n.master, k, [], d, slave);
    assert [] + d == d;
    assert Complete(cfg, n.master, k, d) == Complete(cfg, far.master, k, d);
  }

  lemma FieldFollows(cfg: Config, far: Far, k: Kind, command: Byte, d: seq<Byte>, slave: nat -> Response)
    requires !far.escaping && far.master.phase.Idle? && command != ESCAPE && command != RESET
    requires Command(cfg, far.master, command) == far.master.(phase := Collecting(k, []))
    requires |d| == Size(cfg, k) > 0
    ensures ArriveAll(cfg, Arrive(cfg, far, command, slave), Escape(d), slave)
         == far.(master := Settle(cfg, Complete(cfg, far.master, k, d), slave))
  {
    FieldArrives(cfg, far, k, command, d, slave);
    CommandArrives(cfg, far, command, Escape(d), slave);
  }

  lemma AddressArrives(cfg: Config, far: Far, shadow: seq<Byte>, address: seq<Byte>, slave: nat -> Response)
    requires Agreed(cfg, far, shadow) && |address| >= RoundUp(cfg.addressWidth)
    ensures var a := Prefix(address, RoundUp(cfg.addressWidth));
            var n := ArriveAll(cfg, far, AddressBytes(cfg, shadow, address), slave);
            n == far.(master := far.master.(address := Field(cfg.addressWidth, a))) && Agreed(cfg, n, a)
  {
    var a := Prefix(address, RoundUp(cfg.addressWidth));
    if |a| != 0 && a != shadow {
      FieldArrives(cfg, far, Address, SET_ADDRESS, a, slave);
    } else {
      assert a == shadow;
    }
  }

  lemma AccessArrives(cfg: Config, far: Far, c: Call, slave: nat -> Response)
    requires Callable(cfg, c) && (c.Write? || c.Read?)
    requires Agreed(cfg, far, Prefix(c.address, RoundUp(cfg.addressWidth)))
    ensures ArriveAll(cfg, far, AccessBytes(cfg, c), slave) == far.(master := Ideal(cfg, far.master, c, slave))
  {
    if c.Write? {
      FieldArrives(cfg, far, WriteData(c.locked), if c.locked then WRITE_LOCK else WRITE_UNLOCK,
                   Prefix(c.data, RoundUp(cfg.writeWidth)), slave);
    } else {
      ArriveOne(cfg, far, if c.locked then READ_LOCK else READ_UNLOCK, slave);
    }
  }

  // A call does on the bus what the ideal master does, although it may not send its address.
  lemma CallCarried(cfg: Config, far: Far, shadow: seq<Byte>, c: Call, slave: nat -> Response)
    requires Agreed(cfg, far, shadow) && Callable(cfg, c)
    ensures var n := ArriveAll(cfg, far, CallBytes(cfg, shadow, c), slave);
            n == far.(master := Ideal(cfg, far.master, c, slave)) && Agreed(cfg, n, ShadowAfter(cfg, shadow, c))
  {
    match c {
      case SetMiscellaneous(d) => FieldArrives(cfg, far, Misc, SET_MISC, Prefix(d, RoundUp(cfg.miscWidth)), slave);
      case SetStrobeTo(d) => FieldArrives(cfg, far, Strobe, SET_STROBE, Prefix(d, RoundUp(cfg.strobeWidth)), slave);
      case _ =>
        AddressArrives(cfg, far, shadow, c.address, slave);
        ArriveConcat(cfg, far, AddressBytes(cfg, shadow, c.address), AccessBytes(cfg, c), slave);
        AccessArrives(cfg, ArriveAll(cfg, far, AddressBytes(cfg, shadow, c.address), slave), c, slave);
    }
  }

  function SessionBytes(cfg: Config, shadow: seq<Byte>, calls: seq<Call>): seq<Byte>
    requires forall c :: c in calls ==> Callable(cfg, c)
    decreases |calls|
  {
    if |calls| == 0 then []
    else CallBytes(cfg, shadow, calls[0]) + SessionBytes(cfg, ShadowAfter(cfg, shadow, calls[0]), calls[1..])
  }

  function IdealSession(cfg: Config, m: Master, calls: seq<Call>, slave: nat -> Response): (n: Master)
    requires (forall c :: c in calls ==> Callable(cfg, c)) && m.phase.Idle?
    ensures n.phase.Idle?
    decreases |calls|
  {
    if |calls| == 0 then m else IdealSession(cfg, Ideal(cfg, m, calls[0], slave), calls[1..], slave)
  }

  function LastShadow(cfg: Config, shadow: seq<Byte>, calls: seq<Call>): seq<Byte>
    requires forall c :: c in calls ==> Callable(cfg, c)
    decreases |calls|
  {
    if |calls| == 0 then shadow else LastShadow(cfg, ShadowAfter(cfg, shadow, calls[0]), calls[1..])
  }

  // Over any sequence of calls.
  lemma {:induction false} SessionCarried(cfg: Config, far: Far, shadow: seq<Byte>, calls: seq<Call>, slave: nat -> Response)
    requires Agreed(cfg, far, shadow) && forall c :: c in calls ==> Callable(cfg, c)
    ensures var n := ArriveAll(cfg, far, SessionBytes(cfg, shadow, calls), slave);
            && n == far.(master := IdealSession(cfg, far.master, calls, slave))
            && Agreed(cfg, n, LastShadow(cfg, shadow, calls))
    decreases |calls|
  {
    if |calls| == 0 {
    } else {
      CallCarried(cfg, far, shadow, calls[0], slave);
      var n := ArriveAll(cfg, far, CallBytes(cfg, shadow, calls[0]), slave);
      var later := ShadowAfter(cfg, shadow, calls[0]);
      SessionCarried(cfg, n, later, calls[1..], slave);
      ArriveConcat(cfg, far, CallBytes(cfg, shadow, calls[0]), SessionBytes(cfg, later, calls[1..]), slave);
    }
  }

  // The far side of a call when the address has been set.
  lemma WriteFollows(cfg: Config, far: Far, m: Master, c: Call, slave: nat -> Response)
    requires Callable(cfg, c) && c.Write? && !far.escaping && m.phase.Idle?
    requires far.master == m.(address := Field(cfg.addressWidth, Prefix(c.address, RoundUp(cfg.addressWidth))))
    ensures ArriveAll(cfg, Arrive(cfg, far, if c.locked then WRITE_LOCK else WRITE_UNLOCK, slave),
                      Escape(Prefix(c.data, RoundUp(cfg.writeWidth))), slave)
         == far.(master := Ideal(cfg, m, c, slave))
  {
    FieldFollows(cfg, far, WriteData(c.locked), if c.locked then WRITE_LOCK else WRITE_UNLOCK,
                 Prefix(c.data, RoundUp(cfg.writeWidth)), slave);
  }

  lemma ReadFollows(cfg: Config, far: Far, m: Master, c: Call, slave: nat -> Response)
    requires Callable(cfg, c) && c.Read? && !far.escaping && m.phase.Idle?
    requires far.master == m.(address := Field(cfg.addressWidth, Prefix(c.address, RoundUp(cfg.addressWidth))))
    ensures Arrive(cfg, far, if c.locked then READ_LOCK else READ_UNLOCK, slave) == far.(master := Ideal(cfg, m, c, slave))
  {
  }

  lemma WriteBytes(cfg: Config, sent: seq<Byte>, shadow: seq<Byte>, c: Call)
    requires Callable(cfg, c) && c.Write?
    ensures sent + AddressBytes(cfg, shadow, c.address) + [if c.locked then WRITE_LOCK else WRITE_UNLOCK]
              + Escape(Prefix(c.data, RoundUp(cfg.writeWidth)))
         == sent + CallBytes(cfg, shadow, c)
  {
  }

  // ---- Opening a connection: two reset symbols ----

  // A decoder in the middle of an escape sequence, in front of the last byte of a write.
  predicate StaleWrite(cfg: Config, far: Far) {
    && far.escaping && far.master.phase.Collecting? && far.master.phase.kind.WriteData?
    && |far.master.phase.got| + 1 == Size(cfg, far.master.phase.kind)
  }

  // A sender that stops there is all it takes.
  lemma StaleIsReachable(cfg: Config, far: Far, d: seq<Byte>, slave: nat -> Response)
    requires !far.escaping && far.master.phase.Idle? && |d| + 1 == RoundUp(cfg.writeWidth)
    ensures var n := ArriveAll(cfg, far, [WRITE_UNLOCK] + Escape(d) + [ESCAPE], slave);
            StaleWrite(cfg, n) && n.master.answers == far.master.answers
  {
    var n := Taken(cfg, far, WRITE_UNLOCK, slave);
    assert [WRITE_UNLOCK] + Escape(d) + [ESCAPE] == [WRITE_UNLOCK] + (Escape(d) + [ESCAPE]);
    CommandArrives(cfg, far, WRITE_UNLOCK, Escape(d) + [ESCAPE], slave);
    ArriveConcat(cfg, n, Escape(d), [ESCAPE], slave);
    PayloadArrives(cfg, n, d, slave);
    FeedPart(cfg, n.master, WriteData(false), [], d, slave);
    assert [] + d == d;
    ArriveOne(cfg, ArriveAll(cfg, n, Escape(d), slave), ESCAPE, slave);
  }

  // When the core is reset: has the bus answered the access that was going on, and how many
  // answers have ever been handed over.
  datatype Timing = Timing(answered: bool, handed: nat)

  // The first symbol: the core takes it as data, loses it or is reset by it.
  function FirstSymbol(cfg: Config, far: Far): Master {
    if far.escaping && !far.master.phase.Waiting? then ByteIn(cfg, far.master, RESET) else far.master
  }

  function BeforeReset(cfg: Config, far: Far, answered: bool, slave: nat -> Response): Master {
    var m := FirstSymbol(cfg, far);
    if answered && m.phase.Waiting? then Answered(cfg, m, slave(|m.done|)) else m
  }

  // The answers that have not left the core by then are dropped.
  function ResetFar(cfg: Config, far: Far, t: Timing, slave: nat -> Response): Far
    requires t.handed <= |BeforeReset(cfg, far, t.answered, slave).answers|
  {
    var m := BeforeReset(cfg, far, t.answered, slave);
    Far(false, ResetMaster(cfg, m).(answers := m.answers[..t.handed]), t.handed)
  }

  // When the host has had all its answers and no access is going on, the resets leave at most
  // one answer that nobody waits for: the verdict of the write that the first symbol completes.
  // It is there if and only if the bus has answered and the core has handed it over in time.
  lemma StrayAnswer(cfg: Config, far: Far, t: Timing, slave: nat -> Response)
    requires !far.master.phase.Waiting? && Sound(cfg, far.master)
    requires |far.master.answers| <= t.handed <= |BeforeReset(cfg, far, t.answered, slave).answers|
    ensures var n := ResetFar(cfg, far, t, slave).master.answers;
            && far.master.answers <= n
            && (if StaleWrite(cfg, far) && t.answered && t.handed == |far.master.answers| + 1
                then n[|far.master.answers|..] == [if slave(|far.master.done|).error then NACK else ACK]
                else n == far.master.answers)
  {
  }
}
