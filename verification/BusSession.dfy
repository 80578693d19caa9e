// A connection from its opening on, as one clocked run: the two reset symbols, the width query
// (from the edge right after the second symbol on), the first address and any calls.
module BusSession {
  import opened Bytes
  import opened Numbers
  import opened Escaping
  import opened BusMaster
  import opened BusCore
  import opened BusRefinement
  import opened BusRuns
  import opened BusCalls
  import opened BusOpen
  import opened BusEndToEnd

  function Idle(i: In): In { i.(offered := false) }

  function Quieted(ins: seq<In>): seq<In>
    requires |ins| > 0
  {
    ins[..|ins| - 1] + [Idle(ins[|ins| - 1])]
  }

  // At the last edge, the one at which the core is reset, the next byte may be offered already.
  predicate Opens(ins: seq<In>) {
    |ins| > 0 && Reopens(Quieted(ins)) && (ins[|ins| - 1].offered ==> ins[|ins| - 1].b != RESET)
  }

  lemma {:induction false} RunSnoc(cfg: Config, r: Run, ins: seq<In>, i: In)
    requires Formed(cfg, r.x.sys.c)
    ensures RunAll(cfg, r, ins + [i]) == Go(cfg, RunAll(cfg, r, ins), i)
    decreases |ins|
  {
    if |ins| == 0 {
      RunFirst(cfg, r, i, []);
      assert ins + [i] == [i] + [];
    } else {
      RunFirst(cfg, r, ins[0], ins[1..] + [i]);
      RunFirst(cfg, r, ins[0], ins[1..]);
      RunSnoc(cfg, Go(cfg, r, ins[0]), ins[1..], i);
      assert ins + [i] == [ins[0]] + (ins[1..] + [i]) && ins == [ins[0]] + ins[1..];
    }
  }

  // In front of the last edge the reset is pending.
  predicate Resetting(s: Stage) { s.reset && !s.valid && !s.escaping }

  lemma {:induction false} SecondPending(cfg: Config, r: Run, ins: seq<In>)
    requires Opening(cfg, r) && OnlySecond(ins)
    ensures Resetting(RunAll(cfg, r, ins[..|ins| - 1]).x.stage)
    decreases |ins|
  {
    var head := ins[..|ins| - 1];
    OpeningStep(cfg, r, ins[0]);
    RunFirst(cfg, r, ins[0], head[1..]);
    assert head == [ins[0]] + head[1..];
    if |ins| == 2 {
      assert head[1..] == [];
    } else {
      SecondPending(cfg, Go(cfg, r, ins[0]), ins[1..]);
      assert ins[1..][..|ins| - 2] == head[1..];
    }
  }

  lemma ResetPending(cfg: Config, r: Run, ins: seq<In>)
    requires InStep(cfg, r) && Reopens(ins)
    ensures Resetting(RunAll(cfg, r, ins[..|ins| - 1]).x.stage)
  {
    var head := ins[..|ins| - 1];
    FirstTaken(cfg, r, ins[0]);
    SecondPending(cfg, Go(cfg, r, ins[0]), ins[1..]);
    RunFirst(cfg, r, ins[0], head[1..]);
    assert head == [ins[0]] + head[1..] && ins[1..][..|ins| - 2] == head[1..];
  }

  // What is offered at the edge of the reset only enters the escaping stage.
  lemma LastEdge(cfg: Config, q: Run, i: In)
    requires Formed(cfg, q.x.sys.c) && q.x.stage.reset
    ensures Go(cfg, q, i) == Go(cfg, q, Idle(i)).(x := Full(StageStep(q.x.stage, i.offered, i.b, true), Go(cfg, q, Idle(i)).x.sys))
  {
  }

  lemma StartsEarly(cfg: Config, q: Run, i: In)
    requires Formed(cfg, q.x.sys.c) && Resetting(q.x.stage) && (i.offered ==> i.b != RESET)
    requires InStep(cfg, Go(cfg, q, Idle(i))) && Clean(cfg, Go(cfg, q, Idle(i)))
    ensures InStep(cfg, Go(cfg, q, i))
  {
    LastEdge(cfg, q, i);
  }

  // The host's view right after that edge is the reset master, fed with the byte.
  lemma EarlyView(cfg: Config, q: Run, i: In, slave: nat -> Response)
    requires Formed(cfg, q.x.sys.c) && Resetting(q.x.stage) && (i.offered ==> i.b != RESET)
    requires Clean(cfg, Go(cfg, q, Idle(i)))
    ensures var m, n := Go(cfg, q, Idle(i)).m, Go(cfg, q, i);
            && m.phase.Idle?
            && View(cfg, n, slave) == Feed(cfg, m, DataOf(Decode(false, Offered([i]))), slave)
            && n.x.stage.escaping == Escaped(false, Offered([i]))
  {
    LastEdge(cfg, q, i);
    assert [i][1..] == [];
    if i.offered {
      DecodeOne(false, i.b);
      assert Offered([i]) == [i.b];
      if i.b != ESCAPE {
        FeedOne(cfg, Go(cfg, q, Idle(i)).m, i.b, slave);
        assert [Data(i.b)][1..] == [];
      }
    } else {
      assert Offered([i]) == [];
    }
  }

  lemma FeedOne(cfg: Config, m: Master, b: Byte, slave: nat -> Response)
    requires !m.phase.Waiting?
    ensures Feed(cfg, m, [b], slave) == Settle(cfg, ByteIn(cfg, m, b), slave)
  {
    assert [b][1..] == [];
  }

  lemma OfferedConcat(i: In, rest: seq<In>)
    ensures Offered([i] + rest) == Offered([i]) + Offered(rest)
  {
    assert ([i] + rest)[1..] == rest && [i][1..] == [];
  }

  // A disciplined run after the opening, in terms of the bytes from the reset on.
  lemma RunFromReset(cfg: Config, q: Run, i: In, later: seq<In>, slave: nat -> Response)
    requires Formed(cfg, q.x.sys.c) && Resetting(q.x.stage) && (i.offered ==> i.b != RESET)
    requires InStep(cfg, Go(cfg, q, Idle(i))) && Clean(cfg, Go(cfg, q, Idle(i)))
    requires AllDisciplined(cfg, Go(cfg, q, i), later)
    requires Agrees(slave, RunAll(cfg, Go(cfg, q, i), later).trace, |Go(cfg, q, i).trace|)
    ensures !Go(cfg, q, Idle(i)).m.phase.Waiting?
    ensures View(cfg, RunAll(cfg, Go(cfg, q, i), later), slave)
         == Feed(cfg, Go(cfg, q, Idle(i)).m, DataOf(Decode(false, Offered([i] + later))), slave)
    ensures NoReset(false, Offered([i] + later))
  {
    var n, m := Go(cfg, q, i), Go(cfg, q, Idle(i)).m;
    var first, rest := Offered([i]), Offered(later);
    StartsEarly(cfg, q, i);
    EarlyView(cfg, q, i, slave);
    RunFeeds(cfg, n, later, slave);
    DisciplinedSendsNoReset(cfg, n, later);
    OfferedConcat(i, later);
    DecodeConcat(false, first, rest);
    DataOfConcat(Decode(false, first), Decode(Escaped(false, first), rest));
    FeedConcat(cfg, m, DataOf(Decode(false, first)), DataOf(Decode(Escaped(false, first), rest)), slave);
    NoResetConcat(false, first, rest);
  }

  // ---- What the host sends after the reset ----

  function Zeros(cfg: Config): (s: seq<Byte>)
    ensures |s| == RoundUp(cfg.addressWidth)
  {
    seq(RoundUp(cfg.addressWidth), _ => 0)
  }

  function OpenBytes(cfg: Config): seq<Byte> {
    [READ_WIDTHS] + if RoundUp(cfg.addressWidth) == 0 then [] else [SET_ADDRESS] + Escape(Zeros(cfg))
  }

  lemma {:induction false} ZeroValue(s: seq<Byte>)
    requires forall i :: 0 <= i < |s| ==> s[i] == 0
    ensures Value(s) == 0
  {
    if |s| == 0 {
    } else {
      ZeroValue(s[1..]);
    }
  }

  lemma ZerosField(cfg: Config)
    ensures Field(cfg.addressWidth, Zeros(cfg)) == 0
  {
    ZeroValue(Zeros(cfg));
  }

  // The width answer, and the address the cache begins with.
  lemma OpenBytesArrive(cfg: Config, m: Master, slave: nat -> Response)
    requires m == ResetMaster(cfg, m)
    ensures var far := Far(false, m, 0);
            var n := ArriveAll(cfg, far, OpenBytes(cfg), slave);
            n == far.(master := m.(answers := m.answers + WordBytes(WidthWords(cfg)))) && Agreed(cfg, n, Zeros(cfg))
  {
    var far := Far(false, m, 0);
    var asked := far.(master := m.(answers := m.answers + WordBytes(WidthWords(cfg))));
    ZerosField(cfg);
    assert Taken(cfg, far, READ_WIDTHS, slave) == asked;
    if RoundUp(cfg.addressWidth) == 0 {
      ArriveOne(cfg, far, READ_WIDTHS, slave);
      assert OpenBytes(cfg) == [READ_WIDTHS];
    } else {
      CommandArrives(cfg, far, READ_WIDTHS, [SET_ADDRESS] + Escape(Zeros(cfg)), slave);
      FieldArrives(cfg, asked, Address, SET_ADDRESS, Zeros(cfg), slave);
    }
  }

  lemma BytesArrive(cfg: Config, m: Master, calls: seq<Call>, slave: nat -> Response)
    requires m == ResetMaster(cfg, m) && forall c :: c in calls ==> Callable(cfg, c)
    ensures var n := ArriveAll(cfg, Far(false, m, 0), OpenBytes(cfg) + SessionBytes(cfg, Zeros(cfg), calls), slave);
            && n.master == IdealSession(cfg, m.(answers := m.answers + WordBytes(WidthWords(cfg))), calls, slave)
            && Agreed(cfg, n, LastShadow(cfg, Zeros(cfg), calls))
  {
    var far := Far(false, m, 0);
    OpenBytesArrive(cfg, m, slave);
    ArriveConcat(cfg, far, OpenBytes(cfg), SessionBytes(cfg, Zeros(cfg), calls), slave);
    SessionCarried(cfg, ArriveAll(cfg, far, OpenBytes(cfg), slave), Zeros(cfg), calls, slave);
  }

  // The accesses seen, the answers received but for those on their way, and the address
  // register, when the core has come to rest.
  predicate Serves(cfg: Config, n: Run, ideal: Master, shadow: seq<Byte>) {
    && InStep(cfg, n) && n.trace == ideal.done && n.out + InFlight(cfg, n.x.sys) == ideal.answers
    && Latched(cfg, n.x.sys.c.r, ToAddress, Address, n.x.sys.c.r.address) == Field(cfg.addressWidth, shadow)
    && (!n.x.sys.c.r.valid ==> n.x.sys.c.r.address == Field(cfg.addressWidth, shadow))
  }

  lemma RestServes(cfg: Config, n: Run, ideal: Master, shadow: seq<Byte>, slave: nat -> Response)
    requires InStep(cfg, n) && AtRest(n) && View(cfg, n, slave) == ideal && ideal.address == Field(cfg.addressWidth, shadow)
    ensures Serves(cfg, n, ideal, shadow)
  {
    RestingView(cfg, n, slave);
  }

  // The core as the reset leaves it, after ins.
  function ResetBy(cfg: Config, r: Run, ins: seq<In>): Master
    requires Formed(cfg, r.x.sys.c) && |ins| > 0
  {
    RunAll(cfg, r, Quieted(ins)).m
  }

  lemma LastOfQuieted(cfg: Config, r: Run, ins: seq<In>)
    requires Formed(cfg, r.x.sys.c) && |ins| > 0
    ensures var q, i := RunAll(cfg, r, ins[..|ins| - 1]), ins[|ins| - 1];
            Go(cfg, q, i) == RunAll(cfg, r, ins) && Go(cfg, q, Idle(i)) == RunAll(cfg, r, Quieted(ins))
  {
    var head, i := ins[..|ins| - 1], ins[|ins| - 1];
    RunSnoc(cfg, r, head, Idle(i));
    RunSnoc(cfg, r, head, i);
    assert head + [i] == ins;
  }

  lemma OpensInStep(cfg: Config, r: Run, ins: seq<In>)
    requires InStep(cfg, r) && Opens(ins)
    ensures Resetting(RunAll(cfg, r, ins[..|ins| - 1]).x.stage)
    ensures InStep(cfg, RunAll(cfg, r, Quieted(ins))) && Clean(cfg, RunAll(cfg, r, Quieted(ins)))
  {
    ResetPending(cfg, r, Quieted(ins));
    assert Quieted(ins)[..|ins| - 1] == ins[..|ins| - 1];
    OpenEnds(cfg, r, Quieted(ins));
  }

  // From every state that a run can reach, with an access going on or answers on their way:
  // after the two reset symbols, at any distance, the width query, the first address and any
  // calls with any timing are served as the ideal master serves them, from its reset values on.
  lemma OpenedSession(cfg: Config, r: Run, ins: seq<In>, later: seq<In>, calls: seq<Call>, slave: nat -> Response)
    requires InStep(cfg, r) && Opens(ins) && forall c :: c in calls ==> Callable(cfg, c)
    requires Offered([ins[|ins| - 1]] + later) == OpenBytes(cfg) + SessionBytes(cfg, Zeros(cfg), calls)
    requires AllDisciplined(cfg, RunAll(cfg, r, ins), later) && AtRest(RunAll(cfg, RunAll(cfg, r, ins), later))
    requires Agrees(slave, RunAll(cfg, RunAll(cfg, r, ins), later).trace, |RunAll(cfg, r, ins).trace|)
    ensures var m := ResetBy(cfg, r, ins);
            && m == ResetMaster(cfg, m)
            && Serves(cfg, RunAll(cfg, RunAll(cfg, r, ins), later),
                      IdealSession(cfg, m.(answers := m.answers + WordBytes(WidthWords(cfg))), calls, slave),
                      LastShadow(cfg, Zeros(cfg), calls))
  {
    var q, i, m := RunAll(cfg, r, ins[..|ins| - 1]), ins[|ins| - 1], ResetBy(cfg, r, ins);
    OpensInStep(cfg, r, ins);
    LastOfQuieted(cfg, r, ins);
    StartsEarly(cfg, q, i);
    RunFromReset(cfg, q, i, later, slave);
    RunInStep(cfg, Go(cfg, q, i), later);
    ArriveIsFeed(cfg, Far(false, m, 0), Offered([i] + later), slave);
    BytesArrive(cfg, m, calls, slave);
    RestServes(cfg, RunAll(cfg, Go(cfg, q, i), later), ArriveAll(cfg, Far(false, m, 0), Offered([i] + later), slave).master,
               LastShadow(cfg, Zeros(cfg), calls), slave);
  }
}
