// The commands activate and fire: when trigger_active and fire_trigger are '1', and a capture
// from the activate command on.
module LaActivation {
  import opened LaMemory
  import opened LaCapture
  import opened LaReadout
  import opened LaEndToEnd

  // ---- The two registers, over every run of the controller ----

  predicate Formed(w: nat, es: seq<CtlIn>) { w >= 1 && forall k :: 0 <= k < |es| ==> |es[k].data| == w }

  function CtlRun(w: nat, c: Controller, es: seq<CtlIn>): (d: Controller)
    requires |c.temporary| == w && Formed(w, es)
    ensures |d.temporary| == w
    decreases |es|
  {
    if |es| == 0 then c else CtlStep(w, CtlRun(w, c, es[..|es| - 1]), es[|es| - 1])
  }

  // The commands, and the registers that they set.
  datatype Command = Activate | Fire

  predicate Register(c: Controller, command: Command) {
    match command
    case Activate => c.triggerActive
    case Fire => c.fire
  }

  predicate Arrives(i: CtlIn, command: Command) {
    match command
    case Activate => i.activate
    case Fire => i.fire
  }

  // At edge k the command comes while the controller is in init.
  predicate Obeyed(w: nat, c: Controller, es: seq<CtlIn>, command: Command, k: nat)
    requires |c.temporary| == w && Formed(w, es) && k < |es|
  {
    !CtlRun(w, c, es[..k]).reading && Arrives(es[k], command)
  }

  // At edge k of the readout the memory says that it is finished.
  predicate Finished(w: nat, c: Controller, es: seq<CtlIn>, k: nat)
    requires |c.temporary| == w && Formed(w, es) && k < |es|
  {
    CtlRun(w, c, es[..k]).reading && es[k].finish
  }

  predicate NotFinished(w: nat, c: Controller, es: seq<CtlIn>, from: nat)
    requires |c.temporary| == w && Formed(w, es)
  {
    forall k :: from <= k < |es| ==> !Finished(w, c, es, k)
  }

  ghost predicate ObeyedSince(w: nat, c: Controller, es: seq<CtlIn>, command: Command)
    requires |c.temporary| == w && Formed(w, es)
  {
    exists k: nat | k < |es| :: Obeyed(w, c, es, command, k) && NotFinished(w, c, es, k)
  }

  // The registers that the commands set are not touched by the bytes of a sample.
  predicate SameCommands(c: Controller, d: Controller) { c.triggerActive == d.triggerActive && c.fire == d.fire }

  lemma Sent(t: Controller, octet: Octet, rest: Word)
    ensures SameCommands(t.(upValid := true, upData := octet, temporary := rest), t)
  {
  }

  lemma StoreKeeps(w: nat, c: Controller, t: Controller, i: CtlIn)
    requires |c.temporary| == w && |t.temporary| == w
    ensures SameCommands(StoreStep(w, c, t, i), t)
  {
    var u := t.(request := false);
    assert SameCommands(u, t);
    if UpFree(c, i.ready) {
      Sent(u, LowByte(w, c.temporary), Shifted(w, c.temporary, i.any));
    }
  }

  lemma OutputKeeps(w: nat, c: Controller, t: Controller, i: CtlIn)
    requires |c.temporary| == w && |t.temporary| == w && |i.data| == w
    ensures SameCommands(OutputStep(w, c, t, i), t)
  {
    match c.output
    case Store => StoreKeeps(w, c, t, i);
    case _ =>
  }

  lemma StepRegister(w: nat, d: Controller, i: CtlIn, command: Command)
    requires w >= 1 && |d.temporary| == w && |i.data| == w
    ensures Register(CtlStep(w, d, i), command)
       <==> (!d.reading && Arrives(i, command)) || (Register(d, command) && !(d.reading && i.finish))
  {
    if d.reading {
      OutputKeeps(w, d, EndStep(d, i), i);
    }
  }

  lemma LastEdge(w: nat, c: Controller, es: seq<CtlIn>, command: Command)
    requires |c.temporary| == w && Formed(w, es) && |es| > 0
    ensures var n := |es| - 1;
            Register(CtlRun(w, c, es), command)
            <==> Obeyed(w, c, es, command, n) || (Register(CtlRun(w, c, es[..n]), command) && !Finished(w, c, es, n))
  {
    StepRegister(w, CtlRun(w, c, es[..|es| - 1]), es[|es| - 1], command);
  }

  lemma EarlierEdge(w: nat, c: Controller, es: seq<CtlIn>, command: Command, k: nat)
    requires |c.temporary| == w && Formed(w, es) && k < |es| - 1
    ensures Obeyed(w, c, es[..|es| - 1], command, k) == Obeyed(w, c, es, command, k)
    ensures Finished(w, c, es[..|es| - 1], k) == Finished(w, c, es, k)
  {
    assert es[..|es| - 1][..k] == es[..k];
  }

  lemma NotFinishedLast(w: nat, c: Controller, es: seq<CtlIn>, from: nat)
    requires |c.temporary| == w && Formed(w, es) && from < |es|
    ensures NotFinished(w, c, es, from) <==> NotFinished(w, c, es[..|es| - 1], from) && !Finished(w, c, es, |es| - 1)
  {
    var before := es[..|es| - 1];
    forall k | from <= k < |before| ensures Finished(w, c, before, k) == Finished(w, c, es, k) {
      EarlierEdge(w, c, es, Fire, k);
    }
    if NotFinished(w, c, before, from) && !Finished(w, c, es, |es| - 1) {
      forall k | from <= k < |es| ensures !Finished(w, c, es, k) {
        if k < |before| {
          assert !Finished(w, c, before, k);
        }
      }
    }
  }

  lemma ObeyedBefore(w: nat, c: Controller, es: seq<CtlIn>, command: Command)
    requires |c.temporary| == w && Formed(w, es) && |es| > 0 && ObeyedSince(w, c, es, command)
    ensures var n := |es| - 1;
            Obeyed(w, c, es, command, n) || (ObeyedSince(w, c, es[..n], command) && !Finished(w, c, es, n))
  {
    var k: nat :| k < |es| && Obeyed(w, c, es, command, k) && NotFinished(w, c, es, k);
    if k < |es| - 1 {
      EarlierEdge(w, c, es, command, k);
      NotFinishedLast(w, c, es, k);
    }
  }

  lemma ObeyedLater(w: nat, c: Controller, es: seq<CtlIn>, command: Command)
    requires |c.temporary| == w && Formed(w, es) && |es| > 0
    requires ObeyedSince(w, c, es[..|es| - 1], command) && !Finished(w, c, es, |es| - 1)
    ensures ObeyedSince(w, c, es, command)
  {
    var before := es[..|es| - 1];
    var k: nat :| k < |before| && Obeyed(w, c, before, command, k) && NotFinished(w, c, before, k);
    EarlierEdge(w, c, es, command, k);
    NotFinishedLast(w, c, es, k);
  }

  // A command is obeyed in init, a readout is finished in data_output.
  lemma ObeyedNow(w: nat, c: Controller, es: seq<CtlIn>, command: Command)
    requires |c.temporary| == w && Formed(w, es) && |es| > 0 && Obeyed(w, c, es, command, |es| - 1)
    ensures ObeyedSince(w, c, es, command)
  {
    assert NotFinished(w, c, es, |es| - 1);
  }

  lemma ObeyedLast(w: nat, c: Controller, es: seq<CtlIn>, command: Command)
    requires |c.temporary| == w && Formed(w, es) && |es| > 0
    ensures var n := |es| - 1;
            ObeyedSince(w, c, es, command)
            <==> Obeyed(w, c, es, command, n) || (ObeyedSince(w, c, es[..n], command) && !Finished(w, c, es, n))
  {
    var n := |es| - 1;
    if ObeyedSince(w, c, es, command) {
      ObeyedBefore(w, c, es, command);
    } else if Obeyed(w, c, es, command, n) {
      ObeyedNow(w, c, es, command);
    } else if ObeyedSince(w, c, es[..n], command) && !Finished(w, c, es, n) {
      ObeyedLater(w, c, es, command);
    }
  }

  // trigger_active is '1' exactly if activate came in init and the readout was not finished
  // since then, or it was '1' at the start and no readout was finished; and fire_trigger in the
  // same way for fire.
  lemma {:induction false} RegisterIffObeyed(w: nat, c: Controller, es: seq<CtlIn>, command: Command)
    requires |c.temporary| == w && Formed(w, es)
    ensures Register(CtlRun(w, c, es), command)
       <==> ObeyedSince(w, c, es, command) || (Register(c, command) && NotFinished(w, c, es, 0))
    decreases |es|
  {
    if |es| == 0 {
    } else {
      RegisterIffObeyed(w, c, es[..|es| - 1], command);
      LastEdge(w, c, es, command);
      ObeyedLast(w, c, es, command);
      NotFinishedLast(w, c, es, 0);
    }
  }

  // ---- Without trigger_active ----

  // The memory is idle at the next edge, whatever it was doing, and from the edge after that on
  // it is neither full nor finished and records nothing.
  lemma IdleWithoutTrigger(n: nat, c: Control, i: MemIn, j: MemIn, address: nat, data: Word)
    requires SizedControl(n, c) && !i.triggerActive && !j.triggerActive
    ensures ControlStep(n, c, i, address, data).state.Idle?
    ensures c.state.Idle? ==>
              var d := ControlStep(n, c, i, address, data);
              d.state.Idle? && !d.full && !d.finish && !Records(d, j)
  {
  }

  // ---- A capture from the command on ----

  // Memory and controller at rest.
  predicate Resting(n: nat, w: nat, m: Memory, t: Controller) {
    && w >= 1 && Sized(n, m) && Wide(w, m.p) && |t.temporary| == w && |m.c.data| == w
    && m.c.state.Idle? && !m.c.full && !m.c.dataValid && !m.c.finish
    && !t.reading && !t.triggerActive
  }

  // Both at one edge; the commands of the host come with it.
  datatype Pair = Pair(m: Memory, t: Controller)

  function PairStep(n: nat, w: nat, p: Pair, i: In, activate: bool, fire: bool): (q: Pair)
    requires w >= 1 && Sized(n, p.m) && |p.t.temporary| == w && |p.m.c.data| == w
    ensures |q.t.temporary| == w
  {
    var c := p.m.c;
    Pair(MemStep(n, p.m, MemIn(i.sampleEnable, i.probe, p.t.triggerActive, i.trigger, i.delay, p.t.request)),
         CtlStep(w, p.t, CtlIn(c.full, c.data, c.dataValid, c.finish, i.ready, activate, fire, i.any)))
  }

  // At rest they stay so until activate comes; then the capture can start at the next edge.
  lemma RestsUntilActivate(n: nat, w: nat, p: Pair, i: In, activate: bool, fire: bool)
    requires Resting(n, w, p.m, p.t) && Proper(n, w, i)
    ensures var q := PairStep(n, w, p, i, activate, fire);
            if activate then Startable(n, w, q.m, q.t) else Resting(n, w, q.m, q.t)
  {
    var mi := MemIn(i.sampleEnable, i.probe, p.t.triggerActive, i.trigger, i.delay, p.t.request);
    MemStepSized(n, p.m, mi);
    PipeWidth(n, w, p.m.p, mi, false, p.m.c.readAddress);
  }

  // What the command starts: the edge of the command, the one at which the memory sees
  // trigger_active, and the run.
  function CommandedRun(n: nat, w: nat, p: Pair, command: In, fire: bool, first: In, ins: seq<In>): (s: System)
    requires Resting(n, w, p.m, p.t) && Proper(n, w, command) && Proper(n, w, first) && AllProper(n, w, ins)
  {
    RestsUntilActivate(n, w, p, command, true, fire);
    var q := PairStep(n, w, p, command, true, fire);
    Run(n, w, Activated(n, w, q.m, q.t, first), ins)
  }

  // From the activate command on, everything that is said about a capture holds: it has
  // recorded the streams.
  lemma CommandRecords(n: nat, w: nat, p: Pair, command: In, fire: bool, first: In, ins: seq<In>)
    requires Resting(n, w, p.m, p.t) && Proper(n, w, command) && Proper(n, w, first) && AllProper(n, w, ins)
    ensures var s := CommandedRun(n, w, p, command, fire, first, ins);
            Inv(n, w, first.delay, s) && HasRecorded(s, SamplesIn(ins), TriggersIn(ins))
  {
    RestsUntilActivate(n, w, p, command, true, fire);
    var q := PairStep(n, w, p, command, true, fire);
    RunHasRecorded(n, w, q.m, q.t, first, ins);
  }

  // And when it is over, samples a to b - 1 of the stream have been sent, where sample j is the
  // first from number D on that triggers, a is j - D and b is a + N.
  lemma CommandCaptures(n: nat, w: nat, p: Pair, command: In, fire: bool, first: In, ins: seq<In>,
                        s: System, samples: seq<Word>, triggers: seq<bool>, j: int, a: int, b: int)
    requires Resting(n, w, p.m, p.t) && Proper(n, w, command) && Proper(n, w, first) && AllProper(n, w, ins)
    requires s == CommandedRun(n, w, p, command, fire, first, ins) && Done(s)
    requires samples == SamplesIn(ins) && triggers == TriggersIn(ins)
    requires TriggerAt(first.delay, triggers, j) && a == j - first.delay && b == a + n
    ensures 0 <= a <= b <= |samples| && AllSent(w, samples[a..b], s.groups)
  {
    CommandRecords(n, w, p, command, fire, first, ins);
    SentWindow(n, w, first.delay, s, samples, triggers, j, a, b);
  }

  lemma SentWindow(n: nat, w: nat, d: nat, s: System, samples: seq<Word>, triggers: seq<bool>, j: int, a: int, b: int)
    requires Inv(n, w, d, s) && HasRecorded(s, samples, triggers) && Done(s)
    requires TriggerAt(d, triggers, j) && a == j - d && b == a + n
    ensures 0 <= a <= b <= |samples| && AllSent(w, samples[a..b], s.groups)
  {
    CaptureSends(n, w, d, s, samples, triggers, j);
  }

  // And then the next capture can be commanded.
  lemma DoneRests(n: nat, w: nat, d: nat, s: System)
    requires Inv(n, w, d, s) && Done(s)
    ensures Resting(n, w, s.cap.m, s.ctl)
  {
    DoneSent(n, w, d, s);
  }
}
