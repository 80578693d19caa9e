// What a capture records and what it reads out, over every run of LogicAnalyserMemory.
module LaCapture {
  import opened Bytes
  import opened LaMemory

  // The memory, the address of the youngest recorded sample, and the history of the capture.
  datatype Capture = Capture(m: Memory, last: nat, recorded: seq<Word>, triggers: seq<bool>, emitted: seq<Word>)

  predicate Emits(c: Control, i: MemIn) { c.state.Drain? && i.request && c.dataReady == 3 }

  function CaptureStep(n: nat, s: Capture, i: MemIn): Capture
    requires Sized(n, s.m)
  {
    var records := Records(s.m.c, i);
    Capture(
      MemStep(n, s.m, i),
      if records then Wrap(s.m.p.writeAddress + 1, n) else s.last,
      if records then s.recorded + [i.probe] else s.recorded,
      if records then s.triggers + [i.trigger] else s.triggers,
      if Emits(s.m.c, i) then s.emitted + [s.m.p.readData] else s.emitted)
  }

  // Sample j is the first one, not counting the d samples that fill the history, that triggers.
  predicate TriggerAt(d: nat, triggers: seq<bool>, j: int) {
    d <= j < |triggers| && triggers[j] && forall k :: d <= k < j ==> !triggers[k]
  }

  predicate NoTrigger(d: nat, triggers: seq<bool>) {
    forall k :: d <= k < |triggers| ==> !triggers[k]
  }

  // The counter and its look-ahead comparators while samples are recorded.
  predicate Counting(n: nat, d: nat, c: Control, triggers: seq<bool>) {
    var r := |triggers|;
    match c.state
    case Armed => r < d && c.counter == r && c.nearDelay == (r + 1 == d) && !c.nearMax
    case WaitTrigger => r >= d && c.counter == d && c.nearMax == (d == n - 1) && NoTrigger(d, triggers)
    case FillUp => d < c.counter < n && c.nearMax == (c.counter == n - 1) && TriggerAt(d, triggers, r + d - c.counter)
    case _ => r >= n && TriggerAt(d, triggers, r + d - n)
  }

  // The samples to read out: the n youngest when recording stops.
  function Window(n: nat, s: Capture): seq<Word>
    requires |s.recorded| >= n
  {
    s.recorded[|s.recorded| - n..]
  }

  // The emitted samples are the beginning of the window, and the counter counts the rest.
  predicate EmittedPrefix(n: nat, s: Capture)
    requires |s.recorded| >= n
  {
    var c := s.m.c;
    var e := |s.emitted|;
    && e <= n && s.emitted == Window(n, s)[..e]
    && c.counter == n - e
    && (c.state.Drain? ==> e < n)
    && (!c.state.Drain? ==> e >= 1)
    && (c.state.DrainHandshake? ==> c.data == Window(n, s)[e - 1])
    && (c.state.WaitAckFinish? ==> e == n)
  }

  // Where the read address is, and what has come through the registers behind the RAM. Right
  // after the last sample its write, and that of the sample before it, may still be on the way.
  predicate ReadPipe(n: nat, c: Control, p: Pipe, last: nat, e: nat)
    requires last < n && SizedPipe(n, p) && SizedControl(n, c) && e <= n
  {
    && (c.state.Drain? && e < n ==>
          && c.readAddress == Back(n, last, n - 1 - e)
          && (p.writeEnable ==> e == 0 && c.dataReady == 0 && p.writeAddress == last)
          && (!p.writeEnable && p.weDly ==> e == 0 && c.dataReady <= 1 && p.waSlv == last)
          && (c.dataReady >= 1 ==> p.raSlv == c.readAddress)
          && (c.dataReady >= 2 ==> p.readNext == Settled(n, p)[c.readAddress])
          && (c.dataReady >= 3 ==> p.readData == Settled(n, p)[c.readAddress]))
    && (!c.state.Drain? ==> !p.writeEnable && !p.weDly)
    && (c.state.DrainHandshake? ==> c.readAddress == Back(n, last, n - e) && c.dataReady == 0)
  }

  predicate Recording(c: Control) { c.state.Armed? || c.state.WaitTrigger? || c.state.FillUp? }

  predicate Flags(c: Control) {
    && !c.state.Idle?
    && c.dataValid == c.state.DrainHandshake?
    && c.finish == c.state.WaitAckFinish?
    && c.full == !Recording(c)
    && (Recording(c) ==> c.dataReady == 0)
  }

  predicate Ring(n: nat, s: Capture) {
    && Sized(n, s.m)
    && Holds(n, Settled(n, s.m.p), s.last, s.recorded)
    && (Recording(s.m.c) ==> s.last == s.m.p.writeAddress && s.emitted == [])
  }

  predicate CaptureInv(n: nat, d: nat, s: Capture) {
    && d < n && s.m.c.delay == d && Flags(s.m.c)
    && Ring(n, s) && Counting(n, d, s.m.c, s.triggers) && |s.triggers| == |s.recorded|
    && (!Recording(s.m.c) ==> EmittedPrefix(n, s) && ReadPipe(n, s.m.c, s.m.p, s.last, |s.emitted|))
  }

  lemma RingKeeps(n: nat, s: Capture, i: MemIn)
    requires Ring(n, s) && Flags(s.m.c) && i.delay < n && i.triggerActive
    ensures Ring(n, CaptureStep(n, s, i))
  {
    MemStepSized(n, s.m, i);
    SettledStep(n, s.m.p, i, Records(s.m.c, i), s.m.c.readAddress);
    if Records(s.m.c, i) {
      HoldsNext(n, Settled(n, s.m.p), s.last, s.recorded, i.probe);
    }
  }

  lemma TriggerStays(d: nat, triggers: seq<bool>, j: int, t: bool)
    requires TriggerAt(d, triggers, j)
    ensures TriggerAt(d, triggers + [t], j)
  {
  }

  lemma CountingStep(n: nat, d: nat, c: Control, triggers: seq<bool>, i: MemIn, writeAddress: nat, readData: Word)
    requires SizedControl(n, c) && d < n && c.delay == d && !c.state.Idle? && i.triggerActive
    requires Counting(n, d, c, triggers)
    ensures Counting(n, d, ControlStep(n, c, i, writeAddress, readData),
                     if Records(c, i) then triggers + [i.trigger] else triggers)
  {
    if Records(c, i) && c.state.FillUp? {
      TriggerStays(d, triggers, |triggers| + d - c.counter, i.trigger);
    }
  }

  lemma CountingKeeps(n: nat, d: nat, s: Capture, i: MemIn)
    requires CaptureInv(n, d, s) && i.triggerActive && i.delay < n
    ensures var t := CaptureStep(n, s, i);
            Counting(n, d, t.m.c, t.triggers) && |t.triggers| == |t.recorded| && Flags(t.m.c) && t.m.c.delay == d
  {
    CountingStep(n, d, s.m.c, s.triggers, i, s.m.p.writeAddress, s.m.p.readData);
  }

  lemma OldestIsNext(n: nat, writeAddress: nat)
    requires n >= 2 && writeAddress < n
    ensures Wrap(writeAddress + 2, n) == Back(n, Wrap(writeAddress + 1, n), n - 1)
  {
  }

  // When recording stops, nothing has been read.
  lemma StopsBeforeReading(n: nat, d: nat, s: Capture, i: MemIn)
    requires CaptureInv(n, d, s) && Recording(s.m.c) && i.triggerActive && !Recording(CaptureStep(n, s, i).m.c)
    ensures var t := CaptureStep(n, s, i);
            && t.m.c.state.Drain? && t.m.c.counter == n && t.m.c.dataReady == 0 && t.emitted == []
            && t.m.c.readAddress == Wrap(s.m.p.writeAddress + 2, n)
            && t.m.p.writeEnable && t.m.p.writeAddress == t.last == Wrap(s.m.p.writeAddress + 1, n)
  {
  }

  lemma RecordStops(n: nat, d: nat, s: Capture, i: MemIn)
    requires CaptureInv(n, d, s) && Recording(s.m.c) && i.triggerActive
    requires !Recording(CaptureStep(n, s, i).m.c) && Ring(n, CaptureStep(n, s, i)) && |CaptureStep(n, s, i).recorded| >= n
    ensures var t := CaptureStep(n, s, i);
            EmittedPrefix(n, t) && ReadPipe(n, t.m.c, t.m.p, t.last, 0) && t.emitted == []
  {
    var t := CaptureStep(n, s, i);
    StopsBeforeReading(n, d, s, i);
    OldestIsNext(n, s.m.p.writeAddress);
    assert Window(n, t)[..0] == [];
  }

  lemma RecordKeeps(n: nat, d: nat, s: Capture, i: MemIn)
    requires CaptureInv(n, d, s) && Recording(s.m.c)
    requires i.triggerActive && i.delay < n
    ensures CaptureInv(n, d, CaptureStep(n, s, i))
  {
    RingKeeps(n, s, i);
    CountingKeeps(n, d, s, i);
    if !Recording(CaptureStep(n, s, i).m.c) {
      RecordStops(n, d, s, i);
    }
  }

  // The oldest sample not read yet is where the read address points.
  lemma DrainReads(n: nat, d: nat, s: Capture)
    requires CaptureInv(n, d, s) && s.m.c.state.Drain?
    ensures var a := s.m.c.readAddress;
            && Settled(n, s.m.p)[a] == Window(n, s)[|s.emitted|]
            && (!s.m.p.writeEnable ==> s.m.p.ram[a] == Settled(n, s.m.p)[a])
  {
    var k := n - 1 - |s.emitted|;
    assert Settled(n, s.m.p)[Back(n, s.last, k)] == s.recorded[|s.recorded| - 1 - k];
  }

  lemma TakeNext(w: seq<Word>, e: nat)
    requires e < |w|
    ensures w[..e] + [w[e]] == w[..e + 1]
  {
  }

  // One more sample goes to the controller.
  lemma EmitsNext(n: nat, d: nat, s: Capture, i: MemIn)
    requires CaptureInv(n, d, s) && !Recording(s.m.c) && Emits(s.m.c, i)
    requires i.triggerActive && i.delay < n
    ensures EmittedPrefix(n, CaptureStep(n, s, i))
  {
    DrainReads(n, d, s);
    TakeNext(Window(n, s), |s.emitted|);
    assert Window(n, CaptureStep(n, s, i)) == Window(n, s);
  }

  lemma EmittedKeeps(n: nat, d: nat, s: Capture, i: MemIn)
    requires CaptureInv(n, d, s) && !Recording(s.m.c)
    requires i.triggerActive && i.delay < n
    ensures EmittedPrefix(n, CaptureStep(n, s, i))
  {
    if Emits(s.m.c, i) {
      EmitsNext(n, d, s, i);
    } else {
      assert Window(n, CaptureStep(n, s, i)) == Window(n, s);
    }
  }

  lemma ReadPipeKeeps(n: nat, d: nat, s: Capture, i: MemIn)
    requires CaptureInv(n, d, s) && !Recording(s.m.c)
    requires i.triggerActive && i.delay < n
    ensures var t := CaptureStep(n, s, i);
            Sized(n, t.m) && ReadPipe(n, t.m.c, t.m.p, t.last, |t.emitted|)
  {
    MemStepSized(n, s.m, i);
    SettledStep(n, s.m.p, i, false, s.m.c.readAddress);
    if s.m.c.state.Drain? {
      DrainReads(n, d, s);
    }
  }

  lemma CaptureStepKeeps(n: nat, d: nat, s: Capture, i: MemIn)
    requires CaptureInv(n, d, s) && i.triggerActive && i.delay < n
    ensures CaptureInv(n, d, CaptureStep(n, s, i))
  {
    if Recording(s.m.c) {
      RecordKeeps(n, d, s, i);
    } else {
      RingKeeps(n, s, i);
      CountingKeeps(n, d, s, i);
      EmittedKeeps(n, d, s, i);
      ReadPipeKeeps(n, d, s, i);
    }
  }

  // ---- A run of the memory ----

  function CaptureRun(n: nat, s: Capture, ins: seq<MemIn>): Capture
    requires Sized(n, s.m) && forall k :: 0 <= k < |ins| ==> ins[k].delay < n
    decreases |ins|
  {
    if |ins| == 0 then s
    else
      MemStepSized(n, s.m, ins[0]);
      CaptureRun(n, CaptureStep(n, s, ins[0]), ins[1..])
  }

  // Just armed: the memory was idle, whatever its other registers and the RAM hold.
  function Arm(n: nat, m: Memory, i: MemIn): Capture
    requires Sized(n, m)
  {
    var t := MemStep(n, m, i);
    Capture(t, t.p.writeAddress, [], [], [])
  }

  lemma ArmEstablishes(n: nat, m: Memory, i: MemIn)
    requires Sized(n, m) && m.c.state.Idle? && !m.c.dataValid && i.triggerActive && i.delay < n
    ensures CaptureInv(n, i.delay, Arm(n, m, i))
  {
    MemStepSized(n, m, i);
  }

  predicate Active(n: nat, ins: seq<MemIn>) {
    forall k :: 0 <= k < |ins| ==> ins[k].delay < n && ins[k].triggerActive
  }

  lemma {:induction false} CaptureRunKeeps(n: nat, d: nat, s: Capture, ins: seq<MemIn>)
    requires CaptureInv(n, d, s) && Active(n, ins)
    ensures CaptureInv(n, d, CaptureRun(n, s, ins))
    decreases |ins|
  {
    if |ins| == 0 {
    } else {
      CaptureStepKeeps(n, d, s, ins[0]);
      MemStepSized(n, s.m, ins[0]);
      CaptureRunKeeps(n, d, CaptureStep(n, s, ins[0]), ins[1..]);
    }
  }

  // After the sample that triggers fewer than n - d samples have been recorded, itself included.
  ghost predicate NotFull(n: nat, d: nat, s: Capture) {
    forall j :: TriggerAt(d, s.triggers, j) ==> |s.recorded| < j + n - d
  }

  // Nothing is read out before sample j, the first from number d on that triggers, and n - d - 1
  // more, and recording does not go on after these; what is read out are the n consecutive
  // samples j - d .. j - d + n - 1, the oldest first, so the trigger sample is number d of them.
  ghost predicate ReadsWindow(n: nat, d: nat, s: Capture) {
    var j := |s.recorded| + d - n;
    if Recording(s.m.c) then s.emitted == [] && !s.m.c.full && NotFull(n, d, s)
    else
      && TriggerAt(d, s.triggers, j)
      && s.emitted <= s.recorded[j - d..j - d + n]
      && (s.m.c.state.WaitAckFinish? ==> s.emitted == s.recorded[j - d..j - d + n])
  }

  // The capture of a run, for every delay, every stream of samples and triggers and every
  // pattern of requests.
  lemma CaptureWindow(n: nat, m: Memory, i: MemIn, ins: seq<MemIn>)
    requires Sized(n, m) && m.c.state.Idle? && !m.c.dataValid && i.triggerActive && i.delay < n
    requires Active(n, ins)
    ensures ReadsWindow(n, i.delay, CaptureRun(n, Arm(n, m, i), ins))
  {
    ArmEstablishes(n, m, i);
    CaptureRunKeeps(n, i.delay, Arm(n, m, i), ins);
    Result(n, i.delay, CaptureRun(n, Arm(n, m, i), ins));
  }

  lemma Result(n: nat, d: nat, s: Capture)
    requires CaptureInv(n, d, s)
    ensures ReadsWindow(n, d, s)
  {
    if !Recording(s.m.c) {
      assert EmittedPrefix(n, s);
      assert Window(n, s) == s.recorded[|s.recorded| - n..|s.recorded|];
    }
  }
}
