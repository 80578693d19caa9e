// A whole capture in terms of its input streams: the samples and triggers that come in, and
// the bytes that go to the host.
module LaEndToEnd {
  import opened LaMemory
  import opened LaCapture
  import opened LaReadout

  // The samples and triggers of the edges with sample_enable.
  function SamplesIn(ins: seq<In>): seq<Word> {
    if |ins| == 0 then [] else (if ins[0].sampleEnable then [ins[0].probe] else []) + SamplesIn(ins[1..])
  }

  function TriggersIn(ins: seq<In>): (t: seq<bool>)
    ensures |t| == |SamplesIn(ins)|
  {
    if |ins| == 0 then [] else (if ins[0].sampleEnable then [ins[0].trigger] else []) + TriggersIn(ins[1..])
  }

  // The memory has recorded the first k samples, and all of them while it records.
  predicate Follows(s: System, u: System, samples: seq<Word>, triggers: seq<bool>) {
    var k := |u.cap.recorded| - |s.cap.recorded|;
    && 0 <= k <= |samples| == |triggers|
    && u.cap.recorded == s.cap.recorded + samples[..k] && u.cap.triggers == s.cap.triggers + triggers[..k]
    && (Recording(u.cap.m.c) ==> k == |samples|)
  }

  lemma StepRecords(n: nat, w: nat, d: nat, s: System, i: In)
    requires Inv(n, w, d, s) && Proper(n, w, i)
    ensures var t := Step(n, w, s, i);
            if Recording(s.cap.m.c) && i.sampleEnable then
              t.cap.recorded == s.cap.recorded + [i.probe] && t.cap.triggers == s.cap.triggers + [i.trigger]
            else
              t.cap.recorded == s.cap.recorded && t.cap.triggers == s.cap.triggers
    ensures Recording(Step(n, w, s, i).cap.m.c) ==> Recording(s.cap.m.c)
  {
    if !Recording(s.cap.m.c) {
      NotRecordingStays(n, w, s, i);
    }
  }

  lemma FollowsFirst(s: System, t: System, u: System, i: In, samples: seq<Word>, triggers: seq<bool>)
    requires Follows(t, u, samples, triggers) && Recording(s.cap.m.c) && i.sampleEnable
    requires t.cap.recorded == s.cap.recorded + [i.probe] && t.cap.triggers == s.cap.triggers + [i.trigger]
    ensures Follows(s, u, [i.probe] + samples, [i.trigger] + triggers)
  {
    var k := |u.cap.recorded| - |t.cap.recorded|;
    assert ([i.probe] + samples)[..k + 1] == [i.probe] + samples[..k];
    assert ([i.trigger] + triggers)[..k + 1] == [i.trigger] + triggers[..k];
  }

  lemma RecordedNow(s: System, u: System, samples: seq<Word>, triggers: seq<bool>)
    requires u.cap.recorded == s.cap.recorded && u.cap.triggers == s.cap.triggers
    requires !Recording(u.cap.m.c) && |samples| == |triggers|
    ensures Follows(s, u, samples, triggers)
  {
  }

  lemma FullStays(n: nat, w: nat, d: nat, s: System, i: In)
    requires Inv(n, w, d, s) && !Recording(s.cap.m.c) && Proper(n, w, i)
    ensures var t := Step(n, w, s, i);
            Inv(n, w, d, t) && !Recording(t.cap.m.c) && t.cap.recorded == s.cap.recorded && t.cap.triggers == s.cap.triggers
  {
    StepRecords(n, w, d, s, i);
    StepKeeps(n, w, d, s, i);
  }

  lemma {:induction false} RunStaysFull(n: nat, w: nat, d: nat, s: System, ins: seq<In>)
    requires Inv(n, w, d, s) && !Recording(s.cap.m.c) && AllProper(n, w, ins)
    ensures var u := Run(n, w, s, ins);
            !Recording(u.cap.m.c) && u.cap.recorded == s.cap.recorded && u.cap.triggers == s.cap.triggers
    decreases |ins|
  {
    if |ins| == 0 {
    } else {
      RestProper(n, w, ins);
      FullStays(n, w, d, s, ins[0]);
      RunStaysFull(n, w, d, Step(n, w, s, ins[0]), ins[1..]);
    }
  }

  lemma FollowsNext(n: nat, w: nat, d: nat, s: System, u: System, i: In, rest: seq<In>)
    requires Inv(n, w, d, s) && Proper(n, w, i) && Recording(s.cap.m.c)
    requires Follows(Step(n, w, s, i), u, SamplesIn(rest), TriggersIn(rest))
    ensures Follows(s, u, SamplesIn([i] + rest), TriggersIn([i] + rest))
  {
    assert ([i] + rest)[1..] == rest;
    StepRecords(n, w, d, s, i);
    if i.sampleEnable {
      FollowsFirst(s, Step(n, w, s, i), u, i, SamplesIn(rest), TriggersIn(rest));
    } else {
      assert SamplesIn([i] + rest) == SamplesIn(rest) && TriggersIn([i] + rest) == TriggersIn(rest);
    }
  }

  lemma {:induction false} RunRecords(n: nat, w: nat, d: nat, s: System, ins: seq<In>)
    requires Inv(n, w, d, s) && AllProper(n, w, ins)
    ensures Follows(s, Run(n, w, s, ins), SamplesIn(ins), TriggersIn(ins))
    decreases |ins|
  {
    if |ins| == 0 {
    } else if !Recording(s.cap.m.c) {
      RunStaysFull(n, w, d, s, ins);
      RecordedNow(s, Run(n, w, s, ins), SamplesIn(ins), TriggersIn(ins));
    } else {
      RestProper(n, w, ins);
      StepKeeps(n, w, d, s, ins[0]);
      RunRecords(n, w, d, Step(n, w, s, ins[0]), ins[1..]);
      FollowsNext(n, w, d, s, Run(n, w, s, ins), ins[0], ins[1..]);
      assert [ins[0]] + ins[1..] == ins;
    }
  }

  lemma RunFirst(n: nat, w: nat, s: System, t: System, i: In, rest: seq<In>)
    requires Shaped(n, w, s) && Proper(n, w, i) && AllProper(n, w, rest) && t == Step(n, w, s, i) && Shaped(n, w, t)
    ensures AllProper(n, w, [i] + rest) && Run(n, w, s, [i] + rest) == Run(n, w, t, rest)
  {
    assert ([i] + rest)[1..] == rest;
  }

  lemma {:induction false} RunConcat(n: nat, w: nat, s: System, u: System, a: seq<In>, b: seq<In>)
    requires Shaped(n, w, s) && AllProper(n, w, a) && AllProper(n, w, b) && u == Run(n, w, s, a) && Shaped(n, w, u)
    ensures AllProper(n, w, a + b) && Run(n, w, s, a + b) == Run(n, w, u, b)
    decreases |a|
  {
    if |a| == 0 {
      assert a + b == b;
    } else {
      RestProper(n, w, a);
      var i, rest := a[0], a[1..];
      var t := Step(n, w, s, i);
      StepShaped(n, w, s, i);
      assert a == [i] + rest && a + b == [i] + (rest + b);
      RunFirst(n, w, s, t, i, rest);
      RunConcat(n, w, t, u, rest, b);
      RunFirst(n, w, s, t, i, rest + b);
    }
  }

  // Where the trigger is, in what was recorded and in the whole stream.
  lemma SameTrigger(d: nat, triggers: seq<bool>, k: nat, i: int, j: int)
    requires k <= |triggers| && TriggerAt(d, triggers[..k], i) && TriggerAt(d, triggers, j)
    ensures i == j
  {
  }

  // s has recorded this much of the streams since it was armed.
  predicate HasRecorded(s: System, samples: seq<Word>, triggers: seq<bool>) {
    var k := |s.cap.recorded|;
    && k <= |samples| == |triggers| && s.cap.recorded == samples[..k] && s.cap.triggers == triggers[..k]
    && (Recording(s.cap.m.c) ==> k == |samples|)
  }

  lemma InvTrigger(n: nat, w: nat, d: nat, s: System)
    requires Inv(n, w, d, s)
    ensures if Recording(s.cap.m.c) then NotFull(n, d, s.cap) else TriggerAt(d, s.cap.triggers, |s.cap.recorded| + d - n)
  {
    if Live(s.cap.m.c) {
      Result(n, d, s.cap);
    }
  }

  // When sample j triggers and n - d - 1 more have come in, recording is over, and exactly the
  // samples up to these have been recorded.
  lemma CaptureFills(n: nat, w: nat, d: nat, s: System, samples: seq<Word>, triggers: seq<bool>, j: int)
    requires Inv(n, w, d, s) && HasRecorded(s, samples, triggers)
    requires TriggerAt(d, triggers, j) && |samples| >= j + n - d
    ensures !Recording(s.cap.m.c) && |s.cap.recorded| == j + n - d
  {
    var k := |s.cap.recorded|;
    if k == |samples| {
      assert triggers[..k] == triggers;
    }
    InvTrigger(n, w, d, s);
    if !Recording(s.cap.m.c) {
      SameTrigger(d, triggers, k, k + d - n, j);
    }
  }

  lemma RunHasRecorded(n: nat, w: nat, m: Memory, t: Controller, i: In, ins: seq<In>)
    requires Startable(n, w, m, t) && Proper(n, w, i) && AllProper(n, w, ins)
    ensures var s := Run(n, w, Activated(n, w, m, t, i), ins);
            Inv(n, w, i.delay, s) && HasRecorded(s, SamplesIn(ins), TriggersIn(ins))
  {
    ActivatedInv(n, w, m, t, i);
    RunKeeps(n, w, i.delay, Activated(n, w, m, t, i), ins);
    RunRecords(n, w, i.delay, Activated(n, w, m, t, i), ins);
  }

  // A capture ends: once n - d samples from the trigger on have come in (ins), and the uplink
  // has been ready often enough after that (more), the readout is over.
  lemma CaptureEnds(n: nat, w: nat, m: Memory, t: Controller, i: In, ins: seq<In>, more: seq<In>, j: int)
    requires Startable(n, w, m, t) && Proper(n, w, i) && AllProper(n, w, ins)
    requires AllProper(n, w, more)
    requires TriggerAt(i.delay, TriggersIn(ins), j) && |SamplesIn(ins)| >= j + n - i.delay
    requires ReadyEdges(more) >= n * Weight(w) + 8
    ensures Done(Run(n, w, Activated(n, w, m, t, i), ins + more))
  {
    var s := Run(n, w, Activated(n, w, m, t, i), ins);
    RunHasRecorded(n, w, m, t, i, ins);
    CaptureFills(n, w, i.delay, s, SamplesIn(ins), TriggersIn(ins), j);
    ReadoutTerminates(n, w, i.delay, s, more);
    ActivatedInv(n, w, m, t, i);
    RunConcat(n, w, Activated(n, w, m, t, i), s, ins, more);
  }

  lemma RecordedIsStream(n: nat, w: nat, d: nat, recorded: seq<Word>, marks: seq<bool>, samples: seq<Word>, triggers: seq<bool>,
                         groups: seq<seq<Octet>>, j: int)
    requires |recorded| == |marks| <= |samples| == |triggers| && recorded == samples[..|recorded|] && marks == triggers[..|recorded|]
    requires |recorded| >= n && TriggerAt(d, marks, |recorded| - n + d) && TriggerAt(d, triggers, j)
    requires AllSent(w, recorded[|recorded| - n..], groups)
    ensures 0 <= j - d <= |samples| - n && AllSent(w, samples[j - d..j - d + n], groups)
  {
    SameTrigger(d, triggers, |recorded|, |recorded| - n + d, j);
    assert recorded[|recorded| - n..] == samples[j - d..j - d + n];
  }

  // And what was sent then are the n samples of the stream that begin d before sample j, the
  // first from number d on that triggers. RunHasRecorded gives the hypotheses for every run.
  lemma CaptureSends(n: nat, w: nat, d: nat, s: System, samples: seq<Word>, triggers: seq<bool>, j: int)
    requires Inv(n, w, d, s) && HasRecorded(s, samples, triggers) && Done(s) && TriggerAt(d, triggers, j)
    ensures 0 <= j - d <= |samples| - n && AllSent(w, samples[j - d..j - d + n], s.groups)
  {
    DoneSent(n, w, d, s);
    RecordedIsStream(n, w, d, s.cap.recorded, s.cap.triggers, samples, triggers, s.groups, j);
  }
}
