// When the hub tells the host to stop, over every legal run.
module JtagXoff {
  import opened JtagHub
  import opened JtagProtocol
  import opened JtagProgress

  // The channel is flow controlled and keeps a byte back behind the one its core is shown.
  predicate Crowded(fc: Flags, s: System) {
    s.last < 7 && fc[s.last] && |Queued(fc, s, s.last)| >= 2
  }

  // The last valid word of the host has selected its channel.
  predicate Selected(s: System) { s.phase == Settling(3) || s.phase == Settling(4) || s.phase.Captured? }

  lemma OccupiedIsCrowded(fc: Flags, s: System, n: nat)
    requires Inv(fc, s) && n < 7 && fc[n]
    ensures s.hub.channels[n].o0 <==> |Queued(fc, s, n)| >= 2
  {
    assert ChannelInv(fc, s, n);
  }

  lemma SomeFlowControl(fc: Flags, n: nat)
    requires n < 7 && fc[n]
    ensures FlowControl(fc)
  {
  }

  // The xoff bit after an edge: the channel of the host's last valid word held at least two bytes.
  lemma EdgeSaysXoff(fc: Flags, s: System, p: Pins, request: bool)
    requires Inv(fc, s) && Legal(s, Edge(p, request)) && Selected(s)
    ensures Step(fc, s, Edge(p, request)).hub.upXoff <==> Crowded(fc, s)
  {
    assert s.hub.xoffSel == s.last;
    if s.last < 7 && fc[s.last] {
      SomeFlowControl(fc, s.last);
      OccupiedIsCrowded(fc, s, s.last);
    }
  }

  lemma {:induction false} RunSnoc(fc: Flags, s: System, es: seq<Event>, e: Event)
    ensures Run(fc, s, es + [e]) == Step(fc, Run(fc, s, es), e)
    ensures LegalRun(fc, s, es + [e]) <==> LegalRun(fc, s, es) && Legal(Run(fc, s, es), e)
    decreases |es|
  {
    if |es| == 0 {
      assert es + [e] == [e] && [e][1..] == [];
    } else {
      assert (es + [e])[1..] == es[1..] + [e];
      RunSnoc(fc, Step(fc, s, es[0]), es[1..], e);
    }
  }

  // A capture comes right after an edge that finds the selection settled.
  lemma CapturedAfterEdge(fc: Flags, s: System, es: seq<Event>, e: Event)
    requires Inv(fc, s) && s.phase == Settling(3) && LegalRun(fc, s, es + [e, Capture])
    ensures e.Edge? && Selected(Run(fc, s, es))
  {
    assert es + [e, Capture] == (es + [e]) + [Capture];
    RunSnoc(fc, s, es + [e], Capture);
    RunSnoc(fc, s, es, e);
  }

  // No capture is the first event, so XoffIffCrowded is about every capture.
  lemma CaptureIsNotFirst(fc: Flags, h: Hub, word: HostWord, got: HubWord)
    ensures !LegalRun(fc, Start(h, word, got), [Capture])
  {
  }

  // A captured word says xoff exactly if one edge before the capture the channel of the host's
  // last valid word had flow control and held at least two bytes.
  lemma XoffIffCrowded(fc: Flags, h: Hub, word: HostWord, got: HubWord, es: seq<Event>, e: Event)
    requires Cleared(fc, h) && !word.valid && LegalRun(fc, Start(h, word, got), es + [e, Capture])
    ensures Run(fc, Start(h, word, got), es + [e, Capture]).got.xoff <==> Crowded(fc, Run(fc, Start(h, word, got), es))
  {
    var s := Start(h, word, got);
    StartInv(fc, h, word, got);
    assert es + [e, Capture] == (es + [e]) + [Capture];
    CapturedAfterEdge(fc, s, es, e);
    RunSnoc(fc, s, es + [e], Capture);
    RunSnoc(fc, s, es, e);
    RunKeeps(fc, s, es);
    match e
    case Edge(p, request) => EdgeSaysXoff(fc, Run(fc, s, es), p, request);
  }

  // ---- A channel that is never stopped ----

  // Nothing says that channel n keeps a byte back.
  predicate Untold(s: System, n: nat)
    requires n < 7
  {
    && !s.stopped[n]
    && (s.phase == Settling(4) && s.last == n ==> !s.hub.upXoff)
    && (s.phase.Captured? && s.last == n ==> !s.got.xoff)
  }

  lemma UntoldStep(fc: Flags, s: System, e: Event, n: nat)
    requires Inv(fc, s) && Legal(s, e) && n < 7 && Untold(s, n) && |Queued(fc, s, n)| <= 1
    ensures Untold(Step(fc, s, e), n)
  {
    match e
    case Capture =>
    case Update(w) =>
    case Edge(p, request) =>
      if Selected(s) {
        EdgeSaysXoff(fc, s, p, request);
      }
  }

  // All along the run the core takes a byte before a second one is queued behind it.
  predicate Uncrowded(fc: Flags, s: System, es: seq<Event>, n: nat)
    requires n < 7
    decreases |es|
  {
    |Queued(fc, s, n)| <= 1 && (|es| > 0 ==> Uncrowded(fc, Step(fc, s, es[0]), es[1..], n))
  }

  lemma {:induction false} UntoldRun(fc: Flags, s: System, es: seq<Event>, n: nat)
    requires Inv(fc, s) && LegalRun(fc, s, es) && n < 7 && Untold(s, n) && Uncrowded(fc, s, es, n)
    ensures Untold(Run(fc, s, es), n)
    decreases |es|
  {
    if |es| == 0 {
    } else {
      StepKeeps(fc, s, es[0]);
      UntoldStep(fc, s, es[0], n);
      UntoldRun(fc, Step(fc, s, es[0]), es[1..], n);
    }
  }

  // The host is never told to stop sending to such a core.
  lemma NeverStopped(fc: Flags, h: Hub, word: HostWord, got: HubWord, es: seq<Event>, n: nat)
    requires Cleared(fc, h) && !word.valid && n < 7
    requires LegalRun(fc, Start(h, word, got), es) && Uncrowded(fc, Start(h, word, got), es, n)
    ensures !Run(fc, Start(h, word, got), es).stopped[n]
  {
    StartInv(fc, h, word, got);
    UntoldRun(fc, Start(h, word, got), es, n);
  }

  lemma ReadyQueue(fc: Flags, s: System, p: Pins, request: bool, n: nat)
    requires Inv(fc, s) && Legal(s, Edge(p, request)) && n < 7 && p.ready[n] && |Queued(fc, s, n)| <= 1
    ensures |Queued(fc, Step(fc, s, Edge(p, request)), n)| <= 1
  {
    assert ChannelInv(fc, s, n);
    if fc[n] {
      StageIsQueue(s.hub.channels[n], Selects(s.hub, n), p.ready[n], s.hub.common, p.any);
    }
  }

  // A core that is ready at every edge is one.
  lemma {:induction false} ReadyIsUncrowded(fc: Flags, s: System, es: seq<Event>, n: nat)
    requires Inv(fc, s) && LegalRun(fc, s, es) && n < 7 && CoreReady(es, n) && |Queued(fc, s, n)| <= 1
    ensures Uncrowded(fc, s, es, n)
    decreases |es|
  {
    if |es| == 0 {
    } else {
      StepKeeps(fc, s, es[0]);
      match es[0] {
        case Edge(p, request) => ReadyQueue(fc, s, p, request, n);
        case _ =>
      }
      ReadyIsUncrowded(fc, Step(fc, s, es[0]), es[1..], n);
    }
  }

  lemma ReadyCoreIsNeverStopped(fc: Flags, h: Hub, word: HostWord, got: HubWord, es: seq<Event>, n: nat)
    requires Cleared(fc, h) && !word.valid && n < 7
    requires LegalRun(fc, Start(h, word, got), es) && CoreReady(es, n)
    ensures !Run(fc, Start(h, word, got), es).stopped[n]
  {
    StartInv(fc, h, word, got);
    assert Queue(h.channels[n]) == [];
    assert Queued(fc, Start(h, word, got), n) == [] by {
      assert ChannelInv(fc, Start(h, word, got), n);
    }
    ReadyIsUncrowded(fc, Start(h, word, got), es, n);
    NeverStopped(fc, h, word, got, es, n);
  }

  // ---- The hub's own words ----

  // A word of the hub but the announcement says go on to some channel.
  predicate Meant(a: Arbiter) { a.valid && a.func == HUB && !a.data[7] ==> exists n :: 0 <= n < 7 && a.data[n] }

  lemma MeantStep(fc: Flags, s: System, e: Event)
    requires Meant(s.hub.arbiter)
    ensures Meant(Step(fc, s, e).hub.arbiter)
  {
    match e
    case Edge(p, request) =>
      var a, b := s.hub.arbiter, Step(fc, s, e).hub.arbiter;
      if b.valid && b.func == HUB && !b.data[7] {
        if AnySet(a.xonData) {
          var n :| 0 <= n < 7 && a.xonData[n];
          assert (a.xonData + [false])[n];
        }
      }
    case _ =>
  }

  lemma {:induction false} MeantRun(fc: Flags, s: System, es: seq<Event>)
    requires Meant(s.hub.arbiter)
    ensures Meant(Run(fc, s, es).hub.arbiter)
    decreases |es|
  {
    if |es| == 0 {
    } else {
      MeantStep(fc, s, es[0]);
      MeantRun(fc, Step(fc, s, es[0]), es[1..]);
    }
  }

  // In every legal run a word of the hub that waits for a capture is the announcement after the
  // clear, or it says go on to at least one channel, and each of these is one that the host was
  // told to stop.
  lemma HubSpeaksWhenNeeded(fc: Flags, h: Hub, word: HostWord, got: HubWord, es: seq<Event>)
    requires Cleared(fc, h) && !word.valid && LegalRun(fc, Start(h, word, got), es)
    ensures var s := Run(fc, Start(h, word, got), es);
            s.phase == Settling(4) && s.hub.arbiter.valid && s.hub.arbiter.func == HUB && !s.hub.arbiter.data[7] ==>
              && (exists n :: 0 <= n < 7 && s.hub.arbiter.data[n])
              && forall n :: 0 <= n < 7 && s.hub.arbiter.data[n] ==> s.stopped[n]
  {
    var s := Run(fc, Start(h, word, got), es);
    MeantRun(fc, Start(h, word, got), es);
    forall n | 0 <= n < 7 && s.phase == Settling(4) && s.hub.arbiter.valid && s.hub.arbiter.func == HUB && !s.hub.arbiter.data[7]
               && s.hub.arbiter.data[n]
      ensures s.stopped[n]
    {
      XoffAgreement(fc, h, word, got, es, n);
      assert XonPending(s, n);
    }
  }
}
