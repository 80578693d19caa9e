// The run-length coder in front of the sample memory: what the host makes of the bytes of a
// capture are consecutive samples of the probe.
module LaCompressed {
  import opened LaMemory
  import opened LaCapture
  import opened LaReadout
  import opened LaEndToEnd
  import opened Numbers
  import R = RunLength

  // ---- Words ----

  // Least significant bit first.
  function Bits(n: nat, v: nat): (s: seq<bool>)
    ensures |s| == n
  {
    if n == 0 then [] else [v % 2 == 1] + Bits(n - 1, v / 2)
  }

  function Number(s: seq<bool>): nat { if |s| == 0 then 0 else (if s[0] then 1 else 0) + 2 * Number(s[1..]) }

  lemma {:induction false} NumberOfBits(n: nat, v: nat)
    requires v < Pow2(n)
    ensures Number(Bits(n, v)) == v
  {
    if n == 0 {
    } else {
      NumberOfBits(n - 1, v / 2);
      assert Bits(n, v)[1..] == Bits(n - 1, v / 2);
    }
  }

  // The value above the count, RUN_LENGTH_COMPRESSION bits wide.
  function Encode(rlc: nat, w: R.RunWord): Word { Bits(rlc, w.count) + w.sample.value }

  function EncodeAll(rlc: nat, ws: seq<R.RunWord>): (s: seq<Word>)
    ensures |s| == |ws| && forall i :: 0 <= i < |ws| ==> s[i] == Encode(rlc, ws[i])
  {
    seq(|ws|, i requires 0 <= i < |ws| => Encode(rlc, ws[i]))
  }

  // ---- What the host decodes ----

  // The bits of a sample from its bytes, the least significant byte first.
  function WordOf(w: nat, octets: seq<Octet>): (s: Word)
    requires |octets| == BytesPer(w)
    ensures |s| == w
  {
    seq(w, t requires 0 <= t < w => octets[t / 8][t % 8])
  }

  lemma SerializedWord(w: nat, sample: Word, octets: seq<Octet>)
    requires w >= 1 && Serializes(w, sample, octets) && |octets| == BytesPer(w)
    ensures WordOf(w, octets) == sample
  {
    forall t | 0 <= t < w ensures WordOf(w, octets)[t] == sample[t] {
      assert ByteOf(w, sample, t / 8, octets[t / 8]);
      assert 8 * (t / 8) + t % 8 == t;
    }
  }

  function Copies(v: Word, n: nat): (s: seq<Word>)
    ensures |s| == n && forall i :: 0 <= i < n ==> s[i] == v
  {
    seq(n, _ => v)
  }

  // Every word stands for count + 1 samples.
  function Samples(rlc: nat, words: seq<Word>): seq<Word>
    requires forall i :: 0 <= i < |words| ==> |words[i]| >= rlc
  {
    if |words| == 0 then []
    else
      var last := words[|words| - 1];
      Samples(rlc, words[..|words| - 1]) + Copies(last[rlc..], Number(last[..rlc]) + 1)
  }

  function Values(samples: seq<R.Sample>): (s: seq<Word>)
    ensures |s| == |samples| && forall i :: 0 <= i < |samples| ==> s[i] == samples[i].value
  {
    seq(|samples|, i requires 0 <= i < |samples| => samples[i].value)
  }

  lemma {:induction false} DecodesWords(rlc: nat, ws: seq<R.RunWord>)
    requires forall i :: 0 <= i < |ws| ==> ws[i].count < Pow2(rlc)
    ensures Samples(rlc, EncodeAll(rlc, ws)) == Values(R.Expand(ws))
  {
    if |ws| == 0 {
    } else {
      var k := |ws| - 1;
      var last := Encode(rlc, ws[k]);
      DecodesWords(rlc, ws[..k]);
      NumberOfBits(rlc, ws[k].count);
      assert last[..rlc] == Bits(rlc, ws[k].count) && last[rlc..] == ws[k].sample.value;
      assert EncodeAll(rlc, ws)[..k] == EncodeAll(rlc, ws[..k]);
      assert Copies(last[rlc..], ws[k].count + 1) == Values(R.Repeat(ws[k].sample, ws[k].count + 1));
    }
  }

  // ---- The coder in front of the memory ----

  // At every edge the memory sees the registers of the coder; es are the inputs of the coder.
  predicate Wired(rlc: nat, c: R.Coder, es: seq<R.Edge>, ins: seq<In>) {
    && |ins| == |es| + 1
    && forall k :: 0 <= k < |ins| ==> Sees(rlc, R.After(Pow2(rlc) - 1, c, es[..k]), ins[k])
  }

  predicate Sees(rlc: nat, c: R.Coder, i: In) {
    i.sampleEnable == c.enable && (c.enable ==> i.probe == Encode(rlc, c.out) && i.trigger == c.out.sample.trigger)
  }

  function Triggers(ws: seq<R.RunWord>): (s: seq<bool>)
    ensures |s| == |ws| && forall i :: 0 <= i < |ws| ==> s[i] == ws[i].sample.trigger
  {
    seq(|ws|, i requires 0 <= i < |ws| => ws[i].sample.trigger)
  }

  function Sampled(i: In): seq<Word> { if i.sampleEnable then [i.probe] else [] }

  function Triggered(i: In): seq<bool> { if i.sampleEnable then [i.trigger] else [] }

  lemma StreamsFirst(i: In, rest: seq<In>)
    ensures SamplesIn([i] + rest) == Sampled(i) + SamplesIn(rest)
    ensures TriggersIn([i] + rest) == Triggered(i) + TriggersIn(rest)
  {
    assert ([i] + rest)[1..] == rest;
  }

  lemma StreamsPrepend(i: In, rest: seq<In>, samples: seq<Word>, triggers: seq<bool>, last: seq<Word>, mark: seq<bool>)
    requires SamplesIn(rest) == samples + last && TriggersIn(rest) == triggers + mark
    ensures SamplesIn([i] + rest) == (Sampled(i) + samples) + last
    ensures TriggersIn([i] + rest) == (Triggered(i) + triggers) + mark
  {
    StreamsFirst(i, rest);
  }

  lemma {:induction false} StreamsAppend(a: seq<In>, b: In)
    ensures SamplesIn(a + [b]) == SamplesIn(a) + Sampled(b)
    ensures TriggersIn(a + [b]) == TriggersIn(a) + Triggered(b)
    decreases |a|
  {
    if |a| == 0 {
      StreamsFirst(b, []);
      assert a + [b] == [b] + [];
    } else {
      var i, rest := a[0], a[1..];
      StreamsAppend(rest, b);
      assert a == [i] + rest && a + [b] == [i] + (rest + [b]);
      StreamsPrepend(i, rest + [b], SamplesIn(rest), TriggersIn(rest), Sampled(b), Triggered(b));
    }
  }

  // These samples and triggers are those of the words.
  predicate CarriesWords(rlc: nat, ws: seq<R.RunWord>, samples: seq<Word>, triggers: seq<bool>) {
    samples == EncodeAll(rlc, ws) && triggers == Triggers(ws)
  }

  lemma CarriesNext(rlc: nat, ws: seq<R.RunWord>, x: R.RunWord, samples: seq<Word>, triggers: seq<bool>)
    requires CarriesWords(rlc, ws, samples, triggers)
    ensures CarriesWords(rlc, ws + [x], samples + [Encode(rlc, x)], triggers + [x.sample.trigger])
  {
  }

  lemma WordComesIn(rlc: nat, ws: seq<R.RunWord>, d: R.Coder, a: seq<In>, b: In, all: seq<R.RunWord>, ins: seq<In>)
    requires CarriesWords(rlc, ws, SamplesIn(a), TriggersIn(a)) && Sees(rlc, d, b)
    requires all == R.Emitted(ws, d) && ins == a + [b]
    ensures CarriesWords(rlc, all, SamplesIn(ins), TriggersIn(ins))
  {
    StreamsAppend(a, b);
    if d.enable {
      CarriesNext(rlc, ws, d.out, SamplesIn(a), TriggersIn(a));
    } else {
      assert SamplesIn(ins) == SamplesIn(a) && TriggersIn(ins) == TriggersIn(a);
    }
  }

  // The words that go into the memory: the one that is there at the start, and the coder's.
  function WordsIn(rlc: nat, c: R.Coder, es: seq<R.Edge>): seq<R.RunWord> {
    (if c.enable then [c.out] else []) + R.Words(Pow2(rlc) - 1, c, es)
  }

  lemma WordsInNext(rlc: nat, c: R.Coder, es: seq<R.Edge>)
    requires |es| > 0
    ensures WordsIn(rlc, c, es) == R.Emitted(WordsIn(rlc, c, es[..|es| - 1]), R.After(Pow2(rlc) - 1, c, es))
  {
  }

  lemma WiredBefore(rlc: nat, c: R.Coder, es: seq<R.Edge>, ins: seq<In>)
    requires Wired(rlc, c, es, ins)
    ensures var k := |es|;
            && ins == ins[..k] + [ins[k]] && Sees(rlc, R.After(Pow2(rlc) - 1, c, es), ins[k])
            && (k > 0 ==> Wired(rlc, c, es[..k - 1], ins[..k]))
  {
    var k := |es|;
    assert es[..k] == es;
    if k > 0 {
      forall j | 0 <= j < k ensures Sees(rlc, R.After(Pow2(rlc) - 1, c, es[..k - 1][..j]), ins[..k][j]) {
        assert es[..k - 1][..j] == es[..j];
      }
    }
  }

  lemma FirstWordComesIn(rlc: nat, c: R.Coder, i: In)
    requires Sees(rlc, c, i)
    ensures CarriesWords(rlc, WordsIn(rlc, c, []), SamplesIn([i]), TriggersIn([i]))
  {
    WordComesIn(rlc, [], c, [], i, WordsIn(rlc, c, []), [i]);
  }

  lemma {:induction false} WordsComeIn(rlc: nat, c: R.Coder, es: seq<R.Edge>, ins: seq<In>)
    requires Wired(rlc, c, es, ins)
    ensures CarriesWords(rlc, WordsIn(rlc, c, es), SamplesIn(ins), TriggersIn(ins))
    decreases |es|
  {
    var k := |es|;
    WiredBefore(rlc, c, es, ins);
    if k == 0 {
      FirstWordComesIn(rlc, c, ins[0]);
      assert es == [] && ins == [ins[0]];
    } else {
      WordsComeIn(rlc, c, es[..k - 1], ins[..k]);
      WordsInNext(rlc, c, es);
      WordComesIn(rlc, WordsIn(rlc, c, es[..k - 1]), R.After(Pow2(rlc) - 1, c, es), ins[..k], ins[k],
                  WordsIn(rlc, c, es), ins);
    }
  }

  // What went into the coder: the runs that it holds at the start, and its inputs.
  function Probed(c: R.Coder, es: seq<R.Edge>): seq<R.Sample> {
    (if c.enable then R.Repeat(c.out.sample, c.out.count + 1) else []) + (R.Repeat(c.last, c.count + 1) + R.Inputs(es))
  }

  lemma WordsDecode(rlc: nat, c: R.Coder, es: seq<R.Edge>)
    ensures R.Decodes(R.After(Pow2(rlc) - 1, c, es), WordsIn(rlc, c, es), Probed(c, es))
  {
    var full := Pow2(rlc) - 1;
    var d, ws := R.After(full, c, es), R.Words(full, c, es);
    var tail := R.Repeat(d.last, d.count + 1);
    R.Lossless(full, c, es);
    if c.enable {
      R.ExpandConcat([c.out], ws);
      R.ExpandAppend([], c.out);
      assert [] + [c.out] == [c.out];
      var first := R.Repeat(c.out.sample, c.out.count + 1);
      assert R.Expand([c.out]) == first;
      assert (first + R.Expand(ws)) + tail == first + (R.Expand(ws) + tail);
    } else {
      assert [] + ws == ws && Probed(c, es) == R.Repeat(c.last, c.count + 1) + R.Inputs(es);
    }
  }

  // The counts fit into RUN_LENGTH_COMPRESSION bits.
  predicate Counted(rlc: nat, ws: seq<R.RunWord>) { forall i :: 0 <= i < |ws| ==> ws[i].count < Pow2(rlc) }

  predicate Bounded(rlc: nat, c: R.Coder) { c.count < Pow2(rlc) && (c.enable ==> c.out.count < Pow2(rlc)) }

  lemma WordsBounded(rlc: nat, c: R.Coder, es: seq<R.Edge>)
    requires Bounded(rlc, c)
    ensures Counted(rlc, WordsIn(rlc, c, es))
  {
    var full := Pow2(rlc) - 1;
    var ws, d := R.Words(full, c, es), R.After(full, c, es);
    R.RunsAreMaximal(full, c, es);
    var all := ws + [R.RunWord(d.last, d.count)];
    assert forall i :: 0 <= i < |ws| ==> ws[i] == all[i];
  }

  // ---- A window of the words ----

  // The samples before word k.
  function Start(ws: seq<R.RunWord>, k: nat): nat
    requires k <= |ws|
  {
    |R.Expand(ws[..k])|
  }

  // Words a to b - 1 stand for consecutive samples, from the first of word a on.
  lemma WindowOfWords(ws: seq<R.RunWord>, d: R.Coder, probed: seq<R.Sample>, a: nat, b: nat)
    requires a <= b <= |ws| && R.Decodes(d, ws, probed)
    ensures Start(ws, a) <= Start(ws, b) <= |probed|
    ensures R.Expand(ws[a..b]) == probed[Start(ws, a)..Start(ws, b)]
  {
    R.ExpandConcat(ws[..a], ws[a..b]);
    assert ws[..a] + ws[a..b] == ws[..b];
    assert (ws[..a] + ws[a..b]) + ws[b..] == ws;
    R.WindowDecodes(ws[..a], ws[a..b], ws[b..], d, probed);
  }

  // The host's reading of the groups of bytes.
  predicate AllWhole(w: nat, groups: seq<seq<Octet>>) { forall i :: 0 <= i < |groups| ==> |groups[i]| == BytesPer(w) }

  function Read(w: nat, groups: seq<seq<Octet>>): (words: seq<Word>)
    requires AllWhole(w, groups)
    ensures |words| == |groups| && forall i :: 0 <= i < |words| ==> words[i] == WordOf(w, groups[i])
  {
    seq(|groups|, i requires 0 <= i < |groups| => WordOf(w, groups[i]))
  }

  lemma ReadsWindowOf(w: nat, window: seq<Word>, groups: seq<seq<Octet>>)
    requires w >= 1 && AllSent(w, window, groups)
    ensures AllWhole(w, groups) && Read(w, groups) == window
  {
    forall i | 0 <= i < |groups| ensures Read(w, groups)[i] == window[i] {
      SerializedWord(w, window[i], groups[i]);
    }
  }

  // The host reads exactly these words.
  predicate ReadsAs(w: nat, groups: seq<seq<Octet>>, words: seq<Word>) { AllWhole(w, groups) && Read(w, groups) == words }

  // The host reads the samples of the words from a to b - 1.
  predicate ReadsSamples(rlc: nat, w: nat, groups: seq<seq<Octet>>, ws: seq<R.RunWord>, probed: seq<R.Sample>, a: int, b: int) {
    && 0 <= a <= b <= |ws| && rlc <= w && AllWhole(w, groups) && Start(ws, a) <= Start(ws, b) <= |probed|
    && Samples(rlc, Read(w, groups)) == Values(probed[Start(ws, a)..Start(ws, b)])
  }

  lemma CompressedWindow(rlc: nat, w: nat, ws: seq<R.RunWord>, samples: seq<Word>, triggers: seq<bool>,
                         e: R.Coder, probed: seq<R.Sample>, groups: seq<seq<Octet>>, a: int, b: int)
    requires rlc <= w && 0 <= a <= b <= |samples| && ReadsAs(w, groups, samples[a..b])
    requires CarriesWords(rlc, ws, samples, triggers) && Counted(rlc, ws) && R.Decodes(e, ws, probed)
    ensures ReadsSamples(rlc, w, groups, ws, probed, a, b)
  {
    assert samples[a..b] == EncodeAll(rlc, ws[a..b]);
    DecodesWords(rlc, ws[a..b]);
    WindowOfWords(ws, e, probed, a, b);
  }

  // What the host makes of samples a to b - 1 of those that go into the memory.
  lemma CodedStream(rlc: nat, w: nat, c: R.Coder, es: seq<R.Edge>, ins: seq<In>, groups: seq<seq<Octet>>, a: int, b: int)
    requires Wired(rlc, c, es, ins) && Bounded(rlc, c) && rlc <= w
    requires 0 <= a <= b <= |SamplesIn(ins)| && ReadsAs(w, groups, SamplesIn(ins)[a..b])
    ensures ReadsSamples(rlc, w, groups, WordsIn(rlc, c, es), Probed(c, es), a, b)
  {
    WordsComeIn(rlc, c, es, ins);
    WordsBounded(rlc, c, es);
    WordsDecode(rlc, c, es);
    CompressedWindow(rlc, w, WordsIn(rlc, c, es), SamplesIn(ins), TriggersIn(ins), R.After(Pow2(rlc) - 1, c, es),
                     Probed(c, es), groups, a, b);
  }

  // ---- A capture ----

  // Without compression: the host reads samples a to b - 1 of the stream, where sample a + d is
  // the first from number d on that triggers, and b - a is the depth of the memory.
  lemma CaptureIsRead(n: nat, w: nat, d: nat, s: System, samples: seq<Word>, triggers: seq<bool>, a: nat, b: nat)
    requires Inv(n, w, d, s) && HasRecorded(s, samples, triggers) && Done(s)
    requires TriggerAt(d, triggers, a + d) && b == a + n
    ensures b <= |samples| && ReadsAs(w, s.groups, samples[a..b])
  {
    CaptureSends(n, w, d, s, samples, triggers, a + d);
    ReadsWindowOf(w, samples[a..b], s.groups);
  }

  // When the capture of a coded stream is over, the host reads n words, and the samples they
  // stand for are consecutive samples of the probe: from the first sample of word a to the last
  // of word b - 1, where word a + d is the first from number d on that triggers, and b is a + n.
  lemma CompressedCapture(rlc: nat, n: nat, w: nat, d: nat, s: System, c: R.Coder, es: seq<R.Edge>, ins: seq<In>,
                          a: nat, b: nat)
    requires Inv(n, w, d, s) && HasRecorded(s, SamplesIn(ins), TriggersIn(ins)) && Done(s)
    requires Wired(rlc, c, es, ins) && Bounded(rlc, c) && rlc <= w && TriggerAt(d, TriggersIn(ins), a + d) && b == a + n
    ensures ReadsSamples(rlc, w, s.groups, WordsIn(rlc, c, es), Probed(c, es), a, b)
  {
    CaptureIsRead(n, w, d, s, SamplesIn(ins), TriggersIn(ins), a, b);
    CodedStream(rlc, w, c, es, ins, s.groups, a, b);
  }

  // ---- The trigger ----

  lemma WordBegins(ws: seq<R.RunWord>, e: R.Coder, probed: seq<R.Sample>, j: nat)
    requires j < |ws| && R.Decodes(e, ws, probed)
    ensures Start(ws, j) < |probed| && probed[Start(ws, j)] == ws[j].sample
  {
    WindowOfWords(ws, e, probed, j, j + 1);
    R.ExpandAppend([], ws[j]);
    assert ws[j..j + 1] == [] + [ws[j]];
    assert R.Expand(ws[j..j + 1]) == R.Repeat(ws[j].sample, ws[j].count + 1);
    assert probed[Start(ws, j)] == R.Expand(ws[j..j + 1])[0];
  }

  predicate NoTrigger(samples: seq<R.Sample>) { forall k :: 0 <= k < |samples| ==> !samples[k].trigger }

  lemma {:induction false} NoneTriggers(ws: seq<R.RunWord>)
    requires forall i :: 0 <= i < |ws| ==> !ws[i].sample.trigger
    ensures NoTrigger(R.Expand(ws))
  {
    if |ws| == 0 {
    } else {
      NoneTriggers(ws[..|ws| - 1]);
    }
  }

  // The trigger: the first sample of word j triggers, and none of the samples of the words from
  // number d up to it does.
  lemma TriggerIsFirst(rlc: nat, c: R.Coder, es: seq<R.Edge>, ins: seq<In>, d: nat, j: int)
    requires Wired(rlc, c, es, ins) && TriggerAt(d, TriggersIn(ins), j)
    ensures var ws, probed := WordsIn(rlc, c, es), Probed(c, es);
            && d <= j < |ws| && Start(ws, d) <= Start(ws, j) < |probed|
            && probed[Start(ws, j)].trigger && NoTrigger(probed[Start(ws, d)..Start(ws, j)])
  {
    var ws, e := WordsIn(rlc, c, es), R.After(Pow2(rlc) - 1, c, es);
    WordsComeIn(rlc, c, es, ins);
    WordsDecode(rlc, c, es);
    WordBegins(ws, e, Probed(c, es), j);
    WindowOfWords(ws, e, Probed(c, es), d, j);
    NoneTriggers(ws[d..j]);
  }
}
