// LogicAnalyserRunLengthCoder with RUN_LENGTH_COMPRESSION > 0: equal samples with equal
// trigger are counted; a word is emitted when they change or the count is full. full is
// 2**RUN_LENGTH_COMPRESSION - 1; a word with count c stands for c + 1 samples.
module RunLength {

  datatype Sample = Sample(value: seq<bool>, trigger: bool)
  datatype RunWord = RunWord(sample: Sample, count: nat)

  datatype Coder = Coder(count: nat, last: Sample, enable: bool, out: RunWord)

  function Next(full: nat, c: Coder, enabled: bool, s: Sample): Coder {
    if !enabled then c.(enable := false)
    else if c.last != s || c.count == full then Coder(0, s, true, RunWord(c.last, c.count))
    else c.(last := s, enable := false, count := if c.count == full then 0 else c.count + 1)
  }

  class LogicAnalyserRunLengthCoder {
    const full: nat
    var count: nat
    var last: Sample
    var enable: bool
    var out: RunWord

    function State(): Coder
      reads this
    {
      Coder(count, last, enable, out)
    }

    // After reset the last sample and the output word are undefined.
    constructor (full: nat, anySample: Sample, anyWord: RunWord)
      requires full >= 1
      ensures this.full == full && State() == Coder(0, anySample, false, anyWord)
    {
      this.full := full;
      count, last, enable, out := 0, anySample, false, anyWord;
    }

    method Clock(enabled: bool, s: Sample)
      modifies this
      ensures State() == Next(full, old(State()), enabled, s)
    {
      enable := false;
      if enabled {
        var lastBefore := last;
        last := s;
        if lastBefore.trigger != s.trigger || lastBefore.value != s.value || count == full {
          out := RunWord(lastBefore, count);
          count := 0;
          enable := true;
        } else {
          count := count + 1;
        }
      }
    }
  }

  // One edge: whether sample_enable is high, and the sample.
  datatype Edge = Edge(enabled: bool, sample: Sample)

  // The samples that go in and the words that come out.
  function Inputs(es: seq<Edge>): seq<Sample> {
    if |es| == 0 then []
    else Inputs(es[..|es| - 1]) + (if es[|es| - 1].enabled then [es[|es| - 1].sample] else [])
  }

  function After(full: nat, c: Coder, es: seq<Edge>): Coder {
    if |es| == 0 then c
    else Next(full, After(full, c, es[..|es| - 1]), es[|es| - 1].enabled, es[|es| - 1].sample)
  }

  function Words(full: nat, c: Coder, es: seq<Edge>): seq<RunWord> {
    if |es| == 0 then []
    else
      var d := After(full, c, es);
      Words(full, c, es[..|es| - 1]) + (if d.enable then [d.out] else [])
  }

  // ---- Decoding ----

  function Repeat(s: Sample, n: nat): (r: seq<Sample>)
    ensures |r| == n && forall i :: 0 <= i < n ==> r[i] == s
  {
    if n == 0 then [] else Repeat(s, n - 1) + [s]
  }

  function Expand(ws: seq<RunWord>): seq<Sample> {
    if |ws| == 0 then []
    else Expand(ws[..|ws| - 1]) + Repeat(ws[|ws| - 1].sample, ws[|ws| - 1].count + 1)
  }

  lemma ExpandAppend(ws: seq<RunWord>, w: RunWord)
    ensures Expand(ws + [w]) == Expand(ws) + Repeat(w.sample, w.count + 1)
  {
    assert (ws + [w])[..|ws|] == ws;
  }

  // Only a full word may be followed by one with the same value and trigger.
  predicate Maximal(full: nat, ws: seq<RunWord>) {
    && (forall i :: 0 <= i < |ws| ==> ws[i].count <= full)
    && (forall i :: 0 < i < |ws| && ws[i - 1].sample == ws[i].sample ==> ws[i - 1].count == full)
  }

  // What has come in so far is what the words stand for and the run still being counted.
  predicate Decodes(b: Coder, ws: seq<RunWord>, samples: seq<Sample>) {
    Expand(ws) + Repeat(b.last, b.count + 1) == samples
  }

  function Emitted(ws: seq<RunWord>, d: Coder): seq<RunWord> { if d.enable then ws + [d.out] else ws }

  lemma DecodesStep(full: nat, b: Coder, ws: seq<RunWord>, samples: seq<Sample>, e: Edge)
    requires Decodes(b, ws, samples)
    ensures var d := Next(full, b, e.enabled, e.sample);
            Decodes(d, Emitted(ws, d), if e.enabled then samples + [e.sample] else samples)
  {
    var d := Next(full, b, e.enabled, e.sample);
    if d.enable {
      ExpandAppend(ws, d.out);
      assert Repeat(d.last, 1) == [e.sample];
    } else if e.enabled {
      assert Repeat(d.last, d.count + 1) == Repeat(b.last, b.count + 1) + [e.sample];
      assert Expand(ws) + (Repeat(b.last, b.count + 1) + [e.sample]) == samples + [e.sample];
    }
  }

  // Lossless: the words, expanded, followed by the run still being counted, are exactly the
  // run that was being counted at the start (after reset: one undefined sample) followed by all
  // inputs, in order, with their triggers.
  lemma {:induction false} Lossless(full: nat, c: Coder, es: seq<Edge>)
    ensures Decodes(After(full, c, es), Words(full, c, es), Repeat(c.last, c.count + 1) + Inputs(es))
  {
    var first := Repeat(c.last, c.count + 1);
    if |es| == 0 {
      assert Expand([]) + first == first == first + Inputs(es);
    } else {
      var k := |es| - 1;
      Lossless(full, c, es[..k]);
      var b := After(full, c, es[..k]);
      DecodesStep(full, b, Words(full, c, es[..k]), first + Inputs(es[..k]), es[k]);
      assert Words(full, c, es) == Emitted(Words(full, c, es[..k]), After(full, c, es));
      assert first + Inputs(es) == if es[k].enabled then (first + Inputs(es[..k])) + [es[k].sample] else first + Inputs(es[..k]);
    }
  }

  lemma MaximalStep(full: nat, b: Coder, ws: seq<RunWord>, e: Edge)
    requires Maximal(full, ws + [RunWord(b.last, b.count)])
    ensures var d := Next(full, b, e.enabled, e.sample);
            Maximal(full, Emitted(ws, d) + [RunWord(d.last, d.count)])
  {
    var d := Next(full, b, e.enabled, e.sample);
    var before := ws + [RunWord(b.last, b.count)];
    var now := Emitted(ws, d) + [RunWord(d.last, d.count)];
    assert forall i :: 0 <= i < |ws| ==> now[i] == before[i] == ws[i];
    if d.enable {
      assert now[|ws|] == before[|ws|] == RunWord(b.last, b.count);
      assert now[|ws| + 1] == RunWord(e.sample, 0);
    } else {
      assert now[|ws|].sample == before[|ws|].sample;
      assert before[|ws|].count <= full;
    }
  }

  // Maximal: no run is longer than full + 1, and no two neighbouring words could have been one;
  // that includes the run still being counted.
  lemma {:induction false} RunsAreMaximal(full: nat, c: Coder, es: seq<Edge>)
    requires c.count <= full
    ensures var d := After(full, c, es);
            Maximal(full, Words(full, c, es) + [RunWord(d.last, d.count)])
  {
    if |es| == 0 {
    } else {
      var k := |es| - 1;
      RunsAreMaximal(full, c, es[..k]);
      MaximalStep(full, After(full, c, es[..k]), Words(full, c, es[..k]), es[k]);
      assert Words(full, c, es) == Emitted(Words(full, c, es[..k]), After(full, c, es));
    }
  }

  lemma {:induction false} ExpandConcat(a: seq<RunWord>, b: seq<RunWord>)
    ensures Expand(a + b) == Expand(a) + Expand(b)
    decreases |b|
  {
    if |b| == 0 {
      assert a + b == a;
    } else {
      var k := |b| - 1;
      ExpandConcat(a, b[..k]);
      ExpandAppend(a + b[..k], b[k]);
      assert (a + b[..k]) + [b[k]] == a + b;
      assert Expand(a) + (Expand(b[..k]) + Repeat(b[k].sample, b[k].count + 1))
          == (Expand(a) + Expand(b[..k])) + Repeat(b[k].sample, b[k].count + 1);
    }
  }

  // So any window of consecutive words, like the one the sample memory keeps, decodes to
  // consecutive input samples: y between the earlier words x and the later ones z.
  lemma WindowDecodes(x: seq<RunWord>, y: seq<RunWord>, z: seq<RunWord>, c: Coder, samples: seq<Sample>)
    requires Decodes(c, (x + y) + z, samples)
    ensures |Expand(x)| + |Expand(y)| <= |samples|
    ensures Expand(y) == samples[|Expand(x)|..|Expand(x)| + |Expand(y)|]
  {
    ExpandConcat(x + y, z);
    ExpandConcat(x, y);
    Slice(Expand(x), Expand(y), Expand(z), Repeat(c.last, c.count + 1));
  }

  lemma Slice(x: seq<Sample>, y: seq<Sample>, z: seq<Sample>, rest: seq<Sample>)
    ensures (((x + y) + z) + rest)[|x|..|x| + |y|] == y
  {
  }
}
