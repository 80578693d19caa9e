// The bytes of a waveform: from samples to the wire to the sample memory.
module WaveBytes {
  import opened Bytes
  import opened Numbers
  import opened Escaping
  import opened WaveController
  import opened WaveUpload
  import M = WaveMemory

  // ---- A shift-in register after some bytes ----

  function Fold(width: nat, v: nat, s: seq<Byte>): nat
    decreases |s|
  {
    if |s| == 0 then v else Fold(width, ShiftIn(width, v, s[0]), s[1..])
  }

  // Without a width; the most significant byte comes first.
  function Big(v: nat, s: seq<Byte>): nat
    decreases |s|
  {
    if |s| == 0 then v else Big(v * 256 + s[0], s[1..])
  }

  function Reverse(s: seq<Byte>): (r: seq<Byte>)
    ensures |r| == |s|
  {
    if |s| == 0 then [] else Reverse(s[1..]) + [s[0]]
  }

  lemma {:induction false} BigSplits(v: nat, s: seq<Byte>)
    ensures Big(v, s) == v * Pow2(8 * |s|) + Big(0, s)
    decreases |s|
  {
    if |s| == 0 {
      assert Pow2(0) == 1;
    } else {
      BigSplits(v * 256 + s[0], s[1..]);
      BigSplits(s[0], s[1..]);
      Pow2Byte(|s| - 1);
      var p := Pow2(8 * (|s| - 1));
      assert (v * 256 + s[0]) * p == v * (256 * p) + s[0] * p;
    }
  }

  lemma {:induction false} BigAppend(v: nat, s: seq<Byte>, b: Byte)
    ensures Big(v, s + [b]) == Big(v, s) * 256 + b
    decreases |s|
  {
    if |s| == 0 {
      assert s + [b] == [b] && [b][1..] == [];
    } else {
      BigAppend(v * 256 + s[0], s[1..], b);
      assert (s + [b])[1..] == s[1..] + [b];
    }
  }

  lemma {:induction false} BigReverse(s: seq<Byte>)
    ensures Big(0, Reverse(s)) == Value(s)
  {
    if |s| == 0 {
    } else {
      BigReverse(s[1..]);
      BigAppend(0, Reverse(s[1..]), s[0]);
    }
  }

  // A register forgets what was shifted in before: only as many bits as it has matter.
  lemma {:induction false} FoldIsBig(width: nat, v: nat, s: seq<Byte>)
    ensures Fold(width, v, s) % Pow2(width) == Big(v, s) % Pow2(width)
    ensures |s| > 0 ==> Fold(width, v, s) < Pow2(width)
    decreases |s|
  {
    if |s| == 0 {
    } else {
      var m, x := Pow2(width), v * 256 + s[0];
      FoldIsBig(width, x % m, s[1..]);
      BigSplits(x % m, s[1..]);
      BigSplits(x, s[1..]);
      KeepsRemainder(x, Pow2(8 * |s[1..]|), Big(0, s[1..]), m);
      if |s| == 1 {
        assert s[1..] == [];
      }
    }
  }

  lemma KeepsRemainder(x: nat, p: nat, b: nat, m: nat)
    requires m > 0
    ensures ((x % m) * p + b) % m == (x * p + b) % m
  {
    var q := x / m;
    assert x == q * m + x % m;
    assert x * p == (x % m) * p + (q * p) * m by {
      assert (q * m) * p == (q * p) * m;
      assert (q * m + x % m) * p == (q * m) * p + (x % m) * p;
    }
    ModAddMultiple((x % m) * p + b, q * p, m);
  }

  lemma MulAssociative(a: int, b: int, c: int)
    ensures a * (b * c) == (a * b) * c
  {
  }

  lemma OldBitsLeave(v: nat, b: nat, width: nat, n: nat)
    requires n >= width
    ensures (v * Pow2(n) + b) % Pow2(width) == b % Pow2(width)
  {
    Pow2Add(n - width, width);
    MulAssociative(v, Pow2(n - width), Pow2(width));
    ModAddMultiple(b, v * Pow2(n - width), Pow2(width));
  }

  // A field of whole bytes, sent most significant byte first, ends up as its value in the width
  // of the register.
  lemma FieldShiftedIn(width: nat, v: nat, d: seq<Byte>)
    requires |d| == RoundUp(width) > 0
    ensures Fold(width, v, Reverse(d)) == Field(width, d)
  {
    var s := Reverse(d);
    FoldIsBig(width, v, s);
    BigSplits(v, s);
    BigReverse(d);
    OldBitsLeave(v, Big(0, s), width, 8 * |s|);
    ModIs(Fold(width, v, s), Pow2(width), 0, Fold(width, v, s));
  }

  // ---- The bytes of an upload ----

  function Concat(ds: seq<seq<Byte>>): seq<Byte> {
    if |ds| == 0 then [] else Reverse(ds[0]) + Concat(ds[1..])
  }

  // ds: the samples, least significant byte first.
  function UploadBytes(cfg: Widths, ds: seq<seq<Byte>>): seq<Byte>
    requires |ds| > 0
  {
    [NUMBER_OF_SAMPLES] + Reverse(ToBytes(AddrSize(cfg), |ds| - 1)) + ([WRITE_SAMPLES] + Concat(ds))
  }

  // The same with escaping, as the host sends it.
  function UploadEscaped(cfg: Widths, ds: seq<seq<Byte>>): seq<Byte>
    requires |ds| > 0
  {
    [NUMBER_OF_SAMPLES] + Escape(Reverse(ToBytes(AddrSize(cfg), |ds| - 1))) + ([WRITE_SAMPLES] + Escape(Concat(ds)))
  }

  lemma CommandAndField(command: Byte, d: seq<Byte>)
    requires command != ESCAPE && command != RESET
    ensures !Escaped(false, [command] + Escape(d)) && DataOf(Decode(false, [command] + Escape(d))) == [command] + d
  {
    DecodeConcat(false, [command], Escape(d));
    DecodeOne(false, command);
    DecodeEscape(d);
    DataOfPlain(d);
    DataOfConcat([Data(command)], Plain(d));
    assert DataOf([Data(command)]) == [command] by { assert [Data(command)][1..] == []; }
  }

  lemma UploadDecodes(cfg: Widths, ds: seq<seq<Byte>>)
    requires |ds| > 0
    ensures DataOf(Decode(false, UploadEscaped(cfg, ds))) == UploadBytes(cfg, ds)
  {
    var number := Reverse(ToBytes(AddrSize(cfg), |ds| - 1));
    CommandAndField(NUMBER_OF_SAMPLES, number);
    CommandAndField(WRITE_SAMPLES, Concat(ds));
    DecodeConcat(false, [NUMBER_OF_SAMPLES] + Escape(number), [WRITE_SAMPLES] + Escape(Concat(ds)));
    DataOfConcat(Decode(false, [NUMBER_OF_SAMPLES] + Escape(number)), Decode(false, [WRITE_SAMPLES] + Escape(Concat(ds))));
  }

  // ---- Feeding an upload ----

  predicate Polite(u: Upload, b: Byte) { u.mode != Finished && (u.mode == Ready ==> b == NUMBER_OF_SAMPLES || b == WRITE_SAMPLES) }

  predicate AllPolite(cfg: Widths, u: Upload, s: seq<Byte>)
    decreases |s|
  {
    |s| == 0 || (Polite(u, s[0]) && AllPolite(cfg, ByteIn(cfg, u, s[0]), s[1..]))
  }

  lemma {:induction false} FeedConcat(cfg: Widths, u: Upload, s: seq<Byte>, t: seq<Byte>)
    ensures FeedAll(cfg, u, s + t) == FeedAll(cfg, FeedAll(cfg, u, s), t)
    ensures AllPolite(cfg, u, s + t) == (AllPolite(cfg, u, s) && AllPolite(cfg, FeedAll(cfg, u, s), t))
    decreases |s|
  {
    if |s| == 0 {
      assert s + t == t;
    } else {
      FeedConcat(cfg, ByteIn(cfg, u, s[0]), s[1..], t);
      assert (s + t)[1..] == s[1..] + t;
    }
  }

  lemma {:induction false} FeedNumber(cfg: Widths, u: Upload, s: seq<Byte>)
    requires u.mode == Numbering && u.count + |s| == AddrSize(cfg) && |s| > 0 && Fits(cfg)
    ensures AllPolite(cfg, u, s)
    ensures FeedAll(cfg, u, s) == u.(mode := Ready, count := AddrSize(cfg), last := Fold(cfg.addr, u.last, s))
    decreases |s|
  {
    if |s| == 1 {
      assert s[1..] == [];
    } else {
      FeedNumber(cfg, ByteIn(cfg, u, s[0]), s[1..]);
    }
  }

  lemma {:induction false} FeedBroken(cfg: Widths, u: Upload, s: seq<Byte>)
    requires u.mode == Broken
    ensures AllPolite(cfg, u, s) && FeedAll(cfg, u, s) == u
    decreases |s|
  {
    if |s| == 0 {
    } else {
      FeedBroken(cfg, u, s[1..]);
    }
  }

  // With more bytes than the counter reaches, the number breaks the upload.
  lemma {:induction false} FeedLongNumber(cfg: Widths, u: Upload, s: seq<Byte>)
    requires u.mode == Numbering && u.count + |s| == AddrSize(cfg) && u.count <= DataSize(cfg) && !Fits(cfg)
    ensures AllPolite(cfg, u, s) && FeedAll(cfg, u, s).mode == Broken
    decreases |s|
  {
    var n := ByteIn(cfg, u, s[0]);
    if u.count == DataSize(cfg) {
      FeedBroken(cfg, n, s[1..]);
    } else {
      FeedLongNumber(cfg, n, s[1..]);
    }
  }

  // One sample more, and the bytes counted.
  predicate Sampled(cfg: Widths, u: Upload, n: Upload, v: nat, bytes: nat) {
    && n.samples == u.samples + [v] && n.count == 0 && n.last == u.last
    && n.mode == (if |u.samples| == u.last then Finished else Writing)
    && Total(n) == Total(u) + bytes && n.timeout < 64
  }

  lemma {:induction false} FeedSample(cfg: Widths, u: Upload, s: seq<Byte>)
    requires u.mode == Writing && u.count + |s| == DataSize(cfg) && |s| > 0 && u.timeout < 64
    ensures AllPolite(cfg, u, s)
    ensures Sampled(cfg, u, FeedAll(cfg, u, s), Fold(cfg.data, u.value, s), |s|)
    decreases |s|
  {
    if |s| == 1 {
      assert s[1..] == [];
    } else {
      FeedSample(cfg, ByteIn(cfg, u, s[0]), s[1..]);
    }
  }

  function Fields(width: nat, ds: seq<seq<Byte>>): (f: seq<nat>)
    ensures |f| == |ds| && forall i :: 0 <= i < |ds| ==> f[i] == Field(width, ds[i])
  {
    seq(|ds|, i requires 0 <= i < |ds| => Field(width, ds[i]))
  }

  predicate Sizes(size: nat, ds: seq<seq<Byte>>) { forall i :: 0 <= i < |ds| ==> |ds[i]| == size }

  lemma FieldsFirst(width: nat, f: seq<nat>, ds: seq<seq<Byte>>)
    requires |ds| > 0
    ensures (f + [Field(width, ds[0])]) + Fields(width, ds[1..]) == f + Fields(width, ds)
  {
    assert Fields(width, ds) == [Field(width, ds[0])] + Fields(width, ds[1..]);
  }

  // All samples of a waveform.
  predicate Stored(cfg: Widths, u: Upload, n: Upload, ds: seq<seq<Byte>>, bytes: nat) {
    n.mode == Finished && n.samples == u.samples + Fields(cfg.data, ds) && n.last == u.last && Total(n) == Total(u) + bytes
  }

  lemma StoredFirst(cfg: Widths, u: Upload, n: Upload, end: Upload, ds: seq<seq<Byte>>, bytes: nat, more: nat)
    requires |ds| > 0 && Sampled(cfg, u, n, Field(cfg.data, ds[0]), bytes) && Stored(cfg, n, end, ds[1..], more)
    ensures Stored(cfg, u, end, ds, bytes + more)
  {
    FieldsFirst(cfg.data, u.samples, ds);
  }

  lemma {:induction false} FeedSamples(cfg: Widths, u: Upload, ds: seq<seq<Byte>>)
    requires u.mode == Writing && u.count == 0 && u.timeout < 64 && cfg.data > 0
    requires |ds| > 0 && |u.samples| + |ds| == u.last + 1 && Sizes(DataSize(cfg), ds)
    ensures AllPolite(cfg, u, Concat(ds)) && Stored(cfg, u, FeedAll(cfg, u, Concat(ds)), ds, |Concat(ds)|)
    decreases |ds|
  {
    var s, rest := Reverse(ds[0]), Concat(ds[1..]);
    FeedSample(cfg, u, s);
    FeedConcat(cfg, u, s, rest);
    FieldShiftedIn(cfg.data, u.value, ds[0]);
    var n := FeedAll(cfg, u, s);
    if |ds| > 1 {
      FeedSamples(cfg, n, ds[1..]);
    } else {
      assert Fields(cfg.data, ds[1..]) == [];
    }
    StoredFirst(cfg, u, n, FeedAll(cfg, u, Concat(ds)), ds, |s|, |rest|);
  }

  lemma LastIndexShiftedIn(cfg: Widths, v: nat, index: nat)
    requires cfg.addr > 0 && index < Pow2(cfg.addr)
    ensures Fold(cfg.addr, v, Reverse(ToBytes(AddrSize(cfg), index))) == index
  {
    FieldShiftedIn(cfg.addr, v, ToBytes(AddrSize(cfg), index));
    ToBytesMod(AddrSize(cfg), index);
    ModWiden(index, cfg.addr, 8 * AddrSize(cfg));
    ModIs(index, Pow2(cfg.addr), 0, index);
  }

  // The number of samples first, then the samples: the upload finishes exactly if the address
  // takes at most one byte more than a sample.
  lemma FeedUpload(cfg: Widths, u: Upload, ds: seq<seq<Byte>>)
    requires u.mode == Ready && cfg.data > 0 && cfg.addr > 0
    requires 0 < |ds| <= Pow2(cfg.addr) && Sizes(DataSize(cfg), ds)
    ensures AllPolite(cfg, u, UploadBytes(cfg, ds))
    ensures var n := FeedAll(cfg, u, UploadBytes(cfg, ds));
            if Fits(cfg) then n.mode == Finished && n.samples == Fields(cfg.data, ds) && n.last == |ds| - 1 && Total(n) == |Concat(ds)|
            else n.mode == Broken
  {
    var number := Reverse(ToBytes(AddrSize(cfg), |ds| - 1));
    var numbering := u.(mode := Numbering, count := 0);
    FeedCommand(cfg, u, NUMBER_OF_SAMPLES, number);
    FeedConcat(cfg, u, [NUMBER_OF_SAMPLES] + number, [WRITE_SAMPLES] + Concat(ds));
    if Fits(cfg) {
      FeedNumber(cfg, numbering, number);
      LastIndexShiftedIn(cfg, u.last, |ds| - 1);
      var ready := FeedAll(cfg, numbering, number);
      FeedCommand(cfg, ready, WRITE_SAMPLES, Concat(ds));
      FeedSamples(cfg, ByteIn(cfg, ready, WRITE_SAMPLES), ds);
      assert [] + Fields(cfg.data, ds) == Fields(cfg.data, ds);
    } else {
      FeedLongNumber(cfg, numbering, number);
      FeedBroken(cfg, FeedAll(cfg, numbering, number), [WRITE_SAMPLES] + Concat(ds));
    }
  }

  lemma FeedCommand(cfg: Widths, u: Upload, command: Byte, s: seq<Byte>)
    requires u.mode == Ready && (command == NUMBER_OF_SAMPLES || command == WRITE_SAMPLES)
    ensures FeedAll(cfg, u, [command] + s) == FeedAll(cfg, ByteIn(cfg, u, command), s)
    ensures AllPolite(cfg, u, [command] + s) == AllPolite(cfg, ByteIn(cfg, u, command), s)
  {
    assert ([command] + s)[1..] == s;
  }

  // ---- On the clocked side ----

  lemma {:induction false} PoliteIsExpected(cfg: Widths, u: Upload, ps: seq<Pins>)
    requires AllPolite(cfg, u, BytesOf(ps))
    ensures AllExpected(cfg, u, ps)
    decreases |ps|
  {
    if |ps| == 0 {
    } else {
      if ps[0].valid {
        assert BytesOf(ps)[1..] == BytesOf(ps[1..]);
      } else {
        assert BytesOf(ps) == BytesOf(ps[1..]);
      }
      PoliteIsExpected(cfg, UploadStep(cfg, u, ps[0]), ps[1..]);
    }
  }

  // Sample i is at address i in the width of the memory, the last address is published with
  // the buffer, and the host got at most one alive message for every 64 bytes but the last.
  predicate Uploaded(cfg: Widths, n: Run, target: bool, ds: seq<seq<Byte>>) {
    && n.u.mode == Finished && n.u.samples == Fields(cfg.data, ds) && MostAlive(n.u) == (|Concat(ds)| - 1) / 64
    && (Settled(cfg, n.s) ==>
          && |TargetRam(cfg, n.s, target)| >= |ds| && TargetRam(cfg, n.s, target)[..|ds|] == Fields(cfg.data, ds)
          && |ds| > 0 && n.s.w.next == M.Next(|ds| - 1, target))
  }

  lemma FinishedIsUploaded(cfg: Widths, n: Run, target: bool, ds: seq<seq<Byte>>)
    requires InStep(cfg, n, target) && n.u.mode == Finished && n.u.samples == Fields(cfg.data, ds)
    requires |ds| > 0 && n.u.last == |ds| - 1 && MostAlive(n.u) == (|Concat(ds)| - 1) / 64
    ensures Uploaded(cfg, n, target, ds)
  {
    if Settled(cfg, n.s) {
      UploadComplete(cfg, n, target);
    }
  }

  predicate UploadEnds(cfg: Widths, before: Side, n: Run, target: bool, ds: seq<seq<Byte>>) {
    && InStep(cfg, n, target) && OtherRam(cfg, n.s, target) == OtherRam(cfg, before, target)
    && (if Fits(cfg) then Uploaded(cfg, n, target, ds)
        else n.s.c.f.state == OutOfRange && n.s.ram == before.ram && n.s.ram2 == before.ram2 && n.out + Up(n.s.c.t) == [])
  }

  lemma UploadEndsAs(cfg: Widths, r: Run, n: Run, ps: seq<Pins>, target: bool, ds: seq<seq<Byte>>)
    requires InStep(cfg, r, target) && AllExpected(cfg, r.u, ps) && n == RunAll(cfg, r, ps)
    requires InStep(cfg, n, target) && OtherRam(cfg, n.s, target) == OtherRam(cfg, r.s, target) && |ds| > 0
    requires if Fits(cfg) then n.u.mode == Finished && n.u.samples == Fields(cfg.data, ds) && n.u.last == |ds| - 1 && Total(n.u) == |Concat(ds)|
             else n.u.mode == Broken
    ensures UploadEnds(cfg, r.s, n, target, ds)
  {
    if Fits(cfg) {
      FinishedIsUploaded(cfg, n, target, ds);
    } else {
      BrokenStoresNothing(cfg, r, ps, target);
    }
  }

  lemma UploadRuns(cfg: Widths, r: Run, ps: seq<Pins>, target: bool)
    requires InStep(cfg, r, target) && AllPolite(cfg, r.u, BytesOf(ps))
    ensures var n := RunAll(cfg, r, ps);
            && InStep(cfg, n, target) && OtherRam(cfg, n.s, target) == OtherRam(cfg, r.s, target)
            && n.u == FeedAll(cfg, r.u, BytesOf(ps)) && AllExpected(cfg, r.u, ps)
  {
    PoliteIsExpected(cfg, r.u, ps);
    RunUploads(cfg, r, ps, target);
  }

  // The bytes of an upload, in any clocks and with any behaviour of the uplink: when they are
  // all in, the samples are stored and the other buffer is as it was; but if the address takes
  // more than one byte more than a sample, the controller stops, nothing is stored and no answer
  // is ever sent.
  lemma WaveformUploaded(cfg: Widths, r: Run, ps: seq<Pins>, target: bool, ds: seq<seq<Byte>>)
    requires InStep(cfg, r, target) && r.u.mode == Ready
    requires 0 < |ds| <= Pow2(cfg.addr) && Sizes(DataSize(cfg), ds) && BytesOf(ps) == UploadBytes(cfg, ds)
    ensures UploadEnds(cfg, r.s, RunAll(cfg, r, ps), target, ds)
  {
    FeedUpload(cfg, r.u, ds);
    UploadRuns(cfg, r, ps, target);
    UploadEndsAs(cfg, r, RunAll(cfg, r, ps), ps, target, ds);
  }
}
