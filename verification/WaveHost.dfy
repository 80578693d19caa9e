// The waveform generator host libraries: IpdbgWaveformGenerator_write (C) on an ideal byte
// stream, and IpdbgWaveformGenerator::write (C++) on top of it.
module WaveHost {
  import opened Bytes
  import opened Numbers
  import opened Escaping
  import opened WaveController
  import opened WaveUpload
  import opened WaveBytes

  function Alives(n: nat): (q: seq<Byte>)
    ensures |q| == n && forall i :: 0 <= i < n ==> q[i] == ALIVE
  {
    seq(n, i => ALIVE)
  }

  // The core behind the byte stream. Of the possible alive messages of the k-th upload the host
  // gets `heard(k)`, at most.
  class Core {
    const cfg: Widths
    const heard: nat -> nat
    var u: Upload
    var uploads: nat
    var sent: seq<Byte>
    var unread: seq<Byte>

    constructor (cfg: Widths, heard: nat -> nat, u: Upload)
      ensures this.cfg == cfg && this.heard == heard && this.u == u.(mode := Ready) && uploads == 0 && sent == [] && unread == []
    {
      this.cfg, this.heard, this.u, uploads, sent, unread := cfg, heard, u.(mode := Ready), 0, [], [];
    }

    // A whole upload, after the answers to the one before. An upload that breaks (the address
    // has too many bytes for the controller) is not answered.
    method Send(s: seq<Byte>)
      requires u.mode == Ready && unread == [] && AllPolite(cfg, u, DataOf(Decode(false, s)))
      requires FeedAll(cfg, u, DataOf(Decode(false, s))).mode in {Finished, Broken}
      modifies this
      ensures sent == old(sent) + s && uploads == old(uploads) + 1
      ensures var n := FeedAll(cfg, old(u), DataOf(Decode(false, s)));
              if n.mode == Broken then u == n && unread == []
              else u == n.(mode := Ready) && unread != [] && unread[|unread| - 1] == DONE
                   && Alive(unread[..|unread| - 1], MaxInt(MostAlive(n), 0))
    {
      u := FeedAll(cfg, u, DataOf(Decode(false, s)));
      if u.mode == Finished {
        var most := MaxInt(MostAlive(u), 0);
        unread := Alives(if heard(uploads) <= most then heard(uploads) else most) + [DONE];
        u := u.(mode := Ready);
      }
      uploads := uploads + 1;
      sent := sent + s;
    }

    // ok is false after the timeout, when the core has nothing to send.
    method Receive() returns (ok: bool, b: Byte)
      modifies this`unread
      ensures ok == (old(unread) != [])
      ensures if ok then [b] + unread == old(unread) else unread == []
    {
      ok, b := unread != [], 0;
      if ok {
        b := unread[0];
        unread := unread[1..];
      }
    }
  }

  function MaxInt(a: int, b: int): int { if a < b then b else a }

  datatype Ret = RetOk | RetError

  // The samples of a buffer, size bytes each.
  function Chunks(samples: seq<Byte>, size: nat, count: nat): (ds: seq<seq<Byte>>)
    requires count * size <= |samples|
    ensures |ds| == count && Sizes(size, ds)
  {
    if count == 0 then []
    else
      assert count * size == (count - 1) * size + size;
      Chunks(samples, size, count - 1) + [samples[(count - 1) * size..count * size]]
  }

  lemma {:induction false} ConcatAppend(ds: seq<seq<Byte>>, d: seq<Byte>)
    ensures Concat(ds + [d]) == Concat(ds) + Reverse(d)
  {
    if |ds| == 0 {
      assert ds + [d] == [d] && [d][1..] == [];
    } else {
      var first := Reverse(ds[0]);
      ConcatAppend(ds[1..], d);
      assert (ds + [d])[1..] == ds[1..] + [d];
      assert first + (Concat(ds[1..]) + Reverse(d)) == (first + Concat(ds[1..])) + Reverse(d);
    }
  }

  lemma EscapeFirst(b: Byte, s: seq<Byte>)
    ensures Escape([b] + s) == EscapeByte(b) + Escape(s)
  {
    assert ([b] + s)[1..] == s;
  }

  lemma JoinsLater(a: seq<Byte>, b: seq<Byte>, c: seq<Byte>)
    ensures a + (b + c) == (a + b) + c
  {
  }

  lemma {:induction false} EscapeConcat(s: seq<Byte>, t: seq<Byte>)
    ensures Escape(s + t) == Escape(s) + Escape(t)
    decreases |s|
  {
    if |s| == 0 {
      assert s + t == t;
    } else {
      EscapeConcat(s[1..], t);
      EscapeFirst(s[0], s[1..]);
      EscapeFirst(s[0], s[1..] + t);
      JoinsLater(EscapeByte(s[0]), Escape(s[1..]), Escape(t));
      assert s == [s[0]] + s[1..] && s + t == [s[0]] + (s[1..] + t);
    }
  }

  // A byte appended to a buffer, escaped.
  method EscapeInto(payload: Byte, buf: array<Byte>, at: nat) returns (n: nat)
    requires at + 2 <= buf.Length
    modifies buf
    ensures n <= 2 && buf[..at + n] == old(buf[..at]) + EscapeByte(payload)
  {
    n := 0;
    if payload == RESET || payload == ESCAPE {
      buf[at + n] := ESCAPE;
      n := n + 1;
    }
    buf[at + n] := payload;
    n := n + 1;
    assert buf[..at] == old(buf[..at]);
  }

  // The bytes of one field, last byte first.
  method EscapeField(field: seq<Byte>, buf: array<Byte>, at: nat) returns (n: nat)
    requires at + 2 * |field| <= buf.Length
    modifies buf
    ensures at <= n <= at + 2 * |field| && buf[..n] == old(buf[..at]) + Escape(Reverse(field))
  {
    n := at;
    var i := |field|;
    while i > 0
      invariant 0 <= i <= |field| && at <= n <= at + 2 * (|field| - i)
      invariant buf[..n] == old(buf[..at]) + Escape(Reverse(field[i..]))
    {
      i := i - 1;
      ghost var before := buf[..n];
      var m := EscapeInto(field[i], buf, n);
      n := n + m;
      FieldEscaped(field, i, old(buf[..at]), before, buf[..n]);
    }
    assert field[0..] == field;
  }

  // One more byte of a field, from the last to the first.
  lemma FieldEscaped(field: seq<Byte>, i: nat, head: seq<Byte>, before: seq<Byte>, after: seq<Byte>)
    requires i < |field| && before == head + Escape(Reverse(field[i + 1..])) && after == before + EscapeByte(field[i])
    ensures after == head + Escape(Reverse(field[i..]))
  {
    EscapeAppend(Reverse(field[i + 1..]), field[i]);
    assert field[i..][1..] == field[i + 1..];
    JoinsLater(head, Escape(Reverse(field[i + 1..])), EscapeByte(field[i]));
  }

  // A 64 bit number as size bytes, last byte first.
  method EscapeNumber(v: nat, size: nat, buf: array<Byte>, at: nat) returns (n: nat)
    requires v < 0x1_0000_0000_0000_0000 && at + 2 * size <= buf.Length
    modifies buf
    ensures at <= n <= at + 2 * size && buf[..n] == old(buf[..at]) + Escape(Reverse(ToBytes(size, v)))
  {
    ghost var field := ToBytes(size, v);
    n := at;
    var i := size;
    while i > 0
      invariant 0 <= i <= size && at <= n <= at + 2 * (size - i)
      invariant buf[..n] == old(buf[..at]) + Escape(Reverse(field[i..]))
    {
      i := i - 1;
      var b := if i < 8 then (v / Pow2(i * 8)) % 256 else 0;
      NumberByte(size, v, i);
      ghost var before := buf[..n];
      var m := EscapeInto(b, buf, n);
      n := n + m;
      FieldEscaped(field, i, old(buf[..at]), before, buf[..n]);
    }
    assert field[0..] == field;
  }

  lemma NumberByte(size: nat, v: nat, i: nat)
    requires v < 0x1_0000_0000_0000_0000 && i < size
    ensures ToBytes(size, v)[i] == if i < 8 then (v / Pow2(i * 8)) % 256 else 0
  {
    ToBytesAt(size, v, i);
    if i >= 8 {
      Pow64();
      Pow2Grows(64, 8 * i);
      ModIs(v, Pow2(8 * i), 0, v);
    }
  }

  class WaveformGenerator {
    const link: Core
    const dataWidthBytes: nat
    const addressWidth: nat
    const addressWidthBytes: nat
    const sizeBits: nat // of size_t

    // Connected, with the sizes of the core.
    constructor (link: Core, sizeBits: nat)
      ensures this.link == link && this.sizeBits == sizeBits
      ensures addressWidth == link.cfg.addr && dataWidthBytes == DataSize(link.cfg) && addressWidthBytes == AddrSize(link.cfg)
    {
      this.link, this.sizeBits := link, sizeBits;
      addressWidth, dataWidthBytes, addressWidthBytes := link.cfg.addr, RoundUp(link.cfg.data), RoundUp(link.cfg.addr);
    }

    predicate Open()
      reads link
    {
      && link.cfg.data > 0 && link.cfg.addr > 0
      && addressWidth == link.cfg.addr && dataWidthBytes == DataSize(link.cfg) && addressWidthBytes == AddrSize(link.cfg)
      && 32 <= sizeBits <= 64 && addressWidthBytes < 0x2000_0000
      && link.u.mode == Ready && link.unread == []
    }

    function SizeMax(): nat { Pow2(sizeBits) - 1 }

    function MaxSamples(): nat { if addressWidth >= sizeBits then SizeMax() else Pow2(addressWidth) }

    // count * dataWidthBytes may be as large as this: with escaping and the two commands the
    // buffer still has a size.
    function Room(): int { SizeMax() / 2 - 2 - addressWidthBytes }

    method Fill(samples: seq<Byte>, count: nat, buffer: array<Byte>) returns (n: nat)
      requires Open() && 0 < count <= 0x1_0000_0000_0000_0000 && count * dataWidthBytes <= |samples|
      requires buffer.Length == 2 + 2 * (addressWidthBytes + count * dataWidthBytes)
      modifies buffer
      ensures n <= buffer.Length
      ensures buffer[..n] == UploadEscaped(link.cfg, Chunks(samples, dataWidthBytes, count))
    {
      n := PutCommand(NUMBER_OF_SAMPLES, buffer, 0);
      n := EscapeNumber(count - 1, addressWidthBytes, buffer, n);
      n := PutCommand(WRITE_SAMPLES, buffer, n);
      n := FillSamples(samples, count, buffer, n);
      Filled(buffer[..n], link.cfg, Chunks(samples, dataWidthBytes, count));
    }

    method PutCommand(command: Byte, buffer: array<Byte>, at: nat) returns (n: nat)
      requires at < buffer.Length
      modifies buffer
      ensures n == at + 1 && buffer[..n] == old(buffer[..at]) + [command]
    {
      buffer[at] := command;
      n := at + 1;
      assert buffer[..at] == old(buffer[..at]);
    }

    static lemma Assembled(a: seq<Byte>, b: seq<Byte>, c: seq<Byte>, d: seq<Byte>)
      ensures [] + a + b + c + d == a + b + (c + d)
    {
    }

    static lemma Filled(b: seq<Byte>, cfg: Widths, ds: seq<seq<Byte>>)
      requires |ds| > 0
      requires b == [] + [NUMBER_OF_SAMPLES] + Escape(Reverse(ToBytes(AddrSize(cfg), |ds| - 1))) + [WRITE_SAMPLES] + Escape(Concat(ds))
      ensures b == UploadEscaped(cfg, ds)
    {
      Assembled([NUMBER_OF_SAMPLES], Escape(Reverse(ToBytes(AddrSize(cfg), |ds| - 1))), [WRITE_SAMPLES], Escape(Concat(ds)));
    }

    method FillSamples(samples: seq<Byte>, count: nat, buffer: array<Byte>, at: nat) returns (n: nat)
      requires count * dataWidthBytes <= |samples| && at + 2 * (count * dataWidthBytes) <= buffer.Length
      modifies buffer
      ensures at <= n <= at + 2 * (count * dataWidthBytes)
      ensures buffer[..n] == old(buffer[..at]) + Escape(Concat(Chunks(samples, dataWidthBytes, count)))
    {
      n := at;
      var s, from := 0, 0;
      ghost var total := count * dataWidthBytes;
      while s < count
        invariant 0 <= s <= count && from == s * dataWidthBytes <= total
        invariant at <= n <= at + 2 * from
        invariant buffer[..n] == old(buffer[..at]) + Escape(Concat(Chunks(samples, dataWidthBytes, s)))
      {
        RoomForSample(s, count, dataWidthBytes);
        ghost var filled := buffer[..n];
        n := EscapeField(samples[from..from + dataWidthBytes], buffer, n);
        ChunkEscaped(samples, dataWidthBytes, s, from, old(buffer[..at]), filled, buffer[..n]);
        s, from := s + 1, from + dataWidthBytes;
      }
    }

    // One more sample.
    static lemma ChunkEscaped(samples: seq<Byte>, size: nat, s: nat, from: nat, head: seq<Byte>, before: seq<Byte>, after: seq<Byte>)
      requires from == s * size && from + size == (s + 1) * size <= |samples|
      requires before == head + Escape(Concat(Chunks(samples, size, s)))
      requires after == before + Escape(Reverse(samples[from..from + size]))
      ensures after == head + Escape(Concat(Chunks(samples, size, s + 1)))
    {
      var sample := samples[from..from + size];
      ConcatAppend(Chunks(samples, size, s), sample);
      EscapeConcat(Concat(Chunks(samples, size, s)), Reverse(sample));
      JoinsLater(head, Escape(Concat(Chunks(samples, size, s))), Escape(Reverse(sample)));
    }

    static lemma RoomForSample(s: nat, count: nat, size: nat)
      requires s < count
      ensures s * size + size == (s + 1) * size <= count * size
    {
      assert count * size == (s + 1) * size + (count - s - 1) * size;
    }
 
    // What the host library refuses.
    predicate Refuses(count: nat) {
      count == 0 || count > MaxSamples() || (dataWidthBytes > 0 && count > Room() / dataWidthBytes)
    }

    // An upload is accepted exactly if it has samples, they fit into the memory of the core and
    // into size_t, and the buffer for the case that every byte is escaped has a size.
    lemma AcceptsWhatFits(count: nat)
      requires 32 <= sizeBits && Room() >= 0 && dataWidthBytes > 0
      ensures !Refuses(count) <==>
                && 0 < count <= Pow2(addressWidth) && count <= Pow2(sizeBits) - 1
                && 2 * (2 + addressWidthBytes + count * dataWidthBytes) <= Pow2(sizeBits) - 1
    {
      var fits := count <= Room() / dataWidthBytes;
      if fits {
        ProductFits(count, dataWidthBytes, Room());
      } else {
        QuotientFits(count, dataWidthBytes, Room());
      }
      assert fits <==> 2 * (2 + addressWidthBytes + count * dataWidthBytes) <= SizeMax();
      if addressWidth >= sizeBits {
        Pow2Grows(sizeBits, addressWidth);
      } else {
        Pow2Grows(addressWidth + 1, sizeBits);
        assert Pow2(addressWidth + 1) == 2 * Pow2(addressWidth);
      }
    }

    // The buffer of an upload that is not refused has a size that size_t can hold.
    lemma BufferHasASize(count: nat)
      requires !Refuses(count) && dataWidthBytes > 0 && Room() >= 0
      ensures 2 + 2 * (addressWidthBytes + count * dataWidthBytes) <= SizeMax()
    {
      ProductFits(count, dataWidthBytes, Room());
    }

    lemma SizesOfSizeT()
      requires 32 <= sizeBits <= 64 && addressWidthBytes < 0x2000_0000
      ensures Room() >= 0 && MaxSamples() < 0x1_0000_0000_0000_0000 + 1
      ensures MaxSamples() <= Pow2(addressWidth)
    {
      Pow2Grows(32, sizeBits);
      Pow2Grows(sizeBits, 64);
      Pow64();
      Pow32();
      if addressWidth >= sizeBits {
        Pow2Grows(sizeBits, addressWidth);
      } else {
        Pow2Grows(addressWidth, sizeBits);
      }
    }

    // Returns RetOk when the core has got the last sample: it has consumed exactly the alive
    // messages and the final answer. A core that cannot count the bytes of its address never
    // answers, and the call ends with the timeout.
    method Write(samples: seq<Byte>, count: nat) returns (ret: Ret)
      requires Open() && (!Refuses(count) ==> count * dataWidthBytes <= |samples|)
      modifies link
      ensures ret == RetOk <==> !Refuses(count) && Fits(link.cfg)
      ensures Refuses(count) ==> unchanged(link)
      ensures !Refuses(count) ==> link.sent == old(link.sent) + UploadEscaped(link.cfg, Chunks(samples, dataWidthBytes, count))
      ensures ret == RetOk ==>
                var ds := Chunks(samples, dataWidthBytes, count);
                Open() && link.u.samples == Fields(link.cfg.data, ds) && link.u.last == count - 1
    {
      SizesOfSizeT();
      if count == 0 || count > MaxSamples() {
        return RetError;
      }
      if count > Room() / dataWidthBytes {
        return RetError;
      }
      BufferHasASize(count);
      var payloadBytes := addressWidthBytes + count * dataWidthBytes;
      var buffer := new Byte[2 + 2 * payloadBytes];
      var n := Fill(samples, count, buffer);
      ghost var ds := Chunks(samples, dataWidthBytes, count);
      UploadDecodes(link.cfg, ds);
      FeedUpload(link.cfg, link.u, ds);
      link.Send(buffer[..n]);
      ret := ReceiveDone();
    }

    method ReceiveDone() returns (ret: Ret)
      requires link.unread != [] ==> link.unread[|link.unread| - 1] == DONE
      requires forall i :: 0 <= i < |link.unread| - 1 ==> link.unread[i] == ALIVE
      modifies link`unread
      ensures link.unread == [] && ret == if old(link.unread) == [] then RetError else RetOk
    {
      while true
        invariant link.unread != [] ==> link.unread[|link.unread| - 1] == DONE
        invariant forall i :: 0 <= i < |link.unread| - 1 ==> link.unread[i] == ALIVE
        invariant link.unread == [] ==> old(link.unread) == []
        decreases |link.unread|
      {
        ghost var before := link.unread;
        var ok, resp := link.Receive();
        if !ok {
          return RetError;
        }
        assert before[1..] == link.unread && resp == before[0];
        if resp == DONE {
          return RetOk;
        }
        if resp != ALIVE {
          return RetError;
        }
      }
    }
  }

  // ---- C++: signed samples ----

  predicate Int64(v: int) { -0x8000_0000_0000_0000 <= v < 0x8000_0000_0000_0000 }

  // From -2**(bits - 1) to 2**bits - 1, as far as an int64_t goes.
  predicate InRange(bits: nat, v: int)
    requires bits > 0
  {
    (bits < 64 ==> 0 <= v + Pow2(bits - 1)) && (bits < 63 ==> v <= Pow2(bits) - 1)
  }

  // Every value that the bits can stand for, signed or not, and no other.
  lemma InRangeMeans(bits: nat, v: int)
    requires 0 < bits <= 64 && Int64(v)
    ensures InRange(bits, v) <==> 0 <= v + Pow2(bits - 1) && v < Pow2(bits)
  {
    Pow64();
    assert Pow2(64) == 2 * Pow2(63);
    assert Pow2(bits) == 2 * Pow2(bits - 1);
    if bits == 63 {
      assert Pow2(63) == 0x8000_0000_0000_0000;
    }
  }

  // The bytes of a sample: two's complement of 64 bit, as many bytes as the data width needs.
  function SampleBytes(bits: nat, v: int): seq<Byte> { ToBytes(RoundUp(bits), v % 0x1_0000_0000_0000_0000) }

  // They stand for the sample modulo 2**bits.
  lemma SampleField(bits: nat, v: int)
    requires 0 < bits <= 64
    ensures Field(bits, SampleBytes(bits, v)) == v % Pow2(bits)
  {
    var raw := v % 0x1_0000_0000_0000_0000;
    ToBytesMod(RoundUp(bits), raw);
    ModWiden(raw, bits, 8 * RoundUp(bits));
    Pow64();
    ModWiden(v, bits, 64);
  }

  function AllSampleBytes(bits: nat, vs: seq<int>): (ds: seq<seq<Byte>>)
    ensures |ds| == |vs| && Sizes(RoundUp(bits), ds) && forall i :: 0 <= i < |vs| ==> ds[i] == SampleBytes(bits, vs[i])
  {
    seq(|vs|, i requires 0 <= i < |vs| => SampleBytes(bits, vs[i]))
  }

  // Buffers whose prefix holds the samples so far.
  lemma ChunksGrow(buffer: seq<Byte>, size: nat, count: nat, d: seq<Byte>)
    requires (count + 1) * size <= |buffer| && count * size + size == (count + 1) * size
    requires buffer[count * size..(count + 1) * size] == d
    ensures count * size <= |buffer| && Chunks(buffer, size, count + 1) == Chunks(buffer, size, count) + [d]
  {
  }

  lemma {:induction false} ChunksOfPrefix(a: seq<Byte>, b: seq<Byte>, size: nat, count: nat)
    requires count * size <= |a| && count * size <= |b| && a[..count * size] == b[..count * size]
    ensures Chunks(a, size, count) == Chunks(b, size, count)
  {
    if count == 0 {
    } else {
      var k := (count - 1) * size;
      assert count * size == k + size;
      assert a[..k] == a[..count * size][..k] && b[..k] == b[..count * size][..k];
      assert a[k..count * size] == a[..count * size][k..] && b[k..count * size] == b[..count * size][k..];
      ChunksOfPrefix(a, b, size, count - 1);
    }
  }

  // One sample into its place in the buffer.
  method PutSample(bits: nat, v: int, buffer: array<Byte>, at: nat)
    requires Int64(v) && 0 < bits <= 64 && at + RoundUp(bits) <= buffer.Length
    modifies buffer
    ensures buffer[..at] == old(buffer[..at]) && buffer[at..at + RoundUp(bits)] == SampleBytes(bits, v)
  {
    var raw := v % 0x1_0000_0000_0000_0000;
    ghost var d := SampleBytes(bits, v);
    for i := 0 to RoundUp(bits)
      invariant buffer[..at] == old(buffer[..at]) && buffer[at..at + i] == d[..i]
    {
      ToBytesAt(RoundUp(bits), raw, i);
      buffer[at + i] := (raw / Pow2(i * 8)) % 256;
    }
    assert d[..RoundUp(bits)] == d;
  }

  class WaveformGeneratorCxx {
    const handle: WaveformGenerator

    constructor (handle: WaveformGenerator)
      ensures this.handle == handle
    {
      this.handle := handle;
    }

    // ok is false where the library throws.
    predicate Accepts(samples: seq<int>) {
      var bits := handle.link.cfg.data;
      && 0 < bits <= 64 && !handle.Refuses(|samples|) && forall i :: 0 <= i < |samples| ==> InRange(bits, samples[i])
    }

    method FillBuffer(bits: nat, samples: seq<int>, buffer: array<Byte>) returns (ok: bool)
      requires 0 < bits <= 64 && buffer.Length == |samples| * RoundUp(bits)
      requires forall i :: 0 <= i < |samples| ==> Int64(samples[i])
      modifies buffer
      ensures ok == forall i :: 0 <= i < |samples| ==> InRange(bits, samples[i])
      ensures ok ==> Chunks(buffer[..], RoundUp(bits), |samples|) == AllSampleBytes(bits, samples)
    {
      var size, s := RoundUp(bits), 0;
      while s < |samples|
        invariant 0 <= s <= |samples| && s * size <= |samples| * size
        invariant forall i :: 0 <= i < s ==> InRange(bits, samples[i])
        invariant Chunks(buffer[..], size, s) == AllSampleBytes(bits, samples[..s])
      {
        if !InRange(bits, samples[s]) {
          return false;
        }
        WaveformGenerator.RoomForSample(s, |samples|, size);
        ghost var before := buffer[..];
        PutSample(bits, samples[s], buffer, s * size);
        ChunksOfPrefix(before, buffer[..], size, s);
        ChunksGrow(buffer[..], size, s, SampleBytes(bits, samples[s]));
        assert AllSampleBytes(bits, samples[..s + 1]) == AllSampleBytes(bits, samples[..s]) + [SampleBytes(bits, samples[s])];
        s := s + 1;
      }
      assert samples[..s] == samples;
      return true;
    }

    // What reaches the core are the bytes of an upload of the samples, in two's complement, and
    // the core has them modulo 2**bits.
    method WriteSamples(samples: seq<int>) returns (ok: bool)
      requires handle.Open() && forall i :: 0 <= i < |samples| ==> Int64(samples[i])
      modifies handle.link
      ensures ok == (Accepts(samples) && Fits(handle.link.cfg))
      ensures !Accepts(samples) ==> unchanged(handle.link)
      ensures Accepts(samples) ==>
                && |samples| > 0
                && handle.link.sent == old(handle.link.sent) + UploadEscaped(handle.link.cfg, AllSampleBytes(handle.link.cfg.data, samples))
      ensures ok ==>
                var u := handle.link.u;
                && handle.Open() && |u.samples| == |samples| == u.last + 1
                && forall i :: 0 <= i < |samples| ==> u.samples[i] == samples[i] % Pow2(handle.link.cfg.data)
    {
      var bits := handle.link.cfg.data;
      if bits > 64 || |samples| == 0 || |samples| > handle.MaxSamples() {
        return false;
      }
      var buffer := new Byte[|samples| * RoundUp(bits)];
      ok := FillBuffer(bits, samples, buffer);
      if !ok {
        return;
      }
      var ret := handle.Write(buffer[..], |samples|);
      ok := ret == RetOk;
      if ok {
        forall i | 0 <= i < |samples| ensures handle.link.u.samples[i] == samples[i] % Pow2(bits) {
          SampleField(bits, samples[i]);
        }
      }
    }
  }
}
