// Numbers, their bytes, and registers of some width.
module Numbers {
  import opened Bytes

  function RoundUp(width: nat): nat { (width + 7) / 8 }

  // ---- Numbers and bytes, least significant byte first ----

  function Pow2(n: nat): (p: nat)
    ensures p >= 1
  {
    if n == 0 then 1 else 2 * Pow2(n - 1)
  }

  function Value(s: seq<Byte>): nat {
    if |s| == 0 then 0 else s[0] + 256 * Value(s[1..])
  }

  function ToBytes(n: nat, v: nat): (s: seq<Byte>)
    ensures |s| == n
  {
    if n == 0 then [] else [v % 256] + ToBytes(n - 1, v / 256)
  }

  // A register of some width keeps the low bits.
  function Field(width: nat, s: seq<Byte>): nat { Value(s) % Pow2(width) }

  lemma {:induction false} ToBytesValue(n: nat, v: nat)
    requires v < Pow2(8 * n)
    ensures Value(ToBytes(n, v)) == v
  {
    if n == 0 {
    } else {
      Pow2Byte(n - 1);
      ToBytesValue(n - 1, v / 256);
      assert ToBytes(n, v)[1..] == ToBytes(n - 1, v / 256);
    }
  }

  lemma Pow2Byte(n: nat)
    ensures Pow2(8 * (n + 1)) == 256 * Pow2(8 * n)
  {
    var k := 8 * n;
    assert Pow2(k + 1) == 2 * Pow2(k) && Pow2(k + 2) == 2 * Pow2(k + 1) && Pow2(k + 3) == 2 * Pow2(k + 2);
    assert Pow2(k + 4) == 2 * Pow2(k + 3) && Pow2(k + 5) == 2 * Pow2(k + 4) && Pow2(k + 6) == 2 * Pow2(k + 5);
    assert Pow2(k + 7) == 2 * Pow2(k + 6) && Pow2(k + 8) == 2 * Pow2(k + 7);
  }

  lemma {:induction false} Pow2Grows(a: nat, b: nat)
    requires a <= b
    ensures Pow2(a) <= Pow2(b)
    decreases b - a
  {
    if a == b {
    } else {
      Pow2Grows(a, b - 1);
    }
  }

  // 2**ceil(log2(n)), the range of a counter that has to hold n values, from p on.
  function PowerAtLeast(n: nat, p: nat): (r: nat)
    requires p > 0
    ensures r >= n
    decreases n - p
  {
    if p >= n then p else PowerAtLeast(n, 2 * p)
  }

  lemma FourBytes(v: nat)
    requires v < 0x1_0000_0000
    ensures Value(ToBytes(4, v)) == v
  {
    Pow2Byte(0);
    Pow2Byte(1);
    Pow2Byte(2);
    Pow2Byte(3);
    ToBytesValue(4, v);
  }

  function LittleEndian(a: int, b: int, c: int, d: int): int { a + 0x100 * b + 0x1_0000 * c + 0x100_0000 * d }

  lemma LowByte(a: Byte, b: Byte, c: Byte, d: Byte)
    ensures LittleEndian(a, b, c, d) % 256 == a
  {
    assert LittleEndian(a, b, c, d) == a + 256 * LittleEndian(b, c, d, 0);
  }

  lemma ValueOfFour(s: seq<Byte>)
    requires |s| == 4
    ensures Value(s) == LittleEndian(s[0], s[1], s[2], s[3])
  {
    assert s[1..][1..] == s[2..] && s[2..][1..] == s[3..] && s[3..][1..] == [];
    assert Value(s[3..]) == s[3];
    assert Value(s[2..]) == s[2] + 256 * Value(s[3..]);
    assert Value(s[1..]) == s[1] + 256 * Value(s[2..]);
  }

  // ---- Remainders ----

  lemma MulAtLeast(d: int, m: int)
    requires m > 0
    ensures d >= 1 ==> d * m >= m
    ensures d <= -1 ==> d * m <= -m
  {
    if d >= 1 {
      assert d * m == (d - 1) * m + m;
    } else if d <= -1 {
      assert d * m == (d + 1) * m - m;
    }
  }

  lemma QuotientFits(count: nat, size: nat, room: nat)
    requires size > 0 && count > room / size
    ensures count * size > room
  {
    var more := count - room / size - 1;
    assert room == (room / size) * size + room % size && room % size < size;
    assert count * size == (room / size) * size + size + more * size;
    if more > 0 {
      MulAtLeast(more, size);
    }
  }

  lemma ProductFits(count: nat, size: nat, room: nat)
    requires size > 0 && count <= room / size
    ensures count * size <= room
  {
    var spare := room / size - count;
    assert room == (room / size) * size + room % size;
    assert (room / size) * size == count * size + spare * size;
    MulAtLeast(spare, size);
  }

  lemma ModIs(x: int, m: int, q: int, r: int)
    requires 0 <= r < m && x == q * m + r
    ensures x % m == r && x / m == q
  {
    var d := x / m - q;
    assert d * m == r - x % m by {
      assert x == (x / m) * m + x % m;
      assert d * m == (x / m) * m - q * m;
    }
    MulAtLeast(d, m);
  }

  lemma ModAddMultiple(x: int, k: int, m: int)
    requires m > 0
    ensures (x + k * m) % m == x % m
  {
    assert x == (x / m) * m + x % m;
    assert x + k * m == (x / m + k) * m + x % m by {
      assert (x / m + k) * m == (x / m) * m + k * m;
    }
    ModIs(x + k * m, m, x / m + k, x % m);
  }

  // A wider register keeps what a narrower one keeps.
  lemma ModTwice(x: int, k: int, m: int)
    requires m > 0 && k > 0 && k * m > 0
    ensures (x % (k * m)) % m == x % m
  {
    var d := x / (k * m);
    assert x == d * (k * m) + x % (k * m);
    assert d * (k * m) == (d * k) * m;
    ModAddMultiple(x % (k * m), d * k, m);
  }

  lemma {:induction false} Pow2Add(a: nat, b: nat)
    ensures Pow2(a + b) == Pow2(a) * Pow2(b)
  {
    if a == 0 {
    } else {
      Pow2Add(a - 1, b);
      assert Pow2(a + b) == 2 * Pow2(a - 1 + b);
      assert 2 * (Pow2(a - 1) * Pow2(b)) == (2 * Pow2(a - 1)) * Pow2(b);
    }
  }

  lemma ModWiden(x: int, narrow: nat, wide: nat)
    requires narrow <= wide
    ensures (x % Pow2(wide)) % Pow2(narrow) == x % Pow2(narrow)
  {
    Pow2Add(wide - narrow, narrow);
    ModTwice(x, Pow2(wide - narrow), Pow2(narrow));
  }

  lemma ModByte(v: nat, m: nat)
    requires m > 0
    ensures v % (256 * m) == v % 256 + 256 * ((v / 256) % m)
  {
    var q, r := (v / 256) / m, (v / 256) % m;
    assert v / 256 == q * m + r;
    assert v == 256 * (v / 256) + v % 256;
    assert 256 * (q * m + r) == q * (256 * m) + 256 * r;
    ModIs(v, 256 * m, q, 256 * r + v % 256);
  }

  // The low bytes of a number.
  lemma {:induction false} ToBytesMod(n: nat, v: nat)
    ensures Value(ToBytes(n, v)) == v % Pow2(8 * n)
  {
    if n == 0 {
      assert Pow2(0) == 1;
    } else {
      ToBytesMod(n - 1, v / 256);
      Pow2Byte(n - 1);
      assert ToBytes(n, v)[1..] == ToBytes(n - 1, v / 256);
      ModByte(v, Pow2(8 * (n - 1)));
    }
  }

  lemma {:induction false} ToBytesAt(n: nat, v: nat, i: nat)
    requires i < n
    ensures ToBytes(n, v)[i] == (v / Pow2(8 * i)) % 256
    decreases i
  {
    if i == 0 {
      assert Pow2(0) == 1;
    } else {
      ToBytesAt(n - 1, v / 256, i - 1);
      Pow2Byte(i - 1);
      DivTwice(v, 256, Pow2(8 * (i - 1)));
    }
  }

  lemma Distributes(a: int, q: int, b: int, r: int)
    ensures a * (q * b + r) == q * (a * b) + a * r
  {
    assert a * (q * b) == (a * q) * b == q * (a * b);
  }

  lemma BelowProduct(a: nat, b: nat, r: nat, s: nat)
    requires r < b && s < a
    ensures a * r + s < a * b
  {
    assert a * r <= a * (b - 1);
    assert a * (b - 1) == a * b - a;
  }

  lemma DivTwice(v: nat, a: nat, b: nat)
    requires a > 0 && b > 0
    ensures a * b > 0 && (v / a) / b == v / (a * b)
  {
    var q, r, s := (v / a) / b, (v / a) % b, v % a;
    assert v / a == q * b + r;
    Distributes(a, q, b, r);
    BelowProduct(a, b, r, s);
    assert v == q * (a * b) + (a * r + s);
    assert a * r >= 0;
    ModIs(v, a * b, q, a * r + s);
  }

  lemma Pow32()
    ensures Pow2(32) == 0x1_0000_0000
  {
    Pow2Byte(0);
    Pow2Byte(1);
    Pow2Byte(2);
    Pow2Byte(3);
  }

  lemma Pow64()
    ensures Pow2(64) == 0x1_0000_0000_0000_0000
  {
    Pow32();
    Pow2Add(32, 32);
  }
}
