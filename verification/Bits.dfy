/**
  Powers of two, the bitwise AND of two naturals, and big-endian byte strings read as numbers:
  what the byte-level mask test of the route table has to be related to.
 */
module Bits {

  type Byte = x: int | 0 <= x < 256

  function Pow2(n: nat): (p: nat)
    ensures p >= 1
  {
    if n == 0 then 1 else 2 * Pow2(n - 1)
  }

  lemma {:induction false} Pow2Adds(a: nat, b: nat)
    ensures Pow2(a + b) == Pow2(a) * Pow2(b)
  {
    if a == 0 {
    } else {
      Pow2Adds(a - 1, b);
      assert Pow2(a + b) == 2 * Pow2(a - 1 + b);
    }
  }

  lemma Pow2Of8()
    ensures Pow2(8) == 256
  {
    assert Pow2(4) == 16;
    Pow2Adds(4, 4);
  }

  /** Bitwise AND, bit by bit from the low end. */
  function BitAnd(a: nat, b: nat): nat
    decreases a
  {
    if a == 0 || b == 0 then 0 else (a % 2) * (b % 2) + 2 * BitAnd(a / 2, b / 2)
  }

  /** ANDing with the mask of the k low bits is the remainder modulo 2^k. */
  lemma {:induction false} LowMaskIsRemainder(a: nat, k: nat)
    ensures BitAnd(a, Pow2(k) - 1) == a % Pow2(k)
    decreases k
  {
    if a == 0 {
      RemainderIs(0, Pow2(k), 0, 0);
    } else if k > 0 {
      LowMaskIsRemainder(a / 2, k - 1);
      RemainderByHalves(a, Pow2(k - 1));
      MaskInHalves(a, Pow2(k - 1));
    }
  }

  lemma MaskInHalves(a: nat, m: nat)
    requires a > 0 && m > 0
    ensures BitAnd(a, 2 * m - 1) == a % 2 + 2 * BitAnd(a / 2, m - 1)
  {
    var mask := 2 * m - 1;
    assert mask == 2 * (m - 1) + 1;
    assert mask % 2 == 1 && mask / 2 == m - 1;
  }

  lemma RemainderByHalves(a: nat, m: nat)
    requires m > 0
    ensures a % (2 * m) == a % 2 + 2 * ((a / 2) % m)
  {
    var h := a / 2;
    var q := h / m;
    assert a == q * (2 * m) + (a % 2 + 2 * (h % m)) by {
      assert h == q * m + h % m;
    }
    RemainderIs(a, 2 * m, q, a % 2 + 2 * (h % m));
  }

  /** The remainder is the only r in range that leaves a multiple. */
  lemma RemainderIs(a: int, m: int, q: int, r: int)
    requires 0 <= r < m && a == q * m + r
    ensures a % m == r
  {
    var d, e := q - a / m, a % m - r;
    assert d * m == e by {
      assert a == (a / m) * m + a % m;
      assert d * m == q * m - (a / m) * m;
    }
    MultipleIsLarge(d, m);
  }

  lemma MultiplesKeepOrder(a: int, b: int, m: int)
    requires m > 0
    ensures a <= b ==> a * m <= b * m
  {
    if a <= b {
      assert b * m == a * m + (b - a) * m;
      assert (b - a) * m >= 0;
    }
  }

  lemma MultipleIsLarge(d: int, m: int)
    requires m > 0
    ensures d == 0 || d * m >= m || d * m <= -m
  {
    if d >= 1 {
      assert d * m == m + (d - 1) * m;
      assert (d - 1) * m >= 0;
    } else if d <= -1 {
      assert d * m == -m + (d + 1) * m;
      assert (d + 1) * m <= 0;
    }
  }

  /** Bitwise exclusive or, bit by bit from the low end. */
  function BitXor(a: nat, b: nat): nat
    decreases a + b
  {
    if a == 0 && b == 0 then 0 else (a % 2 + b % 2) % 2 + 2 * BitXor(a / 2, b / 2)
  }

  lemma XorByHalves(a: nat, b: nat)
    ensures BitXor(a, b) % 2 == (a % 2 + b % 2) % 2
    ensures BitXor(a, b) / 2 == BitXor(a / 2, b / 2)
  {
  }

  lemma ParityTwice(a: nat, b: nat, x: nat, y: nat)
    requires x % 2 == (a % 2 + b % 2) % 2 && y % 2 == (x % 2 + b % 2) % 2
    requires y / 2 == a / 2
    ensures y == a
  {
  }

  lemma {:induction false} XorTwiceIsBack(a: nat, b: nat)
    ensures BitXor(BitXor(a, b), b) == a
    decreases a + b
  {
    if a == 0 && b == 0 {
    } else {
      XorTwiceIsBack(a / 2, b / 2);
      var x := BitXor(a, b);
      XorByHalves(a, b);
      XorByHalves(x, b);
      ParityTwice(a, b, x, BitXor(x, b));
    }
  }

  lemma {:induction false} XorStaysBelow(a: nat, b: nat, k: nat)
    requires a < Pow2(k) && b < Pow2(k)
    ensures BitXor(a, b) < Pow2(k)
    decreases k
  {
    if k == 0 {
    } else {
      XorStaysBelow(a / 2, b / 2, k - 1);
    }
  }

  /** A byte string read as one number, most significant byte first. */
  function BigEndian(s: seq<Byte>): (v: nat)
  {
    if s == [] then 0 else BigEndian(s[..|s| - 1]) * 256 + s[|s| - 1]
  }

  lemma {:induction false} BigEndianBound(s: seq<Byte>)
    ensures BigEndian(s) < Pow2(8 * |s|)
  {
    if s == [] {
    } else {
      BigEndianBound(s[..|s| - 1]);
      Pow2Of8();
      Pow2Adds(8 * (|s| - 1), 8);
      assert 8 * (|s| - 1) + 8 == 8 * |s|;
    }
  }

  /** Byte i of a string is that byte of the number it reads as, counted from the most significant. */
  lemma {:induction false} BytesOfTheNumber(s: seq<Byte>, i: nat)
    requires i < |s|
    ensures (BigEndian(s) / Pow2(8 * (|s| - 1 - i))) % 256 == s[i]
  {
    var v, front := BigEndian(s), s[..|s| - 1];
    if i == |s| - 1 {
    } else {
      var k := 8 * (|front| - 1 - i);
      BytesOfTheNumber(front, i);
      Pow2Of8();
      Pow2Adds(8, k);
      assert 8 * (|s| - 1 - i) == 8 + k;
      assert v / 256 == BigEndian(front);
      QuotientInSteps(v, Pow2(k));
    }
  }

  lemma QuotientInSteps(v: nat, m: int)
    requires m > 0
    ensures v / (256 * m) == (v / 256) / m
  {
    var q, r := v / 256, v % 256;
    var p, rest := (q / m) * m, q % m;
    assert q == p + rest;
    assert v == 256 * p + (256 * rest + r);
    assert (q / m) * (256 * m) == 256 * p;
    QuotientIs(v, 256 * m, q / m, 256 * rest + r);
  }

  lemma QuotientIs(a: int, m: int, q: int, r: int)
    requires 0 <= r < m && a == q * m + r
    ensures a / m == q
  {
    RemainderIs(a, m, q, r);
    assert (a / m - q) * m == 0;
    MultipleIsLarge(a / m - q, m);
  }

  /** The width-byte string that reads as v. */
  function ToBigEndian(v: nat, width: nat): (s: seq<Byte>)
    ensures |s| == width
  {
    if width == 0 then [] else ToBigEndian(v / 256, width - 1) + [v % 256]
  }

  lemma {:induction false} ToBigEndianReadsBack(v: nat, width: nat)
    requires v < Pow2(8 * width)
    ensures BigEndian(ToBigEndian(v, width)) == v
  {
    if width == 0 {
    } else {
      Pow2Of8();
      Pow2Adds(8 * (width - 1), 8);
      assert 8 * (width - 1) + 8 == 8 * width;
      assert v / 256 < Pow2(8 * (width - 1));
      ToBigEndianReadsBack(v / 256, width - 1);
      var s := ToBigEndian(v, width);
      assert s[..|s| - 1] == ToBigEndian(v / 256, width - 1);
    }
  }
}
