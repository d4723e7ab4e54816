/**
  The STUN answer byte by byte, as sections 6, 15, 15.1 and 15.2 of RFC 5389 lay it out: the mask of a
  XOR-MAPPED-ADDRESS, the padding and the header, in plain arithmetic, and the sample of RFC 5769.
 */
module StunBytes {
  import opened Bits
  import opened Stun
  import opened Wrappers

  // ----- Exclusive or, bit by bit -----

  function Bit(a: nat, k: nat): nat {
    (a / Pow2(k)) % 2
  }

  lemma BitOfHalf(a: nat, k: nat)
    ensures Bit(a, k + 1) == Bit(a / 2, k)
  {
    var m, q := Pow2(k), a / 2;
    var p := q / m;
    assert q == p * m + q % m;
    assert p * (2 * m) == 2 * (p * m);
    QuotientIs(a, 2 * m, p, 2 * (q % m) + a % 2);
  }

  lemma LowBit(a: nat)
    ensures Bit(a, 0) == a % 2
  {
    assert Pow2(0) == 1;
  }

  /** Bit k of an exclusive or is set exactly if bit k of one operand is, and that of the other is not. */
  lemma {:induction false} XorIsBitwise(a: nat, b: nat, k: nat)
    ensures Bit(BitXor(a, b), k) == 1 <==> Bit(a, k) != Bit(b, k)
    decreases k
  {
    XorByHalves(a, b);
    var x := BitXor(a, b);
    if k == 0 {
      LowBit(a);
      LowBit(b);
      LowBit(x);
    } else {
      BitOfHalf(a, k - 1);
      BitOfHalf(b, k - 1);
      BitOfHalf(x, k - 1);
      XorIsBitwise(a / 2, b / 2, k - 1);
    }
  }

  lemma HalfAndBit(a: nat, a': nat, p: nat)
    requires a == 2 * a' + p && p < 2
    ensures a / 2 == a' && a % 2 == p
  {
  }

  /** An exclusive or is the lowest bit's, and that of the halves. */
  lemma XorFromHalves(a: nat, b: nat, a': nat, b': nat, p: nat, q: nat, x: nat)
    requires a == 2 * a' + p && b == 2 * b' + q && p < 2 && q < 2 && x == BitXor(a', b')
    ensures BitXor(a, b) == 2 * x + (p + q) % 2
  {
    HalfAndBit(a, a', p);
    HalfAndBit(b, b', q);
    XorByHalves(a, b);
  }

  /** n bits further up. */
  function ShiftedUp(h: nat, n: nat): nat {
    if n == 0 then h else 2 * ShiftedUp(h, n - 1)
  }

  lemma Halved(l: nat, n: nat) returns (half: nat, p: nat)
    requires n > 0 && l < Pow2(n)
    ensures half < Pow2(n - 1) && l == 2 * half + p && p < 2
  {
    half, p := l / 2, l % 2;
  }

  lemma ShiftedOnce(h: nat, n: nat)
    requires n > 0
    ensures ShiftedUp(h, n) == 2 * ShiftedUp(h, n - 1)
  {
  }

  /** An exclusive or is taken part by part. */
  lemma {:induction false} XorSplits(h: nat, l: nat, g: nat, m: nat, n: nat, high: nat, low: nat)
    requires l < Pow2(n) && m < Pow2(n) && high == BitXor(h, g) && low == BitXor(l, m)
    ensures BitXor(ShiftedUp(h, n) + l, ShiftedUp(g, n) + m) == ShiftedUp(high, n) + low
    decreases n, 1
  {
    if n == 0 {
      assert l == 0 && m == 0 && BitXor(0, 0) == 0;
    } else {
      ShiftedOnce(h, n);
      ShiftedOnce(g, n);
      ShiftedOnce(high, n);
      SplitsFurther(h, l, g, m, n, high, low);
    }
  }

  lemma {:induction false} SplitsFurther(h: nat, l: nat, g: nat, m: nat, n: nat, high: nat, low: nat)
    requires n > 0 && l < Pow2(n) && m < Pow2(n) && high == BitXor(h, g) && low == BitXor(l, m)
    ensures BitXor(2 * ShiftedUp(h, n - 1) + l, 2 * ShiftedUp(g, n - 1) + m) == 2 * ShiftedUp(high, n - 1) + low
    decreases n, 0
  {
    var l', p := Halved(l, n);
    var m', q := Halved(m, n);
    var rest := BitXor(l', m');
    XorSplits(h, l', g, m', n - 1, high, rest);
    OneBitBelow(ShiftedUp(h, n - 1), l, l', ShiftedUp(g, n - 1), m, m', ShiftedUp(high, n - 1), rest, p, q);
  }

  lemma ShiftedUpBy4(h: nat)
    ensures ShiftedUp(h, 4) == 16 * h && Pow2(4) == 16
  {
    assert ShiftedUp(h, 1) == 2 * h && ShiftedUp(h, 2) == 4 * h && ShiftedUp(h, 3) == 8 * h;
  }

  lemma ShiftedUpBy8(h: nat)
    ensures ShiftedUp(h, 8) == 256 * h && Pow2(8) == 256
  {
    Pow2Of8();
    ShiftedUpBy4(h);
    assert ShiftedUp(h, 5) == 32 * h && ShiftedUp(h, 6) == 64 * h && ShiftedUp(h, 7) == 128 * h;
  }

  lemma OneBitBelow(h: nat, l: nat, l': nat, g: nat, m: nat, m': nat, high: nat, rest: nat, p: nat, q: nat)
    requires p < 2 && q < 2 && l == 2 * l' + p && m == 2 * m' + q
    requires rest == BitXor(l', m') && BitXor(h + l', g + m') == high + rest
    ensures BitXor(2 * h + l, 2 * g + m) == 2 * high + BitXor(l, m)
  {
    XorFromHalves(l, m, l', m', p, q, rest);
    XorFromHalves(2 * h + l, 2 * g + m, h + l', g + m', p, q, high + rest);
  }

  // ----- The mask -----

  /** The mask of section 15.2: the magic cookie, and after it the transaction id. */
  function MaskByte(txId: TxId, i: nat): Byte
    requires i < 16
  {
    if i == 0 then 0x21 else if i == 1 then 0x12 else if i == 2 then 0xA4 else if i == 3 then 0x42 else txId[i - 4]
  }

  /** A port is masked by the first two bytes of the same mask. */
  lemma PortInBytes(port: UInt16)
    ensures XorPort(port) / 256 == BitXor(port / 256, 0x21)
    ensures XorPort(port) % 256 == BitXor(port % 256, 0x12)
  {
    var h, l := port / 256, port % 256;
    var high, low := BitXor(h, 0x21), BitXor(l, 0x12);
    ShiftedUpBy8(h);
    ShiftedUpBy8(0x21);
    ShiftedUpBy8(high);
    XorSplits(h, l, 0x21, 0x12, 8, high, low);
    XorStaysBelow(l, 0x12, 8);
  }

  lemma MaskInBytes(txId: TxId, i: nat)
    requires i < 16
    ensures (MAGIC_COOKIE + txId)[i] == MaskByte(txId, i)
  {
  }

  /**
    An encoded address, byte by byte: a zero, the family (1 for four bytes of address, 2 for sixteen), the port most
    significant byte first and the address, each but the first two masked if it is a XOR-MAPPED-ADDRESS.
   */
  lemma AddressInBytes(m: Mapping, txId: TxId, xor: bool)
    requires IsAddress(m)
    ensures var val := EncodeAddress(m, txId, xor);
            && |val| == 4 + |m.ip| && val[0] == 0 && val[1] == (if |m.ip| == 4 then 1 else 2)
            && val[2] == (if xor then BitXor(m.port / 256, 0x21) else m.port / 256)
            && val[3] == (if xor then BitXor(m.port % 256, 0x12) else m.port % 256)
            && forall i :: 0 <= i < |m.ip| ==>
                 val[4 + i] == if xor then BitXor(m.ip[i], MaskByte(txId, i)) else m.ip[i]
  {
    PortInBytes(m.port);
    forall i | 0 <= i < |m.ip|
      ensures (MAGIC_COOKIE + txId)[i] == MaskByte(txId, i)
    {
      MaskInBytes(txId, i);
    }
  }

  /** What is decoded from the value of an address attribute, byte by byte. */
  lemma DecodedInBytes(val: Bytes, txId: TxId, xor: bool)
    ensures MappedAddress(val, txId, xor).Ok? <==>
            (|val| >= 8 && val[1] == 1) || (|val| >= 20 && val[1] == 2)
    ensures MappedAddress(val, txId, xor).Ok? ==>
              var m := MappedAddress(val, txId, xor).value;
              && |m.ip| == (if val[1] == 1 then 4 else 16)
              && m.port / 256 == (if xor then BitXor(val[2], 0x21) else val[2])
              && m.port % 256 == (if xor then BitXor(val[3], 0x12) else val[3])
              && forall i :: 0 <= i < |m.ip| ==>
                   m.ip[i] == if xor then BitXor(val[4 + i], MaskByte(txId, i)) else val[4 + i]
  {
    if |val| >= 4 {
      PortInBytes(Uint16(val[2], val[3]));
      forall i: nat | i < 16
        ensures (MAGIC_COOKIE + txId)[i] == MaskByte(txId, i)
      {
        MaskInBytes(txId, i);
      }
    }
  }

  // ----- Padding and header -----

  /** An attribute is padded to the next multiple of four bytes. */
  lemma PaddedToFour(n: nat)
    ensures PadOf(n) < 4 && (n + PadOf(n)) % 4 == 0
  {
  }

  /** Whatever decodes begins with the twenty bytes of a success response to this transaction. */
  lemma HeaderInBytes(txId: TxId, msg: Bytes)
    requires BindingResponse(txId, msg).Ok?
    ensures |msg| >= 20 && msg[0] == 0x01 && msg[1] == 0x01
    ensures msg[4] == 0x21 && msg[5] == 0x12 && msg[6] == 0xA4 && msg[7] == 0x42
    ensures forall i :: 0 <= i < 12 ==> msg[8 + i] == txId[i]
    ensures 20 + msg[2] * 256 + msg[3] <= |msg|
  {
    assert msg[4..8][0] == msg[4] && msg[4..8][1] == msg[5] && msg[4..8][2] == msg[6] && msg[4..8][3] == msg[7];
    forall i | 0 <= i < 12
      ensures msg[8 + i] == txId[i]
    {
      assert msg[8..20][i] == msg[8 + i];
    }
  }

  // ----- The sample IPv4 response of RFC 5769 (section 2.2) -----

  lemma Nibbles(h: nat, l: nat, g: nat, m: nat)
    requires l < 16 && m < 16
    ensures BitXor(h * 16 + l, g * 16 + m) == BitXor(h, g) * 16 + BitXor(l, m)
  {
    var high := BitXor(h, g);
    ShiftedUpBy4(h);
    ShiftedUpBy4(g);
    ShiftedUpBy4(high);
    XorSplits(h, l, g, m, 4, high, BitXor(l, m));
  }

  lemma SmallXors()
    ensures BitXor(8, 2) == 10 && BitXor(0, 1) == 1 && BitXor(5, 1) == 4 && BitXor(5, 2) == 7
    ensures BitXor(12, 2) == 14 && BitXor(0, 2) == 2 && BitXor(0, 10) == 10 && BitXor(2, 4) == 6
    ensures BitXor(0, 4) == 4 && BitXor(1, 2) == 3
  {
    assert BitXor(0, 1) == 1 && BitXor(1, 0) == 1;
    assert BitXor(0, 2) == 2 && BitXor(2, 0) == 2 && BitXor(1, 2) == 3;
    assert BitXor(4, 1) == 5 && BitXor(2, 1) == 3 && BitXor(0, 5) == 5 && BitXor(1, 0) == 1;
    assert BitXor(6, 1) == 7 && BitXor(2, 4) == 6;
  }

  lemma SampleBytes()
    ensures BitXor(0x80, 0x21) == 0xA1 && BitXor(0x55, 0x12) == 0x47
    ensures BitXor(0xC0, 0x21) == 0xE1 && BitXor(0x00, 0x12) == 0x12
    ensures BitXor(0x02, 0xA4) == 0xA6 && BitXor(0x01, 0x42) == 0x43
  {
    SmallXors();
    Nibbles(8, 0, 2, 1);
    Nibbles(5, 5, 1, 2);
    Nibbles(12, 0, 2, 1);
    Nibbles(0, 0, 1, 2);
    Nibbles(0, 2, 10, 4);
    Nibbles(0, 1, 4, 2);
  }

  const SAMPLE := Mapping([192, 0, 2, 1], 32853)

  lemma SampleByte(i: nat)
    requires i < 4
    ensures var mask := [0x21, 0x12, 0xA4, 0x42];
            BitXor(SAMPLE.ip[i], mask[i]) == [0xE1, 0x12, 0xA6, 0x43][i]
  {
    SampleBytes();
  }

  lemma SamplePort()
    ensures BitXor(SAMPLE.port / 256, 0x21) == 0xA1 && BitXor(SAMPLE.port % 256, 0x12) == 0x47
  {
    SampleBytes();
    assert SAMPLE.port / 256 == 0x80 && SAMPLE.port % 256 == 0x55;
  }

  const SAMPLE_VALUE: Bytes := [0x00, 0x01, 0xA1, 0x47, 0xE1, 0x12, 0xA6, 0x43]

  lemma SampleAddress(txId: TxId, val: Bytes, i: nat)
    requires val == EncodeAddress(SAMPLE, txId, true) && i < 4
    ensures |val| == 8 && val[4 + i] == SAMPLE_VALUE[4 + i]
  {
    AddressInBytes(SAMPLE, txId, true);
    SampleByte(i);
  }

  lemma SampleStart(txId: TxId, val: Bytes)
    requires val == EncodeAddress(SAMPLE, txId, true)
    ensures |val| == 8 && val[0] == 0x00 && val[1] == 0x01 && val[2] == 0xA1 && val[3] == 0x47
  {
    AddressInBytes(SAMPLE, txId, true);
    SamplePort();
  }

  /** 192.0.2.1 and port 32853 travel as a1 47 e1 12 a6 43, under any transaction id. */
  lemma TheSampleResponse(txId: TxId)
    ensures EncodeAddress(SAMPLE, txId, true) == SAMPLE_VALUE
    ensures MappedAddress(SAMPLE_VALUE, txId, true) == Ok(SAMPLE)
  {
    var val := EncodeAddress(SAMPLE, txId, true);
    AddressRoundTrip(SAMPLE, txId, true);
    SampleStart(txId, val);
    SampleAddress(txId, val, 0);
    SampleAddress(txId, val, 1);
    SampleAddress(txId, val, 2);
    SampleAddress(txId, val, 3);
    EqualBytes(val, SAMPLE_VALUE);
  }

  lemma EqualBytes(s: Bytes, t: Bytes)
    requires |s| == 8 == |t| && s[0] == t[0] && s[1] == t[1] && s[2] == t[2] && s[3] == t[3]
    requires s[4] == t[4] && s[5] == t[5] && s[6] == t[6] && s[7] == t[7]
    ensures s == t
  {
  }

  /** A success response with these twelve bytes of attributes. */
  function ResponseOf(txId: TxId, p: Bytes): Bytes {
    [0x01, 0x01, 0x00, 0x0C, 0x21, 0x12, 0xA4, 0x42] + txId + p
  }

  lemma OneAttributeInBytes(txId: TxId, a: Attribute)
    requires |a.value| == 8 && a.padding == []
    ensures WellFormed(a) && |EncodeAll([] + [a] + [])| == 12
    ensures EncodeResponse(txId, EncodeAll([] + [a] + []), [])
            == ResponseOf(txId, [a.atype.0, a.atype.1, 0x00, 0x08] + a.value)
  {
    var attrs := [] + [a] + [];
    assert attrs == [a] && [a][1..] == [];
    assert EncodeAll([a]) == EncodeAttribute(a) + EncodeAll([]);
    assert EncodeAttribute(a) + [] == [a.atype.0, a.atype.1, 0x00, 0x08] + a.value;
  }

  lemma PlainSample(txId: TxId)
    ensures EncodeAddress(SAMPLE, txId, false) == [0x00, 0x01, 0x80, 0x55, 192, 0, 2, 1]
  {
  }

  /** A whole message with one attribute of type 0x0020, whose value is masked, or of type 0x0001, whose value is not. */
  lemma AWholeResponse(txId: TxId)
    ensures BindingResponse(txId, ResponseOf(txId, [0x00, 0x20, 0x00, 0x08] + SAMPLE_VALUE)) == Ok(SAMPLE)
    ensures BindingResponse(txId, ResponseOf(txId, [0x00, 0x01, 0x00, 0x08] + [0x00, 0x01, 0x80, 0x55, 192, 0, 2, 1]))
            == Ok(SAMPLE)
  {
    TheSampleResponse(txId);
    PlainSample(txId);
    OneAttributeInBytes(txId, Attribute((0x00, 0x20), EncodeAddress(SAMPLE, txId, true), []));
    OneAttributeInBytes(txId, Attribute((0x00, 0x01), EncodeAddress(SAMPLE, txId, false), []));
    ResponseRoundTrip(SAMPLE, txId, true, [], [], []);
    ResponseRoundTrip(SAMPLE, txId, false, [], [], []);
  }
}
