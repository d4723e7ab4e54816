/**
  The STUN Binding exchange of the NAT probe (core/control/diagnostics.go), against sections 6, 15,
  15.1 and 15.2 of RFC 5389: the decoder reads the attributes a message was encoded from, and
  decoding an encoded address gives it back.
 */
module Stun {
  import opened Bits
  import opened Wrappers

  type Bytes = seq<Byte>

  const HEADER_LEN: nat := 20
  const BINDING_REQUEST: (Byte, Byte) := (0x00, 0x01)
  const BINDING_RESPONSE: (Byte, Byte) := (0x01, 0x01)
  const MAGIC_COOKIE: Bytes := [0x21, 0x12, 0xA4, 0x42]
  const MAPPED_ADDRESS: (Byte, Byte) := (0x00, 0x01)
  const XOR_MAPPED_ADDRESS: (Byte, Byte) := (0x00, 0x20)
  const FAMILY_IPV4: Byte := 0x01
  const FAMILY_IPV6: Byte := 0x02

  type UInt16 = x: int | 0 <= x < 0x1_0000

  /** The address and port the server saw. */
  datatype Mapping = Mapping(ip: Bytes, port: UInt16)

  datatype Error = TooShort | NotABindingResponse | BadCookie | WrongTransaction | AttributesTooLong
                 | NoMappedAddress | ShortAddress | UnknownFamily

  /** A big-endian 16-bit number. */
  function Uint16(hi: Byte, lo: Byte): UInt16 {
    hi * 256 + lo
  }

  type TxId = s: Bytes | |s| == 12 witness [0, 0, 0, 0, 0, 0, 0, 0, 0, 0, 0, 0]

  // ----- The request -----

  method BuildBindingRequest(txId: TxId) returns (msg: array<Byte>)
    ensures fresh(msg)
    ensures msg[..] == [BINDING_REQUEST.0, BINDING_REQUEST.1, 0, 0] + MAGIC_COOKIE + txId
  {
    msg := new Byte[HEADER_LEN](i => 0);
    msg[0], msg[1] := BINDING_REQUEST.0, BINDING_REQUEST.1;
    msg[2], msg[3] := 0, 0;
    msg[4], msg[5], msg[6], msg[7] := MAGIC_COOKIE[0], MAGIC_COOKIE[1], MAGIC_COOKIE[2], MAGIC_COOKIE[3];
    for i := 0 to 12
      invariant msg[..8] == [BINDING_REQUEST.0, BINDING_REQUEST.1, 0, 0] + MAGIC_COOKIE
      invariant forall j :: 0 <= j < i ==> msg[8 + j] == txId[j]
    {
      msg[8 + i] := txId[i];
    }
    assert msg[8..] == txId;
    assert msg[..] == msg[..8] + msg[8..];
  }

  // ----- One address attribute -----

  function XorByte(a: Byte, b: Byte): Byte {
    Pow2Of8();
    XorStaysBelow(a, b, 8);
    BitXor(a, b)
  }

  /** XOR with a mask of at least the same length. */
  function Xor(s: Bytes, mask: Bytes): (t: Bytes)
    requires |mask| >= |s|
    ensures |t| == |s|
    ensures forall i :: 0 <= i < |s| ==> t[i] == XorByte(s[i], mask[i])
  {
    seq(|s|, i requires 0 <= i < |s| => XorByte(s[i], mask[i]))
  }

  /** The high half of the magic cookie. */
  const COOKIE_HIGH: UInt16 := 0x2112

  function XorPort(p: UInt16): UInt16 {
    Pow2Of8();
    Pow2Adds(8, 8);
    XorStaysBelow(p, COOKIE_HIGH, 16);
    BitXor(p, COOKIE_HIGH)
  }

  function Unmasked(s: Bytes, txId: TxId, xor: bool): Bytes
    requires |s| <= 16
  {
    if xor then Xor(s, MAGIC_COOKIE + txId) else s
  }

  /** What a mapped-address value decodes to; bytes past the address are ignored. */
  function MappedAddress(val: Bytes, txId: TxId, xor: bool): Result<Mapping, Error> {
    if |val| < 4 then Err(ShortAddress)
    else
      var port := if xor then XorPort(Uint16(val[2], val[3])) else Uint16(val[2], val[3]);
      if val[1] == FAMILY_IPV4 then
        if |val| < 8 then Err(ShortAddress) else Ok(Mapping(Unmasked(val[4..8], txId, xor), port))
      else if val[1] == FAMILY_IPV6 then
        if |val| < 20 then Err(ShortAddress) else Ok(Mapping(Unmasked(val[4..20], txId, xor), port))
      else Err(UnknownFamily)
  }

  /** The address buffer is filled from the value and unmasked in place. */
  method UnmaskInPlace(addr: array<Byte>, mask: Bytes)
    requires |mask| >= addr.Length
    modifies addr
    ensures addr[..] == Xor(old(addr[..]), mask)
  {
    for i := 0 to addr.Length
      invariant forall j :: 0 <= j < i ==> addr[j] == XorByte(old(addr[j]), mask[j])
      invariant forall j :: i <= j < addr.Length ==> addr[j] == old(addr[j])
    {
      addr[i] := XorByte(addr[i], mask[i]);
    }
  }

  method ParseMappedAddress(val: Bytes, txId: TxId, xor: bool) returns (r: Result<Mapping, Error>)
    ensures r == MappedAddress(val, txId, xor)
  {
    if |val| < 4 {
      return Err(ShortAddress);
    }
    var family := val[1];
    var port := Uint16(val[2], val[3]);
    if xor {
      port := XorPort(port);
    }
    var n;
    if family == FAMILY_IPV4 {
      n := 4;
    } else if family == FAMILY_IPV6 {
      n := 16;
    } else {
      return Err(UnknownFamily);
    }
    if |val| < 4 + n {
      return Err(ShortAddress);
    }
    var addr := new Byte[n](i requires 0 <= i < n => val[4 + i]);
    assert addr[..] == val[4..4 + n];
    if xor {
      UnmaskInPlace(addr, MAGIC_COOKIE + txId);
    }
    return Ok(Mapping(addr[..], port));
  }

  // ----- The message -----

  /** What the walk over the attributes has found: the last decodable address of each kind. */
  datatype Found = Found(xorMapped: Option<Mapping>, mapped: Option<Mapping>)

  function Update(f: Found, atype: (Byte, Byte), val: Bytes, txId: TxId): Found {
    if atype == XOR_MAPPED_ADDRESS then
      var m := MappedAddress(val, txId, true);
      if m.Ok? then f.(xorMapped := Some(m.value)) else f
    else if atype == MAPPED_ADDRESS then
      var m := MappedAddress(val, txId, false);
      if m.Ok? then f.(mapped := Some(m.value)) else f
    else f
  }

  function PadOf(alen: nat): nat {
    (4 - alen % 4) % 4
  }

  /** The walk: it stops at a truncated header, value or padding. */
  function Walk(p: Bytes, f: Found, txId: TxId): Found
    decreases |p|
  {
    if |p| < 4 then f
    else
      var alen := Uint16(p[2], p[3]);
      if 4 + alen > |p| then f
      else
        var f' := Update(f, (p[0], p[1]), p[4..4 + alen], txId);
        var adv := 4 + alen + PadOf(alen);
        if adv > |p| then f' else Walk(p[adv..], f', txId)
  }

  function Preferred(f: Found): Result<Mapping, Error> {
    if f.xorMapped.Some? then Ok(f.xorMapped.value)
    else if f.mapped.Some? then Ok(f.mapped.value)
    else Err(NoMappedAddress)
  }

  function BindingResponse(txId: TxId, msg: Bytes): Result<Mapping, Error> {
    if |msg| < HEADER_LEN then Err(TooShort)
    else if (msg[0], msg[1]) != BINDING_RESPONSE then Err(NotABindingResponse)
    else if msg[4..8] != MAGIC_COOKIE then Err(BadCookie)
    else if msg[8..20] != txId then Err(WrongTransaction)
    else
      var attrLen := Uint16(msg[2], msg[3]);
      if HEADER_LEN + attrLen > |msg| then Err(AttributesTooLong)
      else Preferred(Walk(msg[HEADER_LEN..HEADER_LEN + attrLen], Found(None, None), txId))
  }

  method ParseBindingResponse(txId: TxId, msg: Bytes) returns (r: Result<Mapping, Error>)
    ensures r == BindingResponse(txId, msg)
  {
    if |msg| < HEADER_LEN {
      return Err(TooShort);
    }
    if (msg[0], msg[1]) != BINDING_RESPONSE {
      return Err(NotABindingResponse);
    }
    if msg[4..8] != MAGIC_COOKIE {
      return Err(BadCookie);
    }
    if msg[8..20] != txId {
      return Err(WrongTransaction);
    }
    var attrLen := Uint16(msg[2], msg[3]);
    if HEADER_LEN + attrLen > |msg| {
      return Err(AttributesTooLong);
    }
    var found := WalkAttributes(txId, msg[HEADER_LEN..HEADER_LEN + attrLen]);
    return Preferred(found);
  }

  /** One attribute of the walk: a value of either kind that decodes replaces what was found. */
  method TakeAttribute(found: Found, atype: (Byte, Byte), val: Bytes, txId: TxId) returns (found': Found)
    ensures found' == Update(found, atype, val, txId)
  {
    found' := found;
    if atype == XOR_MAPPED_ADDRESS {
      var m := ParseMappedAddress(val, txId, true);
      if m.Ok? {
        found' := found.(xorMapped := Some(m.value));
      }
    } else if atype == MAPPED_ADDRESS {
      var m := ParseMappedAddress(val, txId, false);
      if m.Ok? {
        found' := found.(mapped := Some(m.value));
      }
    }
  }

  method Advance(alen: nat) returns (adv: nat)
    ensures adv == 4 + alen + PadOf(alen)
  {
    adv := 4 + alen;
    if alen % 4 != 0 {
      adv := adv + 4 - alen % 4;
    }
  }

  method WalkAttributes(txId: TxId, attributes: Bytes) returns (found: Found)
    ensures found == Walk(attributes, Found(None, None), txId)
  {
    var p := attributes;
    found := Found(None, None);
    while |p| >= 4
      invariant Walk(p, found, txId) == Walk(attributes, Found(None, None), txId)
      decreases |p|
    {
      var alen := Uint16(p[2], p[3]);
      if 4 + alen > |p| {
        break;
      }
      found := TakeAttribute(found, (p[0], p[1]), p[4..4 + alen], txId);
      var adv := Advance(alen);
      if adv > |p| {
        p := [];
        break;
      }
      p := p[adv..];
    }
  }

  // ----- Attribute lists, as the standard encodes them -----

  /** An attribute: its type, its value, and the padding bytes, whose content is ignored. */
  datatype Attribute = Attribute(atype: (Byte, Byte), value: Bytes, padding: Bytes)

  predicate WellFormed(a: Attribute) {
    |a.value| < 0x1_0000 && |a.padding| == PadOf(|a.value|)
  }

  function HighByte(n: UInt16): Byte {
    n / 256
  }

  function LowByte(n: UInt16): Byte {
    n % 256
  }

  function EncodeAttribute(a: Attribute): Bytes
    requires WellFormed(a)
  {
    [a.atype.0, a.atype.1, HighByte(|a.value|), LowByte(|a.value|)] + a.value + a.padding
  }

  function EncodeAll(attrs: seq<Attribute>): Bytes
    requires forall i :: 0 <= i < |attrs| ==> WellFormed(attrs[i])
  {
    if attrs == [] then [] else EncodeAttribute(attrs[0]) + EncodeAll(attrs[1..])
  }

  /** No further attribute can be read: the header or the value is cut short. */
  predicate Truncated(tail: Bytes) {
    |tail| < 4 || 4 + Uint16(tail[2], tail[3]) > |tail|
  }

  /** The last address of a kind in the list that decodes. */
  function LastDecodable(attrs: seq<Attribute>, atype: (Byte, Byte), txId: TxId): Option<Mapping> {
    if attrs == [] then None
    else
      var last := attrs[|attrs| - 1];
      var m := MappedAddress(last.value, txId, atype == XOR_MAPPED_ADDRESS);
      if last.atype == atype && m.Ok? then Some(m.value)
      else LastDecodable(attrs[..|attrs| - 1], atype, txId)
  }

  /** What a list of attributes reports: the last XOR-MAPPED-ADDRESS, else the last MAPPED-ADDRESS. */
  function Reported(attrs: seq<Attribute>, txId: TxId): Result<Mapping, Error> {
    var x := LastDecodable(attrs, XOR_MAPPED_ADDRESS, txId);
    var m := LastDecodable(attrs, MAPPED_ADDRESS, txId);
    if x.Some? then Ok(x.value) else if m.Some? then Ok(m.value) else Err(NoMappedAddress)
  }

  function Or<T>(a: Option<T>, b: Option<T>): Option<T> {
    if a.Some? then a else b
  }

  function Folded(attrs: seq<Attribute>, f: Found, txId: TxId): Found {
    if attrs == [] then f else Folded(attrs[1..], Update(f, attrs[0].atype, attrs[0].value, txId), txId)
  }

  /** The attributes that any byte string begins with; only the last may lack some of its padding. */
  function ReadAttributes(p: Bytes): seq<Attribute>
    decreases |p|
  {
    if Truncated(p) then []
    else
      var alen := Uint16(p[2], p[3]);
      var adv := 4 + alen + PadOf(alen);
      if adv > |p| then [Attribute((p[0], p[1]), p[4..4 + alen], p[4 + alen..])]
      else [Attribute((p[0], p[1]), p[4..4 + alen], p[4 + alen..adv])] + ReadAttributes(p[adv..])
  }

  lemma {:induction false} WalkFolds(p: Bytes, f: Found, txId: TxId)
    ensures Walk(p, f, txId) == Folded(ReadAttributes(p), f, txId)
    decreases |p|
  {
    if !Truncated(p) {
      var alen := Uint16(p[2], p[3]);
      var adv := 4 + alen + PadOf(alen);
      var f' := Update(f, (p[0], p[1]), p[4..4 + alen], txId);
      var attrs := ReadAttributes(p);
      if adv <= |p| {
        WalkFolds(p[adv..], f', txId);
        assert attrs[1..] == ReadAttributes(p[adv..]);
      } else {
        assert attrs[1..] == [];
      }
    }
  }

  /** Three strings one after the other, behind four bytes. */
  lemma PartsOf(b0: Byte, b1: Byte, b2: Byte, b3: Byte, value: Bytes, padding: Bytes, rest: Bytes)
    ensures var p := [b0, b1, b2, b3] + (value + (padding + rest));
            && |p| == 4 + |value| + |padding| + |rest|
            && p[0] == b0 && p[1] == b1 && p[2] == b2 && p[3] == b3
            && p[4..4 + |value|] == value
            && p[4 + |value|..4 + |value| + |padding|] == padding
            && p[4 + |value| + |padding|..] == rest
  {
  }

  lemma EncodedParts(a: Attribute, rest: Bytes)
    requires WellFormed(a)
    ensures var p, alen := EncodeAttribute(a) + rest, |a.value|;
            var adv := 4 + alen + PadOf(alen);
            && |p| == adv + |rest|
            && p[0] == a.atype.0 && p[1] == a.atype.1 && p[2] == HighByte(alen) && p[3] == LowByte(alen)
            && p[4..4 + alen] == a.value && p[4 + alen..adv] == a.padding && p[adv..] == rest
  {
    var b2, b3 := HighByte(|a.value|), LowByte(|a.value|);
    var head := [a.atype.0, a.atype.1, b2, b3];
    assert EncodeAttribute(a) + rest == head + (a.value + (a.padding + rest));
    PartsOf(a.atype.0, a.atype.1, b2, b3, a.value, a.padding, rest);
  }

  lemma OneAttributeReadsBack(a: Attribute, rest: Bytes)
    requires WellFormed(a)
    ensures ReadAttributes(EncodeAttribute(a) + rest) == [a] + ReadAttributes(rest)
  {
    var p, alen := EncodeAttribute(a) + rest, |a.value|;
    EncodedParts(a, rest);
    assert Uint16(p[2], p[3]) == alen;
    assert !Truncated(p);
    assert Attribute((p[0], p[1]), p[4..4 + alen], p[4 + alen..4 + alen + PadOf(alen)]) == a;
  }

  lemma {:induction false} EncodedAttributesReadBack(attrs: seq<Attribute>, tail: Bytes)
    requires forall i :: 0 <= i < |attrs| ==> WellFormed(attrs[i])
    requires Truncated(tail)
    ensures ReadAttributes(EncodeAll(attrs) + tail) == attrs
    decreases |attrs|
  {
    if attrs == [] {
      assert EncodeAll(attrs) + tail == tail;
    } else {
      var rest := EncodeAll(attrs[1..]) + tail;
      assert EncodeAll(attrs) + tail == EncodeAttribute(attrs[0]) + rest;
      OneAttributeReadsBack(attrs[0], rest);
      EncodedAttributesReadBack(attrs[1..], tail);
    }
  }

  lemma {:induction false} FoldedFindsTheLast(attrs: seq<Attribute>, f: Found, txId: TxId)
    ensures Folded(attrs, f, txId) ==
            Found(Or(LastDecodable(attrs, XOR_MAPPED_ADDRESS, txId), f.xorMapped),
                  Or(LastDecodable(attrs, MAPPED_ADDRESS, txId), f.mapped))
    decreases |attrs|
  {
    if attrs == [] {
    } else {
      var a := attrs[0];
      FoldedFindsTheLast(attrs[1..], Update(f, a.atype, a.value, txId), txId);
      LastOfConcat([a], attrs[1..], XOR_MAPPED_ADDRESS, txId);
      LastOfConcat([a], attrs[1..], MAPPED_ADDRESS, txId);
      assert [a] + attrs[1..] == attrs;
      assert [a][..0] == [];
    }
  }

  lemma {:induction false} LastOfConcat(a: seq<Attribute>, b: seq<Attribute>, atype: (Byte, Byte), txId: TxId)
    ensures LastDecodable(a + b, atype, txId) == Or(LastDecodable(b, atype, txId), LastDecodable(a, atype, txId))
  {
    if b == [] {
      assert a + b == a;
    } else {
      assert (a + b)[..|a + b| - 1] == a + b[..|b| - 1];
      LastOfConcat(a, b[..|b| - 1], atype, txId);
    }
  }

  /** A success response with these attribute bytes, and whatever follows them in the packet. */
  function EncodeResponse(txId: TxId, attributes: Bytes, extra: Bytes): Bytes
    requires |attributes| < 0x1_0000
  {
    [BINDING_RESPONSE.0, BINDING_RESPONSE.1, HighByte(|attributes|), LowByte(|attributes|)]
    + MAGIC_COOKIE + txId + attributes + extra
  }

  lemma ResponseIsRead(txId: TxId, attributes: Bytes, extra: Bytes)
    requires |attributes| < 0x1_0000
    ensures BindingResponse(txId, EncodeResponse(txId, attributes, extra))
         == Preferred(Walk(attributes, Found(None, None), txId))
  {
    var msg := EncodeResponse(txId, attributes, extra);
    assert msg[0] == BINDING_RESPONSE.0 && msg[1] == BINDING_RESPONSE.1;
    assert msg[2] == HighByte(|attributes|) && msg[3] == LowByte(|attributes|);
    assert msg[4..8] == MAGIC_COOKIE;
    assert msg[8..20] == txId;
    assert msg[20..20 + |attributes|] == attributes;
  }

  /** Whatever the attribute bytes are, the decoder answers for the attributes they begin with. */
  lemma DecoderReportsWhatItReads(txId: TxId, attributes: Bytes, extra: Bytes)
    requires |attributes| < 0x1_0000
    ensures BindingResponse(txId, EncodeResponse(txId, attributes, extra))
         == Reported(ReadAttributes(attributes), txId)
  {
    ResponseIsRead(txId, attributes, extra);
    WalkFolds(attributes, Found(None, None), txId);
    FoldedFindsTheLast(ReadAttributes(attributes), Found(None, None), txId);
  }

  /**
    For every well-formed, padded attribute list - and whatever truncated rest or bytes past the message
    follow it - the decoder returns the last decodable XOR-MAPPED-ADDRESS, else the last decodable
    MAPPED-ADDRESS, else that there is none.
   */
  lemma DecoderReportsTheAttributes(txId: TxId, attrs: seq<Attribute>, tail: Bytes, extra: Bytes)
    requires forall i :: 0 <= i < |attrs| ==> WellFormed(attrs[i])
    requires Truncated(tail) && |EncodeAll(attrs) + tail| < 0x1_0000
    ensures BindingResponse(txId, EncodeResponse(txId, EncodeAll(attrs) + tail, extra)) == Reported(attrs, txId)
  {
    DecoderReportsWhatItReads(txId, EncodeAll(attrs) + tail, extra);
    EncodedAttributesReadBack(attrs, tail);
  }

  // ----- Addresses there and back -----

  predicate IsAddress(m: Mapping) {
    |m.ip| == 4 || |m.ip| == 16
  }

  /** The value of a (XOR-)MAPPED-ADDRESS attribute. */
  function EncodeAddress(m: Mapping, txId: TxId, xor: bool): Bytes
    requires IsAddress(m)
  {
    var port := if xor then XorPort(m.port) else m.port;
    [0, if |m.ip| == 4 then FAMILY_IPV4 else FAMILY_IPV6, HighByte(port), LowByte(port)] + Unmasked(m.ip, txId, xor)
  }

  lemma XorTwice(s: Bytes, mask: Bytes)
    requires |mask| >= |s|
    ensures Xor(Xor(s, mask), mask) == s
  {
    forall i | 0 <= i < |s|
      ensures XorByte(XorByte(s[i], mask[i]), mask[i]) == s[i]
    {
      XorTwiceIsBack(s[i], mask[i]);
    }
  }

  lemma PortRoundTrip(port: UInt16)
    ensures XorPort(XorPort(port)) == port
    ensures Uint16(HighByte(port), LowByte(port)) == port
  {
    XorTwiceIsBack(port, COOKIE_HIGH);
  }

  lemma UnmaskedTwice(ip: Bytes, txId: TxId, xor: bool)
    requires |ip| <= 16
    ensures |Unmasked(ip, txId, xor)| == |ip|
    ensures Unmasked(Unmasked(ip, txId, xor), txId, xor) == ip
  {
    if xor {
      XorTwice(ip, MAGIC_COOKIE + txId);
    }
  }

  lemma AddressRoundTrip(m: Mapping, txId: TxId, xor: bool)
    requires IsAddress(m)
    ensures MappedAddress(EncodeAddress(m, txId, xor), txId, xor) == Ok(m)
  {
    var port, masked := if xor then XorPort(m.port) else m.port, Unmasked(m.ip, txId, xor);
    var val := EncodeAddress(m, txId, xor);
    UnmaskedTwice(m.ip, txId, xor);
    PortRoundTrip(m.port);
    PortRoundTrip(port);
    assert |val| == 4 + |m.ip| && val[1] == (if |m.ip| == 4 then FAMILY_IPV4 else FAMILY_IPV6);
    assert val[2] == HighByte(port) && val[3] == LowByte(port);
    assert val[4..4 + |m.ip|] == masked;
  }

  /** An answer that carries an encoded address and port gives them back, under any transaction id. */
  lemma ResponseRoundTrip(m: Mapping, txId: TxId, xor: bool, before: seq<Attribute>, after: seq<Attribute>,
                          extra: Bytes)
    requires IsAddress(m)
    requires forall a :: a in before || a in after ==> WellFormed(a) && a.atype != XOR_MAPPED_ADDRESS
    requires !xor ==> forall a :: a in after ==> a.atype != MAPPED_ADDRESS
    requires var a := Attribute(if xor then XOR_MAPPED_ADDRESS else MAPPED_ADDRESS, EncodeAddress(m, txId, xor), []);
             WellFormed(a) && |EncodeAll(before + [a] + after)| < 0x1_0000
    ensures var a := Attribute(if xor then XOR_MAPPED_ADDRESS else MAPPED_ADDRESS, EncodeAddress(m, txId, xor), []);
            BindingResponse(txId, EncodeResponse(txId, EncodeAll(before + [a] + after), extra)) == Ok(m)
  {
    var kind := if xor then XOR_MAPPED_ADDRESS else MAPPED_ADDRESS;
    var a := Attribute(kind, EncodeAddress(m, txId, xor), []);
    var attrs := before + [a] + after;
    assert EncodeAll(attrs) + [] == EncodeAll(attrs);
    DecoderReportsTheAttributes(txId, attrs, [], extra);
    AddressRoundTrip(m, txId, xor);
    LastOfConcat(before + [a], after, kind, txId);
    LastOfConcat(before, [a], kind, txId);
    NoneOfAKind(after, kind, txId);
    LastOfConcat(before + [a], after, XOR_MAPPED_ADDRESS, txId);
    LastOfConcat(before, [a], XOR_MAPPED_ADDRESS, txId);
    NoneOfAKind(before, XOR_MAPPED_ADDRESS, txId);
    NoneOfAKind(after, XOR_MAPPED_ADDRESS, txId);
    assert [a][..0] == [];
  }

  lemma {:induction false} NoneOfAKind(attrs: seq<Attribute>, atype: (Byte, Byte), txId: TxId)
    requires forall a :: a in attrs ==> a.atype != atype
    ensures LastDecodable(attrs, atype, txId) == None
  {
    if attrs == [] {
    } else {
      NoneOfAKind(attrs[..|attrs| - 1], atype, txId);
    }
  }

  /** Only a success response to our own transaction is ever decoded. */
  lemma OnlyOurResponsesDecode(txId: TxId, msg: Bytes)
    ensures BindingResponse(txId, msg).Ok? ==>
              && |msg| >= HEADER_LEN && (msg[0], msg[1]) == BINDING_RESPONSE
              && msg[4..8] == MAGIC_COOKIE && msg[8..20] == txId
              && HEADER_LEN + Uint16(msg[2], msg[3]) <= |msg|
              && IsAddress(BindingResponse(txId, msg).value)
  {
    if |msg| >= HEADER_LEN && HEADER_LEN + Uint16(msg[2], msg[3]) <= |msg| {
      var attributes := msg[HEADER_LEN..HEADER_LEN + Uint16(msg[2], msg[3])];
      WalkFolds(attributes, Found(None, None), txId);
      FoldingHoldsAddresses(ReadAttributes(attributes), Found(None, None), txId);
    }
  }

  predicate HoldsAddresses(f: Found) {
    (f.xorMapped.Some? ==> IsAddress(f.xorMapped.value)) && (f.mapped.Some? ==> IsAddress(f.mapped.value))
  }

  lemma {:induction false} FoldingHoldsAddresses(attrs: seq<Attribute>, f: Found, txId: TxId)
    requires HoldsAddresses(f)
    ensures HoldsAddresses(Folded(attrs, f, txId))
    decreases |attrs|
  {
    if attrs == [] {
    } else {
      FoldingHoldsAddresses(attrs[1..], Update(f, attrs[0].atype, attrs[0].value, txId), txId);
    }
  }
}
