/** parseTopics of core/services/eth/geth_copied.go: the indexed fields of an event, read from its topics. */
module EventTopics {
  import opened Bytes
  import opened EvmWords

  datatype Width = Bits8 | Bits16 | Bits32 | Bits64

  datatype Kind =
    | Bool
    | Int(width: Width)
    | Uint(width: Width)
    | Hash
    | Address
    | BigInt(signed: bool)
    | FixedBytes(size: nat)
    | Unsupported

  datatype Field = Field(kind: Kind, indexed: bool, present: bool)

  datatype Value = BoolValue(b: bool) | IntValue(n: int) | BytesValue(bytes: seq<Byte>)

  datatype Result = Parsed | CountMismatch | BadField(at: nat)

  type Topic = t: seq<Byte> | |t| == 32 witness [0, 0, 0, 0, 0, 0, 0, 0, 0, 0, 0, 0, 0, 0, 0, 0, 0, 0, 0, 0, 0, 0, 0, 0, 0, 0, 0, 0, 0, 0, 0, 0]

  function Half(width: Width): int {
    match width
    case Bits8 => 0x80
    case Bits16 => 0x8000
    case Bits32 => 0x8000_0000
    case Bits64 => 0x8000_0000_0000_0000
  }

  predicate Good(field: Field) {
    field.indexed && field.present && !field.kind.Unsupported? && (field.kind.FixedBytes? ==> field.kind.size <= 32)
  }

  /** What a field holds afterwards; a bool is only ever set to true. */
  function ValueOf(kind: Kind, topic: Topic, before: Value): Value
    requires !kind.Unsupported? && (kind.FixedBytes? ==> kind.size <= 32)
  {
    var n := FromBytes(topic);
    match kind
    case Bool => if topic[31] == 1 then BoolValue(true) else before
    case Int(width) => IntValue(ToSigned(ToSigned(n, Half(Bits64)), Half(width)))
    case Uint(width) => IntValue(n % TWO_64 % (2 * Half(width)))
    case Hash => BytesValue(topic)
    case Address => BytesValue(topic[12..])
    case BigInt(signed) => IntValue(if signed then Signed(n) else n)
    case FixedBytes(size) => BytesValue(topic[..size])
  }

  /** The int256 case, as it is written: num is changed in place. */
  method ReadInt256(topic: Topic) returns (num: int)
    ensures TwosComplement(num, FromBytes(topic), TWO_255)
    ensures num == Signed(FromBytes(topic))
  {
    num := FromBytes(topic);
    assert FromBytes(topic) < TWO_256 by {
      FromBytesFits(topic);
      Powers();
    }
    if num > MAX_INT256 {
      num := MAX_UINT256 - num;
      num := num + 1;
      num := -num;
    }
  }

  method ReadField(field: Field, topic: Topic, before: Value) returns (value: Value)
    requires Good(field)
    ensures value == ValueOf(field.kind, topic, before)
  {
    value := before;
    match field.kind
    case BigInt(signed) =>
      var num: int := FromBytes(topic);
      if signed {
        num := ReadInt256(topic);
      }
      value := IntValue(num);
    case Bool =>
      if topic[31] == 1 {
        value := BoolValue(true);
      }
    case Int(_) => value := ValueOf(field.kind, topic, before);
    case Uint(_) => value := ValueOf(field.kind, topic, before);
    case Hash => value := BytesValue(topic);
    case Address => value := BytesValue(topic[12..]);
    case FixedBytes(size) => value := BytesValue(topic[..size]);
    case Unsupported => assert false;
  }

  method ParseTopics(out: array<Value>, fields: seq<Field>, topics: seq<Topic>) returns (r: Result)
    requires out.Length == |fields|
    modifies out
    ensures r.CountMismatch? <==> |fields| != |topics|
    ensures r.CountMismatch? ==> out[..] == old(out[..])
    ensures r.Parsed? ==> forall i :: 0 <= i < |fields| ==> Good(fields[i]) && out[i] == ValueOf(fields[i].kind, topics[i], old(out[i]))
    ensures r.BadField? ==>
              && r.at < |fields| && !Good(fields[r.at]) && (forall i :: 0 <= i < r.at ==> Good(fields[i]))
              && (forall i :: 0 <= i < r.at ==> out[i] == ValueOf(fields[i].kind, topics[i], old(out[i])))
              && (forall i :: r.at <= i < |fields| ==> out[i] == old(out[i]))
  {
    if |fields| != |topics| {
      return CountMismatch;
    }
    var rest := topics;
    for i := 0 to |fields|
      invariant rest == topics[i..]
      invariant forall j :: 0 <= j < i ==> Good(fields[j]) && out[j] == ValueOf(fields[j].kind, topics[j], old(out[j]))
      invariant forall j :: i <= j < |fields| ==> out[j] == old(out[j])
    {
      if !Good(fields[i]) {
        return BadField(i);
      }
      out[i] := ReadField(fields[i], rest[0], out[i]);
      rest := rest[1..];
    }
    return Parsed;
  }

  // ---- what the encoders wrote is what is read ----

  lemma SmallIsItself(v: int, half: int)
    requires half > 0 && -half <= v < half
    ensures ToSigned(v, half) == v
  {
    var m := 2 * half;
    if v < 0 {
      ModuloAdds(-1, m, v + m);
      SmallModulo(v + m, m);
    } else {
      SmallModulo(v, m);
    }
  }

  lemma SmallModulo(v: int, m: int)
    requires 0 <= v < m
    ensures v % m == v
  {
    assert v == v / m * m + v % m;
    Unique(v / m, 0, m, v % m, v);
  }

  /** Every signed field, of any width, reads back what EVMWordSignedBigInt wrote for it. */
  lemma SignedFieldRoundTrip(width: Width, v: int, before: Value)
    requires -Half(width) <= v < Half(width)
    ensures EVMWordSignedBigInt(v).Encoded? && |EVMWordSignedBigInt(v).word| == 32
    ensures ValueOf(Int(width), EVMWordSignedBigInt(v).word, before) == IntValue(v)
  {
    SignedRoundTrip(v);
    var n := FromBytes(EVMWordSignedBigInt(v).word);
    FromBytesFits(EVMWordSignedBigInt(v).word);
    Powers();
    LowBitsOf(n, v);
    NarrowIsItself(width, n, v);
  }

  lemma NarrowIsItself(width: Width, n: int, v: int)
    requires -Half(width) <= v < Half(width) && ToSigned(n, Half(Bits64)) == ToSigned(v, Half(Bits64))
    ensures ToSigned(ToSigned(n, Half(Bits64)), Half(width)) == v
  {
    SmallIsItself(v, Half(Bits64));
    SmallIsItself(v, Half(width));
  }

  lemma LowBitsOf(n: nat, v: int)
    requires Signed(n) == v && n < TWO_256
    ensures ToSigned(n, Half(Bits64)) == ToSigned(v, Half(Bits64))
  {
    if n != v {
      assert n == 0x1_00000000_00000000_00000000_00000000_00000000_00000000 * TWO_64 + v;
      ModuloAdds(0x1_00000000_00000000_00000000_00000000_00000000_00000000, TWO_64, v);
    }
  }

  lemma UnsignedFieldRoundTrip(width: Width, v: nat, before: Value)
    requires v < 2 * Half(width)
    ensures EVMWordBigInt(v).Encoded? && |EVMWordBigInt(v).word| == 32
    ensures ValueOf(Uint(width), EVMWordBigInt(v).word, before) == IntValue(v)
  {
    UnsignedRoundTrip(v);
    TruncationKeeps(width, v);
  }

  lemma TruncationKeeps(width: Width, v: nat)
    requires v < 2 * Half(width)
    ensures v % TWO_64 % (2 * Half(width)) == v
  {
    SmallModulo(v, TWO_64);
    SmallModulo(v, 2 * Half(width));
  }

  /** int256 and uint256 fields. */
  lemma BigFieldRoundTrip(v: int, before: Value)
    ensures EVMWordSignedBigInt(v).Encoded? <==> -TWO_255 < v < TWO_255
    ensures EVMWordBigInt(v).Encoded? <==> 0 <= v < TWO_256
    ensures EVMWordSignedBigInt(v).Encoded? ==>
              |EVMWordSignedBigInt(v).word| == 32 && ValueOf(BigInt(true), EVMWordSignedBigInt(v).word, before) == IntValue(v)
    ensures EVMWordBigInt(v).Encoded? ==>
              |EVMWordBigInt(v).word| == 32 && ValueOf(BigInt(false), EVMWordBigInt(v).word, before) == IntValue(v)
  {
    SignedRoundTrip(v);
    UnsignedRoundTrip(v);
  }

  /** An address field reads back the twenty bytes that were padded to a word; the words that are made
      that way are those below 2^160. */
  lemma AddressFieldRoundTrip(address: seq<Byte>, topic: Topic, before: Value)
    requires |address| == 20
    ensures |LeftPad(address, 32)| == 32 && ValueOf(Address, LeftPad(address, 32), before) == BytesValue(address)
    ensures ValueOf(Address, topic, before) == BytesValue(address) ==>
              (topic == LeftPad(address, 32) <==> FromBytes(topic) < Pow2(160))
  {
    if topic[12..] == address {
      assert topic == topic[..12] + address;
      PaddedIff(topic);
    }
  }

  lemma PaddedIff(topic: Topic)
    ensures topic[..12] == Zeros(12) <==> FromBytes(topic) < Pow2(160)
  {
    if topic[..12] == Zeros(12) {
      assert topic == Zeros(12) + topic[12..];
      ZerosInFront(12, topic[12..]);
      FromBytesFits(topic[12..]);
    }
    if FromBytes(topic) < Pow2(160) {
      ToBytesFits(FromBytes(topic), 20);
      BackAndPad(topic);
    }
  }

  /** A fixed byte array reads back its own bytes from the front of the word, a hash the whole word. */
  lemma FixedBytesFieldRoundTrip(bytes: seq<Byte>, before: Value)
    requires |bytes| <= 32
    ensures |bytes + Zeros(32 - |bytes|)| == 32
    ensures ValueOf(FixedBytes(|bytes|), bytes + Zeros(32 - |bytes|), before) == BytesValue(bytes)
    ensures |bytes| == 32 ==> ValueOf(Hash, bytes, before) == BytesValue(bytes)
  {
    assert (bytes + Zeros(32 - |bytes|))[..|bytes|] == bytes;
  }

  lemma BoolFieldRoundTrip(b: bool)
    ensures |EVMWordUint64(if b then 1 else 0)| == 32
    ensures ValueOf(Bool, EVMWordUint64(if b then 1 else 0), BoolValue(false)) == BoolValue(b)
  {
    Uint64Word(if b then 1 else 0);
    assert ToBytes(1) == ToBytes(0) + [1];
  }
}
