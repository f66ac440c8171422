/** core/utils/ethabi.go and core/services/eth/geth_copied.go: numbers as 32-byte words, and back. */
module EvmWords {
  import opened Bytes

  const WORD_LENGTH: nat := 32

  const MAX_UINT256: int := TWO_256 - 1
  const MAX_INT256: int := MAX_UINT256 / 2

  datatype Encoding = Encoded(word: seq<Byte>) | Overflow | Negative

  function Abs(v: int): nat {
    if v < 0 then -v else v
  }

  /** EVMWordUint64: the low eight bytes of an otherwise zero word. */
  function EVMWordUint64(val: nat): (word: seq<Byte>)
    requires val < TWO_64
  {
    Zeros(WORD_LENGTH - 8) + LeftPad(ToBytes(val), 8)
  }

  function EVMWordUint128(val: int): Encoding {
    if BitLen(Abs(val)) > 128 then Overflow
    else if val < 0 then Negative
    else Encoded(LeftPad(ToBytes(Abs(val)), WORD_LENGTH))
  }

  function EVMWordSignedBigInt(val: int): Encoding {
    if BitLen(Abs(val)) > 8 * WORD_LENGTH - 1 then Overflow
    else Encoded(LeftPad(ToBytes(if val < 0 then Abs(val + MAX_UINT256 + 1) else val), WORD_LENGTH))
  }

  function EVMWordBigInt(val: int): Encoding {
    if val < 0 then Negative
    else if |ToBytes(val)| > WORD_LENGTH then Overflow
    else Encoded(LeftPad(ToBytes(val), WORD_LENGTH))
  }

  // ---- reading a word as a signed number ----

  /** v is what the bits of n mean as a two's complement number below half and not below -half. */
  ghost predicate TwosComplement(v: int, n: int, half: int) {
    -half <= v < half && 0 <= n < 2 * half && (v == n || v + 2 * half == n)
  }

  /** The int256 case of parseTopics, on the number SetBytes gives. */
  function Signed(n: nat): int {
    if n > MAX_INT256 then -(MAX_UINT256 - n + 1) else n
  }

  lemma SignedIsTwosComplement(n: nat, v: int)
    requires n < TWO_256
    ensures TwosComplement(v, n, TWO_255) <==> v == Signed(n)
  {
  }

  // ---- round trips ----

  lemma Uint64Word(val: nat)
    requires val < TWO_64
    ensures |EVMWordUint64(val)| == WORD_LENGTH && FromBytes(EVMWordUint64(val)) == val
  {
    Powers();
    PadAndBack(val, 8);
    ZerosInFront(WORD_LENGTH - 8, LeftPad(ToBytes(val), 8));
  }

  /** EVMWordBigInt encodes exactly the uint256 values, and reading the word gives the value back. */
  lemma UnsignedRoundTrip(val: int)
    ensures EVMWordBigInt(val).Encoded? <==> 0 <= val < TWO_256
    ensures EVMWordBigInt(val).Encoded? ==>
              |EVMWordBigInt(val).word| == WORD_LENGTH && FromBytes(EVMWordBigInt(val).word) == val
  {
    Powers();
    if val >= 0 {
      ToBytesFits(val, WORD_LENGTH);
      if val < TWO_256 {
        PadAndBack(val, WORD_LENGTH);
      }
    }
  }

  lemma Uint128RoundTrip(val: int)
    ensures EVMWordUint128(val).Encoded? <==> 0 <= val < TWO_128
    ensures EVMWordUint128(val).Encoded? ==>
              |EVMWordUint128(val).word| == WORD_LENGTH && FromBytes(EVMWordUint128(val).word) == val
  {
    Powers();
    BitLenIff(Abs(val), 128);
    if 0 <= val < TWO_128 {
      PadAndBack(val, WORD_LENGTH);
    }
  }

  /** The number EVMWordSignedBigInt stores. */
  lemma SignedFits(val: int)
    requires Abs(val) < TWO_255
    ensures var n := if val < 0 then Abs(val + MAX_UINT256 + 1) else val;
            n < TWO_256 && Signed(n) == val && TwosComplement(val, n, TWO_255)
  {
  }

  /** EVMWordSignedBigInt encodes exactly the numbers with an absolute value below 2^255, and the
      int256 case of parseTopics reads the word back. */
  lemma SignedRoundTrip(val: int)
    ensures EVMWordSignedBigInt(val).Encoded? <==> -TWO_255 < val < TWO_255
    ensures EVMWordSignedBigInt(val).Encoded? ==>
              |EVMWordSignedBigInt(val).word| == WORD_LENGTH && Signed(FromBytes(EVMWordSignedBigInt(val).word)) == val
  {
    Powers();
    BitLenIff(Abs(val), 255);
    if Abs(val) < TWO_255 {
      SignedFits(val);
      PadAndBack(if val < 0 then Abs(val + MAX_UINT256 + 1) else val, WORD_LENGTH);
    }
  }

  /** The other way round: every word but one is the encoding of what it is read as. */
  lemma WordRoundTrip(word: seq<Byte>)
    requires |word| == WORD_LENGTH
    ensures EVMWordBigInt(FromBytes(word)) == Encoded(word)
    ensures EVMWordSignedBigInt(Signed(FromBytes(word))) ==
            if FromBytes(word) == TWO_255 then Overflow else Encoded(word)
  {
    Powers();
    var n := FromBytes(word);
    FromBytesFits(word);
    BackAndPad(word);
    ToBytesFits(n, WORD_LENGTH);
    BitLenIff(Abs(Signed(n)), 255);
  }

  /** The most negative int256 value is one the EVM has and the encoder rejects. */
  lemma MostNegativeIsRejected()
    ensures TwosComplement(-TWO_255, TWO_255, TWO_255) && EVMWordSignedBigInt(-TWO_255) == Overflow
  {
    Powers();
    BitLenIff(TWO_255, 255);
  }

  // ---- EVMBytesToUint64 ----

  /** It keeps the low 64 bits of a big-endian number of any length. */
  method EVMBytesToUint64(buf: seq<Byte>) returns (result: nat)
    ensures result == FromBytes(buf) % TWO_64
  {
    result := 0;
    for i := 0 to |buf|
      invariant result == FromBytes(buf[..i]) % TWO_64
    {
      assert buf[..i + 1][..i] == buf[..i];
      ShiftIn(FromBytes(buf[..i]), buf[i]);
      var shifted := result * 256 % TWO_64;
      result := (shifted + buf[i]) % TWO_64;
    }
    assert buf[..|buf|] == buf;
  }

  lemma ModuloAdds(q: int, m: nat, r: int)
    requires m > 0
    ensures (q * m + r) % m == r % m
  {
    var d := (q * m + r) / m;
    assert (q * m + r) == d * m + (q * m + r) % m;
    assert r == (r / m) * m + r % m;
    Unique(d - q, r / m, m, (q * m + r) % m, r % m);
  }

  lemma Unique(a: int, b: int, m: int, r: int, s: int)
    requires m > 0 && 0 <= r < m && 0 <= s < m && a * m + r == b * m + s
    ensures r == s
  {
    assert (a - b) * m == s - r;
    assert a - b >= 1 ==> (a - b) * m >= m;
    assert a - b <= -1 ==> (a - b) * m <= -m;
  }

  lemma ShiftIn(n: nat, b: Byte)
    ensures (n % TWO_64 * 256 % TWO_64 + b) % TWO_64 == (n * 256 + b) % TWO_64
  {
    assert n == n / TWO_64 * TWO_64 + n % TWO_64;
  }

  lemma Uint64RoundTrip(val: nat)
    requires val < TWO_64
    ensures FromBytes(EVMWordUint64(val)) % TWO_64 == val
  {
    Uint64Word(val);
  }
}
