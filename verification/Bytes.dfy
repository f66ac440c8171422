/** Big-endian numbers: math/big's Bytes and SetBytes, and left padding. */
module Bytes {
  type Byte = b: int | 0 <= b < 256

  function Pow2(k: nat): (p: int)
    ensures 1 <= p
  {
    if k == 0 then 1 else 2 * Pow2(k - 1)
  }

  lemma {:induction false} Pow2Adds(j: nat, k: nat)
    ensures Pow2(j + k) == Pow2(j) * Pow2(k)
  {
    if j > 0 {
      Pow2Adds(j - 1, k);
      Associate(2, Pow2(j - 1), Pow2(k));
    }
  }

  lemma Associate(a: int, b: int, c: int)
    ensures a * (b * c) == (a * b) * c
  {
  }

  lemma {:induction false} Pow2Grows(j: nat, k: nat)
    requires j <= k
    ensures 1 <= Pow2(j) <= Pow2(k)
  {
    if j < k {
      Pow2Grows(j, k - 1);
    } else if j > 0 {
      Pow2Grows(j - 1, j - 1);
    }
  }

  const TWO_64: int := 0x1_0000_0000_0000_0000
  const TWO_128: int := 0x1_00000000_00000000_00000000_00000000
  const TWO_255: int := 0x80000000_00000000_00000000_00000000_00000000_00000000_00000000_00000000
  const TWO_256: int := 0x1_00000000_00000000_00000000_00000000_00000000_00000000_00000000_00000000

  lemma Doubled(k: nat, p: int)
    requires Pow2(k) == p
    ensures Pow2(k + k) == p * p
  {
    Pow2Adds(k, k);
  }

  lemma Powers()
    ensures Pow2(64) == TWO_64 && Pow2(128) == TWO_128 && Pow2(255) == TWO_255 && Pow2(256) == TWO_256
  {
    assert Pow2(4) == 16;
    Doubled(4, 16);
    Doubled(8, 0x100);
    Doubled(16, 0x1_0000);
    Doubled(32, 0x1_0000_0000);
    Doubled(64, TWO_64);
    Doubled(128, TWO_128);
    assert Pow2(256) == 2 * Pow2(255);
  }

  /** Go's conversion to a signed integer type: the low bits, as two's complement. */
  function ToSigned(n: int, half: int): int
    requires half > 0
  {
    var m := n % (2 * half);
    if m >= half then m - 2 * half else m
  }

  /** big.Int.SetBytes. */
  function FromBytes(bytes: seq<Byte>): nat {
    if bytes == [] then 0 else FromBytes(bytes[..|bytes| - 1]) * 256 + bytes[|bytes| - 1]
  }

  /** big.Int.Bytes of the absolute value: no leading zeros. */
  function ToBytes(n: nat): seq<Byte> {
    if n == 0 then [] else ToBytes(n / 256) + [n % 256]
  }

  function Zeros(n: nat): seq<Byte> {
    seq(n, i => 0)
  }

  /** common.LeftPadBytes. */
  function LeftPad(bytes: seq<Byte>, n: nat): seq<Byte> {
    if n <= |bytes| then bytes else Zeros(n - |bytes|) + bytes
  }

  /** big.Int.BitLen of the absolute value. */
  function BitLen(n: nat): nat {
    if n == 0 then 0 else BitLen(n / 2) + 1
  }

  lemma {:induction false} BitLenIff(n: nat, k: nat)
    ensures BitLen(n) <= k <==> n < Pow2(k)
  {
    if n > 0 && k > 0 {
      BitLenIff(n / 2, k - 1);
    }
  }

  lemma {:induction false} ToBytesAndBack(n: nat)
    ensures FromBytes(ToBytes(n)) == n
  {
    if n > 0 {
      ToBytesAndBack(n / 256);
      assert ToBytes(n)[..|ToBytes(n)| - 1] == ToBytes(n / 256);
    }
  }

  lemma Pow2Byte(k: nat)
    ensures Pow2(8 * (k + 1)) == 256 * Pow2(8 * k)
  {
    Pow2Adds(8, 8 * k);
    assert Pow2(8) == 256 by {
      assert Pow2(4) == 16;
      Pow2Adds(4, 4);
    }
  }

  lemma {:induction false} ToBytesFits(n: nat, k: nat)
    ensures |ToBytes(n)| <= k <==> n < Pow2(8 * k)
  {
    if n > 0 && k > 0 {
      ToBytesFits(n / 256, k - 1);
      Pow2Byte(k - 1);
    }
  }

  lemma {:induction false} FromBytesFits(bytes: seq<Byte>)
    ensures FromBytes(bytes) < Pow2(8 * |bytes|)
  {
    if bytes != [] {
      FromBytesFits(bytes[..|bytes| - 1]);
      Pow2Byte(|bytes| - 1);
    }
  }

  lemma {:induction false} ZerosInFront(n: nat, bytes: seq<Byte>)
    ensures FromBytes(Zeros(n) + bytes) == FromBytes(bytes)
    decreases n + |bytes|
  {
    var padded := Zeros(n) + bytes;
    if bytes != [] {
      assert padded[..|padded| - 1] == Zeros(n) + bytes[..|bytes| - 1];
      ZerosInFront(n, bytes[..|bytes| - 1]);
    } else if n > 0 {
      assert padded[..|padded| - 1] == Zeros(n - 1) + [];
      ZerosInFront(n - 1, []);
    }
  }

  /** A number that fits makes a padded word of exactly that length, which reads as the number. */
  lemma PadAndBack(n: nat, k: nat)
    requires n < Pow2(8 * k)
    ensures |LeftPad(ToBytes(n), k)| == k && FromBytes(LeftPad(ToBytes(n), k)) == n
  {
    ToBytesFits(n, k);
    ToBytesAndBack(n);
    if |ToBytes(n)| < k {
      ZerosInFront(k - |ToBytes(n)|, ToBytes(n));
    }
  }

  /** Words of one length are as many as the numbers they stand for. */
  lemma {:induction false} FromBytesInjective(a: seq<Byte>, b: seq<Byte>)
    requires |a| == |b| && FromBytes(a) == FromBytes(b)
    ensures a == b
  {
    if a != [] {
      FromBytesInjective(a[..|a| - 1], b[..|b| - 1]);
      assert a == a[..|a| - 1] + [a[|a| - 1]] && b == b[..|b| - 1] + [b[|b| - 1]];
    }
  }

  lemma BackAndPad(word: seq<Byte>)
    ensures LeftPad(ToBytes(FromBytes(word)), |word|) == word
  {
    FromBytesFits(word);
    PadAndBack(FromBytes(word), |word|);
    FromBytesInjective(LeftPad(ToBytes(FromBytes(word)), |word|), word);
  }
}
