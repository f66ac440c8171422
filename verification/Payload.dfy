/** Calldata as core/utils/ethabi.go and core/adapters/eth_tx.go lay it out, following "Formal
    Specification of the Encoding" in the Solidity Contract ABI Specification. */
module Payload {
  import opened Options
  import opened Bytes
  import opened EvmWords

  function RoundToEVMWordBorder(length: nat): nat {
    var mod := length % WORD_LENGTH;
    if mod == 0 then 0 else WORD_LENGTH - mod
  }

  /** EVMEncodeBytes; a Go slice is shorter than 2^64. */
  function EVMEncodeBytes(input: seq<Byte>): seq<Byte>
    requires |input| < TWO_64
  {
    EVMWordUint64(|input|) + input + Zeros(RoundToEVMWordBorder(|input|))
  }

  // ---- the reader of the specification ----

  /** A number at a byte position. */
  function ReadWord(data: seq<Byte>, at: nat): Option<nat> {
    if at + WORD_LENGTH <= |data| then Some(FromBytes(data[at..at + WORD_LENGTH])) else None
  }

  /** A dynamic byte string at a byte position: its length, its bytes, and zeros up to a word border. */
  function ReadBytes(data: seq<Byte>, at: nat): Option<seq<Byte>> {
    match ReadWord(data, at)
    case None => None
    case Some(length) =>
      var start := at + WORD_LENGTH;
      var end := start + length + RoundToEVMWordBorder(length);
      if end <= |data| && data[start + length..end] == Zeros(end - (start + length)) then Some(data[start..start + length]) else None
  }

  /** A dynamic argument: the word at its place in the head is the offset of its bytes. */
  function ReadArgument(arguments: seq<Byte>, at: nat): Option<seq<Byte>> {
    match ReadWord(arguments, at)
    case None => None
    case Some(offset) => ReadBytes(arguments, offset)
  }

  lemma WordAt(before: seq<Byte>, word: seq<Byte>, after: seq<Byte>)
    requires |word| == WORD_LENGTH
    ensures ReadWord(before + word + after, |before|) == Some(FromBytes(word))
  {
    assert (before + word + after)[|before|..|before| + WORD_LENGTH] == word;
  }

  /** A word for the length, the bytes, and no more padding than the last word needs. */
  lemma EncodedLength(input: seq<Byte>)
    requires |input| < TWO_64
    ensures |EVMEncodeBytes(input)| == WORD_LENGTH + |input| + RoundToEVMWordBorder(|input|)
    ensures |EVMEncodeBytes(input)| % WORD_LENGTH == 0
    ensures WORD_LENGTH + |input| <= |EVMEncodeBytes(input)| < 2 * WORD_LENGTH + |input|
  {
    Uint64Word(|input|);
  }

  /** An encoded byte string is read back wherever it stands and whatever follows it. */
  lemma EncodeAndRead(before: seq<Byte>, input: seq<Byte>, after: seq<Byte>)
    requires |input| < TWO_64
    ensures ReadBytes(before + EVMEncodeBytes(input) + after, |before|) == Some(input)
  {
    var data, start, padding := before + EVMEncodeBytes(input) + after, |before| + WORD_LENGTH, RoundToEVMWordBorder(|input|);
    Uint64Word(|input|);
    assert data == before + EVMWordUint64(|input|) + (input + Zeros(padding) + after);
    WordAt(before, EVMWordUint64(|input|), input + Zeros(padding) + after);
    assert data == (before + EVMWordUint64(|input|)) + input + (Zeros(padding) + after);
    assert data[start..start + |input|] == input;
    assert data[start + |input|..start + |input| + padding] == Zeros(padding);
  }

  /** So no encoding is the beginning of another one, and different inputs never look alike. */
  lemma EncodingIsPrefixFree(a: seq<Byte>, restA: seq<Byte>, b: seq<Byte>, restB: seq<Byte>)
    requires |a| < TWO_64 && |b| < TWO_64 && EVMEncodeBytes(a) + restA == EVMEncodeBytes(b) + restB
    ensures a == b && restA == restB
  {
    ReadInFront(a, restA);
    ReadInFront(b, restB);
    SamePrefix(EVMEncodeBytes(a), restA, restB);
  }

  lemma ReadInFront(input: seq<Byte>, after: seq<Byte>)
    requires |input| < TWO_64
    ensures ReadBytes(EVMEncodeBytes(input) + after, 0) == Some(input)
  {
    EncodeAndRead([], input, after);
    assert [] + EVMEncodeBytes(input) == EVMEncodeBytes(input);
  }

  lemma SamePrefix(prefix: seq<Byte>, restA: seq<Byte>, restB: seq<Byte>)
    requires prefix + restA == prefix + restB
    ensures restA == restB
  {
    assert restA == (prefix + restA)[|prefix|..];
    assert restB == (prefix + restB)[|prefix|..];
  }

  /** And the reader accepts nothing but encodings. */
  lemma ReadIsEncoded(data: seq<Byte>, input: seq<Byte>)
    requires ReadBytes(data, 0) == Some(input) && |input| < TWO_64
    ensures EVMEncodeBytes(input) <= data
  {
    var length := FromBytes(data[..WORD_LENGTH]);
    assert data[0..WORD_LENGTH] == data[..WORD_LENGTH];
    Uint64Word(length);
    FromBytesInjective(data[..WORD_LENGTH], EVMWordUint64(length));
    var end := WORD_LENGTH + length + RoundToEVMWordBorder(length);
    assert data[..end] == data[..WORD_LENGTH] + data[WORD_LENGTH..WORD_LENGTH + length] + data[WORD_LENGTH + length..end];
  }

  // ---- getTxData and the payload of insertEthTx ----

  datatype Format = Unspecified | BytesFormat | OtherFormat

  /** getTxData: word is the result as a hash, output the result in the requested format. */
  function GetTxData(format: Format, prefix: seq<Byte>, word: seq<Byte>, output: seq<Byte>): seq<Byte> {
    if format.Unspecified? then word
    else if format.BytesFormat? || |prefix| > 0 then
      if |prefix| > 0 then EVMWordUint64(WORD_LENGTH * 2) + output else EVMWordUint64(WORD_LENGTH) + output
    else output
  }

  /** The arguments of the call, after the function selector, without ABIEncoding. */
  function PlainArguments(format: Format, prefix: seq<Byte>, word: seq<Byte>, output: seq<Byte>): seq<Byte> {
    prefix + GetTxData(format, prefix, word, output)
  }

  /** The same with ABIEncoding: five words and the offset, then the nested calldata. */
  function NestedArguments(prefix: seq<Byte>, txData: seq<Byte>): seq<Byte>
    requires |txData| < TWO_64
  {
    prefix + EVMWordUint64(WORD_LENGTH * 6) + EVMEncodeBytes(txData)
  }

  /** An offset word followed by an encoded byte string points at it iff it counts the head right. */
  lemma OffsetLeadsToBytes(prefix: seq<Byte>, offset: nat, input: seq<Byte>)
    requires offset < TWO_64 && |input| < TWO_64
    ensures ReadWord(prefix + EVMWordUint64(offset) + EVMEncodeBytes(input), |prefix|) == Some(offset)
    ensures offset == |prefix| + WORD_LENGTH ==>
              ReadArgument(prefix + EVMWordUint64(offset) + EVMEncodeBytes(input), |prefix|) == Some(input)
  {
    Uint64Word(offset);
    WordAt(prefix, EVMWordUint64(offset), EVMEncodeBytes(input));
    EncodeAndRead(prefix + EVMWordUint64(offset), input, []);
    assert prefix + EVMWordUint64(offset) + EVMEncodeBytes(input) + [] == prefix + EVMWordUint64(offset) + EVMEncodeBytes(input);
  }

  /** getTxData's offset points right behind the head iff the prefix is empty or one word long; then
      the argument is read back. */
  lemma PlainPayload(prefix: seq<Byte>, word: seq<Byte>, input: seq<Byte>)
    requires |input| < TWO_64
    ensures var arguments := PlainArguments(BytesFormat, prefix, word, EVMEncodeBytes(input));
            && ReadWord(arguments, |prefix|).Some?
            && (ReadWord(arguments, |prefix|) == Some(|prefix| + WORD_LENGTH) <==> |prefix| == 0 || |prefix| == WORD_LENGTH)
            && (|prefix| == 0 || |prefix| == WORD_LENGTH ==> ReadArgument(arguments, |prefix|) == Some(input))
  {
    var offset := if |prefix| > 0 then WORD_LENGTH * 2 else WORD_LENGTH;
    OffsetLeadsToBytes(prefix, offset, input);
    PlainLayout(prefix, word, EVMEncodeBytes(input));
  }

  /** With a prefix every format but the unspecified one is laid out like bytes. */
  lemma PrefixMakesBytes(format: Format, prefix: seq<Byte>, word: seq<Byte>, output: seq<Byte>)
    requires !format.Unspecified? && prefix != []
    ensures PlainArguments(format, prefix, word, output) == PlainArguments(BytesFormat, prefix, word, output)
  {
  }

  /** A number, a bool or a hash without a prefix is the one argument, and is read back from its place. */
  lemma OneWordPayload(word: seq<Byte>, output: seq<Byte>)
    requires |output| == WORD_LENGTH
    ensures var arguments := PlainArguments(OtherFormat, [], word, output);
            |arguments| == WORD_LENGTH && ReadWord(arguments, 0) == Some(FromBytes(output))
  {
    WordAt([], output, []);
    assert [] + output + [] == output == PlainArguments(OtherFormat, [], word, output);
  }

  /** With no format the result itself is the argument behind the prefix, however it would be encoded. */
  lemma UnspecifiedPayload(prefix: seq<Byte>, word: seq<Byte>, output: seq<Byte>)
    requires |word| == WORD_LENGTH
    ensures var arguments := PlainArguments(Unspecified, prefix, word, output);
            |arguments| == |prefix| + WORD_LENGTH && prefix <= arguments && ReadWord(arguments, |prefix|) == Some(FromBytes(word))
  {
    WordAt(prefix, word, []);
    assert prefix + word + [] == PlainArguments(Unspecified, prefix, word, output);
  }

  /** insertEthTx's offset of six words is right iff the prefix is five words; then a reader recovers
      exactly the nested calldata. */
  lemma NestedPayload(prefix: seq<Byte>, txData: seq<Byte>)
    requires |txData| < TWO_64
    ensures var arguments := NestedArguments(prefix, txData);
            && (ReadWord(arguments, |prefix|) == Some(|prefix| + WORD_LENGTH) <==> |prefix| == 5 * WORD_LENGTH)
            && (|prefix| == 5 * WORD_LENGTH ==> ReadArgument(arguments, |prefix|) == Some(txData) && |arguments| % WORD_LENGTH == 0)
  {
    OffsetLeadsToBytes(prefix, WORD_LENGTH * 6, txData);
    if |prefix| == 5 * WORD_LENGTH {
      NestedLength(prefix, txData);
    }
  }

  lemma NestedLength(prefix: seq<Byte>, txData: seq<Byte>)
    requires |txData| < TWO_64 && |prefix| == 5 * WORD_LENGTH
    ensures |NestedArguments(prefix, txData)| % WORD_LENGTH == 0
  {
    EncodedLength(txData);
    Uint64Word(WORD_LENGTH * 6);
    assert |NestedArguments(prefix, txData)| == 6 * WORD_LENGTH + |EVMEncodeBytes(txData)|;
    WholeWords(|EVMEncodeBytes(txData)|);
  }

  lemma WholeWords(length: nat)
    requires length % WORD_LENGTH == 0
    ensures (6 * WORD_LENGTH + length) % WORD_LENGTH == 0
  {
  }

  // ---- what a reader recovers under a prefix of any length ----

  /** The first n bytes of block repeated without end. */
  function Repeated(block: seq<Byte>, n: nat): seq<Byte>
    requires block != []
    decreases n
  {
    if n <= |block| then block[..n] else block + Repeated(block, n - |block|)
  }

  lemma {:induction false} OverlapIsRepetition(block: seq<Byte>, data: seq<Byte>)
    requires block != []
    ensures data <= block + data <==> data == Repeated(block, |data|)
    decreases |data|
  {
    if |data| > |block| {
      var rest := data[|block|..];
      OverlapIsRepetition(block, rest);
      if data <= block + data || data == Repeated(block, |data|) {
        assert data[..|block|] == block;
        assert data == block + rest;
        assert (block + data)[..|data|] == block + data[..|rest|];
      }
    }
  }

  lemma {:induction false} RepeatedStarts(block: seq<Byte>, m: nat, n: nat)
    requires block != [] && m <= n
    ensures Repeated(block, m) <= Repeated(block, n)
    decreases n
  {
    if m > |block| {
      RepeatedStarts(block, m - |block|, n - |block|);
    }
  }

  lemma ReadFurtherOn(before: seq<Byte>, data: seq<Byte>)
    ensures ReadBytes(before + data, |before|) == ReadBytes(data, 0)
  {
    var whole, at := before + data, |before|;
    assert |data| >= WORD_LENGTH ==> whole[at..at + WORD_LENGTH] == data[0..WORD_LENGTH];
    if ReadWord(data, 0).Some? {
      SliceFurtherOn(before, data, WORD_LENGTH, ReadWord(data, 0).value);
    }
  }

  lemma SliceFurtherOn(before: seq<Byte>, data: seq<Byte>, start: nat, length: nat)
    ensures var end := start + length + RoundToEVMWordBorder(length);
            end <= |data| ==>
              && (before + data)[|before| + start..|before| + start + length] == data[start..start + length]
              && (before + data)[|before| + start + length..|before| + end] == data[start + length..end]
  {
  }

  /** The reader recovers input exactly where its encoding stands. */
  lemma ReadIff(before: seq<Byte>, data: seq<Byte>, input: seq<Byte>)
    requires |input| < TWO_64
    ensures ReadBytes(before + data, |before|) == Some(input) <==> EVMEncodeBytes(input) <= data
  {
    ReadFurtherOn(before, data);
    if ReadBytes(data, 0) == Some(input) {
      ReadIsEncoded(data, input);
    }
    if EVMEncodeBytes(input) <= data {
      ReadInFront(input, data[|EVMEncodeBytes(input)|..]);
      assert data == EVMEncodeBytes(input) + data[|EVMEncodeBytes(input)|..];
    }
  }

  lemma NeverBeyond(data: seq<Byte>, at: nat, input: seq<Byte>)
    requires |input| < TWO_64 && |data| < at + |EVMEncodeBytes(input)|
    ensures ReadBytes(data, at) != Some(input)
  {
    EncodedLength(input);
  }

  /** What stands where the offset leads, behind a head of any length. */
  function Between(prefix: seq<Byte>, offset: nat): seq<Byte>
    requires offset < TWO_64 && offset <= |prefix + EVMWordUint64(offset)|
  {
    (prefix + EVMWordUint64(offset))[offset..]
  }

  lemma HeadLength(prefix: seq<Byte>, offset: nat)
    requires offset < TWO_64
    ensures |prefix + EVMWordUint64(offset)| == |prefix| + WORD_LENGTH
  {
    Uint64Word(offset);
  }

  lemma ReadBetween(head: seq<Byte>, offset: nat, input: seq<Byte>)
    requires offset < |head| && |input| < TWO_64
    ensures var encoded := EVMEncodeBytes(input);
            ReadBytes(head + encoded, offset) == Some(input) <==> encoded == Repeated(head[offset..], |encoded|)
  {
    var before, between, encoded := head[..offset], head[offset..], EVMEncodeBytes(input);
    assert head + encoded == before + (between + encoded);
    ReadIff(before, between + encoded, input);
    OverlapIsRepetition(between, encoded);
  }

  /** An argument behind any prefix is recovered iff its offset counts the head right, or counts too
      little and the encoding happens to repeat what stands between. */
  lemma RecoveredIff(prefix: seq<Byte>, offset: nat, input: seq<Byte>)
    requires offset < TWO_64 && |input| < TWO_64
    ensures |prefix + EVMWordUint64(offset)| == |prefix| + WORD_LENGTH
    ensures var encoded := EVMEncodeBytes(input);
            ReadArgument(prefix + EVMWordUint64(offset) + encoded, |prefix|) == Some(input) <==>
              || offset == |prefix| + WORD_LENGTH
              || (offset < |prefix| + WORD_LENGTH && encoded == Repeated(Between(prefix, offset), |encoded|))
  {
    var head, encoded := prefix + EVMWordUint64(offset), EVMEncodeBytes(input);
    HeadLength(prefix, offset);
    OffsetLeadsToBytes(prefix, offset, input);
    if offset > |head| {
      NeverBeyond(head + encoded, offset, input);
    } else if offset < |head| {
      ReadBetween(head, offset, input);
    }
  }

  /** getTxData's argument, for every prefix: recovered iff the prefix is empty or one word, or longer
      than a word and the encoding happens to repeat the rest of the head from its third word on. */
  lemma PlainRecovered(prefix: seq<Byte>, word: seq<Byte>, input: seq<Byte>)
    requires |input| < TWO_64
    ensures |prefix + EVMWordUint64(2 * WORD_LENGTH)| == |prefix| + WORD_LENGTH
    ensures var encoded := EVMEncodeBytes(input);
            ReadArgument(PlainArguments(BytesFormat, prefix, word, encoded), |prefix|) == Some(input) <==>
              || |prefix| == 0 || |prefix| == WORD_LENGTH
              || (|prefix| > WORD_LENGTH && encoded == Repeated(Between(prefix, 2 * WORD_LENGTH), |encoded|))
  {
    var offset := if |prefix| > 0 then WORD_LENGTH * 2 else WORD_LENGTH;
    HeadLength(prefix, 2 * WORD_LENGTH);
    RecoveredIff(prefix, offset, input);
    PlainLayout(prefix, word, EVMEncodeBytes(input));
  }

  lemma PlainLayout(prefix: seq<Byte>, word: seq<Byte>, output: seq<Byte>)
    ensures PlainArguments(BytesFormat, prefix, word, output)
            == prefix + EVMWordUint64(if |prefix| > 0 then WORD_LENGTH * 2 else WORD_LENGTH) + output
  {
    var offset := EVMWordUint64(if |prefix| > 0 then WORD_LENGTH * 2 else WORD_LENGTH);
    assert prefix + (offset + output) == prefix + offset + output;
  }

  /** The same for the nested calldata of insertEthTx, with five words in place of one. */
  lemma NestedRecovered(prefix: seq<Byte>, txData: seq<Byte>)
    requires |txData| < TWO_64
    ensures |prefix + EVMWordUint64(6 * WORD_LENGTH)| == |prefix| + WORD_LENGTH
    ensures var encoded := EVMEncodeBytes(txData);
            ReadArgument(NestedArguments(prefix, txData), |prefix|) == Some(txData) <==>
              || |prefix| == 5 * WORD_LENGTH
              || (|prefix| > 5 * WORD_LENGTH && encoded == Repeated(Between(prefix, 6 * WORD_LENGTH), |encoded|))
  {
    RecoveredIff(prefix, 6 * WORD_LENGTH, txData);
  }

  /** So a prefix that does not fit lets at most one input through. */
  lemma AtMostOneRecovered(prefix: seq<Byte>, word: seq<Byte>, a: seq<Byte>, b: seq<Byte>)
    requires |a| < TWO_64 && |b| < TWO_64 && |prefix| != 0 && |prefix| != WORD_LENGTH
    requires ReadArgument(PlainArguments(BytesFormat, prefix, word, EVMEncodeBytes(a)), |prefix|) == Some(a)
    requires ReadArgument(PlainArguments(BytesFormat, prefix, word, EVMEncodeBytes(b)), |prefix|) == Some(b)
    ensures a == b
  {
    PlainRecovered(prefix, word, a);
    PlainRecovered(prefix, word, b);
    if |EVMEncodeBytes(a)| <= |EVMEncodeBytes(b)| {
      OneRepeats(Between(prefix, 2 * WORD_LENGTH), a, b);
    } else {
      OneRepeats(Between(prefix, 2 * WORD_LENGTH), b, a);
    }
  }

  lemma OneRepeats(block: seq<Byte>, a: seq<Byte>, b: seq<Byte>)
    requires block != [] && |a| < TWO_64 && |b| < TWO_64 && |EVMEncodeBytes(a)| <= |EVMEncodeBytes(b)|
    requires EVMEncodeBytes(a) == Repeated(block, |EVMEncodeBytes(a)|)
    requires EVMEncodeBytes(b) == Repeated(block, |EVMEncodeBytes(b)|)
    ensures a == b
  {
    RepeatedStarts(block, |EVMEncodeBytes(a)|, |EVMEncodeBytes(b)|);
    var rest := EVMEncodeBytes(b)[|EVMEncodeBytes(a)|..];
    assert EVMEncodeBytes(a) + rest == EVMEncodeBytes(b) + [];
    EncodingIsPrefixFree(a, rest, b, []);
  }

  /** And a prefix of less than a word, or of less than eight bytes short of two, lets none through. */
  lemma ShortPrefixMisleads(prefix: seq<Byte>, word: seq<Byte>, input: seq<Byte>)
    requires |input| < TWO_64 && (0 < |prefix| < WORD_LENGTH || WORD_LENGTH < |prefix| <= 2 * WORD_LENGTH - 8)
    ensures ReadArgument(PlainArguments(BytesFormat, prefix, word, EVMEncodeBytes(input)), |prefix|) != Some(input)
  {
    PlainRecovered(prefix, word, input);
    if |prefix| > WORD_LENGTH {
      var between, encoded := Between(prefix, 2 * WORD_LENGTH), EVMEncodeBytes(input);
      var last := |between| - 1;
      Uint64Word(|input|);
      OffsetEndsIn(prefix);
      assert encoded[last] == 0;
      assert Repeated(between, |encoded|)[last] == between[last];
    }
  }

  lemma OffsetEndsIn(prefix: seq<Byte>)
    ensures |prefix + EVMWordUint64(2 * WORD_LENGTH)| == |prefix| + WORD_LENGTH
    ensures (prefix + EVMWordUint64(2 * WORD_LENGTH))[|prefix| + WORD_LENGTH - 1] == 64
  {
    HeadLength(prefix, 2 * WORD_LENGTH);
    assert ToBytes(64) == ToBytes(0) + [64];
  }

  /** With a prefix of two words the reader takes the offset word for the length: the one input that it
      recovers is that word, twice. */
  lemma TwoWordPrefixMisleads(prefix: seq<Byte>, word: seq<Byte>, input: seq<Byte>)
    requires |prefix| == 2 * WORD_LENGTH && |input| < TWO_64
    ensures ReadArgument(PlainArguments(BytesFormat, prefix, word, EVMEncodeBytes(input)), |prefix|) == Some(input) <==>
              input == EVMWordUint64(2 * WORD_LENGTH) + EVMWordUint64(2 * WORD_LENGTH)
  {
    PlainRecovered(prefix, word, input);
    BehindTwoWords(prefix);
    RepeatsTheOffset(input);
  }

  lemma RepeatsTheOffset(input: seq<Byte>)
    requires |input| < TWO_64 && EVMWordUint64(2 * WORD_LENGTH) != []
    ensures EVMEncodeBytes(input) == Repeated(EVMWordUint64(2 * WORD_LENGTH), |EVMEncodeBytes(input)|) <==>
              input == EVMWordUint64(2 * WORD_LENGTH) + EVMWordUint64(2 * WORD_LENGTH)
  {
    Uint64Word(2 * WORD_LENGTH);
    if EVMEncodeBytes(input) == Repeated(EVMWordUint64(2 * WORD_LENGTH), |EVMEncodeBytes(input)|) {
      LengthIsOffset(input);
    }
    if |input| == 2 * WORD_LENGTH {
      assert EVMEncodeBytes(input) == EVMWordUint64(2 * WORD_LENGTH) + input;
      ThreeTimes(EVMWordUint64(2 * WORD_LENGTH), input);
    }
  }

  lemma BehindTwoWords(prefix: seq<Byte>)
    requires |prefix| == 2 * WORD_LENGTH
    ensures |EVMWordUint64(2 * WORD_LENGTH)| == WORD_LENGTH && |prefix + EVMWordUint64(2 * WORD_LENGTH)| == 3 * WORD_LENGTH
    ensures Between(prefix, 2 * WORD_LENGTH) == EVMWordUint64(2 * WORD_LENGTH)
  {
    Uint64Word(2 * WORD_LENGTH);
  }

  lemma ThreeTimes(block: seq<Byte>, more: seq<Byte>)
    requires block != [] && |more| == 2 * |block|
    ensures block + more == Repeated(block, 3 * |block|) <==> more == block + block
  {
    assert Repeated(block, |block|) == block;
    assert Repeated(block, 2 * |block|) == block + block;
    assert Repeated(block, 3 * |block|) == block + (block + block);
    if block + more == block + (block + block) {
      SamePrefix(block, more, block + block);
    }
  }

  lemma LengthIsOffset(input: seq<Byte>)
    requires |input| < TWO_64 && EVMWordUint64(2 * WORD_LENGTH) != []
    requires EVMEncodeBytes(input) == Repeated(EVMWordUint64(2 * WORD_LENGTH), |EVMEncodeBytes(input)|)
    ensures |input| == 2 * WORD_LENGTH
  {
    Uint64Word(2 * WORD_LENGTH);
    Uint64Word(|input|);
    assert EVMEncodeBytes(input)[..WORD_LENGTH] == EVMWordUint64(|input|);
  }
}
