/** core/services/gas_updater.go: a default gas price from a percentile of recent blocks. */
module GasUpdater {
  import opened Options
  import opened Bytes
  import opened Sequences

  /** The gas prices of a block's transactions. */
  type Block = seq<int>

  /** tx.GasPrice().Int64(). */
  function Int64(price: int): int {
    ToSigned(price, 0x8000_0000_0000_0000)
  }

  // ---- sort.Slice ----

  function Insert(x: int, sorted: seq<int>): seq<int> {
    if sorted == [] || x <= sorted[0] then [x] + sorted else [sorted[0]] + Insert(x, sorted[1..])
  }

  function Sort(s: seq<int>): seq<int> {
    if s == [] then [] else Insert(s[0], Sort(s[1..]))
  }

  predicate Sorted(s: seq<int>) {
    forall i, j :: 0 <= i < j < |s| ==> s[i] <= s[j]
  }

  lemma {:induction false} InsertKeeps(x: int, s: seq<int>)
    ensures multiset(Insert(x, s)) == multiset{x} + multiset(s)
  {
    if s != [] && x > s[0] {
      InsertKeeps(x, s[1..]);
      assert s == [s[0]] + s[1..];
    }
  }

  lemma {:induction false} InsertAtLeast(x: int, s: seq<int>, m: int)
    requires m <= x && forall i :: 0 <= i < |s| ==> m <= s[i]
    ensures forall i :: 0 <= i < |Insert(x, s)| ==> m <= Insert(x, s)[i]
  {
    if s != [] && x > s[0] {
      InsertAtLeast(x, s[1..], m);
    }
  }

  lemma {:induction false} InsertSorts(x: int, sorted: seq<int>)
    requires Sorted(sorted)
    ensures Sorted(Insert(x, sorted))
  {
    if sorted != [] && x > sorted[0] {
      InsertSorts(x, sorted[1..]);
      InsertAtLeast(x, sorted[1..], sorted[0]);
    }
  }

  lemma {:induction false} SortSorts(s: seq<int>)
    ensures Sorted(Sort(s)) && multiset(Sort(s)) == multiset(s)
  {
    if s != [] {
      SortSorts(s[1..]);
      InsertSorts(s[0], Sort(s[1..]));
      InsertKeeps(s[0], Sort(s[1..]));
      assert s == [s[0]] + s[1..];
    }
  }

  // ---- the percentile ----

  /** The low 64 bits, as a signed number: the price itself iff that is an int64. */
  lemma Int64Means(price: int)
    ensures -0x8000_0000_0000_0000 <= Int64(price) < 0x8000_0000_0000_0000 && (price - Int64(price)) % TWO_64 == 0
    ensures -0x8000_0000_0000_0000 <= price < 0x8000_0000_0000_0000 <==> Int64(price) == price
  {
  }

  function Prices(blocks: seq<Block>): seq<int> {
    if blocks == [] then [] else Prices(blocks[..|blocks| - 1]) + Truncated(blocks[|blocks| - 1])
  }

  function Truncated(block: Block): seq<int> {
    seq(|block|, i requires 0 <= i < |block| => Int64(block[i]))
  }

  function Index(n: nat, percentile: int): int {
    (n - 1) * percentile / 100
  }

  lemma IndexInRange(n: nat, percentile: int)
    requires n >= 1 && 0 <= percentile <= 100
    ensures 0 <= Index(n, percentile) < n
  {
    assert 0 <= (n - 1) * percentile <= (n - 1) * 100;
  }

  /** The rank asked for is the percentile of the last rank, rounded down. */
  lemma IndexRoundsDown(n: nat, percentile: int, k: int)
    ensures k == Index(n, percentile) <==> 100 * k <= (n - 1) * percentile < 100 * (k + 1)
  {
  }

  function CountBelow(s: seq<int>, x: int): nat {
    if s == [] then 0 else (if s[0] < x then 1 else 0) + CountBelow(s[1..], x)
  }

  function CountUpTo(s: seq<int>, x: int): nat {
    if s == [] then 0 else (if s[0] <= x then 1 else 0) + CountUpTo(s[1..], x)
  }

  /** price is the k-th smallest of prices, counting from 0. */
  ghost predicate OrderStatistic(prices: seq<int>, k: int, price: int) {
    price in prices && CountBelow(prices, price) <= k < CountUpTo(prices, price)
  }

  lemma {:induction false} InsertCounts(x: int, sorted: seq<int>, y: int)
    ensures CountBelow(Insert(x, sorted), y) == (if x < y then 1 else 0) + CountBelow(sorted, y)
    ensures CountUpTo(Insert(x, sorted), y) == (if x <= y then 1 else 0) + CountUpTo(sorted, y)
  {
    if sorted != [] && x > sorted[0] {
      InsertCounts(x, sorted[1..], y);
      var r := Insert(x, sorted);
      assert r[0] == sorted[0] && r[1..] == Insert(x, sorted[1..]);
    } else {
      assert Insert(x, sorted)[1..] == sorted;
    }
  }

  lemma {:induction false} SortKeepsCounts(s: seq<int>, y: int)
    ensures CountBelow(Sort(s), y) == CountBelow(s, y) && CountUpTo(Sort(s), y) == CountUpTo(s, y)
  {
    if s != [] {
      SortKeepsCounts(s[1..], y);
      InsertCounts(s[0], Sort(s[1..]), y);
    }
  }

  lemma {:induction false} SortedCounts(s: seq<int>, k: nat)
    requires Sorted(s) && k < |s|
    ensures CountBelow(s, s[k]) <= k < CountUpTo(s, s[k])
  {
    if k > 0 {
      SortedCounts(s[1..], k - 1);
      assert s[0] <= s[k];
    } else {
      NoneBelow(s, s[0]);
    }
  }

  lemma {:induction false} NoneBelow(s: seq<int>, x: int)
    requires forall i :: 0 <= i < |s| ==> x <= s[i]
    ensures CountBelow(s, x) == 0
  {
    if s != [] {
      NoneBelow(s[1..], x);
    }
  }

  /** Indexing the sorted prices picks the order statistic of the prices themselves. */
  lemma SortedIsOrderStatistic(prices: seq<int>, k: nat)
    requires k < |prices|
    ensures |Sort(prices)| == |prices| && OrderStatistic(prices, k, Sort(prices)[k])
  {
    SortSorts(prices);
    SameSize(Sort(prices), prices);
    SortedCounts(Sort(prices), k);
    SortKeepsCounts(prices, Sort(prices)[k]);
    assert Sort(prices)[k] in multiset(prices);
  }

  lemma SameSize(a: seq<int>, b: seq<int>)
    requires multiset(a) == multiset(b)
    ensures |a| == |b|
  {
    assert |multiset(a)| == |a| && |multiset(b)| == |b|;
  }

  /** There is only one k-th smallest price. */
  lemma {:induction false} OrderStatisticIsUnique(prices: seq<int>, k: int, a: int, b: int)
    requires OrderStatistic(prices, k, a) && OrderStatistic(prices, k, b)
    ensures a == b
  {
    if a < b {
      UpToIsBelow(prices, a, b);
    } else if b < a {
      UpToIsBelow(prices, b, a);
    }
  }

  lemma {:induction false} CountIff(s: seq<int>, x: int)
    ensures CountBelow(s, x) <= |s| && CountUpTo(s, x) <= |s|
    ensures CountBelow(s, x) == 0 <==> forall y :: y in s ==> x <= y
    ensures CountUpTo(s, x) == |s| <==> forall y :: y in s ==> y <= x
  {
    if s != [] {
      CountIff(s[1..], x);
      assert s[0] in s && forall y :: y in s[1..] ==> y in s;
      assert forall y :: y in s ==> y == s[0] || y in s[1..];
    }
  }

  /** Percentile 0 asks for the smallest price, and 100 for the largest. */
  lemma ExtremePercentiles(prices: seq<int>, price: int)
    requires prices != []
    ensures OrderStatistic(prices, Index(|prices|, 0), price) <==> price in prices && forall y :: y in prices ==> price <= y
    ensures OrderStatistic(prices, Index(|prices|, 100), price) <==> price in prices && forall y :: y in prices ==> y <= price
  {
    CountIff(prices, price);
    if price in prices {
      InBetween(prices, price);
    }
  }

  lemma {:induction false} InBetween(s: seq<int>, x: int)
    requires x in s
    ensures CountBelow(s, x) < CountUpTo(s, x)
  {
    BelowIsUpTo(s, x);
    if s[0] != x {
      InBetween(s[1..], x);
    } else {
      BelowIsUpTo(s[1..], x);
    }
  }

  lemma {:induction false} BelowIsUpTo(s: seq<int>, x: int)
    ensures CountBelow(s, x) <= CountUpTo(s, x)
  {
    if s != [] {
      BelowIsUpTo(s[1..], x);
    }
  }

  lemma {:induction false} UpToIsBelow(s: seq<int>, a: int, b: int)
    requires a < b
    ensures CountUpTo(s, a) <= CountBelow(s, b)
  {
    if s != [] {
      UpToIsBelow(s[1..], a, b);
    }
  }

  // ---- the updater ----

  lemma {:induction false} SomePrice(blocks: seq<Block>)
    requires blocks != [] && forall b :: b in blocks ==> b != []
    ensures Prices(blocks) != []
  {
    assert blocks[|blocks| - 1] in blocks;
    assert |Truncated(blocks[|blocks| - 1])| == |blocks[|blocks| - 1]|;
  }

  class Updater {
    const size: nat
    const blockDelay: int
    const percentile: int
    const maxPrice: int
    const enabled: bool
    var rollingBlockHistory: seq<Block>
    var defaultPrice: int
    ghost var fetched: seq<Block>  // every non-empty block fetched so far

    /** rollingBlockHistory is exactly the last size blocks that were not empty. */
    ghost predicate Valid()
      reads this
    {
      && 1 <= size && 0 <= percentile <= 100
      && rollingBlockHistory == LastOf(fetched, size)
      && forall b :: b in fetched ==> b != []
    }

    constructor (size: nat, blockDelay: int, percentile: int, maxPrice: int, enabled: bool, defaultPrice: int)
      requires 1 <= size && 0 <= percentile <= 100
      ensures Valid() && fetched == [] && this.defaultPrice == defaultPrice
      ensures this.size == size && this.percentile == percentile && this.maxPrice == maxPrice
    {
      this.size, this.blockDelay, this.percentile, this.maxPrice, this.enabled := size, blockDelay, percentile, maxPrice, enabled;
      this.defaultPrice, rollingBlockHistory, fetched := defaultPrice, [], [];
    }

    /** percentileGasPrice: the indexing never fails. */
    method PercentileGasPrice() returns (price: int)
      requires 0 <= percentile <= 100 && rollingBlockHistory != [] && forall b :: b in rollingBlockHistory ==> b != []
      ensures var prices := Prices(rollingBlockHistory);
              prices != [] && OrderStatistic(prices, Index(|prices|, percentile), price)
    {
      var gasPrices := [];
      for i := 0 to |rollingBlockHistory|
        invariant gasPrices == Prices(rollingBlockHistory[..i])
      {
        assert rollingBlockHistory[..i + 1][..i] == rollingBlockHistory[..i];
        ghost var before := gasPrices;
        for j := 0 to |rollingBlockHistory[i]|
          invariant gasPrices == before + Truncated(rollingBlockHistory[i])[..j]
        {
          gasPrices := gasPrices + [Int64(rollingBlockHistory[i][j])];
        }
        assert Truncated(rollingBlockHistory[i])[..|rollingBlockHistory[i]|] == Truncated(rollingBlockHistory[i]);
      }
      assert rollingBlockHistory[..|rollingBlockHistory|] == rollingBlockHistory;
      SomePrice(rollingBlockHistory);
      var sorted := Sort(gasPrices);
      var idx := (|gasPrices| - 1) * percentile / 100;
      IndexInRange(|gasPrices|, percentile);
      SortedIsOrderStatistic(gasPrices, idx);
      for i := 0 to 21 {
        IndexInRange(|gasPrices|, i * 5);
        var shown := sorted[(|gasPrices| - 1) * (i * 5) / 100];
      }
      price := sorted[idx];
    }

    /** setPercentileGasPrice; storable says whether SetEthGasPriceDefault can save the price. */
    method SetPercentileGasPrice(gasPrice: int, storable: bool) returns (ok: bool)
      modifies this`defaultPrice
      ensures ok <==> gasPrice <= maxPrice && storable
      ensures defaultPrice == if ok then gasPrice else old(defaultPrice)
    {
      if gasPrice > maxPrice {
        return false;
      }
      ok := storable;
      if ok {
        defaultPrice := gasPrice;
      }
    }

    /** OnNewLongestChain; block is what the node returned for the delayed block, if anything. The
        default changes exactly when such a block comes in after at least size others, to the
        percentile of the last size of them, if the limit allows and the price can be stored. */
    method OnNewLongestChain(number: int, block: Option<Block>, storable: bool) returns (done: bool)
      requires Valid()
      modifies this
      ensures Valid()
      ensures fetched == if enabled && number >= blockDelay && block.Some? && block.value != [] then old(fetched) + [block.value] else old(fetched)
      ensures done ==>
                && fetched != old(fetched) && |fetched| > size && defaultPrice <= maxPrice
                && var prices := Prices(LastOf(fetched, size)); OrderStatistic(prices, Index(|prices|, percentile), defaultPrice)
      ensures fetched != old(fetched) && |fetched| > size ==>
                var prices := Prices(LastOf(fetched, size));
                exists price :: OrderStatistic(prices, Index(|prices|, percentile), price) && (done <==> price <= maxPrice && storable)
      ensures !done ==> defaultPrice == old(defaultPrice)
    {
      if !enabled {
        return false;
      }
      var blockToFetch := number - blockDelay;
      if blockToFetch < 0 {
        return false;
      }
      if block.None? {
        return false;
      }
      done := false;
      if |block.value| > 0 {
        rollingBlockHistory := rollingBlockHistory + [block.value];
        fetched := fetched + [block.value];
        if |rollingBlockHistory| > size {
          rollingBlockHistory := rollingBlockHistory[1..];
          assert rollingBlockHistory == LastOf(fetched, size);
          assert forall b :: b in rollingBlockHistory ==> b in fetched;
          var price := PercentileGasPrice();
          done := SetPercentileGasPrice(price, storable);
        }
      }
    }
  }

  /** An empty history cannot be indexed: with a window of size 0 the first block would be dropped
      again before the percentile is taken. */
  lemma EmptyWindowHasNoPercentile(block: Block, percentile: int)
    ensures Prices(LastOf([block], 0)) == []
    ensures forall k, price :: !OrderStatistic(Prices(LastOf([block], 0)), k, price)
  {
  }
}
