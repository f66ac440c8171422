/** Gas bumping: core/services/bulletprooftxmanager/bulletprooftxmanager.go. */
module GasPrice {
  /** ETH_GAS_BUMP_PERCENT, ETH_GAS_BUMP_WEI and ETH_MAX_GAS_PRICE_WEI. */
  datatype GasConfig = GasConfig(bumpPercent: nat, bumpWei: int, maxWei: int)

  datatype Bump =
    | Bumped(price: int)
    | ExceedsLimit(limit: int)
    | NotHigher(price: int)

  function Max(a: int, b: int): int {
    if a >= b then a else b
  }

  function Percentage(config: GasConfig, price: int): int {
    price * (100 + config.bumpPercent) / 100
  }

  /** default is the node's current default gas price, which may move between two calls. */
  function BumpGas(config: GasConfig, default: int, original: int): Bump {
    var baseline := Max(original, default);
    var bumped := Max(Percentage(config, baseline), baseline + config.bumpWei);
    if bumped > config.maxWei then ExceedsLimit(config.maxWei)
    else if bumped == original then NotHigher(bumped)
    else Bumped(bumped)
  }

  /** A price is enough when it is a full percentage bump, rounded down to whole wei, and a full fixed
      bump over both the previous price and the node's default. */
  ghost predicate Sufficient(config: GasConfig, default: int, original: int, price: int) {
    Covers(config, original, price) && Covers(config, default, price)
  }

  ghost predicate Covers(config: GasConfig, base: int, price: int) {
    base * (100 + config.bumpPercent) < 100 * (price + 1) && base + config.bumpWei <= price
  }

  ghost predicate LeastSufficient(config: GasConfig, default: int, original: int, price: int) {
    && Sufficient(config, default, original, price)
    && forall p :: Sufficient(config, default, original, p) ==> price <= p
  }

  /** price is what a successful bump of original makes, when default is the node's default price. */
  ghost predicate Raised(config: GasConfig, default: int, original: int, price: int) {
    LeastSufficient(config, default, original, price) && price <= config.maxWei && price != original
  }

  /** No price within the limit is enough. */
  ghost predicate NoneWithinLimit(config: GasConfig, default: int, original: int) {
    forall p :: Sufficient(config, default, original, p) ==> p > config.maxWei
  }

  lemma PercentageRoundsDown(config: GasConfig, base: int, price: int)
    ensures Percentage(config, base) <= price <==> base * (100 + config.bumpPercent) < 100 * (price + 1)
  {
    var product := base * (100 + config.bumpPercent);
    assert product == 100 * (product / 100) + product % 100;
  }

  lemma HigherBase(config: GasConfig, low: int, high: int, price: int)
    requires low <= high && Covers(config, high, price)
    ensures Covers(config, low, price)
  {
    var factor := 100 + config.bumpPercent;
    assert low * factor <= high * factor;
  }

  /** The larger of the two bumps of the larger of the two bases is the least price that is enough. */
  lemma LargestIsLeast(config: GasConfig, default: int, original: int)
    ensures var baseline := Max(original, default);
            LeastSufficient(config, default, original, Max(Percentage(config, baseline), baseline + config.bumpWei))
  {
    var baseline := Max(original, default);
    var least := Max(Percentage(config, baseline), baseline + config.bumpWei);
    PercentageRoundsDown(config, baseline, least);
    HigherBase(config, original, baseline, least);
    HigherBase(config, default, baseline, least);
    forall p | Sufficient(config, default, original, p)
      ensures least <= p
    {
      PercentageRoundsDown(config, baseline, p);
    }
  }

  /** BumpGas finds the least sufficient price, and fails exactly when that price is over the
      limit or no higher than the original. */
  lemma BumpIsLeastSufficient(config: GasConfig, default: int, original: int, price: int)
    ensures BumpGas(config, default, original) == Bumped(price) <==> Raised(config, default, original, price)
    ensures config.bumpWei >= 1 ==>
              (!BumpGas(config, default, original).Bumped? <==> NoneWithinLimit(config, default, original))
  {
    LargestIsLeast(config, default, original);
  }

  /** A successful bump is a raise of at least ETH_GAS_BUMP_WEI that respects the limit; with a
      positive ETH_GAS_BUMP_WEI exceeding the limit is the only way to fail. */
  lemma BumpRaises(config: GasConfig, default: int, original: int)
    ensures var bump := BumpGas(config, default, original);
            && (bump.Bumped? ==> original + config.bumpWei <= bump.price <= config.maxWei && bump.price != original)
            && (bump.Bumped? && config.bumpWei >= 0 ==> original < bump.price)
            && (config.bumpWei >= 1 ==> !bump.NotHigher?)
  {
  }

  /** How far a price can still rise. */
  function Headroom(config: GasConfig, price: int): nat {
    if price < config.maxWei then config.maxWei - price else 0
  }

  /** bumps replacements fit between price and the limit. */
  predicate Paid(config: GasConfig, bumps: nat, price: int) {
    bumps == 0 || price + bumps * config.bumpWei <= config.maxWei
  }

  lemma OneMoreBump(config: GasConfig, more: nat, default: int, higher: int, lower: int)
    requires Paid(config, more, higher) && Raised(config, default, lower, higher)
    ensures Paid(config, more + 1, lower)
  {
    assert Covers(config, lower, higher);
    assert (more + 1) * config.bumpWei == more * config.bumpWei + config.bumpWei;
  }

  /** Every replacement in an unbroken chain of bumps uses up ETH_GAS_BUMP_WEI below the limit,
      whatever the default price was each time: at most (limit - first) / bump replacements. */
  lemma {:induction false} ReplacementsAreBounded(config: GasConfig, defaults: seq<int>, prices: seq<int>)
    requires config.bumpWei >= 1 && |prices| == |defaults| + 1
    requires forall i :: 0 <= i < |defaults| ==> BumpGas(config, defaults[i], prices[i]) == Bumped(prices[i + 1])
    ensures defaults != [] ==> prices[0] + |defaults| * config.bumpWei <= config.maxWei
    decreases |defaults|
  {
    if defaults != [] {
      ReplacementsAreBounded(config, defaults[1..], prices[1..]);
      BumpIsLeastSufficient(config, defaults[0], prices[0], prices[1]);
      OneMoreBump(config, |defaults| - 1, defaults[0], prices[1], prices[0]);
    }
  }
}
