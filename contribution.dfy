/** The two contribution strategies: how much of a bet's stake goes into the pool.
    Both are pure: the stake, the current pool and the jackpot's configuration
    determine the amount, or a configuration error. */
module Contribution {
  import opened Model
  import opened Decimal

  /** Implementations a strategy kind can be bound to. */
  datatype Strategy = Fixed | Variable {
    function CalculateContribution(betAmount: real, currentPool: real, config: Option<JackpotConfig>): Result<real, Error> {
      match this
      case Fixed => FixedContribution(betAmount, currentPool, config)
      case Variable => VariableContribution(betAmount, currentPool, config)
    }
  }

  // Every 1000 units in the pool lower the variable rate by one decrease step
  // (`POOL_SCALING_FACTOR`); the rate never drops below 0.001. Both appear as
  // literals below so that the arithmetic stays linear.

  /** Fixed strategy: a fixed percentage of the stake, rounded HALF_UP to two places. */
  function FixedContribution(betAmount: real, currentPool: real, config: Option<JackpotConfig>): (r: Result<real, Error>)
    ensures r.Failure? <==> config.None? || config.value.contributionFixedPercentage == 0.0
    ensures r.Failure? ==> r.error == InvalidContributionConfig(FixedContributionStrategy)
    ensures r.Success? ==>
      IsHalfUpRounding(r.value, betAmount * config.value.contributionFixedPercentage, 100.0)
  {
    if config.None? || config.value.contributionFixedPercentage == 0.0 then
      Failure(InvalidContributionConfig(FixedContributionStrategy))
    else
      var amount := betAmount * config.value.contributionFixedPercentage;
      RoundToCents(amount);
      Success(RoundHalfUp(amount, 100.0))
  }

  /** How far the pool has pushed the rate down: the pool in thousands, rounded
      HALF_UP to four places, times the decrease rate. */
  function DecreaseFactor(currentPool: real, decreaseRate: real): real {
    RoundHalfUp(currentPool / 1000.0, 10000.0) * decreaseRate
  }

  /** The rate actually applied: the initial rate less the decrease factor, but never
      below the 0.001 floor. */
  function EffectivePercentage(currentPool: real, config: JackpotConfig): (p: real)
    ensures p >= 0.001
    ensures p >= config.contributionVariableInitialPercentage
                 - DecreaseFactor(currentPool, config.contributionVariableDecreaseRate)
    ensures p == 0.001 || p == config.contributionVariableInitialPercentage
                                - DecreaseFactor(currentPool, config.contributionVariableDecreaseRate)
  {
    var reduced := config.contributionVariableInitialPercentage
                   - DecreaseFactor(currentPool, config.contributionVariableDecreaseRate);
    if reduced >= 0.001 then reduced else 0.001
  }

  /** Variable strategy: the effective rate of the stake, rounded HALF_UP to two places. */
  function VariableContribution(betAmount: real, currentPool: real, config: Option<JackpotConfig>): (r: Result<real, Error>)
    ensures r.Failure? <==>
      || config.None?
      || config.value.contributionVariableInitialPercentage == 0.0
      || config.value.contributionVariableDecreaseRate == 0.0
    ensures r.Failure? ==> r.error == InvalidContributionConfig(VariableContributionStrategy)
    ensures r.Success? ==>
      IsHalfUpRounding(r.value, betAmount * EffectivePercentage(currentPool, config.value), 100.0)
  {
    if || config.None?
       || config.value.contributionVariableInitialPercentage == 0.0
       || config.value.contributionVariableDecreaseRate == 0.0
    then
      Failure(InvalidContributionConfig(VariableContributionStrategy))
    else
      var amount := betAmount * EffectivePercentage(currentPool, config.value);
      RoundToCents(amount);
      Success(RoundHalfUp(amount, 100.0))
  }

  /** The fixed strategy never looks at the pool. */
  lemma FixedContributionIgnoresPool(betAmount: real, pool1: real, pool2: real, config: Option<JackpotConfig>)
    ensures FixedContribution(betAmount, pool1, config) == FixedContribution(betAmount, pool2, config)
  {
  }

  /** With a positive decrease rate, a larger pool never raises the effective rate. */
  lemma EffectivePercentageNonIncreasing(pool1: real, pool2: real, config: JackpotConfig)
    requires pool1 <= pool2
    requires config.contributionVariableDecreaseRate > 0.0
    ensures EffectivePercentage(pool2, config) <= EffectivePercentage(pool1, config)
  {
    var rate := config.contributionVariableDecreaseRate;
    assert pool1 / 1000.0 <= pool2 / 1000.0;
    TenThousandthsRoundingMonotone(pool1 / 1000.0, pool2 / 1000.0);
    ScalePositive(RoundHalfUp(pool1 / 1000.0, 10000.0), RoundHalfUp(pool2 / 1000.0, 10000.0), rate);
    assert DecreaseFactor(pool1, rate) <= DecreaseFactor(pool2, rate);
  }

  /** A rounded contribution is never below zero when the stake is not. */
  lemma VariableContributionNonNegative(betAmount: real, currentPool: real, config: Option<JackpotConfig>)
    requires betAmount >= 0.0
    requires VariableContribution(betAmount, currentPool, config).Success?
    ensures VariableContribution(betAmount, currentPool, config).value >= 0.0
  {
    var p := EffectivePercentage(currentPool, config.value);
    assert betAmount * p >= 0.0;
  }
}
