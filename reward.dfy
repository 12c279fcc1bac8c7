/** The two reward strategies: whether a bet wins the jackpot. The random draw
    (`Random.nextDouble()`) is a parameter, so each strategy is a pure function
    of the stake, the pool, the configuration and the draw. A configuration the
    strategy cannot use makes the bet lose; it is never an error. */
module Reward {
  import opened Model
  import opened Decimal

  /** Implementations a strategy kind can be bound to. */
  datatype Strategy = FixedChance | VariableChance {
    function CheckWin(betAmount: real, currentPool: real, config: Option<JackpotConfig>, draw: Draw): bool {
      match this
      case FixedChance => FixedChanceCheckWin(betAmount, currentPool, config, draw)
      case VariableChance => VariableChanceCheckWin(betAmount, currentPool, config, draw)
    }
  }

  /** The fixed-chance strategy can use the configuration: it has a positive chance. */
  predicate FixedChanceUsable(config: Option<JackpotConfig>) {
    config.Some? && config.value.rewardFixedChancePercentage > 0.0
  }

  /** Fixed chance: the bet wins when the draw falls below the configured chance. */
  function FixedChanceCheckWin(betAmount: real, currentPool: real, config: Option<JackpotConfig>, draw: Draw): (wins: bool)
    ensures !FixedChanceUsable(config) ==> !wins
    ensures FixedChanceUsable(config) ==> (wins <==> draw < config.value.rewardFixedChancePercentage)
  {
    if !FixedChanceUsable(config) then false
    else draw < config.value.rewardFixedChancePercentage
  }

  /** The variable-chance strategy can use the configuration: positive initial chance
      and increase rate, and a chance limit that is set. */
  predicate VariableChanceUsable(config: Option<JackpotConfig>) {
    && config.Some?
    && config.value.rewardVariableInitialChance > 0.0
    && config.value.rewardVariableIncreaseRate > 0.0
    && config.value.rewardVariableChanceLimit.Some?
  }

  /** How far the pool has pushed the chance up: the pool in thousands, rounded
      HALF_UP to four places, times the increase rate. */
  function IncreaseFactor(currentPool: real, increaseRate: real): real {
    RoundHalfUp(currentPool / 1000.0, 10000.0) * increaseRate
  }

  /** The chance below the limit: the initial chance raised by the increase factor,
      capped at certainty. */
  function EffectiveChance(currentPool: real, config: JackpotConfig): (c: real)
    ensures c <= 1.0
    ensures c <= config.rewardVariableInitialChance
                 + IncreaseFactor(currentPool, config.rewardVariableIncreaseRate)
    ensures c == 1.0 || c == config.rewardVariableInitialChance
                              + IncreaseFactor(currentPool, config.rewardVariableIncreaseRate)
  {
    var raised := config.rewardVariableInitialChance
                  + IncreaseFactor(currentPool, config.rewardVariableIncreaseRate);
    if raised <= 1.0 then raised else 1.0
  }

  /** Variable chance: a pool at or above the limit always wins; below it the bet
      wins when the draw falls below the effective chance. */
  function VariableChanceCheckWin(betAmount: real, currentPool: real, config: Option<JackpotConfig>, draw: Draw): (wins: bool)
    ensures !VariableChanceUsable(config) ==> !wins
    ensures VariableChanceUsable(config) && currentPool >= config.value.rewardVariableChanceLimit.value ==> wins
    ensures VariableChanceUsable(config) && currentPool < config.value.rewardVariableChanceLimit.value ==>
      (wins <==> draw < EffectiveChance(currentPool, config.value))
  {
    if !VariableChanceUsable(config) then false
    else if currentPool >= config.value.rewardVariableChanceLimit.value then true
    else draw < EffectiveChance(currentPool, config.value)
  }

  /** A fixed chance of one or more is a certain win, whatever the draw. */
  lemma FixedChanceCertain(betAmount: real, currentPool: real, config: Option<JackpotConfig>, draw: Draw)
    requires config.Some? && config.value.rewardFixedChancePercentage >= 1.0
    ensures FixedChanceCheckWin(betAmount, currentPool, config, draw)
  {
  }

  /** Winning is monotone in the draw: a smaller draw wins whenever a larger one does. */
  lemma FixedChanceDrawMonotone(betAmount: real, currentPool: real, config: Option<JackpotConfig>, d1: Draw, d2: Draw)
    requires d1 <= d2
    requires FixedChanceCheckWin(betAmount, currentPool, config, d2)
    ensures FixedChanceCheckWin(betAmount, currentPool, config, d1)
  {
  }

  /** Winning is monotone in the chance: a draw that wins at one chance wins at any
      higher chance. */
  lemma FixedChanceMonotoneInChance(betAmount: real, currentPool: real, config: JackpotConfig, higher: real, draw: Draw)
    requires config.rewardFixedChancePercentage <= higher
    requires FixedChanceCheckWin(betAmount, currentPool, Some(config), draw)
    ensures FixedChanceCheckWin(betAmount, currentPool, Some(config.(rewardFixedChancePercentage := higher)), draw)
  {
  }

  /** The fixed-chance decision does not look at the pool. */
  lemma FixedChanceIgnoresPool(betAmount: real, pool1: real, pool2: real, config: Option<JackpotConfig>, draw: Draw)
    ensures FixedChanceCheckWin(betAmount, pool1, config, draw) == FixedChanceCheckWin(betAmount, pool2, config, draw)
  {
  }

  /** With a positive increase rate, a larger pool never lowers the effective chance. */
  lemma EffectiveChanceNonDecreasing(pool1: real, pool2: real, config: JackpotConfig)
    requires pool1 <= pool2
    requires config.rewardVariableIncreaseRate > 0.0
    ensures EffectiveChance(pool1, config) <= EffectiveChance(pool2, config)
  {
    var rate := config.rewardVariableIncreaseRate;
    assert pool1 / 1000.0 <= pool2 / 1000.0;
    TenThousandthsRoundingMonotone(pool1 / 1000.0, pool2 / 1000.0);
    ScalePositive(RoundHalfUp(pool1 / 1000.0, 10000.0), RoundHalfUp(pool2 / 1000.0, 10000.0), rate);
    assert IncreaseFactor(pool1, rate) <= IncreaseFactor(pool2, rate);
  }

  /** For the same draw, a bet that wins against a pool also wins against any larger
      pool: the chance only grows with the pool, and the limit makes it certain. */
  lemma VariableChanceWinMonotoneInPool(betAmount: real, pool1: real, pool2: real,
                                        config: Option<JackpotConfig>, draw: Draw)
    requires pool1 <= pool2
    requires VariableChanceCheckWin(betAmount, pool1, config, draw)
    ensures VariableChanceCheckWin(betAmount, pool2, config, draw)
  {
    if pool2 < config.value.rewardVariableChanceLimit.value {
      EffectiveChanceNonDecreasing(pool1, pool2, config.value);
    }
  }

  /** The stake never influences either strategy. */
  lemma CheckWinIgnoresStake(s: Strategy, bet1: real, bet2: real, currentPool: real,
                             config: Option<JackpotConfig>, draw: Draw)
    ensures s.CheckWin(bet1, currentPool, config, draw) == s.CheckWin(bet2, currentPool, config, draw)
  {
  }
}
