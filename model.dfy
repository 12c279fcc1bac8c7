/** Value types of the jackpot engine: bets, jackpots, their configuration,
    the two history records, the two strategy enums and the error taxonomy.
    Monetary amounts and rates are exact decimals, represented as `real`. */
module Model {

  datatype Option<+T> = None | Some(value: T)

  /** Outcome of an operation that may fail (a Reactor error signal). */
  datatype Result<+T, +E> = Success(value: T) | Failure(error: E)

  /** Outcome of an operation that yields no value on success (`Mono<Void>`). */
  datatype Outcome<+E> = Pass | Fail(error: E)

  /** `LocalDateTime.now()` is read outside the model; a timestamp is an opaque value. */
  datatype Timestamp = Timestamp(ticks: int)

  /** A draw of `java.util.Random.nextDouble()`: uniform in [0, 1). */
  type Draw = d: real | 0.0 <= d < 1.0 witness 0.0

  datatype ContributionStrategyType =
    | FixedContributionStrategy
    | VariableContributionStrategy
    | DefaultContributionStrategy
  {
    /** The bean name under which the implementation of this kind would be registered. */
    function Value(): string {
      match this
      case FixedContributionStrategy => "fixedContributionStrategy"
      case VariableContributionStrategy => "variableContributionStrategy"
      case DefaultContributionStrategy => "defaultContributionStrategy"
    }
  }

  datatype RewardStrategyType =
    | FixedChanceRewardStrategy
    | VariableChanceRewardStrategy
    | DefaultChanceRewardStrategy
  {
    function Value(): string {
      match this
      case FixedChanceRewardStrategy => "fixedChanceRewardStrategy"
      case VariableChanceRewardStrategy => "variableChanceRewardStrategy"
      case DefaultChanceRewardStrategy => "defaultChanceRewardStrategy"
    }
  }

  /** Strategy kinds and their parameters; the chance limit is a nullable decimal. */
  datatype JackpotConfig = JackpotConfig(
    contributionStrategyType: ContributionStrategyType,
    rewardStrategyType: RewardStrategyType,
    contributionFixedPercentage: real,
    contributionVariableInitialPercentage: real,
    contributionVariableDecreaseRate: real,
    rewardFixedChancePercentage: real,
    rewardVariableInitialChance: real,
    rewardVariableIncreaseRate: real,
    rewardVariableChanceLimit: Option<real>)

  /** A jackpot; its configuration reference may be null. */
  datatype Jackpot = Jackpot(
    jackpotId: string,
    currentPoolAmount: real,
    initialPoolValue: real,
    config: Option<JackpotConfig>,
    createdAt: Timestamp)

  datatype Bet = Bet(
    betId: string,
    userId: string,
    jackpotId: string,
    betAmount: real,
    createdAt: Timestamp)

  datatype JackpotContribution = JackpotContribution(
    betId: string,
    userId: string,
    jackpotId: string,
    stakeAmount: real,
    contributionAmount: real,
    currentJackpotAmountAfterContribution: real,
    createdAt: Timestamp)

  datatype JackpotReward = JackpotReward(
    betId: string,
    userId: string,
    jackpotId: string,
    jackpotRewardAmount: real,
    createdAt: Timestamp)

  datatype ExceptionClass = IllegalArgumentException | IllegalStateException

  /** Every failure the core signals, with the Java exception class that carries it. */
  datatype Error =
    | JackpotNotFound(jackpotId: string)
    | MissingConfig(jackpotId: string)
    | NoContributionStrategy(contributionKind: ContributionStrategyType)
    | NoRewardStrategy(rewardKind: RewardStrategyType)
    | InvalidContributionConfig(strategy: ContributionStrategyType)
    | UpdateTargetNotFound(jackpotId: string)
    | DisappearedDuringUpdate(jackpotId: string)
    | UpdateRetriesExhausted(jackpotId: string, retries: nat)
  {
    function Exception(): ExceptionClass {
      match this
      case MissingConfig(_) => IllegalStateException
      case DisappearedDuringUpdate(_) => IllegalStateException
      case UpdateRetriesExhausted(_, _) => IllegalStateException
      case _ => IllegalArgumentException
    }
  }

  /** The fields of a jackpot that only its creation sets. */
  predicate SameStatic(a: Jackpot, b: Jackpot) {
    && a.jackpotId == b.jackpotId
    && a.initialPoolValue == b.initialPoolValue
    && a.config == b.config
    && a.createdAt == b.createdAt
  }
}
