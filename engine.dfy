/** The jackpot engine: contributing a bet to its jackpot, evaluating it for a
    win, and the consumer that does both in order.

    `Contribute`, `Evaluate` and `Consume` define each operation on a value of
    the engine's state; the `JackpotService` class performs them on its three
    repositories and is proved to agree with them. */
module Engine {
  import opened Model
  import opened JackpotStore
  import C = Contribution
  import R = Reward
  import CH = ContributionHistory
  import RH = RewardHistory
  import HistoryKey

  /** Contribution implementations by bean name; the default kind has none. */
  const ContributionStrategies: map<string, C.Strategy> :=
    map["fixedContributionStrategy" := C.Fixed, "variableContributionStrategy" := C.Variable]

  /** Reward implementations by bean name; the default kind has none. */
  const RewardStrategies: map<string, R.Strategy> :=
    map["fixedChanceRewardStrategy" := R.FixedChance, "variableChanceRewardStrategy" := R.VariableChance]

  /** The contribution implementation registered for a strategy kind. */
  function ContributionStrategyFor(kind: ContributionStrategyType): (s: Option<C.Strategy>)
    ensures kind == FixedContributionStrategy ==> s == Some(C.Fixed)
    ensures kind == VariableContributionStrategy ==> s == Some(C.Variable)
    ensures kind == DefaultContributionStrategy ==> s == None
  {
    if kind.Value() in ContributionStrategies then Some(ContributionStrategies[kind.Value()]) else None
  }

  /** The reward implementation registered for a strategy kind. */
  function RewardStrategyFor(kind: RewardStrategyType): (s: Option<R.Strategy>)
    ensures kind == FixedChanceRewardStrategy ==> s == Some(R.FixedChance)
    ensures kind == VariableChanceRewardStrategy ==> s == Some(R.VariableChance)
    ensures kind == DefaultChanceRewardStrategy ==> s == None
  {
    if kind.Value() in RewardStrategies then Some(RewardStrategies[kind.Value()]) else None
  }

  /** The engine's state: the jackpot store and the two histories. */
  datatype EngineState = EngineState(
    jackpots: map<string, Jackpot>,
    contributions: map<string, JackpotContribution>,
    rewards: map<string, JackpotReward>)

  /** The jackpot a bet targets, provided it exists and has a configuration. */
  function FindConfigured(jackpots: map<string, Jackpot>, jackpotId: string): (r: Result<Jackpot, Error>)
    ensures r.Success? <==> jackpotId in jackpots && jackpots[jackpotId].config.Some?
    ensures r.Success? ==> r.value == jackpots[jackpotId]
    ensures jackpotId !in jackpots ==> r == Failure(JackpotNotFound(jackpotId))
    ensures jackpotId in jackpots && jackpots[jackpotId].config.None? ==>
              r == Failure(MissingConfig(jackpots[jackpotId].jackpotId))
  {
    if jackpotId !in jackpots then Failure(JackpotNotFound(jackpotId))
    else if jackpots[jackpotId].config.None? then Failure(MissingConfig(jackpots[jackpotId].jackpotId))
    else Success(jackpots[jackpotId])
  }

  /** What a contribution reads before it writes: the jackpot and the amount its
      strategy computes, or the error that stops it. */
  function PlanContribution(jackpots: map<string, Jackpot>, bet: Bet): (r: Result<(Jackpot, real), Error>)
    ensures r.Success? ==> bet.jackpotId in jackpots && r.value.0 == jackpots[bet.jackpotId] && r.value.0.config.Some?
  {
    match FindConfigured(jackpots, bet.jackpotId)
    case Failure(e) => Failure(e)
    case Success(jackpot) =>
      var kind := jackpot.config.value.contributionStrategyType;
      match ContributionStrategyFor(kind)
      case None => Failure(NoContributionStrategy(kind))
      case Some(strategy) =>
        match strategy.CalculateContribution(bet.betAmount, jackpot.currentPoolAmount, jackpot.config)
        case Failure(e) => Failure(e)
        case Success(amount) => Success((jackpot, amount))
  }

  /** What an evaluation reads before it writes: the jackpot and whether the bet
      wins it, or the error that stops it. */
  function PlanEvaluation(jackpots: map<string, Jackpot>, bet: Bet, draw: Draw): (r: Result<(Jackpot, bool), Error>)
    ensures r.Success? ==> bet.jackpotId in jackpots && r.value.0 == jackpots[bet.jackpotId] && r.value.0.config.Some?
  {
    match FindConfigured(jackpots, bet.jackpotId)
    case Failure(e) => Failure(e)
    case Success(jackpot) =>
      var kind := jackpot.config.value.rewardStrategyType;
      match RewardStrategyFor(kind)
      case None => Failure(NoRewardStrategy(kind))
      case Some(strategy) =>
        Success((jackpot, strategy.CheckWin(bet.betAmount, jackpot.currentPoolAmount, jackpot.config, draw)))
  }

  /** Reference definition of `contributeToJackpot`: compute the contribution, commit
      the raised pool through the store, then record the contribution with the pool
      the store returned. */
  function Contribute(s: EngineState, bet: Bet, events: seq<Interference>, now: Timestamp): (r: (EngineState, Outcome<Error>))
    ensures r.0.rewards == s.rewards
    ensures r.1.Fail? ==> r.0.contributions == s.contributions
  {
    match PlanContribution(s.jackpots, bet)
    case Failure(e) => (s, Fail(e))
    case Success(plan) =>
      var jackpot := plan.0;
      var amount := plan.1;
      var updated := UpdateOutcome(s.jackpots, jackpot.(currentPoolAmount := jackpot.currentPoolAmount + amount), events);
      match updated.result
      case Failure(e) => (s.(jackpots := updated.store), Fail(e))
      case Success(saved) =>
        var record := JackpotContribution(bet.betId, bet.userId, saved.jackpotId, bet.betAmount,
                                          amount, saved.currentPoolAmount, now);
        (EngineState(updated.store, s.contributions[CH.KeyOf(record) := record], s.rewards), Pass)
  }

  /** Reference definition of `evaluateReward`: on a win, pay out the pool read before
      the decision, reset the pool to its initial value and record the reward. */
  function Evaluate(s: EngineState, bet: Bet, draw: Draw, events: seq<Interference>, now: Timestamp)
    : (r: (EngineState, Result<Option<JackpotReward>, Error>))
    ensures r.0.contributions == s.contributions
    ensures !(r.1.Success? && r.1.value.Some?) ==> r.0.rewards == s.rewards
  {
    match PlanEvaluation(s.jackpots, bet, draw)
    case Failure(e) => (s, Failure(e))
    case Success(plan) =>
      var jackpot := plan.0;
      if !plan.1 then (s, Success(None))
      else
        var updated := UpdateOutcome(s.jackpots, jackpot.(currentPoolAmount := jackpot.initialPoolValue), events);
        match updated.result
        case Failure(e) => (s.(jackpots := updated.store), Failure(e))
        case Success(saved) =>
          var record := JackpotReward(bet.betId, bet.userId, saved.jackpotId, jackpot.currentPoolAmount, now);
          (EngineState(updated.store, s.contributions, s.rewards[RH.KeyOf(record) := record]), Success(Some(record)))
  }

  /** Reference definition of `consumeBet`: contribute, then evaluate only if the
      contribution completed; the reward itself is dropped. */
  function Consume(s: EngineState, bet: Bet, draw: Draw,
                   contributionEvents: seq<Interference>, rewardEvents: seq<Interference>,
                   contributedAt: Timestamp, rewardedAt: Timestamp): (r: (EngineState, Outcome<Error>))
    ensures r.0.contributions == Contribute(s, bet, contributionEvents, contributedAt).0.contributions
  {
    var contributed := Contribute(s, bet, contributionEvents, contributedAt);
    if contributed.1.Fail? then contributed
    else
      var evaluated := Evaluate(contributed.0, bet, draw, rewardEvents, rewardedAt);
      if evaluated.1.Failure? then (evaluated.0, Fail(evaluated.1.error)) else (evaluated.0, Pass)
  }

  /** The service, owning the jackpot store and the two history stores. */
  class JackpotService {
    const jackpotRepository: JackpotRepository
    const contributionRepository: CH.ContributionRepository
    const rewardRepository: RH.RewardRepository

    ghost predicate Valid()
      reads jackpotRepository, contributionRepository, rewardRepository
    {
      jackpotRepository.Valid() && contributionRepository.Valid() && rewardRepository.Valid()
    }

    function State(): EngineState
      reads jackpotRepository, contributionRepository, rewardRepository
    {
      EngineState(jackpotRepository.jackpots, contributionRepository.contributions, rewardRepository.rewards)
    }

    constructor(jackpots: JackpotRepository, contributions: CH.ContributionRepository, rewards: RH.RewardRepository)
      requires jackpots.Valid() && contributions.Valid() && rewards.Valid()
      ensures Valid()
      ensures jackpotRepository == jackpots
      ensures contributionRepository == contributions
      ensures rewardRepository == rewards
    {
      jackpotRepository := jackpots;
      contributionRepository := contributions;
      rewardRepository := rewards;
    }

    method ContributeToJackpot(bet: Bet, events: seq<Interference>, now: Timestamp) returns (r: Outcome<Error>)
      requires Valid()
      requires OverwritesKeepId(events, bet.jackpotId)
      modifies jackpotRepository, contributionRepository
      ensures Valid()
      ensures (State(), r) == Contribute(old(State()), bet, events, now)
    {
      var found := jackpotRepository.FindById(bet.jackpotId);
      if found.None? {
        return Fail(JackpotNotFound(bet.jackpotId));
      }
      var jackpot := found.value;
      if jackpot.config.None? {
        return Fail(MissingConfig(jackpot.jackpotId));
      }
      var kind := jackpot.config.value.contributionStrategyType;
      var strategy := ContributionStrategyFor(kind);
      if strategy.None? {
        return Fail(NoContributionStrategy(kind));
      }
      var calculated := strategy.value.CalculateContribution(bet.betAmount, jackpot.currentPoolAmount, jackpot.config);
      if calculated.Failure? {
        return Fail(calculated.error);
      }
      var amount := calculated.value;
      var updatedJackpot := Jackpot(jackpot.jackpotId, jackpot.currentPoolAmount + amount,
                                    jackpot.initialPoolValue, jackpot.config, jackpot.createdAt);
      var updated := jackpotRepository.Update(updatedJackpot, events);
      if updated.Failure? {
        return Fail(updated.error);
      }
      var saved := updated.value;
      var record := JackpotContribution(bet.betId, bet.userId, saved.jackpotId, bet.betAmount,
                                        amount, saved.currentPoolAmount, now);
      var _ := contributionRepository.Save(record);
      return Pass;
    }

    method EvaluateReward(bet: Bet, draw: Draw, events: seq<Interference>, now: Timestamp)
      returns (r: Result<Option<JackpotReward>, Error>)
      requires Valid()
      requires OverwritesKeepId(events, bet.jackpotId)
      modifies jackpotRepository, rewardRepository
      ensures Valid()
      ensures (State(), r) == Evaluate(old(State()), bet, draw, events, now)
    {
      var found := jackpotRepository.FindById(bet.jackpotId);
      if found.None? {
        return Failure(JackpotNotFound(bet.jackpotId));
      }
      var jackpot := found.value;
      if jackpot.config.None? {
        return Failure(MissingConfig(jackpot.jackpotId));
      }
      var kind := jackpot.config.value.rewardStrategyType;
      var strategy := RewardStrategyFor(kind);
      if strategy.None? {
        return Failure(NoRewardStrategy(kind));
      }
      var wins := strategy.value.CheckWin(bet.betAmount, jackpot.currentPoolAmount, jackpot.config, draw);
      if !wins {
        return Success(None);
      }
      var rewardAmount := jackpot.currentPoolAmount;
      var resetJackpot := Jackpot(jackpot.jackpotId, jackpot.initialPoolValue,
                                  jackpot.initialPoolValue, jackpot.config, jackpot.createdAt);
      var updated := jackpotRepository.Update(resetJackpot, events);
      if updated.Failure? {
        return Failure(updated.error);
      }
      var saved := updated.value;
      var record := JackpotReward(bet.betId, bet.userId, saved.jackpotId, rewardAmount, now);
      var stored := rewardRepository.Save(record);
      return Success(Some(stored));
    }

    method ConsumeBet(bet: Bet, draw: Draw,
                      contributionEvents: seq<Interference>, rewardEvents: seq<Interference>,
                      contributedAt: Timestamp, rewardedAt: Timestamp) returns (r: Outcome<Error>)
      requires Valid()
      requires OverwritesKeepId(contributionEvents, bet.jackpotId)
      requires OverwritesKeepId(rewardEvents, bet.jackpotId)
      modifies jackpotRepository, contributionRepository, rewardRepository
      ensures Valid()
      ensures (State(), r) == Consume(old(State()), bet, draw, contributionEvents, rewardEvents, contributedAt, rewardedAt)
    {
      r := ContributeToJackpot(bet, contributionEvents, contributedAt);
      if r.Fail? {
        return;
      }
      var reward := EvaluateReward(bet, draw, rewardEvents, rewardedAt);
      if reward.Failure? {
        return Fail(reward.error);
      }
      return Pass;
    }
  }
}
