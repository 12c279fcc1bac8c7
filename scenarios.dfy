/** The four jackpots the service provisions at start-up, and worked examples of
    the strategies and the engine on them. */
module Scenarios {
  import opened Model
  import opened Decimal
  import opened Contribution
  import opened Reward
  import opened JackpotStore
  import opened Engine
  import ContributionHistory

  /** JP-1: 1% fixed contribution, 0.1% fixed chance, pool 1000. */
  const JP1Config := JackpotConfig(FixedContributionStrategy, FixedChanceRewardStrategy,
                                   0.01, 0.0, 0.0, 0.001, 0.0, 0.0, Some(0.0))
  /** JP-2: 1% fixed contribution, a fixed chance of 100, pool 1000. */
  const JP2Config := JackpotConfig(FixedContributionStrategy, FixedChanceRewardStrategy,
                                   0.01, 0.0, 0.0, 100.0, 0.0, 0.0, Some(0.0))
  /** JP-3: variable contribution from 5%, variable chance from 0.001% up to a 100000 limit, pool 500. */
  const JP3Config := JackpotConfig(VariableContributionStrategy, VariableChanceRewardStrategy,
                                   0.0, 0.05, 0.0001, 0.0, 0.00001, 0.000001, Some(100000.0))
  /** JP-4: as JP-3 but with increase rate 1000 and a chance limit of 1, pool 500. */
  const JP4Config := JackpotConfig(VariableContributionStrategy, VariableChanceRewardStrategy,
                                   0.0, 0.05, 0.0001, 0.0, 0.00001, 1000.0, Some(1.0))

  /** A 100.00 stake on JP-1 contributes 1.00. */
  lemma FixedContributionExample()
    ensures FixedContribution(100.0, 1000.0, Some(JP1Config)) == Success(1.0)
  {
    assert ScaledHalfUp(100.0 * 0.01, 100.0) == 100;
  }

  /** Half a cent rounds away from zero, in both directions. */
  lemma HalfUpTieExample()
    ensures FixedContribution(0.5, 1000.0, Some(JP1Config)) == Success(0.01)
    ensures FixedContribution(-0.5, 1000.0, Some(JP1Config)) == Success(-0.01)
  {
    assert ScaledHalfUp(0.5 * 0.01, 100.0) == 1;
    assert ScaledHalfUp(-0.5 * 0.01, 100.0) == -1;
  }

  /** With 2000.00 in the pool, JP-3's rate is 4.98%, and a 50.00 stake contributes 2.49. */
  lemma VariableContributionExample()
    ensures EffectivePercentage(2000.0, JP3Config) == 0.0498
    ensures VariableContribution(50.0, 2000.0, Some(JP3Config)) == Success(2.49)
  {
    assert ScaledHalfUp(2000.0 / 1000.0, 10000.0) == 20000;
    assert EffectivePercentage(2000.0, JP3Config) == 0.0498;
    assert ScaledHalfUp(50.0 * 0.0498, 100.0) == 249;
  }

  /** Once the pool has pushed JP-3's rate to the floor, it stays at 0.1%. */
  lemma VariableContributionFloorExample()
    ensures EffectivePercentage(1000000.0, JP3Config) == 0.001
  {
    assert ScaledHalfUp(1000000.0 / 1000.0, 10000.0) == 10000000;
  }

  /** JP-2 always pays out. */
  lemma JP2AlwaysWins(betAmount: real, currentPool: real, draw: Draw)
    ensures FixedChanceCheckWin(betAmount, currentPool, Some(JP2Config), draw)
  {
    FixedChanceCertain(betAmount, currentPool, Some(JP2Config), draw);
  }

  /** JP-4's pool starts above its limit of 1, so it always pays out. */
  lemma JP4AlwaysWins(betAmount: real, currentPool: real, draw: Draw)
    requires currentPool >= 1.0
    ensures VariableChanceCheckWin(betAmount, currentPool, Some(JP4Config), draw)
  {
  }

  /** At its starting pool of 500, JP-3 pays out with chance 0.00105%. */
  lemma JP3StartingChance(betAmount: real, draw: Draw)
    ensures EffectiveChance(500.0, JP3Config) == 0.0000105
    ensures VariableChanceCheckWin(betAmount, 500.0, Some(JP3Config), draw) <==> draw < 0.0000105
  {
    assert ScaledHalfUp(500.0 / 1000.0, 10000.0) == 5000;
  }

  /** A 100.00 bet on a fresh JP-1: the pool becomes 1001.00 and the contribution is
      recorded under "b1_JP-1"; a draw of one half then loses and changes nothing. */
  lemma EngineExample(createdAt: Timestamp, t1: Timestamp, t2: Timestamp)
    ensures var jp1 := Jackpot("JP-1", 1000.0, 1000.0, Some(JP1Config), createdAt);
      var bet := Bet("b1", "u1", "JP-1", 100.0, t1);
      var s := EngineState(map["JP-1" := jp1], map[], map[]);
      var after := EngineState(map["JP-1" := jp1.(currentPoolAmount := 1001.0)],
                               map["b1_JP-1" := JackpotContribution("b1", "u1", "JP-1", 100.0, 1.0, 1001.0, t1)],
                               map[]);
      && Contribute(s, bet, [], t1) == (after, Pass)
      && Evaluate(after, bet, 0.5, [], t2) == (after, Success(None))
  {
    var jp1 := Jackpot("JP-1", 1000.0, 1000.0, Some(JP1Config), createdAt);
    var bet := Bet("b1", "u1", "JP-1", 100.0, t1);
    var s := EngineState(map["JP-1" := jp1], map[], map[]);
    var raised := jp1.(currentPoolAmount := 1001.0);
    FixedContributionExample();
    assert PlanContribution(s.jackpots, bet) == Success((jp1, 1.0));
    assert UpdateOutcome(s.jackpots, raised, []) == Updated(map["JP-1" := raised], Success(raised));
    assert ContributionHistory.KeyOf(JackpotContribution("b1", "u1", "JP-1", 100.0, 1.0, 1001.0, t1)) == "b1_JP-1";
    assert PlanEvaluation(map["JP-1" := raised], bet, 0.5) == Success((raised, false));
  }
}
