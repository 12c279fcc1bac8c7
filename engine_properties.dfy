/** What contributing, evaluating and consuming a bet guarantee, stated on the
    engine's reference definitions. */
module EngineProperties {
  import opened Model
  import opened JackpotStore
  import opened Engine
  import HistoryKey

  /** A bet for an unknown jackpot fails both operations with an argument error and
      changes nothing. */
  lemma UnknownJackpotChangesNothing(s: EngineState, bet: Bet, draw: Draw, events: seq<Interference>, now: Timestamp)
    requires bet.jackpotId !in s.jackpots
    ensures Contribute(s, bet, events, now) == (s, Fail(JackpotNotFound(bet.jackpotId)))
    ensures Evaluate(s, bet, draw, events, now) == (s, Failure(JackpotNotFound(bet.jackpotId)))
    ensures JackpotNotFound(bet.jackpotId).Exception() == IllegalArgumentException
  {
  }

  /** A jackpot without configuration fails both operations with a state error before
      any strategy runs, and changes nothing. */
  lemma MissingConfigChangesNothing(s: EngineState, bet: Bet, draw: Draw, events: seq<Interference>, now: Timestamp)
    requires bet.jackpotId in s.jackpots && s.jackpots[bet.jackpotId].config.None?
    ensures var e := MissingConfig(s.jackpots[bet.jackpotId].jackpotId);
      && Contribute(s, bet, events, now) == (s, Fail(e))
      && Evaluate(s, bet, draw, events, now) == (s, Failure(e))
      && e.Exception() == IllegalStateException
  {
  }

  /** A default strategy kind has no registered implementation: the operation fails
      with an argument error and changes nothing. */
  lemma DefaultStrategyChangesNothing(s: EngineState, bet: Bet, draw: Draw, events: seq<Interference>, now: Timestamp)
    requires bet.jackpotId in s.jackpots && s.jackpots[bet.jackpotId].config.Some?
    ensures var config := s.jackpots[bet.jackpotId].config.value;
      config.contributionStrategyType == DefaultContributionStrategy ==>
        Contribute(s, bet, events, now) == (s, Fail(NoContributionStrategy(DefaultContributionStrategy)))
    ensures var config := s.jackpots[bet.jackpotId].config.value;
      config.rewardStrategyType == DefaultChanceRewardStrategy ==>
        Evaluate(s, bet, draw, events, now) == (s, Failure(NoRewardStrategy(DefaultChanceRewardStrategy)))
    ensures NoContributionStrategy(DefaultContributionStrategy).Exception() == IllegalArgumentException
    ensures NoRewardStrategy(DefaultChanceRewardStrategy).Exception() == IllegalArgumentException
  {
  }

  /** The amount a contribution would add, zero when it cannot be computed. */
  function ContributedAmount(jackpots: map<string, Jackpot>, bet: Bet): real {
    match PlanContribution(jackpots, bet)
    case Success(plan) => plan.1
    case Failure(_) => 0.0
  }

  /** A completed contribution raises the pool by the computed amount, keeps the
      jackpot's other fields, leaves the other jackpots and the rewards alone, and
      records the amount with the pool the store returned. Other writers' changes to
      the pool in between are overwritten (see `JackpotStore.LostUpdate`). */
  lemma ContributionCommitted(s: EngineState, bet: Bet, events: seq<Interference>, now: Timestamp)
    requires KeyedById(s.jackpots)
    requires bet.jackpotId in s.jackpots
    requires OverwritesKeepStatic(events, s.jackpots[bet.jackpotId])
    requires Contribute(s, bet, events, now).1 == Pass
    ensures PlanContribution(s.jackpots, bet).Success?
    ensures var id := bet.jackpotId;
      var s' := Contribute(s, bet, events, now).0;
      var amount := ContributedAmount(s.jackpots, bet);
      var key := HistoryKey.GenerateKey(bet.betId, id);
      && id in s'.jackpots
      && s'.jackpots[id].currentPoolAmount == s.jackpots[id].currentPoolAmount + amount
      && SameStatic(s'.jackpots[id], s.jackpots[id])
      && s'.contributions == s.contributions[key := JackpotContribution(
           bet.betId, bet.userId, id, bet.betAmount, amount, s'.jackpots[id].currentPoolAmount, now)]
      && s'.rewards == s.rewards
    ensures forall k :: k != bet.jackpotId ==>
      var s' := Contribute(s, bet, events, now).0;
      && (k in s'.jackpots <==> k in s.jackpots)
      && (k in s.jackpots ==> s'.jackpots[k] == s.jackpots[k])
  {
    var id := bet.jackpotId;
    var plan := PlanContribution(s.jackpots, bet).value;
    var proposed := plan.0.(currentPoolAmount := plan.0.currentPoolAmount + plan.1);
    assert proposed.jackpotId == id;
    UpdateSuccess(s.jackpots, proposed, events);
    UpdateKeepsStatic(s.jackpots, proposed, events);
    forall k | k != id
      ensures var u := UpdateOutcome(s.jackpots, proposed, events).store;
        (k in u <==> k in s.jackpots) && (k in s.jackpots ==> u[k] == s.jackpots[k])
    {
      UpdateFrame(s.jackpots, proposed, events, k);
    }
  }

  /** A contribution that fails records nothing, does not raise the pool (its
      jackpot holds what it held or what other writers stored) and touches no other
      jackpot; one that fails before the store update changes nothing at all. */
  lemma ContributionFailureRecordsNothing(s: EngineState, bet: Bet, events: seq<Interference>, now: Timestamp)
    requires KeyedById(s.jackpots)
    requires Contribute(s, bet, events, now).1.Fail?
    ensures var s' := Contribute(s, bet, events, now).0;
      s'.contributions == s.contributions && s'.rewards == s.rewards
    ensures PlanContribution(s.jackpots, bet).Failure? ==> Contribute(s, bet, events, now).0 == s
    ensures var s' := Contribute(s, bet, events, now).0;
      bet.jackpotId in s'.jackpots ==>
        StoredOrOverwritten(s'.jackpots[bet.jackpotId], s.jackpots, bet.jackpotId, events, 0)
    ensures forall k :: k != bet.jackpotId ==>
      var s' := Contribute(s, bet, events, now).0;
      && (k in s'.jackpots <==> k in s.jackpots)
      && (k in s.jackpots ==> s'.jackpots[k] == s.jackpots[k])
  {
    if PlanContribution(s.jackpots, bet).Success? {
      var plan := PlanContribution(s.jackpots, bet).value;
      var proposed := plan.0.(currentPoolAmount := plan.0.currentPoolAmount + plan.1);
      assert proposed.jackpotId == bet.jackpotId;
      UpdateFailureWritesNothing(s.jackpots, proposed, events);
      forall k | k != bet.jackpotId
        ensures var u := UpdateOutcome(s.jackpots, proposed, events).store;
          (k in u <==> k in s.jackpots) && (k in s.jackpots ==> u[k] == s.jackpots[k])
      {
        UpdateFrame(s.jackpots, proposed, events, k);
      }
    }
  }

  /** A win pays out the pool read before the decision, resets the pool to the
      jackpot's initial value and files exactly one reward record, for this bet and
      jackpot; the contribution history is untouched. */
  lemma WinPaysPoolAndResets(s: EngineState, bet: Bet, draw: Draw, events: seq<Interference>, now: Timestamp)
    requires KeyedById(s.jackpots)
    requires bet.jackpotId in s.jackpots
    requires OverwritesKeepStatic(events, s.jackpots[bet.jackpotId])
    requires Evaluate(s, bet, draw, events, now).1.Success?
    requires Evaluate(s, bet, draw, events, now).1.value.Some?
    ensures var id := bet.jackpotId;
      var s' := Evaluate(s, bet, draw, events, now).0;
      var reward := Evaluate(s, bet, draw, events, now).1.value.value;
      && reward == JackpotReward(bet.betId, bet.userId, id, s.jackpots[id].currentPoolAmount, now)
      && id in s'.jackpots
      && s'.jackpots[id].currentPoolAmount == s.jackpots[id].initialPoolValue
      && SameStatic(s'.jackpots[id], s.jackpots[id])
      && s'.rewards == s.rewards[HistoryKey.GenerateKey(bet.betId, id) := reward]
      && s'.contributions == s.contributions
  {
    var plan := PlanEvaluation(s.jackpots, bet, draw).value;
    var proposed := plan.0.(currentPoolAmount := plan.0.initialPoolValue);
    assert proposed.jackpotId == bet.jackpotId;
    UpdateSuccess(s.jackpots, proposed, events);
    UpdateKeepsStatic(s.jackpots, proposed, events);
  }

  /** A loss returns no reward and changes nothing; it happens exactly when the
      strategy runs and does not pick the bet. */
  lemma LossChangesNothing(s: EngineState, bet: Bet, draw: Draw, events: seq<Interference>, now: Timestamp)
    ensures Evaluate(s, bet, draw, events, now).1 == Success(None) <==>
      PlanEvaluation(s.jackpots, bet, draw).Success? && !PlanEvaluation(s.jackpots, bet, draw).value.1
    ensures Evaluate(s, bet, draw, events, now).1 == Success(None) ==> Evaluate(s, bet, draw, events, now).0 == s
  {
  }

  /** An evaluation that fails records no reward and no contribution, and does not
      reset the pool: its jackpot holds what it held or what other writers stored. */
  lemma EvaluationFailureRecordsNothing(s: EngineState, bet: Bet, draw: Draw, events: seq<Interference>, now: Timestamp)
    requires Evaluate(s, bet, draw, events, now).1.Failure?
    ensures var s' := Evaluate(s, bet, draw, events, now).0;
      s'.rewards == s.rewards && s'.contributions == s.contributions
    ensures PlanEvaluation(s.jackpots, bet, draw).Failure? ==> Evaluate(s, bet, draw, events, now).0 == s
    ensures var s' := Evaluate(s, bet, draw, events, now).0;
      bet.jackpotId in s'.jackpots ==>
        StoredOrOverwritten(s'.jackpots[bet.jackpotId], s.jackpots, bet.jackpotId, events, 0)
  {
    if PlanEvaluation(s.jackpots, bet, draw).Success? && PlanEvaluation(s.jackpots, bet, draw).value.1 {
      var jackpot := PlanEvaluation(s.jackpots, bet, draw).value.0;
      var proposed := jackpot.(currentPoolAmount := jackpot.initialPoolValue);
      if proposed.jackpotId == bet.jackpotId {
        UpdateFailureWritesNothing(s.jackpots, proposed, events);
      } else {
        UpdateFrame(s.jackpots, proposed, events, bet.jackpotId);
      }
    }
  }

  /** A run of contributions without interference, stopping at the first failure,
      with the amount each completed one added. */
  datatype Run = Run(state: EngineState, outcome: Outcome<Error>, amounts: seq<real>)

  function ContributeAll(s: EngineState, bets: seq<Bet>, now: Timestamp): Run
    decreases |bets|
  {
    if |bets| == 0 then Run(s, Pass, [])
    else
      var c := Contribute(s, bets[0], [], now);
      if c.1.Fail? then Run(c.0, c.1, [])
      else
        var rest := ContributeAll(c.0, bets[1..], now);
        Run(rest.state, rest.outcome, [ContributedAmount(s.jackpots, bets[0])] + rest.amounts)
  }

  function Sum(xs: seq<real>): real {
    if |xs| == 0 then 0.0 else xs[0] + Sum(xs[1..])
  }

  /** After a run of completed contributions to one jackpot, its pool is the starting
      pool plus the sum of the contributed amounts, and its other fields are as they were. */
  lemma {:induction false} SequentialContributions(s: EngineState, bets: seq<Bet>, now: Timestamp, id: string)
    requires KeyedById(s.jackpots)
    requires id in s.jackpots
    requires forall i :: 0 <= i < |bets| ==> bets[i].jackpotId == id
    requires ContributeAll(s, bets, now).outcome == Pass
    ensures var r := ContributeAll(s, bets, now);
      && id in r.state.jackpots
      && r.state.jackpots[id].currentPoolAmount == s.jackpots[id].currentPoolAmount + Sum(r.amounts)
      && SameStatic(r.state.jackpots[id], s.jackpots[id])
      && |r.amounts| == |bets|
    decreases |bets|
  {
    if |bets| > 0 {
      var c := Contribute(s, bets[0], [], now);
      ContributionCommitted(s, bets[0], [], now);
      var plan := PlanContribution(s.jackpots, bets[0]).value;
      UpdateKeepsKeyedById(s.jackpots, plan.0.(currentPoolAmount := plan.0.currentPoolAmount + plan.1), []);
      SequentialContributions(c.0, bets[1..], now, id);
      var r := ContributeAll(s, bets, now);
      assert r.amounts[1..] == ContributeAll(c.0, bets[1..], now).amounts;
    }
  }

  /** The consumer evaluates only after a completed contribution: a failed
      contribution is reported as is, and no evaluation takes place. */
  lemma ConsumeStopsOnContributionError(s: EngineState, bet: Bet, draw: Draw,
                                        contributionEvents: seq<Interference>, rewardEvents: seq<Interference>,
                                        contributedAt: Timestamp, rewardedAt: Timestamp)
    requires Contribute(s, bet, contributionEvents, contributedAt).1.Fail?
    ensures Consume(s, bet, draw, contributionEvents, rewardEvents, contributedAt, rewardedAt)
              == Contribute(s, bet, contributionEvents, contributedAt)
    ensures Consume(s, bet, draw, contributionEvents, rewardEvents, contributedAt, rewardedAt).0.rewards == s.rewards
  {
  }

  /** Any error the consumer reports is one of the two steps' errors, unchanged. */
  lemma ConsumeErrorPropagates(s: EngineState, bet: Bet, draw: Draw,
                               contributionEvents: seq<Interference>, rewardEvents: seq<Interference>,
                               contributedAt: Timestamp, rewardedAt: Timestamp, e: Error)
    requires Consume(s, bet, draw, contributionEvents, rewardEvents, contributedAt, rewardedAt).1 == Fail(e)
    ensures var c := Contribute(s, bet, contributionEvents, contributedAt);
      || c.1 == Fail(e)
      || (c.1 == Pass && Evaluate(c.0, bet, draw, rewardEvents, rewardedAt).1 == Failure(e))
  {
  }

  /** The evaluation sees the contributed pool: a bet that wins pays out the pool it
      has just raised, and the pool ends at the jackpot's initial value. */
  lemma ConsumeWinPaysContributedPool(s: EngineState, bet: Bet, draw: Draw,
                                      contributionEvents: seq<Interference>, rewardEvents: seq<Interference>,
                                      contributedAt: Timestamp, rewardedAt: Timestamp)
    requires KeyedById(s.jackpots)
    requires bet.jackpotId in s.jackpots
    requires OverwritesKeepId(contributionEvents, bet.jackpotId)
    requires OverwritesKeepStatic(contributionEvents, s.jackpots[bet.jackpotId])
    requires OverwritesKeepStatic(rewardEvents, s.jackpots[bet.jackpotId])
    requires Contribute(s, bet, contributionEvents, contributedAt).1 == Pass
    requires var s1 := Contribute(s, bet, contributionEvents, contributedAt).0;
      Evaluate(s1, bet, draw, rewardEvents, rewardedAt).1.Success?
      && Evaluate(s1, bet, draw, rewardEvents, rewardedAt).1.value.Some?
    ensures var id := bet.jackpotId;
      var final := Consume(s, bet, draw, contributionEvents, rewardEvents, contributedAt, rewardedAt);
      var key := HistoryKey.GenerateKey(bet.betId, id);
      && final.1 == Pass
      && key in final.0.rewards
      && final.0.rewards[key].jackpotRewardAmount
           == s.jackpots[id].currentPoolAmount + ContributedAmount(s.jackpots, bet)
      && id in final.0.jackpots
      && final.0.jackpots[id].currentPoolAmount == s.jackpots[id].initialPoolValue
  {
    var id := bet.jackpotId;
    var s1 := Contribute(s, bet, contributionEvents, contributedAt).0;
    ContributionCommitted(s, bet, contributionEvents, contributedAt);
    var plan := PlanContribution(s.jackpots, bet).value;
    UpdateKeepsKeyedById(s.jackpots, plan.0.(currentPoolAmount := plan.0.currentPoolAmount + plan.1), contributionEvents);
    assert OverwritesKeepStatic(rewardEvents, s1.jackpots[id]);
    WinPaysPoolAndResets(s1, bet, draw, rewardEvents, rewardedAt);
  }
}
