# Jackpot engine — a Dafny model

This project models the core of a jackpot service. Every bet first contributes part of its stake to the pool of its jackpot and is then evaluated for a win; a win pays out the whole pool and resets it to the jackpot's initial value. The model covers:

- the two contribution strategies (fixed and variable percentage, with HALF_UP rounding to cents and a 0.1% floor on the variable rate) — `contribution.dfy`, on top of the decimal rounding in `decimal.dfy`;
- the two reward strategies (fixed chance, and variable chance with a hard pool limit) — `reward.dfy`;
- the in-memory jackpot store with its `save`, `findById` and the three-attempt compare-and-swap `update` — `jackpot_store.dfy`;
- the contribution and reward histories, keyed by `betId + "_" + jackpotId` — `history_key.dfy`, `contribution_history.dfy`, `reward_history.dfy`;
- the bet store and the configuration registry — `bet_store.dfy`, `config_loader.dfy`;
- the orchestration in `JackpotService` (`contributeToJackpot`, `evaluateReward`, with the strategy tables registered in `AppConfig`) and the consumer's contribute-then-evaluate sequence — `engine.dfy`, with its properties in `engine_properties.dfy`;
- the four jackpots provisioned at start-up, used as worked examples — `scenarios.dfy`.

Amounts and rates are exact decimals (`real`). BigDecimal HALF_UP rounding is `Decimal.RoundHalfUp`. It is checked against an independent definition (`Decimal.IsHalfUpRounding`: the right number of places, within half a unit, a tie going away from zero), and for both scales used, two and four places, that definition is shown to leave no choice.

Repositories whose maps the service updates in place are classes with a `map` field. The engine is the class `Engine.JackpotService`, which owns the three repositories. Each of its methods is proved equal, state and result together, to a pure reference function over an `EngineState` value (`Contribute`, `Evaluate`, `Consume`). The properties are proved about those functions. The store's `update` is a `while` loop proved equal to the recursive function `JackpotStore.UpdateOutcome`.

Two inputs of the original are outside the model's control, and both are parameters:

- The random draw is a `Draw`, a real in [0, 1).
- What other writers do to a jackpot during an update is a list of `Interference` events. Event `i` happens between attempt `i`'s read and its compare-and-swap; it is nothing, an overwrite, or a removal.

Timestamps (`LocalDateTime.now()`) are opaque `Timestamp` parameters.

Where the code does less than its own documentation says, the model follows the code:

- **Update writes a precomputed pool.** The store's `update` is documented as "optimistic locking/retries" (`src/main/java/com/sportygroup/jackpot/repository/InMemJackpotRepository.java:51`), and `JackpotService` relies on it for "optimistic locking" (`src/main/java/com/sportygroup/jackpot/service/JackpotService.java:70` and `:127`). Optimistic locking leads a reader to expect that no concurrent update is lost. The code, however, writes the pool the caller computed before the update onto the freshly read record (`src/main/java/com/sportygroup/jackpot/repository/InMemJackpotRepository.java:76`). On a retry, that pool overwrites whatever another writer stored in between. `JackpotStore.LostUpdate` and `EngineProperties.ContributionCommitted` state this behaviour: after a completed contribution, the pool is the value read before plus the contribution, whatever happened in between.
- **Invalid reward configurations lose.** Both reward strategies document that they throw `IllegalArgumentException` for a missing or invalid configuration (`src/main/java/com/sportygroup/jackpot/service/reward/FixedChanceRewardStrategy.java:28`, `src/main/java/com/sportygroup/jackpot/service/reward/VariableChanceRewardStrategy.java:32`). The code instead returns "no win", so such a bet loses rather than fails.
- **Error re-wrapping keeps errors unchanged.** `evaluateReward` re-wraps its errors in new exceptions of the same class with the same message. The model therefore leaves errors unchanged.
- **History keys can collide.** The history key is not unique when ids contain underscores (`HistoryKey.KeyCollision`). A save can then erase another bet's record (`ContributionHistory.CollisionErasesOtherBet`). It is unique when jackpot ids have no underscore (`HistoryKey.KeyInjective`).

All source paths below are under `src/main/java/com/sportygroup/jackpot/`, written out in full.

## Model

| member | source | states |
|---|---|---|
| Decimal.RoundToCents | src/main/java/com/sportygroup/jackpot/service/contribution/FixedContributionStrategy.java:37 | rounding to two places yields a value with two places, within half a cent of the input, ties away from zero |
| Decimal.RoundToTenThousandths | src/main/java/com/sportygroup/jackpot/service/contribution/VariableContributionStrategy.java:39-40 | the same for four places, as used when dividing the pool by 1000 |
| Decimal.CentsRoundingUnique | src/main/java/com/sportygroup/jackpot/service/contribution/FixedContributionStrategy.java:37 | at most one two-place value is the HALF_UP rounding of a number |
| Decimal.TenThousandthsRoundingUnique | src/main/java/com/sportygroup/jackpot/service/contribution/VariableContributionStrategy.java:39-40 | at most one four-place value is the HALF_UP rounding of a number |
| Decimal.RoundToCentsKeepsCents | src/main/java/com/sportygroup/jackpot/service/contribution/FixedContributionStrategy.java:37 | rounding a value that already has two places returns it unchanged |
| Decimal.TenThousandthsRoundingMonotone | src/main/java/com/sportygroup/jackpot/service/contribution/VariableContributionStrategy.java:39-40 | four-place rounding never reverses the order of two inputs |
| Contribution.FixedContribution | src/main/java/com/sportygroup/jackpot/service/contribution/FixedContributionStrategy.java:29-42 | fails with an argument error exactly when the config is null or the percentage is 0; otherwise the result is stake × percentage rounded HALF_UP to cents |
| Contribution.FixedContributionIgnoresPool | src/main/java/com/sportygroup/jackpot/service/contribution/FixedContributionStrategy.java:35-37 | the fixed contribution does not depend on the pool |
| Contribution.EffectivePercentage | src/main/java/com/sportygroup/jackpot/service/contribution/VariableContributionStrategy.java:39-45 | the rate is never below 0.001 nor below initial − round4(pool/1000) × decrease rate, and is one of the two |
| Contribution.VariableContribution | src/main/java/com/sportygroup/jackpot/service/contribution/VariableContributionStrategy.java:33-54 | fails with an argument error exactly when the config is null, the initial percentage is 0 or the decrease rate is 0; otherwise the result is stake × effective rate rounded HALF_UP to cents |
| Contribution.EffectivePercentageNonIncreasing | src/main/java/com/sportygroup/jackpot/service/contribution/VariableContributionStrategy.java:39-45 | with a positive decrease rate, a larger pool never gives a larger rate |
| Contribution.VariableContributionNonNegative | src/main/java/com/sportygroup/jackpot/service/contribution/VariableContributionStrategy.java:47 | a non-negative stake never contributes a negative amount |
| Reward.FixedChanceCheckWin | src/main/java/com/sportygroup/jackpot/service/reward/FixedChanceRewardStrategy.java:31-46 | a null config or a chance ≤ 0 loses; otherwise the bet wins exactly when the draw is below the chance |
| Reward.FixedChanceCertain | src/main/java/com/sportygroup/jackpot/service/reward/FixedChanceRewardStrategy.java:38-42 | a chance of 1 or more wins for every draw |
| Reward.FixedChanceDrawMonotone | src/main/java/com/sportygroup/jackpot/service/reward/FixedChanceRewardStrategy.java:42 | a smaller draw wins whenever a larger one does |
| Reward.FixedChanceMonotoneInChance | src/main/java/com/sportygroup/jackpot/service/reward/FixedChanceRewardStrategy.java:40-42 | a draw that wins at one chance wins at every higher chance |
| Reward.FixedChanceIgnoresPool | src/main/java/com/sportygroup/jackpot/service/reward/FixedChanceRewardStrategy.java:38-42 | the fixed-chance decision does not depend on the pool |
| Reward.EffectiveChance | src/main/java/com/sportygroup/jackpot/service/reward/VariableChanceRewardStrategy.java:51-58 | the chance is at most 1 and at most initial + round4(pool/1000) × increase rate, and is one of the two |
| Reward.VariableChanceCheckWin | src/main/java/com/sportygroup/jackpot/service/reward/VariableChanceRewardStrategy.java:35-67 | a null config, initial chance ≤ 0, rate ≤ 0 or null limit loses; a pool at or above the limit wins; below it the bet wins exactly when the draw is below the effective chance |
| Reward.EffectiveChanceNonDecreasing | src/main/java/com/sportygroup/jackpot/service/reward/VariableChanceRewardStrategy.java:51-58 | with a positive increase rate, a larger pool never gives a smaller chance |
| Reward.VariableChanceWinMonotoneInPool | src/main/java/com/sportygroup/jackpot/service/reward/VariableChanceRewardStrategy.java:46-62 | for one draw, a bet that wins against a pool wins against every larger pool |
| Reward.CheckWinIgnoresStake | src/main/java/com/sportygroup/jackpot/service/reward/VariableChanceRewardStrategy.java:35-62 | neither reward strategy depends on the stake |
| JackpotStore.Merge | src/main/java/com/sportygroup/jackpot/repository/InMemJackpotRepository.java:74-80 | the state an attempt writes has the stored record's id, initial value, config and creation time and the caller's pool |
| JackpotStore.Attempts | src/main/java/com/sportygroup/jackpot/repository/InMemJackpotRepository.java:66-95 | reference definition of the retry loop: a success writes the caller's pool, and every failure of the loop is a state error |
| JackpotStore.UpdateOutcome | src/main/java/com/sportygroup/jackpot/repository/InMemJackpotRepository.java:57-97 | reference definition of `update`: it succeeds only on a jackpot that is present, and an absent one leaves the store unchanged |
| JackpotStore.JackpotRepository.constructor | src/main/java/com/sportygroup/jackpot/repository/InMemJackpotRepository.java:19 | the store starts empty |
| JackpotStore.JackpotRepository.Save | src/main/java/com/sportygroup/jackpot/repository/InMemJackpotRepository.java:28-34 | stores the jackpot under its id, replacing any earlier entry, leaves the others, and returns it |
| JackpotStore.JackpotRepository.FindById | src/main/java/com/sportygroup/jackpot/repository/InMemJackpotRepository.java:43-46 | returns the stored jackpot when the id is present and nothing otherwise |
| JackpotStore.JackpotRepository.Update | src/main/java/com/sportygroup/jackpot/repository/InMemJackpotRepository.java:57-97 | the retry loop leaves exactly the store and returns exactly the result of the reference definition `UpdateOutcome`, and keeps every jackpot under its own id |
| JackpotStore.UpdateFrame | src/main/java/com/sportygroup/jackpot/repository/InMemJackpotRepository.java:82 | an update never adds, removes or changes another jackpot's entry |
| JackpotStore.AttemptsFrame | src/main/java/com/sportygroup/jackpot/repository/InMemJackpotRepository.java:67-94 | each attempt, and the attempts after it, leave other ids alone |
| JackpotStore.UpdateSuccess | src/main/java/com/sportygroup/jackpot/repository/InMemJackpotRepository.java:74-84 | on success the store holds the returned record under the id, and its pool is the caller's |
| JackpotStore.AttemptsSuccess | src/main/java/com/sportygroup/jackpot/repository/InMemJackpotRepository.java:82-84 | the same for any attempt onwards |
| JackpotStore.UpdateKeepsStatic | src/main/java/com/sportygroup/jackpot/repository/InMemJackpotRepository.java:74-80 | an update changes only the pool: id, initial value, config and creation time stay those stored, as long as other writers keep them |
| JackpotStore.AttemptsKeepStatic | src/main/java/com/sportygroup/jackpot/repository/InMemJackpotRepository.java:74-82 | the same for any attempt onwards |
| JackpotStore.UpdateKeepsKeyedById | src/main/java/com/sportygroup/jackpot/repository/InMemJackpotRepository.java:74-82 | an update keeps every jackpot filed under its own id |
| JackpotStore.AttemptsKeepKeyedById | src/main/java/com/sportygroup/jackpot/repository/InMemJackpotRepository.java:69-82 | the same for any attempt onwards |
| JackpotStore.UncontendedUpdate | src/main/java/com/sportygroup/jackpot/repository/InMemJackpotRepository.java:59-84 | without interference an update succeeds exactly when the id is present, writing the merged record; an absent id fails and leaves the store unchanged |
| JackpotStore.UpdateFailure | src/main/java/com/sportygroup/jackpot/repository/InMemJackpotRepository.java:59-95 | a failure is "not found" (argument error) exactly when the id was absent, else "disappeared" or "retries exhausted" (state errors) |
| JackpotStore.AttemptsFailure | src/main/java/com/sportygroup/jackpot/repository/InMemJackpotRepository.java:69-95 | a failing attempt sequence reports "disappeared" or "retries exhausted" |
| JackpotStore.UpdateFailureWritesNothing | src/main/java/com/sportygroup/jackpot/repository/InMemJackpotRepository.java:66-95 | whatever other writers do, a failed update leaves its entry absent, as it was, or as another writer stored it: the map holds nothing this update wrote |
| JackpotStore.AttemptsFailureWritesNothing | src/main/java/com/sportygroup/jackpot/repository/InMemJackpotRepository.java:69-95 | the same for any attempt onwards, by induction over the attempts |
| JackpotStore.AttemptsSuccessMergesStoredRecord | src/main/java/com/sportygroup/jackpot/repository/InMemJackpotRepository.java:69-84 | a swap succeeds only onto the record its attempt read while that record is still in place: the written record is that record, either the one stored at the start or one another writer stored, with the caller's pool |
| JackpotStore.ContentionExhaustsRetries | src/main/java/com/sportygroup/jackpot/repository/InMemJackpotRepository.java:66-95 | three changing overwrites in a row exhaust the three attempts; the store keeps only the other writers' last record |
| JackpotStore.RemovedDuringUpdate | src/main/java/com/sportygroup/jackpot/repository/InMemJackpotRepository.java:69-72 | an entry removed during an attempt makes the next attempt fail with "disappeared" |
| JackpotStore.LostUpdate | src/main/java/com/sportygroup/jackpot/repository/InMemJackpotRepository.java:74-82 | when another writer changes the record between read and swap, the retry succeeds and writes the caller's precomputed pool over that change |
| JackpotStore.AttemptsUseThreeEvents | src/main/java/com/sportygroup/jackpot/repository/InMemJackpotRepository.java:66-67 | at most three attempts: events after the third cannot affect an update |
| HistoryKey.GenerateKey | src/main/java/com/sportygroup/jackpot/repository/InMemJackpotContributionRepository.java:71-73 | the key is the bet id, an underscore, then the jackpot id |
| HistoryKey.KeyCollision | src/main/java/com/sportygroup/jackpot/repository/InMemJackpotRewardRepository.java:74-76 | ("a_b", "c") and ("a", "b_c") share a key |
| HistoryKey.KeyInjective | src/main/java/com/sportygroup/jackpot/repository/InMemJackpotContributionRepository.java:71-73 | when jackpot ids contain no underscore, equal keys mean equal (bet, jackpot) pairs |
| ContributionHistory.ContributionRepository.constructor | src/main/java/com/sportygroup/jackpot/repository/InMemJackpotContributionRepository.java:21 | the history starts empty |
| ContributionHistory.ContributionRepository.Save | src/main/java/com/sportygroup/jackpot/repository/InMemJackpotContributionRepository.java:29-36 | files the record under its key, replacing any record with that key, returns it, makes it findable by its pair, and leaves the lookup of every other key as it was, so the last save under a key wins |
| ContributionHistory.ContributionRepository.FindByBetId | src/main/java/com/sportygroup/jackpot/repository/InMemJackpotContributionRepository.java:44-49 | exactly the stored records whose bet id matches |
| ContributionHistory.ContributionRepository.FindByBetIdAndJackpotId | src/main/java/com/sportygroup/jackpot/repository/InMemJackpotContributionRepository.java:58-63 | present exactly when the pair's key is stored, and then exactly the record filed under that key; without underscores in jackpot ids it is a record of that pair |
| ContributionHistory.ValuesAfterSave | src/main/java/com/sportygroup/jackpot/repository/InMemJackpotContributionRepository.java:31-32 | after a save the stored records are the old ones minus the one replaced, plus the new one |
| ContributionHistory.RecordsOfBetAfterSave | src/main/java/com/sportygroup/jackpot/repository/InMemJackpotContributionRepository.java:44-49 | after a save, a bet's records lose the replaced record and gain the new one if it is that bet's |
| ContributionHistory.CollisionErasesOtherBet | src/main/java/com/sportygroup/jackpot/repository/InMemJackpotContributionRepository.java:31-32 | through a key collision, a save removes another bet's record from that bet's history |
| RewardHistory.RewardRepository.constructor | src/main/java/com/sportygroup/jackpot/repository/InMemJackpotRewardRepository.java:21 | the history starts empty |
| RewardHistory.RewardRepository.Save | src/main/java/com/sportygroup/jackpot/repository/InMemJackpotRewardRepository.java:30-37 | files the reward under its key, replacing any reward with that key, returns it, makes it findable by its pair, and leaves the lookup of every other key as it was, so the last save under a key wins |
| RewardHistory.RewardRepository.FindByBetId | src/main/java/com/sportygroup/jackpot/repository/InMemJackpotRewardRepository.java:46-51 | exactly the stored rewards whose bet id matches |
| RewardHistory.RewardRepository.FindByBetIdAndJackpotId | src/main/java/com/sportygroup/jackpot/repository/InMemJackpotRewardRepository.java:61-66 | present exactly when the pair's key is stored, and then exactly the reward filed under that key; without underscores in jackpot ids it is a reward of that pair |
| RewardHistory.ValuesAfterSave | src/main/java/com/sportygroup/jackpot/repository/InMemJackpotRewardRepository.java:32-33 | after a save the stored rewards are the old ones minus the one replaced, plus the new one |
| RewardHistory.RecordsOfBetAfterSave | src/main/java/com/sportygroup/jackpot/repository/InMemJackpotRewardRepository.java:46-51 | after a save, a bet's rewards lose the replaced one and gain the new one if it is that bet's |
| RewardHistory.CollisionErasesOtherBet | src/main/java/com/sportygroup/jackpot/repository/InMemJackpotRewardRepository.java:32-33 | through a key collision, a save removes another bet's reward from that bet's history |
| BetStore.BetRepository.constructor | src/main/java/com/sportygroup/jackpot/repository/InMemBetRepository.java:20 | the store starts empty |
| BetStore.BetRepository.Save | src/main/java/com/sportygroup/jackpot/repository/InMemBetRepository.java:29-35 | stores the bet under its id, replacing any earlier one, returns it, makes it findable, and leaves the lookup of every other id as it was |
| BetStore.BetRepository.FindById | src/main/java/com/sportygroup/jackpot/repository/InMemBetRepository.java:44-47 | present exactly when the id is stored, and then exactly the bet stored under it, whose id is that id |
| BetStore.BetRepository.FindAll | src/main/java/com/sportygroup/jackpot/repository/InMemBetRepository.java:55-58 | exactly the stored bets, as many as there are ids |
| BetStore.OnePerId | src/main/java/com/sportygroup/jackpot/repository/InMemBetRepository.java:55-58 | a store keyed by bet id holds one distinct bet per id |
| ConfigLoader.JackpotConfigLoader.constructor | src/main/java/com/sportygroup/jackpot/service/JackpotConfigLoader.java:21 | the registry starts empty |
| ConfigLoader.JackpotConfigLoader.AddJackpotConfig | src/main/java/com/sportygroup/jackpot/service/JackpotConfigLoader.java:28-31 | afterwards the id maps to the new config and every other id to what it mapped to before |
| ConfigLoader.JackpotConfigLoader.GetJackpotConfig | src/main/java/com/sportygroup/jackpot/service/JackpotConfigLoader.java:38-40 | the registered config, or none (null) for an unknown id |
| Engine.ContributionStrategyFor | src/main/java/com/sportygroup/jackpot/config/AppConfig.java:133-136 | fixed and variable kinds map to their implementations; the default kind has none |
| Engine.RewardStrategyFor | src/main/java/com/sportygroup/jackpot/config/AppConfig.java:171-174 | fixed and variable chance kinds map to their implementations; the default kind has none |
| Engine.FindConfigured | src/main/java/com/sportygroup/jackpot/service/JackpotService.java:76-82 | succeeds exactly when the jackpot exists and has a config; otherwise "not found" or "no configuration" |
| Engine.PlanContribution | src/main/java/com/sportygroup/jackpot/service/JackpotService.java:76-93 | a planned contribution is computed from the stored jackpot of the bet's id, which has a configuration |
| Engine.PlanEvaluation | src/main/java/com/sportygroup/jackpot/service/JackpotService.java:133-150 | a planned evaluation decides on the stored jackpot of the bet's id, which has a configuration |
| Engine.Contribute | src/main/java/com/sportygroup/jackpot/service/JackpotService.java:75-121 | reference definition of `contributeToJackpot`: it never touches the reward history, and a failure records no contribution |
| Engine.Evaluate | src/main/java/com/sportygroup/jackpot/service/JackpotService.java:132-188 | reference definition of `evaluateReward`: it never touches the contribution history, and only a win records a reward |
| Engine.Consume | src/main/java/com/sportygroup/jackpot/consumer/KafkaConsumerService.java:37-53 | reference definition of `consumeBet`: the contribution history afterwards is the one the contribution step left |
| Engine.JackpotService.constructor | src/main/java/com/sportygroup/jackpot/service/JackpotService.java:51-62 | the service holds the three given repositories, and is valid when they are |
| Engine.JackpotService.ContributeToJackpot | src/main/java/com/sportygroup/jackpot/service/JackpotService.java:75-121 | the new state of the three stores and the outcome are exactly those of the reference definition `Contribute` |
| Engine.JackpotService.EvaluateReward | src/main/java/com/sportygroup/jackpot/service/JackpotService.java:132-188 | the new state and the result are exactly those of the reference definition `Evaluate` |
| Engine.JackpotService.ConsumeBet | src/main/java/com/sportygroup/jackpot/consumer/KafkaConsumerService.java:37-53 | the new state and the outcome are exactly those of the reference definition `Consume` |
| EngineProperties.UnknownJackpotChangesNothing | src/main/java/com/sportygroup/jackpot/service/JackpotService.java:76-77 | an unknown jackpot id fails both operations with an argument error and changes nothing |
| EngineProperties.MissingConfigChangesNothing | src/main/java/com/sportygroup/jackpot/service/JackpotService.java:79-82 | a jackpot without config fails both operations with a state error before any strategy runs, and changes nothing |
| EngineProperties.DefaultStrategyChangesNothing | src/main/java/com/sportygroup/jackpot/service/JackpotService.java:84-87 | a default strategy kind fails with "no strategy found" (argument error) and changes nothing |
| EngineProperties.ContributionCommitted | src/main/java/com/sportygroup/jackpot/service/JackpotService.java:95-117 | a completed contribution sets the pool to the pool read plus the computed amount, keeps id, initial value, config and creation time, touches no other jackpot and no reward, and records the amount with the pool the store returned |
| EngineProperties.ContributionFailureRecordsNothing | src/main/java/com/sportygroup/jackpot/service/JackpotService.java:103-117 | a failed contribution writes no record, does not raise the pool (the jackpot holds what it held or what other writers stored), and touches no other jackpot; a failure before the update changes nothing |
| EngineProperties.WinPaysPoolAndResets | src/main/java/com/sportygroup/jackpot/service/JackpotService.java:152-176 | a win pays the pool read before the decision, resets the pool to the initial value, and files exactly one reward record for the bet and jackpot |
| EngineProperties.LossChangesNothing | src/main/java/com/sportygroup/jackpot/service/JackpotService.java:177-180 | an empty result happens exactly when the strategy runs and does not pick the bet, and then nothing changes |
| EngineProperties.EvaluationFailureRecordsNothing | src/main/java/com/sportygroup/jackpot/service/JackpotService.java:164-176 | a failed evaluation writes no reward and no contribution, and does not reset the pool (the jackpot holds what it held or what other writers stored) |
| EngineProperties.SequentialContributions | src/main/java/com/sportygroup/jackpot/service/JackpotService.java:95-103 | after n completed contributions to one jackpot, its pool is the starting pool plus the sum of the n amounts, with its other fields unchanged |
| EngineProperties.ConsumeStopsOnContributionError | src/main/java/com/sportygroup/jackpot/consumer/KafkaConsumerService.java:40-42 | a failed contribution is reported as is and no evaluation runs |
| EngineProperties.ConsumeErrorPropagates | src/main/java/com/sportygroup/jackpot/consumer/KafkaConsumerService.java:40-52 | every error the consumer reports is the contribution's or the evaluation's error, unchanged |
| EngineProperties.ConsumeWinPaysContributedPool | src/main/java/com/sportygroup/jackpot/consumer/KafkaConsumerService.java:40-52 | the evaluation sees the contributed pool: a win pays the pool just raised, resets it, and the consumer completes with no value |
| Scenarios.FixedContributionExample | src/main/java/com/sportygroup/jackpot/service/contribution/FixedContributionStrategy.java:35-37 | 100.00 at 1% contributes 1.00 |
| Scenarios.HalfUpTieExample | src/main/java/com/sportygroup/jackpot/service/contribution/FixedContributionStrategy.java:37 | half a cent rounds away from zero on both sides |
| Scenarios.VariableContributionExample | src/main/java/com/sportygroup/jackpot/service/contribution/VariableContributionStrategy.java:39-47 | pool 2000.00, stake 50.00, 5% less 0.0001 per thousand: rate 0.0498, contribution 2.49 |
| Scenarios.VariableContributionFloorExample | src/main/java/com/sportygroup/jackpot/service/contribution/VariableContributionStrategy.java:43-45 | a large enough pool leaves the rate at the 0.001 floor |
| Scenarios.JP2AlwaysWins | src/main/java/com/sportygroup/jackpot/service/initializer/JackpotInitializer.java:63-73 | JP-2, with a fixed chance of 100, wins for every draw |
| Scenarios.JP4AlwaysWins | src/main/java/com/sportygroup/jackpot/service/initializer/JackpotInitializer.java:94-106 | JP-4, with a chance limit of 1, wins for every pool of at least 1 |
| Scenarios.JP3StartingChance | src/main/java/com/sportygroup/jackpot/service/initializer/JackpotInitializer.java:78-89 | JP-3 at its starting pool of 500 wins exactly when the draw is below 0.0000105 |
| Scenarios.EngineExample | src/main/java/com/sportygroup/jackpot/service/initializer/JackpotInitializer.java:48-58 | a 100.00 bet on a fresh JP-1 raises the pool to 1001.00 and records the contribution under "b1_JP-1"; a draw of 0.5 then loses and changes nothing |

## Left out

- IEEE `double` rates and the `doubleValue()` conversion of the variable chance: rates are exact decimals, so rounding of binary fractions is not modelled.
- The BigDecimal scale of the pool after an addition or a reset: pools are exact values, and trailing zeros are not tracked.
- `java.util.Random` and `LocalDateTime.now()`: the draw and the timestamps are parameters.
- Real concurrency: the atomicity of `ConcurrentHashMap` operations, the 10 ms back-off and the `InterruptedException` path of `update` are not modelled. Other writers appear only as the `Interference` events, one per attempt.
- JackpotStore.Attempts: Java's `replace` compares the stored record with the one read by object identity (`Jackpot` defines no `equals`). The model compares by value, so an overwrite with an equal record does not make an attempt fail.
- Removal of a jackpot: no repository operation removes one. The `Remove` event exists only to reach the "disappeared during update" branch.
- A null bet, a null amount or a null strategy kind inside a config, all of which would raise a `NullPointerException`.
- `findByBetId` and `findAll` return Java collections in map order. The model returns sets, so order is not modelled. Duplicates cannot arise, because every record is filed under its own key.
- Reactor `Mono`/`Flux` wrapping, and all console logging.
- HTTP controllers, request/response types, `BetService`, the Kafka producers, embedded Kafka configuration, `IdGenerator` and the application bootstrap.
- `JackpotInitializer` as a start-up procedure: only its four configurations appear, as constants in `Scenarios`.
