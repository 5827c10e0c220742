# Verified model of the contextual-bandit engine

A Dafny model of the offer-recommendation engine in `api_service/services/bandit/`, of the
decision log and monitoring metrics around it, and of the offline golden set that gates it.
`dafny verify dfyconfig.toml` checks everything.

The engine keeps, for each policy, the weights of a bandit model (LinUCB, Thompson sampling or
a rule baseline) in a key-value store. A ranking request filters the catalogue by eligibility,
scores the eligible arms and returns an auditable block; a reward, which may arrive much later,
updates the weights of the policy that served the decision. A governance protocol decides which
policy is active.

How the parts fit together:

- **Numbers.** `LinearAlgebra`, `ShermanMorrison`, `LinUcb`, `Kernel`, `Ridge`: the matrices the
  code never inverts are the inverses it claims, the weights solve the ridge problem, and the
  uncertainty shrinks as it should. `Thompson`, `Baseline`, `Ranking`, `Sorting`, `Sums`; `Scoring` says
  what the scores of all three models mean in terms of what they learned from.
- **Requests.** `Clients`, `Context`, `Catalog`, `Audit`, `Models`, `StateStore`, `Policies`,
  `Service`, `Serving`, `Raising`, `Fairness`: one call at a time, as classes that change fields where the
  program does, each method proved against a function of the state.
- **Concurrency and governance.** `Protocol` and `LostUpdates` interleave the atomic commands of
  any number of requests; `Governance` runs transactions; `Composition` puts both together.
- **Around the engine.** `Decisions` and `DelayedRewards` (audit log, rewards across governance), `Metrics` (regret, PSI),
  `CaseGenerator`, `Evaluation`, `GoldenSet` (case generator, harness, and their agreement with
  the server).

Numbers are exact reals. `Option`'s `None` and `Err(PythonError)` stand for an uncaught
`TypeError`, `ValueError`, `KeyError` or failed commit; named errors carry the program's codes.
`float()` and `int()` on texts, `str()`, the square root, the logarithm and the Thompson draws are
parameters, so every theorem holds for all of them (with the stated laws for root and logarithm).

## What the proofs found

- **Lost updates.** The lock does protect the read-modify-write, but the unlocked callers that
  initialise a missing key can overwrite a completed update. No update is ever lost exactly when
  the key is present, complete, and nobody holds a stale miss (`NeverLosesExactly`); in
  particular the very first requests of a policy can lose one. One lock expiry also suffices.
- **Retrain cycles.** Starting a cycle takes a snapshot, which is such an unlocked caller: it can
  erase a completed update of the very policy it records (`SnapshotErasesUpdate`). With no other
  unlocked caller around, nothing is lost before the start, and nothing can be after it exactly when
  the key was present (`StartHarmlessExactly`). No other governance operation touches the store.
- **`cold_start`.** The LinUCB docstring (`models/linucb.py:67`) says that no reward was applied;
  the code's test means that the arm was never *clicked* (`ColdMeansNeverClicked`), and an arm
  rewarded with zero stays cold (`ColdAfterZeroReward`).
- **Null incomes.** Over client rows as the database projects them, ranking raises exactly for an
  income that is present but null, once client incomes are loaded (`RowRaisesExactly`). Nulls in
  other columns are read as zero. The same goes for the empty income of a CSV line: the generator
  passes it on and the harness raises (`RankingRaisesExactly`, `GoldenSetHolds`).
- **Protected attribute.** `rank` strips `sexo`, `update` does not: the learned weights are blind to
  it exactly when it is not a context column (`BlindExactly`).
- **Two eligibility checkers.** The case generator reads a `*_percentil_min` filter as a plain floor,
  drops underscored keys and ignores the protected list. Its objections are refusals by the server
  exactly on the visible filters (`SoundExactly`), which all shipped ones are
  (`ShippedKeysVisible`). The converse fails even there: the server reads a zero under a ceiling as
  missing (`ZeroUnderCeiling`), a missing field as zero, and equality without dropping fractions.
  `AgreeExactly` says when the two agree in both directions.
- **Typical cases.** They are documented as what the baseline does; the baseline confirms one exactly
  when the server finds its expected arm eligible (`TypicalPassesExactly`), which a percentile floor
  the generator cannot see may prevent (`TypicalCaseFails`).
- **Rollback.** A rollback to p serves p's earlier weights exactly if p learned nothing meanwhile
  (`WeightsIntactExactly`). On rankings only one direction holds: balanced updates change Thompson's
  weights and no ranking (`BalancedUpdatesInvisible`).
- **APPROVED.** The cycle status described as approved but not yet promoted is never reached: an
  approval promotes at once (`EveryRunSound`).
- **Repeated rewards.** A second reward for a decision overwrites its row but moves the weights again,
  unless the policy is the baseline (`RewardTwice`, `SecondRewardMovesExactly`).
- **Implicit policies.** A decision can be rewarded exactly when its policy is in the table by then
  (`ServedDecisionsCanBeRewarded`). For one served by an `auto-` policy that is the case only if
  somebody registers that very name, which nothing prevents; otherwise the reward is refused
  (`ImplicitRewardRefused`).
- **Generator path.** `CATALOG_PATH` in the generator names `sexo.json`, which is not in the
  repository; the catalogue is `offer_catalog.json`. The catalogue is a parameter here.

## Model

| member | source | states |
|---|---|---|
| ShermanMorrison.RankOneInverse | api_service/services/bandit/models/linucb.py:15-21 | The rank-one step takes the two-sided inverse of G to the two-sided inverse of G + x xᵀ, keeping self-adjointness, whenever its divisor is not zero |
| LinUcb.LinUCB.Update | api_service/services/bandit/models/linucb.py:75-80 | `update` replaces exactly `A_inv[j]` and `b[j]`, by the rank-one step and the weighted context |
| LinUcb.LinUCB.Rank | api_service/services/bandit/models/linucb.py:51-64 | the scoring loop and stable sort compute the specified ranking; SortedRowsContract says what is listed and in which order, LinUcbScores what each entry holds |
| Scoring.LinUcbScores | api_service/services/bandit/models/linucb.py:45-73 | for the model trained from fresh by any updates, an entry of arm j has pred = w·x for the ridge minimiser w of j's own history, bonus = exploration·scale·root(max(xᵀHx, 1e-9)) for the inverse H of j's Gram matrix, score their sum, and the label cold while the summed rewards are zero, else by the larger of bonus and prediction |
| Scoring.HistoryDetermines | api_service/services/bandit/models/linucb.py:15-21 | every arm of every trained model has such a minimiser and inverse |
| Scoring.FreshExplores | api_service/services/bandit/models/linucb.py:41-49 | with a positive scale and root, a fresh model ranks by the exploration factors, ties in catalogue order |
| Scoring.ServedLinUcbScores | api_service/services/bandit/service.py:88-90 | what a trained LinUCB policy answers: for each offer the same law on the stripped client's context, with the catalogue's exploration factor, scale 0.2 and ridge weight one |
| LinUcb.StateRoundTrip | api_service/services/bandit/models/linucb.py:82-108 | saving and restoring gives the same state, `alpha` rebuilt as (alpha/scale)*scale included |
| Kernel.AppliedRepresents | api_service/services/bandit/models/linucb.py:75-80 | from any represented state one update keeps every arm the inverse of its Gram matrix, extends only that arm's history, and never divides by less than 1 |
| Kernel.GramDominates | api_service/services/bandit/models/linucb.py:15-18 | for any history, lam*I + Σ x xᵀ is self-adjoint and xᵀGx ≥ lam·x·x |
| Kernel.DivisorAtLeastOne | api_service/services/bandit/models/linucb.py:79 | the divisor 1 + xᵀA_inv x is at least 1 in every represented state |
| Kernel.TrainedRepresents | api_service/services/bandit/models/linucb.py:42-43 | after any updates on any arms every arm represents exactly the contexts and rewards applied to it |
| Kernel.InverseOfGram | api_service/services/bandit/models/linucb.py:15-21 | after any updates, `A_inv[j]` is symmetric, positive definite and the two-sided matrix inverse of lam*I + Σ x xᵀ over arm j's contexts, and `b[j]` is the reward-weighted sum |
| Ridge.ThetaIsRidgeMinimiser | api_service/services/bandit/models/linucb.py:46-47 | theta is the unique minimiser of the arm's ridge loss, every other w being worse by the Gram form of the gap |
| Ridge.TrainingOrderIrrelevant | api_service/services/bandit/models/linucb.py:75-80 | the trained LinUCB state depends only on the multiset of updates |
| Ridge.UpdateShrinksUncertainty | api_service/services/bandit/models/linucb.py:45-49 | one update sends the variance v of its context to v/(1+v) and the prediction to (p + v r)/(1+v) |
| Ridge.VarianceNeverGrows | api_service/services/bandit/models/linucb.py:75-80 | no update increases the variance of any context at any arm, and other arms do not move |
| Ridge.BonusNeverGrows | api_service/services/bandit/models/linucb.py:48 | for any monotone root, no update increases a bonus whose alpha is not negative, or decreases one whose alpha is not positive |
| Ridge.RepeatedContext | api_service/services/bandit/models/linucb.py:45-49 | n updates with one context leave variance v0/(1 + n v0), below 1/n, and prediction (p0 + v0 Σr)/(1 + n v0) |
| Ridge.ColdMeansNeverClicked | api_service/services/bandit/models/linucb.py:66-73 | with 0/1 rewards and the bias coordinate, `b[j][0]` is the click count and the arm is cold exactly when it is zero |
| Ridge.ColdAfterZeroReward | api_service/services/bandit/models/linucb.py:66-73 | an arm updated once, with reward zero, is still labelled cold |
| Ridge.MatrixRemembersPulls | api_service/services/bandit/models/linucb.py:79 | runs that leave an arm the same `A_inv` updated it equally often |
| Thompson.ThompsonSampling.Update | api_service/services/bandit/models/thompson.py:47-51 | one parameter of one arm grows by one, in place |
| Thompson.ThompsonSampling.Rank | api_service/services/bandit/models/thompson.py:27-45 | the loop computes the specified ranking for any draws |
| Scoring.ThompsonScores | api_service/services/bandit/models/thompson.py:33-45 | an entry's score is the arm's draw, its prediction (1 + clicks)/(2 + pulls), its bonus their difference, its label cold exactly without pulls |
| Scoring.ServedThompsonScores | api_service/services/bandit/service.py:91-92 | the same for the offers of an answer |
| Thompson.ParametersCount | api_service/services/bandit/models/thompson.py:47-51 | with 0/1 rewards alpha-1 and beta-1 count clicks and non-clicks |
| Thompson.EvidenceCount | api_service/services/bandit/models/thompson.py:22-25 | for any rewards alpha + beta is two more than the number of updates of the arm |
| Thompson.ColdMeansNeverUpdated | api_service/services/bandit/models/thompson.py:41-43 | Thompson's cold start means that the arm was never updated |
| Thompson.TrainingOrderIrrelevant | api_service/services/bandit/models/thompson.py:47-51 | the posterior depends only on the multiset of updates |
| Thompson.BalancedUpdatesInvisible | api_service/services/bandit/models/thompson.py:38-44 | two more updates can change the weights and, with the same draws, leave every ranking as it was: rankings do not determine weights |
| Baseline.DeterministicBaseline.Rank | api_service/services/bandit/models/baseline.py:43-59 | fails exactly when the income is not a number; otherwise computes the specified two-key ranking |
| Baseline.TargetFirst | api_service/services/bandit/models/baseline.py:58-59 | every arm of the target category precedes every other arm, catalogue order inside each group |
| Scoring.TargetRules | api_service/services/bandit/models/baseline.py:24-41 | the chain of rules as a table: which of the three categories is the target, as a condition on segment name, segments and income, in both directions |
| Scoring.BaselineScores | api_service/services/bandit/models/baseline.py:49-59 | one for the target category and zero otherwise, no bonus, the two reason codes |
| Scoring.ServedBaselineScores | api_service/services/bandit/service.py:93-94 | the same for the offers of an answer, the target being the stripped client's |
| Ranking.SortedRowsContract | api_service/services/bandit/models/linucb.py:58-64 | the sorted rows hold every kept arm exactly once with its own row, scores never increasing, ties in catalogue order |
| Ranking.ContractDetermines | api_service/services/bandit/models/baseline.py:58-59 | two rankings with the same rows and that order are equal: the contract fixes the ranking |
| Sorting.SortMultiset | api_service/services/bandit/models/linucb.py:64 | the stable sort loses nothing and repeats nothing |
| Context.ContextRoundTrip | api_service/services/bandit/models/context.py:60-75 | a saved and restored builder is the same builder: the zero-deviation guard is stable and default segment keys are written out |
| Context.BuildLayout | api_service/services/bandit/models/context.py:54-58 | bias first, then each column standardised with its own mean and deviation, then a flag per segment key that is 1 exactly for the client's segments |
| Context.BuildLocal | api_service/services/bandit/models/context.py:54-58 | the whole context vector depends on nothing but the context columns and on which segment keys the client has |
| Models.LearnFits | api_service/services/bandit/models/__init__.py:22-31 | learning keeps a trained state loadable, of the same kind, without a zero divisor |
| Models.LearnTouchesOneArm | api_service/services/bandit/models/linucb.py:75-80 | for all three models learning moves nothing but the updated arm's parameters |
| Models.LearnTeaches | api_service/services/bandit/models/linucb.py:75-80 | a click adds the context to LinUCB's reward sum of the arm or one to Thompson's alpha; a miss leaves the sum or adds one to beta |
| Models.RankModelContract | api_service/services/bandit/models/baseline.py:43-59 | all three models satisfy the same ranking contract |
| Models.SavingIsInvisible | api_service/services/bandit/models/__init__.py:22-31 | a run that saves and reloads model and context builder at every step equals the in-memory run |
| Catalog.IndexOf | api_service/services/bandit/catalog/loader.py:31-40 | finds an arm with that id, and nothing exactly when no offer has it |
| Catalog.StringLessMeaning | api_service/services/bandit/audit.py:51-53 | texts are ordered by the first position where they differ, a prefix first |
| Catalog.SearchIsCount | api_service/repositories/cliente.py:83-94 | on a sorted list the bisection position is the count of incomes at most v |
| Catalog.PercentileIsShare | api_service/services/bandit/catalog/loader.py:73-77 | the percentile is 100 times the share of incomes at most v, within [0, 100], monotone |
| Catalog.EligibleMeansAllPass | api_service/services/bandit/catalog/loader.py:80-102 | the early exits compute the conjunction: eligible exactly when every filter passes |
| Catalog.FilterMeaning | api_service/services/bandit/catalog/loader.py:80-102 | each suffix over numbers: equality for flags and plain keys, at least for floors, at most for ceilings, and what a missing or zero field stands for |
| Catalog.FloorMeaning | api_service/services/bandit/catalog/loader.py:91-111 | a percentile floor from the income to the answer: 100 times the share of incomes at most the client's, or fifty without incomes, has to reach it |
| Catalog.MaskOf | api_service/services/bandit/catalog/loader.py:112-115 | one entry per offer, each the eligibility of that offer; it raises exactly when one of the offers does |
| Raising.MaskRaisesExactly | api_service/services/bandit/catalog/loader.py:104-115 | the eligibility mask raises exactly when the income needs a percentile and float() refuses it |
| Raising.RankingRaisesExactly | api_service/services/bandit/service.py:113-178 | for every model, weights, draws, policy, cut and exclusions, a ranking raises if and only if the income or a context column is unreadable: not a number where one is read, or any income float() refuses where a percentile is needed, an empty text included |
| Raising.RowRaisesExactly | api_service/models/cliente.py:56-93 | on client rows as the database projects them it raises if and only if the income is null, comes without a percentile, and client incomes are loaded |
| Raising.NullIncomeRefused | api_service/services/bandit/catalog/loader.py:73-76 | the witness: such a row is refused, and the same row without the field is ranked |
| Raising.ReadAsZero | api_service/services/bandit/models/context.py:55 | a missing field, null, zero, an empty text or list is read as zero |
| Catalog.MoreIncomeKeepsEligibility | api_service/services/bandit/catalog/loader.py:73-115 | raising an income never removes an arm whose only income-sensitive filters are percentile floors |
| Audit.StripForgets | api_service/services/bandit/audit.py:59-61 | clients that agree outside the protected attributes are equal once stripped |
| Audit.ListsAreSorted | api_service/services/bandit/audit.py:49-56 | the audited segments and eligible ids are sorted and neither lose nor repeat an entry |
| Audit.SegmentsAre | api_service/services/bandit/audit.py:51 | the audited segments are the given ones, without any the client's own, without those none |
| StateStore.KeysAreSeparate | api_service/services/bandit/store/state_store.py:28-36 | state, lock and context keys of any two policies never collide, except a policy with itself |
| StateStore.StateStore.SaveState | api_service/services/bandit/store/state_store.py:42-43 | changes the state of one policy and nothing else |
| Service.BanditService.constructor | api_service/services/bandit/service.py:47-53 | on a store without a saved context, every later call's builder has the catalogue's columns and means, its deviations with one for zero, and the default segments |
| Service.BanditService.CtxBuilder | api_service/services/bandit/service.py:56-67 | the builder every later call sees, weights untouched; on the first call without a saved context it is the catalogue's, and exactly that builder is saved |
| Service.CatalogCoordinates | api_service/services/bandit/models/context.py:54-58 | coordinate 1 + i of such a service's contexts is the client's number less catalog mean i, over catalog deviation i or one |
| Service.BanditService.LoadOrInit | api_service/services/bandit/service.py:97-103 | returns the weights, a missing key read as the fresh model and then stored, or refuses a policy without a usable algorithm; other policies untouched |
| Service.BanditService.UpdateLocked | api_service/services/bandit/service.py:196-200 | the locked body applies the event to that policy's weights alone; a context that cannot be built only initialises |
| Service.BanditService.Update | api_service/services/bandit/service.py:180-200 | every error case in order, and on success the learned weights of that policy and no other |
| Service.BanditService.Rank | api_service/services/bandit/service.py:113-178 | the response is a function of catalogue, builder, weights, client and draws; no policy's weights change |
| Service.BanditService.SnapshotState | api_service/services/bandit/service.py:222-229 | answers the weights, a missing key read as the fresh model and stored; other policies untouched |
| Service.BanditService.Reset | api_service/services/bandit/service.py:218-220 | forgets exactly that policy's weights |
| Service.Offers | api_service/services/bandit/service.py:139-157 | ranks count from 1 in ranking order, ids and scores are those of the ranked arms |
| Serving.RankingListsExactly | api_service/services/bandit/service.py:126-157 | for all models an arm id is listed exactly when eligible and not excluded, once, scores never increasing |
| Serving.TopIsPrefix | api_service/services/bandit/service.py:171-172 | `top` cuts a prefix of exactly that length, all for none, from the end for a negative one |
| Serving.PolicyExactly | api_service/services/bandit/service.py:80-86 | a resolved policy is kept if its algorithm is usable; otherwise the implicit policy of the algorithm asked for, of the default one only if none was |
| Serving.AnswerRecords | api_service/services/bandit/service.py:161-178 | the answer names the policy and its algorithm; the audit holds the client's number for every context column and nothing else, its income percentile, and the attribute lists |
| Serving.AuditIndependent | api_service/services/bandit/service.py:158-169 | the audit block does not depend on top, exclusions, policy, weights or draws, and its eligible ids are exactly the mask's |
| Serving.ServedIsAudited | api_service/services/bandit/service.py:158-169 | every listed arm is audited as eligible, and a full ranking lists every audited arm |
| Fairness.TwinsLearnAlike | api_service/services/bandit/service.py:196-200 | runs that differ only in protected values keep equal weights when these are not context columns |
| Fairness.TwinsAnswerAlike | api_service/services/bandit/service.py:126-169 | rankings and audits never depend on the protected attribute |
| Fairness.Fairness | api_service/services/bandit/audit.py:16-19 | the two-run property: equal weights, and equal next ranking and audit, for twin runs with the same draws |
| Fairness.BlindExactly | api_service/services/bandit/service.py:198 | the learned weights are blind to `sexo` if and only if it is not a context column |
| Policies.ResolveExactly | api_service/services/bandit/policy_resolver.py:58-85 | only an unknown explicit id is refused; an answer is governed exactly when asked for or active; with one active policy the answer does not depend on the row the query returned; an ungoverned answer is `auto-` and the algorithm asked for |
| Protocol.RunProvenance | api_service/services/bandit/store/state_store.py:15-22 | in every interleaving, expiry and resets included, every stored, held or served value of a policy is the fold of a subsequence of that policy's own completed writes |
| Protocol.RunRequested | api_service/services/bandit/service.py:196-200 | completed writes are only ever requested ones and are never taken back |
| LostUpdates.RunOrderly | api_service/services/bandit/store/state_store.py:55-61 | mutual exclusion: without expiry, only the lock's owner is ever in a policy's critical section |
| LostUpdates.NoUpdateLost | api_service/services/bandit/service.py:196-200 | from a settled state, in every interleaving without expiry and reset, the stored weights are the fold of all completed writes |
| LostUpdates.NeverLosesExactly | api_service/services/bandit/service.py:97-103 | no interleaving loses a write if and only if the key is present and complete and no caller holds a stale miss |
| LostUpdates.LosingRun | api_service/services/bandit/service.py:98-102 | from every other orderly state there is a run that loses a completed write |
| LostUpdates.ExpiryLosesUpdate | api_service/services/bandit/store/state_store.py:55-61 | from every orderly settled state, the lock held or free, one expiry inside an update can lose another one |
| LostUpdates.ResetLosesExactly | api_service/services/bandit/service.py:218-220 | a reset loses something exactly when a write had completed |
| LostUpdates.InitialOrderly | api_service/services/bandit/service.py:97-103 | the empty system is orderly but not settled |
| LostUpdates.FirstReadSettles | api_service/services/bandit/service.py:97-103 | one undisturbed ranking of an untouched policy makes its key present and settled |
| LostUpdates.LockedCallersNeverLose | api_service/services/bandit/service.py:195-200 | without unlocked callers of p, no run from an orderly lossless state loses a write, the key present or not |
| LostUpdates.OneReaderHarmlessExactly | api_service/services/bandit/service.py:97-103 | one unlocked caller added to such a state is harmless exactly when the key is present |
| LostUpdates.FreshStaysFresh | api_service/services/bandit/service.py:97-103 | weights that read as the fresh model stay so until a write completes, in every interleaving, expiry and resets included |
| LostUpdates.UpdateAlone | api_service/services/bandit/service.py:195-200 | an update without interference applies its event once and touches nothing else |
| Governance.UnitOfWork.Exit | api_service/services/bandit/governance_uow.py:23-34 | an exception or a failed commit restores the committed tables |
| Governance.GovernanceService.Activate | api_service/services/bandit/governance/service.py:197-206 | the loop leaves every row as specified; ActivatedReplaces says it by statuses |
| Governance.ActivatedReplaces | api_service/services/bandit/governance/service.py:203-206 | the target is ACTIVE, every other row that was ACTIVE is RETIRED, every remaining row keeps its status |
| Governance.GovernanceService.Execute | api_service/services/bandit/governance/service.py:64-177 | an accepted request moves the tables as stated by statuses, a refused or uncommitted one leaves every table unchanged, with its error code |
| Governance.EffectExactly | api_service/services/bandit/governance/service.py:64-177 | for each request when it is refused and with which code, and otherwise every status, cycle, verdict and metric it changes and none else; a rollback also retires its cycle's policy unless that is the target |
| Governance.NeverShadowAgain | api_service/services/bandit/governance/service.py:156-166 | a policy that was ever in service is ACTIVE or RETIRED ever after |
| Governance.ShadowExactly | api_service/services/bandit/governance/service.py:64-77 | a registered policy is still SHADOW exactly if no committed request promoted it, approved or rolled back a cycle of it, or rolled back to it |
| Governance.UnitOfWork.GetActivePolicy | api_service/services/bandit/governance_uow.py:47-51 | returns an active row, and none exactly when there is none |
| Governance.OutcomeSound | api_service/services/bandit/governance/service.py:138-166 | one request keeps the governance invariants and never leaves the system without its active policy |
| Governance.EveryRunSound | api_service/services/bandit/governance/service.py:138-154 | in every run: at most one ACTIVE policy, cycles refer to policies, and a cycle is PROMOTED or REJECTED only if that is the last verdict on its run |
| Governance.ActiveForEver | api_service/services/bandit/governance/service.py:197-206 | once a policy was activated, exactly one is active for ever |
| Governance.RowsPersist | api_service/services/bandit/governance/service.py:64-77 | registered policies keep their algorithm and version; the verdict log only grows |
| Governance.ApprovalSucceeds | api_service/services/bandit/governance/service.py:138-154 | an approval of a known cycle is never refused and leaves its policy as the one active |
| Governance.RollbackExact | api_service/services/bandit/governance/service.py:156-166 | a rollback succeeds exactly when cycle and target exist, then the target is the one active policy; otherwise nothing changes |
| Composition.GovernanceRun | api_service/services/bandit/governance/service.py:64-177 | any run of governance alone leaves weights, locks, completed writes and requests in flight as they were; every new request is an unlocked reader of a registered policy |
| Composition.StartInitialises | api_service/services/bandit/dependencies.py:36-40 | starting a cycle for an unused policy stores its fresh model |
| Composition.SnapshotErasesUpdate | api_service/services/bandit/service.py:222-229 | from any state with p's key missing and its lock free, starting a cycle for p can erase an update of p that completed: the snapshot is the only unlocked caller needed |
| Composition.StartHarmlessExactly | api_service/services/bandit/governance/service.py:102-131 | with no other unlocked caller of p, no run loses an update of p before the start of a cycle for p, and none does after it if and only if p's key is present |
| Composition.MachineFollowsTables | api_service/services/bandit/policy_resolver.py:58-85 | in every run of governance and requests, the algorithm a request resolves to at its own time is the one the final tables give for that id, except exactly for an implicit policy whose name was registered with another algorithm |
| Composition.MoreUpdatesDifferentModel | api_service/services/bandit/models/linucb.py:75-80 | for the learning models a strict extension of a training run gives a different model |
| Composition.SerialisationIrrelevant | api_service/services/bandit/service.py:195-200 | two interleavings that complete the same updates in any orders leave the same weights, for all three models |
| Composition.UntouchedReadsFresh | api_service/services/bandit/service.py:97-103 | a policy that completed no write reads as its fresh model in every interleaving, expiry and resets included |
| Composition.WeightsSurvive | api_service/services/bandit/store/state_store.py:17-22 | weights are unchanged if nothing of p completed: from any start that reads as the fresh model, the key never created or deleted by a reset, with anything allowed; or from a settled start |
| Composition.WeightsIntactExactly | api_service/services/bandit/store/state_store.py:17-22 | a learning policy's weights are unchanged exactly when the writes they contain are; after a settled start exactly when none of its updates completed |
| Composition.GovernedWeightsIntact | api_service/services/bandit/store/state_store.py:17-22 | the same for a governed policy and the machine whose fresh models are those of the final tables' rows |
| Composition.RollbackServesEarlierRanking | api_service/services/bandit/governance/service.py:156-166 | after a rollback to p, requests resolve to p and, if p completed nothing meanwhile, get the rankings they would have got before, also when its key was never created or was deleted |
| Decisions.DecisionService.Decide | api_service/services/decision/service.py:51-100 | every error case; without a pick the offer of rank one is served, which no listed offer outscores, with a pick the listed offer of that id; exactly that arm and score are logged with the whole audit block and one impression; a refusal logs nothing |
| Decisions.DecisionService.Feedback | api_service/services/decision/service.py:140-151 | one event for a known decision, none otherwise |
| Decisions.DecisionService.Learn | api_service/services/bandit/client.py:36-50 | the named policy learns whatever is active, and no other policy changes |
| Decisions.DecisionService.Reward | api_service/services/decision/service.py:154-197 | an accepted value is zero or one, and one exactly if the client converted or a click event of this decision was reported; only the serving policy's weights move, by one event on the chosen arm, and the row is written only if learning was accepted |
| Decisions.RewardAsStated | api_service/services/decision/service.py:158-160 | the computed value has that meaning |
| Decisions.ServesAsStated | api_service/services/decision/service.py:62-76 | over any ranking listed in order, the computed choice has the meaning Decide promises, conflicts included |
| Decisions.LogsAsStated | api_service/services/decision/service.py:78-94 | the logged row holds client, policy, audit, arm and score of what was served, its reasons, the number of eligible offers as a numeral, and whether the client picked |
| Decisions.ServedDecisionsCanBeRewarded | api_service/services/bandit/policy_resolver.py:65-68 | a served decision can be learned from if and only if its policy is in the table at reward time, otherwise POLICY_NOT_FOUND, the client being as it was ranked |
| Decisions.RecordedRows | api_service/services/decision/service.py:184-191 | one reward row per decision, holding the last value, every other row unchanged |
| Decisions.RewardsOverwrite | api_service/services/decision/service.py:184-191 | recording twice leaves the rows of recording the last value alone |
| Decisions.ChoosingSucceedsExactly | api_service/services/decision/service.py:61-76 | a picked arm is served exactly when the audit lists it; the top exactly when something is eligible |
| Decisions.RoutingSurvivesGovernance | api_service/services/decision/service.py:171-181 | a decision's policy id resolves to the same policy and algorithm after any governance run |
| DelayedRewards.Govern | api_service/services/bandit/dependencies.py:36-45 | any governance calls on the shared tables and store: of all weights, exactly the missing keys of policies whose cycle was started with a snapshot are initialised, with their row's fresh model |
| DelayedRewards.RewardLogged | api_service/services/decision/service.py:158-191 | an accepted reward is one exactly for a conversion or a click event, is recorded, and is taught to the served arm of the serving policy alone: a click adds the context or one to alpha, a miss nothing or one to beta; a refused one changes nothing |
| DelayedRewards.DecideGovernReward | api_service/services/decision/service.py:51-197 | decide, any governance with its snapshots, reward: accepted if and only if the serving policy is registered by then, always for a governed one; then the value is one exactly for a conversion or a click event, the row holds it, and the served arm alone was taught it; refused, neither; other policies change by snapshots alone |
| DelayedRewards.ImplicitRewardRefused | api_service/services/bandit/policy_resolver.py:65-68 | with no active policy and the implicit name unregistered, the reward for a served decision is refused |
| DelayedRewards.SecondRewardMovesExactly | api_service/services/decision/service.py:173-181 | after any training, learning from a decision once more changes the model if and only if it is not the baseline |
| DelayedRewards.RewardTwice | api_service/services/decision/service.py:154-197 | two rewards for one decision: the reward rows end as if only the last had come, the weights have moved twice unless the policy is the baseline |
| Metrics.GroupByArm | api_service/services/monitoring/metrics.py:59-61 | per arm the pulls and conversions of the observations, for exactly the observed arms |
| Metrics.RatesOf | api_service/services/monitoring/metrics.py:63-67 | rates for exactly the arms with at least five pulls |
| Metrics.EmpiricalRegret | api_service/services/monitoring/metrics.py:45-73 | zero without a qualified arm, otherwise the clamped mean gap to the best qualified rate |
| Metrics.RegretIdentity | api_service/services/monitoring/metrics.py:71-73 | regret·N = best·N minus the conversions of qualified arms, 0 ≤ regret ≤ best ≤ 1, and the clamp never acts |
| Metrics.RegretIgnoresOrder | api_service/services/monitoring/metrics.py:45-73 | regret is one number, whatever the order of the observations |
| Metrics.RegretIsMissedConversion | api_service/services/monitoring/metrics.py:32-36 | when every served arm qualifies, regret is the best rate minus the conversion rate |
| Metrics.Histogram | api_service/services/monitoring/metrics.py:76-86 | the bin search with its early break computes each bin's share of the counted values |
| Metrics.ExactlyOneBin | api_service/services/monitoring/metrics.py:78-84 | bin i is [20i, 20i + 20), the last one closed; a value is in some bin exactly when it is in [0, 100], and never in two |
| Metrics.FractionsSumToOne | api_service/services/monitoring/metrics.py:85-86 | the fractions sum to one as soon as one value is in range |
| Metrics.Psi | api_service/services/monitoring/metrics.py:89-103 | the accumulator loop computes the sum over the smoothed bins |
| Metrics.TermSign | api_service/services/monitoring/metrics.py:100-102 | every term is non-negative, symmetric, and zero exactly when the smoothed fractions agree |
| Metrics.PsiIsDivergence | api_service/services/monitoring/metrics.py:89-103 | PSI is non-negative without `abs`, symmetric, and zero exactly when the smoothed histograms agree |
| Metrics.PsiFormula | api_service/services/monitoring/metrics.py:98-103 | PSI is the sum of (c - r) ln(c/r) over the five bins of shares floored at one in a million |
| Metrics.PsiZeroMeansEqual | api_service/services/monitoring/metrics.py:89-103 | below a million values the floor hides nothing: PSI is zero exactly when all shares agree |
| CaseGenerator.ViolatesFinds | scripts/generate_evaluation_cases.py:94-112 | a reason is always the objection to one of the filters |
| CaseGenerator.TruncateTowardsZero | scripts/generate_evaluation_cases.py:105-111 | int() of a number drops the fraction, on both sides of zero |
| CaseGenerator.BreachRejects | scripts/generate_evaluation_cases.py:97-111 | whatever the generator objects to through a visible filter, the server's filter does not pass |
| CaseGenerator.SoundExactly | scripts/generate_evaluation_cases.py:94-112 | over all clients with given columns the generator is sound on a filter key if and only if the key is visible |
| CaseGenerator.ViolationRejects | api_service/services/bandit/catalog/loader.py:80-102 | a client and filters with a generator reason are not eligible for the server |
| CaseGenerator.AgreeExactly | scripts/generate_evaluation_cases.py:94-112 | on a visible filter over numbers both checkers give the same answer if and only if the client and the bound are read alike, case by case |
| CaseGenerator.ZeroUnderCeiling | api_service/services/bandit/catalog/loader.py:97-99 | a field that is zero under a ceiling: the generator is silent, the server refuses |
| CaseGenerator.CheckersAgree | scripts/generate_evaluation_cases.py:94-112 | over filters all read alike the generator gives a reason exactly when the arm is not eligible |
| CaseGenerator.ShippedKeysVisible | scripts/generate_evaluation_cases.py:45-58 | every filter key of the shipped catalogue is visible for the generator's columns |
| CaseGenerator.EdgeCases | scripts/generate_evaluation_cases.py:115-141 | the nested loops with both breaks compute the specified cases, or fail |
| CaseGenerator.EdgeCasesSound | scripts/generate_evaluation_cases.py:115-141 | as many cases as refusable clients, at most eight, each naming an offer violated for its own client |
| CaseGenerator.AdversarialCases | scripts/generate_evaluation_cases.py:144-163 | one case for each of the first eight clients, failing exactly when one of them has no id |
| CaseGenerator.TypicalCases | scripts/generate_evaluation_cases.py:166-202 | the grouping and collecting loops compute the specified cases, or fail |
| CaseGenerator.TypicalCasesFrom | scripts/generate_evaluation_cases.py:166-202 | at most eight cases, each expecting the first offer of its client's target category without an objection |
| Evaluation.Summarise | api_service/services/bandit/evaluation/harness.py:71-86 | the tallies are the per-type totals and passes, the failures the failed results |
| Evaluation.TotalsExactly | api_service/services/bandit/evaluation/harness.py:72-76 | a total is the number of results of its type |
| Evaluation.PassesExactly | api_service/services/bandit/evaluation/harness.py:72-76 | a passed count is the number of those that passed |
| Evaluation.FailuresExactly | api_service/services/bandit/evaluation/harness.py:81-85 | the failures are exactly the results that did not pass |
| Evaluation.AdversarialVerdictExactly | api_service/services/bandit/evaluation/harness.py:114-138 | an adversarial case passes exactly when all values give the same ranking, for Thompson the same arms |
| Evaluation.SummaryTellsPassed | api_service/services/bandit/evaluation/harness.py:53-86 | the report passes exactly when a blocking type was tallied and every blocking type passed in full |
| Evaluation.PassedExactly | api_service/services/bandit/evaluation/harness.py:61-69 | the report passes exactly when it has a blocking result and all of them passed |
| Evaluation.ResultsExactly | api_service/services/bandit/evaluation/harness.py:156-171 | the evaluation completes exactly when every case does; otherwise its outcome is the error of the first case that raises |
| Evaluation.RankUnder | api_service/services/bandit/evaluation/harness.py:121-125 | the loop collects the ranking under each perturbed value and changes no weights |
| Evaluation.RunCheck | api_service/services/bandit/evaluation/harness.py:102-153 | the dispatch computes the specified verdict and changes no weights |
| Evaluation.Evaluate | api_service/services/bandit/evaluation/harness.py:156-171 | the harness on the service object computes the specified results and leaves the evaluated weights as they were |
| GoldenSet.RankedIdsAreEligible | api_service/services/bandit/evaluation/harness.py:96-99 | a ranked case lists exactly the eligible arms whatever the model, weights and draws |
| GoldenSet.EdgeVerdictExactly | api_service/services/bandit/evaluation/harness.py:102-111 | any edge case passes exactly when the server refuses its arm |
| GoldenSet.EdgeCasePasses | api_service/services/bandit/evaluation/harness.py:102-111 | every generated edge case that can be ranked passes, for all algorithms and states |
| GoldenSet.AdversarialCasePasses | api_service/services/bandit/evaluation/harness.py:114-138 | every generated adversarial case passes: same order without sampling, same set with any draws |
| GoldenSet.RankedExactly | api_service/services/bandit/evaluation/harness.py:96-99 | a case is ranked without an exception, under every algorithm, state and draw, exactly when its income and context columns are readable |
| GoldenSet.TypicalPassesExactly | api_service/services/bandit/evaluation/harness.py:141-150 | under the baseline a typical case passes if and only if the server finds the expected arm eligible |
| GoldenSet.TypicalCaseFails | scripts/generate_evaluation_cases.py:21-24 | the witness: one arm with a percentile floor and a client in the lowest quarter give a typical case that the baseline does not confirm |
| GoldenSet.SuitePasses | api_service/services/bandit/evaluation/harness.py:61-69 | a report on generated and informational cases passes exactly when it holds a generated one |
| GoldenSet.UnknownTypeFails | api_service/services/bandit/evaluation/harness.py:162-169 | one case of unknown type fails the whole report |
| GoldenSet.GoldenSetHolds | scripts/generate_evaluation_cases.py:225-228 | from generator to report: for each algorithm, after any training and with any draws, the evaluation completes exactly when every case is readable, and then passes unless there were no clients |
| GoldenSet.FileContents | scripts/generate_evaluation_cases.py:60-163 | at most eight cases of a kind, exactly as many as there are refusable clients or clients; the adversarial ones vary sexo over M and F on their client's context |
| GoldenSet.Generate | scripts/generate_evaluation_cases.py:225-228 | the generator's main: the file of the three kinds of cases, or an exception, exactly when one of the three raises |
| GoldenSet.GenerateAndEvaluate | api_service/services/bandit/evaluation/harness.py:156-171 | generator, harness and summary on one service object: completes exactly when every case is readable, its summary then passes unless there were no clients, and the weights stay |

## Left out

- Floating point: rounding, `inf`/`nan` (and the `_finite` guard) and every `round(...)` are not modelled; all arithmetic is over the reals.
- Metrics.PsiIsDivergence: the logarithm is any function with ln 1 = 0, strict monotonicity and the reciprocal law; nothing else about it is used.
- Serving.RankingListsExactly: assumes distinct arm ids in the catalogue; with a repeated id the exclusion index keeps the last position only.
- LostUpdates.NoUpdateLost: excludes lock expiry and `reset` of the policy in question; ExpiryLosesUpdate and ResetLosesExactly show that both are needed.
- CaseGenerator.TypicalCases: a client's segments are a list or absent, as the loader stores them; Python's substring test on a text is not modelled.
- `mean_reward` and `build_metrics`: they only forward and round the modelled values.
- The explanatory `detail` texts of case results.
- Concurrent governance transactions (they are serial here), timestamps, list endpoints, and the hyperparameters of a policy, which no modelled code reads. The registry is an optional version string.
- The display fields copied from the catalogue into a response (product name, description, prices).
- Restored dictionaries with an unknown `name`, missing fields or other sizes; restoring is the `Put` of a whole state in Protocol, and the service is proved on the states the program itself writes.
- The arm-state projection, `/showcase` (a ranking with `top`), MLflow, Redis, Postgres, JSON and CSV loading: plumbing.
- The copy of the engine under `model_service/`, wallet debits, segment rules, user interfaces, agent and MCP services.
