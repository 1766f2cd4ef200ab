# Liquid staking hub: a verified model

The hub takes coins, delegates them to validators and mints stAtom for them. Holders hand stAtom back in
unbonding requests; requests gather in a batch, the batch is undelegated once an epoch, matures on the chain,
is released at a rate that accounts for slashing, and each user is paid. This project models that machine, the
stake allocator and the validators registry it relies on, and the fixed-point arithmetic underneath, and proves
what they keep on every run.

## How it is organised

| file | contents |
|---|---|
| `Results.dfy`, `FixedPoint.dfy`, `Sums.dfy` | outcomes, 128-bit and 18-digit arithmetic, finite sums |
| `Allocation.dfy`, `Sorting.dfy` | `calculate_delegations`, `calculate_undelegations` on arrays, and what is optimal about them |
| `Release.dfy` | the arithmetic of releasing batches |
| `HubTypes.dfy`, `ChainModel.dfy` | storage, the chain around the hub, and how emitted messages are carried out |
| `HubSpec.dfy` | each hub transaction as a function of storage and chain |
| `HubContract.dfy` | the contract as a class whose methods update the storage in place, proved equal to `HubSpec` |
| `Effects.dfy` | what a successful transaction does to storage and chain together |
| `Plans.dfy`, `Spreading.dfy` | which validators a bond and a closing request reach, and with how much |
| `Backing.dfy`, `ClaimLedger.dfy`, `Solvency.dfy` | the invariants, each with the steps that keep it |
| `Runs.dfy`, `SolvencyRuns.dfy`, `RateRuns.dfy`, `HistoryRuns.dfy`, `Widths.dfy` | theorems over all runs |
| `Registry.dfy` | the validators registry as a class, removals and redelegations |
| `Paging.dfy` | big-endian keys and the storage scan behind a history page |
| `Witnesses.dfy` | concrete releases that are not covered |
| `InsolventRun.dfy` | a concrete run from instantiation that ends in an insolvent hub |

A `World` is the hub's storage together with the chain it sees: token supply, delegations, coin balance, block
time. A transaction runs a handler and then carries out the messages it returned; an error in either leaves the
world unchanged (`HubSpec.Transact`), which is what the host does. The chain refuses a staking or bank message over
zero coins or over more than there is. A run is any sequence of transactions of any
users mixed with chain events: time passes, coins arrive, delegations are slashed or moved, holders burn tokens.
The epoch and unbonding periods are arguments of each transaction, so parameter updates are covered, and so is
every order in which the chain may list delegations.

All integers of the source are 128-bit (64-bit for ids and times) and panic on overflow. The model computes on
unbounded numbers and fails with `Overflow` wherever a stored or converted value would not fit.
`Decimal::from_ratio` and `Decimal * Uint128` belong to a library that is not part of this model; they are taken
to round down with a full-width intermediate product. A version that panics on a wider product only fails more
often.

## Main results

* **Solvency.** The hub is solvent when what all released and unpaid claims cost is at most `prev_hub_balance`,
  which is always at most the coins held. Solvency does not hold on every run of the code, because the sign of
  `value - charge` is dropped: `InsolventRun.RunBreaksSolvency` is a run from instantiation, eleven steps long, at
  the end of which one user has been paid another user's coin and that other user is refused.
  * The exact condition, for every run: `SolvencyRuns.AlwaysSolventIff`. The hub stays solvent throughout if and only
    if every withdrawal that goes through can be afforded: the released claims and those about to be released, at the
    rates they are about to get, cost no more than the balance.
  * That cost is the sum of the credits of the released batches up to a stated rounding, one coin for each released
    claim and one for each 10^18 tokens (`Solvency.ReleaseAddsCredits`). So a run whose successful withdrawals make
    covered releases stays solvent (`SolvencyRuns.RunStaysSolvent`), and a withdrawal whose credits exceed gain and
    reserve by more than the rounding leaves the hub insolvent (`SolvencyRuns.ExcessBreaksSolvency`).
  * When no coin arrived the cost is known to the coin (`SolvencyRuns.NothingArrivedSolventIff`): one for each batch
    that is worth nothing or has an unrounded weight, and is held by one claim that divides 10^18.
  * Coverage is equivalent to the credits staying within the gain (`Release.CoveredIff`). `Release.GuardCovers` gives a
    plain sufficient guard: some coins arrived, no batch with requests is worth zero, loss times batches at most 10^18;
    nothing to check without a loss. None of its parts can be dropped (`NoGainIsNotCovered`, `DustIsNotCovered`,
    `HugeLossIsNotCovered`), though none is necessary in every case: with no coin arrived,
    `Release.NothingArrivedCoveredIff` gives the exact condition for any number of batches, and for a single batch
    `Release.SingleBatchCoveredIff` reduces coverage to "a coin arrived, or none was due".
* **Backing and rate.** `Runs.RunKeeps` includes `rate * (supply + requested) <= bonded * 10^18`;
  `RateRuns.RateNeverDecreases` follows for runs without slashing.
* **Bond and unbond cannot profit**, for payments of any size (`RateRuns.BondCannotProfit`), with the one exception
  stated exactly by `RateRuns.ProfitableIff`: coins bonded that nobody has a claim on, after all holders burned.
  Then a bond of one coin buys them all.
* **Ledger, life cycle, payment.** `Runs.RunKeeps`, `SolvencyRuns.PaidWithinBatch`, `SolvencyRuns.PaidForEver`,
  `HistoryRuns.ClosedForEver`, `HistoryRuns.EpochsApart`. A withdrawal settles all released claims of its user and no
  other claim, and sends that user their sum (`Effects.WithdrawSettles`).
* **Widths.** `Widths.ReachableFits`: no stored number ever leaves its width.
* **Nothing gets stuck.** `RateRuns.UnbondSucceedsIff` says exactly when a request goes through;
  `RateRuns.UnbondNeverStuck`, `RateRuns.BondNeverStuck`, `SolvencyRuns.WithdrawNeverShort`,
  `Registry.RemovalNeverStuck`.
* **Allocation.** Exact, minimax on delegation, maximin on undelegation, one pass always enough; each plan is the only
  one that fills, or drains, the validators in order to even shares (`Allocation.DelegationsIff`, `UndelegationsIff`).
  `Spreading.BondSpreads`, `Spreading.CloseDraws` and `Registry.RemovalMovesAllStake` carry this through to the stakes
  that a bond, a closing request and a removal leave on each validator.

## Model

| member | source | states |
|---|---|---|
| SolvencyRuns.AlwaysSolventIff | contracts/lido_cosmos_hub/src/unbond.rs:31-89 | a solvent hub stays solvent in every world of a run if and only if each successful withdrawal finds a balance that covers the released claims and those it releases, at their new rates |
| SolvencyRuns.WithdrawalSolventIff | contracts/lido_cosmos_hub/src/unbond.rs:47-74 | one successful withdrawal leaves what is owed within the accounted balance if and only if it could be afforded |
| SolvencyRuns.RunStaysSolvent | contracts/lido_cosmos_hub/src/unbond.rs:31-89 | if the release of every successful withdrawal is covered, then in every world of the run what released unpaid claims pay is at most `prev_hub_balance`, which is at most the hub's balance |
| SolvencyRuns.ReachableSolvent | contracts/lido_cosmos_hub/src/unbond.rs:177-241 | the same from instantiation on, under the plain guard on each release |
| SolvencyRuns.ExcessBreaksSolvency | contracts/lido_cosmos_hub/src/unbond.rs:162-172 | a successful withdrawal whose release credits more than gain and reserve by more than the rounding leaves more owed than the hub accounts for |
| SolvencyRuns.NothingArrivedSolventIff | contracts/lido_cosmos_hub/src/unbond.rs:139-172 | when no coin arrived for matured batches worth up to 10^18, a successful withdrawal leaves the hub solvent if and only if the balance covers what was owed and one coin for each batch that is worth nothing or of exact weight and held by one claim dividing 10^18 |
| InsolventRun.RunBreaksSolvency | contracts/lido_cosmos_hub/src/unbond.rs:162-164 | a run from instantiation on, neither covered nor affordable, in which a user is paid the coin of another, whose released claim is then refused |
| SolvencyRuns.WithdrawNeverShort | contracts/lido_cosmos_hub/src/unbond.rs:56-74 | in a solvent world with a covered release a withdrawal fails only for having nothing to pay or for width; the subtraction that pays the user never fails |
| SolvencyRuns.PaidWithinBatch | contracts/lido_cosmos_hub/src/state.rs:104-125 | after any run, what was ever paid on a batch is at most the whole batch at its released rate, and nothing on an unreleased batch |
| SolvencyRuns.PaidForEver | contracts/lido_cosmos_hub/src/state.rs:59-72 | a claim once paid keeps its one payment and never reappears in the wait list |
| Solvency.ReleaseAddsDues | contracts/lido_cosmos_hub/src/unbond.rs:201-236 | a release raises what is owed by exactly what the waiting claims on the matured batches cost at their new rates |
| Solvency.ReleaseAddsCredits | contracts/lido_cosmos_hub/src/unbond.rs:201-236 | that increase is at most the credits of the released batches, and misses them by at most one coin a claim and one for each 10^18 tokens |
| Solvency.NothingArrivedDues | contracts/lido_cosmos_hub/src/unbond.rs:158-172 | in that case the release raises what is owed by exactly the number of those batches |
| Solvency.PayoutsMove | contracts/lido_cosmos_hub/src/unbond.rs:56-81 | a payout moves exactly from what is owed on a batch to what was paid on it |
| Solvency.ReleaseIsReprice | contracts/lido_cosmos_hub/src/unbond.rs:193-199 | with a balance not below the accounted one, the dropped sign of the balance change is harmless: the gain is the plain difference |
| Solvency.PayableWithinCredit | contracts/lido_cosmos_hub/src/unbond.rs:167-172 | a whole batch pays at most its credit, and less only by the 18-digit rounding of its rate |
| Solvency.FloorOfSumLoses | contracts/lido_cosmos_hub/src/state.rs:113-123 | paying n claims one by one loses fewer than n coins against paying their sum |
| Release.CoveredIff | contracts/lido_cosmos_hub/src/unbond.rs:129-173 | the credits of a release stay within the gain if and only if nothing was lost or the charges reach the loss plus two coins per overcharged batch |
| Release.GuardCovers | contracts/lido_cosmos_hub/src/unbond.rs:139-165 | positive gain, no dust and a bounded loss imply coverage |
| Release.SingleBatchCoveredIff | contracts/lido_cosmos_hub/src/unbond.rs:151-165 | a release of one batch is covered if and only if a coin arrived or none was due |
| Release.NothingArrivedCoveredIff | contracts/lido_cosmos_hub/src/unbond.rs:139-165 | when no coin arrived for batches worth up to 10^18, the release is covered if and only if no batch with requests is worth nothing or has an unrounded weight |
| Release.NoOverchargeCovers | contracts/lido_cosmos_hub/src/unbond.rs:158-165 | a bounded loss without overcharged batches is covered, whatever arrived |
| Release.TwoSidedBound | contracts/lido_cosmos_hub/src/unbond.rs:129-173 | the credits of n batches are at least the gain less 2n; after a loss at most the gain plus the number of overcharged batches, after a surplus at most the gain less the number of gaining ones |
| Release.SignDroppedIff | contracts/lido_cosmos_hub/src/unbond.rs:162-164 | a charge exceeds its batch exactly when the batch is worth nothing, or no coin arrived and its weight is not rounded |
| Release.ChargeProRata | contracts/lido_cosmos_hub/src/unbond.rs:139-161 | each charge is proportional to the batch's value, within one coin below and loss/10^18 above |
| Release.ChargesReachLoss | contracts/lido_cosmos_hub/src/unbond.rs:158-165 | the charges add up to at least the loss plus one coin per overcharged batch, and to at most one coin per batch above the loss |
| Release.GainKeepsCoinBack | contracts/lido_cosmos_hub/src/unbond.rs:151-157 | a batch that shares in a surplus loses nothing, keeps a whole coin back from its pro-rata part when it gains, and misses that part by less than two coins |
| Release.LossTakesCoin | contracts/lido_cosmos_hub/src/unbond.rs:158-165 | a batch that shares in a loss pays its pro-rata part and up to one coin more; one that cannot pay is credited one coin |
| Solvency.RateIsLargest | contracts/lido_cosmos_hub/src/unbond.rs:167-172 | the new rate is the largest at which the whole batch costs no more than its credit; an empty batch keeps its rate |
| Release.SurplusSums | contracts/lido_cosmos_hub/src/unbond.rs:151-157 | the bonuses stay below the surplus by at least one coin for every gaining batch, and fall short of it only by the rounding of each batch |
| Witnesses.DustIsNotCovered | contracts/lido_cosmos_hub/src/unbond.rs:158-165 | pending batches worth nothing break coverage although coins arrived and the loss is small |
| Witnesses.HugeLossIsNotCovered | contracts/lido_cosmos_hub/src/unbond.rs:140-146 | an enormous loss breaks the coverage of three pending batches through the 18-digit weights |
| Witnesses.NoGainIsNotCovered | contracts/lido_cosmos_hub/src/unbond.rs:162-164 | one pending batch for which no coin arrived is not covered |
| Runs.RunKeeps | contracts/lido_cosmos_hub/src/contract.rs:90-128 | every reachable world is backed, has its batches in order, its wait list adding up, each claim paid once, and `prev_hub_balance` within the balance |
| Runs.FailedTransactionChangesNothing | contracts/lido_cosmos_hub/src/contract.rs:91-128 | a transaction that fails leaves world and payments as they were |
| Widths.ReachableFits | packages/basset/src/hub.rs:23-33 | on every run rate, bonded total, supply, requests, wait list and history stay within 128 bits |
| Runs.InitialInv | contracts/lido_cosmos_hub/src/contract.rs:60-84 | instantiation establishes the invariant |
| Backing.SyncKeeps | contracts/lido_cosmos_hub/src/contract.rs:327-371 | the slash sync lowers the bonded total to the stakes, recomputes a backed rate, and never lowers the rate without a slash |
| Backing.CreditKeeps | contracts/lido_cosmos_hub/src/bond.rs:78-99 | bonding and bonding rewards keep the claims backed and do not lower the rate |
| Backing.SyncKeepsState | contracts/lido_cosmos_hub/src/contract.rs:329-349 | with nothing delegated or nothing bonded the sync leaves the state and its rate as they were |
| Backing.SyncRateIsLargest | contracts/lido_cosmos_hub/src/contract.rs:356-359 | the synchronised rate is the largest the bonded coins back, and one when nobody has a claim |
| Backing.CreditIsExact | contracts/lido_cosmos_hub/src/bond.rs:78-99 | a bond mints the largest covered number of tokens at an unchanged rate; rewards mint nothing and raise the rate to the largest backed one, or set it to one when nobody has a claim |
| Backing.CreditSucceedsIff | contracts/lido_cosmos_hub/src/bond.rs:78-99 | a bond is credited exactly when the rate is not zero and minted supply and bonded total are within width |
| Backing.CloseConserves | contracts/lido_cosmos_hub/src/unbond.rs:279-373 | a successful request after the epoch records exactly what was requested at the largest backed rate, and takes exactly what that is worth out of the synchronised bonded total and out of the stakes |
| Backing.WholeSlashLosesBacking | contracts/lido_cosmos_hub/src/contract.rs:327-361 | after a slash of the whole stake the sync leaves a rate of one with nothing bonded, or the stale state if no delegation is listed; either way the claims are not backed |
| Backing.CloseKeeps | contracts/lido_cosmos_hub/src/unbond.rs:345-354 | the claim of a closing batch is within the bonded total and leaves the rest backed |
| RateRuns.RateNeverDecreases | packages/basset/src/hub.rs:44-52 | along a run without slashing, while somebody has a claim, the exchange rate never decreases |
| RateRuns.BondCannotProfit | contracts/lido_cosmos_hub/src/bond.rs:78-99 | minted tokens valued at the rate recomputed after the bond are worth at most the payment, whatever its size |
| RateRuns.ProfitableIff | contracts/lido_cosmos_hub/src/bond.rs:78-99 | some bond transaction mints tokens worth more than its payment at the next rate only if coins are bonded that nobody has a claim on, and then a bond of one coin does |
| RateRuns.UnclaimedCoinsAreProfitable | packages/basset/src/hub.rs:44-52 | there, one coin buys one token, worth that coin and all the bonded ones |
| RateRuns.UnbondNeverStuck | contracts/lido_cosmos_hub/src/unbond.rs:279-354 | an unbonding request within the supply fails only on width, also when it closes the epoch |
| RateRuns.UnbondSucceedsIff | contracts/lido_cosmos_hub/src/unbond.rs:279-376 | a request within the supply goes through if and only if stakes, claims and synchronised rate are within width, and the next batch number too when it closes the epoch |
| RateRuns.ClaimWithinStakes | contracts/lido_cosmos_hub/src/unbond.rs:345-354 | after the sync the batch's claim is within the bonded total and that is within the stakes |
| RateRuns.WholeSlashBlocksUnbonding | contracts/lido_cosmos_hub/src/unbond.rs:345-354 | after a slash of the whole stake no request can close the epoch |
| RateRuns.BondNeverStuck | contracts/lido_cosmos_hub/src/bond.rs:114-129 | a bond with a payment and a registered validator fails only on width or on a rate of zero |
| RateRuns.BondSucceedsIff | contracts/lido_cosmos_hub/src/bond.rs:70-156 | a bond goes through if and only if there is a payment, a registered validator, a sync and a credit within width, and room beside the registered stakes |
| Spreading.BondSpreads | contracts/lido_cosmos_hub/src/bond.rs:100-129 | the registered validators, least stake first, receive the payment up to the even shares of what they then hold, leaving the smallest possible largest stake; nobody else's stake changes |
| Spreading.CloseDraws | contracts/lido_cosmos_hub/src/unbond.rs:243-275 | a closing request takes exactly the worth of the batch from what the validators hold above even shares, largest first, leaving the largest possible smallest stake; each loses its entry and nobody else anything |
| Spreading.EnteringDrawsNothing | contracts/lido_cosmos_hub/src/unbond.rs:299-322 | before the epoch has passed a request changes no stake and closes no batch |
| Effects.BondEffect | contracts/lido_cosmos_hub/src/bond.rs:70-156 | a bond with its messages carried out stakes exactly the payment, mints exactly the computed amount, and changes nothing but bonded total and rate in the storage |
| Effects.UndelegateEffect | contracts/lido_cosmos_hub/src/unbond.rs:243-275 | the undelegation succeeds exactly when something is delegated and the claim is within it, the chain carries it out, and it takes exactly the claim |
| Effects.UnbondEffect | contracts/lido_cosmos_hub/src/unbond.rs:279-376 | a request burns the tokens it enters and, when the epoch has passed, closes the batch at the current rate |
| Effects.WithdrawEffect | contracts/lido_cosmos_hub/src/unbond.rs:31-89 | a withdrawal releases, removes the user's released claims, pays exactly their sum and accounts for the balance that remains |
| Effects.WithdrawSettles | contracts/lido_cosmos_hub/src/unbond.rs:56-81 | a withdrawal settles exactly the claims of its user that are released by then, leaves every other entry alone, and sends that user the sum of each claim at its rate |
| SolvencyRuns.NothingWithdrawableIff | contracts/lido_cosmos_hub/src/unbond.rs:59-64 | nothing is withdrawable exactly when each of the user's claims is unreleased or worth no coin at its rate |
| ClaimLedger.ReleaseSucceedsIff | contracts/lido_cosmos_hub/src/unbond.rs:177-241 | a release goes through exactly when nothing has matured, or the total fits and every matured batch gets a rate |
| ClaimLedger.ReleaseEffect | contracts/lido_cosmos_hub/src/unbond.rs:201-238 | the rewriting loop gives new rates to exactly the batches the summing loop counted and leaves every other batch alone |
| ClaimLedger.ReleasesExactlyMatured | contracts/lido_cosmos_hub/src/unbond.rs:203-219 | one pass releases exactly the unreleased batches closed by the given time |
| ClaimLedger.ReleaseKeepsLifeCycle | contracts/lido_cosmos_hub/src/unbond.rs:184-238 | a release keeps the order of batches and moves the last processed batch on by the number of released ones |
| ClaimLedger.EnterKeepsOpen | contracts/lido_cosmos_hub/src/state.rs:39-56 | entering a request raises the sum of its batch by the amount and no other sum |
| ClaimLedger.RemoveOpen | contracts/lido_cosmos_hub/src/state.rs:59-72 | removing claims lowers the sums of their batches only |
| ClaimLedger.NothingBeyond | contracts/lido_cosmos_hub/src/unbond.rs:295-297 | nobody has an entry for a batch beyond the current one |
| HistoryRuns.ClosedForEver | contracts/lido_cosmos_hub/src/unbond.rs:229-233 | a closed batch keeps its number, time, amount and applied rate; its withdraw rate changes at its release only and never again |
| HistoryRuns.EpochsApart | contracts/lido_cosmos_hub/src/contract.rs:60-66 | on every run no batch is closed before a whole epoch has passed, counted from instantiation or from the batch before |
| HistoryRuns.HistoryPages | contracts/lido_cosmos_hub/src/state.rs:181-199 | in every reachable world fetching pages comes to an end and has then returned every closed batch exactly once, in order |
| HistoryRuns.HistoryPageIff | contracts/lido_cosmos_hub/src/state.rs:176-199 | a page is exactly the entries of the next batches after the start, without gaps, up to the limit |
| HistoryRuns.HistoryWalkLists | contracts/lido_cosmos_hub/src/state.rs:181-199 | pages of any limit of at least one, each fetched after the last entry of the one before, concatenate to all batches after the start |
| HistoryRuns.HistoryWalkExists | contracts/lido_cosmos_hub/src/state.rs:181-199 | fetching pages of any limit of at least one comes to an end |
| Paging.PageIff | contracts/lido_cosmos_hub/src/state.rs:176-199 | the keys of a page are exactly the next ids strictly after the start, without gaps, up to the limit (10 by default, at most 100) |
| Paging.PageLength | contracts/lido_cosmos_hub/src/state.rs:176-187 | a page has as many entries as are left, but at most the limit, at most 100, and at most 10 without a limit |
| Paging.KeyOrder | contracts/lido_cosmos_hub/src/state.rs:152-161 | byte order of the 8-byte keys is the numeric order of ids, and keys are distinct |
| Paging.StartKeyExcludes | contracts/lido_cosmos_hub/src/state.rs:201-207 | the appended byte makes the scan start strictly after the given id |
| Allocation.DelegationsConserve | contracts/lido_cosmos_validators_registry/src/common.rs:19-60 | delegation succeeds exactly for a non-empty list within width, and places exactly the amount |
| Allocation.DelegationsIff | contracts/lido_cosmos_validators_registry/src/common.rs:19-60 | the plan is the only way to place the amount, in list order, into the room below the even shares of the new total |
| Allocation.UndelegationsIff | contracts/lido_cosmos_validators_registry/src/common.rs:62-109 | the plan is the only way to take the amount, in list order, from what lies above the even shares of the rest |
| Allocation.DelegationMinimax | contracts/lido_cosmos_validators_registry/src/common.rs:28-51 | no other split of the amount leaves a smaller largest stake |
| Allocation.UndelegationsConserve | contracts/lido_cosmos_validators_registry/src/common.rs:62-109 | undelegation succeeds exactly within the total, takes exactly the amount, and from nobody more than it holds |
| Allocation.UndelegationMaximin | contracts/lido_cosmos_validators_registry/src/common.rs:80-107 | no other way to take the amount leaves a larger smallest stake |
| Allocation.UndelegationsComplete | contracts/lido_cosmos_validators_registry/src/common.rs:80-107 | the first pass over the validators uses up the request |
| Allocation.DelegationPathIndependent | contracts/lido_cosmos_validators_registry/src/common.rs:28-47 | on a balanced pool delegating A then B reaches what delegating A + B reaches |
| Allocation.DelegateThenUndelegate | contracts/lido_cosmos_validators_registry/src/common.rs:80-107 | on a balanced pool undelegating the amount just delegated takes back each single delegation |
| Allocation.CalculateDelegations | contracts/lido_cosmos_validators_registry/src/common.rs:19-60 | the loop computes the delegation plan; its closing error cannot occur |
| Allocation.CalculateUndelegations | contracts/lido_cosmos_validators_registry/src/common.rs:62-109 | the nested loops compute the undelegation plan, and the outer loop turns at most once |
| Sorting.SortKeeps | contracts/lido_cosmos_hub/src/unbond.rs:259 | the sort orders the validators by stake and keeps the entries and their total |
| Sorting.SortStable | contracts/lido_cosmos_validators_registry/src/contract.rs:205 | validators with the same stake keep their order |
| ChainModel.DispatchDelegations | contracts/lido_cosmos_hub/src/bond.rs:120-129 | the delegate messages of a plan move exactly its sum out of the balance, to each validator its entry |
| ChainModel.DispatchUndelegations | contracts/lido_cosmos_hub/src/unbond.rs:263-273 | the undelegate messages of a plan within the stakes are never refused and take exactly its entries |
| FixedPoint.DecimalDivisionIsLargest | contracts/lido_cosmos_hub/src/math.rs:20-23 | the division returns the largest number of tokens the payment covers at the rate |
| FixedPoint.FromSubtraction | packages/signed_integers/src/signed_integer.rs:13-24 | sign and magnitude of a difference |
| HubContract.Hub.Transaction | contracts/lido_cosmos_hub/src/contract.rs:91-128 | a transaction on the stored fields does what the transaction function says, and a failed one leaves storage and chain, with the coins sent along, as before |
| HubContract.Hub.ExecuteBond | contracts/lido_cosmos_hub/src/bond.rs:28-167 | the bond handler stores and emits what the transaction function says, whose effects Effects.BondEffect and Spreading.BondSpreads state |
| HubContract.Hub.ExecuteUnbond | contracts/lido_cosmos_hub/src/unbond.rs:279-337 | the unbond handler stores and emits what its specification says |
| HubContract.Hub.ProcessUndelegations | contracts/lido_cosmos_hub/src/unbond.rs:339-376 | closing the batch stores the history entry and returns the new state, batch and messages of the transaction function, whose effects Backing.CloseConserves and Spreading.CloseDraws state |
| HubContract.Hub.ExecuteWithdrawUnbonded | contracts/lido_cosmos_hub/src/unbond.rs:31-89 | the withdraw handler stores and emits what the transaction function says, whose effects Effects.WithdrawSettles states |
| HubContract.Hub.CalculateNewlyAddedUnbondedAmount | contracts/lido_cosmos_hub/src/unbond.rs:91-127 | the first loop counts the matured batches and sums what they are worth |
| HubContract.Hub.ReleaseBatches | contracts/lido_cosmos_hub/src/unbond.rs:201-236 | the second loop, rewriting the history it walks over, stops where the first one stopped |
| HubContract.Hub.GetFinishedAmount | contracts/lido_cosmos_hub/src/state.rs:104-125 | the loop returns the sum of the user's released claims and exactly those claims: each entry of the user on a released batch |
| HubContract.Hub.QueryActualState | contracts/lido_cosmos_hub/src/contract.rs:327-361 | adding the listed delegations up yields the synchronised state, in whatever order they are listed |
| HubContract.Hub.StoreUnbondWaitList | contracts/lido_cosmos_hub/src/state.rs:39-56 | a request is added to the user's entry for the batch |
| HubContract.Hub.RemoveUnbondWaitList | contracts/lido_cosmos_hub/src/state.rs:59-72 | exactly the given claims are removed |
| Registry.RemovalMovesAllStake | contracts/lido_cosmos_validators_registry/src/contract.rs:122-198 | removing a fully redelegable validator gives its whole stake to the remaining ones, least stake first up to even shares, with the smallest possible largest stake, and keeps the hub's total |
| Registry.RemovalLeavesStake | contracts/lido_cosmos_validators_registry/src/contract.rs:145-156 | a stake that may not be moved now is left alone: the validator leaves the registry without a message |
| Registry.LastStays | contracts/lido_cosmos_validators_registry/src/contract.rs:136-141 | the last validator cannot be removed |
| Registry.StepRegisters | contracts/lido_cosmos_validators_registry/src/contract.rs:101-132 | an added validator is registered afterwards, one whose removal went through is not, and no other registration changes |
| Registry.RemovalTargets | contracts/lido_cosmos_validators_registry/src/contract.rs:164-180 | redelegations are nonzero and go to distinct validators that stay registered |
| Registry.RunConserves | contracts/lido_cosmos_validators_registry/src/contract.rs:101-198 | no run of additions and removals empties a registry or changes the hub's total stake |
| Registry.RemovalNeverStuck | contracts/lido_cosmos_validators_registry/src/contract.rs:134-165 | a removal fails only for the last validator or on width |
| Registry.ValidatorsRegistry.RemoveValidator | contracts/lido_cosmos_validators_registry/src/contract.rs:122-198 | the contract does what the removal function says, and a failed removal changes nothing |
| Registry.ValidatorsRegistry.QueryValidators | contracts/lido_cosmos_validators_registry/src/contract.rs:217-246 | every registered validator is reported with the hub's stake on it, zero when there is none |
| Registry.ValidatorsRegistry.AddValidator | contracts/lido_cosmos_validators_registry/src/contract.rs:101-120 | the validator is registered |

## Left out

- Serialisation, storage prefixes, queriers and schemas: storage is maps; only the byte order of history keys is modelled.
- The stAtom token contract: only its total supply is kept, starting at zero; balances per holder, refusal of zero amounts and its pause switch are not modelled. A refused message would only roll more transactions back.
- The `CheckSlashing` call that the token sends back to the hub for every burn (contracts/lido_cosmos_token_statom/src/handler.rs:44-63): an unbond or a holder's burn ends with one more rate sync there. Here that is a `CheckSlashing` step of its own, which may follow at once; only that its overflow would undo the burn is lost.
- Delegations and coins of another denomination: every amount is in the underlying coin.
- The rewards dispatcher and reward withdrawal: rewards are an arbitrary `BondRewards` payment.
- Configuration, guardians, pausing, ownership and the sender checks: one-branch checks that only refuse transactions.
- `query_get_finished_amount`: by design not the amount that is paid.
- Delivery of unbonded coins: the balance may grow by any amount at any time, so only safety is proved, not that coins come.
- A slash of the whole stake while coins are bonded: excluded as a step of a run, because backing and unbonding are then lost in the code (Backing.WholeSlashLosesBacking, RateRuns.WholeSlashBlocksUnbonding), whether the list of delegations is empty or lists nothing but zeros.
- Release.GuardCovers: one direction only; the exact condition is the one of Release.CoveredIff.
- SolvencyRuns.RunStaysSolvent: one direction only; the exact condition is the one of SolvencyRuns.AlwaysSolventIff, and between the two lies the rounding of Solvency.ReleaseAddsCredits.
- SolvencyRuns.ExcessBreaksSolvency: one direction only; while the loss is bounded as in the guard, the rounding makes up for every overcharge, and only SolvencyRuns.AlwaysSolventIff and SolvencyRuns.NothingArrivedSolventIff decide to the coin.
- RateRuns.RateNeverDecreases: says nothing while nobody has a claim, when the code resets the rate to one.
- `State` is a value that handlers load, change and save, as in the source; its rate update is the function `HubSpec.ExchangeRate`.
- The order in which a user's claims, the delegations or the registry are listed: arbitrary, where the source has the byte order of keys.
- The message that dispatches rewards after a removal.
