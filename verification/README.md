# Stablecoin SDK: a verified model

The SDK of a collateralised stablecoin has three parts with state, arithmetic and
branching of their own: a fixed-point library with a fee and trove algebra (`lib-base`),
a subgraph that indexes protocol events into entities and running totals (`subgraph`),
and clients that validate trove changes, batch node calls, cache state and look for
insertion hints (`dev-frontend`, `lib-ethers`). The project models all three and proves
what they are meant to keep. Check everything with `dafny verify dfyconfig.toml`.

| file | what it models |
|---|---|
| `Arithmetic`, `Algebra`, `MapSums`, `Wrappers` | floors and ceilings as adjunctions, powers, sums over maps, options and results |
| `Decimals`, `DecimalText`, `PrintedText` | 18-digit decimals: arithmetic, `pow` by square-and-multiply, parsing, printing |
| `Fees`, `Troves`, `Redistribution` | decaying fees, trove differences and patches, sort keys and lazy accrual |
| `RatioBounds`, `TroveValidation`, `TroveAcceptance` | the validator of trove changes, whole runs of accepted changes, and exactly which changes are accepted |
| `Entities`, `IndexerSpec`, `Indexer`, `IndexerSteps` | the subgraph: its entities, the effect of each event in one step, and the class whose methods load copies, nest saves and still have exactly that effect |
| `IndexerEvents` | what each event leaves in the store, without reference to how it is computed |
| `Books`, `IndexerBooks`, `IndexerLiquidations`, `IndexerGroups`, `IndexerTroves`, `IndexerPairs`, `IndexerStakes` | what every run of the subgraph keeps |
| `IndexerWitnesses` | short runs of the subgraph on which a conditional property fails |
| `Batching`, `ProtocolStore`, `Hints` | the call batcher, the store with its cached derived state, hint correction |

Amounts are natural numbers of units of 10^-18 over unbounded integers, as in the
source. The subgraph's handlers are specified twice: `IndexerSpec` gives the new contents
of the store outright, and `Indexer.Store` follows the source step by step. Since every
method of the class equals its specification, no save of the `Global` record is lost,
although `updateTrove` holds a copy that goes stale. All laws on runs are then proved about
the specification, from any store in which nothing has been saved yet (`Fresh`), and
`IndexerEvents.EveryEvent` says in plain amounts what the specification leaves after each event.

## Findings

Where a promised property holds only under a condition, the condition is exact, and a
lemma shows an input on which it fails.

- The four status counters of `Global` drift: `getTrove` counts a trove that a first event
  of (0, 0) then never stores, and a closed trove that is closed again in another way is
  counted under both statuses and taken from the open ones (`PhantomIsCounted`,
  `TwiceClosedIsCountedTwice`). They match the stored troves if and only if neither happens
  (`CountersMatchIffNoDrift`); in all cases each is off by exactly the run's drift.
  `WellFormedRunNeverDrifts` gives a condition on the events alone under which neither happens.
- The counters of protocol token stakes drift as well: the removal of a stake that holds
  nothing takes it from the active ones, and a stake whose first event puts nothing into it is
  never counted (`NothingIsRemoved`). Each is off by exactly the number of such events, so it
  is right if and only if there were none (`StakeCountersMatchIff`), for which
  `WellStakedRunMatches` gives a condition on the events alone.
- An accepted borrowing in recovery mode can lower the floored total ratio by one unit
  (`OneUnitIsLost`), and never by more (`RecoveryModeSafety`).
- A batched call is rejected when a neighbour in the same batch fails (`NeighbourIsRejected`).
  It has the outcome of a direct call if and only if its own call fails or all calls of the
  batch succeed (`BatchingRefinesDirectCalls`). A call without target or data that could be
  batched is rejected without being made.
- A positive exponent is applied to a text after the digits beyond the 18th are cut off;
  `0.0000000000000000001e1` is read as zero (`ExponentLosesDigits`). The exact value is read
  if and only if the digits that would move into the first 18 places are zeros
  (`PositiveExponentIsExactIff`).
- The two events of one deposit operation can come in either order when no deposit update
  is pending before them (`OrderDoesNotMatter`). With one pending they can if and only if the
  new deposit is zero, the pending one is what the gain leaves of it, and there is no gain or
  no change but the gain's (`OrderDoesNotMatterIff`). A lone event makes an update pending
  (`LoneEventMakesOrderMatter`).
- A comment in `SfStablecoinStore.ts` says that the derived state is recomputed at every
  update to follow the passage of time. The fees are evaluated at the time of the latest
  block in the base state, so without new base values nothing changes (`NoNewsNoChange`).
- With an infinite ratio the first insertion hint is always the zero address, and the second
  is the first trove of the list, which is usable if and only if it is not the own one
  (`InfiniteRatioHints`), while for finite ratios both hints are usable (`HintsAreUsable`).

## Model

| member | source | states |
|---|---|---|
| `Decimals.Pow` | packages/lib-base/src/Decimal.ts:237-261 | the loop computes the square-and-multiply power of its specification `PowOf` |
| `Decimals.PowAccuracy` | packages/lib-base/src/Decimal.ts:237-261 | for every base in [0, 1] and every exponent n > 0, the power is within (n - 1)/2 units of the exact one |
| `Decimals.PowWhole` | packages/lib-base/src/Decimal.ts:237-261 | whole numbers are raised exactly |
| `Decimals.PowMonotone` | packages/lib-base/src/Decimal.ts:237-261 | the power is monotone in its base, in spite of the rounding at each step |
| `Decimals.PowBelow` | packages/lib-base/src/Decimal.ts:237-261 | a power of a base up to one never exceeds the base |
| `Decimals.RoundedMulError` | packages/lib-base/src/Decimal.ts:17 | a rounded product is off by at most half a unit |
| `Decimals.InfinityIsLargestWord` | packages/lib-base/src/Decimal.ts:36 | infinity is the largest number of 256 bits |
| `Decimals.ProductsAndQuotients` | packages/lib-base/src/Decimal.ts:199-235 | products and quotients are the greatest decimals below the exact value, `_divCeil` the least above it, and division by zero is infinity |
| `DecimalText.ParseMeaning` | packages/lib-base/src/Decimal.ts:65-109 | what every text of the format denotes: one floor at 18 digits, which a negative exponent moves to the end, and after which a positive one is applied |
| `DecimalText.ParseAccepts` | packages/lib-base/src/Decimal.ts:13-72 | parsing succeeds on exactly the texts of the regular expression with a non-empty coefficient |
| `DecimalText.CoefficientIsParsedAlone` | packages/lib-base/src/Decimal.ts:70-91 | parsing the part before the exponent by itself is what the source does by calling itself |
| `DecimalText.PositiveExponentIsExactIff` | packages/lib-base/src/Decimal.ts:85-91 | a positive exponent gives the exact value, floored, if and only if the cut-off digits it would have moved up are zeros |
| `DecimalText.ExponentLosesDigits` | packages/lib-base/src/Decimal.ts:85-91 | the text 0.0000000000000000001e1 is read as zero, where the exact value is one unit |
| `DecimalText.FitValue` | packages/lib-base/src/Decimal.ts:97-103 | padding or cutting the mantissa to 18 digits floors it |
| `DecimalText.ParsePrint` | packages/lib-base/src/Decimal.ts:128-139 | parsing undoes printing for every finite decimal, and fails on infinity |
| `DecimalText.PrintIsInjective` | packages/lib-base/src/Decimal.ts:164-172 | no two decimals print alike |
| `PrintedText.PrintIsTrimmed` | packages/lib-base/src/Decimal.ts:128-139 | a printed decimal has no zeros in front, no point exactly if it is whole, and otherwise up to 18 digits after it, the last of which is not zero |
| `PrintedText.PrintIsShortest` | packages/lib-base/src/Decimal.ts:128-139 | of all texts without an exponent, with a digit in front, that are read as this decimal, the printed one is the shortest |
| `DecimalText.ParsePrintWithPrecision` | packages/lib-base/src/Decimal.ts:146-162 | printing with p < 18 digits gives the nearest multiple of 10^(18 - p), ties up and carries included; from 18 on it is exact |
| `PrintedText.PlacesAreAsAsked` | packages/lib-base/src/Decimal.ts:146-172 | with a precision, exactly so many digits up to 18 follow the point, and no point for none; a negative precision is an error, except for infinity |
| `FeeRates.BaseRateNeverGrows` | packages/lib-base/src/Fees.ts:82-92 | the decayed rate never exceeds the undecayed one, and equals it within the first minute and before the last operation |
| `FeeRates.BaseRateAccuracy` | packages/lib-base/src/Fees.ts:82-92 | after n minutes a rate up to 100% is within (n + 1)/2 units of exact exponential decay |
| `FeeRates.MinutesAreWhole` | packages/lib-base/src/Fees.ts:82-92 | the minutes of the decay are whole ones since the last fee operation, and none before it |
| `FeeRates.RateMonotone` | packages/lib-base/src/Fees.ts:82-92 | a larger undecayed rate or slower decay never gives a smaller base or borrowing rate, at any time |
| `FeeRates.BorrowingRateBounds` | packages/lib-base/src/Fees.ts:115-119 | borrowing is free in recovery mode, otherwise between 0.5% and 5%, and never more than 0.5% above the undecayed rate |
| `FeeRates.BorrowingRateExactly` | packages/lib-base/src/Fees.ts:115-119 | outside recovery mode the rate is 0.5% above the base rate, or 5% if that is more |
| `FeeRates.RedemptionRateBounds` | packages/lib-base/src/Fees.ts:150-159 | redemption costs between 0.5% and 100%, and never less for a larger redeemed fraction |
| `FeeRates.RedemptionRateExactly` | packages/lib-base/src/Fees.ts:150-159 | below 100% the rate exceeds 0.5% and the base rate by the redeemed fraction divided by beta, rounded down; 100% is reached exactly when beta is zero or times what those leave up to 100% is at most the fraction; redeeming nothing costs 0.5% above the base rate |
| `Troves.FeeAdjunction` | packages/lib-base/src/Trove.ts:396-400 | un-applying the fee gives the least borrowing whose debt, fee included, reaches the target |
| `Troves.UnapplyApply` | packages/lib-base/src/Trove.ts:396-400 | un-applying undoes applying, for every amount and rate |
| `Troves.ApplyUnapply` | packages/lib-base/src/Trove.ts:396-400 | applying after un-applying overshoots by at most one unit at rates up to 100%, and never falls short |
| `Troves.ApplyUnapplyExact` | packages/lib-base/src/Trove.ts:396-400 | it is exact if and only if some borrowing causes the increase |
| `Troves.FeeIsAdded` | packages/lib-base/src/Trove.ts:396-397 | the fee is the borrowed amount times the rate, rounded down, on top of it |
| `Troves.RatioIsFloor` | packages/lib-base/src/Trove.ts:446-448 | the ratio is the floor of collateral times price by debt, and infinite without debt |
| `Troves.OpeningOrClosing` | packages/lib-base/src/Trove.ts:561-599 | opening names the deposit and the least borrowing beyond the reserve of 20, or is invalid below it; closing names all collateral and the debt beyond the reserve |
| `Troves.AdjustmentFormula` | packages/lib-base/src/Trove.ts:607-667 | an adjustment sets a component to zero or moves both by their amounts, the fee included, and none below zero |
| `Troves.WhatChangedOutcome` | packages/lib-base/src/Trove.ts:561-599 | a difference fails only for closing a trove below the reserve, and is empty only between equal troves |
| `Troves.ApplyWhatChanged` | packages/lib-base/src/Trove.ts:607-667 | applying the difference gives the target collateral and the target debt up to one unit of fee rounding; exactly so without a fee or without more debt |
| `Troves.WhatChangedBorrowsLeast` | packages/lib-base/src/Trove.ts:540-544 | no smaller borrowing reaches the target debt |
| `Troves.RediffIsStable` | packages/lib-base/src/Trove.ts:561-599 | the difference to the trove actually reached is the same change |
| `Troves.ZeroingIsPreserved` | packages/lib-base/src/Trove.ts:573-599 | a component that a change drives to zero ends at zero on every trove, and no other does |
| `Troves.ClosureEmptiesAnyTrove` | packages/lib-base/src/Trove.ts:613-630 | a closure empties every trove but an empty one, on which it fails |
| `Troves.RecreateCreate` | packages/lib-base/src/Trove.ts:675-697 | recreating finds the parameters that a trove was created with |
| `Troves.CreateRecreate` | packages/lib-base/src/Trove.ts:675-697 | creating again from them gives back every trove that holds the reserve, up to one unit |
| `Troves.AdjustToNamesDifferences` | packages/lib-base/src/Trove.ts:710-714 | an adjustment names exactly the components that differ, with their amounts |
| `Troves.AdjustToAdjust` | packages/lib-base/src/Trove.ts:699-714 | `adjustTo` inverts `adjust` if and only if the trove existed, still exists, and no subtraction was cut off at zero |
| `Troves.NormalizationOutcome` | packages/lib-base/src/Trove.ts:386-394 | an adjustment is valid exactly when it moves something, and nothing both ways; amounts of zero are dropped |
| `Redistribution.SortKeyIsRedistributionProof` | packages/subgraph/src/entities/Trove.ts:143-155 | key plus any later total is the debt per stake with everything accrued up to it, floored |
| `Redistribution.SortKeyOrder` | packages/subgraph/src/entities/Trove.ts:143-155 | comparing stored keys compares accrued debt per stake at every total |
| `Redistribution.SortKeyGap` | packages/subgraph/src/entities/Trove.ts:143-155 | against the floored accrual the key is off by less than 10^18/stake + 1 |
| `Redistribution.LazyAccrual` | packages/subgraph/src/entities/Trove.ts:180-205 | accruing in n steps credits between 0 and n - 1 units less than accruing once |
| `Redistribution.GainsNeverExceedPool` | packages/lib-base/src/Trove.ts:806-817 | the credits to troves with one snapshot never exceed the credit to their summed stake |
| `Redistribution.IndexerMatchesLibrary` | packages/lib-base/src/Trove.ts:806-817 | the subgraph's credit is lib-base's if and only if the snapshot is not a whole credited unit ahead of the total |
| `Redistribution.TruncDivDropsFraction` | packages/subgraph/src/entities/Trove.ts:143-155 | a quotient of the subgraph is the exact one with its fraction dropped, on both sides of zero |
| `TroveValidation.RecoveryModeSafety` | packages/dev-frontend/src/components/Trove/validation/validateTroveChange.tsx:207-216 | an accepted change in recovery mode lowers the floored total ratio by at most one unit, and creations and changes that add no debt never do |
| `TroveValidation.AcceptedInRecovery` | packages/dev-frontend/src/components/Trove/validation/validateTroveChange.tsx:267-293 | what acceptance in recovery mode says about the resulting trove |
| `TroveValidation.OneUnitIsLost` | packages/dev-frontend/src/components/Trove/validation/validateTroveChange.tsx:286-292 | the bound of one unit is reached |
| `TroveValidation.NormalModeSafety` | packages/dev-frontend/src/components/Trove/validation/validateTroveChange.tsx:295-320 | an accepted change in normal mode keeps the system out of recovery mode, and its trove at the minimum ratio unless closed |
| `TroveValidation.AcceptedTrove` | packages/dev-frontend/src/components/Trove/validation/validateTroveChange.tsx:185-402 | in both modes the trove has the edited collateral and at least the minimum debt, and is closed exactly when edited to nothing; which changes are accepted is said by the three lemmas below |
| `TroveAcceptance.NothingToAccept` | packages/dev-frontend/src/components/Trove/validation/validateTroveChange.tsx:133-137 | without a difference there is neither a change nor a reason |
| `TroveAcceptance.CreationAcceptedIff` | packages/dev-frontend/src/components/Trove/validation/validateTroveChange.tsx:185-248 | a creation is accepted if and only if its debt holds the reserve, it borrows at least 200, its trove covers 110% and leaves the total at 150%, or covers 150% itself in recovery mode, and its deposit can be paid |
| `TroveAcceptance.AdjustmentAcceptedIff` | packages/dev-frontend/src/components/Trove/validation/validateTroveChange.tsx:250-352 | an adjustment is accepted if and only if it changes something, meets the ratios and takes no collateral in recovery mode, leaves a repaid debt of at least 220, and repayment and deposit can be paid |
| `TroveAcceptance.ClosureAcceptedIff` | packages/dev-frontend/src/components/Trove/validation/validateTroveChange.tsx:354-402 | a closure is accepted if and only if the trove holds the reserve and is not the only one, in normal mode, the debt beyond the reserve can be paid, and the total stays at 150% |
| `TroveAcceptance.FirstReasonIsGiven` | packages/dev-frontend/src/components/Trove/validation/validateTroveChange.tsx:185-402 | a change is rejected with the first true reason in the order for its kind, and accepted as it is if none is true |
| `TroveValidation.ValidationIsTotal` | packages/dev-frontend/src/components/Trove/validation/validateTroveChange.tsx:124-183 | on a system whose troves hold the minimum debt, validation never throws |
| `TroveValidation.StepTakesEffect` | packages/dev-frontend/src/components/Trove/validation/validateTroveChange.tsx:137-183 | an accepted request gives its owner the edited trove, its debt up to one unit of fee rounding more at rates up to 100%, or none if edited to nothing; no other trove changes, and a rejected request changes nothing |
| `TroveValidation.StepKeepsConsistent` | packages/dev-frontend/src/components/Trove/validation/validateTroveChange.tsx:124-183 | the total stays the sum of the troves, each with the minimum debt, and the last trove stays |
| `TroveValidation.RunSafety` | packages/dev-frontend/src/components/Trove/validation/validateTroveChange.tsx:124-402 | on every run of requests in any mode, all this is kept, and the total ratio, capped at the critical one, falls by no more units than there were borrowings in recovery mode |
| `TroveValidation.NormalRunSafety` | packages/dev-frontend/src/components/Trove/validation/validateTroveChange.tsx:185-402 | from normal mode, no run of requests enters recovery mode, and every trove it changed is at the minimum ratio |
| `Indexer.Store.IncreaseCounter` | packages/subgraph/src/entities/Global.ts:38-46 | a counter moves by one and nothing else changes |
| `Indexer.Store.GetTransaction` | packages/subgraph/src/entities/Transaction.ts:11-27 | a transaction is stored once, under the next number |
| `Indexer.Store.GetCurrentSystemState` | packages/subgraph/src/entities/SystemState.ts:32-56 | the current state, stored first if there is none |
| `Indexer.Store.BumpSystemState` | packages/subgraph/src/entities/SystemState.ts:58-67 | a state is stored under the next number and made current |
| `Indexer.Store.StartChange` | packages/subgraph/src/entities/Change.ts:7-18 | the next change number is taken and the state before is linked, as if in one step |
| `Indexer.Store.FinishChange` | packages/subgraph/src/entities/Change.ts:20-24 | the change is stored with the state after |
| `Indexer.Store.OffsetWithStabilityPool` | packages/subgraph/src/entities/SystemState.ts:121-144 | a liquidation is offset wholly, partly or not at all |
| `Indexer.Store.MoveByTroveChange` | packages/subgraph/src/entities/SystemState.ts:146-178 | the method moves totals, pool and ratio as its specification does; `Books.TroveChangeMoves` says by how much |
| `Books.TroveChangeMoves` | packages/subgraph/src/entities/SystemState.ts:146-178 | for every operation, the totals, the pool and the ratio after it, from operation, price, pool, debt and collateral only: borrower operations and redemptions move both totals, liquidations the compensation and what the pool takes, accruals nothing |
| `Books.LiquidationInFigures` | packages/subgraph/src/entities/SystemState.ts:121-178 | a liquidation in normal mode, or of a trove above 100% in recovery mode, takes min(pool, debt) from the pool and the debt, and from the collateral a 200th and the rest, or the pro-rata part of it; any other one takes the 200th only |
| `Books.EffectIsMoved` | packages/subgraph/src/entities/SystemState.ts:146-215 | the same for every kind of change: deposits, prices, surpluses and stakes move their own total only |
| `Indexer.Store.Move` | packages/subgraph/src/entities/SystemState.ts:146-215 | each kind of change moves its own totals only |
| `Indexer.Store.GetTrove` | packages/subgraph/src/entities/Trove.ts:27-50 | an unknown trove is counted before it is stored |
| `Indexer.Store.SetTroveStatus` | packages/subgraph/src/entities/Trove.ts:52-74 | the counters of the status left and the status entered, as the source moves them |
| `Indexer.Store.GetCurrentLiquidation` | packages/subgraph/src/entities/Liquidation.ts:11-36 | the open liquidation, opened first if there is none; its nested saves commute |
| `Indexer.Store.GetCurrentRedemption` | packages/subgraph/src/entities/Redemption.ts:11-37 | the same for redemptions |
| `Indexer.Store.FinishLiquidation` | packages/subgraph/src/entities/Liquidation.ts:38-55 | the record is completed and closed |
| `Indexer.Store.FinishRedemption` | packages/subgraph/src/entities/Redemption.ts:39-60 | the record is completed and closed, and its fee added to the total |
| `Indexer.Store.UpdateTrove` | packages/subgraph/src/entities/Trove.ts:89-170 | the whole new store, although records are opened and `Global` is saved inside and a stale copy of it is held |
| `Indexer.Store.AccrueBeforeLiquidation` | packages/subgraph/src/entities/Trove.ts:180-205 | a trove is credited its share before it is liquidated |
| `Indexer.Store.PayBorrowingFee` | packages/subgraph/src/mappings/BorrowerOperations.ts:22-25 | the fee is set on the last change and added to the total |
| `Indexer.Store.UpdateTotalRedistributed` | packages/subgraph/src/entities/Global.ts:74-80 | the totals per stake are replaced |
| `Indexer.Store.UpdatePrice` | packages/subgraph/src/entities/SystemState.ts:95-119 | a first price fills the current state, a new one is a change |
| `Indexer.Store.ChangePrice` | packages/subgraph/src/entities/SystemState.ts:109-118 | the copy of the state held while the change is started is moved and saved as the next state |
| `Indexer.Store.UpdateDeposit` | packages/subgraph/src/entities/StabilityDeposit.ts:71-100 | a deposit moves, with its change and system state |
| `Indexer.Store.WithdrawGain` | packages/subgraph/src/entities/StabilityDeposit.ts:102-126 | a deposit loses what the pool has offset, without moving the pool |
| `Indexer.Store.SwapTmpDepositUpdate` | packages/subgraph/src/mappings/StabilityPool.ts:25-33 | the value is stored if nothing is pending; what was pending is cleared and returned |
| `Indexer.Store.HandleUserDepositChanged` | packages/subgraph/src/mappings/StabilityPool.ts:35-41 | the update waits for the gain, or completes it |
| `Indexer.Store.HandleGainWithdrawn` | packages/subgraph/src/mappings/StabilityPool.ts:43-58 | the gain is withdrawn, and a waiting update made |
| `Indexer.Store.UpdateCollSurplus` | packages/subgraph/src/entities/User.ts:38-64 | a surplus moves, with its change and system state |
| `Indexer.Store.UpdateStake` | packages/subgraph/src/entities/ProtocolTokenStake.ts:73-106 | a stake is created, increased, decreased or removed |
| `Indexer.Store.RecordStakeChange` | packages/subgraph/src/entities/ProtocolTokenStake.ts:83-103 | the counters saved inside a started change are not lost |
| `Indexer.Store.WithdrawStakeGains` | packages/subgraph/src/entities/ProtocolTokenStake.ts:108-132 | gains are recorded without moving the stake |
| `Indexer.Store.HandleEvent` | packages/subgraph/src/mappings/TroveManager.ts:16-55 | every event has exactly its specified effect on the whole store |
| `Indexer.Store.Index` | packages/subgraph/src/mappings/TroveManager.ts:16-55 | so has every stream of events |
| `IndexerEvents.EveryEvent` | packages/subgraph/src/mappings/TroveManager.ts:16-55 | whatever the store was, each of the twelve events leaves the entity, the record of the change with its transaction, the system state and the open records that the next rows describe, and the entities and totals of all other kinds as they were |
| `IndexerEvents.TroveEvent` | packages/subgraph/src/entities/Trove.ts:89-170 | the trove holds the amounts, its status says how it was emptied, and with a stake its snapshot and sort key are of the current totals; the change has amounts and ratios before and after and the open liquidation or redemption; nothing is recorded if neither amount differs |
| `IndexerEvents.AccrualEvent` | packages/subgraph/src/entities/Trove.ts:180-205 | the trove gains its stake times the totals since its snapshot, truncated, and has no stake any more |
| `IndexerEvents.LiquidationFinishes` | packages/subgraph/src/entities/Liquidation.ts:38-55 | the open record, or a new one, gets the four amounts of the event, and none is open any more |
| `IndexerEvents.RedemptionFinishes` | packages/subgraph/src/entities/Redemption.ts:39-60 | the open record, or a new one, gets the amounts and the fee and whether it is partial; the fee is added to the fees paid |
| `IndexerEvents.BorrowingFeeEvent` | packages/subgraph/src/mappings/BorrowerOperations.ts:22-25 | the last change gets the fee, the fees paid grow by it, and nothing else moves |
| `IndexerEvents.PriceEvent` | packages/subgraph/src/entities/SystemState.ts:95-119 | the current price is that of the event; the first one is filled in, and a different one is a change by the difference |
| `IndexerEvents.DepositEvent` | packages/subgraph/src/mappings/StabilityPool.ts:35-41 | the first event of a pair waits; the second one sets the deposit and the pool moves with it |
| `IndexerEvents.GainEvent` | packages/subgraph/src/mappings/StabilityPool.ts:43-58 | the loss is taken from the deposit and the gain recorded, and a waiting update is made after it |
| `IndexerEvents.SurplusEvent` | packages/subgraph/src/entities/User.ts:38-64 | the surplus of the user is the new balance, the pool moves by the difference, and no other user changes |
| `IndexerEvents.StakeEvent` | packages/subgraph/src/entities/ProtocolTokenStake.ts:73-106 | the stake is the new amount; creations and removals move the number of active stakes, and a first creation the number of all |
| `IndexerSteps.GroupCommutes` | packages/subgraph/src/entities/Trove.ts:103-134 | opening a liquidation or redemption inside a started change has the effect of opening it before |
| `IndexerBooks.GaplessHistory` | packages/subgraph/src/entities/Change.ts:7-24 | on every run there is no state and no change, or one more state than changes; change n leads from state n to state n + 1 by its own effect |
| `IndexerBooks.HistoryIsFinal` | packages/subgraph/src/entities/SystemState.ts:58-67 | superseded states never change again, nor do changes but the last, which can only get its fee |
| `IndexerBooks.DebtAndCollateralConservation` | packages/subgraph/src/entities/SystemState.ts:121-178 | on every run, system totals minus the sums over troves are what liquidations redistributed minus what was accrued, minus what liquidations left in their troves; redistributed is what neither the pool, by min(pool, debt) and its pro-rata collateral, nor the liquidator took |
| `IndexerLiquidations.ConservationWithoutRemainder` | packages/subgraph/src/entities/SystemState.ts:121-178 | if every liquidation event carries (0, 0), nothing is left, and on the whole run system totals minus the sums over troves are what was redistributed minus what was accrued |
| `IndexerBooks.PoolConservation` | packages/subgraph/src/entities/SystemState.ts:180-215 | deposits plus realised losses are the pool plus all it has offset; stakes and surpluses add up to their pools |
| `Books.PostKeepsSound` | packages/subgraph/src/entities/SystemState.ts:121-215 | every single posting keeps the history gapless and the totals conserved, and only extends the history |
| `IndexerGroups.GroupsOnEveryRun` | packages/subgraph/src/entities/Redemption.ts:11-60 | records are numbered without gaps, only the last can be open, exactly the trove changes of liquidations and redemptions refer to stored records, and the fee total is the sum over all records |
| `IndexerGroups.FinishedGroupsAreFinal` | packages/subgraph/src/entities/Liquidation.ts:38-55 | a finished record never changes again |
| `IndexerGroups.TransactionsOnEveryRun` | packages/subgraph/src/entities/Transaction.ts:11-27 | transactions are numbered without gaps in the order of their first event, and every change, liquidation and redemption refers to a stored one |
| `IndexerTroves.TroveCounters` | packages/subgraph/src/entities/Global.ts:82-136 | on every run each status counter is off from the stored troves by exactly the run's drift |
| `IndexerTroves.CountersMatchIffNoDrift` | packages/subgraph/src/entities/Trove.ts:27-74 | all four match if and only if no first event was (0, 0) and no closed trove was closed again in another way |
| `IndexerTroves.CountersSumUp` | packages/subgraph/src/entities/Global.ts:82-136 | drifted or not, the four counters add up to the total |
| `IndexerTroves.WellFormedRunNeverDrifts` | packages/subgraph/src/entities/Trove.ts:157-167 | if the events carry zero collateral exactly with zero debt, and then no stake, no first event of a borrower is zero, and the totals per stake never fall, then no counter drifts and all match the stored troves |
| `IndexerWitnesses.PhantomIsCounted` | packages/subgraph/src/entities/Trove.ts:27-50 | one first event of (0, 0) makes the counters wrong |
| `IndexerWitnesses.TwiceClosedIsCountedTwice` | packages/subgraph/src/entities/Trove.ts:52-74 | three events that close one trove in two ways make the counters wrong |
| `IndexerStakes.StakeCounters` | packages/subgraph/src/entities/ProtocolTokenStake.ts:73-132 | on every run, the active stakes are the counter plus the removals of empty stakes, and the stored stakes are the total plus those first stored empty |
| `IndexerStakes.StakeCountersMatchIff` | packages/subgraph/src/entities/ProtocolTokenStake.ts:94-103 | each of the two counters is right if and only if no such event happened |
| `IndexerStakes.WellStakedRunMatches` | packages/subgraph/src/entities/ProtocolTokenStake.ts:54-71 | if every removal is of a stake that holds something and no gains come before the first stake, both counters are right |
| `IndexerStakes.NothingIsRemoved` | packages/subgraph/src/entities/ProtocolTokenStake.ts:73-106 | one removal by a user who never staked makes both wrong, and the active ones negative |
| `IndexerTroves.SortKeysStayCurrent` | packages/subgraph/src/entities/Trove.ts:143-155 | on every run, stored keys order troves as their debt per stake at the current totals does |
| `IndexerTroves.AccrualMatchesLibrary` | packages/subgraph/src/entities/Trove.ts:180-205 | on every run whose totals never fall, the accrual before liquidation is that of lib-base |
| `IndexerPairs.OrderDoesNotMatter` | packages/subgraph/src/mappings/StabilityPool.ts:25-58 | with nothing pending, both orders of the two events of a deposit operation give the same whole store, and nothing pending |
| `IndexerPairs.OrderDoesNotMatterIff` | packages/subgraph/src/mappings/StabilityPool.ts:25-58 | in any store, the two orders give the same whole store if and only if nothing is pending, or the new deposit is zero, the pending one is what the gain leaves of it, and there is no gain or no other change |
| `IndexerWitnesses.LoneEventMakesOrderMatter` | packages/subgraph/src/mappings/StabilityPool.ts:25-58 | one lone event, on a store that is still empty, makes the order of the next pair matter, although that pair withdraws everything |
| `IndexerPairs.PairsCommute` | packages/subgraph/src/mappings/StabilityPool.ts:25-58 | in a stream of such pairs with any other events between them, each pair can come in either order; if the stream can be handled in one choice of orders, so it can in every other, with the same whole store |
| `Batching.RunKeepsInvariant` | packages/dev-frontend/src/providers/BatchingProvider.ts:155-194 | on every run of requests, timers and replies, calls and callbacks are aligned at one block tag, a live timer exists exactly when there is a batch, and every promise is in one place once, or was rejected at once |
| `Batching.FireKeepsInvariant` | packages/dev-frontend/src/providers/BatchingProvider.ts:155-179 | whenever a timer fires, there is a batch to dispatch and a contract to send it to |
| `Batching.BatchingRefinesDirectCalls` | packages/dev-frontend/src/providers/BatchingProvider.ts:220-250 | a settled promise has the outcome of its own direct call at its own block tag if and only if that call fails or its whole batch succeeds; otherwise it is rejected |
| `Batching.NothingIsLost` | packages/dev-frontend/src/providers/BatchingProvider.ts:155-190 | an unsettled promise waits in the batch with a live timer, or on its way |
| `Batching.NeighbourIsRejected` | packages/dev-frontend/src/providers/BatchingProvider.ts:162-179 | of two calls in a batch, one that would succeed alone is rejected with the other |
| `Batching.WhereACallGoes` | packages/dev-frontend/src/providers/BatchingProvider.ts:220-250 | a call goes alone if there is no multicall contract, if it sets a sender, gas or a value, if it is itself an aggregation, or if calls for another block wait; otherwise it joins the batch and restarts the timer, or is refused for lack of a target or data |
| `Batching.OnlyAlikeShare` | packages/dev-frontend/src/providers/BatchingProvider.ts:107-116 | on every run, all calls in batches have a target and data, set no sender, gas or value and are no aggregations, and refused ones only lack a target or data |
| `Batching.BatchedProvider.EnqueueCall` | packages/dev-frontend/src/providers/BatchingProvider.ts:181-190 | the call and its callback are appended and the timer restarted |
| `Batching.BatchedProvider.PerformCall` | packages/dev-frontend/src/providers/BatchingProvider.ts:220-250 | every call goes directly, into the batch, or is rejected for lack of a target or data after the block tag of an empty batch has been set |
| `Batching.BatchedProvider.DispatchCalls` | packages/dev-frontend/src/providers/BatchingProvider.ts:155-161 | the batch leaves and an empty one takes its place |
| `Batching.BatchedProvider.SettleBatch` | packages/dev-frontend/src/providers/BatchingProvider.ts:162-179 | each callback is given its own result, or all the error |
| `ProtocolStore.CacheIsCurrent` | packages/lib-base/src/SfStablecoinStore.ts:600-627 | after loading and any updates, base state holds the latest values and derived state is what they would give from scratch; `DerivedFieldsAreCurrent` says what that is |
| `ProtocolStore.DerivedFieldsAreCurrent` | packages/lib-base/src/SfStablecoinStore.ts:499-519 | after loading and any updates, the five derived fields from the latest base values: the own trove with its floored share of what was redistributed since its snapshot, the fees in recovery mode exactly when the total does not cover 150%, both rates at the latest block, and whether the riskiest trove with its share covers 110% |
| `ProtocolStore.ChangeNamesDifferences` | packages/lib-base/src/SfStablecoinStore.ts:203-206 | the change that listeners get names exactly the fields whose values changed, base or derived |
| `ProtocolStore.ReducedIdentity` | packages/lib-base/src/SfStablecoinStore.ts:301-326 | an object is kept exactly when its value did not change |
| `ProtocolStore.UpdateKeepsReady` | packages/lib-base/src/SfStablecoinStore.ts:499-548 | every update keeps the cache current |
| `ProtocolStore.NoNewsNoChange` | packages/lib-base/src/SfStablecoinStore.ts:611-612 | an update without new base values changes no object |
| `ProtocolStore.SfStablecoinStore.Load` | packages/lib-base/src/SfStablecoinStore.ts:584-598 | base state is taken over and derived state computed with new objects; it is the start of the runs of `DerivedFieldsAreCurrent` |
| `ProtocolStore.SfStablecoinStore.Advance` | packages/lib-base/src/SfStablecoinStore.ts:600-618 | base state takes the news, derived state is derived again, and objects whose value is the same are kept |
| `ProtocolStore.SfStablecoinStore.Update` | packages/lib-base/src/SfStablecoinStore.ts:600-627 | the new state, the old state and the exact change between them |
| `Hints.GenerateTrials` | packages/lib-ethers/src/ReadableEthers.ts:111-120 | the trials are split into full parts and a last one, none empty, that add up to the total |
| `Hints.ClosestIsLastMinimum` | packages/lib-ethers/src/ReadableEthers.ts:602-602 | the reduction keeps the last of the closest hints |
| `Hints.FindHints` | packages/lib-ethers/src/ReadableEthers.ts:559-631 | for a finite ratio and an insert position in a sorted list, the hints are the troves around a position at which the ratio fits in the list without the own trove, in that order, an end being filled with the other neighbour; for an infinite ratio they are zero and the first trove |
| `Hints.JumpOverIsInsertPosition` | packages/lib-ethers/src/ReadableEthers.ts:611-620 | from an insert position in the whole list, jumping over the own trove gives one in the list without it |
| `Hints.HintsAreUsable` | packages/lib-ethers/src/ReadableEthers.ts:604-630 | with a finite ratio the first hint is the trove before such a position, or the first of the list, and the second the one after it, or the last; neither is the own trove, and both are zero only if the list is empty |
| `Hints.OnlyOwnIsLeftOut` | packages/lib-ethers/src/ReadableEthers.ts:611-620 | the list without the own trove is the rest of it in the same order |
| `Hints.InfiniteRatioHints` | packages/lib-ethers/src/ReadableEthers.ts:571-573 | with an infinite ratio the first hint is zero and the second usable exactly when the own trove is not first |

## Left out

- The Solidity contracts, ethers, Apollo, wagmi and React: what a call returns is a parameter. `findInsertPosition` is assumed to return an adjacent pair that fits, and a batch call to return its results in order or to fail as a whole.
- The 34-digit rounding of `BigDecimal`: subgraph amounts are exact integers of units of 10^-18, and divisions truncate to that unit. Raw and decimal fields for the same amount are one field.
- JavaScript numbers as `Decimal` inputs, negative `Decimal` inputs, `prettify`, `shorten`, `Difference` and `Percent`.
- FeeRates.Fees.BaseRate: the source asserts that the minutes since the last fee operation fit in 32 bits; this is a precondition here.
- `MINIMUM_NET_DEBT` and the liquidation reserve can be set by the environment; the model uses the defaults of 200 and 20.
- Frontend registration and tags, token balances and allowances in the subgraph: easy members.
- The write-only references of a `User` to its trove and deposit, and the block number and timestamp of a `Transaction`.
- 32-bit wrap-around of the subgraph's counters.
- Null dereferences of the subgraph: `IndexerSpec.Enabled` says when a handler would trap, and runs are runs without traps. A recovery-mode liquidation of a trove without debt and a trove change before the first price are such cases.
- Decimals.PowOf: no monotonicity in the exponent, since rounding at each step does not give it; the error bound takes its place.
- `_checkBatchingRatio` and `getBalance` of the batcher, and liveness: a debounced timer can be postponed for ever.
- The random seeds of the approximate hints, and the number of trials as a square root: the number is a parameter of `Hints.GenerateTrials`.
- Listeners, logging, the 30-second update timer and extra state of the store. The 19 base fields that nothing is derived from hold values of any type.
- The texts of validation errors: a rejected change has a reason, and an accepted one no description.
