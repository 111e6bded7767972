# lst-core: a liquid-staking engine, modelled and verified

`lst-core` takes SCRT deposits, delegates them, and issues shares of the pool. Withdrawals are
pooled into fixed-length unbonding windows, because the chain allows only seven live unbonding
entries per validator. This project models the contract object and the part of the chain it sees,
and proves what its design promises about money over whole runs.

`dafny verify dfyconfig.toml` checks everything.

## How it is built

* `Contract.dfy` is the contract in its own form: a class whose fields are the storage cells and
  whose methods load, loop and save. Each method is proved against `Engine.dfy`, which says what the
  whole call does to storage and which messages it emits. `Validators.dfy`, `Windows.dfy` and
  `Math.dfy` follow the source files of those names.
* `Chain.dfy` is the chain: delegations and their rewards, the unbonding queue, the contract's
  balance, token supply and the contract's own tokens, block time; and how it runs a message list.
* `System.dfy` joins the two. A transaction is a handler followed by its messages in order, and any
  failure reverts all of it. Between transactions the world may let time pass, accrue or pay out
  rewards, slash a delegation or an unbonding entry, release a due entry, donate, burn shares held
  elsewhere, or send shares to the contract.
* `Invariants.dfy` states what every reachable state satisfies; `Closing`, `Maturing`, `Claims`,
  `Roster` and `Keeping` prove that each handler keeps the storage part, `Reach` that each
  transaction and each event keeps all of it, from instantiation on.
* The main results are in `Covering` and `Whole` (exactly when everyone is paid in full), `Realising` and
  `Paying` (what each window receives and each claim is paid, to the unit), `History` (what can never be
  taken back), `Limits` and `Commitments` (the entry limit, timing, and which calls are certain to commit),
  `Accepting` (exactly when deposits, requests and closes go through, and what they do), `Worth`, `Sharing`
  and `Trading` (what shares are worth, how that moves, and that trading them takes no profit), `Harvest`
  and `Charging` (sweeps and the fee), `Weighting` (where stake goes and comes from), `Mirror` (the cache
  against the chain), `Authority`, `Governing` and `Custody` (who can change what, and where stake can go),
  `Queries` (the claim query), `Plans` (the undelegation planner), `Math` (rounding) and `Properties` (queue,
  set, debts and claims over any run). `Example` holds one concrete run with two endings that show which
  conditions cannot be dropped.

## What turned out conditional

* A window is matured against whatever the balance holds at that moment. If somebody collects in the
  second a window falls due and the chain's release comes later in the same block, the window is marked
  with less than it owed, permanently, with no slashing at all (`Example.LateReleaseIsLost`). The runbook
  (docs/runbook.md:140-144) says a short window always means slashing; the code does not guarantee
  that. The exact condition, over all runs, is that each claim and collection finds the balance covering
  the matured debt and what the windows it is about to mature owe (`Covering.PaidInFullExactlyWhenCovered`);
  it always holds when nothing in flight is slashed and the entries of mature windows are released by
  then (`Covering.CalmIsCovered`).
* The spare entry slot absorbs a chain that is late by less than a window length, and the ceiling below
  the chain's seven does the rest (`Limits.EntryCeiling`); the calls in `Commitments` rely on no more.
* Deposits and withdrawals are priced without maturing due windows first, so SCRT the chain has
  returned for a window not yet marked counts as assets while its debt does not. `Worth.PricingIdentity`
  gives the exact difference, `Sharing.UnbondShareValue` and `Sharing.DepositShareValue` say exactly
  when a call lowers what a share is worth, and `Example.UnmarkedReturnIsShared` shows it happening.
* `AdvanceWindow` plans from cached stake. `Commitments.AdvanceCommits` gives the exact condition under
  which its messages are accepted. Deposits and withdrawals refresh first and need no
  such condition.
* Fee order-independence holds exactly when the cached supply is the token's and no cached stake sits
  on a vanished delegation (`Harvest.FeeOrderIndependence`).
* The comment on `sync_stale_after_secs` (packages/lst-types/src/core/types.rs:161-167) says a stale
  cache makes deposits and unbond requests fail. The code refreshes instead and rejects nothing; the
  model follows the code.

## Model

| member | source | states |
|---|---|---|
| Covering.PaidInFullExactlyWhenCovered | contracts/lst-core/src/contract.rs:409-573 | end to end, in both directions, over any run whatever (slashing, late chains and donations included): every claim on a matured window is worth exactly the amount recorded for it if and only if each claim and each collection that went through found the balance covering the matured debt plus what the windows it was about to mature owe |
| Covering.WholeExactlyWhenAllCovered | contracts/lst-core/src/contract.rs:409-482 | the same said of the windows: every matured window received all it owed exactly under that condition |
| Covering.StepWholeExactlyWhen | contracts/lst-core/src/contract.rs:409-482 | one step at a time: windows are all whole afterwards exactly when they were before and the step, if it matures any, finds them covered |
| Covering.PaysInFullExactlyWhenWhole | contracts/lst-core/src/windows.rs:104-119 | in a sound state every matured claim is worth its recorded amount exactly when every matured window received all it owed |
| Covering.WholeExactlyWhenCovered | contracts/lst-core/src/contract.rs:434-455 | any maturing pass matures all it reaches whole exactly when the balance covers what is spoken for and what the due windows within its limit owe, all read before the pass |
| Covering.PromisedIsDueOwed | contracts/lst-core/src/contract.rs:440-455 | what a pass takes off the unbonding debt is what the due windows within its limit owe, whatever the balance was |
| Covering.CollectsWholeExactlyWhen | contracts/lst-core/src/windows.rs:95-98 | in every reachable state a collection under any limit matures its windows whole exactly under that condition |
| Covering.CalmIsCovered | contracts/lst-core/src/contract.rs:409-482 | the condition always holds in a run where nothing is slashed on its way back and the entries of mature windows are released whenever a claim or collection goes through; nothing is asked at other calls, of other entries, or of how long the chain takes |
| Covering.EveryoneIsPaidInFull | contracts/lst-core/src/contract.rs:409-573 | so in such a run every matured window realised exactly what it owed, every claim pays exactly the amount recorded for it, and a settled window leaves no claim uncollected |
| Realising.MaturingReceives | contracts/lst-core/src/contract.rs:409-482 | every collection and claim, from any reachable state: it matures exactly the first due windows its limit reaches, oldest first; together they receive what they owe or, if less, the balance less what matured windows still owed; in that order each receives all it owes or what the earlier ones left; no other window records anything |
| Realising.RunReceives | contracts/lst-core/src/contract.rs:388-400 | the same after any run |
| Realising.PassSharesOut | contracts/lst-core/src/windows.rs:95-98 | the same of the maturing loop over any list of windows, balance and limit |
| Paying.ClaimDoes | contracts/lst-core/src/contract.rs:485-573 | a committed claim, over any ids: each window with an uncollected claim of the caller among them that has matured is paid further by exactly the caller's share of what it received, rounded down, and is settled exactly when that brings it to all it received; the caller's records there are marked collected and nothing else is; the active list is then exactly the windows unbonding or matured |
| Paying.ClaimSends | contracts/lst-core/src/contract.rs:550-573 | it sends the caller, and nobody else, exactly what those windows were paid further |
| Paying.FullyPaidIsSettled | contracts/lst-core/src/windows.rs:122-124 | over any run: a Matured window that received anything still has some of it to pay, a Settled one has paid all it received, and only Unbonding and Matured ones are on the active list |
| Paying.PayoutIsShare | contracts/lst-core/src/windows.rs:104-119 | a payout is the most whose product with what the window promised is within the claim times what it received |
| Paying.ClaimFromPaysEach | contracts/lst-core/src/contract.rs:512-548 | the same of the claim loop, window by window and record by record, whatever the order and repeats of the ids |
| Whole.RunIsLossless | contracts/lst-core/src/contract.rs:280-573 | the invariant behind the calm case: the balance holds what matured windows owe plus everything returned for windows not yet marked, for every run in which claims and collections find mature windows released and nothing in flight is slashed |
| Whole.MatureInFull | contracts/lst-core/src/contract.rs:430-455 | when everything due is back and the balance covers what is spoken for and returned, each due window in the pass realises all it owes, in any number and under any limit |
| Whole.DueIsReturned | contracts/lst-core/src/contract.rs:440-455 | a mature window whose own entries are released has all its SCRT back |
| Whole.PromptIsDueBack | contracts/lst-core/src/windows.rs:84-87 | a chain that unbonds in time and has released what is due has released the entries of every mature window |
| Whole.PassIsLossless | contracts/lst-core/src/contract.rs:409-482 | a maturing pass that finds the entries of mature windows released keeps the invariant |
| Whole.ClaimIsLossless | contracts/lst-core/src/contract.rs:485-573 | so does a claim, which takes as much off the debt as off the balance; entries of windows not yet mature may be due and unreleased |
| Whole.RollingIsLossless | contracts/lst-core/src/contract.rs:167-385 | no other call moves value out of what matured or returned windows rely on |
| Whole.BalanceKept | contracts/lst-core/src/contract.rs:167-1031 | no call but a claim leaves the balance below where it found it; attached funds and harvested rewards are spent, nothing else |
| Example.LateReleaseIsLost | contracts/lst-core/src/contract.rs:430-455 | a concrete run showing the condition is needed: collecting in the second a window falls due, before the chain released its entry, marks it matured with nothing, for good, though nobody was slashed |
| Reach.ReachableOk | contracts/lst-core/src/contract.rs:58-1178 | every state reached from instantiation by any interleaving of calls and chain events satisfies every storage and chain invariant |
| Reach.TransactKeeps | contracts/lst-core/src/contract.rs:135-158 | a transaction (handler, then its messages in order, all or nothing) keeps them |
| Reach.WorldKeeps | contracts/lst-core/src/contract.rs:409-429 | nothing the chain does between calls breaks them |
| Reach.FreshOk | contracts/lst-core/src/contract.rs:58-132 | instantiation establishes them |
| History.RunOnlyAdvances | contracts/lst-core/src/windows.rs:72-98 | from any reachable state on: windows move forward only, what a closed window owes, burned and used is frozen, a realised amount is final, no claim is lost, shrunk or un-collected |
| History.ClaimFromMarks | contracts/lst-core/src/contract.rs:512-548 | the claim loop only marks the caller's own claims and only raises what windows have paid |
| Limits.EntryCeiling | contracts/lst-core/src/contract.rs:1489-1496 | in every reachable state a validator's counter is the number of Unbonding windows using it and at most the ceiling, at most 6; while the chain returns entries less than a window length late its live entries exceed that by at most one, so any validator still under the ceiling is under the chain's limit of 7; once everything due is released they never exceed it |
| Limits.LiveWithinOneOfWindows | contracts/lst-core/src/math.rs:246-253 | the spare slot does its work: on a chain late by less than a window length at most one live entry per validator outlives the window that used it |
| Limits.OneWindowIsLate | contracts/lst-core/src/math.rs:225-236 | because two windows past maturity cannot both be late by less than a window length |
| Limits.SlightlyLateIsOnSchedule | contracts/lst-core/src/math.rs:246-253 | a chain that unbonds within the expected period and then releases less than a window length late is such a chain |
| Limits.LiveWithinWindows | contracts/lst-core/src/contract.rs:457-470 | with everything due released, live entries never exceed the Unbonding windows that used the validator |
| Limits.CollectionClears | contracts/lst-core/src/contract.rs:434-447 | a collection leaves no due window unmatured exactly when its limit reaches as many as were due |
| Limits.PassClears | contracts/lst-core/src/contract.rs:440-447 | the same for any maturing pass over any list |
| Limits.CollectThenClose | contracts/lst-core/src/contract.rs:253-267 | so after such a collection a window that can close fails to close exactly when it owes more than the whole bonded total |
| Limits.EntryCompletesFirst | contracts/lst-core/src/windows.rs:72-87 | an entry completes no later than its window matures |
| Limits.OnlyStakeCanStopAClose | contracts/lst-core/src/contract.rs:253-267 | with everything due collected, a window that can close fails to close exactly when it owes more than the whole bonded total |
| Limits.SlotsAreFree | contracts/lst-core/src/math.rs:237-253 | in that state every validator has a free slot |
| Limits.ParametersSuffice | contracts/lst-core/src/contract.rs:1492-1511 | the accepted parameters leave at least two slots beyond the windows that can be unbonding at once |
| Limits.UnbondingIsRecent | contracts/lst-core/src/windows.rs:46-82 | closings are a window length apart, which bounds how many windows can still be unbonding |
| Limits.LegsRun | contracts/lst-core/src/contract.rs:292-315 | undelegations on different validators run exactly when each would run alone |
| Limits.PlanRuns | contracts/lst-core/src/contract.rs:300-315 | a planned close runs on the chain exactly when no leg exceeds its delegation |
| Commitments.DepositCommits | contracts/lst-core/src/contract.rs:651-730 | an accepted deposit commits on a chain less than a window length late: its delegation is funded and every undelegation riding along is covered when its turn comes and under the chain's limit |
| Commitments.UnbondCommits | contracts/lst-core/src/contract.rs:167-250 | an accepted withdrawal request commits, under the same lateness |
| Commitments.ClaimCommits | contracts/lst-core/src/contract.rs:550-573 | an accepted claim's transfer can always be made, whatever was slashed |
| Commitments.CompoundCommits | contracts/lst-core/src/contract.rs:890-1042 | an accepted compound commits: what it restakes is what its withdrawals bring in |
| Commitments.AdvanceCommits | contracts/lst-core/src/contract.rs:253-275 | `AdvanceWindow` plans from the cache: under the same lateness it commits exactly when no planned leg exceeds what the chain still holds |
| Accepting.DepositAccepted | contracts/lst-core/src/contract.rs:651-730 | on such a chain a deposit goes through exactly when the pool is open and seeded, one coin of the staking denomination comes with it, at least the minimum, worth at least a share, the supply it leaves is within the cap and the figures fit in 128 bits |
| Accepting.DepositDoes | contracts/lst-core/src/contract.rs:672-730 | it mints its sender exactly the shares the rate gives, rounded down, and delegates it whole to the validator furthest below its share of the stake the chain holds |
| Accepting.UnbondAccepted | contracts/lst-core/src/contract.rs:167-204 | a withdrawal request goes through exactly when the token is registered, the shares exist and they are worth at least one unit |
| Accepting.UnbondDoes | contracts/lst-core/src/contract.rs:206-240 | it burns the shares and records the promise, the part of the assets rounded down, under the leaver's name in the open window and nowhere else |
| Accepting.DepositCloses | contracts/lst-core/src/contract.rs:354-385 | a deposit closes the open window exactly when it is overdue and the chain's stake with free entry slots, the deposit's included, covers what it owes; then that window unbonds from this moment (or settles, if it owes nothing) and the next opens now; otherwise the table stays |
| Accepting.UnbondCloses | contracts/lst-core/src/contract.rs:235-240 | a request joins the open window, which then closes exactly under the same condition with the new promise included |
| Accepting.AdvanceAccepted | contracts/lst-core/src/contract.rs:253-345 | `AdvanceWindow` is accepted exactly when the deadline has passed and the cached stake with free slots covers what the window owes |
| Keeping.OverdueNeverFails | contracts/lst-core/src/contract.rs:354-385 | the ride-along close is never the reason a user's call fails |
| Worth.PricingIdentity | contracts/lst-core/src/contract.rs:1347-1366 | the assets a deposit or withdrawal is priced on are net worth plus SCRT returned or slashed for windows not yet marked matured, less what is late, floored at zero |
| Worth.OnlyUnmarkedMisprices | contracts/lst-core/src/contract.rs:1347-1366 | without slashing in flight and on a timely chain the only difference is SCRT returned but not yet marked |
| Worth.NothingUnmarked | contracts/lst-core/src/contract.rs:430-482 | which is zero once everything due has been collected, on a chain that takes at least the expected period |
| Worth.CollectThenFairlyPriced | contracts/lst-core/src/contract.rs:388-400 | so a collection with room for everything due leaves callers priced on net worth exactly, if nothing was slashed in flight and a prompt chain takes exactly the expected period |
| Worth.UnbondingBucket | contracts/lst-core/src/state.rs:114-133 | the unbonding bucket is the sum of the originals of the entries issued for Unbonding windows |
| Worth.RunKeepsHoldings | contracts/lst-core/src/contract.rs:300-320 | over a whole message list, stake, rewards, balance and in-flight SCRT together fall by exactly what is sent out |
| Sharing.DepositValue | contracts/lst-core/src/contract.rs:672-706 | a committed deposit adds exactly its amount to net worth and was priced on the assets above |
| Sharing.DepositShareValue | contracts/lst-core/src/contract.rs:672-706 | a deposit lowers net worth per share exactly when the shares its rate mints, times the shortfall of priced assets below net worth, exceed the remainder its rounding keeps back, all figures read before the call; with no priced assets, exactly when net worth exceeds supply; never while priced assets are at least net worth |
| Sharing.UnbondValue | contracts/lst-core/src/contract.rs:199-222 | a committed withdrawal request takes exactly its promise off net worth and its shares off supply |
| Sharing.UnbondShareValue | contracts/lst-core/src/contract.rs:199-222 | a withdrawal lowers net worth per share exactly when its shares times the gap between priced assets and net worth exceed the remainder its rounding keeps back: never with a gap of zero or less, always once the excess reaches a whole unit |
| Sharing.NoTradeKeepsValue | contracts/lst-core/src/contract.rs:253-573 | advance, collect, claim, sync and rebalance never lower net worth and trade no shares |
| Sharing.ClosedAimed | contracts/lst-core/src/contract.rs:318-324 | closing moves a debt between buckets; the total owed does not change |
| Example.UnmarkedReturnIsShared | contracts/lst-core/src/contract.rs:199-222 | a concrete reachable state where a withdrawal between the chain's release and the marking commits and lowers what the remaining shares are worth |
| Example.FallsDue | contracts/lst-core/src/contract.rs:167-345 | the run both examples start from: bootstrap, deposit, withdrawal, close, step by step |
| Math.DepositKeepsRate | contracts/lst-core/src/math.rs:130-142 | a deposit never lowers assets per share and mints at least the rate less one |
| Math.WithdrawalKeepsRate | contracts/lst-core/src/math.rs:145-155 | a withdrawal never lowers it for those who stay, pays at most the assets, and loses under one unit |
| Math.RunKeepsRate | contracts/lst-core/src/math.rs:130-155 | over any run of trades assets per share never fall and assets account for every trade |
| Math.NoProfitableRun | contracts/lst-core/src/math.rs:1-10 | no run of trades that gives back at least the shares it began with is promised more than it paid in |
| Trading.NoProfitableTrades | contracts/lst-core/src/contract.rs:167-250 | the same against the whole contract and chain: over any run of deposits and withdrawals by anybody, at any times, with windows closing along the way and advances, syncs, rebalances, new weights, fees and pauses and refused calls in between, that ends with at least the shares it began with, no more SCRT is promised than was brought in |
| Trading.TradesAreFair | contracts/lst-core/src/contract.rs:651-730 | over such a run the assets callers are priced on account for every unit brought in and promised, and never fall per share |
| Trading.ReachedInUse | contracts/lst-core/src/contract.rs:576-648 | the states such a run may start from are all reachable ones with a registered token and debts the assets cover |
| Trading.CallKeepsGap | contracts/lst-core/src/contract.rs:318-324 | a trade with the close that may ride along, an advance, a sync, a rebalance, a fee or a pause leaves the gap between priced assets and net worth as it was |
| Math.SplitWithdrawal | contracts/lst-core/src/math.rs:145-155 | a withdrawal in k parts pays at most the single one and falls short by at most k - 1 |
| Math.FeeAccuracy | contracts/lst-core/src/math.rs:186-225 | the fee shares are worth at most the fee, within one share's worth of it, and holders never do worse than without the harvest |
| Prelude.DivCeilLeast | contracts/lst-core/src/math.rs:237-242 | the concurrent-entry count is the least number of windows covering the unbonding period |
| Prelude.MulDivLargest | contracts/lst-core/src/math.rs:256-267 | the ratio is the largest number whose product with the divisor fits |
| Prelude.OneQuotient | contracts/lst-core/src/math.rs:256-267 | payouts, promises and fees stated by multiplication are the rounded-down quotients: there is one such number |
| Plans.PlanSucceeds | contracts/lst-core/src/validators.rs:173-231 | the planner succeeds exactly when stake of validators with a free slot covers the amount, fails only with NoUnbondingCapacity, and returns a plan |
| Plans.PlanIsUnique | contracts/lst-core/src/validators.rs:205-212 | there is one plan per amount |
| Plans.PlanIndicesDiffer | contracts/lst-core/src/validators.rs:173-231 | its legs are on different validators |
| Plans.DrainingComesFirst | contracts/lst-core/src/validators.rs:184-212 | an Active validator is touched only after every eligible other one is emptied |
| Plans.RankingIs | contracts/lst-core/src/validators.rs:184-212 | the ranking holds exactly the eligible validators, in one total order |
| Weighting.DelegationGoesToShortest | contracts/lst-core/src/validators.rs:125-156 | a delegation goes to the Active validator whose stake falls short of its weight's part of the enlarged pool by most, the first of several; it fails only for want of an Active one or past 128 bits |
| Weighting.SoonerIsEmptied | contracts/lst-core/src/validators.rs:173-212 | a plan draws on a validator only after every other with stake and a free slot that comes sooner is emptied: not Active before Active, then further above its weight's part of the pool, then larger, then earlier in the set |
| Weighting.LegsAddUp | contracts/lst-core/src/validators.rs:205-231 | its legs are on validators with stake and a free slot, within that stake, all but the last emptying theirs, and add up to the amount |
| Weighting.WeightsAreAssigned | contracts/lst-core/src/validators.rs:80-110 | an accepted assignment gives each listed validator of the set its weight and makes it Active, takes the weight of every other (draining while it holds stake, else removed), and appends exactly the listed validators the set did not have, at their weights and in their order |
| Validators.PlanUndelegation | contracts/lst-core/src/validators.rs:173-231 | the planning loop computes that plan; read off the weights in Weighting.SoonerIsEmptied |
| Validators.TakeInTurn | contracts/lst-core/src/validators.rs:214-228 | the taking loop, leg by leg |
| Validators.BestOf | contracts/lst-core/src/validators.rs:135-152 | the first of the most underweight Active validators by deficit against target; read off the weights in Weighting.DelegationGoesToShortest |
| Validators.SelectForDelegation | contracts/lst-core/src/validators.rs:125-156 | the selection loop computes it; read off the weights in Weighting.DelegationGoesToShortest |
| Validators.ValidateSet | contracts/lst-core/src/validators.rs:19-40 | the duplicate and weight-sum checks |
| Validators.ValidateManagedWeights | contracts/lst-core/src/validators.rs:49-72 | the first fault decides |
| Validators.ManagedVerdictMeaning | contracts/lst-core/src/validators.rs:49-72 | accepted exactly when addresses are distinct, allowed, capped and weights total 100% |
| Validators.ApplyWeights | contracts/lst-core/src/validators.rs:80-110 | the in-place reweighting and appending loops |
| Roster.WeightsKeepSet | contracts/lst-core/src/validators.rs:80-110 | an accepted assignment leaves weights totalling 100%, capped, on allowed distinct addresses, nothing on non-Active validators, stake and counters untouched |
| Roster.SetIsBounded | contracts/lst-core/src/contract.rs:64-75 | the set never outgrows the allowlist |
| Roster.RebalanceConserves | contracts/lst-core/src/contract.rs:1083-1132 | a rebalancing plan conserves total stake and touches nothing but stake |
| Mirror.CallsMirror | contracts/lst-core/src/contract.rs:1090-1131 | a committed rebalance, advance, bootstrap, claim or collection changes each validator's delegation on the chain by exactly what it changes in the cache |
| Mirror.TradesSync | contracts/lst-core/src/contract.rs:651-730 | after a committed deposit or withdrawal request every validator is cached with exactly what the chain holds, however stale the cache was |
| Mirror.OnlySlashingDrifts | contracts/lst-core/src/contract.rs:782-815 | over any run no validator is cached below what the chain holds with it, and until a delegation is slashed each is cached with exactly that |
| Mirror.RunBonds | contracts/lst-core/src/contract.rs:1118-1129 | over a message list a delegation grows by what goes to it and shrinks by what leaves it |
| Governing.RebalancePlanAccepted | contracts/lst-core/src/contract.rs:1090-1131 | a plan is accepted exactly when every step names validators of the set, an allowed destination, and no more than its source holds after the steps before it; and sends one redelegation per step, in order, source to destination |
| Governing.RebalanceAccepted | contracts/lst-core/src/contract.rs:1051-1055 | of the manager, and of nobody else |
| Properties.SetStaysSound | packages/lst-types/src/core/types.rs:35-61 | over any run: distinct allowed addresses, at most 20; Active weights total 100% within the ceiling; totals are the sums over the set |
| Properties.WeightsMoveNothing | contracts/lst-core/src/contract.rs:1062-1073 | SetWeights moves no stake, rewards, counters or totals |
| Authority.PausingTrapsNothing | contracts/lst-core/src/contract.rs:1159-1178 | over any run, pausing amounts to turning away the deposits made meanwhile: leave those and the switch's own calls out and contract, chain and sweeps end the same |
| Authority.PauseStopsOnlyDeposits | contracts/lst-core/src/contract.rs:163-166 | every call but a deposit and the switch itself has the same outcome, storage and messages paused or not |
| Authority.OnlyTheManagerSetsTerms | contracts/lst-core/src/contract.rs:1043-1060 | over any run, manager, limits, allowlist, treasury, denomination, all parameters but the fee, and a registered token never change; and unless the manager sets terms, neither do the fee, the switch, the set, its weights and its statuses |
| Authority.FeeStaysBounded | contracts/lst-core/src/contract.rs:1075-1084 | over any run the fee is within the limit fixed at instantiation, and that within the code's |
| Governing.TermsAreTheLastSet | contracts/lst-core/src/contract.rs:1075-1084 | over any run the fee is the one the manager last set within the limit, and the pause switch stands where the manager last put it |
| Governing.InstantiateAccepted | contracts/lst-core/src/contract.rs:58-132 | instantiation is accepted exactly on terms within the code's ceilings, with the unbonding period at most one window length per slot short of the ceiling, and weights the manager could set; it starts from what the message says, managed by whom it names or else the sender |
| Governing.NamedManagerStays | contracts/lst-core/src/contract.rs:92-96 | who manages, the treasury and the allowlist are settled there for every run |
| Governing.BootstrapAccepted | contracts/lst-core/src/contract.rs:576-648 | bootstrap commits exactly once-only from the deployer with at least the seed |
| Governing.BootstrapDoes | contracts/lst-core/src/contract.rs:600-648 | it mints the seed in shares to the contract itself, delegates it to the validator furthest below its share, and registers the token |
| Governing.SetWeightsAccepted | contracts/lst-core/src/contract.rs:1051-1073 | weights are set by the manager only, and exactly when they meet the ceilings |
| Custody.StakeStaysApproved | contracts/lst-core/src/contract.rs:1093-1101 | over any run, whoever manages it, all stake sits with validators of the set, each on the allowlist fixed at instantiation |
| Custody.WeightsKeepValue | contracts/lst-core/src/contract.rs:1062-1073 | a new assignment of weights leaves net worth and the pricing gap as they were: newcomers bring no stake |
| Properties.WindowsAreFifo | contracts/lst-core/src/contract.rs:327-342 | exactly the last window is Open; the active list is exactly the windows in flight, oldest first, maturities strictly increasing, Matured before Unbonding |
| Properties.BucketsAreExact | contracts/lst-core/src/state.rs:114-144 | each liability bucket is exactly the debt of its windows, and the balance covers the matured one |
| Properties.MaturingNeverSaturates | contracts/lst-core/src/contract.rs:449-478 | no saturating subtraction in a maturing pass saturates |
| Properties.ClaimsAddUp | contracts/lst-core/src/contract.rs:1418-1449 | claims on a window sum to what it owes and the shares burned; its payouts to what it paid, within what it received and short by under one unit per claimant; a settled window owes uncollected claims nothing |
| Closing.CloseKeepsCore | contracts/lst-core/src/contract.rs:280-345 | a close keeps every storage invariant and none of its saturating subtractions saturates |
| Closing.DrawnIs | contracts/lst-core/src/contract.rs:300-308 | each leg takes its amount and one slot from its validator and nothing else changes |
| Closing.RolledSlots | contracts/lst-core/src/contract.rs:300-308 | counters follow the windows that use each validator |
| Reach.CloseKeepsQueue | contracts/lst-core/src/contract.rs:300-320 | a close adds to the chain's queue exactly what the window owes, one entry per validator used |
| Maturing.MatureKeepsCore | contracts/lst-core/src/contract.rs:409-482 | a maturing pass keeps every storage invariant and the balance's cover, whatever came back |
| Maturing.MatureFromInTurn | contracts/lst-core/src/contract.rs:440-460 | oldest first under any limit: no due window is passed over |
| Maturing.MaturityOrder | contracts/lst-core/src/windows.rs:46-82 | windows open a window length apart, so maturities increase |
| Maturing.SpokenForIs | contracts/lst-core/src/contract.rs:424-432 | what is spoken for is exactly the matured debt |
| Maturing.MatureFromRealised | contracts/lst-core/src/contract.rs:440-478 | what is realised enters the matured debt and never exceeds the balance; exactly how much is in Realising.PassSharesOut |
| Maturing.MatureFromPromised | contracts/lst-core/src/contract.rs:440-478 | what was promised leaves the unbonding debt; realised is at most promised |
| Maturing.MatureFromSlots | contracts/lst-core/src/contract.rs:457-470 | the slots handed back are those the matured windows held |
| Maturing.ReleasedIs | contracts/lst-core/src/contract.rs:465-470 | each release takes one slot off the named validator |
| Claims.PayoutsFit | contracts/lst-core/src/windows.rs:104-119 | payouts made and still due fit in what the window received |
| Claims.ResidueIsSmall | contracts/lst-core/src/windows.rs:104-119 | what can never be paid out is under one unit per claimant |
| Claims.SettledOwesNothing | contracts/lst-core/src/windows.rs:122-124 | once settled, an uncollected claim is worth nothing |
| Claims.ClaimFromKeeps | contracts/lst-core/src/contract.rs:512-548 | the claim loop keeps windows and ledger, and its payouts come off the matured debt in full |
| Claims.PayoutIsThere | packages/lst-types/src/core/types.rs:115-122 | a payout never exceeds what its window still holds |
| Keeping.ClaimedKeepsLedger | contracts/lst-core/src/contract.rs:1418-1449 | two requests in one window merge into one claim for the sum |
| Keeping.ClaimKeeps | contracts/lst-core/src/contract.rs:485-573 | a claim keeps every storage invariant |
| Keeping.DepositKeeps | contracts/lst-core/src/contract.rs:651-730 | so does a deposit |
| Keeping.UnbondKeeps | contracts/lst-core/src/contract.rs:167-250 | and a withdrawal request |
| Keeping.BootstrapKeeps | contracts/lst-core/src/contract.rs:576-648 | and the bootstrap |
| Keeping.CompoundKeeps | contracts/lst-core/src/contract.rs:890-1042 | and a compound |
| Keeping.SyncKeeps | contracts/lst-core/src/contract.rs:825-878 | and a sync |
| Keeping.SetWeightsKeeps | contracts/lst-core/src/contract.rs:1062-1073 | and a weight assignment, which keeps the old entries in place |
| Keeping.RebalanceKeeps | contracts/lst-core/src/contract.rs:1086-1132 | and a rebalance |
| Keeping.InstantiateEstablishes | contracts/lst-core/src/contract.rs:58-132 | instantiation starts from them |
| Queries.ClaimPaysWhatQueryReports | contracts/lst-core/src/contract.rs:485-573 | a claim over any covering list of ids, in any order and with repeats, is refused exactly when a listed claim is still unbonding once everything due is matured, or nothing is to be paid; otherwise it pays exactly what the query reports of that storage, after which the query reports nothing |
| Queries.QueryMatchesClaim | contracts/lst-core/src/contract.rs:1231-1276 | with nothing newly due, as after a collection with room for it all, the query tells beforehand what the claim will pay |
| Queries.ClaimFromSucceeds | contracts/lst-core/src/contract.rs:512-530 | the claim loop fails exactly on an unclaimed claim whose window is still unbonding |
| Queries.ClaimFromPays | contracts/lst-core/src/contract.rs:512-548 | what the loop pays is what leaves the claimable total |
| Harvest.SweepIsComplete | contracts/lst-core/src/contract.rs:834-861 | the cursor stays inside the set, no slice underflows, a committed sync or compound leaves each entry of its slice exactly as read on the chain at that call (for a compound, stripped of rewards and credited with what the call restakes there), and one that reports done means every validator was so read since the cursor was last zero |
| Reach.SweepReads | contracts/lst-core/src/contract.rs:841-861 | each entry of the slice is left as the chain holds it when the sweep commits |
| Harvest.SyncReads | contracts/lst-core/src/contract.rs:841-868 | a complete sync reports what the chain holds |
| Harvest.FeeOrderIndependence | contracts/lst-core/src/contract.rs:951-1014 | a whole-set compound leaves the same storage, fee and messages with or without a sync before it, exactly when cached supply was the token's and no cached stake sat on a vanished delegation |
| Harvest.CompoundValue | contracts/lst-core/src/contract.rs:890-1042 | compounding moves rewards into stake and mints the fee; net worth does not change |
| Harvest.CompoundSparesHolders | contracts/lst-core/src/contract.rs:971-996 | from any cursor and under any limit, after a compound holders are no worse off than without the harvested rewards and the treasury's shares are worth at most the fee, whenever no skipped validator is cached below the chain, cached supply is not above the token's and the pricing gap is not negative |
| Harvest.CompoundSparesWhenPriced | contracts/lst-core/src/contract.rs:971-996 | more generally, whenever the fee was priced on at least net worth without the harvest, at no more than the true supply |
| Charging.CompoundCharges | contracts/lst-core/src/contract.rs:951-1014 | a committed compound restakes all it harvests with the validator then furthest below its share, and mints the treasury exactly what its fee buys, from above and from below: with fee f, assets a and supply s before the harvest h, the most shares m with m * (a + h - f) at most f * s, and none only when there is no fee |
| Charging.CompoundAccepted | contracts/lst-core/src/contract.rs:890-1014 | a compound goes through exactly when there is nothing to harvest or the stake and the figures of its fee fit in 128 bits, with the token registered if the fee buys any shares |
| Harvest.SyncTakesSupply | contracts/lst-core/src/contract.rs:847-868 | a sync caches the token's supply when it completes a sweep and leaves it alone until then; where its cursor goes |
| Harvest.CompoundMovesCursor | contracts/lst-core/src/contract.rs:1016-1031 | a compound moves the same cursor and claims freshness only for a completed sweep |
| Harvest.FeeGrows | contracts/lst-core/src/math.rs:186-225 | more supply never means a smaller fee mint |
| Contract.LstCore.Instantiate | contracts/lst-core/src/contract.rs:58-132 | the instantiation handler does what the specification of the call says, or returns the same error |
| Contract.CheckInstantiate | contracts/lst-core/src/contract.rs:64-90 | the checks, in order |
| Contract.LstCore.RefreshTotals | contracts/lst-core/src/contract.rs:782-815 | the refresh loop over the set: leaves exactly the storage and messages specified for the whole call, or the same error |
| Contract.LstCore.CloseOpenWindow | contracts/lst-core/src/contract.rs:280-345 | closing the open window: leaves exactly the storage and messages specified for the whole call, or the same error |
| Contract.DrawLegs | contracts/lst-core/src/contract.rs:300-316 | the loop over the legs: stake, slots, validators used, messages |
| Contract.LstCore.OpenNext | contracts/lst-core/src/contract.rs:327-342 | saving the closed window and opening its successor |
| Contract.LstCore.CloseWindowIfOverdue | contracts/lst-core/src/contract.rs:354-385 | the ride-along close, which never returns an error |
| Contract.LstCore.AdvanceWindow | contracts/lst-core/src/contract.rs:253-275 | the AdvanceWindow handler: leaves exactly the storage and messages specified for the whole call, or the same error |
| Contract.LstCore.Bootstrap | contracts/lst-core/src/contract.rs:576-648 | the Bootstrap handler: leaves exactly the storage and messages specified for the whole call, or the same error |
| Contract.LstCore.Deposit | contracts/lst-core/src/contract.rs:651-730 | the Deposit handler: leaves exactly the storage and messages specified for the whole call, or the same error |
| Contract.LstCore.Receive | contracts/lst-core/src/contract.rs:167-250 | the withdrawal hook: leaves exactly the storage and messages specified for the whole call, or the same error |
| Contract.LstCore.RecordClaim | contracts/lst-core/src/contract.rs:1418-1449 | one claim per account and window, merged for the sum, indexed once |
| Contract.LstCore.RecordPromise | contracts/lst-core/src/contract.rs:206-222 | one request: window, claim and totals move by the same shares and SCRT |
| Contract.LstCore.SpokenFor | contracts/lst-core/src/contract.rs:424-432 | the sum, over the active list, of what matured windows still owe |
| Contract.LstCore.ReleaseSlots | contracts/lst-core/src/contract.rs:465-470 | the release loop: each name in turn gives back one slot |
| Contract.LstCore.MatureDueWindows | contracts/lst-core/src/contract.rs:409-482 | the maturing loop: windows, slots, totals and the ids matured, as the recursion over the active list gives them; what each window gets is in Realising.PassSharesOut |
| Contract.LstCore.CollectMatured | contracts/lst-core/src/contract.rs:388-400 | the CollectMatured handler: leaves exactly the storage and messages specified for the whole call, or the same error; what that amounts to is in Realising.MaturingReceives |
| Contract.LstCore.PayClaims | contracts/lst-core/src/contract.rs:509-548 | the claim loop: claims, windows, total paid and ids settled, or the error of the first claim still unbonding; window by window in Paying.ClaimFromPaysEach |
| Contract.LstCore.PruneSettled | contracts/lst-core/src/contract.rs:1452-1460 | dropping settled windows from the active list |
| Contract.LstCore.ClaimMatured | contracts/lst-core/src/contract.rs:485-573 | the ClaimMatured handler: leaves exactly the storage and messages specified for the whole call, or the same error; what that amounts to is in Paying.ClaimDoes |
| Contract.LstCore.ClaimableNow | contracts/lst-core/src/contract.rs:1231-1276 | the claimable total of the pending-claims query |
| Contract.LstCore.Sync | contracts/lst-core/src/contract.rs:825-878 | the Sync handler: leaves exactly the storage and messages specified for the whole call, or the same error |
| Contract.LstCore.Compound | contracts/lst-core/src/contract.rs:890-1042 | the Compound handler: leaves exactly the storage and messages specified for the whole call, or the same error; what it charges is in Charging.CompoundCharges |
| Contract.HarvestSlice | contracts/lst-core/src/contract.rs:914-949 | the harvesting loop: stake re-read, rewards summed, one withdrawal message per validator that has any |
| Contract.LstCore.RestakeHarvest | contracts/lst-core/src/contract.rs:951-1014 | the restake target, the delegation and the fee mint, or the error that stops them; the fee from above and below is in Charging.CompoundCharges |
| Contract.LstCore.SetWeights | contracts/lst-core/src/contract.rs:1062-1073 | the SetWeights handler: leaves exactly the storage and messages specified for the whole call, or the same error |
| Contract.LstCore.Rebalance | contracts/lst-core/src/contract.rs:1086-1132 | the Rebalance handler: leaves exactly the storage and messages specified for the whole call, or the same error; cache and chain move alike by Mirror.CallsMirror |
| Contract.MoveStake | contracts/lst-core/src/contract.rs:1090-1129 | the rebalancing loop: stake moved and messages emitted step by step, or the first fault; read off the plan in Governing.RebalancePlanAccepted |

## Left out

- Arithmetic overflow of 128-bit amounts outside the share formulas, and of 64-bit times: an overflow aborts and reverts the call, which only removes steps from a run; amounts and times are unbounded here. The checked 256-bit narrowing in the share formulas and the checked sum in the target selection are modelled.
- Trading.NoProfitableTrades: rewards, slashing, returning SCRT, collections, claims and compounds stay out of the run, because each moves what a share is priced on; what each does to net worth is in `Sharing` and `Harvest`.
- The claims of all accounts are one map keyed by account and window, and the window table a sequence; the class keeps the table as a map and the next id as the source does.
- A failed call promises nothing about the fields, because the host discards its writes; that reversal is modelled in `System.Transact`.
- A window is a value, loaded, changed and saved, as the source does with a local copy; no window object is shared.
- Staking-query failures (`ValidatorUnreadable`), a token that hides its supply, and a withdrawal hook without its message: each is one early error before any state changes.
- Rewards in other denominations: a delegation has one reward figure, in the staking denom.
- The token's internals: supply, the contract's own balance, mint and burn only; no other minter.
- A delegation change pays out the rewards earned so far, as the staking module does; validator commission, redelegation limits and gas are not modelled.
- The window recorded on a chain entry is bookkeeping for the proofs; the chain never reads it.
- Unused parameters (`withdrawal_fee_bps`, `sync_stale_after_secs`), response data and attributes.
- Queries other than the claimable total: they only report stored figures.
- Permits, `migrate`, encryption, serialisation, and address validation: foreign calls or one branch each.
- `app/`, `keeper/`, `scripts/`, `tests/e2e`, `devnet/`: interface, network client and deployment.
