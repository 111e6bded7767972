/** Deposits and withdrawals against the whole contract, windows closing along the way included: no
    run of them takes a profit. */
module Trading {
  import opened Prelude
  import opened Sums
  import opened Types
  import opened Math
  import opened Windows
  import opened Validators
  import opened Plans
  import opened Chain
  import opened Engine
  import opened Invariants
  import opened Roster
  import opened Closing
  import opened Keeping
  import opened System
  import opened Reach
  import opened Worth
  import opened Sharing
  import opened Custody

  /** The assets the next caller is priced on, were the cache fresh. */
  function Assets(s: Sys): int { Value(s) + Gap(s) }

  /** SCRT debts that stay out of pricing because their stake is on its way back. */
  lemma {:induction false} GapIsBucket(s: Sys)
    requires SysOk(s)
    ensures Gap(s) == s.core.totals.scrtOwedUnbonding - SumSeq(s.chain.queue, Unreleased)
  {
    hide SlotsOk, LedgerOk, IndexOk, ActiveOk, SetOk, QueueOk, Mispricing, StakeOk;
    var c, q := s.core, s.chain;
    assert WindowOk(c.windows, c.openId, c.config.params.unbondWindowSecs, c.config.params.unbondingPeriodSecs);
    UnbondingBucket(q.queue, c.windows, q.unbondTime);
    EntryAccounts(q.queue, c.windows, q.unbondTime);
  }

  // ---- a ride-along close moves stake and debt together ----

  function Undelegated(m: Msg): nat { if m.Undelegate? then m.amount else 0 }

  lemma {:induction false} EntriesAmount(ms: seq<Msg>, at: nat)
    ensures SumSeq(NewEntries(ms, at), Unreleased) == SumSeq(ms, Undelegated)
  {
    if ms != [] {
      var init, last := ms[..|ms| - 1], ms[|ms| - 1];
      EntriesAmount(init, at);
      if last.Undelegate? {
        SumSnoc(NewEntries(init, at), EntryOf(last, at)[0], Unreleased);
      } else {
        assert NewEntries(init, at) + [] == NewEntries(init, at);
      }
    }
  }

  lemma {:induction false} LegsAmount(vs: seq<ValidatorEntry>, legs: seq<UnbondLeg>, window: nat)
    ensures SumSeq(LegMsgs(vs, legs, window), Undelegated) == SumSeq(legs, Amount)
  {
    SumSame(LegMsgs(vs, legs, window), Undelegated, legs, Amount);
  }

  /** What a list of messages undelegates is what it adds to the unbonding bucket. */
  ghost predicate Balanced(c: Core, d: Core, ms: seq<Msg>) {
    c.totals.scrtOwedUnbonding + SumSeq(ms, Undelegated) == d.totals.scrtOwedUnbonding
  }

  lemma {:induction false} ClosedBalanced(c: Core, now: nat)
    requires CoreOk(c) && ClosedOpen(c, now).Ok?
    ensures Balanced(c, ClosedOpen(c, now).value.core, ClosedOpen(c, now).value.msgs)
  {
    hide SetOk, SlotsOk, LedgerOk, IndexOk, ActiveOk, StakeOk, BucketsOk, ClosedOpen, LegMsgs;
    var legs, closed := ClosedForm(c, now);
    LegsAmount(c.vals, legs, c.openId);
    ClosedBucket(c, now);
  }

  lemma {:induction false} ClosedBucket(c: Core, now: nat)
    requires c.openId < |c.windows| && ClosedOpen(c, now).Ok?
    ensures ClosedOpen(c, now).value.core.totals.scrtOwedUnbonding == c.totals.scrtOwedUnbonding + c.windows[c.openId].scrtOwed
  {
  }

  lemma {:induction false} OverdueBalanced(c: Core, now: nat)
    requires CoreOk(c) && ClosedIfOverdue(c, now).Ok?
    ensures Balanced(c, ClosedIfOverdue(c, now).value.core, ClosedIfOverdue(c, now).value.msgs)
  {
    hide ClosedOpen, ClosedIfOverdue, SetOk, SlotsOk, LedgerOk, IndexOk, ActiveOk, StakeOk, BucketsOk;
    OverdueCases(c, now);
    if ClosedIfOverdue(c, now) == ClosedOpen(c, now) {
      ClosedBalanced(c, now);
    }
  }

  lemma {:induction false} QuietBalanced(c: Core, e: Core, d: Core, hs: seq<Msg>, ms: seq<Msg>)
    requires NoUndelegate(hs) && e.totals.scrtOwedUnbonding == c.totals.scrtOwedUnbonding && Balanced(e, d, ms)
    ensures Balanced(c, d, hs + ms)
  {
    SumConcat(hs, ms, Undelegated);
    SumZero(hs, Undelegated);
  }

  predicate IsTrade(tx: Tx) { tx.DoDeposit? || tx.DoUnbond? }

  /** Calls that move no value in or out and price nobody. */
  predicate IsUpkeep(tx: Tx) {
    tx.DoAdvance? || tx.DoSync? || tx.DoSetFee? || tx.DoSetPaused? || tx.DoRebalance?
  }

  lemma {:induction false} TradeBalanced(s: Sys, tx: Tx)
    requires SysOk(s) && Commits(s, tx) && IsTrade(tx)
    ensures Balanced(s.core, Handled(s, tx).core, Handled(s, tx).msgs)
  {
    hide SharesForDeposit, AssetsForShares, ClosedIfOverdue, CoreOk, ChainOk, SweptOk, Deposit, Unbond, Promised, Balanced;
    var c, b := s.core, Attached(s, tx);
    if tx.DoDeposit? {
      var n, r, shares, i, d := DepositForm(c, b, tx.sender, tx.funds);
      RefreshKeepsCore(c, b);
      PlacedKeepsCore(r, i, n, shares);
      OverdueBalanced(Placed(r, i, n, shares), b.now);
      QuietBalanced(c, Placed(r, i, n, shares), d.core, [Mint(tx.sender, shares), Delegate(r.vals[i].address, n)], d.msgs);
    } else {
      var r, owed, d := UnbondForm(c, b, if c.config.token.Some? then c.config.token.value else tx.from, tx.from, tx.shares);
      RefreshKeepsCore(c, b);
      PromisedKeepsCore(r, tx.from, tx.shares, owed);
      OverdueBalanced(Promised(r, tx.from, tx.shares, owed), b.now);
      PromisedBucket(r, tx.from, tx.shares, owed);
      QuietBalanced(c, Promised(r, tx.from, tx.shares, owed), d.core, [Burn(tx.shares)], d.msgs);
    }
  }

  lemma {:induction false} PromisedBucket(r: Core, from: Addr, n: nat, owed: nat)
    requires r.openId < |r.windows|
    ensures Promised(r, from, n, owed).totals.scrtOwedUnbonding == r.totals.scrtOwedUnbonding
  {
  }

  /** What upkeep leaves: messages aimed at the set that send and mint nothing, the same debts, the
      same token, and undelegations matched by the unbonding bucket. */
  ghost predicate Kept(c: Core, d: Done) {
    && Aimed(c, d.msgs, 0, 0, 0) && Balanced(c, d.core, d.msgs)
    && d.core.totals.OwedTotal() == c.totals.OwedTotal()
    && Addresses(d.core.vals) == Addresses(c.vals)
    && d.core.config.token == c.config.token
  }

  lemma {:induction false} SameDebtsKept(c: Core, d: Done)
    requires Aimed(c, d.msgs, 0, 0, 0) && NoUndelegate(d.msgs) && Addresses(d.core.vals) == Addresses(c.vals)
    requires d.core.totals.OwedTotal() == c.totals.OwedTotal() && d.core.config.token == c.config.token
    requires d.core.totals.scrtOwedUnbonding == c.totals.scrtOwedUnbonding
    ensures Kept(c, d)
  {
    SumZero(d.msgs, Undelegated);
  }

  lemma {:induction false} AdvanceKept(c: Core, q: Chain)
    requires CoreOk(c) && ChainOk(c, q) && AdvanceWindow(c, q).Ok?
    ensures Kept(c, AdvanceWindow(c, q).value)
  {
    hide CoreOk, ChainOk, ClosedOpen, Aimed, Balanced, Sound, Covered;
    AdvanceReaches(c, q);
    ClosedAimed(c, q.now);
    ClosedBalanced(c, q.now);
  }

  lemma {:induction false} RebalanceKept(c: Core, sender: Addr, plan: seq<RedelegateStep>)
    requires CoreOk(c) && Rebalance(c, sender, plan).Ok?
    ensures Kept(c, Rebalance(c, sender, plan).value)
  {
    hide CoreOk, Aimed;
    RebalanceAimed(c.vals, plan, c.allowlist, c);
    RebalanceKeeps(c, sender, plan);
    RebalanceCosts(c.vals, plan, c.allowlist);
    SameDebtsKept(c, Rebalance(c, sender, plan).value);
  }

  lemma {:induction false} UpkeepKept(s: Sys, tx: Tx)
    requires SysOk(s) && Commits(s, tx) && IsUpkeep(tx)
    ensures Kept(s.core, Handled(s, tx)) && Attached(s, tx) == s.chain
  {
    hide CoreOk, ChainOk, SweptOk, AdvanceWindow, Rebalance, Aimed, Kept;
    var c, q, d := s.core, s.chain, Handled(s, tx);
    match tx {
      case DoAdvance => AdvanceKept(c, q);
      case DoRebalance(sender, plan) => RebalanceKept(c, sender, plan);
      case DoSync(limit) =>
        SyncKeeps(c, q, limit);
        NoMsgsAimed(c);
        SameDebtsKept(c, d);
      case DoSetFee(_, _) =>
        NoMsgsAimed(c);
        SameDebtsKept(c, d);
      case DoSetPaused(_, _) =>
        NoMsgsAimed(c);
        SameDebtsKept(c, d);
      case _ =>
    }
  }

  /** A trade, or a call of upkeep, leaves the gap between priced assets and net worth as it found it. */
  lemma {:induction false} CallKeepsGap(s: Sys, tx: Tx)
    requires SysOk(s) && Commits(s, tx) && (IsTrade(tx) || IsUpkeep(tx))
    ensures SysOk(Transact(s, tx)) && Gap(Transact(s, tx)) == Gap(s)
  {
    hide SysOk, Handle, Gap, SweptAfter, NewEntries, Unreleased, Undelegated, Kept;
    NextKeeps(s, Do(tx));
    if IsTrade(tx) {
      TradeBalanced(s, tx);
    } else {
      UpkeepKept(s, tx);
      KeptParts(s.core, Handled(s, tx));
    }
    BalancedKeepsGap(s, tx);
  }

  lemma {:induction false} KeptParts(c: Core, d: Done)
    requires Kept(c, d)
    ensures Balanced(c, d.core, d.msgs)
  {
  }

  lemma {:induction false} BalancedKeepsGap(s: Sys, tx: Tx)
    requires SysOk(s) && Commits(s, tx) && SysOk(Transact(s, tx))
    requires Balanced(s.core, Handled(s, tx).core, Handled(s, tx).msgs)
    ensures Gap(Transact(s, tx)) == Gap(s)
  {
    hide SysOk, Handle, Gap, SweptAfter, NewEntries, Unreleased, Undelegated;
    var b, d := Attached(s, tx), Handled(s, tx);
    RunFrame(b, d.msgs);
    EntriesAmount(d.msgs, b.now + b.unbondTime);
    SumConcat(b.queue, NewEntries(d.msgs, b.now + b.unbondTime), Unreleased);
    GapIsBucket(s);
    GapIsBucket(Transact(s, tx));
  }

  // ---- one step, then any number ----

  /** Steps of a trading run: deposits, withdrawals, upkeep, refused calls, and the passing of time. */
  predicate TradingStep(step: Step) {
    match step
    case Do(tx) => IsTrade(tx) || IsUpkeep(tx) || tx.DoSetWeights?
    case World(e) => e.Pass?
  }

  /** What a step brings in, and what it promises. */
  ghost function BroughtIn(s: Sys, step: Step): nat {
    if step.Do? && Commits(s, step.tx) && step.tx.DoDeposit? then Coins(step.tx.funds, s.core.config.bondedDenom) else 0
  }

  ghost function PromisedOut(s: Sys, step: Step): int {
    Next(s, step).core.totals.OwedTotal() - s.core.totals.OwedTotal()
  }

  /** A pool in use: seeded, with debts its assets cover. */
  ghost predicate InUse(s: Sys) {
    SysOk(s) && InSet(s) && s.core.config.token.Some? && Assets(s) >= 0
  }

  /** Any state a run reaches is one, once the token is registered, unless losses left debts uncovered. */
  lemma {:induction false} ReachedInUse(s: Sys, steps: seq<Step>)
    requires Fresh(s)
    ensures var r := After(s, steps);
            InUse(r) <==> r.core.config.token.Some? && Assets(r) >= 0
  {
    hide Fresh, SysOk, InSet, Assets;
    ReachableOk(s, steps);
    RunInSet(s, steps);
  }

  lemma {:induction false} TokenStays(s: Sys, tx: Tx)
    requires SysOk(s) && Commits(s, tx) && IsTrade(tx)
    ensures Transact(s, tx).core.config == s.core.config
  {
    hide CoreOk, QueueOk, TimeOk, Deposit, Unbond, SweptAfter, SweptOk;
    if tx.DoDeposit? {
      DepositReaches(s.core, s.chain, Attached(s, tx), tx.sender, tx.funds);
    } else {
      UnbondReaches(s.core, s.chain, Attached(s, tx), if s.core.config.token.Some? then s.core.config.token.value else tx.from,
                    tx.from, tx.shares);
    }
  }

  /** The assets a step leaves account for it, and never come out lower per share. */
  ghost predicate Fair(s: Sys, t: Sys, paidIn: nat, promised: int) {
    && InUse(t)
    && Assets(t) == Assets(s) + paidIn - promised
    && Assets(t) * s.chain.supply >= Assets(s) * t.chain.supply
  }

  lemma {:induction false} OweAfterDeposit(s: Sys, tx: Tx)
    requires SysOk(s) && Commits(s, tx) && tx.DoDeposit?
    ensures PromisedOut(s, Do(tx)) == 0
  {
    hide SharesForDeposit, ClosedIfOverdue, CoreOk, ChainOk, SweptOk, Deposit, SweptAfter;
    var c, b := s.core, Attached(s, tx);
    var n, r, shares, i, d := DepositForm(c, b, tx.sender, tx.funds);
    RefreshKeepsCore(c, b);
    PlacedKeepsCore(r, i, n, shares);
    OverdueAimed(Placed(r, i, n, shares), b.now);
  }

  lemma {:induction false} OweAfterUnbond(s: Sys, tx: Tx, owed: nat)
    requires SysOk(s) && Commits(s, tx) && tx.DoUnbond? && Value(Transact(s, tx)) == Value(s) - owed
    ensures PromisedOut(s, Do(tx)) == owed
  {
    hide CoreOk, ChainOk, SweptOk, Handle, SweptAfter, Holdings, Aimed;
    UnbondHoldings(s, tx);
  }

  /** A withdrawal request moves no value: net worth falls only by the new debt. */
  lemma {:induction false} UnbondHoldings(s: Sys, tx: Tx)
    requires SysOk(s) && Commits(s, tx) && tx.DoUnbond?
    ensures Holdings(Transact(s, tx).core.vals, Transact(s, tx).chain) == Holdings(s.core.vals, s.chain)
  {
    hide AssetsForShares, ClosedIfOverdue, CoreOk, ChainOk, SweptOk, Unbond, SweptAfter, Holdings, Aimed, Promised;
    var c, q, b := s.core, s.chain, Attached(s, tx);
    var r, owed, d := UnbondForm(c, b, if c.config.token.Some? then c.config.token.value else tx.from, tx.from, tx.shares);
    RefreshKeepsCore(c, b);
    PromisedKeepsCore(r, tx.from, tx.shares, owed);
    OverdueAimed(Promised(r, tx.from, tx.shares, owed), b.now);
    PromisedOwes(r, tx.from, tx.shares, owed);
    UnbondAimed(c, r, tx.from, tx.shares, owed, d);
    SetDistinct(c);
    AimedParts(c, [Burn(tx.shares)] + d.msgs, 0, 0, tx.shares);
    RunKeepsHoldings(c.vals, b, [Burn(tx.shares)] + d.msgs);
    CreditedHoldings(c.vals, q, b);
    HoldingsByAddress(c.vals, d.core.vals, Transact(s, tx).chain);
  }

  lemma {:induction false} OneTrade(s: Sys, tx: Tx)
    requires InUse(s) && IsTrade(tx) && Commits(s, tx)
    ensures Fair(s, Transact(s, tx), BroughtIn(s, Do(tx)), PromisedOut(s, Do(tx)))
  {
    hide SysOk, Commits, Transact, NetWorth, Mispricing, SharesForDeposit, AssetsForShares, InSet;
    CallKeepsGap(s, tx);
    NextInSet(s, Do(tx));
    TokenStays(s, tx);
    SeededSupply(s);
    if tx.DoDeposit? {
      var n, shares, pool := DepositValue(s, tx.sender, tx.funds);
      OweAfterDeposit(s, tx);
      DepositKeepsRate(n, pool, pool.Assets().value, shares);
    } else {
      var owed, pool := UnbondValue(s, tx.from, tx.shares);
      OweAfterUnbond(s, tx, owed);
      WithdrawalKeepsRate(tx.shares, pool, pool.Assets().value, owed);
    }
  }

  lemma {:induction false} OneUpkeep(s: Sys, tx: Tx)
    requires InUse(s) && IsUpkeep(tx) && Commits(s, tx)
    ensures Fair(s, Transact(s, tx), BroughtIn(s, Do(tx)), PromisedOut(s, Do(tx)))
  {
    hide SysOk, Handle, Holdings, Mispricing, Aimed, Balanced, SweptAfter, InSet;
    CallKeepsGap(s, tx);
    NextInSet(s, Do(tx));
    UpkeepKept(s, tx);
    CoreIsDistinct(s);
    ValueAfter(s, tx, 0, 0, 0);
  }

  lemma {:induction false} OneWeighting(s: Sys, tx: Tx)
    requires InUse(s) && tx.DoSetWeights? && Commits(s, tx)
    ensures Fair(s, Transact(s, tx), BroughtIn(s, Do(tx)), PromisedOut(s, Do(tx)))
  {
    hide SysOk, Commits, Transact, NetWorth, Mispricing, InSet;
    NextKeeps(s, Do(tx));
    NextInSet(s, Do(tx));
    WeightsKeepValue(s, tx.sender, tx.weights);
  }

  lemma {:induction false} CoreIsDistinct(s: Sys)
    requires SysOk(s)
    ensures Distinct(Addresses(s.core.vals))
  {
    SetDistinct(s.core);
  }

  /** Time alone changes nothing of value. */
  lemma {:induction false} TimePasses(s: Sys, to: nat)
    requires InUse(s)
    ensures Fair(s, Next(s, World(Pass(to))), 0, 0)
  {
    hide SysOk, Mispricing, InSet;
    NextKeeps(s, World(Pass(to)));
    NextInSet(s, World(Pass(to)));
    CreditedHoldings(s.core.vals, s.chain, Happen(s.chain, Pass(to)));
  }

  lemma {:induction false} OneFairStep(s: Sys, step: Step)
    requires InUse(s) && TradingStep(step)
    ensures Fair(s, Next(s, step), BroughtIn(s, step), PromisedOut(s, step))
  {
    hide InUse, Fair, Commits, Assets;
    match step {
      case Do(tx) =>
        if !Commits(s, tx) {
          RefusedIsFair(s, tx);
        } else if IsTrade(tx) {
          OneTrade(s, tx);
        } else if tx.DoSetWeights? {
          OneWeighting(s, tx);
        } else {
          OneUpkeep(s, tx);
        }
      case World(e) => TimePasses(s, e.to);
    }
  }

  lemma {:induction false} RefusedIsFair(s: Sys, tx: Tx)
    requires InUse(s) && !Commits(s, tx)
    ensures Fair(s, Transact(s, tx), BroughtIn(s, Do(tx)), PromisedOut(s, Do(tx)))
  {
    hide SysOk, Assets, InSet;
  }

  /** What the steps of a run bring in and promise, added up along it. */
  ghost function PaidInOver(s: Sys, steps: seq<Step>): nat {
    if steps == [] then 0 else
      var init := steps[..|steps| - 1];
      PaidInOver(s, init) + BroughtIn(After(s, init), steps[|steps| - 1])
  }

  ghost function PromisedOver(s: Sys, steps: seq<Step>): int {
    if steps == [] then 0 else
      var init := steps[..|steps| - 1];
      PromisedOver(s, init) + PromisedOut(After(s, init), steps[|steps| - 1])
  }

  lemma {:induction false} TradesAreFair(s: Sys, steps: seq<Step>)
    requires InUse(s) && forall i :: 0 <= i < |steps| ==> TradingStep(steps[i])
    ensures Fair(s, After(s, steps), PaidInOver(s, steps), PromisedOver(s, steps))
  {
    hide InUse, TradingStep, BroughtIn, PromisedOut, Next, Assets;
    if steps != [] {
      var init, step := steps[..|steps| - 1], steps[|steps| - 1];
      var m := After(s, init);
      TradesAreFair(s, init);
      OneFairStep(m, step);
      Seeded(s);
      Seeded(m);
      Seeded(Next(m, step));
      RatioTransitive(Assets(s), s.chain.supply, Assets(m), m.chain.supply, Assets(Next(m, step)), Next(m, step).chain.supply);
    }
  }

  lemma {:induction false} Seeded(s: Sys)
    requires InUse(s)
    ensures s.chain.supply > 0 && Assets(s) >= 0
  {
    hide InSet;
    SeededSupply(s);
  }

  /** No run of deposits and withdrawals by anybody that leaves at least the shares it found has been
      promised more SCRT than it brought in: over any stretch of time, with windows closing along the
      way and upkeep and refused calls in between. Rewards, slashing, returning SCRT, collections and
      claims stay out of it, since each of those moves what a share is priced on. */
  lemma {:induction false} NoProfitableTrades(s: Sys, steps: seq<Step>)
    requires InUse(s) && forall i :: 0 <= i < |steps| ==> TradingStep(steps[i])
    ensures After(s, steps).chain.supply >= s.chain.supply ==> PromisedOver(s, steps) <= PaidInOver(s, steps)
  {
    hide InUse, TradingStep, After, PaidInOver, PromisedOver;
    TradesAreFair(s, steps);
    Seeded(s);
    if After(s, steps).chain.supply >= s.chain.supply {
      AtLeastAsMany(s, After(s, steps));
    }
  }

  lemma {:induction false} AtLeastAsMany(s: Sys, t: Sys)
    requires s.chain.supply > 0 && t.chain.supply >= s.chain.supply && Assets(s) >= 0
    requires Assets(t) * s.chain.supply >= Assets(s) * t.chain.supply
    ensures Assets(t) >= Assets(s)
  {
    hide Assets;
    MulMono(s.chain.supply, t.chain.supply, Assets(s));
    assert s.chain.supply * Assets(s) == Assets(s) * s.chain.supply;
    assert t.chain.supply * Assets(s) == Assets(s) * t.chain.supply;
    MulCancelLe(Assets(s), Assets(t), s.chain.supply);
  }
}
