/** Net worth per share, transaction by transaction: which calls can never lower it, and exactly when
    a deposit or a withdrawal does. */
module Sharing {
  import opened Prelude
  import opened Sums
  import opened Types
  import opened Math
  import opened Windows
  import opened Validators
  import opened Plans
  import opened Chain
  import opened Engine
  import opened Invariants
  import opened Roster
  import opened Closing
  import opened Maturing
  import opened Claims
  import opened Keeping
  import opened System
  import opened Reach
  import opened Limits
  import opened Commitments
  import opened Worth

  function Value(s: Sys): int { NetWorth(s.core, s.chain) }

  /** Every share is worth at least as much in `t` as it was in `s`. */
  ghost predicate KeepsShareValue(s: Sys, t: Sys) {
    Value(t) * s.chain.supply >= Value(s) * t.chain.supply
  }

  function Gap(s: Sys): int { Mispricing(s.core.windows, s.chain.queue) }

  // ---- what a committed transaction does to net worth ----

  /** Messages aimed at the set, and what they send out and mint. */
  ghost predicate Aimed(c: Core, ms: seq<Msg>, sent: nat, minted: nat, burned: nat) {
    AllWithin(ms, Addresses(c.vals)) && SumSeq(ms, Sent) == sent && SumSeq(ms, Minted) == minted && SumSeq(ms, Burned) == burned
  }

  /** Net worth after a transaction: what was credited comes in, what is sent goes out, and debts
      count as they stand. */
  lemma {:induction false} ValueAfter(s: Sys, tx: Tx, sent: nat, minted: nat, burned: nat)
    requires Commits(s, tx) && Distinct(Addresses(s.core.vals))
    requires Aimed(s.core, Handled(s, tx).msgs, sent, minted, burned)
    requires Addresses(Handled(s, tx).core.vals) == Addresses(s.core.vals)
    ensures var t := Transact(s, tx);
            && Value(t) == Holdings(s.core.vals, Attached(s, tx)) - sent - Handled(s, tx).core.totals.OwedTotal()
            && t.chain.supply + burned == Attached(s, tx).supply + minted
  {
    hide Handle, Credited, SweptAfter, Aimed;
    var b, d := Attached(s, tx), Handled(s, tx);
    AimedParts(s.core, d.msgs, sent, minted, burned);
    RunKeepsHoldings(s.core.vals, b, d.msgs);
    HoldingsByAddress(s.core.vals, d.core.vals, Run(b, d.msgs).value);
    RunFrame(b, d.msgs);
  }

  lemma {:induction false} SetDistinct(c: Core)
    requires CoreOk(c)
    ensures Distinct(Addresses(c.vals))
  {
  }

  lemma {:induction false} AimedParts(c: Core, ms: seq<Msg>, sent: nat, minted: nat, burned: nat)
    requires Aimed(c, ms, sent, minted, burned)
    ensures AllWithin(ms, Addresses(c.vals))
    ensures SumSeq(ms, Sent) == sent && SumSeq(ms, Minted) == minted && SumSeq(ms, Burned) == burned
  {
  }

  lemma {:induction false} CreditedHoldings(vs: seq<ValidatorEntry>, q: Chain, b: Chain)
    requires b.delegations == q.delegations && b.queue == q.queue
    ensures Holdings(vs, b) + q.balance == Holdings(vs, q) + b.balance
  {
    SumSame(vs, StakeAt(q), vs, StakeAt(b));
  }

  lemma {:induction false} AimedConcat(c: Core, hs: seq<Msg>, ms: seq<Msg>, sent: nat, minted: nat, burned: nat,
        sent': nat, minted': nat, burned': nat)
    requires Aimed(c, hs, sent, minted, burned) && Aimed(c, ms, sent', minted', burned')
    ensures Aimed(c, hs + ms, sent + sent', minted + minted', burned + burned')
  {
    SumConcat(hs, ms, Sent);
    SumConcat(hs, ms, Minted);
    SumConcat(hs, ms, Burned);
  }

  lemma {:induction false} AimedSame(c: Core, d: Core, ms: seq<Msg>, sent: nat, minted: nat, burned: nat)
    requires Aimed(c, ms, sent, minted, burned) && Addresses(d.vals) == Addresses(c.vals)
    ensures Aimed(d, ms, sent, minted, burned)
  {
  }

  /** Closing a window moves a debt between buckets and value between stake and queue; neither total
      changes. */
  lemma {:induction false} ClosedAimed(c: Core, now: nat)
    requires CoreOk(c) && ClosedOpen(c, now).Ok? && c.windows[c.openId].closesAt <= now
    ensures Aimed(c, ClosedOpen(c, now).value.msgs, 0, 0, 0)
    ensures ClosedOpen(c, now).value.core.totals.OwedTotal() == c.totals.OwedTotal()
  {
    hide SetOk, SlotsOk, LedgerOk, IndexOk, ActiveOk, StakeOk, ClosedOpen;
    var legs, closed := ClosedForm(c, now);
    LegMsgsPay(c.vals, legs, c.openId);
    LegMsgsWithin(c.vals, c.windows[c.openId].scrtOwed, c.config.params.maxUnbondEntries, legs, c.openId);
    CloseKeepsCore(c, now);
    CloseMovesDebt(c, now);
  }

  lemma {:induction false} LegMsgsWithin(vs: seq<ValidatorEntry>, amount: nat, ceiling: nat, legs: seq<UnbondLeg>,
        window: nat)
    requires IsPlan(vs, amount, ceiling, legs)
    ensures AllWithin(LegMsgs(vs, legs, window), Addresses(vs))
  {
    var ms := LegMsgs(vs, legs, window);
    forall i | 0 <= i < |ms| ensures Within(ms[i], Addresses(vs)) {
      assert Addresses(vs)[legs[i].index] == LegAddress(vs, legs[i]);
    }
  }

  lemma {:induction false} CloseMovesDebt(c: Core, now: nat)
    requires c.openId < |c.windows| && ClosedOpen(c, now).Ok? && c.windows[c.openId].scrtOwed <= c.totals.scrtOwedOpen
    ensures ClosedOpen(c, now).value.core.totals.OwedTotal() == c.totals.OwedTotal()
  {
  }

  lemma {:induction false} OverdueAimed(c: Core, now: nat)
    requires CoreOk(c) && ClosedIfOverdue(c, now).Ok?
    ensures Aimed(c, ClosedIfOverdue(c, now).value.msgs, 0, 0, 0)
    ensures ClosedIfOverdue(c, now).value.core.totals.OwedTotal() == c.totals.OwedTotal()
    ensures Addresses(ClosedIfOverdue(c, now).value.core.vals) == Addresses(c.vals)
  {
    hide ClosedOpen, ClosedIfOverdue, SetOk, SlotsOk, LedgerOk, IndexOk, ActiveOk, StakeOk, BucketsOk;
    OverdueCases(c, now);
    if ClosedIfOverdue(c, now) == ClosedOpen(c, now) && c.windows[c.openId].closesAt <= now {
      ClosedAimed(c, now);
      ClosedLeaves(c, now);
    }
  }

  // ---- deposits ----

  /** What a committed deposit was priced on and what it leaves. */
  lemma {:induction false} DepositValue(s: Sys, sender: Addr, funds: seq<Coin>) returns (n: nat, shares: nat,
        pool: PoolTotals)
    requires SysOk(s) && Commits(s, DoDeposit(sender, funds))
    ensures var t := Transact(s, DoDeposit(sender, funds));
            && n == Coins(funds, s.core.config.bondedDenom) > 0
            && SharesForDeposit(n, pool) == Ok(shares) && pool.Assets().Ok?
            && pool.supply == s.chain.supply
            && (pool.Assets().value == if Value(s) + Gap(s) >= 0 then Value(s) + Gap(s) else 0)
            && Value(t) == Value(s) + n
            && t.chain.supply == s.chain.supply + shares
    ensures var b := Attached(s, DoDeposit(sender, funds));
            Refreshed(s.core, b).Ok? && pool == PoolOf(Refreshed(s.core, b).value.totals, b.balance, n)
  {
    hide SharesForDeposit, ClosedIfOverdue, CoreOk, ChainOk, SweptOk, Deposit, NetWorth, Mispricing, Holdings,
          Aimed, SweptAfter, Transact;
    var tx := DoDeposit(sender, funds);
    var c, q, b := s.core, s.chain, Attached(s, tx);
    var i: nat, r: Core, d: Done;
    n, r, shares, i, d := DepositForm(c, b, sender, funds);
    pool := PoolOf(r.totals, b.balance, n);
    CoinsExact(funds, c.config.bondedDenom);
    DepositNeeds(c, b, sender, funds);
    DepositPool(s, b, n, pool);
    RefreshKeepsCore(c, b);
    PlacedKeepsCore(r, i, n, shares);
    OverdueAimed(Placed(r, i, n, shares), b.now);
    DepositAimed(c, r, i, n, shares, sender, d);
    SetDistinct(s.core);
    ValueAfter(s, tx, 0, shares, 0);
    CreditedHoldings(c.vals, q, b);
    DepositNets(s, tx, n, d.core.totals);
    PricedSomehow(n, pool);
  }

  lemma {:induction false} DepositNeeds(c: Core, b: Chain, sender: Addr, funds: seq<Coin>)
    requires Deposit(c, b, sender, funds).Ok?
    ensures c.config.token.Some?
  {
  }

  lemma {:induction false} PricedSomehow(n: nat, pool: PoolTotals)
    requires SharesForDeposit(n, pool).Ok?
    ensures pool.Assets().Ok?
  {
  }

  lemma {:induction false} DepositNets(s: Sys, tx: Tx, n: nat, after: TotalsCache)
    requires Commits(s, tx) && Attached(s, tx).balance == s.chain.balance + n
    requires Holdings(s.core.vals, Attached(s, tx)) + s.chain.balance == Holdings(s.core.vals, s.chain) + Attached(s, tx).balance
    requires after.OwedTotal() == s.core.totals.OwedTotal()
    ensures Holdings(s.core.vals, Attached(s, tx)) - after.OwedTotal() == Value(s) + n
  {
  }

  lemma {:induction false} DepositPool(s: Sys, b: Chain, n: nat, pool: PoolTotals)
    requires SysOk(s) && b == s.chain.(balance := s.chain.balance + n) && s.core.config.token.Some?
    requires Refreshed(s.core, b).Ok? && pool == PoolOf(Refreshed(s.core, b).value.totals, b.balance, n) 
    ensures pool.supply == s.chain.supply
    ensures pool.Assets().Ok? ==> pool.Assets().value == if Value(s) + Gap(s) >= 0 then Value(s) + Gap(s) else 0
  {
    hide CoreOk, QueueOk, Mispricing, Holdings, SweptOk;
    CreditedHoldings(s.core.vals, s.chain, b);
    if pool.Assets().Ok? {
      PricingIdentity(s.core, b, n);
    }
  }

  lemma {:induction false} DepositAimed(c: Core, r: Core, i: nat, n: nat, shares: nat, sender: Addr, d: Done)
    requires i < |r.vals| && Addresses(r.vals) == Addresses(c.vals)
    requires Aimed(Placed(r, i, n, shares), d.msgs, 0, 0, 0)
    ensures Aimed(c, [Mint(sender, shares), Delegate(r.vals[i].address, n)] + d.msgs, 0, shares, 0)
  {
    var m, g := Mint(sender, shares), Delegate(r.vals[i].address, n);
    assert Addresses(Placed(r, i, n, shares).vals) == Addresses(c.vals);
    assert g.validator == Addresses(r.vals)[i];
    TwoMsgs(m, g, Sent);
    TwoMsgs(m, g, Minted);
    TwoMsgs(m, g, Burned);
    AimedSame(Placed(r, i, n, shares), c, d.msgs, 0, 0, 0);
    AimedConcat(c, [m, g], d.msgs, 0, shares, 0, 0, 0, 0);
  }

  lemma {:induction false} DepositArithmetic(v: int, n: nat, s: nat, m: nat)
    ensures (v + n) * s >= v * (s + m) <==> m * v <= n * s
  {
    assert (v + n) * s == v * s + n * s;
    assert v * (s + m) == v * s + m * v;
  }

  /** A pool that takes deposits has been seeded, and the seed stays. */
  lemma {:induction false} SeededSupply(s: Sys)
    requires SysOk(s) && s.core.config.token.Some?
    ensures s.chain.supply > 0
  {
  }

  lemma {:induction false} DepositFindsSeed(s: Sys, sender: Addr, funds: seq<Coin>)
    requires SysOk(s) && Commits(s, DoDeposit(sender, funds))
    ensures s.chain.supply > 0
  {
    hide SysOk, Deposit;
    DepositNeeds(s.core, Attached(s, DoDeposit(sender, funds)), sender, funds);
    SeededSupply(s);
  }

  /** When a deposit lowers what a share is worth, decided by figures to be read before it: the assets
      it is priced on, their gap over net worth, the supply and the amount. With a positive gap or
      none it never does; below net worth it does unless rounding absorbs the difference. */
  lemma {:induction false} DepositShareValue(s: Sys, sender: Addr, funds: seq<Coin>)
    requires SysOk(s) && Commits(s, DoDeposit(sender, funds))
    ensures var t := Transact(s, DoDeposit(sender, funds));
            var n, supply, assets := Coins(funds, s.core.config.bondedDenom), s.chain.supply, Value(s) + Gap(s);
            && supply > 0
            && (assets > 0 ==>
                  && (KeepsShareValue(s, t) <==> MulDiv(n, supply, assets) * -Gap(s) <= n * supply % assets)
                  && (KeepsShareValue(s, t) <==> MulDiv(n, supply, assets) * Value(s) <= n * supply))
            && (assets <= 0 ==> (KeepsShareValue(s, t) <==> Value(s) <= supply))
            && (Gap(s) >= 0 ==> KeepsShareValue(s, t))
  {
    hide SysOk, Commits, Transact, SharesForDeposit, NetWorth, Mispricing, MulDiv;
    var n, shares, pool := DepositValue(s, sender, funds);
    DepositFindsSeed(s, sender, funds);
    DepositArithmetic(Value(s), n, s.chain.supply, shares);
    DepositMints(n, pool, shares);
    if Value(s) + Gap(s) > 0 {
      MintedFairly(n, s.chain.supply, shares, Value(s), Gap(s));
    } else {
      ParFairly(n, s.chain.supply, Value(s));
    }
    if Gap(s) >= 0 {
      DepositFairly(n, pool, shares, Value(s));
    }
  }

  lemma {:induction false} DepositMints(n: nat, pool: PoolTotals, shares: nat)
    requires SharesForDeposit(n, pool) == Ok(shares) && pool.supply > 0 && pool.Assets().Ok?
    ensures shares == if pool.Assets().value == 0 then n else MulDiv(n, pool.supply, pool.Assets().value)
  {
  }

  lemma {:induction false} MintedFairly(n: nat, supply: nat, m: nat, v: int, gap: int)
    requires v + gap > 0 && m == MulDiv(n, supply, v + gap)
    ensures m * v <= n * supply <==> m * -gap <= n * supply % (v + gap)
  {
    var a := v + gap;
    assert n * supply == m * a + n * supply % a;
    assert m * a == m * v + m * gap;
    assert m * -gap == -(m * gap);
  }

  lemma {:induction false} ParFairly(n: nat, supply: nat, v: int)
    requires n > 0
    ensures n * v <= n * supply <==> v <= supply
  {
    if v <= supply {
      MulMono(v, supply, n);
    } else {
      MulMono(supply + 1, v, n);
    }
    assert n * v == v * n && n * supply == supply * n;
  }

  lemma {:induction false} DepositFairly(n: nat, pool: PoolTotals, shares: nat, v: int)
    requires SharesForDeposit(n, pool) == Ok(shares) && pool.supply > 0 && pool.Assets().Ok? && v <= pool.Assets().value
    ensures shares * v <= n * pool.supply
  {
    var a := pool.Assets().value;
    DepositKeepsRate(n, pool, a, shares);
    DepositArithmetic(a, n, pool.supply, shares);
    MulMono(v, a, shares);
    assert shares * v == v * shares && shares * a == a * shares;
  }

  // ---- withdrawal requests ----

  lemma {:induction false} UnbondValue(s: Sys, from: Addr, n: nat) returns (owed: nat, pool: PoolTotals)
    requires SysOk(s) && Commits(s, DoUnbond(from, n))
    ensures var t := Transact(s, DoUnbond(from, n));
            && AssetsForShares(n, pool) == Ok(owed) && pool.Assets().Ok? && 0 < owed
            && 0 < n <= pool.supply == s.chain.supply
            && (pool.Assets().value == if Value(s) + Gap(s) >= 0 then Value(s) + Gap(s) else 0)
            && Value(t) == Value(s) - owed
            && t.chain.supply == s.chain.supply - n
    ensures var b := Attached(s, DoUnbond(from, n));
            Refreshed(s.core, b).Ok? && pool == PoolOf(Refreshed(s.core, b).value.totals, b.balance, 0)
  {
    hide AssetsForShares, ClosedIfOverdue, CoreOk, ChainOk, SweptOk, Unbond, NetWorth, Mispricing, Holdings, Aimed,
          SweptAfter, Transact, Promised;
    var tx := DoUnbond(from, n);
    var c, q, b := s.core, s.chain, Attached(s, tx);
    var sender := if c.config.token.Some? then c.config.token.value else from;
    var r: Core, d: Done;
    r, owed, d := UnbondForm(c, b, sender, from, n);
    pool := PoolOf(r.totals, b.balance, 0);
    UnbondNeeds(c, b, sender, from, n);
    UnbondPool(s, b, n, pool);
    PricedWithdrawal(n, pool, owed);
    RefreshKeepsCore(c, b);
    PromisedKeepsCore(r, from, n, owed);
    OverdueAimed(Promised(r, from, n, owed), b.now);
    PromisedOwes(r, from, n, owed);
    UnbondAimed(c, r, from, n, owed, d);
    SetDistinct(s.core);
    ValueAfter(s, tx, 0, 0, n);
    CreditedHoldings(c.vals, q, b);
    UnbondNets(s, tx, owed, d.core.totals);
  }

  lemma {:induction false} UnbondNeeds(c: Core, b: Chain, sender: Addr, from: Addr, n: nat)
    requires Unbond(c, b, sender, from, n).Ok?
    ensures n > 0 && c.config.token.Some?
  {
  }

  lemma {:induction false} PromisedOwes(r: Core, from: Addr, n: nat, owed: nat)
    requires r.openId < |r.windows|
    ensures Promised(r, from, n, owed).totals.OwedTotal() == r.totals.OwedTotal() + owed
    ensures Promised(r, from, n, owed).vals == r.vals
  {
  }

  lemma {:induction false} PricedWithdrawal(n: nat, pool: PoolTotals, owed: nat)
    requires AssetsForShares(n, pool) == Ok(owed) && owed > 0
    ensures pool.Assets().Ok?
  {
  }

  lemma {:induction false} UnbondNets(s: Sys, tx: Tx, owed: nat, after: TotalsCache)
    requires Commits(s, tx) && Attached(s, tx).balance == s.chain.balance
    requires Holdings(s.core.vals, Attached(s, tx)) + s.chain.balance == Holdings(s.core.vals, s.chain) + Attached(s, tx).balance
    requires after.OwedTotal() == s.core.totals.OwedTotal() + owed
    ensures Holdings(s.core.vals, Attached(s, tx)) - after.OwedTotal() == Value(s) - owed
  {
  }

  lemma {:induction false} UnbondPool(s: Sys, b: Chain, n: nat, pool: PoolTotals)
    requires SysOk(s) && b == s.chain.(ownTokens := s.chain.ownTokens + n) && s.core.config.token.Some?
    requires Refreshed(s.core, b).Ok? && pool == PoolOf(Refreshed(s.core, b).value.totals, b.balance, 0)
    ensures pool.supply == s.chain.supply
    ensures pool.Assets().Ok? ==> pool.Assets().value == if Value(s) + Gap(s) >= 0 then Value(s) + Gap(s) else 0
  {
    hide CoreOk, QueueOk, Mispricing, Holdings, SweptOk;
    CreditedHoldings(s.core.vals, s.chain, b);
    if pool.Assets().Ok? {
      PricingIdentity(s.core, b, 0);
    }
  }

  lemma {:induction false} UnbondAimed(c: Core, r: Core, from: Addr, n: nat, owed: nat, d: Done)
    requires r.openId < |r.windows| && Addresses(r.vals) == Addresses(c.vals)
    requires Promised(r, from, n, owed).vals == r.vals
    requires Aimed(Promised(r, from, n, owed), d.msgs, 0, 0, 0)
    ensures Aimed(c, [Burn(n)] + d.msgs, 0, 0, n)
  {
    TwoMsgs(Burn(n), Burn(n), Sent);
    TwoMsgs(Burn(n), Burn(n), Minted);
    TwoMsgs(Burn(n), Burn(n), Burned);
    AimedSame(Promised(r, from, n, owed), c, d.msgs, 0, 0, 0);
    AimedConcat(c, [Burn(n)], d.msgs, 0, 0, n, 0, 0, 0);
  }

  lemma {:induction false} UnbondArithmetic(v: int, o: nat, s: nat, n: nat)
    ensures (v - o) * s >= v * (s - n) <==> o * s <= n * v
  {
    assert (v - o) * s == v * s - o * s;
    assert v * (s - n) == v * s - n * v;
  }

  /** When a withdrawal lowers what a share is worth, decided by figures to be read before it: exactly
      when its part of the gap between priced assets and net worth exceeds what rounding down its
      promise keeps back. So never with a gap of zero or less, and always once its part of a positive
      gap reaches a whole unit. */
  lemma {:induction false} UnbondShareValue(s: Sys, from: Addr, n: nat)
    requires SysOk(s) && Commits(s, DoUnbond(from, n))
    ensures var t := Transact(s, DoUnbond(from, n));
            var supply, assets := s.chain.supply, Value(s) + Gap(s);
            && supply > 0 && assets > 0
            && (KeepsShareValue(s, t) <==> n * Gap(s) <= n * assets % supply)
            && (Gap(s) <= 0 ==> KeepsShareValue(s, t))
            && (n * Gap(s) >= supply ==> !KeepsShareValue(s, t))
  {
    hide SysOk, Commits, Transact, AssetsForShares, NetWorth, Mispricing, MulDiv;
    var owed, pool := UnbondValue(s, from, n);
    UnbondArithmetic(Value(s), owed, s.chain.supply, n);
    UnbondPays(n, pool, owed);
    PaidFairly(n, s.chain.supply, owed, Value(s), Gap(s));
  }

  lemma {:induction false} UnbondPays(n: nat, pool: PoolTotals, owed: nat)
    requires AssetsForShares(n, pool) == Ok(owed) && 0 < n <= pool.supply && owed > 0 && pool.Assets().Ok?
    ensures pool.Assets().value > 0 && owed == MulDiv(n, pool.Assets().value, pool.supply)
  {
  }

  lemma {:induction false} PaidFairly(n: nat, supply: nat, owed: nat, v: int, gap: int)
    requires supply > 0 && v + gap > 0 && owed == MulDiv(n, v + gap, supply)
    ensures owed * supply <= n * v <==> n * gap <= n * (v + gap) % supply
    ensures gap <= 0 ==> owed * supply <= n * v
    ensures n * gap >= supply ==> owed * supply > n * v
  {
    var a := v + gap;
    assert n * a == owed * supply + n * a % supply;
    assert n * a == n * v + n * gap;
    if gap <= 0 {
      MulMono(gap, 0, n);
      assert n * gap == gap * n;
    }
  }

  // ---- everything else ----

  /** Calls that trade no shares. */
  predicate NoTrade(tx: Tx) {
    tx.DoAdvance? || tx.DoCollect? || tx.DoClaim? || tx.DoSync? || tx.DoSetFee? || tx.DoSetPaused? || tx.DoRebalance?
  }

  /** Maturing windows never adds to what is owed. */
  lemma {:induction false} MatureOwes(c: Core, now: nat, balance: nat, limit: nat)
    requires CoreOk(c)
    ensures MatureDue(c, now, balance, limit).core.totals.OwedTotal() <= c.totals.OwedTotal()
  {
    hide SetOk, SlotsOk, LedgerOk, IndexOk, StakeOk;
    var m := MatureFrom(c.active, c.windows, now, balance, SumSeq(c.active, SpokenAt(c.windows)), Max(limit, 1));
    if m.matured != [] {
      DueKeepsBuckets(c, balance, m, now, limit, c.config.params.unbondWindowSecs, c.config.params.unbondingPeriodSecs);
    }
  }

  lemma {:induction false} NoMsgsAimed(c: Core)
    ensures Aimed(c, [], 0, 0, 0)
  {
  }

  lemma {:induction false} ClaimAimed(c: Core, b: Chain, who: Addr, ids: Option<seq<nat>>) returns (paid: nat)
    requires CoreOk(c) && ClaimMatured(c, b, who, ids).Ok?
    ensures var d := ClaimMatured(c, b, who, ids).value;
            Aimed(c, d.msgs, paid, 0, 0) && d.core.totals.OwedTotal() + paid <= c.totals.OwedTotal()
  {
    hide CoreOk, MatureDue, ClaimFrom, ClaimMatured;
    var m, wanted, r := ClaimForm(c, b, who, ids);
    paid := r.paid;
    MatureKeepsCore(c, b.now, b.balance, U32_MAX);
    MatureOwes(c, b.now, b.balance, U32_MAX);
    ClaimRunKeeps(m, who, wanted);
    TwoMsgs(Send(who, paid), Send(who, paid), Sent);
    TwoMsgs(Send(who, paid), Send(who, paid), Minted);
    TwoMsgs(Send(who, paid), Send(who, paid), Burned);
  }

  lemma {:induction false} RebalanceAimed(vs: seq<ValidatorEntry>, plan: seq<RedelegateStep>, allowlist: seq<Addr>,
        c: Core)
    requires RebalanceFrom(vs, plan, allowlist).Ok? && Addresses(vs) == Addresses(c.vals)
    ensures Aimed(c, RebalanceFrom(vs, plan, allowlist).value.1, 0, 0, 0)
    decreases |plan|
  {
    if plan != [] {
      var s := plan[0];
      var i, j := Find(vs, s.src), Find(vs, s.dst);
      var us := Moved(vs, i, j, s.amount);
      assert Addresses(us) == Addresses(vs);
      RebalanceAimed(us, plan[1..], allowlist, c);
      var head, rest := Redelegate(s.src, s.dst, s.amount), RebalanceFrom(us, plan[1..], allowlist).value.1;
      TwoMsgs(head, head, Sent);
      TwoMsgs(head, head, Minted);
      TwoMsgs(head, head, Burned);
      AimedConcat(c, [head], rest, 0, 0, 0, 0, 0, 0);
    }
  }

  /** What a call without trades sends is matched by the debts it settles. */
  lemma {:induction false} NoTradeAimed(s: Sys, tx: Tx) returns (sent: nat)
    requires SysOk(s) && Commits(s, tx) && NoTrade(tx)
    ensures var d := Handled(s, tx);
            && Aimed(s.core, d.msgs, sent, 0, 0)
            && d.core.totals.OwedTotal() + sent <= s.core.totals.OwedTotal()
            && Addresses(d.core.vals) == Addresses(s.core.vals)
    ensures Attached(s, tx) == s.chain
  {
    hide CoreOk, ChainOk, SweptOk, ClaimMatured, ClosedOpen, MatureDue, Aimed, Sound, Covered;
    var c, q := s.core, s.chain;
    sent := 0;
    NoMsgsAimed(c);
    match tx {
      case DoAdvance =>
        ClosedAimed(c, q.now);
        AdvanceReaches(c, q);
      case DoCollect(limit) =>
        MatureOwes(c, q.now, q.balance, if limit.Some? then limit.value else DEFAULT_SYNC_LIMIT);
        CollectReaches(c, q, limit);
      case DoClaim(who, ids) =>
        sent := ClaimAimed(c, q, who, ids);
        ClaimReaches(c, q, who, ids);
      case DoSync(limit) => SyncKeeps(c, q, limit);
      case DoRebalance(sender, plan) =>
        RebalanceAimed(c.vals, plan, c.allowlist, c);
        RebalanceKeeps(c, sender, plan);
      case _ =>
    }
  }

  /** Advancing, collecting, claiming, syncing and rebalancing never lower net worth, however stale
      the cache and whatever was slashed; and they trade no shares. */
  lemma {:induction false} NoTradeKeepsValue(s: Sys, tx: Tx)
    requires SysOk(s) && Commits(s, tx) && NoTrade(tx)
    ensures var t := Transact(s, tx);
            Value(t) >= Value(s) && t.chain.supply == s.chain.supply && KeepsShareValue(s, t)
  {
    hide CoreOk, ChainOk, SweptOk, Handle, Holdings, Aimed, SweptAfter, Transact;
    var sent := NoTradeAimed(s, tx);
    SetDistinct(s.core);
    ValueAfter(s, tx, sent, 0, 0);
    MulMono(Value(s), Value(Transact(s, tx)), s.chain.supply);
  }
}
