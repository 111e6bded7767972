/** When deposits and withdrawal requests go through, decided by figures to be read before the call, and
    everything they then do. */
module Accepting {
  import opened Prelude
  import opened Sums
  import opened Types
  import opened Math
  import opened Windows
  import opened Validators
  import opened Plans
  import opened Chain
  import opened Engine
  import opened Invariants
  import opened Closing
  import opened Keeping
  import opened System
  import opened Reach
  import opened Limits
  import opened Commitments
  import opened Worth
  import opened Sharing
  import opened Charging
  import opened Weighting
  import opened Roster

  // ---- what calls are priced on ----

  /** Stake and rewards on the chain, and the balance. */
  function GrossOf(c: Core, q: Chain): nat { SumSeq(c.vals, StakeAt(q)) + q.balance }

  /** Less the debts they still back. */
  function AssetsOf(c: Core, q: Chain): nat {
    SatSub(GrossOf(c, q), c.totals.scrtOwedOpen + c.totals.scrtOwedMatured)
  }

  /** `PoolOf` a refreshed core, whatever the cache held before. */
  lemma {:induction false} PoolAsFound(c: Core, q: Chain, b: Chain, n: nat)
    requires Refreshed(c, b).Ok? && c.config.token.Some?
    requires b.delegations == q.delegations && b.balance == q.balance + n && b.supply == q.supply
    ensures var p := PoolOf(Refreshed(c, b).value.totals, b.balance, n);
            && p.Gross() == GrossOf(c, q) && p.supply == q.supply
            && (p.Assets().Ok? <==> GrossOf(c, q) <= U128_MAX)
            && (p.Assets().Ok? ==> p.Assets().value == AssetsOf(c, q))
  {
    RefreshedStake(c.vals, b);
    SumSame(c.vals, StakeAt(q), c.vals, StakeAt(b));
  }

  lemma {:induction false} RefreshedWhen(c: Core, b: Chain)
    requires CoreOk(c)
    ensures Refreshed(c, b).Ok? && SumSeq(Refreshed(c, b).value.vals, ActiveWeight) > 0
    ensures SumSeq(Refreshed(c, b).value.vals, Bonded) == SumSeq(c.vals, BondedOn(b))
    ensures Refreshed(c, b).value
         == c.(vals := Refreshed(c, b).value.vals,
               totals := c.totals.(totalBonded := Refreshed(c, b).value.totals.totalBonded,
                                   pendingRewards := Refreshed(c, b).value.totals.pendingRewards,
                                   totalSupply := SupplyOr(c, b), lastSyncTime := b.now))
  {
    CursorInside(c);
    var r := Refreshed(c, b).value;
    SumSame(r.vals, ActiveWeight, c.vals, ActiveWeight);
    SumSame(r.vals, Bonded, c.vals, BondedOn(b));
  }

  // ---- deposits ----

  /** The shares a deposit of `n` is to get: at par into a pool without assets, else at the pool's rate. */
  function SharesOf(c: Core, q: Chain, n: nat): nat {
    if AssetsOf(c, q) == 0 then n else n * q.supply / AssetsOf(c, q)
  }

  /** What a deposit has to satisfy: the pool open and seeded, one coin of the staking denomination, at
      least the minimum, enough for a share, and the supply it leaves within the cap. */
  ghost predicate DepositFits(c: Core, q: Chain, funds: seq<Coin>) {
    && !c.config.paused && c.config.token.Some?
    && |funds| == 1 && funds[0].denom == c.config.bondedDenom
    && (var n := funds[0].amount;
        && n > 0 && n >= c.config.params.minDeposit
        && GrossOf(c, q) <= U128_MAX && SumSeq(c.vals, BondedOn(q)) + n <= U128_MAX
        && SharesOf(c, q, n) > 0 && q.supply + SharesOf(c, q, n) <= MAX_TOTAL_SUPPLY)
  }

  lemma {:induction false} SharesAre(c: Core, q: Chain, n: nat, p: PoolTotals)
    requires n > 0 && q.supply > 0 && p.supply == q.supply
    requires p.Assets().Ok? ==> p.Assets().value == AssetsOf(c, q)
    ensures var r := SharesForDeposit(n, p);
            && (r.Ok? <==> p.Assets().Ok? && (AssetsOf(c, q) == 0 || SharesOf(c, q, n) <= U128_MAX))
            && (r.Ok? ==> r.value == SharesOf(c, q, n))
  {
    hide AssetsOf;
  }

  lemma {:induction false} PlaceNeverFails(r: Core, i: nat, n: nat, shares: nat, now: nat)
    requires CoreOk(r) && i < |r.vals|
    ensures ClosedIfOverdue(Placed(r, i, n, shares), now).Ok?
  {
    hide CoreOk, Placed, ClosedIfOverdue;
    PlacedKeepsCore(r, i, n, shares);
    OverdueNeverFails(Placed(r, i, n, shares), now);
  }

  /** The later stages of a deposit, once its funds are in order. */
  lemma {:induction false} DepositOkWhen(c: Core, q: Chain, b: Chain, sender: Addr, funds: seq<Coin>, n: nat)
    requires CoreOk(c) && q.supply > 0 && b == q.(balance := q.balance + n)
    requires !c.config.paused && c.config.token.Some? && n >= c.config.params.minDeposit
    requires ExactFunds(funds, c.config.bondedDenom) == Ok(n)
    ensures Deposit(c, b, sender, funds).Ok?
            <==> && GrossOf(c, q) <= U128_MAX && SumSeq(c.vals, BondedOn(q)) + n <= U128_MAX
                 && SharesOf(c, q, n) > 0 && q.supply + SharesOf(c, q, n) <= MAX_TOTAL_SUPPLY
  {
    hide CoreOk, Refreshed, PoolOf, SharesForDeposit, Selected, ClosedIfOverdue, Placed, SharesOf, GrossOf, ExactFunds;
    RefreshedWhen(c, b);
    var r := Refreshed(c, b).value;
    var p := PoolOf(r.totals, b.balance, n);
    PoolAsFound(c, q, b, n);
    ExactIsPositive(funds, c.config.bondedDenom);
    SharesAre(c, q, n, p);
    SelectedWhen(r.vals, n);
    SumSame(c.vals, BondedOn(q), c.vals, BondedOn(b));
    RefreshKeepsCore(c, b);
    if Selected(r.vals, n).Ok? {
      PlaceNeverFails(r, Selected(r.vals, n).value, n, SharesOf(c, q, n), b.now);
    }
    RefreshedSupply(c, b);
  }

  lemma {:induction false} RefreshedSupply(c: Core, b: Chain)
    requires Refreshed(c, b).Ok? && c.config.token.Some?
    ensures Refreshed(c, b).value.totals.totalSupply == b.supply
  {
  }

  lemma {:induction false} ExactIsPositive(funds: seq<Coin>, denom: string)
    ensures ExactFunds(funds, denom).Ok?
            <==> |funds| == 1 && funds[0].denom == denom && funds[0].amount > 0
    ensures ExactFunds(funds, denom).Ok? ==>
              && ExactFunds(funds, denom).value == funds[0].amount == Coins(funds, denom) > 0
  {
    if ExactFunds(funds, denom).Ok? {
      CoinsExact(funds, denom);
    }
  }

  /** On a chain less than a window length late a deposit goes through exactly when it fits. */
  lemma {:induction false} DepositAccepted(s: Sys, sender: Addr, funds: seq<Coin>)
    requires Timely(s)
    ensures Commits(s, DoDeposit(sender, funds)) <==> DepositFits(s.core, s.chain, funds)
  {
    hide CoreOk, ChainOk, SweptOk, OnSchedule, Deposit, ExactFunds, SharesOf, GrossOf;
    var c, q, b := s.core, s.chain, Credited(s.core, s.chain, DoDeposit(sender, funds)).value;
    ExactIsPositive(funds, c.config.bondedDenom);
    DepositStarts(c, b, sender, funds);
    if DepositStarted(c, funds) {
      SeededSupply(s);
      DepositOkWhen(c, q, b, sender, funds, Coins(funds, c.config.bondedDenom));
    }
    if Deposit(c, b, sender, funds).Ok? {
      DepositCommits(s, sender, funds);
    }
  }

  ghost predicate DepositStarted(c: Core, funds: seq<Coin>) {
    && !c.config.paused && c.config.token.Some? && ExactFunds(funds, c.config.bondedDenom).Ok?
    && ExactFunds(funds, c.config.bondedDenom).value >= c.config.params.minDeposit
  }

  lemma {:induction false} DepositStarts(c: Core, b: Chain, sender: Addr, funds: seq<Coin>)
    ensures Deposit(c, b, sender, funds).Ok? ==> DepositStarted(c, funds)
  {
  }

  /** What a committed deposit does: it mints the sender its shares, and delegates it to the validator
      furthest below its share of the stake the chain holds. */
  lemma {:induction false} DepositDoes(s: Sys, sender: Addr, funds: seq<Coin>) returns (i: nat)
    requires SysOk(s) && Commits(s, DoDeposit(sender, funds))
    ensures var c, q, t := s.core, s.chain, Transact(s, DoDeposit(sender, funds));
            var n, ms := Coins(funds, c.config.bondedDenom), Handled(s, DoDeposit(sender, funds)).msgs;
            && DepositFits(c, q, funds)
            && i < |c.vals| && GoesTo(c.vals, BondedOn(q), n, i)
            && |ms| >= 2 && ms[0] == Mint(sender, SharesOf(c, q, n)) && ms[1] == Delegate(c.vals[i].address, n)
            && (forall k :: 2 <= k < |ms| ==> ms[k].Undelegate?)
            && t.chain.supply == q.supply + SharesOf(c, q, n)
            && t.core.claims == c.claims && t.core.index == c.index
  {
    hide CoreOk, ChainOk, SweptOk, Deposit, ExactFunds, SharesOf, GrossOf, SharesForDeposit, Selected, ClosedIfOverdue,
         Placed, SweptAfter, PoolOf, Refreshed, GoesTo, SumSeq, DepositFits, Transact, Handled;
    var c, q, b := s.core, s.chain, Attached(s, DoDeposit(sender, funds));
    var n, shares, pool := DepositValue(s, sender, funds);
    var n', r, shares', j, d := DepositForm(c, b, sender, funds);
    i := j;
    ExactIsPositive(funds, c.config.bondedDenom);
    DepositFitted(s, sender, funds);
    DepositFindsSeed(s, sender, funds);
    PoolAsFound(c, q, b, n);
    SharesAre(c, q, n, pool);
    PicksShortest(c, q, b, n, r, i);
    PlaceKeepsClaims(r, i, n, shares, b.now);
    RefreshKeepsClaims(c, b);
    DepositLeaves(s, sender, funds, r, shares, i, d);
  }

  lemma {:induction false} DepositFitted(s: Sys, sender: Addr, funds: seq<Coin>)
    requires SysOk(s) && Commits(s, DoDeposit(sender, funds))
    ensures DepositFits(s.core, s.chain, funds) && s.core.config.token.Some?
    ensures Attached(s, DoDeposit(sender, funds))
         == s.chain.(balance := s.chain.balance + Coins(funds, s.core.config.bondedDenom))
  {
    hide CoreOk, ChainOk, SweptOk, Deposit, ExactFunds, SharesOf, GrossOf;
    var c, q, b := s.core, s.chain, Attached(s, DoDeposit(sender, funds));
    ExactIsPositive(funds, c.config.bondedDenom);
    DepositStarts(c, b, sender, funds);
    DepositFindsSeed(s, sender, funds);
    DepositOkWhen(c, q, b, sender, funds, Coins(funds, c.config.bondedDenom));
  }

  lemma {:induction false} DepositLeaves(s: Sys, sender: Addr, funds: seq<Coin>, r: Core, shares: nat, i: nat, d: Done)
    requires Commits(s, DoDeposit(sender, funds)) && i < |r.vals|
    requires var n := Coins(funds, s.core.config.bondedDenom);
             Deposit(s.core, Attached(s, DoDeposit(sender, funds)), sender, funds)
             == Ok(Done(d.core, [Mint(sender, shares), Delegate(r.vals[i].address, n)] + d.msgs))
    ensures var n, h := Coins(funds, s.core.config.bondedDenom), Handled(s, DoDeposit(sender, funds));
            && h.msgs == [Mint(sender, shares), Delegate(r.vals[i].address, n)] + d.msgs
            && h.core == d.core && Transact(s, DoDeposit(sender, funds)).core == d.core
  {
    hide Deposit, SweptAfter;
  }

  lemma {:induction false} RefreshKeepsClaims(c: Core, b: Chain)
    requires Refreshed(c, b).Ok?
    ensures Refreshed(c, b).value.claims == c.claims && Refreshed(c, b).value.index == c.index
  {
  }

  lemma {:induction false} PlaceKeepsClaims(r: Core, i: nat, n: nat, shares: nat, now: nat)
    requires i < |r.vals| && ClosedIfOverdue(Placed(r, i, n, shares), now).Ok?
    ensures var d := ClosedIfOverdue(Placed(r, i, n, shares), now).value;
            && d.core.claims == r.claims && d.core.index == r.index
            && (forall k :: 0 <= k < |d.msgs| ==> d.msgs[k].Undelegate?)
  {
    OverdueKeepsClaims(Placed(r, i, n, shares), now);
  }

  lemma {:induction false} OverdueKeepsClaims(c: Core, now: nat)
    requires ClosedIfOverdue(c, now).Ok?
    ensures var d := ClosedIfOverdue(c, now).value;
            && d.core.claims == c.claims && d.core.index == c.index && d.core.config == c.config
            && (forall k :: 0 <= k < |d.msgs| ==> d.msgs[k].Undelegate?)
  {
  }

  /** What is chosen from the refreshed set is the validator furthest below its share on the chain. */
  lemma {:induction false} PicksShortest(c: Core, q: Chain, b: Chain, n: nat, r: Core, i: nat)
    requires Refreshed(c, b) == Ok(r) && b.delegations == q.delegations && Selected(r.vals, n) == Ok(i)
    ensures i < |c.vals| && r.vals[i].address == c.vals[i].address && GoesTo(c.vals, BondedOn(q), n, i)
  {
    hide Selected, GoesTo;
    DelegationGoesToShortest(r.vals, n);
    SelectedInside(r.vals, n);
    SameGoesTo(r.vals, Bonded, c.vals, BondedOn(q), n, i);
  }

  lemma {:induction false} SelectedInside(vs: seq<ValidatorEntry>, n: nat)
    ensures Selected(vs, n).Ok? ==> Selected(vs, n).value < |vs|
  {
  }

  // ---- withdrawal requests ----

  /** The SCRT a request for `n` shares is to be promised: its part of the assets. */
  function OwedFor(c: Core, q: Chain, n: nat): nat
    requires q.supply > 0
  {
    n * AssetsOf(c, q) / q.supply
  }

  /** What a request has to satisfy: shares that exist, and enough of them for a unit of SCRT. */
  ghost predicate UnbondFits(c: Core, q: Chain, n: nat) {
    && c.config.token.Some? && 0 < n && q.ownTokens + n <= q.supply
    && GrossOf(c, q) <= U128_MAX && OwedFor(c, q, n) > 0
  }

  lemma {:induction false} OwedAre(c: Core, q: Chain, n: nat, p: PoolTotals)
    requires 0 < n <= q.supply && p.supply == q.supply && AssetsOf(c, q) <= GrossOf(c, q)
    requires p.Assets().Ok? <==> GrossOf(c, q) <= U128_MAX
    requires p.Assets().Ok? ==> p.Assets().value == AssetsOf(c, q)
    ensures var r := AssetsForShares(n, p);
            && (r.Ok? <==> p.Assets().Ok?)
            && (r.Ok? ==> r.value == OwedFor(c, q, n))
  {
    hide AssetsOf, GrossOf;
    var a := AssetsOf(c, q);
    MulDivBounds(n, a, q.supply);
    MulMono(n, q.supply, a);
    assert q.supply * a == a * q.supply;
    MulCancelLe(MulDiv(n, a, q.supply), a, q.supply);
  }

  lemma {:induction false} PromiseNeverFails(r: Core, from: Addr, n: nat, owed: nat, now: nat)
    requires CoreOk(r) && owed > 0
    ensures ClosedIfOverdue(Promised(r, from, n, owed), now).Ok?
  {
    hide CoreOk, Promised, ClosedIfOverdue;
    OpenIsOpen(r);
    PromisedKeepsCore(r, from, n, owed);
    OverdueNeverFails(Promised(r, from, n, owed), now);
  }

  lemma {:induction false} OpenIsOpen(c: Core)
    requires CoreOk(c)
    ensures c.openId + 1 == |c.windows| && c.windows[c.openId].state == Open
  {
    assert WindowOk(c.windows, c.openId, c.config.params.unbondWindowSecs, c.config.params.unbondingPeriodSecs);
  }

  lemma {:induction false} UnbondOkWhen(c: Core, q: Chain, b: Chain, sender: Addr, from: Addr, n: nat)
    requires CoreOk(c) && 0 < n <= q.supply && b == q.(ownTokens := q.ownTokens + n) && c.config.token == Some(sender)
    ensures Unbond(c, b, sender, from, n).Ok? <==> GrossOf(c, q) <= U128_MAX && OwedFor(c, q, n) > 0
  {
    hide CoreOk, Refreshed, PoolOf, AssetsForShares, ClosedIfOverdue, Promised, OwedFor, GrossOf;
    RefreshedWhen(c, b);
    var r := Refreshed(c, b).value;
    PoolAsFound(c, q, b, 0);
    OwedAre(c, q, n, PoolOf(r.totals, b.balance, 0));
    OpenIsOpen(c);
    RefreshKeepsCore(c, b);
    if OwedFor(c, q, n) > 0 {
      PromiseNeverFails(r, from, n, OwedFor(c, q, n), b.now);
    }
  }

  /** On a chain less than a window length late a withdrawal request goes through exactly when it fits. */
  lemma {:induction false} UnbondAccepted(s: Sys, from: Addr, n: nat)
    requires Timely(s)
    ensures Commits(s, DoUnbond(from, n)) <==> s.core.config.token.Some? && UnbondFits(s.core, s.chain, n)
  {
    hide CoreOk, ChainOk, SweptOk, OnSchedule, Unbond, OwedFor, GrossOf;
    var c, q, tx := s.core, s.chain, DoUnbond(from, n);
    if c.config.token.Some? && q.ownTokens + n <= q.supply {
      SeededSupply(s);
      if n > 0 {
        UnbondOkWhen(c, q, Credited(c, q, tx).value, c.config.token.value, from, n);
      }
      if Handle(c, Credited(c, q, tx).value, tx).Ok? {
        UnbondCommits(s, from, n);
      }
    }
    if Commits(s, tx) {
      UnbondNeeds(c, Attached(s, tx), if c.config.token.Some? then c.config.token.value else from, from, n);
    }
  }

  /** The record of `who` in the open window after a request for `n` shares promised `owed`. */
  function Recorded(c: Core, who: Addr, n: nat, owed: nat): ClaimRecord {
    var k := ClaimKey(who, c.openId);
    if k in c.claims then ClaimRecord(c.openId, c.claims[k].sharesBurned + n, c.claims[k].scrtOwed + owed, false)
    else ClaimRecord(c.openId, n, owed, false)
  }

  lemma {:induction false} OpenIsUncollected(c: Core, who: Addr)
    requires CoreOk(c)
    ensures var k := ClaimKey(who, c.openId); k in c.claims ==> !c.claims[k].claimed && c.claims[k].windowId == c.openId
  {
    hide SetOk, StakeOk, SlotsOk, ActiveOk, BucketsOk, IndexOk;
    OpenIsOpen(c);
    var k := ClaimKey(who, c.openId);
    assert k in c.claims ==> ClaimOk(k, c.claims[k], c.windows);
  }

  lemma {:induction false} PromisedRecords(r: Core, from: Addr, n: nat, owed: nat)
    requires CoreOk(r)
    ensures Promised(r, from, n, owed).claims == r.claims[ClaimKey(from, r.openId) := Recorded(r, from, n, owed)]
  {
    hide CoreOk;
    OpenIsOpen(r);
    OpenIsUncollected(r, from);
  }

  /** What a committed request does: it burns the shares, and records the promise under the leaver's name
      in the window open at the time, and nowhere else. */
  lemma {:induction false} UnbondDoes(s: Sys, from: Addr, n: nat)
    requires SysOk(s) && Commits(s, DoUnbond(from, n))
    ensures var c, q, t := s.core, s.chain, Transact(s, DoUnbond(from, n));
            var ms := Handled(s, DoUnbond(from, n)).msgs;
            && UnbondFits(c, q, n) && c.openId < |c.windows| && c.openId < |t.core.windows|
            && (var owed, w, v := OwedFor(c, q, n), c.windows[c.openId], t.core.windows[c.openId];
                && t.core.claims == c.claims[ClaimKey(from, c.openId) := Recorded(c, from, n, owed)]
                && v.scrtOwed == w.scrtOwed + owed && v.sharesBurned == w.sharesBurned + n
                && t.core.totals.OwedTotal() == c.totals.OwedTotal() + owed)
            && |ms| >= 1 && ms[0] == Burn(n) && (forall k :: 1 <= k < |ms| ==> ms[k].Undelegate?)
            && t.chain.supply == q.supply - n
  {
    hide CoreOk, ChainOk, SweptOk, Unbond, OwedFor, GrossOf, AssetsForShares, ClosedIfOverdue, Promised, SweptAfter,
         PoolOf, Refreshed, SumSeq, UnbondFits, Transact, Handled, Recorded;
    var c, q, tx := s.core, s.chain, DoUnbond(from, n);
    var b := Attached(s, tx);
    var owed, pool := UnbondValue(s, from, n);
    UnbondFitted(s, from, n);
    var r, owed', d := UnbondForm(c, b, c.config.token.value, from, n);
    PoolAsFound(c, q, b, 0);
    OwedAre(c, q, n, pool);
    RefreshKeepsCore(c, b);
    RefreshKeepsClaims(c, b);
    RefreshedWhen(c, b);
    PromisedRecords(r, from, n, owed);
    SameRecord(c, r, from, n, owed);
    OverdueKeepsClaims(Promised(r, from, n, owed), b.now);
    PromisedKeepsCore(r, from, n, owed);
    OverdueKeepsRequest(r, from, n, owed, b.now);
    UnbondLeaves(s, from, n, d);
    PromisedOwes(r, from, n, owed);
    OverdueAimed(Promised(r, from, n, owed), b.now);
  }

  lemma {:induction false} SameRecord(c: Core, r: Core, who: Addr, n: nat, owed: nat)
    requires r.claims == c.claims && r.openId == c.openId
    ensures Recorded(r, who, n, owed) == Recorded(c, who, n, owed)
  {
  }

  lemma {:induction false} UnbondFitted(s: Sys, from: Addr, n: nat)
    requires SysOk(s) && Commits(s, DoUnbond(from, n))
    ensures s.core.config.token.Some? && UnbondFits(s.core, s.chain, n)
    ensures Attached(s, DoUnbond(from, n)) == s.chain.(ownTokens := s.chain.ownTokens + n)
    ensures Handle(s.core, Attached(s, DoUnbond(from, n)), DoUnbond(from, n))
         == Unbond(s.core, Attached(s, DoUnbond(from, n)), s.core.config.token.value, from, n)
  {
    hide CoreOk, ChainOk, SweptOk, Unbond, OwedFor, GrossOf;
    var c, q, tx := s.core, s.chain, DoUnbond(from, n);
    UnbondNeeds(c, Attached(s, tx), if c.config.token.Some? then c.config.token.value else from, from, n);
    UnbondOkWhen(c, q, Attached(s, tx), c.config.token.value, from, n);
  }

  lemma {:induction false} UnbondLeaves(s: Sys, from: Addr, n: nat, d: Done)
    requires Commits(s, DoUnbond(from, n))
    requires Handle(s.core, Attached(s, DoUnbond(from, n)), DoUnbond(from, n)) == Ok(Done(d.core, [Burn(n)] + d.msgs))
    ensures var h := Handled(s, DoUnbond(from, n));
            h.msgs == [Burn(n)] + d.msgs && h.core == d.core && Transact(s, DoUnbond(from, n)).core == d.core
  {
    hide Handle, SweptAfter;
  }

  lemma {:induction false} OverdueKeepsRequest(r: Core, from: Addr, n: nat, owed: nat, now: nat)
    requires CoreOk(r) && CoreOk(Promised(r, from, n, owed)) && ClosedIfOverdue(Promised(r, from, n, owed), now).Ok?
    ensures var d := ClosedIfOverdue(Promised(r, from, n, owed), now).value.core;
            && r.openId < |r.windows| && r.openId < |d.windows|
            && d.windows[r.openId].scrtOwed == r.windows[r.openId].scrtOwed + owed
            && d.windows[r.openId].sharesBurned == r.windows[r.openId].sharesBurned + n
  {
    hide CoreOk, ClosedIfOverdue;
    OpenIsOpen(r);
    OverdueKeepsDebt(Promised(r, from, n, owed), now);
  }

  lemma {:induction false} OverdueKeepsDebt(c: Core, now: nat)
    requires c.openId < |c.windows| && ClosedIfOverdue(c, now).Ok?
    ensures var d := ClosedIfOverdue(c, now).value.core;
            && |c.windows| <= |d.windows|
            && d.windows[c.openId].scrtOwed == c.windows[c.openId].scrtOwed
            && d.windows[c.openId].sharesBurned == c.windows[c.openId].sharesBurned
  {
  }

  // ---- the close ----

  /** Stake an undelegation may draw on: none with a validator out of entry slots. */
  function FreeRaw(ceiling: nat): ValidatorEntry -> nat {
    (v: ValidatorEntry) => if v.activeUnbondEntries < ceiling then v.bonded else 0
  }

  /** What a close at `now` leaves of the window table `ws` and the active list. */
  ghost predicate RolledTo(ws: seq<UnbondWindow>, active: seq<nat>, d: Core, now: nat) {
    && 0 < |ws| && |d.windows| == |ws| + 1 && d.openId == |ws|
    && (forall i :: 0 <= i < |ws| - 1 ==> d.windows[i] == ws[i])
    && (var w, v, p := ws[|ws| - 1], d.windows[|ws| - 1], d.config.params;
        && v == (if w.scrtOwed == 0 then w.(state := Settled, scrtRealised := Some(0))
                 else w.(state := Unbonding, maturesAt := now + p.unbondingPeriodSecs, validatorsUsed := v.validatorsUsed))
        && d.windows[|ws|]
           == UnbondWindow(|ws|, now, now + p.unbondWindowSecs, 0, 0, 0, None, 0, [], Open)
        && d.active == if w.scrtOwed == 0 then active else active + [|ws| - 1])
  }

  lemma {:induction false} PlanWhen(vs: seq<ValidatorEntry>, amount: nat, ceiling: nat)
    ensures Plan(vs, amount, ceiling).Ok? <==> amount <= SumSeq(vs, FreeRaw(ceiling))
  {
    PlanSucceeds(vs, amount, ceiling);
    SumSame(vs, FreeRaw(ceiling), vs, Free(ceiling));
  }

  lemma {:induction false} ClosedRolls(c: Core, now: nat)
    requires CoreOk(c) && ClosedOpen(c, now).Ok?
    ensures RolledTo(c.windows, c.active, ClosedOpen(c, now).value.core, now)
  {
    hide SetOk, StakeOk, SlotsOk, ActiveOk, BucketsOk, LedgerOk, IndexOk, IsPlan, LegMsgs, Drawn;
    OpenIsOpen(c);
    if c.windows[c.openId].scrtOwed == 0 {
      assert c.windows[c.openId].validatorsUsed + LegAddresses(c.vals, []) == c.windows[c.openId].validatorsUsed;
    }
  }

  /** `AdvanceWindow` is accepted exactly when the deadline has passed and the stake with free entry slots
      covers what the window owes; then the window closes at that moment and the next one opens. */
  lemma {:induction false} AdvanceAccepted(c: Core, q: Chain)
    requires CoreOk(c)
    ensures AdvanceWindow(c, q).Ok?
            <==> && c.openId < |c.windows| && c.windows[c.openId].closesAt <= q.now
                 && c.windows[c.openId].scrtOwed <= SumSeq(c.vals, FreeRaw(c.config.params.maxUnbondEntries))
    ensures AdvanceWindow(c, q).Ok? ==> RolledTo(c.windows, c.active, AdvanceWindow(c, q).value.core, q.now)
  {
    hide CoreOk, Plan, RolledTo;
    OpenIsOpen(c);
    PlanWhen(c.vals, c.windows[c.openId].scrtOwed, c.config.params.maxUnbondEntries);
    if AdvanceWindow(c, q).Ok? {
      ClosedRolls(c, q.now);
    }
  }

  /** The ride-along close happens under the same conditions, and otherwise leaves everything alone. */
  lemma {:induction false} OverdueClosesWhen(c: Core, now: nat)
    requires CoreOk(c)
    ensures c.openId < |c.windows| && ClosedIfOverdue(c, now).Ok?
    ensures var d := ClosedIfOverdue(c, now).value;
            if && c.windows[c.openId].closesAt <= now
               && c.windows[c.openId].scrtOwed <= SumSeq(c.vals, FreeRaw(c.config.params.maxUnbondEntries))
            then RolledTo(c.windows, c.active, d.core, now)
            else d == Done(c, [])
  {
    hide CoreOk, Plan, RolledTo;
    OpenIsOpen(c);
    OverdueNeverFails(c, now);
    PlanWhen(c.vals, c.windows[c.openId].scrtOwed, c.config.params.maxUnbondEntries);
    if ClosedOpen(c, now).Ok? {
      ClosedRolls(c, now);
    }
  }

  /** Stake the chain holds with validators that have a free entry slot. */
  function FreeOn(q: Chain, ceiling: nat): ValidatorEntry -> nat {
    (v: ValidatorEntry) => if v.activeUnbondEntries < ceiling then q.BondedAt(v.address) else 0
  }

  /** The table after a call: rolled over at `now`, or as it was. */
  ghost predicate RollsWhen(due: bool, ws: seq<UnbondWindow>, c: Core, d: Core, now: nat) {
    if due then RolledTo(ws, c.active, d, now)
    else d.windows == ws && d.openId == c.openId && d.active == c.active
  }

  lemma {:induction false} PlacedFree(c: Core, b: Chain, i: nat, n: nat, shares: nat)
    requires Refreshed(c, b).Ok? && i < |c.vals|
    ensures var r, ceiling := Refreshed(c, b).value, c.config.params.maxUnbondEntries;
            && |r.vals| == |c.vals|
            && SumSeq(Placed(r, i, n, shares).vals, FreeRaw(ceiling))
               == SumSeq(c.vals, FreeOn(b, ceiling)) + (if c.vals[i].activeUnbondEntries < ceiling then n else 0)
  {
    var r, ceiling := Refreshed(c, b).value, c.config.params.maxUnbondEntries;
    SumUpdate(r.vals, i, r.vals[i].(bonded := r.vals[i].bonded + n), FreeRaw(ceiling));
    SumSame(r.vals, FreeRaw(ceiling), c.vals, FreeOn(b, ceiling));
  }

  /** A deposit closes the open window on its way exactly when that is overdue and the stake with free
      entry slots, the deposit's included, covers what it owes. */
  lemma {:induction false} DepositCloses(s: Sys, sender: Addr, funds: seq<Coin>) returns (i: nat)
    requires SysOk(s) && Commits(s, DoDeposit(sender, funds))
    ensures var c, q, d := s.core, s.chain, Transact(s, DoDeposit(sender, funds)).core;
            var n, ceiling := Coins(funds, c.config.bondedDenom), c.config.params.maxUnbondEntries;
            && i < |c.vals| && GoesTo(c.vals, BondedOn(q), n, i) && c.openId < |c.windows|
            && RollsWhen(&& c.windows[c.openId].closesAt <= q.now
                         && c.windows[c.openId].scrtOwed
                            <= SumSeq(c.vals, FreeOn(q, ceiling)) + (if c.vals[i].activeUnbondEntries < ceiling then n else 0),
                         c.windows, c, d, q.now)
  {
    hide CoreOk, ChainOk, SweptOk, Deposit, SharesForDeposit, Selected, ClosedIfOverdue, Placed, SweptAfter, PoolOf,
         Refreshed, GoesTo, SumSeq, DepositFits, Transact, Handled, RolledTo, FreeOn, FreeRaw;
    var c, q, b := s.core, s.chain, Attached(s, DoDeposit(sender, funds));
    var n, r, shares, j, d := DepositForm(c, b, sender, funds);
    i := j;
    DepositFitted(s, sender, funds);
    CoinsExact(funds, c.config.bondedDenom);
    PicksShortest(c, q, b, n, r, i);
    DepositLeaves(s, sender, funds, r, shares, i, d);
    RefreshKeepsCore(c, b);
    RefreshedWhen(c, b);
    PlacedKeepsCore(r, i, n, shares);
    PlacedFrame(r, i, n, shares);
    OverdueClosesWhen(Placed(r, i, n, shares), b.now);
    PlacedFree(c, b, i, n, shares);
    SameFree(c.vals, q, b, c.config.params.maxUnbondEntries);
  }

  lemma {:induction false} PlacedFrame(r: Core, i: nat, n: nat, shares: nat)
    requires i < |r.vals|
    ensures var p := Placed(r, i, n, shares);
            p.windows == r.windows && p.openId == r.openId && p.active == r.active && p.config == r.config
  {
  }

  lemma {:induction false} SameFree(vs: seq<ValidatorEntry>, q: Chain, b: Chain, ceiling: nat)
    requires b.delegations == q.delegations
    ensures SumSeq(vs, FreeOn(b, ceiling)) == SumSeq(vs, FreeOn(q, ceiling))
  {
    SumSame(vs, FreeOn(b, ceiling), vs, FreeOn(q, ceiling));
  }

  /** A request joins the open window first, which then closes exactly when it is overdue and the stake
      with free entry slots covers all it owes, the new promise included. */
  lemma {:induction false} UnbondCloses(s: Sys, from: Addr, n: nat)
    requires SysOk(s) && Commits(s, DoUnbond(from, n))
    ensures var c, q, d := s.core, s.chain, Transact(s, DoUnbond(from, n)).core;
            && UnbondFits(c, q, n) && c.openId < |c.windows|
            && (var w := c.windows[c.openId];
                var joined := w.(sharesBurned := w.sharesBurned + n, scrtOwed := w.scrtOwed + OwedFor(c, q, n));
                RollsWhen(&& w.closesAt <= q.now
                          && joined.scrtOwed <= SumSeq(c.vals, FreeOn(q, c.config.params.maxUnbondEntries)),
                          c.windows[c.openId := joined], c, d, q.now))
  {
    hide CoreOk, ChainOk, SweptOk, Unbond, OwedFor, GrossOf, AssetsForShares, ClosedIfOverdue, Promised, SweptAfter,
         PoolOf, Refreshed, SumSeq, UnbondFits, Transact, Handled, RolledTo, FreeOn, FreeRaw;
    var c, q, tx := s.core, s.chain, DoUnbond(from, n);
    var b := Attached(s, tx);
    UnbondFitted(s, from, n);
    var r, owed, d := UnbondForm(c, b, c.config.token.value, from, n);
    PoolAsFound(c, q, b, 0);
    RequestFits(c, q, n);
    OwedAre(c, q, n, PoolOf(r.totals, b.balance, 0));
    UnbondLeaves(s, from, n, d);
    RefreshKeepsCore(c, b);
    RefreshedWhen(c, b);
    PromisedKeepsCore(r, from, n, owed);
    PromisedFrame(r, from, n, owed);
    OverdueClosesWhen(Promised(r, from, n, owed), b.now);
    RefreshedFree(c, q, b);
  }

  lemma {:induction false} RequestFits(c: Core, q: Chain, n: nat)
    requires UnbondFits(c, q, n)
    ensures 0 < n <= q.supply && AssetsOf(c, q) <= GrossOf(c, q)
  {
  }

  lemma {:induction false} PromisedFrame(r: Core, from: Addr, n: nat, owed: nat)
    requires r.openId < |r.windows|
    ensures var p, w := Promised(r, from, n, owed), r.windows[r.openId];
            && p.windows == r.windows[r.openId := w.(sharesBurned := w.sharesBurned + n, scrtOwed := w.scrtOwed + owed)]
            && p.openId == r.openId && p.active == r.active && p.config == r.config && p.vals == r.vals
  {
  }

  lemma {:induction false} RefreshedFree(c: Core, q: Chain, b: Chain)
    requires Refreshed(c, b).Ok? && b.delegations == q.delegations
    ensures SumSeq(Refreshed(c, b).value.vals, FreeRaw(c.config.params.maxUnbondEntries))
         == SumSeq(c.vals, FreeOn(q, c.config.params.maxUnbondEntries))
  {
    var r, ceiling := Refreshed(c, b).value, c.config.params.maxUnbondEntries;
    SumSame(r.vals, FreeRaw(ceiling), c.vals, FreeOn(q, ceiling));
  }
}
