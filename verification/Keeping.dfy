/** Every entry point keeps every storage invariant. */
module Keeping {
  import opened Prelude
  import opened Sums
  import opened Types
  import opened Math
  import opened Windows
  import opened Validators
  import opened Chain
  import opened Engine
  import opened Invariants
  import opened Roster
  import opened Closing
  import opened Maturing
  import opened Claims

  // ---- re-reading and moving stake ----

  /** New stake figures on the same roster, with the totals recomputed to match. */
  lemma {:induction false} RestakedCore(c: Core, d: Core)
    requires CoreOk(c) && SameRoster(c.vals, d.vals) && StakeOk(d.totals, d.vals)
    requires d == c.(vals := d.vals, cursor := d.cursor,
                     totals := c.totals.(totalBonded := d.totals.totalBonded, pendingRewards := d.totals.pendingRewards,
                                         totalSupply := d.totals.totalSupply, lastSyncTime := d.totals.lastSyncTime))
    requires CursorOk(d.cursor, d.vals)
    ensures CoreOk(d) && Addresses(d.vals) == Addresses(c.vals)
  {
    RosterKeepsSet(c.vals, d.vals, c.allowlist, c.config.limits.maxValidatorWeightBps);
    RosterKeepsSlots(c.vals, d.vals, c.windows, c.config.params.maxUnbondEntries);
    assert Addresses(d.vals) == Addresses(c.vals);
  }

  lemma {:induction false} RefreshKeepsCore(c: Core, q: Chain)
    requires CoreOk(c) && Refreshed(c, q).Ok?
    ensures CoreOk(Refreshed(c, q).value) && Addresses(Refreshed(c, q).value.vals) == Addresses(c.vals)
  {
    RestakedCore(c, Refreshed(c, q).value);
  }

  lemma {:induction false} PlacedKeepsCore(c: Core, i: nat, amount: nat, shares: nat)
    requires CoreOk(c) && i < |c.vals|
    ensures CoreOk(Placed(c, i, amount, shares)) && Addresses(Placed(c, i, amount, shares).vals) == Addresses(c.vals)
  {
    BondAt(c.vals, i, c.vals[i].bonded + amount);
    hide SetOk, SlotsOk, WindowsOk, ActiveOk, BucketsOk, LedgerOk, IndexOk, SameRoster;
    RestakedCore(c, Placed(c, i, amount, shares));
  }

  // ---- recording a promise ----

  lemma {:induction false} ClaimedKeepsIndex(c: Core, who: Addr, window: nat, shares: nat, owed: nat)
    requires IndexOk(c.index, c.claims)
    ensures IndexOk(Claimed(c, who, window, shares, owed).index, Claimed(c, who, window, shares, owed).claims)
  {
    var d := Claimed(c, who, window, shares, owed);
    forall a, id ensures IndexedOk(d.index, d.claims, a, id) {
      assert IndexedOk(c.index, c.claims, a, id) && IndexedOk(c.index, c.claims, who, window);
    }
  }

  /** The table after the open window takes on one more request. */
  function Joined(ws: seq<UnbondWindow>, openId: nat, shares: nat, owed: nat): seq<UnbondWindow>
    requires openId < |ws|
  {
    ws[openId := ws[openId].(sharesBurned := ws[openId].sharesBurned + shares, scrtOwed := ws[openId].scrtOwed + owed)]
  }

  /** Two requests in one window merge into a single claim for the sum; ledger and window agree. */
  lemma {:induction false} ClaimedKeepsLedger(c: Core, who: Addr, shares: nat, owed: nat, p: nat, u: nat)
    requires WindowsOk(c.windows, c.openId, p, u) && LedgerOk(c.claims, c.windows) && owed > 0
    ensures LedgerOk(Claimed(c, who, c.openId, shares, owed).claims, Joined(c.windows, c.openId, shares, owed))
  {
    var k, n := ClaimKey(who, c.openId), Claimed(c, who, c.openId, shares, owed).claims;
    var us := Joined(c.windows, c.openId, shares, owed);
    assert WindowOk(c.windows, c.openId, p, u);
    forall j | j in n ensures ClaimOk(j, n[j], us) {
      if j in c.claims {
        assert ClaimOk(j, c.claims[j], c.windows);
      }
    }
    forall id | 0 <= id < |us| ensures LedgerAt(n, us[id], id) {
      assert LedgerAt(c.claims, c.windows[id], id);
      if k in c.claims {
        assert ClaimOk(k, c.claims[k], c.windows);
        SumMapUpdate(c.claims, k, n[k], OwedIn(id));
        SumMapUpdate(c.claims, k, n[k], SharesIn(id));
        SumMapUpdate(c.claims, k, n[k], PaidIn(id, us[id].Payable(), us[id].scrtOwed));
      } else {
        SumMapInsert(c.claims, k, n[k], OwedIn(id));
        SumMapInsert(c.claims, k, n[k], SharesIn(id));
        SumMapInsert(c.claims, k, n[k], PaidIn(id, us[id].Payable(), us[id].scrtOwed));
      }
      if id == c.openId {
        NothingPaidYet(c.claims, c.windows, id, us[id].Payable(), us[id].scrtOwed);
      }
    }
  }

  lemma {:induction false} JoinedKeepsWindows(ws: seq<UnbondWindow>, openId: nat, shares: nat, owed: nat, p: nat,
        u: nat)
    requires WindowsOk(ws, openId, p, u)
    ensures WindowsOk(Joined(ws, openId, shares, owed), openId, p, u)
  {
    var us := Joined(ws, openId, shares, owed);
    forall i | 0 <= i < |us| ensures WindowOk(us, i, p, u) {
      assert WindowOk(ws, i, p, u);
      assert i + 1 < |ws| ==> us[i + 1].openedAt == ws[i + 1].openedAt;
    }
    forall i, j | 0 <= i < |us| && 0 <= j < |us| ensures InTurn(us, i, j) {
      assert InTurn(ws, i, j) && WindowOk(ws, j, p, u) && WindowOk(ws, i, p, u);
    }
  }

  lemma {:induction false} JoinedKeepsRest(c: Core, shares: nat, owed: nat, p: nat, u: nat)
    requires WindowsOk(c.windows, c.openId, p, u)
    requires ActiveOk(c.active, c.windows) && BucketsOk(c.totals, c.windows, c.openId)
    requires SlotsOk(c.vals, c.windows, c.config.params.maxUnbondEntries)
    ensures var us := Joined(c.windows, c.openId, shares, owed);
            && ActiveOk(c.active, us)
            && BucketsOk(c.totals.(scrtOwedOpen := c.totals.scrtOwedOpen + owed), us, c.openId)
            && SlotsOk(c.vals, us, c.config.params.maxUnbondEntries)
  {
    var us := Joined(c.windows, c.openId, shares, owed);
    assert WindowOk(c.windows, c.openId, p, u);
    forall id: nat ensures id in c.active <==> id < |us| && InFlight(us[id].state) {
      assert id in c.active <==> id < |c.windows| && InFlight(c.windows[id].state);
    }
    SumUpdate(c.windows, c.openId, us[c.openId], UnbondingOwed);
    SumUpdate(c.windows, c.openId, us[c.openId], MaturedOutstanding);
    forall i | 0 <= i < |us| ensures UsedOk(us[i], c.vals) {
      assert UsedOk(c.windows[i], c.vals);
    }
    forall i | 0 <= i < |c.vals| ensures SlotOk(c.vals[i], us, c.config.params.maxUnbondEntries) {
      assert SlotOk(c.vals[i], c.windows, c.config.params.maxUnbondEntries);
      SumUpdate(c.windows, c.openId, us[c.openId], Uses(c.vals[i].address));
    }
  }

  lemma {:induction false} ClaimedFrame(c: Core, who: Addr, window: nat, shares: nat, owed: nat)
    ensures var d := Claimed(c, who, window, shares, owed); d == c.(claims := d.claims, index := d.index)
  {
  }

  lemma {:induction false} PromisedKeepsCore(c: Core, who: Addr, shares: nat, owed: nat)
    requires CoreOk(c) && owed > 0
    ensures CoreOk(Promised(c, who, shares, owed))
  {
    var p, u := c.config.params.unbondWindowSecs, c.config.params.unbondingPeriodSecs;
    var d := Promised(c, who, shares, owed);
    hide SetOk, SlotsOk, WindowsOk, ActiveOk, BucketsOk, LedgerOk, IndexOk, Claimed;
    ClaimedFrame(c, who, c.openId, shares, owed);
    assert d.windows == Joined(c.windows, c.openId, shares, owed);
    ClaimedKeepsIndex(c, who, c.openId, shares, owed);
    ClaimedKeepsLedger(c, who, shares, owed, p, u);
    JoinedKeepsWindows(c.windows, c.openId, shares, owed, p, u);
    JoinedKeepsRest(c, shares, owed, p, u);
  }

  // ---- closing, opportunistically or not ----

  lemma {:induction false} OverdueKeepsCore(c: Core, now: nat)
    requires CoreOk(c) && ClosedIfOverdue(c, now).Ok?
    ensures CoreOk(ClosedIfOverdue(c, now).value.core)
  {
    if ClosedIfOverdue(c, now) == ClosedOpen(c, now) && AssertClosable(c.windows[c.openId], now).Ok? {
      CloseKeepsCore(c, now);
    }
  }

  /** The ride-along close never turns into an error. */
  lemma {:induction false} OverdueNeverFails(c: Core, now: nat)
    requires CoreOk(c)
    ensures ClosedIfOverdue(c, now).Ok?
  {
  }

  // ---- entry points ----

  /** The stages of a successful deposit. */
  lemma {:induction false} DepositForm(c: Core, q: Chain, sender: Addr, funds: seq<Coin>)
    returns (deposit: nat, r: Core, shares: nat, i: nat, d: Done)
    requires Deposit(c, q, sender, funds).Ok?
    ensures ExactFunds(funds, c.config.bondedDenom) == Ok(deposit) && deposit > 0
    ensures Refreshed(c, q) == Ok(r)
    ensures 0 < shares && SharesForDeposit(deposit, PoolOf(r.totals, q.balance, deposit)) == Ok(shares)
    ensures i < |r.vals| && Selected(r.vals, deposit) == Ok(i)
    ensures ClosedIfOverdue(Placed(r, i, deposit, shares), q.now) == Ok(d)
    ensures Deposit(c, q, sender, funds)
            == Ok(Done(d.core, [Mint(sender, shares), Delegate(r.vals[i].address, deposit)] + d.msgs))
  {
    deposit := ExactFunds(funds, c.config.bondedDenom).value;
    r := Refreshed(c, q).value;
    shares := SharesForDeposit(deposit, PoolOf(r.totals, q.balance, deposit)).value;
    i := Selected(r.vals, deposit).value;
    d := ClosedIfOverdue(Placed(r, i, deposit, shares), q.now).value;
  }

  lemma {:induction false} PlaceThenClose(r: Core, i: nat, deposit: nat, shares: nat, now: nat)
    requires CoreOk(r) && i < |r.vals| && ClosedIfOverdue(Placed(r, i, deposit, shares), now).Ok?
    ensures CoreOk(ClosedIfOverdue(Placed(r, i, deposit, shares), now).value.core)
  {
    PlacedKeepsCore(r, i, deposit, shares);
    OverdueKeepsCore(Placed(r, i, deposit, shares), now);
  }

  lemma {:induction false} DepositKeeps(c: Core, q: Chain, sender: Addr, funds: seq<Coin>)
    requires CoreOk(c) && Deposit(c, q, sender, funds).Ok?
    ensures CoreOk(Deposit(c, q, sender, funds).value.core)
  {
    hide SharesForDeposit, Placed, ClosedIfOverdue;
    var deposit, r, shares, i, d := DepositForm(c, q, sender, funds);
    RefreshKeepsCore(c, q);
    PlaceThenClose(r, i, deposit, shares, q.now);
  }

  /** The stages of a successful withdrawal request. */
  lemma {:induction false} UnbondForm(c: Core, q: Chain, sender: Addr, from: Addr, amount: nat) returns (r: Core,
        owed: nat, d: Done)
    requires Unbond(c, q, sender, from, amount).Ok?
    ensures Refreshed(c, q) == Ok(r)
    ensures 0 < owed && AssetsForShares(amount, PoolOf(r.totals, q.balance, 0)) == Ok(owed)
    ensures r.openId < |r.windows|
    ensures ClosedIfOverdue(Promised(r, from, amount, owed), q.now) == Ok(d)
    ensures Unbond(c, q, sender, from, amount) == Ok(Done(d.core, [Burn(amount)] + d.msgs))
  {
    r := Refreshed(c, q).value;
    owed := AssetsForShares(amount, PoolOf(r.totals, q.balance, 0)).value;
    d := ClosedIfOverdue(Promised(r, from, amount, owed), q.now).value;
  }

  lemma {:induction false} PromiseThenClose(r: Core, from: Addr, amount: nat, owed: nat, now: nat)
    requires CoreOk(r) && owed > 0 && ClosedIfOverdue(Promised(r, from, amount, owed), now).Ok?
    ensures CoreOk(ClosedIfOverdue(Promised(r, from, amount, owed), now).value.core)
  {
    PromisedKeepsCore(r, from, amount, owed);
    OverdueKeepsCore(Promised(r, from, amount, owed), now);
  }

  lemma {:induction false} UnbondKeeps(c: Core, q: Chain, sender: Addr, from: Addr, amount: nat)
    requires CoreOk(c) && Unbond(c, q, sender, from, amount).Ok?
    ensures CoreOk(Unbond(c, q, sender, from, amount).value.core)
  {
    hide AssetsForShares, Promised, ClosedIfOverdue;
    var r, owed, d := UnbondForm(c, q, sender, from, amount);
    RefreshKeepsCore(c, q);
    PromiseThenClose(r, from, amount, owed, q.now);
  }

  lemma {:induction false} BootstrapForm(c: Core, b: Chain, sender: Addr, tokenAddr: Addr, funds: seq<Coin>)
        returns (seed: nat, i: nat)
    requires Bootstrap(c, b, sender, tokenAddr, funds).Ok?
    ensures ExactFunds(funds, c.config.bondedDenom) == Ok(seed) && seed >= MIN_BOOTSTRAP_SEED
    ensures i < |c.vals| && Selected(c.vals, seed) == Ok(i)
    ensures var d := Bootstrap(c, b, sender, tokenAddr, funds).value;
            && d.core == c.(config := d.core.config, totals := d.core.totals,
                            vals := c.vals[i := c.vals[i].(bonded := c.vals[i].bonded + seed)])
            && d.msgs == [RegisterReceive, Mint(SELF, seed), Delegate(c.vals[i].address, seed)]
            && d.core.totals == c.totals.(totalBonded := c.totals.totalBonded + seed,
                                          totalSupply := c.totals.totalSupply + seed, lastSyncTime := b.now)
            && d.core.config == c.config.(deployer := None, token := Some(tokenAddr))
  {
    seed := ExactFunds(funds, c.config.bondedDenom).value;
    i := Selected(c.vals, seed).value;
  }

  /** Binding the token touches nothing the invariants speak of. */
  lemma {:induction false} Rebound(c: Core, d: Core)
    requires CoreOk(c) && d == c.(config := c.config.(deployer := d.config.deployer, token := d.config.token))
    ensures CoreOk(d)
  {
    hide SetOk, SlotsOk, WindowsOk, ActiveOk, BucketsOk, LedgerOk, IndexOk;
  }

  lemma {:induction false} BootstrapKeeps(c: Core, q: Chain, sender: Addr, tokenAddr: Addr, funds: seq<Coin>)
    requires CoreOk(c) && Bootstrap(c, q, sender, tokenAddr, funds).Ok?
    ensures CoreOk(Bootstrap(c, q, sender, tokenAddr, funds).value.core)
  {
    hide SetOk, SlotsOk, WindowsOk, ActiveOk, BucketsOk, LedgerOk, IndexOk, SameRoster, Bootstrap, Selected;
    var d := Bootstrap(c, q, sender, tokenAddr, funds).value.core;
    var seed, i := BootstrapForm(c, q, sender, tokenAddr, funds);
    BondAt(c.vals, i, c.vals[i].bonded + seed);
    RestakedCore(c, d.(config := c.config));
    Rebound(d.(config := c.config), d);
  }

  lemma {:induction false} PaidBuckets(t: TotalsCache, ws: seq<UnbondWindow>, us: seq<UnbondWindow>, openId: nat,
        paid: nat)
    requires BucketsOk(t, ws, openId) && |us| == |ws| && us[openId].scrtOwed == ws[openId].scrtOwed
    requires SumSeq(us, MaturedOutstanding) + paid == SumSeq(ws, MaturedOutstanding)
    requires SumSeq(us, UnbondingOwed) == SumSeq(ws, UnbondingOwed)
    ensures paid <= t.scrtOwedMatured
    ensures BucketsOk(t.(scrtOwedMatured := t.scrtOwedMatured - paid), us, openId)
  {
  }

  /** What a successful claim leaves; nothing is paid beyond the matured bucket. */
  lemma {:induction false} ClaimKeeps(c: Core, q: Chain, who: Addr, ids: Option<seq<nat>>)
    requires CoreOk(c) && ClaimMatured(c, q, who, ids).Ok?
    ensures CoreOk(ClaimMatured(c, q, who, ids).value.core)
  {
    var m := MatureDue(c, q.now, q.balance, U32_MAX).core;
    var wanted := if ids.Some? then ids.value else IndexFor(m.index, who);
    var r := ClaimFrom(who, wanted, m.claims, m.windows).value;
    MatureKeepsCore(c, q.now, q.balance, U32_MAX);
    ClaimRunKeeps(m, who, wanted);
  }

  lemma {:induction false} ClaimRunKeeps(m: Core, who: Addr, wanted: seq<nat>)
    requires CoreOk(m) && ClaimFrom(who, wanted, m.claims, m.windows).Ok?
    ensures var r := ClaimFrom(who, wanted, m.claims, m.windows).value;
            && r.paid <= m.totals.scrtOwedMatured
            && CoreOk(m.(claims := r.claims, windows := r.windows,
                         totals := m.totals.(scrtOwedMatured := SatSub(m.totals.scrtOwedMatured, r.paid)),
                         active := Without(m.active, r.settled)))
  {
    var p, u := m.config.params.unbondWindowSecs, m.config.params.unbondingPeriodSecs;
    var r := ClaimFrom(who, wanted, m.claims, m.windows).value;
    ClaimFromKeeps(who, wanted, m.claims, m.windows, m.openId, p, u);
    assert PaidFurther(m.windows[m.openId], r.windows[m.openId]);
    PaidBuckets(m.totals, m.windows, r.windows, m.openId, r.paid);
    PaidKeepsActive(m.active, m.windows, r.windows, r.settled);
    PaidKeepsSlots(m.vals, m.windows, r.windows, m.config.params.maxUnbondEntries);
    SameKeysIndex(m.index, m.claims, r.claims);
  }

  lemma {:induction false} SameKeysIndex(index: map<Addr, seq<nat>>, m: Ledger, n: Ledger)
    requires IndexOk(index, m) && n.Keys == m.Keys
    ensures IndexOk(index, n)
  {
    forall a, id ensures IndexedOk(index, n, a, id) {
      assert IndexedOk(index, m, a, id);
      assert ClaimKey(a, id) in n <==> ClaimKey(a, id) in m.Keys;
    }
  }

  lemma {:induction false} SyncKeeps(c: Core, q: Chain, limit: Option<nat>)
    requires CoreOk(c) && Sync(c, q, limit).Ok?
    ensures CoreOk(Sync(c, q, limit).value.core) && Addresses(Sync(c, q, limit).value.core.vals) == Addresses(c.vals)
  {
    RestakedCore(c, Sync(c, q, limit).value.core);
  }

  lemma {:induction false} RestakeRoster(c: Core, q: Chain, lo: nat, hi: nat, harvested: nat)
    requires Restaked(c, HarvestedSet(c.vals, q, lo, hi), q.balance, harvested).Ok?
    ensures SameRoster(c.vals, Restaked(c, HarvestedSet(c.vals, q, lo, hi), q.balance, harvested).value.vals)
  {
  }

  lemma {:induction false} CompoundKeeps(c: Core, q: Chain, limit: Option<nat>)
    requires CoreOk(c) && Compound(c, q, limit).Ok?
    ensures CoreOk(Compound(c, q, limit).value.core) && Addresses(Compound(c, q, limit).value.core.vals) == Addresses(c.vals)
  {
    var end := SweepEnd(c, if limit.Some? then limit.value else DEFAULT_COMPOUND_LIMIT);
    RestakeRoster(c, q, c.cursor, end, SumSeq(c.vals[c.cursor..end], RewardsOn(q)));
    RestakedCore(c, Compound(c, q, limit).value.core);
  }

  lemma {:induction false} SetWeightsKeeps(c: Core, sender: Addr, ws: seq<ValidatorInit>)
    requires CoreOk(c) && SetWeights(c, sender, ws).Ok?
    ensures CoreOk(SetWeights(c, sender, ws).value.core)
    ensures |c.vals| <= |SetWeights(c, sender, ws).value.core.vals|
    ensures Addresses(SetWeights(c, sender, ws).value.core.vals)[..|c.vals|] == Addresses(c.vals)
  {
    var us := WeightsApplied(c.vals, ws);
    ManagedVerdictMeaning(ws, c.allowlist, c.config.limits.maxValidatorWeightBps);
    WeightsKeepSet(c.vals, ws, c.allowlist, c.config.limits.maxValidatorWeightBps);
    WeightsKeepStake(c.vals, us);
    WeightsKeepSlots(c.vals, us, c.windows, c.config.params.maxUnbondEntries);
  }

  lemma {:induction false} RebalanceKeeps(c: Core, sender: Addr, plan: seq<RedelegateStep>)
    requires CoreOk(c) && Rebalance(c, sender, plan).Ok?
    ensures CoreOk(Rebalance(c, sender, plan).value.core) && Addresses(Rebalance(c, sender, plan).value.core.vals) == Addresses(c.vals)
  {
    RebalanceConserves(c.vals, plan, c.allowlist);
    RestakedCore(c, Rebalance(c, sender, plan).value.core);
  }

  // ---- the first state ----

  lemma {:induction false} InstantiateEstablishes(m: InstantiateMsg, sender: Addr, now: nat)
    requires Instantiated(m, sender, now).Ok?
    ensures CoreOk(Instantiated(m, sender, now).value)
  {
    var c := Instantiated(m, sender, now).value;
    ManagedVerdictMeaning(m.validators, m.allowlist, m.limits.maxValidatorWeightBps);
    InitialSetOk(m.validators, m.allowlist, m.limits.maxValidatorWeightBps);
    assert SumSeq(c.windows, UnbondingOwed) == SumSeq([], UnbondingOwed) + UnbondingOwed(c.windows[0]) by {
      SumSnoc([], c.windows[0], UnbondingOwed);
      assert [] + [c.windows[0]] == c.windows;
    }
    assert SumSeq(c.windows, MaturedOutstanding) == 0 by {
      SumZero(c.windows, MaturedOutstanding);
    }
    forall i | 0 <= i < |c.vals| ensures SlotOk(c.vals[i], c.windows, m.params.maxUnbondEntries) {
      SumZero(c.windows, Uses(c.vals[i].address));
    }
    assert LedgerAt(c.claims, c.windows[0], 0);
    assert forall a, id :: IndexedOk(c.index, c.claims, a, id);
  }

  lemma {:induction false} InitialSetOk(ws: seq<ValidatorInit>, allowlist: seq<Addr>, maxBps: nat)
    requires ManagedWeights(ws, allowlist, maxBps)
    ensures SetOk(InitialSet(ws), allowlist, maxBps)
    ensures TotalBonded(InitialSet(ws)) == TotalRewards(InitialSet(ws)) == 0
  {
    var vs := InitialSet(ws);
    assert Addresses(vs) == InitAddresses(ws);
    SumSame(vs, ActiveWeight, ws, Weight);
    SumZero(vs, Bonded);
    SumZero(vs, Rewards);
  }
}
