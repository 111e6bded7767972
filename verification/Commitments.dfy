/** Which accepted calls are certain to commit: no message of theirs can be refused by the chain. */
module Commitments {
  import opened Prelude
  import opened Sums
  import opened Types
  import opened Math
  import opened Windows
  import opened Validators
  import opened Plans
  import opened Chain
  import opened Engine
  import opened Invariants
  import opened Roster
  import opened Closing
  import opened Maturing
  import opened Claims
  import opened Keeping
  import opened System
  import opened Reach
  import opened Limits

  /** A reachable state on a chain that returns entries less than a window length late. */
  ghost predicate Timely(s: Sys) {
    SysOk(s) && OnSchedule(s.core, s.chain)
  }

  lemma {:induction false} CountersHold(c: Core, q: Chain)
    requires CoreOk(c) && ChainOk(c, q) && OnSchedule(c, q)
    ensures WithinCounters(c.vals, q)
  {
    hide OnSchedule, ChainOk;
    forall i | 0 <= i < |c.vals| ensures LiveEntries(q, c.vals[i].address) <= c.vals[i].activeUnbondEntries + 1 {
      assert SlotOk(c.vals[i], c.windows, c.config.params.maxUnbondEntries);
      LiveWithinOneOfWindows(c, q, c.vals[i].address);
    }
  }

  /** Counters and queue alone decide whether the counters hold. */
  lemma {:induction false} CountersCarry(vs: seq<ValidatorEntry>, q: Chain, us: seq<ValidatorEntry>, r: Chain)
    requires WithinCounters(vs, q) && SameRoster(vs, us) && r.queue == q.queue
    ensures WithinCounters(us, r)
  {
    forall i | 0 <= i < |us| ensures LiveEntries(r, us[i].address) <= us[i].activeUnbondEntries + 1 {
      assert LiveEntries(q, vs[i].address) <= vs[i].activeUnbondEntries + 1;
    }
  }

  lemma {:induction false} RefreshSyncs(c: Core, q: Chain)
    requires Refreshed(c, q).Ok?
    ensures Synced(Refreshed(c, q).value.vals, q) && SameRoster(c.vals, Refreshed(c, q).value.vals)
  {
  }

  lemma {:induction false} DelegateBonds(q: Chain, v: Addr, n: nat)
    requires 0 < n <= q.balance
    ensures Exec(q, Delegate(v, n)).Some?
    ensures var r := Exec(q, Delegate(v, n)).value;
            && r.queue == q.queue && r.now == q.now
            && r.BondedAt(v) == q.BondedAt(v) + n
            && (forall a :: a != v ==> r.BondedAt(a) == q.BondedAt(a))
  {
  }

  lemma {:induction false} PlacedSyncs(r: Core, q: Chain, i: nat, n: nat, shares: nat, after: Chain)
    requires Synced(r.vals, q) && i < |r.vals| && Distinct(Addresses(r.vals))
    requires after.BondedAt(r.vals[i].address) == q.BondedAt(r.vals[i].address) + n
    requires forall a :: a != r.vals[i].address ==> after.BondedAt(a) == q.BondedAt(a)
    ensures Synced(Placed(r, i, n, shares).vals, after) && SameRoster(r.vals, Placed(r, i, n, shares).vals)
  {
    var us := Placed(r, i, n, shares).vals;
    forall k | 0 <= k < |us| ensures us[k].bonded == after.BondedAt(us[k].address) {
      assert Addresses(r.vals)[k] == Addresses(r.vals)[i] ==> k == i;
    }
  }

  lemma {:induction false} RunTwo(q: Chain, m: Msg, n: Msg)
    requires Exec(q, m).Some?
    ensures Run(q, [m, n]) == Exec(Exec(q, m).value, n)
  {
    var r := Exec(q, m).value;
    assert [m, n][1..] == [n] && [n][1..] == [];
    if Exec(r, n).Some? {
      assert Run(Exec(r, n).value, []) == Some(Exec(r, n).value);
    }
  }

  lemma {:induction false} RunOne(q: Chain, m: Msg)
    ensures Run(q, [m]) == Exec(q, m)
  {
    assert [m][1..] == [];
    if Exec(q, m).Some? {
      assert Run(Exec(q, m).value, []) == Some(Exec(q, m).value);
    }
  }

  /** An accepted deposit commits: the delegation is funded, and every undelegation that rides along
      is covered by the stake the chain holds when its turn comes. */
  lemma {:induction false} DepositCommits(s: Sys, sender: Addr, funds: seq<Coin>)
    requires Timely(s)
    requires Deposit(s.core, Credited(s.core, s.chain, DoDeposit(sender, funds)).value, sender, funds).Ok?
    ensures Commits(s, DoDeposit(sender, funds))
  {
    hide SharesForDeposit, ClosedIfOverdue, CoreOk, ChainOk, SweptOk, Deposit, OnSchedule, WithinCounters,
          Synced, SameRoster;
    var c, b := s.core, Credited(s.core, s.chain, DoDeposit(sender, funds)).value;
    var n, r, shares, i, d := DepositForm(c, b, sender, funds);
    var v := r.vals[i].address;
    CoinsExact(funds, c.config.bondedDenom);
    RefreshKeepsCore(c, b);
    RefreshSyncs(c, b);
    RunTwo(b, Mint(sender, shares), Delegate(v, n));
    var minted := Exec(b, Mint(sender, shares)).value;
    DelegateBonds(minted, v, n);
    var after := Exec(minted, Delegate(v, n)).value;
    PlacedKeepsCore(r, i, n, shares);
    DepositCarries(s, b, r, i, n, shares, after);
    CloseRuns(Placed(r, i, n, shares), after);
    RunConcat(b, [Mint(sender, shares), Delegate(v, n)], d.msgs);
  }

  lemma {:induction false} DepositCarries(s: Sys, b: Chain, r: Core, i: nat, n: nat, shares: nat, after: Chain)
    requires Timely(s) && CoreOk(r) && SameRoster(s.core.vals, r.vals) && Synced(r.vals, b) && i < |r.vals|
    requires b.queue == s.chain.queue && after.queue == b.queue
    requires after.BondedAt(r.vals[i].address) == b.BondedAt(r.vals[i].address) + n
    requires forall a :: a != r.vals[i].address ==> after.BondedAt(a) == b.BondedAt(a)
    ensures Synced(Placed(r, i, n, shares).vals, after) && WithinCounters(Placed(r, i, n, shares).vals, after)
  {
    hide ChainOk, OnSchedule, WithinCounters, Synced, SameRoster, SlotsOk, LedgerOk, IndexOk, ActiveOk,
          BucketsOk, StakeOk, WindowsOk;
    CountersHold(s.core, s.chain);
    PlacedSyncs(r, b, i, n, shares, after);
    CountersCarry(s.core.vals, s.chain, r.vals, b);
    CountersCarry(r.vals, b, Placed(r, i, n, shares).vals, after);
  }

  /** An accepted withdrawal request commits. */
  lemma {:induction false} UnbondCommits(s: Sys, from: Addr, n: nat)
    requires Timely(s) && Credited(s.core, s.chain, DoUnbond(from, n)).Some?
    requires Handle(s.core, Credited(s.core, s.chain, DoUnbond(from, n)).value, DoUnbond(from, n)).Ok?
    ensures Commits(s, DoUnbond(from, n))
  {
    hide AssetsForShares, ClosedIfOverdue, CoreOk, ChainOk, SweptOk, Unbond, OnSchedule, WithinCounters, Synced,
          SameRoster;
    var c, b := s.core, Credited(s.core, s.chain, DoUnbond(from, n)).value;
    var r, owed, d := UnbondForm(c, b, if c.config.token.Some? then c.config.token.value else from, from, n);
    RefreshKeepsCore(c, b);
    RefreshSyncs(c, b);
    PromisedKeepsCore(r, from, n, owed);
    var after := Exec(b, Burn(n)).value;
    CountersHold(c, s.chain);
    CountersCarry(c.vals, s.chain, r.vals, after);
    SyncedCarry(r.vals, b, after);
    CloseRuns(Promised(r, from, n, owed), after);
    assert [Burn(n)][1..] == [];
    RunConcat(b, [Burn(n)], d.msgs);
  }

  lemma {:induction false} SyncedCarry(vs: seq<ValidatorEntry>, q: Chain, r: Chain)
    requires Synced(vs, q) && r.delegations == q.delegations
    ensures Synced(vs, r)
  {
  }

  /** The transfer an accepted claim emits can always be made, whatever was slashed. */
  lemma {:induction false} ClaimCommits(s: Sys, who: Addr, ids: Option<seq<nat>>)
    requires SysOk(s) && ClaimMatured(s.core, s.chain, who, ids).Ok?
    ensures Commits(s, DoClaim(who, ids))
    ensures ClaimMatured(s.core, s.chain, who, ids).value.msgs == [Send(who, ClaimMatured(s.core, s.chain, who, ids).value.msgs[0].amount)]
  {
    hide CoreOk, ChainOk, SweptOk, Sound, ClaimMatured;
    ClaimReaches(s.core, s.chain, who, ids);
    var d := ClaimMatured(s.core, s.chain, who, ids).value;
    var m, wanted, r := ClaimForm(s.core, s.chain, who, ids);
    TwoMsgs(d.msgs[0], d.msgs[0], Paid);
    assert d.msgs == [Send(who, r.paid)];
    RunOne(s.chain, Send(who, r.paid));
  }

  /** An accepted compound commits: what it restakes is what its withdrawals bring in. */
  lemma {:induction false} CompoundCommits(s: Sys, limit: Option<nat>)
    requires SysOk(s) && Compound(s.core, s.chain, limit).Ok?
    ensures Commits(s, DoCompound(limit))
  {
    hide Restaked, Compound;
    CompoundMsgsRun(s.core, s.chain, limit);
  }

  lemma {:induction false} CompoundMsgsRun(c: Core, q: Chain, limit: Option<nat>)
    requires Distinct(Addresses(c.vals)) && Compound(c, q, limit).Ok?
    ensures Run(q, Compound(c, q, limit).value.msgs).Some?
  {
    hide Restaked, Compound;
    var end, harvested, r := CompoundForm(c, q, limit);
    var slice := c.vals[c.cursor..end];
    SliceDistinct(c.vals, c.cursor, end);
    RunWithdrawals(q, slice);
    RunConcat(q, WithdrawMsgs(slice, q), r.msgs);
    RestakeRuns(c, HarvestedSet(c.vals, q, c.cursor, end), q.balance, harvested, Run(q, WithdrawMsgs(slice, q)).value);
  }

  lemma {:induction false} RestakeRuns(c: Core, vs: seq<ValidatorEntry>, balance: nat, harvested: nat, q: Chain)
    requires Restaked(c, vs, balance, harvested).Ok? && harvested <= q.balance
    ensures Run(q, Restaked(c, vs, balance, harvested).value.msgs).Some?
  {
    if harvested == 0 {
      assert Restaked(c, vs, balance, harvested).value.msgs == [];
    } else {
      var i, fee := RestakeForm(c, vs, balance, harvested);
      DelegateBonds(q, vs[i].address, harvested);
      if fee == 0 {
        RunOne(q, Delegate(vs[i].address, harvested));
      } else {
        RunTwo(q, Delegate(vs[i].address, harvested), Mint(c.config.treasury, fee));
      }
    }
  }

  /** `AdvanceWindow` works from the cache: it commits exactly when no leg it planned exceeds what
      the chain still holds with that validator. */
  lemma {:induction false} AdvanceCommits(s: Sys)
    requires Timely(s) && AdvanceWindow(s.core, s.chain).Ok?
    ensures var c := s.core;
            var legs := Plan(c.vals, c.windows[c.openId].scrtOwed, c.config.params.maxUnbondEntries).value;
            Commits(s, DoAdvance) <==>
              forall k :: 0 <= k < |legs| ==> legs[k].index < |c.vals| && legs[k].amount <= s.chain.BondedAt(c.vals[legs[k].index].address)
  {
    hide ClosedOpen, ChainOk, SweptOk, OnSchedule, WithinCounters, SlotsOk, LedgerOk, IndexOk, ActiveOk,
          BucketsOk, StakeOk, IsPlan, LegMsgs, LegAddresses, Rolled;
    var c, q := s.core, s.chain;
    var legs, closed := ClosedForm(c, q.now);
    CountersHold(c, q);
    PlanRuns(q, c.vals, c.windows[c.openId].scrtOwed, c.config.params.maxUnbondEntries, legs, c.openId);
  }
}
