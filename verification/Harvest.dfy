/** Sweeps over the validator set: completeness, the performance fee, and why a sync beforehand does
    not change it. */
module Harvest {
  import opened Prelude
  import opened Sums
  import opened Types
  import opened Math
  import opened Windows
  import opened Validators
  import opened Plans
  import opened Chain
  import opened Engine
  import opened Invariants
  import opened Roster
  import opened Keeping
  import opened System
  import opened Reach
  import opened Limits
  import opened Commitments
  import opened Worth
  import opened Sharing

  // ---- the shared cursor ----

  /** Under any mix of sweeps and other calls the cursor stays inside the set, so the slice a sweep
      processes is well formed; every entry of the slice is left exactly as read on the chain at that
      call; and when the call reports completion, every validator now in the set was so read by some
      sweep since the cursor was last zero. */
  lemma {:induction false} SweepIsComplete(s: Sys, steps: seq<Step>, tx: Tx, end: nat)
    requires Fresh(s)
    requires var r := After(s, steps); Commits(r, tx) && SweepOf(r.core, tx) == Some(end)
    ensures var r := After(s, steps);
            var t := Transact(r, tx);
            && (r.core.cursor == 0 || r.core.cursor < |r.core.vals|)
            && r.core.cursor < end <= |r.core.vals| == |t.core.vals|
            && (forall i :: r.core.cursor <= i < end ==>
                  t.core.vals[i] == ReadOff(r.core.vals[i], r.chain, tx, Handled(r, tx).msgs))
            && (end < |r.core.vals| ==> t.core.cursor == end)
            && (end == |r.core.vals| ==>
                  t.core.cursor == 0 && forall i :: 0 <= i < |t.core.vals| ==> t.core.vals[i].address in t.swept)
  {
    hide Fresh, Commits, After, Run, Handle, ReadOff;
    var r := After(s, steps);
    ReachableOk(s, steps);
    SetIsBounded(r.core.vals, r.core.allowlist, r.core.config.limits.maxValidatorWeightBps);
    SweepLeaves(r, tx, end);
    SweepReads(r, tx, end);
    forall i | r.core.cursor <= i < end
      ensures Transact(r, tx).core.vals[i] == ReadOff(r.core.vals[i], r.chain, tx, Handled(r, tx).msgs)
    {
      SweepFinds(r, tx, end);
      assert IsRead(r, tx, i);
    }
    if end == |r.core.vals| {
      var t := Transact(r, tx);
      forall i | 0 <= i < |t.core.vals| ensures t.core.vals[i].address in t.swept {
        assert t.core.vals[i].address == Addresses(r.core.vals)[i];
        if i >= r.core.cursor {
          assert IsRead(r, tx, i);
        }
      }
    }
  }

  lemma {:induction false} SweepFinds(s: Sys, tx: Tx, end: nat)
    requires Commits(s, tx) && SweepOf(s.core, tx) == Some(end)
    ensures Attached(s, tx) == s.chain
  {
  }

  lemma {:induction false} SweepLeaves(s: Sys, tx: Tx, end: nat)
    requires CoreOk(s.core) && Commits(s, tx) && SweepOf(s.core, tx) == Some(end)
    ensures var t := Transact(s, tx);
            && Addresses(t.core.vals) == Addresses(s.core.vals) && |t.core.vals| == |s.core.vals|
            && t.core.cursor == NextCursor(s.core, end)
            && t.swept == SweptAfter(s, tx)
  {
    hide Compound, CoreOk;
    match tx {
      case DoSync(limit) => SyncKeeps(s.core, s.chain, limit);
      case DoCompound(limit) =>
        CompoundKeeps(s.core, s.chain, limit);
        var e, harvested, r := CompoundForm(s.core, s.chain, limit);
      case _ =>
    }
    assert |Addresses(Transact(s, tx).core.vals)| == |Transact(s, tx).core.vals|;
  }

  /** What a complete sync reports is what the chain holds. */
  lemma {:induction false} SyncReads(c: Core, q: Chain, limit: nat)
    requires c.cursor == 0 && |c.vals| <= limit && Sync(c, q, Some(limit)).Ok?
    ensures var d := Sync(c, q, Some(limit)).value.core;
            && d.totals.totalBonded == SumSeq(c.vals, BondedOn(q))
            && d.totals.pendingRewards == SumSeq(c.vals, RewardsOn(q))
            && d.totals.totalSupply == SupplyOr(c, q) && d.totals.lastSyncTime == q.now
  {
    var d := Sync(c, q, Some(limit)).value.core;
    SumSame(d.vals, Bonded, c.vals, BondedOn(q));
    SumSame(d.vals, Rewards, c.vals, RewardsOn(q));
  }

  /** A sync caches the token's supply when it completes a sweep, and leaves it alone until then. */
  lemma {:induction false} SyncTakesSupply(c: Core, q: Chain, limit: Option<nat>)
    requires Sync(c, q, limit).Ok?
    ensures var d, room := Sync(c, q, limit).value.core, if limit.None? then 5 else Max(limit.value, 1);
            && d.totals.totalSupply == (if c.cursor + room >= |c.vals| && c.config.token.Some? then q.supply else c.totals.totalSupply)
            && d.cursor == (if c.cursor + room >= |c.vals| then 0 else c.cursor + room)
            && d.totals.lastSyncTime == (if c.cursor + room >= |c.vals| then q.now else c.totals.lastSyncTime)
  {
  }

  /** A compound moves the same cursor, and like a sync claims freshness only for a completed sweep. */
  lemma {:induction false} CompoundMovesCursor(c: Core, q: Chain, limit: Option<nat>)
    requires Compound(c, q, limit).Ok?
    ensures var d, room := Compound(c, q, limit).value.core, if limit.None? then 3 else Max(limit.value, 1);
            && d.cursor == (if c.cursor + room >= |c.vals| then 0 else c.cursor + room)
            && d.totals.lastSyncTime == (if c.cursor + room >= |c.vals| then q.now else c.totals.lastSyncTime)
  {
    hide Restaked;
  }

  // ---- the fee does not depend on who pressed what first ----

  /** The whole set, from the start. */
  ghost predicate FullSweep(c: Core, limit: nat) {
    c.cursor == 0 && 0 < |c.vals| <= limit
  }

  /** Every validator the cache gives stake to still has a delegation. */
  ghost predicate NoneVanished(vs: seq<ValidatorEntry>, q: Chain) {
    forall i :: 0 <= i < |vs| && vs[i].address !in q.delegations ==> vs[i].bonded == 0
  }

  ghost function AfterSync(c: Core, q: Chain, limit: nat): Core
    requires FullSweep(c, limit)
  {
    Sync(c, q, Some(limit)).value.core
  }

  lemma {:induction false} AfterSyncIs(c: Core, q: Chain, limit: nat)
    requires FullSweep(c, limit)
    ensures var d := AfterSync(c, q, limit);
            && FullSweep(d, limit)
            && d.vals == Reread(c.vals, q, 0, |c.vals|)
            && d == c.(vals := d.vals, totals := d.totals)
            && d.totals == c.totals.(totalBonded := d.totals.totalBonded, pendingRewards := d.totals.pendingRewards,
                                     totalSupply := SupplyOr(c, q), lastSyncTime := q.now)
  {
  }

  lemma {:induction false} HarvestedAgree(vs: seq<ValidatorEntry>, q: Chain)
    ensures var a, b := HarvestedSet(vs, q, 0, |vs|), HarvestedSet(Reread(vs, q, 0, |vs|), q, 0, |vs|);
            && |a| == |b| == |vs|
            && (forall i :: 0 <= i < |vs| ==> b[i] == a[i].(bonded := b[i].bonded) && b[i].bonded <= a[i].bonded)
            && (forall i :: 0 <= i < |vs| ==> (b[i].bonded == a[i].bonded <==> vs[i].address in q.delegations || vs[i].bonded == 0))
            && (NoneVanished(vs, q) ==> a == b)
  {
  }

  /** One strictly larger summand. */
  lemma {:induction false} SumStrict<T>(s: seq<T>, t: seq<T>, f: T -> nat, at: nat)
    requires |s| == |t| && at < |s|
    requires forall i :: 0 <= i < |s| ==> f(s[i]) <= f(t[i])
    requires f(s[at]) < f(t[at])
    ensures SumSeq(s, f) < SumSeq(t, f)
  {
    var last := |s| - 1;
    if at == last {
      SumLe(s[..last], f, t[..last], f);
    } else {
      SumStrict(s[..last], t[..last], f, at);
    }
  }

  /** A vanished delegation is counted by a bare compound and not by one after a sync. */
  lemma {:induction false} VanishedShows(vs: seq<ValidatorEntry>, q: Chain)
    requires !NoneVanished(vs, q)
    ensures TotalBonded(HarvestedSet(Reread(vs, q, 0, |vs|), q, 0, |vs|)) < TotalBonded(HarvestedSet(vs, q, 0, |vs|))
  {
    HarvestedAgree(vs, q);
    var i :| 0 <= i < |vs| && vs[i].address !in q.delegations && vs[i].bonded != 0;
    SumStrict(HarvestedSet(Reread(vs, q, 0, |vs|), q, 0, |vs|), HarvestedSet(vs, q, 0, |vs|), Bonded, i);
  }

  lemma {:induction false} RestakeStake(c: Core, vs: seq<ValidatorEntry>, balance: nat, harvested: nat)
    requires Restaked(c, vs, balance, harvested).Ok?
    ensures TotalBonded(Restaked(c, vs, balance, harvested).value.vals) == TotalBonded(vs) + harvested
  {
    if harvested != 0 {
      var i, fee := RestakeForm(c, vs, balance, harvested);
      SumUpdate(vs, i, vs[i].(bonded := vs[i].bonded + harvested), Bonded);
    }
  }

  /** More shares in circulation never mean a smaller fee mint. */
  lemma {:induction false} FeeGrows(rewards: nat, bps: nat, p: PoolTotals, s: nat, t: nat)
    requires s <= t
    requires FeeSharesForRewards(rewards, bps, p.(supply := s)).Ok? && FeeSharesForRewards(rewards, bps, p.(supply := t)).Ok?
    ensures FeeSharesForRewards(rewards, bps, p.(supply := s)).value <= FeeSharesForRewards(rewards, bps, p.(supply := t)).value
  {
    if FeeSharesForRewards(rewards, bps, p.(supply := s)).value > 0 {
      var fee, a := MulDiv(rewards, bps, BPS_DENOM), p.Assets().value;
      var d := a + rewards - fee;
      assert FeeSharesForRewards(rewards, bps, p.(supply := s)).value == MulDiv(fee, s, d);
      assert FeeSharesForRewards(rewards, bps, p.(supply := t)).value == MulDiv(fee, t, d);
      MulDivBounds(fee, s, d);
      MulMono(s, t, fee);
      MulDivLargest(fee, t, d, MulDiv(fee, s, d));
    }
  }

  /** The part of a restake that depends on the cached supply: only the fee, and it grows with it. */
  lemma {:induction false} RestakeFee(c: Core, d: Core, vs: seq<ValidatorEntry>, balance: nat, harvested: nat)
    requires Restaked(c, vs, balance, harvested).Ok? && Restaked(d, vs, balance, harvested).Ok?
    requires d.config == c.config && d.totals.OwedBacked() == c.totals.OwedBacked()
    requires c.totals.totalSupply + Restaked(c, vs, balance, harvested).value.fee
          == d.totals.totalSupply + Restaked(d, vs, balance, harvested).value.fee
    ensures c.totals.totalSupply == d.totals.totalSupply
  {
    if harvested != 0 {
      var s, t := c.totals.totalSupply, d.totals.totalSupply;
      var pool := PoolTotals(TotalBonded(vs), TotalRewards(vs), balance, c.totals.OwedBacked(), s);
      assert pool.(supply := s) == pool;
      if s <= t {
        FeeGrows(harvested, c.config.params.performanceFeeBps, pool, s, t);
      } else {
        FeeGrows(harvested, c.config.params.performanceFeeBps, pool, t, s);
      }
    }
  }

  /** The whole-set compound, spelled out. */
  lemma {:induction false} FullCompound(c: Core, q: Chain, limit: nat) returns (r: Restake)
    requires FullSweep(c, limit) && Compound(c, q, Some(limit)).Ok?
    ensures Restaked(c, HarvestedSet(c.vals, q, 0, |c.vals|), q.balance, SumSeq(c.vals, RewardsOn(q))) == Ok(r)
    ensures Compound(c, q, Some(limit)).value
            == Done(c.(vals := r.vals, cursor := 0,
                       totals := c.totals.(totalBonded := TotalBonded(r.vals), pendingRewards := TotalRewards(r.vals),
                                           totalSupply := c.totals.totalSupply + r.fee, lastSyncTime := q.now)),
                    WithdrawMsgs(c.vals, q) + r.msgs)
  {
    assert c.vals[0..|c.vals|] == c.vals;
    r := Restaked(c, HarvestedSet(c.vals, q, 0, |c.vals|), q.balance, SumSeq(c.vals, RewardsOn(q))).value;
  }

  lemma {:induction false} SameHarvest(vs: seq<ValidatorEntry>, q: Chain)
    ensures SumSeq(Reread(vs, q, 0, |vs|), RewardsOn(q)) == SumSeq(vs, RewardsOn(q))
    ensures WithdrawMsgs(Reread(vs, q, 0, |vs|), q) == WithdrawMsgs(vs, q)
  {
    SumSame(Reread(vs, q, 0, |vs|), RewardsOn(q), vs, RewardsOn(q));
    WithdrawByAddress(vs, Reread(vs, q, 0, |vs|), q);
  }

  lemma {:induction false} WithdrawByAddress(vs: seq<ValidatorEntry>, us: seq<ValidatorEntry>, q: Chain)
    requires |us| == |vs| && forall i :: 0 <= i < |vs| ==> us[i].address == vs[i].address
    ensures WithdrawMsgs(us, q) == WithdrawMsgs(vs, q)
  {
    if vs != [] {
      WithdrawByAddress(vs[..|vs| - 1], us[..|us| - 1], q);
    }
  }

  /** A whole-set compound from cursor zero leaves the same storage, fee and messages whether or not
      a whole-set sync ran just before, exactly when the cached supply was the token's and no cached
      stake sat on a vanished delegation. */
  lemma {:induction false} FeeOrderIndependence(c: Core, q: Chain, limit: nat)
    requires FullSweep(c, limit)
    requires Compound(c, q, Some(limit)).Ok? && Compound(AfterSync(c, q, limit), q, Some(limit)).Ok?
    ensures Compound(AfterSync(c, q, limit), q, Some(limit)) == Compound(c, q, Some(limit)) <==>
            c.totals.totalSupply == SupplyOr(c, q) && NoneVanished(c.vals, q)
  {
    hide Compound, Restaked, Sync, NoneVanished;
    var d, n := AfterSync(c, q, limit), |c.vals|;
    AfterSyncIs(c, q, limit);
    var r := FullCompound(c, q, limit);
    var t := FullCompound(d, q, limit);
    SameHarvest(c.vals, q);
    HarvestedAgree(c.vals, q);
    var h := SumSeq(c.vals, RewardsOn(q));
    RestakeStake(c, HarvestedSet(c.vals, q, 0, n), q.balance, h);
    RestakeStake(d, HarvestedSet(d.vals, q, 0, n), q.balance, h);
    if !NoneVanished(c.vals, q) {
      VanishedShows(c.vals, q);
    } else if c.totals.totalSupply + r.fee == d.totals.totalSupply + t.fee {
      RestakeFee(c, d, HarvestedSet(c.vals, q, 0, n), q.balance, h);
      SameRestake(c, d, HarvestedSet(c.vals, q, 0, n), q.balance, h);
    } else {
      if c.totals.totalSupply == d.totals.totalSupply {
        SameRestake(c, d, HarvestedSet(c.vals, q, 0, n), q.balance, h);
      }
    }
  }

  lemma {:induction false} SameRestake(c: Core, d: Core, vs: seq<ValidatorEntry>, balance: nat, harvested: nat)
    requires d.config == c.config && d.totals.OwedBacked() == c.totals.OwedBacked() && d.totals.totalSupply == c.totals.totalSupply
    ensures Restaked(d, vs, balance, harvested) == Restaked(c, vs, balance, harvested)
  {
  }

  // ---- compounding and what shares are worth ----

  lemma {:induction false} WithdrawalsAimed(c: Core, vs: seq<ValidatorEntry>, q: Chain)
    requires forall i :: 0 <= i < |vs| ==> vs[i].address in Addresses(c.vals)
    ensures Aimed(c, WithdrawMsgs(vs, q), 0, 0, 0)
  {
    if vs != [] {
      var init, v := vs[..|vs| - 1], vs[|vs| - 1].address;
      WithdrawalsAimed(c, init, q);
      var tail := if q.RewardsAt(v) == 0 then [] else [WithdrawReward(v)];
      TwoMsgs(WithdrawReward(v), WithdrawReward(v), Sent);
      TwoMsgs(WithdrawReward(v), WithdrawReward(v), Minted);
      TwoMsgs(WithdrawReward(v), WithdrawReward(v), Burned);
      AimedConcat(c, WithdrawMsgs(init, q), tail, 0, 0, 0, 0, 0, 0);
    }
  }

  lemma {:induction false} RestakeAimed(c: Core, vs: seq<ValidatorEntry>, balance: nat, harvested: nat)
    requires Restaked(c, vs, balance, harvested).Ok? && Addresses(vs) == Addresses(c.vals)
    ensures var r := Restaked(c, vs, balance, harvested).value; Aimed(c, r.msgs, 0, r.fee, 0)
  {
    hide Restaked;
    if harvested == 0 {
      RestakesNothing(c, vs, balance);
    } else {
      var i, fee := RestakeForm(c, vs, balance, harvested);
      var m, n := Delegate(vs[i].address, harvested), Mint(c.config.treasury, fee);
      assert m.validator == Addresses(vs)[i];
      TwoMsgs(m, n, Sent);
      TwoMsgs(m, n, Minted);
      TwoMsgs(m, n, Burned);
    }
  }

  /** Compounding moves rewards into stake and mints the fee; net worth itself does not change. */
  lemma {:induction false} CompoundValue(s: Sys, limit: Option<nat>) returns (end: nat, harvested: nat, r: Restake)
    requires SysOk(s) && Commits(s, DoCompound(limit))
    ensures var t := Transact(s, DoCompound(limit));
            && Value(t) == Value(s)
            && t.chain.supply == s.chain.supply + r.fee
            && t.core.totals.totalSupply == s.core.totals.totalSupply + r.fee
    ensures s.core.cursor <= end == SweepEnd(s.core, if limit.Some? then limit.value else DEFAULT_COMPOUND_LIMIT) <= |s.core.vals|
    ensures harvested == SumSeq(s.core.vals[s.core.cursor..end], RewardsOn(s.chain))
    ensures Restaked(s.core, HarvestedSet(s.core.vals, s.chain, s.core.cursor, end), s.chain.balance, harvested) == Ok(r)
  {
    hide CoreOk, ChainOk, SweptOk, Compound, Restaked, Aimed, SweptAfter, Holdings, WithdrawMsgs, RewardsOn;
    end, harvested, r := CompoundAimed(s.core, s.chain, limit);
    CompoundKeeps(s.core, s.chain, limit);
    SetDistinct(s.core);
    ValueAfter(s, DoCompound(limit), 0, r.fee, 0);
    CompoundOwes(s.core, s.chain, limit);
  }

  lemma {:induction false} CompoundAimed(c: Core, q: Chain, limit: Option<nat>)
        returns (end: nat, harvested: nat, r: Restake)
    requires Compound(c, q, limit).Ok?
    ensures Aimed(c, Compound(c, q, limit).value.msgs, 0, r.fee, 0)
    ensures Compound(c, q, limit).value.core.totals.totalSupply == c.totals.totalSupply + r.fee
    ensures c.cursor <= end == SweepEnd(c, if limit.Some? then limit.value else DEFAULT_COMPOUND_LIMIT) <= |c.vals|
    ensures harvested == SumSeq(c.vals[c.cursor..end], RewardsOn(q))
    ensures Restaked(c, HarvestedSet(c.vals, q, c.cursor, end), q.balance, harvested) == Ok(r)
  {
    hide Compound, Restaked, Aimed, WithdrawMsgs, RewardsOn;
    end, harvested, r := CompoundForm(c, q, limit);
    var slice, vs := c.vals[c.cursor..end], HarvestedSet(c.vals, q, c.cursor, end);
    forall i | 0 <= i < |slice| ensures slice[i].address in Addresses(c.vals) {
      assert slice[i].address == Addresses(c.vals)[c.cursor + i];
    }
    WithdrawalsAimed(c, slice, q);
    assert Addresses(vs) == Addresses(c.vals);
    RestakeAimed(c, vs, q.balance, harvested);
    AimedConcat(c, WithdrawMsgs(slice, q), r.msgs, 0, 0, 0, 0, r.fee, 0);
  }

  lemma {:induction false} CompoundOwes(c: Core, q: Chain, limit: Option<nat>)
    requires Compound(c, q, limit).Ok?
    ensures Compound(c, q, limit).value.core.totals.OwedTotal() == c.totals.OwedTotal()
  {
  }

  function Held(v: ValidatorEntry): nat { v.bonded + v.pendingRewards }

  /** No validator the sweep skips is cached below what the chain holds for it. */
  ghost predicate NotBehind(vs: seq<ValidatorEntry>, q: Chain, lo: nat, hi: nat) {
    forall i :: 0 <= i < |vs| && !(lo <= i < hi) ==> StakeAt(q)(vs[i]) <= Held(vs[i])
  }

  /** What a sweep of `[lo, hi)` prices its fee on, with what it harvests, covers stake and rewards. */
  lemma {:induction false} HarvestedStake(vs: seq<ValidatorEntry>, q: Chain, lo: nat, hi: nat)
    requires lo <= hi <= |vs| && NotBehind(vs, q, lo, hi)
    ensures var us := HarvestedSet(vs, q, lo, hi);
            SumSeq(vs, StakeAt(q)) <= TotalBonded(us) + TotalRewards(us) + SumSeq(vs[lo..hi], RewardsOn(q))
  {
    var us := HarvestedSet(vs, q, lo, hi);
    ThreeParts(vs, StakeAt(q), lo, hi);
    ThreeParts(us, Held, lo, hi);
    SumSplit(us, Held, Bonded, Rewards);
    SumLe(vs[..lo], StakeAt(q), us[..lo], Held);
    SumLe(vs[hi..], StakeAt(q), us[hi..], Held);
    SumSplit(vs[lo..hi], StakeAt(q), BondedOn(q), RewardsOn(q));
    SumLe(vs[lo..hi], BondedOn(q), us[lo..hi], Held);
  }

  lemma {:induction false} ThreeParts(vs: seq<ValidatorEntry>, f: ValidatorEntry -> nat, lo: nat, hi: nat)
    requires lo <= hi <= |vs|
    ensures SumSeq(vs, f) == SumSeq(vs[..lo], f) + SumSeq(vs[lo..hi], f) + SumSeq(vs[hi..], f)
  {
    assert vs == (vs[..lo] + vs[lo..hi]) + vs[hi..];
    SumConcat(vs[..lo] + vs[lo..hi], vs[hi..], f);
    SumConcat(vs[..lo], vs[lo..hi], f);
  }

  /** The pool a compound of `[cursor, end)` prices its fee on. */
  function FeePool(c: Core, q: Chain, end: nat): PoolTotals {
    var us := HarvestedSet(c.vals, q, c.cursor, end);
    PoolTotals(TotalBonded(us), TotalRewards(us), q.balance, c.totals.OwedBacked(), c.totals.totalSupply)
  }

  /** Its net assets are at least net worth without the harvest, plus the pricing gap. */
  lemma {:induction false} FeePoolCovers(s: Sys, end: nat)
    requires SysOk(s) && s.core.cursor <= end <= |s.core.vals| && NotBehind(s.core.vals, s.chain, s.core.cursor, end)
    ensures Net(FeePool(s.core, s.chain, end))
            >= Value(s) - SumSeq(s.core.vals[s.core.cursor..end], RewardsOn(s.chain)) + Gap(s)
  {
    hide SlotsOk, LedgerOk, IndexOk, ActiveOk, SetOk, QueueOk, Mispricing, NotBehind;
    var c, q := s.core, s.chain;
    assert WindowOk(c.windows, c.openId, c.config.params.unbondWindowSecs, c.config.params.unbondingPeriodSecs);
    UnbondingBucket(q.queue, c.windows, q.unbondTime);
    EntryAccounts(q.queue, c.windows, q.unbondTime);
    HarvestedStake(c.vals, q, c.cursor, end);
  }

  /** After a compound, from any cursor and under any limit, holders are no worse off than if the
      harvested rewards had not existed, and the treasury's shares are worth at most the fee: whenever
      the fee was priced on at least net worth without the harvest, at no more than the true supply. */
  lemma {:induction false} CompoundSparesWhenPriced(s: Sys, limit: Option<nat>, end: nat, h: nat)
    requires SysOk(s) && Commits(s, DoCompound(limit))
    requires end == SweepEnd(s.core, if limit.Some? then limit.value else DEFAULT_COMPOUND_LIMIT)
    requires s.core.cursor <= end && h == SumSeq(s.core.vals[s.core.cursor..end], RewardsOn(s.chain))
    requires s.core.totals.totalSupply <= s.chain.supply
    requires Net(FeePool(s.core, s.chain, end)) >= Value(s) - h
    ensures var t := Transact(s, DoCompound(limit));
            var fee := MulDiv(h, s.core.config.params.performanceFeeBps, BPS_DENOM);
            && Value(t) * s.chain.supply >= (Value(s) - h) * t.chain.supply
            && (t.chain.supply - s.chain.supply) * Value(t) <= fee * t.chain.supply
  {
    hide CoreOk, ChainOk, SweptOk, Commits, Compound, Restaked, NetWorth, Mispricing, Transact, FeeSharesForRewards, RewardsOn,
         TotalBonded, TotalRewards, HarvestedSet;
    var c, q := s.core, s.chain;
    var e, harvested, r := CompoundValue(s, limit);
    var t := Transact(s, DoCompound(limit));
    var vs, pool := HarvestedSet(c.vals, q, c.cursor, end), FeePool(c, q, end);
    if h == 0 || r.fee == 0 {
      NoFee(c, vs, q.balance, h, r);
      HoldersArithmetic(Value(s), h, q.supply, r.fee, 0);
      MulMono(0, MulDiv(h, c.config.params.performanceFeeBps, BPS_DENOM), t.chain.supply);
    } else {
      FeePriced(c, vs, q.balance, h, r, pool);
      FeeBound(c);
      FeeAtMost(h, c.config.params.performanceFeeBps, pool, r.fee, Value(s), q.supply);
    }
  }

  /** A fee priced on assets and supply on the right side of the truth, `v` and `supply`. */
  lemma {:induction false} FeeAtMost(h: nat, bps: nat, pool: PoolTotals, m: nat, v: int, supply: nat)
    requires bps <= BPS_DENOM && FeeSharesForRewards(h, bps, pool) == Ok(m) && m > 0 && pool.Assets().Ok?
    requires pool.supply <= supply && Net(pool) >= v - h
    ensures v * supply >= (v - h) * (supply + m)
    ensures m * v <= MulDiv(h, bps, BPS_DENOM) * (supply + m)
  {
    hide MulDiv;
    var a, f := pool.Assets().value, MulDiv(h, bps, BPS_DENOM);
    FeeNeedsSupply(h, bps, pool, m);
    FeeAccuracy(h, bps, pool, a, m);
    HoldersKeep(a, h, pool.supply, m);
    MulMono(pool.supply, supply, h);
    HoldersArithmetic(v, h, supply, m, a);
    MulMono(v, a + h, m);
    MulMono(pool.supply + m, supply + m, f);
    assert m * v == v * m && m * (a + h) == (a + h) * m;
    assert f * (pool.supply + m) == (pool.supply + m) * f && f * (supply + m) == (supply + m) * f;
    assert h * pool.supply == pool.supply * h && h * supply == supply * h;
  }

  lemma {:induction false} FeeNeedsSupply(h: nat, bps: nat, pool: PoolTotals, m: nat)
    requires FeeSharesForRewards(h, bps, pool) == Ok(m) && m > 0
    ensures pool.supply > 0
  {
  }

  /** In particular when no skipped validator is cached below the chain and no priced debt is missing:
      vanished delegations, partial sweeps and the default limit included. */
  lemma {:induction false} CompoundSparesHolders(s: Sys, limit: Option<nat>, end: nat, h: nat)
    requires SysOk(s) && Commits(s, DoCompound(limit))
    requires end == SweepEnd(s.core, if limit.Some? then limit.value else DEFAULT_COMPOUND_LIMIT)
    requires s.core.cursor <= end && h == SumSeq(s.core.vals[s.core.cursor..end], RewardsOn(s.chain))
    requires NotBehind(s.core.vals, s.chain, s.core.cursor, end)
    requires s.core.totals.totalSupply <= s.chain.supply && Gap(s) >= 0
    ensures var t := Transact(s, DoCompound(limit));
            var fee := MulDiv(h, s.core.config.params.performanceFeeBps, BPS_DENOM);
            && Value(t) * s.chain.supply >= (Value(s) - h) * t.chain.supply
            && (t.chain.supply - s.chain.supply) * Value(t) <= fee * t.chain.supply
  {
    hide SysOk, Commits, Transact, NetWorth, Mispricing, FeePool, NotBehind;
    FeePoolCovers(s, end);
    CompoundSparesWhenPriced(s, limit, end, h);
  }

  lemma {:induction false} FeeBound(c: Core)
    requires CoreOk(c)
    ensures c.config.params.performanceFeeBps <= BPS_DENOM
  {
  }

  lemma {:induction false} NoFee(c: Core, vs: seq<ValidatorEntry>, balance: nat, h: nat, r: Restake)
    requires Restaked(c, vs, balance, h) == Ok(r) && (h == 0 || r.fee == 0)
    ensures r.fee == 0
  {
  }

  lemma {:induction false} FeePriced(c: Core, vs: seq<ValidatorEntry>, balance: nat, h: nat, r: Restake,
        pool: PoolTotals)
    requires Restaked(c, vs, balance, h) == Ok(r) && h != 0 && r.fee != 0
    requires pool == PoolTotals(TotalBonded(vs), TotalRewards(vs), balance, c.totals.OwedBacked(), c.totals.totalSupply)
    ensures FeeSharesForRewards(h, c.config.params.performanceFeeBps, pool) == Ok(r.fee) && pool.Assets().Ok?
  {
  }

  /** `v - h` per share before, `v` per share after, when `a` is at least `v - h`. */
  lemma {:induction false} HoldersArithmetic(v: int, h: nat, s: nat, m: nat, a: nat)
    requires m == 0 || (v - h <= a && a * m <= h * s)
    ensures v * s >= (v - h) * (s + m)
  {
    assert (v - h) * (s + m) == (v - h) * s + (v - h) * m;
    assert v * s == (v - h) * s + h * s;
    if m > 0 {
      MulMono(v - h, a, m);
    }
  }
}
