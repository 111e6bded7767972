/** When a compound goes through, and the fee it takes: never more than the share rate gives the
    treasury, and never less. */
module Charging {
  import opened Prelude
  import opened Sums
  import opened Types
  import opened Math
  import opened Validators
  import opened Chain
  import opened Engine
  import opened Invariants
  import opened Keeping
  import opened System
  import opened Reach
  import opened Commitments
  import opened Worth
  import opened Sharing
  import opened Harvest
  import opened Weighting

  /** Stake as a sweep that passes `v` takes it: re-read, unless the delegation is gone. */
  function KeptOr(q: Chain): ValidatorEntry -> nat {
    (v: ValidatorEntry) => if v.address in q.delegations then q.delegations[v.address].bonded else v.bonded
  }

  /** Where the sweep of a compound ends. */
  function SliceEnd(c: Core, limit: Option<nat>): nat {
    var room := if limit.None? then 3 else Max(limit.value, 1);
    Min(c.cursor + room, |c.vals|)
  }

  /** The rewards a compound withdraws. */
  function HarvestOf(c: Core, q: Chain, end: nat): nat
    requires c.cursor <= end <= |c.vals|
  {
    SumSeq(c.vals[c.cursor..end], RewardsOn(q))
  }

  /** Stake the fee is priced on, before the harvest: the slice as re-read, the rest as cached. */
  function StakeBefore(c: Core, q: Chain, end: nat): nat
    requires c.cursor <= end <= |c.vals|
  {
    SumSeq(c.vals[..c.cursor], Bonded) + SumSeq(c.vals[c.cursor..end], KeptOr(q)) + SumSeq(c.vals[end..], Bonded)
  }

  /** With that, the rewards cached for the rest, and the balance. */
  function GrossBefore(c: Core, q: Chain, end: nat): nat
    requires c.cursor <= end <= |c.vals|
  {
    StakeBefore(c, q, end) + SumSeq(c.vals[..c.cursor], Rewards) + SumSeq(c.vals[end..], Rewards) + q.balance
  }

  /** Assets the fee is priced on: gross, less the debts stake and balance still back. */
  function AssetsBefore(c: Core, q: Chain, end: nat): nat
    requires c.cursor <= end <= |c.vals|
  {
    SatSub(GrossBefore(c, q, end), c.totals.scrtOwedOpen + c.totals.scrtOwedMatured)
  }

  function FeeOf(c: Core, h: nat): nat { h * c.config.params.performanceFeeBps / 10_000 }

  lemma {:induction false} HarvestedTotals(c: Core, q: Chain, end: nat)
    requires c.cursor <= end <= |c.vals|
    ensures var us := HarvestedSet(c.vals, q, c.cursor, end);
            && TotalBonded(us) == StakeBefore(c, q, end)
            && TotalBonded(us) + TotalRewards(us) + q.balance == GrossBefore(c, q, end)
  {
    var lo, vs := c.cursor, c.vals;
    var us := HarvestedSet(vs, q, lo, end);
    ThreeParts(us, Bonded, lo, end);
    ThreeParts(us, Rewards, lo, end);
    assert us[..lo] == vs[..lo] && us[end..] == vs[end..];
    SumSame(us[lo..end], Bonded, vs[lo..end], KeptOr(q));
    SumZero(us[lo..end], Rewards);
  }

  lemma {:induction false} FeePoolIs(c: Core, q: Chain, end: nat)
    requires c.cursor <= end <= |c.vals|
    ensures var p := FeePool(c, q, end);
            && p.Gross() == GrossBefore(c, q, end) && p.supply == c.totals.totalSupply
            && AssetsBefore(c, q, end) == SatSub(p.Gross(), p.owedBacked)
            && (p.Assets().Ok? <==> GrossBefore(c, q, end) <= U128_MAX)
            && (p.Assets().Ok? ==> p.Assets().value == AssetsBefore(c, q, end))
  {
    HarvestedTotals(c, q, end);
  }

  /** The fee on rewards `h`, in shares: accepted exactly when its figures fit, and then at the rate of
      the pool with the rewards in and the fee out. */
  lemma {:induction false} FeeIs(h: nat, bps: nat, p: PoolTotals, a: nat)
    requires 0 < h <= U128_MAX && bps <= 2_000 && a == SatSub(p.Gross(), p.owedBacked)
    ensures var f, r := h * bps / 10_000, FeeSharesForRewards(h, bps, p);
            && f < h
            && (f == 0 || p.supply == 0 ==> r == Ok(0))
            && (f > 0 && p.supply > 0 ==>
                  && (r.Ok? <==> p.Gross() <= U128_MAX && a + h <= U128_MAX && MulDiv(f, p.supply, a + h - f) <= U128_MAX)
                  && (r.Ok? ==> r.value == MulDiv(f, p.supply, a + h - f)))
  {
    FeeBelow(h, bps);
  }

  lemma {:induction false} FeeBelow(h: nat, bps: nat)
    requires h > 0 && bps <= 2_000
    ensures MulDiv(h, bps, 10_000) < h && MulDiv(h, bps, 10_000) == h * bps / 10_000
  {
    MulDivBounds(h, bps, 10_000);
    MulMono(bps, 2_000, h);
    assert bps * h == h * bps;
    MulCancel(MulDiv(h, bps, 10_000), h, 10_000);
  }

  lemma {:induction false} BpsBound(c: Core)
    requires CoreOk(c)
    ensures c.config.params.performanceFeeBps <= 2_000
  {
  }

  /** With fee `f` on the harvest `h`, and assets and supply as before it: `m` is the most shares whose
      worth, at the rate of assets `a + h - f` for that supply, is within the fee; none if there is no fee. */
  ghost predicate Charges(c: Core, q: Chain, end: nat, m: nat)
    requires c.cursor <= end <= |c.vals|
  {
    var h := HarvestOf(c, q, end);
    var f, supply := FeeOf(c, h), c.totals.totalSupply;
    && f <= h
    && (if f > 0 && supply > 0 then f < h && IsQuotient(m, f, supply, AssetsBefore(c, q, end) + h - f) else m == 0)
  }

  lemma {:induction false} ChargesNothing(c: Core, q: Chain, end: nat)
    requires c.cursor <= end <= |c.vals| && HarvestOf(c, q, end) == 0
    ensures Charges(c, q, end, 0)
  {
  }

  lemma {:induction false} CompoundMsgs(c: Core, q: Chain, limit: Option<nat>) returns (end: nat, i: nat, m: nat)
    requires CoreOk(c) && Compound(c, q, limit).Ok?
    ensures c.cursor <= end == SliceEnd(c, limit) <= |c.vals| && Charges(c, q, end, m)
    ensures var h := HarvestOf(c, q, end);
            && (h > 0 ==> i < |c.vals| && GoesTo(HarvestedSet(c.vals, q, c.cursor, end), Bonded, h, i))
            && Compound(c, q, limit).value.msgs
               == WithdrawMsgs(c.vals[c.cursor..end], q)
                  + (if h == 0 then [] else [Delegate(c.vals[i].address, h)])
                  + (if m == 0 then [] else [Mint(c.config.treasury, m)])
    ensures Compound(c, q, limit).value.core.totals.totalSupply == c.totals.totalSupply + m
  {
    hide CoreOk, Compound, Restaked, FeeSharesForRewards, WithdrawMsgs, RewardsOn, FeePool, IsQuotient, Charges, GoesTo;
    var h, r;
    end, h, r := CompoundForm(c, q, limit);
    var vs, ws := HarvestedSet(c.vals, q, c.cursor, end), WithdrawMsgs(c.vals[c.cursor..end], q);
    BpsBound(c);
    if h == 0 {
      i, m := 0, 0;
      RestakesNothing(c, vs, q.balance);
      ChargesNothing(c, q, end);
      assert ws + [] + [] == ws;
    } else {
      i, m := RestakeForm(c, vs, q.balance, h);
      DelegationGoesToShortest(vs, h);
      RestakeFits(c, q, end, h);
      RestakeFeeIs(c, q, end, h, m);
      MsgsApart(ws, Delegate(c.vals[i].address, h), Mint(c.config.treasury, m), m);
    }
  }

  /** A committed compound withdraws the rewards of its slice, restakes all of them with the validator
      then furthest below its share, and mints the treasury exactly what its fee buys. */
  lemma {:induction false} CompoundCharges(s: Sys, limit: Option<nat>) returns (end: nat, i: nat, m: nat)
    requires SysOk(s) && Commits(s, DoCompound(limit))
    ensures var c, q := s.core, s.chain;
            && c.cursor <= end == SliceEnd(c, limit) <= |c.vals| && Charges(c, q, end, m)
            && (var h := HarvestOf(c, q, end);
                && (h > 0 ==> i < |c.vals| && GoesTo(HarvestedSet(c.vals, q, c.cursor, end), Bonded, h, i))
                && Handled(s, DoCompound(limit)).msgs
                   == WithdrawMsgs(c.vals[c.cursor..end], q)
                      + (if h == 0 then [] else [Delegate(c.vals[i].address, h)])
                      + (if m == 0 then [] else [Mint(c.config.treasury, m)]))
            && Transact(s, DoCompound(limit)).chain.supply == q.supply + m
  {
    hide CoreOk, ChainOk, SweptOk, Compound, Restaked, SweptAfter, WithdrawMsgs, RewardsOn, Charges, GoesTo;
    end, i, m := CompoundMsgs(s.core, s.chain, limit);
    var e, h, r := CompoundValue(s, limit);
  }

  lemma {:induction false} MsgsApart(ws: seq<Msg>, d: Msg, f: Msg, m: nat)
    ensures ws + (if m == 0 then [d] else [d, f]) == ws + [d] + (if m == 0 then [] else [f])
  {
  }

  lemma {:induction false} RestakeFits(c: Core, q: Chain, end: nat, h: nat)
    requires c.cursor <= end <= |c.vals| && h != 0
    requires Restaked(c, HarvestedSet(c.vals, q, c.cursor, end), q.balance, h).Ok?
    ensures TotalBonded(HarvestedSet(c.vals, q, c.cursor, end)) + h <= U128_MAX
    ensures FeeSharesForRewards(h, c.config.params.performanceFeeBps, FeePool(c, q, end))
         == Ok(Restaked(c, HarvestedSet(c.vals, q, c.cursor, end), q.balance, h).value.fee)
  {
    hide FeeSharesForRewards, HarvestedSet;
  }

  lemma {:induction false} RestakeFeeIs(c: Core, q: Chain, end: nat, h: nat, m: nat)
    requires c.cursor <= end <= |c.vals| && 0 < h == HarvestOf(c, q, end) <= U128_MAX
    requires c.config.params.performanceFeeBps <= 2_000
    requires FeeSharesForRewards(h, c.config.params.performanceFeeBps, FeePool(c, q, end)) == Ok(m)
    ensures Charges(c, q, end, m)
  {
    hide FeeSharesForRewards, IsQuotient, AssetsBefore;
    var a, bps, p := AssetsBefore(c, q, end), c.config.params.performanceFeeBps, FeePool(c, q, end);
    FeePoolIs(c, q, end);
    FeeIs(h, bps, p, a);
    MulDivIsQuotient(FeeOf(c, h), c.totals.totalSupply, a + h - FeeOf(c, h));
  }

  // ---- when a compound goes through ----

  lemma {:induction false} SomeoneIsActive(vs: seq<ValidatorEntry>) returns (i: nat)
    requires SumSeq(vs, ActiveWeight) > 0
    ensures i < |vs| && vs[i].status == Active
  {
    if forall j :: 0 <= j < |vs| ==> vs[j].status != Active {
      SumZero(vs, ActiveWeight);
    }
    i :| 0 <= i < |vs| && vs[i].status == Active;
  }

  lemma {:induction false} SelectedWhen(vs: seq<ValidatorEntry>, incoming: nat)
    requires SumSeq(vs, ActiveWeight) > 0
    ensures Selected(vs, incoming).Ok? <==> TotalBonded(vs) + incoming <= U128_MAX
  {
    var i := SomeoneIsActive(vs);
  }

  lemma {:induction false} HarvestedActive(c: Core, q: Chain, end: nat)
    requires CoreOk(c) && c.cursor <= end <= |c.vals|
    ensures SumSeq(HarvestedSet(c.vals, q, c.cursor, end), ActiveWeight) > 0
  {
    SumSame(HarvestedSet(c.vals, q, c.cursor, end), ActiveWeight, c.vals, ActiveWeight);
  }

  /** What has to fit for the fee on `h` to be priced. */
  ghost predicate FeeFits(c: Core, q: Chain, end: nat)
    requires c.cursor <= end <= |c.vals|
  {
    var h := HarvestOf(c, q, end);
    var f, supply, x := FeeOf(c, h), c.totals.totalSupply, AssetsBefore(c, q, end) + h - FeeOf(c, h);
    f > 0 && supply > 0 ==>
      && GrossBefore(c, q, end) <= U128_MAX && AssetsBefore(c, q, end) + h <= U128_MAX
      && x > 0 && f * supply < (U128_MAX + 1) * x
      && (f * supply >= x ==> c.config.token.Some?)
  }

  lemma {:induction false} QuotientFits(f: nat, s: nat, x: nat)
    requires x > 0
    ensures MulDiv(f, s, x) <= U128_MAX <==> f * s < (U128_MAX + 1) * x
    ensures MulDiv(f, s, x) > 0 <==> f * s >= x
  {
    MulDivBounds(f, s, x);
    if MulDiv(f, s, x) <= U128_MAX {
      MulMono(MulDiv(f, s, x), U128_MAX, x);
    } else {
      MulMono(U128_MAX + 1, MulDiv(f, s, x), x);
    }
    if MulDiv(f, s, x) > 0 {
      MulMono(1, MulDiv(f, s, x), x);
    }
  }

  lemma {:induction false} FeePricedWhen(c: Core, q: Chain, end: nat)
    requires c.cursor <= end <= |c.vals| && c.config.params.performanceFeeBps <= 2_000
    requires 0 < HarvestOf(c, q, end) <= U128_MAX
    ensures var r := FeeSharesForRewards(HarvestOf(c, q, end), c.config.params.performanceFeeBps, FeePool(c, q, end));
            FeeFits(c, q, end) <==> r.Ok? && (r.value != 0 ==> c.config.token.Some?)
  {
    hide FeeSharesForRewards, AssetsBefore, GrossBefore, HarvestOf, FeePool;
    var h, a := HarvestOf(c, q, end), AssetsBefore(c, q, end);
    FeePoolIs(c, q, end);
    FeeIs(h, c.config.params.performanceFeeBps, FeePool(c, q, end), a);
    QuotientFits(FeeOf(c, h), c.totals.totalSupply, a + h - FeeOf(c, h));
  }

  /** In a reachable state a compound goes through exactly when there is nothing to harvest, or the stake
      with the harvest fits in 128 bits and so do the figures its fee is priced on, and, if the fee buys
      any shares, the token is registered to mint them. */
  lemma {:induction false} CompoundAccepted(s: Sys, limit: Option<nat>)
    requires SysOk(s)
    ensures var c, q, end := s.core, s.chain, SliceEnd(s.core, limit);
            && c.cursor <= end <= |c.vals|
            && (Commits(s, DoCompound(limit)) <==>
                  var h := HarvestOf(c, q, end);
                  h == 0 || (StakeBefore(c, q, end) + h <= U128_MAX && FeeFits(c, q, end)))
  {
    hide ChainOk, SweptOk, CoreOk, Compound;
    CompoundCommitsWhen(s, limit);
    CompoundOkWhen(s.core, s.chain, limit);
  }

  lemma {:induction false} CompoundCommitsWhen(s: Sys, limit: Option<nat>)
    requires SysOk(s)
    ensures Commits(s, DoCompound(limit)) <==> Compound(s.core, s.chain, limit).Ok?
  {
    hide ChainOk, SweptOk, CoreOk, Compound;
    if Compound(s.core, s.chain, limit).Ok? {
      CompoundCommits(s, limit);
    }
  }

  lemma {:induction false} CompoundOkWhen(c: Core, q: Chain, limit: Option<nat>)
    requires CoreOk(c)
    ensures var end := SliceEnd(c, limit);
            && c.cursor <= end <= |c.vals|
            && (Compound(c, q, limit).Ok? <==>
                  var h := HarvestOf(c, q, end);
                  h == 0 || (StakeBefore(c, q, end) + h <= U128_MAX && FeeFits(c, q, end)))
  {
    hide CoreOk, Restaked, FeeFits, StakeBefore, WithdrawMsgs, HarvestedSet, RewardsOn;
    var end := SliceEnd(c, limit);
    CursorInside(c);
    RestakedWhen(c, q, end);
  }

  lemma {:induction false} CursorInside(c: Core)
    requires CoreOk(c)
    ensures c.cursor <= |c.vals| && c.vals != []
  {
    var i := SomeoneIsActive(c.vals);
  }

  lemma {:induction false} RestakedWhen(c: Core, q: Chain, end: nat)
    requires CoreOk(c) && c.cursor <= end <= |c.vals|
    ensures var h := HarvestOf(c, q, end);
            Restaked(c, HarvestedSet(c.vals, q, c.cursor, end), q.balance, h).Ok?
            <==> h == 0 || (StakeBefore(c, q, end) + h <= U128_MAX && FeeFits(c, q, end))
  {
    hide CoreOk, FeeFits, StakeBefore, HarvestedSet, FeeSharesForRewards, Selected, HarvestOf, TotalBonded, TotalRewards;
    var h, vs := HarvestOf(c, q, end), HarvestedSet(c.vals, q, c.cursor, end);
    HarvestedTotals(c, q, end);
    HarvestedActive(c, q, end);
    SelectedWhen(vs, h);
    BpsBound(c);
    if h > 0 && StakeBefore(c, q, end) + h <= U128_MAX {
      FeePricedWhen(c, q, end);
    }
  }
}
