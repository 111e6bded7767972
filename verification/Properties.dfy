/** What holds in every state a run can reach, stated for a reader: the window queue, the validator
    set, the debts and the claims. */
module Properties {
  import opened Prelude
  import opened Sums
  import opened Types
  import opened Math
  import opened Windows
  import opened Validators
  import opened Plans
  import opened Chain
  import opened Engine
  import opened Invariants
  import opened Roster
  import opened Closing
  import opened Maturing
  import opened Claims
  import opened Keeping
  import opened System
  import opened Reach
  import opened Limits

  // ---- the queue of windows ----

  /** Accepted parameters mean a positive window length. */
  lemma {:induction false} WindowLengthPositive(c: Core)
    requires ConfigOk(c)
    ensures c.config.params.unbondWindowSecs > 0
  {
  }

  lemma {:induction false} ActiveOrder(c: Core, a: nat, b: nat)
    requires CoreOk(c) && a < b < |c.active|
    ensures c.active[a] < c.active[b] < |c.windows| - 1
    ensures c.windows[c.active[a]].maturesAt < c.windows[c.active[b]].maturesAt
    ensures c.windows[c.active[b]].state == Matured ==> c.windows[c.active[a]].state == Matured
  {
    hide SetOk, StakeOk, SlotsOk, BucketsOk, LedgerOk, IndexOk;
    var p, u, ws, i, j := c.config.params.unbondWindowSecs, c.config.params.unbondingPeriodSecs, c.windows, c.active[a], c.active[b];
    assert i in c.active && j in c.active;
    WindowLengthPositive(c);
    assert WindowOk(ws, i, p, u) && WindowOk(ws, j, p, u);
    MaturityOrder(ws, c.openId, p, u, i + 1, j + 1);
    MulMono(1, j - i, p);
    assert InTurn(ws, i, j);
  }

  /** First in, first out: exactly the last window allocated is Open; the active list is exactly the
      windows in flight, oldest first, with strictly increasing maturities and every Matured window
      ahead of every Unbonding one. */
  lemma {:induction false} WindowsAreFifo(s: Sys, steps: seq<Step>)
    requires Fresh(s)
    ensures var c := After(s, steps).core;
            var ws := c.windows;
            && (forall id :: 0 <= id < |ws| ==> (ws[id].state == Open <==> id == c.openId) && ws[id].id == id)
            && c.openId + 1 == |ws|
            && (forall id: nat :: id in c.active <==> id < |ws| && (ws[id].state == Unbonding || ws[id].state == Matured))
            && (forall a, b :: 0 <= a < b < |c.active| ==>
                  && c.active[a] < c.active[b] < |ws|
                  && ws[c.active[a]].maturesAt < ws[c.active[b]].maturesAt
                  && (ws[c.active[b]].state == Matured ==> ws[c.active[a]].state == Matured))
  {
    hide Fresh, CoreOk, ChainOk, SweptOk, After;
    var c := After(s, steps).core;
    ReachableOk(s, steps);
    LastIsOpen(c);
    ActiveIsInFlight(c);
    ActiveInOrder(c);
  }

  lemma {:induction false} LastIsOpen(c: Core)
    requires CoreOk(c)
    ensures c.openId + 1 == |c.windows|
    ensures forall id :: 0 <= id < |c.windows| ==> (c.windows[id].state == Open <==> id == c.openId) && c.windows[id].id == id
  {
    forall id | 0 <= id < |c.windows| ensures (c.windows[id].state == Open <==> id == c.openId) && c.windows[id].id == id {
      assert WindowOk(c.windows, id, c.config.params.unbondWindowSecs, c.config.params.unbondingPeriodSecs);
    }
  }

  lemma {:induction false} ActiveIsInFlight(c: Core)
    requires CoreOk(c)
    ensures forall id: nat :: id in c.active <==> id < |c.windows| && (c.windows[id].state == Unbonding || c.windows[id].state == Matured)
  {
    forall id: nat
      ensures id in c.active <==> id < |c.windows| && (c.windows[id].state == Unbonding || c.windows[id].state == Matured)
    {
      assert id in c.active <==> id < |c.windows| && InFlight(c.windows[id].state);
    }
  }

  lemma {:induction false} ActiveInOrder(c: Core)
    requires CoreOk(c)
    ensures forall a, b :: 0 <= a < b < |c.active| ==>
              && c.active[a] < c.active[b] < |c.windows|
              && c.windows[c.active[a]].maturesAt < c.windows[c.active[b]].maturesAt
              && (c.windows[c.active[b]].state == Matured ==> c.windows[c.active[a]].state == Matured)
  {
    hide CoreOk;
    forall a, b | 0 <= a < b < |c.active|
      ensures c.active[a] < c.active[b] < |c.windows| && c.windows[c.active[a]].maturesAt < c.windows[c.active[b]].maturesAt
           && (c.windows[c.active[b]].state == Matured ==> c.windows[c.active[a]].state == Matured)
    {
      ActiveOrder(c, a, b);
    }
  }

  // ---- the validator set ----

  /** Addresses stay distinct and on the allowlist, so there are never more than 20; Active weights
      total 100%, each within its ceiling; nothing is assigned to a validator that is not Active; and
      the cached totals are the sums over the set. */
  lemma {:induction false} SetStaysSound(s: Sys, steps: seq<Step>)
    requires Fresh(s)
    ensures var c := After(s, steps).core;
            && Distinct(Addresses(c.vals))
            && 0 < |c.vals| <= |c.allowlist| <= MAX_VALIDATORS
            && SumSeq(c.vals, ActiveWeight) == BPS_DENOM
            && (forall i :: 0 <= i < |c.vals| ==>
                  && c.vals[i].address in c.allowlist
                  && c.vals[i].weightBps <= c.config.limits.maxValidatorWeightBps <= MAX_VALIDATOR_WEIGHT_BPS
                  && (c.vals[i].status != Active ==> c.vals[i].weightBps == 0))
            && c.totals.totalBonded == TotalBonded(c.vals) && c.totals.pendingRewards == TotalRewards(c.vals)
  {
    hide Fresh;
    var c := After(s, steps).core;
    ReachableOk(s, steps);
    SetIsBounded(c.vals, c.allowlist, c.config.limits.maxValidatorWeightBps);
    forall i | 0 <= i < |c.vals|
      ensures c.vals[i].address in c.allowlist
           && c.vals[i].weightBps <= c.config.limits.maxValidatorWeightBps <= MAX_VALIDATOR_WEIGHT_BPS
           && (c.vals[i].status != Active ==> c.vals[i].weightBps == 0)
    {
      assert EntryOk(c.vals[i], c.allowlist, c.config.limits.maxValidatorWeightBps);
    }
  }

  /** New weights move no stake, no rewards and no entry slot, and newcomers start with none. */
  lemma {:induction false} WeightsMoveNothing(c: Core, sender: Addr, ws: seq<ValidatorInit>)
    requires CoreOk(c) && SetWeights(c, sender, ws).Ok?
    ensures var d := SetWeights(c, sender, ws).value.core;
            && |c.vals| <= |d.vals|
            && (forall i :: 0 <= i < |c.vals| ==>
                  && d.vals[i].address == c.vals[i].address && d.vals[i].bonded == c.vals[i].bonded
                  && d.vals[i].pendingRewards == c.vals[i].pendingRewards
                  && d.vals[i].activeUnbondEntries == c.vals[i].activeUnbondEntries)
            && (forall i :: |c.vals| <= i < |d.vals| ==> d.vals[i].bonded == d.vals[i].activeUnbondEntries == 0)
            && d.totals == c.totals
            && (forall i :: 0 <= i < |c.vals| ==> (d.vals[i].status == Active <==> d.vals[i].address in InitAddresses(ws)))
  {
    ManagedVerdictMeaning(ws, c.allowlist, c.config.limits.maxValidatorWeightBps);
    WeightsKeepSet(c.vals, ws, c.allowlist, c.config.limits.maxValidatorWeightBps);
  }

  // ---- debts ----

  /** Each liability bucket is exactly the debt of the windows it stands for, and the balance covers
      what matured windows still owe. */
  lemma {:induction false} BucketsAreExact(s: Sys, steps: seq<Step>)
    requires Fresh(s)
    ensures var r := After(s, steps);
            var ws, t := r.core.windows, r.core.totals;
            && r.core.openId < |ws| && t.scrtOwedOpen == ws[r.core.openId].scrtOwed
            && t.scrtOwedUnbonding == SumSeq(ws, UnbondingOwed)
            && t.scrtOwedMatured == SumSeq(ws, MaturedOutstanding)
            && t.scrtOwedMatured <= r.chain.balance
  {
    hide Fresh;
    ReachableOk(s, steps);
  }

  lemma {:induction false} CountersSuffice(c: Core, now: nat, balance: nat, limit: nat, m: Engine.Maturing, i: nat)
    requires CoreOk(c) && Due(c, balance, m, now, limit) && i < |c.vals|
    ensures multiset(m.release)[c.vals[i].address] <= c.vals[i].activeUnbondEntries
  {
    hide MatureFrom, SetOk, StakeOk, LedgerOk, IndexOk, BucketsOk;
    ActiveWaits(c);
    assert SlotOk(c.vals[i], c.windows, c.config.params.maxUnbondEntries);
    forall j | 0 <= j < |c.windows| ensures Distinct(c.windows[j].validatorsUsed) {
      assert UsedOk(c.windows[j], c.vals);
    }
    MatureFromSlots(c.active, c.windows, now, balance, SumSeq(c.active, SpokenAt(c.windows)), Max(limit, 1), c.vals[i].address);
  }

  /** A saturating subtraction met while maturing never saturates: what is spoken for is within the
      balance, what windows promised is within their bucket, and every slot handed back was held. */
  lemma {:induction false} MaturingNeverSaturates(s: Sys, steps: seq<Step>, limit: nat)
    requires Fresh(s)
    ensures var r := After(s, steps);
            var c, q := r.core, r.chain;
            var spoken := SumSeq(c.active, SpokenAt(c.windows));
            var m := MatureFrom(c.active, c.windows, q.now, q.balance, spoken, Max(limit, 1));
            && spoken + m.realised <= q.balance
            && m.realised <= m.promised <= c.totals.scrtOwedUnbonding
            && (forall i :: 0 <= i < |c.vals| ==> multiset(m.release)[c.vals[i].address] <= c.vals[i].activeUnbondEntries)
  {
    hide Fresh, MatureFrom;
    var r := After(s, steps);
    ReachableOk(s, steps);
    NothingSaturates(r.core, r.chain, limit);
  }

  lemma {:induction false} NothingSaturates(c: Core, q: Chain, limit: nat)
    requires CoreOk(c) && Solvent(c.windows, q.balance)
    ensures var spoken := SumSeq(c.active, SpokenAt(c.windows));
            var m := MatureFrom(c.active, c.windows, q.now, q.balance, spoken, Max(limit, 1));
            && spoken + m.realised <= q.balance
            && m.realised <= m.promised <= c.totals.scrtOwedUnbonding
            && (forall i :: 0 <= i < |c.vals| ==> multiset(m.release)[c.vals[i].address] <= c.vals[i].activeUnbondEntries)
  {
    hide MatureFrom, SlotsOk, LedgerOk, IndexOk, SetOk, StakeOk;
    var p, u := c.config.params.unbondWindowSecs, c.config.params.unbondingPeriodSecs;
    var spoken := SumSeq(c.active, SpokenAt(c.windows));
    var m := MatureFrom(c.active, c.windows, q.now, q.balance, spoken, Max(limit, 1));
    DueKeepsBuckets(c, q.balance, m, q.now, limit, p, u);
    ActiveWaits(c);
    SpokenForIs(c.active, c.windows);
    forall i | 0 <= i < |c.windows| && c.windows[i].state == Unbonding ensures c.windows[i].scrtClaimed == 0 {
      assert WindowOk(c.windows, i, p, u);
    }
    MatureFromRealised(c.active, c.windows, q.now, q.balance, spoken, Max(limit, 1));
    forall i | 0 <= i < |c.vals| ensures multiset(m.release)[c.vals[i].address] <= c.vals[i].activeUnbondEntries {
      CountersSuffice(c, q.now, q.balance, limit, m, i);
    }
  }

  // ---- claims ----

  /** The claims of all accounts on a window add up to what it owes and to the shares burned into it;
      what it has paid is what its collected claims were worth; that is never more than it received,
      short of it by less than one unit per claimant when all are collected; and once it is settled
      an uncollected claim is worth nothing. */
  lemma {:induction false} ClaimsAddUp(s: Sys, steps: seq<Step>, id: nat)
    requires Fresh(s) && id < |After(s, steps).core.windows|
    ensures var c := After(s, steps).core;
            var w := c.windows[id];
            && SumMap(c.claims, OwedIn(id)) == w.scrtOwed
            && SumMap(c.claims, SharesIn(id)) == w.sharesBurned
            && w.scrtClaimed == SumMap(c.claims, PaidIn(id, w.Payable(), w.scrtOwed)) <= w.Payable()
            && (w.scrtOwed > 0 ==> w.Payable() < SumMap(c.claims, PayoutIn(id, w.Payable(), w.scrtOwed)) + SumMap(c.claims, ClaimantsIn(id)))
            && (w.state == Settled ==>
                  forall k :: k in c.claims && k.window == id && !c.claims[k].claimed ==>
                    PayoutForClaim(w, c.claims[k].scrtOwed) == 0)
  {
    hide Fresh;
    var c := After(s, steps).core;
    ReachableOk(s, steps);
    LedgerFacts(c, id);
  }

  lemma {:induction false} LedgerFacts(c: Core, id: nat)
    requires CoreOk(c) && id < |c.windows|
    ensures var w := c.windows[id];
            && SumMap(c.claims, OwedIn(id)) == w.scrtOwed
            && SumMap(c.claims, SharesIn(id)) == w.sharesBurned
            && w.scrtClaimed == SumMap(c.claims, PaidIn(id, w.Payable(), w.scrtOwed)) <= w.Payable()
            && (w.scrtOwed > 0 ==> w.Payable() < SumMap(c.claims, PayoutIn(id, w.Payable(), w.scrtOwed)) + SumMap(c.claims, ClaimantsIn(id)))
            && (w.state == Settled ==>
                  forall k :: k in c.claims && k.window == id && !c.claims[k].claimed ==>
                    PayoutForClaim(w, c.claims[k].scrtOwed) == 0)
  {
    hide SetOk, StakeOk, SlotsOk, ActiveOk, BucketsOk, IndexOk;
    var w := c.windows[id];
    assert LedgerAt(c.claims, w, id);
    assert WindowOk(c.windows, id, c.config.params.unbondWindowSecs, c.config.params.unbondingPeriodSecs);
    if w.scrtOwed > 0 {
      PayoutsFit(c.claims, w, id);
      ResidueIsSmall(c.claims, w, id);
    } else {
      NobodyClaims(c, id);
    }
    if w.state == Settled {
      forall k | k in c.claims && k.window == id && !c.claims[k].claimed ensures PayoutForClaim(w, c.claims[k].scrtOwed) == 0 {
        SettledOwesNothing(c.claims, c.windows, k);
      }
    }
  }

  lemma {:induction false} NobodyClaims(c: Core, id: nat)
    requires LedgerOk(c.claims, c.windows) && id < |c.windows| && c.windows[id].scrtOwed == 0
    ensures c.windows[id].scrtClaimed == 0
  {
    assert LedgerAt(c.claims, c.windows[id], id);
    forall k | k in c.claims ensures k.window != id {
      assert ClaimOk(k, c.claims[k], c.windows);
      SumMapMember(c.claims, k, OwedIn(id));
    }
    SumMapZero(c.claims, PaidIn(id, c.windows[id].Payable(), c.windows[id].scrtOwed));
  }
}
