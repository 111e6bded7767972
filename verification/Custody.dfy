/** Where the contract's stake can be: only with validators of its set, and so only with those the
    allowlist approved at instantiation. */
module Custody {
  import opened Prelude
  import opened Sums
  import opened Types
  import opened Validators
  import opened Chain
  import opened Engine
  import opened Invariants
  import opened Roster
  import opened Keeping
  import opened System
  import opened Reach
  import opened Worth
  import opened Sharing
  import opened Harvest
  import opened Authority

  ghost predicate DelegatesWithin(q: Chain, addresses: seq<Addr>) {
    forall a :: a in q.delegations ==> a in addresses
  }

  /** The contract has no stake outside its set. */
  ghost predicate InSet(s: Sys) { DelegatesWithin(s.chain, Addresses(s.core.vals)) }

  lemma {:induction false} ExecWithin(q: Chain, m: Msg, addresses: seq<Addr>)
    requires DelegatesWithin(q, addresses) && Within(m, addresses) && Exec(q, m).Some?
    ensures DelegatesWithin(Exec(q, m).value, addresses)
  {
  }

  lemma {:induction false} RunWithin(q: Chain, ms: seq<Msg>, addresses: seq<Addr>)
    requires DelegatesWithin(q, addresses) && AllWithin(ms, addresses) && Run(q, ms).Some?
    ensures DelegatesWithin(Run(q, ms).value, addresses)
    decreases |ms|
  {
    hide DelegatesWithin;
    if ms != [] {
      ExecWithin(q, ms[0], addresses);
      RunWithin(Exec(q, ms[0]).value, ms[1..], addresses);
    }
  }

  // ---- every call deals with the set only ----

  lemma {:induction false} AimedWithin(c: Core, ms: seq<Msg>, sent: nat, minted: nat, burned: nat)
    requires Aimed(c, ms, sent, minted, burned)
    ensures AllWithin(ms, Addresses(c.vals))
  {
  }

  lemma {:induction false} DepositWithin(c: Core, b: Chain, sender: Addr, funds: seq<Coin>)
    requires CoreOk(c) && Deposit(c, b, sender, funds).Ok?
    ensures AllWithin(Deposit(c, b, sender, funds).value.msgs, Addresses(c.vals))
    ensures Addresses(Deposit(c, b, sender, funds).value.core.vals) == Addresses(c.vals)
  {
    hide ClosedIfOverdue, CoreOk, Deposit, Aimed;
    var n, r, shares, i, d := DepositForm(c, b, sender, funds);
    RefreshKeepsCore(c, b);
    PlacedKeepsCore(r, i, n, shares);
    OverdueAimed(Placed(r, i, n, shares), b.now);
    DepositAimed(c, r, i, n, shares, sender, d);
    AimedWithin(c, Deposit(c, b, sender, funds).value.msgs, 0, shares, 0);
  }

  lemma {:induction false} UnbondWithin(c: Core, b: Chain, sender: Addr, from: Addr, n: nat)
    requires CoreOk(c) && Unbond(c, b, sender, from, n).Ok?
    ensures AllWithin(Unbond(c, b, sender, from, n).value.msgs, Addresses(c.vals))
    ensures Addresses(Unbond(c, b, sender, from, n).value.core.vals) == Addresses(c.vals)
  {
    hide ClosedIfOverdue, CoreOk, Unbond, Aimed, Promised;
    var r, owed, d := UnbondForm(c, b, sender, from, n);
    RefreshKeepsCore(c, b);
    PromisedKeepsCore(r, from, n, owed);
    PromisedOwes(r, from, n, owed);
    OverdueAimed(Promised(r, from, n, owed), b.now);
    UnbondAimed(c, r, from, n, owed, d);
    AimedWithin(c, Unbond(c, b, sender, from, n).value.msgs, 0, 0, n);
  }

  lemma {:induction false} BootstrapWithin(c: Core, b: Chain, sender: Addr, token: Addr, funds: seq<Coin>)
    requires Bootstrap(c, b, sender, token, funds).Ok?
    ensures AllWithin(Bootstrap(c, b, sender, token, funds).value.msgs, Addresses(c.vals))
    ensures Addresses(Bootstrap(c, b, sender, token, funds).value.core.vals) == Addresses(c.vals)
  {
    hide Bootstrap;
    var seed, i := BootstrapForm(c, b, sender, token, funds);
    var d := Bootstrap(c, b, sender, token, funds).value;
    assert Addresses(c.vals)[i] == c.vals[i].address;
    assert Addresses(d.core.vals) == Addresses(c.vals);
  }

  lemma {:induction false} CompoundWithin(c: Core, q: Chain, limit: Option<nat>)
    requires CoreOk(c) && Compound(c, q, limit).Ok?
    ensures AllWithin(Compound(c, q, limit).value.msgs, Addresses(c.vals))
    ensures Addresses(Compound(c, q, limit).value.core.vals) == Addresses(c.vals)
  {
    hide Compound, Aimed, CoreOk;
    var end, harvested, r := CompoundAimed(c, q, limit);
    AimedWithin(c, Compound(c, q, limit).value.msgs, 0, r.fee, 0);
    CompoundKeeps(c, q, limit);
  }

  /** Every message of a committed call deals with validators of the set, which only ever grows. */
  lemma {:induction false} HandledWithin(s: Sys, tx: Tx)
    requires SysOk(s) && Commits(s, tx)
    ensures AllWithin(Handled(s, tx).msgs, Addresses(s.core.vals))
    ensures |s.core.vals| <= |Handled(s, tx).core.vals|
    ensures Addresses(Handled(s, tx).core.vals)[..|s.core.vals|] == Addresses(s.core.vals)
  {
    hide CoreOk, ChainOk, SweptOk, Bootstrap, Deposit, Unbond, Compound, ClaimMatured, CollectMatured, AdvanceWindow,
         Sync, Rebalance, SetWeights, Aimed, AllWithin;
    var c, b := s.core, Attached(s, tx);
    match tx {
      case DoBootstrap(sender, token, funds) => BootstrapWithin(c, b, sender, token, funds);
      case DoDeposit(sender, funds) => DepositWithin(c, b, sender, funds);
      case DoUnbond(from, n) => UnbondWithin(c, b, if c.config.token.Some? then c.config.token.value else from, from, n);
      case DoCompound(limit) => CompoundWithin(c, b, limit);
      case DoSetWeights(sender, ws) => WeightsWithin(c, sender, ws);
      case _ =>
        var sent := NoTradeAimed(s, tx);
        AimedWithin(c, Handled(s, tx).msgs, sent, 0, 0);
    }
    if !tx.DoSetWeights? {
      SameLength(c.vals, Handled(s, tx).core.vals);
    }
  }

  lemma {:induction false} SameLength(vs: seq<ValidatorEntry>, us: seq<ValidatorEntry>)
    requires Addresses(us) == Addresses(vs)
    ensures |us| == |vs| && Addresses(us)[..|vs|] == Addresses(vs)
  {
    assert |Addresses(us)| == |us|;
  }

  lemma {:induction false} WeightsWithin(c: Core, sender: Addr, ws: seq<ValidatorInit>)
    requires CoreOk(c) && SetWeights(c, sender, ws).Ok?
    ensures AllWithin(SetWeights(c, sender, ws).value.msgs, Addresses(c.vals))
    ensures |c.vals| <= |SetWeights(c, sender, ws).value.core.vals|
    ensures Addresses(SetWeights(c, sender, ws).value.core.vals)[..|c.vals|] == Addresses(c.vals)
  {
    hide CoreOk, WeightsApplied;
    SetWeightsKeeps(c, sender, ws);
  }

  lemma {:induction false} GrownWithin(q: Chain, addresses: seq<Addr>, more: seq<Addr>)
    requires DelegatesWithin(q, addresses) && |addresses| <= |more| && more[..|addresses|] == addresses
    ensures DelegatesWithin(q, more)
  {
    forall a | a in q.delegations ensures a in more {
      var i :| 0 <= i < |addresses| && addresses[i] == a;
      assert more[i] == more[..|addresses|][i];
    }
  }

  lemma {:induction false} AttachedDelegations(s: Sys, tx: Tx)
    requires Commits(s, tx)
    ensures Attached(s, tx).delegations == s.chain.delegations
  {
  }

  lemma {:induction false} NextInSet(s: Sys, step: Step)
    requires SysOk(s) && InSet(s)
    ensures InSet(Next(s, step))
  {
    hide SysOk, Handle, Credited, SweptAfter;
    match step {
      case Do(tx) =>
        if Commits(s, tx) {
          HandledWithin(s, tx);
          AttachedDelegations(s, tx);
          RunWithin(Attached(s, tx), Handled(s, tx).msgs, Addresses(s.core.vals));
          GrownWithin(Run(Attached(s, tx), Handled(s, tx).msgs).value, Addresses(s.core.vals),
                      Addresses(Handled(s, tx).core.vals));
        }
      case World(e) =>
    }
  }

  lemma {:induction false} RunInSet(s: Sys, steps: seq<Step>)
    requires Fresh(s)
    ensures InSet(After(s, steps))
  {
    hide SysOk, Next, InSet;
    if steps == [] {
      FreshInSet(s);
    } else {
      var init := steps[..|steps| - 1];
      RunInSet(s, init);
      ReachableOk(s, init);
      NextInSet(After(s, init), steps[|steps| - 1]);
    }
  }

  lemma {:induction false} FreshInSet(s: Sys)
    requires Fresh(s)
    ensures InSet(s)
  {
  }

  /** Over any run, whoever manages it: the contract's stake sits with validators of its set, and each of
      them is on the allowlist fixed at instantiation. */
  lemma {:induction false} StakeStaysApproved(s: Sys, steps: seq<Step>, a: Addr)
    requires Fresh(s) && a in After(s, steps).chain.delegations
    ensures a in Addresses(After(s, steps).core.vals) && a in s.core.allowlist
  {
    hide Fresh;
    var c := After(s, steps).core;
    RunInSet(s, steps);
    ReachableOk(s, steps);
    OnlyTheManagerSetsTerms(s, steps);
    var i := Find(c.vals, a);
    assert EntryOk(c.vals[i], c.allowlist, c.config.limits.maxValidatorWeightBps);
  }

  // ---- so a new weighting is worth nothing ----

  ghost predicate Extends(vs: seq<ValidatorEntry>, us: seq<ValidatorEntry>) {
    |vs| <= |us| && Addresses(us)[..|vs|] == Addresses(vs)
  }

  lemma {:induction false} ExtendsAt(vs: seq<ValidatorEntry>, us: seq<ValidatorEntry>, i: nat)
    requires Extends(vs, us) && Distinct(Addresses(us)) && i < |us|
    ensures i < |vs| ==> us[i].address == vs[i].address
    ensures i >= |vs| ==> us[i].address !in Addresses(vs)
  {
    forall k | 0 <= k < |vs| ensures Addresses(vs)[k] == Addresses(us)[k] {
      assert Addresses(us)[..|vs|][k] == Addresses(vs)[k];
    }
    assert Addresses(us)[i] == us[i].address;
  }

  /** Newcomers bring no stake with them. */
  lemma {:induction false} NewcomersBringNothing(vs: seq<ValidatorEntry>, us: seq<ValidatorEntry>, q: Chain)
    requires DelegatesWithin(q, Addresses(vs)) && Distinct(Addresses(us)) && Extends(vs, us)
    ensures Holdings(us, q) == Holdings(vs, q)
  {
    hide Extends, Distinct, Addresses;
    ExtendsBy(vs, us);
    var kept, joined := us[..|vs|], us[|vs|..];
    assert us == kept + joined;
    SumConcat(kept, joined, StakeAt(q));
    forall i | 0 <= i < |vs| ensures StakeAt(q)(kept[i]) == StakeAt(q)(vs[i]) {
      ExtendsAt(vs, us, i);
    }
    SumSame(kept, StakeAt(q), vs, StakeAt(q));
    forall i | 0 <= i < |joined| ensures StakeAt(q)(joined[i]) == 0 {
      ExtendsAt(vs, us, |vs| + i);
    }
    SumZero(joined, StakeAt(q));
  }

  lemma {:induction false} ExtendsBy(vs: seq<ValidatorEntry>, us: seq<ValidatorEntry>)
    requires Extends(vs, us)
    ensures |vs| <= |us|
  {
  }

  /** A new assignment of weights leaves net worth, supply and the pricing gap as they were. */
  lemma {:induction false} WeightsKeepValue(s: Sys, sender: Addr, ws: seq<ValidatorInit>)
    requires SysOk(s) && InSet(s) && Commits(s, DoSetWeights(sender, ws))
    ensures var t := Transact(s, DoSetWeights(sender, ws));
            && t.chain == s.chain && Value(t) == Value(s) && Gap(t) == Gap(s)
            && t.core.config == s.core.config && t.core.totals == s.core.totals
  {
    hide CoreOk, ChainOk, SweptOk, WeightsApplied, Holdings, Mispricing, SweptAfter;
    SetWeightsKeeps(s.core, sender, ws);
    var d := SetWeights(s.core, sender, ws).value.core;
    SetDistinct(d);
    NewcomersBringNothing(s.core.vals, d.vals, s.chain);
  }
}
