/** Who can change what: pausing does nothing but turn deposits away, and the terms the contract runs
    on are the manager's to set within limits that nobody can move. */
module Authority {
  import opened Prelude
  import opened Sums
  import opened Types
  import opened Math
  import opened Windows
  import opened Validators
  import opened Plans
  import opened Chain
  import opened Engine
  import opened Invariants
  import opened Roster
  import opened Closing
  import opened Keeping
  import opened System
  import opened Reach

  // ---- the pause switch ----

  function Flagged(c: Core, paused: bool): Core {
    c.(config := c.config.(paused := paused))
  }

  /** The same outcome on a core whose switch stands at `paused`. */
  function FlaggedTo(r: Outcome<Done>, paused: bool): Outcome<Done> {
    match r
    case Ok(d) => Ok(Done(Flagged(d.core, paused), d.msgs))
    case Err(e) => Err(e)
  }

  function FlaggedSys(s: Sys, paused: bool): Sys {
    s.(core := Flagged(s.core, paused))
  }

  lemma {:induction false} OverdueFlagged(c: Core, now: nat, paused: bool)
    ensures ClosedIfOverdue(Flagged(c, paused), now) == FlaggedTo(ClosedIfOverdue(c, now), paused)
    ensures ClosedOpen(Flagged(c, paused), now) == FlaggedTo(ClosedOpen(c, now), paused)
  {
    hide Plan, Drawn, Close, OpenWindow;
  }

  lemma {:induction false} DepositFlagged(c: Core, q: Chain, sender: Addr, funds: seq<Coin>)
    requires !c.config.paused
    ensures Deposit(Flagged(c, false), q, sender, funds) == FlaggedTo(Deposit(c, q, sender, funds), false)
  {
    hide Deposit;
    assert Flagged(c, false) == c;
    if Deposit(c, q, sender, funds).Ok? {
      hide SharesForDeposit, ClosedIfOverdue, Refreshed;
      var deposit, r, shares, i, d := DepositForm(c, q, sender, funds);
      OverdueFlagged(Placed(r, i, deposit, shares), q.now, false);
      RefreshedFlag(c, q);
      assert Flagged(Placed(r, i, deposit, shares), false) == Placed(r, i, deposit, shares);
    }
  }

  lemma {:induction false} RefreshedFlag(c: Core, q: Chain)
    requires Refreshed(c, q).Ok?
    ensures Refreshed(c, q).value.config == c.config
  {
  }

  lemma {:induction false} RefreshFlagged(c: Core, q: Chain, paused: bool)
    ensures Refreshed(Flagged(c, paused), q)
         == match Refreshed(c, q) case Ok(r) => Ok(Flagged(r, paused)) case Err(e) => Err(e)
  {
  }

  lemma {:induction false} PromisedFlagged(r: Core, from: Addr, amount: nat, owed: nat, paused: bool)
    requires r.openId < |r.windows|
    ensures Promised(Flagged(r, paused), from, amount, owed) == Flagged(Promised(r, from, amount, owed), paused)
  {
  }

  lemma {:induction false} UnbondFlagged(c: Core, q: Chain, sender: Addr, from: Addr, amount: nat, paused: bool)
    ensures Unbond(Flagged(c, paused), q, sender, from, amount) == FlaggedTo(Unbond(c, q, sender, from, amount), paused)
  {
    hide ClosedIfOverdue, AssetsForShares, Refreshed, Promised, PoolOf;
    RefreshFlagged(c, q, paused);
    if Refreshed(c, q).Ok? {
      var r := Refreshed(c, q).value;
      var owed := AssetsForShares(amount, PoolOf(r.totals, q.balance, 0));
      if owed.Ok? && r.openId < |r.windows| {
        PromisedFlagged(r, from, amount, owed.value, paused);
        OverdueFlagged(Promised(r, from, amount, owed.value), q.now, paused);
      }
    }
  }

  lemma {:induction false} ClaimFlagged(c: Core, q: Chain, who: Addr, ids: Option<seq<nat>>, paused: bool)
    ensures ClaimMatured(Flagged(c, paused), q, who, ids) == FlaggedTo(ClaimMatured(c, q, who, ids), paused)
  {
    hide ClaimFrom, MatureFrom;
    assert MatureDue(Flagged(c, paused), q.now, q.balance, U32_MAX).core
        == Flagged(MatureDue(c, q.now, q.balance, U32_MAX).core, paused);
  }

  lemma {:induction false} RestakeFlagged(c: Core, vs: seq<ValidatorEntry>, balance: nat, harvested: nat, paused: bool)
    ensures Restaked(Flagged(c, paused), vs, balance, harvested) == Restaked(c, vs, balance, harvested)
  {
    hide FeeSharesForRewards, Selected;
  }

  lemma {:induction false} CompoundFlagged(c: Core, q: Chain, limit: Option<nat>, paused: bool)
    ensures Compound(Flagged(c, paused), q, limit) == FlaggedTo(Compound(c, q, limit), paused)
  {
    hide Restaked, WithdrawMsgs, HarvestedSet;
    var end := SweepEnd(c, if limit.Some? then limit.value else DEFAULT_COMPOUND_LIMIT);
    if c.cursor <= |c.vals| {
      RestakeFlagged(c, HarvestedSet(c.vals, q, c.cursor, end), q.balance,
                     SumSeq(c.vals[c.cursor..end], RewardsOn(q)), paused);
    }
  }

  predicate PauseBlind(tx: Tx) {
    !tx.DoDeposit? && !tx.DoSetPaused?
  }

  /** Every call but a deposit and the switch itself does the same paused or not. */
  lemma {:induction false} PauseStopsOnlyDeposits(c: Core, q: Chain, tx: Tx, paused: bool)
    requires PauseBlind(tx)
    ensures Handle(Flagged(c, paused), q, tx) == FlaggedTo(Handle(c, q, tx), paused)
    ensures Credited(Flagged(c, paused), q, tx) == Credited(c, q, tx)
  {
    hide Bootstrap, Unbond, ClaimMatured, AdvanceWindow, CollectMatured, Sync, Compound, SetWeights, Rebalance;
    match tx {
      case DoBootstrap(sender, token, funds) => BootstrapFlagged(c, q, sender, token, funds, paused);
      case DoUnbond(from, n) =>
        UnbondFlagged(c, q, if c.config.token.Some? then c.config.token.value else from, from, n, paused);
      case DoClaim(who, ids) => ClaimFlagged(c, q, who, ids, paused);
      case DoAdvance => AdvanceFlagged(c, q, paused);
      case DoCollect(limit) => CollectFlagged(c, q, limit, paused);
      case DoSync(limit) => SyncFlagged(c, q, limit, paused);
      case DoCompound(limit) => CompoundFlagged(c, q, limit, paused);
      case DoSetWeights(sender, ws) => WeightsFlagged(c, sender, ws, paused);
      case DoRebalance(sender, plan) => RebalanceFlagged(c, sender, plan, paused);
      case DoSetFee(_, _) =>
    }
  }

  lemma {:induction false} BootstrapFlagged(c: Core, q: Chain, sender: Addr, token: Addr, funds: seq<Coin>,
        paused: bool)
    ensures Bootstrap(Flagged(c, paused), q, sender, token, funds)
         == FlaggedTo(Bootstrap(c, q, sender, token, funds), paused)
  {
    hide ExactFunds, Selected;
  }

  lemma {:induction false} AdvanceFlagged(c: Core, q: Chain, paused: bool)
    ensures AdvanceWindow(Flagged(c, paused), q) == FlaggedTo(AdvanceWindow(c, q), paused)
  {
    hide ClosedOpen;
    OverdueFlagged(c, q.now, paused);
  }

  lemma {:induction false} CollectFlagged(c: Core, q: Chain, limit: Option<nat>, paused: bool)
    ensures CollectMatured(Flagged(c, paused), q, limit) == FlaggedTo(CollectMatured(c, q, limit), paused)
  {
    hide MatureFrom, Released;
  }

  lemma {:induction false} SyncFlagged(c: Core, q: Chain, limit: Option<nat>, paused: bool)
    ensures Sync(Flagged(c, paused), q, limit) == FlaggedTo(Sync(c, q, limit), paused)
  {
  }

  lemma {:induction false} WeightsFlagged(c: Core, sender: Addr, ws: seq<ValidatorInit>, paused: bool)
    ensures SetWeights(Flagged(c, paused), sender, ws) == FlaggedTo(SetWeights(c, sender, ws), paused)
  {
    hide ManagedVerdict, WeightsApplied;
  }

  lemma {:induction false} RebalanceFlagged(c: Core, sender: Addr, plan: seq<RedelegateStep>, paused: bool)
    ensures Rebalance(Flagged(c, paused), sender, plan) == FlaggedTo(Rebalance(c, sender, plan), paused)
  {
    hide RebalanceFrom;
  }

  /** What pausing takes out of a run: the calls to the switch, and deposits that arrive while it is on. */
  ghost predicate TurnedAway(s: Sys, step: Step) {
    step.Do? && (step.tx.DoSetPaused? || (step.tx.DoDeposit? && s.core.config.paused))
  }

  lemma {:induction false} TurnedAwayDoesNothing(s: Sys, step: Step)
    requires TurnedAway(s, step)
    ensures FlaggedSys(Next(s, step), false) == FlaggedSys(s, false)
  {
  }

  lemma {:induction false} OthersGoAhead(s: Sys, tx: Tx)
    requires !TurnedAway(s, Do(tx))
    ensures Transact(FlaggedSys(s, false), tx) == FlaggedSys(Transact(s, tx), false)
  {
    hide Handle, Credited;
    var t := FlaggedSys(s, false);
    assert Credited(t.core, t.chain, tx) == Credited(s.core, s.chain, tx) by {
      CreditedFlagged(s.core, s.chain, tx);
    }
    if Credited(s.core, s.chain, tx).Some? {
      HandleFlagged(s, Credited(s.core, s.chain, tx).value, tx);
    }
    if Commits(s, tx) {
      SweptFlagged(s, t, tx);
    }
  }

  lemma {:induction false} CreditedFlagged(c: Core, q: Chain, tx: Tx)
    ensures Credited(Flagged(c, false), q, tx) == Credited(c, q, tx)
  {
  }

  lemma {:induction false} HandleFlagged(s: Sys, b: Chain, tx: Tx)
    requires !TurnedAway(s, Do(tx))
    ensures Handle(Flagged(s.core, false), b, tx) == FlaggedTo(Handle(s.core, b, tx), false)
  {
    hide Flagged, Deposit, FlaggedTo;
    if PauseBlind(tx) {
      hide Handle, Credited;
      PauseStopsOnlyDeposits(s.core, b, tx, false);
    } else {
      DepositFlagged(s.core, b, tx.sender, tx.funds);
    }
  }

  lemma {:induction false} SweptFlagged(s: Sys, t: Sys, tx: Tx)
    requires t == FlaggedSys(s, false) && Commits(s, tx) && Commits(t, tx)
    requires Attached(t, tx) == Attached(s, tx)
    requires Handled(t, tx) == Done(Flagged(Handled(s, tx).core, false), Handled(s, tx).msgs)
    ensures SweptAfter(t, tx) == SweptAfter(s, tx)
  {
    hide Commits, Attached, Handled, ReadOff;
    forall i: nat ensures IsRead(t, tx, i) == IsRead(s, tx, i) {
    }
  }

  lemma {:induction false} NextFlagged(s: Sys, step: Step)
    requires !TurnedAway(s, step)
    ensures Next(FlaggedSys(s, false), step) == FlaggedSys(Next(s, step), false)
  {
    hide Transact;
    if step.Do? {
      OthersGoAhead(s, step.tx);
    }
  }

  /** The run with everything pausing turned away left out. */
  ghost function WithoutPauses(s: Sys, steps: seq<Step>): seq<Step> {
    if steps == [] then []
    else
      var init, last := steps[..|steps| - 1], steps[|steps| - 1];
      WithoutPauses(s, init) + (if TurnedAway(After(s, init), last) then [] else [last])
  }

  /** Over any run, pausing amounts to turning away the deposits made meanwhile, and nothing else: leave
      those and the switch's own calls out of a run, and contract, chain and sweeps end the same. */
  lemma {:induction false} PausingTrapsNothing(s: Sys, steps: seq<Step>)
    ensures After(FlaggedSys(s, false), WithoutPauses(s, steps)) == FlaggedSys(After(s, steps), false)
  {
    hide TurnedAway, Next, FlaggedSys;
    if steps != [] {
      var init, last := steps[..|steps| - 1], steps[|steps| - 1];
      var m, t := After(s, init), FlaggedSys(s, false);
      PausingTrapsNothing(s, init);
      if TurnedAway(m, last) {
        TurnedAwayDoesNothing(m, last);
        assert WithoutPauses(s, steps) == WithoutPauses(s, init);
      } else {
        NextFlagged(m, last);
        assert WithoutPauses(s, steps)[..|WithoutPauses(s, steps)| - 1] == WithoutPauses(s, init);
      }
    }
  }

  // ---- whose terms ----

  /** What no message of the contract's own can change. */
  ghost predicate SameCharter(c: Core, d: Core) {
    && d.allowlist == c.allowlist
    && d.config.manager == c.config.manager && d.config.limits == c.config.limits
    && d.config.treasury == c.config.treasury && d.config.bondedDenom == c.config.bondedDenom
    && d.config.params == c.config.params.(performanceFeeBps := d.config.params.performanceFeeBps)
    && (c.config.token.Some? ==> d.config.token == c.config.token)
    && (c.config.deployer.None? ==> d.config.deployer.None?)
  }

  predicate SameRole(v: ValidatorEntry, u: ValidatorEntry) {
    u.address == v.address && u.weightBps == v.weightBps && u.status == v.status
  }

  predicate SameRoles(vs: seq<ValidatorEntry>, us: seq<ValidatorEntry>) {
    |us| == |vs| && forall i :: 0 <= i < |vs| ==> SameRole(vs[i], us[i])
  }

  /** The fee, the switch, and who validates with what weight. */
  predicate SameTerms(c: Core, d: Core) {
    && d.config.params.performanceFeeBps == c.config.params.performanceFeeBps
    && d.config.paused == c.config.paused
    && SameRoles(c.vals, d.vals)
  }

  /** A call that sets terms, made by the manager. */
  predicate SetsTerms(c: Core, step: Step) {
    && step.Do?
    && (match step.tx
        case DoSetWeights(sender, _) => sender == c.config.manager
        case DoSetFee(sender, _) => sender == c.config.manager
        case DoSetPaused(sender, _) => sender == c.config.manager
        case _ => false)
  }

  lemma {:induction false} DrawnRoles(vs: seq<ValidatorEntry>, legs: seq<UnbondLeg>)
    ensures SameRoles(vs, Drawn(vs, legs))
  {
    if legs != [] {
      DrawnRoles(vs, legs[..|legs| - 1]);
    }
  }

  lemma {:induction false} ReleasedRoles(vs: seq<ValidatorEntry>, names: seq<Addr>)
    ensures SameRoles(vs, Released(vs, names))
    decreases |names|
  {
    if names != [] {
      ReleasedRoles(ReleaseOne(vs, names[0]), names[1..]);
    }
  }

  lemma {:induction false} MovedRoles(vs: seq<ValidatorEntry>, plan: seq<RedelegateStep>, allowlist: seq<Addr>)
    requires RebalanceFrom(vs, plan, allowlist).Ok?
    ensures SameRoles(vs, RebalanceFrom(vs, plan, allowlist).value.0)
    decreases |plan|
  {
    if plan != [] {
      MovedRoles(Moved(vs, Find(vs, plan[0].src), Find(vs, plan[0].dst), plan[0].amount), plan[1..], allowlist);
    }
  }

  lemma {:induction false} OverdueTerms(c: Core, now: nat)
    ensures ClosedOpen(c, now).Ok? ==>
              SameCharter(c, ClosedOpen(c, now).value.core) && SameTerms(c, ClosedOpen(c, now).value.core)
    ensures ClosedIfOverdue(c, now).Ok? ==>
              SameCharter(c, ClosedIfOverdue(c, now).value.core) && SameTerms(c, ClosedIfOverdue(c, now).value.core)
  {
    hide Plan, Drawn, Close, OpenWindow;
    if ClosedOpen(c, now).Ok? {
      DrawnRoles(c.vals, Plan(c.vals, c.windows[c.openId].scrtOwed, c.config.params.maxUnbondEntries).value);
    }
  }

  lemma {:induction false} MatureTerms(c: Core, now: nat, balance: nat, limit: nat)
    ensures SameCharter(c, MatureDue(c, now, balance, limit).core)
    ensures SameTerms(c, MatureDue(c, now, balance, limit).core)
  {
    hide MatureFrom, Released;
    var m := MatureFrom(c.active, c.windows, now, balance, SumSeq(c.active, SpokenAt(c.windows)), Max(limit, 1));
    ReleasedRoles(c.vals, m.release);
  }

  lemma {:induction false} BootstrapTerms(c: Core, q: Chain, sender: Addr, token: Addr, funds: seq<Coin>)
    requires Bootstrap(c, q, sender, token, funds).Ok?
    ensures SameCharter(c, Bootstrap(c, q, sender, token, funds).value.core)
    ensures SameTerms(c, Bootstrap(c, q, sender, token, funds).value.core)
  {
    hide ExactFunds, Selected;
  }

  lemma {:induction false} DepositTerms(c: Core, q: Chain, sender: Addr, funds: seq<Coin>)
    requires Deposit(c, q, sender, funds).Ok?
    ensures SameCharter(c, Deposit(c, q, sender, funds).value.core)
    ensures SameTerms(c, Deposit(c, q, sender, funds).value.core)
  {
    hide SharesForDeposit, ClosedIfOverdue, Deposit;
    var deposit, r, shares, i, d := DepositForm(c, q, sender, funds);
    OverdueTerms(Placed(r, i, deposit, shares), q.now);
  }

  lemma {:induction false} UnbondTerms(c: Core, q: Chain, sender: Addr, from: Addr, amount: nat)
    requires Unbond(c, q, sender, from, amount).Ok?
    ensures SameCharter(c, Unbond(c, q, sender, from, amount).value.core)
    ensures SameTerms(c, Unbond(c, q, sender, from, amount).value.core)
  {
    hide AssetsForShares, ClosedIfOverdue, Unbond;
    var r, owed, d := UnbondForm(c, q, sender, from, amount);
    OverdueTerms(Promised(r, from, amount, owed), q.now);
  }

  lemma {:induction false} ClaimTerms(c: Core, q: Chain, who: Addr, ids: Option<seq<nat>>)
    requires ClaimMatured(c, q, who, ids).Ok?
    ensures SameCharter(c, ClaimMatured(c, q, who, ids).value.core)
    ensures SameTerms(c, ClaimMatured(c, q, who, ids).value.core)
  {
    hide MatureDue, ClaimFrom, ClaimMatured;
    var m, wanted, r := ClaimForm(c, q, who, ids);
    MatureTerms(c, q.now, q.balance, U32_MAX);
  }

  lemma {:induction false} CompoundTerms(c: Core, q: Chain, limit: Option<nat>)
    requires Compound(c, q, limit).Ok?
    ensures SameCharter(c, Compound(c, q, limit).value.core)
    ensures SameTerms(c, Compound(c, q, limit).value.core)
  {
    hide Compound, Restaked;
    var end, harvested, r := CompoundForm(c, q, limit);
    var vs := HarvestedSet(c.vals, q, c.cursor, end);
    if harvested == 0 {
      RestakesNothing(c, vs, q.balance);
    } else {
      var i, fee := RestakeForm(c, vs, q.balance, harvested);
    }
  }

  /** A call leaves the charter alone, and the terms too unless the manager sets them. */
  lemma {:induction false} HandleTerms(c: Core, q: Chain, tx: Tx)
    requires Handle(c, q, tx).Ok?
    ensures SameCharter(c, Handle(c, q, tx).value.core)
    ensures !SetsTerms(c, Do(tx)) ==> SameTerms(c, Handle(c, q, tx).value.core)
  {
    hide Deposit, Unbond, ClaimMatured, MatureDue, ClosedOpen, Compound, RebalanceFrom, ManagedVerdict, WeightsApplied,
         Bootstrap;
    match tx {
      case DoBootstrap(sender, token, funds) => BootstrapTerms(c, q, sender, token, funds);
      case DoDeposit(sender, funds) => DepositTerms(c, q, sender, funds);
      case DoUnbond(from, n) => UnbondTerms(c, q, if c.config.token.Some? then c.config.token.value else from, from, n);
      case DoClaim(who, ids) => ClaimTerms(c, q, who, ids);
      case DoAdvance => OverdueTerms(c, q.now);
      case DoCollect(limit) =>
        MatureTerms(c, q.now, q.balance, if limit.Some? then limit.value else DEFAULT_SYNC_LIMIT);
      case DoCompound(limit) => CompoundTerms(c, q, limit);
      case DoRebalance(sender, plan) => MovedRoles(c.vals, plan, c.allowlist);
      case _ =>
    }
  }

  lemma {:induction false} NextTerms(s: Sys, step: Step)
    ensures SameCharter(s.core, Next(s, step).core)
    ensures !SetsTerms(s.core, step) ==> SameTerms(s.core, Next(s, step).core)
  {
    hide Handle, Credited;
    if step.Do? && Commits(s, step.tx) {
      HandleTerms(s.core, Attached(s, step.tx), step.tx);
    }
  }

  /** Over any run, manager, limits, allowlist, treasury, denomination, every parameter but the fee, and
      the token once registered, are what they were; and a run in which the manager sets no terms ends
      with the fee, the switch, the set, its weights and its statuses it began with. */
  lemma {:induction false} OnlyTheManagerSetsTerms(s: Sys, steps: seq<Step>)
    ensures SameCharter(s.core, After(s, steps).core)
    ensures (forall i :: 0 <= i < |steps| ==> !SetsTerms(s.core, steps[i])) ==> SameTerms(s.core, After(s, steps).core)
  {
    if steps != [] {
      hide Next, SetsTerms;
      var init, last := steps[..|steps| - 1], steps[|steps| - 1];
      var m := After(s, init);
      OnlyTheManagerSetsTerms(s, init);
      NextTerms(m, last);
      SameManager(s.core, m.core, last);
    }
  }

  lemma {:induction false} SameManager(c: Core, d: Core, step: Step)
    requires SameCharter(c, d)
    ensures SetsTerms(d, step) == SetsTerms(c, step)
  {
  }

  /** The fee stays within the limits fixed at instantiation, and those within the code's. */
  lemma {:induction false} FeeStaysBounded(s: Sys, steps: seq<Step>)
    requires Fresh(s)
    ensures After(s, steps).core.config.params.performanceFeeBps
            <= s.core.config.limits.maxPerformanceFeeBps <= MAX_PERFORMANCE_FEE_BPS
  {
    hide Fresh;
    ReachableOk(s, steps);
    OnlyTheManagerSetsTerms(s, steps);
  }
}
