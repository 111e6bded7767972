/** Instantiation, bootstrap, and the manager: what is accepted, from whom, and what it leaves for the
    rest of the run. */
module Governing {
  import opened Prelude
  import opened Sums
  import opened Types
  import opened Math
  import opened Windows
  import opened Validators
  import opened Chain
  import opened Engine
  import opened Invariants
  import opened Roster
  import opened Keeping
  import opened System
  import opened Reach
  import opened Commitments
  import opened Sharing
  import opened Authority
  import opened Weighting
  import opened Charging
  import opened Mirror

  // ---- instantiation ----

  /** What a set of terms must satisfy: fees and ceilings within the code's; fewer entry slots than the
      chain has; windows long enough that the unbonding period spans fewer of them than there are slots;
      and weights the manager could set. */
  ghost predicate TermsAllowed(m: InstantiateMsg) {
    var p, l := m.params, m.limits;
    && p.performanceFeeBps <= l.maxPerformanceFeeBps <= 2_000
    && 0 < l.maxValidatorWeightBps <= 2_500
    && 0 < p.maxUnbondEntries < 7
    && p.unbondWindowSecs > 0 && p.unbondingPeriodSecs <= (p.maxUnbondEntries - 1) * p.unbondWindowSecs
    && |m.allowlist| <= 20
    && ManagedWeights(m.validators, m.allowlist, l.maxValidatorWeightBps)
  }

  lemma {:induction false} SlotsRequired(period: nat, window: nat, slots: nat)
    requires 0 < slots < 7
    ensures RequiredEntrySlots(period, window) <= slots <==> window > 0 && period <= (slots - 1) * window
  {
    if window > 0 {
      DivCeilLeast(period, window, slots - 1);
    }
  }

  /** Instantiation is accepted exactly on allowed terms, and starts from what the message says: the
      manager it names, or else the sender. */
  lemma {:induction false} InstantiateAccepted(m: InstantiateMsg, sender: Addr, now: nat)
    ensures Instantiated(m, sender, now).Ok? <==> TermsAllowed(m)
    ensures Instantiated(m, sender, now).Ok? ==>
              var c := Instantiated(m, sender, now).value;
              && c.config.manager == (match m.manager case Some(a) => a case None => sender)
              && c.config.deployer == Some(sender) && c.config.token == None && !c.config.paused
              && c.config.limits == m.limits && c.config.params == m.params
              && c.config.treasury == m.treasury && c.config.bondedDenom == m.bondedDenom
              && c.allowlist == m.allowlist
              && |c.vals| == |m.validators|
              && (forall i :: 0 <= i < |c.vals| ==>
                    c.vals[i] == ValidatorEntry(m.validators[i].address, m.validators[i].weightBps, Active, 0, 0, 0))
              && c.windows == [UnbondWindow(0, now, now + m.params.unbondWindowSecs, 0, 0, 0, None, 0, [], Open)]
  {
    hide ManagedVerdict, SetVerdict, RequiredEntrySlots, ManagedWeights;
    if 0 < m.params.maxUnbondEntries < 7 {
      SlotsRequired(m.params.unbondingPeriodSecs, m.params.unbondWindowSecs, m.params.maxUnbondEntries);
    }
    ManagedVerdictMeaning(m.validators, m.allowlist, m.limits.maxValidatorWeightBps);
    ManagedIsSet(m.validators, m.allowlist, m.limits.maxValidatorWeightBps);
  }

  lemma {:induction false} ManagedIsSet(ws: seq<ValidatorInit>, allowlist: seq<Addr>, maxBps: nat)
    ensures ManagedWeights(ws, allowlist, maxBps) ==> SetVerdict(ws).Ok?
  {
  }

  /** Who manages the contract is settled at instantiation, for every run after it. */
  lemma {:induction false} NamedManagerStays(s: Sys, m: InstantiateMsg, sender: Addr, steps: seq<Step>)
    requires Instantiated(m, sender, s.chain.now) == Ok(s.core)
    ensures After(s, steps).core.config.manager == (match m.manager case Some(a) => a case None => sender)
    ensures After(s, steps).core.config.treasury == m.treasury
    ensures After(s, steps).core.allowlist == m.allowlist
  {
    hide Instantiated, After;
    InstantiateAccepted(m, sender, s.chain.now);
    OnlyTheManagerSetsTerms(s, steps);
  }

  // ---- bootstrap ----

  ghost predicate BootstrapFits(c: Core, sender: Addr, funds: seq<Coin>) {
    && c.config.deployer == Some(sender) && c.config.token == None
    && |funds| == 1 && funds[0].denom == c.config.bondedDenom && funds[0].amount >= MIN_BOOTSTRAP_SEED
    && SumSeq(c.vals, Bonded) + funds[0].amount <= U128_MAX
  }

  lemma {:induction false} BootstrapOkWhen(c: Core, b: Chain, sender: Addr, token: Addr, funds: seq<Coin>)
    requires CoreOk(c)
    ensures Bootstrap(c, b, sender, token, funds).Ok? <==> BootstrapFits(c, sender, funds)
  {
    hide CoreOk, Selected;
    var i := ActiveOne(c);
    if |funds| == 1 {
      SelectedWhen(c.vals, funds[0].amount);
    }
  }

  lemma {:induction false} ActiveOne(c: Core) returns (i: nat)
    requires CoreOk(c)
    ensures i < |c.vals| && SumSeq(c.vals, ActiveWeight) > 0
  {
    i := SomeoneIsActive(c.vals);
  }

  /** Bootstrap is accepted once, from the deployer, with the seed; it mints as many shares to the contract
      itself, delegates the seed, and registers the token. */
  lemma {:induction false} BootstrapAccepted(s: Sys, sender: Addr, token: Addr, funds: seq<Coin>)
    requires SysOk(s)
    ensures Commits(s, DoBootstrap(sender, token, funds)) <==> BootstrapFits(s.core, sender, funds)
  {
    hide CoreOk, ChainOk, SweptOk, Bootstrap, BootstrapFits;
    var c, q, b := s.core, s.chain, Credited(s.core, s.chain, DoBootstrap(sender, token, funds)).value;
    BootstrapOkWhen(c, b, sender, token, funds);
    if Bootstrap(c, b, sender, token, funds).Ok? {
      var seed, i := BootstrapForm(c, b, sender, token, funds);
      CoinsExact(funds, c.config.bondedDenom);
      SeedRuns(b, seed, c.vals[i].address);
    }
  }

  lemma {:induction false} SeedRuns(b: Chain, seed: nat, v: Addr)
    requires 0 < seed <= b.balance
    ensures Run(b, [RegisterReceive, Mint(SELF, seed), Delegate(v, seed)]).Some?
    ensures var r := Run(b, [RegisterReceive, Mint(SELF, seed), Delegate(v, seed)]).value;
            r.supply == b.supply + seed && r.ownTokens == b.ownTokens + seed
  {
    var m, d := Mint(SELF, seed), Delegate(v, seed);
    RunTwo(b, m, d);
    assert [RegisterReceive, m, d][1..] == [m, d];
  }

  lemma {:induction false} BootstrapDoes(s: Sys, sender: Addr, token: Addr, funds: seq<Coin>) returns (i: nat)
    requires SysOk(s) && Commits(s, DoBootstrap(sender, token, funds))
    ensures var c, q, t := s.core, s.chain, Transact(s, DoBootstrap(sender, token, funds));
            && BootstrapFits(c, sender, funds)
            && (var seed := funds[0].amount;
                && GoesTo(c.vals, Bonded, seed, i) && i < |c.vals|
                && Handled(s, DoBootstrap(sender, token, funds)).msgs
                   == [RegisterReceive, Mint(SELF, seed), Delegate(c.vals[i].address, seed)]
                && t.chain.supply == q.supply + seed && t.chain.ownTokens == q.ownTokens + seed
                && t.core.config == c.config.(deployer := None, token := Some(token)))
  {
    hide CoreOk, ChainOk, SweptOk, Bootstrap, BootstrapFits, SweptAfter, GoesTo;
    var c, q, b := s.core, s.chain, Attached(s, DoBootstrap(sender, token, funds));
    BootstrapOkWhen(c, b, sender, token, funds);
    var seed, j := BootstrapForm(c, b, sender, token, funds);
    i := j;
    CoinsExact(funds, c.config.bondedDenom);
    DelegationGoesToShortest(c.vals, seed);
    SeedRuns(b, seed, c.vals[i].address);
    SeedIs(c, sender, funds, seed);
  }

  lemma {:induction false} SeedIs(c: Core, sender: Addr, funds: seq<Coin>, seed: nat)
    requires ExactFunds(funds, c.config.bondedDenom) == Ok(seed)
    ensures |funds| == 1 && funds[0].amount == seed
  {
  }

  // ---- fee and switch ----

  /** The fee the manager last set within the limit, or the one there was to begin with. */
  function LastFee(manager: Addr, limit: nat, first: nat, steps: seq<Step>): nat {
    if steps == [] then first
    else
      var last := steps[|steps| - 1];
      if last.Do? && last.tx.DoSetFee? && last.tx.sender == manager && last.tx.bps <= limit then last.tx.bps
      else LastFee(manager, limit, first, steps[..|steps| - 1])
  }

  /** Where the manager last put the switch. */
  function LastSwitch(manager: Addr, first: bool, steps: seq<Step>): bool {
    if steps == [] then first
    else
      var last := steps[|steps| - 1];
      if last.Do? && last.tx.DoSetPaused? && last.tx.sender == manager then last.tx.paused
      else LastSwitch(manager, first, steps[..|steps| - 1])
  }

  lemma {:induction false} QuietCommit(s: Sys, tx: Tx)
    requires (tx.DoSetFee? || tx.DoSetPaused? || tx.DoSetWeights?)
    ensures Commits(s, tx) <==> Handle(s.core, s.chain, tx).Ok?
    ensures Commits(s, tx) ==> Transact(s, tx).core == Handle(s.core, s.chain, tx).value.core
  {
    hide ManagedVerdict, WeightsApplied;
  }

  lemma {:induction false} NextTermsAre(s: Sys, step: Step)
    ensures Next(s, step).core.config.params.performanceFeeBps
         == LastFee(s.core.config.manager, s.core.config.limits.maxPerformanceFeeBps,
                    s.core.config.params.performanceFeeBps, [step])
    ensures Next(s, step).core.config.paused == LastSwitch(s.core.config.manager, s.core.config.paused, [step])
  {
    hide Bootstrap, Deposit, Unbond, ClaimMatured, AdvanceWindow, CollectMatured, Sync, Compound, SetWeights, Rebalance,
         Transact, Commits;
    assert [step][..0] == [];
    if step.Do? {
      TermsStepped(s, step.tx);
    }
  }

  lemma {:induction false} TermsStepped(s: Sys, tx: Tx)
    ensures var c, d := s.core, Transact(s, tx).core;
            && d.config.params.performanceFeeBps
               == (if tx.DoSetFee? && tx.sender == c.config.manager && tx.bps <= c.config.limits.maxPerformanceFeeBps
                   then tx.bps else c.config.params.performanceFeeBps)
            && d.config.paused
               == (if tx.DoSetPaused? && tx.sender == c.config.manager then tx.paused else c.config.paused)
  {
    hide Handle, Credited, SweptAfter;
    if tx.DoSetFee? || tx.DoSetPaused? {
      hide Transact, Commits;
      QuietCommit(s, tx);
      ManagerOnly(s, tx);
    } else if Commits(s, tx) {
      OthersKeepTerms(s, tx);
    }
  }

  lemma {:induction false} OthersKeepTerms(s: Sys, tx: Tx)
    requires Commits(s, tx) && !tx.DoSetFee? && !tx.DoSetPaused?
    ensures Transact(s, tx).core.config.params.performanceFeeBps == s.core.config.params.performanceFeeBps
    ensures Transact(s, tx).core.config.paused == s.core.config.paused
  {
    hide Handle, Credited, SweptAfter;
    if tx.DoSetWeights? {
      hide Transact, Commits;
      QuietCommit(s, tx);
      WeightsKeepConfig(s.core, s.chain, tx);
    } else {
      HandleTerms(s.core, Attached(s, tx), tx);
    }
  }

  lemma {:induction false} WeightsKeepConfig(c: Core, q: Chain, tx: Tx)
    requires tx.DoSetWeights? && Handle(c, q, tx).Ok?
    ensures Handle(c, q, tx).value.core.config == c.config
  {
    hide ManagedVerdict, WeightsApplied;
  }

  lemma {:induction false} ManagerOnly(s: Sys, tx: Tx)
    requires tx.DoSetFee? || tx.DoSetPaused?
    requires Commits(s, tx) ==> Transact(s, tx).core == Handle(s.core, s.chain, tx).value.core
    requires Commits(s, tx) <==> Handle(s.core, s.chain, tx).Ok?
    requires !Commits(s, tx) ==> Transact(s, tx) == s
    ensures var c, d := s.core, Transact(s, tx).core;
            && d.config.params.performanceFeeBps
               == (if tx.DoSetFee? && tx.sender == c.config.manager && tx.bps <= c.config.limits.maxPerformanceFeeBps
                   then tx.bps else c.config.params.performanceFeeBps)
            && d.config.paused
               == (if tx.DoSetPaused? && tx.sender == c.config.manager then tx.paused else c.config.paused)
  {
    hide Transact, Commits;
  }

  /** Over any run the fee is the one the manager last set within the limit, and the switch stands where
      the manager last put it; nothing anybody else calls, nor any refused call, moves either. */
  lemma {:induction false} TermsAreTheLastSet(s: Sys, steps: seq<Step>)
    ensures var c, k := After(s, steps).core, s.core.config;
            && c.config.params.performanceFeeBps
               == LastFee(k.manager, k.limits.maxPerformanceFeeBps, k.params.performanceFeeBps, steps)
            && c.config.paused == LastSwitch(k.manager, k.paused, steps)
  {
    if steps != [] {
      hide Next;
      var init, last := steps[..|steps| - 1], steps[|steps| - 1];
      var m := After(s, init);
      TermsAreTheLastSet(s, init);
      OnlyTheManagerSetsTerms(s, init);
      NextTermsAre(m, last);
      assert [last][..0] == [];
    }
  }

  // ---- rebalancing ----

  function ToIn(a: Addr): RedelegateStep -> nat {
    (r: RedelegateStep) => if r.dst == a then r.amount else 0
  }

  function FromIn(a: Addr): RedelegateStep -> nat {
    (r: RedelegateStep) => if r.src == a then r.amount else 0
  }

  /** Step `k` moves stake between validators of the set, to an allowed one, out of what its source holds
      once the steps before it are done. */
  ghost predicate StepFits(vs: seq<ValidatorEntry>, plan: seq<RedelegateStep>, allowlist: seq<Addr>, k: nat)
    requires k < |plan|
  {
    var a := plan[k].src;
    && plan[k].dst in allowlist && plan[k].dst in Addresses(vs)
    && exists i :: 0 <= i < |vs| && vs[i].address == a
         && plan[k].amount + SumSeq(plan[..k], FromIn(a)) <= vs[i].bonded + SumSeq(plan[..k], ToIn(a))
  }

  ghost predicate PlanFits(vs: seq<ValidatorEntry>, plan: seq<RedelegateStep>, allowlist: seq<Addr>) {
    forall k :: 0 <= k < |plan| ==> StepFits(vs, plan, allowlist, k)
  }

  /** Shifting one step: what later steps find after the first is done. */
  lemma {:induction false} StepAfterFirst(vs: seq<ValidatorEntry>, plan: seq<RedelegateStep>, allowlist: seq<Addr>,
        i: nat, j: nat, k: nat)
    requires Distinct(Addresses(vs)) && plan != [] && k < |plan| - 1 && i < |vs| && j < |vs|
    requires vs[i].address == plan[0].src && vs[j].address == plan[0].dst && plan[0].amount <= vs[i].bonded
    ensures StepFits(Moved(vs, i, j, plan[0].amount), plan[1..], allowlist, k) <==> StepFits(vs, plan, allowlist, k + 1)
  {
    var us, a := Moved(vs, i, j, plan[0].amount), plan[k + 1].src;
    assert plan[1..][k] == plan[k + 1] && plan[..k + 1][0] == plan[0] && plan[..k + 1][1..] == plan[1..][..k];
    SumCons(plan[..k + 1], FromIn(a));
    SumCons(plan[..k + 1], ToIn(a));
    assert Addresses(us) == Addresses(vs);
    forall n | 0 <= n < |vs|
      ensures us[n].address == vs[n].address
      ensures us[n].bonded + (if n == i then plan[0].amount else 0) == vs[n].bonded + (if n == j then plan[0].amount else 0)
      ensures (vs[n].address == vs[i].address <==> n == i) && (vs[n].address == vs[j].address <==> n == j)
    {
      OnlyOneAt(vs, n, i);
      OnlyOneAt(vs, n, j);
    }
  }

  function AsMsg(r: RedelegateStep): Msg { Redelegate(r.src, r.dst, r.amount) }

  function AsMsgs(plan: seq<RedelegateStep>): seq<Msg> {
    seq(|plan|, k requires 0 <= k < |plan| => AsMsg(plan[k]))
  }

  lemma {:induction false} FirstFits(vs: seq<ValidatorEntry>, plan: seq<RedelegateStep>, allowlist: seq<Addr>)
    requires Distinct(Addresses(vs)) && plan != []
    ensures var s := plan[0];
            var i, j := Find(vs, s.src), Find(vs, s.dst);
            StepFits(vs, plan, allowlist, 0)
            <==> s.dst in allowlist && i < |vs| && j < |vs| && s.amount <= vs[i].bonded
  {
    assert plan[..0] == [];
    var i := Find(vs, plan[0].src);
    forall n | 0 <= n < |vs| && vs[n].address == plan[0].src ensures n == i {
      assert plan[0].src == Addresses(vs)[n];
      OnlyOneAt(vs, n, i);
    }
  }

  /** A plan is accepted exactly when every step fits; it sends one redelegation per step, in order, from
      the step's source to its destination. */
  lemma {:induction false} RebalancePlanAccepted(vs: seq<ValidatorEntry>, plan: seq<RedelegateStep>,
        allowlist: seq<Addr>)
    requires Distinct(Addresses(vs))
    ensures RebalanceFrom(vs, plan, allowlist).Ok? <==> PlanFits(vs, plan, allowlist)
    ensures RebalanceFrom(vs, plan, allowlist).Ok? ==> RebalanceFrom(vs, plan, allowlist).value.1 == AsMsgs(plan)
    decreases |plan|
  {
    hide StepFits, Moved;
    if plan != [] {
      var s := plan[0];
      var i, j := Find(vs, s.src), Find(vs, s.dst);
      FirstFits(vs, plan, allowlist);
      if StepFits(vs, plan, allowlist, 0) {
        var us := Moved(vs, i, j, s.amount);
        MovedAddresses(vs, i, j, s.amount);
        RebalancePlanAccepted(us, plan[1..], allowlist);
        RestFits(vs, plan, allowlist, i, j);
        assert [AsMsg(s)] + AsMsgs(plan[1..]) == AsMsgs(plan);
      }
    }
  }

  lemma {:induction false} MovedAddresses(vs: seq<ValidatorEntry>, i: nat, j: nat, n: nat)
    requires i < |vs| && j < |vs| && n <= vs[i].bonded
    ensures Addresses(Moved(vs, i, j, n)) == Addresses(vs)
  {
  }

  lemma {:induction false} RestFits(vs: seq<ValidatorEntry>, plan: seq<RedelegateStep>, allowlist: seq<Addr>, i: nat,
        j: nat)
    requires Distinct(Addresses(vs)) && plan != [] && i < |vs| && j < |vs| && StepFits(vs, plan, allowlist, 0)
    requires vs[i].address == plan[0].src && vs[j].address == plan[0].dst && plan[0].amount <= vs[i].bonded
    ensures PlanFits(vs, plan, allowlist) <==> PlanFits(Moved(vs, i, j, plan[0].amount), plan[1..], allowlist)
  {
    hide StepFits, Moved;
    var us := Moved(vs, i, j, plan[0].amount);
    forall k | 0 <= k < |plan| - 1
      ensures StepFits(us, plan[1..], allowlist, k) <==> StepFits(vs, plan, allowlist, k + 1)
    {
      StepAfterFirst(vs, plan, allowlist, i, j, k);
    }
    if PlanFits(us, plan[1..], allowlist) {
      forall k | 0 <= k < |plan| ensures StepFits(vs, plan, allowlist, k) {
        if k > 0 {
          assert StepFits(us, plan[1..], allowlist, k - 1);
        }
      }
    }
    if PlanFits(vs, plan, allowlist) {
      forall k | 0 <= k < |plan[1..]| ensures StepFits(us, plan[1..], allowlist, k) {
        assert StepFits(vs, plan, allowlist, k + 1);
      }
    }
  }

  /** Only the manager rebalances, and every plan that fits is accepted. */
  lemma {:induction false} RebalanceAccepted(c: Core, sender: Addr, plan: seq<RedelegateStep>)
    requires CoreOk(c)
    ensures Rebalance(c, sender, plan).Ok? <==> sender == c.config.manager && PlanFits(c.vals, plan, c.allowlist)
    ensures Rebalance(c, sender, plan).Ok? ==> Rebalance(c, sender, plan).value.msgs == AsMsgs(plan)
  {
    hide CoreOk, PlanFits, RebalanceFrom;
    SetDistinct(c);
    RebalancePlanAccepted(c.vals, plan, c.allowlist);
  }

  /** Only the manager sets weights, and every assignment that meets the ceilings is accepted. */
  lemma {:induction false} SetWeightsAccepted(c: Core, sender: Addr, ws: seq<ValidatorInit>)
    ensures SetWeights(c, sender, ws).Ok?
            <==> sender == c.config.manager && ManagedWeights(ws, c.allowlist, c.config.limits.maxValidatorWeightBps)
  {
    hide ManagedVerdict, ManagedWeights;
    ManagedVerdictMeaning(ws, c.allowlist, c.config.limits.maxValidatorWeightBps);
  }
}
