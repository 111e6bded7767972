/** One concrete run, to show that two conditions of the theorems cannot be dropped: the chain must
    have returned what is due before a window is marked matured, and SCRT returned for a window not
    yet marked is paid out to whoever withdraws first. */
module Example {
  import opened Prelude
  import opened Sums
  import opened Types
  import opened Math
  import opened Windows
  import opened Validators
  import opened Plans
  import opened Chain
  import opened Engine
  import opened Invariants
  import Maturing
  import opened Keeping
  import opened System
  import opened Reach
  import opened History
  import opened Limits
  import opened Commitments
  import opened Worth
  import opened Sharing

  const M: nat := 1_000_000

  const NAMES: seq<Addr> := ["a", "b", "c", "d"]

  const PARAMS := ProtocolParams(10, 20, 0, 1, 6)

  const LIMITS := ManagerLimits(2_000, 2_500)

  const WEIGHTS: seq<ValidatorInit> :=
    [ValidatorInit("a", 2_500), ValidatorInit("b", 2_500), ValidatorInit("c", 2_500), ValidatorInit("d", 2_500)]

  function Entry(a: Addr, bonded: nat, slots: nat): ValidatorEntry {
    ValidatorEntry(a, 2_500, Active, bonded, 0, slots)
  }

  function Four(x: nat, y: nat, slots: nat): seq<ValidatorEntry> {
    [Entry("a", x, 0), Entry("b", y, slots), Entry("c", 0, 0), Entry("d", 0, 0)]
  }

  const FIRST := InstantiateMsg(None, LIMITS, NAMES, "treasury", "uscrt", WEIGHTS, PARAMS)

  function ConfigWith(deployer: Option<Addr>, token: Option<Addr>): Config {
    Config("dep", deployer, LIMITS, "treasury", token, "uscrt", PARAMS, false)
  }

  lemma {:induction false} SumFour<T>(a: T, b: T, c: T, d: T, f: T -> nat)
    ensures SumSeq([a, b, c, d], f) == f(a) + f(b) + f(c) + f(d)
  {
    assert [a, b, c, d] == [a, b, c] + [d] && [a, b, c] == [a, b] + [c] && [a, b] == [a] + [b] && [a] == [] + [a];
    SumSnoc([a, b, c], d, f);
    SumSnoc([a, b], c, f);
    SumSnoc([a], b, f);
    SumSnoc([], a, f);
  }

  lemma {:induction false} FourTotals(x: nat, y: nat, slots: nat)
    ensures TotalBonded(Four(x, y, slots)) == x + y && TotalRewards(Four(x, y, slots)) == 0
  {
    SumFour(Entry("a", x, 0), Entry("b", y, slots), Entry("c", 0, 0), Entry("d", 0, 0), Bonded);
    SumFour(Entry("a", x, 0), Entry("b", y, slots), Entry("c", 0, 0), Entry("d", 0, 0), Rewards);
  }

  // ---- the states of the run ----

  const C0 := Core(ConfigWith(Some("dep"), None), NAMES, Four(0, 0, 0), TotalsCache(0, 0, 0, 0, 0, 0, 0),
                   [OpenWindow(0, 0, 10)], 0, [], 0, map[], map[])

  const Q0: Chain := Chain(0, 0, map[], [], 0, 0, 20)

  const C1 := C0.(config := ConfigWith(None, Some("t")), vals := Four(10 * M, 0, 0),
                  totals := TotalsCache(10 * M, 0, 10 * M, 0, 0, 0, 0))

  const Q1 := Q0.(delegations := map["a" := Delegation(10 * M, 0)], supply := 10 * M, ownTokens := 10 * M)

  lemma {:induction false} Step0()
    ensures Instantiated(FIRST, "dep", 0) == Ok(C0)
  {
    hide InitialSet, FirstFault;
    TheSet();
    assert InitAddresses(WEIGHTS) == NAMES;
    SumFour(WEIGHTS[0], WEIGHTS[1], WEIGHTS[2], WEIGHTS[3], Weight);
    FirstFaultMeaning(WEIGHTS, NAMES, 2_500);
  }

  lemma {:induction false} TheSet()
    ensures InitialSet(WEIGHTS) == Four(0, 0, 0)
  {
  }

  lemma {:induction false} Chosen(x: nat, y: nat, n: nat, i: nat)
    requires x + y + n <= U128_MAX && i < 4
    requires var vs := Four(x, y, 0);
             forall k :: 0 <= k < 4 && k != i ==> if k < i then Deficit(vs[k], x + y + n) < Deficit(vs[i], x + y + n)
                                                  else Deficit(vs[k], x + y + n) <= Deficit(vs[i], x + y + n)
    ensures Selected(Four(x, y, 0), n) == Ok(i)
  {
    FourTotals(x, y, 0);
    var vs := Four(x, y, 0);
    var r := BestOf(vs, x + y + n, |vs|);
    assert vs[0].status == Active && vs[i].status == Active;
    assert r.Some?;
    assert Deficit(vs[i], x + y + n) <= Deficit(vs[r.value], x + y + n);
  }

  lemma {:induction false} Step1()
    ensures Handle(C0, Q0.(balance := 10 * M), DoBootstrap("dep", "t", [Coin("uscrt", 10 * M)]))
            == Ok(Done(C1, [RegisterReceive, Mint(SELF, 10 * M), Delegate("a", 10 * M)]))
  {
    Chosen(0, 0, 10 * M, 0);
    assert C0.vals[0 := C0.vals[0].(bonded := 10 * M)] == Four(10 * M, 0, 0);
  }

  lemma {:induction false} Step1Runs()
    ensures Run(Q0.(balance := 10 * M), [RegisterReceive, Mint(SELF, 10 * M), Delegate("a", 10 * M)]) == Some(Q1)
  {
    var ms := [RegisterReceive, Mint(SELF, 10 * M), Delegate("a", 10 * M)];
    var q := Q0.(balance := 10 * M);
    assert ms[1..] == [Mint(SELF, 10 * M), Delegate("a", 10 * M)];
    RunTwo(q, Mint(SELF, 10 * M), Delegate("a", 10 * M));
  }

  // a deposit of 20M: 20M shares at par, delegated to "b"

  const C2 := C1.(vals := Four(10 * M, 20 * M, 0), totals := TotalsCache(30 * M, 0, 30 * M, 0, 0, 0, 0))

  const Q2 := Q1.(delegations := map["a" := Delegation(10 * M, 0), "b" := Delegation(20 * M, 0)], supply := 30 * M)

  lemma {:induction false} FourReread(x: nat, y: nat, slots: nat, q: Chain)
    requires q.BondedAt("a") == x && q.BondedAt("b") == y && q.BondedAt("c") == q.BondedAt("d") == 0
    requires q.RewardsAt("a") == q.RewardsAt("b") == q.RewardsAt("c") == q.RewardsAt("d") == 0
    ensures Reread(Four(x, y, slots), q, 0, 4) == Four(x, y, slots)
  {
    var vs := Four(x, y, slots);
    forall i | 0 <= i < 4 ensures ReadDelegation(vs[i], q) == vs[i] {
      assert vs[i].address in NAMES;
    }
  }

  lemma {:induction false} Step2()
    ensures Handle(C1, Q1.(balance := 20 * M), DoDeposit("u", [Coin("uscrt", 20 * M)]))
            == Ok(Done(C2, [Mint("u", 20 * M), Delegate("b", 20 * M)]))
  {
    hide Refreshed, Selected, SharesForDeposit, ClosedIfOverdue, Placed, Deposit, Handle;
    HandlesDeposit(C1, Q1.(balance := 20 * M), "u", [Coin("uscrt", 20 * M)]);
    assert C1.vals[1].address == "b";
    Step2Reads();
    Step2Prices();
    Step2Places();
    Chosen(10 * M, 0, 20 * M, 1);
    DepositIs(C1, Q1.(balance := 20 * M), "u", [Coin("uscrt", 20 * M)], 20 * M, C1, 20 * M, 1, Done(C2, []));
    assert [Mint("u", 20 * M), Delegate("b", 20 * M)] + [] == [Mint("u", 20 * M), Delegate("b", 20 * M)];
  }

  lemma {:induction false} HandlesDeposit(c: Core, q: Chain, sender: Addr, funds: seq<Coin>)
    ensures Handle(c, q, DoDeposit(sender, funds)) == Deposit(c, q, sender, funds)
  {
    hide Deposit;
  }

  /** A deposit that passes every check, from the outcomes of its stages. */
  lemma {:induction false} DepositIs(c: Core, q: Chain, sender: Addr, funds: seq<Coin>, n: nat, r: Core,
        shares: nat, i: nat, d: Done)
    requires !c.config.paused && c.config.token.Some? && n >= c.config.params.minDeposit
    requires ExactFunds(funds, c.config.bondedDenom) == Ok(n) && Refreshed(c, q) == Ok(r)
    requires SharesForDeposit(n, PoolOf(r.totals, q.balance, n)) == Ok(shares) && 0 < shares
    requires r.totals.totalSupply + shares <= MAX_TOTAL_SUPPLY
    requires Selected(r.vals, n) == Ok(i) && ClosedIfOverdue(Placed(r, i, n, shares), q.now) == Ok(d)
    ensures Deposit(c, q, sender, funds) == Ok(Done(d.core, [Mint(sender, shares), Delegate(r.vals[i].address, n)] + d.msgs))
  {
  }

  lemma {:induction false} Step2Reads()
    ensures Refreshed(C1, Q1.(balance := 20 * M)) == Ok(C1)
  {
    FourReread(10 * M, 0, 0, Q1.(balance := 20 * M));
    FourTotals(10 * M, 0, 0);
  }

  lemma {:induction false} Step2Prices()
    ensures SharesForDeposit(20 * M, PoolOf(C1.totals, 20 * M, 20 * M)) == Ok(20 * M)
  {
  }

  lemma {:induction false} Step2Places()
    ensures Placed(C1, 1, 20 * M, 20 * M) == C2
    ensures ClosedIfOverdue(C2, 0) == Ok(Done(C2, []))
  {
    assert C1.vals[1 := C1.vals[1].(bonded := 20 * M)] == Four(10 * M, 20 * M, 0);
  }

  lemma {:induction false} Step2Runs()
    ensures Run(Q1.(balance := 20 * M), [Mint("u", 20 * M), Delegate("b", 20 * M)]) == Some(Q2)
  {
    RunTwo(Q1.(balance := 20 * M), Mint("u", 20 * M), Delegate("b", 20 * M));
  }

  // a withdrawal of 10M shares joins window 0

  const W0 := OpenWindow(0, 0, 10).(sharesBurned := 10 * M, scrtOwed := 10 * M)

  const C3 := C2.(windows := [W0], totals := TotalsCache(30 * M, 0, 20 * M, 10 * M, 0, 0, 0),
                  claims := map[ClaimKey("u", 0) := ClaimRecord(0, 10 * M, 10 * M, false)], index := map["u" := [0]])

  const Q3 := Q2.(supply := 20 * M)

  lemma {:induction false} Step3()
    ensures Handle(C2, Q2.(ownTokens := 20 * M), DoUnbond("u", 10 * M)) == Ok(Done(C3, [Burn(10 * M)]))
  {
    var q := Q2.(ownTokens := 20 * M);
    FourReread(10 * M, 20 * M, 0, q);
    FourTotals(10 * M, 20 * M, 0);
    assert Refreshed(C2, q) == Ok(C2);
    assert C2.windows[0 := W0] == [W0];
    assert IndexFor(C2.index, "u") + [0] == [0];
    assert Promised(C2, "u", 10 * M, 10 * M) == C3;
    assert ClosedIfOverdue(C3, 0) == Ok(Done(C3, []));
    assert [Burn(10 * M)] + [] == [Burn(10 * M)];
  }

  lemma {:induction false} Step3Runs()
    ensures Run(Q2.(ownTokens := 20 * M), [Burn(10 * M)]) == Some(Q3)
  {
    RunOne(Q2.(ownTokens := 20 * M), Burn(10 * M));
  }

  // at time 10 the window closes: 10M undelegated from "b", to come back at time 30

  const W1 := W0.(state := Unbonding, maturesAt := 30, validatorsUsed := ["b"])

  const C4 := C3.(vals := Four(10 * M, 10 * M, 1), totals := TotalsCache(20 * M, 0, 20 * M, 0, 10 * M, 0, 0),
                  windows := [W1, OpenWindow(1, 10, 10)], openId := 1, active := [0])

  const Q4 := Q3.(now := 10, delegations := map["a" := Delegation(10 * M, 0), "b" := Delegation(10 * M, 0)],
                  queue := [UnbondEntry("b", 10 * M, 10 * M, 30, 0, false)])

  lemma {:induction false} ThePlan()
    ensures Plan(C3.vals, 10 * M, 6) == Ok([UnbondLeg(1, 10 * M)])
  {
    var legs, vs := [UnbondLeg(1, 10 * M)], C3.vals;
    FourTotals(10 * M, 20 * M, 0);
    SumFour(vs[0], vs[1], vs[2], vs[3], Free(6));
    SumSnoc([], legs[0], Amount);
    assert [] + [legs[0]] == legs;
    forall i | 0 <= i < |vs| && Eligible(vs[i], 6) && !Touches(legs, i) ensures i == 0 {
      assert legs[0].index == 1;
    }
    assert IsPlan(vs, 10 * M, 6, legs);
    PlanSucceeds(vs, 10 * M, 6);
    PlanIsUnique(vs, 10 * M, 6, legs, Plan(vs, 10 * M, 6).value);
  }

  lemma {:induction false} Step4()
    ensures Handle(C3, Q3.(now := 10), DoAdvance) == Ok(Done(C4, [Undelegate("b", 10 * M, 0)]))
  {
    ThePlan();
    var legs := [UnbondLeg(1, 10 * M)];
    assert legs[..0] == [];
    assert Drawn(C3.vals, legs) == Four(10 * M, 10 * M, 1);
    assert LegAddresses(C3.vals, legs) == ["b"];
    assert LegMsgs(C3.vals, legs, 0) == [Undelegate("b", 10 * M, 0)];
    assert W0.validatorsUsed + ["b"] == ["b"];
    assert C3.windows[0 := W1] + [OpenWindow(1, 10, 10)] == C4.windows;
    assert C3.active + [0] == [0];
  }

  lemma {:induction false} Step4Runs()
    ensures Run(Q3.(now := 10), [Undelegate("b", 10 * M, 0)]) == Some(Q4)
  {
    var q := Q3.(now := 10);
    RunOne(q, Undelegate("b", 10 * M, 0));
    assert LiveEntries(q, "b") == 0;
    assert q.delegations["b" := Delegation(20 * M, 0)] == q.delegations;
    assert q.delegations["b" := Delegation(10 * M, 0)] == Q4.delegations;
    assert Q3.queue + [UnbondEntry("b", 10 * M, 10 * M, 30, 0, false)] == Q4.queue;
  }

  // ---- the run as a whole ----

  const START := Sys(C0, Q0, {})

  const TO_CLOSE: seq<Step> :=
    [Do(DoBootstrap("dep", "t", [Coin("uscrt", 10 * M)])), Do(DoDeposit("u", [Coin("uscrt", 20 * M)])), Do(DoUnbond("u", 10 * M)),
     World(Pass(10)), Do(DoAdvance), World(Pass(30))]

  lemma {:induction false} StartIsFresh()
    ensures Fresh(START)
  {
    Step0();
    assert Instantiated(FIRST, "dep", START.chain.now) == Ok(START.core);
  }

  lemma {:induction false} Commit(s: Sys, tx: Tx, b: Chain, d: Done, q: Chain)
    requires Credited(s.core, s.chain, tx) == Some(b) && Handle(s.core, b, tx) == Ok(d) && Run(b, d.msgs) == Some(q)
    requires SweepOf(s.core, tx).None?
    ensures Commits(s, tx) && Next(s, Do(tx)) == Sys(d.core, q, s.swept)
  {
  }

  lemma {:induction false} OneCoin(n: nat)
    requires n > 0
    ensures Coins([Coin("uscrt", n)], "uscrt") == n
  {
    CoinsExact([Coin("uscrt", n)], "uscrt");
  }

  /** Where the run stands when window 0 falls due. */
  lemma {:induction false} FallsDue()
    ensures After(START, TO_CLOSE) == Sys(C4, Q4.(now := 30), {})
  {
    hide Handle, Run, Commits;
    var t := TO_CLOSE;
    OneCoin(10 * M);
    Step1();
    Step1Runs();
    Commit(START, t[0].tx, Q0.(balance := 10 * M), Done(C1, [RegisterReceive, Mint(SELF, 10 * M), Delegate("a", 10 * M)]), Q1);
    AfterConcat(START, [], t[0]);
    OneCoin(20 * M);
    Step2();
    Step2Runs();
    Commit(Sys(C1, Q1, {}), t[1].tx, Q1.(balance := 20 * M), Done(C2, [Mint("u", 20 * M), Delegate("b", 20 * M)]), Q2);
    AfterConcat(START, [t[0]], t[1]);
    Step3();
    Step3Runs();
    Commit(Sys(C2, Q2, {}), t[2].tx, Q2.(ownTokens := 20 * M), Done(C3, [Burn(10 * M)]), Q3);
    AfterConcat(START, [t[0], t[1]], t[2]);
    AfterConcat(START, [t[0], t[1], t[2]], t[3]);
    Step4();
    Step4Runs();
    Commit(Sys(C3, Q3.(now := 10), {}), t[4].tx, Q3.(now := 10), Done(C4, [Undelegate("b", 10 * M, 0)]), Q4);
    AfterConcat(START, [t[0], t[1], t[2], t[3]], t[4]);
    AfterConcat(START, [t[0], t[1], t[2], t[3], t[4]], t[5]);
    TheSteps();
  }

  lemma {:induction false} TheSteps()
    ensures var t := TO_CLOSE;
            && [] + [t[0]] == [t[0]] && [t[0]] + [t[1]] == [t[0], t[1]] && [t[0], t[1]] + [t[2]] == [t[0], t[1], t[2]]
            && [t[0], t[1], t[2]] + [t[3]] == [t[0], t[1], t[2], t[3]]
            && [t[0], t[1], t[2], t[3]] + [t[4]] == [t[0], t[1], t[2], t[3], t[4]]
            && [t[0], t[1], t[2], t[3], t[4]] + [t[5]] == t
  {
  }

  // ---- marked matured before the chain has returned the SCRT ----

  const W2 := W1.(state := Matured, scrtRealised := Some(0))

  const C5 := C4.(vals := Four(10 * M, 10 * M, 0), totals := TotalsCache(20 * M, 0, 20 * M, 0, 0, 0, 0),
                  windows := [W2, OpenWindow(1, 10, 10)])

  lemma {:induction false} CollectsNothing()
    ensures Handle(C4, Q4.(now := 30), DoCollect(None)) == Ok(Done(C5, []))
  {
    hide MatureFrom, Released;
    FirstPass();
    HandsBack();
    var m := Engine.Maturing([W2, OpenWindow(1, 10, 10)], [0], 10 * M, 0, ["b"]);
    assert MatureDue(C4, 30, 0, 5) == Collected(C5, [0]);
  }

  lemma {:induction false} FirstPass()
    ensures MatureFrom([0], C4.windows, 30, 0, SumSeq<nat>([0], SpokenAt(C4.windows)), 5)
            == Engine.Maturing([W2, OpenWindow(1, 10, 10)], [0], 10 * M, 0, ["b"])
  {
    var ids, ws := [0], C4.windows;
    assert SumSeq(ids, SpokenAt(ws)) == 0 by {
      SumSnoc<nat>([], 0, SpokenAt(ws));
      assert [] + [0] == ids;
    }
    Maturing.MatureFromTakes(ids, ws, 30, 0, 0, 5);
    assert Mature(W1, 0) == W2 && ws[0 := W2] == C5.windows;
    Maturing.MatureFromStops(ids[1..], C5.windows, 30, 0, 0, 4);
    assert ["b"] + [] == ["b"] && [0] + [] == [0];
  }

  lemma {:induction false} HandsBack()
    ensures Released(Four(10 * M, 10 * M, 1), ["b"]) == Four(10 * M, 10 * M, 0)
  {
    var vs := Four(10 * M, 10 * M, 1);
    assert Addresses(vs)[1] == "b";
    var at := Find(vs, "b");
    assert at == 1;
    assert ["b"][1..] == [];
    assert ReleaseOne(vs, "b") == Four(10 * M, 10 * M, 0);
  }

  lemma {:induction false} RunNone(q: Chain)
    ensures Run(q, []) == Some(q)
  {
  }

  /** Collecting at the very second a window falls due, before the chain has released its entry,
      marks it matured with nothing: nobody was slashed, the chain kept its period, and the 10M is
      lost to its leavers for good. */
  lemma {:induction false} LateReleaseIsLost(post: seq<Step>)
    ensures var s := After(START, TO_CLOSE + [Do(DoCollect(None))] + post);
            && Fresh(START) && InTime(START.core, START.chain)
            && |s.core.windows| > 0 && s.core.windows[0].scrtOwed == 10 * M && s.core.windows[0].scrtRealised == Some(0)
  {
    hide Handle, Run, Commits, After;
    var due, collected := Sys(C4, Q4.(now := 30), {}), TO_CLOSE + [Do(DoCollect(None))];
    StartIsFresh();
    FallsDue();
    CollectsNothing();
    RunNone(due.chain);
    Commit(due, DoCollect(None), due.chain, Done(C5, []), due.chain);
    AfterConcat(START, TO_CLOSE, Do(DoCollect(None)));
    RunOnlyAdvances(START, collected, post);
    assert Later(After(START, collected).core.windows[0], After(START, collected + post).core.windows[0]);
  }

  // ---- returned, not yet marked ----

  const Q5 := Q4.(now := 30, balance := 10 * M, queue := [UnbondEntry("b", 10 * M, 10 * M, 30, 0, true)])

  const RETURNED := Sys(C4, Q5, {})

  lemma {:induction false} ComesBack()
    ensures After(START, TO_CLOSE + [World(Release(0))]) == RETURNED
  {
    hide Handle, Run, Commits, After;
    FallsDue();
    AfterConcat(START, TO_CLOSE, World(Release(0)));
    assert Q4.queue[0 := Q4.queue[0].(released := true)] == Q5.queue;
  }

  lemma {:induction false} TheGap()
    ensures Gap(RETURNED) == 10 * M
  {
    var e, ws := Q5.queue[0], C4.windows;
    assert Q5.queue == [] + [e];
    SumSnoc([], e, ReleasedUnmarked(ws));
    SumSnoc([], e, SlashedAway(ws));
    SumSnoc([], e, LateReturn(ws));
  }

  const C4_READ := C4.(totals := C4.totals.(lastSyncTime := 30))

  lemma {:induction false} ReadsBack(q: Chain)
    requires q == Q5.(ownTokens := Q5.ownTokens + 2 * M)
    ensures Refreshed(C4, q) == Ok(C4_READ)
  {
    FourReread(10 * M, 10 * M, 1, q);
    FourTotals(10 * M, 10 * M, 1);
  }

  lemma {:induction false} IsAccepted(q: Chain)
    requires SysOk(RETURNED) && q == Q5.(ownTokens := Q5.ownTokens + 2 * M)
    ensures Unbond(C4, q, "t", "u", 2 * M).Ok?
  {
    hide SysOk, CoreOk, ClosedIfOverdue, Promised, Refreshed;
    ReadsBack(q);
    assert AssetsForShares(2 * M, PoolOf(C4_READ.totals, 10 * M, 0)) == Ok(3 * M);
    assert CoreOk(Promised(C4_READ, "u", 2 * M, 3 * M)) by {
      CoreOfSys(RETURNED);
      RefreshKeepsCore(C4, q);
      PromisedKeepsCore(C4_READ, "u", 2 * M, 3 * M);
    }
    OverdueNeverFails(Promised(C4_READ, "u", 2 * M, 3 * M), 30);
  }

  lemma {:induction false} CoreOfSys(s: Sys)
    requires SysOk(s)
    ensures CoreOk(s.core)
  {
  }

  /** With the 10M back but window 0 not marked, a withdrawal of 2M shares is promised 3M where its
      part of net worth is 2M: the call commits, and every remaining share is worth less. */
  lemma {:induction false} UnmarkedReturnIsShared()
    ensures After(START, TO_CLOSE + [World(Release(0))]) == RETURNED
    ensures Commits(RETURNED, DoUnbond("u", 2 * M))
    ensures !KeepsShareValue(RETURNED, Transact(RETURNED, DoUnbond("u", 2 * M)))
  {
    hide Handle, Run, Commits, After, Transact, SysOk, Unbond, KeepsShareValue, Gap, Value, Timely;
    RightOnTime();
    StartIsFresh();
    ComesBack();
    ReachableOk(START, TO_CLOSE + [World(Release(0))]);
    IsAccepted(Q5.(ownTokens := Q5.ownTokens + 2 * M));
    HandlesUnbond();
    UnbondCommits(RETURNED, "u", 2 * M);
    TheGap();
    UnbondShareValue(RETURNED, "u", 2 * M);
  }

  lemma {:induction false} RightOnTime()
    ensures SysOk(RETURNED) ==> Timely(RETURNED)
  {
    hide SysOk;
  }

  lemma {:induction false} HandlesUnbond()
    ensures Credited(C4, Q5, DoUnbond("u", 2 * M)) == Some(Q5.(ownTokens := Q5.ownTokens + 2 * M))
    ensures Handle(C4, Q5.(ownTokens := Q5.ownTokens + 2 * M), DoUnbond("u", 2 * M))
            == Unbond(C4, Q5.(ownTokens := Q5.ownTokens + 2 * M), "t", "u", 2 * M)
  {
    hide Unbond;
  }
}
