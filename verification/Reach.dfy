/** Every step of the contract or the world keeps the system invariants. */
module Reach {
  import opened Prelude
  import opened Sums
  import opened Types
  import opened Math
  import opened Windows
  import opened Validators
  import opened Plans
  import opened Chain
  import opened Engine
  import opened Invariants
  import opened Roster
  import opened Closing
  import opened Maturing
  import opened Claims
  import opened Keeping
  import opened System

  // ---- the unbonding queue ----

  ghost predicate NoUndelegate(ms: seq<Msg>) {
    forall i :: 0 <= i < |ms| ==> !ms[i].Undelegate?
  }

  lemma {:induction false} NoNewEntries(ms: seq<Msg>, at: nat)
    requires NoUndelegate(ms)
    ensures NewEntries(ms, at) == []
  {
    if ms != [] {
      NoNewEntries(ms[..|ms| - 1], at);
    }
  }

  function EntryOfLeg(vs: seq<ValidatorEntry>, leg: UnbondLeg, at: nat, window: nat): UnbondEntry
    requires leg.index < |vs|
  {
    UnbondEntry(vs[leg.index].address, leg.amount, leg.amount, at, window, false)
  }

  lemma {:induction false} LegEntries(vs: seq<ValidatorEntry>, legs: seq<UnbondLeg>, window: nat, at: nat)
    requires forall k :: 0 <= k < |legs| ==> legs[k].index < |vs|
    ensures var es := NewEntries(LegMsgs(vs, legs, window), at);
            |es| == |legs| && forall k :: 0 <= k < |legs| ==> es[k] == EntryOfLeg(vs, legs[k], at, window)
  {
    if legs != [] {
      var init := legs[..|legs| - 1];
      LegEntries(vs, init, window, at);
      assert LegMsgs(vs, legs, window)[..|legs| - 1] == LegMsgs(vs, init, window);
    }
  }

  /** The queue is unaffected by changes that keep what closed windows asked for. */
  lemma {:induction false} QueueFrame(queue: seq<UnbondEntry>, ws: seq<UnbondWindow>, us: seq<UnbondWindow>,
        unbondTime: nat)
    requires QueueOk(queue, ws, unbondTime) && |us| == |ws|
    requires forall i :: 0 <= i < |ws| ==> us[i].openedAt == ws[i].openedAt
    requires forall i :: 0 <= i < |ws| - 1 ==> us[i].scrtOwed == ws[i].scrtOwed && us[i].validatorsUsed == ws[i].validatorsUsed
    ensures QueueOk(queue, us, unbondTime)
  {
    forall i | 0 <= i < |queue| ensures EntryValid(queue[i], us, unbondTime) {
      assert EntryValid(queue[i], ws, unbondTime);
    }
    forall id | 0 <= id < |us| - 1 ensures QueuedFor(queue, us[id], id) {
      assert QueuedFor(queue, ws[id], id);
    }
  }

  lemma {:induction false} LegEntriesPerValidator(vs: seq<ValidatorEntry>, legs: seq<UnbondLeg>,
        es: seq<UnbondEntry>, at: nat, window: nat, v: Addr)
    requires forall k :: 0 <= k < |legs| ==> legs[k].index < |vs|
    requires Distinct(LegAddresses(vs, legs))
    requires |es| == |legs| && forall k :: 0 <= k < |legs| ==> es[k] == EntryOfLeg(vs, legs[k], at, window)
    ensures SumSeq(es, EntriesFor(v, window)) == if v in LegAddresses(vs, legs) then 1 else 0
  {
    var used := LegAddresses(vs, legs);
    if legs != [] {
      var last := |legs| - 1;
      assert LegAddresses(vs, legs[..last]) == used[..last];
      LegEntriesPerValidator(vs, legs[..last], es[..last], at, window, v);
      assert used == used[..last] + [used[last]];
      assert es == es[..last] + [es[last]];
    }
  }

  lemma {:induction false} QueuedConcat(queue: seq<UnbondEntry>, es: seq<UnbondEntry>, w: UnbondWindow, id: nat)
    requires SumSeq(queue, OriginalFor(id)) + SumSeq(es, OriginalFor(id)) == w.scrtOwed
    requires forall v :: SumSeq(queue, EntriesFor(v, id)) + SumSeq(es, EntriesFor(v, id)) == if v in w.validatorsUsed then 1 else 0
    ensures QueuedFor(queue + es, w, id)
  {
    SumConcat(queue, es, OriginalFor(id));
    forall v ensures SumSeq(queue + es, EntriesFor(v, id)) == if v in w.validatorsUsed then 1 else 0 {
      SumConcat(queue, es, EntriesFor(v, id));
    }
  }

  /** What the legs of one close put on the queue. */
  ghost predicate FromLegs(es: seq<UnbondEntry>, vs: seq<ValidatorEntry>, legs: seq<UnbondLeg>, at: nat, window: nat) {
    && LegsFit(vs, legs)
    && |es| == |legs|
    && (forall k :: 0 <= k < |legs| ==> es[k] == EntryOfLeg(vs, legs[k], at, window))
  }

  lemma {:induction false} RolledValid(queue: seq<UnbondEntry>, es: seq<UnbondEntry>, ws: seq<UnbondWindow>,
        closed: UnbondWindow, next: UnbondWindow,
                                       vs: seq<ValidatorEntry>, legs: seq<UnbondLeg>, unbondTime: nat)
    requires ws != [] && closed.openedAt == ws[|ws| - 1].openedAt
    requires FromLegs(es, vs, legs, next.openedAt + unbondTime, |ws| - 1)
    requires forall i :: 0 <= i < |queue| ==> EntryValid(queue[i], ws, unbondTime)
    ensures forall i :: 0 <= i < |queue + es| ==> EntryValid((queue + es)[i], Rolled(ws, closed, next), unbondTime)
  {
    var us := Rolled(ws, closed, next);
    forall i | 0 <= i < |queue + es| ensures EntryValid((queue + es)[i], us, unbondTime) {
      if i < |queue| {
        assert EntryValid(queue[i], ws, unbondTime);
      } else {
        assert (queue + es)[i] == EntryOfLeg(vs, legs[i - |queue|], next.openedAt + unbondTime, |ws| - 1);
      }
    }
  }

  lemma {:induction false} RolledQueueOk(queue: seq<UnbondEntry>, ws: seq<UnbondWindow>, closed: UnbondWindow,
        next: UnbondWindow, unbondTime: nat)
    requires ws != []
    requires forall i :: 0 <= i < |queue| ==> EntryValid(queue[i], Rolled(ws, closed, next), unbondTime)
    requires forall id :: 0 <= id < |ws| - 1 ==> QueuedFor(queue, ws[id], id)
    requires QueuedFor(queue, closed, |ws| - 1)
    ensures QueueOk(queue, Rolled(ws, closed, next), unbondTime)
  {
    var us := Rolled(ws, closed, next);
    forall id | 0 <= id < |us| - 1 ensures QueuedFor(queue, us[id], id) {
      assert id < |ws| - 1 ==> us[id] == ws[id];
    }
  }

  lemma {:induction false} RolledQueued(queue: seq<UnbondEntry>, es: seq<UnbondEntry>, ws: seq<UnbondWindow>,
        vs: seq<ValidatorEntry>, legs: seq<UnbondLeg>, at: nat, unbondTime: nat, id: nat)
    requires QueueOk(queue, ws, unbondTime) && ws != [] && FromLegs(es, vs, legs, at, |ws| - 1)
    requires id < |ws| - 1
    ensures QueuedFor(queue + es, ws[id], id)
  {
    assert QueuedFor(queue, ws[id], id);
    SumZero(es, OriginalFor(id));
    forall v ensures SumSeq(es, EntriesFor(v, id)) == 0 {
      SumZero(es, EntriesFor(v, id));
    }
    QueuedConcat(queue, es, ws[id], id);
  }

  lemma {:induction false} ClosedQueued(queue: seq<UnbondEntry>, es: seq<UnbondEntry>, ws: seq<UnbondWindow>,
        vs: seq<ValidatorEntry>, legs: seq<UnbondLeg>, at: nat, unbondTime: nat, closed: UnbondWindow, id: nat)
    requires QueueOk(queue, ws, unbondTime) && id + 1 == |ws| && FromLegs(es, vs, legs, at, id)
    requires Distinct(Addresses(vs))
    requires closed.scrtOwed == SumSeq(legs, Amount) && closed.validatorsUsed == LegAddresses(vs, legs)
    ensures QueuedFor(queue + es, closed, id)
  {
    NothingQueuedYet(queue, ws, unbondTime, id);
    SumSame(es, OriginalFor(id), legs, Amount);
    LegAddressesAre(vs, legs);
    forall v ensures SumSeq(es, EntriesFor(v, id)) == if v in closed.validatorsUsed then 1 else 0 {
      LegEntriesPerValidator(vs, legs, es, at, id, v);
    }
    QueuedConcat(queue, es, closed, id);
  }

  /** Closing adds to the queue exactly what the closed window owes, one entry per validator used. */
  lemma {:induction false} CloseKeepsQueue(c: Core, now: nat, queue: seq<UnbondEntry>, unbondTime: nat)
    requires CoreOk(c) && ClosedOpen(c, now).Ok? && QueueOk(queue, c.windows, unbondTime)
    ensures var d := ClosedOpen(c, now).value;
            QueueOk(queue + NewEntries(d.msgs, now + unbondTime), d.core.windows, unbondTime)
  {
    hide ClosedOpen, Close, StakeOk, SlotsOk, ActiveOk, BucketsOk, LedgerOk, IndexOk, LegMsgs, LegAddresses, IsPlan,
          LegsFit, QueueOk, NewEntries, Rolled;
    var ws := c.windows;
    var legs, closed := ClosedForm(c, now);
    var next := OpenWindow(|ws|, now, c.config.params.unbondWindowSecs);
    PlanFits(c.vals, ws[c.openId].scrtOwed, c.config.params.maxUnbondEntries, legs);
    CloseForgetsNothing(ws[c.openId], LegAddresses(c.vals, legs), now, c.config.params.unbondingPeriodSecs);
    LegsKeepQueue(queue, ws, c.vals, legs, unbondTime, closed, next, c.openId);
  }

  lemma {:induction false} LegsKeepQueue(queue: seq<UnbondEntry>, ws: seq<UnbondWindow>, vs: seq<ValidatorEntry>,
        legs: seq<UnbondLeg>, unbondTime: nat,
                                         closed: UnbondWindow, next: UnbondWindow, id: nat)
    requires QueueOk(queue, ws, unbondTime) && id + 1 == |ws| && LegsFit(vs, legs) && Distinct(Addresses(vs))
    requires closed.openedAt == ws[id].openedAt
    requires closed.scrtOwed == SumSeq(legs, Amount) && closed.validatorsUsed == LegAddresses(vs, legs)
    ensures QueueOk(queue + NewEntries(LegMsgs(vs, legs, id), next.openedAt + unbondTime), Rolled(ws, closed, next), unbondTime)
  {
    var at := next.openedAt + unbondTime;
    var es := NewEntries(LegMsgs(vs, legs, id), at);
    LegEntries(vs, legs, id, at);
    RolledValid(queue, es, ws, closed, next, vs, legs, unbondTime);
    ClosedQueued(queue, es, ws, vs, legs, at, unbondTime, closed, id);
    forall i | 0 <= i < id ensures QueuedFor(queue + es, ws[i], i) {
      RolledQueued(queue, es, ws, vs, legs, at, unbondTime, i);
    }
    RolledQueueOk(queue + es, ws, closed, next, unbondTime);
  }

  lemma {:induction false} CloseForgetsNothing(w: UnbondWindow, used: seq<Addr>, now: nat, u: nat)
    ensures var closed := Close(w.(validatorsUsed := used), now, u);
            closed.scrtOwed == w.scrtOwed && closed.openedAt == w.openedAt && closed.validatorsUsed == used
  {
  }

  /** No entry belongs to the window still open. */
  lemma {:induction false} NothingQueuedYet(queue: seq<UnbondEntry>, ws: seq<UnbondWindow>, unbondTime: nat, id: nat)
    requires QueueOk(queue, ws, unbondTime) && ws != []
    requires id + 1 == |ws|
    ensures SumSeq(queue, OriginalFor(id)) == 0
    ensures forall v :: SumSeq(queue, EntriesFor(v, id)) == 0
  {
    forall i | 0 <= i < |queue| ensures queue[i].window != id {
      assert EntryValid(queue[i], ws, unbondTime);
    }
    SumZero(queue, OriginalFor(id));
    forall v ensures SumSeq(queue, EntriesFor(v, id)) == 0 {
      SumZero(queue, EntriesFor(v, id));
    }
  }

  // ---- what the messages of each handler amount to ----

  lemma {:induction false} LegMsgsPay(vs: seq<ValidatorEntry>, legs: seq<UnbondLeg>, window: nat)
    ensures var ms := LegMsgs(vs, legs, window);
            SumSeq(ms, Paid) == 0 && SumSeq(ms, Sent) == 0 && SumSeq(ms, Burned) == 0 && SumSeq(ms, Minted) == 0
  {
    var ms := LegMsgs(vs, legs, window);
    SumZero(ms, Paid);
    SumZero(ms, Sent);
    SumZero(ms, Burned);
    SumZero(ms, Minted);
  }

  /** What a handler that found the chain at `b` promises about the state its messages will leave. */
  ghost predicate Sound(b: Chain, d: Done, paid: nat, burned: nat) {
    && CoreOk(d.core)
    && QueueOk(b.queue + NewEntries(d.msgs, b.now + b.unbondTime), d.core.windows, b.unbondTime)
    && TimeOk(d.core.windows, b.now)
    && SumSeq(d.msgs, Paid) == paid && SumSeq(d.msgs, Burned) == burned
  }

  /** Messages in front that undelegate nothing add only what they pay and burn. */
  lemma {:induction false} SoundAfter(b: Chain, d: Done, hs: seq<Msg>, paid: nat, burned: nat)
    requires Sound(b, d, paid, burned) && NoUndelegate(hs)
    ensures Sound(b, Done(d.core, hs + d.msgs), SumSeq(hs, Paid) + paid, SumSeq(hs, Burned) + burned)
  {
    var at := b.now + b.unbondTime;
    NewEntriesConcat(hs, d.msgs, at);
    NoNewEntries(hs, at);
    assert [] + NewEntries(d.msgs, at) == NewEntries(d.msgs, at);
    SumConcat(hs, d.msgs, Paid);
    SumConcat(hs, d.msgs, Burned);
  }

  /** A handler that leaves windows' requests alone and undelegates nothing. */
  lemma {:induction false} SoundQuiet(c: Core, b: Chain, d: Done)
    requires QueueOk(b.queue, c.windows, b.unbondTime) && TimeOk(d.core.windows, b.now) && CoreOk(d.core)
    requires |d.core.windows| == |c.windows|
    requires forall i :: 0 <= i < |c.windows| ==> d.core.windows[i].openedAt == c.windows[i].openedAt
    requires forall i :: 0 <= i < |c.windows| - 1 ==>
      d.core.windows[i].scrtOwed == c.windows[i].scrtOwed && d.core.windows[i].validatorsUsed == c.windows[i].validatorsUsed
    requires NoUndelegate(d.msgs)
    ensures Sound(b, d, SumSeq(d.msgs, Paid), SumSeq(d.msgs, Burned))
  {
    NoNewEntries(d.msgs, b.now + b.unbondTime);
    assert b.queue + [] == b.queue;
    QueueFrame(b.queue, c.windows, d.core.windows, b.unbondTime);
  }

  lemma {:induction false} TwoMsgs(m: Msg, n: Msg, f: Msg -> nat)
    ensures SumSeq([m, n], f) == f(m) + f(n)
    ensures SumSeq([m], f) == f(m)
  {
    SumSnoc([], m, f);
    SumSnoc([m], n, f);
    assert [] + [m] == [m] && [m] + [n] == [m, n];
  }

  lemma {:induction false} ClosedSound(c: Core, b: Chain)
    requires CoreOk(c) && QueueOk(b.queue, c.windows, b.unbondTime) && TimeOk(c.windows, b.now)
    requires c.windows[c.openId].closesAt <= b.now && ClosedOpen(c, b.now).Ok?
    ensures Sound(b, ClosedOpen(c, b.now).value, 0, 0)
  {
    hide ClosedOpen, QueueOk, CoreOk;
    CloseKeepsCore(c, b.now);
    CloseKeepsQueue(c, b.now, b.queue, b.unbondTime);
    ClosedCosts(c, b.now);
  }

  lemma {:induction false} ClosedCosts(c: Core, now: nat)
    requires CoreOk(c) && ClosedOpen(c, now).Ok? && TimeOk(c.windows, now)
    ensures var d := ClosedOpen(c, now).value;
            TimeOk(d.core.windows, now) && SumSeq(d.msgs, Paid) == 0 && SumSeq(d.msgs, Burned) == 0
  {
    hide ClosedOpen, WindowsOk, SetOk, StakeOk, SlotsOk, ActiveOk, BucketsOk, LedgerOk, IndexOk;
    var legs, closed := ClosedForm(c, now);
    LegMsgsPay(c.vals, legs, c.openId);
    RolledTime(c.windows, closed, OpenWindow(|c.windows|, now, c.config.params.unbondWindowSecs), now);
  }

  lemma {:induction false} RolledTime(ws: seq<UnbondWindow>, closed: UnbondWindow, next: UnbondWindow, now: nat)
    requires TimeOk(ws, now) && PastMaturity(closed, now) && next.state == Open && next.openedAt == now
    ensures TimeOk(Rolled(ws, closed, next), now)
  {
    var us := Rolled(ws, closed, next);
    forall i | 0 <= i < |us| ensures PastMaturity(us[i], now) {
      assert i < |ws| ==> PastMaturity(ws[i], now);
    }
  }

  /** The parts of storage a close never touches. */
  ghost predicate CloseLeaves(c: Core, d: Core) {
    && d.config == c.config && d.allowlist == c.allowlist && d.cursor == c.cursor
    && d.claims == c.claims && d.index == c.index
    && d.totals.totalSupply == c.totals.totalSupply
    && d.totals.scrtOwedMatured == c.totals.scrtOwedMatured
    && Addresses(d.vals) == Addresses(c.vals)
  }

  lemma {:induction false} ClosedLeaves(c: Core, now: nat)
    requires CoreOk(c) && c.windows[c.openId].closesAt <= now && ClosedOpen(c, now).Ok?
    ensures CloseLeaves(c, ClosedOpen(c, now).value.core)
  {
    CloseKeepsValidators(c, now);
  }

  /** The ride-along close: free of charge, and the queue follows the table. */
  lemma {:induction false} OverdueSound(c: Core, b: Chain)
    requires CoreOk(c) && QueueOk(b.queue, c.windows, b.unbondTime) && TimeOk(c.windows, b.now)
    requires ClosedIfOverdue(c, b.now).Ok?
    ensures Sound(b, ClosedIfOverdue(c, b.now).value, 0, 0)
    ensures CloseLeaves(c, ClosedIfOverdue(c, b.now).value.core)
  {
    hide ClosedOpen, CoreOk, QueueOk, CloseLeaves;
    var d := ClosedIfOverdue(c, b.now).value;
    OverdueCases(c, b.now);
    if d == Done(c, []) {
      StaysSound(c, b);
    } else {
      ClosedSound(c, b);
      ClosedLeaves(c, b.now);
    }
  }

  lemma {:induction false} StaysSound(c: Core, b: Chain)
    requires CoreOk(c) && QueueOk(b.queue, c.windows, b.unbondTime) && TimeOk(c.windows, b.now)
    ensures Sound(b, Done(c, []), 0, 0) && CloseLeaves(c, c)
  {
    SoundQuiet(c, b, Done(c, []));
  }

  lemma {:induction false} OverdueCases(c: Core, now: nat)
    requires ClosedIfOverdue(c, now).Ok? && c.openId < |c.windows|
    ensures ClosedIfOverdue(c, now) == Ok(Done(c, []))
         || (c.windows[c.openId].closesAt <= now && ClosedIfOverdue(c, now) == ClosedOpen(c, now))
  {
  }

  // ---- the balance covers matured windows ----

  /** Withdrawing the rewards of distinct validators pays out exactly what was accrued. */
  lemma {:induction false} RunWithdrawals(q: Chain, vs: seq<ValidatorEntry>)
    requires Distinct(Addresses(vs))
    ensures var r := Run(q, WithdrawMsgs(vs, q));
            && r.Some?
            && r.value.balance == q.balance + SumSeq(vs, RewardsOn(q))
            && r.value.queue == q.queue && r.value.supply == q.supply && r.value.ownTokens == q.ownTokens
            && (forall a :: r.value.BondedAt(a) == q.BondedAt(a))
            && r.value.delegations.Keys == q.delegations.Keys
            && (forall a :: a !in Addresses(vs) ==> r.value.RewardsAt(a) == q.RewardsAt(a))
  {
    if vs != [] {
      var init, v := vs[..|vs| - 1], vs[|vs| - 1];
      assert Addresses(init) == Addresses(vs)[..|vs| - 1];
      assert Addresses(vs) == Addresses(init) + [v.address];
      RunWithdrawals(q, init);
      var tail := if q.RewardsAt(v.address) == 0 then [] else [WithdrawReward(v.address)];
      RunConcat(q, WithdrawMsgs(init, q), tail);
      var m := Run(q, WithdrawMsgs(init, q)).value;
      assert v.address !in Addresses(init);
      if tail != [] {
        assert v.address in m.delegations.Keys;
        assert tail[1..] == [];
        var r := PayRewards(m, v.address);
        assert Run(m, tail) == Some(r);
        assert r.delegations.Keys == m.delegations.Keys;
      }
    }
  }

  // ---- each entry point, against the chain it was called on ----

  /** What the messages of a handler cost is there: the matured windows stay covered. */
  ghost predicate Covered(b: Chain, d: Done) {
    SumSeq(d.core.windows, MaturedOutstanding) + SumSeq(d.msgs, Paid) <= b.balance
  }

  lemma {:induction false} CoinsExact(funds: seq<Coin>, denom: string)
    requires ExactFunds(funds, denom).Ok?
    ensures Coins(funds, denom) == ExactFunds(funds, denom).value
  {
    assert funds[..0] == [];
  }

  lemma {:induction false} MaturedBucket(c: Core)
    requires CoreOk(c)
    ensures SumSeq(c.windows, MaturedOutstanding) == c.totals.scrtOwedMatured
  {
  }

  lemma {:induction false} DepositReaches(c: Core, q: Chain, b: Chain, sender: Addr, funds: seq<Coin>)
    requires CoreOk(c) && ChainOk(c, q) && b == q.(balance := q.balance + Coins(funds, c.config.bondedDenom))
    requires Deposit(c, b, sender, funds).Ok?
    ensures var d := Deposit(c, b, sender, funds).value;
            && Sound(b, d, Coins(funds, c.config.bondedDenom), 0) && Covered(b, d)
            && d.core.config == c.config && d.core.cursor == c.cursor
            && Addresses(d.core.vals) == Addresses(c.vals)
  {
    hide SharesForDeposit, ClosedIfOverdue, CoreOk, QueueOk, TimeOk, Deposit;
    var deposit, r, shares, i, d := DepositForm(c, b, sender, funds);
    CoinsExact(funds, c.config.bondedDenom);
    RefreshKeepsCore(c, b);
    PlacedKeepsCore(r, i, deposit, shares);
    var e := Placed(r, i, deposit, shares);
    OverdueSound(e, b);
    MaturedBucket(c);
    MaturedBucket(d.core);
    var hs := [Mint(sender, shares), Delegate(r.vals[i].address, deposit)];
    SoundAfter(b, d, hs, 0, 0);
    TwoMsgs(hs[0], hs[1], Paid);
    TwoMsgs(hs[0], hs[1], Burned);
  }

  lemma {:induction false} UnbondReaches(c: Core, q: Chain, b: Chain, sender: Addr, from: Addr, amount: nat)
    requires CoreOk(c) && ChainOk(c, q) && b == q.(ownTokens := q.ownTokens + amount)
    requires Unbond(c, b, sender, from, amount).Ok?
    ensures var d := Unbond(c, b, sender, from, amount).value;
            && Sound(b, d, 0, amount) && Covered(b, d)
            && d.core.config == c.config && d.core.cursor == c.cursor
            && Addresses(d.core.vals) == Addresses(c.vals)
  {
    hide AssetsForShares, ClosedIfOverdue, CoreOk, QueueOk, TimeOk, Unbond;
    var r, owed, d := UnbondForm(c, b, sender, from, amount);
    RefreshKeepsCore(c, b);
    PromisedKeepsCore(r, from, amount, owed);
    PromisedKeepsQueue(r, from, amount, owed, b);
    var e := Promised(r, from, amount, owed);
    OverdueSound(e, b);
    MaturedBucket(c);
    MaturedBucket(d.core);
    SoundAfter(b, d, [Burn(amount)], 0, 0);
    TwoMsgs(Burn(amount), Burn(amount), Paid);
    TwoMsgs(Burn(amount), Burn(amount), Burned);
  }

  lemma {:induction false} PromisedKeepsQueue(r: Core, from: Addr, amount: nat, owed: nat, b: Chain)
    requires CoreOk(r) && QueueOk(b.queue, r.windows, b.unbondTime) && TimeOk(r.windows, b.now)
    ensures QueueOk(b.queue, Promised(r, from, amount, owed).windows, b.unbondTime)
    ensures TimeOk(Promised(r, from, amount, owed).windows, b.now)
  {
    var us := Promised(r, from, amount, owed).windows;
    QueueFrame(b.queue, r.windows, us, b.unbondTime);
    assert WindowOk(r.windows, r.openId, r.config.params.unbondWindowSecs, r.config.params.unbondingPeriodSecs);
    forall i | 0 <= i < |us| ensures PastMaturity(us[i], b.now) {
      assert PastMaturity(r.windows[i], b.now);
    }
  }

  lemma {:induction false} BootstrapReaches(c: Core, q: Chain, b: Chain, sender: Addr, tokenAddr: Addr,
        funds: seq<Coin>)
    requires CoreOk(c) && ChainOk(c, q) && b == q.(balance := q.balance + Coins(funds, c.config.bondedDenom))
    requires Bootstrap(c, b, sender, tokenAddr, funds).Ok?
    ensures var d := Bootstrap(c, b, sender, tokenAddr, funds).value;
            && Sound(b, d, Coins(funds, c.config.bondedDenom), 0) && Covered(b, d)
            && d.core.cursor == c.cursor
            && Addresses(d.core.vals) == Addresses(c.vals)
            && (Run(b, d.msgs).Some? ==> Run(b, d.msgs).value.ownTokens >= MIN_BOOTSTRAP_SEED)
  {
    hide CoreOk, QueueOk, TimeOk, Bootstrap, Selected;
    var d := Bootstrap(c, b, sender, tokenAddr, funds).value;
    var seed, i := BootstrapForm(c, b, sender, tokenAddr, funds);
    BootstrapKeeps(c, b, sender, tokenAddr, funds);
    CoinsExact(funds, c.config.bondedDenom);
    assert Addresses(d.core.vals) == Addresses(c.vals);
    SoundQuiet(c, b, d);
    SeedStays(b, d.msgs[0], seed, d.msgs[2]);
    SeedCosts(seed, c.vals[i].address);
  }

  lemma {:induction false} SeedCosts(seed: nat, v: Addr)
    ensures SumSeq([RegisterReceive, Mint(SELF, seed), Delegate(v, seed)], Paid) == seed
    ensures SumSeq([RegisterReceive, Mint(SELF, seed), Delegate(v, seed)], Burned) == 0
  {
    var ms := [RegisterReceive, Mint(SELF, seed), Delegate(v, seed)];
    SumCons(ms, Paid);
    SumCons(ms, Burned);
    assert ms[1..] == [Mint(SELF, seed), Delegate(v, seed)];
    TwoMsgs(ms[1], ms[2], Paid);
    TwoMsgs(ms[1], ms[2], Burned);
  }

  lemma {:induction false} SeedStays(b: Chain, m: Msg, seed: nat, n: Msg)
    requires m.RegisterReceive? && n.Delegate?
    ensures Run(b, [m, Mint(SELF, seed), n]).Some? ==> Run(b, [m, Mint(SELF, seed), n]).value.ownTokens >= seed
  {
    var ms := [m, Mint(SELF, seed), n];
    var minted := Exec(b, Mint(SELF, seed)).value;
    assert ms[1..] == [Mint(SELF, seed), n] && ms[1..][1..] == [n] && [n][1..] == [];
    assert Run(b, ms) == Run(minted, [n]) == Exec(minted, n);
    if Exec(minted, n).Some? {
      ExecFrame(minted, n);
    }
  }

  lemma {:induction false} AdvanceReaches(c: Core, b: Chain)
    requires CoreOk(c) && ChainOk(c, b) && AdvanceWindow(c, b).Ok?
    ensures var d := AdvanceWindow(c, b).value;
            && Sound(b, d, 0, 0) && Covered(b, d)
            && d.core.config == c.config && d.core.cursor == c.cursor
            && Addresses(d.core.vals) == Addresses(c.vals)
  {
    hide ClosedOpen, CoreOk, QueueOk;
    ClosedSound(c, b);
    ClosedLeaves(c, b.now);
    MaturedBucket(c);
    MaturedBucket(AdvanceWindow(c, b).value.core);
  }

  lemma {:induction false} MatureQueueFrame(c: Core, now: nat, balance: nat, limit: nat)
    requires CoreOk(c)
    ensures var us := MatureDue(c, now, balance, limit).core.windows;
            && |us| == |c.windows|
            && (forall i :: 0 <= i < |us| ==>
                  && us[i].openedAt == c.windows[i].openedAt
                  && us[i].scrtOwed == c.windows[i].scrtOwed
                  && us[i].validatorsUsed == c.windows[i].validatorsUsed)
            && (TimeOk(c.windows, now) ==> TimeOk(us, now))
  {
    hide MatureFrom, SetOk, StakeOk, SlotsOk, BucketsOk, LedgerOk, IndexOk, TimeOk;
    var m := MatureFrom(c.active, c.windows, now, balance, SumSeq(c.active, SpokenAt(c.windows)), Max(limit, 1));
    ActiveWaits(c);
    MatureFromWindows(c.active, c.windows, now, balance, SumSeq(c.active, SpokenAt(c.windows)), Max(limit, 1));
    MaturedTime(c.windows, m.windows, m.matured, c.active, now);
  }

  lemma {:induction false} MaturedTime(ws: seq<UnbondWindow>, us: seq<UnbondWindow>, matured: seq<nat>,
        ids: seq<nat>, now: nat)
    requires MaturedTable(ws, us, matured, ids, now)
    ensures TimeOk(ws, now) ==> TimeOk(us, now)
  {
    if TimeOk(ws, now) {
      forall i | 0 <= i < |us| ensures PastMaturity(us[i], now) {
        assert PastMaturity(ws[i], now);
      }
    }
  }

  lemma {:induction false} CollectReaches(c: Core, b: Chain, limit: Option<nat>)
    requires CoreOk(c) && ChainOk(c, b)
    ensures var d := CollectMatured(c, b, limit).value;
            && Sound(b, d, 0, 0) && Covered(b, d)
            && d.core.config == c.config && d.core.cursor == c.cursor
            && Addresses(d.core.vals) == Addresses(c.vals)
  {
    hide CoreOk, QueueOk, MatureDue;
    var n := if limit.Some? then limit.value else DEFAULT_SYNC_LIMIT;
    MatureKeepsCore(c, b.now, b.balance, n);
    MatureFrame(c, b.now, b.balance, n);
    MatureQueueFrame(c, b.now, b.balance, n);
    SoundQuiet(c, b, CollectMatured(c, b, limit).value);
  }

  /** The stages of a successful claim. */
  lemma {:induction false} ClaimForm(c: Core, q: Chain, who: Addr, ids: Option<seq<nat>>) returns (m: Core,
        wanted: seq<nat>, r: Claiming)
    requires ClaimMatured(c, q, who, ids).Ok?
    ensures m == MatureDue(c, q.now, q.balance, U32_MAX).core
    ensures wanted == if ids.Some? then ids.value else IndexFor(m.index, who)
    ensures ClaimFrom(who, wanted, m.claims, m.windows) == Ok(r) && r.paid > 0
    ensures ClaimMatured(c, q, who, ids).value
            == Done(m.(claims := r.claims, windows := r.windows,
                       totals := m.totals.(scrtOwedMatured := SatSub(m.totals.scrtOwedMatured, r.paid)),
                       active := Without(m.active, r.settled)),
                    [Send(who, r.paid)])
  {
    m := MatureDue(c, q.now, q.balance, U32_MAX).core;
    wanted := if ids.Some? then ids.value else IndexFor(m.index, who);
    r := ClaimFrom(who, wanted, m.claims, m.windows).value;
  }

  lemma {:induction false} ClaimWindows(m: Core, who: Addr, wanted: seq<nat>, r: Claiming)
    requires CoreOk(m) && ClaimFrom(who, wanted, m.claims, m.windows) == Ok(r)
    ensures SumSeq(r.windows, MaturedOutstanding) + r.paid == SumSeq(m.windows, MaturedOutstanding)
    ensures |r.windows| == |m.windows|
    ensures forall i :: 0 <= i < |m.windows| ==> PaidFurther(m.windows[i], r.windows[i])
  {
    ClaimFromKeeps(who, wanted, m.claims, m.windows, m.openId, m.config.params.unbondWindowSecs, m.config.params.unbondingPeriodSecs);
  }

  lemma {:induction false} PaidTime(ws: seq<UnbondWindow>, us: seq<UnbondWindow>, now: nat)
    requires TimeOk(ws, now) && |us| == |ws| && forall i :: 0 <= i < |ws| ==> PaidFurther(ws[i], us[i])
    ensures TimeOk(us, now)
  {
    forall i | 0 <= i < |us| ensures PastMaturity(us[i], now) {
      assert PastMaturity(ws[i], now) && PaidFurther(ws[i], us[i]);
    }
    assert PaidFurther(ws[|ws| - 1], us[|ws| - 1]);
  }

  lemma {:induction false} ClaimReaches(c: Core, b: Chain, who: Addr, ids: Option<seq<nat>>)
    requires CoreOk(c) && ChainOk(c, b) && ClaimMatured(c, b, who, ids).Ok?
    ensures var d := ClaimMatured(c, b, who, ids).value;
            && Sound(b, d, SumSeq(d.msgs, Paid), 0) && Covered(b, d)
            && d.core.config == c.config && d.core.cursor == c.cursor
            && Addresses(d.core.vals) == Addresses(c.vals)
  {
    hide CoreOk, QueueOk, TimeOk, MatureDue, ClaimFrom, ClaimMatured;
    ClaimKeeps(c, b, who, ids);
    var d := ClaimMatured(c, b, who, ids).value;
    var m, wanted, r := ClaimForm(c, b, who, ids);
    MatureKeepsCore(c, b.now, b.balance, U32_MAX);
    MatureFrame(c, b.now, b.balance, U32_MAX);
    MatureQueueFrame(c, b.now, b.balance, U32_MAX);
    ClaimWindows(m, who, wanted, r);
    forall i | 0 <= i < |c.windows|
      ensures d.core.windows[i].openedAt == c.windows[i].openedAt && d.core.windows[i].scrtOwed == c.windows[i].scrtOwed
           && d.core.windows[i].validatorsUsed == c.windows[i].validatorsUsed
    {
      assert PaidFurther(m.windows[i], r.windows[i]);
    }
    PaidTime(m.windows, r.windows, b.now);
    SoundQuiet(c, b, d);
    TwoMsgs(d.msgs[0], d.msgs[0], Paid);
    TwoMsgs(d.msgs[0], d.msgs[0], Burned);
  }

  /** The rewards a compound withdraws come in before they are delegated again. */
  lemma {:induction false} CompoundForm(c: Core, q: Chain, limit: Option<nat>) returns (end: nat, harvested: nat,
        r: Restake)
    requires Compound(c, q, limit).Ok?
    ensures c.cursor <= end == SweepEnd(c, if limit.Some? then limit.value else DEFAULT_COMPOUND_LIMIT) <= |c.vals|
    ensures harvested == SumSeq(c.vals[c.cursor..end], RewardsOn(q))
    ensures Restaked(c, HarvestedSet(c.vals, q, c.cursor, end), q.balance, harvested) == Ok(r)
    ensures var d := Compound(c, q, limit).value;
            && d.core == c.(vals := r.vals, cursor := NextCursor(c, end), totals := d.core.totals)
            && d.core.totals == c.totals.(totalBonded := TotalBonded(r.vals), pendingRewards := TotalRewards(r.vals),
                                          totalSupply := c.totals.totalSupply + r.fee, lastSyncTime := d.core.totals.lastSyncTime)
            && d.msgs == WithdrawMsgs(c.vals[c.cursor..end], q) + r.msgs
  {
    end := SweepEnd(c, if limit.Some? then limit.value else DEFAULT_COMPOUND_LIMIT);
    harvested := SumSeq(c.vals[c.cursor..end], RewardsOn(q));
    r := Restaked(c, HarvestedSet(c.vals, q, c.cursor, end), q.balance, harvested).value;
  }

  lemma {:induction false} RestakeForm(c: Core, vs: seq<ValidatorEntry>, balance: nat, harvested: nat)
        returns (i: nat, fee: nat)
    requires Restaked(c, vs, balance, harvested).Ok? && harvested != 0
    ensures i < |vs| && Selected(vs, harvested) == Ok(i)
    ensures Restaked(c, vs, balance, harvested).value
            == Restake(vs[i := vs[i].(bonded := vs[i].bonded + harvested)],
                       if fee == 0 then [Delegate(vs[i].address, harvested)]
                       else [Delegate(vs[i].address, harvested), Mint(c.config.treasury, fee)],
                       fee)
  {
    i := Selected(vs, harvested).value;
    fee := Restaked(c, vs, balance, harvested).value.fee;
    assert [Delegate(vs[i].address, harvested)] + [] == [Delegate(vs[i].address, harvested)];
  }

  lemma {:induction false} RestakeCosts(c: Core, vs: seq<ValidatorEntry>, balance: nat, harvested: nat)
    requires Restaked(c, vs, balance, harvested).Ok?
    ensures var ms := Restaked(c, vs, balance, harvested).value.msgs;
            && NoUndelegate(ms) && SumSeq(ms, Paid) == harvested && SumSeq(ms, Burned) == 0
  {
    var r := Restaked(c, vs, balance, harvested).value;
    if harvested != 0 {
      var m := Mint(c.config.treasury, r.fee);
      assert [r.msgs[0]] + [] == [r.msgs[0]] && [r.msgs[0]] + [m] == [r.msgs[0], m];
      TwoMsgs(r.msgs[0], m, Paid);
      TwoMsgs(r.msgs[0], m, Burned);
    }
  }

  lemma {:induction false} WithdrawalsCost(vs: seq<ValidatorEntry>, q: Chain)
    ensures var ms := WithdrawMsgs(vs, q);
            && NoUndelegate(ms) && SumSeq(ms, Burned) == 0 && SumSeq(ms, Paid) == 0
  {
    var ms := WithdrawMsgs(vs, q);
    WithdrawalsOnly(vs, q);
    SumZero(ms, Burned);
    SumZero(ms, Paid);
  }

  lemma {:induction false} WithdrawalsOnly(vs: seq<ValidatorEntry>, q: Chain)
    ensures forall i :: 0 <= i < |WithdrawMsgs(vs, q)| ==> WithdrawMsgs(vs, q)[i].WithdrawReward?
  {
    if vs != [] {
      WithdrawalsOnly(vs[..|vs| - 1], q);
    }
  }

  lemma {:induction false} SliceDistinct(vs: seq<ValidatorEntry>, lo: nat, hi: nat)
    requires lo <= hi <= |vs| && Distinct(Addresses(vs))
    ensures Addresses(vs[lo..hi]) == Addresses(vs)[lo..hi]
    ensures Distinct(Addresses(vs[lo..hi]))
  {
  }

  /** The balance a compound ends with is at least the one it found. */
  lemma {:induction false} CompoundPays(c: Core, q: Chain, limit: Option<nat>)
    requires Distinct(Addresses(c.vals)) && Compound(c, q, limit).Ok?
    requires Run(q, Compound(c, q, limit).value.msgs).Some?
    ensures Run(q, Compound(c, q, limit).value.msgs).value.balance >= q.balance
  {
    hide Restaked, Compound;
    var end, harvested, r := CompoundForm(c, q, limit);
    var slice := c.vals[c.cursor..end];
    SliceDistinct(c.vals, c.cursor, end);
    RunWithdrawals(q, slice);
    RunConcat(q, WithdrawMsgs(slice, q), r.msgs);
    RestakeCosts(c, HarvestedSet(c.vals, q, c.cursor, end), q.balance, harvested);
    RunFrame(Run(q, WithdrawMsgs(slice, q)).value, r.msgs);
  }

  lemma {:induction false} CompoundReaches(c: Core, b: Chain, limit: Option<nat>)
    requires CoreOk(c) && ChainOk(c, b) && Compound(c, b, limit).Ok?
    ensures var d := Compound(c, b, limit).value;
            && Sound(b, d, SumSeq(d.msgs, Paid), 0)
            && d.core.config == c.config && d.core.windows == c.windows
            && Addresses(d.core.vals) == Addresses(c.vals)
  {
    hide Restaked, Compound, CoreOk, QueueOk, TimeOk;
    var end, harvested, r := CompoundForm(c, b, limit);
    var slice, d := c.vals[c.cursor..end], Compound(c, b, limit).value;
    CompoundKeeps(c, b, limit);
    WithdrawalsCost(slice, b);
    RestakeCosts(c, HarvestedSet(c.vals, b, c.cursor, end), b.balance, harvested);
    SumConcat(WithdrawMsgs(slice, b), r.msgs, Burned);
    SoundQuiet(c, b, d);
  }

  /** A handler that emits only quiet messages and leaves the windows alone. */
  lemma {:induction false} UpkeepReaches(c: Core, b: Chain, d: Done)
    requires CoreOk(c) && ChainOk(c, b) && CoreOk(d.core) && d.core.windows == c.windows
    requires NoUndelegate(d.msgs) && SumSeq(d.msgs, Paid) == SumSeq(d.msgs, Burned) == 0
    ensures Sound(b, d, 0, 0) && Covered(b, d)
  {
    hide CoreOk, QueueOk, TimeOk;
    SoundQuiet(c, b, d);
  }

  lemma {:induction false} RebalanceCosts(vs: seq<ValidatorEntry>, plan: seq<RedelegateStep>, allowlist: seq<Addr>)
    requires RebalanceFrom(vs, plan, allowlist).Ok?
    ensures var ms := RebalanceFrom(vs, plan, allowlist).value.1;
            NoUndelegate(ms) && SumSeq(ms, Paid) == SumSeq(ms, Burned) == 0
    decreases |plan|
  {
    if plan != [] {
      var s := plan[0];
      var i, j := Find(vs, s.src), Find(vs, s.dst);
      RebalanceCosts(Moved(vs, i, j, s.amount), plan[1..], allowlist);
      var ms, rest := RebalanceFrom(vs, plan, allowlist).value.1, RebalanceFrom(Moved(vs, i, j, s.amount), plan[1..], allowlist).value.1;
      assert ms[1..] == rest;
      SumCons(ms, Paid);
      SumCons(ms, Burned);
    }
  }

  // ---- transactions ----

  lemma {:induction false} RunKeepsChain(c: Core, b: Chain, d: Done, paid: nat, burned: nat)
    requires Sound(b, d, paid, burned) && Run(b, d.msgs).Some? && b.ownTokens <= b.supply && ReleasedInTime(b)
    requires Solvent(d.core.windows, Run(b, d.msgs).value.balance)
    requires d.core.config.token.Some? ==> MIN_BOOTSTRAP_SEED <= Run(b, d.msgs).value.ownTokens
    ensures CoreOk(d.core) && ChainOk(d.core, Run(b, d.msgs).value)
  {
    hide CoreOk, QueueOk, TimeOk;
    RunFrame(b, d.msgs);
    RunReleasesNothing(b, d.msgs);
  }

  lemma {:induction false} RunReleasesNothing(b: Chain, ms: seq<Msg>)
    requires Run(b, ms).Some? && ReleasedInTime(b)
    ensures ReleasedInTime(Run(b, ms).value)
  {
    RunFrame(b, ms);
    NewEntriesFresh(ms, b.now + b.unbondTime);
    var r := Run(b, ms).value;
    forall i | 0 <= i < |r.queue| && r.queue[i].released ensures r.queue[i].completesAt <= r.now {
      assert i < |b.queue| ==> r.queue[i] == b.queue[i];
    }
  }

  lemma {:induction false} NewEntriesFresh(ms: seq<Msg>, at: nat)
    ensures forall i :: 0 <= i < |NewEntries(ms, at)| ==>
              && !NewEntries(ms, at)[i].released
              && NewEntries(ms, at)[i].amount == NewEntries(ms, at)[i].original
  {
    if ms != [] {
      NewEntriesFresh(ms[..|ms| - 1], at);
    }
  }

  lemma {:induction false} AttachedReleases(s: Sys, tx: Tx)
    requires ChainOk(s.core, s.chain) && Commits(s, tx)
    ensures ReleasedInTime(Attached(s, tx))
  {
  }

  lemma {:induction false} CoveredIsSolvent(b: Chain, d: Done)
    requires Covered(b, d) && Run(b, d.msgs).Some?
    ensures Solvent(d.core.windows, Run(b, d.msgs).value.balance)
  {
    RunFrame(b, d.msgs);
  }

  lemma {:induction false} SeedKept(c: Core, q: Chain, b: Chain, d: Done, paid: nat, burned: nat)
    requires TokensOk(c, q) && d.core.config.token == c.config.token && q.ownTokens + burned <= b.ownTokens
    requires Sound(b, d, paid, burned) && Run(b, d.msgs).Some?
    ensures d.core.config.token.Some? ==> MIN_BOOTSTRAP_SEED <= Run(b, d.msgs).value.ownTokens
  {
    hide CoreOk, QueueOk, TimeOk;
    RunFrame(b, d.msgs);
  }

  ghost predicate Upkeep(tx: Tx) {
    tx.DoSync? || tx.DoSetWeights? || tx.DoSetFee? || tx.DoSetPaused? || tx.DoRebalance?
  }

  /** What maintenance leaves: sound storage, the same windows and token, and no money moved. */
  ghost predicate QuietUpkeep(c: Core, d: Done) {
    && CoreOk(d.core) && d.core.windows == c.windows && d.core.config.token == c.config.token
    && NoUndelegate(d.msgs) && SumSeq(d.msgs, Paid) == SumSeq(d.msgs, Burned) == 0
  }

  lemma {:induction false} SyncUpkeep(c: Core, b: Chain, limit: Option<nat>)
    requires CoreOk(c) && Sync(c, b, limit).Ok?
    ensures QuietUpkeep(c, Sync(c, b, limit).value)
  {
    hide CoreOk;
    SyncKeeps(c, b, limit);
  }

  lemma {:induction false} WeightsUpkeep(c: Core, sender: Addr, ws: seq<ValidatorInit>)
    requires CoreOk(c) && SetWeights(c, sender, ws).Ok?
    ensures QuietUpkeep(c, SetWeights(c, sender, ws).value)
  {
    hide CoreOk;
    SetWeightsKeeps(c, sender, ws);
  }

  lemma {:induction false} RebalanceUpkeep(c: Core, sender: Addr, plan: seq<RedelegateStep>)
    requires CoreOk(c) && Rebalance(c, sender, plan).Ok?
    ensures QuietUpkeep(c, Rebalance(c, sender, plan).value)
  {
    hide CoreOk;
    RebalanceKeeps(c, sender, plan);
    RebalanceCosts(c.vals, plan, c.allowlist);
  }

  lemma {:induction false} FeeUpkeep(c: Core, sender: Addr, bps: nat)
    requires CoreOk(c) && SetPerformanceFee(c, sender, bps).Ok?
    ensures QuietUpkeep(c, SetPerformanceFee(c, sender, bps).value)
  {
    ConfigOnly(c, SetPerformanceFee(c, sender, bps).value.core);
  }

  lemma {:induction false} PauseUpkeep(c: Core, sender: Addr, paused: bool)
    requires CoreOk(c) && SetPaused(c, sender, paused).Ok?
    ensures QuietUpkeep(c, SetPaused(c, sender, paused).value)
  {
    ConfigOnly(c, SetPaused(c, sender, paused).value.core);
  }

  lemma {:induction false} UpkeepKeeps(c: Core, b: Chain, tx: Tx)
    requires CoreOk(c) && ChainOk(c, b) && Upkeep(tx) && Handle(c, b, tx).Ok?
    ensures var d := Handle(c, b, tx).value;
            Sound(b, d, 0, 0) && Covered(b, d) && d.core.config.token == c.config.token
  {
    hide CoreOk, ChainOk, Sound, Covered, Sync, SetWeights, SetPerformanceFee, SetPaused, Rebalance, NoUndelegate;
    match tx {
      case DoSync(limit) => SyncUpkeep(c, b, limit);
      case DoSetWeights(sender, ws) => WeightsUpkeep(c, sender, ws);
      case DoSetFee(sender, bps) => FeeUpkeep(c, sender, bps);
      case DoSetPaused(sender, paused) => PauseUpkeep(c, sender, paused);
      case DoRebalance(sender, plan) => RebalanceUpkeep(c, sender, plan);
    }
    UpkeepReaches(c, b, Handle(c, b, tx).value);
  }

  lemma {:induction false} ConfigOnly(c: Core, d: Core)
    requires CoreOk(c) && d == c.(config := d.config) && ConfigOk(d)
    requires d.config.limits == c.config.limits
    requires d.config.params == c.config.params.(performanceFeeBps := d.config.params.performanceFeeBps)
    ensures CoreOk(d)
  {
  }

  /** The promises of a committed transaction, whichever it was. */
  ghost predicate Lands(s: Sys, tx: Tx)
    requires Commits(s, tx)
  {
    var b, d := Attached(s, tx), Handled(s, tx);
    && Sound(b, d, SumSeq(d.msgs, Paid), SumSeq(d.msgs, Burned))
    && b.ownTokens <= b.supply
    && Solvent(d.core.windows, Run(b, d.msgs).value.balance)
    && (d.core.config.token.Some? ==> MIN_BOOTSTRAP_SEED <= Run(b, d.msgs).value.ownTokens)
  }

  /** The ordinary case: everything paid is covered, and only shares sent in are burned. */
  lemma {:induction false} CoveredLands(s: Sys, tx: Tx, paid: nat, burned: nat)
    requires Commits(s, tx) && TokensOk(s.core, s.chain)
    requires var b, d := Attached(s, tx), Handled(s, tx);
             && Sound(b, d, paid, burned) && Covered(b, d)
             && d.core.config.token == s.core.config.token
             && s.chain.ownTokens + burned <= b.ownTokens <= b.supply
    ensures Lands(s, tx)
  {
    hide CoreOk, QueueOk, TimeOk;
    CoveredIsSolvent(Attached(s, tx), Handled(s, tx));
    SeedKept(s.core, s.chain, Attached(s, tx), Handled(s, tx), paid, burned);
  }

  lemma {:induction false} BootstrapLands(s: Sys, tx: Tx)
    requires CoreOk(s.core) && ChainOk(s.core, s.chain) && Commits(s, tx) && tx.DoBootstrap?
    ensures Lands(s, tx)
  {
    hide CoreOk, QueueOk, TimeOk, Bootstrap, Sound, Covered;
    BootstrapReaches(s.core, s.chain, Attached(s, tx), tx.sender, tx.token, tx.funds);
    CoveredIsSolvent(Attached(s, tx), Handled(s, tx));
    SoundCounts(Attached(s, tx), Handled(s, tx), Coins(tx.funds, s.core.config.bondedDenom), 0);
  }

  lemma {:induction false} SoundCounts(b: Chain, d: Done, paid: nat, burned: nat)
    requires Sound(b, d, paid, burned)
    ensures Sound(b, d, SumSeq(d.msgs, Paid), SumSeq(d.msgs, Burned))
  {
  }

  lemma {:induction false} CompoundLands(s: Sys, tx: Tx)
    requires CoreOk(s.core) && ChainOk(s.core, s.chain) && Commits(s, tx) && tx.DoCompound?
    ensures Lands(s, tx)
  {
    hide QueueOk, TimeOk, Compound, Sound;
    CompoundReaches(s.core, s.chain, tx.limit);
    CompoundPays(s.core, s.chain, tx.limit);
    var d := Handled(s, tx);
    SoundCounts(s.chain, d, SumSeq(d.msgs, Paid), 0);
    SeedKept(s.core, s.chain, s.chain, d, SumSeq(d.msgs, Paid), 0);
  }

  lemma {:induction false} HandledLands(s: Sys, tx: Tx)
    requires CoreOk(s.core) && ChainOk(s.core, s.chain) && Commits(s, tx)
    ensures Lands(s, tx)
  {
    hide CoreOk, QueueOk, TimeOk, Bootstrap, Deposit, Unbond, ClaimMatured, AdvanceWindow, CollectMatured, Sync,
          Compound,
         SetWeights, SetPerformanceFee, SetPaused, Rebalance, Sound, Covered, Solvent, Lands;
    var c, q, b := s.core, s.chain, Attached(s, tx);
    match tx {
      case DoBootstrap(_, _, _) => BootstrapLands(s, tx);
      case DoCompound(_) => CompoundLands(s, tx);
      case DoDeposit(sender, funds) =>
        DepositReaches(c, q, b, sender, funds);
        CoveredLands(s, tx, Coins(funds, c.config.bondedDenom), 0);
      case DoUnbond(from, n) =>
        UnbondReaches(c, q, b, if c.config.token.Some? then c.config.token.value else from, from, n);
        CoveredLands(s, tx, 0, n);
      case DoClaim(who, ids) =>
        ClaimReaches(c, b, who, ids);
        CoveredLands(s, tx, SumSeq(Handled(s, tx).msgs, Paid), 0);
      case DoAdvance =>
        AdvanceReaches(c, b);
        CoveredLands(s, tx, 0, 0);
      case DoCollect(limit) =>
        CollectReaches(c, b, limit);
        CoveredLands(s, tx, 0, 0);
      case _ =>
        UpkeepKeeps(c, b, tx);
        CoveredLands(s, tx, 0, 0);
    }
  }

  /** What the contract stores, and what the chain holds for it, after a transaction. */
  lemma {:induction false} TransactKeeps(s: Sys, tx: Tx)
    requires CoreOk(s.core) && ChainOk(s.core, s.chain)
    ensures CoreOk(Transact(s, tx).core) && ChainOk(Transact(s, tx).core, Transact(s, tx).chain)
  {
    hide CoreOk, ChainOk, Credited, Handle, Sound, Solvent;
    if Commits(s, tx) {
      var d := Handled(s, tx);
      HandledLands(s, tx);
      AttachedReleases(s, tx);
      RunKeepsChain(s.core, Attached(s, tx), d, SumSeq(d.msgs, Paid), SumSeq(d.msgs, Burned));
    }
  }

  // ---- the sweep ----

  /** A complete account of a sync: the slice is re-read, the rest is as it was. */
  lemma {:induction false} SyncReadsSlice(s: Sys, tx: Tx, end: nat, i: nat)
    requires Commits(s, tx) && tx.DoSync? && SweepOf(s.core, tx) == Some(end) && s.core.cursor <= i < end
    ensures IsRead(s, tx, i)
  {
  }

  /** What a compound's messages delegate to `a`: the harvest, if `a` is where it is restaked. */
  lemma {:induction false} CompoundDelegates(slice: seq<ValidatorEntry>, q: Chain, c: Core, vs: seq<ValidatorEntry>,
        harvested: nat, a: Addr)
    requires Restaked(c, vs, q.balance, harvested).Ok?
    ensures var r := Restaked(c, vs, q.balance, harvested).value;
            SumSeq(WithdrawMsgs(slice, q) + r.msgs, DelegatedTo(a))
            == if harvested != 0 && vs[Selected(vs, harvested).value].address == a then harvested else 0
  {
    hide Restaked;
    var ws, r := WithdrawMsgs(slice, q), Restaked(c, vs, q.balance, harvested).value;
    WithdrawalsOnly(slice, q);
    SumZero(ws, DelegatedTo(a));
    SumConcat(ws, r.msgs, DelegatedTo(a));
    if harvested == 0 {
      RestakesNothing(c, vs, q.balance);
    } else {
      var i, fee := RestakeForm(c, vs, q.balance, harvested);
      TwoMsgs(Delegate(vs[i].address, harvested), Mint(c.config.treasury, fee), DelegatedTo(a));
    }
  }

  lemma {:induction false} RestakesNothing(c: Core, vs: seq<ValidatorEntry>, balance: nat)
    ensures Restaked(c, vs, balance, 0) == Ok(Restake(vs, [], 0))
  {
  }

  /** Where a restake leaves each entry. */
  lemma {:induction false} RestakeAt(c: Core, vs: seq<ValidatorEntry>, balance: nat, harvested: nat, i: nat)
    requires Restaked(c, vs, balance, harvested).Ok? && Distinct(Addresses(vs)) && i < |vs|
    ensures var r := Restaked(c, vs, balance, harvested).value;
            && |r.vals| == |vs|
            && r.vals[i] == vs[i].(bonded := vs[i].bonded
                 + if harvested != 0 && vs[Selected(vs, harvested).value].address == vs[i].address then harvested else 0)
  {
    hide Restaked;
    if harvested == 0 {
      RestakesNothing(c, vs, balance);
    } else {
      var t, fee := RestakeForm(c, vs, balance, harvested);
      assert Addresses(vs)[t] == Addresses(vs)[i] ==> t == i;
    }
  }

  /** A complete account of a compound: the slice is re-read and stripped of rewards, and one
      validator of the whole set takes the restake. */
  lemma {:induction false} CompoundReadsSlice(s: Sys, tx: Tx, end: nat, i: nat)
    requires CoreOk(s.core) && Commits(s, tx) && tx.DoCompound? && SweepOf(s.core, tx) == Some(end) && s.core.cursor <= i < end
    ensures IsRead(s, tx, i)
  {
    hide Restaked, Compound, CoreOk, WithdrawMsgs;
    var c, q := s.core, s.chain;
    var e, harvested, r := CompoundForm(c, q, tx.limit);
    var vs := HarvestedSet(c.vals, q, c.cursor, end);
    assert Distinct(Addresses(vs)) by { SameAddressesDistinct(c, vs); }
    RestakeAt(c, vs, q.balance, harvested, i);
    CompoundDelegates(c.vals[c.cursor..end], q, c, vs, harvested, c.vals[i].address);
  }

  lemma {:induction false} SameAddressesDistinct(c: Core, vs: seq<ValidatorEntry>)
    requires CoreOk(c) && |vs| == |c.vals| && forall i :: 0 <= i < |vs| ==> vs[i].address == c.vals[i].address
    ensures Distinct(Addresses(vs))
  {
    assert Addresses(vs) == Addresses(c.vals);
  }

  lemma {:induction false} SweepReads(s: Sys, tx: Tx, end: nat)
    requires CoreOk(s.core) && Commits(s, tx) && SweepOf(s.core, tx) == Some(end)
    ensures forall i :: s.core.cursor <= i < end ==> IsRead(s, tx, i)
  {
    hide CoreOk, Commits, IsRead;
    forall i | s.core.cursor <= i < end ensures IsRead(s, tx, i) {
      if tx.DoSync? {
        SyncReadsSlice(s, tx, end, i);
      } else {
        CompoundReadsSlice(s, tx, end, i);
      }
    }
  }

  /** A sweep's cursor only ever moves past validators it has re-read. */
  lemma {:induction false} SweepAdvances(s: Sys, tx: Tx, end: nat)
    requires CoreOk(s.core) && SweptOk(s.core, s.swept) && Commits(s, tx) && SweepOf(s.core, tx) == Some(end)
    requires Handled(s, tx).core.cursor == NextCursor(s.core, end) && Addresses(Handled(s, tx).core.vals) == Addresses(s.core.vals)
    ensures SweptOk(Handled(s, tx).core, SweptAfter(s, tx))
  {
    hide Commits, Handled, CoreOk, IsRead;
    SweepReads(s, tx, end);
    var d := Handled(s, tx).core;
    assert |d.vals| == |Addresses(d.vals)|;
    forall i | 0 <= i < d.cursor ensures d.vals[i].address in SweptAfter(s, tx) {
      assert d.vals[i].address == Addresses(s.core.vals)[i];
      if i >= s.core.cursor {
        assert IsRead(s, tx, i);
      }
    }
  }

  lemma {:induction false} SweptStays(c: Core, d: Core, swept: set<Addr>)
    requires SweptOk(c, swept) && d.cursor == c.cursor && |c.vals| <= |d.vals|
    requires Addresses(d.vals)[..|c.vals|] == Addresses(c.vals)
    ensures SweptOk(d, swept)
  {
    forall i | 0 <= i < d.cursor ensures d.vals[i].address in swept {
      assert Addresses(d.vals)[i] == Addresses(d.vals)[..|c.vals|][i] == Addresses(c.vals)[i];
    }
  }

  lemma {:induction false} TransactSweeps(s: Sys, tx: Tx)
    requires CoreOk(s.core) && ChainOk(s.core, s.chain) && SweptOk(s.core, s.swept) && Commits(s, tx)
    ensures SweptOk(Handled(s, tx).core, SweptAfter(s, tx))
  {
    hide CoreOk, QueueOk, TimeOk, Bootstrap, Deposit, Unbond, ClaimMatured, AdvanceWindow, CollectMatured, Sync,
          Compound,
         SetWeights, SetPerformanceFee, SetPaused, Rebalance, Sound, Covered, Solvent, SweptOk;
    var c, q, b, d := s.core, s.chain, Attached(s, tx), Handled(s, tx).core;
    match tx {
      case DoSync(limit) =>
        SyncSweeps(s, tx);
      case DoCompound(limit) =>
        CompoundSweeps(s, tx);
      case DoSetWeights(sender, ws) =>
        SetWeightsKeeps(c, sender, ws);
        SetWeightsCursor(c, sender, ws);
        SweptStays(c, d, s.swept);
      case DoBootstrap(sender, token, funds) =>
        BootstrapReaches(c, q, b, sender, token, funds);
        SweptSame(c, d, s.swept);
      case DoDeposit(sender, funds) =>
        DepositReaches(c, q, b, sender, funds);
        SweptSame(c, d, s.swept);
      case DoUnbond(from, n) =>
        UnbondReaches(c, q, b, if c.config.token.Some? then c.config.token.value else from, from, n);
        SweptSame(c, d, s.swept);
      case DoClaim(who, ids) =>
        ClaimReaches(c, b, who, ids);
        SweptSame(c, d, s.swept);
      case DoAdvance =>
        AdvanceReaches(c, b);
        SweptSame(c, d, s.swept);
      case DoCollect(limit) =>
        CollectReaches(c, b, limit);
        SweptSame(c, d, s.swept);
      case DoRebalance(sender, plan) =>
        RebalanceKeeps(c, sender, plan);
        ManagerCursor(s, tx);
        SweptSame(c, d, s.swept);
      case _ =>
        ManagerCursor(s, tx);
        SweptSame(c, d, s.swept);
    }
  }

  lemma {:induction false} SweptSame(c: Core, d: Core, swept: set<Addr>)
    requires SweptOk(c, swept) && d.cursor == c.cursor && Addresses(d.vals) == Addresses(c.vals)
    ensures SweptOk(d, swept)
  {
    assert |d.vals| == |c.vals|;
    assert Addresses(d.vals)[..|c.vals|] == Addresses(c.vals);
    SweptStays(c, d, swept);
  }

  lemma {:induction false} SetWeightsCursor(c: Core, sender: Addr, ws: seq<ValidatorInit>)
    requires SetWeights(c, sender, ws).Ok?
    ensures SetWeights(c, sender, ws).value.core.cursor == c.cursor
  {
  }

  lemma {:induction false} ManagerCursor(s: Sys, tx: Tx)
    requires Commits(s, tx) && (tx.DoRebalance? || tx.DoSetFee? || tx.DoSetPaused?)
    ensures Handled(s, tx).core.cursor == s.core.cursor
    ensures !tx.DoRebalance? ==> Handled(s, tx).core.vals == s.core.vals
  {
  }

  lemma {:induction false} SyncSweeps(s: Sys, tx: Tx)
    requires CoreOk(s.core) && SweptOk(s.core, s.swept) && Commits(s, tx) && tx.DoSync?
    ensures SweptOk(Handled(s, tx).core, SweptAfter(s, tx))
  {
    hide CoreOk, SweptOk;
    SyncKeeps(s.core, s.chain, tx.limit);
    SweepAdvances(s, tx, SweepOf(s.core, tx).value);
  }

  lemma {:induction false} CompoundSweeps(s: Sys, tx: Tx)
    requires CoreOk(s.core) && SweptOk(s.core, s.swept) && Commits(s, tx) && tx.DoCompound?
    ensures SweptOk(Handled(s, tx).core, SweptAfter(s, tx))
  {
    hide CoreOk, SweptOk, Compound;
    CompoundKeeps(s.core, s.chain, tx.limit);
    var end, harvested, r := CompoundForm(s.core, s.chain, tx.limit);
    SweepAdvances(s, tx, end);
  }

  // ---- the world ----

  lemma {:induction false} EntryUpdated(queue: seq<UnbondEntry>, i: nat, e: UnbondEntry, ws: seq<UnbondWindow>,
        unbondTime: nat)
    requires QueueOk(queue, ws, unbondTime) && i < |queue|
    requires e == queue[i].(amount := e.amount, released := e.released) && e.amount <= queue[i].amount
    ensures QueueOk(queue[i := e], ws, unbondTime)
  {
    var updated := queue[i := e];
    forall k | 0 <= k < |queue| ensures EntryValid(updated[k], ws, unbondTime) {
      assert EntryValid(queue[k], ws, unbondTime) && EntryValid(queue[i], ws, unbondTime);
    }
    forall id | 0 <= id < |ws| - 1 ensures QueuedFor(queue[i := e], ws[id], id) {
      assert QueuedFor(queue, ws[id], id);
      SumUpdate(queue, i, e, OriginalFor(id));
      forall v ensures SumSeq(queue[i := e], EntriesFor(v, id)) == if v in ws[id].validatorsUsed then 1 else 0 {
        SumUpdate(queue, i, e, EntriesFor(v, id));
      }
    }
  }

  /** Nothing the world does breaks what the contract relies on. */
  lemma {:induction false} WorldKeeps(c: Core, q: Chain, e: Event)
    requires ChainOk(c, q)
    ensures ChainOk(c, Happen(q, e))
  {
    hide QueueOk;
    match e {
      case SlashEntry(i, n) =>
        if i < |q.queue| && !q.queue[i].released {
          EntryUpdated(q.queue, i, q.queue[i].(amount := SatSub(q.queue[i].amount, n)), c.windows, q.unbondTime);
        }
      case Release(i) =>
        if i < |q.queue| {
          EntryUpdated(q.queue, i, q.queue[i].(released := true), c.windows, q.unbondTime);
        }
      case _ =>
    }
  }

  // ---- every reachable state ----

  lemma {:induction false} NextKeeps(s: Sys, step: Step)
    requires SysOk(s)
    ensures SysOk(Next(s, step))
  {
    hide CoreOk, ChainOk, SweptOk, Credited, Handle, SweptAfter;
    match step {
      case Do(tx) =>
        TransactKeeps(s, tx);
        if Commits(s, tx) {
          TransactSweeps(s, tx);
        }
      case World(e) => WorldKeeps(s.core, s.chain, e);
    }
  }

  lemma {:induction false} FirstWindow(m: InstantiateMsg, sender: Addr, q: Chain)
    requires Instantiated(m, sender, q.now).Ok? && q.queue == [] && q.ownTokens <= q.supply
    ensures var c := Instantiated(m, sender, q.now).value; ChainOk(c, q) && c.cursor == 0
  {
    SumZero(Instantiated(m, sender, q.now).value.windows, MaturedOutstanding);
  }

  lemma {:induction false} FreshOk(s: Sys)
    requires Fresh(s)
    ensures SysOk(s)
  {
    hide Instantiated, CoreOk, ChainOk;
    var m, sender :| Instantiated(m, sender, s.chain.now) == Ok(s.core);
    InstantiateEstablishes(m, sender, s.chain.now);
    FirstWindow(m, sender, s.chain);
  }

  /** Whatever callers and the world do, in whatever order, every invariant holds. */
  lemma {:induction false} ReachableOk(s: Sys, steps: seq<Step>)
    requires Fresh(s)
    ensures SysOk(After(s, steps))
  {
    hide SysOk, Fresh;
    if steps == [] {
      FreshOk(s);
    } else {
      ReachableOk(s, steps[..|steps| - 1]);
      NextKeeps(After(s, steps[..|steps| - 1]), steps[|steps| - 1]);
    }
  }
}
