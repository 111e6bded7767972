/** With nothing slashed on its way back, and the SCRT of every mature window back when the contract
    matures it, every window matures whole; and the balance always holds what that takes. */
module Whole {
  import opened Prelude
  import opened Sums
  import opened Types
  import opened Math
  import opened Windows
  import opened Validators
  import opened Plans
  import opened Chain
  import opened Engine
  import opened Invariants
  import opened Roster
  import opened Closing
  import opened Maturing
  import opened Claims
  import opened Keeping
  import opened System
  import opened Reach
  import opened Limits
  import opened Worth

  // ---- a window whose SCRT is all back matures whole ----

  function ReleasedFor(id: nat): UnbondEntry -> nat {
    (e: UnbondEntry) => if e.window == id && e.released then e.amount else 0
  }

  /** Everything undelegated for window `id` has come back. */
  ghost predicate Returned(queue: seq<UnbondEntry>, w: UnbondWindow, id: nat) {
    SumSeq(queue, ReleasedFor(id)) == w.scrtOwed
  }

  /** The chain has released the entries of every window the contract may mature now. Nothing is asked
      of other entries, nor of how long the chain takes. */
  ghost predicate DueBack(c: Core, q: Chain) {
    forall i :: 0 <= i < |q.queue| && q.queue[i].window < |c.windows| && IsMature(c.windows[q.queue[i].window], q.now)
      ==> q.queue[i].released
  }

  /** A chain that unbonds in time and has released what is due leaves nothing of that kind out. */
  lemma {:induction false} PromptIsDueBack(c: Core, q: Chain)
    requires CoreOk(c) && ChainOk(c, q) && Prompt(q) && InTime(c, q)
    ensures DueBack(c, q)
  {
    forall i | 0 <= i < |q.queue| && q.queue[i].window < |c.windows| && IsMature(c.windows[q.queue[i].window], q.now)
      ensures q.queue[i].released
    {
      EntryCompletesFirst(c, q, i);
    }
  }

  /** A mature window whose entries are released has all its SCRT back, if none of it was slashed. */
  lemma {:induction false} DueIsReturned(c: Core, q: Chain, id: nat)
    requires CoreOk(c) && ChainOk(c, q) && Unslashed(q) && DueBack(c, q)
    requires id < |c.windows| && IsMature(c.windows[id], q.now)
    ensures Returned(q.queue, c.windows[id], id)
  {
    assert WindowOk(c.windows, id, c.config.params.unbondWindowSecs, c.config.params.unbondingPeriodSecs);
    assert QueuedFor(q.queue, c.windows[id], id);
    forall i | 0 <= i < |q.queue| ensures ReleasedFor(id)(q.queue[i]) == OriginalFor(id)(q.queue[i]) {
    }
    SumSame(q.queue, ReleasedFor(id), q.queue, OriginalFor(id));
  }

  /** Marking a window matured takes its returned SCRT out of the unmarked sum. */
  lemma {:induction false} MarkedOff(queue: seq<UnbondEntry>, ws: seq<UnbondWindow>, id: nat, w: UnbondWindow)
    requires id < |ws| && ws[id].state == Unbonding && w.state == Matured && Returned(queue, ws[id], id)
    ensures SumSeq(queue, ReleasedUnmarked(ws)) == SumSeq(queue, ReleasedUnmarked(ws[id := w])) + ws[id].scrtOwed
  {
    SumSplit(queue, ReleasedUnmarked(ws), ReleasedUnmarked(ws[id := w]), ReleasedFor(id));
  }

  ghost predicate DueReturned(queue: seq<UnbondEntry>, ids: seq<nat>, ws: seq<UnbondWindow>, now: nat) {
    forall k :: 0 <= k < |ids| && ids[k] < |ws| && IsMature(ws[ids[k]], now) ==> Returned(queue, ws[ids[k]], ids[k])
  }

  lemma {:induction false} DueReturnedRest(queue: seq<UnbondEntry>, ids: seq<nat>, ws: seq<UnbondWindow>, now: nat,
        w: UnbondWindow)
    requires ids != [] && Waiting(ids, ws) && DueReturned(queue, ids, ws, now)
    ensures DueReturned(queue, ids[1..], ws, now)
    ensures DueReturned(queue, ids[1..], ws[ids[0] := w], now)
  {
    forall k | 0 <= k < |ids[1..]| ensures ids[1..][k] != ids[0] {
      assert ids[0] < ids[k + 1];
    }
  }

  ghost predicate RealisedWhole(ws: seq<UnbondWindow>, us: seq<UnbondWindow>, matured: seq<nat>) {
    |us| == |ws| && forall i :: 0 <= i < |ws| && i in matured ==> us[i].scrtRealised == Some(ws[i].scrtOwed)
  }

  /** When the balance covers what is spoken for and everything returned but unmarked, each due
      window realises all it owes. */
  lemma {:induction false} MatureInFull(ids: seq<nat>, ws: seq<UnbondWindow>, now: nat, balance: nat, spoken: nat,
        room: nat, queue: seq<UnbondEntry>)
    requires Waiting(ids, ws) && DueReturned(queue, ids, ws, now)
    requires spoken + SumSeq(queue, ReleasedUnmarked(ws)) <= balance
    ensures var m := MatureFrom(ids, ws, now, balance, spoken, room);
            && m.realised == m.promised
            && RealisedWhole(ws, m.windows, m.matured)
            && spoken + m.realised + SumSeq(queue, ReleasedUnmarked(m.windows)) <= balance
    decreases |ids|
  {
    hide MatureFrom, DueReturned, RealisedWhole, Returned;
    if ids == [] || room == 0 {
      MatureFromStops(ids, ws, now, balance, spoken, room);
      NothingMatured(ws);
    } else if IsMature(ws[ids[0]], now) {
      var id := ids[0];
      var w := Mature(ws[id], SatSub(balance, spoken));
      var r := MatureFrom(ids[1..], ws[id := w], now, balance, spoken + w.Payable(), room - 1);
      WaitingRest(ids, ws, w);
      MatureFromTakes(ids, ws, now, balance, spoken, room);
      FirstReturned(queue, ids, ws, now);
      MarkedOff(queue, ws, id, w);
      DueReturnedRest(queue, ids, ws, now, w);
      MatureInFull(ids[1..], ws[id := w], now, balance, spoken + w.Payable(), room - 1, queue);
      MatureFromWindows(ids[1..], ws[id := w], now, balance, spoken + w.Payable(), room - 1);
      RealisedStep(ws, id, w, r.windows, r.matured, ids[1..], now);
    } else {
      WaitingRest(ids, ws, ws[ids[0]]);
      MatureFromSkips(ids, ws, now, balance, spoken, room);
      DueReturnedRest(queue, ids, ws, now, ws[ids[0]]);
      MatureInFull(ids[1..], ws, now, balance, spoken, room, queue);
    }
  }

  lemma {:induction false} NothingMatured(ws: seq<UnbondWindow>)
    ensures RealisedWhole(ws, ws, [])
  {
  }

  lemma {:induction false} FirstReturned(queue: seq<UnbondEntry>, ids: seq<nat>, ws: seq<UnbondWindow>, now: nat)
    requires ids != [] && Waiting(ids, ws) && DueReturned(queue, ids, ws, now) && IsMature(ws[ids[0]], now)
    ensures Returned(queue, ws[ids[0]], ids[0])
  {
  }

  lemma {:induction false} RealisedStep(ws: seq<UnbondWindow>, id: nat, w: UnbondWindow, us: seq<UnbondWindow>,
        matured: seq<nat>, ids: seq<nat>, now: nat)
    requires id < |ws| && w.scrtRealised == Some(ws[id].scrtOwed) && w.scrtOwed == ws[id].scrtOwed && w.state == Matured
    requires MaturedTable(ws[id := w], us, matured, ids, now) && RealisedWhole(ws[id := w], us, matured)
    ensures RealisedWhole(ws, us, [id] + matured)
  {
    assert id !in matured;
    forall i | 0 <= i < |ws| && i in [id] + matured ensures us[i].scrtRealised == Some(ws[i].scrtOwed) {
    }
  }

  // ---- the invariant of a run without losses in flight ----

  /** Windows that have matured received all they owed. */
  ghost predicate WindowsWhole(ws: seq<UnbondWindow>) {
    forall i :: 0 <= i < |ws| && (ws[i].state == Matured || ws[i].state == Settled) ==> ws[i].scrtRealised == Some(ws[i].scrtOwed)
  }

  /** The balance holds what matured windows owe and everything returned for windows still unmarked. */
  ghost predicate Funded(ws: seq<UnbondWindow>, q: Chain) {
    SumSeq(ws, MaturedOutstanding) + SumSeq(q.queue, ReleasedUnmarked(ws)) <= q.balance
  }

  ghost predicate Lossless(c: Core, q: Chain) {
    Unslashed(q) && WindowsWhole(c.windows) && Funded(c.windows, q)
  }

  // ---- transactions that mature nothing ----

  /** Only the open window, and windows opened after it, may differ. */
  ghost predicate Rolls(c: Core, d: Core) {
    && 0 < |c.windows| <= |d.windows|
    && (forall i :: 0 <= i < |c.windows| - 1 ==> d.windows[i] == c.windows[i])
    && (forall i :: |c.windows| - 1 <= i < |d.windows| ==>
          || d.windows[i].state == Open || d.windows[i].state == Unbonding
          || (d.windows[i].state == Settled && d.windows[i].scrtRealised == Some(d.windows[i].scrtOwed)))
    && d.totals.scrtOwedMatured == c.totals.scrtOwedMatured
  }

  lemma {:induction false} RollsSame(c: Core, d: Core)
    requires CoreOk(c) && d.windows == c.windows && d.totals.scrtOwedMatured == c.totals.scrtOwedMatured
    ensures Rolls(c, d)
  {
    assert WindowOk(c.windows, c.openId, c.config.params.unbondWindowSecs, c.config.params.unbondingPeriodSecs);
  }

  lemma {:induction false} RollsThen(c: Core, e: Core, d: Core)
    requires Rolls(c, e) && Rolls(e, d) && |e.windows| == |c.windows|
    ensures Rolls(c, d)
  {
  }

  lemma {:induction false} RollsClosed(c: Core, now: nat)
    requires CoreOk(c) && ClosedOpen(c, now).Ok?
    ensures Rolls(c, ClosedOpen(c, now).value.core)
  {
    hide SetOk, StakeOk, SlotsOk, ActiveOk, BucketsOk, LedgerOk, IndexOk, IsPlan, LegAddresses, LegMsgs, Drawn;
    var legs, closed := ClosedForm(c, now);
    assert WindowOk(c.windows, c.openId, c.config.params.unbondWindowSecs, c.config.params.unbondingPeriodSecs);
  }

  lemma {:induction false} RollsOverdue(c: Core, now: nat)
    requires CoreOk(c) && ClosedIfOverdue(c, now).Ok?
    ensures Rolls(c, ClosedIfOverdue(c, now).value.core)
  {
    hide ClosedOpen, ClosedIfOverdue, Rolls, SetOk, StakeOk, SlotsOk, ActiveOk, BucketsOk, LedgerOk, IndexOk;
    OverdueCases(c, now);
    if ClosedIfOverdue(c, now) == Ok(Done(c, [])) {
      RollsSame(c, c);
    } else {
      RollsClosed(c, now);
    }
  }

  lemma {:induction false} RollsPromised(c: Core, who: Addr, shares: nat, owed: nat)
    requires CoreOk(c)
    ensures Rolls(c, Promised(c, who, shares, owed)) && |Promised(c, who, shares, owed).windows| == |c.windows|
  {
    assert WindowOk(c.windows, c.openId, c.config.params.unbondWindowSecs, c.config.params.unbondingPeriodSecs);
  }

  lemma {:induction false} RollsDeposit(c: Core, b: Chain, sender: Addr, funds: seq<Coin>)
    requires CoreOk(c) && Deposit(c, b, sender, funds).Ok?
    ensures Rolls(c, Deposit(c, b, sender, funds).value.core)
  {
    hide SharesForDeposit, ClosedIfOverdue, CoreOk, Deposit, Rolls;
    var deposit, r, shares, i, d := DepositForm(c, b, sender, funds);
    RefreshKeepsCore(c, b);
    PlacedKeepsCore(r, i, deposit, shares);
    RollsSame(c, Placed(r, i, deposit, shares));
    RollsOverdue(Placed(r, i, deposit, shares), b.now);
    RollsThen(c, Placed(r, i, deposit, shares), d.core);
  }

  lemma {:induction false} RollsUnbond(c: Core, b: Chain, sender: Addr, from: Addr, amount: nat)
    requires CoreOk(c) && Unbond(c, b, sender, from, amount).Ok?
    ensures Rolls(c, Unbond(c, b, sender, from, amount).value.core)
  {
    hide AssetsForShares, ClosedIfOverdue, CoreOk, Unbond, Rolls, Promised;
    var r, owed, d := UnbondForm(c, b, sender, from, amount);
    RefreshKeepsCore(c, b);
    PromisedKeepsCore(r, from, amount, owed);
    RollsSame(c, r);
    RollsPromised(r, from, amount, owed);
    RollsThen(c, r, Promised(r, from, amount, owed));
    RollsOverdue(Promised(r, from, amount, owed), b.now);
    RollsThen(c, Promised(r, from, amount, owed), d.core);
  }

  predicate Matures(tx: Tx) { tx.DoClaim? || tx.DoCollect? }

  lemma {:induction false} HandledRolls(s: Sys, tx: Tx)
    requires SysOk(s) && Commits(s, tx) && !Matures(tx)
    ensures Rolls(s.core, Handled(s, tx).core)
  {
    hide CoreOk, ChainOk, SweptOk, Rolls, Deposit, Unbond, ClosedOpen;
    var c, b := s.core, Attached(s, tx);
    match tx {
      case DoDeposit(sender, funds) => RollsDeposit(c, b, sender, funds);
      case DoUnbond(from, n) => RollsUnbond(c, b, if c.config.token.Some? then c.config.token.value else from, from, n);
      case DoAdvance => RollsClosed(c, b.now);
      case DoClaim(_, _) =>
      case DoCollect(_) =>
      case _ => RollsSame(c, Handled(s, tx).core);
    }
  }

  /** No transaction but a claim leaves the balance below where it found it. */
  lemma {:induction false} BalanceKept(s: Sys, tx: Tx)
    requires SysOk(s) && Commits(s, tx) && !tx.DoClaim?
    ensures Transact(s, tx).chain.balance >= s.chain.balance
  {
    hide CoreOk, QueueOk, TimeOk, SweptOk, Bootstrap, Deposit, Unbond, ClaimMatured, AdvanceWindow, CollectMatured,
          Sync, Compound,
         SetWeights, SetPerformanceFee, SetPaused, Rebalance, Sound, Covered, Solvent, SweptAfter;
    var c, q, b, d := s.core, s.chain, Attached(s, tx), Handled(s, tx);
    RunFrame(b, d.msgs);
    match tx {
      case DoBootstrap(sender, token, funds) =>
        BootstrapReaches(c, q, b, sender, token, funds);
        SoundPays(b, d, Coins(funds, c.config.bondedDenom), 0);
      case DoCompound(limit) =>
        CompoundBalance(s, limit);
      case DoDeposit(sender, funds) =>
        DepositReaches(c, q, b, sender, funds);
        SoundPays(b, d, Coins(funds, c.config.bondedDenom), 0);
      case DoUnbond(from, n) =>
        UnbondReaches(c, q, b, if c.config.token.Some? then c.config.token.value else from, from, n);
        SoundPays(b, d, 0, n);
      case DoAdvance =>
        AdvanceReaches(c, b);
        SoundPays(b, d, 0, 0);
      case DoCollect(limit) =>
        CollectReaches(c, b, limit);
        SoundPays(b, d, 0, 0);
      case DoClaim(_, _) =>
      case _ =>
        UpkeepKeeps(c, b, tx);
        SoundPays(b, d, 0, 0);
    }
  }

  lemma {:induction false} SoundPays(b: Chain, d: Done, paid: nat, burned: nat)
    requires Sound(b, d, paid, burned)
    ensures SumSeq(d.msgs, Paid) == paid
  {
  }

  lemma {:induction false} CompoundBalance(s: Sys, limit: Option<nat>)
    requires SysOk(s) && Commits(s, DoCompound(limit))
    ensures Transact(s, DoCompound(limit)).chain.balance >= s.chain.balance
  {
    hide Compound, ChainOk, SweptOk, SweptAfter;
    CompoundPays(s.core, s.chain, limit);
  }

  /** The queue after a transaction is the queue before plus entries just made. */
  lemma {:induction false} QueueGrows(s: Sys, tx: Tx)
    requires Commits(s, tx)
    ensures var q, r := s.chain.queue, Transact(s, tx).chain.queue;
            && |q| <= |r| && r[..|q|] == q
            && (forall i :: |q| <= i < |r| ==> !r[i].released && r[i].amount == r[i].original)
    ensures Transact(s, tx).chain.unbondTime == s.chain.unbondTime
  {
    hide Handle, SweptAfter;
    var b, d := Attached(s, tx), Handled(s, tx);
    RunFrame(b, d.msgs);
    NewEntriesFresh(d.msgs, b.now + b.unbondTime);
  }

  /** Fresh entries add nothing to the unmarked sum. */
  lemma {:induction false} UnmarkedGrows(q: seq<UnbondEntry>, r: seq<UnbondEntry>, ws: seq<UnbondWindow>)
    requires |q| <= |r| && r[..|q|] == q && forall i :: |q| <= i < |r| ==> !r[i].released
    ensures SumSeq(r, ReleasedUnmarked(ws)) == SumSeq(q, ReleasedUnmarked(ws))
  {
    assert r == q + r[|q|..];
    SumConcat(q, r[|q|..], ReleasedUnmarked(ws));
    SumZero(r[|q|..], ReleasedUnmarked(ws));
  }

  lemma {:induction false} UnmarkedRolls(c: Core, d: Core, queue: seq<UnbondEntry>, unbondTime: nat)
    requires QueueOk(queue, c.windows, unbondTime) && Rolls(c, d)
    ensures SumSeq(queue, ReleasedUnmarked(d.windows)) == SumSeq(queue, ReleasedUnmarked(c.windows))
  {
    forall i | 0 <= i < |queue| ensures ReleasedUnmarked(d.windows)(queue[i]) == ReleasedUnmarked(c.windows)(queue[i]) {
      assert EntryValid(queue[i], c.windows, unbondTime);
    }
    SumSame(queue, ReleasedUnmarked(d.windows), queue, ReleasedUnmarked(c.windows));
  }

  lemma {:induction false} RollsWhole(c: Core, d: Core)
    requires WindowsWhole(c.windows) && Rolls(c, d)
    ensures WindowsWhole(d.windows)
  {
  }

  lemma {:induction false} GrownUnslashed(s: Sys, tx: Tx)
    requires Commits(s, tx) && Unslashed(s.chain)
    ensures Unslashed(Transact(s, tx).chain)
  {
    hide Transact;
    QueueGrows(s, tx);
    var q, r := s.chain.queue, Transact(s, tx).chain.queue;
    forall i | 0 <= i < |r| ensures r[i].amount == r[i].original {
      if i < |q| {
        assert r[i] == r[..|q|][i] == q[i];
      }
    }
  }

  lemma {:induction false} RollingIsLossless(s: Sys, tx: Tx)
    requires SysOk(s) && Commits(s, tx) && !Matures(tx) && Lossless(s.core, s.chain)
    ensures Lossless(Transact(s, tx).core, Transact(s, tx).chain)
  {
    hide CoreOk, QueueOk, TimeOk, SweptOk, Handle, SweptAfter, Unslashed, WindowsWhole, Rolls;
    var c, d, q, r := s.core, Handled(s, tx).core, s.chain, Transact(s, tx).chain;
    HandledRolls(s, tx);
    BalanceKept(s, tx);
    QueueGrows(s, tx);
    GrownUnslashed(s, tx);
    UnmarkedGrows(q.queue, r.queue, d.windows);
    UnmarkedRolls(c, d, q.queue, q.unbondTime);
    RollsWhole(c, d);
    RollsParts(c, d);
    TransactKeeps(s, tx);
    MaturedBucket(c);
    MaturedBucket(d);
  }

  lemma {:induction false} RollsParts(c: Core, d: Core)
    requires Rolls(c, d)
    ensures d.totals.scrtOwedMatured == c.totals.scrtOwedMatured
  {
  }

  // ---- transactions that mature windows ----

  /** The table and the balance after a maturing pass with everything due back. */
  lemma {:induction false} PassIsLossless(c: Core, q: Chain, limit: nat)
    requires CoreOk(c) && ChainOk(c, q) && DueBack(c, q) && Lossless(c, q)
    ensures var d := MatureDue(c, q.now, q.balance, limit).core; WindowsWhole(d.windows) && Funded(d.windows, q)
  {
    var spoken := SumSeq(c.active, SpokenAt(c.windows));
    var m := MatureFrom(c.active, c.windows, q.now, q.balance, spoken, Max(limit, 1));
    if m.matured != [] {
      PassRealises(c, q, limit, m);
      PassWhole(c, q, limit, m);
      PassFunded(c, q, limit, m);
    }
  }

  lemma {:induction false} PassRealises(c: Core, q: Chain, limit: nat, m: Engine.Maturing)
    requires CoreOk(c) && ChainOk(c, q) && DueBack(c, q) && Lossless(c, q) && Due(c, q.balance, m, q.now, limit)
    ensures RealisedWhole(c.windows, m.windows, m.matured)
    ensures SumSeq(c.windows, MaturedOutstanding) + m.realised + SumSeq(q.queue, ReleasedUnmarked(m.windows)) <= q.balance
  {
    hide MatureFrom, Returned, RealisedWhole, DueBack, Unslashed, QueueOk, TimeOk, SetOk, StakeOk, SlotsOk, LedgerOk,
          IndexOk, BucketsOk;
    var spoken := SumSeq(c.active, SpokenAt(c.windows));
    ActiveWaits(c);
    SpokenForIs(c.active, c.windows);
    forall k | 0 <= k < |c.active| && c.active[k] < |c.windows| && IsMature(c.windows[c.active[k]], q.now)
      ensures Returned(q.queue, c.windows[c.active[k]], c.active[k])
    {
      DueIsReturned(c, q, c.active[k]);
    }
    MatureInFull(c.active, c.windows, q.now, q.balance, spoken, Max(limit, 1), q.queue);
  }

  lemma {:induction false} PassWhole(c: Core, q: Chain, limit: nat, m: Engine.Maturing)
    requires CoreOk(c) && WindowsWhole(c.windows) && Due(c, q.balance, m, q.now, limit)
    requires RealisedWhole(c.windows, m.windows, m.matured)
    ensures WindowsWhole(m.windows)
  {
    hide MatureFrom, SetOk, StakeOk, SlotsOk, LedgerOk, IndexOk, BucketsOk;
    ActiveWaits(c);
    MatureFromWindows(c.active, c.windows, q.now, q.balance, SumSeq(c.active, SpokenAt(c.windows)), Max(limit, 1));
  }

  lemma {:induction false} PassFunded(c: Core, q: Chain, limit: nat, m: Engine.Maturing)
    requires CoreOk(c) && Due(c, q.balance, m, q.now, limit)
    requires SumSeq(c.windows, MaturedOutstanding) + m.realised + SumSeq(q.queue, ReleasedUnmarked(m.windows)) <= q.balance
    ensures Funded(m.windows, q)
  {
    hide MatureFrom, SetOk, StakeOk, SlotsOk, LedgerOk, IndexOk;
    var p, u := c.config.params.unbondWindowSecs, c.config.params.unbondingPeriodSecs;
    ActiveWaits(c);
    forall i | 0 <= i < |c.windows| && c.windows[i].state == Unbonding ensures c.windows[i].scrtClaimed == 0 {
      assert WindowOk(c.windows, i, p, u);
    }
    MatureFromRealised(c.active, c.windows, q.now, q.balance, SumSeq(c.active, SpokenAt(c.windows)), Max(limit, 1));
  }

  lemma {:induction false} CollectIsLossless(s: Sys, limit: Option<nat>)
    requires SysOk(s) && Commits(s, DoCollect(limit)) && DueBack(s.core, s.chain) && Lossless(s.core, s.chain)
    ensures var t := Transact(s, DoCollect(limit)); Lossless(t.core, t.chain)
  {
    hide CoreOk, ChainOk, SweptOk, MatureDue, DueBack, Funded, WindowsWhole;
    var n := if limit.Some? then limit.value else DEFAULT_SYNC_LIMIT;
    PassIsLossless(s.core, s.chain, n);
    MatureFrame(s.core, s.chain.now, s.chain.balance, n);
  }

  /** Paying claims takes as much off the debt as off the balance. */
  lemma {:induction false} ClaimIsLossless(s: Sys, who: Addr, ids: Option<seq<nat>>)
    requires SysOk(s) && Commits(s, DoClaim(who, ids)) && DueBack(s.core, s.chain) && Lossless(s.core, s.chain)
    ensures var t := Transact(s, DoClaim(who, ids)); Lossless(t.core, t.chain)
  {
    hide CoreOk, ChainOk, SweptOk, MatureDue, ClaimFrom, ClaimMatured, DueBack, Funded, WindowsWhole, Unslashed,
          SweptAfter;
    var c, q := s.core, s.chain;
    var m, wanted, r := ClaimForm(c, q, who, ids);
    PassIsLossless(c, q, U32_MAX);
    MatureKeepsCore(c, q.now, q.balance, U32_MAX);
    MatureFrame(c, q.now, q.balance, U32_MAX);
    ClaimWindows(m, who, wanted, r);
    SendRuns(q, who, r.paid);
    PaidWhole(m.windows, r.windows);
    PaidFunded(m.windows, r.windows, q, Transact(s, DoClaim(who, ids)).chain, r.paid);
    GrownUnslashed(s, DoClaim(who, ids));
  }

  lemma {:induction false} SendRuns(q: Chain, who: Addr, n: nat)
    requires Run(q, [Send(who, n)]).Some?
    ensures Run(q, [Send(who, n)]).value == q.(balance := q.balance - n) && n <= q.balance
  {
    assert [Send(who, n)][1..] == [];
  }

  lemma {:induction false} PaidWhole(ws: seq<UnbondWindow>, us: seq<UnbondWindow>)
    requires WindowsWhole(ws) && |us| == |ws| && forall i :: 0 <= i < |ws| ==> PaidFurther(ws[i], us[i])
    ensures WindowsWhole(us)
  {
    forall i | 0 <= i < |us| && (us[i].state == Matured || us[i].state == Settled) ensures us[i].scrtRealised == Some(us[i].scrtOwed) {
      assert PaidFurther(ws[i], us[i]);
    }
  }

  lemma {:induction false} PaidFunded(ws: seq<UnbondWindow>, us: seq<UnbondWindow>, q: Chain, r: Chain, paid: nat)
    requires Funded(ws, q) && |us| == |ws| && forall i :: 0 <= i < |ws| ==> PaidFurther(ws[i], us[i])
    requires SumSeq(us, MaturedOutstanding) + paid == SumSeq(ws, MaturedOutstanding)
    requires r.queue == q.queue && r.balance + paid == q.balance
    ensures Funded(us, r)
  {
    forall i | 0 <= i < |q.queue| ensures ReleasedUnmarked(us)(q.queue[i]) == ReleasedUnmarked(ws)(q.queue[i]) {
      assert q.queue[i].window < |ws| ==> PaidFurther(ws[q.queue[i].window], us[q.queue[i].window]);
    }
    SumSame(q.queue, ReleasedUnmarked(us), q.queue, ReleasedUnmarked(ws));
  }

  // ---- the world ----

  lemma {:induction false} WorldIsLossless(c: Core, q: Chain, e: Event)
    requires ChainOk(c, q) && Lossless(c, q) && !e.SlashEntry?
    ensures Lossless(c, Happen(q, e))
  {
    if e.Release? && e.i < |q.queue| {
      SumUpdate(q.queue, e.i, q.queue[e.i].(released := true), ReleasedUnmarked(c.windows));
    }
  }

  // ---- whole runs ----

  /** No entry is slashed on its way back, and whenever a claim or a collection goes through, the chain
      has released the entries of the windows that are mature. */
  ghost predicate Calm(s: Sys, steps: seq<Step>) {
    forall i :: 0 <= i < |steps| ==> CalmStep(After(s, steps[..i]), steps[i])
  }

  ghost predicate CalmStep(s: Sys, step: Step) {
    match step
    case Do(tx) => Matures(tx) && Commits(s, tx) ==> DueBack(s.core, s.chain)
    case World(e) => !e.SlashEntry?
  }

  lemma {:induction false} NextIsLossless(s: Sys, step: Step)
    requires SysOk(s) && Lossless(s.core, s.chain) && CalmStep(s, step)
    ensures Lossless(Next(s, step).core, Next(s, step).chain)
  {
    hide CoreOk, SweptOk, Lossless, Commits, Transact, DueBack;
    match step {
      case Do(tx) =>
        if !Commits(s, tx) {
          RefusedChangesNothing(s, tx);
        } else if tx.DoClaim? {
          ClaimIsLossless(s, tx.who, tx.ids);
        } else if tx.DoCollect? {
          CollectIsLossless(s, tx.limit);
        } else {
          RollingIsLossless(s, tx);
        }
      case World(e) => WorldIsLossless(s.core, s.chain, e);
    }
  }

  lemma {:induction false} RefusedChangesNothing(s: Sys, tx: Tx)
    requires !Commits(s, tx)
    ensures Transact(s, tx) == s
  {
  }

  lemma {:induction false} FreshIsLossless(s: Sys)
    requires Fresh(s)
    ensures Lossless(s.core, s.chain)
  {
    FreshOk(s);
    var m, sender :| Instantiated(m, sender, s.chain.now) == Ok(s.core);
    FirstWindowWhole(m, sender, s.chain);
  }

  lemma {:induction false} FirstWindowWhole(m: InstantiateMsg, sender: Addr, q: Chain)
    requires Instantiated(m, sender, q.now).Ok? && q.queue == []
    ensures var ws := Instantiated(m, sender, q.now).value.windows; WindowsWhole(ws) && Funded(ws, q)
  {
    SumZero(Instantiated(m, sender, q.now).value.windows, MaturedOutstanding);
  }

  lemma {:induction false} CalmPrefix(s: Sys, steps: seq<Step>)
    requires steps != [] && Calm(s, steps)
    ensures Calm(s, steps[..|steps| - 1])
    ensures CalmStep(After(s, steps[..|steps| - 1]), steps[|steps| - 1])
  {
    hide CalmStep;
    var init := steps[..|steps| - 1];
    forall i | 0 <= i < |init| ensures CalmStep(After(s, init[..i]), init[i]) {
      assert init[..i] == steps[..i];
    }
  }

  lemma {:induction false} RunIsLossless(s: Sys, steps: seq<Step>)
    requires Fresh(s) && Calm(s, steps)
    ensures Lossless(After(s, steps).core, After(s, steps).chain)
  {
    hide Fresh, SysOk, Lossless, Calm, CalmStep;
    if steps == [] {
      FreshIsLossless(s);
    } else {
      CalmPrefix(s, steps);
      RunIsLossless(s, steps[..|steps| - 1]);
      ReachableOk(s, steps[..|steps| - 1]);
      NextIsLossless(After(s, steps[..|steps| - 1]), steps[|steps| - 1]);
    }
  }
}
