/** Exactly when everyone is paid in full: a condition on the figures each claim or collection finds,
    for all runs, slashing, late chains and donations included. */
module Covering {
  import opened Prelude
  import opened Sums
  import opened Types
  import opened Windows
  import opened Validators
  import opened Chain
  import opened Engine
  import opened Invariants
  import opened Maturing
  import opened Claims
  import opened Keeping
  import opened System
  import opened Reach
  import opened History
  import opened Limits
  import opened Worth
  import opened Whole

  // ---- one pass ----

  /** What the first `room` due windows of a list owe; nothing here depends on the balance. */
  function DueOwed(ids: seq<nat>, ws: seq<UnbondWindow>, now: nat, room: nat): nat
    decreases |ids|
  {
    if ids == [] || room == 0 then 0
    else if ids[0] < |ws| && IsMature(ws[ids[0]], now) then ws[ids[0]].scrtOwed + DueOwed(ids[1..], ws, now, room - 1)
    else DueOwed(ids[1..], ws, now, room)
  }

  lemma {:induction false} DueOwedElsewhere(ids: seq<nat>, ws: seq<UnbondWindow>, now: nat, room: nat, id: nat,
        w: UnbondWindow)
    requires id < |ws| && forall k :: 0 <= k < |ids| ==> ids[k] != id
    ensures DueOwed(ids, ws[id := w], now, room) == DueOwed(ids, ws, now, room)
    decreases |ids|
  {
    if ids != [] && room != 0 {
      if ids[0] < |ws| && IsMature(ws[ids[0]], now) {
        DueOwedElsewhere(ids[1..], ws, now, room - 1, id, w);
      } else {
        DueOwedElsewhere(ids[1..], ws, now, room, id, w);
      }
    }
  }

  /** What a pass takes out of the unbonding debt is what the due windows it reaches owe. */
  lemma {:induction false} PromisedIsDueOwed(ids: seq<nat>, ws: seq<UnbondWindow>, now: nat, balance: nat,
        spoken: nat, room: nat)
    requires Waiting(ids, ws)
    ensures MatureFrom(ids, ws, now, balance, spoken, room).promised == DueOwed(ids, ws, now, room)
    decreases |ids|
  {
    hide MatureFrom;
    if ids == [] || room == 0 {
      MatureFromStops(ids, ws, now, balance, spoken, room);
    } else if IsMature(ws[ids[0]], now) {
      var id, w := ids[0], Mature(ws[ids[0]], SatSub(balance, spoken));
      WaitingRest(ids, ws, w);
      MatureFromTakes(ids, ws, now, balance, spoken, room);
      PromisedIsDueOwed(ids[1..], ws[id := w], now, balance, spoken + w.Payable(), room - 1);
      DueOwedElsewhere(ids[1..], ws, now, room - 1, id, w);
    } else {
      WaitingRest(ids, ws, ws[ids[0]]);
      MatureFromSkips(ids, ws, now, balance, spoken, room);
      PromisedIsDueOwed(ids[1..], ws, now, balance, spoken, room);
    }
  }

  lemma {:induction false} WholeWhenPromised(ids: seq<nat>, ws: seq<UnbondWindow>, now: nat, balance: nat,
        spoken: nat, room: nat)
    requires Waiting(ids, ws) && spoken <= balance
    ensures var m := MatureFrom(ids, ws, now, balance, spoken, room);
            && (RealisedWhole(ws, m.windows, m.matured) <==> spoken + m.promised <= balance)
            && (m.realised == m.promised <==> spoken + m.promised <= balance)
    decreases |ids|
  {
    hide MatureFrom, RealisedWhole;
    if ids == [] || room == 0 {
      MatureFromStops(ids, ws, now, balance, spoken, room);
      NothingMatured(ws);
    } else if IsMature(ws[ids[0]], now) {
      var id, w := ids[0], Mature(ws[ids[0]], SatSub(balance, spoken));
      var r := MatureFrom(ids[1..], ws[id := w], now, balance, spoken + w.Payable(), room - 1);
      WaitingRest(ids, ws, w);
      MatureFromTakes(ids, ws, now, balance, spoken, room);
      WholeWhenPromised(ids[1..], ws[id := w], now, balance, spoken + w.Payable(), room - 1);
      MatureFromPromised(ids[1..], ws[id := w], now, balance, spoken + w.Payable(), room - 1);
      MatureFromWindows(ids[1..], ws[id := w], now, balance, spoken + w.Payable(), room - 1);
      FirstWhole(ws, id, w, r.windows, r.matured, ids[1..], now);
    } else {
      WaitingRest(ids, ws, ws[ids[0]]);
      MatureFromSkips(ids, ws, now, balance, spoken, room);
      WholeWhenPromised(ids[1..], ws, now, balance, spoken, room);
    }
  }

  /** A pass is whole when its first window is and the rest of the pass is. */
  lemma {:induction false} FirstWhole(ws: seq<UnbondWindow>, id: nat, w: UnbondWindow, us: seq<UnbondWindow>,
        matured: seq<nat>, ids: seq<nat>, now: nat)
    requires id < |ws| && w.scrtRealised.Some? && w.scrtOwed == ws[id].scrtOwed && w.state == Matured
    requires MaturedTable(ws[id := w], us, matured, ids, now)
    ensures RealisedWhole(ws, us, [id] + matured)
            <==> w.scrtRealised == Some(w.scrtOwed) && RealisedWhole(ws[id := w], us, matured)
  {
    assert id !in matured && us[id] == w;
    assert id in [id] + matured;
    if RealisedWhole(ws, us, [id] + matured) {
      forall i | 0 <= i < |ws| && i in matured ensures us[i].scrtRealised == Some(ws[id := w][i].scrtOwed) {
        assert i in [id] + matured;
      }
    }
  }

  /** A pass matures every window it reaches with all it owed if and only if the balance covers what is
      spoken for and what those windows owe: all figures to be read before the call. */
  lemma {:induction false} WholeExactlyWhenCovered(ids: seq<nat>, ws: seq<UnbondWindow>, now: nat, balance: nat,
        spoken: nat, room: nat)
    requires Waiting(ids, ws) && spoken <= balance
    ensures var m := MatureFrom(ids, ws, now, balance, spoken, room);
            RealisedWhole(ws, m.windows, m.matured) <==> spoken + DueOwed(ids, ws, now, room) <= balance
  {
    hide MatureFrom, RealisedWhole;
    WholeWhenPromised(ids, ws, now, balance, spoken, room);
    PromisedIsDueOwed(ids, ws, now, balance, spoken, room);
  }

  // ---- one step ----

  /** How many windows a call may mature. */
  function RoomOf(tx: Tx): nat {
    match tx
    case DoCollect(limit) => Max(if limit.Some? then limit.value else DEFAULT_SYNC_LIMIT, 1)
    case _ => Max(U32_MAX, 1)
  }

  /** The balance covers the matured debt and what the windows about to mature owe. */
  ghost predicate Covered(c: Core, q: Chain, room: nat) {
    c.totals.scrtOwedMatured + DueOwed(c.active, c.windows, q.now, room) <= q.balance
  }

  ghost predicate CoveredStep(s: Sys, step: Step) {
    step.Do? && Matures(step.tx) && Commits(s, step.tx) ==> Covered(s.core, s.chain, RoomOf(step.tx))
  }

  lemma {:induction false} RollsWholeBack(c: Core, d: Core)
    requires CoreOk(c) && Rolls(c, d)
    ensures WindowsWhole(d.windows) <==> WindowsWhole(c.windows)
  {
    assert WindowOk(c.windows, c.openId, c.config.params.unbondWindowSecs, c.config.params.unbondingPeriodSecs);
    if WindowsWhole(d.windows) {
      forall i | 0 <= i < |c.windows| && (c.windows[i].state == Matured || c.windows[i].state == Settled)
        ensures c.windows[i].scrtRealised == Some(c.windows[i].scrtOwed)
      {
        assert d.windows[i] == c.windows[i];
      }
    } else {
      RollsLeavesWhole(c, d);
    }
  }

  lemma {:induction false} RollsLeavesWhole(c: Core, d: Core)
    requires Rolls(c, d)
    ensures WindowsWhole(c.windows) ==> WindowsWhole(d.windows)
  {
    if WindowsWhole(c.windows) {
      RollsWhole(c, d);
    }
  }

  lemma {:induction false} TableWhole(ws: seq<UnbondWindow>, us: seq<UnbondWindow>, matured: seq<nat>, ids: seq<nat>,
        now: nat)
    requires MaturedTable(ws, us, matured, ids, now)
    ensures WindowsWhole(us) <==> WindowsWhole(ws) && RealisedWhole(ws, us, matured)
  {
    if WindowsWhole(us) {
      forall i | 0 <= i < |ws| && (ws[i].state == Matured || ws[i].state == Settled)
        ensures ws[i].scrtRealised == Some(ws[i].scrtOwed)
      {
        assert i !in matured && us[i] == ws[i];
      }
      forall i | 0 <= i < |ws| && i in matured ensures us[i].scrtRealised == Some(ws[i].scrtOwed) {
        assert MaturedTo(ws[i], us[i]);
      }
    }
  }

  lemma {:induction false} PassWholeExactlyWhen(c: Core, q: Chain, limit: nat)
    requires CoreOk(c) && Solvent(c.windows, q.balance)
    ensures WindowsWhole(MatureDue(c, q.now, q.balance, limit).core.windows)
            <==> WindowsWhole(c.windows) && Covered(c, q, Max(limit, 1))
  {
    hide MatureFrom, SetOk, StakeOk, SlotsOk, LedgerOk, IndexOk, WindowsOk, RealisedWhole, WindowsWhole, DueOwed;
    var spoken := SumSeq(c.active, SpokenAt(c.windows));
    var m := MatureFrom(c.active, c.windows, q.now, q.balance, spoken, Max(limit, 1));
    ActiveWaits(c);
    SpokenForIs(c.active, c.windows);
    MatureFromWindows(c.active, c.windows, q.now, q.balance, spoken, Max(limit, 1));
    WholeExactlyWhenCovered(c.active, c.windows, q.now, q.balance, spoken, Max(limit, 1));
    TableWhole(c.windows, m.windows, m.matured, c.active, q.now);
    if m.matured == [] {
      assert m.windows == c.windows;
    }
  }

  lemma {:induction false} PaidWholeBack(ws: seq<UnbondWindow>, us: seq<UnbondWindow>)
    requires |us| == |ws| && forall i :: 0 <= i < |ws| ==> PaidFurther(ws[i], us[i])
    ensures WindowsWhole(us) <==> WindowsWhole(ws)
  {
    if WindowsWhole(ws) {
      PaidWhole(ws, us);
    }
    if WindowsWhole(us) {
      forall i | 0 <= i < |ws| && (ws[i].state == Matured || ws[i].state == Settled)
        ensures ws[i].scrtRealised == Some(ws[i].scrtOwed)
      {
        assert PaidFurther(ws[i], us[i]);
      }
    }
  }

  lemma {:induction false} ClaimWholeExactlyWhen(s: Sys, who: Addr, ids: Option<seq<nat>>)
    requires SysOk(s) && Commits(s, DoClaim(who, ids))
    ensures WindowsWhole(Transact(s, DoClaim(who, ids)).core.windows)
            <==> WindowsWhole(s.core.windows) && Covered(s.core, s.chain, Max(U32_MAX, 1))
  {
    hide CoreOk, QueueOk, TimeOk, TokensOk, ReleasedInTime, SweptOk, MatureDue, ClaimFrom, ClaimMatured, WindowsWhole, SweptAfter, Covered;
    var c, q := s.core, s.chain;
    var m, wanted, r := ClaimForm(c, q, who, ids);
    PassWholeExactlyWhen(c, q, U32_MAX);
    MatureKeepsCore(c, q.now, q.balance, U32_MAX);
    ClaimWindows(m, who, wanted, r);
    PaidWholeBack(m.windows, r.windows);
  }

  /** A step leaves every matured window whole exactly when all were and, if it matures any, it finds
      them covered. */
  lemma {:induction false} StepWholeExactlyWhen(s: Sys, step: Step)
    requires SysOk(s)
    ensures WindowsWhole(Next(s, step).core.windows) <==> WindowsWhole(s.core.windows) && CoveredStep(s, step)
  {
    hide CoreOk, QueueOk, TimeOk, TokensOk, ReleasedInTime, SweptOk, WindowsWhole, Commits, Transact, Covered;
    if step.Do? && Commits(s, step.tx) {
      var tx := step.tx;
      if tx.DoClaim? {
        ClaimWholeExactlyWhen(s, tx.who, tx.ids);
      } else if tx.DoCollect? {
        var n := if tx.limit.Some? then tx.limit.value else DEFAULT_SYNC_LIMIT;
        PassWholeExactlyWhen(s.core, s.chain, n);
        CollectLeaves(s, tx);
      } else {
        HandledRolls(s, tx);
        RollsWholeBack(s.core, Handled(s, tx).core);
        TransactLeaves(s, tx);
      }
    } else if step.Do? {
      RefusedChangesNothing(s, step.tx);
    }
  }

  lemma {:induction false} CollectLeaves(s: Sys, tx: Tx)
    requires Commits(s, tx) && tx.DoCollect?
    ensures var n := if tx.limit.Some? then tx.limit.value else DEFAULT_SYNC_LIMIT;
            Transact(s, tx).core == MatureDue(s.core, s.chain.now, s.chain.balance, n).core
  {
  }

  lemma {:induction false} TransactLeaves(s: Sys, tx: Tx)
    requires Commits(s, tx)
    ensures Transact(s, tx).core == Handled(s, tx).core
  {
  }

  // ---- whole runs ----

  lemma {:induction false} FreshIsWhole(s: Sys)
    requires Fresh(s)
    ensures WindowsWhole(s.core.windows)
  {
    hide Fresh, Lossless;
    FreshIsLossless(s);
    LosslessIsWhole(s.core, s.chain);
  }

  lemma {:induction false} LosslessIsWhole(c: Core, q: Chain)
    requires Lossless(c, q)
    ensures WindowsWhole(c.windows)
  {
  }

  /** Every claim and collection of the run found its windows covered. */
  ghost predicate AllCovered(s: Sys, steps: seq<Step>) {
    forall i :: 0 <= i < |steps| ==> CoveredStep(After(s, steps[..i]), steps[i])
  }

  lemma {:induction false} AllCoveredSplit(s: Sys, steps: seq<Step>)
    requires steps != []
    ensures var init := steps[..|steps| - 1];
            AllCovered(s, steps) <==> AllCovered(s, init) && CoveredStep(After(s, init), steps[|steps| - 1])
  {
    hide CoveredStep;
    var init := steps[..|steps| - 1];
    assert forall i :: 0 <= i < |init| ==> init[..i] == steps[..i] && init[i] == steps[i];
    if AllCovered(s, init) && CoveredStep(After(s, init), steps[|steps| - 1]) {
      forall i | 0 <= i < |steps| ensures CoveredStep(After(s, steps[..i]), steps[i]) {
        if i < |init| {
          assert CoveredStep(After(s, init[..i]), init[i]);
        }
      }
    }
    if AllCovered(s, steps) {
      forall i | 0 <= i < |init| ensures CoveredStep(After(s, init[..i]), init[i]) {
        assert CoveredStep(After(s, steps[..i]), steps[i]);
      }
    }
  }

  /** Over any run whatever, every matured window received all it owed if and only if each claim and
      each collection, as it went through, found the balance covering the matured debt and what the
      windows it was about to mature owed. */
  lemma {:induction false} WholeExactlyWhenAllCovered(s: Sys, steps: seq<Step>)
    requires Fresh(s)
    ensures WindowsWhole(After(s, steps).core.windows) <==> AllCovered(s, steps)
  {
    hide Fresh, SysOk, WindowsWhole, AllCovered, CoveredStep, Next;
    if steps == [] {
      FreshIsWhole(s);
      NothingToCover(s);
    } else {
      var init := steps[..|steps| - 1];
      WholeExactlyWhenAllCovered(s, init);
      ReachableOk(s, init);
      StepWholeExactlyWhen(After(s, init), steps[|steps| - 1]);
      AllCoveredSplit(s, steps);
    }
  }

  lemma {:induction false} NothingToCover(s: Sys)
    ensures AllCovered(s, [])
  {
  }

  // ---- what it means for the leavers ----

  /** Every claim on a window that has matured is worth the SCRT recorded for it. */
  ghost predicate PaysInFull(c: Core) {
    forall k :: k in c.claims && k.window < |c.windows| && (c.windows[k.window].state == Matured || c.windows[k.window].state == Settled)
      ==> PayoutForClaim(c.windows[k.window], c.claims[k].scrtOwed) == c.claims[k].scrtOwed
  }

  /** A positive total has a claim in it. */
  lemma {:induction false} SomeClaim(m: Ledger, id: nat) returns (k: ClaimKey)
    requires SumMap(m, OwedIn(id)) > 0
    ensures k in m && k.window == id
  {
    if forall j :: j in m ==> j.window != id {
      SumMapZero(m, OwedIn(id));
    }
    k :| k in m && k.window == id;
  }

  lemma {:induction false} ShortPaysLess(owed: nat, realised: nat, promised: nat)
    requires owed > 0 && realised < promised
    ensures Scaled(owed, realised, promised) < owed
  {
    MulDivBounds(owed, realised, promised);
    MulMono(realised + 1, promised, owed);
    assert owed * realised == realised * owed && owed * promised == promised * owed;
    MulCancel(MulDiv(owed, realised, promised), owed, promised);
  }

  lemma {:induction false} PaysInFullExactlyWhenWhole(c: Core)
    requires CoreOk(c)
    ensures PaysInFull(c) <==> WindowsWhole(c.windows)
  {
    hide SetOk, StakeOk, SlotsOk, ActiveOk, BucketsOk, IndexOk;
    if PaysInFull(c) {
      forall i | 0 <= i < |c.windows| && (c.windows[i].state == Matured || c.windows[i].state == Settled)
        ensures c.windows[i].scrtRealised == Some(c.windows[i].scrtOwed)
      {
        NotShort(c, i);
      }
    }
  }

  lemma {:induction false} NotShort(c: Core, i: nat)
    requires CoreOk(c) && PaysInFull(c) && i < |c.windows| && (c.windows[i].state == Matured || c.windows[i].state == Settled)
    ensures c.windows[i].scrtRealised == Some(c.windows[i].scrtOwed)
  {
    hide SetOk, StakeOk, SlotsOk, ActiveOk, BucketsOk, IndexOk;
    var w := c.windows[i];
    assert WindowOk(c.windows, i, c.config.params.unbondWindowSecs, c.config.params.unbondingPeriodSecs);
    assert LedgerAt(c.claims, w, i);
    if w.scrtRealised.value < w.scrtOwed {
      var k := SomeClaim(c.claims, i);
      assert ClaimOk(k, c.claims[k], c.windows);
      ShortPaysLess(c.claims[k].scrtOwed, w.scrtRealised.value, w.scrtOwed);
    }
  }

  /** The end-to-end result, in both directions: after any run, every claim on a matured window is worth
      exactly the SCRT recorded for it if and only if each claim and collection of the run found the
      balance covering what it was about to mature. */
  lemma {:induction false} PaidInFullExactlyWhenCovered(s: Sys, steps: seq<Step>)
    requires Fresh(s)
    ensures PaysInFull(After(s, steps).core) <==> AllCovered(s, steps)
  {
    hide Fresh, CoreOk, ChainOk, SweptOk, AllCovered, PaysInFull, WindowsWhole;
    ReachableOk(s, steps);
    WholeExactlyWhenAllCovered(s, steps);
    PaysInFullExactlyWhenWhole(After(s, steps).core);
  }

  /** It always does in a calm run: with nothing slashed on its way back, and the entries of mature
      windows released by the time a claim or collection goes through, whatever else is late, however
      long the chain takes, and over any interleaving of calls. */
  lemma {:induction false} CalmIsCovered(s: Sys, steps: seq<Step>)
    requires Fresh(s) && Calm(s, steps)
    ensures AllCovered(s, steps)
  {
    hide Fresh, Calm, AllCovered, Lossless, WindowsWhole;
    RunIsLossless(s, steps);
    LosslessIsWhole(After(s, steps).core, After(s, steps).chain);
    WholeExactlyWhenAllCovered(s, steps);
  }

  /** End to end: in a calm run every window matures with exactly what it owed, every claim is worth
      exactly the SCRT recorded for it, and a settled window leaves no claim uncollected. */
  lemma {:induction false} EveryoneIsPaidInFull(s: Sys, steps: seq<Step>, k: ClaimKey)
    requires Fresh(s) && Calm(s, steps)
    requires var c := After(s, steps).core;
             && k in c.claims && k.window < |c.windows|
             && (c.windows[k.window].state == Matured || c.windows[k.window].state == Settled)
    ensures var c := After(s, steps).core;
            && c.windows[k.window].scrtRealised == Some(c.windows[k.window].scrtOwed)
            && PayoutForClaim(c.windows[k.window], c.claims[k].scrtOwed) == c.claims[k].scrtOwed
            && (c.windows[k.window].state == Settled ==> c.claims[k].claimed)
  {
    hide Fresh, Calm, AllCovered, ChainOk, SweptOk;
    var c := After(s, steps).core;
    CalmIsCovered(s, steps);
    WholeExactlyWhenAllCovered(s, steps);
    ReachableOk(s, steps);
    WholeClaim(c, k);
  }

  lemma {:induction false} WholeClaim(c: Core, k: ClaimKey)
    requires CoreOk(c) && WindowsWhole(c.windows) && k in c.claims && k.window < |c.windows|
    requires c.windows[k.window].state == Matured || c.windows[k.window].state == Settled
    ensures PayoutForClaim(c.windows[k.window], c.claims[k].scrtOwed) == c.claims[k].scrtOwed
    ensures c.windows[k.window].state == Settled ==> c.claims[k].claimed
  {
    hide SetOk, StakeOk, SlotsOk, ActiveOk, BucketsOk, IndexOk;
    assert ClaimOk(k, c.claims[k], c.windows);
    assert WindowOk(c.windows, k.window, c.config.params.unbondWindowSecs, c.config.params.unbondingPeriodSecs);
    if c.windows[k.window].state == Settled && !c.claims[k].claimed {
      SettledOwesNothing(c.claims, c.windows, k);
    }
  }

  /** In every reachable state, what a collection matures it matures whole exactly when the balance
      covers the matured debt plus what the due windows it reaches owe. */
  lemma {:induction false} CollectsWholeExactlyWhen(s: Sys, steps: seq<Step>, limit: nat)
    requires Fresh(s)
    ensures var r := After(s, steps);
            var c, q, room := r.core, r.chain, Max(limit, 1);
            var m := MatureFrom(c.active, c.windows, q.now, q.balance, SumSeq(c.active, SpokenAt(c.windows)), room);
            RealisedWhole(c.windows, m.windows, m.matured)
            <==> c.totals.scrtOwedMatured + DueOwed(c.active, c.windows, q.now, room) <= q.balance
  {
    hide Fresh, MatureFrom, RealisedWhole;
    var r := After(s, steps);
    ReachableOk(s, steps);
    SpokenForIs(r.core.active, r.core.windows);
    ActiveWaits(r.core);
    WholeExactlyWhenCovered(r.core.active, r.core.windows, r.chain.now, r.chain.balance,
                            SumSeq(r.core.active, SpokenAt(r.core.windows)), Max(limit, 1));
  }
}
