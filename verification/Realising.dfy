/** What a maturing pass records, to the unit: which windows it reaches, and what each receives of the
    balance that is not spoken for. */
module Realising {
  import opened Prelude
  import opened Sums
  import opened Types
  import opened Windows
  import opened Chain
  import opened Engine
  import opened Invariants
  import opened Maturing
  import opened Claims
  import opened Keeping
  import opened System
  import opened Reach
  import opened Whole
  import opened Covering

  /** The listed windows whose unbonding period is over, in list order. */
  function DueIds(ids: seq<nat>, ws: seq<UnbondWindow>, now: nat): seq<nat>
    decreases |ids|
  {
    if ids == [] then []
    else
      (if ids[0] < |ws| && ws[ids[0]].state == Unbonding && ws[ids[0]].maturesAt <= now then [ids[0]] else [])
      + DueIds(ids[1..], ws, now)
  }

  function FirstOf(ids: seq<nat>, room: nat): seq<nat> { ids[..Min(room, |ids|)] }

  function OwedAt(ws: seq<UnbondWindow>): nat -> nat {
    (id: nat) => if id < |ws| then ws[id].scrtOwed else 0
  }

  function RealisedAt(ws: seq<UnbondWindow>): nat -> nat {
    (id: nat) => if id < |ws| && ws[id].scrtRealised.Some? then ws[id].scrtRealised.value else 0
  }

  /** The `k`th listed window received all it owed, or what the ones before it left of `free`. */
  ghost predicate ShareAt(ws: seq<UnbondWindow>, us: seq<UnbondWindow>, ids: seq<nat>, free: nat, k: nat)
    requires k < |ids|
  {
    && ids[k] < |ws| && ids[k] < |us|
    && us[ids[k]].scrtRealised == Some(Min(ws[ids[k]].scrtOwed, SatSub(free, SumSeq(ids[..k], RealisedAt(us)))))
  }

  ghost predicate SharedOut(ws: seq<UnbondWindow>, us: seq<UnbondWindow>, ids: seq<nat>, free: nat) {
    forall k :: 0 <= k < |ids| ==> ShareAt(ws, us, ids, free, k)
  }

  lemma {:induction false} DueIdsElsewhere(ids: seq<nat>, ws: seq<UnbondWindow>, now: nat, id: nat, w: UnbondWindow)
    requires id < |ws| && forall k :: 0 <= k < |ids| ==> ids[k] != id
    ensures DueIds(ids, ws[id := w], now) == DueIds(ids, ws, now)
    decreases |ids|
  {
    if ids != [] {
      DueIdsElsewhere(ids[1..], ws, now, id, w);
    }
  }

  lemma {:induction false} FirstOfCons(id: nat, rest: seq<nat>, room: nat)
    requires room > 0
    ensures FirstOf([id] + rest, room) == [id] + FirstOf(rest, room - 1)
  {
  }

  lemma {:induction false} DueIdsCons(ids: seq<nat>, ws: seq<UnbondWindow>, now: nat)
    requires ids != [] && ids[0] < |ws|
    ensures DueIds(ids, ws, now)
         == if IsMature(ws[ids[0]], now) then [ids[0]] + DueIds(ids[1..], ws, now) else DueIds(ids[1..], ws, now)
  {
    assert [] + DueIds(ids[1..], ws, now) == DueIds(ids[1..], ws, now);
  }

  lemma {:induction false} LaterShare(ws: seq<UnbondWindow>, us: seq<UnbondWindow>, id: nat, w: UnbondWindow,
        rest: seq<nat>, free: nat, k: nat)
    requires id < |ws| == |us| && k < |rest| && rest[k] != id
    requires us[id] == w && w.scrtRealised.Some? && w.scrtRealised.value <= free
    requires ShareAt(ws[id := w], us, rest, free - w.scrtRealised.value, k)
    ensures ShareAt(ws, us, [id] + rest, free, k + 1)
  {
    var all := [id] + rest;
    SumCons(all[..k + 1], RealisedAt(us));
    assert all[..k + 1][0] == id && all[..k + 1][1..] == rest[..k];
  }

  /** What a pass records for its first window, and for the others out of what that one leaves. */
  lemma {:induction false} SharedOutCons(ws: seq<UnbondWindow>, us: seq<UnbondWindow>, id: nat, w: UnbondWindow,
        rest: seq<nat>, free: nat)
    requires id < |ws| == |us| && id !in rest
    requires us[id] == w && w.scrtRealised == Some(Min(ws[id].scrtOwed, free))
    requires SharedOut(ws[id := w], us, rest, free - w.scrtRealised.value)
    ensures SharedOut(ws, us, [id] + rest, free)
  {
    var all := [id] + rest;
    forall k | 0 <= k < |all| ensures ShareAt(ws, us, all, free, k) {
      if k > 0 {
        hide ShareAt;
        assert rest[k - 1] in rest;
        LaterShare(ws, us, id, w, rest, free, k - 1);
      } else {
        assert all[..0] == [];
      }
    }
  }

  /** A pass matures exactly the first due windows of the list, as many as it has room for; and shares
      out what is not spoken for among them in order, to the last unit. */
  lemma {:induction false} PassSharesOut(ids: seq<nat>, ws: seq<UnbondWindow>, now: nat, balance: nat, spoken: nat,
        room: nat)
    requires Waiting(ids, ws) && spoken <= balance
    ensures var m := MatureFrom(ids, ws, now, balance, spoken, room);
            && m.matured == FirstOf(DueIds(ids, ws, now), room)
            && SharedOut(ws, m.windows, m.matured, balance - spoken)
            && m.realised == Min(SumSeq(m.matured, OwedAt(ws)), balance - spoken)
    decreases |ids|
  {
    hide MatureFrom, SharedOut, FirstOf, DueIds;
    if ids == [] || room == 0 {
      MatureFromStops(ids, ws, now, balance, spoken, room);
      NothingShared(ids, ws, now, balance - spoken, room);
    } else if IsMature(ws[ids[0]], now) {
      var id := ids[0];
      var w := Mature(ws[id], SatSub(balance, spoken));
      var r := MatureFrom(ids[1..], ws[id := w], now, balance, spoken + w.Payable(), room - 1);
      WaitingRest(ids, ws, w);
      MatureFromTakes(ids, ws, now, balance, spoken, room);
      PassSharesOut(ids[1..], ws[id := w], now, balance, spoken + w.Payable(), room - 1);
      MatureFromWindows(ids[1..], ws[id := w], now, balance, spoken + w.Payable(), room - 1);
      DueIdsElsewhere(ids[1..], ws, now, id, w);
      DueIdsCons(ids, ws, now);
      FirstOfCons(id, DueIds(ids[1..], ws, now), room);
      NotAgain(ids, ws[id := w], r, now);
      SharedOutCons(ws, r.windows, id, w, r.matured, balance - spoken);
      OwedCons(ws, id, w, r.matured);
    } else {
      WaitingRest(ids, ws, ws[ids[0]]);
      MatureFromSkips(ids, ws, now, balance, spoken, room);
      DueIdsCons(ids, ws, now);
      PassSharesOut(ids[1..], ws, now, balance, spoken, room);
    }
  }

  lemma {:induction false} NothingShared(ids: seq<nat>, ws: seq<UnbondWindow>, now: nat, free: nat, room: nat)
    requires ids == [] || room == 0
    ensures FirstOf(DueIds(ids, ws, now), room) == [] && SharedOut(ws, ws, [], free)
  {
  }

  lemma {:induction false} NotAgain(ids: seq<nat>, ws: seq<UnbondWindow>, r: Engine.Maturing, now: nat)
    requires Waiting(ids, ws) && ids != [] && MaturedTable(ws, r.windows, r.matured, ids[1..], now)
    ensures |r.windows| == |ws| && ids[0] !in r.matured && r.windows[ids[0]] == ws[ids[0]]
  {
    WaitingRest(ids, ws, ws[ids[0]]);
  }

  lemma {:induction false} OwedCons(ws: seq<UnbondWindow>, id: nat, w: UnbondWindow, rest: seq<nat>)
    requires id < |ws| && id !in rest
    ensures SumSeq([id] + rest, OwedAt(ws)) == ws[id].scrtOwed + SumSeq(rest, OwedAt(ws[id := w]))
  {
    SumCons([id] + rest, OwedAt(ws));
    assert ([id] + rest)[1..] == rest;
    SumSame<nat, nat>(rest, OwedAt(ws), rest, OwedAt(ws[id := w]));
  }

  // ---- collections and claims ----

  /** Every window the call reached, what it received, and that no other window received anything. */
  ghost predicate Received(c: Core, q: Chain, us: seq<UnbondWindow>, room: nat) {
    var ws, ids := c.windows, FirstOf(DueIds(c.active, c.windows, q.now), room);
    && |us| == |ws| && c.totals.scrtOwedMatured <= q.balance
    && SharedOut(ws, us, ids, q.balance - c.totals.scrtOwedMatured)
    && SumSeq(ids, RealisedAt(us)) == Min(SumSeq(ids, OwedAt(ws)), q.balance - c.totals.scrtOwedMatured)
    && (forall i :: 0 <= i < |ws| ==>
          if i in ids then us[i].state == Matured || us[i].state == Settled
          else us[i].scrtRealised == ws[i].scrtRealised && (us[i].state == Unbonding <==> ws[i].state == Unbonding))
  }

  lemma {:induction false} SharedSum(ws: seq<UnbondWindow>, us: seq<UnbondWindow>, ids: seq<nat>, free: nat)
    requires SharedOut(ws, us, ids, free)
    ensures SumSeq(ids, RealisedAt(us)) == Min(SumSeq(ids, OwedAt(ws)), free)
  {
    if ids != [] {
      var last := |ids| - 1;
      assert ShareAt(ws, us, ids, free, last);
      forall k | 0 <= k < last ensures ShareAt(ws, us, ids[..last], free, k) {
        assert ShareAt(ws, us, ids, free, k);
        assert ids[..last][..k] == ids[..k];
      }
      SharedSum(ws, us, ids[..last], free);
    }
  }

  lemma {:induction false} PassTable(c: Core, us: seq<UnbondWindow>, ids: seq<nat>, free: nat, now: nat)
    requires MaturedTable(c.windows, us, ids, c.active, now) && SharedOut(c.windows, us, ids, free)
    ensures forall i :: 0 <= i < |c.windows| ==>
              if i in ids then us[i].state == Matured
              else us[i].scrtRealised == c.windows[i].scrtRealised && us[i].state == c.windows[i].state
    ensures SumSeq(ids, RealisedAt(us)) == Min(SumSeq(ids, OwedAt(c.windows)), free)
  {
    SharedSum(c.windows, us, ids, free);
    forall i | 0 <= i < |c.windows|
      ensures if i in ids then us[i].state == Matured
              else us[i].scrtRealised == c.windows[i].scrtRealised && us[i].state == c.windows[i].state
    {
      assert i in ids ==> MaturedTo(c.windows[i], us[i]);
    }
  }

  /** The pass of a collection, or the one a claim begins with. */
  lemma {:induction false} PassReceives(c: Core, q: Chain, limit: nat)
    requires CoreOk(c) && Solvent(c.windows, q.balance)
    ensures Received(c, q, MatureDue(c, q.now, q.balance, limit).core.windows, Max(limit, 1))
  {
    hide MatureFrom, SetOk, StakeOk, SlotsOk, LedgerOk, IndexOk, WindowsOk, FirstOf, DueIds, SharedOut, MaturedTable;
    var spoken := SumSeq(c.active, SpokenAt(c.windows));
    var m := MatureFrom(c.active, c.windows, q.now, q.balance, spoken, Max(limit, 1));
    ActiveWaits(c);
    SpokenForIs(c.active, c.windows);
    MatureFromWindows(c.active, c.windows, q.now, q.balance, spoken, Max(limit, 1));
    PassSharesOut(c.active, c.windows, q.now, q.balance, spoken, Max(limit, 1));
    PassTable(c, m.windows, m.matured, q.balance - spoken, q.now);
    TableLength(c.windows, m.windows, m.matured, c.active, q.now);
  }

  lemma {:induction false} TableLength(ws: seq<UnbondWindow>, us: seq<UnbondWindow>, matured: seq<nat>,
        ids: seq<nat>, now: nat)
    requires MaturedTable(ws, us, matured, ids, now)
    ensures |us| == |ws| && (matured == [] ==> us == ws)
  {
  }

  /** Paying claims afterwards takes nothing from what was recorded. */
  lemma {:induction false} ReceivedStays(c: Core, q: Chain, ws: seq<UnbondWindow>, us: seq<UnbondWindow>, room: nat)
    requires Received(c, q, ws, room)
    requires |us| == |ws| && forall i :: 0 <= i < |ws| ==> PaidFurther(ws[i], us[i])
    ensures Received(c, q, us, room)
  {
    hide FirstOf, DueIds;
    var ids := FirstOf(DueIds(c.active, c.windows, q.now), room);
    forall i | 0 <= i < |ws| ensures us[i].scrtRealised == ws[i].scrtRealised {
      assert PaidFurther(ws[i], us[i]);
    }
    var free := q.balance - c.totals.scrtOwedMatured;
    forall k | 0 <= k < |ids| ensures ShareAt(c.windows, us, ids, free, k) {
      assert ShareAt(c.windows, ws, ids, free, k);
      SumSame<nat, nat>(ids[..k], RealisedAt(us), ids[..k], RealisedAt(ws));
    }
    SumSame<nat, nat>(ids, RealisedAt(us), ids, RealisedAt(ws));
    forall i | 0 <= i < |ws|
      ensures if i in ids then us[i].state == Matured || us[i].state == Settled
              else (&& us[i].scrtRealised == c.windows[i].scrtRealised
                    && (us[i].state == Unbonding <==> c.windows[i].state == Unbonding))
    {
      assert PaidFurther(ws[i], us[i]);
    }
  }

  /** A collection or a claim matures exactly the first due windows of the active list that its limit
      reaches. Together they receive what they owe or, if that is less, the balance less what matured
      windows still owed; in list order, each all it owes or what the earlier ones left. No other
      window's record changes. */
  lemma {:induction false} MaturingReceives(s: Sys, tx: Tx)
    requires SysOk(s) && Commits(s, tx) && Matures(tx)
    ensures Received(s.core, s.chain, Transact(s, tx).core.windows, RoomOf(tx))
  {
    hide CoreOk, QueueOk, TimeOk, TokensOk, ReleasedInTime, SweptOk, MatureDue, ClaimFrom, ClaimMatured, Received,
         SweptAfter;
    var c, q := s.core, s.chain;
    if tx.DoClaim? {
      var m, wanted, r := ClaimForm(c, q, tx.who, tx.ids);
      PassReceives(c, q, U32_MAX);
      MatureKeepsCore(c, q.now, q.balance, U32_MAX);
      ClaimWindows(m, tx.who, wanted, r);
      ReceivedStays(c, q, m.windows, r.windows, Max(U32_MAX, 1));
    } else {
      PassReceives(c, q, if tx.limit.Some? then tx.limit.value else DEFAULT_SYNC_LIMIT);
      CollectLeaves(s, tx);
    }
  }

  /** The same, over any run. */
  lemma {:induction false} RunReceives(s: Sys, steps: seq<Step>, tx: Tx)
    requires Fresh(s) && Commits(After(s, steps), tx) && Matures(tx)
    ensures var r := After(s, steps); Received(r.core, r.chain, Transact(r, tx).core.windows, RoomOf(tx))
  {
    hide Fresh, SysOk, Commits, Received, After;
    ReachableOk(s, steps);
    MaturingReceives(After(s, steps), tx);
  }
}
