/** The pending-claims query against what a claim then does. */
module Queries {
  import opened Prelude
  import opened Sums
  import opened Types
  import opened Windows
  import opened Validators
  import opened Chain
  import opened Engine
  import opened Invariants
  import opened Maturing
  import opened Claims
  import opened Keeping
  import opened System
  import opened Reach
  import opened History
  import opened Limits
  import opened Worth

  // ---- nothing newly due ----

  lemma {:induction false} NothingMatures(ids: seq<nat>, ws: seq<UnbondWindow>, now: nat, balance: nat, spoken: nat,
        room: nat)
    requires NothingDue(ws, now)
    ensures MatureFrom(ids, ws, now, balance, spoken, room).matured == []
    decreases |ids|
  {
    if ids != [] && room != 0 {
      NothingMatures(ids[1..], ws, now, balance, spoken, room);
    }
  }

  lemma {:induction false} NothingCollected(c: Core, now: nat, balance: nat, limit: nat)
    requires NothingDue(c.windows, now)
    ensures MatureDue(c, now, balance, limit) == Collected(c, [])
  {
    NothingMatures(c.active, c.windows, now, balance, SumSeq(c.active, SpokenAt(c.windows)), Max(limit, 1));
  }

  // ---- when the claim loop goes through ----

  /** No unclaimed claim of `who` among `ids` is on a window still unbonding. */
  ghost predicate Ripe(who: Addr, ids: seq<nat>, m: Ledger, ws: seq<UnbondWindow>) {
    forall i :: 0 <= i < |ids| ==> RipeAt(who, ids[i], m, ws)
  }

  ghost predicate RipeAt(who: Addr, id: nat, m: Ledger, ws: seq<UnbondWindow>) {
    var k := ClaimKey(who, id);
    k in m && !m[k].claimed && id < |ws| ==> ws[id].state != Unbonding
  }

  ghost predicate Known(m: Ledger, ws: seq<UnbondWindow>) {
    forall k :: k in m ==> k.window < |ws|
  }

  lemma {:induction false} RipeAfterPay(who: Addr, ids: seq<nat>, m: Ledger, ws: seq<UnbondWindow>, k: ClaimKey)
    requires Payable(m, ws, k) && k.account == who
    ensures var us := ws[k.window := PaidOut(ws[k.window], PayOf(m, ws, k))];
            Ripe(who, ids, Claims.Marked(m, k), us) <==> Ripe(who, ids, m, ws)
  {
    var us := ws[k.window := PaidOut(ws[k.window], PayOf(m, ws, k))];
    forall i | 0 <= i < |ids| ensures RipeAt(who, ids[i], Claims.Marked(m, k), us) <==> RipeAt(who, ids[i], m, ws) {
      assert ClaimKey(who, ids[i]) == k <==> ids[i] == k.window;
    }
    assert forall i :: 0 <= i < |ids| ==> (RipeAt(who, ids[i], Claims.Marked(m, k), us) <==> RipeAt(who, ids[i], m, ws));
  }

  /** The loop fails exactly on an unclaimed claim whose window is still unbonding. */
  lemma {:induction false} ClaimFromSucceeds(who: Addr, ids: seq<nat>, m: Ledger, ws: seq<UnbondWindow>)
    requires Known(m, ws)
    ensures ClaimFrom(who, ids, m, ws).Ok? <==> Ripe(who, ids, m, ws)
    decreases |ids|
  {
    if ids != [] {
      var id, k := ids[0], ClaimKey(who, ids[0]);
      assert Ripe(who, ids, m, ws) <==> RipeAt(who, id, m, ws) && Ripe(who, ids[1..], m, ws) by {
        assert forall i :: 0 < i < |ids| ==> ids[i] == ids[1..][i - 1];
      }
      if Payable(m, ws, k) {
        var us := ws[id := PaidOut(ws[id], PayOf(m, ws, k))];
        RipeAfterPay(who, ids[1..], m, ws, k);
        ClaimFromSucceeds(who, ids[1..], Claims.Marked(m, k), us);
      } else {
        ClaimFromSucceeds(who, ids[1..], m, ws);
      }
    }
  }

  // ---- what it pays ----

  /** `idx` lists each window `who` holds a claim on, once. */
  ghost predicate Indexes(idx: seq<nat>, who: Addr, m: Ledger) {
    Distinct(idx) && forall id :: id in idx <==> ClaimKey(who, id) in m
  }

  lemma {:induction false} OnePayout(who: Addr, id: nat, m: Ledger, ws: seq<UnbondWindow>, idx: seq<nat>)
    requires Indexes(idx, who, m) && Payable(m, ws, ClaimKey(who, id))
    ensures var k := ClaimKey(who, id);
            SumSeq(idx, ClaimableAt(who, Claims.Marked(m, k), ws[id := PaidOut(ws[id], PayOf(m, ws, k))])) + PayOf(m, ws, k)
            == SumSeq(idx, ClaimableAt(who, m, ws))
  {
    var k := ClaimKey(who, id);
    var us := ws[id := PaidOut(ws[id], PayOf(m, ws, k))];
    var j :| 0 <= j < |idx| && idx[j] == id;
    forall x | 0 <= x < |idx| && x != j
      ensures ClaimableAt(who, m, ws)(idx[x]) == ClaimableAt(who, Claims.Marked(m, k), us)(idx[x])
    {
      assert idx[x] != id;
    }
    SumPoint<nat>(idx, ClaimableAt(who, m, ws), ClaimableAt(who, Claims.Marked(m, k), us), j);
  }

  /** What the loop pays is what becomes of the claimable total, whatever the order or repeats. */
  lemma {:induction false} ClaimFromPays(who: Addr, ids: seq<nat>, m: Ledger, ws: seq<UnbondWindow>, idx: seq<nat>)
    requires Indexes(idx, who, m) && ClaimFrom(who, ids, m, ws).Ok?
    ensures var r := ClaimFrom(who, ids, m, ws).value;
            SumSeq(idx, ClaimableAt(who, m, ws)) == r.paid + SumSeq(idx, ClaimableAt(who, r.claims, r.windows))
    decreases |ids|
  {
    if ids != [] {
      var id, k := ids[0], ClaimKey(who, ids[0]);
      if Payable(m, ws, k) {
        var us := ws[id := PaidOut(ws[id], PayOf(m, ws, k))];
        OnePayout(who, id, m, ws, idx);
        assert Claims.Marked(m, k).Keys == m.Keys;
        assert forall x :: ClaimKey(who, x) in Claims.Marked(m, k) <==> ClaimKey(who, x) in m;
        ClaimFromPays(who, ids[1..], Claims.Marked(m, k), us, idx);
      } else {
        ClaimFromPays(who, ids[1..], m, ws, idx);
      }
    }
  }

  /** Windows that are not matured are left exactly as they were. */
  lemma {:induction false} ClaimFromLeaves(who: Addr, ids: seq<nat>, m: Ledger, ws: seq<UnbondWindow>, i: nat)
    requires ClaimFrom(who, ids, m, ws).Ok? && i < |ws| && ws[i].state != Matured
    ensures var r := ClaimFrom(who, ids, m, ws).value; |r.windows| == |ws| && r.windows[i] == ws[i]
    decreases |ids|
  {
    if ids != [] {
      var id, k := ids[0], ClaimKey(who, ids[0]);
      if Payable(m, ws, k) {
        ClaimFromLeaves(who, ids[1..], Claims.Marked(m, k), ws[id := PaidOut(ws[id], PayOf(m, ws, k))], i);
      } else {
        ClaimFromLeaves(who, ids[1..], m, ws, i);
      }
    }
  }

  ghost predicate Spent(who: Addr, id: nat, r: Claiming) {
    var k := ClaimKey(who, id);
    k in r.claims && id < |r.windows| ==> r.claims[k].claimed || r.windows[id].state != Matured
  }

  /** Every listed id is spent: collected, or not there to collect. */
  lemma {:induction false} ClaimFromSpends(who: Addr, ids: seq<nat>, m: Ledger, ws: seq<UnbondWindow>, at: nat)
    requires ClaimFrom(who, ids, m, ws).Ok? && at < |ids|
    ensures Spent(who, ids[at], ClaimFrom(who, ids, m, ws).value)
    decreases |ids|
  {
    var id, k := ids[0], ClaimKey(who, ids[0]);
    var r := ClaimFrom(who, ids, m, ws).value;
    ClaimFromMarks(who, ids, m, ws);
    if Payable(m, ws, k) {
      var us := ws[id := PaidOut(ws[id], PayOf(m, ws, k))];
      if at > 0 {
        ClaimFromSpends(who, ids[1..], Claims.Marked(m, k), us, at - 1);
      } else {
        ClaimFromMarks(who, ids[1..], Claims.Marked(m, k), us);
      }
    } else {
      if at > 0 {
        ClaimFromSpends(who, ids[1..], m, ws, at - 1);
      } else if id < |ws| && ws[id].state != Matured {
        ClaimFromLeaves(who, ids, m, ws, id);
      }
    }
  }

  /** The ids cover everything `who` could collect. */
  ghost predicate CoversClaimable(who: Addr, ids: seq<nat>, c: Core) {
    forall id :: id in IndexFor(c.index, who) && ClaimableAt(who, c.claims, c.windows)(id) > 0 ==> id in ids
  }

  lemma {:induction false} NothingLeft(c: Core, who: Addr, ids: seq<nat>, r: Claiming)
    requires CoreOk(c) && ClaimFrom(who, ids, c.claims, c.windows) == Ok(r) && CoversClaimable(who, ids, c)
    ensures SumSeq(IndexFor(c.index, who), ClaimableAt(who, r.claims, r.windows)) == 0
  {
    hide ClaimFrom, SetOk, StakeOk, SlotsOk, LedgerOk, BucketsOk, WindowsOk, ActiveOk;
    var idx := IndexFor(c.index, who);
    ClaimWindows(c, who, ids, r);
    ClaimFromMarks(who, ids, c.claims, c.windows);
    forall i | 0 <= i < |idx| ensures ClaimableAt(who, r.claims, r.windows)(idx[i]) == 0 {
      var id, k := idx[i], ClaimKey(who, idx[i]);
      assert IndexedOk(c.index, c.claims, who, id);
      assert k in r.claims.Keys && k in c.claims;
      if id in ids {
        var at :| 0 <= at < |ids| && ids[at] == id;
        ClaimFromSpends(who, ids, c.claims, c.windows, at);
      } else {
        assert ClaimableAt(who, c.claims, c.windows)(id) == 0;
        assert id < |c.windows| ==> PaidFurther(c.windows[id], r.windows[id]);
      }
    }
    SumZero<nat>(idx, ClaimableAt(who, r.claims, r.windows));
  }

  lemma {:induction false} IndexIsExact(c: Core, who: Addr)
    requires CoreOk(c)
    ensures Indexes(IndexFor(c.index, who), who, c.claims) && Known(c.claims, c.windows)
  {
    forall id ensures id in IndexFor(c.index, who) <==> ClaimKey(who, id) in c.claims {
      assert IndexedOk(c.index, c.claims, who, id);
    }
    assert IndexedOk(c.index, c.claims, who, 0);
    forall k | k in c.claims ensures k.window < |c.windows| {
      assert ClaimOk(k, c.claims[k], c.windows);
    }
  }

  /** A claim over any list of ids that covers what the caller can collect once everything due is
      matured, in any order and with repeats, is refused exactly when a listed claim is still unbonding
      then or there is nothing to collect; otherwise it pays exactly what the query reports of that
      storage, and afterwards the query reports nothing. */
  lemma {:induction false} ClaimPaysWhatQueryReports(c: Core, q: Chain, who: Addr, ids: seq<nat>)
    requires CoreOk(c) && CoversClaimable(who, ids, MatureDue(c, q.now, q.balance, U32_MAX).core)
    ensures var m := MatureDue(c, q.now, q.balance, U32_MAX).core;
            var r, total := ClaimMatured(c, q, who, Some(ids)), TotalClaimableNow(m, who);
            && (r.Ok? <==> Ripe(who, ids, m.claims, m.windows) && total > 0)
            && (r.Ok? ==> r.value.msgs == [Send(who, total)] && TotalClaimableNow(r.value.core, who) == 0)
  {
    hide CoreOk, MatureDue, ClaimFrom, CoversClaimable;
    var m := MatureDue(c, q.now, q.balance, U32_MAX).core;
    MatureKeepsCore(c, q.now, q.balance, U32_MAX);
    IndexIsExact(m, who);
    ClaimFromSucceeds(who, ids, m.claims, m.windows);
    if ClaimFrom(who, ids, m.claims, m.windows).Ok? {
      var r := ClaimFrom(who, ids, m.claims, m.windows).value;
      ClaimFromPays(who, ids, m.claims, m.windows, IndexFor(m.index, who));
      NothingLeft(m, who, ids, r);
    }
  }

  /** With nothing newly due, as after a collection with room for all of it, the query already tells
      what a claim will pay. */
  lemma {:induction false} QueryMatchesClaim(c: Core, q: Chain, who: Addr, ids: seq<nat>)
    requires CoreOk(c) && NothingDue(c.windows, q.now) && CoversClaimable(who, ids, c)
    ensures var r, total := ClaimMatured(c, q, who, Some(ids)), TotalClaimableNow(c, who);
            && (r.Ok? <==> Ripe(who, ids, c.claims, c.windows) && total > 0)
            && (r.Ok? ==> r.value.msgs == [Send(who, total)] && TotalClaimableNow(r.value.core, who) == 0)
  {
    hide CoreOk, MatureDue, ClaimFrom, NothingDue, CoversClaimable;
    NothingCollected(c, q.now, q.balance, U32_MAX);
    ClaimPaysWhatQueryReports(c, q, who, ids);
  }
}
