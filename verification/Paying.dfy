/** What a claim does, to the unit: which claims it collects, what each is paid, and which windows it
    settles and strikes off the active list. */
module Paying {
  import opened Prelude
  import opened Sums
  import opened Types
  import opened Windows
  import opened Chain
  import opened Engine
  import opened Invariants
  import opened Maturing
  import opened Claims
  import opened Keeping
  import opened System
  import opened Reach
  import opened Whole
  import opened Covering
  import opened Properties

  /** A payout is the claim's share of what its window received, rounded down. */
  lemma {:induction false} PayoutIsShare(w: UnbondWindow, owed: nat)
    requires w.scrtOwed > 0 && w.scrtRealised.Some?
    ensures IsQuotient(PayoutForClaim(w, owed), owed, w.scrtRealised.value, w.scrtOwed)
  {
    ScaledBounds(owed, w.scrtRealised.value, w.scrtOwed);
  }

  // ---- one account's claims over a list of windows ----

  /** The listed claim of `who` on window `i` is there to be collected. */
  ghost predicate Collects(who: Addr, ids: seq<nat>, m: Ledger, ws: seq<UnbondWindow>, i: nat) {
    && i in ids && ClaimKey(who, i) in m && !m[ClaimKey(who, i)].claimed
    && i < |ws| && ws[i].state == Matured
  }

  /** Window `w` after paying a claim on it out of `v`: paid further by the claim's share, and settled
      exactly when that brings it to what it received. */
  ghost predicate PaidTo(v: UnbondWindow, w: UnbondWindow, owed: nat) {
    && w == v.(scrtClaimed := w.scrtClaimed, state := w.state)
    && v.scrtRealised.Some? && v.scrtClaimed <= w.scrtClaimed
    && IsQuotient(w.scrtClaimed - v.scrtClaimed, owed, v.scrtRealised.value, v.scrtOwed)
    && (w.state == if w.scrtClaimed < v.scrtRealised.value then Matured else Settled)
  }

  ghost predicate WindowPaid(who: Addr, ids: seq<nat>, m: Ledger, ws: seq<UnbondWindow>, us: seq<UnbondWindow>, i: nat)
    requires i < |ws| == |us|
  {
    if Collects(who, ids, m, ws, i) then PaidTo(ws[i], us[i], m[ClaimKey(who, i)].scrtOwed) else us[i] == ws[i]
  }

  ghost predicate ClaimMarked(who: Addr, ids: seq<nat>, m: Ledger, n: Ledger, ws: seq<UnbondWindow>, k: ClaimKey)
    requires k in m && k in n
  {
    n[k] == if k.account == who && Collects(who, ids, m, ws, k.window) then m[k].(claimed := true) else m[k]
  }

  /** Windows that can be paid from have something to share out. */
  ghost predicate Sharable(ws: seq<UnbondWindow>) {
    forall i :: 0 <= i < |ws| && ws[i].state == Matured ==> ws[i].scrtRealised.Some? && ws[i].scrtOwed > 0
  }

  lemma {:induction false} PaidOnce(v: UnbondWindow, owed: nat)
    requires v.state == Matured && v.scrtRealised.Some? && v.scrtOwed > 0
    ensures PaidTo(v, PaidOut(v, PayoutForClaim(v, owed)), owed)
  {
    PayoutIsShare(v, owed);
  }

  /** The first listed claim is paid; the rest of the loop leaves its window and its record alone. */
  lemma {:induction false} FirstPaid(who: Addr, ids: seq<nat>, m: Ledger, ws: seq<UnbondWindow>, us: seq<UnbondWindow>,
        i: nat)
    requires ids != [] && Payable(m, ws, ClaimKey(who, ids[0])) && Sharable(ws) && i < |ws| == |us|
    requires var id := ids[0]; var k := ClaimKey(who, id);
             WindowPaid(who, ids[1..], Marked(m, k), ws[id := PaidOut(ws[id], PayOf(m, ws, k))], us, i)
    ensures WindowPaid(who, ids, m, ws, us, i)
  {
    hide IsQuotient, PayoutForClaim;
    var id := ids[0];
    assert ids == [id] + ids[1..];
    PaidOnce(ws[id], m[ClaimKey(who, id)].scrtOwed);
  }

  lemma {:induction false} FirstMarked(who: Addr, ids: seq<nat>, m: Ledger, n: Ledger, ws: seq<UnbondWindow>,
        k: ClaimKey)
    requires ids != [] && Payable(m, ws, ClaimKey(who, ids[0])) && k in m && k in n
    requires var id := ids[0]; var j := ClaimKey(who, id);
             ClaimMarked(who, ids[1..], Marked(m, j), n, ws[id := PaidOut(ws[id], PayOf(m, ws, j))], k)
    ensures ClaimMarked(who, ids, m, n, ws, k)
  {
    hide PayoutForClaim;
    assert ids == [ids[0]] + ids[1..];
  }

  lemma {:induction false} Skipped(who: Addr, ids: seq<nat>, m: Ledger, ws: seq<UnbondWindow>, i: nat)
    requires ids != [] && !Payable(m, ws, ClaimKey(who, ids[0]))
    ensures Collects(who, ids, m, ws, i) <==> Collects(who, ids[1..], m, ws, i)
  {
    assert ids == [ids[0]] + ids[1..];
  }

  lemma {:induction false} StaysSharable(ws: seq<UnbondWindow>, id: nat, payout: nat)
    requires Sharable(ws) && id < |ws| && ws[id].state == Matured
    ensures Sharable(ws[id := PaidOut(ws[id], payout)])
  {
  }

  /** The claim loop, window by window and record by record, in whatever order the ids come and however
      often they repeat. */
  lemma {:induction false} ClaimFromPaysEach(who: Addr, ids: seq<nat>, m: Ledger, ws: seq<UnbondWindow>)
    requires ClaimFrom(who, ids, m, ws).Ok? && Sharable(ws)
    ensures var r := ClaimFrom(who, ids, m, ws).value;
            && |r.windows| == |ws| && r.claims.Keys == m.Keys
            && (forall i :: 0 <= i < |ws| ==> WindowPaid(who, ids, m, ws, r.windows, i))
            && (forall k :: k in m ==> ClaimMarked(who, ids, m, r.claims, ws, k))
    decreases |ids|
  {
    hide WindowPaid, ClaimMarked, Sharable, PayoutForClaim;
    if ids == [] {
      NothingPaid(who, m, ws);
    } else {
      var id, k := ids[0], ClaimKey(who, ids[0]);
      var r := ClaimFrom(who, ids, m, ws).value;
      if Payable(m, ws, k) {
        var us := ws[id := PaidOut(ws[id], PayOf(m, ws, k))];
        StaysSharable(ws, id, PayOf(m, ws, k));
        ClaimFromPaysEach(who, ids[1..], Marked(m, k), us);
        assert Marked(m, k).Keys == m.Keys;
        forall i | 0 <= i < |ws| ensures WindowPaid(who, ids, m, ws, r.windows, i) {
          FirstPaid(who, ids, m, ws, r.windows, i);
        }
        forall j | j in m ensures j in r.claims && ClaimMarked(who, ids, m, r.claims, ws, j) {
          assert j in r.claims.Keys && j in Marked(m, k);
          FirstMarked(who, ids, m, r.claims, ws, j);
        }
      } else {
        ClaimFromPaysEach(who, ids[1..], m, ws);
        SkippedAll(who, ids, m, ws, r);
      }
    }
  }

  lemma {:induction false} SkippedAll(who: Addr, ids: seq<nat>, m: Ledger, ws: seq<UnbondWindow>, r: Claiming)
    requires ids != [] && !Payable(m, ws, ClaimKey(who, ids[0]))
    requires |r.windows| == |ws| && r.claims.Keys == m.Keys
    requires forall i :: 0 <= i < |ws| ==> WindowPaid(who, ids[1..], m, ws, r.windows, i)
    requires forall k :: k in m ==> k in r.claims && ClaimMarked(who, ids[1..], m, r.claims, ws, k)
    ensures forall i :: 0 <= i < |ws| ==> WindowPaid(who, ids, m, ws, r.windows, i)
    ensures forall k :: k in m ==> k in r.claims && ClaimMarked(who, ids, m, r.claims, ws, k)
  {
    hide PaidTo, Payable;
    forall i | 0 <= i < |ws| ensures WindowPaid(who, ids, m, ws, r.windows, i) {
      assert WindowPaid(who, ids[1..], m, ws, r.windows, i);
      Skipped(who, ids, m, ws, i);
    }
    forall k | k in m ensures ClaimMarked(who, ids, m, r.claims, ws, k) {
      assert ClaimMarked(who, ids[1..], m, r.claims, ws, k);
      Skipped(who, ids, m, ws, k.window);
    }
  }

  lemma {:induction false} NothingPaid(who: Addr, m: Ledger, ws: seq<UnbondWindow>)
    ensures forall i :: 0 <= i < |ws| ==> WindowPaid(who, [], m, ws, ws, i)
    ensures forall k :: k in m ==> ClaimMarked(who, [], m, m, ws, k)
  {
  }

  // ---- the whole call ----

  /** The ids a claim goes through. */
  function Wanted(c: Core, who: Addr, ids: Option<seq<nat>>): seq<nat> {
    if ids.Some? then ids.value else IndexFor(c.index, who)
  }

  /** The call collected a claim of `who` on window `i`, which had matured or did so in the call. */
  ghost predicate PaidFrom(c: Core, us: seq<UnbondWindow>, who: Addr, ids: seq<nat>, i: nat) {
    && i in ids && ClaimKey(who, i) in c.claims && !c.claims[ClaimKey(who, i)].claimed
    && i < |c.windows| && i < |us| && c.windows[i].state != Settled
    && (us[i].state == Matured || us[i].state == Settled)
  }

  /** One window across a claim. */
  ghost predicate WindowAcross(c: Core, us: seq<UnbondWindow>, who: Addr, ids: seq<nat>, i: nat)
    requires i < |c.windows| == |us|
  {
    var v, w := c.windows[i], us[i];
    if PaidFrom(c, us, who, ids, i) then
      && v.scrtClaimed <= w.scrtClaimed && w.scrtRealised.Some?
      && IsQuotient(w.scrtClaimed - v.scrtClaimed, c.claims[ClaimKey(who, i)].scrtOwed, w.scrtRealised.value, v.scrtOwed)
      && (w.state == Settled <==> w.scrtClaimed == w.scrtRealised.value)
    else
      && w.scrtClaimed == v.scrtClaimed
      && (w.state == Settled <==> v.state == Settled)
  }

  function ClaimedOf(w: UnbondWindow): nat { w.scrtClaimed }

  lemma {:induction false} AcrossPass(c: Core, m: seq<UnbondWindow>, us: seq<UnbondWindow>, who: Addr, ids: seq<nat>,
        matured: seq<nat>, now: nat, i: nat)
    requires MaturedTable(c.windows, m, matured, c.active, now) && i < |c.windows| == |us|
    requires WindowPaid(who, ids, c.claims, m, us, i) && WindowShape(us[i]) && us[i].scrtClaimed <= us[i].Payable()
    ensures WindowAcross(c, us, who, ids, i)
  {
    hide IsQuotient;
    assert i in matured ==> MaturedTo(c.windows[i], m[i]);
  }

  lemma {:induction false} RecordAcross(c: Core, m: seq<UnbondWindow>, us: seq<UnbondWindow>, n: Ledger, who: Addr,
        ids: seq<nat>, matured: seq<nat>, now: nat, k: ClaimKey)
    requires MaturedTable(c.windows, m, matured, c.active, now) && |us| == |m| && k in c.claims && k in n
    requires k.window < |c.windows| && WindowPaid(who, ids, c.claims, m, us, k.window)
    requires ClaimMarked(who, ids, c.claims, n, m, k)
    ensures n[k] == if k.account == who && PaidFrom(c, us, who, ids, k.window)
                    then c.claims[k].(claimed := true) else c.claims[k]
  {
    hide IsQuotient;
    var i := k.window;
    assert i in matured ==> MaturedTo(c.windows[i], m[i]);
  }

  ghost predicate NeverOverpaid(c: Core) {
    forall i :: 0 <= i < |c.windows| ==> WindowShape(c.windows[i]) && c.windows[i].scrtClaimed <= c.windows[i].Payable()
  }

  lemma {:induction false} NoneOverpaid(c: Core)
    requires CoreOk(c)
    ensures NeverOverpaid(c)
  {
    hide SetOk, StakeOk, SlotsOk, ActiveOk, BucketsOk, IndexOk;
    forall i | 0 <= i < |c.windows|
      ensures WindowShape(c.windows[i]) && c.windows[i].scrtClaimed <= c.windows[i].Payable()
    {
      assert WindowOk(c.windows, i, c.config.params.unbondWindowSecs, c.config.params.unbondingPeriodSecs);
      LedgerFacts(c, i);
    }
  }

  lemma {:induction false} SoundIsSharable(c: Core)
    requires NeverOverpaid(c)
    ensures Sharable(c.windows)
  {
  }

  /** What a committed claim did to windows and records. */
  ghost predicate ClaimDid(c: Core, d: Core, who: Addr, ids: seq<nat>) {
    && |d.windows| == |c.windows| && d.claims.Keys == c.claims.Keys
    && (forall i :: 0 <= i < |c.windows| ==> WindowAcross(c, d.windows, who, ids, i))
    && (forall k :: k in c.claims ==>
          d.claims[k] == if k.account == who && PaidFrom(c, d.windows, who, ids, k.window)
                         then c.claims[k].(claimed := true) else c.claims[k])
    && (forall i: nat :: i in d.active <==>
          i < |d.windows| && (d.windows[i].state == Unbonding || d.windows[i].state == Matured))
  }

  lemma {:induction false} ClaimStages(c: Core, m: Core, r: Claiming, d: Core, who: Addr, ids: seq<nat>,
        matured: seq<nat>, now: nat)
    requires MaturedTable(c.windows, m.windows, matured, c.active, now) && m.claims == c.claims
    requires |r.windows| == |m.windows| && r.claims.Keys == m.claims.Keys
    requires forall i :: 0 <= i < |m.windows| ==> WindowPaid(who, ids, m.claims, m.windows, r.windows, i)
    requires forall k :: k in m.claims ==> ClaimMarked(who, ids, m.claims, r.claims, m.windows, k)
    requires NeverOverpaid(d) && d.windows == r.windows && d.claims == r.claims && ActiveOk(d.active, d.windows)
    requires forall k :: k in c.claims ==> k.window < |c.windows|
    ensures ClaimDid(c, d, who, ids)
  {
    hide WindowPaid, ClaimMarked, MaturedTable, WindowAcross, WindowShape, PaidFrom;
    forall i | 0 <= i < |c.windows| ensures |d.windows| == |c.windows| && WindowAcross(c, d.windows, who, ids, i) {
      TableSize(c, m.windows, matured, now);
      AcrossPass(c, m.windows, d.windows, who, ids, matured, now, i);
    }
    TableSize(c, m.windows, matured, now);
    forall k | k in c.claims
      ensures k in d.claims
      ensures d.claims[k] == if k.account == who && PaidFrom(c, d.windows, who, ids, k.window)
                             then c.claims[k].(claimed := true) else c.claims[k]
    {
      assert k in r.claims.Keys;
      RecordAcross(c, m.windows, d.windows, d.claims, who, ids, matured, now, k);
    }
    forall i: nat
      ensures i in d.active <==> i < |d.windows| && (d.windows[i].state == Unbonding || d.windows[i].state == Matured)
    {
      assert i in d.active <==> i < |d.windows| && InFlight(d.windows[i].state);
    }
  }

  lemma {:induction false} TableSize(c: Core, us: seq<UnbondWindow>, matured: seq<nat>, now: nat)
    requires MaturedTable(c.windows, us, matured, c.active, now)
    ensures |us| == |c.windows|
  {
  }

  /** A committed claim, whatever ids it was given: each window it pays from is paid further by exactly
      the caller's share of what that window received, and is settled and struck off the active list
      exactly when that brings it to all it received; the caller's records there are marked collected;
      every other record, and what every other window has paid, stays. */
  lemma {:induction false} ClaimDoes(s: Sys, who: Addr, ids: Option<seq<nat>>)
    requires SysOk(s) && Commits(s, DoClaim(who, ids))
    ensures ClaimDid(s.core, Transact(s, DoClaim(who, ids)).core, who, Wanted(s.core, who, ids))
  {
    hide CoreOk, QueueOk, TimeOk, TokensOk, ReleasedInTime, SweptOk, MatureDue, ClaimFrom, ClaimMatured, SweptAfter,
         WindowPaid, ClaimMarked, MaturedTable, ClaimDid, NeverOverpaid, ActiveOk, Sharable;
    var c, q := s.core, s.chain;
    var m, wanted, r := ClaimForm(c, q, who, ids);
    var d := Transact(s, DoClaim(who, ids)).core;
    MatureKeepsCore(c, q.now, q.balance, U32_MAX);
    MatureFrame(c, q.now, q.balance, U32_MAX);
    var matured := PassIs(c, q);
    NoneOverpaid(m);
    SoundIsSharable(m);
    ClaimFromPaysEach(who, wanted, m.claims, m.windows);
    TransactKeeps(s, DoClaim(who, ids));
    NoneOverpaid(d);
    KnownWindows(c);
    SoundActive(d);
    ClaimStages(c, m, r, d, who, wanted, matured, q.now);
  }

  lemma {:induction false} PassIs(c: Core, q: Chain) returns (matured: seq<nat>)
    requires CoreOk(c)
    ensures MaturedTable(c.windows, MatureDue(c, q.now, q.balance, U32_MAX).core.windows, matured, c.active, q.now)
  {
    hide MatureFrom, SetOk, StakeOk, SlotsOk, LedgerOk, IndexOk, WindowsOk, MaturedTable;
    ActiveWaits(c);
    var spoken := SumSeq(c.active, SpokenAt(c.windows));
    MatureFromWindows(c.active, c.windows, q.now, q.balance, spoken, Max(U32_MAX, 1));
    matured := MatureFrom(c.active, c.windows, q.now, q.balance, spoken, Max(U32_MAX, 1)).matured;
    if matured == [] {
      MaturedTableSame(c.windows, c.active, q.now);
    }
  }

  lemma {:induction false} KnownWindows(c: Core)
    requires CoreOk(c)
    ensures forall k :: k in c.claims ==> k.window < |c.windows|
  {
    forall k | k in c.claims ensures k.window < |c.windows| {
      assert ClaimOk(k, c.claims[k], c.windows);
    }
  }

  lemma {:induction false} SoundActive(c: Core)
    requires CoreOk(c)
    ensures ActiveOk(c.active, c.windows)
  {
  }

  /** And what it pays out is what those windows were paid further: all of it to the caller. */
  lemma {:induction false} ClaimSends(s: Sys, who: Addr, ids: Option<seq<nat>>)
    requires SysOk(s) && Commits(s, DoClaim(who, ids))
    ensures var t := Transact(s, DoClaim(who, ids));
            var paid := SumSeq(t.core.windows, ClaimedOf) - SumSeq(s.core.windows, ClaimedOf);
            && paid > 0 && Handled(s, DoClaim(who, ids)).msgs == [Send(who, paid)]
            && t.chain.balance == s.chain.balance - paid
  {
    hide CoreOk, QueueOk, TimeOk, TokensOk, ReleasedInTime, SweptOk, MatureDue, ClaimFrom, ClaimMatured, SweptAfter;
    var c, q := s.core, s.chain;
    var m, wanted, r := ClaimForm(c, q, who, ids);
    var matured := PassIs(c, q);
    ClaimFromAdds(who, wanted, m.claims, m.windows);
    PassPaysNobody(c, m.windows, matured, q.now);
    SendRuns(q, who, r.paid);
  }

  lemma {:induction false} PassPaysNobody(c: Core, us: seq<UnbondWindow>, matured: seq<nat>, now: nat)
    requires MaturedTable(c.windows, us, matured, c.active, now)
    ensures SumSeq(us, ClaimedOf) == SumSeq(c.windows, ClaimedOf)
  {
    forall i | 0 <= i < |c.windows| ensures ClaimedOf(us[i]) == ClaimedOf(c.windows[i]) {
      assert i in matured ==> MaturedTo(c.windows[i], us[i]);
    }
    SumSame(us, ClaimedOf, c.windows, ClaimedOf);
  }

  lemma {:induction false} ClaimFromAdds(who: Addr, ids: seq<nat>, m: Ledger, ws: seq<UnbondWindow>)
    requires ClaimFrom(who, ids, m, ws).Ok?
    ensures var r := ClaimFrom(who, ids, m, ws).value; SumSeq(r.windows, ClaimedOf) == SumSeq(ws, ClaimedOf) + r.paid
    decreases |ids|
  {
    if ids != [] {
      var id, k := ids[0], ClaimKey(who, ids[0]);
      if Payable(m, ws, k) {
        var w := PaidOut(ws[id], PayOf(m, ws, k));
        ClaimFromAdds(who, ids[1..], Marked(m, k), ws[id := w]);
        SumUpdate(ws, id, w, ClaimedOf);
      } else {
        ClaimFromAdds(who, ids[1..], m, ws);
      }
    }
  }

  // ---- over any run ----

  /** In every reachable state a window that has matured but is not settled has something left to pay, or
      received nothing; a settled one has paid all it received; and the active list holds exactly the
      windows still unbonding and the matured ones. */
  lemma {:induction false} FullyPaidIsSettled(s: Sys, steps: seq<Step>, i: nat)
    requires Fresh(s) && i < |After(s, steps).core.windows|
    ensures var c := After(s, steps).core;
            var w := c.windows[i];
            && (w.state == Matured ==>
                  w.scrtRealised.Some? && (w.scrtRealised.value > 0 ==> w.scrtClaimed < w.scrtRealised.value))
            && (w.state == Settled ==> w.scrtRealised == Some(w.scrtClaimed))
            && (i in c.active <==> w.state == Unbonding || w.state == Matured)
  {
    hide Fresh, After, SetOk, StakeOk, SlotsOk, BucketsOk, LedgerOk, IndexOk, WindowsOk, ConfigOk;
    var c := After(s, steps).core;
    ReachableOk(s, steps);
    NoneOverpaid(c);
    assert i in c.active <==> InFlight(c.windows[i].state);
  }
}
