/** The claim ledger: what claims on a window add up to, and what paying them does. */
module Claims {
  import opened Prelude
  import opened Sums
  import opened Types
  import opened Windows
  import opened Validators
  import opened Engine
  import opened Invariants

  type Ledger = map<ClaimKey, ClaimRecord>

  /** What every claim on window `id` would be paid, collected or not. */
  function PayoutIn(id: nat, realised: nat, promised: nat): ((ClaimKey, ClaimRecord)) -> nat {
    (e: (ClaimKey, ClaimRecord)) => if e.0.window == id then Scaled(e.1.scrtOwed, realised, promised) else 0
  }

  /** What the claims not yet collected would be paid. */
  function UnpaidIn(id: nat, realised: nat, promised: nat): ((ClaimKey, ClaimRecord)) -> nat {
    (e: (ClaimKey, ClaimRecord)) =>
      if e.0.window == id && !e.1.claimed then Scaled(e.1.scrtOwed, realised, promised) else 0
  }

  function ClaimantsIn(id: nat): ((ClaimKey, ClaimRecord)) -> nat {
    (e: (ClaimKey, ClaimRecord)) => if e.0.window == id then 1 else 0
  }

  lemma {:induction false} ScaledBounds(owed: nat, realised: nat, promised: nat)
    requires promised > 0
    ensures Scaled(owed, realised, promised) * promised <= owed * realised
    ensures owed * realised < (Scaled(owed, realised, promised) + 1) * promised
  {
    if realised != promised {
      MulDivBounds(owed, realised, promised);
    }
    assert (Scaled(owed, realised, promised) + 1) * promised == Scaled(owed, realised, promised) * promised + promised;
  }

  lemma {:induction false} Add2(a: nat, b: nat, p: nat, x: nat, y: nat, r: nat)
    ensures (a + b) * p == a * p + b * p && (x + y) * r == x * r + y * r
  {
  }

  /** Payouts never add up to more than the claims' share of what was realised. */
  lemma {:induction false} PayoutsBelow(m: Ledger, id: nat, realised: nat, promised: nat)
    requires promised > 0
    ensures SumMap(m, PayoutIn(id, realised, promised)) * promised <= SumMap(m, OwedIn(id)) * realised
    decreases |m|
  {
    if m != map[] {
      var k :| k in m;
      MapShrinks(m, k);
      SumMapRemove(m, k, PayoutIn(id, realised, promised));
      SumMapRemove(m, k, OwedIn(id));
      PayoutsBelow(m - {k}, id, realised, promised);
      ScaledBounds(m[k].scrtOwed, realised, promised);
      Add2(PayoutIn(id, realised, promised)((k, m[k])), SumMap(m - {k}, PayoutIn(id, realised, promised)), promised,
           OwedIn(id)((k, m[k])), SumMap(m - {k}, OwedIn(id)), realised);
    }
  }

  /** Rounding down costs less than one unit per claimant. */
  lemma {:induction false} PayoutsAbove(m: Ledger, id: nat, realised: nat, promised: nat)
    requires promised > 0
    ensures SumMap(m, OwedIn(id)) * realised + SumMap(m, ClaimantsIn(id))
            <= (SumMap(m, PayoutIn(id, realised, promised)) + SumMap(m, ClaimantsIn(id))) * promised
    decreases |m|
  {
    if m != map[] {
      var k :| k in m;
      var pay, one, owed := PayoutIn(id, realised, promised)((k, m[k])), ClaimantsIn(id)((k, m[k])), OwedIn(id)((k, m[k]));
      MapShrinks(m, k);
      SumMapRemove(m, k, PayoutIn(id, realised, promised));
      SumMapRemove(m, k, OwedIn(id));
      SumMapRemove(m, k, ClaimantsIn(id));
      PayoutsAbove(m - {k}, id, realised, promised);
      ScaledBounds(m[k].scrtOwed, realised, promised);
      AddClaimant(pay, one, owed, SumMap(m - {k}, PayoutIn(id, realised, promised)), SumMap(m - {k}, ClaimantsIn(id)),
                  SumMap(m - {k}, OwedIn(id)), realised, promised);
    }
  }

  lemma {:induction false} AddClaimant(pay: nat, one: nat, owed: nat, pays: nat, ones: nat, oweds: nat, r: nat, p: nat)
    requires owed * r + one <= (pay + one) * p
    requires oweds * r + ones <= (pays + ones) * p
    ensures (owed + oweds) * r + (one + ones) <= ((pay + pays) + (one + ones)) * p
  {
    Add2(pay + one, pays + ones, p, owed, oweds, r);
  }

  lemma {:induction false} PayoutSplit(m: Ledger, id: nat, realised: nat, promised: nat)
    ensures SumMap(m, PayoutIn(id, realised, promised))
            == SumMap(m, PaidIn(id, realised, promised)) + SumMap(m, UnpaidIn(id, realised, promised))
    decreases |m|
  {
    if m != map[] {
      var k :| k in m;
      MapShrinks(m, k);
      SumMapRemove(m, k, PayoutIn(id, realised, promised));
      SumMapRemove(m, k, PaidIn(id, realised, promised));
      SumMapRemove(m, k, UnpaidIn(id, realised, promised));
      PayoutSplit(m - {k}, id, realised, promised);
    }
  }

  /** Collected and uncollected payouts together fit in what the window received. */
  lemma {:induction false} PayoutsFit(m: Ledger, w: UnbondWindow, id: nat)
    requires LedgerAt(m, w, id) && w.scrtOwed > 0
    ensures w.scrtClaimed + SumMap(m, UnpaidIn(id, w.Payable(), w.scrtOwed)) <= w.Payable()
  {
    PayoutsBelow(m, id, w.Payable(), w.scrtOwed);
    PayoutSplit(m, id, w.Payable(), w.scrtOwed);
    CancelPromised(SumMap(m, PayoutIn(id, w.Payable(), w.scrtOwed)), w.Payable(), w.scrtOwed);
  }

  lemma {:induction false} CancelPromised(x: nat, y: nat, d: nat)
    requires d > 0 && x * d <= d * y
    ensures x <= y
  {
    MulCancelLe(x, y, d);
  }

  /** What a window can never pay out is less than one unit per claimant. */
  lemma {:induction false} ResidueIsSmall(m: Ledger, w: UnbondWindow, id: nat)
    requires LedgerAt(m, w, id) && w.scrtOwed > 0
    ensures w.Payable() < SumMap(m, PayoutIn(id, w.Payable(), w.scrtOwed)) + SumMap(m, ClaimantsIn(id))
  {
    PayoutsAbove(m, id, w.Payable(), w.scrtOwed);
    SomeClaimant(m, id);
    MulCancel(w.Payable(), SumMap(m, PayoutIn(id, w.Payable(), w.scrtOwed)) + SumMap(m, ClaimantsIn(id)), w.scrtOwed);
  }

  lemma {:induction false} SomeClaimant(m: Ledger, id: nat)
    requires SumMap(m, OwedIn(id)) > 0
    ensures SumMap(m, ClaimantsIn(id)) > 0
  {
    if forall k :: k in m ==> k.window != id {
      SumMapZero(m, OwedIn(id));
    } else {
      var k :| k in m && k.window == id;
      SumMapMember(m, k, ClaimantsIn(id));
    }
  }

  /** Once a window is settled, a claim nobody collected is worth nothing. */
  lemma {:induction false} SettledOwesNothing(m: Ledger, ws: seq<UnbondWindow>, k: ClaimKey)
    requires LedgerOk(m, ws) && k in m && ws[k.window].state == Settled && !m[k].claimed
    requires WindowShape(ws[k.window])
    ensures PayoutForClaim(ws[k.window], m[k].scrtOwed) == 0
  {
    var w := ws[k.window];
    assert ClaimOk(k, m[k], ws) && LedgerAt(m, w, k.window);
    SumMapMember(m, k, OwedIn(k.window));
    PayoutsFit(m, w, k.window);
    SumMapMember(m, k, UnpaidIn(k.window, w.Payable(), w.scrtOwed));
  }

  // ---- one payout ----

  /** The state a payout of claim `k` starts from. */
  ghost predicate Payable(m: Ledger, ws: seq<UnbondWindow>, k: ClaimKey) {
    k in m && !m[k].claimed && k.window < |ws| && ws[k.window].state == Matured
  }

  function PayOf(m: Ledger, ws: seq<UnbondWindow>, k: ClaimKey): nat
    requires k in m && k.window < |ws|
  {
    PayoutForClaim(ws[k.window], m[k].scrtOwed)
  }

  function Marked(m: Ledger, k: ClaimKey): Ledger
    requires k in m
  {
    m[k := m[k].(claimed := true)]
  }

  /** The payout is there to be paid. */
  lemma {:induction false} PayoutIsThere(m: Ledger, ws: seq<UnbondWindow>, k: ClaimKey)
    requires LedgerOk(m, ws) && Payable(m, ws, k) && WindowShape(ws[k.window])
    ensures ws[k.window].scrtClaimed + PayOf(m, ws, k) <= ws[k.window].Payable()
  {
    var w := ws[k.window];
    assert LedgerAt(m, w, k.window);
    PayoutsFit(m, w, k.window);
    SumMapMember(m, k, UnpaidIn(k.window, w.Payable(), w.scrtOwed));
  }

  lemma {:induction false} PayKeepsLedger(m: Ledger, ws: seq<UnbondWindow>, k: ClaimKey)
    requires LedgerOk(m, ws) && Payable(m, ws, k)
    ensures LedgerOk(Marked(m, k), ws[k.window := PaidOut(ws[k.window], PayOf(m, ws, k))])
  {
    var n, us := Marked(m, k), ws[k.window := PaidOut(ws[k.window], PayOf(m, ws, k))];
    forall j | j in n ensures ClaimOk(j, n[j], us) {
      assert ClaimOk(j, m[j], ws);
    }
    forall id | 0 <= id < |us| ensures LedgerAt(n, us[id], id) {
      assert LedgerAt(m, ws[id], id);
      SumMapUpdate(m, k, n[k], OwedIn(id));
      SumMapUpdate(m, k, n[k], SharesIn(id));
      SumMapUpdate(m, k, n[k], PaidIn(id, ws[id].Payable(), ws[id].scrtOwed));
    }
  }

  lemma {:induction false} PayKeepsWindows(m: Ledger, ws: seq<UnbondWindow>, k: ClaimKey, openId: nat, p: nat, u: nat)
    requires WindowsOk(ws, openId, p, u) && Payable(m, ws, k)
    ensures WindowsOk(ws[k.window := PaidOut(ws[k.window], PayOf(m, ws, k))], openId, p, u)
  {
    var us := ws[k.window := PaidOut(ws[k.window], PayOf(m, ws, k))];
    forall i | 0 <= i < |us| ensures WindowOk(us, i, p, u) {
      assert WindowOk(ws, i, p, u);
    }
    forall i, j | 0 <= i < |us| && 0 <= j < |us| ensures InTurn(us, i, j) {
      assert InTurn(ws, i, j) && WindowOk(ws, j, p, u);
    }
  }

  /** A payout comes off the matured bucket in full, even when it settles the window. */
  lemma {:induction false} PayMovesBucket(m: Ledger, ws: seq<UnbondWindow>, k: ClaimKey)
    requires LedgerOk(m, ws) && Payable(m, ws, k) && WindowShape(ws[k.window])
    ensures var us := ws[k.window := PaidOut(ws[k.window], PayOf(m, ws, k))];
            && SumSeq(us, MaturedOutstanding) + PayOf(m, ws, k) == SumSeq(ws, MaturedOutstanding)
            && SumSeq(us, UnbondingOwed) == SumSeq(ws, UnbondingOwed)
  {
    PayoutIsThere(m, ws, k);
    SumUpdate(ws, k.window, PaidOut(ws[k.window], PayOf(m, ws, k)), MaturedOutstanding);
    SumUpdate(ws, k.window, PaidOut(ws[k.window], PayOf(m, ws, k)), UnbondingOwed);
  }

  // ---- the claim loop ----

  /** The same window, possibly paid further. */
  ghost predicate PaidFurther(v: UnbondWindow, w: UnbondWindow) {
    && w == v.(scrtClaimed := w.scrtClaimed, state := w.state)
    && (w == v || v.state == Matured)
    && (w.state == v.state || (v.state == Matured && w.state == Settled))
  }

  ghost predicate ClaimRun(m: Ledger, ws: seq<UnbondWindow>, r: Claiming, openId: nat, p: nat, u: nat) {
    && WindowsOk(r.windows, openId, p, u)
    && LedgerOk(r.claims, r.windows)
    && r.claims.Keys == m.Keys
    && |r.windows| == |ws|
    && (forall i :: 0 <= i < |ws| ==> PaidFurther(ws[i], r.windows[i]))
    && (forall i: nat :: i in r.settled <==> i < |ws| && ws[i].state == Matured && r.windows[i].state == Settled)
    && SumSeq(r.windows, MaturedOutstanding) + r.paid == SumSeq(ws, MaturedOutstanding)
    && SumSeq(r.windows, UnbondingOwed) == SumSeq(ws, UnbondingOwed)
  }

  lemma {:induction false} ClaimFromKeeps(who: Addr, ids: seq<nat>, m: Ledger, ws: seq<UnbondWindow>, openId: nat,
        p: nat, u: nat)
    requires WindowsOk(ws, openId, p, u) && LedgerOk(m, ws) && ClaimFrom(who, ids, m, ws).Ok?
    ensures ClaimRun(m, ws, ClaimFrom(who, ids, m, ws).value, openId, p, u)
    decreases |ids|
  {
    if ids != [] {
      var id, k := ids[0], ClaimKey(who, ids[0]);
      if Payable(m, ws, k) {
        var us := ws[id := PaidOut(ws[id], PayOf(m, ws, k))];
        assert WindowOk(ws, id, p, u);
        PayKeepsWindows(m, ws, k, openId, p, u);
        PayKeepsLedger(m, ws, k);
        PayMovesBucket(m, ws, k);
        ClaimFromKeeps(who, ids[1..], Marked(m, k), us, openId, p, u);
        ClaimRunStep(m, ws, k, ClaimFrom(who, ids[1..], Marked(m, k), us).value, openId, p, u);
      } else {
        ClaimFromKeeps(who, ids[1..], m, ws, openId, p, u);
      }
    }
  }

  lemma {:induction false} ClaimRunStep(m: Ledger, ws: seq<UnbondWindow>, k: ClaimKey, r: Claiming, openId: nat,
        p: nat, u: nat)
    requires Payable(m, ws, k)
    requires var us := ws[k.window := PaidOut(ws[k.window], PayOf(m, ws, k))];
             && SumSeq(us, MaturedOutstanding) + PayOf(m, ws, k) == SumSeq(ws, MaturedOutstanding)
             && SumSeq(us, UnbondingOwed) == SumSeq(ws, UnbondingOwed)
             && ClaimRun(Marked(m, k), us, r, openId, p, u)
    ensures var w := PaidOut(ws[k.window], PayOf(m, ws, k));
            ClaimRun(m, ws, Claiming(r.claims, r.windows, PayOf(m, ws, k) + r.paid,
                                     (if w.state == Settled then [k.window] else []) + r.settled), openId, p, u)
  {
    PaidFurtherStep(ws, r.windows, k.window, PayOf(m, ws, k), r.settled);
  }

  lemma {:induction false} PaidFurtherStep(ws: seq<UnbondWindow>, rs: seq<UnbondWindow>, id: nat, pay: nat,
        settled: seq<nat>)
    requires id < |ws| == |rs| && ws[id].state == Matured
    requires var us := ws[id := PaidOut(ws[id], pay)];
             && (forall i :: 0 <= i < |us| ==> PaidFurther(us[i], rs[i]))
             && (forall i: nat :: i in settled <==> i < |us| && us[i].state == Matured && rs[i].state == Settled)
    ensures forall i :: 0 <= i < |ws| ==> PaidFurther(ws[i], rs[i])
    ensures var w := PaidOut(ws[id], pay);
            forall i: nat :: i in (if w.state == Settled then [id] else []) + settled
              <==> i < |ws| && ws[i].state == Matured && rs[i].state == Settled
  {
    var us := ws[id := PaidOut(ws[id], pay)];
    var all := (if us[id].state == Settled then [id] else []) + settled;
    forall i | 0 <= i < |ws| ensures PaidFurther(ws[i], rs[i]) {
      assert PaidFurther(us[i], rs[i]);
    }
    forall i: nat ensures i in all <==> i < |ws| && ws[i].state == Matured && rs[i].state == Settled {
      assert i < |us| ==> PaidFurther(us[i], rs[i]);
    }
  }

  lemma {:induction false} WithoutIs(ids: seq<nat>, gone: seq<nat>)
    requires Increasing(ids)
    ensures Increasing(Without(ids, gone))
    ensures forall x :: x in Without(ids, gone) <==> x in ids && x !in gone
  {
    if ids != [] {
      var init := ids[..|ids| - 1];
      WithoutIs(init, gone);
      assert ids == init + [ids[|ids| - 1]];
      forall i | 0 <= i < |Without(init, gone)| ensures Without(init, gone)[i] < ids[|ids| - 1] {
        assert Without(init, gone)[i] in init;
      }
    }
  }

  lemma {:induction false} PaidKeepsActive(active: seq<nat>, ws: seq<UnbondWindow>, us: seq<UnbondWindow>,
        settled: seq<nat>)
    requires ActiveOk(active, ws) && |us| == |ws|
    requires forall i :: 0 <= i < |ws| ==> PaidFurther(ws[i], us[i])
    requires forall i: nat :: i in settled <==> i < |ws| && ws[i].state == Matured && us[i].state == Settled
    ensures ActiveOk(Without(active, settled), us)
  {
    WithoutIs(active, settled);
    forall id: nat ensures id in Without(active, settled) <==> id < |us| && InFlight(us[id].state) {
      if id < |ws| {
        assert PaidFurther(ws[id], us[id]);
      }
    }
  }

  lemma {:induction false} PaidKeepsSlots(vs: seq<ValidatorEntry>, ws: seq<UnbondWindow>, us: seq<UnbondWindow>,
        ceiling: nat)
    requires SlotsOk(vs, ws, ceiling) && |us| == |ws|
    requires forall i :: 0 <= i < |ws| ==> PaidFurther(ws[i], us[i])
    ensures SlotsOk(vs, us, ceiling)
  {
    forall i | 0 <= i < |us| ensures UsedOk(us[i], vs) {
      assert UsedOk(ws[i], vs) && PaidFurther(ws[i], us[i]);
    }
    forall i | 0 <= i < |vs| ensures SlotOk(vs[i], us, ceiling) {
      assert SlotOk(vs[i], ws, ceiling);
      forall j | 0 <= j < |ws| ensures Uses(vs[i].address)(ws[j]) == Uses(vs[i].address)(us[j]) {
        assert PaidFurther(ws[j], us[j]);
      }
      SumSame(ws, Uses(vs[i].address), us, Uses(vs[i].address));
    }
  }
}
