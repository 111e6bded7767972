/** Closing the open window keeps every invariant. */
module Closing {
  import opened Prelude
  import opened Sums
  import opened Types
  import opened Windows
  import opened Validators
  import opened Plans
  import opened Chain
  import opened Engine
  import opened Invariants

  // ---- drawing the legs ----

  ghost predicate LegsFit(vs: seq<ValidatorEntry>, legs: seq<UnbondLeg>) {
    && (forall k :: 0 <= k < |legs| ==>
          legs[k].index < |vs| && 0 < legs[k].amount <= vs[legs[k].index].bonded && vs[legs[k].index].activeUnbondEntries < 255)
    && (forall j, k :: 0 <= j < k < |legs| ==> legs[j].index != legs[k].index)
  }

  lemma {:induction false} PlanFits(vs: seq<ValidatorEntry>, amount: nat, ceiling: nat, legs: seq<UnbondLeg>)
    requires IsPlan(vs, amount, ceiling, legs) && ceiling < 255
    ensures LegsFit(vs, legs)
  {
    PlanIndicesDiffer(vs, amount, ceiling, legs);
  }

  function Tapped(v: ValidatorEntry, amount: nat): ValidatorEntry
    requires amount <= v.bonded
  {
    v.(bonded := v.bonded - amount, activeUnbondEntries := v.activeUnbondEntries + 1)
  }

  /** One more leg, when the legs before it have not touched its validator. */
  lemma {:induction false} DrawnSnoc(vs: seq<ValidatorEntry>, legs: seq<UnbondLeg>)
    requires legs != [] && LegsFit(vs, legs)
    requires Drawn(vs, legs[..|legs| - 1])[legs[|legs| - 1].index] == vs[legs[|legs| - 1].index]
    ensures var leg := legs[|legs| - 1];
            Drawn(vs, legs) == Drawn(vs, legs[..|legs| - 1])[leg.index := Tapped(vs[leg.index], leg.amount)]
  {
  }

  lemma {:induction false} DrawnStep(vs: seq<ValidatorEntry>, legs: seq<UnbondLeg>, before: seq<ValidatorEntry>,
        after: seq<ValidatorEntry>)
    requires legs != [] && LegsFit(vs, legs) && |before| == |after| == |vs|
    requires var last := |legs| - 1; after == before[legs[last].index := Tapped(vs[legs[last].index], legs[last].amount)]
    requires forall k :: 0 <= k < |legs| - 1 ==> before[legs[k].index] == Tapped(vs[legs[k].index], legs[k].amount)
    requires forall i :: 0 <= i < |vs| && !Touches(legs[..|legs| - 1], i) ==> before[i] == vs[i]
    ensures forall k :: 0 <= k < |legs| ==> after[legs[k].index] == Tapped(vs[legs[k].index], legs[k].amount)
    ensures forall i :: 0 <= i < |vs| && !Touches(legs, i) ==> after[i] == vs[i]
  {
    forall i | 0 <= i < |vs| && !Touches(legs, i) ensures after[i] == vs[i] {
      assert legs[|legs| - 1].index != i;
      assert forall k :: 0 <= k < |legs| - 1 ==> legs[k].index != i;
    }
  }

  /** Each leg empties its validator by the leg's amount and takes one slot; nothing else moves. */
  lemma {:induction false} DrawnIs(vs: seq<ValidatorEntry>, legs: seq<UnbondLeg>)
    requires LegsFit(vs, legs)
    ensures forall k :: 0 <= k < |legs| ==> Drawn(vs, legs)[legs[k].index] == Tapped(vs[legs[k].index], legs[k].amount)
    ensures forall i :: 0 <= i < |vs| && !Touches(legs, i) ==> Drawn(vs, legs)[i] == vs[i]
  {
    if legs != [] {
      var init, leg := legs[..|legs| - 1], legs[|legs| - 1];
      DrawnIs(vs, init);
      assert !Touches(init, leg.index);
      DrawnSnoc(vs, legs);
      DrawnStep(vs, legs, Drawn(vs, init), Drawn(vs, legs));
    }
  }

  lemma {:induction false} DrawnStake(vs: seq<ValidatorEntry>, legs: seq<UnbondLeg>)
    requires LegsFit(vs, legs)
    ensures TotalBonded(Drawn(vs, legs)) + SumSeq(legs, Amount) == TotalBonded(vs)
  {
    if legs != [] {
      var init, leg := legs[..|legs| - 1], legs[|legs| - 1];
      DrawnStake(vs, init);
      DrawnIs(vs, init);
      assert !Touches(init, leg.index);
      DrawnSnoc(vs, legs);
      SumUpdate(Drawn(vs, init), leg.index, Tapped(vs[leg.index], leg.amount), Bonded);
    }
  }

  lemma {:induction false} DrawnRewards(vs: seq<ValidatorEntry>, legs: seq<UnbondLeg>)
    requires LegsFit(vs, legs)
    ensures TotalRewards(Drawn(vs, legs)) == TotalRewards(vs)
  {
    DrawnIs(vs, legs);
    var r := Drawn(vs, legs);
    forall i | 0 <= i < |vs| ensures Rewards(r[i]) == Rewards(vs[i]) {
      if Touches(legs, i) {
        var k :| 0 <= k < |legs| && legs[k].index == i;
      }
    }
    SumSame(r, Rewards, vs, Rewards);
  }

  lemma {:induction false} DrawnKeepsAddresses(vs: seq<ValidatorEntry>, legs: seq<UnbondLeg>)
    requires LegsFit(vs, legs)
    ensures Addresses(Drawn(vs, legs)) == Addresses(vs)
  {
    DrawnIs(vs, legs);
    forall i | 0 <= i < |vs| ensures Drawn(vs, legs)[i].address == vs[i].address {
      if Touches(legs, i) {
        var k :| 0 <= k < |legs| && legs[k].index == i;
      }
    }
  }

  lemma {:induction false} DrawnKeepsSet(vs: seq<ValidatorEntry>, legs: seq<UnbondLeg>, allowlist: seq<Addr>,
        maxBps: nat)
    requires LegsFit(vs, legs) && SetOk(vs, allowlist, maxBps)
    ensures SetOk(Drawn(vs, legs), allowlist, maxBps)
    ensures Addresses(Drawn(vs, legs)) == Addresses(vs)
  {
    DrawnIs(vs, legs);
    var r := Drawn(vs, legs);
    forall i | 0 <= i < |vs|
      ensures r[i].address == vs[i].address && r[i].weightBps == vs[i].weightBps && r[i].status == vs[i].status
    {
      if Touches(legs, i) {
        var k :| 0 <= k < |legs| && legs[k].index == i;
      }
    }
    assert Addresses(r) == Addresses(vs);
    SumSame(vs, ActiveWeight, r, ActiveWeight);
    forall i | 0 <= i < |r| ensures EntryOk(r[i], allowlist, maxBps) {
      assert EntryOk(vs[i], allowlist, maxBps);
    }
  }

  // ---- the validators a window used ----

  lemma {:induction false} LegAddressesAre(vs: seq<ValidatorEntry>, legs: seq<UnbondLeg>)
    requires LegsFit(vs, legs) && Distinct(Addresses(vs))
    ensures Distinct(LegAddresses(vs, legs))
    ensures forall a :: a in LegAddresses(vs, legs) ==> a in Addresses(vs)
    ensures forall i :: 0 <= i < |vs| ==> (vs[i].address in LegAddresses(vs, legs) <==> Touches(legs, i))
  {
    var used := LegAddresses(vs, legs);
    forall j, k | 0 <= j < k < |used| ensures used[j] != used[k] {
      assert used[j] == Addresses(vs)[legs[j].index] && used[k] == Addresses(vs)[legs[k].index];
    }
    forall a | a in used ensures a in Addresses(vs) {
      var k :| 0 <= k < |used| && used[k] == a;
      assert Addresses(vs)[legs[k].index] == a;
    }
    forall i | 0 <= i < |vs| ensures vs[i].address in used <==> Touches(legs, i) {
      if Touches(legs, i) {
        var k :| 0 <= k < |legs| && legs[k].index == i;
        assert used[k] == vs[i].address;
      }
      if vs[i].address in used {
        var k :| 0 <= k < |used| && used[k] == vs[i].address;
        assert Addresses(vs)[legs[k].index] == Addresses(vs)[i];
      }
    }
  }

  // ---- the window table ----

  /** The table after the last window is replaced by `closed` and `next` follows it. */
  function Rolled(ws: seq<UnbondWindow>, closed: UnbondWindow, next: UnbondWindow): seq<UnbondWindow>
    requires ws != []
  {
    ws[|ws| - 1 := closed] + [next]
  }

  lemma {:induction false} RolledSum(ws: seq<UnbondWindow>, closed: UnbondWindow, next: UnbondWindow,
        f: UnbondWindow -> nat)
    requires ws != []
    ensures SumSeq(Rolled(ws, closed, next), f) + f(ws[|ws| - 1]) == SumSeq(ws, f) + f(closed) + f(next)
  {
    SumSnoc(ws[|ws| - 1 := closed], next, f);
    SumUpdate(ws, |ws| - 1, closed, f);
  }

  /** `closed` is what closing the open window `w` at `now` can yield. */
  ghost predicate ClosesTo(w: UnbondWindow, closed: UnbondWindow, now: nat, u: nat) {
    exists used :: closed == Close(w.(validatorsUsed := used), now, u)
  }

  lemma {:induction false} RolledWindows(ws: seq<UnbondWindow>, openId: nat, closed: UnbondWindow, now: nat, p: nat,
        u: nat)
    requires WindowsOk(ws, openId, p, u) && ClosesTo(ws[openId], closed, now, u) && ws[openId].closesAt <= now
    ensures WindowsOk(Rolled(ws, closed, OpenWindow(|ws|, now, p)), |ws|, p, u)
  {
    var r := Rolled(ws, closed, OpenWindow(|ws|, now, p));
    assert WindowOk(ws, openId, p, u);
    forall i | 0 <= i < |r| ensures WindowOk(r, i, p, u) {
      if i < openId {
        assert WindowOk(ws, i, p, u);
        assert r[i] == ws[i];
        assert i + 1 < |ws| && r[i + 1].openedAt == ws[i + 1].openedAt;
      }
    }
    forall i, j | 0 <= i < |r| && 0 <= j < |r| ensures InTurn(r, i, j) {
      if i < j < openId {
        assert InTurn(ws, i, j);
      }
    }
  }

  lemma {:induction false} RolledActive(ws: seq<UnbondWindow>, openId: nat, closed: UnbondWindow, now: nat, p: nat,
        u: nat, active: seq<nat>)
    requires WindowsOk(ws, openId, p, u) && ClosesTo(ws[openId], closed, now, u) && ActiveOk(active, ws)
    ensures ActiveOk(if ws[openId].scrtOwed != 0 then active + [openId] else active, Rolled(ws, closed, OpenWindow(|ws|, now, p)))
  {
    var r := Rolled(ws, closed, OpenWindow(|ws|, now, p));
    var act := if ws[openId].scrtOwed != 0 then active + [openId] else active;
    assert WindowOk(ws, openId, p, u);
    assert openId !in active;
    forall i, j | 0 <= i < j < |act| ensures act[i] < act[j] {
      assert act[i] in active;
    }
    forall id: nat ensures id in act <==> id < |r| && InFlight(r[id].state) {
      if id < openId {
        assert r[id] == ws[id];
      }
    }
  }

  lemma {:induction false} RolledBuckets(t: TotalsCache, ws: seq<UnbondWindow>, openId: nat, closed: UnbondWindow,
        now: nat, p: nat, u: nat)
    requires WindowsOk(ws, openId, p, u) && ClosesTo(ws[openId], closed, now, u) && BucketsOk(t, ws, openId)
    ensures var owed := ws[openId].scrtOwed;
            BucketsOk(t.(scrtOwedOpen := SatSub(t.scrtOwedOpen, owed), scrtOwedUnbonding := t.scrtOwedUnbonding + owed,
                         totalBonded := SatSub(t.totalBonded, owed)),
                      Rolled(ws, closed, OpenWindow(|ws|, now, p)), |ws|)
  {
    assert WindowOk(ws, openId, p, u);
    RolledSum(ws, closed, OpenWindow(|ws|, now, p), UnbondingOwed);
    RolledSum(ws, closed, OpenWindow(|ws|, now, p), MaturedOutstanding);
  }

  lemma {:induction false} RolledLedger(claims: map<ClaimKey, ClaimRecord>, ws: seq<UnbondWindow>, openId: nat,
        closed: UnbondWindow, now: nat, p: nat, u: nat)
    requires WindowsOk(ws, openId, p, u) && ClosesTo(ws[openId], closed, now, u) && LedgerOk(claims, ws)
    ensures LedgerOk(claims, Rolled(ws, closed, OpenWindow(|ws|, now, p)))
  {
    var r := Rolled(ws, closed, OpenWindow(|ws|, now, p));
    assert WindowOk(ws, openId, p, u);
    forall k | k in claims ensures ClaimOk(k, claims[k], r) {
      assert ClaimOk(k, claims[k], ws);
    }
    forall id | 0 <= id < |r| ensures LedgerAt(claims, r[id], id) {
      if id < |ws| {
        assert LedgerAt(claims, ws[id], id);
        assert r[id].Payable() == ws[id].Payable();
      } else {
        NoClaimsYet(claims, ws, id, 0, 0);
      }
    }
  }

  /** Nobody holds a claim on a window that does not exist. */
  lemma {:induction false} NoClaimsYet(claims: map<ClaimKey, ClaimRecord>, ws: seq<UnbondWindow>, id: nat,
        realised: nat, promised: nat)
    requires id >= |ws| && forall k :: k in claims ==> ClaimOk(k, claims[k], ws)
    ensures SumMap(claims, OwedIn(id)) == SumMap(claims, SharesIn(id)) == 0
    ensures SumMap(claims, PaidIn(id, realised, promised)) == 0
  {
    forall k | k in claims ensures k.window != id {
      assert ClaimOk(k, claims[k], ws);
    }
    SumMapZero(claims, OwedIn(id));
    SumMapZero(claims, SharesIn(id));
    SumMapZero(claims, PaidIn(id, realised, promised));
  }

  /** Each validator's counter follows the windows that use it. */
  lemma {:induction false} RolledSlot(vs: seq<ValidatorEntry>, legs: seq<UnbondLeg>, ceiling: nat,
        ws: seq<UnbondWindow>, closed: UnbondWindow, next: UnbondWindow, i: nat)
    requires SlotsOk(vs, ws, ceiling) && LegsFit(vs, legs) && Distinct(Addresses(vs)) && i < |vs|
    requires ws != [] && ws[|ws| - 1].state == Open && next.state == Open
    requires closed.state == Unbonding || legs == []
    requires closed.validatorsUsed == LegAddresses(vs, legs)
    requires forall k :: 0 <= k < |legs| ==> vs[legs[k].index].activeUnbondEntries < ceiling
    ensures SlotOk(Drawn(vs, legs)[i], Rolled(ws, closed, next), ceiling)
  {
    assert SlotOk(vs[i], ws, ceiling);
    LegAddressesAre(vs, legs);
    DrawnIs(vs, legs);
    RolledSum(ws, closed, next, Uses(vs[i].address));
    if Touches(legs, i) {
      var k :| 0 <= k < |legs| && legs[k].index == i;
    }
  }

  lemma {:induction false} RolledUsed(vs: seq<ValidatorEntry>, legs: seq<UnbondLeg>, ws: seq<UnbondWindow>,
        closed: UnbondWindow, next: UnbondWindow)
    requires LegsFit(vs, legs) && Distinct(Addresses(vs)) && ws != []
    requires forall j :: 0 <= j < |ws| ==> UsedOk(ws[j], vs)
    requires closed.validatorsUsed == LegAddresses(vs, legs) && next.validatorsUsed == []
    ensures forall j :: 0 <= j < |Rolled(ws, closed, next)| ==> UsedOk(Rolled(ws, closed, next)[j], Drawn(vs, legs))
  {
    LegAddressesAre(vs, legs);
    DrawnKeepsAddresses(vs, legs);
    var r := Rolled(ws, closed, next);
    forall j | 0 <= j < |r| ensures UsedOk(r[j], Drawn(vs, legs)) {
      if j < |ws| - 1 {
        assert UsedOk(ws[j], vs);
      }
    }
  }

  lemma {:induction false} RolledSlots(vs: seq<ValidatorEntry>, legs: seq<UnbondLeg>, ceiling: nat,
        ws: seq<UnbondWindow>, openId: nat, now: nat, p: nat, u: nat)
    requires WindowsOk(ws, openId, p, u) && SlotsOk(vs, ws, ceiling) && Distinct(Addresses(vs)) && ceiling < 255
    requires IsPlan(vs, ws[openId].scrtOwed, ceiling, legs)
    ensures var closed := Close(ws[openId].(validatorsUsed := LegAddresses(vs, legs)), now, u);
            SlotsOk(Drawn(vs, legs), Rolled(ws, closed, OpenWindow(|ws|, now, p)), ceiling)
  {
    hide Drawn, Rolled, LegAddresses;
    var closed := Close(ws[openId].(validatorsUsed := LegAddresses(vs, legs)), now, u);
    var next := OpenWindow(|ws|, now, p);
    assert WindowOk(ws, openId, p, u);
    PlanFits(vs, ws[openId].scrtOwed, ceiling, legs);
    if legs != [] {
      PlanIsPositive(vs, ws[openId].scrtOwed, ceiling, legs);
    }
    RolledUsed(vs, legs, ws, closed, next);
    forall i | 0 <= i < |vs| ensures SlotOk(Drawn(vs, legs)[i], Rolled(ws, closed, next), ceiling) {
      RolledSlot(vs, legs, ceiling, ws, closed, next, i);
    }
  }

  lemma {:induction false} PlanIsPositive(vs: seq<ValidatorEntry>, amount: nat, ceiling: nat, legs: seq<UnbondLeg>)
    requires IsPlan(vs, amount, ceiling, legs) && legs != []
    ensures amount > 0
  {
    SumMember(legs, 0, Amount);
  }

  /** The legs a close follows and the window it leaves behind. */
  lemma {:induction false} ClosedForm(c: Core, now: nat) returns (legs: seq<UnbondLeg>, closed: UnbondWindow)
    requires WindowsOk(c.windows, c.openId, c.config.params.unbondWindowSecs, c.config.params.unbondingPeriodSecs)
    requires ClosedOpen(c, now).Ok?
    ensures var w, d := c.windows[c.openId], ClosedOpen(c, now).value;
            && IsPlan(c.vals, w.scrtOwed, c.config.params.maxUnbondEntries, legs)
            && Plan(c.vals, w.scrtOwed, c.config.params.maxUnbondEntries) == Ok(legs)
            && closed == Close(w.(validatorsUsed := LegAddresses(c.vals, legs)), now, c.config.params.unbondingPeriodSecs)
            && ClosesTo(w, closed, now, c.config.params.unbondingPeriodSecs)
            && d.core.windows == Rolled(c.windows, closed, OpenWindow(|c.windows|, now, c.config.params.unbondWindowSecs))
            && d.core.vals == Drawn(c.vals, legs)
            && d.msgs == LegMsgs(c.vals, legs, c.openId)
  {
    var w := c.windows[c.openId];
    PlanSucceeds(c.vals, w.scrtOwed, c.config.params.maxUnbondEntries);
    legs := Plan(c.vals, w.scrtOwed, c.config.params.maxUnbondEntries).value;
    assert WindowOk(c.windows, c.openId, c.config.params.unbondWindowSecs, c.config.params.unbondingPeriodSecs);
    assert w.validatorsUsed + LegAddresses(c.vals, legs) == LegAddresses(c.vals, legs);
    closed := Close(w.(validatorsUsed := LegAddresses(c.vals, legs)), now, c.config.params.unbondingPeriodSecs);
  }

  lemma {:induction false} CloseKeepsValidators(c: Core, now: nat)
    requires CoreOk(c) && c.windows[c.openId].closesAt <= now && ClosedOpen(c, now).Ok?
    ensures var d := ClosedOpen(c, now).value.core;
            && SetOk(d.vals, c.allowlist, c.config.limits.maxValidatorWeightBps)
            && StakeOk(d.totals, d.vals)
            && SlotsOk(d.vals, d.windows, c.config.params.maxUnbondEntries)
            && Addresses(d.vals) == Addresses(c.vals)
            && c.windows[c.openId].scrtOwed <= c.totals.totalBonded
  {
    var ceiling := c.config.params.maxUnbondEntries;
    var legs, closed := ClosedForm(c, now);
    PlanFits(c.vals, c.windows[c.openId].scrtOwed, ceiling, legs);
    DrawnStake(c.vals, legs);
    DrawnRewards(c.vals, legs);
    DrawnKeepsSet(c.vals, legs, c.allowlist, c.config.limits.maxValidatorWeightBps);
    RolledSlots(c.vals, legs, ceiling, c.windows, c.openId, now,
                c.config.params.unbondWindowSecs, c.config.params.unbondingPeriodSecs);
  }

  lemma {:induction false} CloseKeepsWindows(c: Core, now: nat)
    requires CoreOk(c) && c.windows[c.openId].closesAt <= now && ClosedOpen(c, now).Ok?
    ensures var d := ClosedOpen(c, now).value.core;
            && WindowsOk(d.windows, d.openId, c.config.params.unbondWindowSecs, c.config.params.unbondingPeriodSecs)
            && ActiveOk(d.active, d.windows)
            && BucketsOk(d.totals, d.windows, d.openId)
            && LedgerOk(c.claims, d.windows)
            && c.windows[c.openId].scrtOwed <= c.totals.scrtOwedOpen
  {
    var p, u := c.config.params.unbondWindowSecs, c.config.params.unbondingPeriodSecs;
    var legs, closed := ClosedForm(c, now);
    RolledWindows(c.windows, c.openId, closed, now, p, u);
    RolledActive(c.windows, c.openId, closed, now, p, u, c.active);
    RolledBuckets(c.totals, c.windows, c.openId, closed, now, p, u);
    RolledLedger(c.claims, c.windows, c.openId, closed, now, p, u);
  }

  /** Closing keeps every storage invariant; none of its saturating subtractions saturates. */
  lemma {:induction false} CloseKeepsCore(c: Core, now: nat)
    requires CoreOk(c) && c.windows[c.openId].closesAt <= now && ClosedOpen(c, now).Ok?
    ensures CoreOk(ClosedOpen(c, now).value.core)
    ensures c.windows[c.openId].scrtOwed <= c.totals.totalBonded && c.windows[c.openId].scrtOwed <= c.totals.scrtOwedOpen
  {
    CloseKeepsValidators(c, now);
    CloseKeepsWindows(c, now);
    assert |ClosedOpen(c, now).value.core.vals| == |c.vals|;
  }
}
