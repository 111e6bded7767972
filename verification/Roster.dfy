/** How the validator vector changes: stake moving between entries, and new weight assignments. */
module Roster {
  import opened Prelude
  import opened Sums
  import opened Types
  import opened Validators
  import opened Engine
  import opened Invariants

  /** Only stake and rewards may differ. */
  ghost predicate SameRoster(vs: seq<ValidatorEntry>, us: seq<ValidatorEntry>) {
    && |vs| == |us|
    && forall i :: 0 <= i < |vs| ==> us[i] == vs[i].(bonded := us[i].bonded, pendingRewards := us[i].pendingRewards)
  }

  lemma {:induction false} RosterKeepsSet(vs: seq<ValidatorEntry>, us: seq<ValidatorEntry>, allowlist: seq<Addr>,
        maxBps: nat)
    requires SameRoster(vs, us) && SetOk(vs, allowlist, maxBps)
    ensures SetOk(us, allowlist, maxBps)
  {
    assert Addresses(us) == Addresses(vs);
    SumSame(vs, ActiveWeight, us, ActiveWeight);
    forall i | 0 <= i < |us| ensures EntryOk(us[i], allowlist, maxBps) {
      assert EntryOk(vs[i], allowlist, maxBps);
    }
  }

  lemma {:induction false} RosterKeepsSlots(vs: seq<ValidatorEntry>, us: seq<ValidatorEntry>, ws: seq<UnbondWindow>,
        ceiling: nat)
    requires SameRoster(vs, us) && SlotsOk(vs, ws, ceiling)
    ensures SlotsOk(us, ws, ceiling)
  {
    assert Addresses(us) == Addresses(vs);
    forall i | 0 <= i < |us| ensures SlotOk(us[i], ws, ceiling) {
      assert SlotOk(vs[i], ws, ceiling);
    }
    forall i | 0 <= i < |ws| ensures UsedOk(ws[i], us) {
      assert UsedOk(ws[i], vs);
    }
  }

  lemma {:induction false} BondAt(vs: seq<ValidatorEntry>, i: nat, bonded: nat)
    requires i < |vs|
    ensures var us := vs[i := vs[i].(bonded := bonded)];
            && SameRoster(vs, us)
            && TotalBonded(us) + vs[i].bonded == TotalBonded(vs) + bonded
            && TotalRewards(us) == TotalRewards(vs)
  {
    SumUpdate(vs, i, vs[i].(bonded := bonded), Bonded);
    SumUpdate(vs, i, vs[i].(bonded := bonded), Rewards);
  }

  /** A redelegation step conserves total stake. */
  lemma {:induction false} MoveConserves(vs: seq<ValidatorEntry>, i: nat, j: nat, amount: nat)
    requires i < |vs| && j < |vs| && amount <= vs[i].bonded
    ensures SameRoster(vs, Moved(vs, i, j, amount))
    ensures TotalBonded(Moved(vs, i, j, amount)) == TotalBonded(vs)
    ensures TotalRewards(Moved(vs, i, j, amount)) == TotalRewards(vs)
  {
    var out := vs[i := vs[i].(bonded := vs[i].bonded - amount)];
    BondAt(vs, i, vs[i].bonded - amount);
    BondAt(out, j, out[j].bonded + amount);
  }

  /** A whole rebalancing plan conserves total stake and touches nothing but stake. */
  lemma {:induction false} RebalanceConserves(vs: seq<ValidatorEntry>, plan: seq<RedelegateStep>, allowlist: seq<Addr>)
    requires RebalanceFrom(vs, plan, allowlist).Ok?
    ensures var us := RebalanceFrom(vs, plan, allowlist).value.0;
            SameRoster(vs, us) && TotalBonded(us) == TotalBonded(vs) && TotalRewards(us) == TotalRewards(vs)
    decreases |plan|
  {
    if plan != [] {
      var s := plan[0];
      var i, j := Find(vs, s.src), Find(vs, s.dst);
      MoveConserves(vs, i, j, s.amount);
      RebalanceConserves(Moved(vs, i, j, s.amount), plan[1..], allowlist);
    }
  }

  // ---- a distinct list drawn from another is no longer than it ----

  function Elements(s: seq<Addr>): set<Addr> { set x | x in s }

  lemma {:induction false} ElementsBound(s: seq<Addr>)
    ensures |Elements(s)| <= |s|
    ensures Distinct(s) ==> |Elements(s)| == |s|
  {
    if s != [] {
      var last := |s| - 1;
      ElementsBound(s[..last]);
      assert Elements(s) == Elements(s[..last]) + {s[last]};
      if Distinct(s) {
        assert s[last] !in s[..last];
        assert s[last] !in Elements(s[..last]);
      }
    }
  }

  lemma {:induction false} DrawnFrom(s: seq<Addr>, t: seq<Addr>)
    requires Distinct(s) && forall x :: x in s ==> x in t
    ensures |s| <= |t|
  {
    ElementsBound(s);
    ElementsBound(t);
    assert Elements(s) <= Elements(t);
    SubsetSize(Elements(s), Elements(t));
  }

  lemma {:induction false} SubsetSize(a: set<Addr>, b: set<Addr>)
    requires a <= b
    ensures |a| <= |b|
  {
    if a != {} {
      var x :| x in a;
      SubsetSize(a - {x}, b - {x});
    }
  }

  /** However often weights are reassigned, the set never outgrows the allowlist. */
  lemma {:induction false} SetIsBounded(vs: seq<ValidatorEntry>, allowlist: seq<Addr>, maxBps: nat)
    requires SetOk(vs, allowlist, maxBps)
    ensures 0 < |vs| <= |allowlist|
  {
    forall x | x in Addresses(vs) ensures x in allowlist {
      var i :| 0 <= i < |vs| && Addresses(vs)[i] == x;
      assert EntryOk(vs[i], allowlist, maxBps);
    }
    DrawnFrom(Addresses(vs), allowlist);
  }

  // ---- new weights ----

  function OldWeight(known: seq<Addr>): ValidatorInit -> nat {
    (w: ValidatorInit) => if w.address in known then w.weightBps else 0
  }

  function NewWeight(known: seq<Addr>): ValidatorInit -> nat {
    (w: ValidatorInit) => if w.address in known then 0 else w.weightBps
  }

  function WeightOf(a: Addr): ValidatorInit -> nat {
    (w: ValidatorInit) => if w.address == a then w.weightBps else 0
  }

  lemma {:induction false} OneWeight(ws: seq<ValidatorInit>, a: Addr)
    requires Distinct(InitAddresses(ws))
    ensures var i := IndexOf(InitAddresses(ws), a);
            SumSeq(ws, WeightOf(a)) == if i < |ws| then ws[i].weightBps else 0
  {
    var i := IndexOf(InitAddresses(ws), a);
    if i == |ws| {
      forall k | 0 <= k < |ws| ensures WeightOf(a)(ws[k]) == 0 {
        assert InitAddresses(ws)[k] != a;
      }
      SumZero(ws, WeightOf(a));
    } else {
      var zeroed := ws[i := ws[i].(weightBps := 0)];
      SumUpdate(ws, i, ws[i].(weightBps := 0), WeightOf(a));
      forall k | 0 <= k < |ws| ensures WeightOf(a)(zeroed[k]) == 0 {
        assert InitAddresses(ws)[i] == a;
        assert InitAddresses(ws)[k] == ws[k].address;
      }
      SumZero(zeroed, WeightOf(a));
    }
  }

  /** One more validator takes up the weight assigned to its address, if any. */
  lemma {:induction false} ReweighedOne(v: ValidatorEntry, ws: seq<ValidatorInit>, known: seq<Addr>)
    requires v.address !in known && Distinct(InitAddresses(ws))
    ensures SumSeq(ws, OldWeight(known + [v.address])) == SumSeq(ws, OldWeight(known)) + ActiveWeight(Reweighed(v, ws))
  {
    SumSplit(ws, OldWeight(known + [v.address]), OldWeight(known), WeightOf(v.address));
    OneWeight(ws, v.address);
  }

  lemma {:induction false} ReweighedSum(vs: seq<ValidatorEntry>, ws: seq<ValidatorInit>)
    requires Distinct(Addresses(vs)) && Distinct(InitAddresses(ws))
    ensures SumSeq(Reweigh(vs, ws), ActiveWeight) == SumSeq(ws, OldWeight(Addresses(vs)))
  {
    hide Reweighed;
    if vs == [] {
      SumZero(ws, OldWeight(Addresses(vs)));
    } else {
      var last := |vs| - 1;
      var init, v := vs[..last], vs[last];
      assert Addresses(init) == Addresses(vs)[..last];
      assert Addresses(vs) == Addresses(init) + [v.address];
      ReweighedSum(init, ws);
      assert Reweigh(vs, ws) == Reweigh(init, ws) + [Reweighed(v, ws)];
      SumSnoc(Reweigh(init, ws), Reweighed(v, ws), ActiveWeight);
      assert v.address !in Addresses(init);
      ReweighedOne(v, ws, Addresses(init));
    }
  }

  /** The set after one weight has been considered for appending. */
  function Joined(vs: seq<ValidatorEntry>, w: ValidatorInit): seq<ValidatorEntry> {
    if w.address in Addresses(vs) then vs else vs + [FreshEntry(w)]
  }

  lemma {:induction false} JoinedDistinct(vs: seq<ValidatorEntry>, w: ValidatorInit)
    requires Distinct(Addresses(vs))
    ensures Distinct(Addresses(Joined(vs, w)))
  {
    if w.address !in Addresses(vs) {
      assert Addresses(Joined(vs, w)) == Addresses(vs) + [w.address];
    }
  }

  /** Appending keeps the old entries, adds only fresh ones, and never repeats an address. */
  lemma {:induction false} AppendNewIs(vs: seq<ValidatorEntry>, ws: seq<ValidatorInit>)
    requires Distinct(Addresses(vs))
    ensures var r := AppendNew(vs, ws);
            && |vs| <= |r| && r[..|vs|] == vs
            && Distinct(Addresses(r))
            && (forall i :: |vs| <= i < |r| ==> exists j :: 0 <= j < |ws| && r[i] == FreshEntry(ws[j]))
    decreases |ws|
  {
    if ws != [] {
      var us := Joined(vs, ws[0]);
      JoinedDistinct(vs, ws[0]);
      AppendNewIs(us, ws[1..]);
      var r := AppendNew(us, ws[1..]);
      assert r[..|vs|] == r[..|us|][..|vs|];
      forall i | |vs| <= i < |r| ensures exists j :: 0 <= j < |ws| && r[i] == FreshEntry(ws[j]) {
        if i < |us| {
          assert r[i] == r[..|us|][i] == FreshEntry(ws[0]);
        } else {
          var j :| 0 <= j < |ws[1..]| && r[i] == FreshEntry(ws[1..][j]);
          assert ws[1..][j] == ws[j + 1];
        }
      }
    }
  }

  lemma {:induction false} AppendNewSum(vs: seq<ValidatorEntry>, ws: seq<ValidatorInit>)
    requires Distinct(Addresses(vs)) && Distinct(InitAddresses(ws))
    ensures SumSeq(AppendNew(vs, ws), ActiveWeight) == SumSeq(vs, ActiveWeight) + SumSeq(ws, NewWeight(Addresses(vs)))
    decreases |ws|
  {
    if ws != [] {
      var w, rest := ws[0], ws[1..];
      var us := Joined(vs, w);
      assert InitAddresses(rest) == InitAddresses(ws)[1..];
      JoinedDistinct(vs, w);
      AppendNewSum(us, rest);
      SumCons(ws, NewWeight(Addresses(vs)));
      if us != vs {
        SumSnoc(vs, FreshEntry(w), ActiveWeight);
      }
      forall i | 0 <= i < |rest| ensures rest[i].address != w.address {
        assert InitAddresses(ws)[i + 1] != InitAddresses(ws)[0];
      }
      NewcomersIndependent(vs, w, rest);
    }
  }

  /** Appending one newcomer does not change which of the others are new. */
  lemma {:induction false} NewcomersIndependent(vs: seq<ValidatorEntry>, w: ValidatorInit, rest: seq<ValidatorInit>)
    requires forall i :: 0 <= i < |rest| ==> rest[i].address != w.address
    ensures SumSeq(rest, NewWeight(Addresses(Joined(vs, w)))) == SumSeq(rest, NewWeight(Addresses(vs)))
  {
    var us := Joined(vs, w);
    if us != vs {
      assert Addresses(us) == Addresses(vs) + [w.address];
      SumSame(rest, NewWeight(Addresses(us)), rest, NewWeight(Addresses(vs)));
    }
  }

  /** An accepted assignment leaves a sound set: weights total 100%, each capped, none off the
      allowlist, and nothing on a validator that is not Active. Stake and counters stay put. */
  lemma {:induction false} WeightsKeepSet(vs: seq<ValidatorEntry>, ws: seq<ValidatorInit>, allowlist: seq<Addr>,
        maxBps: nat)
    requires SetOk(vs, allowlist, maxBps) && ManagedWeights(ws, allowlist, maxBps)
    ensures var r := WeightsApplied(vs, ws);
            && SetOk(r, allowlist, maxBps)
            && |vs| <= |r|
            && (forall i :: 0 <= i < |vs| ==> r[i] == vs[i].(weightBps := r[i].weightBps, status := r[i].status))
            && (forall i :: |vs| <= i < |r| ==> r[i].bonded == 0 && r[i].pendingRewards == 0 && r[i].activeUnbondEntries == 0)
            && (forall i :: 0 <= i < |vs| ==> (r[i].status == Active <==> r[i].address in InitAddresses(ws)))
  {
    hide SetOk, AppendNew, Reweigh;
    ReweighIs(vs, ws, allowlist, maxBps);
    WeightsSum(vs, ws, allowlist, maxBps);
    AppendNewIs(Reweigh(vs, ws), ws);
    AppendedEntries(Reweigh(vs, ws), AppendNew(Reweigh(vs, ws), ws), ws, allowlist, maxBps);
    MakesSet(WeightsApplied(vs, ws), allowlist, maxBps);
    forall i | 0 <= i < |vs| ensures WeightsApplied(vs, ws)[i] == Reweigh(vs, ws)[i] {
      assert WeightsApplied(vs, ws)[..|vs|][i] == Reweigh(vs, ws)[i];
    }
  }

  lemma {:induction false} MakesSet(r: seq<ValidatorEntry>, allowlist: seq<Addr>, maxBps: nat)
    requires Distinct(Addresses(r)) && SumSeq(r, ActiveWeight) == BPS_DENOM
    requires forall i :: 0 <= i < |r| ==> EntryOk(r[i], allowlist, maxBps)
    ensures SetOk(r, allowlist, maxBps)
  {
  }

  /** Reweighing in place: same addresses, stake and counters; Active exactly where a weight is given. */
  lemma {:induction false} ReweighIs(vs: seq<ValidatorEntry>, ws: seq<ValidatorInit>, allowlist: seq<Addr>, maxBps: nat)
    requires SetOk(vs, allowlist, maxBps) && ManagedWeights(ws, allowlist, maxBps)
    ensures var us := Reweigh(vs, ws);
            && |us| == |vs| && Addresses(us) == Addresses(vs) && Distinct(Addresses(us))
            && (forall i :: 0 <= i < |vs| ==>
                  && EntryOk(us[i], allowlist, maxBps)
                  && us[i] == vs[i].(weightBps := us[i].weightBps, status := us[i].status)
                  && (us[i].status == Active <==> us[i].address in InitAddresses(ws)))
  {
    var us := Reweigh(vs, ws);
    assert Addresses(us) == Addresses(vs);
    forall i | 0 <= i < |us| ensures EntryOk(us[i], allowlist, maxBps) {
      assert EntryOk(vs[i], allowlist, maxBps);
    }
  }

  /** The weights of the new set are the weights assigned. */
  lemma {:induction false} WeightsSum(vs: seq<ValidatorEntry>, ws: seq<ValidatorInit>, allowlist: seq<Addr>,
        maxBps: nat)
    requires SetOk(vs, allowlist, maxBps) && ManagedWeights(ws, allowlist, maxBps)
    ensures SumSeq(WeightsApplied(vs, ws), ActiveWeight) == BPS_DENOM
  {
    hide AppendNew;
    var us := Reweigh(vs, ws);
    assert Addresses(us) == Addresses(vs);
    AppendNewSum(us, ws);
    ReweighedSum(vs, ws);
    SumSplit(ws, Weight, OldWeight(Addresses(vs)), NewWeight(Addresses(vs)));
  }

  /** Old entries stay, and appended ones are fresh. */
  lemma {:induction false} AppendedEntries(us: seq<ValidatorEntry>, r: seq<ValidatorEntry>, ws: seq<ValidatorInit>,
        allowlist: seq<Addr>, maxBps: nat)
    requires |us| <= |r| && r[..|us|] == us && ManagedWeights(ws, allowlist, maxBps)
    requires forall i :: 0 <= i < |us| ==> EntryOk(us[i], allowlist, maxBps)
    requires forall i :: |us| <= i < |r| ==> exists j :: 0 <= j < |ws| && r[i] == FreshEntry(ws[j])
    ensures forall i :: 0 <= i < |r| ==> EntryOk(r[i], allowlist, maxBps)
    ensures forall i :: |us| <= i < |r| ==> r[i].bonded == 0 && r[i].pendingRewards == 0 && r[i].activeUnbondEntries == 0
  {
    forall i | 0 <= i < |r| ensures EntryOk(r[i], allowlist, maxBps) {
      if i < |us| {
        assert r[i] == r[..|us|][i] == us[i];
      }
    }
  }

  lemma {:induction false} WeightsKeepStake(vs: seq<ValidatorEntry>, us: seq<ValidatorEntry>)
    requires |vs| <= |us|
    requires forall i :: 0 <= i < |vs| ==> us[i].bonded == vs[i].bonded && us[i].pendingRewards == vs[i].pendingRewards
    requires forall i :: |vs| <= i < |us| ==> us[i].bonded == 0 && us[i].pendingRewards == 0
    ensures TotalBonded(us) == TotalBonded(vs) && TotalRewards(us) == TotalRewards(vs)
  {
    var n := |vs|;
    assert us == us[..n] + us[n..];
    SumConcat(us[..n], us[n..], Bonded);
    SumConcat(us[..n], us[n..], Rewards);
    SumZero(us[n..], Bonded);
    SumZero(us[n..], Rewards);
    SumSame(us[..n], Bonded, vs, Bonded);
    SumSame(us[..n], Rewards, vs, Rewards);
  }

  lemma {:induction false} WeightsKeepSlots(vs: seq<ValidatorEntry>, us: seq<ValidatorEntry>, ws: seq<UnbondWindow>,
        ceiling: nat)
    requires SlotsOk(vs, ws, ceiling) && |vs| <= |us| && Distinct(Addresses(us))
    requires forall i :: 0 <= i < |vs| ==> us[i].address == vs[i].address && us[i].activeUnbondEntries == vs[i].activeUnbondEntries
    requires forall i :: |vs| <= i < |us| ==> us[i].activeUnbondEntries == 0
    ensures SlotsOk(us, ws, ceiling)
  {
    forall j, a | 0 <= j < |ws| && a in ws[j].validatorsUsed
      ensures a in Addresses(us) && forall i :: |vs| <= i < |us| ==> us[i].address != a
    {
      assert UsedOk(ws[j], vs);
      var i :| 0 <= i < |vs| && Addresses(vs)[i] == a;
      assert Addresses(us)[i] == a;
      forall k | |vs| <= k < |us| ensures us[k].address != a {
        assert Addresses(us)[k] != Addresses(us)[i];
      }
    }
    forall j | 0 <= j < |ws| ensures UsedOk(ws[j], us) {
      assert UsedOk(ws[j], vs);
    }
    forall i | 0 <= i < |us| ensures SlotOk(us[i], ws, ceiling) {
      if i < |vs| {
        assert SlotOk(vs[i], ws, ceiling);
      } else {
        SumZero(ws, Uses(us[i].address));
      }
    }
  }
}
