/** Where stake goes and where it is taken from, read off the weights: deposits go to the validator
    furthest below its share of the pool, undelegations come first from the one furthest above. */
module Weighting {
  import opened Prelude
  import opened Sums
  import opened Types
  import opened Validators
  import opened Plans
  import opened Roster

  // ---- choosing where a delegation goes ----

  lemma {:induction false} TargetIs(v: ValidatorEntry, pool: nat)
    ensures Target(v, pool) == pool * v.weightBps / 10_000
  {
  }

  /** Validator `i` is the Active one whose stake falls short of its share of the pool with `incoming` by
      most; the first such. */
  ghost predicate GoesTo(vs: seq<ValidatorEntry>, stake: ValidatorEntry -> nat, incoming: nat, i: nat) {
    var pool := SumSeq(vs, stake) + incoming;
    && i < |vs| && vs[i].status == Active
    && forall j :: 0 <= j < |vs| && vs[j].status == Active ==>
         var most := SatSub(pool * vs[i].weightBps / 10_000, stake(vs[i]));
         var short := SatSub(pool * vs[j].weightBps / 10_000, stake(vs[j]));
         short <= most && (j < i ==> short < most)
  }

  /** A delegation goes to the validator furthest below its share, and fails only for want of an Active
      one or past 128 bits. */
  lemma {:induction false} DelegationGoesToShortest(vs: seq<ValidatorEntry>, incoming: nat)
    ensures match Selected(vs, incoming)
            case Ok(i) => SumSeq(vs, Bonded) + incoming <= U128_MAX && GoesTo(vs, Bonded, incoming, i)
            case Err(e) =>
              if SumSeq(vs, Bonded) + incoming > U128_MAX then e == Overflow
              else e == EmptyValidatorSet && forall j :: 0 <= j < |vs| ==> vs[j].status != Active
  {
    var pool := TotalBonded(vs) + incoming;
    if pool <= U128_MAX && BestOf(vs, pool, |vs|).Some? {
      var i := BestOf(vs, pool, |vs|).value;
      forall j | 0 <= j < |vs| && vs[j].status == Active
        ensures var most := SatSub(pool * vs[i].weightBps / 10_000, vs[i].bonded);
                var short := SatSub(pool * vs[j].weightBps / 10_000, vs[j].bonded);
                short <= most && (j < i ==> short < most)
      {
        TargetIs(vs[i], pool);
        TargetIs(vs[j], pool);
        assert Deficit(vs[j], pool) <= Deficit(vs[i], pool);
      }
    }
  }

  /** The same read off another set with the same roles. */
  lemma {:induction false} SameGoesTo(vs: seq<ValidatorEntry>, f: ValidatorEntry -> nat, us: seq<ValidatorEntry>,
        g: ValidatorEntry -> nat, incoming: nat, i: nat)
    requires |us| == |vs| && GoesTo(vs, f, incoming, i)
    requires forall j :: 0 <= j < |vs| ==>
               f(vs[j]) == g(us[j]) && us[j].status == vs[j].status && us[j].weightBps == vs[j].weightBps
    ensures GoesTo(us, g, incoming, i)
  {
    SumSame(vs, f, us, g);
    var pool := SumSeq(us, g) + incoming;
    forall j | 0 <= j < |us| && us[j].status == Active
      ensures var most := SatSub(pool * us[i].weightBps / 10_000, g(us[i]));
              var short := SatSub(pool * us[j].weightBps / 10_000, g(us[j]));
              short <= most && (j < i ==> short < most)
    {
      assert f(vs[j]) == g(us[j]) && f(vs[i]) == g(us[i]);
    }
  }

  // ---- planning an undelegation ----

  /** By how much a validator exceeds its share of the pool, floored at zero. */
  function Excess(v: ValidatorEntry, pool: nat): nat { SatSub(v.bonded, pool * v.weightBps / 10_000) }

  /** Validator `j` is drawn on before validator `i`: no longer Active when `i` is; else further above its
      share; else larger; else earlier in the set. */
  ghost predicate Sooner(vs: seq<ValidatorEntry>, j: nat, i: nat)
    requires i < |vs| && j < |vs|
  {
    var a, b, pool := vs[j], vs[i], TotalBonded(vs);
    || (a.status != Active && b.status == Active)
    || ((a.status == Active <==> b.status == Active)
        && (|| Excess(a, pool) > Excess(b, pool)
            || (Excess(a, pool) == Excess(b, pool) && a.bonded > b.bonded)
            || (Excess(a, pool) == Excess(b, pool) && a.bonded == b.bonded && j < i)))
  }

  lemma {:induction false} SoonerIsBefore(vs: seq<ValidatorEntry>, j: nat, i: nat)
    requires i < |vs| && j < |vs|
    ensures Sooner(vs, j, i) <==> Before(CandidateAt(vs, j), CandidateAt(vs, i))
  {
    hide TotalBonded, MulDiv;
    TargetIs(vs[i], TotalBonded(vs));
    TargetIs(vs[j], TotalBonded(vs));
  }

  /** A plan draws on a validator only after every other one with stake and a free entry slot that comes
      sooner has been emptied. */
  lemma {:induction false} SoonerIsEmptied(vs: seq<ValidatorEntry>, amount: nat, ceiling: nat,
        legs: seq<UnbondLeg>, k: nat, j: nat)
    requires Plan(vs, amount, ceiling) == Ok(legs) && k < |legs| && j < |vs|
    requires vs[j].bonded > 0 && vs[j].activeUnbondEntries < ceiling
    requires legs[k].index < |vs| && Sooner(vs, j, legs[k].index)
    ensures exists n :: 0 <= n < k && legs[n] == UnbondLeg(j, vs[j].bonded)
  {
    hide TotalBonded, MulDiv, Sooner;
    var i := legs[k].index;
    PlanSucceeds(vs, amount, ceiling);
    SoonerIsBefore(vs, j, i);
    var a, b := CandidateAt(vs, i), CandidateAt(vs, j);
    BeforeIsStrict(b, a, b);
    assert Touches(legs, j);
    var n :| 0 <= n < |legs| && legs[n].index == j;
    if n >= k {
      BeforeIsStrict(a, b, a);
    }
    assert legs[n] == UnbondLeg(j, vs[j].bonded);
  }

  /** The legs of a plan are on validators with stake and a free slot, within that stake, all but the last
      emptying theirs, and add up to the amount. */
  lemma {:induction false} LegsAddUp(vs: seq<ValidatorEntry>, amount: nat, ceiling: nat, legs: seq<UnbondLeg>)
    requires Plan(vs, amount, ceiling) == Ok(legs)
    ensures SumSeq(legs, Amount) == amount
    ensures forall k :: 0 <= k < |legs| ==>
              && legs[k].index < |vs| && vs[legs[k].index].activeUnbondEntries < ceiling
              && 0 < legs[k].amount <= vs[legs[k].index].bonded
              && (k < |legs| - 1 ==> legs[k].amount == vs[legs[k].index].bonded)
  {
    PlanSucceeds(vs, amount, ceiling);
  }

  // ---- a new assignment of weights ----

  /** Everything listed ends up in the set. */
  lemma {:induction false} AllListedJoin(vs: seq<ValidatorEntry>, ws: seq<ValidatorInit>)
    requires Distinct(Addresses(vs))
    ensures forall j :: 0 <= j < |ws| ==> ws[j].address in Addresses(AppendNew(vs, ws))
    decreases |ws|
  {
    if ws != [] {
      var us := Joined(vs, ws[0]);
      var r := AppendNew(us, ws[1..]);
      JoinedDistinct(vs, ws[0]);
      AllListedJoin(us, ws[1..]);
      AppendNewIs(us, ws[1..]);
      FirstListedJoins(vs, us, ws[0], r);
      forall j | 0 <= j < |ws| ensures ws[j].address in Addresses(r) {
        if j > 0 {
          assert ws[j] == ws[1..][j - 1];
        }
      }
    }
  }

  lemma {:induction false} FirstListedJoins(vs: seq<ValidatorEntry>, us: seq<ValidatorEntry>, w: ValidatorInit,
        r: seq<ValidatorEntry>)
    requires us == Joined(vs, w) && |us| <= |r| && r[..|us|] == us
    ensures w.address in Addresses(r)
  {
    var i := if w.address in Addresses(vs) then IndexOf(Addresses(vs), w.address) else |vs|;
    assert us[i].address == w.address && r[i] == r[..|us|][i];
    assert Addresses(r)[i] == w.address;
  }

  /** Newcomer `i` is the listed validator `j`. */
  predicate Joins(r: seq<ValidatorEntry>, ws: seq<ValidatorInit>, i: nat, j: nat) {
    i < |r| && j < |ws| && r[i] == ValidatorEntry(ws[j].address, ws[j].weightBps, Active, 0, 0, 0)
  }

  ghost predicate JoinAt(r: seq<ValidatorEntry>, ws: seq<ValidatorInit>, base: nat, at: seq<nat>) {
    && base + |at| == |r|
    && (forall k :: 0 <= k < |at| ==> Joins(r, ws, base + k, at[k]))
    && (forall k, l :: 0 <= k < l < |at| ==> at[k] < at[l])
  }

  lemma {:induction false} JoinLater(r: seq<ValidatorEntry>, ws: seq<ValidatorInit>, base: nat, later: seq<nat>)
        returns (at: seq<nat>)
    requires ws != [] && JoinAt(r, ws[1..], base, later)
    ensures JoinAt(r, ws, base, at) && forall k :: 0 <= k < |at| ==> at[k] > 0
  {
    at := seq(|later|, k requires 0 <= k < |later| => later[k] + 1);
    forall k | 0 <= k < |at| ensures Joins(r, ws, base + k, at[k]) {
      assert Joins(r, ws[1..], base + k, later[k]);
    }
  }

  lemma {:induction false} JoinFirst(r: seq<ValidatorEntry>, ws: seq<ValidatorInit>, base: nat, later: seq<nat>)
    requires Joins(r, ws, base, 0) && JoinAt(r, ws, base + 1, later) && forall k :: 0 <= k < |later| ==> later[k] > 0
    ensures JoinAt(r, ws, base, [0] + later)
  {
    hide Joins;
    var at := [0] + later;
    forall k | 0 <= k < |at| ensures Joins(r, ws, base + k, at[k]) {
      if k > 0 {
        assert Joins(r, ws, base + 1 + (k - 1), later[k - 1]);
      }
    }
  }

  /** Newcomers join in the order in which they are listed. */
  lemma {:induction false} JoinInOrder(vs: seq<ValidatorEntry>, ws: seq<ValidatorInit>) returns (at: seq<nat>)
    requires Distinct(Addresses(vs))
    ensures JoinAt(AppendNew(vs, ws), ws, |vs|, at)
    decreases |ws|
  {
    hide JoinAt;
    if ws == [] {
      at := [];
      NobodyJoins(vs);
    } else {
      var us := Joined(vs, ws[0]);
      var r := AppendNew(us, ws[1..]);
      JoinedDistinct(vs, ws[0]);
      at := JoinInOrder(us, ws[1..]);
      at := JoinLater(r, ws, |us|, at);
      if us != vs {
        AppendNewIs(us, ws[1..]);
        assert r[|vs|] == r[..|us|][|vs|] == us[|vs|];
        JoinFirst(r, ws, |vs|, at);
        at := [0] + at;
      }
    }
  }

  lemma {:induction false} NobodyJoins(vs: seq<ValidatorEntry>)
    ensures JoinAt(vs, [], |vs|, [])
  {
  }

  /** An entry of the set after an assignment `ws`: at the weight listed for it and Active; or, unlisted,
      without weight, draining while it holds stake and removed once it holds none. */
  ghost predicate Assigned(v: ValidatorEntry, u: ValidatorEntry, ws: seq<ValidatorInit>) {
    && u == v.(weightBps := u.weightBps, status := u.status)
    && (forall j :: 0 <= j < |ws| && ws[j].address == v.address ==> u.weightBps == ws[j].weightBps && u.status == Active)
    && ((forall j :: 0 <= j < |ws| ==> ws[j].address != v.address) ==>
          u.weightBps == 0 && u.status == if v.bonded > 0 then Draining else Removed)
  }

  lemma {:induction false} ReweighAssigns(v: ValidatorEntry, ws: seq<ValidatorInit>)
    requires Distinct(InitAddresses(ws))
    ensures Assigned(v, Reweighed(v, ws), ws)
  {
    var i := IndexOf(InitAddresses(ws), v.address);
    assert forall j :: 0 <= j < |ws| ==> InitAddresses(ws)[j] == ws[j].address;
    if i < |ws| {
      assert ws[i].address == v.address;
    }
  }

  /** An accepted assignment gives each listed validator of the set its weight and makes it Active; takes
      the weight of every other; and adds exactly the listed validators the set did not have, at their
      weights and in their order. */
  lemma {:induction false} WeightsAreAssigned(vs: seq<ValidatorEntry>, ws: seq<ValidatorInit>, allowlist: seq<Addr>,
        maxBps: nat) returns (at: seq<nat>)
    requires Distinct(Addresses(vs)) && ManagedWeights(ws, allowlist, maxBps)
    ensures var us := WeightsApplied(vs, ws);
            && |vs| <= |us| && (forall i :: 0 <= i < |vs| ==> Assigned(vs[i], us[i], ws))
            && JoinAt(us, ws, |vs|, at)
            && (forall j :: 0 <= j < |ws| ==> ws[j].address in Addresses(us))
            && Distinct(Addresses(us))
  {
    hide AppendNew, Assigned, Reweighed, JoinAt;
    var rs := Reweigh(vs, ws);
    assert Addresses(rs) == Addresses(vs) by { ReweighAddresses(vs, ws); }
    at := JoinInOrder(rs, ws);
    AllListedJoin(rs, ws);
    AppendNewIs(rs, ws);
    var us := WeightsApplied(vs, ws);
    forall i | 0 <= i < |vs| ensures Assigned(vs[i], us[i], ws) {
      assert us[i] == us[..|rs|][i] == rs[i];
      ReweighAssigns(vs[i], ws);
    }
  }

  lemma {:induction false} ReweighAddresses(vs: seq<ValidatorEntry>, ws: seq<ValidatorInit>)
    ensures Addresses(Reweigh(vs, ws)) == Addresses(vs)
  {
  }
}
