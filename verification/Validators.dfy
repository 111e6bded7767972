/** Validator set validation and stake placement (validators.rs). */
module Validators {
  import opened Prelude
  import opened Sums
  import opened Types

  function Bonded(v: ValidatorEntry): nat { v.bonded }

  function Rewards(v: ValidatorEntry): nat { v.pendingRewards }

  function Weight(w: ValidatorInit): nat { w.weightBps }

  function TotalBonded(set_: seq<ValidatorEntry>): nat { SumSeq(set_, Bonded) }

  function TotalRewards(set_: seq<ValidatorEntry>): nat { SumSeq(set_, Rewards) }

  function Addresses(vs: seq<ValidatorEntry>): (r: seq<Addr>)
    ensures |r| == |vs|
    ensures forall i :: 0 <= i < |vs| ==> r[i] == vs[i].address
  {
    seq(|vs|, i requires 0 <= i < |vs| => vs[i].address)
  }

  function InitAddresses(ws: seq<ValidatorInit>): (r: seq<Addr>)
    ensures |r| == |ws|
    ensures forall i :: 0 <= i < |ws| ==> r[i] == ws[i].address
  {
    seq(|ws|, i requires 0 <= i < |ws| => ws[i].address)
  }

  /** Position of an address in the set; the set's length when absent. */
  function Find(vs: seq<ValidatorEntry>, a: Addr): (i: nat)
    ensures i <= |vs|
    ensures i < |vs| ==> vs[i].address == a
    ensures i == |vs| <==> a !in Addresses(vs)
    ensures forall j :: 0 <= j < i ==> vs[j].address != a
  {
    IndexOf(Addresses(vs), a)
  }

  // ---- validation ----

  ghost function SetVerdict(ws: seq<ValidatorInit>): Outcome<()> {
    if ws == [] then Err(EmptyValidatorSet)
    else if !Distinct(InitAddresses(ws)) then Err(DuplicateValidator)
    else if SumSeq(ws, Weight) != BPS_DENOM then Err(BadWeightSum)
    else Ok(())
  }

  method ValidateSet(ws: seq<ValidatorInit>) returns (r: Outcome<()>)
    ensures r == SetVerdict(ws)
  {
    if ws == [] {
      return Err(EmptyValidatorSet);
    }
    var seen: set<Addr> := {};
    for i := 0 to |ws|
      invariant seen == set j | 0 <= j < i :: ws[j].address
      invariant Distinct(InitAddresses(ws[..i]))
    {
      if ws[i].address in seen {
        ghost var j :| 0 <= j < i && ws[j].address == ws[i].address;
        assert InitAddresses(ws)[j] == InitAddresses(ws)[i];
        return Err(DuplicateValidator);
      }
      seen := seen + {ws[i].address};
    }
    assert ws[..|ws|] == ws;
    r := if SumSeq(ws, Weight) != BPS_DENOM then Err(BadWeightSum) else Ok(());
  }

  /** The verdict on one weight: on the allowlist, and under the ceiling. */
  function WeightFault(w: ValidatorInit, allowlist: seq<Addr>, maxBps: nat): Outcome<()> {
    if w.address !in allowlist then Err(ValidatorNotAllowed)
    else if w.weightBps > maxBps then Err(WeightTooHigh)
    else Ok(())
  }

  /** The first fault among the weights decides. */
  ghost function ManagedVerdict(ws: seq<ValidatorInit>, allowlist: seq<Addr>, maxBps: nat): Outcome<()> {
    if SetVerdict(ws).Err? then SetVerdict(ws)
    else FirstFault(ws, allowlist, maxBps)
  }

  ghost function FirstFault(ws: seq<ValidatorInit>, allowlist: seq<Addr>, maxBps: nat): Outcome<()> {
    if ws == [] then Ok(())
    else if WeightFault(ws[0], allowlist, maxBps).Err? then WeightFault(ws[0], allowlist, maxBps)
    else FirstFault(ws[1..], allowlist, maxBps)
  }

  method ValidateManagedWeights(ws: seq<ValidatorInit>, allowlist: seq<Addr>, maxBps: nat)
    returns (r: Outcome<()>)
    ensures r == ManagedVerdict(ws, allowlist, maxBps)
  {
    r := ValidateSet(ws);
    if r.Err? {
      return;
    }
    for i := 0 to |ws|
      invariant FirstFault(ws, allowlist, maxBps) == FirstFault(ws[i..], allowlist, maxBps)
    {
      r := WeightFault(ws[i], allowlist, maxBps);
      if r.Err? {
        return;
      }
      assert ws[i..][1..] == ws[i + 1..];
    }
    r := Ok(());
  }

  /** The weights the manager may set: distinct allowed addresses, capped, summing to 100%. */
  ghost predicate ManagedWeights(ws: seq<ValidatorInit>, allowlist: seq<Addr>, maxBps: nat) {
    && ws != []
    && Distinct(InitAddresses(ws))
    && SumSeq(ws, Weight) == BPS_DENOM
    && forall i :: 0 <= i < |ws| ==> ws[i].address in allowlist && ws[i].weightBps <= maxBps
  }

  lemma {:induction false} FirstFaultMeaning(ws: seq<ValidatorInit>, allowlist: seq<Addr>, maxBps: nat)
    ensures FirstFault(ws, allowlist, maxBps).Ok? <==>
            forall i :: 0 <= i < |ws| ==> ws[i].address in allowlist && ws[i].weightBps <= maxBps
  {
    if ws != [] {
      FirstFaultMeaning(ws[1..], allowlist, maxBps);
      assert forall i :: 0 < i < |ws| ==> ws[i] == ws[1..][i - 1];
    }
  }

  /** The check accepts exactly the weight assignments the manager is entitled to. */
  lemma {:induction false} ManagedVerdictMeaning(ws: seq<ValidatorInit>, allowlist: seq<Addr>, maxBps: nat)
    ensures ManagedVerdict(ws, allowlist, maxBps).Ok? <==> ManagedWeights(ws, allowlist, maxBps)
  {
    FirstFaultMeaning(ws, allowlist, maxBps);
  }

  // ---- applying weights ----

  /** One entry after a new assignment: reweighted, or set to drain. */
  function Reweighed(v: ValidatorEntry, ws: seq<ValidatorInit>): ValidatorEntry {
    var i := IndexOf(InitAddresses(ws), v.address);
    if i < |ws| then v.(weightBps := ws[i].weightBps, status := Active)
    else v.(weightBps := 0, status := if v.bonded == 0 then Removed else Draining)
  }

  function FreshEntry(w: ValidatorInit): ValidatorEntry {
    ValidatorEntry(w.address, w.weightBps, Active, 0, 0, 0)
  }

  function Reweigh(vs: seq<ValidatorEntry>, ws: seq<ValidatorInit>): seq<ValidatorEntry> {
    seq(|vs|, i requires 0 <= i < |vs| => Reweighed(vs[i], ws))
  }

  function AppendNew(vs: seq<ValidatorEntry>, ws: seq<ValidatorInit>): seq<ValidatorEntry>
    decreases |ws|
  {
    if ws == [] then vs
    else AppendNew(if ws[0].address in Addresses(vs) then vs else vs + [FreshEntry(ws[0])], ws[1..])
  }

  ghost function WeightsApplied(vs: seq<ValidatorEntry>, ws: seq<ValidatorInit>): seq<ValidatorEntry> {
    AppendNew(Reweigh(vs, ws), ws)
  }

  method ApplyWeights(vs: seq<ValidatorEntry>, ws: seq<ValidatorInit>) returns (r: seq<ValidatorEntry>)
    ensures r == WeightsApplied(vs, ws)
  {
    r := vs;
    for i := 0 to |vs|
      invariant |r| == |vs| && r[..i] == Reweigh(vs, ws)[..i] && r[i..] == vs[i..]
    {
      r := r[i := Reweighed(r[i], ws)];
    }
    assert r == Reweigh(vs, ws);
    for j := 0 to |ws|
      invariant AppendNew(Reweigh(vs, ws), ws) == AppendNew(r, ws[j..])
    {
      assert ws[j..][1..] == ws[j + 1..];
      if ws[j].address !in Addresses(r) {
        r := r + [FreshEntry(ws[j])];
      }
    }
  }

  // ---- choosing where a delegation goes ----

  function Target(v: ValidatorEntry, pool: nat): nat { MulDiv(pool, v.weightBps, BPS_DENOM) }

  function Deficit(v: ValidatorEntry, pool: nat): nat { SatSub(Target(v, pool), v.bonded) }

  function Surplus(v: ValidatorEntry, pool: nat): nat { SatSub(v.bonded, Target(v, pool)) }

  /** The first of the most underweight Active validators among the first `n`. */
  function BestOf(vs: seq<ValidatorEntry>, pool: nat, n: nat): (r: Option<nat>)
    requires n <= |vs|
    ensures r.Some? ==> r.value < n && vs[r.value].status == Active
    ensures r.Some? ==> forall i :: 0 <= i < n && vs[i].status == Active ==>
              && Deficit(vs[i], pool) <= Deficit(vs[r.value], pool)
              && (i < r.value ==> Deficit(vs[i], pool) < Deficit(vs[r.value], pool))
    ensures r.None? ==> forall i :: 0 <= i < n ==> vs[i].status != Active
  {
    if n == 0 then None else
      var prev := BestOf(vs, pool, n - 1);
      var v := vs[n - 1];
      if v.status != Active then prev
      else if prev.Some? && Deficit(v, pool) <= Deficit(vs[prev.value], pool) then prev
      else Some(n - 1)
  }

  ghost function Selected(vs: seq<ValidatorEntry>, incoming: nat): (r: Outcome<nat>)
    ensures r.Ok? ==> r.value < |vs| && vs[r.value].status == Active
  {
    var pool := TotalBonded(vs) + incoming;
    if pool > U128_MAX then Err(Overflow) else
      match BestOf(vs, pool, |vs|)
      case Some(i) => Ok(i)
      case None => Err(EmptyValidatorSet)
  }

  method SelectForDelegation(vs: seq<ValidatorEntry>, incoming: nat) returns (r: Outcome<nat>)
    ensures r == Selected(vs, incoming)
  {
    var pool := TotalBonded(vs) + incoming;
    if pool > U128_MAX {
      return Err(Overflow);
    }
    var best: Option<nat> := None;
    for i := 0 to |vs|
      invariant best == BestOf(vs, pool, i)
    {
      var v := vs[i];
      if v.status == Active {
        if best.None? || Deficit(v, pool) > Deficit(vs[best.value], pool) {
          best := Some(i);
        }
      }
    }
    r := if best.Some? then Ok(best.value) else Err(EmptyValidatorSet);
  }

  // ---- planning an undelegation ----

  datatype UnbondLeg = UnbondLeg(index: nat, amount: nat)

  datatype Candidate = Candidate(index: nat, rank: nat, surplus: nat, bonded: nat)

  predicate Eligible(v: ValidatorEntry, ceiling: nat) {
    v.bonded != 0 && v.activeUnbondEntries < ceiling
  }

  /** Stake an undelegation may draw on: nothing held by a validator out of entry slots. */
  function Free(ceiling: nat): ValidatorEntry -> nat {
    v => if Eligible(v, ceiling) then v.bonded else 0
  }

  function CandidateAt(vs: seq<ValidatorEntry>, i: nat): Candidate
    requires i < |vs|
  {
    Candidate(i, if vs[i].status == Active then 1 else 0, Surplus(vs[i], TotalBonded(vs)), vs[i].bonded)
  }

  /** Non-Active first, then by surplus, then by size, then by position. */
  predicate Before(a: Candidate, b: Candidate) {
    || a.rank < b.rank
    || (a.rank == b.rank && a.surplus > b.surplus)
    || (a.rank == b.rank && a.surplus == b.surplus && a.bonded > b.bonded)
    || (a.rank == b.rank && a.surplus == b.surplus && a.bonded == b.bonded && a.index < b.index)
  }

  function Candidates(vs: seq<ValidatorEntry>, ceiling: nat, n: nat): seq<Candidate>
    requires n <= |vs|
  {
    if n == 0 then []
    else Candidates(vs, ceiling, n - 1) + (if Eligible(vs[n - 1], ceiling) then [CandidateAt(vs, n - 1)] else [])
  }

  function Insert(c: Candidate, cs: seq<Candidate>): seq<Candidate> {
    if cs == [] || Before(c, cs[0]) then [c] + cs else [cs[0]] + Insert(c, cs[1..])
  }

  function Sorted(cs: seq<Candidate>): seq<Candidate> {
    if cs == [] then [] else Insert(cs[|cs| - 1], Sorted(cs[..|cs| - 1]))
  }

  /** The legs taken, and what is left uncovered. */
  datatype Taking = Taking(legs: seq<UnbondLeg>, left: nat)

  /** Take from the candidates in turn until `remaining` is covered. */
  ghost function TakeFrom(cs: seq<Candidate>, remaining: nat): Taking {
    if cs == [] || remaining == 0 then Taking([], remaining) else
      var take := Min(remaining, cs[0].bonded);
      var rest := TakeFrom(cs[1..], remaining - take);
      Taking((if take == 0 then [] else [UnbondLeg(cs[0].index, take)]) + rest.legs, rest.left)
  }

  ghost function Plan(vs: seq<ValidatorEntry>, amount: nat, ceiling: nat): Outcome<seq<UnbondLeg>> {
    if amount == 0 then Ok([]) else
      var taken := TakeFrom(Sorted(Candidates(vs, ceiling, |vs|)), amount);
      if taken.left != 0 then Err(NoUnbondingCapacity) else Ok(taken.legs)
  }

  method PlanUndelegation(vs: seq<ValidatorEntry>, amount: nat, ceiling: nat)
    returns (r: Outcome<seq<UnbondLeg>>)
    ensures r == Plan(vs, amount, ceiling)
  {
    if amount == 0 {
      return Ok([]);
    }
    var candidates := [];
    for i := 0 to |vs|
      invariant candidates == Candidates(vs, ceiling, i)
    {
      if Eligible(vs[i], ceiling) {
        candidates := candidates + [CandidateAt(vs, i)];
      }
    }
    var legs, remaining := TakeInTurn(Sorted(candidates), amount);
    r := if remaining != 0 then Err(NoUnbondingCapacity) else Ok(legs);
  }

  /** One turn: what it takes, and what is left for the turns after it. */
  lemma {:induction false} TakeTurn(legs: seq<UnbondLeg>, cs: seq<Candidate>, k: nat, remaining: nat)
    requires k < |cs| && remaining != 0
    ensures var take := Min(remaining, cs[k].bonded);
            var here, next := TakeFrom(cs[k..], remaining), TakeFrom(cs[k + 1..], remaining - take);
            && here.left == next.left
            && legs + here.legs == (if take == 0 then legs else legs + [UnbondLeg(cs[k].index, take)]) + next.legs
  {
    var take := Min(remaining, cs[k].bonded);
    var next := TakeFrom(cs[k + 1..], remaining - take);
    assert cs[k..][1..] == cs[k + 1..];
    assert legs + ([UnbondLeg(cs[k].index, take)] + next.legs) == (legs + [UnbondLeg(cs[k].index, take)]) + next.legs;
    assert [] + next.legs == next.legs;
  }

  method TakeInTurn(cs: seq<Candidate>, amount: nat) returns (legs: seq<UnbondLeg>, remaining: nat)
    ensures Taking(legs, remaining) == TakeFrom(cs, amount)
  {
    legs, remaining := [], amount;
    var k := 0;
    assert cs[0..] == cs && [] + TakeFrom(cs, amount).legs == TakeFrom(cs, amount).legs;
    while k < |cs| && remaining != 0
      invariant k <= |cs|
      invariant legs + TakeFrom(cs[k..], remaining).legs == TakeFrom(cs, amount).legs
      invariant TakeFrom(cs[k..], remaining).left == TakeFrom(cs, amount).left
    {
      var take := Min(remaining, cs[k].bonded);
      TakeTurn(legs, cs, k, remaining);
      if take != 0 {
        legs := legs + [UnbondLeg(cs[k].index, take)];
      }
      remaining := remaining - take;
      k := k + 1;
    }
  }
}
