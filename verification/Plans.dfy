/** What an undelegation plan is, that the planner finds one exactly when the free stake covers
    the amount, and that there is never a second one. */
module Plans {
  import opened Prelude
  import opened Sums
  import opened Types
  import opened Validators

  function Amount(l: UnbondLeg): nat { l.amount }

  function CandidateBonded(c: Candidate): nat { c.bonded }

  function FreeStake(vs: seq<ValidatorEntry>, ceiling: nat): nat { SumSeq(vs, Free(ceiling)) }

  ghost predicate Touches(legs: seq<UnbondLeg>, i: nat) {
    exists k :: 0 <= k < |legs| && legs[k].index == i
  }

  /** Legs name eligible validators, in preference order with none skipped, drain all but the last,
      and add up to the amount. */
  ghost predicate IsPlan(vs: seq<ValidatorEntry>, amount: nat, ceiling: nat, legs: seq<UnbondLeg>) {
    && (forall k :: 0 <= k < |legs| ==>
          && legs[k].index < |vs|
          && Eligible(vs[legs[k].index], ceiling)
          && 0 < legs[k].amount <= vs[legs[k].index].bonded)
    && (forall k :: 0 <= k < |legs| - 1 ==> legs[k].amount == vs[legs[k].index].bonded)
    && SumSeq(legs, Amount) == amount
    && (forall j, k :: 0 <= j < k < |legs| ==>
          Before(CandidateAt(vs, legs[j].index), CandidateAt(vs, legs[k].index)))
    && (forall i, k :: 0 <= i < |vs| && Eligible(vs[i], ceiling) && !Touches(legs, i) && 0 <= k < |legs| ==>
          Before(CandidateAt(vs, legs[k].index), CandidateAt(vs, i)))
  }

  // ---- the candidate order ----

  ghost predicate InOrder(cs: seq<Candidate>) {
    forall i, j :: 0 <= i < j < |cs| ==> Before(cs[i], cs[j])
  }

  lemma {:induction false} InsertInOrder(c: Candidate, cs: seq<Candidate>)
    requires InOrder(cs) && forall k :: 0 <= k < |cs| ==> cs[k].index != c.index
    ensures InOrder(Insert(c, cs))
  {
    InsertMembers(c, cs);
    if cs != [] && !Before(c, cs[0]) {
      InsertInOrder(c, cs[1..]);
      InsertMembers(c, cs[1..]);
      var rest := Insert(c, cs[1..]);
      forall j | 0 <= j < |rest| ensures Before(cs[0], rest[j]) {
        assert rest[j] in rest;
      }
      ConsInOrder(cs[0], rest);
    } else {
      forall j | 0 <= j < |cs| ensures Before(c, cs[j]) {
      }
      ConsInOrder(c, cs);
    }
  }

  lemma {:induction false} ConsInOrder(c: Candidate, cs: seq<Candidate>)
    requires InOrder(cs) && forall j :: 0 <= j < |cs| ==> Before(c, cs[j])
    ensures InOrder([c] + cs)
  {
  }

  lemma {:induction false} InsertMembers(c: Candidate, cs: seq<Candidate>)
    ensures forall x :: x in Insert(c, cs) <==> x == c || x in cs
  {
    if cs != [] && !Before(c, cs[0]) {
      InsertMembers(c, cs[1..]);
      assert cs == [cs[0]] + cs[1..];
    }
  }

  lemma {:induction false} InsertSum(c: Candidate, cs: seq<Candidate>)
    ensures SumSeq(Insert(c, cs), CandidateBonded) == c.bonded + SumSeq(cs, CandidateBonded)
  {
    var r := Insert(c, cs);
    SumCons(r, CandidateBonded);
    if cs == [] || Before(c, cs[0]) {
      assert r[1..] == cs;
    } else {
      InsertSum(c, cs[1..]);
      SumCons(cs, CandidateBonded);
      assert r[1..] == Insert(c, cs[1..]);
    }
  }

  lemma {:induction false} SortedInOrder(cs: seq<Candidate>)
    requires forall i, j :: 0 <= i < j < |cs| ==> cs[i].index != cs[j].index
    ensures InOrder(Sorted(cs))
    ensures forall x :: x in Sorted(cs) <==> x in cs
    ensures SumSeq(Sorted(cs), CandidateBonded) == SumSeq(cs, CandidateBonded)
  {
    if cs != [] {
      var last := |cs| - 1;
      SortedInOrder(cs[..last]);
      forall k | 0 <= k < |Sorted(cs[..last])| ensures Sorted(cs[..last])[k].index != cs[last].index {
        assert Sorted(cs[..last])[k] in cs[..last];
      }
      InsertInOrder(cs[last], Sorted(cs[..last]));
      InsertMembers(cs[last], Sorted(cs[..last]));
      InsertSum(cs[last], Sorted(cs[..last]));
      assert cs == cs[..last] + [cs[last]];
    }
  }

  lemma {:induction false} CandidatesAre(vs: seq<ValidatorEntry>, ceiling: nat, n: nat)
    requires n <= |vs|
    ensures var cs := Candidates(vs, ceiling, n);
            && (forall k :: 0 <= k < |cs| ==> cs[k].index < n && Eligible(vs[cs[k].index], ceiling) && cs[k] == CandidateAt(vs, cs[k].index))
            && (forall i, j :: 0 <= i < j < |cs| ==> cs[i].index < cs[j].index)
            && (forall i :: 0 <= i < n && Eligible(vs[i], ceiling) ==> CandidateAt(vs, i) in cs)
  {
    if n > 0 {
      CandidatesAre(vs, ceiling, n - 1);
    }
  }

  lemma {:induction false} CandidatesSum(vs: seq<ValidatorEntry>, ceiling: nat, n: nat)
    requires n <= |vs|
    ensures SumSeq(Candidates(vs, ceiling, n), CandidateBonded) == SumSeq(vs[..n], Free(ceiling))
  {
    if n > 0 {
      CandidatesSum(vs, ceiling, n - 1);
      assert vs[..n] == vs[..n - 1] + [vs[n - 1]];
      SumSnoc(vs[..n - 1], vs[n - 1], Free(ceiling));
      if Eligible(vs[n - 1], ceiling) {
        SumSnoc(Candidates(vs, ceiling, n - 1), CandidateAt(vs, n - 1), CandidateBonded);
      } else {
        assert Candidates(vs, ceiling, n - 1) + [] == Candidates(vs, ceiling, n - 1);
      }
    }
  }

  /** The ranked list of eligible validators. */
  ghost function Ranking(vs: seq<ValidatorEntry>, ceiling: nat): seq<Candidate> {
    Sorted(Candidates(vs, ceiling, |vs|))
  }

  lemma {:induction false} RankingIs(vs: seq<ValidatorEntry>, ceiling: nat)
    ensures var cs := Ranking(vs, ceiling);
            && InOrder(cs)
            && (forall k :: 0 <= k < |cs| ==> cs[k].index < |vs| && Eligible(vs[cs[k].index], ceiling) && cs[k] == CandidateAt(vs, cs[k].index))
            && (forall i :: 0 <= i < |vs| && Eligible(vs[i], ceiling) ==> CandidateAt(vs, i) in cs)
            && SumSeq(cs, CandidateBonded) == FreeStake(vs, ceiling)
  {
    var cs := Candidates(vs, ceiling, |vs|);
    CandidatesAre(vs, ceiling, |vs|);
    CandidatesSum(vs, ceiling, |vs|);
    SortedInOrder(cs);
    assert vs[..|vs|] == vs;
    forall k | 0 <= k < |Sorted(cs)|
      ensures Sorted(cs)[k].index < |vs| && Eligible(vs[Sorted(cs)[k].index], ceiling) && Sorted(cs)[k] == CandidateAt(vs, Sorted(cs)[k].index)
    {
      assert Sorted(cs)[k] in cs;
    }
  }

  // ---- taking from the ranking ----

  lemma {:induction false} TakeLegsAre(cs: seq<Candidate>, r: nat)
    requires forall k :: 0 <= k < |cs| ==> cs[k].bonded > 0
    ensures var legs := TakeFrom(cs, r).legs;
            && |legs| <= |cs|
            && (forall k :: 0 <= k < |legs| ==> legs[k].index == cs[k].index && 0 < legs[k].amount <= cs[k].bonded)
            && (forall k :: 0 <= k < |legs| - 1 ==> legs[k].amount == cs[k].bonded)
  {
    if cs != [] && r != 0 {
      var take := Min(r, cs[0].bonded);
      TakeLegsAre(cs[1..], r - take);
      var legs := TakeFrom(cs, r).legs;
      var rest := TakeFrom(cs[1..], r - take).legs;
      assert legs == [UnbondLeg(cs[0].index, take)] + rest;
      forall k | 0 < k < |legs| ensures legs[k].index == cs[k].index && 0 < legs[k].amount <= cs[k].bonded {
        assert legs[k] == rest[k - 1] && cs[k] == cs[1..][k - 1];
      }
      forall k | 0 <= k < |legs| - 1 ensures legs[k].amount == cs[k].bonded {
        if k > 0 {
          assert legs[k] == rest[k - 1] && cs[k] == cs[1..][k - 1];
        } else {
          assert rest != [];
        }
      }
    }
  }

  lemma {:induction false} TakeLegsSum(cs: seq<Candidate>, r: nat)
    requires forall k :: 0 <= k < |cs| ==> cs[k].bonded > 0
    ensures SumSeq(TakeFrom(cs, r).legs, Amount) + TakeFrom(cs, r).left == r
    ensures TakeFrom(cs, r).left == SatSub(r, SumSeq(cs, CandidateBonded))
  {
    if cs != [] && r != 0 {
      var take := Min(r, cs[0].bonded);
      var rest := TakeFrom(cs[1..], r - take).legs;
      TakeLegsSum(cs[1..], r - take);
      SumCons(cs, CandidateBonded);
      assert TakeFrom(cs, r).legs == [UnbondLeg(cs[0].index, take)] + rest;
      SumCons(TakeFrom(cs, r).legs, Amount);
      assert TakeFrom(cs, r).legs[1..] == rest;
    }
  }

  lemma {:induction false} BeforeIsStrict(a: Candidate, b: Candidate, c: Candidate)
    ensures !Before(a, a)
    ensures Before(a, b) && Before(b, c) ==> Before(a, c)
    ensures Before(a, b) ==> !Before(b, a)
    ensures a.index != b.index ==> Before(a, b) || Before(b, a)
  {
  }

  /** The planner succeeds exactly when validators with a free slot hold the amount, and what it
      returns is a plan. */
  lemma {:induction false} PlanSucceeds(vs: seq<ValidatorEntry>, amount: nat, ceiling: nat)
    ensures Plan(vs, amount, ceiling).Ok? <==> amount <= FreeStake(vs, ceiling)
    ensures Plan(vs, amount, ceiling).Err? ==> Plan(vs, amount, ceiling).error == NoUnbondingCapacity
    ensures Plan(vs, amount, ceiling).Ok? ==> IsPlan(vs, amount, ceiling, Plan(vs, amount, ceiling).value)
  {
    if amount != 0 {
      var cs := Ranking(vs, ceiling);
      RankingIs(vs, ceiling);
      forall k | 0 <= k < |cs| ensures cs[k].bonded > 0 {
        assert cs[k] == CandidateAt(vs, cs[k].index);
      }
      TakeLegsAre(cs, amount);
      TakeLegsSum(cs, amount);
      if Plan(vs, amount, ceiling).Ok? {
        RankedLegsPlan(vs, amount, ceiling, cs, TakeFrom(cs, amount).legs);
      }
    }
  }

  lemma {:induction false} RankedLegsPlan(vs: seq<ValidatorEntry>, amount: nat, ceiling: nat, cs: seq<Candidate>,
        legs: seq<UnbondLeg>)
    requires InOrder(cs)
    requires forall k :: 0 <= k < |cs| ==> cs[k].index < |vs| && Eligible(vs[cs[k].index], ceiling) && cs[k] == CandidateAt(vs, cs[k].index)
    requires forall i :: 0 <= i < |vs| && Eligible(vs[i], ceiling) ==> CandidateAt(vs, i) in cs
    requires |legs| <= |cs|
    requires forall k :: 0 <= k < |legs| ==> legs[k].index == cs[k].index && 0 < legs[k].amount <= cs[k].bonded
    requires forall k :: 0 <= k < |legs| - 1 ==> legs[k].amount == cs[k].bonded
    requires SumSeq(legs, Amount) == amount
    ensures IsPlan(vs, amount, ceiling, legs)
  {
    forall i, k | 0 <= i < |vs| && Eligible(vs[i], ceiling) && !Touches(legs, i) && 0 <= k < |legs|
      ensures Before(CandidateAt(vs, legs[k].index), CandidateAt(vs, i))
    {
      var at :| 0 <= at < |cs| && cs[at] == CandidateAt(vs, i);
      assert forall m :: 0 <= m < |legs| ==> legs[m].index != i;
      assert Before(cs[k], cs[at]);
    }
  }

  // ---- uniqueness ----

  lemma {:induction false} NextAgrees(vs: seq<ValidatorEntry>, a: nat, b: nat, ceiling: nat, p: seq<UnbondLeg>,
        q: seq<UnbondLeg>, k: nat)
    requires IsPlan(vs, a, ceiling, p) && IsPlan(vs, b, ceiling, q) && k < |p| && k < |q|
    requires forall i :: 0 <= i < k ==> p[i].index == q[i].index
    ensures p[k].index == q[k].index
  {
    var i, j := p[k].index, q[k].index;
    if i != j {
      PlanIndicesDiffer(vs, a, ceiling, p);
      PlanIndicesDiffer(vs, b, ceiling, q);
      NextIsFirst(vs, a, ceiling, p, q, k);
      NextIsFirst(vs, b, ceiling, q, p, k);
      BeforeIsStrict(CandidateAt(vs, i), CandidateAt(vs, j), CandidateAt(vs, j));
    }
  }

  lemma {:induction false} SameIndices(vs: seq<ValidatorEntry>, a: nat, b: nat, ceiling: nat, p: seq<UnbondLeg>,
        q: seq<UnbondLeg>, k: nat)
    requires IsPlan(vs, a, ceiling, p) && IsPlan(vs, b, ceiling, q)
    requires k <= |p| && k <= |q|
    ensures forall i :: 0 <= i < k ==> p[i].index == q[i].index
  {
    hide IsPlan;
    if k > 0 {
      SameIndices(vs, a, b, ceiling, p, q, k - 1);
      NextAgrees(vs, a, b, ceiling, p, q, k - 1);
    }
  }

  /** After a common prefix, a plan's next leg comes before any other eligible validator. */
  lemma {:induction false} NextIsFirst(vs: seq<ValidatorEntry>, a: nat, ceiling: nat, p: seq<UnbondLeg>,
        q: seq<UnbondLeg>, k: nat)
    requires IsPlan(vs, a, ceiling, p) && k < |p| && k < |q|
    requires q[k].index < |vs| && Eligible(vs[q[k].index], ceiling)
    requires forall i :: 0 <= i < k ==> q[i].index == p[i].index && q[i].index != q[k].index
    requires p[k].index != q[k].index
    ensures Before(CandidateAt(vs, p[k].index), CandidateAt(vs, q[k].index))
  {
    if Touches(p, q[k].index) {
      var m :| 0 <= m < |p| && p[m].index == q[k].index;
      assert m > k;
    }
  }

  lemma {:induction false} PlanIndicesDiffer(vs: seq<ValidatorEntry>, a: nat, ceiling: nat, p: seq<UnbondLeg>)
    requires IsPlan(vs, a, ceiling, p)
    ensures forall j, k :: 0 <= j < k < |p| ==> p[j].index != p[k].index
  {
    forall j, k | 0 <= j < k < |p| ensures p[j].index != p[k].index {
      BeforeIsStrict(CandidateAt(vs, p[j].index), CandidateAt(vs, p[k].index), CandidateAt(vs, p[j].index));
    }
  }

  /** Two leg lists that agree but for the last amount, and in total, are the same. */
  lemma {:induction false} LastLegFollows(p: seq<UnbondLeg>, q: seq<UnbondLeg>)
    requires |p| == |q| > 0 && SumSeq(p, Amount) == SumSeq(q, Amount)
    requires p[..|p| - 1] == q[..|q| - 1] && p[|p| - 1].index == q[|q| - 1].index
    ensures p == q
  {
    var last := |p| - 1;
    assert p[last] == q[last];
    assert p == p[..last] + [p[last]];
    assert q == q[..last] + [q[last]];
  }

  /** A plan extending another's legs, all drained, would undelegate more. */
  lemma {:induction false} LongerTakesMore(p: seq<UnbondLeg>, q: seq<UnbondLeg>)
    requires |p| < |q| && q[|p|].amount > 0
    requires forall k :: 0 <= k < |p| ==> p[k].amount <= q[k].amount
    ensures SumSeq(p, Amount) < SumSeq(q, Amount)
  {
    SumLe(p, Amount, q[..|p|], Amount);
    SumSnoc(q[..|p|], q[|p|], Amount);
    assert q[..|p| + 1] == q[..|p|] + [q[|p|]];
    SumPrefix(q, |p| + 1, Amount);
  }

  lemma {:induction false} PlanNotLonger(vs: seq<ValidatorEntry>, amount: nat, ceiling: nat, p: seq<UnbondLeg>,
        q: seq<UnbondLeg>)
    requires IsPlan(vs, amount, ceiling, p) && IsPlan(vs, amount, ceiling, q)
    ensures |q| <= |p|
  {
    if |p| < |q| {
      SameIndices(vs, amount, amount, ceiling, p, q, |p|);
      LongerTakesMore(p, q);
    }
  }

  /** One undelegation, one plan. */
  lemma {:induction false} PlanIsUnique(vs: seq<ValidatorEntry>, amount: nat, ceiling: nat, p: seq<UnbondLeg>,
        q: seq<UnbondLeg>)
    requires IsPlan(vs, amount, ceiling, p) && IsPlan(vs, amount, ceiling, q)
    ensures p == q
  {
    PlanNotLonger(vs, amount, ceiling, p, q);
    PlanNotLonger(vs, amount, ceiling, q, p);
    SameIndices(vs, amount, amount, ceiling, p, q, |p|);
    if p != [] {
      forall k | 0 <= k < |p| - 1 ensures p[k] == q[k] {
      }
      LastLegFollows(p, q);
    }
  }

  /** A healthy validator is only touched once every other eligible one is emptied. */
  lemma {:induction false} DrainingComesFirst(vs: seq<ValidatorEntry>, amount: nat, ceiling: nat,
        legs: seq<UnbondLeg>, k: nat, i: nat)
    requires IsPlan(vs, amount, ceiling, legs) && k < |legs| && i < |vs|
    requires vs[legs[k].index].status == Active
    requires vs[i].status != Active && Eligible(vs[i], ceiling)
    ensures exists j :: 0 <= j < k && legs[j] == UnbondLeg(i, vs[i].bonded)
  {
    var a, b := CandidateAt(vs, legs[k].index), CandidateAt(vs, i);
    assert Before(b, a) && !Before(a, b);
    assert Touches(legs, i);
    var j :| 0 <= j < |legs| && legs[j].index == i;
    if j >= k {
      BeforeIsStrict(a, b, a);
    }
    assert j < |legs| - 1;
    assert legs[j] == UnbondLeg(i, vs[i].bonded);
  }
}
