/** Share accounting (math.rs): every conversion rounds in favour of the pool. */
module Math {
  import opened Prelude
  import opened Types

  /** `a * b / denom` rounded down, narrowed back to 128 bits. */
  function MulDivFloor(a: nat, b: nat, denom: nat): Outcome<nat> {
    if denom == 0 then Err(Overflow)
    else if MulDiv(a, b, denom) > U128_MAX then Err(Overflow)
    else Ok(MulDiv(a, b, denom))
  }

  datatype PoolTotals = PoolTotals(
    bonded: nat, pendingRewards: nat, liquid: nat, owedBacked: nat, supply: nat)
  {
    function Gross(): nat { bonded + pendingRewards + liquid }

    function Assets(): Outcome<nat> {
      if Gross() > U128_MAX then Err(Overflow) else Ok(SatSub(Gross(), owedBacked))
    }

    /** The liabilities do not exceed what they are taken from. */
    predicate Unsaturated() { owedBacked <= Gross() }
  }

  function SharesForDeposit(deposit: nat, totals: PoolTotals): Outcome<nat> {
    if deposit == 0 then Err(ZeroAmount) else
      var assets :- totals.Assets();
      if totals.supply == 0 || assets == 0 then Ok(deposit)
      else MulDivFloor(deposit, totals.supply, assets)
  }

  function AssetsForShares(shares: nat, totals: PoolTotals): Outcome<nat> {
    if shares == 0 then Err(ZeroAmount)
    else if totals.supply == 0 then Ok(0)
    else
      var assets :- totals.Assets();
      MulDivFloor(shares, assets, totals.supply)
  }

  /** Shares that give the treasury its cut of `rewards`; `totals` excludes those rewards. */
  function FeeSharesForRewards(rewards: nat, feeBps: nat, totals: PoolTotals): Outcome<nat> {
    if rewards == 0 || feeBps == 0 || totals.supply == 0 then Ok(0) else
      var fee :- MulDivFloor(rewards, feeBps, BPS_DENOM);
      if fee == 0 then Ok(0) else
        var assets :- totals.Assets();
        if assets + rewards > U128_MAX then Err(Overflow)
        else if assets + rewards < fee then Err(Overflow)
        else if assets + rewards - fee == 0 then Ok(0)
        else MulDivFloor(fee, totals.supply, assets + rewards - fee)
  }

  function ConcurrentEntriesForWindow(unbondingSecs: nat, windowSecs: nat): nat {
    if windowSecs == 0 then U32_MAX else Min(DivCeil(unbondingSecs, windowSecs), U32_MAX)
  }

  function RequiredEntrySlots(unbondingSecs: nat, windowSecs: nat): nat {
    Min(ConcurrentEntriesForWindow(unbondingSecs, windowSecs) + 1, U32_MAX)
  }

  // ---- one deposit, one withdrawal ----

  /** A deposit never lowers assets per share, and mints at least what the rate allows less one. */
  lemma {:induction false} DepositKeepsRate(deposit: nat, p: PoolTotals, a: nat, m: nat)
    requires p.Assets() == Ok(a) && p.supply > 0
    requires SharesForDeposit(deposit, p) == Ok(m)
    ensures (a + deposit) * p.supply >= a * (p.supply + m)
    ensures a > 0 ==> deposit * p.supply < (m + 1) * a
  {
    if a > 0 {
      MulDivBounds(deposit, p.supply, a);
      assert m * a <= deposit * p.supply < m * a + a;
    }
    assert (a + deposit) * p.supply == a * p.supply + deposit * p.supply;
    assert a * (p.supply + m) == a * p.supply + m * a;
  }

  /** A withdrawal never lowers assets per share for those who stay, and loses under one unit. */
  lemma {:induction false} WithdrawalKeepsRate(shares: nat, p: PoolTotals, a: nat, owed: nat)
    requires p.Assets() == Ok(a) && 0 < shares <= p.supply
    requires AssetsForShares(shares, p) == Ok(owed)
    ensures owed <= a
    ensures (a - owed) * p.supply >= a * (p.supply - shares)
    ensures shares * a < (owed + 1) * p.supply
  {
    MulDivBounds(shares, a, p.supply);
    assert owed * p.supply <= shares * a < owed * p.supply + p.supply;
    MulMono(shares, p.supply, a);
    MulCancelLe(owed, a, p.supply);
    assert (a - owed) * p.supply == a * p.supply - owed * p.supply;
    assert a * (p.supply - shares) == a * p.supply - shares * a;
  }

  // ---- runs of deposits and withdrawals ----

  datatype Trade = Put(amount: nat) | Take(shares: nat)

  /** A pool with a running account of what was paid in and promised out. */
  datatype Book = Book(pool: PoolTotals, paidIn: nat, promised: nat)

  /** One trade; a refused one changes nothing. A withdrawal may not take the whole supply, since
      the shares minted at bootstrap belong to the contract and are never unbonded. */
  function Apply(b: Book, t: Trade): Book {
    match t
    case Put(d) =>
      (match SharesForDeposit(d, b.pool)
       case Ok(m) => Book(b.pool.(bonded := b.pool.bonded + d, supply := b.pool.supply + m), b.paidIn + d, b.promised)
       case Err(_) => b)
    case Take(s) =>
      if s >= b.pool.supply then b else
      (match AssetsForShares(s, b.pool)
       case Ok(o) => Book(b.pool.(supply := b.pool.supply - s, owedBacked := b.pool.owedBacked + o), b.paidIn, b.promised + o)
       case Err(_) => b)
  }

  function ApplyAll(b: Book, ts: seq<Trade>): Book {
    if ts == [] then b else Apply(ApplyAll(b, ts[..|ts| - 1]), ts[|ts| - 1])
  }

  /** Net assets of a pool whose liabilities are covered. */
  function Net(p: PoolTotals): int { p.Gross() - p.owedBacked }

  lemma {:induction false} ApplyKeepsRate(b: Book, t: Trade)
    requires b.pool.supply > 0 && b.pool.Unsaturated()
    ensures var n := Apply(b, t);
            && n.pool.supply > 0 && n.pool.Unsaturated()
            && Net(n.pool) * b.pool.supply >= Net(b.pool) * n.pool.supply
            && Net(n.pool) - Net(b.pool) == (n.paidIn - b.paidIn) - (n.promised - b.promised)
  {
    match t {
      case Put(d) =>
        if SharesForDeposit(d, b.pool).Ok? {
          DepositKeepsRate(d, b.pool, Net(b.pool), SharesForDeposit(d, b.pool).value);
        }
      case Take(s) =>
        if s < b.pool.supply && AssetsForShares(s, b.pool).Ok? {
          WithdrawalKeepsRate(s, b.pool, Net(b.pool), AssetsForShares(s, b.pool).value);
        }
    }
  }

  lemma {:induction false} RatioTransitive(a0: int, s0: int, a1: int, s1: int, a2: int, s2: int)
    requires s0 > 0 && s1 > 0 && s2 > 0
    requires a1 * s0 >= a0 * s1 && a2 * s1 >= a1 * s2
    ensures a2 * s0 >= a0 * s2
  {
    MulMono(a1 * s2, a2 * s1, s0);
    MulMono(a0 * s1, a1 * s0, s2);
    assert a0 * s2 * s1 == a0 * s1 * s2;
    assert a1 * s0 * s2 == a1 * s2 * s0;
    assert a2 * s0 * s1 == a2 * s1 * s0;
    MulCancelLe(a0 * s2, a2 * s0, s1);
  }

  /** Over any run of trades assets per share never fall, and assets account for every trade. */
  lemma {:induction false} RunKeepsRate(b: Book, ts: seq<Trade>)
    requires b.pool.supply > 0 && b.pool.Unsaturated()
    ensures var n := ApplyAll(b, ts);
            && n.pool.supply > 0 && n.pool.Unsaturated()
            && Net(n.pool) * b.pool.supply >= Net(b.pool) * n.pool.supply
            && Net(n.pool) - Net(b.pool) == (n.paidIn - b.paidIn) - (n.promised - b.promised)
  {
    if ts != [] {
      var m := ApplyAll(b, ts[..|ts| - 1]);
      var n := Apply(m, ts[|ts| - 1]);
      RunKeepsRate(b, ts[..|ts| - 1]);
      ApplyKeepsRate(m, ts[|ts| - 1]);
      RatioTransitive(Net(b.pool), b.pool.supply, Net(m.pool), m.pool.supply, Net(n.pool), n.pool.supply);
    }
  }

  /** No run of trades that gives back at least the shares it started from takes a profit. */
  lemma {:induction false} NoProfitableRun(p: PoolTotals, ts: seq<Trade>)
    requires p.supply > 0 && p.Unsaturated()
    ensures var end := ApplyAll(Book(p, 0, 0), ts);
            end.pool.supply >= p.supply ==> end.promised <= end.paidIn
  {
    var end := ApplyAll(Book(p, 0, 0), ts);
    RunKeepsRate(Book(p, 0, 0), ts);
    if end.pool.supply >= p.supply {
      MulMono(p.supply, end.pool.supply, Net(p));
      MulCancelLe(Net(p), Net(end.pool), p.supply);
    }
  }

  // ---- splitting a withdrawal ----

  function TotalShares(parts: seq<nat>): nat {
    if parts == [] then 0 else TotalShares(parts[..|parts| - 1]) + parts[|parts| - 1]
  }

  function Takes(parts: seq<nat>): seq<Trade> {
    seq(|parts|, i requires 0 <= i < |parts| => Take(parts[i]))
  }

  /** Every part of the withdrawal was priced rather than refused. */
  ghost predicate AllPriced(p: PoolTotals, parts: seq<nat>) {
    forall i :: 0 <= i < |parts| ==>
      AssetsForShares(parts[i], ApplyAll(Book(p, 0, 0), Takes(parts[..i])).pool).Ok?
  }

  /** One priced part, measured at the rate of the pool `p` the run began with. */
  lemma {:induction false} OnePart(p: PoolTotals, b: Book, s: nat)
    requires p.supply > 0 && b.pool.supply > s && b.pool.Unsaturated()
    requires Net(b.pool) * p.supply >= Net(p) * b.pool.supply
    requires AssetsForShares(s, b.pool).Ok?
    ensures var n := Apply(b, Take(s));
            && n.pool.supply == b.pool.supply - s
            && n.paidIn == b.paidIn
            && n.promised >= b.promised
            && s * Net(p) < (n.promised - b.promised + 1) * p.supply
  {
    var owed := AssetsForShares(s, b.pool).value;
    WithdrawalKeepsRate(s, b.pool, Net(b.pool), owed);
    LastPart(s, Net(p), p.supply, Net(b.pool), b.pool.supply, owed);
  }

  /** What a run of parts has to show for itself: its shares at the starting rate, less `|parts|`. */
  ghost predicate PartsPaid(p: PoolTotals, end: Book, shares: nat, k: nat) {
    && end.pool.supply == p.supply - shares
    && end.paidIn == 0
    && shares * Net(p) <= (end.promised + k) * p.supply
    && (k > 0 ==> shares * Net(p) < (end.promised + k) * p.supply)
  }

  lemma {:induction false} PartsStep(p: PoolTotals, m: Book, shares: nat, k: nat, s: nat)
    requires shares + s < p.supply && m.pool.Unsaturated() && PartsPaid(p, m, shares, k)
    requires Net(m.pool) * p.supply >= Net(p) * m.pool.supply
    requires AssetsForShares(s, m.pool).Ok?
    ensures PartsPaid(p, Apply(m, Take(s)), shares + s, k + 1)
  {
    OnePart(p, m, s);
    AddParts(shares, s, Net(p), m.promised + k, Apply(m, Take(s)).promised - m.promised + 1, p.supply);
  }

  lemma {:induction false} DropLastPart(p: PoolTotals, parts: seq<nat>)
    requires parts != [] && AllPriced(p, parts)
    ensures AllPriced(p, parts[..|parts| - 1])
    ensures Takes(parts) == Takes(parts[..|parts| - 1]) + [Take(parts[|parts| - 1])]
    ensures AssetsForShares(parts[|parts| - 1], ApplyAll(Book(p, 0, 0), Takes(parts[..|parts| - 1])).pool).Ok?
  {
    var init := parts[..|parts| - 1];
    forall i | 0 <= i < |init|
      ensures AssetsForShares(init[i], ApplyAll(Book(p, 0, 0), Takes(init[..i])).pool).Ok?
    {
      assert init[..i] == parts[..i];
    }
  }

  lemma {:induction false} ApplySnoc(b: Book, ts: seq<Trade>, t: Trade)
    ensures ApplyAll(b, ts + [t]) == Apply(ApplyAll(b, ts), t)
  {
    assert (ts + [t])[..|ts|] == ts;
  }

  lemma {:induction false} PartsLowerBound(p: PoolTotals, parts: seq<nat>)
    requires p.Unsaturated() && TotalShares(parts) < p.supply && AllPriced(p, parts)
    ensures PartsPaid(p, ApplyAll(Book(p, 0, 0), Takes(parts)), TotalShares(parts), |parts|)
  {
    if parts == [] {
      assert Takes(parts) == [];
    } else {
      var init, s := parts[..|parts| - 1], parts[|parts| - 1];
      hide PartsPaid, AllPriced;
      DropLastPart(p, parts);
      PartsLowerBound(p, init);
      RunKeepsRate(Book(p, 0, 0), Takes(init));
      ApplySnoc(Book(p, 0, 0), Takes(init), Take(s));
      PartsStep(p, ApplyAll(Book(p, 0, 0), Takes(init)), TotalShares(init), |init|, s);
    }
  }

  lemma {:induction false} AddParts(t: nat, s: nat, n: int, x: nat, y: nat, d: nat)
    requires t * n <= x * d && s * n < y * d
    ensures (t + s) * n < (x + y) * d
  {
    assert (t + s) * n == t * n + s * n;
    assert (x + y) * d == x * d + y * d;
  }

  lemma {:induction false} LastPart(s: nat, a0: int, s0: nat, a1: int, s1: nat, owed: nat)
    requires s0 > 0 && s1 > 0
    requires a1 * s0 >= a0 * s1
    requires s * a1 < (owed + 1) * s1
    ensures s * a0 < (owed + 1) * s0
  {
    MulMono(a0 * s1, a1 * s0, s);
    assert s0 > 0 && s * a1 + 1 <= (owed + 1) * s1;
    MulMono(s * a1 + 1, (owed + 1) * s1, s0);
    assert (s * a1 + 1) * s0 == s * a1 * s0 + s0;
    assert a0 * s1 * s == s * a0 * s1;
    assert a1 * s0 * s == s * a1 * s0;
    assert (owed + 1) * s1 * s0 == (owed + 1) * s0 * s1;
    MulCancel(s * a0, (owed + 1) * s0, s1);
  }

  /** Splitting a withdrawal into k parts never beats one call and falls short by under k units. */
  lemma {:induction false} SplitWithdrawal(p: PoolTotals, parts: seq<nat>, whole: nat)
    requires p.Unsaturated() && 0 < TotalShares(parts) < p.supply && AllPriced(p, parts)
    requires AssetsForShares(TotalShares(parts), p) == Ok(whole)
    ensures var end := ApplyAll(Book(p, 0, 0), Takes(parts));
            end.promised <= whole <= end.promised + |parts| - 1
  {
    PartsLowerBound(p, parts);
    RunKeepsRate(Book(p, 0, 0), Takes(parts));
    SplitArithmetic(p, ApplyAll(Book(p, 0, 0), Takes(parts)), TotalShares(parts), |parts|);
  }

  lemma {:induction false} SplitArithmetic(p: PoolTotals, end: Book, s: nat, k: nat)
    requires p.supply > 0 && p.Unsaturated() && k > 0 && s < p.supply && PartsPaid(p, end, s, k)
    requires Net(end.pool) * p.supply >= Net(p) * end.pool.supply
    requires Net(end.pool) == Net(p) - end.promised
    ensures end.promised <= MulDiv(s, Net(p), p.supply) < end.promised + k
  {
    MulDivBounds(s, Net(p), p.supply);
    MulCancel(MulDiv(s, Net(p), p.supply), end.promised + k, p.supply);
    WhatIsLeft(Net(p), p.supply, s, end.promised);
    MulDivLargest(s, Net(p), p.supply, end.promised);
  }

  lemma {:induction false} WhatIsLeft(n: int, supply: nat, s: nat, out: nat)
    requires (n - out) * supply >= n * (supply - s)
    ensures out * supply <= s * n
  {
    assert (n - out) * supply == n * supply - out * supply;
    assert n * (supply - s) == n * supply - s * n;
  }

  // ---- the performance fee ----

  /** The shares minted are worth at most the fee, within one share's worth of it, and holders
      never do worse than without the harvest. `a`, `s` are assets and supply before the rewards. */
  lemma {:induction false} FeeAccuracy(rewards: nat, feeBps: nat, p: PoolTotals, a: nat, m: nat)
    requires p.Assets() == Ok(a) && feeBps <= BPS_DENOM
    requires FeeSharesForRewards(rewards, feeBps, p) == Ok(m)
    requires p.supply > 0
    ensures var f := MulDiv(rewards, feeBps, BPS_DENOM);
            var s := p.supply;
            && f <= rewards
            && m * (a + rewards) <= f * (s + m)
            && (f > 0 && a + rewards > f ==> f * (s + m) < m * (a + rewards) + (a + rewards - f))
            && (a + rewards) * s >= a * (s + m)
  {
    var f := MulDiv(rewards, feeBps, BPS_DENOM);
    var s := p.supply;
    FeeWithinRewards(rewards, feeBps);
    if f > 0 && a + rewards > f {
      var d := a + rewards - f;
      MulDivBounds(f, s, d);
      FeeBracket(a + rewards, f, s, m, d);
      FeeSparesHolders(a, rewards, f, s, m, d);
    }
    HoldersKeep(a, rewards, s, m);
  }

  lemma {:induction false} FeeWithinRewards(rewards: nat, feeBps: nat)
    requires feeBps <= BPS_DENOM
    ensures MulDiv(rewards, feeBps, BPS_DENOM) <= rewards
  {
    MulDivBounds(rewards, feeBps, BPS_DENOM);
    MulMono(feeBps, BPS_DENOM, rewards);
    MulCancelLe(MulDiv(rewards, feeBps, BPS_DENOM), rewards, BPS_DENOM);
  }

  lemma {:induction false} FeeBracket(after: nat, f: nat, s: nat, m: nat, d: nat)
    requires d == after - f && m * d <= f * s < m * d + d
    ensures m * after <= f * (s + m) < m * after + d
  {
    assert m * after == m * d + m * f;
    assert f * (s + m) == f * s + m * f;
  }

  lemma {:induction false} FeeSparesHolders(a: nat, r: nat, f: nat, s: nat, m: nat, d: nat)
    requires f <= r && d == a + r - f && d > 0 && m * d <= f * s
    ensures a * m <= r * s
  {
    assert a * f <= r * d by {
      MulMono(f, r, a);
      assert r * d == r * a + r * (r - f);
      MulMono(0, r - f, r);
    }
    ChainBounds(a, f, r, s, m, d);
  }

  lemma {:induction false} ChainBounds(a: nat, f: nat, r: nat, s: nat, m: nat, d: nat)
    requires d > 0 && m * d <= f * s && a * f <= r * d
    ensures a * m <= r * s
  {
    MulMono(m * d, f * s, a);
    MulMono(a * f, r * d, s);
    Reorder(m, d, a);
    Reorder(f, s, a);
    Reorder(r, d, s);
    assert (a * m) * d <= (r * s) * d;
    MulCancelLe(a * m, r * s, d);
  }

  lemma {:induction false} Reorder(x: int, y: int, z: int)
    ensures x * y * z == (z * x) * y == (x * z) * y
  {
  }

  lemma {:induction false} HoldersKeep(a: nat, r: nat, s: nat, m: nat)
    ensures (a + r) * s == a * s + r * s
    ensures a * (s + m) == a * s + a * m
  {
  }
}
