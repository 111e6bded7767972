/** What the pool is really worth, how that compares with the assets a caller is priced on, and that
    no message creates or destroys any of it. */
module Worth {
  import opened Prelude
  import opened Sums
  import opened Types
  import opened Math
  import opened Windows
  import opened Validators
  import opened Chain
  import opened Engine
  import opened Invariants
  import opened Maturing
  import opened System
  import opened Reach
  import opened Limits

  // ---- definitions ----

  function StakeAt(q: Chain): ValidatorEntry -> nat {
    (v: ValidatorEntry) => q.BondedAt(v.address) + q.RewardsAt(v.address)
  }

  function Unreleased(e: UnbondEntry): nat { if e.released then 0 else e.amount }

  /** Everything the chain holds for the contract: stake and rewards with the set, balance, and
      SCRT on its way back. */
  function Holdings(vs: seq<ValidatorEntry>, q: Chain): nat {
    SumSeq(vs, StakeAt(q)) + q.balance + SumSeq(q.queue, Unreleased)
  }

  /** Holdings less every debt to leavers; what the shares in circulation stand for. */
  function NetWorth(c: Core, q: Chain): int {
    Holdings(c.vals, q) - c.totals.OwedTotal()
  }

  predicate Awaited(ws: seq<UnbondWindow>, e: UnbondEntry) {
    e.window < |ws| && ws[e.window].state == Unbonding
  }

  /** SCRT the chain has already returned for a window nobody has marked matured. */
  function ReleasedUnmarked(ws: seq<UnbondWindow>): UnbondEntry -> nat {
    (e: UnbondEntry) => if Awaited(ws, e) && e.released then e.amount else 0
  }

  /** SCRT slashed on its way back, for a window nobody has marked matured. */
  function SlashedAway(ws: seq<UnbondWindow>): UnbondEntry -> nat {
    (e: UnbondEntry) => if Awaited(ws, e) then SatSub(e.original, e.amount) else 0
  }

  /** SCRT still on its way back for a window already settled up without it. */
  function LateReturn(ws: seq<UnbondWindow>): UnbondEntry -> nat {
    (e: UnbondEntry) => if !Awaited(ws, e) && !e.released then e.amount else 0
  }

  /** How far the assets a caller is priced on stand above net worth. */
  function Mispricing(ws: seq<UnbondWindow>, queue: seq<UnbondEntry>): int {
    SumSeq(queue, ReleasedUnmarked(ws)) + SumSeq(queue, SlashedAway(ws)) - SumSeq(queue, LateReturn(ws))
  }

  // ---- the pricing identity ----

  function OwedByEntry(ws: seq<UnbondWindow>): UnbondEntry -> nat {
    (e: UnbondEntry) => if Awaited(ws, e) then e.original else 0
  }

  function OwedBelow(ws: seq<UnbondWindow>, n: nat): UnbondEntry -> nat {
    (e: UnbondEntry) => if Awaited(ws, e) && e.window < n then e.original else 0
  }

  function OwedAt(ws: seq<UnbondWindow>, id: nat): UnbondEntry -> nat {
    (e: UnbondEntry) => if Awaited(ws, e) && e.window == id then e.original else 0
  }

  lemma {:induction false} OwedOfWindow(queue: seq<UnbondEntry>, ws: seq<UnbondWindow>, id: nat)
    requires id < |ws| && QueuedFor(queue, ws[id], id)
    ensures SumSeq(queue, OwedAt(ws, id)) == UnbondingOwed(ws[id])
  {
    if ws[id].state == Unbonding {
      SumSame(queue, OwedAt(ws, id), queue, OriginalFor(id));
    } else {
      SumZero(queue, OwedAt(ws, id));
    }
  }

  /** The unbonding bucket, entry by entry. */
  lemma {:induction false} OwedEntryByEntry(queue: seq<UnbondEntry>, ws: seq<UnbondWindow>, n: nat)
    requires n < |ws| && forall id :: 0 <= id < |ws| - 1 ==> QueuedFor(queue, ws[id], id)
    ensures SumSeq(queue, OwedBelow(ws, n)) == SumSeq(ws[..n], UnbondingOwed)
  {
    if n == 0 {
      SumZero(queue, OwedBelow(ws, n));
    } else {
      OwedEntryByEntry(queue, ws, n - 1);
      SumSplit(queue, OwedBelow(ws, n), OwedBelow(ws, n - 1), OwedAt(ws, n - 1));
      OwedOfWindow(queue, ws, n - 1);
      assert ws[..n] == ws[..n - 1] + [ws[n - 1]];
      SumSnoc(ws[..n - 1], ws[n - 1], UnbondingOwed);
    }
  }

  lemma {:induction false} UnbondingBucket(queue: seq<UnbondEntry>, ws: seq<UnbondWindow>, unbondTime: nat)
    requires QueueOk(queue, ws, unbondTime) && ws != [] && ws[|ws| - 1].state == Open
    ensures SumSeq(ws, UnbondingOwed) == SumSeq(queue, OwedByEntry(ws))
  {
    var n := |ws| - 1;
    OwedEntryByEntry(queue, ws, n);
    assert ws == ws[..n] + [ws[n]];
    SumSnoc(ws[..n], ws[n], UnbondingOwed);
    forall i | 0 <= i < |queue| ensures OwedByEntry(ws)(queue[i]) == OwedBelow(ws, n)(queue[i]) {
      assert EntryValid(queue[i], ws, unbondTime);
    }
    SumSame(queue, OwedByEntry(ws), queue, OwedBelow(ws, n));
  }

  function Left(ws: seq<UnbondWindow>): UnbondEntry -> nat {
    (e: UnbondEntry) => if Awaited(ws, e) then e.original else Unreleased(e)
  }

  function Marked(ws: seq<UnbondWindow>): UnbondEntry -> nat {
    (e: UnbondEntry) => if Awaited(ws, e) then SatSub(e.original, e.amount) + (if e.released then e.amount else 0) else 0
  }

  /** Owed for what is awaited, less what is on its way, is what came back or was slashed. */
  lemma {:induction false} EntryAccounts(queue: seq<UnbondEntry>, ws: seq<UnbondWindow>, unbondTime: nat)
    requires QueueOk(queue, ws, unbondTime)
    ensures SumSeq(queue, OwedByEntry(ws)) - SumSeq(queue, Unreleased) == Mispricing(ws, queue)
  {
    forall i | 0 <= i < |queue| ensures Left(ws)(queue[i]) == Marked(ws)(queue[i]) + Unreleased(queue[i]) {
      assert EntryValid(queue[i], ws, unbondTime);
    }
    SumSplit(queue, Left(ws), OwedByEntry(ws), LateReturn(ws));
    SumSplit(queue, Marked(ws), ReleasedUnmarked(ws), SlashedAway(ws));
    SumSplit(queue, Left(ws), Marked(ws), Unreleased);
  }

  lemma {:induction false} RefreshedStake(vs: seq<ValidatorEntry>, q: Chain)
    ensures TotalBonded(Reread(vs, q, 0, |vs|)) + TotalRewards(Reread(vs, q, 0, |vs|)) == SumSeq(vs, StakeAt(q))
  {
    var us := Reread(vs, q, 0, |vs|);
    SumSplit(vs, StakeAt(q), BondedOn(q), RewardsOn(q));
    SumSame(us, Bonded, vs, BondedOn(q));
    SumSame(us, Rewards, vs, RewardsOn(q));
  }

  function BondedOn(q: Chain): ValidatorEntry -> nat {
    (v: ValidatorEntry) => q.BondedAt(v.address)
  }

  /** The assets a deposit or withdrawal is priced on are net worth plus the SCRT returned or slashed
      for windows nobody has marked matured, less what is late, and never below zero. */
  lemma {:induction false} PricingIdentity(c: Core, q: Chain, exclude: nat)
    requires CoreOk(c) && QueueOk(q.queue, c.windows, q.unbondTime) && exclude <= q.balance
    requires Refreshed(c, q).Ok? && PoolOf(Refreshed(c, q).value.totals, q.balance, exclude).Assets().Ok?
    ensures var assets := PoolOf(Refreshed(c, q).value.totals, q.balance, exclude).Assets().value;
            var fair := NetWorth(c, q) - exclude + Mispricing(c.windows, q.queue);
            assets == if fair >= 0 then fair else 0
  {
    hide SlotsOk, LedgerOk, IndexOk, ActiveOk, SetOk, QueueOk, Mispricing;
    assert WindowOk(c.windows, c.openId, c.config.params.unbondWindowSecs, c.config.params.unbondingPeriodSecs);
    UnbondingBucket(q.queue, c.windows, q.unbondTime);
    EntryAccounts(q.queue, c.windows, q.unbondTime);
    RefreshedStake(c.vals, q);
  }

  /** Nothing on the queue has been slashed. */
  ghost predicate Unslashed(q: Chain) {
    forall i :: 0 <= i < |q.queue| ==> q.queue[i].amount == q.queue[i].original
  }

  /** Without slashing in flight, on a chain that returns what is due in time, the one difference is
      SCRT that came back for windows not yet marked matured. */
  lemma {:induction false} OnlyUnmarkedMisprices(c: Core, q: Chain)
    requires CoreOk(c) && ChainOk(c, q) && Unslashed(q) && Prompt(q) && InTime(c, q)
    ensures Mispricing(c.windows, q.queue) == SumSeq(q.queue, ReleasedUnmarked(c.windows))
  {
    forall i | 0 <= i < |q.queue| ensures LateReturn(c.windows)(q.queue[i]) == SlashedAway(c.windows)(q.queue[i]) == 0 {
      if !q.queue[i].released {
        LiveIsUnbonding(c, q, i);
      }
    }
    SumZero(q.queue, LateReturn(c.windows));
    SumZero(q.queue, SlashedAway(c.windows));
  }

  /** And that difference vanishes once everything due has been collected, on a chain that takes at
      least as long as the contract waits. */
  lemma {:induction false} NothingUnmarked(c: Core, q: Chain)
    requires CoreOk(c) && ChainOk(c, q) && NothingDue(c.windows, q.now)
    requires q.unbondTime >= c.config.params.unbondingPeriodSecs
    ensures SumSeq(q.queue, ReleasedUnmarked(c.windows)) == 0
  {
    var p, u := c.config.params.unbondWindowSecs, c.config.params.unbondingPeriodSecs;
    forall i | 0 <= i < |q.queue| ensures ReleasedUnmarked(c.windows)(q.queue[i]) == 0 {
      EntryWindow(q.queue, c.windows, q.unbondTime, i);
      assert WindowOk(c.windows, q.queue[i].window, p, u);
    }
    SumZero(q.queue, ReleasedUnmarked(c.windows));
  }

  /** So a collection with room for everything due leaves deposits and withdrawals fairly priced, if
      nothing was slashed in flight and the chain keeps exactly the period the contract expects. */
  lemma {:induction false} CollectThenFairlyPriced(c: Core, q: Chain, limit: nat)
    requires CoreOk(c) && ChainOk(c, q) && DueCount(c.active, c.windows, q.now) <= Max(limit, 1)
    requires Unslashed(q) && Prompt(q) && q.unbondTime == c.config.params.unbondingPeriodSecs
    ensures Mispricing(MatureDue(c, q.now, q.balance, limit).core.windows, q.queue) == 0
  {
    hide CoreOk, ChainOk, MatureDue, NothingDue, Mispricing, Unslashed, Prompt, DueCount;
    var d := MatureDue(c, q.now, q.balance, limit).core;
    CollectionClears(c, q.now, q.balance, limit);
    MatureKeepsCore(c, q.now, q.balance, limit);
    CollectedChain(c, q, limit);
    OnlyUnmarkedMisprices(d, q);
    NothingUnmarked(d, q);
  }

  /** Collecting leaves the chain's side of the invariants as it was. */
  lemma {:induction false} CollectedChain(c: Core, q: Chain, limit: nat)
    requires CoreOk(c) && ChainOk(c, q)
    ensures ChainOk(MatureDue(c, q.now, q.balance, limit).core, q)
  {
    hide CoreOk, QueueOk, TimeOk, MatureDue, SumSeq;
    MatureKeepsCore(c, q.now, q.balance, limit);
    MatureQueueFrame(c, q.now, q.balance, limit);
    QueueFrame(q.queue, c.windows, MatureDue(c, q.now, q.balance, limit).core.windows, q.unbondTime);
  }

  // ---- messages conserve holdings ----

  /** Two summands that differ at one place only. */
  lemma {:induction false} SumPoint<T>(s: seq<T>, f: T -> nat, g: T -> nat, i: nat)
    requires i < |s| && forall k :: 0 <= k < |s| && k != i ==> f(s[k]) == g(s[k])
    ensures SumSeq(s, g) + f(s[i]) == SumSeq(s, f) + g(s[i])
  {
    var last := |s| - 1;
    if i == last {
      SumSame(s[..last], f, s[..last], g);
    } else {
      SumPoint(s[..last], f, g, i);
    }
  }

  lemma {:induction false} StakeMoves(vs: seq<ValidatorEntry>, q: Chain, r: Chain, v: Addr)
    requires Distinct(Addresses(vs)) && v in Addresses(vs)
    requires forall a :: a != v ==> r.BondedAt(a) == q.BondedAt(a) && r.RewardsAt(a) == q.RewardsAt(a)
    ensures SumSeq(vs, StakeAt(r)) + q.BondedAt(v) + q.RewardsAt(v) == SumSeq(vs, StakeAt(q)) + r.BondedAt(v) + r.RewardsAt(v)
  {
    var i := Find(vs, v);
    forall k | 0 <= k < |vs| && k != i ensures StakeAt(q)(vs[k]) == StakeAt(r)(vs[k]) {
      assert Addresses(vs)[k] != Addresses(vs)[i];
    }
    SumPoint(vs, StakeAt(q), StakeAt(r), i);
  }

  lemma {:induction false} PayKeepsHoldings(vs: seq<ValidatorEntry>, q: Chain, v: Addr)
    requires Distinct(Addresses(vs)) && v in Addresses(vs)
    ensures Holdings(vs, PayRewards(q, v)) == Holdings(vs, q)
  {
    StakeMoves(vs, q, PayRewards(q, v), v);
  }

  lemma {:induction false} BondMovesHoldings(vs: seq<ValidatorEntry>, q: Chain, v: Addr, bonded: nat)
    requires Distinct(Addresses(vs)) && v in Addresses(vs) && q.RewardsAt(v) == 0
    ensures Holdings(vs, SetBonded(q, v, bonded)) + q.BondedAt(v) == Holdings(vs, q) + bonded
  {
    StakeMoves(vs, q, SetBonded(q, v, bonded), v);
  }

  /** The validators a message deals with are in the set. */
  predicate Within(m: Msg, addresses: seq<Addr>) {
    match m
    case Delegate(v, _) => v in addresses
    case Undelegate(v, _, _) => v in addresses
    case WithdrawReward(v) => v in addresses
    case Redelegate(a, b, _) => a in addresses && b in addresses
    case _ => true
  }

  lemma {:induction false} SpendingCosts(vs: seq<ValidatorEntry>, q: Chain, n: nat)
    requires n <= q.balance
    ensures Holdings(vs, q.(balance := q.balance - n)) + n == Holdings(vs, q)
  {
    SumSame(vs, StakeAt(q), vs, StakeAt(q.(balance := q.balance - n)));
  }

  lemma {:induction false} QueueingAdds(vs: seq<ValidatorEntry>, q: Chain, e: UnbondEntry)
    ensures Holdings(vs, q.(queue := q.queue + [e])) == Holdings(vs, q) + Unreleased(e)
  {
    SumSame(vs, StakeAt(q), vs, StakeAt(q.(queue := q.queue + [e])));
    SumSnoc(q.queue, e, Unreleased);
  }

  lemma {:induction false} DelegateKeepsHoldings(vs: seq<ValidatorEntry>, q: Chain, v: Addr, n: nat)
    requires Distinct(Addresses(vs)) && v in Addresses(vs) && Exec(q, Delegate(v, n)).Some?
    ensures Holdings(vs, Exec(q, Delegate(v, n)).value) == Holdings(vs, q)
  {
    hide Holdings;
    var p := PayRewards(q, v);
    PayKeepsHoldings(vs, q, v);
    SpendingCosts(vs, p, n);
    BondMovesHoldings(vs, p.(balance := p.balance - n), v, p.BondedAt(v) + n);
  }

  lemma {:induction false} UndelegateKeepsHoldings(vs: seq<ValidatorEntry>, q: Chain, v: Addr, n: nat, w: nat)
    requires Distinct(Addresses(vs)) && v in Addresses(vs) && Exec(q, Undelegate(v, n, w)).Some?
    ensures Holdings(vs, Exec(q, Undelegate(v, n, w)).value) == Holdings(vs, q)
  {
    hide Holdings, LiveEntries;
    var p := PayRewards(q, v);
    var e := UnbondEntry(v, n, n, q.now + q.unbondTime, w, false);
    PayKeepsHoldings(vs, q, v);
    QueueingAdds(vs, p, e);
    BondMovesHoldings(vs, p.(queue := p.queue + [e]), v, p.BondedAt(v) - n);
  }

  lemma {:induction false} RedelegateKeepsHoldings(vs: seq<ValidatorEntry>, q: Chain, a: Addr, b: Addr, n: nat)
    requires Distinct(Addresses(vs)) && a in Addresses(vs) && b in Addresses(vs) && Exec(q, Redelegate(a, b, n)).Some?
    ensures Holdings(vs, Exec(q, Redelegate(a, b, n)).value) == Holdings(vs, q)
  {
    hide Holdings;
    var p := PayRewards(PayRewards(q, a), b);
    PayKeepsHoldings(vs, q, a);
    PayKeepsHoldings(vs, PayRewards(q, a), b);
    BondMovesHoldings(vs, p, a, p.BondedAt(a) - n);
    BondMovesHoldings(vs, SetBonded(p, a, p.BondedAt(a) - n), b, p.BondedAt(b) + n);
  }

  /** A message moves value about but only a transfer out takes any away. */
  lemma {:induction false} ExecKeepsHoldings(vs: seq<ValidatorEntry>, q: Chain, m: Msg)
    requires Distinct(Addresses(vs)) && Within(m, Addresses(vs)) && Exec(q, m).Some?
    ensures Holdings(vs, Exec(q, m).value) + Sent(m) == Holdings(vs, q)
  {
    match m {
      case Delegate(v, n) => DelegateKeepsHoldings(vs, q, v, n);
      case Undelegate(v, n, w) => UndelegateKeepsHoldings(vs, q, v, n, w);
      case Redelegate(a, b, n) => RedelegateKeepsHoldings(vs, q, a, b, n);
      case WithdrawReward(v) => PayKeepsHoldings(vs, q, v);
      case _ => SumSame(vs, StakeAt(q), vs, StakeAt(Exec(q, m).value));
    }
  }

  ghost predicate AllWithin(ms: seq<Msg>, addresses: seq<Addr>) {
    forall i :: 0 <= i < |ms| ==> Within(ms[i], addresses)
  }

  /** Over a whole message list, holdings fall by exactly what is sent out. */
  lemma {:induction false} RunKeepsHoldings(vs: seq<ValidatorEntry>, q: Chain, ms: seq<Msg>)
    requires Distinct(Addresses(vs)) && AllWithin(ms, Addresses(vs)) && Run(q, ms).Some?
    ensures Holdings(vs, Run(q, ms).value) + SumSeq(ms, Sent) == Holdings(vs, q)
    decreases |ms|
  {
    if ms != [] {
      ExecKeepsHoldings(vs, q, ms[0]);
      RunKeepsHoldings(vs, Exec(q, ms[0]).value, ms[1..]);
      SumCons(ms, Sent);
    }
  }

  /** Holdings depend on the set's addresses only. */
  lemma {:induction false} HoldingsByAddress(vs: seq<ValidatorEntry>, us: seq<ValidatorEntry>, q: Chain)
    requires Addresses(vs) == Addresses(us)
    ensures Holdings(vs, q) == Holdings(us, q)
  {
    forall i | 0 <= i < |vs| ensures StakeAt(q)(vs[i]) == StakeAt(q)(us[i]) {
      assert Addresses(vs)[i] == Addresses(us)[i];
    }
    SumSame(vs, StakeAt(q), us, StakeAt(q));
  }
}
