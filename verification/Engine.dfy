/** What each entry point does to the contract's storage, and which messages it emits
    (contract.rs). The class in Contract.dfy runs these step by step; the theorems speak of them
    here. An error reverts, so only the successful outcome carries a state. */
module Engine {
  import opened Prelude
  import opened Sums
  import opened Types
  import opened Math
  import opened Windows
  import opened Validators
  import opened Chain

  /** Everything the contract stores. Window ids are handed out as 0, 1, 2, … and no window is ever
      dropped from storage, so the window table is a sequence and the next id is its length. */
  datatype Core = Core(
    config: Config, allowlist: seq<Addr>, vals: seq<ValidatorEntry>, totals: TotalsCache,
    windows: seq<UnbondWindow>, openId: nat, active: seq<nat>, cursor: nat,
    claims: map<ClaimKey, ClaimRecord>, index: map<Addr, seq<nat>>)

  datatype Done = Done(core: Core, msgs: seq<Msg>)

  datatype InstantiateMsg = InstantiateMsg(
    manager: Option<Addr>, limits: ManagerLimits, allowlist: seq<Addr>, treasury: Addr,
    bondedDenom: string, validators: seq<ValidatorInit>, params: ProtocolParams)

  // ---- instantiation ----

  function ValidateParams(p: ProtocolParams): Outcome<()> {
    if p.performanceFeeBps > MAX_PERFORMANCE_FEE_BPS then Err(FeeTooHigh)
    else if p.maxUnbondEntries == 0 || p.maxUnbondEntries >= CHAIN_MAX_UNBOND_ENTRIES then Err(BadEntryCeiling)
    else if RequiredEntrySlots(p.unbondingPeriodSecs, p.unbondWindowSecs) > p.maxUnbondEntries then Err(WindowTooShort)
    else Ok(())
  }

  function ValidateLimits(l: ManagerLimits): Outcome<()> {
    if l.maxPerformanceFeeBps > MAX_PERFORMANCE_FEE_BPS || l.maxValidatorWeightBps > MAX_VALIDATOR_WEIGHT_BPS
       || l.maxValidatorWeightBps == 0 then Err(LimitsExceedCode)
    else Ok(())
  }

  function InitialSet(ws: seq<ValidatorInit>): seq<ValidatorEntry> {
    seq(|ws|, i requires 0 <= i < |ws| => FreshEntry(ws[i]))
  }

  /** What an instantiation must pass, in the order it is checked. */
  ghost function InstantiateVerdict(m: InstantiateMsg): Outcome<()> {
    var _ :- ValidateParams(m.params);
    var _ :- SetVerdict(m.validators);
    if |m.allowlist| > MAX_VALIDATORS then Err(TooManyValidators) else
      var _ :- ValidateLimits(m.limits);
      var _ :- ManagedVerdict(m.validators, m.allowlist, m.limits.maxValidatorWeightBps);
      if m.params.performanceFeeBps > m.limits.maxPerformanceFeeBps then Err(FeeTooHigh) else Ok(())
  }

  function FirstConfig(m: InstantiateMsg, sender: Addr): Config {
    Config(if m.manager.Some? then m.manager.value else sender, Some(sender), m.limits,
           m.treasury, None, m.bondedDenom, m.params, false)
  }

  ghost function Instantiated(m: InstantiateMsg, sender: Addr, now: nat): Outcome<Core> {
    var _ :- InstantiateVerdict(m);
    Ok(Core(FirstConfig(m, sender), m.allowlist, InitialSet(m.validators), TotalsCache(0, 0, 0, 0, 0, 0, now),
            [OpenWindow(0, now, m.params.unbondWindowSecs)], 0, [], 0, map[], map[]))
  }

  // ---- reading the chain ----

  function ReadDelegation(v: ValidatorEntry, q: Chain): ValidatorEntry {
    v.(bonded := q.BondedAt(v.address), pendingRewards := q.RewardsAt(v.address))
  }

  /** Entries in `[lo, hi)` re-read, the rest as they were. */
  function Reread(vs: seq<ValidatorEntry>, q: Chain, lo: nat, hi: nat): (r: seq<ValidatorEntry>)
    ensures |r| == |vs|
    ensures forall i :: 0 <= i < |vs| ==> r[i] == if lo <= i < hi then ReadDelegation(vs[i], q) else vs[i]
  {
    seq(|vs|, i requires 0 <= i < |vs| => if lo <= i < hi then ReadDelegation(vs[i], q) else vs[i])
  }

  function SupplyOr(c: Core, q: Chain): nat {
    if c.config.token.Some? then q.supply else c.totals.totalSupply
  }

  ghost function Refreshed(c: Core, q: Chain): Outcome<Core> {
    if c.vals == [] then Err(EmptyValidatorSet) else
      var vs := Reread(c.vals, q, 0, |c.vals|);
      Ok(c.(vals := vs,
            totals := c.totals.(totalBonded := TotalBonded(vs), pendingRewards := TotalRewards(vs),
                                totalSupply := SupplyOr(c, q), lastSyncTime := q.now)))
  }

  function PoolOf(t: TotalsCache, balance: nat, exclude: nat): PoolTotals {
    PoolTotals(t.totalBonded, t.pendingRewards, SatSub(balance, exclude), t.OwedBacked(), t.totalSupply)
  }

  function ExactFunds(funds: seq<Coin>, denom: string): Outcome<nat> {
    if |funds| == 1 && funds[0].denom == denom && funds[0].amount != 0 then Ok(funds[0].amount)
    else Err(WrongDenom)
  }

  // ---- closing a window ----

  /** Stake and counters after the legs are taken in turn. */
  ghost function Drawn(vs: seq<ValidatorEntry>, legs: seq<UnbondLeg>): (r: seq<ValidatorEntry>)
    ensures |r| == |vs|
  {
    if legs == [] then vs else
      var r := Drawn(vs, legs[..|legs| - 1]);
      var leg := legs[|legs| - 1];
      if leg.index < |r| then
        r[leg.index := r[leg.index].(bonded := SatSub(r[leg.index].bonded, leg.amount),
                                     activeUnbondEntries := Min(r[leg.index].activeUnbondEntries + 1, 255))]
      else r
  }

  ghost function LegAddress(vs: seq<ValidatorEntry>, leg: UnbondLeg): Addr {
    if leg.index < |vs| then vs[leg.index].address else ""
  }

  ghost function LegAddresses(vs: seq<ValidatorEntry>, legs: seq<UnbondLeg>): seq<Addr> {
    seq(|legs|, i requires 0 <= i < |legs| => LegAddress(vs, legs[i]))
  }

  ghost function LegMsgs(vs: seq<ValidatorEntry>, legs: seq<UnbondLeg>, window: nat): seq<Msg> {
    seq(|legs|, i requires 0 <= i < |legs| => Undelegate(LegAddress(vs, legs[i]), legs[i].amount, window))
  }

  ghost function ClosedOpen(c: Core, now: nat): Outcome<Done> {
    if c.openId >= |c.windows| then Err(WindowNotOpen) else
      var w := c.windows[c.openId];
      var legs :- Plan(c.vals, w.scrtOwed, c.config.params.maxUnbondEntries);
      var closed := Close(w.(validatorsUsed := w.validatorsUsed + LegAddresses(c.vals, legs)), now,
                          c.config.params.unbondingPeriodSecs);
      Ok(Done(
        c.(vals := Drawn(c.vals, legs),
           totals := c.totals.(totalBonded := SatSub(c.totals.totalBonded, w.scrtOwed),
                               scrtOwedOpen := SatSub(c.totals.scrtOwedOpen, w.scrtOwed),
                               scrtOwedUnbonding := c.totals.scrtOwedUnbonding + w.scrtOwed),
           windows := c.windows[c.openId := closed] + [OpenWindow(|c.windows|, now, c.config.params.unbondWindowSecs)],
           openId := |c.windows|,
           active := if w.scrtOwed != 0 then c.active + [c.openId] else c.active),
        LegMsgs(c.vals, legs, c.openId)))
  }

  /** The opportunistic close that rides on deposits and withdrawals. */
  ghost function ClosedIfOverdue(c: Core, now: nat): Outcome<Done> {
    if c.openId >= |c.windows| then Err(WindowNotOpen) else
      var w := c.windows[c.openId];
      if AssertClosable(w, now).Err? then Ok(Done(c, []))
      else if Plan(c.vals, w.scrtOwed, c.config.params.maxUnbondEntries).Err? then Ok(Done(c, []))
      else ClosedOpen(c, now)
  }

  ghost function AdvanceWindow(c: Core, q: Chain): Outcome<Done> {
    if c.openId >= |c.windows| then Err(WindowNotOpen) else
      var _ :- AssertClosable(c.windows[c.openId], q.now);
      ClosedOpen(c, q.now)
  }

  // ---- deposits and withdrawals ----

  ghost function Bootstrap(c: Core, q: Chain, sender: Addr, tokenAddr: Addr, funds: seq<Coin>): Outcome<Done> {
    if c.config.deployer.None? then Err(TokenAlreadyRegistered)
    else if c.config.deployer.value != sender then Err(Unauthorized)
    else if c.config.token.Some? then Err(TokenAlreadyRegistered)
    else
      var seed :- ExactFunds(funds, c.config.bondedDenom);
      if seed < MIN_BOOTSTRAP_SEED then Err(DepositTooSmall) else
        var i :- Selected(c.vals, seed);
        Ok(Done(
          c.(config := c.config.(deployer := None, token := Some(tokenAddr)),
             vals := c.vals[i := c.vals[i].(bonded := c.vals[i].bonded + seed)],
             totals := c.totals.(totalBonded := c.totals.totalBonded + seed,
                                 totalSupply := c.totals.totalSupply + seed, lastSyncTime := q.now)),
          [RegisterReceive, Mint(SELF, seed), Delegate(c.vals[i].address, seed)]))
  }

  /** A refreshed core after `amount` is delegated to validator `i` against `shares` new shares. */
  ghost function Placed(c: Core, i: nat, amount: nat, shares: nat): Core
    requires i < |c.vals|
  {
    c.(vals := c.vals[i := c.vals[i].(bonded := c.vals[i].bonded + amount)],
       totals := c.totals.(totalBonded := c.totals.totalBonded + amount,
                           totalSupply := c.totals.totalSupply + shares))
  }

  ghost function Deposit(c: Core, q: Chain, sender: Addr, funds: seq<Coin>): Outcome<Done> {
    if c.config.paused then Err(Paused)
    else if c.config.token.None? then Err(TokenNotRegistered)
    else
      var deposit :- ExactFunds(funds, c.config.bondedDenom);
      if deposit < c.config.params.minDeposit then Err(DepositTooSmall) else
        var r :- Refreshed(c, q);
        var shares :- SharesForDeposit(deposit, PoolOf(r.totals, q.balance, deposit));
        if shares == 0 then Err(ZeroShares)
        else if r.totals.totalSupply + shares > MAX_TOTAL_SUPPLY then Err(CapExceeded)
        else
          var i :- Selected(r.vals, deposit);
          var d :- ClosedIfOverdue(Placed(r, i, deposit, shares), q.now);
          Ok(Done(d.core, [Mint(sender, shares), Delegate(r.vals[i].address, deposit)] + d.msgs))
  }

  /** The caller's claim on a window, merged with any already held against it. */
  ghost function Claimed(c: Core, who: Addr, window: nat, shares: nat, owed: nat): Core {
    var k := ClaimKey(who, window);
    if k in c.claims then
      c.(claims := c.claims[k := c.claims[k].(sharesBurned := c.claims[k].sharesBurned + shares,
                                              scrtOwed := c.claims[k].scrtOwed + owed)])
    else
      c.(claims := c.claims[k := ClaimRecord(window, shares, owed, false)],
         index := c.index[who := IndexFor(c.index, who) + [window]])
  }

  function IndexFor(index: map<Addr, seq<nat>>, who: Addr): seq<nat> {
    if who in index then index[who] else []
  }

  /** A refreshed core after `who` trades `shares` for a promise of `owed` in the open window. */
  ghost function Promised(c: Core, who: Addr, shares: nat, owed: nat): Core
    requires c.openId < |c.windows|
  {
    var w := c.windows[c.openId];
    var c' := Claimed(c, who, c.openId, shares, owed);
    c'.(windows := c.windows[c.openId := w.(sharesBurned := w.sharesBurned + shares, scrtOwed := w.scrtOwed + owed)],
        totals := c.totals.(totalSupply := SatSub(c.totals.totalSupply, shares),
                            scrtOwedOpen := c.totals.scrtOwedOpen + owed))
  }

  ghost function Unbond(c: Core, q: Chain, sender: Addr, from: Addr, amount: nat): Outcome<Done> {
    if c.config.token.None? then Err(TokenNotRegistered)
    else if sender != c.config.token.value then Err(Unauthorized)
    else if amount == 0 then Err(ZeroAmount)
    else
      var r :- Refreshed(c, q);
      var owed :- AssetsForShares(amount, PoolOf(r.totals, q.balance, 0));
      if owed == 0 then Err(ZeroShares)
      else if r.openId >= |r.windows| || r.windows[r.openId].state != Open then Err(WindowNotOpen)
      else
        var d :- ClosedIfOverdue(Promised(r, from, amount, owed), q.now);
        Ok(Done(d.core, [Burn(amount)] + d.msgs))
  }

  // ---- maturing windows ----

  datatype Maturing = Maturing(
    windows: seq<UnbondWindow>, matured: seq<nat>, promised: nat, realised: nat, release: seq<Addr>)

  /** Mature the due windows among `ids` in order, each taking what the balance leaves it. */
  ghost function MatureFrom(ids: seq<nat>, ws: seq<UnbondWindow>, now: nat, balance: nat, spoken: nat,
        room: nat): Maturing
    decreases |ids|
  {
    if ids == [] || room == 0 then Maturing(ws, [], 0, 0, [])
    else if ids[0] < |ws| && IsMature(ws[ids[0]], now) then
      var w := Mature(ws[ids[0]], SatSub(balance, spoken));
      var r := MatureFrom(ids[1..], ws[ids[0] := w], now, balance, spoken + w.Payable(), room - 1);
      Maturing(r.windows, [ids[0]] + r.matured, w.scrtOwed + r.promised, w.Payable() + r.realised, w.validatorsUsed + r.release)
    else MatureFrom(ids[1..], ws, now, balance, spoken, room)
  }

  /** What window `id` still owes out of the balance. */
  function SpokenAt(ws: seq<UnbondWindow>): nat -> nat {
    (id: nat) => if id < |ws| && ws[id].state == Matured then ws[id].Outstanding() else 0
  }

  function ReleaseOne(vs: seq<ValidatorEntry>, a: Addr): (r: seq<ValidatorEntry>)
    ensures |r| == |vs|
  {
    var i := Find(vs, a);
    if i < |vs| then vs[i := vs[i].(activeUnbondEntries := SatSub(vs[i].activeUnbondEntries, 1))] else vs
  }

  ghost function Released(vs: seq<ValidatorEntry>, names: seq<Addr>): (r: seq<ValidatorEntry>)
    ensures |r| == |vs|
    decreases |names|
  {
    if names == [] then vs else Released(ReleaseOne(vs, names[0]), names[1..])
  }

  datatype Collected = Collected(core: Core, matured: seq<nat>)

  ghost function MatureDue(c: Core, now: nat, balance: nat, limit: nat): Collected {
    var m := MatureFrom(c.active, c.windows, now, balance, SumSeq(c.active, SpokenAt(c.windows)), Max(limit, 1));
    if m.matured == [] then Collected(c, []) else
      Collected(
        c.(windows := m.windows,
           vals := Released(c.vals, m.release),
           totals := c.totals.(scrtOwedUnbonding := SatSub(c.totals.scrtOwedUnbonding, m.promised),
                               scrtOwedMatured := c.totals.scrtOwedMatured + m.realised)),
        m.matured)
  }

  ghost function CollectMatured(c: Core, q: Chain, limit: Option<nat>): Outcome<Done> {
    Ok(Done(MatureDue(c, q.now, q.balance, if limit.Some? then limit.value else DEFAULT_SYNC_LIMIT).core, []))
  }

  // ---- claims ----

  datatype Claiming = Claiming(
    claims: map<ClaimKey, ClaimRecord>, windows: seq<UnbondWindow>, paid: nat, settled: seq<nat>)

  /** A matured window after one more payout. */
  function PaidOut(w: UnbondWindow, payout: nat): UnbondWindow {
    var w' := w.(scrtClaimed := w.scrtClaimed + payout);
    if IsDrained(w') then w'.(state := Settled) else w'
  }

  ghost function ClaimFrom(who: Addr, ids: seq<nat>, claims: map<ClaimKey, ClaimRecord>,
        ws: seq<UnbondWindow>): Outcome<Claiming>
    decreases |ids|
  {
    if ids == [] then Ok(Claiming(claims, ws, 0, [])) else
      var id, k := ids[0], ClaimKey(who, ids[0]);
      if k !in claims || claims[k].claimed then ClaimFrom(who, ids[1..], claims, ws)
      else if id >= |ws| then Err(WindowNotOpen)
      else if ws[id].state == Unbonding then Err(WindowNotMatured)
      else if ws[id].state != Matured then ClaimFrom(who, ids[1..], claims, ws)
      else
        var payout := PayoutForClaim(ws[id], claims[k].scrtOwed);
        var w := PaidOut(ws[id], payout);
        var r :- ClaimFrom(who, ids[1..], claims[k := claims[k].(claimed := true)], ws[id := w]);
        Ok(Claiming(r.claims, r.windows, payout + r.paid, (if w.state == Settled then [id] else []) + r.settled))
  }

  function Without(ids: seq<nat>, gone: seq<nat>): seq<nat> {
    if ids == [] then []
    else Without(ids[..|ids| - 1], gone) + (if ids[|ids| - 1] in gone then [] else [ids[|ids| - 1]])
  }

  ghost function ClaimMatured(c: Core, q: Chain, who: Addr, ids: Option<seq<nat>>): Outcome<Done> {
    var m := MatureDue(c, q.now, q.balance, U32_MAX).core;
    var wanted := if ids.Some? then ids.value else IndexFor(m.index, who);
    var r :- ClaimFrom(who, wanted, m.claims, m.windows);
    if r.paid == 0 then Err(NothingToClaim) else
      Ok(Done(
        m.(claims := r.claims, windows := r.windows,
           totals := m.totals.(scrtOwedMatured := SatSub(m.totals.scrtOwedMatured, r.paid)),
           active := Without(m.active, r.settled)),
        [Send(who, r.paid)]))
  }

  /** What an account can collect right now, summed over its claim index. */
  function ClaimableAt(who: Addr, claims: map<ClaimKey, ClaimRecord>, ws: seq<UnbondWindow>): nat -> nat {
    (id: nat) =>
      var k := ClaimKey(who, id);
      if k in claims && !claims[k].claimed && id < |ws| && ws[id].state == Matured
      then PayoutForClaim(ws[id], claims[k].scrtOwed) else 0
  }

  ghost function TotalClaimableNow(c: Core, who: Addr): nat {
    SumSeq(IndexFor(c.index, who), ClaimableAt(who, c.claims, c.windows))
  }

  // ---- upkeep ----

  function SweepEnd(c: Core, limit: nat): nat { Min(c.cursor + Max(limit, 1), |c.vals|) }

  function NextCursor(c: Core, end: nat): nat { if end >= |c.vals| then 0 else end }

  ghost function Sync(c: Core, q: Chain, limit: Option<nat>): Outcome<Done> {
    if c.vals == [] then Err(EmptyValidatorSet)
    else if c.cursor > |c.vals| then Err(Overflow)
    else
      var end := SweepEnd(c, if limit.Some? then limit.value else DEFAULT_SYNC_LIMIT);
      var vs := Reread(c.vals, q, c.cursor, end);
      var swept := end >= |c.vals|;
      Ok(Done(
        c.(vals := vs, cursor := NextCursor(c, end),
           totals := c.totals.(totalBonded := TotalBonded(vs), pendingRewards := TotalRewards(vs),
                               totalSupply := if swept then SupplyOr(c, q) else c.totals.totalSupply,
                               lastSyncTime := if swept then q.now else c.totals.lastSyncTime)),
        []))
  }

  /** One validator as `Compound` leaves it before restaking: a missing delegation keeps the cached
      stake. */
  function Harvested(v: ValidatorEntry, q: Chain): ValidatorEntry {
    v.(bonded := if v.address in q.delegations then q.delegations[v.address].bonded else v.bonded,
       pendingRewards := 0)
  }

  function HarvestedSet(vs: seq<ValidatorEntry>, q: Chain, lo: nat, hi: nat): (r: seq<ValidatorEntry>)
    ensures |r| == |vs|
    ensures forall i :: 0 <= i < |vs| ==> r[i] == if lo <= i < hi then Harvested(vs[i], q) else vs[i]
  {
    seq(|vs|, i requires 0 <= i < |vs| => if lo <= i < hi then Harvested(vs[i], q) else vs[i])
  }

  function RewardsOn(q: Chain): ValidatorEntry -> nat {
    (v: ValidatorEntry) => q.RewardsAt(v.address)
  }

  ghost function WithdrawMsgs(vs: seq<ValidatorEntry>, q: Chain): seq<Msg> {
    if vs == [] then []
    else WithdrawMsgs(vs[..|vs| - 1], q) +
         (if q.RewardsAt(vs[|vs| - 1].address) == 0 then [] else [WithdrawReward(vs[|vs| - 1].address)])
  }

  /** Restaking a harvest: where it goes, and the fee shares it mints. */
  datatype Restake = Restake(vals: seq<ValidatorEntry>, msgs: seq<Msg>, fee: nat)

  ghost function Restaked(c: Core, vs: seq<ValidatorEntry>, balance: nat, harvested: nat): Outcome<Restake> {
    if harvested == 0 then Ok(Restake(vs, [], 0)) else
      var pool := PoolTotals(TotalBonded(vs), TotalRewards(vs), balance, c.totals.OwedBacked(), c.totals.totalSupply);
      var i :- Selected(vs, harvested);
      var fee :- FeeSharesForRewards(harvested, c.config.params.performanceFeeBps, pool);
      if fee != 0 && c.config.token.None? then Err(TokenNotRegistered)
      else Ok(Restake(vs[i := vs[i].(bonded := vs[i].bonded + harvested)],
                      [Delegate(vs[i].address, harvested)] + (if fee != 0 then [Mint(c.config.treasury, fee)] else []),
                      fee))
  }

  ghost function Compound(c: Core, q: Chain, limit: Option<nat>): Outcome<Done> {
    if c.vals == [] then Err(EmptyValidatorSet)
    else if c.cursor > |c.vals| then Err(Overflow)
    else
      var end := SweepEnd(c, if limit.Some? then limit.value else DEFAULT_COMPOUND_LIMIT);
      var slice := c.vals[c.cursor..end];
      var r :- Restaked(c, HarvestedSet(c.vals, q, c.cursor, end), q.balance, SumSeq(slice, RewardsOn(q)));
      var swept := end >= |c.vals|;
      Ok(Done(
        c.(vals := r.vals, cursor := NextCursor(c, end),
           totals := c.totals.(totalBonded := TotalBonded(r.vals), pendingRewards := TotalRewards(r.vals),
                               totalSupply := c.totals.totalSupply + r.fee,
                               lastSyncTime := if swept then q.now else c.totals.lastSyncTime)),
        WithdrawMsgs(slice, q) + r.msgs))
  }

  // ---- the manager ----

  ghost function SetWeights(c: Core, sender: Addr, ws: seq<ValidatorInit>): Outcome<Done> {
    if sender != c.config.manager then Err(Unauthorized) else
      var _ :- ManagedVerdict(ws, c.allowlist, c.config.limits.maxValidatorWeightBps);
      Ok(Done(c.(vals := WeightsApplied(c.vals, ws)), []))
  }

  ghost function SetPerformanceFee(c: Core, sender: Addr, bps: nat): Outcome<Done> {
    if sender != c.config.manager then Err(Unauthorized)
    else if bps > c.config.limits.maxPerformanceFeeBps then Err(FeeTooHigh)
    else Ok(Done(c.(config := c.config.(params := c.config.params.(performanceFeeBps := bps))), []))
  }

  ghost function SetPaused(c: Core, sender: Addr, paused: bool): Outcome<Done> {
    if sender != c.config.manager then Err(Unauthorized)
    else Ok(Done(c.(config := c.config.(paused := paused)), []))
  }

  /** Move `amount` of cached stake from `i` to `j`, which may coincide. */
  function Moved(vs: seq<ValidatorEntry>, i: nat, j: nat, amount: nat): (r: seq<ValidatorEntry>)
    requires i < |vs| && j < |vs| && amount <= vs[i].bonded
    ensures |r| == |vs|
  {
    var out := vs[i := vs[i].(bonded := vs[i].bonded - amount)];
    out[j := out[j].(bonded := out[j].bonded + amount)]
  }

  ghost function RebalanceFrom(vs: seq<ValidatorEntry>, plan: seq<RedelegateStep>,
        allowlist: seq<Addr>): Outcome<(seq<ValidatorEntry>, seq<Msg>)>
    decreases |plan|
  {
    if plan == [] then Ok((vs, [])) else
      var s := plan[0];
      if s.dst !in allowlist then Err(ValidatorNotAllowed) else
        var i, j := Find(vs, s.src), Find(vs, s.dst);
        if i == |vs| then Err(UnknownValidator)
        else if vs[i].bonded < s.amount then Err(InsufficientBalance)
        else if j == |vs| then Err(UnknownValidator)
        else
          var r :- RebalanceFrom(Moved(vs, i, j, s.amount), plan[1..], allowlist);
          Ok((r.0, [Redelegate(s.src, s.dst, s.amount)] + r.1))
  }

  ghost function Rebalance(c: Core, sender: Addr, plan: seq<RedelegateStep>): Outcome<Done> {
    if sender != c.config.manager then Err(Unauthorized) else
      var r :- RebalanceFrom(c.vals, plan, c.allowlist);
      Ok(Done(c.(vals := r.0), r.1))
  }
}
