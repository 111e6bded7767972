/** The contract running against the chain: transactions, what the world does, and runs of both. */
module System {
  import opened Prelude
  import opened Sums
  import opened Types
  import opened Chain
  import opened Engine
  import opened Invariants
  import opened Roster

  /** `swept` is a history variable: the validators whose stored figures a sweep left as it found them
      on the chain, since the sweep cursor was last zero. */
  datatype Sys = Sys(core: Core, chain: Chain, swept: set<Addr>)

  datatype Tx =
    | DoBootstrap(sender: Addr, token: Addr, funds: seq<Coin>)
    | DoDeposit(sender: Addr, funds: seq<Coin>)
    | DoUnbond(from: Addr, shares: nat)
    | DoClaim(who: Addr, ids: Option<seq<nat>>)
    | DoAdvance
    | DoCollect(limit: Option<nat>)
    | DoSync(limit: Option<nat>)
    | DoCompound(limit: Option<nat>)
    | DoSetWeights(sender: Addr, weights: seq<ValidatorInit>)
    | DoSetFee(sender: Addr, bps: nat)
    | DoSetPaused(sender: Addr, paused: bool)
    | DoRebalance(sender: Addr, plan: seq<RedelegateStep>)

  function Coins(funds: seq<Coin>, denom: string): nat {
    if funds == [] then 0
    else Coins(funds[..|funds| - 1], denom) + (if funds[|funds| - 1].denom == denom then funds[|funds| - 1].amount else 0)
  }

  /** The chain as the handler finds it: attached funds already credited, and for a withdrawal the
      shares already moved to the contract by the token. */
  ghost function Credited(c: Core, q: Chain, tx: Tx): Option<Chain> {
    match tx
    case DoBootstrap(_, _, funds) => Some(q.(balance := q.balance + Coins(funds, c.config.bondedDenom)))
    case DoDeposit(_, funds) => Some(q.(balance := q.balance + Coins(funds, c.config.bondedDenom)))
    case DoUnbond(_, n) => if q.ownTokens + n > q.supply then None else Some(q.(ownTokens := q.ownTokens + n))
    case _ => Some(q)
  }

  ghost function Handle(c: Core, q: Chain, tx: Tx): Outcome<Done> {
    match tx
    case DoBootstrap(sender, token, funds) => Bootstrap(c, q, sender, token, funds)
    case DoDeposit(sender, funds) => Deposit(c, q, sender, funds)
    case DoUnbond(from, n) => Unbond(c, q, if c.config.token.Some? then c.config.token.value else from, from, n)
    case DoClaim(who, ids) => ClaimMatured(c, q, who, ids)
    case DoAdvance => AdvanceWindow(c, q)
    case DoCollect(limit) => CollectMatured(c, q, limit)
    case DoSync(limit) => Sync(c, q, limit)
    case DoCompound(limit) => Compound(c, q, limit)
    case DoSetWeights(sender, ws) => SetWeights(c, sender, ws)
    case DoSetFee(sender, bps) => SetPerformanceFee(c, sender, bps)
    case DoSetPaused(sender, paused) => SetPaused(c, sender, paused)
    case DoRebalance(sender, plan) => Rebalance(c, sender, plan)
  }

  /** How far the sweep a transaction performs reaches; nothing for a transaction that is no sweep. */
  function SweepOf(c: Core, tx: Tx): Option<nat> {
    match tx
    case DoSync(limit) => Some(SweepEnd(c, if limit.Some? then limit.value else DEFAULT_SYNC_LIMIT))
    case DoCompound(limit) => Some(SweepEnd(c, if limit.Some? then limit.value else DEFAULT_COMPOUND_LIMIT))
    case _ => None
  }

  /** A transaction commits when its handler and all its messages succeed. */
  ghost predicate Commits(s: Sys, tx: Tx) {
    && Credited(s.core, s.chain, tx).Some?
    && Handle(s.core, Credited(s.core, s.chain, tx).value, tx).Ok?
    && Run(Credited(s.core, s.chain, tx).value, Handle(s.core, Credited(s.core, s.chain, tx).value, tx).value.msgs).Some?
  }

  ghost function Attached(s: Sys, tx: Tx): Chain
    requires Commits(s, tx)
  {
    Credited(s.core, s.chain, tx).value
  }

  ghost function Handled(s: Sys, tx: Tx): Done
    requires Commits(s, tx)
  {
    Handle(s.core, Attached(s, tx), tx).value
  }

  /** What a message delegates to `a`. */
  function DelegatedTo(a: Addr): Msg -> nat {
    (m: Msg) => if m.Delegate? && m.validator == a then m.amount else 0
  }

  /** Entry `v` as a sweep must leave it: re-read on the chain, and for a compound stripped of its
      rewards and credited with what the call restakes there. */
  ghost function ReadOff(v: ValidatorEntry, q: Chain, tx: Tx, ms: seq<Msg>): ValidatorEntry {
    match tx
    case DoSync(_) => v.(bonded := q.BondedAt(v.address), pendingRewards := q.RewardsAt(v.address))
    case DoCompound(_) =>
      var kept := if v.address in q.delegations then q.delegations[v.address].bonded else v.bonded;
      v.(bonded := kept + SumSeq(ms, DelegatedTo(v.address)), pendingRewards := 0)
    case _ => v
  }

  ghost predicate IsRead(s: Sys, tx: Tx, i: nat)
    requires Commits(s, tx)
  {
    && i < |s.core.vals| && i < |Handled(s, tx).core.vals|
    && Handled(s, tx).core.vals[i] == ReadOff(s.core.vals[i], Attached(s, tx), tx, Handled(s, tx).msgs)
  }

  /** The validators whose entries a sweep left as read on the chain, gathered since the cursor was
      last zero. */
  ghost function SweptAfter(s: Sys, tx: Tx): set<Addr>
    requires Commits(s, tx)
  {
    if SweepOf(s.core, tx).None? then s.swept
    else (if s.core.cursor == 0 then {} else s.swept)
         + (set i | 0 <= i < |s.core.vals| && IsRead(s, tx, i) :: s.core.vals[i].address)
  }

  /** Any error reverts everything. */
  ghost function Transact(s: Sys, tx: Tx): Sys {
    if Commits(s, tx) then
      Sys(Handled(s, tx).core, Run(Attached(s, tx), Handled(s, tx).msgs).value, SweptAfter(s, tx))
    else s
  }

  datatype Event =
    | Pass(to: nat)
    | Accrue(validator: Addr, amount: nat)
    | PayOut(validator: Addr)
    | SlashStake(validator: Addr, amount: nat)
    | SlashEntry(i: nat, amount: nat)
    | Release(i: nat)
    | Donate(amount: nat)
    | BurnElsewhere(shares: nat)
    | GiftShares(shares: nat)

  /** What the world may do to the chain between transactions. */
  function Happen(q: Chain, e: Event): Chain {
    match e
    case Pass(to) => if to >= q.now then q.(now := to) else q
    case Accrue(v, n) =>
      if v in q.delegations then q.(delegations := q.delegations[v := Delegation(q.delegations[v].bonded, q.delegations[v].rewards + n)]) else q
    case PayOut(v) => PayRewards(q, v)
    case SlashStake(v, n) => if v in q.delegations then SetBonded(q, v, SatSub(q.delegations[v].bonded, n)) else q
    case SlashEntry(i, n) =>
      if i < |q.queue| && !q.queue[i].released then
        q.(queue := q.queue[i := q.queue[i].(amount := SatSub(q.queue[i].amount, n))]) else q
    case Release(i) =>
      if i < |q.queue| && !q.queue[i].released && q.queue[i].completesAt <= q.now then
        q.(queue := q.queue[i := q.queue[i].(released := true)], balance := q.balance + q.queue[i].amount) else q
    case Donate(n) => q.(balance := q.balance + n)
    case BurnElsewhere(n) => if n + q.ownTokens <= q.supply then q.(supply := q.supply - n) else q
    case GiftShares(n) => if n + q.ownTokens <= q.supply then q.(ownTokens := q.ownTokens + n) else q
  }

  datatype Step = Do(tx: Tx) | World(event: Event)

  ghost function Next(s: Sys, step: Step): Sys {
    match step
    case Do(tx) => Transact(s, tx)
    case World(e) => s.(chain := Happen(s.chain, e))
  }

  ghost function After(s: Sys, steps: seq<Step>): Sys {
    if steps == [] then s else Next(After(s, steps[..|steps| - 1]), steps[|steps| - 1])
  }

  /** A freshly instantiated contract on a chain that has not seen it before. */
  ghost predicate Fresh(s: Sys) {
    && (exists m, sender :: Instantiated(m, sender, s.chain.now) == Ok(s.core))
    && s.chain.delegations == map[]
    && s.chain.queue == []
    && s.chain.ownTokens <= s.chain.supply
    && s.swept == {}
  }

  // ---- what every reachable state satisfies ----

  ghost predicate SweptOk(c: Core, swept: set<Addr>) {
    c.cursor <= |c.vals| && forall i :: 0 <= i < c.cursor ==> c.vals[i].address in swept
  }

  /** The chain releases nothing early. */
  ghost predicate ReleasedInTime(q: Chain) {
    forall i :: 0 <= i < |q.queue| && q.queue[i].released ==> q.queue[i].completesAt <= q.now
  }

  ghost predicate ChainOk(c: Core, q: Chain) {
    && QueueOk(q.queue, c.windows, q.unbondTime)
    && Solvent(c.windows, q.balance)
    && TimeOk(c.windows, q.now)
    && TokensOk(c, q)
    && ReleasedInTime(q)
  }

  ghost predicate SysOk(s: Sys) {
    CoreOk(s.core) && ChainOk(s.core, s.chain) && SweptOk(s.core, s.swept)
  }
}
