/** What every reachable state satisfies, one predicate per concern. */
module Invariants {
  import opened Prelude
  import opened Sums
  import opened Types
  import opened Math
  import opened Validators
  import opened Chain
  import opened Engine

  // ---- parameters ----

  ghost predicate ConfigOk(c: Core) {
    var p, l := c.config.params, c.config.limits;
    && 0 < p.maxUnbondEntries < CHAIN_MAX_UNBOND_ENTRIES
    && RequiredEntrySlots(p.unbondingPeriodSecs, p.unbondWindowSecs) <= p.maxUnbondEntries
    && 0 < l.maxValidatorWeightBps <= MAX_VALIDATOR_WEIGHT_BPS
    && p.performanceFeeBps <= l.maxPerformanceFeeBps <= MAX_PERFORMANCE_FEE_BPS
    && |c.allowlist| <= MAX_VALIDATORS
  }

  // ---- the validator set ----

  function ActiveWeight(v: ValidatorEntry): nat { if v.status == Active then v.weightBps else 0 }

  ghost predicate EntryOk(v: ValidatorEntry, allowlist: seq<Addr>, maxBps: nat) {
    && v.address in allowlist
    && v.weightBps <= maxBps
    && (v.status != Active ==> v.weightBps == 0)
  }

  ghost predicate SetOk(vs: seq<ValidatorEntry>, allowlist: seq<Addr>, maxBps: nat) {
    && Distinct(Addresses(vs))
    && (forall i :: 0 <= i < |vs| ==> EntryOk(vs[i], allowlist, maxBps))
    && SumSeq(vs, ActiveWeight) == BPS_DENOM
  }

  ghost predicate StakeOk(t: TotalsCache, vs: seq<ValidatorEntry>) {
    t.totalBonded == TotalBonded(vs) && t.pendingRewards == TotalRewards(vs)
  }

  // ---- windows ----

  predicate InFlight(s: WindowState) { s == Unbonding || s == Matured }

  ghost predicate WindowShape(w: UnbondWindow) {
    match w.state
    case Open => w.scrtRealised.None? && w.scrtClaimed == 0 && w.validatorsUsed == []
    case Unbonding => w.scrtRealised.None? && w.scrtClaimed == 0 && w.scrtOwed > 0
    case Matured =>
      && w.scrtRealised.Some? && w.Payable() <= w.scrtOwed && w.scrtOwed > 0
      && (w.Payable() > 0 ==> w.scrtClaimed < w.Payable())
    case Settled => w.scrtRealised.Some? && w.Payable() <= w.scrtOwed && w.Payable() <= w.scrtClaimed
  }

  ghost predicate WindowOk(ws: seq<UnbondWindow>, i: nat, p: nat, u: nat)
    requires i < |ws|
  {
    var w := ws[i];
    && w.id == i
    && (w.state == Open <==> i == |ws| - 1)
    && WindowShape(w)
    && w.closesAt == w.openedAt + p
    && (i + 1 < |ws| ==> w.closesAt <= ws[i + 1].openedAt)
    && (i + 1 < |ws| && w.scrtOwed > 0 ==> w.maturesAt == ws[i + 1].openedAt + u)
  }

  /** A window matures only after every earlier one has. */
  ghost predicate InTurn(ws: seq<UnbondWindow>, i: nat, j: nat)
    requires i < |ws| && j < |ws|
  {
    i < j && ws[i].state == Unbonding && ws[j].scrtOwed > 0 ==> ws[j].state == Unbonding || ws[j].state == Open
  }

  ghost predicate WindowsOk(ws: seq<UnbondWindow>, openId: nat, p: nat, u: nat) {
    && openId + 1 == |ws|
    && (forall i :: 0 <= i < |ws| ==> WindowOk(ws, i, p, u))
    && (forall i, j :: 0 <= i < |ws| && 0 <= j < |ws| ==> InTurn(ws, i, j))
  }

  predicate Increasing(ids: seq<nat>) {
    forall i, j :: 0 <= i < j < |ids| ==> ids[i] < ids[j]
  }

  /** The active list is exactly the windows in flight, in order. */
  ghost predicate ActiveOk(active: seq<nat>, ws: seq<UnbondWindow>) {
    && Increasing(active)
    && (forall id: nat :: id in active <==> id < |ws| && InFlight(ws[id].state))
  }

  // ---- liability buckets ----

  function UnbondingOwed(w: UnbondWindow): nat { if w.state == Unbonding then w.scrtOwed else 0 }

  function MaturedOutstanding(w: UnbondWindow): nat { if w.state == Matured then w.Outstanding() else 0 }

  ghost predicate BucketsOk(t: TotalsCache, ws: seq<UnbondWindow>, openId: nat) {
    && openId < |ws|
    && t.scrtOwedOpen == ws[openId].scrtOwed
    && t.scrtOwedUnbonding == SumSeq(ws, UnbondingOwed)
    && t.scrtOwedMatured == SumSeq(ws, MaturedOutstanding)
  }

  // ---- entry slots ----

  /** One for an Unbonding window that undelegated from `a`. */
  function Uses(a: Addr): UnbondWindow -> nat {
    (w: UnbondWindow) => if w.state == Unbonding && a in w.validatorsUsed then 1 else 0
  }

  ghost predicate UsedOk(w: UnbondWindow, vs: seq<ValidatorEntry>) {
    Distinct(w.validatorsUsed) && forall a :: a in w.validatorsUsed ==> a in Addresses(vs)
  }

  ghost predicate SlotOk(v: ValidatorEntry, ws: seq<UnbondWindow>, ceiling: nat) {
    v.activeUnbondEntries == SumSeq(ws, Uses(v.address)) <= ceiling
  }

  ghost predicate SlotsOk(vs: seq<ValidatorEntry>, ws: seq<UnbondWindow>, ceiling: nat) {
    && (forall i :: 0 <= i < |ws| ==> UsedOk(ws[i], vs))
    && (forall i :: 0 <= i < |vs| ==> SlotOk(vs[i], ws, ceiling))
  }

  // ---- claims ----

  function OwedIn(id: nat): ((ClaimKey, ClaimRecord)) -> nat {
    (e: (ClaimKey, ClaimRecord)) => if e.0.window == id then e.1.scrtOwed else 0
  }

  function SharesIn(id: nat): ((ClaimKey, ClaimRecord)) -> nat {
    (e: (ClaimKey, ClaimRecord)) => if e.0.window == id then e.1.sharesBurned else 0
  }

  /** What the claims already collected from window `id` were paid. */
  function PaidIn(id: nat, realised: nat, promised: nat): ((ClaimKey, ClaimRecord)) -> nat {
    (e: (ClaimKey, ClaimRecord)) =>
      if e.0.window == id && e.1.claimed then Windows.Scaled(e.1.scrtOwed, realised, promised) else 0
  }

  ghost predicate ClaimOk(k: ClaimKey, r: ClaimRecord, ws: seq<UnbondWindow>) {
    && k.window < |ws|
    && r.windowId == k.window
    && r.scrtOwed > 0
    && (r.claimed ==> ws[k.window].state == Matured || ws[k.window].state == Settled)
  }

  /** The claims on window `id` add up to what it owes, and its payouts to what it paid. */
  ghost predicate LedgerAt(claims: map<ClaimKey, ClaimRecord>, w: UnbondWindow, id: nat) {
    && SumMap(claims, OwedIn(id)) == w.scrtOwed
    && SumMap(claims, SharesIn(id)) == w.sharesBurned
    && w.scrtClaimed == SumMap(claims, PaidIn(id, w.Payable(), w.scrtOwed))
  }

  ghost predicate IndexOk(index: map<Addr, seq<nat>>, claims: map<ClaimKey, ClaimRecord>) {
    forall a, id :: IndexedOk(index, claims, a, id)
  }

  ghost predicate IndexedOk(index: map<Addr, seq<nat>>, claims: map<ClaimKey, ClaimRecord>, a: Addr, id: nat) {
    && (id in IndexFor(index, a) <==> ClaimKey(a, id) in claims)
    && Distinct(IndexFor(index, a))
  }

  ghost predicate LedgerOk(claims: map<ClaimKey, ClaimRecord>, ws: seq<UnbondWindow>) {
    && (forall k :: k in claims ==> ClaimOk(k, claims[k], ws))
    && (forall id :: 0 <= id < |ws| ==> LedgerAt(claims, ws[id], id))
  }

  // ---- the sweep cursor ----

  ghost predicate CursorOk(cursor: nat, vs: seq<ValidatorEntry>) {
    cursor == 0 || cursor < |vs|
  }

  // ---- everything the contract stores ----

  ghost predicate CoreOk(c: Core) {
    && ConfigOk(c)
    && SetOk(c.vals, c.allowlist, c.config.limits.maxValidatorWeightBps)
    && StakeOk(c.totals, c.vals)
    && WindowsOk(c.windows, c.openId, c.config.params.unbondWindowSecs, c.config.params.unbondingPeriodSecs)
    && ActiveOk(c.active, c.windows)
    && BucketsOk(c.totals, c.windows, c.openId)
    && SlotsOk(c.vals, c.windows, c.config.params.maxUnbondEntries)
    && LedgerOk(c.claims, c.windows)
    && IndexOk(c.index, c.claims)
    && CursorOk(c.cursor, c.vals)
  }

  // ---- the contract against the chain ----

  /** What was undelegated for window `id`. */
  function OriginalFor(id: nat): UnbondEntry -> nat {
    (e: UnbondEntry) => if e.window == id then e.original else 0
  }

  function EntriesFor(v: Addr, id: nat): UnbondEntry -> nat {
    (e: UnbondEntry) => if e.validator == v && e.window == id then 1 else 0
  }

  /** Each entry belongs to a closed window and completes one chain unbonding period after it closed. */
  ghost predicate EntryValid(e: UnbondEntry, ws: seq<UnbondWindow>, unbondTime: nat) {
    && e.window + 1 < |ws|
    && e.amount <= e.original && 0 < e.original
    && e.completesAt == ws[e.window + 1].openedAt + unbondTime
  }

  /** The chain holds exactly the undelegations a closed window asked for. */
  ghost predicate QueuedFor(queue: seq<UnbondEntry>, w: UnbondWindow, id: nat) {
    && SumSeq(queue, OriginalFor(id)) == w.scrtOwed
    && (forall v :: SumSeq(queue, EntriesFor(v, id)) == if v in w.validatorsUsed then 1 else 0)
  }

  ghost predicate QueueOk(queue: seq<UnbondEntry>, ws: seq<UnbondWindow>, unbondTime: nat) {
    && (forall i :: 0 <= i < |queue| ==> EntryValid(queue[i], ws, unbondTime))
    && (forall id :: 0 <= id < |ws| - 1 ==> QueuedFor(queue, ws[id], id))
  }

  /** The balance covers everything matured windows still owe. */
  ghost predicate Solvent(ws: seq<UnbondWindow>, balance: nat) {
    SumSeq(ws, MaturedOutstanding) <= balance
  }

  /** A window that paid or can pay is past its maturity. */
  ghost predicate PastMaturity(w: UnbondWindow, now: nat) {
    w.state == Matured || (w.state == Settled && w.scrtOwed > 0) ==> w.maturesAt <= now
  }

  ghost predicate TimeOk(ws: seq<UnbondWindow>, now: nat) {
    && ws != [] && ws[|ws| - 1].openedAt <= now
    && forall i :: 0 <= i < |ws| ==> PastMaturity(ws[i], now)
  }

  /** The shares minted at bootstrap stay with the contract. */
  ghost predicate TokensOk(c: Core, q: Chain) {
    q.ownTokens <= q.supply && (c.config.token.Some? ==> MIN_BOOTSTRAP_SEED <= q.ownTokens)
  }
}
