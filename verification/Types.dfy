/** The records shared across the staking engine. Amounts are unbounded naturals: a checked
    overflow aborts and reverts a transaction, so it only removes steps from a run. */
module Types {
  import opened Prelude

  type Addr = string

  const BPS_DENOM: nat := 10_000
  const U32_MAX: nat := 0xFFFF_FFFF
  const U128_MAX: nat := 0xFFFF_FFFF_FFFF_FFFF_FFFF_FFFF_FFFF_FFFF
  /** Ceiling on the performance fee that no configuration may exceed. */
  const MAX_PERFORMANCE_FEE_BPS: nat := 2_000
  /** Ceiling on the share of stake any one validator may be assigned. */
  const MAX_VALIDATOR_WEIGHT_BPS: nat := 2_500
  /** The chain's limit on live unbonding entries per (delegator, validator) pair. */
  const CHAIN_MAX_UNBOND_ENTRIES: nat := 7
  const MAX_TOTAL_SUPPLY: nat := 100_000_000_000
  const MAX_VALIDATORS: nat := 20
  const MIN_BOOTSTRAP_SEED: nat := 10_000_000
  const DEFAULT_SYNC_LIMIT: nat := 5
  const DEFAULT_COMPOUND_LIMIT: nat := 3

  datatype ContractError =
    | Unauthorized | Paused | TokenNotRegistered | TokenAlreadyRegistered | WrongDenom
    | DepositTooSmall | ZeroShares | CapExceeded | ZeroAmount | BadWeightSum | EmptyValidatorSet
    | TooManyValidators | DuplicateValidator | UnknownValidator | ValidatorNotAllowed | WeightTooHigh
    | LimitsExceedCode | NoUnbondingCapacity | WindowNotOpen | WindowNotClosed | WindowNotMatured
    | NothingToClaim | FeeTooHigh | WindowTooShort | BadEntryCeiling | InsufficientBalance | Overflow

  type Outcome<+T> = Result<T, ContractError>

  datatype ValidatorStatus = Active | Draining | Removed

  datatype ValidatorEntry = ValidatorEntry(
    address: Addr, weightBps: nat, status: ValidatorStatus, bonded: nat, pendingRewards: nat,
    activeUnbondEntries: nat)

  datatype ValidatorInit = ValidatorInit(address: Addr, weightBps: nat)

  datatype WindowState = Open | Unbonding | Matured | Settled

  datatype UnbondWindow = UnbondWindow(
    id: nat, openedAt: nat, closesAt: nat, maturesAt: nat, sharesBurned: nat, scrtOwed: nat,
    scrtRealised: Option<nat>, scrtClaimed: nat, validatorsUsed: seq<Addr>, state: WindowState)
  {
    /** What the window can pay: what it received once known, what it promised before. */
    function Payable(): nat {
      if scrtRealised.Some? then scrtRealised.value else scrtOwed
    }

    function Outstanding(): nat {
      SatSub(Payable(), scrtClaimed)
    }
  }

  datatype ProtocolParams = ProtocolParams(
    unbondWindowSecs: nat, unbondingPeriodSecs: nat, performanceFeeBps: nat, minDeposit: nat,
    maxUnbondEntries: nat)

  datatype ManagerLimits = ManagerLimits(maxPerformanceFeeBps: nat, maxValidatorWeightBps: nat)

  datatype Config = Config(
    manager: Addr, deployer: Option<Addr>, limits: ManagerLimits, treasury: Addr, token: Option<Addr>,
    bondedDenom: string, params: ProtocolParams, paused: bool)

  datatype Coin = Coin(denom: string, amount: nat)

  datatype RedelegateStep = RedelegateStep(src: Addr, dst: Addr, amount: nat)

  /** Cached totals; a window's debt sits in exactly one of the three owed buckets. */
  datatype TotalsCache = TotalsCache(
    totalBonded: nat, pendingRewards: nat, totalSupply: nat, scrtOwedOpen: nat,
    scrtOwedUnbonding: nat, scrtOwedMatured: nat, lastSyncTime: nat)
  {
    /** Debts whose SCRT is still inside the stake or the balance. */
    function OwedBacked(): nat { scrtOwedOpen + scrtOwedMatured }

    function OwedTotal(): nat { scrtOwedOpen + scrtOwedUnbonding + scrtOwedMatured }
  }

  datatype ClaimRecord = ClaimRecord(windowId: nat, sharesBurned: nat, scrtOwed: nat, claimed: bool)

  datatype ClaimKey = ClaimKey(account: Addr, window: nat)
}
