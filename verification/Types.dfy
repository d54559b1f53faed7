/** Values shared by every component of the prediction market: addresses, machine widths,
    error codes, rounds, stakes and outcomes. */
module Types {

  /** An account. Soroban addresses are opaque but totally ordered; only that order is used. */
  type Address = nat

  const I128_MAX: int := 0x7FFF_FFFF_FFFF_FFFF_FFFF_FFFF_FFFF_FFFF
  const I128_MIN: int := -0x8000_0000_0000_0000_0000_0000_0000_0000
  const U128_MAX: int := 0xFFFF_FFFF_FFFF_FFFF_FFFF_FFFF_FFFF_FFFF
  const U64_MAX: int := 0xFFFF_FFFF_FFFF_FFFF
  const U32_MAX: int := 0xFFFF_FFFF

  const BPS_DENOMINATOR: int := 10_000

  datatype Error =
    | InvalidBetAmount | NoActiveRound | RoundEnded | InsufficientBalance | AlreadyBet
    | Overflow | InvalidPrice | InvalidDuration | InvalidMode | WrongModeForPrediction
    | RoundNotEnded | InvalidOracleRound | RoundAlreadyActive | ContractPaused | WindowOutOfRange
    | PayoutOverflow | RoundNotCancellable | StakeExceedsMax | ExposureCapExceeded
    | PendingWinningsCapExceeded | InvalidStartPrice | PrecisionCapExceeded | CommitmentNotFound
    | AlreadyRevealed | InvalidRevealWindow | HashMismatch | InvalidProtocolFeeBps
    | MintLimitExceeded | InvalidCommitment | InvalidSalt | PendingWinningsNotExpired
    | OracleNotLive | BelowMinBet | InsufficientOracleQuorum | TooFewObservations
    | PendingWinningsNotFound | ExpiryNotConfigured | ClaimBatchTooLarge | DuplicateClaimAddress
    | RoundStartLedgerReused | PageSizeExceeded | EarlyCashoutDisabled | PositionNotFound
    | InvalidPhaseForCashout | WrongModeForCashout | InsuranceInvalidSplit
    | InsuranceInsufficientFund
    | DuplicateOracleSource | OracleDeviationExceeded
    | Panicked // not an error code: an index or an overflow that aborts the program

  datatype Option<+T> = None | Some(value: T)

  datatype Result<+T> = Ok(value: T) | Err(error: Error) {
    predicate IsFailure() { Err? }

    function PropagateFailure<U>(): Result<U>
      requires Err?
    {
      Err(error)
    }

    function Extract(): T
      requires Ok?
    {
      value
    }
  }

  /** A guard of an entrypoint: `:- Need(condition, error)`. */
  datatype Guard = Pass | Fail(error: Error) {
    predicate IsFailure() { Fail? }

    function PropagateFailure<U>(): Result<U>
      requires Fail?
    {
      Err(error)
    }
  }

  function Need(condition: bool, error: Error): Guard {
    if condition then Pass else Fail(error)
  }

  datatype RoundMode = UpDown | Precision

  datatype BetSide = Up | Down

  datatype FeeModel = FeeOnPot | FeeOnWinnings

  datatype PayoutPolicy = Equal | StakeWeighted

  datatype ArchiveStatus = Resolved | Cancelled | FallbackRefund | Voided

  datatype OutcomeKind = Win | Loss | Refund | Void

  datatype Round = Round(
    id: nat, priceStart: nat, startLedger: nat, betEnd: nat, end: nat,
    poolUp: int, poolDown: int, mode: RoundMode)

  datatype UserPosition = UserPosition(amount: int, side: BetSide)

  datatype PrecisionPrediction = PrecisionPrediction(price: nat, amount: int)

  /** A commitment hash, kept symbolic: equal digests come from equal preimages. */
  datatype Digest = ZeroDigest | Sha256(price: nat, salt: seq<nat>) | OtherDigest(bytes: nat)

  datatype PrecisionCommitment = PrecisionCommitment(hash: Digest, amount: int, revealed: bool)

  /** One participant's recorded result. `side` is None in Precision rounds. */
  datatype UserRoundOutcome = UserRoundOutcome(
    user: Address, mode: RoundMode, side: Option<BetSide>, price: nat,
    stake: int, payout: int, kind: OutcomeKind)

  datatype Credit = Credit(user: Address, amount: int)
}
