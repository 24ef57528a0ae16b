/** Integer widths, results and errors shared by every module. Amounts are mathematical
    integers; each place where the contract uses checked or saturating arithmetic says so. */
module Base {

  const I128_MAX: int := 0x7FFF_FFFF_FFFF_FFFF_FFFF_FFFF_FFFF_FFFF
  const I128_MIN: int := -I128_MAX - 1
  const U128_MAX: int := 0xFFFF_FFFF_FFFF_FFFF_FFFF_FFFF_FFFF_FFFF
  const U64_MAX: int := 0xFFFF_FFFF_FFFF_FFFF
  const U32_MAX: int := 0xFFFF_FFFF

  datatype Option<+T> = None | Some(value: T)

  datatype Result<+T> = Ok(value: T) | Err(error: Error)

  datatype Error =
    | NotFound
    | NotInitialized
    | Unauthorized
    | Forbidden
    | EmergencyStopActive
    | MerchantPaused
    | VacationActive
    | SubscriberBlocklisted
    | SubscriptionExpired
    | InvalidStatusTransition
    | InvalidAmount
    | InvalidInput
    | NotActive
    | UsageNotEnabled
    | InsufficientPrepaidBalance
    | InsufficientBalance
    | IntervalNotElapsed
    | Replay
    | LifetimeCapReached
    | IdemBufferFull
    | DisputeAlreadyOpen
    | DisputeAmountExceedsMerchantBalance
    | DisputeNotFound
    | DisputeAlreadyResponded
    | DisputeAlreadyResolved
    | DisputeNotResponded
    | EscrowNotFound
    | EscrowNotReleased
    | MerchantNotApproved
    | NonceAlreadyUsed
    | SelfRotation
    | InvalidNewAdmin
    | CooldownActive
    | ProposalInvalidated
    | ProposalNotFound
    | ProposalAlreadyExists
    | ProposalCooldownActive
    | ProposalExpired
    | NoActiveProposal
    | InvalidClaimant
    | ProtocolFeeTooHigh
    | InvalidFeeBips
    | InvalidOperations
    | MustAllowChargeOperation
    | RenewalWindowClosed
    | MultiSigProposalExpired
    | MultiSigQuorumNotReached
    | MultiSigProposalNotFound
    | InvalidExportLimit
    | OracleDeviationTooHigh
    | OracleNotConfigured
    | OraclePriceUnavailable
    | OraclePriceStale
    | OraclePriceInvalid
    | BelowMinimumTopup
    | InvalidExpiration
    | UsageLimitsRequired
    | SubscriptionLimitReached
    | CouponNotFound
    | CouponAlreadyExists
    | CouponAlreadyApplied
    | CouponRevoked
    | CouponExpired
    | CouponTokenMismatch
    | CouponRedemptionLimitReached
    | Overflow
    | Underflow
    | HostTrap  // a panic in host code, such as a token transfer the contract cannot cover

  /** A billing interval: creation refuses zero, so it is always a valid divisor. */
  type pos = n: nat | 0 < n witness 1

  predicate InI128(x: int) { I128_MIN <= x <= I128_MAX }

  /** Checked addition on i128. */
  function SafeAdd(a: int, b: int): Result<int> {
    if InI128(a + b) then Ok(a + b) else Err(Overflow)
  }

  /** Addition on u64 that stops at the largest value. */
  function SaturatingAdd64(a: nat, b: nat): nat {
    if a + b <= U64_MAX then a + b else U64_MAX
  }

  /** Addition on u32 that stops at the largest value. */
  function SaturatingAdd32(a: nat, b: nat): nat {
    if a + b <= U32_MAX then a + b else U32_MAX
  }

  function SaturatingSub(a: nat, b: nat): nat {
    if a >= b then a - b else 0
  }

  function Min(a: int, b: int): int { if a <= b then a else b }

  function Max(a: int, b: int): int { if a >= b then a else b }

  /** Division that rounds toward zero, as the contract's integer types do. */
  function TruncDiv(a: int, b: int): int
    requires b > 0
  {
    if a >= 0 then a / b else -((-a) / b)
  }
}
