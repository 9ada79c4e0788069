/** The transaction extension: validation, reservation and settlement of a sponsored fee. */
module Extension {
  import opened Types
  import opened Ledger

  datatype Result<+T> = Ok(value: T) | Err(error: Invalid)

  datatype Invalid =
    | UnsupportedOrigin
    | UnknownSponsor
    | InactiveSponsor
    | CallerNotAllowed
    | FeeCapExceeded
    | InsufficientBudget
    | Payment

  datatype DispatchInfo = DispatchInfo(weight: nat, paysFee: bool)

  datatype PostInfo = PostInfo(actualWeight: Option<nat>, paysFee: bool)

  /** A signed or unsigned transaction that names a sponsor. */
  datatype Tx = Tx(origin: Option<AccountId>, sponsor: AccountId, tip: nat, len: nat, info: DispatchInfo)

  /** What `prepare` hands to settlement. `cap` is a history value: the `max_fee_per_tx` that was in
      force when the transaction was validated; settlement never reads it. */
  datatype Reservation = Reservation(
    sponsor: AccountId, signer: AccountId, estimate: nat, tip: nat, cap: nat)

  /** Ledger refusals met by the release and by the hold of one two-step move. */
  datatype Refusals = Refusals(release: bool, hold: bool)

  const NO_REFUSAL := Refusals(false, false)

  function Fee(cfg: Config, len: nat, weight: nat, pays: bool, tip: nat): nat {
    Min(cfg.maxBalance, (if pays then cfg.inclusion(len, weight) else 0) + tip)
  }

  function ComputeFee(cfg: Config, len: nat, info: DispatchInfo, tip: nat): nat {
    Fee(cfg, len, info.weight, info.paysFee, tip)
  }

  /** The weight charged for after dispatch: reported weight, never above the declared one. */
  function ActualWeight(info: DispatchInfo, post: PostInfo): nat {
    if post.actualWeight.Some? then Min(post.actualWeight.value, info.weight) else info.weight
  }

  function ComputeActualFee(cfg: Config, len: nat, info: DispatchInfo, post: PostInfo, tip: nat): nat {
    Fee(cfg, len, ActualWeight(info, post), info.paysFee && post.paysFee, tip)
  }

  /** The fee never rises as the weight falls. */
  ghost predicate MonotoneFees(cfg: Config) {
    forall len: nat, v: nat, w: nat :: v <= w ==> cfg.inclusion(len, v) <= cfg.inclusion(len, w)
  }

  function Validate(cfg: Config, s: State, tx: Tx): Result<Reservation> {
    if tx.origin.None? then Err(UnsupportedOrigin)
    else if tx.sponsor !in s.sponsors then Err(UnknownSponsor)
    else
      var state := s.sponsors[tx.sponsor];
      var fee := ComputeFee(cfg, tx.len, tx.info, tx.tip);
      if !state.active then Err(InactiveSponsor)
      else if tx.origin.value !in state.policy.allowedCallers then Err(CallerNotAllowed)
      else if fee > state.policy.maxFeePerTx then Err(FeeCapExceeded)
      else if Acct(s, tx.sponsor).budget < fee then Err(InsufficientBudget)
      else Ok(Reservation(tx.sponsor, tx.origin.value, fee, tx.tip, state.policy.maxFeePerTx))
  }

  datatype MoveOutcome = Moved | NotReleased | NotHeld

  /** Budget hold to pending hold, by way of the free balance. */
  function MoveOutcomeOf(cfg: Config, x: Account, amount: nat, no: Refusals): MoveOutcome {
    if !CanRelease(cfg, x, SponsorshipBudget, amount, true, no.release) then NotReleased
    else if !CanHold(cfg, Released(x, SponsorshipBudget, amount), SponsorshipPending, amount, no.hold) then NotHeld
    else Moved
  }

  function MoveBudgetToPending(cfg: Config, x: Account, amount: nat, no: Refusals): Account {
    match MoveOutcomeOf(cfg, x, amount, no)
    case NotReleased => x
    case NotHeld => x.(free := x.free + amount, budget := x.budget - amount)
    case Moved => x.(budget := x.budget - amount, pending := x.pending + amount)
  }

  function AfterMove(cfg: Config, s: State, a: AccountId, amount: nat, no: Refusals): State {
    if MoveOutcomeOf(cfg, Acct(s, a), amount, no).NotReleased? then s
    else SetAcct(s, a, MoveBudgetToPending(cfg, Acct(s, a), amount, no))
  }

  datatype RestoreOutcome =
    | NothingLeft
    | Restored(amount: nat)
    | ReleaseFailed(amount: nat)
    | ReholdFailed(amount: nat)

  function RestoreOutcomeOf(cfg: Config, x: Account, no: Refusals): RestoreOutcome {
    if x.pending == 0 then NothingLeft
    else if !CanRelease(cfg, x, SponsorshipPending, x.pending, false, no.release) then ReleaseFailed(x.pending)
    else if !CanHold(cfg, Released(x, SponsorshipPending, x.pending), SponsorshipBudget, x.pending, no.hold) then
      ReholdFailed(x.pending)
    else Restored(x.pending)
  }

  function RestorePendingToBudget(cfg: Config, x: Account, no: Refusals): Account {
    match RestoreOutcomeOf(cfg, x, no)
    case NothingLeft => x
    case ReleaseFailed(_) => x
    case Restored(n) => x.(pending := 0, budget := x.budget + n)
    case ReholdFailed(n) => x.(pending := 0, free := x.free + n)
  }

  /** One settlement: what was charged, where the credit went, and which defensive branches ran. */
  datatype Receipt = Receipt(
    reservation: Reservation,
    fee: nat,
    tip: nat,
    feeCredit: nat,
    tipCredit: nat,
    clamped: bool,
    missing: nat,
    restore: RestoreOutcome)

  /** The fee a settlement takes: no more than the actual fee, the estimate, or what is pending. */
  function Charge(r: Reservation, actual: nat, pending: nat): nat {
    Min(Min(actual, r.estimate), pending)
  }

  function SettleReceipt(cfg: Config, x: Account, r: Reservation, actual: nat, no: Refusals): Receipt {
    var fee := Charge(r, actual, x.pending);
    Receipt(r, fee, Min(r.tip, fee), fee - Min(r.tip, fee), Min(r.tip, fee),
            actual > r.estimate, Min(actual, r.estimate) - fee,
            RestoreOutcomeOf(cfg, x.(pending := x.pending - fee), no))
  }

  function SettleAccount(cfg: Config, x: Account, r: Reservation, actual: nat, no: Refusals): Account {
    RestorePendingToBudget(cfg, x.(pending := x.pending - Charge(r, actual, x.pending)), no)
  }

  function PaidEvent(receipt: Receipt): Event {
    SponsoredTransactionFeePaid(
      receipt.reservation.sponsor, receipt.reservation.signer, receipt.fee, receipt.tip)
  }

  function AfterSettle(cfg: Config, s: State, r: Reservation, actual: nat, no: Refusals): State {
    var x := Acct(s, r.sponsor);
    var receipt := SettleReceipt(cfg, x, r, actual, no);
    s.(accounts := s.accounts[r.sponsor := SettleAccount(cfg, x, r, actual, no)],
       credit := s.credit + receipt.feeCredit + receipt.tipCredit,
       log := s.log + [PaidEvent(receipt)])
  }
}
