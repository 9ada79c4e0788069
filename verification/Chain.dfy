/** The pallet and the extension as they run: storage updated in place, step by step. */
module Chain {
  import opened Types
  import opened Ledger
  import opened Pallet
  import opened Extension

  /** The nested duplicate scan over an allowlist. */
  method EnsureValidPolicy(callers: seq<AccountId>) returns (error: Option<Error>)
    ensures error.None? <==> callers != [] && Distinct(callers)
    ensures error == Some(EmptyAllowlist) <==> callers == []
    ensures error.Some? && callers != [] ==> error.value == DuplicateAllowedCaller
  {
    if |callers| == 0 {
      return Some(EmptyAllowlist);
    }
    for i := 0 to |callers|
      invariant forall k, l :: 0 <= k < i && k < l < |callers| ==> callers[k] != callers[l]
    {
      for j := i + 1 to |callers|
        invariant forall l :: i < l < j ==> callers[i] != callers[l]
      {
        if callers[j] == callers[i] {
          return Some(DuplicateAllowedCaller);
        }
      }
    }
    return None;
  }

  /** The linear allowlist scan of `validate`. */
  method IsAllowed(callers: seq<AccountId>, signer: AccountId) returns (found: bool)
    ensures found <==> signer in (set c | c in callers)
  {
    for i := 0 to |callers|
      invariant signer !in callers[..i]
    {
      if callers[i] == signer {
        return true;
      }
    }
    assert callers[..|callers|] == callers;
    return false;
  }

  lemma WriteTwice(m: map<AccountId, Account>, n: map<AccountId, Account>, o: map<AccountId, Account>, a: AccountId)
    requires n == m[a := Get(n, a)]
    requires o == n || o == n[a := Get(o, a)]
    ensures o == m[a := Get(o, a)]
  {
  }

  class Chain {
    const cfg: Config
    var accounts: map<AccountId, Account>
    var sponsors: map<AccountId, SponsorState>
    var log: seq<Event>
    var credit: nat
    var elsewhere: nat

    constructor (cfg: Config, accounts: map<AccountId, Account>)
      ensures this.cfg == cfg
      ensures Now() == State(accounts, map[], [], 0, 0)
    {
      this.cfg, this.accounts, sponsors, log := cfg, accounts, map[], [];
      credit, elsewhere := 0, 0;
    }

    ghost function Now(): State
      reads this
    {
      State(accounts, sponsors, log, credit, elsewhere)
    }

    // ---------------------------------------------------------------- ledger

    function At(who: AccountId): Account
      reads this
    {
      Get(accounts, who)
    }

    method Hold(r: Reason, who: AccountId, amount: nat, refused: bool) returns (ok: bool)
      modifies this`accounts
      ensures ok == CanHold(cfg, old(At(who)), r, amount, refused)
      ensures accounts == if ok then old(accounts)[who := Held(cfg, old(At(who)), r, amount)] else old(accounts)
    {
      var x := At(who);
      ok := CanHold(cfg, x, r, amount, refused);
      if ok {
        accounts := accounts[who := WithHold(x.(free := x.free - amount), r, OnHold(x, r) + amount)];
      }
    }

    method Release(r: Reason, who: AccountId, amount: nat, exact: bool, refused: bool)
      returns (released: Option<nat>)
      modifies this`accounts
      ensures released.Some? == CanRelease(cfg, old(At(who)), r, amount, exact, refused)
      ensures released.Some? ==> released.value == Min(amount, OnHold(old(At(who)), r))
      ensures accounts ==
              if released.Some? then old(accounts)[who := Released(old(At(who)), r, amount)] else old(accounts)
    {
      var x := At(who);
      if !CanRelease(cfg, x, r, amount, exact, refused) {
        return None;
      }
      var moved := Min(amount, OnHold(x, r));
      accounts := accounts[who := WithHold(x, r, OnHold(x, r) - moved).(free := x.free + moved)];
      return Some(moved);
    }

    method Slash(r: Reason, who: AccountId, amount: nat) returns (taken: nat, missing: nat)
      modifies this`accounts
      ensures taken == Min(amount, OnHold(old(At(who)), r)) && missing == amount - taken
      ensures accounts == old(accounts)[who := Slashed(old(At(who)), r, amount)]
    {
      var x := At(who);
      taken := Min(amount, OnHold(x, r));
      missing := amount - taken;
      accounts := accounts[who := WithHold(x, r, OnHold(x, r) - taken)];
    }

    // ---------------------------------------------------------- dispatchables

    method RegisterSponsor(origin: Option<AccountId>, initialBudget: nat, policy: Policy, refused: bool)
      returns (error: Option<Error>)
      modifies this
      ensures (Now(), error) == Dispatch(cfg, old(Now()), origin, Call.RegisterSponsor(initialBudget, policy), refused)
      ensures error.Some? ==> Now() == old(Now())
    {
      if origin.None? { return Some(BadOrigin); }
      var sponsor := origin.value;
      if initialBudget == 0 { return Some(ZeroBudget); }
      if sponsor in sponsors { return Some(AlreadyRegistered); }
      error := EnsureValidPolicy(policy.allowedCallers);
      if error.Some? { return; }
      var ok := Hold(SponsorshipBudget, sponsor, initialBudget, refused);
      if !ok { return Some(LedgerRefused); }
      sponsors := sponsors[sponsor := SponsorState(true, policy)];
      log := log + [SponsorRegistered(sponsor, initialBudget)];
    }

    method IncreaseBudget(origin: Option<AccountId>, amount: nat, refused: bool) returns (error: Option<Error>)
      modifies this
      ensures (Now(), error) == Dispatch(cfg, old(Now()), origin, Call.IncreaseBudget(amount), refused)
      ensures error.Some? ==> Now() == old(Now())
    {
      if origin.None? { return Some(BadOrigin); }
      var sponsor := origin.value;
      if amount == 0 { return Some(ZeroBudget); }
      if sponsor !in sponsors { return Some(NotRegistered); }
      var ok := Hold(SponsorshipBudget, sponsor, amount, refused);
      if !ok { return Some(LedgerRefused); }
      log := log + [BudgetIncreased(sponsor, amount, At(sponsor).budget)];
      assert sponsors == sponsors[sponsor := sponsors[sponsor]];
      return None;
    }

    method DecreaseBudget(origin: Option<AccountId>, amount: nat, refused: bool) returns (error: Option<Error>)
      modifies this
      ensures (Now(), error) == Dispatch(cfg, old(Now()), origin, Call.DecreaseBudget(amount), refused)
      ensures error.Some? ==> Now() == old(Now())
    {
      if origin.None? { return Some(BadOrigin); }
      var sponsor := origin.value;
      if amount == 0 { return Some(ZeroBudget); }
      if sponsor !in sponsors { return Some(NotRegistered); }
      if At(sponsor).budget < amount { return Some(InsufficientAvailableBudget); }
      var released := Release(SponsorshipBudget, sponsor, amount, true, refused);
      if released.None? { return Some(LedgerRefused); }
      log := log + [BudgetDecreased(sponsor, amount, At(sponsor).budget)];
      assert sponsors == sponsors[sponsor := sponsors[sponsor]];
      return None;
    }

    method SetPolicy(origin: Option<AccountId>, policy: Policy) returns (error: Option<Error>)
      modifies this
      ensures (Now(), error) == Dispatch(cfg, old(Now()), origin, Call.SetPolicy(policy), false)
      ensures error.Some? ==> Now() == old(Now())
    {
      if origin.None? { return Some(BadOrigin); }
      var sponsor := origin.value;
      error := EnsureValidPolicy(policy.allowedCallers);
      if error.Some? { return; }
      if sponsor !in sponsors { return Some(NotRegistered); }
      sponsors := sponsors[sponsor := sponsors[sponsor].(policy := policy)];
      log := log + [SponsorPolicyUpdated(sponsor)];
    }

    method Pause(origin: Option<AccountId>) returns (error: Option<Error>)
      modifies this
      ensures (Now(), error) == Dispatch(cfg, old(Now()), origin, Call.Pause, false)
      ensures error.Some? ==> Now() == old(Now())
    {
      if origin.None? { return Some(BadOrigin); }
      var sponsor := origin.value;
      if sponsor !in sponsors { return Some(NotRegistered); }
      if !sponsors[sponsor].active { return Some(AlreadyPaused); }
      sponsors := sponsors[sponsor := sponsors[sponsor].(active := false)];
      log := log + [SponsorPaused(sponsor)];
      return None;
    }

    method Resume(origin: Option<AccountId>) returns (error: Option<Error>)
      modifies this
      ensures (Now(), error) == Dispatch(cfg, old(Now()), origin, Call.Resume, false)
      ensures error.Some? ==> Now() == old(Now())
    {
      if origin.None? { return Some(BadOrigin); }
      var sponsor := origin.value;
      if sponsor !in sponsors { return Some(NotRegistered); }
      if sponsors[sponsor].active { return Some(AlreadyActive); }
      sponsors := sponsors[sponsor := sponsors[sponsor].(active := true)];
      log := log + [SponsorResumed(sponsor)];
      return None;
    }

    method Unregister(origin: Option<AccountId>, refused: bool) returns (error: Option<Error>)
      modifies this
      ensures (Now(), error) == Dispatch(cfg, old(Now()), origin, Call.Unregister, refused)
      ensures error.Some? ==> Now() == old(Now())
    {
      if origin.None? { return Some(BadOrigin); }
      var sponsor := origin.value;
      if sponsor !in sponsors { return Some(NotRegistered); }
      if At(sponsor).pending != 0 { return Some(PendingBudgetNotEmpty); }
      var budget := At(sponsor).budget;
      if budget != 0 {
        var released := Release(SponsorshipBudget, sponsor, budget, true, refused);
        if released.None? { return Some(LedgerRefused); }
      }
      sponsors := sponsors - {sponsor};
      log := log + [SponsorUnregistered(sponsor)];
      return None;
    }

    // -------------------------------------------------- transaction extension

    method ValidateTx(tx: Tx) returns (r: Result<Reservation>)
      ensures r == Validate(cfg, Now(), tx)
      ensures r.Ok? <==>
              && tx.origin.Some? && tx.sponsor in sponsors && sponsors[tx.sponsor].active
              && tx.origin.value in (set c | c in sponsors[tx.sponsor].policy.allowedCallers)
              && ComputeFee(cfg, tx.len, tx.info, tx.tip) <= sponsors[tx.sponsor].policy.maxFeePerTx
              && ComputeFee(cfg, tx.len, tx.info, tx.tip) <= At(tx.sponsor).budget
      ensures r.Ok? ==> r.value.sponsor == tx.sponsor && tx.origin == Some(r.value.signer) && r.value.tip == tx.tip
    {
      if tx.origin.None? { return Err(UnsupportedOrigin); }
      var signer := tx.origin.value;
      if tx.sponsor !in sponsors { return Err(UnknownSponsor); }
      var state := sponsors[tx.sponsor];
      if !state.active { return Err(InactiveSponsor); }
      var allowed := IsAllowed(state.policy.allowedCallers, signer);
      if !allowed { return Err(CallerNotAllowed); }
      var fee := ComputeFee(cfg, tx.len, tx.info, tx.tip);
      if fee > state.policy.maxFeePerTx { return Err(FeeCapExceeded); }
      if At(tx.sponsor).budget < fee { return Err(InsufficientBudget); }
      return Ok(Reservation(tx.sponsor, signer, fee, tx.tip, state.policy.maxFeePerTx));
    }

    method MoveToPending(who: AccountId, amount: nat, no: Refusals) returns (outcome: MoveOutcome)
      modifies this`accounts
      ensures outcome == MoveOutcomeOf(cfg, old(At(who)), amount, no)
      ensures At(who) == MoveBudgetToPending(cfg, old(At(who)), amount, no)
      ensures accounts == if outcome.NotReleased? then old(accounts) else old(accounts)[who := At(who)]
    {
      var released := Release(SponsorshipBudget, who, amount, true, no.release);
      if released.None? { return NotReleased; }
      var ok := Hold(SponsorshipPending, who, amount, no.hold);
      if !ok { return NotHeld; }
      return Moved;
    }

    /** `prepare` after validation; on an error the state left behind is as the two steps left it. */
    method Prepare(r: Reservation, no: Refusals) returns (error: Option<Invalid>)
      modifies this`accounts
      ensures Now() == AfterMove(cfg, old(Now()), r.sponsor, r.estimate, no)
      ensures error == if MoveOutcomeOf(cfg, old(At(r.sponsor)), r.estimate, no).Moved? then None else Some(Payment)
    {
      var outcome := MoveToPending(r.sponsor, r.estimate, no);
      return if outcome.Moved? then None else Some(Payment);
    }

    method Restore(who: AccountId, no: Refusals) returns (outcome: RestoreOutcome)
      modifies this`accounts
      ensures outcome == RestoreOutcomeOf(cfg, old(At(who)), no)
      ensures At(who) == RestorePendingToBudget(cfg, old(At(who)), no)
      ensures accounts ==
              if outcome.NothingLeft? || outcome.ReleaseFailed? then old(accounts) else old(accounts)[who := At(who)]
    {
      var pending := At(who).pending;
      if pending == 0 { return NothingLeft; }
      var released := Release(SponsorshipPending, who, pending, false, no.release);
      if released.None? { return ReleaseFailed(pending); }
      if released.value == 0 { return NothingLeft; }
      var ok := Hold(SponsorshipBudget, who, released.value, no.hold);
      if !ok { return ReholdFailed(released.value); }
      return Restored(released.value);
    }

    /** Clamp, slash, split and route: the first half of the settlement. */
    method TakeFee(r: Reservation, actual: nat)
      returns (charged: nat, clamped: bool, missing: nat, feeCredit: nat, tipCredit: nat)
      modifies this`accounts, this`credit
      ensures charged == Charge(r, actual, old(At(r.sponsor)).pending)
      ensures clamped == (actual > r.estimate) && missing == Min(actual, r.estimate) - charged
      ensures tipCredit == Min(r.tip, charged) && feeCredit == charged - tipCredit
      ensures credit == old(credit) + feeCredit + tipCredit
      ensures At(r.sponsor) == old(At(r.sponsor)).(pending := old(At(r.sponsor)).pending - charged)
      ensures accounts == old(accounts)[r.sponsor := At(r.sponsor)]
    {
      charged := actual;
      clamped := charged > r.estimate;
      if clamped {
        charged := r.estimate;
      }
      var taken;
      taken, missing := Slash(SponsorshipPending, r.sponsor, charged);
      if missing != 0 {
        charged := charged - missing;
      }
      var actualTip := Min(r.tip, charged);
      tipCredit := Min(actualTip, taken);
      feeCredit := taken - tipCredit;
      credit := credit + feeCredit + tipCredit;
    }

    /** The `log::error!` reports of the source come back as part of the receipt. */
    method Settle(r: Reservation, actual: nat, no: Refusals) returns (receipt: Receipt)
      modifies this`accounts, this`credit, this`log
      ensures Now() == AfterSettle(cfg, old(Now()), r, actual, no)
      ensures receipt == SettleReceipt(cfg, old(At(r.sponsor)), r, actual, no)
    {
      ghost var before, x := accounts, At(r.sponsor);
      var charged, clamped, missing, feeCredit, tipCredit := TakeFee(r, actual);
      ghost var slashed := accounts;
      var outcome := Restore(r.sponsor, no);
      WriteTwice(before, slashed, accounts, r.sponsor);
      log := log + [SponsoredTransactionFeePaid(r.sponsor, r.signer, charged, tipCredit)];
      receipt := Receipt(r, charged, tipCredit, feeCredit, tipCredit, clamped, missing, outcome);
      assert receipt == SettleReceipt(cfg, x, r, actual, no);
    }
  }
}
