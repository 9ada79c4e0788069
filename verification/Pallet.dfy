/** What each dispatchable of the pallet does, as a function of the state before it. */
module Pallet {
  import opened Types
  import opened Ledger

  datatype Call =
    | RegisterSponsor(initialBudget: nat, policy: Policy)
    | IncreaseBudget(amount: nat)
    | DecreaseBudget(amount: nat)
    | SetPolicy(policy: Policy)
    | Pause
    | Resume
    | Unregister

  datatype Error =
    | BadOrigin
    | AlreadyRegistered
    | NotRegistered
    | AlreadyPaused
    | AlreadyActive
    | EmptyAllowlist
    | DuplicateAllowedCaller
    | ZeroBudget
    | InsufficientAvailableBudget
    | PendingBudgetNotEmpty
    | LedgerRefused

  predicate Distinct(s: seq<AccountId>) {
    forall i, j :: 0 <= i < j < |s| ==> s[i] != s[j]
  }

  function PolicyError(callers: seq<AccountId>): Option<Error> {
    if |callers| == 0 then Some(EmptyAllowlist)
    else if !Distinct(callers) then Some(DuplicateAllowedCaller)
    else None
  }

  /** The error `who` gets for `call`, if any; `refused` is the ledger's own refusal. */
  function CallError(cfg: Config, s: State, who: AccountId, call: Call, refused: bool): Option<Error> {
    var x := Acct(s, who);
    match call
    case RegisterSponsor(initialBudget, policy) =>
      if initialBudget == 0 then Some(ZeroBudget)
      else if who in s.sponsors then Some(AlreadyRegistered)
      else if PolicyError(policy.allowedCallers).Some? then PolicyError(policy.allowedCallers)
      else if !CanHold(cfg, x, SponsorshipBudget, initialBudget, refused) then Some(LedgerRefused)
      else None
    case IncreaseBudget(amount) =>
      if amount == 0 then Some(ZeroBudget)
      else if who !in s.sponsors then Some(NotRegistered)
      else if !CanHold(cfg, x, SponsorshipBudget, amount, refused) then Some(LedgerRefused)
      else None
    case DecreaseBudget(amount) =>
      if amount == 0 then Some(ZeroBudget)
      else if who !in s.sponsors then Some(NotRegistered)
      else if x.budget < amount then Some(InsufficientAvailableBudget)
      else if !CanRelease(cfg, x, SponsorshipBudget, amount, true, refused) then Some(LedgerRefused)
      else None
    case SetPolicy(policy) =>
      if PolicyError(policy.allowedCallers).Some? then PolicyError(policy.allowedCallers)
      else if who !in s.sponsors then Some(NotRegistered)
      else None
    case Pause =>
      if who !in s.sponsors then Some(NotRegistered)
      else if !s.sponsors[who].active then Some(AlreadyPaused)
      else None
    case Resume =>
      if who !in s.sponsors then Some(NotRegistered)
      else if s.sponsors[who].active then Some(AlreadyActive)
      else None
    case Unregister =>
      if who !in s.sponsors then Some(NotRegistered)
      else if x.pending != 0 then Some(PendingBudgetNotEmpty)
      else if x.budget != 0 && !CanRelease(cfg, x, SponsorshipBudget, x.budget, true, refused) then
        Some(LedgerRefused)
      else None
  }

  /** The account of `who` after an accepted `call`. */
  function CallAccount(x: Account, call: Call): Account {
    match call
    case RegisterSponsor(b, _) => x.(free := Minus(x.free, b), budget := x.budget + b)
    case IncreaseBudget(n) => x.(free := Minus(x.free, n), budget := x.budget + n)
    case DecreaseBudget(n) => x.(free := x.free + n, budget := Minus(x.budget, n))
    case Unregister => x.(free := x.free + x.budget, budget := 0)
    case _ => x
  }

  /** The sponsor record of `who` after an accepted `call`. */
  function CallRecord(before: Option<SponsorState>, call: Call): Option<SponsorState> {
    match call
    case RegisterSponsor(_, policy) => Some(SponsorState(true, policy))
    case Unregister => None
    case SetPolicy(policy) => if before.None? then None else Some(before.value.(policy := policy))
    case Pause => if before.None? then None else Some(before.value.(active := false))
    case Resume => if before.None? then None else Some(before.value.(active := true))
    case IncreaseBudget(_) => before
    case DecreaseBudget(_) => before
  }

  /** The event an accepted `call` logs; `budget` is the budget hold left behind. */
  function CallEvent(who: AccountId, call: Call, budget: nat): Event {
    match call
    case RegisterSponsor(b, _) => SponsorRegistered(who, b)
    case IncreaseBudget(n) => BudgetIncreased(who, n, budget)
    case DecreaseBudget(n) => BudgetDecreased(who, n, budget)
    case SetPolicy(_) => SponsorPolicyUpdated(who)
    case Pause => SponsorPaused(who)
    case Resume => SponsorResumed(who)
    case Unregister => SponsorUnregistered(who)
  }

  function PutRecord(sponsors: map<AccountId, SponsorState>, who: AccountId, r: Option<SponsorState>)
    : map<AccountId, SponsorState>
  {
    if r.Some? then sponsors[who := r.value] else sponsors - {who}
  }

  function CallEffect(s: State, who: AccountId, call: Call): State {
    var x := CallAccount(Acct(s, who), call);
    s.(accounts := if x == Acct(s, who) then s.accounts else s.accounts[who := x],
       sponsors := PutRecord(s.sponsors, who, CallRecord(SponsorOf(s, who), call)),
       log := s.log + [CallEvent(who, call, x.budget)])
  }

  /** One dispatch of `call`: the state after it and the error returned, if any. */
  function Dispatch(cfg: Config, s: State, origin: Option<AccountId>, call: Call, refused: bool)
    : (State, Option<Error>)
  {
    if origin.None? then (s, Some(BadOrigin))
    else
      var error := CallError(cfg, s, origin.value, call, refused);
      if error.Some? then (s, error) else (CallEffect(s, origin.value, call), None)
  }

  /** A call changes the account and the record of its caller and of nobody else. */
  lemma EffectIsLocal(s: State, who: AccountId, call: Call, a: AccountId)
    ensures var t := CallEffect(s, who, call);
            && Acct(t, a) == (if a == who then CallAccount(Acct(s, a), call) else Acct(s, a))
            && SponsorOf(t, a) == (if a == who then CallRecord(SponsorOf(s, a), call) else SponsorOf(s, a))
  {
  }

  /** An accepted call moves money between the caller's own balances. */
  lemma CallConserves(cfg: Config, s: State, who: AccountId, call: Call, refused: bool)
    requires CallError(cfg, s, who, call, refused).None?
    ensures CallAccount(Acct(s, who), call).Sum() == Acct(s, who).Sum()
    ensures CallAccount(Acct(s, who), call).pending == Acct(s, who).pending
  {
  }
}
