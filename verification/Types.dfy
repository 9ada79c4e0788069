/** The values shared by the sponsorship pallet, its transaction extension and the ledger. */
module Types {

  type AccountId = nat

  /** The runtime's `MaxSponsoredCallers`. */
  const MAX_ALLOWED_CALLERS: nat := 32

  datatype Option<+T> = None | Some(value: T)

  /** A bounded vector: longer lists do not decode into a call argument. */
  type Callers = s: seq<AccountId> | |s| <= MAX_ALLOWED_CALLERS

  datatype Policy = Policy(allowedCallers: Callers, maxFeePerTx: nat)

  datatype SponsorState = SponsorState(active: bool, policy: Policy)

  /** One account: the spendable balance, the two sponsorship holds, and every other hold together.
      `owner` repeats the key the account is filed under, and no modelled step reads it: it keeps the
      empty accounts of different keys apart as terms. */
  datatype Account = Account(owner: AccountId, free: nat, budget: nat, pending: nat, other: nat) {
    function Sum(): nat { free + budget + pending + other }
  }

  datatype Event =
    | SponsorRegistered(sponsor: AccountId, initialBudget: nat)
    | BudgetIncreased(sponsor: AccountId, amount: nat, newBudget: nat)
    | BudgetDecreased(sponsor: AccountId, amount: nat, newBudget: nat)
    | SponsorPolicyUpdated(sponsor: AccountId)
    | SponsorPaused(sponsor: AccountId)
    | SponsorResumed(sponsor: AccountId)
    | SponsorUnregistered(sponsor: AccountId)
    | SponsoredTransactionFeePaid(sponsor: AccountId, signer: AccountId, actualFee: nat, tip: nat)

  /** Chain state: `credit` is what settlement routed to the fee destination, `elsewhere` is what
      other code (such as the unsponsored payment path) took out of accounts. */
  datatype State = State(
    accounts: map<AccountId, Account>,
    sponsors: map<AccountId, SponsorState>,
    log: seq<Event>,
    credit: nat,
    elsewhere: nat)

  /** `inclusion(len, weight)` is the fee of a paying transaction before its tip. */
  datatype Config = Config(ed: nat, maxBalance: nat, inclusion: (nat, nat) -> nat)

  function Min(x: nat, y: nat): nat { if x <= y then x else y }

  function Minus(x: nat, y: nat): nat { if x <= y then 0 else x - y }

  /** Absent accounts read as zero, as storage defaults do. */
  function Get(m: map<AccountId, Account>, a: AccountId): Account {
    if a in m then m[a] else Account(a, 0, 0, 0, 0)
  }

  function Acct(s: State, a: AccountId): Account {
    Get(s.accounts, a)
  }

  function SetAcct(s: State, a: AccountId, x: Account): State {
    s.(accounts := s.accounts[a := x])
  }

  function SponsorOf(s: State, a: AccountId): Option<SponsorState> {
    if a in s.sponsors then Some(s.sponsors[a]) else None
  }
}

/** All-or-nothing ledger steps on one account, and the sum of all balances. */
module Ledger {
  import opened Types

  datatype Reason = SponsorshipBudget | SponsorshipPending

  function OnHold(x: Account, r: Reason): nat {
    match r
    case SponsorshipBudget => x.budget
    case SponsorshipPending => x.pending
  }

  function WithHold(x: Account, r: Reason, held: nat): Account {
    match r
    case SponsorshipBudget => x.(budget := held)
    case SponsorshipPending => x.(pending := held)
  }

  /** What may be put on hold while the existential deposit stays free. */
  function Holdable(cfg: Config, x: Account): nat {
    if x.free <= cfg.ed then 0 else x.free - cfg.ed
  }

  /** `refused` stands for any further reason the balances code may have. */
  predicate CanHold(cfg: Config, x: Account, r: Reason, amount: nat, refused: bool) {
    !refused && amount <= Holdable(cfg, x) && OnHold(x, r) + amount <= cfg.maxBalance
  }

  function Held(cfg: Config, x: Account, r: Reason, amount: nat): Account
    requires CanHold(cfg, x, r, amount, false)
  {
    WithHold(x, r, OnHold(x, r) + amount).(free := x.free - amount)
  }

  predicate CanRelease(cfg: Config, x: Account, r: Reason, amount: nat, exact: bool, refused: bool) {
    !refused && (exact ==> amount <= OnHold(x, r)) && x.free + amount <= cfg.maxBalance
  }

  function Released(x: Account, r: Reason, amount: nat): Account {
    var moved := Min(amount, OnHold(x, r));
    WithHold(x, r, OnHold(x, r) - moved).(free := x.free + moved)
  }

  function Slashed(x: Account, r: Reason, amount: nat): Account {
    WithHold(x, r, OnHold(x, r) - Min(amount, OnHold(x, r)))
  }

  /** The sum of every balance on the ledger, free and held. */
  ghost function Total(m: map<AccountId, Account>): nat {
    if m == map[] then 0
    else
      var a :| a in m;
      m[a].Sum() + Total(m - {a})
  }

  lemma {:induction false} TotalWithout(m: map<AccountId, Account>, a: AccountId)
    requires a in m
    ensures Total(m) == m[a].Sum() + Total(m - {a})
    decreases |m|
  {
    var b :| b in m && Total(m) == m[b].Sum() + Total(m - {b});
    if b != a {
      TotalWithout(m - {b}, a);
      TotalWithout(m - {a}, b);
      assert m - {a} - {b} == m - {b} - {a};
    }
  }

  /** Writing one account moves the total by exactly that account's change. */
  lemma TotalAfterWrite(m: map<AccountId, Account>, a: AccountId, x: Account)
    ensures Total(m[a := x]) + Get(m, a).Sum() == Total(m) + x.Sum()
    ensures Get(m, a).Sum() <= Total(m)
  {
    TotalWithout(m[a := x], a);
    assert m[a := x] - {a} == m - {a};
    if a in m {
      TotalWithout(m, a);
    } else {
      assert m - {a} == m;
    }
  }
}
