/** Runs in which calls, outside moves, reservations and settlements overlap in any order, and in
    which any ledger step may be refused. */
module Machine {
  import opened Types
  import opened Ledger
  import opened Pallet
  import opened Extension

  /** What other code may do to accounts. With `keepAlive` an account that has holds is not taken
      below the existential deposit. `Withdraw` covers the fee of an unsponsored transaction. */
  datatype Move =
    | Transfer(from: AccountId, to: AccountId, amount: nat, keepAlive: bool)
    | Withdraw(from: AccountId, amount: nat, keepAlive: bool)
    | OtherHold(who: AccountId, amount: nat)
    | OtherRelease(who: AccountId, amount: nat)

  predicate CanTake(cfg: Config, x: Account, amount: nat, keepAlive: bool) {
    amount <= x.free &&
    (keepAlive && x.budget + x.pending + x.other > 0 ==> amount <= Holdable(cfg, x))
  }

  function Taken(s: State, a: AccountId, amount: nat): State
    requires amount <= Acct(s, a).free
  {
    SetAcct(s, a, Acct(s, a).(free := Acct(s, a).free - amount))
  }

  /** An impossible move does nothing. */
  function Outside(cfg: Config, s: State, mv: Move): State {
    match mv
    case Transfer(from, to, amount, keepAlive) =>
      if !CanTake(cfg, Acct(s, from), amount, keepAlive) then s
      else
        var t := Taken(s, from, amount);
        SetAcct(t, to, Acct(t, to).(free := Acct(t, to).free + amount))
    case Withdraw(from, amount, keepAlive) =>
      if !CanTake(cfg, Acct(s, from), amount, keepAlive) then s
      else Taken(s, from, amount).(elsewhere := s.elsewhere + amount)
    case OtherHold(who, amount) =>
      if amount > Holdable(cfg, Acct(s, who)) then s
      else
        var x := Acct(s, who);
        SetAcct(s, who, x.(free := x.free - amount, other := x.other + amount))
    case OtherRelease(who, amount) =>
      var x := Acct(s, who);
      if amount > x.other then s
      else SetAcct(s, who, x.(free := x.free + amount, other := x.other - amount))
  }

  datatype Basic =
    | DoCall(origin: Option<AccountId>, call: Call, refused: bool)
    | DoMove(mv: Move)

  datatype Step =
    | Do(b: Basic)
    | Prepare(tx: Tx, no: Refusals)
    | Settle(i: nat, actual: nat, no: Refusals)

  /** History of one account: what it escrowed, got back, and was charged; what a refused hold left
      spendable, ever (`leaked`) and since the last registration (`stray`). */
  datatype Book = Book(escrowed: nat, released: nat, charged: nat, leaked: nat, stray: nat)

  const NEW_BOOK := Book(0, 0, 0, 0, 0)

  datatype Machine = Machine(
    chain: State,
    inflight: seq<Reservation>,
    receipts: seq<Receipt>,
    books: map<AccountId, Book>)

  function BookOf(m: Machine, a: AccountId): Book {
    if a in m.books then m.books[a] else NEW_BOOK
  }

  function CallBook(b: Book, call: Call, budget: nat): Book {
    match call
    case RegisterSponsor(n, _) => b.(escrowed := b.escrowed + n)
    case IncreaseBudget(n) => b.(escrowed := b.escrowed + n)
    case DecreaseBudget(n) => b.(released := b.released + n)
    case Unregister => b.(released := b.released + budget, stray := 0)
    case _ => b
  }

  function Leak(b: Book, n: nat): Book {
    b.(leaked := b.leaked + n, stray := b.stray + n)
  }

  function AfterBasic(cfg: Config, m: Machine, b: Basic): Machine {
    match b
    case DoMove(mv) => m.(chain := Outside(cfg, m.chain, mv))
    case DoCall(origin, call, refused) =>
      var (s, error) := Dispatch(cfg, m.chain, origin, call, refused);
      if error.Some? then m.(chain := s)
      else
        var a := origin.value;
        m.(chain := s, books := m.books[a := CallBook(BookOf(m, a), call, Acct(m.chain, a).budget)])
  }

  /** Validation and reservation, with whatever a failed reservation leaves behind. */
  function AfterPrepare(cfg: Config, m: Machine, tx: Tx, no: Refusals): Machine {
    match Validate(cfg, m.chain, tx)
    case Err(_) => m
    case Ok(r) =>
      var s := AfterMove(cfg, m.chain, r.sponsor, r.estimate, no);
      match MoveOutcomeOf(cfg, Acct(m.chain, r.sponsor), r.estimate, no)
      case Moved => m.(chain := s, inflight := m.inflight + [r])
      case NotReleased => m.(chain := s)
      case NotHeld => m.(chain := s, books := m.books[r.sponsor := Leak(BookOf(m, r.sponsor), r.estimate)])
  }

  function SettleBook(b: Book, receipt: Receipt): Book {
    var c := b.(charged := b.charged + receipt.fee);
    if receipt.restore.ReholdFailed? then Leak(c, receipt.restore.amount) else c
  }

  function AfterSettlement(cfg: Config, m: Machine, i: nat, actual: nat, no: Refusals): Machine {
    if i >= |m.inflight| then m
    else
      var r := m.inflight[i];
      var receipt := SettleReceipt(cfg, Acct(m.chain, r.sponsor), r, actual, no);
      Machine(AfterSettle(cfg, m.chain, r, actual, no),
              m.inflight[..i] + m.inflight[i + 1..],
              m.receipts + [receipt],
              m.books[r.sponsor := SettleBook(BookOf(m, r.sponsor), receipt)])
  }

  function After(cfg: Config, m: Machine, st: Step): Machine {
    match st
    case Do(b) => AfterBasic(cfg, m, b)
    case Prepare(tx, no) => AfterPrepare(cfg, m, tx, no)
    case Settle(i, actual, no) => AfterSettlement(cfg, m, i, actual, no)
  }

  function Run(cfg: Config, m: Machine, steps: seq<Step>): Machine
    decreases |steps|
  {
    if steps == [] then m else Run(cfg, After(cfg, m, steps[0]), steps[1..])
  }

  /** Every account is filed under its owner and holds no sponsorship funds, and nothing has happened
      yet. */
  ghost predicate Genesis(m: Machine) {
    (forall a :: Acct(m.chain, a).owner == a && Acct(m.chain, a).budget == 0 && Acct(m.chain, a).pending == 0) &&
    m.chain.sponsors == map[] && m.chain.log == [] && m.chain.credit == 0 &&
    m.inflight == [] && m.receipts == [] && m.books == map[]
  }

  lemma {:induction false} RunConcat(cfg: Config, m: Machine, s: seq<Step>, t: seq<Step>)
    ensures Run(cfg, m, s + t) == Run(cfg, Run(cfg, m, s), t)
    decreases |s|
  {
    if s == [] {
      assert s + t == t;
    } else {
      assert (s + t)[0] == s[0] && (s + t)[1..] == s[1..] + t;
      RunConcat(cfg, After(cfg, m, s[0]), s[1..], t);
    }
  }
}

/** Where every unit of money is, in every overlap of steps. */
module Conservation {
  import opened Types
  import opened Ledger
  import opened Pallet
  import opened Extension
  import opened Machine

  ghost function Wealth(s: State): nat {
    Total(s.accounts) + s.credit + s.elsewhere
  }

  lemma WriteMoves(s: State, a: AccountId, x: Account)
    ensures Wealth(SetAcct(s, a, x)) + Acct(s, a).Sum() == Wealth(s) + x.Sum()
  {
    TotalAfterWrite(s.accounts, a, x);
  }

  lemma TransferKeepsWealth(s: State, from: AccountId, to: AccountId, amount: nat)
    requires amount <= Acct(s, from).free
    ensures var t := Taken(s, from, amount);
            Wealth(SetAcct(t, to, Acct(t, to).(free := Acct(t, to).free + amount))) == Wealth(s)
  {
    WriteMoves(s, from, Acct(s, from).(free := Acct(s, from).free - amount));
    var t := Taken(s, from, amount);
    WriteMoves(t, to, Acct(t, to).(free := Acct(t, to).free + amount));
  }

  lemma OutsideKeepsWealth(cfg: Config, s: State, mv: Move)
    ensures Wealth(Outside(cfg, s, mv)) == Wealth(s)
  {
    match mv
    case Transfer(from, to, amount, keepAlive) =>
      if CanTake(cfg, Acct(s, from), amount, keepAlive) { TransferKeepsWealth(s, from, to, amount); }
    case Withdraw(from, amount, keepAlive) =>
      if CanTake(cfg, Acct(s, from), amount, keepAlive) {
        WriteMoves(s, from, Acct(s, from).(free := Acct(s, from).free - amount));
      }
    case OtherHold(who, amount) =>
      var x := Acct(s, who);
      if amount <= Holdable(cfg, x) {
        WriteMoves(s, who, x.(free := x.free - amount, other := x.other + amount));
      }
    case OtherRelease(who, amount) =>
      var x := Acct(s, who);
      if amount <= x.other {
        WriteMoves(s, who, x.(free := x.free + amount, other := x.other - amount));
      }
  }

  lemma DispatchKeepsWealth(cfg: Config, s: State, origin: Option<AccountId>, call: Call, refused: bool)
    ensures Wealth(Dispatch(cfg, s, origin, call, refused).0) == Wealth(s)
  {
    if origin.Some? && CallError(cfg, s, origin.value, call, refused).None? {
      var x := CallAccount(Acct(s, origin.value), call);
      CallConserves(cfg, s, origin.value, call, refused);
      WriteMoves(s, origin.value, x);
      var t := CallEffect(s, origin.value, call);
      assert t.accounts == if x == Acct(s, origin.value) then s.accounts else SetAcct(s, origin.value, x).accounts;
    }
  }

  lemma MoveKeepsWealth(cfg: Config, s: State, a: AccountId, amount: nat, no: Refusals)
    ensures Wealth(AfterMove(cfg, s, a, amount, no)) == Wealth(s)
  {
    WriteMoves(s, a, MoveBudgetToPending(cfg, Acct(s, a), amount, no));
  }

  lemma SettleKeepsWealth(cfg: Config, s: State, r: Reservation, actual: nat, no: Refusals)
    ensures Wealth(AfterSettle(cfg, s, r, actual, no)) == Wealth(s)
  {
    WriteMoves(s, r.sponsor, SettleAccount(cfg, Acct(s, r.sponsor), r, actual, no));
  }

  lemma StepKeepsWealth(cfg: Config, m: Machine, st: Step)
    ensures Wealth(After(cfg, m, st).chain) == Wealth(m.chain)
  {
    match st
    case Do(DoCall(origin, call, refused)) => DispatchKeepsWealth(cfg, m.chain, origin, call, refused);
    case Do(DoMove(mv)) => OutsideKeepsWealth(cfg, m.chain, mv);
    case Prepare(tx, no) =>
      if Validate(cfg, m.chain, tx).Ok? {
        var r := Validate(cfg, m.chain, tx).value;
        MoveKeepsWealth(cfg, m.chain, r.sponsor, r.estimate, no);
      }
    case Settle(i, actual, no) =>
      if i < |m.inflight| { SettleKeepsWealth(cfg, m.chain, m.inflight[i], actual, no); }
  }

  /** All balances plus all credit routed out are the same after any run. */
  lemma {:induction false} WealthConserved(cfg: Config, m: Machine, steps: seq<Step>)
    ensures Wealth(Run(cfg, m, steps).chain) == Wealth(m.chain)
    decreases |steps|
  {
    if steps == [] {
    } else {
      StepKeepsWealth(cfg, m, steps[0]);
      WealthConserved(cfg, After(cfg, m, steps[0]), steps[1..]);
    }
  }
}
