/** What an observer of the event log alone can rebuild. */
module EventLog {
  import opened Types

  datatype View = View(active: bool, held: int)

  function ReplayEvent(v: Option<View>, e: Event, a: AccountId): Option<View> {
    if e.sponsor != a then v
    else
      match e
      case SponsorRegistered(_, initial) => Some(View(true, initial))
      case SponsorUnregistered(_) => None
      case _ =>
        if v.None? then None
        else
          match e
          case BudgetIncreased(_, n, _) => Some(v.value.(held := v.value.held + n))
          case BudgetDecreased(_, n, _) => Some(v.value.(held := v.value.held - n))
          case SponsoredTransactionFeePaid(_, _, fee, _) => Some(v.value.(held := v.value.held - fee))
          case SponsorPaused(_) => Some(v.value.(active := false))
          case SponsorResumed(_) => Some(v.value.(active := true))
          case _ => v
  }

  /** Folds the log into the registration, active flag and escrow of `a`. */
  function Replay(log: seq<Event>, a: AccountId): Option<View> {
    if log == [] then None
    else ReplayEvent(Replay(log[..|log| - 1], a), log[|log| - 1], a)
  }

  lemma ReplayAppend(log: seq<Event>, e: Event, a: AccountId)
    ensures Replay(log + [e], a) == ReplayEvent(Replay(log, a), e, a)
  {
    assert (log + [e])[..|log|] == log;
  }
}

/** What every step keeps about every account, whatever overlaps and whatever is refused. */
module Safety {
  import opened Types
  import opened Pallet
  import opened Extension
  import opened Machine
  import opened EventLog

  /** Everything the state and the history say about one account. */
  datatype Cell = Cell(account: Account, record: Option<SponsorState>, book: Book, view: Option<View>)

  function CellOf(m: Machine, a: AccountId): Cell {
    Cell(Acct(m.chain, a), SponsorOf(m.chain, a), BookOf(m, a), Replay(m.chain.log, a))
  }

  /** The log tells the truth, up to what refused holds left spendable. */
  predicate LogTruthful(c: Cell) {
    (c.view.None? <==> c.record.None?) &&
    (c.view.None? ==> c.book.stray == 0) &&
    (c.view.Some? ==>
      c.view.value.active == c.record.value.active &&
      c.view.value.held == c.account.budget + c.account.pending + c.book.stray)
  }

  /** Every unit ever escrowed is released, charged, leaked, or still on hold. */
  predicate BooksBalance(c: Cell) {
    c.book.escrowed ==
    c.book.released + c.book.charged + c.book.leaked + c.account.budget + c.account.pending &&
    c.book.stray <= c.book.leaked
  }

  predicate EscrowOwned(c: Cell) {
    c.account.budget + c.account.pending > 0 ==> c.record.Some?
  }

  predicate PolicyStored(c: Cell) {
    c.record.Some? ==>
      c.record.value.policy.allowedCallers != [] && Distinct(c.record.value.policy.allowedCallers)
  }

  predicate GoodCell(c: Cell) {
    LogTruthful(c) && BooksBalance(c) && EscrowOwned(c) && PolicyStored(c)
  }

  /** Besides, the balances filed under `a` are those of `a`. */
  predicate Good(m: Machine, a: AccountId) { GoodCell(CellOf(m, a)) && Acct(m.chain, a).owner == a }

  function CallCell(c: Cell, who: AccountId, call: Call): Cell {
    var x := CallAccount(c.account, call);
    Cell(x, CallRecord(c.record, call), CallBook(c.book, call, c.account.budget),
         ReplayEvent(c.view, CallEvent(who, call, x.budget), who))
  }

  lemma AcceptedCall(cfg: Config, m: Machine, who: AccountId, call: Call, refused: bool)
    requires CallError(cfg, m.chain, who, call, refused).None?
    ensures AfterBasic(cfg, m, DoCall(Some(who), call, refused)) ==
            m.(chain := CallEffect(m.chain, who, call),
               books := m.books[who := CallBook(BookOf(m, who), call, Acct(m.chain, who).budget)])
  {
  }

  /** An accepted call changes the caller's cell and no other. */
  lemma CallIsLocal(cfg: Config, m: Machine, who: AccountId, call: Call, refused: bool, a: AccountId)
    requires CallError(cfg, m.chain, who, call, refused).None?
    ensures var n := AfterBasic(cfg, m, DoCall(Some(who), call, refused));
            CellOf(n, a) == if a == who then CallCell(CellOf(m, a), who, call) else CellOf(m, a)
  {
    AcceptedCall(cfg, m, who, call, refused);
    EffectIsLocal(m.chain, who, call, a);
    ReplayAppend(m.chain.log, CallEvent(who, call, CallAccount(Acct(m.chain, who), call).budget), a);
  }

  lemma CallKeepsCell(cfg: Config, m: Machine, who: AccountId, call: Call, refused: bool)
    requires CallError(cfg, m.chain, who, call, refused).None?
    requires Good(m, who)
    ensures GoodCell(CallCell(CellOf(m, who), who, call))
    ensures CallAccount(Acct(m.chain, who), call).owner == who
  {
  }

  lemma CallKeepsGood(cfg: Config, m: Machine, who: AccountId, call: Call, refused: bool, a: AccountId)
    requires CallError(cfg, m.chain, who, call, refused).None?
    requires Good(m, a)
    ensures Good(AfterBasic(cfg, m, DoCall(Some(who), call, refused)), a)
  {
    CallIsLocal(cfg, m, who, call, refused, a);
    var n := AfterBasic(cfg, m, DoCall(Some(who), call, refused));
    assert CellOf(n, a).account == Acct(n.chain, a);
    if a == who { CallKeepsCell(cfg, m, who, call, refused); }
  }

  /** Other code, the unsponsored payment path included, leaves sponsorship alone. */
  lemma OutsideFrame(cfg: Config, s: State, mv: Move, a: AccountId)
    ensures var t := Outside(cfg, s, mv);
            t.sponsors == s.sponsors && t.log == s.log && t.credit == s.credit &&
            Acct(t, a).budget == Acct(s, a).budget && Acct(t, a).pending == Acct(s, a).pending &&
            Acct(t, a).owner == Acct(s, a).owner
  {
    match mv
    case Transfer(from, to, amount, keepAlive) =>
      if CanTake(cfg, Acct(s, from), amount, keepAlive) { assert Taken(s, from, amount).log == s.log; }
    case _ =>
  }

  lemma MoveKeepsGood(cfg: Config, m: Machine, mv: Move, a: AccountId)
    requires Good(m, a)
    ensures Good(AfterBasic(cfg, m, DoMove(mv)), a)
  {
    OutsideFrame(cfg, m.chain, mv, a);
    var d := CellOf(AfterBasic(cfg, m, DoMove(mv)), a);
    assert d == CellOf(m, a).(account := d.account);
  }

  function ReserveCell(cfg: Config, c: Cell, n: nat, no: Refusals): Cell {
    c.(account := MoveBudgetToPending(cfg, c.account, n, no),
       book := if MoveOutcomeOf(cfg, c.account, n, no).NotHeld? then Leak(c.book, n) else c.book)
  }

  lemma ReserveKeepsCell(cfg: Config, c: Cell, n: nat, no: Refusals)
    requires GoodCell(c)
    requires c.record.Some?
    ensures GoodCell(ReserveCell(cfg, c, n, no))
    ensures ReserveCell(cfg, c, n, no).account.owner == c.account.owner
  {
  }

  /** A reservation touches the sponsor's cell only, and not its record or its log. */
  lemma PrepareIsLocal(cfg: Config, m: Machine, tx: Tx, no: Refusals, a: AccountId)
    requires Validate(cfg, m.chain, tx).Ok?
    ensures var c := CellOf(m, a);
            var n := Validate(cfg, m.chain, tx).value.estimate;
            CellOf(AfterPrepare(cfg, m, tx, no), a) ==
            if a != tx.sponsor then c
            else ReserveCell(cfg, c, n, no)
  {
  }

  lemma PrepareKeepsGood(cfg: Config, m: Machine, tx: Tx, no: Refusals, a: AccountId)
    requires Good(m, a)
    ensures Good(AfterPrepare(cfg, m, tx, no), a)
  {
    if Validate(cfg, m.chain, tx).Ok? {
      PrepareIsLocal(cfg, m, tx, no, a);
      var n := AfterPrepare(cfg, m, tx, no);
      assert CellOf(n, a).account == Acct(n.chain, a);
      if a == tx.sponsor { ReserveKeepsCell(cfg, CellOf(m, a), Validate(cfg, m.chain, tx).value.estimate, no); }
    }
  }

  function SettleCell(cfg: Config, c: Cell, r: Reservation, actual: nat, no: Refusals): Cell {
    var receipt := SettleReceipt(cfg, c.account, r, actual, no);
    c.(account := SettleAccount(cfg, c.account, r, actual, no),
       book := SettleBook(c.book, receipt),
       view := ReplayEvent(c.view, PaidEvent(receipt), r.sponsor))
  }

  /** A settlement touches the sponsor's cell only, and not its record. */
  lemma SettleIsLocal(cfg: Config, m: Machine, i: nat, actual: nat, no: Refusals, a: AccountId)
    requires i < |m.inflight|
    ensures var r := m.inflight[i];
            CellOf(AfterSettlement(cfg, m, i, actual, no), a) ==
            if a == r.sponsor then SettleCell(cfg, CellOf(m, a), r, actual, no) else CellOf(m, a)
  {
    var r := m.inflight[i];
    ReplayAppend(m.chain.log, PaidEvent(SettleReceipt(cfg, Acct(m.chain, r.sponsor), r, actual, no)), a);
  }

  lemma SettleKeepsCell(cfg: Config, c: Cell, r: Reservation, actual: nat, no: Refusals)
    requires GoodCell(c)
    ensures GoodCell(SettleCell(cfg, c, r, actual, no))
    ensures SettleCell(cfg, c, r, actual, no).account.owner == c.account.owner
  {
  }

  lemma StepKeepsGood(cfg: Config, m: Machine, st: Step, a: AccountId)
    requires Good(m, a)
    ensures Good(After(cfg, m, st), a)
  {
    match st
    case Do(DoCall(origin, call, refused)) =>
      if origin.Some? && CallError(cfg, m.chain, origin.value, call, refused).None? {
        CallKeepsGood(cfg, m, origin.value, call, refused, a);
      }
    case Do(DoMove(mv)) => MoveKeepsGood(cfg, m, mv, a);
    case Prepare(tx, no) => PrepareKeepsGood(cfg, m, tx, no, a);
    case Settle(i, actual, no) =>
      if i < |m.inflight| {
        SettleIsLocal(cfg, m, i, actual, no, a);
        SettleKeepsCell(cfg, CellOf(m, a), m.inflight[i], actual, no);
        assert CellOf(After(cfg, m, st), a).account == Acct(After(cfg, m, st).chain, a);
      }
  }

  lemma {:induction false} RunKeepsGood(cfg: Config, m: Machine, steps: seq<Step>, a: AccountId)
    requires Good(m, a)
    ensures Good(Run(cfg, m, steps), a)
    decreases |steps|
  {
    if steps == [] {
    } else {
      StepKeepsGood(cfg, m, steps[0], a);
      RunKeepsGood(cfg, After(cfg, m, steps[0]), steps[1..], a);
    }
  }

  lemma ReachableIsGood(cfg: Config, m: Machine, steps: seq<Step>, a: AccountId)
    requires Genesis(m)
    ensures Good(Run(cfg, m, steps), a)
  {
    RunKeepsGood(cfg, m, steps, a);
  }
}
