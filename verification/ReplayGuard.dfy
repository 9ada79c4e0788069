/** Exactly when the event log replays the escrow, told by what can be read before each step. */
module ReplayGuard {
  import opened Types
  import opened Pallet
  import opened Extension
  import opened Machine
  import opened Conservation
  import opened EventLog
  import opened Safety
  import opened Interleaving
  import opened Spending
  import opened Discipline
  import opened Marks
  import opened Sequential

  /** A reservation of `n` gets released from the budget but not held as pending. */
  predicate ReserveLeaks(cfg: Config, x: Account, n: nat, no: Refusals) {
    n > 0 && !no.release && (no.hold || x.free < cfg.ed)
  }

  /** A settlement has a remainder that gets released from pending but not held as budget. */
  predicate SettleLeaks(cfg: Config, x: Account, r: Reservation, actual: nat, no: Refusals) {
    x.pending > Min(actual, r.estimate) && !no.release && (no.hold || x.free < cfg.ed)
  }

  /** Step `st`, taken in `m`, leaves escrow of `a` spendable without an event. */
  predicate Leaks(cfg: Config, m: Machine, st: Step, a: AccountId) {
    match st
    case Do(_) => false
    case Prepare(tx, no) =>
      a == tx.sponsor && Validate(cfg, m.chain, tx).Ok? &&
      ReserveLeaks(cfg, Acct(m.chain, a), Validate(cfg, m.chain, tx).value.estimate, no)
    case Settle(i, actual, no) =>
      i < |m.inflight| && a == m.inflight[i].sponsor &&
      SettleLeaks(cfg, Acct(m.chain, a), m.inflight[i], actual, no)
  }

  predicate Unregisters(cfg: Config, m: Machine, st: Step, a: AccountId) {
    Accepted(cfg, m.chain, st, a) && st.b.call.Unregister?
  }

  lemma PrepareStray(cfg: Config, m: Machine, tx: Tx, no: Refusals, a: AccountId)
    requires Fits(cfg, m.chain)
    ensures var b, c := BookOf(m, a).stray, BookOf(AfterPrepare(cfg, m, tx, no), a).stray;
            if Leaks(cfg, m, Prepare(tx, no), a) then c > b else c == b
  {
    if Validate(cfg, m.chain, tx).Ok? {
      PrepareIsLocal(cfg, m, tx, no, a);
      var n := AfterPrepare(cfg, m, tx, no);
      assert CellOf(n, a).book == BookOf(n, a);
      AccountFits(cfg, m.chain, tx.sponsor);
      MoveFailsIff(cfg, Acct(m.chain, tx.sponsor), Validate(cfg, m.chain, tx).value.estimate, no);
    }
  }

  lemma SettleStray(cfg: Config, m: Machine, i: nat, actual: nat, no: Refusals, a: AccountId)
    requires Fits(cfg, m.chain) && i < |m.inflight|
    ensures var b, c := BookOf(m, a).stray, BookOf(AfterSettlement(cfg, m, i, actual, no), a).stray;
            if Leaks(cfg, m, Settle(i, actual, no), a) then c > b else c == b
  {
    var r := m.inflight[i];
    if a == r.sponsor {
      var x := Acct(m.chain, a);
      AccountFits(cfg, m.chain, a);
      RestoreFailsIff(cfg, x.(pending := x.pending - Charge(r, actual, x.pending)), no);
    }
  }

  /** A leak loses escrow to the log's reader; an unregistration starts the reader afresh. */
  function StepMark(cfg: Config, m: Machine, st: Step, a: AccountId): Mark {
    if Unregisters(cfg, m, st, a) then Clears else if Leaks(cfg, m, st, a) then Loses else Keeps
  }

  function StepMarks(cfg: Config, m: Machine, steps: seq<Step>, a: AccountId): seq<Mark>
    decreases |steps|
  {
    if steps == [] then []
    else [StepMark(cfg, m, steps[0], a)] + StepMarks(cfg, After(cfg, m, steps[0]), steps[1..], a)
  }

  lemma StepStray(cfg: Config, m: Machine, st: Step, a: AccountId)
    requires Fits(cfg, m.chain)
    ensures StepMark(cfg, m, st, a).Moves(BookOf(m, a).stray, BookOf(After(cfg, m, st), a).stray)
  {
    match st
    case Do(b) =>
    case Prepare(tx, no) => PrepareStray(cfg, m, tx, no, a);
    case Settle(i, actual, no) => if i < |m.inflight| { SettleStray(cfg, m, i, actual, no, a); }
  }

  /** Every step of the run that leaks escrow of `a` is followed by an accepted unregistration. */
  predicate LeaksCleared(cfg: Config, m: Machine, steps: seq<Step>, a: AccountId) {
    Cleared(StepMarks(cfg, m, steps, a))
  }

  lemma {:induction false} StrayIff(cfg: Config, m: Machine, steps: seq<Step>, a: AccountId)
    requires Fits(cfg, m.chain)
    ensures BookOf(Run(cfg, m, steps), a).stray == 0 <==>
            EndsAtZero(StepMarks(cfg, m, steps, a), BookOf(m, a).stray)
    decreases |steps|
  {
    if steps == [] {
    } else {
      var n := After(cfg, m, steps[0]);
      StepKeepsWealth(cfg, m, steps[0]);
      StepStray(cfg, m, steps[0], a);
      StrayIff(cfg, n, steps[1..], a);
      EndsAtZeroCons(StepMark(cfg, m, steps[0], a), StepMarks(cfg, n, steps[1..], a),
                     BookOf(m, a).stray, BookOf(n, a).stray);
    }
  }

  /** In every overlap and under any refusals: registration and active flag always replay, and the
      replayed escrow of a sponsor is its budget plus its pending hold if and only if every step whose
      guard leaks was followed by an unregistration. */
  lemma EventReplay(cfg: Config, m: Machine, steps: seq<Step>, a: AccountId)
    requires Genesis(m) && Fits(cfg, m.chain)
    ensures var s := Run(cfg, m, steps).chain;
            var v := Replay(s.log, a);
            && (v.Some? <==> a in s.sponsors)
            && (v.Some? ==> v.value.active == s.sponsors[a].active)
            && (v.Some? ==> (v.value.held == Acct(s, a).budget + Acct(s, a).pending
                             <==> LeaksCleared(cfg, m, steps, a)))
  {
    ReplayUpToStray(cfg, m, steps, a);
    StrayIff(cfg, m, steps, a);
  }

  /** When accounts are kept alive and prepare and settle meet no refusal of the ledger's own, the log
      alone gives registration, flag and escrow in every overlap, several reservations of one sponsor
      included. */
  lemma CourteousReplay(cfg: Config, m: Machine, steps: seq<Step>, a: AccountId)
    requires Start(cfg, m) && forall st <- steps :: Courteous(st)
    ensures var s := Run(cfg, m, steps).chain;
            Replay(s.log, a) ==
            if a in s.sponsors then Some(View(s.sponsors[a].active, Acct(s, a).budget + Acct(s, a).pending)) else None
  {
    CourteousClears(cfg, m, steps, a);
    EventReplay(cfg, m, steps, a);
  }

  // --------------------------------------------------------- logged budgets

  predicate IsBudgetCall(call: Call) { call.IncreaseBudget? || call.DecreaseBudget? }

  /** The last event is a budget event of `who`, and its `new_budget` is the replayed escrow less what
      is pending. */
  predicate LogsBudget(s: State, who: AccountId) {
    && s.log != []
    && var e := s.log[|s.log| - 1];
       var v := Replay(s.log, who);
    && (e.BudgetIncreased? || e.BudgetDecreased?) && e.sponsor == who && v.Some?
    && e.newBudget == v.value.held - Acct(s, who).pending
  }

  /** Wherever a budget call is accepted, its event reports the replayed escrow less what is pending if
      and only if every leak before it was followed by an unregistration. */
  lemma LoggedBudget(cfg: Config, m: Machine, steps: seq<Step>, who: AccountId, call: Call, refused: bool)
    requires Genesis(m) && Fits(cfg, m.chain) && IsBudgetCall(call)
    requires CallError(cfg, Run(cfg, m, steps).chain, who, call, refused).None?
    ensures LogsBudget(After(cfg, Run(cfg, m, steps), Do(DoCall(Some(who), call, refused))).chain, who) <==>
            LeaksCleared(cfg, m, steps, who)
  {
    LoggedUpToStray(cfg, m, steps, who, call, refused);
    StrayIff(cfg, m, steps, who);
    WealthConserved(cfg, m, steps);
    StepStray(cfg, Run(cfg, m, steps), Do(DoCall(Some(who), call, refused)), who);
  }

  lemma CourteousLoggedBudget(cfg: Config, m: Machine, steps: seq<Step>, who: AccountId, call: Call, refused: bool)
    requires Start(cfg, m) && forall st <- steps :: Courteous(st)
    requires IsBudgetCall(call) && CallError(cfg, Run(cfg, m, steps).chain, who, call, refused).None?
    ensures LogsBudget(After(cfg, Run(cfg, m, steps), Do(DoCall(Some(who), call, refused))).chain, who)
  {
    CourteousClears(cfg, m, steps, who);
    LoggedBudget(cfg, m, steps, who, call, refused);
  }

  lemma CourteousClears(cfg: Config, m: Machine, steps: seq<Step>, a: AccountId)
    requires Start(cfg, m) && forall st <- steps :: Courteous(st)
    ensures LeaksCleared(cfg, m, steps, a)
  {
    assert Alive(cfg, Acct(m.chain, a));
    RunLeaksNothing(cfg, m, steps, a);
    ReachableIsGood(cfg, m, steps, a);
    assert BooksBalance(CellOf(Run(cfg, m, steps), a));
    StrayIff(cfg, m, steps, a);
  }

  // ------------------------------------------------ transactions one at a time

  /** The settlement that ends a transaction of `a` leaks; a reservation that would is discarded. */
  predicate ItemLeaks(cfg: Config, m: Machine, it: Item, a: AccountId) {
    it.Sponsored? && it.tx.sponsor == a && Reserved(cfg, m, it) &&
    SettleLeaks(cfg, Acct(Dispatched(cfg, m, it).chain, a), Validate(cfg, m.chain, it.tx).value,
                ActualFee(cfg, it), it.settle)
  }

  predicate BasicsUnregister(cfg: Config, m: Machine, ds: seq<Basic>, a: AccountId)
    decreases |ds|
  {
    ds != [] &&
    (Unregisters(cfg, m, Do(ds[0]), a) || BasicsUnregister(cfg, AfterBasic(cfg, m, ds[0]), ds[1..], a))
  }

  /** An unregistration of `a` is accepted in the course of `it`, and kept. */
  predicate ItemUnregisters(cfg: Config, m: Machine, it: Item, a: AccountId) {
    match it
    case Alone(b) => Unregisters(cfg, m, Do(b), a)
    case Sponsored(tx, reserve, dispatch, success, _, _) =>
      Reserved(cfg, m, it) && success && BasicsUnregister(cfg, AfterPrepare(cfg, m, tx, reserve), dispatch, a)
  }

  function ItemMark(cfg: Config, m: Machine, it: Item, a: AccountId): Mark {
    if ItemLeaks(cfg, m, it, a) then Loses else if ItemUnregisters(cfg, m, it, a) then Clears else Keeps
  }

  function ItemMarks(cfg: Config, m: Machine, items: seq<Item>, a: AccountId): seq<Mark>
    decreases |items|
  {
    if items == [] then []
    else [ItemMark(cfg, m, items[0], a)] + ItemMarks(cfg, Exec(cfg, m, items[0]), items[1..], a)
  }

  lemma {:induction false} BasicsStray(cfg: Config, m: Machine, ds: seq<Basic>, a: AccountId)
    requires Fits(cfg, m.chain)
    ensures BookOf(RunBasics(cfg, m, ds), a).stray ==
            if BasicsUnregister(cfg, m, ds, a) then 0 else BookOf(m, a).stray
    decreases |ds|
  {
    if ds == [] {
    } else {
      StepStray(cfg, m, Do(ds[0]), a);
      StepKeepsWealth(cfg, m, Do(ds[0]));
      BasicsStray(cfg, AfterBasic(cfg, m, ds[0]), ds[1..], a);
    }
  }

  lemma ItemStray(cfg: Config, m: Machine, it: Item, a: AccountId)
    requires Fits(cfg, m.chain)
    ensures ItemMark(cfg, m, it, a).Moves(BookOf(m, a).stray, BookOf(Exec(cfg, m, it), a).stray)
  {
    match it
    case Alone(b) => StepStray(cfg, m, Do(b), a);
    case Sponsored(tx, reserve, dispatch, success, _, settle) =>
      if Reserved(cfg, m, it) {
        var p := AfterPrepare(cfg, m, tx, reserve);
        assert p.books == m.books;
        StepKeepsWealth(cfg, m, Prepare(tx, reserve));
        if success { BasicsStray(cfg, p, dispatch, a); }
        HandedOn(cfg, m, it, a);
        SettleStray(cfg, Dispatched(cfg, m, it), |m.inflight|, ActualFee(cfg, it), settle, a);
      }
  }

  lemma {:induction false} ItemsStrayIff(cfg: Config, m: Machine, items: seq<Item>, a: AccountId)
    requires Fits(cfg, m.chain)
    ensures BookOf(ExecAll(cfg, m, items), a).stray == 0 <==>
            EndsAtZero(ItemMarks(cfg, m, items, a), BookOf(m, a).stray)
    decreases |items|
  {
    if items == [] {
    } else {
      var n := Exec(cfg, m, items[0]);
      ExecFits(cfg, m, items[0]);
      ItemStray(cfg, m, items[0], a);
      ItemsStrayIff(cfg, n, items[1..], a);
      EndsAtZeroCons(ItemMark(cfg, m, items[0], a), ItemMarks(cfg, n, items[1..], a),
                     BookOf(m, a).stray, BookOf(n, a).stray);
    }
  }

  /** Of transactions run one at a time only settlements can leak: the replayed escrow is exact if and
      only if every settlement that leaks is followed by an unregistration that is accepted and kept. */
  lemma SequentialReplay(cfg: Config, m: Machine, items: seq<Item>, a: AccountId)
    requires Genesis(m) && Fits(cfg, m.chain)
    ensures var s := ExecAll(cfg, m, items).chain;
            var v := Replay(s.log, a);
            && (v.Some? <==> a in s.sponsors)
            && (v.Some? ==> v.value.active == s.sponsors[a].active)
            && (v.Some? ==> (v.value.held == Acct(s, a).budget + Acct(s, a).pending
                             <==> Cleared(ItemMarks(cfg, m, items, a))))
  {
    SequentialIsInterleaving(cfg, m, items);
    ReplayUpToStray(cfg, m, AllSteps(cfg, m, items), a);
    ItemsStrayIff(cfg, m, items, a);
  }
}
