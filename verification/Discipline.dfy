/** What holds when each sponsor has at most one reservation in flight, and, beyond that, when
    accounts with holds are kept alive and the ledger refuses nothing on its own. */
module Discipline {
  import opened Types
  import opened Ledger
  import opened Pallet
  import opened Extension
  import opened Machine
  import opened Conservation
  import opened Safety
  import opened Spending

  // ---------------------------------------------- one reservation per sponsor

  /** At most one reservation of `a` is in flight, and exactly its estimate is pending. */
  predicate Solo(m: Machine, a: AccountId) {
    var rs := InFlight(m.inflight, a);
    |rs| <= 1 && Acct(m.chain, a).pending == if rs == [] then 0 else rs[0].estimate
  }

  /** At most one reservation of `a` is in flight, and at least its estimate is pending. */
  predicate Covered(m: Machine, a: AccountId) {
    var rs := InFlight(m.inflight, a);
    |rs| <= 1 && (rs != [] ==> Acct(m.chain, a).pending >= rs[0].estimate)
  }

  /** Reservations are made one at a time per sponsor. */
  predicate OneEach(m: Machine, st: Step) {
    st.Prepare? ==> InFlight(m.inflight, st.tx.sponsor) == []
  }

  /** Besides, a settlement may release what it restores. */
  predicate Serial(m: Machine, st: Step) {
    OneEach(m, st) && (st.Settle? ==> !st.no.release)
  }

  /** No sum of balances can leave the balance type. */
  ghost predicate Fits(cfg: Config, s: State) { Wealth(s) <= cfg.maxBalance }

  lemma AccountFits(cfg: Config, s: State, a: AccountId)
    requires Fits(cfg, s)
    ensures Acct(s, a).Sum() <= cfg.maxBalance
  {
    TotalAfterWrite(s.accounts, a, Acct(s, a));
  }

  lemma BasicKeepsPending(cfg: Config, m: Machine, b: Basic, a: AccountId)
    ensures var n := AfterBasic(cfg, m, b);
            && Acct(n.chain, a).pending == Acct(m.chain, a).pending
            && n.inflight == m.inflight && n.receipts == m.receipts && n.chain.credit == m.chain.credit
  {
    match b
    case DoMove(mv) => OutsideFrame(cfg, m.chain, mv, a);
    case DoCall(origin, call, refused) =>
      if origin.Some? && CallError(cfg, m.chain, origin.value, call, refused).None? {
        CallIsLocal(cfg, m, origin.value, call, refused, a);
        assert CellOf(AfterBasic(cfg, m, b), a).account.pending == CellOf(m, a).account.pending;
      }
  }

  lemma PrepareKeepsSolo(cfg: Config, m: Machine, tx: Tx, no: Refusals, a: AccountId)
    requires Solo(m, a) && InFlight(m.inflight, tx.sponsor) == []
    ensures Solo(AfterPrepare(cfg, m, tx, no), a)
  {
    if Validate(cfg, m.chain, tx).Ok? {
      PrepareIsLocal(cfg, m, tx, no, a);
      var n := AfterPrepare(cfg, m, tx, no);
      assert CellOf(n, a).account == Acct(n.chain, a);
      if n.inflight != m.inflight {
        assert n.inflight[..|n.inflight| - 1] == m.inflight;
      }
    }
  }

  /** Of a sponsor's single reservation, a settlement leaves nothing pending. */
  lemma SettleClears(cfg: Config, x: Account, r: Reservation, actual: nat, no: Refusals)
    requires x.Sum() <= cfg.maxBalance && !no.release
    ensures SettleAccount(cfg, x, r, actual, no).pending == 0
  {
  }

  lemma SettleKeepsSolo(cfg: Config, m: Machine, i: nat, actual: nat, no: Refusals, a: AccountId)
    requires i < |m.inflight| && !no.release && Fits(cfg, m.chain)
    requires Solo(m, a)
    ensures Solo(AfterSettlement(cfg, m, i, actual, no), a)
  {
    var r := m.inflight[i];
    var n := AfterSettlement(cfg, m, i, actual, no);
    SettleIsLocal(cfg, m, i, actual, no, a);
    InFlightRemove(m.inflight, i, a);
    assert CellOf(n, a).account == Acct(n.chain, a);
    if a == r.sponsor {
      AccountFits(cfg, m.chain, a);
      SettleClears(cfg, Acct(m.chain, a), r, actual, no);
    }
  }

  lemma StepKeepsSolo(cfg: Config, m: Machine, st: Step, a: AccountId)
    requires Fits(cfg, m.chain) && Serial(m, st) && Solo(m, a)
    ensures Solo(After(cfg, m, st), a)
  {
    match st
    case Do(b) => BasicKeepsPending(cfg, m, b, a);
    case Prepare(tx, no) => PrepareKeepsSolo(cfg, m, tx, no, a);
    case Settle(i, actual, no) => if i < |m.inflight| { SettleKeepsSolo(cfg, m, i, actual, no, a); }
  }

  lemma PrepareKeepsCovered(cfg: Config, m: Machine, tx: Tx, no: Refusals, a: AccountId)
    requires Covered(m, a) && InFlight(m.inflight, tx.sponsor) == []
    ensures Covered(AfterPrepare(cfg, m, tx, no), a)
  {
    if Validate(cfg, m.chain, tx).Ok? {
      PrepareIsLocal(cfg, m, tx, no, a);
      var n := AfterPrepare(cfg, m, tx, no);
      assert CellOf(n, a).account == Acct(n.chain, a);
      if n.inflight != m.inflight {
        assert n.inflight[..|n.inflight| - 1] == m.inflight;
      }
    }
  }

  lemma SettleKeepsCovered(cfg: Config, m: Machine, i: nat, actual: nat, no: Refusals, a: AccountId)
    requires i < |m.inflight| && Covered(m, a)
    ensures Covered(AfterSettlement(cfg, m, i, actual, no), a)
  {
    InFlightRemove(m.inflight, i, a);
    SettledAccount(cfg, m, i, actual, no, a);
  }

  lemma StepKeepsCovered(cfg: Config, m: Machine, st: Step, a: AccountId)
    requires OneEach(m, st) && Covered(m, a)
    ensures Covered(After(cfg, m, st), a)
  {
    match st
    case Do(b) => BasicKeepsPending(cfg, m, b, a);
    case Prepare(tx, no) => PrepareKeepsCovered(cfg, m, tx, no, a);
    case Settle(i, actual, no) => if i < |m.inflight| { SettleKeepsCovered(cfg, m, i, actual, no, a); }
  }

  // ------------------------------------------------------- accounts kept alive

  predicate Alive(cfg: Config, x: Account) {
    x.budget + x.pending + x.other > 0 ==> x.free >= cfg.ed
  }

  /** Outside moves keep accounts alive, and prepare and settle meet no refusal of the ledger's own. */
  predicate Courteous(st: Step) {
    match st
    case Do(DoMove(Transfer(_, _, _, keepAlive))) => keepAlive
    case Do(DoMove(Withdraw(_, _, keepAlive))) => keepAlive
    case Do(_) => true
    case Prepare(_, no) => no == NO_REFUSAL
    case Settle(_, _, no) => no == NO_REFUSAL
  }

  lemma OutsideKeepsAlive(cfg: Config, s: State, mv: Move, a: AccountId)
    requires Courteous(Do(DoMove(mv))) && Alive(cfg, Acct(s, a))
    ensures Alive(cfg, Acct(Outside(cfg, s, mv), a))
  {
    match mv
    case Transfer(from, to, amount, keepAlive) =>
      if CanTake(cfg, Acct(s, from), amount, keepAlive) {
        var t := Taken(s, from, amount);
        assert Alive(cfg, Acct(t, a));
      }
    case _ =>
  }

  lemma CallKeepsAlive(cfg: Config, s: State, who: AccountId, call: Call, refused: bool)
    requires CallError(cfg, s, who, call, refused).None?
    requires Alive(cfg, Acct(s, who))
    ensures Alive(cfg, CallAccount(Acct(s, who), call))
  {
  }

  lemma SettleKeepsAlive(cfg: Config, x: Account, r: Reservation, actual: nat, no: Refusals)
    requires Alive(cfg, x)
    ensures Alive(cfg, SettleAccount(cfg, x, r, actual, no))
  {
  }

  lemma StepKeepsAlive(cfg: Config, m: Machine, st: Step, a: AccountId)
    requires Courteous(st) && Alive(cfg, Acct(m.chain, a))
    ensures Alive(cfg, Acct(After(cfg, m, st).chain, a))
  {
    match st
    case Do(DoMove(mv)) => OutsideKeepsAlive(cfg, m.chain, mv, a);
    case Do(DoCall(origin, call, refused)) =>
      if origin.Some? && CallError(cfg, m.chain, origin.value, call, refused).None? {
        CallIsLocal(cfg, m, origin.value, call, refused, a);
        assert CellOf(After(cfg, m, st), a).account == Acct(After(cfg, m, st).chain, a);
        if a == origin.value { CallKeepsAlive(cfg, m.chain, a, call, refused); }
      }
    case Prepare(tx, no) =>
    case Settle(i, actual, no) =>
      if i < |m.inflight| { SettleKeepsAlive(cfg, Acct(m.chain, a), m.inflight[i], actual, no); }
  }

  // ------------------------------------------------- when the two moves fail

  /** The reservation of `n` fails exactly if the ledger refuses a step or the sponsor has no free
      existential deposit. */
  lemma MoveFailsIff(cfg: Config, x: Account, n: nat, no: Refusals)
    requires x.Sum() <= cfg.maxBalance && n <= x.budget
    ensures MoveOutcomeOf(cfg, x, n, no).NotReleased? <==> no.release
    ensures MoveOutcomeOf(cfg, x, n, no).NotHeld? <==> !no.release && (no.hold || (n > 0 && x.free < cfg.ed))
  {
  }

  /** The restore of what is pending fails exactly if the ledger refuses a step or the sponsor has no
      free existential deposit. */
  lemma RestoreFailsIff(cfg: Config, x: Account, no: Refusals)
    requires x.Sum() <= cfg.maxBalance
    ensures RestoreOutcomeOf(cfg, x, no).NothingLeft? <==> x.pending == 0
    ensures RestoreOutcomeOf(cfg, x, no).ReleaseFailed? <==> x.pending > 0 && no.release
    ensures !RestoreOutcomeOf(cfg, x, no).NothingLeft? ==> RestoreOutcomeOf(cfg, x, no).amount == x.pending
    ensures RestoreOutcomeOf(cfg, x, no).ReholdFailed? <==>
            x.pending > 0 && !no.release && (no.hold || x.free < cfg.ed)
  {
  }

  /** Where the remainder of a settlement goes: it stays pending if its release is refused, becomes
      spendable if it cannot be held again, and is budget again otherwise. */
  function Returned(cfg: Config, x: Account, rest: nat, no: Refusals): Account {
    if no.release then x.(pending := rest)
    else if rest > 0 && (no.hold || x.free < cfg.ed) then x.(pending := 0, free := x.free + rest)
    else x.(pending := 0, budget := x.budget + rest)
  }

  /** Nothing is left to return, or both steps of returning it succeed. */
  predicate CanReturn(cfg: Config, x: Account, rest: nat, no: Refusals) {
    rest == 0 || (!no.release && !no.hold && x.free >= cfg.ed)
  }

  /** An account kept alive gets the remainder back as budget. */
  lemma AliveReturns(cfg: Config, x: Account, rest: nat)
    requires Alive(cfg, x) && rest <= x.pending
    ensures Returned(cfg, x, rest, NO_REFUSAL) == x.(pending := 0, budget := x.budget + rest)
  {
  }

  lemma SettleReturns(cfg: Config, x: Account, r: Reservation, actual: nat, no: Refusals)
    requires x.Sum() <= cfg.maxBalance
    ensures var rest := x.pending - Charge(r, actual, x.pending);
            var outcome := SettleReceipt(cfg, x, r, actual, no).restore;
            && SettleAccount(cfg, x, r, actual, no) == Returned(cfg, x, rest, no)
            && (outcome.NothingLeft? || outcome.Restored? <==> CanReturn(cfg, x, rest, no))
  {
    RestoreFailsIff(cfg, x.(pending := x.pending - Charge(r, actual, x.pending)), no);
  }

  /** In every state that any run reaches, under any refusals: a transaction that `validate` accepts is
      reserved exactly if the ledger refuses no step and the sponsor's existential deposit is free. */
  lemma ReservedIff(cfg: Config, m: Machine, steps: seq<Step>, tx: Tx, no: Refusals)
    requires Fits(cfg, m.chain)
    requires Validate(cfg, Run(cfg, m, steps).chain, tx).Ok?
    ensures var s := Run(cfg, m, steps).chain;
            var estimate := Validate(cfg, s, tx).value.estimate;
            MoveOutcomeOf(cfg, Acct(s, tx.sponsor), estimate, no).Moved? <==>
            no == NO_REFUSAL && (estimate == 0 || Acct(s, tx.sponsor).free >= cfg.ed)
  {
    WealthConserved(cfg, m, steps);
    var s := Run(cfg, m, steps).chain;
    AccountFits(cfg, s, tx.sponsor);
    MoveFailsIff(cfg, Acct(s, tx.sponsor), Validate(cfg, s, tx).value.estimate, no);
  }

  /** What `validate` accepts, `prepare` can reserve. */
  lemma AcceptedIsReserved(cfg: Config, s: State, tx: Tx)
    requires Fits(cfg, s) && Alive(cfg, Acct(s, tx.sponsor))
    requires Validate(cfg, s, tx).Ok?
    ensures MoveOutcomeOf(cfg, Acct(s, tx.sponsor), Validate(cfg, s, tx).value.estimate, NO_REFUSAL).Moved?
  {
    AccountFits(cfg, s, tx.sponsor);
    MoveFailsIff(cfg, Acct(s, tx.sponsor), Validate(cfg, s, tx).value.estimate, NO_REFUSAL);
  }

  // ---------------------------------------------------------------- whole runs

  predicate Clean(p: Receipt) {
    p.missing == 0 && (p.restore.NothingLeft? || p.restore.Restored?)
  }

  /** Everything known of one account in a disciplined run. */
  predicate Tidy(cfg: Config, m: Machine, a: AccountId) {
    Good(m, a) && Solo(m, a) && Alive(cfg, Acct(m.chain, a)) && BookOf(m, a).leaked == 0
  }

  lemma InFlightHas(rs: seq<Reservation>, i: nat)
    requires i < |rs|
    requires |InFlight(rs, rs[i].sponsor)| <= 1
    ensures InFlight(rs, rs[i].sponsor) == [rs[i]]
  {
    InFlightRemove(rs, i, rs[i].sponsor);
  }

  /** Settling a sponsor's only reservation charges what is due, and returns the rest if it can. */
  lemma SettleExactly(cfg: Config, x: Account, r: Reservation, actual: nat, no: Refusals)
    requires x.Sum() <= cfg.maxBalance && x.pending >= r.estimate
    ensures var q := SettleReceipt(cfg, x, r, actual, no);
            var rest := x.pending - Min(actual, r.estimate);
            && q.fee == Min(actual, r.estimate) && q.missing == 0
            && (Clean(q) <==> CanReturn(cfg, x, rest, no))
            && SettleAccount(cfg, x, r, actual, no) == Returned(cfg, x, rest, no)
  {
    SettleReturns(cfg, x, r, actual, no);
  }

  lemma SettledAccount(cfg: Config, m: Machine, i: nat, actual: nat, no: Refusals, a: AccountId)
    requires i < |m.inflight|
    ensures var r, x := m.inflight[i], Acct(m.chain, a);
            Acct(AfterSettlement(cfg, m, i, actual, no).chain, a) ==
            if a != r.sponsor then x else SettleAccount(cfg, x, r, actual, no)
  {
  }

  /** Kept-alive accounts lose nothing to refused holds, however reservations overlap. */
  lemma StepLeaksNothing(cfg: Config, m: Machine, st: Step, a: AccountId)
    requires Fits(cfg, m.chain) && Courteous(st) && Alive(cfg, Acct(m.chain, a)) && BookOf(m, a).leaked == 0
    ensures BookOf(After(cfg, m, st), a).leaked == 0
  {
    match st
    case Do(b) =>
    case Prepare(tx, no) =>
      if Validate(cfg, m.chain, tx).Ok? && a == tx.sponsor {
        PrepareIsLocal(cfg, m, tx, no, a);
        AcceptedIsReserved(cfg, m.chain, tx);
        assert CellOf(After(cfg, m, st), a).book == BookOf(m, a);
      }
    case Settle(i, actual, no) =>
      if i < |m.inflight| && a == m.inflight[i].sponsor {
        var x := Acct(m.chain, a);
        AccountFits(cfg, m.chain, a);
        RestoreFailsIff(cfg, x.(pending := x.pending - Charge(m.inflight[i], actual, x.pending)), no);
      }
  }

  lemma {:induction false} RunLeaksNothing(cfg: Config, m: Machine, steps: seq<Step>, a: AccountId)
    requires Fits(cfg, m.chain) && Alive(cfg, Acct(m.chain, a)) && BookOf(m, a).leaked == 0
    requires forall st <- steps :: Courteous(st)
    ensures BookOf(Run(cfg, m, steps), a).leaked == 0
    decreases |steps|
  {
    if steps == [] {
    } else {
      StepLeaksNothing(cfg, m, steps[0], a);
      StepKeepsAlive(cfg, m, steps[0], a);
      StepKeepsWealth(cfg, m, steps[0]);
      RunLeaksNothing(cfg, After(cfg, m, steps[0]), steps[1..], a);
    }
  }

  lemma StepKeepsTidy(cfg: Config, m: Machine, st: Step, a: AccountId)
    requires Fits(cfg, m.chain) && Serial(m, st) && Courteous(st) && Tidy(cfg, m, a)
    ensures Tidy(cfg, After(cfg, m, st), a)
  {
    StepKeepsGood(cfg, m, st, a);
    StepKeepsSolo(cfg, m, st, a);
    StepKeepsAlive(cfg, m, st, a);
    StepLeaksNothing(cfg, m, st, a);
  }

  /** Every step is serial in the state it meets. */
  predicate SerialRun(cfg: Config, m: Machine, steps: seq<Step>)
    decreases |steps|
  {
    steps == [] || (Serial(m, steps[0]) && SerialRun(cfg, After(cfg, m, steps[0]), steps[1..]))
  }

  predicate OneEachRun(cfg: Config, m: Machine, steps: seq<Step>)
    decreases |steps|
  {
    steps == [] || (OneEach(m, steps[0]) && OneEachRun(cfg, After(cfg, m, steps[0]), steps[1..]))
  }

  lemma {:induction false} SerialIsOneEach(cfg: Config, m: Machine, steps: seq<Step>)
    requires SerialRun(cfg, m, steps)
    ensures OneEachRun(cfg, m, steps)
    decreases |steps|
  {
    if steps == [] {
    } else {
      SerialIsOneEach(cfg, After(cfg, m, steps[0]), steps[1..]);
    }
  }

  /** In every overlap with one reservation in flight per sponsor, whatever is refused, the pending
      hold covers the estimate of the reservation in flight. */
  lemma {:induction false} PendingCovers(cfg: Config, m: Machine, steps: seq<Step>, a: AccountId)
    requires Covered(m, a) && OneEachRun(cfg, m, steps)
    ensures Covered(Run(cfg, m, steps), a)
    decreases |steps|
  {
    if steps == [] {
    } else {
      StepKeepsCovered(cfg, m, steps[0], a);
      PendingCovers(cfg, After(cfg, m, steps[0]), steps[1..], a);
    }
  }

  /** In every overlap that is serial per sponsor, with any refusal of a hold, what is pending of an
      account is exactly the estimate of its reservation in flight, or nothing. */
  lemma {:induction false} PendingIsReserved(cfg: Config, m: Machine, steps: seq<Step>, a: AccountId)
    requires Fits(cfg, m.chain) && Solo(m, a) && SerialRun(cfg, m, steps)
    ensures Solo(Run(cfg, m, steps), a)
    decreases |steps|
  {
    if steps == [] {
    } else {
      StepKeepsSolo(cfg, m, steps[0], a);
      StepKeepsWealth(cfg, m, steps[0]);
      PendingIsReserved(cfg, After(cfg, m, steps[0]), steps[1..], a);
    }
  }

  ghost predicate Start(cfg: Config, m: Machine) {
    Genesis(m) && Fits(cfg, m.chain) && forall a :: Alive(cfg, Acct(m.chain, a))
  }

  lemma StartIsTidy(cfg: Config, m: Machine, a: AccountId)
    requires Start(cfg, m)
    ensures Tidy(cfg, m, a)
  {
    assert Acct(m.chain, a).budget == 0 && Acct(m.chain, a).pending == 0;
    assert Alive(cfg, Acct(m.chain, a));
  }

  lemma {:induction false} RunKeepsAlive(cfg: Config, m: Machine, steps: seq<Step>, a: AccountId)
    requires Alive(cfg, Acct(m.chain, a)) && forall st <- steps :: Courteous(st)
    ensures Alive(cfg, Acct(Run(cfg, m, steps).chain, a))
    decreases |steps|
  {
    if steps == [] {
    } else {
      StepKeepsAlive(cfg, m, steps[0], a);
      RunKeepsAlive(cfg, After(cfg, m, steps[0]), steps[1..], a);
    }
  }

  /** In every state that any courteous overlap can reach, several reservations of one sponsor
      included, a transaction that `validate` accepts is one that `prepare` can reserve. */
  lemma ReachableReserves(cfg: Config, m: Machine, steps: seq<Step>, tx: Tx)
    requires Start(cfg, m) && forall st <- steps :: Courteous(st)
    requires Validate(cfg, Run(cfg, m, steps).chain, tx).Ok?
    ensures var s := Run(cfg, m, steps).chain;
            MoveOutcomeOf(cfg, Acct(s, tx.sponsor), Validate(cfg, s, tx).value.estimate, NO_REFUSAL).Moved?
  {
    assert Alive(cfg, Acct(m.chain, tx.sponsor));
    RunKeepsAlive(cfg, m, steps, tx.sponsor);
    WealthConserved(cfg, m, steps);
    AcceptedIsReserved(cfg, Run(cfg, m, steps).chain, tx);
  }

  /** With one reservation in flight per sponsor, in any overlap of different sponsors and whatever
      was refused to whom, a settlement takes exactly what is due and touches nobody else; what is
      left goes where the refusals it meets and the sponsor's own free balance send it. */
  lemma ExactInOverlap(cfg: Config, m: Machine, steps: seq<Step>, i: nat, actual: nat, no: Refusals, a: AccountId)
    requires Genesis(m) && Fits(cfg, m.chain) && OneEachRun(cfg, m, steps)
    requires i < |Run(cfg, m, steps).inflight|
    ensures var n := Run(cfg, m, steps);
            var r := n.inflight[i];
            var x, y := Acct(n.chain, r.sponsor), Acct(n.chain, a);
            var t := After(cfg, n, Settle(i, actual, no));
            && x.pending >= r.estimate
            && var rest := x.pending - Min(actual, r.estimate);
            && |t.receipts| == |n.receipts| + 1
            && var q := t.receipts[|n.receipts|];
            && q.fee == Min(actual, r.estimate) && q.missing == 0
            && (Clean(q) <==> CanReturn(cfg, x, rest, no))
            && Acct(t.chain, a) == if a != r.sponsor then y else Returned(cfg, y, rest, no)
  {
    var n := Run(cfg, m, steps);
    var r := n.inflight[i];
    PendingCovers(cfg, m, steps, r.sponsor);
    InFlightHas(n.inflight, i);
    WealthConserved(cfg, m, steps);
    AccountFits(cfg, n.chain, r.sponsor);
    SettleExactly(cfg, Acct(n.chain, r.sponsor), r, actual, no);
    SettledAccount(cfg, n, i, actual, no, a);
  }

  /** When besides accounts are kept alive and the ledger refuses nothing of its own, the rest goes back
      to the budget and no free balance changes. */
  lemma KeptAliveInOverlap(cfg: Config, m: Machine, steps: seq<Step>, i: nat, actual: nat, a: AccountId)
    requires Start(cfg, m)
    requires SerialRun(cfg, m, steps) && forall st <- steps :: Courteous(st)
    requires i < |Run(cfg, m, steps).inflight|
    ensures var n := Run(cfg, m, steps);
            var r := n.inflight[i];
            var y := Acct(n.chain, a);
            var t := After(cfg, n, Settle(i, actual, NO_REFUSAL));
            && |t.receipts| == |n.receipts| + 1
            && t.receipts[|n.receipts|].fee == Min(actual, r.estimate) && Clean(t.receipts[|n.receipts|])
            && Acct(t.chain, a) ==
               if a != r.sponsor then y
               else y.(pending := 0, budget := y.budget + r.estimate - Min(actual, r.estimate))
  {
    var r := Run(cfg, m, steps).inflight[i];
    assert Alive(cfg, Acct(m.chain, r.sponsor));
    RunKeepsAlive(cfg, m, steps, r.sponsor);
    PendingIsReserved(cfg, m, steps, r.sponsor);
    InFlightHas(Run(cfg, m, steps).inflight, i);
    SerialIsOneEach(cfg, m, steps);
    ExactInOverlap(cfg, m, steps, i, actual, NO_REFUSAL, a);
  }
}
