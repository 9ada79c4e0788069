/** What settlement does when reservations of one sponsor overlap; runs from genesis in which
    guarantees stop; and the runtime's fees put to use. */
module Limits {
  import opened Types
  import opened Pallet
  import opened Extension
  import opened Machine
  import opened Conservation
  import opened EventLog
  import opened Safety
  import opened Interleaving
  import opened Spending
  import opened Discipline
  import opened Sequential
  import opened Settlement
  import opened Fees

  /** Settling one reservation restores everything pending of its sponsor, so any other reservation
      of that sponsor still in flight then settles for nothing. */
  lemma OverlapStarves(cfg: Config, m: Machine, i: nat, actual: nat, no: Refusals,
                       other: Reservation, otherActual: nat, otherNo: Refusals)
    requires i < |m.inflight| && Fits(cfg, m.chain) && !no.release
    requires other.sponsor == m.inflight[i].sponsor
    ensures var s := AfterSettlement(cfg, m, i, actual, no).chain;
            var p := SettleReceipt(cfg, Acct(s, other.sponsor), other, otherActual, otherNo);
            p.fee == 0 && p.missing == Min(otherActual, other.estimate)
  {
    var a := other.sponsor;
    AccountFits(cfg, m.chain, a);
    SettleIsLocal(cfg, m, i, actual, no, a);
    SettleClears(cfg, Acct(m.chain, a), m.inflight[i], actual, no);
    var n := AfterSettlement(cfg, m, i, actual, no);
    assert CellOf(n, a).account == Acct(n.chain, a);
  }

  // ------------------------------------------------- exactly when it falls short

  /** The estimates reserved against `a` since its last settlement that was granted its release, less
      what settlements refused theirs took from them. */
  function Outstanding(cfg: Config, m: Machine, steps: seq<Step>, a: AccountId): nat
    decreases |steps|
  {
    if steps == [] then Acct(m.chain, a).pending
    else
      var front, last := steps[..|steps| - 1], steps[|steps| - 1];
      var k := Run(cfg, m, front);
      match last
      case Do(_) => Outstanding(cfg, m, front, a)
      case Prepare(tx, no) =>
        Outstanding(cfg, m, front, a) +
        (if tx.sponsor == a && Issued(cfg, k, last, a) != multiset{} then ComputeFee(cfg, tx.len, tx.info, tx.tip) else 0)
      case Settle(i, actual, no) =>
        if i >= |k.inflight| || k.inflight[i].sponsor != a then Outstanding(cfg, m, front, a)
        else if no.release then Minus(Outstanding(cfg, m, front, a), Min(actual, k.inflight[i].estimate))
        else 0
  }

  lemma PrepareAddsPending(cfg: Config, m: Machine, tx: Tx, no: Refusals, a: AccountId)
    ensures Acct(AfterPrepare(cfg, m, tx, no).chain, a).pending ==
            Acct(m.chain, a).pending +
            (if tx.sponsor == a && Issued(cfg, m, Prepare(tx, no), a) != multiset{}
             then ComputeFee(cfg, tx.len, tx.info, tx.tip) else 0)
  {
    if Validate(cfg, m.chain, tx).Ok? {
      PrepareIsLocal(cfg, m, tx, no, a);
      var n := AfterPrepare(cfg, m, tx, no);
      assert CellOf(n, a).account == Acct(n.chain, a);
    }
  }

  lemma SettleTakesPending(cfg: Config, m: Machine, i: nat, actual: nat, no: Refusals, a: AccountId)
    requires i < |m.inflight| && Fits(cfg, m.chain)
    ensures var r, x := m.inflight[i], Acct(m.chain, a);
            Acct(AfterSettlement(cfg, m, i, actual, no).chain, a).pending ==
            if r.sponsor != a then x.pending
            else if no.release then Minus(x.pending, Min(actual, r.estimate))
            else 0
  {
    AccountFits(cfg, m.chain, a);
    SettleReturns(cfg, Acct(m.chain, a), m.inflight[i], actual, no);
    SettledAccount(cfg, m, i, actual, no, a);
  }

  /** In every overlap and under any refusals, what is pending of `a` is exactly what was reserved
      against it and neither restored nor taken since. */
  lemma {:induction false} PendingIsOutstanding(cfg: Config, m: Machine, steps: seq<Step>, a: AccountId)
    requires Fits(cfg, m.chain)
    ensures Acct(Run(cfg, m, steps).chain, a).pending == Outstanding(cfg, m, steps, a)
    decreases |steps|
  {
    if steps == [] {
    } else {
      var front, last := steps[..|steps| - 1], steps[|steps| - 1];
      var k := Run(cfg, m, front);
      PendingIsOutstanding(cfg, m, front, a);
      RunLast(cfg, m, steps);
      WealthConserved(cfg, m, front);
      match last
      case Do(b) => BasicKeepsPending(cfg, k, b, a);
      case Prepare(tx, no) => PrepareAddsPending(cfg, k, tx, no, a);
      case Settle(i, actual, no) =>
        if i < |k.inflight| { SettleTakesPending(cfg, k, i, actual, no, a); }
    }
  }

  /** The law of settlement in every overlap and under any refusals: it charges what is due as far as
      that is outstanding, reports the shortfall, touches nobody but the sponsor, and returns what is
      left as its own refusals and the sponsor's free balance allow. */
  lemma SettlementLaw(cfg: Config, m: Machine, steps: seq<Step>, i: nat, actual: nat, no: Refusals, a: AccountId)
    requires Fits(cfg, m.chain)
    requires i < |Run(cfg, m, steps).inflight|
    ensures var n := Run(cfg, m, steps);
            var r, y := n.inflight[i], Acct(n.chain, a);
            var fee := Min(Min(actual, r.estimate), Outstanding(cfg, m, steps, r.sponsor));
            var t := After(cfg, n, Settle(i, actual, no));
            && |t.receipts| == |n.receipts| + 1
            && t.receipts[|n.receipts|].fee == fee
            && t.receipts[|n.receipts|].missing == Min(actual, r.estimate) - fee
            && t.chain.credit == n.chain.credit + fee
            && Acct(t.chain, a) ==
               if a != r.sponsor then y
               else Returned(cfg, y, Outstanding(cfg, m, steps, a) - fee, no)
  {
    var n := Run(cfg, m, steps);
    var r := n.inflight[i];
    PendingIsOutstanding(cfg, m, steps, r.sponsor);
    WealthConserved(cfg, m, steps);
    AccountFits(cfg, n.chain, r.sponsor);
    SettleReturns(cfg, Acct(n.chain, r.sponsor), r, actual, no);
    SettledAccount(cfg, n, i, actual, no, a);
  }

  /** So a settlement falls short exactly when less than is due is outstanding. */
  lemma ShortfallIff(cfg: Config, m: Machine, steps: seq<Step>, i: nat, actual: nat, no: Refusals)
    requires Fits(cfg, m.chain)
    requires i < |Run(cfg, m, steps).inflight|
    ensures var n := Run(cfg, m, steps);
            var r := n.inflight[i];
            var t := After(cfg, n, Settle(i, actual, no));
            && |t.receipts| == |n.receipts| + 1
            && (t.receipts[|n.receipts|].missing > 0 <==>
                Outstanding(cfg, m, steps, r.sponsor) < Min(actual, r.estimate))
  {
    SettlementLaw(cfg, m, steps, i, actual, no, 0);
  }

  // ------------------------------------------------------- runs that get there

  /** A chain with one funded account, which will sponsor `caller`, and a flat fee. */
  datatype Setup = Setup(sponsor: AccountId, caller: AccountId, funds: nat, budget: nat, fee: nat, max: nat) {
    predicate Affordable() { 0 < fee && 2 * fee <= budget < funds <= max }

    function Cfg(): Config {
      var flat := fee;
      Config(1, max, (len: nat, weight: nat) => flat)
    }

    function Register(): Call { RegisterSponsor(budget, Policy([caller], fee)) }

    function Origin(): Machine {
      Machine(State(map[sponsor := Account(sponsor, funds, 0, 0, 0)], map[], [], 0, 0), [], [], map[])
    }

    function Registered(): Machine { AfterBasic(Cfg(), Origin(), DoCall(Some(sponsor), Register(), false)) }

    function Signed(): Tx { Tx(Some(caller), sponsor, 0, 0, DispatchInfo(0, true)) }

    function Ticket(): Reservation { Reservation(sponsor, caller, fee, 0, fee) }

    /** Other code, with no regard for the existential deposit, takes all that is free. */
    function Drained(): Machine
      requires Affordable()
    {
      AfterBasic(Cfg(), Registered(), DoMove(Withdraw(sponsor, funds - budget, false)))
    }

    function Once(): Machine { AfterPrepare(Cfg(), Registered(), Signed(), NO_REFUSAL) }

    function Twice(): Machine { AfterPrepare(Cfg(), Once(), Signed(), NO_REFUSAL) }
  }

  lemma RegisteredState(u: Setup)
    requires u.Affordable()
    ensures Genesis(u.Origin())
    ensures var m := u.Registered();
            && Acct(m.chain, u.sponsor) == Account(u.sponsor, u.funds - u.budget, u.budget, 0, 0)
            && SponsorOf(m.chain, u.sponsor) == Some(SponsorState(true, Policy([u.caller], u.fee)))
            && m.inflight == [] && m.receipts == []
  {
    assert CallError(u.Cfg(), u.Origin().chain, u.sponsor, u.Register(), false).None?;
    AcceptedCall(u.Cfg(), u.Origin(), u.sponsor, u.Register(), false);
    EffectIsLocal(u.Origin().chain, u.sponsor, u.Register(), u.sponsor);
  }

  lemma Accepts(u: Setup, s: State)
    requires u.Affordable() && Acct(s, u.sponsor).budget >= u.fee
    requires SponsorOf(s, u.sponsor) == Some(SponsorState(true, Policy([u.caller], u.fee)))
    ensures Validate(u.Cfg(), s, u.Signed()) == Ok(u.Ticket())
  {
    assert u.caller in [u.caller];
  }

  lemma ReserveOnce(u: Setup, m: Machine, pending: nat)
    requires u.Affordable() && pending <= u.fee
    requires SponsorOf(m.chain, u.sponsor) == Some(SponsorState(true, Policy([u.caller], u.fee)))
    requires Acct(m.chain, u.sponsor) == Account(u.sponsor, u.funds - u.budget, u.budget - pending, pending, 0)
    ensures var n := AfterPrepare(u.Cfg(), m, u.Signed(), NO_REFUSAL);
            && n.inflight == m.inflight + [u.Ticket()] && n.receipts == m.receipts
            && SponsorOf(n.chain, u.sponsor) == SponsorOf(m.chain, u.sponsor)
            && n.chain.log == m.chain.log && n.books == m.books
            && Acct(n.chain, u.sponsor) ==
               Account(u.sponsor, u.funds - u.budget, u.budget - pending - u.fee, pending + u.fee, 0)
  {
    Accepts(u, m.chain);
    assert MoveOutcomeOf(u.Cfg(), Acct(m.chain, u.sponsor), u.fee, NO_REFUSAL).Moved?;
  }

  /** From genesis: two reservations of one sponsor overlap, both due in full; the first settlement
      takes its fee and frees the rest, and the second one is charged nothing. */
  lemma OverlapReachable(u: Setup)
    requires u.Affordable()
    ensures var n := u.Twice();
            var t := AfterSettlement(u.Cfg(), n, 0, u.fee, NO_REFUSAL);
            && Genesis(u.Origin())
            && n.inflight == [u.Ticket(), u.Ticket()] && t.inflight == [u.Ticket()]
            && Acct(t.chain, u.sponsor).budget == u.budget - u.fee && Acct(t.chain, u.sponsor).pending == 0
            && SettleReceipt(u.Cfg(), Acct(t.chain, u.sponsor), u.Ticket(), u.fee, NO_REFUSAL).fee == 0
  {
    RegisteredState(u);
    ReserveOnce(u, u.Registered(), 0);
    ReserveOnce(u, u.Once(), u.fee);
    var n := u.Twice();
    assert n.inflight[..0] + n.inflight[1..] == [u.Ticket()];
    SettleIsLocal(u.Cfg(), n, 0, u.fee, NO_REFUSAL, u.sponsor);
    assert CellOf(AfterSettlement(u.Cfg(), n, 0, u.fee, NO_REFUSAL), u.sponsor).account ==
           Acct(AfterSettlement(u.Cfg(), n, 0, u.fee, NO_REFUSAL).chain, u.sponsor);
  }

  /** From genesis: the sponsor's free balance is taken after registration; then `validate` accepts a
      transaction that `prepare` cannot reserve, although the ledger refuses nothing of its own, and
      the estimate is left spendable. */
  lemma AcceptedNotReserved(u: Setup)
    requires u.Affordable()
    ensures var s := u.Drained().chain;
            && Genesis(u.Origin())
            && Validate(u.Cfg(), s, u.Signed()) == Ok(u.Ticket())
            && Acct(s, u.sponsor).free < u.Cfg().ed
            && MoveOutcomeOf(u.Cfg(), Acct(s, u.sponsor), u.fee, NO_REFUSAL).NotHeld?
  {
    RegisteredState(u);
    assert Acct(u.Drained().chain, u.sponsor) == Account(u.sponsor, 0, u.budget, 0, 0);
    Accepts(u, u.Drained().chain);
    MoveFailsIff(u.Cfg(), Acct(u.Drained().chain, u.sponsor), u.fee, NO_REFUSAL);
  }

  /** From genesis: a settlement whose re-hold is refused leaves the remainder spendable while the
      log still counts it as escrow, so the replay overstates the holds by exactly that remainder. */
  lemma RefusalBreaksReplay(u: Setup, actual: nat)
    requires u.Affordable() && actual < u.fee
    ensures var n := AfterSettlement(u.Cfg(), u.Once(), 0, actual, Refusals(false, true));
            var x := Acct(n.chain, u.sponsor);
            && Genesis(u.Origin())
            && x.budget == u.budget - u.fee && x.pending == 0
            && x.free == u.funds - u.budget + u.fee - actual
            && Replay(n.chain.log, u.sponsor) == Some(View(true, x.budget + x.pending + (u.fee - actual)))
  {
    RegisteredState(u);
    RegisteredLog(u);
    ReserveOnce(u, u.Registered(), 0);
    var n := AfterSettlement(u.Cfg(), u.Once(), 0, actual, Refusals(false, true));
    SettleIsLocal(u.Cfg(), u.Once(), 0, actual, Refusals(false, true), u.sponsor);
    assert CellOf(n, u.sponsor).account == Acct(n.chain, u.sponsor);
    assert CellOf(n, u.sponsor).view == Replay(n.chain.log, u.sponsor);
  }

  lemma RegisteredLog(u: Setup)
    requires u.Affordable()
    ensures Replay(u.Registered().chain.log, u.sponsor) == Some(View(true, u.budget))
  {
    AcceptedCall(u.Cfg(), u.Origin(), u.sponsor, u.Register(), false);
    assert u.Registered().chain.log == [] + [SponsorRegistered(u.sponsor, u.budget)];
    ReplayAppend([], SponsorRegistered(u.sponsor, u.budget), u.sponsor);
  }

  // --------------------------------------------------------- the runtime's fees

  /** With the runtime's fee function, whatever its coefficient, multiplier and block limit, no
      sequential run from genesis takes the clamp or meets a shortfall, whatever the ledger refuses. */
  lemma RuntimeNeverClamps(ed: nat, maxBalance: nat, c: Coefficient, maxBlock: nat, multiplier: nat,
                           m: Machine, items: seq<Item>)
    requires Genesis(m)
    ensures var cfg := RuntimeConfig(ed, maxBalance, c, maxBlock, multiplier);
            forall q <- ExecAll(cfg, m, items).receipts :: Unclamped(q)
  {
    RuntimeFeesMonotone(ed, maxBalance, c, maxBlock, multiplier);
    ClampAndShortfallDead(RuntimeConfig(ed, maxBalance, c, maxBlock, multiplier), m, items);
  }

  /** If besides accounts are kept alive and the ledger refuses nothing of its own, no defensive branch
      is taken at all. */
  lemma RuntimeBranchesDead(ed: nat, maxBalance: nat, c: Coefficient, maxBlock: nat, multiplier: nat,
                            m: Machine, items: seq<Item>)
    requires Start(RuntimeConfig(ed, maxBalance, c, maxBlock, multiplier), m)
    requires forall it <- items :: Kind(it)
    ensures var cfg := RuntimeConfig(ed, maxBalance, c, maxBlock, multiplier);
            forall q <- ExecAll(cfg, m, items).receipts :: BranchFree(q)
  {
    var cfg := RuntimeConfig(ed, maxBalance, c, maxBlock, multiplier);
    RuntimeFeesMonotone(ed, maxBalance, c, maxBlock, multiplier);
    StartIsReady(cfg, m);
    DefensiveBranchesDead(cfg, m, items);
  }
}
