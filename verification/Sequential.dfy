/** Transactions run one at a time, each with an arbitrary dispatch between reservation and
    settlement; a failed dispatch is rolled back and settled all the same. */
module Sequential {
  import opened Types
  import opened Extension
  import opened Machine
  import opened Conservation
  import opened Safety
  import opened Discipline
  import opened Marks

  datatype Item =
    | Alone(b: Basic)
    | Sponsored(tx: Tx, reserve: Refusals, dispatch: seq<Basic>, success: bool, post: PostInfo, settle: Refusals)

  function RunBasics(cfg: Config, m: Machine, ds: seq<Basic>): Machine
    decreases |ds|
  {
    if ds == [] then m else RunBasics(cfg, AfterBasic(cfg, m, ds[0]), ds[1..])
  }

  function ActualFee(cfg: Config, it: Item): nat
    requires it.Sponsored?
  {
    ComputeActualFee(cfg, it.tx.len, it.tx.info, it.post, it.tx.tip)
  }

  function Estimate(cfg: Config, it: Item): nat
    requires it.Sponsored?
  {
    ComputeFee(cfg, it.tx.len, it.tx.info, it.tx.tip)
  }

  /** What is due for a transaction: its actual fee, within the estimate. */
  function Due(cfg: Config, it: Item): nat
    requires it.Sponsored?
  {
    Min(ActualFee(cfg, it), Estimate(cfg, it))
  }

  predicate Reserved(cfg: Config, m: Machine, it: Item)
    requires it.Sponsored?
  {
    var v := Validate(cfg, m.chain, it.tx);
    v.Ok? && MoveOutcomeOf(cfg, Acct(m.chain, it.tx.sponsor), v.value.estimate, it.reserve).Moved?
  }

  /** The state in which the dispatch of an accepted transaction ends. */
  function Dispatched(cfg: Config, m: Machine, it: Item): Machine
    requires it.Sponsored?
  {
    var p := AfterPrepare(cfg, m, it.tx, it.reserve);
    if it.success then RunBasics(cfg, p, it.dispatch) else p
  }

  /** A transaction whose reservation fails is discarded with all it did. */
  function Exec(cfg: Config, m: Machine, it: Item): Machine {
    match it
    case Alone(b) => AfterBasic(cfg, m, b)
    case Sponsored(_, _, _, _, _, settle) =>
      if !Reserved(cfg, m, it) then m
      else AfterSettlement(cfg, Dispatched(cfg, m, it), |m.inflight|, ActualFee(cfg, it), settle)
  }

  function ExecAll(cfg: Config, m: Machine, items: seq<Item>): Machine
    decreases |items|
  {
    if items == [] then m else ExecAll(cfg, Exec(cfg, m, items[0]), items[1..])
  }

  /** A failed dispatch leaves no trace but its settlement, as if it had done nothing; what it says
      about its weight still sets the fee. */
  lemma FailedDispatchUndone(cfg: Config, m: Machine, it: Item)
    requires it.Sponsored? && !it.success
    ensures Exec(cfg, m, it) == Exec(cfg, m, it.(dispatch := [], success := true))
    ensures !Reserved(cfg, m, it) ==> Exec(cfg, m, it) == m
  {
  }

  // ------------------------------------------- sequential runs are interleavings

  function Lift(ds: seq<Basic>): seq<Step> {
    if ds == [] then [] else [Do(ds[0])] + Lift(ds[1..])
  }

  function Steps(cfg: Config, m: Machine, it: Item): seq<Step> {
    match it
    case Alone(b) => [Do(b)]
    case Sponsored(tx, reserve, dispatch, success, _, settle) =>
      if !Reserved(cfg, m, it) then []
      else
        [Prepare(tx, reserve)] + Lift(if success then dispatch else []) +
        [Settle(|m.inflight|, ActualFee(cfg, it), settle)]
  }

  function AllSteps(cfg: Config, m: Machine, items: seq<Item>): seq<Step>
    decreases |items|
  {
    if items == [] then [] else Steps(cfg, m, items[0]) + AllSteps(cfg, Exec(cfg, m, items[0]), items[1..])
  }

  lemma {:induction false} BasicsAreRun(cfg: Config, m: Machine, ds: seq<Basic>)
    ensures RunBasics(cfg, m, ds) == Run(cfg, m, Lift(ds))
    decreases |ds|
  {
    if ds == [] {
    } else {
      BasicsAreRun(cfg, AfterBasic(cfg, m, ds[0]), ds[1..]);
      assert Lift(ds)[1..] == Lift(ds[1..]);
    }
  }

  lemma ExecIsRun(cfg: Config, m: Machine, it: Item)
    ensures Exec(cfg, m, it) == Run(cfg, m, Steps(cfg, m, it))
  {
    match it
    case Alone(b) => assert [Do(b)][1..] == [];
    case Sponsored(tx, reserve, dispatch, success, _, settle) =>
      if Reserved(cfg, m, it) {
        var ds := if success then dispatch else [];
        var first, last := [Prepare(tx, reserve)], [Settle(|m.inflight|, ActualFee(cfg, it), settle)];
        var p := AfterPrepare(cfg, m, tx, reserve);
        RunOne(cfg, m, first[0]);
        RunConcat(cfg, m, first, Lift(ds));
        RunConcat(cfg, m, first + Lift(ds), last);
        BasicsAreRun(cfg, p, ds);
        RunOne(cfg, Run(cfg, p, Lift(ds)), last[0]);
      }
  }

  lemma RunOne(cfg: Config, m: Machine, st: Step)
    ensures Run(cfg, m, [st]) == After(cfg, m, st)
  {
    assert [st][1..] == [];
  }

  /** Every run of transactions one at a time, rollbacks included, is one of the interleavings. */
  lemma {:induction false} SequentialIsInterleaving(cfg: Config, m: Machine, items: seq<Item>)
    ensures ExecAll(cfg, m, items) == Run(cfg, m, AllSteps(cfg, m, items))
    decreases |items|
  {
    if items == [] {
    } else {
      var n := Exec(cfg, m, items[0]);
      ExecIsRun(cfg, m, items[0]);
      SequentialIsInterleaving(cfg, n, items[1..]);
      RunConcat(cfg, m, Steps(cfg, m, items[0]), AllSteps(cfg, n, items[1..]));
    }
  }

  // ------------------------------------------- from reservation to settlement

  lemma {:induction false} BasicsKeepPending(cfg: Config, m: Machine, ds: seq<Basic>, a: AccountId)
    ensures var n := RunBasics(cfg, m, ds);
            && Acct(n.chain, a).pending == Acct(m.chain, a).pending
            && n.inflight == m.inflight && n.receipts == m.receipts && n.chain.credit == m.chain.credit
    decreases |ds|
  {
    if ds == [] {
    } else {
      BasicKeepsPending(cfg, m, ds[0], a);
      BasicsKeepPending(cfg, AfterBasic(cfg, m, ds[0]), ds[1..], a);
    }
  }

  lemma {:induction false} BasicsKeepWealth(cfg: Config, m: Machine, ds: seq<Basic>)
    ensures Wealth(RunBasics(cfg, m, ds).chain) == Wealth(m.chain)
    decreases |ds|
  {
    if ds == [] {
    } else {
      StepKeepsWealth(cfg, m, Do(ds[0]));
      BasicsKeepWealth(cfg, AfterBasic(cfg, m, ds[0]), ds[1..]);
    }
  }

  lemma ReserveAdds(cfg: Config, m: Machine, it: Item, a: AccountId)
    requires it.Sponsored? && Reserved(cfg, m, it)
    ensures var p := AfterPrepare(cfg, m, it.tx, it.reserve);
            var r := Validate(cfg, m.chain, it.tx).value;
            && r.sponsor == it.tx.sponsor && r.estimate == Estimate(cfg, it)
            && p.inflight == m.inflight + [r] && p.receipts == m.receipts && p.chain.credit == m.chain.credit
            && Acct(p.chain, a).pending ==
               Acct(m.chain, a).pending + (if a == it.tx.sponsor then Estimate(cfg, it) else 0)
  {
    PrepareIsLocal(cfg, m, it.tx, it.reserve, a);
    var p := AfterPrepare(cfg, m, it.tx, it.reserve);
    assert CellOf(p, a).account == Acct(p.chain, a);
  }

  /** At every point of the dispatch, whatever calls and moves it has made so far, exactly the estimate
      is pending of the named sponsor on top of what was pending before, and nothing else is. */
  lemma PendingDuringDispatch(cfg: Config, m: Machine, it: Item, k: nat, a: AccountId)
    requires it.Sponsored? && Reserved(cfg, m, it)
    requires k <= |it.dispatch|
    ensures var n := RunBasics(cfg, AfterPrepare(cfg, m, it.tx, it.reserve), it.dispatch[..k]);
            && n.inflight == m.inflight + [Validate(cfg, m.chain, it.tx).value]
            && Acct(n.chain, a).pending ==
               Acct(m.chain, a).pending + (if a == it.tx.sponsor then Estimate(cfg, it) else 0)
  {
    ReserveAdds(cfg, m, it, a);
    BasicsKeepPending(cfg, AfterPrepare(cfg, m, it.tx, it.reserve), it.dispatch[..k], a);
  }

  /** Whatever the dispatch does, it hands the reservation on to the settlement. */
  lemma HandedOn(cfg: Config, m: Machine, it: Item, a: AccountId)
    requires it.Sponsored? && Reserved(cfg, m, it)
    ensures var r := Validate(cfg, m.chain, it.tx).value;
            var d := Dispatched(cfg, m, it);
            && r.sponsor == it.tx.sponsor && r.estimate == Estimate(cfg, it)
            && d.inflight == m.inflight + [r] && d.receipts == m.receipts && d.chain.credit == m.chain.credit
            && Acct(d.chain, a).pending ==
               Acct(m.chain, a).pending + (if a == it.tx.sponsor then Estimate(cfg, it) else 0)
            && Wealth(d.chain) == Wealth(m.chain)
            && Exec(cfg, m, it).chain == AfterSettle(cfg, d.chain, r, ActualFee(cfg, it), it.settle)
  {
    var p := AfterPrepare(cfg, m, it.tx, it.reserve);
    ReserveAdds(cfg, m, it, a);
    StepKeepsWealth(cfg, m, Prepare(it.tx, it.reserve));
    if it.success {
      BasicsKeepPending(cfg, p, it.dispatch, a);
      BasicsKeepWealth(cfg, p, it.dispatch);
    }
  }

  lemma ExecKeepsInFlight(cfg: Config, m: Machine, it: Item)
    ensures Exec(cfg, m, it).inflight == m.inflight
  {
    match it
    case Alone(b) => BasicKeepsPending(cfg, m, b, 0);
    case Sponsored(_, _, _, _, _, _) => if Reserved(cfg, m, it) { HandedOn(cfg, m, it, 0); }
  }

  lemma ExecFits(cfg: Config, m: Machine, it: Item)
    requires Fits(cfg, m.chain)
    ensures Fits(cfg, Exec(cfg, m, it).chain)
  {
    ExecIsRun(cfg, m, it);
    WealthConserved(cfg, m, Steps(cfg, m, it));
  }

  // --------------------------------------------- what is pending in between

  /** What is pending of `a` after `it`: a settlement against `a` clears everything,
      unless it is refused the release: then its own remainder is added. */
  function Leftover(cfg: Config, m: Machine, it: Item, a: AccountId, before: nat): nat {
    if !it.Sponsored? || it.tx.sponsor != a || !Reserved(cfg, m, it) then before
    else if it.settle.release then before + (Estimate(cfg, it) - Due(cfg, it))
    else 0
  }

  lemma ExecPending(cfg: Config, m: Machine, it: Item, a: AccountId)
    requires Fits(cfg, m.chain)
    ensures Acct(Exec(cfg, m, it).chain, a).pending == Leftover(cfg, m, it, a, Acct(m.chain, a).pending)
  {
    match it
    case Alone(b) => BasicKeepsPending(cfg, m, b, a);
    case Sponsored(_, _, _, _, _, _) =>
      if Reserved(cfg, m, it) {
        var d := Dispatched(cfg, m, it);
        HandedOn(cfg, m, it, a);
        AccountFits(cfg, d.chain, a);
        if a == it.tx.sponsor {
          SettleReturns(cfg, Acct(d.chain, a), Validate(cfg, m.chain, it.tx).value, ActualFee(cfg, it), it.settle);
        }
      }
  }

  function LeftPending(cfg: Config, m: Machine, items: seq<Item>, a: AccountId, before: nat): nat
    decreases |items|
  {
    if items == [] then before
    else LeftPending(cfg, Exec(cfg, m, items[0]), items[1..], a, Leftover(cfg, m, items[0], a, before))
  }

  /** After every sequential run, under any refusals, what is pending is exactly the remainders whose
      release was refused since the last settlement that was granted its release. */
  lemma {:induction false} PendingBetween(cfg: Config, m: Machine, items: seq<Item>, a: AccountId)
    requires Fits(cfg, m.chain)
    ensures Acct(ExecAll(cfg, m, items).chain, a).pending == LeftPending(cfg, m, items, a, Acct(m.chain, a).pending)
    decreases |items|
  {
    if items == [] {
    } else {
      ExecPending(cfg, m, items[0], a);
      ExecFits(cfg, m, items[0]);
      PendingBetween(cfg, Exec(cfg, m, items[0]), items[1..], a);
    }
  }

  /** A remainder of `a` gets stuck if its release is refused; the next release granted clears it. */
  function PendingMark(cfg: Config, m: Machine, it: Item, a: AccountId): Mark {
    if !it.Sponsored? || it.tx.sponsor != a || !Reserved(cfg, m, it) then Keeps
    else if !it.settle.release then Clears
    else if Due(cfg, it) < Estimate(cfg, it) then Loses
    else Keeps
  }

  function PendingMarks(cfg: Config, m: Machine, items: seq<Item>, a: AccountId): seq<Mark>
    decreases |items|
  {
    if items == [] then []
    else [PendingMark(cfg, m, items[0], a)] + PendingMarks(cfg, Exec(cfg, m, items[0]), items[1..], a)
  }

  /** So nothing is pending exactly if every refused release of a remainder is followed by a
      transaction of the same sponsor whose release is granted. */
  lemma {:induction false} QuiescentIff(cfg: Config, m: Machine, items: seq<Item>, a: AccountId)
    requires Fits(cfg, m.chain)
    ensures Acct(ExecAll(cfg, m, items).chain, a).pending == 0 <==>
            EndsAtZero(PendingMarks(cfg, m, items, a), Acct(m.chain, a).pending)
    decreases |items|
  {
    if items == [] {
    } else {
      var it := items[0];
      var n := Exec(cfg, m, it);
      ExecPending(cfg, m, it, a);
      ExecFits(cfg, m, it);
      QuiescentIff(cfg, n, items[1..], a);
      EndsAtZeroCons(PendingMark(cfg, m, it, a), PendingMarks(cfg, n, items[1..], a),
                     Acct(m.chain, a).pending, Acct(n.chain, a).pending);
    }
  }

  // -------------------------------------------------------------- quiescence

  /** Nothing is in flight and nothing is pending. */
  ghost predicate Quiet(m: Machine) {
    m.inflight == [] && forall a :: Acct(m.chain, a).pending == 0
  }

  /** The release of what a settlement restores is not refused. */
  predicate Releasable(it: Item) { it.Sponsored? ==> !it.settle.release }

  /** A sponsored transaction from a quiet state ends with nothing pending, unless its settlement
      was refused the release of a remainder: exactly then the remainder stays pending. */
  lemma QuietAgain(cfg: Config, m: Machine, it: Item, a: AccountId)
    requires Quiet(m) && it.Sponsored? && Fits(cfg, m.chain) && Reserved(cfg, m, it)
    ensures var n := Exec(cfg, m, it);
            && n.inflight == []
            && Acct(n.chain, a).pending ==
               (if a == it.tx.sponsor && it.settle.release then Estimate(cfg, it) - Due(cfg, it) else 0)
  {
    ExecKeepsInFlight(cfg, m, it);
    ExecPending(cfg, m, it, a);
    assert Acct(m.chain, a).pending == 0;
  }

  lemma ExecStaysQuiet(cfg: Config, m: Machine, it: Item)
    requires Quiet(m) && Fits(cfg, m.chain) && Releasable(it)
    ensures Quiet(Exec(cfg, m, it)) && Fits(cfg, Exec(cfg, m, it).chain)
  {
    ExecFits(cfg, m, it);
    ExecKeepsInFlight(cfg, m, it);
    forall a
      ensures Acct(Exec(cfg, m, it).chain, a).pending == 0
    {
      ExecPending(cfg, m, it, a);
      assert Acct(m.chain, a).pending == 0;
    }
  }

  /** If no settlement is refused its release, no account has a pending hold between transactions, even
      when the ledger refuses holds. */
  lemma {:induction false} Quiescence(cfg: Config, m: Machine, items: seq<Item>)
    requires Quiet(m) && Fits(cfg, m.chain)
    requires forall it <- items :: Releasable(it)
    ensures Quiet(ExecAll(cfg, m, items))
    decreases |items|
  {
    if items == [] {
    } else {
      ExecStaysQuiet(cfg, m, items[0]);
      Quiescence(cfg, Exec(cfg, m, items[0]), items[1..]);
    }
  }
}
