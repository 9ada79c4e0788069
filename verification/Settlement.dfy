/** Exact accounting of transactions run one at a time: first under any refusals, then with accounts
    kept alive. */
module Settlement {
  import opened Types
  import opened Extension
  import opened Machine
  import opened Conservation
  import opened EventLog
  import opened Safety
  import opened Spending
  import opened Discipline
  import opened Sequential

  // ------------------------------------- the charge, whatever the ledger refuses

  /** Every reserved transaction, whatever its dispatch does and whatever the ledger refuses, is charged
      exactly what is due and never falls short; the clamp runs exactly if the actual fee exceeds the
      estimate, and the credit routed is what is due. */
  lemma ReceiptOf(cfg: Config, m: Machine, it: Item)
    requires it.Sponsored? && Reserved(cfg, m, it)
    ensures var n := Exec(cfg, m, it);
            && |n.receipts| == |m.receipts| + 1 && m.receipts <= n.receipts
            && n.chain.credit == m.chain.credit + Due(cfg, it)
            && var q := n.receipts[|m.receipts|];
            && q.reservation.sponsor == it.tx.sponsor && q.fee == Due(cfg, it) && q.missing == 0
            && (q.clamped <==> ActualFee(cfg, it) > Estimate(cfg, it))
  {
    HandedOn(cfg, m, it, it.tx.sponsor);
  }

  /** The restore that ends a transaction fails exactly if something is left to restore and the ledger
      refuses a step or dispatch left the sponsor without a free existential deposit. */
  lemma RestoreOf(cfg: Config, m: Machine, it: Item)
    requires it.Sponsored? && Reserved(cfg, m, it) && Fits(cfg, m.chain)
    ensures var x := Acct(Dispatched(cfg, m, it).chain, it.tx.sponsor);
            var n := Exec(cfg, m, it);
            && Due(cfg, it) <= x.pending && |n.receipts| == |m.receipts| + 1
            && var rest, outcome := x.pending - Due(cfg, it), n.receipts[|m.receipts|].restore;
            && (outcome.NothingLeft? <==> rest == 0) && (!outcome.NothingLeft? ==> outcome.amount == rest)
            && (outcome.ReleaseFailed? <==> rest > 0 && it.settle.release)
            && (outcome.ReholdFailed? <==> rest > 0 && !it.settle.release && (it.settle.hold || x.free < cfg.ed))
  {
    HandedOn(cfg, m, it, it.tx.sponsor);
    var d := Dispatched(cfg, m, it);
    var x := Acct(d.chain, it.tx.sponsor);
    AccountFits(cfg, d.chain, it.tx.sponsor);
    RestoreFailsIff(cfg, x.(pending := x.pending - Due(cfg, it)), it.settle);
  }

  /** What a transaction costs for its weight: nothing if it need not pay, as declared or as it turned
      out; otherwise by the weight it reports, but never for more than it declared. */
  function WeightPrice(cfg: Config, tx: Tx, post: PostInfo): nat {
    if !tx.info.paysFee || !post.paysFee then 0
    else
      match post.actualWeight
      case None => cfg.inclusion(tx.len, tx.info.weight)
      case Some(w) => cfg.inclusion(tx.len, if w < tx.info.weight then w else tx.info.weight)
  }

  /** The price, the split and the event of every reserved transaction: the tip on top of the lesser of
      what was declared and what was used, within the balance type, tip first; the event names sponsor
      and signer, and nothing else is logged. */
  lemma PriceOf(cfg: Config, m: Machine, it: Item)
    requires it.Sponsored? && Reserved(cfg, m, it)
    ensures var tx := it.tx;
            var declared := WeightPrice(cfg, tx, PostInfo(None, true));
            var fee := Min(cfg.maxBalance, Min(declared, WeightPrice(cfg, tx, it.post)) + tx.tip);
            var n := Exec(cfg, m, it);
            && tx.origin.Some? && Estimate(cfg, it) == Min(cfg.maxBalance, declared + tx.tip)
            && |n.receipts| == |m.receipts| + 1
            && var q := n.receipts[|m.receipts|];
            && q.fee == fee && q.tipCredit == Min(tx.tip, fee) && q.feeCredit == fee - Min(tx.tip, fee)
            && n.chain.log == Dispatched(cfg, m, it).chain.log +
                              [SponsoredTransactionFeePaid(tx.sponsor, tx.origin.value, fee, Min(tx.tip, fee))]
  {
    ReceiptOf(cfg, m, it);
    HandedOn(cfg, m, it, it.tx.sponsor);
  }

  /** So, as long as the estimate is within the balance type, the tip is routed in full, and besides it
      exactly the price of the weight used, if that is no more than the price declared. */
  lemma PriceCases(cfg: Config, m: Machine, it: Item)
    requires it.Sponsored? && Reserved(cfg, m, it)
    requires cfg.inclusion(it.tx.len, it.tx.info.weight) + it.tx.tip <= cfg.maxBalance
    ensures var whole := cfg.inclusion(it.tx.len, it.tx.info.weight);
            var n := Exec(cfg, m, it);
            && |n.receipts| == |m.receipts| + 1
            && var q := n.receipts[|m.receipts|];
            && q.tipCredit == it.tx.tip
            && (!it.tx.info.paysFee || !it.post.paysFee ==> q.feeCredit == 0)
            && (it.tx.info.paysFee && it.post.paysFee ==>
                  match it.post.actualWeight
                  case None => q.feeCredit == whole
                  case Some(w) =>
                    if w >= it.tx.info.weight then q.feeCredit == whole
                    else q.feeCredit == Min(cfg.inclusion(it.tx.len, w), whole))
  {
    PriceOf(cfg, m, it);
  }

  lemma NoReceipt(cfg: Config, m: Machine, it: Item)
    requires it.Sponsored? ==> !Reserved(cfg, m, it)
    ensures Exec(cfg, m, it).receipts == m.receipts
  {
    if it.Alone? { BasicKeepsPending(cfg, m, it.b, 0); }
  }

  lemma ActualWithinEstimate(cfg: Config, it: Item)
    requires MonotoneFees(cfg) && it.Sponsored?
    ensures ActualFee(cfg, it) <= Estimate(cfg, it)
  {
    var w := ActualWeight(it.tx.info, it.post);
    assert cfg.inclusion(it.tx.len, w) <= cfg.inclusion(it.tx.len, it.tx.info.weight);
  }

  predicate Unclamped(q: Receipt) { !q.clamped && q.missing == 0 }

  /** With fees that never rise as weight falls, no sequential run takes the clamp or meets a slash
      shortfall, under any refusals, any outside moves and any dispatch. */
  lemma {:induction false} ClampAndShortfallDead(cfg: Config, m: Machine, items: seq<Item>)
    requires MonotoneFees(cfg)
    requires forall q <- m.receipts :: Unclamped(q)
    ensures forall q <- ExecAll(cfg, m, items).receipts :: Unclamped(q)
    decreases |items|
  {
    if items == [] {
    } else {
      var it := items[0];
      var n := Exec(cfg, m, it);
      if it.Sponsored? && Reserved(cfg, m, it) {
        ReceiptOf(cfg, m, it);
        ActualWithinEstimate(cfg, it);
        assert n.receipts == m.receipts + [n.receipts[|m.receipts|]];
      } else {
        NoReceipt(cfg, m, it);
      }
      ClampAndShortfallDead(cfg, n, items[1..]);
    }
  }

  // ---------------------------------------------------------- exact settlement

  /** In any state: a transaction is reserved exactly if it validates, the ledger refuses neither step,
      and the sponsor's existential deposit is free or nothing has to be moved. */
  lemma ReservesIff(cfg: Config, m: Machine, it: Item)
    requires Fits(cfg, m.chain) && it.Sponsored?
    ensures Reserved(cfg, m, it) <==>
            && Validate(cfg, m.chain, it.tx).Ok? && it.reserve == NO_REFUSAL
            && (Estimate(cfg, it) == 0 || Acct(m.chain, it.tx.sponsor).free >= cfg.ed)
  {
    if Validate(cfg, m.chain, it.tx).Ok? {
      assert Run(cfg, m, []) == m;
      ReservedIff(cfg, m, [], it.tx, it.reserve);
    }
  }

  /** A reservation moves the estimate from the sponsor's budget to its pending hold and touches no
      other balance, of the sponsor or of anyone else. */
  lemma ExactReservation(cfg: Config, m: Machine, it: Item, a: AccountId)
    requires it.Sponsored? && Reserved(cfg, m, it)
    ensures var p := AfterPrepare(cfg, m, it.tx, it.reserve);
            var x := Acct(m.chain, a);
            && Estimate(cfg, it) <= Acct(m.chain, it.tx.sponsor).budget
            && p.chain.sponsors == m.chain.sponsors && p.chain.log == m.chain.log
            && Acct(p.chain, a) ==
               if a != it.tx.sponsor then x
               else x.(budget := x.budget - Estimate(cfg, it), pending := x.pending + Estimate(cfg, it))
  {
    PrepareIsLocal(cfg, m, it.tx, it.reserve, a);
    assert CellOf(AfterPrepare(cfg, m, it.tx, it.reserve), a).account ==
           Acct(AfterPrepare(cfg, m, it.tx, it.reserve).chain, a);
  }

  /** Whatever the dispatch did and whatever is refused, settlement takes what is due from the pending
      hold and touches nobody but the sponsor; the rest goes where the refusals of this settlement and
      the sponsor's free balance at the end of dispatch send it. */
  lemma ExactSettlement(cfg: Config, m: Machine, it: Item, a: AccountId)
    requires it.Sponsored? && Reserved(cfg, m, it) && Fits(cfg, m.chain)
    ensures var d := Dispatched(cfg, m, it);
            var n := Exec(cfg, m, it);
            var x, y := Acct(d.chain, it.tx.sponsor), Acct(d.chain, a);
            && x.pending == Acct(m.chain, it.tx.sponsor).pending + Estimate(cfg, it)
            && n.chain.sponsors == d.chain.sponsors
            && n.chain.credit == m.chain.credit + Due(cfg, it)
            && Acct(n.chain, a) ==
               if a != it.tx.sponsor then y else Returned(cfg, y, y.pending - Due(cfg, it), it.settle)
  {
    var d := Dispatched(cfg, m, it);
    var r := Validate(cfg, m.chain, it.tx).value;
    HandedOn(cfg, m, it, it.tx.sponsor);
    AccountFits(cfg, d.chain, it.tx.sponsor);
    SettleReturns(cfg, Acct(d.chain, it.tx.sponsor), r, ActualFee(cfg, it), it.settle);
    assert Charge(r, ActualFee(cfg, it), Acct(d.chain, it.tx.sponsor).pending) == Due(cfg, it);
  }

  // ------------------------------------------------------ bounded transactions

  /** The transaction pays, by what is known before dispatch and after it. */
  predicate Pays(it: Item) requires it.Sponsored? { it.tx.info.paysFee && it.post.paysFee }

  lemma DueAtLeast(cfg: Config, it: Item, floor: nat)
    requires it.Sponsored? && Pays(it) && floor <= cfg.maxBalance
    requires forall len: nat, w: nat :: cfg.inclusion(len, w) >= floor
    ensures Due(cfg, it) >= floor
  {
    assert cfg.inclusion(it.tx.len, it.tx.info.weight) >= floor;
    assert cfg.inclusion(it.tx.len, ActualWeight(it.tx.info, it.post)) >= floor;
  }

  lemma {:induction false} FeesAtLeast(cfg: Config, m: Machine, items: seq<Item>, a: AccountId, floor: nat)
    requires floor <= cfg.maxBalance
    requires forall len: nat, w: nat :: cfg.inclusion(len, w) >= floor
    requires forall it <- items :: it.Sponsored? && it.tx.sponsor == a ==> Pays(it)
    ensures m.receipts <= ExecAll(cfg, m, items).receipts
    ensures ChargesAtLeast(ExecAll(cfg, m, items).receipts, |m.receipts|, a, floor)
    decreases |items|
  {
    if items == [] {
    } else {
      var it := items[0];
      FeesAtLeast(cfg, Exec(cfg, m, it), items[1..], a, floor);
      if it.Sponsored? && Reserved(cfg, m, it) {
        ReceiptOf(cfg, m, it);
        if it.tx.sponsor == a { DueAtLeast(cfg, it, floor); }
      } else {
        NoReceipt(cfg, m, it);
      }
    }
  }

  /** When every inclusion fee is `floor` or more, the number of completed transactions sponsored by
      `a`, times `floor`, comes out of the escrow `a` started with, as long as no top-up by `a` is
      accepted and kept; refused, failed and rolled-back attempts do not matter. */
  lemma TransactionsBounded(cfg: Config, m: Machine, before: seq<Item>, items: seq<Item>, a: AccountId, floor: nat)
    requires Genesis(m) && floor <= cfg.maxBalance
    requires forall len: nat, w: nat :: cfg.inclusion(len, w) >= floor
    requires forall it <- items :: it.Sponsored? && it.tx.sponsor == a ==> Pays(it)
    requires var k := ExecAll(cfg, m, before);
             Untopped(cfg, k, AllSteps(cfg, k, items), a)
    ensures var k := ExecAll(cfg, m, before);
            var n := ExecAll(cfg, k, items);
            && k.receipts <= n.receipts
            && floor * |Charges(n.receipts[|k.receipts|..], a)| + Acct(n.chain, a).budget + Acct(n.chain, a).pending
               <= Acct(k.chain, a).budget + Acct(k.chain, a).pending
  {
    var k := ExecAll(cfg, m, before);
    SequentialIsInterleaving(cfg, m, before);
    SequentialIsInterleaving(cfg, k, items);
    FeesAtLeast(cfg, k, items, a, floor);
    SettlementsBounded(cfg, m, AllSteps(cfg, m, before), AllSteps(cfg, k, items), a, floor);
  }

  // ------------------------------------------------------ accounts kept alive

  ghost predicate AllTidy(cfg: Config, m: Machine) { forall a :: Tidy(cfg, m, a) }

  /** A state between two transactions. */
  ghost predicate Ready(cfg: Config, m: Machine) { Quiet(m) && Fits(cfg, m.chain) && AllTidy(cfg, m) }

  predicate Kind(it: Item) {
    match it
    case Alone(b) => Courteous(Do(b))
    case Sponsored(_, reserve, dispatch, _, _, settle) =>
      reserve == NO_REFUSAL && settle == NO_REFUSAL && forall b <- dispatch :: Courteous(Do(b))
  }

  lemma StartIsReady(cfg: Config, m: Machine)
    requires Start(cfg, m)
    ensures Ready(cfg, m)
  {
    forall a
      ensures Tidy(cfg, m, a)
    {
      StartIsTidy(cfg, m, a);
    }
  }

  lemma {:induction false} BasicsKeepTidy(cfg: Config, m: Machine, ds: seq<Basic>, a: AccountId)
    requires Fits(cfg, m.chain) && Tidy(cfg, m, a)
    requires forall b <- ds :: Courteous(Do(b))
    ensures Tidy(cfg, RunBasics(cfg, m, ds), a)
    decreases |ds|
  {
    if ds == [] {
    } else {
      StepKeepsTidy(cfg, m, Do(ds[0]), a);
      StepKeepsWealth(cfg, m, Do(ds[0]));
      BasicsKeepTidy(cfg, AfterBasic(cfg, m, ds[0]), ds[1..], a);
    }
  }

  /** In every state between transactions, what `validate` accepts `prepare` reserves. */
  lemma ValidationSuffices(cfg: Config, m: Machine, it: Item)
    requires Ready(cfg, m) && Kind(it) && it.Sponsored?
    ensures Reserved(cfg, m, it) <==> Validate(cfg, m.chain, it.tx).Ok?
  {
    assert Tidy(cfg, m, it.tx.sponsor);
    ReservesIff(cfg, m, it);
  }

  lemma DispatchedTidy(cfg: Config, m: Machine, it: Item, a: AccountId)
    requires Ready(cfg, m) && Kind(it) && it.Sponsored? && Reserved(cfg, m, it)
    ensures Tidy(cfg, Dispatched(cfg, m, it), a) && Fits(cfg, Dispatched(cfg, m, it).chain)
  {
    assert Tidy(cfg, m, a);
    StepKeepsTidy(cfg, m, Prepare(it.tx, it.reserve), a);
    StepKeepsWealth(cfg, m, Prepare(it.tx, it.reserve));
    HandedOn(cfg, m, it, a);
    if it.success { BasicsKeepTidy(cfg, AfterPrepare(cfg, m, it.tx, it.reserve), it.dispatch, a); }
  }

  lemma ExecKeepsTidy(cfg: Config, m: Machine, it: Item, a: AccountId)
    requires Ready(cfg, m) && Kind(it)
    ensures Tidy(cfg, Exec(cfg, m, it), a)
  {
    assert Tidy(cfg, m, a);
    match it
    case Alone(b) => StepKeepsTidy(cfg, m, Do(b), a);
    case Sponsored(_, _, _, _, _, settle) =>
      if Reserved(cfg, m, it) {
        DispatchedTidy(cfg, m, it, a);
        StepKeepsTidy(cfg, Dispatched(cfg, m, it), Settle(|m.inflight|, ActualFee(cfg, it), settle), a);
      }
  }

  lemma ExecStaysReady(cfg: Config, m: Machine, it: Item)
    requires Ready(cfg, m) && Kind(it)
    ensures Ready(cfg, Exec(cfg, m, it))
  {
    ExecStaysQuiet(cfg, m, it);
    forall a
      ensures Tidy(cfg, Exec(cfg, m, it), a)
    {
      ExecKeepsTidy(cfg, m, it, a);
    }
  }

  lemma {:induction false} AlwaysReady(cfg: Config, m: Machine, items: seq<Item>)
    requires Ready(cfg, m)
    requires forall it <- items :: Kind(it)
    ensures Ready(cfg, ExecAll(cfg, m, items))
    decreases |items|
  {
    if items == [] {
    } else {
      ExecStaysReady(cfg, m, items[0]);
      AlwaysReady(cfg, Exec(cfg, m, items[0]), items[1..]);
    }
  }

  /** With accounts kept alive, settlement takes what is due from the pending hold, returns the rest of
      the estimate to the budget, and touches no other balance. */
  lemma KeptAliveSettlement(cfg: Config, m: Machine, it: Item, a: AccountId)
    requires Ready(cfg, m) && Kind(it) && it.Sponsored? && Validate(cfg, m.chain, it.tx).Ok?
    ensures var d := Dispatched(cfg, m, it);
            var n := Exec(cfg, m, it);
            var y := Acct(d.chain, a);
            && n.chain.sponsors == d.chain.sponsors
            && n.chain.credit == m.chain.credit + Due(cfg, it)
            && Acct(n.chain, a) ==
               if a != it.tx.sponsor then y
               else y.(pending := 0, budget := y.budget + Estimate(cfg, it) - Due(cfg, it))
  {
    var x := Acct(Dispatched(cfg, m, it).chain, it.tx.sponsor);
    assert Reserved(cfg, m, it) by { ValidationSuffices(cfg, m, it); }
    assert Alive(cfg, x) by { DispatchedTidy(cfg, m, it, it.tx.sponsor); }
    assert Acct(m.chain, it.tx.sponsor).pending == 0;
    ExactSettlement(cfg, m, it, a);
    AliveReturns(cfg, x, x.pending - Due(cfg, it));
  }

  // -------------------------------------------------------- defensive branches

  predicate BranchFree(q: Receipt) { !q.clamped && Clean(q) }

  lemma RestoreIsClean(cfg: Config, m: Machine, it: Item)
    requires Ready(cfg, m) && Kind(it) && it.Sponsored? && Reserved(cfg, m, it)
    ensures |Exec(cfg, m, it).receipts| == |m.receipts| + 1
    ensures Clean(Exec(cfg, m, it).receipts[|m.receipts|])
  {
    ReceiptOf(cfg, m, it);
    RestoreOf(cfg, m, it);
    DispatchedTidy(cfg, m, it, it.tx.sponsor);
  }

  /** If besides accounts are kept alive and the ledger refuses nothing of its own, no step of the
      restore fails either. */
  lemma {:induction false} DefensiveBranchesDead(cfg: Config, m: Machine, items: seq<Item>)
    requires Ready(cfg, m) && MonotoneFees(cfg)
    requires forall it <- items :: Kind(it)
    requires forall q <- m.receipts :: BranchFree(q)
    ensures forall q <- ExecAll(cfg, m, items).receipts :: BranchFree(q)
    decreases |items|
  {
    if items == [] {
    } else {
      var it := items[0];
      var n := Exec(cfg, m, it);
      ExecStaysReady(cfg, m, it);
      if it.Sponsored? && Reserved(cfg, m, it) {
        ReceiptOf(cfg, m, it);
        RestoreIsClean(cfg, m, it);
        ActualWithinEstimate(cfg, it);
        assert n.receipts == m.receipts + [n.receipts[|m.receipts|]];
      } else {
        NoReceipt(cfg, m, it);
      }
      DefensiveBranchesDead(cfg, n, items[1..]);
    }
  }

  // ----------------------------------------------------------- replay, exactly

  /** Between transactions the log alone gives every account's registration, flag and budget. */
  lemma ReplayIsState(cfg: Config, m: Machine, items: seq<Item>, a: AccountId)
    requires Start(cfg, m)
    requires forall it <- items :: Kind(it)
    ensures var s := ExecAll(cfg, m, items).chain;
            Replay(s.log, a) ==
            if a in s.sponsors then Some(View(s.sponsors[a].active, Acct(s, a).budget)) else None
  {
    StartIsReady(cfg, m);
    AlwaysReady(cfg, m, items);
    var n := ExecAll(cfg, m, items);
    assert Tidy(cfg, n, a);
    assert LogTruthful(CellOf(n, a)) && BooksBalance(CellOf(n, a));
    assert Acct(n.chain, a).pending == 0;
  }
}
