/** Theorems about every overlap of calls, reservations and settlements, under any refusals. */
module Interleaving {
  import opened Types
  import opened Pallet
  import opened Extension
  import opened Machine
  import opened EventLog
  import opened Safety

  // ------------------------------------------------------------- the event log

  /** Registration and the active flag always replay, and the escrow up to what refused holds left
      spendable since the last registration. */
  lemma ReplayUpToStray(cfg: Config, m: Machine, steps: seq<Step>, a: AccountId)
    requires Genesis(m)
    ensures var n := Run(cfg, m, steps);
            var v := Replay(n.chain.log, a);
            && (v.Some? <==> a in n.chain.sponsors)
            && (v.Some? ==> v.value.active == n.chain.sponsors[a].active)
            && (v.Some? ==>
                  v.value.held == Acct(n.chain, a).budget + Acct(n.chain, a).pending + BookOf(n, a).stray)
  {
    ReachableIsGood(cfg, m, steps, a);
  }

  /** A logged `new_budget` is the replayed escrow less what is pending (or stray) at that moment. */
  predicate BudgetEventUpToStray(n: Machine, who: AccountId) {
    && n.chain.log != []
    && var e := n.chain.log[|n.chain.log| - 1];
       var v := Replay(n.chain.log, who);
    && (e.BudgetIncreased? || e.BudgetDecreased?) && e.sponsor == who && v.Some?
    && e.newBudget == v.value.held - Acct(n.chain, who).pending - BookOf(n, who).stray
  }

  lemma BudgetEventOf(n: Machine, log: seq<Event>, who: AccountId, call: Call)
    requires Good(n, who) && who in n.chain.sponsors
    requires call.IncreaseBudget? || call.DecreaseBudget?
    requires n.chain.log == log + [CallEvent(who, call, Acct(n.chain, who).budget)]
    ensures BudgetEventUpToStray(n, who)
  {
    assert LogTruthful(CellOf(n, who));
  }

  lemma RecordSurvives(cfg: Config, s: State, who: AccountId, call: Call, refused: bool)
    requires CallError(cfg, s, who, call, refused).None?
    ensures CallRecord(SponsorOf(s, who), call).Some? <==> !call.Unregister?
  {
  }

  lemma CallLogs(cfg: Config, m: Machine, who: AccountId, call: Call, refused: bool)
    requires CallError(cfg, m.chain, who, call, refused).None?
    ensures var n := AfterBasic(cfg, m, DoCall(Some(who), call, refused));
            && n.chain.log == m.chain.log + [CallEvent(who, call, Acct(n.chain, who).budget)]
            && (who in n.chain.sponsors <==> !call.Unregister?)
  {
    AcceptedCall(cfg, m, who, call, refused);
    EffectIsLocal(m.chain, who, call, who);
    RecordSurvives(cfg, m.chain, who, call, refused);
  }

  lemma LoggedUpToStray(cfg: Config, m: Machine, steps: seq<Step>, who: AccountId, call: Call, refused: bool)
    requires Genesis(m)
    requires call.IncreaseBudget? || call.DecreaseBudget?
    requires CallError(cfg, Run(cfg, m, steps).chain, who, call, refused).None?
    ensures BudgetEventUpToStray(After(cfg, Run(cfg, m, steps), Do(DoCall(Some(who), call, refused))), who)
  {
    ReachableIsGood(cfg, m, steps, who);
    var r := Run(cfg, m, steps);
    CallKeepsGood(cfg, r, who, call, refused, who);
    CallLogs(cfg, r, who, call, refused);
    BudgetEventOf(AfterBasic(cfg, r, DoCall(Some(who), call, refused)), r.chain.log, who, call);
  }

  // ---------------------------------------------------------- escrow ownership

  /** Held sponsorship funds always belong to a registered sponsor with a usable allowlist. */
  lemma EscrowHasOwner(cfg: Config, m: Machine, steps: seq<Step>, a: AccountId)
    requires Genesis(m)
    ensures var s := Run(cfg, m, steps).chain;
            && (Acct(s, a).budget + Acct(s, a).pending > 0 ==> a in s.sponsors)
            && (a in s.sponsors ==>
                  var callers := s.sponsors[a].policy.allowedCallers;
                  0 < |callers| <= 32 && |Elements(callers)| == |callers|)
  {
    ReachableIsGood(cfg, m, steps, a);
    var s := Run(cfg, m, steps).chain;
    if a in s.sponsors { DistinctIsSet(s.sponsors[a].policy.allowedCallers); }
  }

  function Elements(s: seq<AccountId>): set<AccountId> { set c | c in s }

  /** A duplicate-free list is as long as the set of its elements. */
  lemma {:induction false} DistinctIsSet(s: seq<AccountId>)
    requires Distinct(s)
    ensures |Elements(s)| == |s|
  {
    if s == [] {
      assert Elements(s) == {};
    } else {
      var front, last := s[..|s| - 1], s[|s| - 1];
      DistinctIsSet(front);
      assert s == front + [last];
      assert Elements(s) == Elements(front) + {last};
      assert last !in front;
    }
  }

  /** Unregistering gives back the whole escrow; nothing stays on a sponsorship hold. */
  lemma UnregisterOrphansNothing(cfg: Config, m: Machine, who: AccountId, refused: bool)
    requires CallError(cfg, m.chain, who, Call.Unregister, refused).None?
    ensures var s := After(cfg, m, Do(DoCall(Some(who), Call.Unregister, refused))).chain;
            var x, y := Acct(m.chain, who), Acct(s, who);
            && who !in s.sponsors
            && y == x.(free := x.free + x.budget, budget := 0) && y.pending == 0
  {
    CallIsLocal(cfg, m, who, Call.Unregister, refused, who);
    assert CellOf(After(cfg, m, Do(DoCall(Some(who), Call.Unregister, refused))), who).record.None?;
  }

  /** Settling for an account that is no sponsor any more charges nothing and moves nothing. */
  lemma RemovedSponsorUntouched(cfg: Config, m: Machine, steps: seq<Step>, i: nat, actual: nat, no: Refusals)
    requires Genesis(m)
    requires i < |Run(cfg, m, steps).inflight|
    requires Run(cfg, m, steps).inflight[i].sponsor !in Run(cfg, m, steps).chain.sponsors
    ensures var n := Run(cfg, m, steps);
            var t := After(cfg, n, Settle(i, actual, no));
            && t.chain.credit == n.chain.credit
            && (forall a :: Acct(t.chain, a) == Acct(n.chain, a))
            && t.receipts[|n.receipts|].fee == 0
            && t.receipts[|n.receipts|].restore.NothingLeft?
  {
    ReachableIsGood(cfg, m, steps, Run(cfg, m, steps).inflight[i].sponsor);
  }

  // ------------------------------------------------------- receipts and credit

  /** The charge is within the estimate and the validated cap, and is what was routed. */
  predicate SoundReceipt(r: Receipt) {
    && r.fee == r.feeCredit + r.tipCredit
    && r.tip == r.tipCredit == Min(r.reservation.tip, r.fee)
    && r.fee <= r.reservation.estimate <= r.reservation.cap
  }

  function PaidEvents(log: seq<Event>): seq<Event> {
    if log == [] then []
    else
      var e := log[|log| - 1];
      PaidEvents(log[..|log| - 1]) + (if e.SponsoredTransactionFeePaid? then [e] else [])
  }

  function EventsOf(receipts: seq<Receipt>): seq<Event> {
    if receipts == [] then []
    else EventsOf(receipts[..|receipts| - 1]) + [PaidEvent(receipts[|receipts| - 1])]
  }

  function Routed(receipts: seq<Receipt>): nat {
    if receipts == [] then 0
    else
      var r := receipts[|receipts| - 1];
      Routed(receipts[..|receipts| - 1]) + r.feeCredit + r.tipCredit
  }

  /** What sponsor `a` paid in these receipts. */
  function FeesOf(receipts: seq<Receipt>, a: AccountId): nat {
    if receipts == [] then 0
    else
      var r := receipts[|receipts| - 1];
      FeesOf(receipts[..|receipts| - 1], a) + (if r.reservation.sponsor == a then r.fee else 0)
  }

  predicate ReceiptsTruthful(m: Machine) {
    && (forall r <- m.receipts :: SoundReceipt(r))
    && (forall r <- m.inflight :: r.estimate <= r.cap)
    && PaidEvents(m.chain.log) == EventsOf(m.receipts)
    && m.chain.credit == Routed(m.receipts)
  }

  lemma AppendEvent(log: seq<Event>, e: Event)
    ensures PaidEvents(log + [e]) == PaidEvents(log) + (if e.SponsoredTransactionFeePaid? then [e] else [])
  {
    assert (log + [e])[..|log|] == log;
  }

  lemma AppendReceipt(receipts: seq<Receipt>, r: Receipt, a: AccountId)
    ensures EventsOf(receipts + [r]) == EventsOf(receipts) + [PaidEvent(r)]
    ensures Routed(receipts + [r]) == Routed(receipts) + r.feeCredit + r.tipCredit
    ensures FeesOf(receipts + [r], a) ==
            FeesOf(receipts, a) + (if r.reservation.sponsor == a then r.fee else 0)
  {
    assert (receipts + [r])[..|receipts|] == receipts;
  }

  lemma BasicKeepsReceipts(cfg: Config, m: Machine, b: Basic)
    requires ReceiptsTruthful(m)
    ensures ReceiptsTruthful(AfterBasic(cfg, m, b))
  {
    match b
    case DoMove(mv) => OutsideFrame(cfg, m.chain, mv, 0);
    case DoCall(origin, call, refused) =>
      if origin.Some? && CallError(cfg, m.chain, origin.value, call, refused).None? {
        CallLogs(cfg, m, origin.value, call, refused);
        AppendEvent(m.chain.log, CallEvent(origin.value, call, Acct(AfterBasic(cfg, m, b).chain, origin.value).budget));
      }
  }

  lemma SettleKeepsReceipts(cfg: Config, m: Machine, i: nat, actual: nat, no: Refusals)
    requires ReceiptsTruthful(m)
    requires i < |m.inflight|
    ensures ReceiptsTruthful(AfterSettlement(cfg, m, i, actual, no))
  {
    var r := m.inflight[i];
    var receipt := SettleReceipt(cfg, Acct(m.chain, r.sponsor), r, actual, no);
    AppendEvent(m.chain.log, PaidEvent(receipt));
    AppendReceipt(m.receipts, receipt, 0);
  }

  lemma StepKeepsReceipts(cfg: Config, m: Machine, st: Step)
    requires ReceiptsTruthful(m)
    ensures ReceiptsTruthful(After(cfg, m, st))
  {
    match st
    case Do(b) => BasicKeepsReceipts(cfg, m, b);
    case Prepare(tx, no) =>
    case Settle(i, actual, no) => if i < |m.inflight| { SettleKeepsReceipts(cfg, m, i, actual, no); }
  }

  lemma {:induction false} RunKeepsReceipts(cfg: Config, m: Machine, steps: seq<Step>)
    requires ReceiptsTruthful(m)
    ensures ReceiptsTruthful(Run(cfg, m, steps))
    decreases |steps|
  {
    if steps == [] {
    } else {
      StepKeepsReceipts(cfg, m, steps[0]);
      RunKeepsReceipts(cfg, After(cfg, m, steps[0]), steps[1..]);
    }
  }

  /** `r` came out of a validation that some prefix of the run led to. */
  ghost predicate Validated(cfg: Config, m: Machine, steps: seq<Step>, r: Reservation) {
    exists k :: 0 <= k < |steps| && ValidatedAt(cfg, m, steps, k, r)
  }

  predicate ValidatedAt(cfg: Config, m: Machine, steps: seq<Step>, k: nat, r: Reservation)
    requires k < |steps|
  {
    steps[k].Prepare? && Validate(cfg, Run(cfg, m, steps[..k]).chain, steps[k].tx) == Ok(r)
  }

  lemma RunLast(cfg: Config, m: Machine, steps: seq<Step>)
    requires steps != []
    ensures Run(cfg, m, steps) == After(cfg, Run(cfg, m, steps[..|steps| - 1]), steps[|steps| - 1])
  {
    var front, last := steps[..|steps| - 1], steps[|steps| - 1];
    assert steps == front + [last];
    RunConcat(cfg, m, front, [last]);
  }

  lemma ValidatedLonger(cfg: Config, m: Machine, steps: seq<Step>, r: Reservation)
    requires steps != []
    requires Validated(cfg, m, steps[..|steps| - 1], r)
    ensures Validated(cfg, m, steps, r)
  {
    var front := steps[..|steps| - 1];
    var k :| 0 <= k < |front| && ValidatedAt(cfg, m, front, k, r);
    assert front[..k] == steps[..k] && front[k] == steps[k];
    assert ValidatedAt(cfg, m, steps, k, r);
  }

  lemma {:induction false} Provenance(cfg: Config, m: Machine, steps: seq<Step>, r: Reservation)
    requires Genesis(m)
    requires r in Run(cfg, m, steps).inflight ||
             exists p :: p in Run(cfg, m, steps).receipts && p.reservation == r
    ensures Validated(cfg, m, steps, r)
    decreases |steps|
  {
    if steps == [] {
    } else {
      var front, last := steps[..|steps| - 1], steps[|steps| - 1];
      var n := Run(cfg, m, front);
      RunLast(cfg, m, steps);
      if r in n.inflight || exists p :: p in n.receipts && p.reservation == r {
        Provenance(cfg, m, front, r);
        ValidatedLonger(cfg, m, steps, r);
      } else {
        assert ValidatedAt(cfg, m, steps, |front|, r);
      }
    }
  }

  /** In every run each charge is at most the `max_fee_per_tx` stored for its sponsor at the moment
      its transaction was validated, when the sponsor was active and allowed the signer; the event
      reports exactly the credit routed, and all routed credit is accounted for by events. */
  lemma TermsFixedAtValidation(cfg: Config, m: Machine, steps: seq<Step>, p: Receipt)
    requires Genesis(m)
    requires p in Run(cfg, m, steps).receipts
    ensures ReceiptsTruthful(Run(cfg, m, steps)) && SoundReceipt(p)
    ensures exists k ::
              && 0 <= k < |steps|
              && ValidatedAt(cfg, m, steps, k, p.reservation)
              && var s := Run(cfg, m, steps[..k]).chain;
                 var a, tx := p.reservation.sponsor, steps[k].tx;
                 && tx.sponsor == a && tx.origin == Some(p.reservation.signer) && tx.tip == p.reservation.tip
                 && a in s.sponsors && s.sponsors[a].active
                 && p.reservation.signer in s.sponsors[a].policy.allowedCallers
                 && p.fee <= s.sponsors[a].policy.maxFeePerTx
                 && p.fee <= Acct(s, a).budget
  {
    RunKeepsReceipts(cfg, m, steps);
    Provenance(cfg, m, steps, p.reservation);
  }
}
