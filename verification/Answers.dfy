/** What every call and every validation answers, and what the log says of it, told by the history of
    accepted calls and by what an observer of the log can rebuild. */
module Answers {
  import opened Types
  import opened Pallet
  import opened Extension
  import opened Machine
  import opened EventLog
  import opened Safety
  import opened Interleaving
  import opened Spending

  // ----------------------------------------------------- the record of a sponsor

  /** The last call of `a` of a given kind that was accepted in the course of the run. */
  function LastCall(cfg: Config, m: Machine, steps: seq<Step>, a: AccountId, kind: Call -> bool): Option<Call>
    decreases |steps|
  {
    if steps == [] then None
    else
      var front, last := steps[..|steps| - 1], steps[|steps| - 1];
      if Accepted(cfg, Run(cfg, m, front).chain, last, a) && kind(last.b.call) then Some(last.b.call)
      else LastCall(cfg, m, front, a, kind)
  }

  predicate Enrols(call: Call) { call.RegisterSponsor? || call.Unregister? }

  predicate SetsPolicy(call: Call) { call.RegisterSponsor? || call.SetPolicy? }

  predicate SetsFlag(call: Call) { call.RegisterSponsor? || call.Pause? || call.Resume? }

  lemma StepRecord(cfg: Config, m: Machine, st: Step, a: AccountId)
    ensures SponsorOf(After(cfg, m, st).chain, a) ==
            if Accepted(cfg, m.chain, st, a) then CallRecord(SponsorOf(m.chain, a), st.b.call)
            else SponsorOf(m.chain, a)
  {
    match st
    case Do(DoMove(mv)) => OutsideFrame(cfg, m.chain, mv, a);
    case Do(DoCall(origin, call, refused)) =>
      if origin.Some? && CallError(cfg, m.chain, origin.value, call, refused).None? {
        CallIsLocal(cfg, m, origin.value, call, refused, a);
        assert CellOf(After(cfg, m, st), a).record == SponsorOf(After(cfg, m, st).chain, a);
      }
    case Prepare(tx, no) =>
    case Settle(i, actual, no) =>
  }

  /** After every run from genesis: an account is a sponsor if its last accepted registration or
      unregistration was a registration; its policy is the one its last accepted registration or
      policy change gave; it is active unless its last registration, pause or resume was a pause. */
  lemma {:induction false} RecordIsHistory(cfg: Config, m: Machine, steps: seq<Step>, a: AccountId)
    requires Genesis(m)
    ensures var s := Run(cfg, m, steps).chain;
            var enrol := LastCall(cfg, m, steps, a, Enrols);
            var policy := LastCall(cfg, m, steps, a, SetsPolicy);
            var flag := LastCall(cfg, m, steps, a, SetsFlag);
            && (a in s.sponsors <==> enrol.Some? && enrol.value.RegisterSponsor?)
            && (a in s.sponsors ==>
                  && policy.Some? && SetsPolicy(policy.value) && s.sponsors[a].policy == policy.value.policy
                  && flag.Some? && s.sponsors[a].active == !flag.value.Pause?)
    decreases |steps|
  {
    if steps == [] {
    } else {
      var front, last := steps[..|steps| - 1], steps[|steps| - 1];
      var n := Run(cfg, m, front);
      RecordIsHistory(cfg, m, front, a);
      RunLast(cfg, m, steps);
      StepRecord(cfg, n, last, a);
      if Accepted(cfg, n.chain, last, a) { RecordSurvives(cfg, n.chain, a, last.b.call, last.b.refused); }
      assert SponsorOf(Run(cfg, m, steps).chain, a).Some? <==> a in Run(cfg, m, steps).chain.sponsors;
    }
  }

  // -------------------------------------------------------- what the calls answer

  predicate Usable(callers: seq<AccountId>) { callers != [] && |Elements(callers)| == |callers| }

  lemma {:induction false} ElementsAtMost(s: seq<AccountId>)
    ensures |Elements(s)| <= |s|
  {
    if s == [] {
      assert Elements(s) == {};
    } else {
      var front, last := s[..|s| - 1], s[|s| - 1];
      ElementsAtMost(front);
      assert s == front + [last];
      assert Elements(s) == Elements(front) + {last};
    }
  }

  /** A list is free of duplicates exactly if it is as long as the set of its elements. */
  lemma DistinctIffSet(s: seq<AccountId>)
    ensures |Elements(s)| <= |s| && (Distinct(s) <==> |Elements(s)| == |s|)
  {
    ElementsAtMost(s);
    if Distinct(s) {
      DistinctIsSet(s);
    } else {
      var i, j :| 0 <= i < j < |s| && s[i] == s[j];
      var rest := s[..j] + s[j + 1..];
      ElementsAtMost(rest);
      assert rest[i] == s[j];
      assert Elements(s) <= Elements(rest) by {
        forall c | c in s
          ensures c in rest
        {
          var k :| 0 <= k < |s| && s[k] == c;
          if k < j { assert rest[k] == c; } else if k > j { assert rest[k - 1] == c; }
        }
      }
      Subset(Elements(s), Elements(rest));
    }
  }

  lemma Subset(s: set<AccountId>, t: set<AccountId>)
    requires s <= t
    ensures |s| <= |t|
  {
    assert t == s + (t - s);
  }

  /** The ledger can hold `n` more of the free balance, leaving the existential deposit. */
  predicate Holds(cfg: Config, x: Account, n: nat, refused: bool) {
    !refused && x.free >= cfg.ed + n && x.budget + n <= cfg.maxBalance
  }

  /** The ledger can free `n` more. */
  predicate Frees(cfg: Config, x: Account, n: nat, refused: bool) {
    !refused && x.free + n <= cfg.maxBalance
  }

  /** What an observer of the log knows of `a` after a run. */
  lemma Observed(cfg: Config, m: Machine, steps: seq<Step>, a: AccountId)
    requires Genesis(m)
    ensures var s := Run(cfg, m, steps).chain;
            var v := Replay(s.log, a);
            && (v.Some? <==> a in s.sponsors)
            && (v.Some? ==> v.value.active == s.sponsors[a].active)
            && (v.None? ==> Acct(s, a).budget == 0 && Acct(s, a).pending == 0)
  {
    ReplayUpToStray(cfg, m, steps, a);
    EscrowHasOwner(cfg, m, steps, a);
  }

  lemma RegisterAnswers(cfg: Config, m: Machine, steps: seq<Step>, a: AccountId, n: nat, policy: Policy, refused: bool)
    requires Genesis(m)
    ensures var s := Run(cfg, m, steps).chain;
            var callers, known := policy.allowedCallers, Replay(s.log, a).Some?;
            var e := CallError(cfg, s, a, Call.RegisterSponsor(n, policy), refused);
            && (e == Some(ZeroBudget) <==> n == 0)
            && (e == Some(AlreadyRegistered) <==> n > 0 && known)
            && (e == Some(EmptyAllowlist) <==> n > 0 && !known && callers == [])
            && (e == Some(DuplicateAllowedCaller) <==> n > 0 && !known && |Elements(callers)| < |callers|)
            && (e == Some(LedgerRefused) <==> n > 0 && !known && Usable(callers) && !Holds(cfg, Acct(s, a), n, refused))
            && (e.None? <==> n > 0 && !known && Usable(callers) && Holds(cfg, Acct(s, a), n, refused))
  {
    Observed(cfg, m, steps, a);
    DistinctIffSet(policy.allowedCallers);
  }

  lemma IncreaseAnswers(cfg: Config, m: Machine, steps: seq<Step>, a: AccountId, n: nat, refused: bool)
    requires Genesis(m)
    ensures var s := Run(cfg, m, steps).chain;
            var known := Replay(s.log, a).Some?;
            var e := CallError(cfg, s, a, Call.IncreaseBudget(n), refused);
            && (e == Some(ZeroBudget) <==> n == 0)
            && (e == Some(NotRegistered) <==> n > 0 && !known)
            && (e == Some(LedgerRefused) <==> n > 0 && known && !Holds(cfg, Acct(s, a), n, refused))
            && (e.None? <==> n > 0 && known && Holds(cfg, Acct(s, a), n, refused))
  {
    Observed(cfg, m, steps, a);
  }

  lemma DecreaseAnswers(cfg: Config, m: Machine, steps: seq<Step>, a: AccountId, n: nat, refused: bool)
    requires Genesis(m)
    ensures var s := Run(cfg, m, steps).chain;
            var known := Replay(s.log, a).Some?;
            var e := CallError(cfg, s, a, Call.DecreaseBudget(n), refused);
            && (e == Some(ZeroBudget) <==> n == 0)
            && (e == Some(NotRegistered) <==> n > 0 && !known)
            && (e == Some(InsufficientAvailableBudget) <==> known && n > Acct(s, a).budget)
            && (e == Some(LedgerRefused) <==> 0 < n <= Acct(s, a).budget && !Frees(cfg, Acct(s, a), n, refused))
            && (e.None? <==> 0 < n <= Acct(s, a).budget && Frees(cfg, Acct(s, a), n, refused))
  {
    Observed(cfg, m, steps, a);
  }

  lemma SetPolicyAnswers(cfg: Config, m: Machine, steps: seq<Step>, a: AccountId, policy: Policy, refused: bool)
    requires Genesis(m)
    ensures var s := Run(cfg, m, steps).chain;
            var callers, known := policy.allowedCallers, Replay(s.log, a).Some?;
            var e := CallError(cfg, s, a, Call.SetPolicy(policy), refused);
            && (e == Some(EmptyAllowlist) <==> callers == [])
            && (e == Some(DuplicateAllowedCaller) <==> |Elements(callers)| < |callers|)
            && (e == Some(NotRegistered) <==> Usable(callers) && !known)
            && (e.None? <==> Usable(callers) && known)
  {
    Observed(cfg, m, steps, a);
    DistinctIffSet(policy.allowedCallers);
  }

  /** Pause and resume: the observer of the log knows the answer. */
  lemma FlagAnswers(cfg: Config, m: Machine, steps: seq<Step>, a: AccountId, refused: bool)
    requires Genesis(m)
    ensures var s := Run(cfg, m, steps).chain;
            var v := Replay(s.log, a);
            var p, r := CallError(cfg, s, a, Call.Pause, refused), CallError(cfg, s, a, Call.Resume, refused);
            && (p == Some(NotRegistered) <==> v.None?) && (r == Some(NotRegistered) <==> v.None?)
            && (p == Some(AlreadyPaused) <==> v.Some? && !v.value.active)
            && (r == Some(AlreadyActive) <==> v.Some? && v.value.active)
            && (p.None? <==> v.Some? && v.value.active)
            && (r.None? <==> v.Some? && !v.value.active)
  {
    Observed(cfg, m, steps, a);
  }

  lemma UnregisterAnswers(cfg: Config, m: Machine, steps: seq<Step>, a: AccountId, refused: bool)
    requires Genesis(m)
    ensures var s := Run(cfg, m, steps).chain;
            var x, known := Acct(s, a), Replay(s.log, a).Some?;
            var e := CallError(cfg, s, a, Call.Unregister, refused);
            && (e == Some(NotRegistered) <==> !known)
            && (e == Some(PendingBudgetNotEmpty) <==> x.pending > 0)
            && (e == Some(LedgerRefused) <==> x.pending == 0 && x.budget > 0 && !Frees(cfg, x, x.budget, refused))
            && (e.None? <==> known && x.pending == 0 && (x.budget == 0 || Frees(cfg, x, x.budget, refused)))
  {
    Observed(cfg, m, steps, a);
  }

  /** What `call` moves from the free balance to the budget, or back if negative. */
  function Escrows(x: Account, call: Call): int {
    match call
    case RegisterSponsor(n, _) => n as int
    case IncreaseBudget(n) => n as int
    case DecreaseBudget(n) => -(n as int)
    case Unregister => -(x.budget as int)
    case _ => 0
  }

  /** A dispatch answers what the call does, and an unsigned one is refused; it changes balances only if
      it is accepted, only of its caller, and only between free balance and budget, by what the call
      asks for. */
  lemma DispatchMoves(cfg: Config, m: Machine, who: AccountId, call: Call, refused: bool, a: AccountId)
    ensures var s, t := m.chain, After(cfg, m, Do(DoCall(Some(who), call, refused))).chain;
            var x, y := Acct(s, a), Acct(t, a);
            var n := if a == who && CallError(cfg, s, who, call, refused).None? then Escrows(x, call) else 0;
            && y.free == x.free - n && y.budget == x.budget + n && y.pending == x.pending && y.other == x.other
            && t.credit == s.credit && t.elsewhere == s.elsewhere
            && (CallError(cfg, s, who, call, refused).Some? ==> t == s)
    ensures Dispatch(cfg, m.chain, Some(who), call, refused).1 == CallError(cfg, m.chain, who, call, refused)
    ensures Dispatch(cfg, m.chain, None, call, refused) == (m.chain, Some(BadOrigin))
  {
    if CallError(cfg, m.chain, who, call, refused).None? {
      AcceptedCall(cfg, m, who, call, refused);
      EffectIsLocal(m.chain, who, call, a);
    }
  }

  // ------------------------------------------------------ what validation answers

  lemma TermsAnswers(cfg: Config, s: State, tx: Tx)
    requires tx.origin.Some? && tx.sponsor in s.sponsors && s.sponsors[tx.sponsor].active
    ensures var fee := Min(cfg.maxBalance, (if tx.info.paysFee then cfg.inclusion(tx.len, tx.info.weight) else 0) + tx.tip);
            var signer, policy := tx.origin.value, s.sponsors[tx.sponsor].policy;
            var allowed, r := signer in Elements(policy.allowedCallers), Validate(cfg, s, tx);
            && (r == Err(CallerNotAllowed) <==> !allowed)
            && (r == Err(FeeCapExceeded) <==> allowed && fee > policy.maxFeePerTx)
            && (r == Err(InsufficientBudget) <==>
                allowed && fee <= policy.maxFeePerTx && Acct(s, tx.sponsor).budget < fee)
            && (r == Ok(Reservation(tx.sponsor, signer, fee, tx.tip, policy.maxFeePerTx)) <==>
                allowed && fee <= policy.maxFeePerTx && fee <= Acct(s, tx.sponsor).budget)
  {
  }

  /** After every run from genesis, told by the log, the last policy set and the ledger: which answer
      `validate` gives, and for whom, how much and with which tip it reserves. */
  lemma ValidateAnswers(cfg: Config, m: Machine, steps: seq<Step>, tx: Tx)
    requires Genesis(m)
    ensures var s := Run(cfg, m, steps).chain;
            var v := Replay(s.log, tx.sponsor);
            var last := LastCall(cfg, m, steps, tx.sponsor, SetsPolicy);
            var fee := Min(cfg.maxBalance, (if tx.info.paysFee then cfg.inclusion(tx.len, tx.info.weight) else 0) + tx.tip);
            var r := Validate(cfg, s, tx);
            && (r == Err(UnsupportedOrigin) <==> tx.origin.None?)
            && (r == Err(UnknownSponsor) <==> tx.origin.Some? && v.None?)
            && (r == Err(InactiveSponsor) <==> tx.origin.Some? && v.Some? && !v.value.active)
            && (tx.origin.Some? && v.Some? && v.value.active ==>
                  && last.Some? && SetsPolicy(last.value)
                  && var signer, policy := tx.origin.value, last.value.policy;
                     var allowed := signer in Elements(policy.allowedCallers);
                  && (r == Err(CallerNotAllowed) <==> !allowed)
                  && (r == Err(FeeCapExceeded) <==> allowed && fee > policy.maxFeePerTx)
                  && (r == Err(InsufficientBudget) <==>
                      allowed && fee <= policy.maxFeePerTx && Acct(s, tx.sponsor).budget < fee)
                  && (r == Ok(Reservation(tx.sponsor, signer, fee, tx.tip, policy.maxFeePerTx)) <==>
                      allowed && fee <= policy.maxFeePerTx && fee <= Acct(s, tx.sponsor).budget))
  {
    var s := Run(cfg, m, steps).chain;
    ReplayUpToStray(cfg, m, steps, tx.sponsor);
    RecordIsHistory(cfg, m, steps, tx.sponsor);
    if tx.origin.Some? && tx.sponsor in s.sponsors && s.sponsors[tx.sponsor].active { TermsAnswers(cfg, s, tx); }
  }

  // -------------------------------------------------------------- what is charged

  lemma {:induction false} PaidEventAt(receipts: seq<Receipt>, j: nat)
    requires j < |receipts|
    ensures |EventsOf(receipts)| == |receipts| && EventsOf(receipts)[j] == PaidEvent(receipts[j])
  {
    var front := receipts[..|receipts| - 1];
    if j == |front| {
      EventsLength(front);
    } else {
      PaidEventAt(front, j);
    }
  }

  lemma {:induction false} EventsLength(receipts: seq<Receipt>)
    ensures |EventsOf(receipts)| == |receipts|
  {
    if receipts == [] {
    } else {
      EventsLength(receipts[..|receipts| - 1]);
    }
  }

  /** The terms of transaction `tx`, validated after `before`, and the event that charges `fee` for it. */
  predicate AgreedTerms(cfg: Config, m: Machine, before: seq<Step>, tx: Tx, fee: nat, e: Event) {
    var last := LastCall(cfg, m, before, tx.sponsor, SetsPolicy);
    && tx.origin.Some? && last.Some? && SetsPolicy(last.value)
    && tx.origin.value in last.value.policy.allowedCallers
    && fee <= last.value.policy.maxFeePerTx
    && e == SponsoredTransactionFeePaid(tx.sponsor, tx.origin.value, fee, Min(tx.tip, fee))
  }

  /** Every settlement of a run, in any overlap, answers to one of its transactions: the event names
      that transaction's sponsor and signer, the fee charged and as much of the tip as it covers, and
      the fee is within the cap of the last policy its sponsor had set, which allowed the signer. */
  lemma ChargedAsAgreed(cfg: Config, m: Machine, steps: seq<Step>, j: nat)
    requires Genesis(m) && j < |Run(cfg, m, steps).receipts|
    ensures var n := Run(cfg, m, steps);
            && |PaidEvents(n.chain.log)| == |n.receipts|
            && exists k ::
                 && 0 <= k < |steps| && ValidatedAt(cfg, m, steps, k, n.receipts[j].reservation)
                 && AgreedTerms(cfg, m, steps[..k], steps[k].tx, n.receipts[j].fee, PaidEvents(n.chain.log)[j])
  {
    var n := Run(cfg, m, steps);
    var p := n.receipts[j];
    RunKeepsReceipts(cfg, m, steps);
    PaidEventAt(n.receipts, j);
    Provenance(cfg, m, steps, p.reservation);
    var k :| 0 <= k < |steps| && ValidatedAt(cfg, m, steps, k, p.reservation);
    RecordIsHistory(cfg, m, steps[..k], steps[k].tx.sponsor);
    assert SoundReceipt(p);
    assert AgreedTerms(cfg, m, steps[..k], steps[k].tx, p.fee, PaidEvents(n.chain.log)[j]);
  }

  // ------------------------------------------------------------ what the log says

  datatype Made = Made(who: AccountId, call: Call)

  function MadeBy(cfg: Config, s: State, st: Step): seq<Made> {
    if st.Do? && st.b.DoCall? && st.b.origin.Some? && Accepted(cfg, s, st, st.b.origin.value)
    then [Made(st.b.origin.value, st.b.call)] else []
  }

  /** The calls a run accepts, in order. */
  function AcceptedCalls(cfg: Config, m: Machine, steps: seq<Step>): seq<Made>
    decreases |steps|
  {
    if steps == [] then []
    else
      MadeBy(cfg, m.chain, steps[0]) + AcceptedCalls(cfg, After(cfg, m, steps[0]), steps[1..])
  }

  function CallEvents(log: seq<Event>): seq<Event> {
    if log == [] then []
    else
      var e := log[|log| - 1];
      CallEvents(log[..|log| - 1]) + (if e.SponsoredTransactionFeePaid? then [] else [e])
  }

  /** The event says who made which call, with which amount. */
  predicate Reports(e: Event, c: Made) {
    e.sponsor == c.who &&
    match c.call
    case RegisterSponsor(n, _) => e.SponsorRegistered? && e.initialBudget == n
    case IncreaseBudget(n) => e.BudgetIncreased? && e.amount == n
    case DecreaseBudget(n) => e.BudgetDecreased? && e.amount == n
    case SetPolicy(_) => e.SponsorPolicyUpdated?
    case Pause => e.SponsorPaused?
    case Resume => e.SponsorResumed?
    case Unregister => e.SponsorUnregistered?
  }

  predicate AllReported(es: seq<Event>, cs: seq<Made>) {
    |es| == |cs| && forall i :: 0 <= i < |es| ==> Reports(es[i], cs[i])
  }

  lemma CallEventsAppend(log: seq<Event>, e: Event)
    ensures CallEvents(log + [e]) == CallEvents(log) + (if e.SponsoredTransactionFeePaid? then [] else [e])
  {
    assert (log + [e])[..|log|] == log;
  }

  lemma CallReports(cfg: Config, m: Machine, who: AccountId, call: Call, refused: bool)
    requires CallError(cfg, m.chain, who, call, refused).None?
    ensures var n := AfterBasic(cfg, m, DoCall(Some(who), call, refused));
            exists e :: Reports(e, Made(who, call)) && CallEvents(n.chain.log) == CallEvents(m.chain.log) + [e]
  {
    var n := AfterBasic(cfg, m, DoCall(Some(who), call, refused));
    var e := CallEvent(who, call, Acct(n.chain, who).budget);
    CallLogs(cfg, m, who, call, refused);
    CallEventsAppend(m.chain.log, e);
    assert Reports(e, Made(who, call));
  }

  /** One step adds an event for the call it makes, if that is accepted, and none otherwise. */
  lemma StepReports(cfg: Config, m: Machine, st: Step)
    ensures var before, after := CallEvents(m.chain.log), CallEvents(After(cfg, m, st).chain.log);
            before <= after && AllReported(after[|before|..], MadeBy(cfg, m.chain, st))
  {
    match st
    case Do(DoMove(mv)) => OutsideFrame(cfg, m.chain, mv, 0);
    case Do(DoCall(origin, call, refused)) =>
      if origin.Some? && CallError(cfg, m.chain, origin.value, call, refused).None? {
        CallReports(cfg, m, origin.value, call, refused);
      }
    case Prepare(tx, no) =>
    case Settle(i, actual, no) =>
      if i < |m.inflight| {
        var r := m.inflight[i];
        CallEventsAppend(m.chain.log, PaidEvent(SettleReceipt(cfg, Acct(m.chain, r.sponsor), r, actual, no)));
      }
  }

  lemma ReportsJoin(x: seq<Event>, y: seq<Event>, z: seq<Event>, cs: seq<Made>, ds: seq<Made>)
    requires x <= y <= z && AllReported(y[|x|..], cs) && AllReported(z[|y|..], ds)
    ensures x <= z && AllReported(z[|x|..], cs + ds)
  {
    assert z[|x|..] == y[|x|..] + z[|y|..];
  }

  lemma {:induction false} RunReports(cfg: Config, m: Machine, steps: seq<Step>)
    ensures var before, after := CallEvents(m.chain.log), CallEvents(Run(cfg, m, steps).chain.log);
            before <= after && AllReported(after[|before|..], AcceptedCalls(cfg, m, steps))
    decreases |steps|
  {
    if steps == [] {
    } else {
      var n := After(cfg, m, steps[0]);
      StepReports(cfg, m, steps[0]);
      RunReports(cfg, n, steps[1..]);
      ReportsJoin(CallEvents(m.chain.log), CallEvents(n.chain.log), CallEvents(Run(cfg, m, steps).chain.log),
                  MadeBy(cfg, m.chain, steps[0]), AcceptedCalls(cfg, n, steps[1..]));
    }
  }

  /** Over every run from genesis the log reports exactly the accepted calls, in order, each with its
      caller and its amount. */
  lemma LogReportsCalls(cfg: Config, m: Machine, steps: seq<Step>)
    requires Genesis(m)
    ensures AllReported(CallEvents(Run(cfg, m, steps).chain.log), AcceptedCalls(cfg, m, steps))
  {
    RunReports(cfg, m, steps);
    var es := CallEvents(Run(cfg, m, steps).chain.log);
    assert es[0..] == es;
  }
}
