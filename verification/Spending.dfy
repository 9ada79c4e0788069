/** How much, how often and how long a sponsor can be charged, over any run. */
module Spending {
  import opened Types
  import opened Pallet
  import opened Extension
  import opened Machine
  import opened Safety
  import opened Interleaving

  // ---------------------------------------------------------------- the amount

  function EscrowIn(e: Event, a: AccountId): nat {
    if e.sponsor != a then 0
    else
      match e
      case SponsorRegistered(_, n) => n
      case BudgetIncreased(_, n, _) => n
      case _ => 0
  }

  function DecreaseIn(e: Event, a: AccountId): nat {
    if e.sponsor == a && e.BudgetDecreased? then e.amount else 0
  }

  /** What the log says `a` ever put in escrow. */
  function EscrowedIn(log: seq<Event>, a: AccountId): nat {
    if log == [] then 0 else EscrowedIn(log[..|log| - 1], a) + EscrowIn(log[|log| - 1], a)
  }

  /** What the log says `a` ever took back through `decrease_budget`. */
  function DecreasedIn(log: seq<Event>, a: AccountId): nat {
    if log == [] then 0 else DecreasedIn(log[..|log| - 1], a) + DecreaseIn(log[|log| - 1], a)
  }

  /** The history counters agree with the log and with the receipts. */
  predicate BookFromLog(m: Machine, a: AccountId) {
    && BookOf(m, a).escrowed == EscrowedIn(m.chain.log, a)
    && BookOf(m, a).released >= DecreasedIn(m.chain.log, a)
    && BookOf(m, a).charged == FeesOf(m.receipts, a)
  }

  lemma AppendLog(log: seq<Event>, e: Event, a: AccountId)
    ensures EscrowedIn(log + [e], a) == EscrowedIn(log, a) + EscrowIn(e, a)
    ensures DecreasedIn(log + [e], a) == DecreasedIn(log, a) + DecreaseIn(e, a)
  {
    assert (log + [e])[..|log|] == log;
  }

  /** The counters of the caller move with the event the call logs. */
  lemma CallBookFollowsEvent(b: Book, call: Call, budget: nat, who: AccountId, newBudget: nat)
    ensures var c := CallBook(b, call, budget);
            var e := CallEvent(who, call, newBudget);
            && c.escrowed == b.escrowed + EscrowIn(e, who)
            && c.released >= b.released + DecreaseIn(e, who)
            && c.charged == b.charged
  {
  }

  lemma CallKeepsBook(cfg: Config, m: Machine, who: AccountId, call: Call, refused: bool, a: AccountId)
    requires CallError(cfg, m.chain, who, call, refused).None?
    requires BookFromLog(m, a)
    ensures BookFromLog(AfterBasic(cfg, m, DoCall(Some(who), call, refused)), a)
  {
    var n := AfterBasic(cfg, m, DoCall(Some(who), call, refused));
    CallLogs(cfg, m, who, call, refused);
    CallIsLocal(cfg, m, who, call, refused, a);
    var newBudget := Acct(n.chain, who).budget;
    AppendLog(m.chain.log, CallEvent(who, call, newBudget), a);
    CallBookFollowsEvent(BookOf(m, a), call, Acct(m.chain, a).budget, who, newBudget);
    assert CellOf(n, a).book == BookOf(n, a);
    assert n.receipts == m.receipts;
  }

  lemma SettleKeepsBook(cfg: Config, m: Machine, i: nat, actual: nat, no: Refusals, a: AccountId)
    requires i < |m.inflight|
    requires BookFromLog(m, a)
    ensures BookFromLog(AfterSettlement(cfg, m, i, actual, no), a)
  {
    var r := m.inflight[i];
    var receipt := SettleReceipt(cfg, Acct(m.chain, r.sponsor), r, actual, no);
    AppendLog(m.chain.log, PaidEvent(receipt), a);
    AppendReceipt(m.receipts, receipt, a);
    SettleIsLocal(cfg, m, i, actual, no, a);
    var n := AfterSettlement(cfg, m, i, actual, no);
    assert BookOf(n, a) == CellOf(n, a).book;
    assert n.chain.log == m.chain.log + [PaidEvent(receipt)] && n.receipts == m.receipts + [receipt];
  }

  lemma StepKeepsBook(cfg: Config, m: Machine, st: Step, a: AccountId)
    requires BookFromLog(m, a)
    ensures BookFromLog(After(cfg, m, st), a)
  {
    match st
    case Do(DoMove(mv)) => OutsideFrame(cfg, m.chain, mv, a);
    case Do(DoCall(origin, call, refused)) =>
      if origin.Some? && CallError(cfg, m.chain, origin.value, call, refused).None? {
        CallKeepsBook(cfg, m, origin.value, call, refused, a);
      }
    case Prepare(tx, no) =>
      if Validate(cfg, m.chain, tx).Ok? { PrepareIsLocal(cfg, m, tx, no, a); }
    case Settle(i, actual, no) =>
      if i < |m.inflight| { SettleKeepsBook(cfg, m, i, actual, no, a); }
  }

  lemma {:induction false} RunKeepsBook(cfg: Config, m: Machine, steps: seq<Step>, a: AccountId)
    requires BookFromLog(m, a)
    ensures BookFromLog(Run(cfg, m, steps), a)
    decreases |steps|
  {
    if steps == [] {
    } else {
      StepKeepsBook(cfg, m, steps[0], a);
      RunKeepsBook(cfg, After(cfg, m, steps[0]), steps[1..], a);
    }
  }

  /** Every unit escrowed is charged, taken back, left spendable by a refused hold, or still held;
      so the fees never exceed what was escrowed less what was taken back. */
  lemma SpendingBounded(cfg: Config, m: Machine, steps: seq<Step>, a: AccountId)
    requires Genesis(m)
    ensures var n := Run(cfg, m, steps);
            var b := BookOf(n, a);
            && EscrowedIn(n.chain.log, a) ==
               FeesOf(n.receipts, a) + b.released + b.leaked + Acct(n.chain, a).budget + Acct(n.chain, a).pending
            && FeesOf(n.receipts, a) <= EscrowedIn(n.chain.log, a) - b.released
            && FeesOf(n.receipts, a) <= EscrowedIn(n.chain.log, a) - DecreasedIn(n.chain.log, a)
  {
    ReachableIsGood(cfg, m, steps, a);
    RunKeepsBook(cfg, m, steps, a);
  }

  // ----------------------------------------------------------------- the count

  predicate IsTopUp(call: Call) { call.RegisterSponsor? || call.IncreaseBudget? }

  /** Step `st` is a call of `a` that the pallet accepts in state `s`. */
  predicate Accepted(cfg: Config, s: State, st: Step, a: AccountId) {
    st.Do? && st.b.DoCall? && st.b.origin == Some(a) && CallError(cfg, s, a, st.b.call, st.b.refused).None?
  }

  /** No top-up by `a` is accepted in the course of the run; attempts may be made. */
  predicate Untopped(cfg: Config, m: Machine, steps: seq<Step>, a: AccountId)
    decreases |steps|
  {
    steps == [] ||
    (!(Accepted(cfg, m.chain, steps[0], a) && IsTopUp(steps[0].b.call)) &&
     Untopped(cfg, After(cfg, m, steps[0]), steps[1..], a))
  }

  lemma StepSpends(cfg: Config, m: Machine, st: Step, a: AccountId)
    requires !(Accepted(cfg, m.chain, st, a) && IsTopUp(st.b.call))
    ensures var b, c := BookOf(m, a), BookOf(After(cfg, m, st), a);
            c.escrowed == b.escrowed && c.released >= b.released && c.leaked >= b.leaked
    ensures m.receipts <= After(cfg, m, st).receipts
  {
  }

  lemma {:induction false} RunSpends(cfg: Config, m: Machine, steps: seq<Step>, a: AccountId)
    requires Untopped(cfg, m, steps, a)
    ensures var b, c := BookOf(m, a), BookOf(Run(cfg, m, steps), a);
            c.escrowed == b.escrowed && c.released >= b.released && c.leaked >= b.leaked
    ensures m.receipts <= Run(cfg, m, steps).receipts
    decreases |steps|
  {
    if steps == [] {
    } else {
      StepSpends(cfg, m, steps[0], a);
      RunSpends(cfg, After(cfg, m, steps[0]), steps[1..], a);
    }
  }

  function Charges(receipts: seq<Receipt>, a: AccountId): seq<Receipt> {
    if receipts == [] then []
    else
      var r := receipts[|receipts| - 1];
      Charges(receipts[..|receipts| - 1], a) + (if r.reservation.sponsor == a then [r] else [])
  }

  lemma {:induction false} FeeFloor(receipts: seq<Receipt>, a: AccountId, floor: nat)
    requires forall r <- receipts :: r.reservation.sponsor == a ==> r.fee >= floor
    ensures FeesOf(receipts, a) >= floor * |Charges(receipts, a)|
  {
    if receipts == [] {
    } else {
      var front := receipts[..|receipts| - 1];
      FeeFloor(front, a, floor);
      assert floor * (|Charges(front, a)| + 1) == floor * |Charges(front, a)| + floor;
    }
  }

  lemma {:induction false} FeesSplit(s: seq<Receipt>, t: seq<Receipt>, a: AccountId)
    ensures FeesOf(s + t, a) == FeesOf(s, a) + FeesOf(t, a)
  {
    if t == [] {
      assert s + t == s;
    } else {
      var front, last := t[..|t| - 1], t[|t| - 1];
      assert s + t == (s + front) + [last] && t == front + [last];
      FeesSplit(s, front, a);
      AppendReceipt(s + front, last, a);
      AppendReceipt(front, last, a);
    }
  }

  /** Without accepted top-ups, what a run charges and what it leaves in escrow come out of the escrow. */
  lemma EscrowPays(cfg: Config, k: Machine, steps: seq<Step>, a: AccountId)
    requires Good(k, a) && BookFromLog(k, a)
    requires Untopped(cfg, k, steps, a)
    ensures var n := Run(cfg, k, steps);
            && k.receipts <= n.receipts
            && FeesOf(n.receipts[|k.receipts|..], a) + Acct(n.chain, a).budget + Acct(n.chain, a).pending
               <= Acct(k.chain, a).budget + Acct(k.chain, a).pending
  {
    var n := Run(cfg, k, steps);
    RunKeepsGood(cfg, k, steps, a);
    RunKeepsBook(cfg, k, steps, a);
    RunSpends(cfg, k, steps, a);
    assert n.receipts == k.receipts + n.receipts[|k.receipts|..];
    FeesSplit(k.receipts, n.receipts[|k.receipts|..], a);
    assert BooksBalance(CellOf(k, a)) && BooksBalance(CellOf(n, a));
  }

  /** Every charge of `a` from receipt `from` on is `floor` or more. */
  predicate ChargesAtLeast(receipts: seq<Receipt>, from: nat, a: AccountId, floor: nat) {
    forall i :: from <= i < |receipts| && receipts[i].reservation.sponsor == a ==> receipts[i].fee >= floor
  }

  /** Without accepted top-ups the escrow pays for at most escrow-over-floor settlements that cost `floor` or
      more, in any overlap of transactions; the escrow itself is the decreasing measure. */
  lemma SettlementsBounded(cfg: Config, m: Machine, before: seq<Step>, steps: seq<Step>, a: AccountId, floor: nat)
    requires Genesis(m)
    requires Untopped(cfg, Run(cfg, m, before), steps, a)
    requires ChargesAtLeast(Run(cfg, Run(cfg, m, before), steps).receipts,
                            |Run(cfg, m, before).receipts|, a, floor)
    ensures var k := Run(cfg, m, before);
            var n := Run(cfg, k, steps);
            && k.receipts <= n.receipts
            && floor * |Charges(n.receipts[|k.receipts|..], a)| + Acct(n.chain, a).budget + Acct(n.chain, a).pending
               <= Acct(k.chain, a).budget + Acct(k.chain, a).pending
  {
    var k := Run(cfg, m, before);
    ReachableIsGood(cfg, m, before, a);
    RunKeepsBook(cfg, m, before, a);
    EscrowPays(cfg, k, steps, a);
    var n := Run(cfg, k, steps);
    FloorOfTail(n.receipts, |k.receipts|, a, floor);
    FeeFloor(n.receipts[|k.receipts|..], a, floor);
  }

  lemma FloorOfTail(receipts: seq<Receipt>, from: nat, a: AccountId, floor: nat)
    requires from <= |receipts| && ChargesAtLeast(receipts, from, a, floor)
    ensures forall r <- receipts[from..] :: r.reservation.sponsor == a ==> r.fee >= floor
  {
    forall j | 0 <= j < |receipts[from..]|
      ensures receipts[from..][j].reservation.sponsor == a ==> receipts[from..][j].fee >= floor
    {
      assert receipts[from..][j] == receipts[from + j];
    }
  }

  // ----------------------------------------------------------------- the pause

  predicate Dormant(s: State, a: AccountId) {
    a in s.sponsors ==> !s.sponsors[a].active
  }

  predicate IsWake(call: Call) { call.RegisterSponsor? || call.Resume? }

  /** No resume or registration by `a` is accepted in the course of the run; attempts may be made. */
  predicate Unwoken(cfg: Config, m: Machine, steps: seq<Step>, a: AccountId)
    decreases |steps|
  {
    steps == [] ||
    (!(Accepted(cfg, m.chain, steps[0], a) && IsWake(steps[0].b.call)) &&
     Unwoken(cfg, After(cfg, m, steps[0]), steps[1..], a))
  }

  function InFlight(rs: seq<Reservation>, a: AccountId): seq<Reservation> {
    if rs == [] then []
    else
      var r := rs[|rs| - 1];
      InFlight(rs[..|rs| - 1], a) + (if r.sponsor == a then [r] else [])
  }

  function Settled(receipts: seq<Receipt>, a: AccountId): multiset<Reservation> {
    if receipts == [] then multiset{}
    else
      var r := receipts[|receipts| - 1].reservation;
      Settled(receipts[..|receipts| - 1], a) + (if r.sponsor == a then multiset{r} else multiset{})
  }

  /** The reservations ever made against `a`: still in flight, or settled. */
  function Tickets(m: Machine, a: AccountId): multiset<Reservation> {
    multiset(InFlight(m.inflight, a)) + Settled(m.receipts, a)
  }

  lemma {:induction false} InFlightSplit(s: seq<Reservation>, t: seq<Reservation>, a: AccountId)
    ensures InFlight(s + t, a) == InFlight(s, a) + InFlight(t, a)
  {
    if t == [] {
      assert s + t == s;
    } else {
      assert (s + t)[..|s + t| - 1] == s + t[..|t| - 1];
      InFlightSplit(s, t[..|t| - 1], a);
    }
  }

  lemma InFlightAppend(rs: seq<Reservation>, r: Reservation, a: AccountId)
    ensures multiset(InFlight(rs + [r], a)) ==
            multiset(InFlight(rs, a)) + (if r.sponsor == a then multiset{r} else multiset{})
  {
    assert (rs + [r])[..|rs|] == rs;
  }

  /** Taking out the reservation at `i` takes it out of its sponsor's list and no other. */
  lemma InFlightRemove(rs: seq<Reservation>, i: nat, a: AccountId)
    requires i < |rs|
    ensures var one := if rs[i].sponsor == a then [rs[i]] else [];
            && InFlight(rs, a) == InFlight(rs[..i], a) + one + InFlight(rs[i + 1..], a)
            && InFlight(rs[..i] + rs[i + 1..], a) == InFlight(rs[..i], a) + InFlight(rs[i + 1..], a)
  {
    assert rs == (rs[..i] + [rs[i]]) + rs[i + 1..];
    InFlightSplit(rs[..i] + [rs[i]], rs[i + 1..], a);
    InFlightSplit(rs[..i], [rs[i]], a);
    InFlightSplit(rs[..i], rs[i + 1..], a);
    assert [rs[i]][..0] == [];
    assert InFlight([rs[i]][..0], a) == [];
  }

  lemma SettleKeepsTickets(cfg: Config, m: Machine, i: nat, actual: nat, no: Refusals, a: AccountId)
    ensures Tickets(AfterSettlement(cfg, m, i, actual, no), a) == Tickets(m, a)
  {
    if i < |m.inflight| {
      var n := AfterSettlement(cfg, m, i, actual, no);
      InFlightRemove(m.inflight, i, a);
      assert n.receipts[..|n.receipts| - 1] == m.receipts;
    }
  }

  /** The reservation that step `st` makes against `a`, if it makes one. */
  function Issued(cfg: Config, m: Machine, st: Step, a: AccountId): multiset<Reservation> {
    if !st.Prepare? || Validate(cfg, m.chain, st.tx).Err? then multiset{}
    else
      var r := Validate(cfg, m.chain, st.tx).value;
      if r.sponsor == a && MoveOutcomeOf(cfg, Acct(m.chain, a), r.estimate, st.no).Moved? then multiset{r}
      else multiset{}
  }

  lemma PrepareIssues(cfg: Config, m: Machine, tx: Tx, no: Refusals, a: AccountId)
    ensures Tickets(AfterPrepare(cfg, m, tx, no), a) == Tickets(m, a) + Issued(cfg, m, Prepare(tx, no), a)
  {
    if Validate(cfg, m.chain, tx).Ok? {
      InFlightAppend(m.inflight, Validate(cfg, m.chain, tx).value, a);
    }
  }

  lemma BasicIssues(cfg: Config, m: Machine, b: Basic)
    ensures AfterBasic(cfg, m, b).inflight == m.inflight && AfterBasic(cfg, m, b).receipts == m.receipts
  {
  }

  lemma StepIssues(cfg: Config, m: Machine, st: Step, a: AccountId)
    ensures Tickets(After(cfg, m, st), a) == Tickets(m, a) + Issued(cfg, m, st, a)
  {
    match st
    case Do(b) => BasicIssues(cfg, m, b);
    case Prepare(tx, no) => PrepareIssues(cfg, m, tx, no, a);
    case Settle(i, actual, no) => SettleKeepsTickets(cfg, m, i, actual, no, a);
  }

  /** Every reservation a run makes against `a`, as often as it is made. */
  function IssuedBy(cfg: Config, m: Machine, steps: seq<Step>, a: AccountId): multiset<Reservation>
    decreases |steps|
  {
    if steps == [] then multiset{}
    else Issued(cfg, m, steps[0], a) + IssuedBy(cfg, After(cfg, m, steps[0]), steps[1..], a)
  }

  lemma {:induction false} RunIssues(cfg: Config, m: Machine, steps: seq<Step>, a: AccountId)
    ensures Tickets(Run(cfg, m, steps), a) == Tickets(m, a) + IssuedBy(cfg, m, steps, a)
    decreases |steps|
  {
    if steps == [] {
    } else {
      StepIssues(cfg, m, steps[0], a);
      RunIssues(cfg, After(cfg, m, steps[0]), steps[1..], a);
    }
  }

  /** Each successful reservation of a run settles at most once, and nothing else settles: what was
      settled and what is still in flight are together exactly what was reserved. */
  lemma SettledOnce(cfg: Config, m: Machine, steps: seq<Step>, a: AccountId)
    requires Genesis(m)
    ensures var n := Run(cfg, m, steps);
            && multiset(InFlight(n.inflight, a)) + Settled(n.receipts, a) == IssuedBy(cfg, m, steps, a)
            && Settled(n.receipts, a) <= IssuedBy(cfg, m, steps, a)
  {
    RunIssues(cfg, m, steps, a);
  }

  lemma BasicKeepsDormant(cfg: Config, m: Machine, b: Basic, a: AccountId)
    requires Dormant(m.chain, a) && !(Accepted(cfg, m.chain, Do(b), a) && IsWake(b.call))
    ensures Dormant(AfterBasic(cfg, m, b).chain, a)
  {
    match b
    case DoMove(mv) => OutsideFrame(cfg, m.chain, mv, a);
    case DoCall(origin, call, refused) =>
  }

  lemma StepKeepsDormant(cfg: Config, m: Machine, st: Step, a: AccountId)
    requires Dormant(m.chain, a) && !(Accepted(cfg, m.chain, st, a) && IsWake(st.b.call))
    ensures Dormant(After(cfg, m, st).chain, a)
    ensures Issued(cfg, m, st, a) == multiset{}
  {
    match st
    case Do(b) => BasicKeepsDormant(cfg, m, b, a);
    case Prepare(tx, no) =>
    case Settle(i, actual, no) =>
  }

  lemma {:induction false} RunKeepsDormant(cfg: Config, m: Machine, steps: seq<Step>, a: AccountId)
    requires Dormant(m.chain, a) && Unwoken(cfg, m, steps, a)
    ensures Dormant(Run(cfg, m, steps).chain, a)
    ensures IssuedBy(cfg, m, steps, a) == multiset{}
    decreases |steps|
  {
    if steps == [] {
    } else {
      StepKeepsDormant(cfg, m, steps[0], a);
      RunKeepsDormant(cfg, After(cfg, m, steps[0]), steps[1..], a);
    }
  }

  lemma PauseSleeps(cfg: Config, m: Machine, a: AccountId)
    requires CallError(cfg, m.chain, a, Call.Pause, false).None?
    ensures var k := After(cfg, m, Do(DoCall(Some(a), Call.Pause, false)));
            Dormant(k.chain, a) && k.inflight == m.inflight && k.receipts == m.receipts
  {
  }

  /** After a successful pause, until a resume or a new registration of `a` is accepted, nothing new is reserved
      against `a`, and every later charge settles a reservation that was already in flight. */
  lemma PauseIsEffective(cfg: Config, m: Machine, a: AccountId, steps: seq<Step>)
    requires CallError(cfg, m.chain, a, Call.Pause, false).None?
    requires Unwoken(cfg, After(cfg, m, Do(DoCall(Some(a), Call.Pause, false))), steps, a)
    ensures var n := Run(cfg, After(cfg, m, Do(DoCall(Some(a), Call.Pause, false))), steps);
            && Dormant(n.chain, a)
            && multiset(InFlight(n.inflight, a)) + Settled(n.receipts, a) ==
               multiset(InFlight(m.inflight, a)) + Settled(m.receipts, a)
            && multiset(InFlight(n.inflight, a)) <= multiset(InFlight(m.inflight, a))
            && Settled(n.receipts, a) - Settled(m.receipts, a) <= multiset(InFlight(m.inflight, a))
  {
    var k := After(cfg, m, Do(DoCall(Some(a), Call.Pause, false)));
    PauseSleeps(cfg, m, a);
    RunKeepsDormant(cfg, k, steps, a);
    RunIssues(cfg, k, steps, a);
    RunSettles(cfg, k, steps, a);
    var n := Run(cfg, k, steps);
    Exchange(multiset(InFlight(m.inflight, a)), Settled(m.receipts, a),
             multiset(InFlight(n.inflight, a)), Settled(n.receipts, a));
  }

  lemma Exchange(a: multiset<Reservation>, r: multiset<Reservation>,
                 b: multiset<Reservation>, s: multiset<Reservation>)
    requires b + s == a + r && r <= s
    ensures b <= a && s - r <= a
  {
    assert forall x :: (b + s)[x] == b[x] + s[x] && (a + r)[x] == a[x] + r[x];
  }

  lemma {:induction false} RunSettles(cfg: Config, m: Machine, steps: seq<Step>, a: AccountId)
    ensures Settled(m.receipts, a) <= Settled(Run(cfg, m, steps).receipts, a)
    decreases |steps|
  {
    if steps == [] {
    } else {
      var n := After(cfg, m, steps[0]);
      assert n.receipts == m.receipts || n.receipts[..|n.receipts| - 1] == m.receipts;
      RunSettles(cfg, n, steps[1..], a);
    }
  }
}
