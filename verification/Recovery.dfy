/** When a sponsor gets its escrow back, and how much of it. */
module Recovery {
  import opened Types
  import opened Pallet
  import opened Machine
  import opened Conservation
  import opened EventLog
  import opened Interleaving
  import opened Spending
  import opened Discipline
  import opened Marks
  import opened Sequential
  import opened ReplayGuard
  import opened Limits

  function Leave(a: AccountId): Step { Do(DoCall(Some(a), Call.Unregister, false)) }

  lemma LeaveIff(cfg: Config, s: State, a: AccountId)
    requires Fits(cfg, s)
    ensures CallError(cfg, s, a, Call.Unregister, false).None? <==> a in s.sponsors && Acct(s, a).pending == 0
  {
    AccountFits(cfg, s, a);
  }

  /** In every overlap and under any refusals, a sponsor can unregister exactly if nothing reserved
      against it is outstanding. */
  lemma RecoverableIff(cfg: Config, m: Machine, steps: seq<Step>, a: AccountId)
    requires Fits(cfg, m.chain)
    ensures var s := Run(cfg, m, steps).chain;
            CallError(cfg, s, a, Call.Unregister, false).None? <==>
            a in s.sponsors && Outstanding(cfg, m, steps, a) == 0
  {
    WealthConserved(cfg, m, steps);
    LeaveIff(cfg, Run(cfg, m, steps).chain, a);
    PendingIsOutstanding(cfg, m, steps, a);
  }

  /** Unregistering leaves no sponsorship hold, and returns exactly what was escrowed and neither
      charged, taken back nor left spendable before; that is what the log says is held if and only if
      every leak was followed by an unregistration. */
  lemma EscrowReturned(cfg: Config, m: Machine, steps: seq<Step>, a: AccountId)
    requires Genesis(m) && Fits(cfg, m.chain)
    requires CallError(cfg, Run(cfg, m, steps).chain, a, Call.Unregister, false).None?
    ensures var n := Run(cfg, m, steps);
            var t := After(cfg, n, Leave(a));
            var back := Acct(t.chain, a).free - Acct(n.chain, a).free;
            var v := Replay(n.chain.log, a);
            && a !in t.chain.sponsors && Acct(t.chain, a).budget == 0 && Acct(t.chain, a).pending == 0
            && back == EscrowedIn(n.chain.log, a) - FeesOf(n.receipts, a) - BookOf(n, a).released - BookOf(n, a).leaked
            && v.Some? && (back == v.value.held <==> LeaksCleared(cfg, m, steps, a))
  {
    UnregisterOrphansNothing(cfg, Run(cfg, m, steps), a, false);
    SpendingBounded(cfg, m, steps, a);
    EventReplay(cfg, m, steps, a);
  }

  /** After every sequential run, under any refusals, a sponsor can unregister exactly if each of its
      transactions that was refused the release of a remainder is followed by one that was not. */
  lemma SequentialRecoverableIff(cfg: Config, m: Machine, items: seq<Item>, a: AccountId)
    requires Genesis(m) && Fits(cfg, m.chain)
    ensures var s := ExecAll(cfg, m, items).chain;
            CallError(cfg, s, a, Call.Unregister, false).None? <==>
            a in s.sponsors && Cleared(PendingMarks(cfg, m, items, a))
  {
    SequentialIsInterleaving(cfg, m, items);
    WealthConserved(cfg, m, AllSteps(cfg, m, items));
    LeaveIff(cfg, ExecAll(cfg, m, items).chain, a);
    QuiescentIff(cfg, m, items, a);
    assert Acct(m.chain, a).pending == 0;
  }

  /** So as long as releases are granted, escrow can always be recovered between transactions. */
  lemma AlwaysRecoverable(cfg: Config, m: Machine, items: seq<Item>, a: AccountId)
    requires Genesis(m) && Fits(cfg, m.chain)
    requires forall it <- items :: Releasable(it)
    requires a in ExecAll(cfg, m, items).chain.sponsors
    ensures var k := ExecAll(cfg, m, items);
            var t := After(cfg, k, Leave(a));
            && CallError(cfg, k.chain, a, Call.Unregister, false).None?
            && Acct(t.chain, a).budget == 0 && Acct(t.chain, a).pending == 0
            && Acct(t.chain, a).free - Acct(k.chain, a).free ==
               EscrowedIn(k.chain.log, a) - FeesOf(k.receipts, a) - BookOf(k, a).released - BookOf(k, a).leaked
  {
    Quiescence(cfg, m, items);
    SequentialIsInterleaving(cfg, m, items);
    WealthConserved(cfg, m, AllSteps(cfg, m, items));
    LeaveIff(cfg, ExecAll(cfg, m, items).chain, a);
    EscrowReturned(cfg, m, AllSteps(cfg, m, items), a);
  }
}
