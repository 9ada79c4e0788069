/** Transactions that touch different accounts do not see each other. */
module Isolation {
  import opened Types
  import opened Pallet
  import opened Extension
  import opened Machine
  import opened Safety
  import opened Sequential

  /** The events about `a`, in order. */
  function LogOf(log: seq<Event>, a: AccountId): seq<Event> {
    if log == [] then []
    else
      var e := log[|log| - 1];
      LogOf(log[..|log| - 1], a) + (if e.sponsor == a then [e] else [])
  }

  lemma LogAppend(log: seq<Event>, e: Event, a: AccountId)
    ensures LogOf(log + [e], a) == LogOf(log, a) + (if e.sponsor == a then [e] else [])
  {
    assert (log + [e])[..|log|] == log;
  }

  /** Balances, sponsor record and events of `a` are the same in both states. */
  predicate Same(s: State, t: State, a: AccountId) {
    Acct(s, a) == Acct(t, a) && SponsorOf(s, a) == SponsorOf(t, a) && LogOf(s.log, a) == LogOf(t.log, a)
  }

  ghost predicate Agree(s: State, t: State, f: set<AccountId>) {
    forall a :: a in f ==> Same(s, t, a)
  }

  /** `t` differs from `s` exactly as `v` differs from `u` in what left the accounts. */
  predicate SameOutflow(s: State, t: State, u: State, v: State) {
    t.credit - s.credit == v.credit - u.credit && t.elsewhere - s.elsewhere == v.elsewhere - u.elsewhere
  }

  function TouchedBy(b: Basic): set<AccountId> {
    match b
    case DoCall(origin, _, _) => if origin.Some? then {origin.value} else {}
    case DoMove(Transfer(from, to, _, _)) => {from, to}
    case DoMove(Withdraw(from, _, _)) => {from}
    case DoMove(OtherHold(who, _)) => {who}
    case DoMove(OtherRelease(who, _)) => {who}
  }

  function TouchedByAll(ds: seq<Basic>): set<AccountId> {
    if ds == [] then {} else TouchedBy(ds[0]) + TouchedByAll(ds[1..])
  }

  /** The accounts an item may read or write: its sponsor and whatever its dispatch touches. */
  function Footprint(it: Item): set<AccountId> {
    match it
    case Alone(b) => TouchedBy(b)
    case Sponsored(tx, _, dispatch, _, _, _) => {tx.sponsor} + TouchedByAll(dispatch)
  }

  // ------------------------------------------------------------ one basic step

  lemma CallOnAccount(cfg: Config, s: State, who: AccountId, call: Call, refused: bool, a: AccountId)
    ensures var t := Dispatch(cfg, s, Some(who), call, refused).0;
            && (a != who ==> Same(t, s, a))
            && t.credit == s.credit && t.elsewhere == s.elsewhere
  {
    EffectIsLocal(s, who, call, a);
    LogAppend(s.log, CallEvent(who, call, CallAccount(Acct(s, who), call).budget), a);
  }

  lemma ErrorSeesCaller(cfg: Config, s: State, t: State, who: AccountId, call: Call, refused: bool)
    requires Acct(s, who) == Acct(t, who) && SponsorOf(s, who) == SponsorOf(t, who)
    ensures CallError(cfg, s, who, call, refused) == CallError(cfg, t, who, call, refused)
  {
    assert who in s.sponsors <==> who in t.sponsors;
    assert who in s.sponsors ==> s.sponsors[who] == t.sponsors[who];
  }

  lemma EffectSeesCaller(s: State, t: State, who: AccountId, call: Call)
    requires Same(s, t, who)
    ensures Same(CallEffect(s, who, call), CallEffect(t, who, call), who)
  {
    EffectIsLocal(s, who, call, who);
    EffectIsLocal(t, who, call, who);
    var e := CallEvent(who, call, CallAccount(Acct(s, who), call).budget);
    LogAppend(s.log, e, who);
    LogAppend(t.log, e, who);
  }

  lemma CallSeesCaller(cfg: Config, s: State, t: State, who: AccountId, call: Call, refused: bool)
    requires Same(s, t, who)
    ensures Same(Dispatch(cfg, s, Some(who), call, refused).0, Dispatch(cfg, t, Some(who), call, refused).0, who)
  {
    ErrorSeesCaller(cfg, s, t, who, call, refused);
    EffectSeesCaller(s, t, who, call);
  }

  lemma MoveOnAccount(cfg: Config, s: State, mv: Move, a: AccountId)
    requires a !in TouchedBy(DoMove(mv))
    ensures Same(Outside(cfg, s, mv), s, a)
  {
    OutsideFrame(cfg, s, mv, a);
  }

  lemma TransferOnAccount(cfg: Config, s: State, from: AccountId, to: AccountId, amount: nat, keepAlive: bool, a: AccountId)
    requires CanTake(cfg, Acct(s, from), amount, keepAlive)
    ensures var t := Outside(cfg, s, Transfer(from, to, amount, keepAlive));
            var x := Acct(s, a);
            && t.elsewhere == s.elsewhere
            && Acct(t, a) == x.(free := x.free - (if a == from then amount else 0) + (if a == to then amount else 0))
  {
  }

  lemma MoveSeesAccount(cfg: Config, s: State, t: State, mv: Move, a: AccountId)
    requires forall b :: b in TouchedBy(DoMove(mv)) ==> Acct(s, b) == Acct(t, b)
    requires a in TouchedBy(DoMove(mv))
    ensures Acct(Outside(cfg, s, mv), a) == Acct(Outside(cfg, t, mv), a)
    ensures Outside(cfg, s, mv).elsewhere - s.elsewhere == Outside(cfg, t, mv).elsewhere - t.elsewhere
  {
    match mv
    case Transfer(from, to, amount, keepAlive) =>
      assert Acct(s, from) == Acct(t, from) && Acct(s, to) == Acct(t, to);
      if CanTake(cfg, Acct(s, from), amount, keepAlive) {
        TransferOnAccount(cfg, s, from, to, amount, keepAlive, a);
        TransferOnAccount(cfg, t, from, to, amount, keepAlive, a);
      }
    case Withdraw(from, amount, keepAlive) => assert Acct(s, from) == Acct(t, from);
    case OtherHold(who, amount) => assert Acct(s, who) == Acct(t, who);
    case OtherRelease(who, amount) => assert Acct(s, who) == Acct(t, who);
  }

  lemma MoveSeesTouched(cfg: Config, s: State, t: State, mv: Move)
    requires Agree(s, t, TouchedBy(DoMove(mv)))
    ensures Agree(Outside(cfg, s, mv), Outside(cfg, t, mv), TouchedBy(DoMove(mv)))
    ensures SameOutflow(s, Outside(cfg, s, mv), t, Outside(cfg, t, mv))
  {
    var u, v := Outside(cfg, s, mv), Outside(cfg, t, mv);
    forall a | a in TouchedBy(DoMove(mv)) ensures Acct(s, a) == Acct(t, a) { assert Same(s, t, a); }
    forall a | a in TouchedBy(DoMove(mv))
      ensures Same(u, v, a)
    {
      assert Same(s, t, a);
      OutsideFrame(cfg, s, mv, a);
      OutsideFrame(cfg, t, mv, a);
      MoveSeesAccount(cfg, s, t, mv, a);
    }
    var a :| a in TouchedBy(DoMove(mv));
    MoveSeesAccount(cfg, s, t, mv, a);
    OutsideFrame(cfg, s, mv, a);
    OutsideFrame(cfg, t, mv, a);
  }

  lemma BasicOnAccount(cfg: Config, m: Machine, b: Basic, a: AccountId)
    requires a !in TouchedBy(b)
    ensures Same(AfterBasic(cfg, m, b).chain, m.chain, a)
  {
    match b
    case DoMove(mv) => MoveOnAccount(cfg, m.chain, mv, a);
    case DoCall(origin, call, refused) =>
      if origin.Some? { CallOnAccount(cfg, m.chain, origin.value, call, refused, a); }
  }

  lemma BasicAgrees(cfg: Config, m: Machine, n: Machine, b: Basic, f: set<AccountId>)
    requires TouchedBy(b) <= f && Agree(m.chain, n.chain, f)
    ensures Agree(AfterBasic(cfg, m, b).chain, AfterBasic(cfg, n, b).chain, f)
    ensures SameOutflow(m.chain, AfterBasic(cfg, m, b).chain, n.chain, AfterBasic(cfg, n, b).chain)
  {
    assert Agree(m.chain, n.chain, TouchedBy(b));
    match b {
      case DoMove(mv) => MoveSeesTouched(cfg, m.chain, n.chain, mv);
      case DoCall(origin, call, refused) =>
        if origin.Some? {
          CallSeesCaller(cfg, m.chain, n.chain, origin.value, call, refused);
          CallOnAccount(cfg, m.chain, origin.value, call, refused, 0);
          CallOnAccount(cfg, n.chain, origin.value, call, refused, 0);
        }
    }
    forall a | a in f
      ensures Same(AfterBasic(cfg, m, b).chain, AfterBasic(cfg, n, b).chain, a)
    {
      if a !in TouchedBy(b) {
        BasicOnAccount(cfg, m, b, a);
        BasicOnAccount(cfg, n, b, a);
        assert Same(m.chain, n.chain, a);
      }
    }
  }

  // ------------------------------------------------------------- one dispatch

  lemma {:induction false} BasicsOnAccount(cfg: Config, m: Machine, ds: seq<Basic>, a: AccountId)
    requires a !in TouchedByAll(ds)
    ensures Same(RunBasics(cfg, m, ds).chain, m.chain, a)
    decreases |ds|
  {
    if ds == [] {
    } else {
      BasicOnAccount(cfg, m, ds[0], a);
      BasicsOnAccount(cfg, AfterBasic(cfg, m, ds[0]), ds[1..], a);
    }
  }

  lemma {:induction false} BasicsAgree(cfg: Config, m: Machine, n: Machine, ds: seq<Basic>, f: set<AccountId>)
    requires TouchedByAll(ds) <= f && Agree(m.chain, n.chain, f)
    ensures Agree(RunBasics(cfg, m, ds).chain, RunBasics(cfg, n, ds).chain, f)
    ensures SameOutflow(m.chain, RunBasics(cfg, m, ds).chain, n.chain, RunBasics(cfg, n, ds).chain)
    decreases |ds|
  {
    if ds == [] {
    } else {
      BasicAgrees(cfg, m, n, ds[0], f);
      BasicsAgree(cfg, AfterBasic(cfg, m, ds[0]), AfterBasic(cfg, n, ds[0]), ds[1..], f);
    }
  }

  // ----------------------------------------------------------- one transaction

  lemma PrepareOnAccount(cfg: Config, m: Machine, tx: Tx, no: Refusals, a: AccountId)
    ensures var p := AfterPrepare(cfg, m, tx, no);
            && (a != tx.sponsor ==> Same(p.chain, m.chain, a))
            && p.chain.credit == m.chain.credit && p.chain.elsewhere == m.chain.elsewhere
  {
  }

  lemma ValidateSeesSponsor(cfg: Config, s: State, t: State, tx: Tx)
    requires Same(s, t, tx.sponsor)
    ensures Validate(cfg, s, tx) == Validate(cfg, t, tx)
  {
    assert tx.sponsor in s.sponsors <==> tx.sponsor in t.sponsors;
  }

  lemma PrepareSeesSponsor(cfg: Config, m: Machine, n: Machine, tx: Tx, no: Refusals)
    requires Same(m.chain, n.chain, tx.sponsor)
    ensures Validate(cfg, m.chain, tx) == Validate(cfg, n.chain, tx)
    ensures Same(AfterPrepare(cfg, m, tx, no).chain, AfterPrepare(cfg, n, tx, no).chain, tx.sponsor)
  {
    ValidateSeesSponsor(cfg, m.chain, n.chain, tx);
    var p, q := AfterPrepare(cfg, m, tx, no), AfterPrepare(cfg, n, tx, no);
    assert p.chain.log == m.chain.log && q.chain.log == n.chain.log;
    assert p.chain.sponsors == m.chain.sponsors && q.chain.sponsors == n.chain.sponsors;
  }

  lemma PrepareAgrees(cfg: Config, m: Machine, n: Machine, tx: Tx, no: Refusals, f: set<AccountId>)
    requires tx.sponsor in f && Agree(m.chain, n.chain, f)
    ensures Agree(AfterPrepare(cfg, m, tx, no).chain, AfterPrepare(cfg, n, tx, no).chain, f)
  {
    assert Same(m.chain, n.chain, tx.sponsor);
    PrepareSeesSponsor(cfg, m, n, tx, no);
    forall a | a in f
      ensures Same(AfterPrepare(cfg, m, tx, no).chain, AfterPrepare(cfg, n, tx, no).chain, a)
    {
      assert Same(m.chain, n.chain, a);
      PrepareOnAccount(cfg, m, tx, no, a);
      PrepareOnAccount(cfg, n, tx, no, a);
    }
  }

  lemma SettleOnAccount(cfg: Config, s: State, r: Reservation, actual: nat, no: Refusals, a: AccountId)
    ensures var t := AfterSettle(cfg, s, r, actual, no);
            && (a != r.sponsor ==> Same(t, s, a))
            && t.elsewhere == s.elsewhere
  {
    LogAppend(s.log, PaidEvent(SettleReceipt(cfg, Acct(s, r.sponsor), r, actual, no)), a);
  }

  lemma SettleAgrees(cfg: Config, s: State, t: State, r: Reservation, actual: nat, no: Refusals, f: set<AccountId>)
    requires r.sponsor in f && Agree(s, t, f)
    ensures Agree(AfterSettle(cfg, s, r, actual, no), AfterSettle(cfg, t, r, actual, no), f)
    ensures SameOutflow(s, AfterSettle(cfg, s, r, actual, no), t, AfterSettle(cfg, t, r, actual, no))
  {
    assert Same(s, t, r.sponsor);
    var e := PaidEvent(SettleReceipt(cfg, Acct(s, r.sponsor), r, actual, no));
    LogAppend(s.log, e, r.sponsor);
    LogAppend(t.log, e, r.sponsor);
    forall a | a in f
      ensures Same(AfterSettle(cfg, s, r, actual, no), AfterSettle(cfg, t, r, actual, no), a)
    {
      assert Same(s, t, a);
      SettleOnAccount(cfg, s, r, actual, no, a);
      SettleOnAccount(cfg, t, r, actual, no, a);
    }
  }

  /** An item leaves every account outside its footprint as it was. */
  lemma ExecOnAccount(cfg: Config, m: Machine, it: Item, a: AccountId)
    requires a !in Footprint(it)
    ensures Same(Exec(cfg, m, it).chain, m.chain, a)
  {
    match it
    case Alone(b) => BasicOnAccount(cfg, m, b, a);
    case Sponsored(tx, reserve, dispatch, success, _, settle) =>
      if Reserved(cfg, m, it) {
        var p := AfterPrepare(cfg, m, tx, reserve);
        PrepareOnAccount(cfg, m, tx, reserve, a);
        if success { BasicsOnAccount(cfg, p, dispatch, a); }
        HandedOn(cfg, m, it, it.tx.sponsor);
        SettleOnAccount(cfg, Dispatched(cfg, m, it).chain, Validate(cfg, m.chain, tx).value, ActualFee(cfg, it), settle, a);
      }
  }

  /** What an item does depends on its footprint only. */
  lemma ExecAgrees(cfg: Config, m: Machine, n: Machine, it: Item)
    requires Agree(m.chain, n.chain, Footprint(it))
    ensures it.Sponsored? ==> (Reserved(cfg, m, it) <==> Reserved(cfg, n, it))
    ensures it.Sponsored? ==> Validate(cfg, m.chain, it.tx) == Validate(cfg, n.chain, it.tx)
    ensures Agree(Exec(cfg, m, it).chain, Exec(cfg, n, it).chain, Footprint(it))
    ensures SameOutflow(m.chain, Exec(cfg, m, it).chain, n.chain, Exec(cfg, n, it).chain)
  {
    var f := Footprint(it);
    match it
    case Alone(b) => BasicAgrees(cfg, m, n, b, f);
    case Sponsored(tx, reserve, dispatch, success, _, settle) =>
      assert Same(m.chain, n.chain, tx.sponsor);
      PrepareSeesSponsor(cfg, m, n, tx, reserve);
      if Reserved(cfg, m, it) {
        var p, q := AfterPrepare(cfg, m, tx, reserve), AfterPrepare(cfg, n, tx, reserve);
        PrepareAgrees(cfg, m, n, tx, reserve, f);
        PrepareOnAccount(cfg, m, tx, reserve, 0);
        PrepareOnAccount(cfg, n, tx, reserve, 0);
        if success { BasicsAgree(cfg, p, q, dispatch, f); }
        HandedOn(cfg, m, it, it.tx.sponsor);
        HandedOn(cfg, n, it, it.tx.sponsor);
        SettleAgrees(cfg, Dispatched(cfg, m, it).chain, Dispatched(cfg, n, it).chain,
                     Validate(cfg, m.chain, tx).value, ActualFee(cfg, it), settle, f);
      }
  }

  /** What a transaction does to its sponsor depends on the sponsor only, if the dispatch stays away. */
  lemma ExecOnSponsor(cfg: Config, m: Machine, n: Machine, it: Item)
    requires it.Sponsored? && it.tx.sponsor !in TouchedByAll(it.dispatch)
    requires Same(m.chain, n.chain, it.tx.sponsor)
    ensures Validate(cfg, m.chain, it.tx) == Validate(cfg, n.chain, it.tx)
    ensures Reserved(cfg, m, it) <==> Reserved(cfg, n, it)
    ensures Same(Exec(cfg, m, it).chain, Exec(cfg, n, it).chain, it.tx.sponsor)
    ensures Exec(cfg, m, it).chain.credit - m.chain.credit == Exec(cfg, n, it).chain.credit - n.chain.credit
  {
    var a := it.tx.sponsor;
    PrepareSeesSponsor(cfg, m, n, it.tx, it.reserve);
    if Reserved(cfg, m, it) {
      OnlyPrepared(cfg, m, it);
      OnlyPrepared(cfg, n, it);
      HandedOn(cfg, m, it, it.tx.sponsor);
      HandedOn(cfg, n, it, it.tx.sponsor);
      SettleAgrees(cfg, Dispatched(cfg, m, it).chain, Dispatched(cfg, n, it).chain,
                   Validate(cfg, m.chain, it.tx).value, ActualFee(cfg, it), it.settle, {a});
    }
  }

  lemma OnlyPrepared(cfg: Config, m: Machine, it: Item)
    requires it.Sponsored? && it.tx.sponsor !in TouchedByAll(it.dispatch)
    ensures var p := AfterPrepare(cfg, m, it.tx, it.reserve);
            && Same(Dispatched(cfg, m, it).chain, p.chain, it.tx.sponsor)
            && Dispatched(cfg, m, it).chain.credit == m.chain.credit
  {
    var p := AfterPrepare(cfg, m, it.tx, it.reserve);
    if it.success {
      BasicsOnAccount(cfg, p, it.dispatch, it.tx.sponsor);
      BasicsKeepPending(cfg, p, it.dispatch, 0);
    }
  }

  /** Two transactions naming different sponsors, whose dispatches stay away from both sponsors, get
      the same answers, charge the same fees and leave the same sponsor balances, holds, records and
      events in either order, even if their dispatches conflict elsewhere. */
  lemma SponsorsIsolated(cfg: Config, m: Machine, i: Item, j: Item)
    requires i.Sponsored? && j.Sponsored? && i.tx.sponsor != j.tx.sponsor
    requires {i.tx.sponsor, j.tx.sponsor} !! TouchedByAll(i.dispatch) + TouchedByAll(j.dispatch)
    ensures Validate(cfg, Exec(cfg, m, j).chain, i.tx) == Validate(cfg, m.chain, i.tx)
    ensures Validate(cfg, Exec(cfg, m, i).chain, j.tx) == Validate(cfg, m.chain, j.tx)
    ensures Reserved(cfg, Exec(cfg, m, j), i) <==> Reserved(cfg, m, i)
    ensures Reserved(cfg, Exec(cfg, m, i), j) <==> Reserved(cfg, m, j)
    ensures var ij, ji := Exec(cfg, Exec(cfg, m, i), j), Exec(cfg, Exec(cfg, m, j), i);
            && Same(ij.chain, ji.chain, i.tx.sponsor) && Same(ij.chain, ji.chain, j.tx.sponsor)
            && ij.chain.credit == ji.chain.credit
  {
    var mi, mj := Exec(cfg, m, i), Exec(cfg, m, j);
    ExecOnAccount(cfg, m, i, j.tx.sponsor);
    ExecOnAccount(cfg, m, j, i.tx.sponsor);
    ExecOnSponsor(cfg, mi, m, j);
    ExecOnSponsor(cfg, mj, m, i);
    ExecOnAccount(cfg, mi, j, i.tx.sponsor);
    ExecOnAccount(cfg, mj, i, j.tx.sponsor);
  }

  /** Two items with disjoint footprints commute: either order gives the same answers, balances,
      holds, sponsor records and per-account events, and the same total of routed credit. */
  lemma ItemsCommute(cfg: Config, m: Machine, i: Item, j: Item)
    requires Footprint(i) !! Footprint(j)
    ensures var ij, ji := Exec(cfg, Exec(cfg, m, i), j), Exec(cfg, Exec(cfg, m, j), i);
            && (forall a :: Same(ij.chain, ji.chain, a))
            && ij.chain.credit == ji.chain.credit && ij.chain.elsewhere == ji.chain.elsewhere
    ensures i.Sponsored? ==> Validate(cfg, Exec(cfg, m, j).chain, i.tx) == Validate(cfg, m.chain, i.tx)
    ensures j.Sponsored? ==> Validate(cfg, Exec(cfg, m, i).chain, j.tx) == Validate(cfg, m.chain, j.tx)
    ensures i.Sponsored? ==> (Reserved(cfg, Exec(cfg, m, j), i) <==> Reserved(cfg, m, i))
    ensures j.Sponsored? ==> (Reserved(cfg, Exec(cfg, m, i), j) <==> Reserved(cfg, m, j))
  {
    var mi, mj := Exec(cfg, m, i), Exec(cfg, m, j);
    var ij, ji := Exec(cfg, mi, j), Exec(cfg, mj, i);
    forall a | a in Footprint(j) ensures Same(mi.chain, m.chain, a) { ExecOnAccount(cfg, m, i, a); }
    forall a | a in Footprint(i) ensures Same(mj.chain, m.chain, a) { ExecOnAccount(cfg, m, j, a); }
    ExecAgrees(cfg, mi, m, j);
    ExecAgrees(cfg, mj, m, i);
    forall a
      ensures Same(ij.chain, ji.chain, a)
    {
      if a !in Footprint(i) { ExecOnAccount(cfg, m, i, a); ExecOnAccount(cfg, mj, i, a); }
      if a !in Footprint(j) { ExecOnAccount(cfg, m, j, a); ExecOnAccount(cfg, mi, j, a); }
      if a in Footprint(i) {
        assert Same(ji.chain, mi.chain, a);
      } else if a in Footprint(j) {
        assert Same(ij.chain, mj.chain, a);
      }
    }
  }
}
