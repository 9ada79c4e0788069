/** Losses and what clears them, over a run of anything. */
module Marks {

  /** What one step does to a quantity: makes it positive, makes it zero, or keeps it. */
  datatype Mark = Loses | Clears | Keeps {
    predicate Moves(before: nat, after: nat) {
      match this
      case Loses => after > 0
      case Clears => after == 0
      case Keeps => after == before
    }
  }

  predicate ClearedLater(ms: seq<Mark>, k: nat) { exists j :: k < j < |ms| && ms[j].Clears? }

  /** Every loss is cleared later. */
  predicate Cleared(ms: seq<Mark>) {
    forall k :: 0 <= k < |ms| && ms[k].Loses? ==> ClearedLater(ms, k)
  }

  predicate Clearing(ms: seq<Mark>) { exists j :: 0 <= j < |ms| && ms[j].Clears? }

  lemma LaterCons(mk: Mark, ms: seq<Mark>, k: nat)
    ensures ClearedLater([mk] + ms, k) <==> if k == 0 then Clearing(ms) else ClearedLater(ms, k - 1)
  {
    var all := [mk] + ms;
    if ClearedLater(all, k) {
      var j :| k < j < |all| && all[j].Clears?;
      assert ms[j - 1].Clears?;
    }
    if k == 0 && Clearing(ms) {
      var j :| 0 <= j < |ms| && ms[j].Clears?;
      assert all[j + 1].Clears?;
    }
    if k > 0 && ClearedLater(ms, k - 1) {
      var j :| k - 1 < j < |ms| && ms[j].Clears?;
      assert all[j + 1].Clears?;
    }
  }

  lemma ClearedCons(mk: Mark, ms: seq<Mark>)
    ensures Cleared([mk] + ms) <==> Cleared(ms) && (mk.Loses? ==> Clearing(ms))
    ensures Clearing([mk] + ms) <==> mk.Clears? || Clearing(ms)
  {
    var all := [mk] + ms;
    if Clearing(ms) {
      var j :| 0 <= j < |ms| && ms[j].Clears?;
      assert all[j + 1].Clears?;
    }
    assert all[0] == mk;
    LaterCons(mk, ms, 0);
    if Cleared(all) {
      forall k | 0 <= k < |ms| && ms[k].Loses?
        ensures ClearedLater(ms, k)
      {
        assert all[k + 1].Loses?;
        LaterCons(mk, ms, k + 1);
      }
    }
    if Cleared(ms) {
      forall k | 0 < k < |all| && all[k].Loses?
        ensures ClearedLater(all, k)
      {
        assert ms[k - 1].Loses?;
        LaterCons(mk, ms, k);
      }
    }
  }

  /** The quantity ends at zero exactly if every loss is cleared, and so is what there was before. */
  predicate EndsAtZero(ms: seq<Mark>, before: nat) { Cleared(ms) && (before == 0 || Clearing(ms)) }

  lemma EndsAtZeroCons(mk: Mark, ms: seq<Mark>, before: nat, after: nat)
    requires mk.Moves(before, after)
    ensures EndsAtZero([mk] + ms, before) <==> EndsAtZero(ms, after)
  {
    ClearedCons(mk, ms);
  }
}
