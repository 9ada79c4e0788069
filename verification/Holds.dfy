/** The client's walk over a decoded storage value that looks for the two sponsorship holds. */
module Holds {
  import opened Types

  datatype Field = Field(key: string, value: Value)

  datatype Fields = Named(fields: seq<Field>) | Unnamed(items: seq<Value>)

  datatype Value =
    | Composite(values: Fields)
    | Variant(name: string, values: Fields)
    | Number(n: nat)
    | Other

  /** The first field called `key`, as `Value::at` finds it. */
  function Lookup(fields: seq<Field>, key: string): Option<Value> {
    if fields == [] then None
    else if fields[0].key == key then Some(fields[0].value)
    else Lookup(fields[1..], key)
  }

  function At(v: Value, key: string): Option<Value> {
    if (v.Composite? || v.Variant?) && v.values.Named? then Lookup(v.values.fields, key) else None
  }

  function AmountOf(v: Value): Option<nat> {
    match At(v, "amount")
    case Some(Number(n)) => Some(n)
    case _ => None
  }

  predicate StartsAt(text: string, part: string, i: nat) {
    i + |part| <= |text| && text[i..i + |part|] == part
  }

  predicate Contains(text: string, part: string) {
    exists i: nat :: i <= |text| && StartsAt(text, part, i)
  }

  datatype Entry = BudgetEntry(amount: nat) | PendingEntry(amount: nat)

  /** The entry a node makes by itself; `show` is the textual form of a value. */
  function Own(show: Value -> string, v: Value): seq<Entry> {
    match AmountOf(v)
    case None => []
    case Some(n) =>
      var reason := match At(v, "id") case Some(id) => show(id) case None => "";
      if Contains(reason, "SponsorshipBudget") then [BudgetEntry(n)]
      else if Contains(reason, "SponsorshipPending") then [PendingEntry(n)]
      else []
  }

  /** All entries of a tree: a node before its children, children in order. */
  function PreOrder(show: Value -> string, v: Value): seq<Entry>
    decreases v
  {
    Own(show, v) +
    match v
    case Composite(values) => InFields(show, values)
    case Variant(_, values) => InFields(show, values)
    case Number(_) => []
    case Other => []
  }

  function InFields(show: Value -> string, f: Fields): seq<Entry>
    decreases f
  {
    match f
    case Named(fields) => InNamed(show, fields)
    case Unnamed(items) => InItems(show, items)
  }

  function InNamed(show: Value -> string, fields: seq<Field>): seq<Entry>
    decreases fields
  {
    if fields == [] then []
    else InNamed(show, fields[..|fields| - 1]) + PreOrder(show, fields[|fields| - 1].value)
  }

  function InItems(show: Value -> string, items: seq<Value>): seq<Entry>
    decreases items
  {
    if items == [] then []
    else InItems(show, items[..|items| - 1]) + PreOrder(show, items[|items| - 1])
  }

  function Children(v: Value): seq<Value> {
    if v.Composite? || v.Variant? then
      if v.values.Named? then seq(|v.values.fields|, i requires 0 <= i < |v.values.fields| => v.values.fields[i].value)
      else v.values.items
    else []
  }

  function Concat(ess: seq<seq<Entry>>): seq<Entry> {
    if ess == [] then [] else Concat(ess[..|ess| - 1]) + ess[|ess| - 1]
  }

  function Walks(show: Value -> string, vs: seq<Value>): seq<seq<Entry>> {
    seq(|vs|, i requires 0 <= i < |vs| => PreOrder(show, vs[i]))
  }

  lemma {:induction false} ItemsAreWalks(show: Value -> string, vs: seq<Value>)
    ensures InItems(show, vs) == Concat(Walks(show, vs))
  {
    if vs == [] {
    } else {
      var front := vs[..|vs| - 1];
      ItemsAreWalks(show, front);
      assert Walks(show, vs)[..|vs| - 1] == Walks(show, front);
    }
  }

  lemma {:induction false} FieldsAreItems(show: Value -> string, fields: seq<Field>, vs: seq<Value>)
    requires |vs| == |fields| && forall i :: 0 <= i < |vs| ==> vs[i] == fields[i].value
    ensures InNamed(show, fields) == InItems(show, vs)
  {
    if vs == [] {
    } else {
      FieldsAreItems(show, fields[..|fields| - 1], vs[..|vs| - 1]);
    }
  }

  /** A node's own entry comes first, then everything its children have, in order, whether they are
      fields or items, of a composite or of a variant. */
  lemma WalkVisitsAll(show: Value -> string, v: Value)
    ensures PreOrder(show, v) == Own(show, v) + Concat(Walks(show, Children(v)))
  {
    ItemsAreWalks(show, Children(v));
    if (v.Composite? || v.Variant?) && v.values.Named? {
      FieldsAreItems(show, v.values.fields, Children(v));
    }
  }

  lemma {:induction false} ConcatHas(ess: seq<seq<Entry>>, i: nat, e: Entry)
    requires i < |ess| && e in ess[i]
    ensures e in Concat(ess)
  {
    if i < |ess| - 1 { ConcatHas(ess[..|ess| - 1], i, e); }
  }

  /** No entry of a child is lost. */
  lemma ChildEntriesKept(show: Value -> string, v: Value, i: nat, e: Entry)
    requires i < |Children(v)| && e in PreOrder(show, Children(v)[i])
    ensures e in PreOrder(show, v)
  {
    WalkVisitsAll(show, v);
    ConcatHas(Walks(show, Children(v)), i, e);
  }

  /** `Lookup` finds the first field of that name. */
  lemma {:induction false} LookupFirst(fields: seq<Field>, key: string, i: nat)
    requires i < |fields| && fields[i].key == key
    requires forall j :: 0 <= j < i ==> fields[j].key != key
    ensures Lookup(fields, key) == Some(fields[i].value)
  {
    if i > 0 { LookupFirst(fields[1..], key, i - 1); }
  }

  /** A composite or a variant with named fields gives the first field asked for, or nothing. */
  lemma AtFinds(v: Value, key: string)
    requires (v.Composite? || v.Variant?) && v.values.Named?
    ensures var fields := v.values.fields;
            && (forall i ::
                  0 <= i < |fields| && fields[i].key == key && (forall j :: 0 <= j < i ==> fields[j].key != key) ==>
                  At(v, key) == Some(fields[i].value))
            && ((forall i :: 0 <= i < |fields| ==> fields[i].key != key) ==> At(v, key) == None)
  {
    var fields := v.values.fields;
    forall i | 0 <= i < |fields| && fields[i].key == key && forall j :: 0 <= j < i ==> fields[j].key != key
      ensures At(v, key) == Some(fields[i].value)
    {
      LookupFirst(fields, key, i);
    }
    if forall i :: 0 <= i < |fields| ==> fields[i].key != key { LookupNone(fields, key); }
  }

  lemma {:induction false} LookupNone(fields: seq<Field>, key: string)
    requires forall i :: 0 <= i < |fields| ==> fields[i].key != key
    ensures Lookup(fields, key) == None
  {
    if fields == [] {
    } else {
      LookupNone(fields[1..], key);
    }
  }

  /** The last budget entry, or the initial value if there is none. */
  function LastBudget(es: seq<Entry>, init: nat): nat {
    if es == [] then init
    else if es[|es| - 1].BudgetEntry? then es[|es| - 1].amount
    else LastBudget(es[..|es| - 1], init)
  }

  function LastPending(es: seq<Entry>, init: nat): nat {
    if es == [] then init
    else if es[|es| - 1].PendingEntry? then es[|es| - 1].amount
    else LastPending(es[..|es| - 1], init)
  }

  lemma {:induction false} LastSplit(es: seq<Entry>, fs: seq<Entry>, b: nat, p: nat)
    ensures LastBudget(es + fs, b) == LastBudget(fs, LastBudget(es, b))
    ensures LastPending(es + fs, p) == LastPending(fs, LastPending(es, p))
  {
    if fs == [] {
      assert es + fs == es;
    } else {
      assert (es + fs)[..|es + fs| - 1] == es + fs[..|fs| - 1];
      LastSplit(es, fs[..|fs| - 1], b, p);
    }
  }

  lemma LastOfOne(e: Entry, b: nat, p: nat)
    ensures LastBudget([e], b) == if e.BudgetEntry? then e.amount else b
    ensures LastPending([e], p) == if e.PendingEntry? then e.amount else p
  {
    assert [e][..0] == [];
  }

  /** The two accumulators the source passes by mutable reference. */
  class Collector {
    var budget: nat
    var pending: nat

    constructor ()
      ensures budget == 0 && pending == 0
    {
      budget, pending := 0, 0;
    }

    /** Leaves the accumulators at the last matching entries in pre-order. */
    method Collect(show: Value -> string, v: Value)
      modifies this
      ensures budget == LastBudget(PreOrder(show, v), old(budget))
      ensures pending == LastPending(PreOrder(show, v), old(pending))
      decreases v
    {
      ghost var b, p := budget, pending;
      var amount := AmountOf(v);
      if amount.Some? {
        var id := At(v, "id");
        var reason := if id.Some? then show(id.value) else "";
        if Contains(reason, "SponsorshipBudget") {
          budget := amount.value;
        } else if Contains(reason, "SponsorshipPending") {
          pending := amount.value;
        }
      }
      if Own(show, v) != [] { LastOfOne(Own(show, v)[0], b, p); }
      assert budget == LastBudget(Own(show, v), b) && pending == LastPending(Own(show, v), p);
      match v {
        case Composite(values) =>
          CollectFields(show, values);
          LastSplit(Own(show, v), InFields(show, values), b, p);
        case Variant(_, values) =>
          CollectFields(show, values);
          LastSplit(Own(show, v), InFields(show, values), b, p);
        case Number(_) => assert PreOrder(show, v) == Own(show, v);
        case Other => assert PreOrder(show, v) == Own(show, v);
      }
    }

    method CollectFields(show: Value -> string, f: Fields)
      modifies this
      ensures budget == LastBudget(InFields(show, f), old(budget))
      ensures pending == LastPending(InFields(show, f), old(pending))
      decreases f
    {
      match f
      case Named(fields) =>
        for i := 0 to |fields|
          invariant budget == LastBudget(InNamed(show, fields[..i]), old(budget))
          invariant pending == LastPending(InNamed(show, fields[..i]), old(pending))
        {
          assert fields[..i + 1][..i] == fields[..i];
          LastSplit(InNamed(show, fields[..i]), PreOrder(show, fields[i].value), old(budget), old(pending));
          Collect(show, fields[i].value);
        }
        assert fields[..|fields|] == fields;
      case Unnamed(items) =>
        for i := 0 to |items|
          invariant budget == LastBudget(InItems(show, items[..i]), old(budget))
          invariant pending == LastPending(InItems(show, items[..i]), old(pending))
        {
          assert items[..i + 1][..i] == items[..i];
          LastSplit(InItems(show, items[..i]), PreOrder(show, items[i]), old(budget), old(pending));
          Collect(show, items[i]);
        }
        assert items[..|items|] == items;
    }
  }

  // ------------------------------------------------------------ a ledger's holds

  datatype Hold = Hold(id: Value, amount: nat)

  /** The stored form of one hold, and of all holds of an account. */
  function HoldValue(h: Hold): Value {
    Composite(Named([Field("id", h.id), Field("amount", Number(h.amount))]))
  }

  function HoldValues(hs: seq<Hold>): seq<Value> {
    if hs == [] then [] else HoldValues(hs[..|hs| - 1]) + [HoldValue(hs[|hs| - 1])]
  }

  /** What a hold says to a reader of its reason. */
  function EntryOf(show: Value -> string, h: Hold): seq<Entry> {
    if Contains(show(h.id), "SponsorshipBudget") then [BudgetEntry(h.amount)]
    else if Contains(show(h.id), "SponsorshipPending") then [PendingEntry(h.amount)]
    else []
  }

  function EntriesOf(show: Value -> string, hs: seq<Hold>): seq<Entry> {
    if hs == [] then [] else EntriesOf(show, hs[..|hs| - 1]) + EntryOf(show, hs[|hs| - 1])
  }

  /** Reasons carry no amounts of their own. */
  predicate PlainReasons(show: Value -> string, hs: seq<Hold>) {
    forall h <- hs :: PreOrder(show, h.id) == []
  }

  /** The sponsorship entries are those of account `x`: a hold of zero may be absent. */
  predicate Represents(es: seq<Entry>, x: Account) {
    && (forall e <- es :: e.amount == if e.BudgetEntry? then x.budget else x.pending)
    && (x.budget > 0 ==> exists e <- es :: e.BudgetEntry?)
    && (x.pending > 0 ==> exists e <- es :: e.PendingEntry?)
  }

  /** A node makes an entry of its own exactly if it has a number as amount and an id, and the id reads
      as one of the two reasons, the budget first. */
  lemma OwnEntry(show: Value -> string, v: Value)
    ensures var amount, id := At(v, "amount"), At(v, "id");
            Own(show, v) ==
            if amount.Some? && amount.value.Number? && id.Some? then EntryOf(show, Hold(id.value, amount.value.n)) else []
  {
    assert !StartsAt("", "SponsorshipBudget", 0) && !StartsAt("", "SponsorshipPending", 0);
  }

  lemma OneHold(show: Value -> string, h: Hold)
    requires PreOrder(show, h.id) == []
    ensures PreOrder(show, HoldValue(h)) == EntryOf(show, h)
  {
    var fields := [Field("id", h.id), Field("amount", Number(h.amount))];
    assert "id" != "amount" by { assert |"id"| != |"amount"|; }
    assert fields[1..][0] == Field("amount", Number(h.amount));
    assert Lookup(fields, "amount") == Lookup(fields[1..], "amount") == Some(Number(h.amount));
    assert fields[..1] == [Field("id", h.id)] && fields[..1][..0] == [];
    assert InNamed(show, fields[..1]) == InNamed(show, []) + PreOrder(show, h.id);
    assert PreOrder(show, Number(h.amount)) == [];
    assert InNamed(show, fields) == InNamed(show, fields[..1]) + PreOrder(show, fields[1].value);
  }

  lemma {:induction false} WalkFindsEntries(show: Value -> string, hs: seq<Hold>)
    requires PlainReasons(show, hs)
    ensures InItems(show, HoldValues(hs)) == EntriesOf(show, hs)
  {
    if hs == [] {
    } else {
      var front, last := hs[..|hs| - 1], hs[|hs| - 1];
      WalkFindsEntries(show, front);
      OneHold(show, last);
      var vs := HoldValues(hs);
      assert vs[..|vs| - 1] == HoldValues(front);
    }
  }

  lemma {:induction false} LastIsOnly(es: seq<Entry>, b: nat, p: nat)
    requires forall e <- es :: e.amount == if e.BudgetEntry? then b else p
    ensures LastBudget(es, 0) == if exists e <- es :: e.BudgetEntry? then b else 0
    ensures LastPending(es, 0) == if exists e <- es :: e.PendingEntry? then p else 0
  {
    if es == [] {
    } else {
      var front := es[..|es| - 1];
      LastIsOnly(front, b, p);
      assert es == front + [es[|es| - 1]];
    }
  }

  /** The sponsorship holds of `x` as the ledger stores them: one entry per non-zero hold. */
  function OwnHolds(budgetId: Value, pendingId: Value, x: Account): seq<Hold> {
    (if x.budget > 0 then [Hold(budgetId, x.budget)] else []) +
    (if x.pending > 0 then [Hold(pendingId, x.pending)] else [])
  }

  /** `hs` lists, in any order, the sponsorship holds of `x` and holds for unrelated reasons. */
  ghost predicate Stores(show: Value -> string, hs: seq<Hold>, budgetId: Value,
                         pendingId: Value, x: Account, others: seq<Hold>) {
    && multiset(hs) == multiset(OwnHolds(budgetId, pendingId, x)) + multiset(others)
    && Contains(show(budgetId), "SponsorshipBudget")
    && !Contains(show(pendingId), "SponsorshipBudget") && Contains(show(pendingId), "SponsorshipPending")
    && forall h <- others :: EntryOf(show, h) == []
  }

  lemma {:induction false} EntriesComeFromHolds(show: Value -> string, hs: seq<Hold>)
    ensures forall e <- EntriesOf(show, hs) :: exists h <- hs :: e in EntryOf(show, h)
    ensures forall h <- hs :: forall e <- EntryOf(show, h) :: e in EntriesOf(show, hs)
  {
    if hs == [] {
    } else {
      EntriesComeFromHolds(show, hs[..|hs| - 1]);
      assert hs == hs[..|hs| - 1] + [hs[|hs| - 1]];
    }
  }

  lemma StoredRepresents(show: Value -> string, hs: seq<Hold>, budgetId: Value,
                         pendingId: Value, x: Account, others: seq<Hold>)
    requires Stores(show, hs, budgetId, pendingId, x, others)
    ensures Represents(EntriesOf(show, hs), x)
  {
    var own := OwnHolds(budgetId, pendingId, x);
    EntriesComeFromHolds(show, hs);
    forall e | e in EntriesOf(show, hs)
      ensures e.amount == if e.BudgetEntry? then x.budget else x.pending
    {
      var h :| h in hs && e in EntryOf(show, h);
      assert h in multiset(hs);
      assert h in own;
    }
    if x.budget > 0 {
      var h := Hold(budgetId, x.budget);
      assert h in own && h in multiset(hs) && h in hs;
      assert BudgetEntry(x.budget) in EntryOf(show, h);
    }
    if x.pending > 0 {
      var h := Hold(pendingId, x.pending);
      assert h in own && h in multiset(hs) && h in hs;
      assert PendingEntry(x.pending) in EntryOf(show, h);
    }
  }

  /** On the stored holds of an account, in any order and among any others, the walk reports the
      ledger's budget and pending holds. */
  lemma CollectorReadsLedger(show: Value -> string, hs: seq<Hold>, budgetId: Value,
                             pendingId: Value, x: Account, others: seq<Hold>)
    requires PlainReasons(show, hs) && Stores(show, hs, budgetId, pendingId, x, others)
    ensures var es := PreOrder(show, Composite(Unnamed(HoldValues(hs))));
            LastBudget(es, 0) == x.budget && LastPending(es, 0) == x.pending
  {
    WalkFindsEntries(show, hs);
    StoredRepresents(show, hs, budgetId, pendingId, x, others);
    LastIsOnly(EntriesOf(show, hs), x.budget, x.pending);
    var v := Composite(Unnamed(HoldValues(hs)));
    assert PreOrder(show, v) == InItems(show, HoldValues(hs));
  }

  /** `value` is what storage has under the account: nothing at all if the account has no holds. */
  ghost predicate StoredAs(show: Value -> string, value: Option<Value>, hs: seq<Hold>, budgetId: Value,
                           pendingId: Value, x: Account, others: seq<Hold>) {
    && value == (if hs == [] then None else Some(Composite(Unnamed(HoldValues(hs)))))
    && PlainReasons(show, hs) && Stores(show, hs, budgetId, pendingId, x, others)
  }

  /** Reads the two sponsorship holds of an account out of what storage has for it. */
  method SponsorHolds(show: Value -> string, value: Option<Value>) returns (budget: nat, pending: nat)
    ensures value.None? ==> budget == 0 && pending == 0
    ensures value.Some? ==>
            budget == LastBudget(PreOrder(show, value.value), 0) && pending == LastPending(PreOrder(show, value.value), 0)
    ensures forall hs, budgetId, pendingId, x, others ::
              StoredAs(show, value, hs, budgetId, pendingId, x, others) ==> budget == x.budget && pending == x.pending
  {
    budget, pending := 0, 0;
    if value.Some? {
      var c := new Collector();
      c.Collect(show, value.value);
      budget, pending := c.budget, c.pending;
    }
    forall hs, budgetId, pendingId, x, others | StoredAs(show, value, hs, budgetId, pendingId, x, others)
      ensures budget == x.budget && pending == x.pending
    {
      CollectorReadsLedger(show, hs, budgetId, pendingId, x, others);
      var v := Composite(Unnamed(HoldValues(hs)));
      assert PreOrder(show, v) == InItems(show, HoldValues(hs));
    }
  }
}
