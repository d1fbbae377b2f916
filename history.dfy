/** The history page's summary and deletion (src/pages/HistoryPage.tsx). */
module History {
  import opened Wrappers
  import opened Types
  import Seqs

  /** The history summary: total profit, number of orders, cash and card. */
  datatype Summary = Summary(profit: real, orders: int, cash: real, card: real)

  const Zero := Summary(0.0, 0, 0.0, 0.0)

  /** Field-wise sum of two summaries. */
  function Plus(a: Summary, b: Summary): Summary {
    Summary(a.profit + b.profit, a.orders + b.orders, a.cash + b.cash, a.card + b.card)
  }

  /** What one saved day adds to the accumulator. */
  function Contribution(d: DayRecord): Summary {
    Summary(d.totals.netProfit, |d.orders|, d.totals.totalCash, d.totals.totalCard)
  }

  /** The `reduce` over the days, accumulated left to right from `Zero`. */
  function Fold(days: seq<DayRecord>): Summary {
    if days == [] then Zero else Plus(Fold(days[..|days| - 1]), Contribution(days[|days| - 1]))
  }

  /** The memoised summary: all zeros for no days, the fold otherwise. */
  function Aggregate(days: seq<DayRecord>): (r: Summary)
    ensures days == [] ==> r == Zero
  {
    if |days| == 0 then Zero else Fold(days)
  }

  /** The summary loop, mutating an accumulator once per day. */
  method Summarize(days: seq<DayRecord>) returns (s: Summary)
    ensures s == Aggregate(days)
  {
    if |days| == 0 {
      return Summary(0.0, 0, 0.0, 0.0);
    }
    var acc := Summary(0.0, 0, 0.0, 0.0);
    var i := 0;
    while i < |days|
      invariant 0 <= i <= |days|
      invariant acc == Fold(days[..i])
    {
      var day := days[i];
      acc := acc.(profit := acc.profit + day.totals.netProfit);
      acc := acc.(orders := acc.orders + |day.orders|);
      acc := acc.(cash := acc.cash + day.totals.totalCash);
      acc := acc.(card := acc.card + day.totals.totalCard);
      assert days[..i + 1][..i] == days[..i];
      i := i + 1;
    }
    assert days[..i] == days;
    s := acc;
  }

  lemma {:induction false} FoldAppend(a: seq<DayRecord>, b: seq<DayRecord>)
    ensures Fold(a + b) == Plus(Fold(a), Fold(b))
  {
    if b == [] {
      assert a + b == a;
    } else {
      var init := b[..|b| - 1];
      assert (a + b)[..|a + b| - 1] == a + init;
      assert (a + b)[|a + b| - 1] == b[|b| - 1];
      FoldAppend(a, init);
    }
  }

  /** Summarising a concatenation is the field-wise sum of the two summaries. */
  lemma AggregateAppend(a: seq<DayRecord>, b: seq<DayRecord>)
    ensures Aggregate(a + b) == Plus(Aggregate(a), Aggregate(b))
  {
    FoldAppend(a, b);
  }

  /** Taking out the element at `j` leaves the multiset without that element. */
  lemma RemoveAtMultiset(b: seq<DayRecord>, j: nat)
    requires j < |b|
    ensures multiset(b[..j] + b[j + 1..]) + multiset{b[j]} == multiset(b)
  {
    assert b == b[..j] + [b[j]] + b[j + 1..];
  }

  /** Folding with one element taken out, then adding it back, gives the whole fold. */
  lemma {:induction false} FoldRemoveAt(b: seq<DayRecord>, j: nat)
    requires j < |b|
    ensures Fold(b) == Plus(Fold(b[..j] + b[j + 1..]), Contribution(b[j]))
  {
    var l, r := b[..j], b[j + 1..];
    assert b == (l + [b[j]]) + r;
    FoldAppend(l + [b[j]], r);
    FoldAppend(l, [b[j]]);
    FoldAppend(l, r);
    assert Fold([b[j]]) == Contribution(b[j]) by {
      assert [b[j]][..0] == [];
    }
  }

  /** The summary does not depend on the order of the days: any permutation
      of the list has the same summary. */
  lemma {:induction false} AggregatePermutation(a: seq<DayRecord>, b: seq<DayRecord>)
    requires multiset(a) == multiset(b)
    ensures Aggregate(a) == Aggregate(b)
    decreases |a|
  {
    if a == [] {
      assert |b| == |multiset(b)| == 0;
    } else {
      var n := |a| - 1;
      var x := a[n];
      assert a == a[..n] + [x];
      assert x in multiset(b);
      var j :| 0 <= j < |b| && b[j] == x;
      var rest := b[..j] + b[j + 1..];
      RemoveAtMultiset(b, j);
      assert multiset(a[..n]) + multiset{x} == multiset(a);
      assert multiset(a[..n]) == multiset(a) - multiset{x};
      assert multiset(rest) == multiset(b) - multiset{x};
      AggregatePermutation(a[..n], rest);
      assert Fold(a[..n]) == Fold(rest);
      FoldRemoveAt(b, j);
    }
  }

  /** The days whose id is not `id`, in their original order. */
  function WithoutDay(days: seq<DayRecord>, id: string): seq<DayRecord> {
    Seqs.Filter(days, (d: DayRecord) => d.id != id)
  }

  /** Deletion removes exactly the days carrying `id` and keeps every other day. */
  lemma WithoutDayExact(days: seq<DayRecord>, id: string)
    ensures forall d :: d in WithoutDay(days, id) <==> d in days && d.id != id
    ensures (forall i :: 0 <= i < |days| ==> days[i].id != id) ==> WithoutDay(days, id) == days
  {
    if forall i :: 0 <= i < |days| ==> days[i].id != id {
      Seqs.FilterKeepsAll(days, (d: DayRecord) => d.id != id);
    }
  }

  /** Deletion keeps the survivors' order: it distributes over concatenation. */
  lemma WithoutDayAppend(a: seq<DayRecord>, b: seq<DayRecord>, id: string)
    ensures WithoutDay(a + b, id) == WithoutDay(a, id) + WithoutDay(b, id)
  {
    Seqs.FilterAppend(a, b, (d: DayRecord) => d.id != id);
  }

  /** The history page's state: the listed days and the day shown in detail. */
  class HistoryView {
    var days: seq<DayRecord>
    var selected: Option<DayRecord>

    constructor ()
      ensures days == [] && selected == None
    {
      days := [];
      selected := None;
    }

    /** `setDays(stored)` once the stored days are listed. */
    method Load(stored: seq<DayRecord>)
      modifies this`days
      ensures days == stored
    {
      days := stored;
    }

    /** `setSelected(day)` / `setSelected(null)`. */
    method Select(day: Option<DayRecord>)
      modifies this`selected
      ensures selected == day
    {
      selected := day;
    }

    /** The summary shown for the listed days. */
    function CurrentSummary(): (r: Summary)
      reads this
      ensures days == [] ==> r == Zero
    {
      Aggregate(days)
    }

    /** `handleDelete(id)`: drop the days with that id; clear the selection
        exactly when the selected day has that id. */
    method Delete(id: string)
      modifies this
      ensures days == WithoutDay(old(days), id)
      ensures selected == (if old(selected).Some? && old(selected).value.id == id then None else old(selected))
      ensures old(selected).Some? ==> (selected.None? <==> old(selected).value.id == id)
    {
      days := WithoutDay(days, id);
      if selected.Some? && selected.value.id == id {
        selected := None;
      }
    }
  }
}
