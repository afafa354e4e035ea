/**
 * The expenses collection as the controllers query it: a `$match` on owner,
 * category and a date range of whole months, and the `$sum` of the amounts of
 * what matched.
 */
module Ledger {
  import opened Wrappers
  import opened Calendar
  import opened Models

  /** A `$match` filter. Each present field must hold; `from` and `before` are month
      numbers (see `Calendar.MonthIndex`) standing for `date >= first day of month from`
      and `date < first day of month before`. */
  datatype Query = Query(owner: Option<UserId>, category: Option<CategoryId>,
                         from: Option<int>, before: Option<int>)

  predicate Matches(q: Query, e: Expense) {
    && (q.owner.Some? ==> e.owner == q.owner.value)
    && (q.category.Some? ==> e.category == q.category.value)
    && (q.from.Some? ==> !Before(e.date, MonthStart(q.from.value)))
    && (q.before.Some? ==> Before(e.date, MonthStart(q.before.value)))
  }

  /** The filter for one owner's expenses in one category in calendar month `k`. */
  function MonthQuery(owner: UserId, category: CategoryId, k: int): Query {
    Query(Some(owner), Some(category), Some(k), Some(k + 1))
  }

  /** The expenses that match, in collection order. */
  function Find(es: seq<Expense>, q: Query): (r: seq<Expense>)
    ensures |r| <= |es|
    ensures forall e :: e in r <==> e in es && Matches(q, e)
  {
    if es == [] then []
    else
      var last := es[|es| - 1];
      Find(es[..|es| - 1], q) + (if Matches(q, last) then [last] else [])
  }

  /** `$sum` of the amounts; 0 for no expenses. */
  function Total(es: seq<Expense>): int {
    if es == [] then 0 else Total(es[..|es| - 1]) + es[|es| - 1].amount
  }

  /** The sum of the amounts of the matching expenses. */
  function Spent(es: seq<Expense>, q: Query): int {
    Total(Find(es, q))
  }

  /** Every stored date is a real calendar date. */
  predicate ValidDates(es: seq<Expense>) {
    forall i :: 0 <= i < |es| ==> ValidDate(es[i].date)
  }

  lemma {:induction false} TotalAppend(a: seq<Expense>, b: seq<Expense>)
    ensures Total(a + b) == Total(a) + Total(b)
  {
    if b != [] {
      assert (a + b)[..|a + b| - 1] == a + b[..|b| - 1];
      TotalAppend(a, b[..|b| - 1]);
    } else {
      assert a + b == a;
    }
  }

  lemma {:induction false} FindAppend(a: seq<Expense>, b: seq<Expense>, q: Query)
    ensures Find(a + b, q) == Find(a, q) + Find(b, q)
  {
    if b != [] {
      assert (a + b)[..|a + b| - 1] == a + b[..|b| - 1];
      FindAppend(a, b[..|b| - 1], q);
    } else {
      assert a + b == a;
    }
  }

  /** Appending one expense adds its amount to exactly the sums it matches. */
  lemma SpentAppendOne(es: seq<Expense>, e: Expense, q: Query)
    ensures Spent(es + [e], q) == Spent(es, q) + (if Matches(q, e) then e.amount else 0)
  {
    assert (es + [e])[..|es|] == es;
    if Matches(q, e) {
      TotalAppend(Find(es, q), [e]);
    } else {
      assert Find(es, q) + [] == Find(es, q);
    }
  }

  /** For a real date, the window of month `k` holds exactly the dates of that month. */
  lemma MatchesMonth(q: Query, e: Expense, k: int)
    requires ValidDate(e.date)
    requires q.from == Some(k) && q.before == Some(k + 1)
    ensures Matches(q, e) <==> && (q.owner.Some? ==> e.owner == q.owner.value)
                               && (q.category.Some? ==> e.category == q.category.value)
                               && MonthIndex(e.date) == k
  {
    MonthStartOrder(e.date, k);
    MonthStartOrder(e.date, k + 1);
  }

  /** A sum over months `[a, c)` is the sum over `[a, b)` plus the sum over `[b, c)`. */
  lemma {:induction false} SpentSplit(es: seq<Expense>, q: Query, a: int, b: int, c: int)
    requires ValidDates(es)
    requires a <= b <= c && q.from == Some(a) && q.before == Some(c)
    ensures Spent(es, q) == Spent(es, q.(before := Some(b))) + Spent(es, q.(from := Some(b)))
  {
    if es != [] {
      var init, e := es[..|es| - 1], es[|es| - 1];
      assert es == init + [e];
      SpentSplit(init, q, a, b, c);
      SpentAppendOne(init, e, q);
      SpentAppendOne(init, e, q.(before := Some(b)));
      SpentAppendOne(init, e, q.(from := Some(b)));
      MonthStartOrder(e.date, a);
      MonthStartOrder(e.date, b);
      MonthStartOrder(e.date, c);
    }
  }

  /** A sum over the three months before month `k` is the sum of the three month
      sums: it does not matter in which of them the spending fell. */
  lemma ThreeMonthTotal(es: seq<Expense>, q: Query, k: int)
    requires ValidDates(es)
    requires q.from == Some(k - 3) && q.before == Some(k)
    ensures Spent(es, q) == Spent(es, q.(before := Some(k - 2)))
                          + Spent(es, q.(from := Some(k - 2), before := Some(k - 1)))
                          + Spent(es, q.(from := Some(k - 1)))
  {
    SpentSplit(es, q, k - 3, k - 2, k);
    SpentSplit(es, q.(from := Some(k - 2)), k - 2, k - 1, k);
  }

  /** Filtering twice is filtering once by a query that accepts exactly what both
      accept (for the expenses at hand). */
  lemma {:induction false} FindNarrow(es: seq<Expense>, first: Query, second: Query, both: Query)
    requires forall e :: e in es ==> (Matches(first, e) && Matches(second, e) <==> Matches(both, e))
    ensures Find(Find(es, first), second) == Find(es, both)
  {
    if es != [] {
      var init, e := es[..|es| - 1], es[|es| - 1];
      assert es == init + [e];
      FindNarrow(init, first, second, both);
      FindAppend(Find(init, first), if Matches(first, e) then [e] else [], second);
      if !Matches(first, e) {
        assert Find([], second) == [];
      }
    }
  }
}
