/**
 * GET /reports/monthly?month=YYYY-MM: one row per category of the user that has a
 * budget or some spending in the month, with budget, spent and remaining.
 */
module Reports {
  import opened Wrappers
  import opened Calendar
  import opened Models
  import opened Ledger
  import opened Budgets
  import opened Expenses

  datatype ReportRow = ReportRow(category: Category, budget: int, spent: int, remaining: int)

  const MonthRequired := "Month parameter is required"

  /** The report's month test: the first seven characters of the stored date's ISO
      string are the requested text. */
  predicate InMonth(e: Expense, key: string) {
    ValidDate(e.date) && IsoString(e.date)[..7] == key
  }

  /** The user's expenses that pass the month test, in collection order. */
  function MonthExpenses(es: seq<Expense>, owner: UserId, key: string): (r: seq<Expense>)
    ensures forall e :: e in r <==> e in es && e.owner == owner && InMonth(e, key)
  {
    if es == [] then []
    else
      var last := es[|es| - 1];
      MonthExpenses(es[..|es| - 1], owner, key)
        + (if last.owner == owner && InMonth(last, key) then [last] else [])
  }

  /** `Category.find({user})`: the user's categories in collection order. */
  function UserCategories(categories: seq<Category>, owner: UserId): (r: seq<Category>)
    ensures |r| <= |categories|
    ensures forall c :: c in r <==> c in categories && c.owner == owner
    ensures UniqueIds(categories) ==> UniqueIds(r)
  {
    if categories == [] then []
    else
      (if categories[0].owner == owner then [categories[0]] else [])
        + UserCategories(categories[1..], owner)
  }

  /** `budgets.find(b => b.category == cat._id)`: the limit of the first of the month's
      budgets for the category, or 0 when there is none. */
  function BudgetFor(monthBudgets: seq<Budget>, category: CategoryId): (r: int)
    ensures (forall b :: b in monthBudgets ==> b.category != category) ==> r == 0
    ensures (exists b :: b in monthBudgets && b.category == category) ==>
              exists i :: && 0 <= i < |monthBudgets| && monthBudgets[i].category == category
                          && r == monthBudgets[i].limit
                          && forall j :: 0 <= j < i ==> monthBudgets[j].category != category
  {
    if monthBudgets == [] then 0
    else if monthBudgets[0].category == category then monthBudgets[0].limit
    else BudgetFor(monthBudgets[1..], category)
  }

  /** The sum of the amounts of the month's expenses in the category. */
  function CategorySpent(monthly: seq<Expense>, category: CategoryId): int {
    Spent(monthly, Query(None, Some(category), None, None))
  }

  /** The row for one category, or None when both its budget and its spending are 0. */
  function RowFor(c: Category, monthBudgets: seq<Budget>, monthly: seq<Expense>): Option<ReportRow> {
    var budget := BudgetFor(monthBudgets, c.id);
    var spent := CategorySpent(monthly, c.id);
    if budget == 0 && spent == 0 then None
    else Some(ReportRow(c, budget, spent, budget - spent))
  }

  /** `categories.map(...).filter(Boolean)`: the rows present, in category order. */
  function Rows(cats: seq<Category>, monthBudgets: seq<Budget>, monthly: seq<Expense>)
    : (r: seq<ReportRow>)
    ensures |r| <= |cats|
    ensures forall row :: row in r ==> exists c :: c in cats && RowFor(c, monthBudgets, monthly) == Some(row)
    ensures forall c :: c in cats && RowFor(c, monthBudgets, monthly).Some? ==>
              RowFor(c, monthBudgets, monthly).value in r
  {
    if cats == [] then []
    else
      var head := RowFor(cats[0], monthBudgets, monthly);
      (if head.Some? then [head.value] else []) + Rows(cats[1..], monthBudgets, monthly)
  }

  /** The categories that get a row, in list order. */
  function Listed(cats: seq<Category>, monthBudgets: seq<Budget>, monthly: seq<Expense>)
    : (r: seq<Category>)
    ensures forall c :: c in r <==> c in cats && RowFor(c, monthBudgets, monthly).Some?
    ensures UniqueIds(cats) ==> UniqueIds(r)
  {
    if cats == [] then []
    else
      var rest := Listed(cats[1..], monthBudgets, monthly);
      if RowFor(cats[0], monthBudgets, monthly).Some? then
        UniqueIdsCons(cats, rest);
        [cats[0]] + rest
      else
        UniqueIdsCons(cats, rest);
        rest
  }

  /** Keeping the head of a list with unique ids in front of any unique sub-collection
      of its tail keeps the ids unique. */
  lemma UniqueIdsCons(cats: seq<Category>, sub: seq<Category>)
    requires cats != [] && forall x :: x in sub ==> x in cats[1..]
    ensures UniqueIds(cats) ==> UniqueIds(cats[1..])
    ensures UniqueIds(cats) && UniqueIds(sub) ==> UniqueIds([cats[0]] + sub)
  {
    if UniqueIds(cats) {
      forall i, j | 0 <= i < j < |cats[1..]| ensures cats[1..][i].id != cats[1..][j].id {
        assert cats[1..][i] == cats[i + 1] && cats[1..][j] == cats[j + 1];
      }
      if UniqueIds(sub) {
        var t := [cats[0]] + sub;
        forall i, j | 0 <= i < j < |t| ensures t[i].id != t[j].id {
          if i == 0 {
            assert t[j] == sub[j - 1] && t[j] in cats[1..];
            var k :| 0 <= k < |cats[1..]| && cats[1..][k] == t[j];
            assert cats[k + 1] == t[j];
          } else {
            assert t[i] == sub[i - 1] && t[j] == sub[j - 1];
          }
        }
      }
    }
  }

  /** The rows are the in-order map of the listed categories to their rows. */
  lemma {:induction false} RowsInOrder(cats: seq<Category>, monthBudgets: seq<Budget>,
                                       monthly: seq<Expense>)
    ensures var r := Rows(cats, monthBudgets, monthly);
            var listed := Listed(cats, monthBudgets, monthly);
      && |r| == |listed|
      && forall i :: 0 <= i < |r| ==> RowFor(listed[i], monthBudgets, monthly) == Some(r[i])
  {
    if cats != [] {
      RowsInOrder(cats[1..], monthBudgets, monthly);
      var r := Rows(cats, monthBudgets, monthly);
      var listed := Listed(cats, monthBudgets, monthly);
      var rest := Rows(cats[1..], monthBudgets, monthly);
      var restListed := Listed(cats[1..], monthBudgets, monthly);
      var head := RowFor(cats[0], monthBudgets, monthly);
      if head.Some? {
        assert r == [head.value] + rest;
        assert listed == [cats[0]] + restListed;
        forall i | 0 < i < |r| ensures RowFor(listed[i], monthBudgets, monthly) == Some(r[i]) {
          assert r[i] == rest[i - 1] && listed[i] == restListed[i - 1];
        }
      } else {
        assert r == rest;
        assert listed == restListed;
      }
    }
  }

  /** With unique category ids, no category has two rows. */
  lemma RowsUnique(cats: seq<Category>, monthBudgets: seq<Budget>, monthly: seq<Expense>)
    requires UniqueIds(cats)
    ensures var r := Rows(cats, monthBudgets, monthly);
      forall i, j :: 0 <= i < j < |r| ==> r[i].category.id != r[j].category.id
  {
    RowsInOrder(cats, monthBudgets, monthly);
    var r := Rows(cats, monthBudgets, monthly);
    var listed := Listed(cats, monthBudgets, monthly);
    forall i | 0 <= i < |r| ensures r[i].category == listed[i] {
      assert RowFor(listed[i], monthBudgets, monthly) == Some(r[i]);
    }
  }

  /** `getMonthlyReport`: a missing or empty month is a 400; otherwise the rows for the
      user's categories from the user's budgets for that month text and the user's
      expenses that pass the month test. */
  function MonthlyReport(categories: seq<Category>, budgets: seq<Budget>, expenses: seq<Expense>,
                         owner: UserId, month: Option<string>): (r: Result<seq<ReportRow>, Error>)
    ensures r.Failure? <==> month.None? || month == Some("")
    ensures r.Failure? ==> r.error == BadRequest(MonthRequired)
    ensures r.Success? ==> |r.value| <= |categories|
  {
    if month.None? || month.value == "" then Failure(BadRequest(MonthRequired))
    else
      var key := month.value;
      Success(Rows(UserCategories(categories, owner), MonthBudgets(budgets, owner, key),
                   MonthExpenses(expenses, owner, key)))
  }

  /** For a well-formed key, the month test is "the date falls in that calendar month". */
  lemma InMonthIndex(e: Expense, key: string, y: int, m: int)
    requires ValidDate(e.date)
    requires ParseMonthKey(key) == Some((y, m))
    ensures InMonth(e, key) <==> MonthIndex(e.date) == MonthIndex(Date(y, m, 1))
  {
    FormatParseMonth(key);
    IsoPrefixMatchesKey(e.date, key);
    MonthIndexOf(e.date, y, m);
  }

  /** Per category, the report's spent equals the ledger sum over the calendar month
      that `addExpense` uses. */
  lemma {:induction false} CategorySpentIsMonthSpent(es: seq<Expense>, owner: UserId, key: string,
                                                     y: int, m: int, category: CategoryId)
    requires ValidDates(es)
    requires ParseMonthKey(key) == Some((y, m))
    ensures CategorySpent(MonthExpenses(es, owner, key), category)
            == Spent(es, MonthQuery(owner, category, MonthIndex(Date(y, m, 1))))
  {
    if es != [] {
      var p := es[..|es| - 1];
      var e := es[|es| - 1];
      assert es == p + [e];
      assert ValidDates(p) by {
        forall i | 0 <= i < |p| ensures ValidDate(p[i].date) {
          assert p[i] == es[i];
        }
      }
      assert ValidDate(e.date) by {
        assert e == es[|es| - 1];
      }
      CategorySpentIsMonthSpent(p, owner, key, y, m, category);
      CategorySpentStep(p, e, owner, key, y, m, category);
    }
  }

  /** Appending one expense changes the report's category sum and the ledger's month
      sum by the same amount. */
  lemma CategorySpentStep(p: seq<Expense>, e: Expense, owner: UserId, key: string,
                          y: int, m: int, category: CategoryId)
    requires ValidDate(e.date)
    requires ParseMonthKey(key) == Some((y, m))
    ensures CategorySpent(MonthExpenses(p + [e], owner, key), category)
            - CategorySpent(MonthExpenses(p, owner, key), category)
            == Spent(p + [e], MonthQuery(owner, category, MonthIndex(Date(y, m, 1))))
               - Spent(p, MonthQuery(owner, category, MonthIndex(Date(y, m, 1))))
  {
    var k := MonthIndex(Date(y, m, 1));
    var cq := Query(None, Some(category), None, None);
    var es := p + [e];
    assert es[..|es| - 1] == p && es[|es| - 1] == e;
    InMonthIndex(e, key, y, m);
    MatchesMonth(MonthQuery(owner, category, k), e, k);
    SpentAppendOne(p, e, MonthQuery(owner, category, k));
    var before := MonthExpenses(p, owner, key);
    if e.owner == owner && InMonth(e, key) {
      SpentAppendOne(before, e, cq);
    } else {
      assert MonthExpenses(es, owner, key) == before + [];
      assert before + [] == before;
    }
  }

  /** Under one budget per key, the report's budget is the limit `addExpense` reads. */
  lemma BudgetForIsLimit(budgets: seq<Budget>, owner: UserId, key: string, category: CategoryId)
    requires UniqueKeys(budgets)
    ensures BudgetFor(MonthBudgets(budgets, owner, key), category) == LimitFor(budgets, owner, category, key)
  {
    var mb := MonthBudgets(budgets, owner, key);
    if exists b :: b in mb && b.category == category {
      var b :| b in mb && b.category == category && BudgetFor(mb, category) == b.limit;
      var i :| 0 <= i < |budgets| && budgets[i] == b;
      assert HasKey(budgets[i], owner, category, key);
    }
  }

  /** The report for a well-formed month agrees with the figures `addExpense` reports:
      each row's budget is the category's limit, its spent is the month's ledger sum,
      its remaining is the difference, and a category of the user is listed exactly
      when one of the two is not 0. */
  lemma ReportAgreesWithLedger(categories: seq<Category>, budgets: seq<Budget>,
                               expenses: seq<Expense>, owner: UserId, key: string, y: int, m: int)
    requires ParseMonthKey(key) == Some((y, m))
    requires ValidDates(expenses) && UniqueKeys(budgets)
    ensures var r := MonthlyReport(categories, budgets, expenses, owner, Some(key));
      && r.Success?
      && (forall row :: row in r.value ==>
            && row.category in categories && row.category.owner == owner
            && row.budget == LimitFor(budgets, owner, row.category.id, key)
            && row.spent == Spent(expenses, MonthQuery(owner, row.category.id, MonthIndex(Date(y, m, 1))))
            && row.remaining == row.budget - row.spent
            && (row.budget != 0 || row.spent != 0))
      && (forall c :: c in categories && c.owner == owner ==>
            ((exists row :: row in r.value && row.category == c) <==>
             (LimitFor(budgets, owner, c.id, key) != 0
              || Spent(expenses, MonthQuery(owner, c.id, MonthIndex(Date(y, m, 1)))) != 0)))
  {
    assert key != "" by {
      FormatParseMonth(key);
    }
    var cats := UserCategories(categories, owner);
    var mb := MonthBudgets(budgets, owner, key);
    var monthly := MonthExpenses(expenses, owner, key);
    var rows := Rows(cats, mb, monthly);
    forall c | c in categories && c.owner == owner
      ensures BudgetFor(mb, c.id) == LimitFor(budgets, owner, c.id, key)
      ensures CategorySpent(monthly, c.id)
              == Spent(expenses, MonthQuery(owner, c.id, MonthIndex(Date(y, m, 1))))
      ensures (exists row :: row in rows && row.category == c) <==> RowFor(c, mb, monthly).Some?
    {
      CategoryFigures(budgets, expenses, owner, key, y, m, c.id);
      RowOfCategory(cats, mb, monthly, c);
    }
  }

  /** A category's budget and spent in the report are `addExpense`'s limit and month sum. */
  lemma CategoryFigures(budgets: seq<Budget>, expenses: seq<Expense>, owner: UserId,
                        key: string, y: int, m: int, category: CategoryId)
    requires ParseMonthKey(key) == Some((y, m))
    requires ValidDates(expenses) && UniqueKeys(budgets)
    ensures BudgetFor(MonthBudgets(budgets, owner, key), category) == LimitFor(budgets, owner, category, key)
    ensures CategorySpent(MonthExpenses(expenses, owner, key), category)
            == Spent(expenses, MonthQuery(owner, category, MonthIndex(Date(y, m, 1))))
  {
    BudgetForIsLimit(budgets, owner, key, category);
    CategorySpentIsMonthSpent(expenses, owner, key, y, m, category);
  }

  /** A category of the list has a row iff its row is present. */
  lemma RowOfCategory(cats: seq<Category>, monthBudgets: seq<Budget>, monthly: seq<Expense>, c: Category)
    requires c in cats
    ensures (exists row :: row in Rows(cats, monthBudgets, monthly) && row.category == c)
            <==> RowFor(c, monthBudgets, monthly).Some?
  {
    var rows := Rows(cats, monthBudgets, monthly);
    if exists row :: row in rows && row.category == c {
      var row :| row in rows && row.category == c;
      var c' :| c' in cats && RowFor(c', monthBudgets, monthly) == Some(row);
    }
  }

  /** Since category ids are unique, the report lists each category at most once. */
  lemma ReportListsCategoryOnce(categories: seq<Category>, budgets: seq<Budget>,
                                expenses: seq<Expense>, owner: UserId, month: Option<string>)
    requires UniqueIds(categories)
    ensures var r := MonthlyReport(categories, budgets, expenses, owner, month);
      r.Success? ==> forall i, j :: 0 <= i < j < |r.value| ==> r.value[i].category.id != r.value[j].category.id
  {
    if month.Some? && month.value != "" {
      var key := month.value;
      var cats := UserCategories(categories, owner);
      var mb := MonthBudgets(budgets, owner, key);
      var monthly := MonthExpenses(expenses, owner, key);
      assert UniqueIds(cats);
      assert MonthlyReport(categories, budgets, expenses, owner, month) == Success(Rows(cats, mb, monthly));
      RowsUnique(cats, mb, monthly);
    }
  }

  /** A month text that is not `YYYY-MM` with a real month matches no stored date, so
      only categories with a budget under that exact text are listed, all with
      nothing spent. */
  lemma MalformedMonthSpendsNothing(categories: seq<Category>, budgets: seq<Budget>,
                                    expenses: seq<Expense>, owner: UserId, key: string)
    requires key != "" && ParseMonthKey(key).None?
    ensures MonthExpenses(expenses, owner, key) == []
    ensures var r := MonthlyReport(categories, budgets, expenses, owner, Some(key));
      r.Success? && forall row :: row in r.value ==> row.spent == 0 && row.budget != 0
  {
    var monthly := MonthExpenses(expenses, owner, key);
    if monthly != [] {
      var e := monthly[0];
      assert InMonth(e, key);
      IsoPrefixMatchesKey(e.date, key);
      ParseFormatMonth(e.date.year, e.date.month);
    }
    var mb := MonthBudgets(budgets, owner, key);
    var cats := UserCategories(categories, owner);
    forall row | row in Rows(cats, mb, monthly)
      ensures row.spent == 0 && row.budget != 0
    {
      var c :| c in cats && RowFor(c, mb, monthly) == Some(row);
      assert Find([], Query(None, Some(c.id), None, None)) == [];
    }
  }
}
