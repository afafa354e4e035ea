/**
 * The dashboard's per-category card: spend, budget lookup, progress and the
 * "Over" badge, and for each sub-item whether it is daily, whether it is done
 * today, and what a click posts. The page works on the month listings of
 * GET /budgets and GET /expenses/month, whose `category` is populated. "Today" is
 * a parameter.
 */
module Dashboard {
  import opened Wrappers
  import opened Calendar
  import opened Text
  import opened Models
  import opened Ledger
  import opened Budgets
  import opened Expenses
  import opened Reports

  /** An expense as listed: `category` is the referenced category, or null when it
      no longer exists. */
  datatype ExpenseView = ExpenseView(category: Option<Category>, amount: int, date: Date,
                                     subItemName: Option<string>)

  /** A budget as listed, with its category populated the same way. */
  datatype BudgetView = BudgetView(category: Option<Category>, limit: int, items: seq<SubItem>)

  /** `.populate('category')` on one expense. */
  function ViewExpense(e: Expense, cats: seq<Category>): ExpenseView {
    ExpenseView(FindCategory(cats, e.category), e.amount, e.date, e.subItemName)
  }

  function ViewExpenses(es: seq<Expense>, cats: seq<Category>): (r: seq<ExpenseView>)
    ensures |r| == |es|
    ensures forall i :: 0 <= i < |es| ==> r[i] == ViewExpense(es[i], cats)
  {
    if es == [] then [] else ViewExpenses(es[..|es| - 1], cats) + [ViewExpense(es[|es| - 1], cats)]
  }

  /** `.populate('category')` on one budget. */
  function ViewBudget(b: Budget, cats: seq<Category>): BudgetView {
    BudgetView(FindCategory(cats, b.category), b.limit, b.items)
  }

  function ViewBudgets(bs: seq<Budget>, cats: seq<Category>): (r: seq<BudgetView>)
    ensures |r| == |bs|
    ensures forall i :: 0 <= i < |bs| ==> r[i] == ViewBudget(bs[i], cats)
  {
    if bs == [] then [] else [ViewBudget(bs[0], cats)] + ViewBudgets(bs[1..], cats)
  }

  /** `e.category && e.category._id === catId`. */
  predicate OfCategory(category: Option<Category>, catId: CategoryId) {
    category.Some? && category.value.id == catId
  }

  /** `getSpent`: the sum of the amounts of the listed expenses of the category;
      an expense whose category is null counts for none. */
  function GetSpent(expenses: seq<ExpenseView>, catId: CategoryId): int {
    if expenses == [] then 0
    else
      var last := expenses[|expenses| - 1];
      GetSpent(expenses[..|expenses| - 1], catId)
        + (if OfCategory(last.category, catId) then last.amount else 0)
  }

  /** `budgets.find(b => b.category && b.category._id === cat._id)`. */
  function FindBudgetView(budgets: seq<BudgetView>, catId: CategoryId): (r: Option<BudgetView>)
    ensures r.Some? ==>
              exists i :: && 0 <= i < |budgets| && budgets[i] == r.value
                          && OfCategory(r.value.category, catId)
                          && forall j :: 0 <= j < i ==> !OfCategory(budgets[j].category, catId)
    ensures r.None? ==> forall b :: b in budgets ==> !OfCategory(b.category, catId)
  {
    if budgets == [] then None
    else if OfCategory(budgets[0].category, catId) then Some(budgets[0])
    else FindBudgetView(budgets[1..], catId)
  }

  /** `budgetObj ? budgetObj.limit : 0`. */
  function BudgetLimit(budgets: seq<BudgetView>, catId: CategoryId): int {
    match FindBudgetView(budgets, catId)
    case Some(b) => b.limit
    case None => 0
  }

  /** `budgetObj && budgetObj.items ? budgetObj.items : []`. */
  function SubItems(budgets: seq<BudgetView>, catId: CategoryId): seq<SubItem> {
    match FindBudgetView(budgets, catId)
    case Some(b) => b.items
    case None => []
  }

  /** The progress percentage: 0 when no positive limit is set. */
  function Percent(spent: int, limit: int): real {
    if limit > 0 then (spent as real / limit as real) * 100.0 else 0.0
  }

  /** `type !== 'custom'`: anything but "custom", the default included, is daily. */
  predicate IsDaily(item: SubItem) {
    item.kind != CustomKind
  }

  /** The test inside `expenses.some(...)`: same category, a sub-item label equal to
      the item's name after trimming and lower-casing, dated today. */
  predicate DoneBy(e: ExpenseView, catId: CategoryId, item: SubItem, today: Date) {
    && OfCategory(e.category, catId)
    && PresentText(e.subItemName)
    && Normalize(e.subItemName.value) == Normalize(item.name)
    && e.date == today
  }

  /** `isDoneToday`. */
  function IsDoneToday(expenses: seq<ExpenseView>, catId: CategoryId, item: SubItem, today: Date)
    : (r: bool)
    ensures r <==> exists e :: e in expenses && DoneBy(e, catId, item, today)
  {
    if expenses == [] then false
    else
      var last := expenses[|expenses| - 1];
      assert expenses == expenses[..|expenses| - 1] + [last];
      IsDoneToday(expenses[..|expenses| - 1], catId, item, today) || DoneBy(last, catId, item, today)
  }

  /** `handleOneClickAdd`: an amount that is not positive posts nothing; any other
      posts the category, the amount, today's date as `yyyy-MM-dd` and the label. */
  function OneClickAdd(catId: CategoryId, subItemName: string, amount: int, today: Date)
    : (r: Option<ExpenseRequest>)
    requires ValidDate(today)
    ensures r.None? <==> amount <= 0
    ensures r.Some? ==> && r.value.category == catId && r.value.amount == amount
                        && r.value.date.Some? && ParseDate(r.value.date.value) == Some(today)
                        && r.value.subItemName == Some(subItemName)
  {
    if amount <= 0 then None
    else
      ParseFormatDate(today);
      Some(ExpenseRequest(catId, amount, Some(FormatDate(today)), Some(subItemName)))
  }

  /** The daily checkbox: it posts the rounded daily amount only while the item is
      not done today. */
  function CheckboxClick(expenses: seq<ExpenseView>, catId: CategoryId, item: SubItem,
                         dailyAmount: int, today: Date): (r: Option<ExpenseRequest>)
    requires ValidDate(today)
    ensures r.Some? <==> !IsDoneToday(expenses, catId, item, today) && dailyAmount > 0
    ensures r.Some? ==> r == OneClickAdd(catId, item.name, dailyAmount, today)
  {
    if IsDoneToday(expenses, catId, item, today) then None
    else OneClickAdd(catId, item.name, dailyAmount, today)
  }

  // ----- the card against the server -----

  /** The bar turns red exactly when the card shows "Over", the server's rule. */
  lemma PercentShowsOver(spent: int, limit: int)
    ensures Percent(spent, limit) > 100.0 <==> OverLimit(limit, spent)
    ensures limit <= 0 ==> Percent(spent, limit) == 0.0
  {
    if limit > 0 {
      var x := spent as real / limit as real;
      assert x * limit as real == spent as real;
      if x * 100.0 > 100.0 {
        assert (x - 1.0) * limit as real > 0.0;
      }
      if spent > limit {
        assert (x - 1.0) * limit as real > 0.0;
      }
    }
  }

  /** A sub-item saved without a type is daily. */
  lemma DefaultKindIsDaily(input: SubItemInput)
    requires PresentText(input.name) && input.kind.None?
    ensures MakeSubItem(input).Some? && IsDaily(MakeSubItem(input).value)
  {
  }

  /** While the referenced category exists, summing the populated listing by category
      is summing the stored expenses by category id. */
  lemma {:induction false} GetSpentOfView(es: seq<Expense>, cats: seq<Category>, c: Category)
    requires c in cats
    ensures GetSpent(ViewExpenses(es, cats), c.id) == Spent(es, Query(None, Some(c.id), None, None))
  {
    if es != [] {
      var init, e := es[..|es| - 1], es[|es| - 1];
      assert es == init + [e];
      GetSpentOfView(init, cats, c);
      assert ViewExpenses(es, cats)[..|es| - 1] == ViewExpenses(init, cats);
      SpentAppendOne(init, e, Query(None, Some(c.id), None, None));
      assert OfCategory(FindCategory(cats, e.category), c.id) <==> e.category == c.id;
    }
  }

  /** On the month listing, `getSpent` of a category is the figure `addExpense` and the
      monthly report compute for it. */
  lemma CardSpentIsLedgerSpent(ledger: seq<Expense>, cats: seq<Category>, owner: UserId,
                               k: int, c: Category)
    requires c in cats
    ensures GetSpent(ViewExpenses(Find(ledger, Query(Some(owner), None, Some(k), Some(k + 1))), cats), c.id)
            == Spent(ledger, MonthQuery(owner, c.id, k))
  {
    var listing := Query(Some(owner), None, Some(k), Some(k + 1));
    GetSpentOfView(Find(ledger, listing), cats, c);
    FindNarrow(ledger, listing, Query(None, Some(c.id), None, None), MonthQuery(owner, c.id, k));
  }

  /** While the referenced category exists, the dashboard's lookup picks the first
      budget of the category. */
  lemma FindBudgetViewOfView(bs: seq<Budget>, cats: seq<Category>, c: Category)
    requires c in cats
    ensures var r := FindBudgetView(ViewBudgets(bs, cats), c.id);
      && (r.Some? <==> exists b :: b in bs && b.category == c.id)
      && (r.Some? ==> exists i :: && 0 <= i < |bs| && bs[i].category == c.id
                                 && r.value == ViewBudget(bs[i], cats)
                                 && forall j :: 0 <= j < i ==> bs[j].category != c.id)
  {
    FirstOfCategory(ViewBudgets(bs, cats), bs, cats, c);
  }

  /** The same over any listing that is the element-wise populated form of `bs`. */
  lemma FirstOfCategory(views: seq<BudgetView>, bs: seq<Budget>, cats: seq<Category>, c: Category)
    requires c in cats
    requires |views| == |bs| && forall i :: 0 <= i < |bs| ==> views[i] == ViewBudget(bs[i], cats)
    ensures var r := FindBudgetView(views, c.id);
      && (r.Some? <==> exists b :: b in bs && b.category == c.id)
      && (r.Some? ==> exists i :: && 0 <= i < |bs| && bs[i].category == c.id
                                 && r.value == ViewBudget(bs[i], cats)
                                 && forall j :: 0 <= j < i ==> bs[j].category != c.id)
  {
    ViewsOfCategory(views, bs, cats, c);
  }

  /** While the category exists, a populated budget is of it iff the stored one is. */
  lemma ViewsOfCategory(views: seq<BudgetView>, bs: seq<Budget>, cats: seq<Category>, c: Category)
    requires c in cats
    requires |views| == |bs| && forall i :: 0 <= i < |bs| ==> views[i] == ViewBudget(bs[i], cats)
    ensures forall i :: 0 <= i < |bs| ==> (OfCategory(views[i].category, c.id) <==> bs[i].category == c.id)
  {
  }

  /** With one budget per key, the card shows the limit and the sub-items of the
      budget stored under (user, category, month), or 0 and none. */
  lemma CardBudgetIsKeyed(budgets: seq<Budget>, cats: seq<Category>, owner: UserId,
                          month: string, c: Category)
    requires UniqueKeys(budgets) && c in cats
    ensures var views := ViewBudgets(MonthBudgets(budgets, owner, month), cats);
      && BudgetLimit(views, c.id) == LimitFor(budgets, owner, c.id, month)
      && SubItems(views, c.id) == match FindBudget(budgets, owner, c.id, month)
                                 case Some(i) => budgets[i].items
                                 case None => []
  {
    var mb := MonthBudgets(budgets, owner, month);
    FindBudgetViewOfView(mb, cats, c);
    var f := FindBudget(budgets, owner, c.id, month);
    if f.Some? {
      assert budgets[f.value] in mb;
      var b :| b in mb && b.category == c.id
               && FindBudgetView(ViewBudgets(mb, cats), c.id).value == ViewBudget(b, cats);
      var j :| 0 <= j < |budgets| && budgets[j] == b;
      assert HasKey(budgets[j], owner, c.id, month);
      assert j == f.value;
    }
  }

  /** Expenses stored without a sub-item label never mark an item done. */
  lemma UnlabelledNeverDone(es: seq<Expense>, cats: seq<Category>, catId: CategoryId,
                            item: SubItem, today: Date)
    requires forall e :: e in es ==> e.subItemName.None?
    ensures !IsDoneToday(ViewExpenses(es, cats), catId, item, today)
  {
  }

  /** `addExpense` drops the label, so ticking a daily checkbox never ticks it: after
      the server stores the posted expense and the page lists the month again, the
      item is still not done today, and a second click posts again. */
  lemma CheckboxNeverTicks(ledger: seq<Expense>, budgets: seq<Budget>, cats: seq<Category>,
                           owner: UserId, catId: CategoryId, item: SubItem, amount: int,
                           today: Date, k: int)
    requires ValidDate(today)
    requires forall i :: 0 <= i < |ledger| ==> ledger[i].subItemName.None?
    requires amount > 0
    ensures var listed := ViewExpenses(Find(ledger, Query(Some(owner), None, Some(k), Some(k + 1))), cats);
      var click := CheckboxClick(listed, catId, item, amount, today);
      && click.Some?
      && Ingest(ledger, budgets, cats, owner, click.value).Success?
      && var after := Ingest(ledger, budgets, cats, owner, click.value).value.ledger;
         var relisted := ViewExpenses(Find(after, Query(Some(owner), None, Some(k), Some(k + 1))), cats);
         CheckboxClick(relisted, catId, item, amount, today) == click
  {
    var q := Query(Some(owner), None, Some(k), Some(k + 1));
    var listed := Find(ledger, q);
    UnlabelledNeverDone(listed, cats, catId, item, today);
    var click := CheckboxClick(ViewExpenses(listed, cats), catId, item, amount, today);
    var after := Ingest(ledger, budgets, cats, owner, click.value).value.ledger;
    assert forall i :: 0 <= i < |after| ==> after[i].subItemName.None?;
    UnlabelledNeverDone(Find(after, q), cats, catId, item, today);
  }
}
