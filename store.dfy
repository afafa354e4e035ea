/**
 * The persisted collections and the two requests that change them: POST /budgets
 * (`setBudget`) and POST /expenses (`addExpense`). Each request runs as one
 * sequential step.
 */
module Store {
  import opened Wrappers
  import opened Calendar
  import opened Models
  import opened Ledger
  import opened Budgets
  import opened Expenses

  class BudgetStore {
    var categories: seq<Category>
    var budgets: seq<Budget>
    var expenses: seq<Expense>

    /** What every request keeps: one budget per key, budgets that passed their schema,
        real calendar dates, and (since `addExpense` never stores one) no sub-item label
        on any expense. */
    ghost predicate Valid()
      reads this
    {
      && UniqueKeys(budgets)
      && (forall i :: 0 <= i < |budgets| ==> SavedBudget(budgets[i]))
      && ValidDates(expenses)
      && (forall i :: 0 <= i < |expenses| ==> expenses[i].subItemName.None?)
    }

    /** A store with the given categories and no budgets or expenses yet. */
    constructor (categories: seq<Category>)
      ensures Valid()
      ensures this.categories == categories && budgets == [] && expenses == []
    {
      this.categories := categories;
      budgets := [];
      expenses := [];
    }

    /** `setBudget`: look the key up, then change the found budget in place or create
        one; on a rejected save nothing changes. */
    method SetBudget(owner: UserId, req: BudgetRequest) returns (r: Result<Budget, Error>)
      requires Valid()
      modifies this
      ensures Valid()
      ensures categories == old(categories) && expenses == old(expenses)
      ensures match Upsert(old(budgets), owner, req)
              case Success(u) => budgets == u.budgets && r == Success(u.saved)
              case Failure(e) => budgets == old(budgets) && r == Failure(e)
    {
      var found := FindBudget(budgets, owner, req.category, req.month);
      if found.Some? {
        var budget := budgets[found.value];
        budget := budget.(limit := req.limit);
        if req.items.Some? {
          var items := MakeItems(req.items.value);
          if items.None? {
            return Failure(ServerError);
          }
          budget := budget.(items := items.value);
        }
        UpsertKeepsKeysUnique(budgets, owner, req);
        UpsertKeepsSaved(budgets, owner, req);
        budgets := budgets[found.value := budget];
        r := Success(budget);
      } else {
        var items := MakeItems(req.items.GetOr([]));
        if req.month == "" || items.None? {
          return Failure(ServerError);
        }
        var budget := Budget(req.category, req.month, req.limit, items.value, owner);
        UpsertKeepsKeysUnique(budgets, owner, req);
        UpsertKeepsSaved(budgets, owner, req);
        budgets := budgets + [budget];
        r := Success(budget);
      }
    }

    /** `addExpense`: cut the month key from the date text (without one the handler
        throws and answers nothing), save the expense first, then read the budget and
        the category, sum the month and build the response. Budgets and categories
        are never written. */
    method AddExpense(owner: UserId, req: ExpenseRequest) returns (r: Result<AddExpenseResponse, Error>)
      requires Valid()
      modifies this
      ensures Valid()
      ensures budgets == old(budgets) && categories == old(categories)
      ensures match Ingest(old(expenses), budgets, categories, owner, req)
              case Success(x) => expenses == x.ledger && r == Success(x.response)
              case Failure(e) => expenses == old(expenses) && r == Failure(e)
    {
      if req.date.None? {
        return Failure(NoResponse);
      }
      var month := MonthKey(req.date.value);
      var saved := MakeExpense(owner, req.category, req.amount, DateText(req.date.value), None);
      if saved.None? {
        return Failure(ServerError);
      }
      expenses := expenses + [saved.value];
      var found := FindBudget(budgets, owner, req.category, month);
      var name := CategoryName(categories, req.category);
      MonthKeyOfDate(req.date.value);
      var start := ParseDate(month + "-01").value;
      var spent := Spent(expenses, MonthQuery(owner, req.category, MonthIndex(start)));
      var limit := if found.Some? then budgets[found.value].limit else 0;
      r := Success(AddExpenseResponse(saved.value, OverLimit(limit, spent), spent, limit, name));
    }
  }
}
